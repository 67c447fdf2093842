// The calculator object: its six fields, updated in place by the button handler, and each
// method proved to make exactly the transition that CalcSpec describes.

module Calculator {

  import opened CalcSpec

  /**
   * The value of digit d placed at the given decimal place, computed as the button handler does:
   * divide by ten once per place.
   */
  method FractionalDigit(d: DigitValue, place: nat) returns (digit: real)
    ensures digit == d as real / Pow10(place)
    ensures place >= 1 ==> 0.0 <= digit < 1.0
  {
    digit := d as real;
    var i := 0;
    while i < place
      invariant 0 <= i <= place
      invariant digit == d as real / Pow10(i)
    {
      digit := digit / 10.0;
      i := i + 1;
    }
    if place >= 1 {
      assert Pow10(place) == 10.0 * Pow10(place - 1);
      assert digit <= 9.0 / 10.0 by {
        assert d as real / Pow10(place) <= d as real / 10.0;
      }
    }
  }

  class Calc {
    var lastNumber: Value
    var curNumber: real
    var lastOp: Option<Op>
    var afterDec: bool
    var decPlace: nat
    var eqPressed: bool

    /** The six fields as one value. */
    function State(): CalcState
      reads this
    {
      CalcState(lastNumber, curNumber, lastOp, afterDec, decPlace, eqPressed)
    }

    /** A new calculator starts in the reset form, showing its entry. */
    constructor ()
      ensures State() == Init()
      ensures Valid(State())
    {
      new;
      InitState();
    }

    /** `initState`: every field back to its reset value. */
    method InitState()
      modifies this
      ensures State() == Init()
    {
      lastNumber, curNumber := Finite(0.0), 0.0;
      lastOp := None;
      afterDec := false;
      decPlace := 1;
      eqPressed := false;
    }

    /** `compute`: fold the entry into the accumulator and end fractional entry. */
    method Compute()
      modifies this
      ensures State() == CalcSpec.Compute(old(State()))
    {
      match lastOp {
        case None =>
          lastNumber := Finite(curNumber);
        case Some(op) =>
          lastNumber := Apply(op, lastNumber, curNumber);
      }
      afterDec := false;
      decPlace := 1;
    }

    /** `actionPerformed`: handle one button press and return the value the display shows. */
    method Process(i: Input) returns (shown: Value)
      modifies this
      ensures State() == Step(old(State()), i)
      ensures shown == Displayed(State(), i)
      ensures Valid(old(State())) ==> Valid(State())
    {
      match i {
        case Digit(d) =>
          if eqPressed {
            InitState();
          }
          if !afterDec {
            curNumber := curNumber * 10.0 + d as real;
          } else {
            var digit := FractionalDigit(d, decPlace);
            curNumber := curNumber + digit;
            decPlace := decPlace + 1;
          }
          shown := Finite(curNumber);
        case Dot =>
          if eqPressed {
            InitState();
          }
          afterDec := true;
          shown := Finite(curNumber);
        case Oper(op) =>
          if eqPressed {
            eqPressed := false;
          } else {
            Compute();
          }
          lastOp := Some(op);
          curNumber := 0.0;
          shown := lastNumber;
        case Equals =>
          eqPressed := true;
          Compute();
          shown := lastNumber;
        case Clear =>
          InitState();
          shown := Finite(curNumber);
        case ClearEntry =>
          eqPressed := false;
          curNumber := 0.0;
          shown := Finite(curNumber);
      }
    }
  }
}

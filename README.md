# Calculator input state machine

A model of the four-function desk calculator in `Calculator.java`. The calculator keeps one
accumulator (`lastNumber`), the number being typed (`curNumber`), one pending operator
(`lastOp`), the fractional-entry flag and place counter (`afterDec`, `decPlace`) and a flag
saying `=` was the last evaluation (`eqPressed`). The button handler `actionPerformed` turns
each key press (digit, `.`, `+ - * /`, `=`, `C`, `CE`) into an update of these six fields and
shows either the entry or the accumulator.

The project has two modules:

- `CalcSpec` (`calc_spec.dfy`) describes the machine as pure functions: `Step` for one key
  press, `Compute` for the shared `compute` step, `Displayed` for which field is shown and
  `Run`/`Screen` for whole key sequences. The lemmas state the transition rules and the
  behaviour of whole calculations: digit entry, decimal entry, chaining operators left to
  right, `CE`, `C`, repeated `=` and division by zero.
- `Calculator` (`calculator.dfy`) is the object itself. The class `Calc` has the six fields,
  and `InitState`, `Compute` and `Process` (the button handler) update them in place. Each
  method is proved to make exactly the transition that `CalcSpec` gives. `FractionalDigit` is
  the handler's loop that divides a digit by ten once per decimal place.

Java `double`s are modelled as exact `real`s. The accumulator has type `Value`, which is
`Finite(r)` or `NonFinite`. `NonFinite` stands for the infinities and NaN that IEEE-754 gives
for a division by `0.0`. The entry is built from digits only, so it is always finite. An
infinite or NaN accumulator combined with a finite operand is again infinite or NaN. So
"non-finite" is exactly what can be tracked without floating point, and no division needs a
precondition.

The code sets no field on `=` other than `eqPressed` and those that `compute` assigns
(Calculator.java:176-180). `=` leaves the entry as it was, so a second `=` reuses it: it
applies the pending operator again with the same entry. `7 + 3 = =` shows 13 and
`2 * 3 = =` shows 18.

`CE` zeroes the entry but does not end fractional entry (Calculator.java:185-188): the
fractional flag and the decimal place stay as they were. A digit typed after `CE` in the
middle of a fraction therefore lands at the next decimal place, not in the units:
`5 + 9 . 5 CE 2 =` shows 5.02, not 7.

The whole-calculation lemmas (`BinaryThenEquals` to `OperatorAfterEquals`) are stated for
whole-number operands typed as digit strings.

## Model

| member | source | states |
|---|---|---|
| `Calculator.FractionalDigit` | Calculator.java:146-149 | the loop's result is the digit divided by 10^place, and lies in [0, 1) when place ≥ 1 |
| `Calculator.Calc.constructor` | Calculator.java:127-129 | a new calculator is in the reset form, which satisfies the field invariant |
| `Calculator.Calc.InitState` | Calculator.java:194-201 | every field takes its reset value: both numbers 0, no operator, not after the decimal point, place 1, `=` flag clear |
| `Calculator.Calc.Compute` | Calculator.java:203-224 | the fields afterwards are `CalcSpec.Compute` of the fields before |
| `Calculator.Calc.Process` | Calculator.java:132-192 | the fields afterwards are `Step` of the fields before; the returned value is the field the display shows; the field invariant is kept |
| `CalcSpec.Init` | Calculator.java:194-201 | the reset form satisfies the field invariant and shows 0 |
| `CalcSpec.Apply` | Calculator.java:209-220 | a finite result comes only from a finite accumulator and undoes by the inverse operation (a + b − b = a, a − b + b = a, (a·b)/b = a for b ≠ 0, (a/b)·b = a with b ≠ 0): a division by a zero entry is never finite, and a finite accumulator times a zero entry is 0 |
| `CalcSpec.Compute` | Calculator.java:203-224 | after `compute` the field invariant holds whatever the state before; entry, pending operator and `=` flag are unchanged |
| `CalcSpec.Step` | Calculator.java:132-192 | one key press keeps the field invariant, and afterwards the `=` flag is set exactly when the key was `=` |
| `CalcSpec.Displayed` | Calculator.java:153-189 | the display can show a non-finite value only after an operator or `=`, and then it is the accumulator |
| `CalcSpec.RunPreservesValid` | Calculator.java:132-224 | from a state with decPlace ≥ 1, decPlace = 1 outside fractional entry, and `=` flag ⇒ not after the decimal point, every key sequence keeps all three |
| `CalcSpec.AlwaysValid` | Calculator.java:132-224 | from power-on, decPlace ≥ 1 after any key sequence |
| `CalcSpec.ClearResets` | Calculator.java:182-184 | `C` resets all six fields, whatever the state, and shows 0 |
| `CalcSpec.ClearForgetsHistory` | Calculator.java:182-201 | any keys, then `C`, then keys k leave the same state and show the same as k from power-on |
| `CalcSpec.WholeDigit` | Calculator.java:142-145 | outside fractional entry and not after `=`, digit d sets the entry to entry·10 + d, changes nothing else and shows it |
| `CalcSpec.FractionalDigitStep` | Calculator.java:146-152 | in fractional entry, digit d adds d/10^decPlace to the entry and increments decPlace; nothing else changes |
| `CalcSpec.EqualsThenEntryRestarts` | Calculator.java:138-161 | right after `=`, a digit gives the reset state holding just that digit, and `.` gives the reset state in fractional entry |
| `CalcSpec.DotIdempotent` | Calculator.java:156-161 | not right after `=`, `.` only sets the fractional flag (entry and place unchanged) and shows the entry |
| `CalcSpec.DotTwice` | Calculator.java:156-161 | in every state, pressing `.` twice gives the same state as pressing it once |
| `CalcSpec.ComputeSpec` | Calculator.java:203-224 | no pending operator: the accumulator takes the entry; otherwise accumulator := accumulator op entry; fractional entry ends; entry, operator and flag are unchanged |
| `CalcSpec.ApplyNonFinite` | Calculator.java:209-220 | an operation gives a non-finite result exactly when the accumulator is already non-finite or it divides by a zero entry |
| `CalcSpec.OperatorSpec` | Calculator.java:163-174 | after `=` an operator keeps the accumulator, the fractional flag and the place and clears the flag; otherwise it runs compute, which ends fractional entry (flag off, place 1); the operator becomes pending, the entry 0, and the accumulator is shown |
| `CalcSpec.ClearEntrySpec` | Calculator.java:185-189 | `CE` zeroes the entry and clears the `=` flag; accumulator, operator, fractional flag and place are unchanged; 0 is shown |
| `CalcSpec.EqualsRepeatsLastOperation` | Calculator.java:176-180 | two `=` presses apply the pending operator twice with the same entry |
| `CalcSpec.WholeDigits` | Calculator.java:142-145 | digits typed into an empty whole-number entry leave the entry equal to their decimal value and nothing else changed |
| `CalcSpec.DigitsFromReset` | Calculator.java:138-154 | from power-on, digits d1..dn give the reset state with the entry equal to the number d1..dn, and show it |
| `CalcSpec.WholeValueBound` | Calculator.java:142-145 | n typed digits give a value in [0, 10^n − 1] |
| `CalcSpec.FractionDigits` | Calculator.java:146-152 | in fractional entry at place k, digits d1..dn add d1/10^k + … + dn/10^(k+n−1) and advance the place by n |
| `CalcSpec.FractionValueBound` | Calculator.java:146-152 | fractional digits from place k add a non-negative amount of at most 10^−(k−1) − 10^−(k−1+n), which a string of nines reaches |
| `CalcSpec.FractionBelowOne` | Calculator.java:146-152 | fractional digits typed from the first decimal place add an amount in [0, 1) |
| `CalcSpec.DecimalEntry` | Calculator.java:138-161 | from power-on, whole digits, `.`, fractional digits give whole part + fraction, which stays below whole part + 1 |
| `CalcSpec.EqualsThenDigits` | Calculator.java:140-145 | after `=`, a non-empty digit string gives the reset state holding exactly that number |
| `CalcSpec.OperandThenOperator` | Calculator.java:163-174 | typing a number into an empty entry and pressing an operator computes with that number, makes the operator pending and zeroes the entry |
| `CalcSpec.EqualsThenOperator` | Calculator.java:163-180 | `=` then an operator keeps the computed result as accumulator, with the new operator pending and the entry 0 |
| `CalcSpec.BinaryThenEquals` | Calculator.java:163-180 | for whole-number operands a, b: a, op, b, `=` shows a op b (non-finite when op is `/` and b is 0) |
| `CalcSpec.ChainLeftToRight` | Calculator.java:163-180 | for whole-number operands a, b, c: a, o1, b, o2, c, `=` shows (a o1 b) o2 c: no precedence |
| `CalcSpec.ClearEntryKeepsAccumulator` | Calculator.java:163-190 | for whole-number operands a, b, c: a, op, b, `CE`, c, `=` shows a op c |
| `CalcSpec.EqualsThenDigitsRestart` | Calculator.java:138-180 | for whole-number operands a, b and a non-empty whole number c: a, op, b, `=`, c leaves the reset state holding c and shows c |
| `CalcSpec.RepeatedEquals` | Calculator.java:176-180 | for whole-number operands a, b: a, op, b, `=`, `=` shows (a op b) op b |
| `CalcSpec.OperatorAfterEquals` | Calculator.java:163-180 | for whole-number operands a, b, c: a, o1, b, `=`, o2, c, `=` shows (a o1 b) o2 c |
| `CalcSpec.ExampleWholeNumber` | Calculator.java:138-154 | 1, 2, 3 shows 123 |
| `CalcSpec.ExampleDecimal` | Calculator.java:138-161 | 5, `.`, 2, 5 shows 5.25 |
| `CalcSpec.ExampleChain` | Calculator.java:163-180 | 2, +, 3, *, 4, `=` shows 20 |
| `CalcSpec.ExampleClearEntry` | Calculator.java:163-190 | 5, +, 9, `CE`, 2, `=` shows 7 |
| `CalcSpec.ExampleClearEntryInFraction` | Calculator.java:185-188 | `CE` keeps fractional entry: 5, +, 9, `.`, 5, `CE`, 2, `=` shows 5.02 |
| `CalcSpec.ExampleRestart` | Calculator.java:138-180 | 3, +, 4, `=`, 5 shows 5 |
| `CalcSpec.ExampleDivideByZero` | Calculator.java:218-220 | 4, /, 0, `=` shows a non-finite value |
| `CalcSpec.ExampleRepeatedEquals` | Calculator.java:176-180 | 7, +, 3, `=`, `=` shows 13, and 2, *, 3, `=`, `=` shows 18 |

## Left out

- The Swing window: look-and-feel, layout, buttons, mnemonics and the text area (Calculator.java:47-130). This is UI setup over library classes. The constructor keeps only its last two lines: it resets the state, and the entry is what it shows.
- `main` (Calculator.java:226-229), which only creates the window.
- Rendering with `textView.setText("" + x)`. Java's double-to-string formatting belongs to the library. The model returns the shown value and leaves its formatting out.
- Reading the key from the button label (`getText`, `charAt(0)`, `label.length() == 1` to tell `C` from `CE`) and `Double.parseDouble` of the digit label. Key presses are the `Input` datatype instead, and a digit is a value 0..9.
- IEEE-754 rounding and overflow. Numbers are exact reals, so a long entry never becomes infinite. The model also does not tell +Infinity, −Infinity and NaN apart: all three are `NonFinite`.
- Java's signed zero (`0 - 5 * 0 =` shows `-0.0`; the model gives 0) and the 32-bit `int` range of `decPlace` (modelled as an unbounded natural, so its wrap-around after 2^31 fractional digits is not modelled).
- Calculator.FractionalDigit: the result is the exact d/10^place. The source divides a double by 10.0 repeatedly, and each division rounds.
- Concurrency: the handler runs on the UI event thread, one event at a time, so `Process` is a plain sequential method.

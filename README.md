# SimpleCalculator keystroke state machine in Dafny

This project models the calculator screen of the SimpleCalculator iOS app.
The screen keeps three pieces of state:

- the text being typed (`textInput`: digits and at most one point);
- the pending calculation `Input`, which holds two optional operands and an optional operator;
- the result text `showingResult`, where `""` means that no result is shown.

Each button runs a handler that updates this state in place.

- `calculator.dfy`, module `SimpleCalculator`: the operator enumeration, the
  `Input` record with `IsCompleted`, `Calculate`, and the class `ContentView`.
  The class holds the three fields and has one method per handler: digit
  press (`AddInput`), the decimal-point, Delete and `=` buttons, `SetOperator`
  and `AssignInput`. Its invariant `Valid()` says three things:
  - the buffer holds digits and a point only at index 1;
  - the second operand is never set without the first;
  - formatting a number never gives `""`.
- `keystrokes.dfy`, module `Keystrokes`: `Echo`, the buffer that a sequence of
  digit and point keys produces, with lemmas about it. `TypeIn` is a method
  that types keys on a new calculator in a loop and is proved to display `Echo`.
  Short key sequences (`5 + 3 =`, a chained `+`, division by zero, Delete
  after a result, backspace) are methods that drive a new `ContentView`
  through its handlers. Each is proved, from the handlers' contracts alone, to
  display what the code displays.

Numbers are left abstract. The number type is a type parameter `Num`. The
record `Numerics<Num>` supplies what the code takes from Swift's `Double`:

- `parse` stands for `Double(String)` and returns `None` on failure;
- `format` stands for `String(Double)`;
- `times`, `over`, `plus` and `minus` are the four operators;
- `zero` is the literal `0`.

The only assumption about them is that `format` never returns the empty
string. The verified content is therefore the control logic.

Where a prose description of the app and its code disagree, the model follows
the code:

- a digit press does not clear a shown result: the display keeps the result
  while the next number is typed;
- the point is accepted only when the buffer holds exactly one character, so
  it is never the first character and never follows a number of two digits or more;
- an operator press on an empty buffer does nothing, even while a result is shown;
- a chained operator keeps the old second operand and does not clear it;
- Delete on an empty buffer does nothing, even while a result is shown;
- an operator press whose buffer fails to parse still records the operator and
  clears the buffer.

## Model

| member | source | states |
|---|---|---|
| SimpleCalculator.Input.IsCompleted | SimpleCalculator/ContentView.swift:22-24 | the record is complete iff both operands and the operator are present |
| SimpleCalculator.Calculate | SimpleCalculator/ContentView.swift:124-137 | needs both operands; applies the operator that `opr` names (product, quotient with no zero-divisor guard, sum, difference) and gives 0 when there is no operator |
| SimpleCalculator.BufferHasAtMostOnePoint | SimpleCalculator/ContentView.swift:54-58 | a buffer of the shape the keypad allows never starts with a point and holds at most one |
| SimpleCalculator.ContentView.constructor | SimpleCalculator/ContentView.swift:28-30 | a new screen has an empty buffer, an empty record and no result, and satisfies the invariant |
| SimpleCalculator.ContentView.Display | SimpleCalculator/ContentView.swift:34 | shows the result when one is shown, otherwise the buffer; blank exactly when both are empty |
| SimpleCalculator.ContentView.AddInput | SimpleCalculator/ContentView.swift:91-93 | appends exactly the one key to the buffer; the record and the result text are untouched; the buffer keeps its shape |
| SimpleCalculator.ContentView.PressDecimalPoint | SimpleCalculator/ContentView.swift:54-58 | appends "." iff the buffer has exactly one character, otherwise changes nothing; record and result untouched |
| SimpleCalculator.ContentView.PressDelete | SimpleCalculator/ContentView.swift:60-73 | no-op on an empty buffer even with a result shown; removes only the last character while no result is shown; otherwise resets buffer, record and result |
| SimpleCalculator.ContentView.PressEquals | SimpleCalculator/ContentView.swift:76-87 | no-op on an empty buffer; if the record is complete after the commit, shows the formatted value (and the display shows it) and resets record and buffer; otherwise only the commit persists and the buffer keeps its text |
| SimpleCalculator.ContentView.SetOperator | SimpleCalculator/ContentView.swift:95-111 | no-op on an empty buffer; otherwise always ends with the new operator and an empty buffer, parse failure included; a record complete after the commit has its value put in the first operand and shown, with the second operand kept |
| SimpleCalculator.ContentView.AssignInput | SimpleCalculator/ContentView.swift:113-122 | reports whether the buffer parses; on failure changes nothing; on success fills the first operand if absent, otherwise overwrites the second; operator, buffer and result never touched; keeps the invariant |
| Keystrokes.Echo | SimpleCalculator/ContentView.swift:36-59 | the buffer a sequence of digit and point keys types has the keypad's shape and is no longer than the sequence |
| Keystrokes.EchoOfShapedBuffer | SimpleCalculator/ContentView.swift:54-58 | every buffer with digits and a point only at index 1 is typed exactly as it reads |
| Keystrokes.SecondPointIgnored | SimpleCalculator/ContentView.swift:54-58 | pressing "." twice in a row types the same buffer as pressing it once |
| Keystrokes.MisplacedPointsRejected | SimpleCalculator/ContentView.swift:54-58 | a point on an empty buffer and after two digits is dropped; a point after one digit is kept |
| Keystrokes.TypeIn | SimpleCalculator/ContentView.swift:34-59 | typing any sequence of digit and point keys on a new screen displays exactly the buffer `Echo` gives |
| Keystrokes.AddFiveAndThree | SimpleCalculator/ContentView.swift:76-111 | `5 + 3 =` displays the formatted sum of the parsed operands |
| Keystrokes.ChainAdditions | SimpleCalculator/ContentView.swift:95-111 | `5 + 3 + 2 =`: the second `+` shows 5+3, typing 2 leaves that on the display, `=` displays (5+3)+2 |
| Keystrokes.ChainKeepsSecondOperand | SimpleCalculator/ContentView.swift:95-111 | after `5 + 3 x` the record is (5+3, 3, x): the old second operand stays; `=` with nothing typed changes nothing |
| Keystrokes.DivideByZero | SimpleCalculator/ContentView.swift:128-129 | `1 / 0 =` displays the formatted quotient the number layer gives; no error path is taken |
| Keystrokes.DeleteAfterResult | SimpleCalculator/ContentView.swift:60-73 | after `5 + 3 =`, Delete does nothing and typing 7 still displays the sum; a second Delete clears the display and the record |
| Keystrokes.Backspace | SimpleCalculator/ContentView.swift:60-73 | `4 2 Delete` displays "4", one more Delete displays "" |

## Left out

- SwiftUI layout, `@State` re-rendering and the preview (ContentView.swift:32-53, 140-142): presentation only. The button closures are the methods of `ContentView`. The label-to-handler mapping is kept only in that the digit buttons call `AddInput` with a digit.
- IEEE-754 arithmetic: rounding, overflow, and infinities or NaN from a zero divisor. The four operators are abstract fields of `Numerics`, and no numeric result is proved.
- Swift's `Double(String)` parser and `String(Double)` formatter are foreign library calls. They are the abstract `parse` and `format`, and the only assumption is that `format` is never empty.
- The `InputError` type and the `throw`/`try?` machinery (ContentView.swift:14-16, 81, 100) are not modelled as such. `AssignInput` returns whether the parse succeeded, and its callers ignore that flag just as `try?` discards the error.
- Swift's `count` counts grapheme clusters. Every character the keypad can type is a single ASCII character, so the model uses the sequence length.

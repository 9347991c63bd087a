/**
  The keystroke state machine of SimpleCalculator.

  The app keeps three pieces of state: the text being typed (`textInput`), the
  pending two-operand record (`input`) and the result text (`showingResult`,
  where "" means that no result is shown). Each button runs a synchronous
  handler that updates that state in place; the class `ContentView` below holds
  the state and has one method per handler.

  The numbers are Swift `Double`s. This model does not reason about them: the
  number type is the type parameter `Num`, and the conversions and the four
  operations the code uses are the fields of a `Numerics` record.
 */
module SimpleCalculator {

  datatype Option<T> = None | Some(value: T)

  /** The four operator keys. */
  datatype Operator = Multiplication | Division | Addition | Subtraction

  /**
    The floating-point layer the calculator calls into: `parse` is
    `Double(String)` (None when the text is not a number), `format` is
    `String(Double)`, then the four arithmetic operators and the literal 0.
   */
  datatype Numerics<!Num(!new)> = Numerics(
    parse: string -> Option<Num>,
    format: Num -> string,
    times: (Num, Num) -> Num,
    over: (Num, Num) -> Num,
    plus: (Num, Num) -> Num,
    minus: (Num, Num) -> Num,
    zero: Num)
  {
    /** Converting a number to text never gives the empty string. */
    ghost predicate FormatsNonEmpty() {
      forall x :: format(x) != ""
    }
  }

  /** The pending calculation: two operands and an operator, each optional. */
  datatype Input<Num> = Input(operand1: Option<Num>, operand2: Option<Num>, opr: Option<Operator>)
  {
    predicate IsCompleted()
      ensures IsCompleted() <==> operand1 != None && operand2 != None && opr != None
    {
      operand1.Some? && operand2.Some? && opr.Some?
    }

    /** The second slot is filled only once the first one is. */
    predicate Coherent() {
      operand2.Some? ==> operand1.Some?
    }
  }

  /** The record a new calculator starts with, and the one a reset restores. */
  function EmptyInput<Num>(): Input<Num> {
    Input(None, None, None)
  }

  /**
    The value of the pending calculation. The source force-unwraps both
    operands; a missing operator gives 0. Division is not guarded: whatever
    the floating-point layer does with a zero divisor is the result.
   */
  function Calculate<Num(!new)>(nu: Numerics<Num>, i: Input<Num>): (r: Num)
    requires i.operand1.Some? && i.operand2.Some?
    ensures i.opr == Some(Multiplication) ==> r == nu.times(i.operand1.value, i.operand2.value)
    ensures i.opr == Some(Division) ==> r == nu.over(i.operand1.value, i.operand2.value)
    ensures i.opr == Some(Addition) ==> r == nu.plus(i.operand1.value, i.operand2.value)
    ensures i.opr == Some(Subtraction) ==> r == nu.minus(i.operand1.value, i.operand2.value)
    ensures i.opr == None ==> r == nu.zero
  {
    var a, b := i.operand1.value, i.operand2.value;
    match i.opr
    case Some(Multiplication) => nu.times(a, b)
    case Some(Division) => nu.over(a, b)
    case Some(Addition) => nu.plus(a, b)
    case Some(Subtraction) => nu.minus(a, b)
    case None => nu.zero
  }

  /**
    The record after committing the buffer `text` into it, as a caller that
    discards the parse error sees it: unchanged when the text does not parse,
    otherwise the parsed value goes into the first operand if that is empty
    and into the second one if not.
   */
  function Assigned<Num(!new)>(nu: Numerics<Num>, i: Input<Num>, text: string): Input<Num> {
    match nu.parse(text)
    case None => i
    case Some(x) => if i.operand1.None? then i.(operand1 := Some(x)) else i.(operand2 := Some(x))
  }

  predicate IsDigit(c: char) {
    '0' <= c <= '9'
  }

  /**
    The shape the keypad lets the buffer take: digits, and a decimal point
    nowhere but at index 1.
   */
  predicate BufferShape(t: string) {
    forall i :: 0 <= i < |t| ==> IsDigit(t[i]) || (t[i] == '.' && i == 1)
  }

  /** A buffer of that shape never starts with a point and holds at most one. */
  lemma BufferHasAtMostOnePoint(t: string)
    requires BufferShape(t)
    ensures |t| > 0 ==> t[0] != '.'
    ensures forall i, j :: 0 <= i < j < |t| && t[i] == '.' ==> t[j] != '.'
  {
  }

  class ContentView<Num(!new)> {
    const nu: Numerics<Num>
    var textInput: string
    var input: Input<Num>
    var showingResult: string

    /** The invariant every handler keeps. */
    ghost predicate Valid()
      reads this
    {
      nu.FormatsNonEmpty() && BufferShape(textInput) && input.Coherent()
    }

    constructor (nu: Numerics<Num>)
      requires nu.FormatsNonEmpty()
      ensures Valid() && this.nu == nu
      ensures textInput == "" && input == EmptyInput() && showingResult == ""
    {
      this.nu := nu;
      textInput, input, showingResult := "", EmptyInput(), "";
    }

    /** The text on the display: the result while one is shown, otherwise the buffer. */
    function Display(): (text: string)
      reads this
      ensures showingResult != "" ==> text == showingResult
      ensures showingResult == "" ==> text == textInput
      ensures text == "" <==> showingResult == "" && textInput == ""
    {
      if showingResult != "" then showingResult else textInput
    }

    /**
      Appends one key to the buffer. The buttons pass a digit, and the
      decimal-point button passes "." only when the buffer holds one character.
     */
    method AddInput(newInput: char)
      requires Valid()
      requires IsDigit(newInput) || (newInput == '.' && |textInput| == 1)
      modifies this
      ensures Valid()
      ensures textInput == old(textInput) + [newInput]
      ensures input == old(input) && showingResult == old(showingResult)
    {
      textInput := textInput + [newInput];
    }

    /** The "." button: accepted only when the buffer holds exactly one character. */
    method PressDecimalPoint()
      requires Valid()
      modifies this
      ensures Valid()
      ensures |old(textInput)| == 1 ==> textInput == old(textInput) + "."
      ensures |old(textInput)| != 1 ==> textInput == old(textInput)
      ensures input == old(input) && showingResult == old(showingResult)
    {
      if |textInput| == 1 {
        AddInput('.');
      }
    }

    /**
      The Delete button: nothing on an empty buffer (even while a result is
      shown), a backspace while no result is shown, a full reset otherwise.
     */
    method PressDelete()
      requires Valid()
      modifies this
      ensures Valid()
      ensures old(textInput) == "" ==>
        textInput == "" && input == old(input) && showingResult == old(showingResult)
      ensures old(textInput) != "" && old(showingResult) == "" ==>
        textInput == old(textInput)[..|old(textInput)| - 1] && input == old(input) && showingResult == ""
      ensures old(textInput) != "" && old(showingResult) != "" ==>
        textInput == "" && input == EmptyInput() && showingResult == ""
    {
      if textInput == "" {
        return;
      }
      if showingResult == "" {
        textInput := textInput[..|textInput| - 1];
        return;
      }
      showingResult := "";
      textInput := "";
      input := EmptyInput();
    }

    /**
      The "=" button: commits the buffer and, when the record is then
      complete, shows its value and starts afresh. Otherwise only the commit
      remains and the buffer keeps its text.
     */
    method PressEquals()
      requires Valid()
      modifies this
      ensures Valid()
      ensures old(textInput) == "" ==>
        textInput == "" && input == old(input) && showingResult == old(showingResult)
      ensures old(textInput) != "" && Assigned(nu, old(input), old(textInput)).IsCompleted() ==>
        showingResult == nu.format(Calculate(nu, Assigned(nu, old(input), old(textInput)))) &&
        Display() == showingResult && input == EmptyInput() && textInput == ""
      ensures old(textInput) != "" && !Assigned(nu, old(input), old(textInput)).IsCompleted() ==>
        input == Assigned(nu, old(input), old(textInput)) &&
        textInput == old(textInput) && showingResult == old(showingResult)
    {
      if textInput == "" {
        return;
      }
      var _ := AssignInput();
      if input.IsCompleted() {
        showingResult := nu.format(Calculate(nu, input));
        input := EmptyInput();
        textInput := "";
      }
    }

    /**
      An operator button: commits the buffer; if the record is then complete,
      its value becomes the first operand and is shown, the second operand
      staying as it was. The operator is recorded and the buffer cleared in
      every case, a failed parse included. Nothing happens on an empty buffer.
     */
    method SetOperator(op: Operator)
      requires Valid()
      modifies this
      ensures Valid()
      ensures old(textInput) == "" ==>
        textInput == "" && input == old(input) && showingResult == old(showingResult)
      ensures old(textInput) != "" ==> textInput == "" && input.opr == Some(op)
      ensures old(textInput) != "" && Assigned(nu, old(input), old(textInput)).IsCompleted() ==>
        var committed := Assigned(nu, old(input), old(textInput));
        var res := Calculate(nu, committed);
        input == Input(Some(res), committed.operand2, Some(op)) && showingResult == nu.format(res)
      ensures old(textInput) != "" && !Assigned(nu, old(input), old(textInput)).IsCompleted() ==>
        input == Assigned(nu, old(input), old(textInput)).(opr := Some(op)) &&
        showingResult == old(showingResult)
    {
      if textInput == "" {
        return;
      }
      var _ := AssignInput();
      if input.IsCompleted() {
        var res := Calculate(nu, input);
        input := input.(operand1 := Some(res));
        showingResult := nu.format(res);
      }
      input := input.(opr := Some(op));
      textInput := "";
    }

    /**
      Commits the buffer into the next operand slot. A failed parse (the
      source's throw, reported here as `parsed == false`) changes nothing; a
      successful one fills the first operand if it is empty and overwrites the
      second otherwise. The operator, the buffer and the result text are
      never touched.
     */
    method AssignInput() returns (parsed: bool)
      requires Valid()
      modifies this`input
      ensures Valid()
      ensures parsed <==> nu.parse(textInput).Some?
      ensures !parsed ==> input == old(input)
      ensures parsed && old(input).operand1.None? ==>
        input == old(input).(operand1 := nu.parse(textInput))
      ensures parsed && old(input).operand1.Some? ==>
        input == old(input).(operand2 := nu.parse(textInput))
      ensures input.opr == old(input).opr
      ensures input == Assigned(nu, old(input), textInput)
    {
      var doubled := nu.parse(textInput);
      if doubled.None? {
        return false;
      }
      if input.operand1.None? {
        input := input.(operand1 := doubled);
      } else {
        input := input.(operand2 := doubled);
      }
      return true;
    }
  }
}

/**
  What sequences of button presses do to a calculator, stated once for all
  inputs (typing a number) and for the key sequences the app's behaviour is
  usually described by. Each sequence method builds a new `ContentView` and
  drives it through its handlers only, so what it promises follows from the
  handlers' contracts.
 */
module Keystrokes {
  import opened SimpleCalculator

  /** A key that types into the buffer: a digit or the decimal point. */
  predicate IsKey(c: char) {
    IsDigit(c) || c == '.'
  }

  /**
    The buffer that typing `keys` into an empty buffer leaves: every digit is
    appended, a point only when the buffer typed so far has exactly one
    character.
   */
  function Echo(keys: seq<char>): (buffer: string)
    requires forall i :: 0 <= i < |keys| ==> IsKey(keys[i])
    ensures BufferShape(buffer) && |buffer| <= |keys|
  {
    if keys == [] then ""
    else
      var before := Echo(keys[..|keys| - 1]);
      var k := keys[|keys| - 1];
      if k != '.' then ShapeExtends(before, k); before + [k]
      else if |before| == 1 then ShapeExtends(before, k); before + "."
      else before
  }

  /** Appending a digit, or a point to a one-character buffer, keeps the buffer's shape. */
  lemma ShapeExtends(t: string, c: char)
    requires BufferShape(t) && IsKey(c)
    requires c == '.' ==> |t| == 1
    ensures BufferShape(t + [c])
  {
  }

  /** Every buffer of the shape the keypad allows is typed exactly as it reads. */
  lemma {:induction false} EchoOfShapedBuffer(s: string)
    requires BufferShape(s)
    ensures Echo(s) == s
  {
    if s != [] {
      var before := s[..|s| - 1];
      assert BufferShape(before);
      EchoOfShapedBuffer(before);
      assert s == before + [s[|s| - 1]];
    }
  }

  /** A second point in a row is ignored: pressing "." twice types what pressing it once does. */
  lemma SecondPointIgnored(keys: seq<char>)
    requires forall i :: 0 <= i < |keys| ==> IsKey(keys[i])
    ensures Echo(keys + ['.', '.']) == Echo(keys + ['.'])
  {
    var once := keys + ['.'];
    var twice := once + ['.'];
    assert keys + ['.', '.'] == twice;
    assert forall i :: 0 <= i < |once| ==> IsKey(once[i]);
    assert twice[..|twice| - 1] == once;
    assert once[..|once| - 1] == keys;
    var typed := Echo(keys);
    if |typed| == 1 {
      assert Echo(once) == typed + ".";
    } else {
      assert Echo(once) == typed;
    }
  }

  /**
    A point on an empty buffer and a point after two characters are both
    rejected; a point after a single digit is accepted, even when an earlier
    point was rejected.
   */
  lemma MisplacedPointsRejected()
    ensures Echo(".3") == "3"
    ensures Echo(".3.") == "3."
    ensures Echo("12.") == "12"
  {
  }

  /** Typing `keys` on a new calculator displays exactly `Echo(keys)`. */
  method TypeIn<Num(!new)>(nu: Numerics<Num>, keys: seq<char>) returns (shown: string)
    requires nu.FormatsNonEmpty()
    requires forall i :: 0 <= i < |keys| ==> IsKey(keys[i])
    ensures shown == Echo(keys)
  {
    var c := new ContentView(nu);
    var n := 0;
    while n < |keys|
      invariant 0 <= n <= |keys|
      invariant c.Valid() && c.nu == nu
      invariant c.textInput == Echo(keys[..n]) && c.showingResult == ""
    {
      assert keys[..n + 1][..n] == keys[..n];
      if keys[n] == '.' {
        c.PressDecimalPoint();
      } else {
        c.AddInput(keys[n]);
      }
      n := n + 1;
    }
    assert keys[..n] == keys;
    shown := c.Display();
  }

  /** 5 + 3 = shows the formatted sum. */
  method AddFiveAndThree<Num(!new)>(nu: Numerics<Num>) returns (shown: string)
    requires nu.FormatsNonEmpty() && nu.parse("5").Some? && nu.parse("3").Some?
    ensures shown == nu.format(nu.plus(nu.parse("5").value, nu.parse("3").value))
  {
    var c := new ContentView(nu);
    c.AddInput('5');
    assert c.textInput == "5";
    c.SetOperator(Addition);
    c.AddInput('3');
    assert c.textInput == "3";
    c.PressEquals();
    shown := c.Display();
  }

  /**
    5 + 3 + 2 =: the second "+" evaluates 5 + 3 and shows it; typing 2 does
    not replace that result on the display; "=" then adds 2 to it.
   */
  method ChainAdditions<Num(!new)>(nu: Numerics<Num>) returns (afterTwo: string, shown: string)
    requires nu.FormatsNonEmpty()
    requires nu.parse("5").Some? && nu.parse("3").Some? && nu.parse("2").Some?
    ensures afterTwo == nu.format(nu.plus(nu.parse("5").value, nu.parse("3").value))
    ensures shown ==
      nu.format(nu.plus(nu.plus(nu.parse("5").value, nu.parse("3").value), nu.parse("2").value))
  {
    var c := new ContentView(nu);
    c.AddInput('5');
    assert c.textInput == "5";
    c.SetOperator(Addition);
    c.AddInput('3');
    assert c.textInput == "3";
    c.SetOperator(Addition);
    c.AddInput('2');
    assert c.textInput == "2";
    afterTwo := c.Display();
    c.PressEquals();
    shown := c.Display();
  }

  /**
    5 + 3 x keeps 3 as the second operand beside the new first operand 5 + 3;
    "=" is then ignored while nothing is typed.
   */
  method ChainKeepsSecondOperand<Num(!new)>(nu: Numerics<Num>) returns (pending: Input<Num>, shown: string)
    requires nu.FormatsNonEmpty() && nu.parse("5").Some? && nu.parse("3").Some?
    ensures pending ==
      Input(Some(nu.plus(nu.parse("5").value, nu.parse("3").value)), nu.parse("3"), Some(Multiplication))
    ensures shown == nu.format(nu.plus(nu.parse("5").value, nu.parse("3").value))
  {
    var c := new ContentView(nu);
    c.AddInput('5');
    assert c.textInput == "5";
    c.SetOperator(Addition);
    c.AddInput('3');
    assert c.textInput == "3";
    c.SetOperator(Multiplication);
    c.PressEquals();
    pending := c.input;
    shown := c.Display();
  }

  /** 1 / 0 = shows whatever the number layer makes of a zero divisor; no error is raised. */
  method DivideByZero<Num(!new)>(nu: Numerics<Num>) returns (shown: string)
    requires nu.FormatsNonEmpty() && nu.parse("1").Some? && nu.parse("0").Some?
    ensures shown == nu.format(nu.over(nu.parse("1").value, nu.parse("0").value))
  {
    var c := new ContentView(nu);
    c.AddInput('1');
    assert c.textInput == "1";
    c.SetOperator(Division);
    c.AddInput('0');
    assert c.textInput == "0";
    c.PressEquals();
    shown := c.Display();
  }

  /**
    5 + 3 = Delete 7 Delete: the first Delete meets an empty buffer and does
    nothing, so after 7 the display still shows the sum; the second Delete
    meets a typed buffer beside a shown result and clears everything.
   */
  method DeleteAfterResult<Num(!new)>(nu: Numerics<Num>) returns (afterSeven: string, cleared: string, pending: Input<Num>)
    requires nu.FormatsNonEmpty() && nu.parse("5").Some? && nu.parse("3").Some?
    ensures afterSeven == nu.format(nu.plus(nu.parse("5").value, nu.parse("3").value))
    ensures cleared == "" && pending == EmptyInput()
  {
    var c := new ContentView(nu);
    c.AddInput('5');
    assert c.textInput == "5";
    c.SetOperator(Addition);
    c.AddInput('3');
    assert c.textInput == "3";
    c.PressEquals();
    c.PressDelete();
    c.AddInput('7');
    afterSeven := c.Display();
    c.PressDelete();
    cleared := c.Display();
    pending := c.input;
  }

  /** 4 2 Delete Delete: each Delete removes the last typed character. */
  method Backspace<Num(!new)>(nu: Numerics<Num>) returns (afterFirst: string, afterSecond: string)
    requires nu.FormatsNonEmpty()
    ensures afterFirst == "4" && afterSecond == ""
  {
    var c := new ContentView(nu);
    c.AddInput('4');
    c.AddInput('2');
    assert c.textInput == "42";
    c.PressDelete();
    afterFirst := c.Display();
    c.PressDelete();
    afterSecond := c.Display();
  }
}

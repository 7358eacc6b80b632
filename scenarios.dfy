/** Client code that drives a `Calculator` through sequences of events and
    shows what the method contracts let a caller conclude. */
module Scenarios {
  import opened Sanitizer
  import opened Keys
  import opened Calculator

  /** Press `1`, `+`, `2`, `=` on a new calculator: buffer and result label
      hold the result, while the entry label keeps showing the typed text. */
  method FirstCalculation(eval: Evaluator) returns (c: Calculator)
    requires eval("1+2") == Value("3")
    ensures c.expression == "3" && c.resultText == "3" && c.entryText == "1+2"
  {
    c := new Calculator();
    c.AddToExpression("1");
    c.AddToExpression("+");
    assert c.expression == "1+";
    c.AddToExpression("2");
    assert c.expression == "1+2";
    SanitizeFixesExactlySafe("1+2");
    c.Evaluate(eval);
  }

  /** Then press `*`, `3`, `=`: the result of the first evaluation is the
      start of the next expression. */
  method ChainOnResult(c: Calculator, eval: Evaluator)
    requires c.expression == "3"
    requires eval("3*3") == Value("9")
    modifies c
    ensures c.expression == "9" && c.resultText == "9" && c.entryText == "3*3"
  {
    c.AddToExpression("*");
    c.AddToExpression("3");
    assert c.expression == "3*3";
    SanitizeFixesExactlySafe("3*3");
    c.Evaluate(eval);
  }

  /** `=` on a new calculator: nothing survives the filter, so nothing
      changes. */
  method EmptyEvaluation(eval: Evaluator) returns (c: Calculator)
    ensures c.IsCleared()
  {
    c := new Calculator();
    c.Evaluate(eval);
  }

  /** Typing `1/0` and `=`: the buffer is emptied, the result label reads
      `Math Error`, and the entry label still shows `1/0`. */
  method DivisionByZero(eval: Evaluator) returns (c: Calculator)
    requires eval("1/0") == ZeroDivision
    ensures c.expression == "" && c.resultText == MathError && c.entryText == "1/0"
  {
    c := new Calculator();
    c.AddToExpression("1/0");
    assert c.expression == "1/0";
    SanitizeFixesExactlySafe("1/0");
    c.Evaluate(eval);
  }

  /** Then typing `1+` and `=`: the buffer is emptied again and the result
      label reads `Syntax Error`. */
  method SyntaxErrorAfterError(c: Calculator, eval: Evaluator)
    requires c.expression == ""
    requires eval("1+") == SyntaxOrNameError
    modifies c
    ensures c.expression == "" && c.resultText == SyntaxError && c.entryText == "1+"
  {
    c.AddToExpression("1+");
    assert c.expression == "1+";
    SanitizeFixesExactlySafe("1+");
    c.Evaluate(eval);
  }

  /** A digit key appends its keysym. */
  method DigitKeyAppends(c: Calculator, eval: Evaluator)
    modifies c
    ensures c.expression == old(c.expression) + "7" && c.entryText == c.expression
    ensures c.resultText == old(c.resultText)
  {
    SingleKeysym('7');
    assert IsSubstring("7", SafeChars) by {
      assert "7" == ['7'];
    }
    c.HandleKeypress("7", "7", eval);
  }

  /** An operator key is ignored: Tk names it `plus`, which is not part of the
      safe string, and its character `+` is neither `=` nor a `c`. */
  method PlusKeyIgnored(c: Calculator, eval: Evaluator)
    modifies c
    ensures c.expression == old(c.expression) && c.entryText == old(c.entryText)
    ensures c.resultText == old(c.resultText)
  {
    NamedKeysymsFail();
    c.HandleKeypress("plus", "+", eval);
  }

  /** Return evaluates the buffer. */
  method ReturnKeyEvaluates(c: Calculator, eval: Evaluator)
    modifies c
    ensures c.EvaluatedFrom(old(c.expression), old(c.resultText), eval)
    ensures c.entryText == old(c.entryText)
  {
    NamedKeysymsFail();
    c.HandleKeypress("Return", "\r", eval);
  }

  /** Shift-`c` clears as `c` does. */
  method ShiftCClears(c: Calculator, eval: Evaluator)
    modifies c
    ensures c.IsCleared()
  {
    assert !IsSubstring("C", SafeChars) && Lower("C") == "c" by {
      SingleKeysym('C');
      assert "C" == ['C'];
    }
    c.HandleKeypress("C", "C", eval);
  }

  /** Clearing twice leaves the same state as clearing once. */
  method ClearTwice(c: Calculator)
    modifies c
    ensures c.IsCleared()
    ensures c.dragX == old(c.dragX) && c.dragY == old(c.dragY)
    ensures c.windowX == old(c.windowX) && c.windowY == old(c.windowY)
  {
    c.Clear();
    c.Clear();
  }

  /** A motion event with the pointer at screen position (p, q). The event
      coordinates are relative to the widget that took the press (its
      implicit grab), which sits at offset (offX, offY) inside the window, so
      the event reports (p - windowX - offX, q - windowY - offY). Afterwards
      the grab point is under the pointer again. */
  method MoveTo(c: Calculator, offX: int, offY: int, p: int, q: int)
    modifies c`windowX, c`windowY
    ensures p - c.windowX - offX == c.dragX && q - c.windowY - offY == c.dragY
  {
    c.DoMove(p - c.windowX - offX, q - c.windowY - offY);
  }

  /** A whole drag: pressing at screen position (p0, q0) and moving through
      (p1, q1) to (p2, q2) leaves the window displaced by exactly the
      pointer's travel, and release resets the grab point. */
  method DragFollowsPointer(c: Calculator, offX: int, offY: int,
                            p0: int, q0: int, p1: int, q1: int, p2: int, q2: int)
    modifies c
    ensures c.windowX == old(c.windowX) + (p2 - p0)
    ensures c.windowY == old(c.windowY) + (q2 - q0)
    ensures c.dragX == 0 && c.dragY == 0
    ensures c.expression == old(c.expression) && c.resultText == old(c.resultText)
  {
    c.StartMove(p0 - c.windowX - offX, q0 - c.windowY - offY);
    MoveTo(c, offX, offY, p1, q1);
    MoveTo(c, offX, offY, p2, q2);
    c.StopMove();
  }
}

/** The calculator's state machine: the expression buffer, the two display
    labels, and the window-drag offsets. Widgets, fonts and the event loop are
    not modelled; the window origin that the window manager would report is
    held in two integer fields. */
module Calculator {
  import opened Sanitizer
  import opened Keys

  /** What the Python evaluator does with a sanitised expression: return a
      value (already turned into its `str` form), raise `ZeroDivisionError`,
      raise `SyntaxError` or `NameError`, or raise anything else, which no
      handler catches. */
  datatype Outcome =
    | Value(text: string)
    | ZeroDivision
    | SyntaxOrNameError
    | Uncaught

  /** The evaluator, an oracle outside the model. */
  type Evaluator = string -> Outcome

  /** The texts the result label shows on the two caught errors. */
  const MathError: string := "Math Error"
  const SyntaxError: string := "Syntax Error"

  /** The geometry string at start-up places the window at (400, 200). */
  const InitialX: int := 400
  const InitialY: int := 200

  class Calculator {
    /** The expression typed so far (`calc_expression`). */
    var expression: string
    /** The text of the small entry label. */
    var entryText: string
    /** The text of the large result label. */
    var resultText: string
    /** The pointer offset recorded when the mouse button went down. */
    var dragX: int
    var dragY: int
    /** The window's origin on the screen. */
    var windowX: int
    var windowY: int

    constructor ()
      ensures expression == "" && entryText == "" && resultText == ""
      ensures dragX == 0 && dragY == 0
      ensures windowX == InitialX && windowY == InitialY
    {
      expression, entryText, resultText := "", "", "";
      dragX, dragY := 0, 0;
      windowX, windowY := InitialX, InitialY;
    }

    /** The buffer and the result label are what `evaluate` leaves behind when
        it starts from buffer `expr0` and result label `result0`. */
    ghost predicate EvaluatedFrom(expr0: string, result0: string, eval: Evaluator)
      reads this
    {
      var safe := Sanitize(expr0);
      if safe == [] then expression == expr0 && resultText == result0
      else match eval(safe)
        case Value(t) => resultText == t && expression == t
        case ZeroDivision => resultText == MathError && expression == ""
        case SyntaxOrNameError => resultText == SyntaxError && expression == ""
        case Uncaught => expression == expr0 && resultText == result0
    }

    /** Buffer and both labels are empty. */
    ghost predicate IsCleared()
      reads this
    {
      expression == "" && entryText == "" && resultText == ""
    }

    /** A keypad button or a typed key: the text goes on the end of the buffer
        and the entry label shows the whole buffer. */
    method AddToExpression(value: string)
      modifies this`expression, this`entryText
      ensures expression == old(expression) + value
      ensures entryText == expression
      ensures Sanitize(expression) == Sanitize(old(expression)) + Sanitize(value)
    {
      SanitizeAppend(expression, value);
      expression := expression + value;
      entryText := expression;
    }

    /** The `C` button or the Escape key. */
    method Clear()
      modifies this`expression, this`entryText, this`resultText
      ensures IsCleared()
    {
      expression := "";
      entryText := "";
      resultText := "";
    }

    /** The `=` button or the Return key: filter the buffer, give up if nothing
        is left, otherwise ask the evaluator and record what it says. The
        entry label is not touched. */
    method Evaluate(eval: Evaluator)
      modifies this`expression, this`resultText
      ensures EvaluatedFrom(old(expression), old(resultText), eval)
    {
      var safe := Sanitize(expression);
      if safe == [] {
        return;
      }
      match eval(safe)
      case Value(t) =>
        resultText := t;
        expression := t;
      case ZeroDivision =>
        resultText := MathError;
        expression := "";
      case SyntaxOrNameError =>
        resultText := SyntaxError;
        expression := "";
      case Uncaught =>
    }

    /** A key event with Tk's `keysym` name and `char` text: the first rule
        that matches decides, and a key no rule matches changes nothing. */
    method HandleKeypress(keysym: string, ch: string, eval: Evaluator)
      modifies this`expression, this`entryText, this`resultText
      ensures IsSubstring(keysym, SafeChars) ==>
                && expression == old(expression) + keysym
                && entryText == expression
                && resultText == old(resultText)
                && Sanitize(expression) == Sanitize(old(expression)) + keysym
      ensures !IsSubstring(keysym, SafeChars) && (keysym == "Return" || ch == "=") ==>
                && EvaluatedFrom(old(expression), old(resultText), eval)
                && entryText == old(entryText)
      ensures !IsSubstring(keysym, SafeChars) && !(keysym == "Return" || ch == "=")
              && (keysym == "Escape" || Lower(ch) == "c") ==>
                IsCleared()
      ensures !IsSubstring(keysym, SafeChars) && !(keysym == "Return" || ch == "=")
              && !(keysym == "Escape" || Lower(ch) == "c") ==>
                && expression == old(expression)
                && entryText == old(entryText)
                && resultText == old(resultText)
    {
      if IsSubstring(keysym, SafeChars) {
        KeysymIsSafe(keysym);
        AddToExpression(keysym);
      } else if keysym == "Return" || ch == "=" {
        Evaluate(eval);
      } else if keysym == "Escape" || Lower(ch) == "c" {
        Clear();
      }
    }

    /** Mouse button pressed at (x, y), relative to the widget that took the
        press (its implicit grab): remember the grab point. */
    method StartMove(x: int, y: int)
      modifies this`dragX, this`dragY
      ensures dragX == x && dragY == y
    {
      dragX := x;
      dragY := y;
    }

    /** Mouse button released. */
    method StopMove()
      modifies this`dragX, this`dragY
      ensures dragX == 0 && dragY == 0
    {
      dragX := 0;
      dragY := 0;
    }

    /** Pointer moved to (x, y) with the button held: shift the window by how
        far the pointer is from the grab point. The grab point stays. */
    method DoMove(x: int, y: int)
      modifies this`windowX, this`windowY
      ensures windowX == old(windowX) + (x - dragX)
      ensures windowY == old(windowY) + (y - dragY)
    {
      var dx := x - dragX;
      var dy := y - dragY;
      windowX := windowX + dx;
      windowY := windowY + dy;
    }
  }
}

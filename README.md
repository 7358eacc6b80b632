# Calculator state machine in Dafny

A model of the `Calculator` class of a small borderless, draggable desktop
calculator written in Python with tkinter. The model covers the state that
the class keeps and changes:

- the expression buffer (`calc_expression`) and the texts of the two display
  labels (the small entry label and the large result label);
- the operations on them: appending text from a keypad button or a key,
  clearing, evaluating, and dispatching a key event to one of these;
- the character filter that `evaluate` runs before evaluation, which keeps
  only the digits, `.`, `+`, `-`, `*` and `/`;
- the window-drag arithmetic: the grab point recorded on button press, reset
  on release, and the window origin shifted by the pointer's distance from the
  grab point on each motion event.

Files:

- `sanitizer.dfy` (module `Sanitizer`): the filter as a recursive function,
  with lemmas that it keeps exactly the safe characters in their order, that
  it distributes over concatenation, that it is idempotent, and when its result
  is empty or equal to its input.
- `keys.dfy` (module `Keys`): Python's substring test, used on the keysym, and
  `str.lower()`, used on the event character, with their characterising lemmas.
- `calculator.dfy` (module `Calculator`): the class `Calculator` with its
  fields and methods, and the evaluator outcome type.
- `scenarios.dfy` (module `Scenarios`): client methods that run sequences of
  events and show what the contracts let a caller conclude.

The evaluator (Python `eval` followed by `str`) is an oracle: a parameter of
type `string -> Outcome`, where `Outcome` is `Value(text)`,
`ZeroDivision`, `SyntaxOrNameError` or `Uncaught`. The first three are the
outcomes the source handles. `Uncaught` stands for any other exception. No
handler catches it, so both assignments of the branch are skipped and the
state is left as it was.

Behaviour of the code worth knowing before reading the contracts:

- `evaluate` never updates the entry label. After a successful evaluation the
  buffer holds the result while the entry label still shows the typed
  expression. `Calculator.Calculator.Evaluate` keeps `entryText` out of its
  frame.
- `evaluate` never stores the filtered form of the buffer; only an evaluator
  result or the empty string replaces it. Unsafe characters can therefore sit
  in the buffer: a float result such as `1e-05` holds an `e`, and the next
  evaluation sees the buffer with that `e` dropped. When nothing survives the
  filter, `evaluate` returns early and changes nothing.
- The keypress rule appends only when the keysym is a substring of
  `"0123456789.+-*/"`. Tk names operator keys `plus`, `minus`, `slash`,
  `asterisk` and `period`, and these are not substrings. The model therefore
  lets operator keys on the keyboard fall through every rule and change
  nothing (`Keys.NamedKeysymsFail`, `Scenarios.PlusKeyIgnored`): on the
  keyboard only the digit keys append, and operators come only from the
  on-screen buttons. The empty keysym is a substring too, and appends
  nothing.
- While the button is held, Tk reports motion relative to the widget that
  took the press (its implicit grab), so press and motion coordinates are
  measured from the same widget, at a fixed offset inside the window. Because
  the drag is a difference of two such coordinates, the window moves by the
  pointer's screen travel (`Scenarios.DragFollowsPointer`, where
  `(offX, offY)` is that widget's offset).

## Model

| member | source | states |
|---|---|---|
| `Sanitizer.IsSafe` | calculator.py:107 | A character the filter keeps is ASCII: the range `0-9` of the pattern is the ten ASCII digits, not every Unicode digit. |
| `Sanitizer.SafeCharsMatchClass` | calculator.py:107 | The character class the filter keeps and the fifteen-character string of the keypress test hold the same characters. |
| `Sanitizer.Sanitize` | calculator.py:107 | The filtered expression is no longer than the input and holds only digits, `.`, `+`, `-`, `*` and `/`. |
| `Sanitizer.SanitizeKeepsOrder` | calculator.py:107 | There is an increasing list of safe input positions, as long as the output, whose k-th entry holds the k-th output character; every safe position j is in the list, at the index given by the length of the filtered prefix before j. So the output is the input with every other character removed, in the original order. |
| `Sanitizer.SanitizeCounts` | calculator.py:107 | Each safe character occurs in the output as often as in the input; an unsafe one does not occur. |
| `Sanitizer.SanitizeAppend` | calculator.py:107 | Filtering a concatenation gives the concatenation of the filtered parts. |
| `Sanitizer.SanitizeFixesExactlySafe` | calculator.py:107 | The filter returns its input unchanged if and only if every input character is safe. |
| `Sanitizer.SanitizeIdempotent` | calculator.py:107 | Filtering twice gives the same result as filtering once. |
| `Sanitizer.SanitizeEmptyIff` | calculator.py:107-109 | The filtered expression is empty, the case in which evaluation returns early, if and only if the input holds no safe character. |
| `Sanitizer.SanitizeAppendSafe` | calculator.py:96-97 | Appending text made of safe characters extends the filtered buffer by exactly that text. |
| `Keys.IsSubstring` | calculator.py:124 | The keysym test, Python's `in` on strings: a keysym that passes is no longer than the safe string, and the empty keysym always passes. |
| `Keys.IsSubstringIff` | calculator.py:124 | The keysym test holds if and only if the keysym is the slice of the safe string at some offset. |
| `Keys.KeysymIsSafe` | calculator.py:124-125 | A keysym that passes the test consists of safe characters only, so the filter keeps all of it. |
| `Keys.SingleKeysym` | calculator.py:124 | A one-character keysym passes the test if and only if its character is safe. |
| `Keys.KeysymNotSafe` | calculator.py:124 | A keysym whose first character is unsafe fails the test. |
| `Keys.NamedKeysymsFail` | calculator.py:124-128 | `Return`, `Escape` and `plus` fail the substring test; the empty keysym passes it. |
| `Keys.LowerChar` | calculator.py:128 | One-character ASCII lower-casing: the result is a lower-case letter exactly when the input is a letter of either case, and a character changes only if it is an upper-case letter, which moves 32 code points up. |
| `Keys.Lower` | calculator.py:128 | The lowered event character equals `c` if and only if the character is `c` or `C`. |
| `Calculator.Calculator.constructor` | calculator.py:23-30 | A new calculator has an empty buffer, empty labels, a zero drag offset and its window at (400, 200). |
| `Calculator.Calculator.AddToExpression` | calculator.py:96-98 | The new buffer is the old buffer followed by the value; the entry label shows the new buffer; the result label and the drag state are not in the frame; the filtered buffer grows by the filtered value. |
| `Calculator.Calculator.Clear` | calculator.py:100-103 | Buffer, entry label and result label are all empty; nothing else changes. |
| `Calculator.Calculator.Evaluate` | calculator.py:105-120 | With an empty filtered buffer nothing changes. Otherwise, on a value both the buffer and the result label become its text; on division by zero the result label reads `Math Error` and the buffer is empty; on a syntax or name error the result label reads `Syntax Error` and the buffer is empty; on any other exception nothing changes. The entry label never changes. |
| `Calculator.Calculator.HandleKeypress` | calculator.py:122-129 | The first matching rule decides: a keysym that is a substring of the safe string is appended; else Return or `=` evaluates; else Escape or a character lowering to `c` clears; otherwise buffer and labels are unchanged. |
| `Calculator.Calculator.StartMove` | calculator.py:132-134 | The drag offset becomes the event coordinates. |
| `Calculator.Calculator.StopMove` | calculator.py:136-138 | The drag offset becomes (0, 0). |
| `Calculator.Calculator.DoMove` | calculator.py:140-145 | The window origin moves by the event coordinates minus the drag offset; the drag offset is not in the frame. |
| `Scenarios.FirstCalculation` | calculator.py:96-114 | Typing `1+2` on a new calculator and evaluating leaves the result in both the buffer and the result label, while the entry label shows the typed text. |
| `Scenarios.ChainOnResult` | calculator.py:96-114 | Typing `*3` after a result and evaluating again starts the second expression from the first result. |
| `Scenarios.EmptyEvaluation` | calculator.py:107-109 | Evaluating on a new calculator leaves buffer and labels empty. |
| `Scenarios.DivisionByZero` | calculator.py:115-117 | After typing `1/0` and evaluating, the buffer is empty, the result label reads `Math Error` and the entry label still shows `1/0`. |
| `Scenarios.SyntaxErrorAfterError` | calculator.py:118-120 | After typing `1+` and evaluating, the buffer is empty and the result label reads `Syntax Error`. |
| `Scenarios.DigitKeyAppends` | calculator.py:124-125 | The key `7` appends `7` and leaves the result label alone. |
| `Scenarios.PlusKeyIgnored` | calculator.py:122-129 | The `+` key, keysym `plus`, changes neither the buffer nor the labels. |
| `Scenarios.ReturnKeyEvaluates` | calculator.py:126-127 | Return evaluates the buffer without touching the entry label. |
| `Scenarios.ShiftCClears` | calculator.py:128-129 | Shift-`c`, character `C`, clears buffer and labels. |
| `Scenarios.ClearTwice` | calculator.py:100-103 | Clearing twice leaves the same state as clearing once. |
| `Scenarios.MoveTo` | calculator.py:140-145 | After a motion event the grab point is under the pointer again. |
| `Scenarios.DragFollowsPointer` | calculator.py:132-145 | After a press and two motion events the window has moved by exactly the pointer's screen travel, and release resets the offset. |

## Left out

- The arithmetic: Python `eval` (float division, arbitrary-precision integers, and the `**` and `//` operators that filtered strings can still form) and the `str` of its result are an oracle parameter; nothing is proved about the values it returns.
- Evaluation that never finishes: the oracle gives every filtered string an outcome, so the model has no case for an expression whose evaluation does not finish in practice (such as `9**9**9**9`, which the filter lets through); the program freezes on it.
- Exceptions other than `ZeroDivisionError`, `SyntaxError` and `NameError` are the single outcome `Uncaught`, modelled as leaving the state unchanged; the traceback tkinter prints for them is not modelled.
- All widget construction: the style table, `_setup_display`, `_setup_buttons`, the grid layout, fonts, colours and the window attributes (calculator.py:6-94). The keypad buttons matter only through the texts they pass to `add_to_expression`, which are all single safe characters.
- The close button, which calls `master.quit`.
- The window manager: the geometry string built by `do_move`, and the `winfo_x`/`winfo_y` reads, are replaced by the two integer fields `windowX` and `windowY`. The model assumes the window manager places the window where it is asked to.
- The event bindings and the main loop (calculator.py:47-50, 148-151). Events are modelled as method calls with their fields (`keysym`, `char`, `x`, `y`) as parameters. Tk's table of keysym names is not modelled; the scenarios pass the names Tk uses.
- `Keys.Lower`: lowers only ASCII letters. Python's full Unicode lowercase mapping sends no character other than `C` and `c` to `c`, so the test `char.lower() == 'c'` is the same under both.
- Integer width: coordinates are unbounded integers, as Python's are.

/** The character filter that `evaluate` applies to the expression buffer
    before handing it to the evaluator: every character other than a digit,
    `.`, `+`, `-`, `*` or `/` is deleted, the rest are kept in their
    original order. */
module Sanitizer {

  /** The characters the on-screen keypad and the keyboard handler accept,
      in the order the keypress test spells them. */
  const SafeChars: string := "0123456789.+-*/"

  // Membership in the character class that the filter keeps: the range
  // 0-9 (the ASCII digits, for a Python str pattern, not every Unicode
  // digit) and the four operators and the decimal point.
  predicate IsSafe(c: char): (b: bool)
    ensures b ==> c as int < 128
  {
    ('0' <= c <= '9') || c == '.' || c == '+' || c == '-' || c == '*' || c == '/'
  }

  /** The character class and the keypress string name the same fifteen characters. */
  lemma SafeCharsMatchClass(c: char)
    ensures IsSafe(c) <==> c in SafeChars
  {
  }

  /** The filter itself: the input with every unsafe character removed. */
  function Sanitize(s: string): (r: string)
    ensures |r| <= |s|
    ensures forall i :: 0 <= i < |r| ==> IsSafe(r[i])
  {
    if s == [] then []
    else (if IsSafe(s[0]) then [s[0]] else []) + Sanitize(s[1..])
  }

  /** Filtering distributes over concatenation: no character's fate depends on
      its neighbours. */
  lemma {:induction false} SanitizeAppend(a: string, b: string)
    ensures Sanitize(a + b) == Sanitize(a) + Sanitize(b)
  {
    if a == [] {
      assert a + b == b;
    } else {
      assert (a + b)[0] == a[0];
      assert (a + b)[1..] == a[1..] + b;
      SanitizeAppend(a[1..], b);
    }
  }

  /** A string is left untouched by the filter exactly when it holds only
      safe characters. */
  lemma {:induction false} SanitizeFixesExactlySafe(s: string)
    ensures Sanitize(s) == s <==> forall i :: 0 <= i < |s| ==> IsSafe(s[i])
  {
    if s != [] {
      SanitizeFixesExactlySafe(s[1..]);
      if !IsSafe(s[0]) {
        assert |Sanitize(s)| < |s| by {
          assert Sanitize(s) == Sanitize(s[1..]);
        }
      }
    }
  }

  /** Applying the filter twice gives the same result as applying it once. */
  lemma SanitizeIdempotent(s: string)
    ensures Sanitize(Sanitize(s)) == Sanitize(s)
  {
    SanitizeFixesExactlySafe(Sanitize(s));
  }

  /** The filter yields the empty string exactly when the input holds no safe
      character; `evaluate` returns early in that case. */
  lemma {:induction false} SanitizeEmptyIff(s: string)
    ensures Sanitize(s) == [] <==> forall i :: 0 <= i < |s| ==> !IsSafe(s[i])
  {
    if s != [] {
      SanitizeEmptyIff(s[1..]);
      if !IsSafe(s[0]) {
        forall i | 1 <= i < |s| ensures s[i] == s[1..][i - 1] {
        }
      }
    }
  }

  /** Each safe character occurs in the output as often as in the input;
      no unsafe character occurs at all. */
  lemma {:induction false} SanitizeCounts(s: string, c: char)
    ensures multiset(Sanitize(s))[c] == if IsSafe(c) then multiset(s)[c] else 0
  {
    if s != [] {
      SanitizeCounts(s[1..], c);
      assert s == [s[0]] + s[1..];
      assert multiset(s) == multiset([s[0]]) + multiset(s[1..]);
    }
  }

  /** `idx` lists, in increasing order, positions of `s` that hold a safe
      character. */
  predicate IsSafePositions(s: string, idx: seq<int>) {
    && (forall k :: 0 <= k < |idx| ==> 0 <= idx[k] < |s| && IsSafe(s[idx[k]]))
    && (forall k, l :: 0 <= k < l < |idx| ==> idx[k] < idx[l])
  }

  /** Positions in `s[1..]` seen as positions in `s`. */
  function Shift(idx: seq<int>): seq<int>
  {
    seq(|idx|, k requires 0 <= k < |idx| => idx[k] + 1)
  }

  /** The filter applied to a string with one more character in front. */
  lemma SanitizeCons(c: char, s: string)
    ensures Sanitize([c] + s) == (if IsSafe(c) then [c] else []) + Sanitize(s)
  {
  }

  /** The safe positions of `s`: position 0 if it is safe, then those of the
      tail, shifted. */
  function ConsPositions(s: string, rest: seq<int>): seq<int>
    requires s != []
  {
    (if IsSafe(s[0]) then [0] else []) + Shift(rest)
  }

  /** Those positions are increasing and hold safe characters. */
  lemma ConsPositionsSafe(s: string, rest: seq<int>)
    requires s != [] && IsSafePositions(s[1..], rest)
    ensures IsSafePositions(s, ConsPositions(s, rest))
  {
  }

  /** They pick out the filtered string, character by character. */
  lemma ConsPositionsPick(s: string, rest: seq<int>)
    requires s != [] && |rest| == |Sanitize(s[1..])|
    requires forall k :: 0 <= k < |rest| ==> 0 <= rest[k] < |s| - 1
    requires forall k :: 0 <= k < |rest| ==> Sanitize(s[1..])[k] == s[1..][rest[k]]
    ensures |ConsPositions(s, rest)| == |Sanitize(s)|
    ensures forall k :: 0 <= k < |Sanitize(s)| ==> Sanitize(s)[k] == s[ConsPositions(s, rest)[k]]
  {
  }

  /** Every safe position is among them, at its rank. */
  lemma ConsPositionsRank(s: string, rest: seq<int>)
    requires s != []
    requires forall j :: 0 <= j < |s| - 1 && IsSafe(s[1..][j]) ==>
               |Sanitize(s[1..][..j])| < |rest| && rest[|Sanitize(s[1..][..j])|] == j
    ensures forall j :: 0 <= j < |s| && IsSafe(s[j]) ==>
              |Sanitize(s[..j])| < |ConsPositions(s, rest)| && ConsPositions(s, rest)[|Sanitize(s[..j])|] == j
  {
    var tail := s[1..];
    var idx := ConsPositions(s, rest);
    forall j | 0 <= j < |s| && IsSafe(s[j])
      ensures |Sanitize(s[..j])| < |idx| && idx[|Sanitize(s[..j])|] == j
    {
      if j == 0 {
        assert s[..0] == [];
      } else {
        assert s[..j] == [s[0]] + tail[..j - 1];
        assert tail[j - 1] == s[j];
        SanitizeCons(s[0], tail[..j - 1]);
      }
    }
  }

  /** The output is the input with the unsafe characters deleted and nothing
      else changed: the k-th output character is the input's character at
      the k-th of an increasing list of safe positions, and the safe
      character at position j is the one output right after the filtered
      prefix before j, so no safe character is lost. */
  lemma {:induction false} SanitizeKeepsOrder(s: string) returns (idx: seq<int>)
    ensures IsSafePositions(s, idx)
    ensures |idx| == |Sanitize(s)|
    ensures forall k :: 0 <= k < |idx| ==> Sanitize(s)[k] == s[idx[k]]
    ensures forall j :: 0 <= j < |s| && IsSafe(s[j]) ==>
              |Sanitize(s[..j])| < |idx| && idx[|Sanitize(s[..j])|] == j
  {
    if s == [] {
      idx := [];
    } else {
      var rest := SanitizeKeepsOrder(s[1..]);
      ConsPositionsSafe(s, rest);
      ConsPositionsPick(s, rest);
      ConsPositionsRank(s, rest);
      idx := ConsPositions(s, rest);
    }
  }

  /** Appending text made only of safe characters extends the filtered
      expression by exactly that text. */
  lemma SanitizeAppendSafe(prefix: string, suffix: string)
    requires forall i :: 0 <= i < |suffix| ==> IsSafe(suffix[i])
    ensures Sanitize(prefix + suffix) == Sanitize(prefix) + suffix
  {
    SanitizeAppend(prefix, suffix);
    SanitizeFixesExactlySafe(suffix);
  }
}

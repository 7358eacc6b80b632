// The string tests that `handle_keypress` applies to a key event: Python's
// substring test of the keysym against "0123456789.+-*/" and the test
// `char.lower() == 'c'`.
module Keys {
  import opened Sanitizer

  /** Python's `p == s[:len(p)]`, the prefix test. */
  predicate IsPrefix(p: string, s: string) {
    |p| <= |s| && p == s[..|p|]
  }

  /** Python's `k in s` for two strings: `k` occurs somewhere in `s`
      (the empty string occurs everywhere). */
  predicate IsSubstring(k: string, s: string): (b: bool)
    ensures b ==> |k| <= |s|
    ensures k == [] ==> b
    decreases |s|
  {
    IsPrefix(k, s) || (s != [] && IsSubstring(k, s[1..]))
  }

  /** `k` is the slice of `s` that starts at offset `i`. */
  predicate OccursAt(k: string, s: string, i: int) {
    0 <= i && i + |k| <= |s| && s[i..i + |k|] == k
  }

  /** A slice of the tail is the slice of the whole string one further on. */
  lemma SliceOfTail(s: string, a: int, b: int)
    requires 1 <= a <= b <= |s|
    ensures s[1..][a - 1..b - 1] == s[a..b]
  {
  }

  /** The substring test holds exactly when `k` is the slice of `s` at some
      offset. */
  lemma {:induction false} IsSubstringIff(k: string, s: string)
    ensures IsSubstring(k, s) <==> exists i :: OccursAt(k, s, i)
    decreases |s|
  {
    if IsPrefix(k, s) {
      assert OccursAt(k, s, 0);
    } else if s == [] {
      assert |k| > 0;
    } else {
      IsSubstringIff(k, s[1..]);
      forall i | 1 <= i ensures OccursAt(k, s, i) <==> OccursAt(k, s[1..], i - 1) {
        if i + |k| <= |s| {
          SliceOfTail(s, i, i + |k|);
        }
      }
      assert OccursAt(k, s, 0) <==> IsPrefix(k, s) by {
        if |k| <= |s| {
          assert s[..|k|] == s[0..0 + |k|];
        }
      }
      if IsSubstring(k, s[1..]) {
        var i :| OccursAt(k, s[1..], i);
        assert OccursAt(k, s, i + 1);
      }
    }
  }

  /** A keysym that passes the keypress test consists of safe characters
      only, so the filter leaves it as it is: keys typed on the keyboard always
      reach the evaluator. */
  lemma KeysymIsSafe(k: string)
    requires IsSubstring(k, SafeChars)
    ensures forall i :: 0 <= i < |k| ==> IsSafe(k[i])
    ensures Sanitize(k) == k
  {
    IsSubstringIff(k, SafeChars);
    var o :| OccursAt(k, SafeChars, o);
    forall i | 0 <= i < |k| ensures IsSafe(k[i]) {
      assert k[i] == SafeChars[o..o + |k|][i] == SafeChars[o + i];
      SafeCharsMatchClass(k[i]);
    }
    SanitizeFixesExactlySafe(k);
  }

  /** For a one-character keysym the keypress test is membership in the safe
      class. */
  lemma SingleKeysym(c: char)
    ensures IsSubstring([c], SafeChars) <==> IsSafe(c)
  {
    SafeCharsMatchClass(c);
    if IsSafe(c) {
      IsSubstringIff([c], SafeChars);
      var i :| 0 <= i < |SafeChars| && SafeChars[i] == c;
      assert SafeChars[i..i + 1] == [c];
      assert OccursAt([c], SafeChars, i);
    } else {
      KeysymNotSafe([c]);
    }
  }

  /** The keysyms `Return`, `Escape` and `plus` fail the keypress test, and
      the empty keysym passes it. */
  lemma NamedKeysymsFail()
    ensures !IsSubstring("Return", SafeChars)
    ensures !IsSubstring("Escape", SafeChars)
    ensures !IsSubstring("plus", SafeChars)
    ensures IsSubstring("", SafeChars)
  {
    KeysymNotSafe("Return");
    KeysymNotSafe("Escape");
    KeysymNotSafe("plus");
    assert IsPrefix("", SafeChars);
  }

  /** A keysym starting with an unsafe character fails the keypress test. */
  lemma KeysymNotSafe(k: string)
    requires k != [] && !IsSafe(k[0])
    ensures !IsSubstring(k, SafeChars)
  {
    if IsSubstring(k, SafeChars) {
      KeysymIsSafe(k);
    }
  }

  /** `str.lower()` on the ASCII letters. */
  function LowerChar(c: char): (r: char)
    ensures ('a' <= r <= 'z') <==> ('a' <= c <= 'z' || 'A' <= c <= 'Z')
    ensures r != c ==> 'A' <= c <= 'Z' && r as int == c as int + 32
  {
    if 'A' <= c <= 'Z' then (c as int + 32) as char else c
  }

  /** `str.lower()`, character by character. The test `char.lower() == 'c'`
      holds for the two event characters `c` and `C` and for nothing else,
      the empty character of a modifier key included. */
  function Lower(s: string): (r: string)
    ensures r == "c" <==> s == "c" || s == "C"
  {
    seq(|s|, i requires 0 <= i < |s| => LowerChar(s[i]))
  }
}

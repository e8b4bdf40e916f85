/**
 * The listing token `[PROP:<digits>]` that the assistant appends after naming
 * a listing, and the matcher for the pattern /\[PROP:\d+\]/ used by both
 * `cleanTextOutput` and `findPropertyFromToken` (components/ChatInterface.tsx).
 * `\d` is the ASCII digits only. The matcher works on positions of the text,
 * as the regular-expression engine does.
 */
module PropToken {
  import opened Catalog

  const Open: string := "[PROP:"

  predicate AllDigits(s: string) {
    forall i :: 0 <= i < |s| ==> IsAsciiDigit(s[i])
  }

  /** The language of the pattern: "[PROP:", one or more ASCII digits, "]". */
  predicate IsToken(w: string) {
    |w| >= 8 && w[..6] == Open && w[|w| - 1] == ']' && AllDigits(w[6..|w| - 1])
  }

  /** The token naming listing `d`. */
  function Token(d: string): (w: string)
    requires |d| > 0 && AllDigits(d)
    ensures IsToken(w) && w[0] == '[' && |w| == |d| + 7
  {
    var w := Open + d + "]";
    assert w[..6] == Open && w[6..|w| - 1] == d;
    w
  }

  /** "[PROP:" stands at position `i` of `s`. */
  predicate OpensAt(s: string, i: nat) {
    i + 6 <= |s| && s[i] == '[' && s[i + 1] == 'P' && s[i + 2] == 'R' &&
    s[i + 3] == 'O' && s[i + 4] == 'P' && s[i + 5] == ':'
  }

  /** Number of ASCII digits from position `j` on (what `\d+` consumes there). */
  function DigitsAt(s: string, j: nat): (n: nat)
    requires j <= |s|
    ensures j + n <= |s|
    ensures forall k :: j <= k < j + n ==> IsAsciiDigit(s[k])
    ensures j + n < |s| ==> !IsAsciiDigit(s[j + n])
    decreases |s| - j
  {
    if j < |s| && IsAsciiDigit(s[j]) then 1 + DigitsAt(s, j + 1) else 0
  }

  /** A run of `n` digits that ends the text or is followed by a non-digit is what `DigitsAt` counts. */
  lemma {:induction false} DigitsAtRun(s: string, j: nat, n: nat)
    requires j + n <= |s|
    requires forall k :: j <= k < j + n ==> IsAsciiDigit(s[k])
    requires j + n < |s| ==> !IsAsciiDigit(s[j + n])
    ensures DigitsAt(s, j) == n
    decreases n
  {
    if n > 0 {
      DigitsAtRun(s, j + 1, n - 1);
    }
  }

  /**
   * The match of the pattern at position `i` of `s`: its length, or 0 when
   * no token starts there. A match is always a whole token
   * (`MatchAtIsToken`), and the only one that starts there (`MatchAtComplete`).
   */
  function MatchAt(s: string, i: nat): (n: nat)
    requires i <= |s|
    ensures i + n <= |s|
    ensures n == 0 || n >= 8
  {
    if OpensAt(s, i) then
      var d := DigitsAt(s, i + 6);
      if 0 < d && i + 6 + d < |s| && s[i + 6 + d] == ']' then 7 + d else 0
    else
      0
  }

  /** What the matcher finds is a token, and it starts with '['. */
  lemma MatchAtIsToken(s: string, i: nat)
    requires i <= |s| && MatchAt(s, i) > 0
    ensures IsToken(s[i..i + MatchAt(s, i)]) && s[i] == '['
  {
    var n := MatchAt(s, i);
    var w := s[i..i + n];
    assert w[..6] == Open by {
      assert forall p :: 0 <= p < 6 ==> w[p] == s[i + p];
    }
    var ds := w[6..n - 1];
    forall p | 0 <= p < |ds|
      ensures IsAsciiDigit(ds[p])
    {
      assert ds[p] == w[6 + p] == s[i + 6 + p];
    }
  }

  /** Every token that starts at position `i` is the one the matcher finds. */
  lemma MatchAtComplete(s: string, i: nat, k: nat)
    requires i + k <= |s| && IsToken(s[i..i + k])
    ensures MatchAt(s, i) == k
  {
    var w := s[i..i + k];
    assert OpensAt(s, i) by {
      assert forall p :: 0 <= p < 6 ==> s[i + p] == w[..6][p] == Open[p];
    }
    var ds := w[6..k - 1];
    forall q | i + 6 <= q < i + k - 1
      ensures IsAsciiDigit(s[q])
    {
      assert s[q] == ds[q - i - 6];
    }
    assert s[i + k - 1] == w[k - 1];
    DigitsAtRun(s, i + 6, k - 7);
  }

  /** Inside a match, no character after the first is an opening bracket. */
  lemma NoInnerBracket(s: string, i: nat, p: nat)
    requires i <= |s| && i < p < i + MatchAt(s, i)
    ensures s[p] != '['
  {
  }

  /** A token matched at position `i` is still matched there, unchanged, when text is appended. */
  lemma MatchAtExtend(s: string, t: string, i: nat)
    requires i <= |s| && MatchAt(s, i) > 0
    ensures MatchAt(s + t, i) == MatchAt(s, i)
  {
    var n := MatchAt(s, i);
    MatchAtIsToken(s, i);
    assert (s + t)[i..i + n] == s[i..i + n];
    MatchAtComplete(s + t, i, n);
  }

  /** A match in `s + t` that ends within `s` is a match of `s`. */
  lemma MatchAtWithin(s: string, t: string, i: nat)
    requires i <= |s| && MatchAt(s + t, i) > 0 && i + MatchAt(s + t, i) <= |s|
    ensures MatchAt(s, i) == MatchAt(s + t, i)
  {
    var n := MatchAt(s + t, i);
    MatchAtIsToken(s + t, i);
    assert (s + t)[i..i + n] == s[i..i + n];
    MatchAtComplete(s, i, n);
  }

  /**
   * If no token starts at `j` in `s` but one starts later at `i`, appending
   * text cannot make a token start at `j`: such a token would have to reach
   * past `i`, where a '[' stands.
   */
  lemma NoMatchStaysBeforeMatch(s: string, t: string, j: nat, i: nat)
    requires j < i < |s|
    requires MatchAt(s, j) == 0 && MatchAt(s, i) > 0
    ensures MatchAt(s + t, j) == 0
  {
    var m := MatchAt(s + t, j);
    if 0 < m && j + m <= |s| {
      MatchAtWithin(s, t, j);
    } else if 0 < m {
      NoInnerBracket(s + t, j, i);
    }
  }
}

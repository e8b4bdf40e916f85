/**
 * `cleanTextOutput` (components/ChatInterface.tsx): the text shown for an
 * assistant reply is the streamed text with every listing token removed,
 * the markdown characters deleted, runs of three or more line feeds cut to
 * two, and whitespace trimmed from both ends.
 */
module TextCleaning {
  import opened PropToken

  /**
   * `s` from position `k` on, for a position past the first character. The
   * scans below resume after a match of positive length; naming that suffix
   * with its bound keeps the verifier from treating `s[0..]` as a suffix step.
   */
  function After(s: string, k: nat): (r: string)
    requires 0 < k <= |s|
    ensures |r| == |s| - k
  {
    s[k..]
  }

  /** `s` can be obtained from `t` by deleting characters: the order of what is kept is unchanged. */
  predicate IsSubsequence(s: string, t: string)
    decreases |t|
  {
    s == [] || (t != [] && ((s[0] == t[0] && IsSubsequence(s[1..], t[1..])) || IsSubsequence(s, t[1..])))
  }

  lemma {:induction false} SubsequenceReflexive(s: string)
    ensures IsSubsequence(s, s)
  {
    if s != [] {
      SubsequenceReflexive(s[1..]);
    }
  }

  /** Deleting a prefix of `t` keeps what was a subsequence of the rest. */
  lemma {:induction false} SubsequenceOfSuffix(s: string, t: string, k: nat)
    requires k <= |t| && IsSubsequence(s, t[k..])
    ensures IsSubsequence(s, t)
  {
    if k > 0 {
      assert t[1..][k - 1..] == t[k..];
      SubsequenceOfSuffix(s, t[1..], k - 1);
    }
  }

  lemma {:induction false} SubsequenceOfPrefix(t: string, k: nat)
    requires k <= |t|
    ensures IsSubsequence(t[..k], t)
  {
    if k > 0 {
      assert t[..k][1..] == t[1..][..k - 1];
      SubsequenceOfPrefix(t[1..], k - 1);
    }
  }

  /** A subsequence draws all its characters from the sequence. */
  lemma {:induction false} SubsequenceChars(s: string, t: string, c: char)
    requires IsSubsequence(s, t) && c in s
    ensures c in t
    decreases |t|
  {
    if s[0] == t[0] && IsSubsequence(s[1..], t[1..]) {
      if c != s[0] {
        assert c in s[1..] by { assert s == [s[0]] + s[1..]; }
        SubsequenceChars(s[1..], t[1..], c);
      }
    } else {
      SubsequenceChars(s, t[1..], c);
    }
  }

  lemma {:induction false} SubsequenceTransitive(r: string, s: string, t: string)
    requires IsSubsequence(r, s) && IsSubsequence(s, t)
    ensures IsSubsequence(r, t)
    decreases |t|
  {
    if r != [] {
      if IsSubsequence(s, t[1..]) {
        SubsequenceTransitive(r, s, t[1..]);
      } else if r[0] == s[0] && IsSubsequence(r[1..], s[1..]) {
        SubsequenceTransitive(r[1..], s[1..], t[1..]);
      } else {
        SubsequenceTransitive(r, s[1..], t[1..]);
      }
    }
  }

  /** A slice of `t` is a subsequence of `t`. */
  lemma SubsequenceOfSlice(t: string, a: nat, b: nat)
    requires a <= b <= |t|
    ensures IsSubsequence(t[a..b], t)
  {
    SubsequenceOfPrefix(t[a..], b - a);
    assert t[a..][..b - a] == t[a..b];
    SubsequenceOfSuffix(t[a..b], t, a);
  }

  // ---------------------------------------------------------------------------
  // Stage 1: text.replace(/\[PROP:\d+\]/g, '')

  /**
   * One left-to-right pass of the global replace: where a token starts it is
   * dropped and the scan resumes after it; elsewhere one character is kept
   * and the scan moves on by one.
   */
  function StripTokens(s: string): (r: string)
    ensures |r| <= |s|
    decreases |s|
  {
    if s == [] then []
    else
      var n := MatchAt(s, 0);
      if n > 0 then StripTokens(After(s, n)) else [s[0]] + StripTokens(s[1..])
  }

  /** The characters kept by token removal are a subsequence of the input, in their order. */
  lemma {:induction false} StripTokensKeepsOrder(s: string)
    ensures IsSubsequence(StripTokens(s), s)
    decreases |s|
  {
    if s != [] {
      var n := MatchAt(s, 0);
      if n > 0 {
        StripTokensKeepsOrder(After(s, n));
        SubsequenceOfSuffix(StripTokens(After(s, n)), s, n);
      } else {
        StripTokensKeepsOrder(s[1..]);
      }
    }
  }

  /** The characters a token is made of. */
  const TokenChars: set<char> := {'[', 'P', 'R', 'O', ':', ']', '0', '1', '2', '3', '4', '5', '6', '7', '8', '9'}

  lemma TokenCharsOnly(w: string, c: char)
    requires IsToken(w) && c !in TokenChars
    ensures multiset(w)[c] == 0
  {
    forall i | 0 <= i < |w| ensures w[i] != c {
      if i < 6 {
        assert w[..6][i] == w[i];
      } else if i < |w| - 1 {
        assert w[6..|w| - 1][i - 6] == w[i];
      }
    }
  }

  lemma MultisetSplit(s: string, n: nat, c: char)
    requires n <= |s|
    ensures multiset(s)[c] == multiset(s[..n])[c] + multiset(s[n..])[c]
  {
    assert s == s[..n] + s[n..];
  }

  /** Every character that cannot occur in a token survives token removal, as often as it occurs. */
  lemma {:induction false} StripTokensKeepsOtherChars(s: string, c: char)
    requires c !in TokenChars
    ensures multiset(StripTokens(s))[c] == multiset(s)[c]
    decreases |s|
  {
    if s != [] {
      var n := MatchAt(s, 0);
      if n > 0 {
        StripTokensKeepsOtherChars(After(s, n), c);
        LeadingTokenChars(s, c);
      } else {
        StripTokensKeepsOtherChars(s[1..], c);
        StripTokensKeepsFirst(s);
        assert s == [s[0]] + s[1..];
      }
    }
  }

  /** A leading token holds no character outside `TokenChars`, and the scan resumes after it. */
  lemma LeadingTokenChars(s: string, c: char)
    requires s != [] && MatchAt(s, 0) > 0 && c !in TokenChars
    ensures multiset(s)[c] == multiset(After(s, MatchAt(s, 0)))[c]
    ensures StripTokens(s) == StripTokens(After(s, MatchAt(s, 0)))
  {
    var n := MatchAt(s, 0);
    MatchAtIsToken(s, 0);
    assert s[0..n] == s[..n];
    TokenCharsOnly(s[..n], c);
    MultisetSplit(s, n, c);
  }

  /** Where no token starts, the first character is kept. */
  lemma StripTokensKeepsFirst(s: string)
    requires s != [] && MatchAt(s, 0) == 0
    ensures StripTokens(s) == [s[0]] + StripTokens(s[1..])
  {
  }

  /** Text with no '[' holds no token: token removal keeps it whole, and carries on after it. */
  lemma {:induction false} StripTokensNoBracket(p: string, t: string)
    requires '[' !in p
    ensures StripTokens(p + t) == p + StripTokens(t)
    decreases |p|
  {
    if p != [] {
      assert (p + t)[0] == p[0] && (p + t)[1..] == p[1..] + t;
      assert p == [p[0]] + p[1..];
      StripTokensKeepsFirst(p + t);
      StripTokensNoBracket(p[1..], t);
      assert [p[0]] + (p[1..] + StripTokens(t)) == p + StripTokens(t);
    } else {
      assert p + t == t;
    }
  }

  /** A whole token at the front is dropped, whatever follows it. */
  lemma StripTokensDropsToken(d: string, t: string)
    requires |d| > 0 && AllDigits(d)
    ensures StripTokens(Token(d) + t) == StripTokens(t)
  {
    var w := Token(d);
    var s := w + t;
    assert s[0..|w|] == w;
    MatchAtComplete(s, 0, |w|);
    assert After(s, |w|) == t;
  }

  lemma OpenThenBracketNoMatch(inner: string)
    requires inner != [] && inner[0] == '['
    ensures MatchAt(Open + inner, 0) == 0
  {
    var s := Open + inner;
    assert s[6] == inner[0];
    assert DigitsAt(s, 6) == 0;
  }

  lemma OpenSplit(x: string)
    ensures (Open + x)[0] == Open[0] && (Open + x)[1..] == Open[1..] + x
    ensures [Open[0]] + (Open[1..] + x) == Open + x
  {
  }

  lemma StripTokensAfterOpenHead(x: string)
    ensures StripTokens(Open[1..] + x) == Open[1..] + StripTokens(x)
  {
    assert '[' !in Open[1..];
    StripTokensNoBracket(Open[1..], x);
  }

  /** "[PROP:" followed by a second '[' starts no token; the scan keeps the "[PROP:" and goes on. */
  lemma StripTokensOpenThenBracket(inner: string)
    requires inner != [] && inner[0] == '['
    ensures StripTokens(Open + inner) == Open + StripTokens(inner)
  {
    OpenThenBracketNoMatch(inner);
    StripTokensKeepsFirst(Open + inner);
    OpenSplit(inner);
    StripTokensAfterOpenHead(inner);
    OpenSplit(StripTokens(inner));
  }

  /**
   * Removal is a single pass, so its result may still hold a token: an inner
   * token is removed and the characters around it close up into a new one
   * ("[PROP:[PROP:1]1]" becomes "[PROP:1]").
   */
  lemma StripTokensSinglePass(d: string)
    requires |d| > 0 && AllDigits(d)
    ensures StripTokens(Open + (Token(d) + (d + "]"))) == Token(d)
  {
    var tail := d + "]";
    assert (Token(d) + tail)[0] == '[';
    StripTokensOpenThenBracket(Token(d) + tail);
    StripTokensDropsToken(d, tail);
    assert '[' !in tail;
    StripTokensNoBracket(tail, "");
    assert tail + "" == tail;
    assert Open + tail == Token(d);
  }

  // ---------------------------------------------------------------------------
  // Stage 2: .replace(/[*#_~`>|]/g, '')

  const MarkdownChars: set<char> := {'*', '#', '_', '~', '`', '>', '|'}

  /** `s` with every character of `cs` deleted (a global replace of a character class by ''). */
  function Without(s: string, cs: set<char>): (r: string)
    ensures forall c :: c in r ==> c in s && c !in cs
  {
    if s == [] then []
    else
      var r := (if s[0] in cs then [] else [s[0]]) + Without(s[1..], cs);
      assert forall c :: c in s[1..] ==> c in s;
      r
  }

  /** Deleting characters distributes over concatenation. */
  lemma {:induction false} WithoutAppend(a: string, b: string, cs: set<char>)
    ensures Without(a + b, cs) == Without(a, cs) + Without(b, cs)
    decreases |a|
  {
    if a == [] {
      assert a + b == b;
    } else {
      assert (a + b)[0] == a[0] && (a + b)[1..] == a[1..] + b;
      WithoutAppend(a[1..], b, cs);
    }
  }

  /** Text without any character of `cs` is left as it is. */
  lemma {:induction false} WithoutNothingToDelete(s: string, cs: set<char>)
    requires forall c :: c in s ==> c !in cs
    ensures Without(s, cs) == s
    decreases |s|
  {
    if s != [] {
      assert forall c :: c in s[1..] ==> c in s;
      WithoutNothingToDelete(s[1..], cs);
    }
  }

  /** What is kept keeps its order. */
  lemma {:induction false} WithoutKeepsOrder(s: string, cs: set<char>)
    ensures IsSubsequence(Without(s, cs), s)
    decreases |s|
  {
    if s != [] {
      WithoutKeepsOrder(s[1..], cs);
      if s[0] in cs {
        assert Without(s, cs) == Without(s[1..], cs);
      } else {
        assert Without(s, cs) == [s[0]] + Without(s[1..], cs);
      }
    }
  }

  // ---------------------------------------------------------------------------
  // Stage 3: .replace(/\n{3,}/g, '\n\n')

  /** Number of line feeds at the start of `s`. */
  function NewlineRun(s: string): (n: nat)
    ensures n <= |s|
    ensures forall i :: 0 <= i < n ==> s[i] == '\n'
    ensures n < |s| ==> s[n] != '\n'
  {
    if s != [] && s[0] == '\n' then 1 + NewlineRun(s[1..]) else 0
  }

  /** No three line feeds in a row. */
  predicate NoTripleNewline(s: string) {
    forall i :: 0 <= i && i + 2 < |s| ==> !(s[i] == '\n' && s[i + 1] == '\n' && s[i + 2] == '\n')
  }

  /** Putting `c` in front keeps the text free of triple line feeds, unless it extends a run of two. */
  lemma NoTripleCons(c: char, x: string)
    requires NoTripleNewline(x)
    requires c == '\n' ==> NewlineRun(x) < 2
    ensures NoTripleNewline([c] + x)
  {
    var y := [c] + x;
    forall i | 0 <= i && i + 2 < |y|
      ensures !(y[i] == '\n' && y[i + 1] == '\n' && y[i + 2] == '\n')
    {
      if i > 0 {
        assert y[i] == x[i - 1] && y[i + 1] == x[i] && y[i + 2] == x[i + 1];
      }
    }
  }

  /**
   * One left-to-right pass of the global replace: a run of three or more
   * line feeds at the scan position is consumed whole and replaced by two;
   * anywhere else one character is kept and the scan moves on by one.
   */
  function CollapseNewlines(s: string): (r: string)
    ensures NoTripleNewline(r)
    ensures NewlineRun(r) == if NewlineRun(s) >= 3 then 2 else NewlineRun(s)
    decreases |s|
  {
    if s == [] then []
    else
      var n := NewlineRun(s);
      if n >= 3 then
        var rest := CollapseNewlines(After(s, n));
        NoTripleCons('\n', rest);
        NoTripleCons('\n', ['\n'] + rest);
        assert "\n\n" + rest == ['\n'] + (['\n'] + rest);
        "\n\n" + rest
      else
        var rest := CollapseNewlines(s[1..]);
        NoTripleCons(s[0], rest);
        [s[0]] + rest
  }

  lemma LongRunIsTriple(s: string)
    ensures NewlineRun(s) >= 3 ==> s[0] == '\n' && s[1] == '\n' && s[2] == '\n'
  {
  }

  /** Text with no run of three line feeds is left as it is. */
  lemma {:induction false} CollapseNothingToCollapse(s: string)
    requires NoTripleNewline(s)
    ensures CollapseNewlines(s) == s
    decreases |s|
  {
    if s != [] {
      LongRunIsTriple(s);
      assert NoTripleNewline(s[1..]) by {
        forall i | 0 <= i && i + 2 < |s[1..]|
          ensures !(s[1..][i] == '\n' && s[1..][i + 1] == '\n' && s[1..][i + 2] == '\n')
        {
          assert s[1..][i] == s[i + 1];
        }
      }
      CollapseNothingToCollapse(s[1..]);
    }
  }

  /** Collapsing keeps two of the line feeds of each long run and every other character, in order. */
  lemma {:induction false} CollapseKeepsOrder(s: string)
    ensures IsSubsequence(CollapseNewlines(s), s)
    decreases |s|
  {
    if s != [] {
      var n := NewlineRun(s);
      if n >= 3 {
        CollapseKeepsOrder(After(s, n));
        CollapseStep(s);
        TwoOfRun(s, CollapseNewlines(After(s, n)));
      } else {
        CollapseKeepsOrder(s[1..]);
      }
    }
  }

  const LineFeed: set<char> := {'\n'}

  /** Two line feeds of a long run, followed by a subsequence of what comes after the run, form a subsequence. */
  lemma TwoOfRun(s: string, rest: string)
    requires s != [] && NewlineRun(s) >= 3
    requires IsSubsequence(rest, After(s, NewlineRun(s)))
    ensures IsSubsequence("\n\n" + rest, s)
  {
    var n := NewlineRun(s);
    assert s[2..][n - 2..] == After(s, n);
    SubsequenceOfSuffix(rest, s[2..], n - 2);
    assert s[1..][1..] == s[2..];
    assert IsSubsequence(['\n'] + rest, s[1..]);
    assert "\n\n" + rest == ['\n'] + (['\n'] + rest);
  }

  /** Only line feeds are removed: deleting every line feed from input and output gives the same text. */
  lemma {:induction false} CollapseOnlyRemovesNewlines(s: string)
    ensures Without(CollapseNewlines(s), LineFeed) == Without(s, LineFeed)
    decreases |s|
  {
    if s != [] {
      var n := NewlineRun(s);
      if n >= 3 {
        CollapseOnlyRemovesNewlines(After(s, n));
        CollapseLongRun(s);
      } else {
        CollapseOnlyRemovesNewlines(s[1..]);
        CollapseShortRun(s);
      }
    }
  }

  /** A long run of line feeds and the two that replace it both vanish when line feeds are deleted. */
  lemma CollapseLongRun(s: string)
    requires s != [] && NewlineRun(s) >= 3
    ensures Without(CollapseNewlines(s), LineFeed) == Without(CollapseNewlines(After(s, NewlineRun(s))), LineFeed)
    ensures Without(s, LineFeed) == Without(After(s, NewlineRun(s)), LineFeed)
  {
    CollapseStep(s);
    NewlinesThenRest("\n\n", CollapseNewlines(After(s, NewlineRun(s))));
    LeadingNewlinesVanish(s);
  }

  /** The line feeds at the front of `s` vanish when line feeds are deleted. */
  lemma {:induction false} LeadingNewlinesVanish(s: string)
    requires NewlineRun(s) > 0
    ensures Without(s, LineFeed) == Without(After(s, NewlineRun(s)), LineFeed)
    decreases |s|
  {
    var n := NewlineRun(s);
    assert Without(s, LineFeed) == Without(s[1..], LineFeed);
    if n > 1 {
      LeadingNewlinesVanish(s[1..]);
      assert After(s[1..], n - 1) == After(s, n);
    }
  }

  /** Where no long run starts, the first character is handled alike in input and output. */
  lemma CollapseShortRun(s: string)
    requires s != [] && NewlineRun(s) < 3
    ensures Without(CollapseNewlines(s), LineFeed) == Without([s[0]], LineFeed) + Without(CollapseNewlines(s[1..]), LineFeed)
    ensures Without(s, LineFeed) == Without([s[0]], LineFeed) + Without(s[1..], LineFeed)
  {
    CollapseStep(s);
    WithoutAppend([s[0]], CollapseNewlines(s[1..]), LineFeed);
    WithoutHead(s, LineFeed);
  }

  lemma WithoutHead(s: string, cs: set<char>)
    requires s != []
    ensures Without(s, cs) == Without([s[0]], cs) + Without(s[1..], cs)
  {
    WithoutAppend([s[0]], s[1..], cs);
    assert [s[0]] + s[1..] == s;
  }

  /** One step of the collapsing scan. */
  lemma CollapseStep(s: string)
    requires s != []
    ensures NewlineRun(s) >= 3 ==> CollapseNewlines(s) == "\n\n" + CollapseNewlines(After(s, NewlineRun(s)))
    ensures NewlineRun(s) < 3 ==> CollapseNewlines(s) == [s[0]] + CollapseNewlines(s[1..])
  {
  }

  /** A run of `n` line feeds followed by another character is what `NewlineRun` counts. */
  lemma {:induction false} NewlineRunIs(s: string, n: nat)
    requires n < |s| && s[n] != '\n'
    requires forall i :: 0 <= i < n ==> s[i] == '\n'
    ensures NewlineRun(s) == n
    decreases n
  {
    if n > 0 {
      NewlineRunIs(s[1..], n - 1);
    }
  }

  /** Text that does not end with a line feed keeps its leading run when more text follows. */
  lemma NewlineRunAppend(p: string, x: string)
    requires p != [] && p[|p| - 1] != '\n'
    ensures NewlineRun(p) < |p| && NewlineRun(p + x) == NewlineRun(p)
  {
    var n := NewlineRun(p);
    assert n < |p|;
    NewlineRunIs(p + x, n);
  }

  /**
   * Collapsing works piece by piece: text that does not end with a line feed
   * and whatever follows it are collapsed separately. With the leading-run
   * clause of `CollapseNewlines`, this fixes what happens to every run of
   * line feeds, not only the first.
   */
  lemma {:induction false} CollapseAppend(p: string, x: string)
    requires p == [] || p[|p| - 1] != '\n'
    ensures CollapseNewlines(p + x) == CollapseNewlines(p) + CollapseNewlines(x)
    decreases |p|
  {
    if p == [] {
      assert p + x == x;
    } else {
      hide CollapseNewlines;
      var n := NewlineRun(p);
      NewlineRunAppend(p, x);
      if n >= 3 {
        CollapseAppend(After(p, n), x);
        CollapseAppendLong(p, x);
      } else {
        CollapseAppend(p[1..], x);
        CollapseAppendShort(p, x);
      }
    }
  }

  /** The long-run step of `CollapseAppend`: the run becomes two line feeds on both sides. */
  lemma CollapseAppendLong(p: string, x: string)
    requires p != [] && p[|p| - 1] != '\n' && 3 <= NewlineRun(p) < |p|
    requires NewlineRun(p + x) == NewlineRun(p)
    requires var rest := After(p, NewlineRun(p));
      CollapseNewlines(rest + x) == CollapseNewlines(rest) + CollapseNewlines(x)
    ensures CollapseNewlines(p + x) == CollapseNewlines(p) + CollapseNewlines(x)
  {
    hide CollapseNewlines;
    var n := NewlineRun(p);
    CollapseStep(p);
    CollapseStep(p + x);
    assert After(p + x, n) == After(p, n) + x;
    ConcatAssociates("\n\n", CollapseNewlines(After(p, n)), CollapseNewlines(x));
  }

  /** The short-run step of `CollapseAppend`: the first character is kept on both sides. */
  lemma CollapseAppendShort(p: string, x: string)
    requires p != [] && NewlineRun(p) < 3
    requires NewlineRun(p + x) == NewlineRun(p)
    requires CollapseNewlines(p[1..] + x) == CollapseNewlines(p[1..]) + CollapseNewlines(x)
    ensures CollapseNewlines(p + x) == CollapseNewlines(p) + CollapseNewlines(x)
  {
    hide CollapseNewlines, NewlineRun;
    CollapseStep(p);
    CollapseStep(p + x);
    assert (p + x)[0] == p[0] && (p + x)[1..] == p[1..] + x;
    ConcatAssociates([p[0]], CollapseNewlines(p[1..]), CollapseNewlines(x));
  }

  lemma ConcatAssociates(a: string, b: string, c: string)
    ensures a + (b + c) == a + b + c
  {
  }

  /** `k` line feeds. */
  function Newlines(k: nat): (r: string)
    ensures |r| == k && forall i :: 0 <= i < k ==> r[i] == '\n'
  {
    if k == 0 then "" else "\n" + Newlines(k - 1)
  }

  /** A run of fewer than three line feeds before other text is kept as it is. */
  lemma {:induction false} CollapseShortRunKept(k: nat, x: string)
    requires k < 3 && (x == [] || x[0] != '\n')
    ensures CollapseNewlines(Newlines(k) + x) == Newlines(k) + CollapseNewlines(x)
    decreases k
  {
    hide CollapseNewlines;
    var s := Newlines(k) + x;
    if k == 0 {
      assert s == x;
    } else {
      if x == [] {
        assert NewlineRun(s) <= |s| == k;
      } else {
        NewlineRunIs(s, k);
      }
      CollapseStep(s);
      assert s[1..] == Newlines(k - 1) + x;
      CollapseShortRunKept(k - 1, x);
    }
  }

  /** A run of three or more line feeds before other text becomes exactly two. */
  lemma CollapseLongRunToTwo(k: nat, x: string)
    requires k >= 3 && (x == [] || x[0] != '\n')
    ensures CollapseNewlines(Newlines(k) + x) == "\n\n" + CollapseNewlines(x)
  {
    hide CollapseNewlines;
    var s := Newlines(k) + x;
    if x == [] {
      assert NewlineRun(s) == k;
    } else {
      NewlineRunIs(s, k);
    }
    CollapseStep(s);
    assert After(s, k) == x;
  }

  /**
   * Every run of line feeds, wherever it stands: between text that does not
   * end with a line feed and text that does not start with one, a run of
   * three or more becomes exactly two line feeds and a shorter run is kept.
   */
  lemma CollapseInteriorRun(p: string, k: nat, x: string)
    requires p == [] || p[|p| - 1] != '\n'
    requires x == [] || x[0] != '\n'
    ensures CollapseNewlines(p + (Newlines(k) + x)) ==
      CollapseNewlines(p) + ((if k >= 3 then "\n\n" else Newlines(k)) + CollapseNewlines(x))
  {
    hide CollapseNewlines;
    CollapseAppend(p, Newlines(k) + x);
    if k >= 3 {
      CollapseLongRunToTwo(k, x);
    } else {
      CollapseShortRunKept(k, x);
    }
  }

  /** Line feeds in front vanish when line feeds are deleted. */
  lemma NewlinesThenRest(p: string, t: string)
    requires forall i :: 0 <= i < |p| ==> p[i] == '\n'
    ensures Without(p + t, LineFeed) == Without(t, LineFeed)
  {
    WithoutAppend(p, t, LineFeed);
    WithoutNewlineRun(p);
  }

  lemma {:induction false} WithoutNewlineRun(s: string)
    requires forall i :: 0 <= i < |s| ==> s[i] == '\n'
    ensures Without(s, LineFeed) == []
    decreases |s|
  {
    if s != [] {
      WithoutNewlineRun(s[1..]);
    }
  }

  // ---------------------------------------------------------------------------
  // Stage 4: .trim()

  /** The characters JavaScript's `trim` removes: white space and line terminators. */
  predicate IsJsWhitespace(c: char) {
    c == '\t' || c == '\n' || c == '\U{000B}' || c == '\U{000C}' || c == '\r' || c == ' ' ||
    c == '\U{00A0}' || c == '\U{1680}' || ('\U{2000}' <= c <= '\U{200A}') ||
    c == '\U{2028}' || c == '\U{2029}' || c == '\U{202F}' || c == '\U{205F}' ||
    c == '\U{3000}' || c == '\U{FEFF}'
  }

  /** `s` without its leading white space: it is empty or starts with a non-space (a suffix of `s`, by `TrimStartIsSuffix`). */
  function TrimStart(s: string): (r: string)
    ensures |r| <= |s|
    ensures forall i :: 0 <= i < |s| - |r| ==> IsJsWhitespace(s[i])
    ensures r != [] ==> !IsJsWhitespace(r[0])
  {
    if s != [] && IsJsWhitespace(s[0]) then
      var r := TrimStart(s[1..]);
      assert forall i :: 1 <= i < |s| ==> s[i] == s[1..][i - 1];
      r
    else s
  }
  /** `s` without its trailing white space: a prefix of `s` that is empty or ends with a non-space. */
  function TrimEnd(s: string): (r: string)
    ensures |r| <= |s| && r == s[..|r|]
    ensures forall i :: |r| <= i < |s| ==> IsJsWhitespace(s[i])
    ensures r != [] ==> !IsJsWhitespace(r[|r| - 1])
  {
    if s != [] && IsJsWhitespace(s[|s| - 1]) then TrimEnd(s[..|s| - 1]) else s
  }

  /**
   * `s.trim()`: what is left once white space is removed at both ends. It is
   * the slice of `s` that starts after the leading white space, and it
   * neither starts nor ends with white space.
   */
  function Trim(s: string): (r: string)
    ensures |r| <= |TrimStart(s)|
    ensures r != [] ==> !IsJsWhitespace(r[0]) && !IsJsWhitespace(r[|r| - 1])
  {
    var t := TrimStart(s);
    var r := TrimEnd(t);
    assert r != [] ==> r[0] == t[0];
    r
  }

  /** What `TrimStart` keeps is the end of `s`. */
  lemma {:induction false} TrimStartIsSuffix(s: string)
    ensures TrimStart(s) == s[|s| - |TrimStart(s)|..]
    decreases |s|
  {
    if s != [] && IsJsWhitespace(s[0]) {
      TrimStartIsSuffix(s[1..]);
      assert s[1..][|s[1..]| - |TrimStart(s[1..])|..] == s[|s| - |TrimStart(s)|..];
    }
  }

  /** `Trim(s)` is the slice of `s` that starts after the leading white space. */
  lemma TrimIsSlice(s: string)
    ensures var a := |s| - |TrimStart(s)|; a + |Trim(s)| <= |s| && Trim(s) == s[a..a + |Trim(s)|]
  {
    var t := TrimStart(s);
    TrimStartIsSuffix(s);
    var a := |s| - |t|;
    assert Trim(s) == t[..|Trim(s)|];
    assert t[..|Trim(s)|] == s[a..a + |Trim(s)|];
  }

  /** `trim` leaves nothing exactly when the text is all white space. */
  lemma TrimEmptyIffBlank(s: string)
    ensures Trim(s) == [] <==> forall i :: 0 <= i < |s| ==> IsJsWhitespace(s[i])
  {
    var t := TrimStart(s);
    TrimStartIsSuffix(s);
    if t != [] {
      assert t[0] == s[|s| - |t|];
    }
  }

  /** Text that neither starts nor ends with white space is left as it is. */
  lemma TrimNothingToTrim(s: string)
    requires s != [] ==> !IsJsWhitespace(s[0]) && !IsJsWhitespace(s[|s| - 1])
    ensures Trim(s) == s
  {
  }

  /** A slice of text with no three line feeds in a row has none either. */
  lemma NoTripleSlice(s: string, a: nat, b: nat)
    requires a <= b <= |s|
    requires NoTripleNewline(s)
    ensures NoTripleNewline(s[a..b])
  {
    var r := s[a..b];
    forall i | 0 <= i && i + 2 < |r|
      ensures !(r[i] == '\n' && r[i + 1] == '\n' && r[i + 2] == '\n')
    {
      assert r[i] == s[a + i] && r[i + 1] == s[a + i + 1] && r[i + 2] == s[a + i + 2];
    }
  }

  /** What trimming keeps is in order. */
  lemma TrimKeepsOrder(s: string)
    ensures IsSubsequence(Trim(s), s)
  {
    var a := |s| - |TrimStart(s)|;
    TrimIsSlice(s);
    SubsequenceOfSlice(s, a, a + |Trim(s)|);
  }

  /** Trimming keeps a slice: no three line feeds in a row appear that were not there. */
  lemma TrimKeepsNoTriple(s: string)
    requires NoTripleNewline(s)
    ensures NoTripleNewline(Trim(s))
  {
    var a := |s| - |TrimStart(s)|;
    TrimIsSlice(s);
    NoTripleSlice(s, a, a + |Trim(s)|);
  }

  // ---------------------------------------------------------------------------
  // The four stages together

  /**
   * `cleanTextOutput`: the text shown for an assistant reply. It neither
   * starts nor ends with white space; its other properties are the lemmas below.
   */
  function CleanText(text: string): (r: string)
    ensures r != [] ==> !IsJsWhitespace(r[0]) && !IsJsWhitespace(r[|r| - 1])
  {
    Trim(CollapseNewlines(Without(StripTokens(text), MarkdownChars)))
  }

  /** The shown text holds no markdown character. */
  lemma CleanTextHasNoMarkdown(text: string)
    ensures forall c :: c in CleanText(text) ==> c !in MarkdownChars
  {
    var plain := Without(StripTokens(text), MarkdownChars);
    var collapsed := CollapseNewlines(plain);
    CollapseKeepsOrder(plain);
    TrimKeepsOrder(collapsed);
    forall c | c in Trim(collapsed) ensures c !in MarkdownChars {
      SubsequenceChars(Trim(collapsed), collapsed, c);
      SubsequenceChars(collapsed, plain, c);
    }
  }

  /** The shown text never holds three line feeds in a row. */
  lemma CleanTextHasNoTripleNewline(text: string)
    ensures NoTripleNewline(CleanText(text))
  {
    TrimKeepsNoTriple(CollapseNewlines(Without(StripTokens(text), MarkdownChars)));
  }

  /** Everything shown comes from the streamed text, in the same order. */
  lemma CleanTextKeepsOrder(text: string)
    ensures IsSubsequence(CleanText(text), text)
  {
    var stripped := StripTokens(text);
    var plain := Without(stripped, MarkdownChars);
    var collapsed := CollapseNewlines(plain);
    StripTokensKeepsOrder(text);
    WithoutKeepsOrder(stripped, MarkdownChars);
    CollapseKeepsOrder(plain);
    TrimKeepsOrder(collapsed);
    SubsequenceTransitive(Trim(collapsed), collapsed, plain);
    SubsequenceTransitive(Trim(collapsed), plain, stripped);
    SubsequenceTransitive(Trim(collapsed), stripped, text);
  }

  /** Text that is already clean and holds no '[' is shown exactly as streamed. */
  lemma CleanTextKeepsCleanText(text: string)
    requires '[' !in text
    requires forall c :: c in text ==> c !in MarkdownChars
    requires NoTripleNewline(text)
    requires text != [] ==> !IsJsWhitespace(text[0]) && !IsJsWhitespace(text[|text| - 1])
    ensures CleanText(text) == text
  {
    StripTokensNoBracket(text, "");
    assert text + "" == text;
    WithoutNothingToDelete(text, MarkdownChars);
    CollapseNothingToCollapse(text);
    TrimNothingToTrim(text);
  }
}

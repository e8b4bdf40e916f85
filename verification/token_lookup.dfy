/**
 * `findPropertyFromToken` (components/ChatInterface.tsx): the listing named by
 * the first `[PROP:<digits>]` token of the assistant's text so far.
 */
module TokenLookup {
  import opened Wrappers
  import opened Catalog
  import opened PropToken

  /** A token of the pattern starts at position `i` of `s`. */
  predicate TokenStartsAt(s: string, i: nat) {
    i < |s| && MatchAt(s, i) > 0
  }

  /** The token starting at `i` is the leftmost token of `s`. */
  predicate IsFirstToken(s: string, i: nat) {
    TokenStartsAt(s, i) && forall j :: 0 <= j < i ==> !TokenStartsAt(s, j)
  }

  /** The search of `s.match` from position `i` on: the first position where a token starts. */
  function FirstMatchFrom(s: string, i: nat): (r: Option<nat>)
    requires i <= |s|
    ensures r.Some? ==> i <= r.value && TokenStartsAt(s, r.value)
    ensures r.Some? ==> forall j :: i <= j < r.value ==> !TokenStartsAt(s, j)
    ensures r.None? ==> forall j :: i <= j < |s| ==> !TokenStartsAt(s, j)
    decreases |s| - i
  {
    if i == |s| then None
    else if MatchAt(s, i) > 0 then Some(i)
    else FirstMatchFrom(s, i + 1)
  }

  /** `s.match(/\[PROP:(\d+)\]/)`: the position of the leftmost token, if any. */
  function FirstMatch(s: string): (r: Option<nat>)
    ensures r.Some? ==> IsFirstToken(s, r.value)
    ensures r.None? ==> forall j :: 0 <= j < |s| ==> !TokenStartsAt(s, j)
  {
    FirstMatchFrom(s, 0)
  }

  /** The capture group `(\d+)` of the token that starts at `i`. */
  function TokenDigits(s: string, i: nat): (d: string)
    requires TokenStartsAt(s, i)
    ensures |d| > 0 && AllDigits(d)
    ensures s[i..i + MatchAt(s, i)] == Open + d + "]"
  {
    var n := MatchAt(s, i);
    MatchAtIsToken(s, i);
    var w := s[i..i + n];
    assert w[6..n - 1] == s[i + 6..i + n - 1];
    assert w == w[..6] + w[6..n - 1] + [w[n - 1]];
    s[i + 6..i + n - 1]
  }

  /**
   * `findPropertyFromToken`: the catalog listing whose id equals the digits
   * of the first token of `text`; `None` when there is no token or when no
   * listing carries those digits. The component looks in `MockProperties`;
   * the catalog is a parameter here so that the proofs need not unfold it.
   */
  function FindPropertyFromToken(catalog: seq<Property>, text: string): (r: Option<Property>)
    ensures r.Some? ==> r.value in catalog
    ensures forall i: nat :: IsFirstToken(text, i) ==> r == FindById(catalog, TokenDigits(text, i))
    ensures (forall i :: 0 <= i < |text| ==> !TokenStartsAt(text, i)) ==> r.None?
  {
    match FirstMatch(text)
    case None =>
      assert forall i: nat :: !IsFirstToken(text, i);
      None
    case Some(i) =>
      assert forall k :: IsFirstToken(text, k) ==> k == i by {
        forall k | IsFirstToken(text, k) ensures k == i {
          FirstTokenUnique(text, i, k);
        }
      }
      FindById(catalog, TokenDigits(text, i))
  }

  /** At most one position holds the leftmost token. */
  lemma FirstTokenUnique(s: string, i: nat, k: nat)
    requires IsFirstToken(s, i) && IsFirstToken(s, k)
    ensures i == k
  {
  }

  /** Once `s` holds a token, appending text leaves the leftmost token where it is, with the same digits. */
  lemma FirstMatchExtend(s: string, t: string)
    requires FirstMatch(s).Some?
    ensures FirstMatch(s + t) == FirstMatch(s)
    ensures var i := FirstMatch(s).value; TokenDigits(s + t, i) == TokenDigits(s, i)
  {
    var i := FirstMatch(s).value;
    MatchAtExtend(s, t, i);
    forall j | 0 <= j < i
      ensures !TokenStartsAt(s + t, j)
    {
      assert !TokenStartsAt(s, j);
      NoMatchStaysBeforeMatch(s, t, j, i);
    }
    assert IsFirstToken(s + t, i);
    if FirstMatch(s + t).Some? {
      FirstTokenUnique(s + t, i, FirstMatch(s + t).value);
    }
    var n := MatchAt(s, i);
    assert (s + t)[i + 6..i + n - 1] == s[i + 6..i + n - 1];
  }

  /**
   * The listing found in the text streamed so far is kept when further
   * chunks arrive: appending text to a text whose first token names a
   * listing finds that same listing.
   */
  lemma {:induction false} FoundPropertyIsStable(catalog: seq<Property>, s: string, t: string)
    requires FindPropertyFromToken(catalog, s).Some?
    ensures FindPropertyFromToken(catalog, s + t) == FindPropertyFromToken(catalog, s)
  {
    FirstMatchExtend(s, t);
  }
}

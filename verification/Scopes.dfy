/** The scope order behind the rule that nobody grants more than they hold. */
module Scopes {
  import opened Wrappers

  function LowerChar(c: char): char {
    if 'A' <= c <= 'Z' then (c as int - 'A' as int + 'a' as int) as char else c
  }

  function ToLower(s: string): string {
    seq(|s|, i requires 0 <= i < |s| => LowerChar(s[i]))
  }

  /** An empty scope means the whole action. */
  function NormalizeScope(scope: string): string {
    if scope == "" then "full" else ToLower(scope)
  }

  /** Rank of a well-known scope; a scope nobody ranked has none. */
  function ScopeRank(normalized: string): Option<int> {
    if normalized == "read" then Some(1)
    else if normalized == "write" then Some(2)
    else if normalized == "full" then Some(3)
    else if normalized == "owner" then Some(4)
    else None
  }

  predicate ScopeAtLeast(held: string, requested: string) {
    var h, r := ScopeRank(NormalizeScope(held)), ScopeRank(NormalizeScope(requested));
    if h.Some? && r.Some? then h.value >= r.value
    else NormalizeScope(held) == NormalizeScope(requested)
  }

  /** The order is a preorder on all scope strings, ranked or not. */
  lemma ScopePreorder(a: string, b: string, c: string)
    ensures ScopeAtLeast(a, a)
    ensures ScopeAtLeast(a, b) && ScopeAtLeast(b, c) ==> ScopeAtLeast(a, c)
  {
  }

  // ----- The order, from least to greatest -----

  const WELL_KNOWN := ["read", "write", "full", "owner"]

  predicate SameLetter(a: char, b: char) {
    a == b || ('A' <= a <= 'Z' && b as int == a as int + 32) || ('A' <= b <= 'Z' && a as int == b as int + 32)
  }

  /** The scopes differ at most in the case of their letters. */
  predicate SameButForCase(a: string, b: string) {
    |a| == |b| && forall i :: 0 <= i < |a| ==> SameLetter(a[i], b[i])
  }

  /** Case is all that lower-casing forgets. */
  lemma SameLowerCase(a: string, b: string)
    ensures ToLower(a) == ToLower(b) <==> SameButForCase(a, b)
  {
    if ToLower(a) == ToLower(b) {
      assert |ToLower(a)| == |a| && |ToLower(b)| == |b|;
      forall i | 0 <= i < |a| ensures SameLetter(a[i], b[i]) {
        assert ToLower(a)[i] == ToLower(b)[i];
      }
    }
  }

  lemma WellKnownIsLower(k: nat)
    requires k < |WELL_KNOWN|
    ensures ToLower(WELL_KNOWN[k]) == WELL_KNOWN[k]
  {
  }

  /** Read, write, full, owner: each covers itself and those before it, whatever the case of the letters. */
  lemma ScopesAreOrdered(held: string, requested: string, i: nat, j: nat)
    requires i < |WELL_KNOWN| && j < |WELL_KNOWN|
    requires SameButForCase(held, WELL_KNOWN[i]) && SameButForCase(requested, WELL_KNOWN[j])
    ensures ScopeAtLeast(held, requested) <==> j <= i
  {
    SameLowerCase(held, WELL_KNOWN[i]);
    SameLowerCase(requested, WELL_KNOWN[j]);
    WellKnownIsLower(i);
    WellKnownIsLower(j);
  }

  /** No scope at all stands for the whole action. */
  lemma EmptyMeansFull(other: string)
    ensures ScopeAtLeast("", other) <==> ScopeAtLeast("full", other)
    ensures ScopeAtLeast(other, "") <==> ScopeAtLeast(other, "full")
  {
    WellKnownIsLower(2);
  }

  /** A scope of nobody's list is no match for any other, nor any other for it. */
  lemma UnknownScopesStandAlone(custom: string, other: string)
    requires custom != "" && forall k :: 0 <= k < |WELL_KNOWN| ==> !SameButForCase(custom, WELL_KNOWN[k])
    ensures ScopeAtLeast(custom, other) <==> SameButForCase(custom, other)
    ensures ScopeAtLeast(other, custom) <==> SameButForCase(custom, other)
  {
    forall k | 0 <= k < |WELL_KNOWN| ensures ToLower(custom) != WELL_KNOWN[k] {
      SameLowerCase(custom, WELL_KNOWN[k]);
      WellKnownIsLower(k);
    }
    SameLowerCase(custom, other);
    assert ToLower(custom) != WELL_KNOWN[0] && ToLower(custom) != WELL_KNOWN[1];
    assert ToLower(custom) != WELL_KNOWN[2] && ToLower(custom) != WELL_KNOWN[3];
  }

  /** What a held scope covers, by the list alone: what stands no later in it, and itself. */
  predicate Covers(held: string, requested: string) {
    var h, r := if held == "" then "full" else held, if requested == "" then "full" else requested;
    SameButForCase(h, r) ||
    exists i, j :: 0 <= j <= i < |WELL_KNOWN| && SameButForCase(h, WELL_KNOWN[i]) && SameButForCase(r, WELL_KNOWN[j])
  }

  /** The comparison by rank is the order of the list, for all scopes. */
  lemma ScopeAtLeastIsCovers(held: string, requested: string)
    ensures ScopeAtLeast(held, requested) <==> Covers(held, requested)
  {
    var h, r := if held == "" then "full" else held, if requested == "" then "full" else requested;
    EmptyMeansFull(held);
    EmptyMeansFull(requested);
    assert ScopeAtLeast(held, requested) <==> ScopeAtLeast(h, r);
    SameLowerCase(h, r);
    if i :| 0 <= i < |WELL_KNOWN| && SameButForCase(h, WELL_KNOWN[i]) {
      if j :| 0 <= j < |WELL_KNOWN| && SameButForCase(r, WELL_KNOWN[j]) {
        ScopesAreOrdered(h, r, i, j);
        OnePlace(h, i);
        OnePlace(r, j);
      } else {
        UnknownScopesStandAlone(r, h);
      }
    } else {
      UnknownScopesStandAlone(h, r);
    }
  }

  /** A scope is at one place of the list at most. */
  lemma OnePlace(scope: string, i: nat)
    requires i < |WELL_KNOWN| && SameButForCase(scope, WELL_KNOWN[i])
    ensures forall k :: 0 <= k < |WELL_KNOWN| && SameButForCase(scope, WELL_KNOWN[k]) ==> k == i
  {
    forall k | 0 <= k < |WELL_KNOWN| && SameButForCase(scope, WELL_KNOWN[k]) ensures k == i {
      SameLowerCase(scope, WELL_KNOWN[i]);
      SameLowerCase(scope, WELL_KNOWN[k]);
      WellKnownIsLower(i);
      WellKnownIsLower(k);
      assert WELL_KNOWN[i] == WELL_KNOWN[k];
    }
  }
}

/** Strings joined with NUL between their fields. */
module Fields {
  const NUL: char := '\0'

  predicate NulFree(s: string) {
    forall i :: 0 <= i < |s| ==> s[i] != NUL
  }

  /** The stretches between the NULs. */
  function Split(s: string): (fields: seq<string>)
    ensures |fields| > 0
  {
    if s == "" then [""]
    else
      var rest := Split(s[1..]);
      if s[0] == NUL then [""] + rest else [[s[0]] + rest[0]] + rest[1..]
  }

  lemma {:induction false} SplitLast(s: string)
    requires NulFree(s)
    ensures Split(s) == [s]
  {
    if s != "" {
      SplitLast(s[1..]);
      assert s == [s[0]] + s[1..];
    }
  }

  lemma {:induction false} SplitFirst(s: string, rest: string)
    requires NulFree(s)
    ensures Split(s + ([NUL] + rest)) == [s] + Split(rest)
  {
    var all := s + ([NUL] + rest);
    if s == "" {
      assert all == [NUL] + rest && all[1..] == rest;
    } else {
      assert all[1..] == s[1..] + ([NUL] + rest);
      SplitFirst(s[1..], rest);
      assert s == [s[0]] + s[1..];
      assert ([s[1..]] + Split(rest))[1..] == Split(rest);
    }
  }
}

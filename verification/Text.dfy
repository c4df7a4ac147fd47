/** Facts about the separators used in composed names. */
module Text {

  predicate ColonFree(s: string) {
    ':' !in s
  }

  /** When two splittings at a colon disagree, the longer head contains a colon. */
  lemma LongerHeadHasColon(a: string, rest: string, b: string, rest': string)
    requires a + ":" + rest == b + ":" + rest'
    requires |a| < |b|
    ensures !ColonFree(b)
  {
    assert b[|a|] == (b + ":" + rest')[|a|] == (a + ":" + rest)[|a|] == ':';
  }

  /** A colon-free head is recovered from the text it is joined to: the first colon ends it. */
  lemma SplitAtColon(a: string, rest: string, b: string, rest': string)
    requires ColonFree(a) && ColonFree(b)
    requires a + ":" + rest == b + ":" + rest'
    ensures a == b && rest == rest'
  {
    if |a| < |b| {
      LongerHeadHasColon(a, rest, b, rest');
    } else if |b| < |a| {
      LongerHeadHasColon(b, rest', a, rest);
    } else {
      var s := a + ":" + rest;
      assert a == s[..|a|] == b;
      assert rest == s[|a| + 1..] == rest';
    }
  }

  /** A common prefix can be removed. */
  lemma DropPrefix(p: string, a: string, b: string)
    requires p + a == p + b
    ensures a == b
  {
    assert a == (p + a)[|p|..] == (p + b)[|p|..] == b;
  }

  lemma FirstColon(s: string) returns (k: nat)
    requires !ColonFree(s)
    ensures k < |s| && s[k] == ':' && ColonFree(s[..k])
  {
    k := 0;
    while k < |s| && s[k] != ':'
      invariant k <= |s| && ColonFree(s[..k])
    {
      assert s[..k + 1] == s[..k] + [s[k]];
      k := k + 1;
    }
    assert s[..|s|] == s;
  }
}

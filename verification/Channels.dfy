/** The names of the broker's channels, and when a name tells its address. */
module Channels {
  import opened Text

  datatype Address =
    | Client(tenant: string, client: string)
    | Device(tenant: string, client: string, device: string)
    | Topic(tenant: string, topic: string)

  const DEVICE_MARK := ":device:"

  function ClientChannel(tenant: string, client: string): string {
    "tenant:" + tenant + ":client:" + client
  }

  function DeviceChannel(tenant: string, client: string, device: string): string {
    "tenant:" + tenant + ":client:" + client + ":device:" + device
  }

  function TopicChannel(tenant: string, topic: string): string {
    "tenant:" + tenant + ":topic:" + topic
  }

  function Name(a: Address): string {
    match a
    case Client(t, c) => ClientChannel(t, c)
    case Device(t, c, d) => DeviceChannel(t, c, d)
    case Topic(t, x) => TopicChannel(t, x)
  }

  /** For instance. */
  lemma NamesAreCanonical()
    ensures Name(Client("t1", "u1")) == "tenant:t1:client:u1"
    ensures Name(Device("t1", "u1", "d1")) == "tenant:t1:client:u1:device:d1"
    ensures Name(Topic("t1", "payment")) == "tenant:t1:topic:payment"
  {
  }

  // ----- marks -----

  const TENANT_MARKS: set<string> := {":client:", ":topic:"}

  const DEVICE_MARKS: set<string> := {DEVICE_MARK}

  ghost predicate MarkAt(s: string, marks: set<string>, i: nat) {
    i <= |s| && exists m :: m in marks && m <= s[i..]
  }

  ghost predicate Marked(s: string, marks: set<string>) {
    exists i: nat :: MarkAt(s, marks, i)
  }

  /** The tenant, and the client id where there is one, contain no mark that could be taken for the one that
      follows them. A client id may end where a device would begin only if no device follows. */
  ghost predicate WellNamed(a: Address) {
    && !Marked(a.tenant + ":", TENANT_MARKS)
    && match a
       case Client(_, c) => !Marked(c, DEVICE_MARKS)
       case Device(_, c, _) => !Marked(c + ":", DEVICE_MARKS)
       case Topic(_, _) => true
  }

  type GoodAddress = a: Address | WellNamed(a) ghost witness (ColonFreeIsWellNamed(Topic("", "")); Topic("", ""))

  /** Marks begin with a colon and go on. */
  ghost predicate AreMarks(marks: set<string>) {
    forall m :: m in marks ==> |m| > 1 && m[0] == ':'
  }

  lemma MarkStarts(s: string, marks: set<string>, i: nat)
    requires AreMarks(marks) && MarkAt(s, marks, i)
    ensures i + 1 < |s| && s[i] == ':'
  {
    var m :| m in marks && m <= s[i..];
    assert s[i..][0] == s[i];
  }

  lemma MarkOfPrefix(a: string, b: string, marks: set<string>, i: nat)
    requires a <= b && MarkAt(a, marks, i)
    ensures MarkAt(b, marks, i)
  {
    assert a[i..] <= b[i..];
  }

  lemma ColonFreeHasNoMark(s: string, marks: set<string>)
    requires ColonFree(s) && AreMarks(marks)
    ensures !Marked(s + ":", marks) && !Marked(s, marks)
  {
    forall i: nat
      ensures !MarkAt(s + ":", marks, i)
    {
      if MarkAt(s + ":", marks, i) {
        MarkStarts(s + ":", marks, i);
      }
    }
    forall i: nat
      ensures !MarkAt(s, marks, i)
    {
      if MarkAt(s, marks, i) {
        MarkStarts(s, marks, i);
      }
    }
  }

  /** Colon-free tenants and client ids are well named. */
  lemma ColonFreeIsWellNamed(a: Address)
    requires ColonFree(a.tenant) && (!a.Topic? ==> ColonFree(a.client))
    ensures WellNamed(a)
  {
    ColonFreeHasNoMark(a.tenant, TENANT_MARKS);
    if !a.Topic? {
      ColonFreeHasNoMark(a.client, DEVICE_MARKS);
    }
  }

  // ----- a name tells its well-named address -----

  /** Where a colon-free word stands between colons after a shorter head, the longer head contains it so. */
  lemma LongerHeadIsMarked(h: string, w: string, r: string, h': string, r': string, marks: set<string>)
    requires ColonFree(w) && ":" + w + ":" in marks
    requires h + ":" + w + ":" + r == h' + ":" + r' && |h| < |h'|
    ensures Marked(h' + ":", marks)
  {
    var s, i, m := h' + ":" + r', |h|, ":" + w + ":";
    assert s[|h'|] == ':';
    assert forall j :: i < j <= i + |w| ==> s[j] == (h + ":" + w + ":" + r)[j] == w[j - i - 1];
    assert |h'| > i + |w|;
    assert s[i..i + |m|] == (h + ":" + w + ":" + r)[i..i + |m|] == m;
    assert (h' + ":")[i..][..|m|] == s[i..i + |m|];
    assert m <= (h' + ":")[i..];
    assert MarkAt(h' + ":", marks, i);
  }

  /** The word after the tenant. */
  function Kind(a: Address): string {
    if a.Topic? then "topic" else "client"
  }

  /** What follows it. */
  function Rest(a: Address): string {
    match a
    case Client(_, c) => c
    case Device(_, c, d) => c + DEVICE_MARK + d
    case Topic(_, x) => x
  }

  function Body(tenant: string, kind: string, rest: string): string {
    tenant + ":" + kind + ":" + rest
  }

  lemma NameIsBody(a: Address)
    ensures Name(a) == "tenant:" + Body(a.tenant, Kind(a), Rest(a))
  {
    var t, k, r := a.tenant, Kind(a), Rest(a);
    Regroup("tenant:", t, ":", k, ":", r);
    assert ":" + "client" + ":" == ":client:";
    assert ":" + "topic" + ":" == ":topic:";
    if a.Device? {
      assert Name(a) == "tenant:" + t + ":client:" + (a.client + DEVICE_MARK + a.device);
    }
  }

  lemma Regroup(a: string, b: string, c: string, d: string, e: string, f: string)
    ensures a + b + (c + d + e) + f == a + (b + c + d + e + f)
  {
  }

  lemma KindIsMark(a: Address)
    ensures ColonFree(Kind(a)) && ":" + Kind(a) + ":" in TENANT_MARKS
  {
    assert ":" + "client" + ":" == ":client:";
    assert ":" + "topic" + ":" == ":topic:";
  }

  lemma ShorterTenantMarks(a: Address, b: Address)
    requires Body(a.tenant, Kind(a), Rest(a)) == Body(b.tenant, Kind(b), Rest(b)) && |a.tenant| < |b.tenant|
    ensures Marked(b.tenant + ":", TENANT_MARKS)
  {
    KindIsMark(a);
    assert Body(b.tenant, Kind(b), Rest(b)) == b.tenant + ":" + (Kind(b) + ":" + Rest(b));
    LongerHeadIsMarked(a.tenant, Kind(a), Rest(a), b.tenant, Kind(b) + ":" + Rest(b), TENANT_MARKS);
  }

  lemma SameTenantSameRest(t: string, k: string, r: string, k': string, r': string)
    requires ColonFree(k) && ColonFree(k') && Body(t, k, r) == Body(t, k', r')
    ensures k == k' && r == r'
  {
    assert Body(t, k, r) == t + ":" + (k + ":" + r);
    assert Body(t, k', r') == t + ":" + (k' + ":" + r');
    DropPrefix(t + ":", k + ":" + r, k' + ":" + r');
    SplitAtColon(k, r, k', r');
  }

  lemma DeviceMarks(c: string, d: string, c': string, rest: string)
    requires c + DEVICE_MARK + d == c' + ":" + rest && |c| < |c'|
    ensures Marked(c' + ":", DEVICE_MARKS)
  {
    assert ":" + "device" + ":" == DEVICE_MARK;
    assert c + ":" + "device" + ":" + d == c + DEVICE_MARK + d;
    LongerHeadIsMarked(c, "device", d, c', rest, DEVICE_MARKS);
  }

  lemma DeviceIsMarked(c: string, d: string)
    ensures Marked(c + DEVICE_MARK + d, DEVICE_MARKS)
  {
    assert DEVICE_MARK <= (c + DEVICE_MARK + d)[|c|..];
    assert MarkAt(c + DEVICE_MARK + d, DEVICE_MARKS, |c|);
  }

  lemma DevicesSplit(c: string, d: string, c': string, d': string)
    requires !Marked(c + ":", DEVICE_MARKS) && !Marked(c' + ":", DEVICE_MARKS)
    requires c + DEVICE_MARK + d == c' + DEVICE_MARK + d'
    ensures c == c' && d == d'
  {
    assert c + DEVICE_MARK + d == c + ":" + ("device:" + d);
    assert c' + DEVICE_MARK + d' == c' + ":" + ("device:" + d');
    if |c| < |c'| {
      DeviceMarks(c, d, c', "device:" + d');
    } else if |c'| < |c| {
      DeviceMarks(c', d', c, "device:" + d);
    } else {
      var s := c + DEVICE_MARK + d;
      assert c == s[..|c|] == c';
      assert d == s[|c| + |DEVICE_MARK|..] == d';
    }
  }

  /** Well-named addresses with the same name are the same address: a tenant's channels are its own, topics
      are never mistaken for clients, and clients and devices are told apart. */
  lemma NamesAreDistinct(a: Address, b: Address)
    requires WellNamed(a) && WellNamed(b) && Name(a) == Name(b)
    ensures a == b
  {
    NameIsBody(a);
    NameIsBody(b);
    DropPrefix("tenant:", Body(a.tenant, Kind(a), Rest(a)), Body(b.tenant, Kind(b), Rest(b)));
    if |a.tenant| < |b.tenant| {
      ShorterTenantMarks(a, b);
    } else if |b.tenant| < |a.tenant| {
      ShorterTenantMarks(b, a);
    } else {
      SameLengthTenants(a, b);
      KindIsMark(a);
      KindIsMark(b);
      SameTenantSameRest(a.tenant, Kind(a), Rest(a), Kind(b), Rest(b));
      RestsSplit(a, b);
    }
  }

  lemma SameLengthTenants(a: Address, b: Address)
    requires Body(a.tenant, Kind(a), Rest(a)) == Body(b.tenant, Kind(b), Rest(b)) && |a.tenant| == |b.tenant|
    ensures a.tenant == b.tenant
  {
    assert a.tenant == Body(a.tenant, Kind(a), Rest(a))[..|a.tenant|];
    assert b.tenant == Body(b.tenant, Kind(b), Rest(b))[..|b.tenant|];
  }

  lemma RestsSplit(a: Address, b: Address)
    requires WellNamed(a) && WellNamed(b) && a.tenant == b.tenant && Kind(a) == Kind(b) && Rest(a) == Rest(b)
    ensures a == b
  {
    assert Kind(a)[0] == (if a.Topic? then 't' else 'c') && Kind(b)[0] == (if b.Topic? then 't' else 'c');
    if a.Device? {
      DeviceIsMarked(a.client, a.device);
    }
    if b.Device? {
      DeviceIsMarked(b.client, b.device);
    }
    if a.Device? && b.Device? {
      DevicesSplit(a.client, a.device, b.client, b.device);
    }
  }

  // ----- every name is that of a well-named address -----

  lemma FirstMark(s: string, marks: set<string>) returns (i: nat)
    requires Marked(s, marks)
    ensures MarkAt(s, marks, i) && forall j: nat :: j < i ==> !MarkAt(s, marks, j)
  {
    var k: nat :| MarkAt(s, marks, k);
    i := 0;
    while !MarkAt(s, marks, i)
      invariant i <= k && forall j: nat :: j < i ==> !MarkAt(s, marks, j)
      decreases k - i
    {
      i := i + 1;
    }
  }

  /** Cut at its first mark, and followed by its colon, a text is free of marks. */
  lemma CutIsUnmarked(s: string, marks: set<string>, i: nat)
    requires AreMarks(marks) && MarkAt(s, marks, i) && (forall j: nat :: j < i ==> !MarkAt(s, marks, j))
    ensures i < |s| && !Marked(s[..i] + ":", marks)
  {
    MarkStarts(s, marks, i);
    var cut := s[..i] + ":";
    assert cut == s[..i + 1];
    forall j: nat
      ensures !MarkAt(cut, marks, j)
    {
      if MarkAt(cut, marks, j) {
        MarkStarts(cut, marks, j);
        MarkOfPrefix(cut, s, marks, j);
      }
    }
  }

  lemma SplitAtMark(s: string, i: nat, m: string)
    requires i <= |s| && m <= s[i..]
    ensures i + |m| <= |s| && s == s[..i] + m + s[i + |m|..]
  {
    assert s[i..][..|m|] == s[i..i + |m|];
  }

  /** A client or device under a tenant without marks has a well-named address of the same name. */
  lemma ClientIsNamed(tenant: string, rest: string) returns (b: Address)
    requires !Marked(tenant + ":", TENANT_MARKS)
    ensures WellNamed(b) && b.tenant == tenant && Kind(b) == "client" && Rest(b) == rest
  {
    b := Client(tenant, rest);
    if Marked(rest, DEVICE_MARKS) {
      var i := FirstMark(rest, DEVICE_MARKS);
      CutIsUnmarked(rest, DEVICE_MARKS, i);
      SplitAtMark(rest, i, DEVICE_MARK);
      b := Device(tenant, rest[..i], rest[i + |DEVICE_MARK|..]);
    }
  }

  predicate IsKind(kind: string) {
    kind == "client" || kind == "topic"
  }

  lemma MarkKind(m: string) returns (kind: string)
    requires m in TENANT_MARKS
    ensures IsKind(kind) && m == ":" + kind + ":"
  {
    assert ":" + "client" + ":" == ":client:";
    assert ":" + "topic" + ":" == ":topic:";
    kind := if m == ":client:" then "client" else "topic";
  }

  /** A body, whatever its tenant, splits at the first mark. */
  lemma BodySplits(tenant: string, kind: string, rest: string) returns (head: string, kind': string, rest': string)
    requires IsKind(kind)
    ensures !Marked(head + ":", TENANT_MARKS) && IsKind(kind')
    ensures Body(head, kind', rest') == Body(tenant, kind, rest)
  {
    head, kind', rest' := tenant, kind, rest;
    if Marked(tenant + ":", TENANT_MARKS) {
      var s := tenant + ":";
      var i := FirstMark(s, TENANT_MARKS);
      CutIsUnmarked(s, TENANT_MARKS, i);
      var m :| m in TENANT_MARKS && m <= s[i..];
      SplitAtMark(s, i, m);
      head := s[..i];
      kind' := MarkKind(m);
      rest' := s[i + |m|..] + (kind + ":" + rest);
      Regrouped(head, kind', s[i + |m|..], kind + ":" + rest);
      BodyFromTenant(tenant, kind, rest);
    }
  }

  lemma BodyFromTenant(tenant: string, kind: string, rest: string)
    ensures Body(tenant, kind, rest) == tenant + ":" + (kind + ":" + rest)
  {
  }

  lemma Regrouped(a: string, b: string, c: string, d: string)
    ensures a + (":" + b + ":") + c + d == Body(a, b, c + d)
  {
    assert Body(a, b, c + d) == a + ":" + b + ":" + (c + d);
  }

  /** Every name that any address has is the name of exactly one well-named address: so an address is well
      named exactly when it is the one its name stands for, and no further address can be told apart from
      those. */
  lemma NameHasOneAddress(a: Address) returns (b: Address)
    ensures WellNamed(b) && Name(b) == Name(a)
    ensures forall c :: WellNamed(c) && Name(c) == Name(a) ==> c == b
    ensures WellNamed(a) <==> a == b
  {
    var head, kind, rest := BodySplits(a.tenant, Kind(a), Rest(a));
    if kind == "topic" {
      b := Topic(head, rest);
    } else {
      b := ClientIsNamed(head, rest);
    }
    NameIsBody(a);
    NameIsBody(b);
    forall c | WellNamed(c) && Name(c) == Name(a)
      ensures c == b
    {
      NamesAreDistinct(b, c);
    }
  }

  /** For instance: a tenant "a:client:b", and a client id that names a device. */
  lemma AmbiguousNamesCollide(t: string, u: string, c: string, d: string)
    ensures ClientChannel(t + ":client:" + u, c) == ClientChannel(t, u + ":client:" + c)
    ensures TopicChannel(t + ":client:" + u, c) == ClientChannel(t, u + ":topic:" + c)
    ensures ClientChannel(t, c + ":device:" + d) == DeviceChannel(t, c, d)
  {
  }
}

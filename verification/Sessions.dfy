/** Sessions of the push service from subscribe to unsubscribe, any number at once, each stopping at every
    await: the connection count, the broker's table and the device store. */
module Sessions {
  import opened Common
  import opened Faults
  import opened Text

  type Attributes = map<string, string>

  datatype Device = Device(id: string, attributes: Attributes)

  datatype Profile = Profile(tenant: string, client: string, device: Option<Device>)

  /** Where a session stands: New, then subscribed at the broker, its device stored, counted; then either its
      connect ack could not be sent (Unacked) or it is Live; then its device deleted, its broker entry removed,
      and it has been uncounted (Gone). Refused: the broker call failed. */
  datatype Phase = New | Subscribed | Stored | Counted | Unacked | Live | Deleted | Removed | Gone | Refused

  /** The id of its entry, once it has been inserted. */
  datatype Session = Session(profile: Profile, phase: Phase, sub: Option<nat>)

  type DeviceStore = map<string, map<string, Attributes>>

  /** The table is the set of the ids that have an entry at the broker, and nextSub the next fresh one. */
  datatype State = State(
    sessions: seq<Session>,
    table: set<nat>,
    nextSub: nat,
    devices: DeviceStore,
    connections: int)

  datatype Action =
    | Open(profile: Profile)
    | Insert(i: nat, ok: bool)
    | StoreDevice(i: nat, outcome: Outcome)
    | CountIn(i: nat)
    | Ack(i: nat, sent: bool)
    | DeleteDevice(i: nat, outcome: Outcome)
    | RemoveEntry(i: nat)
    | CountOut(i: nat)

  function DeviceKey(tenant: string, client: string): string {
    tenant + ":" + client
  }

  /** HSET and HDEL on the hash of a client. */
  function WithDevice(devices: DeviceStore, key: string, d: Device): DeviceStore {
    var fields: map<string, Attributes> := if key in devices then devices[key] else map[];
    devices[key := fields[d.id := d.attributes]]
  }

  function WithoutDevice(devices: DeviceStore, key: string, id: string): DeviceStore {
    if key in devices then devices[key := devices[key] - {id}] else devices
  }

  predicate Listed(devices: DeviceStore, tenant: string, client: string, id: string) {
    DeviceKey(tenant, client) in devices && id in devices[DeviceKey(tenant, client)]
  }

  function PhaseOf(s: State, i: nat): Phase
    requires i < |s.sessions|
  {
    s.sessions[i].phase
  }

  ghost predicate Enabled(s: State, a: Action) {
    match a
    case Open(_) => true
    case Insert(i, _) => i < |s.sessions| && PhaseOf(s, i).New?
    case StoreDevice(i, _) => i < |s.sessions| && PhaseOf(s, i).Subscribed?
    case CountIn(i) => i < |s.sessions| && PhaseOf(s, i).Stored?
    case Ack(i, _) => i < |s.sessions| && PhaseOf(s, i).Counted?
    case DeleteDevice(i, _) => i < |s.sessions| && PhaseOf(s, i).Live?
    case RemoveEntry(i) => i < |s.sessions| && PhaseOf(s, i).Deleted? && s.sessions[i].sub.Some?
    case CountOut(i) => i < |s.sessions| && PhaseOf(s, i).Removed?
  }

  function Enter(s: State, i: nat, phase: Phase): State
    requires i < |s.sessions|
  {
    s.(sessions := s.sessions[i := s.sessions[i].(phase := phase)])
  }

  ghost function Apply(s: State, a: Action): State
    requires Enabled(s, a)
  {
    match a
    case Open(profile) => s.(sessions := s.sessions + [Session(profile, New, None)])
    case Insert(i, ok) =>
      // the entry is made before the connection is; a failure leaves it behind
      s.(sessions := s.sessions[i := Session(s.sessions[i].profile, if ok then Subscribed else Refused, Some(s.nextSub))],
         table := s.table + {s.nextSub},
         nextSub := s.nextSub + 1)
    case StoreDevice(i, outcome) =>
      var p := s.sessions[i].profile;
      var stored := p.device.Some? && outcome.Applied();
      Enter(s, i, Stored).(
        devices := if stored then WithDevice(s.devices, DeviceKey(p.tenant, p.client), p.device.value) else s.devices)
    case CountIn(i) =>
      Enter(s, i, Counted).(connections := s.connections + 1)
    case Ack(i, sent) =>
      Enter(s, i, if sent then Live else Unacked)
    case DeleteDevice(i, outcome) =>
      var p := s.sessions[i].profile;
      var deleted := p.device.Some? && outcome.Applied();
      Enter(s, i, Deleted).(
        devices := if deleted then WithoutDevice(s.devices, DeviceKey(p.tenant, p.client), p.device.value.id) else s.devices)
    case RemoveEntry(i) =>
      Enter(s, i, Removed).(table := s.table - {s.sessions[i].sub.value})
    case CountOut(i) =>
      Enter(s, i, Gone).(connections := s.connections - 1)
  }

  ghost predicate IsRun(s: State, run: seq<Action>)
    decreases |run|
  {
    run == [] || (Enabled(s, run[0]) && IsRun(Apply(s, run[0]), run[1..]))
  }

  ghost function After(s: State, run: seq<Action>): State
    requires IsRun(s, run)
    decreases |run|
  {
    if run == [] then s else After(Apply(s, run[0]), run[1..])
  }

  function Initial(): State {
    State([], {}, 0, map[], 0)
  }

  // ----- one session, from its connection to its end -----

  /** What a connecting session does: subscribe, which the broker may refuse, store its device, be counted, and
      send its ack. */
  function ConnectRun(i: nat, profile: Profile, inserted: bool, storing: Outcome, acked: bool): seq<Action> {
    if inserted then [Open(profile), Insert(i, true), StoreDevice(i, storing), CountIn(i), Ack(i, acked)]
    else [Open(profile), Insert(i, false)]
  }

  /** What a session does once its loop has ended. */
  function DisconnectRun(i: nat, deleting: Outcome): seq<Action> {
    [DeleteDevice(i, deleting), RemoveEntry(i), CountOut(i)]
  }

  function Connected(s: State, profile: Profile, inserted: bool, storing: Outcome, acked: bool): State {
    State(s.sessions + [Session(profile, if !inserted then Refused else if acked then Live else Unacked, Some(s.nextSub))],
          s.table + {s.nextSub},
          s.nextSub + 1,
          if inserted && profile.device.Some? && storing.Applied()
          then WithDevice(s.devices, DeviceKey(profile.tenant, profile.client), profile.device.value) else s.devices,
          if inserted then s.connections + 1 else s.connections)
  }

  function Disconnected(s: State, i: nat, deleting: Outcome): State
    requires i < |s.sessions| && s.sessions[i].sub.Some?
  {
    var p := s.sessions[i].profile;
    State(s.sessions[i := s.sessions[i].(phase := Gone)],
          s.table - {s.sessions[i].sub.value},
          s.nextSub,
          if p.device.Some? && deleting.Applied()
          then WithoutDevice(s.devices, DeviceKey(p.tenant, p.client), p.device.value.id) else s.devices,
          s.connections - 1)
  }

  lemma {:induction false} Prepend(s: State, a: Action, rest: seq<Action>)
    requires Enabled(s, a) && IsRun(Apply(s, a), rest)
    ensures IsRun(s, [a] + rest) && After(s, [a] + rest) == After(Apply(s, a), rest)
  {
    assert ([a] + rest)[1..] == rest;
  }

  lemma {:induction false} RunsCompose(s: State, first: seq<Action>, second: seq<Action>)
    requires IsRun(s, first) && IsRun(After(s, first), second)
    ensures IsRun(s, first + second) && After(s, first + second) == After(After(s, first), second)
    decreases |first|
  {
    if first == [] {
      assert first + second == second;
    } else {
      RunsCompose(Apply(s, first[0]), first[1..], second);
      assert (first + second)[1..] == first[1..] + second;
    }
  }

  /** From the entry to the ack. */
  lemma {:induction false} ArriveIsRun(s: State, i: nat, storing: Outcome, acked: bool)
    requires i < |s.sessions| && s.sessions[i].phase.Subscribed?
    ensures var run := [StoreDevice(i, storing), CountIn(i), Ack(i, acked)];
            var p := s.sessions[i].profile;
            && IsRun(s, run)
            && After(s, run) == State(
                 s.sessions[i := s.sessions[i].(phase := if acked then Live else Unacked)], s.table, s.nextSub,
                 if p.device.Some? && storing.Applied()
                 then WithDevice(s.devices, DeviceKey(p.tenant, p.client), p.device.value) else s.devices,
                 s.connections + 1)
  {
    var s1 := Apply(s, StoreDevice(i, storing));
    var s2 := Apply(s1, CountIn(i));
    Prepend(s2, Ack(i, acked), []);
    Prepend(s1, CountIn(i), [Ack(i, acked)]);
    Prepend(s, StoreDevice(i, storing), [CountIn(i), Ack(i, acked)]);
  }

  lemma {:induction false} ConnectIsRun(s: State, profile: Profile, inserted: bool, storing: Outcome, acked: bool)
    ensures var run := ConnectRun(|s.sessions|, profile, inserted, storing, acked);
            IsRun(s, run) && After(s, run) == Connected(s, profile, inserted, storing, acked)
  {
    var i := |s.sessions|;
    var s1 := Apply(s, Open(profile));
    var rest := if inserted then [StoreDevice(i, storing), CountIn(i), Ack(i, acked)] else [];
    if inserted {
      ArriveIsRun(Apply(s1, Insert(i, true)), i, storing, acked);
    }
    Prepend(s1, Insert(i, inserted), rest);
    Prepend(s, Open(profile), [Insert(i, inserted)] + rest);
    assert [Open(profile)] + ([Insert(i, inserted)] + rest) == ConnectRun(i, profile, inserted, storing, acked);
    assert After(s, ConnectRun(i, profile, inserted, storing, acked)).sessions
        == Connected(s, profile, inserted, storing, acked).sessions;
  }

  lemma {:induction false} DisconnectIsRun(s: State, i: nat, deleting: Outcome)
    requires i < |s.sessions| && s.sessions[i].phase.Live? && s.sessions[i].sub.Some?
    ensures IsRun(s, DisconnectRun(i, deleting)) && After(s, DisconnectRun(i, deleting)) == Disconnected(s, i, deleting)
  {
    var s1 := Apply(s, DeleteDevice(i, deleting));
    var s2 := Apply(s1, RemoveEntry(i));
    Prepend(s2, CountOut(i), []);
    Prepend(s1, RemoveEntry(i), [CountOut(i)]);
    Prepend(s, DeleteDevice(i, deleting), [RemoveEntry(i), CountOut(i)]);
  }

  // ----- the accounts -----

  predicate IsCounted(phase: Phase) {
    phase.Counted? || phase.Unacked? || phase.Live? || phase.Deleted? || phase.Removed?
  }

  predicate HasEntry(phase: Phase) {
    !phase.New? && !phase.Removed? && !phase.Gone?
  }

  function CountedOf(sessions: seq<Session>): set<nat> {
    set i: nat | i < |sessions| && IsCounted(sessions[i].phase)
  }

  function UnackedOf(sessions: seq<Session>): set<nat> {
    set i: nat | i < |sessions| && sessions[i].phase.Unacked?
  }

  /** The successful subscribe calls, or the unsubscribe calls, that have come to their end in a run. */
  function Calls(run: seq<Action>, subscribes: bool): nat {
    if run == [] then 0
    else (if (if subscribes then run[0].CountIn? else run[0].CountOut?) then 1 else 0) + Calls(run[1..], subscribes)
  }

  /** Session i has this entry. */
  predicate Owns(s: State, i: nat, sub: nat) {
    i < |s.sessions| && HasEntry(s.sessions[i].phase) && s.sessions[i].sub == Some(sub)
  }

  /** Sessions have ids of their own, and the table lists exactly those of the sessions with an entry. */
  ghost predicate TableIsExact(s: State) {
    && (forall i :: 0 <= i < |s.sessions| ==> (s.sessions[i].phase.New? <==> s.sessions[i].sub.None?))
    && (forall i :: 0 <= i < |s.sessions| && s.sessions[i].sub.Some? ==> s.sessions[i].sub.value < s.nextSub)
    && (forall i, j :: 0 <= i < j < |s.sessions| && s.sessions[i].sub.Some? ==> s.sessions[i].sub != s.sessions[j].sub)
    && (forall sub :: sub in s.table ==> exists i: nat :: Owns(s, i, sub))
    && (forall i: nat, sub :: Owns(s, i, sub) ==> sub in s.table)
  }

  lemma {:induction false} CountedAfter(sessions: seq<Session>, i: nat, x: Session)
    requires i < |sessions|
    ensures |CountedOf(sessions[i := x])| ==
            |CountedOf(sessions)| - (if IsCounted(sessions[i].phase) then 1 else 0) + (if IsCounted(x.phase) then 1 else 0)
  {
    var before := CountedOf(sessions);
    assert i in before <==> IsCounted(sessions[i].phase);
    assert CountedOf(sessions[i := x]) == before - {i} + (if IsCounted(x.phase) then {i} else {});
  }

  lemma {:induction false} StepBalances(s: State, a: Action)
    requires Enabled(s, a) && s.connections == |CountedOf(s.sessions)|
    ensures Apply(s, a).connections == |CountedOf(Apply(s, a).sessions)|
    ensures Apply(s, a).connections == s.connections + Calls([a], true) - Calls([a], false)
  {
    var after := Apply(s, a);
    assert [a][1..] == [];
    if a.Open? {
      assert CountedOf(after.sessions) == CountedOf(s.sessions);
    } else {
      CountedAfter(s.sessions, a.i, after.sessions[a.i]);
    }
  }

  lemma {:induction false} InsertKeepsTable(s: State, i: nat, ok: bool)
    requires Enabled(s, Insert(i, ok)) && TableIsExact(s)
    ensures TableIsExact(Apply(s, Insert(i, ok)))
  {
    var after := Apply(s, Insert(i, ok));
    assert Owns(after, i, s.nextSub);
    forall sub | sub in s.table
      ensures exists j: nat :: Owns(after, j, sub)
    {
      var j: nat :| Owns(s, j, sub);
      assert Owns(after, j, sub);
    }
    forall j: nat, sub | Owns(after, j, sub)
      ensures sub in after.table
    {
      if j != i {
        assert Owns(s, j, sub);
      }
    }
  }

  lemma {:induction false} StepKeepsTable(s: State, a: Action)
    requires Enabled(s, a) && TableIsExact(s)
    ensures TableIsExact(Apply(s, a))
  {
    var after := Apply(s, a);
    if a.Insert? {
      InsertKeepsTable(s, a.i, a.ok);
    } else {
      forall j: nat, sub
        ensures Owns(after, j, sub) <==> Owns(s, j, sub) && a != RemoveEntry(j)
      {
      }
      forall sub | sub in after.table
        ensures exists j: nat :: Owns(after, j, sub)
      {
        var j: nat :| Owns(s, j, sub);
        assert Owns(after, j, sub);
      }
    }
  }

  lemma {:induction false} RunBalances(s: State, run: seq<Action>)
    requires IsRun(s, run) && s.connections == |CountedOf(s.sessions)| && TableIsExact(s)
    ensures After(s, run).connections == |CountedOf(After(s, run).sessions)| && TableIsExact(After(s, run))
    ensures After(s, run).connections == s.connections + Calls(run, true) - Calls(run, false)
    decreases |run|
  {
    if run != [] {
      StepBalances(s, run[0]);
      StepKeepsTable(s, run[0]);
      RunBalances(Apply(s, run[0]), run[1..]);
      assert [run[0]][1..] == [];
    }
  }

  lemma {:induction false} Reachable(run: seq<Action>)
    requires IsRun(Initial(), run)
    ensures var s := After(Initial(), run);
            && s.connections == |CountedOf(s.sessions)| == Calls(run, true) - Calls(run, false)
            && TableIsExact(s)
  {
    assert CountedOf(Initial().sessions) == {};
    RunBalances(Initial(), run);
  }

  /** In every reachable state, with failures at every call, the connection count equals the successful
      subscribes less the unsubscribes, and the number of sessions counted in; it is at least one whenever a
      session is about to lower it. */
  lemma {:induction false} ConnectionsAreCounted(run: seq<Action>, i: nat)
    requires IsRun(Initial(), run)
    ensures var s := After(Initial(), run);
            && s.connections == Calls(run, true) - Calls(run, false) == |CountedOf(s.sessions)|
            && (Enabled(s, CountOut(i)) ==> s.connections >= 1)
  {
    Reachable(run);
    var s := After(Initial(), run);
    if Enabled(s, CountOut(i)) {
      assert i in CountedOf(s.sessions);
    }
  }

  ghost predicate AllEnded(s: State) {
    forall i :: 0 <= i < |s.sessions| ==>
      s.sessions[i].phase.Gone? || s.sessions[i].phase.Unacked? || s.sessions[i].phase.Refused?
  }

  /** A session without an ack, or refused by the broker, whose entry this is. */
  predicate LeftBehind(s: State, i: nat, sub: nat) {
    i < |s.sessions| && (s.sessions[i].phase.Unacked? || s.sessions[i].phase.Refused?) && s.sessions[i].sub == Some(sub)
  }

  /** What is still counted, and what still has an entry, belongs to such sessions. */
  ghost predicate NothingElseRemains(s: State) {
    && s.connections == |UnackedOf(s.sessions)|
    && (forall sub :: sub in s.table <==> exists i: nat :: LeftBehind(s, i, sub))
  }

  lemma {:induction false} EndedAccounts(s: State)
    requires s.connections == |CountedOf(s.sessions)| && TableIsExact(s) && AllEnded(s)
    ensures NothingElseRemains(s)
  {
    assert CountedOf(s.sessions) == UnackedOf(s.sessions);
    forall i: nat, sub
      ensures LeftBehind(s, i, sub) <==> Owns(s, i, sub)
    {
    }
    forall sub
      ensures sub in s.table <==> exists i: nat :: LeftBehind(s, i, sub)
    {
      if sub in s.table {
        var i: nat :| Owns(s, i, sub);
        assert LeftBehind(s, i, sub);
      }
      if i: nat :| LeftBehind(s, i, sub) {
        assert Owns(s, i, sub);
      }
    }
  }

  /** When every session has ended, those counted are exactly those whose connect ack could not be sent, and
      the table's entries are theirs and those of the sessions the broker refused. A session that got past
      its ack leaves nothing behind. */
  lemma {:induction false} EndedSessionsLeaveNothing(run: seq<Action>)
    requires IsRun(Initial(), run) && AllEnded(After(Initial(), run))
    ensures NothingElseRemains(After(Initial(), run))
  {
    Reachable(run);
    EndedAccounts(After(Initial(), run));
  }

  /** How often a session has been uncounted in a run. */
  function TimesOut(run: seq<Action>, i: nat): nat {
    if run == [] then 0 else (if run[0] == CountOut(i) then 1 else 0) + TimesOut(run[1..], i)
  }

  /** A session is uncounted exactly once if it is gone, and otherwise not at all: once gone it has no step
      left. */
  lemma {:induction false} UncountedOnce(s: State, run: seq<Action>, i: nat)
    requires IsRun(s, run)
    ensures |s.sessions| <= |After(s, run).sessions|
    ensures var before := i < |s.sessions| && PhaseOf(s, i).Gone?;
            var gone := i < |After(s, run).sessions| && PhaseOf(After(s, run), i).Gone?;
            && (before ==> gone)
            && TimesOut(run, i) == (if gone && !before then 1 else 0)
    decreases |run|
  {
    if run != [] {
      UncountedOnce(Apply(s, run[0]), run[1..], i);
    }
  }

  // ----- presence -----

  predicate SameDevice(a: Profile, b: Profile) {
    a.tenant == b.tenant && a.client == b.client && a.device.Some? && b.device.Some? && a.device.value.id == b.device.value.id
  }

  /** Its device has been stored and not yet deleted. */
  predicate Present(phase: Phase) {
    phase.Stored? || phase.Counted? || phase.Live? || phase.Unacked?
  }

  predicate Over(phase: Phase) {
    phase.Gone? || phase.Refused?
  }

  /** The device store works, every ack gets through, tenants are colon-free, and a session for a device
      opens only when earlier ones for it are over. */
  ghost predicate Proper(s: State, a: Action) {
    match a
    case Open(profile) =>
      && ColonFree(profile.tenant)
      && (forall j :: 0 <= j < |s.sessions| && SameDevice(s.sessions[j].profile, profile) ==> Over(s.sessions[j].phase))
    case StoreDevice(_, outcome) => outcome.Done?
    case DeleteDevice(_, outcome) => outcome.Done?
    case Ack(_, sent) => sent
    case _ => true
  }

  ghost predicate ProperRun(s: State, run: seq<Action>)
    requires IsRun(s, run)
    decreases |run|
  {
    run == [] || (Proper(s, run[0]) && ProperRun(Apply(s, run[0]), run[1..]))
  }

  /** A session for this device is between storing and deleting it, with these attributes. */
  ghost predicate Shown(s: State, tenant: string, client: string, id: string, attributes: Attributes) {
    exists i :: 0 <= i < |s.sessions| && Present(s.sessions[i].phase)
      && s.sessions[i].profile == Profile(tenant, client, Some(Device(id, attributes)))
  }

  /** What is listed for one device, with these attributes, is what is shown. */
  ghost predicate ExactAt(s: State, tenant: string, client: string, id: string, attributes: Attributes) {
    Shown(s, tenant, client, id, attributes) <==>
    Listed(s.devices, tenant, client, id) && s.devices[DeviceKey(tenant, client)][id] == attributes
  }

  ghost predicate StoreIsExact(s: State) {
    forall tenant, client, id, attributes :: ColonFree(tenant) ==> ExactAt(s, tenant, client, id, attributes)
  }

  ghost predicate OneEach(s: State) {
    && (forall i :: 0 <= i < |s.sessions| ==> ColonFree(s.sessions[i].profile.tenant))
    && (forall i, j :: 0 <= i < j < |s.sessions| && SameDevice(s.sessions[i].profile, s.sessions[j].profile) ==>
          Over(s.sessions[i].phase) || Over(s.sessions[j].phase))
  }

  lemma {:induction false} KeyIsInjective(t: string, c: string, t': string, c': string)
    requires ColonFree(t) && ColonFree(t') && DeviceKey(t, c) == DeviceKey(t', c')
    ensures t == t' && c == c'
  {
    SplitAtColon(t, c, t', c');
  }

  /** A tenant with a colon shares each of its keys with a colon-free one. */
  lemma {:induction false} KeyIsAmbiguous(t: string, c: string) returns (t': string, c': string)
    requires !ColonFree(t)
    ensures ColonFree(t') && DeviceKey(t', c') == DeviceKey(t, c)
  {
    var k := FirstColon(t);
    t', c' := t[..k], t[k + 1..] + ":" + c;
    assert t == t' + ":" + t[k + 1..];
  }

  /** Profiles stay, and what is over stays over. */
  lemma {:induction false} OverStays(s: State, a: Action, i: nat)
    requires Enabled(s, a) && i < |s.sessions|
    ensures i < |Apply(s, a).sessions| && Apply(s, a).sessions[i].profile == s.sessions[i].profile
    ensures Over(s.sessions[i].phase) ==> Over(Apply(s, a).sessions[i].phase)
  {
  }

  lemma {:induction false} StepKeepsOneEach(s: State, a: Action)
    requires Enabled(s, a) && Proper(s, a) && OneEach(s)
    ensures OneEach(Apply(s, a))
  {
    forall i: nat | i < |s.sessions| { OverStays(s, a, i); }
  }

  /** A session enters a phase in which its device is neither newly stored nor newly deleted. */
  lemma {:induction false} StepShowsTheSame(s: State, a: Action)
    requires Enabled(s, a) && Proper(s, a) && StoreIsExact(s)
    requires !a.StoreDevice? && !a.DeleteDevice?
    ensures StoreIsExact(Apply(s, a))
  {
    var after := Apply(s, a);
    assert after.devices == s.devices;
    forall tenant, client, id, attributes | ColonFree(tenant)
      ensures ExactAt(after, tenant, client, id, attributes)
    {
      assert ExactAt(s, tenant, client, id, attributes);
      if i :| 0 <= i < |s.sessions| && Present(s.sessions[i].phase)
              && s.sessions[i].profile == Profile(tenant, client, Some(Device(id, attributes))) {
        assert Present(after.sessions[i].phase) && after.sessions[i].profile == s.sessions[i].profile;
      }
      if i :| 0 <= i < |after.sessions| && Present(after.sessions[i].phase)
              && after.sessions[i].profile == Profile(tenant, client, Some(Device(id, attributes))) {
        assert Present(s.sessions[i].phase) && after.sessions[i].profile == s.sessions[i].profile;
      }
    }
  }

  /** For every other device a step of session i changes nothing. */
  lemma {:induction false} OthersShowTheSame(s: State, after: State, i: nat, tenant: string, client: string, id: string, attributes: Attributes)
    requires i < |s.sessions| && |after.sessions| == |s.sessions|
    requires forall k :: 0 <= k < |s.sessions| && k != i ==> after.sessions[k] == s.sessions[k]
    requires after.sessions[i].profile == s.sessions[i].profile
    requires !IsFor(s.sessions[i].profile, tenant, client, id)
    ensures Shown(after, tenant, client, id, attributes) <==> Shown(s, tenant, client, id, attributes)
  {
    if k :| 0 <= k < |s.sessions| && Present(s.sessions[k].phase)
            && s.sessions[k].profile == Profile(tenant, client, Some(Device(id, attributes))) {
      assert k != i && after.sessions[k] == s.sessions[k];
    }
    if k :| 0 <= k < |after.sessions| && Present(after.sessions[k].phase)
            && after.sessions[k].profile == Profile(tenant, client, Some(Device(id, attributes))) {
      assert k != i && after.sessions[k] == s.sessions[k];
    }
  }

  predicate IsFor(p: Profile, tenant: string, client: string, id: string) {
    p.tenant == tenant && p.client == client && p.device.Some? && p.device.value.id == id
  }

  /** Another session that shows the same device. */
  predicate Rival(s: State, i: nat, j: nat) {
    i < |s.sessions| && j < |s.sessions| && j != i && Present(s.sessions[j].phase) && SameDevice(s.sessions[j].profile, s.sessions[i].profile)
  }

  lemma {:induction false} UntouchedStaysExact(s: State, a: Action, tenant: string, client: string, id: string, attributes: Attributes)
    requires a.StoreDevice? || a.DeleteDevice?
    requires Enabled(s, a) && StoreIsExact(s) && ColonFree(s.sessions[a.i].profile.tenant) && ColonFree(tenant)
    requires !IsFor(s.sessions[a.i].profile, tenant, client, id)
    ensures ExactAt(Apply(s, a), tenant, client, id, attributes)
  {
    var p, after := s.sessions[a.i].profile, Apply(s, a);
    if p.device.Some? && DeviceKey(p.tenant, p.client) == DeviceKey(tenant, client) {
      KeyIsInjective(p.tenant, p.client, tenant, client);
    }
    OthersShowTheSame(s, after, a.i, tenant, client, id, attributes);
    assert ExactAt(s, tenant, client, id, attributes);
  }

  /** After its device has been stored, it is shown by session i, and by rivals with their attributes. */
  lemma {:induction false} StoredIsShown(s: State, i: nat, attributes: Attributes)
    requires Enabled(s, StoreDevice(i, Done)) && s.sessions[i].profile.device.Some?
    ensures var p := s.sessions[i].profile;
            Shown(Apply(s, StoreDevice(i, Done)), p.tenant, p.client, p.device.value.id, attributes) <==>
            || attributes == p.device.value.attributes
            || exists j: nat :: Rival(s, i, j) && s.sessions[j].profile.device.value.attributes == attributes
  {
    var p, after := s.sessions[i].profile, Apply(s, StoreDevice(i, Done));
    assert after.sessions[i].profile == p && Present(after.sessions[i].phase);
    if k :| 0 <= k < |after.sessions| && Present(after.sessions[k].phase)
            && after.sessions[k].profile == Profile(p.tenant, p.client, Some(Device(p.device.value.id, attributes))) {
      assert k == i || Rival(s, i, k);
    }
    if j: nat :| Rival(s, i, j) && s.sessions[j].profile.device.value.attributes == attributes {
      assert after.sessions[j] == s.sessions[j];
    }
  }

  /** Storing a device keeps the list exact if and only if every other session that shows the device has the
      same attributes for it. */
  lemma {:induction false} StoringKeepsExactWhen(s: State, i: nat)
    requires Enabled(s, StoreDevice(i, Done)) && StoreIsExact(s) && ColonFree(s.sessions[i].profile.tenant)
    ensures StoreIsExact(Apply(s, StoreDevice(i, Done))) <==>
            forall j: nat :: Rival(s, i, j) ==> s.sessions[j].profile.device.value.attributes == s.sessions[i].profile.device.value.attributes
  {
    var p, after := s.sessions[i].profile, Apply(s, StoreDevice(i, Done));
    if StoreIsExact(after) {
      forall j: nat | Rival(s, i, j)
        ensures s.sessions[j].profile.device.value.attributes == p.device.value.attributes
      {
        StoredIsShown(s, i, s.sessions[j].profile.device.value.attributes);
        assert ExactAt(after, p.tenant, p.client, p.device.value.id, s.sessions[j].profile.device.value.attributes);
      }
    }
    if forall j: nat :: Rival(s, i, j) ==> s.sessions[j].profile.device.value.attributes == p.device.value.attributes {
      forall tenant, client, id, attributes | ColonFree(tenant)
        ensures ExactAt(after, tenant, client, id, attributes)
      {
        if IsFor(p, tenant, client, id) {
          StoredIsShown(s, i, attributes);
        } else {
          UntouchedStaysExact(s, StoreDevice(i, Done), tenant, client, id, attributes);
        }
      }
    }
  }

  /** After its device has been deleted, it is shown by rivals only. */
  lemma {:induction false} DeletedIsShown(s: State, i: nat, attributes: Attributes)
    requires Enabled(s, DeleteDevice(i, Done)) && s.sessions[i].profile.device.Some?
    ensures var p := s.sessions[i].profile;
            && (Shown(Apply(s, DeleteDevice(i, Done)), p.tenant, p.client, p.device.value.id, attributes) <==>
                exists j: nat :: Rival(s, i, j) && s.sessions[j].profile.device.value.attributes == attributes)
            && !Listed(Apply(s, DeleteDevice(i, Done)).devices, p.tenant, p.client, p.device.value.id)
  {
    var p, after := s.sessions[i].profile, Apply(s, DeleteDevice(i, Done));
    if k :| 0 <= k < |after.sessions| && Present(after.sessions[k].phase)
            && after.sessions[k].profile == Profile(p.tenant, p.client, Some(Device(p.device.value.id, attributes))) {
      assert Rival(s, i, k);
    }
    if j: nat :| Rival(s, i, j) && s.sessions[j].profile.device.value.attributes == attributes {
      assert after.sessions[j] == s.sessions[j];
    }
  }

  /** Deleting a device keeps the list exact if and only if no other session shows the device. */
  lemma {:induction false} DeletingKeepsExactWhen(s: State, i: nat)
    requires Enabled(s, DeleteDevice(i, Done)) && StoreIsExact(s) && ColonFree(s.sessions[i].profile.tenant)
    ensures StoreIsExact(Apply(s, DeleteDevice(i, Done))) <==> forall j: nat :: !Rival(s, i, j)
  {
    var p, after := s.sessions[i].profile, Apply(s, DeleteDevice(i, Done));
    if j: nat :| Rival(s, i, j) {
      DeletedIsShown(s, i, s.sessions[j].profile.device.value.attributes);
      assert !ExactAt(after, p.tenant, p.client, p.device.value.id, s.sessions[j].profile.device.value.attributes);
    }
    if forall j: nat :: !Rival(s, i, j) {
      forall tenant, client, id, attributes | ColonFree(tenant)
        ensures ExactAt(after, tenant, client, id, attributes)
      {
        if IsFor(p, tenant, client, id) {
          DeletedIsShown(s, i, attributes);
        } else {
          UntouchedStaysExact(s, DeleteDevice(i, Done), tenant, client, id, attributes);
        }
      }
    }
  }

  lemma {:induction false} ProperHasNoRival(s: State, i: nat, j: nat)
    requires OneEach(s) && i < |s.sessions| && !Over(s.sessions[i].phase)
    ensures !Rival(s, i, j)
  {
    if Rival(s, i, j) {
      assert SameDevice(s.sessions[i].profile, s.sessions[j].profile);
    }
  }

  lemma {:induction false} StepKeepsStore(s: State, a: Action)
    requires Enabled(s, a) && Proper(s, a) && StoreIsExact(s) && OneEach(s)
    ensures StoreIsExact(Apply(s, a))
  {
    if a.StoreDevice? {
      forall j: nat { ProperHasNoRival(s, a.i, j); }
      StoringKeepsExactWhen(s, a.i);
    } else if a.DeleteDevice? {
      forall j: nat { ProperHasNoRival(s, a.i, j); }
      DeletingKeepsExactWhen(s, a.i);
    } else {
      StepShowsTheSame(s, a);
    }
  }

  lemma {:induction false} RunKeepsStore(s: State, run: seq<Action>)
    requires IsRun(s, run) && ProperRun(s, run) && StoreIsExact(s) && OneEach(s)
    ensures StoreIsExact(After(s, run)) && OneEach(After(s, run))
    decreases |run|
  {
    if run != [] {
      StepKeepsStore(s, run[0]);
      StepKeepsOneEach(s, run[0]);
      RunKeepsStore(Apply(s, run[0]), run[1..]);
    }
  }

  lemma {:induction false} InitialIsExact()
    ensures StoreIsExact(Initial()) && OneEach(Initial())
  {
    forall tenant, client, id, attributes
      ensures ExactAt(Initial(), tenant, client, id, attributes)
    {
    }
  }

  /** A session with its entry in the broker's table is between storing and deleting this device. */
  ghost predicate Online(s: State, tenant: string, client: string, d: Device) {
    exists i :: 0 <= i < |s.sessions| && Present(s.sessions[i].phase) && s.sessions[i].sub.Some? && s.sessions[i].sub.value in s.table
      && s.sessions[i].profile == Profile(tenant, client, Some(d))
  }

  lemma {:induction false} ShownIsOnline(s: State, tenant: string, client: string, d: Device)
    requires TableIsExact(s)
    ensures Shown(s, tenant, client, d.id, d.attributes) <==> Online(s, tenant, client, d)
  {
    if i :| 0 <= i < |s.sessions| && Present(s.sessions[i].phase)
            && s.sessions[i].profile == Profile(tenant, client, Some(Device(d.id, d.attributes))) {
      assert Owns(s, i, s.sessions[i].sub.value);
    }
  }

  /** Presence: in every reachable state the devices listed for a client, with their attributes, are exactly
      those of its sessions that have stored and not yet deleted them, and each such session has its entry in
      the broker's table. */
  lemma {:induction false} PresenceIsExact(run: seq<Action>, tenant: string, client: string, d: Device)
    requires IsRun(Initial(), run) && ProperRun(Initial(), run) && ColonFree(tenant)
    ensures var s := After(Initial(), run);
            Online(s, tenant, client, d) <==>
            Listed(s.devices, tenant, client, d.id) && s.devices[DeviceKey(tenant, client)][d.id] == d.attributes
  {
    InitialIsExact();
    RunKeepsStore(Initial(), run);
    Reachable(run);
    var s := After(Initial(), run);
    ShownIsOnline(s, tenant, client, d);
    assert ExactAt(s, tenant, client, d.id, d.attributes);
  }
}

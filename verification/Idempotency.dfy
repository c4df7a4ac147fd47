/** The idempotency gate: a key set only when absent, then given a time to live in a second call.
    Times are in milliseconds. */
module Idempotency {
  import opened Common
  import opened Faults
  import opened Text

  const TTL_SECONDS: nat := 3600

  const TTL: nat := TTL_SECONDS * 1000

  datatype Expiry = Never | At(time: nat)

  type Keys = map<string, Expiry>

  function IdempotencyKey(gateway: string, eventId: string): string {
    "idemp:webhook:" + gateway + ":" + eventId
  }

  predicate Live(keys: Keys, key: string, now: nat) {
    key in keys && (keys[key].Never? || now < keys[key].time)
  }

  /** SETNX: a live key is left alone, any other key is set without expiry. */
  function SetIfAbsent(keys: Keys, key: string, now: nat): Keys {
    if Live(keys, key, now) then keys else keys[key := Never]
  }

  /** EXPIRE: has an effect on a live key only. */
  function SetExpiry(keys: Keys, key: string, ttlSeconds: nat, now: nat): Keys {
    if Live(keys, key, now) then keys[key := At(now + ttlSeconds * 1000)] else keys
  }

  /** For colon-free gateway names, equal keys mean the same gateway and the same event id. */
  lemma KeyIsInjective(g: string, e: string, g': string, e': string)
    requires ColonFree(g) && ColonFree(g')
    requires IdempotencyKey(g, e) == IdempotencyKey(g', e')
    ensures g == g' && e == e'
  {
    assert IdempotencyKey(g, e) == "idemp:webhook:" + (g + ":" + e);
    assert IdempotencyKey(g', e') == "idemp:webhook:" + (g' + ":" + e');
    DropPrefix("idemp:webhook:", g + ":" + e, g' + ":" + e');
    SplitAtColon(g, e, g', e');
  }

  /** A gateway name that contains a colon shares each of its keys with a colon-free one. */
  lemma KeyIsAmbiguous(g: string, e: string) returns (g': string, e': string)
    requires !ColonFree(g)
    ensures ColonFree(g') && IdempotencyKey(g', e') == IdempotencyKey(g, e)
  {
    var k := FirstColon(g);
    g', e' := g[..k], g[k + 1..] + ":" + e;
    assert g == g' + ":" + g[k + 1..];
    assert IdempotencyKey(g', e') == IdempotencyKey(g, e);
  }

  /** The state after mark_if_absent and what it returns: an error on either call is passed on. */
  function MarkIfAbsent(keys: Keys, key: string, ttlSeconds: nat, now: nat, setting: Outcome, expiring: Outcome)
    : (Keys, Result<bool, ()>)
  {
    if setting.Lost? then (keys, Err(()))
    else
      var wasSet := !Live(keys, key, now);
      var afterSet := SetIfAbsent(keys, key, now);
      if setting.Unacknowledged? then (afterSet, Err(()))
      else if !wasSet then (afterSet, Ok(false))
      else if expiring.Lost? then (afterSet, Err(()))
      else
        (SetExpiry(afterSet, key, ttlSeconds, now), if expiring.Unacknowledged? then Err(()) else Ok(true))
  }

  class IdempotencyStore {
    var keys: Keys

    constructor ()
      ensures keys == map[]
    {
      keys := map[];
    }

    method SetNx(key: string, now: nat) returns (wasSet: bool)
      modifies this
      ensures keys == SetIfAbsent(old(keys), key, now)
      ensures wasSet <==> !Live(old(keys), key, now)
    {
      wasSet := !Live(keys, key, now);
      if wasSet {
        keys := keys[key := Never];
      }
    }

    method Expire(key: string, ttlSeconds: nat, now: nat)
      modifies this
      ensures keys == SetExpiry(old(keys), key, ttlSeconds, now)
    {
      if Live(keys, key, now) {
        keys := keys[key := At(now + ttlSeconds * 1000)];
      }
    }

    /** The two calls happen one after the other; the outcome of each is the environment's. */
    method MarkIfAbsentCall(key: string, ttlSeconds: nat, now: nat, setting: Outcome, expiring: Outcome)
      returns (r: Result<bool, ()>)
      modifies this
      ensures (keys, r) == MarkIfAbsent(old(keys), key, ttlSeconds, now, setting, expiring)
      ensures var free := !(key in old(keys) && (old(keys)[key].Never? || now < old(keys)[key].time));
              && (r == Ok(true) <==> free && setting.Done? && expiring.Done?)
              && (r == Ok(false) <==> !free && setting.Done?)
              && keys == (if !free || setting.Lost? then old(keys)
                          else if setting.Unacknowledged? || expiring.Lost? then old(keys)[key := Never]
                          else old(keys)[key := At(now + ttlSeconds * 1000)])
    {
      if setting.Lost? {
        return Err(());
      }
      var wasSet := SetNx(key, now);
      if setting.Unacknowledged? {
        return Err(());
      }
      if wasSet {
        if expiring.Lost? {
          return Err(());
        }
        Expire(key, ttlSeconds, now);
        if expiring.Unacknowledged? {
          return Err(());
        }
      }
      return Ok(wasSet);
    }
  }
}

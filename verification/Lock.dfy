/** The Redis lease of internal/lock/lock.go, shared by any number of replicas.

    Times are milliseconds on the Redis clock.  Every command runs atomically in Redis; its reply
    may be lost, in which case the replica goes on as after an error. */
module Lock {
  import opened Options

  type Token = string

  /** The value and the expiry of the lock's key. */
  datatype Entry = Entry(token: Token, expiresAt: int)

  /** An expired key is as good as absent. */
  function Visible(k: Option<Entry>, now: int): Option<Entry>
  {
    if k.Some? && now < k.value.expiresAt then k else None
  }

  // ---- The three commands: key before -> key after, reply ----

  function SetIfAbsent(k: Option<Entry>, token: Token, now: int, ttl: nat): (Option<Entry>, bool)
  {
    if Visible(k, now).None? then (Some(Entry(token, now + ttl)), true) else (k, false)
  }

  /** `Renew` hands the lease in microseconds to PEXPIRE, which reads milliseconds. */
  const MICROS_PER_MILLI: nat := 1000

  function ExtendIfOwner(k: Option<Entry>, token: Token, now: int, ttl: nat): (Option<Entry>, bool)
  {
    if Visible(k, now).Some? && k.value.token == token
    then (Some(Entry(token, now + ttl * MICROS_PER_MILLI)), true) else (k, false)
  }

  function DeleteIfOwner(k: Option<Entry>, token: Token, now: int): Option<Entry>
  {
    if Visible(k, now).Some? && k.value.token == token then None else k
  }

  // ---- Replicas ----

  /** A replica is inside between a successful TryAcquire and its Release; `lease` is the expiry
      its last successful command gave it. */
  datatype Replica = Outside | Inside(lease: int)

  datatype State = State(ttl: nat, key: Option<Entry>, now: int, replicas: map<Token, Replica>)

  datatype Event =
    | Passes(span: nat)
    | TryAcquire(r: Token, executed: bool, replied: bool)
    | Renew(r: Token, executed: bool, replied: bool)
    | Release(r: Token, executed: bool)

  predicate Enabled(s: State, e: Event)
  {
    match e
    case Passes(_) => true
    case TryAcquire(r, executed, replied) => r in s.replicas && s.replicas[r].Outside? && (replied ==> executed)
    case Renew(r, executed, replied) => r in s.replicas && s.replicas[r].Inside? && (replied ==> executed)
    case Release(r, _) => r in s.replicas
  }

  function Apply(s: State, e: Event): State
    requires Enabled(s, e)
  {
    match e
    case Passes(span) => s.(now := s.now + span)
    case TryAcquire(r, executed, replied) =>
      if !executed then s
      else
        var (key, ok) := SetIfAbsent(s.key, r, s.now, s.ttl);
        s.(key := key,
           replicas := if ok && replied then s.replicas[r := Inside(s.now + s.ttl)] else s.replicas)
    case Renew(r, executed, replied) =>
      if !executed then s
      else
        var (key, ok) := ExtendIfOwner(s.key, r, s.now, s.ttl);
        s.(key := key,
           replicas := if ok && replied then s.replicas[r := Inside(key.value.expiresAt)] else s.replicas)
    case Release(r, executed) =>
      s.(key := if executed then DeleteIfOwner(s.key, r, s.now) else s.key, replicas := s.replicas[r := Outside])
  }

  predicate Possible(s: State, es: seq<Event>)
    decreases |es|
  {
    es != [] ==> Enabled(s, es[0]) && Possible(Apply(s, es[0]), es[1..])
  }

  function After(s: State, es: seq<Event>): State
    requires Possible(s, es)
    decreases |es|
  {
    if es == [] then s else After(Apply(s, es[0]), es[1..])
  }

  function Init(ttl: nat, now: int, tokens: set<Token>): State
  {
    State(ttl, None, now, map r | r in tokens :: Outside)
  }

  /** Inside, and the lease has not run out. */
  predicate Leads(s: State, r: Token)
  {
    r in s.replicas && s.replicas[r].Inside? && s.now < s.replicas[r].lease
  }

  /** Whoever leads owns the key at least as long as its lease; no expiry lies further away than
      one renewal. */
  ghost predicate LeaseHeld(s: State)
  {
    && (forall r :: Leads(s, r) ==>
         s.key.Some? && s.key.value.token == r && s.replicas[r].lease <= s.key.value.expiresAt)
    && (s.key.Some? ==> s.key.value.expiresAt <= s.now + s.ttl * MICROS_PER_MILLI)
  }

  lemma LeaseHeldKept(s: State, e: Event)
    requires LeaseHeld(s) && Enabled(s, e)
    ensures LeaseHeld(Apply(s, e))
  {
    assert forall r :: Leads(Apply(s, e), r) ==> Leads(s, r) || (!e.Passes? && e.r == r);
  }

  lemma {:induction false} LeaseHeldAlways(s: State, es: seq<Event>)
    requires LeaseHeld(s) && Possible(s, es)
    ensures LeaseHeld(After(s, es))
    decreases |es|
  {
    if es != [] {
      LeaseHeldKept(s, es[0]);
      LeaseHeldAlways(Apply(s, es[0]), es[1..]);
    }
  }

  /** Mutual exclusion: if two replicas are ever inside at the same time, one of them has
      outlived its lease. */
  lemma MutualExclusion(ttl: nat, start: int, tokens: set<Token>, es: seq<Event>, q: Token, r: Token)
    requires Possible(Init(ttl, start, tokens), es) && q != r
    requires var s := After(Init(ttl, start, tokens), es);
             q in s.replicas && s.replicas[q].Inside? && r in s.replicas && s.replicas[r].Inside?
    ensures var s := After(Init(ttl, start, tokens), es);
            s.now >= s.replicas[q].lease || s.now >= s.replicas[r].lease
  {
    LeaseHeldAlways(Init(ttl, start, tokens), es);
    var s := After(Init(ttl, start, tokens), es);
    assert !(Leads(s, q) && Leads(s, r));
  }

  /** While a replica leads, no call of another one - acquire, stale renew or stale release, its
      reply lost or not - changes the key or ends the lead. */
  lemma OthersCannotDisturb(ttl: nat, start: int, tokens: set<Token>, es: seq<Event>, q: Token, e: Event)
    requires Possible(Init(ttl, start, tokens), es)
    requires var s := After(Init(ttl, start, tokens), es);
             Leads(s, q) && Enabled(s, e) && !e.Passes? && e.r != q
    ensures var s := After(Init(ttl, start, tokens), es);
            Apply(s, e).key == s.key && Leads(Apply(s, e), q) && (e.r in s.replicas && !Leads(Apply(s, e), e.r))
  {
    LeaseHeldAlways(Init(ttl, start, tokens), es);
  }

  /** Renewing never shortens the lease. */
  lemma RenewNeverShortens(ttl: nat, start: int, tokens: set<Token>, es: seq<Event>, e: Event)
    requires Possible(Init(ttl, start, tokens), es) && e.Renew?
    requires Enabled(After(Init(ttl, start, tokens), es), e)
    ensures var s := After(Init(ttl, start, tokens), es);
            var t := Apply(s, e);
            && (Visible(s.key, s.now).Some? ==>
                 t.key.Some? && t.key.value.token == s.key.value.token && s.key.value.expiresAt <= t.key.value.expiresAt)
            && (Leads(s, e.r) ==> t.replicas[e.r].lease >= s.replicas[e.r].lease)
  {
    LeaseHeldAlways(Init(ttl, start, tokens), es);
  }

  predicate Untouched(es: seq<Event>, r: Token)
  {
    forall i :: 0 <= i < |es| && !es[i].Passes? ==> es[i].r != r
  }

  /** A replica that stops answering keeps everybody else out until the expiry of its key. */
  lemma {:induction false} SilentHolderBlocks(s: State, es: seq<Event>, r: Token)
    requires Possible(s, es) && Untouched(es, r)
    requires s.key.Some? && s.key.value.token == r
    requires After(s, es).now < s.key.value.expiresAt
    ensures After(s, es).key == s.key && s.now <= After(s, es).now
    decreases |es|
  {
    if es != [] {
      ClockNeverGoesBack(Apply(s, es[0]), es[1..]);
      assert forall i :: 0 <= i < |es[1..]| ==> es[1..][i] == es[i + 1];
      SilentHolderBlocks(Apply(s, es[0]), es[1..], r);
    }
  }

  lemma {:induction false} ClockNeverGoesBack(s: State, es: seq<Event>)
    requires Possible(s, es)
    ensures s.now <= After(s, es).now && After(s, es).ttl == s.ttl
    decreases |es|
  {
    if es != [] { ClockNeverGoesBack(Apply(s, es[0]), es[1..]); }
  }

  /** The unit slip: a holder that renewed once and then fell silent blocks every other replica
      for a thousand leases, where one that never renewed blocks them for one.  In both cases the
      next attempt succeeds exactly when that time is over. */
  lemma LockoutLength(s: State, first: Event, es: seq<Event>, q: Token)
    requires Enabled(s, first) && Possible(Apply(s, first), es)
    requires (first.TryAcquire? || first.Renew?) && first.replied && Untouched(es, first.r)
    requires Leads(Apply(s, first), first.r)
    requires first.TryAcquire? || (Visible(s.key, s.now).Some? && s.key.value.token == first.r)
    ensures var span := if first.Renew? then 1000 * s.ttl else s.ttl;
            var t := After(Apply(s, first), es);
            t.now < s.now + span ==> !SetIfAbsent(t.key, q, t.now, t.ttl).1
    ensures var span := if first.Renew? then 1000 * s.ttl else s.ttl;
            var k := Apply(s, first).key;
            forall now :: now >= s.now + span ==> SetIfAbsent(k, q, now, s.ttl).1
  {
    var t := Apply(s, first);
    var span := if first.Renew? then s.ttl * MICROS_PER_MILLI else s.ttl;
    assert t.key == Some(Entry(first.r, s.now + span));
    if After(t, es).now < s.now + span { SilentHolderBlocks(t, es, first.r); }
  }

  /** A lost reply: an acquisition that was executed but not answered leaves its caller outside, with
      the key set under its token.  For the whole time-to-live everybody is refused, the caller
      itself included, and nobody is inside on account of it.  A lost renewal lengthens the key, but
      not what its holder knows of it. */
  lemma LostReplyLocksOut(s: State, e: Event, span: nat, q: Token)
    requires Enabled(s, e) && (e.TryAcquire? || e.Renew?) && e.executed && !e.replied
    ensures Apply(s, e).replicas == s.replicas && Apply(s, e).key == Apply(s, e.(replied := true)).key
    ensures e.TryAcquire? && (s.key.None? || s.key.value.expiresAt <= s.now) && span < s.ttl ==>
              var t := Apply(Apply(s, e), Passes(span));
              && t.key == Some(Entry(e.r, s.now + s.ttl))
              && (Enabled(t, TryAcquire(q, true, true)) ==> Apply(t, TryAcquire(q, true, true)) == t)
  {}

  /** The hand-over: in every reachable state, once a holder's release has been executed, the key is
      gone although the lease would have run on, and any other replica outside acquires it at that
      very instant, for a whole lease.  A release whose command is lost leaves the key, and one by
      anybody else changes nothing of a running lease. */
  lemma ReleaseHandsOver(ttl: nat, start: int, tokens: set<Token>, es: seq<Event>, r: Token, q: Token)
    requires Possible(Init(ttl, start, tokens), es)
    requires var s := After(Init(ttl, start, tokens), es);
             && r in s.replicas && q in s.replicas && q != r && s.replicas[q].Outside?
             && s.key.Some? && s.now < s.key.value.expiresAt
    ensures var s := After(Init(ttl, start, tokens), es);
            var t := Apply(s, Release(r, true));
            && t.replicas[r].Outside? && t.now == s.now
            && Apply(s, Release(r, false)) == s.(replicas := s.replicas[r := Outside])
            && (s.key.value.token != r ==> t.key == s.key)
            && (s.key.value.token == r ==>
                 && t.key.None?
                 && Enabled(t, TryAcquire(q, true, true))
                 && Apply(t, TryAcquire(q, true, true)).replicas[q] == Inside(s.now + ttl)
                 && Apply(t, TryAcquire(q, true, true)).key == Some(Entry(q, s.now + ttl)))
  {
    ClockNeverGoesBack(Init(ttl, start, tokens), es);
  }

  // ---- The lock object ----

  /** The shared key. */
  class RedisKey {
    var entry: Option<Entry>
    constructor ()
      ensures entry.None?
    { entry := None; }
  }

  class DistributedLock {
    const key: RedisKey
    const token: Token
    const ttl: nat

    constructor (key: RedisKey, token: Token, ttl: nat)
      ensures this.key == key && this.token == token && this.ttl == ttl
    {
      this.key, this.token, this.ttl := key, token, ttl;
    }

    /** Succeeds exactly when nobody's lease is running. */
    method TryAcquire(now: int) returns (ok: bool)
      modifies key
      ensures (key.entry, ok) == SetIfAbsent(old(key.entry), token, now, ttl)
      ensures ok <==> old(key.entry).None? || old(key.entry).value.expiresAt <= now
      ensures key.entry == if ok then Some(Entry(token, now + ttl)) else old(key.entry)
    {
      if key.entry.Some? && now < key.entry.value.expiresAt { return false; }
      key.entry := Some(Entry(token, now + ttl));
      ok := true;
    }

    method Renew(now: int) returns (ok: bool)
      modifies key
      ensures (key.entry, ok) == ExtendIfOwner(old(key.entry), token, now, ttl)
      ensures ok <==> old(key.entry).Some? && now < old(key.entry).value.expiresAt && old(key.entry).value.token == token
      ensures key.entry == if ok then Some(Entry(token, now + 1000 * ttl)) else old(key.entry)
    {
      if key.entry.Some? && now < key.entry.value.expiresAt && key.entry.value.token == token {
        key.entry := Some(Entry(token, now + ttl * MICROS_PER_MILLI));
        return true;
      }
      ok := false;
    }

    method Release(now: int)
      modifies key
      ensures key.entry == DeleteIfOwner(old(key.entry), token, now)
      ensures key.entry == if old(key.entry).Some? && now < old(key.entry).value.expiresAt && old(key.entry).value.token == token
                           then None else old(key.entry)
    {
      if key.entry.Some? && now < key.entry.value.expiresAt && key.entry.value.token == token {
        key.entry := None;
      }
    }
  }
}

/** The API-key check behind a cache: validateWithCache (internal/api/middleware.go) over the cache
    and the api_keys table, for any number of lookups under way at once.

    A step is one call to the cache or to the database.  Every such call may fail. */
module AuthCache {
  import opened Options

  /** A key hash. */
  type Key = string

  /** apiKeyCacheTTL, in seconds. */
  const TTL := 300.0

  /** A cached result; `readAt` is when the database was asked for it. */
  datatype Entry = Entry(valid: bool, readAt: real, writtenAt: real)
  {
    predicate Fresh(now: real) { now < writtenAt + TTL }

    /** How long the lookup that wrote the entry took from its query to its write. */
    function Delay(): real { writtenAt - readAt }
  }

  datatype Lookup =
    | Missed(key: Key)
    | Queried(key: Key, valid: bool, readAt: real)

  /** `keys` holds the hashes with a row that is not revoked. */
  datatype State = State(now: real, keys: set<Key>, cache: map<Key, Entry>, lookups: map<nat, Lookup>)

  datatype Event =
    | Wait(time: real)
    | CreateKey(key: Key)
    | RevokeKey(key: Key)
    | Evict(key: Key)
    | Hit(key: Key)
    | Miss(o: nat, key: Key)  // nothing cached, or the cache did not answer
    | Query(o: nat)
    | QueryFails(o: nat)
    | Write(o: nat)
    | WriteFails(o: nat)

  predicate Cached(s: State, key: Key)
  {
    key in s.cache && s.cache[key].Fresh(s.now)
  }

  predicate Enabled(s: State, e: Event)
  {
    match e
    case Wait(time) => time >= 0.0
    case Hit(key) => Cached(s, key)
    case Miss(o, _) => o !in s.lookups
    case Query(o) => o in s.lookups && s.lookups[o].Missed?
    case QueryFails(o) => o in s.lookups && s.lookups[o].Missed?
    case Write(o) => o in s.lookups && s.lookups[o].Queried?
    case WriteFails(o) => o in s.lookups && s.lookups[o].Queried?
    case _ => true
  }

  function Apply(s: State, e: Event): State
    requires Enabled(s, e)
  {
    match e
    case Wait(time) => s.(now := s.now + time)
    case CreateKey(key) => s.(keys := s.keys + {key})
    case RevokeKey(key) => s.(keys := s.keys - {key})
    case Evict(key) => s.(cache := s.cache - {key})
    case Hit(_) => s
    case Miss(o, key) => s.(lookups := s.lookups[o := Missed(key)])
    case Query(o) =>
      var key := s.lookups[o].key;
      s.(lookups := s.lookups[o := Queried(key, key in s.keys, s.now)])
    case QueryFails(o) => s.(lookups := s.lookups - {o})
    case Write(o) =>
      var l := s.lookups[o];
      s.(cache := s.cache[l.key := Entry(l.valid, l.readAt, s.now)], lookups := s.lookups - {o})
    case WriteFails(o) => s.(lookups := s.lookups - {o})
  }

  /** An answer to a caller: `delay` is the read-to-write delay of the lookup it comes from. */
  datatype Answer = Answer(key: Key, valid: bool, delay: real)

  function Answered(s: State, e: Event): Option<Answer>
    requires Enabled(s, e)
  {
    match e
    case Hit(key) => Some(Answer(key, s.cache[key].valid, s.cache[key].Delay()))
    case Write(o) => Some(Answer(s.lookups[o].key, s.lookups[o].valid, s.now - s.lookups[o].readAt))
    case WriteFails(o) => Some(Answer(s.lookups[o].key, s.lookups[o].valid, s.now - s.lookups[o].readAt))
    case _ => None
  }

  function Init(now: real, keys: set<Key>): State
  {
    State(now, keys, map[], map[])
  }

  /** A run: the states before, between and after the events. */
  ghost predicate IsRun(ss: seq<State>, es: seq<Event>)
  {
    && |ss| == |es| + 1
    && ss[0] == Init(ss[0].now, ss[0].keys)
    && forall k :: 0 <= k < |es| ==> Enabled(ss[k], es[k]) && ss[k + 1] == Apply(ss[k], es[k])
  }

  // ---- Every answer was true ----

  /** The database's answer for `key` was `valid` at time `at`, at or before instant `k`. */
  ghost predicate WasTrue(ss: seq<State>, k: nat, key: Key, valid: bool, at: real)
    requires k < |ss|
  {
    exists i :: 0 <= i <= k && ss[i].now == at && (key in ss[i].keys) == valid
  }

  ghost predicate Truthful(ss: seq<State>, k: nat)
    requires k < |ss|
  {
    && (forall key :: key in ss[k].cache ==>
         var e := ss[k].cache[key];
         WasTrue(ss, k, key, e.valid, e.readAt) && e.readAt <= e.writtenAt <= ss[k].now)
    && (forall o :: o in ss[k].lookups && ss[k].lookups[o].Queried? ==>
         var l := ss[k].lookups[o];
         WasTrue(ss, k, l.key, l.valid, l.readAt) && l.readAt <= ss[k].now)
  }

  lemma StillTrue(ss: seq<State>, k: nat, key: Key, valid: bool, at: real)
    requires k + 1 < |ss| && WasTrue(ss, k, key, valid, at)
    ensures WasTrue(ss, k + 1, key, valid, at)
  {}

  lemma CacheStaysTruthful(ss: seq<State>, es: seq<Event>, k: nat, key: Key)
    requires IsRun(ss, es) && k < |es| && Truthful(ss, k) && key in ss[k + 1].cache
    ensures var e := ss[k + 1].cache[key];
            WasTrue(ss, k + 1, key, e.valid, e.readAt) && e.readAt <= e.writtenAt <= ss[k + 1].now
  {
    var e := ss[k + 1].cache[key];
    hide WasTrue;
    if es[k].Write? { assert ss[k].lookups[es[k].o].Queried?; }
    StillTrue(ss, k, key, e.valid, e.readAt);
  }

  lemma LookupsStayTruthful(ss: seq<State>, es: seq<Event>, k: nat, o: nat)
    requires IsRun(ss, es) && k < |es| && Truthful(ss, k)
    requires o in ss[k + 1].lookups && ss[k + 1].lookups[o].Queried?
    ensures var l := ss[k + 1].lookups[o];
            WasTrue(ss, k + 1, l.key, l.valid, l.readAt) && l.readAt <= ss[k + 1].now
  {
    var l := ss[k + 1].lookups[o];
    if es[k] == Query(o) {
      assert ss[k + 1].now == l.readAt && (l.key in ss[k + 1].keys) == l.valid;
    } else {
      hide WasTrue;
      StillTrue(ss, k, l.key, l.valid, l.readAt);
    }
  }

  lemma {:induction false} TruthfulAlways(ss: seq<State>, es: seq<Event>, k: nat)
    requires IsRun(ss, es) && k < |ss|
    ensures Truthful(ss, k)
  {
    if k > 0 {
      TruthfulAlways(ss, es, k - 1);
      forall key | key in ss[k].cache
        ensures var e := ss[k].cache[key];
                WasTrue(ss, k, key, e.valid, e.readAt) && e.readAt <= e.writtenAt <= ss[k].now
      {
        CacheStaysTruthful(ss, es, k - 1, key);
      }
      forall o | o in ss[k].lookups && ss[k].lookups[o].Queried?
        ensures var l := ss[k].lookups[o];
                WasTrue(ss, k, l.key, l.valid, l.readAt) && l.readAt <= ss[k].now
      {
        LookupsStayTruthful(ss, es, k - 1, o);
      }
    }
  }

  /** Bounded staleness: every answer is the database's answer at some earlier instant, less than
      the time-to-live plus the read-to-write delay of the lookup it comes from in the past. */
  lemma BoundedStaleness(ss: seq<State>, es: seq<Event>, k: nat)
    requires IsRun(ss, es) && k < |es| && Answered(ss[k], es[k]).Some?
    ensures var a := Answered(ss[k], es[k]).value;
            && a.delay >= 0.0
            && exists i :: 0 <= i <= k && (a.key in ss[i].keys) == a.valid
                           && 0.0 <= ss[k].now - ss[i].now < 300.0 + a.delay
  {
    TruthfulAlways(ss, es, k);
    var a := Answered(ss[k], es[k]).value;
    var at := if es[k].Hit? then ss[k].cache[a.key].readAt else ss[k].lookups[es[k].o].readAt;
    assert WasTrue(ss, k, a.key, a.valid, at);
  }

  /** Without a change of the key in that span, the cache cannot be told from the database. */
  lemma AgreesWithUncached(ss: seq<State>, es: seq<Event>, k: nat)
    requires IsRun(ss, es) && k < |es| && Answered(ss[k], es[k]).Some?
    requires var a := Answered(ss[k], es[k]).value;
             forall i :: 0 <= i <= k && ss[k].now - ss[i].now < 300.0 + a.delay ==>
               (a.key in ss[i].keys <==> a.key in ss[k].keys)
    ensures var a := Answered(ss[k], es[k]).value;
            a.valid <==> a.key in ss[k].keys
  {
    BoundedStaleness(ss, es, k);
  }

  lemma {:induction false} TimeGoesOn(ss: seq<State>, es: seq<Event>, i: nat, k: nat)
    requires IsRun(ss, es) && i <= k < |ss|
    ensures ss[i].now <= ss[k].now
  {
    if i < k {
      TimeGoesOn(ss, es, i, k - 1);
      assert ss[k - 1].now <= ss[k].now;
    }
  }

  /** A revoked key is refused once the time-to-live and the slowest lookup's delay have passed -
      and a new key accepted. */
  lemma ChangesTakeHold(ss: seq<State>, es: seq<Event>, j: nat, k: nat, key: Key, valid: bool)
    requires IsRun(ss, es) && j <= k < |es|
    requires forall i :: j <= i <= k ==> (key in ss[i].keys) == valid
    requires Answered(ss[k], es[k]).Some? && Answered(ss[k], es[k]).value.key == key
    requires ss[k].now >= ss[j].now + 300.0 + Answered(ss[k], es[k]).value.delay
    ensures Answered(ss[k], es[k]).value.valid == valid
  {
    BoundedStaleness(ss, es, k);
    var a := Answered(ss[k], es[k]).value;
    var i :| 0 <= i <= k && (a.key in ss[i].keys) == a.valid && ss[k].now - ss[i].now < TTL + a.delay;
    if i < j { TimeGoesOn(ss, es, i, j); }
  }

  /** What takes a key's entry away or replaces it: an eviction, or the write of another lookup. */
  predicate Replaces(s: State, e: Event, key: Key)
    requires Enabled(s, e)
  {
    match e
    case Evict(x) => x == key
    case Write(o) => s.lookups[o].key == key
    case _ => false
  }

  /** Changing the keys does not reach the cache: until its entry is evicted or written again, a key
      goes on being answered as it was when written, whatever happened to it since, and that up to
      the time-to-live and no longer. */
  lemma {:induction false} AnswersRepeat(ss: seq<State>, es: seq<Event>, j: nat, k: nat, key: Key)
    requires IsRun(ss, es) && j <= k < |ss| && key in ss[j].cache
    requires forall i :: j <= i < k ==> !Replaces(ss[i], es[i], key)
    ensures key in ss[k].cache && ss[k].cache[key] == ss[j].cache[key]
    ensures var entry := ss[j].cache[key];
            && (Enabled(ss[k], Hit(key)) <==> ss[k].now < entry.writtenAt + 300.0)
            && (Enabled(ss[k], Hit(key)) ==>
                 Answered(ss[k], Hit(key)) == Some(Answer(key, entry.valid, entry.writtenAt - entry.readAt)))
  {
    if j < k {
      AnswersRepeat(ss, es, j, k - 1, key);
      assert ss[k] == Apply(ss[k - 1], es[k - 1]) && !Replaces(ss[k - 1], es[k - 1], key);
    }
  }

  // ---- The bound is tight ----

  /** A lookup reads, the key is revoked, the lookup writes `delay` later, and a hit `age` after
      the revocation still says valid: possible for every age below the bound. */
  lemma StaleUpToTheBound(key: Key, delay: real, age: real)
    requires 0.0 <= delay <= age < 300.0 + delay
    ensures exists ss, es :: StaleAnswer(ss, es, key, delay, age)
  {
    var s0 := Init(0.0, {key});
    var s5 := State(delay, {}, map[key := Entry(true, 0.0, delay)], map[]);
    var s6 := s5.(now := age);
    var (ss, es) := FirstFill(key, delay);
    FirstFillRuns(key, delay);
    var ss', es' := ss + [s5, s6, s6], es + [Write(0), Wait(age - delay), Hit(key)];
    assert ss[4].lookups - {0} == map[] && Apply(ss[4], Write(0)) == s5;
    assert Apply(s5, Wait(age - delay)) == s6 && Enabled(s6, Hit(key)) && Apply(s6, Hit(key)) == s6;
    assert Enabled(ss[4], Write(0)) && Enabled(s5, Wait(age - delay));
    assert Answered(s6, Hit(key)) == Some(Answer(key, true, delay));
    hide Apply, Enabled, Answered, FirstFill;
    assert IsRun(ss', es');
    assert StaleAnswer(ss', es', key, delay, age);
  }

  /** The lookup up to its write, with the revocation in between. */
  function FirstFill(key: Key, delay: real): (seq<State>, seq<Event>)
  {
    var s0 := Init(0.0, {key});
    var s2 := s0.(lookups := map[0 := Queried(key, true, 0.0)]);
    ([s0, s0.(lookups := map[0 := Missed(key)]), s2, s2.(keys := {}), s2.(keys := {}, now := delay)],
     [Miss(0, key), Query(0), RevokeKey(key), Wait(delay)])
  }

  lemma FirstFillRuns(key: Key, delay: real)
    requires delay >= 0.0
    ensures IsRun(FirstFill(key, delay).0, FirstFill(key, delay).1)
  {
    var (ss, es) := FirstFill(key, delay);
    assert Apply(ss[0], es[0]) == ss[1] && Apply(ss[1], es[1]) == ss[2];
    assert Apply(ss[2], es[2]) == ss[3] && Apply(ss[3], es[3]) == ss[4];
  }

  /** The last answer of the run says valid, `age` after the key was revoked. */
  ghost predicate StaleAnswer(ss: seq<State>, es: seq<Event>, key: Key, delay: real, age: real)
  {
    && IsRun(ss, es)
    && var k := |es| - 1;
       && k > 2 && es[2] == RevokeKey(key)
       && Answered(ss[k], es[k]) == Some(Answer(key, true, delay))
       && ss[k].now - ss[2].now == age
       && forall i :: 2 < i <= k ==> key !in ss[i].keys
  }

  // ---- The method ----

  predicate Path(s: State, es: seq<Event>, t: State)
    decreases |es|
  {
    if es == [] then s == t else Enabled(s, es[0]) && Path(Apply(s, es[0]), es[1..], t)
  }

  /** What goes wrong during one call, and the time between its query and its write. */
  datatype Weather = Weather(cacheDown: bool, databaseDown: bool, writeFails: bool, delay: real)

  /** The steps of one call. */
  function Steps(s: State, key: Key, w: Weather): seq<Event>
  {
    if !w.cacheDown && Cached(s, key) then [Hit(key)]
    else if w.databaseDown then [Miss(0, key), QueryFails(0)]
    else [Miss(0, key), Query(0), Wait(w.delay), if w.writeFails then WriteFails(0) else Write(0)]
  }

  /** The state a call leaves. */
  function Called(s: State, key: Key, w: Weather): State
  {
    if (!w.cacheDown && Cached(s, key)) || w.databaseDown then s
    else if w.writeFails then s.(now := s.now + w.delay)
    else s.(now := s.now + w.delay, cache := s.cache[key := Entry(key in s.keys, s.now, s.now + w.delay)])
  }

  lemma CallIsPath(s: State, key: Key, w: Weather)
    requires w.delay >= 0.0 && s.lookups == map[]
    ensures Path(s, Steps(s, key, w), Called(s, key, w))
  {
    var t := Called(s, key, w);
    if !w.cacheDown && Cached(s, key) {
      assert Path(s, [Hit(key)], t);
    } else {
      var missed := s.(lookups := map[0 := Missed(key)]);
      assert Apply(s, Miss(0, key)) == missed;
      if w.databaseDown {
        assert missed.lookups - {0} == map[] && Apply(missed, QueryFails(0)) == t;
        assert Path(missed, [QueryFails(0)], t);
      } else {
        QueriedIsPath(s, key, w);
      }
    }
    hide Apply, Enabled;
  }

  lemma QueriedIsPath(s: State, key: Key, w: Weather)
    requires w.delay >= 0.0 && s.lookups == map[] && !w.databaseDown && (w.cacheDown || !Cached(s, key))
    ensures var last := if w.writeFails then WriteFails(0) else Write(0);
            Path(s.(lookups := map[0 := Missed(key)]), [Query(0), Wait(w.delay), last], Called(s, key, w))
  {
    var missed := s.(lookups := map[0 := Missed(key)]);
    var asked := s.(lookups := map[0 := Queried(key, key in s.keys, s.now)]);
    var waited := asked.(now := s.now + w.delay);
    var last := if w.writeFails then WriteFails(0) else Write(0);
    assert Apply(missed, Query(0)) == asked && Apply(asked, Wait(w.delay)) == waited;
    assert waited.lookups - {0} == map[] && Apply(waited, last) == Called(s, key, w);
    assert Path(waited, [last], Called(s, key, w));
    assert Path(asked, [Wait(w.delay), last], Called(s, key, w));
  }

  class Gateway {
    var now: real
    var keys: set<Key>
    var cache: map<Key, Entry>

    ghost function View(): State
      reads this
    {
      State(now, keys, cache, map[])
    }

    constructor (keys: set<Key>)
      ensures View() == Init(0.0, keys)
    {
      now, this.keys, cache := 0.0, keys, map[];
    }

    /** One call is a run of its steps; it answers from the cache if it can, else from the
        database as it was when asked, and fails exactly when both are of no help. */
    method ValidateWithCache(key: Key, w: Weather) returns (valid: Option<bool>)
      requires w.delay >= 0.0
      modifies this`now, this`cache
      ensures Path(old(View()), Steps(old(View()), key, w), View())
      ensures valid == if !w.cacheDown && old(Cached(View(), key)) then Some(old(cache)[key].valid)
                       else if w.databaseDown then None
                       else Some(key in keys)
      ensures var asked := valid.Some? && (w.cacheDown || !old(Cached(View(), key)));
              && now == (if asked then old(now) + w.delay else old(now))
              && cache == if asked && !w.writeFails then old(cache)[key := Entry(valid.value, old(now), now)] else old(cache)
      ensures forall other :: other != key ==>
                (other in cache <==> other in old(cache)) && (other in cache ==> cache[other] == old(cache)[other])
    {
      ghost var s := View();
      var cached := None;
      if !w.cacheDown && key in cache && now < cache[key].writtenAt + TTL {
        cached := Some(cache[key].valid);
      }
      CallIsPath(s, key, w);
      hide Path, Steps;
      if cached.Some? { return cached; }
      if w.databaseDown { return None; }
      var answer := key in keys;
      var readAt := now;
      now := now + w.delay;
      if !w.writeFails {
        cache := cache[key := Entry(answer, readAt, now)];
      }
      valid := Some(answer);
    }
  }
}

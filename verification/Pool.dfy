/** The warm pool of internal/pool/pool.go: one maintaining goroutine and any number of takers
    over two bounded channels.

    The interleaved model is for one template, since templates share nothing.  The class at the
    end gives the methods one call at a time. */
module Pool {
  import opened Options

  type Id = string

  /** Whether a creation belongs to iteration `done` of the initial fill or to a top-up. */
  datatype Purpose = Initial(done: nat) | Refill

  /** The maintainer's program point. */
  datatype Phase =
    | Filling(done: nat)               // initial fill: loop test
    | Idle                             // waiting in the select
    | Testing                          // top-up: loop test
    | Creating(purpose: Purpose)       // spawnOne: CreateSandbox under way
    | Sending(purpose: Purpose, id: Id)  // spawnOne: about to send
    | Stopped
  {
    predicate InTopUp()
    {
      Testing? || ((Creating? || Sending?) && purpose.Refill?)
    }
  }

  /** A taker's program point. */
  datatype Taker =
    | Looking            // about to receive
    | Asking(id: Id, recent: bool)      // received, asking whether it runs
    | Signalling(id: Id, recent: bool)  // it runs, about to signal a refill
  {
    /** `recent` means that the last completed top-up came before the receive. */
    function Settled(): Taker
    {
      match this
      case Looking => Looking
      case Asking(id, _) => Asking(id, false)
      case Signalling(id, _) => Signalling(id, false)
    }
  }

  datatype Event =
    | FillTest
    | CreateDone(id: Id, ok: bool)
    | Send
    | TopUpTest
    | Signalled
    | Tick
    | Stop
    | TakeStarts(k: nat)
    | Receive(k: nat)
    | Runs(k: nat)
    | Dead(k: nat)
    | Trigger(k: nat)

  /** `handed`, `discarded` and `excess` record where placeholders went for good.  Since the last
      completed top-up, `lost` entries have been received that turned out dead, or were never
      made because a creation of the initial fill failed, and for `sent` entries received a signal
      has been sent, or dropped. */
  datatype State = State(
    size: nat,
    warm: seq<Id>,
    refill: nat,
    phase: Phase,
    takers: map<nat, Taker>,
    created: set<Id>,
    handed: seq<Id>,
    discarded: set<Id>,
    excess: set<Id>,
    lost: nat,
    sent: nat)

  function Init(size: nat): State
  {
    State(size, [], 0, Filling(0), map[], {}, [], {}, {}, 0, 0)
  }

  predicate Enabled(s: State, e: Event)
  {
    match e
    case FillTest => s.phase.Filling?
    case CreateDone(id, _) => s.phase.Creating? && id !in s.created
    case Send => s.phase.Sending?
    case TopUpTest => s.phase.Testing?
    case Signalled => s.phase.Idle? && s.refill > 0
    case Tick => s.phase.Idle?
    case Stop => s.phase.Idle?
    case TakeStarts(k) => k !in s.takers
    case Receive(k) => k in s.takers && s.takers[k].Looking?
    case Runs(k) => k in s.takers && s.takers[k].Asking?
    case Dead(k) => k in s.takers && s.takers[k].Asking?
    case Trigger(k) => k in s.takers && s.takers[k].Signalling?
  }

  function Resume(p: Purpose): Phase
  {
    match p
    case Initial(n) => Filling(n + 1)
    case Refill => Testing
  }

  function Apply(s: State, e: Event): State
    requires Enabled(s, e)
  {
    match e
    case FillTest =>
      s.(phase := if s.phase.done < s.size then Creating(Initial(s.phase.done)) else Idle)
    case CreateDone(id, ok) =>
      if ok then s.(phase := Sending(s.phase.purpose, id), created := s.created + {id})
      else s.(phase := Resume(s.phase.purpose),
              lost := s.lost + if s.phase.purpose.Initial? then 1 else 0)
    case Send =>
      if |s.warm| < s.size
      then s.(warm := s.warm + [s.phase.id], phase := Resume(s.phase.purpose))
      else s.(excess := s.excess + {s.phase.id}, phase := Resume(s.phase.purpose))
    case TopUpTest =>
      if |s.warm| < s.size then s.(phase := Creating(Refill))
      else s.(phase := Idle, takers := map k | k in s.takers :: s.takers[k].Settled(), lost := 0, sent := 0)
    case Signalled => s.(refill := s.refill - 1, phase := Testing)
    case Tick => s.(phase := Testing)
    case Stop => s.(phase := Stopped)
    case TakeStarts(k) => s.(takers := s.takers[k := Looking])
    case Receive(k) =>
      if s.warm == [] then s.(takers := s.takers - {k})
      else s.(warm := s.warm[1..], takers := s.takers[k := Asking(s.warm[0], true)])
    case Runs(k) => s.(takers := s.takers[k := Signalling(s.takers[k].id, s.takers[k].recent)])
    case Dead(k) =>
      s.(takers := s.takers[k := Looking], discarded := s.discarded + {s.takers[k].id},
         lost := s.lost + if s.takers[k].recent then 1 else 0)
    case Trigger(k) =>
      s.(refill := if s.refill < s.size then s.refill + 1 else s.refill,
         takers := s.takers - {k}, handed := s.handed + [s.takers[k].id],
         sent := s.sent + if s.takers[k].recent then 1 else 0)
  }

  predicate Possible(s: State, es: seq<Event>)
    decreases |es|
  {
    es != [] ==> Enabled(s, es[0]) && Possible(Apply(s, es[0]), es[1..])
  }

  function After(s: State, es: seq<Event>): State
    requires Possible(s, es)
    decreases |es|
  {
    if es == [] then s else After(Apply(s, es[0]), es[1..])
  }

  // ---- Conservation ----

  function InHand(s: State): set<Id>
  {
    if s.phase.Sending? then {s.phase.id} else {}
  }

  predicate Holding(s: State, k: nat)
  {
    k in s.takers && !s.takers[k].Looking?
  }

  function WithTakers(s: State): set<Id>
  {
    set k | k in s.takers && Holding(s, k) :: s.takers[k].id
  }

  ghost predicate NoRepeats(xs: seq<Id>)
  {
    forall i, j :: 0 <= i < j < |xs| ==> xs[i] != xs[j]
  }

  function Elements(xs: seq<Id>): set<Id> { set x | x in xs }

  /** Every placeholder ever created is in exactly one place. */
  ghost predicate Conserved(s: State)
  {
    && NoRepeats(s.warm) && NoRepeats(s.handed)
    && (forall j, k :: Holding(s, j) && Holding(s, k) && j != k ==> s.takers[j].id != s.takers[k].id)
    && InHand(s) !! Elements(s.warm) !! WithTakers(s) !! Elements(s.handed) !! s.discarded !! s.excess
    && s.created == InHand(s) + Elements(s.warm) + WithTakers(s) + Elements(s.handed) + s.discarded + s.excess
  }

  // ---- Room in the channel, and wake-ups ----

  /** What the maintainer's program point says about the channel. */
  ghost predicate RoomToSend(s: State)
  {
    && |s.warm| <= s.size && s.refill <= s.size
    && s.excess == {}
    && match s.phase
       case Filling(n) => |s.warm| <= n <= s.size
       case Creating(p) => |s.warm| < s.size && (p.Initial? ==> |s.warm| <= p.done < s.size)
       case Sending(p, _) => |s.warm| < s.size && (p.Initial? ==> |s.warm| <= p.done < s.size)
       case _ => true
  }

  /** A refill signal is waiting, or some Take is between its receive and its trigger. */
  ghost predicate WakeUpPending(s: State)
  {
    s.refill > 0 || exists k :: Holding(s, k)
  }

  /** How many entries the maintainer believes it has put into the channel for good. */
  function Promised(s: State): nat
  {
    match s.phase
    case Idle => s.size
    case Filling(n) => n
    case Creating(p) => if p.Initial? then p.done else 0
    case Sending(p, _) => if p.Initial? then p.done else 0
    case _ => 0
  }

  /** The takers whose entry the last completed top-up has not made up for. */
  function Recent(s: State): set<nat>
  {
    set k | k in s.takers && Holding(s, k) && s.takers[k].recent
  }

  /** The maintainer counts on its channel: it fills it for the first time, or waits. */
  predicate Counting(s: State)
  {
    match s.phase
    case Filling(_) => true
    case Idle => true
    case Creating(p) => p.Initial?
    case Sending(p, _) => p.Initial?
    case _ => false
  }

  /** Where the promised entries are. */
  ghost predicate Balanced(s: State)
  {
    Counting(s) ==>
      && |s.warm| + s.lost + s.sent + |Recent(s)| == Promised(s)
      && (s.sent > 0 ==> s.refill > 0)
  }

  ghost predicate Sound(s: State)
  {
    Conserved(s) && RoomToSend(s) && Balanced(s)
  }

  lemma WarmSplit(xs: seq<Id>)
    requires xs != [] && NoRepeats(xs)
    ensures Elements(xs) == {xs[0]} + Elements(xs[1..]) && xs[0] !in xs[1..] && NoRepeats(xs[1..])
  {}

  lemma Appended(xs: seq<Id>, x: Id)
    ensures Elements(xs + [x]) == Elements(xs) + {x}
    ensures NoRepeats(xs) && x !in xs ==> NoRepeats(xs + [x])
  {}

  lemma ConservedByMaintainer(s: State, e: Event)
    requires Conserved(s) && Enabled(s, e)
    requires e.FillTest? || e.CreateDone? || e.Send? || e.TopUpTest? || e.Signalled? || e.Tick? || e.Stop?
    ensures Conserved(Apply(s, e))
  {
    var t := Apply(s, e);
    NobodyHoldsMore(s, t);
    hide WithTakers;
    if e.Send? { Appended(s.warm, s.phase.id); }
  }

  lemma ConservedByTaker(s: State, e: Event)
    requires Conserved(s) && Enabled(s, e)
    requires e.TakeStarts? || e.Receive? || e.Runs? || e.Dead? || e.Trigger?
    ensures Conserved(Apply(s, e))
  {
    hide Conserved, Apply;
    match e
    case TakeStarts(k) => ConservedByStart(s, k);
    case Receive(k) => ConservedByReceive(s, k);
    case Runs(k) => ConservedByRuns(s, k);
    case Dead(k) => ConservedByDead(s, k);
    case Trigger(k) => ConservedByTrigger(s, k);
  }

  lemma ConservedByStart(s: State, k: nat)
    requires Conserved(s) && Enabled(s, TakeStarts(k))
    ensures Conserved(Apply(s, TakeStarts(k)))
  {
    NobodyHoldsMore(s, Apply(s, TakeStarts(k)));
    hide WithTakers;
  }

  lemma ConservedByReceive(s: State, k: nat)
    requires Conserved(s) && Enabled(s, Receive(k))
    ensures Conserved(Apply(s, Receive(k)))
  {
    var t := Apply(s, Receive(k));
    if s.warm == [] {
      NobodyHoldsMore(s, t);
    } else {
      WarmSplit(s.warm);
      TakersGain(s, t, k);
    }
    hide WithTakers, Elements;
  }

  lemma ConservedByRuns(s: State, k: nat)
    requires Conserved(s) && Enabled(s, Runs(k))
    ensures Conserved(Apply(s, Runs(k)))
  {
    assert Holding(s, k);
    NobodyHoldsMore(s, Apply(s, Runs(k)));
    hide WithTakers;
  }

  lemma ConservedByDead(s: State, k: nat)
    requires Conserved(s) && Enabled(s, Dead(k))
    ensures Conserved(Apply(s, Dead(k)))
  {
    assert Holding(s, k);
    assert s.takers[k].id in WithTakers(s);
    TakersLose(s, Apply(s, Dead(k)), k);
    hide WithTakers, Elements;
  }

  lemma ConservedByTrigger(s: State, k: nat)
    requires Conserved(s) && Enabled(s, Trigger(k))
    ensures Conserved(Apply(s, Trigger(k)))
  {
    assert Holding(s, k);
    assert s.takers[k].id in WithTakers(s) && s.takers[k].id !in Elements(s.handed);
    assert s.takers[k].id !in s.handed;
    TakersLose(s, Apply(s, Trigger(k)), k);
    Appended(s.handed, s.takers[k].id);
    hide WithTakers, Elements;
  }

  ghost predicate OthersSame(s: State, t: State, k: nat)
  {
    forall j :: j != k ==> (j in s.takers <==> j in t.takers) && (j in s.takers ==> s.takers[j] == t.takers[j])
  }

  lemma NobodyHoldsMore(s: State, t: State)
    requires forall k :: Holding(s, k) || Holding(t, k) ==>
               Holding(s, k) && Holding(t, k) && s.takers[k].id == t.takers[k].id
    ensures WithTakers(s) == WithTakers(t)
  {
    forall x | x in WithTakers(s) ensures x in WithTakers(t) {
      var k :| k in s.takers && Holding(s, k) && s.takers[k].id == x;
      assert Holding(t, k);
    }
    forall x | x in WithTakers(t) ensures x in WithTakers(s) {
      var k :| k in t.takers && Holding(t, k) && t.takers[k].id == x;
      assert Holding(s, k);
    }
  }

  lemma TakersGain(s: State, t: State, k: nat)
    requires OthersSame(s, t, k) && !Holding(s, k) && Holding(t, k)
    ensures WithTakers(t) == WithTakers(s) + {t.takers[k].id}
  {
    forall x | x in WithTakers(s) ensures x in WithTakers(t) {
      var j :| j in s.takers && Holding(s, j) && s.takers[j].id == x;
      assert Holding(t, j) && t.takers[j].id == x;
    }
    assert forall j :: Holding(t, j) && j != k ==> Holding(s, j);
  }

  lemma TakersLose(s: State, t: State, k: nat)
    requires OthersSame(s, t, k) && Holding(s, k) && !Holding(t, k)
    requires forall j :: Holding(s, j) && j != k ==> s.takers[j].id != s.takers[k].id
    ensures WithTakers(t) == WithTakers(s) - {s.takers[k].id}
  {
    forall x | x in WithTakers(s) && x != s.takers[k].id ensures x in WithTakers(t) {
      var j :| j in s.takers && Holding(s, j) && s.takers[j].id == x;
      assert Holding(t, j) && t.takers[j].id == x;
    }
    assert forall j :: Holding(t, j) ==> j != k && Holding(s, j);
  }

  lemma RoomKept(s: State, e: Event)
    requires RoomToSend(s) && Enabled(s, e)
    ensures RoomToSend(Apply(s, e))
  {}

  lemma BalancedByMaintainer(s: State, e: Event)
    requires RoomToSend(s) && Balanced(s) && Enabled(s, e)
    requires e.FillTest? || e.CreateDone? || e.Send? || e.TopUpTest? || e.Signalled? || e.Tick? || e.Stop?
    ensures Balanced(Apply(s, e))
  {
    var t := Apply(s, e);
    if e.TopUpTest? && |s.warm| >= s.size {
      assert Recent(t) == {};
    } else {
      assert t.takers == s.takers && Recent(t) == Recent(s);
    }
  }

  lemma BalancedByTaker(s: State, e: Event)
    requires RoomToSend(s) && Balanced(s) && Enabled(s, e)
    requires e.TakeStarts? || e.Receive? || e.Runs? || e.Dead? || e.Trigger?
    ensures Balanced(Apply(s, e))
  {
    hide Apply, Balanced, RoomToSend;
    match e
    case TakeStarts(k) => BalancedByStart(s, k);
    case Receive(k) => BalancedByReceive(s, k);
    case Runs(k) => BalancedByRuns(s, k);
    case Dead(k) => BalancedByDead(s, k);
    case Trigger(k) => BalancedByTrigger(s, k);
  }

  lemma BalancedByStart(s: State, k: nat)
    requires Balanced(s) && Enabled(s, TakeStarts(k))
    ensures Balanced(Apply(s, TakeStarts(k)))
  {
    assert Recent(Apply(s, TakeStarts(k))) == Recent(s);
  }

  lemma BalancedByReceive(s: State, k: nat)
    requires Balanced(s) && Enabled(s, Receive(k))
    ensures Balanced(Apply(s, Receive(k)))
  {
    var t := Apply(s, Receive(k));
    if s.warm == [] {
      RecentLeaves(s, t, k);
    } else {
      RecentJoins(s, t, k, s.warm[0]);
    }
    hide Recent;
  }

  lemma RecentJoins(s: State, t: State, k: nat, id: Id)
    requires k in s.takers && s.takers[k].Looking? && t.takers == s.takers[k := Asking(id, true)]
    ensures |Recent(t)| == |Recent(s)| + 1
  {
    assert Recent(t) == Recent(s) + {k} && k !in Recent(s);
  }

  lemma BalancedByRuns(s: State, k: nat)
    requires Balanced(s) && Enabled(s, Runs(k))
    ensures Balanced(Apply(s, Runs(k)))
  {
    assert Recent(Apply(s, Runs(k))) == Recent(s);
  }

  lemma BalancedByDead(s: State, k: nat)
    requires Balanced(s) && Enabled(s, Dead(k))
    ensures Balanced(Apply(s, Dead(k)))
  {
    RecentLeaves(s, Apply(s, Dead(k)), k);
    hide Recent;
  }

  lemma BalancedByTrigger(s: State, k: nat)
    requires RoomToSend(s) && Balanced(s) && Enabled(s, Trigger(k))
    ensures Balanced(Apply(s, Trigger(k)))
  {
    RecentLeaves(s, Apply(s, Trigger(k)), k);
    if s.takers[k].recent { assert k in Recent(s) && |Recent(s)| > 0; }
    hide Recent;
  }

  lemma RecentLeaves(s: State, t: State, k: nat)
    requires k in s.takers && (t.takers == s.takers - {k} || t.takers == s.takers[k := Looking])
    ensures |Recent(t)| == |Recent(s)| - if Holding(s, k) && s.takers[k].recent then 1 else 0
  {
    if Holding(s, k) && s.takers[k].recent {
      assert Recent(t) == Recent(s) - {k} && k in Recent(s);
    } else {
      assert Recent(t) == Recent(s);
    }
  }

  lemma SoundKept(s: State, e: Event)
    requires Sound(s) && Enabled(s, e)
    ensures Sound(Apply(s, e))
  {
    RoomKept(s, e);
    hide Conserved, RoomToSend, Balanced, Apply;
    if e.TakeStarts? || e.Receive? || e.Runs? || e.Dead? || e.Trigger? {
      ConservedByTaker(s, e);
      BalancedByTaker(s, e);
    } else {
      ConservedByMaintainer(s, e);
      BalancedByMaintainer(s, e);
    }
  }

  lemma {:induction false} SoundAlways(s: State, es: seq<Event>)
    requires Sound(s) && Possible(s, es)
    ensures Sound(After(s, es))
    decreases |es|
  {
    if es != [] {
      SoundKept(s, es[0]);
      SoundAlways(Apply(s, es[0]), es[1..]);
    }
  }

  lemma InitSound(size: nat)
    ensures Sound(Init(size))
  {}

  /** Conservation: in every reachable state each placeholder ever created is in exactly one of
      the producer's hand, the channel, a taker's hand, handed out, or discarded as dead.  No
      placeholder is ever handed out twice, and none is ever killed as excess: with one
      maintainer the channel is never full at the send. */
  lemma PlaceholdersConserved(size: nat, es: seq<Event>)
    requires Possible(Init(size), es)
    ensures var s := After(Init(size), es);
            && Conserved(s) && NoRepeats(s.handed)
            && s.excess == {} && (s.phase.Sending? ==> |s.warm| < s.size)
  {
    InitSound(size);
    SoundAlways(Init(size), es);
  }

  /** The events that shorten the channel without a signal. */
  predicate Silent(s: State, e: Event)
    requires Enabled(s, e)
  {
    e.Dead? || (e.CreateDone? && !e.ok && s.phase.purpose.Initial?)
  }

  predicate NothingSilent(s: State, es: seq<Event>)
    requires Possible(s, es)
    decreases |es|
  {
    es != [] ==> !Silent(s, es[0]) && NothingSilent(Apply(s, es[0]), es[1..])
  }

  lemma {:induction false} NothingLost(s: State, es: seq<Event>)
    requires Possible(s, es) && NothingSilent(s, es) && s.lost == 0
    ensures After(s, es).lost == 0
    decreases |es|
  {
    if es != [] { NothingLost(Apply(s, es[0]), es[1..]); }
  }

  /** The maintainer waits over a short channel, and nobody is about to wake it. */
  ghost predicate Sleeps(s: State)
  {
    s.phase.Idle? && |s.warm| < s.size && !WakeUpPending(s)
  }

  lemma SleepsIff(s: State)
    requires Sound(s) && s.phase.Idle? && !WakeUpPending(s)
    ensures |s.warm| + s.lost == s.size
    ensures Sleeps(s) <==> s.lost > 0
  {
    assert Recent(s) == {} by {
      forall k ensures k !in Recent(s) { assert !Holding(s, k); }
    }
  }

  /** The law of wake-ups, although signals are dropped when the refill channel is full: whenever
      the maintainer waits, no signal is pending and no Take is about to send one, the channel is
      short by exactly the entries lost - those received since the last completed top-up that were
      dead, and the creations of the initial fill that failed before it.  So it sleeps over a short
      channel exactly when there is one; and if none was ever lost, every short channel has a
      wake-up pending. */
  lemma NoLostWakeUp(size: nat, es: seq<Event>)
    requires Possible(Init(size), es)
    ensures var s := After(Init(size), es);
            && (s.phase.Idle? && !WakeUpPending(s) ==> |s.warm| + s.lost == s.size)
            && (Sleeps(s) <==> s.phase.Idle? && !WakeUpPending(s) && s.lost > 0)
            && (s.phase.Idle? && |s.warm| < s.size && NothingSilent(Init(size), es) ==> WakeUpPending(s))
  {
    InitSound(size);
    SoundAlways(Init(size), es);
    var s := After(Init(size), es);
    if NothingSilent(Init(size), es) { NothingLost(Init(size), es); }
    hide Possible, After, Sound, NothingSilent, WakeUpPending;
    if s.phase.Idle? && !WakeUpPending(s) { SleepsIff(s); }
  }

  ghost predicate Leads(s: State, es: seq<Event>, t: State)
  {
    Possible(s, es) && After(s, es) == t
  }

  lemma OneStep(s: State, e: Event)
    requires Enabled(s, e)
    ensures Leads(s, [e], Apply(s, e))
  {
    hide Apply, Enabled;
    var t := Apply(s, e);
    assert [e][0] == e && [e][1..] == [];
    assert Possible(t, []) && After(t, []) == t;
  }

  lemma TwoSteps(s: State, d: Event, e: Event)
    requires Enabled(s, d) && Enabled(Apply(s, d), e)
    ensures Leads(s, [d, e], Apply(Apply(s, d), e))
  {
    hide Apply, Enabled, Leads;
    OneStep(s, d);
    OneStep(Apply(s, d), e);
    LeadsOn(s, [d], Apply(s, d), [e], Apply(Apply(s, d), e));
    assert [d] + [e] == [d, e];
  }

  lemma {:induction false} LeadsOn(s: State, xs: seq<Event>, t: State, ys: seq<Event>, u: State)
    requires Leads(s, xs, t) && Leads(t, ys, u)
    ensures Leads(s, xs + ys, u)
    decreases |xs|
  {
    hide Apply, Enabled;
    if xs == [] {
      assert xs + ys == ys;
    } else {
      assert (xs + ys)[1..] == xs[1..] + ys;
      LeadsOn(Apply(s, xs[0]), xs[1..], t, ys, u);
    }
  }

  function Filled(a: Id): State
  {
    State(1, [a], 0, Idle, map[], {a}, [], {}, {}, 0, 0)
  }

  function Asleep(a: Id): State
  {
    State(1, [], 0, Idle, map[], {a}, [], {a}, {}, 1, 0)
  }

  lemma FillOne(a: Id)
    ensures Leads(Init(1), [FillTest, CreateDone(a, true)], Init(1).(phase := Sending(Initial(0), a), created := {a}))
    ensures Leads(Init(1).(phase := Sending(Initial(0), a), created := {a}), [Send, FillTest], Filled(a))
  {
    TwoSteps(Init(1), FillTest, CreateDone(a, true));
    TwoSteps(Init(1).(phase := Sending(Initial(0), a), created := {a}), Send, FillTest);
  }

  lemma TakeDead(a: Id)
    ensures Leads(Filled(a), [TakeStarts(0), Receive(0)],
                  Asleep(a).(takers := map[0 := Asking(a, true)], discarded := {}, lost := 0))
    ensures Leads(Asleep(a).(takers := map[0 := Asking(a, true)], discarded := {}, lost := 0),
                  [Dead(0), Receive(0)], Asleep(a))
  {
    TwoSteps(Filled(a), TakeStarts(0), Receive(0));
    TwoSteps(Asleep(a).(takers := map[0 := Asking(a, true)], discarded := {}, lost := 0), Dead(0), Receive(0));
  }

  /** The exception is real: after one dead entry the maintainer sleeps over an empty channel. */
  lemma DeadEntrySleeps(a: Id)
    ensures exists es ::
      && Possible(Init(1), es)
      && var s := After(Init(1), es);
         Sleeps(s)
  {
    FillOne(a);
    TakeDead(a);
    hide Init, Filled;
    var s1, s2 := Init(1), Init(1).(phase := Sending(Initial(0), a), created := {a});
    var s3 := Filled(a);
    var s4 := Asleep(a).(takers := map[0 := Asking(a, true)], discarded := {}, lost := 0);
    var fill := [FillTest, CreateDone(a, true)] + [Send, FillTest];
    LeadsOn(s1, [FillTest, CreateDone(a, true)], s2, [Send, FillTest], s3);
    LeadsOn(s1, fill, s3, [TakeStarts(0), Receive(0)], s4);
    LeadsOn(s1, fill + [TakeStarts(0), Receive(0)], s4, [Dead(0), Receive(0)], Asleep(a));
    hide Possible, After;
    assert After(Init(1), fill + [TakeStarts(0), Receive(0)] + [Dead(0), Receive(0)]) == Asleep(a);
  }

  // ---- The work of one top-up ----

  function Received(s: State, es: seq<Event>): nat
    requires Possible(s, es)
    decreases |es|
  {
    if es == [] then 0
    else (if es[0].Receive? && s.warm != [] then 1 else 0) + Received(Apply(s, es[0]), es[1..])
  }

  function Creations(es: seq<Event>): nat
  {
    if es == [] then 0 else (if es[0].CreateDone? && es[0].ok then 1 else 0) + Creations(es[1..])
  }

  function MaintainerSteps(es: seq<Event>): nat
  {
    if es == [] then 0
    else (if es[0].CreateDone? || es[0].Send? || es[0].TopUpTest? then 1 else 0) + MaintainerSteps(es[1..])
  }

  /** The run starts inside a top-up, and stays there at least up to its last event. */
  predicate DuringTopUp(s: State, es: seq<Event>)
    requires Possible(s, es)
    decreases |es|
  {
    s.phase.InTopUp() && (es != [] ==> DuringTopUp(Apply(s, es[0]), es[1..]))
  }

  predicate CreationsSucceed(es: seq<Event>)
  {
    forall i :: 0 <= i < |es| && es[i].CreateDone? ==> es[i].ok
  }

  function Unsent(s: State): nat { if s.phase.Sending? then 1 else 0 }

  lemma {:induction false} TopUpBalance(s: State, es: seq<Event>)
    requires RoomToSend(s) && Possible(s, es) && DuringTopUp(s, es)
    ensures var t := After(s, es);
            && RoomToSend(t)
            && |t.warm| + Unsent(t) + Received(s, es) == |s.warm| + Unsent(s) + Creations(es)
    decreases |es|
  {
    if es != [] {
      RoomKept(s, es[0]);
      TopUpBalance(Apply(s, es[0]), es[1..]);
    }
  }

  /** A top-up that starts with the channel at length L and overlaps k receives before its final
      test has made exactly Size - L + k successful creations when that test ends it. */
  lemma TopUpWork(size: nat, before: seq<Event>, es: seq<Event>)
    requires Possible(Init(size), before)
    requires var s := After(Init(size), before);
             && s.phase.Testing?
             && Possible(s, es) && DuringTopUp(s, es)
             && Enabled(After(s, es), TopUpTest) && Apply(After(s, es), TopUpTest).phase.Idle?
    ensures var s := After(Init(size), before);
            Creations(es) == size - |s.warm| + Received(s, es)
  {
    InitSound(size);
    SoundAlways(Init(size), before);
    TopUpBalance(After(Init(size), before), es);
    SizeNeverChanges(Init(size), before);
    SizeNeverChanges(After(Init(size), before), es);
  }

  lemma {:induction false} SizeNeverChanges(s: State, es: seq<Event>)
    requires Possible(s, es)
    ensures After(s, es).size == s.size
    decreases |es|
  {
    if es != [] { SizeNeverChanges(Apply(s, es[0]), es[1..]); }
  }

  /** Three maintainer steps for each missing entry and each receive still to come, plus the
      final test: how long a top-up can go on while creations succeed. */
  function StepsLeft(s: State, receives: nat): int
  {
    var missing := s.size - |s.warm| + receives;
    match s.phase
    case Testing => 3 * missing + 1
    case Creating(_) => 3 * missing
    case Sending(_, _) => 3 * missing - 1
    case _ => 0
  }

  lemma {:induction false} TopUpTerminates(s: State, es: seq<Event>)
    requires RoomToSend(s) && Possible(s, es) && DuringTopUp(s, es) && CreationsSucceed(es)
    ensures MaintainerSteps(es) <= StepsLeft(s, Received(s, es)) - StepsLeft(After(s, es), 0)
    decreases |es|
  {
    if es != [] {
      RoomKept(s, es[0]);
      assert forall i :: 0 <= i < |es[1..]| ==> es[1..][i] == es[i + 1];
      TopUpTerminates(Apply(s, es[0]), es[1..]);
    }
  }

  // ---- The methods, one call at a time ----

  predicate AllDead(xs: seq<Id>, alive: set<Id>)
  {
    forall x :: x in xs ==> x !in alive
  }

  // ---- ... are runs of the steps ----

  ghost predicate Reaches(s: State, t: State)
  {
    exists es :: Leads(s, es, t)
  }

  lemma ReachesItself(s: State)
    ensures Reaches(s, s)
  {
    assert Leads(s, [], s);
  }

  lemma ReachesOn(s: State, t: State, e: Event)
    requires Reaches(s, t) && Enabled(t, e)
    ensures Reaches(s, Apply(t, e))
  {
    hide Apply, Enabled, Leads;
    var es :| Leads(s, es, t);
    OneStep(t, e);
    LeadsOn(s, es, t, [e], Apply(t, e));
  }

  lemma ReachesSound(s: State, t: State)
    requires Sound(s) && Reaches(s, t)
    ensures Sound(t)
  {
    var es :| Leads(s, es, t);
    SoundAlways(s, es);
  }

  function Signal(s: State): nat { if s.refill < s.size then s.refill + 1 else s.refill }

  /** A whole Take: the state afterwards, and what it returns. */
  function Taken(s: State, alive: set<Id>): (State, Option<Id>)
    decreases |s.warm|
  {
    if s.warm == [] then (s, None)
    else
      var head := s.warm[0];
      var rest := s.(warm := s.warm[1..]);
      if head in alive then
        (rest.(refill := Signal(s), handed := s.handed + [head], sent := s.sent + 1), Some(head))
      else Taken(rest.(discarded := s.discarded + {head}, lost := s.lost + 1), alive)
  }

  /** A Take that is about to receive goes on as the steps say. */
  lemma {:induction false} TakeGoesOn(s: State, t: State, v: State, alive: set<Id>)
    requires Reaches(s, t) && v.takers == map[] && t == v.(takers := map[0 := Looking])
    ensures Reaches(s, Taken(v, alive).0)
    decreases |v.warm|
  {
    hide Reaches;
    ReachesOn(s, t, Receive(0));
    var u := Apply(t, Receive(0));
    if t.warm == [] {
      assert u == v;
    } else if t.warm[0] in alive {
      ReachesOn(s, u, Runs(0));
      var w := Apply(u, Runs(0));
      ReachesOn(s, w, Trigger(0));
      assert Apply(w, Trigger(0)).takers == map[];
      assert Apply(w, Trigger(0)) == Taken(v, alive).0;
    } else {
      ReachesOn(s, u, Dead(0));
      var w := Apply(u, Dead(0));
      assert w.takers == map[0 := Looking];
      var x := v.(warm := v.warm[1..], discarded := v.discarded + {v.warm[0]}, lost := v.lost + 1);
      assert w == x.(takers := map[0 := Looking]);
      TakeGoesOn(s, w, x, alive);
    }
  }

  lemma TakeSteps(s: State, alive: set<Id>)
    requires s.takers == map[]
    ensures Reaches(s, Taken(s, alive).0)
  {
    ReachesItself(s);
    hide Reaches;
    ReachesOn(s, s, TakeStarts(0));
    TakeGoesOn(s, Apply(s, TakeStarts(0)), s, alive);
  }

  /** The maintainer stops where it waits, whatever signals are pending, and for good: nothing is
      created any more, nothing enters the channel, and callers take what is left, from its head. */
  lemma StopIsFinal(s: State, es: seq<Event>)
    requires s.phase.Idle?
    requires Possible(s.(phase := Stopped), es)
    ensures Enabled(s, Stop) && Apply(s, Stop) == s.(phase := Stopped)
    ensures var t := After(Apply(s, Stop), es);
            && t.phase.Stopped? && t.created == s.created
            && |t.warm| <= |s.warm| && t.warm == s.warm[|s.warm| - |t.warm|..]
  {
    StoppedStays(s.(phase := Stopped), es);
  }

  lemma {:induction false} StoppedStays(s: State, es: seq<Event>)
    requires s.phase.Stopped? && Possible(s, es)
    ensures var t := After(s, es);
            && t.phase.Stopped? && t.created == s.created
            && |t.warm| <= |s.warm| && t.warm == s.warm[|s.warm| - |t.warm|..]
    decreases |es|
  {
    if es != [] { StoppedStays(Apply(s, es[0]), es[1..]); }
  }

  /** Whenever the maintainer waits over a channel of dead entries with no signal pending, the next
      Take puts it to sleep. */
  lemma DeadEntriesSleep(s: State)
    requires s.phase.Idle? && s.takers == map[] && s.refill == 0 && s.warm != [] && |s.warm| <= s.size
    ensures Reaches(s, Taken(s, {}).0) && Sleeps(Taken(s, {}).0)
  {
    TakeSteps(s, {});
    TakenOthersSame(s, {});
    TakenMeans(s, {});
  }

  lemma {:induction false} TakenOthersSame(s: State, alive: set<Id>)
    ensures var t := Taken(s, alive).0;
            t.size == s.size && t.phase == s.phase && t.takers == s.takers && t.created == s.created
    decreases |s.warm|
  {
    if s.warm != [] && s.warm[0] !in alive {
      TakenOthersSame(s.(warm := s.warm[1..], discarded := s.discarded + {s.warm[0]}, lost := s.lost + 1), alive);
    }
  }

  /** The first live entry is returned, the dead ones before it are gone. */
  lemma {:induction false} TakenMeans(s: State, alive: set<Id>)
    ensures var (t, id) := Taken(s, alive);
            match id
            case None => AllDead(s.warm, alive) && t.warm == [] && t.refill == s.refill
            case Some(x) =>
              && x in alive && t.refill == Signal(s)
              && exists n: nat :: FirstLive(s.warm, n, alive) && s.warm[n] == x && t.warm == s.warm[n + 1..]
    decreases |s.warm|
  {
    if s.warm != [] {
      var rest := s.warm[1..];
      if s.warm[0] in alive {
        assert FirstLive(s.warm, 0, alive);
      } else {
        var u := s.(warm := rest, discarded := s.discarded + {s.warm[0]}, lost := s.lost + 1);
        TakenMeans(u, alive);
        var (t, id) := Taken(u, alive);
        assert Taken(s, alive) == (t, id);
        hide Taken;
        if id.Some? {
          var n: nat :| FirstLive(rest, n, alive) && rest[n] == id.value && t.warm == rest[n + 1..];
          FirstLiveLater(s.warm, n, alive);
        }
      }
    }
  }

  predicate FirstLive(xs: seq<Id>, n: nat, alive: set<Id>)
  {
    n < |xs| && xs[n] in alive && AllDead(xs[..n], alive)
  }

  lemma FirstLiveLater(xs: seq<Id>, n: nat, alive: set<Id>)
    requires xs != [] && xs[0] !in alive && FirstLive(xs[1..], n, alive)
    ensures FirstLive(xs, n + 1, alive) && xs[n + 1] == xs[1..][n] && xs[n + 2..] == xs[1..][n + 1..]
  {
    assert xs[..n + 1] == [xs[0]] + xs[1..][..n];
  }

  /** One spawnOne of the maintainer: the placeholder is new. */
  function Spawned(s: State, id: Id, ok: bool): State
    requires s.phase.Creating? && id !in s.created
  {
    var t := Apply(s, CreateDone(id, ok));
    if ok then Apply(t, Send) else t
  }

  lemma SpawnSteps(s: State, t: State, id: Id, ok: bool)
    requires Reaches(s, t) && t.phase.Creating? && id !in t.created
    ensures Reaches(s, Spawned(t, id, ok))
  {
    hide Reaches;
    ReachesOn(s, t, CreateDone(id, ok));
    if ok { ReachesOn(s, Apply(t, CreateDone(id, ok)), Send); }
  }

  /** Placeholders are new UUIDs. */
  ghost predicate AllNew(ids: seq<Id>, created: set<Id>)
  {
    NoRepeats(ids) && forall x :: x in ids ==> x !in created
  }

  lemma NextNew(ids: seq<Id>, n: nat, created: set<Id>)
    requires AllNew(ids, created) && n < |ids|
    ensures ids[n] !in created + Elements(ids[..n])
    ensures Elements(ids[..n + 1]) == Elements(ids[..n]) + {ids[n]}
  {
    assert ids[..n + 1] == ids[..n] + [ids[n]];
  }

  /** The state of a top-up after `n` of its creations. */
  function Topping(s: State, ids: seq<Id>, n: nat): State
    requires n <= |ids|
  {
    s.(phase := Testing, warm := s.warm + ids[..n], created := s.created + Elements(ids[..n]))
  }

  lemma ToppingStep(s: State, ids: seq<Id>, n: nat)
    requires AllNew(ids, s.created) && n < |ids| && |s.warm| + n < s.size && s.phase.Testing?
    requires Reaches(s, Topping(s, ids, n))
    ensures Reaches(s, Topping(s, ids, n + 1))
  {
    var t := Topping(s, ids, n);
    hide Reaches;
    ReachesOn(s, t, TopUpTest);
    NextNew(ids, n, s.created);
    SpawnSteps(s, Apply(t, TopUpTest), ids[n], true);
    assert s.warm + ids[..n] + [ids[n]] == s.warm + ids[..n + 1];
    assert Spawned(Apply(t, TopUpTest), ids[n], true) == Topping(s, ids, n + 1);
  }

  lemma ToppingStarts(s: State, ids: seq<Id>)
    requires s.phase.Testing?
    ensures Topping(s, ids, 0) == s && Reaches(s, s)
  {
    assert s.warm + ids[..0] == s.warm && s.created + Elements(ids[..0]) == s.created;
    ReachesItself(s);
  }

  /** A top-up with as many new placeholders as are missing goes through to the end. */
  lemma TopUpSteps(s: State, ids: seq<Id>)
    requires s.phase.Testing? && s.takers == map[] && AllNew(ids, s.created) && |s.warm| + |ids| == s.size
    ensures Reaches(s, s.(phase := Idle, warm := s.warm + ids, created := s.created + Elements(ids), lost := 0, sent := 0))
  {
    ToppingStarts(s, ids);
    hide Reaches;
    for n := 0 to |ids|
      invariant Reaches(s, Topping(s, ids, n))
    {
      ToppingStep(s, ids, n);
    }
    ToppingEnds(s, ids);
  }

  lemma ToppingEnds(s: State, ids: seq<Id>)
    requires s.takers == map[] && |s.warm| + |ids| == s.size
    requires Reaches(s, Topping(s, ids, |ids|))
    ensures Reaches(s, s.(phase := Idle, warm := s.warm + ids, created := s.created + Elements(ids), lost := 0, sent := 0))
  {
    hide Reaches;
    var t := Topping(s, ids, |ids|);
    assert ids[..|ids|] == ids;
    ReachesOn(s, t, TopUpTest);
    assert Apply(t, TopUpTest).takers == map[];
    assert Apply(t, TopUpTest)
        == s.(phase := Idle, warm := s.warm + ids, created := s.created + Elements(ids), lost := 0, sent := 0);
  }

  /** Between two calls, `s` is a state with these channels that keeps the laws above. */
  ghost predicate Fits(size: nat, warm: seq<Id>, refill: nat, s: State)
  {
    && s.size == size && s.warm == warm && s.refill == refill
    && s.takers == map[] && Sound(s) && |warm| <= size && refill <= size
  }

  lemma InitFits(size: nat)
    ensures Fits(size, [], 0, Init(size))
  {
    InitSound(size);
  }

  /** What a caller sees of such a state. */
  lemma FitsMeans(size: nat, warm: seq<Id>, refill: nat, s: State)
    requires Fits(size, warm, refill, s)
    ensures s.size == size && s.warm == warm && s.refill == refill && s.takers == map[] && Sound(s)
  {}

  lemma FitsReached(s: State, t: State)
    requires Sound(s) && Reaches(s, t) && t.takers == map[]
    ensures Fits(t.size, t.warm, t.refill, t)
  {
    ReachesSound(s, t);
  }

  lemma TakeFits(size: nat, warm: seq<Id>, refill: nat, s: State, alive: set<Id>)
    requires Fits(size, warm, refill, s)
    ensures s.size == size && s.warm == warm && s.refill == refill
    ensures var t := Taken(s, alive).0;
            Reaches(s, t) && t.size == size && Fits(size, t.warm, t.refill, t)
  {
    var t := Taken(s, alive).0;
    TakeSteps(s, alive);
    TakenOthersSame(s, alive);
    FitsReached(s, t);
  }

  /** One round of the loop of Take. */
  function Discard(s: State): State
    requires s.warm != []
  {
    s.(warm := s.warm[1..], discarded := s.discarded + {s.warm[0]}, lost := s.lost + 1)
  }

  lemma TakenRound(s: State, alive: set<Id>)
    ensures s.warm == [] ==> Taken(s, alive) == (s, None)
    ensures s.warm != [] && s.warm[0] !in alive ==> Taken(s, alive) == Taken(Discard(s), alive)
    ensures s.warm != [] && s.warm[0] in alive ==>
              && Taken(s, alive).0.warm == s.warm[1..] && Taken(s, alive).0.refill == Signal(s)
              && Taken(s, alive).1 == Some(s.warm[0])
  {}

  /** The two channels of one template. */
  class Template {
    const size: nat
    var warm: seq<Id>
    var refill: nat
    /** The state between two calls. */
    ghost var model: State

    ghost predicate Valid()
      reads this
    {
      Fits(size, warm, refill, model)
    }

    constructor (size: nat)
      ensures Valid() && this.size == size && model == Init(size)
    {
      this.size, warm, refill, model := size, [], 0, Init(size);
      InitFits(size);
    }

    method TriggerRefill()
      requires refill <= size
      modifies this`refill
      ensures refill == if old(refill) < size then old(refill) + 1 else size
    {
      if refill < size { refill := refill + 1; }
    }

    /** Takes the first entry that still runs, dropping the dead ones before it; a signal is sent
        only with a hit. */
    method Take(alive: set<Id>) returns (id: Option<Id>)
      requires Valid()
      modifies this
      ensures Valid()
      ensures (model, id) == Taken(old(model), alive) && Reaches(old(model), model)
    {
      ghost var start, s := model, model;
      TakeFits(size, warm, refill, start, alive);
      hide Fits, Reaches, Taken;
      while warm != []
        invariant model == start && refill == start.refill && size == s.size == start.size
        invariant warm == s.warm && s.refill == start.refill && Taken(s, alive) == Taken(start, alive)
        decreases |warm|
      {
        TakenRound(s, alive);
        var next := warm[0];
        warm := warm[1..];
        if next in alive {
          TriggerRefill();
          model := Taken(start, alive).0;
          return Some(next);
        }
        s := Discard(s);
      }
      TakenRound(s, alive);
      model := Taken(start, alive).0;
      id := None;
    }

    /** One creation; the placeholder is sent, or killed when the channel is full. */
    method SpawnOne(id: Id, ok: bool) returns (killed: bool)
      modifies this`warm
      ensures killed <==> ok && |old(warm)| >= size
      ensures warm == if ok && !killed then old(warm) + [id] else old(warm)
    {
      if !ok { return false; }
      killed := |warm| >= size;
      if !killed { warm := warm + [id]; }
    }

    /** The initial fill, with the outcome of each creation. */
    method Fill(ids: seq<Id>, ok: seq<bool>)
      requires Valid() && model.phase == Filling(0)
      requires |ids| == |ok| == size && AllNew(ids, model.created)
      modifies this`warm, this`model
      ensures Valid() && model.phase.Idle? && Reaches(old(model), model)
      ensures warm == old(warm) + Made(ids, ok)
    {
      hide FillingUp, Fits, Made, Reaches, AllNew, Sound, Apply, Enabled;
      ghost var start, s := model, model;
      FitsMeans(size, warm, refill, start);
      FillStarts(start, ids, ok);
      for n := 0 to size
        invariant model == start && s.size == size == start.size && s.refill == refill && warm == s.warm
        invariant FillingUp(start, s, ids, ok, n)
      {
        s := FillStep(start, s, ids, ok, n);
        var killed := SpawnOne(ids[n], ok[n]);
      }
      s := FillEnds(start, s, ids, ok);
      model := s;
    }

    /** The maintainer is woken by a signal or by its ticker, and begins a top-up. */
    method Wake(signalled: bool)
      requires Valid() && model.phase.Idle? && (signalled ==> refill > 0)
      modifies this`refill, this`model
      ensures Valid() && model.phase.Testing? && Reaches(old(model), model)
      ensures refill == if signalled then old(refill) - 1 else old(refill)
    {
      hide Fits, Reaches, Sound;
      FitsMeans(size, warm, refill, model);
      ghost var t := WakeFits(model, signalled);
      model := t;
      if signalled { refill := refill - 1; }
    }

    /** A top-up nobody interrupts, with the creations that would succeed in order: it stops
        after exactly the missing number of them, appended in order, or for want of more. */
    method TopUp(creations: seq<Id>) returns (made: nat)
      requires Valid() && model.phase.Testing? && AllNew(creations, model.created)
      modifies this`warm, this`model
      ensures Valid() && Reaches(old(model), model)
      ensures var missing := size - |old(warm)|;
              && made == (if missing <= |creations| then missing else |creations|)
              && (model.phase.Idle? <==> missing <= |creations|)
      ensures warm == old(warm) + creations[..made]
    {
      ghost var s := model;
      FitsMeans(size, warm, refill, s);
      ToppingStarts(s, creations);
      hide Reaches, Fits, AllNew, Topping, Sound;
      made := 0;
      assert warm + creations[..0] == warm;
      while |warm| < size && made < |creations|
        invariant model == s && 0 <= made <= |creations|
        invariant |warm| <= size && warm == old(warm) + creations[..made]
        invariant Reaches(s, Topping(s, creations, made))
        decreases |creations| - made
      {
        ToppingStep(s, creations, made);
        var killed := SpawnOne(creations[made], true);
        made := made + 1;
        assert creations[..made] == creations[..made - 1] + [creations[made - 1]];
      }
      ghost var t := ToppingFits(s, creations, made);
      model := t;
    }
  }

  class WarmPool {
    const templates: map<string, Template>

    ghost predicate Valid()
      reads this, templates.Values
    {
      && (forall slug :: slug in templates ==> templates[slug].Valid())
      && (forall x, y :: x in templates && y in templates && x != y ==> templates[x] != templates[y])
    }

    constructor (templates: map<string, Template>)
      requires forall slug :: slug in templates ==> templates[slug].Valid()
      requires forall x, y :: x in templates && y in templates && x != y ==> templates[x] != templates[y]
      ensures Valid() && this.templates == templates
    {
      this.templates := templates;
    }

    /** An unknown template is a miss; the others share nothing. */
    method Take(slug: string, alive: set<Id>) returns (id: Option<Id>)
      requires Valid()
      modifies if slug in templates then {templates[slug]} else {}
      ensures Valid()
      ensures slug !in templates ==> id == None
      ensures slug in templates ==>
                && (templates[slug].model, id) == Taken(old(templates[slug].model), alive)
                && Reaches(old(templates[slug].model), templates[slug].model)
    {
      if slug !in templates { return None; }
      hide Fits, Taken, Reaches;
      id := templates[slug].Take(alive);
    }
  }

  /** The end of a top-up that made `n` creations: it waits again if the channel is full. */
  lemma ToppingFits(s: State, ids: seq<Id>, n: nat) returns (t: State)
    requires Fits(s.size, s.warm, s.refill, s) && n <= |ids| && |s.warm| + n <= s.size
    requires Reaches(s, Topping(s, ids, n))
    ensures Reaches(s, t) && t.size == s.size && Fits(s.size, s.warm + ids[..n], s.refill, t)
    ensures t.phase.Idle? <==> |s.warm| + n == s.size
  {
    hide Reaches;
    t := Topping(s, ids, n);
    if |s.warm| + n == s.size {
      ReachesOn(s, t, TopUpTest);
      t := Apply(t, TopUpTest);
      assert t.takers == map[];
    }
    FitsReached(s, t);
  }

  lemma WakeFits(s: State, signalled: bool) returns (t: State)
    requires Fits(s.size, s.warm, s.refill, s) && s.phase.Idle? && (signalled ==> s.refill > 0)
    ensures Fits(s.size, s.warm, if signalled then s.refill - 1 else s.refill, t)
    ensures Reaches(s, t) && t.phase.Testing?
  {
    ReachesItself(s);
    hide Sound, Reaches;
    var e := if signalled then Signalled else Tick;
    ReachesOn(s, s, e);
    t := Apply(s, e);
    FitsReached(s, t);
  }

  /** The placeholders whose creation worked. */
  function Made(ids: seq<Id>, ok: seq<bool>): (made: seq<Id>)
    requires |ids| == |ok|
  {
    if ids == [] then []
    else
      var n := |ids| - 1;
      Made(ids[..n], ok[..n]) + if ok[n] then [ids[n]] else []
  }

  lemma MadeStep(ids: seq<Id>, ok: seq<bool>, n: nat)
    requires n < |ids| == |ok|
    ensures Made(ids[..n + 1], ok[..n + 1]) == Made(ids[..n], ok[..n]) + if ok[n] then [ids[n]] else []
  {
    assert ids[..n + 1][..n] == ids[..n] && ok[..n + 1][..n] == ok[..n];
  }

  /** The initial fill after `n` of its creations. */
  ghost predicate FillingUp(start: State, s: State, ids: seq<Id>, ok: seq<bool>, n: nat)
  {
    && n <= |ids| == |ok| && AllNew(ids, start.created) && Sound(start)
    && Reaches(start, s) && s.phase == Filling(n) && s.takers == map[]
    && s.created <= start.created + Elements(ids[..n])
    && s.warm == start.warm + Made(ids[..n], ok[..n])
  }

  lemma FillStarts(start: State, ids: seq<Id>, ok: seq<bool>)
    requires Sound(start) && start.phase == Filling(0) && start.takers == map[]
    requires |ids| == |ok| && AllNew(ids, start.created)
    ensures FillingUp(start, start, ids, ok, 0)
  {
    ReachesItself(start);
    assert start.warm + Made(ids[..0], ok[..0]) == start.warm;
  }

  lemma FillStep(start: State, s: State, ids: seq<Id>, ok: seq<bool>, n: nat) returns (t: State)
    requires FillingUp(start, s, ids, ok, n) && n < |ids| && n < s.size
    ensures FillingUp(start, t, ids, ok, n + 1) && |s.warm| < s.size
    ensures t.size == s.size && t.refill == s.refill && t.warm == if ok[n] then s.warm + [ids[n]] else s.warm
  {
    hide Reaches, Made, AllNew, Elements;
    ReachesSound(start, s);
    assert RoomToSend(s);
    hide Sound, RoomToSend;
    NextNew(ids, n, start.created);
    MadeStep(ids, ok, n);
    t := FillOnce(start, s, ids[n], ok[n], n);
    Joined(start.warm, Made(ids[..n], ok[..n]), ids[n]);
  }

  lemma Joined(xs: seq<Id>, ys: seq<Id>, z: Id)
    ensures xs + ys + [z] == xs + (ys + [z]) && xs + (ys + []) == xs + ys
  {}

  lemma FillOnce(start: State, s: State, id: Id, ok: bool, n: nat) returns (t: State)
    requires Reaches(start, s) && RoomToSend(s) && s.phase == Filling(n) && n < s.size && id !in s.created
    ensures Reaches(start, t) && t.phase == Filling(n + 1) && t.takers == s.takers && |s.warm| < s.size
    ensures t.size == s.size && t.refill == s.refill && t.warm == if ok then s.warm + [id] else s.warm
    ensures t.created == if ok then s.created + {id} else s.created
  {
    hide Reaches;
    ReachesOn(start, s, FillTest);
    SpawnSteps(start, Apply(s, FillTest), id, ok);
    t := Spawned(Apply(s, FillTest), id, ok);
  }

  lemma FillEnds(start: State, s: State, ids: seq<Id>, ok: seq<bool>) returns (t: State)
    requires FillingUp(start, s, ids, ok, s.size) && s.size == |ids|
    ensures Reaches(start, t) && t.phase.Idle? && Fits(s.size, s.warm, s.refill, t)
    ensures s.warm == start.warm + Made(ids, ok)
  {
    assert ids[..|ids|] == ids && ok[..|ok|] == ok;
    ReachesOn(start, s, FillTest);
    t := Apply(s, FillTest);
    FitsReached(start, t);
  }
}

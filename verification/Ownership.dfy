/** Who owns which guest address: FirecrackerManager (internal/firecracker/manager.go) as a
    transition system.

    A step is one lock-protected section of a method, or one step outside the lock that can
    fail.  Operations of any number of callers interleave freely; each has a handle `o` and a
    program point `Op`.  The failure choices are part of the events, so a run is a sequence of
    events and `Apply` is a function. */
module Ownership {
  import opened Options
  import opened Network

  /** An entry of `running`; `lease` is the allocation its guest address came from. */
  datatype Vm = Vm(proc: nat, lease: Option<nat>)

  datatype Op =
    | Prepared(id: string)                                        // create: rootfs copied
    | Booting(id: string, lease: Option<nat>)                     // create: tap and address taken
    | Configuring(id: string, lease: Option<nat>, proc: nat)      // create: API socket is up
    | RollingBack(id: string, lease: Option<nat>, cleaned: bool)  // create: process and rootfs gone
    | Killing(id: string, lease: Option<nat>)                     // kill: entry removed
    | Sweeping(id: string)                                        // kill: tap released
    | Pausing(id: string, vm: Vm)                                 // pause: entry looked up
    | Resuming(id: string)                                        // resume: manifest read
  {
    /** The allocation this operation itself still has to hand on or give back. */
    function Held(): Option<nat>
    {
      match this
      case Booting(_, lease) => lease
      case Configuring(_, lease, _) => lease
      case RollingBack(_, lease, _) => lease
      case Killing(_, lease) => lease
      case _ => None
    }

    predicate Creating() { Prepared? || Booting? || Configuring? }
  }

  datatype Event =
    | BeginCreate(o: nat, id: string, copied: bool)
    | TakeAddress(o: nat)
    | NoNetwork(o: nat)
    | TapFails(o: nat, cleaned: bool)
    | SocketUp(o: nat)
    | BootFails(o: nat, cleaned: bool)
    | Ready(o: nat)
    | ApiFails(o: nat, cleaned: bool)
    | RollbackDone(o: nat)
    | ProcessExits(id: string, proc: nat)
    | BeginKill(o: nat, id: string)
    | KillReleases(o: nat)
    | KillDone(o: nat, cleaned: bool)
    | BeginPause(o: nat, id: string)
    | PauseFails(o: nat)
    | PauseDone(o: nat)
    | BeginResume(o: nat, id: string)
    | ResumeFails(o: nat)
    | ResumeDone(o: nat)
    | Adopt(id: string, placeholder: string)

  /** `files` holds the IDs with a rootfs copy.  `abandoned` collects allocations nobody will
      give back any more, `suspended` those a paused guest still has configured, and
      `doubleFrees` counts releases of an allocation that was released before. */
  datatype State = State(
    ledger: Ledger,
    running: map<string, Vm>,
    ops: map<nat, Op>,
    files: set<string>,
    watched: set<(string, nat)>,
    nextProc: nat,
    abandoned: set<nat>,
    suspended: set<nat>,
    doubleFrees: nat)

  function Init(base: IPv4): State
  {
    State(Fresh(base), map[], map[], {}, {}, 0, {}, {}, 0)
  }

  function Just(lease: Option<nat>): set<nat>
  {
    if lease.Some? then {lease.value} else {}
  }

  /** The lease that disappears from the table when the entry of `id` is dropped. */
  function Dropped(s: State, id: string): set<nat>
  {
    if id in s.running then Just(s.running[id].lease) else {}
  }

  /** `releaseIP` never checks whether the address is outstanding. */
  function GiveBack(s: State, lease: Option<nat>): State
  {
    if lease.Some? && lease.value < |s.ledger.issued| then
      var t := lease.value;
      var l := s.ledger;
      s.(ledger := l.(net := l.net.Released(l.issued[t]), freed := l.freed + {t}),
         doubleFrees := if t in l.freed then s.doubleFrees + 1 else s.doubleFrees)
    else s
  }

  predicate Enabled(s: State, e: Event)
  {
    match e
    case BeginCreate(o, _, _) => o !in s.ops
    case TakeAddress(o) => o in s.ops && s.ops[o].Prepared?
    case NoNetwork(o) => o in s.ops && s.ops[o].Prepared?
    case TapFails(o, _) => o in s.ops && s.ops[o].Prepared?
    case SocketUp(o) => o in s.ops && s.ops[o].Booting?
    case BootFails(o, _) => o in s.ops && s.ops[o].Booting?
    case Ready(o) => o in s.ops && s.ops[o].Configuring?
    case ApiFails(o, _) => o in s.ops && s.ops[o].Configuring?
    case RollbackDone(o) => o in s.ops && s.ops[o].RollingBack?
    case ProcessExits(id, proc) => (id, proc) in s.watched
    case BeginKill(o, id) => o !in s.ops && id in s.running
    case KillReleases(o) => o in s.ops && s.ops[o].Killing?
    case KillDone(o, _) => o in s.ops && s.ops[o].Sweeping?
    case BeginPause(o, id) => o !in s.ops && id in s.running
    case PauseFails(o) => o in s.ops && s.ops[o].Pausing?
    case PauseDone(o) => o in s.ops && s.ops[o].Pausing?
    case BeginResume(o, _) => o !in s.ops
    case ResumeFails(o) => o in s.ops && s.ops[o].Resuming?
    case ResumeDone(o) => o in s.ops && s.ops[o].Resuming?
    case Adopt(_, placeholder) => placeholder in s.running
  }

  function Sweep(files: set<string>, id: string, cleaned: bool): set<string>
  {
    if cleaned then files - {id} else files
  }

  function Apply(s: State, e: Event): State
    requires Enabled(s, e)
  {
    match e
    case BeginCreate(o, id, copied) =>
      if copied then s.(ops := s.ops[o := Prepared(id)], files := s.files + {id}) else s
    case TakeAddress(o) =>
      var op := Booting(s.ops[o].id, Some(|s.ledger.issued|));
      s.(ledger := Issue(s.ledger), ops := s.ops[o := op])
    case NoNetwork(o) =>
      s.(ops := s.ops[o := Booting(s.ops[o].id, None)])
    case TapFails(o, cleaned) =>
      s.(ops := s.ops - {o}, files := Sweep(s.files, s.ops[o].id, cleaned))
    case SocketUp(o) =>
      s.(ops := s.ops[o := Configuring(s.ops[o].id, s.ops[o].lease, s.nextProc)], nextProc := s.nextProc + 1)
    case BootFails(o, cleaned) =>  // spawn or socket failure: the address is not released
      s.(ops := s.ops - {o}, files := Sweep(s.files, s.ops[o].id, cleaned),
         abandoned := s.abandoned + Just(s.ops[o].lease))
    case Ready(o) =>
      var op := s.ops[o];
      s.(running := s.running[op.id := Vm(op.proc, op.lease)], ops := s.ops - {o},
         watched := s.watched + {(op.id, op.proc)}, abandoned := s.abandoned + Dropped(s, op.id))
    case ApiFails(o, cleaned) =>
      s.(ops := s.ops[o := RollingBack(s.ops[o].id, s.ops[o].lease, cleaned)],
         files := Sweep(s.files, s.ops[o].id, cleaned))
    case RollbackDone(o) =>
      GiveBack(s, s.ops[o].lease).(ops := s.ops - {o})
    case ProcessExits(id, proc) =>
      var t := s.(watched := s.watched - {(id, proc)});
      if id in s.running && s.running[id].proc == proc then
        t.(running := s.running - {id}, abandoned := s.abandoned + Dropped(s, id))
      else t
    case BeginKill(o, id) =>
      s.(running := s.running - {id}, ops := s.ops[o := Killing(id, s.running[id].lease)])
    case KillReleases(o) =>
      GiveBack(s, s.ops[o].lease).(ops := s.ops[o := Sweeping(s.ops[o].id)])
    case KillDone(o, cleaned) =>
      s.(ops := s.ops - {o}, files := Sweep(s.files, s.ops[o].id, cleaned))
    case BeginPause(o, id) =>
      s.(ops := s.ops[o := Pausing(id, s.running[id])])
    case PauseFails(o) =>
      s.(ops := s.ops - {o})
    case PauseDone(o) =>
      var op := s.ops[o];
      s.(running := s.running - {op.id}, ops := s.ops - {o},
         abandoned := s.abandoned + Dropped(s, op.id), suspended := s.suspended + Just(op.vm.lease))
    case BeginResume(o, id) =>
      s.(ops := s.ops[o := Resuming(id)])
    case ResumeFails(o) =>
      s.(ops := s.ops - {o})
    case ResumeDone(o) =>  // the instance is rebuilt without its address, and without a watcher
      s.(running := s.running[s.ops[o].id := Vm(s.nextProc, None)], ops := s.ops - {o},
         nextProc := s.nextProc + 1, abandoned := s.abandoned + Dropped(s, s.ops[o].id))
    case Adopt(id, placeholder) =>
      var vm := s.running[placeholder];
      s.(running := (s.running - {placeholder})[id := vm],
         abandoned := s.abandoned + if id == placeholder then {} else Dropped(s, id))
  }

  predicate Possible(s: State, es: seq<Event>)
    decreases |es|
  {
    es != [] ==> Enabled(s, es[0]) && Possible(Apply(s, es[0]), es[1..])
  }

  function After(s: State, es: seq<Event>): State
    requires Possible(s, es)
    decreases |es|
  {
    if es == [] then s else After(Apply(s, es[0]), es[1..])
  }

  // ---- Ownership: an invariant of every interleaving ----

  /** Allocated, not given back, and not abandoned. */
  ghost predicate Live(s: State, t: nat)
  {
    s.ledger.Outstanding(t) && t !in s.abandoned
  }

  ghost predicate InTable(s: State, t: nat)
  {
    exists id :: id in s.running && s.running[id].lease == Some(t)
  }

  ghost predicate InHand(s: State, t: nat)
  {
    exists o :: o in s.ops && s.ops[o].Held() == Some(t)
  }

  ghost predicate TableOwns(s: State)
  {
    && (forall id :: id in s.running && s.running[id].lease.Some? ==> Live(s, s.running[id].lease.value))
    && (forall x, y :: x in s.running && y in s.running && x != y && s.running[x].lease.Some? ==>
         s.running[x].lease != s.running[y].lease)
  }

  ghost predicate OpsOwn(s: State)
  {
    && (forall o :: o in s.ops && s.ops[o].Held().Some? ==> Live(s, s.ops[o].Held().value))
    && (forall o, p :: o in s.ops && p in s.ops && o != p && s.ops[o].Held().Some? ==>
         s.ops[o].Held() != s.ops[p].Held())
    && OpsApartFromTable(s)
  }

  ghost predicate OpsApartFromTable(s: State)
  {
    (forall o, id :: o in s.ops && id in s.running && s.ops[o].Held().Some? ==>
         s.ops[o].Held() != s.running[id].lease)
  }

  ghost predicate AllAccounted(s: State)
  {
    && (forall t :: t in s.abandoned ==> s.ledger.Outstanding(t))
    && (forall t :: 0 <= t < |s.ledger.issued| && Live(s, t) ==> InTable(s, t) || InHand(s, t))
  }

  /** Every allocation has exactly one of: an entry of the table, an operation under way, the
      free list, the abandoned ones. */
  ghost predicate Owned(s: State)
  {
    && Books(s.ledger)
    && s.doubleFrees == 0
    && TableOwns(s)
    && OpsOwn(s)
    && AllAccounted(s)
  }

  /** What a step does to the ledger. */
  function LedgerEvent(s: State, e: Event): Option<Network.Event>
    requires Enabled(s, e)
  {
    match e
    case TakeAddress(_) => Some(Allocate)
    case RollbackDone(o) => if s.ops[o].lease.Some? then Some(Free(s.ops[o].lease.value)) else None
    case KillReleases(o) => if s.ops[o].lease.Some? then Some(Free(s.ops[o].lease.value)) else None
    case _ => None
  }

  lemma LedgerMoves(s: State, e: Event)
    requires OpsOwn(s) && Enabled(s, e)
    ensures match LedgerEvent(s, e)
            case None => Apply(s, e).ledger == s.ledger && Apply(s, e).doubleFrees == s.doubleFrees
            case Some(le) =>
              && Legal(s.ledger, le) && Apply(s, e).ledger == Network.Apply(s.ledger, le)
              && Apply(s, e).doubleFrees == s.doubleFrees
  {
    hide Issue, OpsApartFromTable;
    if (e.RollbackDone? || e.KillReleases?) && s.ops[e.o].Held().Some? {
      assert Live(s, s.ops[e.o].Held().value);
    }
  }

  lemma BooksKeptBy(s: State, e: Event)
    requires Owned(s) && Enabled(s, e)
    ensures Books(Apply(s, e).ledger) && Apply(s, e).doubleFrees == 0
    ensures s.ledger.peak <= Apply(s, e).ledger.peak
  {
    LedgerMoves(s, e);
    hide Books, Apply, Network.Apply;
    if LedgerEvent(s, e).Some? { BooksKept(s.ledger, LedgerEvent(s, e).value); }
  }

  /** The next allocation number is in no list yet. */
  lemma NextIsUnused(s: State)
    requires Owned(s)
    ensures |s.ledger.issued| !in s.ledger.freed && |s.ledger.issued| !in s.abandoned
    ensures forall o :: o in s.ops && s.ops[o].Held().Some? ==> s.ops[o].Held().value < |s.ledger.issued|
  {}

  lemma TableBelowNext(s: State)
    requires Owned(s)
    ensures forall id :: id in s.running && s.running[id].lease.Some? ==> s.running[id].lease.value < |s.ledger.issued|
  {}

  /** This step ends the life of allocation `t`: it is given back or abandoned. */
  predicate Gone(s: State, e: Event, t: nat)
    requires Enabled(s, e)
  {
    match e
    case RollbackDone(o) => s.ops[o].Held() == Some(t)
    case KillReleases(o) => s.ops[o].Held() == Some(t)
    case BootFails(o, _) => s.ops[o].Held() == Some(t)
    case Ready(o) => t in Dropped(s, s.ops[o].id)
    case ProcessExits(id, proc) => t in Dropped(s, id) && s.running[id].proc == proc
    case PauseDone(o) => t in Dropped(s, s.ops[o].id)
    case ResumeDone(o) => t in Dropped(s, s.ops[o].id)
    case Adopt(id, placeholder) => id != placeholder && t in Dropped(s, id)
    case _ => false
  }

  lemma LiveAfter(s: State, e: Event, t: nat)
    requires Enabled(s, e) && Live(s, t)
    ensures Live(Apply(s, e), t) || Gone(s, e, t)
  {
    hide OffsetIP;
  }

  /** Where what an operation holds after a step comes from. */
  lemma HeldAfter(s: State, e: Event, o: nat)
    requires Enabled(s, e) && o in Apply(s, e).ops && Apply(s, e).ops[o].Held().Some?
    ensures var h := Apply(s, e).ops[o].Held();
            || (o in s.ops && h == s.ops[o].Held()
                && !((e.RollbackDone? || e.KillReleases? || e.BootFails? || e.Ready?) && e.o == o))
            || (e == TakeAddress(o) && h == Some(|s.ledger.issued|))
            || (e.BeginKill? && e.o == o && h == s.running[e.id].lease)
  {
    hide Issue, GiveBack;
  }

  /** Where the lease of a table entry after a step comes from. */
  lemma LeaseAfter(s: State, e: Event, x: string)
    requires Enabled(s, e) && x in Apply(s, e).running && Apply(s, e).running[x].lease.Some?
    ensures var l := Apply(s, e).running[x].lease;
            || (x in s.running && l == s.running[x].lease && Stays(s, e, x))
            || (e.Ready? && x == s.ops[e.o].id && l == s.ops[e.o].Held())
            || (e.Adopt? && x == e.id && l == s.running[e.placeholder].lease)
  {
    hide Issue;
  }

  /** The step leaves the entry of `x` as it is. */
  predicate Stays(s: State, e: Event, x: string)
    requires Enabled(s, e)
  {
    match e
    case Ready(o) => s.ops[o].id != x
    case ProcessExits(id, proc) => id != x || (x in s.running && s.running[x].proc != proc)
    case BeginKill(_, id) => id != x
    case PauseDone(o) => s.ops[o].id != x
    case ResumeDone(o) => s.ops[o].id != x
    case Adopt(id, placeholder) => id != x && placeholder != x
    case _ => true
  }

  lemma TakenIsLive(s: State, o: nat)
    requires Enabled(s, TakeAddress(o)) && |s.ledger.issued| !in s.ledger.freed && |s.ledger.issued| !in s.abandoned
    ensures Live(Apply(s, TakeAddress(o)), |s.ledger.issued|)
  {
    hide OffsetIP;
  }

  lemma TableLiveKeptBy(s: State, e: Event, id: string)
    requires Owned(s) && Enabled(s, e)
    requires id in Apply(s, e).running && Apply(s, e).running[id].lease.Some?
    ensures Live(Apply(s, e), Apply(s, e).running[id].lease.value)
  {
    hide Apply, Books, AllAccounted, Live;
    LeaseAfter(s, e, id);
    LiveAfter(s, e, Apply(s, e).running[id].lease.value);
  }

  lemma TableApartKeptBy(s: State, e: Event, x: string, y: string)
    requires Owned(s) && Enabled(s, e) && x != y
    requires x in Apply(s, e).running && y in Apply(s, e).running && Apply(s, e).running[x].lease.Some?
    ensures Apply(s, e).running[x].lease != Apply(s, e).running[y].lease
  {
    LeaseAfter(s, e, x);
    if Apply(s, e).running[y].lease.Some? { LeaseAfter(s, e, y); }
    hide Apply, Enabled, Books, AllAccounted, Live;
  }

  lemma TableKeptBy(s: State, e: Event)
    requires Owned(s) && Enabled(s, e)
    ensures TableOwns(Apply(s, e))
  {
    hide Owned, Apply, Enabled, Live;
    var s' := Apply(s, e);
    forall id | id in s'.running && s'.running[id].lease.Some? ensures Live(s', s'.running[id].lease.value) {
      TableLiveKeptBy(s, e, id);
    }
    forall x, y | x in s'.running && y in s'.running && x != y && s'.running[x].lease.Some?
      ensures s'.running[x].lease != s'.running[y].lease
    {
      TableApartKeptBy(s, e, x, y);
    }
  }

  lemma OpsLiveKeptBy(s: State, e: Event, o: nat)
    requires Owned(s) && Enabled(s, e)
    requires o in Apply(s, e).ops && Apply(s, e).ops[o].Held().Some?
    ensures Live(Apply(s, e), Apply(s, e).ops[o].Held().value)
  {
    NextIsUnused(s);
    HeldAfter(s, e, o);
    if e == TakeAddress(o) { TakenIsLive(s, o); }
    hide Apply, Enabled, Books, AllAccounted, Live;
    var t := Apply(s, e).ops[o].Held().value;
    if t != |s.ledger.issued| { LiveAfter(s, e, t); }
  }

  lemma OpsApartKeptBy(s: State, e: Event, o: nat, id: string)
    requires Owned(s) && Enabled(s, e)
    requires o in Apply(s, e).ops && id in Apply(s, e).running && Apply(s, e).ops[o].Held().Some?
    ensures Apply(s, e).ops[o].Held() != Apply(s, e).running[id].lease
  {
    NextIsUnused(s);
    TableBelowNext(s);
    HeldAfter(s, e, o);
    if Apply(s, e).running[id].lease.Some? { LeaseAfter(s, e, id); }
    hide Apply, Enabled, Books, AllAccounted, Live;
  }

  lemma OpsDistinctKeptBy(s: State, e: Event, o: nat, p: nat)
    requires Owned(s) && Enabled(s, e) && o != p
    requires o in Apply(s, e).ops && p in Apply(s, e).ops && Apply(s, e).ops[o].Held().Some?
    ensures Apply(s, e).ops[o].Held() != Apply(s, e).ops[p].Held()
  {
    NextIsUnused(s);
    TableBelowNext(s);
    HeldAfter(s, e, o);
    if Apply(s, e).ops[p].Held().Some? { HeldAfter(s, e, p); }
    hide Apply, Enabled, Books, AllAccounted, Live;
  }

  lemma OpsKeptBy(s: State, e: Event)
    requires Owned(s) && Enabled(s, e)
    ensures OpsOwn(Apply(s, e))
  {
    hide Owned, Apply, Enabled, Live;
    var s' := Apply(s, e);
    forall o | o in s'.ops && s'.ops[o].Held().Some? ensures Live(s', s'.ops[o].Held().value) {
      OpsLiveKeptBy(s, e, o);
    }
    forall o, p | o in s'.ops && p in s'.ops && o != p && s'.ops[o].Held().Some?
      ensures s'.ops[o].Held() != s'.ops[p].Held()
    {
      OpsDistinctKeptBy(s, e, o, p);
    }
    forall o, id | o in s'.ops && id in s'.running && s'.ops[o].Held().Some?
      ensures s'.ops[o].Held() != s'.running[id].lease
    {
      OpsApartKeptBy(s, e, o, id);
    }
  }

  lemma AbandonedAfter(s: State, e: Event, t: nat)
    requires Enabled(s, e) && t in Apply(s, e).abandoned
    ensures t in s.abandoned || (Gone(s, e, t) && !e.RollbackDone? && !e.KillReleases?)
  {
    hide OffsetIP, Issue;
  }

  lemma OutstandingAfter(s: State, e: Event, t: nat)
    requires Enabled(s, e) && s.ledger.Outstanding(t)
    ensures Apply(s, e).ledger.Outstanding(t)
            || ((e.RollbackDone? || e.KillReleases?) && s.ops[e.o].Held() == Some(t))
  {
    hide OffsetIP;
  }

  lemma AbandonedKeptBy(s: State, e: Event, t: nat)
    requires Owned(s) && Enabled(s, e) && t in Apply(s, e).abandoned
    ensures Apply(s, e).ledger.Outstanding(t)
  {
    hide Books, InTable, InHand, Apply;
    AbandonedAfter(s, e, t);
    OutstandingAfter(s, e, t);
  }

  lemma TableLeaseStays(s: State, e: Event, id: string, t: nat)
    requires Owned(s) && Enabled(s, e) && id in s.running && s.running[id].lease == Some(t)
    requires Live(Apply(s, e), t)
    ensures InTable(Apply(s, e), t) || InHand(Apply(s, e), t)
  {
    hide Books, OpsOwn, TableOwns, AllAccounted;
    var s' := Apply(s, e);
    if e.BeginKill? && e.id == id {
      assert s'.ops[e.o].Held() == Some(t);
    } else {
      var now := if e.Adopt? && e.placeholder == id then e.id else id;
      assert now in s'.running && s'.running[now].lease == Some(t);
    }
  }

  lemma OpLeaseStays(s: State, e: Event, o: nat, t: nat)
    requires Owned(s) && Enabled(s, e) && o in s.ops && s.ops[o].Held() == Some(t)
    requires Live(Apply(s, e), t)
    ensures InTable(Apply(s, e), t) || InHand(Apply(s, e), t)
  {
    hide Books, TableOwns, AllAccounted, OpsOwn, Issue;
    var s' := Apply(s, e);
    if e == Ready(o) {
      var id := s.ops[o].id;
      assert id in s'.running && s'.running[id].lease == Some(t);
    } else {
      assert o in s'.ops && s'.ops[o].Held() == Some(t);
    }
  }

  lemma AccountsKeptBy(s: State, e: Event)
    requires Owned(s) && Enabled(s, e)
    ensures AllAccounted(Apply(s, e))
  {
    var s' := Apply(s, e);
    forall t | t in s'.abandoned ensures s'.ledger.Outstanding(t) {
      AbandonedKeptBy(s, e, t);
    }
    forall t | 0 <= t < |s'.ledger.issued| && Live(s', t) ensures InTable(s', t) || InHand(s', t) {
      LiveBefore(s, e, t);
      if t == |s.ledger.issued| {
        assert s'.ops[e.o].Held() == Some(t);
      } else if InTable(s, t) {
        var id :| id in s.running && s.running[id].lease == Some(t);
        TableLeaseStays(s, e, id, t);
      } else {
        var o :| o in s.ops && s.ops[o].Held() == Some(t);
        OpLeaseStays(s, e, o, t);
      }
    }
  }

  lemma LiveBefore(s: State, e: Event, t: nat)
    requires Owned(s) && Enabled(s, e) && Live(Apply(s, e), t)
    ensures (t == |s.ledger.issued| && e.TakeAddress?) || Live(s, t)
  {
    hide Books, InTable, InHand;
  }

  lemma OwnedKept(s: State, e: Event)
    requires Owned(s) && Enabled(s, e)
    ensures Owned(Apply(s, e))
  {
    hide Books, TableOwns, OpsOwn, AllAccounted;
    BooksKeptBy(s, e);
    TableKeptBy(s, e);
    OpsKeptBy(s, e);
    AccountsKeptBy(s, e);
  }

  lemma {:induction false} OwnedAlways(s: State, es: seq<Event>)
    requires Owned(s) && Possible(s, es)
    ensures Owned(After(s, es))
    decreases |es|
  {
    if es != [] {
      OwnedKept(s, es[0]);
      OwnedAlways(Apply(s, es[0]), es[1..]);
    }
  }

  lemma InitOwned(base: IPv4)
    ensures Owned(Init(base))
  {}

  /** While at most 256 allocations are outstanding at once: no two of the tracked machines and
      the creations, rollbacks and kills under way share an address, and none of their addresses
      is on the free list.  No allocation is ever released twice, however many there are. */
  lemma AddressesNeverShared(base: IPv4, es: seq<Event>)
    requires Possible(Init(base), es)
    ensures var s := After(Init(base), es);
            && s.doubleFrees == 0
            && (s.ledger.peak <= 256 ==>
                 && (forall x, y :: x in s.running && y in s.running && x != y ==>
                      !Clash(s, s.running[x].lease, s.running[y].lease))
                 && (forall o, p :: o in s.ops && p in s.ops && o != p ==>
                      !Clash(s, s.ops[o].Held(), s.ops[p].Held()))
                 && (forall o, x :: o in s.ops && x in s.running ==>
                      !Clash(s, s.ops[o].Held(), s.running[x].lease))
                 && (forall x :: x in s.running ==> !Reusable(s, s.running[x].lease))
                 && (forall o :: o in s.ops ==> !Reusable(s, s.ops[o].Held())))
  {
    InitOwned(base);
    OwnedAlways(Init(base), es);
    var s := After(Init(base), es);
    hide OffsetIP, IpOffset, Complete, LowBytes, Possible, After;
  }

  /** Both leases stand for the same address. */
  ghost predicate Clash(s: State, x: Option<nat>, y: Option<nat>)
  {
    && x.Some? && y.Some? && x.value < |s.ledger.issued| && y.value < |s.ledger.issued|
    && s.ledger.issued[x.value] == s.ledger.issued[y.value]
  }

  /** The address of this lease could be handed out again. */
  ghost predicate Reusable(s: State, x: Option<nat>)
  {
    x.Some? && x.value < |s.ledger.issued| && s.ledger.Offset(x.value) in s.ledger.net.released
  }

  // ---- Which addresses can be given again ----

  /** The address of allocation `t` has been given out again since. */
  ghost predicate GivenAgain(s: State, t: nat)
    requires t < |s.ledger.issued|
  {
    exists u :: t < u < |s.ledger.issued| && s.ledger.issued[u] == s.ledger.issued[t]
  }

  /** Some run from here gives it out again, with at most 256 addresses outstanding throughout. */
  ghost predicate CanBeGivenAgain(s: State, t: nat)
  {
    exists more :: Possible(s, more) && EndsGiven(After(s, more), t)
  }

  ghost predicate EndsGiven(s: State, t: nat)
  {
    t < |s.ledger.issued| && s.ledger.peak <= 256 && GivenAgain(s, t)
  }

  /** Whoever had an address before has given it back. */
  ghost predicate OneHolder(l: Ledger)
  {
    forall x, y :: 0 <= x < y < |l.issued| && l.issued[x] == l.issued[y] ==> x in l.freed
  }

  lemma OneHolderKept(l: Ledger, e: Network.Event)
    requires Books(l) && OneHolder(l) && Legal(l, e) && Network.Apply(l, e).peak <= 256
    ensures OneHolder(Network.Apply(l, e))
  {
    var m, n := Network.Apply(l, e), |l.issued|;
    BooksKept(l, e);
    if e.Allocate? {
      forall x | 0 <= x < n && m.issued[x] == m.issued[n] ensures x in m.freed {
        assert m.Offset(x) == m.Offset(n);
        assert m.Outstanding(n);
      }
      hide OffsetIP, IpOffset, Books;
    }
  }

  ghost predicate Few(s: State)
  {
    s.ledger.peak <= 256 ==> OneHolder(s.ledger)
  }

  lemma FewKept(s: State, e: Event)
    requires Owned(s) && Few(s) && Enabled(s, e)
    ensures Few(Apply(s, e))
  {
    LedgerMoves(s, e);
    BooksKeptBy(s, e);
    hide Apply, Network.Apply, OneHolder, Books;
    if LedgerEvent(s, e).Some? && Apply(s, e).ledger.peak <= 256 {
      OneHolderKept(s.ledger, LedgerEvent(s, e).value);
    }
  }

  lemma {:induction false} FewAlways(s: State, es: seq<Event>)
    requires Owned(s) && Few(s) && Possible(s, es)
    ensures Owned(After(s, es)) && Few(After(s, es)) && s.abandoned <= After(s, es).abandoned
    ensures s.ledger.issued <= After(s, es).ledger.issued
    decreases |es|
  {
    if es != [] {
      OwnedKept(s, es[0]);
      FewKept(s, es[0]);
      RecordsGrow(s, es[0]);
      hide Apply, Enabled, Owned, Few;
      FewAlways(Apply(s, es[0]), es[1..]);
    }
  }

  lemma RecordsGrow(s: State, e: Event)
    requires Enabled(s, e)
    ensures s.abandoned <= Apply(s, e).abandoned && s.ledger.issued <= Apply(s, e).ledger.issued
  {
    hide OffsetIP;
  }

  lemma StepFirst(s: State, e: Event, t: nat)
    requires Enabled(s, e) && CanBeGivenAgain(Apply(s, e), t)
    ensures CanBeGivenAgain(s, t)
  {
    var more :| Possible(Apply(s, e), more) && EndsGiven(After(Apply(s, e), more), t);
    hide Apply, Enabled;
    assert ([e] + more)[0] == e && ([e] + more)[1..] == more;
    assert Possible(s, [e] + more) && After(s, [e] + more) == After(Apply(s, e), more);
  }

  lemma GivenNow(s: State, t: nat)
    requires EndsGiven(s, t)
    ensures CanBeGivenAgain(s, t)
  {
    assert Possible(s, []) && After(s, []) == s;
  }

  lemma UnusedHandle(s: State) returns (o: nat)
    ensures o !in s.ops
  {
    o := AboveAll(s.ops.Keys);
  }

  lemma AboveAll(keys: set<nat>) returns (o: nat)
    ensures forall k :: k in keys ==> k < o
  {
    o := 0;
    if k :| k in keys {
      var above := AboveAll(keys - {k});
      o := if above > k then above else k + 1;
      assert forall x :: x in keys ==> x == k || x in keys - {k};
    }
  }

  /** A released allocation: its address waits on the free list, and creations reach it from the
      end - if it has not been given out again already. */
  lemma {:induction false} FreedCanBeGivenAgain(s: State, t: nat)
    requires Owned(s) && Few(s) && s.ledger.peak <= 256 && t < |s.ledger.issued| && t in s.ledger.freed
    ensures CanBeGivenAgain(s, t)
    decreases |s.ledger.net.released|
  {
    if GivenAgain(s, t) {
      GivenNow(s, t);
    } else {
      WaitsOnFreeList(s, t);
      var o := UnusedHandle(s);
      var s1 := Apply(s, BeginCreate(o, "", true));
      var s2 := Apply(s1, TakeAddress(o));
      var s3 := Apply(s2, BootFails(o, true));
      PoppedByCreation(s, t, o);
      OwnedKept(s, BeginCreate(o, "", true));
      FewKept(s, BeginCreate(o, "", true));
      OwnedKept(s1, TakeAddress(o));
      FewKept(s1, TakeAddress(o));
      OwnedKept(s2, BootFails(o, true));
      FewKept(s2, BootFails(o, true));
      hide Apply, Enabled, Owned, Few, CanBeGivenAgain, GivenAgain, EndsGiven;
      if EndsGiven(s2, t) {
        GivenNow(s2, t);
      } else {
        FreedCanBeGivenAgain(s3, t);
        StepFirst(s2, BootFails(o, true), t);
      }
      StepFirst(s1, TakeAddress(o), t);
      StepFirst(s, BeginCreate(o, "", true), t);
    }
  }

  lemma WaitsOnFreeList(s: State, t: nat)
    requires Books(s.ledger) && OneHolder(s.ledger) && t < |s.ledger.issued| && t in s.ledger.freed && !GivenAgain(s, t)
    ensures s.ledger.Offset(t) in s.ledger.net.released
  {
    var l := s.ledger;
    var b := l.Offset(t);
    assert Placed(l, b);
    assert forall u: nat :: u < |l.issued| && l.Offset(u) == b ==> l.issued[u] == l.issued[t];
    hide OffsetIP, IpOffset;
  }

  /** A creation that fails to boot takes the last entry of the free list away, or gives it out. */
  lemma PoppedByCreation(s: State, t: nat, o: nat)
    requires Books(s.ledger) && s.ledger.peak <= 256 && o !in s.ops
    requires t < |s.ledger.issued| && t in s.ledger.freed && s.ledger.Offset(t) in s.ledger.net.released
    ensures Enabled(s, BeginCreate(o, "", true))
    ensures Enabled(Apply(s, BeginCreate(o, "", true)), TakeAddress(o))
    ensures var s2 := Apply(Apply(s, BeginCreate(o, "", true)), TakeAddress(o));
            && Enabled(s2, BootFails(o, true))
            && var s3 := Apply(s2, BootFails(o, true));
               && s3.ledger == s2.ledger == Issue(s.ledger)
               && s3.ledger.peak <= 256 && t < |s3.ledger.issued| && t in s3.ledger.freed
               && |s3.ledger.net.released| < |s.ledger.net.released|
  {
    hide OffsetIP, IpOffset;
  }

  /** An allocation that is neither released nor abandoned can be released. */
  lemma LiveCanBeGivenAgain(s: State, t: nat)
    requires Owned(s) && Few(s) && s.ledger.peak <= 256 && Live(s, t)
    ensures CanBeGivenAgain(s, t)
  {
    if InHand(s, t) {
      var o :| o in s.ops && s.ops[o].Held() == Some(t);
      HeldCanBeGivenAgain(s, t, o);
    } else {
      var id :| id in s.running && s.running[id].lease == Some(t);
      var o := UnusedHandle(s);
      var e := BeginKill(o, id);
      OwnedKept(s, e);
      FewKept(s, e);
      assert Apply(s, e).ledger == s.ledger && Apply(s, e).ops[o] == Killing(id, Some(t));
      HeldCanBeGivenAgain(Apply(s, e), t, o);
      StepFirst(s, e, t);
    }
  }

  /** The way of an operation to the step that gives its allocation back. */
  function NextStep(s: State, o: nat): Event
    requires o in s.ops && s.ops[o].Held().Some?
  {
    match s.ops[o]
    case Booting(_, _) => SocketUp(o)
    case Configuring(_, _, _) => ApiFails(o, true)
    case RollingBack(_, _, _) => RollbackDone(o)
    case Killing(_, _) => KillReleases(o)
  }

  function StepsToGo(op: Op): nat
  {
    match op
    case Booting(_, _) => 3
    case Configuring(_, _, _) => 2
    case _ => 1
  }

  lemma {:induction false} HeldCanBeGivenAgain(s: State, t: nat, o: nat)
    requires Owned(s) && Few(s) && s.ledger.peak <= 256 && t < |s.ledger.issued|
    requires o in s.ops && s.ops[o].Held() == Some(t)
    ensures CanBeGivenAgain(s, t)
    decreases StepsToGo(s.ops[o])
  {
    var e := NextStep(s, o);
    ClosesIn(s, t, o);
    OwnedKept(s, e);
    FewKept(s, e);
    hide Apply, Enabled, Owned, Few, CanBeGivenAgain, NextStep;
    if t in Apply(s, e).ledger.freed {
      FreedCanBeGivenAgain(Apply(s, e), t);
    } else {
      HeldCanBeGivenAgain(Apply(s, e), t, o);
    }
    StepFirst(s, e, t);
  }

  lemma ClosesIn(s: State, t: nat, o: nat)
    requires t < |s.ledger.issued| && o in s.ops && s.ops[o].Held() == Some(t)
    ensures var e := NextStep(s, o);
            && Enabled(s, e)
            && var u := Apply(s, e);
               && u.ledger.peak == s.ledger.peak && |u.ledger.issued| == |s.ledger.issued|
               && (t in u.ledger.freed
                   || (o in u.ops && u.ops[o].Held() == Some(t) && StepsToGo(u.ops[o]) < StepsToGo(s.ops[o])))
  {
    hide OffsetIP, IpOffset;
  }

  /** The exact law: an address can be given to somebody again exactly when its allocation has not
      been abandoned. */
  lemma GivenAgainIff(base: IPv4, es: seq<Event>, t: nat)
    requires Possible(Init(base), es)
    requires After(Init(base), es).ledger.peak <= 256 && t < |After(Init(base), es).ledger.issued|
    ensures var s := After(Init(base), es);
            CanBeGivenAgain(s, t) <==> t !in s.abandoned
  {
    InitOwned(base);
    FewAlways(Init(base), es);
    hide Init;
    AbandonedMeansNever(After(Init(base), es), t);
  }

  lemma AbandonedMeansNever(s: State, t: nat)
    requires Owned(s) && Few(s) && s.ledger.peak <= 256 && t < |s.ledger.issued|
    ensures CanBeGivenAgain(s, t) <==> t !in s.abandoned
  {
    if t !in s.abandoned {
      if t in s.ledger.freed { FreedCanBeGivenAgain(s, t); } else { LiveCanBeGivenAgain(s, t); }
    } else {
      forall more | Possible(s, more) ensures !EndsGiven(After(s, more), t) {
        FewAlways(s, more);
        AbandonedIsKept(After(s, more), t);
      }
    }
  }

  lemma AbandonedIsKept(s: State, t: nat)
    requires AllAccounted(s) && Few(s) && t in s.abandoned
    ensures !EndsGiven(s, t)
  {
    assert s.ledger.Outstanding(t);
  }

  /** This step takes allocation `t` away from whoever has it without giving it back: a process or
      socket failure during a creation, a crash, a pause, an entry overwritten. */
  predicate Loses(s: State, e: Event, t: nat)
    requires Enabled(s, e)
  {
    match e
    case BootFails(o, _) => s.ops[o].lease == Some(t)
    case ProcessExits(id, proc) => id in s.running && s.running[id] == Vm(proc, Some(t))
    case PauseDone(o) => s.ops[o].id in s.running && s.running[s.ops[o].id].lease == Some(t)
    case Ready(o) => s.ops[o].id in s.running && s.running[s.ops[o].id].lease == Some(t)
    case ResumeDone(o) => s.ops[o].id in s.running && s.running[s.ops[o].id].lease == Some(t)
    case Adopt(id, placeholder) => id != placeholder && id in s.running && s.running[id].lease == Some(t)
    case _ => false
  }

  /** From any reachable state, exactly these steps make an address that somebody has unreachable for
      ever; in particular a rollback and a kill give theirs back. */
  lemma LosesAddressIff(base: IPv4, es: seq<Event>, e: Event, t: nat)
    requires Possible(Init(base), es) && Enabled(After(Init(base), es), e) && Live(After(Init(base), es), t)
    requires Apply(After(Init(base), es), e).ledger.peak <= 256
    ensures var s := After(Init(base), es);
            !CanBeGivenAgain(Apply(s, e), t) <==> Loses(s, e, t)
  {
    InitOwned(base);
    FewAlways(Init(base), es);
    var s := After(Init(base), es);
    OwnedKept(s, e);
    FewKept(s, e);
    RecordsGrow(s, e);
    AbandonedByLosing(s, e, t);
    hide Possible, After, Apply, Enabled, Owned, Few, Loses, CanBeGivenAgain;
    AbandonedMeansNever(Apply(s, e), t);
  }

  lemma AbandonedByLosing(s: State, e: Event, t: nat)
    requires Enabled(s, e) && Live(s, t)
    ensures t in Apply(s, e).abandoned <==> Loses(s, e, t)
  {
    hide Issue;
  }

  // ---- Paused guests keep their address ----

  /** A pause that is about to drop its entry finds the machine it has paused - or the lease has
      been abandoned by then.  PauseSandbox does not look. */
  predicate PauseFinds(s: State, o: nat)
    requires o in s.ops && s.ops[o].Pausing?
  {
    var op := s.ops[o];
    op.vm.lease.Some? ==>
      || op.vm.lease.value in s.abandoned
      || (op.id in s.running && s.running[op.id].lease == op.vm.lease)
  }

  /** In every reachable state: once a pause has dropped its entry, the address of the guest it has
      suspended can be given to somebody else exactly when the pause did not find its machine. */
  lemma PauseSetsAsideIff(base: IPv4, es: seq<Event>, o: nat, t: nat)
    requires Possible(Init(base), es) && After(Init(base), es).ledger.peak <= 256
    requires Enabled(After(Init(base), es), PauseDone(o))
    requires After(Init(base), es).ops[o].vm.lease == Some(t)
    ensures var s := After(Init(base), es);
            var u := Apply(s, PauseDone(o));
            && t in u.suspended && t < |u.ledger.issued|
            && (t in u.abandoned <==> PauseFinds(s, o))
            && (CanBeGivenAgain(u, t) <==> !PauseFinds(s, o))
            && (!PauseFinds(s, o) ==> t in u.ledger.freed || InTable(u, t) || InHand(u, t))
  {
    InitOwned(base);
    FewAlways(Init(base), es);
    PausesKnowAlways(Init(base), es);
    var s := After(Init(base), es);
    OwnedKept(s, PauseDone(o));
    FewKept(s, PauseDone(o));
    hide Books, TableOwns, OpsOwn, Possible, After, Few, CanBeGivenAgain, InTable, InHand;
    AbandonedMeansNever(Apply(s, PauseDone(o)), t);
  }

  /** A pause under way holds a lease that was allocated. */
  ghost predicate PausesKnow(s: State)
  {
    forall o :: o in s.ops && s.ops[o].Pausing? && s.ops[o].vm.lease.Some? ==>
      s.ops[o].vm.lease.value < |s.ledger.issued|
  }

  lemma PausesKnowKept(s: State, e: Event)
    requires TableOwns(s) && PausesKnow(s) && Enabled(s, e)
    ensures PausesKnow(Apply(s, e))
  {
    var t := Apply(s, e);
    assert |t.ledger.issued| >= |s.ledger.issued|;
    forall o | o in t.ops && t.ops[o].Pausing? && t.ops[o].vm.lease.Some?
      ensures t.ops[o].vm.lease.value < |t.ledger.issued|
    {
      if e.BeginPause? && e.o == o {
        assert Live(s, s.running[e.id].lease.value);
      } else {
        assert o in s.ops && t.ops[o] == s.ops[o];
      }
    }
  }

  lemma {:induction false} PausesKnowAlways(s: State, es: seq<Event>)
    requires Owned(s) && PausesKnow(s) && Possible(s, es)
    ensures PausesKnow(After(s, es))
    decreases |es|
  {
    if es != [] {
      OwnedKept(s, es[0]);
      PausesKnowKept(s, es[0]);
      PausesKnowAlways(Apply(s, es[0]), es[1..]);
    }
  }

  /** This guest's own pauses find their machine; those of others may miss theirs. */
  predicate Guarded(s: State, e: Event, t: nat)
    requires Enabled(s, e)
  {
    e.PauseDone? && s.ops[e.o].vm.lease == Some(t) ==> PauseFinds(s, e.o)
  }

  ghost predicate GuardedRun(s: State, es: seq<Event>, t: nat)
    decreases |es|
  {
    es != [] ==> Enabled(s, es[0]) && Guarded(s, es[0], t) && GuardedRun(Apply(s, es[0]), es[1..], t)
  }

  lemma SuspendedKept(s: State, e: Event, t: nat)
    requires Enabled(s, e) && Guarded(s, e, t) && (t in s.suspended ==> t in s.abandoned)
    ensures t in Apply(s, e).suspended ==> t in Apply(s, e).abandoned
  {
    hide Issue;
  }

  lemma {:induction false} GuardedAlways(s: State, es: seq<Event>, t: nat)
    requires (t in s.suspended ==> t in s.abandoned) && GuardedRun(s, es, t)
    ensures Possible(s, es) && (t in After(s, es).suspended ==> t in After(s, es).abandoned)
    decreases |es|
  {
    if es != [] {
      SuspendedKept(s, es[0], t);
      GuardedAlways(Apply(s, es[0]), es[1..], t);
    }
  }

  lemma AbandonedIsOutOfReach(s: State, t: nat)
    requires Owned(s) && t in s.abandoned && s.ledger.peak <= 256
    ensures !Reusable(s, Some(t))
    ensures forall x :: x in s.running ==> !Clash(s, s.running[x].lease, Some(t))
    ensures forall o :: o in s.ops ==> !Clash(s, s.ops[o].Held(), Some(t))
  {
    hide OffsetIP, IpOffset, Complete, LowBytes, InTable, InHand;
    assert s.ledger.Outstanding(t);
  }

  /** If the pauses of this guest that drop an entry find its machine, whatever else interleaves -
      also pauses of others that miss theirs: the address the paused (and maybe resumed) guest has
      configured is out of everybody's reach, and is never given to anyone again. */
  lemma SuspendedAddressNeverReissued(base: IPv4, es: seq<Event>, t: nat)
    requires GuardedRun(Init(base), es, t) && Possible(Init(base), es)
    requires t in After(Init(base), es).suspended
    ensures var s := After(Init(base), es);
            && s.ledger.Outstanding(t)
            && (s.ledger.peak <= 256 ==>
                 && !CanBeGivenAgain(s, t)
                 && !Reusable(s, Some(t))
                 && (forall x :: x in s.running ==> !Clash(s, s.running[x].lease, Some(t)))
                 && (forall o :: o in s.ops ==> !Clash(s, s.ops[o].Held(), Some(t))))
  {
    InitOwned(base);
    FewAlways(Init(base), es);
    GuardedAlways(Init(base), es, t);
    var s := After(Init(base), es);
    assert t in s.abandoned && s.ledger.Outstanding(t);
    hide After, GuardedRun, Possible, Clash, Reusable, Books, TableOwns, OpsOwn, Few, CanBeGivenAgain;
    if s.ledger.peak <= 256 {
      AbandonedIsOutOfReach(s, t);
      AbandonedMeansNever(s, t);
    }
  }

  // ---- Whose death is noticed ----

  /** A process is watched from the step that enters its machine into the table, and no two creations
      share one. */
  ghost predicate ProcsApart(s: State)
  {
    && (forall x, p :: (x, p) in s.watched ==> p < s.nextProc)
    && (forall id :: id in s.running ==> s.running[id].proc < s.nextProc)
    && (forall o :: o in s.ops && s.ops[o].Configuring? ==>
         && s.ops[o].proc < s.nextProc
         && (forall x, p :: (x, p) in s.watched ==> p != s.ops[o].proc)
         && (forall id :: id in s.running ==> s.running[id].proc != s.ops[o].proc)
         && (forall q :: q in s.ops && s.ops[q].Configuring? && q != o ==> s.ops[q].proc != s.ops[o].proc))
  }

  lemma WatchedAfter(s: State, e: Event, x: string, p: nat)
    requires Enabled(s, e) && (x, p) in Apply(s, e).watched
    ensures (x, p) in s.watched || (e.Ready? && (x, p) == (s.ops[e.o].id, s.ops[e.o].proc))
  {
    hide Issue;
  }

  lemma TrackedAfter(s: State, e: Event, id: string) returns (x: string)
    requires Enabled(s, e) && id in Apply(s, e).running
    ensures var p := Apply(s, e).running[id].proc;
            || (x in s.running && s.running[x].proc == p)
            || (e.Ready? && p == s.ops[e.o].proc)
            || (e.ResumeDone? && p == s.nextProc < Apply(s, e).nextProc)
  {
    hide Issue;
    x := if e.Adopt? && id == e.id then e.placeholder else id;
  }

  lemma ConfiguringAfter(s: State, e: Event, o: nat)
    requires Enabled(s, e) && o in Apply(s, e).ops && Apply(s, e).ops[o].Configuring?
    ensures || (o in s.ops && s.ops[o] == Apply(s, e).ops[o] && !(e.Ready? && e.o == o) && e != SocketUp(o))
            || (e == SocketUp(o) && Apply(s, e).ops[o].proc == s.nextProc)
  {
    hide Issue, GiveBack;
  }

  lemma NextProcAfter(s: State, e: Event)
    requires Enabled(s, e)
    ensures s.nextProc <= Apply(s, e).nextProc && (e.SocketUp? || e.ResumeDone? ==> s.nextProc < Apply(s, e).nextProc)
  {
    hide Issue;
  }

  lemma ConfiguringApart(s: State, e: Event, o: nat)
    requires ProcsApart(s) && Enabled(s, e) && o in Apply(s, e).ops && Apply(s, e).ops[o].Configuring?
    ensures var t := Apply(s, e);
            && t.ops[o].proc < t.nextProc
            && (forall x, p :: (x, p) in t.watched ==> p != t.ops[o].proc)
            && (forall id :: id in t.running ==> t.running[id].proc != t.ops[o].proc)
            && (forall q :: q in t.ops && t.ops[q].Configuring? && q != o ==> t.ops[q].proc != t.ops[o].proc)
  {
    var t := Apply(s, e);
    hide Apply;
    ConfiguringAfter(s, e, o);
    NextProcAfter(s, e);
    forall x, p | (x, p) in t.watched ensures p != t.ops[o].proc { WatchedAfter(s, e, x, p); }
    forall id | id in t.running ensures t.running[id].proc != t.ops[o].proc { var x := TrackedAfter(s, e, id); }
    forall q | q in t.ops && t.ops[q].Configuring? && q != o ensures t.ops[q].proc != t.ops[o].proc {
      ConfiguringAfter(s, e, q);
    }
  }

  lemma ProcsApartKept(s: State, e: Event)
    requires ProcsApart(s) && Enabled(s, e)
    ensures ProcsApart(Apply(s, e))
  {
    var t := Apply(s, e);
    hide Apply;
    NextProcAfter(s, e);
    forall x, p | (x, p) in t.watched ensures p < t.nextProc { WatchedAfter(s, e, x, p); }
    forall id | id in t.running ensures t.running[id].proc < t.nextProc { var x := TrackedAfter(s, e, id); }
    forall o | o in t.ops && t.ops[o].Configuring?
      ensures t.ops[o].proc < t.nextProc
      ensures forall x, p :: (x, p) in t.watched ==> p != t.ops[o].proc
      ensures forall id :: id in t.running ==> t.running[id].proc != t.ops[o].proc
      ensures forall q :: q in t.ops && t.ops[q].Configuring? && q != o ==> t.ops[q].proc != t.ops[o].proc
    {
      ConfiguringApart(s, e, o);
    }
  }

  lemma {:induction false} ProcsApartAlways(s: State, es: seq<Event>)
    requires ProcsApart(s) && Possible(s, es)
    ensures ProcsApart(After(s, es))
    decreases |es|
  {
    if es != [] {
      ProcsApartKept(s, es[0]);
      ProcsApartAlways(Apply(s, es[0]), es[1..]);
    }
  }

  /** Process `p` will not be watched under `id` any more, whatever happens. */
  ghost predicate Unwatched(s: State, id: string, p: nat)
  {
    && (id, p) !in s.watched && p < s.nextProc
    && forall o :: o in s.ops && s.ops[o].Configuring? ==> s.ops[o].proc != p
  }

  lemma {:induction false} UnwatchedForever(s: State, es: seq<Event>, id: string, p: nat)
    requires Unwatched(s, id, p) && Possible(s, es)
    ensures Unwatched(After(s, es), id, p)
    decreases |es|
  {
    if es != [] {
      UnwatchedStays(s, es[0], id, p);
      UnwatchedForever(Apply(s, es[0]), es[1..], id, p);
    }
  }

  lemma UnwatchedStays(s: State, e: Event, id: string, p: nat)
    requires Unwatched(s, id, p) && Enabled(s, e)
    ensures Unwatched(Apply(s, e), id, p)
  {
    hide Apply;
    var t := Apply(s, e);
    NextProcAfter(s, e);
    if (id, p) in t.watched { WatchedAfter(s, e, id, p); }
    forall o | o in t.ops && t.ops[o].Configuring? ensures t.ops[o].proc != p { ConfiguringAfter(s, e, o); }
  }

  /** The death of its process, wherever it is noticed, removes a machine from the table. */
  ghost predicate DeathUntracks(s: State, id: string)
    requires id in s.running
  {
    exists x :: (x, s.running[id].proc) in s.watched && id !in Apply(s, ProcessExits(x, s.running[id].proc)).running
  }

  /** The death of a machine removes its entry exactly while it is watched under the ID it has; and
      once it is not, it never will be again: over every later run, for as long as this machine is
      tracked under this ID, its death leaves the entry. */
  lemma DeathUntracksIff(base: IPv4, es: seq<Event>, id: string, more: seq<Event>)
    requires Possible(Init(base), es) && id in After(Init(base), es).running
    requires Possible(After(Init(base), es), more)
    ensures var s := After(Init(base), es);
            var p, t := s.running[id].proc, After(s, more);
            && (DeathUntracks(s, id) <==> (id, p) in s.watched)
            && (!DeathUntracks(s, id) && id in t.running && t.running[id].proc == p ==> !DeathUntracks(t, id))
  {
    ProcsApartAlways(Init(base), es);
    var s := After(Init(base), es);
    var p, t := s.running[id].proc, After(s, more);
    WatchedUnderItsId(s, id);
    if id in t.running { WatchedUnderItsId(t, id); }
    if (id, p) !in s.watched { UnwatchedForever(s, more, id, p); }
    hide Possible, After, DeathUntracks;
  }

  lemma WatchedUnderItsId(s: State, id: string)
    requires id in s.running
    ensures DeathUntracks(s, id) <==> (id, s.running[id].proc) in s.watched
  {}

  /** A machine is watched from its creation on. */
  lemma CreatedIsWatched(s: State, o: nat)
    requires Enabled(s, Ready(o))
    ensures var id, t := s.ops[o].id, Apply(s, Ready(o));
            && id in t.running && t.running[id] == Vm(s.ops[o].proc, s.ops[o].lease)
            && DeathUntracks(t, id)
  {
    var id, t := s.ops[o].id, Apply(s, Ready(o));
    assert id !in Apply(t, ProcessExits(id, t.running[id].proc)).running;
  }

  /** Watching begins with the last step of a creation, under the ID and for the process of that
      creation, and ends with that process; no other step begins or ends it. */
  lemma WatchingEndsWithProcess(s: State, e: Event, x: string, p: nat)
    requires Enabled(s, e)
    ensures (x, p) in Apply(s, e).watched <==>
              || ((x, p) in s.watched && e != ProcessExits(x, p))
              || (e.Ready? && s.ops[e.o].id == x && s.ops[e.o].proc == p)
  {
    hide Issue;
  }

  /** A rootfs copy comes only with a creation, and goes only with the clean-up of a failed creation
      or a kill under the same ID - not with a crash, a pause, a resume or an adoption. */
  lemma FileGoesOnlyByCleanup(s: State, e: Event, x: string)
    requires Enabled(s, e)
    ensures x in Apply(s, e).files <==>
            (x in s.files
             && !((e.TapFails? || e.BootFails? || e.ApiFails? || e.KillDone?) && e.cleaned && s.ops[e.o].id == x))
            || (e.BeginCreate? && e.copied && e.id == x)
  {
    hide Issue;
  }

  /** A resumed machine, and one adopted under a new ID, is such a machine. */
  lemma AdoptedOrResumedIsUnwatched(base: IPv4, es: seq<Event>, e: Event)
    requires Possible(Init(base), es) && Enabled(After(Init(base), es), e)
    requires e.ResumeDone? || (e.Adopt? && forall p :: (e.id, p) !in After(Init(base), es).watched)
    ensures var s := After(Init(base), es);
            var id, t := if e.Adopt? then e.id else s.ops[e.o].id, Apply(s, e);
            id in t.running && !DeathUntracks(t, id)
  {
    ProcsApartAlways(Init(base), es);
    var s := After(Init(base), es);
    var id, t := if e.Adopt? then e.id else s.ops[e.o].id, Apply(s, e);
    hide Possible, After, DeathUntracks;
    WatchedUnderItsId(t, id);
  }

  // ---- Runs in which the operations on one ID are serialised ----

  ghost predicate Busy(s: State, id: string)
  {
    exists o :: o in s.ops && s.ops[o].id == id
  }

  ghost predicate Serial(s: State, e: Event)
  {
    match e
    case BeginCreate(_, id, _) => !Busy(s, id) && id !in s.running && id !in s.files
    case BeginKill(_, id) => !Busy(s, id)
    case BeginPause(_, id) => !Busy(s, id)
    case BeginResume(_, id) => !Busy(s, id)
    case Adopt(id, placeholder) => !Busy(s, id) && !Busy(s, placeholder) && id !in s.running
    case _ => true
  }

  ghost predicate SerialRun(s: State, es: seq<Event>)
    decreases |es|
  {
    es != [] ==> Enabled(s, es[0]) && Serial(s, es[0]) && SerialRun(Apply(s, es[0]), es[1..])
  }

  /** What an operation may rely on while it is the only one on its ID. */
  ghost predicate Undisturbed(s: State, op: Op)
  {
    && (op.Creating() ==> op.id !in s.running && op.id in s.files)
    && (op.RollingBack? ==> op.id !in s.running && (op.cleaned ==> op.id !in s.files))
    && (op.Pausing? && op.vm.lease.Some? ==>
         op.vm.lease.value in s.abandoned || (op.id in s.running && s.running[op.id] == op.vm))
  }

  ghost predicate Ordered(s: State)
  {
    && (forall o, p :: o in s.ops && p in s.ops && o != p ==> s.ops[o].id != s.ops[p].id)
    && (forall o :: o in s.ops ==> Undisturbed(s, s.ops[o]))
  }

  lemma OrderedKept(s: State, e: Event)
    requires Ordered(s) && Enabled(s, e) && Serial(s, e)
    ensures Ordered(Apply(s, e))
  {
    var s' := Apply(s, e);
    forall o, p | o in s'.ops && p in s'.ops && o != p ensures s'.ops[o].id != s'.ops[p].id {
      IdsKeptApart(s, e, o, p);
    }
    forall o | o in s'.ops ensures Undisturbed(s', s'.ops[o]) {
      UndisturbedKept(s, e, o);
    }
  }

  /** An operation keeps its ID; a new one takes it from the call. */
  lemma OpIdAfter(s: State, e: Event, o: nat)
    requires Enabled(s, e) && o in Apply(s, e).ops
    ensures var id := Apply(s, e).ops[o].id;
            || (o in s.ops && id == s.ops[o].id)
            || (o !in s.ops && Begins(e) && e.o == o && id == e.id)
  {
    if Begins(e) { OpIdAfterBegin(s, e, o); } else { OpIdAfterStep(s, e, o); }
    hide Apply, Enabled;
  }

  predicate Begins(e: Event) { e.BeginCreate? || e.BeginKill? || e.BeginPause? || e.BeginResume? }

  lemma OpIdAfterBegin(s: State, e: Event, o: nat)
    requires Enabled(s, e) && Begins(e) && o in Apply(s, e).ops
    ensures var id := Apply(s, e).ops[o].id;
            (o in s.ops && id == s.ops[o].id) || (o !in s.ops && e.o == o && id == e.id)
  {}

  lemma OpIdAfterStep(s: State, e: Event, o: nat)
    requires Enabled(s, e) && !Begins(e) && o in Apply(s, e).ops
    ensures o in s.ops && Apply(s, e).ops[o].id == s.ops[o].id
  {
    hide Issue, GiveBack;
  }

  lemma IdsKeptApart(s: State, e: Event, o: nat, p: nat)
    requires Ordered(s) && Enabled(s, e) && Serial(s, e) && o != p
    requires o in Apply(s, e).ops && p in Apply(s, e).ops
    ensures Apply(s, e).ops[o].id != Apply(s, e).ops[p].id
  {
    OpIdAfter(s, e, o);
    OpIdAfter(s, e, p);
    hide Apply, Enabled, Undisturbed;
  }

  lemma UndisturbedKept(s: State, e: Event, o: nat)
    requires Ordered(s) && Enabled(s, e) && Serial(s, e)
    requires o in Apply(s, e).ops
    ensures Undisturbed(Apply(s, e), Apply(s, e).ops[o])
  {
    hide Ordered, Enabled, Serial, Undisturbed, Apply;
    if o in s.ops && Apply(s, e).ops[o] == s.ops[o] {
      UndisturbedByOthers(s, e, o);
    } else {
      UndisturbedAfterOwnStep(s, e, o);
    }
  }

  /** The IDs a step is about. */
  function Concerns(s: State, e: Event): set<string>
    requires Enabled(s, e)
  {
    match e
    case BeginCreate(_, id, _) => {id}
    case BeginKill(_, id) => {id}
    case BeginPause(_, id) => {id}
    case BeginResume(_, id) => {id}
    case ProcessExits(id, _) => {id}
    case Adopt(id, placeholder) => {id, placeholder}
    case _ => {s.ops[e.o].id}
  }

  lemma IdUntouched(s: State, e: Event, x: string)
    requires Enabled(s, e) && x !in Concerns(s, e)
    ensures var t := Apply(s, e);
            && (x in t.files <==> x in s.files)
            && (x in t.running <==> x in s.running) && (x in t.running ==> t.running[x] == s.running[x])
            && s.abandoned <= t.abandoned
  {
    hide Issue;
  }

  lemma UndisturbedByOthers(s: State, e: Event, o: nat)
    requires Ordered(s) && Enabled(s, e) && Serial(s, e)
    requires o in s.ops && o in Apply(s, e).ops && Apply(s, e).ops[o] == s.ops[o]
    ensures Undisturbed(Apply(s, e), s.ops[o])
  {
    assert Undisturbed(s, s.ops[o]);
    var x := s.ops[o].id;
    if e.ProcessExits? {
      UndisturbedByExit(s, e, o);
    } else {
      OthersElsewhere(s, e, o);
      IdUntouched(s, e, x);
    }
    hide Apply, Enabled, Serial, Ordered;
  }

  lemma UndisturbedByExit(s: State, e: Event, o: nat)
    requires Enabled(s, e) && e.ProcessExits? && o in s.ops && Undisturbed(s, s.ops[o])
    ensures Undisturbed(Apply(s, e), s.ops[o])
  {}

  lemma OthersElsewhere(s: State, e: Event, o: nat)
    requires Ordered(s) && Enabled(s, e) && Serial(s, e) && !e.ProcessExits?
    requires o in s.ops && o in Apply(s, e).ops && Apply(s, e).ops[o] == s.ops[o]
    ensures s.ops[o].id !in Concerns(s, e)
  {
    hide Issue, GiveBack, Undisturbed;
  }

  lemma UndisturbedAfterOwnStep(s: State, e: Event, o: nat)
    requires Ordered(s) && Enabled(s, e) && Serial(s, e)
    requires o in Apply(s, e).ops && !(o in s.ops && Apply(s, e).ops[o] == s.ops[o])
    ensures Undisturbed(Apply(s, e), Apply(s, e).ops[o])
  {
    hide Issue;
    if o in s.ops { assert Undisturbed(s, s.ops[o]); }
  }

  lemma SerialPauseFinds(s: State, e: Event, t: nat)
    requires Ordered(s) && Enabled(s, e)
    ensures Guarded(s, e, t)
  {
    if e.PauseDone? { assert Undisturbed(s, s.ops[e.o]); }
  }

  lemma {:induction false} SerialAlways(s: State, es: seq<Event>)
    requires Owned(s) && Ordered(s) && SerialRun(s, es)
    ensures Possible(s, es) && Owned(After(s, es)) && Ordered(After(s, es))
    decreases |es|
  {
    if es != [] {
      OwnedKept(s, es[0]);
      OrderedKept(s, es[0]);
      SerialAlways(Apply(s, es[0]), es[1..]);
    }
  }

  lemma {:induction false} SerialRunIsGuarded(s: State, es: seq<Event>, t: nat)
    requires Ordered(s) && SerialRun(s, es)
    ensures GuardedRun(s, es, t)
    decreases |es|
  {
    if es != [] {
      OrderedKept(s, es[0]);
      SerialPauseFinds(s, es[0], t);
      SerialRunIsGuarded(Apply(s, es[0]), es[1..], t);
    }
  }

  /** With operations on one ID serialised, every pause finds its machine. */
  lemma SerialSuspendedNeverReissued(base: IPv4, es: seq<Event>, t: nat)
    requires SerialRun(Init(base), es) && Possible(Init(base), es)
    requires t in After(Init(base), es).suspended
    ensures var s := After(Init(base), es);
            && s.ledger.Outstanding(t)
            && (s.ledger.peak <= 256 ==>
                 && !CanBeGivenAgain(s, t)
                 && !Reusable(s, Some(t))
                 && (forall x :: x in s.running ==> !Clash(s, s.running[x].lease, Some(t)))
                 && (forall o :: o in s.ops ==> !Clash(s, s.ops[o].Held(), Some(t))))
  {
    InitOwned(base);
    SerialRunIsGuarded(Init(base), es, t);
    SuspendedAddressNeverReissued(base, es, t);
  }

  // The states of a run in which a kill slips into a pause.

  function Tracked(base: IPv4): State
  {
    State(Ledger(Net(base, 3, []), [OffsetIP(base, 2)], {}, 1), map["a" := Vm(0, Some(0))], map[],
          {"a"}, {("a", 0)}, 1, {}, {}, 0)
  }

  function Caught(base: IPv4): State
  {
    Tracked(base).(running := map[], ops := map[1 := Pausing("a", Vm(0, Some(0))), 2 := Killing("a", Some(0))])
  }

  function Raced(base: IPv4): State
  {
    State(Ledger(Net(base, 3, [2]), [OffsetIP(base, 2)], {0}, 1), map[], map[2 := Sweeping("a")],
          {"a"}, {("a", 0)}, 1, {}, {0}, 0)
  }

  function Reissued(base: IPv4): State
  {
    State(Ledger(Net(base, 3, []), [OffsetIP(base, 2), OffsetIP(base, 2)], {0}, 1), map[],
          map[2 := Sweeping("a"), 1 := Booting("b", Some(1))], {"a", "b"}, {("a", 0)}, 1, {}, {0}, 0)
  }

  lemma CreateInTwoSteps(base: IPv4)
    ensures Leads(Init(base), [BeginCreate(0, "a", true), TakeAddress(0)],
                  Init(base).(ledger := Tracked(base).ledger, files := {"a"}, ops := map[0 := Booting("a", Some(0))]))
  {
    hide OffsetIP;
    TwoSteps(Init(base), BeginCreate(0, "a", true), TakeAddress(0));
  }

  lemma ThenTracked(base: IPv4)
    ensures Leads(Init(base).(ledger := Tracked(base).ledger, files := {"a"}, ops := map[0 := Booting("a", Some(0))]),
                  [SocketUp(0), Ready(0)], Tracked(base))
  {
    hide OffsetIP;
    TwoSteps(Init(base).(ledger := Tracked(base).ledger, files := {"a"}, ops := map[0 := Booting("a", Some(0))]),
             SocketUp(0), Ready(0));
  }

  lemma ThenCaught(base: IPv4)
    ensures Leads(Tracked(base), [BeginPause(1, "a"), BeginKill(2, "a")], Caught(base))
  {
    hide OffsetIP;
    TwoSteps(Tracked(base), BeginPause(1, "a"), BeginKill(2, "a"));
  }

  lemma ThenRaced(base: IPv4)
    ensures Leads(Caught(base), [KillReleases(2), PauseDone(1)], Raced(base))
  {
    OffsetRoundTrip(base, 2);
    hide OffsetIP, IpOffset;
    TwoSteps(Caught(base), KillReleases(2), PauseDone(1));
  }

  lemma ThenReissued(base: IPv4)
    ensures Leads(Raced(base), [BeginCreate(1, "b", true), TakeAddress(1)], Reissued(base))
  {
    hide OffsetIP;
    TwoSteps(Raced(base), BeginCreate(1, "b", true), TakeAddress(1));
  }

  /** Without serialisation it can be: a kill that slips into a pause releases the address, and
      the next creation receives it. */
  lemma PauseKillRace(base: IPv4)
    ensures exists es ::
      && Possible(Init(base), es)
      && var s := After(Init(base), es);
         && 0 in s.suspended && s.ledger.peak <= 256
         && 1 in s.ops && Clash(s, s.ops[1].Held(), Some(0))
  {
    hide Possible, After, OffsetIP, Init, Tracked, Caught, Raced, Leads;
    CreateInTwoSteps(base);
    ThenTracked(base);
    ThenCaught(base);
    ThenRaced(base);
    ThenReissued(base);
    var booting := Init(base).(ledger := Tracked(base).ledger, files := {"a"}, ops := map[0 := Booting("a", Some(0))]);
    var es0 := [BeginCreate(0, "a", true), TakeAddress(0)];
    var es1 := es0 + [SocketUp(0), Ready(0)];
    var es2 := es1 + [BeginPause(1, "a"), BeginKill(2, "a")];
    var es3 := es2 + [KillReleases(2), PauseDone(1)];
    var es4 := es3 + [BeginCreate(1, "b", true), TakeAddress(1)];
    LeadsOn(Init(base), es0, booting, [SocketUp(0), Ready(0)], Tracked(base));
    LeadsOn(Init(base), es1, Tracked(base), [BeginPause(1, "a"), BeginKill(2, "a")], Caught(base));
    LeadsOn(Init(base), es2, Caught(base), [KillReleases(2), PauseDone(1)], Raced(base));
    LeadsOn(Init(base), es3, Raced(base), [BeginCreate(1, "b", true), TakeAddress(1)], Reissued(base));
    RaceEnds(base, es4);
  }

  lemma RaceEnds(base: IPv4, es: seq<Event>)
    requires Leads(Init(base), es, Reissued(base))
    ensures Possible(Init(base), es)
    ensures var s := After(Init(base), es);
            && 0 in s.suspended && s.ledger.peak <= 256
            && 1 in s.ops && Clash(s, s.ops[1].Held(), Some(0))
  {
    hide OffsetIP, Init;
  }

  ghost predicate Leads(s: State, es: seq<Event>, t: State)
  {
    Possible(s, es) && After(s, es) == t
  }

  lemma OneStep(s: State, e: Event)
    requires Enabled(s, e)
    ensures Leads(s, [e], Apply(s, e))
  {
    hide Apply, Enabled;
    var t := Apply(s, e);
    assert [e][0] == e && [e][1..] == [];
    assert Possible(t, []) && After(t, []) == t;
  }

  lemma TwoSteps(s: State, d: Event, e: Event)
    requires Enabled(s, d) && Enabled(Apply(s, d), e)
    ensures Leads(s, [d, e], Apply(Apply(s, d), e))
  {
    hide Apply, Enabled, Leads;
    OneStep(s, d);
    OneStep(Apply(s, d), e);
    LeadsOn(s, [d], Apply(s, d), [e], Apply(Apply(s, d), e));
    assert [d] + [e] == [d, e];
  }

  lemma {:induction false} LeadsOn(s: State, xs: seq<Event>, t: State, ys: seq<Event>, u: State)
    requires Leads(s, xs, t) && Leads(t, ys, u)
    ensures Leads(s, xs + ys, u)
    decreases |xs|
  {
    hide Apply, Enabled;
    if xs == [] {
      assert xs + ys == ys;
    } else {
      assert (xs + ys)[1..] == xs[1..] + ys;
      LeadsOn(Apply(s, xs[0]), xs[1..], t, ys, u);
    }
  }

  /** The steps of the creation with handle `o` short of entering the table. */
  predicate OwnStep(e: Event, o: nat)
  {
    match e
    case TakeAddress(p) => p == o
    case NoNetwork(p) => p == o
    case TapFails(p, _) => p == o
    case SocketUp(p) => p == o
    case BootFails(p, _) => p == o
    case ApiFails(p, _) => p == o
    case RollbackDone(p) => p == o
    case _ => false
  }

  ghost predicate OwnSteps(es: seq<Event>, o: nat)
  {
    forall i :: 0 <= i < |es| ==> OwnStep(es[i], o)
  }

  /** None of them touches the table, another ID's file, another operation, or an allocation made
      before - other than the one its rollback gives back. */
  lemma OwnStepsTouchNothingElse(s: State, e: Event, o: nat)
    requires Enabled(s, e) && OwnStep(e, o)
    ensures var t := Apply(s, e);
            && t.running == s.running && t.suspended == s.suspended && t.watched == s.watched
            && (forall x :: x != s.ops[o].id ==> (x in t.files <==> x in s.files))
            && (forall p :: p != o ==> (p in t.ops <==> p in s.ops) && (p in t.ops ==> t.ops[p] == s.ops[p]))
            && (forall a: nat :: a < |s.ledger.issued| ==>
                 (t.ledger.Outstanding(a) <==>
                   s.ledger.Outstanding(a) && !(e.RollbackDone? && s.ops[o].lease == Some(a))))
  {
    hide OffsetIP;
  }

  /** The allocation a creation holds is not one of the first `n`. */
  ghost predicate HoldsNew(s: State, o: nat, n: nat)
  {
    && n <= |s.ledger.issued|
    && (o in s.ops && (s.ops[o].Booting? || s.ops[o].Configuring? || s.ops[o].RollingBack?) && s.ops[o].lease.Some? ==>
         s.ops[o].lease.value >= n)
  }

  lemma {:induction false} HoldsNewAlways(s: State, es: seq<Event>, o: nat, n: nat)
    requires Possible(s, es) && HoldsNew(s, o, n)
    ensures HoldsNew(After(s, es), o, n)
    decreases |es|
  {
    if es != [] {
      HoldsNewKept(s, es[0], o, n);
      HoldsNewAlways(Apply(s, es[0]), es[1..], o, n);
    }
  }

  lemma HoldsNewKept(s: State, e: Event, o: nat, n: nat)
    requires Enabled(s, e) && HoldsNew(s, o, n)
    ensures HoldsNew(Apply(s, e), o, n)
  {
    hide OffsetIP;
  }

  /** Where a creation that began in `s` with a file of its own has got to on its own. */
  ghost predicate OnItsOwn(s: State, t: State, o: nat, id: string)
  {
    && t.running == s.running && t.ledger.freed == s.ledger.freed && s.ledger.issued <= t.ledger.issued
    && t.files - {id} == s.files
    && o in t.ops && t.ops - {o} == s.ops && t.ops[o].id == id
    && (t.ops[o].Creating() ==> id in t.files)
    && match t.ops[o]
       case Prepared(_) => t.ledger.issued == s.ledger.issued
       case Booting(_, lease) => TookOnly(s, t, lease)
       case Configuring(_, lease, _) => TookOnly(s, t, lease)
       case RollingBack(_, lease, cleaned) => TookOnly(s, t, lease) && (cleaned ==> id !in t.files)
       case _ => false
  }

  ghost predicate TookOnly(s: State, t: State, lease: Option<nat>)
  {
    match lease
    case None => t.ledger.issued == s.ledger.issued
    case Some(a) => a == |s.ledger.issued| && |t.ledger.issued| == a + 1
  }

  lemma OnItsOwnKept(s: State, t: State, e: Event, o: nat, id: string)
    requires OnItsOwn(s, t, o, id) && Enabled(t, e) && OwnStep(e, o) && o in Apply(t, e).ops
    requires o !in s.ops && id !in s.files
    ensures OnItsOwn(s, Apply(t, e), o, id)
  {
    hide OffsetIP;
    assert Apply(t, e).ops - {o} == t.ops - {o};
  }

  /** A creation that has left the operations does not come back. */
  lemma {:induction false} GoneStaysGone(t: State, es: seq<Event>, o: nat)
    requires Possible(t, es) && o !in t.ops && OwnSteps(es, o)
    ensures o !in After(t, es).ops
    decreases |es|
  {}

  lemma {:induction false} OnItsOwnAlways(s: State, t: State, es: seq<Event>, o: nat, id: string)
    requires OnItsOwn(s, t, o, id) && o !in s.ops && id !in s.files
    requires Possible(t, es) && OwnSteps(es, o) && o in After(t, es).ops
    ensures OnItsOwn(s, After(t, es), o, id)
    decreases |es|
  {
    if es != [] {
      assert forall i :: 0 <= i < |es[1..]| ==> es[1..][i] == es[i + 1];
      if o !in Apply(t, es[0]).ops {
        GoneStaysGone(Apply(t, es[0]), es[1..], o);
      } else {
        OnItsOwnKept(s, t, es[0], o, id);
        OnItsOwnAlways(s, Apply(t, es[0]), es[1..], o, id);
      }
    }
  }

  /** Left alone, a creation of a new ID that fails from the API stage on puts back the table, the
      files, the operations and the set of outstanding allocations as they were before the call. */
  lemma FailedCreateRestores(s: State, o: nat, id: string, es: seq<Event>)
    requires Owned(s) && id !in s.files && Enabled(s, BeginCreate(o, id, true))
    requires var t := Apply(s, BeginCreate(o, id, true));
             && Possible(t, es) && OwnSteps(es, o)
             && o in After(t, es).ops && After(t, es).ops[o].RollingBack? && After(t, es).ops[o].cleaned
    ensures var u := Apply(After(Apply(s, BeginCreate(o, id, true)), es), RollbackDone(o));
            && u.running == s.running && u.files == s.files && u.ops == s.ops
            && (forall a: nat :: u.ledger.Outstanding(a) <==> s.ledger.Outstanding(a))
  {
    var t := Apply(s, BeginCreate(o, id, true));
    assert t.files - {id} == s.files && t.ops - {o} == s.ops;
    OnItsOwnAlways(s, t, es, o, id);
    hide After, Possible;
    LastStepRestores(s, After(t, es), o, id);
  }

  lemma LastStepRestores(s: State, t: State, o: nat, id: string)
    requires Books(s.ledger) && OnItsOwn(s, t, o, id) && t.ops[o].RollingBack? && t.ops[o].cleaned
    ensures var u := Apply(t, RollbackDone(o));
            && u.running == s.running && u.files == s.files && u.ops == s.ops
            && (forall a: nat :: u.ledger.Outstanding(a) <==> s.ledger.Outstanding(a))
  {
    hide OffsetIP, IpOffset, LowBytes, Complete, Disjoint;
  }

  /** Creation is all or nothing from the API stage on, whatever operations on other IDs run in
      between: when the rollback is done, the ID is neither in the table nor among the rootfs
      files - as before the call - and no allocation is outstanding any less or more than just
      before, except for the one given back, which this creation had taken. */
  lemma FailedCreateLeavesNothing(base: IPv4, before: seq<Event>, o: nat, id: string, during: seq<Event>)
    requires SerialRun(Init(base), before) && Possible(Init(base), before)
    requires var s := After(Init(base), before);
             Enabled(s, BeginCreate(o, id, true)) && Serial(s, BeginCreate(o, id, true))
    requires var t := Apply(After(Init(base), before), BeginCreate(o, id, true));
             && SerialRun(t, during) && Possible(t, during)
             && o in After(t, during).ops
             && var op := After(t, during).ops[o];
                op.RollingBack? && op.id == id && op.cleaned
    ensures var s := After(Init(base), before);
            var t := After(Apply(s, BeginCreate(o, id, true)), during);
            var u := Apply(t, RollbackDone(o));
            && id !in s.running && id !in u.running
            && id !in s.files && id !in u.files
            && o !in u.ops
            && u.doubleFrees == 0
            && (forall a: nat :: u.ledger.Outstanding(a) <==> t.ledger.Outstanding(a) && t.ops[o].lease != Some(a))
            && (t.ops[o].lease.Some? ==> |s.ledger.issued| <= t.ops[o].lease.value < |t.ledger.issued|)
            && u.running == t.running && u.files == t.files
  {
    HoldsNewAlways(Apply(After(Init(base), before), BeginCreate(o, id, true)), during, o,
                   |After(Init(base), before).ledger.issued|);
    hide Books, TableOwns, OpsOwn, AllAccounted, Undisturbed;
    InitOwned(base);
    SerialAlways(Init(base), before);
    var s := After(Init(base), before);
    OwnedKept(s, BeginCreate(o, id, true));
    OrderedKept(s, BeginCreate(o, id, true));
    var t := After(Apply(s, BeginCreate(o, id, true)), during);
    SerialAlways(Apply(s, BeginCreate(o, id, true)), during);
    RollbackCompletes(t, o);
  }

  lemma RollbackCompletes(t: State, o: nat)
    requires Owned(t) && Ordered(t)
    requires o in t.ops && t.ops[o].RollingBack? && t.ops[o].cleaned
    ensures var op, u := t.ops[o], Apply(t, RollbackDone(o));
            && op.id !in u.running && op.id !in u.files && o !in u.ops
            && u.running == t.running && u.files == t.files
            && u.doubleFrees == 0
            && (forall a: nat :: u.ledger.Outstanding(a) <==> t.ledger.Outstanding(a) && op.lease != Some(a))
            && (op.lease.Some? ==> op.lease.value < |t.ledger.issued|)
  {
    OwnedKept(t, RollbackDone(o));
    assert Undisturbed(t, t.ops[o]);
    assert t.ops[o].Held() == t.ops[o].lease;
    hide Books, InTable, InHand;
  }

  // ---- A creation and its kill, left alone ----

  function Creation(o: nat, id: string, networked: bool): seq<Event>
  {
    [BeginCreate(o, id, true), if networked then TakeAddress(o) else NoNetwork(o), SocketUp(o), Ready(o)]
  }

  function Removal(o: nat, id: string): seq<Event>
  {
    [BeginKill(o, id), KillReleases(o), KillDone(o, true)]
  }

  /** Left alone, a creation of a new ID runs to its end, with networking or without it: the table
      gains one machine, with a new process and the address just taken, and nothing else changes.
      Killing it puts table, files, operations and outstanding allocations back as they were. */
  lemma CreateThenKill(s: State, o: nat, id: string, networked: bool)
    requires Books(s.ledger) && o !in s.ops && id !in s.running && id !in s.files
    ensures Possible(s, Creation(o, id, networked))
    ensures var t := After(s, Creation(o, id, networked));
            && t.running == s.running[id := Vm(s.nextProc, if networked then Some(|s.ledger.issued|) else None)]
            && t.files == s.files + {id} && t.ops == s.ops
            && t.ledger == (if networked then Issue(s.ledger) else s.ledger)
            && t.abandoned == s.abandoned && t.suspended == s.suspended
            && Possible(t, Removal(o, id))
            && var u := After(t, Removal(o, id));
               && u.running == s.running && u.files == s.files && u.ops == s.ops
               && u.abandoned == s.abandoned && u.suspended == s.suspended && u.doubleFrees == s.doubleFrees
               && (forall a: nat :: u.ledger.Outstanding(a) <==> s.ledger.Outstanding(a))
               && (networked ==> u.ledger.net == t.ledger.net.Released(t.ledger.issued[|s.ledger.issued|]))
  {
    var t := CreatedAlone(s, o, id, networked);
    CreationSteps(s, o, id, networked);
    RemovalSteps(t, o, id);
    hide Possible, After, Apply, Books;
    assert t.running - {id} == s.running && t.files - {id} == s.files;
  }

  function CreatedAlone(s: State, o: nat, id: string, networked: bool): State
  {
    s.(running := s.running[id := Vm(s.nextProc, if networked then Some(|s.ledger.issued|) else None)],
       files := s.files + {id}, ledger := if networked then Issue(s.ledger) else s.ledger,
       watched := s.watched + {(id, s.nextProc)}, nextProc := s.nextProc + 1)
  }

  function BootingAlone(s: State, o: nat, id: string, networked: bool): State
  {
    s.(files := s.files + {id}, ledger := if networked then Issue(s.ledger) else s.ledger,
       ops := s.ops[o := Booting(id, if networked then Some(|s.ledger.issued|) else None)])
  }

  lemma CreationBegins(s: State, o: nat, id: string, networked: bool)
    requires o !in s.ops
    ensures Leads(s, Creation(o, id, networked)[..2], BootingAlone(s, o, id, networked))
  {
    hide Issue, OffsetIP, Leads;
    var es := Creation(o, id, networked);
    TwoSteps(s, es[0], es[1]);
    assert es[..2] == [es[0], es[1]];
    assert Apply(Apply(s, es[0]), es[1]) == BootingAlone(s, o, id, networked);
  }

  lemma CreationEnds(s: State, o: nat, id: string, networked: bool)
    requires o !in s.ops && id !in s.running
    ensures Leads(BootingAlone(s, o, id, networked), [SocketUp(o), Ready(o)], CreatedAlone(s, o, id, networked))
  {
    hide Issue, OffsetIP, Leads;
    var mid := BootingAlone(s, o, id, networked);
    TwoSteps(mid, SocketUp(o), Ready(o));
    assert Apply(mid, SocketUp(o)).ops - {o} == s.ops;
    assert Apply(Apply(mid, SocketUp(o)), Ready(o)) == CreatedAlone(s, o, id, networked);
  }

  lemma CreationSteps(s: State, o: nat, id: string, networked: bool)
    requires o !in s.ops && id !in s.running
    ensures Leads(s, Creation(o, id, networked), CreatedAlone(s, o, id, networked))
  {
    var es := Creation(o, id, networked);
    assert es == es[..2] + [SocketUp(o), Ready(o)];
    hide Leads, Creation;
    CreationBegins(s, o, id, networked);
    CreationEnds(s, o, id, networked);
    LeadsOn(s, es[..2], BootingAlone(s, o, id, networked), [SocketUp(o), Ready(o)], CreatedAlone(s, o, id, networked));
  }

  lemma RemovalSteps(t: State, o: nat, id: string)
    requires o !in t.ops && id in t.running
    ensures var u := GiveBack(t, t.running[id].lease);
            Leads(t, Removal(o, id), u.(running := t.running - {id}, files := t.files - {id}))
  {
    hide OffsetIP, IpOffset;
    var es := Removal(o, id);
    TwoSteps(t, es[0], es[1]);
    var mid := Apply(Apply(t, es[0]), es[1]);
    OneStep(mid, es[2]);
    LeadsOn(t, [es[0], es[1]], mid, [es[2]], Apply(mid, es[2]));
    assert es == [es[0], es[1]] + [es[2]];
    assert mid.ops - {o} == t.ops;
  }
}

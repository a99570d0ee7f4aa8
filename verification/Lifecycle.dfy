/** Rows, backend and time: the handlers of internal/api/handlers.go, the reaper
    (internal/reaper/reaper.go) and the reconciler (internal/reconcile/reconcile.go) over the
    store (internal/store).

    Every call to the store or to the backend is one step, so handlers, reaper and reconciler
    interleave at each of them. */
module Lifecycle {
  import opened Options

  type Id = string
  type Ref = string

  datatype Status = Running | Paused

  /** A row of the table; `pauseRef` is the column paused_image_id. */
  datatype Row = Row(status: Status, expiresAt: int, pauseRef: Option<Ref>)

  datatype Entry = Entry(id: Id, row: Row)

  datatype Op =
    | Saving(id: Id, row: Row, cleanup: Option<Ref>)  // create, pause, resume: the backend has acted
    | Killing(id: Id)                                 // delete: the row is there
    | Erasing(id: Id)                                 // delete: the backend has killed
    | Pausing(id: Id, row: Row)                       // pause: the row read says running
    | Resuming(id: Id, row: Row)                      // resume: the row read says paused
    | Reaping(todo: seq<Entry>)                       // reap: expired rows left to do
    | ReapErasing(id: Id, todo: seq<Entry>)           // reap: resources of `id` are gone
    | Reconciling(ids: seq<Id>)                       // reconcile: running rows left to check
    | ReconErasing(id: Id, ids: seq<Id>)              // reconcile: `id` was found not running

  datatype Event =
    | Passes(span: nat)
    | Crash(id: Id)
    | Created(o: nat, id: Id)
    | Saved(o: nat, ok: bool)
    | Cleaned(ref: Ref, ok: bool)
    | BeginDelete(o: nat, id: Id)
    | Killed(o: nat, ok: bool, gone: bool)
    | Erased(o: nat, ok: bool)
    | BeginPause(o: nat, id: Id)
    | PauseDone(o: nat, ref: Ref)
    | PauseFails(o: nat, gone: bool)
    | BeginResume(o: nat, id: Id)
    | ResumeDone(o: nat)
    | ResumeFails(o: nat)
    | BeginReap(o: nat, todo: seq<Entry>)
    | Reaped(o: nat, ok: bool, gone: bool)
    | ReapErased(o: nat, ok: bool)
    | ReapEnds(o: nat)
    | BeginReconcile(o: nat, ids: seq<Id>)
    | Checked(o: nat, ok: bool)
    | ReconErased(o: nat, ok: bool)
    | ReconEnds(o: nat)

  /** `live` are the API IDs the backend reports running, `images` the pause resources it keeps,
      `cleanups` the removals handed to background goroutines.  For the record, `due` holds for
      each ID the end of the TTL counted from the backend's last create, pause or resume. */
  datatype State = State(
    sandboxTTL: nat,
    pausedTTL: nat,
    now: int,
    rows: map<Id, Row>,
    live: set<Id>,
    images: set<Ref>,
    cleanups: multiset<Ref>,
    ops: map<nat, Op>,
    due: map<Id, int>)

  function Init(sandboxTTL: nat, pausedTTL: nat, now: int): State
  {
    State(sandboxTTL, pausedTTL, now, map[], {}, {}, multiset{}, map[], map[])
  }

  /** The selection of ListExpired: expires_at < now(), running or paused. */
  predicate Expired(s: State, id: Id)
  {
    id in s.rows && s.rows[id].expiresAt < s.now
  }

  /** The rows a query returned, in any order. */
  ghost predicate ListsExpired(s: State, todo: seq<Entry>)
  {
    && (forall i :: 0 <= i < |todo| ==> Expired(s, todo[i].id) && s.rows[todo[i].id] == todo[i].row)
    && (forall i, j :: 0 <= i < j < |todo| ==> todo[i].id != todo[j].id)
    && (forall id :: Expired(s, id) ==> Entry(id, s.rows[id]) in todo)
  }

  ghost predicate ListsRunning(s: State, ids: seq<Id>)
  {
    && (forall i :: 0 <= i < |ids| ==> ids[i] in s.rows && s.rows[ids[i]].status.Running?)
    && (forall i, j :: 0 <= i < j < |ids| ==> ids[i] != ids[j])
    && (forall id :: id in s.rows && s.rows[id].status.Running? ==> id in ids)
  }

  ghost predicate Mentioned(s: State, id: Id)
  {
    exists o :: o in s.ops && s.ops[o].Saving? && s.ops[o].id == id
  }

  ghost predicate Enabled(s: State, e: Event)
  {
    match e
    case Passes(_) => true
    case Crash(_) => true
    case Created(o, id) => o !in s.ops && id !in s.rows && id !in s.live && !Mentioned(s, id)  // a new UUID
    case Saved(o, _) => o in s.ops && s.ops[o].Saving?
    case Cleaned(ref, _) => ref in s.cleanups
    case BeginDelete(o, id) => o !in s.ops && id in s.rows
    case Killed(o, _, _) => o in s.ops && s.ops[o].Killing?
    case Erased(o, _) => o in s.ops && s.ops[o].Erasing?
    case BeginPause(o, id) => o !in s.ops && id in s.rows && s.rows[id].status.Running?
    case PauseDone(o, _) => o in s.ops && s.ops[o].Pausing?
    case PauseFails(o, _) => o in s.ops && s.ops[o].Pausing?
    case BeginResume(o, id) => o !in s.ops && id in s.rows && s.rows[id].status.Paused?
    case ResumeDone(o) => o in s.ops && s.ops[o].Resuming? && s.ops[o].row.pauseRef.Some?
                          && s.ops[o].row.pauseRef.value in s.images
    case ResumeFails(o) => o in s.ops && s.ops[o].Resuming?
    case BeginReap(o, todo) => o !in s.ops && ListsExpired(s, todo)
    case Reaped(o, _, _) => o in s.ops && s.ops[o].Reaping? && s.ops[o].todo != []
    case ReapErased(o, _) => o in s.ops && s.ops[o].ReapErasing?
    case ReapEnds(o) => o in s.ops && s.ops[o].Reaping? && s.ops[o].todo == []
    case BeginReconcile(o, ids) => o !in s.ops && ListsRunning(s, ids)
    case Checked(o, _) => o in s.ops && s.ops[o].Reconciling? && s.ops[o].ids != []
    case ReconErased(o, _) => o in s.ops && s.ops[o].ReconErasing?
    case ReconEnds(o) => o in s.ops && s.ops[o].Reconciling? && s.ops[o].ids == []
  }

  function DropOp(s: State, o: nat): State
  {
    s.(ops := s.ops - {o})
  }

  function Keep(s: State, o: nat, op: Op): State
  {
    s.(ops := s.ops[o := op])
  }

  ghost function Apply(s: State, e: Event): State
    requires Enabled(s, e)
  {
    match e
    case Passes(span) => s.(now := s.now + span)
    case Crash(id) => s.(live := s.live - {id})
    case Created(o, id) =>
      var row := Row(Running, s.now + s.sandboxTTL, None);
      Keep(s, o, Saving(id, row, None)).(live := s.live + {id}, due := s.due[id := row.expiresAt])
    case Saved(o, ok) =>
      var op := s.ops[o];
      if !ok then DropOp(s, o)
      else DropOp(s, o).(rows := s.rows[op.id := op.row],
             cleanups := if op.cleanup.Some? then s.cleanups + multiset{op.cleanup.value} else s.cleanups)
    case Cleaned(ref, ok) =>
      s.(cleanups := s.cleanups - multiset{ref}, images := if ok then s.images - {ref} else s.images)
    case BeginDelete(o, id) => Keep(s, o, Killing(id))
    case Killed(o, ok, gone) =>
      var id := s.ops[o].id;
      if ok then Keep(s, o, Erasing(id)).(live := s.live - {id})
      else DropOp(s, o).(live := if gone then s.live - {id} else s.live)
    case Erased(o, ok) =>
      if ok then DropOp(s, o).(rows := s.rows - {s.ops[o].id}) else DropOp(s, o)
    case BeginPause(o, id) => Keep(s, o, Pausing(id, s.rows[id]))
    case PauseDone(o, ref) =>
      var op := s.ops[o];
      var row := Row(Paused, s.now + s.pausedTTL, Some(ref));
      Keep(s, o, Saving(op.id, row, None)).(live := s.live - {op.id}, images := s.images + {ref},
        due := s.due[op.id := row.expiresAt])
    case PauseFails(o, gone) =>
      DropOp(s, o).(live := if gone then s.live - {s.ops[o].id} else s.live)
    case BeginResume(o, id) => Keep(s, o, Resuming(id, s.rows[id]))
    case ResumeDone(o) =>
      var op := s.ops[o];
      var row := Row(Running, s.now + s.sandboxTTL, None);
      Keep(s, o, Saving(op.id, row, op.row.pauseRef)).(live := s.live + {op.id}, due := s.due[op.id := row.expiresAt])
    case ResumeFails(o) => DropOp(s, o)
    case BeginReap(o, todo) => Keep(s, o, Reaping(todo))
    case Reaped(o, ok, gone) =>
      var head, rest := s.ops[o].todo[0], s.ops[o].todo[1..];
      if head.row.status.Running? then
        if ok then Keep(s, o, ReapErasing(head.id, rest)).(live := s.live - {head.id})
        else Keep(s, o, Reaping(rest)).(live := if gone then s.live - {head.id} else s.live)
      else if head.row.pauseRef.None? then Keep(s, o, ReapErasing(head.id, rest))
      else if ok then Keep(s, o, ReapErasing(head.id, rest)).(images := s.images - {head.row.pauseRef.value})
      else Keep(s, o, Reaping(rest))
    case ReapErased(o, ok) =>
      Keep(s, o, Reaping(s.ops[o].todo)).(rows := if ok then s.rows - {s.ops[o].id} else s.rows)
    case ReapEnds(o) => DropOp(s, o)
    case BeginReconcile(o, ids) => Keep(s, o, Reconciling(ids))
    case Checked(o, ok) =>
      var id, rest := s.ops[o].ids[0], s.ops[o].ids[1..];
      if ok && id !in s.live then Keep(s, o, ReconErasing(id, rest)) else Keep(s, o, Reconciling(rest))
    case ReconErased(o, ok) =>
      Keep(s, o, Reconciling(s.ops[o].ids)).(rows := if ok then s.rows - {s.ops[o].id} else s.rows)
    case ReconEnds(o) => DropOp(s, o)
  }

  ghost predicate Possible(s: State, es: seq<Event>)
    decreases |es|
  {
    es != [] ==> Enabled(s, es[0]) && Possible(Apply(s, es[0]), es[1..])
  }

  ghost function After(s: State, es: seq<Event>): State
    requires Possible(s, es)
    decreases |es|
  {
    if es == [] then s else After(Apply(s, es[0]), es[1..])
  }

  // ---- Every interleaving: paused exactly with a pause reference ----

  predicate Consistent(row: Row)
  {
    row.status.Paused? <==> row.pauseRef.Some?
  }

  ghost predicate OpConsistent(op: Op)
  {
    match op
    case Saving(_, row, _) => Consistent(row)
    case Pausing(_, row) => Consistent(row)
    case Resuming(_, row) => Consistent(row) && row.status.Paused?
    case Reaping(todo) => forall i :: 0 <= i < |todo| ==> Consistent(todo[i].row)
    case ReapErasing(_, todo) => forall i :: 0 <= i < |todo| ==> Consistent(todo[i].row)
    case _ => true
  }

  ghost predicate AllConsistent(s: State)
  {
    && (forall id :: id in s.rows ==> Consistent(s.rows[id]))
    && (forall o :: o in s.ops ==> OpConsistent(s.ops[o]))
  }

  lemma RowConsistentKept(s: State, e: Event, id: Id)
    requires AllConsistent(s) && Enabled(s, e) && id in Apply(s, e).rows
    ensures Consistent(Apply(s, e).rows[id])
  {
    if e.Saved? {
      assert OpConsistent(s.ops[e.o]);
    } else {
      RowAfter(s, e, id);
      hide Apply, Enabled;
    }
    hide ListsRunning, ListsExpired, Mentioned;
  }

  /** Only a save writes a row, its own. */
  lemma RowAfter(s: State, e: Event, id: Id)
    requires Enabled(s, e) && !(e.Saved? && s.ops[e.o].id == id) && id in Apply(s, e).rows
    ensures id in s.rows && Apply(s, e).rows[id] == s.rows[id]
  {
    hide Apply, Enabled;
    if e.Saved? { RowAfterSave(s, e, id); }
    else if e.Erased? || e.ReapErased? || e.ReconErased? { RowAfterErase(s, e, id); }
    else { RowsStand(s, e); }
  }

  lemma RowAfterSave(s: State, e: Event, id: Id)
    requires Enabled(s, e) && e.Saved? && s.ops[e.o].id != id && id in Apply(s, e).rows
    ensures id in s.rows && Apply(s, e).rows[id] == s.rows[id]
  {
    hide ListsRunning, ListsExpired, Mentioned;
  }

  lemma RowAfterErase(s: State, e: Event, id: Id)
    requires Enabled(s, e) && (e.Erased? || e.ReapErased? || e.ReconErased?) && id in Apply(s, e).rows
    ensures id in s.rows && Apply(s, e).rows[id] == s.rows[id]
  {
    hide ListsRunning, ListsExpired, Mentioned;
  }

  lemma RowsStand(s: State, e: Event)
    requires Enabled(s, e) && !e.Saved? && !e.Erased? && !e.ReapErased? && !e.ReconErased?
    ensures Apply(s, e).rows == s.rows
  {
    hide Apply, Enabled;
    if ReapEvent(e) || Background(e) || e.BeginReconcile? || e.Checked? || e.ReconEnds? { RowsStandInLoop(s, e); }
    else { RowsStandInRequest(s, e); }
  }

  lemma RowsStandInLoop(s: State, e: Event)
    requires Enabled(s, e) && !e.ReapErased?
    requires ReapEvent(e) || Background(e) || e.BeginReconcile? || e.Checked? || e.ReconEnds?
    ensures Apply(s, e).rows == s.rows
  {
    hide ListsRunning, ListsExpired, Mentioned;
  }

  lemma RowsStandInRequest(s: State, e: Event)
    requires Enabled(s, e) && !e.Saved? && !e.Erased? && !e.ReconErased?
    requires !ReapEvent(e) && !Background(e) && !e.BeginReconcile? && !e.Checked? && !e.ReconEnds?
    ensures Apply(s, e).rows == s.rows
  {
    hide ListsRunning, ListsExpired, Mentioned;
  }

  predicate ReapEvent(e: Event) { e.BeginReap? || e.Reaped? || e.ReapErased? || e.ReapEnds? }

  predicate Background(e: Event) { e.Passes? || e.Crash? || e.Cleaned? }

  /** A step changes at most the operation it belongs to. */
  lemma OpsOnlyFromEvent(s: State, e: Event, o: nat)
    requires Enabled(s, e) && o in Apply(s, e).ops && (Background(e) || e.o != o)
    ensures o in s.ops && Apply(s, e).ops[o] == s.ops[o]
  {
    hide ListsRunning, ListsExpired, Mentioned, Enabled;
    if ReapEvent(e) { OpsOnlyFromReap(s, e, o); }
    else if Background(e) { }
    else { OpsOnlyFromRequest(s, e, o); }
  }

  lemma OpsStay(s: State, e: Event, o: nat)
    requires Enabled(s, e) && o in s.ops && (Background(e) || e.o != o)
    ensures o in Apply(s, e).ops && Apply(s, e).ops[o] == s.ops[o]
  {
    hide ListsRunning, ListsExpired, Mentioned, Enabled;
    if ReapEvent(e) { OpsStayInReap(s, e, o); }
    else if Background(e) { }
    else { OpsStayInRequest(s, e, o); }
  }

  lemma OpsStayInReap(s: State, e: Event, o: nat)
    requires Enabled(s, e) && o in s.ops && ReapEvent(e) && e.o != o
    ensures o in Apply(s, e).ops && Apply(s, e).ops[o] == s.ops[o]
  {
    hide ListsRunning, ListsExpired, Mentioned;
  }

  lemma OpsStayInRequest(s: State, e: Event, o: nat)
    requires Enabled(s, e) && o in s.ops && !ReapEvent(e) && !Background(e) && e.o != o
    ensures o in Apply(s, e).ops && Apply(s, e).ops[o] == s.ops[o]
  {
    hide ListsRunning, ListsExpired, Mentioned;
  }

  lemma OpsOnlyFromReap(s: State, e: Event, o: nat)
    requires Enabled(s, e) && o in Apply(s, e).ops && ReapEvent(e) && e.o != o
    ensures o in s.ops && Apply(s, e).ops[o] == s.ops[o]
  {
    hide ListsRunning, ListsExpired, Mentioned;
  }

  lemma OpsOnlyFromRequest(s: State, e: Event, o: nat)
    requires Enabled(s, e) && o in Apply(s, e).ops && !ReapEvent(e) && !Background(e) && e.o != o
    ensures o in s.ops && Apply(s, e).ops[o] == s.ops[o]
  {
    hide ListsRunning, ListsExpired, Mentioned;
  }

  lemma OpConsistentKeptByReap(s: State, e: Event)
    requires AllConsistent(s) && Enabled(s, e) && ReapEvent(e) && e.o in Apply(s, e).ops
    ensures OpConsistent(Apply(s, e).ops[e.o])
  {
    hide ListsRunning, Mentioned;
    if e.BeginReap? {
      forall i | 0 <= i < |e.todo| ensures Consistent(e.todo[i].row) {
        assert Expired(s, e.todo[i].id);
      }
    } else {
      ReapedOn(s, e);
      assert OpConsistent(s.ops[e.o]);
      hide Apply, Enabled;
    }
  }

  lemma OpConsistentKeptByRequest(s: State, e: Event)
    requires AllConsistent(s) && Enabled(s, e) && !ReapEvent(e) && !Background(e) && e.o in Apply(s, e).ops
    ensures OpConsistent(Apply(s, e).ops[e.o])
  {
    hide ListsRunning, ListsExpired, Mentioned, Expired;
    if e.o in s.ops { assert OpConsistent(s.ops[e.o]); }
  }

  lemma ConsistentKept(s: State, e: Event)
    requires AllConsistent(s) && Enabled(s, e)
    ensures AllConsistent(Apply(s, e))
  {
    hide Apply, Enabled;
    forall id | id in Apply(s, e).rows ensures Consistent(Apply(s, e).rows[id]) {
      RowConsistentKept(s, e, id);
    }
    forall o | o in Apply(s, e).ops ensures OpConsistent(Apply(s, e).ops[o]) {
      if Background(e) || e.o != o { OpsOnlyFromEvent(s, e, o); }
      else if ReapEvent(e) { OpConsistentKeptByReap(s, e); }
      else { OpConsistentKeptByRequest(s, e); }
    }
  }

  lemma {:induction false} ConsistentAlways(s: State, es: seq<Event>)
    requires AllConsistent(s) && Possible(s, es)
    ensures AllConsistent(After(s, es))
    decreases |es|
  {
    if es != [] {
      ConsistentKept(s, es[0]);
      ConsistentAlways(Apply(s, es[0]), es[1..]);
    }
  }

  /** Under every interleaving, with any call failing: a row is paused exactly when it has a pause
      reference.  Hence neither the resume handler nor the reaper ever reaches its branch for a
      paused sandbox without one. */
  lemma PausedIffReference(sandboxTTL: nat, pausedTTL: nat, start: int, es: seq<Event>)
    requires Possible(Init(sandboxTTL, pausedTTL, start), es)
    ensures var s := After(Init(sandboxTTL, pausedTTL, start), es);
            && (forall id :: id in s.rows ==> (s.rows[id].status.Paused? <==> s.rows[id].pauseRef.Some?))
            && (forall o :: o in s.ops && s.ops[o].Resuming? ==> s.ops[o].row.pauseRef.Some?)
            && (forall o :: o in s.ops && s.ops[o].Reaping? && s.ops[o].todo != [] && s.ops[o].todo[0].row.status.Paused? ==>
                 s.ops[o].todo[0].row.pauseRef.Some?)
  {
    ConsistentAlways(Init(sandboxTTL, pausedTTL, start), es);
  }

  // ---- Work on one sandbox serialised, store calls succeeding ----

  predicate LoopEnds(e: Event) { e.ReapEnds? || e.ReconEnds? }

  /** The sandbox a request, or the work of a reap or a reconcile on one row, is about.  A loop
      between two rows is about none. */
  function Busy(op: Op): Option<Id>
  {
    match op
    case Reaping(_) => None
    case Reconciling(_) => None
    case _ => Some(op.id)
  }

  /** No request and no work on a row of this sandbox is under way. */
  predicate FreeFor(s: State, id: Id)
  {
    forall o :: o in s.ops ==> Busy(s.ops[o]) != Some(id)
  }

  /** The sandbox a step works on. */
  ghost function Subject(s: State, e: Event): Option<Id>
    requires Enabled(s, e)
  {
    match e
    case Created(_, id) => Some(id)
    case BeginDelete(_, id) => Some(id)
    case BeginPause(_, id) => Some(id)
    case BeginResume(_, id) => Some(id)
    case Reaped(o, _, _) => Some(s.ops[o].todo[0].id)
    case Checked(o, _) => Some(s.ops[o].ids[0])
    case Saved(o, _) => Some(s.ops[o].id)
    case Killed(o, _, _) => Some(s.ops[o].id)
    case Erased(o, _) => Some(s.ops[o].id)
    case PauseDone(o, _) => Some(s.ops[o].id)
    case PauseFails(o, _) => Some(s.ops[o].id)
    case ResumeDone(o) => Some(s.ops[o].id)
    case ResumeFails(o) => Some(s.ops[o].id)
    case ReapErased(o, _) => Some(s.ops[o].id)
    case ReconErased(o, _) => Some(s.ops[o].id)
    case _ => None
  }

  /** Read again, the row is the listed one, or it is gone. */
  predicate StillListed(s: State, head: Entry)
  {
    head.id in s.rows ==> s.rows[head.id] == head.row
  }

  /** Requests, and the work of reaps and reconciles on single rows, are serialised per sandbox;
      those on different sandboxes interleave freely, and so do time, crashes, background
      clean-ups, and any number of reaps and reconciles between their rows.  Store calls succeed.
      A reap works on a row only if it is still as listed - a guard the reaper does not have. */
  predicate Guarded(s: State, e: Event)
  {
    match e
    case Created(_, id) => FreeFor(s, id)
    case BeginDelete(_, id) => FreeFor(s, id)
    case BeginPause(_, id) => FreeFor(s, id)
    case BeginResume(_, id) => FreeFor(s, id)
    case Reaped(o, _, _) =>
      && o in s.ops && s.ops[o].Reaping? && s.ops[o].todo != []
      && FreeFor(s, s.ops[o].todo[0].id) && StillListed(s, s.ops[o].todo[0])
    case Checked(o, _) => o in s.ops && s.ops[o].Reconciling? && s.ops[o].ids != [] && FreeFor(s, s.ops[o].ids[0])
    case Saved(_, ok) => ok
    case Erased(_, ok) => ok
    case ReapErased(_, ok) => ok
    case ReconErased(_, ok) => ok
    case _ => true
  }

  ghost predicate GuardedRun(s: State, es: seq<Event>)
    decreases |es|
  {
    es != [] ==> Enabled(s, es[0]) && Guarded(s, es[0]) && GuardedRun(Apply(s, es[0]), es[1..])
  }

  ghost predicate Overdue(s: State, todo: seq<Entry>)
  {
    forall i :: 0 <= i < |todo| ==> todo[i].row.expiresAt < s.now
  }

  /** What an operation under way may rely on. */
  ghost predicate Fits(s: State, op: Op)
  {
    match op
    case Saving(id, row, _) =>
      && id in s.due && row.expiresAt == s.due[id]
      && (row.status.Paused? ==> id !in s.live)
    case Killing(id) => id in s.rows
    case Erasing(id) => id !in s.live
    case Pausing(id, row) => id in s.rows && s.rows[id] == row
    case Resuming(id, row) => id in s.rows && s.rows[id] == row
    case Reaping(todo) => Overdue(s, todo)
    case ReapErasing(id, todo) => id !in s.live && Overdue(s, todo)
    case ReconErasing(id, _) => id !in s.live
    case _ => true
  }

  /** The row says what the backend last did. */
  ghost predicate Recorded(s: State, id: Id)
  {
    && id in s.rows && id in s.due && s.rows[id].expiresAt == s.due[id]
    && (s.rows[id].status.Paused? ==> id !in s.live)
  }

  ghost predicate Tracked(s: State)
  {
    && OneEach(s)
    && (forall o :: o in s.ops ==> Fits(s, s.ops[o]))
    && (forall id :: id in s.live ==> id in s.rows || Mentioned(s, id))
    && (forall id :: id in s.rows ==> Recorded(s, id) || Mentioned(s, id))
  }

  /** At most one request or work on a row per sandbox. */
  ghost predicate OneEach(s: State)
  {
    forall o, p :: o in s.ops && p in s.ops && Busy(s.ops[o]).Some? && Busy(s.ops[o]) == Busy(s.ops[p]) ==> o == p
  }

  /** A step works on a sandbox that is free, or that its own operation is about. */
  lemma SubjectIsOwn(s: State, e: Event)
    requires Enabled(s, e) && Guarded(s, e) && Subject(s, e).Some?
    ensures FreeFor(s, Subject(s, e).value) || (e.o in s.ops && Busy(s.ops[e.o]) == Subject(s, e))
  {
    hide ListsRunning, ListsExpired, Mentioned;
  }

  /** So it is not what another operation is about. */
  lemma SubjectElsewhere(s: State, e: Event, o: nat)
    requires OneEach(s) && Enabled(s, e) && Guarded(s, e)
    requires o in s.ops && Busy(s.ops[o]).Some? && (Background(e) || e.o != o)
    ensures Subject(s, e) != Busy(s.ops[o])
  {
    hide Enabled, Guarded;
    if Subject(s, e).Some? { SubjectIsOwn(s, e); }
    if Background(e) { BackgroundHasNone(s, e); }
  }

  lemma BackgroundHasNone(s: State, e: Event)
    requires Enabled(s, e) && Background(e)
    ensures Subject(s, e).None?
  {}

  /** What a step's own operation is about afterwards is what it worked on. */
  lemma OwnSubject(s: State, e: Event)
    requires Enabled(s, e) && !Background(e) && e.o in Apply(s, e).ops && Busy(Apply(s, e).ops[e.o]).Some?
    ensures Busy(Apply(s, e).ops[e.o]) == Subject(s, e)
  {
    hide ListsRunning, ListsExpired, Mentioned;
  }

  lemma RowsElsewhere(s: State, e: Event, x: Id)
    requires Enabled(s, e) && Subject(s, e) != Some(x)
    ensures (x in Apply(s, e).rows <==> x in s.rows) && (x in s.rows ==> Apply(s, e).rows[x] == s.rows[x])
  {
    hide ListsRunning, ListsExpired, Mentioned;
    if !e.Saved? && !e.Erased? && !e.ReapErased? && !e.ReconErased? {
      RowsStand(s, e);
      hide Apply, Enabled, Subject;
    } else {
      assert Subject(s, e) == Some(s.ops[e.o].id);
      hide Subject;
    }
  }

  lemma DueElsewhere(s: State, e: Event, x: Id)
    requires Enabled(s, e) && Subject(s, e) != Some(x)
    ensures (x in Apply(s, e).due <==> x in s.due) && (x in s.due ==> Apply(s, e).due[x] == s.due[x])
  {
    hide ListsRunning, ListsExpired, Mentioned;
  }

  lemma LiveElsewhere(s: State, e: Event, x: Id)
    requires Enabled(s, e) && Subject(s, e) != Some(x)
    ensures x in Apply(s, e).live ==> x in s.live
  {
    hide ListsRunning, ListsExpired, Mentioned;
  }

  lemma OneEachKept(s: State, e: Event, o: nat, p: nat)
    requires OneEach(s) && Enabled(s, e) && Guarded(s, e)
    requires o in Apply(s, e).ops && p in Apply(s, e).ops
    requires Busy(Apply(s, e).ops[o]).Some? && Busy(Apply(s, e).ops[o]) == Busy(Apply(s, e).ops[p])
    ensures o == p
  {
    hide Apply, Enabled, Guarded, Subject;
    if Background(e) || e.o != o { OpsOnlyFromEvent(s, e, o); SubjectElsewhere(s, e, o); } else { OwnSubject(s, e); }
    if Background(e) || e.o != p { OpsOnlyFromEvent(s, e, p); SubjectElsewhere(s, e, p); } else { OwnSubject(s, e); }
  }

  lemma FitsKeptInBackground(s: State, e: Event, o: nat)
    requires Tracked(s) && Enabled(s, e) && o in s.ops && Background(e)
    ensures Fits(Apply(s, e), s.ops[o])
  {
    hide ListsRunning, ListsExpired, Mentioned, Recorded;
    assert Fits(s, s.ops[o]);
  }

  /** Steps of other operations do not disturb one: they work on other sandboxes. */
  lemma FitsKeptElsewhere(s: State, e: Event, o: nat)
    requires Tracked(s) && Enabled(s, e) && Guarded(s, e) && o in Apply(s, e).ops && !Background(e) && e.o != o
    ensures Fits(Apply(s, e), Apply(s, e).ops[o])
  {
    hide Apply, Enabled, Guarded, Mentioned, Recorded, Subject;
    OpsOnlyFromEvent(s, e, o);
    assert Fits(s, s.ops[o]);
    TimeStands(s, e);
    if Busy(s.ops[o]).Some? {
      SubjectElsewhere(s, e, o);
      RowsElsewhere(s, e, s.ops[o].id);
      DueElsewhere(s, e, s.ops[o].id);
      LiveElsewhere(s, e, s.ops[o].id);
    }
    hide OneEach;
  }

  lemma TimeStands(s: State, e: Event)
    requires Enabled(s, e)
    ensures if e.Passes? then Apply(s, e).now >= s.now else Apply(s, e).now == s.now
  {
    hide ListsRunning, ListsExpired, Mentioned;
  }

  lemma FitsKeptByReap(s: State, e: Event)
    requires Tracked(s) && Enabled(s, e) && Guarded(s, e) && ReapEvent(e) && e.o in Apply(s, e).ops
    ensures Fits(Apply(s, e), Apply(s, e).ops[e.o])
  {
    if e.Reaped? {
      FitsKeptByReaped(s, e);
    } else if e.ReapErased? {
      assert Fits(s, s.ops[e.o]);
      hide ListsRunning, ListsExpired, Mentioned, Recorded;
    } else {
      hide ListsRunning, Mentioned, Recorded;
    }
    hide Tracked;
  }

  lemma FitsKeptByReaped(s: State, e: Event)
    requires Tracked(s) && Enabled(s, e) && Guarded(s, e) && e.Reaped?
    ensures Fits(Apply(s, e), Apply(s, e).ops[e.o])
  {
    hide ListsRunning, ListsExpired, Mentioned, Recorded;
    var todo := s.ops[e.o].todo;
    assert Fits(s, s.ops[e.o]);
    assert forall i :: 0 <= i < |todo[1..]| ==> todo[1..][i] == todo[i + 1];
    if todo[0].row.status.Paused? { PausedIsNotLive(s, todo[0]); }
    hide Tracked;
  }

  lemma FitsKeptByRequest(s: State, e: Event)
    requires Tracked(s) && Enabled(s, e) && Guarded(s, e) && !ReapEvent(e) && !Background(e) && e.o in Apply(s, e).ops
    ensures Fits(Apply(s, e), Apply(s, e).ops[e.o])
  {
    hide ListsRunning, ListsExpired, Mentioned, Recorded;
    if e.o in s.ops { assert Fits(s, s.ops[e.o]); }
  }

  lemma PausedIsNotLive(s: State, head: Entry)
    requires Tracked(s) && FreeFor(s, head.id) && StillListed(s, head) && head.row.status.Paused?
    ensures head.id !in s.live
  {
    FreeIsNotMentioned(s, head.id);
    if head.id in s.rows { assert Recorded(s, head.id); }
  }

  lemma FreeIsNotMentioned(s: State, id: Id)
    requires FreeFor(s, id)
    ensures !Mentioned(s, id)
  {}

  /** What makes a sandbox run has a save to do. */
  lemma LiveAfter(s: State, e: Event, id: Id)
    requires Enabled(s, e) && id in Apply(s, e).live
    ensures id in s.live || Mentioned(Apply(s, e), id)
  {
    hide ListsRunning, ListsExpired;
    var t := Apply(s, e);
    if e.Created? || e.ResumeDone? { assert e.o in t.ops && t.ops[e.o].Saving?; }
    assert id in s.live || ((e.Created? || e.ResumeDone?) && t.ops[e.o].id == id);
    hide Apply, Enabled;
  }

  predicate Erases(e: Event) { e.Erased? || e.ReapErased? || e.ReconErased? }

  lemma RowStays(s: State, e: Event, id: Id)
    requires Enabled(s, e) && id in s.rows
    ensures id in Apply(s, e).rows || (Erases(e) && s.ops[e.o].id == id)
  {
    hide ListsRunning, ListsExpired, Mentioned;
  }

  /** A row is erased when its sandbox does not run. */
  lemma ErasesTheDead(s: State, e: Event)
    requires Tracked(s) && Enabled(s, e) && Erases(e)
    ensures s.ops[e.o].id !in s.live
  {
    assert Fits(s, s.ops[e.o]);
    hide Mentioned, Recorded;
  }

  lemma LiveKnownKept(s: State, e: Event, id: Id)
    requires Tracked(s) && Enabled(s, e) && Guarded(s, e) && id in Apply(s, e).live
    ensures id in Apply(s, e).rows || Mentioned(Apply(s, e), id)
  {
    hide Apply, Enabled, Guarded, Mentioned, Recorded, Fits;
    LiveAfter(s, e, id);
    if id in s.live {
      if Mentioned(s, id) {
        MentionedStays(s, e, id);
      } else {
        RowStays(s, e, id);
        if Erases(e) { ErasesTheDead(s, e); }
      }
    }
  }

  /** A pending save stays pending until it is done. */
  lemma MentionedStays(s: State, e: Event, id: Id)
    requires Enabled(s, e) && Guarded(s, e) && Mentioned(s, id)
    ensures Mentioned(Apply(s, e), id) || (e.Saved? && s.ops[e.o].id == id && id in Apply(s, e).rows)
  {
    hide Apply, Enabled, Guarded;
    var o :| o in s.ops && s.ops[o].Saving? && s.ops[o].id == id;
    if Background(e) || e.o != o { OpsStay(s, e, o); } else { SaveIsDone(s, e); }
  }

  lemma SaveIsDone(s: State, e: Event)
    requires Enabled(s, e) && Guarded(s, e) && !Background(e) && e.o in s.ops && s.ops[e.o].Saving?
    ensures e.Saved? && s.ops[e.o].id in Apply(s, e).rows && e.o !in Apply(s, e).ops
  {
    hide ListsRunning, ListsExpired, Mentioned;
  }

  /** The end of a TTL moves only with a save to do. */
  lemma DueAfter(s: State, e: Event, id: Id)
    requires Enabled(s, e) && id in s.due
    ensures (id in Apply(s, e).due && Apply(s, e).due[id] == s.due[id]) || Mentioned(Apply(s, e), id)
  {
    hide ListsRunning, ListsExpired;
    var t := Apply(s, e);
    if e.Created? || e.PauseDone? || e.ResumeDone? { assert e.o in t.ops && t.ops[e.o].Saving?; }
    assert (id in t.due && t.due[id] == s.due[id])
           || ((e.Created? || e.PauseDone? || e.ResumeDone?) && t.ops[e.o].id == id);
    hide Apply, Enabled;
  }

  lemma RecordedKept(s: State, e: Event, id: Id)
    requires Enabled(s, e) && id in Apply(s, e).rows && !(e.Saved? && s.ops[e.o].id == id)
    requires Recorded(s, id)
    ensures Recorded(Apply(s, e), id) || Mentioned(Apply(s, e), id)
  {
    hide Apply, Enabled, Mentioned;
    RowAfter(s, e, id);
    DueAfter(s, e, id);
    if id in Apply(s, e).live { LiveAfter(s, e, id); }
  }

  lemma RecordedBySave(s: State, e: Event)
    requires Tracked(s) && Enabled(s, e) && Guarded(s, e) && e.Saved?
    ensures Recorded(Apply(s, e), s.ops[e.o].id)
  {
    hide ListsRunning, ListsExpired, Mentioned;
    assert Fits(s, s.ops[e.o]);
  }

  lemma FitsKept(s: State, e: Event, o: nat)
    requires Tracked(s) && Enabled(s, e) && Guarded(s, e) && o in Apply(s, e).ops
    ensures Fits(Apply(s, e), Apply(s, e).ops[o])
  {
    hide Tracked, Enabled, Guarded, Apply, Fits;
    if Background(e) { OpsOnlyFromEvent(s, e, o); FitsKeptInBackground(s, e, o); }
    else if e.o != o { FitsKeptElsewhere(s, e, o); }
    else if ReapEvent(e) { FitsKeptByReap(s, e); }
    else { FitsKeptByRequest(s, e); }
  }

  lemma TrackedKept(s: State, e: Event)
    requires Tracked(s) && Enabled(s, e) && Guarded(s, e)
    ensures Tracked(Apply(s, e))
  {
    var t := Apply(s, e);
    hide Apply, Guarded, Fits, Mentioned, Recorded;
    assert e.Saved? ==> e.o in s.ops && s.ops[e.o].Saving?;
    hide Enabled;
    forall o, p | o in t.ops && p in t.ops && Busy(t.ops[o]).Some? && Busy(t.ops[o]) == Busy(t.ops[p]) ensures o == p {
      OneEachKept(s, e, o, p);
    }
    forall o | o in t.ops ensures Fits(t, t.ops[o]) { FitsKept(s, e, o); }
    forall id | id in t.live ensures id in t.rows || Mentioned(t, id) { LiveKnownKept(s, e, id); }
    forall id | id in t.rows ensures Recorded(t, id) || Mentioned(t, id) {
      if e.Saved? && s.ops[e.o].id == id { RecordedBySave(s, e); }
      else if Mentioned(s, id) { MentionedStays(s, e, id); }
      else { RowAfter(s, e, id); RecordedKept(s, e, id); }
    }
  }

  lemma {:induction false} TrackedAlways(s: State, es: seq<Event>)
    requires Tracked(s) && GuardedRun(s, es)
    ensures Possible(s, es) && Tracked(After(s, es))
    decreases |es|
  {
    if es != [] {
      TrackedKept(s, es[0]);
      TrackedAlways(Apply(s, es[0]), es[1..]);
    }
  }

  lemma GuardedIsPossible(sandboxTTL: nat, pausedTTL: nat, start: int, es: seq<Event>)
    requires GuardedRun(Init(sandboxTTL, pausedTTL, start), es)
    ensures Possible(Init(sandboxTTL, pausedTTL, start), es)
    ensures Tracked(After(Init(sandboxTTL, pausedTTL, start), es))
  {
    TrackedAlways(Init(sandboxTTL, pausedTTL, start), es);
  }

  /** With the guard, requests may fall anywhere between the rows of reaps and reconciles, and among
      those on other sandboxes: every sandbox the backend reports running under an API ID has a row,
      or the handler that has just made it run is about to save that row; and a row reaped has
      outlived its TTL, counted from the backend's last create, pause or resume. */
  lemma GuardedLaws(sandboxTTL: nat, pausedTTL: nat, start: int, es: seq<Event>)
    requires GuardedRun(Init(sandboxTTL, pausedTTL, start), es)
    requires Possible(Init(sandboxTTL, pausedTTL, start), es)
    ensures var s := After(Init(sandboxTTL, pausedTTL, start), es);
            && (forall id :: id in s.live ==> id in s.rows || Mentioned(s, id))
            && (forall id :: id in s.live && FreeFor(s, id) ==> id in s.rows)
    ensures var s := After(Init(sandboxTTL, pausedTTL, start), es);
            forall e: Event :: e.Reaped? && Enabled(s, e) && Guarded(s, e) ==>
              var id := s.ops[e.o].todo[0].id;
              if id in s.rows then id in s.due && s.due[id] < s.now else id !in s.live
  {
    GuardedIsPossible(sandboxTTL, pausedTTL, start, es);
    var s := After(Init(sandboxTTL, pausedTTL, start), es);
    forall e: Event | e.Reaped? && Enabled(s, e) && Guarded(s, e)
      ensures var id := s.ops[e.o].todo[0].id;
              if id in s.rows then id in s.due && s.due[id] < s.now else id !in s.live
    {
      ReapIsEarlyIff(s, e);
      assert Fits(s, s.ops[e.o]);
    }
    forall id | id in s.live && FreeFor(s, id) ensures id in s.rows { FreeIsNotMentioned(s, id); }
    hide Possible, After, GuardedRun, Fits, Recorded;
  }

  /** Exactly when a reap step, guarded or not, comes early: when the row, read again, is there
      and not expired. */
  lemma ReapIsEarlyIff(s: State, e: Event)
    requires Tracked(s) && e.Reaped? && Enabled(s, e) && FreeFor(s, s.ops[e.o].todo[0].id)
    ensures var id := s.ops[e.o].todo[0].id;
            if id in s.rows then id in s.due && (s.due[id] < s.now <==> Expired(s, id)) else id !in s.live
  {
    var id := s.ops[e.o].todo[0].id;
    FreeIsNotMentioned(s, id);
    if id in s.rows { assert Recorded(s, id); }
  }

  /** Runs without a row, and no handler is about to save one. */
  ghost predicate Orphaned(s: State, id: Id)
  {
    id in s.live && id !in s.rows && !Mentioned(s, id)
  }

  /** And exactly when it takes the row of a sandbox that runs: when the row was listed as paused
      and its sandbox is running - so that the row, read again, is not the listed one. */
  lemma ReapOrphansIff(s: State, o: nat, gone: bool)
    requires Tracked(s) && Enabled(s, Reaped(o, true, gone)) && FreeFor(s, s.ops[o].todo[0].id)
    ensures var head := s.ops[o].todo[0];
            var t := Apply(s, Reaped(o, true, gone));
            && Enabled(t, ReapErased(o, true))
            && var u := Apply(t, ReapErased(o, true));
               && ((exists id :: Orphaned(u, id)) <==> head.row.status.Paused? && head.id in s.live)
               && (head.row.status.Paused? && head.id in s.live ==> !StillListed(s, head))
  {
    hide ListsRunning, ListsExpired, Recorded, Fits;
    var head := s.ops[o].todo[0];
    var u := Apply(Apply(s, Reaped(o, true, gone)), ReapErased(o, true));
    if head.row.status.Paused? && StillListed(s, head) { PausedIsNotLive(s, head); }
    MentionedByReap(s, o, gone);
    FreeIsNotMentioned(s, head.id);
    hide Mentioned;
    if head.row.status.Paused? && head.id in s.live { assert Orphaned(u, head.id); }
  }

  /** A reap's work on a row leaves all pending saves. */
  lemma MentionedByReap(s: State, o: nat, gone: bool)
    requires Enabled(s, Reaped(o, true, gone))
    ensures var t := Apply(s, Reaped(o, true, gone));
            && Enabled(t, ReapErased(o, true))
            && forall id :: Mentioned(Apply(t, ReapErased(o, true)), id) <==> Mentioned(s, id)
  {
    hide ListsRunning, ListsExpired;
    var t := Apply(s, Reaped(o, true, gone));
    var u := Apply(t, ReapErased(o, true));
    assert forall q :: q != o ==> (q in u.ops <==> q in s.ops) && (q in s.ops ==> u.ops[q] == s.ops[q]);
    assert u.ops[o].Reaping? && s.ops[o].Reaping?;
    hide Apply, Enabled;
    forall id ensures Mentioned(u, id) <==> Mentioned(s, id) {
      if Mentioned(s, id) {
        var q :| q in s.ops && s.ops[q].Saving? && s.ops[q].id == id;
        assert q in u.ops && u.ops[q] == s.ops[q];
      }
    }
  }

  /** A reconcile needs no guard for these laws.  But it, too, works on a stale list: with requests
      falling between its rows, it deletes the row of a paused sandbox exactly when the row was
      listed as running and has been paused since. */
  lemma ReconcileForgetsIff(s: State, o: nat)
    requires Tracked(s) && Enabled(s, Checked(o, true)) && FreeFor(s, s.ops[o].ids[0])
    ensures var id, t := s.ops[o].ids[0], Apply(s, Checked(o, true));
            var u := if t.ops[o].ReconErasing? then Apply(t, ReconErased(o, true)) else t;
            && (t.ops[o].ReconErasing? ==> Enabled(t, ReconErased(o, true)))
            && ((exists k :: k in s.rows && s.rows[k].status.Paused? && k !in u.rows)
                <==> id in s.rows && s.rows[id].status.Paused?)
            && u.images == s.images
  {
    hide ListsRunning, ListsExpired, Fits;
    var id := s.ops[o].ids[0];
    FreeIsNotMentioned(s, id);
    if id in s.rows && s.rows[id].status.Paused? {
      assert Recorded(s, id);
      var t := Apply(s, Checked(o, true));
      assert id !in Apply(t, ReconErased(o, true)).rows;
    }
    hide Recorded, Mentioned;
  }

  // ---- Sandboxes that end unrecorded ----

  /** The step ends the sandbox although the call it belongs to, if any, fails. */
  predicate EndsUnrecorded(s: State, e: Event, id: Id)
  {
    match e
    case Crash(x) => x == id
    case Killed(o, ok, gone) => !ok && gone && o in s.ops && s.ops[o].Killing? && s.ops[o].id == id
    case PauseFails(o, gone) => gone && o in s.ops && s.ops[o].Pausing? && s.ops[o].id == id
    case Reaped(o, ok, gone) =>
      && !ok && gone && o in s.ops && s.ops[o].Reaping? && s.ops[o].todo != []
      && s.ops[o].todo[0].id == id && s.ops[o].todo[0].row.status.Running?
    case _ => false
  }

  /** Exactly when a sandbox runs after a step: it was created or resumed, or it ran and has neither
      crashed, nor been killed, paused or reaped, nor been lost in a call that fails. */
  lemma RunsAfterIff(s: State, e: Event, id: Id)
    requires Enabled(s, e)
    ensures id in Apply(s, e).live <==>
              || (e.Created? && e.id == id)
              || (e.ResumeDone? && s.ops[e.o].id == id)
              || (id in s.live && !EndsUnrecorded(s, e, id)
                  && !((e.PauseDone? || (e.Killed? && e.ok)) && s.ops[e.o].id == id)
                  && !(e.Reaped? && e.ok && s.ops[e.o].todo[0].id == id && s.ops[e.o].todo[0].row.status.Running?))
  {
    hide ListsRunning, ListsExpired, Mentioned;
  }

  /** A sandbox that ends unrecorded leaves its row and every other; a reconcile that checks it then
      deletes just its row. */
  lemma UnrecordedEndIsReconciled(s: State, e: Event, id: Id, o: nat)
    requires Enabled(s, e) && EndsUnrecorded(s, e, id)
    ensures var t := Apply(s, e);
            && id !in t.live && t.rows == s.rows && t.images == s.images
            && (Enabled(t, Checked(o, true)) && t.ops[o].ids[0] == id ==>
                 var u := Apply(t, Checked(o, true));
                 Enabled(u, ReconErased(o, true)) && Apply(u, ReconErased(o, true)).rows == s.rows - {id})
  {
    hide ListsRunning, ListsExpired, Mentioned;
  }

  // ---- Whole reaps and reconciles atomic ----

  /** At most one handler, reap or reconcile is under way. */
  predicate Atomic(s: State, e: Event)
  {
    match e
    case Created(_, _) => s.ops == map[]
    case BeginDelete(_, _) => s.ops == map[]
    case BeginPause(_, _) => s.ops == map[]
    case BeginResume(_, _) => s.ops == map[]
    case BeginReap(_, _) => s.ops == map[]
    case BeginReconcile(_, _) => s.ops == map[]
    case Saved(_, ok) => ok
    case Erased(_, ok) => ok
    case ReapErased(_, ok) => ok
    case ReconErased(_, ok) => ok
    case _ => true
  }

  ghost predicate AtomicRun(s: State, es: seq<Event>)
    decreases |es|
  {
    es != [] ==> Enabled(s, es[0]) && Atomic(s, es[0]) && AtomicRun(Apply(s, es[0]), es[1..])
  }

  ghost predicate Current(s: State, todo: seq<Entry>)
  {
    && (forall i :: 0 <= i < |todo| ==> Expired(s, todo[i].id) && s.rows[todo[i].id] == todo[i].row)
    && (forall i, j :: 0 <= i < j < |todo| ==> todo[i].id != todo[j].id)
  }

  ghost predicate UpToDate(s: State, op: Op)
  {
    match op
    case Reaping(todo) => Current(s, todo)
    case ReapErasing(id, todo) => Current(s, todo) && forall i :: 0 <= i < |todo| ==> todo[i].id != id
    case _ => true
  }

  /** The one operation under way, if a reap, works on a listing that is up to date. */
  ghost predicate Solo(s: State)
  {
    && (forall o, p :: o in s.ops && p in s.ops ==> o == p)
    && (forall o :: o in s.ops ==> UpToDate(s, s.ops[o]))
  }

  lemma AtomicIsGuarded(s: State, e: Event)
    requires Solo(s) && Enabled(s, e) && Atomic(s, e)
    ensures Guarded(s, e)
  {
    hide ListsRunning, ListsExpired, Mentioned;
    if e.Reaped? { assert UpToDate(s, s.ops[e.o]); }
  }

  lemma OneOpKept(s: State, e: Event, o: nat, p: nat)
    requires Solo(s) && Enabled(s, e) && Atomic(s, e)
    requires o in Apply(s, e).ops && p in Apply(s, e).ops
    ensures o == p
  {
    hide Apply, Enabled, Atomic, Mentioned, UpToDate;
    if Background(e) || e.o != o { OpsOnlyFromEvent(s, e, o); }
    if Background(e) || e.o != p { OpsOnlyFromEvent(s, e, p); }
    if !Background(e) { StepsOnItsOwn(s, e); }
  }

  lemma StepsOnItsOwn(s: State, e: Event)
    requires Enabled(s, e) && Atomic(s, e) && !Background(e)
    ensures s.ops == map[] || e.o in s.ops
  {
    hide ListsRunning, ListsExpired, Mentioned;
  }

  lemma CurrentRest(s: State, todo: seq<Entry>)
    requires Current(s, todo) && todo != []
    ensures Current(s, todo[1..]) && forall i :: 0 <= i < |todo[1..]| ==> todo[1..][i].id != todo[0].id
  {
    var rest := todo[1..];
    assert forall i :: 0 <= i < |rest| ==> rest[i] == todo[i + 1];
  }

  lemma CurrentSurvives(s: State, t: State, todo: seq<Entry>)
    requires Current(s, todo) && t.now >= s.now
    requires forall i :: 0 <= i < |todo| ==> todo[i].id in t.rows && t.rows[todo[i].id] == s.rows[todo[i].id]
    ensures Current(t, todo)
  {}

  lemma ListedIsCurrent(s: State, todo: seq<Entry>)
    requires ListsExpired(s, todo)
    ensures Current(s, todo)
  {}

  lemma UpToDateKept(s: State, e: Event, o: nat)
    requires Solo(s) && Enabled(s, e) && Atomic(s, e) && o in Apply(s, e).ops
    ensures UpToDate(Apply(s, e), Apply(s, e).ops[o])
  {
    if Background(e) || e.o != o {
      hide Apply, Enabled, Atomic, Current;
      OpsOnlyFromEvent(s, e, o);
      assert UpToDate(s, s.ops[o]);
      if s.ops[o].Reaping? || s.ops[o].ReapErasing? {
        if !Background(e) { StepsOnItsOwn(s, e); } else { UpToDateMoves(s, e, s.ops[o].todo); }
      }
    } else if ReapEvent(e) {
      UpToDateByReap(s, e);
    } else {
      RequestIsNoReap(s, e);
    }
    hide Apply, Enabled, Atomic, Current;
  }

  lemma RequestIsNoReap(s: State, e: Event)
    requires Enabled(s, e) && !Background(e) && !ReapEvent(e) && e.o in Apply(s, e).ops
    ensures !Apply(s, e).ops[e.o].Reaping? && !Apply(s, e).ops[e.o].ReapErasing?
  {
    hide ListsRunning, ListsExpired, Mentioned;
  }

  lemma UpToDateByReap(s: State, e: Event)
    requires Solo(s) && Enabled(s, e) && Atomic(s, e) && ReapEvent(e) && e.o in Apply(s, e).ops
    ensures UpToDate(Apply(s, e), Apply(s, e).ops[e.o])
  {
    hide Atomic, Current;
    if e.BeginReap? {
      BegunReap(s, e);
      hide Apply, Enabled;
      ListedIsCurrent(s, e.todo);
      UpToDateMoves(s, e, e.todo);
    } else {
      ReapedOn(s, e);
      hide Apply, Enabled;
      assert UpToDate(s, s.ops[e.o]);
      var todo := s.ops[e.o].todo;
      if e.Reaped? {
        CurrentRest(s, todo);
        UpToDateMoves(s, e, todo[1..]);
      } else {
        UpToDateMoves(s, e, todo);
      }
    }
  }

  lemma BegunReap(s: State, e: Event)
    requires Enabled(s, e) && e.BeginReap?
    ensures ListsExpired(s, e.todo) && e.o in Apply(s, e).ops && Apply(s, e).ops[e.o] == Reaping(e.todo)
  {
    hide ListsExpired, ListsRunning, Mentioned;
  }

  lemma ReapedOn(s: State, e: Event)
    requires Enabled(s, e) && (e.Reaped? || e.ReapErased? || e.ReapEnds?) && e.o in Apply(s, e).ops
    ensures e.o in s.ops && !e.ReapEnds?
    ensures e.Reaped? ==>
              && s.ops[e.o].Reaping? && s.ops[e.o].todo != []
              && var t := Apply(s, e).ops[e.o];
                 t == Reaping(s.ops[e.o].todo[1..]) || t == ReapErasing(s.ops[e.o].todo[0].id, s.ops[e.o].todo[1..])
    ensures e.ReapErased? ==> s.ops[e.o].ReapErasing? && Apply(s, e).ops[e.o] == Reaping(s.ops[e.o].todo)
  {
    hide ListsExpired, ListsRunning, Mentioned;
  }

  lemma UpToDateMoves(s: State, e: Event, todo: seq<Entry>)
    requires Solo(s) && Enabled(s, e) && Atomic(s, e) && Current(s, todo)
    requires e.BeginReap? || exists o :: o in s.ops && (s.ops[o].Reaping? || s.ops[o].ReapErasing?)
    requires e.ReapErased? ==> forall i :: 0 <= i < |todo| ==> todo[i].id != s.ops[e.o].id
    ensures Current(Apply(s, e), todo)
  {
    hide ListsRunning, ListsExpired, Mentioned, UpToDate;
    var t := Apply(s, e);
    forall i | 0 <= i < |todo| ensures todo[i].id in t.rows && t.rows[todo[i].id] == s.rows[todo[i].id] {
      assert Expired(s, todo[i].id);
    }
    CurrentSurvives(s, t, todo);
  }

  lemma SoloKept(s: State, e: Event)
    requires Solo(s) && Enabled(s, e) && Atomic(s, e)
    ensures Solo(Apply(s, e))
  {
    var t := Apply(s, e);
    hide Apply, Enabled, Atomic, UpToDate;
    forall o, p | o in t.ops && p in t.ops ensures o == p { OneOpKept(s, e, o, p); }
    forall o | o in t.ops ensures UpToDate(t, t.ops[o]) { UpToDateKept(s, e, o); }
  }

  lemma {:induction false} AtomicRunIsGuarded(s: State, es: seq<Event>)
    requires Solo(s) && AtomicRun(s, es)
    ensures GuardedRun(s, es) && Possible(s, es) && Solo(After(s, es))
    decreases |es|
  {
    if es != [] {
      AtomicIsGuarded(s, es[0]);
      SoloKept(s, es[0]);
      AtomicRunIsGuarded(Apply(s, es[0]), es[1..]);
    }
  }

  /** With whole reaps and reconciles atomic as well, the guard is never needed: every sandbox the backend
      reports running under an API ID has a row, or the handler that has just made it run is
      about to save that row. */
  lemma EveryLiveSandboxHasRow(sandboxTTL: nat, pausedTTL: nat, start: int, es: seq<Event>, id: Id)
    requires AtomicRun(Init(sandboxTTL, pausedTTL, start), es)
    requires Possible(Init(sandboxTTL, pausedTTL, start), es)
    requires id in After(Init(sandboxTTL, pausedTTL, start), es).live
    ensures var s := After(Init(sandboxTTL, pausedTTL, start), es);
            && (id in s.rows || Mentioned(s, id))
            && (s.ops == map[] ==> id in s.rows)
  {
    AtomicRunIsGuarded(Init(sandboxTTL, pausedTTL, start), es);
    GuardedLaws(sandboxTTL, pausedTTL, start, es);
  }

  /** And nothing is reaped before its TTL, counted from the backend's last create, pause or
      resume, has passed. */
  lemma NoEarlyReap(sandboxTTL: nat, pausedTTL: nat, start: int, es: seq<Event>, e: Event)
    requires AtomicRun(Init(sandboxTTL, pausedTTL, start), es)
    requires Possible(Init(sandboxTTL, pausedTTL, start), es)
    requires e.Reaped? && Enabled(After(Init(sandboxTTL, pausedTTL, start), es), e)
    ensures var s := After(Init(sandboxTTL, pausedTTL, start), es);
            var head := s.ops[e.o].todo[0];
            && head.id in s.due && s.due[head.id] < s.now
            && head.id in s.rows && s.rows[head.id] == head.row
  {
    AtomicRunIsGuarded(Init(sandboxTTL, pausedTTL, start), es);
    GuardedIsPossible(sandboxTTL, pausedTTL, start, es);
    var s := After(Init(sandboxTTL, pausedTTL, start), es);
    hide Possible, After, GuardedRun, AtomicRun;
    assert UpToDate(s, s.ops[e.o]);
    AtomicIsGuarded(s, e);
    ReapIsEarlyIff(s, e);
  }

  // ---- Runs of a few steps ----

  ghost predicate Leads(s: State, es: seq<Event>, t: State)
  {
    Possible(s, es) && After(s, es) == t
  }

  lemma OneStep(s: State, e: Event)
    requires Enabled(s, e)
    ensures Leads(s, [e], Apply(s, e))
  {
    hide Apply, Enabled;
    var t := Apply(s, e);
    assert [e][0] == e && [e][1..] == [];
    assert Possible(t, []) && After(t, []) == t;
  }

  lemma ThreeSteps(s: State, c: Event, d: Event, e: Event)
    requires Enabled(s, c) && Enabled(Apply(s, c), d) && Enabled(Apply(Apply(s, c), d), e)
    ensures Leads(s, [c, d, e], Apply(Apply(Apply(s, c), d), e))
  {
    hide Apply, Enabled, Leads;
    var s1 := Apply(s, c);
    var s2 := Apply(s1, d);
    OneStep(s, c);
    OneStep(s1, d);
    OneStep(s2, e);
    LeadsOn(s, [c], s1, [d], s2);
    LeadsOn(s, [c] + [d], s2, [e], Apply(s2, e));
    assert [c] + [d] + [e] == [c, d, e];
  }

  lemma {:induction false} LeadsOn(s: State, xs: seq<Event>, t: State, ys: seq<Event>, u: State)
    requires Leads(s, xs, t) && Leads(t, ys, u)
    ensures Leads(s, xs + ys, u)
    decreases |xs|
  {
    hide Apply, Enabled;
    if xs == [] {
      assert xs + ys == ys;
    } else {
      assert (xs + ys)[1..] == xs[1..] + ys;
      LeadsOn(Apply(s, xs[0]), xs[1..], t, ys, u);
    }
  }

  /** The reaper has listed the rows; then a resume of `id` has run the backend call. */
  function ListedAndResumed(s: State, id: Id, todo: seq<Entry>): State
    requires id in s.rows
  {
    var due := s.now + s.sandboxTTL;
    s.(ops := map[0 := Reaping(todo), 1 := Saving(id, Row(Running, due, None), s.rows[id].pauseRef)],
       live := s.live + {id}, due := s.due[id := due])
  }

  function RowLost(s: State, id: Id, ref: Ref, rest: seq<Entry>): State
    requires id in s.rows
  {
    s.(ops := map[0 := Reaping(rest)], rows := s.rows - {id}, live := s.live + {id},
       due := s.due[id := s.now + s.sandboxTTL], images := s.images - {ref}, cleanups := s.cleanups + multiset{ref})
  }

  lemma ResumeSlipsIn(s: State, id: Id, todo: seq<Entry>)
    requires s.ops == map[] && ListsExpired(s, todo) && id in s.rows
    requires s.rows[id].status.Paused? && s.rows[id].pauseRef.Some? && s.rows[id].pauseRef.value in s.images
    ensures Leads(s, [BeginReap(0, todo), BeginResume(1, id), ResumeDone(1)], ListedAndResumed(s, id, todo))
  {
    hide ListsRunning, ListsExpired, Mentioned;
    assert Enabled(s, BeginReap(0, todo));
    var s1 := s.(ops := map[0 := Reaping(todo)]);
    assert Apply(s, BeginReap(0, todo)) == s1;
    ResumesBeside(s1, Reaping(todo), id);
    hide Apply, Enabled;
    ThreeSteps(s, BeginReap(0, todo), BeginResume(1, id), ResumeDone(1));
  }

  lemma ResumesBeside(s: State, loop: Op, id: Id)
    requires s.ops == map[0 := loop] && id in s.rows && s.rows[id].status.Paused?
    requires s.rows[id].pauseRef.Some? && s.rows[id].pauseRef.value in s.images
    ensures Enabled(s, BeginResume(1, id)) && Enabled(Apply(s, BeginResume(1, id)), ResumeDone(1))
    ensures Apply(Apply(s, BeginResume(1, id)), ResumeDone(1)) ==
            s.(ops := map[0 := loop, 1 := Saving(id, Row(Running, s.now + s.sandboxTTL, None), s.rows[id].pauseRef)],
               live := s.live + {id}, due := s.due[id := s.now + s.sandboxTTL])
  {
    hide ListsExpired, ListsRunning, Mentioned;
    assert Apply(s, BeginResume(1, id)).ops == map[0 := loop, 1 := Resuming(id, s.rows[id])];
  }

  lemma SavedNext(s: State, loop: Op, save: Op)
    requires s.ops == map[0 := loop, 1 := save] && save.Saving?
    ensures Enabled(s, Saved(1, true))
    ensures Apply(s, Saved(1, true)) ==
            s.(ops := map[0 := loop], rows := s.rows[save.id := save.row],
               cleanups := if save.cleanup.Some? then s.cleanups + multiset{save.cleanup.value} else s.cleanups)
  {
    hide ListsExpired, ListsRunning, Mentioned;
    assert s.ops - {1} == map[0 := loop];
  }

  lemma ReapGoesOn(s: State, id: Id, todo: seq<Entry>)
    requires todo != [] && todo[0].id == id && todo[0].row.status.Paused? && todo[0].row.pauseRef.Some?
    requires id in s.rows && s.rows[id] == todo[0].row
    ensures Leads(ListedAndResumed(s, id, todo), [Saved(1, true), Reaped(0, true, false), ReapErased(0, true)],
                  RowLost(s, id, todo[0].row.pauseRef.value, todo[1..]))
  {
    hide Apply, Enabled;
    var t := ListedAndResumed(s, id, todo);
    SavedNext(t, Reaping(todo), t.ops[1]);
    var t1 := Apply(t, Saved(1, true));
    RemovedResources(t1, todo, true);
    var t2 := Apply(t1, Reaped(0, true, false));
    ErasedRow(t2, id, todo[1..], true);
    assert t1.rows - {id} == s.rows - {id};
    ThreeSteps(t, Saved(1, true), Reaped(0, true, false), ReapErased(0, true));
    hide Leads;
  }

  /** Without atomic reaps both laws fail: a resume that slips in after the reaper has listed the
      expired rows is undone, and its sandbox runs on without a row. */
  lemma ResumeDuringReap(s: State, id: Id, todo: seq<Entry>)
    requires s.ops == map[] && ListsExpired(s, todo) && todo != [] && todo[0].id == id
    requires id in s.rows && s.rows[id].status.Paused?
    requires s.rows[id].pauseRef.Some? && s.rows[id].pauseRef.value in s.images
    ensures exists es ::
      && Possible(s, es)
      && var t := After(s, es);
         t.now == s.now && id in t.live && id !in t.rows && id in t.due && t.due[id] == t.now + t.sandboxTTL
  {
    assert todo[0].row == s.rows[id];
    ResumeSlipsIn(s, id, todo);
    ReapGoesOn(s, id, todo);
    var t, u := ListedAndResumed(s, id, todo), RowLost(s, id, todo[0].row.pauseRef.value, todo[1..]);
    var start, rest := [BeginReap(0, todo), BeginResume(1, id), ResumeDone(1)],
                       [Saved(1, true), Reaped(0, true, false), ReapErased(0, true)];
    hide Possible, After, ListsExpired, Apply, Enabled, ListedAndResumed;
    LeadsOn(s, start, t, rest, u);
    assert Possible(s, start + rest) && After(s, start + rest) == u;
  }

  /** The reconciler has listed the rows; then a pause of `id` has run the backend call. */
  function ListedAndPaused(s: State, id: Id, ids: seq<Id>, ref: Ref): State
  {
    var due := s.now + s.pausedTTL;
    s.(ops := map[0 := Reconciling(ids), 1 := Saving(id, Row(Paused, due, Some(ref)), None)],
       live := s.live - {id}, images := s.images + {ref}, due := s.due[id := due])
  }

  function PauseForgotten(s: State, id: Id, rest: seq<Id>, ref: Ref): State
  {
    ListedAndPaused(s, id, [], ref).(ops := map[0 := Reconciling(rest)], rows := s.rows - {id})
  }

  lemma PauseSlipsIn(s: State, id: Id, ids: seq<Id>, ref: Ref)
    requires s.ops == map[] && ListsRunning(s, ids) && id in s.rows && s.rows[id].status.Running?
    ensures Leads(s, [BeginReconcile(0, ids), BeginPause(1, id), PauseDone(1, ref)], ListedAndPaused(s, id, ids, ref))
  {
    hide ListsRunning, ListsExpired, Mentioned;
    assert Enabled(s, BeginReconcile(0, ids));
    var s1 := s.(ops := map[0 := Reconciling(ids)]);
    assert Apply(s, BeginReconcile(0, ids)) == s1;
    PausesBeside(s1, Reconciling(ids), id, ref);
    hide Apply, Enabled;
    ThreeSteps(s, BeginReconcile(0, ids), BeginPause(1, id), PauseDone(1, ref));
  }

  lemma PausesBeside(s: State, loop: Op, id: Id, ref: Ref)
    requires s.ops == map[0 := loop] && id in s.rows && s.rows[id].status.Running?
    ensures Enabled(s, BeginPause(1, id)) && Enabled(Apply(s, BeginPause(1, id)), PauseDone(1, ref))
    ensures Apply(Apply(s, BeginPause(1, id)), PauseDone(1, ref)) ==
            s.(ops := map[0 := loop, 1 := Saving(id, Row(Paused, s.now + s.pausedTTL, Some(ref)), None)],
               live := s.live - {id}, images := s.images + {ref}, due := s.due[id := s.now + s.pausedTTL])
  {
    hide ListsExpired, ListsRunning, Mentioned;
    assert Apply(s, BeginPause(1, id)).ops == map[0 := loop, 1 := Pausing(id, s.rows[id])];
  }

  lemma ReconcileGoesOn(s: State, id: Id, ids: seq<Id>, ref: Ref)
    requires ids != [] && ids[0] == id
    ensures Leads(ListedAndPaused(s, id, ids, ref), [Saved(1, true), Checked(0, true), ReconErased(0, true)],
                  PauseForgotten(s, id, ids[1..], ref))
  {
    hide Apply, Enabled;
    var t := ListedAndPaused(s, id, ids, ref);
    SavedNext(t, Reconciling(ids), t.ops[1]);
    var t1 := Apply(t, Saved(1, true));
    FoundMissing(t1, ids, true);
    var t2 := Apply(t1, Checked(0, true));
    ErasedMissing(t2, id, ids[1..], true);
    assert t1.rows - {id} == s.rows - {id};
    ThreeSteps(t, Saved(1, true), Checked(0, true), ReconErased(0, true));
    hide Leads;
  }

  /** A pause that slips in after the reconciler has listed the rows is forgotten: the row is gone
      and its image stays. */
  lemma PauseDuringReconcile(s: State, id: Id, ids: seq<Id>, ref: Ref)
    requires s.ops == map[] && ListsRunning(s, ids) && ids != [] && ids[0] == id
    ensures exists es ::
      && Possible(s, es)
      && var t := After(s, es); id !in t.rows && id !in t.live && ref in t.images
  {
    PauseSlipsIn(s, id, ids, ref);
    ReconcileGoesOn(s, id, ids, ref);
    var start, rest := [BeginReconcile(0, ids), BeginPause(1, id), PauseDone(1, ref)],
                       [Saved(1, true), Checked(0, true), ReconErased(0, true)];
    var t, u := ListedAndPaused(s, id, ids, ref), PauseForgotten(s, id, ids[1..], ref);
    assert id !in u.rows && id !in u.live && ref in u.images;
    hide Possible, After, ListsRunning, Apply, Enabled, ListedAndPaused, PauseForgotten;
    LeadsOn(s, start, t, rest, u);
    assert Possible(s, start + rest) && After(s, start + rest) == u;
  }

  // ---- Paused rows and their images ----

  /** The backend returns a reference that no clean-up is still to remove and no other row or pending
      save has; and a reap whose row has been deleted meanwhile removes no image they refer to. */
  predicate FreeReference(s: State, e: Event)
    requires Guarded(s, e)
  {
    match e
    case PauseDone(_, ref) => ref !in s.cleanups && Unreferred(s, ref) && NotPending(s, ref)
    case Reaped(o, _, _) =>
      var head := s.ops[o].todo[0];
      head.id !in s.rows && head.row.pauseRef.Some? ==>
        Unreferred(s, head.row.pauseRef.value) && NotPending(s, head.row.pauseRef.value)
    case _ => true
  }

  predicate NotPending(s: State, r: Ref)
  {
    forall o :: o in s.ops && s.ops[o].Saving? ==> s.ops[o].row.pauseRef != Some(r)
  }

  predicate Unreferred(s: State, r: Ref)
  {
    forall id :: id in s.rows ==> s.rows[id].pauseRef != Some(r)
  }

  ghost predicate FreeRun(s: State, es: seq<Event>)
    requires GuardedRun(s, es)
    decreases |es|
  {
    es != [] ==> FreeReference(s, es[0]) && FreeRun(Apply(s, es[0]), es[1..])
  }

  predicate Refers(s: State, id: Id, r: Ref)
  {
    id in s.rows && s.rows[id].pauseRef == Some(r)
  }

  /** The reaper has just removed the image and is about to erase the row. */
  ghost predicate BeingErased(s: State, id: Id)
  {
    exists o :: o in s.ops && s.ops[o].ReapErasing? && s.ops[o].id == id
  }

  ghost predicate RowsKeepImages(s: State)
  {
    && (forall id, r :: Refers(s, id, r) ==> r !in s.cleanups && (r in s.images || BeingErased(s, id)))
    && (forall id, k, r :: Refers(s, id, r) && Refers(s, k, r) ==> id == k)
  }

  ghost predicate SavesKeepImages(s: State, op: Op)
  {
    op.Saving? ==>
      && (op.row.pauseRef.Some? ==>
           var r := op.row.pauseRef.value;
           r in s.images && r !in s.cleanups && Unreferred(s, r))
      && (op.cleanup.Some? ==> op.row.pauseRef.None? && Refers(s, op.id, op.cleanup.value))
  }

  /** Pending saves have different references. */
  ghost predicate PendingApart(s: State)
  {
    forall o, p ::
      (o in s.ops && p in s.ops && s.ops[o].Saving? && s.ops[p].Saving?
       && s.ops[o].row.pauseRef.Some? && s.ops[o].row.pauseRef == s.ops[p].row.pauseRef) ==> o == p
  }

  ghost predicate ImagesKept(s: State)
  {
    && RowsKeepImages(s)
    && (forall o :: o in s.ops ==> SavesKeepImages(s, s.ops[o]))
    && PendingApart(s)
  }

  lemma RowImageKept(s: State, e: Event, id: Id, r: Ref)
    requires Tracked(s) && ImagesKept(s) && Enabled(s, e) && Guarded(s, e) && FreeReference(s, e)
    requires Refers(Apply(s, e), id, r)
    ensures var t := Apply(s, e); r !in t.cleanups && (r in t.images || BeingErased(t, id))
  {
    hide Tracked, ImagesKept, Enabled, Apply;
    if e.Saved? {
      SavedChangesRows(s, e, id, r);
      RowImageSaved(s, e, id, r);
    } else if e.Reaped? {
      RowImageReaped(s, e, id, r);
    } else {
      RowImageElsewhere(s, e, id, r);
    }
  }

  lemma SavedChangesRows(s: State, e: Event, id: Id, r: Ref)
    requires Enabled(s, e) && Guarded(s, e) && e.Saved?
    ensures e.ok
  {}

  lemma RowImageReaped(s: State, e: Event, id: Id, r: Ref)
    requires Tracked(s) && ImagesKept(s) && Enabled(s, e) && Guarded(s, e) && FreeReference(s, e) && e.Reaped?
    requires Refers(Apply(s, e), id, r)
    ensures var t := Apply(s, e); r !in t.cleanups && (r in t.images || BeingErased(t, id))
  {
    hide ListsRunning, ListsExpired, Mentioned, Recorded;
    var t := Apply(s, e);
    assert Refers(s, id, r);
    if BeingErased(s, id) {
      var o :| o in s.ops && s.ops[o].ReapErasing? && s.ops[o].id == id;
      OpsStay(s, e, o);
    } else if r !in t.images {
      var head := s.ops[e.o].todo[0];
      assert head.row.pauseRef == Some(r);
      assert head.id in s.rows && Refers(s, head.id, r);
      assert t.ops[e.o].ReapErasing? && t.ops[e.o].id == id;
    }
  }

  lemma RowImageElsewhere(s: State, e: Event, id: Id, r: Ref)
    requires Tracked(s) && ImagesKept(s) && Enabled(s, e) && Guarded(s, e) && FreeReference(s, e)
    requires !e.Saved? && !e.Reaped?
    requires Refers(Apply(s, e), id, r)
    ensures var t := Apply(s, e); r !in t.cleanups && (r in t.images || BeingErased(t, id))
  {
    hide Apply, Enabled, Guarded, FreeReference, Tracked;
    ImagesElsewhere(s, e, id, r);
    if BeingErased(s, id) {
      var o :| o in s.ops && s.ops[o].ReapErasing? && s.ops[o].id == id;
      ErasingStays(s, e, o);
    }
  }

  lemma ImagesElsewhere(s: State, e: Event, id: Id, r: Ref)
    requires Enabled(s, e) && !e.Saved? && !e.Reaped? && Refers(Apply(s, e), id, r)
    ensures var t := Apply(s, e);
            && Refers(s, id, r) && (r in t.cleanups ==> r in s.cleanups)
            && (r in s.images && r !in s.cleanups ==> r in t.images)
  {
    hide ListsRunning, ListsExpired, Mentioned;
  }

  lemma ErasingStays(s: State, e: Event, o: nat)
    requires Enabled(s, e) && Guarded(s, e) && o in s.ops && s.ops[o].ReapErasing?
    requires s.ops[o].id in Apply(s, e).rows
    ensures o in Apply(s, e).ops && Apply(s, e).ops[o] == s.ops[o]
  {
    if Background(e) || e.o != o { OpsStay(s, e, o); } else { ErasingErases(s, e); }
    hide Apply, Enabled, Guarded;
  }

  lemma ErasingErases(s: State, e: Event)
    requires Enabled(s, e) && Guarded(s, e) && !Background(e) && e.o in s.ops && s.ops[e.o].ReapErasing?
    ensures s.ops[e.o].id !in Apply(s, e).rows
  {
    hide ListsRunning, ListsExpired, Mentioned;
  }

  lemma RowImageSaved(s: State, e: Event, id: Id, r: Ref)
    requires Tracked(s) && ImagesKept(s) && Enabled(s, e) && Guarded(s, e) && e.Saved? && e.ok
    requires Refers(Apply(s, e), id, r)
    ensures var t := Apply(s, e); r !in t.cleanups && (r in t.images || BeingErased(t, id))
  {
    hide ListsRunning, ListsExpired, Mentioned, Recorded, Fits;
    var op := s.ops[e.o];
    assert SavesKeepImages(s, op);
    if op.id != id {
      assert Refers(s, id, r);
      if BeingErased(s, id) {
        var o :| o in s.ops && s.ops[o].ReapErasing? && s.ops[o].id == id;
        OpsStay(s, e, o);
      }
    }
  }

  lemma RowImagesDistinct(s: State, e: Event, id: Id, k: Id, r: Ref)
    requires Tracked(s) && ImagesKept(s) && Enabled(s, e) && Guarded(s, e)
    requires Refers(Apply(s, e), id, r) && Refers(Apply(s, e), k, r)
    ensures id == k
  {
    hide ListsRunning, ListsExpired, Mentioned, Recorded, Fits;
    if e.Saved? {
      assert SavesKeepImages(s, s.ops[e.o]);
      assert id == s.ops[e.o].id || Refers(s, id, r);
      assert k == s.ops[e.o].id || Refers(s, k, r);
    } else {
      RowAfter(s, e, id);
      RowAfter(s, e, k);
      assert Refers(s, id, r) && Refers(s, k, r);
      hide Apply, Enabled;
    }
  }

  lemma CleanupsAfter(s: State, e: Event, r: Ref)
    requires Enabled(s, e) && r in Apply(s, e).cleanups
    ensures r in s.cleanups || (e.Saved? && s.ops[e.o].cleanup == Some(r))
  {
    hide ListsRunning, ListsExpired, Mentioned;
  }

  lemma ImagesAfter(s: State, e: Event, r: Ref)
    requires Enabled(s, e) && r in s.images && r !in s.cleanups
    ensures r in Apply(s, e).images || (e.Reaped? && s.ops[e.o].todo[0].row.pauseRef == Some(r))
  {
    hide ListsRunning, ListsExpired, Mentioned;
  }

  /** A row that comes to have this reference was saved with it. */
  lemma UnreferredAfter(s: State, e: Event, r: Ref)
    requires Enabled(s, e) && Unreferred(s, r)
    ensures Unreferred(Apply(s, e), r) || (e.Saved? && s.ops[e.o].row.pauseRef == Some(r))
  {
    hide ListsRunning, ListsExpired, Mentioned;
  }

  lemma PendingSaveKept(s: State, e: Event, o: nat)
    requires Tracked(s) && ImagesKept(s) && Enabled(s, e) && Guarded(s, e) && FreeReference(s, e)
    requires o in s.ops && s.ops[o].Saving? && o in Apply(s, e).ops && Apply(s, e).ops[o].Saving?
    ensures SavesKeepImages(Apply(s, e), Apply(s, e).ops[o])
  {
    PendingStays(s, e, o);
    assert SavesKeepImages(s, s.ops[o]);
    if s.ops[o].row.pauseRef.Some? { PendingImageKept(s, e, o); }
    if s.ops[o].cleanup.Some? { PendingCleanupKept(s, e, o); }
    hide Apply, Enabled, Guarded, Tracked, RowsKeepImages;
  }

  lemma PendingStays(s: State, e: Event, o: nat)
    requires Enabled(s, e) && Guarded(s, e)
    requires o in s.ops && s.ops[o].Saving? && o in Apply(s, e).ops && Apply(s, e).ops[o].Saving?
    ensures (Background(e) || e.o != o) && Apply(s, e).ops[o] == s.ops[o]
  {
    hide Apply, Enabled, Guarded;
    if Background(e) || e.o != o { OpsOnlyFromEvent(s, e, o); } else { SaveIsDone(s, e); }
  }

  lemma PendingImageKept(s: State, e: Event, o: nat)
    requires ImagesKept(s) && Enabled(s, e) && Guarded(s, e) && FreeReference(s, e)
    requires o in s.ops && s.ops[o].Saving? && s.ops[o].row.pauseRef.Some? && (Background(e) || e.o != o)
    ensures var t, r := Apply(s, e), s.ops[o].row.pauseRef.value;
            r in t.images && r !in t.cleanups && Unreferred(t, r)
  {
    var t, r := Apply(s, e), s.ops[o].row.pauseRef.value;
    assert SavesKeepImages(s, s.ops[o]);
    if e.Saved? { assert SavesKeepImages(s, s.ops[e.o]); }
    hide ListsRunning, ListsExpired, Mentioned, Apply, RowsKeepImages;
    if r in t.cleanups { CleanupsAfter(s, e, r); }
    ImagesAfter(s, e, r);
    UnreferredAfter(s, e, r);
  }

  lemma PendingCleanupKept(s: State, e: Event, o: nat)
    requires Tracked(s) && Enabled(s, e) && Guarded(s, e)
    requires o in s.ops && s.ops[o].Saving? && s.ops[o].cleanup.Some? && (Background(e) || e.o != o)
    requires SavesKeepImages(s, s.ops[o])
    ensures Refers(Apply(s, e), s.ops[o].id, s.ops[o].cleanup.value)
  {
    SubjectElsewhere(s, e, o);
    RowsElsewhere(s, e, s.ops[o].id);
    hide Apply, Enabled, Guarded, Tracked, Subject;
  }

  lemma PendingApartKept(s: State, e: Event, o: nat, p: nat)
    requires ImagesKept(s) && Enabled(s, e) && Guarded(s, e) && FreeReference(s, e)
    requires var t := Apply(s, e);
             && o in t.ops && p in t.ops && t.ops[o].Saving? && t.ops[p].Saving?
             && t.ops[o].row.pauseRef.Some? && t.ops[o].row.pauseRef == t.ops[p].row.pauseRef
    ensures o == p
  {
    PendingComesFrom(s, e, o);
    PendingComesFrom(s, e, p);
    hide Apply, Enabled, RowsKeepImages, SavesKeepImages;
  }

  lemma PendingComesFrom(s: State, e: Event, o: nat)
    requires Enabled(s, e) && Guarded(s, e)
    requires o in Apply(s, e).ops && Apply(s, e).ops[o].Saving? && Apply(s, e).ops[o].row.pauseRef.Some?
    ensures || (o in s.ops && s.ops[o].Saving? && Apply(s, e).ops[o] == s.ops[o])
            || (e.PauseDone? && e.o == o && Apply(s, e).ops[o].row.pauseRef == Some(e.ref))
  {
    if o in s.ops && s.ops[o].Saving? {
      PendingStays(s, e, o);
    } else {
      NewSaveByEvent(s, e, o);
      NewSaveReference(s, e);
    }
    hide Apply, Enabled, Guarded;
  }

  lemma NewSaveReference(s: State, e: Event)
    requires Enabled(s, e) && (e.Created? || e.PauseDone? || e.ResumeDone?)
    ensures e.o in Apply(s, e).ops && Apply(s, e).ops[e.o].Saving?
    ensures Apply(s, e).ops[e.o].row.pauseRef == if e.PauseDone? then Some(e.ref) else None
  {
    hide ListsRunning, ListsExpired, Mentioned;
  }

  lemma NewSaveKeepsImages(s: State, e: Event)
    requires Tracked(s) && ImagesKept(s) && Enabled(s, e) && Guarded(s, e) && FreeReference(s, e)
    requires e.Created? || e.PauseDone? || e.ResumeDone?
    ensures SavesKeepImages(Apply(s, e), Apply(s, e).ops[e.o])
  {
    hide ListsRunning, ListsExpired, Mentioned, Recorded;
    var t := Apply(s, e);
    if e.PauseDone? {
      assert Unreferred(t, e.ref);
    } else if e.ResumeDone? {
      assert Fits(s, s.ops[e.o]);
    }
  }

  lemma SaveImageKept(s: State, e: Event, o: nat)
    requires Tracked(s) && ImagesKept(s) && Enabled(s, e) && Guarded(s, e) && FreeReference(s, e)
    requires o in Apply(s, e).ops
    ensures SavesKeepImages(Apply(s, e), Apply(s, e).ops[o])
  {
    if Apply(s, e).ops[o].Saving? {
      if o in s.ops && s.ops[o].Saving? {
        PendingSaveKept(s, e, o);
      } else {
        NewSaveByEvent(s, e, o);
        NewSaveKeepsImages(s, e);
      }
    }
    hide Apply, Enabled;
  }

  lemma NewSaveByEvent(s: State, e: Event, o: nat)
    requires Enabled(s, e) && o in Apply(s, e).ops && Apply(s, e).ops[o].Saving? && !(o in s.ops && s.ops[o].Saving?)
    ensures (e.Created? || e.PauseDone? || e.ResumeDone?) && e.o == o
  {
    if Background(e) || e.o != o { OpsOnlyFromEvent(s, e, o); }
    else if ReapEvent(e) { ReapMakesNoSave(s, e); }
    else { RequestMakesSave(s, e); }
    hide Apply, Enabled;
  }

  lemma ReapMakesNoSave(s: State, e: Event)
    requires Enabled(s, e) && ReapEvent(e) && e.o in Apply(s, e).ops
    ensures !Apply(s, e).ops[e.o].Saving?
  {
    hide ListsRunning, ListsExpired, Mentioned;
  }

  lemma RequestMakesSave(s: State, e: Event)
    requires Enabled(s, e) && !ReapEvent(e) && !Background(e)
    requires e.o in Apply(s, e).ops && Apply(s, e).ops[e.o].Saving?
    ensures e.Created? || e.PauseDone? || e.ResumeDone?
  {
    hide ListsRunning, ListsExpired, Mentioned;
  }

  lemma ImagesKeptKept(s: State, e: Event)
    requires Tracked(s) && ImagesKept(s)
    requires Enabled(s, e) && Guarded(s, e) && FreeReference(s, e)
    ensures ImagesKept(Apply(s, e))
  {
    var t := Apply(s, e);
    forall id, r | Refers(t, id, r) ensures r !in t.cleanups && (r in t.images || BeingErased(t, id)) {
      RowImageKept(s, e, id, r);
    }
    forall id, k, r | Refers(t, id, r) && Refers(t, k, r) ensures id == k {
      RowImagesDistinct(s, e, id, k, r);
    }
    forall o | o in t.ops ensures SavesKeepImages(t, t.ops[o]) {
      SaveImageKept(s, e, o);
    }
    forall o, p | o in t.ops && p in t.ops && t.ops[o].Saving? && t.ops[p].Saving?
                  && t.ops[o].row.pauseRef.Some? && t.ops[o].row.pauseRef == t.ops[p].row.pauseRef
      ensures o == p
    {
      PendingApartKept(s, e, o, p);
    }
    hide Apply, Enabled;
  }

  lemma {:induction false} ImagesKeptAlways(s: State, es: seq<Event>)
    requires Tracked(s) && ImagesKept(s) && GuardedRun(s, es) && FreeRun(s, es)
    ensures Possible(s, es) && Tracked(After(s, es)) && ImagesKept(After(s, es))
    decreases |es|
  {
    if es != [] {
      TrackedKept(s, es[0]);
      ImagesKeptKept(s, es[0]);
      ImagesKeptAlways(Apply(s, es[0]), es[1..]);
    }
  }

  ghost predicate BackgroundRun(s: State, es: seq<Event>)
  {
    Possible(s, es) && forall i :: 0 <= i < |es| ==> Background(es[i])
  }

  /** Whatever happens in the background, the image stays. */
  ghost predicate Safe(s: State, r: Ref)
  {
    forall es :: BackgroundRun(s, es) ==> r in After(s, es).images
  }

  lemma {:induction false} SafeWithoutCleanup(s: State, es: seq<Event>, r: Ref)
    requires BackgroundRun(s, es) && r in s.images && r !in s.cleanups
    ensures r in After(s, es).images
    decreases |es|
  {
    if es != [] {
      assert forall i :: 0 <= i < |es[1..]| ==> es[1..][i] == es[i + 1];
      assert Background(es[0]);
      SafeWithoutCleanup(Apply(s, es[0]), es[1..], r);
    }
  }

  /** An image is safe exactly when no clean-up is still to remove it. */
  lemma SafeIff(s: State, r: Ref)
    requires r in s.images
    ensures Safe(s, r) <==> r !in s.cleanups
  {
    if r !in s.cleanups {
      forall es | BackgroundRun(s, es) ensures r in After(s, es).images { SafeWithoutCleanup(s, es, r); }
    } else {
      CleanedAlone(s, r);
      assert BackgroundRun(s, [Cleaned(r, true)]) && r !in After(s, [Cleaned(r, true)]).images;
    }
  }

  /** So a pause saves a reference whose image is safe exactly when no clean-up of that reference
      is left over as the backend returns it. */
  lemma PauseIsSafeIff(s: State, o: nat, ref: Ref)
    requires Enabled(s, PauseDone(o, ref))
    ensures var t := Apply(s, PauseDone(o, ref));
            && Enabled(t, Saved(o, true))
            && var u := Apply(t, Saved(o, true));
               && Refers(u, s.ops[o].id, ref) && u.rows[s.ops[o].id].status.Paused?
               && (Safe(u, ref) <==> ref !in s.cleanups)
  {
    hide ListsExpired, ListsRunning, Mentioned, Safe;
    SafeIff(Apply(Apply(s, PauseDone(o, ref)), Saved(o, true)), ref);
  }

  /** Paused sandboxes can be resumed: over every guarded run in which no pause meets a left-over
      clean-up of its own reference - also a reference used before - each paused row has an image
      of its own, and it is safe. */
  lemma PausedRowsKeepTheirImage(sandboxTTL: nat, pausedTTL: nat, start: int, es: seq<Event>, id: Id)
    requires GuardedRun(Init(sandboxTTL, pausedTTL, start), es) && FreeRun(Init(sandboxTTL, pausedTTL, start), es)
    requires Possible(Init(sandboxTTL, pausedTTL, start), es)
    requires var s := After(Init(sandboxTTL, pausedTTL, start), es);
             id in s.rows && s.rows[id].status.Paused? && FreeFor(s, id)
    ensures var s := After(Init(sandboxTTL, pausedTTL, start), es);
            && s.rows[id].pauseRef.Some? && s.rows[id].pauseRef.value in s.images
            && s.rows[id].pauseRef.value !in s.cleanups
            && Safe(s, s.rows[id].pauseRef.value)
            && (forall k :: k in s.rows && k != id ==> s.rows[k].pauseRef != s.rows[id].pauseRef)
  {
    ImagesKeptAlways(Init(sandboxTTL, pausedTTL, start), es);
    ConsistentAlways(Init(sandboxTTL, pausedTTL, start), es);
    var s := After(Init(sandboxTTL, pausedTTL, start), es);
    assert Refers(s, id, s.rows[id].pauseRef.value);
    hide GuardedRun, FreeRun, Safe;
    SafeIff(s, s.rows[id].pauseRef.value);
    forall k | k in s.rows && k != id ensures s.rows[k].pauseRef != s.rows[id].pauseRef {
      assert !Refers(s, k, s.rows[id].pauseRef.value);
    }
  }

  // The steps of a pause and of a resume that nothing interrupts.

  lemma BeginPauseStep(s: State, id: Id)
    requires s.ops == map[] && id in s.rows && s.rows[id].status.Running?
    ensures Enabled(s, BeginPause(0, id))
    ensures Apply(s, BeginPause(0, id)) == s.(ops := map[0 := Pausing(id, s.rows[id])])
  {
    hide ListsExpired, ListsRunning, Mentioned;
  }

  lemma PauseDoneStep(s: State, id: Id, row: Row, ref: Ref)
    requires s.ops == map[0 := Pausing(id, row)]
    ensures Enabled(s, PauseDone(0, ref))
    ensures Apply(s, PauseDone(0, ref)) ==
            s.(ops := map[0 := Saving(id, Row(Paused, s.now + s.pausedTTL, Some(ref)), None)],
               live := s.live - {id}, images := s.images + {ref}, due := s.due[id := s.now + s.pausedTTL])
  {
    hide ListsExpired, ListsRunning, Mentioned;
    assert s.ops - {0} == map[];
  }

  lemma PauseFailsStep(s: State, id: Id, row: Row, gone: bool)
    requires s.ops == map[0 := Pausing(id, row)]
    ensures Enabled(s, PauseFails(0, gone))
    ensures Apply(s, PauseFails(0, gone)) == s.(ops := map[], live := if gone then s.live - {id} else s.live)
  {
    hide ListsExpired, ListsRunning, Mentioned;
    assert s.ops - {0} == map[];
  }

  lemma BeginResumeStep(s: State, id: Id)
    requires s.ops == map[] && id in s.rows && s.rows[id].status.Paused?
    ensures Enabled(s, BeginResume(0, id))
    ensures Apply(s, BeginResume(0, id)) == s.(ops := map[0 := Resuming(id, s.rows[id])])
  {
    hide ListsExpired, ListsRunning, Mentioned;
  }

  lemma ResumeDoneStep(s: State, id: Id, row: Row)
    requires s.ops == map[0 := Resuming(id, row)]
    ensures Enabled(s, ResumeFails(0)) && Apply(s, ResumeFails(0)) == s.(ops := map[])
    ensures row.pauseRef.Some? && row.pauseRef.value in s.images ==>
              && Enabled(s, ResumeDone(0))
              && Apply(s, ResumeDone(0)) ==
                 s.(ops := map[0 := Saving(id, Row(Running, s.now + s.sandboxTTL, None), row.pauseRef)],
                    live := s.live + {id}, due := s.due[id := s.now + s.sandboxTTL])
  {
    hide ListsExpired, ListsRunning, Mentioned;
    assert s.ops - {0} == map[];
  }

  lemma SavedStep(s: State, save: Op, ok: bool)
    requires s.ops == map[0 := save] && save.Saving?
    ensures Enabled(s, Saved(0, ok))
    ensures Apply(s, Saved(0, ok)) ==
            if !ok then s.(ops := map[])
            else s.(ops := map[], rows := s.rows[save.id := save.row],
                    cleanups := if save.cleanup.Some? then s.cleanups + multiset{save.cleanup.value} else s.cleanups)
  {
    hide ListsExpired, ListsRunning, Mentioned;
    assert s.ops - {0} == map[];
  }

  lemma ResumeWithReference(s: State, id: Id, ref: Ref)
    requires s.ops == map[] && Refers(s, id, ref) && s.rows[id].status.Paused? && ref in s.images
    ensures AtomicRun(s, [BeginResume(0, id), ResumeDone(0), Saved(0, true)])
    ensures Leads(s, [BeginResume(0, id), ResumeDone(0), Saved(0, true)],
                  s.(rows := s.rows[id := Row(Running, s.now + s.sandboxTTL, None)], live := s.live + {id},
                     due := s.due[id := s.now + s.sandboxTTL], cleanups := s.cleanups + multiset{ref}))
  {
    hide Apply, Enabled, Leads, AtomicRun;
    BeginResumeStep(s, id);
    var s1 := Apply(s, BeginResume(0, id));
    ResumeDoneStep(s1, id, s.rows[id]);
    var s2 := Apply(s1, ResumeDone(0));
    SavedStep(s2, s2.ops[0], true);
    ThreeSteps(s, BeginResume(0, id), ResumeDone(0), Saved(0, true));
    AtomicTriple(s, BeginResume(0, id), ResumeDone(0), Saved(0, true));
  }

  lemma PauseWithReference(s: State, id: Id, ref: Ref)
    requires s.ops == map[] && id in s.rows && s.rows[id].status.Running?
    ensures AtomicRun(s, [BeginPause(0, id), PauseDone(0, ref), Saved(0, true)])
    ensures Leads(s, [BeginPause(0, id), PauseDone(0, ref), Saved(0, true)],
                  s.(rows := s.rows[id := Row(Paused, s.now + s.pausedTTL, Some(ref))], live := s.live - {id},
                     images := s.images + {ref}, due := s.due[id := s.now + s.pausedTTL]))
  {
    hide Apply, Enabled, Leads, AtomicRun;
    BeginPauseStep(s, id);
    var s1 := Apply(s, BeginPause(0, id));
    PauseDoneStep(s1, id, s.rows[id], ref);
    var s2 := Apply(s1, PauseDone(0, ref));
    SavedStep(s2, s2.ops[0], true);
    ThreeSteps(s, BeginPause(0, id), PauseDone(0, ref), Saved(0, true));
    AtomicTriple(s, BeginPause(0, id), PauseDone(0, ref), Saved(0, true));
  }

  /** A Firecracker pause reference is the directory named after the sandbox, so it is returned
      again at the next pause: the clean-up left over from the last resume then deletes the new
      pause, with every request atomic. */
  lemma ReusedReferenceLosesImage(s: State, id: Id, ref: Ref)
    requires s.ops == map[] && Refers(s, id, ref) && s.rows[id].status.Paused? && ref in s.images
    ensures exists es ::
      && AtomicRun(s, es) && Possible(s, es)
      && var t := After(s, es);
         t.ops == map[] && Refers(t, id, ref) && t.rows[id].status.Paused? && ref !in t.images
  {
    var row := Row(Running, s.now + s.sandboxTTL, None);
    var t := s.(rows := s.rows[id := row], live := s.live + {id},
                due := s.due[id := s.now + s.sandboxTTL], cleanups := s.cleanups + multiset{ref});
    ResumeWithReference(s, id, ref);
    PauseWithReference(t, id, ref);
    var again := Row(Paused, t.now + t.pausedTTL, Some(ref));
    var u := t.(rows := t.rows[id := again], live := t.live - {id},
                images := t.images + {ref}, due := t.due[id := t.now + t.pausedTTL]);
    var resume := [BeginResume(0, id), ResumeDone(0), Saved(0, true)];
    var pause := [BeginPause(0, id), PauseDone(0, ref), Saved(0, true)];
    CleanedAlone(u, ref);
    var v := u.(cleanups := u.cleanups - multiset{ref}, images := u.images - {ref});
    hide Possible, After, AtomicRun;
    LeadsOn(s, resume, t, pause, u);
    LeadsOn(s, resume + pause, u, [Cleaned(ref, true)], v);
    AtomicOn(s, resume, t, pause);
    AtomicOn(s, resume + pause, u, [Cleaned(ref, true)]);
    assert After(s, resume + pause + [Cleaned(ref, true)]) == v;
  }

  lemma CleanedAlone(u: State, ref: Ref)
    requires ref in u.cleanups
    ensures AtomicRun(u, [Cleaned(ref, true)])
    ensures Leads(u, [Cleaned(ref, true)], u.(cleanups := u.cleanups - multiset{ref}, images := u.images - {ref}))
  {
    assert [Cleaned(ref, true)][1..] == [];
    assert Possible(Apply(u, Cleaned(ref, true)), []) && AtomicRun(Apply(u, Cleaned(ref, true)), []);
  }

  lemma AtomicTriple(s: State, c: Event, d: Event, e: Event)
    requires Enabled(s, c) && Atomic(s, c)
    requires var s1 := Apply(s, c); Enabled(s1, d) && Atomic(s1, d)
    requires var s2 := Apply(Apply(s, c), d); Enabled(s2, e) && Atomic(s2, e)
    ensures AtomicRun(s, [c, d, e])
  {
    hide Apply, Enabled, Atomic;
    var s1 := Apply(s, c);
    var s2 := Apply(s1, d);
    assert [c, d, e][1..] == [d, e] && [d, e][1..] == [e] && [e][1..] == [];
    assert AtomicRun(s2, [e]);
    assert AtomicRun(s1, [d, e]);
  }

  lemma {:induction false} AtomicOn(s: State, xs: seq<Event>, t: State, ys: seq<Event>)
    requires AtomicRun(s, xs) && Leads(s, xs, t) && AtomicRun(t, ys)
    ensures AtomicRun(s, xs + ys)
    decreases |xs|
  {
    hide Apply, Enabled, Atomic;
    if xs == [] {
      assert xs + ys == ys;
    } else {
      assert (xs + ys)[1..] == xs[1..] + ys;
      AtomicOn(Apply(s, xs[0]), xs[1..], t, ys);
    }
  }

  // ---- The server, one call at a time ----

  datatype Code = OK | CREATED | NO_CONTENT | NOT_FOUND | CONFLICT | NOT_IMPLEMENTED | SERVER_ERROR

  ghost predicate Listed(todo: seq<Entry>, id: Id)
  {
    exists i :: 0 <= i < |todo| && todo[i].id == id
  }

  ghost predicate RemovedBy(todo: seq<Entry>, stuck: set<Id>, r: Ref)
  {
    exists i :: 0 <= i < |todo| && todo[i].id !in stuck && todo[i].row.status.Paused? && todo[i].row.pauseRef == Some(r)
  }

  lemma ListedFirst(todo: seq<Entry>)
    requires todo != []
    requires forall i, j :: 0 <= i < j < |todo| ==> todo[i].id != todo[j].id
    ensures forall id :: Listed(todo, id) <==> id == todo[0].id || Listed(todo[1..], id)
    ensures !Listed(todo[1..], todo[0].id)
  {
    forall id ensures Listed(todo, id) <==> id == todo[0].id || Listed(todo[1..], id) {
      if Listed(todo, id) {
        var i :| 0 <= i < |todo| && todo[i].id == id;
        if i > 0 { assert todo[1..][i - 1].id == id; }
      }
      if Listed(todo[1..], id) {
        var i :| 0 <= i < |todo[1..]| && todo[1..][i].id == id;
        assert todo[i + 1].id == id;
      }
    }
  }

  lemma RemovedFirst(todo: seq<Entry>, stuck: set<Id>)
    requires todo != []
    ensures var head := todo[0];
            forall r :: RemovedBy(todo, stuck, r) <==>
              RemovedBy(todo[1..], stuck, r) || (head.id !in stuck && head.row.status.Paused? && head.row.pauseRef == Some(r))
  {
    var head := todo[0];
    forall r ensures RemovedBy(todo, stuck, r) <==>
                     RemovedBy(todo[1..], stuck, r) || (head.id !in stuck && head.row.status.Paused? && head.row.pauseRef == Some(r))
    {
      if RemovedBy(todo, stuck, r) {
        var i :| 0 <= i < |todo| && todo[i].id !in stuck && todo[i].row.status.Paused? && todo[i].row.pauseRef == Some(r);
        if i > 0 { assert todo[1..][i - 1] == todo[i]; }
      }
      if RemovedBy(todo[1..], stuck, r) {
        var i :| 0 <= i < |todo[1..]| && todo[1..][i].id !in stuck && todo[1..][i].row.status.Paused? && todo[1..][i].row.pauseRef == Some(r);
        assert todo[i + 1] == todo[1..][i];
      }
    }
  }

  /** The resources of `id` cannot be removed.  A paused row without a reference has none. */
  predicate Fails(stuck: set<Id>, id: Id, row: Row)
  {
    id in stuck && (row.status.Running? || row.pauseRef.Some?)
  }

  ghost predicate Distinct(ids: seq<Id>)
  {
    forall i, j :: 0 <= i < j < |ids| ==> ids[i] != ids[j]
  }

  /** `todo` lists the expired rows among those scanned so far. */
  ghost predicate ListsAmong(s: State, scanned: seq<Id>, todo: seq<Entry>)
  {
    && (forall i :: 0 <= i < |todo| ==>
         todo[i].id in scanned && Expired(s, todo[i].id) && s.rows[todo[i].id] == todo[i].row)
    && (forall i, j :: 0 <= i < j < |todo| ==> todo[i].id != todo[j].id)
    && (forall id :: id in scanned && Expired(s, id) ==> Entry(id, s.rows[id]) in todo)
  }

  lemma ScanOne(s: State, scan: seq<Id>, n: nat, todo: seq<Entry>)
    requires n < |scan| && Distinct(scan) && ListsAmong(s, scan[..n], todo)
    ensures ListsAmong(s, scan[..n + 1],
                       if Expired(s, scan[n]) then todo + [Entry(scan[n], s.rows[scan[n]])] else todo)
  {
    var id := scan[n];
    assert scan[..n + 1] == scan[..n] + [id] && id !in scan[..n];
    hide Expired;
  }

  lemma ScannedAll(s: State, scan: seq<Id>, todo: seq<Entry>)
    requires ListsAmong(s, scan, todo) && forall id :: id in s.rows ==> id in scan
    ensures ListsExpired(s, todo)
  {}

  /** Some expired paused row, not stuck, has this reference. */
  ghost predicate Disposed(s: State, stuck: set<Id>, r: Ref)
  {
    exists id :: Expired(s, id) && id !in stuck && s.rows[id].status.Paused? && s.rows[id].pauseRef == Some(r)
  }

  lemma AllListed(s: State, todo: seq<Entry>, stuck: set<Id>)
    requires ListsExpired(s, todo)
    ensures forall id :: Listed(todo, id) <==> Expired(s, id)
    ensures forall r :: RemovedBy(todo, stuck, r) <==> Disposed(s, stuck, r)
  {
    forall id ensures Listed(todo, id) <==> Expired(s, id) {
      if Expired(s, id) { assert Entry(id, s.rows[id]) in todo; }
    }
    forall r ensures RemovedBy(todo, stuck, r) <==> Disposed(s, stuck, r) {
      if Disposed(s, stuck, r) {
        var id :| Expired(s, id) && id !in stuck && s.rows[id].status.Paused? && s.rows[id].pauseRef == Some(r);
        assert Entry(id, s.rows[id]) in todo;
      }
      if RemovedBy(todo, stuck, r) {
        var i :| 0 <= i < |todo| && todo[i].id !in stuck && todo[i].row.status.Paused? && todo[i].row.pauseRef == Some(r);
        assert Expired(s, todo[i].id) && s.rows[todo[i].id] == todo[i].row;
      }
    }
  }

  /** What a reap removes. */
  ghost predicate ReapedTo(s: State, t: State, stuck: set<Id>, kept: set<Id>)
  {
    && (forall id :: id in t.rows <==>
         id in s.rows && !(s.rows[id].expiresAt < s.now && id !in kept
                           && (id !in stuck || (s.rows[id].status.Paused? && s.rows[id].pauseRef.None?))))
    && (forall id :: id in t.rows ==> t.rows[id] == s.rows[id])
    && (forall id :: id in t.live <==>
         id in s.live && !(id in s.rows && s.rows[id].expiresAt < s.now && id !in stuck && s.rows[id].status.Running?))
    && (forall r :: r in t.images <==> r in s.images && !Disposed(s, stuck, r))
  }

  lemma ReapEffect(s: State, todo: seq<Entry>, stuck: set<Id>, kept: set<Id>)
    requires ListsExpired(s, todo)
    ensures ReapedTo(s, Rounds(s, todo, stuck, kept), stuck, kept)
  {
    AllListed(s, todo, stuck);
    assert ListsRows(s, todo);
    hide Listed, RemovedBy, Disposed, ListsExpired, ListsRows, Rounds;
    var t := Rounds(s, todo, stuck, kept);
    forall id
      ensures id in t.rows <==> id in s.rows && !(Expired(s, id) && !Fails(stuck, id, s.rows[id]) && id !in kept)
      ensures id in t.rows ==> t.rows[id] == s.rows[id]
      ensures id in t.live <==> id in s.live && !(Expired(s, id) && id !in stuck && s.rows[id].status.Running?)
    {
      RoundsOnRow(s, todo, stuck, kept, id);
    }
    forall r ensures r in t.images <==> r in s.images && !Disposed(s, stuck, r) {
      RoundsOnImage(s, todo, stuck, kept, r);
    }
  }

  // ---- Each call is a run of the steps ----

  /** Some run from `s` ends, with nothing under way, in the rows, sandboxes and images of `t`. */
  ghost predicate Reaches(s: State, t: State)
  {
    exists es, u :: Leads(s, es, u) && u.ops == map[] && Alike(u, t)
  }

  ghost predicate Alike(u: State, t: State)
  {
    u.rows == t.rows && u.live == t.live && u.images == t.images
  }

  lemma Reached(s: State, es: seq<Event>, u: State, t: State)
    requires Leads(s, es, u) && u.ops == map[] && Alike(u, t)
    ensures Reaches(s, t)
  {}

  lemma Extend(s: State, es: seq<Event>, t: State, e: Event)
    requires Leads(s, es, t) && Enabled(t, e)
    ensures Leads(s, es + [e], Apply(t, e))
  {
    hide Apply, Enabled, Leads;
    OneStep(t, e);
    LeadsOn(s, es, t, [e], Apply(t, e));
  }

  lemma NoSteps(s: State)
    ensures Leads(s, [], s)
    ensures s.ops == map[] ==> Reaches(s, s)
  {
    if s.ops == map[] { Reached(s, [], s, s); }
  }

  lemma CreateSteps(s: State, id: Id, ok: bool)
    requires s.ops == map[] && id !in s.rows && id !in s.live
    ensures Reaches(s, s.(live := s.live + {id},
                          rows := if ok then s.rows[id := Row(Running, s.now + s.sandboxTTL, None)] else s.rows))
  {
    hide ListsExpired, ListsRunning;
    NoSteps(s);
    assert !Mentioned(s, id);
    var s1 := Apply(s, Created(0, id));
    Extend(s, [], s, Created(0, id));
    Extend(s, [] + [Created(0, id)], s1, Saved(0, ok));
    Reached(s, [] + [Created(0, id)] + [Saved(0, ok)], Apply(s1, Saved(0, ok)),
            s.(live := s.live + {id},
               rows := if ok then s.rows[id := Row(Running, s.now + s.sandboxTTL, None)] else s.rows));
  }

  lemma DeleteSteps(s: State, id: Id, killOk: bool, gone: bool, storeOk: bool)
    requires s.ops == map[] && id in s.rows
    ensures Reaches(s, s.(live := if killOk || gone then s.live - {id} else s.live,
                          rows := if killOk && storeOk then s.rows - {id} else s.rows))
  {
    hide ListsExpired, ListsRunning, Mentioned;
    NoSteps(s);
    var s1 := Apply(s, BeginDelete(0, id));
    var s2 := Apply(s1, Killed(0, killOk, gone));
    var es := [] + [BeginDelete(0, id)] + [Killed(0, killOk, gone)];
    Extend(s, [], s, BeginDelete(0, id));
    Extend(s, [] + [BeginDelete(0, id)], s1, Killed(0, killOk, gone));
    if killOk {
      Extend(s, es, s2, Erased(0, storeOk));
      Reached(s, es + [Erased(0, storeOk)], Apply(s2, Erased(0, storeOk)),
              s.(live := s.live - {id}, rows := if storeOk then s.rows - {id} else s.rows));
    } else {
      Reached(s, es, s2, s.(live := if gone then s.live - {id} else s.live));
    }
  }

  lemma PauseSteps(s: State, id: Id, ref: Option<Ref>, gone: bool, ok: bool)
    requires s.ops == map[] && id in s.rows && s.rows[id].status.Running?
    ensures Reaches(s, if ref.None? then s.(live := if gone then s.live - {id} else s.live)
                       else s.(live := s.live - {id}, images := s.images + {ref.value},
                               rows := if ok then s.rows[id := Row(Paused, s.now + s.pausedTTL, ref)] else s.rows))
  {
    hide Apply, Enabled, Leads, Reaches;
    NoSteps(s);
    BeginPauseStep(s, id);
    var s1 := Apply(s, BeginPause(0, id));
    PauseDoneStep(s1, id, s.rows[id], if ref.Some? then ref.value else "");
    Extend(s, [], s, BeginPause(0, id));
    if ref.None? {
      PauseFailsStep(s1, id, s.rows[id], gone);
      Extend(s, [] + [BeginPause(0, id)], s1, PauseFails(0, gone));
      Reached(s, [] + [BeginPause(0, id)] + [PauseFails(0, gone)], Apply(s1, PauseFails(0, gone)),
              s.(live := if gone then s.live - {id} else s.live));
    } else {
      var s2 := Apply(s1, PauseDone(0, ref.value));
      var es := [] + [BeginPause(0, id)] + [PauseDone(0, ref.value)];
      Extend(s, [] + [BeginPause(0, id)], s1, PauseDone(0, ref.value));
      SavedStep(s2, s2.ops[0], ok);
      Extend(s, es, s2, Saved(0, ok));
      Reached(s, es + [Saved(0, ok)], Apply(s2, Saved(0, ok)),
              s.(live := s.live - {id}, images := s.images + {ref.value},
                 rows := if ok then s.rows[id := Row(Paused, s.now + s.pausedTTL, ref)] else s.rows));
    }
  }

  lemma ResumeSteps(s: State, id: Id, backendOk: bool, ok: bool)
    requires s.ops == map[] && id in s.rows && s.rows[id].status.Paused? && s.rows[id].pauseRef.Some?
    ensures Reaches(s, if !backendOk || s.rows[id].pauseRef.value !in s.images then s
                       else s.(live := s.live + {id},
                               rows := if ok then s.rows[id := Row(Running, s.now + s.sandboxTTL, None)] else s.rows))
  {
    hide Apply, Enabled, Leads, Reaches;
    NoSteps(s);
    BeginResumeStep(s, id);
    var s1 := Apply(s, BeginResume(0, id));
    ResumeDoneStep(s1, id, s.rows[id]);
    Extend(s, [], s, BeginResume(0, id));
    if !backendOk || s.rows[id].pauseRef.value !in s.images {
      Extend(s, [] + [BeginResume(0, id)], s1, ResumeFails(0));
      Reached(s, [] + [BeginResume(0, id)] + [ResumeFails(0)], Apply(s1, ResumeFails(0)), s);
    } else {
      var s2 := Apply(s1, ResumeDone(0));
      var es := [] + [BeginResume(0, id)] + [ResumeDone(0)];
      Extend(s, [] + [BeginResume(0, id)], s1, ResumeDone(0));
      SavedStep(s2, s2.ops[0], ok);
      Extend(s, es, s2, Saved(0, ok));
      Reached(s, es + [Saved(0, ok)], Apply(s2, Saved(0, ok)),
              s.(live := s.live + {id},
                 rows := if ok then s.rows[id := Row(Running, s.now + s.sandboxTTL, None)] else s.rows));
    }
  }

  /** `t` is where a reap of `todo`, started in `s`, has got to. */
  ghost predicate MidReap(s: State, es: seq<Event>, t: State, todo: seq<Entry>)
  {
    Leads(s, es, t) && t.ops == map[0 := Reaping(todo)]
  }

  /** What the reaper does about one row, when the removals that fail are `stuck` and the rows that
      cannot be deleted are `kept`: the row goes only after its resources. */
  function Round(s: State, head: Entry, stuck: set<Id>, kept: set<Id>): State
  {
    if Fails(stuck, head.id, head.row) then s
    else
      var rows := if head.id in kept then s.rows else s.rows - {head.id};
      if head.row.status.Running? then s.(live := s.live - {head.id}, rows := rows)
      else if head.row.pauseRef.Some? then s.(images := s.images - {head.row.pauseRef.value}, rows := rows)
      else s.(rows := rows)
  }

  function Rounds(s: State, todo: seq<Entry>, stuck: set<Id>, kept: set<Id>): State
    decreases |todo|
  {
    if todo == [] then s else Rounds(Round(s, todo[0], stuck, kept), todo[1..], stuck, kept)
  }

  lemma RemovedResources(t: State, todo: seq<Entry>, ok: bool)
    requires t.ops == map[0 := Reaping(todo)] && todo != []
    ensures Enabled(t, Reaped(0, ok, false))
    ensures var id, row := todo[0].id, todo[0].row;
            Apply(t, Reaped(0, ok, false)) ==
            t.(ops := map[0 := if ok || (row.status.Paused? && row.pauseRef.None?) then ReapErasing(id, todo[1..])
                               else Reaping(todo[1..])],
               live := if ok && row.status.Running? then t.live - {id} else t.live,
               images := if ok && row.status.Paused? && row.pauseRef.Some? then t.images - {row.pauseRef.value}
                         else t.images)
  {
    hide ListsExpired, ListsRunning, Mentioned;
  }

  lemma ErasedRow(t: State, id: Id, todo: seq<Entry>, ok: bool)
    requires t.ops == map[0 := ReapErasing(id, todo)]
    ensures Enabled(t, ReapErased(0, ok))
    ensures Apply(t, ReapErased(0, ok)) ==
            t.(ops := map[0 := Reaping(todo)], rows := if ok then t.rows - {id} else t.rows)
  {
    hide ListsExpired, ListsRunning, Mentioned;
  }

  /** One round of the reaper's loop is one or two steps. */
  lemma RoundSteps(s: State, es: seq<Event>, t: State, todo: seq<Entry>, u: State, stuck: set<Id>, kept: set<Id>)
    returns (es': seq<Event>, t': State)
    requires MidReap(s, es, t, todo) && todo != [] && Alike(t, u)
    ensures MidReap(s, es', t', todo[1..]) && Alike(t', Round(u, todo[0], stuck, kept))
  {
    hide Apply, Enabled, Leads;
    var id, row := todo[0].id, todo[0].row;
    var e := Reaped(0, id !in stuck, false);
    RemovedResources(t, todo, id !in stuck);
    Extend(s, es, t, e);
    es', t' := es + [e], Apply(t, e);
    if !Fails(stuck, id, row) {
      var d := ReapErased(0, id !in kept);
      ErasedRow(t', id, todo[1..], id !in kept);
      Extend(s, es', t', d);
      es', t' := es' + [d], Apply(t', d);
    }
  }

  lemma {:induction false} RoundsSteps(s: State, es: seq<Event>, t: State, todo: seq<Entry>, u: State,
                                       stuck: set<Id>, kept: set<Id>)
    requires MidReap(s, es, t, todo) && Alike(t, u)
    ensures Reaches(s, Rounds(u, todo, stuck, kept))
    decreases |todo|
  {
    hide Apply, Enabled, Leads, MidReap, Reaches, Alike, Round;
    if todo == [] {
      ReapStops(s, es, t, u);
    } else {
      var es', t' := RoundSteps(s, es, t, todo, u, stuck, kept);
      RoundsSteps(s, es', t', todo[1..], Round(u, todo[0], stuck, kept), stuck, kept);
    }
  }

  ghost predicate ListsRows(s: State, todo: seq<Entry>)
  {
    && (forall i :: 0 <= i < |todo| ==> todo[i].id in s.rows && s.rows[todo[i].id] == todo[i].row)
    && (forall i, j :: 0 <= i < j < |todo| ==> todo[i].id != todo[j].id)
  }

  lemma RestListsRows(s: State, todo: seq<Entry>, stuck: set<Id>, kept: set<Id>)
    requires todo != [] && ListsRows(s, todo)
    ensures ListsRows(Round(s, todo[0], stuck, kept), todo[1..])
  {
    assert forall i :: 0 <= i < |todo[1..]| ==> todo[1..][i] == todo[i + 1];
  }

  /** What all rounds together leave of one row and one sandbox. */
  lemma {:induction false} RoundsOnRow(s: State, todo: seq<Entry>, stuck: set<Id>, kept: set<Id>, id: Id)
    requires ListsRows(s, todo)
    ensures var t := Rounds(s, todo, stuck, kept);
            && (id in t.rows <==> id in s.rows && !(Listed(todo, id) && !Fails(stuck, id, s.rows[id]) && id !in kept))
            && (id in t.rows ==> t.rows[id] == s.rows[id])
            && (id in t.live <==> id in s.live && !(Listed(todo, id) && id !in stuck && s.rows[id].status.Running?))
    decreases |todo|
  {
    if todo != [] {
      ListedFirst(todo);
      RestListsRows(s, todo, stuck, kept);
      hide Listed;
      RoundsOnRow(Round(s, todo[0], stuck, kept), todo[1..], stuck, kept, id);
    }
  }

  /** And of one image. */
  lemma {:induction false} RoundsOnImage(s: State, todo: seq<Entry>, stuck: set<Id>, kept: set<Id>, r: Ref)
    ensures r in Rounds(s, todo, stuck, kept).images <==> r in s.images && !RemovedBy(todo, stuck, r)
    decreases |todo|
  {
    if todo != [] {
      RemovedFirst(todo, stuck);
      hide RemovedBy;
      RoundsOnImage(Round(s, todo[0], stuck, kept), todo[1..], stuck, kept, r);
    }
  }

  lemma ReapStarts(s: State, todo: seq<Entry>)
    requires s.ops == map[] && ListsExpired(s, todo)
    ensures MidReap(s, [BeginReap(0, todo)], s.(ops := map[0 := Reaping(todo)]), todo)
  {
    hide ListsExpired, ListsRunning, Mentioned;
    NoSteps(s);
    Extend(s, [], s, BeginReap(0, todo));
    assert [] + [BeginReap(0, todo)] == [BeginReap(0, todo)];
  }

  lemma ReapStops(s: State, es: seq<Event>, t: State, u: State)
    requires MidReap(s, es, t, []) && Alike(t, u)
    ensures Reaches(s, u)
  {
    hide ListsExpired, ListsRunning, Mentioned;
    Extend(s, es, t, ReapEnds(0));
    Reached(s, es + [ReapEnds(0)], Apply(t, ReapEnds(0)), u);
  }

  /** The running rows among `scan`, in that order. */
  function RunningOf(rows: map<Id, Row>, scan: seq<Id>): (ids: seq<Id>)
    ensures forall id :: id in ids <==> id in scan && id in rows && rows[id].status.Running?
  {
    if scan == [] then []
    else (if scan[0] in rows && rows[scan[0]].status.Running? then [scan[0]] else []) + RunningOf(rows, scan[1..])
  }

  lemma {:induction false} RunningOfDistinct(rows: map<Id, Row>, scan: seq<Id>)
    requires Distinct(scan)
    ensures Distinct(RunningOf(rows, scan))
  {
    if scan != [] {
      var rest := scan[1..];
      assert forall i :: 0 <= i < |rest| ==> rest[i] == scan[i + 1];
      RunningOfDistinct(rows, rest);
      assert scan[0] !in rest;
      assert scan[0] !in RunningOf(rows, rest);
    }
  }

  lemma RunningOfLists(s: State, scan: seq<Id>)
    requires forall id :: id in scan <==> id in s.rows
    requires Distinct(scan)
    ensures ListsRunning(s, RunningOf(s.rows, scan))
  {
    RunningOfDistinct(s.rows, scan);
    hide RunningOf;
    var ids := RunningOf(s.rows, scan);
    forall i | 0 <= i < |ids| ensures ids[i] in s.rows && s.rows[ids[i]].status.Running? {
      assert ids[i] in ids;
    }
  }

  ghost predicate MidReconcile(s: State, es: seq<Event>, t: State, ids: seq<Id>)
  {
    Leads(s, es, t) && t.ops == map[0 := Reconciling(ids)]
  }

  lemma ReconcileStarts(s: State, ids: seq<Id>)
    requires s.ops == map[] && ListsRunning(s, ids)
    ensures MidReconcile(s, [BeginReconcile(0, ids)], s.(ops := map[0 := Reconciling(ids)]), ids)
  {
    hide ListsExpired, ListsRunning, Mentioned;
    NoSteps(s);
    Extend(s, [], s, BeginReconcile(0, ids));
    assert [] + [BeginReconcile(0, ids)] == [BeginReconcile(0, ids)];
  }

  /** What the reconciler does about one row of its listing, `all`. */
  function Check(s: State, all: map<Id, Row>, id: Id, unknown: set<Id>, kept: set<Id>): State
  {
    if id in all && all[id].status.Running? && id !in unknown && id !in s.live && id !in kept
    then s.(rows := s.rows - {id}) else s
  }

  function Checks(s: State, all: map<Id, Row>, scan: seq<Id>, unknown: set<Id>, kept: set<Id>): State
    decreases |scan|
  {
    if scan == [] then s else Checks(Check(s, all, scan[0], unknown, kept), all, scan[1..], unknown, kept)
  }

  lemma FoundMissing(t: State, ids: seq<Id>, ok: bool)
    requires t.ops == map[0 := Reconciling(ids)] && ids != []
    ensures Enabled(t, Checked(0, ok))
    ensures Apply(t, Checked(0, ok)) ==
            t.(ops := map[0 := if ok && ids[0] !in t.live then ReconErasing(ids[0], ids[1..]) else Reconciling(ids[1..])])
  {
    hide ListsExpired, ListsRunning, Mentioned;
  }

  lemma ErasedMissing(t: State, id: Id, ids: seq<Id>, ok: bool)
    requires t.ops == map[0 := ReconErasing(id, ids)]
    ensures Enabled(t, ReconErased(0, ok))
    ensures Apply(t, ReconErased(0, ok)) ==
            t.(ops := map[0 := Reconciling(ids)], rows := if ok then t.rows - {id} else t.rows)
  {
    hide ListsExpired, ListsRunning, Mentioned;
  }

  lemma CheckSteps(s: State, es: seq<Event>, t: State, all: map<Id, Row>, ids: seq<Id>, u: State,
                   unknown: set<Id>, kept: set<Id>)
    returns (es': seq<Event>, t': State)
    requires MidReconcile(s, es, t, ids) && ids != [] && Alike(t, u) && ids[0] in all && all[ids[0]].status.Running?
    ensures MidReconcile(s, es', t', ids[1..]) && Alike(t', Check(u, all, ids[0], unknown, kept))
  {
    hide Apply, Enabled, Leads;
    var e := Checked(0, ids[0] !in unknown);
    FoundMissing(t, ids, ids[0] !in unknown);
    Extend(s, es, t, e);
    es', t' := es + [e], Apply(t, e);
    if ids[0] !in unknown && ids[0] !in t.live {
      var d := ReconErased(0, ids[0] !in kept);
      ErasedMissing(t', ids[0], ids[1..], ids[0] !in kept);
      Extend(s, es', t', d);
      es', t' := es' + [d], Apply(t', d);
    }
  }

  lemma {:induction false} ChecksSteps(s: State, es: seq<Event>, t: State, all: map<Id, Row>, scan: seq<Id>, u: State,
                                       unknown: set<Id>, kept: set<Id>)
    requires MidReconcile(s, es, t, RunningOf(all, scan)) && Alike(t, u)
    ensures Reaches(s, Checks(u, all, scan, unknown, kept))
    decreases |scan|
  {
    hide Apply, Enabled, Leads, MidReconcile, Reaches, Alike;
    var ids := RunningOf(all, scan);
    if scan == [] {
      ReconcileStops(s, es, t, u);
    } else if scan[0] in all && all[scan[0]].status.Running? {
      assert ids[0] == scan[0] && ids[1..] == RunningOf(all, scan[1..]);
      var es', t' := CheckSteps(s, es, t, all, ids, u, unknown, kept);
      ChecksSteps(s, es', t', all, scan[1..], Check(u, all, scan[0], unknown, kept), unknown, kept);
    } else {
      assert ids == RunningOf(all, scan[1..]);
      ChecksSteps(s, es, t, all, scan[1..], u, unknown, kept);
    }
  }

  lemma {:induction false} ChecksEffect(s: State, all: map<Id, Row>, scan: seq<Id>, unknown: set<Id>, kept: set<Id>)
    ensures var t := Checks(s, all, scan, unknown, kept);
            && t.live == s.live && t.images == s.images
            && (forall id :: id in t.rows <==>
                 id in s.rows && !(id in scan && id in all && all[id].status.Running?
                                   && id !in s.live && id !in unknown && id !in kept))
            && (forall id :: id in t.rows ==> t.rows[id] == s.rows[id])
    decreases |scan|
  {
    if scan != [] {
      assert forall id :: id in scan <==> id == scan[0] || id in scan[1..];
      ChecksEffect(Check(s, all, scan[0], unknown, kept), all, scan[1..], unknown, kept);
    }
  }

  lemma ReconcileStops(s: State, es: seq<Event>, t: State, u: State)
    requires MidReconcile(s, es, t, []) && Alike(t, u)
    ensures Reaches(s, u)
  {
    hide ListsExpired, ListsRunning, Mentioned;
    Extend(s, es, t, ReconEnds(0));
    Reached(s, es + [ReconEnds(0)], Apply(t, ReconEnds(0)), u);
  }

  /** What a reconcile deletes. */
  ghost predicate ReconciledTo(s: State, t: State, unknown: set<Id>, kept: set<Id>)
  {
    && t.live == s.live && t.images == s.images
    && (forall id :: id in t.rows <==>
         id in s.rows && !(s.rows[id].status.Running? && id !in s.live && id !in unknown && id !in kept))
    && (forall id :: id in t.rows ==> t.rows[id] == s.rows[id])
  }

  lemma ReconcileEffect(s: State, scan: seq<Id>, unknown: set<Id>, kept: set<Id>)
    requires s.ops == map[] && Distinct(scan) && forall id :: id in scan <==> id in s.rows
    ensures ReconciledTo(s, Checks(s, s.rows, scan, unknown, kept), unknown, kept)
    ensures Reaches(s, Checks(s, s.rows, scan, unknown, kept))
  {
    var ids := RunningOf(s.rows, scan);
    ChecksEffect(s, s.rows, scan, unknown, kept);
    hide Checks, RunningOf, Reaches;
    RunningOfLists(s, scan);
    hide ListsRunning;
    ReconcileStarts(s, ids);
    ChecksSteps(s, [BeginReconcile(0, ids)], s.(ops := map[0 := Reconciling(ids)]), s.rows, scan, s, unknown, kept);
  }

  class Server {
    const sandboxTTL: nat
    const pausedTTL: nat
    var rows: map<Id, Row>
    var live: set<Id>
    var images: set<Ref>

    ghost function View(now: int): State
      reads this
    {
      State(sandboxTTL, pausedTTL, now, rows, live, images, multiset{}, map[], map[])
    }

    constructor (sandboxTTL: nat, pausedTTL: nat)
      ensures this.sandboxTTL == sandboxTTL && this.pausedTTL == pausedTTL
      ensures rows == map[] && live == {} && images == {}
    {
      this.sandboxTTL, this.pausedTTL := sandboxTTL, pausedTTL;
      rows, live, images := map[], {}, {};
    }

    /** A failing save leaves the new sandbox running without a row. */
    method CreateSandbox(id: Id, now: int, backendOk: bool, storeOk: bool) returns (code: Code)
      modifies this
      ensures code == CREATED <==> backendOk && storeOk
      ensures code != CREATED ==> code == SERVER_ERROR && rows == old(rows)
      ensures code == CREATED ==> rows == old(rows)[id := Row(Running, now + sandboxTTL, None)]
      ensures live == (if backendOk then old(live) + {id} else old(live)) && images == old(images)
      ensures id !in old(rows) && id !in old(live) ==> Reaches(old(View(now)), View(now))
    {
      ghost var s := View(now);
      NoSteps(s);
      if id !in rows && id !in live { CreateSteps(s, id, storeOk); }
      hide Reaches;
      if !backendOk { return SERVER_ERROR; }
      live := live + {id};
      if !storeOk { return SERVER_ERROR; }
      rows := rows[id := Row(Running, now + sandboxTTL, None)];
      code := CREATED;
    }

    /** `gone` tells whether a kill that fails has taken the sandbox all the same. */
    method DeleteSandbox(id: Id, killOk: bool, gone: bool, storeOk: bool) returns (code: Code)
      modifies this
      ensures id !in old(rows) ==> code == NOT_FOUND
      ensures id in old(rows) ==> code == (if killOk && storeOk then NO_CONTENT else SERVER_ERROR)
      ensures live == if id in old(rows) && (killOk || gone) then old(live) - {id} else old(live)
      ensures rows == (if code == NO_CONTENT then old(rows) - {id} else old(rows)) && images == old(images)
      ensures Reaches(old(View(0)), View(0))
    {
      ghost var s := View(0);
      NoSteps(s);
      if id in rows { DeleteSteps(s, id, killOk, gone, storeOk); }
      hide Reaches;
      if id !in rows { return NOT_FOUND; }
      if killOk || gone { live := live - {id}; }
      if !killOk { return SERVER_ERROR; }
      if !storeOk { return SERVER_ERROR; }
      rows := rows - {id};
      code := NO_CONTENT;
    }

    /** `ref` is what the backend returns, or None when it fails. */
    method PauseSandbox(id: Id, now: int, capable: bool, ref: Option<Ref>, gone: bool, storeOk: bool) returns (code: Code)
      modifies this
      ensures code ==
        if id !in old(rows) then NOT_FOUND
        else if !old(rows)[id].status.Running? then CONFLICT
        else if !capable then NOT_IMPLEMENTED
        else if ref.None? || !storeOk then SERVER_ERROR
        else OK
      ensures rows == if code == OK then old(rows)[id := Row(Paused, now + pausedTTL, ref)] else old(rows)
      ensures code == OK || (code == SERVER_ERROR && ref.Some?) ==>
                live == old(live) - {id} && images == old(images) + {ref.value}
      ensures code == SERVER_ERROR && ref.None? ==>
                images == old(images) && live == if gone then old(live) - {id} else old(live)
      ensures code == NOT_FOUND || code == CONFLICT || code == NOT_IMPLEMENTED ==> live == old(live) && images == old(images)
      ensures Reaches(old(View(now)), View(now))
    {
      ghost var s := View(now);
      NoSteps(s);
      if id in rows && rows[id].status.Running? { PauseSteps(s, id, ref, gone, storeOk); }
      hide Reaches;
      if id !in rows { return NOT_FOUND; }
      if !rows[id].status.Running? { return CONFLICT; }
      if !capable { return NOT_IMPLEMENTED; }
      if ref.None? {
        if gone { live := live - {id}; }
        return SERVER_ERROR;
      }
      live, images := live - {id}, images + {ref.value};
      if !storeOk { return SERVER_ERROR; }
      rows := rows[id := Row(Paused, now + pausedTTL, ref)];
      code := OK;
    }

    /** Also returns the reference a goroutine is then told to remove. */
    method ResumeSandbox(id: Id, now: int, capable: bool, backendOk: bool, storeOk: bool)
      returns (code: Code, cleanup: Option<Ref>)
      modifies this
      ensures code ==
        if id !in old(rows) then NOT_FOUND
        else if !old(rows)[id].status.Paused? then CONFLICT
        else if old(rows)[id].pauseRef.None? then SERVER_ERROR
        else if !capable then NOT_IMPLEMENTED
        else if !backendOk || !storeOk || old(rows)[id].pauseRef.value !in old(images) then SERVER_ERROR
        else OK
      ensures rows == if code == OK then old(rows)[id := Row(Running, now + sandboxTTL, None)] else old(rows)
      ensures cleanup == if code == OK then old(rows)[id].pauseRef else None
      ensures live == if code == OK || (code == SERVER_ERROR && capable && backendOk && old(rows)[id].pauseRef.Some?
                                        && old(rows)[id].pauseRef.value in old(images))
                      then old(live) + {id} else old(live)
      ensures images == old(images)
      ensures Reaches(old(View(now)), View(now))
    {
      ghost var s := View(now);
      NoSteps(s);
      if id in rows && rows[id].status.Paused? && rows[id].pauseRef.Some? { ResumeSteps(s, id, backendOk, storeOk); }
      hide Reaches;
      cleanup := None;
      if id !in rows { return NOT_FOUND, None; }
      if !rows[id].status.Paused? { return CONFLICT, None; }
      if rows[id].pauseRef.None? { return SERVER_ERROR, None; }
      if !capable { return NOT_IMPLEMENTED, None; }
      var ref := rows[id].pauseRef.value;
      if !backendOk || ref !in images { return SERVER_ERROR, None; }
      live := live + {id};
      if !storeOk { return SERVER_ERROR, None; }
      rows := rows[id := Row(Running, now + sandboxTTL, None)];
      return OK, Some(ref);
    }

    /** The query scans the table in some order, `scan`. */
    method ListExpired(now: int, scan: seq<Id>) returns (todo: seq<Entry>)
      requires forall id :: id in scan <==> id in rows
      requires Distinct(scan)
      ensures ListsExpired(View(now), todo)
    {
      todo := [];
      ghost var s := View(now);
      assert ListsAmong(s, scan[..0], todo);
      hide ListsAmong, ListsExpired;
      for n := 0 to |scan|
        invariant ListsAmong(s, scan[..n], todo)
      {
        var id := scan[n];
        ScanOne(s, scan, n, todo);
        if rows[id].expiresAt < now {
          todo := todo + [Entry(id, rows[id])];
        }
      }
      assert scan[..|scan|] == scan;
      ScannedAll(s, scan, todo);
    }

    /** The fail-safe order: a row goes only after its resources have gone.  `stuck` are the IDs
        whose kill or image removal fails, `kept` those whose row cannot be deleted. */
    method Reap(now: int, scan: seq<Id>, stuck: set<Id>, kept: set<Id>)
      requires forall id :: id in scan <==> id in rows
      requires Distinct(scan)
      modifies this
      ensures ReapedTo(old(View(now)), View(now), stuck, kept)
      ensures Reaches(old(View(now)), View(now))
    {
      var todo := ListExpired(now, scan);
      ghost var before := View(now);
      ReapStarts(before, todo);
      RoundsSteps(before, [BeginReap(0, todo)], before.(ops := map[0 := Reaping(todo)]), todo, before, stuck, kept);
      ReapEffect(before, todo, stuck, kept);
      hide Reaches, ListsExpired, ReapedTo;
      assert todo[0..] == todo;
      for n := 0 to |todo|
        invariant Rounds(View(now), todo[n..], stuck, kept) == Rounds(before, todo, stuck, kept)
      {
        assert todo[n..][1..] == todo[n + 1..];
        match todo[n].row.status {
          case Running => ReapRunning(now, todo[n], stuck, kept);
          case Paused => ReapPaused(now, todo[n], stuck, kept);
        }
      }
    }

    method ReapRunning(now: int, sb: Entry, stuck: set<Id>, kept: set<Id>)
      requires sb.row.status.Running?
      modifies this
      ensures View(now) == Round(old(View(now)), sb, stuck, kept)
    {
      if sb.id in stuck { return; }
      live := live - {sb.id};
      if sb.id !in kept { rows := rows - {sb.id}; }
    }

    method ReapPaused(now: int, sb: Entry, stuck: set<Id>, kept: set<Id>)
      requires sb.row.status.Paused?
      modifies this
      ensures View(now) == Round(old(View(now)), sb, stuck, kept)
    {
      if sb.row.pauseRef.None? {
        if sb.id !in kept { rows := rows - {sb.id}; }
        return;
      }
      if sb.id in stuck { return; }
      images := images - {sb.row.pauseRef.value};
      if sb.id !in kept { rows := rows - {sb.id}; }
    }

    /** Deletes the rows of sandboxes that are not running; `unknown` are those whose check fails,
        `kept` those whose row cannot be deleted. */
    method Reconcile(scan: seq<Id>, unknown: set<Id>, kept: set<Id>)
      requires forall id :: id in scan <==> id in rows
      requires Distinct(scan)
      modifies this`rows
      ensures ReconciledTo(old(View(0)), View(0), unknown, kept)
      ensures Reaches(old(View(0)), View(0))
    {
      ghost var before := View(0);
      var all := rows;
      ReconcileEffect(before, scan, unknown, kept);
      hide Reaches, ReconciledTo;
      assert scan[0..] == scan;
      for n := 0 to |scan|
        invariant live == old(live) && images == old(images)
        invariant Checks(View(0), all, scan[n..], unknown, kept) == Checks(before, all, scan, unknown, kept)
      {
        assert scan[n..][1..] == scan[n + 1..];
        var id := scan[n];
        if !all[id].status.Running? { continue; }
        if id !in unknown && id !in live && id !in kept { rows := rows - {id}; }
      }
    }
  }
}

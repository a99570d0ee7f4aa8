/** Many machines at once: whole runs of the calls of module Firecracker, on any number of
    sandboxes, with crashes and restarts of the server in between.  The question is whose files a
    call can reach. */
module Fleet {
  import opened Options
  import opened Network
  import opened Firecracker

  datatype Call =
    | Create(id: string, disk: Disk, memory: Memory, guestIP: Option<IPv4>)
    | CreateFails(id: string, left: Option<Disk>)  // what the rollback could not remove
    | Works(id: string, memory: Memory, disk: Disk)
    | KillIt(id: string, cleaned: bool)
    | PauseIt(id: string, pause: PauseOutcome)
    | ResumeIt(id: string, resume: ResumeOutcome)  // with the reference of its own pause
    | Remove(id: string, removal: RemoveOutcome)
    | AdoptIt(id: string, placeholder: string)
    | Exits(id: string)
    | Restart

  /** `owner` tells which sandbox a rootfs file has come to belong to, `used` all IDs so far. */
  datatype Fleet = Fleet(host: Host, owner: map<string, string>, used: set<string>)

  const EMPTY := Fleet(Host(map[], map[], map[]), map[], {})

  /** IDs are new UUIDs; a warm placeholder, which has no row, is never paused; and a guest works
      only while its machine runs. */
  predicate Legal(f: Fleet, e: Call)
  {
    match e
    case Create(id, _, _, _) => id !in f.used
    case CreateFails(id, _) => id !in f.used
    case AdoptIt(id, placeholder) => id !in f.used && placeholder !in f.host.pauses
    case Works(id, _, _) => Alive(f.host, id) && !f.host.running[id].halted
    case _ => true
  }

  function Reassigned(owner: map<string, string>, from: string, to: string): map<string, string>
  {
    map x | x in owner :: if owner[x] == from then to else owner[x]
  }

  function Apply(f: Fleet, e: Call): Fleet
  {
    var h := f.host;
    match e
    case Create(id, disk, memory, guestIP) =>
      Fleet(Created(h, id, disk, memory, guestIP), f.owner[id := id], f.used + {id})
    case CreateFails(id, left) =>
      Fleet(h.(disks := if left.Some? then h.disks[id := left.value] else h.disks - {id}),
            f.owner[id := id], f.used + {id})
    case Works(id, memory, disk) =>
      if Alive(h, id) then
        var vm := h.running[id];
        f.(host := h.(running := h.running[id := vm.(memory := memory)], disks := h.disks[vm.rootfsPath := disk]))
      else f
    case KillIt(id, cleaned) => f.(host := Kill(h, id, cleaned).0)
    case PauseIt(id, out) => f.(host := Pause(h, id, out).0)
    case ResumeIt(id, out) => f.(host := Resume(h, id, id, out).0)
    case Remove(id, out) => f.(host := RemoveImage(h, id, out).0)
    case AdoptIt(id, placeholder) =>
      Fleet(Adopt(h, id, placeholder).0,
            if placeholder in h.running then Reassigned(f.owner, placeholder, id) else f.owner, f.used + {id})
    case Exits(id) => f.(host := h.(running := h.running - {id}))
    case Restart => f.(host := h.(running := map[]))
  }

  predicate LegalRun(f: Fleet, es: seq<Call>)
    decreases |es|
  {
    es != [] ==> Legal(f, es[0]) && LegalRun(Apply(f, es[0]), es[1..])
  }

  function After(f: Fleet, es: seq<Call>): Fleet
    decreases |es|
  {
    if es == [] then f else After(Apply(f, es[0]), es[1..])
  }

  // ---- Files have one owner ----

  predicate Owns(f: Fleet, id: string, path: string)
  {
    path in f.owner && f.owner[path] == id
  }

  ghost predicate MachinesOwn(f: Fleet)
  {
    forall x :: x in f.host.running ==> x in f.used && Owns(f, x, f.host.running[x].rootfsPath)
  }

  ghost predicate PausesOwn(f: Fleet)
  {
    forall p :: p in f.host.pauses ==>
      p in f.used
      && (f.host.pauses[p].manifest.Some? ==>
           && Owns(f, p, f.host.pauses[p].manifest.value.rootfsPath)
           && f.host.pauses[p].manifest.value.snapshotDir == p)
  }

  /** A file is named after a sandbox that still exists only if it belongs to that sandbox. */
  ghost predicate OwnName(f: Fleet)
  {
    forall x :: x in f.owner && (x in f.host.running || x in f.host.pauses) ==> f.owner[x] == x
  }

  ghost predicate Separate(f: Fleet)
  {
    && MachinesOwn(f) && PausesOwn(f) && OwnName(f)
    && (forall x :: x in f.host.disks ==> x in f.owner)
    && (forall x :: x in f.owner ==> x in f.used)
  }

  /** The sandboxes a call is about. */
  function About(e: Call): set<string>
  {
    match e
    case AdoptIt(id, placeholder) => {id, placeholder}
    case Restart => {}
    case _ => {e.id}
  }

  /** What there is of a sandbox: its machine, its pause directory. */
  function Machine(f: Fleet, id: string): Option<Vm>
  {
    if id in f.host.running then Some(f.host.running[id]) else None
  }

  function PauseOf(f: Fleet, id: string): Option<PauseDir>
  {
    if id in f.host.pauses then Some(f.host.pauses[id]) else None
  }

  function Content(f: Fleet, path: string): Option<Disk>
  {
    if path in f.host.disks then Some(f.host.disks[path]) else None
  }

  lemma OwnerUntouched(f: Fleet, e: Call, id: string, path: string)
    requires Separate(f) && Legal(f, e) && id !in About(e) && Owns(f, id, path)
    ensures Owns(Apply(f, e), id, path)
  {
    hide MachinesOwn, PausesOwn, OwnName;
  }

  lemma ContentUntouched(f: Fleet, e: Call, id: string, path: string)
    requires Separate(f) && Legal(f, e) && id !in About(e) && Owns(f, id, path)
    ensures Content(Apply(f, e), path) == Content(f, path)
  {}

  lemma PauseUntouched(f: Fleet, e: Call, id: string)
    requires id !in About(e)
    ensures PauseOf(Apply(f, e), id) == PauseOf(f, id)
  {}

  lemma MachineUntouched(f: Fleet, e: Call, id: string)
    requires id !in About(e) && !e.Restart?
    ensures Machine(Apply(f, e), id) == Machine(f, id)
  {}

  lemma MachinesOwnKept(f: Fleet, e: Call)
    requires Separate(f) && Legal(f, e)
    ensures MachinesOwn(Apply(f, e))
  {
    var t := Apply(f, e);
    UsedKept(f, e);
    hide Apply, Legal, Separate;
    forall x | x in t.host.running ensures x in t.used && Owns(t, x, t.host.running[x].rootfsPath) {
      if e.Restart? { RestartEndsAll(f); }
      else if x in About(e) { SubjectMachineOwns(f, e, x); }
      else {
        MachineUntouched(f, e, x);
        SeparateMeans(f, x);
        OwnerUntouched(f, e, x, f.host.running[x].rootfsPath);
      }
    }
  }

  lemma RestartEndsAll(f: Fleet)
    ensures Apply(f, Restart).host.running == map[]
  {}

  lemma SeparateMeans(f: Fleet, x: string)
    requires Separate(f)
    ensures x in f.host.running ==> x in f.used && Owns(f, x, f.host.running[x].rootfsPath)
    ensures x in f.host.pauses ==>
              && x in f.used
              && (f.host.pauses[x].manifest.Some? ==>
                   && Owns(f, x, f.host.pauses[x].manifest.value.rootfsPath)
                   && f.host.pauses[x].manifest.value.snapshotDir == x)
  {}

  lemma SubjectMachineOwns(f: Fleet, e: Call, x: string)
    requires Separate(f) && Legal(f, e) && x in About(e) && x in Apply(f, e).host.running
    ensures x in Apply(f, e).used && Owns(Apply(f, e), x, Apply(f, e).host.running[x].rootfsPath)
  {}

  lemma PausesOwnKept(f: Fleet, e: Call)
    requires Separate(f) && Legal(f, e)
    ensures PausesOwn(Apply(f, e))
  {
    var t := Apply(f, e);
    UsedKept(f, e);
    hide Apply, Legal, Separate;
    forall p | p in t.host.pauses
      ensures p in t.used
              && (t.host.pauses[p].manifest.Some? ==>
                   && Owns(t, p, t.host.pauses[p].manifest.value.rootfsPath)
                   && t.host.pauses[p].manifest.value.snapshotDir == p)
    {
      if p in About(e) { SubjectPauseOwns(f, e, p); }
      else {
        PauseUntouched(f, e, p);
        SeparateMeans(f, p);
        if f.host.pauses[p].manifest.Some? {
          OwnerUntouched(f, e, p, f.host.pauses[p].manifest.value.rootfsPath);
        }
      }
    }
  }

  lemma SubjectPauseOwns(f: Fleet, e: Call, p: string)
    requires Separate(f) && Legal(f, e) && p in About(e) && p in Apply(f, e).host.pauses
    ensures var t := Apply(f, e);
            p in t.used
            && (t.host.pauses[p].manifest.Some? ==>
                 && Owns(t, p, t.host.pauses[p].manifest.value.rootfsPath)
                 && t.host.pauses[p].manifest.value.snapshotDir == p)
  {}

  lemma UsedKept(f: Fleet, e: Call)
    ensures f.used <= Apply(f, e).used
  {}

  lemma OwnNameKept(f: Fleet, e: Call)
    requires Separate(f) && Legal(f, e)
    ensures OwnName(Apply(f, e))
  {}

  lemma SeparateKept(f: Fleet, e: Call)
    requires Separate(f) && Legal(f, e)
    ensures Separate(Apply(f, e))
  {
    MachinesOwnKept(f, e);
    PausesOwnKept(f, e);
    OwnNameKept(f, e);
  }

  lemma {:induction false} SeparateAlways(f: Fleet, es: seq<Call>)
    requires Separate(f) && LegalRun(f, es)
    ensures Separate(After(f, es))
    decreases |es|
  {
    if es != [] {
      SeparateKept(f, es[0]);
      SeparateAlways(Apply(f, es[0]), es[1..]);
    }
  }

  // ---- Isolation ----

  /** A call leaves the machine, the pause and every file of all other sandboxes as they are; a
      restart leaves at least pauses and files. */
  lemma OthersUntouched(f: Fleet, e: Call, id: string, path: string)
    requires Separate(f) && Legal(f, e) && id !in About(e) && Owns(f, id, path)
    ensures var t := Apply(f, e);
            && Owns(t, id, path)
            && Content(t, path) == Content(f, path)
            && PauseOf(t, id) == PauseOf(f, id)
            && (!e.Restart? ==> Machine(t, id) == Machine(f, id))
  {
    OwnerUntouched(f, e, id, path);
    ContentUntouched(f, e, id, path);
    PauseUntouched(f, e, id);
    if !e.Restart? { MachineUntouched(f, e, id); }
    hide Apply, Separate, Legal, About;
  }

  ghost predicate NotAbout(es: seq<Call>, id: string)
  {
    forall e :: e in es ==> id !in About(e) && !e.Restart?
  }

  /** Hence a whole run of other sandboxes' calls leaves a guest's state alone. */
  lemma {:induction false} GuestsAreIsolated(f: Fleet, es: seq<Call>, id: string)
    requires Separate(f) && LegalRun(f, es) && NotAbout(es, id) && Alive(f.host, id)
    ensures Alive(After(f, es).host, id) && Guest(After(f, es).host, id) == Guest(f.host, id)
    decreases |es|
  {
    if es != [] {
      SeparateKept(f, es[0]);
      OthersUntouched(f, es[0], id, f.host.running[id].rootfsPath);
      hide Apply, Legal, Separate;
      GuestsAreIsolated(Apply(f, es[0]), es[1..], id);
    }
  }

  /** A machine's process ends on its own, or the control plane restarts: machines go from the
      table - the one, or all - and every pause and every file stays. */
  lemma EndsLeaveFiles(f: Fleet, id: string)
    ensures var one, all := Apply(f, Exits(id)).host, Apply(f, Restart).host;
            && id !in one.running && one.running == f.host.running - {id} && all.running == map[]
            && one.pauses == all.pauses == f.host.pauses && one.disks == all.disks == f.host.disks
  {}

  // ---- A failed creation ----

  ghost predicate Stillborn(f: Fleet, id: string, left: Option<Disk>)
  {
    id in f.used && Owns(f, id, id) && id !in f.host.running && id !in f.host.pauses && Content(f, id) == left
  }

  lemma StillbornStays(f: Fleet, e: Call, id: string, left: Option<Disk>)
    requires Separate(f) && Legal(f, e) && Stillborn(f, id, left)
    ensures Stillborn(Apply(f, e), id, left)
  {
    if id !in About(e) {
      OthersUntouched(f, e, id, id);
      OthersKeepOut(f, e, id);
      hide Separate, Legal, Apply;
    }
  }

  lemma {:induction false} StillbornThroughout(f: Fleet, es: seq<Call>, id: string, left: Option<Disk>)
    requires Separate(f) && LegalRun(f, es) && Stillborn(f, id, left)
    ensures Stillborn(After(f, es), id, left)
    decreases |es|
  {
    if es != [] {
      StillbornStays(f, es[0], id, left);
      SeparateKept(f, es[0]);
      hide Apply, Legal, Separate, Stillborn;
      StillbornThroughout(Apply(f, es[0]), es[1..], id, left);
    }
  }

  /** A failed creation touches no other machine, pause or file.  What its rollback could not remove
      stays for good: no later call, whatever it is about, gives the ID a machine or a pause, and
      none removes or changes the file. */
  lemma FailedCreationIsFinal(before: seq<Call>, id: string, left: Option<Disk>, es: seq<Call>)
    requires LegalRun(EMPTY, before) && Legal(After(EMPTY, before), CreateFails(id, left))
    requires LegalRun(Apply(After(EMPTY, before), CreateFails(id, left)), es)
    ensures var f := After(EMPTY, before);
            var t := Apply(f, CreateFails(id, left));
            var later := After(t, es);
            && t.host.running == f.host.running && t.host.pauses == f.host.pauses
            && (forall path :: path != id ==> Content(t, path) == Content(f, path))
            && id !in later.host.running && id !in later.host.pauses && Content(later, id) == left
  {
    var f := After(EMPTY, before);
    SeparateAlways(EMPTY, before);
    SeparateKept(f, CreateFails(id, left));
    var t := Apply(f, CreateFails(id, left));
    assert Stillborn(t, id, left);
    StillbornThroughout(t, es, id, left);
  }

  // ---- A pause survives everything but its own resume and removal ----

  ghost predicate PausedAs(f: Fleet, id: string, path: string, disk: Disk, memory: Memory)
  {
    && id in f.used && id !in f.host.running
    && PauseOf(f, id) == Some(PauseDir(Some(memory), Some(Manifest(path, id))))
    && Content(f, path) == Some(disk)
  }

  predicate Spares(e: Call, id: string)
  {
    !(e.ResumeIt? && e.id == id) && !(e.Remove? && e.id == id)
  }

  lemma PausedStays(f: Fleet, e: Call, id: string, path: string, disk: Disk, memory: Memory)
    requires Separate(f) && Legal(f, e) && Spares(e, id) && PausedAs(f, id, path, disk, memory)
    ensures PausedAs(Apply(f, e), id, path, disk, memory)
  {
    if id !in About(e) {
      OthersUntouched(f, e, id, path);
      OthersKeepOut(f, e, id);
    }
  }

  lemma OthersKeepOut(f: Fleet, e: Call, id: string)
    requires Legal(f, e) && id !in About(e) && id !in f.host.running
    ensures id !in Apply(f, e).host.running && f.used <= Apply(f, e).used
  {}

  lemma {:induction false} PausedThroughout(f: Fleet, es: seq<Call>, id: string, path: string, disk: Disk, memory: Memory)
    requires Separate(f) && LegalRun(f, es) && PausedAs(f, id, path, disk, memory)
    requires forall e :: e in es ==> Spares(e, id)
    ensures Separate(After(f, es)) && PausedAs(After(f, es), id, path, disk, memory)
    decreases |es|
  {
    if es != [] {
      PausedStays(f, es[0], id, path, disk, memory);
      SeparateKept(f, es[0]);
      hide Apply, Legal, Separate, PausedAs;
      PausedThroughout(Apply(f, es[0]), es[1..], id, path, disk, memory);
    }
  }

  /** Round trip over runs: from any reachable state, pause a machine; then let anything happen -
      calls on other sandboxes at whatever stage they fail, removals of other pauses, kills of
      this one, crashes, restarts - short of resuming or removing this pause.  Resuming works
      exactly when the outside calls do, and brings back rootfs path, disk content and memory. */
  lemma PauseSurvives(before: seq<Call>, id: string, out: PauseOutcome, es: seq<Call>, resume: ResumeOutcome)
    requires LegalRun(EMPTY, before) && Alive(After(EMPTY, before).host, id)
    requires Pause(After(EMPTY, before).host, id, out).1.Some? && out.snapshotTaken
    requires LegalRun(Apply(After(EMPTY, before), PauseIt(id, out)), es)
    requires forall e :: e in es ==> Spares(e, id)
    ensures var guest := Guest(After(EMPTY, before).host, id);
            var later := After(Apply(After(EMPTY, before), PauseIt(id, out)), es);
            var (h, ok) := Resume(later.host, id, id, resume);
            && (ok <==> AllWork(resume))
            && (ok ==> Alive(h, id) && Guest(h, id) == guest)
  {
    var f := After(EMPTY, before);
    SeparateAlways(EMPTY, before);
    var (path, disk, memory) := Guest(f.host, id);
    PausedByPause(f, id, out);
    SeparateKept(f, PauseIt(id, out));
    hide Separate, Legal, Apply, Pause, After, LegalRun, PausedAs, Resume, Alive, Guest;
    PausedThroughout(Apply(f, PauseIt(id, out)), es, id, path, disk, memory);
    PausedResumes(After(Apply(f, PauseIt(id, out)), es), id, path, disk, memory, resume);
  }

  lemma PausedResumes(f: Fleet, id: string, path: string, disk: Disk, memory: Memory, resume: ResumeOutcome)
    requires PausedAs(f, id, path, disk, memory)
    ensures var (h, ok) := Resume(f.host, id, id, resume);
            && (ok <==> AllWork(resume))
            && (ok ==> Alive(h, id) && Guest(h, id) == (path, disk, memory))
  {}

  lemma PausedByPause(f: Fleet, id: string, out: PauseOutcome)
    requires Separate(f) && Alive(f.host, id) && Pause(f.host, id, out).1.Some? && out.snapshotTaken
    ensures var (path, disk, memory) := Guest(f.host, id);
            PausedAs(Apply(f, PauseIt(id, out)), id, path, disk, memory)
  {
    PauseSucceedsIff(f.host, id, out);
    hide Pause, PausesOwn, OwnName;
  }

  // ---- Any number of pauses and resumes ----

  /** The guest is there with this state: its machine runs, or its pause is on disk. */
  ghost predicate There(f: Fleet, id: string, guest: (string, Disk, Memory))
  {
    || (id in f.used && Alive(f.host, id) && Guest(f.host, id) == guest)
    || PausedAs(f, id, guest.0, guest.1, guest.2)
  }

  /** No snapshot of this sandbox is lost together with its error, its machine is not ended,
      renamed or overwritten, and its pause is not removed.  Pauses and resumes may fail at any
      stage and be tried again. */
  predicate Careful(f: Fleet, e: Call, id: string)
  {
    match e
    case PauseIt(x, out) => x == id ==> out.snapshotTaken || out.cleaned
    case ResumeIt(x, _) => x == id ==> id !in f.host.running
    case KillIt(x, _) => x == id ==> id !in f.host.running
    case Exits(x) => x == id ==> id !in f.host.running
    case Restart => id !in f.host.running
    case AdoptIt(_, placeholder) => placeholder != id
    case Remove(x, _) => x == id ==> id !in f.host.pauses
    case _ => true
  }

  predicate CarefulRun(f: Fleet, es: seq<Call>, id: string)
    decreases |es|
  {
    es != [] ==> Careful(f, es[0], id) && CarefulRun(Apply(f, es[0]), es[1..], id)
  }

  /** The state of a guest that is never paused: only its own work changes it. */
  function Worked(guest: (string, Disk, Memory), es: seq<Call>, id: string): (string, Disk, Memory)
    decreases |es|
  {
    if es == [] then guest
    else Worked(if es[0].Works? && es[0].id == id then (guest.0, es[0].disk, es[0].memory) else guest, es[1..], id)
  }

  lemma ThereKeptRunning(f: Fleet, e: Call, id: string, guest: (string, Disk, Memory))
    requires Separate(f) && Legal(f, e) && Careful(f, e, id) && id in f.used
    requires Alive(f.host, id) && Guest(f.host, id) == guest
    ensures There(Apply(f, e), id, Worked(guest, [e], id))
  {
    assert Worked(guest, [e], id) == if e.Works? && e.id == id then (guest.0, e.disk, e.memory) else guest;
    hide Worked;
    if id !in About(e) {
      OthersUntouched(f, e, id, guest.0);
      UsedKept(f, e);
      hide Apply, Separate, Legal;
    } else if e.PauseIt? {
      PauseSucceedsIff(f.host, id, e.pause);
      if Pause(f.host, id, e.pause).1.None? { FailedPauseKeepsMachine(f.host, id, e.pause); }
      hide Separate, Pause;
    }
  }

  lemma ThereKeptPaused(f: Fleet, e: Call, id: string, guest: (string, Disk, Memory))
    requires Separate(f) && Legal(f, e) && Careful(f, e, id) && PausedAs(f, id, guest.0, guest.1, guest.2)
    ensures There(Apply(f, e), id, Worked(guest, [e], id))
  {
    assert Worked(guest, [e], id) == guest;
    hide Worked;
    if e.ResumeIt? && e.id == id {
      hide Separate;
    } else {
      PausedStays(f, e, id, guest.0, guest.1, guest.2);
      hide Apply, Separate, Legal, PausedAs;
    }
  }

  /** Over any such run - with failed and repeated pauses and resumes, restarts while it is paused,
      and all other sandboxes' calls - the guest is where its own work has brought it, just as if
      it had never been paused. */
  lemma {:induction false} CyclesAreTransparent(f: Fleet, es: seq<Call>, id: string, guest: (string, Disk, Memory))
    requires Separate(f) && There(f, id, guest)
    requires LegalRun(f, es) && CarefulRun(f, es, id)
    ensures Separate(After(f, es)) && There(After(f, es), id, Worked(guest, es, id))
    decreases |es|
  {
    if es != [] {
      SeparateKept(f, es[0]);
      if PausedAs(f, id, guest.0, guest.1, guest.2) {
        ThereKeptPaused(f, es[0], id, guest);
      } else {
        ThereKeptRunning(f, es[0], id, guest);
      }
      WorkedOn(guest, es, id);
      hide Apply, Legal, Careful, Separate, There, PausedAs, Worked;
      CyclesAreTransparent(Apply(f, es[0]), es[1..], id, Worked(guest, [es[0]], id));
    }
  }

  lemma WorkedOn(guest: (string, Disk, Memory), es: seq<Call>, id: string)
    requires es != []
    ensures Worked(guest, es, id) == Worked(Worked(guest, [es[0]], id), es[1..], id)
  {
    var next := if es[0].Works? && es[0].id == id then (guest.0, es[0].disk, es[0].memory) else guest;
    assert [es[0]][1..] == [] && Worked(next, [], id) == next;
  }

  /** From any reachable state: as long as the machine runs when asked, it is found with exactly the
      state its own work has given it. */
  lemma CyclesFromAnywhere(before: seq<Call>, es: seq<Call>, id: string)
    requires LegalRun(EMPTY, before) && Alive(After(EMPTY, before).host, id)
    requires LegalRun(After(EMPTY, before), es) && CarefulRun(After(EMPTY, before), es, id)
    ensures var f := After(EMPTY, before);
            var t := After(f, es);
            var guest := Worked(Guest(f.host, id), es, id);
            if id in t.host.running then Alive(t.host, id) && Guest(t.host, id) == guest
            else Resume(t.host, id, id, RESUME_OK).1 && Alive(Resume(t.host, id, id, RESUME_OK).0, id)
                 && Guest(Resume(t.host, id, id, RESUME_OK).0, id) == guest
  {
    var f := After(EMPTY, before);
    SeparateAlways(EMPTY, before);
    assert There(f, id, Guest(f.host, id));
    hide Separate, Legal;
    CyclesAreTransparent(f, es, id, Guest(f.host, id));
  }

  // ---- A removed rootfs file never comes back ----

  lemma LostStaysLost(f: Fleet, e: Call, path: string)
    requires Separate(f) && Legal(f, e) && path in f.used && path !in f.host.disks
    ensures path in Apply(f, e).used && path !in Apply(f, e).host.disks
  {}

  lemma {:induction false} LostForever(f: Fleet, es: seq<Call>, path: string)
    requires Separate(f) && LegalRun(f, es) && path in f.used && path !in f.host.disks
    ensures path !in After(f, es).host.disks
    decreases |es|
  {
    if es != [] {
      LostStaysLost(f, es[0], path);
      SeparateKept(f, es[0]);
      LostForever(Apply(f, es[0]), es[1..], path);
    }
  }

  /** So once a resumed machine's pause has been removed, no pause that names its rootfs file can
      be resumed in any later run. */
  lemma RemovedPauseIsFinal(before: seq<Call>, id: string, out: RemoveOutcome, es: seq<Call>, p: string, resume: ResumeOutcome)
    requires LegalRun(EMPTY, before)
    requires var f := After(EMPTY, before);
             && Alive(f.host, id) && out.fileRemoved
             && id in f.host.pauses && f.host.pauses[id].manifest.Some?
             && f.host.pauses[id].manifest.value.rootfsPath == f.host.running[id].rootfsPath
             && LegalRun(Apply(f, Remove(id, out)), es)
    requires var later := After(Apply(After(EMPTY, before), Remove(id, out)), es).host;
             && p in later.pauses && later.pauses[p].manifest.Some?
             && later.pauses[p].manifest.value.rootfsPath == After(EMPTY, before).host.running[id].rootfsPath
    ensures !Resume(After(Apply(After(EMPTY, before), Remove(id, out)), es).host, p, p, resume).1
  {
    var f := After(EMPTY, before);
    SeparateAlways(EMPTY, before);
    SeparateKept(f, Remove(id, out));
    LostForever(Apply(f, Remove(id, out)), es, f.host.running[id].rootfsPath);
  }
}

/** The Docker backend under the API's own sandbox IDs: BackendAdapter
    (internal/sandbox/adapter.go) over SandboxManager (internal/sandbox/sandbox.go).

    The adapter renames: `names` maps sandbox IDs to container IDs, `live` and `images` are the
    Docker daemon's.  What goes wrong inside the daemon is part of the event. */
module Adapter {
  import opened Options

  type Disk = map<string, string>

  datatype Container = Container(running: bool, disk: Disk)

  datatype State = State(names: map<string, string>, live: map<string, Container>, images: map<string, Disk>)

  /** How far ContainerCreate and ContainerStart get. */
  datatype Start = NotCreated | NotStarted | Started

  /** How far ContainerStop and ContainerRemove get. */
  datatype Stop = NotStopped | NotRemoved | Removed

  datatype Event =
    | Create(id: string, image: Disk, cid: string, start: Start)
    | Kill(id: string, stop: Stop)
    | Pause(id: string, iid: string, committed: bool, stop: Stop)
    | Resume(id: string, iid: string, cid: string, start: Start)
    | RemoveImage(iid: string, removed: bool)
    | WriteFile(id: string, path: string, content: string, copied: bool)
    | Adopt(id: string, native: string)
    | Exits(id: string)  // the container's process ends on its own

  datatype Outcome<S> = Outcome(state: S, ok: bool)

  predicate IsHex(s: string)
  {
    forall k :: 0 <= k < |s| ==> '0' <= s[k] <= '9' || 'a' <= s[k] <= 'f'
  }

  /** The daemon gives out container IDs in hexadecimal and never the same ID twice. */
  predicate Unused(s: State, cid: string)
  {
    IsHex(cid) && cid !in s.live && cid !in s.names.Values
  }

  predicate Enabled(s: State, e: Event)
  {
    match e
    case Create(_, _, cid, _) => Unused(s, cid)
    case Pause(_, iid, _, _) => iid !in s.images
    case Resume(_, _, cid, _) => Unused(s, cid)
    case Exits(id) => id in s.names && s.names[id] in s.live
    case _ => true
  }

  function Launch(s: State, id: string, cid: string, disk: Disk, start: Start): Outcome<State>
  {
    match start
    case NotCreated => Outcome(s, false)
    case NotStarted => Outcome(s.(live := s.live[cid := Container(false, disk)]), false)
    case Started => Outcome(s.(live := s.live[cid := Container(true, disk)], names := s.names[id := cid]), true)
  }

  function Halt(live: map<string, Container>, cid: string, stop: Stop): Outcome<map<string, Container>>
  {
    if cid !in live || stop.NotStopped? then Outcome(live, false)
    else if stop.NotRemoved? then Outcome(live[cid := live[cid].(running := false)], false)
    else Outcome(live - {cid}, true)
  }

  function Apply(s: State, e: Event): Outcome<State>
    requires Enabled(s, e)
  {
    match e
    case Create(id, image, cid, start) => Launch(s, id, cid, image, start)
    case Kill(id, stop) =>
      if id !in s.names then Outcome(s, false)
      else
        var halted := Halt(s.live, s.names[id], stop);
        Outcome(s.(names := s.names - {id}, live := halted.state), halted.ok)
    case Pause(id, iid, committed, stop) =>
      if id !in s.names || s.names[id] !in s.live || !committed then Outcome(s, false)
      else
        var cid := s.names[id];
        var halted := Halt(s.live, cid, stop);
        Outcome(s.(images := s.images[iid := s.live[cid].disk], live := halted.state,
                   names := if halted.ok then s.names - {id} else s.names),
                halted.ok)
    case Resume(id, iid, cid, start) =>
      if iid !in s.images then Outcome(s, false) else Launch(s, id, cid, s.images[iid], start)
    case RemoveImage(iid, removed) =>
      if removed && iid in s.images then Outcome(s.(images := s.images - {iid}), true) else Outcome(s, false)
    case WriteFile(id, path, content, copied) =>
      if id !in s.names || s.names[id] !in s.live || !copied then Outcome(s, false)
      else
        var c := s.live[s.names[id]];
        Outcome(s.(live := s.live[s.names[id] := c.(disk := c.disk[path := content])]), true)
    case Adopt(id, native) => Outcome(s.(names := s.names[id := native]), true)
    case Exits(id) =>
      var c := s.live[s.names[id]];
      Outcome(s.(live := s.live[s.names[id] := c.(running := false)]), true)
  }

  predicate Possible(s: State, es: seq<Event>)
    decreases |es|
  {
    es != [] ==> Enabled(s, es[0]) && Possible(Apply(s, es[0]).state, es[1..])
  }

  function After(s: State, es: seq<Event>): State
    requires Possible(s, es)
    decreases |es|
  {
    if es == [] then s else After(Apply(s, es[0]).state, es[1..])
  }

  predicate IsRunning(s: State, id: string)
  {
    id in s.names && s.names[id] in s.live && s.live[s.names[id]].running
  }

  // ---- The renaming is invisible ----

  /** Names stand for containers that exist, different names for different ones. */
  ghost predicate Sound(s: State)
  {
    && (forall a :: a in s.names ==> s.names[a] in s.live)
    && (forall a, b :: a in s.names && b in s.names && a != b ==> s.names[a] != s.names[b])
  }

  /** A backend that keeps sandboxes under their own IDs. */
  datatype Direct = Direct(sandboxes: map<string, Container>, images: map<string, Disk>)

  function DirectStep(v: Direct, e: Event): Outcome<Direct>
  {
    match e
    case Create(id, image, _, start) =>
      if start.Started? then Outcome(v.(sandboxes := v.sandboxes[id := Container(true, image)]), true)
      else Outcome(v, false)
    case Kill(id, stop) =>
      Outcome(v.(sandboxes := v.sandboxes - {id}), id in v.sandboxes && stop.Removed?)
    case Pause(id, iid, committed, stop) =>
      if id !in v.sandboxes || !committed then Outcome(v, false)
      else
        var w := v.(images := v.images[iid := v.sandboxes[id].disk]);
        if stop.NotStopped? then Outcome(w, false)
        else if stop.NotRemoved? then
          Outcome(w.(sandboxes := w.sandboxes[id := v.sandboxes[id].(running := false)]), false)
        else Outcome(w.(sandboxes := w.sandboxes - {id}), true)
    case Resume(id, iid, _, start) =>
      if iid in v.images && start.Started? then
        Outcome(v.(sandboxes := v.sandboxes[id := Container(true, v.images[iid])]), true)
      else Outcome(v, false)
    case RemoveImage(iid, removed) =>
      Outcome(if removed then v.(images := v.images - {iid}) else v, removed && iid in v.images)
    case WriteFile(id, path, content, copied) =>
      if id !in v.sandboxes || !copied then Outcome(v, false)
      else
        var c := v.sandboxes[id];
        Outcome(v.(sandboxes := v.sandboxes[id := c.(disk := c.disk[path := content])]), true)
    case Adopt(_, _) => Outcome(v, false)
    case Exits(id) =>
      if id in v.sandboxes then Outcome(v.(sandboxes := v.sandboxes[id := v.sandboxes[id].(running := false)]), true)
      else Outcome(v, false)
  }

  ghost function View(s: State): Direct
    requires Sound(s)
  {
    Direct(map id | id in s.names :: s.live[s.names[id]], s.images)
  }

  lemma SoundKept(s: State, e: Event)
    requires Sound(s) && Enabled(s, e)
    requires e.Adopt? ==> e.native in s.live && forall a :: a in s.names && a != e.id ==> s.names[a] != e.native
    ensures Sound(Apply(s, e).state)
  {
    var t := Apply(s, e).state;
    hide Apply, Enabled, Sound;
    forall a | a in t.names ensures t.names[a] in t.live { NameIsReal(s, e, a); }
    forall a, b | a in t.names && b in t.names && a != b ensures t.names[a] != t.names[b] { NamesApart(s, e, a, b); }
    SoundMeans(t);
  }

  lemma SoundMeans(t: State)
    requires forall a :: a in t.names ==> t.names[a] in t.live
    requires forall a, b :: a in t.names && b in t.names && a != b ==> t.names[a] != t.names[b]
    ensures Sound(t)
  {}

  lemma NameIsReal(s: State, e: Event, a: string)
    requires Sound(s) && Enabled(s, e) && (e.Adopt? ==> e.native in s.live) && a in Apply(s, e).state.names
    ensures Apply(s, e).state.names[a] in Apply(s, e).state.live
  {}

  lemma NamesApart(s: State, e: Event, a: string, b: string)
    requires Sound(s) && Enabled(s, e) && a != b
    requires e.Adopt? ==> forall x :: x in s.names && x != e.id ==> s.names[x] != e.native
    requires a in Apply(s, e).state.names && b in Apply(s, e).state.names
    ensures Apply(s, e).state.names[a] != Apply(s, e).state.names[b]
  {
    hide Halt;
  }

  /** Adoption keeps names sound exactly when the adopted ID is a container nobody else has. */
  lemma AdoptKeepsSoundIff(s: State, id: string, native: string)
    requires Sound(s)
    ensures Sound(Apply(s, Adopt(id, native)).state) <==>
            native in s.live && forall a :: a in s.names && a != id ==> s.names[a] != native
  {
    var t := Apply(s, Adopt(id, native)).state;
    if Sound(t) {
      assert t.names[id] == native;
      forall a | a in s.names && a != id ensures s.names[a] != native {
        assert t.names[a] == s.names[a];
      }
    }
  }

  /** Every call does to the sandboxes what it would do without the renaming, with the same
      result - in particular it leaves all others alone. */
  lemma RenamingInvisible(s: State, e: Event)
    requires Sound(s) && Enabled(s, e) && !e.Adopt?
    ensures Sound(Apply(s, e).state)
    ensures View(Apply(s, e).state) == DirectStep(View(s), e).state
    ensures Apply(s, e).ok == DirectStep(View(s), e).ok
  {
    var t, v := Apply(s, e).state, DirectStep(View(s), e).state;
    SoundKept(s, e);
    SameImages(s, e);
    hide Apply, DirectStep, Enabled, Sound;
    forall x ensures x in t.names <==> x in v.sandboxes { SameSandbox(s, e, x); }
    forall x | x in t.names ensures View(t).sandboxes[x] == v.sandboxes[x] { SameSandbox(s, e, x); }
    assert View(t).sandboxes == v.sandboxes;
  }

  lemma SameImages(s: State, e: Event)
    requires Sound(s) && Enabled(s, e) && !e.Adopt?
    ensures Apply(s, e).state.images == DirectStep(View(s), e).state.images
    ensures Apply(s, e).ok == DirectStep(View(s), e).ok
  {}

  lemma SameSandbox(s: State, e: Event, x: string)
    requires Sound(s) && Enabled(s, e) && !e.Adopt?
    ensures var t, v := Apply(s, e).state, DirectStep(View(s), e).state;
            && (x in t.names <==> x in v.sandboxes)
            && (x in t.names ==> t.names[x] in t.live && t.live[t.names[x]] == v.sandboxes[x])
  {
    if !e.RemoveImage? && x == e.id {
      OwnSandbox(s, e);
    } else {
      OtherSandbox(s, e, x);
      OtherDirect(View(s), e, x);
      hide Apply, DirectStep, Enabled;
    }
  }

  lemma OtherSandbox(s: State, e: Event, x: string)
    requires Sound(s) && Enabled(s, e) && !e.Adopt? && (e.RemoveImage? || x != e.id)
    ensures var t := Apply(s, e).state;
            && (x in t.names <==> x in s.names)
            && (x in t.names ==> t.names[x] == s.names[x] && t.names[x] in t.live && t.live[t.names[x]] == s.live[s.names[x]])
  {}

  lemma OtherDirect(v: Direct, e: Event, x: string)
    requires !e.Adopt? && (e.RemoveImage? || x != e.id)
    ensures var w := DirectStep(v, e).state;
            && (x in w.sandboxes <==> x in v.sandboxes)
            && (x in w.sandboxes ==> w.sandboxes[x] == v.sandboxes[x])
  {}

  lemma OwnSandbox(s: State, e: Event)
    requires Sound(s) && Enabled(s, e) && !e.Adopt? && !e.RemoveImage?
    ensures var t, v := Apply(s, e).state, DirectStep(View(s), e).state;
            && (e.id in t.names <==> e.id in v.sandboxes)
            && (e.id in t.names ==> t.names[e.id] in t.live && t.live[t.names[e.id]] == v.sandboxes[e.id])
  {}

  function DirectRun(v: Direct, es: seq<Event>): Direct
    decreases |es|
  {
    if es == [] then v else DirectRun(DirectStep(v, es[0]).state, es[1..])
  }

  ghost predicate NoAdoption(es: seq<Event>) { forall e :: e in es ==> !e.Adopt? }

  lemma {:induction false} RenamingInvisibleAlways(s: State, es: seq<Event>)
    requires Sound(s) && Possible(s, es) && NoAdoption(es)
    ensures Sound(After(s, es)) && View(After(s, es)) == DirectRun(View(s), es)
    decreases |es|
  {
    if es != [] {
      RenamingInvisible(s, es[0]);
      RenamingInvisibleAlways(Apply(s, es[0]).state, es[1..]);
    }
  }

  // ---- Pause and resume ----

  lemma {:induction false} ImageStays(s: State, es: seq<Event>, iid: string)
    requires Possible(s, es) && iid in s.images
    requires forall e :: e in es && e.RemoveImage? ==> e.iid != iid
    ensures iid in After(s, es).images && After(s, es).images[iid] == s.images[iid]
    decreases |es|
  {
    if es != [] { ImageStays(Apply(s, es[0]).state, es[1..], iid); }
  }

  /** Whatever happens between a pause and the resume of its image, short of removing it: the
      sandbox runs again with the disk it had - under any ID, and whatever became of the
      container. */
  lemma PauseResumeRoundTrip(s: State, id: string, iid: string, stop: Stop, es: seq<Event>, id': string, cid: string)
    requires Enabled(s, Pause(id, iid, true, stop)) && id in s.names && s.names[id] in s.live
    requires var paused := Apply(s, Pause(id, iid, true, stop)).state;
             && Possible(paused, es)
             && (forall e :: e in es && e.RemoveImage? ==> e.iid != iid)
             && Unused(After(paused, es), cid)
    ensures var paused := Apply(s, Pause(id, iid, true, stop)).state;
            var r := Apply(After(paused, es), Resume(id', iid, cid, Started));
            r.ok && IsRunning(r.state, id') && r.state.live[r.state.names[id']].disk == s.live[s.names[id]].disk
  {
    ImageStays(Apply(s, Pause(id, iid, true, stop)).state, es, iid);
  }

  // ---- A failed kill cannot be repeated ----

  ghost predicate Orphan(s: State, cid: string)
  {
    cid in s.live && cid !in s.names.Values
  }

  /** No call reaches a container that has lost its name. */
  lemma {:induction false} OrphanStays(s: State, es: seq<Event>, cid: string)
    requires Possible(s, es) && Orphan(s, cid)
    requires forall e :: e in es && e.Adopt? ==> e.native != cid
    ensures Orphan(After(s, es), cid) && After(s, es).live[cid] == s.live[cid]
    decreases |es|
  {
    if es != [] {
      OrphanUntouched(s, es[0], cid);
      OrphanStays(Apply(s, es[0]).state, es[1..], cid);
    }
  }

  lemma OrphanUntouched(s: State, e: Event, cid: string)
    requires Enabled(s, e) && Orphan(s, cid) && (e.Adopt? ==> e.native != cid)
    ensures Orphan(Apply(s, e).state, cid) && Apply(s, e).state.live[cid] == s.live[cid]
  {
    var t := Apply(s, e).state;
    forall a | a in t.names ensures t.names[a] != cid {
      if a in s.names { assert s.names[a] in s.names.Values; }
    }
    if e.Kill? && e.id in s.names { assert s.names[e.id] in s.names.Values; }
    if e.Pause? && e.id in s.names { assert s.names[e.id] in s.names.Values; }
    if e.WriteFile? && e.id in s.names { assert s.names[e.id] in s.names.Values; }
    if e.Exits? { assert s.names[e.id] in s.names.Values; }
  }

  /** The name goes before the container does: however a kill fails - the stop or the removal - the
      container stays for ever, and runs on if it could not be stopped; the sandbox no longer
      counts as running, and the kill cannot be repeated. */
  lemma FailedKillLeaksContainer(s: State, id: string, stop: Stop, es: seq<Event>)
    requires Sound(s) && id in s.names && !stop.Removed?
    requires var t := Apply(s, Kill(id, stop)).state;
             Possible(t, es) && forall e :: e in es && e.Adopt? ==> e.native != s.names[id]
    ensures var killed := Apply(s, Kill(id, stop));
            var cid, t := s.names[id], After(killed.state, es);
            && !killed.ok && !IsRunning(killed.state, id)
            && cid in t.live && cid !in t.names.Values && t.live[cid].disk == s.live[cid].disk
            && t.live[cid].running == (s.live[cid].running && stop.NotStopped?)
            && forall again :: Apply(killed.state, Kill(id, again)) == Outcome(killed.state, false)
  {
    var t := Apply(s, Kill(id, stop)).state;
    assert Orphan(t, s.names[id]);
    OrphanStays(t, es, s.names[id]);
  }

  // ---- What a call does to containers ----

  /** A call that starts this container. */
  predicate Starts(e: Event, cid: string)
  {
    (e.Create? || e.Resume?) && e.cid == cid
  }

  /** The container a call reaches by the sandbox's name. */
  predicate Reached(s: State, e: Event, cid: string)
  {
    !e.RemoveImage? && !e.Adopt? && !e.Create? && !e.Resume? && e.id in s.names && s.names[e.id] == cid
  }

  /** A container is touched by nothing but its own start and the calls that reach it by name. */
  lemma ContainersElsewhere(s: State, e: Event, cid: string)
    requires Enabled(s, e) && !Starts(e, cid) && !Reached(s, e, cid)
    ensures var t := Apply(s, e).state;
            (cid in t.live <==> cid in s.live) && (cid in t.live ==> t.live[cid] == s.live[cid])
  {}

  /** What is gone stays gone until it is started; IDs are never reused, so it never is. */
  lemma {:induction false} GoneStays(s: State, es: seq<Event>, cid: string)
    requires Possible(s, es) && cid !in s.live && forall e :: e in es ==> !Starts(e, cid)
    ensures cid !in After(s, es).live
    decreases |es|
  {
    if es != [] {
      assert !Starts(es[0], cid);
      GoneIsKept(s, es[0], cid);
      GoneStays(Apply(s, es[0]).state, es[1..], cid);
    }
  }

  lemma GoneIsKept(s: State, e: Event, cid: string)
    requires Enabled(s, e) && cid !in s.live && !Starts(e, cid)
    ensures cid !in Apply(s, e).state.live
  {}

  /** A kill or a pause that reports success has ended the sandbox's container, for good, and no
      other: it is gone from the daemon with its name, every other container is as it was, and it is
      in no later state. */
  lemma SuccessEndsContainer(s: State, e: Event, es: seq<Event>)
    requires Sound(s) && Enabled(s, e) && (e.Kill? || e.Pause?) && Apply(s, e).ok
    requires Possible(Apply(s, e).state, es)
    requires forall f :: f in es && e.id in s.names ==> !Starts(f, s.names[e.id])
    ensures e.id in s.names
    ensures var cid, t := s.names[e.id], Apply(s, e).state;
            && cid in s.live && cid !in t.live && e.id !in t.names
            && (forall c :: c != cid ==> (c in t.live <==> c in s.live) && (c in t.live ==> t.live[c] == s.live[c]))
            && cid !in After(t, es).live
  {
    var cid, t := s.names[e.id], Apply(s, e).state;
    forall c | c != cid ensures (c in t.live <==> c in s.live) && (c in t.live ==> t.live[c] == s.live[c]) {
      ContainersElsewhere(s, e, c);
    }
    GoneStays(t, es, cid);
    hide Possible, After;
  }

  /** A container that is created but cannot be started stays, stopped, without a name. */
  lemma FailedStartLeaksContainer(s: State, e: Event)
    requires Enabled(s, e) && (e.Create? || (e.Resume? && e.iid in s.images)) && e.start.NotStarted?
    ensures var t := Apply(s, e);
            && !t.ok && t.state.names == s.names && t.state.images == s.images
            && Orphan(t.state, e.cid)
            && t.state.live == s.live[e.cid := Container(false, if e.Create? then e.image else s.images[e.iid])]
  {}

  // ---- Adoption ----

  const WARM := "warm-"

  ghost predicate HexContainers(s: State) { forall c :: c in s.live ==> IsHex(c) }

  lemma {:induction false} HexAlways(s: State, es: seq<Event>)
    requires HexContainers(s) && Possible(s, es)
    ensures HexContainers(After(s, es))
    decreases |es|
  {
    if es != [] { HexAlways(Apply(s, es[0]).state, es[1..]); }
  }

  /** An adopted sandbox runs exactly when the string it adopted is itself a container's ID; it
      stands for what the placeholder stands for exactly when the placeholder names itself. */
  lemma AdoptedRunsIff(s: State, id: string, placeholder: string)
    ensures var t := Apply(s, Adopt(id, placeholder)).state;
            && (IsRunning(t, id) <==> placeholder in s.live && s.live[placeholder].running)
            && (placeholder in s.names ==> (t.names[id] == s.names[placeholder] <==> s.names[placeholder] == placeholder))
  {}

  const EMPTY := State(map[], map[], map[])

  /** A call that gives this ID a new meaning. */
  predicate Renames(e: Event, id: string)
  {
    match e
    case Create(x, _, _, _) => x == id
    case Resume(x, _, _, _) => x == id
    case Adopt(x, _) => x == id
    case _ => false
  }

  /** The name, if it is still there, stands for no container. */
  ghost predicate StandsForNothing(s: State, id: string, placeholder: string)
  {
    HexContainers(s) && !IsHex(placeholder) && (id in s.names ==> s.names[id] == placeholder)
  }

  lemma {:induction false} NothingAlways(s: State, es: seq<Event>, id: string, placeholder: string)
    requires StandsForNothing(s, id, placeholder) && Possible(s, es)
    requires forall e :: e in es ==> !Renames(e, id)
    ensures StandsForNothing(After(s, es), id, placeholder)
    decreases |es|
  {
    if es != [] {
      assert !Renames(es[0], id);
      NothingKept(s, es[0], id, placeholder);
      NothingAlways(Apply(s, es[0]).state, es[1..], id, placeholder);
    }
  }

  lemma NothingKept(s: State, e: Event, id: string, placeholder: string)
    requires StandsForNothing(s, id, placeholder) && Enabled(s, e) && !Renames(e, id)
    ensures StandsForNothing(Apply(s, e).state, id, placeholder)
  {}

  /** Nobody but the placeholder knows its container, which runs. */
  ghost predicate RunsAlone(s: State, placeholder: string, cid: string)
  {
    && placeholder in s.names && s.names[placeholder] == cid
    && (forall a :: a in s.names && s.names[a] == cid ==> a == placeholder)
    && cid in s.live && s.live[cid].running
  }

  /** A call that names the placeholder, or adopts its container. */
  predicate Reaches(e: Event, placeholder: string, cid: string)
  {
    (!e.RemoveImage? && e.id == placeholder) || (e.Adopt? && e.native == cid)
  }

  lemma {:induction false} RunsAloneAlways(s: State, es: seq<Event>, placeholder: string, cid: string)
    requires RunsAlone(s, placeholder, cid) && Possible(s, es)
    requires forall e :: e in es ==> !Reaches(e, placeholder, cid)
    ensures RunsAlone(After(s, es), placeholder, cid)
    decreases |es|
  {
    if es != [] {
      assert !Reaches(es[0], placeholder, cid);
      RunsAloneKept(s, es[0], placeholder, cid);
      RunsAloneAlways(Apply(s, es[0]).state, es[1..], placeholder, cid);
    }
  }

  lemma RunsAloneKept(s: State, e: Event, placeholder: string, cid: string)
    requires RunsAlone(s, placeholder, cid) && Enabled(s, e) && !Reaches(e, placeholder, cid)
    ensures RunsAlone(Apply(s, e).state, placeholder, cid)
  {}

  /** Warms a container for the pool and adopts its placeholder as `id`. */
  function FromPool(s: State, id: string, placeholder: string, image: Disk, cid: string): State
    requires Unused(s, cid)
  {
    Apply(Apply(s, Create(placeholder, image, cid, Started)).state, Adopt(id, placeholder)).state
  }

  /** The pool's placeholders never are: from any reachable state, a sandbox made from the pool
      does not run, cannot be killed, paused or written to - right away and after every later run
      that does not create, resume or adopt its ID again.  The container made for it runs on under
      the placeholder, as long as no call names that or adopts the container itself. */
  lemma PoolAdoptionNeverRuns(before: seq<Event>, id: string, suffix: string, image: Disk, cid: string, es: seq<Event>)
    requires Possible(EMPTY, before) && Unused(After(EMPTY, before), cid) && id != WARM + suffix
    requires Possible(FromPool(After(EMPTY, before), id, WARM + suffix, image, cid), es)
    requires forall e :: e in es ==> !Renames(e, id)
    ensures var t := After(FromPool(After(EMPTY, before), id, WARM + suffix, image, cid), es);
            && !IsRunning(t, id)
            && (forall stop :: !Apply(t, Kill(id, stop)).ok)
            && (forall iid, committed, stop :: iid !in t.images ==> !Apply(t, Pause(id, iid, committed, stop)).ok)
            && (forall path, content, copied :: !Apply(t, WriteFile(id, path, content, copied)).ok)
            && ((forall e :: e in es ==> !Reaches(e, WARM + suffix, cid)) ==> IsRunning(t, WARM + suffix))
  {
    var placeholder := WARM + suffix;
    assert placeholder[0] == 'w' && !IsHex(placeholder);
    var s := After(EMPTY, before);
    HexAlways(EMPTY, before);
    var u := FromPool(s, id, placeholder, image, cid);
    AdoptedFromPool(s, id, placeholder, image, cid);
    hide FromPool;
    NothingAlways(u, es, id, placeholder);
    if forall e :: e in es ==> !Reaches(e, placeholder, cid) { RunsAloneAlways(u, es, placeholder, cid); }
    hide After, Possible;
  }

  lemma AdoptedFromPool(s: State, id: string, placeholder: string, image: Disk, cid: string)
    requires HexContainers(s) && Unused(s, cid) && id != placeholder && !IsHex(placeholder)
    ensures var u := FromPool(s, id, placeholder, image, cid);
            RunsAlone(u, placeholder, cid) && StandsForNothing(u, id, placeholder)
  {
    forall a | a in s.names ensures s.names[a] != cid { assert s.names[a] in s.names.Values; }
  }

  // ---- The class ----

  class BackendAdapter {
    var containers: map<string, string>
    var live: map<string, Container>
    var images: map<string, Disk>

    ghost function Now(): State
      reads this
    {
      State(containers, live, images)
    }

    constructor ()
      ensures Now() == State(map[], map[], map[]) && Sound(Now()) && HexContainers(Now())
    {
      containers, live, images := map[], map[], map[];
    }

    method CreateSandbox(id: string, image: Disk, cid: string, start: Start) returns (ok: bool)
      requires Unused(Now(), cid)
      modifies this
      ensures Outcome(Now(), ok) == Apply(old(Now()), Create(id, image, cid, start))
      ensures images == old(images) && containers == if ok then old(containers)[id := cid] else old(containers)
      ensures ok ==> live == old(live)[cid := Container(true, image)]
    {
      if start.NotCreated? { return false; }
      live := live[cid := Container(false, image)];
      if start.NotStarted? { return false; }
      live := live[cid := Container(true, image)];
      assert live == old(live)[cid := Container(true, image)];
      containers := containers[id := cid];
      ok := true;
    }

    /** ContainerStop, then ContainerRemove. */
    method Stop(cid: string, stop: Stop) returns (ok: bool)
      modifies this`live
      ensures Outcome(live, ok) == Halt(old(live), cid, stop)
      ensures ok <==> cid in old(live) && stop.Removed?
      ensures ok ==> live == old(live) - {cid}
    {
      if cid !in live || stop.NotStopped? { return false; }
      live := live[cid := live[cid].(running := false)];
      if stop.NotRemoved? { return false; }
      live := live - {cid};
      assert live == old(live) - {cid};
      ok := true;
    }

    method KillSandbox(id: string, stop: Stop) returns (ok: bool)
      modifies this
      ensures Outcome(Now(), ok) == Apply(old(Now()), Kill(id, stop))
      ensures containers == old(containers) - {id} && images == old(images)
      ensures ok <==> id in old(containers) && old(containers)[id] in old(live) && stop.Removed?
      ensures ok ==> live == old(live) - {old(containers)[id]}
    {
      if id !in containers { return false; }
      var cid := containers[id];
      containers := containers - {id};
      ok := Stop(cid, stop);
    }

    method PauseSandbox(id: string, iid: string, committed: bool, stop: Stop) returns (ok: bool)
      requires iid !in images
      modifies this
      ensures Outcome(Now(), ok) == Apply(old(Now()), Pause(id, iid, committed, stop))
      ensures ok <==> id in old(containers) && old(containers)[id] in old(live) && committed && stop.Removed?
      ensures ok ==>
                && containers == old(containers) - {id} && live == old(live) - {old(containers)[id]}
                && images == old(images)[iid := old(live)[old(containers)[id]].disk]
    {
      if id !in containers { return false; }
      var cid := containers[id];
      if cid !in live || !committed { return false; }
      images := images[iid := live[cid].disk];
      ok := Stop(cid, stop);
      if ok { containers := containers - {id}; }
    }

    method ResumeSandbox(id: string, iid: string, cid: string, start: Start) returns (ok: bool)
      requires Unused(Now(), cid)
      modifies this
      ensures Outcome(Now(), ok) == Apply(old(Now()), Resume(id, iid, cid, start))
      ensures images == old(images) && containers == if ok then old(containers)[id := cid] else old(containers)
      ensures ok ==> iid in images && live == old(live)[cid := Container(true, images[iid])]
    {
      if iid !in images { return false; }
      ok := CreateSandbox(id, images[iid], cid, start);
    }

    method DeleteImage(iid: string, removed: bool) returns (ok: bool)
      modifies this`images
      ensures Outcome(Now(), ok) == Apply(old(Now()), RemoveImage(iid, removed))
    {
      ok := removed && iid in images;
      if ok { images := images - {iid}; }
    }

    method Write(id: string, path: string, content: string, copied: bool) returns (ok: bool)
      modifies this`live
      ensures Outcome(Now(), ok) == Apply(old(Now()), WriteFile(id, path, content, copied))
    {
      if id !in containers { return false; }
      var cid := containers[id];
      if cid !in live || !copied { return false; }
      live := live[cid := live[cid].(disk := live[cid].disk[path := content])];
      ok := true;
    }

    method Running(id: string) returns (running: bool)
      ensures running == IsRunning(Now(), id)
    {
      if id !in containers { return false; }
      var cid := containers[id];
      running := cid in live && live[cid].running;
    }

    method AdoptWarmResource(id: string, native: string)
      modifies this`containers
      ensures Outcome(Now(), true) == Apply(old(Now()), Adopt(id, native))
      ensures containers == old(containers)[id := native]
    {
      containers := containers[id := native];
    }
  }
}

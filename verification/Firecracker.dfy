/** One call at a time of FirecrackerManager (internal/firecracker/manager.go) and its
    RootfsManager (internal/firecracker/rootfs.go): which files and table entries each call
    leaves behind.  Interleavings are the subject of module Ownership. */
module Firecracker {
  import opened Options
  import opened Network

  type Disk = string
  type Memory = string

  /** `rootfsPath` is the ID whose rootfs file the machine has open; it differs from
      `sandboxID` after an adoption.  `halted` means the guest was stopped by a pause request. */
  datatype Vm = Vm(sandboxID: string, rootfsPath: string, memory: Memory, halted: bool, guestIP: Option<IPv4>)

  /** manifest.json: the rootfs file and the directory with the snapshot and memory files. */
  datatype Manifest = Manifest(rootfsPath: string, snapshotDir: string)

  /** The directory pauses/<id>. */
  datatype PauseDir = PauseDir(snapshot: Option<Memory>, manifest: Option<Manifest>)

  /** The table, the rootfs files by ID, and the pause directories by ID. */
  datatype Host = Host(running: map<string, Vm>, disks: map<string, Disk>, pauses: map<string, PauseDir>)

  // ---- Pause ----

  /** Which outside calls work; `cleaned` is about os.RemoveAll of the pause directory. */
  datatype PauseOutcome = PauseOutcome(dirMade: bool, vmPaused: bool, snapshotTaken: bool,
                                       manifestWritten: bool, cleaned: bool)

  const PAUSE_OK := PauseOutcome(true, true, true, true, true)

  function DirAt(h: Host, id: string): PauseDir
  {
    if id in h.pauses then h.pauses[id] else PauseDir(None, None)
  }

  function Cleared(pauses: map<string, PauseDir>, id: string, cleaned: bool): map<string, PauseDir>
  {
    if cleaned then pauses - {id} else pauses
  }

  /** The pause directories when the manifest is about to be written.  A snapshot failure removes
      the directory and goes on. */
  function AfterSnapshot(h: Host, id: string, out: PauseOutcome): map<string, PauseDir>
    requires id in h.running
  {
    var dir := DirAt(h, id);
    if out.snapshotTaken then h.pauses[id := dir.(snapshot := Some(h.running[id].memory))]
    else Cleared(h.pauses[id := dir], id, out.cleaned)
  }

  function Pause(h: Host, id: string, out: PauseOutcome): (Host, Option<string>)
  {
    if id !in h.running || !out.dirMade then (h, None)
    else if !out.vmPaused then
      (h.(pauses := Cleared(h.pauses[id := DirAt(h, id)], id, out.cleaned)), None)
    else
      var vm := h.running[id];
      var pauses := AfterSnapshot(h, id, out);
      if id in pauses && out.manifestWritten then
        var dir := pauses[id].(manifest := Some(Manifest(vm.rootfsPath, id)));
        (h.(running := h.running - {id}, pauses := pauses[id := dir]), Some(id))
      else
        (h.(running := h.running[id := vm.(halted := true)], pauses := Cleared(pauses, id, out.cleaned)), None)
  }

  /** A pause that fails leaves the machine in the table - halted, if the guest had already been
      stopped - with its rootfs; and no pause directory, if removing that works.  If it does not, the
      directory keeps the manifest it had, so a reference given out before still reads as a pause. */
  lemma FailedPauseKeepsMachine(h: Host, id: string, out: PauseOutcome)
    requires id in h.running && Pause(h, id, out).1.None?
    ensures var h' := Pause(h, id, out).0;
            && id in h'.running && h'.running[id] == h.running[id].(halted := h'.running[id].halted)
            && h'.running - {id} == h.running - {id} && h'.disks == h.disks
            && (!out.dirMade ==> h'.pauses == h.pauses)
            && (out.dirMade && out.cleaned ==> h'.pauses == h.pauses - {id})
            && (out.dirMade && !out.cleaned ==>
                 && id in h'.pauses && h'.pauses - {id} == h.pauses - {id}
                 && h'.pauses[id].manifest == (if id in h.pauses then h.pauses[id].manifest else None)
                 && h'.pauses[id].snapshot == (if out.vmPaused && out.snapshotTaken then Some(h.running[id].memory)
                                               else if id in h.pauses then h.pauses[id].snapshot else None))
            && (h'.running[id].halted <==> h.running[id].halted || (out.dirMade && out.vmPaused))
  {
    var h' := Pause(h, id, out).0;
    if out.dirMade {
      assert h.pauses[id := DirAt(h, id)] - {id} == h.pauses - {id};
      assert AfterSnapshot(h, id, out) - {id} == h.pauses - {id};
    }
  }

  /** A pause reports success exactly when the directory survives up to the manifest: the guest
      was stopped, the manifest written, and the snapshot taken - or not taken and the clean-up
      that should have removed the directory failed too.  In that last case the error a failed
      snapshot owes its caller is lost: the machine is gone from the table, and whatever snapshot
      there is, is an old one. */
  lemma PauseSucceedsIff(h: Host, id: string, out: PauseOutcome)
    ensures Pause(h, id, out).1.Some? <==>
              && id in h.running && out.dirMade && out.vmPaused && out.manifestWritten
              && (out.snapshotTaken || !out.cleaned)
    ensures Pause(h, id, out).1.Some? ==>
              var (h', ref) := Pause(h, id, out);
              var snapshot := if out.snapshotTaken then Some(h.running[id].memory)
                              else if id in h.pauses then h.pauses[id].snapshot else None;
              && ref == Some(id) && id !in h'.running && id in h'.pauses
              && h'.pauses[id] == PauseDir(snapshot, Some(Manifest(h.running[id].rootfsPath, id)))
              && h'.disks == h.disks
  {}

  // ---- Resume ----

  datatype ResumeOutcome = ResumeOutcome(spawned: bool, socketUp: bool, loaded: bool, ready: bool)

  const RESUME_OK := ResumeOutcome(true, true, true, true)

  predicate AllWork(out: ResumeOutcome) { out == RESUME_OK }

  function Resume(h: Host, id: string, ref: string, out: ResumeOutcome): (Host, bool)
  {
    if ref !in h.pauses || h.pauses[ref].manifest.None? then (h, false)
    else
      var m := h.pauses[ref].manifest.value;
      if m.rootfsPath !in h.disks then (h, false)
      else if !out.spawned || !out.socketUp then (h, false)
      else if !(m.snapshotDir in h.pauses && h.pauses[m.snapshotDir].snapshot.Some? && out.loaded) then (h, false)
      else if !out.ready then (h, false)
      else
        var vm := Vm(id, m.rootfsPath, h.pauses[m.snapshotDir].snapshot.value, false, None);
        (h.(running := h.running[id := vm]), true)
  }

  /** Whatever happens between a good pause and the resume - other machines, a restart of the
      server that forgets the whole table - as long as the pause directory and the rootfs file
      are still there, resuming works exactly when the outside calls do, and restores the same
      rootfs path, disk content and memory - from any table. */
  lemma PauseResumeRoundTrip(h: Host, id: string, pause: PauseOutcome, later: Host, resume: ResumeOutcome)
    requires id in h.running && Pause(h, id, pause).1.Some? && pause.snapshotTaken
    requires h.running[id].rootfsPath in h.disks
    requires var h' := Pause(h, id, pause).0;
             var path := h.running[id].rootfsPath;
             && id in later.pauses && later.pauses[id] == h'.pauses[id]
             && path in later.disks && later.disks[path] == h'.disks[path]
    ensures var (after, ok) := Resume(later, id, id, resume);
            var vm := h.running[id];
            && (ok <==> AllWork(resume))
            && (ok ==>
                 && id in after.running
                 && after.running[id] == Vm(id, vm.rootfsPath, vm.memory, false, None)
                 && after.disks[vm.rootfsPath] == h.disks[vm.rootfsPath])
            && (!ok ==> after == later)
            && after.disks == later.disks && after.pauses == later.pauses
            && forall table ::
                 var (other, works) := Resume(later.(running := table), id, id, resume);
                 works == ok && (ok ==> id in other.running && other.running[id] == after.running[id])
  {
    PauseSucceedsIff(h, id, pause);
  }

  predicate Alive(h: Host, id: string)
  {
    id in h.running && h.running[id].rootfsPath in h.disks
  }

  /** What the guest can tell: its rootfs file, the content of that file, its memory. */
  function Guest(h: Host, id: string): (string, Disk, Memory)
    requires Alive(h, id)
  {
    var vm := h.running[id];
    (vm.rootfsPath, h.disks[vm.rootfsPath], vm.memory)
  }

  // ---- Removing a pause ----

  datatype RemoveOutcome = RemoveOutcome(fileRemoved: bool, dirRemoved: bool)

  function RemoveImage(h: Host, ref: string, out: RemoveOutcome): (Host, bool)
  {
    var disks :=
      if ref in h.pauses && h.pauses[ref].manifest.Some? && out.fileRemoved
      then h.disks - {h.pauses[ref].manifest.value.rootfsPath} else h.disks;
    (h.(disks := disks, pauses := Cleared(h.pauses, ref, out.dirRemoved)), out.dirRemoved)
  }

  /** ResumeSandbox of the API removes the pause once the resume has worked, and with it the
      rootfs file the resumed machine runs on.  The next pause still reports success, but no
      resume from it can ever work. */
  lemma SecondResumeFails(h: Host, id: string, first: PauseOutcome, resumed: ResumeOutcome,
                          removed: RemoveOutcome, second: PauseOutcome, again: ResumeOutcome)
    requires id in h.running && h.running[id].rootfsPath in h.disks
    requires Pause(h, id, first).1.Some? && first.snapshotTaken
    requires AllWork(resumed) && removed.fileRemoved
    requires second == PAUSE_OK
    ensures var h1 := Pause(h, id, first).0;
            var (h2, ok) := Resume(h1, id, id, resumed);
            var h3 := RemoveImage(h2, id, removed).0;
            var (h4, ref) := Pause(h3, id, second);
            ok && ref == Some(id) && !Resume(h4, id, id, again).1
  {
    PauseSucceedsIff(h, id, first);
    var h1 := Pause(h, id, first).0;
    PauseResumeRoundTrip(h, id, first, h1, resumed);
    var h2 := Resume(h1, id, id, resumed).0;
    var h3 := RemoveImage(h2, id, removed).0;
    assert h.running[id].rootfsPath !in h3.disks;
    PauseSucceedsIff(h3, id, second);
  }

  /** In general, resuming a pause taken now works exactly when the rootfs file is there now. */
  lemma PauseIsResumableIff(h: Host, id: string)
    requires id in h.running
    ensures Resume(Pause(h, id, PAUSE_OK).0, id, id, RESUME_OK).1 <==> h.running[id].rootfsPath in h.disks
  {
    PauseSucceedsIff(h, id, PAUSE_OK);
  }

  // ---- Creation, kill and adoption ----

  function Created(h: Host, id: string, disk: Disk, memory: Memory, guestIP: Option<IPv4>): Host
  {
    h.(running := h.running[id := Vm(id, id, memory, false, guestIP)], disks := h.disks[id := disk])
  }

  function Kill(h: Host, id: string, cleaned: bool): (Host, bool)
  {
    if id !in h.running then (h, false)
    else (h.(running := h.running - {id}, disks := if cleaned then h.disks - {id} else h.disks), cleaned)
  }

  function Adopt(h: Host, id: string, placeholder: string): (Host, bool)
  {
    if placeholder !in h.running then (h, false)
    else (h.(running := (h.running - {placeholder})[id := h.running[placeholder].(sandboxID := id)]), true)
  }

  /** A kill that reports success has removed the machine's rootfs file exactly when the machine
      still runs under the ID it was created with.  So after an adoption nobody removes it: the
      placeholder, whose name it bears, is gone as well. */
  lemma KillRemovesRootfsIff(h: Host, id: string)
    requires Alive(h, id)
    ensures var (h', ok) := Kill(h, id, true);
            && ok && id !in h'.running
            && (h.running[id].rootfsPath !in h'.disks <==> h.running[id].rootfsPath == id)
    ensures h.running[id].rootfsPath == id ==>
              forall other :: other != id ==>
                var h' := Kill(Adopt(h, other, id).0, other, true).0;
                other !in h'.running && id !in h'.running && id in h'.disks
  {}

  /** The adopted machine is the placeholder's machine under the new ID: its memory, its rootfs file,
      its address and whether it is halted are those it had, and nothing else changes. */
  lemma AdoptionKeepsMachine(h: Host, id: string, placeholder: string)
    ensures var (h', ok) := Adopt(h, id, placeholder);
            && (ok <==> placeholder in h.running)
            && h'.disks == h.disks && h'.pauses == h.pauses
            && (!ok ==> h'.running == h.running)
            && (ok ==>
                 var was, vm := h.running[placeholder], h'.running[id];
                 && id in h'.running && vm.sandboxID == id
                 && vm.memory == was.memory && vm.rootfsPath == was.rootfsPath
                 && vm.guestIP == was.guestIP && vm.halted == was.halted
                 && (placeholder != id ==> placeholder !in h'.running)
                 && forall x :: x != id && x != placeholder ==>
                      (x in h'.running <==> x in h.running) && (x in h.running ==> h'.running[x] == h.running[x]))
  {}

  // ---- The manager object ----

  /** The stages of CreateSandbox at which it can fail, in order. */
  datatype Stage =
    | CopyRootfs | NetworkAllocation | SpawnProcess | ApiSocket
    | MachineConfig | BootSource | RootDrive | NetworkInterface | Vsock | StartInstance | GuestAgentReady

  predicate ApiStage(s: Stage)
  {
    !s.CopyRootfs? && !s.NetworkAllocation? && !s.SpawnProcess? && !s.ApiSocket?
  }

  class FirecrackerManager {
    const templates: map<string, Disk>
    const net: NetworkManager
    var running: map<string, Vm>
    var disks: map<string, Disk>
    var pauses: map<string, PauseDir>

    ghost function View(): Host
      reads this
    {
      Host(running, disks, pauses)
    }

    constructor (templates: map<string, Disk>, net: NetworkManager, disks: map<string, Disk>, pauses: map<string, PauseDir>)
      ensures this.templates == templates && this.net == net
      ensures View() == Host(map[], disks, pauses)
    {
      this.templates, this.net := templates, net;
      this.running, this.disks, this.pauses := map[], disks, pauses;
    }

    /** Where a creation stops.  `failAt` names the outside call that fails, if it is reached at
        all: the network stages only exist with networking on.  A missing template always fails
        the copy, a tap device of that name always fails the allocation. */
    ghost function Failing(template: string, failAt: Option<Stage>, tapTaken: bool): Option<Stage>
    {
      if template !in templates || failAt == Some(CopyRootfs) then Some(CopyRootfs)
      else if net.enabled && (tapTaken || failAt == Some(NetworkAllocation)) then Some(NetworkAllocation)
      else if !net.enabled && (failAt == Some(NetworkAllocation) || failAt == Some(NetworkInterface)) then None
      else failAt
    }

    /** Cleanup of the sandbox's own rootfs file; `cleaned` tells whether removing works. */
    method Cleanup(sandboxID: string, cleaned: bool)
      modifies this`disks
      ensures disks == if cleaned then old(disks) - {sandboxID} else old(disks)
    {
      if cleaned { disks := disks - {sandboxID}; }
    }

    method Rollback(sandboxID: string, guestIP: Option<IPv4>, cleaned: bool, deletes: bool)
      requires guestIP.Some? ==> net.enabled
      modifies this`disks, net
      ensures disks == if cleaned then old(disks) - {sandboxID} else old(disks)
      ensures guestIP.Some? ==> net.View() == old(net.View()).Released(guestIP.value)
      ensures guestIP.None? ==> net.View() == old(net.View())
    {
      Cleanup(sandboxID, cleaned);
      if guestIP.Some? { net.ReleaseTap(sandboxID, guestIP.value, deletes); }
    }

    /** Creation stops at the failing stage.  From the API stage on it leaves the table, the
        files (its own copy removed) and the addresses as they were: the address is released
        again.  A process or socket failure keeps the address. */
    method CreateSandbox(sandboxID: string, template: string, memory: Memory, failAt: Option<Stage>,
                         cleaned: bool, deletes: bool) returns (ok: bool)
      modifies this`running, this`disks, net
      ensures var failing := Failing(template, failAt, TapDeviceName(sandboxID) in old(net.taps));
              && (ok <==> failing.None?)
              && (ok ==>
                   && running == old(running)[sandboxID :=
                        Vm(sandboxID, sandboxID, memory, false,
                           if net.enabled then Some(OffsetIP(net.baseIP, old(net.View()).NextOffset())) else None)]
                   && disks == old(disks)[sandboxID := templates[template]]
                   && View() == Created(old(View()), sandboxID, templates[template], memory, running[sandboxID].guestIP)
                   && net.View() == if net.enabled then old(net.View()).Allocated() else old(net.View()))
              && (!ok ==> running == old(running))
              && (!ok && template !in templates ==> disks == old(disks))
              && (!ok && template in templates && cleaned ==> disks == old(disks) - {sandboxID})
              && disks - {sandboxID} == old(disks) - {sandboxID}
              && (!ok && ApiStage(failing.value) && net.enabled ==>
                   net.View() == old(net.View()).Allocated().Released(OffsetIP(net.baseIP, old(net.View()).NextOffset())))
              && (!ok && (failing.value.SpawnProcess? || failing.value.ApiSocket?) && net.enabled ==>
                   net.View() == old(net.View()).Allocated())
              && (!ok && (failing.value.CopyRootfs? || failing.value.NetworkAllocation? || !net.enabled) ==>
                   net.View() == old(net.View()))
    {
      if template !in templates { return false; }
      disks := disks[sandboxID := templates[template]];
      if failAt == Some(CopyRootfs) {
        Cleanup(sandboxID, cleaned);
        return false;
      }
      var guestIP := None;
      if net.enabled {
        guestIP := net.AllocateTap(sandboxID, if failAt == Some(NetworkAllocation) then AttachFails else TapUp, deletes);
        if guestIP.None? {
          Cleanup(sandboxID, cleaned);
          return false;
        }
      }
      if failAt == Some(SpawnProcess) || failAt == Some(ApiSocket) {
        Cleanup(sandboxID, cleaned);
        return false;
      }
      // The calls from MachineConfig to GuestAgentReady; NetworkInterface only with an address.
      if failAt.Some? && ApiStage(failAt.value) && (guestIP.Some? || !failAt.value.NetworkInterface?) {
        Rollback(sandboxID, guestIP, cleaned, deletes);
        return false;
      }
      running := running[sandboxID := Vm(sandboxID, sandboxID, memory, false, guestIP)];
      ok := true;
    }

    /** The tap device and the rootfs file are found by the ID the sandbox has now. */
    method KillSandbox(sandboxID: string, cleaned: bool, deletes: bool) returns (ok: bool)
      modifies this`running, this`disks, net
      ensures (View(), ok) == Kill(old(View()), sandboxID, cleaned)
      ensures ok <==> sandboxID in old(running) && cleaned
      ensures running == old(running) - {sandboxID} && pauses == old(pauses)
      ensures disks == if ok then old(disks) - {sandboxID} else old(disks)
      ensures sandboxID in old(running) && old(running)[sandboxID].guestIP.Some? && net.enabled ==>
                && net.View() == old(net.View()).Released(old(running)[sandboxID].guestIP.value)
                && net.taps == if deletes then old(net.taps) - {TapDeviceName(sandboxID)} else old(net.taps)
      ensures !(sandboxID in old(running) && old(running)[sandboxID].guestIP.Some? && net.enabled) ==>
                net.View() == old(net.View()) && net.taps == old(net.taps)
    {
      if sandboxID !in running { return false; }
      var vm := running[sandboxID];
      running := running - {sandboxID};
      if vm.guestIP.Some? { net.ReleaseTap(sandboxID, vm.guestIP.value, deletes); }
      Cleanup(sandboxID, cleaned);
      ok := cleaned;
    }

    method IsRunning(sandboxID: string) returns (tracked: bool)
      ensures tracked <==> sandboxID in running
    {
      tracked := sandboxID in running;
    }

    method RemoveDir(id: string, cleaned: bool)
      modifies this`pauses
      ensures pauses == Cleared(old(pauses), id, cleaned)
    {
      if cleaned { pauses := pauses - {id}; }
    }

    method PauseSandbox(sandboxID: string, out: PauseOutcome) returns (ref: Option<string>)
      modifies this`running, this`pauses
      ensures (View(), ref) == Pause(old(View()), sandboxID, out)
      ensures disks == old(disks)
      ensures ref.Some? ==>
                && ref == Some(sandboxID) && running == old(running) - {sandboxID} && sandboxID in pauses
                && pauses[sandboxID].manifest == Some(Manifest(old(running)[sandboxID].rootfsPath, sandboxID))
    {
      if sandboxID !in running || !out.dirMade { return None; }
      var vm := running[sandboxID];
      if sandboxID !in pauses { pauses := pauses[sandboxID := PauseDir(None, None)]; }
      assert pauses == old(pauses)[sandboxID := DirAt(old(View()), sandboxID)];
      if !out.vmPaused {
        RemoveDir(sandboxID, out.cleaned);
        return None;
      }
      if out.snapshotTaken {
        pauses := pauses[sandboxID := pauses[sandboxID].(snapshot := Some(vm.memory))];
      } else {
        RemoveDir(sandboxID, out.cleaned);
      }
      assert pauses == AfterSnapshot(old(View()), sandboxID, out);
      running := running[sandboxID := vm.(halted := true)];
      if sandboxID !in pauses || !out.manifestWritten {
        RemoveDir(sandboxID, out.cleaned);
        return None;
      }
      pauses := pauses[sandboxID := pauses[sandboxID].(manifest := Some(Manifest(vm.rootfsPath, sandboxID)))];
      running := running - {sandboxID};
      assert running == old(running) - {sandboxID};
      ref := Some(sandboxID);
    }

    method ResumeSandbox(sandboxID: string, ref: string, out: ResumeOutcome) returns (ok: bool)
      modifies this`running
      ensures (View(), ok) == Resume(old(View()), sandboxID, ref, out)
      ensures disks == old(disks) && pauses == old(pauses)
      ensures !ok ==> running == old(running)
      ensures ok ==>
                && out == RESUME_OK && ref in pauses && pauses[ref].manifest.Some?
                && var m := pauses[ref].manifest.value;
                   && m.rootfsPath in disks && m.snapshotDir in pauses && pauses[m.snapshotDir].snapshot.Some?
                   && running == old(running)[sandboxID :=
                        Vm(sandboxID, m.rootfsPath, pauses[m.snapshotDir].snapshot.value, false, None)]
    {
      if ref !in pauses || pauses[ref].manifest.None? { return false; }
      var m := pauses[ref].manifest.value;
      if m.rootfsPath !in disks { return false; }
      if !out.spawned || !out.socketUp { return false; }
      if m.snapshotDir !in pauses || pauses[m.snapshotDir].snapshot.None? || !out.loaded { return false; }
      if !out.ready { return false; }
      running := running[sandboxID := Vm(sandboxID, m.rootfsPath, pauses[m.snapshotDir].snapshot.value, false, None)];
      ok := true;
    }

    method RemovePause(ref: string, out: RemoveOutcome) returns (ok: bool)
      modifies this`disks, this`pauses
      ensures (View(), ok) == RemoveImage(old(View()), ref, out)
      ensures ok == out.dirRemoved && running == old(running)
      ensures pauses == if out.dirRemoved then old(pauses) - {ref} else old(pauses)
      ensures disks == if ref in old(pauses) && old(pauses)[ref].manifest.Some? && out.fileRemoved
                       then old(disks) - {old(pauses)[ref].manifest.value.rootfsPath} else old(disks)
    {
      if ref in pauses && pauses[ref].manifest.Some? && out.fileRemoved {
        disks := disks - {pauses[ref].manifest.value.rootfsPath};
      }
      RemoveDir(ref, out.dirRemoved);
      ok := out.dirRemoved;
    }

    method AdoptWarmResource(sandboxID: string, placeholder: string) returns (ok: bool)
      modifies this`running
      ensures (View(), ok) == Adopt(old(View()), sandboxID, placeholder)
      ensures ok <==> placeholder in old(running)
      ensures disks == old(disks) && pauses == old(pauses) && net.View() == old(net.View())
      ensures running == if ok then (old(running) - {placeholder})[sandboxID :=
                                      old(running)[placeholder].(sandboxID := sandboxID)]
                         else old(running)
    {
      if placeholder !in running { return false; }
      var vm := running[placeholder];
      running := running - {placeholder};
      running := running[sandboxID := vm.(sandboxID := sandboxID)];
      ok := true;
    }
  }

  /** A warm machine's way: created for the pool, adopted, killed.  The kill gives back exactly the
      address the creation took. */
  method WarmAdoptKill(m: FirecrackerManager, placeholder: string, id: string, template: string, memory: Memory,
                       cleaned: bool, deletes: bool)
    requires m.net.enabled && TapDeviceName(placeholder) !in m.net.taps && template in m.templates && placeholder != id
    modifies m, m.net
    ensures var ip := OffsetIP(m.net.baseIP, old(m.net.View()).NextOffset());
            m.net.View() == old(m.net.View()).Allocated().Released(ip)
    ensures m.running == old(m.running) - {placeholder} - {id}
  {
    var created := m.CreateSandbox(placeholder, template, memory, None, cleaned, deletes);
    ghost var table := old(m.running)[placeholder := m.running[placeholder]];
    assert m.running == table;
    var adopted := m.AdoptWarmResource(id, placeholder);
    var killed := m.KillSandbox(id, cleaned, deletes);
    assert m.running == (table - {placeholder}) - {id};
  }
}

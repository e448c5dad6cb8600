/** The live migration of internal/migration/live.go: `live` with its deferred recovery, `mergeCopy`,
    `restoreSource` and `runLive`. */
module Live {
  import opened Text
  import opened Vmx
  import opened Hosts
  import opened Jobs
  import opened Engines
  import D = Devices
  import C = Cold

  // -----------------------------------------------------------------------------------------------
  // Merging snapshots

  /** The VMX names every disk as `names` does. */
  predicate Names(plan: Plan, c: Config, names: map<string, string>)
  {
    NamesAgree(plan.disks, c, names)
  }

  /** What a merge may touch: the trees and the VMX files of the two VMs. */
  twostate predicate Merging(e: Engine)
    reads e.h
  {
    && e.h.Valid() && e.h.log.safe && (old(e.h.log).owned && e.Owned(old(e.h.w)) ==> e.h.log.owned)
    && SameRegistrations(old(e.h.w), e.h.w) && SameFiles(old(e.h.w), e.h.w)
    && SourcePower(old(e.h.w), e.h.w) && TargetPower(old(e.h.w), e.h.w) &&
         (e.h.reliable ==> SamePowers(old(e.h.w), e.h.w))
    && Same(e.h.w.clones.Keys, old(e.h.w).clones.Keys) &&
         Same(e.h.log.view, old(e.h.log).view.(guard := e.h.log.view.guard))
  }

  ghost predicate Id(w: World, side: Side, id: nat)
  {
    id != 0 && if side.Source? then id == w.reg.src else id == w.reg.dst && id != w.reg.src
  }

  /** The VM, and the copy only after it was read off. */
  ghost predicate Mergeable(e: Engine, side: Side, id: nat)
    reads e.h
  {
    Id(e.h.w, side, id) && (side.Target? && !e.h.plan.move ==> SeenOff(e.h.log.view, id, e.h.w))
  }

  function Tree(w: World, side: Side): seq<string>
  {
    if side.Source? then w.trees.src else w.trees.dst
  }

  function VmxOf(w: World, side: Side): Config
  {
    if side.Source? then w.trees.srcVmx else w.trees.dstVmx
  }

  /** The VM has no snapshot any more and names its base disks. */
  ghost predicate IsMerged(e: Engine, w: World, side: Side)
  {
    Tree(w, side) == [] && Names(e.h.plan, VmxOf(w, side), BaseNames(e.h.plan, side))
  }

  function BaseNames(plan: Plan, side: Side): map<string, string>
  {
    if side.Source? then plan.sourceConfig else DiskNames(plan.disks)
  }

  /** `ConsolidateOwnSnapshot`: merges only where the tree is exactly the job's snapshot. */
  method Consolidate(e: Engine, side: Side, id: nat) returns (ok: bool)
    requires e.h.Valid() && e.h.log.safe && e.h.plan.live && e.h.log.view.copy.pending == {} && Mergeable(e, side, id)
    modifies e.h
    ensures Merging(e)
    ensures if side.Source?
              then Same(e.h.w.trees, old(e.h.w).trees.(src := e.h.w.trees.src, srcVmx := e.h.w.trees.srcVmx))
            else Same(e.h.w.trees, old(e.h.w).trees.(dst := e.h.w.trees.dst, dstVmx := e.h.w.trees.dstVmx))
    ensures Tree(old(e.h.w), side) != [e.h.plan.snapshot] ==> !ok && SameTrees(old(e.h.w), e.h.w)
    ensures Tree(e.h.w, side) == Tree(old(e.h.w), side) || Tree(e.h.w, side) == []
    ensures e.h.reliable && Tree(old(e.h.w), side) == [e.h.plan.snapshot] ==> ok && IsMerged(e, e.h.w, side)
  {
    ok := RunsOnOwn(e, side, id);
    if ok {
      ok := Remove(e, side, id);
    }
  }

  method Remove(e: Engine, side: Side, id: nat) returns (ok: bool)
    requires e.h.Valid() && e.h.log.safe && e.h.plan.live && e.h.log.view.copy.pending == {} && Mergeable(e, side, id)
    requires Tree(e.h.w, side) == [e.h.plan.snapshot]
    modifies e.h
    ensures Merging(e)
    ensures if side.Source?
              then Same(e.h.w.trees, old(e.h.w).trees.(src := e.h.w.trees.src, srcVmx := e.h.w.trees.srcVmx))
            else Same(e.h.w.trees, old(e.h.w).trees.(dst := e.h.w.trees.dst, dstVmx := e.h.w.trees.dstVmx))
    ensures Tree(e.h.w, side) == Tree(old(e.h.w), side) || Tree(e.h.w, side) == []
    ensures e.h.reliable ==> ok && IsMerged(e, e.h.w, side)
  {
    ok := e.h.RemoveAllSnapshots(id);
  }

  method RunsOnOwn(e: Engine, side: Side, id: nat) returns (ok: bool)
    requires e.h.Valid() && Id(e.h.w, side, id)
    modifies e.h
    ensures e.h.Valid() && e.h.Still() && Same(e.h.log.view, old(e.h.log).view)
    ensures ok ==> Tree(e.h.w, side) == [e.h.plan.snapshot]
    ensures e.h.reliable && Tree(e.h.w, side) == [e.h.plan.snapshot] ==> ok
  {
    var tree := e.h.Snapshot(id);
    ok := tree == Some([e.h.plan.snapshot]);
  }

  /** `merged`: confirms a merge by reading. */
  method Merged(e: Engine, side: Side, id: nat) returns (ok: bool)
    requires e.h.Valid() && Id(e.h.w, side, id)
    modifies e.h
    ensures e.h.Valid() && e.h.Still() && Same(e.h.log.view, old(e.h.log).view)
    ensures ok ==> IsMerged(e, e.h.w, side)
    ensures e.h.reliable && IsMerged(e, e.h.w, side) ==> ok
  {
    var tree := e.h.Snapshot(id);
    if tree != Some([]) {
      return false;
    }
    var c := e.h.ReadVmx(side);
    if c.None? {
      return false;
    }
    ok := Compare(e.h.plan.disks, c.value, BaseNames(e.h.plan, side));
  }

  // -----------------------------------------------------------------------------------------------
  // Restoring the source

  /** What a recovery leaves alone. A target that runs stays registered. */
  twostate predicate Restoring(e: Engine, j: Job)
    reads e.h, j
  {
    && e.Sound(j) && j.final == old(j.final) && (old(j.stop) ==> j.stop)
    && SourcePower(old(e.h.w), e.h.w) && TargetPower(old(e.h.w), e.h.w)
    && Same(e.h.w.clones.Keys, old(e.h.w).clones.Keys) && e.h.SameCopy()
    && Same(j.state, old(j.state).(source := j.state.source, target := j.state.target, targetId := j.state.targetId))
    && (e.h.w.dstPower != Off ==> e.h.w.reg.dst == old(e.h.w).reg.dst)
  }

  /** The source alone is registered. */
  predicate Home(w: World)
  {
    w.reg.src != 0 && w.reg.dst == 0
  }

  /** The inventory was last seen as it is. */
  ghost predicate Listed(e: Engine)
    reads e.h
  {
    e.h.log.view.inventory == Some((e.h.w.reg.src, e.h.w.reg.dst))
  }

  /** Takes the target out of the inventory again, if it is off. */
  method TakeOut(e: Engine, j: Job, dst: nat) returns (r: Option<(nat, nat)>)
    requires e.Sound(j) && e.Owned(e.h.w) && e.h.log.view.copy.pending == {} && dst == e.h.w.reg.dst && dst != 0
    requires e.Backed(j.state, e.h.w) && Listed(e)
    modifies e.h, j
    ensures Restoring(e, j) && SameTrees(old(e.h.w), e.h.w) && SameFiles(old(e.h.w), e.h.w)
    ensures e.h.w.reg.src == old(e.h.w).reg.src && e.Backed(j.state, e.h.w)
    ensures r.Some? ==> r.value == (e.h.w.reg.src, 0) && e.h.w.reg.dst == 0 && Truthful(j.state, e.h.w) && Listed(e)
    ensures e.h.reliable && dst != 0 && old(e.h.w).dstPower == Off ==> r.Some?
  {
    e.h.SafeNow();
    var err := e.RequireOff(dst);
    if err.Some? {
      return None;
    }
    r := Drop(e, j, dst);
  }

  method Drop(e: Engine, j: Job, dst: nat) returns (r: Option<(nat, nat)>)
    requires e.Sound(j) && e.Owned(e.h.w) && e.h.log.view.copy.pending == {} && dst == e.h.w.reg.dst && dst != 0
    requires e.Backed(j.state, e.h.w) && Listed(e) && SeenOff(e.h.log.view, dst, e.h.w)
    modifies e.h, j
    ensures Restoring(e, j) && SameTrees(old(e.h.w), e.h.w) && SameFiles(old(e.h.w), e.h.w)
    ensures e.h.w.reg.src == old(e.h.w).reg.src && e.Backed(j.state, e.h.w)
    ensures r.Some? ==> r.value == (e.h.w.reg.src, 0) && e.h.w.reg.dst == 0 && Truthful(j.state, e.h.w) && Listed(e)
    ensures e.h.reliable ==> r.Some?
  {
    var _ := e.h.Unregister(dst);
    r := e.Registrations();
    if r.Some? && r.value.1 == 0 {
      j.Update(Published(j.state, r.value.0, 0));
    } else {
      r := None;
    }
  }

  /** Registers the source again. */
  method PutBack(e: Engine, j: Job) returns (src: nat)
    requires e.Sound(j) && e.Owned(e.h.w) && e.h.log.view.copy.pending == {} && e.h.w.reg == Registry(0, 0)
    requires e.Backed(j.state, e.h.w) && Listed(e)
    modifies e.h, j
    ensures Restoring(e, j) && SameTrees(old(e.h.w), e.h.w) && SameFiles(old(e.h.w), e.h.w)
    ensures e.Backed(j.state, e.h.w) && e.h.w.reg.dst == 0
    ensures src != 0 ==> src == e.h.w.reg.src && Truthful(j.state, e.h.w)
    ensures e.h.reliable ==> src != 0
  {
    var _ := e.h.Register(Source);
    var r := e.Registrations();
    if r.None? || r.value.0 == 0 || r.value.1 != 0 {
      return 0;
    }
    src := r.value.0;
    j.Update(Published(j.state, src, 0));
  }

  /** Brings the inventory back to the source alone; it refuses while the target runs. */
  method RestoreRegistration(e: Engine, j: Job) returns (src: nat)
    requires e.Sound(j) && e.h.log.view.copy.pending == {} && (e.Owned(e.h.w) || Home(e.h.w))
    modifies e.h, j
    ensures Restoring(e, j) && SameTrees(old(e.h.w), e.h.w) && SameFiles(old(e.h.w), e.h.w)
    ensures old(e.Backed(j.state, e.h.w)) ==> e.Backed(j.state, e.h.w)
    ensures src != 0 ==> src == e.h.w.reg.src && Home(e.h.w) && Truthful(j.state, e.h.w)
    ensures Home(old(e.h.w)) ==> Home(e.h.w) && SameRegistrations(old(e.h.w), e.h.w) && e.h.SameCounts()
    ensures e.h.reliable && (old(e.h.w).reg.dst != 0 ==> old(e.h.w).dstPower == Off) ==> src != 0
  {
    var r := e.Reconcile(j);
    if r.None? {
      return 0;
    }
    src := Settle(e, j, r.value.0, r.value.1);
  }

  method Settle(e: Engine, j: Job, found: nat, dst: nat) returns (src: nat)
    requires e.Sound(j) && e.h.log.view.copy.pending == {} && (e.Owned(e.h.w) || Home(e.h.w))
    requires e.h.w.reg == Registry(found, dst) && Truthful(j.state, e.h.w) && Listed(e)
    modifies e.h, j
    ensures Restoring(e, j) && SameTrees(old(e.h.w), e.h.w) && SameFiles(old(e.h.w), e.h.w)
    ensures e.Backed(j.state, e.h.w)
    ensures src != 0 ==> src == e.h.w.reg.src && Home(e.h.w) && Truthful(j.state, e.h.w)
    ensures Home(old(e.h.w)) ==> Home(e.h.w) && SameRegistrations(old(e.h.w), e.h.w) && e.h.SameCounts()
    ensures e.h.reliable && (dst != 0 ==> old(e.h.w).dstPower == Off) ==> src != 0
  {
    if dst != 0 {
      src := Replace(e, j, dst);
    } else {
      src := Fill(e, j, found);
    }
  }

  method Replace(e: Engine, j: Job, dst: nat) returns (src: nat)
    requires e.Sound(j) && e.h.log.view.copy.pending == {} && e.Owned(e.h.w) && dst == e.h.w.reg.dst && dst != 0
    requires e.Backed(j.state, e.h.w) && Listed(e)
    modifies e.h, j
    ensures Restoring(e, j) && SameTrees(old(e.h.w), e.h.w) && SameFiles(old(e.h.w), e.h.w)
    ensures e.Backed(j.state, e.h.w)
    ensures src != 0 ==> src == e.h.w.reg.src && Home(e.h.w) && Truthful(j.state, e.h.w)
    ensures e.h.reliable && old(e.h.w).dstPower == Off ==> src != 0
  {
    var r := TakeOut(e, j, dst);
    if r.None? {
      return 0;
    }
    src := Fill(e, j, r.value.0);
  }

  method Fill(e: Engine, j: Job, found: nat) returns (src: nat)
    requires e.Sound(j) && e.h.log.view.copy.pending == {} && (e.Owned(e.h.w) || found != 0)
    requires e.h.w.reg == Registry(found, 0) && Truthful(j.state, e.h.w) && Listed(e)
    modifies e.h, j
    ensures Restoring(e, j) && SameTrees(old(e.h.w), e.h.w) && SameFiles(old(e.h.w), e.h.w)
    ensures e.Backed(j.state, e.h.w)
    ensures src != 0 ==> src == e.h.w.reg.src && Home(e.h.w) && Truthful(j.state, e.h.w)
    ensures found != 0 ==> SameRegistrations(old(e.h.w), e.h.w) && e.h.SameCounts()
    ensures e.h.reliable ==> src != 0
  {
    src := found;
    if src == 0 {
      src := PutBack(e, j);
    }
  }

  ghost predicate Restorable(e: Engine, w: World)
  {
    w.trees.src == [e.h.plan.snapshot] || IsMerged(e, w, Source)
  }

  /** Merges the job's snapshot back into the source, or finds it merged; any other tree is refused. */
  method MergeBack(e: Engine, src: nat) returns (ok: bool)
    requires e.h.Valid() && e.h.log.safe && e.h.plan.live && e.h.log.view.copy.pending == {}
    requires src == e.h.w.reg.src && src != 0
    requires e.Owned(e.h.w) || e.h.w.trees.src == []
    modifies e.h
    ensures Merging(e) && (old(e.h.log).owned ==> e.h.log.owned)
    ensures ok ==> IsMerged(e, e.h.w, Source)
    ensures old(e.h.w).trees.src != [e.h.plan.snapshot] ==> SameTrees(old(e.h.w), e.h.w)
    ensures e.h.reliable && Restorable(e, old(e.h.w)) ==> ok
  {
    var names := e.h.Snapshot(src);
    if names.None? {
      return false;
    }
    if names.value != [] {
      ok := Consolidate(e, Source, src);
      if !ok {
        return;
      }
    }
    ok := Merged(e, Source, src);
  }

  /** The source as the job found it: registered alone, without a snapshot, on its own disks, and unlocked. */
  ghost predicate AsFound(e: Engine, w: World)
  {
    Home(w) && IsMerged(e, w, Source) && w.store.lock == Free
  }

  /** What a recovery may still find: its own lock, or nothing left to do. */
  ghost predicate Recoverable(e: Engine, w: World)
  {
    e.Owned(w) || (Home(w) && w.trees.src == [])
  }

  method Release(e: Engine, src: nat) returns (ok: bool)
    requires e.h.Valid() && e.h.log.safe && e.h.log.owned && e.h.plan.live && e.h.log.view.copy.pending == {}
    requires src == e.h.w.reg.src && Home(e.h.w) && Recoverable(e, e.h.w)
    modifies e.h
    ensures e.h.Valid() && e.h.log.safe && e.h.log.owned && SameRegistrations(old(e.h.w), e.h.w)
    ensures SourcePower(old(e.h.w), e.h.w) && TargetPower(old(e.h.w), e.h.w)
    ensures Same(e.h.w.clones.Keys, old(e.h.w).clones.Keys) && e.h.SameCopy() && e.h.OnlyLocks()
    ensures ok ==> AsFound(e, e.h.w)
    ensures old(e.h.w).trees.src != [e.h.plan.snapshot] ==> SameTrees(old(e.h.w), e.h.w)
    ensures e.h.reliable && e.Owned(old(e.h.w)) && Restorable(e, old(e.h.w)) ==> ok
  {
    ok := MergeBack(e, src);
    if ok {
      var _ := e.h.Power(src);
      ok := e.Finish();
    }
  }

  /** `restoreSource`: puts the source back as the job found it. It starts nothing, refuses a snapshot the job did
      not take, and a success was read back from the host. */
  method RestoreSource(e: Engine, j: Job) returns (ok: bool)
    requires e.Sound(j) && e.h.plan.live && e.h.log.view.copy.pending == {} && Recoverable(e, e.h.w)
    modifies e.h, j
    ensures Restoring(e, j)
    ensures old(e.Backed(j.state, e.h.w)) ==> e.Backed(j.state, e.h.w)
    ensures Home(old(e.h.w)) ==> e.h.OnlyLocks()
    ensures ok ==> AsFound(e, e.h.w) && Truthful(j.state, e.h.w)
    ensures old(e.h.w).trees.src != [e.h.plan.snapshot] ==> SameTrees(old(e.h.w), e.h.w)
    ensures e.h.reliable && e.Owned(old(e.h.w)) && (old(e.h.w).reg.dst != 0 ==> old(e.h.w).dstPower == Off) &&
            Restorable(e, old(e.h.w))
            ==> ok
  {
    var src := RestoreRegistration(e, j);
    if src == 0 {
      return false;
    }
    ok := Release(e, src);
  }

  // -----------------------------------------------------------------------------------------------
  // Cloning the base disks while the VM runs

  /** The first `n` base disks are cloned, verified, and kept their content ids. */
  ghost predicate Cloned(e: Engine, v: Copied, n: nat)
  {
    C.Cloned(e, v, n) && forall i :: 0 <= i < n ==> (Cid, i) in v.passed
  }

  lemma StillCloned(e: Engine, v: Copied, w: Copied, n: nat)
    requires Cloned(e, v, n) && w == v.(copies := w.copies)
    ensures Cloned(e, w, n)
  {
    C.StillCloned(e, v, w, n);
  }

  method CloneDisk(e: Engine, j: Job, i: nat, deltas: map<string, string>) returns (err: Option<Error>, pending: bool)
    requires e.Sound(j) && e.h.plan.live && i < |e.h.plan.disks| && e.Owned(e.h.w) && C.Cloned(e, e.h.log.view.copy, i)
    requires j.state.phase != Unknown
    modifies e.h, j
    ensures C.Cloning(e, j)
    ensures pending <==> e.h.log.view.copy.pending != {}
    ensures old(j.stop) ==> err == Some(OperatorStop) && e.h.SameClones()
    ensures err.None? ==> j.state.phase != Unknown
    ensures err.None? ==>
              Same(e.h.log.view.copy, C.Ended(old(e.h.log).view.copy, i).(deltas := e.h.log.view.copy.deltas))
    ensures err.Some? ==> C.Interrupted(err.value, e.h.log.view.copy, j.state.phase, j.stop)
    ensures pending ==> e.OnDeltas(deltas, e.h.w)
    ensures e.h.reliable && i !in old(e.h.w).clones && e.OnDeltas(deltas, old(e.h.w)) && e.o.cloneTimeout >= 1 ==>
              err.None? || err == Some(OperatorStop)
    ensures forall k :: k in e.h.w.clones ==> k in old(e.h.w).clones || k == i
  {
    pending := false;
    err := MayClone(e, j, deltas);
    if err.Some? {
      return;
    }
    C.StillCloned(e, old(e.h.log).view.copy, e.h.log.view.copy, i);
    C.FirstOnes(e, e.h.log.view.copy, i);
    err, pending := C.Launch(e, j, i);
  }

  method MayClone(e: Engine, j: Job, deltas: map<string, string>) returns (err: Option<Error>)
    requires e.Sound(j) && j.state.phase != Unknown
    modifies e.h, j
    ensures C.Cloning(e, j) && e.h.SameClones() && Same(e.h.w.clones.Keys, old(e.h.w).clones.Keys) &&
              j.state.phase != Unknown
    ensures err.None? ==> e.h.log.view.guard && e.h.log.view.orders.unstopped && e.OnDeltas(deltas, e.h.w)
    ensures if old(j.stop) then err == Some(OperatorStop) else err == Some(OperatorStop) ==> j.stop
    ensures err.None? || err == Some(OperatorStop) || err == Some(Failure) || err == Some(NoSpace)
    ensures e.h.reliable && e.OnDeltas(deltas, old(e.h.w)) ==> err.None? || err == Some(OperatorStop)
  {
    var stop := e.h.StopRequested(j);
    if stop {
      return Some(OperatorStop);
    }
    err := e.LiveGuard(deltas);
    if err.None? {
      j.SetPhase(Phase.Cloning);
    }
  }

  method VerifyClone(e: Engine, j: Job, i: nat) returns (err: Option<Error>)
    requires e.Sound(j) && i < |e.h.plan.disks| && e.Made()
    modifies e.h, j
    ensures C.Cloning(e, j) && j.state.phase == VerifyingDisk
    ensures Same(e.h.log.view.copy, old(e.h.log).view.copy.(passed := e.h.log.view.copy.passed,
              again := e.h.log.view.copy.again))
    ensures old(e.h.log).view.copy.passed <= e.h.log.view.copy.passed
    ensures err.None? ==>
              e.Verified(e.h.log.view.copy, i) && (i in e.h.log.view.copy.zero ==> (Cid, i) in e.h.log.view.copy.passed)
    ensures err.None? || err == Some(Failure)
    ensures Same(e.h.w.clones.Keys, old(e.h.w).clones.Keys)
    ensures e.h.reliable ==> err.None?
  {
    j.SetPhase(VerifyingDisk);
    var ok := e.VerifyDisk(i);
    if !ok {
      return Some(Failure);
    }
    ok := VerifyCid(e, i);
    err := if ok then None else Some(Failure);
  }

  /** The clone kept the content id of its source. */
  method VerifyCid(e: Engine, i: nat) returns (ok: bool)
    requires e.h.Valid() && i < |e.h.plan.disks| && e.Made()
    modifies e.h
    ensures e.Checking()
    ensures ok && i in e.h.log.view.copy.zero ==> (Cid, i) in e.h.log.view.copy.passed
    ensures e.h.reliable ==> ok
  {
    var d := e.h.ReadDescriptor(i, Cid);
    ok := e.h.Good(Cid, i, d);
  }

  lemma ClonedMore(e: Engine, v: Copied, l: Copied, w: Copied, i: nat)
    requires Cloned(e, v, i) && e.Verified(w, i) && (i in w.zero ==> (Cid, i) in w.passed)
    requires l == C.Ended(v, i).(deltas := l.deltas) && w == l.(passed := w.passed, again := w.again) &&
              l.passed <= w.passed
    ensures Cloned(e, w, i + 1)
  {
    C.ClonedMore(e, v, w, i);
    forall k | 0 <= k < i ensures (Cid, k) in w.passed {
      assert (Cid, k) in v.passed;
    }
  }

  method MakeDisk(e: Engine, j: Job, i: nat, deltas: map<string, string>) returns (err: Option<Error>, pending: bool)
    requires e.Sound(j) && e.h.plan.live && i < |e.h.plan.disks| && e.Owned(e.h.w) && Cloned(e, e.h.log.view.copy, i)
    requires j.state.phase != Unknown && e.Made()
    modifies e.h, j
    ensures C.Cloning(e, j)
    ensures old(j.stop) ==> err == Some(OperatorStop) && e.h.SameClones()
    ensures pending <==> e.h.log.view.copy.pending != {}
    ensures err.None? ==> Cloned(e, e.h.log.view.copy, i + 1) && j.state.phase != Unknown
    ensures err.Some? ==> C.Interrupted(err.value, e.h.log.view.copy, j.state.phase, j.stop)
    ensures pending ==> e.OnDeltas(deltas, e.h.w)
    ensures e.h.reliable && i !in old(e.h.w).clones && e.OnDeltas(deltas, old(e.h.w)) && e.o.cloneTimeout >= 1 ==>
              err.None? || err == Some(OperatorStop)
    ensures forall k :: k in e.h.w.clones ==> k in old(e.h.w).clones || k == i
  {
    ghost var before := e.h.log.view.copy;
    err, pending := CloneDisk(e, j, i, deltas);
    if err.None? {
      err := Confirm(e, j, i, before);
    }
  }

  method Confirm(e: Engine, j: Job, i: nat, ghost before: Copied) returns (err: Option<Error>)
    requires e.Sound(j) && i < |e.h.plan.disks| && e.Made() && Cloned(e, before, i)
    requires e.h.log.view.copy == C.Ended(before, i).(deltas := e.h.log.view.copy.deltas)
    modifies e.h, j
    ensures C.Cloning(e, j) && j.state.phase != Unknown && e.h.log.view.copy.pending == {}
    ensures err.None? ==> Cloned(e, e.h.log.view.copy, i + 1)
    ensures err.None? || err == Some(Failure)
    ensures Same(e.h.w.clones.Keys, old(e.h.w).clones.Keys)
    ensures e.h.reliable ==> err.None?
  {
    err := VerifyClone(e, j, i);
    if err.None? {
      ClonedMore(e, before, old(e.h.log).view.copy, e.h.log.view.copy, i);
    }
  }

  method MakeDisks(e: Engine, j: Job, deltas: map<string, string>) returns (err: Option<Error>, pending: bool)
    requires e.Sound(j) && e.h.plan.live && e.Owned(e.h.w) && Cloned(e, e.h.log.view.copy, 0)
    requires j.state.phase != Unknown && e.Made()
    modifies e.h, j
    ensures C.Cloning(e, j)
    ensures old(j.stop) ==> e.h.SameClones()
    ensures pending <==> e.h.log.view.copy.pending != {}
    ensures err.None? ==> Cloned(e, e.h.log.view.copy, |e.h.plan.disks|) && j.state.phase != Unknown
    ensures err.Some? ==> C.Interrupted(err.value, e.h.log.view.copy, j.state.phase, j.stop)
    ensures pending ==> e.OnDeltas(deltas, e.h.w)
    ensures e.h.reliable && old(e.h.w).clones.Keys == {} && e.OnDeltas(deltas, old(e.h.w)) && e.o.cloneTimeout >= 1 ==>
              err.None? || err == Some(OperatorStop)
  {
    var i := 0;
    err, pending := None, false;
    while i < |e.h.plan.disks|
      invariant 0 <= i <= |e.h.plan.disks| && !pending && C.Cloning(e, j)
      invariant Cloned(e, e.h.log.view.copy, i) && j.state.phase != Unknown && err.None?
      invariant old(j.stop) ==> i == 0 && e.h.SameClones()
      invariant old(e.h.w).clones.Keys == {} ==> forall k :: k in e.h.w.clones ==> k < i
    {
      err, pending := MakeDisk(e, j, i, deltas);
      if err.Some? {
        return;
      }
      i := i + 1;
    }
  }

  /** While the VM runs on the snapshot: nothing moves but the power of the guests. */
  twostate predicate Shadowing(e: Engine, j: Job)
    reads e.h, j
  {
    && e.Sound(j) && (old(j.stop) ==> j.stop)
    && SameRegistrations(old(e.h.w), e.h.w) && SourcePower(old(e.h.w), e.h.w) && TargetPower(old(e.h.w), e.h.w)
    && SameTrees(old(e.h.w), e.h.w) && Same(e.h.w.store, old(e.h.w).store.(targetDir := e.h.w.store.targetDir))
    && e.h.SameCounts() && Same(j.state, old(j.state).(phase := j.state.phase))
  }

  /** From the snapshot to the point after which a stop is no longer honoured. */
  method Shadow(e: Engine, j: Job) returns (err: Option<Error>, pending: bool, deltas: map<string, string>)
    requires e.Sound(j) && e.h.plan.live && e.Owned(e.h.w) && e.h.w.reg.src == e.h.plan.vm &&
              Cloned(e, e.h.log.view.copy, 0)
    requires j.state.phase != Unknown && e.Made()
    modifies e.h, j
    ensures Shadowing(e, j)
    ensures pending <==> e.h.log.view.copy.pending != {}
    ensures err.None? ==> Cloned(e, e.h.log.view.copy, |e.h.plan.disks|) && j.state.phase != Unknown
    ensures err.None? ==> j.final && e.OnDeltas(deltas, e.h.w) && e.h.log.view.guard
    ensures err.Some? ==> C.Interrupted(err.value, e.h.log.view.copy, j.state.phase, j.stop) && j.final == old(j.final)
    ensures e.h.log.view.copy.pending != {} ==> e.h.w.trees.src == [e.h.plan.snapshot] && Home(e.h.w)
    ensures e.h.reliable && Ready(e, old(e.h.w)) ==> err.None? || err == Some(OperatorStop)
  {
    pending := false;
    err, deltas := Attach(e);
    if err.Some? {
      return;
    }
    err, pending := MakeDisks(e, j, deltas);
    if err.Some? {
      return;
    }
    err := Cut(e, j, deltas);
  }

  ghost predicate Ready(e: Engine, w: World)
  {
    && w.reg.src == e.h.plan.vm && w.reg.src != 0 && w.reg.dst == 0 && w.trees.src == [e.h.plan.snapshot]
    && !w.store.targetDir && w.clones.Keys == {} && e.o.cloneTimeout >= 1
  }

  method Attach(e: Engine) returns (err: Option<Error>, deltas: map<string, string>)
    requires e.h.Valid() && e.h.log.safe && e.h.log.owned && e.h.plan.live && e.Owned(e.h.w) &&
              e.h.w.reg.src == e.h.plan.vm
    modifies e.h
    ensures e.h.Valid() && e.h.log.safe && e.h.log.owned &&
              Same(e.h.log.view, old(e.h.log).view.(copy := e.h.log.view.copy)) && e.h.SameClones()
    ensures SameRegistrations(old(e.h.w), e.h.w) && SourcePower(old(e.h.w), e.h.w) && TargetPower(old(e.h.w), e.h.w)
    ensures SameTrees(old(e.h.w), e.h.w) && Same(e.h.w.store, old(e.h.w).store.(targetDir := e.h.w.store.targetDir))
    ensures Same(e.h.w.clones.Keys, old(e.h.w).clones.Keys)
    ensures err.None? || err == Some(Failure)
    ensures e.h.reliable && Ready(e, old(e.h.w)) ==> err.None? && e.OnDeltas(deltas, e.h.w)
  {
    deltas := map[];
    var found := e.LiveDeltas();
    if found.None? {
      return Some(Failure), deltas;
    }
    var ok := e.h.CreateTarget();
    err, deltas := if ok then None else Some(Failure), found.value;
  }

  method Cut(e: Engine, j: Job, deltas: map<string, string>) returns (err: Option<Error>)
    requires e.Sound(j) && j.state.phase != Unknown
    modifies e.h, j
    ensures Shadowing(e, j) && e.h.SameClones() && SameFiles(old(e.h.w), e.h.w)
    ensures err.None? ==> j.final && e.OnDeltas(deltas, e.h.w) && e.h.log.view.guard
    ensures err.Some? ==> j.final == old(j.final) && !err.value.Restored? && (err.value == OperatorStop ==> j.stop)
    ensures j.state.phase != Unknown
    ensures e.h.reliable && e.OnDeltas(deltas, old(e.h.w)) ==> err.None? || err == Some(OperatorStop)
  {
    err := e.LiveGuard(deltas);
    if err.Some? {
      return;
    }
    var ok := j.Proceed(Phase.Cutover);
    err := if ok then None else Some(OperatorStop);
  }

  // -----------------------------------------------------------------------------------------------
  // Cutover

  /** The name under which the target VMX must name the copied delta of each disk. */
  function DeltaFiles(disks: seq<Disk>, deltas: map<string, string>): (names: map<string, string>)
    ensures forall k :: k in names <==> exists d :: d in disks && d.key == k
    ensures forall k :: k in names ==> names[k] == BaseName(D.Value(deltas, k))
  {
    if disks == [] then map[]
    else
      var d := disks[|disks| - 1];
      DeltaFiles(disks[..|disks| - 1], deltas)[d.key := BaseName(D.Value(deltas, d.key))]
  }

  /** The reviewed configuration on the copied deltas. */
  function CutoverConfig(plan: Plan, deltas: map<string, string>): Config
  {
    plan.targetConfig + DeltaFiles(plan.disks, deltas)
  }

  /** Every disk of the plan is one of the target configuration. */
  predicate Planned(plan: Plan)
  {
    forall d :: d in plan.disks ==> d.key in plan.targetConfig
  }

  lemma CutoverIsReviewed(plan: Plan, deltas: map<string, string>)
    requires plan.live && Planned(plan)
    ensures plan.Reviewed(CutoverConfig(plan, deltas), Some(deltas))
    ensures CutoverConfig(plan, deltas).Keys == plan.targetConfig.Keys
  {
    forall k | k in CutoverConfig(plan, deltas)
      ensures CutoverConfig(plan, deltas)[k] ==
              if plan.DiskKey(k) then BaseName(D.Value(deltas, k)) else plan.targetConfig[k]
    {
    }
  }

  /** While the changes are copied, only files and the power of the guests move. What was copied stays so. */
  twostate predicate Copying(e: Engine)
    reads e.h
  {
    && e.h.Valid() && e.h.log.safe && e.h.log.owned && Steady(old(e.h.w), e.h.w) &&
         (e.h.reliable ==> SamePowers(old(e.h.w), e.h.w))
    && e.h.SameRest() && Same(e.h.log.view.copy, old(e.h.log).view.copy.(copies := e.h.log.view.copy.copies))
    && old(e.h.log).view.copy.copies <= e.h.log.view.copy.copies
  }

  /** The delta of the disk was copied. */
  predicate BothCopied(copies: set<DeltaFile>, i: nat)
  {
    Text(i) in copies && Data(i) in copies
  }

  /** Every file of the snapshot was copied. */
  predicate AllCopied(plan: Plan, copies: set<DeltaFile>)
  {
    && (forall i :: 0 <= i < |plan.disks| ==> BothCopied(copies, i))
    && Memory in copies && Snapshots in copies
  }

  /** Shuts the source down, unless something changed meanwhile. */
  method TakeDown(e: Engine, j: Job, deltas: map<string, string>) returns (err: Option<Error>)
    requires e.Sound(j) && j.final && e.Owned(e.h.w) && e.OnDeltas(deltas, e.h.w) && j.state.phase != Unknown
    requires e.h.log.view.guard
    modifies e.h, j
    ensures e.Lowering(j) && j.state.phase != Unknown
    ensures err.None? ==> e.OnDeltas(deltas, e.h.w) && e.h.w.srcPower == Off && e.h.log.view.guard && e.Shown(deltas)
    ensures err.Some? ==> !err.value.Restored? && err.value != OperatorStop
    ensures e.h.reliable ==> err.None?
  {
    err := e.Shutdown(j, On, Some(deltas));
    if err.Some? {
      return;
    }
    err := e.LiveGuard(deltas);
  }

  /** Copies the two files of every delta, and the snapshot's metadata. */
  method CopyDeltas(e: Engine) returns (ok: bool)
    requires e.h.Valid() && e.h.log.safe && e.h.log.owned && e.Owned(e.h.w) && MayCopy(e.h.plan, e.h.log.view, e.h.w)
    modifies e.h
    ensures Copying(e) && (ok ==> AllCopied(e.h.plan, e.h.log.view.copy.copies))
    ensures e.h.reliable ==> ok
  {
    ok := e.h.Lookup();
    if ok {
      ok := CopyEach(e);
    }
    if ok {
      ghost var before := e.h.log.view.copy.copies;
      ok := CopyTwo(e, Memory, Snapshots);
      StillCopied(before, e.h.log.view.copy.copies, |e.h.plan.disks|);
    }
  }

  lemma StillCopied(a: set<DeltaFile>, b: set<DeltaFile>, n: nat)
    requires a <= b && forall k :: 0 <= k < n ==> BothCopied(a, k)
    ensures forall k :: 0 <= k < n ==> BothCopied(b, k)
  {
    forall k | 0 <= k < n ensures BothCopied(b, k) {
      assert BothCopied(a, k);
    }
  }

  method CopyEach(e: Engine) returns (ok: bool)
    requires e.h.Valid() && e.h.log.safe && e.h.log.owned && e.Owned(e.h.w) && MayCopy(e.h.plan, e.h.log.view, e.h.w)
    modifies e.h
    ensures Copying(e)
    ensures ok ==> forall k :: 0 <= k < |e.h.plan.disks| ==> BothCopied(e.h.log.view.copy.copies, k)
    ensures e.h.reliable ==> ok
  {
    ok := true;
    var i := 0;
    while i < |e.h.plan.disks| && ok
      invariant 0 <= i <= |e.h.plan.disks| && Copying(e)
      invariant ok ==> forall k :: 0 <= k < i ==> BothCopied(e.h.log.view.copy.copies, k)
      invariant e.h.reliable ==> ok
    {
      ghost var before := e.h.log.view.copy.copies;
      ok := CopyTwo(e, Text(i), Data(i));
      StillCopied(before, e.h.log.view.copy.copies, i);
      i := i + 1;
    }
  }

  method CopyTwo(e: Engine, a: DeltaFile, b: DeltaFile) returns (ok: bool)
    requires e.h.Valid() && e.h.log.safe && e.h.log.owned && e.Owned(e.h.w) && MayCopy(e.h.plan, e.h.log.view, e.h.w)
    modifies e.h
    ensures Copying(e) && (ok ==> a in e.h.log.view.copy.copies && b in e.h.log.view.copy.copies)
    ensures e.h.reliable ==> ok
  {
    ok := e.h.CopyToTarget(a);
    if ok {
      ok := e.h.CopyToTarget(b);
    }
  }

  /** The copied delta of a disk is the original, and its chain is consistent. */
  predicate DeltaVerified(v: Copied, i: nat)
  {
    i in v.zero && BothCopied(v.copies, i) ==>
      (DeltaText, i) in v.again && (DeltaChain, i) in v.again && (DeltaSize, i) in v.again
  }

  method VerifyDelta(e: Engine, i: nat) returns (ok: bool)
    requires e.h.Valid()
    modifies e.h
    ensures e.Checking()
    ensures ok ==> DeltaVerified(e.h.log.view.copy, i)
    ensures e.h.reliable ==> ok
  {
    ok := VerifyDeltaText(e, i);
    if ok {
      ok := e.h.CompareDelta(i, DeltaSize);
    }
  }

  method VerifyDeltaText(e: Engine, i: nat) returns (ok: bool)
    requires e.h.Valid()
    modifies e.h
    ensures e.Checking()
    ensures ok && i in e.h.log.view.copy.zero && BothCopied(e.h.log.view.copy.copies, i) ==>
              (DeltaText, i) in e.h.log.view.copy.again && (DeltaChain, i) in e.h.log.view.copy.again
    ensures e.h.reliable ==> ok
  {
    ok := e.h.CompareDelta(i, DeltaText);
    if ok {
      ok := e.h.VerifyChain(i, true);
    }
  }

  method VerifyBoth(e: Engine, i: nat) returns (ok: bool)
    requires e.h.Valid() && i < |e.h.plan.disks| && e.Made()
    modifies e.h
    ensures e.Checking()
    ensures ok ==> e.VerifiedAgain(e.h.log.view.copy, i) && DeltaVerified(e.h.log.view.copy, i)
    ensures e.h.reliable ==> ok
  {
    ok := e.VerifyDisk(i);
    if ok {
      ok := VerifyDelta(e, i);
    }
  }

  lemma BothStay(e: Engine, a: Copied, b: Copied, n: nat)
    requires a.zero == b.zero && a.again <= b.again && a.copies == b.copies
    requires forall i :: 0 <= i < n ==> e.VerifiedAgain(a, i) && DeltaVerified(a, i)
    ensures forall i :: 0 <= i < n ==> e.VerifiedAgain(b, i) && DeltaVerified(b, i)
  {
    forall i | 0 <= i < n ensures e.VerifiedAgain(b, i) && DeltaVerified(b, i) {
      assert e.VerifiedAgain(a, i) && DeltaVerified(a, i);
    }
  }

  method VerifyAll(e: Engine) returns (ok: bool)
    requires e.h.Valid() && e.Made()
    modifies e.h
    ensures e.Checking()
    ensures ok ==> forall i :: 0 <= i < |e.h.plan.disks| ==>
              e.VerifiedAgain(e.h.log.view.copy, i) && DeltaVerified(e.h.log.view.copy, i)
    ensures e.h.reliable ==> ok
  {
    var i := 0;
    ok := true;
    while i < |e.h.plan.disks| && ok
      invariant 0 <= i <= |e.h.plan.disks| && e.Checking()
      invariant ok ==> forall k :: 0 <= k < i ==>
                  e.VerifiedAgain(e.h.log.view.copy, k) && DeltaVerified(e.h.log.view.copy, k)
      invariant e.h.reliable ==> ok
    {
      ghost var before := e.h.log.view.copy;
      ok := VerifyBoth(e, i);
      BothStay(e, before, e.h.log.view.copy, i);
      i := i + 1;
    }
  }

  lemma AllVerified(e: Engine, v: Copied, w: Copied, deltas: map<string, string>)
    requires e.h.plan.live && Planned(e.h.plan) && Cloned(e, v, |e.h.plan.disks|) && v.deltas == Some(deltas)
    requires AllCopied(e.h.plan, v.copies)
    requires w == v.(config := w.config, passed := w.passed, again := w.again, meta := true) && v.passed <= w.passed
    requires w.config == Some(CutoverConfig(e.h.plan, deltas))
    requires forall i :: 0 <= i < |e.h.plan.disks| ==> e.VerifiedAgain(w, i) && DeltaVerified(w, i)
    ensures TargetVerified(e.h.plan, w)
  {
    CutoverIsReviewed(e.h.plan, deltas);
    forall i | 0 <= i < |e.h.plan.disks| ensures DiskVerified(e.h.plan, w, i) {
      assert e.VerifiedAgain(w, i) && DeltaVerified(w, i) && BothCopied(v.copies, i);
      assert i in v.zero && (Cid, i) in v.passed;
    }
  }

  /** What the last steps before the switch leave alone. */
  twostate predicate Writing(e: Engine)
    reads e.h
  {
    && e.h.Valid() && (old(e.h.log).safe ==> e.h.log.safe)
    && (old(e.h.log).owned && e.Owned(old(e.h.w)) ==> e.h.log.owned)
    && SameRegistrations(old(e.h.w), e.h.w) && SourcePower(old(e.h.w), e.h.w) && TargetPower(old(e.h.w), e.h.w)
    && (e.h.reliable ==> SamePowers(old(e.h.w), e.h.w))
    && Same(e.h.w.trees, old(e.h.w).trees.(dstVmx := e.h.w.trees.dstVmx))
    && Same(e.h.w.store, old(e.h.w).store.(files := e.h.w.store.files)) &&
         Same(e.h.w.clones.Keys, old(e.h.w).clones.Keys)
    && Same(e.h.log.view, old(e.h.log).view.(copy := e.h.log.view.copy, guard := e.h.log.view.guard))
    && Same(e.h.log.view.copy.(config := None, passed := {}, again := {}, meta := false),
            old(e.h.log).view.copy.(config := None, passed := {}, again := {}, meta := false))
    && old(e.h.log).view.copy.passed <= e.h.log.view.copy.passed
  }

  method CheckAll(e: Engine) returns (ok: bool)
    requires e.h.Valid() && e.Made()
    modifies e.h
    ensures e.h.Valid() && e.h.Still() && e.h.SameRest() && old(e.h.log).view.copy.passed <= e.h.log.view.copy.passed
    ensures Same(e.h.log.view.copy,
                 old(e.h.log).view.copy.(passed := e.h.log.view.copy.passed, again := e.h.log.view.copy.again,
                     meta := e.h.log.view.copy.meta))
    ensures ok && AllCopied(e.h.plan, old(e.h.log).view.copy.copies) ==> e.h.log.view.copy.meta
    ensures ok ==> forall i :: 0 <= i < |e.h.plan.disks| ==>
              e.VerifiedAgain(e.h.log.view.copy, i) && DeltaVerified(e.h.log.view.copy, i)
    ensures e.h.reliable ==> ok
  {
    ok := VerifyAll(e);
    if ok {
      ghost var before := e.h.log.view.copy;
      ok := e.h.CompareMeta();
      BothStay(e, before, e.h.log.view.copy, |e.h.plan.disks|);
    }
  }

  method WriteAndCheck(e: Engine, config: Config, names: map<string, string>) returns (ok: bool)
    requires e.h.Valid() && e.LegalKeys(config) && e.Made()
    modifies e.h
    ensures Writing(e)
    ensures ok && AllCopied(e.h.plan, old(e.h.log).view.copy.copies) ==> e.h.log.view.copy.meta
    ensures ok ==> e.h.log.view.copy.config == Some(config) && e.FilesCopied()
    ensures ok ==> forall i :: 0 <= i < |e.h.plan.disks| ==>
              e.VerifiedAgain(e.h.log.view.copy, i) && DeltaVerified(e.h.log.view.copy, i)
    ensures e.h.reliable && e.Clear(old(e.h.w).store.files, 0) && Legal(config) && Fits(config) &&
            Acceptable(e.h.plan, config, names)
            ==> ok
  {
    ok := e.CopyConfig(config, names);
    if ok {
      ok := CheckAll(e);
    }
  }

  /** Writes the target's configuration on the copied deltas and verifies everything the target is made of. */
  method VerifyTarget(e: Engine, deltas: map<string, string>) returns (ok: bool)
    requires e.h.Valid() && e.h.plan.live && Planned(e.h.plan) && e.LegalKeys(e.h.plan.targetConfig) && e.Made()
    requires Cloned(e, e.h.log.view.copy, |e.h.plan.disks|) && e.h.log.view.copy.deltas == Some(deltas)
    requires AllCopied(e.h.plan, e.h.log.view.copy.copies)
    modifies e.h
    ensures Writing(e)
    ensures ok ==> TargetVerified(e.h.plan, e.h.log.view.copy) && OnCopies(e, deltas)
    ensures e.h.reliable && e.Clear(old(e.h.w).store.files, 0) && Printable(e.h.plan, deltas) ==> ok
  {
    CutoverIsReviewed(e.h.plan, deltas);
    ok := WriteAndCheck(e, CutoverConfig(e.h.plan, deltas), DeltaFiles(e.h.plan.disks, deltas));
    if ok {
      AllVerified(e, old(e.h.log).view.copy, e.h.log.view.copy, deltas);
    }
  }

  ghost predicate Printable(plan: Plan, deltas: map<string, string>)
  {
    var c := CutoverConfig(plan, deltas);
    Legal(c) && Fits(c) && Acceptable(plan, c, DeltaFiles(plan.disks, deltas))
  }

  /** The target VMX was last read as the reviewed one on the copied deltas, and the files it needs are there. */
  ghost predicate OnCopies(e: Engine, deltas: map<string, string>)
    reads e.h
  {
    && e.h.log.view.copy.config == Some(CutoverConfig(e.h.plan, deltas)) && e.h.log.view.copy.deltas == Some(deltas)
    && e.FilesCopied()
  }

  /** What the cutover leaves alone. */
  twostate predicate CuttingOver(e: Engine, j: Job)
    reads e.h, j
  {
    && e.Sound(j) && j.final == old(j.final) && (old(j.stop) ==> j.stop)
    && SameRegistrations(old(e.h.w), e.h.w) && Lowers(old(e.h.w).srcPower, e.h.w.srcPower) &&
         TargetPower(old(e.h.w), e.h.w)
    && Same(e.h.w.trees, old(e.h.w).trees.(dstVmx := e.h.w.trees.dstVmx))
    && Same(e.h.w.store, old(e.h.w).store.(files := e.h.w.store.files)) && e.h.SameCounts()
    && e.h.log.view.copy.pending == old(e.h.log).view.copy.pending
    && Same(j.state, old(j.state).(phase := j.state.phase, targetVerified := j.state.targetVerified))
  }

  /** Brings the target up to the moment the source was shut down, and verifies it as a whole. */
  method Cutover(e: Engine, j: Job, deltas: map<string, string>) returns (err: Option<Error>)
    requires e.Sound(j) && j.final && e.h.plan.live && Planned(e.h.plan) && e.LegalKeys(e.h.plan.targetConfig) &&
              e.Made()
    requires e.Owned(e.h.w) && e.OnDeltas(deltas, e.h.w) && Cloned(e, e.h.log.view.copy, |e.h.plan.disks|) &&
              j.state.phase != Unknown
    requires e.h.log.view.guard
    modifies e.h, j
    ensures CuttingOver(e, j) && j.state.phase != Unknown
    ensures err.None? ==> TargetVerified(e.h.plan, e.h.log.view.copy) && j.state.targetVerified && e.h.w.srcPower == Off
    ensures err.None? ==> OnCopies(e, deltas) && e.OnDeltas(deltas, e.h.w) && e.Shown(deltas)
    ensures err.Some? ==> !err.value.Restored? && err.value != OperatorStop
    ensures e.h.reliable && e.Clear(old(e.h.w).store.files, 0) && Printable(e.h.plan, deltas) ==> err.None?
  {
    err := TakeDown(e, j, deltas);
    if err.Some? {
      return;
    }
    var ok := FillTarget(e, j, deltas);
    err := if ok then None else Some(Failure);
  }

  method FillTarget(e: Engine, j: Job, deltas: map<string, string>) returns (ok: bool)
    requires e.Sound(j) && e.h.plan.live && Planned(e.h.plan) && e.LegalKeys(e.h.plan.targetConfig) && e.Made()
    requires e.Owned(e.h.w) && e.h.w.trees.src == [e.h.plan.snapshot] && e.h.w.srcPower == Off
    requires Cloned(e, e.h.log.view.copy, |e.h.plan.disks|)
    requires e.h.log.view.guard && e.Shown(deltas)
    modifies e.h, j
    ensures CuttingOver(e, j) && j.state.phase != Unknown
    ensures ok ==>
              TargetVerified(e.h.plan, e.h.log.view.copy) && OnCopies(e, deltas) && e.Shown(deltas) &&
              j.state.targetVerified
    ensures e.h.reliable && e.Clear(old(e.h.w).store.files, 0) && Printable(e.h.plan, deltas) ==> ok
  {
    ok := BringOver(e, j);
    if ok {
      ok := Configure(e, j, deltas);
    }
  }

  method BringOver(e: Engine, j: Job) returns (ok: bool)
    requires e.Sound(j) && e.h.plan.live && e.Owned(e.h.w) && e.h.w.trees.src == [e.h.plan.snapshot]
    requires e.h.w.srcPower == Off && Cloned(e, e.h.log.view.copy, |e.h.plan.disks|) && e.h.log.view.guard
    modifies e.h, j
    ensures Copying(e) && e.Sound(j) && j.final == old(j.final) && (old(j.stop) ==> j.stop)
    ensures Same(j.state, old(j.state).(phase := j.state.phase)) && j.state.phase != Unknown
    ensures Cloned(e, e.h.log.view.copy, |e.h.plan.disks|)
    ensures ok ==> AllCopied(e.h.plan, e.h.log.view.copy.copies)
    ensures e.h.reliable ==> ok
  {
    j.SetPhase(Phase.Cutover);
    ok := CopyDeltas(e);
    StillCloned(e, old(e.h.log).view.copy, e.h.log.view.copy, |e.h.plan.disks|);
    if ok {
      j.SetPhase(VerifyingConfig);
    }
  }

  method Configure(e: Engine, j: Job, deltas: map<string, string>) returns (ok: bool)
    requires e.Sound(j) && e.h.plan.live && Planned(e.h.plan) && e.LegalKeys(e.h.plan.targetConfig) && e.Made()
    requires e.Owned(e.h.w) && Cloned(e, e.h.log.view.copy, |e.h.plan.disks|)
    requires AllCopied(e.h.plan, e.h.log.view.copy.copies) && e.h.log.view.copy.deltas == Some(deltas)
    modifies e.h, j
    ensures Writing(e) && e.Sound(j) && j.final == old(j.final) && (old(j.stop) ==> j.stop)
    ensures Same(j.state, old(j.state).(targetVerified := j.state.targetVerified)) && (ok ==> j.state.targetVerified)
    ensures ok ==> TargetVerified(e.h.plan, e.h.log.view.copy) && OnCopies(e, deltas)
    ensures e.h.reliable && e.Clear(old(e.h.w).store.files, 0) && Printable(e.h.plan, deltas) ==> ok
  {
    ok := VerifyTarget(e, deltas);
    if ok {
      Confirmed(j);
    }
  }

  method Confirmed(j: Job)
    requires j.Valid()
    modifies j`state, j`stop, j`actions, j`approved
    ensures j.Valid() && (old(j.stop) ==> j.stop) && Same(j.state, old(j.state).(targetVerified := true))
  {
    j.Update(j.state.(targetVerified := true));
  }

  // -----------------------------------------------------------------------------------------------
  // A live COPY

  /** Registers the copy for the merge only; it stays off. */
  method Lend(e: Engine) returns (dst: nat)
    requires e.h.Valid() && e.h.log.safe && e.h.log.owned && e.Owned(e.h.w) && e.h.plan.live && !e.h.plan.move
    requires TargetVerified(e.h.plan, e.h.log.view.copy) && e.h.w.reg == Registry(e.h.plan.vm, 0) &&
              e.h.w.srcPower == Off
    requires Listed(e)
    modifies e.h
    ensures e.h.Valid() && e.h.log.safe && e.h.log.owned && e.h.SameCopy() && SameFiles(old(e.h.w), e.h.w)
    ensures SourcePower(old(e.h.w), e.h.w) && Same(e.h.w.clones.Keys, old(e.h.w).clones.Keys)
    ensures e.h.w.reg.src == old(e.h.w).reg.src && Same(e.h.w.trees, old(e.h.w).trees.(dst := e.h.w.trees.dst))
    ensures dst != 0 ==> Id(e.h.w, Target, dst) && SeenOff(e.h.log.view, dst, e.h.w) && Listed(e)
    ensures e.h.w.reg.dst != 0 ==> e.h.w.dstPower == Off
    ensures e.h.reliable ==> dst != 0 && e.h.w.trees.dst == [e.h.plan.snapshot]
  {
    var id := e.h.Register(Target);
    var r := e.Registrations();
    if r.None? || r.value.1 == 0 || r.value.0 != e.h.plan.vm || (id != 0 && r.value.1 != id) {
      return 0;
    }
    var err := e.RequireOff(r.value.1);
    dst := if err.None? then r.value.1 else 0;
  }

  method MergeOne(e: Engine, side: Side, id: nat) returns (ok: bool)
    requires e.h.Valid() && e.h.log.safe && e.h.plan.live && e.h.log.view.copy.pending == {} && Mergeable(e, side, id)
    modifies e.h
    ensures Merging(e)
    ensures if side.Source?
              then Same(e.h.w.trees, old(e.h.w).trees.(src := e.h.w.trees.src, srcVmx := e.h.w.trees.srcVmx))
            else Same(e.h.w.trees, old(e.h.w).trees.(dst := e.h.w.trees.dst, dstVmx := e.h.w.trees.dstVmx))
    ensures ok ==> IsMerged(e, e.h.w, side)
    ensures e.h.reliable && Tree(old(e.h.w), side) == [e.h.plan.snapshot] ==> ok
  {
    ok := Consolidate(e, side, id);
    if ok {
      ok := Merged(e, side, id);
    }
  }

  /** Takes the merged copy out of the inventory again. */
  method TakeBack(e: Engine, dst: nat) returns (ok: bool)
    requires e.h.Valid() && e.h.log.safe && e.h.log.owned && e.Owned(e.h.w) && e.h.log.view.copy.pending == {} &&
              Id(e.h.w, Target, dst)
    requires Listed(e) && SeenOff(e.h.log.view, dst, e.h.w)
    modifies e.h
    ensures e.h.Valid() && e.h.log.safe && e.h.log.owned && e.h.SameCopy() && SameFiles(old(e.h.w), e.h.w)
    ensures SourcePower(old(e.h.w), e.h.w) && TargetPower(old(e.h.w), e.h.w) &&
              Same(e.h.w.clones.Keys, old(e.h.w).clones.Keys)
    ensures e.h.w.reg.src == old(e.h.w).reg.src && SameTrees(old(e.h.w), e.h.w)
    ensures ok ==> e.h.w.reg.dst == 0
    ensures e.h.reliable ==> ok
  {
    var _ := e.h.Unregister(dst);
    var r := e.Registrations();
    ok := r.Some? && r.value.1 == 0;
  }

  /** Leaves a live COPY like a cold one: the copy merged and unregistered, the source merged. */
  method MergeCopy(e: Engine, j: Job) returns (ok: bool)
    requires e.Sound(j) && e.Owned(e.h.w) && e.h.plan.live && !e.h.plan.move
    requires TargetVerified(e.h.plan, e.h.log.view.copy) && e.h.w.reg == Registry(e.h.plan.vm, 0) && e.h.plan.vm != 0
    requires e.h.w.srcPower == Off && Listed(e)
    modifies e.h, j
    ensures e.Sound(j) && j.final == old(j.final) && (old(j.stop) ==> j.stop) && e.h.SameCopy()
    ensures e.h.w.reg.src == e.h.plan.vm && SourcePower(old(e.h.w), e.h.w) && SameFiles(old(e.h.w), e.h.w)
    ensures Same(j.state, old(j.state).(phase := Consolidating))
    ensures ok ==> e.h.w.reg.dst == 0 && IsMerged(e, e.h.w, Source) && IsMerged(e, e.h.w, Target)
    ensures e.h.reliable && old(e.h.w).trees.src == [e.h.plan.snapshot] ==> ok
  {
    j.SetPhase(Consolidating);
    ok := MergeTarget(e);
    if ok {
      ok := MergeOne(e, Source, e.h.plan.vm);
    }
  }

  method MergeTarget(e: Engine) returns (ok: bool)
    requires e.h.Valid() && e.h.log.safe && e.h.log.owned && e.Owned(e.h.w) && e.h.plan.live && !e.h.plan.move
    requires TargetVerified(e.h.plan, e.h.log.view.copy) && e.h.w.reg == Registry(e.h.plan.vm, 0) && e.h.plan.vm != 0
    requires e.h.w.srcPower == Off && Listed(e)
    modifies e.h
    ensures e.h.Valid() && e.h.log.safe && e.h.log.owned && e.h.SameCopy() && SameFiles(old(e.h.w), e.h.w)
    ensures SourcePower(old(e.h.w), e.h.w) && Same(e.h.w.clones.Keys, old(e.h.w).clones.Keys)
    ensures e.h.w.reg.src == old(e.h.w).reg.src
    ensures Same(e.h.w.trees, old(e.h.w).trees.(dst := e.h.w.trees.dst, dstVmx := e.h.w.trees.dstVmx))
    ensures ok ==> e.h.w.reg.dst == 0 && IsMerged(e, e.h.w, Target)
    ensures e.h.reliable ==> ok
  {
    var dst := Lend(e);
    if dst == 0 {
      return false;
    }
    ok := MergeOne(e, Target, dst);
    if ok {
      ok := TakeBack(e, dst);
    }
  }

  // -----------------------------------------------------------------------------------------------
  // A live MOVE

  /** Merging the snapshot on the target is housekeeping: what comes of it decides nothing. */
  method Tidy(e: Engine, j: Job)
    requires e.Sound(j) && e.Owned(e.h.w) && e.h.plan.live && e.h.log.view.copy.pending == {} && e.TargetOnly(e.h.w)
    requires j.state.targetId == e.h.w.reg.dst && e.h.plan.move
    modifies e.h, j
    ensures e.Sound(j) && j.final == old(j.final) && (old(j.stop) ==> j.stop) && e.h.SameCopy() && e.h.SameCounts()
    ensures e.TargetOnly(e.h.w) && SameRegistrations(old(e.h.w), e.h.w) && SameFiles(old(e.h.w), e.h.w)
    ensures e.h.w.trees.src == old(e.h.w).trees.src
    ensures Same(j.state, old(j.state).(phase := Consolidating))
    ensures e.h.reliable && old(e.h.w).trees.dst == [e.h.plan.snapshot] ==> IsMerged(e, e.h.w, Target)
  {
    j.SetPhase(Consolidating);
    var _ := MergeOne(e, Target, j.state.targetId);
  }

  /** The switch; once it succeeded, a failure is not undone. */
  method Move(e: Engine, j: Job) returns (ok: bool, committed: bool)
    requires e.Sound(j) && e.Owned(e.h.w) && e.h.plan.live && e.h.plan.move &&
              TargetVerified(e.h.plan, e.h.log.view.copy)
    requires j.state.target != Registered && !j.state.canRollback && j.state.phase != Unknown
    modifies e.h, j
    ensures e.Sound(j) && e.Owned(e.h.w) && j.final == old(j.final) && (old(j.stop) ==> j.stop) && e.h.SameCopy() &&
              SameFiles(old(e.h.w), e.h.w)
    ensures old(Truthful(j.state, e.h.w)) ||
            e.h.log.view.counts.registration > old(e.h.log).view.counts.registration
            ==> Truthful(j.state, e.h.w)
    ensures ok ==> committed
    ensures e.h.w.trees.src == old(e.h.w).trees.src
    ensures committed ==> e.TargetOnly(e.h.w) && j.state.source == NotRegistered && j.state.target == Registered
    ensures C.Consistent(e, j.state, e.h.w) && j.state.phase != Unknown && j.state.complete == old(j.state).complete
    ensures e.h.reliable && old(j.state).targetVerified && e.SourceOnly(old(e.h.w)) &&
            old(e.h.w).reg.src == e.h.plan.vm && e.o.powerOnTimeout >= 1
            ==> ok
  {
    ok := e.Commit(j);
    committed := ok;
    if !ok {
      return;
    }
    if e.h.plan.powerOn {
      ok := e.PowerOn(j);
    }
    if ok {
      Tidy(e, j);
    }
  }

  // -----------------------------------------------------------------------------------------------
  // The whole migration

  /** The target alone is registered; the source keeps the job's snapshot. */
  ghost predicate Moved(e: Engine, w: World)
  {
    e.TargetOnly(w) && w.trees.src == [e.h.plan.snapshot]
  }

  /** What a completed live migration leaves. */
  ghost predicate Delivered(e: Engine, w: World)
  {
    if e.h.plan.move then Moved(e, w)
    else w.reg == Registry(e.h.plan.vm, 0) && w.srcPower == Off && IsMerged(e, w, Source) && IsMerged(e, w, Target)
  }

  /** What a failure leaves: without an unobserved clone and before the switch, everything a recovery needs. */
  ghost predicate Failed(e: Engine, j: Job, err: Error, pending: bool, committed: bool)
    reads e.h, j
  {
    && C.Interrupted(err, e.h.log.view.copy, j.state.phase, j.stop) && !j.state.complete
    && (pending <==> e.h.log.view.copy.pending != {})
    && (pending ==> e.Owned(e.h.w) && e.h.w.trees.src == [e.h.plan.snapshot])
    && (!pending && !committed ==> Recoverable(e, e.h.w))
    && (committed ==> !pending && Moved(e, e.h.w))
    && (pending || committed ==> Truthful(j.state, e.h.w))
    && e.Backed(j.state, e.h.w)
    && (j.state.canRollback ==> j.final && !pending)
  }

  /** From the point at which the target is verified to the end. */
  method Deliver(e: Engine, j: Job) returns (err: Option<Error>, committed: bool)
    requires e.Sound(j) && e.Owned(e.h.w) && e.h.plan.live && TargetVerified(e.h.plan, e.h.log.view.copy) && j.final
    requires e.h.w.reg == Registry(e.h.plan.vm, 0) && e.h.plan.vm != 0 && e.h.w.srcPower == Off && Listed(e) &&
              e.FilesCopied()
    requires e.h.w.trees.src == [e.h.plan.snapshot]
    requires j.state == NEW.(phase := j.state.phase, targetVerified := true) && j.state.phase != Unknown
    modifies e.h, j
    ensures e.Sound(j) && j.final && e.h.log.view.copy.pending == {}
    ensures err.None? ==> j.state.phase == Completed && j.state.complete && !j.state.canRollback
    ensures err.None? ==> TargetVerified(e.h.plan, e.h.log.view.copy) && Delivered(e, e.h.w) && e.h.w.store.lock == Free
    ensures err.None? ==> e.FilesCopied() && committed == e.h.plan.move
    ensures err.None? ==> Truthful(j.state, e.h.w)
    ensures err.Some? ==> err.value == Failure && Failed(e, j, err.value, false, committed)
    ensures e.h.reliable && e.o.powerOnTimeout >= 1 ==> err.None?
  {
    committed := false;
    var ok: bool;
    if e.h.plan.move {
      ok, committed := Move(e, j);
    } else {
      ok := MergeCopy(e, j);
    }
    if !ok {
      return Some(Failure), committed;
    }
    err := Complete(e, j, committed);
  }

  method Complete(e: Engine, j: Job, committed: bool) returns (err: Option<Error>)
    requires e.Sound(j) && e.Owned(e.h.w) && e.h.plan.live && TargetVerified(e.h.plan, e.h.log.view.copy) && j.final
    requires Delivered(e, e.h.w) && committed == e.h.plan.move && Truthful(j.state, e.h.w) && j.state.phase != Unknown
    requires !j.state.complete && e.h.plan.vm != 0 && e.FilesCopied()
    modifies e.h, j
    ensures e.Sound(j) && j.final && e.h.log.view.copy.pending == {}
    ensures err.None? ==> j.state.phase == Completed && j.state.complete && !j.state.canRollback
    ensures err.None? ==> TargetVerified(e.h.plan, e.h.log.view.copy) && Delivered(e, e.h.w) && e.h.w.store.lock == Free
    ensures err.None? ==> e.FilesCopied() && committed == e.h.plan.move
    ensures err.None? ==> Truthful(j.state, e.h.w)
    ensures err.Some? ==> err.value == Failure && Failed(e, j, err.value, false, committed)
    ensures e.h.reliable ==> err.None?
  {
    var ok := e.Finish();
    if !ok {
      return Some(Failure);
    }
    j.Update(j.state.(phase := Completed, complete := true, canRollback := false));
    return None;
  }

  /** Everything after the snapshot. Until the switch it can all be undone. */
  method Work(e: Engine, j: Job) returns (err: Option<Error>, pending: bool, committed: bool)
    requires e.Sound(j) && e.Owned(e.h.w) && e.h.plan.live && Planned(e.h.plan) && e.LegalKeys(e.h.plan.targetConfig) &&
              e.Made()
    requires e.h.w.reg.src == e.h.plan.vm && e.h.plan.vm != 0 && Cloned(e, e.h.log.view.copy, 0)
    requires j.state == NEW.(phase := j.state.phase) && j.state.phase != Unknown && !j.final
    modifies e.h, j
    ensures e.Sound(j)
    ensures err.None? ==> j.state.phase == Completed && j.state.complete && !j.state.canRollback && j.final
    ensures err.None? ==> e.h.log.view.copy.pending == {}
    ensures err.None? ==> TargetVerified(e.h.plan, e.h.log.view.copy) && Delivered(e, e.h.w) && e.h.w.store.lock == Free
    ensures err.None? ==> e.FilesCopied() && committed == e.h.plan.move
    ensures err.None? ==> Truthful(j.state, e.h.w)
    ensures err.Some? ==> Failed(e, j, err.value, pending, committed)
    ensures j.final || (SameRegistrations(old(e.h.w), e.h.w) && SameTrees(old(e.h.w), e.h.w) &&
              SameLock(old(e.h.w), e.h.w) && e.h.SameCounts())
    ensures e.h.reliable && Sufficient(e, old(e.h.w)) ==> err.None? || (err == Some(OperatorStop) && !j.final)
  {
    committed := false;
    var deltas: map<string, string>;
    err, pending, deltas := Shadow(e, j);
    if err.Some? {
      return;
    }
    err, committed := Land(e, j, deltas);
  }

  ghost predicate SameLock(a: World, b: World)
  {
    a.store.lock == b.store.lock
  }

  /** Where a reliable host lets the rest of the migration succeed. */
  ghost predicate Sufficient(e: Engine, w: World)
  {
    Ready(e, w) && Reachable(e, w)
  }

  ghost predicate Reachable(e: Engine, w: World)
  {
    && e.Clear(w.store.files, 0) && Printable(e.h.plan, DeltaNames(e.h.plan, w.trees.srcVmx))
    && e.o.powerOnTimeout >= 1
  }

  /** The part after the point of no return. */
  method Land(e: Engine, j: Job, deltas: map<string, string>) returns (err: Option<Error>, committed: bool)
    requires e.Sound(j) && e.Owned(e.h.w) && e.h.plan.live && Planned(e.h.plan) && e.LegalKeys(e.h.plan.targetConfig) &&
              e.Made()
    requires e.OnDeltas(deltas, e.h.w) && Cloned(e, e.h.log.view.copy, |e.h.plan.disks|) && j.final
    requires j.state == NEW.(phase := j.state.phase) && j.state.phase != Unknown
    requires e.h.log.view.guard
    modifies e.h, j
    ensures e.Sound(j) && j.final && e.h.log.view.copy.pending == {}
    ensures err.None? ==> j.state.phase == Completed && j.state.complete && !j.state.canRollback
    ensures err.None? ==> TargetVerified(e.h.plan, e.h.log.view.copy) && Delivered(e, e.h.w) && e.h.w.store.lock == Free
    ensures err.None? ==> e.FilesCopied() && committed == e.h.plan.move
    ensures err.None? ==> Truthful(j.state, e.h.w)
    ensures err.Some? ==> Failed(e, j, err.value, false, committed)
    ensures e.h.reliable && Reachable(e, old(e.h.w)) ==> err.None?
  {
    committed := false;
    err := Cutover(e, j, deltas);
    if err.None? {
      err, committed := Deliver(e, j);
    }
  }

  /** Where a reliable host lets the migration succeed. */
  ghost predicate Favourable(e: Engine, w: World)
  {
    && e.h.plan.ready && e.h.Unchanged(false, false, w) && w.reg.dst == 0 && w.srcPower == On && w.clones.Keys == {}
    && e.Clear(w.store.files, 0) && Printable(e.h.plan, DeltaNames(e.h.plan, e.h.shadow))
    && e.o.cloneTimeout >= 1 && e.o.powerOnTimeout >= 1
  }

  /** The preflight, the lock and the snapshot, which may exist whatever the reply. */
  method Begin(e: Engine, j: Job) returns (started: bool, ok: bool)
    requires e.Sound(j) && e.h.plan.live && e.h.log.view == NOTHING_SEEN && j.state.phase != Unknown
    modifies e.h, j
    ensures e.Sound(j) && j.final == old(j.final) && SameRegistrations(old(e.h.w), e.h.w)
    ensures Same(e.h.log.view, old(e.h.log).view.(guard := e.h.log.view.guard, counts := e.h.log.view.counts)) &&
              e.h.OnlyLocks()
    ensures Same(j.state, old(j.state).(phase := j.state.phase)) && j.state.phase != Unknown
    ensures started ==> e.Owned(e.h.w) && e.h.w.reg.src == e.h.plan.vm && e.h.plan.vm != 0 && e.h.w.reg.dst == 0
    ensures e.h.reliable && Favourable(e, old(e.h.w)) ==> started && ok && Sufficient(e, e.h.w)
  {
    started, ok := false, false;
    if !e.h.plan.ready {
      return;
    }
    var p := C.Lock(e, j);
    if p.None? {
      return;
    }
    started := true;
    ok := TakeSnapshot(e, j);
  }

  method TakeSnapshot(e: Engine, j: Job) returns (ok: bool)
    requires e.Sound(j) && e.h.plan.live && e.Owned(e.h.w) && e.h.log.view.guard && e.h.log.view.copy.launched == {}
    requires e.h.w.reg.src == e.h.plan.vm && e.h.w.trees.src == []
    modifies e.h, j
    ensures e.Sound(j) && j.final == old(j.final) && Same(e.h.log.view, old(e.h.log).view.(guard := false))
    ensures SameRegistrations(old(e.h.w), e.h.w) && SameFiles(old(e.h.w), e.h.w) &&
              Same(e.h.w.clones.Keys, old(e.h.w).clones.Keys)
    ensures j.state == old(j.state).(phase := Snapshotting)
    ensures e.h.reliable ==> ok && e.h.w.trees.src == [e.h.plan.snapshot] && e.h.w.trees.srcVmx == e.h.shadow
  {
    j.SetPhase(Snapshotting);
    ok := e.h.CreateSnapshot(e.h.plan.vm, e.h.plan.snapshot);
  }

  /** The deferred recovery: with an unobserved clone nothing is touched, else the source is restored. */
  method Recover(e: Engine, j: Job, cause: Error, pending: bool) returns (err: Error)
    requires e.Sound(j) && e.h.plan.live && Failed(e, j, cause, pending, false)
    modifies e.h, j
    ensures e.Sound(j) && j.final == old(j.final) && e.h.SameCopy() && (old(j.stop) ==> j.stop)
    ensures Home(old(e.h.w)) ==> e.h.OnlyLocks()
    ensures pending ==>
              Same(e.h.w, old(e.h.w)) && Same(j.state, old(j.state)) && j.state.phase == Unknown && !err.Restored?
    ensures !pending ==> j.state.phase == Phase.Restoring
    ensures err.Restored? ==> AsFound(e, e.h.w) && Truthful(j.state, e.h.w) && !pending
    ensures e.Backed(j.state, e.h.w) && (j.state.canRollback ==> !pending) && !j.state.complete
    ensures e.h.reliable && !pending && e.Owned(old(e.h.w)) && Home(old(e.h.w)) && Restorable(e, old(e.h.w)) ==>
              err.Restored?
  {
    if pending {
      return Failure;
    }
    j.SetPhase(Phase.Restoring);
    var ok := RestoreSource(e, j);
    err := if ok then Restored(cause) else Failure;
  }

  /** The target alone is registered, what is published about that is true, and the source keeps the job's snapshot. */
  ghost predicate AtTarget(e: Engine, j: Job)
    reads e.h, j
  {
    Moved(e, e.h.w) && Truthful(j.state, e.h.w) && e.h.log.view.copy.pending == {}
  }

  /** What `live` leaves behind, with and without an error. After a successful switch nothing is undone. */
  ghost predicate Outcome(e: Engine, j: Job, err: Option<Error>, switched: bool)
    reads e.h, j
  {
    && (e.h.log.view.copy.pending != {} ==>
          err.Some? && e.Owned(e.h.w) && e.h.w.trees.src == [e.h.plan.snapshot] && Truthful(j.state, e.h.w))
    && (switched ==> AtTarget(e, j))
    && (j.state.canRollback ==> err.Some? && e.h.log.view.copy.pending == {} && e.Backed(j.state, e.h.w))
    && (err.Some? ==> (j.state.phase == Unknown <==> e.h.log.view.copy.pending != {}) && !j.state.complete)
    && (err.Some? && err.value.Restored? ==>
         AsFound(e, e.h.w) && Truthful(j.state, e.h.w) && e.h.log.view.copy.pending == {})
    && (err.None? ==> switched == e.h.plan.move && e.FilesCopied())
    && (err.None? ==>
          && j.state.phase == Completed && j.state.complete && j.final && Truthful(j.state, e.h.w)
          && TargetVerified(e.h.plan, e.h.log.view.copy) && Delivered(e, e.h.w) && e.h.w.store.lock == Free)
  }

  method Attempt(e: Engine, j: Job) returns (err: Option<Error>, ghost switched: bool)
    requires e.Sound(j) && e.h.plan.live && Planned(e.h.plan) && e.LegalKeys(e.h.plan.targetConfig) && e.Made()
    requires e.h.log.view == NOTHING_SEEN && j.state == NEW && !j.final
    modifies e.h, j
    ensures e.Sound(j) && Outcome(e, j, err, switched)
    ensures !j.final ==> e.h.log.view.counts.registration == 0 && !switched
    ensures e.h.reliable && Favourable(e, old(e.h.w)) ==> err.None? || (err.value.Restored? && j.stop)
  {
    var started, ok := Begin(e, j);
    if !started {
      return Some(Failure), false;
    }
    err, switched := Undoable(e, j, ok);
  }

  method Undoable(e: Engine, j: Job, ok: bool) returns (err: Option<Error>, ghost switched: bool)
    requires e.Sound(j) && e.Owned(e.h.w) && e.h.plan.live && Planned(e.h.plan) && e.LegalKeys(e.h.plan.targetConfig) &&
              e.Made()
    requires e.h.w.reg.src == e.h.plan.vm && e.h.plan.vm != 0 && e.h.log.view.copy == NOTHING_SEEN.copy
    requires e.h.log.view.counts.registration == 0 && e.h.w.reg.dst == 0
    requires j.state == NEW.(phase := j.state.phase) && j.state.phase != Unknown && !j.final
    modifies e.h, j
    ensures e.Sound(j) && Outcome(e, j, err, switched)
    ensures !j.final ==> e.h.log.view.counts.registration == 0 && !switched
    ensures e.h.reliable && ok && Sufficient(e, old(e.h.w)) ==> err.None? || (err.value.Restored? && j.stop)
  {
    var pending, committed := false, false;
    if ok {
      err, pending, committed := Work(e, j);
    } else {
      err := Some(Failure);
    }
    switched := committed;
    if err.None? || committed {
      return;
    }
    var e' := Recover(e, j, err.value, pending);
    err := Some(e');
  }

  /** A live migration, whatever the host does to its commands and replies and whenever the operator acts. Every
      command issued was allowed and owned by this job. The phase is `Unknown` exactly when a clone may still be
      running, and then the snapshot and the lock are kept; `RolledBack` leaves the source as it was found; and an
      accepted stop never ends in `Completed`, nor reaches a switch. */
  method Run(e: Engine, j: Job) returns (ghost switched: bool)
    requires e.Sound(j) && e.h.plan.live && Planned(e.h.plan) && e.LegalKeys(e.h.plan.targetConfig) && e.Made()
    requires e.h.log.view == NOTHING_SEEN && j.state == NEW && !j.final
    modifies e.h, j
    ensures e.Sound(j) && j.state.complete
    ensures j.state.phase == Completed || j.state.phase == Phase.Failed || j.state.phase == Unknown ||
              j.state.phase == RolledBack
    ensures j.state.phase == Unknown <==> e.h.log.view.copy.pending != {}
    ensures j.state.phase == Unknown ==> e.Owned(e.h.w) && e.h.w.trees.src == [e.h.plan.snapshot]
    ensures j.state.phase == RolledBack ==> AsFound(e, e.h.w) && Truthful(j.state, e.h.w)
    ensures j.state.phase == Completed ==>
              TargetVerified(e.h.plan, e.h.log.view.copy) && Delivered(e, e.h.w) && e.FilesCopied()
    ensures j.state.phase == Completed ==> e.h.w.store.lock == Free && Truthful(j.state, e.h.w)
    ensures switched ==> AtTarget(e, j) && (j.state.phase == Completed || j.state.phase == Phase.Failed)
    ensures j.state.phase == Completed ==> switched == e.h.plan.move
    ensures j.state.phase == Unknown ==> Truthful(j.state, e.h.w)
    ensures j.stop ==> j.state.phase != Completed && e.h.log.view.counts.registration == 0 && !switched
    ensures j.state.canRollback ==> j.state.phase == Phase.Failed && e.Backed(j.state, e.h.w)
    ensures e.h.reliable && Favourable(e, old(e.h.w)) ==> j.state.phase == if j.stop then RolledBack else Completed
  {
    var err: Option<Error>;
    err, switched := Attempt(e, j);
    if err.None? {
      return;
    }
    if err.value.Restored? {
      j.Update(j.state.(phase := RolledBack, complete := true, canRollback := false));
    } else {
      MarkFailed(j);
    }
  }
}

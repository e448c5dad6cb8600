/** The cold migration of internal/migration/engine.go: `Run`, `run` and `stopped`. */
module Cold {
  import opened Text
  import opened Vmx
  import opened Hosts
  import opened Jobs
  import opened Engines

  /** What a cold migration leaves alone until the switch. */
  twostate predicate Going(e: Engine, j: Job)
    reads e.h, j
  {
    && e.Sound(j) && (old(j.stop) ==> j.stop)
    && SameRegistrations(old(e.h.w), e.h.w) && Lowers(old(e.h.w).srcPower, e.h.w.srcPower) &&
         TargetPower(old(e.h.w), e.h.w)
    && Same(e.h.w.trees, old(e.h.w).trees.(dstVmx := e.h.w.trees.dstVmx))
    && e.h.OnlyLocks() && Same(j.state, old(j.state).(phase := j.state.phase))
  }

  /** The job has not asked for the lock yet. */
  ghost predicate Unlocked(v: View)
  {
    v.counts.acquires == 0 && v.counts.archives == 0
  }

  /** The source is down and will stay so. */
  ghost predicate Down(e: Engine, w: World)
  {
    e.Owned(w) && w.reg.src == e.h.plan.vm && w.reg.src != 0 && w.srcPower == Off
  }

  /** Where a reliable host lets the migration succeed. */
  ghost predicate Favourable(e: Engine, w: World)
  {
    var h := e.h;
    && h.plan.ready && h.Unchanged(false, false, w) && w.reg.dst == 0 && w.srcPower != Suspended && w.clones.Keys == {}
    && e.Clear(w.store.files, 0) && e.o.cloneTimeout >= 1 && e.o.powerOnTimeout >= 1
    && Legal(h.plan.targetConfig) && Fits(h.plan.targetConfig)
    && Acceptable(h.plan, h.plan.targetConfig, DiskNames(h.plan.disks))
  }

  /** The same once the source is down, as far as the clones depend on it. */
  ghost predicate Fresh(e: Engine, w: World)
  {
    e.h.Unchanged(true, true, w) && w.clones.Keys == {} && e.Clear(w.store.files, 0) && w.reg.dst == 0
  }

  /** And as far as the steps after them do. */
  ghost predicate Open(e: Engine, w: World)
  {
    e.h.Unchanged(true, true, w) && e.Clear(w.store.files, 0) && w.reg.dst == 0
  }

  /** The preflight, the lock, the shutdown and the target folder. */
  method Begin(e: Engine, j: Job) returns (err: Option<Error>)
    requires e.Sound(j) && !e.h.plan.live && j.state.phase != Unknown && Unlocked(e.h.log.view)
    modifies e.h, j
    ensures j.state.phase != Unknown
    ensures Going(e, j) && j.final == old(j.final) && e.h.SameClones()
    ensures err.None? ==> Down(e, e.h.w)
    ensures err == Some(OperatorStop) ==> j.stop
    ensures err.None? || err == Some(OperatorStop) || err == Some(Failure)
    ensures e.h.reliable && Favourable(e, old(e.h.w)) ==> (err.None? && Fresh(e, e.h.w)) || err == Some(OperatorStop)
    ensures e.h.reliable && Favourable(e, old(e.h.w)) ==> e.Owned(e.h.w)
  {
    if !e.h.plan.ready {
      return Some(Failure);
    }
    var p := Lock(e, j);
    if p.None? {
      return Some(Failure);
    }
    err := Lower(e, j, p.value);
  }

  method Lower(e: Engine, j: Job, p: Power) returns (err: Option<Error>)
    requires e.Sound(j) && j.state.phase != Unknown && e.Owned(e.h.w) && e.h.Unchanged(true, false, e.h.w)
    requires p == Off ==> e.h.w.srcPower == Off
    requires e.h.log.view.guard
    modifies e.h, j
    ensures j.state.phase != Unknown
    ensures Going(e, j) && j.final == old(j.final) && e.h.SameClones()
    ensures err.None? ==> Down(e, e.h.w)
    ensures err == Some(OperatorStop) ==> j.stop
    ensures err.None? || err == Some(OperatorStop) || err == Some(Failure)
    ensures e.h.reliable ==> e.h.w.store.lock == old(e.h.w).store.lock
    ensures e.h.reliable && p != Suspended && !e.h.plan.live && Fresh(e, old(e.h.w)) ==>
              (err.None? && Fresh(e, e.h.w)) || err == Some(OperatorStop)
  {
    err := e.Shutdown(j, p, None);
    if err.None? {
      err := Prepare(e);
    }
  }

  method Lock(e: Engine, j: Job) returns (p: Option<Power>)
    requires e.Sound(j) && Unlocked(e.h.log.view)
    modifies e.h, j
    ensures Going(e, j) && j.final == old(j.final) && j.state.phase == Preflight
    ensures Same(e.h.log.view, old(e.h.log).view.(guard := e.h.log.view.guard, counts := e.h.log.view.counts)) &&
              e.h.OnlyLocks()
    ensures p.Some? ==>
              e.h.log.view.guard && e.Owned(e.h.w) && e.h.Unchanged(true, false, e.h.w) &&
              (p.value == Off ==> e.h.w.srcPower == Off)
    ensures Same(e.h.w.store, old(e.h.w).store.(lock := e.h.w.store.lock)) &&
              Same(e.h.w.clones.Keys, old(e.h.w).clones.Keys)
    ensures e.h.reliable && e.h.Unchanged(false, false, old(e.h.w)) && old(e.h.w).srcPower != Suspended &&
            (e.h.plan.live ==> old(e.h.w).srcPower == On) ==>
              p.Some? && p.value != Suspended
  {
    j.SetPhase(Preflight);
    p := e.h.Inspect(false, false);
    if p.None? {
      return;
    }
    p := Take(e);
  }

  method Take(e: Engine) returns (p: Option<Power>)
    requires e.h.Valid() && MayAcquire(e.h.log.view, e.h.w)
    modifies e.h
    ensures e.h.Valid() && (old(e.h.log).safe ==> e.h.log.safe) && e.h.log.owned == old(e.h.log).owned
    ensures Same(e.h.log.view, old(e.h.log).view.(guard := e.h.log.view.guard, counts := e.h.log.view.counts)) &&
              e.h.OnlyLocks()
    ensures SameRegistrations(old(e.h.w), e.h.w) && SourcePower(old(e.h.w), e.h.w) && TargetPower(old(e.h.w), e.h.w)
    ensures SameTrees(old(e.h.w), e.h.w) && Same(e.h.w.clones.Keys, old(e.h.w).clones.Keys)
    ensures Same(e.h.w.store, old(e.h.w).store.(lock := e.h.w.store.lock))
    ensures p.Some? ==>
              e.h.log.view.guard && e.Owned(e.h.w) && e.h.Unchanged(true, false, e.h.w) &&
              (p.value == Off ==> e.h.w.srcPower == Off)
    ensures e.h.reliable && e.h.Unchanged(false, false, old(e.h.w)) && old(e.h.w).srcPower != Suspended &&
            (e.h.plan.live ==> old(e.h.w).srcPower == On) ==>
              p.Some? && p.value != Suspended
  {
    var ok := e.h.Acquire();
    if !ok {
      return None;
    }
    p := e.h.Inspect(true, false);
  }

  method Prepare(e: Engine) returns (err: Option<Error>)
    requires e.h.Valid() && e.h.log.safe && e.h.log.owned && e.Owned(e.h.w)
    modifies e.h
    ensures e.h.Valid() && e.h.log.safe && e.h.log.owned
    ensures SameRegistrations(old(e.h.w), e.h.w) && SourcePower(old(e.h.w), e.h.w) && TargetPower(old(e.h.w), e.h.w)
    ensures SameTrees(old(e.h.w), e.h.w) && e.h.SameCounts() && e.h.SameCopy()
    ensures err.None? ==> Down(e, e.h.w)
    ensures err.None? || err == Some(Failure)
    ensures Same(e.h.w.store, old(e.h.w).store.(targetDir := e.h.w.store.targetDir))
    ensures Same(e.h.w.clones.Keys, old(e.h.w).clones.Keys)
    ensures e.h.reliable && !e.h.plan.live && e.h.Unchanged(true, false, old(e.h.w)) && old(e.h.w).srcPower == Off ==>
              err.None?
  {
    err := e.Guard(false);
    if err.Some? {
      return;
    }
    var ok := e.h.CreateTarget();
    err := if ok then None else Some(Failure);
  }

  // -----------------------------------------------------------------------------------------------
  // Cloning

  /** The first `n` disks are cloned and verified, the others not started. */
  ghost predicate Cloned(e: Engine, v: Copied, n: nat)
  {
    && v.pending == {}
    && (forall i :: i in v.launched ==> i < n)
    && forall i :: 0 <= i < n ==> i in v.zero && e.Verified(v, i)
  }

  /** The copy after clone `i` was launched and ended well. */
  function Ended(v: Copied, i: nat): Copied
  {
    Polling(Launching(v, i), i, 0)
  }

  lemma StillCloned(e: Engine, v: Copied, w: Copied, n: nat)
    requires Cloned(e, v, n) && w == v.(deltas := w.deltas, copies := w.copies)
    ensures Cloned(e, w, n)
  {
    forall i | 0 <= i < n ensures i in w.zero && e.Verified(w, i) {
      assert i in v.zero && e.Verified(v, i);
    }
  }

  lemma FirstOnes(e: Engine, v: Copied, n: nat)
    requires Cloned(e, v, n)
    ensures forall k :: k in v.launched ==> FirstVerified(v, k)
  {
    forall k | k in v.launched ensures FirstVerified(v, k) {
      assert e.Verified(v, k);
    }
  }

  /** While disks are cloned: everything stays but the power of the source, which never comes back. */
  twostate predicate Cloning(e: Engine, j: Job)
    reads e.h, j
  {
    && e.Sound(j) && j.final == old(j.final) && (old(j.stop) ==> j.stop)
    && SameRegistrations(old(e.h.w), e.h.w) && SourcePower(old(e.h.w), e.h.w) && TargetPower(old(e.h.w), e.h.w)
    && SameTrees(old(e.h.w), e.h.w) && SameFiles(old(e.h.w), e.h.w)
    && e.h.SameCounts() && Same(j.state, old(j.state).(phase := j.state.phase))
  }

  /** What an interrupted clone phase may leave: at most one clone whose exit was not seen. */
  ghost predicate Interrupted(err: Error, v: Copied, p: Phase, stop: bool)
  {
    && (v.pending == {} <==> p != Unknown)
    && (err == OperatorStop ==> v.pending == {} && stop)
    && !err.Restored?
  }

  /** Launches the clone of disk `i`, at most once whatever the reply and not after a stop, and waits for its exit. */
  method CloneDisk(e: Engine, j: Job, i: nat) returns (err: Option<Error>)
    requires e.Sound(j) && !e.h.plan.live && i < |e.h.plan.disks| && Down(e, e.h.w) && Cloned(e, e.h.log.view.copy, i)
    requires j.state.phase != Unknown
    modifies e.h, j
    ensures Cloning(e, j)
    ensures old(j.stop) ==> err == Some(OperatorStop) && e.h.SameCopy()
    ensures err.None? ==> e.h.log.view.copy == Ended(old(e.h.log).view.copy, i) && j.state.phase != Unknown
    ensures err.Some? ==> Interrupted(err.value, e.h.log.view.copy, j.state.phase, j.stop)
    ensures e.h.reliable && i !in old(e.h.w).clones && e.h.Unchanged(true, true, old(e.h.w)) &&
              e.o.cloneTimeout >= 1 ==>
              err.None? || err == Some(OperatorStop)
    ensures forall k :: k in e.h.w.clones ==> k in old(e.h.w).clones || k == i
  {
    var stop := e.h.StopRequested(j);
    if stop {
      return Some(OperatorStop);
    }
    err := MayClone(e, j);
    if err.Some? {
      return;
    }
    FirstOnes(e, e.h.log.view.copy, i);
    var pending: bool;
    err, pending := Launch(e, j, i);
  }

  method MayClone(e: Engine, j: Job) returns (err: Option<Error>)
    requires e.Sound(j)
    modifies e.h, j
    ensures Cloning(e, j) && Same(e.h.w.clones.Keys, old(e.h.w).clones.Keys)
    ensures Same(e.h.log.view,
                 old(e.h.log).view.(guard := e.h.log.view.guard, low := e.h.log.view.low))
    ensures j.state.phase == Phase.Cloning || j.state.phase == old(j.state).phase
    ensures err.None? ==> e.h.log.view.guard
    ensures err.None? || err == Some(Failure)
    ensures e.h.reliable && !e.h.plan.live && e.h.Unchanged(true, true, old(e.h.w)) && old(e.h.w).srcPower == Off ==>
              err.None?
  {
    err := e.Guard(true);
    if err.Some? {
      return;
    }
    j.SetPhase(Phase.Cloning);
    err := e.RequireOff(e.h.plan.vm);
  }

  method Launch(e: Engine, j: Job, i: nat) returns (err: Option<Error>, pending: bool)
    requires e.Sound(j) && e.Owned(e.h.w) && MayLaunch(e.h.plan, e.h.log.view, i, e.h.w) && j.state.phase != Unknown
    modifies e.h, j
    ensures Cloning(e, j)
    ensures pending <==> e.h.log.view.copy.pending != {}
    ensures err.None? ==> e.h.log.view.copy == Ended(old(e.h.log).view.copy, i) && j.state.phase != Unknown
    ensures err.Some? ==> Interrupted(err.value, e.h.log.view.copy, j.state.phase, j.stop)
    ensures e.h.reliable && i !in old(e.h.w).clones && e.o.cloneTimeout >= 1 ==> err.None? || err == Some(OperatorStop)
    ensures forall k :: k in e.h.w.clones ==> k in old(e.h.w).clones || k == i
  {
    StartClone(e, j, i);
    var exit: Option<nat>;
    exit, err := e.WaitClone(j, i);
    pending := exit.None?;
  }

  /** Whether the reply came or not, the launch is not repeated. */
  method StartClone(e: Engine, j: Job, i: nat)
    requires e.Sound(j) && e.Owned(e.h.w) && MayLaunch(e.h.plan, e.h.log.view, i, e.h.w) && j.state.phase != Unknown
    modifies e.h, j
    ensures Cloning(e, j) && j.state.phase != Unknown && e.h.log.view.copy == Launching(old(e.h.log).view.copy, i)
    ensures e.h.log.view.wait == Waiting([], None)
    ensures forall k :: k in e.h.w.clones ==> k in old(e.h.w).clones || k == i
    ensures e.h.reliable && i !in old(e.h.w).clones ==> i in e.h.w.clones && e.h.w.clones[i].Running?
  {
    var ok := e.h.StartClone(i);
    if !ok {
      j.SetPhase(Reconnecting);
    }
  }

  /** A clone that ended well, checked while the source is off. */
  method VerifyClone(e: Engine, j: Job, i: nat) returns (err: Option<Error>)
    requires e.Sound(j) && i < |e.h.plan.disks| && e.Made() && j.state.phase != Unknown
    modifies e.h, j
    ensures Cloning(e, j) && j.state.phase != Unknown
    ensures Same(e.h.log.view.copy, old(e.h.log).view.copy.(passed := e.h.log.view.copy.passed,
              again := e.h.log.view.copy.again))
    ensures old(e.h.log).view.copy.passed <= e.h.log.view.copy.passed
    ensures err.None? ==> e.Verified(e.h.log.view.copy, i)
    ensures err.None? || err == Some(Failure)
    ensures Same(e.h.w.clones.Keys, old(e.h.w).clones.Keys)
    ensures e.h.reliable && old(e.h.w).reg.src == e.h.plan.vm && e.h.plan.vm != 0 && old(e.h.w).srcPower == Off ==>
              err.None?
  {
    err := e.RequireOff(e.h.plan.vm);
    if err.Some? {
      return;
    }
    j.SetPhase(VerifyingDisk);
    var ok := e.VerifyDisk(i);
    err := if ok then None else Some(Failure);
  }

  lemma ClonedMore(e: Engine, v: Copied, w: Copied, i: nat)
    requires Cloned(e, v, i) && e.Verified(w, i)
    requires var l := Ended(v, i);
             w == l.(passed := w.passed, again := w.again, deltas := w.deltas) && l.passed <= w.passed
    ensures Cloned(e, w, i + 1)
  {
    forall k | 0 <= k < i ensures k in w.zero && e.Verified(w, k) {
      assert k in v.zero && e.Verified(v, k);
    }
  }

  method MakeDisk(e: Engine, j: Job, i: nat) returns (err: Option<Error>)
    requires e.Sound(j) && !e.h.plan.live && i < |e.h.plan.disks| && Down(e, e.h.w) && Cloned(e, e.h.log.view.copy, i)
    requires j.state.phase != Unknown && e.Made()
    modifies e.h, j
    ensures Cloning(e, j)
    ensures old(j.stop) ==> err == Some(OperatorStop) && e.h.SameCopy()
    ensures err.None? ==> Cloned(e, e.h.log.view.copy, i + 1) && j.state.phase != Unknown
    ensures err.Some? ==> Interrupted(err.value, e.h.log.view.copy, j.state.phase, j.stop)
    ensures e.h.reliable && i !in old(e.h.w).clones && e.h.Unchanged(true, true, old(e.h.w)) &&
              e.o.cloneTimeout >= 1 ==>
              err.None? || err == Some(OperatorStop)
    ensures forall k :: k in e.h.w.clones ==> k in old(e.h.w).clones || k == i
  {
    ghost var before := e.h.log.view.copy;
    err := CloneDisk(e, j, i);
    if err.Some? {
      return;
    }
    err := VerifyClone(e, j, i);
    if err.None? {
      ClonedMore(e, before, e.h.log.view.copy, i);
    }
  }

  method MakeDisks(e: Engine, j: Job) returns (err: Option<Error>)
    requires e.Sound(j) && !e.h.plan.live && Down(e, e.h.w) && Cloned(e, e.h.log.view.copy, 0)
    requires j.state.phase != Unknown && e.Made()
    modifies e.h, j
    ensures Cloning(e, j)
    ensures old(j.stop) ==> e.h.SameCopy()
    ensures err.None? ==> Cloned(e, e.h.log.view.copy, |e.h.plan.disks|) && j.state.phase != Unknown
    ensures err.Some? ==> Interrupted(err.value, e.h.log.view.copy, j.state.phase, j.stop)
    ensures e.h.reliable && old(e.h.w).clones.Keys == {} && e.h.Unchanged(true, true, old(e.h.w)) &&
              e.o.cloneTimeout >= 1 ==>
              err.None? || err == Some(OperatorStop)
  {
    var i := 0;
    err := None;
    while i < |e.h.plan.disks|
      invariant 0 <= i <= |e.h.plan.disks| && Cloning(e, j)
      invariant Cloned(e, e.h.log.view.copy, i) && j.state.phase != Unknown && err.None?
      invariant old(j.stop) ==> i == 0 && e.h.SameCopy()
      invariant old(e.h.w).clones.Keys == {} ==> forall k :: k in e.h.w.clones ==> k < i
    {
      err := MakeDisk(e, j, i);
      if err.Some? {
        return;
      }
      i := i + 1;
    }
  }

  // -----------------------------------------------------------------------------------------------
  // The target's configuration and the switch

  /** From here on a stop is no longer honoured; one that was accepted before wins. */
  method PassStop(e: Engine, j: Job) returns (err: Option<Error>)
    requires e.Sound(j) && j.state.phase != Unknown
    modifies e.h, j
    ensures e.h.Still() && e.Sound(j) && (old(j.stop) ==> j.stop) &&
              Same(e.h.log.view, old(e.h.log).view.(guard := e.h.log.view.guard))
    ensures Same(j.state, old(j.state).(phase := j.state.phase)) && j.state.phase != Unknown
    ensures err.None? ==> j.final && !j.stop && e.h.Unchanged(true, true, e.h.w) && e.h.w.srcPower == Off
    ensures err == Some(OperatorStop) ==> j.stop
    ensures err.None? || err == Some(OperatorStop) || err == Some(Failure)
    ensures e.h.reliable && !e.h.plan.live && e.h.Unchanged(true, true, old(e.h.w)) && old(e.h.w).srcPower == Off ==>
              err.None? || err == Some(OperatorStop)
  {
    err := e.Guard(true);
    if err.Some? {
      return;
    }
    var ok := j.Proceed(VerifyingConfig);
    err := if ok then None else Some(OperatorStop);
  }

  /** What the last steps before the switch leave alone: only files appear in the target folder. */
  twostate predicate Writing(e: Engine)
    reads e.h
  {
    && e.h.Valid() && (old(e.h.log).safe ==> e.h.log.safe)
    && (old(e.h.log).owned && e.Owned(old(e.h.w)) ==> e.h.log.owned)
    && SameRegistrations(old(e.h.w), e.h.w) && SourcePower(old(e.h.w), e.h.w) && TargetPower(old(e.h.w), e.h.w)
    && Same(e.h.w.trees, old(e.h.w).trees.(dstVmx := e.h.w.trees.dstVmx))
    && Same(e.h.w.store, old(e.h.w).store.(files := e.h.w.store.files)) &&
         Same(e.h.w.clones.Keys, old(e.h.w).clones.Keys)
    && e.h.SameCounts()
    && Same(e.h.log.view.copy,
            old(e.h.log).view.copy.(config := e.h.log.view.copy.config, passed := e.h.log.view.copy.passed,
                                    again := e.h.log.view.copy.again))
  }

  /** The configuration files, the target VMX, and every disk once more. */
  method WriteTarget(e: Engine, config: Config, names: map<string, string>) returns (ok: bool)
    requires e.h.Valid() && e.LegalKeys(config) && e.Made()
    modifies e.h
    ensures Writing(e)
    ensures ok ==> e.h.log.view.copy.config == Some(config) && forall i :: 0 <= i < |e.h.plan.disks| ==>
              e.VerifiedAgain(e.h.log.view.copy, i)
    ensures ok ==> Acceptable(e.h.plan, config, names) && e.FilesCopied()
    ensures e.h.reliable ==> SamePowers(old(e.h.w), e.h.w)
    ensures e.h.reliable && e.Clear(old(e.h.w).store.files, 0) && Legal(config) && Fits(config) &&
            Acceptable(e.h.plan, config, names)
            ==> ok
  {
    ok := e.CopyConfig(config, names);
    if ok {
      ok := e.VerifyDisks();
    }
  }

  lemma AllVerified(e: Engine, v: Copied, w: Copied)
    requires !e.h.plan.live && Cloned(e, v, |e.h.plan.disks|)
    requires w == v.(config := w.config, passed := w.passed, again := w.again) &&
              w.config == Some(e.h.plan.targetConfig)
    requires forall i :: 0 <= i < |e.h.plan.disks| ==> e.VerifiedAgain(w, i)
    ensures TargetVerified(e.h.plan, w)
  {
    forall i | 0 <= i < |e.h.plan.disks| ensures DiskVerified(e.h.plan, w, i) {
      assert e.VerifiedAgain(w, i) && i in v.zero;
    }
  }

  method VerifyTarget(e: Engine) returns (ok: bool)
    requires e.h.Valid() && !e.h.plan.live && Cloned(e, e.h.log.view.copy, |e.h.plan.disks|) && e.Made()
    requires e.LegalKeys(e.h.plan.targetConfig)
    modifies e.h
    ensures Writing(e)
    ensures ok ==> TargetVerified(e.h.plan, e.h.log.view.copy) && e.FilesCopied()
    ensures e.h.reliable ==> SamePowers(old(e.h.w), e.h.w)
    ensures e.h.reliable && e.Clear(old(e.h.w).store.files, 0) && Legal(e.h.plan.targetConfig) &&
              Fits(e.h.plan.targetConfig) &&
            Acceptable(e.h.plan, e.h.plan.targetConfig, DiskNames(e.h.plan.disks))
            ==> ok
  {
    ok := WriteTarget(e, e.h.plan.targetConfig, DiskNames(e.h.plan.disks));
    if ok {
      AllVerified(e, old(e.h.log).view.copy, e.h.log.view.copy);
    }
  }

  /** Verifies the target as a whole, and the source once more. */
  method Verify(e: Engine, j: Job) returns (err: Option<Error>)
    requires e.Sound(j) && e.Owned(e.h.w) && !e.h.plan.live && Cloned(e, e.h.log.view.copy, |e.h.plan.disks|) &&
              e.Made()
    requires e.LegalKeys(e.h.plan.targetConfig) && j.final
    modifies e.h, j
    ensures Writing(e) && e.Sound(j) && j.final
    ensures err.None? ==>
              && TargetVerified(e.h.plan, e.h.log.view.copy) && e.h.log.view.guard &&
                   e.h.Unchanged(true, true, e.h.w) && e.h.w.srcPower == Off
              && Same(j.state, old(j.state).(targetVerified := true)) && e.FilesCopied()
    ensures err.Some? ==> err.value == Failure && Same(j.state, old(j.state))
    ensures e.h.reliable && e.h.Unchanged(true, true, old(e.h.w)) && old(e.h.w).srcPower == Off &&
              e.Clear(old(e.h.w).store.files, 0) &&
            Legal(e.h.plan.targetConfig) && Fits(e.h.plan.targetConfig) &&
            Acceptable(e.h.plan, e.h.plan.targetConfig, DiskNames(e.h.plan.disks))
            ==> err.None?
  {
    var ok := VerifyTarget(e);
    if !ok {
      return Some(Failure);
    }
    err := e.Guard(true);
    if err.None? {
      j.Update(j.state.(targetVerified := true));
    }
  }

  /** What the switch leaves: `COPY` switches nothing, and a rollback is offered only where it can help. */
  ghost predicate Consistent(e: Engine, s: State, w: World)
  {
    s.canRollback ==> e.TargetOnly(w) && e.Switched(s, w)
  }

  method Switch(e: Engine, j: Job) returns (ok: bool)
    requires e.Sound(j) && e.Owned(e.h.w) && !e.h.plan.live && TargetVerified(e.h.plan, e.h.log.view.copy)
    requires j.state.target != Registered && !j.state.canRollback
    requires e.h.log.view.guard
    modifies e.h, j
    ensures e.Sound(j) && e.Owned(e.h.w) && j.final == old(j.final) && (old(j.stop) ==> j.stop) && e.h.SameCopy() &&
              Same(e.h.w.store.files, old(e.h.w).store.files)
    ensures old(Truthful(j.state, e.h.w)) ||
            e.h.log.view.counts.registration > old(e.h.log).view.counts.registration
            ==> Truthful(j.state, e.h.w)
    ensures Consistent(e, j.state, e.h.w)
    ensures !e.h.plan.move ==>
              ok && Same(e.h.w, old(e.h.w)) && Same(j.state, old(j.state)) && Same(e.h.log.view, old(e.h.log).view)
    ensures e.h.plan.move && ok ==>
              e.TargetOnly(e.h.w) && j.state.source == NotRegistered && j.state.target == Registered
    ensures j.state.phase != Unknown || j.state.phase == old(j.state).phase
    ensures j.state.complete == old(j.state).complete
    ensures e.h.reliable && old(j.state).targetVerified && e.SourceOnly(old(e.h.w)) &&
            old(e.h.w).reg.src == e.h.plan.vm && e.o.powerOnTimeout >= 1
            ==> ok
  {
    if !e.h.plan.move {
      return true;
    }
    ok := e.Commit(j);
    if ok && e.h.plan.powerOn {
      ok := e.PowerOn(j);
    }
  }

  // -----------------------------------------------------------------------------------------------
  // The whole migration

  /** The part of a migration in which a stop is honoured. */
  method Copy(e: Engine, j: Job) returns (err: Option<Error>)
    requires e.Sound(j) && !e.h.plan.live && !j.state.complete && e.Made() && e.h.log.view == NOTHING_SEEN
    requires j.state.phase != Unknown && !j.final
    modifies e.h, j
    ensures Going(e, j)
    ensures err.None? ==>
              Down(e, e.h.w) && Cloned(e, e.h.log.view.copy, |e.h.plan.disks|) && j.final && j.state.phase != Unknown
    ensures err.Some? ==> Interrupted(err.value, e.h.log.view.copy, j.state.phase, j.stop)
    ensures e.h.log.view.copy.pending != {} ==> e.Owned(e.h.w)
    ensures e.h.reliable && Favourable(e, old(e.h.w)) ==> (err.None? && Open(e, e.h.w)) || err == Some(OperatorStop)
    ensures e.h.reliable && Favourable(e, old(e.h.w)) ==> e.Owned(e.h.w)
  {
    err := Begin(e, j);
    if err.None? {
      err := Disks(e, j);
    }
  }

  method Disks(e: Engine, j: Job) returns (err: Option<Error>)
    requires e.Sound(j) && !e.h.plan.live && Down(e, e.h.w) && e.Made() && Cloned(e, e.h.log.view.copy, 0)
    requires j.state.phase != Unknown
    modifies e.h, j
    ensures Going(e, j) && SourcePower(old(e.h.w), e.h.w) && SameTrees(old(e.h.w), e.h.w) &&
              SameFiles(old(e.h.w), e.h.w)
    ensures err.None? ==> Cloned(e, e.h.log.view.copy, |e.h.plan.disks|) && j.final && j.state.phase != Unknown
    ensures err.Some? ==> Interrupted(err.value, e.h.log.view.copy, j.state.phase, j.stop)
    ensures e.h.reliable && Fresh(e, old(e.h.w)) && e.o.cloneTimeout >= 1 ==>
              (err.None? && Open(e, e.h.w)) || err == Some(OperatorStop)
  {
    err := MakeDisks(e, j);
    if err.None? {
      err := PassStop(e, j);
    }
  }

  /** What has become of the registrations when a migration is complete. */
  ghost predicate Delivered(e: Engine, w: World)
  {
    if e.h.plan.move then e.TargetOnly(w) else w.reg.src == e.h.plan.vm && w.srcPower == Off
  }

  /** The part after the point of no return. */
  method Deliver(e: Engine, j: Job) returns (err: Option<Error>)
    requires e.Sound(j) && e.Owned(e.h.w) && !e.h.plan.live && Cloned(e, e.h.log.view.copy, |e.h.plan.disks|) &&
              e.Made()
    requires e.LegalKeys(e.h.plan.targetConfig) && j.final && j.state.phase != Unknown
    requires j.state.target != Registered && !j.state.canRollback && !j.state.complete
    modifies e.h, j
    ensures e.Sound(j) && j.final && e.h.log.view.copy.pending == {}
    ensures old(Truthful(j.state, e.h.w)) ||
            e.h.log.view.counts.registration > old(e.h.log).view.counts.registration
            ==> Truthful(j.state, e.h.w)
    ensures Consistent(e, j.state, e.h.w) && (j.state.canRollback ==> err.Some?)
    ensures err.None? ==> j.state.phase == Completed && j.state.complete && e.h.w.store.lock == Free
    ensures err.None? ==> TargetVerified(e.h.plan, e.h.log.view.copy) && Delivered(e, e.h.w) && e.FilesCopied()
    ensures err.Some? ==> err.value == Failure && j.state.phase != Unknown
    ensures e.h.reliable && Open(e, old(e.h.w)) && old(e.h.w).srcPower == Off && e.o.powerOnTimeout >= 1 &&
            Legal(e.h.plan.targetConfig) && Fits(e.h.plan.targetConfig) &&
            Acceptable(e.h.plan, e.h.plan.targetConfig, DiskNames(e.h.plan.disks))
            ==> err.None?
  {
    err := Verify(e, j);
    if err.Some? {
      return;
    }
    err := Complete(e, j);
  }

  method Complete(e: Engine, j: Job) returns (err: Option<Error>)
    requires e.Sound(j) && e.Owned(e.h.w) && !e.h.plan.live && TargetVerified(e.h.plan, e.h.log.view.copy)
    requires e.h.w.reg.src == e.h.plan.vm && e.h.w.srcPower == Off && j.final && j.state.phase != Unknown
    requires j.state.target != Registered && !j.state.canRollback && !j.state.complete
    requires e.h.log.view.guard
    modifies e.h, j
    ensures e.Sound(j) && j.final && e.h.SameCopy() && Same(e.h.w.store.files, old(e.h.w).store.files)
    ensures old(Truthful(j.state, e.h.w)) ||
            e.h.log.view.counts.registration > old(e.h.log).view.counts.registration
            ==> Truthful(j.state, e.h.w)
    ensures Consistent(e, j.state, e.h.w) && (j.state.canRollback ==> err.Some?)
    ensures err.None? ==>
              j.state.phase == Completed && j.state.complete && e.h.w.store.lock == Free && Delivered(e, e.h.w)
    ensures err.Some? ==> err.value == Failure && j.state.phase != Unknown
    ensures e.h.reliable && e.SourceOnly(old(e.h.w)) && old(j.state).targetVerified && e.o.powerOnTimeout >= 1 ==>
              err.None?
  {
    var ok := Switch(e, j);
    if !ok {
      return Some(Failure);
    }
    ok := e.Finish();
    if !ok {
      return Some(Failure);
    }
    j.Update(j.state.(phase := Completed, complete := true, canRollback := false));
    return None;
  }

  method Attempt(e: Engine, j: Job) returns (err: Option<Error>)
    requires e.Sound(j) && !e.h.plan.live && e.Made() && e.LegalKeys(e.h.plan.targetConfig) &&
              e.h.log.view == NOTHING_SEEN
    requires j.state == NEW && !j.final
    modifies e.h, j
    ensures e.Sound(j)
    ensures err.None? ==> j.state.phase == Completed && j.state.complete && j.final && e.h.log.view.copy.pending == {}
    ensures err.None? ==>
              TargetVerified(e.h.plan, e.h.log.view.copy) && Delivered(e, e.h.w) && e.h.w.store.lock == Free &&
              e.FilesCopied()
    ensures err.Some? ==> Interrupted(err.value, e.h.log.view.copy, j.state.phase, j.stop)
    ensures e.h.log.view.copy.pending != {} ==> e.Owned(e.h.w)
    ensures e.h.log.view.counts.registration > 0 ==> j.final
    ensures old(Truthful(j.state, e.h.w)) || e.h.log.view.counts.registration > 0 ==> Truthful(j.state, e.h.w)
    ensures Consistent(e, j.state, e.h.w)
    ensures j.state.canRollback ==> err == Some(Failure) && e.h.log.view.copy.pending == {}
    ensures e.h.reliable && Favourable(e, old(e.h.w)) ==> err.None? || err == Some(OperatorStop)
  {
    err := Copy(e, j);
    if err.None? {
      err := Deliver(e, j);
    }
  }

  /** The end of a cold migration the operator stopped. */
  method Stopped(e: Engine, j: Job)
    requires e.Sound(j) && e.h.log.view.copy.pending == {}
    modifies e.h, j
    ensures e.Sound(j) && e.h.OnlyLocks() && e.h.SameCopy() && j.final == old(j.final) && (old(j.stop) ==> j.stop)
    ensures SameRegistrations(old(e.h.w), e.h.w) && SourcePower(old(e.h.w), e.h.w)
    ensures j.state == old(j.state).(phase := Phase.Stopped, complete := true)
    ensures e.h.reliable && e.Owned(old(e.h.w)) ==> e.h.w.store.lock == Free
  {
    var _ := e.Finish();
    j.Update(j.state.(phase := Phase.Stopped, complete := true));
  }

  /** A cold migration, whatever the host does to its commands and replies and whenever the operator acts. Every
      command issued was allowed and owned by this job; the published registrations are true; the phase is
      `Unknown` exactly when a clone may still be running, and then the lock is kept; and an accepted stop never
      ends in `Completed`, nor reaches a switch. */
  method Run(e: Engine, j: Job)
    requires e.Sound(j) && !e.h.plan.live && e.Made() && e.LegalKeys(e.h.plan.targetConfig) &&
              e.h.log.view == NOTHING_SEEN
    requires j.state == NEW && !j.final
    modifies e.h, j
    ensures e.Sound(j) && j.state.complete
    ensures j.state.phase == Completed || j.state.phase == Failed || j.state.phase == Unknown ||
              j.state.phase == Phase.Stopped
    ensures j.state.phase == Unknown <==> e.h.log.view.copy.pending != {}
    ensures j.state.phase == Unknown ==> e.Owned(e.h.w)
    ensures j.state.phase == Completed ==>
              TargetVerified(e.h.plan, e.h.log.view.copy) && Delivered(e, e.h.w) && e.h.w.store.lock == Free &&
                  e.FilesCopied()
    ensures j.stop ==> j.state.phase != Completed && e.h.log.view.counts.registration == 0
    ensures j.state.phase == Phase.Stopped ==> j.stop
    ensures old(Truthful(j.state, e.h.w)) || e.h.log.view.counts.registration > 0 ==> Truthful(j.state, e.h.w)
    ensures Consistent(e, j.state, e.h.w) && (j.state.canRollback ==> j.state.phase == Failed)
    ensures e.h.reliable && Favourable(e, old(e.h.w)) ==> if j.stop then j.state.phase == Phase.Stopped
              else j.state.phase == Completed
  {
    var err := Attempt(e, j);
    if err == Some(OperatorStop) {
      Stopped(e, j);
    } else if err.Some? {
      MarkFailed(j);
    }
  }
}

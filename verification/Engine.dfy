/** The migration engine of internal/migration/engine.go and verify.go: waiting for clones, verifying the target,
    switching the registration and rolling it back. */
module Engines {
  import opened Text
  import opened Vmx
  import opened Vmdk
  import opened Hosts
  import opened Jobs
  import D = Devices

  datatype Error = OperatorStop | CloneFailed(code: nat) | NoSpace | Failure | Restored(cause: Error)

  datatype Options = Options(
    shutdownTimeout: int, pollInterval: int, disconnectTimeout: int, cloneTimeout: int, powerOnTimeout: int)

  /** Each published registration is either open or true of the host. */
  ghost predicate Truthful(s: State, w: World)
  {
    && (s.source != Unconfirmed ==> (s.source == Registered <==> w.reg.src != 0))
    && (s.target != Unconfirmed ==> (s.target == Registered <==> w.reg.dst != 0))
  }

  function Published(s: State, src: nat, dst: nat): State
  {
    s.(source := if src != 0 then Registered else NotRegistered,
       target := if dst != 0 then Registered else NotRegistered,
       targetId := if dst != 0 then dst else s.targetId)
  }

  /** What the wait for a clone keeps between its rounds: when the last contact and the last space check were, why
      the clone is being stopped, and until when its exit is awaited. */
  datatype Watch = Watch(
    since: int, contact: int, space: int, cause: Option<Error>, stopBy: Option<int>, stopping: bool)

  /** The outcome of that wait: the exit code, if the marker was seen, and an error. */
  datatype Ending = Ending(exit: Option<nat>, err: Option<Error>)

  /** The end of a job that failed: an outcome that is unknown stays so. */
  method MarkFailed(j: Job)
    requires j.Valid()
    modifies j`state, j`stop, j`actions, j`approved
    ensures j.Valid() && (old(j.stop) ==> j.stop)
    ensures j.stop ==> old(j.stop) || (!old(j.state).complete && !j.final && Stoppable(old(j.state).phase))
    ensures Same(j.state, old(j.state).(phase := if old(j.state).phase == Unknown then Unknown
              else Failed, complete := true))
  {
    j.Update(j.state.(phase := if j.state.phase == Unknown then Unknown else Failed, complete := true));
  }

  /** The active disks of a configuration. */
  function ActiveKeys(c: Config): set<string>
  {
    set k | k in c && D.Active(c, k)
  }

  lemma {:induction false} CountRefs(s: seq<D.DiskRef>, keys: set<string>)
    requires D.SortedRefs(s)
    requires forall d :: d in s ==> d.key in keys
    requires forall k :: k in keys ==> exists d :: d in s && d.key == k
    ensures |s| == |keys|
  {
    if s != [] {
      var last, rest := s[|s| - 1], s[..|s| - 1];
      forall d | d in rest ensures d.key != last.key {
        BeforeIsIrreflexive(last.key);
      }
      forall k | k in keys - {last.key} ensures exists d :: d in rest && d.key == k {
        var d :| d in s && d.key == k;
        assert d in rest;
      }
      assert last in s;
      CountRefs(rest, keys - {last.key});
    }
  }

  lemma CountActive(c: Config, s: seq<D.DiskRef>)
    requires D.SortedRefs(s)
    requires forall d :: d in s <==> d.key in c && d.file == c[d.key] && D.Findings(c)[d.key].disk
    ensures |s| == |ActiveKeys(c)|
  {
    forall k | k in ActiveKeys(c) ensures exists d :: d in s && d.key == k {
      assert D.DiskRef(k, c[k]) in s;
    }
    CountRefs(s, ActiveKeys(c));
  }

  predicate NamesAgree(disks: seq<Disk>, c: Config, names: map<string, string>)
  {
    forall d :: d in disks ==> D.Value(c, d.key) == D.Value(names, d.key)
  }

  /** What the target VMX must satisfy beyond being the reviewed one. */
  ghost predicate Acceptable(plan: Plan, c: Config, names: map<string, string>)
  {
    D.Clean(D.Findings(c)) && |ActiveKeys(c)| == |plan.disks| && NamesAgree(plan.disks, c, names)
  }

  method Compare(disks: seq<Disk>, c: Config, names: map<string, string>) returns (ok: bool)
    ensures ok <==> NamesAgree(disks, c, names)
  {
    var i := 0;
    while i < |disks|
      invariant 0 <= i <= |disks|
      invariant forall k :: 0 <= k < i ==> D.Value(c, disks[k].key) == D.Value(names, disks[k].key)
    {
      if D.Value(c, disks[i].key) != D.Value(names, disks[i].key) {
        return false;
      }
      i := i + 1;
    }
    return true;
  }

  method Accept(plan: Plan, c: Config, names: map<string, string>) returns (ok: bool)
    ensures ok <==> Acceptable(plan, c, names)
  {
    var a := D.Analyze(c);
    CountActive(c, a.disks);
    ok := Compare(plan.disks, c, names);
    ok := ok && a.blocks == 0 && |a.disks| == |plan.disks|;
  }

  predicate GoingDown(p: Phase)
  {
    p == Phase.Shutdown || p == AwaitingShutdown
  }

  lemma {:induction false} SeenInStops(plan: Plan, vms: seq<VM>, i: nat, n: nat)
    requires i <= n <= |vms| && SeenIn(plan, vms, i).None?
    ensures SeenIn(plan, vms, n).None?
  {
    if i < n {
      SeenInStops(plan, vms, i, n - 1);
    }
  }

  /** When the free space was last known, in a watch that began at `since`. */
  function LastFree(found: seq<Space>, since: int): int
  {
    if found == [] then since
    else
      var last := found[|found| - 1];
      if last.bytes.Some? then last.at else LastFree(found[..|found| - 1], since)
  }

  /** Read `k` found too little room. */
  predicate Short(found: seq<Space>, k: nat)
  {
    k < |found| && found[k].bytes.Some? && found[k].bytes.value < MIN_SOURCE_FREE
  }

  /** Read `k` failed, and the last that did not is longer ago than `limit`. */
  predicate Blind(found: seq<Space>, k: nat, since: int, limit: int)
  {
    k < |found| && found[k].bytes.None? && found[k].at - LastFree(found[..k], since) > limit
  }

  /** Why the reads so far demand that the clone is stopped: the first that was short, or blind. */
  function CauseOf(found: seq<Space>, since: int, limit: int): (cause: Option<Error>)
    ensures cause.Some? ==> cause.value == NoSpace || cause.value == Failure
  {
    if found == [] then None
    else
      var n := |found| - 1;
      var before := CauseOf(found[..n], since, limit);
      if before.Some? then before
      else if Short(found, n) then Some(NoSpace)
      else if Blind(found, n, since, limit) then Some(Failure)
      else None
  }

  /** There is a cause exactly when some read was short or blind. */
  lemma {:induction false} CauseIsARead(found: seq<Space>, since: int, limit: int)
    ensures CauseOf(found, since, limit).Some? <==> exists k: nat :: Short(found, k) || Blind(found, k, since, limit)
  {
    if found != [] {
      var n := |found| - 1;
      CauseIsARead(found[..n], since, limit);
      forall k: nat | k < n ensures Short(found, k) <==> Short(found[..n], k) {
      }
      forall k: nat | k < n ensures Blind(found, k, since, limit) <==> Blind(found[..n], k, since, limit) {
        assert found[..n][..k] == found[..k];
      }
      if k: nat :| Short(found[..n], k) || Blind(found[..n], k, since, limit) {
        assert Short(found, k) || Blind(found, k, since, limit);
      }
    }
  }

  /** One more read of the space. */
  lemma CauseStep(found: seq<Space>, read: Space, since: int, limit: int)
    requires CauseOf(found, since, limit).None?
    ensures var more, blind := found + [read], read.at - LastFree(found, since) > limit;
            && LastFree(more, since) == (if read.bytes.Some? then read.at else LastFree(found, since))
            && CauseOf(more, since, limit) ==
                 if read.bytes.Some? then (if read.bytes.value < MIN_SOURCE_FREE then Some(NoSpace) else None)
                 else if blind then Some(Failure) else None
  {
    var more := found + [read];
    assert more[..|found|] == found && more[|found|] == read;
  }

  class Engine {
    const h: Host
    const o: Options

    constructor (h: Host, o: Options)
      ensures this.h == h && this.o == o
    {
      this.h, this.o := h, o;
    }

    /** The engine may go on: host and job are consistent and everything issued so far was allowed. */
    ghost predicate Sound(j: Job)
      reads h, j
    {
      h.Valid() && j.Valid() && h.log.safe && h.log.owned && o.pollInterval >= 1
    }

    // Registrations -------------------------------------------------------------------------------

    method Row(sofar: (nat, nat), v: VM) returns (r: Option<(nat, nat)>)
      requires h.Valid()
      modifies h
      ensures h.Valid() && h.Still() && Same(h.log.view, old(h.log).view)
      ensures r.Some? || h.reliable ==> r == Seen(h.plan, sofar, v)
    {
      var ok := h.Lookup();
      r := if ok then Seen(h.plan, sofar, v) else None;
    }

    /** Goes through the rows, resolving the path of each. */
    method Scan(vms: seq<VM>) returns (r: Option<(nat, nat)>)
      requires h.Valid()
      modifies h
      ensures h.Valid() && h.Still() && Same(h.log.view, old(h.log).view)
      ensures r.Some? ==> r == SeenIn(h.plan, vms, |vms|)
      ensures h.reliable && SeenIn(h.plan, vms, |vms|).Some? ==> r.Some?
    {
      r := Some((0, 0));
      var i := 0;
      while i < |vms| && r.Some?
        invariant 0 <= i <= |vms| && h.Valid() && h.Still() && Same(h.log.view, old(h.log).view)
        invariant r.Some? || h.reliable ==> r == SeenIn(h.plan, vms, i)
      {
        r := Row(r.value, vms[i]);
        i := i + 1;
      }
      if r.None? && h.reliable {
        SeenInStops(h.plan, vms, i, |vms|);
      }
    }

    /** Reconciles uncertain results against the inventory: an error is never taken for an answer. */
    method Registrations() returns (r: Option<(nat, nat)>)
      requires h.Valid()
      modifies h
      ensures h.Valid() && h.Still() && Same(h.log.view, old(h.log).view.(inventory := h.log.view.inventory))
      ensures r.Some? ==> r.value == (h.w.reg.src, h.w.reg.dst) && h.log.view.inventory == r
      ensures h.reliable ==> r.Some?
    {
      var vms := h.VMs();
      var ok := h.Lookup();
      if vms.None? || !ok {
        return None;
      }
      r := Scan(vms.value);
      SeenInAll(h.plan, h.w.reg.src, h.w.reg.dst, vms.value);
    }

    method RequireOff(id: nat) returns (err: Option<Error>)
      requires h.Valid()
      modifies h
      ensures h.Valid() && h.Still()
      ensures Same(h.log.view, old(h.log).view.(low := h.log.view.low))
      ensures err.None? ==> id != 0 && (if id == h.w.reg.src then h.w.srcPower else h.w.dstPower) == Off
      ensures err.None? ==> h.log.view.low == Some(id)
      ensures err.None? || err == Some(Failure)
      ensures h.reliable && id != 0 && (id == h.w.reg.src || id == h.w.reg.dst) &&
                (if id == h.w.reg.src then h.w.srcPower else h.w.dstPower) == Off
              ==> err.None?
    {
      var p := h.Power(id);
      return if p == Some(Off) then None else Some(Failure);
    }

    /** `inspect` with `matchPlan`, and for a cold step the demand that the source is off. */
    method Guard(created: bool) returns (err: Option<Error>)
      requires h.Valid()
      modifies h
      ensures h.Valid() && h.Still() && Same(h.log.view, old(h.log).view.(guard := h.log.view.guard))
      ensures err.None? ==> h.Unchanged(true, created, h.w) && h.w.srcPower == Off && h.log.view.guard
      ensures err.None? || err == Some(Failure)
      ensures h.reliable && h.Unchanged(true, created, h.w) && h.w.srcPower == Off && !h.plan.live ==> err.None?
    {
      var p := h.Inspect(true, created);
      return if p == Some(Off) then None else Some(Failure);
    }

    // The end of a job ----------------------------------------------------------------------------

    /** Archives the lock, after reading that it is this job's. */
    method Finish() returns (ok: bool)
      requires h.Valid()
      modifies h
      ensures h.Valid() && h.clock.patience == old(h.clock).patience
      ensures Same(h.log.view, old(h.log).view.(counts := h.log.view.counts)) && h.OnlyLocks()
      ensures SameRegistrations(old(h.w), h.w) && SameTrees(old(h.w), h.w)
      ensures Same(h.w.store, old(h.w).store.(lock := h.w.store.lock))
      ensures SourcePower(old(h.w), h.w) && TargetPower(old(h.w), h.w) && Same(h.w.clones.Keys, old(h.w).clones.Keys)
      ensures ok ==> old(h.w).store.lock == Held(h.plan.id) && h.w.store.lock == Free
      ensures h.w.store.lock == old(h.w).store.lock || (old(h.w).store.lock == Held(h.plan.id) &&
                h.w.store.lock == Free)
      ensures old(h.log).safe && old(h.log).view.copy.pending == {} ==> h.log.safe
      ensures h.log.owned == old(h.log).owned
      ensures h.reliable && old(h.w).store.lock == Held(h.plan.id) ==> ok && SamePowers(old(h.w), h.w)
    {
      var own := h.ReadMeta();
      if !own {
        return false;
      }
      ok := h.ArchiveActive();
    }

    // Shutting the source down --------------------------------------------------------------------

    /** Between the steps of a live migration: the source is the registered VM, runs on exactly the job's snapshot
        and on the same deltas, and its datastores keep enough room. */
    method LiveGuard(deltas: map<string, string>) returns (err: Option<Error>)
      requires h.Valid()
      modifies h
      ensures h.Valid() && h.Still() && h.OnlyGuards()
      ensures err.None? ==> OnDeltas(deltas, h.w) && h.log.view.guard && Shown(deltas)
      ensures err.None? || err == Some(Failure) || err == Some(NoSpace)
      ensures h.reliable && OnDeltas(deltas, h.w) ==> err.None?
    {
      var same := SameDeltas(deltas);
      if !same {
        return Some(Failure);
      }
      var free := h.GuardFree();
      return if free.None? then Some(Failure) else if free.value < MIN_SOURCE_FREE then Some(NoSpace) else None;
    }

    method SameDeltas(deltas: map<string, string>) returns (same: bool)
      requires h.Valid()
      modifies h
      ensures h.Valid() && h.Still() && h.OnlyGuards()
      ensures same ==> OnDeltas(deltas, h.w) && Shown(deltas)
      ensures h.reliable && OnDeltas(deltas, h.w) ==> same
    {
      var r := Registrations();
      if r.None? || r.value.0 != h.plan.vm || r.value.1 != 0 {
        return false;
      }
      var now := LiveDeltas();
      same := now == Some(deltas);
    }

    /** The inventory showed the source alone, and its VMX named these deltas. */
    ghost predicate Shown(deltas: map<string, string>)
      reads h
    {
      h.log.view.inventory == Some((h.plan.vm, 0)) && h.log.view.copy.deltas == Some(deltas)
    }

    predicate OnDeltas(deltas: map<string, string>, w: World)
    {
      && w.reg.src == h.plan.vm && w.reg.src != 0 && w.reg.dst == 0 && w.trees.src == [h.plan.snapshot]
      && deltas == DeltaNames(h.plan, w.trees.srcVmx)
    }

    method LiveDeltas() returns (names: Option<map<string, string>>)
      requires h.Valid() && h.w.reg.src == h.plan.vm
      modifies h
      ensures h.Valid() && h.Still() && Same(h.log.view, old(h.log).view.(copy := h.log.view.copy)) && h.SameClones()
      ensures names.Some? ==> h.log.view.copy.deltas == names
      ensures names.Some? ==>
                h.w.reg.src != 0 && h.w.trees.src == [h.plan.snapshot] &&
                names.value == DeltaNames(h.plan, h.w.trees.srcVmx)
      ensures h.reliable && h.w.reg.src != 0 && h.w.trees.src == [h.plan.snapshot] ==> names.Some?
    {
      var tree := h.Snapshot(h.plan.vm);
      if tree != Some([h.plan.snapshot]) {
        return None;
      }
      names := h.ReadDeltas();
    }

    /** The check that precedes a forced power-off. */
    method Revalidate(deltas: Option<map<string, string>>) returns (ok: bool)
      requires h.Valid()
      modifies h
      ensures h.Valid() && h.Still() && h.OnlyGuards() && (ok ==> h.log.view.guard)
    {
      if deltas.Some? {
        var err := LiveGuard(deltas.value);
        return err.None?;
      }
      var p := h.Inspect(true, false);
      return p.Some?;
    }

    /** While the source goes down: nothing else moves, nothing is switched, no stop is taken back. */
    twostate predicate Lowering(j: Job)
      reads h, j
    {
      && Sound(j) && j.final == old(j.final) && (old(j.stop) ==> j.stop)
      && SameRegistrations(old(h.w), h.w) && SameTrees(old(h.w), h.w) && SameFiles(old(h.w), h.w)
      && Lowers(old(h.w).srcPower, h.w.srcPower) && TargetPower(old(h.w), h.w)
      && Same(old(h.w).clones.Keys, h.w.clones.Keys)
      && h.SameClones() && h.SameCounts()
      && Same(j.state, old(j.state).(phase := j.state.phase))
      && h.clock.patience <= old(h.clock).patience
    }

    method ForceOff(j: Job, deltas: Option<map<string, string>>) returns (ok: bool)
      requires Sound(j) && h.w.reg.src == h.plan.vm && h.w.reg.src != 0 && h.w.store.lock == Held(h.plan.id)
      requires h.log.view.orders.force
      modifies h
      ensures Lowering(j)
    {
      ok := Revalidate(deltas);
      if ok {
        ok := h.Shutdown(h.plan.vm, true);
      }
    }

    /** The wait for an operator's decision once the guest has not shut down in time. */
    method AwaitDecision(j: Job, deltas: Option<map<string, string>>) returns (err: Option<Error>)
      requires Sound(j) && h.w.reg.src == h.plan.vm && h.w.reg.src != 0 && h.w.store.lock == Held(h.plan.id)
      modifies h, j
      ensures Lowering(j)
      ensures GoingDown(j.state.phase)
      ensures err == Some(OperatorStop) ==> j.stop
      ensures err.None? || err == Some(OperatorStop) || err == Some(Failure)
    {
      var action := Ask(j);
      if action.None? {
        return Some(Failure);
      }
      if action.value == Stop {
        return Some(OperatorStop);
      }
      err := Obey(j, action.value, deltas);
    }

    method Obey(j: Job, action: Action, deltas: Option<map<string, string>>) returns (err: Option<Error>)
      requires Sound(j) && h.w.reg.src == h.plan.vm && h.w.reg.src != 0 && h.w.store.lock == Held(h.plan.id)
      requires GoingDown(j.state.phase)
      requires action == Force ==> h.log.view.orders.force
      modifies h, j
      ensures Lowering(j) && GoingDown(j.state.phase)
      ensures err.None? || err == Some(Failure)
    {
      if action == Force {
        var ok := ForceOff(j, deltas);
        if !ok {
          return Some(Failure);
        }
      }
      j.SetPhase(Phase.Shutdown);
      return None;
    }

    /** Asks the operator; what is answered goes into the host's record. */
    method Ask(j: Job) returns (action: Option<Action>)
      requires Sound(j)
      modifies h`log, j`state, j`stop, j`actions, j`approved
      ensures Sound(j) && j.state == old(j.state).(phase := AwaitingShutdown) && (old(j.stop) ==> j.stop)
      ensures h.SameCopy() && h.SameCounts()
      ensures action == Some(Stop) ==> j.stop
      ensures action == Some(Force) ==> h.log.view.orders.force
    {
      j.SetPhase(AwaitingShutdown);
      action := h.Receive(j);
    }

    /** Whether the source is off already, unless a stop was accepted. */
    method SourceState(j: Job) returns (err: Option<Error>, off: bool)
      requires Sound(j) && h.w.reg.src == h.plan.vm && h.w.reg.src != 0
      modifies h, j`stop, j`actions, j`approved
      ensures Lowering(j) && Same(j.state, old(j.state))
      ensures off ==> err.None? && h.w.srcPower == Off
      ensures err == Some(OperatorStop) ==> j.stop
      ensures err.None? || err == Some(OperatorStop) || err == Some(Failure)
      ensures h.reliable && old(h.w).srcPower == Off ==> off || err == Some(OperatorStop)
    {
      var stop := j.StopRequested();
      if stop {
        return Some(OperatorStop), false;
      }
      var power := h.Power(h.plan.vm);
      return if power.None? || power.value == Suspended then Some(Failure) else None, power == Some(Off);
    }

    /** One round of waiting; None in `more` when the wait is over. */
    method AwaitOff(j: Job, deadline: int, deltas: Option<map<string, string>>)
      returns (err: Option<Error>, more: Option<int>)
      requires Sound(j) && h.w.reg.src == h.plan.vm && h.w.reg.src != 0 && h.w.store.lock == Held(h.plan.id)
      requires GoingDown(j.state.phase)
      modifies h, j
      ensures Lowering(j) && GoingDown(j.state.phase)
      ensures more.None? && err.None? ==> h.w.srcPower == Off
      ensures more.Some? ==> err.None? && h.clock.patience < old(h.clock).patience
      ensures err == Some(OperatorStop) ==> j.stop
      ensures err.None? || err == Some(OperatorStop) || err == Some(Failure)
      ensures h.reliable && old(h.w).srcPower == Off ==> more.None? && (err.None? || err == Some(OperatorStop))
    {
      var off: bool;
      err, off := SourceState(j);
      more := None;
      if err.Some? || off {
        return;
      }
      err, more := NextRound(j, deadline, deltas);
    }

    method NextRound(j: Job, deadline: int, deltas: Option<map<string, string>>)
      returns (err: Option<Error>, more: Option<int>)
      requires Sound(j) && h.w.reg.src == h.plan.vm && h.w.reg.src != 0 && h.w.store.lock == Held(h.plan.id)
      requires GoingDown(j.state.phase)
      modifies h, j
      ensures Lowering(j) && GoingDown(j.state.phase)
      ensures more.Some? ==> err.None? && h.clock.patience < old(h.clock).patience
      ensures more.None? ==> err == Some(Failure) || (err == Some(OperatorStop) && j.stop)
    {
      if h.clock.now <= deadline {
        err, more := Rest(deadline);
        return;
      }
      err := AwaitDecision(j, deltas);
      if err.Some? {
        return err, None;
      }
      err, more := Rest(h.clock.now + o.shutdownTimeout);
    }

    /** A pause between two rounds, which the context may end. */
    method Rest(deadline: int) returns (err: Option<Error>, more: Option<int>)
      requires h.Valid()
      modifies h`clock
      ensures h.Valid() && h.clock.now >= old(h.clock).now && h.clock.patience <= old(h.clock).patience
      ensures more.Some? ==> err.None? && h.clock.patience < old(h.clock).patience
      ensures more.None? ==> err == Some(Failure)
    {
      var ok := h.Pause(o.pollInterval);
      return if ok then None else Some(Failure), if ok then Some(deadline) else None;
    }

    method AwaitShutdown(j: Job, deadline: int, deltas: Option<map<string, string>>) returns (err: Option<Error>)
      requires Sound(j) && h.w.reg.src == h.plan.vm && h.w.reg.src != 0 && h.w.store.lock == Held(h.plan.id)
      requires GoingDown(j.state.phase) && (h.reliable ==> h.w.srcPower == Off)
      modifies h, j
      ensures Lowering(j) && GoingDown(j.state.phase)
      ensures err.None? ==> h.w.srcPower == Off
      ensures err == Some(OperatorStop) ==> j.stop
      ensures err.None? || err == Some(OperatorStop) || err == Some(Failure)
      ensures h.reliable ==> err.None? || err == Some(OperatorStop)
    {
      var more := Some(deadline);
      err := None;
      while more.Some?
        invariant Lowering(j) && GoingDown(j.state.phase)
        invariant more.None? && err.None? ==> h.w.srcPower == Off
        invariant err == Some(OperatorStop) ==> j.stop
        invariant err.None? || err == Some(OperatorStop) || err == Some(Failure)
        invariant h.reliable ==> h.w.srcPower == Off && (err.None? || err == Some(OperatorStop))
        decreases more.Some?, h.clock.patience
      {
        err, more := AwaitOff(j, more.value, deltas);
      }
    }

    /** Powers the source off gracefully, and by force only when the operator says so. */
    method Shutdown(j: Job, p: Power, deltas: Option<map<string, string>>) returns (err: Option<Error>)
      requires Sound(j) && h.w.reg.src == h.plan.vm && h.w.reg.src != 0 && h.w.store.lock == Held(h.plan.id)
      requires p == Off ==> h.w.srcPower == Off
      requires h.log.view.guard
      modifies h, j
      ensures Lowering(j)
      ensures j.state.phase == old(j.state).phase || GoingDown(j.state.phase)
      ensures err.None? ==> h.w.srcPower == Off
      ensures err == Some(OperatorStop) ==> j.stop
      ensures err.None? || err == Some(OperatorStop) || err == Some(Failure)
      ensures h.reliable && p != Suspended ==> err.None? || err == Some(OperatorStop)
    {
      if p == Off {
        return None;
      }
      if p != On {
        return Some(Failure);
      }
      j.SetPhase(Phase.Shutdown);
      var ok := h.Shutdown(h.plan.vm, false);
      err := AwaitShutdown(j, if ok then h.clock.now + o.shutdownTimeout else h.clock.now, deltas);
    }

    // Waiting for a clone -------------------------------------------------------------------------

    /** While a clone is watched: nothing is issued that moves anything, and nothing is taken back. */
    twostate predicate Watching(j: Job)
      reads h, j
    {
      && Sound(j) && j.final == old(j.final) && (old(j.stop) ==> j.stop)
      && Same(j.state, old(j.state).(phase := j.state.phase))
      && Steady(old(h.w), h.w) && (h.reliable ==> SamePowers(old(h.w), h.w))
      && h.SameCounts()
      && old(h.clock).now <= h.clock.now
    }

    /** What may be said about the exit of clone `i`: the cause of a stop comes first, then the operator's stop. */
    predicate Tells(stop: bool, cause: Option<Error>, code: nat, err: Option<Error>)
    {
      err == if cause.Some? then cause else if stop then Some(OperatorStop)
             else if code != 0 then Some(CloneFailed(code)) else None
    }

    /** What the watch knows is what was read: the cause, since when the space is unknown, and when a stop was asked
        for. */
    ghost predicate Tracked(j: Job, watch: Watch)
      reads h, j
    {
      var wait := h.log.view.wait;
      && watch.cause == CauseOf(wait.space, watch.since, o.disconnectTimeout)
      && watch.space == LastFree(wait.space, watch.since)
      && (watch.cause.Some? ==> h.plan.live && !h.reliable)
      && (wait.kill.Some? <==> watch.stopBy.Some?)
      && (watch.stopBy.Some? ==>
           watch.stopBy.value <= wait.kill.value + o.disconnectTimeout && (j.stop || watch.cause.Some?))
      && (watch.stopping ==> watch.stopBy.Some?)
    }

    /** What a pause may take, and a whole round of watching: a poll, a space read, a kill and a pause. */
    function RestLimit(): int
    {
      o.pollInterval + h.slack
    }

    function RoundLimit(): int
    {
      3 * COMMAND_LIMIT + RestLimit()
    }

    method WatchSpace(j: Job, watch: Watch) returns (next: Watch)
      requires Sound(j) && Tracked(j, watch)
      modifies h, j`stop, j`actions, j`approved
      ensures Watching(j) && h.SameCopy() && h.Quick() && Tracked(j, next)
      ensures next == watch.(space := next.space, cause := next.cause) &&
                h.log.view.wait.kill == old(h.log).view.wait.kill
    {
      next := watch;
      if !h.plan.live || watch.cause.Some? {
        return;
      }
      var stop := j.StopRequested();
      if stop {
        return;
      }
      next := ReadSpace(watch);
    }

    method ReadSpace(watch: Watch) returns (next: Watch)
      requires h.Valid() && h.plan.live && watch.cause.None?
      requires CauseOf(h.log.view.wait.space, watch.since, o.disconnectTimeout).None?
      requires watch.space == LastFree(h.log.view.wait.space, watch.since)
      modifies h
      ensures h.Valid() && h.Still() && h.Quick()
      ensures Same(h.log.view, old(h.log).view.(wait := old(h.log).view.wait.(space := h.log.view.wait.space)))
      ensures next == watch.(space := next.space, cause := next.cause) && (h.reliable ==> next.cause.None?)
      ensures next.cause == CauseOf(h.log.view.wait.space, watch.since, o.disconnectTimeout)
      ensures next.space == LastFree(h.log.view.wait.space, watch.since)
    {
      ghost var before := h.log.view.wait.space;
      var free := h.SourceFree();
      next := watch;
      if free.Some? {
        next := watch.(space := h.clock.now, cause := if free.value < MIN_SOURCE_FREE then Some(NoSpace) else None);
      } else if h.clock.now - watch.space > o.disconnectTimeout {
        next := watch.(cause := Some(Failure));
      }
      CauseStep(before, Space(free, h.clock.now), watch.since, o.disconnectTimeout);
    }

    method Judge(j: Job, cause: Option<Error>, code: nat) returns (err: Option<Error>)
      requires j.Valid()
      modifies j`stop, j`actions, j`approved
      ensures j.Valid() && (old(j.stop) ==> j.stop) && Tells(j.stop, cause, code, err)
    {
      var stop := j.StopRequested();
      err := if cause.Some? then cause else if stop then Some(OperatorStop)
             else if code != 0 then Some(CloneFailed(code)) else None;
    }

    /** The copy after a wait that ended so. */
    twostate predicate Exited(i: nat, new exit: Option<nat>)
      reads h
    {
      if exit.None? then h.SameCopy() else Same(h.log.view.copy, Polling(old(h.log).view.copy, i, exit.value))
    }

    /** One poll. A failed poll, or a worker that is lost, is never an exit. */
    method Observe(j: Job, i: nat, watch: Watch) returns (next: Watch, end: Option<Ending>)
      requires Sound(j) && Tracked(j, watch)
      modifies h, j
      ensures Watching(j) && Tracked(j, next) && h.clock.now <= old(h.clock).now + 2 * COMMAND_LIMIT
      ensures next.since == watch.since && next.stopBy == watch.stopBy &&
                h.log.view.wait.kill == old(h.log).view.wait.kill
      ensures Exited(i, if end.None? then None else end.value.exit)
      ensures end.Some? ==> next == watch
      ensures end.Some? && end.value.exit.None? ==> end.value.err == Some(Failure)
      ensures end.Some? && end.value.exit.Some? ==>
                Tells(j.stop, watch.cause, end.value.exit.value, end.value.err) && j.state.phase == Cloning
      ensures h.reliable && i in old(h.w).clones && old(h.w).clones[i].Running? ==>
                end.Some? && end.value.exit == Some(0)
    {
      var status := h.CloneStatus(i);
      if status.None? {
        next := watch;
        end := Miss(j, watch);
        return;
      }
      next, end := Read(j, watch, status.value);
    }

    /** A poll that failed. */
    method Miss(j: Job, watch: Watch) returns (end: Option<Ending>)
      requires j.Valid()
      modifies j
      ensures j.Valid() && (old(j.stop) ==> j.stop) && j.final == old(j.final)
      ensures Same(j.state, old(j.state).(phase := j.state.phase))
      ensures end.None? || end == Some(Ending(None, Some(Failure)))
    {
      if h.clock.now - watch.contact > o.disconnectTimeout {
        return Some(Ending(None, Some(Failure)));
      }
      j.SetPhase(Reconnecting);
      end := None;
    }

    /** What a poll that came through says. */
    method Read(j: Job, watch: Watch, status: Status) returns (next: Watch, end: Option<Ending>)
      requires Sound(j) && Tracked(j, watch)
      modifies h, j
      ensures Watching(j) && h.SameCopy() && h.Quick() && Tracked(j, next)
      ensures next.since == watch.since && next.stopBy == watch.stopBy &&
                h.log.view.wait.kill == old(h.log).view.wait.kill
      ensures end.Some? ==> next == watch
      ensures status.Done? ==>
                && end.Some? && end.value.exit == Some(status.code)
                && Tells(j.stop, watch.cause, status.code, end.value.err) && j.state.phase == Cloning
      ensures status.Alive? && end.Some? ==> end.value == Ending(None, Some(Failure))
    {
      j.SetPhase(Cloning);
      if status.Done? {
        var err := Judge(j, watch.cause, status.code);
        return watch, Some(Ending(Some(status.code), err));
      }
      if !status.logged && h.clock.now - watch.since > o.disconnectTimeout {
        return watch, Some(Ending(None, Some(Failure)));
      }
      next := WatchSpace(j, watch.(contact := h.clock.now));
      end := None;
    }

    /** A successful kill does not prove an exit: the marker is still awaited, until the stop deadline, which is set
        when the first kill is sent and kept. */
    method Halt(j: Job, i: nat, watch: Watch) returns (next: Watch, late: bool)
      requires Sound(j) && Tracked(j, watch) && h.w.store.lock == Held(h.plan.id)
      modifies h, j`stop, j`actions, j`approved
      ensures Watching(j) && h.SameCopy() && h.Quick() && Tracked(j, next)
      ensures next.since == watch.since && next.cause == watch.cause &&
                (watch.stopBy.Some? ==> next.stopBy == watch.stopBy)
      ensures old(h.log).view.wait.kill.Some? ==> h.log.view.wait.kill == old(h.log).view.wait.kill
      ensures h.log.view.wait.kill.Some? ==>
                old(h.log).view.wait.kill.Some? || h.log.view.wait.kill.value == h.clock.now
      ensures old(j.stop) || watch.cause.Some? ==> next.stopBy.Some?
      ensures (old(j.stop) || watch.cause.Some?) && !watch.stopping ==> h.LastWas(Kill(i, h.clock.now))
      ensures !late && next.stopBy.Some? ==> h.clock.now <= next.stopBy.value
    {
      var stop := j.StopRequested();
      if !stop && watch.cause.None? {
        return watch, false;
      }
      next, late := Stopping(i, watch);
    }

    method Stopping(i: nat, watch: Watch) returns (next: Watch, late: bool)
      requires h.Valid() && h.log.safe && h.log.owned && h.w.store.lock == Held(h.plan.id)
      requires watch.stopping ==> watch.stopBy.Some?
      modifies h
      ensures h.Valid() && h.log.safe && h.log.owned && Steady(old(h.w), h.w) &&
                (h.reliable ==> SamePowers(old(h.w), h.w))
      ensures old(h.clock).now <= h.clock.now && h.Quick()
      ensures Same(h.log.view, old(h.log).view.(wait := old(h.log).view.wait.(kill := h.log.view.wait.kill)))
      ensures next == watch.(stopBy := next.stopBy, stopping := next.stopping) && next.stopBy.Some?
      ensures watch.stopBy.Some? ==> next.stopBy == watch.stopBy
      ensures watch.stopBy.None? ==> next.stopBy == Some(old(h.clock).now + o.disconnectTimeout)
      ensures if watch.stopping || old(h.log).view.wait.kill.Some? then h.log.view.wait.kill ==
                old(h.log).view.wait.kill
              else h.log.view.wait.kill == Some(h.clock.now)
      ensures !watch.stopping ==> h.LastWas(Kill(i, h.clock.now))
      ensures late <==> h.clock.now > next.stopBy.value
    {
      next := if watch.stopBy.Some? then watch else watch.(stopBy := Some(h.clock.now + o.disconnectTimeout));
      if !next.stopping {
        var ok := h.StopClone(i);
        next := next.(stopping := ok);
      }
      late := h.clock.now > next.stopBy.value;
    }

    /** A poll, a stop where one is wanted, and a pause. */
    method Round(j: Job, i: nat, watch: Watch) returns (next: Watch, end: Option<Ending>)
      requires Sound(j) && Tracked(j, watch) && h.w.store.lock == Held(h.plan.id)
      requires watch.cause.Some? ==> watch.stopBy.Some?
      modifies h, j
      ensures Watching(j) && Tracked(j, next) && next.since == watch.since
      ensures InRound() && Exited(i, if end.None? then None else end.value.exit)
      ensures next.cause.Some? ==> next.stopBy.Some?
      ensures end.None? ==> h.clock.now > old(h.clock).now && (old(j.stop) ==> h.log.view.wait.kill.Some?)
      ensures end.None? && next.stopBy.Some? ==> h.clock.now <= next.stopBy.value + RestLimit()
      ensures end.Some? && end.value.exit.None? ==> end.value.err == Some(Failure)
      ensures end.Some? && end.value.exit.Some? ==>
                Tells(j.stop, next.cause, end.value.exit.value, end.value.err) && j.state.phase == Cloning
      ensures h.reliable && i in old(h.w).clones && old(h.w).clones[i].Running? ==>
                end.Some? && end.value.exit == Some(0)
    {
      next, end := Observe(j, i, watch);
      if end.None? {
        next, end := HaltAndRest(j, i, next);
      }
    }

    /** A round takes no longer than its parts; in it the first kill is set at most once, and kept. */
    twostate predicate InRound()
      reads h
    {
      var was, kill := old(h.log).view.wait.kill, h.log.view.wait.kill;
      && h.clock.now <= old(h.clock).now + RoundLimit()
      && (was.Some? ==> kill == was)
      && (was.None? && kill.Some? ==>
           kill.value <= old(h.clock).now + RoundLimit() && h.clock.now <= kill.value + RestLimit())
    }

    method HaltAndRest(j: Job, i: nat, watch: Watch) returns (next: Watch, end: Option<Ending>)
      requires Sound(j) && Tracked(j, watch) && h.w.store.lock == Held(h.plan.id)
      modifies h, j`stop, j`actions, j`approved
      ensures Watching(j) && h.SameCopy() && Tracked(j, next) && next.since == watch.since && next.cause == watch.cause
      ensures h.clock.now <= old(h.clock).now + COMMAND_LIMIT + RestLimit()
      ensures old(h.log).view.wait.kill.Some? ==> h.log.view.wait.kill == old(h.log).view.wait.kill
      ensures old(h.log).view.wait.kill.None? && h.log.view.wait.kill.Some? ==>
                && h.log.view.wait.kill.value <= h.clock.now <= h.log.view.wait.kill.value + RestLimit()
      ensures old(j.stop) || watch.cause.Some? ==> next.stopBy.Some?
      ensures end.None? ==> h.clock.now > old(h.clock).now
      ensures end.None? && next.stopBy.Some? ==> h.clock.now <= next.stopBy.value + RestLimit()
      ensures end.Some? ==> end.value == Ending(None, Some(Failure))
    {
      var late: bool;
      next, late := Halt(j, i, watch);
      if late {
        return next, Some(Ending(None, Some(Failure)));
      }
      var ok := h.Pause(o.pollInterval);
      end := if ok then None else Some(Ending(None, Some(Failure)));
    }

    /** When a wait that began at `since` has ended at the latest: after the clone deadline, and once the clone was told
        to stop after the stop deadline, with what was under way finished. */
    ghost predicate InTime(stopped: bool, since: int)
      reads h
    {
      var kill := h.log.view.wait.kill;
      && h.clock.now <= since + Least0(o.cloneTimeout) + RoundLimit()
      && (kill.Some? ==> h.clock.now <= kill.value + Least0(o.disconnectTimeout) + RestLimit() + RoundLimit())
      && (stopped ==> h.clock.now <= since + Least0(o.disconnectTimeout) + RestLimit() + 2 * RoundLimit())
    }

    function Least0(n: int): int
    {
      if n < 0 then 0 else n
    }

    /** The same between two rounds. */
    ghost predicate OnTime(stopped: bool, watch: Watch)
      reads h
    {
      var kill := h.log.view.wait.kill;
      && h.clock.now <= watch.since + Least0(o.cloneTimeout) + RoundLimit()
      && (kill.Some? ==> h.clock.now <= kill.value + o.disconnectTimeout + RestLimit())
      && (stopped ==> if kill.None? then h.clock.now == watch.since else kill.value <= watch.since + RoundLimit())
    }

    /** The wait goes on. */
    ghost predicate Going(j: Job, watch: Watch, stopped: bool)
      reads h, j
    {
      && Tracked(j, watch) && OnTime(stopped, watch) && watch.since <= h.clock.now && h.w.store.lock == Held(h.plan.id)
      && (watch.cause.Some? ==> watch.stopBy.Some?) && (stopped ==> j.stop)
    }

    /** A round that begins before the clone deadline. */
    method TimedRound(j: Job, i: nat, watch: Watch, ghost stopped: bool) returns (next: Watch, end: Option<Ending>)
      requires Sound(j) && Going(j, watch, stopped) && h.clock.now < watch.since + o.cloneTimeout
      modifies h, j
      ensures Watching(j) && next.since == watch.since
      ensures if end.None? then Going(j, next, stopped) && h.clock.now > old(h.clock).now
              else InTime(stopped, watch.since) && (next.cause.Some? ==> h.log.view.wait.kill.Some?)
      ensures next.cause == Reason(watch.since) && (next.cause.Some? ==> h.plan.live && !h.reliable)
      ensures Exited(i, if end.None? then None else end.value.exit)
      ensures end.Some? && end.value.exit.None? ==> end.value.err == Some(Failure)
      ensures end.Some? && end.value.exit.Some? ==>
                Tells(j.stop, next.cause, end.value.exit.value, end.value.err) && j.state.phase == Cloning
      ensures h.reliable && i in old(h.w).clones && old(h.w).clones[i].Running? ==>
                end.Some? && end.value.exit == Some(0)
    {
      next, end := Round(j, i, watch);
    }

    method Rounds(j: Job, i: nat, watch: Watch, ghost stopped: bool) returns (next: Watch, end: Option<Ending>)
      requires Sound(j) && Going(j, watch, stopped)
      modifies h, j
      ensures Watching(j) && next.since == watch.since
      ensures end.None? ==> Going(j, next, stopped) && h.SameCopy()
      ensures end.Some? ==> InTime(stopped, watch.since) && (next.cause.Some? ==> h.log.view.wait.kill.Some?)
      ensures next.cause == Reason(watch.since) && (next.cause.Some? ==> h.plan.live && !h.reliable)
      ensures Exited(i, if end.None? then None else end.value.exit)
      ensures end.Some? && end.value.exit.None? ==> end.value.err == Some(Failure)
      ensures end.Some? && end.value.exit.Some? ==>
                Tells(j.stop, next.cause, end.value.exit.value, end.value.err) && j.state.phase == Cloning
      ensures h.reliable && old(h.clock).now < watch.since + o.cloneTimeout && i in old(h.w).clones &&
                old(h.w).clones[i].Running? ==>
                end.Some? && end.value.exit == Some(0)
    {
      next, end := watch, None;
      while h.clock.now < watch.since + o.cloneTimeout
        invariant end.None? && Watching(j) && h.SameCopy() && next.since == watch.since && Going(j, next, stopped)
        invariant h.reliable && old(h.clock).now < watch.since + o.cloneTimeout && i in old(h.w).clones &&
                    old(h.w).clones[i].Running? ==>
                    i in h.w.clones && h.w.clones[i].Running? && h.clock == old(h.clock)
        decreases watch.since + o.cloneTimeout - h.clock.now
      {
        next, end := TimedRound(j, i, next, stopped);
        if end.Some? {
          return;
        }
      }
    }

    method Watched(j: Job, i: nat) returns (end: Ending)
      requires Sound(j) && h.w.store.lock == Held(h.plan.id) && h.log.view.wait == Waiting([], None)
      modifies h, j
      ensures Watching(j) && InTime(old(j.stop), old(h.clock).now) && Exited(i, end.exit)
      ensures end.exit.None? ==>
                end.err == Some(Failure) && (Reason(old(h.clock).now).Some? ==> h.log.view.wait.kill.Some?)
      ensures end.exit.Some? ==>
                j.state.phase == Cloning && Tells(j.stop, Reason(old(h.clock).now), end.exit.value, end.err)
      ensures Reason(old(h.clock).now).Some? ==> h.plan.live && !h.reliable
      ensures h.reliable && o.cloneTimeout >= 1 && i in old(h.w).clones && old(h.w).clones[i].Running? ==>
                end.exit == Some(0)
    {
      var watch := Watch(h.clock.now, h.clock.now, h.clock.now, None, None, false);
      var ended: Option<Ending>;
      watch, ended := Rounds(j, i, watch, j.stop);
      return if ended.Some? then ended.value else Ending(None, Some(Failure));
    }

    /** The cause the space reads of a wait that began at `since` give to stop the clone. */
    ghost function Reason(since: int): Option<Error>
      reads h
    {
      CauseOf(h.log.view.wait.space, since, o.disconnectTimeout)
    }

    /** `waitClone`, right after a launch: waits for the exit marker of clone `i`, and only that proves an exit. There
        is no error exactly for exit 0 without a stop and without a short or blind space read; it ends within the
        deadlines whatever the host replies; and it launches nothing. */
    method WaitClone(j: Job, i: nat) returns (exit: Option<nat>, err: Option<Error>)
      requires Sound(j) && h.w.store.lock == Held(h.plan.id) && h.log.view.wait == Waiting([], None)
      modifies h, j
      ensures Watching(j) && InTime(old(j.stop), old(h.clock).now) && Exited(i, exit)
      ensures exit.None? ==> err == Some(Failure) && j.state.phase == Unknown
      ensures exit.None? && Reason(old(h.clock).now).Some? ==> h.log.view.wait.kill.Some?
      ensures exit.Some? ==> j.state.phase == Cloning && Tells(j.stop, Reason(old(h.clock).now), exit.value, err)
      ensures err.None? <==> exit == Some(0) && !j.stop && Reason(old(h.clock).now).None?
      ensures err == Some(OperatorStop) ==> exit.Some? && j.stop
      ensures err.Some? ==> !err.value.Restored?
      ensures h.reliable && o.cloneTimeout >= 1 && i in old(h.w).clones && old(h.w).clones[i].Running? ==>
                if j.stop then err == Some(OperatorStop) else err.None?
    {
      var end := Watched(j, i);
      exit, err := end.exit, end.err;
      if exit.None? {
        j.SetPhase(Unknown);
      }
    }

    // Verifying the target ------------------------------------------------------------------------

    /** Only checks passed, and none was taken back. */
    twostate predicate Checking()
      reads h
    {
      && h.Valid() && h.Still() && h.SameRest()
      && Same(h.log.view.copy, old(h.log).view.copy.(passed := h.log.view.copy.passed, again := h.log.view.copy.again))
      && old(h.log).view.copy.passed <= h.log.view.copy.passed && old(h.log).view.copy.again <= h.log.view.copy.again
    }

    /** The clone's checks passed after it ended well. */
    predicate Verified(v: Copied, i: nat)
    {
      i in v.zero ==> FirstVerified(v, i)
    }

    /** And since the target VMX was last read. */
    predicate VerifiedAgain(v: Copied, i: nat)
    {
      i in v.zero ==> (Chain, i) in v.again && (Shape, i) in v.again && (Check.Size, i) in v.again
    }

    lemma VerifiedStays(a: Copied, b: Copied, n: nat)
      requires a.zero == b.zero && a.again <= b.again
      requires forall i :: 0 <= i < n ==> VerifiedAgain(a, i)
      ensures forall i :: 0 <= i < n ==> VerifiedAgain(b, i)
    {
      forall i | 0 <= i < n ensures VerifiedAgain(b, i) {
        assert VerifiedAgain(a, i);
      }
    }

    /** What a reliable host's clones leave passes the checks. */
    ghost predicate Made()
    {
      h.reliable ==>
        && |h.made| == |h.plan.disks|
        && forall i :: 0 <= i < |h.made| ==>
             GoodShape(h.plan.disks[i], h.made[i]) && Lower(h.made[i].cid) == Lower(h.plan.disks[i].cid)
    }

    /** `verifyDisk`: a consistent chain, a thin standalone descriptor of the reviewed capacity, and an extent of
        that size next to it. */
    method VerifyDisk(i: nat) returns (ok: bool)
      requires h.Valid() && i < |h.plan.disks| && Made()
      modifies h
      ensures Checking()
      ensures ok ==> Verified(h.log.view.copy, i) && VerifiedAgain(h.log.view.copy, i)
      ensures h.reliable ==> ok
    {
      ok := VerifyShape(i);
      if ok {
        ok := VerifySize(i);
      }
    }

    method VerifyShape(i: nat) returns (ok: bool)
      requires h.Valid() && i < |h.plan.disks| && Made()
      modifies h
      ensures Checking()
      ensures ok && i in h.log.view.copy.zero ==>
                (Chain, i) in h.log.view.copy.passed && (Shape, i) in h.log.view.copy.passed
      ensures ok && i in h.log.view.copy.zero ==>
                (Chain, i) in h.log.view.copy.again && (Shape, i) in h.log.view.copy.again
      ensures h.reliable ==> ok
    {
      ok := h.VerifyChain(i, false);
      if !ok {
        return;
      }
      var d := h.ReadDescriptor(i, Shape);
      ok := h.Good(Shape, i, d);
    }

    method VerifySize(i: nat) returns (ok: bool)
      requires h.Valid() && i < |h.plan.disks|
      modifies h
      ensures Checking()
      ensures ok && i in h.log.view.copy.zero ==>
                (Check.Size, i) in h.log.view.copy.passed && (Check.Size, i) in h.log.view.copy.again
      ensures h.reliable ==> ok
    {
      ok := h.Lookup();
      if ok {
        ok := CompareSize(i);
      }
    }

    method CompareSize(i: nat) returns (ok: bool)
      requires h.Valid() && i < |h.plan.disks|
      modifies h
      ensures Checking()
      ensures ok && i in h.log.view.copy.zero ==>
                (Check.Size, i) in h.log.view.copy.passed && (Check.Size, i) in h.log.view.copy.again
      ensures h.reliable ==> ok
    {
      var n := h.Size(i);
      ok := n == Some(h.plan.disks[i].provisioned);
    }

    method VerifyDisks() returns (ok: bool)
      requires h.Valid() && Made()
      modifies h
      ensures Checking()
      ensures ok ==> forall i :: 0 <= i < |h.plan.disks| ==> VerifiedAgain(h.log.view.copy, i)
      ensures h.reliable ==> ok
    {
      var i := 0;
      ok := true;
      while i < |h.plan.disks| && ok
        invariant 0 <= i <= |h.plan.disks| && Checking()
        invariant ok ==> forall k :: 0 <= k < i ==> VerifiedAgain(h.log.view.copy, k)
        invariant h.reliable ==> ok
      {
        ghost var before := h.log.view.copy;
        ok := VerifyDisk(i);
        VerifiedStays(before, h.log.view.copy, i);
        i := i + 1;
      }
    }

    // The target's configuration ------------------------------------------------------------------

    /** No file went away or changed. */
    predicate Keeps(a: map<string, string>, b: map<string, string>)
    {
      forall p :: p in a ==> p in b && b[p] == a[p]
    }

    /** Only new files appear in the target folder. */
    twostate predicate Filing()
      reads h
    {
      && h.Valid() && (old(h.log).safe ==> h.log.safe)
      && (old(h.log).owned && old(h.w).store.lock == Held(h.plan.id) ==> h.log.owned)
      && SameRegistrations(old(h.w), h.w) && SourcePower(old(h.w), h.w) && TargetPower(old(h.w), h.w)
      && (h.reliable ==> SamePowers(old(h.w), h.w))
      && Same(h.w.trees, old(h.w).trees.(dstVmx := h.w.trees.dstVmx))
      && Same(h.w.store, old(h.w).store.(files := h.w.store.files)) && Keeps(old(h.w).store.files, h.w.store.files)
      && Same(h.w.clones.Keys, old(h.w).clones.Keys)
      && Same(h.log.view, old(h.log).view.(copy := h.log.view.copy, guard := h.log.view.guard))
      && Same(h.log.view.copy, old(h.log).view.copy.(config := h.log.view.copy.config, again := h.log.view.copy.again))
      && old(h.clock).now <= h.clock.now && h.clock.patience == old(h.clock).patience
    }

    /** The files to copy are there, and nothing is in the way of the new ones from the `n`th on. */
    ghost predicate Clear(files: map<string, string>, n: nat)
    {
      var c := h.plan.configFiles;
      && (forall i :: n <= i < |c| ==> c[i].source in files && c[i].target !in files && c[i].target != h.plan.targetVmx)
      && (forall i, j :: n <= i < j < |c| ==> c[i].target != c[j].target)
      && h.plan.targetVmx !in files
    }

    predicate Copy(files: map<string, string>, f: ConfigFile)
    {
      f.source in files && f.target in files && files[f.target] == files[f.source]
    }

    method CopyFile(f: ConfigFile) returns (ok: bool)
      requires h.Valid()
      modifies h
      ensures Filing()
      ensures forall p :: p != f.target && p !in old(h.w).store.files ==> p !in h.w.store.files
      ensures ok ==> Copy(h.w.store.files, f)
      ensures h.reliable && f.source in old(h.w).store.files && f.target !in old(h.w).store.files ==> ok
    {
      var data := h.ReadFile(f.source);
      if data.None? {
        return false;
      }
      ok := Place(f.target, data.value);
    }

    method Place(path: string, text: string) returns (ok: bool)
      requires h.Valid()
      modifies h
      ensures Filing()
      ensures forall p :: p != path && p !in old(h.w).store.files ==> p !in h.w.store.files
      ensures ok ==> path in h.w.store.files && h.w.store.files[path] == text
      ensures h.reliable && path !in old(h.w).store.files ==> ok
    {
      ok := h.WriteTarget(path, text);
      if !ok {
        return;
      }
      var target := h.ReadFile(path);
      ok := target == Some(text);
    }

    /** Every selected configuration file has its copy. */
    predicate FilesCopied()
      reads h
    {
      forall f :: f in h.plan.configFiles ==> Copy(h.w.store.files, f)
    }

    /** On success every selected configuration file has its copy. */
    method CopyFiles() returns (ok: bool)
      requires h.Valid()
      modifies h
      ensures Filing()
      ensures ok ==> FilesCopied()
      ensures h.reliable && Clear(old(h.w).store.files, 0) ==> ok && h.plan.targetVmx !in h.w.store.files
    {
      ok := true;
      var i := 0;
      while i < |h.plan.configFiles| && ok
        invariant 0 <= i <= |h.plan.configFiles| && Filing()
        invariant ok ==> forall k :: 0 <= k < i ==> Copy(h.w.store.files, h.plan.configFiles[k])
        invariant h.reliable && Clear(old(h.w).store.files, 0) ==> ok && Clear(h.w.store.files, i)
      {
        ok := CopyFile(h.plan.configFiles[i]);
        i := i + 1;
      }
    }

    predicate LegalKeys(c: Config)
    {
      forall k :: k in c ==> LegalKey(k)
    }

    /** Writes the target VMX, reads it back and compares it with what was reviewed. */
    method WriteVmx(config: Config, names: map<string, string>) returns (ok: bool)
      requires h.Valid() && LegalKeys(config)
      modifies h
      ensures Filing()
      ensures ok ==> h.log.view.copy.config == Some(config)
      ensures ok ==> Acceptable(h.plan, config, names)
      ensures h.reliable && h.plan.targetVmx !in old(h.w).store.files && Legal(config) && Fits(config) &&
              Acceptable(h.plan, config, names)
              ==> ok
    {
      var text := String(config);
      if Legal(config) {
        ParsePrint(config, text);
      }
      var raw := PutVmx(text);
      if raw.None? {
        return false;
      }
      ok := Matches(raw.value, config, names);
    }

    method PutVmx(text: string) returns (raw: Option<string>)
      requires h.Valid()
      modifies h
      ensures Filing()
      ensures raw.Some? ==> h.log.view.copy.config == Parsed(raw.value)
      ensures h.reliable && h.plan.targetVmx !in old(h.w).store.files ==> raw == Some(text)
    {
      var ok := h.WriteTarget(h.plan.targetVmx, text);
      if !ok {
        return None;
      }
      raw := h.ReadFile(h.plan.targetVmx);
    }

    /** The comparison of the printed forms is a comparison of the configurations. */
    method Matches(raw: string, config: Config, names: map<string, string>) returns (ok: bool)
      requires LegalKeys(config)
      ensures ok <==> Parsed(raw) == Some(config) && Acceptable(h.plan, config, names)
    {
      var parsed := Parse(raw);
      if parsed.None? {
        return false;
      }
      var text := String(config);
      var again := String(parsed.value);
      ParsedIsLegal(raw);
      ComparePrints(parsed.value, again, config, text);
      if again != text {
        return false;
      }
      ok := Accept(h.plan, parsed.value, names);
    }

    /** `copyConfig`: on success the last read of the target VMX was exactly the configuration given. */
    method CopyConfig(config: Config, names: map<string, string>) returns (ok: bool)
      requires h.Valid() && LegalKeys(config)
      modifies h
      ensures Filing()
      ensures ok ==> h.log.view.copy.config == Some(config) && Acceptable(h.plan, config, names) && FilesCopied()
      ensures h.reliable && Clear(old(h.w).store.files, 0) && Legal(config) && Fits(config) &&
              Acceptable(h.plan, config, names)
              ==> ok
    {
      ok := CopyFiles();
      if ok {
        ok := WriteVmx(config, names);
      }
    }

    // Switching the registration ------------------------------------------------------------------

    /** While registrations are switched: the rest of the host is left alone, and so is the rest of the job. */
    twostate predicate Switching(j: Job)
      reads h, j
    {
      && Sound(j) && j.final == old(j.final) && (old(j.stop) ==> j.stop)
      && (j.state.phase == old(j.state).phase || j.state.phase == Phase.Commit)
      && SourcePower(old(h.w), h.w) && SameFiles(old(h.w), h.w)
      && Same(h.w.trees, old(h.w).trees.(dst := h.w.trees.dst))
      && Same(h.w.clones.Keys, old(h.w).clones.Keys)
      && h.SameCopy() && h.clock.patience == old(h.clock).patience
      && Same(j.state, old(j.state).(phase := j.state.phase, source := j.state.source, target := j.state.target,
                                     targetId := j.state.targetId, canRollback := j.state.canRollback))
    }

    ghost predicate Owned(w: World)
    {
      w.store.lock == Held(h.plan.id)
    }

    /** The source alone is registered and off. */
    predicate SourceOnly(w: World)
    {
      w.reg.src != 0 && w.reg.dst == 0 && w.srcPower == Off
    }

    /** The target alone is registered; the source is off. */
    predicate TargetOnly(w: World)
    {
      w.reg.src == 0 && w.reg.dst != 0 && w.srcPower == Off
    }

    predicate Neither(w: World)
    {
      w.reg.src == 0 && w.reg.dst == 0 && w.srcPower == Off
    }

    /** Reads both registrations and publishes them. */
    method Reconcile(j: Job) returns (r: Option<(nat, nat)>)
      requires h.Valid() && j.Valid()
      modifies h, j`state, j`stop, j`actions, j`approved
      ensures h.Valid() && j.Valid() && h.Still() &&
                Same(h.log.view, old(h.log).view.(inventory := h.log.view.inventory)) && (old(j.stop) ==> j.stop)
      ensures r.Some? ==>
                h.log.view.inventory == r && r.value == (h.w.reg.src, h.w.reg.dst) &&
                Same(j.state, Published(old(j.state), h.w.reg.src, h.w.reg.dst))
      ensures r.None? ==> Same(j.state, old(j.state))
      ensures h.reliable ==> r.Some?
    {
      r := Registrations();
      if r.Some? {
        j.Update(Published(j.state, r.value.0, r.value.1));
      }
    }

    /** Takes the source out of the inventory. */
    method Leave(j: Job) returns (ok: bool)
      requires Sound(j) && Owned(h.w) && SourceOnly(h.w) && h.w.reg.src == h.plan.vm && h.plan.move
      requires h.log.view.low == Some(h.plan.vm) && TargetVerified(h.plan, h.log.view.copy)
      requires j.state.target != Registered
      requires h.plan.live || h.log.view.guard
      requires h.log.view.inventory == Some((h.plan.vm, 0))
      modifies h, j
      ensures Switching(j) && j.state.canRollback == old(j.state).canRollback
      ensures Truthful(j.state, h.w) && h.w.reg.dst == 0 && h.log.view.counts.unregistered ==
                old(h.log).view.counts.unregistered + 1
      ensures ok ==> Neither(h.w) && j.state.source == NotRegistered && j.state.target == NotRegistered
      ensures h.reliable ==> ok
      ensures ok ==> h.log.view.inventory == Some((0, 0))
    {
      j.Update(j.state.(phase := Phase.Commit, source := Unconfirmed));
      var _ := h.Unregister(h.plan.vm);
      var r := Reconcile(j);
      ok := r == Some((0, 0));
    }

    /** Puts the target into the inventory; on a confirmed failure the source again. */
    method Enter(j: Job) returns (id: nat)
      requires Sound(j) && Owned(h.w) && Neither(h.w) && h.plan.move && TargetVerified(h.plan, h.log.view.copy)
      requires j.state.source == NotRegistered && j.state.target == NotRegistered
      requires h.log.view.inventory == Some((0, 0))
      modifies h, j
      ensures Switching(j) && j.state.canRollback == old(j.state).canRollback && Truthful(j.state, h.w)
      ensures h.log.view.counts.unregistered == old(h.log).view.counts.unregistered
      ensures id != 0 ==>
                TargetOnly(h.w) && id == h.w.reg.dst == j.state.targetId && j.state.target == Registered &&
                j.state.source == NotRegistered
      ensures h.reliable ==>
                id != 0 && h.w.dstPower == Off && h.w.trees.dst == (if h.plan.live then [h.plan.snapshot] else [])
      ensures h.w.reg.src == 0 || h.w.reg.dst == 0
    {
      var r := Enlist(j);
      if r.None? || r.value.0 != 0 {
        return 0;
      }
      if r.value.1 == 0 {
        Undo(j);
        return 0;
      }
      id := r.value.1;
    }

    method Enlist(j: Job) returns (r: Option<(nat, nat)>)
      requires Sound(j) && Owned(h.w) && Neither(h.w) && h.plan.move && TargetVerified(h.plan, h.log.view.copy)
      requires j.state.source == NotRegistered
      requires h.log.view.inventory == Some((0, 0))
      modifies h, j
      ensures Switching(j) && j.state.canRollback == old(j.state).canRollback && Truthful(j.state, h.w)
      ensures h.log.view.counts.unregistered == old(h.log).view.counts.unregistered && h.w.reg.src == 0 &&
                h.w.srcPower == Off
      ensures r.Some? ==>
                r.value == (h.w.reg.src, h.w.reg.dst) && j.state == Published(j.state, h.w.reg.src, h.w.reg.dst)
      ensures h.reliable ==>
                r.Some? && h.w.reg.dst != 0 && h.w.dstPower == Off &&
                h.w.trees.dst == (if h.plan.live then [h.plan.snapshot] else [])
      ensures r.Some? ==> h.log.view.inventory == r
    {
      var _ := h.Register(Target);
      j.Update(j.state.(target := Unconfirmed));
      r := Reconcile(j);
    }

    method Undo(j: Job)
      requires Sound(j) && Owned(h.w) && Neither(h.w) && h.log.view.copy.pending == {}
      requires h.log.view.inventory == Some((0, 0))
      modifies h, j
      ensures Switching(j) && j.state.canRollback == old(j.state).canRollback && Truthful(j.state, h.w)
      ensures h.w.reg.dst == 0 && h.log.view.counts.unregistered == old(h.log).view.counts.unregistered
      ensures h.reliable ==> h.w.reg.src != 0 && j.state.source == Registered
    {
      j.Update(j.state.(target := NotRegistered, source := Unconfirmed));
      var _ := h.Register(Source);
      var _ := Reconcile(j);
    }

    /** The last look before the switch: the source is the registered VM and off, the target is not registered. */
    method MaySwitch() returns (ok: bool)
      requires h.Valid()
      modifies h
      ensures h.Valid() && h.Still() &&
                Same(h.log.view, old(h.log).view.(inventory := h.log.view.inventory, low := h.log.view.low))
      ensures ok ==> h.log.view.inventory == Some((h.plan.vm, 0))
      ensures ok ==> SourceOnly(h.w) && h.w.reg.src == h.plan.vm && h.log.view.low == Some(h.plan.vm)
      ensures h.reliable && SourceOnly(h.w) && h.w.reg.src == h.plan.vm ==> ok
    {
      var r := Registrations();
      if r.None? || r.value.0 != h.plan.vm || r.value.1 != 0 {
        return false;
      }
      var err := RequireOff(h.plan.vm);
      ok := err.None?;
    }

    method Confirm(j: Job, id: nat) returns (ok: bool)
      requires Sound(j) && TargetOnly(h.w) && id == h.w.reg.dst
      requires j.state.source == NotRegistered
      modifies h, j
      ensures Switching(j) && SameRegistrations(old(h.w), h.w) && SameTrees(old(h.w), h.w) && h.SameCounts()
      ensures j.state == old(j.state).(target := Registered, targetId := id, canRollback := true)
      ensures ok ==> h.w.dstPower == Off
      ensures h.reliable && old(h.w).dstPower == Off ==> ok
    {
      j.Update(j.state.(target := Registered, targetId := id, canRollback := true));
      var p := h.Power(id);
      ok := p == Some(Off);
    }

    /** The second half of the switch. */
    method Install(j: Job) returns (ok: bool)
      requires Sound(j) && Owned(h.w) && Neither(h.w) && h.plan.move && TargetVerified(h.plan, h.log.view.copy)
      requires j.state.source == NotRegistered && j.state.target == NotRegistered
      requires h.log.view.inventory == Some((0, 0))
      modifies h, j
      ensures Switching(j) && Truthful(j.state, h.w) && h.log.view.counts.unregistered ==
                old(h.log).view.counts.unregistered
      ensures j.state.canRollback == old(j.state).canRollback || (TargetOnly(h.w) && Switched(j.state, h.w))
      ensures ok ==> TargetOnly(h.w) && h.w.dstPower == Off && Switched(j.state, h.w)
      ensures h.reliable ==> ok && h.w.trees.dst == (if h.plan.live then [h.plan.snapshot] else [])
      ensures h.w.reg.src == 0 || h.w.reg.dst == 0
    {
      var id := Enter(j);
      if id == 0 {
        return false;
      }
      ok := Confirm(j, id);
    }

    predicate Switched(s: State, w: World)
    {
      s.source == NotRegistered && s.target == Registered && s.targetId == w.reg.dst && s.canRollback
    }

    /** Switches the registration from the source to the target. Both are never registered together, the published
        registrations are true on every return, and success means that the target alone is registered. */
    method Commit(j: Job) returns (ok: bool)
      requires Sound(j) && Owned(h.w) && h.plan.move
      requires j.state.targetVerified ==> TargetVerified(h.plan, h.log.view.copy)
      requires j.state.target != Registered
      requires h.plan.live || h.log.view.guard
      modifies h, j
      ensures Switching(j) && h.log.view.counts.unregistered <= old(h.log).view.counts.unregistered + 1
      ensures old(Truthful(j.state, h.w)) || h.log.view.counts.registration > old(h.log).view.counts.registration ==>
                Truthful(j.state, h.w)
      ensures j.state.canRollback == old(j.state).canRollback || (TargetOnly(h.w) && Switched(j.state, h.w))
      ensures ok ==> TargetOnly(h.w) && h.w.dstPower == Off && Switched(j.state, h.w)
      ensures h.reliable && old(j.state).targetVerified && SourceOnly(old(h.w)) && old(h.w).reg.src == h.plan.vm ==>
                ok && h.w.trees.dst == if h.plan.live then [h.plan.snapshot] else []
      ensures h.log.view.counts.registration > old(h.log).view.counts.registration ==>
                h.w.reg.src == 0 || h.w.reg.dst == 0
    {
      if !j.state.targetVerified {
        return false;
      }
      ok := MaySwitch();
      if !ok {
        return;
      }
      ok := Leave(j);
      if ok {
        ok := Install(j);
      }
    }

    // Starting the target -------------------------------------------------------------------------

    /** While the target is started: no registration moves and the source stays as it is. */
    twostate predicate Starting(j: Job)
      reads h, j
    {
      && Sound(j) && j.final == old(j.final) && (old(j.stop) ==> j.stop)
      && (j.state.phase == old(j.state).phase || j.state.phase == PoweringOn)
      && SameRegistrations(old(h.w), h.w) && SameTrees(old(h.w), h.w) && SameFiles(old(h.w), h.w)
      && SourcePower(old(h.w), h.w) && Same(h.w.clones.Keys, old(h.w).clones.Keys)
      && h.SameCopy() && h.log.view.counts.unregistered == old(h.log).view.counts.unregistered
      && Same(j.state, old(j.state).(phase := j.state.phase, canRollback := j.state.canRollback))
    }

    twostate predicate SameInventory()
      reads h
    {
      h.log.view.inventory == old(h.log).view.inventory
    }

    /** One look at the target: whether it runs, and whether a question was answered. */
    method AwaitOn(id: nat, answered: bool) returns (on: bool, now: Option<bool>)
      requires h.Valid() && h.log.safe && h.log.owned && Owned(h.w) && id != h.w.reg.src
      modifies h
      ensures h.Valid() && h.log.safe && h.log.owned && Steady(old(h.w), h.w) && h.SameCopy() && h.OnlyAnswers() &&
                SameInventory()
      ensures h.log.view.counts.answers <= old(h.log).view.counts.answers + if answered then 0 else 1
      ensures now == Some(false) ==> !answered && h.SameCounts()
      ensures on ==> now.Some?
      ensures h.clock.now >= old(h.clock).now
      ensures h.reliable && id != 0 && id == h.w.reg.dst && old(h.w).dstPower == On ==> on
    {
      on, now := false, None;
      var p := h.Power(id);
      if p.None? {
        return;
      }
      var q := h.Message(id);
      if q.None? {
        return;
      }
      if q.value.NoQuestion? {
        return p == Some(On), Some(answered);
      }
      if !q.value.answerable || answered {
        return;
      }
      var ok := h.Answer(id);
      now := if ok then Some(true) else None;
    }

    method AwaitStart(id: nat) returns (on: bool)
      requires h.Valid() && h.log.safe && h.log.owned && Owned(h.w) && id != h.w.reg.src && o.pollInterval >= 1
      modifies h
      ensures h.Valid() && h.log.safe && h.log.owned && Steady(old(h.w), h.w) && h.SameCopy() && h.OnlyAnswers() &&
                SameInventory()
      ensures h.log.view.counts.answers <= old(h.log).view.counts.answers + 1
      ensures h.reliable && o.powerOnTimeout >= 1 && id != 0 && id == h.w.reg.dst && old(h.w).dstPower == On ==> on
    {
      var deadline := h.clock.now + o.powerOnTimeout;
      var answered := Some(false);
      on := false;
      while h.clock.now < deadline && answered.Some?
        invariant h.Valid() && h.log.safe && h.log.owned && Steady(old(h.w), h.w) && h.SameCopy() && h.OnlyAnswers() &&
                    SameInventory()
        invariant answered == Some(false) ==> h.SameCounts()
        invariant h.log.view.counts.answers <= old(h.log).view.counts.answers + 1
        invariant h.reliable && o.powerOnTimeout >= 1 && id != 0 && id == h.w.reg.dst && old(h.w).dstPower == On ==>
                    h.w.dstPower == On && h.clock.now < deadline && answered.Some?
        decreases deadline - h.clock.now, answered.Some?
      {
        on, answered := AwaitOn(id, answered.value);
        if on {
          return;
        }
        if answered.Some? {
          var ok := h.Pause(o.pollInterval);
          if !ok {
            return false;
          }
        }
      }
    }

    method Start(id: nat) returns (on: bool)
      requires h.Valid() && h.log.safe && h.log.owned && Owned(h.w) && o.pollInterval >= 1
      requires MayPowerOn(h.plan, h.log.view, id, h.w)
      modifies h
      ensures h.Valid() && h.log.safe && h.log.owned
      ensures SameRegistrations(old(h.w), h.w) && SameTrees(old(h.w), h.w) && SameFiles(old(h.w), h.w)
      ensures SourcePower(old(h.w), h.w) && Same(h.w.clones.Keys, old(h.w).clones.Keys)
      ensures h.SameCopy() && h.log.view.counts.unregistered == old(h.log).view.counts.unregistered && SameInventory()
      ensures h.log.view.counts.answers <= old(h.log).view.counts.answers + 1
      ensures h.reliable && o.powerOnTimeout >= 1 ==> on
    {
      var _ := h.StartVm(id);
      on := AwaitStart(id);
    }

    /** Starts the target, and only after the inventory showed that the source is not registered. */
    method PowerOn(j: Job) returns (ok: bool)
      requires Sound(j) && Owned(h.w) && h.plan.move && h.plan.powerOn && TargetVerified(h.plan, h.log.view.copy)
      requires h.w.srcPower == Off && j.state.targetId != 0
      modifies h, j
      ensures h.log.view.counts.answers <= old(h.log).view.counts.answers + 1
      ensures Starting(j)
      ensures h.log.view.counts.registration > old(h.log).view.counts.registration ==>
                h.log.view.inventory == Some((0, old(j.state).targetId))
      ensures j.state.canRollback ==> old(j.state).canRollback
      ensures ok ==> !j.state.canRollback
      ensures h.reliable && o.powerOnTimeout >= 1 && TargetOnly(old(h.w)) &&
              old(j.state).targetId == old(h.w).reg.dst
              ==> ok
    {
      var id := j.state.targetId;
      var r := Registrations();
      if r != Some((0, id)) {
        return false;
      }
      ok := Boot(j, id);
    }

    method Boot(j: Job, id: nat) returns (ok: bool)
      requires Sound(j) && Owned(h.w) && MayPowerOn(h.plan, h.log.view, id, h.w)
      modifies h, j
      ensures h.log.view.counts.answers <= old(h.log).view.counts.answers + 1 && SameInventory()
      ensures Starting(j)
      ensures j.state.canRollback ==> old(j.state).canRollback
      ensures ok ==> !j.state.canRollback
      ensures h.reliable && o.powerOnTimeout >= 1 ==> ok
    {
      j.SetPhase(PoweringOn);
      ok := Start(id);
      if ok {
        Unroll(j);
      }
    }

    /** A running target is not rolled back. */
    method Unroll(j: Job)
      requires j.Valid()
      modifies j`state, j`stop, j`actions, j`approved
      ensures j.Valid() && (old(j.stop) ==> j.stop) && j.state == old(j.state).(canRollback := false)
    {
      j.Update(j.state.(canRollback := false));
    }

    // Rolling the registration back ---------------------------------------------------------------

    /** A source published as registered is. */
    predicate Backed(s: State, w: World)
    {
      s.source == Registered ==> w.reg.src != 0
    }

    /** What was registered or unregistered was so under the job's lock exactly if the lock was held when it began. */
    twostate predicate UnderLock()
      reads h
    {
      h.log.owned <==>
        old(h.log).owned && (h.log.view.counts.registration > old(h.log).view.counts.registration ==> Owned(old(h.w)))
    }

    /** What a rollback leaves alone. It may run without holding the lock, which is then not touched either. */
    twostate predicate RollingBack(j: Job)
      reads h, j
    {
      && h.Valid() && j.Valid() && h.log.safe && o.pollInterval >= 1
      && UnderLock()
      && SourcePower(old(h.w), h.w) && TargetPower(old(h.w), h.w) && SameTrees(old(h.w), h.w)
      && Same(h.w.clones.Keys, old(h.w).clones.Keys) && h.SameCopy()
      && (h.w.store.lock == old(h.w).store.lock || (Owned(old(h.w)) && h.w.store.lock == Free))
      && (j.state.canRollback ==>
            Same(j.state, old(j.state)) && h.SameCounts() &&
            SameRegistrations(old(h.w), h.w) && SameFiles(old(h.w), h.w))
      && h.log.view.counts.registration >= old(h.log).view.counts.registration
    }

    /** The target is the registered VM, off and without an open question. */
    method MayRollBack(id: nat) returns (ok: bool)
      requires h.Valid()
      modifies h
      ensures h.Valid() && h.Still() && h.SameCopy() && h.SameCounts()
      ensures ok ==> h.log.view.inventory == Some((0, id)) && h.log.view.low == Some(id)
      ensures ok ==> h.LastWas(MessageRead(id, Some(NoQuestion)))
      ensures ok ==> id != 0 && h.w.reg == Registry(0, id) && h.w.dstPower == Off
      ensures h.reliable && id != 0 && h.w.reg == Registry(0, id) && h.w.dstPower == Off ==> ok
    {
      var r := Registrations();
      if r != Some((0, id)) {
        return false;
      }
      var err := RequireOff(id);
      if err.Some? {
        return false;
      }
      var q := h.Message(id);
      ok := q == Some(NoQuestion);
    }

    method Withdraw(j: Job, id: nat) returns (ok: bool)
      requires h.Valid() && j.Valid() && h.log.safe && o.pollInterval >= 1
      requires id != 0 && h.w.reg == Registry(0, id) && h.log.view.copy.pending == {}
      requires j.state.source != Registered
      requires h.log.view.inventory == Some((0, id)) && SeenOff(h.log.view, id, h.w)
      modifies h, j
      ensures RollingBack(j) && Truthful(j.state, h.w) && !j.state.canRollback
      ensures h.w.reg.src == 0 && h.w.store.lock == old(h.w).store.lock
      ensures h.log.view.counts.unregistered == old(h.log).view.counts.unregistered + 1
      ensures ok ==> h.w.reg == Registry(0, 0) && j.state.target == NotRegistered && j.state.source == NotRegistered
      ensures h.reliable ==> ok && SamePowers(old(h.w), h.w)
      ensures Same(j.state, old(j.state).(source := j.state.source, target := j.state.target,
                targetId := j.state.targetId, canRollback := false))
      ensures ok ==> h.log.view.inventory == Some((0, 0))
    {
      j.Update(j.state.(target := Unconfirmed, canRollback := false));
      var _ := h.Unregister(id);
      var r := Reconcile(j);
      ok := r == Some((0, 0));
    }

    method Reinstate(j: Job) returns (ok: bool)
      requires h.Valid() && j.Valid() && h.log.safe && o.pollInterval >= 1
      requires h.w.reg == Registry(0, 0) && h.log.view.copy.pending == {} && !j.state.canRollback
      requires h.log.view.inventory == Some((0, 0))
      modifies h, j
      ensures RollingBack(j) && Truthful(j.state, h.w) && !j.state.canRollback
      ensures h.w.reg.dst == 0 && h.w.store.lock == old(h.w).store.lock
      ensures h.log.view.counts.unregistered == old(h.log).view.counts.unregistered
      ensures ok ==> h.w.reg.src != 0 && j.state.source == Registered && j.state.target == NotRegistered
      ensures h.reliable ==> ok && SamePowers(old(h.w), h.w)
      ensures Same(j.state, old(j.state).(source := j.state.source, target := j.state.target,
                targetId := j.state.targetId))
    {
      j.Update(j.state.(target := NotRegistered, source := Unconfirmed));
      var _ := h.Register(Source);
      var r := Reconcile(j);
      ok := r.Some? && r.value.0 != 0 && r.value.1 == 0;
    }

    /** `Rollback`, the operator's way back after a failed MOVE. It never starts a VM, never ends with both VMs
        registered, refuses a target that runs, and is used up by its only unregister command. It leaves the snapshot
        trees alone: after a live MOVE the source comes back on the job's snapshot. */
    method Rollback(j: Job) returns (ok: bool)
      requires h.Valid() && j.Valid() && h.log.safe && o.pollInterval >= 1
      requires j.state.canRollback ==> h.log.view.copy.pending == {} && Backed(j.state, h.w)
      modifies h, j
      ensures RollingBack(j)
      ensures old(Truthful(j.state, h.w)) || h.log.view.counts.registration > old(h.log).view.counts.registration ==>
                Truthful(j.state, h.w)
      ensures h.log.view.counts.unregistered <= old(h.log).view.counts.unregistered + if old(j.state).canRollback then 1
                else 0
      ensures ok ==> old(j.state).complete && old(j.state).canRollback && old(j.state).phase == Failed
      ensures ok ==> h.w.reg.src != 0 && h.w.reg.dst == 0 && h.w.store.lock == Free
      ensures h.w.dstPower != Off ==> SameRegistrations(old(h.w), h.w)
      ensures !old(j.state).canRollback ==> !ok && Same(h.w, old(h.w)) && Same(h.log, old(h.log))
      ensures ok ==> j.state.phase == RolledBack && j.state.source == Registered && j.state.target == NotRegistered
      ensures h.reliable && old(j.state).complete && old(j.state).canRollback && old(j.state).phase == Failed &&
              old(j.state).targetId != 0 && old(h.w).reg == Registry(0, old(j.state).targetId) &&
                  old(h.w).dstPower == Off && Owned(old(h.w))
              ==> ok
    {
      if !j.state.complete || !j.state.canRollback || j.state.phase != Failed {
        return false;
      }
      ok := MayRollBack(j.state.targetId);
      if !ok {
        return;
      }
      ok := Withdraw(j, j.state.targetId);
      if !ok {
        return;
      }
      ok := Reinstate(j);
      if ok {
        ok := Conclude(j);
      }
    }

    method Conclude(j: Job) returns (ok: bool)
      requires h.Valid() && j.Valid() && h.log.safe && o.pollInterval >= 1
      requires h.log.view.copy.pending == {} && !j.state.canRollback
      modifies h, j
      ensures RollingBack(j) && h.OnlyLocks() && SameRegistrations(old(h.w), h.w)
      ensures Same(j.state, old(j.state).(phase := j.state.phase))
      ensures ok ==> h.w.store.lock == Free && j.state.phase == RolledBack
      ensures h.reliable && Owned(old(h.w)) ==> ok
    {
      ok := Finish();
      if ok {
        j.SetPhase(RolledBack);
      }
    }

    /** However often the operator asks for it, the target is told to leave the inventory at most once, and under the
        job's lock exactly if that is still held. */
    method Rollbacks(j: Job, calls: nat)
      requires h.Valid() && j.Valid() && h.log.safe && o.pollInterval >= 1
      requires j.state.canRollback ==> h.log.view.copy.pending == {} && Backed(j.state, h.w)
      modifies h, j
      ensures h.Valid() && h.log.safe && UnderLock() && SameTrees(old(h.w), h.w)
      ensures h.log.view.counts.unregistered <= old(h.log).view.counts.unregistered + if old(j.state).canRollback then 1
                else 0
      ensures old(Truthful(j.state, h.w)) || h.log.view.counts.registration > old(h.log).view.counts.registration ==>
                Truthful(j.state, h.w)
    {
      for n := 0 to calls
        invariant h.Valid() && j.Valid() && h.log.safe && UnderLock() && SameTrees(old(h.w), h.w)
        invariant j.state.canRollback ==> old(j.state).canRollback && h.SameCounts() && SameFiles(old(h.w), h.w)
        invariant j.state.canRollback ==> h.log.view.copy.pending == {} && Backed(j.state, h.w)
        invariant h.log.view.counts.unregistered + (if j.state.canRollback then 1 else 0)
               <= old(h.log).view.counts.unregistered + if old(j.state).canRollback then 1 else 0
        invariant h.log.view.counts.registration >= old(h.log).view.counts.registration
        invariant old(Truthful(j.state, h.w)) ||
                  h.log.view.counts.registration > old(h.log).view.counts.registration
                  ==> Truthful(j.state, h.w)
      {
        var _ := Rollback(j);
      }
    }
  }
}

/** Whole jobs, from an untouched host to the last rollback the operator asks for: `Engine.Run` followed by any
    number of `Engine.Rollback` calls. Their traces are what the laws of Histories are about. */
module Sessions {
  import opened Text
  import opened Vmx
  import opened Vmdk
  import opened Hosts
  import opened Jobs
  import opened Engines
  import Cold
  import Live

  /** What every plan the analysis makes satisfies. */
  predicate Sensible(plan: Plan, o: Options)
  {
    && plan.sourceVmx != plan.targetVmx && o.pollInterval >= 1 && Live.Planned(plan)
    && forall k :: k in plan.targetConfig ==> LegalKey(k)
  }

  /** The trace of a host is a history, and safe, as `Judge` sees it. */
  ghost predicate SafeHistory(h: Host)
    reads h
  {
    var v := Judge(h.plan, h.log.trace);
    v.history && v.safe && v.first == h.start && v.world == h.w && v.view == h.log.view
  }

  /** One migration. Its trace is a safe history in which every change was made under the job's own lock. */
  method Migrate(plan: Plan, o: Options, w: World, slack: nat, patience: nat)
    returns (h: Host, j: Job, e: Engine, ghost switched: bool)
    requires Sensible(plan, o) && Apart(w)
    ensures fresh(h) && fresh(j) && fresh(e) && h.plan == plan && h.start == w && e.h == h && e.o == o
    ensures forall t :: h.judge(t) == Judge(plan, t)
    ensures e.Sound(j) && SafeHistory(h) && Judge(plan, h.log.trace).owned
    ensures j.state.complete
    ensures j.state.phase == Unknown <==> h.log.view.copy.pending != {}
    ensures j.stop ==> j.state.phase != Completed && h.log.view.counts.registration == 0
    ensures j.state.phase == Completed ==> TargetVerified(plan, h.log.view.copy) && e.FilesCopied()
    ensures !plan.live && Truthful(NEW, w) ==> Truthful(j.state, h.w)
    ensures plan.live && switched ==> Live.AtTarget(e, j) && !j.stop
    ensures plan.live && j.state.phase == Completed ==> switched == plan.move
    ensures j.state.canRollback ==> j.state.phase == Failed && e.Backed(j.state, h.w)
  {
    h := new Host(plan, false, [], map[], slack, w, patience);
    j := new Job();
    e := new Engine(h, o);
    if plan.live {
      switched := Live.Run(e, j);
    } else {
      switched := false;
      Cold.Run(e, j);
    }
  }

  /** A migration and whatever rollbacks the operator asks for afterwards: still a safe history, and the target is
      told to leave the inventory by a rollback at most once. After the switch of a live MOVE the source keeps the job's
      snapshot, so there `RolledBack` means the registration alone. */
  method Session(plan: Plan, o: Options, w: World, slack: nat, patience: nat, rollbacks: nat)
    returns (h: Host, j: Job, ghost switched: bool)
    requires Sensible(plan, o) && Apart(w)
    ensures h.plan == plan && h.start == w && SafeHistory(h)
    ensures (if plan.live then switched else Truthful(NEW, w)) ==> Truthful(j.state, h.w)
    ensures plan.live && switched ==> h.w.trees.src == [plan.snapshot]
  {
    var e: Engine;
    h, j, e, switched := Migrate(plan, o, w, slack, patience);
    e.Rollbacks(j, rollbacks);
  }
}

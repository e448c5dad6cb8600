/** A MOVE whose lock was archived although the reply to that was lost, and the rollback that follows: a safe history in
    which registrations are changed without the lock. */
module Rollbacks {
  import opened Text
  import opened Vmx
  import opened Hosts
  import opened Histories

  /** The trace has been a safe history so far; `w` and `v` are what it came to. */
  ghost predicate Reached(plan: Plan, t: Trace, w: World, v: View, owned: bool)
  {
    var j := Judge(plan, t);
    j.view == v && j.world == w && j.history && j.safe && j.owned == owned && OneVm(plan, v, w)
  }

  /** One more command. */
  lemma Issue(plan: Plan, t: Trace, w: World, v: View, owned: bool, c: Cmd, u: World) returns (t': Trace, v': View)
    requires Reached(plan, t, w, v, owned) && Effect(plan, c, w, u) && (Ruled(c) ==> MayIssue(plan, v, c, w))
    requires OneVm(plan, Next(plan, v, c), u)
    ensures t' == Then(t, Step(c, w, u)) && v' == Next(plan, v, c) && Steps(t') == Steps(t) + [Step(c, w, u)]
    ensures Reached(plan, t', u, v', owned && (Mutates(c) ==> w.store.lock == Held(plan.id)))
  {
    t', v' := Then(t, Step(c, w, u)), Next(plan, v, c);
  }

  /** One more read. */
  lemma Look(plan: Plan, t: Trace, w: World, v: View, owned: bool, c: Cmd) returns (t': Trace, v': View)
    requires Reached(plan, t, w, v, owned) && Effect(plan, c, w, w) && !Ruled(c)
    ensures t' == Then(t, Step(c, w, w)) && v' == Next(plan, v, c) && Steps(t') == Steps(t) + [Step(c, w, w)]
    ensures Reached(plan, t', w, v', owned)
  {
    t', v' := Issue(plan, t, w, v, owned, c, w);
  }

  /** A cold MOVE of a VM with one disk. */
  predicate Simple(plan: Plan)
  {
    plan.move && !plan.live && |plan.disks| == 1 && plan.vm != 0
  }

  function Begun(plan: Plan): World
  {
    World(Registry(plan.vm, 0), Off, Off, Trees([], [], plan.sourceConfig, map[]), Store(Free, false, map[]), map[])
  }

  function Locked(plan: Plan): World
  {
    Begun(plan).(store := Store(Held(plan.id), true, map[]))
  }

  function Copied(plan: Plan): World
  {
    Locked(plan).(clones := map[0 := Exited(0)])
  }

  function Switched(plan: Plan): World
  {
    Copied(plan).(reg := Registry(0, plan.vm + 1))
  }

  function Archived(plan: Plan): World
  {
    Switched(plan).(store := Store(Free, true, map[]))
  }

  lemma Prepared(plan: Plan) returns (t: Trace, v: View)
    requires Simple(plan)
    ensures Reached(plan, t, Locked(plan), v, true) && v.copy == NOTHING_SEEN.copy
  {
    var w := Begun(plan);
    t, v := Start(w), NOTHING_SEEN;
    t, v := Look(plan, t, w, v, true, GuardRead(true));
    var held := w.(store := w.store.(lock := Held(plan.id)));
    t, v := Issue(plan, t, w, v, true, Acquire(true), held);
    t, v := Look(plan, t, held, v, true, GuardRead(true));
    t, v := Issue(plan, t, held, v, true, CreateTarget(true), Locked(plan));
  }

  lemma Cloned(plan: Plan) returns (t: Trace, v: View)
    requires Simple(plan)
    ensures Reached(plan, t, Copied(plan), v, true) && v.copy.zero == {0} && v.copy.pending == {}
  {
    t, v := Prepared(plan);
    var w := Locked(plan);
    t, v := Look(plan, t, w, v, true, StopRead(false));
    t, v := Look(plan, t, w, v, true, GuardRead(true));
    var u := w.(clones := map[0 := Running]);
    t, v := Issue(plan, t, w, v, true, Launch(0, true), u);
    t, v := Ended(plan, t, u, v);
  }

  /** The clone ends, and its exit is seen. */
  lemma Ended(plan: Plan, t: Trace, w: World, v: View) returns (t': Trace, v': View)
    requires Simple(plan) && Reached(plan, t, w, v, true) && w == Locked(plan).(clones := map[0 := Running])
    requires v.copy.pending == {0} && v.copy.launched == {0} && v.copy.zero == {}
    ensures Reached(plan, t', Copied(plan), v', true) && v'.copy.zero == {0} && v'.copy.pending == {}
  {
    var u := Copied(plan);
    assert w.clones.Keys == {0} == u.clones.Keys;
    assert Env(w, u);
    t', v' := Then(t, Step(Poll(0, Some(Done(0))), u, u)), Next(plan, v, Poll(0, Some(Done(0))));
  }

  lemma Verified(plan: Plan) returns (t: Trace, v: View)
    requires Simple(plan)
    ensures Reached(plan, t, Copied(plan), v, true) && TargetVerified(plan, v.copy) && v.guard
  {
    t, v := Cloned(plan);
    var w := Copied(plan);
    t, v := Look(plan, t, w, v, true, ConfigRead(Some(plan.targetConfig)));
    t, v := Checks(plan, t, v);
    t, v := Look(plan, t, w, v, true, GuardRead(true));
    assert DiskVerified(plan, v.copy, 0);
  }

  lemma Checks(plan: Plan, t: Trace, v: View) returns (t': Trace, v': View)
    requires Reached(plan, t, Copied(plan), v, true) && v.copy.zero == {0}
    ensures Reached(plan, t', Copied(plan), v', true)
    ensures v'.copy == v.copy.(passed := v'.copy.passed, again := v'.copy.again)
    ensures (Chain, 0) in v'.copy.again && (Shape, 0) in v'.copy.again && (Hosts.Check.Size, 0) in v'.copy.again
  {
    t', v' := Check(plan, t, v, Chain);
    t', v' := Check(plan, t', v', Shape);
    t', v' := Check(plan, t', v', Hosts.Check.Size);
  }

  lemma Check(plan: Plan, t: Trace, v: View, check: Hosts.Check) returns (t': Trace, v': View)
    requires Reached(plan, t, Copied(plan), v, true) && v.copy.zero == {0} && There(v.copy, check, 0)
    ensures Reached(plan, t', Copied(plan), v', true)
    ensures v'.copy == v.copy.(passed := v.copy.passed + {(check, 0)}, again := v.copy.again + {(check, 0)})
  {
    t', v' := Look(plan, t, Copied(plan), v, true, CheckRead(check, 0, true));
  }

  /** The switch. */
  lemma Moved(plan: Plan) returns (t: Trace, v: View)
    requires Simple(plan)
    ensures Reached(plan, t, Switched(plan), v, true) && TargetVerified(plan, v.copy)
  {
    t, v := Verified(plan);
    var w := Copied(plan);
    t, v := Look(plan, t, w, v, true, InventoryRead(Some((plan.vm, 0))));
    t, v := Look(plan, t, w, v, true, PowerRead(plan.vm, Some(Off)));
    var u := w.(reg := Registry(0, 0));
    t, v := Issue(plan, t, w, v, true, Unregister(plan.vm), u);
    t, v := Installed(plan, t, v);
  }

  lemma Installed(plan: Plan, t: Trace, v: View) returns (t': Trace, v': View)
    requires Simple(plan) && Reached(plan, t, Copied(plan).(reg := Registry(0, 0)), v, true)
    requires TargetVerified(plan, v.copy)
    ensures Reached(plan, t', Switched(plan), v', true) && TargetVerified(plan, v'.copy)
  {
    var u := Copied(plan).(reg := Registry(0, 0));
    t', v' := Look(plan, t, u, v, true, InventoryRead(Some((0, 0))));
    t', v' := Issue(plan, t', u, v', true, Cmd.Register(Target), Switched(plan));
  }

  /** What a rollback of the registration does. */
  lemma RolledBack(plan: Plan, t: Trace, v: View) returns (t': Trace)
    requires Simple(plan) && Reached(plan, t, Archived(plan), v, true) && v.copy.pending == {}
    ensures var u := Archived(plan).(reg := Registry(plan.vm + 1, 0)); exists v' :: Reached(plan, t', u, v', false)
    ensures Extends(t', t)
  {
    var v';
    t', v' := Examined(plan, t, v);
    t', v' := Withdrawn(plan, t, t', v');
    t', v' := Restored(plan, t, t', v');
  }

  /** The target is the registered VM, off and without a question. */
  lemma Examined(plan: Plan, t: Trace, v: View) returns (t': Trace, v': View)
    requires Simple(plan) && Reached(plan, t, Archived(plan), v, true) && v.copy.pending == {}
    ensures Reached(plan, t', Archived(plan), v', true) && v'.copy.pending == {} && Extends(t', t)
    ensures v'.inventory == Some((0, plan.vm + 1)) && v'.low == Some(plan.vm + 1)
  {
    var w, id := Archived(plan), plan.vm + 1;
    t', v' := Look(plan, t, w, v, true, InventoryRead(Some((0, id))));
    t', v' := Look(plan, t', w, v', true, PowerRead(id, Some(Off)));
    assert Extends(t', t);
    t', v' := Unquestioned(plan, t, t', v');
  }

  lemma Unquestioned(plan: Plan, base: Trace, t: Trace, v: View) returns (t': Trace, v': View)
    requires Reached(plan, t, Archived(plan), v, true) && Extends(t, base)
    ensures Reached(plan, t', Archived(plan), v', true) && v' == v && Extends(t', base)
  {
    t', v' := Look(plan, t, Archived(plan), v, true, MessageRead(plan.vm + 1, Some(NoQuestion)));
  }

  lemma Withdrawn(plan: Plan, base: Trace, t: Trace, v: View) returns (t': Trace, v': View)
    requires Simple(plan) && Reached(plan, t, Archived(plan), v, true) && v.copy.pending == {} && Extends(t, base)
    requires v.inventory == Some((0, plan.vm + 1)) && v.low == Some(plan.vm + 1)
    ensures Reached(plan, t', Archived(plan).(reg := Registry(0, 0)), v', false) && v'.copy.pending == {}
    ensures v'.inventory == Some((0, 0)) && Extends(t', base)
  {
    var w := Archived(plan);
    var u := w.(reg := Registry(0, 0));
    t', v' := Issue(plan, t, w, v, true, Unregister(plan.vm + 1), u);
    assert Extends(t', base);
    t', v' := Look(plan, t', u, v', false, InventoryRead(Some((0, 0))));
  }

  lemma Restored(plan: Plan, base: Trace, t: Trace, v: View) returns (t': Trace, v': View)
    requires Simple(plan) && Reached(plan, t, Archived(plan).(reg := Registry(0, 0)), v, false) && v.copy.pending == {}
    requires v.inventory == Some((0, 0)) && Extends(t, base)
    ensures Reached(plan, t', Archived(plan).(reg := Registry(plan.vm + 1, 0)), v', false) && Extends(t', base)
  {
    var u := Archived(plan).(reg := Registry(0, 0));
    t', v' := Issue(plan, t, u, v, false, Cmd.Register(Source), u.(reg := Registry(plan.vm + 1, 0)));
  }

  /** `t` goes on from `s`. */
  predicate Extends(t: Trace, s: Trace)
  {
    t == s || (t.Then? && Extends(t.prev, s))
  }

  /** For every cold MOVE of a VM with one disk there is such a history: owned up to the switch and to the archive whose
      reply is lost, and then a rollback that restores the source without the lock. */
  lemma UnownedRollback(plan: Plan) returns (t: Trace, n: nat)
    requires Simple(plan)
    ensures n < |Steps(t)| && Steps(t)[n].cmd == Archive(false)
    ensures Judge(plan, t).history && Judge(plan, t).safe && !Judge(plan, t).owned
    ensures var moved := Prefix(t, n + 1);
            && Judge(plan, moved).owned && Judge(plan, moved).world == Archived(plan)
    ensures Judge(plan, t).world == Archived(plan).(reg := Registry(plan.vm + 1, 0))
  {
    var moved, v := Moved(plan);
    n := |Steps(moved)|;
    var archived;
    archived, v := Issue(plan, moved, Switched(plan), v, true, Archive(false), Archived(plan));
    t := RolledBack(plan, archived, v);
    PrefixIs(t, archived);
  }

  lemma {:induction false} PrefixIs(t: Trace, s: Trace)
    requires Extends(t, s)
    ensures |Steps(s)| <= |Steps(t)| && Prefix(t, |Steps(s)|) == s && Steps(s) == Steps(t)[..|Steps(s)|]
  {
    if t != s {
      PrefixIs(t.prev, s);
    }
  }
}

/** What it means for a whole run that each of its commands was allowed: the laws of every trace that is a history
    of the host and safe. They are stated over the steps themselves, not over what the tool remembers of them. */
module Histories {
  import opened Text
  import opened Vmx
  import opened Hosts
  import J = Jobs

  function Steps(t: Trace): seq<Step>
  {
    match t
    case Start(_) => []
    case Then(prev, s) => Steps(prev) + [s]
  }

  /** The first `n` steps. */
  function Prefix(t: Trace, n: nat): Trace
    requires n <= |Steps(t)|
  {
    if n == |Steps(t)| then t else Prefix(t.prev, n)
  }

  lemma {:induction false} PrefixSteps(t: Trace, n: nat)
    requires n <= |Steps(t)|
    ensures Steps(Prefix(t, n)) == Steps(t)[..n]
  {
    if n < |Steps(t)| {
      PrefixSteps(t.prev, n);
    }
  }

  predicate Launches(c: Cmd, i: nat)
  {
    c.Launch? && c.disk == i
  }

  predicate SeesExit(c: Cmd, i: nat)
  {
    c.Poll? && c.disk == i && c.status.Some? && c.status.value.Done?
  }

  predicate SeesSuccess(c: Cmd, i: nat)
  {
    SeesExit(c, i) && c.status.value.code == 0
  }

  predicate Passes(c: Cmd, check: Check, i: nat)
  {
    c == CheckRead(check, i, true)
  }

  // -----------------------------------------------------------------------------------------------
  // What the view remembers

  /** A clone of the disk was launched and no exit was seen since. */
  ghost predicate Awaited(s: seq<Step>, i: nat)
  {
    exists p :: 0 <= p < |s| && Launches(s[p].cmd, i) && forall q :: p < q < |s| ==> !SeesExit(s[q].cmd, i)
  }

  lemma AwaitedMore(s: seq<Step>, x: Step, i: nat)
    ensures Awaited(s + [x], i) <==> Launches(x.cmd, i) || (Awaited(s, i) && !SeesExit(x.cmd, i))
  {
    var t, n := s + [x], |s|;
    assert t[n] == x && forall p :: 0 <= p < n ==> t[p] == s[p];
    if Awaited(s, i) && !SeesExit(x.cmd, i) {
      var p :| 0 <= p < n && Launches(s[p].cmd, i) && forall q :: p < q < n ==> !SeesExit(s[q].cmd, i);
      assert Launches(t[p].cmd, i);
    }
  }

  lemma NextPending(plan: Plan, v: View, c: Cmd, i: nat)
    ensures i in Next(plan, v, c).copy.pending <==> Launches(c, i) || (i in v.copy.pending && !SeesExit(c, i))
  {
  }

  lemma {:induction false} PendingIsAwaited(plan: Plan, t: Trace, i: nat)
    ensures i in Judge(plan, t).view.copy.pending <==> Awaited(Steps(t), i)
  {
    if t.Then? {
      PendingIsAwaited(plan, t.prev, i);
      NextPending(plan, Judge(plan, t.prev).view, t.step.cmd, i);
      AwaitedMore(Steps(t.prev), t.step, i);
    }
  }

  /** Step `q` shows that the clone of the disk ended with code 0, and it was not launched again. */
  ghost predicate EndsWell(s: seq<Step>, i: nat, q: nat)
  {
    && q < |s| && SeesSuccess(s[q].cmd, i)
    && (exists p :: 0 <= p < q && Launches(s[p].cmd, i))
    && forall r :: q < r < |s| ==> !Launches(s[r].cmd, i)
  }

  ghost predicate EndedWell(s: seq<Step>, i: nat)
  {
    exists q :: EndsWell(s, i, q)
  }

  lemma LaunchedMore(s: seq<Step>, x: Step, i: nat)
    ensures EverLaunched(s + [x], i) <==> Launches(x.cmd, i) || EverLaunched(s, i)
  {
    var t := s + [x];
    assert t[|s|] == x;
    if EverLaunched(s, i) {
      var p :| 0 <= p < |s| && Launches(s[p].cmd, i);
      assert Launches(t[p].cmd, i);
    }
  }

  lemma {:induction false} LaunchedIsLaunched(plan: Plan, t: Trace, i: nat)
    ensures i in Judge(plan, t).view.copy.launched <==> EverLaunched(Steps(t), i)
  {
    if t.Then? {
      LaunchedIsLaunched(plan, t.prev, i);
      LaunchedMore(Steps(t.prev), t.step, i);
    }
  }

  ghost predicate EverLaunched(s: seq<Step>, i: nat)
  {
    exists p :: 0 <= p < |s| && Launches(s[p].cmd, i)
  }

  lemma EndsWellStays(s: seq<Step>, x: Step, i: nat, q: nat)
    requires EndsWell(s, i, q) && !Launches(x.cmd, i)
    ensures EndsWell(s + [x], i, q)
  {
    var p :| 0 <= p < q && Launches(s[p].cmd, i);
    assert Launches((s + [x])[p].cmd, i);
  }

  lemma {:induction false} ZeroEndedWell(plan: Plan, t: Trace, i: nat)
    ensures i in Judge(plan, t).view.copy.zero ==> EndedWell(Steps(t), i)
  {
    if t.Then? && i in Judge(plan, t).view.copy.zero {
      var s := Steps(t.prev);
      if SeesExit(t.step.cmd, i) {
        LaunchedIsLaunched(plan, t.prev, i);
        var p :| 0 <= p < |s| && Launches(s[p].cmd, i);
        assert Launches(Steps(t)[p].cmd, i);
        assert EndsWell(Steps(t), i, |s|);
      } else {
        ZeroEndedWell(plan, t.prev, i);
        var q :| EndsWell(s, i, q);
        EndsWellStays(s, t.step, i, q);
      }
    }
  }

  /** The check passed after the clone was seen to have ended well. */
  ghost predicate PassedAfter(s: seq<Step>, check: Check, i: nat)
  {
    exists q: nat, r: nat :: EndsWell(s, i, q) && q < r < |s| && Passes(s[r].cmd, check, i)
  }

  lemma NextPassed(plan: Plan, v: View, c: Cmd, check: Check, i: nat)
    ensures (check, i) in Next(plan, v, c).copy.passed ==>
              (Passes(c, check, i) && i in v.copy.zero) || ((check, i) in v.copy.passed && !Launches(c, i))
    ensures (check, i) in Next(plan, v, c).copy.again ==>
              || (Passes(c, check, i) && i in v.copy.zero && There(v.copy, check, i))
              || ((check, i) in v.copy.again && !Launches(c, i) && !c.ConfigRead?)
  {
  }

  lemma {:induction false} PassedIsPassed(plan: Plan, t: Trace, check: Check, i: nat)
    ensures (check, i) in Judge(plan, t).view.copy.passed ==> PassedAfter(Steps(t), check, i)
  {
    if t.Then? && (check, i) in Judge(plan, t).view.copy.passed {
      NextPassed(plan, Judge(plan, t.prev).view, t.step.cmd, check, i);
      var s := Steps(t.prev);
      if Passes(t.step.cmd, check, i) && i in Judge(plan, t.prev).view.copy.zero {
        ZeroEndedWell(plan, t.prev, i);
        var q :| EndsWell(s, i, q);
        EndsWellStays(s, t.step, i, q);
        assert Passes(Steps(t)[|s|].cmd, check, i);
      } else {
        PassedIsPassed(plan, t.prev, check, i);
        var q: nat, r: nat :| EndsWell(s, i, q) && q < r < |s| && Passes(s[r].cmd, check, i);
        EndsWellStays(s, t.step, i, q);
        assert Passes(Steps(t)[r].cmd, check, i);
      }
    }
  }

  /** The file was copied before step `r`. */
  ghost predicate CopiedIn(s: seq<Step>, f: DeltaFile, r: int)
  {
    exists p :: 0 <= p < r && p < |s| && s[p].cmd == Copy(f, true)
  }

  lemma CopiedMore(s: seq<Step>, x: Step, f: DeltaFile, r: int)
    ensures CopiedIn(s, f, r) ==> CopiedIn(s + [x], f, r)
    ensures r <= |s| ==> (CopiedIn(s + [x], f, r) <==> CopiedIn(s, f, r))
    ensures CopiedIn(s + [x], f, |s| + 1) <==> x.cmd == Copy(f, true) || CopiedIn(s, f, |s|)
  {
    var t := s + [x];
    assert t[|s|] == x && forall p :: 0 <= p < |s| ==> t[p] == s[p];
  }

  lemma NextCopies(plan: Plan, v: View, c: Cmd, f: DeltaFile)
    ensures f in Next(plan, v, c).copy.copies <==> c == Copy(f, true) || f in v.copy.copies
  {
  }

  lemma {:induction false} CopiesAreCopied(plan: Plan, t: Trace, f: DeltaFile)
    ensures f in Judge(plan, t).view.copy.copies <==> CopiedIn(Steps(t), f, |Steps(t)|)
  {
    if t.Then? {
      CopiesAreCopied(plan, t.prev, f);
      NextCopies(plan, Judge(plan, t.prev).view, t.step.cmd, f);
      CopiedMore(Steps(t.prev), t.step, f, 0);
    }
  }

  /** What a comparison with an original compares had been copied. */
  ghost predicate ThereBefore(s: seq<Step>, check: Check, i: nat, r: int)
  {
    && (check.DeltaText? || check.DeltaChain? ==> CopiedIn(s, Text(i), r))
    && (check.DeltaSize? || check.DeltaChain? ==> CopiedIn(s, Data(i), r))
  }

  lemma ThereStays(s: seq<Step>, x: Step, check: Check, i: nat, r: int)
    requires ThereBefore(s, check, i, r)
    ensures ThereBefore(s + [x], check, i, r)
  {
    CopiedMore(s, x, Text(i), r);
    CopiedMore(s, x, Data(i), r);
  }

  lemma ThereIsThere(plan: Plan, t: Trace, check: Check, i: nat)
    requires There(Judge(plan, t).view.copy, check, i)
    ensures ThereBefore(Steps(t), check, i, |Steps(t)|)
  {
    CopiesAreCopied(plan, t, Text(i));
    CopiesAreCopied(plan, t, Data(i));
  }

  /** And since the target VMX was last read, on what had been copied. */
  ghost predicate PassedLast(s: seq<Step>, check: Check, i: nat)
  {
    exists q: nat, r: nat :: EndsWell(s, i, q) && PassesLast(s, check, i, q, r)
  }

  ghost predicate PassesLast(s: seq<Step>, check: Check, i: nat, q: nat, r: nat)
  {
    && q < r < |s| && Passes(s[r].cmd, check, i) && ThereBefore(s, check, i, r)
    && forall k :: r < k < |s| ==> !s[k].cmd.ConfigRead?
  }

  lemma PassedLastStays(s: seq<Step>, x: Step, check: Check, i: nat)
    requires PassedLast(s, check, i) && !Launches(x.cmd, i) && !x.cmd.ConfigRead?
    ensures PassedLast(s + [x], check, i)
  {
    var q: nat, r: nat :| EndsWell(s, i, q) && PassesLast(s, check, i, q, r);
    EndsWellStays(s, x, i, q);
    ThereStays(s, x, check, i, r);
    assert PassesLast(s + [x], check, i, q, r);
  }

  lemma PassedLastNow(s: seq<Step>, x: Step, check: Check, i: nat)
    requires EndedWell(s, i) && Passes(x.cmd, check, i) && ThereBefore(s, check, i, |s|)
    ensures PassedLast(s + [x], check, i)
  {
    var q :| EndsWell(s, i, q);
    EndsWellStays(s, x, i, q);
    ThereStays(s, x, check, i, |s|);
    assert PassesLast(s + [x], check, i, q, |s|);
  }

  lemma {:induction false} AgainIsLast(plan: Plan, t: Trace, check: Check, i: nat)
    ensures (check, i) in Judge(plan, t).view.copy.again ==> PassedLast(Steps(t), check, i)
  {
    if t.Then? && (check, i) in Judge(plan, t).view.copy.again {
      NextPassed(plan, Judge(plan, t.prev).view, t.step.cmd, check, i);
      var v := Judge(plan, t.prev).view.copy;
      if Passes(t.step.cmd, check, i) && i in v.zero && There(v, check, i) {
        ZeroEndedWell(plan, t.prev, i);
        ThereIsThere(plan, t.prev, check, i);
        PassedLastNow(Steps(t.prev), t.step, check, i);
      } else {
        AgainIsLast(plan, t.prev, check, i);
        PassedLastStays(Steps(t.prev), t.step, check, i);
      }
    }
  }

  // -----------------------------------------------------------------------------------------------
  // What was read last

  /** The command was issued, and none that spoils what it said since. */
  ghost predicate Last(s: seq<Step>, c: Cmd, spoils: Cmd -> bool)
  {
    exists r :: LastAt(s, c, spoils, r)
  }

  ghost predicate LastAt(s: seq<Step>, c: Cmd, spoils: Cmd -> bool, r: int)
  {
    0 <= r < |s| && s[r].cmd == c && forall q :: r < q < |s| ==> !spoils(s[q].cmd)
  }

  lemma LastMore(s: seq<Step>, x: Step, c: Cmd, spoils: Cmd -> bool)
    ensures Last(s + [x], c, spoils) <==> x.cmd == c || (Last(s, c, spoils) && !spoils(x.cmd))
  {
    var t := s + [x];
    assert t[|s|] == x && forall p :: 0 <= p < |s| ==> t[p] == s[p];
    if x.cmd == c {
      assert LastAt(t, c, spoils, |s|);
    } else if Last(s, c, spoils) && !spoils(x.cmd) {
      var r :| LastAt(s, c, spoils, r);
      assert LastAt(t, c, spoils, r);
    } else if Last(t, c, spoils) {
      var r :| LastAt(t, c, spoils, r);
      assert !spoils(t[|s|].cmd);
      assert LastAt(s, c, spoils, r);
    }
  }

  /** What may change the source or its files, or lets time pass while something does; and another check. */
  predicate Disturbs(c: Cmd)
  {
    || c.Launch? || c.Poll? || c.Write? || c.ShutDown? || c.CreateSnapshot? || c.Merge? || c.Register? || c.PowerOn?
    || c.Unregister? || c.Order? || c.GuardRead?
  }

  /** A full check of the source passed, and nothing has disturbed it since. */
  ghost predicate Guarded(s: seq<Step>)
  {
    Last(s, GuardRead(true), Disturbs)
  }

  lemma NextGuard(plan: Plan, v: View, c: Cmd)
    ensures Next(plan, v, c).guard <==> c == GuardRead(true) || (v.guard && !Disturbs(c))
  {
  }

  lemma {:induction false} GuardIsGuarded(plan: Plan, t: Trace)
    ensures Judge(plan, t).view.guard <==> Guarded(Steps(t))
  {
    if t.Then? {
      GuardIsGuarded(plan, t.prev);
      NextGuard(plan, Judge(plan, t.prev).view, t.step.cmd);
      LastMore(Steps(t.prev), t.step, GuardRead(true), Disturbs);
    }
  }

  predicate ReadsConfig(c: Cmd)
  {
    c.ConfigRead?
  }

  /** The last read of the target VMX gave this configuration. */
  ghost predicate LastConfig(s: seq<Step>, c: Config)
  {
    Last(s, ConfigRead(Some(c)), ReadsConfig)
  }

  lemma NextConfig(plan: Plan, v: View, c: Cmd, config: Config)
    ensures (Next(plan, v, c).copy.config == Some(config)) <==>
              c == ConfigRead(Some(config)) || (v.copy.config == Some(config) && !ReadsConfig(c))
  {
  }

  lemma {:induction false} ConfigIsLast(plan: Plan, t: Trace, c: Config)
    ensures Judge(plan, t).view.copy.config == Some(c) <==> LastConfig(Steps(t), c)
  {
    if t.Then? {
      ConfigIsLast(plan, t.prev, c);
      NextConfig(plan, Judge(plan, t.prev).view, t.step.cmd, c);
      LastMore(Steps(t.prev), t.step, ConfigRead(Some(c)), ReadsConfig);
    }
  }

  predicate ReadsDeltas(c: Cmd)
  {
    c.DeltasRead?
  }

  /** The last read of the source VMX on the job's snapshot named these files. */
  ghost predicate LastDeltas(s: seq<Step>, names: map<string, string>)
  {
    Last(s, DeltasRead(Some(names)), ReadsDeltas)
  }

  lemma NextDeltas(plan: Plan, v: View, c: Cmd, names: map<string, string>)
    ensures (Next(plan, v, c).copy.deltas == Some(names)) <==>
              c == DeltasRead(Some(names)) || (v.copy.deltas == Some(names) && !ReadsDeltas(c))
  {
  }

  lemma {:induction false} DeltasAreLast(plan: Plan, t: Trace, names: map<string, string>)
    ensures Judge(plan, t).view.copy.deltas == Some(names) <==> LastDeltas(Steps(t), names)
  {
    if t.Then? {
      DeltasAreLast(plan, t.prev, names);
      NextDeltas(plan, Judge(plan, t.prev).view, t.step.cmd, names);
      LastMore(Steps(t.prev), t.step, DeltasRead(Some(names)), ReadsDeltas);
    }
  }

  predicate ReadsMeta(c: Cmd)
  {
    c.MetaRead?
  }

  /** The copied snapshot metadata was last compared when it had been copied, and was the same. */
  ghost predicate MetaCompared(s: seq<Step>)
  {
    exists r :: LastAt(s, MetaRead(true), ReadsMeta, r) && CopiedIn(s, Memory, r) && CopiedIn(s, Snapshots, r)
  }

  lemma NextMeta(plan: Plan, v: View, c: Cmd)
    ensures Next(plan, v, c).copy.meta ==>
              || (c == MetaRead(true) && Memory in v.copy.copies && Snapshots in v.copy.copies)
              || (v.copy.meta && !ReadsMeta(c))
  {
  }

  lemma MetaMore(s: seq<Step>, x: Step)
    requires MetaCompared(s) && !ReadsMeta(x.cmd)
    ensures MetaCompared(s + [x])
  {
    var r :| LastAt(s, MetaRead(true), ReadsMeta, r) && CopiedIn(s, Memory, r) && CopiedIn(s, Snapshots, r);
    CopiedMore(s, x, Memory, r);
    CopiedMore(s, x, Snapshots, r);
    assert LastAt(s + [x], MetaRead(true), ReadsMeta, r);
  }

  lemma MetaNow(s: seq<Step>, x: Step)
    requires x.cmd == MetaRead(true) && CopiedIn(s, Memory, |s|) && CopiedIn(s, Snapshots, |s|)
    ensures MetaCompared(s + [x])
  {
    CopiedMore(s, x, Memory, |s|);
    CopiedMore(s, x, Snapshots, |s|);
    assert LastAt(s + [x], MetaRead(true), ReadsMeta, |s|);
  }

  lemma {:induction false} MetaIsCompared(plan: Plan, t: Trace)
    ensures Judge(plan, t).view.copy.meta ==> MetaCompared(Steps(t))
  {
    if t.Then? && Judge(plan, t).view.copy.meta {
      var v := Judge(plan, t.prev).view;
      NextMeta(plan, v, t.step.cmd);
      if v.copy.meta && !ReadsMeta(t.step.cmd) {
        MetaIsCompared(plan, t.prev);
        MetaMore(Steps(t.prev), t.step);
      } else {
        CopiesAreCopied(plan, t.prev, Memory);
        CopiesAreCopied(plan, t.prev, Snapshots);
        MetaNow(Steps(t.prev), t.step);
      }
    }
  }

  /** A look at a power state, or what may change one for the worse. */
  predicate Raises(c: Cmd)
  {
    c.PowerRead? || c.PowerOn?
  }

  /** The last power read was of this VM and said it is off, and nothing was started since. */
  ghost predicate LastOff(s: seq<Step>, id: nat)
  {
    Last(s, PowerRead(id, Some(Off)), Raises)
  }

  lemma NextLow(plan: Plan, v: View, c: Cmd, id: nat)
    ensures (Next(plan, v, c).low == Some(id)) <==> c == PowerRead(id, Some(Off)) || (v.low == Some(id) && !Raises(c))
  {
  }

  lemma {:induction false} LowIsLast(plan: Plan, t: Trace, id: nat)
    ensures Judge(plan, t).view.low == Some(id) <==> LastOff(Steps(t), id)
  {
    if t.Then? {
      LowIsLast(plan, t.prev, id);
      NextLow(plan, Judge(plan, t.prev).view, t.step.cmd, id);
      LastMore(Steps(t.prev), t.step, PowerRead(id, Some(Off)), Raises);
    }
  }

  predicate Relists(c: Cmd)
  {
    c.InventoryRead? || c.Register? || c.Unregister?
  }

  /** The last inventory gave these ids for the two VMX files, and nothing was registered or unregistered since. */
  ghost predicate Listed(s: seq<Step>, ids: (nat, nat))
  {
    Last(s, InventoryRead(Some(ids)), Relists)
  }

  lemma NextInventory(plan: Plan, v: View, c: Cmd, ids: (nat, nat))
    ensures (Next(plan, v, c).inventory == Some(ids)) <==>
              c == InventoryRead(Some(ids)) || (v.inventory == Some(ids) && !Relists(c))
  {
  }

  lemma {:induction false} InventoryIsLast(plan: Plan, t: Trace, ids: (nat, nat))
    ensures Judge(plan, t).view.inventory == Some(ids) <==> Listed(Steps(t), ids)
  {
    if t.Then? {
      InventoryIsLast(plan, t.prev, ids);
      NextInventory(plan, Judge(plan, t.prev).view, t.step.cmd, ids);
      LastMore(Steps(t.prev), t.step, InventoryRead(Some(ids)), Relists);
    }
  }

  predicate Reorders(c: Cmd)
  {
    c.Order? || c.ShutDown?
  }

  /** The operator's last order was to power off by force, and it was not carried out yet. */
  ghost predicate Forced(s: seq<Step>)
  {
    Last(s, Order(J.Force), Reorders)
  }

  lemma NextForce(plan: Plan, v: View, c: Cmd)
    ensures Next(plan, v, c).orders.force <==> c == Order(J.Force) || (v.orders.force && !Reorders(c))
  {
  }

  lemma {:induction false} ForceIsLast(plan: Plan, t: Trace)
    ensures Judge(plan, t).view.orders.force <==> Forced(Steps(t))
  {
    if t.Then? {
      ForceIsLast(plan, t.prev);
      NextForce(plan, Judge(plan, t.prev).view, t.step.cmd);
      LastMore(Steps(t.prev), t.step, Order(J.Force), Reorders);
    }
  }

  predicate Resumes(c: Cmd)
  {
    c.StopRead? || c.Launch? || c.Poll?
  }

  /** No stop was requested when that was last asked, and nothing was launched or polled since. */
  ghost predicate Unstopped(s: seq<Step>)
  {
    Last(s, StopRead(false), Resumes)
  }

  lemma NextUnstopped(plan: Plan, v: View, c: Cmd)
    ensures Next(plan, v, c).orders.unstopped <==> c == StopRead(false) || (v.orders.unstopped && !Resumes(c))
  {
  }

  lemma {:induction false} UnstoppedIsLast(plan: Plan, t: Trace)
    ensures Judge(plan, t).view.orders.unstopped <==> Unstopped(Steps(t))
  {
    if t.Then? {
      UnstoppedIsLast(plan, t.prev);
      NextUnstopped(plan, Judge(plan, t.prev).view, t.step.cmd);
      LastMore(Steps(t.prev), t.step, StopRead(false), Resumes);
    }
  }

  // -----------------------------------------------------------------------------------------------
  // Every command of a safe run

  /** What was allowed when step `n` was issued. */
  lemma {:induction false} EachStep(plan: Plan, t: Trace, n: nat)
    requires n < |Steps(t)|
    ensures var v, s := Judge(plan, Prefix(t, n)), Steps(t)[n];
            && (Judge(plan, t).safe ==>
                  && v.safe && OneVm(plan, v.view, s.before) && OneVm(plan, Next(plan, v.view, s.cmd), s.after)
                  && (Ruled(s.cmd) ==> MayIssue(plan, v.view, s.cmd, s.before)))
            && (Judge(plan, t).owned && Mutates(s.cmd) ==> s.before.store.lock == Held(plan.id))
            && (Judge(plan, t).history ==>
                 v.history && Env(v.world, s.before) && Effect(plan, s.cmd, s.before, s.after))
  {
    if n < |Steps(t.prev)| {
      EachStep(plan, t.prev, n);
    }
  }

  /** Every disk of the plan was cloned, seen to have ended well, and checked after that and after the target VMX was
      last read. */
  ghost predicate AllChecked(plan: Plan, s: seq<Step>)
  {
    forall i :: 0 <= i < |plan.disks| ==> DiskChecked(plan, s, i)
  }

  ghost predicate DiskChecked(plan: Plan, s: seq<Step>, i: nat)
  {
    && PassedLast(s, Chain, i) && PassedLast(s, Shape, i) && PassedLast(s, Check.Size, i)
    && (plan.live ==>
         PassedAfter(s, Cid, i) && PassedLast(s, DeltaText, i) && PassedLast(s, DeltaChain, i) &&
         PassedLast(s, DeltaSize, i))
  }

  /** The last read of the target VMX gave `c`; and `c` is the reviewed configuration, with each disk, in a live
      migration, on its delta: under the base name of the path the last read of the source VMX gave for it. */
  ghost predicate ReadAsReviewed(plan: Plan, s: seq<Step>, c: Config)
  {
    && LastConfig(s, c)
    && if plan.live then exists names :: LastDeltas(s, names) && plan.Reviewed(c, Some(names))
         else c == plan.targetConfig
  }

  lemma VerifiedIsChecked(plan: Plan, t: Trace)
    requires TargetVerified(plan, Judge(plan, t).view.copy)
    ensures AllChecked(plan, Steps(t))
    ensures exists c :: ReadAsReviewed(plan, Steps(t), c)
    ensures plan.live ==> MetaCompared(Steps(t))
  {
    MetaIsCompared(plan, t);
    var v := Judge(plan, t).view.copy;
    ConfigIsLast(plan, t, v.config.value);
    if plan.live {
      DeltasAreLast(plan, t, v.deltas.value);
    }
    assert ReadAsReviewed(plan, Steps(t), v.config.value);
    forall i | 0 <= i < |plan.disks| ensures DiskChecked(plan, Steps(t), i) {
      assert DiskVerified(plan, Judge(plan, t).view.copy, i);
      forall check ensures (check, i) in Judge(plan, t).view.copy.again ==> PassedLast(Steps(t), check, i) {
        AgainIsLast(plan, t, check, i);
      }
      PassedIsPassed(plan, t, Cid, i);
    }
  }

  /** Nothing is done to the source, and no clone started, without a full check right before; and before the next clone
      every earlier one ended well and passed its checks, and after that it was found that no stop was requested: once
      one is, at most one more clone is launched. */
  lemma {:induction false} EachStepIsGuarded(plan: Plan, t: Trace, n: nat)
    requires Judge(plan, t).safe && n < |Steps(t)|
    requires var c := Steps(t)[n].cmd; c.Launch? || c.ShutDown? || c.CreateSnapshot? || c.Copy?
    ensures Guarded(Steps(t)[..n])
    ensures Steps(t)[n].cmd.Launch? ==> Unstopped(Steps(t)[..n])
    ensures Steps(t)[n].cmd.Launch? ==> forall i :: EverLaunched(Steps(t)[..n], i) ==>
              PassedAfter(Steps(t)[..n], Chain, i) && PassedAfter(Steps(t)[..n], Shape, i) &&
                  PassedAfter(Steps(t)[..n], Check.Size, i)
  {
    EachStep(plan, t, n);
    PrefixSteps(t, n);
    var u := Prefix(t, n);
    GuardIsGuarded(plan, u);
    UnstoppedIsLast(plan, u);
    if Steps(t)[n].cmd.Launch? {
      forall i | EverLaunched(Steps(u), i)
        ensures PassedAfter(Steps(u), Chain, i) && PassedAfter(Steps(u), Shape, i) &&
                  PassedAfter(Steps(u), Check.Size, i)
      {
        LaunchedIsLaunched(plan, u, i);
        assert FirstVerified(Judge(plan, u).view.copy, i);
        PassedIsPassed(plan, u, Chain, i);
        PassedIsPassed(plan, u, Shape, i);
        PassedIsPassed(plan, u, Check.Size, i);
      }
    }
  }

  /** The source leaves the inventory only in a MOVE, when it is off and was last seen to be off, when every disk was
      cloned and then checked, when the last read of the target VMX gave the reviewed configuration, in a live MOVE on
      the deltas the source was last seen on, and the last inventory showed the source and no target. */
  lemma {:induction false} SourceLeavesLast(plan: Plan, t: Trace, n: nat)
    requires Judge(plan, t).safe && n < |Steps(t)|
    requires Steps(t)[n].cmd.Unregister? && Steps(t)[n].cmd.id == Steps(t)[n].before.reg.src
    ensures var s, w := Steps(t)[..n], Steps(t)[n].before;
            && plan.move && w.reg.dst == 0 && w.srcPower == Off && LastOff(s, Steps(t)[n].cmd.id) && AllChecked(plan, s)
            && (plan.live || Guarded(s))
            && Listed(s, (Steps(t)[n].cmd.id, 0)) && (plan.live ==> MetaCompared(s))
            && exists c :: ReadAsReviewed(plan, s, c)
  {
    InventoryIsLast(plan, Prefix(t, n), (Steps(t)[n].cmd.id, 0));
    EachStep(plan, t, n);
    PrefixSteps(t, n);
    LowIsLast(plan, Prefix(t, n), Steps(t)[n].cmd.id);
    GuardIsGuarded(plan, Prefix(t, n));
    VerifiedIsChecked(plan, Prefix(t, n));
  }

  /** Only the target is ever started, by a MOVE that asks for it, after an inventory that showed it and not the source,
      with the source out of the inventory and off. */
  lemma {:induction false} OnlyTheTargetStarts(plan: Plan, t: Trace, n: nat)
    requires Judge(plan, t).safe && n < |Steps(t)| && Steps(t)[n].cmd.PowerOn?
    ensures var s, w := Steps(t)[..n], Steps(t)[n].before;
            && plan.move && plan.powerOn && Steps(t)[n].cmd.id == w.reg.dst != 0 && w.reg.src == 0 && w.srcPower == Off
            && AllChecked(plan, s) && Listed(s, (0, Steps(t)[n].cmd.id))
  {
    EachStep(plan, t, n);
    PrefixSteps(t, n);
    InventoryIsLast(plan, Prefix(t, n), (0, Steps(t)[n].cmd.id));
    VerifiedIsChecked(plan, Prefix(t, n));
  }

  /** A VM is registered only when the last inventory showed it missing, and in a MOVE both; and the target is put in
      only verified, with its configuration last read as the reviewed one. A VM is unregistered only when the last
      inventory showed it, and it was the last one whose power was read, off, with nothing started since. */
  lemma {:induction false} RegistersWhatIsRead(plan: Plan, t: Trace, n: nat)
    requires Judge(plan, t).safe && n < |Steps(t)| && (Steps(t)[n].cmd.Register? || Steps(t)[n].cmd.Unregister?)
    ensures var s, c := Steps(t)[..n], Steps(t)[n].cmd;
            exists ids :: Listed(s, ids) &&
              match c
              case Register(Source) => ids == (0, 0)
              case Register(Target) =>
                ids.1 == 0 && (plan.move ==> ids.0 == 0) && AllChecked(plan, s) &&
                    exists c :: ReadAsReviewed(plan, s, c)
              case Unregister(id) => id != 0 && (ids == (id, 0) || ids.1 == id) && LastOff(s, id)
  {
    EachStep(plan, t, n);
    PrefixSteps(t, n);
    var u := Prefix(t, n);
    var v := Judge(plan, u).view;
    InventoryIsLast(plan, u, v.inventory.value);
    if Steps(t)[n].cmd == Cmd.Register(Target) {
      VerifiedIsChecked(plan, u);
    } else if Steps(t)[n].cmd.Unregister? {
      LowIsLast(plan, u, Steps(t)[n].cmd.id);
    }
  }

  /** The source is powered off by force only on the operator's order, received since the last power-off, and only when
      a full check passed after it. */
  lemma {:induction false} ForcedOnOrder(plan: Plan, t: Trace, n: nat)
    requires Judge(plan, t).safe && n < |Steps(t)| && Steps(t)[n].cmd.ShutDown? && Steps(t)[n].cmd.force
    ensures var s := Steps(t)[..n];
            exists r, g :: r < g && LastAt(s, Order(J.Force), Reorders, r) && LastAt(s, GuardRead(true), Disturbs, g)
  {
    EachStep(plan, t, n);
    PrefixSteps(t, n);
    ForceIsLast(plan, Prefix(t, n));
    GuardIsGuarded(plan, Prefix(t, n));
    var s := Steps(t)[..n];
    var r :| LastAt(s, Order(J.Force), Reorders, r);
    var g :| LastAt(s, GuardRead(true), Disturbs, g);
    assert r < g by {
      assert Disturbs(s[r].cmd) && s[r].cmd != s[g].cmd;
    }
  }

  lemma {:induction false} AcquireCounts(plan: Plan, t: Trace, m: nat)
    requires m < |Steps(t)| && Steps(t)[m].cmd.Acquire?
    ensures Judge(plan, t).view.counts.acquires > 0
  {
    if m < |Steps(t.prev)| {
      AcquireCounts(plan, t.prev, m);
    }
  }

  /** From the moment the lock is asked for the two VMs never run together, and are registered together only in a live
      COPY, both off; and it is asked for only where no target is registered. */
  lemma {:induction false} NeverTwoVms(plan: Plan, t: Trace, m: nat, n: nat)
    requires Judge(plan, t).safe && m <= n < |Steps(t)| && Steps(t)[m].cmd.Acquire?
    ensures Steps(t)[m].before.reg.dst == 0
    ensures var w := Steps(t)[n].after;
            && !(w.reg.src != 0 && w.srcPower == On && w.reg.dst != 0 && w.dstPower == On)
            && (w.reg.src != 0 && w.reg.dst != 0 ==>
                  plan.live && !plan.move && w.srcPower == Off && w.dstPower == Off)
  {
    EachStep(plan, t, m);
    EachStep(plan, t, n);
    PrefixSteps(t, n);
    if m < n {
      AcquireCounts(plan, Prefix(t, n), m);
    }
  }

  /** However often a launch is repeated or its reply lost, no disk is cloned twice. */
  lemma {:induction false} LaunchedOnce(plan: Plan, t: Trace, p: nat, q: nat)
    requires Judge(plan, t).safe && p < q < |Steps(t)| && Steps(t)[p].cmd.Launch? && Steps(t)[q].cmd.Launch?
    ensures Steps(t)[p].cmd.disk != Steps(t)[q].cmd.disk
  {
    EachStep(plan, t, q);
    PrefixSteps(t, q);
    LaunchedIsLaunched(plan, Prefix(t, q), Steps(t)[p].cmd.disk);
    assert Launches(Steps(t)[..q][p].cmd, Steps(t)[p].cmd.disk);
  }

  /** No snapshot is merged and no lock released while an exit is awaited; and a tree that is not exactly the job's
      own snapshot is never merged. */
  lemma {:induction false} MergedAfterExits(plan: Plan, t: Trace, n: nat)
    requires Judge(plan, t).safe && n < |Steps(t)| && (Steps(t)[n].cmd.Merge? || Steps(t)[n].cmd.Archive?)
    ensures forall i: nat :: !Awaited(Steps(t)[..n], i)
    ensures Steps(t)[n].cmd.Merge? ==>
              var w, id := Steps(t)[n].before, Steps(t)[n].cmd.id;
              (if id == w.reg.src then w.trees.src else w.trees.dst) == [plan.snapshot]
  {
    EachStep(plan, t, n);
    PrefixSteps(t, n);
    forall i: nat ensures !Awaited(Steps(t)[..n], i) {
      PendingIsAwaited(plan, Prefix(t, n), i);
    }
  }

  // -----------------------------------------------------------------------------------------------
  // What is true of the host in a safe history

  /** Every clone on the host was launched by the job; one whose exit is not awaited has ended; and the disks a
      running clone reads cannot change. */
  ghost predicate Accounted(plan: Plan, v: View, w: World)
  {
    && v.copy.pending <= v.copy.launched
    && (forall i :: i in w.clones ==> i in v.copy.launched && (i !in v.copy.pending ==> w.clones[i].Exited?))
    && (v.copy.pending != {} ==> Frozen(plan, w))
  }

  lemma EnvAccounted(plan: Plan, v: View, a: World, b: World)
    requires Accounted(plan, v, a) && Env(a, b)
    ensures Accounted(plan, v, b)
  {
    forall i | i in b.clones ensures i in v.copy.launched && (i !in v.copy.pending ==> b.clones[i].Exited?) {
      assert i in a.clones;
    }
  }

  lemma StepCounted(plan: Plan, v: View, s: Step)
    requires Accounted(plan, v, s.before) && Effect(plan, s.cmd, s.before, s.after)
    ensures var u := Next(plan, v, s.cmd);
            && u.copy.pending <= u.copy.launched
            && forall i :: i in s.after.clones ==>
                 i in u.copy.launched && (i !in u.copy.pending ==> s.after.clones[i].Exited?)
  {
  }

  lemma StepFrozen(plan: Plan, v: View, s: Step)
    requires Accounted(plan, v, s.before) && Effect(plan, s.cmd, s.before, s.after)
    requires Ruled(s.cmd) ==> MayIssue(plan, v, s.cmd, s.before)
    ensures Next(plan, v, s.cmd).copy.pending != {} ==> Frozen(plan, s.after)
  {
  }

  /** In a safe history of a host that had no clones of this job, the clones are accounted for at every moment. */
  lemma {:induction false} AlwaysAccounted(plan: Plan, t: Trace)
    requires Judge(plan, t).history && Judge(plan, t).safe && Judge(plan, t).first.clones == map[]
    ensures Accounted(plan, Judge(plan, t).view, Judge(plan, t).world)
  {
    if t.Then? {
      AlwaysAccounted(plan, t.prev);
      var v := Judge(plan, t.prev);
      EnvAccounted(plan, v.view, v.world, t.step.before);
      StepCounted(plan, v.view, t.step);
      StepFrozen(plan, v.view, t.step);
    }
  }

  lemma {:induction false} FirstOfPrefix(plan: Plan, t: Trace, n: nat)
    requires n <= |Steps(t)|
    ensures Judge(plan, Prefix(t, n)).first == Judge(plan, t).first
  {
    if n < |Steps(t)| {
      FirstOfPrefix(plan, t.prev, n);
    }
  }

  /** When a snapshot is merged or the lock released, no clone is running on the host, however many replies were lost.
      */
  lemma {:induction false} NoCloneWhenMerged(plan: Plan, t: Trace, n: nat)
    requires Judge(plan, t).history && Judge(plan, t).safe && Judge(plan, t).first.clones == map[]
    requires n < |Steps(t)| && (Steps(t)[n].cmd.Merge? || Steps(t)[n].cmd.Archive?)
    ensures forall i :: i in Steps(t)[n].before.clones ==> Steps(t)[n].before.clones[i].Exited?
  {
    EachStep(plan, t, n);
    FirstOfPrefix(plan, t, n);
    AlwaysAccounted(plan, Prefix(t, n));
    EnvAccounted(plan, Judge(plan, Prefix(t, n)).view, Judge(plan, Prefix(t, n)).world, Steps(t)[n].before);
  }

  /** As long as a clone runs, the disk it reads cannot change: the source is off, or runs on the job's snapshot. */
  lemma {:induction false} FrozenWhileCloning(plan: Plan, t: Trace, i: nat)
    requires Judge(plan, t).history && Judge(plan, t).safe && Judge(plan, t).first.clones == map[]
    requires var w := Judge(plan, t).world; i in w.clones && w.clones[i].Running?
    ensures Frozen(plan, Judge(plan, t).world)
  {
    AlwaysAccounted(plan, t);
  }

  lemma StaysFree(plan: Plan, w: World, s: Step)
    requires w.store.lock == Free && Env(w, s.before) && Effect(plan, s.cmd, s.before, s.after) && !s.cmd.Acquire?
    ensures s.after.store.lock == Free
  {
  }

  lemma {:induction false} FreeStaysFree(plan: Plan, t: Trace, n: nat)
    requires Judge(plan, t).history && n < |Steps(t)| && Steps(t)[n].after.store.lock == Free
    requires forall k :: n < k < |Steps(t)| ==> !Steps(t)[k].cmd.Acquire?
    ensures Judge(plan, t).world.store.lock == Free
  {
    if n < |Steps(t.prev)| {
      forall k | n < k < |Steps(t.prev)| ensures !Steps(t.prev)[k].cmd.Acquire? {
        assert Steps(t)[k] == Steps(t.prev)[k];
      }
      FreeStaysFree(plan, t.prev, n);
      assert Steps(t)[|Steps(t.prev)|] == t.step;
      StaysFree(plan, Judge(plan, t.prev).world, t.step);
    }
  }

  predicate LocksUp(c: Cmd)
  {
    c.Acquire? || c.Archive?
  }

  lemma {:induction false} TriedIsTried(plan: Plan, t: Trace, p: nat)
    requires p < |Steps(t)| && LocksUp(Steps(t)[p].cmd)
    ensures var n := Judge(plan, t).view.counts; n.acquires > 0 || n.archives > 0
  {
    if p < |Steps(t.prev)| {
      TriedIsTried(plan, t.prev, p);
    }
  }

  /** The lock is asked for once, before anything is archived. */
  lemma {:induction false} AcquiredOnce(plan: Plan, t: Trace, p: nat, q: nat)
    requires Judge(plan, t).safe && p < q < |Steps(t)| && LocksUp(Steps(t)[p].cmd)
    ensures !Steps(t)[q].cmd.Acquire?
  {
    EachStep(plan, t, q);
    PrefixSteps(t, q);
    TriedIsTried(plan, Prefix(t, q), p);
  }

  /** A job that works under its lock changes nothing after it was archived. */
  lemma {:induction false} NothingAfterFinish(plan: Plan, t: Trace, n: nat, m: nat)
    requires Judge(plan, t).history && Judge(plan, t).safe && Judge(plan, t).owned && n < m < |Steps(t)|
    requires Steps(t)[n].cmd == Archive(true)
    ensures !Mutates(Steps(t)[m].cmd)
  {
    EachStep(plan, t, n);
    EachStep(plan, t, m);
    PrefixSteps(t, m);
    forall k | n < k < m ensures !Steps(Prefix(t, m))[k].cmd.Acquire? {
      AcquiredOnce(plan, t, n, k);
    }
    FreeStaysFree(plan, Prefix(t, m), n);
  }

  lemma RegistryStays(plan: Plan, w: World, s: Step)
    requires Env(w, s.before) && Effect(plan, s.cmd, s.before, s.after) && !Relists(s.cmd)
    ensures s.after.reg == w.reg
  {
  }

  /** What the last inventory said is still so: nobody else registers or unregisters. */
  lemma {:induction false} ListedIsTrue(plan: Plan, t: Trace, ids: (nat, nat))
    requires Judge(plan, t).history && Listed(Steps(t), ids)
    ensures Judge(plan, t).world.reg == Registry(ids.0, ids.1)
  {
    LastMore(Steps(t.prev), t.step, InventoryRead(Some(ids)), Relists);
    if t.step.cmd != InventoryRead(Some(ids)) {
      ListedIsTrue(plan, t.prev, ids);
      RegistryStays(plan, Judge(plan, t.prev).world, t.step);
    }
  }

  /** A job that did not hold the lock at first holds it only after asking for it. */
  lemma {:induction false} HeldIsAcquired(plan: Plan, t: Trace)
    requires Judge(plan, t).history && Judge(plan, t).first.store.lock != Held(plan.id)
    requires Judge(plan, t).world.store.lock == Held(plan.id)
    ensures exists m :: 0 <= m < |Steps(t)| && Steps(t)[m].cmd.Acquire?
  {
    if t.step.cmd.Acquire? {
      assert Steps(t)[|Steps(t.prev)|].cmd.Acquire?;
    } else {
      LockStays(plan, Judge(plan, t.prev).world, t.step);
      HeldIsAcquired(plan, t.prev);
      var m :| 0 <= m < |Steps(t.prev)| && Steps(t.prev)[m].cmd.Acquire?;
      assert Steps(t)[m].cmd.Acquire?;
    }
  }

  lemma LockStays(plan: Plan, w: World, s: Step)
    requires Env(w, s.before) && Effect(plan, s.cmd, s.before, s.after) && !s.cmd.Acquire?
    ensures s.after.store.lock == Held(plan.id) ==> w.store.lock == Held(plan.id)
  {
  }

  /** Nothing is changed before the lock was asked for. */
  lemma {:induction false} ChangesAreAcquired(plan: Plan, t: Trace, n: nat) returns (m: nat)
    requires Judge(plan, t).history && Judge(plan, t).owned && Judge(plan, t).first.store.lock != Held(plan.id)
    requires n < |Steps(t)| && Mutates(Steps(t)[n].cmd)
    ensures m < n && Steps(t)[m].cmd.Acquire?
  {
    EachStep(plan, t, n);
    PrefixSteps(t, n);
    FirstOfPrefix(plan, t, n);
    HeldIsAcquired(plan, Prefix(t, n));
    m :| 0 <= m < n && Steps(t)[..n][m].cmd.Acquire?;
  }

  lemma {:induction false} UnchangedRegistry(plan: Plan, t: Trace)
    requires Judge(plan, t).history && forall k :: 0 <= k < |Steps(t)| ==> !Mutates(Steps(t)[k].cmd)
    ensures Judge(plan, t).world.reg == Judge(plan, t).first.reg
  {
    if t.Then? {
      forall k | 0 <= k < |Steps(t.prev)| ensures !Mutates(Steps(t.prev)[k].cmd) {
        assert Steps(t)[k] == Steps(t.prev)[k];
      }
      UnchangedRegistry(plan, t.prev);
      assert Steps(t)[|Steps(t.prev)|] == t.step;
      ReadsKeepRegistry(plan, Judge(plan, t.prev).world, t.step);
    }
  }

  lemma ReadsKeepRegistry(plan: Plan, w: World, s: Step)
    requires Env(w, s.before) && Effect(plan, s.cmd, s.before, s.after) && !Mutates(s.cmd)
    ensures s.after.reg == w.reg
  {
  }

  /** A job that changes anything found no target registered when it began. */
  lemma {:induction false} ChangesNeedNoTarget(plan: Plan, t: Trace, n: nat)
    requires Judge(plan, t).history && Judge(plan, t).safe && Judge(plan, t).owned
    requires Judge(plan, t).first.store.lock != Held(plan.id) && n < |Steps(t)| && Mutates(Steps(t)[n].cmd)
    ensures Judge(plan, t).first.reg.dst == 0
  {
    var m := ChangesAreAcquired(plan, t, n);
    NeverTwoVms(plan, t, m, m);
    EachStep(plan, t, m);
    PrefixSteps(t, m);
    FirstOfPrefix(plan, t, m);
    forall k | 0 <= k < m ensures !Mutates(Steps(Prefix(t, m))[k].cmd) {
      if Mutates(Steps(t)[k].cmd) {
        var l := ChangesAreAcquired(plan, t, k);
        AcquiredOnce(plan, t, l, m);
      }
    }
    UnchangedRegistry(plan, Prefix(t, m));
  }
}

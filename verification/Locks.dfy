/** The operation lock of internal/esxi/detached.go between any number of jobs: `Acquire` is a `mkdir` and then a
    `cat`, `Finish` a `cat` and then a `mv`, and a command whose reply was lost may still take effect later. */
module Locks {
  import opened Text

  /** The directory `active`, and the job in its `job.meta`. */
  datatype Dir = Absent | Unmarked | Marked(job: nat)

  /** How far a job has come: `Made` its `mkdir` succeeded, `Cleared` its `Finish` read its own mark. */
  datatype Phase = Made | Working | Cleared

  /** `holders` are the jobs whose `mkdir` succeeded and that have not archived the directory since. `moves` are the
      `mv` commands under way, by job. */
  datatype State = State(dir: Dir, phases: map<nat, Phase>, holders: set<nat>, moves: multiset<nat>, raided: bool)

  const START := State(Absent, map[], {}, multiset{}, false)

  datatype Action =
    | Mkdir(job: nat)      // `Acquire`, first half: refused while the directory exists
    | Mark(job: nat)       // `Acquire`, second half
    | Look(job: nat)       // `Finish`, first half: goes on only when the mark is its own
    | Send(job: nat)       // `Finish`, second half: the `mv` is under way
    | Move(job: nat)       // the `mv` takes effect, on whatever directory is there
    | Drop(job: nat)       // the `mv` never takes effect

  predicate Enabled(s: State, a: Action)
  {
    match a
    case Mkdir(j) => j !in s.phases
    case Mark(j) => j in s.phases && s.phases[j] == Made && s.dir == Unmarked
    case Look(j) => j in s.phases && s.phases[j] == Working
    case Send(j) => j in s.phases && s.phases[j] == Cleared
    case Move(j) => j in s.moves
    case Drop(j) => j in s.moves
  }

  function Step(s: State, a: Action): State
    requires Enabled(s, a)
  {
    match a
    case Mkdir(j) =>
      if s.dir != Absent then s
      else s.(dir := Unmarked, phases := s.phases[j := Made], holders := s.holders + {j})
    case Mark(j) => s.(dir := Marked(j), phases := s.phases[j := Working])
    case Look(j) => if s.dir == Marked(j) then s.(phases := s.phases[j := Cleared]) else s
    case Send(j) => s.(phases := s.phases[j := Working], moves := s.moves + multiset{j})
    case Move(j) =>
      var t := s.(moves := s.moves - multiset{j});
      if s.dir == Absent then t
      else t.(dir := Absent, holders := s.holders - {j}, raided := s.raided || j !in s.holders)
    case Drop(j) => s.(moves := s.moves - multiset{j})
  }

  /** A job looks again only after its earlier `mv` has taken effect or failed for good. */
  predicate Settled(s: State, a: Action)
  {
    a.Look? ==> a.job !in s.moves
  }

  function ExecFrom(s: State, run: seq<Action>): Option<State>
  {
    if run == [] then Some(s)
    else
      var t, a := ExecFrom(s, run[..|run| - 1]), run[|run| - 1];
      if t.None? || !Enabled(t.value, a) then None else Some(Step(t.value, a))
  }

  function Exec(run: seq<Action>): Option<State>
  {
    ExecFrom(START, run)
  }

  ghost predicate AllSettled(s: State, run: seq<Action>)
  {
    forall n :: 0 <= n < |run| && ExecFrom(s, run[..n]).Some? ==> Settled(ExecFrom(s, run[..n]).value, run[n])
  }

  /** Who made the directory is the one who holds it, and only the holder is about to move it. */
  ghost predicate Inv(s: State)
  {
    && !s.raided
    && (s.dir == Absent ==> s.holders == {})
    && (s.dir == Unmarked ==> exists j :: s.holders == {j} && j in s.phases && s.phases[j] == Made)
    && (s.dir.Marked? ==> s.holders == {s.dir.job} && s.dir.job in s.phases && s.phases[s.dir.job] != Made)
    && (forall j :: j in s.phases && s.phases[j] == Made ==> j in s.holders && s.dir == Unmarked)
    && (forall j :: j in s.phases && s.phases[j] == Cleared ==> s.dir == Marked(j) && j !in s.moves)
    && (forall j :: j in s.moves ==> s.dir == Marked(j) && s.moves[j] == 1)
  }

  lemma StepKeepsInv(s: State, a: Action)
    requires Inv(s) && Enabled(s, a) && Settled(s, a)
    ensures Inv(Step(s, a))
  {
    match a
    case Mkdir(j) => assert s.dir == Absent ==> Step(s, a).holders == {j};
    case _ =>
  }

  lemma {:induction false} SettledRunsKeepInv(s: State, run: seq<Action>)
    requires Inv(s) && ExecFrom(s, run).Some? && AllSettled(s, run)
    ensures Inv(ExecFrom(s, run).value)
  {
    if run != [] {
      var n := |run| - 1;
      forall k | 0 <= k < n &&
          ExecFrom(s, run[..n][..k]).Some? ensures Settled(ExecFrom(s, run[..n][..k]).value, run[..n][k]) {
        assert run[..n][..k] == run[..k];
      }
      SettledRunsKeepInv(s, run[..n]);
      StepKeepsInv(ExecFrom(s, run[..n]).value, run[n]);
    }
  }

  /** With settled jobs, at most one job holds the lock at any time, and no job ever archives the lock of another. */
  lemma {:induction false} OneHolder(run: seq<Action>)
    requires Exec(run).Some? && AllSettled(START, run)
    ensures !Exec(run).value.raided
    ensures forall a, b :: a in Exec(run).value.holders && b in Exec(run).value.holders ==> a == b
  {
    SettledRunsKeepInv(START, run);
  }

  lemma Do(from: State, run: seq<Action>, s: State, a: Action) returns (run': seq<Action>, s': State)
    requires ExecFrom(from, run) == Some(s) && Enabled(s, a)
    ensures run' == run + [a] && s' == Step(s, a) && ExecFrom(from, run') == Some(s')
  {
    run', s' := run + [a], Step(s, a);
    assert run'[..|run|] == run;
  }

  /** One more action, which is settled. */
  lemma Go(from: State, run: seq<Action>, s: State, a: Action) returns (run': seq<Action>, s': State)
    requires ExecFrom(from, run) == Some(s) && Enabled(s, a) && AllSettled(from, run) && Settled(s, a)
    ensures run' == run + [a] && s' == Step(s, a) && ExecFrom(from, run') == Some(s') && AllSettled(from, run')
  {
    run', s' := Do(from, run, s, a);
    forall n | 0 <= n < |run'| &&
        ExecFrom(from, run'[..n]).Some? ensures Settled(ExecFrom(from, run'[..n]).value, run'[n]) {
      assert n < |run| ==> run'[..n] == run[..n];
    }
  }

  lemma {:induction false} FreshJob(jobs: set<nat>) returns (k: nat)
    ensures forall j :: j in jobs ==> j < k
    decreases jobs
  {
    k := 0;
    if jobs != {} {
      var j :| j in jobs;
      var n := FreshJob(jobs - {j});
      k := if n <= j then j + 1 else n;
      assert forall i :: i in jobs ==> i == j || i in jobs - {j};
    }
  }

  /** After an unsettled look, its job archives, and the `mv` still under way archives the next job's lock. */
  lemma Raid(s: State, j: nat) returns (run: seq<Action>)
    requires Inv(s) && Enabled(s, Look(j)) && j in s.moves
    ensures var t := Step(s, Look(j)); ExecFrom(t, run).Some? && AllSettled(t, run) && ExecFrom(t, run).value.raided
  {
    var from := Step(s, Look(j));
    var k := FreshJob(s.phases.Keys);
    var t := from;
    run := [];
    run, t := Go(from, run, t, Send(j));
    run, t := Go(from, run, t, Move(j));
    run, t := Go(from, run, t, Mkdir(k));
    run, t := Go(from, run, t, Mark(k));
    run, t := Go(from, run, t, Move(j));
  }

  /** Exactly when a look must be settled: wherever the lock was sound so far, no continuation that is settled itself
      archives another job's lock if and only if no earlier `mv` of this job is under way. */
  lemma LooksMustSettle(s: State, j: nat)
    requires Inv(s) && Enabled(s, Look(j))
    ensures var t := Step(s, Look(j));
            (forall run :: ExecFrom(t, run).Some? && AllSettled(t, run) ==> !ExecFrom(t, run).value.raided) <==>
                Settled(s, Look(j))
  {
    var t := Step(s, Look(j));
    if Settled(s, Look(j)) {
      StepKeepsInv(s, Look(j));
      forall run | ExecFrom(t, run).Some? && AllSettled(t, run) ensures !ExecFrom(t, run).value.raided {
        SettledRunsKeepInv(t, run);
      }
    } else {
      var run := Raid(s, j);
    }
  }

  /** Such a look can be reached: a job that looks again while its `mv` is under way archives the lock of the next job,
      and then two jobs hold it. */
  lemma UnsettledRaid() returns (run: seq<Action>)
    ensures Exec(run).Some? && Exec(run).value.raided && Exec(run).value.holders == {1, 2}
  {
    var s;
    run, s := Finishing();
    run, s := Do(START, run, s, Move(0));
    run, s := Do(START, run, s, Mkdir(1));
    run, s := Do(START, run, s, Mark(1));
    run, s := Do(START, run, s, Move(0));
    run, s := Do(START, run, s, Mkdir(2));
  }

  lemma Finishing() returns (run: seq<Action>, s: State)
    ensures Exec(run) == Some(s) && s == State(Marked(0), map[0 := Working], {0}, multiset{0, 0}, false)
  {
    run, s := Do(START, [], START, Mkdir(0));
    run, s := Do(START, run, s, Mark(0));
    run, s := Do(START, run, s, Look(0));
    run, s := Do(START, run, s, Send(0));
    run, s := Do(START, run, s, Look(0));
    run, s := Do(START, run, s, Send(0));
    assert s.phases == map[0 := Working];
  }
}

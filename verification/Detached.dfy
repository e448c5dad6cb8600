/** The detached worker of internal/esxi/detached.go as its processes on the host see it: any number of launch
    scripts, the worker one of them starts, the clone, and the scripts that stop and poll it, all interleaved and
    meeting only in the marker files of one disk. Every one of them may die at any point. */
module Detached {
  import opened Text
  import H = Hosts

  /** The markers: `.started`, `.pid`, `.clonepid`, `.exit.tmp` and `.exit`. A process is named by the launch script
      it comes from. */
  datatype Files = Files(started: bool, pid: Option<nat>, clonePid: Option<nat>, tmp: Option<nat>, exit: Option<nat>)

  /** How far a launch script, and then its worker, has come. `cloned` tells whether the code is that of a clone. */
  datatype Launch =
    | Called
    | Refused
    | Created
    | Started
    | Noted
    | Allowed
    | Copying(recorded: bool)
    | Ended(rc: nat, cloned: bool)
    | Staged(rc: nat, cloned: bool)
    | Published(rc: nat, cloned: bool)
    | Lost

  datatype Clone = Active | Over(code: nat)

  /** A stop script: it tests for the exit marker, then reads the clone's process id, then signals that process. */
  datatype Stop = Begun | Looking | Armed(pid: nat) | Signalled(pid: nat) | Gone

  /** A poll: it tests for the exit marker first and then reads it. */
  datatype Poll = Asking | Found | Done(code: nat) | NotDone

  datatype State = State(
    requireOff: bool, off: bool, files: Files, launches: map<nat, Launch>, clones: map<nat, Clone>,
    seenOff: set<nat>, stops: map<nat, Stop>, polls: map<nat, Poll>)

  predicate Init(s: State)
  {
    s.files == Files(false, None, None, None, None) && s.launches == map[] && s.clones == map[] && s.seenOff == {} &&
    s.stops == map[] && s.polls == map[]
  }

  // -----------------------------------------------------------------------------------------------
  // Steps

  datatype Action =
    | Call(k: nat) | Mkdir(k: nat) | Spawn(k: nat) | WritePid(k: nat) | Check(k: nat, failure: nat) | Start(k: nat)
    | Record(k: nat) | Reap(k: nat) | Stage(k: nat) | Publish(k: nat) | Die(k: nat)
    | End(k: nat, code: nat)
    | StopCall(t: nat) | StopTest(t: nat) | StopRead(t: nat) | StopKill(t: nat)
    | PollCall(t: nat) | PollTest(t: nat) | PollRead(t: nat)
    | Power(off: bool)

  predicate At(s: State, k: nat, p: Launch)
  {
    k in s.launches && s.launches[k] == p
  }

  function To(s: State, k: nat, p: Launch): State
  {
    s.(launches := s.launches[k := p])
  }

  predicate Enabled(s: State, a: Action)
  {
    match a
    case Call(k) => k !in s.launches
    case Mkdir(k) => At(s, k, Called)
    case Spawn(k) => At(s, k, Created)
    case WritePid(k) => At(s, k, Started)
    case Check(k, failure) => At(s, k, Noted) && failure < 256
    case Start(k) => At(s, k, Allowed)
    case Record(k) => At(s, k, Copying(false))
    case Reap(k) => At(s, k, Copying(true)) && k in s.clones && s.clones[k].Over?
    case Stage(k) => k in s.launches && s.launches[k].Ended?
    case Publish(k) => k in s.launches && s.launches[k].Staged?
    case Die(k) => k in s.launches
    case End(k, code) => k in s.clones && s.clones[k] == Active && code < 256
    case StopCall(t) => t !in s.stops
    case StopTest(t) => t in s.stops && s.stops[t].Begun?
    case StopRead(t) => t in s.stops && s.stops[t].Looking?
    case StopKill(t) => t in s.stops && s.stops[t].Armed?
    case PollCall(t) => t !in s.polls
    case PollTest(t) => t in s.polls && s.polls[t] == Asking
    case PollRead(t) => t in s.polls && s.polls[t] == Found
    case Power(_) => true
  }

  /** The lines of the scripts, one at a time. */
  function Step(s: State, a: Action): State
    requires Enabled(s, a)
  {
    if Preparing(a) then Prepare(s, a)
    else if Working(a) then Work(s, a)
    else if a.End? then s.(clones := s.clones[a.k := Over(a.code)])
    else if a.Power? then s.(off := a.off)
    else Observe(s, a)
  }

  /** Up to the clone. */
  predicate Preparing(a: Action)
  {
    a.Call? || a.Mkdir? || a.Spawn? || a.WritePid? || a.Check?
  }

  /** From the clone on. */
  predicate Working(a: Action)
  {
    a.Start? || a.Record? || a.Reap? || a.Stage? || a.Publish? || a.Die?
  }

  function Prepare(s: State, a: Action): State
    requires Enabled(s, a) && Preparing(a)
  {
    var f := s.files;
    match a
    case Call(k) => To(s, k, Called)
    case Mkdir(k) => if f.started then To(s, k, Refused) else To(s, k, Created).(files := f.(started := true))
    case Spawn(k) => To(s, k, Started)
    case WritePid(k) => To(s, k, Noted).(files := f.(pid := Some(k)))
    case Check(k, failure) =>
      if !s.requireOff then To(s, k, Allowed)
      else if failure != 0 then To(s, k, Ended(failure, false))
      else if s.off then To(s, k, Allowed).(seenOff := s.seenOff + {k})
      else To(s, k, Ended(92, false))
  }

  function Work(s: State, a: Action): State
    requires Enabled(s, a) && Working(a)
  {
    var f := s.files;
    match a
    case Start(k) => To(s, k, Copying(false)).(clones := s.clones[k := Active])
    case Record(k) => To(s, k, Copying(true)).(files := f.(clonePid := Some(k)))
    case Reap(k) => To(s, k, Ended(s.clones[k].code, true))
    case Stage(k) => To(s, k, Staged(s.launches[k].rc, s.launches[k].cloned)).(files :=
        f.(tmp := Some(s.launches[k].rc)))
    case Publish(k) => To(s, k, Published(s.launches[k].rc, s.launches[k].cloned)).(files :=
        f.(tmp := None, exit := f.tmp))
    case Die(k) => To(s, k, if Past(s.launches[k]) && !s.launches[k].Published? then Lost else s.launches[k])
  }

  /** The scripts that stop and poll. */
  function Observe(s: State, a: Action): State
    requires Enabled(s, a) && !Preparing(a) && !Working(a) && !a.End? && !a.Power?
  {
    var f := s.files;
    match a
    case StopCall(t) => s.(stops := s.stops[t := Begun])
    case StopTest(t) => s.(stops := s.stops[t := if f.exit.Some? then Gone else Looking])
    case StopRead(t) => s.(stops := s.stops[t := if f.clonePid.Some? then Armed(f.clonePid.value) else Gone])
    case StopKill(t) => s.(stops := s.stops[t := Signalled(s.stops[t].pid)])
    case PollCall(t) => s.(polls := s.polls[t := Asking])
    case PollTest(t) => s.(polls := s.polls[t := if f.exit.Some? then Found else NotDone])
    case PollRead(t) => s.(polls := s.polls[t := if f.exit.Some? then Done(f.exit.value) else NotDone])
  }

  /** Past `mkdir`. */
  predicate Past(p: Launch)
  {
    !p.Called? && !p.Refused?
  }

  // -----------------------------------------------------------------------------------------------
  // The invariant

  /** What one launch, the clone it may have started and the markers have to do with each other. */
  predicate Fits(s: State, k: nat)
    requires k in s.launches
  {
    match s.launches[k]
    case Copying(_) => k in s.clones
    case Ended(rc, cloned) => Result(s, k, rc, cloned)
    case Staged(rc, cloned) => Result(s, k, rc, cloned) && s.files.tmp == Some(rc)
    case Published(rc, cloned) => Result(s, k, rc, cloned) && s.files.exit == Some(rc)
    case Lost => true
    case Allowed => k !in s.clones && (s.requireOff ==> k in s.seenOff)
    case _ => k !in s.clones
  }

  predicate Result(s: State, k: nat, rc: nat, cloned: bool)
  {
    if cloned then k in s.clones && s.clones[k] == Over(rc) else k !in s.clones && rc != 0 && s.requireOff
  }

  ghost predicate Unique(s: State)
  {
    && (forall k :: k in s.launches && Past(s.launches[k]) ==> s.files.started)
    && (forall a, b :: a in s.launches && b in s.launches && Past(s.launches[a]) && Past(s.launches[b]) ==> a == b)
  }

  ghost predicate Rooted(s: State)
  {
    && (forall k :: k in s.clones ==> k in s.launches && Past(s.launches[k]) && (s.requireOff ==> k in s.seenOff))
    && (s.files.clonePid.Some? ==> s.files.clonePid.value in s.clones)
    && (s.files.exit.Some? ==> exists k :: k in s.launches && s.launches[k].Published?)
  }

  ghost predicate Inv(s: State)
  {
    && (forall k :: k in s.launches ==> Fits(s, k))
    && Unique(s) && Rooted(s)
    && (forall t :: t in s.stops ==> Harmless(s, s.stops[t]))
    && (forall t :: t in s.polls ==> Truthful(s, s.polls[t]))
  }

  /** A stop script signals only the clone. */
  predicate Harmless(s: State, p: Stop)
  {
    p.Armed? || p.Signalled? ==> p.pid in s.clones
  }

  predicate Truthful(s: State, p: Poll)
  {
    && (p.Found? ==> s.files.exit.Some?)
    && (p.Done? ==> s.files.exit == Some(p.code))
  }

  /** The markers and the clones only grow. */
  ghost predicate Grows(s: State, u: State)
  {
    && (s.files.exit.Some? ==> u.files.exit == s.files.exit)
    && (forall k :: k in s.clones ==> k in u.clones)
    && u.requireOff == s.requireOff
  }

  lemma ObserversKeep(s: State, u: State)
    requires Grows(s, u)
    requires forall t :: t in s.stops ==> Harmless(s, s.stops[t])
    requires forall t :: t in s.polls ==> Truthful(s, s.polls[t])
    ensures forall t :: t in s.stops ==> Harmless(u, s.stops[t])
    ensures forall t :: t in s.polls ==> Truthful(u, s.polls[t])
  {
    forall t | t in s.stops ensures Harmless(u, s.stops[t]) {
      assert Harmless(s, s.stops[t]);
    }
    forall t | t in s.polls ensures Truthful(u, s.polls[t]) {
      assert Truthful(s, s.polls[t]);
    }
  }

  /** What the other launches depend on. */
  lemma OthersFit(s: State, u: State, k: nat)
    requires forall j :: j in s.launches ==> Fits(s, j)
    requires u.files.tmp == s.files.tmp && u.files.exit == s.files.exit && u.requireOff == s.requireOff &&
              s.seenOff <= u.seenOff
    requires forall j :: j in u.launches && j != k ==> j in s.launches && u.launches[j] == s.launches[j]
    requires forall j :: j != k ==> (j in u.clones <==> j in s.clones) && (j in s.clones ==> u.clones[j] == s.clones[j])
    ensures forall j :: j in u.launches && j != k ==> Fits(u, j)
  {
    forall j | j in u.launches && j != k ensures Fits(u, j) {
      assert Fits(s, j);
    }
  }

  lemma UniqueStays(s: State, u: State, k: nat)
    requires Unique(s) && k in u.launches && (s.files.started ==> u.files.started)
    requires forall j :: j in u.launches && j != k ==> j in s.launches && u.launches[j] == s.launches[j]
    requires Past(u.launches[k]) ==> u.files.started && (!s.files.started || (k in s.launches && Past(s.launches[k])))
    ensures Unique(u)
  {
  }

  lemma RootedStays(s: State, u: State, k: nat)
    requires Rooted(s) && s.clones.Keys == u.clones.Keys && u.requireOff == s.requireOff && s.seenOff <= u.seenOff
    requires u.files.exit == s.files.exit && (u.files.clonePid == s.files.clonePid ||
              (u.files.clonePid == Some(k) && k in u.clones))
    requires forall j :: j in s.launches && j != k ==> j in u.launches && u.launches[j] == s.launches[j]
    requires k in s.launches && Past(s.launches[k]) ==>
              k in u.launches && Past(u.launches[k]) && (s.launches[k].Published? ==> u.launches[k].Published?)
    ensures Rooted(u)
  {
    if s.files.exit.Some? {
      var j :| j in s.launches && s.launches[j].Published?;
      assert j in u.launches && u.launches[j].Published?;
    }
  }

  lemma CallKeeps(s: State, a: Action)
    requires Inv(s) && Enabled(s, a) && a.Call?
    ensures Inv(Prepare(s, a)) && Grows(s, Prepare(s, a))
  {
    var u := Prepare(s, a);
    OthersFit(s, u, a.k);
    UniqueStays(s, u, a.k);
    RootedStays(s, u, a.k);
    ObserversKeep(s, u);
  }

  /** The lock each launch script takes for itself: only the first passes. */
  lemma ClaimKeeps(s: State, a: Action)
    requires Inv(s) && Enabled(s, a) && a.Mkdir?
    ensures Inv(Prepare(s, a)) && Grows(s, Prepare(s, a))
  {
    var u := Prepare(s, a);
    assert Fits(s, a.k);
    OthersFit(s, u, a.k);
    UniqueStays(s, u, a.k);
    RootedStays(s, u, a.k);
    ObserversKeep(s, u);
  }

  lemma AdvanceKeeps(s: State, a: Action)
    requires Inv(s) && Enabled(s, a) && (a.Spawn? || a.WritePid? || a.Check?)
    ensures Inv(Prepare(s, a)) && Grows(s, Prepare(s, a))
  {
    var u := Prepare(s, a);
    OthersFit(s, u, a.k);
    assert Fits(u, a.k) by {
      assert Fits(s, a.k);
    }
    UniqueStays(s, u, a.k);
    RootedStays(s, u, a.k);
    ObserversKeep(s, u);
  }

  lemma WorkFits(s: State, a: Action)
    requires Inv(s) && Enabled(s, a) && Working(a) && !a.Stage? && !a.Publish?
    ensures forall k :: k in Work(s, a).launches ==> Fits(Work(s, a), k)
  {
    assert Fits(s, a.k);
    assert Fits(Work(s, a), a.k);
    OthersFit(s, Work(s, a), a.k);
  }

  lemma WorkRooted(s: State, a: Action)
    requires Inv(s) && Enabled(s, a) && Working(a) && !a.Stage? && !a.Publish?
    ensures Unique(Work(s, a)) && Rooted(Work(s, a))
  {
    var u := Work(s, a);
    assert Fits(s, a.k);
    UniqueStays(s, u, a.k);
    if a.Start? {
      assert !s.files.exit.Some?;
    } else {
      RootedStays(s, u, a.k);
    }
  }

  lemma WorkKeeps(s: State, a: Action)
    requires Inv(s) && Enabled(s, a) && Working(a)
    ensures Inv(Work(s, a)) && Grows(s, Work(s, a))
  {
    if a.Stage? || a.Publish? {
      FinishKeeps(s, a);
    } else {
      WorkFits(s, a);
      WorkRooted(s, a);
      ObserversKeep(s, Work(s, a));
    }
  }

  lemma FinishKeeps(s: State, a: Action)
    requires Inv(s) && Enabled(s, a) && (a.Stage? || a.Publish?)
    ensures Inv(Work(s, a)) && Grows(s, Work(s, a))
  {
    var u := Work(s, a);
    assert Fits(s, a.k) && u.launches[a.k].rc == s.launches[a.k].rc;
    forall k | k in u.launches ensures Fits(u, k) {
      assert Fits(s, k);
    }
    assert !s.files.exit.Some?;
    if a.Publish? {
      assert u.launches[a.k].Published?;
    }
    ObserversKeep(s, u);
  }

  lemma EndKeeps(s: State, a: Action)
    requires Inv(s) && Enabled(s, a) && a.End?
    ensures Inv(Step(s, a)) && Grows(s, Step(s, a))
  {
    var u := Step(s, a);
    forall k | k in u.launches ensures Fits(u, k) {
      assert Fits(s, k);
    }
    ObserversKeep(s, u);
  }

  predicate Stopping(a: Action)
  {
    a.StopCall? || a.StopTest? || a.StopRead? || a.StopKill?
  }

  /** Who only looks changes nothing a launch depends on. */
  lemma LooksKeep(s: State, u: State)
    requires Inv(s) && u == s.(stops := u.stops, polls := u.polls, off := u.off)
    ensures Grows(s, u) && Unique(u) && Rooted(u)
    ensures forall k :: k in u.launches ==> Fits(u, k)
    ensures forall t :: t in s.stops ==> Harmless(u, s.stops[t])
    ensures forall t :: t in s.polls ==> Truthful(u, s.polls[t])
  {
    forall k | k in u.launches ensures Fits(u, k) {
      assert Fits(s, k);
    }
    ObserversKeep(s, u);
  }

  lemma StopKeeps(s: State, a: Action)
    requires Inv(s) && Enabled(s, a) && Stopping(a)
    ensures Inv(Observe(s, a)) && Grows(s, Observe(s, a))
  {
    assert a.t in s.stops ==> Harmless(s, s.stops[a.t]);
    LooksKeep(s, Observe(s, a));
  }

  lemma PollKeeps(s: State, a: Action)
    requires Inv(s) && Enabled(s, a) && (a.PollCall? || a.PollTest? || a.PollRead?)
    ensures Inv(Observe(s, a)) && Grows(s, Observe(s, a))
  {
    assert a.t in s.polls ==> Truthful(s, s.polls[a.t]);
    LooksKeep(s, Observe(s, a));
  }

  lemma StepKeepsInv(s: State, a: Action)
    requires Inv(s) && Enabled(s, a)
    ensures Inv(Step(s, a)) && Grows(s, Step(s, a))
  {
    if a.Call? {
      CallKeeps(s, a);
    } else if a.Mkdir? {
      ClaimKeeps(s, a);
    } else if Preparing(a) {
      AdvanceKeeps(s, a);
    } else if Working(a) {
      WorkKeeps(s, a);
    } else if a.End? {
      EndKeeps(s, a);
    } else if a.Power? {
      LooksKeep(s, Step(s, a));
    } else if Stopping(a) {
      StopKeeps(s, a);
    } else {
      PollKeeps(s, a);
    }
  }

  // -----------------------------------------------------------------------------------------------
  // Every interleaving

  /** The state a sequence of actions leads to; None when one of them is not possible where it stands. */
  function Exec(s: State, run: seq<Action>): Option<State>
  {
    if run == [] then Some(s)
    else
      var before := Exec(s, run[..|run| - 1]);
      var a := run[|run| - 1];
      if before.None? || !Enabled(before.value, a) then None else Some(Step(before.value, a))
  }

  lemma {:induction false} ExecKeepsInv(s: State, run: seq<Action>)
    requires Init(s) && Exec(s, run).Some?
    ensures Inv(Exec(s, run).value) && Exec(s, run).value.requireOff == s.requireOff
  {
    if run != [] {
      ExecKeepsInv(s, run[..|run| - 1]);
      StepKeepsInv(Exec(s, run[..|run| - 1]).value, run[|run| - 1]);
    }
  }

  lemma {:induction false} ExecPrefix(s: State, run: seq<Action>, n: nat)
    requires n <= |run| && Exec(s, run).Some?
    ensures Exec(s, run[..n]).Some?
    ensures n < |run| ==>
              Enabled(Exec(s, run[..n]).value, run[n]) && Exec(s, run[..n + 1]) ==
              Some(Step(Exec(s, run[..n]).value, run[n]))
  {
    if n < |run| {
      assert run[..n + 1][..n] == run[..n];
      if n < |run| - 1 {
        ExecPrefix(s, run[..|run| - 1], n);
        assert run[..|run| - 1][..n] == run[..n] && run[..|run| - 1][..n + 1] == run[..n + 1];
      } else {
        assert run[..n + 1] == run;
      }
    } else {
      assert run[..n] == run;
    }
  }

  lemma {:induction false} ClonesStay(s: State, run: seq<Action>, n: nat, k: nat)
    requires Init(s) && n <= |run| && Exec(s, run).Some? && Exec(s, run[..n]).Some? &&
              k in Exec(s, run[..n]).value.clones
    ensures k in Exec(s, run).value.clones
  {
    if n < |run| {
      ExecPrefix(s, run, |run| - 1);
      assert run[..|run| - 1][..n] == run[..n];
      ClonesStay(s, run[..|run| - 1], n, k);
      ExecKeepsInv(s, run[..|run| - 1]);
      StepKeepsInv(Exec(s, run[..|run| - 1]).value, run[|run| - 1]);
    } else {
      assert run[..n] == run;
    }
  }

  lemma StartIsFirst(s: State, k: nat)
    requires Inv(s) && Enabled(s, Start(k))
    ensures s.clones == map[]
  {
    assert Fits(s, k);
  }

  /** However often the launch script runs, the disk is cloned at most once. */
  lemma {:induction false} StartsOnce(s: State, run: seq<Action>, p: nat, q: nat)
    requires Init(s) && Exec(s, run).Some? && p < q < |run|
    ensures !(run[p].Start? && run[q].Start?)
  {
    if run[p].Start? && run[q].Start? {
      ExecPrefix(s, run, p);
      ExecPrefix(s, run, q);
      assert run[..q][..p + 1] == run[..p + 1];
      ClonesStay(s, run[..q], p + 1, run[p].k);
      ExecKeepsInv(s, run[..q]);
      StartIsFirst(Exec(s, run[..q]).value, run[q].k);
    }
  }

  /** A poll that says DONE tells the truth: the one clone ended with that code, or none was ever started because
      the source was not seen to be off, and then the code is not 0. */
  lemma {:induction false} DoneIsTrue(s: State, run: seq<Action>, t: nat)
    requires Init(s) && Exec(s, run).Some?
    requires var u := Exec(s, run).value; t in u.polls && u.polls[t].Done?
    ensures var u := Exec(s, run).value;
            var code := u.polls[t].code;
            || (exists k :: u.clones == map[k := Over(code)])
            || (u.clones == map[] && s.requireOff && code != 0)
  {
    ExecKeepsInv(s, run);
    var u := Exec(s, run).value;
    assert Truthful(u, u.polls[t]);
    var k :| k in u.launches && u.launches[k].Published?;
    assert Fits(u, k);
    forall j | j in u.clones ensures j == k {
    }
    if k in u.clones {
      assert u.clones == map[k := Over(u.polls[t].code)];
    }
  }

  /** Step `p` of the run checked the power state for launch `k` and found the source off. */
  ghost predicate ChecksOff(s: State, run: seq<Action>, p: nat, k: nat)
  {
    p < |run| && run[p] == Check(k, 0) && Exec(s, run[..p]).Some? && Exec(s, run[..p]).value.off
  }

  lemma SeenOffStep(s: State, a: Action, k: nat)
    requires Enabled(s, a) && k !in s.seenOff && k in Step(s, a).seenOff
    ensures a == Check(k, 0) && s.off
  {
  }

  lemma {:induction false} SeenOffWasOff(s: State, run: seq<Action>, k: nat)
    requires Init(s) && Exec(s, run).Some? && k in Exec(s, run).value.seenOff
    ensures exists p: nat :: ChecksOff(s, run, p, k)
  {
    var n := |run| - 1;
    var before := Exec(s, run[..n]);
    if k in before.value.seenOff {
      SeenOffWasOff(s, run[..n], k);
      var p: nat :| ChecksOff(s, run[..n], p, k);
      assert run[..n][..p] == run[..p];
      assert ChecksOff(s, run, p, k);
    } else {
      SeenOffStep(before.value, run[n], k);
      assert ChecksOff(s, run, n, k);
    }
  }

  /** A cold clone is started only after the host itself said that the source is off. */
  lemma {:induction false} OffBeforeClone(s: State, run: seq<Action>, k: nat)
    requires Init(s) && s.requireOff && Exec(s, run).Some? && k in Exec(s, run).value.clones
    ensures exists p: nat :: ChecksOff(s, run, p, k)
  {
    ExecKeepsInv(s, run);
    SeenOffWasOff(s, run, k);
  }

  /** Whatever a stop signals is the clone. */
  lemma {:induction false} StopsSignalTheClone(s: State, run: seq<Action>, t: nat)
    requires Init(s) && Exec(s, run).Some?
    requires var u := Exec(s, run).value; t in u.stops && u.stops[t].Signalled?
    ensures var u := Exec(s, run).value; u.clones.Keys == {u.stops[t].pid}
  {
    ExecKeepsInv(s, run);
    var u := Exec(s, run).value;
    assert Harmless(u, u.stops[t]);
    forall k | k in u.clones ensures k == u.stops[t].pid {
      assert Past(u.launches[k]) && Past(u.launches[u.stops[t].pid]);
    }
  }

  /** It has read the process id, or has yet to but found no exit marker. */
  predicate MaySignal(s: State, t: nat)
  {
    t in s.stops && (s.stops[t].Armed? || (s.stops[t].Looking? && s.files.clonePid.Some?))
  }

  lemma ExitIsLast(s: State, a: Action)
    requires Inv(s) && Enabled(s, a) && s.files.exit.Some?
    ensures Step(s, a).files.clonePid == s.files.clonePid && Step(s, a).files.exit == s.files.exit
  {
    StepKeepsInv(s, a);
    var k :| k in s.launches && s.launches[k].Published?;
    assert forall j :: j in s.launches && Past(s.launches[j]) ==> j == k;
  }

  lemma SilentStep(s: State, a: Action, t: nat)
    requires Inv(s) && Enabled(s, a) && s.files.exit.Some? && !MaySignal(s, t)
    ensures !MaySignal(Step(s, a), t)
  {
    ExitIsLast(s, a);
  }

  lemma {:induction false} SilentStays(s: State, more: seq<Action>, t: nat)
    requires Inv(s) && s.files.exit.Some? && Exec(s, more).Some?
    ensures var u := Exec(s, more).value; Inv(u) && u.files.exit.Some? && (!MaySignal(s, t) ==> !MaySignal(u, t))
  {
    if more != [] {
      var n := |more| - 1;
      SilentStays(s, more[..n], t);
      var v := Exec(s, more[..n]).value;
      StepKeepsInv(v, more[n]);
      ExitIsLast(v, more[n]);
      if !MaySignal(v, t) {
        SilentStep(v, more[n], t);
      }
    }
  }

  /** The last step signals. */
  ghost predicate Signals(s: State, more: seq<Action>, t: nat)
  {
    more != [] && more[|more| - 1] == StopKill(t) && Exec(s, more).Some?
  }

  /** Once the exit is published, exactly those stops may still signal that had tested for it before, and found the
      clone's process id or still will: one that has not tested yet, or comes later, never does. */
  lemma {:induction false} LateSignals(s: State, run: seq<Action>, t: nat)
    requires Init(s) && Exec(s, run).Some? && Exec(s, run).value.files.exit.Some?
    ensures var u := Exec(s, run).value; (exists more :: Signals(u, more, t)) <==> MaySignal(u, t)
  {
    ExecKeepsInv(s, run);
    var u := Exec(s, run).value;
    if MaySignal(u, t) {
      var more: seq<Action>, v := [], u;
      if u.stops[t].Looking? {
        more, v := Go(u, more, v, StopRead(t));
      }
      more, v := Go(u, more, v, StopKill(t));
      assert Signals(u, more, t);
    } else {
      forall more ensures !Signals(u, more, t) {
        if Signals(u, more, t) {
          SilentStays(u, more[..|more| - 1], t);
          assert false;
        }
      }
    }
  }

  /** There are such stops: one may send its signal when the clone has long ended and its exit is published, so the
      process it names may be another one by then. */
  lemma EarlyStopsMayBeLate()
    ensures exists s, run, t: nat :: Init(s) && SignalsAfterExit(s, run, t)
  {
    var s := State(false, false, Files(false, None, None, None, None), map[], map[], {}, map[], map[]);
    var before, u := ArmedStop(s);
    before, u := Exited(s, before, u);
    var run, v := Go(s, before, u, StopKill(0));
    assert run[..|run| - 1] == before;
    assert SignalsAfterExit(s, run, 0);
  }

  lemma Go(s: State, run: seq<Action>, u: State, a: Action) returns (run': seq<Action>, u': State)
    requires Exec(s, run) == Some(u) && Enabled(u, a)
    ensures run' == run + [a] && u' == Step(u, a) && Exec(s, run') == Some(u')
  {
    run', u' := run + [a], Step(u, a);
    assert run'[..|run'| - 1] == run;
  }

  /** A worker about to clone. */
  lemma AboutToClone(s: State) returns (run: seq<Action>, u: State)
    requires Init(s) && !s.requireOff
    ensures Exec(s, run) == Some(u)
    ensures u == s.(launches := map[0 := Allowed], files := Files(true, Some(0), None, None, None))
  {
    run, u := Spawned(s);
    run, u := Go(s, run, u, WritePid(0));
    run, u := Go(s, run, u, Check(0, 0));
    assert u.launches == map[0 := Allowed];
  }

  lemma Spawned(s: State) returns (run: seq<Action>, u: State)
    requires Init(s)
    ensures Exec(s, run) == Some(u)
    ensures u == s.(launches := map[0 := Started], files := Files(true, None, None, None, None))
  {
    run, u := Go(s, [], s, Call(0));
    run, u := Go(s, run, u, Mkdir(0));
    run, u := Go(s, run, u, Spawn(0));
    assert u.launches == map[0 := Started];
  }

  /** A stop that has read the process id of a running clone. */
  lemma ArmedStop(s: State) returns (run: seq<Action>, u: State)
    requires Init(s) && !s.requireOff
    ensures Exec(s, run) == Some(u) && At(u, 0, Copying(true)) && 0 in u.clones && u.clones[0] == Active
    ensures 0 in u.stops && u.stops[0] == Armed(0)
  {
    run, u := AboutToClone(s);
    run, u := Go(s, run, u, Start(0));
    run, u := Go(s, run, u, Record(0));
    run, u := Go(s, run, u, StopCall(0));
    run, u := Go(s, run, u, StopTest(0));
    run, u := Go(s, run, u, StopRead(0));
  }

  /** Meanwhile the clone ends and its exit is published. */
  lemma Exited(s: State, run: seq<Action>, u: State) returns (run': seq<Action>, u': State)
    requires Exec(s, run) == Some(u) && At(u, 0, Copying(true)) && 0 in u.clones && u.clones[0] == Active
    ensures Exec(s, run') == Some(u') && u'.stops == u.stops && u'.files.exit == Some(0)
  {
    run', u' := Go(s, run, u, End(0, 0));
    run', u' := Go(s, run', u', Reap(0));
    run', u' := Go(s, run', u', Stage(0));
    run', u' := Go(s, run', u', Publish(0));
  }

  /** The last step signals although the exit is published. */
  ghost predicate SignalsAfterExit(s: State, run: seq<Action>, t: nat)
  {
    && run != [] && run[|run| - 1] == StopKill(t)
    && Exec(s, run[..|run| - 1]).Some? && Exec(s, run[..|run| - 1]).value.files.exit.Some? && Exec(s, run).Some?
  }

  /** The abstract clone this stands for: launched once the first script passed `mkdir`, ended once its exit is
      published. */
  function Abstract(s: State): Option<H.Clone>
  {
    if s.files.exit.Some? then Some(H.Exited(s.files.exit.value))
    else if s.files.started then Some(H.Running)
    else None
  }

  /** Seen through the markers, a step launches the clone, ends it, or is not seen at all: what the host model of the
      migration assumes of a launch and of the time that passes. */
  lemma {:induction false} StepRefines(s: State, a: Action)
    requires Inv(s) && Enabled(s, a)
    ensures var x, y := Abstract(s), Abstract(Step(s, a));
            || y == x
            || (x == None && y == Some(H.Running) && a.Mkdir?)
            || (x == Some(H.Running) && y.Some? && y.value.Exited? && a.Publish?)
  {
    if a.Publish? {
      assert Fits(s, a.k);
    }
    if a.Mkdir? {
      assert s.files.exit.Some? ==> s.files.started;
    }
  }
}

/** The handshake of internal/web/server.go between its request handlers and the one migration it may run: the mutex
    `op`, which a handler only tries, the flag `running`, and the report of each session, which a start uses up. */
module Server {
  import opened Text

  /** How far a handler has come. From `Locked` on, until it is done, it holds `op`. */
  datatype Stage = Arrived | Locked | Clear | Built(analysis: nat) | Marked(analysis: nat) | Rolling | Over

  /** `used` are the ids of all analyses so far, `jobs` those a job was made from, `engines` the ones still running. */
  datatype State = State(
    op: Option<nat>, running: bool, handlers: map<nat, Stage>, reports: map<nat, nat>,
    used: set<nat>, jobs: multiset<nat>, engines: set<nat>)

  const START := State(None, false, map[], map[], {}, multiset{}, {})

  datatype Action =
    | Arrive(h: nat)
    | TryLock(h: nat)
    | CheckRunning(h: nat)
    | Analyze(h: nat, session: nat, id: nat)       // a fresh report for the session
    | Connect(h: nat, session: nat)                // the report is dropped
    | Build(h: nat, session: nat, id: nat)         // `start`: the job is made and the report used up
    | Mark(h: nat)                                 // `start`: `running` is set
    | Spawn(h: nat)                                // `start`: the engine runs on its own
    | Roll(h: nat)
    | Leave(h: nat)                                // any other return, which unlocks
    | EngineEnds(id: nat)
    | Expire(session: nat)

  predicate Holds(p: Stage)
  {
    !p.Arrived? && !p.Over?
  }

  predicate At(s: State, h: nat, p: Stage)
  {
    h in s.handlers && s.handlers[h] == p
  }

  predicate Enabled(s: State, a: Action)
  {
    match a
    case Arrive(h) => h !in s.handlers
    case TryLock(h) => At(s, h, Arrived)
    case CheckRunning(h) => At(s, h, Locked)
    case Analyze(h, _, id) => At(s, h, Clear) && id !in s.used
    case Connect(h, _) => At(s, h, Clear)
    case Build(h, session, id) => At(s, h, Clear) && session in s.reports && s.reports[session] == id
    case Mark(h) => h in s.handlers && s.handlers[h].Built?
    case Spawn(h) => h in s.handlers && s.handlers[h].Marked?
    case Roll(h) => At(s, h, Clear)
    case Leave(h) => At(s, h, Clear) || At(s, h, Rolling)
    case EngineEnds(id) => id in s.engines
    case Expire(session) => session in s.reports
  }

  function To(s: State, h: nat, p: Stage): State
  {
    s.(handlers := s.handlers[h := p])
  }

  function Unlock(s: State, h: nat): State
  {
    To(s, h, Over).(op := None)
  }

  function Step(s: State, a: Action): State
    requires Enabled(s, a)
  {
    match a
    case Arrive(h) => To(s, h, Arrived)
    case TryLock(h) => if s.op.Some? then To(s, h, Over) else To(s, h, Locked).(op := Some(h))
    case CheckRunning(h) => if s.running then Unlock(s, h) else To(s, h, Clear)
    case Analyze(h, session, id) => Unlock(s, h).(reports := s.reports[session := id], used := s.used + {id})
    case Connect(h, session) => Unlock(s, h).(reports := s.reports - {session})
    case Build(h, session, id) => To(s, h, Built(id)).(reports := s.reports - {session}, jobs := s.jobs + multiset{id})
    case Mark(h) => To(s, h, Marked(s.handlers[h].analysis)).(running := true)
    case Spawn(h) => Unlock(s, h).(engines := s.engines + {s.handlers[h].analysis})
    case Roll(h) => To(s, h, Rolling)
    case Leave(h) => Unlock(s, h)
    case EngineEnds(id) => s.(engines := s.engines - {id}, running := false)
    case Expire(session) => s.(reports := s.reports - {session})
  }

  function Exec(run: seq<Action>): Option<State>
  {
    if run == [] then Some(START)
    else
      var s, a := Exec(run[..|run| - 1]), run[|run| - 1];
      if s.None? || !Enabled(s.value, a) then None else Some(Step(s.value, a))
  }

  /** One handler at a time is past the lock, and what it may rely on. */
  ghost predicate Exclusive(s: State)
  {
    && (forall h :: h in s.handlers && Holds(s.handlers[h]) ==> s.op == Some(h))
    && (s.op.Some? ==> s.op.value in s.handlers && Holds(s.handlers[s.op.value]))
  }

  ghost predicate OneEngine(s: State)
  {
    && (s.engines != {} ==> s.running)
    && (forall a, b :: a in s.engines && b in s.engines ==> a == b)
    && (forall h :: h in s.handlers ==> Quiet(s, s.handlers[h]))
  }

  /** What the server does while a handler is where it is. */
  predicate Quiet(s: State, p: Stage)
  {
    && (p.Clear? || p.Built? || p.Rolling? ==> !s.running && s.engines == {})
    && (p.Marked? ==> s.engines == {} && s.running)
  }

  /** A report belongs to one session and has not been used. */
  ghost predicate Fresh(s: State)
  {
    && (forall x :: x in s.reports ==> s.reports[x] in s.used && s.reports[x] !in s.jobs)
    && (forall x, y :: x in s.reports && y in s.reports && s.reports[x] == s.reports[y] ==> x == y)
    && (forall id :: id in s.jobs ==> id in s.used && s.jobs[id] == 1)
  }

  ghost predicate Inv(s: State)
  {
    Exclusive(s) && OneEngine(s) && Fresh(s)
  }

  lemma KeepsExclusive(s: State, a: Action)
    requires Exclusive(s) && Enabled(s, a)
    ensures Exclusive(Step(s, a))
  {
  }

  lemma KeepsOneEngine(s: State, a: Action)
    requires Exclusive(s) && OneEngine(s) && Enabled(s, a)
    ensures OneEngine(Step(s, a))
  {
    var u := Step(s, a);
    forall h | h in u.handlers ensures Quiet(u, u.handlers[h]) {
      if h in s.handlers {
        assert Quiet(s, s.handlers[h]);
      }
    }
  }

  lemma KeepsFresh(s: State, a: Action)
    requires Fresh(s) && Enabled(s, a)
    ensures Fresh(Step(s, a))
  {
    if a.Build? {
      BuildKeepsFresh(s, a);
    } else if a.Analyze? {
      AnalyzeKeepsFresh(s, a);
    } else {
      FewerReports(s, Step(s, a));
    }
  }

  lemma AnalyzeKeepsFresh(s: State, a: Action)
    requires Fresh(s) && a.Analyze? && Enabled(s, a)
    ensures Fresh(Step(s, a))
  {
    var u := Step(s, a);
    forall x | x in u.reports ensures u.reports[x] in u.used && u.reports[x] !in u.jobs {
    }
    forall x, y | x in u.reports && y in u.reports && u.reports[x] == u.reports[y] ensures x == y {
    }
  }

  lemma FewerReports(s: State, u: State)
    requires Fresh(s) && u.used == s.used && u.jobs == s.jobs
    requires forall x :: x in u.reports ==> x in s.reports && u.reports[x] == s.reports[x]
    ensures Fresh(u)
  {
  }

  lemma BuildKeepsFresh(s: State, a: Action)
    requires Fresh(s) && a.Build? && Enabled(s, a)
    ensures Fresh(Step(s, a))
  {
    var u := Step(s, a);
    forall id | id in u.jobs ensures id in u.used && u.jobs[id] == 1 {
      assert id != a.id ==> id in s.jobs;
    }
  }

  lemma {:induction false} ExecKeepsInv(run: seq<Action>)
    requires Exec(run).Some?
    ensures Inv(Exec(run).value)
  {
    if run != [] {
      var s, a := Exec(run[..|run| - 1]).value, run[|run| - 1];
      ExecKeepsInv(run[..|run| - 1]);
      KeepsExclusive(s, a);
      KeepsOneEngine(s, a);
      KeepsFresh(s, a);
    }
  }

  /** However requests interleave, the server runs at most one engine, no rollback beside it, and starts at most one
      job from each analysis. */
  lemma {:induction false} OneAtATime(run: seq<Action>)
    requires Exec(run).Some?
    ensures var s := Exec(run).value;
            && (forall a, b :: a in s.engines && b in s.engines ==> a == b)
            && (forall h :: h in s.handlers && s.handlers[h].Rolling? ==> s.engines == {})
            && (forall g, h :: g in s.handlers && h in s.handlers && s.handlers[g].Rolling? &&
                               s.handlers[h].Rolling?
                               ==> g == h)
            && (forall id :: s.jobs[id] <= 1)
  {
    ExecKeepsInv(run);
    var s := Exec(run).value;
    forall h | h in s.handlers && s.handlers[h].Rolling? ensures s.engines == {} && s.op == Some(h) {
      assert Quiet(s, s.handlers[h]);
    }
    forall id ensures s.jobs[id] <= 1 {
      assert id in s.jobs ==> s.jobs[id] == 1;
    }
  }
}

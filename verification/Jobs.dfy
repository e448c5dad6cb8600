/** The job of internal/migration/state.go: its published state and the stop protocol. The operator may call
    `Control` at any moment, so every access the engine makes is preceded by an arbitrary number of such calls. */
module Jobs {
  import opened Text

  datatype Phase =
    | Queued | Preflight | Shutdown | AwaitingShutdown | Cloning | Reconnecting | VerifyingDisk | VerifyingConfig
    | Commit | PoweringOn | Completed | Failed | Unknown | RolledBack | Snapshotting | Cutover | Consolidating
    | Restoring | Stopped

  datatype Action = Stop | Wait | Manual | Force

  /** A registration as the job publishes it. */
  datatype Registration = Registered | NotRegistered | Unconfirmed

  datatype State = State(
    phase: Phase, complete: bool, targetVerified: bool, canRollback: bool,
    source: Registration, target: Registration, targetId: nat)

  /** A new job. */
  const NEW := State(Queued, false, false, false, Registered, NotRegistered, 0)

  /** Everything before the first step that cannot simply be abandoned. */
  predicate Stoppable(p: Phase)
  {
    || p == Queued || p == Preflight || p == Shutdown || p == AwaitingShutdown || p == Snapshotting || p == Cloning
    || p == Reconnecting || p == VerifyingDisk
  }

  class Job {
    var state: State
    var stop: bool
    /** Set once the job has passed the point where a stop is honoured. */
    var final: bool
    /** The channel `actions`, of capacity one. */
    var actions: seq<Action>
    /** Control calls that found the job awaiting its shutdown but have not sent their action yet. */
    var approved: multiset<Action>

    /** The invariant of the stop protocol. */
    ghost predicate Valid()
      reads this
    {
      && !(stop && final)
      && |actions| <= 1
      && (Stop in actions ==> stop)
      && Stop !in approved
    }

    constructor ()
      ensures Valid()
      ensures state == NEW
      ensures !stop && !final && actions == []
    {
      state := NEW;
      stop, final, actions, approved := false, false, [], multiset{};
    }

    /** A stop that is accepted is never lost, even when the channel is full. */
    method RequestStop(confirmed: bool) returns (accepted: bool)
      requires Valid()
      modifies this`stop, this`actions
      ensures Valid()
      ensures accepted <==> confirmed && !state.complete && !final && Stoppable(state.phase)
      ensures stop == (old(stop) || accepted)
      ensures actions == if accepted && old(actions) == [] then [Stop] else old(actions)
    {
      if !confirmed || state.complete || final || !Stoppable(state.phase) {
        return false;
      }
      stop := true;
      if actions == [] {
        actions := [Stop];
      }
      return true;
    }

    /** The first half of `Control` for the other actions: the phase is read under the mutex, which is then left. */
    method Approve(action: Action, confirmed: bool) returns (ok: bool)
      requires Valid() && action != Stop
      modifies this`approved
      ensures Valid()
      ensures ok <==> state.phase == AwaitingShutdown && (action == Force ==> confirmed)
      ensures approved == if ok then old(approved) + multiset{action} else old(approved)
    {
      ok := state.phase == AwaitingShutdown && (action == Force ==> confirmed);
      if ok {
        approved := approved + multiset{action};
      }
    }

    /** The second half: the action goes into the channel unless one is already pending. */
    method Send(action: Action) returns (sent: bool)
      requires Valid() && action in approved
      modifies this`approved, this`actions
      ensures Valid()
      ensures sent <==> old(actions) == []
      ensures actions == if sent then [action] else old(actions)
      ensures approved == old(approved) - multiset{action}
    {
      approved := approved - multiset{action};
      sent := actions == [];
      if sent {
        actions := [action];
      }
    }

    /** Any number of operator calls. They never touch what the engine publishes, never take an accepted stop
        back, and raise the stop only where it is still honoured. */
    method Operator()
      requires Valid()
      modifies this`stop, this`actions, this`approved
      ensures Valid()
      ensures old(stop) ==> stop
      ensures stop ==> old(stop) || (!state.complete && !final && Stoppable(state.phase))
      ensures old(actions) != [] ==> actions == old(actions)
    {
      var calls: nat := *;
      while calls > 0
        invariant Valid()
        invariant old(stop) ==> stop
        invariant stop ==> old(stop) || (!state.complete && !final && Stoppable(state.phase))
        invariant old(actions) != [] ==> actions == old(actions)
      {
        var confirmed: bool := *;
        var action: Action := *;
        var kind: nat := *;
        if kind == 0 {
          var _ := RequestStop(confirmed);
        } else if kind == 1 && action != Stop {
          var _ := Approve(action, confirmed);
        } else if action in approved {
          var _ := Send(action);
        }
        calls := calls - 1;
      }
    }

    method StopRequested() returns (r: bool)
      requires Valid()
      modifies this`stop, this`actions, this`approved
      ensures Valid() && r == stop
      ensures old(stop) ==> stop
      ensures stop ==> old(stop) || (!state.complete && !final && Stoppable(state.phase))
    {
      Operator();
      r := stop;
    }

    /** Enters a phase past which a stop is no longer honoured, unless one was accepted before. */
    method Proceed(p: Phase) returns (ok: bool)
      requires Valid()
      modifies this
      ensures Valid()
      ensures ok <==> !stop
      ensures ok ==> final && state == old(state).(phase := p)
      ensures !ok ==> state == old(state) && final == old(final)
      ensures old(stop) ==> !ok
    {
      Operator();
      if stop {
        return false;
      }
      final := true;
      state := state.(phase := p);
      return true;
    }

    /** `update`: the engine is the only one to change the state, so it passes the whole new value. */
    method Update(next: State)
      requires Valid()
      modifies this`state, this`stop, this`actions, this`approved
      ensures Valid() && state == next
      ensures old(stop) ==> stop
      ensures stop ==> old(stop) || (!old(state).complete && !final && Stoppable(old(state).phase))
    {
      Operator();
      state := next;
    }

    method SetPhase(p: Phase)
      requires Valid()
      modifies this`state, this`stop, this`actions, this`approved
      ensures Valid() && state == old(state).(phase := p)
      ensures old(stop) ==> stop
      ensures stop ==> old(stop) || (!old(state).complete && !final && Stoppable(old(state).phase))
    {
      Update(state.(phase := p));
    }

    /** The engine's receive while it awaits the operator; None when the context ends first. */
    method Receive() returns (action: Option<Action>)
      requires Valid()
      modifies this`stop, this`actions, this`approved
      ensures Valid()
      ensures old(stop) ==> stop
      ensures stop ==> old(stop) || (!state.complete && !final && Stoppable(state.phase))
      ensures action == Some(Stop) ==> stop
    {
      Operator();
      if actions == [] {
        return None;
      }
      action := Some(actions[0]);
      actions := [];
    }
  }
}

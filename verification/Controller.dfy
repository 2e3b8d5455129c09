/**
 The controller as an object: its rows, and the transactions that update them in place
 (`submit`, `claim_stage`, `commit_run`, `resume`, `_block_orphaned_running`,
 `_record_provider_preflight_stop` in orchestrator/controller.py).
 Each method either writes exactly what the transaction of module Lifecycle says, or nothing.
 */
module Controllers {
  import opened Prelude
  import opened Profiles
  import opened GateGraph
  import opened Convergence
  import opened Lifecycle
  import opened LifecycleInvariants

  class Controller {
    const profile: Profile
    const envelope: bool
    var task: Task
    var runs: seq<StageRun>
    var log: seq<Transition>
    var edges: seq<EdgeRow>

    ghost function Rows(): Db
      reads this
    {
      Db(profile, envelope, task, runs, log, edges)
    }

    static lemma KeepsLaws(db: Db, a: Action)
      ensures Consistent(db) && Admissible(db, a) ==> Consistent(Apply(db, a))
    {
      hide Consistent, Admissible, Apply;
      if Consistent(db) && Admissible(db, a) {
        KeepsConsistent(db, a);
      }
    }

    constructor Submit(p: Profile, withEnvelope: bool, op: Token)
      requires WellFormed(p)
      ensures profile == p && envelope == withEnvelope
      ensures FreshlySubmitted(Rows()) && Consistent(Rows())
    {
      hide Consistent, ZeroCounters;
      profile := p;
      envelope := withEnvelope;
      task := Task(Queued, None, p.initial, 0, 0, false, None);
      runs := [];
      log := [Transition(1, op, None, None, None, None, Queued, Submitted)];
      edges := [];
      new;
      edges := SeedCounters(p.edgeCaps);
      SubmittedIsConsistent(Rows());
    }

    /** One counter at zero for every edge of the profile. */
    static method SeedCounters(caps: map<Edge, int>) returns (rows: seq<EdgeRow>)
      ensures ZeroCounters(caps, rows)
    {
      hide ZeroCounters;
      var left := caps.Keys;
      rows := [];
      assert ZeroCounters(caps - left, rows) by {
        NoCounters(caps - left);
      }
      while left != {}
        invariant left <= caps.Keys && ZeroCounters(caps - left, rows)
        decreases |left|
      {
        var edge :| edge in left;
        var rest := left - {edge};
        assert (caps - rest) - {edge} == caps - left;
        OneMoreCounter(caps - rest, rows, edge);
        rows := rows + [EdgeRow(edge, 0, caps[edge])];
        left := rest;
      }
      assert caps - left == caps;
    }

    /** `_insert_transition` numbers the new entry after the highest one logged. */
    method InsertTransition(op: Token, run: Option<Token>, edge: Option<Edge>, outcome: Option<Name>,
                            from: Option<Status>, to: Status, reason: Reason)
      modifies this`log
      ensures log == old(log) + [Entry(old(log), op, run, edge, outcome, from, to, reason)]
    {
      log := log + [Transition(MaxNumber(log) + 1, op, run, edge, outcome, from, to, reason)];
    }

    method StopAtCap(op: Token, reason: Reason)
      requires task.status == Queued
      modifies this
      ensures Rows() == StopForCap(old(Rows()), op, reason)
    {
      InsertTransition(op, None, None, None, Some(Queued), WaitingUser, reason);
      task := task.(status := WaitingUser, stopReason := Some(reason), lease := None, revision := task.revision + 1);
    }

    /** For an envelope task on a profile whose every loop is scored the caps only observe. */
    method CapsLifted() returns (lifted: bool)
      requires WellFormed(profile)
      ensures lifted <==> Uncapped(Rows())
    {
      lifted := false;
      if envelope {
        lifted := GateReachable(profile);
      }
    }

    method ClaimStage(token: Token, lease: Token, op: Token) returns (r: Result<bool, Refusal>)
      requires WellFormed(profile)
      modifies this
      ensures match ClaimStep(old(Rows()), token, lease, op)
              case Ok(after) => Rows() == after && r == Ok(after.task.status == Running)
              case Err(refusal) => Rows() == old(Rows()) && r == Err(refusal)
      ensures old(Consistent(Rows()) && Admissible(Rows(), Claim(token, lease, op))) ==> Consistent(Rows())
    {
      hide EveryLoopScored, WellFormed, Consistent, Admissible;
      KeepsLaws(Rows(), Claim(token, lease, op));
      if task.status != Queued {
        return Err(NotQueued);
      }
      if task.stage !in profile.stages {
        return Err(UnknownStage);
      }
      var stage := profile.stages[task.stage];
      if stage.End? {
        return Err(TerminalStage);
      }
      var lifted := CapsLifted();
      if task.count >= profile.maxTransitions && !task.allowance && !lifted {
        StopAtCap(op, TransitionCap);
        return Ok(false);
      }
      var (cycle, attempt) := NextAttempt(runs, task.stage);
      if attempt > stage.attemptCap && !task.allowance {
        StopAtCap(op, AttemptCap);
        return Ok(false);
      }
      runs := runs + [StageRun(token, task.stage, cycle, attempt, Active, Some(lease), None, Lost)];
      task := task.(status := Running, allowance := false, lease := Some(lease), revision := task.revision + 1);
      return Ok(true);
    }

    /** Close the run row; a `waiting_user` disposition still commits the run. */
    method SettleRun(k: nat, status: RunStatus, result: RunResult)
      requires k < |runs|
      modifies this`runs
      ensures runs == Settle(old(Rows()), k, status, result)
    {
      runs := runs[k := runs[k].(status := status, outcome := result.outcome,
                                 seal := Sealed(result.response, result.reason))];
    }

    method CommitRun(token: Token, result: RunResult, op: Token) returns (r: Result<(), Refusal>)
      requires WellFormed(profile)
      modifies this
      ensures match CommitStep(old(Rows()), token, result, op)
              case Ok(after) => Rows() == after && r == Ok(())
              case Err(refusal) => Rows() == old(Rows()) && r == Err(refusal)
      ensures old(Consistent(Rows()) && Admissible(Rows(), Commit(token, result, op))) ==> Consistent(Rows())
    {
      hide EveryLoopScored, WellFormed, Consistent, Admissible;
      KeepsLaws(Rows(), Commit(token, result, op));
      var at := FindRun(runs, token);
      if at.None? || runs[at.value].status != Active || task.status != Running {
        return Err(StateConflict);
      }
      var k := at.value;
      var run := runs[k];
      if run.lease != task.lease {
        return Err(LeaseConflict);
      }
      if run.stage !in profile.stages {
        return Err(UnknownStage);
      }
      var stage := profile.stages[run.stage];
      if result.classification != Success {
        if result.classification == FailedRun {
          return Err(SchemaRejects);
        }
        var status := match result.classification
          case WaitingUserRun => WaitingUser
          case PausedRun => Paused
          case _ => Blocked;
        SettleRun(k, if status == WaitingUser then Committed else if status == Paused then RunPaused else RunBlocked,
                  result);
        InsertTransition(op, Some(token), None, result.outcome, Some(Running), status, result.reason);
        task := Leave(task, status, Some(result.reason));
        return Ok(());
      }
      if result.outcome.None? {
        return Err(NoOutcome);
      }
      var outcome := result.outcome.value;
      if outcome == HOLD_OUTCOME && envelope {
        SettleRun(k, Committed, result);
        InsertTransition(op, Some(token), None, result.outcome, Some(Running), WaitingUser, UserDecisionRequired);
        task := Leave(task, WaitingUser, Some(UserDecisionRequired));
        return Ok(());
      }
      if stage.End? || !Declares(stage.outcomes, outcome) {
        return Err(UndeclaredOutcome);
      }
      var target := TargetOf(stage.outcomes, outcome);
      if target !in profile.stages {
        return Err(UnknownStage);
      }
      var edge := Edge(run.stage, outcome);
      var row := FindRow(edges, edge);
      if row.None? {
        return Err(MissingCounter);
      }
      r := FollowEdge(k, result, target, row.value, op);
    }

    method FollowEdge(k: nat, result: RunResult, target: Name, row: nat, op: Token) returns (r: Result<(), Refusal>)
      requires WellFormed(profile) && k < |runs| && row < |edges| && FindRow(edges, edges[row].edge) == Some(row)
      modifies this
      ensures Rows() == CommitEdge(old(Rows()), Uncapped(old(Rows())), k, result, target, row, op) && r == Ok(())
    {
      hide EveryLoopScored, WellFormed;
      var token, counter := runs[k].token, edges[row];
      var capHit := counter.count >= counter.cap;
      if capHit {
        var lifted := CapsLifted();
        capHit := !lifted;
      }
      var status, reason := StatusAt(profile, target), None;
      if capHit {
        status, reason := WaitingUser, Some(EdgeCap);
      } else if result.outcome == Some(HOLD_OUTCOME) {
        status, reason := WaitingUser, Some(UserDecisionRequired);
      }
      if !capHit {
        edges := Bump(edges, counter.edge);
      }
      SettleRun(k, Committed, result);
      InsertTransition(op, Some(token), Some(counter.edge), result.outcome, Some(Running), status,
                       if reason.Some? then reason.value else StageCompleted);
      task := Leave(task, status, reason).(stage := target, count := task.count + 1);
      return Ok(());
    }

    method Resume(op: Token, rerun: bool) returns (r: Result<(), Refusal>)
      modifies this
      ensures match ResumeStep(old(Rows()), op, rerun)
              case Ok(after) => Rows() == after && r == Ok(())
              case Err(refusal) => Rows() == old(Rows()) && r == Err(refusal)
      ensures old(Consistent(Rows())) ==> Consistent(Rows())
    {
      hide Consistent;
      KeepsLaws(Rows(), Lifecycle.Resume(op, rerun));
      if UsedOp(log, op) {
        return Ok(());
      }
      if task.status != WaitingUser && task.status != Paused && task.status != Blocked {
        return Err(NotResumable);
      }
      if (task.stopReason == Some(WorkspaceEscape) || task.stopReason == Some(ProtectedRootDrift)) && !rerun {
        return Err(ReviewRequired);
      }
      var allowance, edge, outcome := task.status == WaitingUser, None, None;
      if task.status == WaitingUser && task.stopReason == Some(EdgeCap) {
        var capped := LastCapped(log);
        if capped.None? || capped.value.edge.None? {
          return Err(NoCappedTransition);
        }
        edge, outcome := capped.value.edge, capped.value.outcome;
        edges := Bump(edges, edge.value);
      }
      var from := task.status;
      task := Leave(task, Queued, None).(allowance := allowance);
      InsertTransition(op, None, edge, outcome, Some(from), Queued, if rerun then ManualRerunStage else ManualResume);
      return Ok(());
    }

    method BlockOrphanedRunning(op: Token)
      modifies this
      ensures Rows() == OrphanStep(old(Rows()), op)
      ensures old(Consistent(Rows()) && Admissible(Rows(), Orphan(op))) ==> Consistent(Rows())
    {
      hide Consistent, Admissible;
      KeepsLaws(Rows(), Orphan(op));
      if task.status != Running {
        return;
      }
      var k := FindActive(runs);
      var token: Option<Token> := None;
      if k.Some? {
        runs := runs[k.value := runs[k.value].(status := RunBlocked)];
        token := Some(runs[k.value].token);
      }
      InsertTransition(op, token, None, None, Some(Running), Blocked, OrphanedRunning);
      task := Leave(task, Blocked, Some(OrphanedRunning));
    }

    method RecordPreflightStop(token: Token, op: Token, paused: bool, reason: Reason)
      modifies this
      ensures Rows() == PreflightStep(old(Rows()), token, op, paused, reason)
      ensures old(Consistent(Rows()) && Admissible(Rows(), Preflight(token, op, paused, reason))) ==> Consistent(Rows())
    {
      hide Consistent, Admissible;
      KeepsLaws(Rows(), Preflight(token, op, paused, reason));
      if task.status != Queued {
        return;
      }
      var (cycle, attempt) := NextAttempt(runs, task.stage);
      var status := if paused then Paused else Blocked;
      runs := runs + [StageRun(token, task.stage, cycle, attempt, if paused then RunPaused else RunBlocked, None,
                               None, Lost)];
      InsertTransition(op, Some(token), None, None, Some(Queued), status, reason);
      task := task.(status := status, stopReason := Some(reason), revision := task.revision + 1);
    }
  }
}

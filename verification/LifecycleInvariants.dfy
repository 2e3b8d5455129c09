/**
 What every transaction of the controller keeps, and therefore what holds after any number of them:
 the counter balance, the lease discipline, the continuity of the log, the fate of terminal edges,
 the transition budget of capped tasks and the uniqueness of run numbers.
 */
module LifecycleInvariants {
  import opened Prelude
  import opened Profiles
  import opened GateGraph
  import opened Convergence
  import opened Lifecycle

  // ---------------------------------------------------------------- facts about the row lookups

  lemma {:induction false} SumUpdate(edges: seq<EdgeRow>, k: nat, row: EdgeRow)
    requires k < |edges|
    ensures SumCounts(edges[k := row]) == SumCounts(edges) - edges[k].count + row.count
  {
    var after := edges[k := row];
    if k == |edges| - 1 {
      assert Front(after) == Front(edges);
    } else {
      assert Front(after) == Front(edges)[k := row];
      SumUpdate(Front(edges), k, row);
    }
  }

  lemma BumpAddsOne(edges: seq<EdgeRow>, e: Edge)
    ensures |Bump(edges, e)| == |edges|
    ensures forall i :: 0 <= i < |edges| ==>
            Bump(edges, e)[i].edge == edges[i].edge && Bump(edges, e)[i].cap == edges[i].cap
    ensures forall i :: 0 <= i < |edges| && edges[i].edge != e ==> Bump(edges, e)[i] == edges[i]
    ensures FindRow(edges, e).Some? ==> SumCounts(Bump(edges, e)) == SumCounts(edges) + 1
  {
    var k := FindRow(edges, e);
    if k.Some? {
      SumUpdate(edges, k.value, edges[k.value].(count := edges[k.value].count + 1));
    }
  }

  lemma {:induction false} ContiguousMax(log: seq<Transition>)
    requires forall i :: 0 <= i < |log| ==> log[i].number == i + 1
    ensures MaxNumber(log) == |log|
  {
    if log != [] {
      forall i | 0 <= i < |Front(log)| ensures Front(log)[i].number == i + 1 {
        assert Front(log)[i] == log[i];
      }
      ContiguousMax(Front(log));
      assert Last(log) == log[|log| - 1];
    }
  }

  lemma Extended<T>(s: seq<T>, x: T)
    ensures s + [x] != [] && Last(s + [x]) == x && Front(s + [x]) == s
  {
  }

  lemma {:induction false} NextAttemptIsNew(runs: seq<StageRun>, stage: Name, i: nat)
    requires Numbered(runs) && i < |runs| && runs[i].stage == stage
    ensures var next := NextAttempt(runs, stage);
            runs[i].cycle < next.0 || (runs[i].cycle == next.0 && runs[i].attempt < next.1)
  {
    if Last(runs).stage == stage {
      assert i == |runs| - 1 || runs[i].stage == runs[|runs| - 1].stage;
    } else {
      assert Front(runs)[i] == runs[i];
      forall a, b | 0 <= a < b < |Front(runs)| && Front(runs)[a].stage == Front(runs)[b].stage
        ensures Front(runs)[a].cycle < Front(runs)[b].cycle
                || (Front(runs)[a].cycle == Front(runs)[b].cycle && Front(runs)[a].attempt < Front(runs)[b].attempt)
      {
        assert Front(runs)[a] == runs[a] && Front(runs)[b] == runs[b];
      }
      NextAttemptIsNew(Front(runs), stage, i);
    }
  }

  /** The one active run of a running task. */
  lemma TheActiveRun(db: Db, k: nat)
    requires Leased(db) && k < |db.runs| && db.runs[k].status == Active
    ensures FindActive(db.runs) == Some(k)
  {
  }

  // ---------------------------------------------------------------- shapes of the transactions

  /** One entry is appended, numbered next, continuing from the old status and ending in the new one. */
  ghost predicate LogsOne(db: Db, after: Db) {
    && after.log != [] && after.log == db.log + [Last(after.log)]
    && Last(after.log).number == MaxNumber(db.log) + 1
    && Last(after.log).from == Some(db.task.status) && Last(after.log).to == after.task.status
  }

  /** The run at k is closed, the task leaves running and gives up its lease. */
  ghost predicate Settles(db: Db, after: Db, k: nat)
    ensures Settles(db, after, k) ==> after.log != [] && k < |db.runs|
  {
    && k < |db.runs| && db.runs[k].status == Active && db.task.status == Running
    && |after.runs| == |db.runs| && after.runs == db.runs[k := after.runs[k]]
    && after.runs[k].token == db.runs[k].token && after.runs[k].stage == db.runs[k].stage
    && after.runs[k].cycle == db.runs[k].cycle && after.runs[k].attempt == db.runs[k].attempt
    && after.runs[k].status != Active
    && after.task.status != Running && after.task.lease == None && after.task.allowance == db.task.allowance
    && LogsOne(db, after) && Last(after.log).run == Some(db.runs[k].token)
  }

  /** The task stays put, or follows the edge of a declared outcome, counting it unless its cap refuses. */
  ghost predicate Moves(db: Db, after: Db, stage: Name)
    requires after.log != []
  {
    if after.task.count == db.task.count then
      after.edges == db.edges && after.task.stage == db.task.stage && Last(after.log).edge == None
      && after.task.status in {WaitingUser, Paused, Blocked} && !ParkedOnEdgeCap(after)
    else
      && after.task.count == db.task.count + 1
      && Last(after.log).edge.Some? && Last(after.log).edge.value.stage == stage
      && var e := Last(after.log).edge.value;
         && stage in db.profile.stages && db.profile.stages[stage].Work?
            && Declares(db.profile.stages[stage].outcomes, e.outcome)
         && after.task.stage == TargetOf(db.profile.stages[stage].outcomes, e.outcome)
         && after.task.stage in db.profile.stages
         && FindRow(db.edges, e).Some?
         && if ParkedOnEdgeCap(after) then
              after.edges == db.edges && Last(after.log).reason == EdgeCap
              && db.edges[FindRow(db.edges, e).value].count >= db.edges[FindRow(db.edges, e).value].cap
            else
              after.edges == Bump(db.edges, e)
              && (after.task.status == WaitingUser || after.task.status == StatusAt(db.profile, after.task.stage))
  }

  lemma StoppedShape(db: Db, k: nat, result: RunResult, op: Token)
    requires k < |db.runs| && db.runs[k].status == Active && db.task.status == Running
    requires CommitStopped(db, k, result, op).Ok?
             && (result.classification == WaitingUserRun ==> result.reason != EdgeCap)
    ensures var after := CommitStopped(db, k, result, op).value;
            && Settles(db, after, k) && Moves(db, after, db.runs[k].stage)
            && after.profile == db.profile && after.envelope == db.envelope
  {
    hide MaxNumber;
  }

  lemma HoldShape(db: Db, k: nat, result: RunResult, op: Token)
    requires k < |db.runs| && db.runs[k].status == Active && db.task.status == Running
    ensures var after := CommitHold(db, k, result, op);
            && Settles(db, after, k) && Moves(db, after, db.runs[k].stage)
            && after.profile == db.profile && after.envelope == db.envelope
  {
    hide MaxNumber;
  }

  lemma EdgeShape(db: Db, uncapped: bool, k: nat, result: RunResult, target: Name, row: nat, op: Token)
    requires k < |db.runs| && db.runs[k].status == Active && db.task.status == Running && row < |db.edges|
    requires db.runs[k].stage in db.profile.stages && db.profile.stages[db.runs[k].stage].Work? && result.outcome.Some?
    requires Declares(db.profile.stages[db.runs[k].stage].outcomes, result.outcome.value)
    requires target == TargetOf(db.profile.stages[db.runs[k].stage].outcomes, result.outcome.value)
    requires target in db.profile.stages
    requires FindRow(db.edges, Edge(db.runs[k].stage, result.outcome.value)) == Some(row)
    ensures var after := CommitEdge(db, uncapped, k, result, target, row, op);
            && Settles(db, after, k) && Moves(db, after, db.runs[k].stage)
            && after.profile == db.profile && after.envelope == db.envelope
  {
    hide MaxNumber, Bump, TargetOf, Declares;
  }

  lemma CommitShape(db: Db, token: Token, result: RunResult, op: Token)
    requires CommitStep(db, token, result, op).Ok? && Admissible(db, Commit(token, result, op))
    ensures FindRun(db.runs, token).Some?
    ensures var after := CommitStep(db, token, result, op).value;
            && Settles(db, after, FindRun(db.runs, token).value)
            && Moves(db, after, db.runs[FindRun(db.runs, token).value].stage)
            && after.profile == db.profile && after.envelope == db.envelope
  {
    hide EveryLoopScored, UsedOp, WellFormed, Settles, Moves, CommitStopped, CommitHold, CommitEdge;
    var k := FindRun(db.runs, token).value;
    if result.classification != Success {
      StoppedShape(db, k, result, op);
    } else if result.outcome == Some(HOLD_OUTCOME) && db.envelope {
      HoldShape(db, k, result, op);
    } else {
      var e := Edge(db.runs[k].stage, result.outcome.value);
      EdgeShape(db, Uncapped(db), k, result,
                TargetOf(db.profile.stages[db.runs[k].stage].outcomes, result.outcome.value),
                  FindRow(db.edges, e).value, op);
    }
  }

  ghost predicate StopsQueued(db: Db, after: Db) {
    && db.task.status == Queued && after.task.status in {WaitingUser, Paused, Blocked} && after.edges == db.edges
    && after.task.stage == db.task.stage && after.task.count == db.task.count
    && after.task.allowance == db.task.allowance
    && LogsOne(db, after) && Last(after.log).edge == None
  }

  ghost predicate Starts(db: Db, after: Db) {
    && db.task.status == Queued && after.task.status == Running && after.task.lease.Some?
    && after.runs != [] && after.runs == db.runs + [Last(after.runs)]
    && Last(after.runs).status == Active && Last(after.runs).lease == after.task.lease
    && Last(after.runs).stage == db.task.stage == after.task.stage
    && (Last(after.runs).cycle, Last(after.runs).attempt) == NextAttempt(db.runs, db.task.stage)
    && !KnownToken(db.runs, Last(after.runs).token)
    && db.task.stage in db.profile.stages && db.profile.stages[db.task.stage].Work?
    && after.log == db.log && after.edges == db.edges && after.task.count == db.task.count && !after.task.allowance
    && (db.task.count < db.profile.maxTransitions || db.task.allowance || Uncapped(db))
  }

  lemma ClaimShape(db: Db, token: Token, lease: Token, op: Token)
    requires ClaimStep(db, token, lease, op).Ok? && Admissible(db, Claim(token, lease, op))
    ensures var after := ClaimStep(db, token, lease, op).value;
            && after.profile == db.profile && after.envelope == db.envelope
            && (Starts(db, after)
                || (StopsQueued(db, after) && after.runs == db.runs && after.task.lease == None
                    && !ParkedOnEdgeCap(after)
                    && after.task.status == WaitingUser && Last(after.log).run == None))
  {
    hide EveryLoopScored, MaxNumber, NextAttempt, UsedOp, WellFormed;
  }

  ghost predicate Requeues(db: Db, after: Db) {
    && db.task.status in {WaitingUser, Paused, Blocked} && after.task.status == Queued && after.task.lease == None
    && after.runs == db.runs && after.task.stage == db.task.stage && after.task.count == db.task.count
    && after.task.allowance == (db.task.status == WaitingUser)
    && LogsOne(db, after) && Last(after.log).run == None
    && if ParkedOnEdgeCap(db) then
         LastCapped(db.log).Some? && LastCapped(db.log).value.edge.Some?
         && Last(after.log).edge == LastCapped(db.log).value.edge
         && after.edges == Bump(db.edges, LastCapped(db.log).value.edge.value)
       else
         Last(after.log).edge == None && after.edges == db.edges
  }

  lemma ResumeShape(db: Db, op: Token, rerun: bool)
    requires ResumeStep(db, op, rerun).Ok?
    ensures var after := ResumeStep(db, op, rerun).value;
            && after.profile == db.profile && after.envelope == db.envelope
            && (after == db || Requeues(db, after))
  {
    hide Bump, MaxNumber, LastCapped, UsedOp;
  }

  lemma OrphanShape(db: Db, op: Token)
    requires Leased(db)
    ensures var after := OrphanStep(db, op);
            && after.profile == db.profile && after.envelope == db.envelope
            && (after == db || (FindActive(db.runs).Some? && Settles(db, after, FindActive(db.runs).value)
                                && after.edges == db.edges && after.task.stage == db.task.stage
                                && after.task.count == db.task.count && Last(after.log).edge == None
                                && after.task.status == Blocked
                                && after.runs[FindActive(db.runs).value].status == RunBlocked))
  {
    hide MaxNumber;
  }

  lemma PreflightShape(db: Db, token: Token, op: Token, paused: bool, reason: Reason)
    requires Admissible(db, Preflight(token, op, paused, reason))
    ensures var after := PreflightStep(db, token, op, paused, reason);
            && after.profile == db.profile && after.envelope == db.envelope
            && (after == db
                || (StopsQueued(db, after) && after.task.lease == db.task.lease
                    && after.runs != [] && after.runs == db.runs + [Last(after.runs)]
                    && Last(after.runs).status in {RunPaused, RunBlocked}
                       && !KnownToken(db.runs, Last(after.runs).token)
                    && Last(after.runs).stage == db.task.stage
                    && (Last(after.runs).cycle, Last(after.runs).attempt) == NextAttempt(db.runs, db.task.stage)
                    && after.task.status != WaitingUser && Last(after.log).run == Some(Last(after.runs).token)))
  {
    hide MaxNumber, NextAttempt, UsedOp;
  }

  /** Every admissible transaction has one of six shapes. */
  datatype Shape = Same | Started | Stopped | Closed | Requeued | Settled(k: nat) | Orphaned(k: nat)

  ghost predicate HasShape(db: Db, after: Db, shape: Shape) {
    && after.profile == db.profile && after.envelope == db.envelope
    && match shape
       case Same => after == db
       case Started => Starts(db, after)
       case Stopped => StopsQueued(db, after) && after.runs == db.runs && after.task.lease == None
                       && after.task.status == WaitingUser && !ParkedOnEdgeCap(after) && Last(after.log).run == None
       case Closed => StopsQueued(db, after) && after.task.lease == db.task.lease && after.task.status != WaitingUser
                      && after.runs != [] && after.runs == db.runs + [Last(after.runs)]
                      && Last(after.runs).status in {RunPaused, RunBlocked}
                         && !KnownToken(db.runs, Last(after.runs).token)
                      && Last(after.runs).stage == db.task.stage
                      && (Last(after.runs).cycle, Last(after.runs).attempt) == NextAttempt(db.runs, db.task.stage)
                      && Last(after.log).run == Some(Last(after.runs).token)
       case Requeued => Requeues(db, after)
       case Settled(k) => Settles(db, after, k) && Moves(db, after, db.runs[k].stage)
       case Orphaned(k) => Settles(db, after, k) && after.edges == db.edges && after.task.stage == db.task.stage
                           && after.task.count == db.task.count && Last(after.log).edge == None
                              && after.task.status == Blocked && after.runs[k].status == RunBlocked
  }

  lemma ShapeOf(db: Db, a: Action) returns (shape: Shape)
    requires Leased(db) && Admissible(db, a)
    ensures HasShape(db, Apply(db, a), shape)
  {
    hide ClaimStep, CommitStep, ResumeStep, OrphanStep, PreflightStep;
    hide Starts, Settles, Moves, Requeues, StopsQueued;
    shape := Same;
    match a
    case Claim(token, lease, op) =>
      if ClaimStep(db, token, lease, op).Ok? {
        ClaimShape(db, token, lease, op);
        shape := if Starts(db, Apply(db, a)) then Started else Stopped;
      }
    case Commit(token, result, op) =>
      if CommitStep(db, token, result, op).Ok? {
        CommitShape(db, token, result, op);
        shape := Settled(FindRun(db.runs, token).value);
      }
    case Resume(op, rerun) =>
      if ResumeStep(db, op, rerun).Ok? && Apply(db, a) != db {
        ResumeShape(db, op, rerun);
        shape := Requeued;
      }
    case Orphan(op) =>
      OrphanShape(db, op);
      if Apply(db, a) != db {
        shape := Orphaned(FindActive(db.runs).value);
      }
    case Preflight(token, op, paused, reason) =>
      PreflightShape(db, token, op, paused, reason);
      if Apply(db, a) != db {
        shape := Closed;
      }
  }

  // ---------------------------------------------------------------- each invariant, shape by shape

  lemma KeepsSeededRows(db: Db, after: Db, shape: Shape)
    requires SeededRows(db) && HasShape(db, after, shape)
    ensures SeededRows(after)
  {
    hide MaxNumber, NextAttempt, FindActive, TargetOf, Declares, EveryLoopScored;
    if after.edges != db.edges {
      var e := if shape.Requeued? then LastCapped(db.log).value.edge.value else Last(after.log).edge.value;
      assert after.edges == Bump(db.edges, e);
      BumpAddsOne(db.edges, e);
      BumpedRows(db, after);
    }
  }

  lemma BumpedRows(db: Db, after: Db)
    requires SeededRows(db) && after.profile == db.profile && |after.edges| == |db.edges|
    requires forall i :: 0 <= i < |db.edges| ==>
             after.edges[i].edge == db.edges[i].edge && after.edges[i].cap == db.edges[i].cap
    ensures SeededRows(after)
  {
    forall x | x in after.profile.edgeCaps ensures exists i :: 0 <= i < |after.edges| && after.edges[i].edge == x {
      var i :| 0 <= i < |db.edges| && db.edges[i].edge == x;
      assert after.edges[i].edge == x;
    }
  }

  lemma KeepsBalanced(db: Db, after: Db, shape: Shape)
    requires Balanced(db) && Logged(db) && SeededRows(db) && HasShape(db, after, shape)
    ensures Balanced(after)
  {
    hide MaxNumber, NextAttempt, FindActive, TargetOf, Declares, EveryLoopScored, Bump;
    if shape.Requeued? && ParkedOnEdgeCap(db) {
      assert LastCapped(db.log) == Some(Last(db.log));
      BumpAddsOne(db.edges, Last(db.log).edge.value);
    } else if shape.Settled? && after.task.count != db.task.count {
      BumpAddsOne(db.edges, Last(after.log).edge.value);
    }
  }

  lemma KeepsLeased(db: Db, after: Db, shape: Shape)
    requires Leased(db) && HasShape(db, after, shape)
    ensures Leased(after)
  {
    hide MaxNumber, NextAttempt, TargetOf, Declares, EveryLoopScored, Bump, Moves, LogsOne;
    match shape
    case Same =>
    case Stopped =>
    case Requeued =>
    case Started =>
      assert forall i :: 0 <= i < |db.runs| ==> after.runs[i] == db.runs[i];
    case Closed =>
      assert forall i :: 0 <= i < |db.runs| ==> after.runs[i] == db.runs[i];
    case Settled(k) =>
      TheActiveRun(db, k);
    case Orphaned(k) =>
      TheActiveRun(db, k);
  }

  lemma KeepsLogged(db: Db, after: Db, shape: Shape)
    requires Logged(db) && SeededRows(db) && HasShape(db, after, shape)
    ensures Logged(after)
  {
    hide NextAttempt, TargetOf, Declares, EveryLoopScored, Bump, FindActive, StatusAt, KnownToken;
    if after.log != db.log {
      ContiguousMax(db.log);
      assert forall i :: 0 <= i < |db.log| ==> after.log[i] == db.log[i];
      assert Last(db.log) == db.log[|db.log| - 1] && Last(after.log) == after.log[|db.log|];
      if shape.Requeued? && ParkedOnEdgeCap(db) {
        assert LastCapped(db.log) == Some(Last(db.log));
      }
    }
  }

  /** An edge into a terminal stage has never been counted while the task still runs, so its cap cannot refuse it. */
  lemma TerminalEdgeIsFree(db: Db, e: Edge)
    requires WellFormed(db.profile) && Ending(db) && SeededRows(db) && db.task.status == Running
    requires IntoEnd(db.profile, e) && FindRow(db.edges, e).Some?
    ensures var row := db.edges[FindRow(db.edges, e).value]; row.count == 0 && row.count < row.cap
  {
    hide TargetOf, Declares, EveryLoopScored, FindActive;
  }

  lemma KeepsEnding(db: Db, after: Db, shape: Shape)
    requires WellFormed(db.profile) && Ending(db) && Leased(db) && Logged(db) && SeededRows(db)
             && HasShape(db, after, shape)
    ensures Ending(after)
  {
    hide NextAttempt, MaxNumber, TargetOf, Declares, EveryLoopScored, Bump, WellFormed, SeededRows, IntoEnd, Follows;
    match shape
    case Same =>
    case Started =>
    case Stopped =>
    case Closed =>
    case Requeued =>
      RequeueKeepsEnding(db, after);
    case Settled(k) =>
      TheActiveRun(db, k);
      if after.task.count != db.task.count {
        EndsAlongEdge(db, after, k);
      }
    case Orphaned(k) =>
  }

  lemma RequeueKeepsEnding(db: Db, after: Db)
    requires Ending(db) && Logged(db) && after.profile == db.profile && Requeues(db, after)
    ensures Ending(after)
  {
    hide MaxNumber, IntoEnd, FindRow, Bump, Follows;
    if ParkedOnEdgeCap(db) {
      assert LastCapped(db.log) == Some(Last(db.log));
      BumpAddsOne(db.edges, Last(db.log).edge.value);
    }
  }

  lemma EndsAlongEdge(db: Db, after: Db, k: nat)
    requires WellFormed(db.profile) && Ending(db) && SeededRows(db) && HasShape(db, after, Settled(k))
    requires db.runs[k].stage == db.task.stage && after.task.count != db.task.count
    ensures Ending(after)
  {
    hide NextAttempt, MaxNumber, TargetOf, Declares, EveryLoopScored, Bump, WellFormed;
    var e := Last(after.log).edge.value;
    BumpAddsOne(db.edges, e);
    if IntoEnd(db.profile, e) {
      TerminalEdgeIsFree(db, e);
    }
  }

  lemma KeepsBounded(db: Db, after: Db, shape: Shape)
    requires Bounded(db) && Leased(db) && HasShape(db, after, shape)
    ensures Bounded(after)
  {
    hide NextAttempt, MaxNumber, TargetOf, Declares, EveryLoopScored, Bump, LastCapped;
    if after.log != db.log {
      Extended(db.log, Last(after.log));
    }
  }

  lemma KeepsNumbered(db: Db, after: Db, shape: Shape)
    requires Numbered(db.runs) && HasShape(db, after, shape)
    ensures Numbered(after.runs)
  {
    hide NextAttempt, MaxNumber, TargetOf, Declares, EveryLoopScored, Bump, LastCapped, Moves, LogsOne;
    if shape.Started? || shape.Closed? {
      assert forall i :: 0 <= i < |db.runs| ==> after.runs[i] == db.runs[i];
      forall i: nat | i < |db.runs| && db.runs[i].stage == db.task.stage {
        NextAttemptIsNew(db.runs, db.task.stage, i);
      }
    }
  }

  lemma KeepsPlaced(db: Db, after: Db, shape: Shape)
    requires Placed(db) && Leased(db) && HasShape(db, after, shape)
    ensures Placed(after)
  {
    hide NextAttempt, MaxNumber, EveryLoopScored, Bump, LastCapped, LogsOne, Reachable, TargetOf, Declares;
    if after.task.stage != db.task.stage {
      TheActiveRun(db, shape.k);
      DeclaredTarget(db.profile, db.task.stage, Last(after.log).edge.value.outcome);
      ReachStep(db.profile, db.task.stage, after.task.stage);
    }
  }

  lemma DeclaredTarget(p: Profile, stage: Name, outcome: Name)
    requires stage in p.stages && p.stages[stage].Work? && Declares(p.stages[stage].outcomes, outcome)
    ensures TargetOf(p.stages[stage].outcomes, outcome) in Targets(p, stage)
  {
    var outcomes := p.stages[stage].outcomes;
    var i :| 0 <= i < |outcomes| && outcomes[i].target == TargetOf(outcomes, outcome);
    assert TargetNames(outcomes)[i] == outcomes[i].target;
  }

  lemma {:induction false} RunOfUpdate(runs: seq<StageRun>, k: nat, run: StageRun, token: Token)
    requires k < |runs| && run.token == runs[k].token && token != runs[k].token
    ensures RunOf(runs[k := run], token) == RunOf(runs, token)
  {
    if k == |runs| - 1 {
      assert Front(runs[k := run]) == Front(runs);
    } else {
      assert Front(runs[k := run]) == Front(runs)[k := run];
      RunOfUpdate(Front(runs), k, run, token);
    }
  }

  /** A token that was already known keeps its row, unless it is the run being closed. */
  lemma KeepsRow(db: Db, after: Db, shape: Shape, token: Token)
    requires Leased(db) && HasShape(db, after, shape) && RunOf(db.runs, token).Some?
    requires RunOf(db.runs, token).value.status != Active
    ensures RunOf(after.runs, token) == RunOf(db.runs, token)
  {
    hide NextAttempt, MaxNumber, EveryLoopScored, Bump, LastCapped, LogsOne, TargetOf, Declares, Moves;
    match shape
    case Same =>
    case Stopped =>
    case Requeued =>
    case Started =>
      Extended(db.runs, Last(after.runs));
    case Closed =>
      Extended(db.runs, Last(after.runs));
    case Settled(k) =>
      RunOfUpdate(db.runs, k, after.runs[k], token);
    case Orphaned(k) =>
      RunOfUpdate(db.runs, k, after.runs[k], token);
  }

  lemma KeepsRecorded(db: Db, after: Db, shape: Shape)
    requires Recorded(db) && Leased(db) && HasShape(db, after, shape)
    ensures Recorded(after)
  {
    hide NextAttempt, MaxNumber, EveryLoopScored, Bump, LastCapped, TargetOf, Declares, Moves, RunOf;
    forall i | 0 <= i < |after.log| && after.log[i].run.Some?
      ensures RunOf(after.runs, after.log[i].run.value).Some?
              && RunOf(after.runs, after.log[i].run.value).value.status != Active
    {
      if i < |db.log| {
        assert after.log[i] == db.log[i];
        KeepsRow(db, after, shape, db.log[i].run.value);
      } else {
        NewRowIsClosed(db, after, shape);
      }
    }
  }

  lemma NewRowIsClosed(db: Db, after: Db, shape: Shape)
    requires Leased(db) && HasShape(db, after, shape) && (shape.Settled? || shape.Orphaned? || shape.Closed?)
    ensures Last(after.log).run.Some? && RunOf(after.runs, Last(after.log).run.value).Some?
    ensures RunOf(after.runs, Last(after.log).run.value).value == if shape.Closed? then Last(after.runs)
            else after.runs[shape.k]
  {
    hide NextAttempt, MaxNumber, EveryLoopScored, Bump, LastCapped, TargetOf, Declares, Moves;
  }

  lemma {:induction false} HistoryStable(runs: seq<StageRun>, runs': seq<StageRun>, log: seq<Transition>)
    requires forall i :: 0 <= i < |log| && log[i].run.Some? ==>
             RunOf(runs', log[i].run.value) == RunOf(runs, log[i].run.value)
    ensures History(runs', log) == History(runs, log)
  {
    if log != [] {
      assert Last(log) == log[|log| - 1];
      forall i | 0 <= i < |Front(log)| && Front(log)[i].run.Some?
        ensures RunOf(runs', Front(log)[i].run.value) == RunOf(runs, Front(log)[i].run.value)
      {
        assert Front(log)[i] == log[i];
      }
      HistoryStable(runs, runs', Front(log));
    }
  }

  /** The committed history only grows, by the run that was just committed. */
  lemma HistoryGrows(db: Db, after: Db, shape: Shape)
    requires Recorded(db) && Leased(db) && HasShape(db, after, shape)
    ensures History(after.runs, after.log) ==
              if shape.Settled? && after.runs[shape.k].status == Committed
              then History(db.runs, db.log) + [CommittedRun(after.runs[shape.k].stage, after.runs[shape.k].seal)]
              else History(db.runs, db.log)
  {
    hide NextAttempt, MaxNumber, EveryLoopScored, Bump, LastCapped, TargetOf, Declares, Moves, RunOf;
    forall i | 0 <= i < |db.log| && db.log[i].run.Some?
      ensures RunOf(after.runs, db.log[i].run.value) == RunOf(db.runs, db.log[i].run.value)
    {
      KeepsRow(db, after, shape, db.log[i].run.value);
    }
    HistoryStable(db.runs, after.runs, db.log);
    if after.log != db.log {
      Extended(db.log, Last(after.log));
      if shape.Settled? || shape.Orphaned? || shape.Closed? {
        NewRowIsClosed(db, after, shape);
      }
    }
  }

  lemma KeepsConsistent(db: Db, a: Action)
    requires Consistent(db) && Admissible(db, a)
    ensures Consistent(Apply(db, a))
  {
    hide Apply, Admissible, WellFormed, SeededRows, Balanced, Leased, Logged, Ending, Bounded, Numbered, Placed;
    hide Recorded, HasShape;
    var shape := ShapeOf(db, a);
    var after := Apply(db, a);
    KeepsSeededRows(db, after, shape);
    KeepsBalanced(db, after, shape);
    KeepsLeased(db, after, shape);
    KeepsLogged(db, after, shape);
    KeepsEnding(db, after, shape);
    KeepsBounded(db, after, shape);
    KeepsNumbered(db, after, shape);
    KeepsPlaced(db, after, shape);
    KeepsRecorded(db, after, shape);
    assert after.profile == db.profile by {
      KeepsProfile(db, a, shape);
    }
  }

  lemma KeepsProfile(db: Db, a: Action, shape: Shape)
    requires HasShape(db, Apply(db, a), shape)
    ensures Apply(db, a).profile == db.profile && Apply(db, a).envelope == db.envelope
  {
    hide Apply, Starts, Settles, Moves, Requeues, StopsQueued;
  }

  lemma {:induction false} ZeroSum(edges: seq<EdgeRow>)
    requires forall i :: 0 <= i < |edges| ==> edges[i].count == 0
    ensures SumCounts(edges) == 0
  {
    if edges != [] {
      ZeroSum(Front(edges));
    }
  }

  lemma SubmittedIsConsistent(db: Db)
    requires FreshlySubmitted(db)
    ensures Consistent(db)
  {
    hide EveryLoopScored, WellFormedStage, IntoEnd, Targets;
    ZeroSum(db.edges);
    assert Walk(db.profile, [db.profile.initial], db.profile.initial);
  }

  /** Every task, after any sequence of claims, commits, resumes, orphan blocks and preflight stops. */
  lemma {:induction false} EveryRunIsConsistent(db: Db, actions: seq<Action>)
    requires FreshlySubmitted(db) && AllAdmissible(db, actions)
    ensures Consistent(Run(db, actions))
  {
    hide FreshlySubmitted, Consistent, Admissible, Apply;
    if actions == [] {
      SubmittedIsConsistent(db);
    } else {
      EveryRunIsConsistent(db, Front(actions));
      KeepsConsistent(Run(db, Front(actions)), Last(actions));
    }
  }

  /** The status the log alone tells: the last target, or running after an unlogged claim. */
  predicate ToldBy(log: seq<Transition>, status: Status) {
    log != [] && (status == Last(log).to || (status == Running && Last(log).to == Queued))
  }

  /** The laws of a task's whole life, spelled out. */
  lemma TaskLaws(start: Db, actions: seq<Action>)
    requires FreshlySubmitted(start) && AllAdmissible(start, actions)
    ensures var db := Run(start, actions);
            && db.task.count == SumCounts(db.edges) + (if ParkedOnEdgeCap(db) then 1 else 0)
            && (!Uncapped(db) ==> db.task.count <= db.profile.maxTransitions + Grants(db.log))
            && Chained(db.log) && ToldBy(db.log, db.task.status)
            && (db.task.status == Running <==>
                  exists k :: 0 <= k < |db.runs| && db.runs[k].status == Active && db.runs[k].lease == db.task.lease)
            && (forall i, j | 0 <= i < |db.runs| && 0 <= j < |db.runs| ::
                  db.runs[i].status == Active && db.runs[j].status == Active ==> i == j)
  {
    hide Run, AllAdmissible, FreshlySubmitted, Uncapped, SeededRows, Ending, Numbered, Recorded, Placed, WellFormed;
    hide Follows;
    EveryRunIsConsistent(start, actions);
  }

  /** A cap never refuses the edge into a terminal stage: committing along it ends the task there. */
  lemma TerminalEdgeEnds(db: Db, token: Token, result: RunResult, op: Token)
    requires Consistent(db) && CommitStep(db, token, result, op).Ok? && Continues(result)
    requires IntoEnd(db.profile, Edge(db.task.stage, result.outcome.value))
    ensures var after := CommitStep(db, token, result, op).value;
            && (after.task.status == Done || after.task.status == Failed)
            && after.task.stage == TargetOf(db.profile.stages[db.task.stage].outcomes, result.outcome.value)
  {
    hide Balanced, Bounded, Numbered, Recorded, Placed, Targets, Logged, SeededRows, Ending, Uncapped, Settle, Bump;
    hide WellFormed;
    var k := FindRun(db.runs, token).value;
    TheActiveRun(db, k);
    TerminalEdgeIsFree(db, Edge(db.task.stage, result.outcome.value));
  }
}

/**
 The durable lifecycle of one task: its row, its stage runs, its transition log and its edge counters,
 and what claim, commit, resume, orphan block and preflight stop do to them in one transaction each
 (orchestrator/controller.py).
 */
module Lifecycle {
  import opened Prelude
  import opened Profiles
  import opened GateGraph
  import opened Convergence

  type Token = nat

  datatype Status = Queued | Running | WaitingUser | Blocked | Done | Failed | Paused

  datatype RunStatus = Active | Committed | RunPaused | RunBlocked

  datatype Task = Task(
    status: Status, stopReason: Option<Reason>, stage: Name, revision: nat,
    count: nat, allowance: bool, lease: Option<Token>)

  datatype StageRun = StageRun(
    token: Token, stage: Name, cycle: nat, attempt: nat, status: RunStatus,
    lease: Option<Token>, outcome: Option<Name>, seal: Seal)

  datatype Transition = Transition(
    number: nat, op: Token, run: Option<Token>, edge: Option<Edge>, outcome: Option<Name>,
    from: Option<Status>, to: Status, reason: Reason)

  datatype EdgeRow = EdgeRow(edge: Edge, count: nat, cap: int)

  datatype Db = Db(
    profile: Profile, envelope: bool, task: Task,
    runs: seq<StageRun>, log: seq<Transition>, edges: seq<EdgeRow>)

  datatype Refusal =
    | NotQueued | TerminalStage | UnknownStage | StateConflict | LeaseConflict | SchemaRejects
    | NoOutcome | UndeclaredOutcome | MissingCounter | NotResumable | ReviewRequired | NoCappedTransition

  // ---------------------------------------------------------------- row lookups

  function FindRun(runs: seq<StageRun>, token: Token): (k: Option<nat>)
    ensures k.Some? ==> k.value < |runs| && runs[k.value].token == token
    ensures k.None? ==> forall i :: 0 <= i < |runs| ==> runs[i].token != token
  {
    if runs == [] then None
    else if Last(runs).token == token then Some(|runs| - 1)
    else FindRun(Front(runs), token)
  }

  function FindActive(runs: seq<StageRun>): (k: Option<nat>)
    ensures k.Some? ==> k.value < |runs| && runs[k.value].status == Active
    ensures k.None? ==> forall i :: 0 <= i < |runs| ==> runs[i].status != Active
  {
    if runs == [] then None
    else if Last(runs).status == Active then Some(|runs| - 1)
    else FindActive(Front(runs))
  }

  function FindRow(edges: seq<EdgeRow>, e: Edge): (k: Option<nat>)
    ensures k.Some? ==> k.value < |edges| && edges[k.value].edge == e
    ensures k.None? ==> forall i :: 0 <= i < |edges| ==> edges[i].edge != e
  {
    if edges == [] then None
    else if Last(edges).edge == e then Some(|edges| - 1)
    else FindRow(Front(edges), e)
  }

  /** The cycle and attempt of the next run of a stage: a paused run is retried, anything else starts a new cycle. */
  function NextAttempt(runs: seq<StageRun>, stage: Name): (next: (nat, nat)) {
    if runs == [] then (1, 1)
    else if Last(runs).stage != stage then NextAttempt(Front(runs), stage)
    else if Last(runs).status == RunPaused then (Last(runs).cycle, Last(runs).attempt + 1)
    else (Last(runs).cycle + 1, 1)
  }

  function MaxNumber(log: seq<Transition>): (n: nat) {
    if log == [] then 0
    else if Last(log).number > MaxNumber(Front(log)) then Last(log).number
    else MaxNumber(Front(log))
  }

  function LastCapped(log: seq<Transition>): (t: Option<Transition>) {
    if log == [] then None
    else if Last(log).reason == EdgeCap then Some(Last(log))
    else LastCapped(Front(log))
  }

  function Bump(edges: seq<EdgeRow>, e: Edge): (bumped: seq<EdgeRow>) {
    match FindRow(edges, e)
    case None => edges
    case Some(k) => edges[k := edges[k].(count := edges[k].count + 1)]
  }

  function SumCounts(edges: seq<EdgeRow>): (n: nat) {
    if edges == [] then 0 else SumCounts(Front(edges)) + Last(edges).count
  }

  function Entry(log: seq<Transition>, op: Token, run: Option<Token>, edge: Option<Edge>, outcome: Option<Name>,
                 from: Option<Status>, to: Status, reason: Reason): (t: Transition)
  {
    Transition(MaxNumber(log) + 1, op, run, edge, outcome, from, to, reason)
  }

  // ---------------------------------------------------------------- the transactions

  /** An envelope task whose every loop is scored: the caps count and no longer stop. */
  ghost predicate Uncapped(db: Db) {
    db.envelope && EveryLoopScored(db.profile)
  }

  function StopForCap(db: Db, op: Token, reason: Reason): (after: Db) {
    db.(task := db.task.(status := WaitingUser, stopReason := Some(reason), lease := None,
                         revision := db.task.revision + 1),
        log := db.log + [Entry(db.log, op, None, None, None, Some(Queued), WaitingUser, reason)])
  }

  /** `claim_stage` for a given answer to "are the caps lifted". */
  function ClaimWith(db: Db, uncapped: bool, token: Token, lease: Token, op: Token): (r: Result<Db, Refusal>) {
    var t, p := db.task, db.profile;
    if t.status != Queued then Err(NotQueued)
    else if t.stage !in p.stages then Err(UnknownStage)
    else if p.stages[t.stage].End? then Err(TerminalStage)
    else if t.count >= p.maxTransitions && !t.allowance && !uncapped then Ok(StopForCap(db, op, TransitionCap))
    else
      var next := NextAttempt(db.runs, t.stage);
      if next.1 > p.stages[t.stage].attemptCap && !t.allowance then Ok(StopForCap(db, op, AttemptCap))
      else
        Ok(db.(runs := db.runs + [StageRun(token, t.stage, next.0, next.1, Active, Some(lease), None, Lost)],
               task := t.(status := Running, allowance := false, lease := Some(lease), revision := t.revision + 1)))
  }

  ghost function ClaimStep(db: Db, token: Token, lease: Token, op: Token): (r: Result<Db, Refusal>) {
    ClaimWith(db, Uncapped(db), token, lease, op)
  }

  function Settle(db: Db, k: nat, status: RunStatus, result: RunResult): (runs: seq<StageRun>)
    requires k < |db.runs|
  {
    db.runs[k := db.runs[k].(status := status, outcome := result.outcome,
                             seal := Sealed(result.response, result.reason))]
  }

  function Leave(t: Task, status: Status, reason: Option<Reason>): (after: Task) {
    t.(status := status, stopReason := reason, lease := None, revision := t.revision + 1)
  }

  /** A run that did not succeed: the task stops where it is. `failed` is not a status a stage run may have. */
  function CommitStopped(db: Db, k: nat, result: RunResult, op: Token): (r: Result<Db, Refusal>)
    requires k < |db.runs|
  {
    var token := db.runs[k].token;
    match result.classification
    case Success => Err(NoOutcome)
    case FailedRun => Err(SchemaRejects)
    case WaitingUserRun => Ok(db.(
      runs := Settle(db, k, Committed, result), task := Leave(db.task, WaitingUser, Some(result.reason)),
      log := db.log + [Entry(db.log, op, Some(token), None, result.outcome, Some(Running), WaitingUser,
                             result.reason)]))
    case PausedRun => Ok(db.(
      runs := Settle(db, k, RunPaused, result), task := Leave(db.task, Paused, Some(result.reason)),
      log := db.log + [Entry(db.log, op, Some(token), None, result.outcome, Some(Running), Paused, result.reason)]))
    case BlockedRun => Ok(db.(
      runs := Settle(db, k, RunBlocked, result), task := Leave(db.task, Blocked, Some(result.reason)),
      log := db.log + [Entry(db.log, op, Some(token), None, result.outcome, Some(Running), Blocked, result.reason)]))
  }

  function CommitHold(db: Db, k: nat, result: RunResult, op: Token): (after: Db)
    requires k < |db.runs|
  {
    db.(runs := Settle(db, k, Committed, result), task := Leave(db.task, WaitingUser, Some(UserDecisionRequired)),
        log := db.log + [Entry(db.log, op, Some(db.runs[k].token), None, result.outcome, Some(Running), WaitingUser,
                               UserDecisionRequired)])
  }

  function StatusAt(p: Profile, stage: Name): (status: Status) {
    if stage !in p.stages || p.stages[stage].Work? then Queued
    else if p.stages[stage].terminal.EndsDone? then Done else Failed
  }

  /** Following a declared outcome along its edge. */
  function CommitEdge(db: Db, uncapped: bool, k: nat, result: RunResult, target: Name, row: nat, op: Token): (after: Db)
    requires k < |db.runs| && row < |db.edges|
  {
    var e := db.edges[row].edge;
    var capped := db.edges[row].count >= db.edges[row].cap && !uncapped;
    var status := if capped || result.outcome == Some(HOLD_OUTCOME) then WaitingUser else StatusAt(db.profile, target);
    var reason := if capped then Some(EdgeCap)
                  else if result.outcome == Some(HOLD_OUTCOME) then Some(UserDecisionRequired) else None;
    db.(runs := Settle(db, k, Committed, result),
        task := Leave(db.task, status, reason).(stage := target, count := db.task.count + 1),
        edges := if capped then db.edges else Bump(db.edges, e),
        log := db.log + [Entry(db.log, op, Some(db.runs[k].token), Some(e), result.outcome, Some(Running), status,
                               if reason.Some? then reason.value else StageCompleted)])
  }

  /** `commit_run` for a given answer to "are the caps lifted". */
  function CommitWith(db: Db, uncapped: bool, token: Token, result: RunResult, op: Token): (r: Result<Db, Refusal>) {
    var at := FindRun(db.runs, token);
    if at.None? then Err(StateConflict) else
    var k := at.value;
    if db.runs[k].status != Active || db.task.status != Running then Err(StateConflict)
    else if db.runs[k].lease != db.task.lease then Err(LeaseConflict)
    else if db.runs[k].stage !in db.profile.stages then Err(UnknownStage)
    else if result.classification != Success then CommitStopped(db, k, result, op)
    else if result.outcome.None? then Err(NoOutcome)
    else if result.outcome == Some(HOLD_OUTCOME) && db.envelope then Ok(CommitHold(db, k, result, op))
    else
      var stage := db.profile.stages[db.runs[k].stage];
      if stage.End? || !Declares(stage.outcomes, result.outcome.value) then Err(UndeclaredOutcome)
      else
        var target := TargetOf(stage.outcomes, result.outcome.value);
        var row := FindRow(db.edges, Edge(db.runs[k].stage, result.outcome.value));
        if target !in db.profile.stages then Err(UnknownStage)
        else if row.None? then Err(MissingCounter)
        else Ok(CommitEdge(db, uncapped, k, result, target, row.value, op))
  }

  ghost function CommitStep(db: Db, token: Token, result: RunResult, op: Token): (r: Result<Db, Refusal>) {
    CommitWith(db, Uncapped(db), token, result, op)
  }

  predicate UsedOp(log: seq<Transition>, op: Token) {
    exists i :: 0 <= i < |log| && log[i].op == op
  }

  /** The transition part of `resume`; a used operation id changes nothing. */
  function ResumeStep(db: Db, op: Token, rerun: bool): (r: Result<Db, Refusal>) {
    var t := db.task;
    if UsedOp(db.log, op) then Ok(db)
    else if t.status != WaitingUser && t.status != Paused && t.status != Blocked then Err(NotResumable)
    else if (t.stopReason == Some(WorkspaceEscape) || t.stopReason == Some(ProtectedRootDrift)) && !rerun then
      Err(ReviewRequired)
    else
      var parked := t.status == WaitingUser && t.stopReason == Some(EdgeCap);
      var capped := LastCapped(db.log);
      if parked && (capped.None? || capped.value.edge.None?) then Err(NoCappedTransition)
      else
        var edge := if parked then capped.value.edge else None;
        var outcome := if parked then capped.value.outcome else None;
        Ok(db.(edges := if parked then Bump(db.edges, edge.value) else db.edges,
               task := Leave(t, Queued, None).(allowance := t.status == WaitingUser),
               log := db.log + [Entry(db.log, op, None, edge, outcome, Some(t.status), Queued,
                                      if rerun then ManualRerunStage else ManualResume)]))
  }

  /** `_block_orphaned_running`: a running row seen at startup belongs to an interrupted controller. */
  function OrphanStep(db: Db, op: Token): (after: Db) {
    if db.task.status != Running then db else
    var k := FindActive(db.runs);
    db.(runs := if k.Some? then db.runs[k.value := db.runs[k.value].(status := RunBlocked)] else db.runs,
        task := Leave(db.task, Blocked, Some(OrphanedRunning)),
        log := db.log + [Entry(db.log, op, if k.Some? then Some(db.runs[k.value].token) else None, None, None,
                               Some(Running), Blocked, OrphanedRunning)])
  }

  /** `_record_provider_preflight_stop`: the provider is unusable, so a closed run is recorded without a claim. */
  function PreflightStep(db: Db, token: Token, op: Token, paused: bool, reason: Reason): (after: Db) {
    if db.task.status != Queued then db else
    var next := NextAttempt(db.runs, db.task.stage);
    var status := if paused then Paused else Blocked;
    db.(runs := db.runs + [StageRun(token, db.task.stage, next.0, next.1, if paused then RunPaused else RunBlocked,
                                    None, None, Lost)],
        task := db.task.(status := status, stopReason := Some(reason), revision := db.task.revision + 1),
        log := db.log + [Entry(db.log, op, Some(token), None, None, Some(Queued), status, reason)])
  }

  // ---------------------------------------------------------------- runs of the controller

  datatype Action =
    | Claim(token: Token, lease: Token, op: Token)
    | Commit(token: Token, result: RunResult, op: Token)
    | Resume(op: Token, rerun: bool)
    | Orphan(op: Token)
    | Preflight(token: Token, op: Token, paused: bool, reason: Reason)

  /** A refused transaction rolls back. */
  ghost function Apply(db: Db, a: Action): (after: Db) {
    match a
    case Claim(token, lease, op) => (match ClaimStep(db, token, lease, op) case Ok(d) => d case Err(_) => db)
    case Commit(token, result, op) => (match CommitStep(db, token, result, op) case Ok(d) => d case Err(_) => db)
    case Resume(op, rerun) => (match ResumeStep(db, op, rerun) case Ok(d) => d case Err(_) => db)
    case Orphan(op) => OrphanStep(db, op)
    case Preflight(token, op, paused, reason) => PreflightStep(db, token, op, paused, reason)
  }

  predicate KnownToken(runs: seq<StageRun>, token: Token) {
    exists i :: 0 <= i < |runs| && runs[i].token == token
  }

  /** Generated identifiers are new, and only a reviewer disposition waits for the user; it is never an edge cap. */
  ghost predicate Admissible(db: Db, a: Action) {
    match a
    case Claim(token, lease, op) => !KnownToken(db.runs, token) && !UsedOp(db.log, op)
    case Commit(_, result, op) => !UsedOp(db.log, op)
      && (result.classification == WaitingUserRun ==> result.reason != EdgeCap)
    case Resume(op, _) => true
    case Orphan(op) => !UsedOp(db.log, op)
    case Preflight(token, op, _, _) =>
      !KnownToken(db.runs, token) && !UsedOp(db.log, op)
      && db.task.stage in db.profile.stages && db.profile.stages[db.task.stage].Work?
  }

  /** What `submit` leaves behind. */
  ghost predicate FreshlySubmitted(db: Db) {
    && WellFormed(db.profile)
    && db.task == Task(Queued, None, db.profile.initial, 0, 0, false, None)
    && db.runs == []
    && (exists op :: db.log == [Transition(1, op, None, None, None, None, Queued, Submitted)])
    && ZeroCounters(db.profile.edgeCaps, db.edges)
  }

  /** One counter per edge of the profile, with the profile's cap. */
  ghost predicate SeededRows(db: Db) {
    Counters(db.profile.edgeCaps, db.edges)
  }

  /** One counter per edge, with its cap. */
  ghost predicate Counters(caps: map<Edge, int>, rows: seq<EdgeRow>) {
    && (forall i, j :: 0 <= i < j < |rows| ==> rows[i].edge != rows[j].edge)
    && (forall i :: 0 <= i < |rows| ==> rows[i].edge in caps && rows[i].cap == caps[rows[i].edge])
    && (forall e :: e in caps ==> exists i :: 0 <= i < |rows| && rows[i].edge == e)
  }

  ghost predicate ZeroCounters(caps: map<Edge, int>, rows: seq<EdgeRow>) {
    Counters(caps, rows) && forall i :: 0 <= i < |rows| ==> rows[i].count == 0
  }

  lemma NoCounters(caps: map<Edge, int>)
    requires caps.Keys == {}
    ensures ZeroCounters(caps, [])
  {
  }

  lemma OneMoreCounter(caps: map<Edge, int>, rows: seq<EdgeRow>, e: Edge)
    requires e in caps && ZeroCounters(caps - {e}, rows)
    ensures ZeroCounters(caps, rows + [EdgeRow(e, 0, caps[e])])
  {
    var more := rows + [EdgeRow(e, 0, caps[e])];
    forall k | k in caps ensures exists i :: 0 <= i < |more| && more[i].edge == k {
      if k == e {
        assert more[|rows|].edge == k;
      } else {
        assert k in caps - {e};
        var i :| 0 <= i < |rows| && rows[i].edge == k;
        assert more[i].edge == k;
      }
    }
  }

  ghost function Run(db: Db, actions: seq<Action>): (after: Db) {
    if actions == [] then db else Apply(Run(db, Front(actions)), Last(actions))
  }

  ghost predicate AllAdmissible(db: Db, actions: seq<Action>) {
    actions == [] || (AllAdmissible(db, Front(actions)) && Admissible(Run(db, Front(actions)), Last(actions)))
  }

  // ---------------------------------------------------------------- what every run keeps

  predicate ParkedOnEdgeCap(db: Db) {
    db.task.status == WaitingUser && db.task.stopReason == Some(EdgeCap)
  }

  /** The task counter is the sum of the edge counters, plus one exactly while parked on an edge cap. */
  ghost predicate Balanced(db: Db) {
    db.task.count == SumCounts(db.edges) + (if ParkedOnEdgeCap(db) then 1 else 0)
  }

  /** Running means exactly one active run, holding the task's lease, at the task's stage. */
  ghost predicate Leased(db: Db) {
    && (forall i, j :: 0 <= i < j < |db.runs| ==> db.runs[i].token != db.runs[j].token)
    && (forall i, j | 0 <= i < |db.runs| && 0 <= j < |db.runs| ::
          db.runs[i].status == Active && db.runs[j].status == Active ==> i == j)
    && (db.task.status != Running ==> db.task.lease == None && forall i :: 0 <= i < |db.runs| ==>
        db.runs[i].status != Active)
    && (db.task.status == Running ==>
          db.task.lease.Some? && FindActive(db.runs).Some?
          && db.runs[FindActive(db.runs).value].lease == db.task.lease
          && db.runs[FindActive(db.runs).value].stage == db.task.stage)
  }

  predicate Follows(before: Status, t: Transition) {
    t.from == Some(before) || (before == Queued && t.from == Some(Running))
  }

  /** The log is numbered 1, 2, 3, ..., and each entry starts where the previous one ended, up to an unlogged claim. */
  ghost predicate Chained(log: seq<Transition>) {
    && log != [] && log[0].from == None
    && (forall i :: 0 <= i < |log| ==> log[i].number == i + 1)
    && (forall i :: 0 < i < |log| ==> Follows(log[i - 1].to, log[i]))
  }

  /** The end of the log tells the task's status. */
  ghost predicate Logged(db: Db) {
    && Chained(db.log)
    && (db.task.status == Last(db.log).to || (db.task.status == Running && Last(db.log).to == Queued))
    && (ParkedOnEdgeCap(db) ==> Last(db.log).reason == EdgeCap && Last(db.log).edge.Some?)
    && (forall i :: 0 <= i < |db.log| && db.log[i].edge.Some? ==> db.log[i].edge.value in db.profile.edgeCaps)
  }

  ghost predicate IntoEnd(p: Profile, e: Edge) {
    && e.stage in p.stages && p.stages[e.stage].Work? && Declares(p.stages[e.stage].outcomes, e.outcome)
    && TargetOf(p.stages[e.stage].outcomes, e.outcome) in p.stages
    && p.stages[TargetOf(p.stages[e.stage].outcomes, e.outcome)].End?
  }

  /** An edge into a terminal stage is taken at most once, and then the task stays there. */
  ghost predicate Ending(db: Db) {
    && db.task.stage in db.profile.stages
    && (db.task.status == Running ==> db.profile.stages[db.task.stage].Work?)
    && (db.task.status == Done || db.task.status == Failed ==> db.profile.stages[db.task.stage].End?)
    && (forall i :: 0 <= i < |db.edges| && IntoEnd(db.profile, db.edges[i].edge) && db.edges[i].count > 0 ==>
          db.profile.stages[db.task.stage].End?)
    && (ParkedOnEdgeCap(db) && db.log != [] && Last(db.log).edge.Some? ==>
        !IntoEnd(db.profile, Last(db.log).edge.value))
  }

  /** Resumes that granted one more transition. */
  function Grants(log: seq<Transition>): (n: nat) {
    if log == [] then 0
    else Grants(Front(log)) + (if Last(log).from == Some(WaitingUser) && Last(log).to == Queued then 1 else 0)
  }

  ghost predicate Bounded(db: Db) {
    !Uncapped(db) ==>
      db.task.count + (if db.task.status == Running then 1 else 0) + (if db.task.allowance then 1 else 0)
        <= db.profile.maxTransitions + Grants(db.log)
  }

  /** Runs of one stage are numbered upwards, so the (task, stage, cycle, attempt) key never collides. */
  ghost predicate Numbered(runs: seq<StageRun>) {
    forall i, j :: 0 <= i < j < |runs| && runs[i].stage == runs[j].stage ==>
      runs[i].cycle < runs[j].cycle || (runs[i].cycle == runs[j].cycle && runs[i].attempt < runs[j].attempt)
  }

  function RunOf(runs: seq<StageRun>, token: Token): (run: Option<StageRun>) {
    match FindRun(runs, token)
    case None => None
    case Some(k) => Some(runs[k])
  }

  /** A logged run is known and closed. */
  ghost predicate Recorded(db: Db) {
    forall i :: 0 <= i < |db.log| && db.log[i].run.Some? ==>
      RunOf(db.runs, db.log[i].run.value).Some? && RunOf(db.runs, db.log[i].run.value).value.status != Active
  }

  /** The task only ever stands on stages its profile can enter. */
  ghost predicate Placed(db: Db) {
    Reachable(db.profile, db.task.stage)
  }

  ghost predicate Consistent(db: Db) {
    WellFormed(db.profile) && SeededRows(db) && Balanced(db) && Leased(db) && Logged(db) && Ending(db) && Bounded(db)
    && Numbered(db.runs) && Recorded(db) && Placed(db)
  }

  /** The committed run history, in commit order (`_committed_run_history`). */
  function History(runs: seq<StageRun>, log: seq<Transition>): (h: seq<CommittedRun>) {
    if log == [] then [] else
    var earlier := History(runs, Front(log));
    if Last(log).run.None? then earlier else
    match RunOf(runs, Last(log).run.value)
    case None => earlier
    case Some(run) => if run.status == Committed then earlier + [CommittedRun(run.stage, run.seal)] else earlier
  }
}

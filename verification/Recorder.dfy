/**
 What the controller writes to the trajectory inside each lifecycle transaction
 (the `_trajectory_*` emitters of orchestrator/controller.py, `TrajectoryWriter` of orchestrator/trajectory.py).
 A refused append rolls the whole transaction back.
 */
module Recorder {
  import opened Prelude
  import opened Profiles
  import opened Convergence
  import opened Lifecycle
  import opened Trajectory
  import opened Replay

  /** A sealed artifact as found when it is referenced. */
  datatype Found = Found(id: RefId, content: nat, path: nat)

  /**
   What one transaction is given besides the lifecycle action: generated identifiers, the provider's
   model and session, whether it was handed over, and whether anything outside this model (identifier
   syntax, secret detection, the parity check) refuses an event.
   */
  datatype Notes = Notes(
    ids: seq<EventId>, baselineId: EventId, model: Option<Name>, session: Option<Session>, dispatched: bool,
    manifest: Found, receipt: Found, response: Found, binding: Found, refused: bool)

  // ---------------------------------------------------------------- codes

  /** `_trajectory_code` for outcomes: the literal `other` is in the vocabulary, but carries no digest. */
  function OutcomeCode(o: Option<Name>): (c: Option<Coded<Name>>) {
    if o.None? then None
    else if o.value == Name("other") then Some(Other(None))
    else if KnownOutcome(o.value) then Some(Plain(o.value)) else Some(Other(o))
  }

  /** `_trajectory_code` for transition reasons, with the aliases of the controller. */
  function ReasonCode(r: Reason): (c: Coded<Reason>) {
    match r
    case Submitted => Plain(Submitted)
    case StageCompleted => Plain(StageCompleted)
    case EdgeCap => Plain(EdgeCap)
    case TransitionCap => Plain(TransitionCap)
    case UserDecisionRequired => Plain(UserDecisionRequired)
    case ManualResume => Plain(ManualResume)
    case ManualRerunStage => Plain(ManualResume)
    case OrphanedRunning => Plain(OrphanedRunning)
    case Text(text) =>
      if text == "other" then Other(None)
      else if text == "task_created" then Plain(Submitted)
      else if text == "resumed" then Plain(ManualResume)
      else if text == "needs_user_decision" then Plain(UserDecisionRequired)
      else if text == "provider_preflight_failed" then Plain(r)
      else Other(Some(r))
    case _ => Other(Some(r))
  }

  /** A reviewer disposition means the provider itself settled well. */
  function ResultClassOf(c: Classification): (r: ResultClass) {
    match c
    case Success => Succeeded
    case WaitingUserRun => Succeeded
    case BlockedRun => ResultBlocked
    case PausedRun => ResultPaused
    case FailedRun => ResultFailed
  }

  // ---------------------------------------------------------------- drafts

  function Identity(run: StageRun): RunIdentity {
    RunIdentity(run.token, run.stage, run.cycle, run.attempt)
  }

  function OwnerOf(p: Profile, stage: Name): (owner: Option<Name>) {
    if stage in p.stages && p.stages[stage].Work? then Some(Name(p.stages[stage].owner)) else None
  }

  function TaskDraft(b: Body): (d: Draft) {
    Draft(None, None, None, [], None, None, b, [])
  }

  function StageDraft(run: StageRun, b: Body, refs: seq<Ref>): (d: Draft) {
    Draft(Some(Identity(run)), None, None, [], None, None, b, refs)
  }

  function ProviderDraft(p: Profile, run: StageRun, n: Notes, b: Body, refs: seq<Ref>): (d: Draft) {
    Draft(Some(Identity(run)), Some(run.token), n.session, [], OwnerOf(p, run.stage), n.model, b, refs)
  }

  function TransitionDraft(t: Transition): (d: Draft) {
    TaskDraft(TransitionCommitted(t.number, t.op, t.from, t.to, ReasonCode(t.reason), OutcomeCode(t.outcome)))
  }

  function LastTransition(log: seq<Transition>): (drafts: seq<Draft>) {
    if log == [] then [] else [TransitionDraft(Last(log))]
  }

  function BaselineDraft(log: seq<Transition>): (d: Draft) {
    TaskDraft(Baseline(if log == [] then 0 else Last(log).number))
  }

  function ClaimDrafts(p: Profile, run: StageRun, n: Notes): (drafts: seq<Draft>) {
    [StageDraft(run, StageClaimed(if run.lease.Some? then run.lease.value else 0), []),
     ProviderDraft(p, run, n, DispatchIntent, [])]
  }

  function RefTo(f: Found, kind: RefKind, run: StageRun): (r: Ref) {
    Ref(f.id, kind, f.content, f.path, run.token, Manifest(run.token, run.seal))
  }

  function LatestSession(events: seq<Event>): (e: Option<Event>)
    ensures e.Some? ==> e.value in events && IsSession(e.value.core.draft.body)
  {
    if events == [] then None
    else if IsSession(Last(events).core.draft.body) then Some(Last(events)) else LatestSession(Front(events))
  }

  /** A session is bound once, and rebound only when it changes. */
  function SessionDrafts(events: seq<Event>, run: StageRun, n: Notes): (drafts: seq<Draft>) {
    var latest := LatestSession(events);
    if n.session.None? then []
    else if latest.None? then
      var r := RefTo(n.binding, SessionBinding, run);
      [Draft(None, None, n.session, [], None, None, SessionBound(r.id), [r])]
    else if latest.value.core.draft.session == n.session then []
    else
      var r := RefTo(n.binding, Checkpoint, run);
      [Draft(None, None, n.session, [], None, None, SessionRebound(latest.value.core.id, r.id), [r])]
  }

  function SessionRefs(drafts: seq<Draft>): (refs: seq<Ref>) {
    if drafts == [] then [] else drafts[0].refs
  }

  /** The events of a settled run that say nothing about the task: handover, result, session and seal. */
  function RunDrafts(p: Profile, events: seq<Event>, run: StageRun, c: Classification, n: Notes): (drafts: seq<Draft>) {
    var manifest, receipt, response := RefTo(n.manifest, RunManifest, run), RefTo(n.receipt, TransportReceipt, run),
      RefTo(n.response, FinalResponse, run);
    var session := SessionDrafts(events, run, n);
    (if n.dispatched then [ProviderDraft(p, run, n, Dispatched(receipt.id), [receipt])] else [])
    + [ProviderDraft(p, run, n, ProviderSettled(ResultClassOf(c), Some(response.id)), [response])]
    + session
    + [StageDraft(run, EvidenceSealed, [manifest, receipt, response] + SessionRefs(session))]
  }

  function SettledDraft(run: StageRun, c: Classification, n: Notes): (d: Draft) {
    StageDraft(run, StageSettled(c, OutcomeCode(run.outcome), run.seal.Sealed?), [RefTo(n.manifest, RunManifest, run)])
  }

  /** A run closed without a seal: interrupted, or never started. */
  function UnsealedDraft(run: StageRun, c: Classification): (d: Draft) {
    StageDraft(run, StageSettled(c, OutcomeCode(run.outcome), false), [])
  }

  /** What a transaction that took the rows from `db` to `after` records. */
  function Drafts(db: Db, after: Db, events: seq<Event>, a: Action, n: Notes): (drafts: seq<Draft>) {
    match a
    case Claim(_, _, _) =>
      if after.task.status == Running && after.runs != [] then ClaimDrafts(db.profile, Last(after.runs), n)
        else LastTransition(after.log)
    case Commit(token, result, _) =>
      (match RunOf(after.runs, token)
       case None => []
       case Some(run) =>
         RunDrafts(db.profile, events, run, result.classification, n) + [SettledDraft(run, result.classification, n)])
      + LastTransition(after.log)
    case Resume(_, _) => LastTransition(after.log)
    case Orphan(_) =>
      (match FindActive(db.runs)
       case None => []
       case Some(k) => if k < |after.runs| then [UnsealedDraft(after.runs[k], BlockedRun)] else [])
      + LastTransition(after.log)
    case Preflight(_, _, paused, _) =>
      (if after.runs == [] then [] else [UnsealedDraft(Last(after.runs), if paused then PausedRun else BlockedRun)])
      + LastTransition(after.log)
  }

  // ---------------------------------------------------------------- appending

  function SealEvent(events: seq<Event>, id: EventId, revision: nat, d: Draft): (e: Event) {
    var core := Core(|events| + 1, id, revision, if events == [] then None else Some(Last(events).core.id), d,
                     NextPrev(events));
    Event(core, Digest(core))
  }

  /** Drafts sealed and appended one after the other; the first refusal fails them all. */
  function AppendAll(events: seq<Event>, drafts: seq<Draft>, ids: seq<EventId>, db: Db): (r: Option<seq<Event>>)
    ensures r.Some? ==> |r.value| == |events| + |drafts| && events <= r.value
  {
    if drafts == [] then Some(events)
    else if ids == [] then None
    else
      match AppendAll(events, Front(drafts), Front(ids), db)
      case None => None
      case Some(earlier) =>
        var e := SealEvent(earlier, Last(ids), db.task.revision, Last(drafts));
        if Admits(earlier, e, db) then Some(earlier + [e]) else None
  }

  predicate HasBaseline(events: seq<Event>) {
    exists i :: 0 <= i < |events| && events[i].core.draft.body.Baseline?
  }

  predicate HasCreated(events: seq<Event>) {
    exists i :: 0 <= i < |events| && events[i].core.draft.body.Created?
  }

  predicate AllReplayed(events: seq<Event>, log: seq<Transition>) {
    forall i :: 0 <= i < |log| ==> Replayed(events, log[i].number)
  }

  predicate NeedsBaseline(events: seq<Event>, log: seq<Transition>) {
    !HasBaseline(events) && !(HasCreated(events) && AllReplayed(events, log))
  }

  predicate ChecksBaseline(a: Action) {
    !a.Commit?
  }

  /** The events after the baseline check of a transaction. */
  function Baselined(events: seq<Event>, db: Db, a: Action, n: Notes): (r: Option<seq<Event>>)
    ensures r.Some? ==> events <= r.value
  {
    if ChecksBaseline(a) && NeedsBaseline(events, db.log) then
      AppendAll(events, [BaselineDraft(db.log)], [n.baselineId], db)
    else Some(events)
  }

  // ---------------------------------------------------------------- the recorded controller

  /**
   The rows, the trajectory, whether the writer is on, and (for the proofs) the rows each event was admitted
   under.
   */
  datatype Store = Store(db: Db, events: seq<Event>, on: bool, rows: seq<Db>)

  datatype RecordedStep = Act(action: Action, notes: Notes) | TurnOn

  function Copies<T>(x: T, n: nat): (s: seq<T>)
    ensures |s| == n && forall i :: 0 <= i < n ==> s[i] == x
  {
    seq(n, _ => x)
  }

  /** One transaction with its events, or nothing at all. */
  ghost function ActStep(s: Store, a: Action, n: Notes): (next: Store) {
    var after := Apply(s.db, a);
    if after == s.db then s
    else if !s.on then s.(db := after)
    else if n.refused then s
    else
      match Baselined(s.events, s.db, a, n)
      case None => s
      case Some(based) =>
        match AppendAll(based, Drafts(s.db, after, based, a, n), n.ids, after)
        case None => s
        case Some(events) =>
          Store(after, events, true, s.rows + Copies(s.db, |based| - |s.events|) + Copies(after, |events| - |based|))
  }

  ghost function TakeStep(s: Store, step: RecordedStep): (next: Store) {
    match step
    case Act(a, n) => ActStep(s, a, n)
    case TurnOn => s.(on := true)
  }

  ghost predicate FreshRefs(events: seq<Event>, n: Notes) {
    && n.manifest.id != n.receipt.id && n.manifest.id != n.response.id && n.manifest.id != n.binding.id
    && n.receipt.id != n.response.id && n.receipt.id != n.binding.id && n.response.id != n.binding.id
    && (forall r :: r in RefsOf(events) ==> r.id !in {n.manifest.id, n.receipt.id, n.response.id, n.binding.id})
  }

  ghost predicate Allowed(s: Store, step: RecordedStep) {
    step.Act? ==> Admissible(s.db, step.action) && FreshRefs(s.events, step.notes)
  }

  /** `submit`: with the writer on, creation and the first transition are recorded with the rows. */
  ghost predicate Recording(s: Store) {
    && FreshlySubmitted(s.db)
    && if !s.on then s.events == [] && s.rows == []
       else
         s.rows == Copies(s.db, 2)
         && exists ids :: AppendAll([], [TaskDraft(Created)] + LastTransition(s.db.log), ids, s.db) == Some(s.events)
  }

  ghost function RunSteps(s: Store, steps: seq<RecordedStep>): (after: Store) {
    if steps == [] then s else TakeStep(RunSteps(s, Front(steps)), Last(steps))
  }

  ghost predicate AllAllowed(s: Store, steps: seq<RecordedStep>) {
    steps == [] || (AllAllowed(s, Front(steps)) && Allowed(RunSteps(s, Front(steps)), Last(steps)))
  }
}

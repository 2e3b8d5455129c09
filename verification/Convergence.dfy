/**
 Repeat-review convergence: the record a branching run must carry, the rule that scores it, the
 baseline it is scored against and what the controller does with the score
 (`extract_convergence`, `convergence_verdict`, `validate_convergence` in orchestrator/runner.py;
 `_sealed_convergence_records`, `_convergence_context`, `_apply_convergence` in orchestrator/controller.py).
 */
module Convergence {
  import opened Prelude
  import opened Profiles

  datatype Finding = Finding(scenario: string)

  /** A transition reason: the controller's own codes, and any other text. */
  datatype Reason =
    | Submitted | StageCompleted | EdgeCap | TransitionCap | AttemptCap | UserDecisionRequired
    | OrphanedRunning | ManualResume | ManualRerunStage
    | RecordInvalid | Unverifiable | Contradictory | Stalled | Oscillating
    | WorkspaceEscape | ProtectedRootDrift
    | Text(text: string)

  // ---------------------------------------------------------------- the record

  datatype Verdict = Improved | StalledVerdict | OscillatingVerdict

  /** A key of the decoded JSON object: missing, not a list of identities, or a list of identities. */
  datatype Field = Absent | Malformed | Ids(ids: set<Finding>)

  datatype VerdictField = NoVerdict | UnknownVerdict | Declared(verdict: Verdict)

  datatype Payload =
    | NotJson
    | NotObject
    | Object(live: Field, resolved: Field, added: Field, repeated: Field, verdict: VerdictField, otherKeys: bool)

  /** A final response as far as the reader looks at it: marker counts, their order, what lies between. */
  datatype Response = Response(begins: nat, ends: nat, ordered: bool, payload: Payload)

  datatype Record = Record(
    live: set<Finding>, resolved: set<Finding>, added: set<Finding>, repeated: set<Finding>,
    verdict: Option<Verdict>)

  datatype RecordError =
    | Missing | MarkerCount | MarkerOrder | BadJson | BadShape | BadKeys | BadVerdict | BadIdentities
    | FirstWithVerdict | FirstWithResolved

  function ExtractConvergence(r: Response, repeat: Option<bool>): (out: Result<Record, RecordError>) {
    if r.begins == 0 && r.ends == 0 then Err(Missing)
    else if r.begins != 1 || r.ends != 1 then Err(MarkerCount)
    else if !r.ordered then Err(MarkerOrder)
    else match r.payload
      case NotJson => Err(BadJson)
      case NotObject => Err(BadShape)
      case Object(live, resolved, added, repeated, verdict, otherKeys) =>
        var asRepeat := if repeat.Some? then repeat.value else !verdict.NoVerdict?;
        if asRepeat then
          if otherKeys || live.Absent? || resolved.Absent? || added.Absent? || repeated.Absent? || verdict.NoVerdict?
          then Err(BadKeys)
          else if verdict.UnknownVerdict? then Err(BadVerdict)
          else if live.Malformed? || resolved.Malformed? || added.Malformed? || repeated.Malformed? then
            Err(BadIdentities)
          else Ok(Record(live.ids, resolved.ids, added.ids, repeated.ids, Some(verdict.verdict)))
        else if !verdict.NoVerdict? then Err(FirstWithVerdict)
        else if otherKeys || live.Absent? || resolved.Absent? || !added.Absent? || !repeated.Absent? then Err(BadKeys)
        else if resolved.Malformed? then Err(BadIdentities)
        else if resolved.ids != {} then Err(FirstWithResolved)
        else if live.Malformed? then Err(BadIdentities)
        else Ok(Record(live.ids, {}, {}, {}, None))
  }

  /** A record accepted in the shape a run was asked for reads back the same when the shape is not prescribed. */
  lemma AcceptedRecordIsReadable(r: Response, repeat: bool)
    ensures ExtractConvergence(r, Some(repeat)).Ok? ==>
              ExtractConvergence(r, None) == ExtractConvergence(r, Some(repeat))
    ensures ExtractConvergence(r, Some(true)).Err? && ExtractConvergence(r, Some(false)).Err? ==>
              ExtractConvergence(r, None).Err?
  {
  }

  // ---------------------------------------------------------------- the rule

  function ConvergenceVerdict(priorLive: set<Finding>, historical: set<Finding>, current: set<Finding>): (v: Verdict)
    ensures v == Improved <==> current < priorLive && current !! historical
    ensures v == OscillatingVerdict <==> !(current !! historical)
  {
    if !(current !! historical) then OscillatingVerdict
    else if current < priorLive && current - priorLive == {} then Improved
    else StalledVerdict
  }

  /** Err when a declared set or verdict differs from the computed one. */
  function ValidateConvergence(record: Record, priorLive: set<Finding>,
                               historical: set<Finding>): (out: Result<Verdict, ()>)
    ensures out.Ok? ==> record.resolved == priorLive - record.live && record.added == record.live - priorLive
    ensures out == Ok(Improved) ==> record.live < priorLive && record.live !! historical && record.added == {}
  {
    if record.resolved != priorLive - record.live || record.repeated != priorLive * record.live
       || record.added != record.live - priorLive then Err(())
    else
      var verdict := ConvergenceVerdict(priorLive, historical, record.live);
      if record.verdict != Some(verdict) then Err(()) else Ok(verdict)
  }

  // ---------------------------------------------------------------- the baseline

  /** What sealing a run left behind: its final response and stop reason, or nothing that verifies. */
  datatype Seal = Lost | Sealed(response: Response, reason: Reason)

  /** One committed run, in commit order. */
  datatype CommittedRun = CommittedRun(stage: Name, seal: Seal)

  /** What a committed run contributes to the baseline. */
  datatype Reading = Nothing | Read(record: Record) | Broken

  /**
   A branching run held because its record was never established made no claim and is skipped;
   any other unreadable branching record is evidence that has been lost.
   */
  function ReadRun(p: Profile, run: CommittedRun): (r: Reading)
    ensures !r.Nothing? ==> StageArity(p, run.stage) == Branching
  {
    if StageArity(p, run.stage) != Branching then Nothing
    else if run.seal.Lost? then Broken
    else match ExtractConvergence(run.seal.response, None)
      case Ok(record) => Read(record)
      case Err(_) => if run.seal.reason == RecordInvalid || run.seal.reason == Unverifiable then Nothing else Broken
  }

  ghost predicate CorrectionAt(p: Profile, h: seq<CommittedRun>, i: nat) {
    i < |h| && StageArity(p, h[i].stage) == Correction
  }

  ghost predicate Usable(p: Profile, h: seq<CommittedRun>, i: nat) {
    i < |h| && ReadRun(p, h[i]).Read?
  }

  ghost predicate BrokenAt(p: Profile, h: seq<CommittedRun>, i: nat) {
    i < |h| && ReadRun(p, h[i]).Broken?
  }

  /** Evidence of an accepted claim is gone: no later review of this task can be scored. */
  ghost predicate Tampered(p: Profile, h: seq<CommittedRun>) {
    exists i: nat :: BrokenAt(p, h, i)
  }

  /** A usable branching run with a correction between it and now. */
  ghost predicate Qualifies(p: Profile, h: seq<CommittedRun>, i: nat) {
    Usable(p, h, i) && exists c: nat :: i < c && CorrectionAt(p, h, c)
  }

  ghost predicate IsPrior(p: Profile, h: seq<CommittedRun>, i: nat) {
    Qualifies(p, h, i) && forall j: nat :: Qualifies(p, h, j) ==> j <= i
  }

  ghost function RecordAt(p: Profile, h: seq<CommittedRun>, i: nat): Record
    requires Usable(p, h, i)
  {
    ReadRun(p, h[i]).record
  }

  /** Every finding some usable review so far recorded as resolved. */
  ghost predicate EverResolved(p: Profile, h: seq<CommittedRun>, f: Finding) {
    exists i: nat :: Usable(p, h, i) && f in RecordAt(p, h, i).resolved
  }

  datatype Context = Unscorable | First | Repeat(prior: nat, priorLive: set<Finding>, historical: set<Finding>)

  /** What the context of the next branching run has to be, given the committed history. */
  ghost predicate IsContext(p: Profile, h: seq<CommittedRun>, c: Context) {
    match c
    case Unscorable => Tampered(p, h)
    case First => !Tampered(p, h) && forall i: nat :: !Qualifies(p, h, i)
    case Repeat(prior, priorLive, historical) =>
      && !Tampered(p, h) && IsPrior(p, h, prior)
      && priorLive == RecordAt(p, h, prior).live
      && (forall f :: f in historical <==> EverResolved(p, h, f))
  }

  lemma ReadingIs(p: Profile, h: seq<CommittedRun>, i: nat)
    ensures Usable(p, h, i) ==> i < |h| && ReadRun(p, h[i]) == Read(RecordAt(p, h, i))
    ensures BrokenAt(p, h, i) ==> i < |h| && ReadRun(p, h[i]).Broken?
    ensures i < |h| && ReadRun(p, h[i]).Read? ==> Usable(p, h, i)
    ensures i < |h| && ReadRun(p, h[i]).Broken? ==> BrokenAt(p, h, i)
  {
    hide ReadRun;
  }

  /** The readable records of the branching runs, or the first hard read failure. */
  method SealedRecords(p: Profile, h: seq<CommittedRun>) returns (records: map<nat, Record>, failed: bool)
    ensures failed <==> Tampered(p, h)
    ensures !failed ==> ReadsAll(p, h, records)
  {
    hide ReadRun, Usable, BrokenAt, RecordAt, StageArity;
    records := map[];
    for i := 0 to |h|
      invariant forall j: nat :: j in records <==> j < i && Usable(p, h, j)
      invariant forall j: nat :: j in records ==> records[j] == RecordAt(p, h, j)
      invariant forall j: nat :: j < i ==> !BrokenAt(p, h, j)
    {
      ReadingIs(p, h, i);
      match ReadRun(p, h[i])
      case Read(record) => records := records[i := record];
      case Nothing =>
      case Broken =>
        return records, true;
    }
    forall j: nat ensures Usable(p, h, j) ==> j < |h|
                  ensures BrokenAt(p, h, j) ==> j < |h| {
      ReadingIs(p, h, j);
    }
    failed := false;
  }

  lemma CorrectionIs(p: Profile, h: seq<CommittedRun>, i: nat)
    ensures CorrectionAt(p, h, i) <==> i < |h| && StageArity(p, h[i].stage) == Correction
  {
  }

  /** The last committed correction run. */
  method LastCorrection(p: Profile, h: seq<CommittedRun>) returns (last: Option<nat>)
    ensures last.Some? ==> CorrectionAt(p, h, last.value)
    ensures forall j: nat :: CorrectionAt(p, h, j) ==> last.Some? && j <= last.value
  {
    hide StageArity, CorrectionAt;
    last := None;
    for i := 0 to |h|
      invariant last.Some? ==> last.value < i && CorrectionAt(p, h, last.value)
      invariant forall j: nat :: j < i && CorrectionAt(p, h, j) ==> last.Some? && j <= last.value
    {
      CorrectionIs(p, h, i);
      if StageArity(p, h[i].stage) == Correction {
        last := Some(i);
      }
    }
    forall j: nat | CorrectionAt(p, h, j) ensures j < |h| {
      CorrectionIs(p, h, j);
    }
  }

  ghost predicate ReadsAll(p: Profile, h: seq<CommittedRun>, records: map<nat, Record>) {
    && (forall i: nat :: i in records <==> Usable(p, h, i))
    && (forall i: nat :: i in records ==> records[i] == RecordAt(p, h, i))
  }

  /** The last qualifying run. */
  method LastQualifying(p: Profile, h: seq<CommittedRun>, records: map<nat, Record>) returns (prior: Option<nat>)
    requires ReadsAll(p, h, records)
    ensures prior.Some? ==> prior.value in records && IsPrior(p, h, prior.value)
    ensures prior.None? ==> forall j: nat :: !Qualifies(p, h, j)
  {
    hide RecordAt, Usable;
    var last := LastCorrection(p, h);
    if last.None? {
      return None;
    }
    prior := None;
    for i := 0 to |h|
      invariant prior.Some? ==> prior.value in records && prior.value < i && Qualifies(p, h, prior.value)
      invariant forall j: nat :: j < i && Qualifies(p, h, j) ==> prior.Some? && j <= prior.value
    {
      if i in records && i < last.value {
        assert Qualifies(p, h, i);
        prior := Some(i);
      }
    }
  }

  ghost predicate ResolvedBefore(records: map<nat, Record>, k: nat, f: Finding) {
    exists j: nat :: j < k && j in records && f in records[j].resolved
  }

  method AllResolved(p: Profile, h: seq<CommittedRun>, records: map<nat, Record>) returns (resolved: set<Finding>)
    requires ReadsAll(p, h, records)
    ensures forall f :: f in resolved <==> EverResolved(p, h, f)
  {
    hide ReadRun;
    resolved := {};
    for i := 0 to |h|
      invariant forall f :: f in resolved <==> ResolvedBefore(records, i, f)
    {
      forall f ensures ResolvedBefore(records, i + 1, f) <==>
                         ResolvedBefore(records, i, f) || (i in records && f in records[i].resolved) {
      }
      if i in records {
        resolved := resolved + records[i].resolved;
      }
    }
    forall f ensures ResolvedBefore(records, |h|, f) <==> EverResolved(p, h, f) {
      if EverResolved(p, h, f) {
        var j: nat :| Usable(p, h, j) && f in RecordAt(p, h, j).resolved;
        assert j in records;
      }
    }
  }

  /** The context of a branching run about to start: what it is a repeat of, if anything. */
  method ConvergenceContext(p: Profile, h: seq<CommittedRun>) returns (c: Context)
    ensures IsContext(p, h, c)
  {
    hide ReadRun;
    var records, failed := SealedRecords(p, h);
    if failed {
      return Unscorable;
    }
    var prior := LastQualifying(p, h, records);
    if prior.None? {
      return First;
    }
    var resolved := AllResolved(p, h, records);
    c := Repeat(prior.value, records[prior.value].live, resolved);
  }

  // ---------------------------------------------------------------- applying the verdict

  datatype Classification = Success | BlockedRun | PausedRun | WaitingUserRun | FailedRun

  datatype RunResult = RunResult(classification: Classification, outcome: Option<Name>, reason: Reason,
                                 response: Response)

  const HOLD_OUTCOME := Name("needs_user_decision")

  function Hold(result: RunResult, reason: Reason): RunResult {
    result.(outcome := Some(HOLD_OUTCOME), classification := Success, reason := reason)
  }

  /** Every failure becomes the reserved hold outcome; only an improved repeat keeps an ordinary one. */
  function ApplyConvergence(result: RunResult, c: Context): (out: RunResult)
    ensures out.response == result.response
    ensures out.outcome != result.outcome ==> out.outcome == Some(HOLD_OUTCOME) && out.classification == Success
  {
    if result.classification != Success then result
    else if c.Unscorable? then Hold(result, Unverifiable)
    else
      match ExtractConvergence(result.response, Some(c.Repeat?))
      case Err(_) => Hold(result, RecordInvalid)
      case Ok(record) =>
        if c.First? then result else
        match ValidateConvergence(record, c.priorLive, c.historical)
        case Err(_) => Hold(result, Contradictory)
        case Ok(verdict) =>
          if result.outcome == Some(HOLD_OUTCOME) || verdict == Improved then result
          else Hold(result, if verdict == StalledVerdict then Stalled else Oscillating)
  }

  /** A run that goes on with an ordinary outcome after convergence was applied. */
  predicate Continues(result: RunResult) {
    result.classification == Success && result.outcome.Some? && result.outcome != Some(HOLD_OUTCOME)
  }

  /** What a continuing branching run has proved about itself, whatever the provider printed. */
  lemma ContinuingRunIsScored(raw: RunResult, c: Context)
    requires Continues(ApplyConvergence(raw, c))
    ensures ApplyConvergence(raw, c) == raw && !c.Unscorable?
    ensures ExtractConvergence(raw.response, None).Ok?
    ensures c.Repeat? ==>
              var record := ExtractConvergence(raw.response, None).value;
              && record.live < c.priorLive
              && record.live !! c.historical
              && record.resolved == c.priorLive - record.live
  {
    AcceptedRecordIsReadable(raw.response, c.Repeat?);
  }

  /** Exactly when a branching run goes on with an ordinary outcome. */
  lemma GoesOnExactly(raw: RunResult, c: Context)
    ensures Continues(ApplyConvergence(raw, c)) <==>
              && Continues(raw) && !c.Unscorable?
              && ExtractConvergence(raw.response, Some(c.Repeat?)).Ok?
              && (c.Repeat? ==>
                    var r := ExtractConvergence(raw.response, Some(true)).value;
                    && r.live < c.priorLive && r.live !! c.historical && r.verdict == Some(Improved)
                    && r.resolved == c.priorLive - r.live && r.repeated == r.live && r.added == {})
  {
    if c.Repeat? && ExtractConvergence(raw.response, Some(true)).Ok? {
      var r := ExtractConvergence(raw.response, Some(true)).value;
      if r.live < c.priorLive {
        assert c.priorLive * r.live == r.live && r.live - c.priorLive == {};
      }
    }
  }
}

/**
 The stop gate of a started task: two records and a decision artifact, each written on its own, so that a
 crash may fall between any two writes (`run_start_go`, `run_start_sync`, `run_gate_run`, `run_gate_sync`,
 `run_gate_decision` and their helpers in orchestrator/start.py). Only tasks routed with a stop gate are modelled.
 */
module StopGate {
  import opened Prelude

  datatype Stage = WaitingUser | Execute | DoneStage | BlockedStage | PausedStage | FailedStage

  datatype Kind = Allow | Block

  datatype Decision = Decision(kind: Kind, final: Stage, at: nat)

  datatype GateStatus = Pending | Decided(stage: Stage, kind: Kind)

  datatype Gate = Gate(status: GateStatus, reviewed: bool, advised: Option<Kind>)

  datatype ExecResult = ExecResult(id: nat, controller: Stage, lifecycle: Stage, gateRequired: bool)

  /** The task record and the routing record carry the same gate fields; the stage is the task's. */
  datatype Entry = Entry(gate: Option<Gate>, decision: Option<Decision>, result: Option<ExecResult>, enqueued: bool,
                         advice: Option<Kind>)

  datatype Files = Files(stage: Stage, task: Entry, routing: Entry, artifact: Option<Decision>)

  datatype Write = WriteArtifact(decision: Decision) | WriteTask(stage: Stage, entry: Entry)
      | WriteRouting(entry: Entry)

  function Final(k: Kind): (stage: Stage) {
    if k.Allow? then DoneStage else BlockedStage
  }

  // ---------------------------------------------------------------- reading the records

  /** What `_gate_decision` finds: the routing record first, then the task record, then a decided gate. */
  datatype Found = Found(kind: Kind, final: Option<Stage>)

  predicate DecidedGate(g: Option<Gate>) {
    g.Some? && g.value.status.Decided?
  }

  function GateDecision(f: Files): (d: Option<Found>) {
    if f.routing.decision.Some? then Some(Found(f.routing.decision.value.kind, Some(f.routing.decision.value.final)))
    else if f.task.decision.Some? then Some(Found(f.task.decision.value.kind, Some(f.task.decision.value.final)))
    else if DecidedGate(f.routing.gate) then Some(Found(f.routing.gate.value.status.kind, None))
    else if DecidedGate(f.task.gate) then Some(Found(f.task.gate.value.status.kind, None))
    else None
  }

  function Either<T>(a: Option<T>, b: Option<T>): (x: Option<T>) {
    if a.Some? then a else b
  }

  function ReviewEnqueued(f: Files): bool {
    f.routing.enqueued || f.task.enqueued || (f.routing.gate.Some? && f.routing.gate.value.reviewed)
      || (f.task.gate.Some? && f.task.gate.value.reviewed)
  }

  function AdviceGiven(f: Files): bool {
    f.routing.advice.Some? || f.task.advice.Some?
    || (f.routing.gate.Some? && f.routing.gate.value.advised.Some?)
       || (f.task.gate.Some? && f.task.gate.value.advised.Some?)
  }

  /** `_require_pending_stop_gate`: the pending gate, if every condition for deciding it holds. */
  function PendingGate(f: Files): (g: Option<Gate>)
    ensures g.Some? ==> g.value.status.Pending? && f.stage.WaitingUser?
  {
    var gate, result := Either(f.routing.gate, f.task.gate), Either(f.routing.result, f.task.result);
    if f.stage.WaitingUser? && gate.Some? && gate.value.status.Pending?
       && result.Some? && result.value.gateRequired && result.value.lifecycle.WaitingUser?
          && result.value.controller.DoneStage?
    then gate else None
  }

  // ---------------------------------------------------------------- what each command writes

  /** `_execution_result_summary`: a done controller waits for the gate. */
  function Summary(id: nat, controller: Stage): (r: ExecResult) {
    if controller.DoneStage? then ExecResult(id, controller, WaitingUser, true)
      else ExecResult(id, controller, controller, false)
  }

  function Both(f: Files, stage: Stage, task: Entry, routing: Entry): (writes: seq<Write>) {
    [WriteTask(stage, task), WriteRouting(routing)]
  }

  function PlanSync(f: Files, id: nat, controller: Stage): (writes: seq<Write>) {
    var summary, found := Summary(id, controller), GateDecision(f);
    if found.Some? && summary.gateRequired then
      var final := if found.value.final.Some? then found.value.final.value else f.stage;
      var result := summary.(lifecycle := final, gateRequired := false);
      var base := Either(f.task.gate, f.routing.gate);
      var task, routing := f.task.(result := Some(result)), f.routing.(result := Some(result));
      if base.Some? then
        var gate := Some(base.value.(status := Decided(final, found.value.kind)));
        Both(f, final, task.(gate := gate), routing.(gate := gate))
      else Both(f, final, task, routing)
    else
      var task, routing := f.task.(result := Some(summary)), f.routing.(result := Some(summary));
      if summary.gateRequired then
        var gate := Some(Gate(Pending, ReviewEnqueued(f), None));
        Both(f, summary.lifecycle, task.(gate := gate), routing.(gate := gate))
      else Both(f, summary.lifecycle, task, routing)
  }

  function PlanGateRun(f: Files): (writes: Option<seq<Write>>) {
    if GateDecision(f).Some? || ReviewEnqueued(f) || PendingGate(f).None? then None
    else
      var gate := Some(PendingGate(f).value.(reviewed := true));
      Some(Both(f, f.stage, f.task.(gate := gate, enqueued := true), f.routing.(gate := gate, enqueued := true)))
  }

  /** A reviewer's recommendation is recorded, never acted on; a held reviewer leaves the gate undecided. */
  function PlanGateSync(f: Files, advice: Option<Kind>): (writes: Option<seq<Write>>) {
    if GateDecision(f).Some? || AdviceGiven(f) || PendingGate(f).None? || !ReviewEnqueued(f) then None
    else
      var gate := Some(PendingGate(f).value.(reviewed := true, advised := advice));
      Some(Both(f, WaitingUser, f.task.(gate := gate, advice := Either(advice, f.task.advice)),
                f.routing.(gate := gate, advice := Either(advice, f.routing.advice))))
  }

  function PlanDecision(f: Files, kind: Kind, at: nat): (writes: Option<seq<Write>>) {
    if f.artifact.Some? || GateDecision(f).Some? || PendingGate(f).None? then None
    else
      var d := Decision(kind, Final(kind), at);
      var gate := Some(PendingGate(f).value.(status := Decided(Final(kind), kind)));
      Some([WriteArtifact(d)] + Both(f, Final(kind), f.task.(gate := gate, decision := Some(d)),
                                     f.routing.(gate := gate, decision := Some(d))))
  }

  /** `start-go` accepts any waiting task, a gate-pending one too; `enqueued` is None when intake stops it again. */
  function PlanStartGo(f: Files, enqueued: Option<bool>): (writes: Option<seq<Write>>) {
    if !f.stage.WaitingUser? then None
    else Some(Both(f, if enqueued.None? then WaitingUser else if enqueued.value then Execute else BlockedStage,
                   f.task, f.routing))
  }

  datatype Command =
    | Sync(id: nat, controller: Stage)
    | GateRun
    | GateSync(advice: Option<Kind>)
    | Decide(kind: Kind, at: nat)
    | StartGo(enqueued: Option<bool>)

  /** The writes of a command, in order; a refused command writes nothing. */
  function Plan(f: Files, c: Command): (writes: seq<Write>) {
    var plan := match c
      case Sync(id, controller) => Some(PlanSync(f, id, controller))
      case GateRun => PlanGateRun(f)
      case GateSync(advice) => PlanGateSync(f, advice)
      case Decide(kind, at) => PlanDecision(f, kind, at)
      case StartGo(enqueued) => PlanStartGo(f, enqueued);
    if plan.Some? then plan.value else []
  }

  function Apply(f: Files, w: Write): (after: Files) {
    match w
    case WriteArtifact(d) => f.(artifact := Some(d))
    case WriteTask(stage, entry) => f.(stage := stage, task := entry)
    case WriteRouting(entry) => f.(routing := entry)
  }

  function ApplyAll(f: Files, writes: seq<Write>): (after: Files)
    decreases |writes|
  {
    if writes == [] then f else ApplyAll(Apply(f, writes[0]), writes[1..])
  }

  // ---------------------------------------------------------------- crash-interleaved runs

  datatype World = World(files: Files, pending: seq<Write>)

  /** A command reads the files and plans its writes; each write is one step; a crash forgets what is left. */
  datatype Step = Start(command: Command) | Flush | Crash

  function Take(w: World, s: Step): (after: World) {
    match s
    case Start(c) => if w.pending == [] then World(w.files, Plan(w.files, c)) else w
    case Flush => if w.pending == [] then w else World(Apply(w.files, w.pending[0]), w.pending[1..])
    case Crash => World(w.files, [])
  }

  function Run(w: World, steps: seq<Step>): (after: World) {
    if steps == [] then w else Take(Run(w, Front(steps)), Last(steps))
  }

  const BLANK := Entry(None, None, None, false, None)

  /** A routed task before its first execution. */
  function Routed(stage: Stage): (w: World) {
    World(Files(stage, BLANK, BLANK, None), [])
  }

  // ---------------------------------------------------------------- what every run keeps

  /** Every trace of a decision is the artifact's; only an allowed task is done. */
  predicate Truthful(f: Files) {
    && (f.task.decision.Some? ==> f.artifact == f.task.decision)
    && (f.routing.decision.Some? ==> f.task.decision.Some? && f.artifact == f.routing.decision)
    && (DecidedGate(f.task.gate) ==>
          && f.task.decision.Some?
          && f.task.gate.value.status == Decided(Final(f.task.decision.value.kind), f.task.decision.value.kind))
    && (DecidedGate(f.routing.gate) ==>
          && f.task.decision.Some?
          && f.routing.gate.value.status == Decided(Final(f.task.decision.value.kind), f.task.decision.value.kind))
    && (f.task.decision.Some? ==> DecidedGate(f.task.gate))
    && (f.artifact.Some? ==> f.artifact.value.final == Final(f.artifact.value.kind))
    && (f.stage.DoneStage? ==> f.task.decision.Some? && f.task.decision.value.kind.Allow?)
  }

  /** A write that keeps every decision that is there. */
  predicate Keeps(f: Files, w: Write) {
    match w
    case WriteArtifact(_) => f.artifact.None?
    case WriteTask(_, e) =>
      (f.task.decision.Some? ==> e.decision == f.task.decision)
        && (DecidedGate(f.task.gate) ==> DecidedGate(e.gate) && e.gate.value.status == f.task.gate.value.status)
    case WriteRouting(e) =>
      (f.routing.decision.Some? ==> e.decision == f.routing.decision)
        && (DecidedGate(f.routing.gate) ==> DecidedGate(e.gate) && e.gate.value.status == f.routing.gate.value.status)
  }

  predicate Safe(f: Files, pending: seq<Write>)
    decreases |pending|
  {
    Truthful(f) && (pending != [] ==> Keeps(f, pending[0]) && Safe(Apply(f, pending[0]), pending[1..]))
  }

  lemma TwoWritesSafe(f: Files, stage: Stage, task: Entry, routing: Entry)
    requires Truthful(f) && Keeps(f, WriteTask(stage, task))
    requires Truthful(f.(stage := stage, task := task))
             && Keeps(f.(stage := stage, task := task), WriteRouting(routing))
    requires Truthful(f.(stage := stage, task := task, routing := routing))
    ensures Safe(f, Both(f, stage, task, routing))
  {
    hide Truthful, Keeps;
    var mid := Apply(f, WriteTask(stage, task));
    var writes := Both(f, stage, task, routing);
    assert writes[1..] == [WriteRouting(routing)] && writes[1..][1..] == [];
    assert Apply(mid, WriteRouting(routing)) == f.(stage := stage, task := task, routing := routing);
    assert Safe(Apply(mid, WriteRouting(routing)), []);
    assert Safe(mid, [WriteRouting(routing)]);
  }

  lemma SyncIsSafe(f: Files, id: nat, controller: Stage)
    requires Truthful(f)
    ensures Safe(f, PlanSync(f, id, controller))
  {
    hide Safe, ReviewEnqueued;
    var writes := PlanSync(f, id, controller);
    TwoWritesSafe(f, writes[0].stage, writes[0].entry, writes[1].entry);
  }

  lemma PendingIsUndecided(f: Files)
    requires Truthful(f) && GateDecision(f).None?
    ensures f.task.decision.None? && f.routing.decision.None? && !DecidedGate(f.task.gate)
            && !DecidedGate(f.routing.gate)
  {
  }

  lemma DecisionIsSafe(f: Files, kind: Kind, at: nat)
    requires Truthful(f) && PlanDecision(f, kind, at).Some?
    ensures Safe(f, PlanDecision(f, kind, at).value)
  {
    hide PendingGate, Safe;
    PendingIsUndecided(f);
    var writes := PlanDecision(f, kind, at).value;
    var mid := Apply(f, writes[0]);
    PendingWaits(f);
    TwoWritesSafe(mid, writes[1].stage, writes[1].entry, writes[2].entry);
    assert writes[1..] == Both(mid, writes[1].stage, writes[1].entry, writes[2].entry);
    SafeStep(f, writes);
  }

  lemma PendingWaits(f: Files)
    ensures PendingGate(f).Some? ==> f.stage.WaitingUser?
  {
  }

  lemma SafeStep(f: Files, writes: seq<Write>)
    requires writes != [] && Truthful(f) && Keeps(f, writes[0]) && Safe(Apply(f, writes[0]), writes[1..])
    ensures Safe(f, writes)
  {
  }

  lemma NoWritesSafe(f: Files)
    requires Truthful(f)
    ensures Safe(f, [])
  {
  }

  lemma PlanIsSafe(f: Files, c: Command)
    requires Truthful(f)
    ensures Safe(f, Plan(f, c))
  {
    hide Truthful, Safe, PlanSync, PlanGateRun, PlanGateSync, PlanDecision;
    NoWritesSafe(f);
    match c {
      case Sync(id, controller) => SyncIsSafe(f, id, controller);
      case GateRun => ReviewIsSafe(f, None);
      case GateSync(advice) => ReviewIsSafe(f, advice);
      case Decide(kind, at) =>
        if PlanDecision(f, kind, at).Some? {
          DecisionIsSafe(f, kind, at);
        }
      case StartGo(enqueued) =>
        if PlanStartGo(f, enqueued).Some? {
          StartGoIsSafe(f, enqueued);
        }
    }
  }

  lemma ReviewIsSafe(f: Files, advice: Option<Kind>)
    requires Truthful(f)
    ensures PlanGateRun(f).Some? ==> Safe(f, PlanGateRun(f).value)
    ensures PlanGateSync(f, advice).Some? ==> Safe(f, PlanGateSync(f, advice).value)
  {
    hide Safe, ReviewEnqueued, AdviceGiven;
    if PlanGateRun(f).Some? {
      PendingIsUndecided(f);
      var writes := PlanGateRun(f).value;
      TwoWritesSafe(f, writes[0].stage, writes[0].entry, writes[1].entry);
    }
    if PlanGateSync(f, advice).Some? {
      PendingIsUndecided(f);
      var writes := PlanGateSync(f, advice).value;
      TwoWritesSafe(f, writes[0].stage, writes[0].entry, writes[1].entry);
    }
  }

  lemma StartGoIsSafe(f: Files, enqueued: Option<bool>)
    requires Truthful(f) && PlanStartGo(f, enqueued).Some?
    ensures Safe(f, PlanStartGo(f, enqueued).value)
  {
    hide Safe;
    var writes := PlanStartGo(f, enqueued).value;
    TwoWritesSafe(f, writes[0].stage, writes[0].entry, writes[1].entry);
  }

  lemma TakeIsSafe(w: World, s: Step)
    requires Safe(w.files, w.pending)
    ensures Safe(Take(w, s).files, Take(w, s).pending)
  {
    hide Plan, Truthful, Keeps, Apply;
    if s.Start? && w.pending == [] {
      PlanIsSafe(w.files, s.command);
    }
  }

  lemma {:induction false} EveryWorldIsSafe(stage: Stage, steps: seq<Step>)
    requires !stage.DoneStage?
    ensures var w := Run(Routed(stage), steps); Safe(w.files, w.pending)
  {
    hide Safe, Take;
    if steps == [] {
      RoutedIsSafe(stage);
    } else {
      EveryWorldIsSafe(stage, Front(steps));
      TakeIsSafe(Run(Routed(stage), Front(steps)), Last(steps));
    }
  }

  lemma RoutedIsSafe(stage: Stage)
    requires !stage.DoneStage?
    ensures Safe(Routed(stage).files, [])
  {
  }

  /**
   In every crash-interleaved run a stop-gated task is done only if an ALLOW artifact exists, and no record of a
   decision differs from the artifact.
   */
  lemma DoneOnlyIfAllowed(stage: Stage, steps: seq<Step>)
    requires !stage.DoneStage?
    ensures var f := Run(Routed(stage), steps).files;
            && (f.stage.DoneStage? ==> f.artifact.Some? && f.artifact.value.kind.Allow?)
            && (f.task.decision.Some? ==> f.artifact == f.task.decision)
            && (f.routing.decision.Some? ==> f.artifact == f.routing.decision)
  {
    hide Run;
    EveryWorldIsSafe(stage, steps);
  }

  predicate SameGate(a: Option<Gate>, b: Option<Gate>) {
    DecidedGate(a) ==> DecidedGate(b) && b.value.status == a.value.status
  }

  /** The artifact, the decisions of both records and their decided gates are in the later files what they were. */
  predicate KeepsDecisions(f: Files, g: Files) {
    && (f.artifact.Some? ==> g.artifact == f.artifact)
    && (f.task.decision.Some? ==> g.task.decision == f.task.decision)
    && (f.routing.decision.Some? ==> g.routing.decision == f.routing.decision)
    && SameGate(f.task.gate, g.task.gate) && SameGate(f.routing.gate, g.routing.gate)
  }

  lemma StepKeepsDecisions(w: World, s: Step)
    requires Safe(w.files, w.pending)
    ensures KeepsDecisions(w.files, Take(w, s).files)
  {
    hide Plan, Truthful;
  }

  lemma {:induction false} DecisionsStay(w: World, steps: seq<Step>)
    requires Safe(w.files, w.pending)
    ensures Safe(Run(w, steps).files, Run(w, steps).pending)
    ensures KeepsDecisions(w.files, Run(w, steps).files)
  {
    hide Safe, Take;
    if steps != [] {
      DecisionsStay(w, Front(steps));
      TakeIsSafe(Run(w, Front(steps)), Last(steps));
      StepKeepsDecisions(Run(w, Front(steps)), Last(steps));
    }
  }

  /**
   Whatever is synced or crashes later, the artifact and what either record says of the decision never change, a
   decided gate keeps its decision, and a blocked task never becomes done.
   */
  lemma DecisionIsFinal(stage: Stage, before: seq<Step>, after: seq<Step>)
    requires !stage.DoneStage?
    ensures var w := Run(Routed(stage), before);
            var f, g := w.files, Run(w, after).files;
            && KeepsDecisions(f, g)
            && (f.artifact.Some? && f.artifact.value.kind.Block? ==> !g.stage.DoneStage?)
  {
    hide Run;
    EveryWorldIsSafe(stage, before);
    DecisionsStay(Run(Routed(stage), before), after);
  }

  // ---------------------------------------------------------------- the artifact alone

  /** Nothing in either record says that a decision was made, and nothing under way will. */
  predicate Unrecorded(w: World) {
    && w.files.artifact.Some? && GateDecision(w.files).None?
    && forall i :: 0 <= i < |w.pending| ==> Silent(w.pending[i])
  }

  predicate Silent(w: Write) {
    match w
    case WriteArtifact(_) => false
    case WriteTask(stage, e) => e.decision.None? && !DecidedGate(e.gate) && !stage.DoneStage?
    case WriteRouting(e) => e.decision.None? && !DecidedGate(e.gate)
  }

  /**
   A crash right after the artifact is final in its own way: no command reads the artifact back, and its
   existence refuses every further decision, so the gate stays pending for good.
   */
  lemma {:induction false} ArtifactAloneStaysUnrecorded(w: World, steps: seq<Step>)
    requires Unrecorded(w) && !w.files.stage.DoneStage?
    ensures Unrecorded(Run(w, steps)) && !Run(w, steps).files.stage.DoneStage?
  {
    hide Take;
    if steps != [] {
      ArtifactAloneStaysUnrecorded(w, Front(steps));
      UnrecordedStep(Run(w, Front(steps)), Last(steps));
    }
  }

  lemma UnrecordedStep(w: World, s: Step)
    requires Unrecorded(w) && !w.files.stage.DoneStage?
    ensures Unrecorded(Take(w, s)) && !Take(w, s).files.stage.DoneStage?
  {
    hide ReviewEnqueued, AdviceGiven;
    match s {
      case Flush =>
        if w.pending != [] {
          assert Silent(w.pending[0]);
          forall i | 0 <= i < |w.pending[1..]| ensures Silent(w.pending[1..][i]) {
            assert w.pending[1..][i] == w.pending[i + 1];
          }
        }
      case _ =>
    }
  }

  /**
   Exactly when a decision that was made ever shows: with an artifact and no write under way, the records show
   it if and only if the task record has it, and no later command, sync or crash changes that.
   */
  lemma DecisionShowsExactly(stage: Stage, before: seq<Step>, after: seq<Step>)
    requires !stage.DoneStage?
    requires var w := Run(Routed(stage), before); w.files.artifact.Some? && w.pending == []
    ensures var w := Run(Routed(stage), before);
            && (GateDecision(w.files).Some? <==> w.files.task.decision.Some?)
            && (GateDecision(Run(w, after).files).Some? <==> w.files.task.decision.Some?)
  {
    hide Run;
    var w := Run(Routed(stage), before);
    EveryWorldIsSafe(stage, before);
    DecisionsStay(w, after);
    if w.files.task.decision.None? {
      ArtifactAloneStaysUnrecorded(w, after);
    }
  }

  /** A decision whose process dies after its first write leaves the artifact alone. */
  lemma CrashAfterArtifact(f: Files, kind: Kind, at: nat)
    requires Truthful(f) && PlanDecision(f, kind, at).Some?
    ensures var w := Run(World(f, []), [Start(Decide(kind, at)), Flush, Crash]); Unrecorded(w) && w.pending == []
  {
    hide PendingGate;
    PendingIsUndecided(f);
    var steps := [Start(Decide(kind, at)), Flush, Crash];
    var w := World(f, []);
    assert Front(steps) == [Start(Decide(kind, at)), Flush] && Front(Front(steps)) == [Start(Decide(kind, at))]
           && Front(Front(Front(steps))) == [];
    assert Run(w, []) == w && Run(w, Front(Front(steps))) == Take(w, Start(Decide(kind, at)));
    var planned := Take(w, Start(Decide(kind, at)));
    assert planned.pending[0].WriteArtifact?;
    assert Run(w, Front(steps)) == Take(planned, Flush);
  }

  lemma {:induction false} RunOn(w: World, first: seq<Step>, rest: seq<Step>)
    ensures Run(w, first + rest) == Run(Run(w, first), rest)
  {
    if rest == [] {
      assert first + rest == first;
    } else {
      RunOn(w, first, Front(rest));
      assert Front(first + rest) == first + Front(rest) && Last(first + rest) == Last(rest);
    }
  }

  /** A task that ran to the end waits for its gate. */
  function Waiting(id: nat): (f: Files) {
    var entry := Entry(Some(Gate(Pending, false, None)), None, Some(Summary(id, DoneStage)), false, None);
    Files(WaitingUser, entry, entry, None)
  }

  lemma WaitingIsReached(id: nat)
    ensures Run(Routed(Execute), [Start(Sync(id, DoneStage)), Flush, Flush]) == World(Waiting(id), [])
  {
    var s1 := [Start(Sync(id, DoneStage))];
    var s2 := s1 + [Flush];
    var w, f := Routed(Execute), Waiting(id);
    assert Front(s1) == [] && Front(s2) == s1 && Front(s2 + [Flush]) == s2;
    assert Run(w, s1) == World(w.files, [WriteTask(WaitingUser, f.task), WriteRouting(f.routing)]);
    assert Run(w, s2) == World(w.files.(stage := WaitingUser, task := f.task), [WriteRouting(f.routing)]);
    assert [Start(Sync(id, DoneStage)), Flush, Flush] == s2 + [Flush];
  }

  /** From a routed task on, that state is reached. */
  lemma UnrecordedIsReached(id: nat, kind: Kind, at: nat) returns (steps: seq<Step>)
    ensures Unrecorded(Run(Routed(Execute), steps)) && Run(Routed(Execute), steps).pending == []
  {
    hide Run, Unrecorded;
    var sync, crash := [Start(Sync(id, DoneStage)), Flush, Flush], [Start(Decide(kind, at)), Flush, Crash];
    WaitingIsReached(id);
    CrashAfterArtifact(Waiting(id), kind, at);
    steps := sync + crash;
    RunOn(Routed(Execute), sync, crash);
  }

  /** The writes of a whole command. */
  lemma {:induction false} WritesKeep(f: Files, writes: seq<Write>)
    requires Safe(f, writes)
    ensures Truthful(ApplyAll(f, writes)) && KeepsDecisions(f, ApplyAll(f, writes))
    decreases |writes|
  {
    hide Truthful;
    if writes != [] {
      WritesKeep(Apply(f, writes[0]), writes[1..]);
    }
  }

  lemma CommandKeeps(f: Files, c: Command)
    requires Truthful(f)
    ensures Truthful(ApplyAll(f, Plan(f, c))) && KeepsDecisions(f, ApplyAll(f, Plan(f, c)))
  {
    hide Truthful, Safe, Plan, ApplyAll, KeepsDecisions;
    PlanIsSafe(f, c);
    WritesKeep(f, Plan(f, c));
  }

  // ---------------------------------------------------------------- the commands in place

  class GateHome {
    var stage: Stage
    var task: Entry
    var routing: Entry
    var artifact: Option<Decision>

    ghost function State(): Files
      reads this
    {
      Files(stage, task, routing, artifact)
    }

    method StartSync(id: nat, controller: Stage)
      modifies this
      ensures State() == ApplyAll(old(State()), PlanSync(old(State()), id, controller))
      ensures old(Truthful(State())) ==> Truthful(State()) && KeepsDecisions(old(State()), State())
    {
      hide ReviewEnqueued, Truthful, KeepsDecisions;
      ghost var before := State();
      if Truthful(before) {
        CommandKeeps(before, Sync(id, controller));
      }
      var result, found := Summary(id, controller), GateDecision(Files(stage, task, routing, artifact));
      var gate: Option<Gate> := None;
      if found.Some? && result.gateRequired {
        var final := if found.value.final.Some? then found.value.final.value else stage;
        result := result.(lifecycle := final, gateRequired := false);
        var base := Either(task.gate, routing.gate);
        if base.Some? {
          gate := Some(base.value.(status := Decided(final, found.value.kind)));
        }
      } else if result.gateRequired {
        gate := Some(Gate(Pending, ReviewEnqueued(Files(stage, task, routing, artifact)), None));
      }
      task, routing := task.(result := Some(result)), routing.(result := Some(result));
      if gate.Some? {
        task, routing := task.(gate := gate), routing.(gate := gate);
      }
      stage := result.lifecycle;
      TwoWrites(before, stage, task, routing);
    }

    method GateDecide(kind: Kind, at: nat) returns (ok: bool)
      modifies this
      ensures ok <==> PlanDecision(old(State()), kind, at).Some?
      ensures State() == ApplyAll(old(State()), Plan(old(State()), Decide(kind, at)))
      ensures old(Truthful(State())) ==> Truthful(State()) && KeepsDecisions(old(State()), State())
    {
      hide PendingGate, GateDecision, Truthful, KeepsDecisions;
      ghost var before := State();
      if Truthful(before) {
        CommandKeeps(before, Decide(kind, at));
      }
      var files := Files(stage, task, routing, artifact);
      if artifact.Some? || GateDecision(files).Some? {
        return false;
      }
      var pending := PendingGate(files);
      if pending.None? {
        return false;
      }
      var d := Decision(kind, Final(kind), at);
      var gate := Some(pending.value.(status := Decided(Final(kind), kind)));
      task, routing := task.(gate := gate, decision := Some(d)), routing.(gate := gate, decision := Some(d));
      stage := Final(kind);
      artifact := Some(d);
      ok := true;
      var writes := Plan(before, Decide(kind, at));
      TwoWrites(before.(artifact := artifact), stage, task, routing);
      assert writes[1..] == Both(before.(artifact := artifact), stage, task, routing);
    }

    method EnqueueReview() returns (ok: bool)
      modifies this
      ensures ok <==> PlanGateRun(old(State())).Some?
      ensures State() == ApplyAll(old(State()), Plan(old(State()), GateRun))
      ensures old(Truthful(State())) ==> Truthful(State()) && KeepsDecisions(old(State()), State())
    {
      hide PendingGate, GateDecision, ReviewEnqueued, Truthful, KeepsDecisions;
      ghost var before := State();
      if Truthful(before) {
        CommandKeeps(before, GateRun);
      }
      var files := Files(stage, task, routing, artifact);
      if GateDecision(files).Some? || ReviewEnqueued(files) || PendingGate(files).None? {
        return false;
      }
      var gate := Some(PendingGate(files).value.(reviewed := true));
      task, routing := task.(gate := gate, enqueued := true), routing.(gate := gate, enqueued := true);
      TwoWrites(before, stage, task, routing);
      return true;
    }

    method RecordAdvice(advice: Option<Kind>) returns (ok: bool)
      modifies this
      ensures ok <==> PlanGateSync(old(State()), advice).Some?
      ensures State() == ApplyAll(old(State()), Plan(old(State()), GateSync(advice)))
      ensures old(Truthful(State())) ==> Truthful(State()) && KeepsDecisions(old(State()), State())
    {
      hide PendingGate, GateDecision, ReviewEnqueued, AdviceGiven, Truthful, KeepsDecisions;
      ghost var before := State();
      if Truthful(before) {
        CommandKeeps(before, GateSync(advice));
      }
      var files := Files(stage, task, routing, artifact);
      if GateDecision(files).Some? || AdviceGiven(files) || PendingGate(files).None? || !ReviewEnqueued(files) {
        return false;
      }
      var gate := Some(PendingGate(files).value.(reviewed := true, advised := advice));
      task := task.(gate := gate, advice := Either(advice, task.advice));
      routing := routing.(gate := gate, advice := Either(advice, routing.advice));
      stage := WaitingUser;
      TwoWrites(before, stage, task, routing);
      return true;
    }
  }

  lemma TwoWrites(f: Files, stage: Stage, task: Entry, routing: Entry)
    ensures ApplyAll(f, Both(f, stage, task, routing)) == f.(stage := stage, task := task, routing := routing)
  {
    var writes := Both(f, stage, task, routing);
    var mid := Apply(f, writes[0]);
    assert writes[1..] == [WriteRouting(routing)] && [WriteRouting(routing)][1..] == [];
    assert ApplyAll(Apply(mid, WriteRouting(routing)), []) == Apply(mid, WriteRouting(routing));
    assert ApplyAll(mid, [WriteRouting(routing)]) == Apply(mid, WriteRouting(routing));
  }
}

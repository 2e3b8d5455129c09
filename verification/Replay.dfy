/**
 The pure replay: one pass over a frozen snapshot that rebuilds the task, its attempts and its
 provider invocations and says whether the record can be trusted (orchestrator/trajectory_replay.py).
 The loops are proved against folds; what the folds mean is proved in ReplayIntegrity and ReplayAgreement.
 */
module Replay {
  import opened Prelude
  import opened Profiles
  import opened Convergence
  import opened Lifecycle
  import opened Trajectory

  datatype Fault =
    | EventInvalid | SequenceGap | DuplicateEventId | HashChainBroken | ParentInvalid
    | TaskRevisionRegression | RunIdentityMismatch
    | ProviderEventDuplicate | ProviderEventUnpaired | SessionPredecessorInvalid
    | SnapshotInvalid | EvidenceInventoryMismatch | EvidenceCorrupt | CanonicalMismatch

  datatype Availability = Present | Unavailable | Expired | Corrupt

  /** What an event and the inventory both say about a sealed reference. */
  datatype Described = Described(kind: RefKind, content: nat)

  datatype Item = Item(id: RefId, described: Described, availability: Availability)

  /** A digest of something equal contents only is the thing itself. */
  datatype SnapshotManifest = SnapshotManifest(
    count: nat, first: Option<int>, last: Option<int>, head: Option<Hash>,
    events: seq<Event>, inventory: seq<Item>, state: Db)

  datatype Snapshot = Snapshot(events: seq<Event>, head: Option<Hash>, inventory: seq<Item>, state: Db,
                               manifest: SnapshotManifest)

  datatype TaskView = TaskView(revision: nat, status: Option<Status>, number: Option<nat>)

  datatype AttemptStatus = Row(status: RunStatus) | NoRowStatus

  datatype Attempt = Attempt(
    identity: RunIdentity, status: AttemptStatus, code: Option<Coded<Name>>, sealed: bool, manifest: Option<Manifest>)

  datatype Invocation = Invocation(
    run: Token, provider: Option<Name>, model: Option<Name>, session: Option<Session>,
    dispatched: bool, settled: bool, verdict: ResultClass)

  datatype Integrity = Sound | Incomplete | Mismatch | CorruptRecord

  datatype Completeness = Complete | Partial | Lacking

  datatype Projection = Projection(
    integrity: Integrity, completeness: Completeness, task: Option<TaskView>,
    attempts: map<Token, Attempt>, invocations: map<Token, Invocation>, faults: set<Fault>)

  // ---------------------------------------------------------------- the chain

  datatype Chain = Chain(seen: set<EventId>, previous: Option<Hash>, faults: set<Fault>)

  function When(fault: Fault, b: bool): (faults: set<Fault>) {
    if b then {fault} else {}
  }

  predicate Earlier(seen: set<EventId>, core: Core) {
    && (core.parent.Some? ==> core.parent.value in seen)
    && (forall i :: 0 <= i < |core.draft.causal| ==> core.draft.causal[i] in seen)
  }

  function Link(c: Chain, expected: nat, e: Event): (next: Chain) {
    Chain(c.seen + {e.core.id}, Some(e.hash),
          c.faults + When(SequenceGap, e.core.position != expected) + When(DuplicateEventId, e.core.id in c.seen)
          + When(HashChainBroken, e.core.prev != c.previous) + When(ParentInvalid, !Earlier(c.seen, e.core)))
  }

  function ChainOf(events: seq<Event>): (c: Chain) {
    if events == [] then Chain({}, None, {}) else Link(ChainOf(Front(events)), |events|, Last(events))
  }

  // ---------------------------------------------------------------- the task and its attempts

  datatype View = View(
    last: Option<nat>, task: Option<TaskView>, coverage: Option<nat>, attempts: map<Token, Attempt>, faults: set<Fault>)

  predicate KnownRun(runs: map<Token, StageRun>, run: RunIdentity) {
    run.token in runs && runs[run.token].stage == run.stage && runs[run.token].cycle == run.cycle
      && runs[run.token].attempt == run.attempt
  }

  function TaskAfter(task: Option<TaskView>, revision: nat, d: Draft): (after: Option<TaskView>) {
    match d.body
    case Created => Some(TaskView(revision, Some(Queued), None))
    case Baseline(coverage) =>
      Some(TaskView(revision, if task.None? then None else task.value.status, Some(coverage)))
    case TransitionCommitted(number, _, _, to, _, _) => Some(TaskView(revision, Some(to), Some(number)))
    case StageClaimed(_) => if task.None? then None else Some(TaskView(revision, Some(Running), task.value.number))
    case _ => task
  }

  function SettledStatus(c: Classification): (status: AttemptStatus) {
    match c
    case Success => Row(Committed)
    case WaitingUserRun => Row(Committed)
    case PausedRun => Row(RunPaused)
    case BlockedRun => Row(RunBlocked)
    case FailedRun => NoRowStatus
  }

  datatype Manifests = NoManifest | OneManifest(manifest: Manifest) | SeveralManifests

  function ManifestsOf(refs: seq<Ref>): (found: Manifests) {
    if refs == [] then NoManifest
    else
      var found, r := ManifestsOf(Front(refs)), Last(refs);
      if r.kind != RunManifest || found == OneManifest(r.manifest) then found
      else if found.NoManifest? then OneManifest(r.manifest) else SeveralManifests
  }

  /** The manifest of a settled stage: the one its references agree on. */
  function TheManifest(refs: seq<Ref>): (m: Option<Manifest>) {
    var found := ManifestsOf(refs);
    if found.OneManifest? then Some(found.manifest) else None
  }

  function AttemptsAfter(attempts: map<Token, Attempt>, d: Draft): (after: map<Token, Attempt>) {
    if d.run.None? then attempts else
    var run := d.run.value;
    match d.body
    case StageClaimed(_) => attempts[run.token := Attempt(run, Row(Active), None, false, None)]
    case StageSettled(classification, code, sealed) =>
      var identity := if run.token in attempts then attempts[run.token].identity else run;
      attempts[run.token := Attempt(identity, SettledStatus(classification), code, sealed, TheManifest(d.refs))]
    case _ => attempts
  }

  function Look(v: View, runs: map<Token, StageRun>, e: Event): (next: View) {
    var d := e.core.draft;
    View(Some(e.core.revision), TaskAfter(v.task, e.core.revision, d),
         if d.body.Baseline? then Some(d.body.coverage) else v.coverage,
         AttemptsAfter(v.attempts, d),
         v.faults + When(TaskRevisionRegression, v.last.Some? && e.core.revision < v.last.value)
         + When(RunIdentityMismatch, d.run.Some? && !KnownRun(runs, d.run.value)))
  }

  function ViewOf(events: seq<Event>, runs: map<Token, StageRun>): (v: View) {
    if events == [] then View(None, None, None, map[], {}) else Look(ViewOf(Front(events), runs), runs, Last(events))
  }

  // ---------------------------------------------------------------- providers and sessions

  datatype Exchange = Exchange(invocations: map<Token, Invocation>, sessions: map<EventId, Option<Session>>,
                               faults: set<Fault>)

  function Newer(session: Option<Session>, before: Option<Session>): (newest: Option<Session>) {
    if session.Some? then session else before
  }

  function Provide(x: Exchange, d: Draft): (next: Exchange)
    requires d.invocation.Some? && d.run.Some?
  {
    var id := d.invocation.value;
    var known := id in x.invocations;
    if d.body.DispatchIntent? then
      x.(invocations := x.invocations[id := Invocation(d.run.value.token, d.provider, d.model, d.session, false,
                                                       false, ResultUnknown)],
         faults := x.faults + When(ProviderEventDuplicate, known))
    else if !known then x.(faults := x.faults + {ProviderEventUnpaired})
    else
      var item := x.invocations[id].(session := Newer(d.session, x.invocations[id].session));
      if d.body.Dispatched? then
        x.(invocations := x.invocations[id := item.(dispatched := true)],
           faults := x.faults + When(ProviderEventDuplicate, item.dispatched))
      else if d.body.ProviderSettled? then
        x.(invocations := x.invocations[id := item.(settled := true, verdict := d.body.verdict)],
           faults := x.faults + When(ProviderEventDuplicate, item.settled))
      else x
  }

  function Bind(x: Exchange, e: Event): (next: Exchange) {
    var d := e.core.draft;
    x.(sessions := x.sessions[e.core.id := d.session],
       faults := x.faults + When(SessionPredecessorInvalid,
         d.body.SessionRebound? && (d.body.predecessor !in x.sessions || x.sessions[d.body.predecessor] == d.session)))
  }

  function Trade(x: Exchange, e: Event): (next: Exchange) {
    var d := e.core.draft;
    if IsProvider(d.body) && d.invocation.Some? && d.run.Some? then Provide(x, d)
    else if IsSession(d.body) then Bind(x, e)
    else x
  }

  function ExchangeOf(events: seq<Event>): (x: Exchange) {
    if events == [] then Exchange(map[], map[], {}) else Trade(ExchangeOf(Front(events)), Last(events))
  }

  // ---------------------------------------------------------------- references

  function RefsOf(events: seq<Event>): (refs: seq<Ref>) {
    if events == [] then [] else RefsOf(Front(events)) + Last(events).core.draft.refs
  }

  datatype RefTable = RefTable(table: map<RefId, Described>, clash: bool)

  function Describe(r: Ref): Described {
    Described(r.kind, r.content)
  }

  function TableOf(refs: seq<Ref>): (t: RefTable) {
    if refs == [] then RefTable(map[], false)
    else
      var t, r := TableOf(Front(refs)), Last(refs);
      RefTable(t.table[r.id := Describe(r)], t.clash || (r.id in t.table && t.table[r.id] != Describe(r)))
  }

  // ---------------------------------------------------------------- comparison with the rows

  predicate KnownOutcome(n: Name) {
    n.text in {
      "allow", "applied", "block", "blocked", "contract_findings", "contract_pass", "drafted", "implemented",
      "needs_correction", "needs_repair", "needs_revision", "needs_simplification", "needs_user_decision",
      "prerun_done", "produced", "ready", "repaired", "review", "reviewed", "revised", "simplified", "validated"
    }
  }

  /** What replay expects of an outcome in the rows; `other` always needs its digest. */
  function ExpectedOutcome(o: Option<Name>): (c: Option<Coded<Name>>) {
    if o.None? then None else if KnownOutcome(o.value) then Some(Plain(o.value)) else Some(Other(o))
  }

  function ExpectedAttempt(run: StageRun): (a: Attempt) {
    Attempt(RunIdentity(run.token, run.stage, run.cycle, run.attempt), Row(run.status), ExpectedOutcome(run.outcome),
            run.seal.Sealed?, if run.seal.Sealed? then Some(Manifest(run.token, run.seal)) else None)
  }

  function Rows(runs: seq<StageRun>): (rows: map<Token, StageRun>) {
    if runs == [] then map[]
    else
      var rows := Rows(Front(runs));
      if Last(runs).token in rows then rows else rows[Last(runs).token := Last(runs)]
  }

  predicate UniqueRuns(runs: seq<StageRun>) {
    forall i, j :: 0 <= i < j < |runs| ==> runs[i].token != runs[j].token
  }

  predicate AttemptsAgree(attempts: map<Token, Attempt>, rows: map<Token, StageRun>) {
    forall token :: token in attempts && token in rows ==> attempts[token] == ExpectedAttempt(rows[token])
  }

  /** A task the baseline alone describes has no replayed status yet. */
  predicate TaskAgrees(task: Option<TaskView>, row: Task) {
    task.Some? && (task.value.status.Some? ==>
                   task.value.status == Some(row.status) && task.value.revision == row.revision)
  }

  predicate Replayed(events: seq<Event>, number: nat) {
    exists i :: 0 <= i < |events| && events[i].core.draft.body.TransitionCommitted?
      && events[i].core.draft.body.number == number
  }

  predicate TransitionsCovered(events: seq<Event>, coverage: Option<nat>, log: seq<Transition>) {
    forall i :: 0 <= i < |log| ==>
            || Replayed(events, log[i].number)
            || (coverage.Some? && log[i].number <= coverage.value)
  }

  // ---------------------------------------------------------------- the verdict

  function IntegrityOf(faults: set<Fault>, unknown: bool): (integrity: Integrity) {
    if faults - {CanonicalMismatch} != {} then CorruptRecord
    else if CanonicalMismatch in faults then Mismatch
    else if unknown then Incomplete else Sound
  }

  function CompletenessOf(integrity: Integrity, unknown: bool, baselined: bool): (c: Completeness) {
    if unknown || integrity == CorruptRecord || integrity == Mismatch then Lacking
    else if baselined then Partial else Complete
  }

  /** Events that cannot be read are reported and skipped. */
  function Readable(events: seq<Event>): (readable: seq<Event>) {
    if events == [] then []
    else if ValidEvent(Last(events)) then Readable(Front(events)) + [Last(events)] else Readable(Front(events))
  }

  function ManifestFor(s: Snapshot, events: seq<Event>): (m: SnapshotManifest) {
    SnapshotManifest(
      |events|,
      if events == [] then None else Some(events[0].core.position),
      if events == [] then None else Some(Last(events).core.position),
      NextPrev(events), s.events, s.inventory, s.state)
  }

  function InventoryOf(items: seq<Item>): (table: map<RefId, Item>) {
    if items == [] then map[] else InventoryOf(Front(items))[Last(items).id := Last(items)]
  }

  predicate InventoryAgrees(inventory: map<RefId, Item>, table: map<RefId, Described>) {
    inventory.Keys == table.Keys && forall id :: id in table && id in inventory ==> inventory[id].described == table[id]
  }

  predicate AnyCorrupt(items: seq<Item>) {
    exists i :: 0 <= i < |items| && items[i].availability == Corrupt
  }

  predicate AnyGone(items: seq<Item>, refs: seq<Ref>) {
    exists i :: 0 <= i < |items| && (items[i].availability == Unavailable || items[i].availability == Expired)
      && Refers(refs, items[i].id)
  }

  predicate AnyOpen(invocations: map<Token, Invocation>) {
    exists id :: id in invocations && (invocations[id].verdict == ResultUnknown || !invocations[id].dispatched)
  }

  /** Every fault the replay of a snapshot reports. */
  function FaultsOf(s: Snapshot): (faults: set<Fault>) {
    var events, rows := Readable(s.events), Rows(s.state.runs);
    var v, table := ViewOf(events, rows), TableOf(RefsOf(events));
    When(EventInvalid, events != s.events)
    + ChainOf(events).faults + v.faults + ExchangeOf(events).faults
    + When(SnapshotInvalid, s.manifest != ManifestFor(s, events) || s.head != NextPrev(events)
           || !UniqueRuns(s.state.runs))
    + When(EvidenceInventoryMismatch, table.clash || !InventoryAgrees(InventoryOf(s.inventory), table.table))
    + When(EvidenceCorrupt, AnyCorrupt(s.inventory))
    + When(CanonicalMismatch, !AttemptsAgree(v.attempts, rows) || !TaskAgrees(v.task, s.state.task)
                              || !TransitionsCovered(events, v.coverage, s.state.log))
  }

  predicate Unsure(s: Snapshot) {
    AnyOpen(ExchangeOf(Readable(s.events)).invocations) || AnyGone(s.inventory, RefsOf(Readable(s.events)))
  }

  function Reduced(s: Snapshot): (p: Projection) {
    var v := ViewOf(Readable(s.events), Rows(s.state.runs));
    var integrity := IntegrityOf(FaultsOf(s), Unsure(s));
    Projection(integrity, CompletenessOf(integrity, Unsure(s), v.coverage.Some?), v.task, v.attempts,
               ExchangeOf(Readable(s.events)).invocations, FaultsOf(s))
  }

  // ---------------------------------------------------------------- the reducer

  method ReadEvents(stored: seq<Event>) returns (events: seq<Event>, faults: set<Fault>)
    ensures events == Readable(stored) && faults == When(EventInvalid, events != stored)
  {
    hide ValidEvent;
    events, faults := [], {};
    for i := 0 to |stored|
      invariant events == Readable(stored[..i]) && |events| <= i
      invariant faults == When(EventInvalid, events != stored[..i])
      invariant faults == When(EventInvalid, |events| < i)
    {
      TakeOne(stored, i);
      if ValidEvent(stored[i]) {
        events := events + [stored[i]];
      } else {
        faults := faults + {EventInvalid};
      }
    }
    assert stored[..|stored|] == stored;
  }

  method CheckChain(events: seq<Event>) returns (faults: set<Fault>)
    ensures faults == ChainOf(events).faults
  {
    faults := {};
    var seen: set<EventId>, previous := {}, None;
    for i := 0 to |events|
      invariant ChainOf(events[..i]) == Chain(seen, previous, faults)
    {
      TakeOne(events, i);
      var core := events[i].core;
      if core.position != i + 1 {
        faults := faults + {SequenceGap};
      }
      if core.id in seen {
        faults := faults + {DuplicateEventId};
      }
      if core.prev != previous {
        faults := faults + {HashChainBroken};
      }
      if !Earlier(seen, core) {
        faults := faults + {ParentInvalid};
      }
      seen, previous := seen + {core.id}, Some(events[i].hash);
    }
    assert events[..|events|] == events;
  }

  method CanonicalRuns(runs: seq<StageRun>) returns (rows: map<Token, StageRun>, unique: bool)
    ensures rows == Rows(runs) && (unique <==> UniqueRuns(runs))
  {
    rows, unique := map[], true;
    for i := 0 to |runs|
      invariant rows == Rows(runs[..i]) && (unique <==> UniqueRuns(runs[..i]))
      invariant forall token :: token in rows <==> exists k :: 0 <= k < i && runs[k].token == token
    {
      TakeOne(runs, i);
      if runs[i].token in rows {
        var k :| 0 <= k < i && runs[k].token == runs[i].token;
        assert runs[..i + 1][k].token == runs[..i + 1][i].token;
        unique := false;
      } else {
        assert UniqueRuns(runs[..i]) ==> UniqueRuns(runs[..i + 1]);
        rows := rows[runs[i].token := runs[i]];
      }
      assert !UniqueRuns(runs[..i]) ==> !UniqueRuns(runs[..i + 1]) by {
        if !UniqueRuns(runs[..i]) {
          var a, b :| 0 <= a < b < i && runs[..i][a].token == runs[..i][b].token;
          assert runs[..i + 1][a].token == runs[..i + 1][b].token;
        }
      }
    }
    assert runs[..|runs|] == runs;
  }

  lemma FoldStep(events: seq<Event>, rows: map<Token, StageRun>, i: nat)
    requires i < |events|
    ensures ViewOf(events[..i + 1], rows) == Look(ViewOf(events[..i], rows), rows, events[i])
    ensures ExchangeOf(events[..i + 1]) == Trade(ExchangeOf(events[..i]), events[i])
  {
    hide Look, Trade;
    TakeOne(events, i);
  }

  /** One provider event: an intent opens an invocation, the others must find theirs. */
  method ApplyProvider(invocations: map<Token, Invocation>, d: Draft) returns (after: map<Token, Invocation>,
        faults: set<Fault>)
    requires d.invocation.Some? && d.run.Some? && IsProvider(d.body)
    ensures forall sessions, before ::
              Provide(Exchange(invocations, sessions, before), d) ==
                Exchange(after, sessions, before + faults)
  {
    var id := d.invocation.value;
    after, faults := invocations, {};
    if d.body.DispatchIntent? {
      if id in invocations {
        faults := {ProviderEventDuplicate};
      }
      after := invocations[id := Invocation(d.run.value.token, d.provider, d.model, d.session, false, false,
                                            ResultUnknown)];
    } else if id !in invocations {
      faults := {ProviderEventUnpaired};
    } else if d.body.Dispatched? {
      if invocations[id].dispatched {
        faults := {ProviderEventDuplicate};
      }
      after := invocations[id := invocations[id].(session := Newer(d.session, invocations[id].session),
                                                  dispatched := true)];
    } else {
      if invocations[id].settled {
        faults := {ProviderEventDuplicate};
      }
      after := invocations[id := invocations[id].(session := Newer(d.session, invocations[id].session),
                                                  settled := true, verdict := d.body.verdict)];
    }
  }

  /** What one event says about the task, its coverage and its attempts. */
  method NoteTask(task: Option<TaskView>, coverage: Option<nat>, attempts: map<Token, Attempt>, e: Event)
    returns (task': Option<TaskView>, coverage': Option<nat>, attempts': map<Token, Attempt>)
    requires ValidEvent(e)
    ensures task' == TaskAfter(task, e.core.revision, e.core.draft)
            && attempts' == AttemptsAfter(attempts, e.core.draft)
    ensures coverage' == if e.core.draft.body.Baseline? then Some(e.core.draft.body.coverage) else coverage
  {
    hide ManifestsOf, ValidRefs, ValidBody;
    var d, revision := e.core.draft, e.core.revision;
    task', coverage', attempts' := task, coverage, attempts;
    match d.body {
      case Created =>
        task' := Some(TaskView(revision, Some(Queued), None));
      case Baseline(through) =>
        coverage' := Some(through);
        task' := Some(TaskView(revision, if task.None? then None else task.value.status, Some(through)));
      case TransitionCommitted(number, _, _, to, _, _) =>
        task' := Some(TaskView(revision, Some(to), Some(number)));
      case StageClaimed(_) =>
        attempts' := attempts[d.run.value.token := Attempt(d.run.value, Row(Active), None, false, None)];
        if task.Some? {
          task' := Some(task.value.(revision := revision, status := Some(Running)));
        }
      case StageSettled(classification, code, sealed) =>
        var token := d.run.value.token;
        var item := if token in attempts then attempts[token] else Attempt(d.run.value, Row(Active), None, false, None);
        attempts' := attempts[token := item.(status := SettledStatus(classification), code := code, sealed := sealed,
                                             manifest := TheManifest(d.refs))];
      case _ =>
    }
  }

  /** What one event says about provider invocations and sessions. */
  method NoteExchange(invocations: map<Token, Invocation>, sessions: map<EventId, Option<Session>>, e: Event)
    returns (invocations': map<Token, Invocation>, sessions': map<EventId, Option<Session>>, faults: set<Fault>)
    requires ValidEvent(e)
    ensures forall before ::
              Trade(Exchange(invocations, sessions, before), e) ==
                Exchange(invocations', sessions', before + faults)
  {
    hide ValidRefs, ValidBody, Provide;
    var d := e.core.draft;
    invocations', sessions', faults := invocations, sessions, {};
    if IsProvider(d.body) {
      invocations', faults := ApplyProvider(invocations, d);
    } else if IsSession(d.body) {
      if d.body.SessionRebound? && (d.body.predecessor !in sessions || sessions[d.body.predecessor] == d.session) {
        faults := {SessionPredecessorInvalid};
      }
      sessions' := sessions[e.core.id := d.session];
    }
  }

  /** The pass over the events: task, attempts, invocations and sessions are updated as each event is met. */
  method FoldEvents(events: seq<Event>, rows: map<Token, StageRun>)
    returns (task: Option<TaskView>, coverage: Option<nat>, attempts: map<Token, Attempt>,
             invocations: map<Token, Invocation>, faults: set<Fault>)
    requires forall i :: 0 <= i < |events| ==> ValidEvent(events[i])
    ensures var v, x := ViewOf(events, rows), ExchangeOf(events);
            task == v.task && coverage == v.coverage && attempts == v.attempts && invocations == x.invocations
              && faults == v.faults + x.faults
  {
    hide KnownRun, ValidEvent, Trade, TaskAfter, AttemptsAfter;
    task, coverage, attempts, invocations, faults := None, None, map[], map[], {};
    var sessions: map<EventId, Option<Session>>, last: Option<nat> := map[], None;
    ghost var v, x := ViewOf([], rows), ExchangeOf([]);
    assert events[..0] == [];
    for i := 0 to |events|
      invariant v == ViewOf(events[..i], rows) && v.last == last && v.task == task && v.coverage == coverage
                && v.attempts == attempts
      invariant x == ExchangeOf(events[..i]) && x.invocations == invocations && x.sessions == sessions
      invariant faults == v.faults + x.faults
    {
      hide ViewOf, ExchangeOf;
      var e := events[i];
      FoldStep(events, rows, i);
      if last.Some? && e.core.revision < last.value {
        faults := faults + {TaskRevisionRegression};
      }
      last := Some(e.core.revision);
      if e.core.draft.run.Some? && !KnownRun(rows, e.core.draft.run.value) {
        faults := faults + {RunIdentityMismatch};
      }
      var found;
      task, coverage, attempts := NoteTask(task, coverage, attempts, e);
      invocations, sessions, found := NoteExchange(invocations, sessions, e);
      v, x := Look(v, rows, e), Trade(x, e);
      faults := faults + found;
    }
    assert events[..|events|] == events;
  }

  /** Every replayed attempt against its row. */
  method CompareAttempts(attempts: map<Token, Attempt>, rows: map<Token, StageRun>) returns (agree: bool)
    ensures agree <==> AttemptsAgree(attempts, rows)
  {
    hide ExpectedAttempt;
    var left := attempts.Keys;
    while left != {}
      invariant left <= attempts.Keys
      invariant forall token :: token in attempts.Keys - left && token in rows ==>
                attempts[token] == ExpectedAttempt(rows[token])
      decreases |left|
    {
      var token :| token in left;
      if token in rows && attempts[token] != ExpectedAttempt(rows[token]) {
        return false;
      }
      left := left - {token};
    }
    assert attempts.Keys - left == attempts.Keys;
    return true;
  }

  /** Every invocation that was never handed over, or whose result is not known. */
  method OpenInvocations(invocations: map<Token, Invocation>) returns (found: bool)
    ensures found <==> AnyOpen(invocations)
  {
    var left := invocations.Keys;
    while left != {}
      invariant left <= invocations.Keys
      invariant forall id :: id in invocations.Keys - left ==>
                invocations[id].verdict != ResultUnknown && invocations[id].dispatched
      decreases |left|
    {
      var id :| id in left;
      if invocations[id].verdict == ResultUnknown || !invocations[id].dispatched {
        return true;
      }
      left := left - {id};
    }
    assert invocations.Keys - left == invocations.Keys;
    return false;
  }

  lemma RefsStep(events: seq<Event>, i: nat)
    requires i < |events|
    ensures RefsOf(events[..i + 1]) == RefsOf(events[..i]) + events[i].core.draft.refs
  {
    TakeOne(events, i);
  }

  /** The references of all events, by identifier. */
  method CollectRefs(events: seq<Event>) returns (table: map<RefId, Described>, clash: bool)
    ensures TableOf(RefsOf(events)) == RefTable(table, clash)
  {
    table, clash := map[], false;
    for i := 0 to |events|
      invariant TableOf(RefsOf(events[..i])) == RefTable(table, clash)
    {
      ghost var before := RefsOf(events[..i]);
      RefsStep(events, i);
      var refs := events[i].core.draft.refs;
      assert before + refs[..0] == before;
      for j := 0 to |refs|
        invariant TableOf(before + refs[..j]) == RefTable(table, clash)
      {
        assert Front(before + refs[..j + 1]) == before + refs[..j] && Last(before + refs[..j + 1]) == refs[j];
        var r := refs[j];
        clash := clash || (r.id in table && table[r.id] != Describe(r));
        table := table[r.id := Describe(r)];
      }
      assert before + refs[..|refs|] == before + refs;
    }
    assert events[..|events|] == events;
  }

  method ReadInventory(items: seq<Item>, refs: seq<Ref>) returns (inventory: map<RefId, Item>, corrupt: bool,
                                                                  gone: bool)
    ensures inventory == InventoryOf(items) && (corrupt <==> AnyCorrupt(items)) && (gone <==> AnyGone(items, refs))
  {
    inventory, corrupt, gone := map[], false, false;
    for i := 0 to |items|
      invariant inventory == InventoryOf(items[..i])
      invariant corrupt <==> AnyCorrupt(items[..i])
      invariant gone <==> AnyGone(items[..i], refs)
    {
      TakeOne(items, i);
      NewItem(items, refs, i);
      inventory := inventory[items[i].id := items[i]];
      if items[i].availability == Corrupt {
        corrupt := true;
      } else if items[i].availability != Present && Refers(refs, items[i].id) {
        gone := true;
      }
    }
    assert items[..|items|] == items;
  }

  lemma NewItem(items: seq<Item>, refs: seq<Ref>, i: nat)
    requires i < |items|
    ensures AnyCorrupt(items[..i + 1]) <==> AnyCorrupt(items[..i]) || items[i].availability == Corrupt
    ensures AnyGone(items[..i + 1], refs) <==>
              AnyGone(items[..i], refs) || ((items[i].availability == Unavailable || items[i].availability == Expired)
                                            && Refers(refs, items[i].id))
  {
    hide Refers;
    var longer := items[..i + 1];
    assert longer[i] == items[i] && forall k :: 0 <= k < i ==> longer[k] == items[..i][k];
  }

  lemma ReadableIsValid(events: seq<Event>)
    ensures forall i :: 0 <= i < |Readable(events)| ==> ValidEvent(Readable(events)[i])
  {
    hide ValidEvent;
  }

  /** `reduce_snapshot`: only its argument influences the result. */
  method ReduceSnapshot(s: Snapshot) returns (p: Projection)
    ensures p == Reduced(s)
  {
    hide ViewOf, ExchangeOf, ChainOf, TableOf, RefsOf, Rows, UniqueRuns, AttemptsAgree, TaskAgrees;
    hide TransitionsCovered, AnyOpen, AnyGone, AnyCorrupt;
    hide InventoryOf, InventoryAgrees, ManifestFor, Readable, ValidEvent, NextPrev, When, IntegrityOf, CompletenessOf;
    var events, unreadable := ReadEvents(s.events);
    ReadableIsValid(s.events);
    var chain := CheckChain(events);
    var rows, unique := CanonicalRuns(s.state.runs);
    var task, coverage, attempts, invocations, found := FoldEvents(events, rows);
    var agree := CompareAttempts(attempts, rows);
    var open := OpenInvocations(invocations);
    var table, clash := CollectRefs(events);
    var inventory, corrupt, gone := ReadInventory(s.inventory, RefsOf(events));
    var faults := unreadable + chain + found;
    faults := faults + When(SnapshotInvalid, s.manifest != ManifestFor(s, events) || s.head != NextPrev(events)
                            || !unique);
    faults := faults + When(EvidenceInventoryMismatch, clash || !InventoryAgrees(inventory, table));
    faults := faults + When(EvidenceCorrupt, corrupt);
    faults := faults + When(CanonicalMismatch, !agree || !TaskAgrees(task, s.state.task)
                            || !TransitionsCovered(events, coverage, s.state.log));
    assert faults == FaultsOf(s);
    var integrity := IntegrityOf(faults, open || gone);
    p := Projection(integrity, CompletenessOf(integrity, open || gone, coverage.Some?), task, attempts, invocations,
                    faults);
  }

  // ---------------------------------------------------------------- freezing

  /** The inventory entry of an identifier, if there is one. */
  method FindItem(inventory: seq<Item>, id: RefId) returns (k: Option<nat>)
    ensures k.Some? ==> k.value < |inventory| && inventory[k.value].id == id
    ensures k.None? ==> forall a :: 0 <= a < |inventory| ==> inventory[a].id != id
  {
    for i := 0 to |inventory|
      invariant forall a :: 0 <= a < i ==> inventory[a].id != id
    {
      if inventory[i].id == id {
        return Some(i);
      }
    }
    return None;
  }

  /**
   `freeze_snapshot`: the stored events, the references as found now, and the rows; a reference that changed is
   an error.
   */
  method FreezeSnapshot(events: seq<Event>, db: Db, available: Ref -> Availability) returns (s: Option<Snapshot>)
    ensures s.Some? ==> Frozen(events, db, available, s.value)
    ensures (forall r, q :: r in RefsOf(events) && q in RefsOf(events) && r.id == q.id ==> r == q) ==> s.Some?
  {
    var refs := RefsOf(events);
    var inventory: seq<Item> := [];
    for i := 0 to |refs|
      invariant Inventoried(refs[..i], available, inventory)
    {
      var item := ItemOf(refs[i], available);
      var known := FindItem(inventory, item.id);
      ItemStep(refs, i, available, inventory);
      if known.None? {
        inventory := inventory + [item];
      } else if inventory[known.value] != item {
        ItemClash(refs, i, available, inventory, known.value);
        return None;
      }
    }
    assert refs[..|refs|] == refs;
    var head := NextPrev(events);
    s := Some(Snapshot(events, head, inventory, db, SnapshotManifest(
      |events|, if events == [] then None else Some(events[0].core.position),
      if events == [] then None else Some(Last(events).core.position), head, events, inventory, db)));
  }

  function ItemOf(r: Ref, available: Ref -> Availability): (item: Item) {
    Item(r.id, Describe(r), available(r))
  }

  /** Each item comes from a reference, each reference has its item, and no identifier is listed twice. */
  ghost predicate Inventoried(refs: seq<Ref>, available: Ref -> Availability, inventory: seq<Item>) {
    && (forall k :: 0 <= k < |inventory| ==> exists i :: 0 <= i < |refs| && inventory[k] == ItemOf(refs[i], available))
    && (forall i :: 0 <= i < |refs| ==> ItemOf(refs[i], available) in inventory)
    && (forall a, b :: 0 <= a < b < |inventory| ==> inventory[a].id != inventory[b].id)
  }

  ghost predicate Frozen(events: seq<Event>, db: Db, available: Ref -> Availability, s: Snapshot) {
    && s.events == events && s.state == db && s.head == NextPrev(events) && s.manifest == ManifestFor(s, events)
    && Inventoried(RefsOf(events), available, s.inventory)
  }

  lemma ItemClash(refs: seq<Ref>, i: nat, available: Ref -> Availability, inventory: seq<Item>, k: nat)
    requires i < |refs| && k < |inventory| && Inventoried(refs[..i], available, inventory)
    requires inventory[k].id == refs[i].id && inventory[k] != ItemOf(refs[i], available)
    ensures exists j :: 0 <= j < |refs| && refs[j].id == refs[i].id && refs[j] != refs[i]
  {
    var j :| 0 <= j < |refs[..i]| && inventory[k] == ItemOf(refs[..i][j], available);
    assert refs[j] == refs[..i][j];
  }

  lemma ItemStep(refs: seq<Ref>, i: nat, available: Ref -> Availability, inventory: seq<Item>)
    requires i < |refs| && Inventoried(refs[..i], available, inventory)
    ensures ItemOf(refs[i], available) in inventory ==> Inventoried(refs[..i + 1], available, inventory)
    ensures (forall k :: 0 <= k < |inventory| ==> inventory[k].id != refs[i].id) ==>
              Inventoried(refs[..i + 1], available, inventory + [ItemOf(refs[i], available)])
  {
  }
}

/**
 The append-only trajectory of one task: events chained by their hashes, the structural rules an
 event must meet, and the store that admits one event at a time (orchestrator/trajectory.py).
 SHA-256 is a free constructor, so equal hashes mean equal contents; identifiers are numbers.
 */
module Trajectory {
  import opened Prelude
  import opened Profiles
  import opened Convergence
  import opened Lifecycle

  type EventId = nat
  type RefId = nat
  type Session = nat

  // ---------------------------------------------------------------- events

  datatype RunIdentity = RunIdentity(token: Token, stage: Name, cycle: nat, attempt: nat)

  /** The hash of a sealed run manifest. */
  datatype Manifest = Manifest(run: Token, seal: Seal)

  datatype RefKind = RunManifest | TransportReceipt | SessionBinding | Checkpoint | FinalResponse

  datatype Ref = Ref(id: RefId, kind: RefKind, content: nat, path: nat, run: Token, manifest: Manifest)

  /** A value of a closed vocabulary, or `other` with the digest of the native value. */
  datatype Coded<T> = Plain(code: T) | Other(digest: Option<T>)

  datatype ResultClass = Succeeded | ResultBlocked | ResultPaused | ResultFailed | ResultUnknown

  datatype Body =
    | Created
    | Baseline(coverage: nat)
    | TransitionCommitted(number: nat, op: Token, from: Option<Status>, to: Status, reason: Coded<Reason>,
                          outcome: Option<Coded<Name>>)
    | StageClaimed(lease: Token)
    | StageSettled(classification: Classification, code: Option<Coded<Name>>, sealed: bool)
    | DispatchIntent
    | Dispatched(receipt: RefId)
    | ProviderSettled(verdict: ResultClass, response: Option<RefId>)
    | SessionBound(binding: RefId)
    | SessionRebound(predecessor: EventId, checkpoint: RefId)
    | EvidenceSealed

  /** What the emitter decides about an event. */
  datatype Draft = Draft(
    run: Option<RunIdentity>, invocation: Option<Token>, session: Option<Session>, causal: seq<EventId>,
    provider: Option<Name>, model: Option<Name>, body: Body, refs: seq<Ref>)

  /** Everything the hash covers. */
  datatype Core = Core(position: int, id: EventId, revision: nat, parent: Option<EventId>, draft: Draft,
                       prev: Option<Hash>)

  datatype Hash = Digest(core: Core)

  datatype Event = Event(core: Core, hash: Hash)

  predicate IsProvider(b: Body) {
    b.DispatchIntent? || b.Dispatched? || b.ProviderSettled?
  }

  predicate IsSession(b: Body) {
    b.SessionBound? || b.SessionRebound?
  }

  // ---------------------------------------------------------------- structural validation

  predicate ValidCode<T>(c: Coded<T>) {
    c.Other? ==> c.digest.Some?
  }

  predicate Refers(refs: seq<Ref>, id: RefId) {
    exists i :: 0 <= i < |refs| && refs[i].id == id
  }

  predicate ShowsManifest(refs: seq<Ref>) {
    exists i :: 0 <= i < |refs| && refs[i].kind == RunManifest
  }

  predicate ValidBody(b: Body, refs: seq<Ref>) {
    match b
    case TransitionCommitted(number, _, _, _, reason, outcome) =>
      number >= 1 && ValidCode(reason) && (outcome.Some? ==> ValidCode(outcome.value))
    case StageSettled(_, outcome, sealed) =>
      (outcome.Some? ==> ValidCode(outcome.value)) && (sealed ==> ShowsManifest(refs))
    case Dispatched(receipt) => Refers(refs, receipt)
    case ProviderSettled(_, response) => response.Some? ==> Refers(refs, response.value)
    case SessionBound(binding) => Refers(refs, binding)
    case SessionRebound(_, checkpoint) => Refers(refs, checkpoint)
    case EvidenceSealed => refs != []
    case _ => true
  }

  predicate ValidRefs(run: Option<RunIdentity>, refs: seq<Ref>) {
    && (forall i, j :: 0 <= i < j < |refs| ==> refs[i].id != refs[j].id)
    && (run.Some? ==> forall i :: 0 <= i < |refs| ==> refs[i].run == run.value.token)
  }

  predicate ValidDraft(d: Draft) {
    var b := d.body;
    && (b.StageClaimed? || b.StageSettled? || IsProvider(b) || b.EvidenceSealed? ==> d.run.Some?)
    && (b.Created? || b.Baseline? ==> d.run.None?)
    && (d.run.Some? ==> d.run.value.cycle >= 1 && d.run.value.attempt >= 1)
    && (IsProvider(b) <==> d.invocation.Some?)
    && (IsSession(b) ==> d.session.Some?)
    && ValidRefs(d.run, d.refs)
    && ValidBody(b, d.refs)
  }

  predicate ValidEvent(e: Event) {
    e.core.position >= 1 && ValidDraft(e.core.draft) && e.hash == Digest(e.core)
  }

  // ---------------------------------------------------------------- admission

  predicate HasId(events: seq<Event>, id: EventId) {
    exists i :: 0 <= i < |events| && events[i].core.id == id
  }

  /** The events of one provider invocation, in order. */
  function Invoked(events: seq<Event>, invocation: Option<Token>): (prior: seq<Event>)
    ensures forall i :: 0 <= i < |prior| ==> prior[i] in events && prior[i].core.draft.invocation == invocation
  {
    if events == [] then []
    else
      var earlier := Invoked(Front(events), invocation);
      if Last(events).core.draft.invocation == invocation then earlier + [Last(events)] else earlier
  }

  function Intents(prior: seq<Event>): (intents: seq<Event>) {
    if prior == [] then []
    else if Last(prior).core.draft.body.DispatchIntent? then Intents(Front(prior)) + [Last(prior)]
    else Intents(Front(prior))
  }

  predicate Ran(prior: seq<Event>, dispatched: bool) {
    exists i :: 0 <= i < |prior| && (if dispatched then prior[i].core.draft.body.Dispatched?
                                     else prior[i].core.draft.body.ProviderSettled?)
  }

  predicate KnowsSession(prior: seq<Event>, session: Option<Session>) {
    exists i :: 0 <= i < |prior| && prior[i].core.draft.session.Some? && prior[i].core.draft.session == session
  }

  predicate AnySession(prior: seq<Event>) {
    exists i :: 0 <= i < |prior| && prior[i].core.draft.session.Some?
  }

  /** One intent opens an invocation; it is dispatched at most once, then settled at most once, by the same party. */
  predicate ProviderRules(prior: seq<Event>, d: Draft) {
    if d.body.DispatchIntent? then prior == []
    else
      var intents := Intents(prior);
      && |intents| == 1
      && intents[0].core.draft.run == d.run
      && intents[0].core.draft.provider == d.provider && intents[0].core.draft.model == d.model
      && (AnySession(prior) ==> KnowsSession(prior, d.session))
      && !Ran(prior, d.body.Dispatched?)
      && (d.body.Dispatched? ==> !Ran(prior, false))
  }

  predicate ReplacesSession(events: seq<Event>, predecessor: EventId, session: Option<Session>) {
    exists i :: 0 <= i < |events| && events[i].core.id == predecessor
                && IsSession(events[i].core.draft.body) && events[i].core.draft.session != session
  }

  function IdentityOf(runs: seq<StageRun>, token: Token): (identity: Option<RunIdentity>) {
    match RunOf(runs, token)
    case None => None
    case Some(run) => Some(RunIdentity(run.token, run.stage, run.cycle, run.attempt))
  }

  function NextPrev(events: seq<Event>): (prev: Option<Hash>) {
    if events == [] then None else Some(Last(events).hash)
  }

  predicate EarlierRefs(events: seq<Event>, core: Core) {
    && (core.parent.Some? ==> HasId(events, core.parent.value))
    && (forall i :: 0 <= i < |core.draft.causal| ==> HasId(events, core.draft.causal[i]))
  }

  /** What `append` accepts on top of the stored events while the canonical rows are as given. */
  predicate Admits(events: seq<Event>, e: Event, db: Db) {
    && ValidEvent(e)
    && db.task.revision == e.core.revision
    && (e.core.draft.run.Some? ==> IdentityOf(db.runs, e.core.draft.run.value.token) == e.core.draft.run)
    && e.core.position == |events| + 1 && e.core.prev == NextPrev(events)
    && (IsProvider(e.core.draft.body) ==> ProviderRules(Invoked(events, e.core.draft.invocation), e.core.draft))
    && EarlierRefs(events, e.core)
    && (e.core.draft.body.SessionRebound? ==>
        ReplacesSession(events, e.core.draft.body.predecessor, e.core.draft.session))
    && !HasId(events, e.core.id)
  }

  datatype StoreError =
    | BadEvent | RevisionMismatch | RunMismatch | WrongSeq | WrongPrev | InvocationExists | NoSingleIntent
    | InvocationChanged | SessionChanged | DuplicateEvent | AfterSettled | LateParent | BadPredecessor | Conflict

  class TrajectoryStore {
    var events: seq<Event>

    constructor ()
      ensures events == []
    {
      events := [];
    }

    /** The rows of one invocation. */
    method PriorOf(invocation: Option<Token>) returns (prior: seq<Event>)
      ensures prior == Invoked(events, invocation)
    {
      prior := [];
      for i := 0 to |events|
        invariant prior == Invoked(events[..i], invocation)
      {
        assert Front(events[..i + 1]) == events[..i] && Last(events[..i + 1]) == events[i];
        if events[i].core.draft.invocation == invocation {
          prior := prior + [events[i]];
        }
      }
      assert events[..|events|] == events;
    }

    method CheckProvider(d: Draft) returns (error: Option<StoreError>)
      requires IsProvider(d.body)
      ensures error.None? <==> ProviderRules(Invoked(events, d.invocation), d)
    {
      var prior := PriorOf(d.invocation);
      if d.body.DispatchIntent? {
        return if prior != [] then Some(InvocationExists) else None;
      }
      var intents := Intents(prior);
      if |intents| != 1 {
        return Some(NoSingleIntent);
      }
      var intent := intents[0].core.draft;
      if intent.run != d.run || intent.provider != d.provider || intent.model != d.model {
        return Some(InvocationChanged);
      }
      if AnySession(prior) && !KnowsSession(prior, d.session) {
        return Some(SessionChanged);
      }
      if Ran(prior, d.body.Dispatched?) {
        return Some(DuplicateEvent);
      }
      if d.body.Dispatched? && Ran(prior, false) {
        return Some(AfterSettled);
      }
      return None;
    }

    method Append(e: Event, db: Db) returns (r: Result<(), StoreError>)
      modifies this
      ensures r.Ok? <==> Admits(old(events), e, db)
      ensures events == if r.Ok? then old(events) + [e] else old(events)
    {
      hide ValidEvent, ProviderRules, Invoked, EarlierRefs, ReplacesSession, HasId, IdentityOf;
      var d := e.core.draft;
      if !ValidEvent(e) {
        return Err(BadEvent);
      }
      if db.task.revision != e.core.revision {
        return Err(RevisionMismatch);
      }
      if d.run.Some? && IdentityOf(db.runs, d.run.value.token) != d.run {
        return Err(RunMismatch);
      }
      if e.core.position != |events| + 1 {
        return Err(WrongSeq);
      }
      if e.core.prev != NextPrev(events) {
        return Err(WrongPrev);
      }
      if IsProvider(d.body) {
        var problem := CheckProvider(d);
        if problem.Some? {
          return Err(problem.value);
        }
      }
      if !EarlierRefs(events, e.core) {
        return Err(LateParent);
      }
      if d.body.SessionRebound? && !ReplacesSession(events, d.body.predecessor, d.session) {
        return Err(BadPredecessor);
      }
      if HasId(events, e.core.id) {
        return Err(Conflict);
      }
      events := events + [e];
      return Ok(());
    }
  }

  // ---------------------------------------------------------------- histories of admissions

  /** The task moved on: its revision did not fall and no run changed its identity. */
  ghost predicate Precedes(db: Db, later: Db) {
    && db.task.revision <= later.task.revision
    && (forall token :: IdentityOf(db.runs, token).Some? ==>
        IdentityOf(later.runs, token) == IdentityOf(db.runs, token))
  }

  /** The events were admitted one by one while the rows were as listed, and the rows now are `db`. */
  ghost predicate Admitted(events: seq<Event>, rows: seq<Db>, db: Db) {
    && |rows| == |events|
    && (forall i :: 0 <= i < |events| ==> Admits(events[..i], events[i], rows[i]))
    && (forall i, j :: 0 <= i < j < |rows| ==> Precedes(rows[i], rows[j]))
    && (forall i :: 0 <= i < |rows| ==> Precedes(rows[i], db))
  }
}

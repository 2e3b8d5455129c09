/**
 Kanban cards: compare-and-swap rows beside an append-only event log keyed by operation id
 (orchestrator/kanban/commands.py). The outside world (approved files, report files, the board view)
 enters as what a command finds there; `canonical_json` and SHA-256 are a free constructor.
 */
module KanbanCards {
  import opened Prelude

  type CardId = nat
  type OpId = nat
  type TaskId = nat

  const MAX_REVISION: int := 0x7fff_ffff_ffff_ffff

  datatype ManualState = Inbox | Ready | Returned | DoneState | Archived

  /** Scope fields bind an approval; the last three are display text. */
  datatype Field =
    | RepoPath | WorktreePath | GitCommonDir | ChangeName | SpecPath | AcceptancePath | SpecReviewPointer
    | SpecReviewHash | BaseHead | CandidateFingerprint | Risk | EstimateByPool | AllowedCommands | ProfileName
    | ProviderName | ModelName | Effort | RoutingDigest | ConfigDigest
    | Title | Note | Priority

  predicate IsScope(f: Field) {
    !f.Title? && !f.Note? && !f.Priority?
  }

  datatype FieldValue = Null | Text(text: string) | Json(json: string)

  /** `payload["fields"]` after shape checks: a refusal, or typed values and whether one embeds a reserved marker. */
  datatype FieldsArg = BadFields(reason: Refusal) | Fields(values: map<Field, FieldValue>, marker: bool)

  datatype RevisionArg = NoRevision | NotInteger | Revision(value: int)

  datatype BindingArg =
    | NoBinding
    | PartialBinding
    | Binding(card: CardId, generation: int, hash: Option<ApprovalHash>, profile: Option<nat>, closeout: TaskId)

  datatype Kind = Create | Edit | Approve | Withdraw | Return | Pause | Done | Archive | ReportProgress | Place

  /** What the idempotency fingerprint covers besides the command name. */
  datatype Payload = Payload(card: Option<CardId>, expected: RevisionArg, actor: nat, fields: FieldsArg,
                             binding: BindingArg, toBacklog: bool, note: nat)

  datatype Request = Request(op: OpId, kind: Kind, payload: Payload)

  datatype Fingerprint = Fingerprint(kind: Kind, payload: Payload)

  /** The frozen approval payload (S6): scope values, the content of the approved sources, the gate decision. */
  datatype Frozen = Frozen(card: CardId, generation: nat, scope: map<Field, FieldValue>, content: nat, profile: nat,
                           gateRequired: bool)

  datatype ApprovalHash = HashOf(frozen: Frozen)

  datatype Approval = Approval(hash: ApprovalHash, event: OpId, profile: nat)

  datatype Card = Card(
    revision: int, state: ManualState, fields: map<Field, FieldValue>, generation: nat,
    approval: Option<Approval>, task: Option<TaskId>, lastReason: Option<Refusal>, evidence: Option<OpId>)

  datatype Refusal =
    | CardNotFound | RevisionRequired | InvalidRevision | RevisionConflict | RevisionExhausted | CardIsTerminal
    | CardIsClaimed
    | CardIdRequired | CardExists | InvalidFields | UnsupportedField | TitleRequired | InvalidPriority
    | UnsupportedFraming | NoFields
    | AlreadyApproved | MissingScope | NotApproved | CardIsArchived
    | BindingRequired | BindingIncomplete | BindingMismatch | NeverApproved | CloseoutReused | IdempotencyConflict
    | ScopeEdited | ApprovalWithdrawn | ManuallyReturned | ManualPausePending | ManuallyArchived | ManuallyAccepted
    | Elsewhere(code: nat)

  /** What an accepted command says it changed (`metadata_delta`). */
  datatype Delta = Delta(
    state: Option<ManualState>, fields: map<Field, FieldValue>, revoked: bool,
    approved: Option<(nat, ApprovalHash)>, closeout: Option<TaskId>)

  datatype Verdict = Accepted(revision: int, delta: Delta) | Rejected(reason: Refusal)

  datatype EventPayload = AsSubmitted(payload: Payload) | Contract(frozen: Frozen)

  datatype Event = Event(op: OpId, digest: Fingerprint, kind: Kind, card: Option<CardId>, expected: Option<int>,
                         verdict: Verdict, payload: EventPayload)

  datatype Board = Board(cards: map<CardId, Card>, events: seq<Event>)

  datatype Outcome = Outcome(kind: Kind, card: Option<CardId>, verdict: Verdict, recorded: bool, replayed: bool)

  /** What a command finds outside the database. */
  datatype World = World(
    sources: Result<(nat, nat, bool), Refusal>,
    beforeProfile: Option<Refusal>, afterProfile: Option<Refusal>, gate: Option<Refusal>, other: Option<Refusal>)

  // ---------------------------------------------------------------- guards

  predicate ValidRevision(r: int) {
    0 <= r <= MAX_REVISION
  }

  function Terminal(s: ManualState): bool {
    s.DoneState? || s.Archived?
  }

  /** `_guard`: card, revision, terminality, in that order. */
  function Guard(cards: map<CardId, Card>, p: Payload, allowTerminal: bool, allowClaimed: bool): (r: Option<Refusal>) {
    if p.card.None? || p.card.value !in cards then Some(CardNotFound)
    else
      var card := cards[p.card.value];
      if !p.expected.Revision? then Some(RevisionRequired)
      else if !ValidRevision(p.expected.value) then Some(InvalidRevision)
      else if p.expected.value != card.revision then Some(RevisionConflict)
      else if p.expected.value == MAX_REVISION then Some(RevisionExhausted)
      else if !allowTerminal && Terminal(card.state) then Some(CardIsTerminal)
      else if card.task.Some? && !allowClaimed then Some(CardIsClaimed) else None
  }

  predicate Blank(text: string) {
    forall i :: 0 <= i < |text| ==> text[i] in {' ', '\t', '\n', '\r'}
  }

  predicate GoodTitle(values: map<Field, FieldValue>) {
    Title in values && values[Title].Text? && !Blank(values[Title].text)
  }

  predicate GoodPriority(v: FieldValue) {
    v.Text? && v.text in {"high", "normal", "low"}
  }

  function ScopeOf(fields: map<Field, FieldValue>): (scope: map<Field, FieldValue>) {
    map f | f in fields && IsScope(f) :: fields[f]
  }

  predicate TouchesScope(values: map<Field, FieldValue>) {
    exists f :: f in values && IsScope(f)
  }

  predicate ScopeMissing(fields: map<Field, FieldValue>) {
    exists f: Field :: IsScope(f) && (f !in fields || fields[f].Null? || fields[f] == Text(""))
  }

  /** `build_approval_payload`. */
  function BuildApproval(id: CardId, card: Card, w: World): (r: Result<Frozen, Refusal>) {
    if ScopeMissing(card.fields) then Err(MissingScope)
    else match w.sources
      case Err(reason) => Err(reason)
      case Ok(found) => Ok(Frozen(id, card.generation + 1, ScopeOf(card.fields), found.0, found.1, found.2))
  }

  predicate CloseoutUsed(events: seq<Event>, closeout: TaskId) {
    exists i :: 0 <= i < |events| && events[i].kind == Done && events[i].verdict.Accepted?
      && events[i].verdict.delta.closeout == Some(closeout)
  }

  /** The contract an approval points at. */
  function ContractOf(events: seq<Event>, op: OpId): (f: Option<Frozen>) {
    if events == [] then None
    else if Last(events).op == op then
      if Last(events).kind == Approve && Last(events).verdict.Accepted? && Last(events).payload.Contract? then
        Some(Last(events).payload.frozen) else None
    else ContractOf(Front(events), op)
  }

  /** `_validate_done` in refusal-priority order. */
  function ValidateDone(b: Board, id: CardId, card: Card, binding: BindingArg, w: World): (r: Option<Refusal>) {
    if binding.NoBinding? then Some(BindingRequired)
    else if binding.PartialBinding? then Some(BindingIncomplete)
    else if binding.card != id then Some(BindingMismatch)
    else if card.generation == 0 || card.approval.None? then Some(NeverApproved)
    else if binding.generation != card.generation then Some(BindingMismatch)
    else if binding.hash != Some(card.approval.value.hash) then Some(BindingMismatch)
    else if w.beforeProfile.Some? then w.beforeProfile
    else if binding.profile != Some(card.approval.value.profile) then Some(BindingMismatch)
    else if w.afterProfile.Some? then w.afterProfile
    else
      var contract := ContractOf(b.events, card.approval.value.event);
      if contract.None? then Some(NeverApproved)
      else if !contract.value.gateRequired then None
      else if w.gate.Some? then w.gate
      else if CloseoutUsed(b.events, binding.closeout) then Some(CloseoutReused) else None
  }

  // ---------------------------------------------------------------- what a command decides

  datatype Decision = Refuse(reason: Refusal) | Write(card: Card, delta: Delta, contract: Option<Frozen>)

  const NOTHING := Delta(None, map[], false, None, None)

  function DecideCreate(cards: map<CardId, Card>, p: Payload): (d: Decision) {
    if p.card.None? then Refuse(CardIdRequired)
    else if p.card.value in cards then Refuse(CardExists)
    else if p.expected.NotInteger? || (p.expected.Revision? && !ValidRevision(p.expected.value)) then
      Refuse(InvalidRevision)
    else if p.fields.BadFields? then Refuse(p.fields.reason)
    else if !GoodTitle(p.fields.values) then Refuse(TitleRequired)
    else if Priority in p.fields.values && !GoodPriority(p.fields.values[Priority]) then Refuse(InvalidPriority)
    else if p.fields.marker then Refuse(UnsupportedFraming)
    else
      var values := if Priority in p.fields.values then p.fields.values
        else p.fields.values[Priority := Text("normal")];
      Write(Card(0, Inbox, values, 0, None, None, None, None), NOTHING.(state := Some(Inbox), fields := values), None)
  }

  function DecideEdit(card: Card, p: Payload): (d: Decision) {
    if p.fields.BadFields? then Refuse(p.fields.reason)
    else if p.fields.values == map[] then Refuse(NoFields)
    else if Title in p.fields.values && !GoodTitle(p.fields.values) then Refuse(TitleRequired)
    else if Priority in p.fields.values && !GoodPriority(p.fields.values[Priority]) then Refuse(InvalidPriority)
    else if p.fields.marker then Refuse(UnsupportedFraming)
    else
      var touched := TouchesScope(p.fields.values);
      var state := if touched && card.state.Ready? then Inbox else card.state;
      Write(card.(fields := card.fields + p.fields.values, state := state,
                  approval := if touched then None else card.approval,
                  lastReason := if touched then Some(ScopeEdited) else card.lastReason),
            NOTHING.(fields := p.fields.values, revoked := touched && card.approval.Some?,
                     state := if touched && card.state.Ready? then Some(Inbox) else None), None)
  }

  function DecideApprove(op: OpId, id: CardId, card: Card, w: World): (d: Decision) {
    if card.state.Ready? && card.approval.Some? then Refuse(AlreadyApproved)
    else match BuildApproval(id, card, w)
      case Err(reason) => Refuse(reason)
      case Ok(frozen) =>
        Write(card.(state := Ready, generation := frozen.generation,
                    approval := Some(Approval(HashOf(frozen), op, frozen.profile)), lastReason := None),
              NOTHING.(state := Some(Ready), approved := Some((frozen.generation, HashOf(frozen)))), Some(frozen))
  }

  function DecideInvalidate(card: Card, target: ManualState, requireApproval: bool, reason: Refusal): (d: Decision) {
    if requireApproval && card.approval.None? then Refuse(NotApproved)
    else Write(card.(state := target, approval := None, lastReason := Some(reason)),
               NOTHING.(state := Some(target), revoked := card.approval.Some?), None)
  }

  /** The decision of a guarded command about its card. */
  function DecideOn(b: Board, r: Request, id: CardId, card: Card, w: World): (d: Decision) {
    match r.kind
    case Create => Refuse(CardExists)
    case Edit => DecideEdit(card, r.payload)
    case Approve => DecideApprove(r.op, id, card, w)
    case Withdraw => DecideInvalidate(card, Inbox, true, ApprovalWithdrawn)
    case Return => DecideInvalidate(card, Returned, false, ManuallyReturned)
    case Pause => Write(card.(lastReason := Some(ManualPausePending)), NOTHING.(state := Some(card.state)), None)
    case Archive => Write(card.(state := Archived, lastReason := Some(ManuallyArchived)),
                          NOTHING.(state := Some(Archived)), None)
    case Done =>
      (match ValidateDone(b, id, card, r.payload.binding, w)
       case Some(reason) => Refuse(reason)
       case None =>
         Write(card.(state := DoneState, lastReason := Some(ManuallyAccepted), evidence := Some(r.op)),
               NOTHING.(state := Some(DoneState), closeout := if r.payload.binding.Binding? then
                        Some(r.payload.binding.closeout) else None), None))
    case ReportProgress => if w.other.Some? then Refuse(w.other.value) else Write(card, NOTHING, None)
    case Place =>
      if card.state.Archived? then Refuse(CardIsArchived) else if w.other.Some? then Refuse(w.other.value)
        else Write(card, NOTHING, None)
  }

  predicate Lenient(k: Kind) {
    k.ReportProgress? || k.Place?
  }

  function Decide(b: Board, r: Request, w: World): (d: Decision) {
    if r.kind.Create? then DecideCreate(b.cards, r.payload)
    else
      match Guard(b.cards, r.payload, Lenient(r.kind), Lenient(r.kind))
      case Some(reason) => Refuse(reason)
      case None =>
        var id := r.payload.card.value;
        match DecideOn(b, r, id, b.cards[id], w)
        case Refuse(reason) => Refuse(reason)
        case Write(card, delta, contract) => Write(card.(revision := b.cards[id].revision + 1), delta, contract)
  }

  function RecordedExpected(e: RevisionArg): (r: Option<int>) {
    if e.Revision? then Some(e.value) else None
  }

  function EventOf(b: Board, r: Request, d: Decision): (e: Event) {
    var p := r.payload;
    match d
    case Refuse(reason) =>
      Event(r.op, Fingerprint(r.kind, p), r.kind, if p.card.Some? && p.card.value in b.cards then p.card else None,
            if p.expected.Revision? && ValidRevision(p.expected.value) then Some(p.expected.value)
              else None, Rejected(reason), AsSubmitted(p))
    case Write(card, delta, contract) =>
      Event(r.op, Fingerprint(r.kind, p), r.kind, p.card, RecordedExpected(p.expected), Accepted(card.revision, delta),
            if contract.Some? then Contract(contract.value) else AsSubmitted(p))
  }

  function FindEvent(events: seq<Event>, op: OpId): (k: Option<nat>)
    ensures k.Some? ==> k.value < |events| && events[k.value].op == op
    ensures k.None? ==> forall i :: 0 <= i < |events| ==> events[i].op != op
  {
    if events == [] then None
    else if Last(events).op == op then Some(|events| - 1) else FindEvent(Front(events), op)
  }

  /**
   The recorded result of an operation id that was already used; a different command under it conflicts,
   unrecorded.
   */
  function Replay(e: Event, digest: Fingerprint): (o: Outcome) {
    if e.digest != digest then Outcome(e.kind, e.card, Rejected(IdempotencyConflict), false, false)
    else Outcome(e.kind, e.card, e.verdict, true, true)
  }

  /** A command under a new operation id: one event, and the card if it was accepted. */
  function Perform(b: Board, r: Request, w: World): (result: (Board, Outcome)) {
    var d := Decide(b, r, w);
    var e := EventOf(b, r, d);
    (Board(if d.Write? && r.payload.card.Some? then b.cards[r.payload.card.value := d.card] else b.cards,
           b.events + [e]),
     Outcome(r.kind, r.payload.card, e.verdict, true, false))
  }

  function Handle(b: Board, r: Request, w: World): (result: (Board, Outcome)) {
    var k := FindEvent(b.events, r.op);
    if k.Some? then (b, Replay(b.events[k.value], Fingerprint(r.kind, r.payload))) else Perform(b, r, w)
  }
}

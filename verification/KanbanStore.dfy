/**
 The card handler as an object: rows and events updated in place, one command per transaction
 (`handle_request`, `_dispatch`, `_reject`, `_accept`, `_cas_update` and the command handlers of
 orchestrator/kanban/commands.py).
 */
module KanbanStores {
  import opened Prelude
  import opened KanbanCards
  import KanbanLaws

  class KanbanStore {
    var cards: map<CardId, Card>
    var events: seq<Event>

    ghost function State(): Board
      reads this
    {
      Board(cards, events)
    }

    constructor ()
      ensures State() == Board(map[], []) && KanbanLaws.Kept(State())
    {
      hide KanbanLaws.Kept;
      KanbanLaws.EmptyIsKept();
      cards, events := map[], [];
    }

    /** The recorded event of an operation id, if it has been used. */
    method FindOperation(op: OpId) returns (k: Option<nat>)
      ensures k == FindEvent(events, op)
    {
      k := None;
      for i := 0 to |events|
        invariant k == FindEvent(events[..i], op)
      {
        assert Front(events[..i + 1]) == events[..i] && Last(events[..i + 1]) == events[i];
        if events[i].op == op {
          k := Some(i);
        }
      }
      assert events[..|events|] == events;
    }

    method HandleRequest(r: Request, w: World) returns (o: Outcome)
      modifies this
      ensures (State(), o) == Handle(old(State()), r, w)
      ensures old(KanbanLaws.Kept(State())) ==> KanbanLaws.Kept(State())
    {
      hide Perform, KanbanLaws.Kept;
      ghost var before := State();
      if KanbanLaws.Kept(before) {
        KanbanLaws.HandleKeeps(before, r, w);
      }
      var k := FindOperation(r.op);
      if k.Some? {
        return Replay(events[k.value], Fingerprint(r.kind, r.payload));
      }
      o := Dispatch(r, w);
    }

    method Dispatch(r: Request, w: World) returns (o: Outcome)
      modifies this
      ensures (State(), o) == Perform(old(State()), r, w)
    {
      hide Perform;
      match r.kind {
        case Create => o := CreateCard(r, w);
        case Edit => o := EditCard(r, w);
        case Approve => o := ApproveCard(r, w);
        case Withdraw => o := Invalidate(r, w, Inbox, true, ApprovalWithdrawn);
        case Return => o := Invalidate(r, w, Returned, false, ManuallyReturned);
        case Pause => o := PauseCard(r, w);
        case Archive => o := ArchiveCard(r, w);
        case Done => o := FinishCard(r, w);
        case ReportProgress => o := Note(r, w);
        case Place => o := Note(r, w);
      }
    }

    /** Record the refusal and leave the card as it was. */
    method Reject(r: Request, reason: Refusal) returns (o: Outcome)
      modifies this`events
      ensures events == old(events) + [EventOf(old(State()), r, Refuse(reason))]
      ensures o == Outcome(r.kind, r.payload.card, Rejected(reason), true, false)
    {
      events := events + [EventOf(Board(cards, events), r, Refuse(reason))];
      o := Outcome(r.kind, r.payload.card, Rejected(reason), true, false);
    }

    /** One compare-and-swap update; false when someone else moved first. */
    method CasUpdate(id: CardId, expected: int, card: Card) returns (ok: bool)
      modifies this`cards
      ensures ok <==> id in old(cards) && old(cards)[id].revision == expected
      ensures cards == if ok then old(cards)[id := card.(revision := expected + 1)] else old(cards)
    {
      ok := id in cards && cards[id].revision == expected;
      if ok {
        cards := cards[id := card.(revision := expected + 1)];
      }
    }

    /** Write the guarded card at the next revision and record the acceptance. */
    method Accept(r: Request, card: Card, delta: Delta, contract: Option<Frozen>) returns (o: Outcome)
      requires r.payload.card.Some? && r.payload.card.value in cards
               && r.payload.expected == Revision(cards[r.payload.card.value].revision)
      modifies this
      ensures var before := old(State());
              var written := card.(revision := before.cards[r.payload.card.value].revision + 1);
              && State() == Board(before.cards[r.payload.card.value := written],
                                  before.events + [EventOf(before, r, Write(written, delta, contract))])
              && o == Outcome(r.kind, r.payload.card, Accepted(written.revision, delta), true, false)
    {
      var id, expected := r.payload.card.value, r.payload.expected.value;
      var written := card.(revision := expected + 1);
      var e := EventOf(Board(cards, events), r, Write(written, delta, contract));
      var moved := CasUpdate(id, expected, card);
      if !moved {
        assert false;
      }
      events := events + [e];
      o := Outcome(r.kind, r.payload.card, Accepted(expected + 1, delta), true, false);
    }

    method CreateCard(r: Request, w: World) returns (o: Outcome)
      requires r.kind.Create?
      modifies this
      ensures (State(), o) == Perform(old(State()), r, w)
    {
      hide GoodTitle, GoodPriority;
      var p := r.payload;
      if p.card.None? {
        o := Reject(r, CardIdRequired);
        return;
      }
      if p.card.value in cards {
        o := Reject(r, CardExists);
        return;
      }
      if p.expected.NotInteger? || (p.expected.Revision? && !ValidRevision(p.expected.value)) {
        o := Reject(r, InvalidRevision);
        return;
      }
      if p.fields.BadFields? {
        o := Reject(r, p.fields.reason);
        return;
      }
      var values := p.fields.values;
      if !GoodTitle(values) {
        o := Reject(r, TitleRequired);
        return;
      }
      if Priority in values && !GoodPriority(values[Priority]) {
        o := Reject(r, InvalidPriority);
        return;
      }
      if p.fields.marker {
        o := Reject(r, UnsupportedFraming);
        return;
      }
      if Priority !in values {
        values := values[Priority := Text("normal")];
      }
      var card := Card(0, Inbox, values, 0, None, None, None, None);
      var delta := NOTHING.(state := Some(Inbox), fields := values);
      events := events + [EventOf(Board(cards, events), r, Write(card, delta, None))];
      cards := cards[p.card.value := card];
      o := Outcome(r.kind, p.card, Accepted(0, delta), true, false);
    }

    method EditCard(r: Request, w: World) returns (o: Outcome)
      requires r.kind.Edit?
      modifies this
      ensures (State(), o) == Perform(old(State()), r, w)
    {
      hide GoodTitle, GoodPriority, TouchesScope;
      var refusal := Guard(cards, r.payload, false, false);
      if refusal.Some? {
        o := Reject(r, refusal.value);
        return;
      }
      if r.payload.fields.BadFields? {
        o := Reject(r, r.payload.fields.reason);
        return;
      }
      var values := r.payload.fields.values;
      if values == map[] {
        o := Reject(r, NoFields);
        return;
      }
      if Title in values && !GoodTitle(values) {
        o := Reject(r, TitleRequired);
        return;
      }
      if Priority in values && !GoodPriority(values[Priority]) {
        o := Reject(r, InvalidPriority);
        return;
      }
      if r.payload.fields.marker {
        o := Reject(r, UnsupportedFraming);
        return;
      }
      var card := cards[r.payload.card.value];
      var wasReady, delta := card.state.Ready?, NOTHING.(fields := values);
      var written := card.(fields := card.fields + values);
      if TouchesScope(values) {
        if card.approval.Some? {
          written := written.(approval := None);
          delta := delta.(revoked := true);
        }
        if wasReady {
          written := written.(state := Inbox);
          delta := delta.(state := Some(Inbox));
        }
        written := written.(lastReason := Some(ScopeEdited));
      }
      o := Accept(r, written, delta, None);
    }

    method ApproveCard(r: Request, w: World) returns (o: Outcome)
      requires r.kind.Approve?
      modifies this
      ensures (State(), o) == Perform(old(State()), r, w)
    {
      hide ScopeMissing, ScopeOf;
      var refusal := Guard(cards, r.payload, false, false);
      if refusal.Some? {
        o := Reject(r, refusal.value);
        return;
      }
      var id := r.payload.card.value;
      var card := cards[id];
      if card.state.Ready? && card.approval.Some? {
        o := Reject(r, AlreadyApproved);
        return;
      }
      var frozen := BuildApproval(id, card, w);
      if frozen.Err? {
        o := Reject(r, frozen.error);
        return;
      }
      var f := frozen.value;
      var written := card.(state := Ready, generation := f.generation,
                           approval := Some(Approval(HashOf(f), r.op, f.profile)), lastReason := None);
      o := Accept(r, written, NOTHING.(state := Some(Ready), approved := Some((f.generation, HashOf(f)))), Some(f));
    }

    method Invalidate(r: Request, w: World, target: ManualState, requireApproval: bool,
                      reason: Refusal) returns (o: Outcome)
      requires (r.kind.Withdraw? && target.Inbox? && requireApproval && reason.ApprovalWithdrawn?)
               || (r.kind.Return? && target.Returned? && !requireApproval && reason.ManuallyReturned?)
      modifies this
      ensures (State(), o) == Perform(old(State()), r, w)
    {
      var refusal := Guard(cards, r.payload, false, false);
      if refusal.Some? {
        o := Reject(r, refusal.value);
        return;
      }
      var card := cards[r.payload.card.value];
      if requireApproval && card.approval.None? {
        o := Reject(r, NotApproved);
        return;
      }
      o := Accept(r, card.(state := target, approval := None, lastReason := Some(reason)),
                  NOTHING.(state := Some(target), revoked := card.approval.Some?), None);
    }

    method PauseCard(r: Request, w: World) returns (o: Outcome)
      requires r.kind.Pause?
      modifies this
      ensures (State(), o) == Perform(old(State()), r, w)
    {
      var refusal := Guard(cards, r.payload, false, false);
      if refusal.Some? {
        o := Reject(r, refusal.value);
        return;
      }
      var card := cards[r.payload.card.value];
      o := Accept(r, card.(lastReason := Some(ManualPausePending)), NOTHING.(state := Some(card.state)), None);
    }

    method ArchiveCard(r: Request, w: World) returns (o: Outcome)
      requires r.kind.Archive?
      modifies this
      ensures (State(), o) == Perform(old(State()), r, w)
    {
      var refusal := Guard(cards, r.payload, false, false);
      if refusal.Some? {
        o := Reject(r, refusal.value);
        return;
      }
      var card := cards[r.payload.card.value];
      o := Accept(r, card.(state := Archived, lastReason := Some(ManuallyArchived)),
                  NOTHING.(state := Some(Archived)), None);
    }

    method FinishCard(r: Request, w: World) returns (o: Outcome)
      requires r.kind.Done?
      modifies this
      ensures (State(), o) == Perform(old(State()), r, w)
    {
      hide ValidateDone;
      var refusal := Guard(cards, r.payload, false, false);
      if refusal.Some? {
        o := Reject(r, refusal.value);
        return;
      }
      var id := r.payload.card.value;
      var card := cards[id];
      var problem := ValidateDone(Board(cards, events), id, card, r.payload.binding, w);
      if problem.Some? {
        o := Reject(r, problem.value);
        return;
      }
      var closeout := if r.payload.binding.Binding? then Some(r.payload.binding.closeout) else None;
      o := Accept(r, card.(state := DoneState, lastReason := Some(ManuallyAccepted), evidence := Some(r.op)),
                  NOTHING.(state := Some(DoneState), closeout := closeout), None);
    }

    /** Progress reports and placements move the revision and nothing else of the card. */
    method Note(r: Request, w: World) returns (o: Outcome)
      requires r.kind.ReportProgress? || r.kind.Place?
      modifies this
      ensures (State(), o) == Perform(old(State()), r, w)
    {
      var refusal := Guard(cards, r.payload, true, true);
      if refusal.Some? {
        o := Reject(r, refusal.value);
        return;
      }
      var card := cards[r.payload.card.value];
      if r.kind.Place? && card.state.Archived? {
        o := Reject(r, CardIsArchived);
        return;
      }
      if w.other.Some? {
        o := Reject(r, w.other.value);
        return;
      }
      o := Accept(r, card, NOTHING, None);
    }
  }
}

/** What any sequence of card commands keeps: idempotency, the event fold, approvals bound to their scope. */
module KanbanLaws {
  import opened Prelude
  import opened KanbanCards

  datatype Delivery = Delivery(request: Request, world: World)

  const EMPTY := Board(map[], [])

  function RunAll(b: Board, deliveries: seq<Delivery>): (after: Board) {
    if deliveries == [] then b
    else Handle(RunAll(b, Front(deliveries)), Last(deliveries).request, Last(deliveries).world).0
  }

  // ---------------------------------------------------------------- deliveries repeat

  predicate Delivered(deliveries: seq<Delivery>, op: OpId) {
    exists i :: 0 <= i < |deliveries| && deliveries[i].request.op == op
  }

  /** Each operation id once, at its first delivery. */
  function FirstOnly(deliveries: seq<Delivery>): (first: seq<Delivery>) {
    if deliveries == [] then []
    else if Delivered(Front(deliveries), Last(deliveries).request.op) then FirstOnly(Front(deliveries))
    else FirstOnly(Front(deliveries)) + [Last(deliveries)]
  }

  predicate Used(events: seq<Event>, op: OpId) {
    exists i :: 0 <= i < |events| && events[i].op == op
  }

  lemma HandleRecords(b: Board, r: Request, w: World)
    ensures Used(Handle(b, r, w).0.events, r.op)
    ensures b.events <= Handle(b, r, w).0.events
    ensures Used(b.events, r.op) ==> Handle(b, r, w).0 == b
    ensures !Used(b.events, r.op) ==> Handle(b, r, w).0.events == b.events + [EventOf(b, r, Decide(b, r, w))]
  {
    hide Decide, EventOf;
    var after := Handle(b, r, w).0;
    if FindEvent(b.events, r.op).None? {
      assert after.events[|b.events|].op == r.op by {
        EventKeepsOp(b, r, Decide(b, r, w));
      }
    }
  }

  lemma EventKeepsOp(b: Board, r: Request, d: Decision)
    ensures EventOf(b, r, d).op == r.op
  {
  }

  lemma UsedLater(events: seq<Event>, later: seq<Event>, op: OpId)
    requires events <= later && Used(events, op)
    ensures Used(later, op)
  {
    var i :| 0 <= i < |events| && events[i].op == op;
    assert later[i].op == op;
  }

  lemma {:induction false} DeliveredIsUsed(b: Board, deliveries: seq<Delivery>, op: OpId)
    requires Delivered(deliveries, op)
    ensures Used(RunAll(b, deliveries).events, op)
  {
    hide Handle;
    var before := RunAll(b, Front(deliveries));
    HandleRecords(before, Last(deliveries).request, Last(deliveries).world);
    if Last(deliveries).request.op != op {
      var i :| 0 <= i < |deliveries| && deliveries[i].request.op == op;
      assert Front(deliveries)[i].request.op == op;
      DeliveredIsUsed(b, Front(deliveries), op);
      UsedLater(before.events, RunAll(b, deliveries).events, op);
    }
  }

  /** Redelivering commands, in any interleaving, leaves what delivering each of them once leaves. */
  lemma {:induction false} RedeliveryChangesNothing(b: Board, deliveries: seq<Delivery>)
    ensures RunAll(b, deliveries) == RunAll(b, FirstOnly(deliveries))
  {
    hide Handle;
    if deliveries != [] {
      RedeliveryChangesNothing(b, Front(deliveries));
      var last := Last(deliveries);
      if Delivered(Front(deliveries), last.request.op) {
        DeliveredIsUsed(b, Front(deliveries), last.request.op);
        HandleRecords(RunAll(b, Front(deliveries)), last.request, last.world);
      } else {
        assert Front(FirstOnly(deliveries)) == FirstOnly(Front(deliveries));
      }
    }
  }

  lemma {:induction false} EventsOnlyGrow(b: Board, deliveries: seq<Delivery>)
    ensures b.events <= RunAll(b, deliveries).events
  {
    hide Handle;
    if deliveries != [] {
      EventsOnlyGrow(b, Front(deliveries));
      HandleRecords(RunAll(b, Front(deliveries)), Last(deliveries).request, Last(deliveries).world);
    }
  }

  ghost predicate UniqueOps(events: seq<Event>) {
    forall i, j :: 0 <= i < j < |events| ==> events[i].op != events[j].op
  }

  lemma FindUnique(events: seq<Event>, k: nat)
    requires k < |events| && UniqueOps(events)
    ensures FindEvent(events, events[k].op) == Some(k)
  {
  }

  lemma {:induction false} OpsStayUnique(b: Board, deliveries: seq<Delivery>)
    requires UniqueOps(b.events)
    ensures UniqueOps(RunAll(b, deliveries).events)
  {
    hide Handle, Decide, EventOf;
    if deliveries != [] {
      OpsStayUnique(b, Front(deliveries));
      var before, last := RunAll(b, Front(deliveries)), Last(deliveries);
      HandleRecords(before, last.request, last.world);
      EventKeepsOp(before, last.request, Decide(before, last.request, last.world));
      if !Used(before.events, last.request.op) {
        NewOpIsUnique(before.events, EventOf(before, last.request, Decide(before, last.request, last.world)));
      }
    }
  }

  lemma NewOpIsUnique(events: seq<Event>, e: Event)
    requires UniqueOps(events) && !Used(events, e.op)
    ensures UniqueOps(events + [e])
  {
  }

  /**
   A replay reports what was decided the first time, whatever happened since and whatever is found now;
   another command under the same operation id conflicts and changes nothing.
   */
  lemma ReplayReportsTheOriginal(b: Board, r: Request, w: World, between: seq<Delivery>, again: Request, w': World)
    requires UniqueOps(b.events) && !Used(b.events, r.op) && again.op == r.op
    ensures var (first, o) := Handle(b, r, w);
            var later := RunAll(first, between);
            var (after, o') := Handle(later, again, w');
            && after == later
            && (again == r ==> o' == Outcome(r.kind, o'.card, o.verdict, true, true))
            && (again.payload != r.payload || again.kind != r.kind ==>
                o'.verdict == Rejected(IdempotencyConflict) && !o'.recorded)
  {
    hide RunAll, Decide;
    HandleRecords(b, r, w);
    var first := Handle(b, r, w).0;
    EventsOnlyGrow(first, between);
    NewOpIsUnique(b.events, EventOf(b, r, Decide(b, r, w)));
    OpsStayUnique(first, between);
    var later := RunAll(first, between);
    assert later.events[|b.events|] == EventOf(b, r, Decide(b, r, w));
    FindUnique(later.events, |b.events|);
  }

  // ---------------------------------------------------------------- the fold

  /** What the accepted events of a card say about it. */
  datatype CardView = CardView(revision: int, state: ManualState, fields: map<Field, FieldValue>, generation: nat,
                               approval: Option<ApprovalHash>)

  function ViewAfter(v: Option<CardView>, revision: int, d: Delta): (after: Option<CardView>) {
    var before := if v.Some? then v.value else CardView(0, Inbox, map[], 0, None);
    Some(CardView(
      revision,
      if d.state.Some? then d.state.value else before.state,
      before.fields + d.fields,
      if d.approved.Some? then d.approved.value.0 else before.generation,
      if d.approved.Some? then Some(d.approved.value.1) else if d.revoked then None else before.approval))
  }

  predicate About(e: Event, id: CardId) {
    e.verdict.Accepted? && e.card == Some(id)
  }

  function FoldCard(events: seq<Event>, id: CardId): (v: Option<CardView>) {
    if events == [] then None
    else if About(Last(events), id) then ViewAfter(FoldCard(Front(events), id), Last(events).verdict.revision,
                                                   Last(events).verdict.delta)
    else FoldCard(Front(events), id)
  }

  function HashOption(a: Option<Approval>): (h: Option<ApprovalHash>) {
    if a.Some? then Some(a.value.hash) else None
  }

  function ViewOfCard(c: Card): (v: CardView) {
    CardView(c.revision, c.state, c.fields, c.generation, HashOption(c.approval))
  }

  /** The revisions the accepted commands of a card returned, in order. */
  function Revisions(events: seq<Event>, id: CardId): (revisions: seq<int>) {
    if events == [] then []
    else if About(Last(events), id) then Revisions(Front(events), id) + [Last(events).verdict.revision]
    else Revisions(Front(events), id)
  }

  predicate CountsUp(revisions: seq<int>) {
    forall i :: 0 <= i < |revisions| ==> revisions[i] == i
  }

  // ---------------------------------------------------------------- what every board keeps

  /** A set approval is the hash of the contract on its approve event, and no scope field has changed since. */
  ghost predicate Bound(events: seq<Event>, id: CardId, c: Card) {
    c.approval.Some? ==>
      var contract := ContractOf(events, c.approval.value.event);
      && contract.Some? && c.approval.value.hash == HashOf(contract.value)
      && contract.value.card == id && contract.value.scope == ScopeOf(c.fields)
      && contract.value.generation == c.generation && contract.value.profile == c.approval.value.profile
  }

  ghost predicate CardKept(b: Board, id: CardId) {
    && (id in b.cards <==> FoldCard(b.events, id).Some?)
    && CountsUp(Revisions(b.events, id))
    && (id !in b.cards ==> Revisions(b.events, id) == [])
    && (id in b.cards ==>
          var c := b.cards[id];
          && FoldCard(b.events, id) == Some(ViewOfCard(c))
          && c.revision == |Revisions(b.events, id)| - 1 && c.revision >= 0
          && c.task == None
          && Bound(b.events, id, c)
          && (c.state.Ready? || c.state.DoneState? ==> c.approval.Some?))
  }

  ghost predicate Kept(b: Board) {
    UniqueOps(b.events) && forall id: CardId :: CardKept(b, id)
  }

  lemma ContractStays(events: seq<Event>, e: Event, op: OpId)
    requires e.op != op
    ensures ContractOf(events + [e], op) == ContractOf(events, op)
  {
    assert Front(events + [e]) == events;
  }

  lemma FoldOne(events: seq<Event>, e: Event, id: CardId)
    ensures FoldCard(events + [e], id) ==
              if About(e, id) then ViewAfter(FoldCard(events, id), e.verdict.revision, e.verdict.delta)
                else FoldCard(events, id)
    ensures Revisions(events + [e], id) == if About(e, id) then Revisions(events, id) + [e.verdict.revision]
            else Revisions(events, id)
    ensures ContractOf(events + [e], e.op) ==
              if e.kind == Approve && e.verdict.Accepted? && e.payload.Contract? then Some(e.payload.frozen) else None
  {
    assert Front(events + [e]) == events && Last(events + [e]) == e;
  }

  lemma ContractMeansUsed(events: seq<Event>, op: OpId)
    requires ContractOf(events, op).Some?
    ensures Used(events, op)
  {
    if Last(events).op != op {
      ContractMeansUsed(Front(events), op);
      var i :| 0 <= i < |Front(events)| && Front(events)[i].op == op;
      assert events[i].op == op;
    } else {
      assert events[|events| - 1].op == op;
    }
  }

  lemma OtherCardKept(b: Board, e: Event, cards: map<CardId, Card>, id: CardId)
    requires CardKept(b, id) && !Used(b.events, e.op) && !About(e, id)
    requires id in cards <==> id in b.cards
    requires id in cards ==> cards[id] == b.cards[id]
    ensures CardKept(Board(cards, b.events + [e]), id)
  {
    FoldOne(b.events, e, id);
    if id in b.cards && b.cards[id].approval.Some? {
      ContractMeansUsed(b.events, b.cards[id].approval.value.event);
      ContractStays(b.events, e, b.cards[id].approval.value.event);
    }
  }

  /** What each accepted command does to its card, in terms of the fold. */
  ghost predicate GoodWrite(op: OpId, id: CardId, before: Card, after: Card, delta: Delta, contract: Option<Frozen>) {
    && Some(ViewOfCard(after)) == ViewAfter(Some(ViewOfCard(before)), after.revision, delta)
    && after.task == before.task
    && (if contract.Some? then
          after.approval.Some? && after.approval.value == Approval(HashOf(contract.value), op, contract.value.profile)
          && contract.value.card == id && contract.value.scope == ScopeOf(after.fields)
             && contract.value.generation == after.generation
        else
          after.approval.Some? ==>
            && after.approval == before.approval
            && ScopeOf(after.fields) == ScopeOf(before.fields) && after.generation == before.generation)
    && (after.state.Ready? || after.state.DoneState? ==> after.approval.Some?)
  }

  lemma DescriptiveEditKeepsScope(fields: map<Field, FieldValue>, values: map<Field, FieldValue>)
    requires !TouchesScope(values)
    ensures ScopeOf(fields + values) == ScopeOf(fields)
  {
  }

  lemma WriteIsGood(b: Board, r: Request, w: World)
    requires !r.kind.Create? && Decide(b, r, w).Write?
    requires var c := b.cards[r.payload.card.value]; c.state.Ready? || c.state.DoneState? ==> c.approval.Some?
    ensures r.payload.card.Some? && r.payload.card.value in b.cards
            && r.payload.expected == Revision(b.cards[r.payload.card.value].revision)
    ensures var d, before := Decide(b, r, w), b.cards[r.payload.card.value];
            && d.card.revision == before.revision + 1
            && (d.contract.Some? <==> r.kind.Approve?)
            && GoodWrite(r.op, r.payload.card.value, before, d.card, d.delta, d.contract)
  {
    hide ScopeMissing, TouchesScope, GoodTitle, GoodPriority, ScopeOf, ContractOf, CloseoutUsed;
    var before := b.cards[r.payload.card.value];
    assert before.fields + map[] == before.fields;
    if r.kind.Edit? && !TouchesScope(r.payload.fields.values) {
      DescriptiveEditKeepsScope(before.fields, r.payload.fields.values);
    }
  }

  lemma WrittenCardKept(b: Board, e: Event, id: CardId, after: Card, contract: Option<Frozen>)
    requires CardKept(b, id) && id in b.cards && !Used(b.events, e.op)
    requires About(e, id) && e.verdict.revision == after.revision && after.revision == b.cards[id].revision + 1
    requires GoodWrite(e.op, id, b.cards[id], after, e.verdict.delta, contract)
    requires contract.Some? ==> e.kind == Approve && e.payload == Contract(contract.value)
    ensures CardKept(Board(b.cards[id := after], b.events + [e]), id)
  {
    hide ScopeOf, ContractOf, FoldCard, Revisions, ViewAfter;
    FoldOne(b.events, e, id);
    if contract.None? && after.approval.Some? {
      ContractMeansUsed(b.events, after.approval.value.event);
      ContractStays(b.events, e, after.approval.value.event);
    }
  }

  lemma CreatedCardKept(b: Board, e: Event, id: CardId, after: Card)
    requires CardKept(b, id) && id !in b.cards && About(e, id)
    requires e.verdict.revision == 0 == after.revision && after.approval == None && after.task == None
             && after.state.Inbox? && after.generation == 0
    requires e.verdict.delta == NOTHING.(state := Some(Inbox), fields := after.fields)
    ensures CardKept(Board(b.cards[id := after], b.events + [e]), id)
  {
    hide ScopeOf, ContractOf;
    FoldOne(b.events, e, id);
    assert map[] + after.fields == after.fields;
  }

  lemma CreateIsGood(b: Board, r: Request, w: World)
    requires r.kind.Create? && Decide(b, r, w).Write?
    ensures r.payload.card.Some? && r.payload.card.value !in b.cards
    ensures var d := Decide(b, r, w);
            && d.card.revision == 0 && d.card.approval == None && d.card.task == None && d.card.state.Inbox?
               && d.card.generation == 0
            && d.delta == NOTHING.(state := Some(Inbox), fields := d.card.fields) && d.contract.None?
  {
    hide GoodTitle, GoodPriority;
  }

  lemma EventAbout(b: Board, r: Request, d: Decision, id: CardId)
    ensures About(EventOf(b, r, d), id) <==> d.Write? && r.payload.card == Some(id)
    ensures d.Write? ==>
            && EventOf(b, r, d).verdict == Accepted(d.card.revision, d.delta)
            && EventOf(b, r, d).kind == r.kind
    ensures d.Write? && d.contract.Some? ==> EventOf(b, r, d).payload == Contract(d.contract.value)
    ensures d.Write? ==> EventOf(b, r, d).expected == RecordedExpected(r.payload.expected)
  {
  }

  lemma HandleKeeps(b: Board, r: Request, w: World)
    requires Kept(b)
    ensures Kept(Handle(b, r, w).0)
  {
    hide Decide, EventOf, CardKept, GoodWrite;
    HandleRecords(b, r, w);
    if !Used(b.events, r.op) {
      var d := Decide(b, r, w);
      var e := EventOf(b, r, d);
      var after := Handle(b, r, w).0;
      EventKeepsOp(b, r, d);
      NewOpIsUnique(b.events, e);
      NotFound(b.events, r.op);
      if d.Write? && r.kind.Create? {
        CreateIsGood(b, r, w);
      } else if d.Write? {
        WriteNeedsCard(b, r, w);
        KeptState(b, r.payload.card.value);
        WriteIsGood(b, r, w);
      }
      forall id: CardId ensures CardKept(after, id) {
        EventAbout(b, r, d, id);
        if d.Write? && r.payload.card == Some(id) {
          if r.kind.Create? {
            CreatedCardKept(b, e, id, d.card);
          } else {
            WrittenCardKept(b, e, id, d.card, d.contract);
          }
        } else {
          OtherCardKept(b, e, after.cards, id);
        }
      }
    }
  }

  lemma NotFound(events: seq<Event>, op: OpId)
    requires !Used(events, op)
    ensures FindEvent(events, op).None?
  {
  }

  lemma WriteNeedsCard(b: Board, r: Request, w: World)
    requires !r.kind.Create? && Decide(b, r, w).Write?
    ensures r.payload.card.Some? && r.payload.card.value in b.cards
  {
    hide DecideOn;
  }

  lemma KeptState(b: Board, id: CardId)
    requires CardKept(b, id) && id in b.cards
    ensures b.cards[id].state.Ready? || b.cards[id].state.DoneState? ==> b.cards[id].approval.Some?
  {
  }

  lemma {:induction false} EveryBoardIsKept(deliveries: seq<Delivery>)
    ensures Kept(RunAll(EMPTY, deliveries))
  {
    hide Handle, Kept;
    if deliveries == [] {
      EmptyIsKept();
    } else {
      EveryBoardIsKept(Front(deliveries));
      HandleKeeps(RunAll(EMPTY, Front(deliveries)), Last(deliveries).request, Last(deliveries).world);
    }
  }

  lemma EmptyIsKept()
    ensures Kept(EMPTY)
  {
  }

  /**
   On every board that commands can produce: folding a card's accepted events gives the card back; their revisions
   are 0, 1, 2, ...; an approval is the hash of the contract on its approve event, whose scope is the card's scope
   now; and a ready or done card has one.
   */
  lemma EventsTellTheCard(deliveries: seq<Delivery>, id: CardId)
    ensures var b := RunAll(EMPTY, deliveries);
            && (id in b.cards <==> FoldCard(b.events, id).Some?)
            && (id in b.cards ==>
                  var c := b.cards[id];
                  && FoldCard(b.events, id) == Some(ViewOfCard(c))
                  && CountsUp(Revisions(b.events, id)) && c.revision == |Revisions(b.events, id)| - 1
                  && (c.state.Ready? || c.state.DoneState? ==> c.approval.Some?)
                  && (c.approval.Some? ==>
                        var contract := ContractOf(b.events, c.approval.value.event);
                        contract.Some? && c.approval.value.hash == HashOf(contract.value)
                          && contract.value.scope == ScopeOf(c.fields)))
  {
    hide RunAll, ScopeOf, ContractOf, FoldCard, Revisions, UniqueOps;
    EveryBoardIsKept(deliveries);
    assert CardKept(RunAll(EMPTY, deliveries), id);
  }

  // ---------------------------------------------------------------- one revision, one accepted command

  /** Every accepted command but `create` names the revision it moved. */
  ghost predicate NamesItsRevision(e: Event) {
    e.verdict.Accepted? && !e.kind.Create? ==> e.expected == Some(e.verdict.revision - 1)
  }

  lemma {:induction false} AcceptedNamesItsRevision(deliveries: seq<Delivery>, i: nat)
    requires i < |RunAll(EMPTY, deliveries).events|
    ensures NamesItsRevision(RunAll(EMPTY, deliveries).events[i])
  {
    hide Handle, Decide, Kept, EventOf;
    var before, last := RunAll(EMPTY, Front(deliveries)), Last(deliveries);
    HandleRecords(before, last.request, last.world);
    if i < |before.events| {
      AcceptedNamesItsRevision(Front(deliveries), i);
    } else {
      var d := Decide(before, last.request, last.world);
      EveryBoardIsKept(Front(deliveries));
      if d.Write? && !last.request.kind.Create? {
        WriteNeedsCard(before, last.request, last.world);
        EventAbout(before, last.request, d, last.request.payload.card.value);
        KeptBoard(before, last.request.payload.card.value);
        WriteIsGood(before, last.request, last.world);
      } else {
        RefusedIsNotAccepted(before, last.request, d);
      }
    }
  }

  lemma KeptBoard(b: Board, id: CardId)
    requires Kept(b) && id in b.cards
    ensures b.cards[id].state.Ready? || b.cards[id].state.DoneState? ==> b.cards[id].approval.Some?
  {
    hide UniqueOps;
    assert CardKept(b, id);
  }

  lemma RefusedIsNotAccepted(b: Board, r: Request, d: Decision)
    ensures EventOf(b, r, d).kind == r.kind && (d.Refuse? ==> EventOf(b, r, d).verdict.Rejected?)
  {
  }

  lemma {:induction false} RevisionsHold(events: seq<Event>, id: CardId, i: nat)
    requires i < |events| && About(events[i], id)
    ensures exists k :: 0 <= k < |Revisions(events, id)| && Revisions(events, id)[k] == events[i].verdict.revision
  {
    if i < |events| - 1 {
      assert Front(events)[i] == events[i];
      RevisionsHold(Front(events), id, i);
      var k :| 0 <= k < |Revisions(Front(events), id)| && Revisions(Front(events), id)[k] == events[i].verdict.revision;
      assert Revisions(events, id)[k] == events[i].verdict.revision;
    } else {
      assert Revisions(events, id)[|Revisions(events, id)| - 1] == events[i].verdict.revision;
    }
  }

  /** No two accepted commands of a card return the same revision. */
  lemma {:induction false} RevisionsDiffer(events: seq<Event>, id: CardId, i: nat, j: nat)
    requires i < j < |events| && About(events[i], id) && About(events[j], id) && CountsUp(Revisions(events, id))
    ensures events[i].verdict.revision < events[j].verdict.revision
  {
    var n := |Revisions(Front(events), id)|;
    assert forall k :: 0 <= k < |Front(events)| ==> Front(events)[k] == events[k];
    assert CountsUp(Revisions(Front(events), id)) by {
      forall k | 0 <= k < n ensures Revisions(Front(events), id)[k] == k {
        assert Revisions(events, id)[k] == k;
      }
    }
    if j < |events| - 1 {
      RevisionsDiffer(Front(events), id, i, j);
    } else {
      RevisionsHold(Front(events), id, i);
      assert Revisions(events, id)[n] == n;
    }
  }

  /**
   Exactly when two accepted commands about one card carry the same expected revision: when the first is the
   create, and it was sent with the very revision the second one moved.
   */
  lemma OneAcceptedPerRevision(deliveries: seq<Delivery>, id: CardId, i: nat, j: nat)
    requires i < j < |RunAll(EMPTY, deliveries).events|
    requires var events := RunAll(EMPTY, deliveries).events; About(events[i], id) && About(events[j], id)
    ensures var events := RunAll(EMPTY, deliveries).events;
            events[i].expected == events[j].expected <==>
              && events[i].kind.Create? && !events[j].kind.Create?
              && events[i].expected == Some(events[j].verdict.revision - 1)
  {
    hide RunAll, Revisions, FoldCard, CountsUp;
    var b := RunAll(EMPTY, deliveries);
    AcceptedNamesItsRevision(deliveries, i);
    AcceptedNamesItsRevision(deliveries, j);
    if b.events[i].expected == b.events[j].expected {
      EveryBoardIsKept(deliveries);
      assert CountsUp(Revisions(b.events, id)) by {
        RevisionsCount(b, id);
      }
      RevisionsDiffer(b.events, id, i, j);
      CreatesAtZero(deliveries, j);
      NoNegativeRevision(b, id, i);
    }
  }

  lemma NoNegativeRevision(b: Board, id: CardId, i: nat)
    requires CountsUp(Revisions(b.events, id)) && i < |b.events| && About(b.events[i], id)
    ensures b.events[i].verdict.revision >= 0
  {
    RevisionsHold(b.events, id, i);
  }

  lemma RevisionsCount(b: Board, id: CardId)
    requires Kept(b)
    ensures CountsUp(Revisions(b.events, id))
  {
    hide UniqueOps;
    assert CardKept(b, id);
  }

  lemma {:induction false} CreatesAtZero(deliveries: seq<Delivery>, i: nat)
    requires i < |RunAll(EMPTY, deliveries).events|
    ensures var e := RunAll(EMPTY, deliveries).events[i];
            e.verdict.Accepted? && e.kind.Create? ==> e.verdict.revision == 0
  {
    hide Handle, Decide, EventOf;
    var before, last := RunAll(EMPTY, Front(deliveries)), Last(deliveries);
    HandleRecords(before, last.request, last.world);
    if i < |before.events| {
      CreatesAtZero(Front(deliveries), i);
    } else {
      var d := Decide(before, last.request, last.world);
      RefusedIsNotAccepted(before, last.request, d);
      if d.Write? && last.request.kind.Create? {
        CreateIsGood(before, last.request, last.world);
        EventAbout(before, last.request, d, 0);
      }
    }
  }

  /** The exception is real: `create` accepts and records an expected revision that a later edit may use again. */
  lemma CreateMayShareItsRevision(id: CardId)
    ensures var values := map[Title := Text("card")];
            var create := Request(1, Create, Payload(Some(id), Revision(0), 0, Fields(values, false), NoBinding,
                                                     false, 0));
            var edit := Request(2, Edit, create.payload);
            var w := World(Err(MissingScope), None, None, None, None);
            var (b1, o1) := Handle(EMPTY, create, w);
            var (b2, o2) := Handle(b1, edit, w);
            && o1.verdict.Accepted? && o2.verdict.Accepted?
            && b2.events[0].expected == Some(0) == b2.events[1].expected
  {
    assert !Blank("card") by {
      assert "card"[0] == 'c';
    }
  }
}

/**
 The store and the replay were written apart and agree: whatever the store admitted, event by event,
 the replay finds unbroken.
 */
module ReplayIntegrity {
  import opened Prelude
  import opened Convergence
  import opened Lifecycle
  import opened Trajectory
  import opened Replay

  lemma AdmittedFront(events: seq<Event>, rows: seq<Db>, db: Db)
    requires Admitted(events, rows, db) && events != []
    ensures |rows| == |events| && Admitted(Front(events), Front(rows), db)
    ensures Admits(Front(events), Last(events), Last(rows)) && Precedes(Last(rows), db)
  {
    hide Admits, Precedes;
    forall i | 0 <= i < |Front(events)| ensures Admits(Front(events)[..i], Front(events)[i], Front(rows)[i]) {
      assert Front(events)[..i] == events[..i];
    }
    assert events[..|events| - 1] == Front(events);
  }

  lemma AdmittedIsValid(events: seq<Event>, rows: seq<Db>, db: Db, i: nat)
    requires Admitted(events, rows, db) && i < |events|
    ensures ValidEvent(events[i])
  {
    hide ValidEvent, ProviderRules, EarlierRefs, ReplacesSession, IdentityOf, HasId, Precedes;
    assert Admits(events[..i], events[i], rows[i]);
  }

  lemma {:induction false} AllReadable(events: seq<Event>)
    requires forall i :: 0 <= i < |events| ==> ValidEvent(events[i])
    ensures Readable(events) == events
  {
    hide ValidEvent;
    if events != [] {
      AllReadable(Front(events));
      assert ValidEvent(events[|events| - 1]);
      FrontLast(events);
    }
  }

  // ---------------------------------------------------------------- the chain holds

  lemma {:induction false} ChainHolds(events: seq<Event>, rows: seq<Db>, db: Db)
    requires Admitted(events, rows, db)
    ensures ChainOf(events).faults == {} && ChainOf(events).previous == NextPrev(events)
    ensures forall id :: id in ChainOf(events).seen <==> HasId(events, id)
  {
    hide ValidEvent, ProviderRules, ReplacesSession, IdentityOf, HasId, Precedes, Admitted, Invoked;
    if events == [] {
      NoIds();
    } else {
      AdmittedFront(events, rows, db);
      ChainHolds(Front(events), Front(rows), db);
      forall id ensures HasId(events, id) <==> HasId(Front(events), id) || id == Last(events).core.id {
        OneMoreId(events, id);
      }
    }
  }

  lemma NoIds()
    ensures forall id :: !HasId([], id)
  {
  }

  lemma OneMoreId(events: seq<Event>, id: EventId)
    requires events != []
    ensures HasId(events, id) <==> HasId(Front(events), id) || id == Last(events).core.id
  {
    if HasId(Front(events), id) {
      var i :| 0 <= i < |Front(events)| && Front(events)[i].core.id == id;
      assert events[i].core.id == id;
    }
    assert events[|events| - 1] == Last(events);
  }

  /** The event at i continues the chain: next number, hash of its predecessor, new identifier, earlier parents. */
  ghost predicate Linked(events: seq<Event>, i: nat)
    requires i < |events|
  {
    && events[i].core.position == i + 1 && events[i].core.prev == NextPrev(events[..i])
    && !HasId(events[..i], events[i].core.id) && EarlierRefs(events[..i], events[i].core)
  }

  /** The replay's chain check is exact. */
  lemma {:induction false} ChainMeans(events: seq<Event>)
    ensures ChainOf(events).faults == {} <==> forall i :: 0 <= i < |events| ==> Linked(events, i)
    ensures ChainOf(events).previous == NextPrev(events)
    ensures forall id :: id in ChainOf(events).seen <==> HasId(events, id)
  {
    hide HasId;
    if events == [] {
      NoIds();
    } else {
      var n := |events| - 1;
      ChainMeans(Front(events));
      assert events[..n] == Front(events);
      forall i | 0 <= i < n ensures Linked(events, i) <==> Linked(Front(events), i) {
        assert Front(events)[..i] == events[..i];
      }
      forall id ensures HasId(events, id) <==> HasId(Front(events), id) || id == Last(events).core.id {
        OneMoreId(events, id);
      }
      LinkMeans(events);
    }
  }

  lemma LinkMeans(events: seq<Event>)
    requires events != [] && ChainOf(Front(events)).previous == NextPrev(Front(events))
    requires forall id :: id in ChainOf(Front(events)).seen <==> HasId(Front(events), id)
    ensures ChainOf(events).faults == {} <==> ChainOf(Front(events)).faults == {} && Linked(events, |events| - 1)
  {
    hide HasId;
    assert events[..|events| - 1] == Front(events);
  }

  // ---------------------------------------------------------------- runs and revisions hold

  lemma {:induction false} RowsLookup(runs: seq<StageRun>, token: Token)
    requires UniqueRuns(runs)
    ensures token in Rows(runs) <==> RunOf(runs, token).Some?
    ensures token in Rows(runs) ==> RunOf(runs, token) == Some(Rows(runs)[token])
  {
    if runs != [] {
      assert UniqueRuns(Front(runs)) by {
        forall i, j | 0 <= i < j < |Front(runs)| ensures Front(runs)[i].token != Front(runs)[j].token {
          assert runs[i].token != runs[j].token;
        }
      }
      RowsLookup(Front(runs), token);
      RowsLookup(Front(runs), Last(runs).token);
      assert RunOf(Front(runs), Last(runs).token).None?;
    }
  }

  lemma IdentityIsKnown(runs: seq<StageRun>, run: RunIdentity)
    requires UniqueRuns(runs) && IdentityOf(runs, run.token) == Some(run)
    ensures KnownRun(Rows(runs), run)
  {
    RowsLookup(runs, run.token);
  }

  lemma {:induction false} ViewHolds(events: seq<Event>, rows: seq<Db>, db: Db)
    requires Admitted(events, rows, db) && UniqueRuns(db.runs)
    ensures ViewOf(events, Rows(db.runs)).faults == {}
    ensures events != [] ==> ViewOf(events, Rows(db.runs)).last == Some(Last(rows).task.revision)
    ensures events == [] ==> ViewOf(events, Rows(db.runs)).last == None
  {
    hide ValidEvent, ProviderRules, EarlierRefs, ReplacesSession, IdentityOf, HasId, Admitted, KnownRun, UniqueRuns;
    hide Invoked, TaskAfter, AttemptsAfter;
    if events != [] {
      AdmittedFront(events, rows, db);
      ViewHolds(Front(events), Front(rows), db);
      RevisionsRise(events, rows, db);
      var run := Last(events).core.draft.run;
      if run.Some? {
        assert IdentityOf(Last(rows).runs, run.value.token).Some?;
        IdentityIsKnown(db.runs, run.value);
      }
    }
  }

  lemma RevisionsRise(events: seq<Event>, rows: seq<Db>, db: Db)
    requires Admitted(events, rows, db) && events != []
    ensures |rows| > 1 ==> Last(Front(rows)).task.revision <= Last(rows).task.revision
    ensures Last(rows).task.revision == Last(events).core.revision
  {
    hide ValidEvent, ProviderRules, EarlierRefs, ReplacesSession, IdentityOf, HasId;
    var n := |rows| - 1;
    assert Admits(events[..n], events[n], rows[n]);
    if |rows| > 1 {
      assert Precedes(rows[n - 1], rows[n]);
    }
  }

  // ---------------------------------------------------------------- invocations and sessions hold

  /** What the replay knows of an invocation is what the store's prior events say. */
  ghost predicate Tracks(x: Exchange, events: seq<Event>, id: Token) {
    var prior := Invoked(events, Some(id));
    && (id in x.invocations <==> prior != [])
    && (prior != [] ==> |Intents(prior)| == 1)
    && (id in x.invocations ==>
          (x.invocations[id].dispatched <==> Ran(prior, true)) && (x.invocations[id].settled <==> Ran(prior, false)))
  }

  lemma RanStep(prior: seq<Event>, e: Event, dispatched: bool)
    ensures Ran(prior + [e], dispatched) <==>
              Ran(prior, dispatched) || (if dispatched then e.core.draft.body.Dispatched?
                                         else e.core.draft.body.ProviderSettled?)
  {
    var longer := prior + [e];
    assert longer[|prior|] == e && forall i :: 0 <= i < |prior| ==> longer[i] == prior[i];
  }

  lemma IntentsStep(prior: seq<Event>, e: Event)
    ensures Intents(prior + [e]) == if e.core.draft.body.DispatchIntent? then Intents(prior) + [e] else Intents(prior)
  {
    assert Front(prior + [e]) == prior;
  }

  lemma TracksStep(events: seq<Event>, id: Token)
    requires events != [] && ValidDraft(Last(events).core.draft)
    requires Tracks(ExchangeOf(Front(events)), Front(events), id)
    requires IsProvider(Last(events).core.draft.body) ==>
               ProviderRules(Invoked(Front(events), Last(events).core.draft.invocation), Last(events).core.draft)
    ensures Tracks(ExchangeOf(events), events, id)
    ensures Last(events).core.draft.invocation == Some(id) ==>
            ExchangeOf(events).faults == ExchangeOf(Front(events)).faults
  {
    hide ValidBody, ValidRefs, Bind, AnySession, KnowsSession, Intents, Ran, Newer;
    var e := Last(events);
    var prior := Invoked(Front(events), Some(id));
    RanStep(prior, e, true);
    RanStep(prior, e, false);
    IntentsStep(prior, e);
    NoneRan(true);
    NoneRan(false);
    NoIntents();
    if e.core.draft.invocation != Some(id) {
      KeepsOthers(ExchangeOf(Front(events)), e, id);
    }
  }

  lemma NoIntents()
    ensures Intents([]) == []
  {
  }

  lemma NoneRan(dispatched: bool)
    ensures !Ran([], dispatched)
  {
  }

  lemma KeepsOthers(x: Exchange, e: Event, id: Token)
    requires ValidDraft(e.core.draft) && e.core.draft.invocation != Some(id)
    ensures id in Trade(x, e).invocations <==> id in x.invocations
    ensures id in x.invocations ==> Trade(x, e).invocations[id] == x.invocations[id]
  {
    hide ValidBody, ValidRefs;
  }

  /** The replay remembers every session event with its session. */
  ghost predicate Remembers(x: Exchange, events: seq<Event>) {
    forall i :: 0 <= i < |events| && IsSession(events[i].core.draft.body) ==>
      events[i].core.id in x.sessions && x.sessions[events[i].core.id] == events[i].core.draft.session
  }

  lemma RemembersStep(events: seq<Event>)
    requires events != [] && Remembers(ExchangeOf(Front(events)), Front(events))
    requires !HasId(Front(events), Last(events).core.id)
    ensures Remembers(ExchangeOf(events), events)
  {
    hide Provide;
    var x, e := ExchangeOf(Front(events)), Last(events);
    ProvideKeepsSessions(x, e.core.draft);
    forall i | 0 <= i < |events| && IsSession(events[i].core.draft.body)
      ensures events[i].core.id in ExchangeOf(events).sessions
              && ExchangeOf(events).sessions[events[i].core.id] == events[i].core.draft.session {
      if i < |Front(events)| {
        assert Front(events)[i] == events[i];
      }
    }
  }

  lemma ProvideKeepsSessions(x: Exchange, d: Draft)
    ensures d.invocation.Some? && d.run.Some? ==> Provide(x, d).sessions == x.sessions
  {
  }

  lemma SessionsClean(events: seq<Event>)
    requires events != [] && !IsProvider(Last(events).core.draft.body)
             && Remembers(ExchangeOf(Front(events)), Front(events))
    requires Last(events).core.draft.body.SessionRebound? ==>
               ReplacesSession(Front(events), Last(events).core.draft.body.predecessor, Last(events).core.draft.session)
    ensures ExchangeOf(events).faults == ExchangeOf(Front(events)).faults
  {
  }

  lemma {:induction false} ExchangeHolds(events: seq<Event>, rows: seq<Db>, db: Db)
    requires Admitted(events, rows, db)
    ensures ExchangeOf(events).faults == {} && Remembers(ExchangeOf(events), events)
    ensures forall id :: Tracks(ExchangeOf(events), events, id)
  {
    hide ValidRefs, ValidBody, ProviderRules, ReplacesSession, IdentityOf, HasId, Precedes, Admitted, Tracks, Trade;
    hide EarlierRefs;
    if events == [] {
      NothingTracked();
    } else {
      AdmittedFront(events, rows, db);
      ExchangeHolds(Front(events), Front(rows), db);
      hide ExchangeOf, Remembers;
      RemembersStep(events);
      forall id ensures Tracks(ExchangeOf(events), events, id) {
        TracksStep(events, id);
      }
      if IsProvider(Last(events).core.draft.body) {
        TracksStep(events, Last(events).core.draft.invocation.value);
      } else {
        SessionsClean(events);
      }
    }
  }

  lemma NothingTracked()
    ensures forall id :: Tracks(ExchangeOf([]), [], id)
  {
  }

  /**
   Events admitted one by one, while the task's revision never fell and no run changed its identity,
   replay without a gap, a broken chain, a bad parent, a duplicate or unpaired provider event,
   a bad session predecessor, an unknown run or a falling revision.
   */
  lemma AdmittedReplaysClean(events: seq<Event>, rows: seq<Db>, db: Db)
    requires Admitted(events, rows, db) && UniqueRuns(db.runs)
    ensures Readable(events) == events
    ensures ChainOf(events).faults == {} && ViewOf(events, Rows(db.runs)).faults == {}
            && ExchangeOf(events).faults == {}
  {
    hide Admitted, ValidEvent;
    forall i | 0 <= i < |events| ensures ValidEvent(events[i]) {
      AdmittedIsValid(events, rows, db, i);
    }
    AllReadable(events);
    ChainHolds(events, rows, db);
    ViewHolds(events, rows, db);
    ExchangeHolds(events, rows, db);
  }
}

/**
 Replay agrees with the rows: whatever sequence of transactions a recorded controller took, freezing
 and reducing its trajectory finds neither corruption nor a mismatch.
 */
module ReplayAgreement {
  import opened Prelude
  import opened Profiles
  import opened Convergence
  import opened Lifecycle
  import opened LifecycleInvariants
  import opened Trajectory
  import opened Replay
  import opened ReplayIntegrity
  import opened Recorder

  // ---------------------------------------------------------------- the rows move on

  lemma PrecedesItself(db: Db)
    ensures Precedes(db, db)
  {
  }

  lemma PrecedesChains(a: Db, b: Db, c: Db)
    requires Precedes(a, b) && Precedes(b, c)
    ensures Precedes(a, c)
  {
    hide IdentityOf;
  }

  lemma KeepsIdentity(db: Db, after: Db, shape: Shape, token: Token)
    requires Leased(db) && HasShape(db, after, shape) && RunOf(db.runs, token).Some?
    ensures IdentityOf(after.runs, token) == IdentityOf(db.runs, token)
  {
    hide NextAttempt, MaxNumber, Uncapped, Bump, LastCapped, LogsOne, Moves;
    match shape
    case Same =>
    case Stopped =>
    case Requeued =>
    case Started =>
      Extended(db.runs, Last(after.runs));
    case Closed =>
      Extended(db.runs, Last(after.runs));
    case Settled(k) =>
      ClosedIdentity(db, after, k, token);
    case Orphaned(k) =>
      ClosedIdentity(db, after, k, token);
  }

  lemma ClosedIdentity(db: Db, after: Db, k: nat, token: Token)
    requires Leased(db) && Settles(db, after, k) && RunOf(db.runs, token).Some?
    ensures IdentityOf(after.runs, token) == IdentityOf(db.runs, token)
  {
    hide LogsOne;
    if token == db.runs[k].token {
      UniqueRow(db.runs, k);
      UniqueRow(after.runs, k);
    } else {
      RunOfUpdate(db.runs, k, after.runs[k], token);
    }
  }

  lemma UniqueRow(runs: seq<StageRun>, k: nat)
    requires k < |runs| && UniqueRuns(runs)
    ensures RunOf(runs, runs[k].token) == Some(runs[k])
  {
  }

  lemma RevisionRises(db: Db, a: Action)
    ensures Apply(db, a).task.revision >= db.task.revision
    ensures Apply(db, a) != db ==> Apply(db, a).task.revision == db.task.revision + 1
  {
    hide NextAttempt, MaxNumber, Uncapped, Bump, LastCapped, UsedOp, TargetOf, Declares, Settle;
  }

  lemma StepPrecedes(db: Db, a: Action)
    requires Leased(db) && Admissible(db, a)
    ensures Precedes(db, Apply(db, a))
  {
    hide Apply, Admissible, HasShape, IdentityOf, Leased;
    RevisionRises(db, a);
    var shape := ShapeOf(db, a);
    forall token | IdentityOf(db.runs, token).Some? ensures IdentityOf(Apply(db, a).runs, token) ==
      IdentityOf(db.runs, token) {
      KnownIdentity(db.runs, token);
      KeepsIdentity(db, Apply(db, a), shape, token);
    }
  }

  lemma KnownIdentity(runs: seq<StageRun>, token: Token)
    ensures IdentityOf(runs, token).Some? <==> RunOf(runs, token).Some?
  {
  }

  // ---------------------------------------------------------------- appending keeps admission

  lemma AdmitOne(events: seq<Event>, rows: seq<Db>, e: Event, db: Db)
    requires Admitted(events, rows, db) && Admits(events, e, db)
    ensures Admitted(events + [e], rows + [db], db)
  {
    hide Admits, IdentityOf;
    var es, rs := events + [e], rows + [db];
    PrecedesItself(db);
    forall i | 0 <= i < |es| ensures Admits(es[..i], es[i], rs[i]) {
      if i < |events| {
        assert es[..i] == events[..i];
      } else {
        assert es[..i] == events;
      }
    }
  }

  lemma AdmitLater(events: seq<Event>, rows: seq<Db>, db: Db, later: Db)
    requires Admitted(events, rows, db) && Precedes(db, later)
    ensures Admitted(events, rows, later)
  {
    hide Admits, Precedes;
    forall i | 0 <= i < |rows| ensures Precedes(rows[i], later) {
      PrecedesChains(rows[i], db, later);
    }
  }

  lemma {:induction false} AdmitAll(events: seq<Event>, rows: seq<Db>, drafts: seq<Draft>, ids: seq<EventId>, db: Db)
    requires Admitted(events, rows, db) && AppendAll(events, drafts, ids, db).Some?
    ensures Admitted(AppendAll(events, drafts, ids, db).value, rows + Copies(db, |drafts|), db)
  {
    hide Admits, Precedes, Admitted;
    if drafts == [] {
      assert rows + Copies(db, 0) == rows;
    } else {
      AdmitAll(events, rows, Front(drafts), Front(ids), db);
      var earlier := AppendAll(events, Front(drafts), Front(ids), db).value;
      AdmitOne(earlier, rows + Copies(db, |drafts| - 1),
               SealEvent(earlier, Last(ids), db.task.revision, Last(drafts)), db);
      assert rows + Copies(db, |drafts|) == rows + Copies(db, |drafts| - 1) + [db];
    }
  }

  // ---------------------------------------------------------------- what the events say

  /** The part of the replay that is compared with the rows. */
  datatype Told = Told(task: Option<TaskView>, coverage: Option<nat>, attempts: map<Token, Attempt>)

  function Telling(events: seq<Event>): (t: Told) {
    var v := ViewOf(events, map[]);
    Told(v.task, v.coverage, v.attempts)
  }

  lemma {:induction false} RowsDoNotMatter(events: seq<Event>, rows: map<Token, StageRun>)
    ensures var v := ViewOf(events, rows); Telling(events) == Told(v.task, v.coverage, v.attempts)
  {
    hide TaskAfter, AttemptsAfter, KnownRun;
    if events != [] {
      RowsDoNotMatter(Front(events), rows);
    }
  }

  function Hear(t: Told, revision: nat, d: Draft): (next: Told) {
    Told(TaskAfter(t.task, revision, d), if d.body.Baseline? then Some(d.body.coverage) else t.coverage,
         AttemptsAfter(t.attempts, d))
  }

  function HearAll(t: Told, revision: nat, drafts: seq<Draft>): (after: Told) {
    if drafts == [] then t else Hear(HearAll(t, revision, Front(drafts)), revision, Last(drafts))
  }

  lemma {:induction false} AppendedIsHeard(events: seq<Event>, drafts: seq<Draft>, ids: seq<EventId>, db: Db)
    requires AppendAll(events, drafts, ids, db).Some?
    ensures Telling(AppendAll(events, drafts, ids, db).value) == HearAll(Telling(events), db.task.revision, drafts)
  {
    hide Admits, TaskAfter, AttemptsAfter, KnownRun;
    if drafts != [] {
      AppendedIsHeard(events, Front(drafts), Front(ids), db);
      var earlier := AppendAll(events, Front(drafts), Front(ids), db).value;
      var e := SealEvent(earlier, Last(ids), db.task.revision, Last(drafts));
      assert Front(earlier + [e]) == earlier;
    }
  }

  lemma {:induction false} HearConcat(t: Told, revision: nat, a: seq<Draft>, b: seq<Draft>)
    ensures HearAll(t, revision, a + b) == HearAll(HearAll(t, revision, a), revision, b)
  {
    hide Hear;
    if b == [] {
      assert a + b == a;
    } else {
      assert Front(a + b) == a + Front(b) && Last(a + b) == Last(b);
      HearConcat(t, revision, a, Front(b));
    }
  }

  /** Provider, session and evidence events say nothing about the task or its attempts. */
  predicate Neutral(d: Draft) {
    IsProvider(d.body) || IsSession(d.body) || d.body.EvidenceSealed?
  }

  lemma {:induction false} NeutralUnheard(t: Told, revision: nat, drafts: seq<Draft>)
    requires forall i :: 0 <= i < |drafts| ==> Neutral(drafts[i])
    ensures HearAll(t, revision, drafts) == t
  {
    if drafts != [] {
      NeutralUnheard(t, revision, Front(drafts));
      assert Neutral(drafts[|drafts| - 1]);
    }
  }

  lemma RunDraftsNeutral(p: Profile, events: seq<Event>, run: StageRun, c: Classification, n: Notes)
    ensures forall i :: 0 <= i < |RunDrafts(p, events, run, c, n)| ==> Neutral(RunDrafts(p, events, run, c, n)[i])
  {
  }

  // ---------------------------------------------------------------- attempts match their rows

  ghost predicate Matches(attempts: map<Token, Attempt>, runs: seq<StageRun>) {
    forall token :: token in attempts ==>
            && RunOf(runs, token).Some?
            && attempts[token] == ExpectedAttempt(RunOf(runs, token).value)
  }

  /** A run that has not been closed has no outcome and no seal. */
  ghost predicate Bare(runs: seq<StageRun>) {
    forall i :: 0 <= i < |runs| && runs[i].status == Active ==> runs[i].outcome == None && runs[i].seal == Lost
  }

  lemma MatchesLonger(attempts: map<Token, Attempt>, runs: seq<StageRun>, run: StageRun, a: Attempt)
    requires Matches(attempts, runs) && !KnownToken(runs, run.token) && a == ExpectedAttempt(run)
    ensures run.token !in attempts && Matches(attempts[run.token := a], runs + [run])
  {
    Extended(runs, run);
  }

  lemma MatchesLongerUnheard(attempts: map<Token, Attempt>, runs: seq<StageRun>, run: StageRun)
    requires Matches(attempts, runs) && !KnownToken(runs, run.token)
    ensures run.token !in attempts && Matches(attempts, runs + [run])
  {
    Extended(runs, run);
  }

  lemma MatchesUpdated(attempts: map<Token, Attempt>, runs: seq<StageRun>, k: nat, run: StageRun, a: Attempt)
    requires k < |runs| && UniqueRuns(runs) && Matches(attempts, runs)
    requires Identity(run) == Identity(runs[k]) && a == ExpectedAttempt(run)
    ensures Matches(attempts[run.token := a], runs[k := run])
    ensures run.token in attempts ==> attempts[run.token].identity == Identity(run)
  {
    hide ExpectedOutcome;
    var after := runs[k := run];
    UniqueRow(runs, k);
    UniqueRow(after, k);
    forall token | token in attempts && token != run.token ensures RunOf(after, token) == RunOf(runs, token) {
      RunOfUpdate(runs, k, run, token);
    }
  }

  /** An outcome that the trajectory accepts is coded as the replay expects it. */
  lemma CodedAsExpected(o: Option<Name>)
    requires OutcomeCode(o).Some? ==> ValidCode(OutcomeCode(o).value)
    ensures OutcomeCode(o) == ExpectedOutcome(o)
  {
    hide KnownOutcome;
  }

  // ---------------------------------------------------------------- one transaction at a time

  /** The replay knows the task, how far its log went, and its attempts. */
  ghost predicate Follows(t: Told, db: Db) {
    t.task.Some? && t.task.value.number == Some(|db.log|) && Matches(t.attempts, db.runs)
  }

  ghost predicate Agrees(t: Told, db: Db) {
    Follows(t, db) && t.task.value.status == Some(db.task.status) && t.task.value.revision == db.task.revision
  }

  lemma EndsWithTransition(t: Told, revision: nat, drafts: seq<Draft>, db: Db, after: Db)
    requires LogsOne(db, after) && Chained(db.log)
    ensures var u := HearAll(t, revision, drafts + LastTransition(after.log));
            && u.task == Some(TaskView(revision, Some(after.task.status), Some(|after.log|)))
            && u.attempts == HearAll(t, revision, drafts).attempts
               && u.coverage == HearAll(t, revision, drafts).coverage
  {
    hide ReasonCode, OutcomeCode, MaxNumber;
    ContiguousMax(db.log);
    HearConcat(t, revision, drafts, LastTransition(after.log));
    var d := TransitionDraft(Last(after.log));
    assert LastTransition(after.log) == [d];
    HearOne(HearAll(t, revision, drafts), revision, d);
  }

  lemma HearOne(t: Told, revision: nat, d: Draft)
    ensures HearAll(t, revision, [d]) == Hear(t, revision, d)
  {
    hide Hear;
    assert Front([d]) == [] && HearAll(t, revision, []) == t;
  }

  lemma ClaimAgrees(t: Told, db: Db, a: Action, events: seq<Event>, n: Notes)
    requires Follows(t, db) && Leased(db) && Bare(db.runs) && Chained(db.log) && a.Claim? && Admissible(db, a)
             && Apply(db, a) != db
    ensures var after := Apply(db, a);
            Agrees(HearAll(t, after.task.revision, Drafts(db, after, events, a, n)), after) && Bare(after.runs)
  {
    hide NextAttempt, MaxNumber, Uncapped, UsedOp, Matches, KnownOutcome, HearAll, Chained, Leased, LastTransition;
    hide KnownToken;
    var after := Apply(db, a);
    if after.task.status == Running {
      var run := Last(after.runs);
      assert after.runs == db.runs + [run] && run.status == Active && run.outcome == None && run.seal == Lost
             && run.token == a.token;
      ClaimHeard(t, after.task.revision, db.profile, run, n);
      MatchesLonger(t.attempts, db.runs, run, Attempt(Identity(run), Row(Active), None, false, None));
      BareLonger(db.runs, run);
    } else {
      StopHeard(t, db, after);
    }
  }

  lemma ClaimHeard(t: Told, revision: nat, p: Profile, run: StageRun, n: Notes)
    requires t.task.Some?
    ensures HearAll(t, revision, ClaimDrafts(p, run, n)) ==
              Told(Some(TaskView(revision, Some(Running), t.task.value.number)), t.coverage,
                   t.attempts[run.token := Attempt(Identity(run), Row(Active), None, false, None)])
  {
    var drafts := ClaimDrafts(p, run, n);
    assert Front(drafts) == [drafts[0]] && Last(drafts) == drafts[1];
    HearOne(t, revision, drafts[0]);
  }

  lemma BareLonger(runs: seq<StageRun>, run: StageRun)
    requires Bare(runs) && run.outcome == None && run.seal == Lost
    ensures Bare(runs + [run])
  {
  }

  lemma StopHeard(t: Told, db: Db, after: Db)
    requires Follows(t, db) && LogsOne(db, after) && Chained(db.log) && after.runs == db.runs
    ensures Agrees(HearAll(t, after.task.revision, LastTransition(after.log)), after)
  {
    hide Matches, LogsOne, Chained, LastTransition, HearAll;
    EndsWithTransition(t, after.task.revision, [], db, after);
    HearNothing(t, after.task.revision);
    assert [] + LastTransition(after.log) == LastTransition(after.log);
  }

  lemma HearNothing(t: Told, revision: nat)
    ensures HearAll(t, revision, []) == t
  {
  }

  lemma ResumeAgrees(t: Told, db: Db, a: Action, events: seq<Event>, n: Notes)
    requires Follows(t, db) && Bare(db.runs) && Chained(db.log) && a.Resume? && Apply(db, a) != db
    ensures var after := Apply(db, a);
            Agrees(HearAll(t, after.task.revision, Drafts(db, after, events, a, n)), after) && Bare(after.runs)
  {
    hide Matches, LastTransition, HearAll, Requeues, ResumeStep, Chained, MaxNumber;
    ResumeShape(db, a.op, a.rerun);
    RequeueLogs(db, Apply(db, a));
    StopHeard(t, db, Apply(db, a));
  }

  lemma RequeueLogs(db: Db, after: Db)
    requires Requeues(db, after)
    ensures LogsOne(db, after) && after.runs == db.runs
  {
    hide LogsOne;
  }

  /** A closed run, then the transition that records it. */
  lemma CloseHeard(t: Told, db: Db, after: Db, neutral: seq<Draft>, d: Draft)
    requires t.task.Some? && LogsOne(db, after) && Chained(db.log)
    requires forall i :: 0 <= i < |neutral| ==> Neutral(neutral[i])
    requires d.body.StageSettled? && d.run.Some? && Matches(AttemptsAfter(t.attempts, d), after.runs)
    ensures Agrees(HearAll(t, after.task.revision, neutral + [d] + LastTransition(after.log)), after)
  {
    hide Matches, LogsOne, Chained, LastTransition, HearAll, Neutral, AttemptsAfter;
    var revision := after.task.revision;
    EndsWithTransition(t, revision, neutral + [d], db, after);
    HearConcat(t, revision, neutral, [d]);
    NeutralUnheard(t, revision, neutral);
    HearOne(t, revision, d);
  }

  /** The settled event of a closed run says what its row says. */
  lemma SettledMatches(t: Told, runs: seq<StageRun>, k: nat, run: StageRun, d: Draft)
    requires k < |runs| && UniqueRuns(runs) && Matches(t.attempts, runs) && Identity(run) == Identity(runs[k])
    requires d.run == Some(Identity(run)) && d.body.StageSettled?
             && SettledStatus(d.body.classification) == Row(run.status)
    requires d.body.code == ExpectedOutcome(run.outcome) && d.body.sealed == run.seal.Sealed?
    requires TheManifest(d.refs) == if run.seal.Sealed? then Some(Manifest(run.token, run.seal)) else None
    ensures Matches(AttemptsAfter(t.attempts, d), runs[k := run])
  {
    hide ExpectedOutcome, TheManifest, Matches, UniqueRuns;
    MatchesUpdated(t.attempts, runs, k, run, ExpectedAttempt(run));
  }

  /** The row of a committed run. */
  lemma CommittedRow(db: Db, token: Token, result: RunResult, op: Token)
    requires CommitStep(db, token, result, op).Ok?
    ensures FindRun(db.runs, token).Some?
    ensures var after, k := CommitStep(db, token, result, op).value, FindRun(db.runs, token).value;
            && k < |after.runs| && Row(after.runs[k].status) == SettledStatus(result.classification)
            && after.runs == db.runs[k := after.runs[k]]
            && after.runs[k] == db.runs[k].(status := after.runs[k].status, outcome := result.outcome,
                                            seal := Sealed(result.response, result.reason))
  {
    hide Uncapped, UsedOp, Declares, TargetOf, MaxNumber, Bump;
  }

  lemma OneManifestSeen(r: Ref)
    requires r.kind == RunManifest
    ensures TheManifest([r]) == Some(r.manifest)
  {
    assert Front([r]) == [] && ManifestsOf([]) == NoManifest;
  }

  lemma CommitAgrees(t: Told, db: Db, a: Action, events: seq<Event>, n: Notes)
    requires Follows(t, db) && Leased(db) && Bare(db.runs) && Chained(db.log) && a.Commit? && Admissible(db, a)
             && Apply(db, a) != db
    requires OutcomeCode(a.result.outcome).Some? ==> ValidCode(OutcomeCode(a.result.outcome).value)
    ensures var after := Apply(db, a);
            Agrees(HearAll(t, after.task.revision, Drafts(db, after, events, a, n)), after) && Bare(after.runs)
  {
    hide Matches, LogsOne, Chained, LastTransition, HearAll, CommitStep, Moves, MaxNumber, UsedOp, TheManifest;
    hide ManifestsOf, OutcomeCode;
    hide RunDrafts, Neutral, AttemptsAfter, ExpectedOutcome, FindRun, SettledStatus;
    var after, result := Apply(db, a), a.result;
    CommittedRow(db, a.token, result, a.op);
    var k := FindRun(db.runs, a.token).value;
    CommitShape(db, a.token, result, a.op);
    var run := after.runs[k];
    UniqueRow(after.runs, k);
    CodedAsExpected(result.outcome);
    var d := SettledDraft(run, result.classification, n);
    OneManifestSeen(d.refs[0]);
    SettledMatches(t, db.runs, k, run, d);
    RunDraftsNeutral(db.profile, events, run, result.classification, n);
    CloseHeard(t, db, after, RunDrafts(db.profile, events, run, result.classification, n), d);
  }

  lemma NoManifestSeen()
    ensures TheManifest([]) == None
  {
  }

  lemma OrphanAgrees(t: Told, db: Db, a: Action, events: seq<Event>, n: Notes)
    requires Follows(t, db) && Leased(db) && Bare(db.runs) && Chained(db.log) && a.Orphan? && Apply(db, a) != db
    ensures var after := Apply(db, a);
            Agrees(HearAll(t, after.task.revision, Drafts(db, after, events, a, n)), after) && Bare(after.runs)
  {
    hide Matches, Chained, LastTransition, HearAll, MaxNumber, TheManifest, ManifestsOf, AttemptsAfter;
    var after, k := Apply(db, a), FindActive(db.runs).value;
    var run := after.runs[k];
    assert run == db.runs[k].(status := RunBlocked) && after.runs == db.runs[k := run];
    var d := UnsealedDraft(run, BlockedRun);
    NoManifestSeen();
    SettledMatches(t, db.runs, k, run, d);
    CloseHeard(t, db, after, [], d);
    assert [] + [d] + LastTransition(after.log) == [d] + LastTransition(after.log);
  }

  lemma PreflightAgrees(t: Told, db: Db, a: Action, events: seq<Event>, n: Notes)
    requires Follows(t, db) && Leased(db) && Bare(db.runs) && Chained(db.log) && a.Preflight? && Admissible(db, a)
             && Apply(db, a) != db
    ensures var after := Apply(db, a);
            Agrees(HearAll(t, after.task.revision, Drafts(db, after, events, a, n)), after) && Bare(after.runs)
  {
    hide Matches, Chained, LastTransition, HearAll, MaxNumber, TheManifest, ManifestsOf, NextAttempt, UsedOp, Leased;
    var after := Apply(db, a);
    var run := Last(after.runs);
    assert after.runs == db.runs + [run] && run.outcome == None && run.seal == Lost;
    var d := UnsealedDraft(run, if a.paused then PausedRun else BlockedRun);
    NoManifestSeen();
    MatchesLongerUnheard(t.attempts, db.runs, run);
    MatchesLonger(t.attempts, db.runs, run, ExpectedAttempt(run));
    CloseHeard(t, db, after, [], d);
    BareLonger(db.runs, run);
    assert [] + [d] + LastTransition(after.log) == [d] + LastTransition(after.log);
  }

  lemma ActAgrees(t: Told, db: Db, a: Action, events: seq<Event>, n: Notes)
    requires Follows(t, db) && Leased(db) && Bare(db.runs) && Chained(db.log) && Admissible(db, a) && Apply(db, a) != db
    requires a.Commit? && OutcomeCode(a.result.outcome).Some? ==> ValidCode(OutcomeCode(a.result.outcome).value)
    ensures var after := Apply(db, a);
            Agrees(HearAll(t, after.task.revision, Drafts(db, after, events, a, n)), after) && Bare(after.runs)
  {
    hide Follows, Leased, Chained, Admissible, Apply, Agrees, HearAll, Drafts, Bare, OutcomeCode;
    match a
    case Claim(_, _, _) => ClaimAgrees(t, db, a, events, n);
    case Commit(_, _, _) => CommitAgrees(t, db, a, events, n);
    case Resume(_, _) => ResumeAgrees(t, db, a, events, n);
    case Orphan(_) => OrphanAgrees(t, db, a, events, n);
    case Preflight(_, _, _, _) => PreflightAgrees(t, db, a, events, n);
  }

  // ---------------------------------------------------------------- what was appended

  lemma {:induction false} AppendedDraft(events: seq<Event>, drafts: seq<Draft>, ids: seq<EventId>, db: Db, i: nat)
    requires AppendAll(events, drafts, ids, db).Some? && i < |drafts|
    ensures AppendAll(events, drafts, ids, db).value[|events| + i].core.draft == drafts[i] && ValidDraft(drafts[i])
  {
    hide ValidDraft, ProviderRules, EarlierRefs, ReplacesSession, HasId, IdentityOf, Invoked;
    if i < |drafts| - 1 {
      AppendedDraft(events, Front(drafts), Front(ids), db, i);
    }
  }

  lemma {:induction false} AppendedRefs(events: seq<Event>, drafts: seq<Draft>, ids: seq<EventId>, db: Db, r: Ref)
    requires AppendAll(events, drafts, ids, db).Some? && r in RefsOf(AppendAll(events, drafts, ids, db).value)
    ensures r in RefsOf(events) || exists i :: 0 <= i < |drafts| && r in drafts[i].refs
  {
    hide Admits;
    if drafts != [] {
      var earlier := AppendAll(events, Front(drafts), Front(ids), db).value;
      var e := SealEvent(earlier, Last(ids), db.task.revision, Last(drafts));
      assert Front(earlier + [e]) == earlier && Last(earlier + [e]) == e;
      if r in Last(drafts).refs {
        assert r in drafts[|drafts| - 1].refs;
      } else {
        AppendedRefs(events, Front(drafts), Front(ids), db, r);
        if r !in RefsOf(events) {
          var i :| 0 <= i < |Front(drafts)| && r in Front(drafts)[i].refs;
          assert r in drafts[i].refs;
        }
      }
    }
  }

  /** A reference identifier stands for one artifact. */
  ghost predicate OneRefPerId(refs: seq<Ref>) {
    forall r, s :: r in refs && s in refs && r.id == s.id ==> r == s
  }

  ghost predicate SameRefs(events: seq<Event>) {
    OneRefPerId(RefsOf(events))
  }

  /** The references one transaction may introduce. */
  function NewRefs(run: StageRun, n: Notes, events: seq<Event>): (refs: seq<Ref>) {
    [RefTo(n.manifest, RunManifest, run), RefTo(n.receipt, TransportReceipt, run),
     RefTo(n.response, FinalResponse, run)]
    + SessionRefs(SessionDrafts(events, run, n))
  }

  lemma NewRefsDistinct(run: StageRun, n: Notes, events: seq<Event>, based: seq<Event>)
    requires FreshRefs(events, n)
    ensures forall r, s :: r in NewRefs(run, n, based) && s in NewRefs(run, n, based) && r.id == s.id ==> r == s
    ensures forall r :: r in NewRefs(run, n, based) ==>
            r.id in {n.manifest.id, n.receipt.id, n.response.id, n.binding.id}
  {
    hide LatestSession;
  }

  lemma RunDraftRefs(p: Profile, events: seq<Event>, run: StageRun, c: Classification, n: Notes, r: Ref, i: nat)
    requires i < |RunDrafts(p, events, run, c, n)| && r in RunDrafts(p, events, run, c, n)[i].refs
    ensures r in NewRefs(run, n, events)
  {
    hide LatestSession;
  }

  /** The run whose artifacts a transaction references. */
  function Cited(after: Db, a: Action): (run: Option<StageRun>) {
    if a.Commit? then RunOf(after.runs, a.token) else None
  }

  lemma DraftRefs(db: Db, after: Db, events: seq<Event>, a: Action, n: Notes, r: Ref, i: nat)
    requires i < |Drafts(db, after, events, a, n)| && r in Drafts(db, after, events, a, n)[i].refs
    ensures Cited(after, a).Some? && r in NewRefs(Cited(after, a).value, n, events)
  {
    hide RunDrafts, SessionDrafts, SessionRefs, ReasonCode, OutcomeCode;
    if a.Commit? {
      var run := RunOf(after.runs, a.token);
      if run.Some? {
        var own := RunDrafts(db.profile, events, run.value, a.result.classification, n);
        if i < |own| {
          RunDraftRefs(db.profile, events, run.value, a.result.classification, n, r, i);
        }
      }
    }
  }

  lemma KeepsSameRefs(db: Db, after: Db, events: seq<Event>, based: seq<Event>, a: Action, n: Notes)
    requires SameRefs(events) && FreshRefs(events, n) && RefsOf(based) == RefsOf(events)
    requires AppendAll(based, Drafts(db, after, based, a, n), n.ids, after).Some?
    ensures SameRefs(AppendAll(based, Drafts(db, after, based, a, n), n.ids, after).value)
  {
    hide RefsOf, Drafts, AppendAll, NewRefs, Cited;
    var drafts := Drafts(db, after, based, a, n);
    var all := RefsOf(AppendAll(based, drafts, n.ids, after).value);
    forall r | r in all && r !in RefsOf(events) ensures Cited(after, a).Some?
      && r in NewRefs(Cited(after, a).value, n, based) {
      AppendedRefs(based, drafts, n.ids, after, r);
      var i :| 0 <= i < |drafts| && r in drafts[i].refs;
      DraftRefs(db, after, based, a, n, r, i);
    }
    if Cited(after, a).Some? {
      NewRefsDistinct(Cited(after, a).value, n, events, based);
    }
  }

  // ---------------------------------------------------------------- transitions are accounted for

  /** Every transition is replayed or covered by the baseline, and no further baseline is due. */
  predicate Accounted(events: seq<Event>, coverage: Option<nat>, log: seq<Transition>) {
    TransitionsCovered(events, coverage, log) && !NeedsBaseline(events, log)
  }

  lemma ReplayedLater(events: seq<Event>, later: seq<Event>, number: nat)
    requires events <= later && Replayed(events, number)
    ensures Replayed(later, number)
  {
    var i :| 0 <= i < |events| && events[i].core.draft.body.TransitionCommitted?
      && events[i].core.draft.body.number == number;
    assert later[i] == events[i];
  }

  lemma KeepsAccount(events: seq<Event>, later: seq<Event>, coverage: Option<nat>, log: seq<Transition>,
                     log': seq<Transition>)
    requires events <= later && Accounted(events, coverage, log)
    requires log' == log || (log' != [] && log == Front(log') && Replayed(later, Last(log').number))
    ensures Accounted(later, coverage, log')
  {
    hide Replayed;
    forall i | 0 <= i < |log'| ensures i < |log| ==>
      log'[i] == log[i] && (Replayed(events, log[i].number) ==> Replayed(later, log[i].number)) {
      if i < |log| && Replayed(events, log[i].number) {
        ReplayedLater(events, later, log[i].number);
      }
    }
    if HasBaseline(events) {
      var i :| 0 <= i < |events| && events[i].core.draft.body.Baseline?;
      assert later[i] == events[i];
    } else {
      var i :| 0 <= i < |events| && events[i].core.draft.body.Created?;
      assert later[i] == events[i];
    }
  }

  lemma EndsWithItsTransition(db: Db, after: Db, events: seq<Event>, a: Action, n: Notes)
    requires Leased(db) && Admissible(db, a) && after == Apply(db, a) && after.log != db.log
    ensures after.log != [] && Drafts(db, after, events, a, n) != []
    ensures Last(Drafts(db, after, events, a, n)) == TransitionDraft(Last(after.log)) && db.log == Front(after.log)
  {
    hide Apply, Admissible, Leased, Uncapped, HasShape, RunDrafts, ReasonCode, OutcomeCode, MaxNumber;
    var shape := ShapeOf(db, a);
    LogsItsEntry(db, after, shape);
    if a.Claim? {
      ClaimLogs(db, a);
    }
  }

  lemma ClaimLogs(db: Db, a: Action)
    requires a.Claim? && Apply(db, a).log != db.log
    ensures Apply(db, a).task.status == WaitingUser
  {
    hide NextAttempt, MaxNumber, Uncapped;
  }

  lemma LogsItsEntry(db: Db, after: Db, shape: Shape)
    requires HasShape(db, after, shape) && after.log != db.log
    ensures after.log != [] && db.log == Front(after.log)
  {
    hide NextAttempt, MaxNumber, Uncapped, Bump, LastCapped, Moves;
    Extended(db.log, Last(after.log));
  }

  // ---------------------------------------------------------------- every reachable store

  ghost predicate Recorded(s: Store) {
    && Consistent(s.db) && Bare(s.db.runs)
    && Admitted(s.events, s.rows, s.db) && SameRefs(s.events)
    && (s.events != [] ==>
          && s.on && Agrees(Telling(s.events), s.db)
          && Accounted(s.events, Telling(s.events).coverage, s.db.log))
  }

  lemma NothingYet(log: seq<Transition>)
    ensures NeedsBaseline([], log)
    ensures Telling([]) == Told(None, None, map[])
  {
  }

  /** The baseline describes the task as it is, whatever happened before the writer was on. */
  lemma BaselineFollows(db: Db, id: EventId)
    requires Chained(db.log) && AppendAll([], [BaselineDraft(db.log)], [id], db).Some?
    ensures var based := AppendAll([], [BaselineDraft(db.log)], [id], db).value;
            && Follows(Telling(based), db) && Accounted(based, Telling(based).coverage, db.log) && RefsOf(based) == []
  {
    hide Admits;
    var d := BaselineDraft(db.log);
    var based := AppendAll([], [d], [id], db).value;
    AppendedIsHeard([], [d], [id], db);
    AppendedDraft([], [d], [id], db, 0);
    NothingYet(db.log);
    HearOne(Telling([]), db.task.revision, d);
    assert based[0].core.draft == d && Front(based) == [] && RefsOf([]) == [];
  }

  /** Where a transaction starts recording. */
  lemma BasedFollows(s: Store, a: Action, n: Notes)
    requires Recorded(s) && s.on && Baselined(s.events, s.db, a, n).Some?
    requires s.events != [] || ChecksBaseline(a)
    ensures var based := Baselined(s.events, s.db, a, n).value;
            && Follows(Telling(based), s.db) && Accounted(based, Telling(based).coverage, s.db.log)
               && RefsOf(based) == RefsOf(s.events)
            && Admitted(based, s.rows + Copies(s.db, |based| - |s.events|), s.db)
  {
    hide Consistent, Admitted, SameRefs, Telling, Follows, NeedsBaseline, TransitionsCovered, RefsOf, AppendAll;
    NothingYet(s.db.log);
    assert Chained(s.db.log) by {
      ConsistentParts(s.db);
    }
    if s.events == [] {
      BaselineFollows(s.db, n.baselineId);
      AdmitAll(s.events, s.rows, [BaselineDraft(s.db.log)], [n.baselineId], s.db);
      NoRefs();
    } else {
      assert s.rows + Copies(s.db, 0) == s.rows;
    }
  }

  lemma NoRefs()
    ensures RefsOf([]) == []
  {
  }

  lemma ConsistentParts(db: Db)
    requires Consistent(db)
    ensures Leased(db) && Chained(db.log)
  {
    hide SeededRows, Balanced, Leased, Ending, Bounded, Numbered, Recorded, Placed, WellFormed;
  }

  /** A commit cannot be the first event: its provider result has no dispatch intent before it. */
  lemma CommitNeedsEvents(db: Db, after: Db, a: Action, n: Notes)
    requires a.Commit? && RunOf(after.runs, a.token).Some?
    ensures AppendAll([], Drafts(db, after, [], a, n), n.ids, after).None?
  {
    hide RefTo, SessionDrafts, ReasonCode, OutcomeCode, SettledDraft, LastTransition;
    var drafts := Drafts(db, after, [], a, n);
    if AppendAll([], drafts, n.ids, after).Some? {
      assert IsProvider(drafts[0].body) && !drafts[0].body.DispatchIntent?;
      FirstIsNoResult([], drafts, n.ids, after);
    }
  }

  lemma {:induction false} FirstIsNoResult(events: seq<Event>, drafts: seq<Draft>, ids: seq<EventId>, db: Db)
    requires events == [] && AppendAll(events, drafts, ids, db).Some? && drafts != []
    ensures IsProvider(drafts[0].body) ==> drafts[0].body.DispatchIntent?
  {
    hide ValidDraft, EarlierRefs, ReplacesSession, HasId, IdentityOf;
    if |drafts| > 1 {
      FirstIsNoResult(events, Front(drafts), Front(ids), db);
    } else {
      assert Front(drafts) == [];
      NoPrior(Last(drafts).invocation);
    }
  }

  lemma NoPrior(invocation: Option<Token>)
    ensures Invoked([], invocation) == [] && Intents([]) == []
  {
  }

  lemma CodeWasValid(db: Db, after: Db, based: seq<Event>, a: Action, n: Notes)
    requires a.Commit? && after == Apply(db, a) && after != db
    requires AppendAll(based, Drafts(db, after, based, a, n), n.ids, after).Some?
    requires Leased(after)
    ensures OutcomeCode(a.result.outcome).Some? ==> ValidCode(OutcomeCode(a.result.outcome).value)
    ensures RunOf(after.runs, a.token).Some?
  {
    hide AppendAll, RunDrafts, OutcomeCode, CommitStep, LastTransition, ValidRefs, RefTo;
    CommittedRow(db, a.token, a.result, a.op);
    var k := FindRun(db.runs, a.token).value;
    UniqueRow(after.runs, k);
    var own := RunDrafts(db.profile, based, after.runs[k], a.result.classification, n);
    AppendedDraft(based, Drafts(db, after, based, a, n), n.ids, after, |own|);
    assert Drafts(db, after, based, a, n)[|own|] == SettledDraft(after.runs[k], a.result.classification, n);
  }

  lemma {:induction false} CoverageStays(t: Told, revision: nat, drafts: seq<Draft>)
    requires forall i :: 0 <= i < |drafts| ==> !drafts[i].body.Baseline?
    ensures HearAll(t, revision, drafts).coverage == t.coverage
  {
    hide TaskAfter, AttemptsAfter;
    if drafts != [] {
      CoverageStays(t, revision, Front(drafts));
      assert !drafts[|drafts| - 1].body.Baseline?;
    }
  }

  lemma NoBaselineDrafts(db: Db, after: Db, events: seq<Event>, a: Action, n: Notes)
    ensures forall i :: 0 <= i < |Drafts(db, after, events, a, n)| ==>
            !Drafts(db, after, events, a, n)[i].body.Baseline?
  {
    hide RunDrafts, ReasonCode, OutcomeCode, RefTo;
    if a.Commit? && RunOf(after.runs, a.token).Some? {
      RunDraftsNeutral(db.profile, events, RunOf(after.runs, a.token).value, a.result.classification, n);
    }
  }

  lemma KeepsRecorded(s: Store, a: Action, n: Notes)
    requires Recorded(s) && Admissible(s.db, a) && FreshRefs(s.events, n)
    ensures Recorded(ActStep(s, a, n))
  {
    hide Consistent, Apply, Admissible, Admitted, SameRefs, Agrees, Accounted, Telling, FreshRefs, Drafts;
    hide AppendAll, Baselined, Bare;
    var after := Apply(s.db, a);
    if after != s.db {
      ConsistentParts(s.db);
      LifecycleInvariants.KeepsConsistent(s.db, a);
      StepPrecedes(s.db, a);
      if !s.on {
        AdmitLater(s.events, s.rows, s.db, after);
        KeepsBare(s.db, a);
      } else if ActStep(s, a, n) != s {
        RecordedAct(s, a, n);
      }
    }
  }

  lemma KeepsBare(db: Db, a: Action)
    requires Leased(db) && Bare(db.runs) && Admissible(db, a)
    ensures Bare(Apply(db, a).runs)
  {
    hide NextAttempt, MaxNumber, Uncapped, UsedOp, Declares, TargetOf, Bump, KnownToken, LastCapped;
    if a.Claim? && Apply(db, a).task.status == Running && Apply(db, a) != db {
      BareLonger(db.runs, Last(Apply(db, a).runs));
    }
  }

  lemma RecordedAct(s: Store, a: Action, n: Notes)
    requires Recorded(s) && Admissible(s.db, a) && FreshRefs(s.events, n) && s.on
    requires Apply(s.db, a) != s.db && ActStep(s, a, n) != s
    requires Consistent(Apply(s.db, a)) && Precedes(s.db, Apply(s.db, a))
    ensures Recorded(ActStep(s, a, n))
  {
    hide Consistent, Apply, Admissible, Admitted, SameRefs, Agrees, Accounted, Telling, FreshRefs, Drafts;
    hide AppendAll, Baselined, Bare, Follows, Precedes;
    var after := Apply(s.db, a);
    var based := Baselined(s.events, s.db, a, n).value;
    var drafts := Drafts(s.db, after, based, a, n);
    var events := AppendAll(based, drafts, n.ids, after).value;
    ConsistentParts(s.db);
    ConsistentParts(after);
    if a.Commit? {
      BaselinedCommit(s.events, s.db, a, n);
      CodeWasValid(s.db, after, based, a, n);
      if s.events == [] {
        CommitNeedsEvents(s.db, after, a, n);
      }
    }
    BasedFollows(s, a, n);
    ActAgrees(Telling(based), s.db, a, based, n);
    AppendedIsHeard(based, drafts, n.ids, after);
    var rows := s.rows + Copies(s.db, |based| - |s.events|);
    AdmitLater(based, rows, s.db, after);
    AdmitAll(based, rows, drafts, n.ids, after);
    KeepsSameRefs(s.db, after, s.events, based, a, n);
    NoBaselineDrafts(s.db, after, based, a, n);
    CoverageStays(Telling(based), after.task.revision, drafts);
    if after.log != s.db.log {
      EndsWithItsTransition(s.db, after, based, a, n);
      AppendedDraft(based, drafts, n.ids, after, |drafts| - 1);
      assert drafts[|drafts| - 1] == TransitionDraft(Last(after.log));
      assert Replayed(events, Last(after.log).number) by {
        assert events[|based| + |drafts| - 1].core.draft == TransitionDraft(Last(after.log));
      }
    }
    KeepsAccount(based, events, Telling(based).coverage, s.db.log, after.log);
  }

  lemma BaselinedCommit(events: seq<Event>, db: Db, a: Action, n: Notes)
    requires a.Commit?
    ensures Baselined(events, db, a, n) == Some(events)
  {
  }

  lemma SubmissionIsRecorded(s: Store)
    requires Recording(s)
    ensures Recorded(s)
  {
    hide Admits, FreshlySubmitted, Consistent, AppendAll, NeedsBaseline;
    SubmittedIsConsistent(s.db);
    SubmittedRows(s.db);
    if s.on {
      var drafts := [TaskDraft(Created)] + LastTransition(s.db.log);
      var ids :| AppendAll([], drafts, ids, s.db) == Some(s.events);
      AdmitAll([], [], drafts, ids, s.db);
      assert [] + Copies(s.db, 2) == s.rows;
      CreatedAgrees(s.db, ids, s.events);
    }
  }

  lemma SubmittedRows(db: Db)
    requires FreshlySubmitted(db)
    ensures db.runs == [] && |db.log| == 1 && db.log[0].to == Queued && db.log[0].number == 1
            && db.task.status == Queued && db.task.revision == 0
  {
    hide SeededRows, WellFormed;
  }

  lemma CreatedAgrees(db: Db, ids: seq<EventId>, events: seq<Event>)
    requires AppendAll([], [TaskDraft(Created)] + LastTransition(db.log), ids, db) == Some(events)
    requires db.runs == [] && |db.log| == 1 && db.log[0].to == Queued && db.log[0].number == 1
             && db.task.status == Queued && db.task.revision == 0
    ensures events != [] && Agrees(Telling(events), db) && Accounted(events, Telling(events).coverage, db.log)
            && SameRefs(events)
    ensures Telling(events).coverage == None
  {
    hide Admits, ReasonCode, OutcomeCode, AppendAll, Telling, RefsOf;
    var t := TransitionDraft(db.log[0]);
    var drafts := [TaskDraft(Created)] + LastTransition(db.log);
    assert drafts == [TaskDraft(Created), t];
    AppendedIsHeard([], drafts, ids, db);
    NothingYet(db.log);
    HearConcat(Telling([]), 0, [TaskDraft(Created)], [t]);
    HearOne(Telling([]), 0, TaskDraft(Created));
    HearOne(HearAll(Telling([]), 0, [TaskDraft(Created)]), 0, t);
    AppendedDraft([], drafts, ids, db, 0);
    AppendedDraft([], drafts, ids, db, 1);
    assert events[0].core.draft == TaskDraft(Created) && events[1].core.draft == t;
    assert Replayed(events, db.log[0].number);
    NoRefs();
    forall r | r in RefsOf(events) ensures false {
      AppendedRefs([], drafts, ids, db, r);
    }
  }

  lemma KeepsRecordedStep(s: Store, step: RecordedStep)
    requires Recorded(s) && Allowed(s, step)
    ensures Recorded(TakeStep(s, step))
  {
    hide Consistent, Admitted, SameRefs, Agrees, Accounted, Telling, FreshRefs, Bare, ActStep, Admissible;
    if step.Act? {
      KeepsRecorded(s, step.action, step.notes);
    }
  }

  lemma {:induction false} EveryStoreIsRecorded(s: Store, steps: seq<RecordedStep>)
    requires Recording(s) && AllAllowed(s, steps)
    ensures Recorded(RunSteps(s, steps))
  {
    hide Recording, Recorded, Allowed, TakeStep;
    if steps == [] {
      SubmissionIsRecorded(s);
    } else {
      EveryStoreIsRecorded(s, Front(steps));
      KeepsRecordedStep(RunSteps(s, Front(steps)), Last(steps));
    }
  }

  // ---------------------------------------------------------------- the frozen inventory agrees

  lemma {:induction false} TableMeans(refs: seq<Ref>)
    requires OneRefPerId(refs)
    ensures !TableOf(refs).clash
    ensures forall id :: id in TableOf(refs).table <==> exists r :: r in refs && r.id == id
    ensures forall r :: r in refs ==> r.id in TableOf(refs).table && TableOf(refs).table[r.id] == Describe(r)
  {
    if refs != [] {
      var front, last := Front(refs), Last(refs);
      forall r | r in front ensures r in refs {
      }
      TableMeans(front);
      assert last in refs;
      FrontLast(refs);
      forall id ensures id in TableOf(refs).table <==> exists r :: r in refs && r.id == id {
        if exists r :: r in front && r.id == id {
          var r :| r in front && r.id == id;
          assert r in refs;
        }
      }
    }
  }

  lemma {:induction false} InventoryMeans(items: seq<Item>)
    requires forall a, b :: 0 <= a < b < |items| ==> items[a].id != items[b].id
    ensures forall i :: i in items ==> i.id in InventoryOf(items) && InventoryOf(items)[i.id] == i
    ensures forall id :: id in InventoryOf(items) ==> InventoryOf(items)[id] in items && InventoryOf(items)[id].id == id
  {
    if items != [] {
      InventoryMeans(Front(items));
      FrontLast(items);
      forall i | i in Front(items) ensures i.id != Last(items).id {
        var k :| 0 <= k < |Front(items)| && Front(items)[k] == i;
        assert items[k].id != items[|items| - 1].id;
      }
    }
  }

  lemma InventoryKeys(refs: seq<Ref>, available: Ref -> Availability, items: seq<Item>, id: RefId)
    requires Inventoried(refs, available, items)
    ensures (exists i :: i in items && i.id == id) <==> (exists r :: r in refs && r.id == id)
  {
    if i :| i in items && i.id == id {
      var k :| 0 <= k < |items| && items[k] == i;
      var m :| 0 <= m < |refs| && items[k] == ItemOf(refs[m], available);
      assert refs[m] in refs && refs[m].id == id;
    }
    if r :| r in refs && r.id == id {
      assert ItemOf(r, available) in items && ItemOf(r, available).id == id;
    }
  }

  lemma ItemsAvailable(refs: seq<Ref>, available: Ref -> Availability, items: seq<Item>)
    requires Inventoried(refs, available, items)
    ensures AnyCorrupt(items) <==> exists r :: r in refs && available(r) == Corrupt
  {
    if r :| r in refs && available(r) == Corrupt {
      var k :| 0 <= k < |items| && items[k] == ItemOf(r, available);
      assert items[k].availability == Corrupt;
    }
    if AnyCorrupt(items) {
      var k :| 0 <= k < |items| && items[k].availability == Corrupt;
      var i :| 0 <= i < |refs| && items[k] == ItemOf(refs[i], available);
      assert refs[i] in refs;
    }
  }

  lemma InventoryIsRight(refs: seq<Ref>, available: Ref -> Availability, items: seq<Item>)
    requires OneRefPerId(refs) && Inventoried(refs, available, items)
    ensures !TableOf(refs).clash && InventoryAgrees(InventoryOf(items), TableOf(refs).table)
    ensures AnyCorrupt(items) <==> exists r :: r in refs && available(r) == Corrupt
  {
    hide TableOf, InventoryOf, OneRefPerId, AnyCorrupt;
    TableMeans(refs);
    InventoryMeans(items);
    ItemsAvailable(refs, available, items);
    var inventory, table := InventoryOf(items), TableOf(refs).table;
    forall id ensures id in inventory <==> id in table {
      InventoryKeys(refs, available, items, id);
    }
    forall id | id in table && id in inventory ensures inventory[id].described == table[id] {
      var r :| r in refs && r.id == id;
      assert ItemOf(r, available) in items;
    }
  }

  // ---------------------------------------------------------------- the result

  /** Some referenced artifact is found damaged. */
  ghost predicate Damaged(events: seq<Event>, available: Ref -> Availability) {
    exists r :: r in RefsOf(events) && available(r) == Corrupt
  }

  lemma FaultsOfRecorded(s: Store, available: Ref -> Availability, snapshot: Snapshot)
    requires Recorded(s) && Frozen(s.events, s.db, available, snapshot)
    ensures Readable(s.events) == s.events
    ensures FaultsOf(snapshot) == When(EvidenceCorrupt, Damaged(s.events, available))
            + When(CanonicalMismatch, s.events == [])
  {
    hide Readable, ChainOf, ViewOf, ExchangeOf, RefsOf, TableOf, InventoryOf, Rows, ManifestFor, Consistent;
    hide Admitted, Matches, Bare, NextPrev;
    hide TransitionsCovered, NeedsBaseline, InventoryAgrees, Inventoried, AnyCorrupt, UniqueRuns;
    ConsistentParts(s.db);
    assert UniqueRuns(s.db.runs) by {
      LeasedIsUnique(s.db);
    }
    AdmittedReplaysClean(s.events, s.rows, s.db);
    InventoryIsRight(RefsOf(s.events), available, snapshot.inventory);
    RowsDoNotMatter(s.events, Rows(s.db.runs));
    AttemptsAreRight(s);
    NothingYet(s.db.log);
  }

  lemma LeasedIsUnique(db: Db)
    requires Leased(db)
    ensures UniqueRuns(db.runs)
  {
  }

  lemma AttemptsAreRight(s: Store)
    requires Recorded(s)
    ensures AttemptsAgree(Telling(s.events).attempts, Rows(s.db.runs))
  {
    hide Rows, Admitted, SameRefs, Bare, Accounted, ExpectedAttempt, Consistent, UniqueRuns;
    ConsistentParts(s.db);
    LeasedIsUnique(s.db);
    NothingYet(s.db.log);
    forall token | token in Telling(s.events).attempts && token in Rows(s.db.runs)
      ensures Telling(s.events).attempts[token] == ExpectedAttempt(Rows(s.db.runs)[token]) {
      RowsLookup(s.db.runs, token);
    }
  }

  // ---------------------------------------------------------------- nothing is missing

  /** The event that opens or closes this run. */
  predicate Names(d: Draft, token: Token) {
    (d.body.StageClaimed? || d.body.StageSettled?) && d.run.Some? && d.run.value.token == token
  }

  lemma {:induction false} HearKeeps(t: Told, revision: nat, drafts: seq<Draft>)
    ensures t.attempts.Keys <= HearAll(t, revision, drafts).attempts.Keys
  {
    hide TaskAfter;
    if drafts != [] {
      HearKeeps(t, revision, Front(drafts));
    }
  }

  lemma {:induction false} NamedIsHeard(t: Told, revision: nat, drafts: seq<Draft>, i: nat, token: Token)
    requires i < |drafts| && Names(drafts[i], token)
    ensures token in HearAll(t, revision, drafts).attempts
  {
    hide TaskAfter;
    if i < |drafts| - 1 {
      assert Front(drafts)[i] == drafts[i];
      NamedIsHeard(t, revision, Front(drafts), i, token);
      HearKeeps(HearAll(t, revision, Front(drafts)), revision, [Last(drafts)]);
    }
  }

  ghost predicate NamedBy(drafts: seq<Draft>, token: Token) {
    exists i :: 0 <= i < |drafts| && Names(drafts[i], token)
  }

  /** A transaction that inserts a run names it in one of its events. */
  lemma NewRunIsNamed(db: Db, a: Action, events: seq<Event>, n: Notes, j: nat)
    requires j < |Apply(db, a).runs|
    ensures var after := Apply(db, a);
            KnownToken(db.runs, after.runs[j].token) || NamedBy(Drafts(db, after, events, a, n), after.runs[j].token)
  {
    hide NextAttempt, MaxNumber, Uncapped, Bump, LastCapped, UsedOp, TargetOf, Declares, RunDrafts, ReasonCode;
    hide OutcomeCode;
    var after := Apply(db, a);
    if j < |db.runs| {
      assert after.runs[j].token == db.runs[j].token;
    } else {
      assert after.runs[j] == Last(after.runs);
      assert Names(Drafts(db, after, events, a, n)[0], after.runs[j].token);
    }
  }

  /** Every row is an attempt of the replay, unless it is one of these. */
  ghost predicate Heard(s: Store, unheard: seq<StageRun>) {
    forall j :: 0 <= j < |s.db.runs| ==>
                  s.db.runs[j].token in Telling(s.events).attempts || KnownToken(unheard, s.db.runs[j].token)
  }

  lemma HeardStep(s: Store, step: RecordedStep, unheard: seq<StageRun>)
    requires s.on && Heard(s, unheard)
    ensures Heard(TakeStep(s, step), unheard)
  {
    hide Telling, Drafts, Apply, AppendAll, HearAll, KnownToken, NeedsBaseline;
    var next := TakeStep(s, step);
    if next != s {
      var a, n := step.action, step.notes;
      var after, based := Apply(s.db, a), Baselined(s.events, s.db, a, n).value;
      var drafts := Drafts(s.db, after, based, a, n);
      BasedHears(s, a, n);
      AppendedIsHeard(based, drafts, n.ids, after);
      HearKeeps(Telling(based), after.task.revision, drafts);
      forall j | 0 <= j < |after.runs|
        ensures after.runs[j].token in Telling(next.events).attempts || KnownToken(unheard, after.runs[j].token) {
        NewRunIsNamed(s.db, a, based, n, j);
        if KnownToken(s.db.runs, after.runs[j].token) {
          KnownIsHeard(s, unheard, after.runs[j].token);
        } else {
          var i :| 0 <= i < |drafts| && Names(drafts[i], after.runs[j].token);
          NamedIsHeard(Telling(based), after.task.revision, drafts, i, after.runs[j].token);
        }
      }
    }
  }

  lemma KnownIsHeard(s: Store, unheard: seq<StageRun>, token: Token)
    requires Heard(s, unheard) && KnownToken(s.db.runs, token)
    ensures token in Telling(s.events).attempts || KnownToken(unheard, token)
  {
    hide Telling;
    var i :| 0 <= i < |s.db.runs| && s.db.runs[i].token == token;
  }

  lemma BasedHears(s: Store, a: Action, n: Notes)
    requires Baselined(s.events, s.db, a, n).Some?
    ensures Telling(s.events).attempts.Keys <= Telling(Baselined(s.events, s.db, a, n).value).attempts.Keys
  {
    hide Telling, AppendAll, HearAll, NeedsBaseline;
    if ChecksBaseline(a) && NeedsBaseline(s.events, s.db.log) {
      AppendedIsHeard(s.events, [BaselineDraft(s.db.log)], [n.baselineId], s.db);
      HearKeeps(Telling(s.events), s.db.task.revision, [BaselineDraft(s.db.log)]);
    }
  }

  /** A baseline is there exactly when the writer was off at submission and something has been recorded since. */
  ghost predicate Baselines(start: Store, s: Store) {
    && (start.on ==> s.on && s.events != [])
    && (s.events != [] ==> (Telling(s.events).coverage.Some? <==> !start.on))
  }

  lemma BaselinesStart(start: Store)
    requires Recording(start)
    ensures Baselines(start, start) && start.db.runs == []
  {
    hide FreshlySubmitted, AppendAll, Telling, Agrees, TransitionsCovered, NeedsBaseline, SameRefs;
    SubmittedRows(start.db);
    if start.on {
      var ids :| AppendAll([], [TaskDraft(Created)] + LastTransition(start.db.log), ids, start.db) ==
        Some(start.events);
      CreatedAgrees(start.db, ids, start.events);
    }
  }

  lemma BaselinesStep(start: Store, s: Store, step: RecordedStep)
    requires Recorded(s) && Allowed(s, step) && Baselines(start, s)
    ensures Baselines(start, TakeStep(s, step))
  {
    hide Consistent, Bare, Admitted, SameRefs, Agrees, Telling, Drafts, Apply, Admissible, FreshRefs, AppendAll;
    hide HearAll;
    hide TransitionsCovered, NeedsBaseline;
    var next := TakeStep(s, step);
    if next != s && step.Act? && s.on {
      var a, n := step.action, step.notes;
      var after, based := Apply(s.db, a), Baselined(s.events, s.db, a, n).value;
      var drafts := Drafts(s.db, after, based, a, n);
      AppendedIsHeard(based, drafts, n.ids, after);
      NoBaselineDrafts(s.db, after, based, a, n);
      CoverageStays(Telling(based), after.task.revision, drafts);
      if s.events == [] {
        NothingYet(s.db.log);
        NoCommitFirst(s, a, n);
        var d := BaselineDraft(s.db.log);
        AppendedIsHeard([], [d], [n.baselineId], s.db);
        HearOne(Telling([]), s.db.task.revision, d);
      }
    }
  }

  /** Nothing is recorded by a commit before anything else has been. */
  lemma NoCommitFirst(s: Store, a: Action, n: Notes)
    requires Recorded(s) && Admissible(s.db, a) && s.events == [] && s.on && ActStep(s, a, n) != s
    ensures !a.Commit?
  {
    hide Consistent, Bare, Admitted, SameRefs, Agrees, Telling, Drafts, Apply, Admissible, AppendAll, Accounted;
    if a.Commit? {
      var after := Apply(s.db, a);
      KeepsConsistent(s.db, a);
      ConsistentParts(after);
      BaselinedCommit(s.events, s.db, a, n);
      CodeWasValid(s.db, after, [], a, n);
      CommitNeedsEvents(s.db, after, a, n);
    }
  }

  lemma {:induction false} EveryStoreBaselines(start: Store, steps: seq<RecordedStep>)
    requires Recording(start) && AllAllowed(start, steps)
    ensures Baselines(start, RunSteps(start, steps))
  {
    hide Recording, Allowed, TakeStep, Baselines, Recorded;
    if steps == [] {
      BaselinesStart(start);
    } else {
      EveryStoreBaselines(start, Front(steps));
      EveryStoreIsRecorded(start, Front(steps));
      BaselinesStep(start, RunSteps(start, Front(steps)), Last(steps));
    }
  }

  /** Every run begun since the writer is on is replayed, whenever it was turned on. */
  lemma {:induction false} RunsAreReplayed(start: Store, steps: seq<RecordedStep>, more: seq<RecordedStep>)
    requires RunSteps(start, steps).on
    ensures RunSteps(start, steps + more).on && Heard(RunSteps(start, steps + more), RunSteps(start, steps).db.runs)
  {
    hide TakeStep, Telling;
    if more == [] {
      assert steps + more == steps;
    } else {
      assert Front(steps + more) == steps + Front(more) && Last(steps + more) == Last(more);
      RunsAreReplayed(start, steps, Front(more));
      HeardStep(RunSteps(start, steps + Front(more)), Last(more), RunSteps(start, steps).db.runs);
      StaysOn(RunSteps(start, steps + Front(more)), Last(more));
    }
  }

  lemma StaysOn(s: Store, step: RecordedStep)
    requires s.on
    ensures TakeStep(s, step).on
  {
    hide Apply, Baselined, AppendAll, Drafts;
  }

  lemma HeardMeans(start: Store, s: Store)
    requires Recorded(s) && Heard(s, start.db.runs) && start.db.runs == [] && s.events != []
    ensures forall token :: token in Telling(s.events).attempts <==> RunOf(s.db.runs, token).Some?
  {
    hide Consistent, Bare, Admitted, SameRefs, Accounted, Telling, ExpectedAttempt;
    forall token ensures token in Telling(s.events).attempts <==> RunOf(s.db.runs, token).Some? {
    }
  }

  /**
   In every reachable state of a recorded controller: freezing succeeds, the replay of the frozen
   snapshot calls the record corrupt exactly when a referenced artifact is damaged, finds a mismatch
   exactly while nothing has been recorded yet, and otherwise shows the very task and attempts of the rows.
   With the writer on since submission every row is there; otherwise the record never calls itself complete.
   */
  lemma ReplayAgrees(start: Store, steps: seq<RecordedStep>, available: Ref -> Availability, snapshot: Snapshot)
    requires Recording(start) && AllAllowed(start, steps)
    requires Frozen(RunSteps(start, steps).events, RunSteps(start, steps).db, available, snapshot)
    ensures var s, p := RunSteps(start, steps), Reduced(snapshot);
            && (p.integrity == CorruptRecord <==> Damaged(s.events, available))
            && (p.integrity == Mismatch <==> s.events == [])
            && (s.events != [] ==>
                  && p.task == Some(TaskView(s.db.task.revision, Some(s.db.task.status), Some(|s.db.log|)))
                  && (forall token :: token in p.attempts ==>
                        RunOf(s.db.runs, token).Some? && p.attempts[token] ==
                          ExpectedAttempt(RunOf(s.db.runs, token).value)))
            && (start.on ==> s.events != [] && forall token :: token in p.attempts <==> RunOf(s.db.runs, token).Some?)
            && (p.completeness == Lacking <==> Damaged(s.events, available) || s.events == [] || Unsure(snapshot))
            && (p.completeness == Partial ==> !start.on) && (p.completeness == Complete ==> start.on)
  {
    hide RunSteps, Recording, AllAllowed, Frozen, FaultsOf, Unsure, ExchangeOf, Consistent, Admitted, SameRefs;
    hide Bare, Accounted, ExpectedAttempt, Rows, ViewOf;
    hide RunOf, Heard;
    var s := RunSteps(start, steps);
    EveryStoreIsRecorded(start, steps);
    FaultsOfRecorded(s, available, snapshot);
    SnapshotParts(s, available, snapshot);
    RowsDoNotMatter(s.events, Rows(s.db.runs));
    EveryStoreBaselines(start, steps);
    if s.events == [] {
      NothingDamaged(available);
    }
    if start.on {
      BaselinesStart(start);
      StartRun(start);
      assert [] + steps == steps;
      RunsAreReplayed(start, [], steps);
      HeardMeans(start, s);
    }
  }

  lemma StartRun(start: Store)
    ensures RunSteps(start, []) == start
  {
  }

  lemma NothingDamaged(available: Ref -> Availability)
    ensures !Damaged([], available)
  {
  }

  lemma SnapshotParts(s: Store, available: Ref -> Availability, snapshot: Snapshot)
    requires Frozen(s.events, s.db, available, snapshot)
    ensures snapshot.events == s.events && snapshot.state == s.db
  {
    hide Inventoried;
  }

  /** Freezing never fails on such a record: no reference identifier ever changes what it stands for. */
  method FreezeAndReduce(s: Store, available: Ref -> Availability) returns (p: Projection)
    requires Recorded(s)
    ensures exists snapshot :: Frozen(s.events, s.db, available, snapshot) && p == Reduced(snapshot)
  {
    hide Frozen, Reduced, RefsOf, Consistent, Admitted, Agrees, Accounted, Bare;
    var snapshot := FreezeSnapshot(s.events, s.db, available);
    p := ReduceSnapshot(snapshot.value);
  }
}

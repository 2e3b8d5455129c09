/**
 The bound on the automatic loop counts the findings of its opening review: the last one before the first
 correction. Whether the findings of the very first review would do is a property of the profile's graph,
 and it is decided here exactly (orchestrator/controller.py:1167-1193, 1287-1306).
 */
module FirstReviewBound {
  import opened Prelude
  import opened Profiles
  import opened GateGraph
  import opened Convergence
  import opened Lifecycle
  import opened LifecycleInvariants
  import opened ConvergenceLoop

  // ---------------------------------------------------------------- the graph condition

  ghost predicate OrdinaryWalk(p: Profile, w: seq<Name>) {
    w != [] && forall i: nat :: i + 1 < |w| ==> Leads(p, w[i], w[i + 1])
  }

  /** Corrections only, then two adjacent reviews. */
  ghost predicate TwinFront(p: Profile, w: seq<Name>, k: nat) {
    && k + 1 < |w|
    && (forall m: nat :: m < k ==> StageArity(p, w[m]) == Correction)
    && StageArity(p, w[k]) == Branching && StageArity(p, w[k + 1]) == Branching
  }

  /** A stage is entered twice from the second of two adjacent opening reviews on. */
  ghost predicate Twin(p: Profile, w: seq<Name>, k: nat, i: nat, j: nat) {
    OrdinaryWalk(p, w) && TwinFront(p, w, k) && k + 1 <= i < j < |w| && w[i] == w[j]
  }

  /** From this stage the first review can be followed by another one that begins a loop. */
  ghost predicate HasTwin(p: Profile, from: Name) {
    exists w, k: nat, i: nat, j: nat :: Twin(p, w, k, i, j) && w[0] == from
  }

  lemma SameFront(p: Profile, w: seq<Name>, other: seq<Name>, k: nat)
    requires TwinFront(p, w, k) && k + 1 < |other| && forall m: nat :: m <= k + 1 ==> other[m] == w[m]
    ensures TwinFront(p, other, k)
  {
    hide StageArity;
  }

  // ---------------------------------------------------------------- the bound by the first review

  function FirstReview(p: Profile, runs: seq<CommittedRun>): (f: Option<nat>)
    ensures f.Some? ==> f.value < |runs|
  {
    ReviewFrom(p, runs, 0)
  }

  function ReviewFrom(p: Profile, runs: seq<CommittedRun>, from: nat): (f: Option<nat>)
    requires from <= |runs|
    ensures f.Some? ==> f.value < |runs|
    decreases |runs| - from
  {
    if from == |runs| then None
    else if Review(p, runs[from]) then Some(from) else ReviewFrom(p, runs, from + 1)
  }

  lemma {:induction false} ReviewFromIs(p: Profile, runs: seq<CommittedRun>, from: nat)
    requires from <= |runs|
    ensures ReviewFrom(p, runs, from).Some? ==> from <= ReviewFrom(p, runs, from).value
    ensures ReviewFrom(p, runs, from).Some? ==> Review(p, runs[ReviewFrom(p, runs, from).value])
    ensures forall i :: from <= i < |runs| && Review(p, runs[i]) ==>
                          ReviewFrom(p, runs, from).Some? && ReviewFrom(p, runs, from).value <= i
    decreases |runs| - from
  {
    hide Review;
    if from < |runs| {
      ReviewFromIs(p, runs, from + 1);
    }
  }

  lemma FirstReviewIs(p: Profile, runs: seq<CommittedRun>)
    ensures FirstReview(p, runs).Some? ==> Review(p, runs[FirstReview(p, runs).value])
    ensures forall i :: 0 <= i < |runs| && Review(p, runs[i]) ==>
                          FirstReview(p, runs).Some? && FirstReview(p, runs).value <= i
  {
    hide Review, ReviewFrom;
    ReviewFromIs(p, runs, 0);
  }

  ghost function FirstBound(p: Profile, runs: seq<CommittedRun>): (bound: int) {
    if FirstReview(p, runs).None? then |Enterable(p, false)|
      else CountedBy(p, LiveSize(p, runs[FirstReview(p, runs).value]))
  }

  ghost function CountedBy(p: Profile, live: nat): (bound: int) {
    |Enterable(p, true)| * (live + 1) + |Enterable(p, false)| * (live + 2)
  }

  lemma CountedByMore(p: Profile, live: nat, more: nat)
    requires live <= more
    ensures CountedBy(p, live) <= CountedBy(p, more)
  {
    hide Enterable;
    RoomMonotone(|Enterable(p, true)|, |Enterable(p, false)|, live + 1, live + 2, more + 1, more + 2);
  }

  lemma OpeningIsReview(p: Profile, runs: seq<CommittedRun>)
    ensures Opening(p, runs).Some? ==>
            && FirstReview(p, runs).Some?
            && FirstReview(p, runs).value <= Opening(p, runs).value
    ensures Opening(p, runs).None? ==> FirstReview(p, runs).None?
  {
    hide Review, Opening, FirstReview;
    FirstReviewIs(p, runs);
    OpeningWithReviews(p, runs);
    if Opening(p, runs).None? && FirstReview(p, runs).Some? {
      LastReviewIsLast(p, runs, FirstReview(p, runs).value);
    }
  }

  /** Unless a second review follows at once, the opening review is the first one. */
  lemma {:induction false} OpeningIsFirst(p: Profile, runs: seq<CommittedRun>)
    requires FirstReview(p, runs).Some?
    requires FirstReview(p, runs).value + 1 < |runs| ==> !Review(p, runs[FirstReview(p, runs).value + 1])
    ensures Opening(p, runs) == FirstReview(p, runs)
  {
    hide Review, FirstReview;
    FirstReviewIs(p, runs);
    FirstReviewIs(p, Front(runs));
    var f := FirstReview(p, runs).value;
    OpeningWithReviews(p, runs);
    OpeningWithReviews(p, Front(runs));
    assert forall i :: 0 <= i < |Front(runs)| ==> Front(runs)[i] == runs[i];
    if f + 1 == |runs| {
      assert LastReview(p, Front(runs)).None?;
    } else {
      assert FirstReview(p, Front(runs)) == Some(f);
      OpeningIsFirst(p, Front(runs));
      assert runs[|runs| - 2] == Last(Front(runs));
    }
  }

  // ---------------------------------------------------------------- when it holds

  function Stages(runs: seq<CommittedRun>): (w: seq<Name>) {
    seq(|runs|, i requires 0 <= i < |runs| => runs[i].stage)
  }

  /** A stage entered twice from the first of two adjacent reviews on is a loop behind the second. */
  lemma RepeatIsTwin(p: Profile, w: seq<Name>, f: nat, i: nat, j: nat)
    requires OrdinaryWalk(p, w) && TwinFront(p, w, f) && f <= i < j < |w| && w[i] == w[j]
    ensures HasTwin(p, w[0])
  {
    hide StageArity, Leads, TwinFront;
    assert f + 1 < |w|;
    if f < i {
      assert Twin(p, w, f, i, j);
    } else {
      var again := w[..j + 1] + [w[f + 1]];
      SameFront(p, w, again, f);
      assert Twin(p, again, f, f + 1, j + 1);
    }
  }

  lemma RunArity(p: Profile, h: seq<CommittedRun>, runs: seq<CommittedRun>, i: nat)
    requires Segment(p, h, runs) && i < |runs|
    ensures Review(p, runs[i]) <==> StageArity(p, runs[i].stage) == Branching
    ensures !Review(p, runs[i]) <==> StageArity(p, runs[i].stage) == Correction
  {
    hide WentOn, Reachable, Targets;
  }

  /** The corrections in front of the first review. */
  lemma LeadInFits(p: Profile, h: seq<CommittedRun>, runs: seq<CommittedRun>, f: nat)
    requires EveryLoopScored(p) && Segment(p, h, runs) && f <= |runs|
    requires forall i :: 0 <= i < f ==> !Review(p, runs[i])
    ensures f <= |Enterable(p, false)|
  {
    hide WentOn, Reachable, EveryLoopScored, Review, Enterable, Targets, HasCycleIn;
    if f > 0 {
      var w := Stages(runs)[..f];
      forall i | 0 <= i < |w| ensures w[i] in Enterable(p, false) {
        EnterableStage(p, h, runs, i);
      }
      assert Path(p, w);
      OneArityIsAcyclic(p, false);
      AcyclicWalkFits(p, Enterable(p, false), w);
    }
  }

  lemma EnteredOnceFits(p: Profile, h: seq<CommittedRun>, runs: seq<CommittedRun>, f: nat)
    requires Segment(p, h, runs) && f <= |runs|
    requires forall i, j :: f <= i < j < |runs| ==> runs[i].stage != runs[j].stage
    ensures |runs| - f <= |Enterable(p, true)| + |Enterable(p, false)|
  {
    hide Segment, Review, Enterable;
    var w := Stages(runs)[f..];
    var all := Enterable(p, true) + Enterable(p, false);
    forall x | x in w ensures x in all {
      var i :| 0 <= i < |w| && w[i] == x;
      EnterableStage(p, h, runs, f + i);
    }
    DistinctFits(w, all);
    UnionFits(Enterable(p, true), Enterable(p, false));
  }

  lemma UnionFits<T>(a: set<T>, b: set<T>)
    ensures |a + b| <= |a| + |b|
  {
    assert a + b == a + (b - a);
    assert |a + (b - a)| == |a| + |b - a|;
    assert b == (b - a) + (b * a);
  }

  /** Where no loop lies behind two adjacent opening reviews, the first review bounds the stretch. */
  lemma NoTwinFirstSuffices(p: Profile, h: seq<CommittedRun>, runs: seq<CommittedRun>)
    requires EveryLoopScored(p) && Segment(p, h, runs) && runs != [] && OrdinaryWalk(p, Stages(runs))
    requires !HasTwin(p, runs[0].stage)
    ensures |runs| <= FirstBound(p, runs)
  {
    hide Segment, EveryLoopScored, Review, Enterable, LiveSize, FirstReview, Opening, HasTwin, StageArity;
    FirstReviewIs(p, runs);
    OpeningIsReview(p, runs);
    SegmentIsBounded(p, h, runs);
    if FirstReview(p, runs).Some? {
      var f := FirstReview(p, runs).value;
      if f + 1 < |runs| && Review(p, runs[f + 1]) {
        var w := Stages(runs);
        forall i: nat | i < |runs|
          ensures (Review(p, runs[i]) <==> StageArity(p, w[i]) == Branching)
                  && (!Review(p, runs[i]) <==> StageArity(p, w[i]) == Correction) {
          RunArity(p, h, runs, i);
        }
        forall i, j | f <= i < j < |runs| ensures runs[i].stage != runs[j].stage {
          if runs[i].stage == runs[j].stage {
            RepeatIsTwin(p, w, f, i, j);
          }
        }
        LeadInFits(p, h, runs, f);
        EnteredOnceFits(p, h, runs, f);
        CountedByMore(p, 0, LiveSize(p, runs[f]));
      } else {
        OpeningIsFirst(p, runs);
      }
    }
  }

  /** A stretch that starts with something to be scored against is bounded by its first review too. */
  lemma ScoredFirstSuffices(p: Profile, h: seq<CommittedRun>, runs: seq<CommittedRun>, q: nat)
    requires EveryLoopScored(p) && Segment(p, h, runs) && Qualifies(p, h, q)
    ensures |runs| <= FirstBound(p, runs)
  {
    hide EveryLoopScored, Review, Enterable, FirstReview, Opening, ReadRun, Qualifies, StageArity, Reachable, Targets;
    hide Tampered, EverResolved, IsPrior;
    FirstReviewIs(p, runs);
    OpeningIsReview(p, runs);
    SegmentIsBounded(p, h, runs);
    if FirstReview(p, runs).Some? {
      var f, o := FirstReview(p, runs).value, Opening(p, runs).value;
      if f < o {
        ReviewArity(p, runs[f]);
        assert WentOn(p, h + runs[..f], runs[f]);
        var c :| Scored(p, h + runs[..f], runs[f], c);
        QualifiesIsUsable(p, h, q);
        HistoryExtends(p, h, h + runs[..f], q);
        assert c.Repeat?;
        RepeatsOnlyShrink(p, h, runs, f, c, o);
        FewerIn(ReadRun(p, runs[o]).record.live, ReadRun(p, runs[f]).record.live);
        CountedByMore(p, LiveSize(p, runs[o]), LiveSize(p, runs[f]));
      }
    }
  }

  lemma FewerIn<T>(a: set<T>, b: set<T>)
    requires a <= b
    ensures |a| <= |b|
  {
    assert b == a + (b - a);
  }

  /** The runs a stretch of turns has committed. */
  ghost function Since(db: Db, later: Db): (runs: seq<CommittedRun>) {
    if HistoryOf(db) <= HistoryOf(later) then HistoryOf(later)[|HistoryOf(db)|..] else []
  }

  ghost predicate Outlasts(db: Db, states: seq<Db>) {
    && Loops(states) && states[0] == db
    && |states| - 1 > FirstBound(db.profile, Since(db, Last(states)))
  }

  /** No automatic stretch from here is longer than its first review allows. */
  ghost predicate FirstReviewBounds(db: Db) {
    forall states :: !Outlasts(db, states)
  }

  /** From any state of any task, with whatever history. */
  lemma FirstReviewHolds(db: Db)
    requires EveryLoopScored(db.profile)
    requires !HasTwin(db.profile, db.task.stage) || exists q: nat :: Qualifies(db.profile, HistoryOf(db), q)
    ensures FirstReviewBounds(db)
  {
    hide EveryLoopScored, HasTwin, Qualifies, HistoryOf, FirstBound, Turns, Consistent;
    forall states ensures !Outlasts(db, states) {
      if Loops(states) && states[0] == db {
        StretchHolds(db, states);
      }
    }
  }

  lemma StretchHolds(db: Db, states: seq<Db>)
    requires Loops(states) && states[0] == db && EveryLoopScored(db.profile)
    requires !HasTwin(db.profile, db.task.stage) || exists q: nat :: Qualifies(db.profile, HistoryOf(db), q)
    ensures |states| - 1 <= FirstBound(db.profile, Since(db, Last(states)))
  {
    hide EveryLoopScored, HasTwin, Segment, Qualifies, HistoryOf, FirstBound, Loops, Consistent, Leads;
    var p, h := db.profile, HistoryOf(db);
    var runs := LoopIsSegment(states);
    assert HistoryOf(Last(states))[|h|..] == runs;
    if !HasTwin(p, db.task.stage) {
      if runs == [] {
        EmptyBound(p);
      } else {
        assert OrdinaryWalk(p, Stages(runs));
        NoTwinFirstSuffices(p, h, runs);
      }
    } else {
      var q: nat :| Qualifies(p, h, q);
      ScoredFirstSuffices(p, h, runs, q);
    }
  }

  lemma EmptyBound(p: Profile)
    ensures FirstBound(p, []) >= 0
  {
  }

  // ---------------------------------------------------------------- when it fails: contexts exist

  lemma LastQualifyingFrom(p: Profile, h: seq<CommittedRun>, i: nat) returns (q: nat)
    requires Qualifies(p, h, i)
    ensures IsPrior(p, h, q)
    decreases |h| - i
  {
    if j: nat :| i < j && Qualifies(p, h, j) {
      q := LastQualifyingFrom(p, h, j);
    } else {
      q := i;
    }
  }

  ghost function ResolvedIn(p: Profile, h: seq<CommittedRun>, n: nat): (found: set<Finding>)
    requires n <= |h|
  {
    if n == 0 then {}
    else ResolvedIn(p, h, n - 1) + (if Usable(p, h, n - 1) then RecordAt(p, h, n - 1).resolved else {})
  }

  ghost predicate ResolvedBy(p: Profile, h: seq<CommittedRun>, n: nat, f: Finding) {
    exists i: nat :: i < n && Usable(p, h, i) && f in RecordAt(p, h, i).resolved
  }

  lemma {:induction false} ResolvedInIs(p: Profile, h: seq<CommittedRun>, n: nat, f: Finding)
    requires n <= |h|
    ensures f in ResolvedIn(p, h, n) <==> ResolvedBy(p, h, n, f)
  {
    hide Usable, RecordAt;
    if n > 0 {
      ResolvedInIs(p, h, n - 1, f);
    }
  }

  lemma ResolvedByAll(p: Profile, h: seq<CommittedRun>, f: Finding)
    ensures ResolvedBy(p, h, |h|, f) <==> EverResolved(p, h, f)
  {
    hide ReadRun;
  }

  /** Every history has a context. */
  lemma ContextExists(p: Profile, h: seq<CommittedRun>) returns (c: Context)
    ensures IsContext(p, h, c)
  {
    hide ReadRun, Tampered, Qualifies, EverResolved, ResolvedBy, Usable, RecordAt;
    if Tampered(p, h) {
      c := Unscorable;
    } else if i: nat :| Qualifies(p, h, i) {
      var q := LastQualifyingFrom(p, h, i);
      QualifiesIsUsable(p, h, q);
      forall f ensures f in ResolvedIn(p, h, |h|) <==> EverResolved(p, h, f) {
        ResolvedInIs(p, h, |h|, f);
        ResolvedByAll(p, h, f);
      }
      c := Repeat(q, RecordAt(p, h, q).live, ResolvedIn(p, h, |h|));
    } else {
      c := First;
    }
  }

  lemma QualifiesIsUsable(p: Profile, h: seq<CommittedRun>, q: nat)
    requires Qualifies(p, h, q)
    ensures Usable(p, h, q)
  {
  }

  // ---------------------------------------------------------------- when it fails: one turn

  ghost predicate AllCommitted(runs: seq<StageRun>) {
    forall i :: 0 <= i < |runs| ==> runs[i].status == Committed
  }

  lemma {:induction false} FirstAttempt(runs: seq<StageRun>, stage: Name)
    requires AllCommitted(runs)
    ensures NextAttempt(runs, stage).1 == 1
  {
    if runs != [] {
      FirstAttempt(Front(runs), stage);
    }
  }

  lemma {:induction false} NewToken(runs: seq<StageRun>) returns (token: Token)
    ensures forall i :: 0 <= i < |runs| ==> runs[i].token < token
  {
    if runs == [] {
      token := 0;
    } else {
      var before := NewToken(Front(runs));
      token := if Last(runs).token < before then before else Last(runs).token + 1;
    }
  }

  lemma {:induction false} NewOp(log: seq<Transition>) returns (op: Token)
    ensures forall i :: 0 <= i < |log| ==> log[i].op < op
  {
    if log == [] {
      op := 0;
    } else {
      var before := NewOp(Front(log));
      op := if Last(log).op < before then before else Last(log).op + 1;
    }
  }

  function Reply(outcome: Name, response: Response): (raw: RunResult) {
    RunResult(Success, Some(outcome), Text(""), response)
  }

  lemma OutcomeOf(outcomes: seq<Outcome>, i: nat)
    requires i < |outcomes| && DistinctNames(outcomes)
    ensures Declares(outcomes, outcomes[i].name) && TargetOf(outcomes, outcomes[i].name) == outcomes[i].target
  {
  }

  /** What is asked of a task that can take one more turn. */
  ghost predicate Ready(db: Db) {
    Consistent(db) && db.envelope && EveryLoopScored(db.profile) && db.task.status == Queued && AllCommitted(db.runs)
  }

  lemma ClaimSucceeds(db: Db, token: Token, lease: Token, op: Token)
    requires Ready(db) && db.task.stage in db.profile.stages && db.profile.stages[db.task.stage].Work?
    ensures ClaimStep(db, token, lease, op) ==
            Ok(db.(runs := db.runs + [StageRun(token, db.task.stage, NextAttempt(db.runs, db.task.stage).0, 1, Active,
                                               Some(lease), None, Lost)],
                   task := db.task.(status := Running, allowance := false, lease := Some(lease),
                                    revision := db.task.revision + 1)))
  {
    hide EveryLoopScored, SeededRows, Balanced, Leased, Logged, Ending, Bounded, Numbered, Recorded, Placed;
    hide NextAttempt;
    FirstAttempt(db.runs, db.task.stage);
    assert WellFormedStage(db.profile, db.task.stage);
  }

  lemma CommitSucceeds(mid: Db, token: Token, result: RunResult, op: Token, i: nat)
    requires WellFormed(mid.profile) && SeededRows(mid) && mid.envelope && EveryLoopScored(mid.profile)
    requires mid.runs != [] && Last(mid.runs).token == token && Last(mid.runs).status == Active
    requires mid.task.status == Running && Last(mid.runs).lease == mid.task.lease
    requires Last(mid.runs).stage in mid.profile.stages && mid.profile.stages[Last(mid.runs).stage].Work?
    requires i < |mid.profile.stages[Last(mid.runs).stage].outcomes|
    requires result.outcome == Some(mid.profile.stages[Last(mid.runs).stage].outcomes[i].name) && Continues(result)
    ensures var r := CommitStep(mid, token, result, op);
            && r.Ok?
            && r.value.task.stage == mid.profile.stages[Last(mid.runs).stage].outcomes[i].target
            && r.value.task.status == StatusAt(mid.profile, r.value.task.stage)
            && r.value.runs == Settle(mid, |mid.runs| - 1, Committed, result)
  {
    hide EveryLoopScored, Bump, MaxNumber, Declares, TargetOf;
    var stage := Last(mid.runs).stage;
    assert WellFormedStage(mid.profile, stage);
    OutcomeOf(mid.profile.stages[stage].outcomes, i);
  }

  /** A scored answer moves a queued task along any ordinary edge. */
  lemma TakeTurn(db: Db, to: Name, c: Context, response: Response) returns (after: Db)
    requires Ready(db) && Leads(db.profile, db.task.stage, to)
    requires to in db.profile.stages && db.profile.stages[to].Work?
    requires IsContext(db.profile, HistoryOf(db), c)
    requires StageArity(db.profile, db.task.stage) == Branching ==>
               forall name :: name != HOLD_OUTCOME ==> Continues(ApplyConvergence(Reply(name, response), c))
    ensures Turns(db, after) && Ready(after) && after.profile == db.profile && after.task.stage == to
    ensures HistoryOf(after) == HistoryOf(db) + [CommittedRun(db.task.stage, Sealed(response, Text("")))]
  {
    hide Consistent, EveryLoopScored, IsContext, StageArity, ApplyConvergence, HistoryOf, ClaimStep, CommitStep, Leads;
    after := TurnTaken(db, to, c, response);
    var mid, t :| TakesTurn(db, mid, after, t, c) && Ordinary(db, t, c) && t.raw.response == response
      && t.raw.reason == Text("");
    var run := TurnGoesOn(db, mid, after, t, c);
  }

  lemma TurnTaken(db: Db, to: Name, c: Context, response: Response) returns (after: Db)
    requires Ready(db) && Leads(db.profile, db.task.stage, to)
    requires to in db.profile.stages && db.profile.stages[to].Work?
    requires IsContext(db.profile, HistoryOf(db), c)
    requires StageArity(db.profile, db.task.stage) == Branching ==>
               forall name :: name != HOLD_OUTCOME ==> Continues(ApplyConvergence(Reply(name, response), c))
    ensures exists mid, t ::
              && TakesTurn(db, mid, after, t, c) && Ordinary(db, t, c)
              && t.raw.response == response && t.raw.reason == Text("")
    ensures after.task.stage == to && after.task.status == Queued && AllCommitted(after.runs)
  {
    hide EveryLoopScored, IsContext, StageArity, ApplyConvergence, History, NextAttempt, WellFormedStage, ClaimStep;
    hide CommitStep;
    hide Balanced, Leased, Logged, Ending, Bounded, Numbered, Recorded, Placed, SeededRows, WellFormed;
    var p, stage := db.profile, db.task.stage;
    var token := NewToken(db.runs);
    var op := NewOp(db.log);
    var i: nat :| i < |p.stages[stage].outcomes| && OrdinaryTo(p.stages[stage].outcomes[i], to);
    var t := Turn(token, token, op, Reply(p.stages[stage].outcomes[i].name, response), None, op);
    var claim := Claim(token, token, op);
    assert Admissible(db, claim);
    ClaimSucceeds(db, token, token, op);
    var mid := ClaimStep(db, token, token, op).value;
    assert Apply(db, claim) == mid;
    ClaimedFrame(db, mid, claim);
    SeededStays(db, mid);
    var result := Disposed(db.envelope, StageArity(p, stage), t, c);
    assert Continues(result) by {
      if StageArity(p, stage) == Branching {
        AcceptedIsRaw(t.raw, c);
      }
    }
    assert result == t.raw by {
      if StageArity(p, stage) == Branching {
        AcceptedIsRaw(t.raw, c);
      }
    }
    CommitSucceeds(mid, token, result, op, i);
    after := CommitStep(mid, token, result, op).value;
    assert TakesTurn(db, mid, after, t, c);
  }

  lemma SeededStays(db: Db, mid: Db)
    requires Consistent(db) && mid.profile == db.profile && mid.edges == db.edges
    ensures WellFormed(mid.profile) && SeededRows(mid)
  {
    hide WellFormed, Balanced, Leased, Logged, Ending, Bounded, Numbered, Recorded, Placed;
  }

  // ---------------------------------------------------------------- when it fails: the ladder

  function Mark(i: nat): (m: string)
    ensures |m| == i
  {
    seq(i, j requires 0 <= j < i => 'x')
  }

  /** The findings m, ..., n - 1. */
  ghost function Rungs(m: nat, n: nat): (findings: set<Finding>)
    ensures forall f :: f in findings ==> m <= |f.scenario| < n
    ensures forall i: nat :: m <= i < n ==> Finding(Mark(i)) in findings
  {
    set i: nat | m <= i < n :: Finding(Mark(i))
  }

  lemma RungsShrink(q: nat, m: nat, n: nat)
    requires q < m <= n
    ensures Rungs(m, n) < Rungs(q, n)
  {
    assert Finding(Mark(q)) in Rungs(q, n);
  }

  /** Each review lists one finding less than there are stages left; the first one lists none at all. */
  ghost predicate OnRung(p: Profile, h: seq<CommittedRun>, k: nat, n: nat, i: nat) {
    i < |h| && StageArity(p, h[i].stage) == Branching ==>
      && ReadRun(p, h[i]).Read?
      && ReadRun(p, h[i]).record.live == (if i <= k then {} else Rungs(i, n))
      && (forall f :: f in ReadRun(p, h[i]).record.resolved ==> |f.scenario| < i)
  }

  ghost predicate Climbed(p: Profile, h: seq<CommittedRun>, w: seq<Name>, k: nat) {
    && |h| <= |w| && TwinFront(p, w, k)
    && (forall i: nat :: i < |h| ==> h[i].stage == w[i] && OnRung(p, h, k, |w|, i))
  }

  lemma ClimbedUsable(p: Profile, h: seq<CommittedRun>, w: seq<Name>, k: nat, i: nat)
    requires Climbed(p, h, w, k)
    ensures !BrokenAt(p, h, i)
    ensures Usable(p, h, i) <==> i < |h| && StageArity(p, w[i]) == Branching
    ensures Usable(p, h, i) ==> RecordAt(p, h, i) == ReadRun(p, h[i]).record && OnRung(p, h, k, |w|, i)
    ensures CorrectionAt(p, h, i) <==> i < |h| && StageArity(p, w[i]) == Correction
  {
    hide StageArity, ExtractConvergence, TwinFront;
    if i < |h| {
      assert h[i].stage == w[i] && OnRung(p, h, k, |w|, i);
    }
  }

  /** Neither a correction nor a review is anywhere but where the walk has one. */
  lemma ClimbedStages(p: Profile, h: seq<CommittedRun>, w: seq<Name>, k: nat, i: nat)
    requires Climbed(p, h, w, k)
    ensures Usable(p, h, i) ==> k <= i < |h|
    ensures CorrectionAt(p, h, i) ==> i < |h| && i != k && i != k + 1
    ensures i == k + 1 && i < |h| ==> Usable(p, h, i)
  {
    hide StageArity, OnRung, Usable, CorrectionAt, RecordAt, ReadRun, BrokenAt;
    ClimbedUsable(p, h, w, k, i);
  }

  /** On the ladder no review but the first is scored against less than it is about to list. */
  lemma ClimbedContext(p: Profile, h: seq<CommittedRun>, w: seq<Name>, k: nat, c: Context)
    requires Climbed(p, h, w, k) && |h| < |w| && IsContext(p, h, c)
    ensures !c.Unscorable?
    ensures c.Repeat? ==> |h| > k && Rungs(|h|, |w|) < c.priorLive && c.historical !! Rungs(|h|, |w|)
  {
    hide StageArity, ReadRun, Usable, Qualifies, BrokenAt, RecordAt, Climbed, OnRung, Rungs, EverResolved;
    forall i: nat ensures !BrokenAt(p, h, i) {
      ClimbedUsable(p, h, w, k, i);
    }
    if c.Repeat? {
      BaseAboveFirst(p, h, w, k, c.prior);
      ClimbedUsable(p, h, w, k, c.prior);
      LiveOnRung(p, h, w, k, c.prior);
      RungsShrink(c.prior, |h|, |w|);
      forall f | f in c.historical ensures f !in Rungs(|h|, |w|) {
        assert EverResolved(p, h, f);
        ResolvedBelow(p, h, w, k, f);
      }
    }
  }

  lemma QualifyingTold(p: Profile, h: seq<CommittedRun>, q: nat) returns (d: nat)
    requires Qualifies(p, h, q)
    ensures Usable(p, h, q) && q < d && CorrectionAt(p, h, d)
  {
    hide Usable, CorrectionAt;
    d :| q < d && CorrectionAt(p, h, d);
  }

  lemma PriorIsLast(p: Profile, h: seq<CommittedRun>, q: nat, j: nat, d: nat)
    requires IsPrior(p, h, q) && Usable(p, h, j) && j < d && CorrectionAt(p, h, d)
    ensures j <= q
  {
    hide Usable, CorrectionAt;
    assert Qualifies(p, h, j);
  }

  /** The first review is never the base: once a correction follows it, the second review is a later one. */
  lemma BaseAboveFirst(p: Profile, h: seq<CommittedRun>, w: seq<Name>, k: nat, q: nat)
    requires Climbed(p, h, w, k) && IsPrior(p, h, q)
    ensures k < q < |h| && Usable(p, h, q)
  {
    hide Usable, CorrectionAt, Climbed, Qualifies;
    var d := QualifyingTold(p, h, q);
    ClimbedStages(p, h, w, k, q);
    ClimbedStages(p, h, w, k, d);
    ClimbedStages(p, h, w, k, k + 1);
    if k + 1 < d {
      PriorIsLast(p, h, q, k + 1, d);
    }
  }

  lemma ResolvedBelow(p: Profile, h: seq<CommittedRun>, w: seq<Name>, k: nat, f: Finding)
    requires Climbed(p, h, w, k) && EverResolved(p, h, f)
    ensures f !in Rungs(|h|, |w|)
  {
    hide StageArity, ReadRun, Climbed, OnRung, Rungs;
    var i: nat :| Usable(p, h, i) && f in RecordAt(p, h, i).resolved;
    ClimbedUsable(p, h, w, k, i);
    ResolvedOnRung(p, h, w, k, i, f);
  }

  lemma LiveOnRung(p: Profile, h: seq<CommittedRun>, w: seq<Name>, k: nat, q: nat)
    requires Usable(p, h, q) && RecordAt(p, h, q) == ReadRun(p, h[q]).record && OnRung(p, h, k, |w|, q) && k < q
    ensures RecordAt(p, h, q).live == Rungs(q, |w|)
  {
    hide StageArity, ExtractConvergence, Rungs;
  }

  lemma ResolvedOnRung(p: Profile, h: seq<CommittedRun>, w: seq<Name>, k: nat, i: nat, f: Finding)
    requires Usable(p, h, i) && OnRung(p, h, k, |w|, i) && f in RecordAt(p, h, i).resolved
    ensures f !in Rungs(|h|, |w|)
  {
    hide StageArity, ExtractConvergence;
  }

  /** The record a provider prints to list exactly these findings in this context. */
  function Answer(c: Context, live: set<Finding>): (response: Response) {
    Response(1, 1, true,
             if c.Repeat? then Object(Ids(live), Ids(c.priorLive - live), Ids({}), Ids(live), Declared(Improved), false)
             else Object(Ids(live), Ids({}), Absent, Absent, NoVerdict, false))
  }

  lemma AnswerGoesOn(p: Profile, stage: Name, c: Context, live: set<Finding>, name: Name)
    requires StageArity(p, stage) == Branching && !c.Unscorable?
    requires c.Repeat? ==> live < c.priorLive && live !! c.historical
    ensures name != HOLD_OUTCOME ==> Continues(ApplyConvergence(Reply(name, Answer(c, live)), c))
    ensures var run := CommittedRun(stage, Sealed(Answer(c, live), Text("")));
            && ReadRun(p, run).Read? && ReadRun(p, run).record.live == live
            && ReadRun(p, run).record.resolved == if c.Repeat? then c.priorLive - live else {}
  {
    hide StageArity, ApplyConvergence;
    GoesOnExactly(Reply(name, Answer(c, live)), c);
    AcceptedRecordIsReadable(Answer(c, live), c.Repeat?);
  }

  /** One turn further up the ladder. */
  lemma ClimbOne(db: Db, w: seq<Name>, k: nat) returns (after: Db)
    requires Ready(db) && OrdinaryWalk(db.profile, w) && Climbed(db.profile, HistoryOf(db), w, k)
    requires |HistoryOf(db)| + 2 < |w| && db.task.stage == w[|HistoryOf(db)|]
    ensures Turns(db, after) && Ready(after) && after.profile == db.profile
    ensures Climbed(db.profile, HistoryOf(after), w, k)
    ensures |HistoryOf(after)| == |HistoryOf(db)| + 1 && after.task.stage == w[|HistoryOf(after)|]
  {
    hide Ready, HistoryOf, StageArity, IsContext, ApplyConvergence, Continues, Rungs, ReadRun;
    var p, h := db.profile, HistoryOf(db);
    var m := |h|;
    var c := ContextExists(p, h);
    ClimbedContext(p, h, w, k, c);
    var live := if m <= k then {} else Rungs(m, |w|);
    var response := Answer(c, live);
    if StageArity(p, w[m]) == Branching {
      forall name | name != HOLD_OUTCOME ensures Continues(ApplyConvergence(Reply(name, response), c)) {
        AnswerGoesOn(p, w[m], c, live, name);
      }
      AnswerGoesOn(p, w[m], c, live, Name(""));
    }
    assert Leads(p, w[m], w[m + 1]) && Leads(p, w[m + 1], w[m + 2]);
    after := TakeTurn(db, w[m + 1], c, response);
    ClimbedFurther(p, h, w, k, c, CommittedRun(w[m], Sealed(response, Text(""))));
  }

  lemma ClimbedFurther(p: Profile, h: seq<CommittedRun>, w: seq<Name>, k: nat, c: Context, run: CommittedRun)
    requires Climbed(p, h, w, k) && |h| < |w| && IsContext(p, h, c) && run.stage == w[|h|]
    requires StageArity(p, w[|h|]) == Branching ==>
               && ReadRun(p, run).Read? && ReadRun(p, run).record.live == (if |h| <= k then {} else Rungs(|h|, |w|))
               && ReadRun(p, run).record.resolved == if c.Repeat? then c.priorLive - ReadRun(p, run).record.live else {}
    ensures Climbed(p, h + [run], w, k)
  {
    hide StageArity, ReadRun, IsContext, OnRung, Rungs, TwinFront;
    var longer := h + [run];
    ClimbedContext(p, h, w, k, c);
    if c.Repeat? {
      PriorBelow(p, h, w, k, c);
    }
    forall i: nat | i < |longer| ensures longer[i].stage == w[i] && OnRung(p, longer, k, |w|, i) {
      if i < |h| {
        assert OnRung(p, h, k, |w|, i);
        RungKept(p, h, run, k, |w|, i);
      } else {
        NewRung(p, h, run, k, |w|, c);
      }
    }
  }

  lemma RungKept(p: Profile, h: seq<CommittedRun>, run: CommittedRun, k: nat, n: nat, i: nat)
    requires i < |h| && OnRung(p, h, k, n, i)
    ensures (h + [run])[i] == h[i] && OnRung(p, h + [run], k, n, i)
  {
    hide StageArity, ReadRun, Rungs;
  }

  lemma NewRung(p: Profile, h: seq<CommittedRun>, run: CommittedRun, k: nat, n: nat, c: Context)
    requires StageArity(p, run.stage) == Branching ==>
               && ReadRun(p, run).Read? && ReadRun(p, run).record.live == (if |h| <= k then {} else Rungs(|h|, n))
               && ReadRun(p, run).record.resolved == if c.Repeat? then c.priorLive - ReadRun(p, run).record.live else {}
    requires c.Repeat? ==> k < |h| && forall f :: f in c.priorLive ==> |f.scenario| < |h| || f in Rungs(|h|, n)
    ensures OnRung(p, h + [run], k, n, |h|)
  {
    hide StageArity, ReadRun, Rungs;
    assert (h + [run])[|h|] == run;
  }

  lemma PriorBelow(p: Profile, h: seq<CommittedRun>, w: seq<Name>, k: nat, c: Context)
    requires Climbed(p, h, w, k) && |h| < |w| && IsContext(p, h, c) && c.Repeat?
    ensures forall f :: f in c.priorLive ==> |f.scenario| < |h| || f in Rungs(|h|, |w|)
  {
    hide StageArity, ExtractConvergence, EverResolved;
    ContextPrior(p, h, c);
    ClimbedUsable(p, h, w, k, c.prior);
    forall f | f in c.priorLive ensures |f.scenario| < |h| || f in Rungs(|h|, |w|) {
      var i: nat :| c.prior <= i < |w| && f == Finding(Mark(i));
    }
  }

  /** As many turns as the walk has stages to spare. */
  lemma {:induction false} Climb(db: Db, w: seq<Name>, k: nat, n: nat) returns (states: seq<Db>)
    requires Ready(db) && OrdinaryWalk(db.profile, w) && Climbed(db.profile, HistoryOf(db), w, k)
    requires HistoryOf(db) == [] && db.task.stage == w[0] && n + 1 < |w|
    ensures Loops(states) && states[0] == db && |states| == n + 1
    ensures Ready(Last(states)) && Last(states).profile == db.profile && Last(states).task.stage == w[n]
    ensures Climbed(db.profile, HistoryOf(Last(states)), w, k) && |HistoryOf(Last(states))| == n
  {
    hide HistoryOf, Consistent, Climbed, OrdinaryWalk, Turns, EveryLoopScored;
    if n == 0 {
      states := [db];
    } else {
      var before := Climb(db, w, k, n - 1);
      var after := ClimbOne(Last(before), w, k);
      states := before + [after];
      forall i: nat | i + 1 < |states| ensures Turns(states[i], states[i + 1]) {
        if i + 1 < |before| {
          assert Turns(before[i], before[i + 1]);
        }
      }
    }
  }

  /** Going round the loop again and again. */
  lemma Pump(p: Profile, w: seq<Name>, i: nat, j: nat, n: nat) returns (longer: seq<Name>)
    requires OrdinaryWalk(p, w) && i < j < |w| && w[i] == w[j]
    ensures OrdinaryWalk(p, longer) && w[..j + 1] <= longer && |longer| > n
  {
    hide Leads;
    longer := w[..j + 1];
    while |longer| <= n
      invariant OrdinaryWalk(p, longer) && w[..j + 1] <= longer && Last(longer) == w[i]
      decreases n - |longer|
    {
      longer := longer + w[i + 1..j + 1];
    }
  }

  lemma FreshIsReady(db: Db)
    requires FreshlySubmitted(db) && db.envelope && EveryLoopScored(db.profile)
    ensures Ready(db) && HistoryOf(db) == [] && db.task.stage == db.profile.initial
  {
    hide EveryLoopScored, WellFormed, SeededRows, Consistent;
    SubmittedIsConsistent(db);
    assert Last(db.log).run == None && Front(db.log) == [];
    assert History(db.runs, []) == [];
  }

  /** A twin lets a new task outlast every number of turns its first review allows. */
  lemma TwinOutlasts(db: Db, w: seq<Name>, k: nat, i: nat, j: nat) returns (states: seq<Db>)
    requires FreshlySubmitted(db) && db.envelope && EveryLoopScored(db.profile)
    requires Twin(db.profile, w, k, i, j) && w[0] == db.profile.initial
    ensures Outlasts(db, states)
  {
    hide EveryLoopScored, FreshlySubmitted, Ready, HistoryOf, StageArity, ReadRun, Loops, FirstReview, Enterable;
    hide OrdinaryWalk;
    var p := db.profile;
    FreshIsReady(db);
    var n := CountedBy(p, 0) + k + 1;
    var longer := Pump(p, w, i, j, n + 1);
    SameFront(p, w, longer, k);
    states := Climb(db, longer, k, n);
    var h := HistoryOf(Last(states));
    assert Since(db, Last(states)) == h;
    FirstListsNothing(p, h, longer, k);
  }

  lemma FirstListsNothing(p: Profile, h: seq<CommittedRun>, w: seq<Name>, k: nat)
    requires Climbed(p, h, w, k) && |h| > k
    ensures FirstReview(p, h) == Some(k) && LiveSize(p, h[k]) == 0
  {
    hide Review, Climbed, LiveSize, FirstReview;
    FirstReviewIs(p, h);
    RungListsNothing(p, h, w, k, k);
    RungListsNothing(p, h, w, k, FirstReview(p, h).value);
  }

  lemma RungListsNothing(p: Profile, h: seq<CommittedRun>, w: seq<Name>, k: nat, i: nat)
    requires Climbed(p, h, w, k) && i <= k < |h|
    ensures Review(p, h[i]) <==> i == k
    ensures i == k ==> LiveSize(p, h[i]) == 0
  {
    hide StageArity, ReadRun;
    assert h[i].stage == w[i] && OnRung(p, h, k, |w|, i);
  }

  /**
   For a new envelope task on a profile that passes the gate, exactly when the findings of the first review
   bound the automatic loop: no walk from the initial stage enters two adjacent reviews before any other
   review and then some stage twice.
   */
  lemma FirstReviewBoundsExactly(db: Db)
    requires FreshlySubmitted(db) && db.envelope && EveryLoopScored(db.profile)
    ensures FirstReviewBounds(db) <==> !HasTwin(db.profile, db.profile.initial)
  {
    hide EveryLoopScored, Outlasts, OrdinaryWalk, StageArity;
    FreshIsReady(db);
    if HasTwin(db.profile, db.profile.initial) {
      var w, k: nat, i: nat, j: nat :| Twin(db.profile, w, k, i, j) && w[0] == db.profile.initial;
      var states := TwinOutlasts(db, w, k, i, j);
    } else {
      FirstReviewHolds(db);
    }
  }
}

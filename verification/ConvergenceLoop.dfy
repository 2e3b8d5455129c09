/**
 Why lifting the caps is safe: on a profile whose every loop is scored, the automatic loop of an
 envelope task ends, because each correction round strictly shrinks the live set it is scored against;
 and what one accepted review resolved never comes back through a later one.
 */
module ConvergenceLoop {
  import opened Prelude
  import opened Profiles
  import opened GateGraph
  import opened Convergence
  import opened Lifecycle
  import opened LifecycleInvariants

  // ---------------------------------------------------------------- continuing reviews

  /** The run read back from its seal, scored against the history it was committed on. */
  ghost predicate Scored(p: Profile, h: seq<CommittedRun>, run: CommittedRun, c: Context) {
    && IsContext(p, h, c) && !c.Unscorable?
    && ReadRun(p, run).Read?
    && (c.Repeat? ==>
          && ReadRun(p, run).record.live < c.priorLive
          && ReadRun(p, run).record.live !! c.historical
          && ReadRun(p, run).record.resolved == c.priorLive - ReadRun(p, run).record.live)
  }

  /** A run after which the loop went on: a branching run was scored, anything else needs no score. */
  ghost predicate WentOn(p: Profile, h: seq<CommittedRun>, run: CommittedRun) {
    StageArity(p, run.stage) == Branching ==> exists c :: Scored(p, h, run, c)
  }

  lemma ContinuingReviewIsScored(p: Profile, h: seq<CommittedRun>, stage: Name, raw: RunResult, c: Context)
    requires StageArity(p, stage) == Branching && IsContext(p, h, c)
    requires Continues(ApplyConvergence(raw, c))
    ensures Scored(p, h, CommittedRun(stage, Sealed(raw.response, ApplyConvergence(raw, c).reason)), c)
  {
    hide ExtractConvergence, ApplyConvergence, IsContext, StageArity;
    ContinuingRunIsScored(raw, c);
  }

  /** Until a correction is committed every readable review is scored as a first one, whatever it lists. */
  lemma UncorrectedReviewIsFirst(p: Profile, h: seq<CommittedRun>, run: CommittedRun)
    requires !Tampered(p, h) && (forall i: nat :: !CorrectionAt(p, h, i))
    requires ReadRun(p, run).Read?
    ensures Scored(p, h, run, First) && forall c :: IsContext(p, h, c) ==> c == First
  {
    hide ReadRun, Tampered, EverResolved;
    forall c | IsContext(p, h, c) ensures c == First {
    }
  }

  /** Extending the history keeps every reading, and so keeps what qualifies. */
  lemma HistoryExtends(p: Profile, h: seq<CommittedRun>, later: seq<CommittedRun>, i: nat)
    requires h <= later && i < |h|
    ensures Usable(p, later, i) <==> Usable(p, h, i)
    ensures Usable(p, h, i) ==> RecordAt(p, later, i) == RecordAt(p, h, i)
    ensures CorrectionAt(p, later, i) <==> CorrectionAt(p, h, i)
    ensures Qualifies(p, h, i) ==> Qualifies(p, later, i)
  {
    hide ReadRun, StageArity;
    assert later[i] == h[i];
    if Qualifies(p, h, i) {
      var c: nat :| i < c && CorrectionAt(p, h, c);
      assert later[c] == h[c] && CorrectionAt(p, later, c);
    }
  }

  /** Once an accepted repeat has resolved a finding, no later continuing review lists it as live. */
  lemma ResolvedNeverReturns(p: Profile, h: seq<CommittedRun>, i: nat, ci: Context, later: seq<CommittedRun>,
                             run: CommittedRun, c: Context, f: Finding)
    requires i < |h| && h <= later
    requires ci.Repeat? && Scored(p, h[..i], h[i], ci) && f in ReadRun(p, h[i]).record.resolved
    requires Scored(p, later, run, c)
    ensures c.Repeat? && f !in ReadRun(p, run).record.live
  {
    hide ReadRun, StageArity;
    HistoryExtends(p, h[..i], later, ci.prior);
    assert later[i] == h[i] && Usable(p, later, i) && f in RecordAt(p, later, i).resolved;
    assert EverResolved(p, later, f);
  }

  // ---------------------------------------------------------------- segments without a resume

  predicate Review(p: Profile, run: CommittedRun) {
    StageArity(p, run.stage) == Branching
  }

  /** Runs committed one after the other on top of a history, after each of which the loop went on. */
  ghost predicate Segment(p: Profile, h: seq<CommittedRun>, runs: seq<CommittedRun>) {
    && (forall i :: 0 <= i < |runs| ==> WentOn(p, h + runs[..i], runs[i]))
    && (forall i :: 0 <= i < |runs| ==> StageArity(p, runs[i].stage) != Neither && Reachable(p, runs[i].stage))
    && (forall i :: 0 <= i < |runs| - 1 ==> runs[i + 1].stage in Targets(p, runs[i].stage))
  }

  lemma SegmentFront(p: Profile, h: seq<CommittedRun>, runs: seq<CommittedRun>)
    requires Segment(p, h, runs) && runs != []
    ensures Segment(p, h, Front(runs)) && WentOn(p, h + Front(runs), Last(runs))
  {
    hide WentOn, Reachable, Targets, StageArity;
    forall i | 0 <= i < |Front(runs)| ensures WentOn(p, h + Front(runs)[..i], Front(runs)[i]) {
      assert Front(runs)[..i] == runs[..i];
    }
    forall i | 0 <= i < |Front(runs)| - 1 ensures Front(runs)[i + 1].stage in Targets(p, Front(runs)[i].stage) {
      assert Front(runs)[i + 1] == runs[i + 1];
    }
    assert runs[|runs| - 1] == Last(runs);
  }

  function LiveSize(p: Profile, run: CommittedRun): (n: nat) {
    match ReadRun(p, run)
    case Read(record) => |record.live|
    case Nothing => 0
    case Broken => 0
  }

  /** The last review of the segment. */
  function LastReview(p: Profile, runs: seq<CommittedRun>): (k: Option<nat>)
    ensures k.Some? ==> k.value < |runs| && Review(p, runs[k.value])
  {
    if runs == [] then None else if Review(p, Last(runs)) then Some(|runs| - 1) else LastReview(p, Front(runs))
  }

  /** The last review with a correction after it: what the next review is scored against. */
  function Base(p: Profile, runs: seq<CommittedRun>): (k: Option<nat>)
    ensures k.Some? ==> k.value < |runs| && Review(p, runs[k.value])
  {
    if runs == [] then None else if Review(p, Last(runs)) then Base(p, Front(runs)) else LastReview(p, Front(runs))
  }

  predicate StartsGroup(p: Profile, runs: seq<CommittedRun>)
    requires runs != []
  {
    |runs| == 1 || Review(p, runs[|runs| - 2]) != Review(p, Last(runs))
  }

  /** Maximal groups of consecutive reviews (or of consecutive corrections). */
  function Groups(p: Profile, runs: seq<CommittedRun>, reviews: bool): (n: nat) {
    if runs == [] then 0
    else Groups(p, Front(runs), reviews) + (if Review(p, Last(runs)) == reviews && StartsGroup(p, runs) then 1 else 0)
  }

  /** The last review of the first group of reviews. */
  function Opening(p: Profile, runs: seq<CommittedRun>): (k: Option<nat>)
    ensures k.Some? ==> k.value < |runs| && Review(p, runs[k.value])
  {
    if runs == [] then None
    else if Groups(p, runs, true) <= 1 then LastReview(p, runs)
    else Opening(p, Front(runs))
  }

  function Trailing(p: Profile, runs: seq<CommittedRun>): (n: nat)
    ensures n <= |runs|
  {
    if runs == [] then 0 else if StartsGroup(p, runs) then 1 else 1 + Trailing(p, Front(runs))
  }

  // ---------------------------------------------------------------- the base is the prior

  lemma {:induction false} LastReviewIsLast(p: Profile, runs: seq<CommittedRun>, j: nat)
    requires j < |runs| && Review(p, runs[j])
    ensures LastReview(p, runs).Some? && j <= LastReview(p, runs).value
  {
    hide Review;
    if !Review(p, Last(runs)) {
      assert Front(runs)[j] == runs[j];
      LastReviewIsLast(p, Front(runs), j);
    }
  }

  lemma {:induction false} BaseQualifies(p: Profile, runs: seq<CommittedRun>) returns (c: nat)
    requires Base(p, runs).Some?
    ensures Base(p, runs).value < c < |runs| && !Review(p, runs[c])
  {
    hide Review;
    if Review(p, Last(runs)) {
      c := BaseQualifies(p, Front(runs));
      assert Front(runs)[c] == runs[c];
    } else {
      c := |runs| - 1;
    }
  }

  lemma {:induction false} NothingQualifiesAfterBase(p: Profile, runs: seq<CommittedRun>, j: nat, c: nat)
    requires j < c < |runs| && Review(p, runs[j]) && !Review(p, runs[c])
    ensures Base(p, runs).Some? && j <= Base(p, runs).value
  {
    hide Review;
    assert Front(runs)[j] == runs[j];
    if Review(p, Last(runs)) {
      assert Front(runs)[c] == runs[c];
      NothingQualifiesAfterBase(p, Front(runs), j, c);
    } else {
      LastReviewIsLast(p, Front(runs), j);
    }
  }

  lemma SegmentReadings(p: Profile, h: seq<CommittedRun>, runs: seq<CommittedRun>, i: nat)
    requires Segment(p, h, runs) && i < |runs|
    ensures (h + runs)[|h| + i] == runs[i]
    ensures Review(p, runs[i]) ==> Usable(p, h + runs, |h| + i)
    ensures !Review(p, runs[i]) <==> CorrectionAt(p, h + runs, |h| + i)
  {
    hide ReadRun, IsContext, Reachable, Targets;
    assert WentOn(p, h + runs[..i], runs[i]);
  }

  lemma BaseQualifiesThere(p: Profile, h: seq<CommittedRun>, runs: seq<CommittedRun>)
    requires Segment(p, h, runs) && Base(p, runs).Some?
    ensures Qualifies(p, h + runs, |h| + Base(p, runs).value)
  {
    hide ReadRun, Segment, Review, StageArity, Base, Usable, CorrectionAt;
    var c := BaseQualifies(p, runs);
    SegmentReadings(p, h, runs, Base(p, runs).value);
    SegmentReadings(p, h, runs, c);
    assert CorrectionAt(p, h + runs, |h| + c);
  }

  lemma CorrectionInSegment(p: Profile, h: seq<CommittedRun>, runs: seq<CommittedRun>, d: nat)
    requires d >= |h| && CorrectionAt(p, h + runs, d)
    ensures d - |h| < |runs| && !Review(p, runs[d - |h|])
  {
    assert (h + runs)[d] == runs[d - |h|];
  }

  lemma UsableInSegment(p: Profile, h: seq<CommittedRun>, runs: seq<CommittedRun>, j: nat)
    requires j >= |h| && Usable(p, h + runs, j)
    ensures j - |h| < |runs| && Review(p, runs[j - |h|])
  {
    assert (h + runs)[j] == runs[j - |h|];
  }

  lemma NothingLaterQualifies(p: Profile, h: seq<CommittedRun>, runs: seq<CommittedRun>, j: nat)
    requires Segment(p, h, runs) && Base(p, runs).Some? && Qualifies(p, h + runs, j)
    ensures j <= |h| + Base(p, runs).value
  {
    hide Usable, CorrectionAt, Segment, Review, Base;
    if j > |h| + Base(p, runs).value {
      var d: nat :| j < d && CorrectionAt(p, h + runs, d);
      CorrectionInSegment(p, h, runs, d);
      UsableInSegment(p, h, runs, j);
      NothingQualifiesAfterBase(p, runs, j - |h|, d - |h|);
    }
  }

  lemma PriorIsBase(p: Profile, h: seq<CommittedRun>, runs: seq<CommittedRun>, prior: nat)
    requires Segment(p, h, runs) && Base(p, runs).Some? && IsPrior(p, h + runs, prior)
    ensures prior == |h| + Base(p, runs).value
  {
    hide Segment, Base, Qualifies;
    BaseQualifiesThere(p, h, runs);
    NothingLaterQualifies(p, h, runs, prior);
  }

  lemma UsableIsReview(p: Profile, h: seq<CommittedRun>, i: nat)
    requires Usable(p, h, i)
    ensures Review(p, h[i])
  {
  }

  /** A review that goes on after a correction lists strictly fewer findings than the base it is scored against. */
  lemma ReviewShrinksBase(p: Profile, h: seq<CommittedRun>, runs: seq<CommittedRun>, run: CommittedRun)
    requires Segment(p, h, runs) && Base(p, runs).Some? && Review(p, run) && WentOn(p, h + runs, run)
    ensures LiveSize(p, run) < LiveSize(p, runs[Base(p, runs).value])
  {
    hide ReadRun, Segment, Base, StageArity, Qualifies, EverResolved, Usable, IsPrior;
    ReviewArity(p, run);
    var c :| Scored(p, h + runs, run, c);
    BaseQualifiesThere(p, h, runs);
    assert c.Repeat?;
    PriorIsBase(p, h, runs, c.prior);
    PriorLiveIs(p, h, runs, c);
    StrictlyFewer(ReadRun(p, run).record.live, c.priorLive);
  }

  lemma PriorLiveIs(p: Profile, h: seq<CommittedRun>, runs: seq<CommittedRun>, c: Context)
    requires Segment(p, h, runs) && Base(p, runs).Some? && IsContext(p, h + runs, c) && c.Repeat?
    requires c.prior == |h| + Base(p, runs).value
    ensures LiveSize(p, runs[Base(p, runs).value]) == |c.priorLive|
  {
    hide Segment, Base, StageArity, EverResolved, ReadRun, IsContext, Review, CorrectionAt;
    SegmentReadings(p, h, runs, Base(p, runs).value);
    ContextPrior(p, h + runs, c);
  }

  lemma ContextPrior(p: Profile, h: seq<CommittedRun>, c: Context)
    requires IsContext(p, h, c) && c.Repeat?
    ensures Usable(p, h, c.prior) && c.priorLive == ReadRun(p, h[c.prior]).record.live
  {
    hide EverResolved, CorrectionAt, ReadRun, Tampered;
  }

  lemma StrictlyFewer<T>(a: set<T>, b: set<T>)
    requires a < b
    ensures |a| < |b|
  {
    assert b == a + (b - a);
  }

  // ---------------------------------------------------------------- counting groups

  /** Each further group of reviews costs at least one finding of the opening live set. */
  lemma {:induction false} GroupsCostFindings(p: Profile, h: seq<CommittedRun>, runs: seq<CommittedRun>)
    requires Segment(p, h, runs)
    ensures Groups(p, runs, true) >= 1 <==> LastReview(p, runs).Some?
    ensures LastReview(p, runs).Some? ==>
              Opening(p, runs).Some?
              && Groups(p, runs, true) + LiveSize(p, runs[LastReview(p, runs).value]) <=
                 1 + LiveSize(p, runs[Opening(p, runs).value])
    ensures Base(p, runs).Some? ==>
              && LastReview(p, runs).Some?
              && Groups(p, runs, true) >= (if Review(p, Last(runs)) then 2 else 1)
              && Groups(p, runs, true) - (if Review(p, Last(runs)) then 1 else 0)
                 + LiveSize(p, runs[Base(p, runs).value])
                   <= 1 + LiveSize(p, runs[Opening(p, runs).value])
    ensures Base(p, runs).None? ==> Groups(p, runs, true) <= 1 && (Groups(p, runs, true) == 1 ==> Review(p, Last(runs)))
  {
    hide ReadRun, Segment, Review, LiveSize;
    if runs != [] {
      var before := Front(runs);
      SegmentFront(p, h, runs);
      GroupsCostFindings(p, h, before);
      assert forall i :: 0 <= i < |before| ==> before[i] == runs[i];
      if |runs| > 1 {
        assert runs[|runs| - 2] == Last(before);
      }
      if Review(p, Last(runs)) && Base(p, before).Some? {
        ReviewShrinksBase(p, h, before, Last(runs));
      }
    }
  }

  lemma {:induction false} GroupsAlternate(p: Profile, runs: seq<CommittedRun>)
    ensures Groups(p, runs, false) <= Groups(p, runs, true) + 1
    ensures runs != [] && Review(p, Last(runs)) ==> Groups(p, runs, false) <= Groups(p, runs, true)
    ensures runs != [] ==> Groups(p, runs, Review(p, Last(runs))) >= 1
  {
    hide Review;
    if runs != [] {
      GroupsAlternate(p, Front(runs));
      if |runs| > 1 {
        assert runs[|runs| - 2] == Last(Front(runs));
      }
    }
  }

  /** The stages of one arity an execution can enter. */
  ghost function Enterable(p: Profile, reviews: bool): (stages: set<Name>) {
    set n | n in p.stages && Reachable(p, n) && StageArity(p, n) == if reviews then Branching else Correction
  }

  /** No loop stays inside one arity, so a group is never longer than the number of its stages. */
  lemma OneArityIsAcyclic(p: Profile, reviews: bool)
    requires EveryLoopScored(p)
    ensures !HasCycleIn(p, Enterable(p, reviews))
  {
    hide StageArity, Reachable, Path;
    forall s | CycleIn(p, Enterable(p, reviews), s) ensures false {
    }
  }

  lemma {:induction false} TrailingIsOneGroup(p: Profile, runs: seq<CommittedRun>, i: nat)
    requires runs != [] && |runs| - Trailing(p, runs) <= i < |runs|
    ensures Review(p, runs[i]) == Review(p, Last(runs))
  {
    hide Review;
    if i < |runs| - 1 {
      assert runs[|runs| - 2] == Last(Front(runs));
      TrailingIsOneGroup(p, Front(runs), i);
    }
  }

  /** The stages of the trailing group. */
  lemma TrailingWalk(p: Profile, h: seq<CommittedRun>, runs: seq<CommittedRun>) returns (walk: seq<Name>)
    requires Segment(p, h, runs) && runs != []
    ensures Path(p, walk) && Within(walk, Enterable(p, Review(p, Last(runs)))) && |walk| == Trailing(p, runs)
  {
    hide WentOn, Reachable, EveryLoopScored, Targets;
    var from := |runs| - Trailing(p, runs);
    assert Trailing(p, runs) >= 1;
    walk := seq(Trailing(p, runs), i requires 0 <= i < Trailing(p, runs) => runs[from + i].stage);
    forall i | 0 <= i < |walk| ensures walk[i] in Enterable(p, Review(p, Last(runs))) {
      TrailingIsOneGroup(p, runs, from + i);
      EnterableStage(p, h, runs, from + i);
    }
  }

  lemma EnterableStage(p: Profile, h: seq<CommittedRun>, runs: seq<CommittedRun>, i: nat)
    requires Segment(p, h, runs) && i < |runs|
    ensures runs[i].stage in Enterable(p, Review(p, runs[i]))
  {
    hide WentOn, Reachable;
    assert runs[i].stage in p.stages;
  }

  lemma TrailingFits(p: Profile, h: seq<CommittedRun>, runs: seq<CommittedRun>)
    requires EveryLoopScored(p) && Segment(p, h, runs) && runs != []
    ensures Trailing(p, runs) <= |Enterable(p, Review(p, Last(runs)))|
  {
    hide Segment, EveryLoopScored, Review, Enterable, HasCycleIn, Path, Within, Trailing;
    var walk := TrailingWalk(p, h, runs);
    OneArityIsAcyclic(p, Review(p, Last(runs)));
    AcyclicWalkFits(p, Enterable(p, Review(p, Last(runs))), walk);
  }

  function Room(nb: nat, nc: nat, gb: nat, gc: nat): (n: nat) {
    nb * gb + nc * gc
  }

  lemma RoomGrows(nb: nat, nc: nat, gb: nat, gc: nat)
    ensures Room(nb, nc, gb + 1, gc) == Room(nb, nc, gb, gc) + nb
    ensures Room(nb, nc, gb, gc + 1) == Room(nb, nc, gb, gc) + nc
  {
  }

  lemma RoomMonotone(nb: nat, nc: nat, gb: nat, gc: nat, gb': nat, gc': nat)
    requires gb <= gb' && gc <= gc'
    ensures Room(nb, nc, gb, gc) <= Room(nb, nc, gb', gc')
  {
    assert nb * gb <= nb * gb';
    assert nc * gc <= nc * gc';
  }

  lemma {:induction false} LengthByGroups(p: Profile, h: seq<CommittedRun>, runs: seq<CommittedRun>)
    requires EveryLoopScored(p) && Segment(p, h, runs) && runs != []
    ensures |runs| + |Enterable(p, Review(p, Last(runs)))|
              <= Room(|Enterable(p, true)|, |Enterable(p, false)|, Groups(p, runs, true), Groups(p, runs, false))
                + Trailing(p, runs)
  {
    hide Segment, Review, EveryLoopScored, Enterable, Room;
    var before := Front(runs);
    RoomGrows(|Enterable(p, true)|, |Enterable(p, false)|, Groups(p, before, true), Groups(p, before, false));
    if |runs| > 1 {
      SegmentFront(p, h, runs);
      LengthByGroups(p, h, before);
      TrailingFits(p, h, before);
      assert runs[|runs| - 2] == Last(before);
    }
  }

  /** Stages of either kind, times the findings of the opening review; corrections alone while there is no review. */
  ghost function LoopBound(p: Profile, runs: seq<CommittedRun>): (bound: int) {
    if Opening(p, runs).None? then |Enterable(p, false)|
    else
      var live := LiveSize(p, runs[Opening(p, runs).value]);
      |Enterable(p, true)| * (live + 1) + |Enterable(p, false)| * (live + 2)
  }

  /** The bound on one automatic stretch: a function of the stage counts and of the opening live set. */
  lemma SegmentIsBounded(p: Profile, h: seq<CommittedRun>, runs: seq<CommittedRun>)
    requires EveryLoopScored(p) && Segment(p, h, runs)
    ensures |runs| <= LoopBound(p, runs)
  {
    hide Segment, Review, EveryLoopScored, Enterable, LiveSize;
    if runs != [] {
      var nb, nc := |Enterable(p, true)|, |Enterable(p, false)|;
      LengthByGroups(p, h, runs);
      TrailingFits(p, h, runs);
      GroupsAlternate(p, runs);
      GroupsCostFindings(p, h, runs);
      var live := if Opening(p, runs).Some? then LiveSize(p, runs[Opening(p, runs).value]) + 1 else 0;
      OpeningWithReviews(p, runs);
      RoomMonotone(nb, nc, Groups(p, runs, true), Groups(p, runs, false), live, live + 1);
      assert nc * 1 == nc;
    }
  }

  lemma {:induction false} OpeningWithReviews(p: Profile, runs: seq<CommittedRun>)
    ensures Opening(p, runs).None? ==> LastReview(p, runs).None?
    ensures Groups(p, runs, true) == 0 <==> LastReview(p, runs).None?
  {
    hide Review;
    if runs != [] {
      OpeningWithReviews(p, Front(runs));
      if |runs| > 1 {
        assert runs[|runs| - 2] == Last(Front(runs));
      }
    }
  }

  /**
   Between resumes the live sets of the accepted repeats only shrink, also when two of them share one older
   baseline.
   */
  lemma {:induction false} RepeatsOnlyShrink(p: Profile, h: seq<CommittedRun>, runs: seq<CommittedRun>, i: nat,
                                             ci: Context, j: nat)
    requires Segment(p, h, runs) && i < j < |runs| && Review(p, runs[i]) && Review(p, runs[j])
    requires ci.Repeat? && Scored(p, h + runs[..i], runs[i], ci)
    ensures ReadRun(p, runs[j]).Read? && ReadRun(p, runs[i]).Read?
    ensures ReadRun(p, runs[j]).record.live <= ReadRun(p, runs[i]).record.live
    decreases j
  {
    hide ReadRun, Reachable, Targets, StageArity;
    var hi, hj := h + runs[..i], h + runs[..j];
    assert WentOn(p, hj, runs[j]);
    ReviewArity(p, runs[j]);
    var c :| Scored(p, hj, runs[j], c);
    PrefixOf(h, runs, i, j);
    HistoryExtends(p, hi, hj, ci.prior);
    assert c.Repeat?;
    var q := c.prior;
    assert hj[|h| + i] == runs[i] && Usable(p, hj, |h| + i);
    if q >= |h| + i {
      var at := q - |h|;
      assert hj[q] == runs[at];
      UsableIsReview(p, hj, q);
      if at > i {
        RepeatsOnlyShrink(p, h, runs, i, ci, at);
      }
    } else {
      SharedBaseline(p, hi, hj, runs[i], ci.prior, q);
      forall f | f in RecordAt(p, hj, |h| + i).resolved ensures EverResolved(p, hj, f) {
      }
    }
  }

  lemma ReviewArity(p: Profile, run: CommittedRun)
    requires Review(p, run)
    ensures StageArity(p, run.stage) == Branching
  {
  }

  lemma PrefixOf(h: seq<CommittedRun>, runs: seq<CommittedRun>, i: nat, j: nat)
    requires i < j <= |runs|
    ensures h + runs[..i] <= h + runs[..j] && |h + runs[..i]| == |h| + i
  {
    assert runs[..j][..i] == runs[..i];
  }

  lemma LaterCorrection(p: Profile, hi: seq<CommittedRun>, hj: seq<CommittedRun>, review: CommittedRun, c: nat)
    requires |hi| < |hj| && hj[|hi|] == review && Review(p, review) && Usable(p, hj, |hi|)
    requires c >= |hi| && CorrectionAt(p, hj, c)
    ensures Qualifies(p, hj, |hi|)
  {
  }

  /** With no correction since an earlier review, both are scored against the same run. */
  lemma SharedBaseline(p: Profile, hi: seq<CommittedRun>, hj: seq<CommittedRun>, review: CommittedRun, prior: nat,
                       q: nat)
    requires hi <= hj && |hi| < |hj| && hj[|hi|] == review && Review(p, review) && Usable(p, hj, |hi|)
    requires IsPrior(p, hi, prior) && IsPrior(p, hj, q) && q < |hi|
    ensures prior == q && RecordAt(p, hj, q) == RecordAt(p, hi, prior)
  {
    hide ReadRun;
    HistoryExtends(p, hi, hj, prior);
    HistoryExtends(p, hi, hj, q);
    var c: nat :| q < c && CorrectionAt(p, hj, c);
    if c < |hi| {
      HistoryExtends(p, hi, hj, c);
      assert Qualifies(p, hi, q);
    } else {
      LaterCorrection(p, hi, hj, review, c);
    }
  }

  // ---------------------------------------------------------------- the controller's own loop

  /**
   What one turn of the loop is given: fresh identifiers, whatever the provider returned, and the reviewer
   disposition.
   */
  datatype Turn = Turn(token: Token, lease: Token, claimOp: Token, raw: RunResult, held: Option<Reason>,
                       commitOp: Token)

  /** The result that is committed: scored for a branching stage of an envelope task, then possibly sent to the user. */
  function Disposed(envelope: bool, arity: Arity, t: Turn, c: Context): (result: RunResult) {
    var scored := if envelope && arity == Branching then ApplyConvergence(t.raw, c) else t.raw;
    if t.held.Some? then scored.(classification := WaitingUserRun, reason := t.held.value) else scored
  }

  /** One turn of `run_until_stop`: claim the current stage, run it, score it, commit it. */
  ghost predicate TakesTurn(db: Db, mid: Db, after: Db, t: Turn, c: Context) {
    && db.task.status == Queued && Admissible(db, Claim(t.token, t.lease, t.claimOp))
    && ClaimStep(db, t.token, t.lease, t.claimOp) == Ok(mid) && mid.task.status == Running
    && IsContext(db.profile, History(mid.runs, mid.log), c)
    && var result := Disposed(db.envelope, StageArity(db.profile, db.task.stage), t, c);
       && Admissible(mid, Commit(t.token, result, t.commitOp))
       && CommitStep(mid, t.token, result, t.commitOp) == Ok(after)
  }

  ghost function HistoryOf(db: Db): seq<CommittedRun> {
    History(db.runs, db.log)
  }

  /** An edge an ordinary outcome can follow: the reserved hold outcome of an envelope task leads nowhere. */
  ghost predicate Leads(p: Profile, a: Name, b: Name) {
    && a in p.stages && p.stages[a].Work?
    && exists i :: 0 <= i < |p.stages[a].outcomes| && OrdinaryTo(p.stages[a].outcomes[i], b)
  }

  predicate OrdinaryTo(o: Outcome, b: Name) {
    o.name != HOLD_OUTCOME && o.target == b
  }

  lemma LeadsToTarget(p: Profile, a: Name, b: Name)
    requires Leads(p, a, b)
    ensures b in Targets(p, a)
  {
    var i :| 0 <= i < |p.stages[a].outcomes| && OrdinaryTo(p.stages[a].outcomes[i], b);
    assert TargetNames(p.stages[a].outcomes)[i] == b;
  }

  lemma OutcomeLeads(p: Profile, a: Name, outcome: Name)
    requires a in p.stages && p.stages[a].Work? && Declares(p.stages[a].outcomes, outcome) && outcome != HOLD_OUTCOME
    ensures Leads(p, a, TargetOf(p.stages[a].outcomes, outcome))
  {
    var outcomes := p.stages[a].outcomes;
    var i :| 0 <= i < |outcomes| && outcomes[i].name == outcome && outcomes[i].target == TargetOf(outcomes, outcome);
    assert OrdinaryTo(outcomes[i], TargetOf(outcomes, outcome));
  }

  /** The turn commits an ordinary outcome, whatever that outcome makes of the task. */
  predicate Ordinary(db: Db, t: Turn, c: Context) {
    Continues(Disposed(db.envelope, StageArity(db.profile, db.task.stage), t, c))
  }

  /** Only an ordinary outcome requeues an envelope task. */
  lemma RequeuedIsOrdinary(db: Db, mid: Db, after: Db, t: Turn, c: Context)
    requires db.envelope && TakesTurn(db, mid, after, t, c) && after.task.status == Queued
    ensures Ordinary(db, t, c)
  {
    hide IsContext, StageArity, EveryLoopScored, ApplyConvergence, History, Admissible, CommitEdge, Settle, Entry;
    hide NextAttempt;
    hide FindRow, TargetOf, Declares;
  }

  /** A turn with an ordinary outcome appended exactly one committed run, and that run was scored. */
  lemma TurnGoesOn(db: Db, mid: Db, after: Db, t: Turn, c: Context) returns (run: CommittedRun)
    requires Consistent(db) && db.envelope && TakesTurn(db, mid, after, t, c) && Ordinary(db, t, c)
    ensures Consistent(after) && after.envelope && after.profile == db.profile
    ensures HistoryOf(after) == HistoryOf(db) + [run]
    ensures run == CommittedRun(db.task.stage, Sealed(t.raw.response, t.raw.reason))
    ensures Leads(db.profile, db.task.stage, after.task.stage)
    ensures WentOn(db.profile, HistoryOf(db), run)
    ensures StageArity(db.profile, run.stage) != Neither
  {
    hide ClaimStep, Consistent, Admissible, EveryLoopScored, IsContext, WentOn, ApplyConvergence, HasShape;
    hide StageArity, Targets, FindRun, History;
    var a1 := Claim(t.token, t.lease, t.claimOp);
    assert Apply(db, a1) == mid;
    KeepsConsistent(db, a1);
    var result := Disposed(db.envelope, StageArity(db.profile, db.task.stage), t, c);
    var a2 := Commit(t.token, result, t.commitOp);
    assert Apply(mid, a2) == after;
    KeepsConsistent(mid, a2);
    ClaimedFrame(db, mid, a1);
    run := CommitGoesOn(mid, after, t.token, result, t.commitOp);
    if StageArity(db.profile, db.task.stage) == Branching {
      AcceptedIsRaw(t.raw, c);
      ContinuingReviewIsScored(db.profile, HistoryOf(db), db.task.stage, t.raw, c);
      ScoredWentOn(db.profile, HistoryOf(db), run, c);
    } else {
      UnscoredWentOn(db.profile, HistoryOf(db), run);
    }
  }

  lemma ScoredWentOn(p: Profile, h: seq<CommittedRun>, run: CommittedRun, c: Context)
    requires Scored(p, h, run, c)
    ensures WentOn(p, h, run)
  {
  }

  lemma UnscoredWentOn(p: Profile, h: seq<CommittedRun>, run: CommittedRun)
    requires StageArity(p, run.stage) != Branching
    ensures WentOn(p, h, run)
  {
  }

  lemma ClaimedFrame(db: Db, mid: Db, a: Action)
    requires Consistent(db) && Admissible(db, a) && a.Claim? && mid == Apply(db, a) && mid.task.status == Running
    requires db.task.status == Queued
    ensures mid.profile == db.profile && mid.envelope == db.envelope && mid.task.stage == db.task.stage
    ensures HistoryOf(mid) == HistoryOf(db)
  {
    hide Apply, Admissible, SeededRows, Balanced, Logged, Ending, Bounded, Numbered, Placed, WellFormed;
    hide EveryLoopScored;
    hide Leased, Recorded, History, KnownToken, NextAttempt, LogsOne, Moves;
    var shape := ShapeOf(db, a);
    HistoryGrows(db, mid, shape);
  }

  /** A commit of an ordinary outcome appends its run and moves the task along a declared edge. */
  lemma CommitGoesOn(mid: Db, after: Db, token: Token, result: RunResult, op: Token) returns (run: CommittedRun)
    requires Consistent(mid) && mid.envelope && Admissible(mid, Commit(token, result, op))
    requires CommitStep(mid, token, result, op) == Ok(after) && Continues(result)
    ensures run == CommittedRun(mid.task.stage, Sealed(result.response, result.reason))
    ensures HistoryOf(after) == HistoryOf(mid) + [run]
    ensures Leads(mid.profile, mid.task.stage, after.task.stage)
    ensures StageArity(mid.profile, mid.task.stage) != Neither
  {
    hide SeededRows, Balanced, Logged, Ending, Bounded, Numbered, Placed, WellFormed, EveryLoopScored, Uncapped;
    hide Recorded, History, Targets, Bump, MaxNumber, UsedOp, HasShape, Settles, Moves, Declares, TargetOf;
    var k := FindRun(mid.runs, token).value;
    TheActiveRun(mid, k);
    run := CommittedRun(mid.task.stage, Sealed(result.response, result.reason));
    assert after.runs[k].status == Committed && CommittedRun(after.runs[k].stage, after.runs[k].seal) == run;
    CommitShape(mid, token, result, op);
    SettledShape(mid, after, k);
    HistoryGrows(mid, after, Settled(k));
    OutcomeLeads(mid.profile, mid.task.stage, result.outcome.value);
    LeadsToTarget(mid.profile, mid.task.stage, after.task.stage);
  }

  lemma SettledShape(db: Db, after: Db, k: nat)
    requires Settles(db, after, k) && Moves(db, after, db.runs[k].stage)
    requires after.profile == db.profile && after.envelope == db.envelope
    ensures HasShape(db, after, Settled(k))
  {
    hide Settles, Moves;
  }

  /**
   Turn after turn with no resume in between, each with an ordinary outcome. Every turn but the last
   leaves the task queued for the next; the last one may also end it, or park it on an edge cap.
   */
  ghost predicate Loops(states: seq<Db>) {
    && states != [] && Consistent(states[0]) && states[0].envelope
    && (forall i: nat :: i + 1 < |states| ==> Turns(states[i], states[i + 1]))
  }

  ghost predicate Turns(db: Db, after: Db) {
    exists mid, t, c :: TakesTurn(db, mid, after, t, c) && Ordinary(db, t, c)
  }

  /** The runs such a stretch has committed form a segment on top of the history it started from. */
  lemma {:induction false} LoopIsSegment(states: seq<Db>) returns (runs: seq<CommittedRun>)
    requires Loops(states)
    ensures Consistent(Last(states)) && Last(states).envelope && Last(states).profile == states[0].profile
    ensures |runs| == |states| - 1 && HistoryOf(Last(states)) == HistoryOf(states[0]) + runs
    ensures Segment(states[0].profile, HistoryOf(states[0]), runs)
    ensures forall i: nat :: i < |runs| ==> Leads(states[0].profile, states[i].task.stage, states[i + 1].task.stage)
    ensures forall i :: 0 <= i < |states| ==> HistoryOf(states[i]) == HistoryOf(states[0]) + runs[..i]
    ensures forall i :: 0 <= i < |runs| ==> runs[i].stage == states[i].task.stage
  {
    hide Consistent, TakesTurn, Ordinary, WentOn, Leads, StageArity, Reachable, Targets, HistoryOf;
    if |states| == 1 {
      runs := [];
    } else {
      var before := Front(states);
      assert Loops(before) by {
        forall i: nat | i + 1 < |before| ensures Turns(before[i], before[i + 1]) {
          assert Turns(states[i], states[i + 1]);
        }
      }
      var earlier := LoopIsSegment(before);
      assert Last(before) == states[|states| - 2] && Last(states) == states[|states| - 1];
      assert Turns(states[|states| - 2], states[|states| - 1]);
      var mid, t, c :| TakesTurn(Last(before), mid, Last(states), t, c) && Ordinary(Last(before), t, c);
      var run := TurnGoesOn(Last(before), mid, Last(states), t, c);
      runs := earlier + [run];
      StandsOnReachable(Last(before));
      if earlier != [] {
        LeadsToTarget(states[0].profile, Last(earlier).stage, run.stage);
      }
      ExtendSegment(states[0].profile, HistoryOf(states[0]), earlier, run);
      assert HistoryOf(Last(states)) == HistoryOf(states[0]) + runs;
      forall i | 0 <= i < |states| ensures HistoryOf(states[i]) == HistoryOf(states[0]) + runs[..i] {
        if i < |before| {
          assert before[i] == states[i] && runs[..i] == earlier[..i];
        } else {
          assert runs[..i] == runs;
        }
      }
    }
  }

  lemma ContextIsUnique(p: Profile, h: seq<CommittedRun>, c: Context, d: Context)
    requires IsContext(p, h, c) && IsContext(p, h, d)
    ensures c == d
  {
    hide Tampered, Qualifies, EverResolved;
    if c.Repeat? && d.Repeat? {
      assert c.historical == d.historical;
    }
  }

  lemma ScoredInContext(p: Profile, h: seq<CommittedRun>, run: CommittedRun, c: Context)
    requires Review(p, run) && WentOn(p, h, run) && IsContext(p, h, c)
    ensures Scored(p, h, run, c)
  {
    hide IsContext, ReadRun, StageArity;
    ReviewArity(p, run);
    var d :| Scored(p, h, run, d);
    ContextIsUnique(p, h, c, d);
  }

  /**
   The same of the controller's own turns: after an accepted repeat review at turn i, every later review of
   the stretch that went on, the last one included, lists a subset of what the repeat listed.
   */
  lemma LoopRepeatsOnlyShrink(states: seq<Db>, i: nat, ci: Context, j: nat)
    returns (repeated: CommittedRun, later: CommittedRun)
    requires Loops(states) && i < j < |states| - 1
    requires StageArity(states[0].profile, states[i].task.stage) == Branching
    requires StageArity(states[0].profile, states[j].task.stage) == Branching
    requires IsContext(states[0].profile, HistoryOf(states[i]), ci) && ci.Repeat?
    ensures HistoryOf(states[i + 1]) == HistoryOf(states[i]) + [repeated]
    ensures HistoryOf(states[j + 1]) == HistoryOf(states[j]) + [later]
    ensures ReadRun(states[0].profile, repeated).Read? && ReadRun(states[0].profile, later).Read?
    ensures ReadRun(states[0].profile, later).record.live <= ReadRun(states[0].profile, repeated).record.live
  {
    hide Consistent, Loops, HistoryOf, StageArity, ReadRun, IsContext, Scored;
    var p, h := states[0].profile, HistoryOf(states[0]);
    var runs := LoopIsSegment(states);
    repeated, later := runs[i], runs[j];
    NextRun(h, runs, i);
    NextRun(h, runs, j);
    assert WentOn(p, h + runs[..i], runs[i]);
    ScoredInContext(p, h + runs[..i], runs[i], ci);
    RepeatsOnlyShrink(p, h, runs, i, ci, j);
  }

  lemma NextRun(h: seq<CommittedRun>, runs: seq<CommittedRun>, i: nat)
    requires i < |runs|
    ensures h + runs[..i + 1] == (h + runs[..i]) + [runs[i]]
  {
    assert runs[..i + 1] == runs[..i] + [runs[i]];
  }

  lemma StandsOnReachable(db: Db)
    requires Consistent(db)
    ensures Reachable(db.profile, db.task.stage)
  {
  }

  lemma ExtendSegment(p: Profile, h: seq<CommittedRun>, runs: seq<CommittedRun>, run: CommittedRun)
    requires Segment(p, h, runs) && WentOn(p, h + runs, run)
    requires StageArity(p, run.stage) != Neither && Reachable(p, run.stage)
    requires runs != [] ==> run.stage in Targets(p, Last(runs).stage)
    ensures Segment(p, h, runs + [run])
  {
    hide WentOn, StageArity, Reachable, Targets;
    var longer := runs + [run];
    forall i | 0 <= i < |longer| ensures WentOn(p, h + longer[..i], longer[i]) {
      assert longer[..i] == runs[..i];
      if i == |runs| {
        assert longer[..i] == runs;
      }
    }
  }

  /**
   The automatic loop of an envelope task whose profile passes the gate is bounded although no cap stops it:
   by the stages it can enter, times the findings of its opening review.
   */
  lemma AutomaticLoopEnds(states: seq<Db>) returns (runs: seq<CommittedRun>)
    requires Loops(states) && EveryLoopScored(states[0].profile)
    ensures HistoryOf(Last(states)) == HistoryOf(states[0]) + runs
    ensures |states| - 1 <= LoopBound(states[0].profile, runs)
  {
    hide Loops, EveryLoopScored, Segment, LoopBound, Consistent, HistoryOf;
    runs := LoopIsSegment(states);
    SegmentIsBounded(states[0].profile, HistoryOf(states[0]), runs);
  }

  ghost function Prefix(f: nat -> Db, n: nat): (states: seq<Db>) {
    seq(n + 1, i requires 0 <= i < n + 1 => f(i))
  }

  lemma OpeningStays(p: Profile, runs: seq<CommittedRun>, longer: seq<CommittedRun>)
    requires runs <= longer && Groups(p, runs, true) >= 2
    ensures Opening(p, longer) == Opening(p, runs) && Groups(p, longer, true) >= 2
    decreases |longer|
  {
    hide Review;
    if |longer| > |runs| {
      assert runs <= Front(longer);
      OpeningStays(p, runs, Front(longer));
    } else {
      assert longer == runs;
    }
  }

  /** Long enough stretches contain a second group of reviews, which fixes the opening for good. */
  lemma LongHasTwoGroups(p: Profile, h: seq<CommittedRun>, runs: seq<CommittedRun>)
    requires EveryLoopScored(p) && Segment(p, h, runs)
    requires |runs| > |Enterable(p, true)| + 2 * |Enterable(p, false)|
    ensures Groups(p, runs, true) >= 2
  {
    hide Segment, Review, EveryLoopScored, Enterable;
    LengthByGroups(p, h, runs);
    TrailingFits(p, h, runs);
    GroupsAlternate(p, runs);
    if Groups(p, runs, true) < 2 {
      RoomMonotone(|Enterable(p, true)|, |Enterable(p, false)|, Groups(p, runs, true), Groups(p, runs, false), 1, 2);
    }
  }

  /** Once a second group of reviews has begun, the bound is fixed. */
  lemma BoundStays(p: Profile, runs: seq<CommittedRun>, longer: seq<CommittedRun>)
    requires runs <= longer && Groups(p, runs, true) >= 2
    ensures LoopBound(p, longer) == LoopBound(p, runs)
  {
    hide Review, LiveSize, Enterable;
    OpeningStays(p, runs, longer);
    TwoGroupsOpen(p, runs);
  }

  /** There is no endless automatic loop. */
  lemma NoEndlessLoop(f: nat -> Db)
    requires f(0).envelope && EveryLoopScored(f(0).profile)
    ensures exists n: nat :: !Loops(Prefix(f, n))
  {
    hide EveryLoopScored, Segment, Enterable, Loops, LoopBound, Groups, HistoryOf, Consistent, Targets;
    if forall n: nat :: Loops(Prefix(f, n)) {
      var p := f(0).profile;
      var n0 := |Enterable(p, true)| + 2 * |Enterable(p, false)| + 1;
      var runs0 := LoopIsSegment(Prefix(f, n0));
      LongHasTwoGroups(p, HistoryOf(f(0)), runs0);
      SegmentIsBounded(p, HistoryOf(f(0)), runs0);
      var n := n0 + LoopBound(p, runs0);
      var runs := LoopIsSegment(Prefix(f, n));
      HistoryPrefix(f, n0, n, runs0, runs);
      BoundStays(p, runs0, runs);
      SegmentIsBounded(p, HistoryOf(f(0)), runs);
      assert false;
    }
  }

  lemma TwoGroupsOpen(p: Profile, runs: seq<CommittedRun>)
    requires Groups(p, runs, true) >= 2
    ensures Opening(p, runs).Some?
  {
    OpeningWithReviews(p, runs);
  }

  /** A longer stretch has committed everything the shorter one had. */
  lemma HistoryPrefix(f: nat -> Db, n0: nat, n: nat, runs0: seq<CommittedRun>, runs: seq<CommittedRun>)
    requires n0 <= n && Loops(Prefix(f, n)) && Loops(Prefix(f, n0))
    requires HistoryOf(f(n0)) == HistoryOf(f(0)) + runs0 && HistoryOf(f(n)) == HistoryOf(f(0)) + runs
    ensures runs0 <= runs
  {
    hide Consistent, TakesTurn, History, Segment, Targets;
    var tail := Prefix(f, n)[n0..];
    assert Consistent(f(n0)) && f(n0).envelope by {
      var _ := LoopIsSegment(Prefix(f, n0));
    }
    assert Loops(tail) by {
      forall i: nat | i + 1 < |tail| ensures Turns(tail[i], tail[i + 1]) {
        assert Turns(Prefix(f, n)[n0 + i], Prefix(f, n)[n0 + i + 1]);
      }
    }
    var more := LoopIsSegment(tail);
    assert Last(tail) == f(n) && tail[0] == f(n0);
    assert HistoryOf(f(0)) + runs == HistoryOf(f(0)) + (runs0 + more);
    assert (HistoryOf(f(0)) + runs)[|HistoryOf(f(0))|..] == runs;
    assert (HistoryOf(f(0)) + (runs0 + more))[|HistoryOf(f(0))|..] == runs0 + more;
  }

  /** Whatever happens to the task afterwards, its history keeps what it had. */
  lemma {:induction false} HistoryKept(db: Db, actions: seq<Action>)
    requires Consistent(db) && AllAdmissible(db, actions)
    ensures Consistent(Run(db, actions)) && HistoryOf(db) <= HistoryOf(Run(db, actions))
    ensures Run(db, actions).profile == db.profile && Run(db, actions).envelope == db.envelope
  {
    hide Consistent, Apply, Admissible, HasShape, History;
    if actions != [] {
      var mid := Run(db, Front(actions));
      HistoryKept(db, Front(actions));
      KeepsConsistent(mid, Last(actions));
      OneStepHistory(mid, Last(actions));
    }
  }

  lemma OneStepHistory(db: Db, a: Action)
    requires Consistent(db) && Admissible(db, a)
    ensures HistoryOf(db) <= HistoryOf(Apply(db, a))
    ensures Apply(db, a).profile == db.profile && Apply(db, a).envelope == db.envelope
  {
    hide Apply, Admissible, HasShape, History, Leased, Recorded, WellFormed, SeededRows, Balanced, Logged, Ending;
    hide Bounded, Numbered, Placed;
    var shape := ShapeOf(db, a);
    HistoryGrows(db, Apply(db, a), shape);
    KeepsProfile(db, a, shape);
  }

  /**
   Over the whole life of a task, user resumes and interruptions included: what an accepted repeat review
   resolved is not live in any later review that commits an ordinary outcome, be it one that requeues the
   task, parks it on an edge cap or ends it.
   */
  lemma ResolvedStaysResolved(
      db: Db, mid: Db, accepted: Db, t: Turn, c: Context,
      actions: seq<Action>, mid': Db, after: Db, t': Turn, c': Context, f: Finding)
    returns (review: CommittedRun, later: CommittedRun)
    requires Consistent(db) && db.envelope && StageArity(db.profile, db.task.stage) == Branching
    requires TakesTurn(db, mid, accepted, t, c) && Ordinary(db, t, c) && c.Repeat?
    requires ReadRun(db.profile, CommittedRun(db.task.stage, Sealed(t.raw.response, t.raw.reason))).Read?
    requires f in ReadRun(db.profile, CommittedRun(db.task.stage, Sealed(t.raw.response, t.raw.reason))).record.resolved
    requires AllAdmissible(accepted, actions)
    requires TakesTurn(Run(accepted, actions), mid', after, t', c') && Ordinary(Run(accepted, actions), t', c')
    requires StageArity(db.profile, Run(accepted, actions).task.stage) == Branching
    ensures HistoryOf(after) == HistoryOf(Run(accepted, actions)) + [later]
    ensures ReadRun(db.profile, later).Read? && f !in ReadRun(db.profile, later).record.live
  {
    hide Consistent, Run, AllAdmissible, IsContext, ReadRun, StageArity, History, Admissible, ClaimStep, CommitStep;
    hide ApplyConvergence;
    var p := db.profile;
    review := ScoredTurn(db, mid, accepted, t, c);
    HistoryKept(accepted, actions);
    var now := Run(accepted, actions);
    later := ScoredTurn(now, mid', after, t', c');
    var h := HistoryOf(accepted);
    var i := |HistoryOf(db)|;
    assert h[..i] == HistoryOf(db) && h[i] == review;
    ResolvedNeverReturns(p, h, i, c, HistoryOf(now), later, c', f);
  }

  /** The scored form of a turn at a branching stage. */
  lemma ScoredTurn(db: Db, mid: Db, after: Db, t: Turn, c: Context) returns (run: CommittedRun)
    requires Consistent(db) && db.envelope && TakesTurn(db, mid, after, t, c) && Ordinary(db, t, c)
    requires StageArity(db.profile, db.task.stage) == Branching
    ensures run == CommittedRun(db.task.stage, Sealed(t.raw.response, t.raw.reason))
    ensures Consistent(after) && after.envelope && after.profile == db.profile
    ensures HistoryOf(after) == HistoryOf(db) + [run] && Scored(db.profile, HistoryOf(db), run, c)
  {
    hide Consistent, Admissible, EveryLoopScored, IsContext, HasShape, StageArity, Targets, FindRun, History, ClaimStep;
    run := TurnGoesOn(db, mid, after, t, c);
    var a1 := Claim(t.token, t.lease, t.claimOp);
    assert Apply(db, a1) == mid;
    ClaimedFrame(db, mid, a1);
    AcceptedIsRaw(t.raw, c);
    ContinuingReviewIsScored(db.profile, HistoryOf(db), db.task.stage, t.raw, c);
  }

  lemma AcceptedIsRaw(raw: RunResult, c: Context)
    requires Continues(ApplyConvergence(raw, c))
    ensures ApplyConvergence(raw, c) == raw
  {
    ContinuingRunIsScored(raw, c);
  }
}

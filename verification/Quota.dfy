/**
 Weekly quota in basis points: evaluation of one pool, admission of nights against a snapshot, and the
 watermark that says which claims a snapshot has already seen (orchestrator/kanban/quota.py).
 */
module Quota {
  import opened Prelude

  type Pool = string

  const RESERVE := 3500
  const NIGHT_CAP := 800
  const WEEK_MS := 604800000

  datatype Snapshot = Snapshot(
    id: string, pool: Pool, remaining: int, observed: int, recorded: int, reset: int, covered: int, stale: bool)

  datatype Claim = Claim(order: int, debit: int)

  datatype Reason = Missing | Invalid | ResetPassed | Stale | AtReserve | OverBudget

  datatype Evaluation = Evaluation(eligible: bool, reason: Option<Reason>, remaining: Option<int>, windows: int,
                                   budget: Option<int>, debited: Option<int>)

  predicate KeyChar(c: char) {
    'a' <= c <= 'z' || '0' <= c <= '9'
  }

  /** Short non-secret aliases. */
  predicate ValidPool(p: Pool) {
    && 1 <= |p| <= 64 && KeyChar(p[0])
    && forall i :: 1 <= i < |p| ==> KeyChar(p[i]) || p[i] in {'.', '_', ':', '-'}
  }

  // ---------------------------------------------------------------- one pool

  predicate SoundSnapshot(s: Snapshot, estimate: int, windows: int, at: int) {
    && ValidPool(s.pool) && 0 <= s.remaining <= 10000 && s.covered >= 0
    && s.observed <= s.recorded <= at && windows >= 0 && estimate > 0
    && s.observed <= at && s.observed < s.reset <= s.observed + WEEK_MS
  }

  predicate SoundClaims(claims: seq<Claim>) {
    forall i :: 0 <= i < |claims| ==> claims[i].order > 0 && claims[i].debit >= 0
  }

  /** Every debit after the watermark, whatever became of the run. */
  function Debited(claims: seq<Claim>, covered: int): (sum: int) {
    if claims == [] then 0
    else Debited(Front(claims), covered) + (if Last(claims).order > covered then Last(claims).debit else 0)
  }

  function AtLeastOne(windows: int): (w: int)
    ensures w >= 1
  {
    if windows < 1 then 1 else windows
  }

  function Budget(remaining: int, windows: int): (budget: int)
    ensures 0 <= budget <= NIGHT_CAP
  {
    var spare := if remaining > RESERVE then remaining - RESERVE else 0;
    var share := spare / AtLeastOne(windows);
    if share < NIGHT_CAP then share else NIGHT_CAP
  }

  function Refused(reason: Reason, windows: int): Evaluation {
    Evaluation(false, Some(reason), None, windows, None, None)
  }

  function PoolVerdict(s: Option<Snapshot>, estimate: int, windows: int, claims: seq<Claim>, at: int): (e: Evaluation) {
    if s.None? then Refused(Missing, windows)
    else if !SoundSnapshot(s.value, estimate, windows, at) then Refused(Invalid, windows)
    else if at >= s.value.reset then Refused(ResetPassed, windows)
    else if s.value.stale || at - s.value.observed >= WEEK_MS then Refused(Stale, windows)
    else if !SoundClaims(claims) then Refused(Invalid, windows)
    else
      var debit := Debited(claims, s.value.covered);
      var remaining := s.value.remaining - debit;
      var budget := Budget(remaining, windows);
      var reason := if remaining <= RESERVE then Some(AtReserve) else if estimate > budget then Some(OverBudget)
        else None;
      Evaluation(reason.None?, reason, Some(remaining), AtLeastOne(windows), Some(budget), Some(debit))
  }

  /** `evaluate_pool`. */
  method EvaluatePool(s: Option<Snapshot>, estimate: int, windows: int, claims: seq<Claim>,
                      at: int) returns (e: Evaluation)
    ensures e == PoolVerdict(s, estimate, windows, claims, at)
  {
    if s.None? {
      return Refused(Missing, windows);
    }
    if !SoundSnapshot(s.value, estimate, windows, at) {
      return Refused(Invalid, windows);
    }
    if at >= s.value.reset {
      return Refused(ResetPassed, windows);
    }
    if s.value.stale || at - s.value.observed >= WEEK_MS {
      return Refused(Stale, windows);
    }
    var debit := 0;
    for i := 0 to |claims|
      invariant debit == Debited(claims[..i], s.value.covered)
      invariant SoundClaims(claims[..i])
    {
      TakeOne(claims, i);
      if claims[i].order <= 0 || claims[i].debit < 0 {
        return Refused(Invalid, windows);
      }
      if claims[i].order > s.value.covered {
        debit := debit + claims[i].debit;
      }
    }
    assert claims[..|claims|] == claims;
    var remaining := s.value.remaining - debit;
    var budget := Budget(remaining, windows);
    e := Evaluation(false, None, Some(remaining), AtLeastOne(windows), Some(budget), Some(debit));
    if remaining <= RESERVE {
      e := e.(reason := Some(AtReserve));
    } else if estimate > budget {
      e := e.(reason := Some(OverBudget));
    } else {
      e := e.(eligible := true);
    }
  }

  lemma FitsBudget(spare: int, w: int, estimate: int)
    requires w >= 1 && estimate > 0 && spare > 0
    ensures estimate <= spare / w <==> estimate * w <= spare
  {
    ShareTooBig(spare, w, estimate);
    if estimate <= spare / w {
      ShareDivides(spare, w, estimate);
    }
  }

  lemma NothingFits(spare: int, w: int, estimate: int)
    requires w >= 1 && estimate > 0 && spare <= 0
    ensures estimate * w > spare
  {
    assert estimate * w >= estimate;
  }

  /** Admission without the division: every remaining window could spend the same without reaching the reserve. */
  lemma EligibleExactly(s: Snapshot, estimate: int, windows: int, claims: seq<Claim>, at: int)
    requires SoundSnapshot(s, estimate, windows, at) && at < s.reset && !s.stale && at - s.observed < WEEK_MS
             && SoundClaims(claims)
    ensures PoolVerdict(Some(s), estimate, windows, claims, at).eligible <==>
              estimate <= NIGHT_CAP && estimate * AtLeastOne(windows) <=
                s.remaining - Debited(claims, s.covered) - RESERVE
  {
    hide Debited, ValidPool, SoundClaims, AtLeastOne;
    var spare := s.remaining - Debited(claims, s.covered) - RESERVE;
    if spare > 0 {
      FitsBudget(spare, AtLeastOne(windows), estimate);
    } else {
      NothingFits(spare, AtLeastOne(windows), estimate);
    }
  }

  // ---------------------------------------------------------------- all pools

  datatype Verdict = NoKey | NoEstimate | Evaluated(e: Evaluation)

  function VerdictFor(p: Pool, snapshots: map<Pool, Snapshot>, estimates: map<Pool, int>,
                      claims: map<Pool, seq<Claim>>, windows: int, at: int): (v: Verdict) {
    if !ValidPool(p) then NoKey
    else if p !in estimates then NoEstimate
    else Evaluated(PoolVerdict(if p in snapshots then Some(snapshots[p]) else None, estimates[p], windows,
                               if p in claims then claims[p] else [], at))
  }

  predicate Affordable(v: Verdict) {
    v.Evaluated? && v.e.eligible
  }

  /** `evaluate_pools`: every distinct required pool must afford its share, and there must be one. */
  method EvaluatePools(required: seq<Pool>, snapshots: map<Pool, Snapshot>, estimates: map<Pool, int>,
                       claims: map<Pool, seq<Claim>>, windows: int, at: int)
    returns (eligible: bool, results: map<Pool, Verdict>)
    ensures results.Keys == set p | p in required
    ensures forall p :: p in results ==> results[p] == VerdictFor(p, snapshots, estimates, claims, windows, at)
    ensures eligible <==> required != [] && forall p :: p in required ==>
            Affordable(VerdictFor(p, snapshots, estimates, claims, windows, at))
  {
    hide PoolVerdict, ValidPool;
    results, eligible := map[], true;
    for i := 0 to |required|
      invariant results.Keys == set p | p in required[..i]
      invariant forall p :: p in results ==> results[p] == VerdictFor(p, snapshots, estimates, claims, windows, at)
      invariant eligible <==> forall p :: p in results ==> Affordable(results[p])
    {
      var pool := required[i];
      assert required[..i + 1] == required[..i] + [pool];
      if pool !in results {
        var v := NoKey;
        if ValidPool(pool) {
          v := NoEstimate;
          if pool in estimates {
            var e := EvaluatePool(if pool in snapshots then Some(snapshots[pool]) else None, estimates[pool], windows,
                                  if pool in claims then claims[pool] else [], at);
            v := Evaluated(e);
          }
        }
        ghost var before := results;
        results := results[pool := v];
        assert forall p :: p in results <==> p in before || p == pool;
        eligible := eligible && Affordable(v);
      }
    }
    assert required[..|required|] == required;
    forall p ensures p in results <==> p in required {
    }
    eligible := eligible && required != [];
  }

  // ---------------------------------------------------------------- nights against one snapshot

  /** A night that asks for a share: its estimate, the windows it counts and when it asks. */
  datatype Night = Night(ask: int, windows: int, at: int)

  /** The claims after the given nights were admitted, each numbered past everything before it. */
  function ClaimsAfter(before: seq<Claim>, nights: seq<Night>, next: int): (claims: seq<Claim>) {
    if nights == [] then before
    else ClaimsAfter(before, Front(nights), next) + [Claim(next + |nights| - 1, Last(nights).ask)]
  }

  predicate AllAdmitted(s: Snapshot, before: seq<Claim>, nights: seq<Night>, next: int) {
    nights == []
    || (AllAdmitted(s, before, Front(nights), next)
        && PoolVerdict(Some(s), Last(nights).ask, Last(nights).windows, ClaimsAfter(before, Front(nights), next),
                       Last(nights).at).eligible)
  }

  function Remaining(s: Snapshot, claims: seq<Claim>): (r: int) {
    s.remaining - Debited(claims, s.covered)
  }

  lemma DebitedStep(claims: seq<Claim>, c: Claim, covered: int)
    ensures Debited(claims + [c], covered) == Debited(claims, covered) + (if c.order > covered then c.debit else 0)
  {
    assert Front(claims + [c]) == claims;
  }

  /** A share of what is above the reserve never reaches into the reserve. */
  lemma BudgetKeepsReserve(remaining: int, windows: int)
    requires remaining > RESERVE
    ensures remaining - Budget(remaining, windows) >= RESERVE
  {
  }

  /** No sequence of admissions, however long and whatever windows they count, takes the pool below its reserve. */
  lemma {:induction false} ReserveIsNeverTouched(s: Snapshot, before: seq<Claim>, nights: seq<Night>, next: int)
    requires next > s.covered && AllAdmitted(s, before, nights, next) && nights != []
    ensures Remaining(s, ClaimsAfter(before, nights, next)) >= RESERVE
  {
    hide Budget, SoundSnapshot;
    var last, claims := Last(nights), ClaimsAfter(before, Front(nights), next);
    DebitedStep(claims, Claim(next + |nights| - 1, last.ask), s.covered);
    BudgetKeepsReserve(Remaining(s, claims), last.windows);
  }

  // ---------------------------------------------------------------- the promise of the first night's budget

  /** w nights left, each asking at most the share the first was given, one window fewer each time. */
  predicate Modest(s: Snapshot, nights: seq<Night>, w: int, share: int) {
    forall i :: 0 <= i < |nights| ==>
      0 < nights[i].ask <= share && nights[i].windows == w - i
      && s.recorded <= nights[i].at < s.reset && nights[i].at - s.observed < WEEK_MS
  }

  lemma ShareDivides(spare: int, w: int, share: int)
    requires w >= 1 && spare >= 0 && share <= spare / w
    ensures share * w <= spare
  {
    assert spare == w * (spare / w) + spare % w;
    assert share * w <= spare / w * w;
  }

  lemma ShareTooBig(spare: int, w: int, share: int)
    requires w >= 1
    ensures share > spare / w ==> share * w > spare
  {
    if share > spare / w {
      assert (spare / w + 1) * w <= share * w;
    }
  }

  lemma ShareFits(spare: int, w: int, share: int)
    requires w >= 1 && share * w <= spare
    ensures share <= spare / w
  {
    ShareTooBig(spare, w, share);
  }

  lemma BudgetIsShare(remaining: int, w: int)
    requires w >= 1 && remaining > RESERVE
    ensures Budget(remaining, w) * w <= remaining - RESERVE
  {
    ShareDivides(remaining - RESERVE, w, Budget(remaining, w));
  }

  lemma BudgetCovers(remaining: int, w: int, share: int)
    requires w >= 1 && 0 < share <= NIGHT_CAP && share * w <= remaining - RESERVE
    ensures remaining > RESERVE && share <= Budget(remaining, w)
  {
    assert share * w >= share;
    ShareFits(remaining - RESERVE, w, share);
  }

  lemma ModestFront(s: Snapshot, nights: seq<Night>, w: int, share: int)
    requires Modest(s, nights, w, share) && nights != []
    ensures Modest(s, Front(nights), w, share)
    ensures 0 < Last(nights).ask <= share && Last(nights).windows == w - (|nights| - 1)
    ensures s.recorded <= Last(nights).at < s.reset && Last(nights).at - s.observed < WEEK_MS
  {
    assert forall i :: 0 <= i < |Front(nights)| ==> Front(nights)[i] == nights[i];
    assert Last(nights) == nights[|nights| - 1];
  }

  lemma SoundLonger(claims: seq<Claim>, c: Claim)
    requires SoundClaims(claims) && c.order > 0 && c.debit >= 0
    ensures SoundClaims(claims + [c])
  {
  }

  lemma MulStep(share: int, n: int)
    ensures share * (n + 1) == share * n + share
  {
  }

  lemma {:induction false} SpentAtMost(s: Snapshot, before: seq<Claim>, nights: seq<Night>, next: int, w: int,
                                       share: int)
    requires Modest(s, nights, w, share) && next > s.covered && next > 0 && SoundClaims(before)
    ensures Debited(ClaimsAfter(before, nights, next), s.covered) <= Debited(before, s.covered) + share * |nights|
    ensures SoundClaims(ClaimsAfter(before, nights, next))
  {
    hide Modest, SoundClaims;
    if nights == [] {
      assert share * 0 == 0;
    } else {
      ModestFront(s, nights, w, share);
      SpentAtMost(s, before, Front(nights), next, w, share);
      var c, earlier := Claim(next + |nights| - 1, Last(nights).ask), ClaimsAfter(before, Front(nights), next);
      DebitedStep(earlier, c, s.covered);
      SoundLonger(earlier, c);
      MulStep(share, |nights| - 1);
    }
  }

  /** The last of the modest nights still finds its share above the reserve. */
  lemma LastShareIsLeft(s: Snapshot, before: seq<Claim>, nights: seq<Night>, next: int, w: int, share: int)
    requires nights != [] && |nights| <= w && share == Budget(Remaining(s, before), w) && share > 0
    requires Debited(ClaimsAfter(before, Front(nights), next), s.covered) <=
             Debited(before, s.covered) + share * (|nights| - 1)
    ensures var left := Remaining(s, ClaimsAfter(before, Front(nights), next));
            left > RESERVE && share <= Budget(left, w - (|nights| - 1))
  {
    hide Budget, Debited, ClaimsAfter;
    var i := |nights| - 1;
    ShareIsPositive(Remaining(s, before), w);
    BudgetIsShare(Remaining(s, before), w);
    Distribute(share, i, w - i);
    BudgetCovers(Remaining(s, ClaimsAfter(before, Front(nights), next)), w - i, share);
  }

  lemma Distribute(share: int, a: int, b: int)
    ensures share * (a + b) == share * a + share * b
  {
  }

  /**
   From one snapshot with w windows left, w successive nights each asking at most the first budget are all
   admitted.
   */
  lemma {:induction false} ModestNightsAreAdmitted(s: Snapshot, before: seq<Claim>, nights: seq<Night>, next: int,
                                                   w: int, share: int)
    requires SoundSnapshot(s, 1, w, s.recorded) && !s.stale && SoundClaims(before) && next > s.covered
    requires w >= 1 && |nights| <= w && share == Budget(Remaining(s, before), w)
    requires Modest(s, nights, w, share)
    ensures AllAdmitted(s, before, nights, next)
  {
    hide Budget, ValidPool, Modest, SoundClaims, Debited, ClaimsAfter;
    if nights != [] {
      ModestFront(s, nights, w, share);
      ModestNightsAreAdmitted(s, before, Front(nights), next, w, share);
      SpentAtMost(s, before, Front(nights), next, w, share);
      LastShareIsLeft(s, before, nights, next, w, share);
    }
  }

  lemma ShareIsPositive(remaining: int, w: int)
    requires w >= 1
    ensures Budget(remaining, w) <= NIGHT_CAP && (Budget(remaining, w) > 0 ==> remaining > RESERVE)
  {
  }
}

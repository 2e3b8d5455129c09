/**
 The quota ledger: night claims in sequence, manual snapshots with the sequence they cover, and
 invalidation (`snapshot_command`, `latest_snapshot`, `claims_after_watermark`, `invalidate_command`
 of orchestrator/kanban/quota.py). Claims are reserved and stopped by the night runner, which is not
 part of this model beyond numbering each claim past all earlier ones and never reopening a stopped one.
 */
module QuotaLedger {
  import opened Prelude
  import opened Quota

  datatype Phase = Reserved | Submitted | Unknown | Stopped | OtherPhase

  /**
   A night row; `claims` is None when the stored text cannot be decoded. A decoded value that is not an object
   claims nothing, and an entry whose debit is not a non-negative integer counts as a negative debit.
   */
  datatype Night = NightRow(order: int, claims: Option<map<Pool, int>>, phase: Phase, stop: Option<int>)

  datatype Observation = Observation(id: string, pool: Pool, remaining: int, observed: int, reset: int)

  datatype Refusal =
    | QuotaInvalid | ClaimActive | StopUnverified | ObservedTooEarly | SnapshotConflict
    | SnapshotMissing | SnapshotStale

  function MaxOrder(nights: seq<Night>): (m: int)
    ensures m >= 0
    ensures forall i :: 0 <= i < |nights| ==> nights[i].order <= m
  {
    if nights == [] then 0
    else if Last(nights).order > MaxOrder(Front(nights)) then Last(nights).order else MaxOrder(Front(nights))
  }

  predicate IdChar(c: char) {
    'a' <= c <= 'z' || 'A' <= c <= 'Z' || '0' <= c <= '9'
  }

  predicate ValidId(id: string) {
    && 1 <= |id| <= 128 && IdChar(id[0])
    && forall i :: 1 <= i < |id| ==> IdChar(id[i]) || id[i] in {'.', '_', ':', '-'}
  }

  predicate ValidObservation(o: Observation, now: int) {
    ValidPool(o.pool) && ValidId(o.id) && 0 <= o.remaining <= 10000
    && o.observed <= now && o.observed < o.reset <= o.observed + WEEK_MS
  }

  /** Why one night row forbids an observation, if it does. */
  function RowProblem(n: Night, o: Observation): (r: Option<Refusal>) {
    if n.claims.None? then Some(QuotaInvalid)
    else if o.pool !in n.claims.value then None
    else if n.phase.Reserved? || n.phase.Submitted? || n.phase.Unknown? then Some(ClaimActive)
    else if !n.phase.Stopped? || n.stop.None? then Some(StopUnverified)
    else if o.observed < n.stop.value then Some(ObservedTooEarly) else None
  }

  function FirstProblem(nights: seq<Night>, o: Observation): (r: Option<Refusal>)
    ensures r.None? <==> forall i :: 0 <= i < |nights| ==> RowProblem(nights[i], o).None?
  {
    if nights == [] then None
    else if RowProblem(nights[0], o).Some? then RowProblem(nights[0], o)
    else
      assert forall i :: 1 <= i < |nights| ==> nights[i] == nights[1..][i - 1];
      FirstProblem(nights[1..], o)
  }

  predicate Taken(snapshots: seq<Snapshot>, id: string) {
    exists i :: 0 <= i < |snapshots| && snapshots[i].id == id
  }

  datatype Ledger = Ledger(nights: seq<Night>, snapshots: seq<Snapshot>)

  function SnapshotStep(l: Ledger, o: Observation, now: int): (r: Result<Ledger, Refusal>) {
    if !ValidObservation(o, now) then Err(QuotaInvalid)
    else if FirstProblem(l.nights, o).Some? then Err(FirstProblem(l.nights, o).value)
    else if Taken(l.snapshots, o.id) then Err(SnapshotConflict)
    else Ok(l.(snapshots := l.snapshots + [Snapshot(o.id, o.pool, o.remaining, o.observed, now, o.reset,
                                                    MaxOrder(l.nights), false)]))
  }

  function FindSnapshot(snapshots: seq<Snapshot>, id: string): (k: Option<nat>)
    ensures k.Some? ==> k.value < |snapshots| && snapshots[k.value].id == id
    ensures k.None? ==> forall i :: 0 <= i < |snapshots| ==> snapshots[i].id != id
  {
    if snapshots == [] then None
    else if Last(snapshots).id == id then Some(|snapshots| - 1) else FindSnapshot(Front(snapshots), id)
  }

  function InvalidateStep(l: Ledger, id: string): (r: Result<Ledger, Refusal>) {
    match FindSnapshot(l.snapshots, id)
    case None => Err(SnapshotMissing)
    case Some(k) =>
      if l.snapshots[k].stale then Err(SnapshotStale)
      else Ok(l.(snapshots := l.snapshots[k := l.snapshots[k].(stale := true)]))
  }

  /** The newest observation of a pool, stale or not. */
  function Latest(snapshots: seq<Snapshot>, pool: Pool): (s: Option<Snapshot>) {
    if snapshots == [] then None
    else
      var earlier := Latest(Front(snapshots), pool);
      if Last(snapshots).pool != pool then earlier
      else if earlier.Some? && earlier.value.recorded > Last(snapshots).recorded then earlier
      else Some(Last(snapshots))
  }

  /** The debits of a pool after a watermark, or None when a stored claim cannot be read. */
  function Uncovered(nights: seq<Night>, pool: Pool, covered: int): (claims: Option<seq<Claim>>) {
    if nights == [] then Some([])
    else
      var earlier, n := Uncovered(Front(nights), pool, covered), Last(nights);
      if n.order <= covered || earlier.None? then earlier
      else if n.claims.None? then None
      else if pool !in n.claims.value then earlier
      else if n.claims.value[pool] < 0 then None
      else Some(earlier.value + [Claim(n.order, n.claims.value[pool])])
  }

  class QuotaStore {
    var nights: seq<Night>
    var snapshots: seq<Snapshot>

    ghost function State(): Ledger
      reads this
    {
      Ledger(nights, snapshots)
    }

    method SnapshotCommand(o: Observation, now: int) returns (r: Result<(), Refusal>)
      modifies this
      ensures match SnapshotStep(old(State()), o, now)
              case Ok(after) => State() == after && r == Ok(())
              case Err(refusal) => State() == old(State()) && r == Err(refusal)
      ensures old(Watermarked(State())) ==> Watermarked(State())
    {
      hide ValidObservation, RowProblem, Watermarked;
      ghost var before := State();
      if Watermarked(before) && SnapshotStep(before, o, now).Ok? {
        ObserveKeeps(before, o, now);
      }
      if !ValidObservation(o, now) {
        return Err(QuotaInvalid);
      }
      for i := 0 to |nights|
        invariant nights == old(nights) && snapshots == old(snapshots)
        invariant FirstProblem(nights, o) == FirstProblem(nights[i..], o)
      {
        var problem := RowProblem(nights[i], o);
        if problem.Some? {
          return Err(problem.value);
        }
        assert nights[i..][1..] == nights[i + 1..];
      }
      if Taken(snapshots, o.id) {
        return Err(SnapshotConflict);
      }
      var covered := MaxOrder(nights);
      snapshots := snapshots + [Snapshot(o.id, o.pool, o.remaining, o.observed, now, o.reset, covered, false)];
      return Ok(());
    }

    method InvalidateCommand(id: string) returns (r: Result<(), Refusal>)
      modifies this
      ensures match InvalidateStep(old(State()), id)
              case Ok(after) => State() == after && r == Ok(())
              case Err(refusal) => State() == old(State()) && r == Err(refusal)
      ensures old(Watermarked(State())) ==> Watermarked(State())
    {
      hide Watermarked;
      ghost var before := State();
      if Watermarked(before) {
        InvalidateKeeps(before, id);
      }
      var k := FindSnapshot(snapshots, id);
      if k.None? {
        return Err(SnapshotMissing);
      }
      if snapshots[k.value].stale {
        return Err(SnapshotStale);
      }
      snapshots := snapshots[k.value := snapshots[k.value].(stale := true)];
      return Ok(());
    }

    method ClaimsAfterWatermark(pool: Pool, covered: int) returns (claims: Option<seq<Claim>>)
      ensures claims == Uncovered(nights, pool, covered)
    {
      hide Uncovered;
      var found: seq<Claim> := [];
      NoneUncovered(pool, covered);
      assert nights[..0] == [];
      for i := 0 to |nights|
        invariant Uncovered(nights[..i], pool, covered) == Some(found)
      {
        UncoveredStep(nights, pool, covered, i);
        var n := nights[i];
        if n.order > covered {
          if n.claims.None? || (pool in n.claims.value && n.claims.value[pool] < 0) {
            UnreadableStays(nights, pool, covered, i + 1);
            return None;
          }
          if pool in n.claims.value {
            found := found + [Claim(n.order, n.claims.value[pool])];
          }
        }
      }
      assert nights[..|nights|] == nights;
      return Some(found);
    }
  }

  lemma NoneUncovered(pool: Pool, covered: int)
    ensures Uncovered([], pool, covered) == Some([])
  {
  }

  lemma UncoveredStep(nights: seq<Night>, pool: Pool, covered: int, i: nat)
    requires i < |nights|
    ensures var earlier, n := Uncovered(nights[..i], pool, covered), nights[i];
            Uncovered(nights[..i + 1], pool, covered) ==
              if n.order <= covered || earlier.None? then earlier
              else if n.claims.None? then None
              else if pool !in n.claims.value then earlier
              else if n.claims.value[pool] < 0 then None
              else Some(earlier.value + [Claim(n.order, n.claims.value[pool])])
  {
    TakeOne(nights, i);
  }

  lemma {:induction false} UnreadableStays(nights: seq<Night>, pool: Pool, covered: int, i: nat)
    requires i <= |nights| && Uncovered(nights[..i], pool, covered).None?
    ensures Uncovered(nights, pool, covered).None?
    decreases |nights|
  {
    if i == |nights| {
      assert nights[..i] == nights;
    } else {
      assert Front(nights)[..i] == nights[..i];
      UnreadableStays(Front(nights), pool, covered, i);
    }
  }

  // ---------------------------------------------------------------- runs of the ledger

  datatype Action =
    | Observe(observation: Observation, now: int)
    | Invalidate(id: string)
    | Reserve(claims: map<Pool, int>)
    | MoveTo(k: nat, phase: Phase)
    | StopNight(k: nat, at: int)

  /** A refused command changes nothing; a stopped night stays stopped. */
  function Apply(l: Ledger, a: Action): (after: Ledger) {
    match a
    case Observe(o, now) => (match SnapshotStep(l, o, now) case Ok(after) => after case Err(_) => l)
    case Invalidate(id) => (match InvalidateStep(l, id) case Ok(after) => after case Err(_) => l)
    case Reserve(claims) => l.(nights := l.nights + [NightRow(MaxOrder(l.nights) + 1, Some(claims), Reserved, None)])
    case MoveTo(k, phase) =>
      if k < |l.nights| && !l.nights[k].phase.Stopped? then l.(nights := l.nights[k := l.nights[k].(phase := phase)])
        else l
    case StopNight(k, at) =>
      if k < |l.nights| && !l.nights[k].phase.Stopped? then
        l.(nights := l.nights[k := l.nights[k].(phase := Stopped, stop := Some(at))]) else l
  }

  function Run(actions: seq<Action>): (l: Ledger) {
    if actions == [] then Ledger([], []) else Apply(Run(Front(actions)), Last(actions))
  }

  /** A claim a snapshot covers had safely stopped when the pool was observed. */
  predicate Seen(s: Snapshot, n: Night) {
    n.order <= s.covered && n.claims.Some? && s.pool in n.claims.value ==>
      n.phase.Stopped? && n.stop.Some? && n.stop.value <= s.observed
  }

  ghost predicate Watermarked(l: Ledger) {
    && (forall i, k :: 0 <= i < |l.snapshots| && 0 <= k < |l.nights| ==> Seen(l.snapshots[i], l.nights[k]))
    && (forall i :: 0 <= i < |l.snapshots| ==> l.snapshots[i].covered <= MaxOrder(l.nights))
    && (forall k :: 0 <= k < |l.nights| ==> l.nights[k].order == k + 1 && l.nights[k].claims.Some?)
  }

  lemma {:induction false} MaxUpdate(nights: seq<Night>, k: nat, n: Night)
    requires k < |nights| && n.order == nights[k].order
    ensures MaxOrder(nights[k := n]) == MaxOrder(nights)
  {
    if k < |nights| - 1 {
      assert Front(nights[k := n]) == Front(nights)[k := n];
      MaxUpdate(Front(nights), k, n);
    } else {
      assert Front(nights[k := n]) == Front(nights);
    }
  }

  lemma ObserveKeeps(l: Ledger, o: Observation, now: int)
    requires Watermarked(l) && SnapshotStep(l, o, now).Ok?
    ensures Watermarked(SnapshotStep(l, o, now).value)
  {
    hide ValidObservation, MaxOrder;
  }

  lemma ReserveKeeps(l: Ledger, claims: map<Pool, int>)
    requires Watermarked(l)
    ensures Watermarked(Apply(l, Reserve(claims)))
  {
    var after := Apply(l, Reserve(claims));
    assert Front(after.nights) == l.nights;
    OrderIsLength(l.nights);
  }

  lemma {:induction false} OrderIsLength(nights: seq<Night>)
    requires forall k :: 0 <= k < |nights| ==> nights[k].order == k + 1
    ensures MaxOrder(nights) == |nights|
  {
    if nights != [] {
      assert forall k :: 0 <= k < |Front(nights)| ==> Front(nights)[k] == nights[k];
      OrderIsLength(Front(nights));
    }
  }

  lemma UpdateKeeps(l: Ledger, k: nat, n: Night)
    requires Watermarked(l) && k < |l.nights| && !l.nights[k].phase.Stopped?
    requires n.order == l.nights[k].order && n.claims == l.nights[k].claims
    ensures Watermarked(l.(nights := l.nights[k := n]))
  {
    hide MaxOrder;
    MaxUpdate(l.nights, k, n);
    forall i | 0 <= i < |l.snapshots| ensures Seen(l.snapshots[i], n) {
      assert Seen(l.snapshots[i], l.nights[k]);
    }
  }

  lemma {:induction false} EveryLedgerIsWatermarked(actions: seq<Action>)
    ensures Watermarked(Run(actions))
  {
    hide MaxOrder, SnapshotStep;
    if actions != [] {
      EveryLedgerIsWatermarked(Front(actions));
      var l, a := Run(Front(actions)), Last(actions);
      match a {
        case Observe(o, now) =>
          if SnapshotStep(l, o, now).Ok? {
            ObserveKeeps(l, o, now);
          }
        case Invalidate(id) => InvalidateKeeps(l, id);
        case Reserve(claims) => ReserveKeeps(l, claims);
        case MoveTo(k, phase) =>
          if k < |l.nights| && !l.nights[k].phase.Stopped? {
            UpdateKeeps(l, k, l.nights[k].(phase := phase));
          }
        case StopNight(k, at) =>
          if k < |l.nights| && !l.nights[k].phase.Stopped? {
            UpdateKeeps(l, k, l.nights[k].(phase := Stopped, stop := Some(at)));
          }
      }
    }
  }

  lemma InvalidateKeeps(l: Ledger, id: string)
    requires Watermarked(l)
    ensures Watermarked(Apply(l, Invalidate(id)))
  {
    hide MaxOrder;
  }

  // ---------------------------------------------------------------- covered or debited

  predicate Claims(n: Night, pool: Pool) {
    n.claims.Some? && pool in n.claims.value
  }

  lemma {:induction false} UncoveredHolds(nights: seq<Night>, pool: Pool, covered: int, k: nat)
    requires k < |nights| && Uncovered(nights, pool, covered).Some?
    requires forall i :: 0 <= i < |nights| ==> nights[i].order == i + 1
    ensures (exists c :: c in Uncovered(nights, pool, covered).value && c.order == nights[k].order) <==>
              nights[k].order > covered && Claims(nights[k], pool)
    ensures nights[k].order > covered && Claims(nights[k], pool) ==>
              Claim(nights[k].order, nights[k].claims.value[pool]) in Uncovered(nights, pool, covered).value
    ensures forall c :: c in Uncovered(nights, pool, covered).value ==> 0 < c.order <= |nights|
  {
    var front := Front(nights);
    assert forall i :: 0 <= i < |front| ==> front[i] == nights[i];
    if |nights| > 1 {
      UncoveredHolds(front, pool, covered, if k < |front| then k else 0);
    } else {
      assert front == [] && Uncovered([], pool, covered) == Some([]);
    }
    var earlier, all := Uncovered(front, pool, covered).value, Uncovered(nights, pool, covered).value;
    assert forall c :: c in all ==> c in earlier || c == Last(all);
    assert forall c :: c in earlier ==> c in all;
  }

  /**
   In every reachable ledger a claim of the pool is covered by the latest snapshot, and then had stopped before
   it, or is debited: never both, never neither.
   */
  lemma CoveredOrDebited(actions: seq<Action>, pool: Pool, k: nat)
    requires k < |Run(actions).nights| && Claims(Run(actions).nights[k], pool)
    requires Latest(Run(actions).snapshots, pool).Some?
    requires Uncovered(Run(actions).nights, pool, Latest(Run(actions).snapshots, pool).value.covered).Some?
    ensures var l := Run(actions);
            var s, n := Latest(l.snapshots, pool).value, l.nights[k];
            var debits := Uncovered(l.nights, pool, s.covered).value;
            && (n.order <= s.covered <==> !(exists c :: c in debits && c.order == n.order))
            && (n.order <= s.covered ==> n.phase.Stopped? && n.stop.Some? && n.stop.value <= s.observed)
            && (n.order > s.covered ==> Claim(n.order, n.claims.value[pool]) in debits)
  {
    hide Run, Uncovered, MaxOrder;
    var l := Run(actions);
    EveryLedgerIsWatermarked(actions);
    var i := LatestIsStored(l.snapshots, pool);
    assert Seen(l.snapshots[i], l.nights[k]);
    UncoveredHolds(l.nights, pool, l.snapshots[i].covered, k);
  }

  lemma {:induction false} LatestIsStored(snapshots: seq<Snapshot>, pool: Pool) returns (i: nat)
    requires Latest(snapshots, pool).Some?
    ensures i < |snapshots| && snapshots[i] == Latest(snapshots, pool).value && snapshots[i].pool == pool
    ensures forall j :: 0 <= j < |snapshots| && snapshots[j].pool == pool ==>
            snapshots[j].recorded <= snapshots[i].recorded
  {
    if Latest(Front(snapshots), pool).Some? {
      i := LatestIsStored(Front(snapshots), pool);
      assert forall j :: 0 <= j < |Front(snapshots)| ==> Front(snapshots)[j] == snapshots[j];
      if Latest(snapshots, pool) != Latest(Front(snapshots), pool) {
        i := |snapshots| - 1;
      }
    } else {
      NoneBefore(Front(snapshots), pool);
      assert forall j :: 0 <= j < |Front(snapshots)| ==> Front(snapshots)[j] == snapshots[j];
      i := |snapshots| - 1;
    }
  }

  lemma {:induction false} NoneBefore(snapshots: seq<Snapshot>, pool: Pool)
    requires Latest(snapshots, pool).None?
    ensures forall j :: 0 <= j < |snapshots| ==> snapshots[j].pool != pool
  {
    if snapshots != [] {
      NoneBefore(Front(snapshots), pool);
      assert forall j :: 0 <= j < |Front(snapshots)| ==> Front(snapshots)[j] == snapshots[j];
    }
  }

  /**
   Invalidating never makes an older, more hopeful observation current: the latest one stays, at most marked
   stale.
   */
  lemma {:induction false} InvalidationKeepsTheLatest(snapshots: seq<Snapshot>, k: nat, pool: Pool)
    requires k < |snapshots|
    ensures var after := snapshots[k := snapshots[k].(stale := true)];
            && (Latest(after, pool).Some? <==> Latest(snapshots, pool).Some?)
            && (Latest(after, pool).Some? ==>
                  Latest(after, pool).value.(stale := true) == Latest(snapshots, pool).value.(stale := true)
                  && (Latest(snapshots, pool).value.stale ==> Latest(after, pool).value.stale))
  {
    var after := snapshots[k := snapshots[k].(stale := true)];
    if k < |snapshots| - 1 {
      InvalidationKeepsTheLatest(Front(snapshots), k, pool);
      assert Front(after) == Front(snapshots)[k := snapshots[k].(stale := true)];
    } else {
      assert Front(after) == Front(snapshots);
    }
  }
}

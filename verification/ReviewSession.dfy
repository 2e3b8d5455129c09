/**
 The reviewer session ledger: one record per series, rewritten under a lock, with a pending call written
 before the provider is spawned (`register`, `inspect`, `call`, `finish`, `rehydrate` of
 orchestrator/review_session.py). Locks die with their process; records do not.
 */
module ReviewSession {
  import opened Prelude

  type Series = nat
  type Session = nat
  type Log = nat
  type Process = nat

  datatype State = New | Ready

  /** The sealed manifest of a run, as far as completion looks at it; its hash is the thing itself. */
  datatype Manifest = Manifest(log: Log, session: Session, model: nat)

  datatype Hash = HashOf(manifest: Manifest)

  datatype Record = Record(session: Session, model: nat, state: State, pending: Option<Log>, receipt: Option<Hash>,
                           predecessor: Option<Record>)

  /** What a call was settled with: a manifest, and the hash it was verified against. */
  datatype Seal = Seal(manifest: Manifest, hash: Hash)

  /** One provider call that was announced before its spawn, for a session and a model, and what settled it. */
  datatype Call = Call(series: Series, session: Session, model: nat, log: Log, resolved: Option<Seal>)

  /** `calls` is history: every call ever begun. */
  datatype World = World(records: map<Series, Record>, locks: map<Series, Process>, calls: seq<Call>)

  datatype Refusal =
    | Busy | Missing | Changed | InterruptedUnknown | NotExpected | HashMismatch | RunMismatch
    | NotConfirmed | Registered | Belongs | PredecessorChanged

  // ---------------------------------------------------------------- the ledger

  /** `inspect`: the record, if it is the one the caller expects and no call is pending unless that is allowed. */
  function Inspect(records: map<Series, Record>, s: Series, expected: Option<Session>,
                   allowPending: bool): (r: Result<Record, Refusal>) {
    if s !in records then Err(Missing)
    else if expected.Some? && expected.value != records[s].session then Err(Changed)
    else if records[s].pending.Some? && !allowPending then Err(InterruptedUnknown)
    else Ok(records[s])
  }

  /** Every session a record replaced. */
  function Retired(r: Record): (sessions: set<Session>)
    decreases r
  {
    match r.predecessor
    case None => {}
    case Some(p) => {p.session} + Retired(p)
  }

  predicate Owned(records: map<Series, Record>, session: Session) {
    exists s :: s in records && records[s].session == session
  }

  predicate RetiredAnywhere(records: map<Series, Record>, session: Session) {
    exists s :: s in records && session in Retired(records[s])
  }

  /** `register`, with the import's session or a generated one; only current sessions are compared. */
  function DoRegister(w: World, s: Series, session: Session, model: nat, imported: bool): (r: Result<World, Refusal>) {
    if s in w.records then Err(Registered)
    else if Owned(w.records, session) then Err(Belongs)
    else
      Ok(w.(records := w.records[s := Record(session, model, if imported then Ready else New, None, None, None)]))
  }

  /** `call` up to its spawn: take the lock, check, write the pending call. */
  function DoCall(w: World, p: Process, s: Series, expected: Session, log: Log,
                  state: Option<State>): (r: Result<World, Refusal>) {
    if s in w.locks then Err(Busy)
    else
      match Inspect(w.records, s, Some(expected), false)
      case Err(e) => Err(e)
      case Ok(record) =>
        if state.Some? && state.value != record.state then Err(NotExpected)
        else
          Ok(World(w.records[s := record.(pending := Some(log))], w.locks[s := p],
                   w.calls + [Call(s, record.session, record.model, log, None)]))
  }

  /** The call is still open, and it is the one this series announced for this session and log. */
  predicate Opened(c: Call, s: Series, session: Session, log: Log) {
    c.resolved.None? && c.series == s && c.session == session && c.log == log
  }

  function Settle(calls: seq<Call>, s: Series, session: Session, log: Log, seal: Seal): (settled: seq<Call>)
    ensures |settled| == |calls|
    ensures forall i :: 0 <= i < |calls| ==>
              settled[i] == if Opened(calls[i], s, session, log) then calls[i].(resolved := Some(seal)) else calls[i]
  {
    seq(|calls|, i requires 0 <= i < |calls| =>
      if Opened(calls[i], s, session, log) then calls[i].(resolved := Some(seal)) else calls[i])
  }

  /**
   `finish`: only a manifest whose hash verifies, of this very run, confirming session and model, completes the
   handoff.
   */
  function DoFinish(w: World, s: Series, log: Log, m: Manifest, hash: Hash): (r: Result<World, Refusal>) {
    if s in w.locks then Err(Busy)
    else if s !in w.records then Err(Missing)
    else if HashOf(m) != hash then Err(HashMismatch)
    else if w.records[s].pending != Some(log) || m.log != log then Err(RunMismatch)
    else if m.session != w.records[s].session || m.model != w.records[s].model then Err(NotConfirmed)
    else
      Ok(w.(records := w.records[s := w.records[s].(pending := None, state := Ready, receipt := Some(hash))],
            calls := Settle(w.calls, s, w.records[s].session, log, Seal(m, hash))))
  }

  /** `rehydrate`: an explicit replacement that keeps the whole predecessor record, unknown pending work included. */
  function DoRehydrate(w: World, s: Series, expected: Session, renewed: Session): (r: Result<World, Refusal>) {
    if s in w.locks then Err(Busy)
    else
      match Inspect(w.records, s, None, true)
      case Err(e) => Err(e)
      case Ok(previous) =>
        if previous.session != expected then Err(PredecessorChanged)
        else Ok(w.(records := w.records[s := Record(renewed, previous.model, New, None, None, Some(previous))]))
  }

  datatype Step =
    | Register(series: Series, session: Session, model: nat, imported: bool)
    | BeginCall(process: Process, series: Series, expected: Session, log: Log, state: Option<State>)
    | EndCall(series: Series)
    | Finish(series: Series, log: Log, manifest: Manifest, hash: Hash)
    | Rehydrate(series: Series, expected: Session, renewed: Session)
    | Crash(process: Process)

  /** A session a generated identifier cannot be. */
  predicate Known(w: World, session: Session) {
    Owned(w.records, session) || RetiredAnywhere(w.records, session)
      || exists i :: 0 <= i < |w.calls| && w.calls[i].session == session
  }

  /** Generated sessions are new; an import may name any session it has a receipt for. */
  predicate Allowed(w: World, step: Step) {
    match step
    case Register(_, session, _, imported) => imported || !Known(w, session)
    case Rehydrate(_, _, renewed) => !Known(w, renewed)
    case _ => true
  }

  function Kept(w: World, r: Result<World, Refusal>): (after: World) {
    if r.Ok? then r.value else w
  }

  function Take(w: World, step: Step): (after: World) {
    match step
    case Register(s, session, model, imported) => Kept(w, DoRegister(w, s, session, model, imported))
    case BeginCall(p, s, expected, log, state) => Kept(w, DoCall(w, p, s, expected, log, state))
    case EndCall(s) => w.(locks := w.locks - {s})
    case Finish(s, log, m, hash) => Kept(w, DoFinish(w, s, log, m, hash))
    case Rehydrate(s, expected, renewed) => Kept(w, DoRehydrate(w, s, expected, renewed))
    case Crash(p) => w.(locks := map s | s in w.locks && w.locks[s] != p :: w.locks[s])
  }

  const START := World(map[], map[], [])

  function Run(steps: seq<Step>): (w: World) {
    if steps == [] then START else Take(Run(Front(steps)), Last(steps))
  }

  predicate AllAllowed(steps: seq<Step>) {
    steps == [] || (AllAllowed(Front(steps)) && Allowed(Run(Front(steps)), Last(steps)))
  }

  // ---------------------------------------------------------------- every call is accounted for

  /** The record, or one it replaced, has this call pending. */
  predicate PendingIn(r: Record, session: Session, log: Log)
    decreases r
  {
    (r.session == session && r.pending == Some(log)) || InChain(r, session, log)
  }

  /** The pending call of some predecessor of the record. */
  predicate InChain(r: Record, session: Session, log: Log)
    decreases r, 0
  {
    r.predecessor.Some? && PendingIn(r.predecessor.value, session, log)
  }

  predicate Pending(records: map<Series, Record>, s: Series, session: Session, log: Log) {
    s in records && PendingIn(records[s], session, log)
  }

  /**
   Settled by a hash-verified manifest of this very run, session and model, or still pending in its series'
   record or chain.
   */
  predicate Accounted(records: map<Series, Record>, c: Call) {
    match c.resolved
    case Some(seal) =>
      seal.hash == HashOf(seal.manifest) && seal.manifest == Manifest(c.log, c.session, c.model)
    case None => Pending(records, c.series, c.session, c.log)
  }

  predicate HasOpen(calls: seq<Call>, s: Series, session: Session, log: Log) {
    exists i :: 0 <= i < |calls| && Opened(calls[i], s, session, log)
  }

  ghost predicate AllAccounted(w: World) {
    forall i :: 0 <= i < |w.calls| ==> Accounted(w.records, w.calls[i])
  }

  /** What is pending was announced and is open: the ledger never forgets a call and never invents one. */
  ghost predicate AllBacked(w: World) {
    forall s, session, log :: Pending(w.records, s, session, log) ==> HasOpen(w.calls, s, session, log)
  }

  /** A series keeps its model over every replacement. */
  ghost predicate OneModel(w: World) {
    forall i :: 0 <= i < |w.calls| ==>
            && w.calls[i].series in w.records
            && w.records[w.calls[i].series].model == w.calls[i].model
  }

  /** A current session belongs to one series, and never to that series' own past. */
  ghost predicate Apart(w: World) {
    && (forall s, t :: s in w.records && t in w.records && s != t ==> w.records[s].session != w.records[t].session)
    && (forall s :: s in w.records ==> w.records[s].session !in Retired(w.records[s]))
  }

  ghost predicate Sound(w: World) {
    AllAccounted(w) && AllBacked(w) && OneModel(w) && Apart(w)
  }

  lemma {:induction false} ChainIsRetired(r: Record, session: Session, log: Log)
    requires InChain(r, session, log)
    ensures session in Retired(r)
    decreases r
  {
    var p := r.predecessor.value;
    if !(p.session == session && p.pending == Some(log)) {
      ChainIsRetired(p, session, log);
    }
  }

  lemma CallKeeps(w: World, p: Process, s: Series, expected: Session, log: Log, state: Option<State>)
    requires Sound(w) && DoCall(w, p, s, expected, log, state).Ok?
    ensures Sound(DoCall(w, p, s, expected, log, state).value)
  {
    hide Pending, Retired;
    var after := DoCall(w, p, s, expected, log, state).value;
    forall t, session, l ensures Pending(after.records, t, session, l) <==>
                                 Pending(w.records, t, session, l) || (t == s && session == expected && l == log) {
      PendingAfterCall(w, p, s, expected, log, state, t, session, l);
    }
    forall t, session, l | Pending(after.records, t, session, l) ensures HasOpen(after.calls, t, session, l) {
      if Pending(w.records, t, session, l) {
        assert HasOpen(w.calls, t, session, l);
        var i :| 0 <= i < |w.calls| && Opened(w.calls[i], t, session, l);
        assert Opened(after.calls[i], t, session, l);
      } else {
        assert Opened(after.calls[|w.calls|], t, session, l);
      }
    }
    forall i | 0 <= i < |after.calls| ensures Accounted(after.records, after.calls[i]) {
      if i < |w.calls| {
        assert Accounted(w.records, w.calls[i]);
      }
    }
    SamePredecessor(w.records[s], after.records[s]);
  }

  lemma PendingAfterCall(w: World, p: Process, s: Series, expected: Session, log: Log, state: Option<State>,
                         t: Series, session: Session, l: Log)
    requires DoCall(w, p, s, expected, log, state).Ok?
    ensures Pending(DoCall(w, p, s, expected, log, state).value.records, t, session, l) <==>
            Pending(w.records, t, session, l) || (t == s && session == expected && l == log)
  {
    SameChain(w.records[s], DoCall(w, p, s, expected, log, state).value.records[s], session, l);
  }

  lemma SameChain(a: Record, b: Record, session: Session, log: Log)
    requires a.predecessor == b.predecessor
    ensures InChain(a, session, log) <==> InChain(b, session, log)
  {
  }

  lemma SamePredecessor(a: Record, b: Record)
    requires a.predecessor == b.predecessor
    ensures Retired(a) == Retired(b)
  {
  }

  lemma PendingAfterFinish(w: World, s: Series, log: Log, m: Manifest, hash: Hash, t: Series, session: Session, l: Log)
    requires Apart(w) && DoFinish(w, s, log, m, hash).Ok?
    ensures Pending(DoFinish(w, s, log, m, hash).value.records, t, session, l) <==>
            Pending(w.records, t, session, l) && !(t == s && session == w.records[s].session && l == log)
  {
    SameChain(w.records[s], DoFinish(w, s, log, m, hash).value.records[s], session, l);
    if t == s && InChain(w.records[s], session, l) {
      ChainIsRetired(w.records[s], session, l);
    }
  }

  lemma FinishKeeps(w: World, s: Series, log: Log, m: Manifest, hash: Hash)
    requires Sound(w) && DoFinish(w, s, log, m, hash).Ok?
    ensures Sound(DoFinish(w, s, log, m, hash).value)
  {
    hide Pending, Retired, Settle;
    var after := DoFinish(w, s, log, m, hash).value;
    forall t, session, l ensures Pending(after.records, t, session, l) <==>
                                 Pending(w.records, t, session, l) && !(t == s && session == w.records[s].session
                                     && l == log) {
      PendingAfterFinish(w, s, log, m, hash, t, session, l);
    }
    forall t, session, l | Pending(after.records, t, session, l) ensures HasOpen(after.calls, t, session, l) {
      assert HasOpen(w.calls, t, session, l);
      var i :| 0 <= i < |w.calls| && Opened(w.calls[i], t, session, l);
      assert Opened(after.calls[i], t, session, l);
    }
    forall i | 0 <= i < |after.calls| ensures Accounted(after.records, after.calls[i]) {
      assert Accounted(w.records, w.calls[i]);
    }
    SamePredecessor(w.records[s], after.records[s]);
  }

  lemma PendingAfterRehydrate(w: World, s: Series, expected: Session, renewed: Session, t: Series, session: Session,
                              l: Log)
    requires DoRehydrate(w, s, expected, renewed).Ok?
    ensures Pending(DoRehydrate(w, s, expected, renewed).value.records, t, session, l) <==>
            Pending(w.records, t, session, l)
  {
    var renewed' := DoRehydrate(w, s, expected, renewed).value.records[s];
    assert PendingIn(renewed', session, l) <==> PendingIn(w.records[s], session, l);
  }

  lemma RehydrateKeeps(w: World, s: Series, expected: Session, renewed: Session)
    requires Sound(w) && !Known(w, renewed) && DoRehydrate(w, s, expected, renewed).Ok?
    ensures Sound(DoRehydrate(w, s, expected, renewed).value)
  {
    hide Pending, HasOpen;
    var after := DoRehydrate(w, s, expected, renewed).value;
    assert Retired(after.records[s]) == {w.records[s].session} + Retired(w.records[s]);
    assert !Owned(w.records, renewed) && !RetiredAnywhere(w.records, renewed);
    forall t, session, l ensures Pending(after.records, t, session, l) <==> Pending(w.records, t, session, l) {
      PendingAfterRehydrate(w, s, expected, renewed, t, session, l);
    }
    forall i | 0 <= i < |after.calls| ensures Accounted(after.records, after.calls[i]) {
      assert Accounted(w.records, w.calls[i]);
    }
  }

  lemma PendingAfterRegister(w: World, s: Series, session: Session, model: nat, imported: bool, t: Series,
                             other: Session, l: Log)
    requires DoRegister(w, s, session, model, imported).Ok?
    ensures Pending(DoRegister(w, s, session, model, imported).value.records, t, other, l) <==>
            Pending(w.records, t, other, l)
  {
    assert !PendingIn(DoRegister(w, s, session, model, imported).value.records[s], other, l);
  }

  lemma RegisterKeeps(w: World, s: Series, session: Session, model: nat, imported: bool)
    requires Sound(w) && DoRegister(w, s, session, model, imported).Ok?
    ensures Sound(DoRegister(w, s, session, model, imported).value)
  {
    hide Pending, HasOpen;
    var after := DoRegister(w, s, session, model, imported).value;
    forall t, other, l ensures Pending(after.records, t, other, l) <==> Pending(w.records, t, other, l) {
      PendingAfterRegister(w, s, session, model, imported, t, other, l);
    }
    forall i | 0 <= i < |after.calls| ensures Accounted(after.records, after.calls[i]) {
      assert Accounted(w.records, w.calls[i]);
    }
  }

  lemma LocksDoNotMatter(w: World, locks: map<Series, Process>)
    requires Sound(w)
    ensures Sound(w.(locks := locks))
  {
    hide Pending, HasOpen;
  }

  lemma StepKeeps(w: World, step: Step)
    requires Sound(w) && Allowed(w, step)
    ensures Sound(Take(w, step))
  {
    hide DoRegister, DoCall, DoFinish, DoRehydrate, Sound, Known;
    match step {
      case Register(s, session, model, imported) =>
        if DoRegister(w, s, session, model, imported).Ok? {
          RegisterKeeps(w, s, session, model, imported);
        }
      case BeginCall(p, s, expected, log, state) =>
        if DoCall(w, p, s, expected, log, state).Ok? {
          CallKeeps(w, p, s, expected, log, state);
        }
      case Finish(s, log, m, hash) =>
        if DoFinish(w, s, log, m, hash).Ok? {
          FinishKeeps(w, s, log, m, hash);
        }
      case Rehydrate(s, expected, renewed) =>
        if DoRehydrate(w, s, expected, renewed).Ok? {
          RehydrateKeeps(w, s, expected, renewed);
        }
      case EndCall(s) => LocksDoNotMatter(w, w.locks - {s});
      case Crash(p) => LocksDoNotMatter(w, map s | s in w.locks && w.locks[s] != p :: w.locks[s]);
    }
  }

  lemma {:induction false} EveryWorldIsSound(steps: seq<Step>)
    requires AllAllowed(steps)
    ensures Sound(Run(steps))
  {
    hide Take, Allowed;
    if steps != [] {
      EveryWorldIsSound(Front(steps));
      StepKeeps(Run(Front(steps)), Last(steps));
    }
  }

  /**
   In every crash-interleaved run each call is settled by a hash-verified manifest confirming its log, session
   and model, or pending in its series' record or in the chain of a rehydration; and nothing else is pending.
   */
  lemma EveryCallIsAccounted(steps: seq<Step>)
    requires AllAllowed(steps)
    ensures forall i :: 0 <= i < |Run(steps).calls| ==> Accounted(Run(steps).records, Run(steps).calls[i])
    ensures forall s, session, log :: Pending(Run(steps).records, s, session, log) ==>
            HasOpen(Run(steps).calls, s, session, log)
  {
    hide Run, Accounted, Pending, HasOpen;
    EveryWorldIsSound(steps);
  }

  // ---------------------------------------------------------------- overlapping calls

  predicate OpenOn(calls: seq<Call>, session: Session) {
    exists i :: 0 <= i < |calls| && calls[i].resolved.None? && calls[i].session == session
  }

  /** Some record was rehydrated away from this session while a call on it was pending. */
  ghost predicate PendingInSomeChain(records: map<Series, Record>, session: Session) {
    exists t, log :: t in records && InChain(records[t], session, log)
  }

  /**
   Exactly when a call begins on a session although an earlier call on it is unresolved: when some series was
   rehydrated away from the session with its call still pending (and the session has been imported elsewhere).
   */
  lemma OverlapsExactly(steps: seq<Step>, p: Process, s: Series, session: Session, log: Log, state: Option<State>)
    requires AllAllowed(steps) && DoCall(Run(steps), p, s, session, log, state).Ok?
    ensures OpenOn(Run(steps).calls, session) <==> PendingInSomeChain(Run(steps).records, session)
  {
    hide Run;
    var w := Run(steps);
    EveryWorldIsSound(steps);
    if OpenOn(w.calls, session) {
      var i :| 0 <= i < |w.calls| && w.calls[i].resolved.None? && w.calls[i].session == session;
      var c := w.calls[i];
      assert Accounted(w.records, c);
      assert InChain(w.records[c.series], session, c.log);
    }
    if PendingInSomeChain(w.records, session) {
      var t, l :| t in w.records && InChain(w.records[t], session, l);
      assert Pending(w.records, t, session, l);
      assert HasOpen(w.calls, t, session, l);
    }
  }

  /** A run that gets there: a crash, a rehydration, and an import of the old session into another series. */
  lemma ReimportOverlaps() returns (steps: seq<Step>)
    ensures AllAllowed(steps) && DoCall(Run(steps), 0, 1, 7, 2, None).Ok?
    ensures OpenOn(Run(steps).calls, 7) && PendingInSomeChain(Run(steps).records, 7)
  {
    var first := Record(7, 3, New, Some(1), None, None);
    var renewed := Record(8, 3, New, None, None, Some(first));
    var s1 := [Register(0, 7, 3, false)];
    var s2 := s1 + [BeginCall(0, 0, 7, 1, None)];
    var s3 := s2 + [Crash(0)];
    var s4 := s3 + [Rehydrate(0, 7, 8)];
    steps := s4 + [Register(1, 7, 3, true)];
    assert Front(s1) == [] && Front(s2) == s1 && Front(s3) == s2 && Front(s4) == s3 && Front(steps) == s4;
    var call := Call(0, 7, 3, 1, None);
    assert Run(s1) == World(map[0 := first.(pending := None)], map[], []);
    assert Run(s2) == World(map[0 := first], map[0 := 0], [call]);
    assert Run(s3) == World(map[0 := first], map[], [call]);
    assert Run(s4) == World(map[0 := renewed], map[], [call]);
    assert Run(steps) == World(map[0 := renewed, 1 := Record(7, 3, Ready, None, None, None)], map[], [call]);
    assert AllAllowed(s1) && AllAllowed(s2) && AllAllowed(s3);
    assert Run(steps).calls[0] == call && Run(steps).records[0] == renewed;
    assert InChain(Run(steps).records[0], 7, 1);
  }

  // ---------------------------------------------------------------- the record in place

  /** One series' file and its lock, rewritten as the commands do. */
  class SessionStore {
    var records: map<Series, Record>
    var locks: map<Series, Process>
    ghost var calls: seq<Call>

    ghost function State(): World
      reads this
    {
      World(records, locks, calls)
    }

    method Begin(p: Process, s: Series, expected: Session, log: Log,
                 state: Option<State>) returns (r: Result<Record, Refusal>)
      modifies this
      ensures State() == Kept(old(State()), DoCall(old(State()), p, s, expected, log, state))
      ensures r.Ok? <==> DoCall(old(State()), p, s, expected, log, state).Ok?
      ensures old(Sound(State())) ==> Sound(State())
    {
      hide Sound;
      ghost var before := State();
      if Sound(before) {
        StepKeeps(before, BeginCall(p, s, expected, log, state));
      }
      if s in locks {
        return Err(Busy);
      }
      var record := Inspect(records, s, Some(expected), false);
      if record.Err? {
        return Err(record.error);
      }
      if state.Some? && state.value != record.value.state {
        return Err(NotExpected);
      }
      locks := locks[s := p];
      records := records[s := record.value.(pending := Some(log))];
      calls := calls + [Call(s, record.value.session, record.value.model, log, None)];
      return Ok(records[s]);
    }

    method Complete(s: Series, log: Log, m: Manifest, hash: Hash) returns (r: Result<(), Refusal>)
      modifies this
      ensures State() == Kept(old(State()), DoFinish(old(State()), s, log, m, hash))
      ensures r.Ok? <==> DoFinish(old(State()), s, log, m, hash).Ok?
      ensures old(Sound(State())) ==> Sound(State())
    {
      hide Settle, Sound;
      ghost var before := State();
      if Sound(before) {
        StepKeeps(before, Finish(s, log, m, hash));
      }
      if s in locks {
        return Err(Busy);
      }
      if s !in records {
        return Err(Missing);
      }
      var record := records[s];
      if HashOf(m) != hash {
        return Err(HashMismatch);
      }
      if record.pending != Some(log) || m.log != log {
        return Err(RunMismatch);
      }
      if m.session != record.session || m.model != record.model {
        return Err(NotConfirmed);
      }
      records := records[s := record.(pending := None, state := Ready, receipt := Some(hash))];
      calls := Settle(calls, s, record.session, log, Seal(m, hash));
      return Ok(());
    }

    method Replace(s: Series, expected: Session, renewed: Session) returns (r: Result<Record, Refusal>)
      modifies this
      ensures State() == Kept(old(State()), DoRehydrate(old(State()), s, expected, renewed))
      ensures r.Ok? <==> DoRehydrate(old(State()), s, expected, renewed).Ok?
      ensures old(Sound(State()) && !Known(State(), renewed)) ==> Sound(State())
    {
      hide Sound, Known;
      ghost var before := State();
      if Sound(before) && !Known(before, renewed) {
        StepKeeps(before, Rehydrate(s, expected, renewed));
      }
      if s in locks {
        return Err(Busy);
      }
      var previous := Inspect(records, s, None, true);
      if previous.Err? {
        return Err(previous.error);
      }
      if previous.value.session != expected {
        return Err(PredecessorChanged);
      }
      records := records[s := Record(renewed, previous.value.model, New, None, None, Some(previous.value))];
      return Ok(records[s]);
    }
  }
}

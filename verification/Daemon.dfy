/**
 The daemon's request queue over the controller, one durable step at a time, with a crash possible before
 and after every one of them (orchestrator/daemon.py; `submit`, `reconcile_startup` and `run_until_stop`
 of orchestrator/controller.py). Files move inbox, processing, processed; a transaction is one step.
 */
module Daemon {
  import opened Prelude
  import opened Profiles
  import opened Convergence
  import opened Lifecycle
  import opened LifecycleInvariants

  type File = nat
  type TaskId = nat

  /** `content` stands for the type, profile hash and input hash of a run request. */
  datatype Request =
    | RunTask(id: Token, task: TaskId, content: nat, profile: Profile, envelope: bool)
    | ResumeTask(id: Token, task: TaskId, rerun: bool)
    | Unreadable

  datatype Stored = Stored(db: Db, content: nat)

  /** Where one `_handle` call is. */
  datatype Stage = Starting | Looping(task: TaskId) | Executing(task: TaskId, token: Token) | Finished | Written

  datatype Pc = Down | Booting | Reconciling | Idle | Handling(file: File, stage: Stage)

  datatype World = World(
    inbox: map<File, Request>, processing: map<File, Request>, archived: set<File>, results: set<File>,
    tasks: map<TaskId, Stored>, pc: Pc, requested: set<Token>, generated: set<Token>)

  datatype Step =
    | Drop(file: File, request: Request)
    | Crash
    | Boot
    | BlockOrphan(task: TaskId, op: Token)
    | OrphansDone
    | ReconcileFile(file: File)
    | BootDone
    | TakeFile(file: File)
    | Begin(file: File)
    | Fail
    | SubmitTxn
    | ResumeTxn
    | LoopEnds
    | LoopBlocks(op: Token)
    | LoopPreflight(token: Token, op: Token, paused: bool, reason: Reason)
    | LoopClaims(token: Token, lease: Token, op: Token)
    | LoopCommits(result: RunResult, op: Token)
    | WriteResult
    | Archive

  function RequestOps(r: Request): (ops: set<Token>) {
    if r.Unreadable? then {} else {r.id}
  }

  predicate At(w: World, stage: Stage) {
    w.pc.Handling? && w.pc.stage == stage
  }

  predicate Looks(w: World) {
    w.pc.Handling? && w.pc.stage.Looping? && w.pc.stage.task in w.tasks
  }

  function Current(w: World): (r: Request)
    requires w.pc.Handling? && w.pc.file in w.processing
  {
    w.processing[w.pc.file]
  }

  predicate OpUsed(tasks: map<TaskId, Stored>, op: Token) {
    exists t :: t in tasks && UsedOp(tasks[t].db.log, op)
  }

  /** Generated identifiers have never been seen anywhere. */
  predicate FreshOp(w: World, op: Token) {
    op !in w.generated && op !in w.requested
  }

  /** What `submit` inserts for a new task. */
  function NewTask(p: Profile, envelope: bool, op: Token, edges: seq<EdgeRow>): (db: Db) {
    Db(p, envelope, Task(Queued, None, p.initial, 0, 0, false, None), [],
       [Transition(1, op, None, None, None, None, Queued, Submitted)], edges)
  }

  ghost function SeededEdges(p: Profile): (edges: seq<EdgeRow>)
    requires WellFormed(p)
    ensures FreshlySubmitted(NewTask(p, false, 0, edges)) && FreshlySubmitted(NewTask(p, true, 0, edges))
  {
    CountersExist(p.edgeCaps);
    var edges :| ZeroCounters(p.edgeCaps, edges);
    CountersAreSubmitted(p, edges);
    edges
  }

  lemma {:induction false} CountersExist(caps: map<Edge, int>)
    ensures exists rows :: ZeroCounters(caps, rows)
    decreases |caps.Keys|
  {
    hide ZeroCounters;
    if caps.Keys == {} {
      NoCounters(caps);
    } else {
      var e :| e in caps;
      assert (caps - {e}).Keys == caps.Keys - {e};
      CountersExist(caps - {e});
      var rows :| ZeroCounters(caps - {e}, rows);
      OneMoreCounter(caps, rows, e);
    }
  }

  lemma CountersAreSubmitted(p: Profile, edges: seq<EdgeRow>)
    requires WellFormed(p) && ZeroCounters(p.edgeCaps, edges)
    ensures forall envelope, op :: FreshlySubmitted(NewTask(p, envelope, op, edges))
  {
    hide WellFormed, ZeroCounters;
  }

  // ---------------------------------------------------------------- which steps may happen

  ghost predicate Enabled(w: World, s: Step) {
    match s
    case Drop(f, r) => f !in w.inbox && f !in w.processing && f !in w.archived && RequestOps(r) !! w.generated
                       && (r.RunTask? ==> WellFormed(r.profile))
    case Crash => true
    case Boot => w.pc.Down?
    case BlockOrphan(t, op) => w.pc.Booting? && t in w.tasks && w.tasks[t].db.task.status == Running && FreshOp(w, op)
    case OrphansDone => w.pc.Booting? && forall t :: t in w.tasks ==> w.tasks[t].db.task.status != Running
    case ReconcileFile(f) => w.pc.Reconciling? && (f in w.inbox || f in w.processing) && f in w.results
    case BootDone => w.pc.Reconciling? && forall f :: f in w.results ==> f !in w.inbox && f !in w.processing
    case TakeFile(f) => w.pc.Idle? && f in w.inbox
    case Begin(f) => w.pc.Idle? && f in w.processing
    case Fail => w.pc.Handling? && (w.pc.stage.Starting? || w.pc.stage.Looping? || w.pc.stage.Executing?)
    case SubmitTxn => At(w, Starting) && w.pc.file in w.processing && Current(w).RunTask?
      && WellFormed(Current(w).profile)
    case ResumeTxn => At(w, Starting) && w.pc.file in w.processing && Current(w).ResumeTask?
    case LoopEnds => Looks(w) && w.tasks[w.pc.stage.task].db.task.status !in {Queued, Running}
    case LoopBlocks(op) => Looks(w) && w.tasks[w.pc.stage.task].db.task.status == Running && FreshOp(w, op)
    case LoopPreflight(token, op, paused, reason) =>
      Looks(w) && FreshOp(w, op) && var db := w.tasks[w.pc.stage.task].db;
        db.task.status == Queued && Admissible(db, Preflight(token, op, paused, reason))
    case LoopClaims(token, lease, op) =>
      Looks(w) && FreshOp(w, op) && var db := w.tasks[w.pc.stage.task].db;
        db.task.status == Queued && Admissible(db, Claim(token, lease, op))
    case LoopCommits(result, op) =>
      w.pc.Handling? && w.pc.stage.Executing? && w.pc.stage.task in w.tasks && FreshOp(w, op)
      && Admissible(w.tasks[w.pc.stage.task].db, Commit(w.pc.stage.token, result, op))
    case WriteResult => At(w, Finished)
    case Archive => At(w, Written) && w.pc.file in w.processing
  }

  // ---------------------------------------------------------------- what they do

  function Goto(w: World, stage: Stage): (after: World)
    requires w.pc.Handling?
  {
    w.(pc := Handling(w.pc.file, stage))
  }

  /** One lifecycle transaction of one task. */
  ghost function Act(w: World, t: TaskId, a: Action): (after: World)
    requires t in w.tasks
  {
    w.(tasks := w.tasks[t := w.tasks[t].(db := Apply(w.tasks[t].db, a))])
  }

  /**
   `submit` under the request's id: idempotent by task id, refused when the id or the operation was used for
   something else.
   */
  ghost function DoSubmit(w: World): (after: World)
    requires At(w, Starting) && w.pc.file in w.processing && Current(w).RunTask? && WellFormed(Current(w).profile)
  {
    var r := Current(w);
    if r.task in w.tasks then Goto(w, if w.tasks[r.task].content == r.content then Looping(r.task) else Finished)
    else if OpUsed(w.tasks, r.id) then Goto(w, Finished)
    else
      Goto(w.(tasks := w.tasks[r.task := Stored(NewTask(r.profile, r.envelope, r.id, SeededEdges(r.profile)),
                                                r.content)]), Looping(r.task))
  }

  /** `resume` under the request's id: an operation already used only continues the task. */
  ghost function DoResume(w: World): (after: World)
    requires At(w, Starting) && w.pc.file in w.processing && Current(w).ResumeTask?
  {
    var r := Current(w);
    if r.task !in w.tasks then Goto(w, Finished)
    else if UsedOp(w.tasks[r.task].db.log, r.id) then Goto(w, Looping(r.task))
    else if OpUsed(w.tasks, r.id) then Goto(w, Finished)
    else if ResumeStep(w.tasks[r.task].db, r.id, r.rerun).Err? then Goto(w, Finished)
    else Goto(Act(w, r.task, Resume(r.id, r.rerun)), Looping(r.task))
  }

  ghost function Take(w: World, s: Step): (after: World)
    requires Enabled(w, s)
  {
    match s
    case Drop(f, r) => w.(inbox := w.inbox[f := r], requested := w.requested + RequestOps(r))
    case Crash => w.(pc := Down)
    case Boot => w.(pc := Booting)
    case BlockOrphan(t, op) => Act(w, t, Orphan(op)).(generated := w.generated + {op})
    case OrphansDone => w.(pc := Reconciling)
    case ReconcileFile(f) => w.(inbox := w.inbox - {f}, processing := w.processing - {f}, archived := w.archived + {f})
    case BootDone => w.(pc := Idle)
    case TakeFile(f) => w.(processing := w.processing[f := w.inbox[f]], inbox := w.inbox - {f})
    case Begin(f) => w.(pc := Handling(f, Starting))
    case Fail => Goto(w, Finished)
    case SubmitTxn => DoSubmit(w)
    case ResumeTxn => DoResume(w)
    case LoopEnds => Goto(w, Finished)
    case LoopBlocks(op) => Goto(Act(w, w.pc.stage.task, Orphan(op)).(generated := w.generated + {op}), Finished)
    case LoopPreflight(token, op, paused, reason) =>
      Goto(Act(w, w.pc.stage.task, Preflight(token, op, paused, reason)).(generated := w.generated + {op}), Finished)
    case LoopClaims(token, lease, op) =>
      var t := w.pc.stage.task;
      var after := Act(w, t, Claim(token, lease, op)).(generated := w.generated + {op});
      Goto(after, if after.tasks[t].db.task.status == Running then Executing(t, token) else Finished)
    case LoopCommits(result, op) =>
      var t := w.pc.stage.task;
      var after := Act(w, t, Commit(w.pc.stage.token, result, op)).(generated := w.generated + {op});
      Goto(after, if after.tasks[t].db == w.tasks[t].db then Finished else Looping(t))
    case WriteResult => Goto(w.(results := w.results + {w.pc.file}), Written)
    case Archive =>
      w.(processing := w.processing - {w.pc.file}, archived := w.archived + {w.pc.file}, pc := Idle)
  }

  ghost predicate Leads(w: World, steps: seq<Step>, after: World) {
    if steps == [] then after == w
    else exists mid :: Leads(w, Front(steps), mid) && Enabled(mid, Last(steps)) && after == Take(mid, Last(steps))
  }

  const START := World(map[], map[], {}, {}, map[], Down, {}, {})

  // ---------------------------------------------------------------- what every interleaving keeps

  function OpOf(a: Action): (op: Token) {
    match a
    case Claim(_, _, op) => op
    case Commit(_, _, op) => op
    case Resume(op, _) => op
    case Orphan(op) => op
    case Preflight(_, op, _, _) => op
  }

  lemma LogGrows(db: Db, a: Action)
    ensures Apply(db, a).log == db.log
            || (Apply(db, a).log != [] && Apply(db, a).log == db.log + [Last(Apply(db, a).log)]
                && Last(Apply(db, a).log).op == OpOf(a))
    ensures a.Resume? && UsedOp(db.log, a.op) ==> Apply(db, a).log == db.log
  {
    hide NextAttempt, MaxNumber, Uncapped, UsedOp, Declares, TargetOf, Bump, LastCapped;
  }

  ghost predicate UniqueOps(log: seq<Transition>) {
    forall i, j :: 0 <= i < j < |log| ==> log[i].op != log[j].op
  }

  ghost predicate OpsApart(tasks: map<TaskId, Stored>) {
    forall t, u, op :: t in tasks && u in tasks && t != u && UsedOp(tasks[t].db.log, op) ==>
      !UsedOp(tasks[u].db.log, op)
  }

  ghost predicate OpsKnown(w: World) {
    forall t, op :: t in w.tasks && UsedOp(w.tasks[t].db.log, op) ==> op in w.requested || op in w.generated
  }

  ghost predicate Sane(w: World) {
    && (forall t :: t in w.tasks ==> Consistent(w.tasks[t].db) && UniqueOps(w.tasks[t].db.log))
    && OpsApart(w.tasks) && OpsKnown(w)
    && (forall f :: f in w.inbox ==> RequestOps(w.inbox[f]) <= w.requested)
    && (forall f :: f in w.processing ==> RequestOps(w.processing[f]) <= w.requested)
    && w.archived <= w.results && (w.pc.Handling? && w.pc.stage.Written? ==> w.pc.file in w.results)
  }

  lemma UsedStep(log: seq<Transition>, t: Transition, op: Token)
    ensures UsedOp(log + [t], op) <==> UsedOp(log, op) || t.op == op
  {
    var longer := log + [t];
    assert longer[|log|] == t && forall i :: 0 <= i < |log| ==> longer[i] == log[i];
  }

  lemma NewOpIsUnique(log: seq<Transition>, t: Transition)
    requires UniqueOps(log) && !UsedOp(log, t.op)
    ensures UniqueOps(log + [t])
  {
  }

  /** A transaction of one task under an operation id no task has used keeps every id unique everywhere. */
  lemma ActKeepsOps(w: World, t: TaskId, a: Action)
    requires t in w.tasks && UniqueOps(w.tasks[t].db.log) && OpsApart(w.tasks)
    requires !OpUsed(w.tasks, OpOf(a))
    ensures UniqueOps(Act(w, t, a).tasks[t].db.log) && OpsApart(Act(w, t, a).tasks)
    ensures forall op :: UsedOp(Act(w, t, a).tasks[t].db.log, op) ==> UsedOp(w.tasks[t].db.log, op) || op == OpOf(a)
  {
    hide Apply, UsedOp, UniqueOps, OpOf;
    var before, after := w.tasks[t].db, Apply(w.tasks[t].db, a);
    LogGrows(before, a);
    assert !UsedOp(w.tasks[t].db.log, OpOf(a));
    if after.log != before.log {
      NewOpIsUnique(before.log, Last(after.log));
      forall op ensures UsedOp(after.log, op) <==> UsedOp(before.log, op) || op == OpOf(a) {
        UsedStep(before.log, Last(after.log), op);
      }
    }
  }

  lemma FreshIsUnused(w: World, op: Token)
    requires OpsKnown(w) && FreshOp(w, op)
    ensures !OpUsed(w.tasks, op)
  {
    hide UsedOp;
  }

  ghost predicate TasksSane(w: World) {
    && (forall t :: t in w.tasks ==> Consistent(w.tasks[t].db) && UniqueOps(w.tasks[t].db.log))
    && OpsApart(w.tasks) && OpsKnown(w)
  }

  /** A controller transaction under a generated id. */
  lemma ActKeeps(w: World, t: TaskId, a: Action)
    requires TasksSane(w) && t in w.tasks && Admissible(w.tasks[t].db, a) && FreshOp(w, OpOf(a))
    ensures TasksSane(Act(w, t, a).(generated := w.generated + {OpOf(a)}))
  {
    hide Apply, UsedOp, UniqueOps, OpOf, Consistent, Admissible, OpsApart;
    FreshIsUnused(w, OpOf(a));
    ActKeepsOps(w, t, a);
    KeepsConsistent(w.tasks[t].db, a);
  }

  lemma ResumeKeeps(w: World, r: Request)
    requires TasksSane(w) && r.ResumeTask? && r.task in w.tasks && r.id in w.requested && !OpUsed(w.tasks, r.id)
    ensures TasksSane(Act(w, r.task, Resume(r.id, r.rerun)))
  {
    hide Apply, UsedOp, UniqueOps, Consistent, OpsApart;
    ActKeepsOps(w, r.task, Resume(r.id, r.rerun));
    KeepsConsistent(w.tasks[r.task].db, Resume(r.id, r.rerun));
  }

  lemma SubmitKeeps(w: World, r: Request)
    requires TasksSane(w) && r.RunTask? && r.task !in w.tasks && r.id in w.requested && !OpUsed(w.tasks, r.id)
             && WellFormed(r.profile)
    ensures TasksSane(w.(tasks := w.tasks[r.task :=
                                          Stored(NewTask(r.profile, r.envelope, r.id, SeededEdges(r.profile)),
                                                 r.content)]))
  {
    hide Consistent, UniqueOps, WellFormed, FreshlySubmitted, SeededEdges;
    var db := NewTask(r.profile, r.envelope, r.id, SeededEdges(r.profile));
    assert FreshlySubmitted(db) by {
      NewTaskIsFresh(r.profile, r.envelope, r.id);
    }
    SubmittedIsConsistent(db);
    OneOp(db.log[0]);
  }

  lemma NewTaskIsFresh(p: Profile, envelope: bool, op: Token)
    requires WellFormed(p)
    ensures FreshlySubmitted(NewTask(p, envelope, op, SeededEdges(p)))
  {
    hide WellFormed;
    var edges := SeededEdges(p);
    assert FreshlySubmitted(NewTask(p, envelope, 0, edges));
  }

  lemma OneOp(t: Transition)
    ensures UniqueOps([t]) && forall op :: UsedOp([t], op) <==> op == t.op
  {
    assert [t][0] == t;
  }

  lemma OrphanIsAdmissible(w: World, t: TaskId, op: Token)
    requires TasksSane(w) && t in w.tasks && FreshOp(w, op)
    ensures Admissible(w.tasks[t].db, Orphan(op))
  {
    hide UsedOp, Consistent, UniqueOps, OpsApart;
    FreshIsUnused(w, op);
    assert !UsedOp(w.tasks[t].db.log, op);
  }

  lemma SubmitTxnKeeps(w: World)
    requires Sane(w) && Enabled(w, SubmitTxn)
    ensures TasksSane(DoSubmit(w))
  {
    hide UsedOp, UniqueOps, Consistent, OpsApart, WellFormed, SeededEdges, NewTask;
    var r := Current(w);
    if r.task !in w.tasks && !OpUsed(w.tasks, r.id) {
      SubmitKeeps(w, r);
    }
  }

  lemma ResumeTxnKeeps(w: World)
    requires Sane(w) && Enabled(w, ResumeTxn)
    ensures TasksSane(DoResume(w))
  {
    hide Apply, UsedOp, UniqueOps, Consistent, OpsApart, ResumeStep;
    var r := Current(w);
    if r.task in w.tasks && !OpUsed(w.tasks, r.id) {
      ResumeKeeps(w, r);
    }
  }

  lemma LoopKeeps(w: World, s: Step)
    requires Sane(w) && Enabled(w, s) && (s.BlockOrphan? || s.LoopBlocks? || s.LoopPreflight? || s.LoopClaims?
                                          || s.LoopCommits?)
    ensures TasksSane(Take(w, s))
  {
    hide Apply, UsedOp, UniqueOps, Consistent, Admissible, OpsApart;
    if s.BlockOrphan? {
      OrphanIsAdmissible(w, s.task, s.op);
      ActKeeps(w, s.task, Orphan(s.op));
    } else if s.LoopBlocks? {
      OrphanIsAdmissible(w, w.pc.stage.task, s.op);
      ActKeeps(w, w.pc.stage.task, Orphan(s.op));
    } else if s.LoopPreflight? {
      ActKeeps(w, w.pc.stage.task, Preflight(s.token, s.op, s.paused, s.reason));
    } else if s.LoopClaims? {
      ActKeeps(w, w.pc.stage.task, Claim(s.token, s.lease, s.op));
    } else {
      ActKeeps(w, w.pc.stage.task, Commit(w.pc.stage.token, s.result, s.op));
    }
  }

  lemma StepKeepsTasks(w: World, s: Step)
    requires Sane(w) && Enabled(w, s)
    ensures TasksSane(Take(w, s))
  {
    hide Apply, UsedOp, UniqueOps, Consistent, Admissible, OpsApart, WellFormed, SeededEdges, NewTask, ResumeStep;
    hide DoSubmit, DoResume;
    if s.SubmitTxn? {
      SubmitTxnKeeps(w);
    } else if s.ResumeTxn? {
      ResumeTxnKeeps(w);
    } else if s.BlockOrphan? || s.LoopBlocks? || s.LoopPreflight? || s.LoopClaims? || s.LoopCommits? {
      LoopKeeps(w, s);
    }
  }

  lemma TxnsKeepFiles(w: World)
    ensures Enabled(w, SubmitTxn) ==>
              var after := DoSubmit(w);
              after.inbox == w.inbox && after.processing == w.processing && after.archived == w.archived
                && after.results == w.results
              && after.requested == w.requested && after.pc.Handling? && !after.pc.stage.Written?
    ensures Enabled(w, ResumeTxn) ==>
              var after := DoResume(w);
              after.inbox == w.inbox && after.processing == w.processing && after.archived == w.archived
                && after.results == w.results
              && after.requested == w.requested && after.pc.Handling? && !after.pc.stage.Written?
  {
    hide Apply, UsedOp, OpUsed, WellFormed, SeededEdges, NewTask, ResumeStep;
  }

  lemma StepKeepsFiles(w: World, s: Step)
    requires Sane(w) && Enabled(w, s)
    ensures var after := Take(w, s);
            && (forall f :: f in after.inbox ==> RequestOps(after.inbox[f]) <= after.requested)
            && (forall f :: f in after.processing ==> RequestOps(after.processing[f]) <= after.requested)
            && after.archived <= after.results && (after.pc.Handling? && after.pc.stage.Written? ==>
                                                   after.pc.file in after.results)
  {
    hide Apply, UsedOp, UniqueOps, Consistent, Admissible, OpsApart, WellFormed, SeededEdges, NewTask, ResumeStep;
    hide OpsKnown, DoSubmit, DoResume, FreshOp, RequestOps;
    TxnsKeepFiles(w);
  }

  lemma StepKeeps(w: World, s: Step)
    requires Sane(w) && Enabled(w, s)
    ensures Sane(Take(w, s))
  {
    hide Take, Enabled, OpsApart, OpsKnown, Consistent, UniqueOps;
    StepKeepsTasks(w, s);
    StepKeepsFiles(w, s);
  }

  lemma {:induction false} EveryWorldIsSane(w: World, steps: seq<Step>, after: World)
    requires Sane(w) && Leads(w, steps, after)
    ensures Sane(after)
  {
    hide Sane, Take, Enabled;
    if steps != [] {
      var mid :| Leads(w, Front(steps), mid) && Enabled(mid, Last(steps)) && after == Take(mid, Last(steps));
      EveryWorldIsSane(w, Front(steps), mid);
      StepKeeps(mid, Last(steps));
    }
  }

  // ---------------------------------------------------------------- requests are applied at most once

  /** No operation id stands in two transitions, of one task or of two: so no request resumes, or creates, twice. */
  lemma AppliedAtMostOnce(steps: seq<Step>, w: World, t: TaskId, i: nat, u: TaskId, j: nat)
    requires Leads(START, steps, w) && t in w.tasks && u in w.tasks
    requires i < |w.tasks[t].db.log| && j < |w.tasks[u].db.log| && (t != u || i != j)
    ensures w.tasks[t].db.log[i].op != w.tasks[u].db.log[j].op
  {
    hide Leads, Consistent;
    StartIsSane();
    EveryWorldIsSane(START, steps, w);
    assert UsedOp(w.tasks[t].db.log, w.tasks[t].db.log[i].op);
    assert UsedOp(w.tasks[u].db.log, w.tasks[u].db.log[j].op);
  }

  lemma StartIsSane()
    ensures Sane(START)
  {
  }

  /** A task, once submitted, is never submitted again: it keeps its frozen content and everything it has logged. */
  lemma StepKeepsTask(w: World, s: Step, t: TaskId)
    requires Enabled(w, s) && t in w.tasks
    ensures t in Take(w, s).tasks && Take(w, s).tasks[t].content == w.tasks[t].content
    ensures w.tasks[t].db.log <= Take(w, s).tasks[t].db.log
    ensures Take(w, s).tasks[t].db == w.tasks[t].db || exists a :: Take(w, s).tasks[t].db == Apply(w.tasks[t].db, a)
  {
    hide Apply, UsedOp, Admissible, WellFormed, SeededEdges, NewTask, ResumeStep, OpUsed;
    forall a ensures w.tasks[t].db.log <= Apply(w.tasks[t].db, a).log {
      LogGrows(w.tasks[t].db, a);
    }
  }

  lemma {:induction false} TaskIsKept(w: World, steps: seq<Step>, after: World, t: TaskId)
    requires Leads(w, steps, after) && t in w.tasks
    ensures t in after.tasks && after.tasks[t].content == w.tasks[t].content
            && w.tasks[t].db.log <= after.tasks[t].db.log
  {
    hide Take, Enabled;
    if steps != [] {
      var mid :| Leads(w, Front(steps), mid) && Enabled(mid, Last(steps)) && after == Take(mid, Last(steps));
      TaskIsKept(w, Front(steps), mid, t);
      StepKeepsTask(mid, Last(steps), t);
    }
  }

  // ---------------------------------------------------------------- interrupted runs

  /** A resume logged after position n. */
  ghost predicate ResumedSince(log: seq<Transition>, n: nat) {
    exists i :: n <= i < |log| && log[i].to == Queued
      && (log[i].reason == ManualResume || log[i].reason == ManualRerunStage)
  }

  /** As it was when its run was interrupted, or closed without a further run, or resumed meanwhile. */
  ghost predicate Interrupted(before: Db, now: Db, pc: Pc, t: TaskId) {
    || ResumedSince(now.log, |before.log|)
    || (now == before && now.task.status == Running && !(pc.Handling? && pc.stage.Executing? && pc.stage.task == t))
    || (|now.runs| == |before.runs| && now.task.status == Blocked
        && !(pc.Handling? && pc.stage.Executing? && pc.stage.task == t))
  }

  lemma ResumedStays(log: seq<Transition>, later: seq<Transition>, n: nat)
    requires log <= later && ResumedSince(log, n)
    ensures ResumedSince(later, n)
  {
    var i :| n <= i < |log| && log[i].to == Queued
      && (log[i].reason == ManualResume || log[i].reason == ManualRerunStage);
    assert later[i] == log[i];
  }

  lemma OrphanBlocks(db: Db, op: Token)
    requires db.task.status == Running
    ensures Apply(db, Orphan(op)).task.status == Blocked && |Apply(db, Orphan(op)).runs| == |db.runs|
  {
    hide MaxNumber;
  }

  lemma ResumeShows(db: Db, op: Token, rerun: bool)
    requires ResumeStep(db, op, rerun).Ok? && !UsedOp(db.log, op)
    ensures ResumedSince(Apply(db, Resume(op, rerun)).log, |db.log|)
            && |Apply(db, Resume(op, rerun)).log| == |db.log| + 1
  {
    hide MaxNumber, Bump, LastCapped, UsedOp;
    var after := Apply(db, Resume(op, rerun));
    assert after.log[|db.log|].to == Queued;
  }

  /** Only a resume takes an interrupted task anywhere but to blocked. */
  lemma InterruptedStep(w: World, s: Step, before: Db, t: TaskId)
    requires Enabled(w, s) && t in w.tasks && Interrupted(before, w.tasks[t].db, w.pc, t)
             && before.log <= w.tasks[t].db.log
    ensures t in Take(w, s).tasks && Interrupted(before, Take(w, s).tasks[t].db, Take(w, s).pc, t)
    ensures before.log <= Take(w, s).tasks[t].db.log
  {
    hide Apply, UsedOp, Admissible, WellFormed, SeededEdges, NewTask, ResumeStep, OpUsed, ResumedSince;
    StepKeepsTask(w, s, t);
    var now, next := w.tasks[t].db, Take(w, s).tasks[t].db;
    if ResumedSince(now.log, |before.log|) {
      ResumedStays(now.log, next.log, |before.log|);
    } else {
      if s.BlockOrphan? || s.LoopBlocks? {
        if now.task.status == Running {
          OrphanBlocks(now, s.op);
        }
      }
      if s.ResumeTxn? {
        InterruptedResume(w, before, t);
      }
    }
  }

  lemma InterruptedResume(w: World, before: Db, t: TaskId)
    requires Enabled(w, ResumeTxn) && t in w.tasks && before.log <= w.tasks[t].db.log
    ensures Take(w, ResumeTxn).tasks[t].db == w.tasks[t].db
            || ResumedSince(Take(w, ResumeTxn).tasks[t].db.log, |before.log|)
    ensures !Take(w, ResumeTxn).pc.stage.Executing?
  {
    hide Apply, UsedOp, ResumeStep, OpUsed, ResumedSince;
    var r := Current(w);
    if r.task == t && !UsedOp(w.tasks[t].db.log, r.id) && ResumeStep(w.tasks[t].db, r.id, r.rerun).Ok? {
      ResumeShows(w.tasks[t].db, r.id, r.rerun);
      ResumedEarlier(Apply(w.tasks[t].db, Resume(r.id, r.rerun)).log, |w.tasks[t].db.log|, |before.log|);
    }
  }

  lemma ResumedEarlier(log: seq<Transition>, n: nat, m: nat)
    requires m <= n && ResumedSince(log, n)
    ensures ResumedSince(log, m)
  {
  }

  lemma {:induction false} InterruptedStays(w: World, steps: seq<Step>, after: World, before: Db, t: TaskId)
    requires Leads(w, steps, after) && t in w.tasks && Interrupted(before, w.tasks[t].db, w.pc, t)
             && before.log <= w.tasks[t].db.log
    ensures t in after.tasks && Interrupted(before, after.tasks[t].db, after.pc, t)
            && before.log <= after.tasks[t].db.log
  {
    hide Take, Enabled, Interrupted;
    if steps != [] {
      var mid :| Leads(w, Front(steps), mid) && Enabled(mid, Last(steps)) && after == Take(mid, Last(steps));
      InterruptedStays(w, Front(steps), mid, before, t);
      InterruptedStep(mid, Last(steps), before, t);
    }
  }

  /**
   A run that a crash interrupted is never followed by another run of its task until a resume under an
   operation id that had not been used before.
   */
  lemma NoClaimBeforeResume(steps: seq<Step>, w: World, more: seq<Step>, after: World, t: TaskId)
    requires Leads(START, steps, w) && w.pc.Down? && t in w.tasks && w.tasks[t].db.task.status == Running
    requires Leads(w, more, after)
    ensures t in after.tasks
    ensures |after.tasks[t].db.runs| > |w.tasks[t].db.runs| ==>
              exists i :: |w.tasks[t].db.log| <= i < |after.tasks[t].db.log|
                          && (after.tasks[t].db.log[i].reason == ManualResume
                              || after.tasks[t].db.log[i].reason == ManualRerunStage)
                          && !UsedOp(w.tasks[t].db.log, after.tasks[t].db.log[i].op)
  {
    hide Leads, Consistent;
    InterruptedStays(w, more, after, w.tasks[t].db, t);
    if |after.tasks[t].db.runs| > |w.tasks[t].db.runs| {
      var log := after.tasks[t].db.log;
      var i :| |w.tasks[t].db.log| <= i < |log| && log[i].to == Queued
        && (log[i].reason == ManualResume || log[i].reason == ManualRerunStage);
      StartIsSane();
      EveryWorldIsSane(START, steps, w);
      EveryWorldIsSane(w, more, after);
      LaterOpIsNew(w.tasks[t].db.log, log, i);
    }
  }

  lemma LaterOpIsNew(log: seq<Transition>, later: seq<Transition>, i: nat)
    requires log <= later && |log| <= i < |later| && UniqueOps(later)
    ensures !UsedOp(log, later[i].op)
  {
    forall k | 0 <= k < |log| ensures log[k].op != later[i].op {
      assert later[k] == log[k];
    }
  }

  /** Whatever has been archived has its result on disk. */
  lemma ArchivedHasResult(steps: seq<Step>, w: World)
    requires Leads(START, steps, w)
    ensures w.archived <= w.results
  {
    hide Leads;
    StartIsSane();
    EveryWorldIsSane(START, steps, w);
  }
}

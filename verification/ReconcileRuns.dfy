/** Runs of reconciliation: dry runs, one-shot approvals, repairs, restarts.

    A repair request looks at its approval, spends it and enqueues in separate steps, between which other requests may run
    and after each of which it may be dropped. A worker is the only one to write its own record, so each of its updates is
    one step. */
module ReconcileRuns {
  import opened Wrappers
  import opened Journal

  function ReconcileKind(): string {
    "host.reconcile"
  }

  /** The background half of one reconciliation: 0 queued, 1 running, 2 mode recorded, 3 findings recorded. `approved`
      holds the findings a repair was approved with. */
  datatype Worker = Worker(mode: Mode, approved: seq<Finding>, stage: nat)

  /** A repair request that has found its approval in order: what it will do with it, and whether it has spent it. */
  datatype Request = Request(approval: Id, findings: seq<Finding>, quarantineUnmanaged: bool, actor: Option<string>, spent: bool)

  /** `requests` are under way, by the id their repair will have; `repairs` remembers which approval each enqueued repair was
      given. */
  datatype State = State(disk: map<Id, Record>, consumed: set<Id>, workers: map<Id, Worker>, repairs: map<Id, Id>,
                         requests: map<Id, Request>)

  const INITIAL := State(map[], {}, map[], map[], map[])

  datatype Step = RequestDryRun(id: Id, actor: Option<string>, now: Time)
                | Examine(id: Id, approval: Id, quarantineUnmanaged: bool, actor: Option<string>)
                | Spend(id: Id, saved: bool)
                | Enqueue(id: Id, saved: bool, now: Time)
                | Drop(id: Id)
                | Mark(id: Id, now: Time)
                | RecordMode(id: Id)
                | RecordFindings(id: Id, drift: seq<Finding>)
                | Succeed(id: Id, message: Option<string>, now: Time)
                | Fail(id: Id, error: AppError, now: Time)
                | Stop(id: Id)
                | OtherCreate(id: Id, record: Record)
                | OtherAmend(id: Id, update: Update)
                | Restart(now: Time)

  predicate IsApproval(r: Record) {
    r.kind == ReconcileKind() && r.status == Succeeded && r.mode == Some(DryRun) && r.findings.Some?
  }

  function Queue(s: State, id: Id, worker: Worker, actor: Option<string>, now: Time): State {
    s.(disk := s.disk[id := NewRecord(id, ReconcileKind(), Queued, Some("node"), None, actor, now)],
       workers := s.workers[id := worker])
  }

  /** The request reads its approval and finds it not yet spent. */
  function Examined(s: State, id: Id, approval: Id, quarantineUnmanaged: bool, actor: Option<string>): Option<State> {
    if id in s.disk || id in s.requests || approval !in s.disk then None
    else if !IsApproval(s.disk[approval]) || approval in s.consumed then None
    else
      Some(s.(requests := s.requests[id := Request(approval, s.disk[approval].findings.value, quarantineUnmanaged, actor, false)]))
  }

  /** The approval is marked as spent, or the write fails; the quarantine flag is looked at only now. */
  function Spent(s: State, id: Id, saved: bool): Option<State> {
    if id !in s.requests || s.requests[id].spent then None
    else
      var request := s.requests[id];
      var rest := s.(requests := s.requests - {id});
      if !saved then Some(rest)
      else if !request.quarantineUnmanaged then Some(rest.(consumed := s.consumed + {request.approval}))
      else Some(s.(consumed := s.consumed + {request.approval}, requests := s.requests[id := request.(spent := true)]))
  }

  /** The repair is written to the journal and its worker spawned, or the write fails. */
  function Enqueued(s: State, id: Id, saved: bool, now: Time): Option<State> {
    if id !in s.requests || !s.requests[id].spent || id in s.disk then None
    else
      var request := s.requests[id];
      var rest := s.(requests := s.requests - {id});
      if !saved then Some(rest)
      else Some(Queue(rest, id, Worker(Repair, request.findings, 0), request.actor, now)
                .(repairs := s.repairs[id := request.approval]))
  }

  /** One amendment of the worker's own record, and the worker after it. */
  function Advance(s: State, id: Id, u: Update, worker: Option<Worker>): Option<State> {
    if id !in s.disk then None
    else
      match Amended(s.disk[id], u)
      case None => None
      case Some(record) =>
        Some(s.(disk := s.disk[id := record],
                workers := if worker.Some? then s.workers[id := worker.value] else s.workers - {id}))
  }

  predicate IsWorkerStep(step: Step) {
    step.Mark? || step.RecordMode? || step.RecordFindings? || step.Succeed? || step.Fail?
  }

  /** The amendment a worker step makes. */
  function StageUpdate(step: Step, w: Worker): Update
    requires IsWorkerStep(step)
  {
    match step
    case Mark(_, now) => Start(now)
    case RecordMode(_) => SetMode(w.mode)
    case RecordFindings(_, drift) => SetFindings(if w.mode == Repair then w.approved else drift)
    case Succeed(_, message, now) => Finish(Succeeded, Some("node"), None, message, None, now)
    case Fail(_, error, now) => Finish(Failed, None, None, None, Some(error), now)
  }

  /** The worker after the step; finished workers are gone. */
  function StageAfter(step: Step, w: Worker): Option<Worker>
    requires IsWorkerStep(step)
  {
    match step
    case Mark(_, _) => Some(w.(stage := 1))
    case RecordMode(_) => Some(w.(stage := 2))
    case RecordFindings(_, _) => Some(w.(stage := 3))
    case _ => None
  }

  /** The stage the worker must have reached. */
  predicate StageReady(step: Step, w: Worker)
    requires IsWorkerStep(step)
  {
    match step
    case Mark(_, _) => w.stage == 0
    case RecordMode(_) => w.stage == 1
    case RecordFindings(_, _) => w.stage == 2
    case Succeed(_, _, _) => w.stage == 3
    case Fail(_, _, _) => w.stage > 0
  }

  function WorkerStep(s: State, step: Step): Option<State> {
    if !IsWorkerStep(step) || step.id !in s.workers || !StageReady(step, s.workers[step.id]) then None
    else Advance(s, step.id, StageUpdate(step, s.workers[step.id]), StageAfter(step, s.workers[step.id]))
  }

  /** Other operations amend their own records. */
  function OtherStep(s: State, id: Id, u: Update): Option<State> {
    if id !in s.disk || s.disk[id].kind == ReconcileKind() then None
    else
      match Amended(s.disk[id], u)
      case None => None
      case Some(record) => Some(s.(disk := s.disk[id := record]))
  }

  function OtherCreated(s: State, id: Id, record: Record): Option<State> {
    if id in s.disk || record.id != id || record.kind == ReconcileKind() then None
    else Some(s.(disk := s.disk[id := record]))
  }

  function Restarted(s: State, now: Time): State {
    s.(disk := map id | id in s.disk :: Reviewed(s.disk[id], now), workers := map[], requests := map[])
  }

  function After(s: State, step: Step): Option<State> {
    match step
    case RequestDryRun(id, actor, now) =>
      if id in s.disk then None else Some(Queue(s, id, Worker(DryRun, [], 0), actor, now))
    case Examine(id, approval, quarantineUnmanaged, actor) => Examined(s, id, approval, quarantineUnmanaged, actor)
    case Spend(id, saved) => Spent(s, id, saved)
    case Enqueue(id, saved, now) => Enqueued(s, id, saved, now)
    case Drop(id) => if id !in s.requests then None else Some(s.(requests := s.requests - {id}))
    case Stop(id) => if id !in s.workers then None else Some(s.(workers := s.workers - {id}))
    case OtherCreate(id, record) => OtherCreated(s, id, record)
    case OtherAmend(id, u) => OtherStep(s, id, u)
    case Restart(now) => Some(Restarted(s, now))
    case _ => WorkerStep(s, step)
  }

  function Run(s: State, steps: seq<Step>): Option<State>
    decreases |steps|
  {
    if steps == [] then Some(s)
    else
      match After(s, steps[0])
      case None => None
      case Some(next) => Run(next, steps[1..])
  }

  // ----- the invariant -----

  /** A reconciliation record against its worker, when it still has one. */
  ghost predicate RecordFits(r: Record, worker: Option<Worker>) {
    && (r.status == Succeeded ==> r.mode.Some? && r.findings.Some?)
    && (worker.Some? ==>
          && r.Active()
          && (worker.value.stage == 0 ==> r.status == Queued)
          && (worker.value.stage < 2 ==> r.mode == None)
          && (worker.value.stage >= 2 ==> r.mode == Some(worker.value.mode))
          && (worker.value.stage < 3 ==> r.findings == None)
          && (worker.value.stage >= 3 ==> r.findings.Some?)
          && (worker.value.stage >= 3 && worker.value.mode == Repair ==> r.findings == Some(worker.value.approved)))
  }

  function WorkerOf(s: State, id: Id): Option<Worker> {
    if id in s.workers then Some(s.workers[id]) else None
  }

  /** A repair and the approval it was given. */
  ghost predicate RepairFits(s: State, id: Id) {
    && id in s.repairs && s.repairs[id] in s.consumed && s.repairs[id] in s.disk && IsApproval(s.disk[s.repairs[id]])
    && id in s.disk && s.disk[id].kind == ReconcileKind()
    && (id in s.workers ==> s.workers[id].mode == Repair
                            && s.disk[s.repairs[id]].findings == Some(s.workers[id].approved))
    && (s.disk[id].findings.Some? ==> s.disk[id].findings == s.disk[s.repairs[id]].findings)
    && s.disk[id].mode != Some(DryRun)
  }

  /** Everything that is to hold of one id. */
  ghost predicate IdFits(s: State, id: Id) {
    && (id in s.disk && s.disk[id].kind == ReconcileKind() ==> RecordFits(s.disk[id], WorkerOf(s, id)))
    && (id in s.workers ==> id in s.disk && s.disk[id].kind == ReconcileKind())
    && (id in s.workers && s.workers[id].mode == Repair ==> id in s.repairs)
    && (id in s.disk && s.disk[id].kind == ReconcileKind() && s.disk[id].mode == Some(Repair) ==> id in s.repairs)
    && (id in s.repairs ==> RepairFits(s, id))
  }

  /** A request under way still finds its approval as it examined it. */
  ghost predicate RequestFits(s: State, id: Id) {
    id in s.requests ==>
      var request := s.requests[id];
      && request.approval in s.disk && IsApproval(s.disk[request.approval])
      && s.disk[request.approval].findings == Some(request.findings)
      && (request.spent ==> request.approval in s.consumed && request.quarantineUnmanaged)
  }

  ghost predicate Inv(s: State) {
    forall id :: IdFits(s, id) && RequestFits(s, id)
  }

  /** No approval serves two repairs, and none is about to. */
  ghost predicate Injective(repairs: map<Id, Id>) {
    forall a, b :: a in repairs && b in repairs && a != b ==> repairs[a] != repairs[b]
  }

  ghost predicate Sole(s: State) {
    && Injective(s.repairs)
    && (forall id :: id in s.requests && !s.requests[id].spent ==> s.requests[id].approval !in s.consumed)
    && (forall a, b :: a in s.requests && b in s.requests && a != b ==> s.requests[a].approval != s.requests[b].approval)
    && (forall a, b :: a in s.requests && s.requests[a].spent && b in s.repairs ==> s.requests[a].approval != s.repairs[b])
  }

  /** No other request has examined the same approval and not spent it yet. */
  ghost predicate Alone(s: State, step: Step) {
    step.Examine? ==> forall id :: id in s.requests && !s.requests[id].spent ==> s.requests[id].approval != step.approval
  }

  /** No two requests of the run are between examining and spending one approval at the same time. */
  ghost predicate Undivided(s: State, steps: seq<Step>)
    decreases |steps|
  {
    steps != [] ==>
      && Alone(s, steps[0])
      && (After(s, steps[0]).Some? ==> Undivided(After(s, steps[0]).value, steps[1..]))
  }

  /** An id is untouched by a step that leaves its record, its worker, its approval and that approval's record alone. */
  lemma Untouched(s: State, next: State, id: Id)
    requires IdFits(s, id)
    requires id in next.disk <==> id in s.disk
    requires id in s.disk ==> next.disk[id] == s.disk[id]
    requires WorkerOf(next, id) == WorkerOf(s, id)
    requires id in next.repairs <==> id in s.repairs
    requires id in s.repairs ==> next.repairs[id] == s.repairs[id]
    requires id in s.repairs && s.repairs[id] in s.disk ==>
               s.repairs[id] in next.disk && next.disk[s.repairs[id]] == s.disk[s.repairs[id]]
    requires s.consumed <= next.consumed
    ensures IdFits(next, id)
  {
    hide ReconcileKind, RecordFits;
    assert id in next.workers <==> id in s.workers;
  }

  /** A request is untouched by a step that leaves its approval's record alone. */
  lemma RequestUntouched(s: State, next: State, id: Id)
    requires id in next.requests ==> id in s.requests && next.requests[id] == s.requests[id]
    requires RequestFits(s, id)
    requires id in s.requests && s.requests[id].approval in s.disk ==>
               s.requests[id].approval in next.disk && next.disk[s.requests[id].approval] == s.disk[s.requests[id].approval]
    requires s.consumed <= next.consumed
    ensures RequestFits(next, id)
  {
    hide ReconcileKind;
  }

  /** The approval of a request has succeeded. */
  lemma RequestSettled(s: State, id: Id)
    requires RequestFits(s, id) && id in s.requests
    ensures s.requests[id].approval in s.disk && s.disk[s.requests[id].approval].status == Succeeded
    ensures s.disk[s.requests[id].approval].kind == ReconcileKind()
  {
    hide ReconcileKind;
  }

  /** The approval of a repair has succeeded. */
  lemma ApprovalSettled(s: State, id: Id)
    requires IdFits(s, id) && id in s.repairs
    ensures s.repairs[id] in s.disk && s.disk[s.repairs[id]].status == Succeeded
    ensures s.disk[s.repairs[id]].kind == ReconcileKind()
    ensures s.repairs[id] in s.consumed && id in s.disk
  {
    hide ReconcileKind, RecordFits;
  }

  /** What the worker's steps do to its record. */
  lemma AmendEffect(r: Record, u: Update)
    requires Amended(r, u).Some?
    ensures var next := Amended(r, u).value;
            && next.kind == r.kind && next.id == r.id
            && next.mode == (if u.SetMode? then Some(u.mode) else r.mode)
            && next.findings == (if u.SetFindings? then Some(u.findings) else r.findings)
            && next.status == match u case Start(_) => Running case Finish(status, _, _, _, _, _) => status case _ => r.status
  {
  }

  /** The worker's own id after one of its steps. */
  lemma AdvanceFits(s: State, id: Id, record: Record, worker: Option<Worker>, next: State)
    requires IdFits(s, id) && id in s.workers
    requires next.disk == s.disk[id := record] && WorkerOf(next, id) == worker
    requires next.repairs == s.repairs && next.consumed == s.consumed
    requires record.kind == s.disk[id].kind && RecordFits(record, worker)
    requires worker.Some? ==> worker.value.mode == s.workers[id].mode && worker.value.approved == s.workers[id].approved
    requires record.mode == s.disk[id].mode || record.mode == Some(s.workers[id].mode)
    requires record.findings == s.disk[id].findings
          || (s.workers[id].mode == Repair ==> record.findings == Some(s.workers[id].approved))
    ensures IdFits(next, id)
  {
    hide ReconcileKind;
    assert RecordFits(s.disk[id], WorkerOf(s, id));
    if id in s.repairs {
      assert s.repairs[id] != id;
    }
  }

  /** A worker's record moves on together with its worker. */
  lemma AdvanceKeeps(s: State, id: Id, u: Update, worker: Option<Worker>, next: State)
    requires Inv(s) && id in s.workers && Advance(s, id, u, worker) == Some(next)
    requires RecordFits(Amended(s.disk[id], u).value, worker)
    requires worker.Some? ==> worker.value.mode == s.workers[id].mode && worker.value.approved == s.workers[id].approved
    requires u.SetMode? ==> u.mode == s.workers[id].mode
    requires u.SetFindings? && s.workers[id].mode == Repair ==> u.findings == s.workers[id].approved
    ensures Inv(next)
  {
    AmendEffect(s.disk[id], u);
    hide Amended, ReconcileKind, IdFits, RecordFits, RequestFits;
    WorkerIsActive(s, id);
    forall other
      ensures IdFits(next, other) && RequestFits(next, other)
    {
      assert IdFits(s, other) && RequestFits(s, other);
      if other in s.requests {
        RequestSettled(s, other);
      }
      RequestUntouched(s, next, other);
      if other == id {
        AdvanceFits(s, id, Amended(s.disk[id], u).value, worker, next);
      } else {
        if other in s.repairs {
          ApprovalSettled(s, other);
        }
        Untouched(s, next, other);
      }
    }
  }

  lemma WorkerIsActive(s: State, id: Id)
    requires Inv(s) && id in s.workers
    ensures id in s.disk && s.disk[id].Active() && s.disk[id].kind == ReconcileKind()
    ensures RecordFits(s.disk[id], Some(s.workers[id]))
  {
    hide ReconcileKind;
    assert IdFits(s, id);
  }

  lemma WorkerKeeps(s: State, step: Step, next: State)
    requires IsWorkerStep(step)
    requires Inv(s) && WorkerStep(s, step) == Some(next)
    ensures Inv(next)
  {
    hide Advance, ReconcileKind, Inv, Queue, Amended, Reviewed;
    var id := step.id;
    var w := s.workers[id];
    WorkerIsActive(s, id);
    var u, after := StageUpdate(step, w), StageAfter(step, w);
    AmendHappens(s.disk[id], w, step);
    AmendEffect(s.disk[id], u);
    StageFits(s.disk[id], w, step, Amended(s.disk[id], u).value);
    AdvanceKeeps(s, id, u, after, next);
  }

  lemma AmendHappens(r: Record, w: Worker, step: Step)
    requires IsWorkerStep(step)
    requires RecordFits(r, Some(w)) && StageReady(step, w)
    ensures Amended(r, StageUpdate(step, w)).Some?
  {
  }

  lemma StageFits(r: Record, w: Worker, step: Step, next: Record)
    requires IsWorkerStep(step)
    requires RecordFits(r, Some(w)) && StageReady(step, w)
    requires var u := StageUpdate(step, w);
             && next.mode == (if u.SetMode? then Some(u.mode) else r.mode)
             && next.findings == (if u.SetFindings? then Some(u.findings) else r.findings)
             && next.status == match u case Start(_) => Running case Finish(status, _, _, _, _, _) => status case _ => r.status
    ensures RecordFits(next, StageAfter(step, w))
  {
  }

  /** A fresh record with a fresh worker. */
  lemma QueueFits(s: State, id: Id, record: Record, worker: Worker, next: State)
    requires IdFits(s, id) && id !in s.disk && worker.stage == 0
    requires record.kind == ReconcileKind() && record.status == Queued && record.mode == None && record.findings == None
    requires next.disk == s.disk[id := record] && next.workers == s.workers[id := worker]
    requires worker.mode == Repair ==>
               && id in next.repairs && next.repairs[id] in s.disk && next.repairs[id] in next.consumed
               && IsApproval(s.disk[next.repairs[id]]) && s.disk[next.repairs[id]].findings == Some(worker.approved)
    requires worker.mode == DryRun ==> next.repairs == s.repairs
    ensures IdFits(next, id) && id !in s.repairs
  {
    hide ReconcileKind;
  }

  lemma QueueKeeps(s: State, id: Id, worker: Worker, approval: Option<Id>, actor: Option<string>, now: Time, next: State)
    requires Inv(s) && id !in s.disk && worker.stage == 0
    requires worker.mode == Repair <==> approval.Some?
    requires approval.Some? ==>
               && approval.value in s.disk && IsApproval(s.disk[approval.value])
               && approval.value in s.consumed && s.disk[approval.value].findings == Some(worker.approved)
    requires next == (if approval.None? then Queue(s, id, worker, actor, now)
                      else Queue(s, id, worker, actor, now)
                           .(repairs := s.repairs[id := approval.value], requests := s.requests - {id}))
    ensures Inv(next)
  {
    hide ReconcileKind, IdFits, IsApproval, RequestFits;
    assert IdFits(s, id);
    QueueFits(s, id, next.disk[id], worker, next);
    forall other
      ensures IdFits(next, other) && RequestFits(next, other)
    {
      assert IdFits(s, other) && RequestFits(s, other);
      if other in s.requests {
        RequestSettled(s, other);
      }
      RequestUntouched(s, next, other);
      if other != id {
        if other in s.repairs {
          ApprovalSettled(s, other);
        }
        Untouched(s, next, other);
      }
    }
  }

  /** Steps that touch only requests and the set of spent approvals. */
  lemma RequestsOnly(s: State, next: State)
    requires Inv(s)
    requires next == s.(consumed := next.consumed, requests := next.requests) && s.consumed <= next.consumed
    requires forall id :: RequestFits(next, id)
    ensures Inv(next)
  {
    hide IdFits, RequestFits;
    forall id
      ensures IdFits(next, id)
    {
      assert IdFits(s, id);
      Untouched(s, next, id);
    }
  }

  lemma ExamineKeeps(s: State, step: Step, next: State)
    requires step.Examine? && Inv(s)
    requires Examined(s, step.id, step.approval, step.quarantineUnmanaged, step.actor) == Some(next)
    ensures Inv(next)
  {
    hide ReconcileKind, IdFits, RecordFits;
    forall id
      ensures RequestFits(next, id)
    {
      assert RequestFits(s, id);
    }
    RequestsOnly(s, next);
  }

  lemma SpendKeeps(s: State, id: Id, saved: bool, next: State)
    requires Inv(s) && Spent(s, id, saved) == Some(next)
    ensures Inv(next)
  {
    hide ReconcileKind, IdFits, RecordFits;
    forall other
      ensures RequestFits(next, other)
    {
      assert RequestFits(s, other);
    }
    RequestsOnly(s, next);
  }

  lemma EnqueueKeeps(s: State, id: Id, saved: bool, now: Time, next: State)
    requires Inv(s) && Enqueued(s, id, saved, now) == Some(next)
    ensures Inv(next)
  {
    assert RequestFits(s, id);
    hide ReconcileKind, IdFits, Queue, IsApproval;
    var request := s.requests[id];
    if saved {
      var rest := s.(requests := s.requests - {id});
      QueueOf(s, rest, id, Worker(Repair, request.findings, 0), request.actor, now);
      QueueKeeps(s, id, Worker(Repair, request.findings, 0), Some(request.approval), request.actor, now, next);
    } else {
      DropKeeps(s, id);
    }
  }

  lemma QueueOf(s: State, rest: State, id: Id, worker: Worker, actor: Option<string>, now: Time)
    requires rest == s.(requests := rest.requests)
    ensures Queue(rest, id, worker, actor, now) == Queue(s, id, worker, actor, now).(requests := rest.requests)
  {
    hide NewRecord, ReconcileKind;
  }

  lemma DropKeeps(s: State, id: Id)
    requires Inv(s)
    ensures Inv(s.(requests := s.requests - {id}))
  {
    hide ReconcileKind, IdFits, RecordFits;
    var next := s.(requests := s.requests - {id});
    forall other
      ensures RequestFits(next, other)
    {
      assert RequestFits(s, other);
    }
    RequestsOnly(s, next);
  }

  /** Other operations have their own records. */
  lemma OtherKeeps(s: State, id: Id, record: Record, next: State)
    requires Inv(s) && record.kind != ReconcileKind()
    requires id in s.disk ==> s.disk[id].kind != ReconcileKind()
    requires next == s.(disk := s.disk[id := record])
    ensures Inv(next)
  {
    hide ReconcileKind, IdFits, RequestFits;
    forall other
      ensures IdFits(next, other) && RequestFits(next, other)
    {
      assert IdFits(s, other) && RequestFits(s, other);
      if other in s.requests {
        RequestSettled(s, other);
      }
      RequestUntouched(s, next, other);
      if other in s.repairs {
        ApprovalSettled(s, other);
      }
      if other == id {
        OtherFits(s, id, next);
      } else {
        Untouched(s, next, other);
      }
    }
  }

  lemma OtherFits(s: State, id: Id, next: State)
    requires IdFits(s, id) && (id in s.disk ==> s.disk[id].kind != ReconcileKind())
    requires id in next.disk && next.disk[id].kind != ReconcileKind()
    requires next.workers == s.workers && next.repairs == s.repairs
    ensures IdFits(next, id)
  {
    hide ReconcileKind, RecordFits;
  }

  /** A record without a worker still fits, and so does one that needs review now. */
  lemma Orphaned(s: State, id: Id, next: State)
    requires IdFits(s, id)
    requires id !in next.workers && next.repairs == s.repairs && next.consumed == s.consumed
    requires id in next.disk <==> id in s.disk
    requires id in s.disk ==>
               && next.disk[id].kind == s.disk[id].kind && next.disk[id].mode == s.disk[id].mode
               && next.disk[id].findings == s.disk[id].findings
               && (next.disk[id].status == Succeeded ==> s.disk[id].status == Succeeded)
    requires id in s.repairs && s.repairs[id] in s.disk && s.disk[s.repairs[id]].status == Succeeded ==>
               s.repairs[id] in next.disk && next.disk[s.repairs[id]] == s.disk[s.repairs[id]]
    ensures IdFits(next, id)
  {
    hide ReconcileKind;
  }

  lemma StopKeeps(s: State, id: Id)
    requires Inv(s) && id in s.workers
    ensures Inv(s.(workers := s.workers - {id}))
  {
    hide IdFits, RequestFits;
    var next := s.(workers := s.workers - {id});
    forall other
      ensures IdFits(next, other) && RequestFits(next, other)
    {
      assert IdFits(s, other) && RequestFits(s, other);
      RequestUntouched(s, next, other);
      if other == id {
        Orphaned(s, id, next);
      } else {
        Untouched(s, next, other);
      }
    }
  }

  lemma RestartKeeps(s: State, now: Time, next: State)
    requires Inv(s) && next == Restarted(s, now)
    ensures Inv(next)
  {
    hide IdFits, Reviewed;
    forall id
      ensures IdFits(next, id)
    {
      assert IdFits(s, id);
      if id in s.disk {
        ReviewEffect(s.disk[id], now);
      }
      if id in s.repairs {
        ApprovalSettled(s, id);
        ReviewEffect(s.disk[s.repairs[id]], now);
      }
      Orphaned(s, id, next);
    }
  }

  lemma StepKeeps(s: State, step: Step, next: State)
    requires Inv(s) && After(s, step) == Some(next)
    ensures Inv(next)
  {
    hide Inv, Queue, Examined, Spent, Enqueued, WorkerStep, Amended, ReconcileKind, Restarted;
    match step
    case RequestDryRun(id, actor, now) => QueueKeeps(s, id, Worker(DryRun, [], 0), None, actor, now, next);
    case Examine(_, _, _, _) => ExamineKeeps(s, step, next);
    case Spend(id, saved) => SpendKeeps(s, id, saved, next);
    case Enqueue(id, saved, now) => EnqueueKeeps(s, id, saved, now, next);
    case Drop(id) => DropKeeps(s, id);
    case Stop(id) => StopKeeps(s, id);
    case OtherCreate(id, record) => OtherKeeps(s, id, record, next);
    case OtherAmend(id, u) =>
      AmendEffect(s.disk[id], u);
      OtherKeeps(s, id, Amended(s.disk[id], u).value, next);
    case Restart(now) => RestartKeeps(s, now, next);
    case _ => WorkerKeeps(s, step, next);
  }

  lemma {:induction false} RunKeeps(s: State, steps: seq<Step>)
    requires Inv(s) && Run(s, steps).Some?
    ensures Inv(Run(s, steps).value)
    decreases |steps|
  {
    hide Inv, After;
    if steps != [] {
      StepKeeps(s, steps[0], After(s, steps[0]).value);
      RunKeeps(After(s, steps[0]).value, steps[1..]);
    }
  }

  lemma InitialHolds()
    ensures Inv(INITIAL)
  {
  }

  // ----- whole runs -----

  lemma ExamineSole(s: State, step: Step, next: State)
    requires step.Examine? && Inv(s) && Sole(s) && Alone(s, step)
    requires Examined(s, step.id, step.approval, step.quarantineUnmanaged, step.actor) == Some(next)
    ensures Sole(next)
  {
    hide IdFits, IsApproval;
    forall id | id in s.requests && s.requests[id].spent
      ensures s.requests[id].approval != step.approval
    {
      assert RequestFits(s, id);
    }
  }

  lemma SpendSole(s: State, id: Id, saved: bool, next: State)
    requires Inv(s) && Sole(s) && Spent(s, id, saved) == Some(next)
    ensures Sole(next)
  {
    hide RequestFits, IsApproval, RecordFits, ReconcileKind;
    var approval := s.requests[id].approval;
    forall b | b in s.repairs
      ensures s.repairs[b] != approval
    {
      assert IdFits(s, b);
    }
  }

  lemma EnqueueSole(s: State, id: Id, saved: bool, now: Time, next: State)
    requires Inv(s) && Sole(s) && Enqueued(s, id, saved, now) == Some(next)
    ensures Sole(next)
  {
    hide Inv, Queue;
    QueueEffect(s.(requests := s.requests - {id}), id, Worker(Repair, s.requests[id].findings, 0), s.requests[id].actor, now);
  }

  lemma QueueEffect(s: State, id: Id, worker: Worker, actor: Option<string>, now: Time)
    ensures var next := Queue(s, id, worker, actor, now);
            next.requests == s.requests && next.repairs == s.repairs && next.consumed == s.consumed
  {
  }

  /** Other steps leave requests, repairs and spent approvals as they are, or forget requests. */
  lemma OtherSole(s: State, step: Step, next: State)
    requires After(s, step) == Some(next) && !step.Examine? && !step.Spend? && !step.Enqueue?
    ensures next.repairs == s.repairs && next.consumed == s.consumed
    ensures forall id :: id in next.requests ==> id in s.requests && next.requests[id] == s.requests[id]
  {
    hide Amended, NewRecord, Reviewed;
  }

  lemma StepSole(s: State, step: Step, next: State)
    requires Inv(s) && Sole(s) && Alone(s, step) && After(s, step) == Some(next)
    ensures Sole(next)
  {
    hide Inv, Examined, Spent, Enqueued, WorkerStep, Restarted;
    match step
    case Examine(_, _, _, _) => ExamineSole(s, step, next);
    case Spend(id, saved) => SpendSole(s, id, saved, next);
    case Enqueue(id, saved, now) => EnqueueSole(s, id, saved, now, next);
    case _ =>
      OtherSole(s, step, next);
      hide After;
  }

  lemma {:induction false} RunSole(s: State, steps: seq<Step>)
    requires Inv(s) && Sole(s) && Run(s, steps).Some? && Undivided(s, steps)
    ensures Sole(Run(s, steps).value)
    decreases |steps|
  {
    hide Inv, Sole, After, Alone;
    if steps != [] {
      var next := After(s, steps[0]).value;
      StepKeeps(s, steps[0], next);
      StepSole(s, steps[0], next);
      RunSole(next, steps[1..]);
    }
  }

  /** In every run, every enqueued repair, at whatever stage it is or ended, was given a spent approval, a succeeded dry run
      with findings; it works on exactly those findings and records no others. */
  lemma RepairsAreApproved(steps: seq<Step>, id: Id)
    requires Run(INITIAL, steps).Some? && id in Run(INITIAL, steps).value.repairs
    ensures var s := Run(INITIAL, steps).value;
            && id in s.disk && s.disk[id].kind == ReconcileKind()
            && s.repairs[id] in s.disk && s.repairs[id] in s.consumed
            && (var approval := s.disk[s.repairs[id]];
                && approval.kind == "host.reconcile" && approval.status == Succeeded
                && approval.mode == Some(DryRun) && approval.findings.Some?)
            && (id in s.workers ==>
                  s.workers[id].mode == Repair && Some(s.workers[id].approved) == s.disk[s.repairs[id]].findings)
            && (s.disk[id].findings.Some? ==> s.disk[id].findings == s.disk[s.repairs[id]].findings)
  {
    hide Run, After, ReconcileKind, RecordFits;
    InitialHolds();
    RunKeeps(INITIAL, steps);
    var s := Run(INITIAL, steps).value;
    assert IdFits(s, id);
    ApprovalMeans(s.disk[s.repairs[id]]);
  }

  /** A dry run of the reconciliation that succeeded and left its findings. */
  ghost predicate CompletedDryRun(r: Record) {
    r.kind == "host.reconcile" && r.status == Succeeded && r.mode == Some(DryRun) && r.findings.Some?
  }

  /** What counts as an approval: no other kind of record, no unfinished or failed one, and no repair. */
  lemma ApprovalMeans(r: Record)
    ensures IsApproval(r) <==> CompletedDryRun(r)
    ensures IsApproval(r) ==>
              r.kind == "host.reconcile" && r.status == Succeeded && r.mode == Some(DryRun) && r.findings.Some?
  {
  }

  /** No approval serves two repairs, in every run in which no two requests are between examining and spending one approval
      at the same time. */
  lemma ApprovalsServeOnce(steps: seq<Step>, a: Id, b: Id)
    requires Run(INITIAL, steps).Some? && Undivided(INITIAL, steps)
    requires var s := Run(INITIAL, steps).value; a in s.repairs && b in s.repairs && a != b
    ensures var s := Run(INITIAL, steps).value; s.repairs[a] != s.repairs[b]
  {
    hide Run, After, Undivided;
    InitialHolds();
    RunSole(INITIAL, steps);
  }

  /** Enqueuing a repair keeps approvals and repairs one to one exactly when its approval has not served another repair. */
  lemma EnqueueExactly(s: State, id: Id, now: Time, next: State)
    requires Inv(s) && Enqueued(s, id, true, now) == Some(next)
    ensures Injective(next.repairs) <==>
            Injective(s.repairs) && forall other :: other in s.repairs ==> s.repairs[other] != s.requests[id].approval
  {
    hide Queue, RequestFits, RecordFits, ReconcileKind;
    assert IdFits(s, id);
    var approval := s.requests[id].approval;
    assert id !in s.repairs && next.repairs == s.repairs[id := approval];
    if Injective(next.repairs) {
      forall a, b | a in s.repairs && b in s.repairs && a != b
        ensures s.repairs[a] != s.repairs[b]
      {
        assert next.repairs[a] == s.repairs[a] && next.repairs[b] == s.repairs[b];
      }
      forall other | other in s.repairs
        ensures s.repairs[other] != approval
      {
        assert next.repairs[other] != next.repairs[id];
      }
    }
  }

  /** Whatever is repairing, or says it was a repair, is among the enqueued repairs. */
  lemma RepairsAreKnown(steps: seq<Step>, id: Id)
    requires Run(INITIAL, steps).Some?
    ensures var s := Run(INITIAL, steps).value;
            && (id in s.workers && s.workers[id].mode == Repair ==> id in s.repairs)
            && (id in s.disk && s.disk[id].kind == ReconcileKind() && s.disk[id].mode == Some(Repair) ==> id in s.repairs)
  {
    hide Run, After, ReconcileKind, RecordFits, RepairFits;
    InitialHolds();
    RunKeeps(INITIAL, steps);
    assert IdFits(Run(INITIAL, steps).value, id);
  }

  /** The request in which a repair under an approval began. */
  ghost predicate Asked(step: Step, id: Id, approval: Id) {
    step.Examine? && step.id == id && step.approval == approval && step.quarantineUnmanaged
  }

  /** A request under way, or an enqueued repair, under this approval; a request that has spent it quarantines unmanaged
      resources. */
  ghost predicate Pursues(s: State, id: Id, approval: Id) {
    || (id in s.repairs && s.repairs[id] == approval)
    || (id in s.requests && s.requests[id].approval == approval && s.requests[id].quarantineUnmanaged)
  }

  lemma RequestsFit(s: State, id: Id)
    requires Inv(s)
    ensures RequestFits(s, id)
  {
  }

  lemma OnlyAsking(s: State, step: Step, id: Id, approval: Id)
    requires RequestFits(s, id)
    requires After(s, step).Some? && Pursues(After(s, step).value, id, approval)
    ensures Pursues(s, id, approval) || Asked(step, id, approval)
  {
    hide Amended, Reviewed, NewRecord, ReconcileKind, IsApproval;
  }

  /** Every enqueued repair goes back to a request that named its approval and quarantines unmanaged resources. */
  lemma {:induction false} RepairsWereAsked(s: State, steps: seq<Step>, id: Id, approval: Id)
    requires Inv(s) && Run(s, steps).Some? && Pursues(Run(s, steps).value, id, approval)
    ensures Pursues(s, id, approval) || exists step :: step in steps && Asked(step, id, approval)
    decreases |steps|
  {
    hide After, Asked, Pursues, Inv;
    if steps != [] {
      var next := After(s, steps[0]).value;
      StepKeeps(s, steps[0], next);
      RepairsWereAsked(next, steps[1..], id, approval);
      assert steps == [steps[0]] + steps[1..];
      if Pursues(next, id, approval) {
        assert RequestFits(s, id) by {
          RequestsFit(s, id);
        }
        OnlyAsking(s, steps[0], id, approval);
      }
    }
  }

  /** A reconciliation that succeeded says what it was and what it found. */
  lemma SucceededIsDocumented(steps: seq<Step>, id: Id)
    requires Run(INITIAL, steps).Some?
    requires var disk := Run(INITIAL, steps).value.disk;
             id in disk && disk[id].kind == ReconcileKind() && disk[id].status == Succeeded
    ensures var r := Run(INITIAL, steps).value.disk[id]; r.mode.Some? && r.findings.Some?
  {
    hide Run, After, ReconcileKind, RepairFits;
    InitialHolds();
    RunKeeps(INITIAL, steps);
    assert IdFits(Run(INITIAL, steps).value, id);
  }

  /** Spending the approval leads on to the journal exactly when the request quarantines unmanaged resources, and the repair
      is enqueued exactly when that write succeeds; until then only the approval is gone. */
  lemma RepairFollowsSpending(s: State, id: Id, saved: bool, now: Time, spent: State, next: State)
    requires Spent(s, id, true) == Some(spent)
    requires id in spent.requests ==> Enqueued(spent, id, saved, now) == Some(next)
    requires id !in spent.requests ==> next == spent
    requires id !in s.disk
    ensures spent == s.(consumed := s.consumed + {s.requests[id].approval}, requests := spent.requests)
    ensures id in spent.requests <==> s.requests[id].quarantineUnmanaged
    ensures id in next.disk <==> s.requests[id].quarantineUnmanaged && saved
    ensures id in next.disk ==> id in next.workers && id in next.repairs && next.repairs[id] == s.requests[id].approval
    ensures id !in next.disk ==> next == spent.(requests := next.requests)
  {
    hide ReconcileKind, NewRecord;
  }

  lemma RunStep(s: State, step: Step, next: State, rest: seq<Step>)
    requires After(s, step) == Some(next)
    ensures Run(s, [step] + rest) == Run(next, rest)
  {
    hide After;
    assert ([step] + rest)[1..] == rest;
  }

  /** A worker that has reached the stage takes its next step, and only its own record and stage change. */
  lemma WorkerAdvances(s: State, step: Step) returns (next: State)
    requires Inv(s) && IsWorkerStep(step) && step.id in s.workers && StageReady(step, s.workers[step.id])
    ensures After(s, step) == Some(next) && Inv(next)
    ensures next.disk.Keys == s.disk.Keys && next.consumed == s.consumed && next.repairs == s.repairs && next.requests == s.requests
    ensures WorkerOf(next, step.id) == StageAfter(step, s.workers[step.id])
    ensures step.id in s.disk && s.disk[step.id].kind == ReconcileKind()
    ensures next.disk[step.id].kind == s.disk[step.id].kind
    ensures next.disk[step.id].mode == if step.RecordMode? then Some(s.workers[step.id].mode) else s.disk[step.id].mode
    ensures step.Succeed? ==> next.disk[step.id].status == Succeeded
  {
    hide Inv, ReconcileKind, Amended, RecordFits, Examined, Spent, Enqueued, Queue, OtherStep, Restarted, OtherCreated;
    var id := step.id;
    WorkerIsActive(s, id);
    var w := s.workers[id];
    AmendHappens(s.disk[id], w, step);
    AmendEffect(s.disk[id], StageUpdate(step, w));
    next := Advance(s, id, StageUpdate(step, w), StageAfter(step, w)).value;
    WorkerKeeps(s, step, next);
  }

  /** A dry run from its request to its success. */
  function DryRunSteps(id: Id, findings: seq<Finding>, end: seq<Step>): seq<Step> {
    [RequestDryRun(id, None, 0)]
    + ([Mark(id, 0)] + ([RecordMode(id)] + ([RecordFindings(id, findings)] + ([Succeed(id, None, 0)] + end))))
  }

  lemma DryRunQueued(id: Id) returns (s: State)
    ensures After(INITIAL, RequestDryRun(id, None, 0)) == Some(s) && Inv(s)
    ensures s.disk.Keys == {id} && s.consumed == {} && s.repairs == map[] && s.requests == map[] && WorkerOf(s, id) == Some(Worker(DryRun, [], 0))
  {
    hide Inv, ReconcileKind, NewRecord, OtherStep, OtherCreated, WorkerStep, Restarted, Examined, Spent, Enqueued;
    s := Queue(INITIAL, id, Worker(DryRun, [], 0), None, 0);
    InitialHolds();
    QueueKeeps(INITIAL, id, Worker(DryRun, [], 0), None, None, 0, s);
  }

  lemma DryRunApproved(id: Id, findings: seq<Finding>, end: seq<Step>) returns (s: State)
    ensures Run(INITIAL, DryRunSteps(id, findings, end)) == Run(s, end)
    ensures Inv(s) && s.disk.Keys == {id} && s.consumed == {} && s.repairs == map[] && s.requests == map[]
    ensures IsApproval(s.disk[id])
  {
    hide Inv, After, Run, ReconcileKind, Queue;
    var s1 := DryRunQueued(id);
    var s2 := WorkerAdvances(s1, Mark(id, 0));
    var s3 := WorkerAdvances(s2, RecordMode(id));
    var s4 := WorkerAdvances(s3, RecordFindings(id, findings));
    s := WorkerAdvances(s4, Succeed(id, None, 0));
    RunStep(s4, Succeed(id, None, 0), s, end);
    RunStep(s3, RecordFindings(id, findings), s4, [Succeed(id, None, 0)] + end);
    RunStep(s2, RecordMode(id), s3, [RecordFindings(id, findings)] + ([Succeed(id, None, 0)] + end));
    RunStep(s1, Mark(id, 0), s2, [RecordMode(id)] + ([RecordFindings(id, findings)] + ([Succeed(id, None, 0)] + end)));
    RunStep(INITIAL, RequestDryRun(id, None, 0), s1,
            [Mark(id, 0)] + ([RecordMode(id)] + ([RecordFindings(id, findings)] + ([Succeed(id, None, 0)] + end))));
    SucceededFits(s, id);
  }

  lemma SucceededFits(s: State, id: Id)
    requires Inv(s) && id in s.disk && s.disk[id].kind == ReconcileKind() && s.disk[id].status == Succeeded
    ensures s.disk[id].findings.Some?
  {
    hide ReconcileKind, RepairFits;
    assert IdFits(s, id);
  }

  /** A reachable run that spends its approval and enqueues nothing. */
  lemma SpentWithoutRepair(id: Id, findings: seq<Finding>, repair: Id)
    requires id != repair
    ensures var end := Run(INITIAL, DryRunSteps(id, findings, [Examine(repair, id, false, None)] + ([Spend(repair, true)] + [])));
            end.Some? && end.value.consumed == {id} && end.value.repairs == map[] && end.value.disk.Keys == {id}
  {
    hide Inv, ReconcileKind, IsApproval, Run;
    var examine := Examine(repair, id, false, None);
    var s := DryRunApproved(id, findings, [examine] + ([Spend(repair, true)] + []));
    var s1 := Examined(s, repair, id, false, None).value;
    RunStep(s, examine, s1, [Spend(repair, true)] + []);
    var s2 := Spent(s1, repair, true).value;
    RunStep(s1, Spend(repair, true), s2, []);
    NoSteps(s2);
    assert s.consumed + {id} == {id};
  }

  /** The steps of a request, as steps of the run. */
  lemma RequestSteps(s: State, id: Id)
    ensures forall approval, quarantine, actor ::
              After(s, Examine(id, approval, quarantine, actor)) == Examined(s, id, approval, quarantine, actor)
    ensures forall saved :: After(s, Spend(id, saved)) == Spent(s, id, saved)
    ensures forall saved, now :: After(s, Enqueue(id, saved, now)) == Enqueued(s, id, saved, now)
  {
    hide Examined, Spent, Enqueued;
  }

  lemma NoSteps(s: State)
    ensures Run(s, []) == Some(s)
  {
  }

  /** Two requests that overlap. */
  function Overlapping(approval: Id, a: Id, b: Id): seq<Step> {
    [Examine(a, approval, true, None)] + ([Examine(b, approval, true, None)] + ([Spend(a, true)] + ([Spend(b, true)]
    + ([Enqueue(a, true, 0)] + ([Enqueue(b, true, 0)] + [])))))
  }

  /** A reachable run in which two overlapping requests get two repairs out of one approval. */
  lemma ApprovalServesTwice(id: Id, findings: seq<Finding>, a: Id, b: Id)
    requires id != a && id != b && a != b
    ensures var end := Run(INITIAL, DryRunSteps(id, findings, Overlapping(id, a, b)));
            end.Some? && end.value.repairs == map[a := id, b := id] && !Injective(end.value.repairs)
  {
    hide Inv, ReconcileKind, IsApproval, Run, After, Examined, Spent, Enqueued;
    var s := DryRunApproved(id, findings, Overlapping(id, a, b));
    var s1, s2 := BothExamined(s, id, a, b);
    var s3, s4 := BothSpent(s2, id, a, b);
    var s5, s6 := BothEnqueued(s4, id, a, b);
    var enqueue := [Enqueue(a, true, 0)] + ([Enqueue(b, true, 0)] + []);
    var spend := [Spend(a, true)] + ([Spend(b, true)] + enqueue);
    RunStep(s, Examine(a, id, true, None), s1, [Examine(b, id, true, None)] + spend);
    RunStep(s1, Examine(b, id, true, None), s2, spend);
    RunStep(s2, Spend(a, true), s3, [Spend(b, true)] + enqueue);
    RunStep(s3, Spend(b, true), s4, enqueue);
    RunStep(s4, Enqueue(a, true, 0), s5, [Enqueue(b, true, 0)] + []);
    RunStep(s5, Enqueue(b, true, 0), s6, []);
    NoSteps(s6);
    assert s6.repairs[a] == s6.repairs[b];
  }

  lemma BothExamined(s: State, approval: Id, a: Id, b: Id) returns (s1: State, s2: State)
    requires s.disk.Keys == {approval} && s.consumed == {} && s.requests == map[] && IsApproval(s.disk[approval])
    requires approval != a && approval != b && a != b
    ensures After(s, Examine(a, approval, true, None)) == Some(s1) && After(s1, Examine(b, approval, true, None)) == Some(s2)
    ensures s2.requests.Keys == {a, b} && !s2.requests[a].spent && !s2.requests[b].spent
    ensures s2.requests[a].quarantineUnmanaged && s2.requests[b].quarantineUnmanaged
    ensures s2.requests[a].approval == approval && s2.requests[b].approval == approval
    ensures s2.disk == s.disk && s2.repairs == s.repairs
  {
    hide IsApproval, After;
    s1 := OneExamined(s, a, approval);
    s2 := OneExamined(s1, b, approval);
  }

  lemma OneExamined(s: State, id: Id, approval: Id) returns (next: State)
    requires id !in s.disk && id !in s.requests && approval in s.disk && approval !in s.consumed
    requires IsApproval(s.disk[approval])
    ensures After(s, Examine(id, approval, true, None)) == Some(next)
    ensures next == s.(requests := next.requests) && next.requests.Keys == s.requests.Keys + {id}
    ensures forall other :: other in s.requests ==> next.requests[other] == s.requests[other]
    ensures next.requests[id].approval == approval && next.requests[id].quarantineUnmanaged && !next.requests[id].spent
  {
    hide IsApproval, After;
    next := Examined(s, id, approval, true, None).value;
    RequestSteps(s, id);
  }

  lemma BothSpent(s: State, approval: Id, a: Id, b: Id) returns (s1: State, s2: State)
    requires s.requests.Keys == {a, b} && a != b && !s.requests[a].spent && !s.requests[b].spent
    requires s.requests[a].quarantineUnmanaged && s.requests[b].quarantineUnmanaged
    requires s.requests[a].approval == approval && s.requests[b].approval == approval
    ensures After(s, Spend(a, true)) == Some(s1) && After(s1, Spend(b, true)) == Some(s2)
    ensures s2.requests.Keys == {a, b} && s2.requests[a].spent && s2.requests[b].spent
    ensures s2.requests[a].approval == approval && s2.requests[b].approval == approval
    ensures s2.disk == s.disk && s2.repairs == s.repairs
  {
    hide After;
    s1 := Spent(s, a, true).value;
    s2 := Spent(s1, b, true).value;
    RequestSteps(s, a);
    RequestSteps(s1, b);
  }

  lemma BothEnqueued(s: State, approval: Id, a: Id, b: Id) returns (s1: State, s2: State)
    requires s.requests.Keys == {a, b} && a != b && s.requests[a].spent && s.requests[b].spent
    requires s.requests[a].approval == approval && s.requests[b].approval == approval
    requires a !in s.disk && b !in s.disk && s.repairs == map[]
    ensures After(s, Enqueue(a, true, 0)) == Some(s1) && After(s1, Enqueue(b, true, 0)) == Some(s2)
    ensures s2.repairs == map[a := approval, b := approval]
  {
    hide After, NewRecord, ReconcileKind;
    s1 := Enqueued(s, a, true, 0).value;
    s2 := Enqueued(s1, b, true, 0).value;
    RequestSteps(s, a);
    RequestSteps(s1, b);
  }

  // ----- the request handler -----

  /** What a repair request will answer, and how far it gets, when nothing comes between its steps. */
  datatype Answers = Answers(consumeSaved: bool, queueSaved: bool, readBack: bool)

  /** The steps of one repair request, left to itself. */
  function RepairSteps(s: State, approval: Option<Id>, quarantineUnmanaged: bool, id: Id, actor: Option<string>,
                       answers: Answers, now: Time): seq<Step>
  {
    if approval.None? || approval.value !in s.disk then []
    else if !IsApproval(s.disk[approval.value]) || approval.value in s.consumed then []
    else
      [Examine(id, approval.value, quarantineUnmanaged, actor)]
      + ([Spend(id, answers.consumeSaved)]
         + if answers.consumeSaved && quarantineUnmanaged then [Enqueue(id, answers.queueSaved, now)] + [] else [])
  }

  /** The state after one repair request, left to itself. */
  function Requested(s: State, approval: Id, quarantineUnmanaged: bool, id: Id, actor: Option<string>, answers: Answers,
                     now: Time): State
    requires approval in s.disk && IsApproval(s.disk[approval])
  {
    if !answers.consumeSaved then s
    else
      var spent := s.(consumed := s.consumed + {approval});
      if !quarantineUnmanaged || !answers.queueSaved then spent
      else Queue(spent, id, Worker(Repair, s.disk[approval].findings.value, 0), actor, now)
           .(repairs := s.repairs[id := approval])
  }

  lemma RequestIsSteps(s: State, approval: Id, quarantineUnmanaged: bool, id: Id, actor: Option<string>, answers: Answers,
                       now: Time)
    requires approval in s.disk && IsApproval(s.disk[approval]) && approval !in s.consumed
    requires id !in s.disk && id !in s.requests
    ensures Run(s, RepairSteps(s, Some(approval), quarantineUnmanaged, id, actor, answers, now))
         == Some(Requested(s, approval, quarantineUnmanaged, id, actor, answers, now))
  {
    hide IsApproval, NewRecord, ReconcileKind, Run, After;
    var examine, spend := Examine(id, approval, quarantineUnmanaged, actor), Spend(id, answers.consumeSaved);
    var rest := if answers.consumeSaved && quarantineUnmanaged then [Enqueue(id, answers.queueSaved, now)] + [] else [];
    var s1 := Examined(s, id, approval, quarantineUnmanaged, actor).value;
    RequestSteps(s, id);
    RequestSteps(s1, id);
    assert s1.requests - {id} == s.requests;
    var s2 := Spent(s1, id, answers.consumeSaved).value;
    RunStep(s, examine, s1, [spend] + rest);
    RunStep(s1, spend, s2, rest);
    if answers.consumeSaved && quarantineUnmanaged {
      RequestSteps(s2, id);
      assert s2.requests - {id} == s.requests;
      var s3 := Enqueued(s2, id, answers.queueSaved, now).value;
      RunStep(s2, Enqueue(id, answers.queueSaved, now), s3, []);
      NoSteps(s3);
    } else {
      NoSteps(s2);
    }
  }

  /** The refusals that depend on the approval, and what an accepted repair works on. */
  ghost predicate RepairHandled(before: State, after: State, approval: Option<Id>, id: Id, r: Result<Record, AppError>) {
    && (approval.None? ==> r == Err(Validation))
    && (approval.Some? && approval.value !in before.disk ==> r == Err(NotFound))
    && (approval.Some? && approval.value in before.disk ==>
          && (!CompletedDryRun(before.disk[approval.value]) || approval.value in before.consumed ==>
                r == Err(Conflict) && after == before)
          && (r.Ok? ==>
                && approval.value in after.consumed && id in after.workers && after.workers[id].mode == Repair
                && before.disk[approval.value].findings == Some(after.workers[id].approved)))
  }

  class ReconcileService {
    var state: State

    constructor ()
      ensures state == INITIAL
    {
      state := INITIAL;
    }

    /** An approval is spent once; `saved` tells whether the write goes through. */
    method ConsumeApproval(approval: Id, saved: bool) returns (r: Result<(), AppError>)
      modifies this
      ensures r == if approval in old(state).consumed then Err(Conflict) else if saved then Ok(()) else Err(Internal)
      ensures state == if r.Ok? then old(state).(consumed := old(state).consumed + {approval}) else old(state)
    {
      if approval in state.consumed {
        return Err(Conflict);
      }
      if !saved {
        return Err(Internal);
      }
      state := state.(consumed := state.consumed + {approval});
      return Ok(());
    }

    method Enqueue(id: Id, worker: Worker, actor: Option<string>, saved: bool, now: Time) returns (r: Result<(), AppError>)
      requires id !in state.disk
      modifies this
      ensures r == if saved then Ok(()) else Err(Internal)
      ensures state == if saved then Queue(old(state), id, worker, actor, now) else old(state)
    {
      if !saved {
        return Err(Internal);
      }
      var record := NewRecord(id, ReconcileKind(), Queued, Some("node"), None, actor, now);
      state := state.(disk := state.disk[id := record], workers := state.workers[id := worker]);
      return Ok(());
    }

    /** A dry run needs no approval; the answer is the queued record, unless reading it back fails. */
    method EnqueueDryRun(id: Id, actor: Option<string>, answers: Answers, now: Time) returns (r: Result<Record, AppError>)
      requires id !in state.disk
      modifies this
      ensures answers.queueSaved ==> After(old(state), RequestDryRun(id, actor, now)) == Some(state)
      ensures !answers.queueSaved ==> state == old(state)
      ensures r.Ok? <==> answers.queueSaved && answers.readBack
      ensures r.Ok? ==> id in state.disk && r.value == state.disk[id] && r.value.actor == actor && r.value.status == Queued
    {
      hide ReconcileKind;
      var queued := Enqueue(id, Worker(DryRun, [], 0), actor, answers.queueSaved, now);
      if queued.Err? {
        return Err(queued.error);
      }
      return if answers.readBack then Ok(state.disk[id]) else Err(Internal);
    }

    /** A repair needs an unspent approval, which is spent before the quarantine flag is looked at. Left to itself the handler
        takes exactly the steps of a request; the answer is the queued record, unless reading it back fails. */
    method EnqueueRepair(approval: Option<Id>, quarantineUnmanaged: bool, id: Id, actor: Option<string>, answers: Answers,
                         now: Time)
      returns (r: Result<Record, AppError>)
      requires id !in state.disk && id !in state.requests
      modifies this
      ensures Run(old(state), RepairSteps(old(state), approval, quarantineUnmanaged, id, actor, answers, now)) == Some(state)
      ensures RepairAnswer(old(state), approval, quarantineUnmanaged, answers) == if r.Ok? then None else Some(r.error)
      ensures RepairHandled(old(state), state, approval, id, r)
      ensures r.Ok? ==> id in state.disk && r.value == state.disk[id] && r.value.actor == actor && r.value.status == Queued
    {
      hide ReconcileKind, Run, After, IsApproval, CompletedDryRun;
      NoSteps(state);
      if approval.None? {
        return Err(Validation);
      }
      var given := approval.value;
      if given !in state.disk {
        return Err(NotFound);
      }
      ApprovalMeans(state.disk[given]);
      if !IsApproval(state.disk[given]) {
        return Err(Conflict);
      }
      var worker := Worker(Repair, state.disk[given].findings.value, 0);
      if given !in state.consumed {
        RequestIsSteps(state, given, quarantineUnmanaged, id, actor, answers, now);
      }
      var spent := ConsumeApproval(given, answers.consumeSaved);
      if spent.Err? {
        return Err(spent.error);
      }
      if !quarantineUnmanaged {
        return Err(Validation);
      }
      var queued := Enqueue(id, worker, actor, answers.queueSaved, now);
      if queued.Err? {
        return Err(queued.error);
      }
      state := state.(repairs := state.repairs[id := given]);
      return if answers.readBack then Ok(state.disk[id]) else Err(Internal);
    }
  }

  /** The error a repair request is answered with, if any. */
  function RepairAnswer(s: State, approval: Option<Id>, quarantineUnmanaged: bool, answers: Answers): Option<AppError> {
    if approval.None? then Some(Validation)
    else if approval.value !in s.disk then Some(NotFound)
    else if !IsApproval(s.disk[approval.value]) || approval.value in s.consumed then Some(Conflict)
    else if !answers.consumeSaved then Some(Internal)
    else if !quarantineUnmanaged then Some(Validation)
    else if !answers.queueSaved || !answers.readBack then Some(Internal)
    else None
  }
}

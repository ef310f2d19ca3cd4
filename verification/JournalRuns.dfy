/** Runs of the journal: many workers, failing writes, abandoned requests, crashes, and recovery at every start.

    A worker touches the store at separate moments: it reads its record, then writes it back, and anything may happen in
    between. The process may die at any moment, recovery included; startup finishes recovery before the first worker. */
module JournalRuns {
  import opened Wrappers
  import opened Journal

  /** Where the worker of a record is. `next` is the record it has prepared and not yet written. */
  datatype Task = Spawned                          // queued, not started
                | Starting(next: Record)           // about to write the running mark
                | Working                          // inside its operation
                | Reporting(next: Record)          // inside its operation, about to write progress, findings or a result
                | Returned(ok: bool)               // the operation ended
                | Closing(ok: bool, next: Record)  // about to write the outcome

  datatype Phase = Down | Recovering(todo: set<Id>) | Up

  /** `disk` survives a crash; `tasks` and `phase` do not. `outcomes` remembers how each operation really ended. */
  datatype State = State(disk: map<Id, Record>, tasks: map<Id, Task>, phase: Phase, outcomes: map<Id, bool>)

  const INITIAL := State(map[], map[], Down, map[])

  /** What an operation may tell the journal while it runs. */
  predicate IsReport(u: Update) {
    u.Progress? || u.SetMode? || u.SetFindings? || u.SetResult?
  }

  datatype Step = Begin(id: Id, kind: string, resourceType: Option<string>, resourceId: Option<string>,
                        actor: Option<string>, now: Time)
                | Enqueue(id: Id, kind: string, resourceType: Option<string>, resourceId: Option<string>,
                          actor: Option<string>, now: Time)
                | Read(id: Id, update: Update)    // read the record and prepare the amended one
                | Write(id: Id, ok: bool)         // write it back, or fail to
                | Return(id: Id, ok: bool)        // the operation of this record ends
                | Abandon(id: Id)                 // the worker disappears: dropped request, panic, or an error it gives up on
                | Crash
                | Boot
                | Recover(id: Id, ok: bool, now: Time)
                | Serve

  /** The worker after reading its record for `u`, or None where the code does not do that. */
  function AfterRead(task: Task, record: Record, u: Update): Option<Task> {
    match task
    case Spawned =>
      if !u.Start? then None
      else (match Amended(record, u) case None => Some(Working) case Some(next) => Some(Starting(next)))
    case Working =>
      if !IsReport(u) then None
      else (match Amended(record, u) case None => Some(Working) case Some(next) => Some(Reporting(next)))
    case Returned(ok) =>
      if !u.Finish? || u.status != (if ok then Succeeded else Failed) then None
      else (match Amended(record, u) case None => None case Some(next) => Some(Closing(ok, next)))
    case _ => None
  }

  /** The record a worker is about to write, and where it goes when the write succeeds; it is done after `Closing`. */
  function PendingWrite(task: Task): Option<(Record, Option<Task>)> {
    match task
    case Starting(next) => Some((next, Some(Working)))
    case Reporting(next) => Some((next, Some(Working)))
    case Closing(_, next) => Some((next, None))
    case _ => None
  }

  /** A new record is durable before its worker exists. */
  function Create(s: State, id: Id, record: Record, task: Task): Option<State> {
    if s.phase != Up || id in s.disk then None
    else Some(s.(disk := s.disk[id := record], tasks := s.tasks[id := task]))
  }

  function ReadStep(s: State, id: Id, u: Update): Option<State> {
    if id !in s.tasks || id !in s.disk then None
    else
      match AfterRead(s.tasks[id], s.disk[id], u)
      case None => None
      case Some(task) => Some(s.(tasks := s.tasks[id := task]))
  }

  /** A failed write ends a worker that was marking its record, and leaves one that was reporting in its operation,
      which may then return an error. */
  function WriteStep(s: State, id: Id, ok: bool): Option<State> {
    if id !in s.tasks then None
    else
      match PendingWrite(s.tasks[id])
      case None => None
      case Some((next, onward)) =>
        if ok then
          Some(s.(disk := s.disk[next.id := next],
                  tasks := if onward.Some? then s.tasks[id := onward.value] else s.tasks - {id}))
        else
          Some(s.(tasks := if s.tasks[id].Reporting? then s.tasks[id := Working] else s.tasks - {id}))
  }

  function ReturnStep(s: State, id: Id, ok: bool): Option<State> {
    if id !in s.tasks || s.tasks[id] != Working then None
    else Some(s.(tasks := s.tasks[id := Returned(ok)], outcomes := s.outcomes[id := ok]))
  }

  /** Recovery takes the records in any order; a failed write stops the process. */
  function RecoverStep(s: State, id: Id, ok: bool, now: Time): Option<State> {
    if !s.phase.Recovering? || id !in s.phase.todo || id !in s.disk then None
    else if !s.disk[id].Active() then Some(s.(phase := Recovering(s.phase.todo - {id})))
    else if ok then Some(s.(disk := s.disk[id := Reviewed(s.disk[id], now)], phase := Recovering(s.phase.todo - {id})))
    else Some(s.(phase := Down))
  }

  /** The state after a step, or None when the step is not possible. */
  function After(s: State, step: Step): Option<State> {
    match step
    case Begin(id, kind, resourceType, resourceId, actor, now) =>
      Create(s, id, NewRecord(id, kind, Running, resourceType, resourceId, actor, now), Working)
    case Enqueue(id, kind, resourceType, resourceId, actor, now) =>
      Create(s, id, NewRecord(id, kind, Queued, resourceType, resourceId, actor, now), Spawned)
    case Read(id, u) => ReadStep(s, id, u)
    case Write(id, ok) => WriteStep(s, id, ok)
    case Return(id, ok) => ReturnStep(s, id, ok)
    case Abandon(id) => if id !in s.tasks then None else Some(s.(tasks := s.tasks - {id}))
    case Crash => Some(s.(tasks := map[], phase := Down))
    case Boot => if s.phase != Down then None else Some(s.(phase := Recovering(s.disk.Keys)))
    case Recover(id, ok, now) => RecoverStep(s, id, ok, now)
    case Serve => if s.phase != Recovering({}) then None else Some(s.(phase := Up))
  }

  /** The state after a whole run, or None when some step of it is not possible. */
  function Run(s: State, steps: seq<Step>): Option<State>
    decreases |steps|
  {
    if steps == [] then Some(s)
    else
      match After(s, steps[0])
      case None => None
      case Some(next) => Run(next, steps[1..])
  }

  // ----- the invariant -----

  ghost predicate TaskFits(id: Id, record: Record, task: Task, outcomes: map<Id, bool>) {
    match task
    case Spawned => record.status == Queued && id !in outcomes
    case Starting(next) => record.status == Queued && next.status == Running && next.id == id && id !in outcomes
    case Working => record.status == Running && id !in outcomes
    case Reporting(next) => record.status == Running && next.status == Running && next.id == id && id !in outcomes
    case Returned(ok) => record.status == Running && id in outcomes && outcomes[id] == ok
    case Closing(ok, next) =>
      && record.status == Running && next.id == id
      && next.status == (if ok then Succeeded else Failed) && id in outcomes && outcomes[id] == ok
  }

  ghost predicate Honest(id: Id, record: Record, outcomes: map<Id, bool>) {
    && record.id == id
    && (record.status == Queued ==> id !in outcomes)
    && (record.status == Succeeded ==> id in outcomes && outcomes[id])
    && (record.status == Failed ==> id in outcomes && !outcomes[id])
  }

  ghost predicate Inv(s: State) {
    && (forall id :: id in s.disk ==> Honest(id, s.disk[id], s.outcomes))
    && (forall id :: id in s.outcomes ==> id in s.disk)
    && (forall id :: id in s.tasks ==> id in s.disk && TaskFits(id, s.disk[id], s.tasks[id], s.outcomes))
    && (s.phase != Up ==> s.tasks == map[])
    && (s.phase.Recovering? ==> forall id :: id in s.disk && s.disk[id].Active() ==> id in s.phase.todo)
  }

  function Rank(status: Status): nat {
    match status
    case Queued => 0
    case Running => 1
    case _ => 2
  }

  /** Records stay filed, a finished record is not touched at all, and no status goes backwards. */
  ghost predicate Grows(s: State, next: State) {
    && (forall id :: id in s.disk ==> id in next.disk)
    && (forall id :: id in s.disk && s.disk[id].Terminal() ==> next.disk[id] == s.disk[id])
    && (forall id :: id in s.disk ==> Rank(s.disk[id].status) <= Rank(next.disk[id].status))
  }

  lemma GrowsFurther(s: State, t: State, u: State)
    requires Grows(s, t) && Grows(t, u)
    ensures Grows(s, u)
  {
  }

  lemma AmendKeeps(record: Record, u: Update)
    requires Amended(record, u).Some?
    ensures var next := Amended(record, u).value;
            && next.id == record.id
            && next.status == match u case Start(_) => Running case Finish(status, _, _, _, _, _) => status case _ => record.status
  {
  }

  /** Reading changes only the worker. */
  lemma ReadFits(s: State, id: Id, u: Update)
    requires Inv(s) && ReadStep(s, id, u).Some?
    ensures TaskFits(id, s.disk[id], AfterRead(s.tasks[id], s.disk[id], u).value, s.outcomes)
  {
    if Amended(s.disk[id], u).Some? {
      AmendKeeps(s.disk[id], u);
    }
    hide Amended;
  }

  /** Replacing one worker, and perhaps its record, keeps the invariant when the new pair fits. */
  lemma ReplaceKeeps(s: State, id: Id, record: Record, task: Option<Task>, outcomes: map<Id, bool>, next: State)
    requires Inv(s) && s.phase == Up
    requires next == State(s.disk[id := record], if task.Some? then s.tasks[id := task.value] else s.tasks - {id}, Up, outcomes)
    requires Honest(id, record, outcomes)
    requires task.Some? ==> TaskFits(id, record, task.value, outcomes)
    requires forall other :: other != id ==> (other in outcomes <==> other in s.outcomes)
    requires forall other :: other != id && other in outcomes ==> outcomes[other] == s.outcomes[other]
    ensures Inv(next)
  {
    forall other | other in next.disk
      ensures Honest(other, next.disk[other], next.outcomes)
    {
      assert other != id ==> Honest(other, s.disk[other], s.outcomes);
    }
    forall other | other in next.tasks
      ensures other in next.disk && TaskFits(other, next.disk[other], next.tasks[other], next.outcomes)
    {
      assert other != id ==> TaskFits(other, s.disk[other], s.tasks[other], s.outcomes);
    }
  }

  lemma ReadKeeps(s: State, id: Id, u: Update, next: State)
    requires Inv(s) && ReadStep(s, id, u) == Some(next)
    ensures Inv(next) && Grows(s, next)
  {
    ReadFits(s, id, u);
    hide AfterRead, TaskFits, Honest, Amended;
    assert s.disk[id := s.disk[id]] == s.disk;
    ReplaceKeeps(s, id, s.disk[id], AfterRead(s.tasks[id], s.disk[id], u), s.outcomes, next);
  }

  lemma WriteKeeps(s: State, id: Id, ok: bool, next: State)
    requires Inv(s) && WriteStep(s, id, ok) == Some(next)
    ensures Inv(next) && Grows(s, next)
  {
    var (record, onward) := PendingWrite(s.tasks[id]).value;
    assert TaskFits(id, s.disk[id], s.tasks[id], s.outcomes);
    assert record.id == id;
    if ok {
      ReplaceKeeps(s, id, record, onward, s.outcomes, next);
    } else {
      assert s.disk[id := s.disk[id]] == s.disk;
      ReplaceKeeps(s, id, s.disk[id], if s.tasks[id].Reporting? then Some(Working) else None, s.outcomes, next);
    }
  }

  lemma CreateKeeps(s: State, id: Id, record: Record, task: Task, next: State)
    requires Inv(s) && s.phase == Up && id !in s.disk
    requires record.id == id && TaskFits(id, record, task, s.outcomes) && record.Active()
    requires next == s.(disk := s.disk[id := record], tasks := s.tasks[id := task])
    ensures Inv(next) && Grows(s, next)
  {
    ReplaceKeeps(s, id, record, Some(task), s.outcomes, next);
  }

  lemma ReturnKeeps(s: State, id: Id, ok: bool, next: State)
    requires Inv(s) && ReturnStep(s, id, ok) == Some(next)
    ensures Inv(next) && Grows(s, next)
  {
    assert TaskFits(id, s.disk[id], s.tasks[id], s.outcomes);
    assert s.disk[id := s.disk[id]] == s.disk;
    ReplaceKeeps(s, id, s.disk[id], Some(Returned(ok)), s.outcomes[id := ok], next);
  }

  lemma ReviewWriteKeeps(s: State, id: Id, record: Record, next: State)
    requires Inv(s) && s.phase.Recovering? && id in s.disk && s.disk[id].Active()
    requires record.id == id && record.status == NeedsReview
    requires next == s.(disk := s.disk[id := record], phase := Recovering(s.phase.todo - {id}))
    ensures Inv(next) && Grows(s, next)
  {
    hide TaskFits;
  }

  lemma FiledUnderId(s: State, id: Id)
    requires Inv(s) && id in s.disk
    ensures s.disk[id].id == id
  {
    hide TaskFits;
    assert Honest(id, s.disk[id], s.outcomes);
  }

  /** Skipping a finished record, or stopping, changes only the phase. */
  lemma PhaseKeeps(s: State, next: State, id: Id)
    requires Inv(s) && s.phase.Recovering? && id in s.disk
    requires next == s.(phase := Down) || (!s.disk[id].Active() && next == s.(phase := Recovering(s.phase.todo - {id})))
    ensures Inv(next) && Grows(s, next)
  {
    hide TaskFits, Honest;
  }

  lemma RecoverKeeps(s: State, id: Id, ok: bool, now: Time, next: State)
    requires Inv(s) && RecoverStep(s, id, ok, now) == Some(next)
    ensures Inv(next) && Grows(s, next)
  {
    hide Reviewed, Inv;
    if s.disk[id].Active() && ok {
      ReviewEffect(s.disk[id], now);
      FiledUnderId(s, id);
      ReviewWriteKeeps(s, id, Reviewed(s.disk[id], now), next);
    } else {
      PhaseKeeps(s, next, id);
    }
  }

  lemma StepKeeps(s: State, step: Step, next: State)
    requires Inv(s) && After(s, step) == Some(next)
    ensures Inv(next) && Grows(s, next)
  {
    hide ReadStep, WriteStep, ReturnStep, RecoverStep, Amended, Interrupted;
    match step
    case Begin(id, kind, resourceType, resourceId, actor, now) =>
      CreateKeeps(s, id, NewRecord(id, kind, Running, resourceType, resourceId, actor, now), Working, next);
    case Enqueue(id, kind, resourceType, resourceId, actor, now) =>
      CreateKeeps(s, id, NewRecord(id, kind, Queued, resourceType, resourceId, actor, now), Spawned, next);
    case Read(id, u) => ReadKeeps(s, id, u, next);
    case Write(id, ok) => WriteKeeps(s, id, ok, next);
    case Return(id, ok) => ReturnKeeps(s, id, ok, next);
    case Recover(id, ok, now) => RecoverKeeps(s, id, ok, now, next);
    case _ => { hide TaskFits, Honest; }
  }

  // ----- whole runs -----

  lemma {:induction false} RunKeeps(s: State, steps: seq<Step>)
    requires Inv(s) && Run(s, steps).Some?
    ensures Inv(Run(s, steps).value) && Grows(s, Run(s, steps).value)
    decreases |steps|
  {
    hide Inv, After;
    if steps == [] {
    } else {
      var next := After(s, steps[0]).value;
      StepKeeps(s, steps[0], next);
      RunKeeps(next, steps[1..]);
      GrowsFurther(s, next, Run(s, steps).value);
    }
  }

  lemma InitialHolds()
    ensures Inv(INITIAL)
  {
  }

  /** A record that reached an outcome is never changed again, in any continuation of any run. */
  lemma OutcomesAreFinal(before: seq<Step>, after: seq<Step>, id: Id)
    requires Run(INITIAL, before).Some? && Run(Run(INITIAL, before).value, after).Some?
    requires var s := Run(INITIAL, before).value; id in s.disk && s.disk[id].Terminal()
    ensures var s, t := Run(INITIAL, before).value, Run(Run(INITIAL, before).value, after).value;
            id in t.disk && t.disk[id] == s.disk[id]
  {
    hide After, Inv, Run;
    InitialHolds();
    RunKeeps(INITIAL, before);
    RunKeeps(Run(INITIAL, before).value, after);
  }

  lemma OutcomeTold(s: State, step: Step, id: Id)
    requires After(s, step).Some?
    requires id in After(s, step).value.outcomes
    ensures var ok := After(s, step).value.outcomes[id];
            (id in s.outcomes && s.outcomes[id] == ok) || step == Return(id, ok)
  {
    hide AfterRead, PendingWrite, Reviewed, NewRecord;
  }

  /** What is remembered of an operation's end was told by the operation itself. */
  lemma {:induction false} OutcomesAreTold(s: State, steps: seq<Step>, id: Id)
    requires Run(s, steps).Some?
    requires id in Run(s, steps).value.outcomes
    ensures (id in s.outcomes && s.outcomes[id] == Run(s, steps).value.outcomes[id])
         || Return(id, Run(s, steps).value.outcomes[id]) in steps
    decreases |steps|
  {
    hide After;
    if steps != [] {
      var next := After(s, steps[0]).value;
      OutcomesAreTold(next, steps[1..], id);
      if id in next.outcomes {
        OutcomeTold(s, steps[0], id);
      }
      assert steps == [steps[0]] + steps[1..];
    }
  }

  /** A record says Succeeded only if its own operation returned Ok, and Failed only if it returned an error. */
  lemma NothingIsInvented(steps: seq<Step>, id: Id)
    requires Run(INITIAL, steps).Some? && id in Run(INITIAL, steps).value.disk
    ensures var status := Run(INITIAL, steps).value.disk[id].status;
            && (status == Succeeded ==> Return(id, true) in steps)
            && (status == Failed ==> Return(id, false) in steps)
  {
    hide After, Run;
    InitialHolds();
    RunKeeps(INITIAL, steps);
    var s := Run(INITIAL, steps).value;
    if id in s.outcomes {
      OutcomesAreTold(INITIAL, steps, id);
    }
  }

  lemma RecoveredAll(s: State)
    requires Inv(s) && s.phase == Recovering({})
    ensures ActiveIds(s.disk) == {}
  {
    hide TaskFits, Honest;
  }

  /** When a start has finished recovering and begins to serve, no record is left active. */
  lemma RecoveryLeavesNoneActive(steps: seq<Step>)
    requires Run(INITIAL, steps).Some? && After(Run(INITIAL, steps).value, Serve).Some?
    ensures ActiveIds(After(Run(INITIAL, steps).value, Serve).value.disk) == {}
  {
    hide Run, Inv, RecoverStep, ReadStep, WriteStep, ReturnStep, Create, NewRecord;
    InitialHolds();
    RunKeeps(INITIAL, steps);
    RecoveredAll(Run(INITIAL, steps).value);
  }

  /** Restarting, even repeatedly and with failing writes, changes nothing when no record is active. */
  lemma {:induction false} SecondRecoveryIsIdle(s: State, steps: seq<Step>)
    requires Run(s, steps).Some? && ActiveIds(s.disk) == {}
    requires s.tasks == map[]
    requires forall step :: step in steps ==> step.Crash? || step.Boot? || step.Recover? || step.Serve?
    ensures Run(s, steps).value.disk == s.disk
    decreases |steps|
  {
    hide Reviewed, ReadStep, WriteStep, ReturnStep, Create, NewRecord;
    if steps != [] {
      var next := After(s, steps[0]).value;
      assert steps[0] in steps;
      if steps[0].Recover? {
        assert steps[0].id !in ActiveIds(s.disk);
      }
      assert next.disk == s.disk;
      SecondRecoveryIsIdle(next, steps[1..]);
    }
  }

  /** A record needs review only if some recovery found it active. */
  lemma {:induction false} ReviewsComeFromRecovery(s: State, steps: seq<Step>, id: Id)
    requires Inv(s) && Run(s, steps).Some?
    requires id in Run(s, steps).value.disk && Run(s, steps).value.disk[id].status == NeedsReview
    ensures (id in s.disk && s.disk[id].status == NeedsReview) || exists now :: Recover(id, true, now) in steps
    decreases |steps|
  {
    hide After, Inv;
    if steps != [] {
      var next := After(s, steps[0]).value;
      StepKeeps(s, steps[0], next);
      ReviewsComeFromRecovery(next, steps[1..], id);
      assert steps == [steps[0]] + steps[1..];
      if id in next.disk && next.disk[id].status == NeedsReview && !(id in s.disk && s.disk[id].status == NeedsReview) {
        OnlyRecoveryReviews(s, steps[0], next, id);
        assert Recover(id, true, steps[0].now) in steps;
      }
    }
  }

  lemma OnlyRecoveryReviews(s: State, step: Step, next: State, id: Id)
    requires Inv(s) && After(s, step) == Some(next)
    requires id in next.disk && next.disk[id].status == NeedsReview
    requires !(id in s.disk && s.disk[id].status == NeedsReview)
    ensures step.Recover? && step == Recover(id, true, step.now)
  {
    hide Amended, Interrupted;
  }
}

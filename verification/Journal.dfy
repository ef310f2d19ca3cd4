/** The durable operation journal: one record per operation, written before and after the work it describes. */
module Journal {
  import opened Wrappers
  import opened Text
  import opened Store
  import opened Collections

  datatype Status = Queued | Running | Succeeded | Failed | Cancelled | NeedsReview

  datatype Mode = DryRun | Repair

  datatype FindingKind = MissingFromHost | UnmanagedHost

  datatype Finding = Finding(resourceType: string, resourceId: string, hostId: Option<string>, kind: FindingKind,
                             message: string, repairable: bool, destructive: bool)

  datatype Record = Record(
    id: Id,
    kind: string,
    status: Status,
    actor: Option<string>,
    mode: Option<Mode>,
    progress: Option<nat>,
    resourceType: Option<string>,
    resourceId: Option<string>,
    resultId: Option<string>,
    drift: Option<string>,
    findings: Option<seq<Finding>>,
    createdAt: Time,
    startedAt: Option<Time>,
    finishedAt: Option<Time>,
    message: Option<string>,
    error: Option<AppError>
  ) {
    predicate Active() {
      status == Queued || status == Running
    }

    predicate Terminal() {
      !Active()
    }
  }

  function NewRecord(id: Id, kind: string, status: Status, resourceType: Option<string>, resourceId: Option<string>,
                     actor: Option<string>, now: Time): Record
  {
    Record(id, kind, status, actor, None, None, resourceType, resourceId, None, None, None, now,
           if status == Running then Some(now) else None, None, None, None)
  }

  // ----- how one call changes one record -----

  datatype Update = Start(now: Time)
                  | Progress(percent: nat, message: Option<string>)
                  | SetMode(mode: Mode)
                  | SetFindings(findings: seq<Finding>)
                  | SetResult(resultId: string)
                  | Finish(status: Status, resourceType: Option<string>, resourceId: Option<string>,
                           message: Option<string>, error: Option<AppError>, now: Time)

  function Messages(findings: seq<Finding>): string {
    if findings == [] then ""
    else if |findings| == 1 then findings[0].message
    else findings[0].message + "; " + Messages(findings[1..])
  }

  /** The messages in order, "; " between them. */
  lemma {:induction false} MessagesJoined(a: seq<Finding>, b: seq<Finding>)
    requires a != [] && b != []
    ensures Messages(a + b) == Messages(a) + "; " + Messages(b)
    ensures |a| == 1 ==> Messages(a) == a[0].message
  {
    if |a| == 1 {
      assert (a + b)[1..] == b;
    } else {
      MessagesJoined(a[1..], b);
      assert (a + b)[1..] == a[1..] + b && (a + b)[0] == a[0];
      Assoc(a[0].message + "; ", Messages(a[1..]) + "; ", Messages(b));
      Assoc(a[0].message + "; ", Messages(a[1..]), "; ");
    }
  }

  function Or<T>(a: Option<T>, b: Option<T>): Option<T> {
    if a.Some? then a else b
  }

  /** The record a call writes back, or None when it leaves the record alone. */
  function Amended(r: Record, u: Update): Option<Record> {
    match u
    case Start(now) =>
      if r.status != Queued then None else Some(r.(status := Running, startedAt := Some(now), progress := Some(0)))
    case Progress(percent, message) =>
      if r.Terminal() then None
      else Some(r.(progress := Some(if percent < 100 then percent else 100), message := Or(message, r.message)))
    case SetMode(mode) => Some(r.(mode := Some(mode)))
    case SetFindings(findings) =>
      Some(r.(findings := Some(findings), drift := if findings == [] then None else Some(Messages(findings))))
    case SetResult(resultId) => Some(r.(resultId := Some(resultId)))
    case Finish(status, resourceType, resourceId, message, error, now) =>
      Some(r.(status := status, resourceType := Or(resourceType, r.resourceType), resourceId := Or(resourceId, r.resourceId),
              finishedAt := Some(now), progress := if status == Succeeded then Some(100) else r.progress,
              message := Or(message, r.message), error := error))
  }

  function Interrupted(): string {
    "backend stopped before the operation outcome was recorded; inspect host state"
  }

  function Reviewed(r: Record, now: Time): Record {
    if r.Active() then r.(status := NeedsReview, finishedAt := Some(now), message := Some(Interrupted())) else r
  }

  function ActiveIds(records: map<Id, Record>): set<Id> {
    set id | id in records && records[id].Active()
  }

  /** `after` is `before` with the records of `done` put up for review, each at some time. */
  ghost predicate ReviewedOn(before: map<Id, Record>, after: map<Id, Record>, done: set<Id>) {
    && after.Keys == before.Keys
    && forall id :: id in before ==>
         if id in done then exists now :: after[id] == Reviewed(before[id], now) else after[id] == before[id]
  }

  lemma ReviewOne(before: map<Id, Record>, records: map<Id, Record>, done: set<Id>, id: Id, now: Time)
    requires ReviewedOn(before, records, done)
    requires id in before && id !in done
    ensures ReviewedOn(before, records[id := Reviewed(before[id], now)], done + {id})
    ensures !before[id].Active() ==> records[id := Reviewed(before[id], now)] == records
    ensures records.Keys == before.Keys && records[id] == before[id]
  {
    hide Reviewed, Interrupted;
    var after := records[id := Reviewed(before[id], now)];
    forall other | other in before && other in done + {id}
      ensures exists t :: after[other] == Reviewed(before[other], t)
    {
      if other == id {
        assert after[other] == Reviewed(before[other], now);
      }
    }
    assert !before[id].Active() ==> Reviewed(before[id], now) == before[id] by {
      ReviewEffect(before[id], now);
    }
  }

  lemma CountOne(before: map<Id, Record>, done: set<Id>, id: Id)
    requires id in before && id !in done
    ensures |ActiveIds(before) * (done + {id})| == |ActiveIds(before) * done| + if before[id].Active() then 1 else 0
  {
    assert ActiveIds(before) * (done + {id}) == ActiveIds(before) * done + if before[id].Active() then {id} else {};
  }

  /** A review ends an active record and leaves any other alone. */
  lemma ReviewEffect(r: Record, now: Time)
    ensures var next := Reviewed(r, now);
            && next.id == r.id && next.kind == r.kind && next.mode == r.mode && next.findings == r.findings
            && next.status == (if r.Active() then NeedsReview else r.status) && (!r.Active() ==> next == r)
  {
    hide Interrupted;
  }

  lemma NoneReviewed(records: map<Id, Record>)
    ensures ReviewedOn(records, records, {})
    ensures Recovering(records, records, {}, 0)
  {
  }

  lemma AllReviewed(before: map<Id, Record>, after: map<Id, Record>, done: set<Id>)
    requires ReviewedOn(before, after, done)
    requires done <= before.Keys && before.Keys - done == {}
    ensures ReviewedOn(before, after, after.Keys)
    ensures ActiveIds(after) == {}
    ensures |ActiveIds(before) * done| == |ActiveIds(before)|
  {
    hide Reviewed;
    assert forall id :: id in before.Keys && id !in done ==> id in before.Keys - done;
    assert done == before.Keys;
    assert ActiveIds(before) * done == ActiveIds(before);
    forall id | id in after
      ensures !after[id].Active()
    {
      var now :| after[id] == Reviewed(before[id], now);
      ReviewEffect(before[id], now);
    }
  }

  /** Recovery has put up the active records among `done`, `count` of them. */
  ghost predicate Recovering(before: map<Id, Record>, records: map<Id, Record>, done: set<Id>, count: nat) {
    ReviewedOn(before, records, done) && count == |ActiveIds(before) * done|
  }

  lemma RecoverOne(before: map<Id, Record>, records: map<Id, Record>, done: set<Id>, count: nat, id: Id, now: Time)
    requires Recovering(before, records, done, count)
    requires id in before && id !in done
    ensures records.Keys == before.Keys && records[id] == before[id] && ReviewedOn(before, records, done)
    ensures if before[id].Active() then Recovering(before, records[id := Reviewed(before[id], now)], done + {id}, count + 1)
            else Recovering(before, records, done + {id}, count)
  {
    hide ReviewedOn, Reviewed, ActiveIds, Record.Active;
    ReviewOne(before, records, done, id, now);
    CountOne(before, done, id);
  }

  lemma AllRecovered(before: map<Id, Record>, after: map<Id, Record>, done: set<Id>, count: nat)
    requires Recovering(before, after, done, count)
    requires done <= before.Keys && before.Keys - done == {}
    ensures ReviewedOn(before, after, after.Keys) && ActiveIds(after) == {} && count == |ActiveIds(before)|
  {
    hide ReviewedOn, ActiveIds;
    AllReviewed(before, after, done);
  }

  // ----- the service -----

  class OperationService {
    const store: JsonStore<Record>

    /** Records are filed under their own id. */
    ghost predicate Valid()
      reads this, store
    {
      forall id :: id in store.records ==> store.records[id].id == id
    }

    constructor (store: JsonStore<Record>)
      ensures this.store == store
    {
      this.store := store;
    }

    method PutForReview(record: Record, now: Time) returns (ok: bool)
      requires Valid() && record.Active()
      modifies store
      ensures Valid()
      ensures store.records == if ok then old(store.records)[record.id := Reviewed(record, now)] else old(store.records)
    {
      hide Interrupted;
      var reviewed := record.(status := NeedsReview, finishedAt := Some(now), message := Some(Interrupted()));
      ok := store.Put(record.id, reviewed);
    }

    /** Every operation still active at the last shutdown becomes one that needs review. A failed write stops startup. */
    method RecoverInterrupted(now: Time) returns (r: Result<nat, AppError>)
      requires Valid()
      modifies store
      ensures Valid()
      ensures r.Ok? ==> r.value == |ActiveIds(old(store.records))| && ActiveIds(store.records) == {}
      ensures r.Ok? ==> ReviewedOn(old(store.records), store.records, store.records.Keys)
      ensures r.Err? ==> exists done :: ReviewedOn(old(store.records), store.records, done)
    {
      hide Interrupted, ReviewedOn, Reviewed, ActiveIds, Recovering;
      ghost var before := store.records;
      var records := store.records;
      var todo := records.Keys;
      var interrupted := 0;
      ghost var done: set<Id> := {};
      NoneReviewed(before);
      while todo != {}
        invariant Valid()
        invariant todo == before.Keys - done && done <= before.Keys
        invariant Recovering(before, store.records, done, interrupted)
        decreases todo
      {
        var id :| id in todo;
        var record := records[id];
        todo := todo - {id};
        RecoverOne(before, store.records, done, interrupted, id, now);
        if record.Active() {
          var ok := PutForReview(record, now);
          if !ok {
            return Err(Internal);
          }
          interrupted := interrupted + 1;
        }
        done := done + {id};
      }
      AllRecovered(before, store.records, done, interrupted);
      return Ok(interrupted);
    }

    method CreateRecord(id: Id, kind: string, status: Status, resourceType: Option<string>, resourceId: Option<string>,
                        actor: Option<string>, now: Time)
      returns (r: Result<Record, AppError>)
      requires Valid() && id !in store.records
      modifies store
      ensures Valid()
      ensures Trim(kind) == "" ==> r == Err(Validation)
      ensures r.Ok? ==> r.value == NewRecord(id, kind, status, resourceType, resourceId, actor, now)
      ensures r.Ok? ==> r.value.status == status
      ensures store.records == if r.Ok? then old(store.records)[id := r.value] else old(store.records)
    {
      if Trim(kind) == "" {
        return Err(Validation);
      }
      var startedAt := if status == Running then Some(now) else None;
      var record := Record(id, kind, status, actor, None, None, resourceType, resourceId, None, None, None, now, startedAt,
                           None, None, None);
      var ok := store.Put(id, record);
      return if ok then Ok(record) else Err(Internal);
    }

    method MarkRunning(id: Id, now: Time) returns (r: Result<(), AppError>)
      requires Valid()
      modifies store
      ensures Valid() && Changed(old(store.records), store.records, id, Start(now), r)
    {
      if id !in store.records {
        return Err(NotFound);
      }
      var record := store.records[id];
      if record.status != Queued {
        return Ok(());
      }
      var ok := store.Put(record.id, record.(status := Running, startedAt := Some(now), progress := Some(0)));
      return if ok then Ok(()) else Err(Internal);
    }

    method UpdateProgress(id: Id, percent: nat, message: Option<string>) returns (r: Result<(), AppError>)
      requires Valid()
      modifies store
      ensures Valid() && Changed(old(store.records), store.records, id, Progress(percent, message), r)
    {
      if id !in store.records {
        return Err(NotFound);
      }
      var record := store.records[id];
      if record.status == Succeeded || record.status == Failed || record.status == Cancelled || record.status == NeedsReview {
        return Ok(());
      }
      record := record.(progress := Some(if percent < 100 then percent else 100));
      if message.Some? {
        record := record.(message := message);
      }
      var ok := store.Put(record.id, record);
      return if ok then Ok(()) else Err(Internal);
    }

    method SetReconciliationMode(id: Id, mode: Mode) returns (r: Result<(), AppError>)
      requires Valid()
      modifies store
      ensures Valid() && Changed(old(store.records), store.records, id, SetMode(mode), r)
    {
      if id !in store.records {
        return Err(NotFound);
      }
      var record := store.records[id].(mode := Some(mode));
      var ok := store.Put(record.id, record);
      return if ok then Ok(()) else Err(Internal);
    }

    method SetReconciliationFindings(id: Id, findings: seq<Finding>) returns (r: Result<(), AppError>)
      requires Valid()
      modifies store
      ensures Valid() && Changed(old(store.records), store.records, id, SetFindings(findings), r)
    {
      if id !in store.records {
        return Err(NotFound);
      }
      var record := store.records[id];
      record := record.(findings := Some(findings), drift := if findings == [] then None else Some(Messages(findings)));
      var ok := store.Put(record.id, record);
      return if ok then Ok(()) else Err(Internal);
    }

    method SetResultId(id: Id, resultId: string) returns (r: Result<(), AppError>)
      requires Valid()
      modifies store
      ensures Valid() && Changed(old(store.records), store.records, id, SetResult(resultId), r)
    {
      if id !in store.records {
        return Err(NotFound);
      }
      var record := store.records[id].(resultId := Some(resultId));
      var ok := store.Put(record.id, record);
      return if ok then Ok(()) else Err(Internal);
    }

    method FinishRecord(id: Id, status: Status, resourceType: Option<string>, resourceId: Option<string>,
                        message: Option<string>, error: Option<AppError>, now: Time)
      returns (r: Result<(), AppError>)
      requires Valid()
      modifies store
      ensures Valid()
      ensures Changed(old(store.records), store.records, id, Finish(status, resourceType, resourceId, message, error, now), r)
    {
      if id !in store.records {
        return Err(NotFound);
      }
      var record := store.records[id].(status := status);
      if resourceType.Some? {
        record := record.(resourceType := resourceType);
      }
      if resourceId.Some? {
        record := record.(resourceId := resourceId);
      }
      record := record.(finishedAt := Some(now),
                        progress := if status == Succeeded then Some(100) else record.progress,
                        message := if message.Some? then message else record.message,
                        error := error);
      var ok := store.Put(record.id, record);
      return if ok then Ok(()) else Err(Internal);
    }

    /** A synchronous operation between two journal writes: the caller gets the operation's own result, and a journal
        that could not be finalized leaves the record running rather than telling a wrong story. */
    method Run<T>(id: Id, kind: string, resourceType: Option<string>, resourceId: Option<string>, actor: Option<string>,
                  operation: Result<T, AppError>, begun: Time, ended: Time)
      returns (r: Result<T, AppError>)
      requires Valid() && id !in store.records
      modifies store
      ensures Valid()
      ensures id !in store.records ==> r.Err? && store.records == old(store.records)
      ensures id in store.records ==>
                && r == operation
                && store.records == old(store.records)[id := store.records[id]]
                && Ran(store.records[id], id, kind, resourceType, resourceId, actor, operation, begun, ended)
    {
      hide Trim;
      var begin := CreateRecord(id, kind, Running, resourceType, resourceId, actor, begun);
      if begin.Err? {
        return Err(begin.error);
      }
      match operation {
        case Ok(_) =>
          var _ := FinishRecord(id, Succeeded, resourceType, resourceId, None, None, ended);
        case Err(error) =>
          var _ := FinishRecord(id, Failed, None, None, None, Some(error), ended);
      }
      return operation;
    }

    /** The background half of an enqueued operation; without a running mark the operation is never started. */
    method Work(id: Id, resourceType: Option<string>, resourceId: Option<string>,
                operation: Result<Option<string>, AppError>, begun: Time, ended: Time)
      returns (started: bool)
      requires Valid() && id in store.records && store.records[id].status == Queued
      modifies store
      ensures Valid() && store.records.Keys == old(store.records).Keys
      ensures !started ==> store.records == old(store.records)
      ensures started ==>
                && store.records == old(store.records)[id := store.records[id]]
                && Worked(old(store.records[id]), store.records[id], resourceType, resourceId, operation, begun, ended)
    {
      var marked := MarkRunning(id, begun);
      if marked.Err? {
        return false;
      }
      match operation {
        case Ok(message) =>
          var _ := FinishRecord(id, Succeeded, resourceType, resourceId, message, None, ended);
        case Err(error) =>
          var _ := FinishRecord(id, Failed, None, None, None, Some(error), ended);
      }
      return true;
    }
  }

  /** The record `Run` leaves: still running, or finished with the operation's own outcome. */
  ghost predicate Ran<T>(r: Record, id: Id, kind: string, resourceType: Option<string>, resourceId: Option<string>,
                         actor: Option<string>, operation: Result<T, AppError>, begun: Time, ended: Time)
  {
    && r.id == id && r.kind == kind && r.actor == actor && r.resourceType == resourceType && r.resourceId == resourceId
    && r.createdAt == begun && r.startedAt == Some(begun)
    && r.mode == None && r.resultId == None && r.drift == None && r.findings == None && r.message == None
    && if r.status == Running then r.finishedAt == None && r.progress == None && r.error == None
       else
         && r.finishedAt == Some(ended)
         && if operation.Ok? then r.status == Succeeded && r.progress == Some(100) && r.error == None
            else r.status == Failed && r.progress == None && r.error == Some(operation.error)
  }

  /** The record `Work` leaves of the queued record `was`: still running, or finished with the operation's own outcome. */
  ghost predicate Worked(was: Record, r: Record, resourceType: Option<string>, resourceId: Option<string>,
                         operation: Result<Option<string>, AppError>, begun: Time, ended: Time)
  {
    && r.id == was.id && r.kind == was.kind && r.actor == was.actor && r.mode == was.mode && r.resultId == was.resultId
    && r.drift == was.drift && r.findings == was.findings && r.createdAt == was.createdAt && r.startedAt == Some(begun)
    && (r.status != Succeeded ==>
          r.message == was.message && r.resourceType == was.resourceType && r.resourceId == was.resourceId)
    && if r.status == Running then r.finishedAt == was.finishedAt && r.progress == Some(0) && r.error == was.error
       else
         && r.finishedAt == Some(ended)
         && match operation
            case Ok(message) =>
              && r.status == Succeeded && r.progress == Some(100) && r.error == None
              && r.message == (if message.Some? then message else was.message)
              && r.resourceType == (if resourceType.Some? then resourceType else was.resourceType)
              && r.resourceId == (if resourceId.Some? then resourceId else was.resourceId)
            case Err(error) => r.status == Failed && r.progress == Some(0) && r.error == Some(error)
  }

  /** One call read the record of `id`, amended it and wrote it back, or failed and changed nothing. */
  ghost predicate Changed(before: map<Id, Record>, after: map<Id, Record>, id: Id, u: Update, r: Result<(), AppError>) {
    if id !in before then r == Err(NotFound) && after == before
    else if r.Err? || Amended(before[id], u).None? then after == before
    else after == before[id := Amended(before[id], u).value]
  }
}

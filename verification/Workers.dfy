/** The routines of internal/worker/worker.go, run against the shared stores with arbitrary
    interference of every other program between two commands. Each one is a run of the
    protocol: it keeps Inv, and ends in a state the protocol reaches from where it began. If the
    backend is quiet, it also says what it leaves in the stores. */
module Workers {
  import opened Types
  import opened Stores
  import opened Protocol
  import opened Safety
  import opened Backends
  import opened Reaper
  import opened Iterations
  import opened Recovery
  import Backoff

  /** The outcome of a command by its success. */
  function Came(ok: bool): Outcome {
    if ok then Ok else Err("")
  }

  /** What an executor may rely on between its commands. */
  lemma ExecutorKnows(b: Backend, a: ActorId, token: JobToken, job: Row, start: Sys)
    requires b.At(a, Executing(token, job), start)
    ensures token.id in b.tasks && SameFields(b.tasks[token.id], job)
    ensures job.attempts == b.tasks[token.id].attempts && 1 <= job.attempts <= job.maxAttempts
  {
    assert ActorOk(b.Db(), b.actors[a]);
    assert RowsOk(b.Db());
    AttemptsInRange(b.Db(), token.id);
  }

  lemma AttemptsInRange(st: Store, id: JobId)
    requires RowsOk(st) && id in st.tasks
    ensures 0 <= st.tasks[id].attempts <= st.tasks[id].maxAttempts
  {
  }

  lemma AttemptsCounted(st: Store)
    requires RowsOk(st)
    ensures forall id :: id in st.tasks ==> st.tasks[id].attempts >= 0
  {
    forall id | id in st.tasks ensures st.tasks[id].attempts >= 0 {
      AttemptsInRange(st, id);
    }
  }

  function Last(items: seq<Item>): Item
    requires items != []
  {
    items[|items| - 1]
  }

  /** Of the first k priorities, the one whose pending list is taken from: the most urgent one
      with a token, or k if there is none. */
  predicate IsFirstWaiting(st: Store, i: nat, k: nat)
    requires i <= k <= |PRIORITIES|
  {
    (forall j :: 0 <= j < i ==> st.List(Pending(PRIORITIES[j])) == [])
    && (i < k ==> st.List(Pending(PRIORITIES[i])) != [])
  }

  /** One iteration: the token leaves the right end of that list and is handled. */
  ghost predicate Served(st: Store, first: nat, outcome: Option<string>, st': Store)
    requires first <= |PRIORITIES|
    requires first < |PRIORITIES| ==> st.List(Pending(PRIORITIES[first])) != []
  {
    if first == |PRIORITIES| then st' == st
    else
      var q := Pending(PRIORITIES[first]);
      var item, popped := Last(st.List(q)), Do(st, Command.MoveTail(q, Processing));
      (item.Token? && popped.HasStatus(item.id, Queued) ==> popped.tasks[item.id].attempts >= 0)
      && st' == Handled(popped, item, q, outcome)
  }

  /** The iteration for the rightmost token of one pending list, which moves to the left end of the
      processing list and is handled. */
  ghost predicate HandledFrom(st: Store, p: Priority, outcome: Option<string>, st': Store) {
    var q := Pending(p);
    var items := st.List(q);
    items != []
    && var item := items[|items| - 1];
       var popped := st.(lists := st.lists[q := items[..|items| - 1]][Processing := [item] + st.List(Processing)]);
       (item.Token? && popped.HasStatus(item.id, Queued) ==> popped.tasks[item.id].attempts >= 0)
       && st' == Handled(popped, item, q, outcome)
  }

  lemma ServedMeans(st: Store, first: nat, outcome: Option<string>, st': Store)
    requires first <= |PRIORITIES| && IsFirstWaiting(st, first, |PRIORITIES|)
    requires Served(st, first, outcome, st')
    ensures first < |PRIORITIES| ==>
      HandledFrom(st, PRIORITIES[first], outcome, st')
  {
    if first < |PRIORITIES| {
      var q := Pending(PRIORITIES[first]);
      assert Do(st, Command.MoveTail(q, Processing)) ==
        st.(lists := st.lists[q := st.List(q)[..|st.List(q)| - 1]]
                             [Processing := [Last(st.List(q))] + st.List(Processing)]);
    }
  }

  /** The order of urgency, spelled out. */
  lemma UrgencyLaw(st: Store, first: nat, outcome: Option<string>, st': Store)
    requires first <= |PRIORITIES| && IsFirstWaiting(st, first, |PRIORITIES|)
    requires Served(st, first, outcome, st')
    ensures first < |PRIORITIES| <==>
      st.List(Pending(Critical)) != [] || st.List(Pending(High)) != []
      || st.List(Pending(Default)) != [] || st.List(Pending(Low)) != []
    ensures
      if st.List(Pending(Critical)) != [] then HandledFrom(st, Critical, outcome, st')
      else if st.List(Pending(High)) != [] then HandledFrom(st, High, outcome, st')
      else if st.List(Pending(Default)) != [] then HandledFrom(st, Default, outcome, st')
      else if st.List(Pending(Low)) != [] then HandledFrom(st, Low, outcome, st')
      else st' == st
  {
    hide HandledFrom;
    ServedMeans(st, first, outcome, st');
    assert PRIORITIES[0] == Critical && PRIORITIES[1] == High && PRIORITIES[2] == Default && PRIORITIES[3] == Low;
  }

  lemma PassUnfolds(st: Store, items: seq<Item>)
    requires items != []
    ensures var st1 := PassItem(st, items[0], Ok);
      && Pass(st, items, Oks(|items|)) == Pass(st1, items[1..], Oks(|items[1..]|))
      && RecoveredCount(st, items, Oks(|items|))
           == (if Recoverable(st, items[0], Ok) then 1 else 0) + RecoveredCount(st1, items[1..], Oks(|items[1..]|))
  {
    assert Oks(|items|)[1..] == Oks(|items[1..]|);
  }

  predicate TasksAre(st: Store, st': Store) {
    st'.tasks == st.tasks && st'.now == st.now
  }

  lemma RequeueMeans(st: Store, row: RetryRow)
    requires row.attempts < row.maxAttempts
    ensures if st.HasStatus(row.id, Retry)
            then PumpedRow(st, row) == Pushed(Do(st, RequeueTask(row.id)), row)
                 && (CountsAsRequeued(st, row) <==> Routable(row.priority))
            else PumpedRow(st, row) == Do(st, RequeueTask(row.id)) && CountsAsRequeued(st, row)
    ensures TasksAre(PumpedRow(st, row), Do(st, RequeueTask(row.id)))
  {
  }

  /** A command that got through, or failed and changed nothing. */
  predicate Maybe(st: Store, cmd: Command, st': Store) {
    st' == st || st' == Do(st, cmd)
  }

  /** A claimed job that could not be read: it is marked failed and its token removed, as far as
      these two get through. */
  ghost predicate GivenUp(st: Store, token: JobToken, st': Store) {
    exists marked :: Maybe(st, MarkTask(token.id, Failed, None), marked)
                     && Maybe(marked, Remove(Processing, token), st')
  }

  class Worker {
    const backend: Backend

    constructor (backend: Backend)
      ensures this.backend == backend
    {
      this.backend := backend;
    }

    /** ctx.Err() != nil: shutdown may have been signalled at any time. */
    method CheckShutdown() returns (stop: bool)
      ensures backend.alone ==> !stop
    {
      stop := *;
      stop := stop && !backend.alone;
    }

    /** executeHandler: any error, or none. */
    method ExecuteHandler(job: Row) returns (error: Option<string>)
    {
      var fails := *;
      if !fails {
        return None;
      }
      var message: string := *;
      error := Some(message);
    }

    /** One command without an answer: LREM of the item on the processing list. */
    method DropItem(item: Item, ghost a: ActorId, ghost start: Sys)
      requires backend.At(a, Drop(item), start)
      modifies backend
      ensures backend.Away(a, start)
      ensures backend.alone ==> Maybe(old(backend.Db()), Remove(Processing, item), backend.Db())
      ensures backend.alone && backend.redisUp ==> backend.Db() == Do(old(backend.Db()), Remove(Processing, item))
    {
      hide Inv, Reaches;
      ghost var before := backend.State();
      var ok := backend.LRem(Processing, item);
      backend.Proceed(a, Came(ok), before, start);
    }

    /** The InsertAttempt of claimJob; its failure is only logged. */
    method RecordAttempt(token: JobToken, ghost a: ActorId, ghost start: Sys)
      requires backend.At(a, Claimed(token), start)
      modifies backend
      ensures backend.At(a, Loading(token), start)
      ensures backend.alone ==> backend.tasks == old(backend.tasks)
      ensures backend.Quiet() ==> backend.Db() == Do(old(backend.Db()), Command.InsertAttempt(token.id))
    {
      hide Inv, Reaches;
      ghost var before := backend.State();
      var ok := backend.InsertAttempt(token.id);
      backend.Proceed(a, Came(ok), before, start);
    }

    /** The UPDATE of claimJob. */
    method TryClaim(item: JobToken, source: Queue, ghost a: ActorId, ghost start: Sys) returns (r: Result<bool>)
      requires backend.At(a, Popped(item, source), start)
      modifies backend
      ensures match r
        case Failure(_) => backend.At(a, PushBack(item, source), start)
        case Success(false) => backend.At(a, Drop(item), start)
        case Success(true) => backend.At(a, Claimed(item), start)
      ensures backend.sqlUp ==> r == Success(old(backend.Db()).HasStatus(item.id, Queued))
      ensures r == Success(true) ==> item.id in old(backend.tasks) && old(backend.tasks)[item.id].status == Queued
      ensures backend.alone ==>
        if r == Success(true) then
          backend.Db() == Do(old(backend.Db()), Command.ClaimTask(item.id))
          && backend.tasks == old(backend.tasks)[item.id :=
               old(backend.tasks)[item.id].(status := Running, attempts := old(backend.tasks)[item.id].attempts + 1,
                                            updatedAt := old(backend.now))]
        else backend.Db() == old(backend.Db())
    {
      hide Inv, Reaches;
      ghost var before := backend.State();
      r := backend.ClaimTask(item.id);
      backend.Proceed(a, Came(r.Success?), before, start);
    }

    /** claimJob, with its InsertAttempt. */
    method ClaimJob(item: JobToken, source: Queue, ghost a: ActorId, ghost start: Sys) returns (r: Result<bool>)
      requires backend.At(a, Popped(item, source), start)
      modifies backend
      ensures match r
        case Failure(_) => backend.At(a, PushBack(item, source), start)
        case Success(false) => backend.At(a, Drop(item), start)
        case Success(true) => backend.At(a, Loading(item), start)
      // the attempt counts whether or not it is recorded
      ensures backend.alone && r == Success(true) ==>
        item.id in old(backend.tasks) && old(backend.tasks)[item.id].status == Queued
        && backend.tasks == old(backend.tasks)[item.id :=
             old(backend.tasks)[item.id].(status := Running, attempts := old(backend.tasks)[item.id].attempts + 1,
                                          updatedAt := old(backend.now))]
      ensures backend.alone && r != Success(true) ==> backend.Db() == old(backend.Db())
      ensures backend.Quiet() ==> r == Success(old(backend.Db()).HasStatus(item.id, Queued))
      ensures backend.Quiet() ==>
        backend.Db() == if r == Success(true) then Taken(old(backend.Db()), item.id) else old(backend.Db())
    {
      hide Inv, Reaches, Backend.At, Do;
      r := TryClaim(item, source, a, start);
      if r == Success(true) {
        RecordAttempt(item, a, start);
      }
    }

    /** The status write, and the closing of the attempt if the write got through; ok says so. */
    method MarkJobSucceeded(token: JobToken, job: Row, ghost a: ActorId, ghost start: Sys) returns (ok: bool)
      requires backend.At(a, MarkSucceeded(token, job), start) && job.attempts >= 1
      modifies backend
      ensures backend.At(a, Drop(token), start)
      ensures backend.alone && !ok ==> backend.Db() == old(backend.Db())
      ensures backend.alone && ok ==>
        Maybe(Do(old(backend.Db()), MarkTask(token.id, Succeeded, None)), CloseAttempts(token.id, true, None),
              backend.Db())
      ensures backend.Quiet() ==> ok && backend.Db() == Reported(old(backend.Db()), token, job, None)
    {
      hide Inv, Reaches;
      ghost var before := backend.State();
      ok := backend.MarkTask(token.id, Succeeded, None);
      backend.Proceed(a, Came(ok), before, start);
      if ok {
        CloseOkAttempt(token, a, start);
      }
    }

    method CloseOkAttempt(token: JobToken, ghost a: ActorId, ghost start: Sys)
      requires backend.At(a, CloseOk(token), start)
      modifies backend
      ensures backend.At(a, Drop(token), start)
      ensures backend.alone ==> Maybe(old(backend.Db()), CloseAttempts(token.id, true, None), backend.Db())
      ensures backend.Quiet() ==> backend.Db() == Do(old(backend.Db()), CloseAttempts(token.id, true, None))
    {
      hide Inv, Reaches;
      ghost var before := backend.State();
      var ok := backend.UpdateAttemptOnSuccess(token.id);
      backend.Proceed(a, Came(ok), before, start);
    }

    method MarkJobDeadLetter(token: JobToken, job: Row, error: string, ghost a: ActorId, ghost start: Sys)
      requires backend.At(a, MarkDead(token, job, error), start)
      modifies backend
      ensures backend.At(a, CloseFailed(token, error), start)
      ensures backend.alone && backend.sqlUp ==>
        backend.Db() == Do(old(backend.Db()), MarkTask(token.id, DeadLetter, None))
      ensures backend.alone && backend.sqlUp && token.id in old(backend.tasks) ==>
        backend.tasks == old(backend.tasks)[token.id :=
          old(backend.tasks)[token.id].(status := DeadLetter, updatedAt := old(backend.now))]
    {
      hide Inv, Reaches;
      ghost var before := backend.State();
      var ok := backend.MarkTask(token.id, DeadLetter, None);
      backend.Proceed(a, Came(ok), before, start);
    }

    method MarkJobRetry(token: JobToken, job: Row, error: string, nextRunAt: int, ghost a: ActorId, ghost start: Sys)
      requires backend.At(a, MarkRetry(token, job, error, nextRunAt), start)
      modifies backend
      ensures backend.At(a, CloseFailed(token, error), start)
      ensures backend.alone && backend.sqlUp ==>
        backend.Db() == Do(old(backend.Db()), MarkTask(token.id, Retry, Some(nextRunAt)))
    {
      hide Inv, Reaches;
      ghost var before := backend.State();
      var ok := backend.MarkTask(token.id, Retry, Some(nextRunAt));
      backend.Proceed(a, Came(ok), before, start);
    }

    method CloseFailedAttempt(token: JobToken, error: string, ghost a: ActorId, ghost start: Sys)
      requires backend.At(a, CloseFailed(token, error), start)
      modifies backend
      ensures backend.At(a, Drop(token), start)
      ensures backend.alone ==> backend.tasks == old(backend.tasks)
      ensures backend.alone && backend.sqlUp ==>
        backend.Db() == Do(old(backend.Db()), CloseAttempts(token.id, false, Some(error)))
    {
      hide Inv, Reaches;
      ghost var before := backend.State();
      var ok := backend.UpdateAttemptOnFailure(token.id, error);
      backend.Proceed(a, Came(ok), before, start);
    }

    /** The dead-letter path of handleJobFailure. */
    method BuryJob(token: JobToken, job: Row, error: string, ghost a: ActorId, ghost start: Sys)
      requires backend.At(a, PushDead(token, job, error), start) && 1 <= job.maxAttempts <= job.attempts
      modifies backend
      ensures backend.At(a, CloseFailed(token, error), start)
      ensures backend.alone && backend.sqlUp && token.id in old(backend.tasks) ==>
        backend.tasks == old(backend.tasks)[token.id :=
          old(backend.tasks)[token.id].(status := DeadLetter, updatedAt := old(backend.now))]
      ensures backend.Quiet() ==> backend.Db() == FailureWritten(old(backend.Db()), token, job)
    {
      hide Inv, Reaches, Backend.At, Do;
      PushDeadLetter(token, job, error, a, start);
      MarkJobDeadLetter(token, job, error, a, start);
    }

    /** The LPUSH on dlq:, whose failure is only logged. */
    method PushDeadLetter(token: JobToken, job: Row, error: string, ghost a: ActorId, ghost start: Sys)
      requires backend.At(a, PushDead(token, job, error), start)
      modifies backend
      ensures backend.At(a, MarkDead(token, job, error), start)
      ensures backend.alone ==> backend.tasks == old(backend.tasks) && backend.now == old(backend.now)
      ensures backend.Quiet() ==>
        backend.Db() ==
          Do(old(backend.Db()), Push(DeadLetters(job.priority), TokenOf(token.id, job.typ, job.priority)))
    {
      hide Inv, Reaches;
      ghost var before := backend.State();
      var ok := backend.LPush(DeadLetters(job.priority), TokenOf(token.id, job.typ, job.priority));
      backend.Proceed(a, Came(ok), before, start);
    }

    /** The retry path of handleJobFailure; the shift count attempts - 1 is never negative. */
    method ScheduleRetry(token: JobToken, job: Row, error: string, ghost a: ActorId, ghost start: Sys)
      requires backend.At(a, Executing(token, job), start) && 1 <= job.attempts < job.maxAttempts
      modifies backend
      ensures backend.At(a, CloseFailed(token, error), start)
      ensures backend.alone && backend.sqlUp && token.id in old(backend.tasks) ==>
        backend.tasks == old(backend.tasks)[token.id :=
          old(backend.tasks)[token.id].(status := Retry, updatedAt := old(backend.now),
                                        nextRunAt := Some(old(backend.now) + Backoff.Delay(job.attempts)))]
      ensures backend.alone && backend.sqlUp ==> backend.Db() == FailureWritten(old(backend.Db()), token, job)
    {
      hide Inv, Reaches;
      ghost var before := backend.State();
      var nextRunAt := backend.now + Backoff.Delay(job.attempts);
      backend.Proceed(a, Err(error), before, start);
      MarkJobRetry(token, job, error, nextRunAt, a, start);
    }

    /** The handler has failed and no attempt is left; no command is issued yet. */
    method GiveUp(token: JobToken, job: Row, error: string, ghost a: ActorId, ghost start: Sys)
      requires backend.At(a, Executing(token, job), start) && job.attempts >= job.maxAttempts
      modifies backend
      ensures backend.At(a, PushDead(token, job, error), start)
      ensures backend.alone ==> backend.Db() == old(backend.Db())
    {
      hide Inv, Reaches;
      ghost var before := backend.State();
      backend.Proceed(a, Err(error), before, start);
    }

    /** handleJobFailure: dead letter once the attempts are used up, else a retry after the
        backoff; the table says so even if Redis does not take the dead letter. */
    method HandleJobFailure(token: JobToken, job: Row, error: string, ghost a: ActorId, ghost start: Sys)
      requires backend.At(a, Executing(token, job), start)
      modifies backend
      ensures backend.At(a, Drop(token), start)
      ensures token.id in old(backend.tasks) && job.attempts >= 1
      ensures backend.alone && backend.sqlUp && job.attempts >= job.maxAttempts ==>
        backend.tasks == old(backend.tasks)[token.id :=
          old(backend.tasks)[token.id].(status := DeadLetter, updatedAt := old(backend.now))]
      ensures backend.alone && backend.sqlUp && job.attempts < job.maxAttempts ==>
        backend.tasks == old(backend.tasks)[token.id :=
          old(backend.tasks)[token.id].(status := Retry, updatedAt := old(backend.now),
                                        nextRunAt := Some(old(backend.now) + Backoff.Delay(job.attempts)))]
      ensures backend.Quiet() ==> backend.Db() == Reported(old(backend.Db()), token, job, Some(error))
    {
      hide Inv, Reaches, Backend.At, Do, FailureWritten;
      ExecutorKnows(backend, a, token, job, start);
      WriteFailure(token, job, error, a, start);
      CloseFailedAttempt(token, error, a, start);
    }

    /** handleJobFailure up to the closing of the attempt. */
    method WriteFailure(token: JobToken, job: Row, error: string, ghost a: ActorId, ghost start: Sys)
      requires backend.At(a, Executing(token, job), start)
      requires token.id in backend.tasks && 1 <= job.attempts <= job.maxAttempts
      modifies backend
      ensures backend.At(a, CloseFailed(token, error), start)
      ensures backend.alone && backend.sqlUp && job.attempts >= job.maxAttempts ==>
        backend.tasks == old(backend.tasks)[token.id :=
          old(backend.tasks)[token.id].(status := DeadLetter, updatedAt := old(backend.now))]
      ensures backend.alone && backend.sqlUp && job.attempts < job.maxAttempts ==>
        backend.tasks == old(backend.tasks)[token.id :=
          old(backend.tasks)[token.id].(status := Retry, updatedAt := old(backend.now),
                                        nextRunAt := Some(old(backend.now) + Backoff.Delay(job.attempts)))]
      ensures backend.Quiet() ==> backend.Db() == FailureWritten(old(backend.Db()), token, job)
    {
      hide Inv, Reaches, Backend.At, Do, FailureWritten;
      if job.attempts >= job.maxAttempts {
        GiveUp(token, job, error, a, start);
        BuryJob(token, job, error, a, start);
      } else {
        ScheduleRetry(token, job, error, a, start);
      }
    }

    /** The goroutine of Start, with its deferred LREM. */
    method RunJob(token: JobToken, job: Row, ghost a: ActorId, ghost start: Sys) returns (ghost outcome: Option<string>)
      requires backend.At(a, Executing(token, job), start)
      modifies backend
      ensures backend.Away(a, start)
      ensures backend.Quiet() ==>
        job.attempts >= 1
        && backend.Db() == Do(Reported(old(backend.Db()), token, job, outcome), Remove(Processing, token))
    {
      ExecutorKnows(backend, a, token, job, start);
      hide Inv, Reaches;
      var error := ExecuteHandler(job);
      outcome := error;
      if error.Some? {
        HandleJobFailure(token, job, error.value, a, start);
      } else {
        ghost var before := backend.State();
        backend.Proceed(a, Ok, before, start);
        var _ := MarkJobSucceeded(token, job, a, start);
      }
      DropItem(token, a, start);
    }

    method MarkJobFailed(token: JobToken, ghost a: ActorId, ghost start: Sys)
      requires backend.At(a, LoadFailed(token), start)
      modifies backend
      ensures backend.At(a, Drop(token), start)
      ensures backend.alone ==> Maybe(old(backend.Db()), MarkTask(token.id, Failed, None), backend.Db())
    {
      hide Inv, Reaches;
      ghost var before := backend.State();
      var ok := backend.MarkTask(token.id, Failed, None);
      backend.Proceed(a, Came(ok), before, start);
    }

    /** Start from a claimed job on. */
    method LoadAndRun(token: JobToken, ghost a: ActorId, ghost start: Sys)
      returns (ghost read: bool, ghost outcome: Option<string>)
      requires backend.At(a, Loading(token), start)
      modifies backend
      ensures backend.Away(a, start)
      ensures backend.sqlUp ==> read
      ensures backend.alone && !read ==> GivenUp(old(backend.Db()), token, backend.Db())
      ensures backend.Quiet() && token.id in old(backend.tasks) && old(backend.tasks)[token.id].attempts >= 1 ==>
        backend.Db() == Do(Reported(old(backend.Db()), token, old(backend.tasks)[token.id], outcome),
                           Remove(Processing, token))
    {
      hide Inv, Reaches;
      ghost var before := backend.State();
      var r := backend.GetJobByID(token.id);
      backend.Proceed(a, Came(r.Success?), before, start);
      read, outcome := r.Success?, None;
      match r
      case Failure(_) =>
        MarkJobFailed(token, a, start);
        DropItem(token, a, start);
      case Success(None) => DropItem(token, a, start);
      case Success(Some(job)) => outcome := RunJob(token, job, a, start);
    }

    /** LPUSH of an item back to where it came from, then its LREM. */
    method PutBack(item: Item, source: Queue, ghost a: ActorId, ghost start: Sys)
      requires backend.At(a, PushBack(item, source), start)
        || (item.Malformed? && backend.At(a, Popped(item, source), start))
      modifies backend
      ensures backend.Away(a, start)
      ensures backend.alone && backend.redisUp ==>
        backend.Db() == Do(Do(old(backend.Db()), Push(source, item)), Remove(Processing, item))
    {
      hide Inv, Reaches;
      ghost var before := backend.State();
      var ok := backend.LPush(source, item);
      backend.Proceed(a, Came(ok), before, start);
      DropItem(item, a, start);
    }

    /** Start with a popped item in hand. A shutdown leaves the item on the processing list. */
    method Handle(item: Item, source: Queue, ghost a: ActorId, ghost start: Sys) returns (ghost outcome: Option<string>)
      requires backend.At(a, Popped(item, source), start)
      modifies backend
      ensures backend.Away(a, start)
      ensures item.Token? && item.id in old(backend.tasks) ==> old(backend.tasks)[item.id].attempts >= 0
      ensures backend.Quiet() ==> backend.Db() == Handled(old(backend.Db()), item, source, outcome)
    {
      AttemptsCounted(backend.Db());
      hide Inv, Reaches;
      outcome := None;
      if item.Malformed? {
        PutBack(item, source, a, start);
        return;
      }
      if item.BadId? {
        ghost var before := backend.State();
        var ok := backend.LRem(Processing, item);
        backend.Proceed(a, Came(ok), before, start);
        return;
      }
      var stop := CheckShutdown();
      if stop {
        backend.Stop(a, start);
        return;
      }
      var claimed := ClaimJob(item, source, a, start);
      match claimed
      case Failure(_) => PutBack(item, source, a, start);
      case Success(false) => DropItem(item, a, start);
      case Success(true) =>
        if backend.Quiet() {
          TakenMeans(old(backend.Db()), item.id);
        }
        var _, error := LoadAndRun(item, a, start);
        outcome := error;
        if backend.Quiet() {
          AttemptComposes(old(backend.Db()), item, outcome);
        }
    }

    /** BRPOPLPUSH from one pending list. */
    method PopFrom(p: Priority, ghost a: ActorId, ghost start: Sys) returns (popped: Option<Item>)
      requires Routable(p) && backend.Away(a, start)
      modifies backend
      ensures if popped.Some? then backend.At(a, Popped(popped.value, Pending(p)), start)
              else backend.Away(a, start)
      ensures backend.Quiet() ==>
        if old(backend.Db()).List(Pending(p)) == [] then popped == None && backend.Db() == old(backend.Db())
        else popped == Some(Last(old(backend.Db()).List(Pending(p))))
             && backend.Db() == Do(old(backend.Db()), Command.MoveTail(Pending(p), Processing))
    {
      hide Inv, Reaches;
      ghost var before := backend.State();
      popped := backend.MoveTail(Pending(p), Processing);
      if popped.Some? {
        backend.Launch(a, Pop(p), before, start);
      } else {
        backend.Others(a, start);
      }
    }

    /** The loop over the pending lists: the first priority that has an item. */
    method PopNext(ghost a: ActorId, ghost start: Sys)
      returns (popped: Option<Item>, source: Queue, ghost first: nat)
      requires backend.Away(a, start)
      modifies backend
      ensures if popped.Some? then backend.At(a, Popped(popped.value, source), start) else backend.Away(a, start)
      ensures backend.Quiet() ==>
        first <= |PRIORITIES| && IsFirstWaiting(old(backend.Db()), first, |PRIORITIES|)
        && (popped.Some? <==> first < |PRIORITIES|)
        && if popped.None? then backend.Db() == old(backend.Db())
           else source == Pending(PRIORITIES[first]) && popped.value == Last(old(backend.Db()).List(source))
                && backend.Db() == Do(old(backend.Db()), Command.MoveTail(source, Processing))
    {
      hide Backend.At, Backend.Away, Inv, Reaches;
      ghost var st := backend.Db();
      popped, source, first := None, Processing, 0;
      var i := 0;
      while i < |PRIORITIES| && popped.None?
        invariant 0 <= i <= |PRIORITIES| && first == if popped.Some? then i - 1 else i
        invariant if popped.Some? then i > 0 && source == Pending(PRIORITIES[first])
                                       && backend.At(a, Popped(popped.value, source), start)
                  else backend.Away(a, start)
        invariant backend.Quiet() ==> IsFirstWaiting(st, first, i)
        invariant backend.Quiet() ==>
          if popped.None? then backend.Db() == st
          else popped.value == Last(st.List(source)) && backend.Db() == Do(st, Command.MoveTail(source, Processing))
        decreases |PRIORITIES| - i, popped.None?
      {
        var stop := CheckShutdown();
        if stop {
          return;
        }
        popped := PopFrom(PRIORITIES[i], a, start);
        if popped.Some? {
          source := Pending(PRIORITIES[i]);
        } else {
          first := first + 1;
        }
        i := i + 1;
      }
    }

    /** One iteration of the loop of Start: the most urgent list that has a token, then that token. */
    method ProcessNext(ghost a: ActorId) returns (found: bool, ghost outcome: Option<string>)
      requires Inv(backend.State()) && a !in backend.actors
      modifies backend
      ensures backend.Away(a, old(backend.State()))
      ensures var st := old(backend.Db());
        backend.Quiet() ==>
          (found <==> st.List(Pending(Critical)) != [] || st.List(Pending(High)) != []
                      || st.List(Pending(Default)) != [] || st.List(Pending(Low)) != [])
      ensures var st := old(backend.Db());
        backend.Quiet() ==>
          if st.List(Pending(Critical)) != [] then HandledFrom(st, Critical, outcome, backend.Db())
          else if st.List(Pending(High)) != [] then HandledFrom(st, High, outcome, backend.Db())
          else if st.List(Pending(Default)) != [] then HandledFrom(st, Default, outcome, backend.Db())
          else if st.List(Pending(Low)) != [] then HandledFrom(st, Low, outcome, backend.Db())
          else backend.Db() == st
    {
      ghost var start := backend.State();
      ReachesSelf(start);
      AttemptsCounted(start.db);
      hide Backend.At, Backend.Away, Inv, Reaches, HandledFrom, IsFirstWaiting, Handled;
      var item, source, first := PopNext(a, start);
      found, outcome := item.Some?, None;
      if found {
        outcome := Handle(item.value, source, a, start);
      }
      if backend.Quiet() {
        UrgencyLaw(start.db, first, outcome, backend.Db());
      }
    }

    // -------------------------------------------------------------- the retry pump

    /** The PushJob of requeueRetryJob. */
    method PushDue(due: RetryRow, rest: seq<RetryRow>, ghost a: ActorId, ghost start: Sys) returns (ok: bool)
      requires backend.At(a, PumpPush(due, rest), start)
      modifies backend
      ensures backend.At(a, PumpScan(rest), start)
      ensures backend.alone ==> backend.tasks == old(backend.tasks) && backend.now == old(backend.now)
      ensures backend.Quiet() ==>
        ok == Routable(due.priority) && backend.Db() == Pushed(old(backend.Db()), due)
    {
      hide Inv, Reaches;
      ghost var before := backend.State();
      ok := backend.PushJob(due.id, due.typ, due.priority);
      backend.Proceed(a, Came(ok), before, start);
    }

    /** The UPDATE of requeueRetryJob, which finds the task in status retry or changes nothing. */
    method QueueDue(rows: seq<RetryRow>, ghost a: ActorId, ghost start: Sys) returns (r: Result<bool>)
      requires rows != [] && rows[0].attempts < rows[0].maxAttempts && backend.At(a, PumpScan(rows), start)
      modifies backend
      ensures backend.At(a, if r == Success(true) then PumpPush(rows[0], rows[1..]) else PumpScan(rows[1..]), start)
      ensures backend.alone && backend.sqlUp ==>
        r == Success(old(backend.Db()).HasStatus(rows[0].id, Retry))
        && backend.Db() == Do(old(backend.Db()), RequeueTask(rows[0].id))
    {
      hide Inv, Reaches, Do;
      ghost var before := backend.State();
      r := backend.RequeueTask(rows[0].id);
      backend.Proceed(a, Came(r.Success?), before, start);
    }

    /** requeueRetryJob; a task that is no longer in status retry is no error. */
    method RequeueRetryJob(rows: seq<RetryRow>, ghost a: ActorId, ghost start: Sys) returns (ok: bool)
      requires rows != [] && rows[0].attempts < rows[0].maxAttempts && backend.At(a, PumpScan(rows), start)
      modifies backend
      ensures backend.At(a, PumpScan(rows[1..]), start)
      ensures backend.alone && backend.sqlUp ==> TasksAre(PumpedRow(old(backend.Db()), rows[0]), backend.Db())
      ensures backend.Quiet() ==>
        ok == CountsAsRequeued(old(backend.Db()), rows[0])
        && backend.Db() == PumpedRow(old(backend.Db()), rows[0])
    {
      RequeueMeans(backend.Db(), rows[0]);
      hide Inv, Reaches, Do, Pushed, PumpedRow, CountsAsRequeued, Backend.At;
      var updated := QueueDue(rows, a, start);
      if updated != Success(true) {
        return updated.Success?;
      }
      ok := PushDue(rows[0], rows[1..], a, start);
    }

    /** The body of processRetryJobs' loop. */
    method PumpRow(rows: seq<RetryRow>, ghost a: ActorId, ghost start: Sys) returns (requeued: bool)
      requires rows != [] && backend.At(a, PumpScan(rows), start)
      modifies backend
      ensures backend.At(a, PumpScan(rows[1..]), start)
      ensures backend.alone && backend.sqlUp ==> TasksAre(PumpedRow(old(backend.Db()), rows[0]), backend.Db())
      ensures backend.Quiet() ==>
        requeued == CountsAsRequeued(old(backend.Db()), rows[0])
        && backend.Db() == PumpedRow(old(backend.Db()), rows[0])
    {
      hide Inv, Reaches;
      if rows[0].attempts >= rows[0].maxAttempts {
        ghost var before := backend.State();
        var ok := backend.MarkTask(rows[0].id, Failed, None);
        backend.Proceed(a, Came(ok), before, start);
        return false;
      }
      requeued := RequeueRetryJob(rows, a, start);
    }

    method Finish(done: Actor, ghost a: ActorId, ghost start: Sys)
      requires done == PumpScan([]) || done == Reaping([])
      requires backend.At(a, done, start)
      modifies backend
      ensures backend.Away(a, start)
      ensures backend.alone ==> backend.Db() == old(backend.Db())
    {
      hide Inv, Reaches;
      ghost var before := backend.State();
      backend.Proceed(a, Ok, before, start);
    }

    /** The query of processRetryJobs. */
    method ScanDue(ghost a: ActorId, ghost start: Sys) returns (query: Result<seq<RetryRow>>, ghost batch: seq<JobId>)
      requires backend.Away(a, start)
      modifies backend
      ensures if query.Success? then backend.At(a, PumpScan(query.value), start) else backend.Away(a, start)
      ensures IsRetryBatch(old(backend.Db()), batch)
      ensures query.Success? ==> query.value == StartPlan(old(backend.Db()), Pump(batch)).1.rows
      ensures backend.alone && backend.sqlUp ==> query.Success? && backend.Db() == old(backend.Db())
    {
      hide Inv, Reaches;
      ghost var before := backend.State();
      query, batch := backend.QueryDue();
      if query.Success? {
        backend.Launch(a, Pump(batch), before, start);
      }
    }

    /** The loop of processRetryJobs. */
    method PumpAll(due: seq<RetryRow>, ghost a: ActorId, ghost start: Sys) returns (processed: nat)
      requires backend.At(a, PumpScan(due), start)
      modifies backend
      ensures backend.At(a, PumpScan([]), start)
      ensures backend.alone && backend.sqlUp ==> TasksAre(Pumped(old(backend.Db()), due), backend.Db())
      ensures backend.Quiet() ==>
        backend.Db() == Pumped(old(backend.Db()), due) && processed == RequeuedCount(old(backend.Db()), due)
    {
      hide Backend.At, Backend.Away, Inv, Reaches, PumpedRow, CountsAsRequeued;
      ghost var st := backend.Db();
      processed := 0;
      var rows := due;
      while rows != []
        invariant backend.At(a, PumpScan(rows), start)
        invariant backend.alone && backend.sqlUp ==> TasksAre(Pumped(st, due), Pumped(backend.Db(), rows))
        invariant backend.Quiet() ==> Pumped(backend.Db(), rows) == Pumped(st, due)
        invariant backend.Quiet() ==> processed + RequeuedCount(backend.Db(), rows) == RequeuedCount(st, due)
        decreases |rows|
      {
        ghost var here := backend.Db();
        var requeued := PumpRow(rows, a, start);
        if requeued {
          processed := processed + 1;
        }
        if TasksAre(PumpedRow(here, rows[0]), backend.Db()) {
          SameTasksPumped(PumpedRow(here, rows[0]), backend.Db(), rows[1..]);
        }
        rows := rows[1..];
      }
    }

    /** processRetryJobs. Whatever happens to the pushes, the tasks that are due are queued. */
    method ProcessRetryJobs(ghost a: ActorId) returns (processed: nat, ghost batch: seq<JobId>)
      requires Inv(backend.State()) && a !in backend.actors
      modifies backend
      ensures backend.Away(a, old(backend.State()))
      ensures IsRetryBatch(old(backend.Db()), batch) && |batch| <= 100
      ensures var st := old(backend.Db());
        backend.alone && backend.sqlUp ==> forall id :: id in st.tasks ==>
          var row := st.tasks[id];
          var due := row.status == Retry && row.nextRunAt.Some? && row.nextRunAt.value <= st.now;
          && id in backend.tasks
          && (backend.tasks[id] == row || (due && backend.tasks[id] == row.(status := Queued, updatedAt := st.now)))
          && (due && |batch| < 100 ==> backend.tasks[id] == row.(status := Queued, updatedAt := st.now))
      ensures var rows := StartPlan(old(backend.Db()), Pump(batch)).1.rows;
        backend.Quiet() ==>
          backend.Db() == Pumped(old(backend.Db()), rows) && processed == RequeuedCount(old(backend.Db()), rows)
    {
      ghost var start := backend.State();
      ReachesSelf(start);
      assert RowsOk(start.db);
      hide Backend.At, Backend.Away, Inv, Reaches, IsRetryBatch, Pumped, RequeuedCount, RowsOk;
      var query;
      query, batch := ScanDue(a, start);
      BatchLaw(start.db, batch);
      if query.Failure? {
        return 0, batch;
      }
      processed := PumpAll(query.value, a, start);
      Finish(PumpScan([]), a, start);
      forall id | id in start.db.tasks
        ensures var row, st' := start.db.tasks[id], Pumped(start.db, query.value);
          var due := row.status == Retry && row.nextRunAt.Some? && row.nextRunAt.value <= start.db.now;
          && id in st'.tasks
          && (st'.tasks[id] == row || (due && st'.tasks[id] == row.(status := Queued, updatedAt := start.db.now)))
          && (due && |batch| < 100 ==> st'.tasks[id] == row.(status := Queued, updatedAt := start.db.now))
      {
        PumpLaw(start.db, batch, id);
      }
    }

    // -------------------------------------------------------------- the reaper

    method RemoveStale(token: JobToken, rest: seq<Item>, ghost a: ActorId, ghost start: Sys)
      requires backend.At(a, ReapDrop(token, rest), start)
      modifies backend
      ensures backend.At(a, Reaping(rest), start)
      ensures backend.alone && backend.redisUp ==> backend.Db() == Do(old(backend.Db()), Remove(Processing, token))
    {
      hide Inv, Reaches;
      ghost var before := backend.State();
      var ok := backend.LRem(Processing, token);
      backend.Proceed(a, Came(ok), before, start);
    }

    /** The LMOVE of moveJobBackToQueue; an empty list answers nil. */
    method MoveRightmost(token: JobToken, rest: seq<Item>, ghost a: ActorId, ghost start: Sys) returns (moved: bool)
      requires backend.At(a, ReapMove(token, rest), start)
      modifies backend
      ensures backend.At(a, if moved then Reaping(rest) else ReapPush(token, rest), start)
      ensures backend.alone && backend.redisUp ==>
        moved == (old(backend.Db()).List(Processing) != [])
        && backend.Db() == if moved then Do(old(backend.Db()), Command.MoveTail(Processing, Pending(token.priority)))
                           else old(backend.Db())
    {
      hide Inv, Reaches;
      ghost var before := backend.State();
      var item := backend.MoveTail(Processing, Pending(token.priority));
      moved := item.Some?;
      backend.Proceed(a, Came(moved), before, start);
    }

    /** The LPUSH of its fallback. */
    method PushCopy(token: JobToken, rest: seq<Item>, ghost a: ActorId, ghost start: Sys)
      requires backend.At(a, ReapPush(token, rest), start)
      modifies backend
      ensures backend.At(a, ReapDrop(token, rest), start)
      ensures backend.alone && backend.redisUp ==>
        backend.Db() == Do(old(backend.Db()), Push(Pending(token.priority), token))
    {
      hide Inv, Reaches;
      ghost var before := backend.State();
      var ok := backend.LPush(Pending(token.priority), token);
      backend.Proceed(a, Came(ok), before, start);
    }

    /** moveJobBackToQueue: LMOVE of whatever is rightmost, or else LPUSH and LREM of the token. */
    method MoveJobBackToQueue(token: JobToken, rest: seq<Item>, ghost a: ActorId, ghost start: Sys)
      requires backend.At(a, ReapMove(token, rest), start)
      modifies backend
      ensures backend.At(a, Reaping(rest), start)
      ensures backend.alone && backend.redisUp ==> backend.Db() == MovedBack(old(backend.Db()), token)
      ensures var items, own := old(backend.Db()).List(Processing), Pending(token.priority);
        backend.alone && backend.redisUp ==>
          if items != [] then
            backend.Db().List(Processing) == items[..|items| - 1]
            && backend.Db().List(own) == [items[|items| - 1]] + old(backend.Db()).List(own)
          else backend.Db().List(Processing) == [] && backend.Db().List(own) == [token] + old(backend.Db()).List(own)
    {
      MovedBackMeans(backend.Db(), token);
      hide Inv, Reaches, Backend.At, Do;
      var moved := MoveRightmost(token, rest, a, start);
      if !moved {
        PushCopy(token, rest, a, start);
        RemoveStale(token, rest, a, start);
      }
    }

    /** The reaper's read of the job, and whether it is stuck by then. */
    method LookUp(token: JobToken, items: seq<Item>, ghost a: ActorId, ghost start: Sys)
      returns (r: Result<Option<Row>>, stuck: bool)
      requires items != [] && items[0] == token && Routable(token.priority)
      requires backend.At(a, Reaping(items), start)
      modifies backend
      ensures backend.At(a, ReapChoice(old(backend.Db()), token, items[1..], Came(r.Success?)), start)
      ensures r.Success? ==> r.value == old(backend.Db()).RowAt(token.id)
      ensures stuck <==>
        r.Success? && r.value.Some? && old(backend.now) - r.value.value.updatedAt > STUCK_AFTER
      ensures backend.sqlUp ==> r.Success?
      ensures backend.alone ==> backend.Db() == old(backend.Db())
    {
      hide Inv, Reaches;
      ghost var before := backend.State();
      r := backend.GetJobByID(token.id);
      stuck := r.Success? && r.value.Some? && backend.now - r.value.value.updatedAt > STUCK_AFTER;
      backend.Proceed(a, Came(r.Success?), before, start);
    }

    /** The reaper's decision on a well-formed token, and its commands. */
    method Decide(token: JobToken, items: seq<Item>, ghost a: ActorId, ghost start: Sys)
      returns (recovered: bool, ghost read: bool)
      requires items != [] && items[0] == token && Routable(token.priority)
      requires backend.At(a, Reaping(items), start)
      modifies backend
      ensures backend.At(a, Reaping(items[1..]), start)
      ensures backend.sqlUp ==> read
      ensures backend.alone && backend.redisUp ==>
        recovered == Recoverable(old(backend.Db()), token, Came(read))
        && backend.Db() == PassItem(old(backend.Db()), token, Came(read))
    {
      hide Backend.At, Backend.Away, Inv, Reaches, Do, MovedBack;
      var rest := items[1..];
      var r, stuck := LookUp(token, items, a, start);
      recovered, read := false, r.Success?;
      match r
      case Failure(_) =>
        MoveJobBackToQueue(token, rest, a, start);
        recovered := true;
      case Success(None) => RemoveStale(token, rest, a, start);
      case Success(Some(job)) =>
        match job.status {
          case Running =>
            if stuck {
              MoveJobBackToQueue(token, rest, a, start);
              recovered := true;
            }
          case Queued =>
            MoveJobBackToQueue(token, rest, a, start);
            recovered := true;
          case Succeeded => RemoveStale(token, rest, a, start);
          case Failed => RemoveStale(token, rest, a, start);
          case Retry => RemoveStale(token, rest, a, start);
          case DeadLetter =>
          case Cancelled =>
        }
    }

    /** The body of recoverStuckJobs' loop for a well-formed token. */
    method ReapToken(token: JobToken, items: seq<Item>, ghost a: ActorId, ghost start: Sys)
      returns (recovered: bool, ghost read: bool)
      requires items != [] && items[0] == token && Routable(token.priority)
      requires backend.At(a, Reaping(items), start)
      modifies backend
      ensures backend.At(a, Reaping(items[1..]), start)
      ensures backend.Quiet() ==>
        recovered == Recoverable(old(backend.Db()), token, Ok)
        && backend.Db() == PassItem(old(backend.Db()), token, Ok)
      // a read that fails: whatever is rightmost is moved, too
      ensures backend.sqlUp ==> read
      ensures var items := old(backend.Db()).List(Processing);
        backend.alone && backend.redisUp && !read && items != [] ==>
          recovered && backend.Db().List(Processing) == items[..|items| - 1]
          && backend.Db().List(Pending(token.priority)) ==
               [items[|items| - 1]] + old(backend.Db()).List(Pending(token.priority))
      // queued, or running and not touched for five minutes: whatever is rightmost is moved;
      // finished, retrying or gone: the token is removed; else nothing happens
      ensures var st := old(backend.Db());
        var items := st.List(Processing);
        backend.Quiet() && items != [] ==>
          if token.id in st.tasks
             && (st.tasks[token.id].status == Queued
                 || (st.tasks[token.id].status == Running && st.now - st.tasks[token.id].updatedAt > 300_000_000_000))
          then
            recovered && backend.Db().List(Processing) == items[..|items| - 1]
            && backend.Db().List(Pending(token.priority)) == [items[|items| - 1]] + st.List(Pending(token.priority))
          else
            !recovered && backend.Db().List(Pending(token.priority)) == st.List(Pending(token.priority))
            && backend.Db().List(Processing) ==
                 if token.id !in st.tasks || st.tasks[token.id].status == Succeeded
                    || st.tasks[token.id].status == Failed || st.tasks[token.id].status == Retry
                 then Without(items, token) else items
    {
      ghost var st := backend.Db();
      recovered, read := Decide(token, items, a, start);
      TokenLaw(st, token);
      ErrorLaw(st, token);
      hide Backend.At, Inv, Reaches, Do, PassItem, Recoverable, Without;
    }

    /** The body of recoverStuckJobs' loop. */
    method ReapItem(items: seq<Item>, ghost a: ActorId, ghost start: Sys) returns (recovered: bool)
      requires items != [] && backend.At(a, Reaping(items), start)
      modifies backend
      ensures backend.At(a, Reaping(items[1..]), start)
      ensures backend.Quiet() ==>
        recovered == Recoverable(old(backend.Db()), items[0], Ok)
        && backend.Db() == PassItem(old(backend.Db()), items[0], Ok)
    {
      hide Inv, Reaches;
      if !items[0].Token? || !Routable(items[0].priority) {
        ghost var before := backend.State();
        var ok := backend.LRem(Processing, items[0]);
        backend.Proceed(a, Came(ok), before, start);
        return false;
      }
      var moved, _ := ReapToken(items[0], items, a, start);
      recovered := moved;
    }

    /** LRANGE q:processing 0 -1. */
    method ScanProcessing(ghost a: ActorId, ghost start: Sys) returns (items: Option<seq<Item>>)
      requires backend.Away(a, start)
      modifies backend
      ensures if items.Some? then backend.At(a, Reaping(items.value), start) else backend.Away(a, start)
      ensures backend.Quiet() ==> items == Some(old(backend.Db()).List(Processing)) && backend.Db() == old(backend.Db())
    {
      hide Inv, Reaches;
      var connected := backend.Connected();
      if !connected {
        return None;
      }
      ghost var before := backend.State();
      items := Some(backend.Db().List(Processing));
      backend.Launch(a, Reap, before, start);
    }

    /** The loop of recoverStuckJobs. */
    method ReapAll(listed: seq<Item>, ghost a: ActorId, ghost start: Sys) returns (recovered: nat)
      requires backend.At(a, Reaping(listed), start)
      modifies backend
      ensures backend.At(a, Reaping([]), start)
      ensures backend.Quiet() ==>
        backend.Db() == Pass(old(backend.Db()), listed, Oks(|listed|))
        && recovered == RecoveredCount(old(backend.Db()), listed, Oks(|listed|))
    {
      hide Backend.At, Backend.Away, Inv, Reaches, Pass, PassItem, Oks, RecoveredCount, Recoverable;
      ghost var st := backend.Db();
      recovered := 0;
      var items := listed;
      while items != []
        invariant backend.At(a, Reaping(items), start)
        invariant backend.Quiet() ==>
          Pass(backend.Db(), items, Oks(|items|)) == Pass(st, listed, Oks(|listed|))
        invariant backend.Quiet() ==>
          recovered + RecoveredCount(backend.Db(), items, Oks(|items|)) == RecoveredCount(st, listed, Oks(|listed|))
        decreases |items|
      {
        PassUnfolds(backend.Db(), items);
        var moved := ReapItem(items, a, start);
        if moved {
          recovered := recovered + 1;
        }
        items := items[1..];
      }
      NoItems(backend.Db());
    }

    /** recoverStuckJobs. */
    method RecoverStuckJobs(ghost a: ActorId) returns (recovered: nat)
      requires Inv(backend.State()) && a !in backend.actors
      modifies backend
      ensures backend.Away(a, old(backend.State()))
      ensures var st := old(backend.Db());
        var items := st.List(Processing);
        backend.Quiet() ==>
          backend.Db() == Pass(st, items, Oks(|items|)) && recovered == RecoveredCount(st, items, Oks(|items|))
      // no table changes
      ensures backend.Quiet() ==> backend.tasks == old(backend.tasks) && backend.attempts == old(backend.attempts)
      // queued jobs, and running ones not touched for five minutes, are all moved
      ensures var st := old(backend.Db());
        var items := st.List(Processing);
        backend.Quiet()
        && (forall item :: item in items ==>
             item.Token? && !item.priority.Other? && item.id in st.tasks
             && (st.tasks[item.id].status == Queued
                 || (st.tasks[item.id].status == Running && st.now - st.tasks[item.id].updatedAt > 300_000_000_000)))
        ==> backend.Db().List(Processing) == [] && recovered == |items|
      // running ones touched since, dead letters and cancelled ones are all left alone
      ensures var st := old(backend.Db());
        var items := st.List(Processing);
        backend.Quiet()
        && (forall item :: item in items ==>
             item.Token? && !item.priority.Other? && item.id in st.tasks
             && (st.tasks[item.id].status == DeadLetter || st.tasks[item.id].status == Cancelled
                 || (st.tasks[item.id].status == Running && st.now - st.tasks[item.id].updatedAt <= 300_000_000_000)))
        ==> backend.Db() == st && recovered == 0
      // tokens of finished and retrying jobs, of no job, and of no queue are all removed
      ensures var st := old(backend.Db());
        var items := st.List(Processing);
        backend.Quiet()
        && (forall item :: item in items ==>
             !item.Token? || item.priority.Other? || item.id !in st.tasks
             || st.tasks[item.id].status == Succeeded || st.tasks[item.id].status == Failed
             || st.tasks[item.id].status == Retry)
        ==> recovered == 0 && forall q :: backend.Db().List(q) == if q == Processing then [] else st.List(q)
    {
      ghost var start := backend.State();
      ReachesSelf(start);
      PassLaws(start.db);
      hide Backend.At, Backend.Away, Inv, Reaches, Pass, PassItem, Oks, RecoveredCount, Recoverable, CountIf;
      var scan := ScanProcessing(a, start);
      if scan == None {
        return 0;
      }
      recovered := ReapAll(scan.value, a, start);
      Finish(Reaping([]), a, start);
    }
  }
}

/** What an undisturbed iteration of the worker loop, of the retry pump and of the reaper leaves
    in the stores. */
module Iterations {
  import opened Types
  import opened Stores
  import opened Protocol
  import opened Safety
  import opened Reaper
  import Backoff

  // ---------------------------------------------------------------- one attempt

  /** The row of a queued job after its next attempt, which ends with that error or with none. */
  function RowAfter(row: Row, error: Option<string>, now: int): Row
    requires row.attempts >= 0
  {
    var tried := row.(attempts := row.attempts + 1, updatedAt := now);
    if error.None? then tried.(status := Succeeded)
    else if tried.attempts >= row.maxAttempts then tried.(status := DeadLetter)
    else tried.(status := Retry, nextRunAt := Some(now + Backoff.Delay(tried.attempts)))
  }

  /** The attempts of the job after it; a second one in the same instant is not recorded. */
  function LogAfter(st: Store, id: JobId, error: Option<string>): seq<Attempt> {
    CloseOpen(st.Log(id) + if AttemptFits(st, id) then [Attempt(st.now, None)] else [],
              Finish(st.now, error.None?, error))
  }

  /** Everything one attempt changes: the row, the log, the token, and a dead letter if it was
      the last attempt and failed. */
  function Attempted(st: Store, token: JobToken, error: Option<string>): Store
    requires st.HasStatus(token.id, Queued) && st.tasks[token.id].attempts >= 0
  {
    var row := st.tasks[token.id];
    var row' := RowAfter(row, error, st.now);
    var dead := DeadLetters(row.priority);
    var buried := if row'.status == DeadLetter
                  then st.lists[dead := [TokenOf(token.id, row.typ, row.priority)] + st.List(dead)] else st.lists;
    Store(st.tasks[token.id := row'],
          st.attempts[token.id := LogAfter(st, token.id, error)],
          buried[Processing := Without(st.List(Processing), token)],
          st.now)
  }

  /** The iteration for one popped item. */
  function Handled(st: Store, item: Item, source: Queue, error: Option<string>): Store
    requires item.Token? && st.HasStatus(item.id, Queued) ==> st.tasks[item.id].attempts >= 0
  {
    match item
    case Malformed(_) => Do(Do(st, Push(source, item)), Remove(Processing, item))
    case BadId(_, _, _) => Do(st, Remove(Processing, item))
    case Token(id, _, _) =>
      if st.HasStatus(id, Queued) then Attempted(st, item, error) else Do(st, Remove(Processing, item))
  }

  /** handleJobFailure and markJobSucceeded, command by command. */
  function Reported(st: Store, token: JobToken, job: Row, error: Option<string>): Store
    requires job.attempts >= 1
  {
    match error
    case None => Do(Do(st, MarkTask(token.id, Succeeded, None)), CloseAttempts(token.id, true, None))
    case Some(message) => Do(FailureWritten(st, token, job), CloseAttempts(token.id, false, error))
  }

  function FailureWritten(st: Store, token: JobToken, job: Row): Store
    requires job.attempts >= 1
  {
    if job.attempts >= job.maxAttempts then
      Do(Do(st, Push(DeadLetters(job.priority), TokenOf(token.id, job.typ, job.priority))),
         MarkTask(token.id, DeadLetter, None))
    else Do(st, MarkTask(token.id, Retry, Some(st.now + Backoff.Delay(job.attempts))))
  }

  /** claimJob. */
  function Taken(st: Store, id: JobId): Store {
    Do(Do(st, ClaimTask(id)), Command.InsertAttempt(id))
  }

  lemma TakenMeans(st: Store, id: JobId)
    requires st.HasStatus(id, Queued)
    ensures Taken(st, id) == st.(
      tasks := st.tasks[id :=
        st.tasks[id].(status := Running, attempts := st.tasks[id].attempts + 1, updatedAt := st.now)],
      attempts := if AttemptFits(st, id) then st.attempts[id := st.Log(id) + [Attempt(st.now, None)]] else st.attempts)
  {
    var s1 := Do(st, ClaimTask(id));
    assert s1.Log(id) == st.Log(id) && s1.now == st.now && id in s1.tasks;
    assert AttemptFits(s1, id) == AttemptFits(st, id);
  }

  lemma ReportedMeans(st: Store, token: JobToken, job: Row, error: Option<string>)
    requires token.id in st.tasks && st.tasks[token.id] == job && job.attempts >= 1
    requires job.updatedAt == st.now
    ensures var r, dead := Reported(st, token, job, error), DeadLetters(job.priority);
      && r.tasks == st.tasks[token.id := RowAfter(job.(attempts := job.attempts - 1), error, st.now)]
      && r.attempts == st.attempts[token.id := CloseOpen(st.Log(token.id), Finish(st.now, error.None?, error))]
      && r.lists == (if error.Some? && job.attempts >= job.maxAttempts
                     then st.lists[dead := [TokenOf(token.id, job.typ, job.priority)] + st.List(dead)] else st.lists)
      && r.now == st.now
  {
  }

  /** The five or six commands of an attempt come to what Attempted says. */
  lemma AttemptComposes(st: Store, token: JobToken, error: Option<string>)
    requires st.HasStatus(token.id, Queued) && st.tasks[token.id].attempts >= 0
    ensures var s1 := Taken(st, token.id);
      && token.id in s1.tasks && s1.tasks[token.id].attempts >= 1
      && Do(Reported(s1, token, s1.tasks[token.id], error), Remove(Processing, token)) == Attempted(st, token, error)
  {
    hide Reported, Taken;
    var id := token.id;
    TakenMeans(st, id);
    var s1 := Taken(st, id);
    var job := s1.tasks[id];
    ReportedMeans(s1, token, job, error);
    var r := Reported(s1, token, job, error);
    var log := st.Log(id) + if AttemptFits(st, id) then [Attempt(st.now, None)] else [];
    assert s1.Log(id) == log;
    assert r.tasks == st.tasks[id := RowAfter(st.tasks[id], error, st.now)];
    assert r.List(Processing) == st.List(Processing);
  }

  /** The law for the token of a queued job: exactly one attempt more, with the status, the retry
      time, the log row and the dead letter that its outcome calls for. */
  lemma AttemptLaw(st: Store, token: JobToken, source: Queue, error: Option<string>, q: Queue)
    requires token.id in st.tasks && st.tasks[token.id].status == Queued
    requires 0 <= st.tasks[token.id].attempts < st.tasks[token.id].maxAttempts
    ensures var st', row := Handled(st, token, source, error), st.tasks[token.id];
      var n, last := row.attempts + 1, row.attempts + 1 == row.maxAttempts;
      && token.id in st'.tasks && st'.tasks - {token.id} == st.tasks - {token.id} && st'.now == st.now
      && st'.tasks[token.id] ==
           row.(status := if error.None? then Succeeded else if last then DeadLetter else Retry,
                attempts := n, nextRunAt := st'.tasks[token.id].nextRunAt, updatedAt := st.now)
      && (error.None? || last ==> st'.tasks[token.id].nextRunAt == row.nextRunAt)
      && (error.Some? && !last && n <= 34 ==>
           st'.tasks[token.id].nextRunAt == Some(st.now + 1_000_000_000 * Backoff.Pow2(n - 1)))
      && ((forall i :: 0 <= i < |st.Log(token.id)| ==> st.Log(token.id)[i].startedAt != st.now) ==>
           |st'.Log(token.id)| == |st.Log(token.id)| + 1
           && st'.Log(token.id)[|st.Log(token.id)|] ==
                Attempt(st.now, Some(Finish(st.now, error.None?, error))))
      && st'.List(q) ==
           (if q == DeadLetters(row.priority) && error.Some? && last
            then [Token(token.id, row.typ, row.priority)] else [])
           + if q == Processing then Without(st.List(q), token) else st.List(q)
  {
    Backoff.DelayIsExactIff(st.tasks[token.id].attempts + 1);
  }

  /** The law for everything else that is popped: no table changes, and the item leaves the
      processing list, for its source if it is no JSON. */
  lemma NoAttemptLaw(st: Store, item: Item, source: Queue, error: Option<string>, q: Queue)
    requires item.Token? ==> !st.HasStatus(item.id, Queued)
    requires source != Processing
    ensures var st' := Handled(st, item, source, error);
      && st'.tasks == st.tasks && st'.attempts == st.attempts && st'.now == st.now
      && st'.List(q) ==
           if q == Processing then Without(st.List(q), item)
           else if q == source && item.Malformed? then [item] + st.List(q)
           else st.List(q)
  {
  }

  // ---------------------------------------------------------------- the retry pump

  /** PushJob for a row of the pump's query. */
  function Pushed(st: Store, due: RetryRow): Store {
    if Routable(due.priority)
    then Do(st, Push(Pending(due.priority), TokenOf(due.id, due.typ, due.priority)))
    else st
  }

  /** One row of the pump's query. */
  function PumpedRow(st: Store, row: RetryRow): Store {
    if row.attempts >= row.maxAttempts then Do(st, MarkTask(row.id, Failed, None))
    else if !st.HasStatus(row.id, Retry) then st
    else Pushed(Do(st, RequeueTask(row.id)), row)
  }

  function Pumped(st: Store, rows: seq<RetryRow>): Store
    decreases |rows|
  {
    if rows == [] then st else Pumped(PumpedRow(st, rows[0]), rows[1..])
  }

  /** requeueRetryJob reports success also for a task that is no longer in status retry. */
  predicate CountsAsRequeued(st: Store, row: RetryRow) {
    row.attempts < row.maxAttempts && (st.HasStatus(row.id, Retry) ==> Routable(row.priority))
  }

  function RequeuedCount(st: Store, rows: seq<RetryRow>): nat
    decreases |rows|
  {
    if rows == [] then 0
    else (if CountsAsRequeued(st, rows[0]) then 1 else 0) + RequeuedCount(PumpedRow(st, rows[0]), rows[1..])
  }

  /** The tokens pushed on the list of p, the last one leftmost. */
  function TokensOf(rows: seq<RetryRow>, p: Priority): seq<Item> {
    if rows == [] then []
    else
      TokensOf(rows[1..], p)
      + if rows[0].priority == p && Routable(p) then [TokenOf(rows[0].id, rows[0].typ, p)] else []
  }

  predicate Lists(rows: seq<RetryRow>, id: JobId) {
    exists i :: 0 <= i < |rows| && rows[i].id == id
  }

  predicate Retryable(st: Store, rows: seq<RetryRow>) {
    && (forall i :: 0 <= i < |rows| ==>
         st.HasStatus(rows[i].id, Retry) && rows[i].attempts < rows[i].maxAttempts)
    && (forall i, j :: 0 <= i < j < |rows| ==> rows[i].id != rows[j].id)
  }

  lemma PumpedRowMeans(st: Store, row: RetryRow, q: Queue)
    requires st.HasStatus(row.id, Retry) && row.attempts < row.maxAttempts
    ensures var st', old' := PumpedRow(st, row), st.tasks[row.id];
      && st'.tasks == st.tasks[row.id := old'.(status := Queued, updatedAt := st.now)]
      && st'.attempts == st.attempts && st'.now == st.now
      && st'.List(q) == (if q.Pending? then TokensOf([row], q.priority) else []) + st.List(q)
  {
    hide Pushed, TokensOf;
    var queued := Do(st, RequeueTask(row.id));
    assert queued.List(q) == st.List(q);
    PushedMeans(queued, row, q);
  }

  lemma PushedMeans(st: Store, row: RetryRow, q: Queue)
    ensures var st' := Pushed(st, row);
      && st'.tasks == st.tasks && st'.attempts == st.attempts && st'.now == st.now
      && st'.List(q) == (if q.Pending? then TokensOf([row], q.priority) else []) + st.List(q)
  {
    assert [row][1..] == [];
    if q.Pending? {
      assert TokensOf([row], q.priority) ==
        if row.priority == q.priority && Routable(q.priority) then [TokenOf(row.id, row.typ, q.priority)] else [];
    }
  }

  /** An undisturbed pump queues every task of its query, no other one, and pushes one token for
      each on the list of its priority. */
  lemma {:induction false} PumpRequeues(st: Store, rows: seq<RetryRow>, q: Queue)
    requires Retryable(st, rows)
    ensures var st' := Pumped(st, rows);
      && st'.tasks.Keys == st.tasks.Keys && st'.attempts == st.attempts && st'.now == st.now
      && (forall id :: id in st.tasks ==>
           st'.tasks[id] ==
             if Lists(rows, id) then st.tasks[id].(status := Queued, updatedAt := st.now) else st.tasks[id])
      && st'.List(q) == (if q.Pending? then TokensOf(rows, q.priority) else []) + st.List(q)
    ensures (forall i :: 0 <= i < |rows| ==> Routable(rows[i].priority)) ==> RequeuedCount(st, rows) == |rows|
    decreases |rows|
  {
    hide Retryable, PumpedRow, Lists, TokensOf, Do;
    if rows == [] {
      EmptyScan();
    } else {
      var st1 := PumpedRow(st, rows[0]);
      FirstRetryable(st, rows);
      PumpedRowMeans(st, rows[0], q);
      PumpRequeues(st1, rows[1..], q);
      ListsSplit(rows);
      TokensSplit(rows);
    }
  }

  lemma EmptyScan()
    ensures forall p :: TokensOf([], p) == []
    ensures forall id :: !Lists([], id)
  {
  }

  lemma TokensSplit(rows: seq<RetryRow>)
    requires rows != []
    ensures forall p :: TokensOf(rows, p) == TokensOf(rows[1..], p) + TokensOf([rows[0]], p)
  {
    assert [rows[0]][1..] == [];
  }

  lemma FirstRetryable(st: Store, rows: seq<RetryRow>)
    requires Retryable(st, rows) && rows != []
    ensures st.HasStatus(rows[0].id, Retry) && rows[0].attempts < rows[0].maxAttempts
    ensures !Lists(rows[1..], rows[0].id)
    ensures CountsAsRequeued(st, rows[0]) <==> Routable(rows[0].priority)
    ensures Retryable(PumpedRow(st, rows[0]), rows[1..])
  {
    PumpedRowMeans(st, rows[0], Processing);
  }

  lemma ListsSplit(rows: seq<RetryRow>)
    requires rows != []
    ensures forall id :: Lists(rows, id) <==> rows[0].id == id || Lists(rows[1..], id)
  {
    forall id | Lists(rows, id) && rows[0].id != id ensures Lists(rows[1..], id) {
      var i :| 0 <= i < |rows| && rows[i].id == id;
      assert rows[1..][i - 1].id == id;
    }
    forall id | Lists(rows[1..], id) ensures Lists(rows, id) {
      var i :| 0 <= i < |rows[1..]| && rows[1..][i].id == id;
      assert rows[i + 1].id == id;
    }
  }

  /** What the pump selects can always be requeued: its branch for used-up attempts is dead. */
  lemma BatchIsRetryable(st: Store, batch: seq<JobId>)
    requires RowsOk(st) && IsRetryBatch(st, batch)
    ensures Retryable(st, StartPlan(st, Pump(batch)).1.rows)
  {
    var rows := StartPlan(st, Pump(batch)).1.rows;
    forall i | 0 <= i < |rows| ensures st.HasStatus(rows[i].id, Retry) && rows[i].attempts < rows[i].maxAttempts {
      assert Due(st, batch[i]);
    }
  }

  lemma BatchLists(st: Store, batch: seq<JobId>, id: JobId)
    requires IsRetryBatch(st, batch)
    ensures Lists(StartPlan(st, Pump(batch)).1.rows, id) <==> id in batch
  {
    var rows := StartPlan(st, Pump(batch)).1.rows;
    if id in batch {
      var i :| 0 <= i < |batch| && batch[i] == id;
      assert rows[i].id == id;
    }
  }

  /** After an undisturbed pump no task is due any more, unless its query reached the limit, and
      every task of the query is queued. */
  lemma PumpLeavesNoneDue(st: Store, batch: seq<JobId>, id: JobId)
    requires RowsOk(st) && IsRetryBatch(st, batch)
    ensures var st' := Pumped(st, StartPlan(st, Pump(batch)).1.rows);
      && (id in batch ==> st'.HasStatus(id, Queued))
      && (id !in batch ==> st'.RowAt(id) == st.RowAt(id))
      && (Due(st', id) ==> |batch| == RETRY_LIMIT)
  {
    BatchIsRetryable(st, batch);
    PumpRequeues(st, StartPlan(st, Pump(batch)).1.rows, Processing);
    BatchLists(st, batch, id);
    assert id in batch ==> Due(st, id);
  }

  /** What a pump does to the tasks depends on the tasks and the clock alone. */
  lemma {:induction false} SameTasksPumped(st: Store, other: Store, rows: seq<RetryRow>)
    requires other.tasks == st.tasks && other.now == st.now
    ensures Pumped(other, rows).tasks == Pumped(st, rows).tasks && Pumped(other, rows).now == Pumped(st, rows).now
    decreases |rows|
  {
    if rows != [] {
      SameTasksPumped(PumpedRow(st, rows[0]), PumpedRow(other, rows[0]), rows[1..]);
    }
  }

  /** The law with the numbers written out: an undisturbed pump queues every task in status retry
      whose next_run_at has come, if there are fewer than a hundred of them in its query, and
      changes no other task. */
  lemma PumpLaw(st: Store, batch: seq<JobId>, id: JobId)
    requires RowsOk(st) && IsRetryBatch(st, batch) && id in st.tasks
    ensures var st', row := Pumped(st, StartPlan(st, Pump(batch)).1.rows), st.tasks[id];
      var due := row.status == Retry && row.nextRunAt.Some? && row.nextRunAt.value <= st.now;
      && id in st'.tasks && |batch| <= 100
      && (st'.tasks[id] == row || (due && st'.tasks[id] == row.(status := Queued, updatedAt := st.now)))
      && (due && |batch| < 100 ==> st'.tasks[id] == row.(status := Queued, updatedAt := st.now))
  {
    BatchIsRetryable(st, batch);
    PumpRequeues(st, StartPlan(st, Pump(batch)).1.rows, Processing);
    BatchLists(st, batch, id);
    assert id in batch ==> Due(st, id);
  }

  // ---------------------------------------------------------------- the reaper

  /** Answers of reads that all get through. */
  function Oks(n: nat): (answers: seq<Outcome>)
    ensures |answers| == n && forall i :: 0 <= i < n ==> answers[i] == Ok
  {
    seq(n, _ => Ok)
  }

  /** The items that recoverStuckJobs counts as recovered. */
  function RecoveredCount(st: Store, items: seq<Item>, answers: seq<Outcome>): nat
    requires |answers| == |items|
    decreases |items|
  {
    if items == [] then 0
    else
      (if Recoverable(st, items[0], answers[0]) then 1 else 0)
      + RecoveredCount(PassItem(st, items[0], answers[0]), items[1..], answers[1..])
  }
}

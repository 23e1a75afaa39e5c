/** The programs that share the stores, one command at a time: worker loops with their
    handler goroutines, submitters, cancellers, retry pumps and reapers, in any number. */
module Protocol {
  import opened Types
  import opened Stores
  import Backoff

  type ActorId = nat

  const STUCK_AFTER: int := 5 * 60 * Backoff.SECOND
  const RETRY_LIMIT: nat := 100

  /** What the pump's SELECT returns for one task. */
  datatype RetryRow = RetryRow(id: JobId, typ: string, priority: Priority,
                               attempts: int, maxAttempts: int)

  /** The position of a program between two commands; each constructor names what is next. */
  datatype Actor =
    // worker loop, then the handler goroutine
    | Popped(item: Item, source: Queue)                                  // parse and claim
    | PushBack(item: Item, source: Queue)                                // LPUSH the token back
    | Claimed(token: JobToken)                                           // InsertAttempt
    | Loading(token: JobToken)                                           // GetJobByID
    | LoadFailed(token: JobToken)                                        // markJobFailed
    | Executing(token: JobToken, job: Row)                               // executeHandler
    | MarkSucceeded(token: JobToken, job: Row)                           // markJobSucceeded
    | PushDead(token: JobToken, job: Row, error: string)                 // LPUSH on dlq:
    | MarkDead(token: JobToken, job: Row, error: string)                 // markJobDeadLetter
    | MarkRetry(token: JobToken, job: Row, error: string, nextRunAt: int) // markJobRetry
    | CloseOk(token: JobToken)                                           // UpdateAttemptOnSuccess
    | CloseFailed(token: JobToken, error: string)                        // UpdateAttemptOnFailure
    | Drop(item: Item)                                                   // LREM q:processing
    // SubmitJob
    | Submitting(id: JobId, row: Row)                                    // CreateJob
    | SubmitPush(id: JobId, row: Row)                                    // PushJob
    // CancelJob; stale records that the UPDATE met a row that was no longer queued
    | Cancelling(id: JobId, seen: Row)                                   // CancelJob UPDATE
    | CancelDrop(id: JobId, seen: Row, stale: bool)                      // LREM pending 0
    // processRetryJobs
    | PumpScan(rows: seq<RetryRow>)                                      // requeue the first row
    | PumpPush(due: RetryRow, rows: seq<RetryRow>)                       // PushJob
    // recoverStuckJobs
    | Reaping(items: seq<Item>)                                          // look at the first item
    | ReapMove(token: JobToken, items: seq<Item>)                        // LMOVE
    | ReapPush(token: JobToken, items: seq<Item>)                        // fallback LPUSH
    | ReapDrop(token: JobToken, items: seq<Item>)                        // LREM q:processing

  /** How the next command, or the handler, came out. A failed command changes nothing. */
  datatype Outcome = Ok | Err(message: string)

  datatype Start =
    | Pop(priority: Priority)
    | Submit(id: JobId, row: Row)
    | Cancel(id: JobId)
    | Pump(batch: seq<JobId>)
    | Reap

  datatype Sys = Sys(db: Store, actors: map<ActorId, Actor>)

  datatype Event =
    | Tick(elapsed: nat)
    | Begin(a: ActorId, start: Start)
    | Step(a: ActorId, outcome: Outcome)
    | Crash(a: ActorId)

  function TokenOf(id: JobId, typ: string, priority: Priority): JobToken {
    Token(id, typ, priority)
  }

  /** A row as SubmitJob writes it. */
  predicate NewRow(row: Row) {
    && row.status == Queued && row.attempts == 0
    && 1 <= row.maxAttempts <= 100
    && row.nextRunAt == None
  }

  predicate Terminal(s: Status) {
    s == Succeeded || s == Failed || s == DeadLetter || s == Cancelled
  }

  predicate Due(st: Store, id: JobId) {
    st.HasStatus(id, Retry) && st.tasks[id].nextRunAt.Some? && st.tasks[id].nextRunAt.value <= st.now
  }

  /** A result of the pump's SELECT: due tasks, earliest next_run_at first, at most 100,
      and no due task left out unless the limit is reached by earlier ones. */
  ghost predicate IsRetryBatch(st: Store, batch: seq<JobId>) {
    && |batch| <= RETRY_LIMIT
    && (forall i :: 0 <= i < |batch| ==> Due(st, batch[i]))
    && (forall i, j :: 0 <= i < j < |batch| ==>
         batch[i] != batch[j]
         && st.tasks[batch[i]].nextRunAt.value <= st.tasks[batch[j]].nextRunAt.value)
    && (forall id :: Due(st, id) && id !in batch ==>
         |batch| == RETRY_LIMIT
         && forall i :: 0 <= i < |batch| ==>
              st.tasks[batch[i]].nextRunAt.value <= st.tasks[id].nextRunAt.value)
  }

  function SnapshotOf(st: Store, id: JobId): RetryRow
    requires id in st.tasks
  {
    var row := st.tasks[id];
    RetryRow(id, row.typ, row.priority, row.attempts, row.maxAttempts)
  }

  // ---------------------------------------------------------------- control flow

  /** handleJobFailure up to its first command; attempts is at least 1 there, as Safety shows. */
  function FailurePath(st: Store, token: JobToken, job: Row, error: string): Actor {
    if job.attempts >= job.maxAttempts then PushDead(token, job, error)
    else MarkRetry(token, job, error,
                   st.now + if job.attempts >= 1 then Backoff.Delay(job.attempts) else 0)
  }

  /** What the reaper does with an item after reading the job's row; getting the row failed
      when row is not given. */
  function ReapChoice(st: Store, token: JobToken, rest: seq<Item>, read: Outcome): Actor {
    if read.Err? then ReapMove(token, rest)
    else if token.id !in st.tasks then ReapDrop(token, rest)
    else
      match st.tasks[token.id].status
      case Running =>
        if st.now - st.tasks[token.id].updatedAt > STUCK_AFTER then ReapMove(token, rest)
        else Reaping(rest)
      case Queued => ReapMove(token, rest)
      case Succeeded | Failed | Retry => ReapDrop(token, rest)
      case DeadLetter | Cancelled => Reaping(rest)
  }

  predicate OfApi(p: Actor) {
    p.Submitting? || p.SubmitPush? || p.Cancelling? || p.CancelDrop?
  }

  predicate OfPump(p: Actor) {
    p.PumpScan? || p.PumpPush?
  }

  predicate OfReaper(p: Actor) {
    p.Reaping? || p.ReapMove? || p.ReapPush? || p.ReapDrop?
  }

  predicate OfWorker(p: Actor) {
    !OfApi(p) && !OfPump(p) && !OfReaper(p)
  }

  /** One iteration of the loop of Start, with its goroutine. */
  function WorkerPlan(st: Store, p: Actor, c: Outcome): (Command, Option<Actor>)
    requires OfWorker(p)
  {
    match p
    case Popped(item, source) =>
      (match item
       case Malformed(_) => (if c.Ok? then Push(source, item) else NoOp, Some(Drop(item)))
       case BadId(_, _, _) => (if c.Ok? then Remove(Processing, item) else NoOp, None)
       case Token(id, _, _) =>
         if c.Err? then (NoOp, Some(PushBack(item, source)))
         else (ClaimTask(id), Some(if st.HasStatus(id, Queued) then Claimed(item) else Drop(item))))
    case PushBack(item, source) =>
      (if c.Ok? then Push(source, item) else NoOp, Some(Drop(item)))
    case Claimed(token) =>
      (if c.Ok? then InsertAttempt(token.id) else NoOp, Some(Loading(token)))
    case Loading(token) =>
      (NoOp, Some(if c.Err? then LoadFailed(token)
                  else if token.id in st.tasks then Executing(token, st.tasks[token.id])
                  else Drop(token)))
    case LoadFailed(token) =>
      (if c.Ok? then MarkTask(token.id, Failed, None) else NoOp, Some(Drop(token)))
    case Executing(token, job) =>
      (NoOp, Some(if c.Ok? then MarkSucceeded(token, job)
                  else FailurePath(st, token, job, c.message)))
    case MarkSucceeded(token, job) =>
      if c.Ok? then (MarkTask(token.id, Succeeded, None), Some(CloseOk(token)))
      else (NoOp, Some(Drop(token)))
    case PushDead(token, job, error) =>
      (if c.Ok? then Push(DeadLetters(job.priority), TokenOf(token.id, job.typ, job.priority)) else NoOp,
       Some(MarkDead(token, job, error)))
    case MarkDead(token, job, error) =>
      (if c.Ok? then MarkTask(token.id, DeadLetter, None) else NoOp, Some(CloseFailed(token, error)))
    case MarkRetry(token, job, error, next) =>
      (if c.Ok? then MarkTask(token.id, Retry, Some(next)) else NoOp, Some(CloseFailed(token, error)))
    case CloseOk(token) =>
      (if c.Ok? then CloseAttempts(token.id, true, None) else NoOp, Some(Drop(token)))
    case CloseFailed(token, error) =>
      (if c.Ok? then CloseAttempts(token.id, false, Some(error)) else NoOp, Some(Drop(token)))
    case Drop(item) =>
      (if c.Ok? then Remove(Processing, item) else NoOp, None)
  }

  /** SubmitJob and CancelJob after their first read. */
  function ApiPlan(st: Store, p: Actor, c: Outcome): (Command, Option<Actor>)
    requires OfApi(p)
  {
    match p
    case Submitting(id, row) =>
      (if c.Ok? then InsertTask(id, row) else NoOp,
       if c.Ok? && id !in st.tasks then Some(SubmitPush(id, row)) else None)
    case SubmitPush(id, row) =>
      (if c.Ok? && Routable(row.priority)
       then Push(Pending(row.priority), TokenOf(id, row.typ, row.priority)) else NoOp, None)

    case Cancelling(id, seen) =>
      (if c.Ok? then CancelTask(id) else NoOp,
       if c.Ok? && id in st.tasks && Cancellable(st.tasks[id].status) && seen.status == Queued
       then Some(CancelDrop(id, seen, st.tasks[id].status != Queued)) else None)
    case CancelDrop(id, seen, _) =>
      (if c.Ok? && Routable(seen.priority)
       then RemoveAll(Pending(seen.priority), TokenOf(id, seen.typ, seen.priority)) else NoOp, None)
  }

  /** processRetryJobs and requeueRetryJob. */
  function PumpPlan(st: Store, p: Actor, c: Outcome): (Command, Option<Actor>)
    requires OfPump(p)
  {
    match p
    case PumpScan(rows) =>
      if rows == [] then (NoOp, None)
      else
        var row, rest := rows[0], rows[1..];
        if row.attempts >= row.maxAttempts
        then (if c.Ok? then MarkTask(row.id, Failed, None) else NoOp, Some(PumpScan(rest)))
        else (if c.Ok? then RequeueTask(row.id) else NoOp,
              Some(if c.Ok? && st.HasStatus(row.id, Retry) then PumpPush(row, rest) else PumpScan(rest)))
    case PumpPush(row, rest) =>
      (if c.Ok? && Routable(row.priority)
       then Push(Pending(row.priority), TokenOf(row.id, row.typ, row.priority)) else NoOp,
       Some(PumpScan(rest)))
  }

  /** recoverStuckJobs and moveJobBackToQueue. */
  function ReaperPlan(st: Store, p: Actor, c: Outcome): (Command, Option<Actor>)
    requires OfReaper(p)
  {
    match p
    case Reaping(items) =>
      if items == [] then (NoOp, None)
      else
        var item, rest := items[0], items[1..];
        if !item.Token? || !Routable(item.priority)
        then (if c.Ok? then Remove(Processing, item) else NoOp, Some(Reaping(rest)))
        else (NoOp, Some(ReapChoice(st, item, rest, c)))
    case ReapMove(token, rest) =>
      if c.Ok? && st.List(Processing) != []
      then (MoveTail(Processing, Pending(token.priority)), Some(Reaping(rest)))
      else (NoOp, Some(ReapPush(token, rest)))
    case ReapPush(token, rest) =>
      (if c.Ok? then Push(Pending(token.priority), token) else NoOp, Some(ReapDrop(token, rest)))
    case ReapDrop(token, rest) =>
      (if c.Ok? then Remove(Processing, token) else NoOp, Some(Reaping(rest)))
  }

  /** The command an actor issues at its position and the position it goes on to. */
  function Plan(st: Store, p: Actor, c: Outcome): (Command, Option<Actor>) {
    if OfApi(p) then ApiPlan(st, p, c)
    else if OfPump(p) then PumpPlan(st, p, c)
    else if OfReaper(p) then ReaperPlan(st, p, c)
    else WorkerPlan(st, p, c)
  }

  ghost predicate CanStart(st: Store, start: Start) {
    match start
    case Pop(p) => Routable(p) && st.List(Pending(p)) != []
    case Submit(id, row) => id !in st.tasks && NewRow(row)
    case Cancel(id) => id in st.tasks && !Terminal(st.tasks[id].status)
    case Pump(batch) => IsRetryBatch(st, batch)
    case Reap => true
  }

  /** The first command of a program and its position after it. */
  ghost function StartPlan(st: Store, start: Start): (Command, Actor)
    requires CanStart(st, start)
  {
    match start
    case Pop(p) =>
      var items := st.List(Pending(p));
      (MoveTail(Pending(p), Processing), Popped(items[|items| - 1], Pending(p)))
    case Submit(id, row) => (NoOp, Submitting(id, row))
    case Cancel(id) => (NoOp, Cancelling(id, st.tasks[id]))
    case Pump(batch) =>
      (NoOp, PumpScan(seq(|batch|, i requires 0 <= i < |batch| => SnapshotOf(st, batch[i]))))
    case Reap => (NoOp, Reaping(st.List(Processing)))
  }

  // ---------------------------------------------------------------- runs

  function Put(actors: map<ActorId, Actor>, a: ActorId, p: Option<Actor>): map<ActorId, Actor> {
    if p.Some? then actors[a := p.value] else actors - {a}
  }

  ghost predicate Enabled(s: Sys, e: Event) {
    match e
    case Tick(_) => true
    case Begin(a, start) => a !in s.actors && CanStart(s.db, start)
    case Step(a, _) => a in s.actors
    case Crash(a) => a in s.actors
  }

  ghost function Apply(s: Sys, e: Event): Sys
    requires Enabled(s, e)
  {
    match e
    case Tick(elapsed) => s.(db := s.db.(now := s.db.now + elapsed))
    case Begin(a, start) =>
      var (cmd, p) := StartPlan(s.db, start);
      Sys(Do(s.db, cmd), Put(s.actors, a, Some(p)))
    case Step(a, c) =>
      var (cmd, p) := Plan(s.db, s.actors[a], c);
      Sys(Do(s.db, cmd), Put(s.actors, a, p))
    case Crash(a) => s.(actors := Put(s.actors, a, None))
  }

  /** No task, no program under way, no dead letter; other lists may hold anything. */
  ghost predicate Init(s: Sys) {
    && s.db.tasks == map[] && s.db.attempts == map[] && s.actors == map[]
    && forall p :: s.db.List(DeadLetters(p)) == []
  }

  ghost predicate IsRun(s: Sys, es: seq<Event>)
    decreases |es|
  {
    es == [] || (Enabled(s, es[0]) && IsRun(Apply(s, es[0]), es[1..]))
  }

  ghost function After(s: Sys, es: seq<Event>): Sys
    requires IsRun(s, es)
    decreases |es|
  {
    if es == [] then s else After(Apply(s, es[0]), es[1..])
  }

  lemma {:induction false} RunsCompose(s: Sys, es: seq<Event>, fs: seq<Event>)
    requires IsRun(s, es) && IsRun(After(s, es), fs)
    ensures IsRun(s, es + fs) && After(s, es + fs) == After(After(s, es), fs)
    decreases |es|
  {
    if es == [] {
      assert es + fs == fs;
    } else {
      assert (es + fs)[0] == es[0] && (es + fs)[1..] == es[1..] + fs;
      RunsCompose(Apply(s, es[0]), es[1..], fs);
    }
  }
}

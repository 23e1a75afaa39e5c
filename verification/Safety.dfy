/** What holds in every reachable state, whatever the interleaving, the failures of single
    commands and the crashes; and the refinement of Lifecycle by every step. */
module Safety {
  import opened Types
  import opened Stores
  import opened Protocol
  import opened Lifecycle

  /** The job an actor executes: from a successful claim up to the status write. */
  function ExecOf(p: Actor): Option<JobId> {
    match p
    case Claimed(t) => Some(t.id)
    case Loading(t) => Some(t.id)
    case LoadFailed(t) => Some(t.id)
    case Executing(t, _) => Some(t.id)
    case MarkSucceeded(t, _) => Some(t.id)
    case PushDead(t, _, _) => Some(t.id)
    case MarkDead(t, _, _) => Some(t.id)
    case MarkRetry(t, _, _, _) => Some(t.id)
    case _ => None
  }

  predicate Executes(p: Option<Actor>, id: JobId) {
    p.Some? && ExecOf(p.value) == Some(id)
  }

  ghost predicate Live(s: Sys, id: JobId) {
    exists a :: a in s.actors && ExecOf(s.actors[a]) == Some(id)
  }

  function LifeOf(row: Option<Row>, live: bool): Life {
    match row
    case None => Absent
    case Some(r) => Life(r.status, r.attempts, r.maxAttempts, live)
  }

  ghost function Abs(s: Sys, id: JobId): Life {
    LifeOf(s.db.RowAt(id), Live(s, id))
  }

  /** The columns no statement ever updates. */
  predicate SameFields(r: Row, r': Row) {
    r'.typ == r.typ && r'.priority == r.priority && r'.payload == r.payload
    && r'.maxAttempts == r.maxAttempts
  }

  /** What one actor's command may do to one row; mine tells whether the actor executes the job. */
  predicate RowMove(r: Option<Row>, r': Option<Row>, mine: bool, mine': bool) {
    && (r.Some? ==> r'.Some? && SameFields(r.value, r'.value) && r'.value.createdAt == r.value.createdAt)
    && ((r == r' && mine == mine') || LifeStep(LifeOf(r, mine), LifeOf(r', mine')))
  }

  predicate Snapshot(st: Store, id: JobId, job: Row) {
    id in st.tasks && SameFields(st.tasks[id], job) && job.attempts == st.tasks[id].attempts
  }

  predicate BeingExecuted(st: Store, id: JobId) {
    id in st.tasks && (st.tasks[id].status == Running || st.tasks[id].status == Cancelled)
    && st.tasks[id].attempts >= 1
  }

  predicate RefersTo(st: Store, row: RetryRow) {
    row.id in st.tasks && row.typ == st.tasks[row.id].typ && row.priority == st.tasks[row.id].priority
    && row.maxAttempts == st.tasks[row.id].maxAttempts && row.attempts < row.maxAttempts
  }

  /** What each position promises about the tables. */
  predicate ActorOk(st: Store, p: Actor) {
    match p
    case Popped(_, source) => source.Pending? && Routable(source.priority)
    case PushBack(_, source) => source.Pending? && Routable(source.priority)
    case Claimed(t) => BeingExecuted(st, t.id)
    case Loading(t) => BeingExecuted(st, t.id)
    case LoadFailed(t) => BeingExecuted(st, t.id)
    case Executing(t, job) => BeingExecuted(st, t.id) && Snapshot(st, t.id, job)
    case MarkSucceeded(t, job) => BeingExecuted(st, t.id) && Snapshot(st, t.id, job)
    case PushDead(t, job, _) =>
      BeingExecuted(st, t.id) && Snapshot(st, t.id, job) && job.attempts >= job.maxAttempts
    case MarkDead(t, job, _) =>
      BeingExecuted(st, t.id) && Snapshot(st, t.id, job) && job.attempts >= job.maxAttempts
    case MarkRetry(t, job, _, _) =>
      BeingExecuted(st, t.id) && Snapshot(st, t.id, job) && job.attempts < job.maxAttempts
    case Submitting(id, row) => NewRow(row)
    case SubmitPush(id, row) => id in st.tasks && SameFields(st.tasks[id], row)
    case Cancelling(id, seen) => id in st.tasks && SameFields(st.tasks[id], seen)
    case CancelDrop(id, seen, stale) =>
      id in st.tasks && SameFields(st.tasks[id], seen)
      && (!stale ==> st.tasks[id].status == Cancelled)
    case PumpScan(rows) => forall i :: 0 <= i < |rows| ==> RefersTo(st, rows[i])
    case PumpPush(row, rows) => RefersTo(st, row) && forall i :: 0 <= i < |rows| ==> RefersTo(st, rows[i])
    case ReapMove(t, _) => Routable(t.priority)
    case ReapPush(t, _) => Routable(t.priority)
    case ReapDrop(t, _) => Routable(t.priority)
    case _ => true
  }

  predicate FreshDrop(p: Actor, id: JobId) {
    p.CancelDrop? && p.id == id && !p.stale
  }

  ghost predicate RowsOk(st: Store) {
    forall id :: id in st.tasks ==> LifeOk(LifeOf(Some(st.tasks[id]), false))
  }

  ghost predicate OneExecutor(s: Sys) {
    forall a, b :: a in s.actors && b in s.actors ==>
      ExecOf(s.actors[a]).Some? && ExecOf(s.actors[a]) == ExecOf(s.actors[b]) ==> a == b
  }

  /** A job cancelled while queued has no executor. */
  ghost predicate FreshDropsQuiet(s: Sys) {
    forall a, b :: a in s.actors && b in s.actors ==>
      ExecOf(s.actors[b]).Some? ==> !FreshDrop(s.actors[a], ExecOf(s.actors[b]).value)
  }

  ghost predicate Inv(s: Sys) {
    && RowsOk(s.db)
    && (forall a :: a in s.actors ==> ActorOk(s.db, s.actors[a]))
    && OneExecutor(s)
    && FreshDropsQuiet(s)
  }

  // ---------------------------------------------------------------- one actor at a time

  predicate TouchesRow(cmd: Command, id: JobId) {
    match cmd
    case InsertTask(i, _) => i == id
    case ClaimTask(i) => i == id
    case MarkTask(i, _, _) => i == id
    case RequeueTask(i) => i == id
    case CancelTask(i) => i == id
    case _ => false
  }

  /** The status an executor may write. */
  predicate MayWrite(row: Row, status: Status) {
    match status
    case Succeeded | Failed => true
    case DeadLetter => row.attempts >= row.maxAttempts
    case Retry => row.attempts < row.maxAttempts
    case _ => false
  }

  /** When a position issues a command on a row, and what becomes of its execution. */
  predicate Sound(st: Store, p: Actor, cmd: Command, p': Option<Actor>, id: JobId) {
    var mine, mine' := Executes(Some(p), id), Executes(p', id);
    if !TouchesRow(cmd, id) then (mine' ==> mine) && (mine ==> id in st.tasks)
    else
      match cmd
      case InsertTask(_, row) => NewRow(row) && !mine && !mine'
      case ClaimTask(_) => !mine && (mine' <==> st.HasStatus(id, Queued))
      case MarkTask(_, status, _) => mine && !mine' && BeingExecuted(st, id) && MayWrite(st.tasks[id], status)
      case _ => !mine && !mine'
  }

  lemma WorkerIsSound(st: Store, p: Actor, c: Outcome, id: JobId)
    requires OfWorker(p) && ActorOk(st, p)
    ensures var (cmd, p') := WorkerPlan(st, p, c); Sound(st, p, cmd, p', id)
  {
  }

  lemma ApiIsSound(st: Store, p: Actor, c: Outcome, id: JobId)
    requires OfApi(p) && ActorOk(st, p)
    ensures var (cmd, p') := ApiPlan(st, p, c); Sound(st, p, cmd, p', id)
  {
  }

  lemma PumpIsSound(st: Store, p: Actor, c: Outcome, id: JobId)
    requires OfPump(p) && ActorOk(st, p)
    ensures var (cmd, p') := PumpPlan(st, p, c); Sound(st, p, cmd, p', id)
  {
  }

  lemma ReaperIsSound(st: Store, p: Actor, c: Outcome, id: JobId)
    requires OfReaper(p) && ActorOk(st, p)
    ensures var (cmd, p') := ReaperPlan(st, p, c); Sound(st, p, cmd, p', id)
  {
  }

  lemma PlanIsSound(st: Store, p: Actor, c: Outcome, id: JobId)
    requires ActorOk(st, p)
    ensures var (cmd, p') := Plan(st, p, c); Sound(st, p, cmd, p', id)
  {
    if OfWorker(p) {
      WorkerIsSound(st, p, c, id);
    } else if OfApi(p) {
      ApiIsSound(st, p, c, id);
    } else if OfPump(p) {
      PumpIsSound(st, p, c, id);
    } else {
      ReaperIsSound(st, p, c, id);
    }
  }

  lemma PlanMoves(st: Store, p: Actor, c: Outcome, id: JobId)
    requires RowsOk(st) && ActorOk(st, p)
    ensures var (cmd, p') := Plan(st, p, c);
      RowMove(st.RowAt(id), Do(st, cmd).RowAt(id), Executes(Some(p), id), Executes(p', id))
  {
    PlanIsSound(st, p, c, id);
    var (cmd, p') := Plan(st, p, c);
    SoundMoves(st, p, cmd, p', id);
  }

  lemma Untouched(st: Store, cmd: Command, id: JobId)
    requires !TouchesRow(cmd, id)
    ensures Do(st, cmd).RowAt(id) == st.RowAt(id)
  {
  }

  lemma SoundMoves(st: Store, p: Actor, cmd: Command, p': Option<Actor>, id: JobId)
    requires RowsOk(st) && Sound(st, p, cmd, p', id)
    ensures RowMove(st.RowAt(id), Do(st, cmd).RowAt(id), Executes(Some(p), id), Executes(p', id))
  {
    if !TouchesRow(cmd, id) {
      Untouched(st, cmd, id);
    } else {
      assert id in st.tasks ==> LifeOk(LifeOf(Some(st.tasks[id]), false));
      match cmd
      case InsertTask(_, row) =>
      case ClaimTask(_) =>
      case MarkTask(_, _, _) =>
      case RequeueTask(_) =>
      case CancelTask(_) =>
    }
  }

  lemma WorkerKeepsOwn(st: Store, p: Actor, c: Outcome)
    requires OfWorker(p) && RowsOk(st) && ActorOk(st, p)
    ensures var (cmd, p') := WorkerPlan(st, p, c);
      p'.Some? ==> ActorOk(Do(st, cmd), p'.value)
  {
  }

  lemma ApiKeepsOwn(st: Store, p: Actor, c: Outcome)
    requires OfApi(p) && ActorOk(st, p)
    ensures var (cmd, p') := ApiPlan(st, p, c);
      p'.Some? ==> ActorOk(Do(st, cmd), p'.value)
  {
  }

  lemma PumpKeepsOwn(st: Store, p: Actor, c: Outcome)
    requires OfPump(p) && ActorOk(st, p)
    ensures var (cmd, p') := PumpPlan(st, p, c);
      p'.Some? ==> ActorOk(Do(st, cmd), p'.value)
  {
  }

  lemma ReaperKeepsOwn(st: Store, p: Actor, c: Outcome)
    requires OfReaper(p) && ActorOk(st, p)
    ensures var (cmd, p') := ReaperPlan(st, p, c);
      p'.Some? ==> ActorOk(Do(st, cmd), p'.value)
  {
  }

  /** Steps of others keep what a position promises. */
  lemma OthersKeep(st: Store, st': Store, p: Actor, mover: Option<Actor>, moved: Option<Actor>)
    requires ActorOk(st, p)
    requires forall id :: RowMove(st.RowAt(id), st'.RowAt(id), Executes(mover, id), Executes(moved, id))
    requires ExecOf(p).Some? ==> !Executes(mover, ExecOf(p).value)
    requires p.CancelDrop? && !p.stale ==> !Executes(mover, p.id)
    ensures ActorOk(st', p)
    decreases p.PumpPush?
  {
    if p.PumpScan? {
      forall i | 0 <= i < |p.rows| ensures RefersTo(st', p.rows[i]) {
        var id := p.rows[i].id;
        assert RowMove(st.RowAt(id), st'.RowAt(id), Executes(mover, id), Executes(moved, id));
      }
    } else if p.PumpPush? {
      var id := p.due.id;
      assert RowMove(st.RowAt(id), st'.RowAt(id), Executes(mover, id), Executes(moved, id));
      OthersKeep(st, st', PumpScan(p.rows), mover, moved);
    } else if p.SubmitPush? || p.Cancelling? || p.CancelDrop? {
      assert RowMove(st.RowAt(p.id), st'.RowAt(p.id), Executes(mover, p.id), Executes(moved, p.id));
    } else if ExecOf(p).Some? {
      var id := ExecOf(p).value;
      assert RowMove(st.RowAt(id), st'.RowAt(id), Executes(mover, id), Executes(moved, id));
    }
  }

  // ---------------------------------------------------------------- one step of the system

  /** The position an event takes its actor from, and the one it leaves it in. */
  ghost function Mover(s: Sys, e: Event): Option<Actor>
    requires Enabled(s, e)
  {
    match e
    case Step(a, _) => Some(s.actors[a])
    case Crash(a) => Some(s.actors[a])
    case _ => None
  }

  ghost function Moved(s: Sys, e: Event): Option<Actor>
    requires Enabled(s, e)
  {
    match e
    case Begin(_, start) => Some(StartPlan(s.db, start).1)
    case Step(a, c) => Plan(s.db, s.actors[a], c).1
    case _ => None
  }

  lemma EventMoves(s: Sys, e: Event, id: JobId)
    requires Inv(s) && Enabled(s, e)
    ensures RowMove(s.db.RowAt(id), Apply(s, e).db.RowAt(id),
                    Executes(Mover(s, e), id), Executes(Moved(s, e), id))
  {
    match e
    case Step(a, c) => PlanMoves(s.db, s.actors[a], c, id);
    case Begin(_, start) => Untouched(s.db, StartPlan(s.db, start).0, id);
    case Crash(a) =>
    case Tick(_) =>
  }

  lemma StartOk(st: Store, start: Start)
    requires RowsOk(st) && CanStart(st, start)
    ensures var (cmd, p) := StartPlan(st, start); ActorOk(Do(st, cmd), p)
  {
    var (cmd, p) := StartPlan(st, start);
    forall id ensures Do(st, cmd).RowAt(id) == st.RowAt(id) {
      Untouched(st, cmd, id);
    }
    match start
    case Pump(batch) =>
      forall i | 0 <= i < |p.rows| ensures RefersTo(st, p.rows[i]) {
        assert Due(st, batch[i]);
        assert LifeOk(LifeOf(Some(st.tasks[batch[i]]), false));
      }
    case _ =>
  }

  lemma MovedOk(s: Sys, e: Event)
    requires Inv(s) && Enabled(s, e)
    ensures Moved(s, e).Some? ==> ActorOk(Apply(s, e).db, Moved(s, e).value)
  {
    match e
    case Begin(_, start) => StartOk(s.db, start);
    case Step(a, c) =>
      if OfWorker(s.actors[a]) {
        WorkerKeepsOwn(s.db, s.actors[a], c);
      } else if OfApi(s.actors[a]) {
        ApiKeepsOwn(s.db, s.actors[a], c);
      } else if OfPump(s.actors[a]) {
        PumpKeepsOwn(s.db, s.actors[a], c);
      } else {
        ReaperKeepsOwn(s.db, s.actors[a], c);
      }
    case _ =>
  }

  predicate ByActor(e: Event, a: ActorId) {
    !e.Tick? && e.a == a
  }

  /** An event changes the position of its own actor only. */
  lemma ActorsAfter(s: Sys, e: Event, a: ActorId)
    requires Enabled(s, e)
    ensures !ByActor(e, a) ==>
      (a in Apply(s, e).actors <==> a in s.actors)
      && (a in s.actors ==> Apply(s, e).actors[a] == s.actors[a])
    ensures ByActor(e, a) ==>
      (a in Apply(s, e).actors <==> Moved(s, e).Some?)
      && (a in Apply(s, e).actors ==> Apply(s, e).actors[a] == Moved(s, e).value)
  {
  }

  lemma InvStep(s: Sys, e: Event)
    requires Inv(s) && Enabled(s, e)
    ensures Inv(Apply(s, e))
  {
    var s' := Apply(s, e);
    forall id ensures RowMove(s.db.RowAt(id), s'.db.RowAt(id), Executes(Mover(s, e), id), Executes(Moved(s, e), id)) {
      EventMoves(s, e, id);
    }
    RowsStayOk(s, e);
    MovedOk(s, e);
    forall a | a in s'.actors ensures ActorOk(s'.db, s'.actors[a]) {
      ActorsAfter(s, e, a);
      if !ByActor(e, a) {
        OthersKeep(s.db, s'.db, s.actors[a], Mover(s, e), Moved(s, e));
      }
    }
    ExecutorsStayApart(s, e);
  }

  lemma MoverOk(s: Sys, e: Event, id: JobId)
    requires Inv(s) && Enabled(s, e)
    ensures LifeOk(LifeOf(s.db.RowAt(id), Executes(Mover(s, e), id)))
  {
    assert id in s.db.tasks ==> LifeOk(LifeOf(Some(s.db.tasks[id]), false));
    if Executes(Mover(s, e), id) {
      assert ActorOk(s.db, s.actors[e.a]);
    }
  }

  lemma RowsStayOk(s: Sys, e: Event)
    requires Inv(s) && Enabled(s, e)
    ensures RowsOk(Apply(s, e).db)
  {
    hide Enabled, Apply, Mover, Moved, Executes, ActorOk;
    var s' := Apply(s, e);
    forall id | id in s'.db.tasks ensures LifeOk(LifeOf(Some(s'.db.tasks[id]), false)) {
      EventMoves(s, e, id);
      MoverOk(s, e, id);
      var l := LifeOf(s.db.RowAt(id), Executes(Mover(s, e), id));
      var l' := LifeOf(s'.db.RowAt(id), Executes(Moved(s, e), id));
      if l != l' {
        StepKeepsOk(l, l');
      }
    }
  }

  lemma OnlyQueuedGains(s: Sys, e: Event, id: JobId)
    requires Inv(s) && Enabled(s, e)
    requires Executes(Moved(s, e), id) && !Executes(Mover(s, e), id)
    ensures s.db.HasStatus(id, Queued)
  {
    EventMoves(s, e, id);
  }

  lemma OnlyQueuedDrops(s: Sys, e: Event, id: JobId)
    requires Enabled(s, e)
    requires Moved(s, e).Some? && FreshDrop(Moved(s, e).value, id)
    ensures s.db.HasStatus(id, Queued)
  {
  }

  lemma QueuedIsQuiet(s: Sys, id: JobId, b: ActorId)
    requires Inv(s) && s.db.HasStatus(id, Queued) && b in s.actors
    ensures !Executes(Some(s.actors[b]), id) && !FreshDrop(s.actors[b], id)
  {
    assert ActorOk(s.db, s.actors[b]);
  }

  lemma ExecutorsStayApart(s: Sys, e: Event)
    requires Inv(s) && Enabled(s, e)
    ensures OneExecutor(Apply(s, e)) && FreshDropsQuiet(Apply(s, e))
  {
    var s' := Apply(s, e);
    forall a, b | a in s'.actors && b in s'.actors
      ensures ExecOf(s'.actors[b]).Some? ==>
        (ExecOf(s'.actors[a]) == ExecOf(s'.actors[b]) ==> a == b)
        && !FreshDrop(s'.actors[a], ExecOf(s'.actors[b]).value)
    {
      if ExecOf(s'.actors[b]).Some? {
        PairStaysApart(s, e, a, b, ExecOf(s'.actors[b]).value);
      }
    }
  }

  lemma PairStaysApart(s: Sys, e: Event, a: ActorId, b: ActorId, id: JobId)
    requires Inv(s) && Enabled(s, e)
    requires a in Apply(s, e).actors && b in Apply(s, e).actors
    requires ExecOf(Apply(s, e).actors[b]) == Some(id)
    ensures ExecOf(Apply(s, e).actors[a]) == Some(id) ==> a == b
    ensures !FreshDrop(Apply(s, e).actors[a], id)
  {
    ActorsAfter(s, e, a);
    ActorsAfter(s, e, b);
    if a == b || (!ByActor(e, a) && !ByActor(e, b)) {
    } else if ByActor(e, b) {
      if !Executes(Mover(s, e), id) {
        OnlyQueuedGains(s, e, id);
        QueuedIsQuiet(s, id, a);
      }
    } else {
      if Executes(Moved(s, e), id) && !Executes(Mover(s, e), id) {
        OnlyQueuedGains(s, e, id);
        QueuedIsQuiet(s, id, b);
      }
      if FreshDrop(Moved(s, e).value, id) {
        OnlyQueuedDrops(s, e, id);
        QueuedIsQuiet(s, id, b);
      }
    }
  }

  /** The event on which a claim of the job succeeds. */
  ghost predicate Claims(s: Sys, e: Event, id: JobId)
    requires Enabled(s, e)
  {
    Executes(Moved(s, e), id) && !Executes(Mover(s, e), id)
  }

  function AttemptsOf(st: Store, id: JobId): int {
    if id in st.tasks then st.tasks[id].attempts else 0
  }

  /** Attempts count the claims. */
  lemma AttemptsCount(s: Sys, e: Event, id: JobId)
    requires Inv(s) && Enabled(s, e)
    ensures AttemptsOf(Apply(s, e).db, id) == AttemptsOf(s.db, id) + if Claims(s, e, id) then 1 else 0
  {
    hide Inv, Apply;
    EventMoves(s, e, id);
    if Claims(s, e, id) {
      OnlyQueuedGains(s, e, id);
    }
  }
}

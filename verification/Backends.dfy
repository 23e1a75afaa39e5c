/** The shared stores as one mutable object, with a method per SQL statement and per Redis
    command, and the other programs as interference between two commands. */
module Backends {
  import opened Types
  import opened Stores
  import opened Protocol
  import opened Safety
  import opened Outcomes

  ghost predicate Reaches(s: Sys, s': Sys) {
    exists es :: IsRun(s, es) && After(s, es) == s'
  }

  /** Reached without a move of program a. */
  ghost predicate OthersReach(s: Sys, s': Sys, a: ActorId) {
    exists es :: IsRun(s, es) && After(s, es) == s' && NoneBy(es, a)
  }

  predicate NoneBy(es: seq<Event>, a: ActorId) {
    forall i :: 0 <= i < |es| ==> !ByActor(es[i], a)
  }

  lemma ReachesSelf(s: Sys)
    ensures Reaches(s, s)
  {
    assert IsRun(s, []) && After(s, []) == s;
  }

  lemma ReachesTrans(s: Sys, s1: Sys, s2: Sys)
    requires Reaches(s, s1) && Reaches(s1, s2)
    ensures Reaches(s, s2)
  {
    var es :| IsRun(s, es) && After(s, es) == s1;
    var fs :| IsRun(s1, fs) && After(s1, fs) == s2;
    RunsCompose(s, es, fs);
  }

  lemma ReachesStep(s: Sys, e: Event)
    requires Enabled(s, e)
    ensures Reaches(s, Apply(s, e))
  {
    var es := [e];
    assert es[0] == e && es[1..] == [];
    assert IsRun(Apply(s, e), es[1..]) && After(Apply(s, e), es[1..]) == Apply(s, e);
    assert IsRun(s, es) && After(s, es) == Apply(s, e);
  }

  lemma ReachableInv(s: Sys, s': Sys)
    requires Inv(s) && Reaches(s, s')
    ensures Inv(s')
  {
    var es :| IsRun(s, es) && After(s, es) == s';
    InvRun(s, es);
  }

  lemma {:induction false} OthersRunKeeps(s: Sys, es: seq<Event>, a: ActorId)
    requires IsRun(s, es) && NoneBy(es, a)
    ensures a in After(s, es).actors <==> a in s.actors
    ensures a in s.actors ==> After(s, es).actors[a] == s.actors[a]
    decreases |es|
  {
    if es != [] {
      assert !ByActor(es[0], a);
      ActorsAfter(s, es[0], a);
      assert NoneBy(es[1..], a) by {
        forall i | 0 <= i < |es[1..]| ensures !ByActor(es[1..][i], a) {
          assert es[1..][i] == es[i + 1];
        }
      }
      OthersRunKeeps(Apply(s, es[0]), es[1..], a);
    }
  }

  /** Without drops the item at the first place that holds it. */
  lemma {:induction false} WithoutAt(items: seq<Item>, item: Item, i: nat)
    requires i <= |items| && (forall k :: 0 <= k < i ==> items[k] != item)
    requires i < |items| ==> items[i] == item
    ensures Without(items, item) == if i < |items| then items[..i] + items[i + 1..] else items
  {
    if i > 0 {
      var rest := items[1..];
      WithoutAt(rest, item, i - 1);
      assert items == [items[0]] + rest;
      assert i < |items| ==> [items[0]] + (rest[..i - 1] + rest[i..]) == items[..i] + items[i + 1..];
    }
  }

  lemma {:induction false} WithoutAllSnoc(items: seq<Item>, last: Item, item: Item)
    ensures WithoutAll(items + [last], item)
         == WithoutAll(items, item) + if last == item then [] else [last]
  {
    if items == [] {
      assert [last][1..] == [];
    } else {
      assert (items + [last])[1..] == items[1..] + [last];
      WithoutAllSnoc(items[1..], last, item);
    }
  }

  /** The scan of LREM key 1. */
  method RemoveFirst(items: seq<Item>, item: Item) returns (r: seq<Item>)
    ensures r == Without(items, item)
  {
    var i := 0;
    while i < |items| && items[i] != item
      invariant 0 <= i <= |items|
      invariant forall k :: 0 <= k < i ==> items[k] != item
    {
      i := i + 1;
    }
    WithoutAt(items, item, i);
    r := if i < |items| then items[..i] + items[i + 1..] else items;
  }

  /** The scan of LREM key 0. */
  method RemoveEvery(items: seq<Item>, item: Item) returns (r: seq<Item>)
    ensures r == WithoutAll(items, item)
    ensures item !in r && forall v :: v != item ==> multiset(r)[v] == multiset(items)[v]
  {
    r := [];
    var i := 0;
    while i < |items|
      invariant 0 <= i <= |items|
      invariant r == WithoutAll(items[..i], item)
      invariant item !in r && forall v :: v != item ==> multiset(r)[v] == multiset(items[..i])[v]
    {
      assert items[..i + 1] == items[..i] + [items[i]];
      WithoutAllSnoc(items[..i], items[i], item);
      if items[i] != item {
        r := r + [items[i]];
      }
      i := i + 1;
    }
    assert items[..i] == items;
  }

  /** The law of the pump's query, with its limit written out: the earliest due tasks first, at most
      a hundred, and all of them if there are fewer. */
  lemma BatchLaw(st: Store, batch: seq<JobId>)
    requires IsRetryBatch(st, batch)
    ensures |batch| <= 100
    ensures forall i :: 0 <= i < |batch| ==>
      && batch[i] in st.tasks && st.tasks[batch[i]].status == Retry
      && st.tasks[batch[i]].nextRunAt.Some? && st.tasks[batch[i]].nextRunAt.value <= st.now
    ensures forall i, j :: 0 <= i < j < |batch| ==>
      batch[i] != batch[j] && st.tasks[batch[i]].nextRunAt.value <= st.tasks[batch[j]].nextRunAt.value
    ensures |batch| < 100 ==> forall id :: id in st.tasks && id !in batch ==>
      st.tasks[id].status == Retry && st.tasks[id].nextRunAt.Some? ==> st.tasks[id].nextRunAt.value > st.now
  {
    forall id | id in st.tasks && id !in batch && |batch| < 100
      ensures st.tasks[id].status == Retry && st.tasks[id].nextRunAt.Some? ==> st.tasks[id].nextRunAt.value > st.now
    {
      assert !Due(st, id);
    }
  }

  /** The open rows have got that finish, the others are as they were. */
  predicate Closes(log: seq<Attempt>, log': seq<Attempt>, finish: Finish) {
    |log'| == |log|
    && forall i :: 0 <= i < |log| ==>
         log'[i] == Attempt(log[i].startedAt,
                            if log[i].finished.None? then Some(finish) else log[i].finished)
  }

  class Backend {
    var tasks: map<JobId, Row>
    var attempts: map<JobId, seq<Attempt>>
    var lists: map<Queue, seq<Item>>
    var now: int
    /** Whether nobody else moves and nobody is told to stop; otherwise both may happen at any
        time. */
    const alone: bool
    /** Whether every SQL statement gets through; otherwise each of them may fail. */
    const sqlUp: bool
    /** Whether every Redis command gets through; otherwise each of them may fail. */
    const redisUp: bool
    ghost var actors: map<ActorId, Actor>

    predicate Quiet() {
      alone && sqlUp && redisUp
    }

    function Db(): Store
      reads this
    {
      Store(tasks, attempts, lists, now)
    }

    ghost function State(): Sys
      reads this
    {
      Sys(Db(), actors)
    }

    /** Whether the database carries out a statement. */
    method Executed() returns (ok: bool)
      ensures sqlUp ==> ok
    {
      ok := *;
      ok := ok || sqlUp;
    }

    /** Whether Redis carries out a command. */
    method Connected() returns (ok: bool)
      ensures redisUp ==> ok
    {
      ok := *;
      ok := ok || redisUp;
    }

    // -------------------------------------------------------------- internal/db/jobs.go

    /** SELECT ... WHERE task_id = $1. */
    method GetJobByID(id: JobId) returns (r: Result<Option<Row>>)
      ensures r.Success? ==> r.value == if id in tasks then Some(tasks[id]) else None
      ensures sqlUp ==> r.Success?
    {
      var ok := Executed();
      if !ok {
        return Failure(Internal);
      }
      r := Success(if id in tasks then Some(tasks[id]) else None);
    }

    method JobExists(id: JobId) returns (r: Result<bool>)
      ensures r.Success? ==> (r.value <==> id in tasks)
      ensures sqlUp ==> r.Success?
    {
      var ok := Executed();
      if !ok {
        return Failure(Internal);
      }
      r := Success(id in tasks);
    }

    /** INSERT ... ON CONFLICT DO NOTHING; the value says whether the task was there before. */
    method CreateJob(id: JobId, row: Row) returns (r: Result<bool>)
      modifies this`tasks
      ensures Db() == Do(old(Db()), if r.Success? then InsertTask(id, row) else NoOp)
      ensures r.Success? ==> (r.value <==> id in old(tasks))
      ensures tasks ==
        if r == Success(false) then old(tasks)[id := row.(createdAt := now, updatedAt := now)] else old(tasks)
      ensures sqlUp ==> r.Success?
    {
      var ok := Executed();
      if !ok {
        return Failure(Internal);
      }
      if id in tasks {
        return Success(true);
      }
      tasks := tasks[id := row.(createdAt := now, updatedAt := now)];
      r := Success(false);
    }

    /** UPDATE ... SET status = 'cancelled' WHERE status IN ('queued', 'running'). */
    method CancelJob(id: JobId) returns (r: Result<bool>)
      modifies this`tasks
      ensures Db() == Do(old(Db()), if r.Success? then CancelTask(id) else NoOp)
      ensures r.Success? ==>
        (r.value <==> id in old(tasks) && (old(tasks)[id].status == Queued || old(tasks)[id].status == Running))
      ensures tasks ==
        if r == Success(true) then old(tasks)[id := old(tasks)[id].(status := Cancelled, updatedAt := now)]
        else old(tasks)
      ensures sqlUp ==> r.Success?
    {
      var ok := Executed();
      if !ok {
        return Failure(Internal);
      }
      if id in tasks && (tasks[id].status == Queued || tasks[id].status == Running) {
        tasks := tasks[id := tasks[id].(status := Cancelled, updatedAt := now)];
        return Success(true);
      }
      r := Success(false);
    }

    // -------------------------------------------------------------- internal/db/attempts.go

    method InsertAttempt(id: JobId) returns (ok: bool)
      modifies this`attempts
      ensures Db() == Do(old(Db()), if ok then Command.InsertAttempt(id) else NoOp)
      ensures sqlUp ==> (ok <==> AttemptFits(old(Db()), id))
      ensures attempts == if ok then old(attempts)[id := old(Db()).Log(id) + [Attempt(now, None)]] else old(attempts)
    {
      ok := Executed();
      ok := ok && AttemptFits(Db(), id);
      if ok {
        attempts := attempts[id := Db().Log(id) + [Attempt(now, None)]];
      }
    }

    method UpdateAttemptOnSuccess(id: JobId) returns (ok: bool)
      modifies this`attempts
      ensures Db() == Do(old(Db()), if ok then CloseAttempts(id, true, None) else NoOp)
      ensures ok ==> Closes(old(Db()).Log(id), Db().Log(id), Finish(now, true, None))
      ensures sqlUp ==> ok
    {
      ok := Executed();
      if ok {
        CloseOpenRows(id, Finish(now, true, None));
      }
    }

    method UpdateAttemptOnFailure(id: JobId, error: string) returns (ok: bool)
      modifies this`attempts
      ensures Db() == Do(old(Db()), if ok then CloseAttempts(id, false, Some(error)) else NoOp)
      ensures ok ==> Closes(old(Db()).Log(id), Db().Log(id), Finish(now, false, Some(error)))
      ensures sqlUp ==> ok
    {
      ok := Executed();
      if ok {
        CloseOpenRows(id, Finish(now, false, Some(error)));
      }
    }

    /** UPDATE task_attempts ... WHERE task_id = $1 AND finished_at IS NULL, row by row. */
    method CloseOpenRows(id: JobId, finish: Finish)
      modifies this`attempts
      ensures attempts == old(attempts)[id := CloseOpen(old(Db()).Log(id), finish)]
    {
      var log := Db().Log(id);
      var i := 0;
      while i < |log|
        invariant 0 <= i <= |log| == |old(Db()).Log(id)|
        invariant forall k :: 0 <= k < |log| ==>
          log[k] == if k < i && old(Db()).Log(id)[k].finished.None?
                    then old(Db()).Log(id)[k].(finished := Some(finish)) else old(Db()).Log(id)[k]
      {
        if log[i].finished.None? {
          log := log[i := log[i].(finished := Some(finish))];
        }
        i := i + 1;
      }
      assert log == CloseOpen(old(Db()).Log(id), finish);
      attempts := attempts[id := log];
    }

    // -------------------------------------------------------------- statements of the worker

    /** claimJob's UPDATE ... WHERE status = 'queued' RETURNING task_id. */
    method ClaimTask(id: JobId) returns (r: Result<bool>)
      modifies this`tasks
      ensures Db() == Do(old(Db()), if r.Success? then Command.ClaimTask(id) else NoOp)
      ensures r.Success? ==> (r.value <==> old(Db()).HasStatus(id, Queued))
      ensures tasks ==
        if r == Success(true) then
          old(tasks)[id :=
            old(tasks)[id].(status := Running, attempts := old(tasks)[id].attempts + 1, updatedAt := now)]
        else old(tasks)
      ensures sqlUp ==> r.Success?
    {
      var ok := Executed();
      if !ok {
        return Failure(Internal);
      }
      if id in tasks && tasks[id].status == Queued {
        tasks := tasks[id := tasks[id].(status := Running, attempts := tasks[id].attempts + 1, updatedAt := now)];
        return Success(true);
      }
      r := Success(false);
    }

    /** The unconditional UPDATE of markJobSucceeded, markJobFailed, markJobDeadLetter and
        markJobRetry. */
    method MarkTask(id: JobId, status: Status, next: Option<int>) returns (ok: bool)
      modifies this`tasks
      ensures Db() == Do(old(Db()), if ok then Command.MarkTask(id, status, next) else NoOp)
      ensures !ok || id !in old(tasks) ==> tasks == old(tasks)
      ensures ok && id in old(tasks) ==>
        tasks == old(tasks)[id :=
          old(tasks)[id].(status := status, updatedAt := now,
                          nextRunAt := if next.Some? then next else old(tasks)[id].nextRunAt)]
      ensures sqlUp ==> ok
    {
      ok := Executed();
      if ok && id in tasks {
        var row := tasks[id].(status := status, updatedAt := now);
        tasks := tasks[id := if next.Some? then row.(nextRunAt := next) else row];
      }
    }

    /** requeueRetryJob's UPDATE ... WHERE status = 'retry' RETURNING task_id. */
    method RequeueTask(id: JobId) returns (r: Result<bool>)
      modifies this`tasks
      ensures Db() == Do(old(Db()), if r.Success? then Command.RequeueTask(id) else NoOp)
      ensures r.Success? ==> (r.value <==> old(Db()).HasStatus(id, Retry))
      ensures tasks ==
        if r == Success(true) then old(tasks)[id := old(tasks)[id].(status := Queued, updatedAt := now)]
        else old(tasks)
      ensures sqlUp ==> r.Success?
    {
      var ok := Executed();
      if !ok {
        return Failure(Internal);
      }
      if id in tasks && tasks[id].status == Retry {
        tasks := tasks[id := tasks[id].(status := Queued, updatedAt := now)];
        return Success(true);
      }
      r := Success(false);
    }

    // -------------------------------------------------------------- Redis

    method LPush(q: Queue, item: Item) returns (ok: bool)
      modifies this`lists
      ensures Db() == Do(old(Db()), if ok then Push(q, item) else NoOp)
      ensures lists == if ok then old(lists)[q := [item] + old(Db()).List(q)] else old(lists)
      ensures redisUp ==> ok
    {
      ok := Connected();
      if ok {
        lists := lists[q := [item] + Db().List(q)];
      }
    }

    /** LREM key 1 item: scans from the left and drops the first match. */
    method LRem(q: Queue, item: Item) returns (ok: bool)
      modifies this`lists
      ensures Db() == Do(old(Db()), if ok then Remove(q, item) else NoOp)
      ensures redisUp ==> ok
    {
      ok := Connected();
      if ok {
        var items := RemoveFirst(Db().List(q), item);
        lists := lists[q := items];
      }
    }

    /** LREM key 0 item: drops every match. */
    method LRemAll(q: Queue, item: Item) returns (ok: bool)
      modifies this`lists
      ensures Db() == Do(old(Db()), if ok then RemoveAll(q, item) else NoOp)
      ensures redisUp ==> ok
    {
      ok := Connected();
      if ok {
        var items := RemoveEvery(Db().List(q), item);
        lists := lists[q := items];
      }
    }

    /** LMOVE source target RIGHT LEFT, and BRPOPLPUSH; an empty source answers nil. */
    method MoveTail(source: Queue, target: Queue) returns (moved: Option<Item>)
      modifies this`lists
      ensures Db() == Do(old(Db()), if moved.Some? then Command.MoveTail(source, target) else NoOp)
      ensures moved.Some? ==>
        old(Db()).List(source) != []
        && moved.value == old(Db()).List(source)[|old(Db()).List(source)| - 1]
      ensures redisUp && old(Db()).List(source) != [] ==> moved.Some?
      ensures source != target && moved.Some? ==>
        var items := old(Db()).List(source);
        lists == old(lists)[source := items[..|items| - 1]][target := [moved.value] + old(Db()).List(target)]
    {
      var ok := Connected();
      var items := Db().List(source);
      if !ok || items == [] {
        return None;
      }
      lists := lists[source := items[..|items| - 1]];
      lists := lists[target := [items[|items| - 1]] + Db().List(target)];
      moved := Some(items[|items| - 1]);
    }

    /** PushJob: routes the token of a job to the pending list of its priority. */
    method PushJob(id: JobId, typ: string, priority: Priority) returns (ok: bool)
      modifies this`lists
      ensures Db() == Do(old(Db()), if ok then Push(Pending(priority), TokenOf(id, typ, priority)) else NoOp)
      ensures ok ==> priority == Critical || priority == High || priority == Default || priority == Low
      ensures lists ==
        if ok then old(lists)[Pending(priority) := [Token(id, typ, priority)] + old(Db()).List(Pending(priority))]
        else old(lists)
      ensures redisUp && Routable(priority) ==> ok
    {
      var queue := QueueOf(priority);
      if queue == None {
        return false;
      }
      ok := LPush(queue.value, Token(id, typ, priority));
    }

    // -------------------------------------------------------------- the pump's SELECT

    /** The due task with the earliest next_run_at. */
    method EarliestDue(ids: set<JobId>) returns (first: JobId)
      requires ids != {} && forall id :: id in ids ==> Due(Db(), id)
      ensures first in ids
      ensures forall id :: id in ids ==>
        Due(Db(), first) && Due(Db(), id) && tasks[first].nextRunAt.value <= tasks[id].nextRunAt.value
    {
      first :| first in ids;
      var rest := ids - {first};
      while rest != {}
        invariant rest <= ids && first in ids
        invariant forall id :: id in ids && id !in rest ==> tasks[first].nextRunAt.value <= tasks[id].nextRunAt.value
        decreases |rest|
      {
        var id :| id in rest;
        if tasks[id].nextRunAt.value < tasks[first].nextRunAt.value {
          first := id;
        }
        rest := rest - {id};
      }
    }

    /** WHERE status = 'retry' AND next_run_at <= now() ORDER BY next_run_at LIMIT 100. */
    method SelectDue() returns (batch: seq<JobId>)
      ensures IsRetryBatch(Db(), batch)
    {
      batch := [];
      var rest := set id | id in tasks && tasks[id].status == Retry
                           && tasks[id].nextRunAt.Some? && tasks[id].nextRunAt.value <= now;
      while rest != {} && |batch| < RETRY_LIMIT
        invariant |batch| <= RETRY_LIMIT
        invariant forall id :: Due(Db(), id) <==> id in batch || id in rest
        invariant forall i :: 0 <= i < |batch| ==> batch[i] !in rest
        invariant forall i, j :: 0 <= i < j < |batch| ==>
          batch[i] != batch[j] && tasks[batch[i]].nextRunAt.value <= tasks[batch[j]].nextRunAt.value
        invariant forall i, id :: 0 <= i < |batch| && id in rest ==>
          tasks[batch[i]].nextRunAt.value <= tasks[id].nextRunAt.value
        decreases |rest|
      {
        var id := EarliestDue(rest);
        batch := batch + [id];
        rest := rest - {id};
      }
    }

    /** The rows of processRetryJobs' query. */
    method QueryDue() returns (r: Result<seq<RetryRow>>, ghost batch: seq<JobId>)
      ensures IsRetryBatch(Db(), batch)
      ensures r.Success? ==> r.value == StartPlan(Db(), Pump(batch)).1.rows
      ensures sqlUp ==> r.Success?
    {
      var ids := SelectDue();
      batch := ids;
      var ok := Executed();
      if !ok {
        return Failure(Internal), batch;
      }
      var rows := [];
      var i := 0;
      while i < |ids|
        invariant 0 <= i <= |ids| && |rows| == i
        invariant forall k :: 0 <= k < i ==> ids[k] in tasks && rows[k] == SnapshotOf(Db(), ids[k])
      {
        rows := rows + [SnapshotOf(Db(), ids[i])];
        i := i + 1;
      }
      r := Success(rows);
    }

    // -------------------------------------------------------------- interleaving

    /** Program a is at position p, in a state reached from start. */
    ghost predicate At(a: ActorId, p: Actor, start: Sys)
      reads this
    {
      Inv(State()) && Reaches(start, State()) && a in actors && actors[a] == p
    }

    /** Program a is not under way. */
    ghost predicate Away(a: ActorId, start: Sys)
      reads this
    {
      Inv(State()) && Reaches(start, State()) && a !in actors
    }

    /** Any number of steps of other programs; the caller learns no more than that. */
    method Interfere(ghost a: ActorId)
      requires Inv(State())
      modifies this
      ensures OthersReach(old(State()), State(), a)
      ensures alone ==> State() == old(State())
    {
      assert IsRun(State(), []) && After(State(), []) == State() && NoneBy([], a);
    }

    /** Interference for a program that has come from start. */
    method Others(ghost a: ActorId, ghost start: Sys)
      requires Inv(State()) && Reaches(start, State())
      modifies this
      ensures Inv(State()) && Reaches(start, State())
      ensures a in actors <==> a in old(actors)
      ensures a in actors ==> actors[a] == old(actors)[a]
      ensures old(tasks).Keys <= tasks.Keys
      ensures alone ==> State() == old(State())
    {
      ghost var here := State();
      Interfere(a);
      ghost var es :| IsRun(here, es) && After(here, es) == State() && NoneBy(es, a);
      forall id | id in old(tasks) ensures id in tasks {
        RowsPersist(here, es, id);
      }
      OthersRunKeeps(here, es, a);
      assert Reaches(here, State());
      ReachesTrans(start, here, State());
      ReachableInv(here, State());
    }

    /** Program a has just issued the command of its position, with outcome c, in state before:
        it moves on, and then the others do. */
    method Proceed(ghost a: ActorId, ghost c: Outcome, ghost before: Sys, ghost start: Sys)
      requires Inv(before) && Reaches(start, before)
      requires a in before.actors && actors == before.actors
      requires Db() == Do(before.db, Plan(before.db, before.actors[a], c).0)
      modifies this
      ensures var p := Plan(before.db, before.actors[a], c).1;
        if p.Some? then At(a, p.value, start) else Away(a, start)
      ensures Reaches(Apply(before, Step(a, c)), State())
      ensures old(tasks).Keys <= tasks.Keys
      ensures alone ==> Db() == old(Db())
    {
      actors := Put(actors, a, Plan(before.db, before.actors[a], c).1);
      assert State() == Apply(before, Step(a, c));
      ghost var moved := State();
      InvStep(before, Step(a, c));
      ReachesStep(before, Step(a, c));
      ReachesTrans(start, before, moved);
      ReachesSelf(moved);
      Others(a, moved);
      ReachesTrans(start, moved, State());
    }

    /** Program a has just issued the first command of start in state before. */
    method Launch(ghost a: ActorId, ghost first: Start, ghost before: Sys, ghost start: Sys)
      requires Inv(before) && Reaches(start, before)
      requires a !in before.actors && actors == before.actors && CanStart(before.db, first)
      requires Db() == Do(before.db, StartPlan(before.db, first).0)
      modifies this
      ensures At(a, StartPlan(before.db, first).1, start)
      ensures old(tasks).Keys <= tasks.Keys
      ensures alone ==> Db() == old(Db())
    {
      actors := Put(actors, a, Some(StartPlan(before.db, first).1));
      assert State() == Apply(before, Begin(a, first));
      InvStep(before, Begin(a, first));
      ReachesStep(before, Begin(a, first));
      ReachesTrans(start, before, State());
      Others(a, start);
    }

    /** Program a stops where it is. */
    ghost method Stop(a: ActorId, start: Sys)
      requires Inv(State()) && Reaches(start, State()) && a in actors
      modifies this`actors
      ensures Away(a, start)
    {
      var before := State();
      actors := Put(actors, a, None);
      InvStep(before, Event.Crash(a));
      ReachesStep(before, Event.Crash(a));
      ReachesTrans(start, before, State());
    }
  }
}

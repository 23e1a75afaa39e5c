/** Theorems about whole runs: exclusion, budget, refinement, absorption and termination. */
module Outcomes {
  import opened Types
  import opened Stores
  import opened Protocol
  import opened Lifecycle
  import opened Safety

  lemma InitInv(s: Sys)
    requires Init(s)
    ensures Inv(s)
  {
  }

  lemma {:induction false} InvRun(s: Sys, es: seq<Event>)
    requires Inv(s) && IsRun(s, es)
    ensures Inv(After(s, es))
    decreases |es|
  {
    if es != [] {
      InvStep(s, es[0]);
      InvRun(Apply(s, es[0]), es[1..]);
    }
  }

  /** However tokens are duplicated, a job has at most one executor, and while it has one the
      job is running, or was cancelled while running. */
  lemma MutualExclusion(s0: Sys, es: seq<Event>, id: JobId, a: ActorId, b: ActorId)
    requires Init(s0) && IsRun(s0, es)
    requires var s := After(s0, es);
      a in s.actors && b in s.actors
      && ExecOf(s.actors[a]) == Some(id) && ExecOf(s.actors[b]) == Some(id)
    ensures a == b
    ensures var s := After(s0, es); s.db.HasStatus(id, Running) || s.db.HasStatus(id, Cancelled)
  {
    InitInv(s0);
    InvRun(s0, es);
    assert ActorOk(After(s0, es).db, After(s0, es).actors[a]);
  }

  /** Attempts stay within max_attempts, and every position that decides on them does so on
      a current count: an executor's snapshot, and the rows a pump still has to handle. */
  lemma AttemptBudget(s0: Sys, es: seq<Event>, id: JobId)
    requires Init(s0) && IsRun(s0, es) && id in After(s0, es).db.tasks
    ensures var row := After(s0, es).db.tasks[id];
      && 0 <= row.attempts <= row.maxAttempts <= 100
      && (row.status == Queued || row.status == Retry ==> row.attempts < row.maxAttempts)
      && (row.status == DeadLetter ==> row.attempts == row.maxAttempts)
    ensures var s := After(s0, es);
      forall a :: a in s.actors ==>
        match s.actors[a]
        case Executing(t, job) => t.id == id ==> job.attempts == s.db.tasks[id].attempts >= 1
        case PushDead(t, job, _) => t.id == id ==> s.db.tasks[id].attempts == s.db.tasks[id].maxAttempts
        case MarkRetry(t, job, _, _) => t.id == id ==> s.db.tasks[id].attempts < s.db.tasks[id].maxAttempts
        case PumpScan(rows) => forall i :: 0 <= i < |rows| ==> rows[i].attempts < rows[i].maxAttempts
        case _ => true
  {
    InitInv(s0);
    InvRun(s0, es);
    var s := After(s0, es);
    assert LifeOk(LifeOf(Some(s.db.tasks[id]), false));
    forall a | a in s.actors ensures ActorOk(s.db, s.actors[a]) {
    }
  }

  // ---------------------------------------------------------------- refinement

  ghost predicate LiveElsewhere(s: Sys, e: Event, id: JobId) {
    exists a :: a in s.actors && !ByActor(e, a) && ExecOf(s.actors[a]) == Some(id)
  }

  lemma LiveBefore(s: Sys, e: Event, id: JobId)
    requires Enabled(s, e)
    ensures Live(s, id) <==> Executes(Mover(s, e), id) || LiveElsewhere(s, e, id)
  {
    if Live(s, id) {
      var a :| a in s.actors && ExecOf(s.actors[a]) == Some(id);
      assert ByActor(e, a) ==> Mover(s, e) == Some(s.actors[a]);
    }
  }

  lemma LiveAfter(s: Sys, e: Event, id: JobId)
    requires Enabled(s, e)
    ensures Live(Apply(s, e), id) <==> Executes(Moved(s, e), id) || LiveElsewhere(s, e, id)
  {
    var s' := Apply(s, e);
    if Live(s', id) {
      var a :| a in s'.actors && ExecOf(s'.actors[a]) == Some(id);
      ActorsAfter(s, e, a);
    } else {
      if LiveElsewhere(s, e, id) {
        var a :| a in s.actors && !ByActor(e, a) && ExecOf(s.actors[a]) == Some(id);
        ActorsAfter(s, e, a);
      }
      if Executes(Moved(s, e), id) {
        ActorsAfter(s, e, e.a);
      }
    }
  }

  lemma AbsOk(s: Sys, id: JobId)
    requires Inv(s)
    ensures LifeOk(Abs(s, id))
  {
    if Live(s, id) {
      var a :| a in s.actors && ExecOf(s.actors[a]) == Some(id);
      assert ActorOk(s.db, s.actors[a]);
    }
  }

  /** A job that some other actor executes is moved by nobody else. */
  lemma MoverIsOnlyExecutor(s: Sys, e: Event, id: JobId)
    requires Inv(s) && Enabled(s, e) && LiveElsewhere(s, e, id)
    ensures !Executes(Mover(s, e), id) && !Executes(Moved(s, e), id)
    ensures s.db.HasStatus(id, Running) || s.db.HasStatus(id, Cancelled)
  {
    var a :| a in s.actors && !ByActor(e, a) && ExecOf(s.actors[a]) == Some(id);
    assert ActorOk(s.db, s.actors[a]);
    if Executes(Moved(s, e), id) && !Executes(Mover(s, e), id) {
      OnlyQueuedGains(s, e, id);
    }
  }

  /** Refinement: seen from one job, a step of the system is a stutter or a lifecycle step. */
  lemma StepRefines(s: Sys, e: Event, id: JobId)
    requires Inv(s) && Enabled(s, e)
    ensures Abs(Apply(s, e), id) == Abs(s, id) || LifeStep(Abs(s, id), Abs(Apply(s, e), id))
  {
    hide Inv, Enabled, Apply, Mover, Moved, Executes, Live, LiveElsewhere;
    LiveBefore(s, e, id);
    LiveAfter(s, e, id);
    EventMoves(s, e, id);
    AbsOk(s, id);
    if LiveElsewhere(s, e, id) {
      MoverIsOnlyExecutor(s, e, id);
    }
  }

  /** The lives a job goes through along a run, one per state. */
  ghost function Lives(s: Sys, es: seq<Event>, id: JobId): seq<Life>
    requires IsRun(s, es)
    decreases |es|
  {
    [Abs(s, id)] + if es == [] then [] else Lives(Apply(s, es[0]), es[1..], id)
  }

  /** Every run, seen from one job, is a path of the lifecycle machine that ends in the job's
      final state. */
  lemma {:induction false} RunRefines(s0: Sys, es: seq<Event>, id: JobId)
    requires Inv(s0) && IsRun(s0, es)
    ensures var path := Lives(s0, es, id);
      && |path| == |es| + 1 && path[0] == Abs(s0, id) && path[|es|] == Abs(After(s0, es), id)
      && forall i :: 0 <= i < |es| ==> path[i] == path[i + 1] || LifeStep(path[i], path[i + 1])
    decreases |es|
  {
    hide Inv, Abs, LifeStep, Enabled, Apply;
    if es != [] {
      var s1 := Apply(s0, es[0]);
      StepRefines(s0, es[0], id);
      InvStep(s0, es[0]);
      RunRefines(s1, es[1..], id);
      var rest := Lives(s1, es[1..], id);
      assert Lives(s0, es, id) == [Abs(s0, id)] + rest;
      forall i | 0 <= i < |es|
        ensures ([Abs(s0, id)] + rest)[i] == rest[i] || LifeStep(([Abs(s0, id)] + rest)[i], rest[i])
      {
        if i > 0 {
          assert ([Abs(s0, id)] + rest)[i] == rest[i - 1];
        }
      }
    }
  }

  /** Rows are never deleted, and their immutable columns never change. */
  lemma {:induction false} RowsPersist(s: Sys, es: seq<Event>, id: JobId)
    requires Inv(s) && IsRun(s, es) && id in s.db.tasks
    ensures id in After(s, es).db.tasks
    ensures SameFields(s.db.tasks[id], After(s, es).db.tasks[id])
    ensures After(s, es).db.tasks[id].createdAt == s.db.tasks[id].createdAt
    decreases |es|
  {
    if es != [] {
      EventMoves(s, es[0], id);
      InvStep(s, es[0]);
      RowsPersist(Apply(s, es[0]), es[1..], id);
    }
  }

  // ---------------------------------------------------------------- absorption

  /** A settled job keeps its status and attempts, and is never executed again. */
  lemma {:induction false} SettledForever(s: Sys, es: seq<Event>, id: JobId)
    requires Inv(s) && IsRun(s, es) && Settled(Abs(s, id))
    ensures Abs(After(s, es), id) == Abs(s, id) && !Live(After(s, es), id)
    decreases |es|
  {
    if es != [] {
      StepRefines(s, es[0], id);
      InvStep(s, es[0]);
      SettledForever(Apply(s, es[0]), es[1..], id);
    }
  }

  /** Succeeded, failed and dead-lettered jobs are settled; a cancelled job is settled unless
      it is still being executed. */
  lemma WhatSettles(s: Sys, id: JobId)
    requires Inv(s) && id in s.db.tasks
    ensures Settled(Abs(s, id)) <==>
      match s.db.tasks[id].status
      case Succeeded | Failed | DeadLetter => true
      case Cancelled => !Live(s, id)
      case _ => false
  {
    AbsOk(s, id);
  }

  /** CancelJob's UPDATE settles a job exactly when it meets it queued, or meets it running
      with nobody executing it any more. */
  lemma CancelSettles(s: Sys, e: Event, id: JobId)
    requires Inv(s) && Enabled(s, e) && e.Step? && e.outcome.Ok?
    requires s.actors[e.a].Cancelling? && s.actors[e.a].id == id
    requires Cancellable(s.db.tasks[id].status)
    ensures Apply(s, e).db.HasStatus(id, Cancelled)
    ensures Settled(Abs(Apply(s, e), id)) <==> !Live(s, id)
    ensures s.db.HasStatus(id, Queued) ==> Settled(Abs(Apply(s, e), id))
  {
    var s' := Apply(s, e);
    assert s'.db.tasks[id].status == Cancelled;
    assert !Executes(Mover(s, e), id) && !Executes(Moved(s, e), id);
    LiveBefore(s, e, id);
    LiveAfter(s, e, id);
    AbsOk(s, id);
  }

  /** A job left running by a worker that stopped is not recovered: reapers may move its token,
      but it is never claimed or finished again, and at most cancelled. */
  lemma {:induction false} AbandonedStaysStuck(s: Sys, es: seq<Event>, id: JobId)
    requires Inv(s) && IsRun(s, es) && !Live(s, id)
    requires s.db.HasStatus(id, Running) || s.db.HasStatus(id, Cancelled)
    ensures var s' := After(s, es);
      && !Live(s', id) && id in s'.db.tasks && s'.db.tasks[id].attempts == s.db.tasks[id].attempts
      && (s'.db.HasStatus(id, Running) || s'.db.HasStatus(id, Cancelled))
    decreases |es|
  {
    hide Inv, Live, Enabled, Apply;
    if es != [] {
      StepRefines(s, es[0], id);
      InvStep(s, es[0]);
      AbandonedStaysStuck(Apply(s, es[0]), es[1..], id);
    }
  }

  // ---------------------------------------------------------------- termination

  ghost function StatusChanges(s: Sys, es: seq<Event>, id: JobId): nat
    requires IsRun(s, es)
    decreases |es|
  {
    if es == [] then 0
    else
      var s1 := Apply(s, es[0]);
      (if StatusChanged(Abs(s, id), Abs(s1, id)) then 1 else 0) + StatusChanges(s1, es[1..], id)
  }

  /** Every status change uses up the measure, so a submitted job has at most
      4 * max_attempts + 1 of them in any run, and any job at most 402. */
  lemma {:induction false} ChangesAreBounded(s: Sys, es: seq<Event>, id: JobId)
    requires Inv(s) && IsRun(s, es)
    ensures LifeOk(Abs(s, id)) && LifeOk(Abs(After(s, es), id))
    ensures StatusChanges(s, es, id) + Measure(Abs(After(s, es), id)) <= Measure(Abs(s, id))
    ensures Measure(Abs(s, id)) <=
      if id in s.db.tasks then 4 * (s.db.tasks[id].maxAttempts - s.db.tasks[id].attempts) + 4 else 402
    ensures s.db.HasStatus(id, Queued) && s.db.tasks[id].attempts == 0 ==>
      Measure(Abs(s, id)) == 4 * s.db.tasks[id].maxAttempts + 1
    decreases |es|
  {
    AbsOk(s, id);
    if es != [] {
      var s1 := Apply(s, es[0]);
      StepRefines(s, es[0], id);
      InvStep(s, es[0]);
      AbsOk(s1, id);
      if Abs(s, id) != Abs(s1, id) {
        StepDecreases(Abs(s, id), Abs(s1, id));
      }
      ChangesAreBounded(s1, es[1..], id);
    }
  }

  /** The event on which a worker starts the handler of the job. */
  ghost predicate StartsHandler(s: Sys, e: Event, id: JobId)
    requires Enabled(s, e)
  {
    e.Step? && e.outcome.Ok? && s.actors[e.a].Loading? && s.actors[e.a].token.id == id && id in s.db.tasks
  }

  ghost function HandlerStarts(s: Sys, es: seq<Event>, id: JobId): nat
    requires IsRun(s, es)
    decreases |es|
  {
    if es == [] then 0
    else (if StartsHandler(s, es[0], id) then 1 else 0) + HandlerStarts(Apply(s, es[0]), es[1..], id)
  }

  predicate AboutToRun(p: Actor, id: JobId) {
    (p.Claimed? || p.Loading?) && p.token.id == id
  }

  ghost predicate SomeAboutToRun(s: Sys, id: JobId) {
    exists a :: a in s.actors && AboutToRun(s.actors[a], id)
  }

  /** The claims of a job whose handler run has begun or been given up. */
  ghost function RunsUsed(s: Sys, id: JobId): int {
    if id !in s.db.tasks then 0
    else s.db.tasks[id].attempts - if SomeAboutToRun(s, id) then 1 else 0
  }

  lemma AboutToRunBefore(s: Sys, e: Event, id: JobId)
    requires Inv(s) && Enabled(s, e)
    requires Moved(s, e).Some? && AboutToRun(Moved(s, e).value, id)
    ensures if Executes(Mover(s, e), id) then SomeAboutToRun(s, id) else s.db.HasStatus(id, Queued)
    ensures !StartsHandler(s, e, id)
  {
    if Executes(Mover(s, e), id) {
      assert AboutToRun(s.actors[e.a], id);
    } else {
      OnlyQueuedGains(s, e, id);
    }
  }

  lemma AboutToRunAfter(s: Sys, e: Event, id: JobId)
    requires Inv(s) && Enabled(s, e) && SomeAboutToRun(Apply(s, e), id)
    ensures SomeAboutToRun(s, id) || (s.db.HasStatus(id, Queued) && Executes(Moved(s, e), id))
    ensures !StartsHandler(s, e, id)
  {
    var s' := Apply(s, e);
    var a :| a in s'.actors && AboutToRun(s'.actors[a], id);
    ActorsAfter(s, e, a);
    if ByActor(e, a) {
      AboutToRunBefore(s, e, id);
    } else {
      assert LiveElsewhere(s, e, id);
      MoverIsOnlyExecutor(s, e, id);
    }
  }

  lemma AboutToRunHasRow(s: Sys, id: JobId)
    requires Inv(s) && SomeAboutToRun(s, id)
    ensures id in s.db.tasks
  {
    var a :| a in s.actors && AboutToRun(s.actors[a], id);
    assert ActorOk(s.db, s.actors[a]);
  }

  lemma RunsUsedStep(s: Sys, e: Event, id: JobId)
    requires Inv(s) && Enabled(s, e)
    ensures RunsUsed(s, id) + (if StartsHandler(s, e, id) then 1 else 0) <= RunsUsed(Apply(s, e), id)
  {
    hide Inv;
    var s' := Apply(s, e);
    EventMoves(s, e, id);
    if SomeAboutToRun(s, id) {
      AboutToRunHasRow(s, id);
    }
    if SomeAboutToRun(s', id) {
      AboutToRunAfter(s, e, id);
    } else if StartsHandler(s, e, id) {
      assert AboutToRun(s.actors[e.a], id);
    }
  }

  /** A job's handler is started at most once per counted attempt, so at most max_attempts
      times, over any run. */
  lemma {:induction false} HandlerRunsAreBounded(s: Sys, es: seq<Event>, id: JobId)
    requires Inv(s) && IsRun(s, es)
    ensures RunsUsed(s, id) + HandlerStarts(s, es, id) <= RunsUsed(After(s, es), id)
    ensures id in After(s, es).db.tasks ==>
      RunsUsed(After(s, es), id) <= After(s, es).db.tasks[id].attempts <= After(s, es).db.tasks[id].maxAttempts
    decreases |es|
  {
    if es == [] {
      AbsOk(s, id);
    } else {
      RunsUsedStep(s, es[0], id);
      InvStep(s, es[0]);
      HandlerRunsAreBounded(Apply(s, es[0]), es[1..], id);
    }
  }
}

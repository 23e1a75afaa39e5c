/** Timed backoff over whole runs, on one clock. */
module Timing {
  import opened Types
  import opened Stores
  import opened Protocol
  import opened Lifecycle
  import opened Safety
  import opened Outcomes
  import Backoff

  ghost function ClaimNow(s: Sys, e: Event, id: JobId): seq<int>
    requires Enabled(s, e)
  {
    if Claims(s, e, id) then [s.db.now] else []
  }

  /** The times at which the job is claimed along a run. */
  ghost function ClaimTimes(s: Sys, es: seq<Event>, id: JobId): seq<int>
    requires IsRun(s, es)
    decreases |es|
  {
    if es == [] then [] else ClaimNow(s, es[0], id) + ClaimTimes(Apply(s, es[0]), es[1..], id)
  }

  /** A pump's UPDATE that meets a task again in status retry, with its next_run_at not yet
      reached: the statement does not look at next_run_at. */
  ghost predicate RequeuesEarly(s: Sys, e: Event, id: JobId)
    requires Enabled(s, e)
  {
    s.db.HasStatus(id, Retry) && Apply(s, e).db.HasStatus(id, Queued) && !Due(s.db, id)
  }

  /** When the wait is over that follows a claim with n claims so far: 2^(n-1) seconds later. */
  function Ready(last: int, n: nat): int
    requires n >= 1
  {
    last + Backoff.Pow2(n - 1) * Backoff.SECOND
  }

  /** Each claim comes after the wait that follows the one before. */
  ghost predicate Spaced(times: seq<int>) {
    forall n :: 1 <= n < |times| && n <= 34 ==> times[n] >= Ready(times[n - 1], n)
  }

  /** Claim n + 1 comes at least 2^n - 1 seconds after the first one. */
  ghost predicate SpacedFromFirst(times: seq<int>) {
    forall n :: 0 <= n < |times| && n <= 34 ==> times[n] >= times[0] + (Backoff.Pow2(n) - 1) * Backoff.SECOND
  }

  lemma {:induction false} WaitsAddUp(times: seq<int>, n: nat)
    requires Spaced(times) && n < |times| && n <= 34
    ensures times[n] >= times[0] + (Backoff.Pow2(n) - 1) * Backoff.SECOND
  {
    if n > 0 {
      WaitsAddUp(times, n - 1);
    }
  }

  /** The waits add up. */
  lemma WaitsAddUpTo(times: seq<int>)
    requires Spaced(times)
    ensures SpacedFromFirst(times)
  {
    forall n | 0 <= n < |times| && n <= 34
      ensures times[n] >= times[0] + (Backoff.Pow2(n) - 1) * Backoff.SECOND
    {
      WaitsAddUp(times, n);
    }
  }

  predicate WaitsFor(p: Actor, id: JobId, ready: int) {
    p.MarkRetry? && p.token.id == id ==> p.nextRunAt >= ready
  }

  function NextReady(times: seq<int>): int
    requires times != []
  {
    Ready(times[|times| - 1], |times|)
  }

  /** times are the claim times so far. */
  ghost predicate OnTime(s: Sys, id: JobId, times: seq<int>) {
    && |times| == AttemptsOf(s.db, id)
    && Spaced(times)
    && (times != [] ==> s.db.now >= times[|times| - 1])
    && (1 <= |times| <= 34 ==>
         var ready := NextReady(times);
         && (s.db.HasStatus(id, Queued) ==> s.db.now >= ready)
         && (s.db.HasStatus(id, Retry) ==>
              s.db.tasks[id].nextRunAt.Some? && s.db.tasks[id].nextRunAt.value >= ready)
         && (forall a :: a in s.actors ==> WaitsFor(s.actors[a], id, ready)))
  }

  lemma ClockNeverGoesBack(s: Sys, e: Event)
    requires Enabled(s, e)
    ensures Apply(s, e).db.now >= s.db.now
    ensures !e.Tick? ==> Apply(s, e).db.now == s.db.now
  {
  }

  /** A new retry is scheduled a full delay after the current claim. */
  lemma NewWait(s: Sys, e: Event, id: JobId, times: seq<int>)
    requires Inv(s) && Enabled(s, e) && OnTime(s, id, times)
    requires Moved(s, e).Some? && Moved(s, e).value.MarkRetry? && Moved(s, e).value.token.id == id
    ensures 1 <= |times| <= 34 ==> WaitsFor(Moved(s, e).value, id, NextReady(times))
    ensures !Claims(s, e, id)
  {
    var p := s.actors[e.a];
    assert p.Executing? && p.token.id == id;
    assert ActorOk(s.db, p);
    if 1 <= |times| <= 34 {
      Backoff.DelayIsExactIff(|times|);
    }
  }

  /** Only a MarkRetry writes status retry, with the time it planned. */
  lemma RetryIsPlanned(s: Sys, e: Event, id: JobId)
    requires Inv(s) && Enabled(s, e) && Apply(s, e).db.HasStatus(id, Retry)
    requires s.db.RowAt(id) != Apply(s, e).db.RowAt(id)
    ensures Mover(s, e).Some? && Mover(s, e).value.MarkRetry? && Mover(s, e).value.token.id == id
    ensures Apply(s, e).db.tasks[id].nextRunAt == Some(Mover(s, e).value.nextRunAt)
    ensures id in s.db.tasks && Apply(s, e).db.tasks[id].attempts == s.db.tasks[id].attempts
  {
    match e
    case Step(a, c) => PlanOfRetry(s.db, s.actors[a], c, id);
    case Begin(_, start) => Untouched(s.db, StartPlan(s.db, start).0, id);
    case _ =>
  }

  lemma PlanMarksRetry(st: Store, p: Actor, c: Outcome, id: JobId)
    ensures var (cmd, _) := Plan(st, p, c);
      cmd.MarkTask? && cmd.status == Retry ==> p.MarkRetry? && p.token.id == cmd.id && c.Ok?
  {
  }

  lemma OnlyMarksMakeRetry(st: Store, cmd: Command, id: JobId)
    requires Do(st, cmd).HasStatus(id, Retry) && Do(st, cmd).RowAt(id) != st.RowAt(id)
    requires cmd.InsertTask? ==> NewRow(cmd.row)
    ensures cmd.MarkTask? && cmd.id == id && cmd.status == Retry
  {
  }

  lemma PlanOfRetry(st: Store, p: Actor, c: Outcome, id: JobId)
    requires ActorOk(st, p)
    requires var (cmd, _) := Plan(st, p, c);
      Do(st, cmd).HasStatus(id, Retry) && Do(st, cmd).RowAt(id) != st.RowAt(id)
    ensures p.MarkRetry? && p.token.id == id && c.Ok?
  {
    var (cmd, _) := Plan(st, p, c);
    PlanMarksRetry(st, p, c, id);
    if !TouchesRow(cmd, id) {
      Untouched(st, cmd, id);
    } else {
      PlanIsSound(st, p, c, id);
      OnlyMarksMakeRetry(st, cmd, id);
    }
  }

  lemma OnTimeStep(s: Sys, e: Event, id: JobId, times: seq<int>)
    requires Inv(s) && Enabled(s, e) && OnTime(s, id, times) && !RequeuesEarly(s, e, id)
    ensures OnTime(Apply(s, e), id, times + ClaimNow(s, e, id))
  {
    ClockNeverGoesBack(s, e);
    AttemptsCount(s, e, id);
    if Claims(s, e, id) {
      ClaimOnTime(s, e, id, times);
    } else {
      assert times + [] == times;
      if 1 <= |times| <= 34 {
        WaitsKept(s, e, id, times);
        StatusOnTime(s, e, id, times);
      }
    }
  }

  lemma WaitsKept(s: Sys, e: Event, id: JobId, times: seq<int>)
    requires Inv(s) && Enabled(s, e) && OnTime(s, id, times) && 1 <= |times| <= 34
    ensures forall a :: a in Apply(s, e).actors ==>
      WaitsFor(Apply(s, e).actors[a], id, NextReady(times))
  {
    var s' := Apply(s, e);
    forall a | a in s'.actors ensures WaitsFor(s'.actors[a], id, NextReady(times)) {
      ActorsAfter(s, e, a);
      if ByActor(e, a) && s'.actors[a].MarkRetry? && s'.actors[a].token.id == id {
        NewWait(s, e, id, times);
      }
    }
  }

  lemma StatusOnTime(s: Sys, e: Event, id: JobId, times: seq<int>)
    requires Inv(s) && Enabled(s, e) && OnTime(s, id, times) && 1 <= |times| <= 34
    requires !RequeuesEarly(s, e, id) && !Claims(s, e, id)
    ensures var s', ready := Apply(s, e), NextReady(times);
      && (s'.db.HasStatus(id, Queued) ==> s'.db.now >= ready)
      && (s'.db.HasStatus(id, Retry) ==>
           s'.db.tasks[id].nextRunAt.Some? && s'.db.tasks[id].nextRunAt.value >= ready)
  {
    ClockNeverGoesBack(s, e);
    EventMoves(s, e, id);
    var s' := Apply(s, e);
    if s'.db.HasStatus(id, Retry) && s'.db.RowAt(id) != s.db.RowAt(id) {
      RetryIsPlanned(s, e, id);
      assert WaitsFor(s.actors[e.a], id, NextReady(times));
    }
  }

  /** The claim itself comes when the last wait is over. */
  lemma ClaimSpaced(s: Sys, e: Event, id: JobId, times: seq<int>)
    requires Inv(s) && Enabled(s, e) && OnTime(s, id, times) && Claims(s, e, id)
    ensures Spaced(times + [s.db.now])
  {
    OnlyQueuedGains(s, e, id);
  }

  lemma NobodyWaits(s: Sys, e: Event, id: JobId, times: seq<int>)
    requires Inv(s) && Enabled(s, e) && OnTime(s, id, times) && Claims(s, e, id)
    ensures forall a :: a in Apply(s, e).actors ==>
      !(Apply(s, e).actors[a].MarkRetry? && Apply(s, e).actors[a].token.id == id)
  {
    OnlyQueuedGains(s, e, id);
    var s' := Apply(s, e);
    forall a | a in s'.actors ensures !(s'.actors[a].MarkRetry? && s'.actors[a].token.id == id) {
      ActorsAfter(s, e, a);
      if !ByActor(e, a) {
        QueuedIsQuiet(s, id, a);
      } else if s'.actors[a].MarkRetry? && s'.actors[a].token.id == id {
        NewWait(s, e, id, times);
      }
    }
  }

  lemma ClaimRuns(s: Sys, e: Event, id: JobId)
    requires Inv(s) && Enabled(s, e) && Claims(s, e, id)
    ensures Apply(s, e).db.HasStatus(id, Running)
  {
    OnlyQueuedGains(s, e, id);
    EventMoves(s, e, id);
  }

  lemma ClaimOnTime(s: Sys, e: Event, id: JobId, times: seq<int>)
    requires Inv(s) && Enabled(s, e) && OnTime(s, id, times) && Claims(s, e, id)
    ensures OnTime(Apply(s, e), id, times + [s.db.now])
  {
    ClockNeverGoesBack(s, e);
    AttemptsCount(s, e, id);
    ClaimRuns(s, e, id);
    ClaimSpaced(s, e, id, times);
    NobodyWaits(s, e, id, times);
    hide Inv, Enabled, Apply, Claims, Spaced, AttemptsOf, Ready;
  }

  // ---------------------------------------------------------------- runs

  ghost predicate NeverEarly(s: Sys, es: seq<Event>, id: JobId)
    requires IsRun(s, es)
    decreases |es|
  {
    es == [] || (!RequeuesEarly(s, es[0], id) && NeverEarly(Apply(s, es[0]), es[1..], id))
  }

  lemma Associates(a: seq<int>, b: seq<int>, c: seq<int>)
    ensures a + b + c == a + (b + c)
  {
  }

  lemma {:induction false} OnTimeRun(s: Sys, es: seq<Event>, id: JobId, times: seq<int>)
    requires Inv(s) && IsRun(s, es) && NeverEarly(s, es, id) && OnTime(s, id, times)
    ensures OnTime(After(s, es), id, times + ClaimTimes(s, es, id))
    decreases |es|
  {
    if es == [] {
      assert times + [] == times;
    } else {
      var now := ClaimNow(s, es[0], id);
      OnTimeStep(s, es[0], id, times);
      InvStep(s, es[0]);
      OnTimeRun(Apply(s, es[0]), es[1..], id, times + now);
      Associates(times, now, ClaimTimes(Apply(s, es[0]), es[1..], id));
    }
  }

  /** In every run without an early requeue of the job, claim n + 1 comes at least 2^(n-1) seconds
      after claim n, and so 2^n - 1 seconds after the first one, for n up to 34, and there is one
      claim per attempt. */
  lemma ClaimsAreSpaced(s0: Sys, es: seq<Event>, id: JobId)
    requires Init(s0) && IsRun(s0, es) && NeverEarly(s0, es, id)
    ensures var times := ClaimTimes(s0, es, id);
      && Spaced(times)
      && SpacedFromFirst(times)
      && |times| == AttemptsOf(After(s0, es).db, id)
  {
    InitInv(s0);
    OnTimeRun(s0, es, id, []);
    var times := ClaimTimes(s0, es, id);
    assert [] + times == times;
    WaitsAddUpTo(times);
  }

  // ---------------------------------------------------------------- the schedule

  /** A job that is queued for another attempt has reached its next_run_at. */
  ghost predicate OnSchedule(s: Sys, id: JobId) {
    s.db.HasStatus(id, Queued) && s.db.tasks[id].attempts >= 1 ==>
      s.db.tasks[id].nextRunAt.Some? && s.db.tasks[id].nextRunAt.value <= s.db.now
  }

  ghost predicate AlwaysOnSchedule(s: Sys, es: seq<Event>, id: JobId)
    requires IsRun(s, es)
    decreases |es|
  {
    OnSchedule(s, id) && (es == [] || AlwaysOnSchedule(Apply(s, es[0]), es[1..], id))
  }

  lemma OnlyRequeues(st: Store, cmd: Command, id: JobId)
    requires Do(st, cmd).HasStatus(id, Queued) && st.RowAt(id) != Do(st, cmd).RowAt(id)
    requires cmd.MarkTask? ==> cmd.status != Queued
    ensures cmd.InsertTask? || (cmd == RequeueTask(id) && st.HasStatus(id, Retry))
  {
  }

  /** A job becomes queued by its submission, or from status retry, with its next_run_at kept. */
  lemma QueuedFrom(s: Sys, e: Event, id: JobId)
    requires Inv(s) && Enabled(s, e) && Apply(s, e).db.HasStatus(id, Queued)
    requires id in s.db.tasks
    ensures s.db.HasStatus(id, Queued) || s.db.HasStatus(id, Retry)
    ensures Apply(s, e).db.tasks[id].nextRunAt == s.db.tasks[id].nextRunAt
    ensures Apply(s, e).db.tasks[id].attempts == s.db.tasks[id].attempts
  {
    EventMoves(s, e, id);
    match e
    case Step(a, c) => PlanQueuedFrom(s.db, s.actors[a], c, id);
    case Begin(_, start) => Untouched(s.db, StartPlan(s.db, start).0, id);
    case _ =>
  }

  lemma PlanMarksNoneQueued(st: Store, p: Actor, c: Outcome)
    ensures var (cmd, _) := Plan(st, p, c); cmd.MarkTask? ==> cmd.status != Queued
  {
  }

  lemma PlanQueuedFrom(st: Store, p: Actor, c: Outcome, id: JobId)
    requires id in st.tasks && Do(st, Plan(st, p, c).0).HasStatus(id, Queued)
    ensures var st' := Do(st, Plan(st, p, c).0);
      && (st.HasStatus(id, Queued) || st.HasStatus(id, Retry))
      && st'.tasks[id].nextRunAt == st.tasks[id].nextRunAt && st'.tasks[id].attempts == st.tasks[id].attempts
  {
    var cmd := Plan(st, p, c).0;
    PlanMarksNoneQueued(st, p, c);
    hide Plan;
    if st.RowAt(id) != Do(st, cmd).RowAt(id) {
      OnlyRequeues(st, cmd, id);
    }
  }

  lemma ScheduleStep(s: Sys, e: Event, id: JobId)
    requires Inv(s) && Enabled(s, e) && OnSchedule(s, id)
    ensures OnSchedule(Apply(s, e), id) <==> !RequeuesEarly(s, e, id)
  {
    ClockNeverGoesBack(s, e);
    if Apply(s, e).db.HasStatus(id, Queued) {
      if id in s.db.tasks {
        QueuedFrom(s, e, id);
        assert LifeOk(LifeOf(Some(s.db.tasks[id]), false));
      } else {
        AttemptsCount(s, e, id);
        EventMoves(s, e, id);
      }
    }
  }

  lemma {:induction false} ScheduleRun(s: Sys, es: seq<Event>, id: JobId)
    requires Inv(s) && IsRun(s, es) && OnSchedule(s, id)
    ensures AlwaysOnSchedule(s, es, id) <==> NeverEarly(s, es, id)
    decreases |es|
  {
    hide Inv, Apply, OnSchedule, RequeuesEarly;
    if es != [] {
      ScheduleStep(s, es[0], id);
      if !RequeuesEarly(s, es[0], id) {
        InvStep(s, es[0]);
        ScheduleRun(Apply(s, es[0]), es[1..], id);
      } else {
        OffSchedule(Apply(s, es[0]), es[1..], id);
      }
    }
  }

  lemma OffSchedule(s: Sys, es: seq<Event>, id: JobId)
    requires IsRun(s, es) && !OnSchedule(s, id)
    ensures !AlwaysOnSchedule(s, es, id)
  {
  }

  /** A job queued for another attempt has reached its next_run_at in every state of a run if and
      only if no pump requeues it early; and then its claims are spaced. */
  lemma BackoffIsKept(s0: Sys, es: seq<Event>, id: JobId)
    requires Init(s0) && IsRun(s0, es)
    ensures AlwaysOnSchedule(s0, es, id) <==> NeverEarly(s0, es, id)
    ensures AlwaysOnSchedule(s0, es, id) ==> Spaced(ClaimTimes(s0, es, id))
  {
    InitInv(s0);
    ScheduleRun(s0, es, id);
    if NeverEarly(s0, es, id) {
      ClaimsAreSpaced(s0, es, id);
    }
  }

  // ---------------------------------------------------------------- one pump

  /** A pump starts only while no other one is at work. */
  ghost predicate OnePumpAtATime(s: Sys, es: seq<Event>)
    requires IsRun(s, es)
    decreases |es|
  {
    es == []
    || ((es[0].Begin? && es[0].start.Pump? ==> forall a :: a in s.actors ==> !OfPump(s.actors[a]))
        && OnePumpAtATime(Apply(s, es[0]), es[1..]))
  }

  ghost predicate BatchFresh(st: Store, p: Actor) {
    OfPump(p) ==>
      && (forall i :: 0 <= i < |p.rows| ==> Due(st, p.rows[i].id))
      && (forall i, j :: 0 <= i < j < |p.rows| ==> p.rows[i].id != p.rows[j].id)
  }

  ghost predicate OneFreshPump(s: Sys) {
    && (forall a :: a in s.actors ==> BatchFresh(s.db, s.actors[a]))
    && (forall a, b :: a in s.actors && b in s.actors ==> OfPump(s.actors[a]) && OfPump(s.actors[b]) ==> a == b)
  }

  predicate Requeues(st: Store, p: Actor, c: Outcome, id: JobId) {
    p.PumpScan? && p.rows != [] && p.rows[0].id == id && c.Ok?
  }

  lemma PlanRequeues(st: Store, p: Actor, c: Outcome, id: JobId)
    ensures Plan(st, p, c).0 == RequeueTask(id) ==> Requeues(st, p, c, id)
  {
  }

  /** A due task stays due until a pump requeues it. */
  lemma DueStays(s: Sys, e: Event, id: JobId)
    requires Inv(s) && Enabled(s, e) && Due(s.db, id)
    ensures Due(Apply(s, e).db, id) || (e.Step? && Requeues(s.db, s.actors[e.a], e.outcome, id))
  {
    ClockNeverGoesBack(s, e);
    EventMoves(s, e, id);
    match e
    case Step(a, c) =>
      assert ActorOk(s.db, s.actors[a]);
      PlanRequeues(s.db, s.actors[a], c, id);
      if Plan(s.db, s.actors[a], c).0 != RequeueTask(id) {
        PlanMovesRetry(s.db, s.actors[a], c, id);
      }
    case Begin(_, start) => Untouched(s.db, StartPlan(s.db, start).0, id);
    case _ =>
  }

  lemma PlanMovesRetry(st: Store, p: Actor, c: Outcome, id: JobId)
    requires ActorOk(st, p) && st.HasStatus(id, Retry) && Plan(st, p, c).0 != RequeueTask(id)
    ensures Do(st, Plan(st, p, c).0).RowAt(id) == st.RowAt(id)
  {
    PlanIsSound(st, p, c, id);
    var (cmd, _) := Plan(st, p, c);
    if !TouchesRow(cmd, id) {
      Untouched(st, cmd, id);
    }
  }

  lemma OwnBatchStays(s: Sys, a: ActorId, c: Outcome)
    requires Inv(s) && OneFreshPump(s) && a in s.actors && OfPump(s.actors[a])
    ensures var p' := Plan(s.db, s.actors[a], c).1;
      p'.Some? ==> OfPump(p'.value) && BatchFresh(Apply(s, Step(a, c)).db, p'.value)
  {
    var p := s.actors[a];
    assert BatchFresh(s.db, p) && ActorOk(s.db, p);
    var p' := Plan(s.db, p, c).1;
    if p'.Some? {
      forall i | 0 <= i < |p'.value.rows|
        ensures Due(Apply(s, Step(a, c)).db, p'.value.rows[i].id)
      {
        var k := if p.PumpScan? then i + 1 else i;
        assert p'.value.rows[i] == p.rows[k];
        DueStays(s, Step(a, c), p.rows[k].id);
      }
    }
  }

  lemma OnlyPumpsPump(st: Store, p: Actor, c: Outcome)
    requires !OfPump(p)
    ensures var p' := Plan(st, p, c).1; p'.Some? ==> !OfPump(p'.value)
  {
  }

  lemma MovedBatch(s: Sys, e: Event)
    requires Inv(s) && OneFreshPump(s) && Enabled(s, e)
    ensures Moved(s, e).Some? ==> BatchFresh(Apply(s, e).db, Moved(s, e).value)
    ensures Moved(s, e).Some? && OfPump(Moved(s, e).value) ==>
      (e.Step? && OfPump(s.actors[e.a])) || (e.Begin? && e.start.Pump?)
  {
    match e
    case Step(a, c) =>
      if OfPump(s.actors[a]) {
        OwnBatchStays(s, a, c);
      } else {
        OnlyPumpsPump(s.db, s.actors[a], c);
      }
    case Begin(_, start) =>
      if start.Pump? {
        var p := Moved(s, e).value;
        forall i | 0 <= i < |p.rows| ensures Due(Apply(s, e).db, p.rows[i].id) {
          assert Due(s.db, start.batch[i]);
        }
      }
    case _ =>
  }

  lemma OnePumpStep(s: Sys, e: Event)
    requires Inv(s) && OneFreshPump(s) && Enabled(s, e)
    requires e.Begin? && e.start.Pump? ==> forall a :: a in s.actors ==> !OfPump(s.actors[a])
    ensures OneFreshPump(Apply(s, e))
  {
    var s' := Apply(s, e);
    MovedBatch(s, e);
    forall a | a in s'.actors ensures BatchFresh(s'.db, s'.actors[a]) {
      ActorsAfter(s, e, a);
      if !ByActor(e, a) && OfPump(s.actors[a]) {
        var rows := s.actors[a].rows;
        assert BatchFresh(s.db, s.actors[a]);
        forall i | 0 <= i < |rows| ensures Due(s'.db, rows[i].id) {
          DueStays(s, e, rows[i].id);
        }
      }
    }
    forall a, b | a in s'.actors && b in s'.actors && OfPump(s'.actors[a]) && OfPump(s'.actors[b])
      ensures a == b
    {
      ActorsAfter(s, e, a);
      ActorsAfter(s, e, b);
    }
  }

  lemma FreshPumpsWait(s: Sys, e: Event, id: JobId)
    requires Inv(s) && OneFreshPump(s) && Enabled(s, e)
    ensures !RequeuesEarly(s, e, id)
  {
    match e
    case Step(a, c) =>
      assert BatchFresh(s.db, s.actors[a]) && ActorOk(s.db, s.actors[a]);
      PlanRequeues(s.db, s.actors[a], c, id);
      if Plan(s.db, s.actors[a], c).0 != RequeueTask(id) && s.db.HasStatus(id, Retry) {
        PlanMovesRetry(s.db, s.actors[a], c, id);
      }
    case Begin(_, start) => Untouched(s.db, StartPlan(s.db, start).0, id);
    case _ =>
  }

  lemma {:induction false} OnePumpRun(s: Sys, es: seq<Event>, id: JobId)
    requires Inv(s) && OneFreshPump(s) && IsRun(s, es) && OnePumpAtATime(s, es)
    ensures NeverEarly(s, es, id)
    decreases |es|
  {
    if es != [] {
      FreshPumpsWait(s, es[0], id);
      OnePumpStep(s, es[0]);
      InvStep(s, es[0]);
      OnePumpRun(Apply(s, es[0]), es[1..], id);
    }
  }

  /** With one pump at a time the backoff is kept in every run. */
  lemma OnePumpKeepsBackoff(s0: Sys, es: seq<Event>, id: JobId)
    requires Init(s0) && IsRun(s0, es) && OnePumpAtATime(s0, es)
    ensures AlwaysOnSchedule(s0, es, id) && Spaced(ClaimTimes(s0, es, id))
  {
    InitInv(s0);
    OnePumpRun(s0, es, id);
    BackoffIsKept(s0, es, id);
  }
}

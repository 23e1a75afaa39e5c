/** The attempt log: one row per claim, closed rows are final, and when the log has its shape. */
module Audit {
  import opened Types
  import opened Stores
  import opened Protocol
  import opened Safety
  import opened Outcomes

  // ---------------------------------------------------------------- closed rows are final

  /** Rows are only added, and only an open row is ever written. */
  predicate LogGrows(log: seq<Attempt>, log': seq<Attempt>) {
    |log| <= |log'|
    && forall i :: 0 <= i < |log| ==>
         log'[i].startedAt == log[i].startedAt && (log[i].finished.Some? ==> log'[i] == log[i])
  }

  lemma CommandGrowsLog(st: Store, cmd: Command, id: JobId)
    ensures LogGrows(st.Log(id), Do(st, cmd).Log(id))
  {
  }

  lemma StepGrowsLog(s: Sys, e: Event, id: JobId)
    requires Enabled(s, e)
    ensures LogGrows(s.db.Log(id), Apply(s, e).db.Log(id))
  {
    match e
    case Step(a, c) => CommandGrowsLog(s.db, Plan(s.db, s.actors[a], c).0, id);
    case Begin(_, start) => CommandGrowsLog(s.db, StartPlan(s.db, start).0, id);
    case _ =>
  }

  /** Over any run, without any condition: closed rows never change and no row disappears. */
  lemma {:induction false} ClosedRowsAreFinal(s: Sys, es: seq<Event>, id: JobId)
    requires IsRun(s, es)
    ensures LogGrows(s.db.Log(id), After(s, es).db.Log(id))
    decreases |es|
  {
    if es != [] {
      StepGrowsLog(s, es[0], id);
      ClosedRowsAreFinal(Apply(s, es[0]), es[1..], id);
    }
  }

  // ---------------------------------------------------------------- the shape of the log

  predicate ClosedWith(row: Attempt, ok: bool) {
    row.finished.Some? && row.finished.value.ok == ok
  }

  /** One row per attempt, all but the last closed as failed; a row closed as ok is the last
      one and belongs to a job that succeeded. */
  predicate LogShape(log: seq<Attempt>, attempts: int, status: Status) {
    && |log| == attempts
    && (forall i :: 0 <= i < |log| - 1 ==> ClosedWith(log[i], false))
    && (log != [] && ClosedWith(log[|log| - 1], true) ==> status == Succeeded)
  }

  predicate IsOpen(row: Attempt) {
    row.finished.None?
  }

  ghost predicate SomeOpen(log: seq<Attempt>) {
    exists i :: 0 <= i < |log| && IsOpen(log[i])
  }

  predicate Closes(p: Option<Actor>, id: JobId) {
    p.Some? && (p.value.CloseOk? || p.value.CloseFailed?) && p.value.token.id == id
  }

  predicate Inserts(p: Option<Actor>, id: JobId) {
    p.Some? && p.value.Claimed? && p.value.token.id == id
  }

  ghost predicate SomeInserts(s: Sys, id: JobId) {
    exists a :: a in s.actors && Inserts(Some(s.actors[a]), id)
  }

  function StatusOf(st: Store, id: JobId): Status {
    if id in st.tasks then st.tasks[id].status else Queued
  }

  /** The rows the log should have: one per attempt, but for a claim that is not yet recorded. */
  ghost function Expected(s: Sys, id: JobId): int {
    AttemptsOf(s.db, id) - if SomeInserts(s, id) then 1 else 0
  }

  ghost predicate InShape(s: Sys, id: JobId) {
    LogShape(s.db.Log(id), Expected(s, id), StatusOf(s.db, id))
  }

  /** What spoils the shape: a claimed attempt is not recorded, or is recorded while the row of an
      earlier attempt is still open. */
  ghost predicate SpoilsLog(s: Sys, e: Event, id: JobId)
    requires Enabled(s, e)
  {
    Inserts(Mover(s, e), id)
    && (e.Crash? || e.outcome.Err? || !AttemptFits(s.db, id) || SomeOpen(s.db.Log(id)))
  }

  // ---------------------------------------------------------------- one step

  predicate TouchesLog(cmd: Command, id: JobId) {
    (cmd.InsertAttempt? || cmd.CloseAttempts?) && cmd.id == id
  }

  lemma LogUntouched(st: Store, cmd: Command, id: JobId)
    requires !TouchesLog(cmd, id)
    ensures Do(st, cmd).Log(id) == st.Log(id)
  {
  }

  lemma PlanTouchesLog(st: Store, p: Actor, c: Outcome, id: JobId)
    ensures var (cmd, p') := Plan(st, p, c);
      && (TouchesLog(cmd, id) ==>
           c.Ok? && ((Inserts(Some(p), id) && cmd.InsertAttempt?) || (Closes(Some(p), id) && cmd.CloseAttempts?)))
      && (Inserts(Some(p), id) ==> !Inserts(p', id) && Executes(p', id) && (c.Ok? ==> cmd == InsertAttempt(id)))
      && (Closes(Some(p), id) && c.Ok? ==> cmd.CloseAttempts? && cmd.id == id && (cmd.ok <==> p.CloseOk?))
      && (Inserts(p', id) ==> !Executes(Some(p), id))
      && (ClosesOk(p', id) ==> cmd == MarkTask(id, Succeeded, None))
  {
  }

  predicate ClosesOk(p: Option<Actor>, id: JobId) {
    p.Some? && p.value.CloseOk? && p.value.token.id == id
  }

  /** Whoever is about to close a row as ok has written the status that no one changes again. */
  ghost predicate OkMeansSucceeded(s: Sys, id: JobId) {
    forall a :: a in s.actors && ClosesOk(Some(s.actors[a]), id) ==> s.db.HasStatus(id, Succeeded)
  }

  lemma SucceededStays(s: Sys, e: Event, id: JobId)
    requires Inv(s) && Enabled(s, e) && s.db.HasStatus(id, Succeeded)
    ensures Apply(s, e).db.HasStatus(id, Succeeded)
  {
    hide Inv, Enabled, Apply, Live;
    AbsOk(s, id);
    StepRefines(s, e, id);
  }

  lemma OkMeansSucceededStep(s: Sys, e: Event, id: JobId)
    requires Inv(s) && Enabled(s, e) && OkMeansSucceeded(s, id)
    ensures OkMeansSucceeded(Apply(s, e), id)
  {
    hide Inv, Apply, Plan;
    forall a | a in Apply(s, e).actors && ClosesOk(Some(Apply(s, e).actors[a]), id)
      ensures Apply(s, e).db.HasStatus(id, Succeeded)
    {
      ActorsAfter(s, e, a);
      if ByActor(e, a) {
        MarkedSucceeded(s, e, id);
      } else {
        SucceededStays(s, e, id);
      }
    }
  }

  lemma MarkedSucceeded(s: Sys, e: Event, id: JobId)
    requires Inv(s) && Enabled(s, e) && ClosesOk(Moved(s, e), id)
    ensures Apply(s, e).db.HasStatus(id, Succeeded)
  {
    assert ActorOk(s.db, s.actors[e.a]);
  }

  lemma OnlyClaimsGain(st: Store, p: Actor, c: Outcome, id: JobId)
    requires Executes(Plan(st, p, c).1, id) && !Executes(Some(p), id)
    ensures Inserts(Plan(st, p, c).1, id)
  {
  }

  lemma StatusStays(s: Sys, e: Event, id: JobId)
    requires Inv(s) && Enabled(s, e) && StatusOf(s.db, id) == Succeeded
    ensures StatusOf(Apply(s, e).db, id) == Succeeded
  {
    SucceededStays(s, e, id);
  }

  /** A claim of the job finds no other one waiting to be recorded, and waits to be recorded. */
  lemma ClaimInserts(s: Sys, e: Event, id: JobId)
    requires Inv(s) && Enabled(s, e) && Claims(s, e, id)
    ensures !SomeInserts(s, id) && SomeInserts(Apply(s, e), id)
  {
    OnlyQueuedGains(s, e, id);
    forall a | a in s.actors ensures !Inserts(Some(s.actors[a]), id) {
      QueuedIsQuiet(s, id, a);
    }
    if e.Step? {
      OnlyClaimsGain(s.db, s.actors[e.a], e.outcome, id);
    }
    ActorsAfter(s, e, e.a);
    assert Inserts(Some(Apply(s, e).actors[e.a]), id);
  }

  /** A claim that is recorded, or given up, was the only one waiting. */
  lemma InsertedLast(s: Sys, e: Event, id: JobId)
    requires Inv(s) && Enabled(s, e) && Inserts(Mover(s, e), id)
    ensures SomeInserts(s, id) && !SomeInserts(Apply(s, e), id) && !Claims(s, e, id)
  {
    forall a | a in Apply(s, e).actors ensures !Inserts(Some(Apply(s, e).actors[a]), id) {
      ActorsAfter(s, e, a);
      if ByActor(e, a) && e.Step? {
        PlanTouchesLog(s.db, s.actors[a], e.outcome, id);
      }
    }
  }

  lemma InsertersStay(s: Sys, e: Event, id: JobId)
    requires Inv(s) && Enabled(s, e) && !Inserts(Mover(s, e), id) && !Claims(s, e, id)
    ensures SomeInserts(Apply(s, e), id) <==> SomeInserts(s, id)
  {
    var s' := Apply(s, e);
    if a :| a in s.actors && Inserts(Some(s.actors[a]), id) {
      ActorsAfter(s, e, a);
      assert Inserts(Some(s'.actors[a]), id);
    }
    if a :| a in s'.actors && Inserts(Some(s'.actors[a]), id) {
      ActorsAfter(s, e, a);
      if ByActor(e, a) && e.Step? {
        PlanTouchesLog(s.db, s.actors[a], e.outcome, id);
      }
      assert !ByActor(e, a) ==> Inserts(Some(s.actors[a]), id);
    }
  }

  /** A row more is expected exactly when a claim's turn to be recorded is over. */
  lemma ExpectedStep(s: Sys, e: Event, id: JobId)
    requires Inv(s) && Enabled(s, e)
    ensures Expected(Apply(s, e), id) == Expected(s, id) + if Inserts(Mover(s, e), id) then 1 else 0
  {
    hide Inv, Enabled, Apply, SomeInserts, Claims, AttemptsOf;
    AttemptsCount(s, e, id);
    if Inserts(Mover(s, e), id) {
      InsertedLast(s, e, id);
    } else if Claims(s, e, id) {
      ClaimInserts(s, e, id);
    } else {
      InsertersStay(s, e, id);
    }
  }

  lemma InsertKeepsShape(log: seq<Attempt>, row: Attempt, attempts: int, status: Status)
    requires LogShape(log, attempts - 1, status) && IsOpen(row) && status != Succeeded
    ensures LogShape(log + [row], attempts, status) <==> !SomeOpen(log)
  {
    var log' := log + [row];
    if i :| 0 <= i < |log| && IsOpen(log[i]) {
      assert !ClosedWith(log'[i], false);
    } else {
      forall i | 0 <= i < |log'| - 1 ensures ClosedWith(log'[i], false) {
        assert !IsOpen(log[i]);
      }
    }
  }

  lemma CloseKeepsShape(log: seq<Attempt>, finish: Finish, attempts: int, status: Status)
    requires LogShape(log, attempts, status) && (finish.ok ==> status == Succeeded)
    ensures LogShape(CloseOpen(log, finish), attempts, status)
  {
  }

  /** A claim's turn to be recorded: the log gets its row, or none. */
  lemma LogRecorded(s: Sys, e: Event, id: JobId)
    requires Inv(s) && Enabled(s, e) && Inserts(Mover(s, e), id)
    ensures var row := if e.Step? && e.outcome.Ok? && AttemptFits(s.db, id) then [Attempt(s.db.now, None)] else [];
      Apply(s, e).db.Log(id) == s.db.Log(id) + row
    ensures StatusOf(Apply(s, e).db, id) == StatusOf(s.db, id) != Succeeded
  {
    assert ActorOk(s.db, s.actors[e.a]);
    if e.Step? {
      RecordingPlan(s.db, s.actors[e.a], e.outcome, id);
    }
  }

  lemma RecordingPlan(st: Store, p: Actor, c: Outcome, id: JobId)
    requires Inserts(Some(p), id)
    ensures Plan(st, p, c).0 == if c.Ok? then Command.InsertAttempt(id) else NoOp
  {
  }

  ghost predicate ClosedFrom(log: seq<Attempt>, log': seq<Attempt>, status: Status) {
    exists finish: Finish :: log' == CloseOpen(log, finish) && (finish.ok ==> status == Succeeded)
  }

  /** Any other event leaves the log alone or closes what is open. */
  lemma LogClosed(s: Sys, e: Event, id: JobId)
    requires Inv(s) && Enabled(s, e) && OkMeansSucceeded(s, id) && !Inserts(Mover(s, e), id)
    ensures var log, log' := s.db.Log(id), Apply(s, e).db.Log(id);
      log' == log || ClosedFrom(log, log', StatusOf(s.db, id))
  {
    match e
    case Step(a, c) =>
      PlanTouchesLog(s.db, s.actors[a], c, id);
      var cmd := Plan(s.db, s.actors[a], c).0;
      if TouchesLog(cmd, id) {
        var finish := Finish(s.db.now, cmd.ok, cmd.error);
        assert Apply(s, e).db.Log(id) == CloseOpen(s.db.Log(id), finish);
      } else {
        LogUntouched(s.db, cmd, id);
      }
    case Begin(_, start) => LogUntouched(s.db, StartPlan(s.db, start).0, id);
    case _ =>
  }

  /** The shape is kept by an event if and only if it does not spoil it. */
  lemma ShapeStep(s: Sys, e: Event, id: JobId)
    requires Inv(s) && Enabled(s, e) && OkMeansSucceeded(s, id) && InShape(s, id)
    ensures InShape(Apply(s, e), id) <==> !SpoilsLog(s, e, id)
  {
    hide Inv, Enabled, Apply, Expected, SomeOpen, AttemptFits, AttemptsOf, StatusOf;
    var log, status := s.db.Log(id), StatusOf(s.db, id);
    ExpectedStep(s, e, id);
    if status == Succeeded {
      StatusStays(s, e, id);
    }
    if Inserts(Mover(s, e), id) {
      MoverMoves(s, e);
      LogRecorded(s, e, id);
      InsertKeepsShape(log, Attempt(s.db.now, None), Expected(s, id) + 1, status);
      assert log + [] == log;
    } else {
      LogClosed(s, e, id);
      if Apply(s, e).db.Log(id) != log {
        var finish :| Apply(s, e).db.Log(id) == CloseOpen(log, finish) && (finish.ok ==> status == Succeeded);
        CloseKeepsShape(log, finish, Expected(s, id), status);
      }
    }
  }

  lemma MoverMoves(s: Sys, e: Event)
    requires Enabled(s, e) && Mover(s, e).Some?
    ensures e.Step? || e.Crash?
  {
  }

  // ---------------------------------------------------------------- runs

  ghost predicate NeverSpoils(s: Sys, es: seq<Event>, id: JobId)
    requires IsRun(s, es)
    decreases |es|
  {
    es == [] || (!SpoilsLog(s, es[0], id) && NeverSpoils(Apply(s, es[0]), es[1..], id))
  }

  ghost predicate AlwaysInShape(s: Sys, es: seq<Event>, id: JobId)
    requires IsRun(s, es)
    decreases |es|
  {
    InShape(s, id) && (es == [] || AlwaysInShape(Apply(s, es[0]), es[1..], id))
  }

  lemma {:induction false} ShapeAtEnd(s: Sys, es: seq<Event>, id: JobId)
    requires IsRun(s, es) && AlwaysInShape(s, es, id)
    ensures InShape(After(s, es), id)
    decreases |es|
  {
    if es != [] {
      ShapeAtEnd(Apply(s, es[0]), es[1..], id);
    }
  }

  lemma {:induction false} LogRun(s: Sys, es: seq<Event>, id: JobId)
    requires Inv(s) && OkMeansSucceeded(s, id) && InShape(s, id) && IsRun(s, es)
    ensures AlwaysInShape(s, es, id) <==> NeverSpoils(s, es, id)
    decreases |es|
  {
    hide Inv, Apply, OkMeansSucceeded, InShape, SpoilsLog;
    if es != [] {
      ShapeStep(s, es[0], id);
      if !SpoilsLog(s, es[0], id) {
        OkMeansSucceededStep(s, es[0], id);
        InvStep(s, es[0]);
        LogRun(Apply(s, es[0]), es[1..], id);
      } else {
        OutOfShape(Apply(s, es[0]), es[1..], id);
      }
    }
  }

  lemma OutOfShape(s: Sys, es: seq<Event>, id: JobId)
    requires IsRun(s, es) && !InShape(s, id)
    ensures !AlwaysInShape(s, es, id)
  {
  }

  /** The log has its shape in every state of a run if and only if each claim is recorded, and at a
      time when no earlier row is open: exactly attempts rows, one less while a claim waits to be
      recorded, the earlier ones closed as failed, an ok row last and only on a succeeded job. */
  lemma LogKeepsShape(s0: Sys, es: seq<Event>, id: JobId)
    requires Init(s0) && IsRun(s0, es)
    ensures AlwaysInShape(s0, es, id) <==> NeverSpoils(s0, es, id)
    ensures var s := After(s0, es);
      NeverSpoils(s0, es, id) && id in s.db.tasks && !SomeInserts(s, id) ==>
        LogShape(s.db.Log(id), s.db.tasks[id].attempts, s.db.tasks[id].status)
  {
    InitInv(s0);
    LogRun(s0, es, id);
    if NeverSpoils(s0, es, id) {
      ShapeAtEnd(s0, es, id);
    }
  }

  /** The condition on claims is exact: a claim and its InsertAttempt, run together on a log
      that has its shape, leave it in shape exactly when no earlier row was open. */
  lemma ClaimKeepsShapeIff(st: Store, id: JobId)
    requires st.HasStatus(id, Queued) && AttemptFits(st, id)
    requires LogShape(st.Log(id), st.tasks[id].attempts, Queued)
    ensures var st' := Do(Do(st, ClaimTask(id)), InsertAttempt(id));
      LogShape(st'.Log(id), st'.tasks[id].attempts, st'.tasks[id].status) <==> !SomeOpen(st.Log(id))
  {
    var st1 := Do(st, ClaimTask(id));
    var st' := Do(st1, InsertAttempt(id));
    var log := st.Log(id);
    assert st'.Log(id) == log + [Attempt(st.now, None)];
    InsertKeepsShape(log, Attempt(st.now, None), st.tasks[id].attempts + 1, Running);
  }

  // ---------------------------------------------------------------- conditions on single events

  /** Between a claim and its record, or between a status write and the closing of the row. */
  predicate Pressing(p: Actor) {
    p.Claimed? || p.CloseOk? || p.CloseFailed?
  }

  /** Claim and record are one step, so are status write and closing, and both audit writes
      succeed: nobody else moves while a program is in between. */
  ghost predicate Prompt(s: Sys, e: Event)
    requires Enabled(s, e)
  {
    forall a :: a in s.actors && Pressing(s.actors[a]) ==>
      e == Step(a, Ok) && (s.actors[a].Claimed? ==> AttemptFits(s.db, s.actors[a].token.id))
  }

  ghost predicate AllPrompt(s: Sys, es: seq<Event>)
    requires IsRun(s, es)
    decreases |es|
  {
    es == [] || (Prompt(s, es[0]) && AllPrompt(Apply(s, es[0]), es[1..]))
  }

  ghost predicate SomeClosesFailed(s: Sys, id: JobId) {
    exists a :: a in s.actors && s.actors[a].CloseFailed? && s.actors[a].token.id == id
  }

  /** A job that can still be claimed, or has just been, has no open row, up to the closing that is
      due. */
  ghost predicate Tidy(s: Sys, id: JobId) {
    SomeOpen(s.db.Log(id)) ==>
      id in s.db.tasks && s.db.tasks[id].status != Queued
      && (s.db.tasks[id].status == Retry ==> SomeClosesFailed(s, id))
      && !SomeInserts(s, id)
  }

  lemma PromptSpoilsNothing(s: Sys, e: Event, id: JobId)
    requires Enabled(s, e) && Tidy(s, id) && Prompt(s, e)
    ensures !SpoilsLog(s, e, id)
  {
    if Inserts(Mover(s, e), id) {
      assert Pressing(s.actors[e.a]);
    }
  }

  lemma CloseLeavesNoneOpen(log: seq<Attempt>, finish: Finish)
    ensures !SomeOpen(CloseOpen(log, finish))
  {
  }

  predicate WritesRetry(cmd: Command, id: JobId) {
    match cmd
    case MarkTask(i, status, _) => i == id && status == Retry
    case InsertTask(i, row) => i == id && row.status == Retry
    case _ => false
  }

  lemma OnlyTheseRetry(st: Store, cmd: Command, id: JobId)
    requires !st.HasStatus(id, Retry) && Do(st, cmd).HasStatus(id, Retry)
    ensures WritesRetry(cmd, id)
  {
    if !TouchesRow(cmd, id) {
      Untouched(st, cmd, id);
      assert false;
    }
  }

  lemma PlanWritesRetry(st: Store, p: Actor, c: Outcome, id: JobId)
    requires ActorOk(st, p) && WritesRetry(Plan(st, p, c).0, id)
    ensures var p' := Plan(st, p, c).1;
      p'.Some? && p'.value.CloseFailed? && p'.value.token.id == id
  {
  }

  /** Only the retry write brings a job into status retry, and its closing is due next. */
  lemma RetryIsClosedNext(s: Sys, a: ActorId, c: Outcome, id: JobId)
    requires Inv(s) && a in s.actors && !s.db.HasStatus(id, Retry)
    requires Apply(s, Step(a, c)).db.HasStatus(id, Retry)
    ensures SomeClosesFailed(Apply(s, Step(a, c)), id)
  {
    OnlyTheseRetry(s.db, Plan(s.db, s.actors[a], c).0, id);
    PlanWritesRetry(s.db, s.actors[a], c, id);
    var s' := Apply(s, Step(a, c));
    assert a in s'.actors && s'.actors[a].CloseFailed?;
  }

  lemma TidyStep(s: Sys, e: Event, id: JobId)
    requires Inv(s) && Enabled(s, e) && Tidy(s, id) && Prompt(s, e)
    ensures Tidy(Apply(s, e), id)
  {
    EventMoves(s, e, id);
    match e
    case Step(a, c) => TidyOwnStep(s, a, c, id);
    case Begin(_, start) =>
      Untouched(s.db, StartPlan(s.db, start).0, id);
      LogUntouched(s.db, StartPlan(s.db, start).0, id);
      TidyElsewhere(s, e, id);
    case _ => TidyElsewhere(s, e, id);
  }

  /** An event that is no step leaves the row and the log alone, and nobody is pressing. */
  lemma TidyElsewhere(s: Sys, e: Event, id: JobId)
    requires Enabled(s, e) && Tidy(s, id) && Prompt(s, e) && !e.Step?
    requires Apply(s, e).db.RowAt(id) == s.db.RowAt(id) && Apply(s, e).db.Log(id) == s.db.Log(id)
    ensures Tidy(Apply(s, e), id)
  {
    assert !SomeClosesFailed(s, id);
    assert Apply(s, e).db.RowAt(id).Some? <==> id in Apply(s, e).db.tasks;
    assert s.db.RowAt(id).Some? <==> id in s.db.tasks;
  }

  lemma TidyOwnStep(s: Sys, a: ActorId, c: Outcome, id: JobId)
    requires Inv(s) && a in s.actors && Tidy(s, id) && Prompt(s, Step(a, c))
    ensures Tidy(Apply(s, Step(a, c)), id)
  {
    var p := s.actors[a];
    var (cmd, p') := Plan(s.db, p, c);
    PlanTouchesLog(s.db, p, c, id);
    if Closes(Some(p), id) {
      assert Pressing(p) && c == Ok;
      CloseLeavesNoneOpen(s.db.Log(id), Finish(s.db.now, cmd.ok, cmd.error));
    } else if Inserts(Some(p), id) {
      assert ActorOk(s.db, p);
      assert Apply(s, Step(a, c)).db.tasks == s.db.tasks;
    } else {
      LogUntouched(s.db, cmd, id);
      if SomeOpen(s.db.Log(id)) {
        TidyWorkingStep(s, a, c, id);
      }
    }
  }

  lemma NobodyElseCloses(s: Sys, a: ActorId, c: Outcome, id: JobId)
    requires a in s.actors && Prompt(s, Step(a, c)) && !Closes(Some(s.actors[a]), id)
    ensures !SomeClosesFailed(s, id)
  {
    if b :| b in s.actors && s.actors[b].CloseFailed? && s.actors[b].token.id == id {
      assert Pressing(s.actors[b]);
    }
  }

  lemma NoNewInserter(s: Sys, e: Event, id: JobId)
    requires Inv(s) && Enabled(s, e) && !SomeInserts(s, id) && !s.db.HasStatus(id, Queued)
    ensures !SomeInserts(Apply(s, e), id)
  {
    if Claims(s, e, id) {
      OnlyQueuedGains(s, e, id);
    } else {
      assert Inserts(Mover(s, e), id) ==> SomeInserts(s, id);
      InsertersStay(s, e, id);
    }
  }

  lemma TidyWorkingStep(s: Sys, a: ActorId, c: Outcome, id: JobId)
    requires Inv(s) && a in s.actors && Tidy(s, id) && Prompt(s, Step(a, c))
    requires !Closes(Some(s.actors[a]), id) && SomeOpen(s.db.Log(id))
    requires Apply(s, Step(a, c)).db.Log(id) == s.db.Log(id)
    ensures Tidy(Apply(s, Step(a, c)), id)
  {
    hide Inv, Apply, Plan, Prompt, SomeClosesFailed, SomeInserts, Claims;
    NobodyElseCloses(s, a, c, id);
    EventMoves(s, Step(a, c), id);
    NoNewInserter(s, Step(a, c), id);
    if Apply(s, Step(a, c)).db.HasStatus(id, Retry) {
      RetryIsClosedNext(s, a, c, id);
    }
  }

  lemma {:induction false} PromptRun(s: Sys, es: seq<Event>, id: JobId)
    requires Inv(s) && IsRun(s, es) && Tidy(s, id) && AllPrompt(s, es)
    ensures NeverSpoils(s, es, id)
    decreases |es|
  {
    if es != [] {
      PromptSpoilsNothing(s, es[0], id);
      TidyStep(s, es[0], id);
      InvStep(s, es[0]);
      PromptRun(Apply(s, es[0]), es[1..], id);
    }
  }

  /** With claim and record one step, status write and closing one step, and audit writes that
      succeed, every job's log has its shape in every run. */
  lemma PromptRunsKeepShape(s0: Sys, es: seq<Event>, id: JobId)
    requires Init(s0) && IsRun(s0, es) && AllPrompt(s0, es)
    ensures var s := After(s0, es);
      id in s.db.tasks && !SomeInserts(s, id) ==>
        LogShape(s.db.Log(id), s.db.tasks[id].attempts, s.db.tasks[id].status)
  {
    InitInv(s0);
    PromptRun(s0, es, id);
    LogKeepsShape(s0, es, id);
  }
}

/** Runs that show that each condition on the main theorems is needed. They all follow one job
    with max_attempts 3, submitted at time 0 into an otherwise empty system. */
module Counterexamples {
  import opened Types
  import opened Stores
  import opened Protocol
  import Wakeups
  import Timing
  import Audit
  import Durability
  import Backoff

  const TOKEN: JobToken := Token(0, "noop", High)
  const SECOND := Backoff.SECOND

  type Actors = map<ActorId, Actor>
  type Logs = map<JobId, seq<Attempt>>

  function Job(status: Status, attempts: int, next: Option<int>, updated: int): Row {
    Row("noop", High, "", status, attempts, 3, next, 0, updated)
  }

  /** A system with the one job and nothing on any other list. */
  function World(row: Row, logs: Logs, pending: seq<Item>, processing: seq<Item>, now: int, actors: Actors): Sys {
    Sys(Store(map[0 := row], logs, map[Pending(High) := pending, Processing := processing], now), actors)
  }

  const START := Sys(Store(map[], map[], map[Pending(High) := [], Processing := []], 0), map[])

  /** Claim times add up over consecutive runs. */
  lemma {:induction false} ClaimTimesAdd(s: Sys, es: seq<Event>, fs: seq<Event>)
    requires IsRun(s, es) && IsRun(After(s, es), fs) && IsRun(s, es + fs)
    ensures Timing.ClaimTimes(s, es + fs, 0) == Timing.ClaimTimes(s, es, 0) + Timing.ClaimTimes(After(s, es), fs, 0)
    decreases |es|
  {
    if es == [] {
      assert es + fs == fs;
    } else {
      assert (es + fs)[0] == es[0] && (es + fs)[1..] == es[1..] + fs;
      ClaimTimesAdd(Apply(s, es[0]), es[1..], fs);
    }
  }

  /** Nobody stops, and no statement or command fails; a handler may. */
  ghost predicate Untroubled(s: Sys, es: seq<Event>)
    requires IsRun(s, es)
    decreases |es|
  {
    es == [] || (NoTrouble(s, es[0]) && Untroubled(Apply(s, es[0]), es[1..]))
  }

  ghost predicate NoTrouble(s: Sys, e: Event)
    requires Enabled(s, e)
  {
    !e.Crash? && (e.Step? && e.outcome.Err? ==> s.actors[e.a].Executing?)
  }

  lemma {:induction false} UntroubledAdds(s: Sys, es: seq<Event>, fs: seq<Event>)
    requires IsRun(s, es) && IsRun(After(s, es), fs) && IsRun(s, es + fs)
    requires Untroubled(s, es) && Untroubled(After(s, es), fs)
    ensures Untroubled(s, es + fs)
    decreases |es|
  {
    if es == [] {
      assert es + fs == fs;
    } else {
      assert (es + fs)[0] == es[0] && (es + fs)[1..] == es[1..] + fs;
      UntroubledAdds(Apply(s, es[0]), es[1..], fs);
    }
  }

  /** An untroubled run, with the claims of job 0. */
  ghost predicate Leads(s: Sys, es: seq<Event>, s': Sys, claims: seq<int>) {
    IsRun(s, es) && After(s, es) == s' && Timing.ClaimTimes(s, es, 0) == claims && Untroubled(s, es)
  }

  lemma Then(s: Sys, es: seq<Event>, s1: Sys, c: seq<int>, fs: seq<Event>, s2: Sys, d: seq<int>)
    requires Leads(s, es, s1, c) && Leads(s1, fs, s2, d)
    ensures Leads(s, es + fs, s2, c + d)
  {
    RunsCompose(s, es, fs);
    ClaimTimesAdd(s, es, fs);
    UntroubledAdds(s, es, fs);
  }

  lemma OneStep(s: Sys, e: Event)
    requires Enabled(s, e) && NoTrouble(s, e)
    ensures Leads(s, [e], Apply(s, e), Timing.ClaimNow(s, e, 0))
  {
    assert [e][1..] == [];
    assert Untroubled(Apply(s, e), []);
    assert Timing.ClaimTimes(Apply(s, e), [], 0) == [];
  }

  // ---------------------------------------------------------------- steps of the one job

  /** The job is submitted and its token pushed. */
  const SUBMIT: seq<Event> := [Begin(0, Submit(0, Job(Queued, 0, None, 0)))] + [Step(0, Ok)] + [Step(0, Ok)]

  function Submitted(): Sys {
    World(Job(Queued, 0, None, 0), map[], [TOKEN], [], 0, map[])
  }

  lemma SubmitLeads()
    ensures Init(START) && Leads(START, SUBMIT, Submitted(), [])
  {
    var row := Job(Queued, 0, None, 0);
    var s1 := Sys(START.db, map[0 := Submitting(0, row)]);
    var s2 := World(row, map[], [], [], 0, map[0 := SubmitPush(0, row)]);
    OneStep(START, Begin(0, Submit(0, row)));
    assert Apply(START, Begin(0, Submit(0, row))) == s1;
    OneStep(s1, Step(0, Ok));
    assert Apply(s1, Step(0, Ok)) == s2;
    OneStep(s2, Step(0, Ok));
    assert [TOKEN] + [] == [TOKEN];
    assert Apply(s2, Step(0, Ok)) == Submitted();
    Then(START, [Begin(0, Submit(0, row))], s1, [], [Step(0, Ok)], s2, []);
    Then(START, [Begin(0, Submit(0, row))] + [Step(0, Ok)], s2, [], [Step(0, Ok)], Submitted(), []);
  }

  lemma PopLeads(row: Row, logs: Logs, processing: seq<Item>, now: int, actors: Actors, a: ActorId)
    requires a !in actors
    ensures var s := World(row, logs, [TOKEN], processing, now, actors);
      Leads(s, [Begin(a, Pop(High))],
            World(row, logs, [], [TOKEN] + processing, now, actors[a := Popped(TOKEN, Pending(High))]), [])
  {
    var s, e := World(row, logs, [TOKEN], processing, now, actors), Begin(a, Pop(High));
    assert s.db.List(Pending(High)) == [TOKEN] && [TOKEN][..0] == [];
    OneStep(s, e);
    assert Apply(s, e) ==
      World(row, logs, [], [TOKEN] + processing, now, actors[a := Popped(TOKEN, Pending(High))]);
  }

  lemma ClaimLeads(n: int, next: Option<int>, u: int, logs: Logs, processing: seq<Item>, now: int,
                   actors: Actors, a: ActorId)
    requires a in actors && actors[a] == Popped(TOKEN, Pending(High))
    ensures var s := World(Job(Queued, n, next, u), logs, [], processing, now, actors);
      Leads(s, [Step(a, Ok)],
            World(Job(Running, n + 1, next, now), logs, [], processing, now, actors[a := Claimed(TOKEN)]), [now])
  {
    var s, e := World(Job(Queued, n, next, u), logs, [], processing, now, actors), Step(a, Ok);
    OneStep(s, e);
    assert Apply(s, e) ==
      World(Job(Running, n + 1, next, now), logs, [], processing, now, actors[a := Claimed(TOKEN)]);
  }

  function Log(logs: Logs): seq<Attempt> {
    if 0 in logs then logs[0] else []
  }

  lemma RecordLeads(row: Row, logs: Logs, processing: seq<Item>, now: int, actors: Actors, a: ActorId)
    requires a in actors && actors[a] == Claimed(TOKEN)
    requires forall i :: 0 <= i < |Log(logs)| ==> Log(logs)[i].startedAt != now
    ensures var s := World(row, logs, [], processing, now, actors);
      Leads(s, [Step(a, Ok)],
            World(row, logs[0 := Log(logs) + [Attempt(now, None)]], [], processing, now,
                  actors[a := Loading(TOKEN)]), [])
  {
    var s, e := World(row, logs, [], processing, now, actors), Step(a, Ok);
    OneStep(s, e);
    assert s.db.Log(0) == Log(logs);
    assert Apply(s, e) ==
      World(row, logs[0 := Log(logs) + [Attempt(now, None)]], [], processing, now, actors[a := Loading(TOKEN)]);
  }

  /** The handler fails and the retry is written; the row of the attempt is still open. */
  function Fail(a: ActorId): seq<Event> {
    [Step(a, Ok)] + [Step(a, Err(""))] + [Step(a, Ok)]
  }

  lemma LoadLeads(row: Row, logs: Logs, processing: seq<Item>, now: int, actors: Actors, a: ActorId)
    requires a in actors && actors[a] == Loading(TOKEN)
    ensures Leads(World(row, logs, [], processing, now, actors), [Step(a, Ok)],
                  World(row, logs, [], processing, now, actors[a := Executing(TOKEN, row)]), [])
  {
    var s := World(row, logs, [], processing, now, actors);
    OneStep(s, Step(a, Ok));
    assert Apply(s, Step(a, Ok)) == World(row, logs, [], processing, now, actors[a := Executing(TOKEN, row)]);
  }

  lemma HandlerLeads(row: Row, logs: Logs, processing: seq<Item>, now: int, actors: Actors, a: ActorId)
    requires a in actors && actors[a] == Executing(TOKEN, row) && 1 <= row.attempts < row.maxAttempts
    ensures Leads(World(row, logs, [], processing, now, actors), [Step(a, Err(""))],
                  World(row, logs, [], processing, now,
                        actors[a := MarkRetry(TOKEN, row, "", now + Backoff.Delay(row.attempts))]), [])
  {
    var s := World(row, logs, [], processing, now, actors);
    OneStep(s, Step(a, Err("")));
    assert Apply(s, Step(a, Err(""))) ==
      World(row, logs, [], processing, now,
            actors[a := MarkRetry(TOKEN, row, "", now + Backoff.Delay(row.attempts))]);
  }

  lemma MarkLeads(status: Status, n: int, next: Option<int>, u: int, logs: Logs, processing: seq<Item>, now: int,
                  actors: Actors, a: ActorId, job: Row, at: int)
    requires a in actors && actors[a] == MarkRetry(TOKEN, job, "", at)
    ensures Leads(World(Job(status, n, next, u), logs, [], processing, now, actors), [Step(a, Ok)],
                  World(Job(Retry, n, Some(at), now), logs, [], processing, now,
                        actors[a := CloseFailed(TOKEN, "")]), [])
  {
    var s := World(Job(status, n, next, u), logs, [], processing, now, actors);
    OneStep(s, Step(a, Ok));
    assert Apply(s, Step(a, Ok)) ==
      World(Job(Retry, n, Some(at), now), logs, [], processing, now, actors[a := CloseFailed(TOKEN, "")]);
  }

  lemma FailLeads(status: Status, n: int, next: Option<int>, u: int, logs: Logs, processing: seq<Item>, now: int,
                  actors: Actors, a: ActorId)
    requires a in actors && actors[a] == Loading(TOKEN) && 1 <= n <= 2
    ensures Leads(World(Job(status, n, next, u), logs, [], processing, now, actors), Fail(a),
                  World(Job(Retry, n, Some(now + Backoff.Delay(n)), now), logs, [], processing, now,
                        actors[a := CloseFailed(TOKEN, "")]), [])
  {
    hide Leads;
    var row, at := Job(status, n, next, u), now + Backoff.Delay(n);
    var actors1 := actors[a := Executing(TOKEN, row)];
    var actors2 := actors[a := MarkRetry(TOKEN, row, "", at)];
    LoadLeads(row, logs, processing, now, actors, a);
    HandlerLeads(row, logs, processing, now, actors1, a);
    MarkLeads(status, n, next, u, logs, processing, now, actors2, a, row, at);
    assert actors1[a := MarkRetry(TOKEN, row, "", at)] == actors2;
    assert actors2[a := CloseFailed(TOKEN, "")] == actors[a := CloseFailed(TOKEN, "")];
    var s, s1, s2 := World(row, logs, [], processing, now, actors), World(row, logs, [], processing, now, actors1),
      World(row, logs, [], processing, now, actors2);
    var s3 := World(Job(Retry, n, Some(at), now), logs, [], processing, now, actors[a := CloseFailed(TOKEN, "")]);
    Then(s, [Step(a, Ok)], s1, [], [Step(a, Err(""))], s2, []);
    Then(s, [Step(a, Ok)] + [Step(a, Err(""))], s2, [], [Step(a, Ok)], s3, []);
  }

  lemma ScanLeads(n: int, due: int, u: int, logs: Logs, processing: seq<Item>, now: int, actors: Actors, a: ActorId)
    requires a !in actors && due <= now
    ensures var s := World(Job(Retry, n, Some(due), u), logs, [], processing, now, actors);
      Leads(s, [Begin(a, Pump([0]))],
            World(Job(Retry, n, Some(due), u), logs, [], processing, now,
                  actors[a := PumpScan([RetryRow(0, "noop", High, n, 3)])]), [])
  {
    var s, e := World(Job(Retry, n, Some(due), u), logs, [], processing, now, actors), Begin(a, Pump([0]));
    assert IsRetryBatch(s.db, [0]);
    OneStep(s, e);
    assert StartPlan(s.db, Pump([0])).1.rows == [RetryRow(0, "noop", High, n, 3)];
    assert Apply(s, e) == World(Job(Retry, n, Some(due), u), logs, [], processing, now,
                                actors[a := PumpScan([RetryRow(0, "noop", High, n, 3)])]);
  }

  /** The pump requeues the job, whether or not its next run is due. */
  lemma RequeueLeads(due: RetryRow, n: int, next: Option<int>, u: int, logs: Logs, processing: seq<Item>, now: int,
                     actors: Actors, a: ActorId)
    requires due.id == 0 && due.attempts < due.maxAttempts
    requires a in actors && actors[a] == PumpScan([due])
    ensures Leads(World(Job(Retry, n, next, u), logs, [], processing, now, actors), [Step(a, Ok)],
                  World(Job(Queued, n, next, now), logs, [], processing, now, actors[a := PumpPush(due, [])]), [])
  {
    var s := World(Job(Retry, n, next, u), logs, [], processing, now, actors);
    assert [due][1..] == [];
    OneStep(s, Step(a, Ok));
    assert Apply(s, Step(a, Ok)) ==
      World(Job(Queued, n, next, now), logs, [], processing, now, actors[a := PumpPush(due, [])]);
  }

  lemma PushedWorld(row: Row, logs: Logs, processing: seq<Item>, now: int, actors: Actors)
    ensures Do(World(row, logs, [], processing, now, actors).db, Push(Pending(High), TOKEN))
         == World(row, logs, [TOKEN], processing, now, actors).db
  {
    assert [TOKEN] + [] == [TOKEN];
  }

  lemma PushLeads(row: Row, m: int, logs: Logs, processing: seq<Item>, now: int, actors: Actors, a: ActorId)
    requires a in actors && actors[a] == PumpPush(RetryRow(0, "noop", High, m, 3), [])
    ensures Leads(World(row, logs, [], processing, now, actors), [Step(a, Ok)],
                  World(row, logs, [TOKEN], processing, now, actors[a := PumpScan([])]), [])
  {
    var s := World(row, logs, [], processing, now, actors);
    assert PumpPlan(s.db, actors[a], Ok) == (Push(Pending(High), TOKEN), Some(PumpScan([])));
    OneStep(s, Step(a, Ok));
    PushedWorld(row, logs, processing, now, actors);
    assert Apply(s, Step(a, Ok)) == World(row, logs, [TOKEN], processing, now, actors[a := PumpScan([])]);
  }

  lemma WaitLeads(row: Row, logs: Logs, processing: seq<Item>, now: int, actors: Actors)
    ensures Leads(World(row, logs, [], processing, now, actors), [Tick(SECOND)],
                  World(row, logs, [], processing, now + SECOND, actors), [])
  {
    OneStep(World(row, logs, [], processing, now, actors), Tick(SECOND));
  }

  lemma FirstDelays()
    ensures Backoff.Delay(1) == SECOND && Backoff.Delay(2) == 2 * SECOND
  {
    Backoff.DelayIsExactIff(1);
    Backoff.DelayIsExactIff(2);
  }

  /** A worker pops the job, claims it and records the attempt. */
  function Take(a: ActorId): seq<Event> {
    [Begin(a, Pop(High))] + [Step(a, Ok)] + [Step(a, Ok)]
  }

  lemma TakeLeads(n: int, next: Option<int>, u: int, logs: Logs, processing: seq<Item>, now: int,
                  actors: Actors, a: ActorId)
    requires a !in actors
    requires forall i :: 0 <= i < |Log(logs)| ==> Log(logs)[i].startedAt != now
    ensures Leads(World(Job(Queued, n, next, u), logs, [TOKEN], processing, now, actors), Take(a),
                  World(Job(Running, n + 1, next, now), logs[0 := Log(logs) + [Attempt(now, None)]], [],
                        [TOKEN] + processing, now, actors[a := Loading(TOKEN)]), [now])
  {
    hide Leads;
    var actors1, actors2 := actors[a := Popped(TOKEN, Pending(High))], actors[a := Claimed(TOKEN)];
    var actors3, held := actors[a := Loading(TOKEN)], [TOKEN] + processing;
    PopLeads(Job(Queued, n, next, u), logs, processing, now, actors, a);
    ClaimLeads(n, next, u, logs, held, now, actors1, a);
    RecordLeads(Job(Running, n + 1, next, now), logs, held, now, actors2, a);
    assert actors1[a := Claimed(TOKEN)] == actors2 && actors2[a := Loading(TOKEN)] == actors3;
    var s := World(Job(Queued, n, next, u), logs, [TOKEN], processing, now, actors);
    var s1 := World(Job(Queued, n, next, u), logs, [], held, now, actors1);
    var s2 := World(Job(Running, n + 1, next, now), logs, [], held, now, actors2);
    var s3 := World(Job(Running, n + 1, next, now), logs[0 := Log(logs) + [Attempt(now, None)]], [], held, now,
                    actors3);
    Then(s, [Begin(a, Pop(High))], s1, [], [Step(a, Ok)], s2, [now]);
    Then(s, [Begin(a, Pop(High))] + [Step(a, Ok)], s2, [] + [now], [Step(a, Ok)], s3, []);
    assert [] + [now] + [] == [now];
  }

  /** One failed attempt up to its retry write. */
  lemma AttemptLeads(n: int, next: Option<int>, u: int, logs: Logs, processing: seq<Item>, now: int,
                     actors: Actors, a: ActorId)
    requires a !in actors && 0 <= n <= 1
    requires forall i :: 0 <= i < |Log(logs)| ==> Log(logs)[i].startedAt != now
    ensures Leads(World(Job(Queued, n, next, u), logs, [TOKEN], processing, now, actors), Take(a) + Fail(a),
                  World(Job(Retry, n + 1, Some(now + Backoff.Delay(n + 1)), now),
                        logs[0 := Log(logs) + [Attempt(now, None)]], [],
                        [TOKEN] + processing, now, actors[a := CloseFailed(TOKEN, "")]), [now])
  {
    hide Leads;
    var logs' := logs[0 := Log(logs) + [Attempt(now, None)]];
    TakeLeads(n, next, u, logs, processing, now, actors, a);
    FailLeads(Running, n + 1, next, now, logs', [TOKEN] + processing, now, actors[a := Loading(TOKEN)], a);
    assert actors[a := Loading(TOKEN)][a := CloseFailed(TOKEN, "")] == actors[a := CloseFailed(TOKEN, "")];
    Then(World(Job(Queued, n, next, u), logs, [TOKEN], processing, now, actors), Take(a),
         World(Job(Running, n + 1, next, now), logs', [], [TOKEN] + processing, now, actors[a := Loading(TOKEN)]),
         [now],
         Fail(a),
         World(Job(Retry, n + 1, Some(now + Backoff.Delay(n + 1)), now), logs', [], [TOKEN] + processing, now,
               actors[a := CloseFailed(TOKEN, "")]), []);
    assert [now] + [] == [now];
  }

  /** A pump that has scanned the job requeues it and pushes its token. */
  lemma WakeLeads(m: int, n: int, next: Option<int>, u: int, logs: Logs, processing: seq<Item>, now: int,
                  actors: Actors, a: ActorId)
    requires a in actors && actors[a] == PumpScan([RetryRow(0, "noop", High, m, 3)]) && m < 3
    ensures Leads(World(Job(Retry, n, next, u), logs, [], processing, now, actors), [Step(a, Ok)] + [Step(a, Ok)],
                  World(Job(Queued, n, next, now), logs, [TOKEN], processing, now, actors[a := PumpScan([])]), [])
  {
    var due := RetryRow(0, "noop", High, m, 3);
    RequeueLeads(due, n, next, u, logs, processing, now, actors, a);
    PushLeads(Job(Queued, n, next, now), m, logs, processing, now, actors[a := PumpPush(due, [])], a);
    assert actors[a := PumpPush(due, [])][a := PumpScan([])] == actors[a := PumpScan([])];
    Then(World(Job(Retry, n, next, u), logs, [], processing, now, actors), [Step(a, Ok)],
         World(Job(Queued, n, next, now), logs, [], processing, now, actors[a := PumpPush(due, [])]), [],
         [Step(a, Ok)],
         World(Job(Queued, n, next, now), logs, [TOKEN], processing, now, actors[a := PumpScan([])]), []);
  }

  // ---------------------------------------------------------------- a failed first attempt

  const FAILED_ONCE: seq<Event> := SUBMIT + (Take(1) + Fail(1)) + [Tick(SECOND)]
  const LOG1: Logs := map[0 := [Attempt(0, None)]]
  const CLOSING1: Actors := map[1 := CloseFailed(TOKEN, "")]

  /** After one second the retry is due; worker 1 has not closed its attempt row yet. */
  function FailedOnce(): Sys {
    World(Job(Retry, 1, Some(SECOND), 0), LOG1, [], [TOKEN], SECOND, CLOSING1)
  }

  lemma FailedOnceLeads()
    ensures Init(START) && Leads(START, FAILED_ONCE, FailedOnce(), [0])
  {
    hide Leads, World, Init, IsRun, After;
    FirstDelays();
    SubmitLeads();
    AttemptLeads(0, None, 0, map[], [], 0, map[], 1);
    var s := World(Job(Retry, 1, Some(SECOND), 0), LOG1, [], [TOKEN], 0, CLOSING1);
    assert [TOKEN] + [] == [TOKEN];
    assert Log(map[]) + [Attempt(0, None)] == [Attempt(0, None)];
    Then(START, SUBMIT, Submitted(), [], Take(1) + Fail(1), s, [0]);
    assert [] + [0] == [0];
    WaitLeads(Job(Retry, 1, Some(SECOND), 0), LOG1, [TOKEN], 0, CLOSING1);
    Then(START, SUBMIT + (Take(1) + Fail(1)), s, [0], [Tick(SECOND)], FailedOnce(), []);
    assert [0] + [] == [0];
  }

  const ROW1 := RetryRow(0, "noop", High, 1, 3)
  const RETRIED: seq<Event> := FAILED_ONCE + [Begin(3, Pump([0]))] + ([Step(3, Ok)] + [Step(3, Ok)])

  function Retried(): Sys {
    World(Job(Queued, 1, Some(SECOND), SECOND), LOG1, [TOKEN], [TOKEN], SECOND, CLOSING1[3 := PumpScan([])])
  }

  lemma RetriedLeads()
    ensures Leads(START, RETRIED, Retried(), [0])
  {
    hide Leads;
    FailedOnceLeads();
    ScanLeads(1, SECOND, 0, LOG1, [TOKEN], SECOND, CLOSING1, 3);
    var scanned := CLOSING1[3 := PumpScan([ROW1])];
    var s := World(Job(Retry, 1, Some(SECOND), 0), LOG1, [], [TOKEN], SECOND, scanned);
    Then(START, FAILED_ONCE, FailedOnce(), [0], [Begin(3, Pump([0]))], s, []);
    WakeLeads(1, 1, Some(SECOND), 0, LOG1, [TOKEN], SECOND, scanned, 3);
    assert scanned[3 := PumpScan([])] == CLOSING1[3 := PumpScan([])];
    assert [0] + [] == [0];
    Then(START, FAILED_ONCE + [Begin(3, Pump([0]))], s, [0], [Step(3, Ok)] + [Step(3, Ok)], Retried(), []);
  }

  // ---------------------------------------------------------------- the attempt log

  /** A retry that is claimed before the failed attempt's row is closed. */
  const LATE_CLOSE: seq<Event> := RETRIED + Take(4)

  const LOG2: seq<Attempt> := [Attempt(0, None)] + [Attempt(SECOND, None)]

  function Overlapping(): Sys {
    World(Job(Running, 2, Some(SECOND), SECOND), LOG1[0 := LOG2], [], [TOKEN] + [TOKEN], SECOND,
          CLOSING1[3 := PumpScan([])][4 := Loading(TOKEN)])
  }

  lemma OverlappingLeads()
    ensures Leads(START, LATE_CLOSE, Overlapping(), [0] + [SECOND])
  {
    hide Leads;
    RetriedLeads();
    TakeLeads(1, Some(SECOND), SECOND, LOG1, [TOKEN], SECOND, CLOSING1[3 := PumpScan([])], 4);
    assert Log(LOG1) + [Attempt(SECOND, None)] == LOG2;
    Then(START, RETRIED, Retried(), [0], Take(4), Overlapping(), [SECOND]);
  }

  /** A log goes out of shape, with no write failing and nobody stopping: two rows are open. */
  lemma LateCloseSpoilsLog()
    ensures Init(START) && IsRun(START, LATE_CLOSE) && Untroubled(START, LATE_CLOSE)
    ensures var s := After(START, LATE_CLOSE);
      && |s.db.Log(0)| == 2 && Audit.IsOpen(s.db.Log(0)[0]) && Audit.IsOpen(s.db.Log(0)[1])
      && !Audit.SomeInserts(s, 0) && s.db.HasStatus(0, Running)
      && !Audit.LogShape(s.db.Log(0), s.db.tasks[0].attempts, s.db.tasks[0].status)
  {
    SubmitLeads();
    OverlappingLeads();
    assert Overlapping().db.Log(0) == LOG2;
    assert !Audit.ClosedWith(LOG2[0], false);
  }

  /** The failed attempt's UpdateAttemptOnFailure comes now. */
  const CLOSED_LATE: seq<Event> := LATE_CLOSE + [Step(1, Ok)]

  /** It closes the row of the running attempt as failed, too. */
  lemma LateCloseHitsRunningAttempt()
    ensures Init(START) && IsRun(START, CLOSED_LATE) && Untroubled(START, CLOSED_LATE)
    ensures var s := After(START, CLOSED_LATE);
      && s.db.HasStatus(0, Running) && s.db.tasks[0].attempts == 2
      && |s.db.Log(0)| == 2 && Audit.ClosedWith(s.db.Log(0)[1], false)
      && 4 in s.actors && s.actors[4] == Loading(TOKEN)
  {
    hide Leads;
    SubmitLeads();
    OverlappingLeads();
    LateCloseLeads();
    Then(START, LATE_CLOSE, Overlapping(), [0] + [SECOND], [Step(1, Ok)], ClosedTooSoon(), []);
    LeadsMeans(START, CLOSED_LATE, ClosedTooSoon(), [0] + [SECOND] + []);
  }

  function ClosedTooSoon(): Sys {
    var closed := CloseOpen(LOG2, Finish(SECOND, false, Some("")));
    World(Job(Running, 2, Some(SECOND), SECOND), LOG1[0 := closed], [], [TOKEN] + [TOKEN], SECOND,
          CLOSING1[3 := PumpScan([])][4 := Loading(TOKEN)][1 := Drop(TOKEN)])
  }

  lemma LateCloseLeads()
    ensures Leads(Overlapping(), [Step(1, Ok)], ClosedTooSoon(), [])
  {
    assert Overlapping().db.Log(0) == LOG2;
    OneStep(Overlapping(), Step(1, Ok));
    assert Apply(Overlapping(), Step(1, Ok)) == ClosedTooSoon();
  }

  lemma LeadsMeans(s: Sys, es: seq<Event>, s': Sys, claims: seq<int>)
    requires Leads(s, es, s', claims)
    ensures IsRun(s, es) && After(s, es) == s' && Untroubled(s, es)
  {
  }

  // ---------------------------------------------------------------- two pumps

  /** Pump 2 scans the task when it is first due, and requeues it after it has failed again. */
  const EARLY: seq<Event> :=
    FAILED_ONCE + [Begin(2, Pump([0]))] + [Begin(3, Pump([0]))] + ([Step(3, Ok)] + [Step(3, Ok)])
    + (Take(4) + Fail(4)) + ([Step(2, Ok)] + [Step(2, Ok)]) + [Begin(5, Pop(High))] + [Step(5, Ok)]

  lemma EarlyFirstHalf()
    ensures Leads(START, FAILED_ONCE + [Begin(2, Pump([0]))] + [Begin(3, Pump([0]))] + ([Step(3, Ok)] + [Step(3, Ok)]),
                  World(Job(Queued, 1, Some(SECOND), SECOND), LOG1, [TOKEN], [TOKEN], SECOND,
                        CLOSING1[2 := PumpScan([ROW1])][3 := PumpScan([])]), [0])
  {
    hide Leads;
    FailedOnceLeads();
    var row := Job(Retry, 1, Some(SECOND), 0);
    var actors2 := CLOSING1[2 := PumpScan([ROW1])];
    var actors3 := actors2[3 := PumpScan([ROW1])];
    ScanLeads(1, SECOND, 0, LOG1, [TOKEN], SECOND, CLOSING1, 2);
    ScanLeads(1, SECOND, 0, LOG1, [TOKEN], SECOND, actors2, 3);
    WakeLeads(1, 1, Some(SECOND), 0, LOG1, [TOKEN], SECOND, actors3, 3);
    assert actors3[3 := PumpScan([])] == actors2[3 := PumpScan([])];
    assert [0] + [] == [0];
    var s2, s3 := World(row, LOG1, [], [TOKEN], SECOND, actors2), World(row, LOG1, [], [TOKEN], SECOND, actors3);
    Then(START, FAILED_ONCE, FailedOnce(), [0], [Begin(2, Pump([0]))], s2, []);
    Then(START, FAILED_ONCE + [Begin(2, Pump([0]))], s2, [0], [Begin(3, Pump([0]))], s3, []);
    Then(START, FAILED_ONCE + [Begin(2, Pump([0]))] + [Begin(3, Pump([0]))], s3, [0], [Step(3, Ok)] + [Step(3, Ok)],
         World(Job(Queued, 1, Some(SECOND), SECOND), LOG1, [TOKEN], [TOKEN], SECOND, actors2[3 := PumpScan([])]), []);
  }

  const NEXT: Option<int> := Some(3 * SECOND)
  const PUMPS: Actors := CLOSING1[2 := PumpScan([ROW1])][3 := PumpScan([])]
  const FAILED_TWICE: Actors := PUMPS[4 := CloseFailed(TOKEN, "")]
  const REQUEUED: Actors := FAILED_TWICE[2 := PumpScan([])]
  const HELD: seq<Item> := [TOKEN] + ([TOKEN] + [TOKEN])

  /** Requeued two seconds before its time, and claimed at once. */
  function ClaimedEarly(): Sys {
    World(Job(Running, 3, NEXT, SECOND), LOG1[0 := LOG2], [], HELD, SECOND,
          REQUEUED[5 := Popped(TOKEN, Pending(High))][5 := Claimed(TOKEN)])
  }

  lemma EarlySecondHalf(es: seq<Event>)
    requires Leads(START, es, World(Job(Queued, 1, Some(SECOND), SECOND), LOG1, [TOKEN], [TOKEN], SECOND, PUMPS), [0])
    ensures Leads(START, es + (Take(4) + Fail(4)) + ([Step(2, Ok)] + [Step(2, Ok)]),
                  World(Job(Queued, 2, NEXT, SECOND), LOG1[0 := LOG2], [TOKEN], [TOKEN] + [TOKEN], SECOND, REQUEUED),
                  [0, SECOND])
  {
    hide Leads;
    FirstDelays();
    var s3 := World(Job(Queued, 1, Some(SECOND), SECOND), LOG1, [TOKEN], [TOKEN], SECOND, PUMPS);
    var s4 := World(Job(Retry, 2, NEXT, SECOND), LOG1[0 := LOG2], [], [TOKEN] + [TOKEN], SECOND, FAILED_TWICE);
    AttemptLeads(1, Some(SECOND), SECOND, LOG1, [TOKEN], SECOND, PUMPS, 4);
    assert Log(LOG1) + [Attempt(SECOND, None)] == LOG2;
    Then(START, es, s3, [0], Take(4) + Fail(4), s4, [SECOND]);
    assert [0] + [SECOND] == [0, SECOND] && [0, SECOND] + [] == [0, SECOND];
    WakeLeads(1, 2, NEXT, SECOND, LOG1[0 := LOG2], [TOKEN] + [TOKEN], SECOND, FAILED_TWICE, 2);
    Then(START, es + (Take(4) + Fail(4)), s4, [0, SECOND], [Step(2, Ok)] + [Step(2, Ok)],
         World(Job(Queued, 2, NEXT, SECOND), LOG1[0 := LOG2], [TOKEN], [TOKEN] + [TOKEN], SECOND, REQUEUED), []);
  }

  lemma EarlyLastClaim(es: seq<Event>)
    requires Leads(START, es,
                   World(Job(Queued, 2, NEXT, SECOND), LOG1[0 := LOG2], [TOKEN], [TOKEN] + [TOKEN], SECOND, REQUEUED),
                   [0, SECOND])
    ensures Leads(START, es + [Begin(5, Pop(High))] + [Step(5, Ok)], ClaimedEarly(), [0, SECOND, SECOND])
  {
    hide Leads;
    var row := Job(Queued, 2, NEXT, SECOND);
    var popped := REQUEUED[5 := Popped(TOKEN, Pending(High))];
    var s := World(row, LOG1[0 := LOG2], [TOKEN], [TOKEN] + [TOKEN], SECOND, REQUEUED);
    var s1 := World(row, LOG1[0 := LOG2], [], HELD, SECOND, popped);
    PopLeads(row, LOG1[0 := LOG2], [TOKEN] + [TOKEN], SECOND, REQUEUED, 5);
    ClaimLeads(2, NEXT, SECOND, LOG1[0 := LOG2], HELD, SECOND, popped, 5);
    assert [0, SECOND] + [] == [0, SECOND] && [0, SECOND] + [SECOND] == [0, SECOND, SECOND];
    Then(START, es, s, [0, SECOND], [Begin(5, Pop(High))], s1, []);
    Then(START, es + [Begin(5, Pop(High))], s1, [0, SECOND], [Step(5, Ok)], ClaimedEarly(), [SECOND]);
  }

  /** With two pumps the third claim comes one second after the first, not three. */
  lemma TwoPumpsBreakBackoff()
    ensures Init(START) && IsRun(START, EARLY) && Untroubled(START, EARLY)
    ensures Timing.ClaimTimes(START, EARLY, 0) == [0, SECOND, SECOND]
    ensures !Timing.Spaced(Timing.ClaimTimes(START, EARLY, 0))
  {
    SubmitLeads();
    EarlyLeads();
    var times := [0, SECOND, SECOND];
    assert Backoff.Pow2(1) == 2;
    assert times[2] < Timing.Ready(times[1], 2);
  }

  lemma EarlyLeads()
    ensures Leads(START, EARLY, ClaimedEarly(), [0, SECOND, SECOND])
  {
    hide Leads;
    EarlyFirstHalf();
    var half := FAILED_ONCE + [Begin(2, Pump([0]))] + [Begin(3, Pump([0]))] + ([Step(3, Ok)] + [Step(3, Ok)]);
    EarlySecondHalf(half);
    EarlyLastClaim(half + (Take(4) + Fail(4)) + ([Step(2, Ok)] + [Step(2, Ok)]));
  }

  // ---------------------------------------------------------------- a stale cancel

  /** CancelJob reads the job queued, cancels it while it runs, and removes its token after it
      has been queued again: the executor overwrites cancelled, and the pump requeues. */
  const STALE_CANCEL: seq<Event> :=
    SUBMIT + [Begin(9, Cancel(0))] + Take(1) + [Step(9, Ok)] + Fail(1) + [Tick(SECOND)]
    + [Begin(3, Pump([0]))] + ([Step(3, Ok)] + [Step(3, Ok)]) + [Step(9, Ok)]

  const SEEN := Job(Queued, 0, None, 0)
  const CANCELLER: Actors := map[9 := CancelDrop(0, SEEN, true)]

  lemma CancelReads()
    ensures Leads(START, SUBMIT + [Begin(9, Cancel(0))],
                  World(SEEN, map[], [TOKEN], [], 0, map[9 := Cancelling(0, SEEN)]), [])
  {
    SubmitLeads();
    OneStep(Submitted(), Begin(9, Cancel(0)));
    assert Apply(Submitted(), Begin(9, Cancel(0))) == World(SEEN, map[], [TOKEN], [], 0, map[9 := Cancelling(0, SEEN)]);
    var none: seq<int> := [];
    assert none + none == none;
    Then(START, SUBMIT, Submitted(), [], [Begin(9, Cancel(0))],
         World(SEEN, map[], [TOKEN], [], 0, map[9 := Cancelling(0, SEEN)]), []);
  }

  lemma CancelHitsRunning(actors: Actors)
    requires 9 in actors && actors[9] == Cancelling(0, SEEN)
    ensures Leads(World(Job(Running, 1, None, 0), LOG1, [], [TOKEN], 0, actors), [Step(9, Ok)],
                  World(Job(Cancelled, 1, None, 0), LOG1, [], [TOKEN], 0, actors[9 := CancelDrop(0, SEEN, true)]), [])
  {
    var s := World(Job(Running, 1, None, 0), LOG1, [], [TOKEN], 0, actors);
    OneStep(s, Step(9, Ok));
    assert Apply(s, Step(9, Ok)) ==
      World(Job(Cancelled, 1, None, 0), LOG1, [], [TOKEN], 0, actors[9 := CancelDrop(0, SEEN, true)]);
  }

  lemma CancelDropsToken(row: Row, logs: Logs, processing: seq<Item>, now: int, actors: Actors)
    requires 9 in actors && actors[9] == CancelDrop(0, SEEN, true)
    ensures Leads(World(row, logs, [TOKEN], processing, now, actors), [Step(9, Ok)],
                  World(row, logs, [], processing, now, actors - {9}), [])
  {
    var s := World(row, logs, [TOKEN], processing, now, actors);
    OneStep(s, Step(9, Ok));
    assert WithoutAll([TOKEN], TOKEN) == [];
    assert Apply(s, Step(9, Ok)) == World(row, logs, [], processing, now, actors - {9});
  }

  lemma StaleCancelFirstHalf()
    ensures Leads(START, SUBMIT + [Begin(9, Cancel(0))] + Take(1) + [Step(9, Ok)] + Fail(1),
                  World(Job(Retry, 1, Some(SECOND), 0), LOG1, [], [TOKEN], 0, CANCELLER[1 := CloseFailed(TOKEN, "")]),
                  [0])
  {
    hide Leads, World, IsRun, After, Do;
    FirstDelays();
    CancelReads();
    var reading: Actors := map[9 := Cancelling(0, SEEN)];
    TakeLeads(0, None, 0, map[], [], 0, reading, 1);
    assert [TOKEN] + [] == [TOKEN] && Log(map[]) + [Attempt(0, None)] == [Attempt(0, None)];
    var s1 := World(Job(Running, 1, None, 0), LOG1, [], [TOKEN], 0, reading[1 := Loading(TOKEN)]);
    CancelHitsRunning(reading[1 := Loading(TOKEN)]);
    assert reading[1 := Loading(TOKEN)][9 := CancelDrop(0, SEEN, true)] == CANCELLER[1 := Loading(TOKEN)];
    var s2 := World(Job(Cancelled, 1, None, 0), LOG1, [], [TOKEN], 0, CANCELLER[1 := Loading(TOKEN)]);
    FailLeads(Cancelled, 1, None, 0, LOG1, [TOKEN], 0, CANCELLER[1 := Loading(TOKEN)], 1);
    assert CANCELLER[1 := Loading(TOKEN)][1 := CloseFailed(TOKEN, "")] == CANCELLER[1 := CloseFailed(TOKEN, "")];
    assert [] + [0] == [0] && [0] + [] == [0];
    Then(START, SUBMIT + [Begin(9, Cancel(0))], World(SEEN, map[], [TOKEN], [], 0, reading), [], Take(1), s1, [0]);
    Then(START, SUBMIT + [Begin(9, Cancel(0))] + Take(1), s1, [0], [Step(9, Ok)], s2, []);
    Then(START, SUBMIT + [Begin(9, Cancel(0))] + Take(1) + [Step(9, Ok)], s2, [0], Fail(1),
         World(Job(Retry, 1, Some(SECOND), 0), LOG1, [], [TOKEN], 0, CANCELLER[1 := CloseFailed(TOKEN, "")]), []);
  }

  function Stranded(): Sys {
    World(Job(Queued, 1, Some(SECOND), SECOND), LOG1, [], [TOKEN], SECOND,
          CANCELLER[1 := CloseFailed(TOKEN, "")][3 := PumpScan([])] - {9})
  }

  lemma StaleCancelLeads()
    ensures Leads(START, STALE_CANCEL, Stranded(), [0])
  {
    hide Leads;
    StaleCancelFirstHalf();
    var es := SUBMIT + [Begin(9, Cancel(0))] + Take(1) + [Step(9, Ok)] + Fail(1);
    var actors := CANCELLER[1 := CloseFailed(TOKEN, "")];
    var row := Job(Retry, 1, Some(SECOND), 0);
    var s1, s2 := World(row, LOG1, [], [TOKEN], 0, actors), World(row, LOG1, [], [TOKEN], SECOND, actors);
    WaitLeads(row, LOG1, [TOKEN], 0, actors);
    assert [0] + [] == [0];
    Then(START, es, s1, [0], [Tick(SECOND)], s2, []);
    ScanLeads(1, SECOND, 0, LOG1, [TOKEN], SECOND, actors, 3);
    var s3 := World(row, LOG1, [], [TOKEN], SECOND, actors[3 := PumpScan([ROW1])]);
    Then(START, es + [Tick(SECOND)], s2, [0], [Begin(3, Pump([0]))], s3, []);
    WakeLeads(1, 1, Some(SECOND), 0, LOG1, [TOKEN], SECOND, actors[3 := PumpScan([ROW1])], 3);
    assert actors[3 := PumpScan([ROW1])][3 := PumpScan([])] == actors[3 := PumpScan([])];
    var s4 := World(Job(Queued, 1, Some(SECOND), SECOND), LOG1, [TOKEN], [TOKEN], SECOND, actors[3 := PumpScan([])]);
    Then(START, es + [Tick(SECOND)] + [Begin(3, Pump([0]))], s3, [0], [Step(3, Ok)] + [Step(3, Ok)], s4, []);
    CancelDropsToken(Job(Queued, 1, Some(SECOND), SECOND), LOG1, [TOKEN], SECOND, actors[3 := PumpScan([])]);
    Then(START, es + [Tick(SECOND)] + [Begin(3, Pump([0]))] + ([Step(3, Ok)] + [Step(3, Ok)]), s4, [0],
         [Step(9, Ok)], Stranded(), []);
  }

  /** With the read and the UPDATE of CancelJob apart, a queued job can lose its wake-up although
      no write fails and nobody stops. */
  lemma StaleCancelLosesWakeup()
    ensures Init(START) && IsRun(START, STALE_CANCEL) && Untroubled(START, STALE_CANCEL)
    ensures var s := After(START, STALE_CANCEL); s.db.HasStatus(0, Queued) && !Wakeups.Awake(s, 0)
  {
    SubmitLeads();
    StaleCancelLeads();
    NobodyWakes(Stranded());
  }

  lemma NobodyWakes(s: Sys)
    requires forall p :: Routable(p) ==> s.db.List(Pending(p)) == []
    requires forall a :: a in s.actors ==> !Wakeups.Owes(Some(s.actors[a]), 0)
    ensures !Wakeups.Awake(s, 0)
  {
  }

  // ---------------------------------------------------------------- a slow reaper

  /** Reaper 7 reads status retry for the token of worker 1. Worker 1 finishes; the job is
      requeued and popped by worker 4, which stops. */
  const SLOW_REAPER: seq<Event> :=
    FAILED_ONCE + ([Begin(7, Reap)] + [Step(7, Ok)]) + ([Step(1, Ok)] + [Step(1, Ok)])
    + [Begin(3, Pump([0]))] + ([Step(3, Ok)] + [Step(3, Ok)]) + [Begin(4, Pop(High))] + [Crash(4)]

  const LOG1_CLOSED: Logs := map[0 := [Attempt(0, Some(Finish(SECOND, false, Some(""))))]]
  const REAPER: Actors := map[7 := ReapDrop(TOKEN, [])]

  lemma ReaperReads()
    ensures Leads(FailedOnce(), [Begin(7, Reap)] + [Step(7, Ok)],
                  World(RETRY_AT_1, LOG1, [], [TOKEN], SECOND, CLOSING1[7 := ReapDrop(TOKEN, [])]), [])
  {
    hide Leads;
    var s1 := World(RETRY_AT_1, LOG1, [], [TOKEN], SECOND, CLOSING1[7 := Reaping([TOKEN])]);
    var s2 := World(RETRY_AT_1, LOG1, [], [TOKEN], SECOND, CLOSING1[7 := ReapDrop(TOKEN, [])]);
    ReaperLists();
    ReaperSeesRetry();
    var none: seq<int> := [];
    assert none + none == none;
    Then(FailedOnce(), [Begin(7, Reap)], s1, [], [Step(7, Ok)], s2, []);
  }

  lemma ReaperLists()
    ensures Leads(FailedOnce(), [Begin(7, Reap)],
                  World(RETRY_AT_1, LOG1, [], [TOKEN], SECOND, CLOSING1[7 := Reaping([TOKEN])]), [])
  {
    OneStep(FailedOnce(), Begin(7, Reap));
    assert Apply(FailedOnce(), Begin(7, Reap)) ==
      World(RETRY_AT_1, LOG1, [], [TOKEN], SECOND, CLOSING1[7 := Reaping([TOKEN])]);
  }

  lemma ReaperSeesRetry()
    ensures Leads(World(RETRY_AT_1, LOG1, [], [TOKEN], SECOND, CLOSING1[7 := Reaping([TOKEN])]), [Step(7, Ok)],
                  World(RETRY_AT_1, LOG1, [], [TOKEN], SECOND, CLOSING1[7 := ReapDrop(TOKEN, [])]), [])
  {
    var s := World(RETRY_AT_1, LOG1, [], [TOKEN], SECOND, CLOSING1[7 := Reaping([TOKEN])]);
    OneStep(s, Step(7, Ok));
    assert [TOKEN][1..] == [];
    assert Apply(s, Step(7, Ok)) ==
      World(RETRY_AT_1, LOG1, [], [TOKEN], SECOND, CLOSING1[7 := ReapDrop(TOKEN, [])]);
  }

  const RETRY_AT_1: Row := Job(Retry, 1, Some(SECOND), 0)
  const QUEUED_AT_1: Row := Job(Queued, 1, Some(SECOND), SECOND)
  const PUMPED: Actors := REAPER[3 := PumpScan([])]

  const READ: Actors := CLOSING1[7 := ReapDrop(TOKEN, [])]

  lemma WorkerCloses()
    ensures Leads(World(RETRY_AT_1, LOG1, [], [TOKEN], SECOND, READ), [Step(1, Ok)],
                  World(RETRY_AT_1, LOG1_CLOSED, [], [TOKEN], SECOND, READ[1 := Drop(TOKEN)]), [])
  {
    var s := World(RETRY_AT_1, LOG1, [], [TOKEN], SECOND, READ);
    OneStep(s, Step(1, Ok));
    assert CloseOpen([Attempt(0, None)], Finish(SECOND, false, Some(""))) ==
      [Attempt(0, Some(Finish(SECOND, false, Some(""))))];
    assert Apply(s, Step(1, Ok)) == World(RETRY_AT_1, LOG1_CLOSED, [], [TOKEN], SECOND, READ[1 := Drop(TOKEN)]);
  }

  lemma WorkerDrops()
    ensures Leads(World(RETRY_AT_1, LOG1_CLOSED, [], [TOKEN], SECOND, READ[1 := Drop(TOKEN)]), [Step(1, Ok)],
                  World(RETRY_AT_1, LOG1_CLOSED, [], [], SECOND, REAPER), [])
  {
    var s := World(RETRY_AT_1, LOG1_CLOSED, [], [TOKEN], SECOND, READ[1 := Drop(TOKEN)]);
    OneStep(s, Step(1, Ok));
    assert Without([TOKEN], TOKEN) == [];
    assert READ[1 := Drop(TOKEN)] - {1} == REAPER;
    assert Apply(s, Step(1, Ok)) == World(RETRY_AT_1, LOG1_CLOSED, [], [], SECOND, REAPER);
  }

  lemma WorkerFinishes()
    ensures Leads(World(RETRY_AT_1, LOG1, [], [TOKEN], SECOND, READ), [Step(1, Ok)] + [Step(1, Ok)],
                  World(RETRY_AT_1, LOG1_CLOSED, [], [], SECOND, REAPER), [])
  {
    hide Leads;
    WorkerCloses();
    WorkerDrops();
    var none: seq<int> := [];
    assert none + none == none;
    Then(World(RETRY_AT_1, LOG1, [], [TOKEN], SECOND, READ), [Step(1, Ok)],
         World(RETRY_AT_1, LOG1_CLOSED, [], [TOKEN], SECOND, READ[1 := Drop(TOKEN)]), [],
         [Step(1, Ok)], World(RETRY_AT_1, LOG1_CLOSED, [], [], SECOND, REAPER), []);
  }

  lemma SlowReaperFirstHalf()
    ensures Leads(START, FAILED_ONCE + ([Begin(7, Reap)] + [Step(7, Ok)]) + ([Step(1, Ok)] + [Step(1, Ok)]),
                  World(RETRY_AT_1, LOG1_CLOSED, [], [], SECOND, REAPER), [0])
  {
    hide Leads;
    FailedOnceLeads();
    ReaperReads();
    WorkerFinishes();
    assert [0] + [] == [0];
    var s := World(RETRY_AT_1, LOG1, [], [TOKEN], SECOND, CLOSING1[7 := ReapDrop(TOKEN, [])]);
    Then(START, FAILED_ONCE, FailedOnce(), [0], [Begin(7, Reap)] + [Step(7, Ok)], s, []);
    Then(START, FAILED_ONCE + ([Begin(7, Reap)] + [Step(7, Ok)]), s, [0], [Step(1, Ok)] + [Step(1, Ok)],
         World(RETRY_AT_1, LOG1_CLOSED, [], [], SECOND, REAPER), []);
  }

  lemma SlowReaperRequeue(es: seq<Event>)
    requires Leads(START, es, World(RETRY_AT_1, LOG1_CLOSED, [], [], SECOND, REAPER), [0])
    ensures Leads(START, es + [Begin(3, Pump([0]))] + ([Step(3, Ok)] + [Step(3, Ok)]) + [Begin(4, Pop(High))],
                  World(QUEUED_AT_1, LOG1_CLOSED, [], [TOKEN], SECOND, PUMPED[4 := Popped(TOKEN, Pending(High))]), [0])
  {
    hide Leads;
    var scanned := REAPER[3 := PumpScan([ROW1])];
    ScanLeads(1, SECOND, 0, LOG1_CLOSED, [], SECOND, REAPER, 3);
    WakeLeads(1, 1, Some(SECOND), 0, LOG1_CLOSED, [], SECOND, scanned, 3);
    PopLeads(QUEUED_AT_1, LOG1_CLOSED, [], SECOND, PUMPED, 4);
    assert scanned[3 := PumpScan([])] == PUMPED;
    assert [0] + [] == [0] && [TOKEN] + [] == [TOKEN];
    var s1 := World(RETRY_AT_1, LOG1_CLOSED, [], [], SECOND, scanned);
    var s2 := World(QUEUED_AT_1, LOG1_CLOSED, [TOKEN], [], SECOND, PUMPED);
    Then(START, es, World(RETRY_AT_1, LOG1_CLOSED, [], [], SECOND, REAPER), [0], [Begin(3, Pump([0]))], s1, []);
    Then(START, es + [Begin(3, Pump([0]))], s1, [0], [Step(3, Ok)] + [Step(3, Ok)], s2, []);
    Then(START, es + [Begin(3, Pump([0]))] + ([Step(3, Ok)] + [Step(3, Ok)]), s2, [0], [Begin(4, Pop(High))],
         World(QUEUED_AT_1, LOG1_CLOSED, [], [TOKEN], SECOND, PUMPED[4 := Popped(TOKEN, Pending(High))]), []);
  }

  /** The state in which the reaper's LREM comes too late: the token is an orphan. */
  function Orphan(): Sys {
    World(QUEUED_AT_1, LOG1_CLOSED, [], [TOKEN], SECOND, PUMPED)
  }

  function Emptied(): Sys {
    World(QUEUED_AT_1, LOG1_CLOSED, [], [], SECOND, PUMPED[7 := Reaping([])])
  }

  lemma StopLeads(es: seq<Event>)
    requires Leads(START, es,
                   World(QUEUED_AT_1, LOG1_CLOSED, [], [TOKEN], SECOND, PUMPED[4 := Popped(TOKEN, Pending(High))]), [0])
    ensures IsRun(START, es + [Crash(4)]) && After(START, es + [Crash(4)]) == Orphan()
  {
    var s := After(START, es);
    assert PUMPED[4 := Popped(TOKEN, Pending(High))] - {4} == PUMPED;
    assert Apply(s, Crash(4)) == Orphan();
    OneStepRun(s, Crash(4));
    RunsCompose(START, es, [Crash(4)]);
  }

  lemma OneStepRun(s: Sys, e: Event)
    requires Enabled(s, e)
    ensures IsRun(s, [e]) && After(s, [e]) == Apply(s, e)
  {
    assert [e][1..] == [];
  }

  lemma SlowReaperLeads()
    ensures IsRun(START, SLOW_REAPER) && After(START, SLOW_REAPER) == Orphan()
  {
    SlowReaperFirstHalf();
    var es := FAILED_ONCE + ([Begin(7, Reap)] + [Step(7, Ok)]) + ([Step(1, Ok)] + [Step(1, Ok)]);
    SlowReaperRequeue(es);
    StopLeads(es + [Begin(3, Pump([0]))] + ([Step(3, Ok)] + [Step(3, Ok)]) + [Begin(4, Pop(High))]);
  }

  lemma ReapsLast()
    ensures Apply(Orphan(), Step(7, Ok)) == Emptied()
  {
    assert Without([TOKEN], TOKEN) == [];
  }

  /** Touching only tokens whose holder is gone is not enough: the reaper's late LREM removes an
      orphaned token, and with it the last trace of a queued job on any list. */
  lemma SlowReaperLosesToken()
    ensures Init(START) && IsRun(START, SLOW_REAPER) && IsRun(START, SLOW_REAPER + [Step(7, Ok)])
    ensures Durability.Orphaned(After(START, SLOW_REAPER), TOKEN)
    ensures var s := After(START, SLOW_REAPER + [Step(7, Ok)]);
      s.db.HasStatus(0, Queued) && !Durability.Stored(s.db, 0) && !Durability.SomeMidPush(s, 0)
  {
    hide IsRun, After, Apply, Durability.Stored, Durability.SomeMidPush, Durability.Orphaned;
    SubmitLeads();
    SlowReaperLeads();
    ReapsLast();
    OneStepRun(Orphan(), Step(7, Ok));
    RunsCompose(START, SLOW_REAPER, [Step(7, Ok)]);
    OrphanIsLast();
  }

  lemma OrphanIsLast()
    ensures Durability.Orphaned(Orphan(), TOKEN)
    ensures Emptied().db.HasStatus(0, Queued) && !Durability.Stored(Emptied().db, 0)
    ensures !Durability.SomeMidPush(Emptied(), 0)
  {
    assert Durability.Players(Orphan().actors, Durability.Holding, TOKEN) == {};
  }
}

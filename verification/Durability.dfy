/** The reliable queue under crashes: programs may stop at any step, and a queued job still has
    a physical token, as long as reapers touch only tokens whose holder is gone. */
module Durability {
  import opened Types
  import opened Stores
  import opened Protocol
  import opened Safety
  import opened Outcomes
  import opened Wakeups

  // ---------------------------------------------------------------- counting

  function Count(items: seq<Item>, v: Item): nat {
    multiset(items)[v]
  }

  const QUEUES: seq<Queue> :=
    [Processing, Pending(Critical), Pending(High), Pending(Default), Pending(Low)]

  function CopiesOn(st: Store, queues: seq<Queue>, v: Item): nat {
    if queues == [] then 0 else Count(st.List(queues[0]), v) + CopiesOn(st, queues[1..], v)
  }

  /** Copies of a token on the processing list and on the four pending lists. */
  function Copies(st: Store, v: Item): nat {
    CopiesOn(st, QUEUES, v)
  }

  /** The item a worker popped and has not yet removed from the processing list. */
  function Held(p: Actor): Option<Item> {
    match p
    case Popped(item, _) => Some(item)
    case PushBack(item, _) => Some(item)
    case Claimed(t) => Some(t)
    case Loading(t) => Some(t)
    case LoadFailed(t) => Some(t)
    case Executing(t, _) => Some(t)
    case MarkSucceeded(t, _) => Some(t)
    case PushDead(t, _, _) => Some(t)
    case MarkDead(t, _, _) => Some(t)
    case MarkRetry(t, _, _, _) => Some(t)
    case CloseOk(t) => Some(t)
    case CloseFailed(t, _) => Some(t)
    case Drop(item) => Some(item)
    case _ => None
  }

  /** Holding a token; or holding it past the claim, so that its copy is about to go. */
  datatype Role = Holding | Discarding

  predicate Plays(p: Actor, role: Role, v: Item) {
    Held(p) == Some(v) && (role.Holding? || (!p.Popped? && !p.PushBack?))
  }

  ghost function Players(actors: map<ActorId, Actor>, role: Role, v: Item): set<ActorId> {
    set a | a in actors && Plays(actors[a], role, v)
  }

  ghost function Number(actors: map<ActorId, Actor>, role: Role, v: Item): nat {
    |Players(actors, role, v)|
  }

  function One(b: bool): nat {
    if b then 1 else 0
  }

  predicate PlaysIf(p: Option<Actor>, role: Role, v: Item) {
    p.Some? && Plays(p.value, role, v)
  }

  lemma NumberPut(actors: map<ActorId, Actor>, a: ActorId, p: Option<Actor>, role: Role, v: Item)
    ensures Number(Put(actors, a, p), role, v) + One(a in actors && Plays(actors[a], role, v))
         == Number(actors, role, v) + One(PlaysIf(p, role, v))
  {
    var others := Players(actors, role, v) - {a};
    var now := Players(Put(actors, a, p), role, v);
    assert now == if PlaysIf(p, role, v) then others + {a} else others;
    assert Players(actors, role, v) ==
      if a in actors && Plays(actors[a], role, v) then others + {a} else others;
  }

  lemma DiscardersHold(actors: map<ActorId, Actor>, v: Item)
    ensures Number(actors, Discarding, v) <= Number(actors, Holding, v)
  {
    var d, h := Players(actors, Discarding, v), Players(actors, Holding, v);
    assert d <= h;
    assert h == d + (h - d);
  }

  lemma {:induction false} CountWithout(items: seq<Item>, gone: Item, v: Item)
    ensures Count(Without(items, gone), v) + One(v == gone && v in items) == Count(items, v)
  {
    if items != [] {
      assert items == [items[0]] + items[1..];
      if items[0] != gone {
        CountWithout(items[1..], gone, v);
      }
    }
  }

  lemma {:induction false} CountWithoutAll(items: seq<Item>, gone: Item, v: Item)
    requires v != gone
    ensures Count(WithoutAll(items, gone), v) == Count(items, v)
  {
    if items != [] {
      assert items == [items[0]] + items[1..];
      CountWithoutAll(items[1..], gone, v);
    }
  }

  lemma CountSplit(items: seq<Item>, v: Item)
    requires items != []
    ensures Count(items, v) == Count(items[..|items| - 1], v) + One(items[|items| - 1] == v)
  {
    assert items == items[..|items| - 1] + [items[|items| - 1]];
  }

  predicate TakesFrom(st: Store, cmd: Command, q: Queue, v: Item) {
    match cmd
    case MoveTail(source, _) => q == source && st.List(q) != [] && st.List(q)[|st.List(q)| - 1] == v
    case Remove(q', gone) => q == q' && v == gone && v in st.List(q)
    case _ => false
  }

  predicate AddsTo(st: Store, cmd: Command, q: Queue, v: Item) {
    match cmd
    case MoveTail(source, target) =>
      q == target && st.List(source) != [] && st.List(source)[|st.List(source)| - 1] == v
    case Push(q', item) => q == q' && v == item
    case _ => false
  }

  lemma MoveTailLists(st: Store, source: Queue, target: Queue, q: Queue)
    requires source != target && st.List(source) != []
    ensures var items := st.List(source);
      Do(st, MoveTail(source, target)).List(q) ==
        if q == target then [items[|items| - 1]] + st.List(target)
        else if q == source then items[..|items| - 1]
        else st.List(q)
  {
  }

  lemma MoveCount(st: Store, source: Queue, target: Queue, q: Queue, v: Item)
    requires source != target
    ensures var cmd := MoveTail(source, target);
      Count(Do(st, cmd).List(q), v) + One(TakesFrom(st, cmd, q, v))
      == Count(st.List(q), v) + One(AddsTo(st, cmd, q, v))
  {
    if st.List(source) != [] {
      MoveTailLists(st, source, target, q);
      CountSplit(st.List(source), v);
    }
  }

  lemma CountAfter(st: Store, cmd: Command, q: Queue, v: Item)
    requires cmd.MoveTail? ==> cmd.source != cmd.target
    requires cmd.RemoveAll? ==> cmd.item != v
    ensures Count(Do(st, cmd).List(q), v) + One(TakesFrom(st, cmd, q, v))
         == Count(st.List(q), v) + One(AddsTo(st, cmd, q, v))
  {
    if cmd.MoveTail? {
      MoveCount(st, cmd.source, cmd.target, q, v);
    } else if !TouchesList(cmd, q) {
      ListUntouched(st, cmd, q);
    } else if cmd.Remove? {
      CountWithout(st.List(q), cmd.item, v);
    } else if cmd.RemoveAll? {
      CountWithoutAll(st.List(q), cmd.item, v);
    }
  }

  /** Lists that tokens live on. */
  predicate Usual(q: Queue) {
    q in QUEUES
  }

  lemma RoutableIsUsual(p: Priority)
    requires Routable(p)
    ensures Usual(Pending(p))
  {
    match p
    case Critical => assert QUEUES[1] == Pending(p);
    case High => assert QUEUES[2] == Pending(p);
    case Default => assert QUEUES[3] == Pending(p);
    case Low => assert QUEUES[4] == Pending(p);
  }

  predicate UsualCommand(cmd: Command) {
    match cmd
    case MoveTail(source, target) => source != target && Usual(source) && Usual(target)
    case Push(q, _) => Usual(q) || q.DeadLetters?
    case Remove(q, _) => q == Processing
    case RemoveAll(q, _) => Usual(q)
    case _ => true
  }

  predicate Distinct(queues: seq<Queue>) {
    forall i, j :: 0 <= i < j < |queues| ==> queues[i] != queues[j]
  }

  function TargetOf(cmd: Command): Option<Queue> {
    match cmd
    case MoveTail(_, target) => Some(target)
    case Push(q, _) => Some(q)
    case _ => None
  }

  function SourceOf(cmd: Command): Option<Queue> {
    match cmd
    case MoveTail(source, _) => Some(source)
    case Remove(q, _) => Some(q)
    case _ => None
  }

  predicate Within(q: Option<Queue>, queues: seq<Queue>) {
    q.Some? && q.value in queues
  }

  lemma {:induction false} CopiesOnAfter(st: Store, cmd: Command, queues: seq<Queue>, v: Item)
    requires Distinct(queues)
    requires cmd.MoveTail? ==> cmd.source != cmd.target
    requires cmd.RemoveAll? ==> cmd.item != v
    ensures CopiesOn(Do(st, cmd), queues, v)
              + One(Within(SourceOf(cmd), queues) && TakesFrom(st, cmd, SourceOf(cmd).value, v))
         == CopiesOn(st, queues, v)
              + One(Within(TargetOf(cmd), queues) && AddsTo(st, cmd, TargetOf(cmd).value, v))
  {
    hide Count, Do;
    if queues != [] {
      var q, rest := queues[0], queues[1..];
      assert forall x :: x in queues <==> x == q || x in rest;
      assert q !in rest;
      CopiesOnAfter(st, cmd, rest, v);
      CountAfter(st, cmd, q, v);
      assert TakesFrom(st, cmd, q, v) ==> SourceOf(cmd) == Some(q);
      assert AddsTo(st, cmd, q, v) ==> TargetOf(cmd) == Some(q);
    }
  }

  lemma CopiesAfter(st: Store, cmd: Command, v: Item)
    requires UsualCommand(cmd)
    requires cmd.RemoveAll? ==> cmd.item != v
    ensures Copies(Do(st, cmd), v) + One(cmd.Remove? && TakesFrom(st, cmd, Processing, v))
         == Copies(st, v) + One(cmd.Push? && Usual(cmd.q) && cmd.item == v)
  {
    hide CopiesOn, Count, Do;
    CopiesOnAfter(st, cmd, QUEUES, v);
  }

  lemma {:induction false} CopyIsSomewhere(st: Store, queues: seq<Queue>, v: Item)
    requires CopiesOn(st, queues, v) > 0
    ensures exists q, i :: q in queues && 0 <= i < |st.List(q)| && st.List(q)[i] == v
  {
    if Count(st.List(queues[0]), v) > 0 {
      assert v in st.List(queues[0]);
      var i :| 0 <= i < |st.List(queues[0])| && st.List(queues[0])[i] == v;
    } else {
      CopyIsSomewhere(st, queues[1..], v);
      var q, i :| q in queues[1..] && 0 <= i < |st.List(q)| && st.List(q)[i] == v;
      assert q in queues;
    }
  }

  // ---------------------------------------------------------------- the invariant

  predicate MidPush(p: Actor, id: JobId) {
    (p.SubmitPush? && p.id == id) || (p.PumpPush? && p.due.id == id)
  }

  /** Copies of the token beyond those that holders past their claim will remove. */
  ghost function Spare(s: Sys, v: Item): int {
    Copies(s.db, v) - Number(s.actors, Discarding, v)
  }

  /** A copy of each held token is still on the processing list. */
  ghost predicate HoldersCovered(s: Sys, id: JobId) {
    forall v :: IsTokenFor(v, id) ==> Count(s.db.List(Processing), v) >= Number(s.actors, Holding, v)
  }

  ghost predicate HasSpare(s: Sys, id: JobId) {
    exists v :: IsTokenFor(v, id) && Spare(s, v) > 0
  }

  ghost predicate SomeMidPush(s: Sys, id: JobId) {
    exists a :: a in s.actors && MidPush(s.actors[a], id)
  }

  ghost predicate Durable(s: Sys, id: JobId) {
    && HoldersCovered(s, id)
    && (s.db.HasStatus(id, Queued) ==> HasSpare(s, id) || SomeMidPush(s, id))
  }

  /** More copies on the processing list than live holders: one of them is an orphan. */
  ghost predicate Orphaned(s: Sys, v: Item) {
    Count(s.db.List(Processing), v) > Number(s.actors, Holding, v)
  }

  /** The spare copies of a token that an event uses up: a failed push back leaves its worker about
      to remove one, and so does a reaper's LREM; a CancelJob removes all on one pending list. */
  ghost function Uses(s: Sys, e: Event, v: Item): nat
    requires Enabled(s, e)
  {
    match e
    case Step(a, c) =>
      var p, cmd := s.actors[a], Plan(s.db, s.actors[a], c).0;
      if p.PushBack? && c.Err? then One(p.item == v)
      else if OfReaper(p) && cmd.Remove? then One(cmd.item == v && v in s.db.List(Processing))
      else if p.CancelDrop? && cmd.RemoveAll? && cmd.item == v then Count(s.db.List(cmd.q), v)
      else 0
    case _ => 0
  }

  /** Program a, which owes a push, stops, or does not push after all. */
  ghost predicate DropsPush(s: Sys, e: Event, a: ActorId)
    requires Enabled(s, e)
  {
    e == Crash(a) || (e.Step? && e.a == a && !Plan(s.db, s.actors[a], e.outcome).0.Push?)
  }

  /** The event uses up all spare copies of a queued job's tokens, and no push remains due. */
  ghost predicate Strands(s: Sys, e: Event, id: JobId)
    requires Enabled(s, e)
  {
    && s.db.HasStatus(id, Queued)
    && (forall v :: IsTokenFor(v, id) ==> Spare(s, v) <= Uses(s, e, v))
    && (forall a :: a in s.actors && MidPush(s.actors[a], id) ==> DropsPush(s, e, a))
  }

  /** A reaper takes a token from the processing list whose copies all have holders. */
  ghost predicate TakesHeld(s: Sys, e: Event, v: Item)
    requires Enabled(s, e)
  {
    e.Step? && OfReaper(s.actors[e.a]) && !Orphaned(s, v)
    && TakesFrom(s.db, Plan(s.db, s.actors[e.a], e.outcome).0, Processing, v)
  }

  ghost predicate LosesToken(s: Sys, e: Event, id: JobId)
    requires Enabled(s, e)
  {
    Strands(s, e, id) || exists v :: IsTokenFor(v, id) && TakesHeld(s, e, v)
  }

  // ---------------------------------------------------------------- one actor's step

  lemma PlanIsUsual(st: Store, p: Actor, c: Outcome)
    requires ActorOk(st, p)
    ensures UsualCommand(Plan(st, p, c).0)
  {
  }

  /** A worker keeps its item until it removes it. */
  lemma HeldStays(st: Store, p: Actor, c: Outcome)
    requires ActorOk(st, p) && OfWorker(p)
    ensures var (cmd, p') := Plan(st, p, c);
      && (p'.Some? ==> OfWorker(p'.value) && Held(p'.value) == Held(p))
      && (p'.None? ==> p.Drop? || (p.Popped? && p.item.BadId?))
      && (cmd.MoveTail? || cmd.RemoveAll? ==> false)
      && (cmd.Remove? ==> Some(cmd.item) == Held(p) && p'.None?)
      && (p'.Some? && (p.Popped? || p.PushBack?) && !p'.value.Popped? && !p'.value.PushBack? ==>
           cmd.ClaimTask? || (p.item.Malformed? && p.Popped?)
           || (p.PushBack? && (cmd == Push(p.source, p.item) || c.Err?)))
  {
  }

  lemma OthersHoldNothing(st: Store, p: Actor, c: Outcome)
    requires !OfWorker(p)
    ensures Held(p) == None
    ensures var (_, p') := Plan(st, p, c); p'.Some? ==> !OfWorker(p'.value)
  {
  }

  lemma OthersKeepNumber(s: Sys, a: ActorId, c: Outcome, role: Role, v: Item)
    requires a in s.actors && !OfWorker(s.actors[a])
    ensures Number(Apply(s, Step(a, c)).actors, role, v) == Number(s.actors, role, v)
  {
    NumberPut(s.actors, a, Plan(s.db, s.actors[a], c).1, role, v);
    OthersHoldNothing(s.db, s.actors[a], c);
  }

  /** A worker takes from the processing list only what it holds, and then lets go of it. */
  lemma WorkerCovered(s: Sys, a: ActorId, c: Outcome, v: Item)
    requires Inv(s) && a in s.actors && OfWorker(s.actors[a])
    requires Count(s.db.List(Processing), v) >= Number(s.actors, Holding, v)
    ensures var s' := Apply(s, Step(a, c));
      Count(s'.db.List(Processing), v) >= Number(s'.actors, Holding, v)
  {
    var p := s.actors[a];
    var (cmd, p') := Plan(s.db, p, c);
    NumberPut(s.actors, a, p', Holding, v);
    PlanIsUsual(s.db, p, c);
    HeldStays(s.db, p, c);
    CountAfter(s.db, cmd, Processing, v);
  }

  lemma OthersTakeOrphans(s: Sys, a: ActorId, c: Outcome, v: Item)
    requires Inv(s) && a in s.actors && !OfWorker(s.actors[a])
    requires !TakesHeld(s, Step(a, c), v)
    ensures var st', cmd := Apply(s, Step(a, c)).db, Plan(s.db, s.actors[a], c).0;
      Count(st'.List(Processing), v) + One(Orphaned(s, v)) >= Count(s.db.List(Processing), v)
  {
    var p := s.actors[a];
    var cmd := Plan(s.db, p, c).0;
    PlanIsUsual(s.db, p, c);
    if cmd.RemoveAll? {
      CancelLeavesProcessing(s.db, p, c);
    } else {
      CountAfter(s.db, cmd, Processing, v);
      if OfReaper(p) {
        assert TakesFrom(s.db, cmd, Processing, v) ==> Orphaned(s, v);
      } else {
        NobodyElseTakes(s.db, p, c, v);
      }
    }
  }

  lemma OtherCovered(s: Sys, a: ActorId, c: Outcome, v: Item)
    requires Inv(s) && a in s.actors && !OfWorker(s.actors[a])
    requires !TakesHeld(s, Step(a, c), v)
    requires Count(s.db.List(Processing), v) >= Number(s.actors, Holding, v)
    ensures var s' := Apply(s, Step(a, c));
      Count(s'.db.List(Processing), v) >= Number(s'.actors, Holding, v)
  {
    OthersKeepNumber(s, a, c, Holding, v);
    OthersTakeOrphans(s, a, c, v);
  }

  lemma StartCovered(s: Sys, a: ActorId, start: Start, v: Item)
    requires Enabled(s, Begin(a, start))
    requires Count(s.db.List(Processing), v) >= Number(s.actors, Holding, v)
    ensures var s' := Apply(s, Begin(a, start));
      Count(s'.db.List(Processing), v) >= Number(s'.actors, Holding, v)
  {
    var (cmd, p') := StartPlan(s.db, start);
    NumberPut(s.actors, a, Some(p'), Holding, v);
    CountAfter(s.db, cmd, Processing, v);
  }

  lemma CoveredStep(s: Sys, e: Event, v: Item)
    requires Inv(s) && Enabled(s, e) && !TakesHeld(s, e, v)
    requires Count(s.db.List(Processing), v) >= Number(s.actors, Holding, v)
    ensures Count(Apply(s, e).db.List(Processing), v) >= Number(Apply(s, e).actors, Holding, v)
  {
    match e
    case Step(a, c) =>
      if OfWorker(s.actors[a]) {
        WorkerCovered(s, a, c, v);
      } else {
        OtherCovered(s, a, c, v);
      }
    case Begin(a, start) => StartCovered(s, a, start, v);
    case Crash(a) => NumberPut(s.actors, a, None, Holding, v);
    case Tick(_) =>
  }

  lemma CancelLeavesProcessing(st: Store, p: Actor, c: Outcome)
    requires Plan(st, p, c).0.RemoveAll?
    ensures p.CancelDrop? && c.Ok?
    ensures Do(st, Plan(st, p, c).0).List(Processing) == st.List(Processing)
    ensures Plan(st, p, c).0.item == TokenOf(p.id, p.seen.typ, p.seen.priority)
  {
  }

  lemma NobodyElseTakes(st: Store, p: Actor, c: Outcome, v: Item)
    requires !OfWorker(p) && !OfReaper(p)
    ensures !TakesFrom(st, Plan(st, p, c).0, Processing, v)
  {
  }

  lemma {:induction false} SameListsSameCopies(st: Store, st': Store, queues: seq<Queue>, v: Item)
    requires st'.lists == st.lists
    ensures CopiesOn(st', queues, v) == CopiesOn(st, queues, v)
  {
    if queues != [] {
      SameListsSameCopies(st, st', queues[1..], v);
    }
  }

  /** Starting a program uses up no spare copy: a pop moves the token to the processing list. */
  lemma StartKeepsSpare(s: Sys, a: ActorId, start: Start, v: Item)
    requires a !in s.actors && CanStart(s.db, start)
    ensures Spare(Apply(s, Begin(a, start)), v) >= Spare(s, v)
  {
    var (cmd, p') := StartPlan(s.db, start);
    NumberPut(s.actors, a, Some(p'), Discarding, v);
    if start.Pop? {
      RoutableIsUsual(start.priority);
      CopiesAfter(s.db, cmd, v);
    }
  }

  /** An event after which the job is queued uses up no more spare copies than that. */
  lemma SpareStep(s: Sys, e: Event, v: Item, id: JobId)
    requires Inv(s) && Enabled(s, e) && IsTokenFor(v, id) && Apply(s, e).db.HasStatus(id, Queued)
    ensures Spare(Apply(s, e), v) + Uses(s, e, v) >= Spare(s, v)
  {
    match e
    case Step(a, c) =>
      if OfWorker(s.actors[a]) {
        WorkerKeepsSpare(s, a, c, v, id);
      } else {
        OthersKeepNumber(s, a, c, Discarding, v);
        OthersKeepCopies(s, a, c, v);
      }
    case Begin(a, start) => StartKeepsSpare(s, a, start, v);
    case Crash(a) => NumberPut(s.actors, a, None, Discarding, v);
    case Tick(_) => SameListsSameCopies(s.db, Apply(s, e).db, QUEUES, v);
  }

  lemma WorkerKeepsSpare(s: Sys, a: ActorId, c: Outcome, v: Item, id: JobId)
    requires Inv(s) && a in s.actors && OfWorker(s.actors[a])
    requires IsTokenFor(v, id) && Apply(s, Step(a, c)).db.HasStatus(id, Queued)
    ensures Spare(Apply(s, Step(a, c)), v) + Uses(s, Step(a, c), v) >= Spare(s, v)
  {
    var p := s.actors[a];
    var (cmd, p') := Plan(s.db, p, c);
    NumberPut(s.actors, a, p', Discarding, v);
    PlanIsUsual(s.db, p, c);
    HeldStays(s.db, p, c);
    CopiesAfter(s.db, cmd, v);
    if cmd.ClaimTask? {
      ClaimLeavesUnqueued(s.db, p, c);
    }
  }

  /** Programs other than workers: the copies used up are gone, and a push adds one. */
  lemma OthersKeepCopies(s: Sys, a: ActorId, c: Outcome, v: Item)
    requires Inv(s) && a in s.actors && !OfWorker(s.actors[a])
    ensures var st', cmd := Apply(s, Step(a, c)).db, Plan(s.db, s.actors[a], c).0;
      Copies(st', v) + Uses(s, Step(a, c), v) == Copies(s.db, v) + One(cmd.Push? && Usual(cmd.q) && cmd.item == v)
  {
    var p := s.actors[a];
    var cmd := Plan(s.db, p, c).0;
    PlanIsUsual(s.db, p, c);
    OnlyReapersRemove(s.db, p, c);
    if cmd.RemoveAll? && cmd.item == v {
      CopiesWithoutAll(s.db, cmd.q, v);
    } else {
      CopiesAfter(s.db, cmd, v);
    }
  }

  lemma OnlyReapersRemove(st: Store, p: Actor, c: Outcome)
    requires !OfWorker(p)
    ensures var cmd := Plan(st, p, c).0;
      (cmd.Remove? ==> OfReaper(p) && cmd.q == Processing) && (cmd.RemoveAll? ==> p.CancelDrop?)
  {
  }

  lemma {:induction false} NoneLeft(items: seq<Item>, v: Item)
    ensures Count(WithoutAll(items, v), v) == 0
  {
    if items != [] {
      NoneLeft(items[1..], v);
    }
  }

  lemma {:induction false} CopiesOnWithoutAll(st: Store, q: Queue, queues: seq<Queue>, v: Item)
    requires Distinct(queues)
    ensures CopiesOn(Do(st, RemoveAll(q, v)), queues, v) + (if q in queues then Count(st.List(q), v) else 0)
         == CopiesOn(st, queues, v)
  {
    if queues != [] {
      assert queues == [queues[0]] + queues[1..];
      assert queues[0] !in queues[1..];
      CopiesOnWithoutAll(st, q, queues[1..], v);
      if q == queues[0] {
        NoneLeft(st.List(q), v);
      } else {
        ListUntouched(st, RemoveAll(q, v), queues[0]);
      }
    }
  }

  lemma CopiesWithoutAll(st: Store, q: Queue, v: Item)
    requires Usual(q)
    ensures Copies(Do(st, RemoveAll(q, v)), v) + Count(st.List(q), v) == Copies(st, v)
  {
    hide CopiesOn, Count, Do;
    CopiesOnWithoutAll(st, q, QUEUES, v);
  }

  lemma ClaimLeavesUnqueued(st: Store, p: Actor, c: Outcome)
    requires OfWorker(p) && Plan(st, p, c).0.ClaimTask?
    ensures p.Popped? && p.item.Token?
    ensures !Do(st, Plan(st, p, c).0).HasStatus(p.item.id, Queued)
  {
  }

  /** The push of a queued job's token gives it a spare copy. */
  lemma PushGivesSpare(s: Sys, a: ActorId, c: Outcome, id: JobId)
    requires Inv(s) && a in s.actors && HoldersCovered(s, id)
    requires MidPush(s.actors[a], id) && Plan(s.db, s.actors[a], c).0.Push?
    ensures HasSpare(Apply(s, Step(a, c)), id)
  {
    var p := s.actors[a];
    var (cmd, p') := Plan(s.db, p, c);
    var v := cmd.item;
    hide Inv, Copies, Number;
    PlanIsUsual(s.db, p, c) by { assert Inv(s); }
    assert cmd.Push? && Usual(cmd.q) && IsTokenFor(v, id);
    CopiesAfter(s.db, cmd, v);
    NumberPut(s.actors, a, p', Discarding, v);
    OthersHoldNothing(s.db, p, c);
    DiscardersHold(s.actors, v);
    assert Spare(Apply(s, Step(a, c)), v) > 0;
  }

  // ---------------------------------------------------------------- runs

  lemma CoverKept(s: Sys, e: Event, id: JobId)
    requires Inv(s) && Enabled(s, e) && HoldersCovered(s, id)
    ensures HoldersCovered(Apply(s, e), id) <==> !exists v :: IsTokenFor(v, id) && TakesHeld(s, e, v)
  {
    var s' := Apply(s, e);
    if v :| IsTokenFor(v, id) && TakesHeld(s, e, v) {
      HeldIsTaken(s, e, v);
    } else {
      forall v | IsTokenFor(v, id)
        ensures Count(s'.db.List(Processing), v) >= Number(s'.actors, Holding, v)
      {
        CoveredStep(s, e, v);
      }
    }
  }

  lemma HeldIsTaken(s: Sys, e: Event, v: Item)
    requires Inv(s) && Enabled(s, e) && TakesHeld(s, e, v)
    ensures Count(Apply(s, e).db.List(Processing), v) < Number(Apply(s, e).actors, Holding, v)
  {
    var p := s.actors[e.a];
    PlanIsUsual(s.db, p, e.outcome);
    OthersKeepNumber(s, e.a, e.outcome, Holding, v);
    CountAfter(s.db, Plan(s.db, p, e.outcome).0, Processing, v);
  }

  lemma DurableStep(s: Sys, e: Event, id: JobId)
    requires Inv(s) && Enabled(s, e) && Durable(s, id) && !LosesToken(s, e, id)
    ensures Durable(Apply(s, e), id)
  {
    hide Inv, Apply, Uses, Spare, Count, Number, TakesHeld, MidPush, Owes;
    var s' := Apply(s, e);
    CoverKept(s, e, id);
    if s'.db.HasStatus(id, Queued) {
      if !s.db.HasStatus(id, Queued) {
        QueuingOwes(s, e, id);
        QueuerIsMidPush(s, e, id);
        MovedIsMidPush(s, e, id);
      } else if v :| IsTokenFor(v, id) && Spare(s, v) > Uses(s, e, v) {
        SpareStep(s, e, v, id);
      } else {
        var a :| a in s.actors && MidPush(s.actors[a], id) && !DropsPush(s, e, a);
        PushStaysDue(s, e, id, a);
      }
    }
  }

  lemma MovedIsMidPush(s: Sys, e: Event, id: JobId)
    requires Enabled(s, e) && !e.Tick? && Moved(s, e).Some? && MidPush(Moved(s, e).value, id)
    ensures SomeMidPush(Apply(s, e), id)
  {
    ActorsAfter(s, e, e.a);
    assert MidPush(Apply(s, e).actors[e.a], id);
  }

  lemma PushStaysDue(s: Sys, e: Event, id: JobId, a: ActorId)
    requires Inv(s) && Enabled(s, e) && HoldersCovered(s, id)
    requires a in s.actors && MidPush(s.actors[a], id) && !DropsPush(s, e, a)
    ensures HasSpare(Apply(s, e), id) || SomeMidPush(Apply(s, e), id)
  {
    ActorsAfter(s, e, a);
    if ByActor(e, a) {
      PushGivesSpare(s, a, e.outcome, id);
    } else {
      assert MidPush(Apply(s, e).actors[a], id);
    }
  }

  /** The events that use up copies or drop a push. */
  ghost predicate Sheds(s: Sys, e: Event, id: JobId)
    requires Enabled(s, e)
  {
    match e
    case Crash(a) => MidPush(s.actors[a], id)
    case Step(a, c) =>
      var p, cmd := s.actors[a], Plan(s.db, s.actors[a], c).0;
      (MidPush(p, id) && !cmd.Push?) || (p.PushBack? && c.Err?) || (OfReaper(p) && cmd.Remove?)
      || (p.CancelDrop? && cmd.RemoveAll?)
    case _ => false
  }

  ghost predicate UsesSome(s: Sys, e: Event, id: JobId)
    requires Enabled(s, e)
  {
    exists v :: IsTokenFor(v, id) && Uses(s, e, v) > 0
  }

  ghost predicate DropsSomePush(s: Sys, e: Event, id: JobId)
    requires Enabled(s, e)
  {
    exists a :: a in s.actors && MidPush(s.actors[a], id) && DropsPush(s, e, a)
  }

  /** Nobody is stranded but by an event that takes something from it. */
  lemma StrandingTakes(s: Sys, e: Event, id: JobId)
    requires Enabled(s, e) && Durable(s, id) && Strands(s, e, id)
    ensures UsesSome(s, e, id) || DropsSomePush(s, e, id)
  {
    if v :| IsTokenFor(v, id) && Spare(s, v) > 0 {
      assert Uses(s, e, v) > 0;
    } else {
      var a :| a in s.actors && MidPush(s.actors[a], id);
      assert DropsPush(s, e, a);
    }
  }

  lemma TakingSheds(s: Sys, e: Event, id: JobId)
    requires Enabled(s, e) && (UsesSome(s, e, id) || DropsSomePush(s, e, id))
    ensures Sheds(s, e, id)
  {
  }

  lemma SheddingPlan(s: Sys, e: Event, id: JobId)
    requires Enabled(s, e) && Sheds(s, e, id)
    ensures Apply(s, e).db.tasks == s.db.tasks
    ensures Moved(s, e).Some? ==> !MidPush(Moved(s, e).value, id)
    ensures e.Step? ==> !Plan(s.db, s.actors[e.a], e.outcome).0.Push?
  {
    if e.Step? {
      var p := s.actors[e.a];
      if MidPush(p, id) {
        PushingPlan(s.db, p, e.outcome, id);
      } else if p.PushBack? {
        assert Plan(s.db, p, e.outcome).0 == NoOp;
      } else {
        RemovingPlan(s.db, p, e.outcome);
      }
    }
  }

  lemma PushingPlan(st: Store, p: Actor, c: Outcome, id: JobId)
    requires MidPush(p, id)
    ensures var (cmd, p') := Plan(st, p, c);
      (cmd == NoOp || cmd.Push?) && (p'.Some? ==> p'.value.PumpScan?)
  {
  }

  lemma RemovingPlan(st: Store, p: Actor, c: Outcome)
    requires OfReaper(p) || p.CancelDrop?
    ensures var (_, p') := Plan(st, p, c);
      p'.Some? ==> OfReaper(p'.value)
  {
  }

  /** A shedding event uses up exactly the copies that it is said to. */
  lemma SheddingUses(s: Sys, e: Event, v: Item, id: JobId)
    requires Inv(s) && Enabled(s, e) && Sheds(s, e, id)
    ensures Spare(Apply(s, e), v) + Uses(s, e, v) == Spare(s, v)
  {
    match e
    case Crash(a) => NumberPut(s.actors, a, None, Discarding, v);
    case Step(a, c) =>
      SheddingPlan(s, e, id);
      if OfWorker(s.actors[a]) {
        var (cmd, p') := Plan(s.db, s.actors[a], c);
        NumberPut(s.actors, a, p', Discarding, v);
        CopiesAfter(s.db, cmd, v);
      } else {
        OthersKeepNumber(s, a, c, Discarding, v);
        OthersKeepCopies(s, a, c, v);
      }
  }

  /** The other half: a loss ends the protection of a job. */
  lemma LossIsFinal(s: Sys, e: Event, id: JobId)
    requires Inv(s) && Enabled(s, e) && Durable(s, id) && LosesToken(s, e, id)
    ensures !Durable(Apply(s, e), id)
  {
    hide Inv, Apply, Uses, Spare, Count, Number, TakesHeld, MidPush;
    var s' := Apply(s, e);
    CoverKept(s, e, id);
    if Strands(s, e, id) {
      StrandingTakes(s, e, id);
      TakingSheds(s, e, id);
      SheddingPlan(s, e, id);
      forall v | IsTokenFor(v, id) ensures Spare(s', v) <= 0 {
        SheddingUses(s, e, v, id);
      }
      forall a | a in s'.actors ensures !MidPush(s'.actors[a], id) {
        ActorsAfter(s, e, a);
      }
    }
  }

  lemma QueuerIsMidPush(s: Sys, e: Event, id: JobId)
    requires Inv(s) && Enabled(s, e)
    requires !s.db.HasStatus(id, Queued) && Apply(s, e).db.HasStatus(id, Queued)
    requires Owes(Moved(s, e), id)
    ensures MidPush(Moved(s, e).value, id) && !e.Tick? && !e.Crash?
  {
    match e
    case Step(a, c) =>
      PlanQueues(s.db, s.actors[a], c, id);
      if !MayQueue(Plan(s.db, s.actors[a], c).0, id) {
        OnlyTheseQueue(s.db, Plan(s.db, s.actors[a], c).0, id);
      }
    case Begin(_, start) => Untouched(s.db, StartPlan(s.db, start).0, id);
    case _ =>
  }

  ghost predicate KeepsTokens(s: Sys, es: seq<Event>, id: JobId)
    requires IsRun(s, es)
    decreases |es|
  {
    es == [] || (!LosesToken(s, es[0], id) && KeepsTokens(Apply(s, es[0]), es[1..], id))
  }

  ghost predicate AlwaysDurable(s: Sys, es: seq<Event>, id: JobId)
    requires IsRun(s, es)
    decreases |es|
  {
    Durable(s, id) && (es == [] || AlwaysDurable(Apply(s, es[0]), es[1..], id))
  }

  lemma {:induction false} DurableAtEnd(s: Sys, es: seq<Event>, id: JobId)
    requires IsRun(s, es) && AlwaysDurable(s, es, id)
    ensures Durable(After(s, es), id)
    decreases |es|
  {
    if es != [] {
      DurableAtEnd(Apply(s, es[0]), es[1..], id);
    }
  }

  lemma {:induction false} DurableRun(s: Sys, es: seq<Event>, id: JobId)
    requires Inv(s) && IsRun(s, es) && Durable(s, id)
    ensures AlwaysDurable(s, es, id) <==> KeepsTokens(s, es, id)
    decreases |es|
  {
    hide Inv, Durable, LosesToken, Apply;
    if es != [] {
      InvStep(s, es[0]);
      if LosesToken(s, es[0], id) {
        LossIsFinal(s, es[0], id);
      } else {
        DurableStep(s, es[0], id);
        DurableRun(Apply(s, es[0]), es[1..], id);
      }
    }
  }

  ghost predicate Stored(st: Store, id: JobId) {
    exists q, i :: Usual(q) && 0 <= i < |st.List(q)| && IsTokenFor(st.List(q)[i], id)
  }

  lemma SpareIsStored(s: Sys, id: JobId)
    requires HasSpare(s, id)
    ensures Stored(s.db, id)
  {
    var v :| IsTokenFor(v, id) && Spare(s, v) > 0;
    CopyIsSomewhere(s.db, QUEUES, v);
    var q, i :| q in QUEUES && 0 <= i < |s.db.List(q)| && s.db.List(q)[i] == v;
    assert Usual(q) && IsTokenFor(s.db.List(q)[i], id);
  }

  lemma InitDurable(s: Sys, id: JobId)
    requires Init(s)
    ensures Durable(s, id)
  {
    forall v ensures Number(s.actors, Holding, v) == 0 {
      assert Players(s.actors, Holding, v) == {};
    }
  }

  /** Crash tolerance, with programs stopping anywhere: the tokens of a job are protected in every
      state of a run if and only if no event takes its last spare copy or a held one. Then a queued
      job whose push is not under way has a token on a pending list or on the processing list, and
      each held token is still on the latter. */
  lemma QueuedJobsSurviveCrashes(s0: Sys, es: seq<Event>, id: JobId)
    requires Init(s0) && IsRun(s0, es)
    ensures AlwaysDurable(s0, es, id) <==> KeepsTokens(s0, es, id)
    ensures var s := After(s0, es);
      KeepsTokens(s0, es, id) ==>
        (s.db.HasStatus(id, Queued) ==> Stored(s.db, id) || SomeMidPush(s, id)) && HoldersCovered(s, id)
  {
    InitInv(s0);
    InitDurable(s0, id);
    DurableRun(s0, es, id);
    if KeepsTokens(s0, es, id) {
      DurableAtEnd(s0, es, id);
      if HasSpare(After(s0, es), id) {
        SpareIsStored(After(s0, es), id);
      }
    }
  }

  // ---------------------------------------------------------------- the last copy

  lemma {:induction false} SomewhereIsCopy(st: Store, queues: seq<Queue>, v: Item, q: Queue)
    requires q in queues && v in st.List(q)
    ensures CopiesOn(st, queues, v) > 0
  {
    if q != queues[0] {
      SomewhereIsCopy(st, queues[1..], v, q);
    }
  }

  lemma StoredIsCopied(st: Store, id: JobId)
    ensures Stored(st, id) <==> exists v :: IsTokenFor(v, id) && Copies(st, v) > 0
  {
    if Stored(st, id) {
      var q, i :| Usual(q) && 0 <= i < |st.List(q)| && IsTokenFor(st.List(q)[i], id);
      SomewhereIsCopy(st, QUEUES, st.List(q)[i], q);
    }
    if v :| IsTokenFor(v, id) && Copies(st, v) > 0 {
      CopyIsSomewhere(st, QUEUES, v);
      var q, i :| q in QUEUES && 0 <= i < |st.List(q)| && st.List(q)[i] == v;
      assert Usual(q) && IsTokenFor(st.List(q)[i], id);
    }
  }

  /** Copies of the token beyond the one that the LREM of gone removes. */
  function CopiesBut(st: Store, gone: Item, v: Item): int {
    Copies(st, v) - One(v == gone && v in st.List(Processing))
  }

  /** After a reaper's LREM a job still has a token on some list if and only if it had a copy more
      than the one removed. */
  lemma ReaperRemoveLeaves(s: Sys, a: ActorId, c: Outcome, id: JobId)
    requires Inv(s) && a in s.actors && OfReaper(s.actors[a]) && Plan(s.db, s.actors[a], c).0.Remove?
    ensures var gone := Plan(s.db, s.actors[a], c).0.item;
      Stored(Apply(s, Step(a, c)).db, id) <==> exists v :: IsTokenFor(v, id) && CopiesBut(s.db, gone, v) > 0
  {
    var cmd, st' := Plan(s.db, s.actors[a], c).0, Apply(s, Step(a, c)).db;
    StoredIsCopied(st', id);
    forall v ensures Copies(st', v) == CopiesBut(s.db, cmd.item, v) {
      OthersKeepCopies(s, a, c, v);
    }
  }

  // ---------------------------------------------------------------- conditions on single events

  /** Programs stop anywhere but between a table write and its push, pushes succeed, CancelJob's
      UPDATE meets the status its read has seen, and reapers take only tokens whose holder is gone. */
  ghost predicate Careful(s: Sys, e: Event)
    requires Enabled(s, e)
  {
    && Orderly(s, e)
    && (e.Crash? ==> !s.actors[e.a].SubmitPush? && !s.actors[e.a].PumpPush?)
    && forall v: Item :: v.Token? ==> !TakesHeld(s, e, v)
  }

  /** The token a reaper removes from the processing list on this event, if any. */
  ghost predicate Discards(s: Sys, e: Event, v: Item)
    requires Enabled(s, e)
  {
    e.Step? && OfReaper(s.actors[e.a]) && Plan(s.db, s.actors[e.a], e.outcome).0 == Remove(Processing, v)
    && v in s.db.List(Processing)
  }

  /** With care, only the LREM of a reaper can still strand a job. */
  lemma CarefulLosesByDiscard(s: Sys, e: Event, id: JobId)
    requires Inv(s) && SysCalm(s) && Enabled(s, e) && Careful(s, e) && Durable(s, id) && LosesToken(s, e, id)
    ensures Strands(s, e, id) && exists v :: IsTokenFor(v, id) && Discards(s, e, v)
  {
    hide Inv, SysCalm, Careful, Durable, Strands, Discards, TakesHeld;
    NoneHeldTaken(s, e, id);
    StrandingTakes(s, e, id);
    CarefulDropsNone(s, e, id);
    var v :| IsTokenFor(v, id) && Uses(s, e, v) > 0;
    StrandedIsQueued(s, e, id);
    CarefulUses(s, e, v, id);
  }

  lemma StrandedIsQueued(s: Sys, e: Event, id: JobId)
    requires Enabled(s, e) && Strands(s, e, id)
    ensures s.db.HasStatus(id, Queued)
  {
  }

  lemma NoneHeldTaken(s: Sys, e: Event, id: JobId)
    requires Enabled(s, e) && Careful(s, e) && LosesToken(s, e, id)
    ensures Strands(s, e, id)
  {
  }

  lemma CarefulDropsNone(s: Sys, e: Event, id: JobId)
    requires Inv(s) && SysCalm(s) && Enabled(s, e) && Careful(s, e)
    ensures !DropsSomePush(s, e, id)
  {
    forall a | a in s.actors && MidPush(s.actors[a], id) ensures !DropsPush(s, e, a) {
      assert ActorOk(s.db, s.actors[a]) && ActorCalm(s.actors[a]);
    }
  }

  lemma CarefulUses(s: Sys, e: Event, v: Item, id: JobId)
    requires Inv(s) && SysCalm(s) && Enabled(s, e) && Careful(s, e)
    requires IsTokenFor(v, id) && Uses(s, e, v) > 0 && s.db.HasStatus(id, Queued)
    ensures Discards(s, e, v)
  {
    assert ActorOk(s.db, s.actors[e.a]) && ActorCalm(s.actors[e.a]);
  }

  /** A reaper's LREM meets no queued job: the status has not changed since its read. */
  ghost predicate DiscardsUnqueued(s: Sys, e: Event)
    requires Enabled(s, e)
  {
    forall v: Item :: v.Token? && Discards(s, e, v) ==> !s.db.HasStatus(v.id, Queued)
  }

  ghost predicate AllCareful(s: Sys, es: seq<Event>)
    requires IsRun(s, es)
    decreases |es|
  {
    es == []
    || (Careful(s, es[0]) && DiscardsUnqueued(s, es[0]) && AllCareful(Apply(s, es[0]), es[1..]))
  }

  lemma {:induction false} CarefulRun(s: Sys, es: seq<Event>, id: JobId)
    requires Inv(s) && SysCalm(s) && Durable(s, id) && IsRun(s, es) && AllCareful(s, es)
    ensures KeepsTokens(s, es, id)
    decreases |es|
  {
    hide Inv, SysCalm, Durable, LosesToken, Apply, Discards;
    if es != [] {
      if LosesToken(s, es[0], id) {
        CarefulLosesByDiscard(s, es[0], id);
      }
      DurableStep(s, es[0], id);
      CalmStep(s, es[0]);
      InvStep(s, es[0]);
      CarefulRun(Apply(s, es[0]), es[1..], id);
    }
  }

  /** The same for conditions that can be seen on each event. */
  lemma CarefulRunsKeepTokens(s0: Sys, es: seq<Event>, id: JobId)
    requires Init(s0) && IsRun(s0, es) && AllCareful(s0, es)
    ensures var s := After(s0, es);
      s.db.HasStatus(id, Queued) ==> Stored(s.db, id) || SomeMidPush(s, id)
  {
    InitInv(s0);
    InitDurable(s0, id);
    CarefulRun(s0, es, id);
    QueuedJobsSurviveCrashes(s0, es, id);
  }

  // ---------------------------------------------------------------- reapers that are not interrupted

  /** Between the read of a job and the last command for its token. */
  predicate MidItem(p: Actor) {
    p.ReapMove? || p.ReapPush? || p.ReapDrop?
  }

  /** A reaper's read and its commands for the token are one step, with a fallback push that
      succeeds, and what it removes unread is no token of a queued job. */
  ghost predicate Attentive(s: Sys, e: Event)
    requires Enabled(s, e)
  {
    && (forall a :: a in s.actors && MidItem(s.actors[a]) ==>
         e == Crash(a) || (e.Step? && e.a == a && (s.actors[a].ReapPush? ==> e.outcome.Ok?)))
    && (forall v: Item :: v.Token? && Discards(s, e, v) ==>
         s.actors[e.a].ReapDrop? || !s.db.HasStatus(v.id, Queued))
  }

  ghost predicate AllAttentive(s: Sys, es: seq<Event>)
    requires IsRun(s, es)
    decreases |es|
  {
    es == []
    || (Careful(s, es[0]) && Attentive(s, es[0]) && AllAttentive(Apply(s, es[0]), es[1..]))
  }

  /** Without one copy of that token the job still has a spare copy, or a push is due. */
  ghost predicate Backed(s: Sys, gone: Item, id: JobId) {
    SomeMidPush(s, id) || exists v :: IsTokenFor(v, id) && Spare(s, v) > One(v == gone)
  }

  /** A reaper that is about to remove a token of a queued job has pushed a copy of it before. */
  ghost predicate DropsBacked(s: Sys, id: JobId) {
    forall a :: a in s.actors && s.actors[a].ReapDrop? && s.actors[a].token.id == id ==>
      s.db.HasStatus(id, Queued) ==> Backed(s, s.actors[a].token, id)
  }

  lemma FallbackBacks(s: Sys, a: ActorId, c: Outcome, id: JobId)
    requires Inv(s) && Durable(s, id) && a in s.actors && s.actors[a].ReapPush? && c.Ok?
    requires s.actors[a].token.id == id && s.db.HasStatus(id, Queued)
    ensures Backed(Apply(s, Step(a, c)), s.actors[a].token, id)
  {
    var s', token := Apply(s, Step(a, c)), s.actors[a].token;
    assert ActorOk(s.db, s.actors[a]);
    if v :| IsTokenFor(v, id) && Spare(s, v) > 0 {
      OthersKeepNumber(s, a, c, Discarding, v);
      OthersKeepCopies(s, a, c, v);
      RoutableIsUsual(token.priority);
      assert Spare(s', v) > One(v == token);
    } else {
      var b :| b in s.actors && MidPush(s.actors[b], id);
      assert MidPush(s'.actors[b], id);
    }
  }

  /** A read that leads to an LREM has seen the job not queued. */
  lemma DropsFollow(s: Sys, e: Event, id: JobId, a: ActorId)
    requires Enabled(s, e) && Attentive(s, e) && a in Apply(s, e).actors
    requires Apply(s, e).actors[a].ReapDrop? && Apply(s, e).actors[a].token.id == id
    requires Apply(s, e).db.HasStatus(id, Queued)
    ensures e.Step? && e.a == a && s.actors[a].ReapPush? && e.outcome.Ok?
    ensures s.actors[a].token == Apply(s, e).actors[a].token && s.db.HasStatus(id, Queued)
  {
    ActorsAfter(s, e, a);
  }

  lemma DropsBackedStep(s: Sys, e: Event, id: JobId)
    requires Inv(s) && Enabled(s, e) && Durable(s, id) && Attentive(s, e)
    ensures DropsBacked(Apply(s, e), id)
  {
    hide Inv, Apply, Durable, Attentive, Backed;
    var s' := Apply(s, e);
    forall a | a in s'.actors && s'.actors[a].ReapDrop? && s'.actors[a].token.id == id
               && s'.db.HasStatus(id, Queued)
      ensures Backed(s', s'.actors[a].token, id)
    {
      DropsFollow(s, e, id, a);
      FallbackBacks(s, a, e.outcome, id);
    }
  }

  lemma AttentiveLosesNothing(s: Sys, e: Event, id: JobId)
    requires Inv(s) && SysCalm(s) && Enabled(s, e) && Careful(s, e) && Attentive(s, e)
    requires Durable(s, id) && DropsBacked(s, id)
    ensures !LosesToken(s, e, id)
  {
    hide Inv, SysCalm, Careful, Durable, LosesToken, MidPush;
    if LosesToken(s, e, id) {
      CarefulLosesByDiscard(s, e, id);
      var gone :| IsTokenFor(gone, id) && Discards(s, e, gone);
      assert s.actors[e.a].ReapDrop? && s.actors[e.a].token == gone;
      BackedSurvives(s, e, gone, id);
    }
  }

  lemma BackedSurvives(s: Sys, e: Event, gone: Item, id: JobId)
    requires Enabled(s, e) && Discards(s, e, gone) && Backed(s, gone, id)
    ensures !Strands(s, e, id)
  {
    if v :| IsTokenFor(v, id) && Spare(s, v) > One(v == gone) {
      assert Uses(s, e, v) == One(v == gone);
    } else {
      var a :| a in s.actors && MidPush(s.actors[a], id);
      assert !DropsPush(s, e, a);
    }
  }

  lemma {:induction false} AttentiveRun(s: Sys, es: seq<Event>, id: JobId)
    requires Inv(s) && SysCalm(s) && Durable(s, id) && DropsBacked(s, id)
    requires IsRun(s, es) && AllAttentive(s, es)
    ensures KeepsTokens(s, es, id)
    decreases |es|
  {
    hide Inv, SysCalm, Durable, LosesToken, Apply, Attentive, DropsBacked;
    if es != [] {
      AttentiveLosesNothing(s, es[0], id);
      DurableStep(s, es[0], id);
      DropsBackedStep(s, es[0], id);
      CalmStep(s, es[0]);
      InvStep(s, es[0]);
      AttentiveRun(Apply(s, es[0]), es[1..], id);
    }
  }

  /** The same when each reaper reads a job and handles its token in one step, fallback included,
      whatever the status of the job. */
  lemma AttentiveRunsKeepTokens(s0: Sys, es: seq<Event>, id: JobId)
    requires Init(s0) && IsRun(s0, es) && AllAttentive(s0, es)
    ensures var s := After(s0, es);
      s.db.HasStatus(id, Queued) ==> Stored(s.db, id) || SomeMidPush(s, id)
  {
    InitInv(s0);
    InitDurable(s0, id);
    AttentiveRun(s0, es, id);
    QueuedJobsSurviveCrashes(s0, es, id);
  }
}

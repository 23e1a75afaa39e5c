/** No lost wake-up: a queued job always has a pending token, or a program that still owes one,
    whatever reapers move, mis-route or duplicate. */
module Wakeups {
  import opened Types
  import opened Stores
  import opened Protocol
  import opened Safety
  import opened Outcomes

  predicate IsTokenFor(item: Item, id: JobId) {
    item.Token? && item.id == id
  }

  ghost predicate TokenIn(items: seq<Item>, id: JobId) {
    exists i :: 0 <= i < |items| && IsTokenFor(items[i], id)
  }

  ghost predicate Pends(st: Store, id: JobId) {
    exists p :: Routable(p) && TokenIn(st.List(Pending(p)), id)
  }

  /** Popped and not yet claimed, or between a table write and its push. */
  predicate Owes(p: Option<Actor>, id: JobId) {
    match p
    case Some(Popped(item, _)) => IsTokenFor(item, id)
    case Some(PushBack(item, _)) => IsTokenFor(item, id)
    case Some(SubmitPush(id', _)) => id' == id
    case Some(PumpPush(due, _)) => due.id == id
    case _ => false
  }

  ghost predicate Owed(s: Sys, id: JobId) {
    exists a :: a in s.actors && Owes(Some(s.actors[a]), id)
  }

  ghost predicate Awake(s: Sys, id: JobId) {
    Pends(s.db, id) || Owed(s, id)
  }

  /** The three ways a wake-up goes away: the program that owes the token stops, its push fails
      or has no list to go to, or a CancelJob that met the job running, although it had read it
      queued, removes tokens of a job that has been queued again. */
  ghost predicate DropsWakeup(s: Sys, e: Event, id: JobId)
    requires Enabled(s, e)
  {
    match e
    case Crash(a) => Owes(Some(s.actors[a]), id)
    case Step(a, c) =>
      (match s.actors[a]
       case PushBack(item, _) => c.Err? && IsTokenFor(item, id)
       case SubmitPush(id', row) => id' == id && (c.Err? || !Routable(row.priority))
       case PumpPush(due, _) => due.id == id && (c.Err? || !Routable(due.priority))
       case CancelDrop(id', seen, stale) => id' == id && c.Ok? && Routable(seen.priority) && stale
       case _ => false)
    case _ => false
  }

  /** Everything that wakes the job is at stake: nobody else owes a token, and no token pends but
      those that a CancelJob is about to remove. */
  ghost predicate AllAtStake(s: Sys, e: Event, id: JobId)
    requires Enabled(s, e)
  {
    && (forall a :: a in s.actors && Owes(Some(s.actors[a]), id) ==> ByActor(e, a))
    && if e.Step? && s.actors[e.a].CancelDrop?
       then
         var seen := s.actors[e.a].seen;
         OnlyOn(s.db, seen.priority, TokenOf(id, seen.typ, seen.priority), id)
       else !Pends(s.db, id)
  }

  /** The pending tokens of the job are copies of that one, on the list of that priority. */
  ghost predicate OnlyOn(st: Store, p: Priority, token: Item, id: JobId) {
    forall q, i :: Routable(q) && 0 <= i < |st.List(Pending(q))| && IsTokenFor(st.List(Pending(q))[i], id) ==>
      q == p && st.List(Pending(q))[i] == token
  }

  /** The last wake-up of a queued job goes away. */
  ghost predicate LosesWakeup(s: Sys, e: Event, id: JobId)
    requires Enabled(s, e)
  {
    s.db.HasStatus(id, Queued) && DropsWakeup(s, e, id) && AllAtStake(s, e, id)
  }

  // ---------------------------------------------------------------- lists

  lemma {:induction false} WithoutAllKeeps(items: seq<Item>, gone: Item, id: JobId)
    requires TokenIn(items, id) && !IsTokenFor(gone, id)
    ensures TokenIn(WithoutAll(items, gone), id)
  {
    var i :| 0 <= i < |items| && IsTokenFor(items[i], id);
    if i == 0 {
      assert WithoutAll(items, gone)[0] == items[0];
    } else {
      assert IsTokenFor(items[1..][i - 1], id);
      WithoutAllKeeps(items[1..], gone, id);
      var rest := WithoutAll(items[1..], gone);
      var k :| 0 <= k < |rest| && IsTokenFor(rest[k], id);
      var r := WithoutAll(items, gone);
      assert IsTokenFor(r[if items[0] == gone then k else k + 1], id);
    }
  }

  lemma FrontKeeps(item: Item, items: seq<Item>, id: JobId)
    requires IsTokenFor(item, id) || TokenIn(items, id)
    ensures TokenIn([item] + items, id)
  {
    if IsTokenFor(item, id) {
      assert IsTokenFor(([item] + items)[0], id);
    } else {
      var i :| 0 <= i < |items| && IsTokenFor(items[i], id);
      assert IsTokenFor(([item] + items)[i + 1], id);
    }
  }

  /** Commands that take nothing from the pending lists. */
  predicate OnlyAdds(cmd: Command) {
    match cmd
    case MoveTail(source, target) => source == Processing && target != Processing
    case Remove(q, _) => q == Processing
    case RemoveAll(_, _) => false
    case _ => true
  }

  lemma AddingKeeps(st: Store, cmd: Command, id: JobId)
    requires OnlyAdds(cmd) && Pends(st, id)
    ensures Pends(Do(st, cmd), id)
  {
    var p :| Routable(p) && TokenIn(st.List(Pending(p)), id);
    var st' := Do(st, cmd);
    if !TouchesList(cmd, Pending(p)) {
      ListUntouched(st, cmd, Pending(p));
    } else if cmd.Push? {
      FrontKeeps(cmd.item, st.List(Pending(p)), id);
    } else {
      var items := st.List(Processing);
      if items != [] {
        FrontKeeps(items[|items| - 1], st.List(Pending(p)), id);
        assert st'.List(Pending(p)) == [items[|items| - 1]] + st.List(Pending(p));
      }
    }
    assert TokenIn(st'.List(Pending(p)), id);
  }

  lemma PushPends(st: Store, p: Priority, item: Item, id: JobId)
    requires Routable(p) && IsTokenFor(item, id)
    ensures Pends(Do(st, Push(Pending(p), item)), id)
  {
    FrontKeeps(item, st.List(Pending(p)), id);
    assert TokenIn(Do(st, Push(Pending(p), item)).List(Pending(p)), id);
  }

  lemma RemoveAllKeeps(st: Store, q: Queue, gone: Item, id: JobId)
    requires Pends(st, id) && !IsTokenFor(gone, id)
    ensures Pends(Do(st, RemoveAll(q, gone)), id)
  {
    var p :| Routable(p) && TokenIn(st.List(Pending(p)), id);
    if q == Pending(p) {
      WithoutAllKeeps(st.List(q), gone, id);
    }
    assert TokenIn(Do(st, RemoveAll(q, gone)).List(Pending(p)), id);
  }

  /** A popped token is in its holder's hands. */
  lemma PopKeeps(st: Store, p: Priority, id: JobId)
    requires CanStart(st, Pop(p)) && Pends(st, id)
    ensures var (cmd, holder) := StartPlan(st, Pop(p));
      Pends(Do(st, cmd), id) || Owes(Some(holder), id)
  {
    var (cmd, holder) := StartPlan(st, Pop(p));
    var q :| Routable(q) && TokenIn(st.List(Pending(q)), id);
    var items := st.List(Pending(q));
    if q == p && !IsTokenFor(items[|items| - 1], id) {
      var i :| 0 <= i < |items| && IsTokenFor(items[i], id);
      assert IsTokenFor(items[..|items| - 1][i], id);
    }
    if !Owes(Some(holder), id) {
      assert TokenIn(Do(st, cmd).List(Pending(q)), id);
    }
  }

  // ---------------------------------------------------------------- steps

  lemma PlanAdds(st: Store, p: Actor, c: Outcome)
    requires ActorOk(st, p)
    ensures OnlyAdds(Plan(st, p, c).0) || p.CancelDrop?
  {
  }

  lemma {:induction false} WithoutAllIsPart(items: seq<Item>, gone: Item, v: Item)
    ensures v in WithoutAll(items, gone) <==> v in items && v != gone
  {
    if items != [] {
      WithoutAllIsPart(items[1..], gone, v);
    }
  }

  /** The removal leaves the job a pending token exactly if it has one elsewhere or another one. */
  lemma RemoveAllLeaves(st: Store, p: Priority, gone: Item, id: JobId)
    ensures Pends(Do(st, RemoveAll(Pending(p), gone)), id) <==> !OnlyOn(st, p, gone, id)
  {
    var st' := Do(st, RemoveAll(Pending(p), gone));
    if !OnlyOn(st, p, gone, id) {
      var q, i :| Routable(q) && 0 <= i < |st.List(Pending(q))| && IsTokenFor(st.List(Pending(q))[i], id)
        && !(q == p && st.List(Pending(q))[i] == gone);
      var v := st.List(Pending(q))[i];
      WithoutAllIsPart(st.List(Pending(q)), gone, v);
      assert v in st'.List(Pending(q));
      var k :| 0 <= k < |st'.List(Pending(q))| && st'.List(Pending(q))[k] == v;
      assert TokenIn(st'.List(Pending(q)), id);
    }
    if Pends(st', id) {
      var q :| Routable(q) && TokenIn(st'.List(Pending(q)), id);
      var k :| 0 <= k < |st'.List(Pending(q))| && IsTokenFor(st'.List(Pending(q))[k], id);
      var v := st'.List(Pending(q))[k];
      WithoutAllIsPart(st.List(Pending(q)), gone, v);
      assert v in st.List(Pending(q));
      var i :| 0 <= i < |st.List(Pending(q))| && st.List(Pending(q))[i] == v;
    }
  }

  lemma CancelPlan(st: Store, p: Actor, c: Outcome)
    requires p.CancelDrop?
    ensures var (cmd, p') := Plan(st, p, c);
      && p' == None
      && cmd == if c.Ok? && Routable(p.seen.priority)
                then RemoveAll(Pending(p.seen.priority), TokenOf(p.id, p.seen.typ, p.seen.priority)) else NoOp
  {
  }

  /** A CancelJob that met the job queued removes tokens of a job that stays cancelled. */
  lemma CancelKeeps(s: Sys, e: Event, id: JobId)
    requires Inv(s) && Enabled(s, e) && Pends(s.db, id) && !DropsWakeup(s, e, id)
    requires e.Step? && s.actors[e.a].CancelDrop?
    ensures Pends(Apply(s, e).db, id) || !Apply(s, e).db.HasStatus(id, Queued)
  {
    var p := s.actors[e.a];
    assert ActorOk(s.db, p);
    CancelPlan(s.db, p, e.outcome);
    var cmd := Plan(s.db, p, e.outcome).0;
    assert Apply(s, e).db.tasks == s.db.tasks;
    if cmd.RemoveAll? && p.id != id {
      RemoveAllKeeps(s.db, cmd.q, cmd.item, id);
    }
  }

  /** No step loses a pending token unless the stepping actor then holds it. */
  lemma TokensKept(s: Sys, e: Event, id: JobId)
    requires Inv(s) && Enabled(s, e) && Pends(s.db, id) && !DropsWakeup(s, e, id)
    ensures Pends(Apply(s, e).db, id) || Owes(Moved(s, e), id) || !Apply(s, e).db.HasStatus(id, Queued)
  {
    match e
    case Step(a, c) =>
      if s.actors[a].CancelDrop? {
        CancelKeeps(s, e, id);
      } else {
        PlanAdds(s.db, s.actors[a], c);
        AddingKeeps(s.db, Plan(s.db, s.actors[a], c).0, id);
      }
    case Begin(_, start) =>
      if start.Pop? {
        PopKeeps(s.db, start.priority, id);
      }
    case _ =>
  }

  /** A debt ends in a token, in a claim, or in a loss. */
  lemma DebtsPaid(s: Sys, e: Event, id: JobId)
    requires Inv(s) && Enabled(s, e) && Owes(Mover(s, e), id) && !DropsWakeup(s, e, id)
    ensures Pends(Apply(s, e).db, id) || Owes(Moved(s, e), id) || !Apply(s, e).db.HasStatus(id, Queued)
  {
    if e.Step? {
      var p := s.actors[e.a];
      assert ActorOk(s.db, p);
      match p
      case PushBack(item, source) => PushPends(s.db, source.priority, item, id);
      case SubmitPush(_, row) => PushPends(s.db, row.priority, TokenOf(id, row.typ, row.priority), id);
      case PumpPush(due, _) => PushPends(s.db, due.priority, TokenOf(id, due.typ, due.priority), id);
      case _ =>
    }
  }

  /** Whoever queues a job owes it a token. */
  lemma QueuingOwes(s: Sys, e: Event, id: JobId)
    requires Inv(s) && Enabled(s, e)
    requires !s.db.HasStatus(id, Queued) && Apply(s, e).db.HasStatus(id, Queued)
    ensures Owes(Moved(s, e), id)
  {
    match e
    case Step(a, c) => PlanQueuingOwes(s.db, s.actors[a], c, id);
    case Begin(_, start) => Untouched(s.db, StartPlan(s.db, start).0, id);
    case _ =>
  }

  predicate MayQueue(cmd: Command, id: JobId) {
    (cmd.InsertTask? || cmd.RequeueTask?) && cmd.id == id
  }

  lemma OnlyTheseQueue(st: Store, cmd: Command, id: JobId)
    requires !MayQueue(cmd, id) && (cmd.MarkTask? ==> cmd.status != Queued)
    requires Do(st, cmd).HasStatus(id, Queued)
    ensures st.HasStatus(id, Queued)
  {
  }

  lemma PlanQueues(st: Store, p: Actor, c: Outcome, id: JobId)
    ensures var (cmd, _) := Plan(st, p, c);
      && (cmd.MarkTask? ==> cmd.status != Queued)
      && (MayQueue(cmd, id) ==>
           (p.Submitting? && p.id == id && c.Ok?) || (p.PumpScan? && p.rows != [] && p.rows[0].id == id && c.Ok?))
  {
  }

  lemma PlanQueuingOwes(st: Store, p: Actor, c: Outcome, id: JobId)
    requires var (cmd, _) := Plan(st, p, c);
      !st.HasStatus(id, Queued) && Do(st, cmd).HasStatus(id, Queued)
    ensures Owes(Plan(st, p, c).1, id)
  {
    PlanQueues(st, p, c, id);
    if !MayQueue(Plan(st, p, c).0, id) {
      OnlyTheseQueue(st, Plan(st, p, c).0, id);
    }
  }

  lemma OthersStillOwe(s: Sys, e: Event, id: JobId, a: ActorId)
    requires Enabled(s, e) && a in s.actors && !ByActor(e, a) && Owes(Some(s.actors[a]), id)
    ensures Owed(Apply(s, e), id)
  {
    ActorsAfter(s, e, a);
    assert Owes(Some(Apply(s, e).actors[a]), id);
  }

  /** When a wake-up goes away that is not the last one, the rest pends. */
  lemma RestPends(s: Sys, e: Event, id: JobId)
    requires Inv(s) && Enabled(s, e) && DropsWakeup(s, e, id) && !AllAtStake(s, e, id)
    requires forall a :: a in s.actors && Owes(Some(s.actors[a]), id) ==> ByActor(e, a)
    ensures Pends(Apply(s, e).db, id)
  {
    if e.Step? {
      var p := s.actors[e.a];
      if p.CancelDrop? {
        CancelPlan(s.db, p, e.outcome);
        RemoveAllLeaves(s.db, p.seen.priority, TokenOf(id, p.seen.typ, p.seen.priority), id);
      } else {
        PlanAdds(s.db, p, e.outcome);
        AddingKeeps(s.db, Plan(s.db, p, e.outcome).0, id);
      }
    }
  }

  lemma WakeupStep(s: Sys, e: Event, id: JobId)
    requires Inv(s) && Enabled(s, e) && !LosesWakeup(s, e, id)
    requires s.db.HasStatus(id, Queued) ==> Awake(s, id)
    ensures Apply(s, e).db.HasStatus(id, Queued) ==> Awake(Apply(s, e), id)
  {
    hide Inv, Apply, Owes, DropsWakeup, Pends;
    var s' := Apply(s, e);
    if s'.db.HasStatus(id, Queued) {
      if !s.db.HasStatus(id, Queued) {
        QueuingOwes(s, e, id);
      } else if a :| a in s.actors && !ByActor(e, a) && Owes(Some(s.actors[a]), id) {
        OthersStillOwe(s, e, id, a);
      } else if DropsWakeup(s, e, id) {
        RestPends(s, e, id);
      } else if Pends(s.db, id) {
        TokensKept(s, e, id);
      } else {
        MoverOwes(s, e, id);
        DebtsPaid(s, e, id);
      }
      if Owes(Moved(s, e), id) {
        MovedOwes(s, e, id);
      }
    }
  }

  lemma MoverOwes(s: Sys, e: Event, id: JobId)
    requires Enabled(s, e) && Owed(s, id)
    requires forall a :: a in s.actors && Owes(Some(s.actors[a]), id) ==> ByActor(e, a)
    ensures Owes(Mover(s, e), id)
  {
  }

  lemma MovedOwes(s: Sys, e: Event, id: JobId)
    requires Enabled(s, e) && Owes(Moved(s, e), id)
    ensures Owed(Apply(s, e), id)
  {
    ActorsAfter(s, e, e.a);
    assert Owes(Some(Apply(s, e).actors[e.a]), id);
  }

  lemma NobodyOwes(s: Sys, e: Event, id: JobId)
    requires Enabled(s, e) && !Owes(Moved(s, e), id)
    requires forall a :: a in s.actors && Owes(Some(s.actors[a]), id) ==> ByActor(e, a)
    ensures !Owed(Apply(s, e), id)
  {
    forall a | a in Apply(s, e).actors ensures !Owes(Some(Apply(s, e).actors[a]), id) {
      ActorsAfter(s, e, a);
    }
  }

  /** What goes away comes to nothing: the program owes no more and no row has changed. */
  lemma DropsPlan(s: Sys, e: Event, id: JobId)
    requires Inv(s) && Enabled(s, e) && DropsWakeup(s, e, id)
    ensures !Owes(Moved(s, e), id) && Apply(s, e).db.tasks == s.db.tasks
    ensures (e.Step? && s.actors[e.a].CancelDrop?) || Apply(s, e).db.lists == s.db.lists
  {
    assert e.Step? ==> ActorOk(s.db, s.actors[e.a]);
  }

  /** The other half: after the loss the job is still queued, and nothing wakes it any more. */
  lemma LossIsLoss(s: Sys, e: Event, id: JobId)
    requires Inv(s) && Enabled(s, e) && LosesWakeup(s, e, id)
    ensures Apply(s, e).db.HasStatus(id, Queued) && !Awake(Apply(s, e), id)
  {
    hide Inv;
    DropsPlan(s, e, id);
    NobodyOwes(s, e, id);
    if e.Step? && s.actors[e.a].CancelDrop? {
      var p := s.actors[e.a];
      CancelPlan(s.db, p, e.outcome);
      RemoveAllLeaves(s.db, p.seen.priority, TokenOf(id, p.seen.typ, p.seen.priority), id);
    } else {
      if Pends(Apply(s, e).db, id) {
        SameListsPendSame(s.db, Apply(s, e).db, id);
      }
    }
  }

  lemma SameListsPendSame(st: Store, st': Store, id: JobId)
    requires st'.lists == st.lists && Pends(st', id)
    ensures Pends(st, id)
  {
    var p :| Routable(p) && TokenIn(st'.List(Pending(p)), id);
    assert TokenIn(st.List(Pending(p)), id);
  }

  ghost predicate NeverLoses(s: Sys, es: seq<Event>, id: JobId)
    requires IsRun(s, es)
    decreases |es|
  {
    es == [] || (!LosesWakeup(s, es[0], id) && NeverLoses(Apply(s, es[0]), es[1..], id))
  }

  /** In every state along the run: if the job is queued, it has a pending token or a program that
      owes it one. */
  ghost predicate AlwaysAwake(s: Sys, es: seq<Event>, id: JobId)
    requires IsRun(s, es)
    decreases |es|
  {
    (s.db.HasStatus(id, Queued) ==> Awake(s, id))
    && (es == [] || AlwaysAwake(Apply(s, es[0]), es[1..], id))
  }

  lemma {:induction false} AwakeAtEnd(s: Sys, es: seq<Event>, id: JobId)
    requires IsRun(s, es) && AlwaysAwake(s, es, id)
    ensures After(s, es).db.HasStatus(id, Queued) ==> Awake(After(s, es), id)
    decreases |es|
  {
    if es != [] {
      AwakeAtEnd(Apply(s, es[0]), es[1..], id);
    }
  }

  lemma {:induction false} WakeupRun(s: Sys, es: seq<Event>, id: JobId)
    requires Inv(s) && IsRun(s, es)
    requires s.db.HasStatus(id, Queued) ==> Awake(s, id)
    ensures AlwaysAwake(s, es, id) <==> NeverLoses(s, es, id)
    decreases |es|
  {
    hide Inv, Awake, LosesWakeup, Apply;
    if es != [] {
      var s1 := Apply(s, es[0]);
      InvStep(s, es[0]);
      if LosesWakeup(s, es[0], id) {
        LossIsLoss(s, es[0], id);
      } else {
        WakeupStep(s, es[0], id);
        WakeupRun(s1, es[1..], id);
      }
    }
  }

  /** A queued job is awake in every state of a run if and only if no event of the run takes away
      its last wake-up. Reapers and claim errors are not restricted. */
  lemma NoLostWakeup(s0: Sys, es: seq<Event>, id: JobId)
    requires Init(s0) && IsRun(s0, es)
    ensures AlwaysAwake(s0, es, id) <==> NeverLoses(s0, es, id)
    ensures NeverLoses(s0, es, id) && After(s0, es).db.HasStatus(id, Queued) ==> Awake(After(s0, es), id)
  {
    InitInv(s0);
    WakeupRun(s0, es, id);
    if NeverLoses(s0, es, id) {
      AwakeAtEnd(s0, es, id);
    }
  }

  // ---------------------------------------------------------------- conditions on single events

  /** Pushes succeed, only routable priorities are submitted, and CancelJob's UPDATE finds a job
      still queued if its read found it queued. */
  ghost predicate Orderly(s: Sys, e: Event)
    requires Enabled(s, e)
  {
    match e
    case Begin(_, Submit(_, row)) => Routable(row.priority)
    case Step(a, c) =>
      (match s.actors[a]
       case PushBack(_, _) => c.Ok?
       case SubmitPush(_, _) => c.Ok?
       case PumpPush(_, _) => c.Ok?
       case Cancelling(id, seen) =>
         c.Ok? && seen.status == Queued && id in s.db.tasks && Cancellable(s.db.tasks[id].status) ==>
           s.db.tasks[id].status == Queued
       case _ => true)
    case _ => true
  }

  /** Besides, nobody crashes. */
  ghost predicate Calm(s: Sys, e: Event)
    requires Enabled(s, e)
  {
    !e.Crash? && Orderly(s, e)
  }

  ghost predicate AllCalm(s: Sys, es: seq<Event>)
    requires IsRun(s, es)
    decreases |es|
  {
    es == [] || (Calm(s, es[0]) && AllCalm(Apply(s, es[0]), es[1..]))
  }

  predicate ActorCalm(p: Actor) {
    match p
    case Submitting(_, row) => Routable(row.priority)
    case SubmitPush(_, row) => Routable(row.priority)
    case CancelDrop(_, _, stale) => !stale
    case _ => true
  }

  ghost predicate SysCalm(s: Sys) {
    && (forall a :: a in s.actors ==> ActorCalm(s.actors[a]))
    && (forall id :: id in s.db.tasks ==> Routable(s.db.tasks[id].priority))
  }

  lemma CalmStep(s: Sys, e: Event)
    requires Inv(s) && SysCalm(s) && Enabled(s, e) && Orderly(s, e)
    ensures SysCalm(Apply(s, e))
  {
    var s' := Apply(s, e);
    forall a | a in s'.actors ensures ActorCalm(s'.actors[a]) {
      ActorsAfter(s, e, a);
      if ByActor(e, a) && e.Step? {
        MovedCalm(s.db, s.actors[a], e.outcome);
      }
    }
    forall id | id in s'.db.tasks ensures Routable(s'.db.tasks[id].priority) {
      EventMoves(s, e, id);
      if id !in s.db.tasks {
        NewRowsCalm(s, e, id);
      }
    }
  }

  lemma MovedCalm(st: Store, p: Actor, c: Outcome)
    requires ActorOk(st, p) && ActorCalm(p)
    requires p.Cancelling? && c.Ok? && p.seen.status == Queued && Cancellable(st.tasks[p.id].status) ==>
      st.tasks[p.id].status == Queued
    ensures var (_, p') := Plan(st, p, c); p'.Some? ==> ActorCalm(p'.value)
  {
  }

  lemma NewRowsCalm(s: Sys, e: Event, id: JobId)
    requires Inv(s) && SysCalm(s) && Enabled(s, e)
    requires id !in s.db.tasks && id in Apply(s, e).db.tasks
    ensures Routable(Apply(s, e).db.tasks[id].priority)
  {
    match e
    case Step(a, c) =>
      var cmd := Plan(s.db, s.actors[a], c).0;
      if !TouchesRow(cmd, id) {
        Untouched(s.db, cmd, id);
      } else {
        assert ActorCalm(s.actors[a]);
      }
    case Begin(_, start) =>
      Untouched(s.db, StartPlan(s.db, start).0, id);
    case _ =>
  }

  lemma CalmLosesNothing(s: Sys, e: Event, id: JobId)
    requires Inv(s) && SysCalm(s) && Enabled(s, e) && Calm(s, e)
    ensures !LosesWakeup(s, e, id)
  {
    if e.Step? {
      assert ActorOk(s.db, s.actors[e.a]) && ActorCalm(s.actors[e.a]);
    }
  }

  lemma {:induction false} CalmRun(s: Sys, es: seq<Event>, id: JobId)
    requires Inv(s) && SysCalm(s) && IsRun(s, es) && AllCalm(s, es)
    ensures NeverLoses(s, es, id)
    decreases |es|
  {
    if es != [] {
      CalmLosesNothing(s, es[0], id);
      CalmStep(s, es[0]);
      InvStep(s, es[0]);
      CalmRun(Apply(s, es[0]), es[1..], id);
    }
  }

  /** The same for conditions a caller can see on each event, whatever the reapers do. */
  lemma CalmRunsLoseNoWakeup(s0: Sys, es: seq<Event>, id: JobId)
    requires Init(s0) && IsRun(s0, es) && AllCalm(s0, es)
    ensures After(s0, es).db.HasStatus(id, Queued) ==> Awake(After(s0, es), id)
  {
    InitInv(s0);
    CalmRun(s0, es, id);
    NoLostWakeup(s0, es, id);
  }
}

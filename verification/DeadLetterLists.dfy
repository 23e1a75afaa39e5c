/** Dead-letter lists: what is on them, for every run. */
module DeadLetterLists {
  import opened Types
  import opened Stores
  import opened Protocol
  import opened Lifecycle
  import opened Safety
  import opened Outcomes

  /** A job that has used its last attempt and can only still be marked as dead. */
  ghost predicate Spent(s: Sys, id: JobId) {
    && id in s.db.tasks
    && s.db.tasks[id].attempts == s.db.tasks[id].maxAttempts
    && (s.db.tasks[id].status == Running || s.db.tasks[id].status == Cancelled
        || s.db.tasks[id].status == DeadLetter)
    && forall a :: a in s.actors ==> ExecOf(s.actors[a]) == Some(id) ==> s.actors[a].MarkDead?
  }

  predicate TokenOfRow(st: Store, item: Item, p: Priority) {
    item.Token? && item.id in st.tasks
    && st.tasks[item.id].priority == p && item == TokenOf(item.id, st.tasks[item.id].typ, p)
  }

  ghost predicate DeadLettersOk(s: Sys) {
    && (forall p, i :: 0 <= i < |s.db.List(DeadLetters(p))| ==>
         TokenOfRow(s.db, s.db.List(DeadLetters(p))[i], p)
         && Spent(s, s.db.List(DeadLetters(p))[i].id))
    && (forall p, i, j :: 0 <= i < j < |s.db.List(DeadLetters(p))| ==>
         s.db.List(DeadLetters(p))[i] != s.db.List(DeadLetters(p))[j])
  }

  ghost predicate PushesDead(s: Sys, e: Event, p: Priority)
    requires Enabled(s, e)
  {
    e.Step? && e.outcome.Ok? && s.actors[e.a].PushDead? && s.actors[e.a].job.priority == p
  }

  lemma PlanLeavesDeadLetters(st: Store, a: Actor, c: Outcome, p: Priority)
    requires ActorOk(st, a)
    ensures TouchesList(Plan(st, a, c).0, DeadLetters(p)) ==> a.PushDead? && c.Ok? && a.job.priority == p
  {
  }

  lemma OnlyPushDeadTouches(s: Sys, e: Event, p: Priority)
    requires Inv(s) && Enabled(s, e) && !PushesDead(s, e, p)
    ensures Apply(s, e).db.List(DeadLetters(p)) == s.db.List(DeadLetters(p))
  {
    match e
    case Step(a, c) =>
      PlanLeavesDeadLetters(s.db, s.actors[a], c, p);
      ListUntouched(s.db, Plan(s.db, s.actors[a], c).0, DeadLetters(p));
    case Begin(_, start) => ListUntouched(s.db, StartPlan(s.db, start).0, DeadLetters(p));
    case _ =>
  }

  /** A dead-lettered execution only writes the status deadletter. */
  lemma MarkDeadMoves(s: Sys, e: Event, id: JobId)
    requires Inv(s) && Enabled(s, e) && Executes(Mover(s, e), id) && Mover(s, e).value.MarkDead?
    ensures !Executes(Moved(s, e), id)
    ensures Apply(s, e).db.RowAt(id) == s.db.RowAt(id) || Apply(s, e).db.HasStatus(id, DeadLetter)
  {
  }

  lemma SpentStays(s: Sys, e: Event, id: JobId)
    requires Inv(s) && Enabled(s, e) && Spent(s, id)
    ensures Spent(Apply(s, e), id)
  {
    var s' := Apply(s, e);
    EventMoves(s, e, id);
    if Executes(Mover(s, e), id) {
      MarkDeadMoves(s, e, id);
    } else if Executes(Moved(s, e), id) {
      OnlyQueuedGains(s, e, id);
    }
    forall a | a in s'.actors && ExecOf(s'.actors[a]) == Some(id) ensures s'.actors[a].MarkDead? {
      ActorsAfter(s, e, a);
    }
  }

  /** Pushing the dead letter spends the job, and it was not on the list before. */
  lemma PushSpends(s: Sys, e: Event, p: Priority)
    requires Inv(s) && DeadLettersOk(s) && Enabled(s, e) && PushesDead(s, e, p)
    ensures var s', id := Apply(s, e), s.actors[e.a].token.id;
      && id in s.db.tasks && s.db.tasks[id].priority == p
      && s'.db.tasks == s.db.tasks
      && s'.db.List(DeadLetters(p)) == [TokenOf(id, s.db.tasks[id].typ, p)] + s.db.List(DeadLetters(p))
      && Spent(s', id)
      && TokenOf(id, s.db.tasks[id].typ, p) !in s.db.List(DeadLetters(p))
  {
    var s', id := Apply(s, e), s.actors[e.a].token.id;
    assert ActorOk(s.db, s.actors[e.a]);
    assert LifeOk(LifeOf(Some(s.db.tasks[id]), false));
    forall a | a in s'.actors && ExecOf(s'.actors[a]) == Some(id) ensures s'.actors[a].MarkDead? {
      ActorsAfter(s, e, a);
    }
    assert !Spent(s, id);
  }

  lemma DeadLettersStep(s: Sys, e: Event)
    requires Inv(s) && DeadLettersOk(s) && Enabled(s, e)
    ensures DeadLettersOk(Apply(s, e))
  {
    var s' := Apply(s, e);
    forall p, i | 0 <= i < |s'.db.List(DeadLetters(p))|
      ensures TokenOfRow(s'.db, s'.db.List(DeadLetters(p))[i], p)
      ensures Spent(s', s'.db.List(DeadLetters(p))[i].id)
    {
      EntryStaysOk(s, e, p, i);
    }
    forall p, i, j | 0 <= i < j < |s'.db.List(DeadLetters(p))|
      ensures s'.db.List(DeadLetters(p))[i] != s'.db.List(DeadLetters(p))[j]
    {
      if PushesDead(s, e, p) {
        PushSpends(s, e, p);
      } else {
        OnlyPushDeadTouches(s, e, p);
      }
    }
  }

  lemma EntryStaysOk(s: Sys, e: Event, p: Priority, i: nat)
    requires Inv(s) && DeadLettersOk(s) && Enabled(s, e)
    requires i < |Apply(s, e).db.List(DeadLetters(p))|
    ensures var s' := Apply(s, e);
      TokenOfRow(s'.db, s'.db.List(DeadLetters(p))[i], p) && Spent(s', s'.db.List(DeadLetters(p))[i].id)
  {
    var item := Apply(s, e).db.List(DeadLetters(p))[i];
    if PushesDead(s, e, p) {
      PushSpends(s, e, p);
    } else {
      OnlyPushDeadTouches(s, e, p);
    }
    if item in s.db.List(DeadLetters(p)) {
      SpentStays(s, e, item.id);
      EventMoves(s, e, item.id);
    }
  }

  lemma {:induction false} DeadLettersRun(s: Sys, es: seq<Event>)
    requires Inv(s) && DeadLettersOk(s) && IsRun(s, es)
    ensures DeadLettersOk(After(s, es))
    decreases |es|
  {
    if es != [] {
      InvStep(s, es[0]);
      DeadLettersStep(s, es[0]);
      DeadLettersRun(Apply(s, es[0]), es[1..]);
    }
  }

  /** Every entry is the token of a task on the list of the task's priority, and the task has
      used all its attempts and can never be claimed again. */
  lemma DeadLettersAlways(s0: Sys, es: seq<Event>, p: Priority, i: nat)
    requires Init(s0) && IsRun(s0, es)
    requires i < |After(s0, es).db.List(DeadLetters(p))|
    ensures var s := After(s0, es);
      var x := s.db.List(DeadLetters(p))[i];
      TokenOfRow(s.db, x, p) && Spent(s, x.id)
  {
    InitInv(s0);
    DeadLettersRun(s0, es);
  }

  /** Over any run, whatever writes fail: a job is on the dead-letter lists at most once. */
  lemma DeadLetteredOnce(s0: Sys, es: seq<Event>, p: Priority, i: nat, p': Priority, j: nat)
    requires Init(s0) && IsRun(s0, es)
    requires i < |After(s0, es).db.List(DeadLetters(p))|
    requires j < |After(s0, es).db.List(DeadLetters(p'))|
    requires var st := After(s0, es).db;
      var x, y := st.List(DeadLetters(p))[i], st.List(DeadLetters(p'))[j];
      x.Token? && y.Token? && x.id == y.id
    ensures p == p' && i == j
  {
    InitInv(s0);
    DeadLettersRun(s0, es);
    var st := After(s0, es).db;
    assert TokenOfRow(st, st.List(DeadLetters(p))[i], p);
    assert TokenOfRow(st, st.List(DeadLetters(p'))[j], p');
  }
}

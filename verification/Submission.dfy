/** Any number of SubmitJob calls with one id: one row, and at most one token, the winner's. */
module Submission {
  import opened Types
  import opened Stores
  import opened Protocol
  import opened Safety
  import opened Outcomes

  type Call = (ActorId, Row)

  /** The call whose INSERT creates the row on this event, if any. */
  ghost function Inserted(s: Sys, e: Event, id: JobId): seq<Call>
    requires Enabled(s, e)
  {
    if e.Step? && e.outcome.Ok? && s.actors[e.a].Submitting? && s.actors[e.a].id == id && id !in s.db.tasks
    then [(e.a, s.actors[e.a].row)] else []
  }

  /** The call that pushes the token of a new job on this event, if any. */
  ghost function Pushed(s: Sys, e: Event, id: JobId): seq<Call>
    requires Enabled(s, e)
  {
    if e.Step? && e.outcome.Ok? && s.actors[e.a].SubmitPush? && s.actors[e.a].id == id
       && Routable(s.actors[e.a].row.priority)
    then [(e.a, s.actors[e.a].row)] else []
  }

  ghost function Inserts(s: Sys, es: seq<Event>, id: JobId): seq<Call>
    requires IsRun(s, es)
    decreases |es|
  {
    if es == [] then [] else Inserted(s, es[0], id) + Inserts(Apply(s, es[0]), es[1..], id)
  }

  ghost function Pushes(s: Sys, es: seq<Event>, id: JobId): seq<Call>
    requires IsRun(s, es)
    decreases |es|
  {
    if es == [] then [] else Pushed(s, es[0], id) + Pushes(Apply(s, es[0]), es[1..], id)
  }

  /** ins and outs are the inserts and pushes so far. */
  ghost predicate SubmitOk(s: Sys, id: JobId, ins: seq<Call>, outs: seq<Call>) {
    && |ins| == (if id in s.db.tasks then 1 else 0)
    && (outs == [] || outs == ins)
    && (id in s.db.tasks ==> SameFields(s.db.tasks[id], ins[0].1))
    && (forall a :: a in s.actors ==>
         s.actors[a].SubmitPush? && s.actors[a].id == id ==> outs == [] && ins == [(a, s.actors[a].row)])
  }

  lemma PushComesFromInsert(s: Sys, e: Event, id: JobId)
    requires Inv(s) && Enabled(s, e)
    requires Moved(s, e).Some? && Moved(s, e).value.SubmitPush? && Moved(s, e).value.id == id
    ensures Inserted(s, e, id) == [(e.a, Moved(s, e).value.row)]
  {
  }

  lemma OnlyInsertCreates(st: Store, p: Actor, c: Outcome, id: JobId)
    requires ActorOk(st, p) && id !in st.tasks
    ensures var (cmd, _) := Plan(st, p, c);
      id in Do(st, cmd).tasks ==> p.Submitting? && p.id == id && c.Ok?
  {
    hide ActorOk, Plan;
    var (cmd, _) := Plan(st, p, c);
    if !TouchesRow(cmd, id) {
      Untouched(st, cmd, id);
      assert st.RowAt(id).None?;
    } else if cmd.InsertTask? {
      PlanInserts(st, p, c);
    }
  }

  lemma PlanInserts(st: Store, p: Actor, c: Outcome)
    requires Plan(st, p, c).0.InsertTask?
    ensures p.Submitting? && p.id == Plan(st, p, c).0.id && c.Ok?
  {
  }

  lemma InsertedEffect(s: Sys, e: Event, id: JobId)
    requires Inv(s) && Enabled(s, e) && id !in s.db.tasks
    ensures id in Apply(s, e).db.tasks <==> Inserted(s, e, id) != []
    ensures Inserted(s, e, id) != [] ==>
      Pushed(s, e, id) == [] && SameFields(Apply(s, e).db.tasks[id], Inserted(s, e, id)[0].1)
  {
    match e
    case Step(a, c) => OnlyInsertCreates(s.db, s.actors[a], c, id);
    case Begin(_, start) =>
      Untouched(s.db, StartPlan(s.db, start).0, id);
      assert Apply(s, e).db.RowAt(id).None?;
    case _ =>
  }

  lemma SubmitStep(s: Sys, e: Event, id: JobId, ins: seq<Call>, outs: seq<Call>)
    requires Inv(s) && Enabled(s, e) && SubmitOk(s, id, ins, outs)
    ensures SubmitOk(Apply(s, e), id, ins + Inserted(s, e, id), outs + Pushed(s, e, id))
  {
    var s' := Apply(s, e);
    EventMoves(s, e, id);
    if id !in s.db.tasks {
      InsertedEffect(s, e, id);
    }
    forall a | a in s'.actors && s'.actors[a].SubmitPush? && s'.actors[a].id == id
      ensures outs + Pushed(s, e, id) == [] && ins + Inserted(s, e, id) == [(a, s'.actors[a].row)]
    {
      ActorsAfter(s, e, a);
      if ByActor(e, a) {
        PushComesFromInsert(s, e, id);
      }
    }
  }

  lemma {:induction false} SubmitRun(s: Sys, es: seq<Event>, id: JobId, ins: seq<Call>, outs: seq<Call>)
    requires Inv(s) && IsRun(s, es) && SubmitOk(s, id, ins, outs)
    ensures SubmitOk(After(s, es), id, ins + Inserts(s, es, id), outs + Pushes(s, es, id))
    decreases |es|
  {
    if es == [] {
      assert ins + [] == ins && outs + [] == outs;
    } else {
      var i, o := Inserted(s, es[0], id), Pushed(s, es[0], id);
      InvStep(s, es[0]);
      SubmitStep(s, es[0], id, ins, outs);
      SubmitRun(Apply(s, es[0]), es[1..], id, ins + i, outs + o);
      assert ins + Inserts(s, es, id) == ins + i + Inserts(Apply(s, es[0]), es[1..], id);
      assert outs + Pushes(s, es, id) == outs + o + Pushes(Apply(s, es[0]), es[1..], id);
    }
  }

  /** For every interleaving of submissions with everything else: at most one call creates the
      row, the row keeps that call's fields for ever, and the only token ever pushed by a
      submission is pushed by that call, once. */
  lemma SubmittedOnce(s0: Sys, es: seq<Event>, id: JobId)
    requires Init(s0) && IsRun(s0, es)
    ensures var ins, outs, s := Inserts(s0, es, id), Pushes(s0, es, id), After(s0, es);
      && |ins| <= 1
      && (outs == [] || outs == ins)
      && (id in s.db.tasks <==> |ins| == 1)
      && (id in s.db.tasks ==> SameFields(s.db.tasks[id], ins[0].1))
  {
    InitInv(s0);
    SubmitRun(s0, es, id, [], []);
    assert [] + Inserts(s0, es, id) == Inserts(s0, es, id);
    assert [] + Pushes(s0, es, id) == Pushes(s0, es, id);
  }
}

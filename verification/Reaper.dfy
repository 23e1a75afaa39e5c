/** recoverStuckJobs as one uninterrupted pass with Redis answering every command: what becomes
    of the tokens on the processing list. */
module Reaper {
  import opened Types
  import opened Stores
  import opened Protocol
  import opened Durability

  /** moveJobBackToQueue: whatever is rightmost, or a new copy of the token. */
  function MovedBack(st: Store, token: JobToken): Store {
    if st.List(Processing) != [] then Do(st, MoveTail(Processing, Pending(token.priority)))
    else Do(Do(st, Push(Pending(token.priority), token)), Remove(Processing, token))
  }

  /** The pass over one listed item; answer is how its GetJobByID comes out. */
  function PassItem(st: Store, item: Item, answer: Outcome): Store {
    if !item.Token? || !Routable(item.priority) then Do(st, Remove(Processing, item))
    else
      match ReapChoice(st, item, [], answer)
      case ReapMove(_, _) => MovedBack(st, item)
      case ReapDrop(_, _) => Do(st, Remove(Processing, item))
      case _ => st
  }

  function Pass(st: Store, items: seq<Item>, answers: seq<Outcome>): Store
    requires |answers| == |items|
    decreases |items|
  {
    if items == [] then st else Pass(PassItem(st, items[0], answers[0]), items[1..], answers[1..])
  }

  // ---------------------------------------------------------------- the pass is the reaper's

  predicate AllBy(es: seq<Event>, a: ActorId) {
    forall i :: 0 <= i < |es| ==> es[i].Step? && es[i].a == a
  }

  /** The steps of reaper a on one item. */
  function ItemSteps(st: Store, item: Item, answer: Outcome, a: ActorId): seq<Event> {
    if !item.Token? || !Routable(item.priority) then [Step(a, Ok)]
    else
      match ReapChoice(st, item, [], answer)
      case ReapMove(_, _) =>
        if st.List(Processing) != [] then [Step(a, answer)] + [Step(a, Ok)]
        else [Step(a, answer)] + [Step(a, Ok)] + [Step(a, Ok)] + [Step(a, Ok)]
      case ReapDrop(_, _) => [Step(a, answer)] + [Step(a, Ok)]
      case _ => [Step(a, answer)]
  }

  function Reaps(s: Sys, a: ActorId, p: Actor): Sys {
    s.(actors := s.actors[a := p])
  }

  lemma OneMore(s: Sys, es: seq<Event>, a: ActorId, c: Outcome)
    requires IsRun(s, es) && a in After(s, es).actors
    ensures IsRun(s, es + [Step(a, c)]) && After(s, es + [Step(a, c)]) == Apply(After(s, es), Step(a, c))
  {
    RunsCompose(s, es, [Step(a, c)]);
  }

  lemma NoSteps(s: Sys)
    ensures IsRun(s, []) && After(s, []) == s
  {
  }

  lemma FirstLook(s: Sys, a: ActorId, item: Item, rest: seq<Item>, answer: Outcome)
    requires item.Token? && Routable(item.priority)
    ensures var s0 := Reaps(s, a, Reaping([item] + rest));
      Apply(s0, Step(a, answer)) == Reaps(s, a, ReapChoice(s.db, item, rest, answer))
  {
    assert ([item] + rest)[0] == item && ([item] + rest)[1..] == rest;
  }

  lemma DropStep(s: Sys, a: ActorId, item: JobToken, rest: seq<Item>)
    ensures Apply(Reaps(s, a, ReapDrop(item, rest)), Step(a, Ok)) ==
      Sys(Do(s.db, Remove(Processing, item)), s.actors[a := Reaping(rest)])
  {
  }

  lemma BadItemStep(s: Sys, a: ActorId, item: Item, rest: seq<Item>)
    requires !item.Token? || !Routable(item.priority)
    ensures Apply(Reaps(s, a, Reaping([item] + rest)), Step(a, Ok)) ==
      Sys(Do(s.db, Remove(Processing, item)), s.actors[a := Reaping(rest)])
  {
    assert ([item] + rest)[0] == item && ([item] + rest)[1..] == rest;
  }

  lemma ItemIsRun(s: Sys, a: ActorId, item: Item, rest: seq<Item>, answer: Outcome)
    ensures var s0, es := Reaps(s, a, Reaping([item] + rest)), ItemSteps(s.db, item, answer, a);
      IsRun(s0, es) && After(s0, es) == Sys(PassItem(s.db, item, answer), s.actors[a := Reaping(rest)])
  {
    hide IsRun, After, Apply;
    var s0 := Reaps(s, a, Reaping([item] + rest));
    NoSteps(s0);
    assert [] + [Step(a, answer)] == [Step(a, answer)] && [] + [Step(a, Ok)] == [Step(a, Ok)];
    if !item.Token? || !Routable(item.priority) {
      OneMore(s0, [], a, Ok);
      BadItemStep(s, a, item, rest);
    } else {
      OneMore(s0, [], a, answer);
      FirstLook(s, a, item, rest, answer);
      match ReapChoice(s.db, item, rest, answer)
      case ReapMove(_, _) => MoveIsRun(s0, s, a, item, rest, [Step(a, answer)]);
      case ReapDrop(_, _) =>
        OneMore(s0, [Step(a, answer)], a, Ok);
        DropStep(s, a, item, rest);
      case _ =>
    }
  }

  lemma MoveIsRun(s0: Sys, s: Sys, a: ActorId, item: JobToken, rest: seq<Item>, es: seq<Event>)
    requires IsRun(s0, es) && After(s0, es) == Reaps(s, a, ReapMove(item, rest))
    ensures s.db.List(Processing) != [] ==>
      IsRun(s0, es + [Step(a, Ok)])
      && After(s0, es + [Step(a, Ok)]) ==
           Sys(Do(s.db, MoveTail(Processing, Pending(item.priority))), s.actors[a := Reaping(rest)])
    ensures s.db.List(Processing) == [] ==>
      IsRun(s0, es + [Step(a, Ok)] + [Step(a, Ok)] + [Step(a, Ok)])
      && After(s0, es + [Step(a, Ok)] + [Step(a, Ok)] + [Step(a, Ok)]) ==
           Sys(Do(Do(s.db, Push(Pending(item.priority), item)), Remove(Processing, item)), s.actors[a := Reaping(rest)])
  {
    OneMore(s0, es, a, Ok);
    if s.db.List(Processing) == [] {
      var s2 := Reaps(s, a, ReapPush(item, rest));
      assert After(s0, es + [Step(a, Ok)]) == s2;
      OneMore(s0, es + [Step(a, Ok)], a, Ok);
      OneMore(s0, es + [Step(a, Ok)] + [Step(a, Ok)], a, Ok);
    }
  }

  /** A reaper that is not interrupted does the pass. */
  lemma {:induction false} PassIsRun(s: Sys, a: ActorId, items: seq<Item>, answers: seq<Outcome>)
    returns (es: seq<Event>)
    requires |answers| == |items|
    ensures IsRun(Reaps(s, a, Reaping(items)), es) && AllBy(es, a)
    ensures After(Reaps(s, a, Reaping(items)), es) == Sys(Pass(s.db, items, answers), s.actors[a := Reaping([])])
    decreases |items|
  {
    var s0 := Reaps(s, a, Reaping(items));
    if items == [] {
      es := [];
    } else {
      assert items == [items[0]] + items[1..];
      ItemIsRun(s, a, items[0], items[1..], answers[0]);
      var s1 := Sys(PassItem(s.db, items[0], answers[0]), s.actors);
      var rest := PassIsRun(s1, a, items[1..], answers[1..]);
      RunsCompose(s0, ItemSteps(s.db, items[0], answers[0], a), rest);
      es := ItemSteps(s.db, items[0], answers[0], a) + rest;
    }
  }

  // ---------------------------------------------------------------- nothing is duplicated or lost

  lemma {:induction false} WithoutLosesOne(items: seq<Item>, gone: Item)
    ensures |items| - 1 <= |Without(items, gone)| <= |items|
  {
    if items != [] && items[0] != gone {
      WithoutLosesOne(items[1..], gone);
    }
  }

  lemma PassItemShrinks(st: Store, item: Item, answer: Outcome)
    ensures |PassItem(st, item, answer).List(Processing)| >= |st.List(Processing)| - 1
  {
    WithoutLosesOne(st.List(Processing), item);
  }

  /** LMOVE never meets an empty list: before item i of the listing is handled, no more than i
      tokens have gone, so the duplicating fallback is never taken. */
  lemma {:induction false} NeverEmpty(st: Store, items: seq<Item>, answers: seq<Outcome>, i: nat)
    requires |answers| == |items| && i <= |items|
    ensures var left := Pass(st, items[..i], answers[..i]).List(Processing);
      && |left| >= |st.List(Processing)| - i
      && (i < |items| <= |st.List(Processing)| ==> left != [])
    decreases |items|
  {
    if i > 0 {
      PassItemShrinks(st, items[0], answers[0]);
      assert items[..i][1..] == items[1..][..i - 1] && answers[..i][1..] == answers[1..][..i - 1];
      NeverEmpty(PassItem(st, items[0], answers[0]), items[1..], answers[1..], i - 1);
    }
  }

  /** Tokens the pass must not lose: of a queued or running job, with a list to go to. */
  predicate Vital(st: Store, v: Item) {
    v.Token? && Routable(v.priority) && (st.HasStatus(v.id, Queued) || st.HasStatus(v.id, Running))
  }

  lemma PassItemCopies(st: Store, item: Item, answer: Outcome, v: Item)
    requires st.List(Processing) != []
    ensures PassItem(st, item, answer).tasks == st.tasks
    ensures Copies(PassItem(st, item, answer), v) <= Copies(st, v)
    ensures Vital(st, v) ==> Copies(PassItem(st, item, answer), v) == Copies(st, v)
  {
    hide Copies, CopiesOn;
    if !item.Token? || !Routable(item.priority) {
      CopiesAfter(st, Remove(Processing, item), v);
    } else {
      RoutableIsUsual(item.priority);
      match ReapChoice(st, item, [], answer)
      case ReapMove(_, _) => CopiesAfter(st, MoveTail(Processing, Pending(item.priority)), v);
      case ReapDrop(_, _) => CopiesAfter(st, Remove(Processing, item), v);
      case _ =>
    }
  }

  /** An uninterrupted pass makes no copies: over the processing and pending lists the tokens
      afterwards are among those before, and no token of a queued or running job is gone. */
  lemma {:induction false} PassKeepsTokens(st: Store, items: seq<Item>, answers: seq<Outcome>, v: Item)
    requires |answers| == |items| <= |st.List(Processing)|
    ensures Pass(st, items, answers).tasks == st.tasks
    ensures Copies(Pass(st, items, answers), v) <= Copies(st, v)
    ensures Vital(st, v) ==> Copies(Pass(st, items, answers), v) == Copies(st, v)
    decreases |items|
  {
    if items != [] {
      PassItemCopies(st, items[0], answers[0], v);
      PassItemShrinks(st, items[0], answers[0]);
      PassKeepsTokens(PassItem(st, items[0], answers[0]), items[1..], answers[1..], v);
    }
  }

  // ---------------------------------------------------------------- where tokens land

  /** The reaper moves something for this item. */
  predicate Recoverable(st: Store, item: Item, answer: Outcome) {
    item.Token? && Routable(item.priority) && ReapChoice(st, item, [], answer).ReapMove?
  }

  /** What the moves for items put on the pending list of p: the target comes from the front
      of the listing, the token from the back of the processing list. */
  function Landing(items: seq<Item>, tail: seq<Item>, p: Priority): seq<Item>
    requires |items| <= |tail|
  {
    if items == [] then []
    else
      Landing(items[1..], tail[..|tail| - 1], p)
      + if !items[0].Malformed? && items[0].priority == p then [tail[|tail| - 1]] else []
  }

  /** Listed items with that priority. */
  function CountOf(items: seq<Item>, p: Priority): nat {
    if items == [] then 0
    else (if !items[0].Malformed? && items[0].priority == p then 1 else 0) + CountOf(items[1..], p)
  }

  lemma MoveLists(st: Store, item: Item, answer: Outcome, p: Priority)
    requires Recoverable(st, item, answer) && st.List(Processing) != []
    ensures var st', items := PassItem(st, item, answer), st.List(Processing);
      && st'.tasks == st.tasks && st'.now == st.now
      && st'.List(Processing) == items[..|items| - 1]
      && st'.List(Pending(p)) ==
           (if item.priority == p then [items[|items| - 1]] else []) + st.List(Pending(p))
  {
    MoveTailLists(st, Processing, Pending(item.priority), Processing);
    MoveTailLists(st, Processing, Pending(item.priority), Pending(p));
  }

  /** If every listed token is recoverable, the pass takes that many tokens off the right end of
      the processing list and adds Landing to each pending list. */
  lemma {:induction false} PassLands(st: Store, items: seq<Item>, answers: seq<Outcome>, p: Priority)
    requires |answers| == |items| <= |st.List(Processing)|
    requires forall i :: 0 <= i < |items| ==> Recoverable(st, items[i], answers[i])
    ensures var st', tail := Pass(st, items, answers), st.List(Processing);
      && st'.List(Processing) == tail[..|tail| - |items|]
      && st'.List(Pending(p)) == Landing(items, tail, p) + st.List(Pending(p))
    decreases |items|
  {
    hide PassItem;
    if items != [] {
      MoveLists(st, items[0], answers[0], p);
      var st1 := PassItem(st, items[0], answers[0]);
      forall i | 0 <= i < |items[1..]| ensures Recoverable(st1, items[1..][i], answers[1..][i]) {
        assert Recoverable(st, items[i + 1], answers[i + 1]);
      }
      PassLands(st1, items[1..], answers[1..], p);
    }
  }

  lemma {:induction false} LandingCounts(items: seq<Item>, tail: seq<Item>, p: Priority)
    requires |items| <= |tail|
    ensures |Landing(items, tail, p)| == CountOf(items, p)
  {
    if items != [] {
      LandingCounts(items[1..], tail[..|tail| - 1], p);
    }
  }

  /** Counts: with every token recoverable, a pass empties the processing list, and each pending
      list grows by the number of tokens of its priority, whatever the pairing. */
  lemma PassEmptiesProcessing(st: Store, answers: seq<Outcome>, p: Priority)
    requires |answers| == |st.List(Processing)|
    requires forall i :: 0 <= i < |answers| ==> Recoverable(st, st.List(Processing)[i], answers[i])
    ensures var st', items := Pass(st, st.List(Processing), answers), st.List(Processing);
      && st'.List(Processing) == []
      && |st'.List(Pending(p))| == |st.List(Pending(p))| + CountOf(items, p)
  {
    PassLands(st, st.List(Processing), answers, p);
    LandingCounts(st.List(Processing), st.List(Processing), p);
  }

  predicate LandsOn(items: seq<Item>, tail: seq<Item>, p: Priority, k: nat)
    requires k < |items| <= |tail|
  {
    !items[k].Malformed? && items[k].priority == p
  }

  /** The move for the k-th item from the left carries the k-th token from the right. */
  lemma {:induction false} LandingHolds(items: seq<Item>, tail: seq<Item>, p: Priority, v: Item)
    requires |items| <= |tail|
    ensures v in Landing(items, tail, p) <==>
      exists k :: 0 <= k < |items| && LandsOn(items, tail, p, k) && tail[|tail| - 1 - k] == v
  {
    if items != [] {
      var rest, init := items[1..], tail[..|tail| - 1];
      LandingHolds(rest, init, p, v);
      if v in Landing(rest, init, p) {
        var k :| 0 <= k < |rest| && LandsOn(rest, init, p, k) && init[|init| - 1 - k] == v;
        assert LandsOn(items, tail, p, k + 1) && tail[|tail| - 1 - (k + 1)] == v;
      } else if v in Landing(items, tail, p) {
        assert LandsOn(items, tail, p, 0) && tail[|tail| - 1 - 0] == v;
      } else {
        forall k | 0 <= k < |items| && LandsOn(items, tail, p, k) ensures tail[|tail| - 1 - k] != v {
          if k > 0 {
            assert LandsOn(rest, init, p, k - 1) && init[|init| - 1 - (k - 1)] == tail[|tail| - 1 - k];
          }
        }
      }
    }
  }

  /** All that a pass puts on the list of p has priority p. */
  ghost predicate OwnPriorityOnly(items: seq<Item>, p: Priority) {
    forall v :: v in Landing(items, items, p) ==> v.Token? && v.priority == p
  }

  /** Mis-routing: every token lands on the list of its own priority exactly when the priorities
      on the processing list read the same from both ends. */
  lemma RoutedRightIff(items: seq<Item>)
    requires forall i :: 0 <= i < |items| ==> items[i].Token?
    ensures (forall p :: OwnPriorityOnly(items, p)) <==>
      forall k :: 0 <= k < |items| ==> items[k].priority == items[|items| - 1 - k].priority
  {
    forall p, v ensures v in Landing(items, items, p) <==>
      exists k :: 0 <= k < |items| && LandsOn(items, items, p, k) && items[|items| - 1 - k] == v
    {
      LandingHolds(items, items, p, v);
    }
    if forall p :: OwnPriorityOnly(items, p) {
      forall k | 0 <= k < |items| ensures items[k].priority == items[|items| - 1 - k].priority {
        assert LandsOn(items, items, items[k].priority, k);
        assert OwnPriorityOnly(items, items[k].priority);
      }
    }
  }
}

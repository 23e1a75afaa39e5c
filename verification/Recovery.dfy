/** What an uninterrupted pass of the reaper comes to for the jobs it lists, status by status. */
module Recovery {
  import opened Types
  import opened Stores
  import opened Protocol
  import opened Durability
  import opened Reaper
  import opened Iterations

  /** Queued, or running and not touched for more than five minutes. */
  predicate ToMove(st: Store, item: Item) {
    item.Token? && !item.priority.Other? && item.id in st.tasks
    && (st.tasks[item.id].status == Queued
        || (st.tasks[item.id].status == Running && st.now - st.tasks[item.id].updatedAt > 300_000_000_000))
  }

  /** Running and touched within five minutes, or in one of the two statuses without a case. */
  predicate ToLeave(st: Store, item: Item) {
    item.Token? && !item.priority.Other? && item.id in st.tasks
    && (st.tasks[item.id].status == DeadLetter || st.tasks[item.id].status == Cancelled
        || (st.tasks[item.id].status == Running && st.now - st.tasks[item.id].updatedAt <= 300_000_000_000))
  }

  /** No job, no list to go to, or a job that waits for no worker. */
  predicate ToRemove(st: Store, item: Item) {
    !item.Token? || item.priority.Other? || item.id !in st.tasks
    || st.tasks[item.id].status == Succeeded || st.tasks[item.id].status == Failed
    || st.tasks[item.id].status == Retry
  }

  /** The decision on a listed item whose read gets through. */
  lemma DecisionOnItem(st: Store, item: Item)
    ensures ToMove(st, item) <==> Recoverable(st, item, Ok)
    ensures ToMove(st, item) ==> PassItem(st, item, Ok) == MovedBack(st, item)
    ensures ToLeave(st, item) ==> PassItem(st, item, Ok) == st
    ensures ToRemove(st, item) ==> PassItem(st, item, Ok) == Do(st, Remove(Processing, item))
    ensures ToMove(st, item) || ToLeave(st, item) || ToRemove(st, item)
  {
  }

  lemma ItemKeepsTables(st: Store, item: Item)
    ensures var st' := PassItem(st, item, Ok);
      st'.tasks == st.tasks && st'.attempts == st.attempts && st'.now == st.now
  {
  }

  /** What the decision does to a list. */
  lemma ItemLists(st: Store, item: Item, q: Queue)
    requires st.List(Processing) != []
    ensures var st', items := PassItem(st, item, Ok), st.List(Processing);
      st'.List(q) ==
        if ToMove(st, item) then
          if q == Pending(item.priority) then [items[|items| - 1]] + st.List(q)
          else if q == Processing then items[..|items| - 1]
          else st.List(q)
        else if ToRemove(st, item) && q == Processing then Without(items, item)
        else st.List(q)
  {
    DecisionOnItem(st, item);
    hide PassItem;
    if ToMove(st, item) {
      MoveTailLists(st, Processing, Pending(item.priority), q);
    } else if ToRemove(st, item) && q != Processing {
      ListUntouched(st, Remove(Processing, item), q);
    }
  }

  /** The tasks and the clock stay, and so do the decisions that depend on them. */
  lemma SameDecisions(st: Store, item: Item)
    ensures var st' := PassItem(st, item, Ok);
      forall x :: (ToMove(st', x) <==> ToMove(st, x)) && (ToLeave(st', x) <==> ToLeave(st, x))
                  && (ToRemove(st', x) <==> ToRemove(st, x))
  {
    ItemKeepsTables(st, item);
  }

  lemma PassStep(st: Store, items: seq<Item>)
    requires items != []
    ensures var st1 := PassItem(st, items[0], Ok);
      && Pass(st, items, Oks(|items|)) == Pass(st1, items[1..], Oks(|items[1..]|))
      && RecoveredCount(st, items, Oks(|items|))
           == (if ToMove(st, items[0]) then 1 else 0) + RecoveredCount(st1, items[1..], Oks(|items[1..]|))
  {
    assert Oks(|items|)[1..] == Oks(|items[1..]|);
    DecisionOnItem(st, items[0]);
  }

  function CountIf(items: seq<Item>, good: Item -> bool): nat {
    if items == [] then 0 else (if good(items[0]) then 1 else 0) + CountIf(items[1..], good)
  }

  lemma {:induction false} RecoveredIs(st: Store, items: seq<Item>, good: Item -> bool)
    requires forall item :: good(item) <==> ToMove(st, item)
    ensures RecoveredCount(st, items, Oks(|items|)) == CountIf(items, good)
    decreases |items|
  {
    hide RecoveredCount, Pass, PassItem, Oks, ToMove, ToLeave, ToRemove;
    if items == [] {
      NoItems(st);
    } else {
      PassStep(st, items);
      SameDecisions(st, items[0]);
      RecoveredIs(PassItem(st, items[0], Ok), items[1..], good);
    }
  }

  lemma NoItems(st: Store)
    ensures RecoveredCount(st, [], Oks(0)) == 0 && Pass(st, [], Oks(0)) == st
  {
  }

  /** Each pending list grows by the number of moves for its priority, whatever else is listed. */
  lemma {:induction false} PendingGrows(st: Store, items: seq<Item>, p: Priority, good: Item -> bool)
    requires |items| <= |st.List(Processing)|
    requires forall item :: good(item) <==> ToMove(st, item) && item.priority == p
    ensures |Pass(st, items, Oks(|items|)).List(Pending(p))| == |st.List(Pending(p))| + CountIf(items, good)
    decreases |items|
  {
    hide RecoveredCount, Pass, PassItem, Oks, ToMove, ToLeave, ToRemove;
    if items == [] {
      NoItems(st);
    } else {
      PassStep(st, items);
      SameDecisions(st, items[0]);
      ItemLists(st, items[0], Pending(p));
      PassItemShrinks(st, items[0], Ok);
      IsTokens(st);
      PendingGrows(PassItem(st, items[0], Ok), items[1..], p, good);
    }
  }

  lemma IsTokens(st: Store)
    ensures forall item :: ToMove(st, item) ==> item.Token?
  {
  }

  lemma {:induction false} TablesStay(st: Store, items: seq<Item>)
    ensures var st' := Pass(st, items, Oks(|items|));
      st'.tasks == st.tasks && st'.attempts == st.attempts && st'.now == st.now
    decreases |items|
  {
    hide RecoveredCount, Pass, PassItem, Oks;
    if items == [] {
      NoItems(st);
    } else {
      PassStep(st, items);
      ItemKeepsTables(st, items[0]);
      TablesStay(PassItem(st, items[0], Ok), items[1..]);
    }
  }

  /** A pass over jobs to move empties the processing list. */
  lemma {:induction false} AllMoved(st: Store, items: seq<Item>)
    requires |items| <= |st.List(Processing)| && forall i :: 0 <= i < |items| ==> ToMove(st, items[i])
    ensures |Pass(st, items, Oks(|items|)).List(Processing)| == |st.List(Processing)| - |items|
    ensures RecoveredCount(st, items, Oks(|items|)) == |items|
    decreases |items|
  {
    hide RecoveredCount, Pass, PassItem, Oks, ToMove, ToLeave, ToRemove;
    if items == [] {
      NoItems(st);
    } else {
      PassStep(st, items);
      SameDecisions(st, items[0]);
      ItemLists(st, items[0], Processing);
      AllMoved(PassItem(st, items[0], Ok), items[1..]);
    }
  }

  /** A pass over jobs to leave changes nothing. */
  lemma {:induction false} AllLeft(st: Store, items: seq<Item>)
    requires forall i :: 0 <= i < |items| ==> ToLeave(st, items[i])
    ensures Pass(st, items, Oks(|items|)) == st && RecoveredCount(st, items, Oks(|items|)) == 0
    decreases |items|
  {
    hide RecoveredCount, Pass, PassItem, Oks;
    if items == [] {
      NoItems(st);
    } else {
      PassStep(st, items);
      DecisionOnItem(st, items[0]);
      AllLeft(st, items[1..]);
    }
  }

  /** A pass over tokens to remove removes them, and touches no other list. */
  lemma {:induction false} AllRemoved(st: Store, q: Queue)
    requires forall i :: 0 <= i < |st.List(Processing)| ==> ToRemove(st, st.List(Processing)[i])
    ensures var items := st.List(Processing);
      && Pass(st, items, Oks(|items|)).List(q) == (if q == Processing then [] else st.List(q))
      && RecoveredCount(st, items, Oks(|items|)) == 0
    decreases |st.List(Processing)|
  {
    hide RecoveredCount, Pass, PassItem, Oks;
    var items := st.List(Processing);
    if items == [] {
      NoItems(st);
    } else {
      var st1 := PassItem(st, items[0], Ok);
      PassStep(st, items);
      SameDecisions(st, items[0]);
      ItemLists(st, items[0], Processing);
      ItemLists(st, items[0], q);
      assert st1.List(Processing) == items[1..];
      AllRemoved(st1, q);
    }
  }

  /** The law for one token, with the numbers written out. */
  lemma TokenLaw(st: Store, token: JobToken)
    requires !token.priority.Other?
    ensures var st', items := PassItem(st, token, Ok), st.List(Processing);
      var own := Pending(token.priority);
      items != [] ==>
        if token.id in st.tasks
           && (st.tasks[token.id].status == Queued
               || (st.tasks[token.id].status == Running && st.now - st.tasks[token.id].updatedAt > 300_000_000_000))
        then
          Recoverable(st, token, Ok) && st'.List(Processing) == items[..|items| - 1]
          && st'.List(own) == [items[|items| - 1]] + st.List(own)
        else
          !Recoverable(st, token, Ok) && st'.List(own) == st.List(own)
          && st'.List(Processing) ==
               if token.id !in st.tasks || st.tasks[token.id].status == Succeeded
                  || st.tasks[token.id].status == Failed || st.tasks[token.id].status == Retry
               then Without(items, token) else items
  {
    DecisionOnItem(st, token);
    if st.List(Processing) != [] {
      ItemLists(st, token, Processing);
      ItemLists(st, token, Pending(token.priority));
    }
  }

  lemma MovedBackMeans(st: Store, token: JobToken)
    ensures var st', items, own := MovedBack(st, token), st.List(Processing), Pending(token.priority);
      if items != [] then
        st'.List(Processing) == items[..|items| - 1] && st'.List(own) == [items[|items| - 1]] + st.List(own)
      else st'.List(Processing) == [] && st'.List(own) == [token] + st.List(own)
  {
    if st.List(Processing) != [] {
      MoveTailLists(st, Processing, Pending(token.priority), Processing);
      MoveTailLists(st, Processing, Pending(token.priority), Pending(token.priority));
    }
  }

  /** The law for a token whose job could not be read: it counts as recovered. */
  lemma ErrorLaw(st: Store, token: JobToken)
    requires !token.priority.Other?
    ensures var st', items, own := PassItem(st, token, Err("")), st.List(Processing), Pending(token.priority);
      && Recoverable(st, token, Err(""))
      && (items != [] ==>
           st'.List(Processing) == items[..|items| - 1] && st'.List(own) == [items[|items| - 1]] + st.List(own))
  {
    MovedBackMeans(st, token);
  }

  /** The laws for a whole pass. */
  lemma PassLaws(st: Store)
    ensures var items := st.List(Processing);
      var st', recovered := Pass(st, items, Oks(|items|)), RecoveredCount(st, items, Oks(|items|));
      && st'.tasks == st.tasks && st'.attempts == st.attempts
      && ((forall item :: item in items ==> ToMove(st, item)) ==> st'.List(Processing) == [] && recovered == |items|)
      && ((forall item :: item in items ==> ToLeave(st, item)) ==> st' == st && recovered == 0)
      && ((forall item :: item in items ==> ToRemove(st, item)) ==>
           recovered == 0 && forall q :: st'.List(q) == if q == Processing then [] else st.List(q))
      && (forall good: Item -> bool :: (forall item :: good(item) <==> ToMove(st, item)) ==>
           recovered == CountIf(items, good))
      && (forall good: Item -> bool, p: Priority ::
           (forall item :: good(item) <==> ToMove(st, item) && item.priority == p) ==>
             |st'.List(Pending(p))| == |st.List(Pending(p))| + CountIf(items, good))
  {
    hide RecoveredCount, Pass, PassItem, Oks, ToMove, ToLeave, ToRemove, CountIf;
    var items := st.List(Processing);
    TablesStay(st, items);
    if forall item :: item in items ==> ToMove(st, item) {
      AllMoved(st, items);
    }
    if forall item :: item in items ==> ToLeave(st, item) {
      AllLeft(st, items);
    }
    if forall item :: item in items ==> ToRemove(st, item) {
      forall q ensures Pass(st, items, Oks(|items|)).List(q) == if q == Processing then [] else st.List(q) {
        AllRemoved(st, q);
      }
      AllRemoved(st, Processing);
    }
    forall good: Item -> bool | forall item :: good(item) <==> ToMove(st, item)
      ensures RecoveredCount(st, items, Oks(|items|)) == CountIf(items, good)
    {
      RecoveredIs(st, items, good);
    }
    IsTokens(st);
    forall good: Item -> bool, p: Priority | forall item :: good(item) <==> ToMove(st, item) && item.priority == p
      ensures |Pass(st, items, Oks(|items|)).List(Pending(p))| == |st.List(Pending(p))| + CountIf(items, good)
    {
      PendingGrows(st, items, p, good);
    }
  }
}

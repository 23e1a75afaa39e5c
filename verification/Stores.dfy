/** The two shared stores, the SQL tables and the Redis lists, and the meaning of every
    statement or command the programs send to them. One command is one atomic step. */
module Stores {
  import opened Types

  datatype Store = Store(tasks: map<JobId, Row>, attempts: map<JobId, seq<Attempt>>,
                         lists: map<Queue, seq<Item>>, now: int)
  {
    /** A key that does not exist is an empty list; index 0 is the left end. */
    function List(q: Queue): seq<Item> {
      if q in lists then lists[q] else []
    }

    function Log(id: JobId): seq<Attempt> {
      if id in attempts then attempts[id] else []
    }

    function RowAt(id: JobId): Option<Row> {
      if id in tasks then Some(tasks[id]) else None
    }

    predicate HasStatus(id: JobId, s: Status) {
      id in tasks && tasks[id].status == s
    }
  }

  datatype Command =
    | NoOp
    | InsertTask(id: JobId, row: Row)
    | ClaimTask(id: JobId)
    | MarkTask(id: JobId, status: Status, nextRunAt: Option<int>)
    | RequeueTask(id: JobId)
    | CancelTask(id: JobId)
    | InsertAttempt(id: JobId)
    | CloseAttempts(id: JobId, ok: bool, error: Option<string>)
    | MoveTail(source: Queue, target: Queue)
    | Push(q: Queue, item: Item)
    | Remove(q: Queue, item: Item)
    | RemoveAll(q: Queue, item: Item)

  predicate Cancellable(s: Status) {
    s == Queued || s == Running
  }

  function Updated(st: Store, id: JobId, row: Row): Store {
    st.(tasks := st.tasks[id := row.(updatedAt := st.now)])
  }

  function WithList(st: Store, q: Queue, items: seq<Item>): Store {
    st.(lists := st.lists[q := items])
  }

  /** LREM key 1 item: drops the leftmost occurrence, if there is one. */
  function Without(items: seq<Item>, item: Item): seq<Item> {
    if items == [] then []
    else if items[0] == item then items[1..]
    else [items[0]] + Without(items[1..], item)
  }

  /** LREM key 0 item: drops every occurrence. */
  function WithoutAll(items: seq<Item>, item: Item): seq<Item> {
    if items == [] then []
    else if items[0] == item then WithoutAll(items[1..], item)
    else [items[0]] + WithoutAll(items[1..], item)
  }

  /** UPDATE task_attempts ... WHERE finished_at IS NULL: closes every open row. */
  function CloseOpen(log: seq<Attempt>, finish: Finish): (r: seq<Attempt>)
    ensures |r| == |log|
    ensures forall i :: 0 <= i < |log| ==>
      r[i] == if log[i].finished.None? then log[i].(finished := Some(finish)) else log[i]
  {
    seq(|log|, i requires 0 <= i < |log| =>
      if log[i].finished.None? then log[i].(finished := Some(finish)) else log[i])
  }

  /** The foreign key on tasks and the primary key (task_id, started_at). */
  predicate AttemptFits(st: Store, id: JobId) {
    id in st.tasks && forall i :: 0 <= i < |st.Log(id)| ==> st.Log(id)[i].startedAt != st.now
  }

  function Do(st: Store, cmd: Command): Store {
    match cmd
    case NoOp => st
    case InsertTask(id, row) =>
      if id in st.tasks then st else Updated(st, id, row.(createdAt := st.now))
    case ClaimTask(id) =>
      if st.HasStatus(id, Queued)
      then Updated(st, id, st.tasks[id].(status := Running, attempts := st.tasks[id].attempts + 1))
      else st
    case MarkTask(id, status, next) =>
      if id !in st.tasks then st
      else
        var row := st.tasks[id].(status := status);
        Updated(st, id, if next.Some? then row.(nextRunAt := next) else row)
    case RequeueTask(id) =>
      if st.HasStatus(id, Retry) then Updated(st, id, st.tasks[id].(status := Queued)) else st
    case CancelTask(id) =>
      if id in st.tasks && Cancellable(st.tasks[id].status)
      then Updated(st, id, st.tasks[id].(status := Cancelled))
      else st
    case InsertAttempt(id) =>
      if AttemptFits(st, id)
      then st.(attempts := st.attempts[id := st.Log(id) + [Attempt(st.now, None)]])
      else st
    case CloseAttempts(id, ok, error) =>
      st.(attempts := st.attempts[id := CloseOpen(st.Log(id), Finish(st.now, ok, error))])
    case MoveTail(source, target) =>
      var items := st.List(source);
      if items == [] then st
      else
        var popped := WithList(st, source, items[..|items| - 1]);
        WithList(popped, target, [items[|items| - 1]] + popped.List(target))
    case Push(q, item) => WithList(st, q, [item] + st.List(q))
    case Remove(q, item) => WithList(st, q, Without(st.List(q), item))
    case RemoveAll(q, item) => WithList(st, q, WithoutAll(st.List(q), item))
  }

  predicate TouchesList(cmd: Command, q: Queue) {
    match cmd
    case MoveTail(source, target) => q == source || q == target
    case Push(q', _) => q == q'
    case Remove(q', _) => q == q'
    case RemoveAll(q', _) => q == q'
    case _ => false
  }

  lemma ListUntouched(st: Store, cmd: Command, q: Queue)
    requires !TouchesList(cmd, q)
    ensures Do(st, cmd).List(q) == st.List(q)
  {
  }
}

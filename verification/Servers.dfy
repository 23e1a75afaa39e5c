/** SubmitJob and CancelJob of cmd/api/server.go, under interference of everything else; and what
    they leave in the stores if the backend is quiet. */
module Servers {
  import opened Types
  import opened Stores
  import opened Protocol
  import opened Safety
  import opened Backends

  datatype IdField = Omitted | NotUuid(raw: string) | Uuid(id: JobId)

  datatype PriorityField = Unspecified | Given(priority: Priority)

  /** payloadIsJson is the verdict of json.Unmarshal on the payload. */
  datatype SubmitRequest =
    | NilRequest
    | NilJob
    | SubmitRequest(jobId: IdField, typ: string, priority: PriorityField,
                    payload: string, payloadIsJson: bool, maxAttempts: int)

  const MAX_PAYLOAD: nat := 1024 * 1024

  /** unicode.IsSpace. */
  predicate IsSpace(c: char) {
    c in {'\t', '\n', '\U{0B}', '\U{0C}', '\r', ' ', '\U{85}', '\U{A0}', '\U{1680}',
          '\U{2028}', '\U{2029}', '\U{202F}', '\U{205F}', '\U{3000}'}
    || '\U{2000}' <= c <= '\U{200A}'
  }

  /** strings.TrimSpace(s) == "". */
  predicate Blank(s: string) {
    forall i :: 0 <= i < |s| ==> IsSpace(s[i])
  }

  /** validateSubmitJobRequest: None is acceptance. */
  function Validate(req: SubmitRequest): Option<Error> {
    if req.NilRequest? then Some(InvalidArgument)
    else if req.NilJob? then Some(InvalidArgument)
    else if Blank(req.typ) then Some(InvalidArgument)
    else if req.priority.Unspecified? then Some(InvalidArgument)
    else if req.maxAttempts < 0 then Some(InvalidArgument)
    else if req.maxAttempts > 100 then Some(InvalidArgument)
    else if req.payload != "" && !req.payloadIsJson then Some(InvalidArgument)
    else if req.payload != "" && |req.payload| > MAX_PAYLOAD then Some(InvalidArgument)
    else None
  }

  /** The row SubmitJob inserts. */
  function RowOf(req: SubmitRequest): Row
    requires req.SubmitRequest? && req.priority.Given?
  {
    Row(req.typ, req.priority.priority, req.payload, Queued, 0,
        if req.maxAttempts == 0 then 3 else req.maxAttempts, None, 0, 0)
  }

  /** Validation is what the attempt budget rests on: an accepted request makes a row that
      allows between 1 and 100 attempts and has used none. */
  lemma AcceptedRowsAreNew(req: SubmitRequest)
    requires Validate(req) == None
    ensures req.SubmitRequest? && req.priority.Given? && NewRow(RowOf(req))
    ensures !Blank(RowOf(req).typ) && |RowOf(req).payload| <= MAX_PAYLOAD
  {
  }

  /** The law of validation, with its numbers written out. */
  lemma ValidationLaw(req: SubmitRequest)
    ensures Validate(req) == None || Validate(req) == Some(InvalidArgument)
    ensures Validate(req) == None <==>
      && req.SubmitRequest?
      && (exists i :: 0 <= i < |req.typ| && !IsSpace(req.typ[i]))
      && req.priority.Given?
      && 0 <= req.maxAttempts <= 100
      && (req.payload == "" || (req.payloadIsJson && |req.payload| <= 1_048_576))
  {
  }

  /** PushJob for a row. */
  function Announced(st: Store, id: JobId, row: Row): Store {
    if Routable(row.priority) then Do(st, Push(Pending(row.priority), TokenOf(id, row.typ, row.priority))) else st
  }

  /** A submission: the first one for an id makes a row and a token, later ones make nothing. */
  function SubmittedTo(st: Store, id: JobId, row: Row): Store {
    if id in st.tasks then st else Announced(Do(st, InsertTask(id, row)), id, row)
  }

  /** The tokens of a job leave its pending list. */
  function Unannounced(st: Store, id: JobId, row: Row): Store {
    if Routable(row.priority) then Do(st, RemoveAll(Pending(row.priority), TokenOf(id, row.typ, row.priority))) else st
  }

  /** A cancellation: it takes effect on a queued or running job, and a queued one also loses
      its tokens. */
  function CancelledIn(st: Store, id: JobId): Store {
    if st.HasStatus(id, Queued) then Unannounced(Do(st, CancelTask(id)), id, st.tasks[id]) else Do(st, CancelTask(id))
  }

  /** The law of an undisturbed submission: a new id gets its row, and its token if there is a list
      for its priority. */
  lemma SubmitLaw(st: Store, id: JobId, row: Row)
    ensures var st', p := SubmittedTo(st, id, row), row.priority;
      id !in st.tasks ==>
        && st'.tasks == st.tasks[id := row.(createdAt := st.now, updatedAt := st.now)]
        && st'.attempts == st.attempts && st'.now == st.now
        && st'.lists == if p == Critical || p == High || p == Default || p == Low
                        then st.lists[Pending(p) := [Token(id, row.typ, p)] + st.List(Pending(p))] else st.lists
  {
  }

  lemma {:induction false} WithoutAllCounts(items: seq<Item>, item: Item, v: Item)
    ensures multiset(WithoutAll(items, item))[v] == if v == item then 0 else multiset(items)[v]
  {
    if items != [] {
      assert items == [items[0]] + items[1..];
      WithoutAllCounts(items[1..], item, v);
    }
  }

  /** The law of an undisturbed cancellation: of a queued or running job the status changes, of a
      queued one also every copy of its token leaves the list of its priority; nothing else does. */
  lemma CancelLaw(st: Store, id: JobId, q: Queue, v: Item)
    requires id in st.tasks
    ensures var st', row := CancelledIn(st, id), st.tasks[id];
      && st'.tasks == (if row.status == Queued || row.status == Running
                       then st.tasks[id := row.(status := Cancelled, updatedAt := st.now)] else st.tasks)
      && st'.attempts == st.attempts && st'.now == st.now
      && if row.status == Queued && !row.priority.Other? && q == Pending(row.priority)
         then multiset(st'.List(q))[v] ==
                if v == Token(id, row.typ, row.priority) then 0 else multiset(st.List(q))[v]
         else st'.List(q) == st.List(q)
  {
    var row := st.tasks[id];
    WithoutAllCounts(st.List(Pending(row.priority)), Token(id, row.typ, row.priority), v);
  }

  lemma {:induction false} WithoutAllAbsent(items: seq<Item>, item: Item)
    requires item !in items
    ensures WithoutAll(items, item) == items
  {
    if items != [] {
      assert items == [items[0]] + items[1..];
      WithoutAllAbsent(items[1..], item);
    }
  }

  /** Cancelling what has just been submitted takes back the token: every list is as it was, and
      only the cancelled row remains. */
  lemma CancelUndoesSubmit(st: Store, id: JobId, row: Row, q: Queue)
    requires id !in st.tasks && NewRow(row)
    requires TokenOf(id, row.typ, row.priority) !in st.List(Pending(row.priority))
    ensures var st' := CancelledIn(SubmittedTo(st, id, row), id);
      && st'.HasStatus(id, Cancelled) && st'.tasks - {id} == st.tasks
      && st'.attempts == st.attempts && st'.List(q) == st.List(q)
  {
    WithoutAllAbsent(st.List(Pending(row.priority)), TokenOf(id, row.typ, row.priority));
    var submitted := SubmittedTo(st, id, row);
    assert submitted.HasStatus(id, Queued);
    assert SameFields(submitted.tasks[id], row);
  }

  function IdOf(req: SubmitRequest, generated: JobId): JobId
    requires req.SubmitRequest?
  {
    if req.jobId.Uuid? then req.jobId.id else generated
  }

  /** How a call ends: with a result, or with a nil dereference. */
  datatype Reply = Answered(r: Result<JobId>) | Panicked

  /** A client that submits a job twice under its own id: it gets the same answer both times, and
      the second call changes nothing, whatever it asks for. */
  method SubmitTwice(server: Server, first: SubmitRequest, second: SubmitRequest, generated: JobId, ghost a: ActorId)
    returns (one: Reply, other: Reply, ghost between: Sys)
    requires Inv(server.backend.State()) && a !in server.backend.actors
    requires first.SubmitRequest? && second.SubmitRequest?
    requires first.jobId.Uuid? && second.jobId == first.jobId
    modifies server.backend
    ensures server.backend.Quiet() && Validate(first) == None && Validate(second) == None ==>
      && one == other == Answered(Success(first.jobId.id))
      && server.backend.State() == between && first.jobId.id in between.db.tasks
  {
    one := server.SubmitJob(first, generated, a);
    between := server.backend.State();
    other := server.SubmitJob(second, generated, a);
  }

  class Server {
    const backend: Backend

    constructor (backend: Backend)
      ensures this.backend == backend
    {
      this.backend := backend;
    }

    /** PushJob of the call that created the row; a failed push is only logged. */
    method PushNew(id: JobId, row: Row, ghost a: ActorId, ghost start: Sys)
      requires backend.At(a, SubmitPush(id, row), start)
      modifies backend
      ensures backend.Away(a, start)
      ensures old(backend.tasks).Keys <= backend.tasks.Keys
      ensures backend.alone ==> backend.tasks == old(backend.tasks)
      ensures backend.Quiet() ==> backend.Db() == Announced(old(backend.Db()), id, row)
    {
      hide Inv, Reaches;
      ghost var before := backend.State();
      var ok := backend.PushJob(id, row.typ, row.priority);
      backend.Proceed(a, if ok then Ok else Err(""), before, start);
    }

    /** The INSERT and, for the call that wins it, the push. */
    method Create(id: JobId, row: Row, ghost a: ActorId, ghost start: Sys) returns (r: Result<JobId>)
      requires backend.At(a, Submitting(id, row), start)
      modifies backend
      ensures backend.Away(a, start)
      ensures r == Failure(Internal) || (r == Success(id) && id in backend.tasks)
      ensures backend.sqlUp ==> r == Success(id)
      ensures backend.alone && r.Success? && id !in old(backend.tasks) ==>
        backend.tasks ==
          old(backend.tasks)[id := row.(createdAt := old(backend.now), updatedAt := old(backend.now))]
      ensures backend.Quiet() ==> backend.Db() == SubmittedTo(old(backend.Db()), id, row)
    {
      hide Inv, Reaches;
      ghost var before := backend.State();
      var created := backend.CreateJob(id, row);
      assert created.Success? ==> id in backend.tasks;
      backend.Proceed(a, if created.Success? then Ok else Err(""), before, start);
      if created.Failure? {
        return Failure(Internal);
      }
      if !created.value {
        PushNew(id, row, a, start);
      }
      r := Success(id);
    }

    /** SubmitJob; generated is the id uuid.New() would give. The log line before validation reads
        the job, so a request without one is never rejected. Otherwise, whoever wins the race,
        every call that succeeds answers with the id it was asked for, and the task exists. */
    method SubmitJob(req: SubmitRequest, generated: JobId, ghost a: ActorId) returns (reply: Reply)
      requires Inv(backend.State()) && a !in backend.actors
      modifies backend
      ensures backend.Away(a, old(backend.State()))
      ensures reply.Panicked? <==> !req.SubmitRequest?
      ensures reply.Panicked? ==> Validate(req) == Some(InvalidArgument) && backend.State() == old(backend.State())
      ensures req.SubmitRequest? && (Validate(req).Some? || req.jobId.NotUuid?) ==>
        reply.r == Failure(InvalidArgument) && backend.State() == old(backend.State())
      ensures Validate(req) == None && !req.jobId.NotUuid? ==>
        reply.r == Failure(Internal) || (reply.r.Success? && reply.r.value in backend.tasks)
      ensures Validate(req) == None && !req.jobId.NotUuid? && backend.sqlUp ==> reply.r.Success?
      ensures reply.Answered? && reply.r.Success? && req.jobId.Uuid? ==> reply.r.value == req.jobId.id
      ensures reply.Answered? && reply.r.Success? && req.jobId.Omitted? ==> reply.r.value == generated
      // undisturbed, a new job gets its row whatever Redis says, with the fields of the request
      ensures backend.alone && reply.Answered? && reply.r.Success? && reply.r.value !in old(backend.tasks) ==>
        backend.tasks == old(backend.tasks)[reply.r.value :=
          Row(req.typ, req.priority.priority, req.payload, Queued, 0,
              if req.maxAttempts == 0 then 3 else req.maxAttempts, None, old(backend.now), old(backend.now))]
      // and its token, if its priority has a list
      ensures backend.Quiet() && reply.Answered? && reply.r.Success? && reply.r.value !in old(backend.tasks) ==>
        var p := req.priority.priority;
        backend.lists ==
          if p == Critical || p == High || p == Default || p == Low then
            old(backend.lists)[Pending(p) :=
              [Token(reply.r.value, req.typ, p)] + old(backend.Db()).List(Pending(p))]
          else old(backend.lists)
      // while for a known id nothing changes
      ensures backend.alone && reply.Answered? && reply.r.Success? && reply.r.value in old(backend.tasks) ==>
        backend.State() == old(backend.State())
    {
      ghost var start := backend.State();
      ReachesSelf(start);
      hide Inv, Reaches, SubmittedTo, Announced, Do, Backend.At, Backend.Away;
      if !req.SubmitRequest? {
        return Panicked;
      }
      var invalid := Validate(req);
      if invalid.Some? {
        return Answered(Failure(invalid.value));
      }
      if req.jobId.NotUuid? {
        return Answered(Failure(InvalidArgument));
      }
      var id := IdOf(req, generated);
      ghost var before := backend.State();
      var known := backend.JobExists(id);
      if known.Failure? {
        return Answered(Failure(Internal));
      }
      if known.value {
        return Answered(Success(id));
      }
      AcceptedRowsAreNew(req);
      backend.Launch(a, Submit(id, RowOf(req)), before, start);
      SubmitLaw(backend.Db(), id, RowOf(req));
      var r := Create(id, RowOf(req), a, start);
      reply := Answered(r);
    }

    // -------------------------------------------------------------- CancelJob

    /** LREM of every copy of the token on the job's pending list, if it has one. */
    method DropTokens(id: JobId, seen: Row, ghost stale: bool, ghost a: ActorId, ghost start: Sys)
      requires backend.At(a, CancelDrop(id, seen, stale), start)
      modifies backend
      ensures backend.Away(a, start)
      ensures old(backend.tasks).Keys <= backend.tasks.Keys
      ensures backend.Quiet() ==> backend.Db() == Unannounced(old(backend.Db()), id, seen)
    {
      hide Inv, Reaches;
      ghost var before := backend.State();
      var queue := QueueOf(seen.priority);
      var ok := true;
      if queue.Some? {
        ok := backend.LRemAll(queue.value, TokenOf(id, seen.typ, seen.priority));
      }
      backend.Proceed(a, if ok then Ok else Err(""), before, start);
    }

    /** CancelJob from its UPDATE on, with the row its read has seen. The answer is that of the
        UPDATE, not of the read. */
    method CancelSeen(id: JobId, seen: Row, ghost a: ActorId, ghost start: Sys) returns (r: Result<bool>)
      requires backend.At(a, Cancelling(id, seen), start)
      modifies backend
      ensures backend.Away(a, start)
      ensures r.Failure? ==> r == Failure(Internal)
      ensures r.Success? ==>
        (r.value <==> id in old(backend.tasks)
                      && (old(backend.tasks)[id].status == Queued || old(backend.tasks)[id].status == Running))
      ensures r.Success? ==> Reaches(Apply(old(backend.State()), Step(a, Ok)), backend.State())
      ensures backend.sqlUp ==> r.Success?
      ensures backend.Quiet() && old(backend.Db()).RowAt(id) == Some(seen) ==>
        backend.Db() == CancelledIn(old(backend.Db()), id)
    {
      hide Inv, Reaches;
      ghost var before := backend.State();
      ghost var stale := !before.db.HasStatus(id, Queued);
      var cancelled := backend.CancelJob(id);
      backend.Proceed(a, if cancelled.Success? then Ok else Err(""), before, start);
      if cancelled.Failure? {
        return Failure(Internal);
      }
      ghost var moved := Apply(before, Step(a, Ok));
      if cancelled.value && seen.status == Queued {
        DropTokens(id, seen, stale, a, moved);
        ReachesStep(before, Step(a, Ok));
        ReachesTrans(start, before, moved);
        ReachesTrans(start, moved, backend.State());
      }
      r := cancelled;
    }

    /** CancelJob. A job read in a terminal status is left alone; met is the state in which the
        UPDATE finds any other one, after whatever the others did since the read. */
    method CancelJob(jobId: IdField, ghost a: ActorId) returns (r: Result<bool>, ghost met: Sys)
      requires Inv(backend.State()) && a !in backend.actors
      modifies backend
      ensures backend.Away(a, old(backend.State()))
      ensures !jobId.Uuid? ==> r == Failure(InvalidArgument)
      ensures jobId.Uuid? && jobId.id !in old(backend.tasks) ==> r == Failure(NotFound) || r == Failure(Internal)
      ensures jobId.Uuid? && jobId.id in old(backend.tasks) ==> r.Success? || r == Failure(Internal)
      ensures jobId.Uuid? && jobId.id in old(backend.tasks) && Terminal(old(backend.tasks)[jobId.id].status) ==>
        (r == Success(false) || r == Failure(Internal)) && backend.State() == old(backend.State())
      ensures Reaches(old(backend.State()), met) && (backend.alone ==> met.db == old(backend.Db()))
      ensures jobId.Uuid? && jobId.id in old(backend.tasks) && r.Success? ==>
        (r.value <==> jobId.id in met.db.tasks
                      && (met.db.tasks[jobId.id].status == Queued || met.db.tasks[jobId.id].status == Running))
      ensures jobId.Uuid? && r.Success? && jobId.id in old(backend.tasks)
              && !Terminal(old(backend.tasks)[jobId.id].status) ==>
        a in met.actors && met.actors[a].Cancelling? && met.actors[a].id == jobId.id
        && Reaches(Apply(met, Step(a, Ok)), backend.State())
      ensures backend.sqlUp && jobId.Uuid? ==>
        if jobId.id in old(backend.tasks) then r.Success? else r == Failure(NotFound)
      ensures backend.Quiet() && jobId.Uuid? && jobId.id in old(backend.tasks) ==>
        backend.Db() == CancelledIn(old(backend.Db()), jobId.id)
    {
      ghost var start := backend.State();
      ReachesSelf(start);
      met := start;
      hide Inv, Reaches;
      if !jobId.Uuid? {
        return Failure(InvalidArgument), met;
      }
      ghost var before := backend.State();
      var read := backend.GetJobByID(jobId.id);
      if read.Failure? {
        return Failure(Internal), met;
      }
      if read.value == None {
        return Failure(NotFound), met;
      }
      var job := read.value.value;
      if job.status == Succeeded || job.status == Failed || job.status == DeadLetter || job.status == Cancelled {
        return Success(false), met;
      }
      backend.Launch(a, Cancel(jobId.id), before, start);
      met := backend.State();
      r := CancelSeen(jobId.id, job, a, start);
    }
  }
}

/** The values shared by the tables, the Redis lists and the programs that use them. */
module Types {

  datatype Option<+T> = None | Some(value: T)

  datatype Error = InvalidArgument | NotFound | Internal

  datatype Result<+T> = Success(value: T) | Failure(error: Error)

  /** Task ids; the text form of a UUID is taken as an injective encoding of the id. */
  type JobId = nat

  /** Other(code) is an enum value that passes validation but has no queue. */
  datatype Priority = Critical | High | Default | Low | Other(code: int)

  datatype Status = Queued | Running | Succeeded | Failed | Retry | DeadLetter | Cancelled

  /** A row of table tasks; times are in nanoseconds on one clock. */
  datatype Row = Row(typ: string, priority: Priority, payload: string, status: Status,
                     attempts: int, maxAttempts: int, nextRunAt: Option<int>,
                     createdAt: int, updatedAt: int)

  /** A row of table task_attempts; finished is None while finished_at is NULL. */
  datatype Attempt = Attempt(startedAt: int, finished: Option<Finish>)

  datatype Finish = Finish(finishedAt: int, ok: bool, error: Option<string>)

  /** An element of a Redis list: text that is no JSON payload, a payload whose task_id
      is no UUID, or the payload of a job. */
  datatype Item =
    | Malformed(raw: string)
    | BadId(raw: string, typ: string, priority: Priority)
    | Token(id: JobId, typ: string, priority: Priority)

  type JobToken = i: Item | i.Token? witness Token(0, "", Low)

  datatype Queue = Pending(priority: Priority) | Processing | DeadLetters(priority: Priority)

  const PRIORITIES: seq<Priority> := [Critical, High, Default, Low]

  /** GetQueueName: the pending list of a priority, or None for the empty name. */
  function QueueOf(p: Priority): Option<Queue> {
    if p.Other? then None else Some(Pending(p))
  }

  predicate Routable(p: Priority) {
    !p.Other?
  }
}

/** WatchJob of cmd/api/server.go: the stream of status changes of one job. */
module Watch {
  import opened Types
  import opened Protocol
  import opened Lifecycle
  import opened Safety
  import opened Outcomes

  /** The enum of the API; proto3 also lets numbers through that have no name. */
  datatype JobState = UNSPECIFIED | QUEUED | RUNNING | SUCCEEDED | FAILED | DEADLETTER | UNKNOWN(code: int)

  /** statusToJobState: retry and cancelled have no state of their own. */
  function StateOf(s: Status): JobState {
    match s
    case Queued => QUEUED
    case Running => RUNNING
    case Succeeded => SUCCEEDED
    case Failed => FAILED
    case DeadLetter => DEADLETTER
    case Retry => UNSPECIFIED
    case Cancelled => UNSPECIFIED
  }

  /** An event; status is what its message names, None for "Job not found". */
  datatype JobEvent = JobEvent(state: JobState, status: Option<Status>, attempts: int)

  /** What one turn of the select loop meets. delivered is whether a Send would succeed. */
  datatype Poll =
    | Disconnected
    | PollFailed
    | Missing(delivered: bool)
    | Seen(status: Status, attempts: int, delivered: bool)

  /** How the call stands: still polling, nil, an error from the database, NotFound, or a
      broken stream. */
  datatype End = Polling | Closed | PollError | NotFoundError | SendError

  /** The statuses that end the stream; a cancelled job is polled on for ever. */
  predicate Final(s: Status) {
    s == Succeeded || s == Failed || s == DeadLetter
  }

  function EventOf(p: Poll): JobEvent
    requires p.Seen?
  {
    JobEvent(StateOf(p.status), Some(p.status), p.attempts)
  }

  const NOT_FOUND_EVENT := JobEvent(UNSPECIFIED, None, 0)

  /** Whether poll i shows a status the client has not just been told. */
  predicate Changed(polls: seq<Poll>, i: nat)
    requires i < |polls|
  {
    polls[i].Seen? && (i == 0 || !polls[i - 1].Seen? || polls[i - 1].status != polls[i].status)
  }

  /** The way poll i ends the call, or Polling. */
  function EndAt(polls: seq<Poll>, i: nat): End
    requires i < |polls|
  {
    match polls[i]
    case Disconnected => Closed
    case PollFailed => PollError
    case Missing(delivered) => if delivered then NotFoundError else SendError
    case Seen(status, _, delivered) =>
      if Changed(polls, i) && !delivered then SendError
      else if Final(status) then Closed
      else Polling
  }

  /** The polls that show a change, in order. */
  function Changes(polls: seq<Poll>): seq<JobEvent>
    decreases |polls|
  {
    if polls == [] then []
    else
      var n := |polls| - 1;
      Changes(polls[..n]) + if Changed(polls, n) then [EventOf(polls[n])] else []
  }

  /** The loop: it stops at the first poll that ends the call, and has sent the changes up to
      there; a stream that breaks loses the event it broke on. */
  method WatchJob(polls: seq<Poll>) returns (sent: seq<JobEvent>, turns: nat, end: End)
    ensures turns <= |polls|
    ensures forall i :: 0 <= i < turns - 1 ==> EndAt(polls, i) == Polling
    ensures if turns == 0 then end == Polling else end == EndAt(polls, turns - 1)
    ensures end == Polling ==> turns == |polls|
    ensures match end
      case Polling => sent == Changes(polls[..turns])
      case Closed => sent == Changes(polls[..turns])
      case PollError => sent == Changes(polls[..turns])
      case SendError => sent == Changes(polls[..turns - 1])
      case NotFoundError => sent == Changes(polls[..turns - 1]) + [JobEvent(UNSPECIFIED, None, 0)]
    // while it polls on, it has seen a job that is not done
    ensures forall i :: 0 <= i < turns && (i < turns - 1 || end == Polling) ==>
      polls[i].Seen?
      && polls[i].status != Succeeded && polls[i].status != Failed && polls[i].status != DeadLetter
    // and it ends as the last poll says
    ensures end == Closed ==>
      turns > 0
      && (polls[turns - 1].Disconnected?
          || (polls[turns - 1].Seen? && (polls[turns - 1].status == Succeeded
              || polls[turns - 1].status == Failed || polls[turns - 1].status == DeadLetter)))
    ensures end == PollError ==> turns > 0 && polls[turns - 1].PollFailed?
    ensures end == NotFoundError ==> turns > 0 && polls[turns - 1].Missing? && polls[turns - 1].delivered
    ensures end == SendError ==>
      turns > 0 && (polls[turns - 1].Missing? || polls[turns - 1].Seen?) && !polls[turns - 1].delivered
  {
    sent, turns, end := [], 0, Polling;
    var lastStatus: Option<Status>, firstPoll := None, true;
    while turns < |polls|
      invariant 0 <= turns <= |polls| && end == Polling
      invariant forall i :: 0 <= i < turns ==> EndAt(polls, i) == Polling
      invariant forall i :: 0 <= i < turns ==>
        polls[i].Seen?
        && polls[i].status != Succeeded && polls[i].status != Failed && polls[i].status != DeadLetter
      invariant sent == Changes(polls[..turns])
      invariant firstPoll <==> turns == 0
      invariant turns > 0 ==> polls[turns - 1].Seen? && lastStatus == Some(polls[turns - 1].status)
    {
      var poll := polls[turns];
      assert polls[..turns + 1][..turns] == polls[..turns];
      assert Changed(polls[..turns + 1], turns) == Changed(polls, turns);
      turns := turns + 1;
      match poll
      case Disconnected => return sent, turns, Closed;
      case PollFailed => return sent, turns, PollError;
      case Missing(delivered) =>
        if !delivered {
          return sent, turns, SendError;
        }
        return sent + [NOT_FOUND_EVENT], turns, NotFoundError;
      case Seen(status, attempts, delivered) =>
        if lastStatus != Some(status) || firstPoll {
          if !delivered {
            return sent, turns, SendError;
          }
          sent := sent + [JobEvent(StateOf(status), Some(status), attempts)];
          lastStatus, firstPoll := Some(status), false;
        }
        if Final(status) {
          return sent, turns, Closed;
        }
    }
    assert polls[..turns] == polls;
  }

  // ---------------------------------------------------------------- the stream as a compression

  predicate AllSeen(polls: seq<Poll>) {
    forall i :: 0 <= i < |polls| ==> polls[i].Seen?
  }

  /** The index of the event that the client has been told last when poll i is over. */
  function Told(polls: seq<Poll>, i: nat): int
    requires i < |polls|
  {
    |Changes(polls[..i + 1])| - 1
  }

  lemma {:induction false} ChangesGrow(polls: seq<Poll>, i: nat)
    requires i <= |polls|
    ensures Changes(polls[..i]) <= Changes(polls)
    decreases |polls|
  {
    if i == |polls| {
      assert polls[..i] == polls;
    } else {
      ChangesGrow(polls[..|polls| - 1], i);
      assert polls[..|polls| - 1][..i] == polls[..i];
    }
  }

  lemma ChangesAt(polls: seq<Poll>, i: nat)
    requires i < |polls|
    ensures Changes(polls[..i + 1]) ==
      Changes(polls[..i]) + if Changed(polls, i) then [EventOf(polls[i])] else []
  {
    assert polls[..i + 1][..i] == polls[..i];
    assert Changed(polls[..i + 1], i) == Changed(polls, i);
  }

  lemma {:induction false} LastTold(polls: seq<Poll>, i: nat)
    requires AllSeen(polls) && i < |polls|
    ensures Told(polls, i) >= 0
    ensures Changes(polls[..i + 1])[Told(polls, i)].status == Some(polls[i].status)
  {
    ChangesAt(polls, i);
    if !Changed(polls, i) {
      LastTold(polls, i - 1);
    }
  }

  /** The stream is the stutter-free compression of the polled statuses: poll i is accounted
      for by event Told(i), which names its status; the index starts at the first event, ends
      at the last, and moves on by one exactly when the status changes, to an event made from
      the poll that changed it. */
  lemma ChangesCompress(polls: seq<Poll>, i: nat)
    requires AllSeen(polls) && i < |polls|
    ensures 0 <= Told(polls, i) < |Changes(polls)|
    ensures Changes(polls)[Told(polls, i)].status == Some(polls[i].status)
    ensures Told(polls, 0) == 0 && Told(polls, |polls| - 1) == |Changes(polls)| - 1
    ensures i > 0 ==>
      Told(polls, i) == Told(polls, i - 1) + if polls[i].status == polls[i - 1].status then 0 else 1
    ensures Changed(polls, i) ==> Changes(polls)[Told(polls, i)] == EventOf(polls[i])
  {
    LastTold(polls, i);
    ChangesGrow(polls, i + 1);
    ChangesAt(polls, 0);
    ChangesAt(polls, i);
    assert polls[..|polls| - 1 + 1] == polls;
  }

  /** The law of the events: a change of status is told by an event with the status, the state and
      the attempts of the poll that shows it, state by state. */
  lemma ChangesAreTold(polls: seq<Poll>, i: nat)
    requires AllSeen(polls) && i < |polls| && (i == 0 || polls[i].status != polls[i - 1].status)
    ensures 0 <= Told(polls, i) < |Changes(polls)|
    ensures Changes(polls)[Told(polls, i)] ==
      JobEvent(match polls[i].status
               case Queued => QUEUED
               case Running => RUNNING
               case Succeeded => SUCCEEDED
               case Failed => FAILED
               case DeadLetter => DEADLETTER
               case Retry => UNSPECIFIED
               case Cancelled => UNSPECIFIED,
               Some(polls[i].status), polls[i].attempts)
  {
    ChangesCompress(polls, i);
  }

  /** No two neighbouring events name the same status. */
  lemma {:induction false} ChangesNeverStutter(polls: seq<Poll>, k: nat)
    requires AllSeen(polls) && k + 1 < |Changes(polls)|
    ensures Changes(polls)[k].status != Changes(polls)[k + 1].status
    decreases |polls|
  {
    var n := |polls| - 1;
    if k + 1 < |Changes(polls[..n])| {
      ChangesNeverStutter(polls[..n], k);
    } else if n > 0 {
      LastTold(polls, n - 1);
    }
  }

  // ---------------------------------------------------------------- watching a run

  /** What a poll in that state may show of the job. */
  predicate Shows(s: Sys, id: JobId, p: Poll) {
    match p
    case Missing(_) => id !in s.db.tasks
    case Seen(status, attempts, _) =>
      id in s.db.tasks && s.db.tasks[id].status == status && s.db.tasks[id].attempts == attempts
    case _ => true
  }

  /** The polls are made in that order during the run, any number of them in each state. */
  ghost predicate PolledAlong(s: Sys, es: seq<Event>, id: JobId, polls: seq<Poll>)
    requires IsRun(s, es)
    decreases |es|, |polls|
  {
    polls == []
    || (Shows(s, id, polls[0]) && PolledAlong(s, es, id, polls[1..]))
    || (es != [] && PolledAlong(Apply(s, es[0]), es[1..], id, polls))
  }

  lemma {:induction false} SettledPolls(s: Sys, es: seq<Event>, id: JobId, polls: seq<Poll>, i: nat)
    requires Inv(s) && Settled(Abs(s, id)) && IsRun(s, es) && PolledAlong(s, es, id, polls) && i < |polls|
    ensures !polls[i].Missing? && (polls[i].Seen? ==> polls[i].status == s.db.tasks[id].status)
    decreases |es|, |polls|
  {
    if Shows(s, id, polls[0]) && PolledAlong(s, es, id, polls[1..]) {
      if i > 0 {
        SettledPolls(s, es, id, polls[1..], i - 1);
      }
    } else {
      SettledForever(s, es[..1], id);
      InvStep(s, es[0]);
      OneEvent(s, es);
      SettledPolls(Apply(s, es[0]), es[1..], id, polls, i);
    }
  }

  lemma OneEvent(s: Sys, es: seq<Event>)
    requires IsRun(s, es) && es != []
    ensures IsRun(s, es[..1]) && After(s, es[..1]) == Apply(s, es[0])
  {
    assert es[..1][1..] == [];
  }

  /** Watching a settled job through any run: a poll that sees it, with a stream that holds, ends
      the call if and only if the job is not cancelled. So the call for a cancelled job ends only
      by a disconnect, a database error or a broken stream. */
  lemma WatchEndsIff(s: Sys, es: seq<Event>, id: JobId, polls: seq<Poll>, i: nat)
    requires Inv(s) && Settled(Abs(s, id)) && IsRun(s, es) && PolledAlong(s, es, id, polls) && i < |polls|
    ensures polls[i].Seen? && polls[i].delivered ==>
      (EndAt(polls, i) == if s.db.HasStatus(id, Cancelled) then Polling else Closed)
    ensures s.db.HasStatus(id, Cancelled) ==>
      match EndAt(polls, i)
      case Polling => polls[i].Seen?
      case Closed => polls[i].Disconnected?
      case PollError => polls[i].PollFailed?
      case SendError => polls[i].Seen? && !polls[i].delivered && (i == 0 || !polls[i - 1].Seen?)
      case NotFoundError => false
  {
    SettledPolls(s, es, id, polls, i);
    if i > 0 {
      SettledPolls(s, es, id, polls, i - 1);
    }
  }
}

/** The life of one job, without queues, tokens or programs: the machine that every step of
    the whole system refines. live says that a claim has not yet reached its status write. */
module Lifecycle {
  import opened Types

  datatype Life = Absent | Life(status: Status, attempts: int, maxAttempts: int, live: bool)

  predicate Submitted(l: Life, l': Life) {
    l.Absent? && l'.Life? && 1 <= l'.maxAttempts <= 100 && l' == Life(Queued, 0, l'.maxAttempts, false)
  }

  predicate ClaimedBy(l: Life, l': Life) {
    l.Life? && l.status == Queued && !l.live
    && l' == Life(Running, l.attempts + 1, l.maxAttempts, true)
  }

  predicate CancelledBy(l: Life, l': Life) {
    l.Life? && (l.status == Queued || l.status == Running) && l' == l.(status := Cancelled)
  }

  predicate Requeued(l: Life, l': Life) {
    l.Life? && l.status == Retry && !l.live && l' == l.(status := Queued)
  }

  /** The status write of a live execution; it does not look at the status it replaces. */
  predicate Finished(l: Life, l': Life) {
    l.Life? && l.live && l'.Life? && l' == l.(status := l'.status, live := false)
    && match l'.status
       case Succeeded | Failed => true
       case DeadLetter => l.attempts == l.maxAttempts
       case Retry => l.attempts < l.maxAttempts
       case _ => false
  }

  /** An execution that ends without a status write: a failed write or a stopped worker. */
  predicate Abandoned(l: Life, l': Life) {
    l.Life? && l.live && l' == l.(live := false)
  }

  predicate LifeStep(l: Life, l': Life) {
    Submitted(l, l') || ClaimedBy(l, l') || CancelledBy(l, l') || Requeued(l, l')
    || Finished(l, l') || Abandoned(l, l')
  }

  predicate LifeOk(l: Life) {
    l.Life? ==>
      && 1 <= l.maxAttempts <= 100
      && 0 <= l.attempts <= l.maxAttempts
      && (l.live ==> l.status == Running || l.status == Cancelled)
      && (l.live ==> l.attempts >= 1)
      && (l.status == Queued || l.status == Retry ==> l.attempts < l.maxAttempts)
      && (l.status == DeadLetter ==> l.attempts == l.maxAttempts)
      && (l.status != Queued && l.status != Cancelled ==> l.attempts >= 1)
  }

  /** Outcomes that nothing can change any more. */
  predicate Settled(l: Life) {
    l.Life? && !l.live
    && (l.status == Succeeded || l.status == Failed || l.status == DeadLetter || l.status == Cancelled)
  }

  predicate StatusChanged(l: Life, l': Life) {
    match (l, l')
    case (Life(s, _, _, _), Life(s', _, _, _)) => s != s'
    case _ => l != l'
  }

  /** Bounds the status changes a job can still go through. */
  function Measure(l: Life): nat
    requires LifeOk(l)
  {
    match l
    case Absent => 402
    case Life(status, attempts, maxAttempts, live) =>
      var left := 4 * (maxAttempts - attempts);
      match status
      case Queued => left + 1
      case Retry => left + 2
      case Cancelled => if live then left + 3 else 0
      case Running => if live then left + 4 else 1
      case Succeeded | Failed | DeadLetter => 0
  }

  lemma StepKeepsOk(l: Life, l': Life)
    requires LifeOk(l) && LifeStep(l, l')
    ensures LifeOk(l')
  {
  }

  lemma StepDecreases(l: Life, l': Life)
    requires LifeOk(l) && LifeOk(l') && LifeStep(l, l')
    ensures Measure(l') + (if StatusChanged(l, l') then 1 else 0) <= Measure(l)
  {
  }
}

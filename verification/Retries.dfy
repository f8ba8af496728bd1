/** What one attempt does to its row, told from whether a request could be made and what came back. */
module Retries {
  import opened Basics
  import opened Errors
  import opened Messages
  import opened Delivery

  predicate Positive(reply: HttpReply) {
    reply.Reply? && 200 <= reply.code <= 299
  }

  /** The milliseconds before the next attempt after k failures: k * k minutes, an hour at most. */
  function Pause(k: nat): nat {
    60000 * if k * k < 60 then k * k else 60
  }

  /** The row after an attempt that was to be sent as `plan` and got `reply`. No request: the row is FAILED at
      once. A positive answer: it is DELIVERED. No answer, or any other: it stays queued for its next attempt
      as long as it has one left, and is FAILED after its last. */
  predicate AttemptRule<P>(c: Config, row: Row, plan: Result<P, AppError>, reply: HttpReply, now: int, row': Row)
    requires row.retryCount >= 0
  {
    var k := row.retryCount + 1;
    match plan
    case Err(e) => row' == row.(status := Failed, retryCount := k, nextRetry := None, lastError := Some(e.code))
    case Ok(_) =>
      if Positive(reply) then row' == row.(status := Delivered)
      else if k < c.maxRetries then
        row' == row.(retryCount := k, nextRetry := Some(now + Pause(k)), lastError := Some(Network))
      else row' == row.(status := Failed, retryCount := k, nextRetry := None, lastError := Some(Network))
  }

  /** Which errors are worth a retry. */
  lemma RetryableExactly(code: ErrorCode)
    ensures New(code).code == code
    ensures New(code).retryable <==> code == Network || code == Timeout || code == Unavailable || code == RateLimited
  {
  }

  /** Nothing that keeps a request from being made is worth a retry. */
  lemma PlanErrorsAreFinal(c: Config, partners: Partners, row: Row, stamp: string)
    ensures Plan(c, partners, row, stamp).Err? ==> !Plan(c, partners, row, stamp).error.retryable
  {
  }

  lemma AttemptFollowsRule(c: Config, partners: Partners, row: Row, stamp: string, reply: HttpReply, now: int)
    requires row.retryCount >= 0
    ensures AttemptRule(c, row, Plan(c, partners, row, stamp), reply, now,
                        AfterAttempt(c, row, DeliveryResult(c, partners, row, stamp, reply), now))
  {
    PlanErrorsAreFinal(c, partners, row, stamp);
    hide Plan;
  }

  /** A poll pass makes an attempt at a row exactly if it is queued and not waiting for a later moment. */
  lemma PollFollowsRule(c: Config, partners: Partners, row: Row, s: Surroundings)
    requires row.retryCount >= 0
    ensures var row' := PollRow(c, partners, row, s);
            if row.status == Queued && !(row.nextRetry.Some? && row.nextRetry.value > s.checkAt)
            then AttemptRule(c, row, Plan(c, partners, row, s.stamp), s.reply, s.doneAt, row')
            else row' == row
  {
    AttemptFollowsRule(c, partners, row, s.stamp, s.reply, s.doneAt);
    hide DeliveryResult, AttemptRule;
  }
}

/** The queue worker's poll pass, as the loop that updates the store in place. */
module Worker {
  import opened Basics
  import opened Errors
  import opened Messages
  import opened MessageStore
  import opened Delivery
  import opened Retries

  /** The rows of a snapshot whose time has come. */
  ghost function DueOf(messages: seq<Row>, env: string -> Surroundings): seq<Row> {
    if messages == [] then []
    else
      var last := messages[|messages| - 1];
      DueOf(messages[..|messages| - 1], env) + if Due(last, env(last.id).checkAt) then [last] else []
  }

  lemma {:induction false} DueOfMembers(messages: seq<Row>, env: string -> Surroundings, r: Row)
    ensures r in DueOf(messages, env) <==> r in messages && Due(r, env(r.id).checkAt)
  {
    hide Due;
    if messages == [] {
    } else {
      assert messages == messages[..|messages| - 1] + [messages[|messages| - 1]];
      DueOfMembers(messages[..|messages| - 1], env, r);
    }
  }

  lemma {:induction false} DueOfKeepsOrder(messages: seq<Row>, env: string -> Surroundings)
    requires SortedByCreation(messages) && UniqueIds(messages)
    ensures SortedByCreation(DueOf(messages, env)) && UniqueIds(DueOf(messages, env))
  {
    hide Due;
    if messages == [] {
    } else {
      var front, last := messages[..|messages| - 1], messages[|messages| - 1];
      DueOfKeepsOrder(front, env);
      forall r | r in DueOf(front, env) ensures r.createdAt <= last.createdAt && r.id != last.id {
        DueOfMembers(front, env, r);
        var l :| 0 <= l < |front| && front[l] == r;
        assert messages[l] == r;
      }
      YoungestGoesLast(DueOf(front, env), last);
    }
  }

  /** The table after the writes that book one attempt. */
  function Booked(c: Config, t: seq<Row>, msg: Row, result: Option<AppError>, now: int): seq<Row>
    requires msg.retryCount >= 0
  {
    match result
    case None => SetStatus(t, msg.id, Delivered)
    case Some(err) =>
      var count := msg.retryCount + 1;
      if ShouldRetry(c, count, err)
      then SetRetry(t, msg.id, count, Some(now + Backoff(count)), err.code)
      else SetRetry(SetStatus(t, msg.id, Failed), msg.id, count, None, err.code)
  }

  /** The writes of an attempt touch the row they name and no other. */
  lemma BookedTouchesOneRow(c: Config, t: seq<Row>, at: nat, result: Option<AppError>, now: int)
    requires UniqueIds(t) && at < |t| && t[at].retryCount >= 0
    ensures Booked(c, t, t[at], result, now) == t[at := AfterAttempt(c, t[at], result, now)]
  {
    var u := Booked(c, t, t[at], result, now);
    forall k | 0 <= k < |t| ensures u[k] == t[at := AfterAttempt(c, t[at], result, now)][k] {
      assert k != at ==> t[k].id != t[at].id;
    }
  }

  /** The rows named in `done` have had their step, the others are as before. */
  ghost predicate Progress(
    c: Config, partners: Partners, before: seq<Row>, t: seq<Row>, done: seq<Row>, env: string -> Surroundings)
    requires CountsNonNegative(before)
  {
    && |t| == |before|
    && forall k :: 0 <= k < |before| ==>
         t[k] == if Has(done, before[k].id) then PollRow(c, partners, before[k], env(before[k].id)) else before[k]
  }

  lemma ProgressStart(c: Config, partners: Partners, before: seq<Row>, messages: seq<Row>, env: string -> Surroundings)
    requires CountsNonNegative(before)
    ensures Progress(c, partners, before, before, messages[..0], env)
  {
  }

  lemma HasOneMore(s: seq<Row>, i: nat)
    requires i < |s|
    ensures forall id :: Has(s[..i + 1], id) <==> Has(s[..i], id) || s[i].id == id
  {
    forall id ensures Has(s[..i + 1], id) <==> Has(s[..i], id) || s[i].id == id {
      if Has(s[..i], id) {
        var k :| 0 <= k < i && s[..i][k].id == id;
        assert s[..i + 1][k].id == id;
      }
      if s[i].id == id {
        assert s[..i + 1][i].id == id;
      }
      if Has(s[..i + 1], id) {
        var k :| 0 <= k < i + 1 && s[..i + 1][k].id == id;
        if k < i {
          assert s[..i][k].id == id;
        }
      }
    }
  }

  lemma ProgressStep(
    c: Config, partners: Partners, before: seq<Row>, t: seq<Row>, messages: seq<Row>, i: nat,
    env: string -> Surroundings)
    returns (at: nat)
    requires CountsNonNegative(before) && UniqueIds(before) && UniqueIds(t)
    requires IsListing(before, Queued, messages) && i < |messages|
    requires Progress(c, partners, before, t, messages[..i], env)
    ensures at < |t| && t[at] == messages[i] && Has(before, messages[i].id) && messages[i].retryCount >= 0
    ensures var s := env(messages[i].id);
            Progress(c, partners, before,
                     if Due(messages[i], s.checkAt)
                     then Booked(c, t, messages[i], DeliveryResult(c, partners, messages[i], s.stamp, s.reply),
                                 s.doneAt)
                     else t,
                     messages[..i + 1], env)
  {
    var msg := messages[i];
    assert msg in messages;
    at :| 0 <= at < |before| && before[at] == msg;
    assert !Has(messages[..i], msg.id);
    HasOneMore(messages, i);
    var s := env(msg.id);
    var result := DeliveryResult(c, partners, msg, s.stamp, s.reply);
    BookedTouchesOneRow(c, t, at, result, s.doneAt);
    forall k | 0 <= k < |before| && k != at ensures before[k].id != msg.id {
    }
  }

  lemma ProgressDone(
    c: Config, partners: Partners, before: seq<Row>, t: seq<Row>, messages: seq<Row>, env: string -> Surroundings)
    requires CountsNonNegative(before)
    requires IsListing(before, Queued, messages)
    requires Progress(c, partners, before, t, messages[..|messages|], env)
    ensures t == PollAll(c, partners, before, env)
  {
    assert messages[..|messages|] == messages;
    forall k | 0 <= k < |before| ensures t[k] == PollRow(c, partners, before[k], env(before[k].id)) {
      if before[k].status == Queued {
        assert before[k] in messages;
        var l :| 0 <= l < |messages| && messages[l] == before[k];
        assert messages[l].id == before[k].id;
      }
    }
  }

  lemma NothingIsDue(messages: seq<Row>, env: string -> Surroundings)
    requires messages == []
    ensures DueOf(messages, env) == []
  {
  }

  lemma DueOfOneMore(messages: seq<Row>, i: nat, env: string -> Surroundings)
    requires i < |messages|
    ensures DueOf(messages[..i + 1], env)
         == DueOf(messages[..i], env) + if Due(messages[i], env(messages[i].id).checkAt) then [messages[i]] else []
  {
    assert messages[..i + 1][..i] == messages[..i];
  }

  /** The due rows of a listing are the due queued rows of the table, oldest first. */
  lemma DueOfListing(t: seq<Row>, messages: seq<Row>, env: string -> Surroundings)
    requires IsListing(t, Queued, messages)
    ensures var due := DueOf(messages, env);
            && SortedByCreation(due) && UniqueIds(due)
            && forall r :: r in due <==> r in t && r.status == Queued && Due(r, env(r.id).checkAt)
  {
    DueOfKeepsOrder(messages, env);
    forall r ensures r in DueOf(messages, env) <==> r in messages && Due(r, env(r.id).checkAt) {
      DueOfMembers(messages, env, r);
    }
  }

  /** The writes of an attempt, row by row. */
  lemma BookedFollowsRule(c: Config, partners: Partners, t: seq<Row>, msg: Row, s: Surroundings)
    requires UniqueIds(t) && msg in t && msg.retryCount >= 0
    ensures var u := Booked(c, t, msg, DeliveryResult(c, partners, msg, s.stamp, s.reply), s.doneAt);
            && |u| == |t|
            && forall k :: 0 <= k < |t| ==>
                 if t[k] == msg then AttemptRule(c, msg, Plan(c, partners, msg, s.stamp), s.reply, s.doneAt, u[k])
                 else u[k] == t[k]
  {
    var at :| 0 <= at < |t| && t[at] == msg;
    BookedTouchesOneRow(c, t, at, DeliveryResult(c, partners, msg, s.stamp, s.reply), s.doneAt);
    AttemptFollowsRule(c, partners, msg, s.stamp, s.reply, s.doneAt);
    hide Booked, DeliveryResult, AttemptRule, AfterAttempt;
  }

  /** A whole pass, row by row. */
  lemma PassFollowsRule(c: Config, partners: Partners, t: seq<Row>, env: string -> Surroundings)
    requires CountsNonNegative(t)
    ensures var u := PollAll(c, partners, t, env);
            && |u| == |t|
            && forall k :: 0 <= k < |t| ==>
                 var s := env(t[k].id);
                 if t[k].status == Queued && !(t[k].nextRetry.Some? && t[k].nextRetry.value > s.checkAt)
                 then AttemptRule(c, t[k], Plan(c, partners, t[k], s.stamp), s.reply, s.doneAt, u[k])
                 else u[k] == t[k]
  {
    hide PollRow, AttemptRule, Plan;
    forall k | 0 <= k < |t| {
      PollFollowsRule(c, partners, t[k], env(t[k].id));
    }
  }

  lemma BookedUnfolds(c: Config, t: seq<Row>, msg: Row, result: Option<AppError>, now: int)
    requires msg.retryCount >= 0
    ensures var k := msg.retryCount + 1;
            Booked(c, t, msg, result, now)
            == if result.None? then SetStatus(t, msg.id, Delivered)
               else if result.value.retryable && k < c.maxRetries
               then SetRetry(t, msg.id, k, Some(now + Pause(k)), result.value.code)
               else SetRetry(SetStatus(t, msg.id, Failed), msg.id, k, None, result.value.code)
  {
    hide SetStatus, SetRetry;
  }

  class QueueWorker {
    const config: Config
    const store: Repository
    var partners: Partners

    constructor (config: Config, store: Repository, partners: Partners)
      ensures this.config == config && this.store == store && this.partners == partners
    {
      this.config := config;
      this.store := store;
      this.partners := partners;
    }

    method HandleSuccess(msg: Row)
      requires store.Valid() && msg.id != ""
      modifies store
      ensures store.Valid()
      ensures store.rows == SetStatus(old(store.rows), msg.id, Delivered)
    {
      var _ := store.UpdateStatus(msg.id, Delivered);
    }

    /** Books a failed attempt: a retry keeps the row queued, a final failure takes two writes. */
    method HandleFailure(msg: Row, err: AppError, now: int)
      requires store.Valid() && msg.id != "" && msg.retryCount >= 0
      modifies store
      ensures store.Valid()
      ensures var k := msg.retryCount + 1;
              store.rows ==
              if err.retryable && k < config.maxRetries
              then SetRetry(old(store.rows), msg.id, k, Some(now + Pause(k)), err.code)
              else SetRetry(SetStatus(old(store.rows), msg.id, Failed), msg.id, k, None, err.code)
    {
      var retryCount := msg.retryCount + 1;
      var shouldRetry := err.retryable && retryCount < config.maxRetries;
      if !shouldRetry {
        var _ := store.UpdateStatus(msg.id, Failed);
        store.UpdateRetryInfo(msg.id, retryCount, None, err.code);
        return;
      }
      var backoffMinutes := retryCount * retryCount;
      if backoffMinutes > 60 {
        backoffMinutes := 60;
      }
      store.UpdateRetryInfo(msg.id, retryCount, Some(now + backoffMinutes * MINUTE), err.code);
    }

    /** One queued row of the snapshot: deliver it, and book the result. */
    method Process(msg: Row, s: Surroundings)
      requires store.Valid() && msg in store.rows && msg.retryCount >= 0 && msg.id != ""
      modifies store
      ensures store.Valid()
      ensures var result := DeliveryResult(config, partners, msg, s.stamp, s.reply);
              store.rows == Booked(config, old(store.rows), msg, result, s.doneAt)
      ensures forall k :: 0 <= k < |old(store.rows)| ==>
                k < |store.rows|
                && if old(store.rows)[k] == msg
                   then AttemptRule(config, msg, Plan(config, partners, msg, s.stamp), s.reply, s.doneAt, store.rows[k])
                   else store.rows[k] == old(store.rows)[k]
    {
      hide DeliveryResult, SetStatus, SetRetry, AttemptRule, Plan, Booked, Pause;
      BookedFollowsRule(config, partners, store.rows, msg, s);
      var result := DeliveryResult(config, partners, msg, s.stamp, s.reply);
      BookedUnfolds(config, store.rows, msg, result, s.doneAt);
      if result.Some? {
        HandleFailure(msg, result.value, s.doneAt);
      } else {
        HandleSuccess(msg);
      }
    }

    /** The poll loop refines the pointwise step: every due queued row gets exactly its own step, the
        other rows nothing, whatever else is in the snapshot; due rows are attempted oldest first. */
    method ProcessQueue(env: string -> Surroundings) returns (attempted: seq<Row>)
      requires store.Valid() && CountsNonNegative(store.rows)
      requires !Has(store.rows, "")
      modifies store
      ensures store.Valid()
      ensures store.rows == PollAll(config, partners, old(store.rows), env)
      ensures |store.rows| == |old(store.rows)|
      ensures forall k :: 0 <= k < |store.rows| ==>
                var row, s := old(store.rows)[k], env(old(store.rows)[k].id);
                if row.status == Queued && !(row.nextRetry.Some? && row.nextRetry.value > s.checkAt)
                then AttemptRule(config, row, Plan(config, partners, row, s.stamp), s.reply, s.doneAt, store.rows[k])
                else store.rows[k] == row
      ensures forall r :: r in attempted <==> r in old(store.rows) && r.status == Queued && Due(r, env(r.id).checkAt)
      ensures SortedByCreation(attempted) && UniqueIds(attempted)
    {
      hide Progress, Booked, PollAll, Due, DueOf, DeliveryResult, SortedByCreation, UniqueIds, IsListing, Has;
      hide AttemptRule, Plan;
      PassFollowsRule(config, partners, store.rows, env);
      hide CountsNonNegative;
      ghost var before := store.rows;
      var messages := store.ListByStatus(Queued);
      attempted := [];
      var i := 0;
      ProgressStart(config, partners, before, messages, env);
      NothingIsDue(messages[..0], env);
      while i < |messages|
        invariant 0 <= i <= |messages|
        invariant store.Valid()
        invariant Progress(config, partners, before, store.rows, messages[..i], env)
        invariant attempted == DueOf(messages[..i], env)
      {
        var msg := messages[i];
        ghost var at := ProgressStep(config, partners, before, store.rows, messages, i, env);
        DueOfOneMore(messages, i, env);
        if Due(msg, env(msg.id).checkAt) {
          Process(msg, env(msg.id));
          attempted := attempted + [msg];
        }
        i := i + 1;
      }
      assert messages[..i] == messages;
      ProgressDone(config, partners, before, store.rows, messages, env);
      DueOfListing(before, messages, env);
    }
  }
}

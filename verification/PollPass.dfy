/** The two views of a poll pass meet: run without interruption, the steps of a node's worker do to the
    table exactly what the loop of the queue worker does. */
module PollPass {
  import opened Basics
  import opened Errors
  import opened Messages
  import opened Delivery
  import opened Worker
  import opened Node

  /** The node steps of one row of a snapshot, in the given surroundings. */
  function RowSteps(c: Config, partners: Partners, row: Row, s: Surroundings): seq<Action> {
    if !Due(row, s.checkAt) then [Advance(s.checkAt), Skip]
    else
      var result := DeliveryResult(c, partners, row, s.stamp, s.reply);
      [Advance(s.checkAt), Deliver(partners, s.stamp, s.reply), Advance(s.doneAt), Book]
      + if result.Some? && row.retryCount >= 0 && !ShouldRetry(c, row.retryCount + 1, result.value) then [Book] else []
  }

  function PassSteps(c: Config, partners: Partners, todo: seq<Row>, env: string -> Surroundings): seq<Action> {
    if todo == [] then [EndPoll]
    else RowSteps(c, partners, todo[0], env(todo[0].id)) + PassSteps(c, partners, todo[1..], env)
  }

  /** The clock does not go back during the pass. */
  predicate InTime(todo: seq<Row>, env: string -> Surroundings, now: int)
    decreases |todo|
  {
    todo != [] ==>
      var s := env(todo[0].id);
      if Due(todo[0], s.checkAt) then now <= s.checkAt <= s.doneAt && InTime(todo[1..], env, s.doneAt)
      else now <= s.checkAt && InTime(todo[1..], env, s.checkAt)
  }

  lemma {:induction false} RunAppend(c: Config, n: State, first: seq<Action>, second: seq<Action>)
    requires Run(c, n, first).Some?
    ensures Run(c, n, first + second) == Run(c, Run(c, n, first).value, second)
    decreases |first|
  {
    if first == [] {
      assert first + second == second;
    } else {
      assert (first + second)[1..] == first[1..] + second;
      RunAppend(c, Step(c, n, first[0]).value, first[1..], second);
    }
  }

  lemma RunCons(c: Config, n: State, a: Action, rest: seq<Action>)
    requires Step(c, n, a).Some?
    ensures Run(c, n, [a] + rest) == Run(c, Step(c, n, a).value, rest)
  {
    assert ([a] + rest)[1..] == rest;
  }

  lemma RunNothing(c: Config, n: State)
    ensures Run(c, n, []) == Some(n)
  {
  }

  /** The booking steps after an attempt write what the loop body writes. */
  lemma BookingMatches(c: Config, n: State, row: Row, rest: seq<Row>, result: Option<AppError>)
    requires n.worker == Polling(rest, Answered(row, result)) && row.retryCount >= 0
    ensures var final := result.Some? && !ShouldRetry(c, row.retryCount + 1, result.value);
            var r := Run(c, n, [Book] + if final then [Book] else []);
            r.Some? && r.value == n.(worker := Polling(rest, Ready), rows := Booked(c, n.rows, row, result, n.clock))
  {
    hide SetStatus, SetRetry, Run;
    var final := result.Some? && !ShouldRetry(c, row.retryCount + 1, result.value);
    var more := if final then [Book] else [];
    var n' := Step(c, n, Book).value;
    RunCons(c, n, Book, more);
    if final {
      RunCons(c, n', Book, []);
      assert [Book] + [] == [Book];
      RunNothing(c, Step(c, n', Book).value);
    } else {
      RunNothing(c, n');
    }
  }

  /** The steps of one due row book its attempt as the loop body does. */
  lemma DueRowSteps(c: Config, partners: Partners, n: State, row: Row, rest: seq<Row>, s: Surroundings)
    requires n.worker == Polling([row] + rest, Ready) && row.retryCount >= 0
    requires Due(row, s.checkAt) && n.clock <= s.checkAt <= s.doneAt
    ensures var r := Run(c, n, RowSteps(c, partners, row, s));
            && r.Some? && r.value.worker == Polling(rest, Ready) && r.value.clock == s.doneAt
            && r.value.rows == Booked(c, n.rows, row, DeliveryResult(c, partners, row, s.stamp, s.reply), s.doneAt)
  {
    hide DeliveryResult, Booked, BookStep, Run;
    var result := DeliveryResult(c, partners, row, s.stamp, s.reply);
    var final := result.Some? && !ShouldRetry(c, row.retryCount + 1, result.value);
    var booking := [Book] + if final then [Book] else [];
    var deliver := Deliver(partners, s.stamp, s.reply);
    var n1 := n.(clock := s.checkAt);
    assert ([row] + rest)[1..] == rest;
    var n2 := Step(c, n1, deliver).value;
    var n3 := n2.(clock := s.doneAt);
    assert RowSteps(c, partners, row, s) == [Advance(s.checkAt)] + ([deliver] + ([Advance(s.doneAt)] + booking));
    RunCons(c, n, Advance(s.checkAt), [deliver] + ([Advance(s.doneAt)] + booking));
    RunCons(c, n1, deliver, [Advance(s.doneAt)] + booking);
    RunCons(c, n2, Advance(s.doneAt), booking);
    BookingMatches(c, n3, row, rest, result);
  }

  lemma SkippedRowSteps(c: Config, partners: Partners, n: State, row: Row, rest: seq<Row>, s: Surroundings)
    requires n.worker == Polling([row] + rest, Ready) && !Due(row, s.checkAt) && n.clock <= s.checkAt
    ensures Run(c, n, RowSteps(c, partners, row, s)) == Some(n.(clock := s.checkAt, worker := Polling(rest, Ready)))
  {
    var n1 := n.(clock := s.checkAt);
    assert ([row] + rest)[1..] == rest;
    assert [Advance(s.checkAt)] + [Skip] == RowSteps(c, partners, row, s) && [Skip] + [] == [Skip];
    RunCons(c, n, Advance(s.checkAt), [Skip]);
    RunCons(c, n1, Skip, []);
  }

  lemma RowThenMore(
    c: Config, partners: Partners, n: State, row: Row, rest: seq<Row>, s: Surroundings, more: seq<Action>)
    requires n.worker == Polling([row] + rest, Ready) && row.retryCount >= 0
    requires n.clock <= s.checkAt && (Due(row, s.checkAt) ==> s.checkAt <= s.doneAt)
    ensures var r := Run(c, n, RowSteps(c, partners, row, s));
            && r.Some? && r.value.worker == Polling(rest, Ready)
            && r.value.clock == (if Due(row, s.checkAt) then s.doneAt else s.checkAt)
            && r.value.rows == (if Due(row, s.checkAt)
                                then Booked(c, n.rows, row, DeliveryResult(c, partners, row, s.stamp, s.reply),
                                            s.doneAt)
                                else n.rows)
            && Run(c, n, RowSteps(c, partners, row, s) + more) == Run(c, r.value, more)
  {
    hide Booked, DeliveryResult, Run, RowSteps;
    if Due(row, s.checkAt) {
      DueRowSteps(c, partners, n, row, rest, s);
    } else {
      SkippedRowSteps(c, partners, n, row, rest, s);
    }
    RunAppend(c, n, RowSteps(c, partners, row, s), more);
  }

  lemma EndsThePass(c: Config, n: State)
    requires n.worker == Polling([], Ready)
    ensures Run(c, n, [EndPoll]) == Some(n.(worker := Idle))
  {
    RunCons(c, n, EndPoll, []);
    assert [EndPoll] + [] == [EndPoll];
  }

  lemma {:induction false} PassFrom(
    c: Config, partners: Partners, before: seq<Row>, n: State, messages: seq<Row>, i: nat, env: string -> Surroundings)
    requires CountsNonNegative(before) && UniqueIds(before) && UniqueIds(n.rows)
    requires IsListing(before, Queued, messages) && i <= |messages|
    requires Progress(c, partners, before, n.rows, messages[..i], env)
    requires n.worker == Polling(messages[i..], Ready) && InTime(messages[i..], env, n.clock)
    ensures var r := Run(c, n, PassSteps(c, partners, messages[i..], env));
            r.Some? && r.value.worker == Idle && r.value.rows == PollAll(c, partners, before, env)
    decreases |messages| - i
  {
    hide PollAll, Progress, Booked, IsListing, Run, RowSteps, DeliveryResult;
    var todo := messages[i..];
    if todo == [] {
      assert messages[..i] == messages[..|messages|];
      ProgressDone(c, partners, before, n.rows, messages, env);
      EndsThePass(c, n);
    } else {
      var row, s := todo[0], env(todo[0].id);
      assert todo == [row] + todo[1..] && todo[1..] == messages[i + 1..];
      var at := ProgressStep(c, partners, before, n.rows, messages, i, env);
      RowThenMore(c, partners, n, row, todo[1..], s, PassSteps(c, partners, todo[1..], env));
      if Due(row, s.checkAt) {
        BookedTouchesOneRow(c, n.rows, at, DeliveryResult(c, partners, row, s.stamp, s.reply), s.doneAt);
      }
      PassFrom(c, partners, before, Run(c, n, RowSteps(c, partners, row, s)).value, messages, i + 1, env);
    }
  }

  /** An uninterrupted pass of the step system, whatever answers it gets and however long its deliveries
      take, has the effect of the worker's loop: each due queued row makes its own step, and nothing
      else changes. */
  lemma UninterruptedPassMatchesLoop(
    c: Config, partners: Partners, n: State, snapshot: seq<Row>, env: string -> Surroundings)
    requires RowsOk(c, n.rows) && n.worker == Idle
    requires IsListing(n.rows, Queued, snapshot) && InTime(snapshot, env, n.clock)
    ensures CountsNonNegative(n.rows)
    ensures var r := Run(c, n, [BeginPoll(snapshot)] + PassSteps(c, partners, snapshot, env));
            r.Some? && r.value.worker == Idle && r.value.rows == PollAll(c, partners, n.rows, env)
  {
    assert snapshot[0..] == snapshot;
    ProgressStart(c, partners, n.rows, snapshot, env);
    RunCons(c, n, BeginPoll(snapshot), PassSteps(c, partners, snapshot, env));
    PassFrom(c, partners, n.rows, n.(worker := Polling(snapshot, Ready)), snapshot, 0, env);
  }
}

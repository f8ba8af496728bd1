/** How often and how soon a row is attempted, over every run of a node. */
module Attempts {
  import opened Basics
  import opened Errors
  import opened Messages
  import opened Delivery
  import opened Node

  /** The number of attempts logged for an id. */
  function CountOf(log: seq<Attempt>, id: string): nat {
    if log == [] then 0
    else CountOf(log[..|log| - 1], id) + if log[|log| - 1].id == id then 1 else 0
  }

  lemma CountAppend(log: seq<Attempt>, e: Attempt, id: string)
    ensures CountOf(log + [e], id) == CountOf(log, id) + if e.id == id then 1 else 0
  {
    assert (log + [e])[..|log|] == log;
  }

  lemma {:induction false} CountZero(log: seq<Attempt>, id: string)
    requires forall k :: 0 <= k < |log| ==> log[k].id != id
    ensures CountOf(log, id) == 0
  {
    if log == [] {
    } else {
      CountZero(log[..|log| - 1], id);
    }
  }

  predicate NumberOk(log: seq<Attempt>, k: nat)
    requires k < |log|
  {
    log[k].num == CountOf(log[..k], log[k].id) + 1
  }

  /** Attempts are numbered 1, 2, 3, ... per row. */
  ghost predicate Numbered(log: seq<Attempt>) {
    forall k :: 0 <= k < |log| ==> NumberOk(log, k)
  }

  /** Attempt k + 1 of a row comes no sooner than the backoff of attempt k after it. */
  ghost predicate Spaced(log: seq<Attempt>) {
    forall k, l :: 0 <= k < l < |log| && log[k].id == log[l].id && log[l].num == log[k].num + 1
      ==> log[k].time + Backoff(log[k].num) <= log[l].time
  }

  /** The log is in step with a row that may be attempted again. */
  ghost predicate Settled(log: seq<Attempt>, r: Row) {
    && CountOf(log, r.id) == r.retryCount
    && forall k :: 0 <= k < |log| && log[k].id == r.id && log[k].num == r.retryCount
         ==> r.nextRetry.Some? && log[k].time + Backoff(log[k].num) <= r.nextRetry.value
  }

  /** The row whose attempt is not booked yet. */
  predicate InFlight(w: Worker, id: string) {
    w.Polling? && !w.flight.Ready? && w.flight.row.id == id
  }

  /** A logged attempt names a stored row, is within the limit and lies in the past. */
  predicate EntryOk(c: Config, n: State, e: Attempt) {
    Has(n.rows, e.id) && e.num <= Limit(c) && e.time <= n.clock
  }

  ghost predicate LogOk(c: Config, n: State) {
    && Numbered(n.attempts)
    && Spaced(n.attempts)
    && (forall k :: 0 <= k < |n.attempts| ==> EntryOk(c, n, n.attempts[k]))
    && (forall i :: 0 <= i < |n.rows| && n.rows[i].status == Queued && !InFlight(n.worker, n.rows[i].id) ==>
          Settled(n.attempts, n.rows[i]))
    && (n.worker.Polling? ==> forall i :: 0 <= i < |n.worker.todo| ==> Settled(n.attempts, n.worker.todo[i]))
    && (n.worker.Polling? && !n.worker.flight.Ready? ==>
          CountOf(n.attempts, n.worker.flight.row.id) == n.worker.flight.row.retryCount + 1)
  }

  ghost predicate Inv(c: Config, n: State) {
    RowsOk(c, n.rows) && WorkerOk(c, n.rows, n.worker) && LogOk(c, n)
  }

  lemma HasEvolves(t: seq<Row>, t': seq<Row>, id: string)
    requires Evolved(t, t') && Has(t, id)
    ensures Has(t', id)
  {
    var k :| 0 <= k < |t| && t[k].id == id;
    assert SameMessage(t[k], t'[k]);
  }

  /** The number of attempts of a row is the number of its last one. */
  lemma {:induction false} CountIsLastNumber(log: seq<Attempt>, id: string, bound: nat)
    requires Numbered(log)
    requires forall k :: 0 <= k < |log| ==> log[k].num <= bound
    ensures CountOf(log, id) <= bound
  {
    if log == [] {
    } else {
      var front := log[..|log| - 1];
      forall k | 0 <= k < |front| ensures NumberOk(front, k) {
        assert NumberOk(log, k) && front[..k] == log[..k];
      }
      assert NumberOk(log, |log| - 1);
      CountIsLastNumber(front, id, bound);
    }
  }

  lemma AppendKeepsOrder(log: seq<Attempt>, row: Row, now: int, ending: Ending)
    requires Numbered(log) && Spaced(log) && Settled(log, row) && Due(row, now) && row.retryCount >= 0
    ensures Numbered(log + [Attempt(row.id, row.retryCount + 1, now, ending)])
    ensures Spaced(log + [Attempt(row.id, row.retryCount + 1, now, ending)])
  {
    var log' := log + [Attempt(row.id, row.retryCount + 1, now, ending)];
    forall k | 0 <= k < |log'| ensures NumberOk(log', k) {
      assert log'[..k] == log[..k];
      assert k < |log| ==> NumberOk(log, k);
    }
    forall k, l | 0 <= k < l < |log'| && log'[k].id == log'[l].id && log'[l].num == log'[k].num + 1
      ensures log'[k].time + Backoff(log'[k].num) <= log'[l].time
    {
      if l == |log| {
        assert log[k].num == row.retryCount;
      }
    }
  }

  lemma AppendKeepsSettled(log: seq<Attempt>, e: Attempt, r: Row)
    requires Settled(log, r) && e.id != r.id
    ensures Settled(log + [e], r)
  {
    CountAppend(log, e, r.id);
  }

  lemma TakenRowIsStored(c: Config, n: State)
    requires WorkerOk(c, n.rows, n.worker) && CanTake(n)
    ensures RowOk(c, n.worker.todo[0]) && Has(n.rows, n.worker.todo[0].id)
    ensures forall i :: 0 < i < |n.worker.todo| ==> n.worker.todo[i].id != n.worker.todo[0].id
  {
    assert Pending(n.worker) == n.worker.todo;
    assert Tracks(n.rows, Pending(n.worker)[0]);
    hide RowOk;
  }

  /** The attempt itself, whatever its result. */
  lemma DeliverKeepsLog(c: Config, n: State, result: Option<AppError>, ending: Ending)
    requires Inv(c, n) && CanTake(n) && Due(n.worker.todo[0], n.clock) && n.worker.todo[0].retryCount >= 0
    ensures var row := n.worker.todo[0];
            LogOk(c, n.(worker := Polling(n.worker.todo[1..], Answered(row, result)),
                        attempts := n.attempts + [Attempt(row.id, row.retryCount + 1, n.clock, ending)]))
  {
    hide Numbered, Spaced, Due;
    var row := n.worker.todo[0];
    var e := Attempt(row.id, row.retryCount + 1, n.clock, ending);
    var n' := n.(worker := Polling(n.worker.todo[1..], Answered(row, result)), attempts := n.attempts + [e]);
    TakenRowIsStored(c, n);
    assert CountOf(n.attempts, row.id) == row.retryCount;
    hide RowsOk, WorkerOk, Settled, CountOf, Has;
    AppendKeepsOrder(n.attempts, row, n.clock, ending);
    CountAppend(n.attempts, e, row.id);
    forall k | 0 <= k < |n'.attempts| ensures EntryOk(c, n', n'.attempts[k]) {
      if k < |n.attempts| {
        assert EntryOk(c, n, n.attempts[k]);
      }
    }
    forall i | 0 <= i < |n'.worker.todo| ensures Settled(n'.attempts, n'.worker.todo[i]) {
      assert n'.worker.todo[i] == n.worker.todo[i + 1];
      AppendKeepsSettled(n.attempts, e, n'.worker.todo[i]);
    }
    forall i | 0 <= i < |n'.rows| && n'.rows[i].status == Queued && !InFlight(n'.worker, n'.rows[i].id)
      ensures Settled(n'.attempts, n'.rows[i])
    {
      AppendKeepsSettled(n.attempts, e, n.rows[i]);
    }
  }

  lemma EntriesStay(c: Config, n: State, n': State)
    requires n'.attempts == n.attempts && n'.clock >= n.clock && Evolved(n.rows, n'.rows)
    requires forall k :: 0 <= k < |n.attempts| ==> EntryOk(c, n, n.attempts[k])
    ensures forall k :: 0 <= k < |n.attempts| ==> EntryOk(c, n', n.attempts[k])
  {
    forall k | 0 <= k < |n.attempts| ensures EntryOk(c, n', n.attempts[k]) {
      assert EntryOk(c, n, n.attempts[k]);
      HasEvolves(n.rows, n'.rows, n.attempts[k].id);
    }
  }

  /** Booking leaves the log, the snapshot and the clock alone, and the row's second write in flight at most. */
  lemma BookedFlight(c: Config, n: State)
    requires Step(c, n, Book).Some?
    ensures var n' := Step(c, n, Book).value;
            && n'.attempts == n.attempts && n'.clock == n.clock && n.worker.Polling? && n'.worker.Polling?
            && n'.worker.todo == n.worker.todo && !n.worker.flight.Ready?
            && (n'.worker.flight.Ready? || n'.worker.flight.row == n.worker.flight.row)
  {
    hide SetStatus, SetRetry;
  }

  /** The next retry is later than the backoff of the attempt that is booked. */
  lemma SettledByBooking(c: Config, n: State, r: Row, r': Row)
    requires forall k :: 0 <= k < |n.attempts| ==> EntryOk(c, n, n.attempts[k])
    requires CountOf(n.attempts, r.id) == r.retryCount + 1 && r.retryCount >= 0 && r'.id == r.id
    requires r'.retryCount == r.retryCount + 1 && r'.nextRetry == Some(n.clock + Backoff(r'.retryCount))
    ensures Settled(n.attempts, r')
  {
    hide Backoff, CountOf;
    forall k | 0 <= k < |n.attempts| && n.attempts[k].id == r'.id && n.attempts[k].num == r'.retryCount
      ensures n.attempts[k].time + Backoff(n.attempts[k].num) <= r'.nextRetry.value
    {
      assert EntryOk(c, n, n.attempts[k]);
    }
  }

  lemma TakenCount(c: Config, n: State)
    requires WorkerOk(c, n.rows, n.worker) && n.worker.Polling? && !n.worker.flight.Ready?
    ensures n.worker.flight.row.retryCount >= 0
  {
    assert Pending(n.worker)[0] == n.worker.flight.row;
  }

  lemma BookedRowSettled(c: Config, n: State, i: nat)
    requires Inv(c, n) && Step(c, n, Book).Some? && i < |n.rows|
    requires var n' := Step(c, n, Book).value;
             |n'.rows| == |n.rows| && n'.rows[i].status == Queued && !InFlight(n'.worker, n'.rows[i].id)
    ensures Settled(n.attempts, Step(c, n, Book).value.rows[i])
  {
    hide Settled, Numbered, Spaced, EntryOk, CountOf, Backoff;
    BookedShape(c, n);
    BookedFlight(c, n);
    if n.rows[i].id == n.worker.flight.row.id {
      assert Pending(n.worker)[0] == n.worker.flight.row;
      PendingRow(c, n, 0, i);
      TakenCount(c, n);
      hide RowsOk, WorkerOk, Step;
      SettledByBooking(c, n, n.rows[i], Step(c, n, Book).value.rows[i]);
    } else {
      hide RowsOk, WorkerOk, Step;
    }
  }

  lemma BookKeepsLog(c: Config, n: State)
    requires Inv(c, n) && Step(c, n, Book).Some?
    ensures LogOk(c, Step(c, n, Book).value)
  {
    hide RowsOk, WorkerOk, Step, Evolved, Settled, Numbered, Spaced, EntryOk, CountOf;
    var n' := Step(c, n, Book).value;
    StepKeepsStore(c, n, Book);
    BookedShape(c, n);
    BookedFlight(c, n);
    EntriesStay(c, n, n');
    forall i | 0 <= i < |n'.rows| && n'.rows[i].status == Queued && !InFlight(n'.worker, n'.rows[i].id)
      ensures Settled(n'.attempts, n'.rows[i])
    {
      BookedRowSettled(c, n, i);
    }
  }

  /** A step that only adds rows and rewrites statuses keeps the log in step. */
  lemma OtherStepsKeepLog(c: Config, n: State, n': State)
    requires Inv(c, n)
    requires n'.attempts == n.attempts && n'.worker == n.worker && n'.clock >= n.clock
    requires Evolved(n.rows, n'.rows) && UniqueIds(n'.rows)
    requires forall i :: 0 <= i < |n.rows| ==> n'.rows[i] == n.rows[i].(status := n'.rows[i].status)
    requires forall i :: |n.rows| <= i < |n'.rows| ==> n'.rows[i].retryCount == 0
    ensures LogOk(c, n')
  {
    forall k | 0 <= k < |n.attempts| ensures EntryOk(c, n', n.attempts[k]) {
      assert EntryOk(c, n, n.attempts[k]);
      HasEvolves(n.rows, n'.rows, n.attempts[k].id);
    }
    forall i | 0 <= i < |n'.rows| && n'.rows[i].status == Queued && !InFlight(n'.worker, n'.rows[i].id)
      ensures Settled(n'.attempts, n'.rows[i])
    {
      if i < |n.rows| {
        assert Settled(n.attempts, n.rows[i]);
      } else {
        forall k | 0 <= k < |n.attempts| ensures n.attempts[k].id != n'.rows[i].id {
          assert EntryOk(c, n, n.attempts[k]);
          var l :| 0 <= l < |n.rows| && n.rows[l].id == n.attempts[k].id;
          assert n'.rows[l].id == n.rows[l].id;
        }
        CountZero(n.attempts, n'.rows[i].id);
      }
    }
  }

  lemma PollStepsKeepLog(c: Config, n: State, a: Action)
    requires Inv(c, n) && Step(c, n, a).Some?
    requires a.BeginPoll? || a.Skip? || a.EndPoll?
    ensures LogOk(c, Step(c, n, a).value)
  {
    var n' := Step(c, n, a).value;
    forall k | 0 <= k < |n.attempts| ensures EntryOk(c, n', n.attempts[k]) {
      assert EntryOk(c, n, n.attempts[k]);
    }
    if a.BeginPoll? {
      forall i | 0 <= i < |a.snapshot| ensures Settled(n.attempts, a.snapshot[i]) {
        assert a.snapshot[i] in n.rows;
      }
    } else if a.Skip? {
      assert forall i :: 0 <= i < |n'.worker.todo| ==> n'.worker.todo[i] == n.worker.todo[i + 1];
    }
  }

  lemma HandlersKeepLog(c: Config, n: State, a: Action)
    requires Inv(c, n) && Step(c, n, a).Some?
    requires a.ReceiveEnvelope? || a.ReceiveReceipt? || a.Transmit?
    ensures LogOk(c, Step(c, n, a).value)
  {
    StepKeepsStore(c, n, a);
    HandlersAddNewborns(c, n, a);
    OtherStepsKeepLog(c, n, Step(c, n, a).value);
  }

  lemma ClockKeepsLog(c: Config, n: State, now: int)
    requires Inv(c, n) && now >= n.clock
    ensures LogOk(c, n.(clock := now))
  {
    OtherStepsKeepLog(c, n, n.(clock := now));
  }

  /** The store invariant and the attempt log together survive every step. */
  lemma StepKeepsInv(c: Config, n: State, a: Action)
    requires Inv(c, n) && Step(c, n, a).Some?
    ensures Inv(c, Step(c, n, a).value)
  {
    hide LogOk, RowsOk, WorkerOk;
    StepKeepsStore(c, n, a);
    match a {
      case Advance(now) => ClockKeepsLog(c, n, now);
      case BeginPoll(_) => PollStepsKeepLog(c, n, a);
      case Skip => PollStepsKeepLog(c, n, a);
      case EndPoll => PollStepsKeepLog(c, n, a);
      case Deliver(partners, stamp, reply) =>
        var row := n.worker.todo[0];
        DeliverKeepsLog(c, n, DeliveryResult(c, partners, row, stamp, reply),
                        EndingOf(Plan(c, partners, row, stamp), reply));
      case Book => BookKeepsLog(c, n);
      case _ => HandlersKeepLog(c, n, a);
    }
  }

  lemma {:induction false} RunKeepsInv(c: Config, n: State, actions: seq<Action>)
    requires Inv(c, n) && Run(c, n, actions).Some?
    ensures Inv(c, Run(c, n, actions).value) && Evolved(n.rows, Run(c, n, actions).value.rows)
    decreases |actions|
  {
    if actions == [] {
    } else {
      var n' := Step(c, n, actions[0]).value;
      StepKeepsStore(c, n, actions[0]);
      StepKeepsInv(c, n, actions[0]);
      RunKeepsInv(c, n', actions[1..]);
      EvolvedTwice(n.rows, n'.rows, Run(c, n', actions[1..]).value.rows);
    }
  }

  /** Over every run of a node, under every interleaving and against every caller: ids stay unique; a
      QUEUED row is outbound, typed, and below the limit; no row gets more than MaxRetries attempts (one,
      if MaxRetries is below that); attempts k and k + 1 of a row are at least min(k*k, 60) minutes apart. */
  lemma AttemptsBoundedAndSpaced(c: Config, actions: seq<Action>, id: string)
    requires Run(c, INITIAL, actions).Some?
    ensures var n := Run(c, INITIAL, actions).value;
            && UniqueIds(n.rows)
            && (forall k :: 0 <= k < |n.rows| ==> n.rows[k].jobType != "")
            && (forall k :: 0 <= k < |n.rows| && n.rows[k].status == Queued ==>
                  n.rows[k].dir == Outbound && 0 <= n.rows[k].retryCount < Limit(c))
            && CountOf(n.attempts, id) <= Limit(c)
            && Numbered(n.attempts) && Spaced(n.attempts)
  {
    RunKeepsInv(c, INITIAL, actions);
    var n := Run(c, INITIAL, actions).value;
    assert forall k :: 0 <= k < |n.attempts| ==> EntryOk(c, n, n.attempts[k]);
    CountIsLastNumber(n.attempts, id, Limit(c));
  }

  /** Between any two moments of a run no row is removed, no message is rewritten and no row that has
      left the queue is back in it. */
  lemma RowsAreNeverRemovedOrRequeued(c: Config, before: seq<Action>, after: seq<Action>, k: nat)
    requires Run(c, INITIAL, before).Some?
    requires Run(c, Run(c, INITIAL, before).value, after).Some?
    requires k < |Run(c, INITIAL, before).value.rows|
    ensures var n := Run(c, INITIAL, before).value;
            var n' := Run(c, n, after).value;
            k < |n'.rows| && SameMessage(n.rows[k], n'.rows[k])
            && (n.rows[k].status != Queued ==> n'.rows[k].status != Queued)
  {
    RunKeepsInv(c, INITIAL, before);
    RunKeepsInv(c, Run(c, INITIAL, before).value, after);
  }
}

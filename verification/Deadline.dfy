/** When a row leaves the queue, whatever the network, the partners and the callers do: a bound in real time
    for a worker whose passes come often enough and end soon enough. */
module Deadline {
  import opened Basics
  import opened Errors
  import opened Messages
  import opened Delivery
  import opened Node

  // ----- the backoff in sum -----

  /** Total backoff, in minutes, after the first n failures. */
  function TotalMinutes(n: nat): nat {
    if n == 0 then 0 else TotalMinutes(n - 1) + BackoffMinutes(n)
  }

  /** n(n+1)(2n+1)/6, step by step. */
  lemma SquarePyramidStep(n: nat)
    ensures (n + 1) * (n + 2) * (2 * n + 3) == n * (n + 1) * (2 * n + 1) + 6 * (n + 1) * (n + 1)
  {
  }

  lemma {:induction false} TotalMinutesUpToSeven(n: nat)
    requires n <= 7
    ensures 6 * TotalMinutes(n) == n * (n + 1) * (2 * n + 1)
  {
    if n == 0 {
    } else {
      TotalMinutesUpToSeven(n - 1);
      SquarePyramidStep(n - 1);
      assert n * n <= 7 * n;
    }
  }

  lemma SixtyFromEight(n: nat)
    requires n >= 8
    ensures BackoffMinutes(n) == 60
  {
    assert n * n >= 8 * n;
  }

  /** The closed form of the total backoff; five attempts wait thirty minutes in all. */
  lemma {:induction false} TotalMinutesClosedForm(n: nat)
    ensures n <= 7 ==> TotalMinutes(n) == n * (n + 1) * (2 * n + 1) / 6
    ensures n >= 7 ==> TotalMinutes(n) == 140 + 60 * (n - 7)
    ensures TotalMinutes(4) == 30
  {
    TotalMinutesUpToSeven(4);
    if n <= 7 {
      TotalMinutesUpToSeven(n);
    } else {
      hide BackoffMinutes;
      TotalMinutesClosedForm(n - 1);
      SixtyFromEight(n);
    }
  }

  // ----- pace -----

  /** A new pass begins at most `gap` after the last one began, which was at `mark`, and a pass takes at
      most `span`. */
  predicate InTime(n: State, mark: int, gap: nat, span: nat) {
    n.clock <= mark + if n.worker.Idle? then gap else span
  }

  function MarkAfter(n: State, a: Action, mark: int): int {
    if a.BeginPoll? then n.clock else mark
  }

  /** The run keeps the pace at every moment. */
  ghost predicate Paced(c: Config, n: State, actions: seq<Action>, mark: int, gap: nat, span: nat)
    decreases |actions|
  {
    && InTime(n, mark, gap, span)
    && (actions != [] && Step(c, n, actions[0]).Some? ==>
          Paced(c, Step(c, n, actions[0]).value, actions[1..], MarkAfter(n, actions[0], mark), gap, span))
  }

  // ----- the schedule of a row -----

  /** The moment by which a row created at `birth` has had its k-th failure and its wait after it, when
      `turn` is the longest a due row waits for its attempt to be booked. */
  function LastWait(birth: int, turn: nat, k: nat): int {
    birth + k * turn + TotalMinutes(k) * MINUTE
  }

  lemma NextWait(birth: int, turn: nat, k: nat)
    ensures LastWait(birth, turn, k + 1) == LastWait(birth, turn, k) + turn + Backoff(k + 1)
  {
    assert (k + 1) * turn == k * turn + turn;
  }

  lemma {:induction false} WaitsGrow(birth: int, turn: nat, k: nat, l: nat)
    requires k <= l
    ensures LastWait(birth, turn, k) <= LastWait(birth, turn, l)
    decreases l
  {
    if k == l {
    } else {
      WaitsGrow(birth, turn, k, l - 1);
      NextWait(birth, turn, l - 1);
    }
  }

  function ReadyAt(r: Row): int {
    if r.nextRetry.None? then r.createdAt else r.nextRetry.value
  }

  ghost predicate IsPending(w: Worker, id: string) {
    exists k :: 0 <= k < |Pending(w)| && Pending(w)[k].id == id
  }

  /** A queued row gets ready as its schedule says, and no pass has passed over it since: it got ready
      after the current pass began, or, as long as the pass has still to deal with it, after the one before. */
  ghost predicate RowOnTime(w: Worker, r: Row, mark: int, gap: nat, span: nat) {
    r.status == Queued ==>
      && r.retryCount >= 0
      && ReadyAt(r) <= LastWait(r.createdAt, gap + span, r.retryCount)
      && mark <= ReadyAt(r) + if IsPending(w, r.id) then gap else 0
  }

  ghost predicate OnTime(n: State, mark: int, gap: nat, span: nat) {
    mark <= n.clock && forall i :: 0 <= i < |n.rows| ==> RowOnTime(n.worker, n.rows[i], mark, gap, span)
  }

  lemma BeginKeepsTime(c: Config, n: State, a: Action, mark: int, gap: nat, span: nat)
    requires OnTime(n, mark, gap, span) && InTime(n, mark, gap, span)
    requires a.BeginPoll? && Step(c, n, a).Some?
    ensures OnTime(Step(c, n, a).value, n.clock, gap, span)
  {
    hide LastWait;
    var n' := Step(c, n, a).value;
    forall i | 0 <= i < |n.rows| ensures RowOnTime(n'.worker, n.rows[i], n.clock, gap, span) {
      assert RowOnTime(n.worker, n.rows[i], mark, gap, span);
      if n.rows[i].status == Queued {
        assert n.rows[i] in a.snapshot;
        var k :| 0 <= k < |a.snapshot| && a.snapshot[k] == n.rows[i];
        assert Pending(n'.worker)[k].id == n.rows[i].id;
      }
    }
  }

  /** Dealing with its first row leaves the others pending. */
  lemma OthersStayPending(w: Worker, w': Worker, id: string)
    requires Pending(w) != [] && Pending(w)[0].id != id
    requires Pending(w') == Pending(w) || Pending(w') == Pending(w)[1..]
    ensures IsPending(w', id) <==> IsPending(w, id)
  {
    if Pending(w') == Pending(w)[1..] {
      if IsPending(w, id) {
        var k :| 0 <= k < |Pending(w)| && Pending(w)[k].id == id;
        assert Pending(w')[k - 1].id == id;
      }
      if IsPending(w', id) {
        var k :| 0 <= k < |Pending(w')| && Pending(w')[k].id == id;
        assert Pending(w)[k + 1].id == id;
      }
    }
  }

  lemma SkipKeepsTime(c: Config, n: State, mark: int, gap: nat, span: nat)
    requires RowsOk(c, n.rows) && WorkerOk(c, n.rows, n.worker)
    requires OnTime(n, mark, gap, span) && Step(c, n, Skip).Some?
    ensures OnTime(Step(c, n, Skip).value, mark, gap, span)
  {
    hide LastWait;
    var n' := Step(c, n, Skip).value;
    forall i | 0 <= i < |n.rows| ensures RowOnTime(n'.worker, n.rows[i], mark, gap, span) {
      assert RowOnTime(n.worker, n.rows[i], mark, gap, span);
      if n.rows[i].id == n.worker.todo[0].id {
        PendingRow(c, n, 0, i);
      } else {
        OthersStayPending(n.worker, n'.worker, n.rows[i].id);
      }
    }
  }

  /** A failed attempt is booked in time, and its backoff ends in time. */
  lemma RetryKeepsTime(n: State, w': Worker, r: Row, mark: int, gap: nat, span: nat, err: Option<ErrorCode>)
    requires mark <= n.clock && InTime(n, mark, gap, span) && !n.worker.Idle?
    requires r.status == Queued && RowOnTime(n.worker, r, mark, gap, span) && IsPending(n.worker, r.id)
    ensures var count := r.retryCount + 1;
            var r' := r.(retryCount := count, nextRetry := Some(n.clock + Backoff(count)), lastError := err);
            RowOnTime(w', r', mark, gap, span)
  {
    NextWait(r.createdAt, gap + span, r.retryCount);
    hide LastWait, Backoff;
  }

  lemma SameRowOnTime(w: Worker, w': Worker, r: Row, mark: int, gap: nat, span: nat)
    requires RowOnTime(w, r, mark, gap, span) && (IsPending(w', r.id) <==> IsPending(w, r.id))
    ensures RowOnTime(w', r, mark, gap, span)
  {
  }

  lemma NotQueuedOnTime(w: Worker, r: Row, mark: int, gap: nat, span: nat)
    requires r.status != Queued
    ensures RowOnTime(w, r, mark, gap, span)
  {
  }

  lemma BookKeepsTime(c: Config, n: State, mark: int, gap: nat, span: nat)
    requires RowsOk(c, n.rows) && WorkerOk(c, n.rows, n.worker)
    requires OnTime(n, mark, gap, span) && InTime(n, mark, gap, span) && Step(c, n, Book).Some?
    ensures OnTime(Step(c, n, Book).value, mark, gap, span)
  {
    hide RowsOk, WorkerOk, RowOnTime, LastWait, Backoff, InTime, Pending, SetStatus, SetRetry;
    BookedShape(c, n);
    var n', row := Step(c, n, Book).value, n.worker.flight.row;
    hide Step, BookStep;
    forall i | 0 <= i < |n'.rows| ensures RowOnTime(n'.worker, n'.rows[i], mark, gap, span) {
      assert RowOnTime(n.worker, n.rows[i], mark, gap, span);
      if n.rows[i].id != row.id {
        OthersStayPending(n.worker, n'.worker, n.rows[i].id);
        SameRowOnTime(n.worker, n'.worker, n.rows[i], mark, gap, span);
      } else if n'.rows[i].status == Queued {
        assert Pending(n.worker)[0].id == n.rows[i].id;
        RetryKeepsTime(n, n'.worker, n.rows[i], mark, gap, span, n'.rows[i].lastError);
      } else {
        NotQueuedOnTime(n'.worker, n'.rows[i], mark, gap, span);
      }
    }
  }

  lemma HandlersKeepTime(c: Config, n: State, a: Action, mark: int, gap: nat, span: nat)
    requires RowsOk(c, n.rows) && WorkerOk(c, n.rows, n.worker) && OnTime(n, mark, gap, span)
    requires a.ReceiveEnvelope? || a.ReceiveReceipt? || a.Transmit?
    requires Step(c, n, a).Some?
    ensures OnTime(Step(c, n, a).value, mark, gap, span)
  {
    StepKeepsStore(c, n, a);
    HandlersAddNewborns(c, n, a);
    hide Step, RowsOk, WorkerOk;
    var n' := Step(c, n, a).value;
    forall i | 0 <= i < |n'.rows| ensures RowOnTime(n'.worker, n'.rows[i], mark, gap, span) {
      if i < |n.rows| {
        assert RowOnTime(n.worker, n.rows[i], mark, gap, span);
        hide LastWait;
      } else {
        assert LastWait(n.clock, gap + span, 0) == n.clock;
      }
    }
  }

  lemma PendingStaysOnTime(c: Config, n: State, a: Action, mark: int, gap: nat, span: nat)
    requires OnTime(n, mark, gap, span) && Step(c, n, a).Some?
    requires a.Deliver? || a.Advance? || a.EndPoll?
    ensures OnTime(Step(c, n, a).value, mark, gap, span)
  {
    hide DeliveryResult, RowOnTime;
    var n' := Step(c, n, a).value;
    assert Pending(n'.worker) == Pending(n.worker);
    forall i | 0 <= i < |n'.rows| ensures RowOnTime(n'.worker, n'.rows[i], mark, gap, span) {
      assert RowOnTime(n.worker, n.rows[i], mark, gap, span);
      SameRowOnTime(n.worker, n'.worker, n.rows[i], mark, gap, span);
    }
  }

  lemma StepKeepsTime(c: Config, n: State, a: Action, mark: int, gap: nat, span: nat)
    requires RowsOk(c, n.rows) && WorkerOk(c, n.rows, n.worker)
    requires OnTime(n, mark, gap, span) && InTime(n, mark, gap, span) && Step(c, n, a).Some?
    ensures OnTime(Step(c, n, a).value, MarkAfter(n, a, mark), gap, span)
  {
    match a {
      case BeginPoll(_) => BeginKeepsTime(c, n, a, mark, gap, span);
      case Skip => SkipKeepsTime(c, n, mark, gap, span);
      case Book => BookKeepsTime(c, n, mark, gap, span);
      case Deliver(_, _, _) => PendingStaysOnTime(c, n, a, mark, gap, span);
      case Advance(_) => PendingStaysOnTime(c, n, a, mark, gap, span);
      case EndPoll => PendingStaysOnTime(c, n, a, mark, gap, span);
      case _ => HandlersKeepTime(c, n, a, mark, gap, span);
    }
  }

  /** A queued row is younger than its next wait and one more turn. */
  lemma QueuedIsYoung(n: State, i: nat, mark: int, gap: nat, span: nat)
    requires OnTime(n, mark, gap, span) && InTime(n, mark, gap, span)
    requires i < |n.rows| && n.rows[i].status == Queued
    ensures n.rows[i].retryCount >= 0
    ensures n.clock <= LastWait(n.rows[i].createdAt, gap + span, n.rows[i].retryCount) + gap + span
  {
    assert RowOnTime(n.worker, n.rows[i], mark, gap, span);
    hide LastWait;
    if n.worker.Idle? {
      assert !IsPending(n.worker, n.rows[i].id);
    }
  }

  lemma RowIsOk(c: Config, t: seq<Row>, i: nat)
    requires RowsOk(c, t) && i < |t|
    ensures RowOk(c, t[i])
  {
  }

  lemma {:induction false} RunKeepsTime(
    c: Config, n: State, actions: seq<Action>, mark: int, gap: nat, span: nat, i: nat)
    requires RowsOk(c, n.rows) && WorkerOk(c, n.rows, n.worker) && OnTime(n, mark, gap, span)
    requires Paced(c, n, actions, mark, gap, span) && Run(c, n, actions).Some?
    requires i < |Run(c, n, actions).value.rows| && Run(c, n, actions).value.rows[i].status == Queued
    ensures var n' := Run(c, n, actions).value;
            var r := n'.rows[i];
            RowOk(c, r) && n'.clock <= LastWait(r.createdAt, gap + span, r.retryCount) + gap + span
    decreases |actions|
  {
    hide Step, OnTime, InTime, LastWait, RowsOk, WorkerOk;
    if actions == [] {
      QueuedIsYoung(n, i, mark, gap, span);
      RowIsOk(c, n.rows, i);
    } else {
      var a, n' := actions[0], Step(c, n, actions[0]).value;
      StepKeepsStore(c, n, a);
      StepKeepsTime(c, n, a, mark, gap, span);
      RunKeepsTime(c, n', actions[1..], MarkAfter(n, a, mark), gap, span, i);
    }
  }

  /** The deadline. In every run of a node that keeps the pace, with every interleaving of its worker and its
      handlers and whatever its attempts meet: once the clock is past Limit turns, of a gap and a span each,
      plus the total backoff after a row's creation, the row is not queued. Passes at one instant are the
      case span == 0. */
  lemma LeavesQueueByDeadline(c: Config, actions: seq<Action>, gap: nat, span: nat, i: nat)
    requires Run(c, INITIAL, actions).Some? && Paced(c, INITIAL, actions, 0, gap, span)
    requires i < |Run(c, INITIAL, actions).value.rows|
    ensures var n := Run(c, INITIAL, actions).value;
            n.clock > n.rows[i].createdAt + Limit(c) * (gap + span) + TotalMinutes(Limit(c) - 1) * MINUTE
            ==> n.rows[i].status != Queued
  {
    hide Run, Paced;
    var r := Run(c, INITIAL, actions).value.rows[i];
    if r.status == Queued {
      RunKeepsTime(c, INITIAL, actions, 0, gap, span, i);
      WaitsGrow(r.createdAt, gap + span, r.retryCount, Limit(c) - 1);
      assert Limit(c) * (gap + span) == (Limit(c) - 1) * (gap + span) + (gap + span);
    }
  }

  /** With the default of five attempts the backoff part of the deadline is thirty minutes. */
  lemma DefaultDeadline(c: Config, actions: seq<Action>, gap: nat, span: nat, i: nat)
    requires c.maxRetries == 5
    requires Run(c, INITIAL, actions).Some? && Paced(c, INITIAL, actions, 0, gap, span)
    requires i < |Run(c, INITIAL, actions).value.rows|
    ensures var n := Run(c, INITIAL, actions).value;
            n.clock > n.rows[i].createdAt + 5 * (gap + span) + 30 * MINUTE ==> n.rows[i].status != Queued
  {
    hide Run, Paced;
    TotalMinutesClosedForm(4);
    LeavesQueueByDeadline(c, actions, gap, span, i);
  }
}

/** What becomes of a row, told from how its attempts went: over every run of a node, under every interleaving. */
module Fates {
  import opened Basics
  import opened Errors
  import opened Messages
  import opened Delivery
  import opened Handlers
  import opened Answers
  import opened Node
  import opened Retries
  import opened Attempts

  /** How the attempts at a row went, in order. */
  function EndingsOf(log: seq<Attempt>, id: string): seq<Ending> {
    if log == [] then []
    else EndingsOf(log[..|log| - 1], id) + if log[|log| - 1].id == id then [log[|log| - 1].ending] else []
  }

  lemma EndingsAppend(log: seq<Attempt>, e: Attempt, id: string)
    ensures EndingsOf(log + [e], id) == EndingsOf(log, id) + if e.id == id then [e.ending] else []
  {
    assert (log + [e])[..|log|] == log;
  }

  lemma {:induction false} EndingsOfStranger(log: seq<Attempt>, id: string)
    requires forall k :: 0 <= k < |log| ==> log[k].id != id
    ensures EndingsOf(log, id) == []
  {
    if log == [] {
    } else {
      EndingsOfStranger(log[..|log| - 1], id);
    }
  }

  lemma {:induction false} EndingsAreCounted(log: seq<Attempt>, id: string)
    ensures |EndingsOf(log, id)| == CountOf(log, id)
  {
    if log == [] {
    } else {
      EndingsAreCounted(log[..|log| - 1], id);
    }
  }

  lemma {:induction false} EndingsAreLogged(log: seq<Attempt>, id: string, x: Ending)
    requires x in EndingsOf(log, id)
    ensures exists k :: 0 <= k < |log| && log[k].id == id && log[k].ending == x
  {
    var front, last := log[..|log| - 1], log[|log| - 1];
    if x in EndingsOf(front, id) {
      EndingsAreLogged(front, id, x);
      var k :| 0 <= k < |front| && front[k].id == id && front[k].ending == x;
      assert log[k] == front[k];
    } else {
      assert log[|log| - 1].ending == x;
    }
  }

  /** No attempt got a positive answer, and none failed to be sent. */
  predicate AllUnanswered(o: seq<Ending>) {
    forall i :: 0 <= i < |o| ==> o[i] == Unanswered
  }

  /** All attempts but the last went unanswered. */
  predicate EndsWith(o: seq<Ending>, x: Ending) {
    o != [] && o[|o| - 1] == x && AllUnanswered(o[..|o| - 1])
  }

  /** QUEUED: every attempt so far went unanswered, and there are attempts left. DELIVERED: the last attempt was
      answered. FAILED: the last attempt could not be sent, or it was the last of Limit unanswered ones. */
  predicate Fate(c: Config, status: Status, o: seq<Ending>) {
    match status
    case Queued => AllUnanswered(o) && |o| < Limit(c)
    case Delivered => EndsWith(o, Succeeded) && |o| <= Limit(c)
    case Failed => |o| <= Limit(c) && (EndsWith(o, Unplanned) || (EndsWith(o, Unanswered) && |o| == Limit(c)))
    case _ => false
  }

  /** The attempt at this row has been made and waits to be booked. */
  predicate AwaitsBooking(w: Worker, id: string) {
    w.Polling? && w.flight.Answered? && w.flight.row.id == id
  }

  /** How an attempt went and the error it left, if any. */
  predicate Matches(x: Ending, result: Option<AppError>) {
    match x
    case Succeeded => result.None?
    case Unanswered => result == Some(New(Network))
    case Unplanned => result.Some? && !result.value.retryable
  }

  predicate RowFate(c: Config, w: Worker, log: seq<Attempt>, r: Row) {
    var o := EndingsOf(log, r.id);
    if AwaitsBooking(w, r.id) then
      r.status == Queued && o != [] && |o| == r.retryCount + 1 && AllUnanswered(o[..|o| - 1])
      && Matches(o[|o| - 1], w.flight.result)
    else
      Fate(c, r.status, o) && (r.status == Queued ==> |o| == r.retryCount)
  }

  ghost predicate RowsFated(c: Config, n: State) {
    forall i :: 0 <= i < |n.rows| && n.rows[i].dir == Outbound && n.rows[i].id !in n.named ==>
      RowFate(c, n.worker, n.attempts, n.rows[i])
  }

  /** A row of the snapshot that no receipt has named is still queued. */
  ghost predicate TodoQueued(n: State) {
    n.worker.Polling? ==>
      forall i, k :: 0 <= i < |n.rows| && 0 <= k < |n.worker.todo| && n.rows[i].id == n.worker.todo[k].id ==>
        n.rows[i].id in n.named || n.rows[i].status == Queued
  }

  ghost predicate Fated(c: Config, n: State) {
    RowsFated(c, n) && TodoQueued(n)
  }

  // ----- the attempt -----

  lemma EndingMatches(c: Config, partners: Partners, row: Row, stamp: string, reply: HttpReply)
    ensures Matches(EndingOf(Plan(c, partners, row, stamp), reply), DeliveryResult(c, partners, row, stamp, reply))
  {
    PlanErrorsAreFinal(c, partners, row, stamp);
    hide Plan;
  }

  lemma DeliverShape(c: Config, n: State, a: Action)
    requires a.Deliver? && Step(c, n, a).Some?
    ensures CanTake(n)
    ensures var row := n.worker.todo[0];
            var x := EndingOf(Plan(c, a.partners, row, a.stamp), a.reply);
            var result := DeliveryResult(c, a.partners, row, a.stamp, a.reply);
            Step(c, n, a).value
            == n.(worker := Polling(n.worker.todo[1..], Answered(row, result)),
                  attempts := n.attempts + [Attempt(row.id, row.retryCount + 1, n.clock, x)])
  {
    hide Plan, DeliveryResult, Due;
  }

  /** The row of the attempt awaits its booking, and the others keep their fate. */
  lemma TakenRowFate(c: Config, w: Worker, w': Worker, log: seq<Attempt>, e: Attempt, r: Row)
    requires RowFate(c, w, log, r) && w.Polling? && w.flight == Ready
    requires w'.Polling? && w'.flight.Answered? && w'.flight.row.id == e.id && Matches(e.ending, w'.flight.result)
    requires r.id == e.id ==> r.status == Queued
    ensures RowFate(c, w', log + [e], r)
  {
    EndingsAppend(log, e, r.id);
    hide EndingsOf, Limit;
    var o, o' := EndingsOf(log, r.id), EndingsOf(log + [e], r.id);
    if r.id == e.id {
      assert o' == o + [e.ending] && o'[..|o'| - 1] == o;
    } else {
      assert o' == o;
    }
  }

  lemma DeliverKeepsFate(c: Config, n: State, a: Action)
    requires Inv(c, n) && Fated(c, n) && a.Deliver? && Step(c, n, a).Some?
    ensures Fated(c, Step(c, n, a).value)
  {
    DeliverShape(c, n, a);
    hide Step, Inv, EndingOf, DeliveryResult, Plan, Matches, RowFate;
    var n', row := Step(c, n, a).value, n.worker.todo[0];
    EndingMatches(c, a.partners, row, a.stamp, a.reply);
    forall i | 0 <= i < |n.rows| && n.rows[i].dir == Outbound && n.rows[i].id !in n.named
      ensures RowFate(c, n'.worker, n'.attempts, n.rows[i])
    {
      assert RowFate(c, n.worker, n.attempts, n.rows[i]);
      assert n.rows[i].id == n.worker.todo[0].id ==> n.rows[i].status == Queued;
      TakenRowFate(c, n.worker, n'.worker, n.attempts, n'.attempts[|n.attempts|], n.rows[i]);
    }
    assert forall k :: 0 <= k < |n'.worker.todo| ==> n'.worker.todo[k] == n.worker.todo[k + 1];
  }

  // ----- the booking -----

  predicate BookedRow(c: Config, f: Flight, r: Row, r': Row)
    requires !f.Ready?
  {
    var k := f.row.retryCount + 1;
    match f
    case Answered(_, None) => r'.status == Delivered
    case Answered(_, Some(err)) =>
      if err.retryable && k < c.maxRetries then r'.status == r.status && r'.retryCount == k else r'.status == Failed
    case HalfFailed(_, _) => r'.status == r.status
  }

  /** What a booking step does, write by write. */
  lemma BookingShape(c: Config, n: State)
    requires Step(c, n, Book).Some?
    ensures var n' := Step(c, n, Book).value;
            && n.worker.Polling? && !n.worker.flight.Ready? && n'.worker.Polling? && !n'.worker.flight.Answered?
            && n'.worker.todo == n.worker.todo && n'.attempts == n.attempts && n'.named == n.named
            && |n'.rows| == |n.rows|
            && forall i :: 0 <= i < |n.rows| ==>
                 n'.rows[i].id == n.rows[i].id && n'.rows[i].dir == n.rows[i].dir
                 && if n.rows[i].id != n.worker.flight.row.id then n'.rows[i] == n.rows[i]
                    else BookedRow(c, n.worker.flight, n.rows[i], n'.rows[i])
  {
    hide Backoff;
  }

  /** The booked row has the fate its attempts deserve. */
  lemma BookedRowFate(c: Config, w: Worker, w': Worker, log: seq<Attempt>, r: Row, r': Row)
    requires w.Polling? && !w.flight.Ready? && r.id == w.flight.row.id == r'.id
    requires RowFate(c, w, log, r) && r.retryCount == w.flight.row.retryCount
    requires r.status == Queued ==> 0 <= r.retryCount < Limit(c)
    requires w.flight.HalfFailed? ==> r.status != Queued
    requires BookedRow(c, w.flight, r, r') && !AwaitsBooking(w', r.id)
    ensures RowFate(c, w', log, r')
  {
    hide EndingsOf;
    var o := EndingsOf(log, r.id);
    if w.flight.Answered? {
      assert o == o[..|o| - 1] + [o[|o| - 1]];
    }
  }

  lemma BookKeepsFate(c: Config, n: State)
    requires Inv(c, n) && Fated(c, n) && Step(c, n, Book).Some?
    ensures Fated(c, Step(c, n, Book).value)
  {
    BookingShape(c, n);
    hide Step, LogOk, BookedRow, Fate, EndingsOf;
    var n', row := Step(c, n, Book).value, n.worker.flight.row;
    OthersPending(n.worker);
    forall i | 0 <= i < |n.rows| && n.rows[i].dir == Outbound && n.rows[i].id !in n.named
      ensures RowFate(c, n'.worker, n'.attempts, n'.rows[i])
    {
      assert RowFate(c, n.worker, n.attempts, n.rows[i]);
      if n.rows[i].id == row.id {
        assert Pending(n.worker)[0] == row;
        PendingRow(c, n, 0, i);
        assert RowOk(c, n.rows[i]);
        BookedRowFate(c, n.worker, n'.worker, n.attempts, n.rows[i], n'.rows[i]);
      }
    }
  }

  // ----- the other steps -----

  lemma PollStepsKeepFate(c: Config, n: State, a: Action)
    requires Inv(c, n) && Fated(c, n) && Step(c, n, a).Some?
    requires a.Advance? || a.BeginPoll? || a.Skip? || a.EndPoll?
    ensures Fated(c, Step(c, n, a).value)
  {
    hide LogOk, WorkerOk, Fate, EndingsOf, Due;
    var n' := Step(c, n, a).value;
    forall i | 0 <= i < |n.rows| && n.rows[i].dir == Outbound && n.rows[i].id !in n.named
      ensures RowFate(c, n'.worker, n'.attempts, n'.rows[i])
    {
      assert RowFate(c, n.worker, n.attempts, n.rows[i]);
    }
    if a.BeginPoll? {
      forall i, k | 0 <= i < |n.rows| && 0 <= k < |a.snapshot| && n.rows[i].id == a.snapshot[k].id
        ensures n.rows[i].status == Queued
      {
        assert a.snapshot[k] in n.rows;
        var l :| 0 <= l < |n.rows| && n.rows[l] == a.snapshot[k];
        assert l == i;
      }
    } else if a.Skip? {
      assert forall k :: 0 <= k < |n'.worker.todo| ==> n'.worker.todo[k] == n.worker.todo[k + 1];
    }
  }

  /** A handler changes the status of a row only by a receipt that names it, and queues what it sends. */
  lemma HandlersSpareTheUnnamed(c: Config, n: State, a: Action)
    requires a.ReceiveEnvelope? || a.ReceiveReceipt? || a.Transmit?
    requires Step(c, n, a).Some? && forall i :: 0 <= i < |n.rows| ==> n.rows[i].id != ""
    ensures var n' := Step(c, n, a).value;
            && n.named <= n'.named && |n.rows| <= |n'.rows|
            && (forall i :: 0 <= i < |n.rows| && n.rows[i].id !in n'.named ==> n'.rows[i] == n.rows[i])
            && (forall i :: 0 <= i < |n.rows| ==> n'.rows[i].id == n.rows[i].id && n'.rows[i].dir == n.rows[i].dir)
            && (forall i :: |n.rows| <= i < |n'.rows| && n'.rows[i].dir == Outbound ==>
                  n'.rows[i].status == Queued && n'.rows[i].retryCount == 0)
  {
    hide Receive, Reconcile, Enqueue, ValidReceipt, DispositionOf, VerdictOf;
    match a {
      case ReceiveEnvelope(partners, body, jobId) =>
        ReceiveShape(c, partners, n.rows, body, jobId, n.clock);
        assert forall i :: 0 <= i < |n.rows| ==> Step(c, n, a).value.rows[..|n.rows|][i] == n.rows[i];
      case ReceiveReceipt(partners, receipt) => ReconcileShape(c, partners, n.rows, receipt, n.clock);
      case Transmit(req, id) =>
        EnqueueShape(n.rows, req, id, n.clock);
        assert forall i :: 0 <= i < |n.rows| ==> Step(c, n, a).value.rows[..|n.rows|][i] == n.rows[i];
    }
  }

  lemma NotPendingMeansNeither(w: Worker, id: string)
    requires forall k :: 0 <= k < |Pending(w)| ==> Pending(w)[k].id != id
    ensures !AwaitsBooking(w, id)
    ensures w.Polling? ==> forall k :: 0 <= k < |w.todo| ==> w.todo[k].id != id
  {
    if w.Polling? {
      forall k | 0 <= k < |w.todo| ensures w.todo[k].id != id {
        assert Pending(w)[if w.flight.Ready? then k else k + 1] == w.todo[k];
      }
      if !w.flight.Ready? {
        assert Pending(w)[0] == w.flight.row;
      }
    }
  }

  lemma NewRowFate(c: Config, n: State, n': State, i: nat)
    requires Inv(c, n) && UniqueIds(n'.rows) && |n.rows| <= i < |n'.rows|
    requires forall l :: 0 <= l < |n.rows| ==> n'.rows[l].id == n.rows[l].id
    requires n'.rows[i].status == Queued && n'.rows[i].retryCount == 0
    ensures RowFate(c, n.worker, n.attempts, n'.rows[i])
    ensures n.worker.Polling? ==> forall k :: 0 <= k < |n.worker.todo| ==> n.worker.todo[k].id != n'.rows[i].id
  {
    var id := n'.rows[i].id;
    forall k | 0 <= k < |n.attempts| ensures n.attempts[k].id != id {
      assert EntryOk(c, n, n.attempts[k]);
      var l :| 0 <= l < |n.rows| && n.rows[l].id == n.attempts[k].id;
      assert n'.rows[l].id == n.rows[l].id;
    }
    EndingsOfStranger(n.attempts, id);
    hide LogOk, RowsOk;
    forall k | 0 <= k < |Pending(n.worker)| ensures Pending(n.worker)[k].id != id {
      assert Tracks(n.rows, Pending(n.worker)[k]);
      var l :| 0 <= l < |n.rows| && n.rows[l].(status := Queued) == Pending(n.worker)[k];
      assert n'.rows[l].id == n.rows[l].id;
    }
    NotPendingMeansNeither(n.worker, id);
  }

  lemma TodoIsStored(c: Config, n: State, k: nat)
    requires Inv(c, n) && n.worker.Polling? && k < |n.worker.todo|
    ensures Has(n.rows, n.worker.todo[k].id)
  {
    var p := if n.worker.flight.Ready? then k else k + 1;
    assert Pending(n.worker)[p] == n.worker.todo[k];
    assert Tracks(n.rows, Pending(n.worker)[p]);
  }

  lemma HandlersKeepFate(c: Config, n: State, a: Action)
    requires Inv(c, n) && Fated(c, n) && Step(c, n, a).Some?
    requires a.ReceiveEnvelope? || a.ReceiveReceipt? || a.Transmit?
    ensures Fated(c, Step(c, n, a).value)
  {
    assert forall i :: 0 <= i < |n.rows| ==> RowOk(c, n.rows[i]);
    HandlersSpareTheUnnamed(c, n, a);
    HandlersAddNewborns(c, n, a);
    StepKeepsStore(c, n, a);
    var n' := Step(c, n, a).value;
    UniqueRows(c, n'.rows);
    hide Step, Inv, RowFate, RowsOk, WorkerOk, Evolved, Newborn;
    forall i | 0 <= i < |n'.rows| && n'.rows[i].dir == Outbound && n'.rows[i].id !in n'.named
      ensures RowFate(c, n'.worker, n'.attempts, n'.rows[i])
    {
      if i < |n.rows| {
        assert RowFate(c, n.worker, n.attempts, n.rows[i]);
      } else {
        NewRowFate(c, n, n', i);
      }
    }
    if n.worker.Polling? {
      forall i, k | |n.rows| <= i < |n'.rows| && 0 <= k < |n.worker.todo|
        ensures n'.rows[i].id != n.worker.todo[k].id
      {
        TodoIsStored(c, n, k);
        var l :| 0 <= l < |n.rows| && n.rows[l].id == n.worker.todo[k].id;
        assert n'.rows[l].id == n.rows[l].id;
      }
    }
  }

  lemma StepKeepsFate(c: Config, n: State, a: Action)
    requires Inv(c, n) && Fated(c, n) && Step(c, n, a).Some?
    ensures Fated(c, Step(c, n, a).value)
  {
    hide Inv, Fated, Step;
    match a {
      case Deliver(_, _, _) => DeliverKeepsFate(c, n, a);
      case Book => BookKeepsFate(c, n);
      case ReceiveEnvelope(_, _, _) => HandlersKeepFate(c, n, a);
      case ReceiveReceipt(_, _) => HandlersKeepFate(c, n, a);
      case Transmit(_, _) => HandlersKeepFate(c, n, a);
      case _ => PollStepsKeepFate(c, n, a);
    }
  }

  lemma {:induction false} RunKeepsFate(c: Config, n: State, actions: seq<Action>)
    requires Inv(c, n) && Fated(c, n) && Run(c, n, actions).Some?
    ensures Fated(c, Run(c, n, actions).value)
    decreases |actions|
  {
    hide Inv, Fated, Step;
    if actions == [] {
    } else {
      StepKeepsInv(c, n, actions[0]);
      StepKeepsFate(c, n, actions[0]);
      RunKeepsFate(c, Step(c, n, actions[0]).value, actions[1..]);
    }
  }

  /** A receipt that arrives in this step names the message. */
  ghost predicate ReceiptNames(c: Config, a: Action, id: string) {
    a.ReceiveReceipt?
    && (exists status :: NamesMessage(c, a.partners, a.receipt, id, status))
  }

  ghost predicate NamedInRun(c: Config, actions: seq<Action>, id: string) {
    exists k :: 0 <= k < |actions| && ReceiptNames(c, actions[k], id)
  }

  lemma StepNames(c: Config, n: State, a: Action, id: string)
    requires Step(c, n, a).Some? && id != ""
    ensures id in Step(c, n, a).value.named <==> id in n.named || ReceiptNames(c, a, id)
  {
    if a.ReceiveReceipt? {
      ReceiptReadsExactly(c, a.partners, a.receipt, id, "");
      hide NamesMessage, DispositionOf, ValidReceipt, Reconcile;
      if ValidReceipt(a.receipt) {
        ReceiptReadsExactly(c, a.partners, a.receipt, id, DispositionOf(c, a.partners, a.receipt).status);
      }
      forall status | NamesMessage(c, a.partners, a.receipt, id, status) ensures id in Step(c, n, a).value.named {
        ReceiptReadsExactly(c, a.partners, a.receipt, id, status);
      }
    }
  }

  /** The ids that are set down as named are those that receipts of the run named. */
  lemma {:induction false} NamedExactly(c: Config, n: State, actions: seq<Action>, id: string)
    requires Run(c, n, actions).Some? && id != ""
    ensures id in Run(c, n, actions).value.named <==> id in n.named || NamedInRun(c, actions, id)
    decreases |actions|
  {
    hide Step, ReceiptNames;
    if actions == [] {
    } else {
      StepNames(c, n, actions[0], id);
      NamedExactly(c, Step(c, n, actions[0]).value, actions[1..], id);
      assert forall k :: 0 < k < |actions| ==> actions[k] == actions[1..][k - 1];
      if NamedInRun(c, actions[1..], id) {
        var k :| 0 <= k < |actions[1..]| && ReceiptNames(c, actions[1..][k], id);
        assert ReceiptNames(c, actions[k + 1], id);
      }
    }
  }

  lemma FateUnfolds(c: Config, status: Status, o: seq<Ending>)
    requires Fate(c, status, o)
    ensures status == Queued <==> AllUnanswered(o) && |o| < Limit(c)
    ensures status == Delivered <==> EndsWith(o, Succeeded)
    ensures status == Failed <==> EndsWith(o, Unplanned) || (EndsWith(o, Unanswered) && |o| == Limit(c))
    ensures |o| <= Limit(c)
  {
    if o != [] {
      assert o == o[..|o| - 1] + [o[|o| - 1]];
    }
  }

  /** The fate of every outbound row that no receipt of the run named and whose last attempt is booked, over
      every run: it is QUEUED exactly while all its attempts have gone unanswered and it has some left,
      DELIVERED exactly after a positive answer, and FAILED exactly after an attempt that could not be sent or
      after Limit attempts without a positive answer, neither sooner nor later. */
  lemma FateOfARow(c: Config, actions: seq<Action>, i: nat)
    requires Run(c, INITIAL, actions).Some? && i < |Run(c, INITIAL, actions).value.rows|
    requires var n := Run(c, INITIAL, actions).value;
             && n.rows[i].dir == Outbound && !NamedInRun(c, actions, n.rows[i].id)
             && !AwaitsBooking(n.worker, n.rows[i].id)
    ensures var n := Run(c, INITIAL, actions).value;
            var o := EndingsOf(n.attempts, n.rows[i].id);
            && (n.rows[i].status == Queued <==> AllUnanswered(o) && |o| < Limit(c))
            && (n.rows[i].status == Delivered <==> EndsWith(o, Succeeded))
            && (n.rows[i].status == Failed <==>
                  EndsWith(o, Unplanned) || (EndsWith(o, Unanswered) && |o| == Limit(c)))
            && |o| <= Limit(c)
  {
    RunKeepsFate(c, INITIAL, actions);
    RunKeepsInv(c, INITIAL, actions);
    assert RowOk(c, Run(c, INITIAL, actions).value.rows[i]);
    NamedExactly(c, INITIAL, actions, Run(c, INITIAL, actions).value.rows[i].id);
    hide Run, NamedInRun, Fate, EndingsOf, TodoQueued, LogOk, WorkerOk;
    var n := Run(c, INITIAL, actions).value;
    assert RowFate(c, n.worker, n.attempts, n.rows[i]);
    FateUnfolds(c, n.rows[i].status, EndingsOf(n.attempts, n.rows[i].id));
  }

  /** A row whose attempts are all sent and all go unanswered is FAILED after exactly Limit of them, and queued
      before. */
  lemma UnansweredRowGetsAllItsAttempts(c: Config, actions: seq<Action>, i: nat)
    requires Run(c, INITIAL, actions).Some? && i < |Run(c, INITIAL, actions).value.rows|
    requires var n := Run(c, INITIAL, actions).value;
             && n.rows[i].dir == Outbound && !NamedInRun(c, actions, n.rows[i].id)
             && !AwaitsBooking(n.worker, n.rows[i].id)
             && forall k :: 0 <= k < |n.attempts| && n.attempts[k].id == n.rows[i].id ==>
                  n.attempts[k].ending == Unanswered
    ensures var n := Run(c, INITIAL, actions).value;
            var count := CountOf(n.attempts, n.rows[i].id);
            && (n.rows[i].status == Failed <==> count == Limit(c))
            && (n.rows[i].status == Queued <==> count < Limit(c))
  {
    FateOfARow(c, actions, i);
    hide Run;
    var n := Run(c, INITIAL, actions).value;
    var o := EndingsOf(n.attempts, n.rows[i].id);
    EndingsAreCounted(n.attempts, n.rows[i].id);
    forall k | 0 <= k < |o| ensures o[k] == Unanswered {
      EndingsAreLogged(n.attempts, n.rows[i].id, o[k]);
    }
    hide EndingsOf, CountOf;
  }
}

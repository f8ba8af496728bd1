/** How many attempts a node may still make: every row that can be attempted again holds one credit for
    each attempt it has left, and an attempt spends one. */
module Credit {
  import opened Basics
  import opened Errors
  import opened Messages
  import opened Delivery
  import opened Handlers
  import opened Node
  import opened Admission

  predicate InTodo(w: Worker, id: string) {
    w.Polling? && exists k :: 0 <= k < |w.todo| && w.todo[k].id == id
  }

  predicate AwaitsBooking(w: Worker, id: string) {
    w.Polling? && w.flight.Answered? && w.flight.row.id == id
  }

  /** The attempts a row has left: none once it has left both the queue and the snapshot. */
  function CreditOf(c: Config, w: Worker, r: Row): int {
    if AwaitsBooking(w, r.id) then Limit(c) - r.retryCount - 1
    else if r.status == Queued || InTodo(w, r.id) then Limit(c) - r.retryCount
    else 0
  }

  function Credits(c: Config, w: Worker, t: seq<Row>): seq<int> {
    seq(|t|, k requires 0 <= k < |t| => CreditOf(c, w, t[k]))
  }

  /** The attempts made, and those that may still be. */
  function Balance(c: Config, n: State): int {
    |n.attempts| + Sum(Credits(c, n.worker, n.rows))
  }

  /** A row in the snapshot is as far as the snapshot says. */
  lemma SnapshotCount(c: Config, n: State, s: Row, k: nat)
    requires RowsOk(c, n.rows) && WorkerOk(c, n.rows, n.worker) && s in Pending(n.worker)
    requires k < |n.rows| && n.rows[k].id == s.id
    ensures n.rows[k].retryCount == s.retryCount < Limit(c)
  {
    var i :| 0 <= i < |Pending(n.worker)| && Pending(n.worker)[i] == s;
    assert Tracks(n.rows, Pending(n.worker)[i]) && RowOk(c, s);
    var l :| 0 <= l < |n.rows| && n.rows[l].(status := Queued) == s;
    assert l == k;
  }

  lemma TodoIsPending(w: Worker, i: nat)
    requires w.Polling? && i < |w.todo|
    ensures w.todo[i] in Pending(w)
  {
    if !w.flight.Ready? {
      assert Pending(w)[i + 1] == w.todo[i];
    }
  }

  lemma CreditsNonNegative(c: Config, n: State)
    requires RowsOk(c, n.rows) && WorkerOk(c, n.rows, n.worker)
    ensures forall k :: 0 <= k < |n.rows| ==> CreditOf(c, n.worker, n.rows[k]) >= 0
  {
    forall k | 0 <= k < |n.rows| ensures CreditOf(c, n.worker, n.rows[k]) >= 0 {
      var r := n.rows[k];
      if AwaitsBooking(n.worker, r.id) {
        assert Pending(n.worker)[0] == n.worker.flight.row;
        SnapshotCount(c, n, n.worker.flight.row, k);
      } else if InTodo(n.worker, r.id) {
        var i :| 0 <= i < |n.worker.todo| && n.worker.todo[i].id == r.id;
        TodoIsPending(n.worker, i);
        SnapshotCount(c, n, n.worker.todo[i], k);
      }
    }
  }

  /** If no old row gains credit, the credits grow by what the new rows bring. */
  lemma CreditsBounded(c: Config, w: Worker, t: seq<Row>, w': Worker, t': seq<Row>, extra: nat)
    requires |t| <= |t'| <= |t| + 2
    requires forall k :: 0 <= k < |t| ==> CreditOf(c, w', t'[k]) <= CreditOf(c, w, t[k])
    requires |t'| == |t| + 1 ==> CreditOf(c, w', t'[|t|]) <= extra
    requires |t'| == |t| + 2 ==> CreditOf(c, w', t'[|t|]) + CreditOf(c, w', t'[|t| + 1]) <= extra
    ensures Sum(Credits(c, w', t')) <= Sum(Credits(c, w, t)) + extra
  {
    var s, s' := Credits(c, w, t), Credits(c, w', t');
    assert s' == s'[..|t|] + s'[|t|..];
    SumAppend(s'[..|t|], s'[|t|..]);
    SumMonotone(s'[..|t|], s);
    var rest := s'[|t|..];
    if |rest| == 1 {
      assert rest[1..] == [];
      assert Sum(rest) == CreditOf(c, w', t'[|t|]);
    } else if |rest| == 2 {
      assert rest[1..] == [rest[1]] && rest[1..][1..] == [];
      assert Sum(rest) == rest[0] + Sum(rest[1..]);
      assert Sum(rest[1..]) == rest[1];
      assert Sum(rest) == CreditOf(c, w', t'[|t|]) + CreditOf(c, w', t'[|t| + 1]);
    } else {
      assert rest == [];
    }
  }

  lemma TakenRowAt(c: Config, n: State) returns (at: nat)
    requires RowsOk(c, n.rows) && WorkerOk(c, n.rows, n.worker) && CanTake(n)
    ensures at < |n.rows| && n.rows[at].id == n.worker.todo[0].id
    ensures forall k :: 0 <= k < |n.rows| && n.rows[k].id == n.worker.todo[0].id ==> k == at
  {
    assert Pending(n.worker)[0] == n.worker.todo[0];
    assert Tracks(n.rows, Pending(n.worker)[0]);
    at :| 0 <= at < |n.rows| && n.rows[at].(status := Queued) == n.worker.todo[0];
  }

  /** An attempt spends a credit of its row, and no other row gains one. */
  lemma TakingSpends(c: Config, todo: seq<Row>, result: Option<AppError>, r: Row)
    requires todo != []
    ensures var w, w' := Polling(todo, Ready), Polling(todo[1..], Answered(todo[0], result));
            CreditOf(c, w', r) + (if r.id == todo[0].id then 1 else 0) <= CreditOf(c, w, r) || CreditOf(c, w, r) < 0
  {
    hide Limit;
    if exists k :: 0 <= k < |todo[1..]| && todo[1..][k].id == r.id {
      var k :| 0 <= k < |todo[1..]| && todo[1..][k].id == r.id;
      assert todo[k + 1].id == r.id;
    }
    if r.id == todo[0].id {
      assert InTodo(Polling(todo, Ready), r.id);
    }
  }

  /** An attempt spends a credit of its row. */
  lemma DeliverSpends(c: Config, n: State, a: Action)
    requires RowsOk(c, n.rows) && WorkerOk(c, n.rows, n.worker) && a.Deliver? && Step(c, n, a).Some?
    ensures Balance(c, Step(c, n, a).value) <= Balance(c, n)
  {
    hide DeliveryResult, Due, CreditOf;
    CreditsNonNegative(c, n);
    var at := TakenRowAt(c, n);
    hide RowsOk, WorkerOk;
    var todo := n.worker.todo;
    var w' := Step(c, n, a).value.worker;
    forall k | 0 <= k < |n.rows| ensures CreditOf(c, w', n.rows[k]) <= CreditOf(c, n.worker, n.rows[k]) {
      TakingSpends(c, todo, w'.flight.result, n.rows[k]);
    }
    TakingSpends(c, todo, w'.flight.result, n.rows[at]);
    hide Sum;
    SumDrop(Credits(c, w', n.rows), Credits(c, n.worker, n.rows), at, 1);
  }

  lemma BookSpends(c: Config, n: State)
    requires RowsOk(c, n.rows) && WorkerOk(c, n.rows, n.worker) && n.worker.Polling? && BookStep(c, n).Some?
    ensures Balance(c, BookStep(c, n).value) <= Balance(c, n)
  {
    var n' := BookStep(c, n).value;
    var row := n.worker.flight.row;
    CreditsNonNegative(c, n);
    assert Pending(n.worker)[0] == row;
    forall k | 0 <= k < |n.rows| ensures CreditOf(c, n'.worker, n'.rows[k]) <= CreditOf(c, n.worker, n.rows[k]) {
      if n.rows[k].id == row.id {
        SnapshotCount(c, n, row, k);
        forall i | 0 <= i < |n.worker.todo| ensures n.worker.todo[i].id != row.id {
          assert Pending(n.worker)[i + 1] == n.worker.todo[i];
        }
        assert !InTodo(n.worker, row.id) && !InTodo(n'.worker, row.id);
      } else {
        assert InTodo(n'.worker, n.rows[k].id) == InTodo(n.worker, n.rows[k].id);
      }
    }
    CreditsBounded(c, n.worker, n.rows, n'.worker, n'.rows, 0);
  }

  lemma SnapshotIsQueued(t: seq<Row>, snapshot: seq<Row>, k: nat)
    requires UniqueIds(t) && IsListing(t, Queued, snapshot) && k < |t| && InTodo(Polling(snapshot, Ready), t[k].id)
    ensures t[k].status == Queued
  {
    var i :| 0 <= i < |snapshot| && snapshot[i].id == t[k].id;
    assert snapshot[i] in t;
    var l :| 0 <= l < |t| && t[l] == snapshot[i];
    assert l == k;
  }

  lemma SkippingShrinks(todo: seq<Row>, id: string)
    requires todo != [] && InTodo(Polling(todo[1..], Ready), id)
    ensures InTodo(Polling(todo, Ready), id)
  {
    var i :| 0 <= i < |todo[1..]| && todo[1..][i].id == id;
    assert todo[i + 1].id == id;
  }

  lemma IdleHasNoTodo(id: string)
    ensures !InTodo(Idle, id)
  {
  }

  lemma PollStepsSpend(c: Config, n: State, a: Action)
    requires RowsOk(c, n.rows) && WorkerOk(c, n.rows, n.worker) && Step(c, n, a).Some?
    requires a.BeginPoll? || a.Skip? || a.EndPoll? || a.Advance?
    ensures Balance(c, Step(c, n, a).value) <= Balance(c, n)
  {
    hide Due, Limit, Sum, IsListing, InTodo, WorkerOk;
    CreditsNonNegative(c, n);
    var n' := Step(c, n, a).value;
    assert UniqueIds(n.rows);
    hide RowsOk;
    forall k | 0 <= k < |n.rows| ensures CreditOf(c, n'.worker, n.rows[k]) <= CreditOf(c, n.worker, n.rows[k]) {
      if InTodo(n'.worker, n.rows[k].id) {
        if a.BeginPoll? {
          SnapshotIsQueued(n.rows, a.snapshot, k);
        } else if a.Skip? {
          SkippingShrinks(n.worker.todo, n.rows[k].id);
        } else if a.EndPoll? {
          IdleHasNoTodo(n.rows[k].id);
        }
      }
    }
    CreditsBounded(c, n.worker, n.rows, n'.worker, n'.rows, 0);
  }

  lemma NewIdIsNotPending(c: Config, n: State, t: seq<Row>, k: nat)
    requires WorkerOk(c, n.rows, n.worker) && UniqueIds(t) && |n.rows| <= k < |t|
    requires forall l :: 0 <= l < |n.rows| ==> t[l].id == n.rows[l].id
    ensures !AwaitsBooking(n.worker, t[k].id) && !InTodo(n.worker, t[k].id)
  {
    forall i | 0 <= i < |Pending(n.worker)| ensures Pending(n.worker)[i].id != t[k].id {
      assert Tracks(n.rows, Pending(n.worker)[i]);
      var l :| 0 <= l < |n.rows| && n.rows[l].(status := Queued) == Pending(n.worker)[i];
      assert t[l].id == n.rows[l].id;
    }
    if n.worker.Polling? {
      if n.worker.flight.Answered? {
        assert Pending(n.worker)[0] == n.worker.flight.row;
      }
      forall i | 0 <= i < |n.worker.todo| ensures n.worker.todo[i].id != t[k].id {
        TodoIsPending(n.worker, i);
      }
    }
  }

  /** What a handler's step brings: a queued row brings its full credit, any other new row none. */
  lemma HandlerBrings(c: Config, n: State, t: seq<Row>, extra: nat)
    requires RowsOk(c, n.rows) && WorkerOk(c, n.rows, n.worker) && UniqueIds(t)
    requires |n.rows| <= |t| <= |n.rows| + 2
    requires forall k :: 0 <= k < |n.rows| ==>
      t[k] == n.rows[k].(status := t[k].status) && (t[k].status == Queued ==> n.rows[k].status == Queued)
    requires forall k :: |n.rows| <= k < |t| ==> t[k].retryCount == 0
    requires |t| == |n.rows| + 1 ==> t[|n.rows|].status != Queued || extra >= Limit(c)
    requires |t| == |n.rows| + 2 ==> t[|n.rows|].status != Queued && extra >= Limit(c)
    ensures Balance(c, n.(rows := t)) <= Balance(c, n) + extra
  {
    CreditsNonNegative(c, n);
    forall k | |n.rows| <= k < |t|
      ensures !AwaitsBooking(n.worker, t[k].id) && !InTodo(n.worker, t[k].id)
    {
      NewIdIsNotPending(c, n, t, k);
    }
    CreditsBounded(c, n.worker, n.rows, n.worker, t, extra);
  }

  /** An envelope brings the credit of one job, if it is accepted and wants a receipt. */
  lemma ReceiveBrings(c: Config, n: State, partners: Partners, body: InboundBody, jobId: string)
    requires RowsOk(c, n.rows) && WorkerOk(c, n.rows, n.worker)
    requires Fresh(n.rows, jobId) && (body.Envelope? ==> body.env.routing.messageId != jobId)
    ensures var (t, answer) := Receive(c, partners, n.rows, body, jobId, n.clock);
            Balance(c, n.(rows := t)) <= Balance(c, n) + if answer.code == ACCEPTED then Limit(c) else 0
  {
    var (t, answer) := Receive(c, partners, n.rows, body, jobId, n.clock);
    ReceiveExactly(c, partners, n.rows, body, jobId, n.clock);
    ReceiveKeepsRows(c, partners, n.rows, body, jobId, n.clock);
    if answer.code == ACCEPTED {
      AcceptedRows(c, partners, n.rows, body.env, jobId, n.clock);
    } else if answer.code == UNAUTHORIZED {
      assert t == n.rows + [t[|n.rows|]];
      assert forall k :: 0 <= k < |n.rows| ==> t[k] == t[..|n.rows|][k];
      assert t[|n.rows|] == Stamped(InboundRow(c, partners, body.env, n.clock));
    }
    hide Receive;
    HandlerBrings(c, n, t, if answer.code == ACCEPTED then Limit(c) else 0);
  }

  lemma ReconcileBrings(c: Config, n: State, partners: Partners, body: ReceiptBody)
    requires RowsOk(c, n.rows) && WorkerOk(c, n.rows, n.worker)
    ensures Balance(c, n.(rows := Reconcile(c, partners, n.rows, body, n.clock).0)) <= Balance(c, n)
  {
    hide Reconcile, Balance, WorkerOk, Tracks, ValidReceipt, DispositionOf, VerdictOf;
    ReconcileKeepsRows(c, partners, n.rows, body, n.clock);
    ReconcileShape(c, partners, n.rows, body, n.clock);
    HandlerBrings(c, n, Reconcile(c, partners, n.rows, body, n.clock).0, 0);
  }

  lemma EnqueueBrings(c: Config, n: State, req: TransmitRequest, id: string)
    requires RowsOk(c, n.rows) && WorkerOk(c, n.rows, n.worker)
    ensures Balance(c, n.(rows := Enqueue(n.rows, req, id, n.clock).0)) <= Balance(c, n) + Limit(c)
  {
    InsertKeepsRows(c, n.rows, NewRow(id, Outbound, Queued, TransmitText(req, Absent), n.clock));
    HandlerBrings(c, n, Enqueue(n.rows, req, id, n.clock).0, Limit(c));
  }

  lemma BalanceIgnoresHistory(c: Config, n: State, receptions: seq<Reception>, named: set<string>)
    ensures Balance(c, n.(receptions := receptions, named := named)) == Balance(c, n)
  {
  }

  /** The balance of a node: only enqueueing and acceptance raise it, by one row's worth of attempts. */
  lemma StepBalance(c: Config, n: State, a: Action)
    requires RowsOk(c, n.rows) && WorkerOk(c, n.rows, n.worker) && Step(c, n, a).Some?
    ensures var n' := Step(c, n, a).value;
            Balance(c, n') <= Balance(c, n)
              + if a.Transmit? then Limit(c)
                else if a.ReceiveEnvelope?
                        && Receive(c, a.partners, n.rows, a.body, a.jobId, n.clock).1.code == ACCEPTED then Limit(c)
                else 0
  {
    hide RowsOk, WorkerOk, Balance, Receive, Reconcile, Enqueue;
    match a {
      case Deliver(_, _, _) => DeliverSpends(c, n, a);
      case Book => BookSpends(c, n);
      case ReceiveEnvelope(partners, body, jobId) =>
        ReceiveBrings(c, n, partners, body, jobId);
        var (t, answer) := Receive(c, partners, n.rows, body, jobId, n.clock);
        BalanceIgnoresHistory(c, n.(rows := t), Step(c, n, a).value.receptions, n.named);
      case ReceiveReceipt(partners, receipt) =>
        ReconcileBrings(c, n, partners, receipt);
        var t := Reconcile(c, partners, n.rows, receipt, n.clock).0;
        BalanceIgnoresHistory(c, n.(rows := t), n.receptions, Step(c, n, a).value.named);
      case Transmit(req, id) => EnqueueBrings(c, n, req, id);
      case _ => PollStepsSpend(c, n, a);
    }
  }

  /** What is left is never negative, so the attempts made never exceed the balance. */
  lemma AttemptsWithinBalance(c: Config, n: State)
    requires RowsOk(c, n.rows) && WorkerOk(c, n.rows, n.worker)
    ensures |n.attempts| <= Balance(c, n)
  {
    CreditsNonNegative(c, n);
    SumNonNegative(Credits(c, n.worker, n.rows));
  }
}

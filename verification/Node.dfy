/** One node as a step system: the poll pass of its worker works from a snapshot, and every other
    step of the node may fall between two deliveries, between a delivery and its booking, or between
    the two writes of a final failure. Whoever calls the node is arbitrary. */
module Node {
  import opened Basics
  import opened Errors
  import opened Messages
  import opened Delivery
  import opened Handlers

  /** Where the worker is with the row it took last. */
  datatype Flight = Ready | Answered(row: Row, result: Option<AppError>) | HalfFailed(row: Row, err: AppError)

  datatype Worker = Idle | Polling(todo: seq<Row>, flight: Flight)

  /** How an attempt went: nothing could be sent, nothing but a negative answer came back, or a positive one. */
  datatype Ending = Unplanned | Unanswered | Succeeded

  /** The num-th delivery attempt of a row. */
  datatype Attempt = Attempt(id: string, num: nat, time: int, ending: Ending)

  /** An envelope, the status code it was answered with, and the partner table that was consulted. */
  datatype Reception = Reception(env: FidexEnvelope, code: int, known: Partners)

  /** The table, the worker, the clock, and the history of attempts, of answers and of ids that receipts named. */
  datatype State = State(
    rows: seq<Row>, worker: Worker, clock: int, attempts: seq<Attempt>, receptions: seq<Reception>, named: set<string>)

  datatype Action =
    | Advance(now: int)
    | BeginPoll(snapshot: seq<Row>)
    | Skip
    | Deliver(partners: Partners, stamp: string, reply: HttpReply)
    | Book
    | EndPoll
    | ReceiveEnvelope(partners: Partners, body: InboundBody, jobId: string)
    | ReceiveReceipt(partners: Partners, receipt: ReceiptBody)
    | Transmit(req: TransmitRequest, id: string)

  const INITIAL := State([], Idle, 0, [], [], {})

  predicate Fresh(t: seq<Row>, id: string) {
    id != "" && !Has(t, id)
  }

  predicate CanTake(n: State) {
    n.worker.Polling? && n.worker.todo != [] && n.worker.flight == Ready
  }

  function EndingOf(plan: Result<Post, AppError>, reply: HttpReply): Ending {
    if plan.Err? then Unplanned
    else if reply.Reply? && 200 <= reply.code <= 299 then Succeeded
    else Unanswered
  }

  /** The writes that follow an attempt, one per step. */
  function BookStep(c: Config, n: State): Option<State>
    requires n.worker.Polling?
  {
    var todo := n.worker.todo;
    match n.worker.flight
    case Ready => None
    case Answered(row, None) =>
      Some(n.(rows := SetStatus(n.rows, row.id, Delivered), worker := Polling(todo, Ready)))
    case Answered(row, Some(err)) =>
      if row.retryCount < 0 then None
      else if ShouldRetry(c, row.retryCount + 1, err) then
        var count := row.retryCount + 1;
        Some(n.(rows := SetRetry(n.rows, row.id, count, Some(n.clock + Backoff(count)), err.code),
                worker := Polling(todo, Ready)))
      else
        Some(n.(rows := SetStatus(n.rows, row.id, Failed), worker := Polling(todo, HalfFailed(row, err))))
    case HalfFailed(row, err) =>
      Some(n.(rows := SetRetry(n.rows, row.id, row.retryCount + 1, None, err.code), worker := Polling(todo, Ready)))
  }

  /** One step; None where the step is not possible. */
  ghost function Step(c: Config, n: State, a: Action): Option<State> {
    match a
    case Advance(now) => if now < n.clock then None else Some(n.(clock := now))
    case BeginPoll(snapshot) =>
      if n.worker == Idle && IsListing(n.rows, Queued, snapshot)
      then Some(n.(worker := Polling(snapshot, Ready))) else None
    case Skip =>
      if CanTake(n) && !Due(n.worker.todo[0], n.clock)
      then Some(n.(worker := Polling(n.worker.todo[1..], Ready))) else None
    case Deliver(partners, stamp, reply) =>
      if CanTake(n) && Due(n.worker.todo[0], n.clock) && n.worker.todo[0].retryCount >= 0 then
        var row := n.worker.todo[0];
        Some(n.(worker := Polling(n.worker.todo[1..], Answered(row, DeliveryResult(c, partners, row, stamp, reply))),
                attempts := n.attempts + [Attempt(row.id, row.retryCount + 1, n.clock,
                                                  EndingOf(Plan(c, partners, row, stamp), reply))]))
      else None
    case Book => if n.worker.Polling? then BookStep(c, n) else None
    case EndPoll => if n.worker == Polling([], Ready) then Some(n.(worker := Idle)) else None
    case ReceiveEnvelope(partners, body, jobId) =>
      if Fresh(n.rows, jobId) && (body.Envelope? ==> body.env.routing.messageId != jobId) then
        var (t, answer) := Receive(c, partners, n.rows, body, jobId, n.clock);
        Some(n.(rows := t,
                receptions := if body.BadJson? then n.receptions
                              else n.receptions + [Reception(body.env, answer.code, partners)]))
      else None
    case ReceiveReceipt(partners, body) =>
      Some(n.(rows := Reconcile(c, partners, n.rows, body, n.clock).0,
              named := n.named + if ValidReceipt(body) then {DispositionOf(c, partners, body).originalId} else {}))
    case Transmit(req, id) =>
      if Fresh(n.rows, id) then Some(n.(rows := Enqueue(n.rows, req, id, n.clock).0)) else None
  }

  ghost function Run(c: Config, n: State, actions: seq<Action>): Option<State>
    decreases |actions|
  {
    if actions == [] then Some(n)
    else
      match Step(c, n, actions[0])
      case None => None
      case Some(n') => Run(c, n', actions[1..])
  }

  // ----- the store invariant -----

  /** What is true of every row at every moment. */
  predicate RowOk(c: Config, r: Row) {
    && r.id != "" && r.jobType != "" && r.retryCount >= 0
    && (r.status == Queued ==> r.dir == Outbound && r.retryCount < Limit(c))
    && (r.dir == Outbound ==>
          || (r.jobType == PROCESS_OUTBOUND && r.payload.TransmitText?)
          || (r.jobType == SEND_JMDN && r.payload.JobText? && r.payload.job.status == "processed"))
  }

  ghost predicate RowsOk(c: Config, t: seq<Row>) {
    UniqueIds(t) && forall k :: 0 <= k < |t| ==> RowOk(c, t[k])
  }

  /** The rows the worker still has to take or to book. */
  function Pending(w: Worker): seq<Row> {
    match w
    case Idle => []
    case Polling(todo, Ready) => todo
    case Polling(todo, Answered(row, _)) => [row] + todo
    case Polling(todo, HalfFailed(row, _)) => [row] + todo
  }

  /** The stored row is still what the snapshot says, but for its status. */
  ghost predicate Tracks(t: seq<Row>, s: Row) {
    exists k :: 0 <= k < |t| && t[k].(status := Queued) == s
  }

  ghost predicate WorkerOk(c: Config, t: seq<Row>, w: Worker) {
    && UniqueIds(Pending(w))
    && (forall k :: 0 <= k < |Pending(w)| ==> Tracks(t, Pending(w)[k]) && RowOk(c, Pending(w)[k]))
    && (w.Polling? && w.flight.HalfFailed? ==>
          forall k :: 0 <= k < |t| && t[k].id == w.flight.row.id ==> t[k].status != Queued)
  }

  lemma StatusWriteKeepsTracks(t: seq<Row>, id: string, s: Status, x: Row)
    requires Tracks(t, x)
    ensures Tracks(SetStatus(t, id, s), x)
  {
    var k :| 0 <= k < |t| && t[k].(status := Queued) == x;
    assert SetStatus(t, id, s)[k].(status := Queued) == x;
  }

  lemma StatusWriteKeepsRows(c: Config, t: seq<Row>, id: string, s: Status)
    requires RowsOk(c, t) && s != Queued
    ensures RowsOk(c, SetStatus(t, id, s)) && Evolved(t, SetStatus(t, id, s))
    ensures forall x :: Tracks(t, x) ==> Tracks(SetStatus(t, id, s), x)
  {
    hide Tracks;
    var u := SetStatus(t, id, s);
    forall k | 0 <= k < |t| ensures RowOk(c, u[k]) {
      assert RowOk(c, t[k]);
    }
    forall x | Tracks(t, x) ensures Tracks(u, x) {
      StatusWriteKeepsTracks(t, id, s, x);
    }
  }

  lemma RetryWriteKeepsTracks(t: seq<Row>, id: string, count: int, next: Option<int>, err: ErrorCode, x: Row)
    requires Tracks(t, x) && x.id != id
    ensures Tracks(SetRetry(t, id, count, next, err), x)
  {
    var k :| 0 <= k < |t| && t[k].(status := Queued) == x;
    assert SetRetry(t, id, count, next, err)[k].(status := Queued) == x;
  }

  /** A retry write on a tracked row: below the limit, or on a row that is no longer queued. */
  lemma RetryWriteKeepsRows(c: Config, t: seq<Row>, row: Row, count: nat, next: Option<int>, err: ErrorCode)
    requires RowsOk(c, t)
    requires count < Limit(c) || forall k :: 0 <= k < |t| && t[k].id == row.id ==> t[k].status != Queued
    ensures var u := SetRetry(t, row.id, count, next, err); RowsOk(c, u) && Evolved(t, u)
    ensures forall x :: Tracks(t, x) && x.id != row.id ==> Tracks(SetRetry(t, row.id, count, next, err), x)
  {
    hide Tracks;
    var u := SetRetry(t, row.id, count, next, err);
    forall k | 0 <= k < |t| ensures RowOk(c, u[k]) {
      assert RowOk(c, t[k]);
    }
    forall x | Tracks(t, x) && x.id != row.id ensures Tracks(u, x) {
      RetryWriteKeepsTracks(t, row.id, count, next, err, x);
    }
  }

  lemma InsertKeepsRows(c: Config, t: seq<Row>, msg: Row)
    requires RowsOk(c, t)
    requires Create(t, msg).Ok? ==> RowOk(c, Stamped(msg))
    ensures var u := OrUnchanged(t, Create(t, msg)); RowsOk(c, u) && Evolved(t, u)
    ensures forall x :: Tracks(t, x) ==> Tracks(OrUnchanged(t, Create(t, msg)), x)
  {
    var u := OrUnchanged(t, Create(t, msg));
    forall x | Tracks(t, x) ensures Tracks(u, x) {
      var k :| 0 <= k < |t| && t[k].(status := Queued) == x;
      assert u[k].(status := Queued) == x;
    }
  }

  lemma EvolvedTwice(t: seq<Row>, u: seq<Row>, v: seq<Row>)
    requires Evolved(t, u) && Evolved(u, v)
    ensures Evolved(t, v)
  {
    forall k | 0 <= k < |t| ensures SameMessage(t[k], v[k]) && (v[k].status == Queued ==> t[k].status == Queued) {
      assert SameMessage(t[k], u[k]) && SameMessage(u[k], v[k]);
    }
  }

  lemma EvolvedFromItself(t: seq<Row>)
    ensures Evolved(t, t)
  {
  }

  lemma JobRowOk(c: Config, e: FidexEnvelope, jobId: string, now: int)
    ensures jobId != "" ==> RowOk(c, Stamped(JmdnRow(e, jobId, now)))
    ensures forall t :: Create(t, JmdnRow(e, jobId, now)).Ok? ==> jobId != ""
  {
  }

  lemma ReceiveKeepsRows(c: Config, partners: Partners, t: seq<Row>, body: InboundBody, jobId: string, now: int)
    requires RowsOk(c, t)
    ensures var u := Receive(c, partners, t, body, jobId, now).0;
            RowsOk(c, u) && Evolved(t, u) && forall x :: Tracks(t, x) ==> Tracks(u, x)
  {
    EvolvedFromItself(t);
    if body.Envelope? && ValidEnvelope(body.env) {
      var e := body.env;
      var message, job := InboundRow(c, partners, e, now), JmdnRow(e, jobId, now);
      assert Create(t, message).Ok? ==> RowOk(c, Stamped(message));
      hide RowsOk, Evolved, Tracks, Open, StoredText, ValidEnvelope, Create;
      InsertKeepsRows(c, t, message);
      var t1 := OrUnchanged(t, Create(t, message));
      JobRowOk(c, e, jobId, now);
      InsertKeepsRows(c, t1, job);
      EvolvedTwice(t, t1, OrUnchanged(t1, Create(t1, job)));
    }
  }

  lemma ReconcileKeepsRows(c: Config, partners: Partners, t: seq<Row>, body: ReceiptBody, now: int)
    requires RowsOk(c, t)
    ensures var u := Reconcile(c, partners, t, body, now).0;
            RowsOk(c, u) && Evolved(t, u) && forall x :: Tracks(t, x) ==> Tracks(u, x)
  {
    if ValidReceipt(body) {
      var msg := NewRow(ReceiptId(body), Inbound, Delivered, ReceiptText(body), now);
      InsertKeepsRows(c, t, msg);
      var t1 := OrUnchanged(t, Create(t, msg));
      var d := DispositionOf(c, partners, body);
      if d.originalId != "" {
        StatusWriteKeepsRows(c, t1, d.originalId, VerdictOf(d.status));
        EvolvedTwice(t, t1, SetStatus(t1, d.originalId, VerdictOf(d.status)));
      }
    }
  }

  /** The worker is done with its first pending row, or has its second write left. */
  lemma WorkerMovesOn(c: Config, t: seq<Row>, w: Worker, t': seq<Row>, w': Worker)
    requires WorkerOk(c, t, w)
    requires Pending(w') == Pending(w) || (Pending(w) != [] && Pending(w') == Pending(w)[1..])
    requires forall k :: 0 <= k < |Pending(w')| && Tracks(t, Pending(w')[k]) ==> Tracks(t', Pending(w')[k])
    requires w'.Polling? && w'.flight.HalfFailed? ==>
               forall k :: 0 <= k < |t'| && t'[k].id == w'.flight.row.id ==> t'[k].status != Queued
    ensures WorkerOk(c, t', w')
  {
    hide Tracks, RowOk;
    forall k | 0 <= k < |Pending(w')| ensures Tracks(t', Pending(w')[k]) && RowOk(c, Pending(w')[k]) {
      if Pending(w') != Pending(w) {
        assert Pending(w')[k] == Pending(w)[k + 1];
      }
    }
  }

  lemma OthersPending(w: Worker)
    requires UniqueIds(Pending(w)) && w.Polling? && !w.flight.Ready?
    ensures forall k :: 0 <= k < |w.todo| ==> w.todo[k].id != w.flight.row.id
  {
    forall k | 0 <= k < |w.todo| ensures w.todo[k].id != w.flight.row.id {
      assert Pending(w)[0] == w.flight.row && Pending(w)[k + 1] == w.todo[k];
    }
  }

  lemma FailedIsNotQueued(t: seq<Row>, id: string)
    ensures var u := SetStatus(t, id, Failed); forall k :: 0 <= k < |u| && u[k].id == id ==> u[k].status != Queued
  {
  }

  lemma RetryCountOk(c: Config, r: Row)
    requires RowOk(c, r)
    ensures r.retryCount >= 0
  {
  }

  lemma BookKeepsStore(c: Config, n: State)
    requires RowsOk(c, n.rows) && WorkerOk(c, n.rows, n.worker)
    requires n.worker.Polling? && BookStep(c, n).Some?
    ensures var n' := BookStep(c, n).value;
            RowsOk(c, n'.rows) && Evolved(n.rows, n'.rows) && WorkerOk(c, n'.rows, n'.worker)
  {
    hide RowsOk, Evolved, SetStatus, SetRetry, Tracks, RowOk, Backoff;
    var todo, row := n.worker.todo, n.worker.flight.row;
    var n' := BookStep(c, n).value;
    assert Pending(n.worker) == [row] + todo && UniqueIds(Pending(n.worker));
    match n.worker.flight {
      case Answered(_, None) =>
        StatusWriteKeepsRows(c, n.rows, row.id, Delivered);
      case Answered(_, Some(err)) =>
        if ShouldRetry(c, row.retryCount + 1, err) {
          var next := Some(n.clock + Backoff(row.retryCount + 1));
          RetryWriteKeepsRows(c, n.rows, row, row.retryCount + 1, next, err.code);
          OthersPending(n.worker);
        } else {
          StatusWriteKeepsRows(c, n.rows, row.id, Failed);
          FailedIsNotQueued(n.rows, row.id);
        }
      case HalfFailed(_, err) =>
        assert RowOk(c, Pending(n.worker)[0]);
        RetryCountOk(c, row);
        RetryWriteKeepsRows(c, n.rows, row, row.retryCount + 1, None, err.code);
        OthersPending(n.worker);
    }
    WorkerMovesOn(c, n.rows, n.worker, n'.rows, n'.worker);
  }

  /** A row that waits for its second write is not queued, whatever else happens to the table. */
  lemma HalfFailedStays(c: Config, n: State, n': State)
    requires WorkerOk(c, n.rows, n.worker) && n'.worker == n.worker
    requires Evolved(n.rows, n'.rows) && UniqueIds(n'.rows)
    ensures n.worker.Polling? && n.worker.flight.HalfFailed? ==>
              forall k :: 0 <= k < |n'.rows| && n'.rows[k].id == n.worker.flight.row.id ==> n'.rows[k].status != Queued
  {
    if n.worker.Polling? && n.worker.flight.HalfFailed? {
      assert Tracks(n.rows, Pending(n.worker)[0]);
      var l :| 0 <= l < |n.rows| && n.rows[l].(status := Queued) == n.worker.flight.row;
      assert SameMessage(n.rows[l], n'.rows[l]);
    }
  }

  lemma BeginKeepsWorker(c: Config, n: State, snapshot: seq<Row>)
    requires RowsOk(c, n.rows) && IsListing(n.rows, Queued, snapshot)
    ensures WorkerOk(c, n.rows, Polling(snapshot, Ready))
  {
    forall k | 0 <= k < |snapshot| ensures Tracks(n.rows, snapshot[k]) && RowOk(c, snapshot[k]) {
      assert snapshot[k] in n.rows;
      var l :| 0 <= l < |n.rows| && n.rows[l] == snapshot[k];
      assert n.rows[l].(status := Queued) == snapshot[k];
    }
  }

  lemma PollStepsKeepWorker(c: Config, n: State, a: Action)
    requires RowsOk(c, n.rows) && WorkerOk(c, n.rows, n.worker) && Step(c, n, a).Some?
    requires a.Advance? || a.BeginPoll? || a.Skip? || a.Deliver? || a.EndPoll?
    ensures var n' := Step(c, n, a).value; n'.rows == n.rows && WorkerOk(c, n.rows, n'.worker)
  {
    hide RowsOk, Tracks, DeliveryResult, Due;
    var n' := Step(c, n, a).value;
    if a.BeginPoll? {
      BeginKeepsWorker(c, n, a.snapshot);
    } else {
      hide IsListing;
      WorkerMovesOn(c, n.rows, n.worker, n.rows, n'.worker);
    }
  }

  lemma EnqueuedRowOk(c: Config, row: Row)
    requires row.id != "" && row.dir == Outbound && row.retryCount == 0 && row.jobType == ""
    requires row.payload.TransmitText? && row.payload.declared == Absent
    ensures RowOk(c, Stamped(row))
  {
  }

  lemma UniqueRows(c: Config, t: seq<Row>)
    requires RowsOk(c, t)
    ensures UniqueIds(t)
  {
  }

  lemma HandlersKeepStore(c: Config, n: State, a: Action)
    requires RowsOk(c, n.rows) && WorkerOk(c, n.rows, n.worker) && Step(c, n, a).Some?
    requires a.ReceiveEnvelope? || a.ReceiveReceipt? || a.Transmit?
    ensures var n' := Step(c, n, a).value;
            RowsOk(c, n'.rows) && Evolved(n.rows, n'.rows) && WorkerOk(c, n'.rows, n'.worker)
  {
    hide RowsOk, WorkerOk, Tracks, Evolved, Receive, Reconcile;
    match a {
      case ReceiveEnvelope(partners, body, jobId) => ReceiveKeepsRows(c, partners, n.rows, body, jobId, n.clock);
      case ReceiveReceipt(partners, body) => ReconcileKeepsRows(c, partners, n.rows, body, n.clock);
      case Transmit(req, id) =>
        var row := NewRow(id, Outbound, Queued, TransmitText(req, Absent), n.clock);
        EvolvedFromItself(n.rows);
        EnqueuedRowOk(c, row);
        InsertKeepsRows(c, n.rows, row);
    }
    var n' := Step(c, n, a).value;
    UniqueRows(c, n'.rows);
    HalfFailedStays(c, n, n');
    WorkerMovesOn(c, n.rows, n.worker, n'.rows, n.worker);
  }

  /** Every step keeps the store invariant and the worker's view of the store, removes no row, changes
      no message and puts no row back in the queue. */
  lemma StepKeepsStore(c: Config, n: State, a: Action)
    requires RowsOk(c, n.rows) && WorkerOk(c, n.rows, n.worker)
    requires Step(c, n, a).Some?
    ensures var n' := Step(c, n, a).value;
            RowsOk(c, n'.rows) && Evolved(n.rows, n'.rows) && WorkerOk(c, n'.rows, n'.worker)
  {
    hide RowsOk, WorkerOk, Evolved, Receive, Reconcile, Enqueue, DeliveryResult, IsListing, BookStep;
    match a {
      case Book => BookKeepsStore(c, n);
      case ReceiveEnvelope(_, _, _) => HandlersKeepStore(c, n, a);
      case ReceiveReceipt(_, _) => HandlersKeepStore(c, n, a);
      case Transmit(_, _) => HandlersKeepStore(c, n, a);
      case _ =>
        PollStepsKeepWorker(c, n, a);
        EvolvedFromItself(n.rows);
    }
  }

  /** The stored row of a pending one, as far as its times go. */
  lemma PendingRow(c: Config, n: State, p: nat, i: nat)
    requires RowsOk(c, n.rows) && WorkerOk(c, n.rows, n.worker)
    requires p < |Pending(n.worker)| && i < |n.rows| && n.rows[i].id == Pending(n.worker)[p].id
    ensures n.rows[i].(status := Queued) == Pending(n.worker)[p]
  {
    assert Tracks(n.rows, Pending(n.worker)[p]);
    var l :| 0 <= l < |n.rows| && n.rows[l].(status := Queued) == Pending(n.worker)[p];
    assert l == i;
  }

  /** What a booking write does: other rows stay, and its own stays queued only with the next retry. */
  lemma BookedShape(c: Config, n: State)
    requires RowsOk(c, n.rows) && WorkerOk(c, n.rows, n.worker) && Step(c, n, Book).Some?
    ensures var n', row := Step(c, n, Book).value, n.worker.flight.row;
            && n'.clock == n.clock && |n'.rows| == |n.rows| && !n.worker.Idle?
            && Pending(n.worker) != [] && Pending(n.worker)[0] == row
            && (Pending(n'.worker) == Pending(n.worker) || Pending(n'.worker) == Pending(n.worker)[1..])
            && forall i :: 0 <= i < |n.rows| ==>
                 if n.rows[i].id != row.id then n'.rows[i] == n.rows[i]
                 else n'.rows[i].status == Queued ==>
                   n.rows[i].status == Queued
                   && var count := n.rows[i].retryCount + 1;
                      n'.rows[i] == n.rows[i].(retryCount := count, nextRetry := Some(n.clock + Backoff(count)),
                                               lastError := n'.rows[i].lastError)
  {
    var n', row := Step(c, n, Book).value, n.worker.flight.row;
    assert Pending(n.worker)[0] == row && Pending(n.worker)[1..] == n.worker.todo;
    forall i | 0 <= i < |n.rows| && n.rows[i].id == row.id ensures n.rows[i].(status := Queued) == row {
      PendingRow(c, n, 0, i);
    }
    hide RowsOk, Tracks, Backoff, ShouldRetry;
  }

  /** What a handler does to the table: old rows change in status at most, new rows are untried and born now. */
  lemma HandlersAddNewborns(c: Config, n: State, a: Action)
    requires a.ReceiveEnvelope? || a.ReceiveReceipt? || a.Transmit?
    requires Step(c, n, a).Some?
    ensures var n' := Step(c, n, a).value;
            && n'.worker == n.worker && n'.clock == n.clock && n'.attempts == n.attempts
            && |n.rows| <= |n'.rows| <= |n.rows| + 2
            && (forall i :: 0 <= i < |n.rows| ==> n'.rows[i] == n.rows[i].(status := n'.rows[i].status))
            && (forall i :: |n.rows| <= i < |n'.rows| ==> Newborn(n'.rows[i], n.clock))
  {
    hide Receive, Reconcile, Enqueue, Newborn, ValidReceipt, DispositionOf;
    match a {
      case ReceiveEnvelope(partners, body, jobId) => ReceiveShape(c, partners, n.rows, body, jobId, n.clock);
      case ReceiveReceipt(partners, receipt) => ReconcileShape(c, partners, n.rows, receipt, n.clock);
      case Transmit(req, id) => EnqueueShape(n.rows, req, id, n.clock);
    }
  }
}

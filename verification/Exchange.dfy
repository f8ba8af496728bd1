/** One exchange without loss, from the transmit request to the receipt: what was enqueued is what the
    partner stores, and the partner's receipt closes the sender's row. */
module Exchange {
  import opened Basics
  import opened Errors
  import opened Crypto
  import opened CryptoLaws
  import opened Messages
  import opened Delivery
  import opened Handlers
  import opened Answers
  import opened Node
  import opened Admission
  import opened Network
  import opened Agreement

  /** The node can send to this partner: endpoint and published keys are known, an algorithm is shared. */
  predicate CanSendTo(partners: Partners, id: string, key: KeyId, base: string) {
    && id in partners
    && partners[id].messageEndpoint == Url(id, InboundRoute)
    && partners[id].jwks == Engine(key).ExportJwks(base)
    && Negotiate(LOCAL_ALGORITHMS, partners[id].algorithms).Ok?
  }

  /** The node can check this partner's signatures and return receipts to it. */
  predicate CanReceiveFrom(partners: Partners, id: string, key: KeyId, base: string) {
    && id in partners
    && partners[id].jwks == Engine(key).ExportJwks(base)
    && partners[id].receiptEndpoint == Url(id, ReceiptRoute)
  }

  /** The envelope of a document row opens at the destination, and to the document of the row. */
  lemma EnvelopeOpens(
    sender: Config, receiver: Config, sending: Partners, receiving: Partners, row: Row, stamp: string,
    senderBase: string, receiverBase: string)
    requires sender.engine.Some? && receiver.engine.Some? && sender.nodeId != "" && row.id != ""
    requires row.payload.TransmitText? && ValidTransmit(row.payload.req)
    requires CanSendTo(sending, row.payload.req.destination, receiver.engine.value.key, receiverBase)
    requires CanReceiveFrom(receiving, sender.nodeId, sender.engine.value.key, senderBase)
    ensures var plan := PlanBusiness(sender, sending, row, stamp);
            && plan.Ok? && plan.value.url == Url(row.payload.req.destination, InboundRoute)
            && plan.value.body.EnvelopeBody?
            && var e := plan.value.body.env;
               && ValidEnvelope(e) && e.routing.messageId == row.id && e.routing.sender == sender.nodeId
               && e.routing.docType == row.payload.req.docType
               && Open(receiver, receiving, e) == Ok(row.payload.req.doc)
  {
    ExportedKeyByUse(receiver.engine.value, receiverBase, "enc");
    ExportedKeyByUse(sender.engine.value, senderBase, "sig");
  }

  /** The receipt of a job names the accepted message and goes to its sender. */
  lemma ReceiptGoesBack(
    receiver: Config, receiving: Partners, job: Row, to: string, key: KeyId, base: string, stamp: string)
    requires receiver.engine.Some? && to != "" && CanReceiveFrom(receiving, to, key, base)
    requires job.payload.JobText? && job.payload.job.originalId != ""
    requires job.payload.job.recipient == to && job.payload.job.status == "processed"
    ensures PlanJmdn(receiver, receiving, job, stamp)
         == Ok(Post(Url(to, ReceiptRoute),
                    FlatBody(FlatReceipt(job.payload.job.originalId, "DELIVERED", receiver.nodeId,
                                         job.payload.job.originalPayload, stamp))))
  {
    hide ToUpper;
    assert |"processed"| != |"FAILED"|;
  }

  /** A receipt that says DELIVERED is answered 202 and closes the row it names. */
  lemma ReceiptCloses(c: Config, known: Partners, t: seq<Row>, at: nat, f: FlatReceipt, now: int)
    requires at < |t| && t[at].id == f.originalId != "" && f.status == "DELIVERED"
    ensures var (u, code) := Reconcile(c, known, t, AsReceipt(FlatBody(f)), now);
            code == ACCEPTED && |u| >= |t| && u[at] == t[at].(status := Delivered)
  {
    FlatReceiptEffect(c, known, t, f, now);
    hide ToUpper, SetStatus, Create;
    assert ValidReceipt(AsReceipt(FlatBody(f)));
  }

  /** A document row that is up for its attempt, with all that an attempt without loss needs: both sides
      know each other, and the destination has not stored the id yet. */
  ghost predicate Poised(
    cfgs: Configs, w: World, sender: string, sending: Partners, receiving: Partners, jobId: string,
    base: string, destBase: string)
  {
    && w.nodes.Keys == cfgs.Keys && WellFormed(cfgs) && Honest(cfgs, sending) && Honest(cfgs, receiving)
    && sender in cfgs && sender != "" && cfgs[sender].engine.Some? && CanTake(w.nodes[sender])
    && var row := w.nodes[sender].worker.todo[0];
       && IsBusiness(row) && row.id != "" && row.retryCount >= 0 && Due(row, w.nodes[sender].clock)
       && ValidTransmit(row.payload.req)
       && var dest := row.payload.req.destination;
          && dest in cfgs && dest != sender && cfgs[dest].engine.Some?
          && CanSendTo(sending, dest, cfgs[dest].engine.value.key, destBase)
          && CanReceiveFrom(receiving, sender, cfgs[sender].engine.value.key, base)
          && !Has(w.nodes[dest].rows, row.id) && Fresh(w.nodes[dest].rows, jobId) && jobId != row.id
  }

  lemma WorldRunNothing(cfgs: Configs, w: World)
    requires w.nodes.Keys == cfgs.Keys
    ensures WorldRun(cfgs, w, []) == Some(w)
  {
  }

  lemma WorldRunCons(cfgs: Configs, w: World, a: WorldAction, rest: seq<WorldAction>)
    requires w.nodes.Keys == cfgs.Keys && WorldStep(cfgs, w, a).Some?
    ensures WorldRun(cfgs, w, [a] + rest) == WorldRun(cfgs, WorldStep(cfgs, w, a).value, rest)
  {
    hide WorldStep;
    assert ([a] + rest)[1..] == rest;
  }

  /** What a poised row is sent as: a well-formed envelope that its destination opens to its document. */
  lemma PoisedPlan(
    cfgs: Configs, w: World, sender: string, sending: Partners, receiving: Partners, jobId: string,
    base: string, destBase: string,
    stamp: string)
    returns (post: Post)
    requires Poised(cfgs, w, sender, sending, receiving, jobId, base, destBase)
    ensures var row := w.nodes[sender].worker.todo[0];
            var dest := row.payload.req.destination;
            && Plan(cfgs[sender], sending, row, stamp) == Ok(post)
            && post.url == Url(dest, InboundRoute) && post.body.EnvelopeBody?
            && var e := post.body.env;
               && ValidEnvelope(e) && e.routing.messageId == row.id && e.routing.sender == sender
               && e.routing.docType == row.payload.req.docType
               && Open(cfgs[dest], receiving, e) == Ok(row.payload.req.doc)
  {
    hide PlanBusiness, Open, Honest, CanSendTo, CanReceiveFrom, ValidTransmit, Fresh;
    var row := w.nodes[sender].worker.todo[0];
    EnvelopeOpens(cfgs[sender], cfgs[row.payload.req.destination], sending, receiving, row, stamp, base, destBase);
    post := Plan(cfgs[sender], sending, row, stamp).value;
  }

  /** The destination after such an envelope: it has answered 202, and holds what admission stores. */
  ghost function Admit(c: Config, n: State, partners: Partners, e: FidexEnvelope, jobId: string): State {
    n.(rows := Receive(c, partners, n.rows, Envelope(e), jobId, n.clock).0,
       receptions := n.receptions + [Reception(e, ACCEPTED, partners)])
  }

  lemma PoisedArrival(cfgs: Configs, w: World, post: Post, partners: Partners, jobId: string)
    requires w.nodes.Keys == cfgs.Keys && Honest(cfgs, partners)
    requires post.url.Url? && post.url.host in cfgs && post.url.route == InboundRoute && post.body.EnvelopeBody?
    requires var n, e := w.nodes[post.url.host], post.body.env;
             && ValidEnvelope(e) && Open(cfgs[post.url.host], partners, e).Ok?
             && !Has(n.rows, e.routing.messageId) && Fresh(n.rows, jobId) && jobId != e.routing.messageId
    ensures var dest := post.url.host;
            && AnswerCode(cfgs[dest], w.nodes[dest], post, partners, jobId) == ACCEPTED
            && Arrive(cfgs, w, post, partners, jobId)
               == Some(w.(nodes := w.nodes[dest := Admit(cfgs[dest], w.nodes[dest], partners, post.body.env, jobId)]))
  {
    hide Receive, Open, Honest, ValidEnvelope, Has;
    var dest := post.url.host;
    var n := w.nodes[dest];
    ReceiveExactly(cfgs[dest], partners, n.rows, Envelope(post.body.env), jobId, n.clock);
    EnvelopeStepShape(cfgs[dest], n, partners, Envelope(post.body.env), jobId);
  }

  /** The sender after an attempt that sent its request, before it is booked. */
  function Attempted(n: State, result: Option<AppError>): State
    requires CanTake(n) && n.worker.todo[0].retryCount >= 0
  {
    var row := n.worker.todo[0];
    n.(worker := Polling(n.worker.todo[1..], Answered(row, result)),
       attempts := n.attempts + [Attempt(row.id, row.retryCount + 1, n.clock,
                                         if result.None? then Succeeded else Unanswered)])
  }

  lemma DeliverIsPossible(c: Config, n: State, partners: Partners, stamp: string, reply: HttpReply)
    requires CanTake(n) && Due(n.worker.todo[0], n.clock) && n.worker.todo[0].retryCount >= 0
    requires Plan(c, partners, n.worker.todo[0], stamp).Ok?
    ensures Step(c, n, Deliver(partners, stamp, reply)) == Some(Attempted(n, Conclude(reply)))
  {
    hide Plan, Due;
  }

  /** A call whose request arrives, step by step. */
  lemma CallUnfolds(cfgs: Configs, w: World, a: WorldAction, post: Post, w2: World)
    requires w.nodes.Keys == cfgs.Keys && a.Call? && a.caller in cfgs
    requires a.outcome != RequestLost && Honest(cfgs, a.partners)
    requires var n := w.nodes[a.caller];
             && CanTake(n) && Due(n.worker.todo[0], n.clock) && n.worker.todo[0].retryCount >= 0
             && Plan(cfgs[a.caller], a.partners, n.worker.todo[0], a.stamp) == Ok(post)
    requires post.url.Url? && post.url.host in cfgs
    requires Arrive(cfgs, w.(posts := w.posts + [post]), post, a.peerPartners, a.jobId) == Some(w2)
    requires a.caller in w2.nodes && w2.nodes[a.caller] == w.nodes[a.caller]
    ensures var code := AnswerCode(cfgs[post.url.host], w.nodes[post.url.host], post, a.peerPartners, a.jobId);
            var result := Conclude(if a.outcome == ResponseLost then NoReply else Reply(code));
            WorldStep(cfgs, w, a) == Some(w2.(nodes := w2.nodes[a.caller := Attempted(w.nodes[a.caller], result)]))
  {
    var c, n := cfgs[a.caller], w.nodes[a.caller];
    hide Plan, Arrive, AnswerCode, Honest, Step, Conclude;
    var code := AnswerCode(cfgs[post.url.host], w.nodes[post.url.host], post, a.peerPartners, a.jobId);
    DeliverIsPossible(c, n, a.partners, a.stamp, if a.outcome == ResponseLost then NoReply else Reply(code));
  }

  /** An attempt whose request arrives: the destination has the document, and the sender learns of it or not. */
  lemma PoisedCall(
    cfgs: Configs, w: World, sender: string, sending: Partners, receiving: Partners, jobId: string,
    base: string, destBase: string,
    stamp: string, outcome: Outcome)
    returns (e: FidexEnvelope)
    requires Poised(cfgs, w, sender, sending, receiving, jobId, base, destBase) && outcome != RequestLost
    ensures var row := w.nodes[sender].worker.todo[0];
            var dest := row.payload.req.destination;
            var r := WorldStep(cfgs, w, Call(sender, sending, stamp, outcome, receiving, jobId));
            && ValidEnvelope(e) && e.routing.messageId == row.id && e.routing.sender == sender
            && e.routing.docType == row.payload.req.docType
            && Open(cfgs[dest], receiving, e) == Ok(row.payload.req.doc)
            && r.Some? && dest != sender && r.value.nodes.Keys == cfgs.Keys
            && r.value.nodes
               == w.nodes[dest := Admit(cfgs[dest], w.nodes[dest], receiving, e, jobId)]
                         [sender := Attempted(w.nodes[sender],
                                              if outcome == Returned then None else Some(New(Network)))]
  {
    hide Plan, Open, Receive, Honest, CanSendTo, CanReceiveFrom, ValidTransmit, ValidEnvelope, Arrive, AnswerCode;
    hide Has, WorldStep;
    var post := PoisedPlan(cfgs, w, sender, sending, receiving, jobId, base, destBase, stamp);
    e := post.body.env;
    hide Admit;
    var w1 := w.(posts := w.posts + [post]);
    PoisedArrival(cfgs, w1, post, receiving, jobId);
    var w2 := Arrive(cfgs, w1, post, receiving, jobId).value;
    CallUnfolds(cfgs, w, Call(sender, sending, stamp, outcome, receiving, jobId), post, w2);
  }

  lemma BookAnswered(cfgs: Configs, w: World, at: string)
    requires w.nodes.Keys == cfgs.Keys && at in cfgs
    requires w.nodes[at].worker.Polling? && w.nodes[at].worker.flight.Answered?
    requires w.nodes[at].worker.flight.result.None?
    ensures var n := w.nodes[at];
            WorldRun(cfgs, w, [Local(at, Book)])
            == Some(w.(nodes := w.nodes[at := n.(rows := SetStatus(n.rows, n.worker.flight.row.id, Delivered),
                                                 worker := Polling(n.worker.todo, Ready))]))
  {
    hide SetStatus;
    assert [Local(at, Book)] + [] == [Local(at, Book)];
    WorldRunCons(cfgs, w, Local(at, Book), []);
  }

  /** A first attempt that nothing gets lost of ends in DELIVERED, from every world on. */
  lemma AttemptDelivers(
    cfgs: Configs, w: World, sender: string, sending: Partners, receiving: Partners, jobId: string,
    base: string, destBase: string,
    stamp: string, k: nat)
    requires Poised(cfgs, w, sender, sending, receiving, jobId, base, destBase)
    requires k < |w.nodes[sender].rows| && w.nodes[sender].rows[k].id == w.nodes[sender].worker.todo[0].id
    ensures var row := w.nodes[sender].worker.todo[0];
            var r := WorldRun(cfgs, w, [Call(sender, sending, stamp, Returned, receiving, jobId), Local(sender, Book)]);
            && r.Some? && sender in r.value.nodes
            && |r.value.nodes[sender].rows| == |w.nodes[sender].rows|
            && r.value.nodes[sender].rows[k] == w.nodes[sender].rows[k].(status := Delivered)
            && AcceptedAt(r.value, row.payload.req.destination, row.id, sender)
  {
    hide WorldRun, WorldStep, Honest, CanSendTo, CanReceiveFrom, Receive, ValidTransmit, Has;
    var call := Call(sender, sending, stamp, Returned, receiving, jobId);
    var e := PoisedCall(cfgs, w, sender, sending, receiving, jobId, base, destBase, stamp, Returned);
    var row := w.nodes[sender].worker.todo[0];
    var dest := row.payload.req.destination;
    hide Poised, Receive;
    var w2 := WorldStep(cfgs, w, call).value;
    WorldRunCons(cfgs, w, call, [Local(sender, Book)]);
    assert [call] + [Local(sender, Book)] == [call, Local(sender, Book)];
    assert w2.nodes[dest].receptions[|w.nodes[dest].receptions|] == Reception(e, ACCEPTED, receiving);
    BookAnswered(cfgs, w2, sender);
  }

  lemma ReceiptArrives(cfgs: Configs, w: World, post: Post, known: Partners, newId: string)
    requires w.nodes.Keys == cfgs.Keys && Honest(cfgs, known)
    requires post.url.Url? && post.url.host in cfgs && post.url.route == ReceiptRoute
    ensures var to := post.url.host;
            var n := w.nodes[to];
            var t := Reconcile(cfgs[to], known, n.rows, AsReceipt(post.body), n.clock).0;
            var r := Arrive(cfgs, w, post, known, newId);
            && r.Some? && to in r.value.nodes
            && r.value == w.(nodes := w.nodes[to := n.(rows := t, named := r.value.nodes[to].named)])
  {
    hide Reconcile, AsReceipt, Honest;
  }

  lemma JobPlan(c: Config, partners: Partners, job: Row, to: string, key: KeyId, base: string, stamp: string)
    returns (post: Post)
    requires c.engine.Some? && to != "" && CanReceiveFrom(partners, to, key, base)
    requires IsJob(job) && job.payload.JobText? && job.payload.job.originalId != ""
    requires job.payload.job.recipient == to && job.payload.job.status == "processed"
    ensures Plan(c, partners, job, stamp) == Ok(post)
    ensures post.url == Url(to, ReceiptRoute) && post.body.FlatBody?
    ensures post.body.receipt.originalId == job.payload.job.originalId && post.body.receipt.status == "DELIVERED"
  {
    ReceiptGoesBack(c, partners, job, to, key, base, stamp);
    hide PlanJmdn, PlanBusiness;
    post := Plan(c, partners, job, stamp).value;
  }

  /** The attempt of a receipt job closes the row it names, whether or not its answer comes back. */
  lemma ReceiptAttemptCloses(
    cfgs: Configs, w: World, at: string, partners: Partners, stamp: string, outcome: Outcome,
    known: Partners, newId: string,
    sender: string, base: string, k: nat)
    requires w.nodes.Keys == cfgs.Keys && Honest(cfgs, partners) && Honest(cfgs, known) && outcome != RequestLost
    requires at in cfgs && cfgs[at].engine.Some? && CanTake(w.nodes[at])
    requires sender in cfgs && sender != at && sender != "" && cfgs[sender].engine.Some?
    requires CanReceiveFrom(partners, sender, cfgs[sender].engine.value.key, base)
    requires var job := w.nodes[at].worker.todo[0];
             && IsJob(job) && job.retryCount >= 0 && Due(job, w.nodes[at].clock) && job.payload.JobText?
             && job.payload.job.recipient == sender && job.payload.job.status == "processed"
             && k < |w.nodes[sender].rows| && w.nodes[sender].rows[k].id == job.payload.job.originalId != ""
    ensures var r := WorldStep(cfgs, w, Call(at, partners, stamp, outcome, known, newId));
            && r.Some? && sender in r.value.nodes && |r.value.nodes[sender].rows| >= |w.nodes[sender].rows|
            && r.value.nodes[sender].rows[k] == w.nodes[sender].rows[k].(status := Delivered)
  {
    var job, n := w.nodes[at].worker.todo[0], w.nodes[sender];
    var post := JobPlan(cfgs[at], partners, job, sender, cfgs[sender].engine.value.key, base, stamp);
    ReceiptCloses(cfgs[sender], known, n.rows, k, post.body.receipt, n.clock);
    ReceiptArrives(cfgs, w.(posts := w.posts + [post]), post, known, newId);
    hide Plan, Arrive, AnswerCode, Reconcile, Honest, CanReceiveFrom, AsReceipt, WorldStep, Has;
    var w2 := Arrive(cfgs, w.(posts := w.posts + [post]), post, known, newId).value;
    CallUnfolds(cfgs, w, Call(at, partners, stamp, outcome, known, newId), post, w2);
  }

  /** Two nodes that know each other, and a request from one to the other. */
  ghost predicate Acquainted(
    cfgs: Configs, sender: string, dest: string, sending: Partners, receiving: Partners,
    req: TransmitRequest, base: string, destBase: string)
  {
    && WellFormed(cfgs) && Honest(cfgs, sending) && Honest(cfgs, receiving)
    && ValidTransmit(req) && req.destination == dest
    && sender in cfgs && dest in cfgs && sender != dest && sender != ""
    && cfgs[sender].engine.Some? && cfgs[dest].engine.Some?
    && CanSendTo(sending, dest, cfgs[dest].engine.value.key, destBase)
    && CanReceiveFrom(receiving, sender, cfgs[sender].engine.value.key, base)
  }

  function QueuedRow(req: TransmitRequest, id: string): Row {
    Stamped(NewRow(id, Outbound, Queued, TransmitText(req, Absent), 0))
  }

  lemma LocalStep(cfgs: Configs, w: World, at: string, a: Action, n': State)
    requires w.nodes.Keys == cfgs.Keys && at in cfgs && IsLocal(a) && Step(cfgs[at], w.nodes[at], a) == Some(n')
    ensures WorldStep(cfgs, w, Local(at, a)) == Some(w.(nodes := w.nodes[at := n']))
  {
    hide Step;
  }

  lemma FirstTransmit(c: Config, req: TransmitRequest, id: string)
    requires ValidTransmit(req) && id != ""
    ensures Step(c, INITIAL, Transmit(req, id)) == Some(INITIAL.(rows := [QueuedRow(req, id)]))
  {
    EnqueueExactly([], req, id, 0);
    assert Enqueue([], req, id, 0).0 == [QueuedRow(req, id)];
  }

  lemma BeginWithOne(c: Config, n: State, before: seq<Row>, row: Row)
    requires n.worker == Idle && n.rows == before + [row] && row.status == Queued
    requires forall k :: 0 <= k < |before| ==> before[k].status != Queued
    ensures Step(c, n, BeginPoll([row])) == Some(n.(worker := Polling([row], Ready)))
  {
    forall r ensures r in [row] <==> r in n.rows && r.status == Queued {
      assert row == n.rows[|before|];
    }
  }

  lemma FirstIsPoised(
    cfgs: Configs, w: World, sender: string, dest: string, sending: Partners, receiving: Partners,
    req: TransmitRequest, id: string, jobId: string, base: string, destBase: string)
    requires Acquainted(cfgs, sender, dest, sending, receiving, req, base, destBase)
    requires id != "" && jobId != "" && jobId != id && w.nodes.Keys == cfgs.Keys && w.nodes[dest].rows == []
    requires w.nodes[sender].worker == Polling([QueuedRow(req, id)], Ready)
    ensures Poised(cfgs, w, sender, sending, receiving, jobId, base, destBase)
  {
    hide Honest, CanSendTo, CanReceiveFrom, ValidTransmit, WellFormed;
  }

  /** Enqueueing and the start of a pass bring a fresh network to the first attempt. */
  lemma FirstPass(cfgs: Configs, sender: string, req: TransmitRequest, id: string) returns (w: World)
    requires sender in cfgs && ValidTransmit(req) && id != ""
    ensures var row := QueuedRow(req, id);
            && w.nodes.Keys == cfgs.Keys && w.nodes[sender] == State([row], Polling([row], Ready), 0, [], [], {})
            && (forall p :: p in cfgs && p != sender ==> w.nodes[p] == INITIAL)
            && WorldRun(cfgs, InitialWorld(cfgs), [Local(sender, Transmit(req, id)), Local(sender, BeginPoll([row]))])
               == Some(w)
  {
    hide WorldRun, WorldStep, ValidTransmit;
    var row := QueuedRow(req, id);
    var w0, n := InitialWorld(cfgs), INITIAL.(rows := [row]);
    var transmit, begin := Local(sender, Transmit(req, id)), Local(sender, BeginPoll([row]));
    assert w0.nodes.Keys == cfgs.Keys;
    FirstTransmit(cfgs[sender], req, id);
    BeginWithOne(cfgs[sender], n, [], row);
    hide Step;
    LocalStep(cfgs, w0, sender, Transmit(req, id), n);
    var w1 := w0.(nodes := w0.nodes[sender := n]);
    LocalStep(cfgs, w1, sender, BeginPoll([row]), n.(worker := Polling([row], Ready)));
    w := w1.(nodes := w1.nodes[sender := n.(worker := Polling([row], Ready))]);
    assert [transmit] + [begin] == [transmit, begin] && [begin] + [] == [begin];
    WorldRunCons(cfgs, w0, transmit, [begin]);
    WorldRunCons(cfgs, w1, begin, []);
    WorldRunNothing(cfgs, w);
  }

  lemma {:induction false} WorldRunAppend(cfgs: Configs, w: World, first: seq<WorldAction>, second: seq<WorldAction>)
    requires w.nodes.Keys == cfgs.Keys && WorldRun(cfgs, w, first).Some?
    ensures WorldRun(cfgs, w, first + second) == WorldRun(cfgs, WorldRun(cfgs, w, first).value, second)
    decreases |first|
  {
    hide WorldStep;
    if first == [] {
      assert first + second == second;
    } else {
      assert (first + second)[1..] == first[1..] + second;
      WorldRunAppend(cfgs, WorldStep(cfgs, w, first[0]).value, first[1..], second);
    }
  }

  /** The direct way is open: between any two acquainted nodes there is a run that ends in DELIVERED through
      the 2xx answer. */
  lemma DeliveryIsReachable(
    cfgs: Configs, sender: string, dest: string, sending: Partners, receiving: Partners, req: TransmitRequest,
    id: string, jobId: string, base: string, destBase: string, stamp: string)
    returns (actions: seq<WorldAction>, w: World)
    requires Acquainted(cfgs, sender, dest, sending, receiving, req, base, destBase)
    requires id != "" && jobId != "" && jobId != id
    ensures WorldRun(cfgs, InitialWorld(cfgs), actions) == Some(w) && sender in w.nodes
    ensures w.nodes[sender].rows == [QueuedRow(req, id).(status := Delivered)]
    ensures AcceptedAt(w, dest, id, sender)
  {
    hide WorldRun, WorldStep, Honest, CanSendTo, CanReceiveFrom, ValidTransmit;
    var w2 := FirstPass(cfgs, sender, req, id);
    FirstIsPoised(cfgs, w2, sender, dest, sending, receiving, req, id, jobId, base, destBase);
    AttemptDelivers(cfgs, w2, sender, sending, receiving, jobId, base, destBase, stamp, 0);
    hide *;
    var enqueue := [Local(sender, Transmit(req, id)), Local(sender, BeginPoll([QueuedRow(req, id)]))];
    var attempt := [Call(sender, sending, stamp, Returned, receiving, jobId), Local(sender, Book)];
    WorldRunAppend(cfgs, InitialWorld(cfgs), enqueue, attempt);
    actions := enqueue + attempt;
    w := WorldRun(cfgs, w2, attempt).value;
  }

  lemma BookFailure(c: Config, n: State)
    requires n.worker.Polling? && n.worker.flight.Answered? && n.worker.flight.result.Some?
    requires n.worker.flight.row.retryCount >= 0
    ensures var r := Step(c, n, Book);
            && r.Some? && |r.value.rows| == |n.rows|
            && forall k :: 0 <= k < |n.rows| ==> r.value.rows[k].id == n.rows[k].id
  {
    hide ShouldRetry;
  }

  /** The first document a node admits leaves it and the job for its receipt. */
  lemma FirstAdmitted(c: Config, partners: Partners, e: FidexEnvelope, jobId: string)
    requires ValidEnvelope(e) && Open(c, partners, e).Ok? && jobId != "" && jobId != e.routing.messageId
    requires e.routing.docType != "receipt"
    ensures var n := Admit(c, INITIAL, partners, e, jobId);
            && n.worker == Idle && n.clock == 0
            && n.rows == [Stamped(InboundRow(c, partners, e, 0))] + [Stamped(JmdnRow(e, jobId, 0))]
            && Stamped(InboundRow(c, partners, e, 0)).status == Delivered
  {
    ReceiveExactly(c, partners, [], Envelope(e), jobId, 0);
    AcceptedRows(c, partners, [], e, jobId, 0);
    hide Receive, Open;
  }

  /** The destination has the document and owes its receipt; the sender's attempt counts as failed. */
  ghost predicate HalfWay(w: World, sender: string, dest: string, e: FidexEnvelope, jobId: string) {
    && sender in w.nodes && dest in w.nodes && e.routing.messageId != ""
    && (var n := w.nodes[sender];
        && n.worker.Polling? && n.worker.flight.Answered? && n.worker.flight.result.Some?
        && n.worker.flight.row.retryCount >= 0 && |n.rows| > 0 && n.rows[0].id == e.routing.messageId)
    && (var n := w.nodes[dest];
        && n.worker == Idle && |n.rows| == 2 && n.rows[0].status != Queued
        && n.rows[1] == Stamped(JmdnRow(e, jobId, 0)))
  }

  lemma FirstAnswerLost(
    cfgs: Configs, w: World, sender: string, dest: string, sending: Partners, receiving: Partners,
    req: TransmitRequest, id: string, jobId: string, base: string, destBase: string, stamp: string)
    returns (e: FidexEnvelope, w': World)
    requires Acquainted(cfgs, sender, dest, sending, receiving, req, base, destBase)
    requires id != "" && jobId != "" && jobId != id && req.docType != "receipt"
    requires w.nodes.Keys == cfgs.Keys && w.nodes[dest] == INITIAL
    requires var row := QueuedRow(req, id); w.nodes[sender] == State([row], Polling([row], Ready), 0, [], [], {})
    ensures WorldStep(cfgs, w, Call(sender, sending, stamp, ResponseLost, receiving, jobId)) == Some(w')
    ensures w'.nodes.Keys == cfgs.Keys && e.routing.messageId == id && e.routing.sender == sender
    ensures HalfWay(w', sender, dest, e, jobId)
  {
    hide WorldStep, Open, CanSendTo, CanReceiveFrom, Honest, ValidEnvelope, ValidTransmit, Has;
    FirstIsPoised(cfgs, w, sender, dest, sending, receiving, req, id, jobId, base, destBase);
    e := PoisedCall(cfgs, w, sender, sending, receiving, jobId, base, destBase, stamp, ResponseLost);
    hide Poised, Admit;
    FirstAdmitted(cfgs[dest], receiving, e, jobId);
    w' := WorldStep(cfgs, w, Call(sender, sending, stamp, ResponseLost, receiving, jobId)).value;
  }

  /** The failed attempt is booked, and the receiver's first job is delivered. */
  lemma ReceiptRound(
    cfgs: Configs, w: World, sender: string, dest: string, sending: Partners, receiving: Partners, e: FidexEnvelope,
    jobId: string, base: string, stamp: string)
    returns (book: WorldAction, begin: WorldAction, receipt: WorldAction, w': World)
    requires w.nodes.Keys == cfgs.Keys && Honest(cfgs, sending) && Honest(cfgs, receiving) && sender != dest
    requires sender in cfgs && dest in cfgs && sender != "" && cfgs[sender].engine.Some? && cfgs[dest].engine.Some?
    requires CanReceiveFrom(receiving, sender, cfgs[sender].engine.value.key, base) && e.routing.sender == sender
    requires HalfWay(w, sender, dest, e, jobId)
    ensures book == Local(sender, Book) && begin.Local? && receipt.Call? && receipt.caller == dest
    ensures WorldRun(cfgs, w, [book, begin, receipt]) == Some(w') && sender in w'.nodes
    ensures |w'.nodes[sender].rows| > 0 && w'.nodes[sender].rows[0].id == e.routing.messageId
    ensures w'.nodes[sender].rows[0].status == Delivered
  {
    hide WorldRun, WorldStep, Honest, CanReceiveFrom;
    var n, job := w.nodes[dest], Stamped(JmdnRow(e, jobId, 0));
    BookFailure(cfgs[sender], w.nodes[sender]);
    assert n.rows == [n.rows[0]] + [job];
    BeginWithOne(cfgs[dest], n, [n.rows[0]], job);
    hide Step;
    book, begin := Local(sender, Book), Local(dest, BeginPoll([job]));
    var booked := Step(cfgs[sender], w.nodes[sender], Book).value;
    LocalStep(cfgs, w, sender, Book, booked);
    var w4 := w.(nodes := w.nodes[sender := booked]);
    LocalStep(cfgs, w4, dest, BeginPoll([job]), n.(worker := Polling([job], Ready)));
    var w5 := w4.(nodes := w4.nodes[dest := n.(worker := Polling([job], Ready))]);
    receipt := Call(dest, receiving, stamp, Returned, sending, jobId + "-receipt");
    ReceiptAttemptCloses(cfgs, w5, dest, receiving, stamp, Returned, sending, jobId + "-receipt", sender, base, 0);
    w' := WorldStep(cfgs, w5, receipt).value;
    assert [book] + ([begin] + ([receipt] + [])) == [book, begin, receipt];
    WorldRunCons(cfgs, w, book, [begin] + ([receipt] + []));
    WorldRunCons(cfgs, w4, begin, [receipt] + []);
    WorldRunCons(cfgs, w5, receipt, []);
    WorldRunNothing(cfgs, w');
  }

  /** From the first attempt on: its answer is lost, the failure is booked, and the receipt comes round. */
  lemma RoundAfterLostAnswer(
    cfgs: Configs, w: World, sender: string, dest: string, sending: Partners, receiving: Partners,
    req: TransmitRequest, id: string, jobId: string, base: string, destBase: string, stamp: string)
    returns (begin: WorldAction, receipt: WorldAction, w': World)
    requires Acquainted(cfgs, sender, dest, sending, receiving, req, base, destBase)
    requires id != "" && jobId != "" && jobId != id && req.docType != "receipt"
    requires w.nodes.Keys == cfgs.Keys && w.nodes[dest] == INITIAL
    requires var row := QueuedRow(req, id); w.nodes[sender] == State([row], Polling([row], Ready), 0, [], [], {})
    ensures begin.Local? && receipt.Call? && receipt.caller == dest
    ensures var call := Call(sender, sending, stamp, ResponseLost, receiving, jobId);
            WorldRun(cfgs, w, [call, Local(sender, Book), begin, receipt]) == Some(w')
    ensures sender in w'.nodes && |w'.nodes[sender].rows| > 0
    ensures w'.nodes[sender].rows[0].id == id && w'.nodes[sender].rows[0].status == Delivered
  {
    hide WorldRun, WorldStep, Honest, CanSendTo, CanReceiveFrom, ValidTransmit, HalfWay;
    var e, w1 := FirstAnswerLost(cfgs, w, sender, dest, sending, receiving, req, id, jobId, base, destBase, stamp);
    var call := Call(sender, sending, stamp, ResponseLost, receiving, jobId);
    var book;
    book, begin, receipt, w' := ReceiptRound(cfgs, w1, sender, dest, sending, receiving, e, jobId, base, stamp);
    WorldRunCons(cfgs, w, call, [book, begin, receipt]);
    assert [call] + [book, begin, receipt] == [call, book, begin, receipt];
  }

  /** The way round is open too: when the answer is lost, the receipt alone takes the row to DELIVERED. */
  lemma ReceiptPathIsReachable(
    cfgs: Configs, sender: string, dest: string, sending: Partners, receiving: Partners, req: TransmitRequest,
    id: string, jobId: string, base: string, destBase: string, stamp: string)
    returns (actions: seq<WorldAction>, w: World)
    requires Acquainted(cfgs, sender, dest, sending, receiving, req, base, destBase)
    requires id != "" && jobId != "" && jobId != id && req.docType != "receipt"
    ensures WorldRun(cfgs, InitialWorld(cfgs), actions) == Some(w) && sender in w.nodes
    ensures |w.nodes[sender].rows| > 0 && w.nodes[sender].rows[0].id == id
    ensures w.nodes[sender].rows[0].status == Delivered
    ensures forall k :: 0 <= k < |actions| && actions[k].Call? && actions[k].caller == sender ==>
              actions[k].outcome == ResponseLost
  {
    hide WorldRun, WorldStep, Honest, CanSendTo, CanReceiveFrom, QueuedRow, ValidTransmit;
    var w2 := FirstPass(cfgs, sender, req, id);
    var begin, receipt;
    begin, receipt, w :=
      RoundAfterLostAnswer(cfgs, w2, sender, dest, sending, receiving, req, id, jobId, base, destBase, stamp);
    hide *;
    var transmit, poll := Local(sender, Transmit(req, id)), Local(sender, BeginPoll([QueuedRow(req, id)]));
    var call := Call(sender, sending, stamp, ResponseLost, receiving, jobId);
    WorldRunAppend(cfgs, InitialWorld(cfgs), [transmit, poll], [call, Local(sender, Book), begin, receipt]);
    actions := [transmit, poll, call, Local(sender, Book), begin, receipt];
    assert [transmit, poll] + [call, Local(sender, Book), begin, receipt] == actions;
  }
}

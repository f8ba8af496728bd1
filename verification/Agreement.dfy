/** Agreement between honest nodes: DELIVERED at the sender means held, as sent, at the receiver. */
module Agreement {
  import opened Basics
  import opened CryptoLaws
  import opened Messages
  import opened Delivery
  import opened Handlers
  import opened Node
  import opened Admission
  import opened Network

  lemma {:induction false} JobIsListed(t: seq<Row>, k: nat)
    requires k < |t| && IsJob(t[k])
    ensures JobKey(t[k]) in JobsOf(t)
  {
    if k < |t| - 1 {
      JobIsListed(t[..|t| - 1], k);
    }
  }

  lemma {:induction false} OwedWasAccepted(receptions: seq<Reception>, key: (string, string))
    requires key in Owed(receptions)
    ensures exists k :: 0 <= k < |receptions| && receptions[k].code == ACCEPTED
              && receptions[k].env.routing.messageId == key.0 && receptions[k].env.routing.sender == key.1
  {
    var front, last := receptions[..|receptions| - 1], receptions[|receptions| - 1];
    if key in Owed(front) {
      OwedWasAccepted(front, key);
      var k :| 0 <= k < |front| && front[k].code == ACCEPTED
        && front[k].env.routing.messageId == key.0 && front[k].env.routing.sender == key.1;
      assert receptions[k] == front[k];
    } else {
      assert receptions[|receptions| - 1] == last;
    }
  }

  /** Every J-MDN job acknowledges a message the node accepted from the job's recipient. */
  lemma JobWasAccepted(c: Config, n: State, row: Row)
    requires NodeOk(c, n) && Tracks(n.rows, row) && IsJob(row)
    ensures AcceptedFrom(n, JobKey(row).0, JobKey(row).1)
  {
    var k :| 0 <= k < |n.rows| && n.rows[k].(status := Queued) == row;
    JobIsListed(n.rows, k);
    assert JobKey(n.rows[k]) == JobKey(row);
    OwedWasAccepted(n.receptions, JobKey(row));
  }

  lemma TakenRow(c: Config, n: State)
    requires NodeOk(c, n) && CanTake(n)
    ensures RowOk(c, n.worker.todo[0]) && Tracks(n.rows, n.worker.todo[0])
  {
    assert Pending(n.worker)[0] == n.worker.todo[0];
  }

  lemma BusinessPlan(cfgs: Configs, at: string, partners: Partners, row: Row, stamp: string)
    requires WellFormed(cfgs) && Honest(cfgs, partners) && at in cfgs
    requires PlanBusiness(cfgs[at], partners, row, stamp).Ok? && row.dir == Outbound && row.jobType == PROCESS_OUTBOUND
    ensures var post := PlanBusiness(cfgs[at], partners, row, stamp).value;
            && post.body.EnvelopeBody?
            && post.url == Url(row.payload.req.destination, InboundRoute)
            && post.body.env.routing.receiver == row.payload.req.destination
            && post.body.env.routing.sender == at && BuiltFrom(cfgs, post.body.env, row)
  {
    var dest := row.payload.req.destination;
    assert HonestEntry(cfgs, dest, partners[dest]);
    ExportedKeyByUse(cfgs[dest].engine.value, dest + ":enc", "enc");
  }

  lemma JmdnPlan(cfgs: Configs, at: string, partners: Partners, row: Row, stamp: string)
    requires WellFormed(cfgs) && Honest(cfgs, partners) && at in cfgs
    requires PlanJmdn(cfgs[at], partners, row, stamp).Ok?
    requires row.payload.JobText? && row.payload.job.status == "processed"
    ensures var post := PlanJmdn(cfgs[at], partners, row, stamp).value;
            && post.body.FlatBody? && post.url.Url?
            && post.url.host == row.payload.job.recipient && post.url.host in cfgs
            && post.body.receipt.status == "DELIVERED" && post.body.receipt.receiverId == at
            && post.body.receipt.originalId == row.payload.job.originalId
  {
    var to := row.payload.job.recipient;
    assert HonestEntry(cfgs, to, partners[to]);
  }

  /** What an honest node posts is genuine, and a document goes to the destination of its row. */
  lemma PlanIsGenuine(cfgs: Configs, w: World, at: string, partners: Partners, stamp: string)
    requires WellFormed(cfgs) && WorldOk(cfgs, w) && Honest(cfgs, partners)
    requires at in cfgs && CanTake(w.nodes[at])
    requires Plan(cfgs[at], partners, w.nodes[at].worker.todo[0], stamp).Ok?
    ensures var row := w.nodes[at].worker.todo[0];
            var post := Plan(cfgs[at], partners, row, stamp).value;
            && Genuine(cfgs, w, post)
            && (IsBusiness(row) ==>
                  post.body.EnvelopeBody? && post.url == Url(row.payload.req.destination, InboundRoute)
                  && post.body.env.routing.messageId == row.id && post.body.env.routing.sender == at)
  {
    var n := w.nodes[at];
    var row := n.worker.todo[0];
    assert NodeFine(cfgs, w, at);
    TakenRow(cfgs[at], n);
    var post := Plan(cfgs[at], partners, row, stamp).value;
    if row.jobType == SEND_JMDN {
      JmdnPlan(cfgs, at, partners, row, stamp);
      JobWasAccepted(cfgs[at], n, row);
    } else {
      BusinessPlan(cfgs, at, partners, row, stamp);
      var k :| 0 <= k < |n.rows| && n.rows[k].(status := Queued) == row;
      assert BuiltFrom(cfgs, post.body.env, n.rows[k]);
    }
  }

  /** How an honest receipt is read: it names a message unless its id is empty, and is good news. */
  lemma FlatReceiptReads(c: Config, partners: Partners, f: FlatReceipt)
    requires f.status == "DELIVERED"
    ensures var b := AsReceipt(FlatBody(f));
            && (ValidReceipt(b) <==> f.originalId != "")
            && (ValidReceipt(b) ==> DispositionOf(c, partners, b) == Disposition(f.originalId, "DELIVERED"))
            && VerdictOf("DELIVERED") == Delivered
  {
    hide ToUpper;
    assert |ToUpper("DELIVERED")| > |"FAILED"| > |"ERROR"|;
  }

  /** What an honest receipt does to the table: it adds at most one inbound row, and marks the row it names. */
  lemma FlatReceiptEffect(c: Config, partners: Partners, t: seq<Row>, f: FlatReceipt, now: int)
    requires f.status == "DELIVERED"
    ensures var u := Reconcile(c, partners, t, AsReceipt(FlatBody(f)), now).0;
            && |u| >= |t|
            && (forall k :: 0 <= k < |t| ==>
                  u[k] == if t[k].id == f.originalId && f.originalId != "" then t[k].(status := Delivered) else t[k])
            && (forall k :: |t| <= k < |u| ==> u[k].dir == Inbound)
  {
    hide AsReceipt, Reconcile, ValidReceipt, DispositionOf, VerdictOf, Newborn;
    FlatReceiptReads(c, partners, f);
    ReconcileShape(c, partners, t, AsReceipt(FlatBody(f)), now);
  }

  /** An accepted envelope was built from a document row of its sender, for the node that accepted it. */
  lemma AcceptedWasBuilt(cfgs: Configs, w: World, at: string, m: nat) returns (k: nat)
    requires WorldOk(cfgs, w) && at in cfgs
    requires m < |w.nodes[at].receptions| && w.nodes[at].receptions[m].code == ACCEPTED
    ensures var e := w.nodes[at].receptions[m].env;
            && e.routing.receiver == at && e.routing.sender in w.nodes && k < |w.nodes[e.routing.sender].rows|
            && BuiltFrom(cfgs, e, w.nodes[e.routing.sender].rows[k])
  {
    hide NodeOk, DeliveredWasAccepted, BuiltFrom;
    var e := w.nodes[at].receptions[m].env;
    assert NodeFine(cfgs, w, at);
    var post := Post(Url(at, InboundRoute), EnvelopeBody(e));
    assert post in w.posts && Genuine(cfgs, w, post);
    k :| 0 <= k < |w.nodes[e.routing.sender].rows| && BuiltFrom(cfgs, e, w.nodes[e.routing.sender].rows[k]);
  }

  lemma UniqueIdsAt(cfgs: Configs, w: World, p: string)
    requires WorldOk(cfgs, w) && p in w.nodes
    ensures UniqueIds(w.nodes[p].rows)
  {
    assert NodeFine(cfgs, w, p);
  }

  /** The row is the one of that id. */
  lemma AcceptedIsBuiltFrom(cfgs: Configs, w: World, at: string, m: nat, k: nat)
    requires WorldOk(cfgs, w) && at in cfgs
    requires m < |w.nodes[at].receptions| && w.nodes[at].receptions[m].code == ACCEPTED
    requires var e := w.nodes[at].receptions[m].env;
             e.routing.sender in w.nodes && k < |w.nodes[e.routing.sender].rows|
             && w.nodes[e.routing.sender].rows[k].id == e.routing.messageId
    ensures var e := w.nodes[at].receptions[m].env;
            e.routing.receiver == at && BuiltFrom(cfgs, e, w.nodes[e.routing.sender].rows[k])
  {
    var e := w.nodes[at].receptions[m].env;
    var l := AcceptedWasBuilt(cfgs, w, at, m);
    UniqueIdsAt(cfgs, w, e.routing.sender);
    hide WorldOk;
    assert l == k;
  }

  /** Whoever accepted a message from a node is the destination of the node's row of that id. */
  lemma AcceptedNamesItsRow(cfgs: Configs, w: World, holder: string, id: string, sender: string, k: nat)
    requires WorldOk(cfgs, w) && AcceptedAt(w, holder, id, sender) && sender in w.nodes
    requires k < |w.nodes[sender].rows| && w.nodes[sender].rows[k].id == id
    ensures IsBusiness(w.nodes[sender].rows[k]) && w.nodes[sender].rows[k].payload.req.destination == holder
  {
    var h := w.nodes[holder];
    var l :| 0 <= l < |h.receptions| && h.receptions[l].code == ACCEPTED
      && h.receptions[l].env.routing.messageId == id && h.receptions[l].env.routing.sender == sender;
    AcceptedIsBuiltFrom(cfgs, w, holder, l, k);
  }

  /** A receipt that arrives marks only documents that were accepted. */
  lemma ReceiptIsHarmless(cfgs: Configs, w: World, at: string, f: FlatReceipt, n': State)
    requires WorldOk(cfgs, w) && at in cfgs && AcceptedAt(w, f.receiverId, f.originalId, at)
    requires n'.worker == w.nodes[at].worker
    requires var r, t := w.nodes[at].rows, n'.rows;
             && |t| >= |r| && (forall k :: |r| <= k < |t| ==> t[k].dir == Inbound)
             && (forall k :: 0 <= k < |r| ==>
                   t[k] == if r[k].id == f.originalId && f.originalId != "" then r[k].(status := Delivered) else r[k])
    ensures DeliveredWasAccepted(w, at, n')
  {
    var n, t := w.nodes[at], n'.rows;
    assert DeliveredWasAccepted(w, at, n);
    forall k | 0 <= k < |t| && IsBusiness(t[k]) && t[k].status == Delivered
      ensures AcceptedAt(w, t[k].payload.req.destination, t[k].id, at)
    {
      if n.rows[k].id == f.originalId {
        AcceptedNamesItsRow(cfgs, w, f.receiverId, f.originalId, at, k);
      } else {
        assert t[k] == n.rows[k];
      }
    }
  }

  /** An envelope that arrives leaves no delivered document behind. */
  lemma EnvelopeIsHarmless(
    cfgs: Configs, w: World, at: string, partners: Partners, body: InboundBody, jobId: string,
    receptions: seq<Reception>)
    requires WorldOk(cfgs, w) && at in cfgs
    ensures var n := w.nodes[at];
            var t := Receive(cfgs[at], partners, n.rows, body, jobId, n.clock).0;
            DeliveredWasAccepted(w, at, n.(rows := t, receptions := receptions))
  {
    hide NodeOk, Genuine, AcceptedWasPosted, BuiltFrom, PostsOk;
    var n := w.nodes[at];
    assert DeliveredWasAccepted(w, at, n);
    hide WorldOk, Receive, AcceptedAt;
    ReceiveShape(cfgs[at], partners, n.rows, body, jobId, n.clock);
    var t := Receive(cfgs[at], partners, n.rows, body, jobId, n.clock).0;
    assert forall k :: 0 <= k < |n.rows| ==> t[k] == t[..|n.rows|][k];
  }

  lemma ReceiptKeepsNode(cfgs: Configs, w: World, post: Post, partners: Partners, jobId: string)
    requires WorldOk(cfgs, w) && post in w.posts && post.url.Url?
    requires post.url.host in cfgs && post.url.route == ReceiptRoute
    ensures var at := post.url.host;
            var r := Step(cfgs[at], w.nodes[at], Arrival(post, partners, jobId));
            r.Some? && DeliveredWasAccepted(w, at, r.value) && r.value.receptions == w.nodes[at].receptions
  {
    hide NodeOk, DeliveredWasAccepted, AcceptedWasPosted, Reconcile;
    var at := post.url.host;
    var n := w.nodes[at];
    var t := Reconcile(cfgs[at], partners, n.rows, AsReceipt(post.body), n.clock).0;
    assert Genuine(cfgs, w, post);
    FlatReceiptEffect(cfgs[at], partners, n.rows, post.body.receipt, n.clock);
    var n' := Step(cfgs[at], n, Arrival(post, partners, jobId)).value;
    assert n'.rows == t;
    ReceiptIsHarmless(cfgs, w, at, post.body.receipt, n');
  }

  lemma EnvelopeStepShape(c: Config, n: State, partners: Partners, body: InboundBody, jobId: string)
    requires body.Envelope? && Step(c, n, ReceiveEnvelope(partners, body, jobId)).Some?
    ensures var (t, answer) := Receive(c, partners, n.rows, body, jobId, n.clock);
            Step(c, n, ReceiveEnvelope(partners, body, jobId)).value
            == n.(rows := t, receptions := n.receptions + [Reception(body.env, answer.code, partners)])
  {
    hide Receive;
  }

  lemma EnvelopeKeepsNode(cfgs: Configs, w: World, post: Post, partners: Partners, jobId: string)
    requires WorldOk(cfgs, w) && post in w.posts && post.url.Url?
    requires post.url.host in cfgs && post.url.route == InboundRoute
    requires var at := post.url.host;
             Step(cfgs[at], w.nodes[at], ReceiveEnvelope(partners, AsInbound(post.body), jobId)).Some?
    ensures var at := post.url.host;
            var n' := Step(cfgs[at], w.nodes[at], ReceiveEnvelope(partners, AsInbound(post.body), jobId)).value;
            && DeliveredWasAccepted(w, at, n')
            && (AcceptedWasPosted(w.posts, at, w.nodes[at]) ==> AcceptedWasPosted(w.posts, at, n'))
  {
    hide NodeOk, DeliveredWasAccepted, Receive, Step, Open;
    var at, body := post.url.host, AsInbound(post.body);
    var n := w.nodes[at];
    assert w.nodes.Keys == cfgs.Keys && Genuine(cfgs, w, post);
    hide WorldOk, Genuine;
    EnvelopeStepShape(cfgs[at], n, partners, body, jobId);
    ReceiveExactly(cfgs[at], partners, n.rows, body, jobId, n.clock);
    var code := Receive(cfgs[at], partners, n.rows, body, jobId, n.clock).1.code;
    EnvelopeIsHarmless(cfgs, w, at, partners, body, jobId,
                       n.receptions + [Reception(body.env, code, partners)]);
    if post.body.EnvelopeBody? {
      assert post == Post(Url(at, InboundRoute), EnvelopeBody(body.env));
    }
  }

  /** Whatever arrives, the receiver stays in order. */
  lemma ArrivalKeepsNode(cfgs: Configs, w: World, post: Post, partners: Partners, jobId: string)
    requires WorldOk(cfgs, w) && post in w.posts && post.url.Url? && post.url.host in cfgs
    requires Step(cfgs[post.url.host], w.nodes[post.url.host], Arrival(post, partners, jobId)).Some?
    ensures var at := post.url.host;
            var n' := Step(cfgs[at], w.nodes[at], Arrival(post, partners, jobId)).value;
            DeliveredWasAccepted(w, at, n') && AcceptedWasPosted(w.posts, at, n')
  {
    assert NodeFine(cfgs, w, post.url.host);
    if post.url.route == ReceiptRoute {
      ReceiptKeepsNode(cfgs, w, post, partners, jobId);
    } else {
      EnvelopeKeepsNode(cfgs, w, post, partners, jobId);
    }
  }

  lemma ArriveKeepsWorld(cfgs: Configs, w: World, post: Post, partners: Partners, jobId: string)
    requires WorldOk(cfgs, w) && post in w.posts && Arrive(cfgs, w, post, partners, jobId).Some?
    ensures WorldOk(cfgs, Arrive(cfgs, w, post, partners, jobId).value)
  {
    hide NodeOk, AcceptedWasPosted, DeliveredWasAccepted, Genuine, Grows, Step;
    var at := post.url.host;
    assert NodeFine(cfgs, w, at);
    ArrivalKeepsNode(cfgs, w, post, partners, jobId);
    StepGrows(cfgs[at], w.nodes[at], Arrival(post, partners, jobId));
    NodeStepKeepsWorld(cfgs, w, at, Step(cfgs[at], w.nodes[at], Arrival(post, partners, jobId)).value);
  }

  /** A 2xx answer to a document means it has been accepted, now. */
  lemma PositiveAnswerMeansAccepted(cfgs: Configs, w: World, post: Post, partners: Partners, jobId: string)
    requires w.nodes.Keys == cfgs.Keys && post.body.EnvelopeBody? && post.url.Url? && post.url.route == InboundRoute
    requires Arrive(cfgs, w, post, partners, jobId).Some?
    requires 200 <= AnswerCode(cfgs[post.url.host], w.nodes[post.url.host], post, partners, jobId) < 300
    ensures var e := post.body.env;
            var w' := Arrive(cfgs, w, post, partners, jobId).value;
            AcceptedAt(w', post.url.host, e.routing.messageId, e.routing.sender)
  {
    hide Receive, Open, ValidEnvelope, Has, Arrive, Step;
    var at := post.url.host;
    ArriveUnfolds(cfgs, w, post, partners, jobId);
    var n := w.nodes[at];
    EnvelopeStepShape(cfgs[at], n, partners, AsInbound(post.body), jobId);
    ReceiveExactly(cfgs[at], partners, n.rows, AsInbound(post.body), jobId, n.clock);
    var n' := Arrive(cfgs, w, post, partners, jobId).value.nodes[at];
    assert n'.receptions[|n.receptions|] == Reception(post.body.env, ACCEPTED, partners);
  }

  /** A positive result on a document must be backed by an acceptance. */
  ghost predicate Backed(cfgs: Configs, w: World, at: string, partners: Partners, stamp: string, reply: HttpReply)
    requires at in cfgs && at in w.nodes && CanTake(w.nodes[at])
  {
    var row := w.nodes[at].worker.todo[0];
    DeliveryResult(cfgs[at], partners, row, stamp, reply).None? && IsBusiness(row)
    ==> AcceptedAt(w, row.payload.req.destination, row.id, at)
  }

  lemma DeliverKeepsDelivered(cfgs: Configs, w: World, at: string, partners: Partners, stamp: string, reply: HttpReply)
    requires at in cfgs && at in w.nodes && CanTake(w.nodes[at]) && DeliveredWasAccepted(w, at, w.nodes[at])
    requires Step(cfgs[at], w.nodes[at], Deliver(partners, stamp, reply)).Some?
    requires Backed(cfgs, w, at, partners, stamp, reply)
    ensures var n' := Step(cfgs[at], w.nodes[at], Deliver(partners, stamp, reply)).value;
            DeliveredWasAccepted(w, at, n') && n'.receptions == w.nodes[at].receptions
  {
    hide AcceptedAt, DeliveryResult;
  }

  lemma DeliverKeepsWorld(cfgs: Configs, w: World, at: string, partners: Partners, stamp: string, reply: HttpReply)
    requires WorldOk(cfgs, w) && at in cfgs && CanTake(w.nodes[at])
    requires Step(cfgs[at], w.nodes[at], Deliver(partners, stamp, reply)).Some?
    requires Backed(cfgs, w, at, partners, stamp, reply)
    ensures var n' := Step(cfgs[at], w.nodes[at], Deliver(partners, stamp, reply)).value;
            WorldOk(cfgs, w.(nodes := w.nodes[at := n']))
  {
    hide NodeOk, Genuine, DeliveredWasAccepted, Step, Backed;
    var n := w.nodes[at];
    var n' := Step(cfgs[at], n, Deliver(partners, stamp, reply)).value;
    assert NodeFine(cfgs, w, at) && DeliveredWasAccepted(w, at, n);
    StepGrows(cfgs[at], n, Deliver(partners, stamp, reply));
    DeliverKeepsDelivered(cfgs, w, at, partners, stamp, reply);
    assert AcceptedWasPosted(w.posts, at, n');
    hide WorldOk, AcceptedWasPosted;
    NodeStepKeepsWorld(cfgs, w, at, n');
  }

  /** A booking step marks a row DELIVERED only if its attempt got a 2xx answer. */
  lemma DeliveredByBooking(c: Config, n: State)
    requires Step(c, n, Book).Some?
    ensures var n' := Step(c, n, Book).value;
            && |n'.rows| == |n.rows| && n'.receptions == n.receptions
            && (n'.worker.Polling? ==> !n'.worker.flight.Answered?)
            && forall k :: 0 <= k < |n.rows| ==>
                 SameMessage(n.rows[k], n'.rows[k])
                 && (n'.rows[k].status == Delivered ==>
                       n.rows[k].status == Delivered
                       || (n.worker.flight.Answered? && n.worker.flight.result.None?
                           && n.rows[k].id == n.worker.flight.row.id))
  {
    hide Backoff, ShouldRetry;
  }

  lemma BookKeepsDelivered(cfgs: Configs, w: World, at: string)
    requires WorldOk(cfgs, w) && at in cfgs && Step(cfgs[at], w.nodes[at], Book).Some?
    ensures DeliveredWasAccepted(w, at, Step(cfgs[at], w.nodes[at], Book).value)
  {
    hide Genuine, AcceptedWasPosted, BuiltFrom, ReceptionsOk, PostsOk, Evolved;
    var n := w.nodes[at];
    var n' := Step(cfgs[at], n, Book).value;
    assert NodeFine(cfgs, w, at) && DeliveredWasAccepted(w, at, n);
    assert RowsOk(cfgs[at], n.rows) && WorkerOk(cfgs[at], n.rows, n.worker);
    assert n.worker.Polling? && !n.worker.flight.Ready?;
    DeliveredByBooking(cfgs[at], n);
    hide WorldOk, NodeFine, RowsOk, WorkerOk, Step, AcceptedAt;
    forall k | 0 <= k < |n'.rows| && IsBusiness(n'.rows[k]) && n'.rows[k].status == Delivered
      ensures AcceptedAt(w, n'.rows[k].payload.req.destination, n'.rows[k].id, at)
    {
      assert SameMessage(n.rows[k], n'.rows[k]);
      if n.rows[k].id == n.worker.flight.row.id {
        assert Pending(n.worker)[0] == n.worker.flight.row;
        PendingRow(cfgs[at], n, 0, k);
      }
    }
  }

  lemma LocalKeepsDelivered(cfgs: Configs, w: World, at: string, a: Action)
    requires WorldOk(cfgs, w) && at in cfgs && IsLocal(a) && !a.Book? && Step(cfgs[at], w.nodes[at], a).Some?
    ensures DeliveredWasAccepted(w, at, Step(cfgs[at], w.nodes[at], a).value)
  {
    hide NodeOk, Genuine, AcceptedAt, UniqueIds;
    var n := w.nodes[at];
    var n' := Step(cfgs[at], n, a).value;
    assert DeliveredWasAccepted(w, at, n);
    assert forall k :: 0 <= k < |n.rows| ==> n'.rows[k] == n.rows[k];
    assert forall k :: |n.rows| <= k < |n'.rows| ==> n'.rows[k].status == Queued;
  }

  lemma LocalKeepsReceptions(c: Config, n: State, a: Action)
    requires IsLocal(a) && Step(c, n, a).Some?
    ensures Step(c, n, a).value.receptions == n.receptions
  {
    hide Enqueue, SetStatus, SetRetry, IsListing, Due;
  }

  lemma LocalKeepsWorld(cfgs: Configs, w: World, at: string, a: Action)
    requires WorldOk(cfgs, w) && at in cfgs && IsLocal(a) && Step(cfgs[at], w.nodes[at], a).Some?
    ensures WorldOk(cfgs, w.(nodes := w.nodes[at := Step(cfgs[at], w.nodes[at], a).value]))
  {
    hide NodeOk, Genuine, DeliveredWasAccepted, Step;
    var n := w.nodes[at];
    var n' := Step(cfgs[at], n, a).value;
    LocalKeepsReceptions(cfgs[at], n, a);
    assert NodeFine(cfgs, w, at);
    StepGrows(cfgs[at], n, a);
    assert AcceptedWasPosted(w.posts, at, n');
    hide WorldOk, AcceptedWasPosted, Grows;
    if a.Book? {
      BookKeepsDelivered(cfgs, w, at);
    } else {
      LocalKeepsDelivered(cfgs, w, at, a);
    }
    NodeStepKeepsWorld(cfgs, w, at, n');
  }

  lemma ArriveKeepsWorker(cfgs: Configs, w: World, post: Post, partners: Partners, jobId: string, at: string)
    requires w.nodes.Keys == cfgs.Keys && Arrive(cfgs, w, post, partners, jobId).Some? && at in cfgs
    ensures var w2 := Arrive(cfgs, w, post, partners, jobId).value;
            w2.nodes.Keys == cfgs.Keys && w2.nodes[at].worker == w.nodes[at].worker && w2.posts == w.posts
            && w2.nodes[at].attempts == w.nodes[at].attempts
  {
  }

  /** The request has been posted; it arrives, and the caller learns the answer or not. */
  lemma AnsweredCallKeepsWorld(cfgs: Configs, w: World, a: WorldAction, post: Post)
    requires w.nodes.Keys == cfgs.Keys && WorldOk(cfgs, w)
    requires a.Call? && a.caller in cfgs && CanTake(w.nodes[a.caller])
    requires post in w.posts && post.url.Url? && post.url.host in cfgs
    requires Arrive(cfgs, w, post, a.peerPartners, a.jobId).Some?
    requires var row := w.nodes[a.caller].worker.todo[0];
             && Plan(cfgs[a.caller], a.partners, row, a.stamp) == Ok(post)
             && (IsBusiness(row) ==>
                   post.body.EnvelopeBody? && post.url == Url(row.payload.req.destination, InboundRoute)
                   && post.body.env.routing.messageId == row.id && post.body.env.routing.sender == a.caller)
    ensures var w2 := Arrive(cfgs, w, post, a.peerPartners, a.jobId).value;
            var code := AnswerCode(cfgs[post.url.host], w.nodes[post.url.host], post, a.peerPartners, a.jobId);
            var reply := if a.outcome == ResponseLost then NoReply else Reply(code);
            var n' := Step(cfgs[a.caller], w2.nodes[a.caller], Deliver(a.partners, a.stamp, reply));
            var r := Update(w2, a.caller, n');
            r.Some? ==> WorldOk(cfgs, r.value)
  {
    hide WorldOk, Arrive, Step, AnswerCode, Plan;
    var at := a.caller;
    var row := w.nodes[at].worker.todo[0];
    var w2 := Arrive(cfgs, w, post, a.peerPartners, a.jobId).value;
    var code := AnswerCode(cfgs[post.url.host], w.nodes[post.url.host], post, a.peerPartners, a.jobId);
    var reply := if a.outcome == ResponseLost then NoReply else Reply(code);
    ArriveKeepsWorld(cfgs, w, post, a.peerPartners, a.jobId);
    ArriveKeepsWorker(cfgs, w, post, a.peerPartners, a.jobId, at);
    if IsBusiness(row) && 200 <= code < 300 {
      PositiveAnswerMeansAccepted(cfgs, w, post, a.peerPartners, a.jobId);
    }
    if Step(cfgs[at], w2.nodes[at], Deliver(a.partners, a.stamp, reply)).Some? {
      DeliverKeepsWorld(cfgs, w2, at, a.partners, a.stamp, reply);
    }
  }

  lemma NoReplyFails(c: Config, partners: Partners, row: Row, stamp: string)
    ensures DeliveryResult(c, partners, row, stamp, NoReply).Some?
  {
    hide Plan;
  }

  /** An attempt without an answer changes nothing but its own bookkeeping. */
  lemma UnansweredKeepsWorld(cfgs: Configs, w: World, at: string, partners: Partners, stamp: string)
    requires WorldOk(cfgs, w) && at in cfgs && CanTake(w.nodes[at])
    requires Step(cfgs[at], w.nodes[at], Deliver(partners, stamp, NoReply)).Some?
    ensures var n' := Step(cfgs[at], w.nodes[at], Deliver(partners, stamp, NoReply)).value;
            WorldOk(cfgs, w.(nodes := w.nodes[at := n']))
  {
    assert w.nodes.Keys == cfgs.Keys;
    hide WorldOk, Plan, Step, IsBusiness, AcceptedAt, DeliveryResult;
    NoReplyFails(cfgs[at], partners, w.nodes[at].worker.todo[0], stamp);
    DeliverKeepsWorld(cfgs, w, at, partners, stamp, NoReply);
  }

  lemma CallKeepsWorld(cfgs: Configs, w: World, a: WorldAction)
    requires WellFormed(cfgs) && WorldOk(cfgs, w) && a.Call? && WorldStep(cfgs, w, a).Some?
    ensures WorldOk(cfgs, WorldStep(cfgs, w, a).value)
  {
    assert w.nodes.Keys == cfgs.Keys;
    hide WorldOk, Plan, Step, Honest, Arrive, AnswerCode, Genuine, WellFormed;
    var at := a.caller;
    var plan := Plan(cfgs[at], a.partners, w.nodes[at].worker.todo[0], a.stamp);
    if plan.Err? {
      UnansweredKeepsWorld(cfgs, w, at, a.partners, a.stamp);
    } else {
      PlanIsGenuine(cfgs, w, at, a.partners, a.stamp);
      PostKeepsWorld(cfgs, w, plan.value);
      var w1 := w.(posts := w.posts + [plan.value]);
      if a.outcome == RequestLost {
        UnansweredKeepsWorld(cfgs, w1, at, a.partners, a.stamp);
      } else {
        ArriveUnfolds(cfgs, w1, plan.value, a.peerPartners, a.jobId);
        AnsweredCallKeepsWorld(cfgs, w1, a, plan.value);
      }
    }
  }

  lemma WorldStepKeepsWorld(cfgs: Configs, w: World, a: WorldAction)
    requires WellFormed(cfgs) && WorldOk(cfgs, w) && WorldStep(cfgs, w, a).Some?
    ensures WorldOk(cfgs, WorldStep(cfgs, w, a).value)
  {
    match a {
      case Local(at, action) => LocalKeepsWorld(cfgs, w, at, action);
      case Call(_, _, _, _, _, _) => CallKeepsWorld(cfgs, w, a);
      case Redeliver(k, partners, jobId) => ArriveKeepsWorld(cfgs, w, w.posts[k], partners, jobId);
    }
  }

  lemma {:induction false} WorldRunKeepsWorld(cfgs: Configs, w: World, actions: seq<WorldAction>)
    requires WellFormed(cfgs) && WorldOk(cfgs, w) && WorldRun(cfgs, w, actions).Some?
    ensures WorldOk(cfgs, WorldRun(cfgs, w, actions).value)
    decreases |actions|
  {
    if actions == [] {
    } else {
      WorldStepKeepsWorld(cfgs, w, actions[0]);
      WorldRunKeepsWorld(cfgs, WorldStep(cfgs, w, actions[0]).value, actions[1..]);
    }
  }

  lemma InitialWorldOk(cfgs: Configs)
    ensures WorldOk(cfgs, InitialWorld(cfgs))
  {
  }

  lemma ReachableIsOk(cfgs: Configs, w: World)
    requires WellFormed(cfgs) && Reachable(cfgs, w)
    ensures WorldOk(cfgs, w)
  {
    hide WorldRun, WorldOk;
    InitialWorldOk(cfgs);
    var actions :| WorldRun(cfgs, InitialWorld(cfgs), actions) == Some(w);
    WorldRunKeepsWorld(cfgs, InitialWorld(cfgs), actions);
  }

  /** The node has accepted one envelope with this id, from this sender, and no other. */
  ghost predicate AcceptedOnceFrom(n: State, id: string, sender: string) {
    exists m :: 0 <= m < |n.receptions| && n.receptions[m].code == ACCEPTED
      && n.receptions[m].env.routing.messageId == id && n.receptions[m].env.routing.sender == sender
      && forall l :: 0 <= l < |n.receptions| && n.receptions[l].code == ACCEPTED && l != m ==>
           n.receptions[l].env.routing.messageId != id
  }

  lemma OnceAccepted(c: Config, h: State, m: nat)
    requires ReceptionsOk(c, h.rows, h.receptions)
    requires m < |h.receptions| && h.receptions[m].code == ACCEPTED
    ensures AcceptedOnceFrom(h, h.receptions[m].env.routing.messageId, h.receptions[m].env.routing.sender)
  {
    var id := h.receptions[m].env.routing.messageId;
    hide StoredAs, JobsOf, Owed;
    forall l | 0 <= l < |h.receptions| && h.receptions[l].code == ACCEPTED && l != m
      ensures h.receptions[l].env.routing.messageId != id
    {
    }
  }

  /** An INBOUND row has the message id of this document row, and exactly its document. */
  ghost predicate HoldsDocument(n: State, row: Row)
    requires row.payload.TransmitText?
  {
    exists l :: 0 <= l < |n.rows| && n.rows[l].id == row.id && n.rows[l].dir == Inbound
      && n.rows[l].payload == Document(row.payload.req.doc)
  }

  /** What an honest envelope carries is what its acceptance stored. */
  lemma HeldAsSent(cfgs: Configs, dest: string, h: State, m: nat, row: Row)
    requires dest in cfgs && ReceptionsOk(cfgs[dest], h.rows, h.receptions)
    requires m < |h.receptions| && h.receptions[m].code == ACCEPTED && BuiltFrom(cfgs, h.receptions[m].env, row)
    requires h.receptions[m].env.routing.receiver == dest
    ensures HoldsDocument(h, row)
  {
    assert StoredAs(cfgs[dest], h.rows, h.receptions[m].env);
  }

  lemma AcceptedIsHeld(cfgs: Configs, w: World, sender: string, k: nat)
    requires WorldOk(cfgs, w) && sender in cfgs && k < |w.nodes[sender].rows|
    requires IsBusiness(w.nodes[sender].rows[k]) && w.nodes[sender].rows[k].status == Delivered
    ensures var row := w.nodes[sender].rows[k];
            var dest := row.payload.req.destination;
            dest in w.nodes && AcceptedOnceFrom(w.nodes[dest], row.id, sender) && HoldsDocument(w.nodes[dest], row)
  {
    var row := w.nodes[sender].rows[k];
    var dest := row.payload.req.destination;
    assert DeliveredWasAccepted(w, sender, w.nodes[sender]);
    var h := w.nodes[dest];
    var m :| 0 <= m < |h.receptions| && h.receptions[m].code == ACCEPTED
      && h.receptions[m].env.routing.messageId == row.id && h.receptions[m].env.routing.sender == sender;
    AcceptedIsBuiltFrom(cfgs, w, dest, m, k);
    assert NodeFine(cfgs, w, dest);
    hide WorldOk, DeliveredWasAccepted, BuiltFrom, RowsOk, WorkerOk, AcceptedWasPosted;
    OnceAccepted(cfgs[dest], h, m);
    HeldAsSent(cfgs, dest, h, m, row);
  }

  /** Agreement. In every run of honest nodes, with requests and responses lost, delayed and repeated, a
      document marked DELIVERED at its sender, through the 2xx answer or through a receipt, is held by
      its destination in an INBOUND row with its message id and exactly its text; and the destination
      accepted it from this sender, once. */
  lemma DeliveredMeansHeld(cfgs: Configs, w: World, sender: string, k: nat)
    requires WellFormed(cfgs) && Reachable(cfgs, w) && sender in cfgs
    requires k < |w.nodes[sender].rows| && IsBusiness(w.nodes[sender].rows[k])
    requires w.nodes[sender].rows[k].status == Delivered
    ensures var row := w.nodes[sender].rows[k];
            var dest := row.payload.req.destination;
            dest in w.nodes && AcceptedOnceFrom(w.nodes[dest], row.id, sender) && HoldsDocument(w.nodes[dest], row)
  {
    ReachableIsOk(cfgs, w);
    hide Reachable, WorldOk;
    AcceptedIsHeld(cfgs, w, sender, k);
  }

  /** Origin, the other direction. In every such run, every envelope a node has answered 202 was built from a
      document row that its sender holds under this id, addressed to this node, and seals the document of
      that row with the sender's signature. */
  lemma AcceptedMeansSent(cfgs: Configs, w: World, at: string, m: nat)
    requires WellFormed(cfgs) && Reachable(cfgs, w) && at in cfgs
    requires m < |w.nodes[at].receptions| && w.nodes[at].receptions[m].code == ACCEPTED
    ensures var e := w.nodes[at].receptions[m].env;
            && e.routing.receiver == at && e.routing.sender in w.nodes
            && exists k :: 0 <= k < |w.nodes[e.routing.sender].rows|
                 && BuiltFrom(cfgs, e, w.nodes[e.routing.sender].rows[k])
  {
    ReachableIsOk(cfgs, w);
    hide Reachable, WorldOk, BuiltFrom;
    var k := AcceptedWasBuilt(cfgs, w, at, m);
  }
}

/** What admission promises over every run of a node, against arbitrary callers: a message is accepted
    at most once, and every accepted message is owed exactly one J-MDN job. */
module Admission {
  import opened Basics
  import opened Messages
  import opened Delivery
  import opened Handlers
  import opened Answers
  import opened Node

  /** An outbound J-MDN job, as the worker picks it up. */
  predicate IsJob(r: Row) {
    r.dir == Outbound && r.jobType == SEND_JMDN
  }

  /** Which message a job acknowledges, and to whom. */
  function JobKey(r: Row): (string, string) {
    if r.payload.JobText? then (r.payload.job.originalId, r.payload.job.recipient) else ("", "")
  }

  /** The jobs of the table, in insertion order. */
  function JobsOf(t: seq<Row>): seq<(string, string)> {
    if t == [] then []
    else JobsOf(t[..|t| - 1]) + if IsJob(t[|t| - 1]) then [JobKey(t[|t| - 1])] else []
  }

  predicate OwesReceipt(r: Reception) {
    r.code == ACCEPTED && r.env.routing.docType != "receipt"
  }

  /** The receipts the answers promise, in the order they were given: message id and sender of every
      accepted envelope that is not itself a receipt. */
  function Owed(receptions: seq<Reception>): seq<(string, string)> {
    if receptions == [] then []
    else
      var r := receptions[|receptions| - 1];
      Owed(receptions[..|receptions| - 1])
      + if OwesReceipt(r) then [(r.env.routing.messageId, r.env.routing.sender)] else []
  }

  /** The stored text of an accepted envelope: the document inside, for a node that can open it. */
  predicate Admitted(c: Config, e: FidexEnvelope, p: Payload) {
    if c.engine.None? then p == EnvelopeText(e)
    else
      && e.payload.Jwe? && e.payload.recipient == c.engine.value.key && e.payload.content.Jws?
      && p == StoredText(Ok(e.payload.content.payload), e)
  }

  ghost predicate StoredAs(c: Config, t: seq<Row>, e: FidexEnvelope) {
    exists i :: 0 <= i < |t| && t[i].id == e.routing.messageId && t[i].dir == Inbound && Admitted(c, e, t[i].payload)
  }

  /** A node with an engine has checked the envelope against the partner table it knew: it was encrypted to the
      node and signed with the sender's signing key. */
  predicate Vouched(c: Config, r: Reception) {
    c.engine.Some? ==> Authentic(c, r.known, r.env)
  }

  ghost predicate ReceptionsOk(c: Config, t: seq<Row>, receptions: seq<Reception>) {
    && (forall k :: 0 <= k < |receptions| && receptions[k].code == ACCEPTED ==>
          StoredAs(c, t, receptions[k].env) && Vouched(c, receptions[k]))
    && (forall k, l :: 0 <= k < l < |receptions| && receptions[k].code == ACCEPTED && receptions[l].code == ACCEPTED ==>
          receptions[k].env.routing.messageId != receptions[l].env.routing.messageId)
    && JobsOf(t) == Owed(receptions)
  }

  lemma JobsOfAppend(t: seq<Row>, r: Row)
    ensures JobsOf(t + [r]) == JobsOf(t) + if IsJob(r) then [JobKey(r)] else []
  {
    assert (t + [r])[..|t|] == t;
  }

  lemma OwedAppend(receptions: seq<Reception>, r: Reception)
    ensures Owed(receptions + [r])
         == Owed(receptions) + if OwesReceipt(r) then [(r.env.routing.messageId, r.env.routing.sender)] else []
  {
    assert (receptions + [r])[..|receptions|] == receptions;
  }

  /** Bookkeeping writes do not touch the jobs. */
  lemma {:induction false} JobsOfUpdate(t: seq<Row>, t': seq<Row>)
    requires |t| == |t'| && forall k :: 0 <= k < |t| ==> SameMessage(t[k], t'[k])
    ensures JobsOf(t) == JobsOf(t')
  {
    if t == [] {
    } else {
      JobsOfUpdate(t[..|t| - 1], t'[..|t| - 1]);
      assert SameMessage(t[|t| - 1], t'[|t| - 1]);
    }
  }

  lemma StoredStays(c: Config, t: seq<Row>, t': seq<Row>, e: FidexEnvelope)
    requires Evolved(t, t') && StoredAs(c, t, e)
    ensures StoredAs(c, t', e)
  {
    var i :| 0 <= i < |t| && t[i].id == e.routing.messageId && t[i].dir == Inbound && Admitted(c, e, t[i].payload);
    assert SameMessage(t[i], t'[i]);
  }

  /** Without new receptions, only the jobs matter. */
  lemma KeptWithoutReception(c: Config, t: seq<Row>, t': seq<Row>, receptions: seq<Reception>)
    requires ReceptionsOk(c, t, receptions) && Evolved(t, t') && JobsOf(t') == JobsOf(t)
    ensures ReceptionsOk(c, t', receptions)
  {
    forall k | 0 <= k < |receptions| && receptions[k].code == ACCEPTED ensures StoredAs(c, t', receptions[k].env) {
      StoredStays(c, t, t', receptions[k].env);
    }
  }

  /** Admission exactly: 202 is the answer to a well-formed envelope with a new id that the node can
      open; 409 to every well-formed envelope with a stored id, and then the table is untouched, even
      if the first one was quarantined; 401 leaves a quarantined row; 400 leaves nothing. */
  lemma ReceiveExactly(c: Config, partners: Partners, t: seq<Row>, body: InboundBody, jobId: string, now: int)
    ensures var (u, answer) := Receive(c, partners, t, body, jobId, now);
            && (answer.code == BAD_REQUEST <==> body.BadJson? || !ValidEnvelope(body.env))
            && (answer.code == BAD_REQUEST ==> u == t)
            && (body.Envelope? && ValidEnvelope(body.env) ==>
                  var id := body.env.routing.messageId;
                  && (answer.code == CONFLICT <==> Has(t, id))
                  && (answer.code == CONFLICT ==> u == t)
                  && (answer.code == UNAUTHORIZED <==> !Has(t, id) && Open(c, partners, body.env).Err?)
                  && (answer.code == UNAUTHORIZED ==>
                        |u| == |t| + 1 && u[..|t|] == t && u[|t|].id == id
                        && u[|t|].status == Quarantined && u[|t|].payload == EnvelopeText(body.env))
                  && (answer.code == ACCEPTED <==> !Has(t, id) && Open(c, partners, body.env).Ok?))
  {
  }

  /** The two rows an accepted envelope leaves, and no other change. */
  lemma AcceptedRows(c: Config, partners: Partners, t: seq<Row>, e: FidexEnvelope, jobId: string, now: int)
    requires Receive(c, partners, t, Envelope(e), jobId, now).1.code == ACCEPTED
    requires Fresh(t, jobId) && jobId != e.routing.messageId
    ensures var u := Receive(c, partners, t, Envelope(e), jobId, now).0;
            var first := Stamped(InboundRow(c, partners, e, now));
            u == t + [first] + if e.routing.docType == "receipt" then [] else [Stamped(JmdnRow(e, jobId, now))]
    ensures Admitted(c, e, InboundRow(c, partners, e, now).payload)
  {
    var t1 := t + [Stamped(InboundRow(c, partners, e, now))];
    forall k | 0 <= k < |t1| ensures t1[k].id != jobId {
      assert k < |t| ==> t1[k] == t[k];
    }
  }

  /** An answer other than 202 is no acceptance, whatever row it leaves. */
  lemma RefusalKeepsReceptions(c: Config, t: seq<Row>, u: seq<Row>, receptions: seq<Reception>, r: Reception)
    requires ReceptionsOk(c, t, receptions) && Evolved(t, u) && JobsOf(u) == JobsOf(t) && r.code != ACCEPTED
    ensures ReceptionsOk(c, u, receptions + [r])
  {
    OwedAppend(receptions, r);
    KeptWithoutReception(c, t, u, receptions);
    hide StoredAs, JobsOf, Evolved;
  }

  /** Acceptance adds its message, stored, under a new id, and the job it owes. */
  lemma AcceptanceKeepsReceptions(c: Config, t: seq<Row>, u: seq<Row>, receptions: seq<Reception>, r: Reception)
    requires ReceptionsOk(c, t, receptions) && Evolved(t, u) && r.code == ACCEPTED
    requires !Has(t, r.env.routing.messageId) && StoredAs(c, u, r.env) && Vouched(c, r)
    requires JobsOf(u) == JobsOf(t)
               + if r.env.routing.docType == "receipt" then [] else [(r.env.routing.messageId, r.env.routing.sender)]
    ensures ReceptionsOk(c, u, receptions + [r])
  {
    OwedAppend(receptions, r);
    hide JobsOf, Owed, Admitted, Vouched;
    forall k | 0 <= k < |receptions| && receptions[k].code == ACCEPTED
      ensures StoredAs(c, u, receptions[k].env) && receptions[k].env.routing.messageId != r.env.routing.messageId
    {
      assert StoredAs(c, t, receptions[k].env);
      StoredStays(c, t, u, receptions[k].env);
    }
    hide StoredAs, Evolved, Has;
  }

  lemma JobRow(e: FidexEnvelope, jobId: string, now: int)
    ensures var job := Stamped(JmdnRow(e, jobId, now));
            IsJob(job) && JobKey(job) == (e.routing.messageId, e.routing.sender)
  {
  }

  /** The jobs after acceptance, and the stored message. */
  lemma AcceptedJobs(c: Config, partners: Partners, t: seq<Row>, e: FidexEnvelope, jobId: string, now: int)
    requires Receive(c, partners, t, Envelope(e), jobId, now).1.code == ACCEPTED
    requires Fresh(t, jobId) && jobId != e.routing.messageId
    ensures var u := Receive(c, partners, t, Envelope(e), jobId, now).0;
            && StoredAs(c, u, e)
            && JobsOf(u) == JobsOf(t)
                 + if e.routing.docType == "receipt" then [] else [(e.routing.messageId, e.routing.sender)]
  {
    AcceptedRows(c, partners, t, e, jobId, now);
    hide Receive, Fresh, Open, Admitted, JobsOf, ResolveJobType;
    var u := Receive(c, partners, t, Envelope(e), jobId, now).0;
    var first, job := Stamped(InboundRow(c, partners, e, now)), Stamped(JmdnRow(e, jobId, now));
    JobsOfAppend(t, first);
    assert u[|t|] == first;
    if e.routing.docType == "receipt" {
      assert u == t + [first];
    } else {
      JobsOfAppend(t + [first], job);
      JobRow(e, jobId, now);
      assert u == t + [first] + [job];
    }
  }

  /** The jobs after an answer that accepts nothing. */
  lemma RefusedJobs(c: Config, partners: Partners, t: seq<Row>, body: InboundBody, jobId: string, now: int)
    requires Receive(c, partners, t, body, jobId, now).1.code != ACCEPTED
    ensures JobsOf(Receive(c, partners, t, body, jobId, now).0) == JobsOf(t)
  {
    hide Open, JobsOf, ValidEnvelope;
    if body.Envelope? && ValidEnvelope(body.env) {
      JobsOfAppend(t, Stamped(InboundRow(c, partners, body.env, now)));
    }
  }

  lemma ReceiveKeepsReceptions(c: Config, n: State, partners: Partners, e: FidexEnvelope, jobId: string)
    requires RowsOk(c, n.rows) && ReceptionsOk(c, n.rows, n.receptions)
    requires Fresh(n.rows, jobId) && jobId != e.routing.messageId
    ensures var (u, answer) := Receive(c, partners, n.rows, Envelope(e), jobId, n.clock);
            ReceptionsOk(c, u, n.receptions + [Reception(e, answer.code, partners)])
  {
    hide RowsOk, ReceptionsOk, Receive, StoredAs, JobsOf, Evolved, Tracks, Open, ValidEnvelope, Fresh;
    var (u, answer) := Receive(c, partners, n.rows, Envelope(e), jobId, n.clock);
    ReceiveKeepsRows(c, partners, n.rows, Envelope(e), jobId, n.clock);
    if answer.code == ACCEPTED {
      ReceiveExactly(c, partners, n.rows, Envelope(e), jobId, n.clock);
      AcceptedJobs(c, partners, n.rows, e, jobId, n.clock);
      if c.engine.Some? {
        OpensAuthentic(c, partners, e);
      }
      hide Authentic;
      AcceptanceKeepsReceptions(c, n.rows, u, n.receptions, Reception(e, ACCEPTED, partners));
    } else {
      RefusedJobs(c, partners, n.rows, Envelope(e), jobId, n.clock);
      RefusalKeepsReceptions(c, n.rows, u, n.receptions, Reception(e, answer.code, partners));
    }
  }

  lemma ReconcileKeepsJobs(c: Config, partners: Partners, t: seq<Row>, body: ReceiptBody, now: int)
    ensures JobsOf(Reconcile(c, partners, t, body, now).0) == JobsOf(t)
  {
    if ValidReceipt(body) {
      var msg := NewRow(ReceiptId(body), Inbound, Delivered, ReceiptText(body), now);
      JobsOfAppend(t, Stamped(msg));
      var t1 := OrUnchanged(t, Create(t, msg));
      var d := DispositionOf(c, partners, body);
      if d.originalId != "" {
        JobsOfUpdate(t1, SetStatus(t1, d.originalId, VerdictOf(d.status)));
      }
    }
  }

  lemma BookKeepsJobs(c: Config, n: State)
    requires n.worker.Polling? && BookStep(c, n).Some?
    ensures JobsOf(BookStep(c, n).value.rows) == JobsOf(n.rows)
  {
    JobsOfUpdate(n.rows, BookStep(c, n).value.rows);
  }

  lemma StepKeepsReceptions(c: Config, n: State, a: Action)
    requires RowsOk(c, n.rows) && WorkerOk(c, n.rows, n.worker) && ReceptionsOk(c, n.rows, n.receptions)
    requires Step(c, n, a).Some?
    ensures var n' := Step(c, n, a).value; ReceptionsOk(c, n'.rows, n'.receptions)
  {
    hide RowsOk, WorkerOk, ReceptionsOk, Evolved, Receive, Reconcile, JobsOf;
    StepKeepsStore(c, n, a);
    var n' := Step(c, n, a).value;
    match a {
      case ReceiveEnvelope(partners, Envelope(e), jobId) =>
        ReceiveKeepsReceptions(c, n, partners, e, jobId);
      case ReceiveEnvelope(partners, BadJson, jobId) =>
        ReceiveExactly(c, partners, n.rows, BadJson, jobId, n.clock);
      case ReceiveReceipt(partners, receipt) =>
        ReconcileKeepsJobs(c, partners, n.rows, receipt, n.clock);
        KeptWithoutReception(c, n.rows, n'.rows, n.receptions);
      case Transmit(req, id) =>
        JobsOfAppend(n.rows, Stamped(NewRow(id, Outbound, Queued, TransmitText(req, Absent), n.clock)));
        KeptWithoutReception(c, n.rows, n'.rows, n.receptions);
      case Book =>
        BookKeepsJobs(c, n);
        KeptWithoutReception(c, n.rows, n'.rows, n.receptions);
      case _ =>
    }
  }

  lemma {:induction false} RunKeepsReceptions(c: Config, n: State, actions: seq<Action>)
    requires RowsOk(c, n.rows) && WorkerOk(c, n.rows, n.worker) && ReceptionsOk(c, n.rows, n.receptions)
    requires Run(c, n, actions).Some?
    ensures var n' := Run(c, n, actions).value;
            RowsOk(c, n'.rows) && WorkerOk(c, n'.rows, n'.worker) && ReceptionsOk(c, n'.rows, n'.receptions)
    decreases |actions|
  {
    if actions == [] {
    } else {
      StepKeepsStore(c, n, actions[0]);
      StepKeepsReceptions(c, n, actions[0]);
      RunKeepsReceptions(c, Step(c, n, actions[0]).value, actions[1..]);
    }
  }

  /** Over every run: no message_id is answered 202 twice; every accepted envelope is stored with its
      document, and at a node with an engine was encrypted to it and signed with the signing key that the
      partner table then offered for its sender; and the outbound J-MDN jobs are, one for one and in order,
      those owed to the accepted envelopes that are not receipts: none for quarantined, rejected, duplicate
      or receipt envelopes. */
  lemma AcceptedOnceAndReceiptedOnce(c: Config, actions: seq<Action>)
    requires Run(c, INITIAL, actions).Some?
    ensures var n := Run(c, INITIAL, actions).value;
            && (forall k, l :: 0 <= k < l < |n.receptions| ==>
                  n.receptions[k].code == n.receptions[l].code == ACCEPTED ==>
                  n.receptions[k].env.routing.messageId != n.receptions[l].env.routing.messageId)
            && (forall k :: 0 <= k < |n.receptions| && n.receptions[k].code == ACCEPTED ==>
                  StoredAs(c, n.rows, n.receptions[k].env)
                  && (c.engine.Some? ==> Authentic(c, n.receptions[k].known, n.receptions[k].env)))
            && JobsOf(n.rows) == Owed(n.receptions)
  {
    RunKeepsReceptions(c, INITIAL, actions);
  }

  /** Once an id is stored, by a quarantined envelope too, it is never accepted again. */
  lemma StoredIdIsNeverAccepted(
    c: Config, n: State, actions: seq<Action>, partners: Partners, e: FidexEnvelope, jobId: string)
    requires RowsOk(c, n.rows) && WorkerOk(c, n.rows, n.worker) && ReceptionsOk(c, n.rows, n.receptions)
    requires Run(c, n, actions).Some?
    requires Has(n.rows, e.routing.messageId) && ValidEnvelope(e)
    ensures var n' := Run(c, n, actions).value;
            Receive(c, partners, n'.rows, Envelope(e), jobId, n'.clock) == (n'.rows, Answer(CONFLICT, DuplicateMessage))
    decreases |actions|
  {
    if actions == [] {
    } else {
      var n' := Step(c, n, actions[0]).value;
      StepKeepsStore(c, n, actions[0]);
      StepKeepsReceptions(c, n, actions[0]);
      var k :| 0 <= k < |n.rows| && n.rows[k].id == e.routing.messageId;
      assert SameMessage(n.rows[k], n'.rows[k]);
      StoredIdIsNeverAccepted(c, n', actions[1..], partners, e, jobId);
    }
  }

  /** Counting J-MDN rows by the column alone would be wrong: the column of an inbound row is read out
      of the business document, and says send_jmdn exactly when the document does. */
  lemma InboundColumnFollowsDocument(c: Config, partners: Partners, e: FidexEnvelope, now: int)
    requires Open(c, partners, e).Ok? && Open(c, partners, e).value.content != ""
    ensures Stamped(InboundRow(c, partners, e, now)).jobType == SEND_JMDN
       <==> Open(c, partners, e).value.job == Text(SEND_JMDN)
    ensures !IsJob(Stamped(InboundRow(c, partners, e, now)))
  {
  }
}

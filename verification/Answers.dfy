/** How the handlers answer and what they leave in the table, told from the request, the table and the partner
    table alone. */
module Answers {
  import opened Basics
  import opened Crypto
  import opened CryptoLaws
  import opened Messages
  import opened Delivery
  import opened Handlers

  // ----- envelopes -----

  /** The fields an envelope must have. */
  predicate Complete(e: FidexEnvelope) {
    "" !in [e.routing.version, e.routing.messageId, e.routing.sender, e.routing.receiver] && e.payload != NotJwe("")
  }

  /** Encrypted to this node, and signed with the signing key that the partner table offers for the sender. */
  predicate Authentic(c: Config, known: Partners, e: FidexEnvelope)
    requires c.engine.Some?
  {
    && e.routing.sender in known
    && ForKey(e.payload, c.engine.value.key)
    && e.payload.content.Jws? && e.payload.content.alg == "RS256"
    && KeyFor(known[e.routing.sender].jwks, "sig", e.payload.content.signer)
  }

  /** The partner table holds a key set with an RSA key for the sender. */
  predicate HasKeys(known: Partners, sender: string) {
    && sender in known && known[sender].jwks.KeySet?
    && exists i :: 0 <= i < |known[sender].jwks.keys| && known[sender].jwks.keys[i].key.Rsa?
  }

  /** What opening an envelope gives, from its parts. */
  lemma OpensAuthentic(c: Config, known: Partners, e: FidexEnvelope)
    requires c.engine.Some?
    ensures Open(c, known, e).Ok? <==> Authentic(c, known, e)
    ensures Authentic(c, known, e) ==> Open(c, known, e) == Ok(e.payload.content.payload)
    ensures !Authentic(c, known, e) ==>
              Open(c, known, e)
              == Err(if e.routing.sender !in known || known[e.routing.sender].jwks.NoJwks?
                     then UnknownPartner
                     else if HasKeys(known, e.routing.sender) && !ForKey(e.payload, c.engine.value.key)
                     then DecryptFailed
                     else SignatureInvalid)
  {
    if e.routing.sender in known {
      var jwks := known[e.routing.sender].jwks;
      var key := PublicKeyByUse(jwks, "sig");
      PublicKeyByUseExactly(jwks, "sig", if key.Ok? then key.value else 0);
      if e.payload.Jwe? && e.payload.content.Jws? {
        PublicKeyByUseExactly(jwks, "sig", e.payload.content.signer);
      }
      hide PublicKeyByUse, KeyFor;
    }
  }

  /** The id is in the table. */
  predicate Stored(t: seq<Row>, id: string) {
    exists k :: 0 <= k < |t| && t[k].id == id
  }

  /** An inbound row always has a text. */
  lemma ReceivedPayload(c: Config, known: Partners, e: FidexEnvelope, now: int)
    ensures !EmptyText(InboundRow(c, known, e, now).payload)
  {
    hide Open;
  }

  /** Admission, answer by answer. 400: not JSON, or a field is missing. 409: the id is stored. 202: new, and
      authentic, unless the node has no engine to check that. 401 otherwise, with the reason: no keys are known
      for the sender; the envelope cannot be decrypted here; or the signature is not the sender's, or cannot be
      checked with the keys there are. */
  lemma AdmissionExactly(c: Config, known: Partners, t: seq<Row>, body: InboundBody, jobId: string, now: int)
    ensures Receive(c, known, t, body, jobId, now).1
         == if !(body.Envelope? && Complete(body.env)) then Answer(400, BadEnvelope)
            else if Stored(t, body.env.routing.messageId) then Answer(409, DuplicateMessage)
            else if c.engine.None? || Authentic(c, known, body.env) then Answer(202, NoRejection)
            else if body.env.routing.sender !in known || known[body.env.routing.sender].jwks.NoJwks?
              then Answer(401, UnknownPartner)
            else if HasKeys(known, body.env.routing.sender) && !ForKey(body.env.payload, c.engine.value.key)
              then Answer(401, DecryptFailed)
            else Answer(401, SignatureInvalid)
  {
    if body.Envelope? {
      var e := body.env;
      assert Complete(e) <==> ValidEnvelope(e);
      if c.engine.Some? {
        OpensAuthentic(c, known, e);
      }
      hide Complete, ValidEnvelope, Open, Authentic, HasKeys, ForKey, ResolveJobType, StoredText;
      ReceivedPayload(c, known, e, now);
    }
  }

  /** What is kept of an accepted envelope: the document inside, where it can be opened and is not empty, else
      the envelope. */
  predicate IsKept(c: Config, e: FidexEnvelope, p: Payload) {
    if c.engine.Some? && e.payload.Jwe? && e.payload.content.Jws? && e.payload.content.payload.content != ""
    then p == Document(e.payload.content.payload)
    else p == EnvelopeText(e)
  }

  lemma JobIsNew(t: seq<Row>, r: Row, id: string)
    requires !Stored(t, id) && r.id != id
    ensures !Has(t + [r], id)
  {
  }

  /** What each answer leaves. 202: the message, DELIVERED, and for one that is no receipt a queued job, which is
      to acknowledge this id to this sender as processed and to hash this payload. 401: the envelope,
      quarantined. 400 and 409: nothing. */
  lemma AdmissionLeaves(
    c: Config, known: Partners, t: seq<Row>, e: FidexEnvelope, jobId: string, now: int, kept: Payload, kind: string)
    requires jobId != "" && !Stored(t, jobId) && jobId != e.routing.messageId
    requires IsKept(c, e, kept)
    requires kind == if kept.Document? && kept.doc.job.Text? && kept.doc.job.value != "" then kept.doc.job.value
                     else "process_outbound"
    ensures var (u, answer) := Receive(c, known, t, Envelope(e), jobId, now);
            && (answer.code == 400 || answer.code == 409 ==> u == t)
            && (answer.code == 401 ==>
                  u == t + [Row(e.routing.messageId, Inbound, Quarantined, EnvelopeText(e), "process_outbound", 0,
                                None, None, now)])
            && (answer.code == 202 ==>
                  u == t + [Row(e.routing.messageId, Inbound, Delivered, kept, kind, 0, None, None, now)]
                       + if e.routing.docType == "receipt" then []
                         else [Row(jobId, Outbound, Queued,
                                   JobText(JmdnJob(e.routing.messageId, e.routing.sender, "processed", e.payload)),
                                   "send_jmdn", 0, None, None, now)])
  {
    if c.engine.Some? {
      OpensAuthentic(c, known, e);
    }
    var message, job := InboundRow(c, known, e, now), JmdnRow(e, jobId, now);
    assert Open(c, known, e).Ok? ==> message.payload == kept;
    assert Open(c, known, e).Err? ==> message.payload == EnvelopeText(e);
    ColumnExactly("", message.payload, if Open(c, known, e).Ok? then kind else "process_outbound");
    ColumnExactly("", job.payload, "send_jmdn");
    JobIsNew(t, Stamped(message), jobId);
    hide Open, Authentic, HasKeys, ForKey, ResolveJobType, StoredText, Has, Stored, ValidEnvelope, IsColumn;
  }

  // ----- receipts -----

  /** The body reads as a flat receipt. */
  predicate IsFlat(b: ReceiptBody) {
    b.ReceiptJson? && b.flat.Some? && b.flat.value.originalId != ""
  }

  /** The body reads as no flat receipt, but as an envelope with an id and a payload. */
  predicate IsWrapped(b: ReceiptBody) {
    !IsFlat(b) && b.ReceiptJson? && b.wrapped.Some?
    && b.wrapped.value.routing.messageId != "" && b.wrapped.value.payload != OtherText("")
  }

  /** The receipt names a message, with a status: a flat one by itself, a wrapped one if its payload is a plain
      receipt, or one signed with the signing key that the partner table offers for the sender, at a node that
      can check that. */
  predicate NamesMessage(c: Config, known: Partners, b: ReceiptBody, id: string, status: string) {
    && id != ""
    && if IsFlat(b) then b.flat.value.originalId == id && b.flat.value.status == status
       else
         && IsWrapped(b)
         && var e := b.wrapped.value;
            match e.payload
            case PlainJmdn(d) => d == Disposition(id, status)
            case OtherText(_) => false
            case SignedJmdn(signer, d) =>
              && d == Disposition(id, status)
              && c.engine.Some? && e.routing.sender != "" && e.routing.sender in known
              && KeyFor(known[e.routing.sender].jwks, "sig", signer)
  }

  /** Bad news: FAILED or ERROR, letter by letter and ignoring case. */
  predicate BadNews(status: string) {
    SpelledLike(status, "FAILED") || SpelledLike(status, "ERROR")
  }

  lemma VerdictExactly(status: string)
    ensures VerdictOf(status) == if BadNews(status) then Failed else Delivered
  {
    UpperSpells(status, "FAILED");
    UpperSpells(status, "ERROR");
    hide ToUpper, SpelledLike;
  }

  /** Some words and what they mean. */
  lemma NewsExamples()
    ensures BadNews("FAILED") && BadNews("failed") && BadNews("Error") && BadNews("ERROR")
    ensures !BadNews("processed") && !BadNews("DELIVERED") && !BadNews("failure") && !BadNews("")
  {
    assert "processed"[0] == 'p' && "failure"[4] == 'u';
    assert |"DELIVERED"| == 9;
  }

  lemma ReceiptReadsExactly(c: Config, known: Partners, b: ReceiptBody, id: string, status: string)
    ensures ValidReceipt(b) <==> IsFlat(b) || IsWrapped(b)
    ensures NamesMessage(c, known, b, id, status)
       <==> id != "" && ValidReceipt(b) && DispositionOf(c, known, b) == Disposition(id, status)
  {
    if IsWrapped(b) && b.wrapped.value.payload.SignedJmdn? && b.wrapped.value.routing.sender in known {
      PublicKeyByUseExactly(known[b.wrapped.value.routing.sender].jwks, "sig", b.wrapped.value.payload.signer);
    }
    hide PublicKeyByUse, KeyFor;
  }

  lemma ReconcileCode(c: Config, known: Partners, t: seq<Row>, b: ReceiptBody, now: int)
    ensures var (u, code) := Reconcile(c, known, t, b, now);
            code == (if ValidReceipt(b) then 202 else 400) && (!ValidReceipt(b) ==> u == t)
  {
    hide ValidReceipt, DispositionOf, VerdictOf, Create;
  }

  /** Reconciliation: 202 for what reads as a receipt, 400 for all else, which leaves the table alone. A stored
      row becomes FAILED if the receipt names it with bad news, DELIVERED if it names it with anything else, and
      stays if it does not name it. */
  lemma ReconcileExactly(c: Config, known: Partners, t: seq<Row>, b: ReceiptBody, now: int, i: nat, status: string)
    requires i < |t| && t[i].id != ""
    ensures var (u, code) := Reconcile(c, known, t, b, now);
            && code == (if IsFlat(b) || IsWrapped(b) then 202 else 400)
            && (code == 400 ==> u == t)
            && |u| >= |t|
            && (NamesMessage(c, known, b, t[i].id, status) ==>
                  u[i] == t[i].(status := if BadNews(status) then Failed else Delivered))
            && ((forall s :: !NamesMessage(c, known, b, t[i].id, s)) ==> u[i] == t[i])
  {
    ReceiptReadsExactly(c, known, b, t[i].id, status);
    ReconcileShape(c, known, t, b, now);
    if ValidReceipt(b) {
      var d := DispositionOf(c, known, b);
      VerdictExactly(d.status);
      ReceiptReadsExactly(c, known, b, t[i].id, d.status);
    }
    ReconcileCode(c, known, t, b, now);
    hide Reconcile, NamesMessage, DispositionOf, ValidReceipt, BadNews, VerdictOf, Newborn, IsFlat, IsWrapped;
  }

  /** The receipt itself is kept once: under the envelope's id, or for a flat one under one made of the id it
      names and its timestamp. */
  lemma ReceiptIsKept(c: Config, known: Partners, t: seq<Row>, b: ReceiptBody, now: int, id: string, kind: string)
    requires IsFlat(b) || IsWrapped(b)
    requires id == if IsFlat(b) then "jmdn:" + b.flat.value.originalId + ":" + b.flat.value.timestamp
                   else b.wrapped.value.routing.messageId
    requires kind == if b.job.Text? && b.job.value != "" then b.job.value else "process_outbound"
    ensures var u := Reconcile(c, known, t, b, now).0;
            && |u| == |t| + (if Stored(t, id) then 0 else 1)
            && (!Stored(t, id) ==>
                  u[|t|] == Row(id, Inbound, u[|t|].status, ReceiptText(b), kind, 0, None, None, now)
                  && (u[|t|].status == Delivered || u[|t|].status == Failed)
                  && (u[|t|].status == Failed ==> exists s :: BadNews(s) && NamesMessage(c, known, b, id, s)))
  {
    ReceiptReadsExactly(c, known, b, "", "");
    ColumnExactly("", ReceiptText(b), kind);
    var d := DispositionOf(c, known, b);
    VerdictExactly(d.status);
    ReceiptReadsExactly(c, known, b, id, d.status);
    hide NamesMessage, DispositionOf, BadNews, VerdictOf, ResolveJobType, IsColumn;
  }

  // ----- transmit requests -----

  /** A request with a destination, a type and a document is answered 202 and leaves one new row, OUTBOUND,
      QUEUED, due at once, to be delivered as a business document, with the request as it came; any other is
      answered 400 and leaves nothing. */
  lemma EnqueueExactly(t: seq<Row>, req: TransmitRequest, id: string, now: int)
    requires id != "" && !Stored(t, id)
    ensures Enqueue(t, req, id, now)
         == if "" !in [req.destination, req.docType, req.doc.content]
            then (t + [Row(id, Outbound, Queued, TransmitText(req, Absent), "process_outbound", 0, None, None,
                           now)],
                  202)
            else (t, 400)
  {
    assert !Has(t, id);
  }
}

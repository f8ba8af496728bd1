/** The handlers that admit envelopes, reconcile receipts and enqueue documents
    (internal/api/external_handlers.go, internal/api/internal_handlers.go). */
module Handlers {
  import opened Basics
  import opened Crypto
  import opened Messages
  import opened MessageStore
  import opened Delivery

  const ACCEPTED := 202
  const BAD_REQUEST := 400
  const UNAUTHORIZED := 401
  const CONFLICT := 409

  datatype InboundBody = BadJson | Envelope(env: FidexEnvelope)

  predicate ValidEnvelope(e: FidexEnvelope) {
    e.routing.version != "" && e.routing.messageId != "" && e.routing.sender != ""
    && e.routing.receiver != "" && e.payload != NotJwe("")
  }

  predicate ValidJmdnEnvelope(e: JmdnEnvelope) {
    e.routing.messageId != "" && e.payload != OtherText("")
  }

  predicate ValidTransmit(req: TransmitRequest) {
    req.destination != "" && req.docType != "" && req.doc.content != ""
  }

  datatype RejectCode = NoRejection | BadEnvelope | UnknownPartner | SignatureInvalid | DecryptFailed | DuplicateMessage

  datatype Answer = Answer(code: int, rejection: RejectCode)

  /** The signing key the partner table offers for a sender, or why there is none. */
  function SenderKey(partners: Partners, sender: string): Result<KeyId, RejectCode> {
    if sender !in partners || partners[sender].jwks == NoJwks then Err(UnknownPartner)
    else
      match PublicKeyByUse(partners[sender].jwks, "sig")
      case Err(_) => Err(SignatureInvalid)
      case Ok(k) => Ok(k)
  }

  /** The document of an envelope as the node would open it, or the reason to quarantine. A node
      without an engine opens nothing and admits everything; the empty document stands for that. */
  function Open(c: Config, partners: Partners, e: FidexEnvelope): Result<Doc, RejectCode> {
    if c.engine.None? then Ok(Doc("", NotAnObject))
    else
      match SenderKey(partners, e.routing.sender)
      case Err(code) => Err(code)
      case Ok(key) =>
        match c.engine.value.DecryptAndVerify(e.payload, key)
        case Ok(doc) => Ok(doc)
        case Err(ParseJwe) => Err(DecryptFailed)
        case Err(DecryptJwe) => Err(DecryptFailed)
        case Err(_) => Err(SignatureInvalid)
  }

  function StoredText(unsealed: Result<Doc, RejectCode>, e: FidexEnvelope): Payload {
    if unsealed.Ok? && unsealed.value.content != "" then Document(unsealed.value) else EnvelopeText(e)
  }

  /** The row an envelope leaves behind, accepted or quarantined. */
  function InboundRow(c: Config, partners: Partners, e: FidexEnvelope, now: int): Row {
    var unsealed := Open(c, partners, e);
    NewRow(e.routing.messageId, Inbound, if unsealed.Ok? then Delivered else Quarantined, StoredText(unsealed, e), now)
  }

  function JmdnRow(e: FidexEnvelope, jobId: string, now: int): Row {
    var job := JmdnJob(e.routing.messageId, e.routing.sender, "processed", e.payload);
    NewRow(jobId, Outbound, Queued, JobText(job), now)
  }

  function OrUnchanged(t: seq<Row>, r: Result<seq<Row>, CreateError>): seq<Row> {
    if r.Ok? then r.value else t
  }

  /** Admission: the table after an envelope, and the answer. */
  function Receive(
    c: Config, partners: Partners, t: seq<Row>, body: InboundBody, jobId: string, now: int): (seq<Row>, Answer) {
    if body.BadJson? || !ValidEnvelope(body.env) then (t, Answer(BAD_REQUEST, BadEnvelope))
    else
      var e := body.env;
      var unsealed := Open(c, partners, e);
      match Create(t, InboundRow(c, partners, e, now))
      case Err(_) => (t, Answer(CONFLICT, DuplicateMessage))
      case Ok(t1) =>
        if unsealed.Err? then (t1, Answer(UNAUTHORIZED, unsealed.error))
        else if e.routing.docType == "receipt" then (t1, Answer(ACCEPTED, NoRejection))
        else (OrUnchanged(t1, Create(t1, JmdnRow(e, jobId, now))), Answer(ACCEPTED, NoRejection))
  }

  // ----- receipts -----

  predicate FlatOk(b: ReceiptBody) {
    b.ReceiptJson? && b.flat.Some? && b.flat.value.originalId != ""
  }

  predicate ValidReceipt(b: ReceiptBody) {
    FlatOk(b) || (b.ReceiptJson? && b.wrapped.Some? && ValidJmdnEnvelope(b.wrapped.value))
  }

  /** Flat receipts get an id made of the message they name and their timestamp. */
  function ReceiptId(b: ReceiptBody): string
    requires ValidReceipt(b)
  {
    if FlatOk(b) then "jmdn:" + b.flat.value.originalId + ":" + b.flat.value.timestamp
    else b.wrapped.value.routing.messageId
  }

  /** A wrapped disposition counts when its signature verifies, or when it is not signed at all. */
  function WrappedDisposition(c: Config, partners: Partners, e: JmdnEnvelope): Disposition {
    match e.payload
    case PlainJmdn(d) => d
    case OtherText(_) => Disposition("", "")
    case SignedJmdn(signer, d) =>
      if c.engine.Some? && e.routing.sender != "" && SenderKey(partners, e.routing.sender) == Ok(signer) then d
      else Disposition("", "")
  }

  function DispositionOf(c: Config, partners: Partners, b: ReceiptBody): Disposition
    requires ValidReceipt(b)
  {
    if FlatOk(b) then Disposition(b.flat.value.originalId, b.flat.value.status)
    else WrappedDisposition(c, partners, b.wrapped.value)
  }

  function VerdictOf(status: string): Status {
    if ToUpper(status) == "FAILED" || ToUpper(status) == "ERROR" then Failed else Delivered
  }

  /** Reconciliation: the receipt is kept once, and its verdict is written in any case. */
  function Reconcile(c: Config, partners: Partners, t: seq<Row>, b: ReceiptBody, now: int): (seq<Row>, int) {
    if !ValidReceipt(b) then (t, BAD_REQUEST)
    else
      var t1 := OrUnchanged(t, Create(t, NewRow(ReceiptId(b), Inbound, Delivered, ReceiptText(b), now)));
      var d := DispositionOf(c, partners, b);
      (if d.originalId != "" then SetStatus(t1, d.originalId, VerdictOf(d.status)) else t1, ACCEPTED)
  }

  /** Enqueueing: a valid request becomes a queued row under a new id. */
  function Enqueue(t: seq<Row>, req: TransmitRequest, id: string, now: int): (seq<Row>, int) {
    if !ValidTransmit(req) then (t, BAD_REQUEST)
    else (OrUnchanged(t, Create(t, NewRow(id, Outbound, Queued, TransmitText(req, Absent), now))), ACCEPTED)
  }

  // ----- what the handlers do to the table -----

  predicate Newborn(r: Row, now: int) {
    r.retryCount == 0 && r.nextRetry.None? && r.createdAt == now
  }

  /** Admission adds at most the message and a queued job, and leaves the rest alone. */
  lemma ReceiveShape(c: Config, partners: Partners, t: seq<Row>, body: InboundBody, jobId: string, now: int)
    ensures var u := Receive(c, partners, t, body, jobId, now).0;
            && |t| <= |u| <= |t| + 2 && u[..|t|] == t
            && forall k :: |t| <= k < |u| ==>
                 Newborn(u[k], now) && (u[k].dir == Inbound <==> u[k].status != Queued)
                 && (u[k].dir == Outbound ==> u[k].payload.JobText?)
  {
    hide Open, ResolveJobType, Has, ValidEnvelope, StoredText;
  }

  /** Reconciliation adds at most the receipt, and writes its verdict to the row it names. */
  lemma ReconcileShape(c: Config, partners: Partners, t: seq<Row>, b: ReceiptBody, now: int)
    ensures var u := Reconcile(c, partners, t, b, now).0;
            && |t| <= |u| <= |t| + 1
            && (forall k :: 0 <= k < |t| ==>
                  u[k] == if ValidReceipt(b) && t[k].id != "" && t[k].id == DispositionOf(c, partners, b).originalId
                          then t[k].(status := VerdictOf(DispositionOf(c, partners, b).status)) else t[k])
            && forall k :: |t| <= k < |u| ==> Newborn(u[k], now) && u[k].dir == Inbound && u[k].status != Queued
  {
    hide DispositionOf, ResolveJobType, Has, ValidReceipt, ToUpper;
    if ValidReceipt(b) {
      var t1 := OrUnchanged(t, Create(t, NewRow(ReceiptId(b), Inbound, Delivered, ReceiptText(b), now)));
      assert |t1| == |t| || |t1| == |t| + 1;
      assert t1[..|t|] == t;
      assert |t1| == |t| + 1 ==> Newborn(t1[|t|], now) && t1[|t|].dir == Inbound && t1[|t|].status == Delivered;
      hide Create, ReceiptId;
    }
  }

  /** Enqueueing adds at most one queued row. */
  lemma EnqueueShape(t: seq<Row>, req: TransmitRequest, id: string, now: int)
    ensures var u := Enqueue(t, req, id, now).0;
            && |t| <= |u| <= |t| + 1 && u[..|t|] == t
            && forall k :: |t| <= k < |u| ==>
                 Newborn(u[k], now) && u[k].dir == Outbound && u[k].status == Queued && u[k].payload.TransmitText?
  {
    hide ValidTransmit, ResolveJobType, Has;
  }

  /** The handlers as the code runs them, statement by statement, over the shared store. */
  class Api {
    const config: Config
    const store: Repository
    var partners: Partners

    constructor (config: Config, store: Repository, partners: Partners)
      ensures this.config == config && this.store == store && this.partners == partners
    {
      this.config := config;
      this.store := store;
      this.partners := partners;
    }

    /** jobId is the new random id a J-MDN job gets, should one be queued. */
    method InboundHandler(body: InboundBody, jobId: string, now: int) returns (answer: Answer)
      requires store.Valid()
      modifies store
      ensures store.Valid()
      ensures (store.rows, answer) == Receive(config, partners, old(store.rows), body, jobId, now)
    {
      if body.BadJson? {
        return Answer(BAD_REQUEST, BadEnvelope);
      }
      var envelope := body.env;
      if !ValidEnvelope(envelope) {
        return Answer(BAD_REQUEST, BadEnvelope);
      }
      var storedPayload := Document(Doc("", NotAnObject));
      var status := Delivered;
      var rejection := Answer(0, NoRejection);
      var senderId := envelope.routing.sender;
      if config.engine.Some? {
        if senderId !in partners {
          status, rejection := Quarantined, Answer(UNAUTHORIZED, UnknownPartner);
        } else if partners[senderId].jwks == NoJwks {
          status, rejection := Quarantined, Answer(UNAUTHORIZED, UnknownPartner);
        } else {
          var senderSigKey := PublicKeyByUse(partners[senderId].jwks, "sig");
          if senderSigKey.Err? {
            status, rejection := Quarantined, Answer(UNAUTHORIZED, SignatureInvalid);
          } else {
            var decrypted := config.engine.value.DecryptAndVerify(envelope.payload, senderSigKey.value);
            if decrypted.Err? {
              var code := SignatureInvalid;
              if decrypted.error == ParseJwe || decrypted.error == DecryptJwe {
                code := DecryptFailed;
              }
              status, rejection := Quarantined, Answer(UNAUTHORIZED, code);
            } else {
              storedPayload := Document(decrypted.value);
            }
          }
        }
      }
      if EmptyText(storedPayload) {
        storedPayload := EnvelopeText(envelope);
      }
      var msg := NewRow(envelope.routing.messageId, Inbound, status, storedPayload, now);
      var created := store.Create(msg);
      if created.Err? {
        return Answer(CONFLICT, DuplicateMessage);
      }
      if rejection.code != 0 {
        return rejection;
      }
      if envelope.routing.docType == "receipt" {
        return Answer(ACCEPTED, NoRejection);
      }
      var job := JmdnJob(envelope.routing.messageId, envelope.routing.sender, "processed", envelope.payload);
      var _ := store.Create(NewRow(jobId, Outbound, Queued, JobText(job), now));
      return Answer(ACCEPTED, NoRejection);
    }

    method ReceiptHandler(body: ReceiptBody, now: int) returns (code: int)
      requires store.Valid()
      modifies store
      ensures store.Valid()
      ensures (store.rows, code) == Reconcile(config, partners, old(store.rows), body, now)
    {
      if body.NotJson? {
        return BAD_REQUEST;
      }
      var flatOk := body.flat.Some? && body.flat.value.originalId != "";
      var receiptId := "";
      if !flatOk {
        if body.wrapped.None? || !ValidJmdnEnvelope(body.wrapped.value) {
          return BAD_REQUEST;
        }
        receiptId := body.wrapped.value.routing.messageId;
      }
      if receiptId == "" {
        receiptId := "jmdn:" + body.flat.value.originalId + ":" + body.flat.value.timestamp;
      }
      var _ := store.Create(NewRow(receiptId, Inbound, Delivered, ReceiptText(body), now));
      var disposition: Disposition;
      if flatOk {
        disposition := Disposition(body.flat.value.originalId, body.flat.value.status);
      } else {
        disposition := WrappedDisposition(config, partners, body.wrapped.value);
      }
      if disposition.originalId != "" {
        var newStatus := Delivered;
        var s := ToUpper(disposition.status);
        if s == "FAILED" || s == "ERROR" {
          newStatus := Failed;
        }
        var _ := store.UpdateStatus(disposition.originalId, newStatus);
      }
      return ACCEPTED;
    }

    /** id is the new random id of the message. */
    method TransmitHandler(req: TransmitRequest, id: string, now: int) returns (code: int)
      requires store.Valid()
      requires id != "" && !Has(store.rows, id)
      modifies store
      ensures store.Valid()
      ensures (store.rows, code) == Enqueue(old(store.rows), req, id, now)
    {
      if !ValidTransmit(req) {
        return BAD_REQUEST;
      }
      var _ := store.Create(NewRow(id, Outbound, Queued, TransmitText(req, Absent), now));
      return ACCEPTED;
    }
  }
}

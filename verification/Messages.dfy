/** The wire types, the message rows, and the keyed table every step of a node shares
    (internal/domain/repositories.go, internal/api/types.go, internal/repository/message_repository.go). */
module Messages {
  import opened Basics
  import opened Crypto
  import opened Errors

  const PROCESS_OUTBOUND := "process_outbound"
  const SEND_JMDN := "send_jmdn"

  // ----- wire types -----

  datatype RoutingHeader = RoutingHeader(
    version: string, messageId: string, sender: string, receiver: string,
    docType: string, timestamp: string, webhook: string)

  datatype FidexEnvelope = FidexEnvelope(routing: RoutingHeader, payload: Cipher)

  /** A transmit request; an empty document text stands for a missing or empty payload map. */
  datatype TransmitRequest = TransmitRequest(destination: string, docType: string, webhook: string, doc: Doc)

  datatype JmdnJob = JmdnJob(originalId: string, recipient: string, status: string, originalPayload: Cipher)

  /** The flat receipt; `hash` names the text that was hashed. */
  datatype FlatReceipt = FlatReceipt(
    originalId: string, status: string, receiverId: string, hash: Cipher, timestamp: string)

  datatype Disposition = Disposition(originalId: string, status: string)

  datatype JmdnPayload =
    | SignedJmdn(signer: KeyId, receipt: Disposition)
    | PlainJmdn(receipt: Disposition)
    | OtherText(text: string)

  datatype JmdnEnvelope = JmdnEnvelope(routing: RoutingHeader, payload: JmdnPayload)

  /** A body posted to the receipt endpoint: not JSON, or JSON read both as a flat receipt and as an
      envelope, where either reading may fail, with the job_type key it happens to carry. */
  datatype ReceiptBody = NotJson | ReceiptJson(flat: Option<FlatReceipt>, wrapped: Option<JmdnEnvelope>, job: JobField)

  // ----- rows -----

  datatype Direction = Inbound | Outbound

  datatype Status = Queued | Sent | Delivered | Failed | Quarantined

  /** The payload column: which JSON text a row stores. */
  datatype Payload =
    | Document(doc: Doc)
    | TransmitText(req: TransmitRequest, declared: JobField)
    | JobText(job: JmdnJob)
    | EnvelopeText(env: FidexEnvelope)
    | ReceiptText(body: ReceiptBody)

  datatype Row = Row(
    id: string, dir: Direction, status: Status, payload: Payload, jobType: string,
    retryCount: int, nextRetry: Option<int>, lastError: Option<ErrorCode>, createdAt: int)

  /** The job_type key inside a stored text. The transmit handler rewrites the request from its four
      fields, so its text declares none; the file watcher stores a file as it finds it. */
  function JobFieldOf(p: Payload): JobField {
    match p
    case Document(doc) => if doc.content == "" then NotAnObject else doc.job
    case TransmitText(_, declared) => declared
    case JobText(_) => Text(SEND_JMDN)
    case EnvelopeText(_) => Absent
    case ReceiptText(NotJson) => NotAnObject
    case ReceiptText(ReceiptJson(_, _, job)) => job
  }

  predicate EmptyText(p: Payload) {
    p.Document? && p.doc.content == ""
  }

  /** Decoding into a struct with a string field: nothing is set unless the key holds a string. */
  function Probe(f: JobField): string {
    if f.Text? then f.value else ""
  }

  /** An explicit value beats the payload's, which beats the default. */
  function ResolveJobType(explicit: string, p: Payload): string {
    if explicit != "" then explicit
    else if !EmptyText(p) && Probe(JobFieldOf(p)) != "" then Probe(JobFieldOf(p))
    else PROCESS_OUTBOUND
  }

  /** The column a row is stored with: what the caller says, else a string under job_type in the text, else the
      default. */
  predicate IsColumn(explicit: string, p: Payload, kind: string) {
    if explicit != "" then kind == explicit
    else
      var f := JobFieldOf(p);
      if f.Text? && f.value != "" && !EmptyText(p) then kind == f.value else kind == "process_outbound"
  }

  lemma ColumnExactly(explicit: string, p: Payload, kind: string)
    ensures ResolveJobType(explicit, p) == kind <==> IsColumn(explicit, p, kind)
  {
  }

  function NewRow(id: string, dir: Direction, status: Status, p: Payload, now: int): Row {
    Row(id, dir, status, p, "", 0, None, None, now)
  }

  // ----- the table -----

  predicate Has(t: seq<Row>, id: string) {
    exists k :: 0 <= k < |t| && t[k].id == id
  }

  ghost predicate UniqueIds(t: seq<Row>) {
    forall k, l :: 0 <= k < l < |t| ==> t[k].id != t[l].id
  }

  datatype CreateError = MissingId | MissingPayload | DuplicateId

  /** The row as it is persisted. */
  function Stamped(msg: Row): Row {
    msg.(jobType := ResolveJobType(msg.jobType, msg.payload))
  }

  /** INSERT under the unique key. */
  function Create(t: seq<Row>, msg: Row): Result<seq<Row>, CreateError> {
    if msg.id == "" then Err(MissingId)
    else if EmptyText(msg.payload) then Err(MissingPayload)
    else if Has(t, msg.id) then Err(DuplicateId)
    else Ok(t + [Stamped(msg)])
  }

  /** Inserting fails exactly without an id, without a payload, or under an id that is taken, and else adds the
      row at the end with its column filled in, as it is in all other fields. */
  lemma CreateExactly(t: seq<Row>, msg: Row, kind: string)
    requires IsColumn(msg.jobType, msg.payload, kind)
    ensures Create(t, msg)
         == if msg.id == "" then Err(MissingId)
            else if msg.payload.Document? && msg.payload.doc.content == "" then Err(MissingPayload)
            else if exists k :: 0 <= k < |t| && t[k].id == msg.id then Err(DuplicateId)
            else Ok(t + [Row(msg.id, msg.dir, msg.status, msg.payload, kind, msg.retryCount, msg.nextRetry,
                             msg.lastError, msg.createdAt)])
  {
    ColumnExactly(msg.jobType, msg.payload, kind);
    hide ResolveJobType;
  }

  /** UPDATE ... SET status WHERE message_id. */
  function SetStatus(t: seq<Row>, id: string, s: Status): seq<Row> {
    seq(|t|, k requires 0 <= k < |t| => if t[k].id == id then t[k].(status := s) else t[k])
  }

  /** UPDATE ... SET retry_count, next_retry_at, last_error WHERE message_id. */
  function SetRetry(t: seq<Row>, id: string, count: int, next: Option<int>, err: ErrorCode): seq<Row> {
    seq(|t|, k requires 0 <= k < |t| =>
      if t[k].id == id then t[k].(retryCount := count, nextRetry := next, lastError := Some(err)) else t[k])
  }

  ghost predicate SortedByCreation(s: seq<Row>) {
    forall k, l :: 0 <= k < l < |s| ==> s[k].createdAt <= s[l].createdAt
  }

  /** s lists exactly the rows of t in the given status, each once, oldest first. */
  ghost predicate IsListing(t: seq<Row>, status: Status, s: seq<Row>) {
    && (forall r :: r in s <==> r in t && r.status == status)
    && UniqueIds(s)
    && SortedByCreation(s)
  }

  /** A row keeps everything but its status and its retry fields. */
  predicate SameMessage(r: Row, r': Row) {
    r' == r.(status := r'.status, retryCount := r'.retryCount, nextRetry := r'.nextRetry, lastError := r'.lastError)
  }

  /** Rows stay where they are, keep their message, and none becomes QUEUED again. */
  ghost predicate Evolved(t: seq<Row>, t': seq<Row>) {
    && |t| <= |t'|
    && forall k :: 0 <= k < |t| ==> SameMessage(t[k], t'[k]) && (t'[k].status == Queued ==> t[k].status == Queued)
  }
}

/** What one delivery attempt of the queue worker sends and how it ends
    (internal/queue/worker.go: deliverMessage, deliverBusinessDocument, deliverJMDN, handleFailure). */
module Delivery {
  import opened Basics
  import opened Errors
  import opened Crypto
  import opened Messages

  datatype Route = InboundRoute | ReceiptRoute

  /** An endpoint URL: the node it resolves to and the route under it. */
  datatype Url = NoUrl | Url(host: string, route: Route)

  datatype Partner = Partner(messageEndpoint: Url, receiptEndpoint: Url, jwks: JwksText, algorithms: seq<string>)

  type Partners = map<string, Partner>

  datatype Config = Config(nodeId: string, engine: Option<Engine>, maxRetries: int)

  datatype WireBody = EnvelopeBody(env: FidexEnvelope) | FlatBody(receipt: FlatReceipt)

  datatype Post = Post(url: Url, body: WireBody)

  datatype HttpReply = NoReply | Reply(code: int)

  /** The column decides; an empty column falls back to the payload, then to the default. */
  function DispatchJobType(row: Row): string {
    if row.jobType != "" then row.jobType
    else if Probe(JobFieldOf(row.payload)) != "" then Probe(JobFieldOf(row.payload))
    else PROCESS_OUTBOUND
  }

  function PlanBusiness(c: Config, partners: Partners, row: Row, stamp: string): Result<Post, AppError> {
    if !row.payload.TransmitText? then Err(New(Validation))
    else
      var req := row.payload.req;
      if req.destination == "" || req.doc.content == "" then Err(New(Validation))
      else if req.destination !in partners then Err(New(PartnerNotFound))
      else
        var partner := partners[req.destination];
        if partner.messageEndpoint == NoUrl || partner.jwks == NoJwks then Err(New(Validation))
        else
          var encKey := PublicKeyByUse(partner.jwks, "enc");
          if encKey.Err? || c.engine.None? then Err(New(Validation))
          else
            var alg := Negotiate(LOCAL_ALGORITHMS, partner.algorithms);
            if alg.Err? then Err(New(Validation))
            else
              var jwe := c.engine.value.SignAndEncryptWithAlg(req.doc, encKey.value, alg.value);
              if jwe.Err? then Err(New(Internal))
              else
                var routing := RoutingHeader("1.0", row.id, c.nodeId, req.destination, req.docType, stamp, req.webhook);
                Ok(Post(partner.messageEndpoint, EnvelopeBody(FidexEnvelope(routing, jwe.value))))
  }

  /** Only FAILED survives as a negative disposition; everything else is reported as DELIVERED. */
  function ReceiptStatus(jobStatus: string): string {
    if ToUpper(jobStatus) == "FAILED" then "FAILED" else "DELIVERED"
  }

  function PlanJmdn(c: Config, partners: Partners, row: Row, stamp: string): Result<Post, AppError> {
    if !row.payload.JobText? then Err(New(Validation))
    else
      var job := row.payload.job;
      if job.originalId == "" || job.recipient == "" || c.engine.None? then Err(New(Validation))
      else if job.recipient !in partners then Err(New(PartnerNotFound))
      else
        var partner := partners[job.recipient];
        var url := if partner.receiptEndpoint == NoUrl then partner.messageEndpoint else partner.receiptEndpoint;
        if url == NoUrl then Err(New(Validation))
        else
          var status := ReceiptStatus(job.status);
          Ok(Post(url, FlatBody(FlatReceipt(job.originalId, status, c.nodeId, job.originalPayload, stamp))))
  }

  /** The request an attempt sends, or the error that ends it before anything is sent. */
  function Plan(c: Config, partners: Partners, row: Row, stamp: string): Result<Post, AppError> {
    var jobType := DispatchJobType(row);
    if jobType == SEND_JMDN then PlanJmdn(c, partners, row, stamp)
    else if jobType == PROCESS_OUTBOUND then PlanBusiness(c, partners, row, stamp)
    else Err(New(Validation))
  }

  /** No answer and every status outside 2xx count as network errors. */
  function Conclude(reply: HttpReply): Option<AppError> {
    if reply.Reply? && 200 <= reply.code < 300 then None else Some(New(Network))
  }

  function DeliveryResult(c: Config, partners: Partners, row: Row, stamp: string, reply: HttpReply): Option<AppError> {
    match Plan(c, partners, row, stamp)
    case Err(e) => Some(e)
    case Ok(_) => Conclude(reply)
  }

  // ----- retry policy -----

  const MINUTE := 60000

  function BackoffMinutes(count: nat): nat {
    if count * count > 60 then 60 else count * count
  }

  function Backoff(count: nat): nat {
    BackoffMinutes(count) * MINUTE
  }

  /** count is the retry count after the failed attempt. */
  predicate ShouldRetry(c: Config, count: nat, err: AppError) {
    err.retryable && count < c.maxRetries
  }

  /** How many attempts a row can get: MaxRetries of them, and the first one in any case. */
  function Limit(c: Config): nat
    ensures Limit(c) >= 1
  {
    if c.maxRetries >= 1 then c.maxRetries else 1
  }

  /** One attempt, with its bookkeeping, seen from the row alone. */
  function AfterAttempt(c: Config, row: Row, result: Option<AppError>, now: int): Row
    requires row.retryCount >= 0
  {
    match result
    case None => row.(status := Delivered)
    case Some(err) =>
      var count := row.retryCount + 1;
      if ShouldRetry(c, count, err)
      then row.(retryCount := count, nextRetry := Some(now + Backoff(count)), lastError := Some(err.code))
      else row.(status := Failed, retryCount := count, nextRetry := None, lastError := Some(err.code))
  }

  predicate Due(row: Row, now: int) {
    row.nextRetry.None? || row.nextRetry.value <= now
  }

  /** What the surroundings of one attempt decide: when its row is looked at, when its failure is
      booked, the timestamp it carries and the peer's answer. */
  datatype Surroundings = Surroundings(checkAt: int, doneAt: int, stamp: string, reply: HttpReply)

  /** The effect of a whole poll pass on one row. */
  function PollRow(c: Config, partners: Partners, row: Row, s: Surroundings): Row
    requires row.retryCount >= 0
  {
    if row.status == Queued && Due(row, s.checkAt)
    then AfterAttempt(c, row, DeliveryResult(c, partners, row, s.stamp, s.reply), s.doneAt)
    else row
  }

  ghost predicate CountsNonNegative(t: seq<Row>) {
    forall k :: 0 <= k < |t| ==> t[k].retryCount >= 0
  }

  /** The effect of a whole poll pass on the table, row by row. */
  function PollAll(c: Config, partners: Partners, t: seq<Row>, env: string -> Surroundings): seq<Row>
    requires CountsNonNegative(t)
  {
    seq(|t|, k requires 0 <= k < |t| => PollRow(c, partners, t[k], env(t[k].id)))
  }
}

/** What an attempt sends, told from the row and the partner table alone: which rows can be sent at all, what
    exactly goes where, and which error ends the rest. */
module Planning {
  import opened Basics
  import opened Errors
  import opened Crypto
  import opened Messages
  import opened Delivery

  // ----- which kind of job a row is -----

  /** The column counts; an empty one leaves the question to the payload and the default. */
  predicate IsKind(row: Row, kind: string) {
    IsColumn(row.jobType, row.payload, kind)
  }

  lemma KindExactly(row: Row, kind: string)
    ensures DispatchJobType(row) == kind <==> IsKind(row, kind)
  {
  }

  // ----- business documents -----

  /** The algorithm this node uses towards a peer that advertises the list. */
  predicate AgreedWith(theirs: seq<string>, alg: string) {
    if theirs == [] then alg == "RSA-OAEP"
    else if "RSA-OAEP-256" in theirs then alg == "RSA-OAEP-256"
    else alg == "RSA-OAEP" && "RSA-OAEP" in theirs
  }

  lemma AgreedExactly(theirs: seq<string>, alg: string)
    ensures Negotiate(LOCAL_ALGORITHMS, theirs) == Ok(alg) <==> AgreedWith(theirs, alg)
    ensures Negotiate(LOCAL_ALGORITHMS, theirs).Ok? ==> AgreedWith(theirs, Negotiate(LOCAL_ALGORITHMS, theirs).value)
  {
    assert LOCAL_ALGORITHMS[0] == "RSA-OAEP" && LOCAL_ALGORITHMS[1] == "RSA-OAEP-256";
  }

  /** The post a document row makes: to the partner's message endpoint, an envelope with the row's id, this
      node's id, the partner's id, the document's type, the moment and the webhook in its header, around the
      document, signed by this node and encrypted to the key the partner offers, under the agreed algorithm. */
  ghost predicate IsDocumentPost(c: Config, partners: Partners, row: Row, stamp: string, post: Post) {
    && row.payload.TransmitText? && c.engine.Some?
    && var req := row.payload.req;
       && req.destination != "" && req.doc.content != "" && req.destination in partners
       && var partner := partners[req.destination];
          && partner.messageEndpoint.Url? && post.url == partner.messageEndpoint
          && post.body.EnvelopeBody? && post.body.env.payload.Jwe?
          && post.body.env.routing
             == RoutingHeader("1.0", row.id, c.nodeId, req.destination, req.docType, stamp, req.webhook)
          && var jwe := post.body.env.payload;
             && AgreedWith(partner.algorithms, jwe.alg) && jwe.enc == "A256GCM"
             && KeyFor(partner.jwks, "enc", jwe.recipient)
             && jwe.content == Jws("RS256", c.engine.value.key, req.doc)
  }

  /** A document row is sent exactly as such a post; without one, it ends as a row for an unknown partner if
      that is the first thing wrong with it, and as invalid otherwise. */
  lemma DocumentPlanExactly(c: Config, partners: Partners, row: Row, stamp: string, post: Post)
    requires IsKind(row, "process_outbound")
    ensures Plan(c, partners, row, stamp) == Ok(post) <==> IsDocumentPost(c, partners, row, stamp, post)
    ensures Plan(c, partners, row, stamp).Err? ==>
              Plan(c, partners, row, stamp).error.code
              == if row.payload.TransmitText? && row.payload.req.destination != "" && row.payload.req.doc.content != ""
                    && row.payload.req.destination !in partners then PartnerNotFound else Validation
  {
    KindExactly(row, "process_outbound");
    hide DispatchJobType, Negotiate, PublicKeyByUse, KeyFor;
    if row.payload.TransmitText? && row.payload.req.destination in partners {
      var partner := partners[row.payload.req.destination];
      var key := PublicKeyByUse(partner.jwks, "enc");
      if key.Ok? {
        PublicKeyByUseExactly(partner.jwks, "enc", key.value);
      }
      if post.body.EnvelopeBody? && post.body.env.payload.Jwe? {
        PublicKeyByUseExactly(partner.jwks, "enc", post.body.env.payload.recipient);
        AgreedExactly(partner.algorithms, post.body.env.payload.alg);
      }
      if Negotiate(LOCAL_ALGORITHMS, partner.algorithms).Ok? {
        AgreedExactly(partner.algorithms, Negotiate(LOCAL_ALGORITHMS, partner.algorithms).value);
      }
    }
  }

  // ----- J-MDNs -----

  /** The post a receipt job makes: to the recipient's receipt endpoint, or else its message endpoint, a flat
      receipt for the original message that says FAILED for a failed job and DELIVERED for every other, with
      this node's id, the moment, and the hash of the original payload. */
  predicate IsReceiptPost(c: Config, partners: Partners, row: Row, stamp: string, post: Post) {
    && row.payload.JobText? && c.engine.Some?
    && var job := row.payload.job;
       && job.originalId != "" && job.recipient != "" && job.recipient in partners
       && var partner := partners[job.recipient];
          && post.url.Url?
          && (if partner.receiptEndpoint.Url? then post.url == partner.receiptEndpoint
              else post.url == partner.messageEndpoint)
          && post.body.FlatBody?
          && var f := post.body.receipt;
             && f.originalId == job.originalId && f.receiverId == c.nodeId
             && f.hash == job.originalPayload && f.timestamp == stamp
             && f.status == if SpelledLike(job.status, "FAILED") then "FAILED" else "DELIVERED"
  }

  lemma ReceiptPlanExactly(c: Config, partners: Partners, row: Row, stamp: string, post: Post)
    requires IsKind(row, "send_jmdn")
    ensures Plan(c, partners, row, stamp) == Ok(post) <==> IsReceiptPost(c, partners, row, stamp, post)
    ensures Plan(c, partners, row, stamp).Err? ==>
              Plan(c, partners, row, stamp).error.code
              == if row.payload.JobText? && row.payload.job.originalId != "" && row.payload.job.recipient != ""
                    && c.engine.Some? && row.payload.job.recipient !in partners then PartnerNotFound else Validation
  {
    KindExactly(row, "send_jmdn");
    hide DispatchJobType, ToUpper, SpelledLike;
    if row.payload.JobText? {
      UpperSpells(row.payload.job.status, "FAILED");
    }
  }

  // ----- everything else -----

  /** A row of any other kind is never sent. */
  lemma UnknownKindIsRefused(c: Config, partners: Partners, row: Row, stamp: string, kind: string)
    requires IsKind(row, kind) && kind != "process_outbound" && kind != "send_jmdn"
    ensures Plan(c, partners, row, stamp).Err? && Plan(c, partners, row, stamp).error.code == Validation
  {
    KindExactly(row, kind);
  }
}

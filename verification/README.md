# A verified model of the FideX node

A FideX node exchanges business documents with its partners: a transmit request becomes a queued row, a
worker signs, encrypts and posts it, the partner admits it, and a J-MDN receipt closes the row. This project
models that exchange and the smaller protocols around it, and proves what they promise over every run.

## The parts

- `Messages`, `MessageStore`: wire types, rows and the table keyed by `message_id`, as functions and as the
  repository class whose statements reassign it.
- `Delivery`, `Worker`, `PollPass`: what an attempt sends and how it ends; the poll loop in place; and the same
  pass as steps that others may interrupt.
- `Planning`, `Retries`: the same told outright: which rows can be sent and as what, and what an attempt makes of
  its row.
- `Handlers`: admission, reconciliation and enqueueing, as functions and as the handlers that run over the store.
- `Answers`: what the handlers answer and leave, told outright: signers by their position in a key set, texts
  letter by letter.
- `Node`, `Attempts`, `Admission`, `Fates`: one node as a step system, and what holds over its runs against any
  callers.
- `Deadline`, `ReceiptBatches`: when a row leaves the queue, in real time and under every interleaving; what
  order and repetition of receipts can change.
- `Network`, `Agreement`, `Exchange`, `Credit`, `Quiescence`: any number of honest nodes over a network that
  loses requests and responses and repeats old requests.
- `Crypto`, `CryptoLaws`: the engine on symbolic terms, key choice and algorithm negotiation.
- `Migration`: the `job_type` backfill against the run-time resolver.
- `Hub`, `HubLoop`: the WebSocket hub with bounded channels and its batching pump.
- `Tokens`, `Registration`: single-use tokens and the webhook registration that spends them.
- `Debounce`: the file watcher's debounce map and its pruning.
- `Basics`, `Errors`: shared values, sums, and the error codes that decide a retry.

## How the code is read

- Time is an integer number of milliseconds. Clock readings do not go back: those the code compares in memory,
  for tokens and for the debounce map, carry Go's monotonic reading; for stored times it is an assumption. Ids
  from the random generator are new. Storage writes succeed; network calls may fail in any way.
- A handler runs as one step. The poll pass does not: it works from a snapshot, and any handler may run between
  two attempts, between an attempt and its booking, and between the two writes of a final failure.
- In the network, an attempt is one step: the request is posted, arrives or is lost, and its answer comes back or
  is lost. Nothing is lost by that: between posting and answer the caller's worker is blocked, and the caller's
  handlers read and write its table but never the attempt in flight, so their steps may as well come before or
  after; and a request that arrives late, while its caller has moved on, is a lost one that is delivered again.
- The snapshot is any listing of the queued rows in order of `created_at`; rows of the same age may come in
  either order.
- A JWE is a term of key algorithm, content algorithm, recipient and content, a JWS a term of algorithm,
  signer and payload. A JSON text is known by its characters and by what the `job_type` probe finds in it: keys
  are matched exactly and occur once.
- Upper-casing covers the ASCII letters and the dotless i, the only other character that becomes an ASCII
  letter of the words compared with.
- `last_error` keeps the error code and not its text. `MaxRetries` below 1 still gives one attempt, so limits are
  stated with `Limit`, which is `MaxRetries` or 1.
- A request posted to the wrong kind of endpoint is decoded there as the code would decode it: a flat receipt
  is an empty envelope, and an envelope is a receipt without disposition.

## What the proofs showed about the code

- The comment at `internal/queue/worker.go:508` gives waits of 1, 5, 15, 30 and 60 minutes; the code waits
  `min(n * n, 60)` minutes, and the model follows the code.
- The cost of traffic is linear in what is enqueued: a document costs the whole network at most twice the
  attempt limit, half of it for the one J-MDN it can cause
  (`Quiescence.AttemptsPerDocument`).
- An id that was quarantined once is answered 409 for ever, so a sender whose keys were unknown at first can
  never deliver that message (`Admission.StoredIdIsNeverAccepted`).
- The `job_type` column of an inbound row is read out of the business document, so counting `send_jmdn` rows by
  column alone can count documents; jobs are counted by column and direction
  (`Admission.InboundColumnFollowsDocument`).
- Negotiation is symmetric except when exactly one side is silent and RSA-OAEP decides
  (`CryptoLaws.NegotiationSymmetricExactly`).
- The partner table has no column for the advertised algorithms, so a partner read back from it has no list and
  gets RSA-OAEP, whatever it registered with (`Registration.Load`, `Registration.StoredPartnersNegotiateRsaOaep`).
- The file watcher stores a file as it finds it. If a transmit file of an old database declares a `job_type` that
  is neither a string nor null, the worker used to ignore it and delivered the document; the migration writes its
  text into the column and the worker then refuses the row (`Migration.DeclaredNumberStopsDelivery`). Migration
  and run time agree exactly on the payloads that are `ReadAlike`, for keys spelled exactly `job_type`: Go also
  matches other spellings by case, SQLite does not.

## Model

| member | source | states |
|---|---|---|
| Quiescence.AttemptsPerDocument | internal/queue/worker.go:480-524 | over every run of any number of honest nodes, whatever is lost, delayed or repeated, all nodes together make at most 2 * MaxRetries attempts per document enqueued |
| Quiescence.AttemptsAreBounded | internal/queue/worker.go:124-153 | from any reachable world on, all attempts ever made stay within a number fixed by that world as long as nothing is enqueued, and each new document adds at most 2 * MaxRetries |
| Quiescence.StepTotal | internal/api/external_handlers.go:218-250 | attempts made plus attempts that can still follow are raised by no step but enqueueing, although an accepted envelope creates a job on the peer and a receipt may be posted to a message endpoint |
| Quiescence.AcceptanceMovesPotential | internal/api/external_handlers.go:181-250 | acceptance takes from the sender's share at least the attempts it gives to the receiver's J-MDN job |
| Credit.StepBalance | internal/queue/worker.go:480-524 | at one node, attempts made plus attempts left rise only with enqueueing and acceptance, by one row's worth, under every interleaving |
| Credit.AttemptsWithinBalance | internal/queue/worker.go:492-505 | attempts left are never negative, so attempts made stay within the balance |
| Agreement.DeliveredMeansHeld | internal/queue/worker.go:242-348 | in every run, a document row DELIVERED at its sender, by a 2xx answer or by a receipt, is held by its destination in an INBOUND row with the same id and exactly the sender's document, and was accepted there once, from this sender |
| Agreement.AcceptedMeansSent | internal/api/external_handlers.go:64-215 | in every run, every envelope a node answered 202 was built from a document row its sender holds under that id, addressed to this node, and seals that row's document with the sender's signature |
| Agreement.WorldStepKeepsWorld | internal/queue/worker.go:124-153 | every step of the network keeps: stores in order, what was accepted was posted, what is or is about to be marked DELIVERED was accepted, every request on the network is genuine |
| Agreement.WorldRunKeepsWorld | internal/queue/worker.go:124-153 | the same over runs of any length, from any world in order |
| Agreement.PlanIsGenuine | internal/queue/worker.go:212-411 | what an honest worker posts is an envelope built from one of its document rows for that row's destination, or a positive receipt to the sender of a message it accepted |
| Agreement.JobWasAccepted | internal/api/external_handlers.go:227-250 | every J-MDN job acknowledges a message the node answered 202, to the sender it came from |
| Agreement.PositiveAnswerMeansAccepted | internal/queue/worker.go:334-342 | a 2xx answer to a posted document means the destination has just accepted that id from that sender |
| Exchange.DeliveryIsReachable | internal/queue/worker.go:242-348 | for every document between two acquainted nodes there is a run of the network from its start that ends with the row DELIVERED and the document accepted |
| Exchange.ReceiptPathIsReachable | internal/api/external_handlers.go:227-250 | there is also one in which the sender never gets an answer and the receipt alone takes the row to DELIVERED |
| Exchange.AttemptDelivers | internal/queue/worker.go:140-151 | from every world on, an attempt at a document the destination has not stored, with keys and endpoints known and nothing lost, ends in DELIVERED at the sender and acceptance at the destination |
| Exchange.ReceiptAttemptCloses | internal/queue/worker.go:356-441 | from every world on, the attempt of a receipt job takes the row it names to DELIVERED at the recipient, even if its own answer is lost |
| Exchange.EnvelopeOpens | internal/queue/worker.go:285-314 | the envelope of a document row is well formed, names row and sender, and opens at the destination to the row's document |
| Exchange.ReceiptGoesBack | internal/queue/worker.go:356-411 | the receipt for a processed job says DELIVERED, names the acknowledged message and goes to the receipt endpoint of its sender |
| Exchange.ReceiptCloses | internal/api/external_handlers.go:351-394 | a positive flat receipt is answered 202 and sets the row it names to DELIVERED and nothing else in it |
| Node.StepKeepsStore | internal/queue/worker.go:480-505 | under every interleaving, also between the two writes of a final failure: ids stay unique, no row is removed or rewritten, none re-enters QUEUED, queued rows are outbound, typed and below the limit, and the snapshot stays in step with the store |
| Attempts.AttemptsBoundedAndSpaced | internal/queue/worker.go:480-524 | over every run against arbitrary callers: no row gets more than MaxRetries attempts, they are numbered 1, 2, 3, and attempts k and k + 1 are at least min(k * k, 60) minutes apart |
| Attempts.StepKeepsInv | internal/queue/worker.go:140-151 | store invariant and attempt log together survive every step: a row's retry count is the number of its attempts, and its next attempt waits for the backoff of the last |
| Attempts.RowsAreNeverRemovedOrRequeued | internal/repository/message_repository.go:147-193 | between any two moments of a run every row stays, keeps its message, and does not return to the queue once it has left it |
| Fates.FateOfARow | internal/queue/worker.go:480-524 | over every run and interleaving, for an outbound row that no receipt of the run named: it is QUEUED exactly while all its attempts were sent, went unanswered, and were fewer than the limit; DELIVERED exactly after a positive answer; FAILED exactly after an attempt that could not be sent, or after the limit of unanswered ones, neither sooner nor later |
| Fates.UnansweredRowGetsAllItsAttempts | internal/queue/worker.go:334-342 | a row whose attempts are all sent and all go unanswered, or are answered outside 200 to 299, is FAILED exactly after its full number of attempts and QUEUED before |
| Fates.NamedExactly | internal/api/external_handlers.go:367-394 | the rows left out there are exactly those that a receipt which arrived in the run named |
| Retries.AttemptFollowsRule | internal/queue/worker.go:471-524 | an attempt that cannot be planned takes its row to FAILED with count + 1; a 2xx answer to DELIVERED; no answer, or any other, leaves it QUEUED with count + 1, due min(k * k, 60) minutes later, if k = count + 1 is below MaxRetries, and FAILED otherwise |
| Retries.PollFollowsRule | internal/queue/worker.go:140-151 | a pass makes such an attempt exactly at the rows that are queued and not waiting for a later moment, and leaves all others |
| Retries.RetryableExactly | internal/errors/errors.go:179-188 | an error is worth a retry exactly if it is a network error, a timeout, an unavailable peer or a rate limit |
| Planning.DocumentPlanExactly | internal/queue/worker.go:242-332 | a document row is sent exactly as one post: to the message endpoint of its destination, header 1.0 with the row's id, both nodes, type, moment and webhook, around the document signed by this node and encrypted under the agreed algorithm to the key published for enc; when there is none, the row ends as a row for an unknown partner or as invalid, by a stated condition |
| Planning.ReceiptPlanExactly | internal/queue/worker.go:356-411 | a receipt job is sent exactly as a flat receipt to the recipient's receipt endpoint, or its message endpoint if there is none, naming the original, hashing its payload, FAILED for a job that says so in any case of letters and DELIVERED for every other; and which error ends the rest |
| Planning.UnknownKindIsRefused | internal/queue/worker.go:212-236 | a row of any other job_type is never sent and is invalid |
| Admission.AcceptedOnceAndReceiptedOnce | internal/api/external_handlers.go:141-250 | over every run: no id is answered 202 twice; every accepted envelope is stored with its document and, at a node with an engine, was encrypted to it and signed with the signing key that the partner table then offered for its sender; the outbound J-MDN jobs are, one for one and in order, those of the accepted envelopes that are not receipts, with their ids and senders |
| Admission.StoredIdIsNeverAccepted | internal/api/external_handlers.go:190-201 | once an id is stored, quarantined or not, every later well-formed envelope with it gets 409 and changes nothing, after any further run |
| Admission.ReceiveExactly | internal/api/external_handlers.go:64-254 | when exactly admission answers 400, 401, 409 and 202, and what each answer leaves in the table |
| Answers.AdmissionExactly | internal/api/external_handlers.go:64-254 | 400 for no JSON or a missing field; 409 for a stored id; 202 exactly for a new id whose envelope is encrypted to this node under RSA-OAEP or RSA-OAEP-256 with A256GCM and signed RS256 with the key its sender publishes first for sig, or first of all, or if the node has no engine; 401 otherwise, with the reason: no keys known, cannot be decrypted, or not the sender's signature |
| Answers.AdmissionLeaves | internal/api/external_handlers.go:171-250 | 202 leaves the document inside, DELIVERED, and, unless it is a receipt, one queued job that acknowledges this id to this sender as processed and hashes this payload; 401 leaves the envelope, QUARANTINED; 400 and 409 leave nothing |
| Answers.OpensAuthentic | internal/api/external_handlers.go:113-167 | an envelope opens exactly if it is for this node and signed by its sender's signing key, then to the document inside, and each failure has the stated reason |
| Admission.AcceptedRows | internal/api/external_handlers.go:171-250 | an accepted envelope adds its own row and, unless it is a receipt, one job, and the stored text is the document inside |
| Admission.InboundColumnFollowsDocument | internal/repository/message_repository.go:108-121 | the column of an inbound row says send_jmdn exactly when the document carries that job_type; such a row is no job all the same |
| Deadline.LeavesQueueByDeadline | internal/queue/worker.go:124-153 | in every run of a node whose passes begin at most gap apart and take at most span, under every interleaving with its handlers: once MaxRetries * (gap + span) plus the sum of min(k * k, 60) minutes for k below MaxRetries has passed since its creation, a row is not QUEUED |
| Deadline.DefaultDeadline | internal/queue/worker.go:50-56 | with the default of five attempts that is 5 * (gap + span) plus thirty minutes |
| Deadline.StepKeepsTime | internal/queue/worker.go:140-144 | every step keeps each queued row on its schedule: it gets ready no later than its count of failures allows, and no pass that began after it got ready has passed over it |
| Deadline.TotalMinutesClosedForm | internal/queue/worker.go:509-514 | the total backoff is n(n+1)(2n+1)/6 minutes up to n = 7 and 140 + 60(n-7) from there, thirty after four failures |
| PollPass.UninterruptedPassMatchesLoop | internal/queue/worker.go:124-153 | the interruptible steps, when nothing interrupts them, leave the table the loop leaves, for every choice of answers and durations |
| Worker.QueueWorker.ProcessQueue | internal/queue/worker.go:124-153 | the in-place loop equals one pure function applied to each row on its own: due queued rows make the step that the attempt rule gives, told from whether they could be sent and what came back, all others stay, whatever else is in the snapshot; exactly the due rows are attempted, oldest first |
| Worker.QueueWorker.Process | internal/queue/worker.go:146-151 | one attempt changes the row it delivered as the attempt rule says, and no other |
| Worker.QueueWorker.HandleFailure | internal/queue/worker.go:480-524 | a retryable error with count + 1 below MaxRetries keeps the row queued, due after min(k * k, 60) minutes; any other failure takes it to FAILED; the count and the error code are kept |
| Worker.QueueWorker.HandleSuccess | internal/queue/worker.go:471-477 | a success sets the status of that row to DELIVERED and leaves the rest of the table |
| Worker.BookedTouchesOneRow | internal/queue/worker.go:471-524 | the keyed updates that book an attempt change the row they name as seen from the row alone, and no other; this is where unique ids are needed |
| Worker.DueOfKeepsOrder | internal/queue/worker.go:140-144 | skipping rows that are not due keeps the rest in order of creation, each once |
| MessageStore.Repository.Create | internal/repository/message_repository.go:51-102 | the table gets the row with its resolved job_type, or stays as it is with the reason: no id, no payload, id taken |
| Messages.CreateExactly | internal/repository/message_repository.go:51-102 | inserting fails exactly for an empty id, an empty payload or a taken id, in that order, and else adds the row at the end as it is, its job_type what the caller says, else the string under job_type in its text, else process_outbound |
| MessageStore.Repository.UpdateStatus | internal/repository/message_repository.go:147-173 | writes the status of the named row only, and tells whether there was one |
| MessageStore.Repository.UpdateRetryInfo | internal/repository/message_repository.go:176-193 | writes the three retry fields of the named row only |
| MessageStore.Repository.ListByStatus | internal/repository/message_repository.go:196-221 | exactly the rows in the status, each once, oldest first |
| MessageStore.InsertByCreation | internal/repository/message_repository.go:197-199 | a row is placed into a list in order of creation without losing or doubling any |
| Handlers.Api.InboundHandler | internal/api/external_handlers.go:64-254 | the handler's statements leave the table and give the answer that `Receive` says, which `Answers.AdmissionExactly` and `Answers.AdmissionLeaves` pin case by case |
| Handlers.Api.ReceiptHandler | internal/api/external_handlers.go:293-395 | likewise for `Reconcile`, which `Answers.ReconcileExactly` and `Answers.ReceiptIsKept` pin |
| Answers.ReconcileExactly | internal/api/external_handlers.go:293-395 | 202 exactly for a flat receipt or a complete envelope, else 400 and nothing changes; a stored row becomes FAILED if the receipt names it with FAILED or ERROR, letter by letter and ignoring case, DELIVERED if it names it with any other text, and stays as it is if it is not named |
| Answers.VerdictExactly | internal/api/external_handlers.go:379-388 | a status is bad news exactly if it spells FAILED or ERROR in any case of letters |
| Answers.ReceiptReadsExactly | internal/api/external_handlers.go:418-446 | a receipt names a message exactly if it is flat and says so, or wraps a plain receipt that does, or one signed with the key its sender publishes for sig, at a node that can check that |
| Answers.ReceiptIsKept | internal/api/external_handlers.go:325-349 | a receipt is stored once, under its envelope id or jmdn:id:timestamp, with the job_type its text holds |
| Handlers.Api.TransmitHandler | internal/api/internal_handlers.go:15-71 | likewise for `Enqueue`, which `Answers.EnqueueExactly` pins |
| Answers.EnqueueExactly | internal/api/internal_handlers.go:15-71 | 202 exactly for a request with destination, type and document; it leaves one new row, OUTBOUND, QUEUED, due at once, process_outbound, with the request unchanged; any other request gets 400 and leaves the table alone |
| ReceiptBatches.BatchEndsWithLastVerdict | internal/api/external_handlers.go:325-392 | a stored row ends a batch of receipts FAILED or DELIVERED as the last one that names it says, FAILED for the words FAILED and ERROR ignoring case and DELIVERED for all else, or unchanged if none names it |
| ReceiptBatches.ConsistentBatchObeysEveryReceipt | internal/api/external_handlers.go:379-388 | if no two receipts disagree on a message, every receipt that names a row has its verdict in the end |
| ReceiptBatches.ConsistentBatchesCommute | internal/api/external_handlers.go:325-392 | batches of the same receipts in any order and any number of copies leave the stored rows alike |
| ReceiptBatches.SwapVisibleExactly | internal/api/external_handlers.go:379-388 | swapping two receipts shows on a stored row exactly when they contradict each other on it |
| Crypto.PublicKeyByUseExactly | internal/crypto/as5_engine.go:491-514 | the key found is the first RSA key published for the use or, if there is none for it, the first RSA key of all; nothing is found exactly for a text that is no key set or holds no RSA key |
| CryptoLaws.RoundTripThroughPublishedKeys | internal/crypto/as5_engine.go:152-208 | with keys taken by use from each other's published sets and the algorithm negotiated from any advertised list, the payload comes back; a different signer is refused as such, and another engine cannot decrypt |
| CryptoLaws.OpensExactly | internal/crypto/as5_engine.go:267-300 | opening gives p exactly on a JWE for this key under an accepted algorithm around a JWS that the expected sender signed over p, and each of the four errors has its exact condition |
| CryptoLaws.SealsExactly | internal/crypto/as5_engine.go:152-208 | sealing succeeds exactly under RSA-OAEP, RSA-OAEP-256 or no name, and gives a JWE under that very algorithm with A256GCM, for the receiver, around the payload signed RS256 by this engine |
| CryptoLaws.RoundTripThroughAnySets | internal/crypto/as5_engine.go:267-300 | for any two key sets, with one key for both uses or different ones, in any order and company: what is sealed to the key found for enc opens with the key found for sig, and with no other signer or engine |
| CryptoLaws.SplitKeysAreKeptApart | internal/crypto/as5_engine.go:491-514 | a partner that publishes different keys for sig and enc, in either order, has neither taken for the other |
| CryptoLaws.ExportIsLabelled | internal/crypto/as5_engine.go:418-442 | the exported set holds the engine's key twice, once labelled sig and RS256, once enc and RSA-OAEP |
| CryptoLaws.ExportedKeyByUse | internal/crypto/as5_engine.go:418-442 | whatever use is asked for, the key found in an exported set is the exporter's |
| CryptoLaws.NegotiationFindsStrongest | internal/crypto/as5_engine.go:227-254 | the answer is exactly the strongest known algorithm of both lists, none exactly when none is shared; a silent peer gets RSA-OAEP exactly if the node has it |
| CryptoLaws.NegotiationIgnoresOrder | internal/crypto/as5_engine.go:227-254 | the outcome depends on the two sets of names only |
| CryptoLaws.NegotiationSymmetricExactly | internal/crypto/as5_engine.go:227-254 | the two ends agree exactly unless one is silent and RSA-OAEP is on either list |
| CryptoLaws.GrowingPeerNeverWeakens | internal/crypto/as5_engine.go:227-254 | a peer that adds to a non-empty list never gets a weaker algorithm |
| CryptoLaws.PublishedDocumentDecides | internal/discovery/as5_config.go:170-184 | for every published document: the newer list decides if there is one, else the legacy field, and silence counts as RSA-OAEP; with which exact outcome |
| CryptoLaws.OwnDocumentNegotiatesTheStrongest | internal/discovery/as5_config.go:90-99 | an example: nodes that publish what this one does agree on RSA-OAEP-256 |
| Migration.MigrateMessagesJobType | internal/repository/schema.go:145-158 | the two updates in place leave no column empty, and each row that both readers read alike as the resolver would stamp it |
| Migration.MigratedColumnExactly | internal/repository/schema.go:145-158 | a stamped column stays; an empty one gets the text of the job_type in the payload, of whatever type, if that is not empty, and process_outbound otherwise |
| Migration.MigrationMatchesResolverExactly | internal/repository/message_repository.go:108-121 | a backfilled column equals the resolver's value exactly when the payload is read alike; stamped rows and all other fields stay |
| Migration.DispatchUnchangedExactly | internal/queue/worker.go:212-236 | the worker dispatches a row the same before and after exactly when it was stamped or its payload is read alike |
| Migration.MigrationIdempotent | internal/repository/schema.go:145-158 | running the backfill again changes nothing |
| Migration.DeclaredNumberStopsDelivery | internal/repository/schema.go:145-158 | a transmit text that declares a job_type of another type is delivered as a document before the migration and refused after it |
| Hub.StreamsAreExact | internal/dashboard/websocket.go:66-98 | over every sequence of events: nothing panics, no closed empty channel is read by the batch loop, a channel is open exactly while its client is in the map, at most 256 messages are buffered, and frames cut at newlines, then what is in hand, then what is buffered, are the broadcasts from registration to removal |
| Hub.ServedFromTheStart | internal/dashboard/websocket.go:56-98 | from an empty hub on, no sequence of events breaks it, and what was written to a client is a prefix of the broadcasts since its registration |
| Hub.StepKeepsHub | internal/dashboard/websocket.go:178-203 | every single event keeps that, eviction before the client's own unregister included |
| Hub.StretchIsRegistrationToRemoval | internal/dashboard/websocket.go:69-95 | a client's stretch starts where the sequence stood at its registration, ends before the event that removed it, an unregistration or a message that found 256 buffered, and does not move again |
| Hub.SplitOfJoin | internal/dashboard/websocket.go:192-199 | cutting a frame at its newlines gives back the messages it was joined from |
| HubLoop.Connection.WriteBatch | internal/dashboard/websocket.go:188-203 | one turn of the pump empties the buffer into one frame, in order, and a failed close loses exactly that batch |
| HubLoop.UninterruptedPumpMatchesLoop | internal/dashboard/websocket.go:188-203 | the pump's steps of the hub protocol, uninterrupted, do what the loop does |
| HubLoop.HubServer.BroadcastMessage | internal/dashboard/websocket.go:84-95 | every client with room gets the message at the end of its buffer, every other is closed and dropped, nobody else is touched |
| Hub.BroadcastExactly | internal/dashboard/websocket.go:84-95 | a broadcast goes to the end of every buffer of fewer than 256 messages, closes and drops every registered client whose buffer is full, and touches nobody else |
| Hub.UnregisterExactly | internal/dashboard/websocket.go:75-82 | unregistering takes the client out of the map and closes its channel with what is buffered left in it; one that is out already, and every other, is left alone |
| Hub.RegisterExactly | internal/dashboard/websocket.go:69-73 | a new client joins with an open, empty channel at the current end of the sequence |
| Hub.FailedWriteEndsPump | internal/dashboard/websocket.go:189-203 | a write that fails ends the pump and loses exactly the batch in hand |
| Hub.DrainedPump | internal/dashboard/websocket.go:180-187 | the pump ends when its channel is closed and drained, and waits on one that is only drained |
| Hub.ReturnedPumpIsFinal | internal/dashboard/websocket.go:171-208 | once a pump has ended, no further event writes anything to its client |
| HubLoop.HubServer.Unregister | internal/dashboard/websocket.go:75-82 | a client in the map leaves it and its channel is closed once; any other client is left alone |
| HubLoop.HubServer.Register | internal/dashboard/websocket.go:69-73 | a client with an open, empty channel joins the map, and every channel in it is open |
| Tokens.StoreRefinesHistory | internal/discovery/tokens.go:59-83 | over every run, with lazy deletes and sweeps anywhere, a validation says yes exactly if the token was issued, is not past its expiry and was never accepted before |
| Tokens.AcceptedExactly | internal/discovery/tokens.go:59-83 | told from the operations alone: after every run, a validation says yes exactly if the token was generated to last until now at least, and no earlier validation of it said yes |
| Tokens.SweptHoldsAcceptable | internal/discovery/tokens.go:86-100 | after a sweep the store holds exactly the tokens that can still be accepted, unused |
| Tokens.SweepsAreInvisible | internal/discovery/tokens.go:86-100 | runs that differ only in their sweeps give the same answers |
| Tokens.ConsumeAsPromised | internal/discovery/tokens.go:59-83 | one validation answers as the history says and keeps store and history in step |
| Tokens.TokenStore.ValidateAndConsume | internal/discovery/tokens.go:59-83 | the statements give the answer and the store of `Consume`, which `Tokens.AcceptedExactly` and the refinement pin over runs |
| Tokens.TokenStore.CleanupExpiredTokens | internal/discovery/tokens.go:86-100 | the deleting loop removes exactly the expired and the used tokens, in whatever order it visits them |
| Tokens.TokenStore.GenerateToken | internal/discovery/tokens.go:36-55 | the new token is in the store, unused, with its expiry, beside the old ones |
| Registration.OneRegistrationPerToken | internal/discovery/service.go:160-210 | over every run of interleaved registrations, different registrations, failed ones too, ran on different tokens |
| Registration.RegistrationsBurnTheirTokens | internal/discovery/tokens.go:59-83 | every registration that is over, successful or not, ran on a token that was issued, unexpired when accepted, and is refused for ever after |
| Registration.PassesBurnTheirTokens | internal/discovery/tokens.go:59-83 | the same for every registration past its token check that is still running |
| Registration.NoMorePartnersThanTokens | internal/repository/partner_repository.go:48-64 | over every run there is one row per partner_id, and there are never more rows than accepted tokens |
| Registration.StepKeepsInv | internal/discovery/service.go:160-210 | every step keeps tokens, passes, running registrations and the partner table in step |
| Registration.RegistrationTakesEffectExactly | internal/discovery/service.go:166-210 | after the token check: missing fields, failed fetch, a look-up that is out of date, or success, each on its exact condition; on success the table holds its data under its node id, other partners untouched, and otherwise it stays as it was |
| Registration.RacingCreateFails | internal/repository/partner_repository.go:48-64 | of two registrations that both saw no row for one new partner, the second is refused by the unique key and leaves the first one's data |
| Registration.DiscoveryService.HandleWebhookRegistration | internal/discovery/service.go:160-210 | the token is consumed first, in any case; the partner table changes only after a good token |
| Registration.PartnerRepository.Create | internal/repository/partner_repository.go:23-72 | inserts under the unique partner_id or changes nothing |
| Registration.PartnerRepository.Update | internal/repository/partner_repository.go:109-146 | replaces the data of the named partner or changes nothing |
| Registration.CreatePartnerExactly | internal/repository/partner_repository.go:23-72 | creating fails exactly for a missing id, name or key address or a taken id |
| Registration.UpdatePartnerExactly | internal/repository/partner_repository.go:109-146 | updating fails exactly for an empty or unknown id, and replaces that partner's row only |
| Registration.LoadExactly | internal/repository/partner_repository.go:75-106 | a partner is found exactly if there is a row for it, and comes back without a capability list |
| Debounce.FileWatcher.WatchLoop | internal/watcher/fs_worker.go:79-126 | the loop with the five-minute prune decides as one that never prunes, and an event is processed exactly if it is relevant and comes at least 500 ms after the mark of every earlier processed event of its file |
| Debounce.DecisionsExactly | internal/watcher/fs_worker.go:93-112 | the same condition, from any map of marks on, for every event of every sequence in the order of the clock |
| Debounce.PruningIsInvisible | internal/watcher/fs_worker.go:197-204 | a pruned map decides every event like the full one, and keeps covering it |
| Debounce.AllSpaced | internal/watcher/fs_worker.go:93-103 | in every event sequence, any two processings of one file are at least the debounce delay apart |
| Debounce.DecisionsAreSpaced | internal/watcher/fs_worker.go:93-103 | the same from any map on, for events in the order of the clock |
| Debounce.FileWatcher.CleanupProcessedFiles | internal/watcher/fs_worker.go:197-204 | the deleting loop removes exactly the marks older than five minutes, in whatever order it visits them |
| Debounce.FileWatcher.HandleEvent | internal/watcher/fs_worker.go:93-112 | one event is processed exactly if it is relevant and not suppressed, and then marked before the map is pruned |

## Left out

- Deadline.LeavesQueueByDeadline: that passes keep the pace is a hypothesis on the run; the ticker and the HTTP timeout that make them do so are not part of the model.
- Agreement.DeliveredMeansHeld: requests come from honest nodes only (lost, late and repeated ones included), and rows put into the queue by the file watcher are not part of the network, because a file may carry its own job_type key.
- Exchange.DeliveryIsReachable: shows that there is such a run; that a lossy network lets one happen in the end is no property of the code.
- Fates.FateOfARow: speaks of rows that no receipt of the run named, because a receipt may overwrite the status at any moment; what it writes is stated by Answers.ReconcileExactly.
- Tokens.AcceptedExactly: no token is generated twice and the clock does not go back, as random tokens and a monotonic clock give it.
- ReceiptBatches.ConsistentBatchesCommute: speaks of the rows stored before the batch, because the receipt rows themselves are kept in order of arrival.
- Worker.QueueWorker.HandleFailure: keeps the code of the error and not its text in last_error.
- Storage failures and process crashes: a success whose status write fails stays QUEUED, which breaks the attempt bound.
- The moment between the two inserts of the inbound handler: the handler is one step.
- Real cryptography, PEM, base64, SHA-256 and JSON text: symbolic terms instead; the signature of a flat receipt is only logged by the code and is not modelled.
- HTTP, redirects, TLS, routers, middleware, logging, SQLite internals, the schema change that adds the job_type column (an added column is empty), and indexes.
- The initiator's side of the four-step handshake: its token comes from its own store, which the responder does not know.
- The lock modes and memory model of Go, WebSocket pings and read deadlines: every hub event and token operation is atomic. The hub's own inbound queue of broadcasts is left out, as the sequence starts where it is taken from that queue.
- The timestamps and numeric ids of partner rows.
- Status SENT, which nothing writes; and finality of DELIVERED or FAILED, which the code does not promise, since a later receipt or a last failing attempt may overwrite either.
- The dashboard's pages, settings, users and sessions, IP allowlist, pagination, deletion and upsert of rows: user interface, wrappers, or easy members.

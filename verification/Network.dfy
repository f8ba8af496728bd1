/** Any number of honest nodes that call each other over an unreliable network. A call may lose its
    request or its response, and any request once posted may arrive again, at any later time. */
module Network {
  import opened Basics
  import opened Crypto
  import opened Messages
  import opened Delivery
  import opened Handlers
  import opened Node
  import opened Admission

  type Configs = map<string, Config>

  /** The nodes by id, and every request posted so far. */
  datatype World = World(nodes: map<string, State>, posts: seq<Post>)

  datatype Outcome = RequestLost | ResponseLost | Returned

  datatype WorldAction =
    | Local(at: string, action: Action)
    | Call(caller: string, partners: Partners, stamp: string, outcome: Outcome, peerPartners: Partners, jobId: string)
    | Redeliver(k: nat, partnersThen: Partners, newId: string)

  ghost predicate WellFormed(cfgs: Configs) {
    forall p :: p in cfgs ==> cfgs[p].nodeId == p
  }

  /** An entry of an honest partner table leads to the partner it names, or nowhere. */
  ghost predicate HonestEntry(cfgs: Configs, p: string, e: Partner) {
    && p in cfgs
    && (e.messageEndpoint == NoUrl || e.messageEndpoint == Url(p, InboundRoute))
    && (e.receiptEndpoint == NoUrl || e.receiptEndpoint == Url(p, ReceiptRoute))
    && (e.jwks == NoJwks || (cfgs[p].engine.Some? && e.jwks == cfgs[p].engine.value.ExportJwks(p + ":enc")))
  }

  /** Partner tables may differ between nodes and change between steps, as long as they are honest. */
  ghost predicate Honest(cfgs: Configs, partners: Partners) {
    forall p :: p in partners ==> HonestEntry(cfgs, p, partners[p])
  }

  const NO_HEADER := RoutingHeader("", "", "", "", "", "", "")

  /** A flat receipt has none of the keys of an envelope, so it decodes to an empty one. */
  function AsInbound(b: WireBody): InboundBody {
    match b
    case EnvelopeBody(e) => Envelope(e)
    case FlatBody(_) => Envelope(FidexEnvelope(NO_HEADER, NotJwe("")))
  }

  /** An envelope read as a receipt carries a payload that is no receipt. */
  function AsReceipt(b: WireBody): ReceiptBody {
    match b
    case EnvelopeBody(e) =>
      ReceiptJson(Some(FlatReceipt("", "", "", NotJwe(""), "")),
                  Some(JmdnEnvelope(e.routing, OtherText(if e.payload == NotJwe("") then "" else "jwe"))), Absent)
    case FlatBody(f) => ReceiptJson(Some(f), Some(JmdnEnvelope(NO_HEADER, OtherText(""))), Absent)
  }

  /** A request as a step of the node that receives it. */
  function Arrival(post: Post, partners: Partners, jobId: string): Action
    requires post.url.Url?
  {
    match post.url.route
    case InboundRoute => ReceiveEnvelope(partners, AsInbound(post.body), jobId)
    case ReceiptRoute => ReceiveReceipt(partners, AsReceipt(post.body))
  }

  function AnswerCode(c: Config, n: State, post: Post, partners: Partners, jobId: string): int
    requires post.url.Url?
  {
    match post.url.route
    case InboundRoute => Receive(c, partners, n.rows, AsInbound(post.body), jobId, n.clock).1.code
    case ReceiptRoute => Reconcile(c, partners, n.rows, AsReceipt(post.body), n.clock).1
  }

  ghost function Update(w: World, at: string, r: Option<State>): Option<World> {
    if r.None? then None else Some(w.(nodes := w.nodes[at := r.value]))
  }

  ghost function Arrive(cfgs: Configs, w: World, post: Post, partners: Partners, jobId: string): (r: Option<World>)
    requires w.nodes.Keys == cfgs.Keys
    ensures r.Some? ==> r.value.nodes.Keys == cfgs.Keys
  {
    if post.url.Url? && post.url.host in cfgs && Honest(cfgs, partners)
    then Update(w, post.url.host, Step(cfgs[post.url.host], w.nodes[post.url.host], Arrival(post, partners, jobId)))
    else None
  }

  lemma ArriveUnfolds(cfgs: Configs, w: World, post: Post, partners: Partners, jobId: string)
    requires w.nodes.Keys == cfgs.Keys && Arrive(cfgs, w, post, partners, jobId).Some?
    ensures post.url.Url? && post.url.host in cfgs && Honest(cfgs, partners)
    ensures var at := post.url.host;
            var r := Step(cfgs[at], w.nodes[at], Arrival(post, partners, jobId));
            r.Some? && Arrive(cfgs, w, post, partners, jobId) == Some(w.(nodes := w.nodes[at := r.value]))
  {
    hide Step, Honest, Arrival;
  }

  predicate IsLocal(a: Action) {
    a.Advance? || a.BeginPoll? || a.Skip? || a.Book? || a.EndPoll? || a.Transmit?
  }

  /** One attempt: nothing is sent if the plan fails; a lost request may still turn up later. */
  ghost function CallStep(cfgs: Configs, w: World, a: WorldAction): (r: Option<World>)
    requires a.Call? && a.caller in cfgs && w.nodes.Keys == cfgs.Keys && CanTake(w.nodes[a.caller])
    ensures r.Some? ==> r.value.nodes.Keys == cfgs.Keys
  {
    var c := cfgs[a.caller];
    match Plan(c, a.partners, w.nodes[a.caller].worker.todo[0], a.stamp)
    case Err(_) =>
      Update(w, a.caller, Step(c, w.nodes[a.caller], Deliver(a.partners, a.stamp, NoReply)))
    case Ok(post) =>
      var w1 := w.(posts := w.posts + [post]);
      if a.outcome == RequestLost then
        Update(w1, a.caller, Step(c, w1.nodes[a.caller], Deliver(a.partners, a.stamp, NoReply)))
      else
        var w2 := Arrive(cfgs, w1, post, a.peerPartners, a.jobId);
        if w2.None? then None
        else
          var reply :=
            if a.outcome == ResponseLost then NoReply
            else Reply(AnswerCode(cfgs[post.url.host], w1.nodes[post.url.host], post, a.peerPartners, a.jobId));
          Update(w2.value, a.caller, Step(c, w2.value.nodes[a.caller], Deliver(a.partners, a.stamp, reply)))
  }

  ghost function WorldStep(cfgs: Configs, w: World, a: WorldAction): (r: Option<World>)
    requires w.nodes.Keys == cfgs.Keys
    ensures r.Some? ==> r.value.nodes.Keys == cfgs.Keys
  {
    match a
    case Local(at, action) =>
      if at in cfgs && IsLocal(action) then Update(w, at, Step(cfgs[at], w.nodes[at], action)) else None
    case Call(caller, partners, _, _, _, _) =>
      if caller in cfgs && Honest(cfgs, partners) && CanTake(w.nodes[caller]) then CallStep(cfgs, w, a) else None
    case Redeliver(k, partners, jobId) =>
      if k < |w.posts| then Arrive(cfgs, w, w.posts[k], partners, jobId) else None
  }

  ghost function WorldRun(cfgs: Configs, w: World, actions: seq<WorldAction>): (r: Option<World>)
    requires w.nodes.Keys == cfgs.Keys
    ensures r.Some? ==> r.value.nodes.Keys == cfgs.Keys
    decreases |actions|
  {
    if actions == [] then Some(w)
    else
      var r := WorldStep(cfgs, w, actions[0]);
      if r.None? then None else WorldRun(cfgs, r.value, actions[1..])
  }

  ghost function InitialWorld(cfgs: Configs): World {
    World(map p | p in cfgs :: INITIAL, [])
  }

  /** Some run of the network leads here from its start. */
  ghost predicate Reachable(cfgs: Configs, w: World) {
    w.nodes.Keys == cfgs.Keys && exists actions :: WorldRun(cfgs, InitialWorld(cfgs), actions) == Some(w)
  }

  // ----- what is true of every world -----

  predicate IsBusiness(r: Row) {
    r.dir == Outbound && r.jobType == PROCESS_OUTBOUND && r.payload.TransmitText?
  }

  /** The node has accepted an envelope with this id from this sender. */
  ghost predicate AcceptedFrom(n: State, id: string, sender: string) {
    exists k :: 0 <= k < |n.receptions| && n.receptions[k].code == ACCEPTED
      && n.receptions[k].env.routing.messageId == id && n.receptions[k].env.routing.sender == sender
  }

  ghost predicate AcceptedAt(w: World, node: string, id: string, sender: string) {
    node in w.nodes && AcceptedFrom(w.nodes[node], id, sender)
  }

  /** The envelope was built from this row. */
  predicate BuiltFrom(cfgs: Configs, e: FidexEnvelope, r: Row) {
    && r.id == e.routing.messageId && IsBusiness(r) && r.payload.req.destination == e.routing.receiver
    && r.payload.req.doc.content != ""
    && e.routing.sender in cfgs && cfgs[e.routing.sender].engine.Some?
    && e.routing.receiver in cfgs && cfgs[e.routing.receiver].engine.Some?
    && e.payload.Jwe?
    && e.payload.recipient == cfgs[e.routing.receiver].engine.value.key
    && e.payload.content == Jws(SIG_RS256, cfgs[e.routing.sender].engine.value.key, r.payload.req.doc)
  }

  /** Every request on the network is what an honest node sends: an envelope built from one of its rows
      to the row's destination, or a positive receipt for a message its receiver sent and it accepted. */
  ghost predicate Genuine(cfgs: Configs, w: World, post: Post) {
    && post.url.Url? && post.url.host in w.nodes
    && match post.body
       case EnvelopeBody(e) =>
         && post.url == Url(e.routing.receiver, InboundRoute) && e.routing.sender in w.nodes
         && exists k :: 0 <= k < |w.nodes[e.routing.sender].rows|
              && BuiltFrom(cfgs, e, w.nodes[e.routing.sender].rows[k])
       case FlatBody(f) =>
         f.status == "DELIVERED" && AcceptedAt(w, f.receiverId, f.originalId, post.url.host)
  }

  ghost predicate NodeOk(c: Config, n: State) {
    RowsOk(c, n.rows) && WorkerOk(c, n.rows, n.worker) && ReceptionsOk(c, n.rows, n.receptions)
  }

  /** What a node accepted was posted to it. */
  ghost predicate AcceptedWasPosted(posts: seq<Post>, at: string, n: State) {
    forall k :: 0 <= k < |n.receptions| && n.receptions[k].code == ACCEPTED ==>
      Post(Url(at, InboundRoute), EnvelopeBody(n.receptions[k].env)) in posts
  }

  /** A document marked DELIVERED, or answered and about to be, was accepted at its destination. */
  ghost predicate DeliveredWasAccepted(w: World, at: string, n: State) {
    && (forall k :: 0 <= k < |n.rows| && IsBusiness(n.rows[k]) && n.rows[k].status == Delivered ==>
          AcceptedAt(w, n.rows[k].payload.req.destination, n.rows[k].id, at))
    && (n.worker.Polling? && n.worker.flight.Answered? && n.worker.flight.result.None?
        && IsBusiness(n.worker.flight.row) ==>
          AcceptedAt(w, n.worker.flight.row.payload.req.destination, n.worker.flight.row.id, at))
  }

  ghost predicate NodeFine(cfgs: Configs, w: World, p: string)
    requires p in w.nodes && p in cfgs
  {
    NodeOk(cfgs[p], w.nodes[p]) && AcceptedWasPosted(w.posts, p, w.nodes[p])
  }

  ghost predicate NodesOk(cfgs: Configs, w: World) {
    w.nodes.Keys == cfgs.Keys && forall p :: p in w.nodes ==> NodeFine(cfgs, w, p)
  }

  ghost predicate DeliveriesOk(w: World) {
    forall p :: p in w.nodes ==> DeliveredWasAccepted(w, p, w.nodes[p])
  }

  ghost predicate PostsOk(cfgs: Configs, w: World) {
    forall post :: post in w.posts ==> Genuine(cfgs, w, post)
  }

  ghost predicate WorldOk(cfgs: Configs, w: World) {
    NodesOk(cfgs, w) && DeliveriesOk(w) && PostsOk(cfgs, w)
  }

  /** Rows and receptions are only added to. */
  ghost predicate Grows(n: State, n': State) {
    Evolved(n.rows, n'.rows) && n.receptions <= n'.receptions
  }

  lemma AcceptedStays(n: State, n': State, id: string, sender: string)
    requires n.receptions <= n'.receptions && AcceptedFrom(n, id, sender)
    ensures AcceptedFrom(n', id, sender)
  {
    var k :| 0 <= k < |n.receptions| && n.receptions[k].code == ACCEPTED
      && n.receptions[k].env.routing.messageId == id && n.receptions[k].env.routing.sender == sender;
    assert n'.receptions[k] == n.receptions[k];
  }

  lemma GenuineStays(cfgs: Configs, w: World, at: string, n': State, post: Post)
    requires at in w.nodes && Grows(w.nodes[at], n') && Genuine(cfgs, w, post)
    ensures Genuine(cfgs, w.(nodes := w.nodes[at := n']), post)
  {
    var w' := w.(nodes := w.nodes[at := n']);
    match post.body {
      case EnvelopeBody(e) =>
        var s := e.routing.sender;
        var k :| 0 <= k < |w.nodes[s].rows| && BuiltFrom(cfgs, e, w.nodes[s].rows[k]);
        if s == at {
          assert SameMessage(w.nodes[s].rows[k], n'.rows[k]);
        }
        assert BuiltFrom(cfgs, e, w'.nodes[s].rows[k]);
      case FlatBody(f) =>
        if f.receiverId == at {
          AcceptedStays(w.nodes[at], n', f.originalId, post.url.host);
        }
    }
  }

  lemma AcceptedAtStays(w: World, at: string, n': State, node: string, id: string, sender: string)
    requires at in w.nodes && w.nodes[at].receptions <= n'.receptions && AcceptedAt(w, node, id, sender)
    ensures AcceptedAt(w.(nodes := w.nodes[at := n']), node, id, sender)
  {
    if node == at {
      AcceptedStays(w.nodes[at], n', id, sender);
    }
  }

  lemma DeliveredStays(w: World, at: string, n': State, p: string, n: State)
    requires at in w.nodes && w.nodes[at].receptions <= n'.receptions && DeliveredWasAccepted(w, p, n)
    ensures DeliveredWasAccepted(w.(nodes := w.nodes[at := n']), p, n)
  {
    var w' := w.(nodes := w.nodes[at := n']);
    forall k | 0 <= k < |n.rows| && IsBusiness(n.rows[k]) && n.rows[k].status == Delivered
      ensures AcceptedAt(w', n.rows[k].payload.req.destination, n.rows[k].id, p)
    {
      AcceptedAtStays(w, at, n', n.rows[k].payload.req.destination, n.rows[k].id, p);
    }
    if n.worker.Polling? && n.worker.flight.Answered? && n.worker.flight.result.None?
       && IsBusiness(n.worker.flight.row) {
      AcceptedAtStays(w, at, n', n.worker.flight.row.payload.req.destination, n.worker.flight.row.id, p);
    }
  }

  lemma OthersKeepNodes(cfgs: Configs, w: World, at: string, n': State)
    requires NodesOk(cfgs, w) && at in w.nodes && NodeOk(cfgs[at], n') && AcceptedWasPosted(w.posts, at, n')
    ensures NodesOk(cfgs, w.(nodes := w.nodes[at := n']))
  {
    var w' := w.(nodes := w.nodes[at := n']);
    forall p | p in w'.nodes ensures NodeFine(cfgs, w', p) {
      assert p != at ==> NodeFine(cfgs, w, p);
    }
  }

  lemma OthersKeepDeliveries(w: World, at: string, n': State)
    requires DeliveriesOk(w) && at in w.nodes && w.nodes[at].receptions <= n'.receptions
    requires DeliveredWasAccepted(w, at, n')
    ensures DeliveriesOk(w.(nodes := w.nodes[at := n']))
  {
    var w' := w.(nodes := w.nodes[at := n']);
    forall p | p in w'.nodes ensures DeliveredWasAccepted(w', p, w'.nodes[p]) {
      DeliveredStays(w, at, n', p, w'.nodes[p]);
    }
  }

  lemma OthersKeepPosts(cfgs: Configs, w: World, at: string, n': State)
    requires PostsOk(cfgs, w) && at in w.nodes && Grows(w.nodes[at], n')
    ensures PostsOk(cfgs, w.(nodes := w.nodes[at := n']))
  {
    var w' := w.(nodes := w.nodes[at := n']);
    forall post | post in w'.posts ensures Genuine(cfgs, w', post) {
      GenuineStays(cfgs, w, at, n', post);
    }
  }

  /** Replacing one node by a later state of it keeps the world, if the node itself is in order. */
  lemma NodeStepKeepsWorld(cfgs: Configs, w: World, at: string, n': State)
    requires WorldOk(cfgs, w) && at in w.nodes
    requires NodeOk(cfgs[at], n') && Grows(w.nodes[at], n')
    requires AcceptedWasPosted(w.posts, at, n')
    requires DeliveredWasAccepted(w, at, n')
    ensures WorldOk(cfgs, w.(nodes := w.nodes[at := n']))
  {
    var w' := w.(nodes := w.nodes[at := n']);
    assert NodesOk(cfgs, w') by {
      OthersKeepNodes(cfgs, w, at, n');
    }
    assert DeliveriesOk(w') by {
      OthersKeepDeliveries(w, at, n');
    }
    assert PostsOk(cfgs, w') by {
      OthersKeepPosts(cfgs, w, at, n');
    }
  }

  lemma PostKeepsWorld(cfgs: Configs, w: World, post: Post)
    requires WorldOk(cfgs, w) && Genuine(cfgs, w, post)
    ensures WorldOk(cfgs, w.(posts := w.posts + [post]))
  {
    hide NodeOk, AcceptedFrom, BuiltFrom, IsBusiness;
    var w' := w.(posts := w.posts + [post]);
    assert NodesOk(cfgs, w') by {
      forall p | p in w'.nodes ensures NodeFine(cfgs, w', p) {
        assert NodeFine(cfgs, w, p);
      }
    }
    assert DeliveriesOk(w') by {
      forall p | p in w'.nodes ensures DeliveredWasAccepted(w', p, w'.nodes[p]) {
        assert DeliveredWasAccepted(w, p, w.nodes[p]);
      }
    }
    assert PostsOk(cfgs, w') by {
      forall q | q in w'.posts ensures Genuine(cfgs, w', q) {
        assert Genuine(cfgs, w, q);
      }
    }
  }

  lemma ReceptionsGrow(c: Config, n: State, a: Action)
    requires Step(c, n, a).Some?
    ensures n.receptions <= Step(c, n, a).value.receptions
  {
    hide Receive, Reconcile, Enqueue, DeliveryResult, SetStatus, SetRetry;
  }

  lemma StepGrows(c: Config, n: State, a: Action)
    requires NodeOk(c, n) && Step(c, n, a).Some?
    ensures NodeOk(c, Step(c, n, a).value) && Grows(n, Step(c, n, a).value)
  {
    hide RowsOk, WorkerOk, ReceptionsOk, Evolved;
    ReceptionsGrow(c, n, a);
    hide Step;
    StepKeepsStore(c, n, a);
    StepKeepsReceptions(c, n, a);
  }
}

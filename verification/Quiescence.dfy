/** The traffic between honest nodes dies out: an enqueued document costs at most its own attempts and
    those of the one J-MDN it can cause. */
module Quiescence {
  import opened Basics
  import opened Messages
  import opened Delivery
  import opened Handlers
  import opened Node
  import opened Attempts
  import opened Admission
  import opened Network
  import opened Agreement
  import opened Credit

  /** The attempts a J-MDN for this row would have, as long as its destination may still accept it. */
  function PotentialOf(cfgs: Configs, w: World, r: Row): int {
    if IsBusiness(r) && r.payload.req.destination in cfgs && r.payload.req.destination in w.nodes
       && !Has(w.nodes[r.payload.req.destination].rows, r.id)
    then Limit(cfgs[r.payload.req.destination])
    else 0
  }

  function Potentials(cfgs: Configs, w: World, t: seq<Row>): seq<int> {
    seq(|t|, k requires 0 <= k < |t| => PotentialOf(cfgs, w, t[k]))
  }

  /** One node's share: attempts made, attempts left, and J-MDN attempts its documents may still cause. */
  function Share(cfgs: Configs, w: World, p: string): int
    requires p in cfgs && p in w.nodes
  {
    Balance(cfgs[p], w.nodes[p]) + Sum(Potentials(cfgs, w, w.nodes[p].rows))
  }

  /** Lists every node once. */
  ghost predicate Roster(cfgs: Configs, ids: seq<string>) {
    (forall k :: 0 <= k < |ids| ==> ids[k] in cfgs)
    && (forall p :: p in cfgs ==> p in ids)
    && (forall k, l :: 0 <= k < l < |ids| ==> ids[k] != ids[l])
  }

  ghost function Shares(cfgs: Configs, ids: seq<string>, w: World): seq<int>
    requires Roster(cfgs, ids) && w.nodes.Keys == cfgs.Keys
  {
    seq(|ids|, k requires 0 <= k < |ids| => Share(cfgs, w, ids[k]))
  }

  ghost function Total(cfgs: Configs, ids: seq<string>, w: World): int
    requires Roster(cfgs, ids) && w.nodes.Keys == cfgs.Keys
  {
    Sum(Shares(cfgs, ids, w))
  }

  ghost function AttemptCounts(cfgs: Configs, ids: seq<string>, w: World): seq<int>
    requires Roster(cfgs, ids) && w.nodes.Keys == cfgs.Keys
  {
    seq(|ids|, k requires 0 <= k < |ids| => |w.nodes[ids[k]].attempts|)
  }

  /** The attempts made so far, over all nodes. */
  ghost function TotalAttempts(cfgs: Configs, ids: seq<string>, w: World): int
    requires Roster(cfgs, ids) && w.nodes.Keys == cfgs.Keys
  {
    Sum(AttemptCounts(cfgs, ids, w))
  }

  lemma PotentialNonNegative(cfgs: Configs, w: World, t: seq<Row>)
    ensures Sum(Potentials(cfgs, w, t)) >= 0
  {
    SumNonNegative(Potentials(cfgs, w, t));
  }

  /** A node that only adds rows lowers the potential of every other row. */
  lemma PotentialFalls(cfgs: Configs, w: World, p: string, n': State, r: Row, r': Row)
    requires p in w.nodes && Evolved(w.nodes[p].rows, n'.rows) && SameMessage(r, r')
    ensures PotentialOf(cfgs, w.(nodes := w.nodes[p := n']), r') <= PotentialOf(cfgs, w, r)
  {
    if IsBusiness(r) && r.payload.req.destination == p && Has(w.nodes[p].rows, r.id) {
      HasEvolves(w.nodes[p].rows, n'.rows, r.id);
    }
  }

  lemma PotentialsFall(cfgs: Configs, w: World, p: string, n': State, t: seq<Row>)
    requires p in w.nodes && Evolved(w.nodes[p].rows, n'.rows)
    ensures Sum(Potentials(cfgs, w.(nodes := w.nodes[p := n']), t)) <= Sum(Potentials(cfgs, w, t))
  {
    var w' := w.(nodes := w.nodes[p := n']);
    forall k | 0 <= k < |t| ensures PotentialOf(cfgs, w', t[k]) <= PotentialOf(cfgs, w, t[k]) {
      PotentialFalls(cfgs, w, p, n', t[k], t[k]);
    }
    SumMonotone(Potentials(cfgs, w', t), Potentials(cfgs, w, t));
  }

  lemma SumOfTail(s: seq<int>, extra: nat)
    requires |s| <= 2 && (|s| == 1 ==> s[0] <= extra) && (|s| == 2 ==> s[0] <= 0 && s[1] <= 0)
    ensures Sum(s) <= extra
  {
    if |s| == 1 {
      assert s[1..] == [];
    } else if |s| == 2 {
      assert s[1..] == [s[1]] && s[1..][1..] == [];
      assert Sum(s) == s[0] + Sum(s[1..]) && Sum(s[1..]) == s[1];
    } else {
      assert s == [];
    }
  }

  /** The potential of the stepping node itself: only a new document adds to it. */
  lemma OwnPotentialFalls(cfgs: Configs, w: World, p: string, n': State, extra: nat)
    requires p in w.nodes && Evolved(w.nodes[p].rows, n'.rows)
    requires |n'.rows| <= |w.nodes[p].rows| + 2
    requires forall k :: |w.nodes[p].rows| <= k < |n'.rows| ==> IsBusiness(n'.rows[k]) ==>
               && |n'.rows| == |w.nodes[p].rows| + 1
               && PotentialOf(cfgs, w.(nodes := w.nodes[p := n']), n'.rows[k]) <= extra
    ensures Sum(Potentials(cfgs, w.(nodes := w.nodes[p := n']), n'.rows))
         <= Sum(Potentials(cfgs, w, w.nodes[p].rows)) + extra
  {
    var w', t := w.(nodes := w.nodes[p := n']), w.nodes[p].rows;
    var s, s' := Potentials(cfgs, w, t), Potentials(cfgs, w', n'.rows);
    forall k | 0 <= k < |t| ensures s'[k] <= s[k] {
      PotentialFalls(cfgs, w, p, n', t[k], n'.rows[k]);
    }
    assert s' == s'[..|t|] + s'[|t|..];
    SumAppend(s'[..|t|], s'[|t|..]);
    SumMonotone(s'[..|t|], s);
    SumOfTail(s'[|t|..], extra);
  }

  lemma OtherShareFalls(cfgs: Configs, w: World, p: string, n': State, q: string)
    requires w.nodes.Keys == cfgs.Keys && p in cfgs && q in cfgs && q != p && Evolved(w.nodes[p].rows, n'.rows)
    ensures Share(cfgs, w.(nodes := w.nodes[p := n']), q) <= Share(cfgs, w, q)
  {
    hide Balance, Potentials;
    PotentialsFall(cfgs, w, p, n', w.nodes[q].rows);
  }

  /** One node's step and the total: the others' shares fall, one of them perhaps by d. */
  lemma TotalAfterStep(cfgs: Configs, ids: seq<string>, w: World, p: string, n': State, rise: int, q: string, d: int)
    requires Roster(cfgs, ids) && w.nodes.Keys == cfgs.Keys && p in cfgs && Evolved(w.nodes[p].rows, n'.rows)
    requires var w' := w.(nodes := w.nodes[p := n']);
             && Share(cfgs, w', p) <= Share(cfgs, w, p) + rise
             && (d != 0 ==> q in cfgs && q != p && Share(cfgs, w', q) + d <= Share(cfgs, w, q))
    ensures Total(cfgs, ids, w.(nodes := w.nodes[p := n'])) + d <= Total(cfgs, ids, w) + rise
  {
    hide Share, Evolved, Sum;
    var w' := w.(nodes := w.nodes[p := n']);
    var s, s' := Shares(cfgs, ids, w), Shares(cfgs, ids, w');
    var at :| 0 <= at < |ids| && ids[at] == p;
    var raised := s[at := s[at] + rise];
    forall k | 0 <= k < |ids| ensures s'[k] <= raised[k] {
      if k != at {
        OtherShareFalls(cfgs, w, p, n', ids[k]);
      }
    }
    SumReplace(s, at, s[at] + rise);
    if d == 0 {
      SumMonotone(s', raised);
    } else {
      var l :| 0 <= l < |ids| && ids[l] == q;
      SumDrop(s', raised, l, d);
    }
  }

  /** Acceptance turns the potential of the sender's row into the credit of the job. */
  lemma AcceptanceMovesPotential(cfgs: Configs, w: World, e: FidexEnvelope, n': State)
    requires w.nodes.Keys == cfgs.Keys && e.routing.receiver in cfgs && e.routing.sender in cfgs
    requires !Has(w.nodes[e.routing.receiver].rows, e.routing.messageId) && Has(n'.rows, e.routing.messageId)
    requires Evolved(w.nodes[e.routing.receiver].rows, n'.rows)
    requires exists k :: 0 <= k < |w.nodes[e.routing.sender].rows|
               && BuiltFrom(cfgs, e, w.nodes[e.routing.sender].rows[k])
    ensures e.routing.sender != e.routing.receiver
    ensures var w' := w.(nodes := w.nodes[e.routing.receiver := n']);
            Share(cfgs, w', e.routing.sender) + Limit(cfgs[e.routing.receiver])
            <= Share(cfgs, w, e.routing.sender)
  {
    var p, q := e.routing.receiver, e.routing.sender;
    var w', t := w.(nodes := w.nodes[p := n']), w.nodes[q].rows;
    var k :| 0 <= k < |t| && BuiltFrom(cfgs, e, t[k]);
    forall l | 0 <= l < |t| ensures PotentialOf(cfgs, w', t[l]) <= PotentialOf(cfgs, w, t[l]) {
      PotentialFalls(cfgs, w, p, n', t[l], t[l]);
    }
    SumDrop(Potentials(cfgs, w', t), Potentials(cfgs, w, t), k, Limit(cfgs[p]));
  }

  /** What a step other than enqueueing adds to the table is no document. */
  lemma NoNewDocuments(c: Config, n: State, a: Action)
    requires Step(c, n, a).Some? && !a.Transmit?
    ensures var n' := Step(c, n, a).value;
            |n.rows| <= |n'.rows| <= |n.rows| + 2 && forall k :: |n.rows| <= k < |n'.rows| ==> !IsBusiness(n'.rows[k])
  {
    hide Receive, Reconcile, Newborn, DeliveryResult;
    match a {
      case ReceiveEnvelope(partners, body, jobId) => ReceiveShape(c, partners, n.rows, body, jobId, n.clock);
      case ReceiveReceipt(partners, receipt) => ReconcileShape(c, partners, n.rows, receipt, n.clock);
      case _ =>
    }
  }

  /** Every step of a node but acceptance and enqueueing leaves the total where it was, or lower. */
  lemma PlainStepTotal(cfgs: Configs, ids: seq<string>, w: World, p: string, a: Action)
    requires Roster(cfgs, ids) && NodesOk(cfgs, w) && p in cfgs && Step(cfgs[p], w.nodes[p], a).Some?
    requires !a.Transmit? && Balance(cfgs[p], Step(cfgs[p], w.nodes[p], a).value) <= Balance(cfgs[p], w.nodes[p])
    ensures Total(cfgs, ids, w.(nodes := w.nodes[p := Step(cfgs[p], w.nodes[p], a).value])) <= Total(cfgs, ids, w)
  {
    assert NodeFine(cfgs, w, p);
    StepGrows(cfgs[p], w.nodes[p], a);
    NoNewDocuments(cfgs[p], w.nodes[p], a);
    hide NodeOk, Step, Balance, Total;
    var n' := Step(cfgs[p], w.nodes[p], a).value;
    OwnPotentialFalls(cfgs, w, p, n', 0);
    TotalAfterStep(cfgs, ids, w, p, n', 0, p, 0);
  }

  lemma NodeFacts(cfgs: Configs, w: World, p: string)
    requires NodesOk(cfgs, w) && p in cfgs
    ensures RowsOk(cfgs[p], w.nodes[p].rows) && WorkerOk(cfgs[p], w.nodes[p].rows, w.nodes[p].worker)
  {
    assert NodeFine(cfgs, w, p);
  }

  lemma ReceiptArrivalTotal(cfgs: Configs, ids: seq<string>, w: World, post: Post, partners: Partners, jobId: string)
    requires Roster(cfgs, ids) && NodesOk(cfgs, w) && post.url.Url? && post.url.route == ReceiptRoute
    requires Arrive(cfgs, w, post, partners, jobId).Some?
    ensures Total(cfgs, ids, Arrive(cfgs, w, post, partners, jobId).value) <= Total(cfgs, ids, w)
  {
    assert w.nodes.Keys == cfgs.Keys;
    hide Arrive, NodesOk, RowsOk, WorkerOk, Balance, Total, Step, AsReceipt, Roster;
    ArriveUnfolds(cfgs, w, post, partners, jobId);
    var p := post.url.host;
    NodeFacts(cfgs, w, p);
    StepBalance(cfgs[p], w.nodes[p], Arrival(post, partners, jobId));
    PlainStepTotal(cfgs, ids, w, p, Arrival(post, partners, jobId));
  }

  /** What an accepted request must have been, and what it leaves. */
  lemma AcceptedEffect(c: Config, n: State, partners: Partners, b: WireBody, jobId: string)
    requires RowsOk(c, n.rows) && WorkerOk(c, n.rows, n.worker)
    requires Step(c, n, ReceiveEnvelope(partners, AsInbound(b), jobId)).Some?
    requires Receive(c, partners, n.rows, AsInbound(b), jobId, n.clock).1.code == ACCEPTED
    ensures var n' := Step(c, n, ReceiveEnvelope(partners, AsInbound(b), jobId)).value;
            b.EnvelopeBody? && !Has(n.rows, b.env.routing.messageId) && Has(n'.rows, b.env.routing.messageId)
            && Evolved(n.rows, n'.rows)
  {
    ReceiveExactly(c, partners, n.rows, AsInbound(b), jobId, n.clock);
    StepKeepsStore(c, n, ReceiveEnvelope(partners, AsInbound(b), jobId));
    AcceptedRows(c, partners, n.rows, b.env, jobId, n.clock);
    var t := Receive(c, partners, n.rows, AsInbound(b), jobId, n.clock).0;
    assert t[|n.rows|].id == b.env.routing.messageId;
  }

  lemma AcceptedArrivalTotal(cfgs: Configs, ids: seq<string>, w: World, post: Post, partners: Partners, jobId: string)
    requires Roster(cfgs, ids) && NodesOk(cfgs, w) && Genuine(cfgs, w, post) && post.url.route == InboundRoute
    requires var p := post.url.host;
             Step(cfgs[p], w.nodes[p], ReceiveEnvelope(partners, AsInbound(post.body), jobId)).Some?
             && Receive(cfgs[p], partners, w.nodes[p].rows, AsInbound(post.body), jobId, w.nodes[p].clock).1.code
                == ACCEPTED
    ensures var p := post.url.host;
            var n' := Step(cfgs[p], w.nodes[p], ReceiveEnvelope(partners, AsInbound(post.body), jobId)).value;
            Total(cfgs, ids, w.(nodes := w.nodes[p := n'])) <= Total(cfgs, ids, w)
  {
    hide WorldOk;
    var p, body := post.url.host, AsInbound(post.body);
    var c, n, a := cfgs[p], w.nodes[p], ReceiveEnvelope(partners, AsInbound(post.body), jobId);
    var n' := Step(c, n, a).value;
    NodeFacts(cfgs, w, p);
    AcceptedEffect(c, n, partners, post.body, jobId);
    assert Genuine(cfgs, w, post);
    var e := post.body.env;
    hide RowsOk, WorkerOk, ReceptionsOk, NodesOk, Step, Balance, Receive, Total;
    StepBalance(c, n, a);
    NoNewDocuments(c, n, a);
    AcceptanceMovesPotential(cfgs, w, e, n');
    OwnPotentialFalls(cfgs, w, p, n', 0);
    TotalAfterStep(cfgs, ids, w, p, n', Limit(c), e.routing.sender, Limit(c));
  }

  lemma EnvelopeArrivalTotal(cfgs: Configs, ids: seq<string>, w: World, post: Post, partners: Partners, jobId: string)
    requires Roster(cfgs, ids) && NodesOk(cfgs, w) && Genuine(cfgs, w, post)
    requires post.url.Url? && post.url.route == InboundRoute
    requires Arrive(cfgs, w, post, partners, jobId).Some?
    ensures Total(cfgs, ids, Arrive(cfgs, w, post, partners, jobId).value) <= Total(cfgs, ids, w)
  {
    assert w.nodes.Keys == cfgs.Keys;
    hide Arrive, NodesOk, RowsOk, WorkerOk, Balance, Total, Step, AsInbound, Roster, Genuine, Receive;
    ArriveUnfolds(cfgs, w, post, partners, jobId);
    var p := post.url.host;
    var c, n := cfgs[p], w.nodes[p];
    if Receive(c, partners, n.rows, AsInbound(post.body), jobId, n.clock).1.code == ACCEPTED {
      AcceptedArrivalTotal(cfgs, ids, w, post, partners, jobId);
    } else {
      NodeFacts(cfgs, w, p);
      StepBalance(c, n, Arrival(post, partners, jobId));
      PlainStepTotal(cfgs, ids, w, p, Arrival(post, partners, jobId));
    }
  }

  lemma ArrivalTotal(cfgs: Configs, ids: seq<string>, w: World, post: Post, partners: Partners, jobId: string)
    requires Roster(cfgs, ids) && NodesOk(cfgs, w) && Genuine(cfgs, w, post)
    requires Arrive(cfgs, w, post, partners, jobId).Some?
    ensures Total(cfgs, ids, Arrive(cfgs, w, post, partners, jobId).value) <= Total(cfgs, ids, w)
  {
    assert w.nodes.Keys == cfgs.Keys && post.url.Url?;
    hide *;
    match post.url.route {
      case InboundRoute => EnvelopeArrivalTotal(cfgs, ids, w, post, partners, jobId);
      case ReceiptRoute => ReceiptArrivalTotal(cfgs, ids, w, post, partners, jobId);
    }
  }

  /** No node allows more attempts than this. */
  ghost predicate LimitedBy(cfgs: Configs, bound: nat) {
    forall p :: p in cfgs ==> Limit(cfgs[p]) <= bound
  }

  lemma OneNewDocument(c: Config, n: State, a: Action)
    requires a.Transmit? && Step(c, n, a).Some?
    ensures |Step(c, n, a).value.rows| <= |n.rows| + 1
  {
    hide Enqueue;
    EnqueueShape(n.rows, a.req, a.id, n.clock);
  }

  lemma TransmitTotal(cfgs: Configs, ids: seq<string>, w: World, p: string, a: Action, bound: nat)
    requires Roster(cfgs, ids) && NodesOk(cfgs, w) && p in cfgs && LimitedBy(cfgs, bound)
    requires a.Transmit? && Step(cfgs[p], w.nodes[p], a).Some?
    ensures Total(cfgs, ids, w.(nodes := w.nodes[p := Step(cfgs[p], w.nodes[p], a).value]))
         <= Total(cfgs, ids, w) + 2 * bound
  {
    hide Enqueue, Total, Balance, Sum, Evolved;
    var c, n := cfgs[p], w.nodes[p];
    var n' := Step(c, n, a).value;
    assert NodeFine(cfgs, w, p);
    StepGrows(c, n, a);
    StepBalance(c, n, a);
    OneNewDocument(c, n, a);
    hide NodeOk, Step, Balance, Total;
    OwnPotentialFalls(cfgs, w, p, n', bound);
    TotalAfterStep(cfgs, ids, w, p, n', 2 * bound, p, 0);
  }

  /** What one step may add to the total. */
  function Budget(a: WorldAction, bound: nat): nat {
    if a.Local? && a.action.Transmit? then 2 * bound else 0
  }

  function BudgetOf(actions: seq<WorldAction>, bound: nat): nat {
    if actions == [] then 0 else Budget(actions[0], bound) + BudgetOf(actions[1..], bound)
  }

  lemma DeliverTotal(
    cfgs: Configs, ids: seq<string>, w: World, p: string, partners: Partners, stamp: string, reply: HttpReply)
    requires Roster(cfgs, ids) && NodesOk(cfgs, w) && p in cfgs
    requires Step(cfgs[p], w.nodes[p], Deliver(partners, stamp, reply)).Some?
    ensures var n' := Step(cfgs[p], w.nodes[p], Deliver(partners, stamp, reply)).value;
            Total(cfgs, ids, w.(nodes := w.nodes[p := n'])) <= Total(cfgs, ids, w)
  {
    assert NodeFine(cfgs, w, p);
    assert NodeOk(cfgs[p], w.nodes[p]);
    hide Step, Balance, RowsOk, WorkerOk, ReceptionsOk;
    StepBalance(cfgs[p], w.nodes[p], Deliver(partners, stamp, reply));
    PlainStepTotal(cfgs, ids, w, p, Deliver(partners, stamp, reply));
  }

  lemma PostsDoNotCount(cfgs: Configs, ids: seq<string>, w: World, posts: seq<Post>)
    requires Roster(cfgs, ids) && w.nodes.Keys == cfgs.Keys
    ensures Total(cfgs, ids, w.(posts := posts)) == Total(cfgs, ids, w)
  {
    var w' := w.(posts := posts);
    forall k | 0 <= k < |ids| ensures Share(cfgs, w', ids[k]) == Share(cfgs, w, ids[k]) {
      assert Potentials(cfgs, w', w.nodes[ids[k]].rows) == Potentials(cfgs, w, w.nodes[ids[k]].rows);
    }
    assert Shares(cfgs, ids, w') == Shares(cfgs, ids, w);
  }

  lemma WorldOkNodes(cfgs: Configs, w: World)
    requires WorldOk(cfgs, w)
    ensures NodesOk(cfgs, w)
  {
  }

  lemma AnsweredCallTotal(
    cfgs: Configs, ids: seq<string>, w: World, p: string, post: Post, a: WorldAction, reply: HttpReply)
    requires w.nodes.Keys == cfgs.Keys && Roster(cfgs, ids)
    requires WorldOk(cfgs, w) && a.Call? && p in cfgs && post in w.posts
    requires Arrive(cfgs, w, post, a.peerPartners, a.jobId).Some?
    requires var w2 := Arrive(cfgs, w, post, a.peerPartners, a.jobId).value;
             w2.nodes.Keys == cfgs.Keys && Step(cfgs[p], w2.nodes[p], Deliver(a.partners, a.stamp, reply)).Some?
    ensures var w2 := Arrive(cfgs, w, post, a.peerPartners, a.jobId).value;
            var n' := Step(cfgs[p], w2.nodes[p], Deliver(a.partners, a.stamp, reply)).value;
            Total(cfgs, ids, w2.(nodes := w2.nodes[p := n'])) <= Total(cfgs, ids, w)
  {
    assert NodesOk(cfgs, w) && Genuine(cfgs, w, post);
    hide WorldOk, NodesOk, Genuine, Total, Step, Arrive;
    ArriveKeepsWorld(cfgs, w, post, a.peerPartners, a.jobId);
    ArrivalTotal(cfgs, ids, w, post, a.peerPartners, a.jobId);
    var w2 := Arrive(cfgs, w, post, a.peerPartners, a.jobId).value;
    WorldOkNodes(cfgs, w2);
    DeliverTotal(cfgs, ids, w2, p, a.partners, a.stamp, reply);
  }

  lemma PostingKeepsWorld(cfgs: Configs, w: World, p: string, partners: Partners, stamp: string)
    requires WellFormed(cfgs) && WorldOk(cfgs, w) && Honest(cfgs, partners) && p in cfgs && CanTake(w.nodes[p])
    requires Plan(cfgs[p], partners, w.nodes[p].worker.todo[0], stamp).Ok?
    ensures var post := Plan(cfgs[p], partners, w.nodes[p].worker.todo[0], stamp).value;
            post.url.Url? && post.url.host in cfgs && WorldOk(cfgs, w.(posts := w.posts + [post]))
  {
    hide NodeOk, WellFormed, Honest, Plan;
    PlanIsGenuine(cfgs, w, p, partners, stamp);
    PostKeepsWorld(cfgs, w, Plan(cfgs[p], partners, w.nodes[p].worker.todo[0], stamp).value);
  }

  lemma HandledTotal(cfgs: Configs, ids: seq<string>, w: World, a: WorldAction, post: Post)
    requires w.nodes.Keys == cfgs.Keys && Roster(cfgs, ids) && WorldOk(cfgs, w)
    requires a.Call? && a.caller in cfgs && post in w.posts
    requires post.url.Url? && post.url.host in cfgs && Arrive(cfgs, w, post, a.peerPartners, a.jobId).Some?
    ensures var w2 := Arrive(cfgs, w, post, a.peerPartners, a.jobId).value;
            var reply :=
              if a.outcome == ResponseLost then NoReply
              else Reply(AnswerCode(cfgs[post.url.host], w.nodes[post.url.host], post, a.peerPartners, a.jobId));
            var n' := Step(cfgs[a.caller], w2.nodes[a.caller], Deliver(a.partners, a.stamp, reply));
            var r := Update(w2, a.caller, n');
            r.Some? ==> r.value.nodes.Keys == cfgs.Keys && Total(cfgs, ids, r.value) <= Total(cfgs, ids, w)
  {
    hide WorldOk, Total, Step, AnswerCode, Roster;
    ArriveKeepsWorker(cfgs, w, post, a.peerPartners, a.jobId, a.caller);
    hide Arrive;
    var w2 := Arrive(cfgs, w, post, a.peerPartners, a.jobId).value;
    var reply :=
      if a.outcome == ResponseLost then NoReply
      else Reply(AnswerCode(cfgs[post.url.host], w.nodes[post.url.host], post, a.peerPartners, a.jobId));
    if Step(cfgs[a.caller], w2.nodes[a.caller], Deliver(a.partners, a.stamp, reply)).Some? {
      AnsweredCallTotal(cfgs, ids, w, a.caller, post, a, reply);
    }
  }

  lemma PostedTotal(cfgs: Configs, ids: seq<string>, w: World, a: WorldAction)
    requires w.nodes.Keys == cfgs.Keys && Roster(cfgs, ids) && WorldOk(cfgs, w)
    requires WellFormed(cfgs) && a.Call? && a.caller in cfgs && CanTake(w.nodes[a.caller]) && Honest(cfgs, a.partners)
    requires Plan(cfgs[a.caller], a.partners, w.nodes[a.caller].worker.todo[0], a.stamp).Ok?
    requires CallStep(cfgs, w, a).Some?
    ensures Total(cfgs, ids, CallStep(cfgs, w, a).value) <= Total(cfgs, ids, w)
  {
    hide WorldOk, Total, Step, Plan, Honest, WellFormed, Roster, Arrive, AnswerCode;
    var p := a.caller;
    var post := Plan(cfgs[p], a.partners, w.nodes[p].worker.todo[0], a.stamp).value;
    var w1 := w.(posts := w.posts + [post]);
    PostingKeepsWorld(cfgs, w, p, a.partners, a.stamp);
    PostsDoNotCount(cfgs, ids, w, w1.posts);
    if a.outcome == RequestLost {
      WorldOkNodes(cfgs, w1);
      DeliverTotal(cfgs, ids, w1, p, a.partners, a.stamp, NoReply);
    } else {
      HandledTotal(cfgs, ids, w1, a, post);
    }
  }

  lemma CallTotal(cfgs: Configs, ids: seq<string>, w: World, a: WorldAction)
    requires w.nodes.Keys == cfgs.Keys && Roster(cfgs, ids) && WorldOk(cfgs, w)
    requires WellFormed(cfgs) && a.Call? && WorldStep(cfgs, w, a).Some?
    ensures Total(cfgs, ids, WorldStep(cfgs, w, a).value) <= Total(cfgs, ids, w)
  {
    hide WorldOk, Total, Step, Plan, Honest, Arrive;
    var p := a.caller;
    if Plan(cfgs[p], a.partners, w.nodes[p].worker.todo[0], a.stamp).Err? {
      WorldOkNodes(cfgs, w);
      DeliverTotal(cfgs, ids, w, p, a.partners, a.stamp, NoReply);
    } else {
      PostedTotal(cfgs, ids, w, a);
    }
  }

  lemma RedeliverTotal(cfgs: Configs, ids: seq<string>, w: World, a: WorldAction)
    requires w.nodes.Keys == cfgs.Keys && Roster(cfgs, ids) && WorldOk(cfgs, w)
    requires a.Redeliver? && WorldStep(cfgs, w, a).Some?
    ensures Total(cfgs, ids, WorldStep(cfgs, w, a).value) <= Total(cfgs, ids, w)
  {
    assert w.posts[a.k] in w.posts;
    assert Genuine(cfgs, w, w.posts[a.k]) && NodesOk(cfgs, w);
    hide Total, WorldOk, NodesOk, Genuine;
    ArrivalTotal(cfgs, ids, w, w.posts[a.k], a.partnersThen, a.newId);
  }

  lemma LocalTotal(cfgs: Configs, ids: seq<string>, w: World, p: string, a: Action, bound: nat)
    requires Roster(cfgs, ids) && NodesOk(cfgs, w) && p in cfgs && LimitedBy(cfgs, bound)
    requires IsLocal(a) && Step(cfgs[p], w.nodes[p], a).Some?
    ensures Total(cfgs, ids, w.(nodes := w.nodes[p := Step(cfgs[p], w.nodes[p], a).value]))
         <= Total(cfgs, ids, w) + Budget(Local(p, a), bound)
  {
    if a.Transmit? {
      TransmitTotal(cfgs, ids, w, p, a, bound);
    } else {
      assert NodeFine(cfgs, w, p);
      assert NodeOk(cfgs[p], w.nodes[p]);
      hide Step, Balance, RowsOk, WorkerOk, ReceptionsOk;
      StepBalance(cfgs[p], w.nodes[p], a);
      PlainStepTotal(cfgs, ids, w, p, a);
    }
  }

  lemma LocalStepTotal(cfgs: Configs, ids: seq<string>, w: World, a: WorldAction, bound: nat)
    requires w.nodes.Keys == cfgs.Keys && Roster(cfgs, ids) && WorldOk(cfgs, w) && LimitedBy(cfgs, bound)
    requires a.Local? && WorldStep(cfgs, w, a).Some?
    ensures Total(cfgs, ids, WorldStep(cfgs, w, a).value) <= Total(cfgs, ids, w) + Budget(a, bound)
  {
    hide Total, Step, WorldOk;
    WorldOkNodes(cfgs, w);
    LocalTotal(cfgs, ids, w, a.at, a.action, bound);
  }

  /** Attempts made plus attempts that can still follow: nothing but enqueueing raises the sum. */
  lemma StepTotal(cfgs: Configs, ids: seq<string>, w: World, a: WorldAction, bound: nat)
    requires w.nodes.Keys == cfgs.Keys
    requires WellFormed(cfgs) && WorldOk(cfgs, w) && Roster(cfgs, ids) && LimitedBy(cfgs, bound)
    requires WorldStep(cfgs, w, a).Some?
    ensures Total(cfgs, ids, WorldStep(cfgs, w, a).value) <= Total(cfgs, ids, w) + Budget(a, bound)
  {
    hide Total, WorldStep, WorldOk, Roster;
    match a {
      case Local(_, _) => LocalStepTotal(cfgs, ids, w, a, bound);
      case Call(_, _, _, _, _, _) => CallTotal(cfgs, ids, w, a);
      case Redeliver(_, _, _) => RedeliverTotal(cfgs, ids, w, a);
    }
  }

  lemma {:induction false} RunTotal(cfgs: Configs, ids: seq<string>, w: World, actions: seq<WorldAction>, bound: nat)
    requires w.nodes.Keys == cfgs.Keys
    requires WellFormed(cfgs) && WorldOk(cfgs, w) && Roster(cfgs, ids) && LimitedBy(cfgs, bound)
    requires WorldRun(cfgs, w, actions).Some?
    ensures WorldOk(cfgs, WorldRun(cfgs, w, actions).value)
    ensures Total(cfgs, ids, WorldRun(cfgs, w, actions).value) <= Total(cfgs, ids, w) + BudgetOf(actions, bound)
    decreases |actions|
  {
    hide WorldOk, Total, WorldStep;
    if actions == [] {
    } else {
      StepTotal(cfgs, ids, w, actions[0], bound);
      WorldStepKeepsWorld(cfgs, w, actions[0]);
      RunTotal(cfgs, ids, WorldStep(cfgs, w, actions[0]).value, actions[1..], bound);
    }
  }

  lemma AttemptsWithinTotal(cfgs: Configs, ids: seq<string>, w: World)
    requires Roster(cfgs, ids) && NodesOk(cfgs, w)
    ensures TotalAttempts(cfgs, ids, w) <= Total(cfgs, ids, w)
  {
    forall k | 0 <= k < |ids| ensures |w.nodes[ids[k]].attempts| <= Share(cfgs, w, ids[k]) {
      assert NodeFine(cfgs, w, ids[k]);
      AttemptsWithinBalance(cfgs[ids[k]], w.nodes[ids[k]]);
      PotentialNonNegative(cfgs, w, w.nodes[ids[k]].rows);
    }
    SumMonotone(AttemptCounts(cfgs, ids, w), Shares(cfgs, ids, w));
  }

  function Enqueued(actions: seq<WorldAction>): nat {
    if actions == [] then 0
    else (if actions[0].Local? && actions[0].action.Transmit? then 1 else 0) + Enqueued(actions[1..])
  }

  lemma {:induction false} BudgetCounts(actions: seq<WorldAction>, bound: nat)
    ensures BudgetOf(actions, bound) == 2 * bound * Enqueued(actions)
  {
    if actions == [] {
    } else {
      BudgetCounts(actions[1..], bound);
      if actions[0].Local? && actions[0].action.Transmit? {
        assert 2 * bound * Enqueued(actions) == 2 * bound + 2 * bound * Enqueued(actions[1..]);
      }
    }
  }

  /** A run that enqueues n documents leads from one world to the other. */
  ghost predicate Leads(cfgs: Configs, w: World, w': World, n: nat) {
    w.nodes.Keys == cfgs.Keys && w'.nodes.Keys == cfgs.Keys
    && exists actions :: WorldRun(cfgs, w, actions) == Some(w') && Enqueued(actions) == n
  }

  /** Quiescence. However the network loses, delays and repeats requests, from any reachable world on the
      nodes together make at most Total attempts, those of the past included, when nothing is enqueued,
      and each document enqueued adds at most twice the largest attempt limit: its own attempts and those
      of its J-MDN. */
  lemma AttemptsAreBounded(cfgs: Configs, ids: seq<string>, w: World, w': World, n: nat, bound: nat)
    requires WellFormed(cfgs) && Roster(cfgs, ids) && LimitedBy(cfgs, bound)
    requires Reachable(cfgs, w) && Leads(cfgs, w, w', n)
    ensures TotalAttempts(cfgs, ids, w') <= Total(cfgs, ids, w) + 2 * bound * n
  {
    hide Total, WorldOk, WorldRun, TotalAttempts;
    ReachableIsOk(cfgs, w);
    var after :| WorldRun(cfgs, w, after) == Some(w') && Enqueued(after) == n;
    RunTotal(cfgs, ids, w, after, bound);
    BudgetCounts(after, bound);
    WorldOkNodes(cfgs, w');
    AttemptsWithinTotal(cfgs, ids, w');
  }

  lemma {:induction false} ZeroSum(s: seq<int>)
    requires forall k :: 0 <= k < |s| ==> s[k] == 0
    ensures Sum(s) == 0
  {
    if s == [] {
    } else {
      ZeroSum(s[1..]);
    }
  }

  lemma InitialTotal(cfgs: Configs, ids: seq<string>)
    requires Roster(cfgs, ids)
    ensures Total(cfgs, ids, InitialWorld(cfgs)) == 0
  {
    var s := Shares(cfgs, ids, InitialWorld(cfgs));
    forall k | 0 <= k < |ids| ensures s[k] == 0 {
    }
    ZeroSum(s);
  }

  /** From the start: at most 2 * MaxRetries attempts in the whole network per document enqueued in it. */
  lemma AttemptsPerDocument(cfgs: Configs, ids: seq<string>, w: World, n: nat, bound: nat)
    requires WellFormed(cfgs) && Roster(cfgs, ids) && LimitedBy(cfgs, bound)
    requires Leads(cfgs, InitialWorld(cfgs), w, n)
    ensures TotalAttempts(cfgs, ids, w) <= 2 * bound * n
  {
    hide Total, WorldOk, WorldRun, TotalAttempts;
    InitialWorldOk(cfgs);
    InitialTotal(cfgs, ids);
    var actions :| WorldRun(cfgs, InitialWorld(cfgs), actions) == Some(w) && Enqueued(actions) == n;
    RunTotal(cfgs, ids, InitialWorld(cfgs), actions, bound);
    BudgetCounts(actions, bound);
    WorldOkNodes(cfgs, w);
    AttemptsWithinTotal(cfgs, ids, w);
  }
}

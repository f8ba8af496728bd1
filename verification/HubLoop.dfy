/** The hub and the pump as the loops that change the client map and the channels in place. */
module HubLoop {
  import opened Basics
  import opened Hub

  lemma JoinOfOne(batch: seq<string>)
    requires batch != []
    ensures Join(batch[..1]) == batch[0]
  {
    assert batch[..1] == [batch[0]];
  }

  /** The next message of a batch, and the frame with it. */
  lemma OneMore(batch: seq<string>, i: nat, w: string)
    requires 0 < i < |batch| && w == Join(batch[..i])
    ensures batch[i..] != [] && batch[i..][0] == batch[i] && batch[i..][1..] == batch[i + 1..]
    ensures w + "\n" + batch[i] == Join(batch[..i + 1])
  {
    assert batch[..i + 1][..i] == batch[..i];
  }

  class Connection {
    var ch: Channel
    var frames: seq<string>

    constructor ()
      ensures ch == Channel([], false) && frames == []
    {
      ch := Channel([], false);
      frames := [];
    }

    /** One turn of the write pump with a message at hand: the message and everything buffered behind it
        go into one frame, which counts as sent if closing it succeeds. */
    method WriteBatch(written: bool)
      requires ch.buf != [] && OneLiners(ch.buf)
      modifies this
      ensures ch == Channel([], old(ch.closed))
      ensures frames == if written then old(frames) + [Join(old(ch.buf))] else old(frames)
      ensures Split(Join(old(ch.buf))) == old(ch.buf)
    {
      ghost var before := ch.buf;
      JoinOfOne(before);
      hide *;
      var w := ch.buf[0];
      ch := ch.(buf := ch.buf[1..]);
      var n := |ch.buf|;
      var i := 0;
      while i < n
        invariant 0 <= i <= n && n == |before| - 1
        invariant ch.buf == before[i + 1..] && ch.closed == old(ch.closed)
        invariant w == Join(before[..i + 1])
        invariant frames == old(frames)
      {
        OneMore(before, i + 1, w);
        w := w + "\n";
        w := w + ch.buf[0];
        ch := ch.(buf := ch.buf[1..]);
        i := i + 1;
      }
      assert before[..n + 1] == before && before[n + 1..] == [];
      if written {
        frames := frames + [w];
      }
      SplitOfJoin(before);
    }
  }

  /** k messages taken by the batch loop, one step each. */
  function Collected(c: Client, id: nat, k: nat): Option<Client>
    decreases k
  {
    if k == 0 then Some(c)
    else
      match PumpStep(c, ReceiveMore(id))
      case None => None
      case Some(c') => Collected(c', id, k - 1)
  }

  lemma {:induction false} CollectedTakes(c: Client, id: nat, batch: seq<string>, k: nat)
    requires c.pump == Collecting(batch, k) && k <= |c.ch.buf|
    ensures Collected(c, id, k)
         == Some(c.(ch := c.ch.(buf := c.ch.buf[k..]), pump := Collecting(batch + c.ch.buf[..k], 0)))
    decreases k
  {
    if k > 0 {
      CollectedTakes(PumpStep(c, ReceiveMore(id)).value, id, batch + [c.ch.buf[0]], k - 1);
      assert c.ch.buf[1..][k - 1..] == c.ch.buf[k..];
      assert batch + [c.ch.buf[0]] + c.ch.buf[1..][..k - 1] == batch + c.ch.buf[..k];
    } else {
      assert c.ch.buf[0..] == c.ch.buf && batch + c.ch.buf[..0] == batch;
    }
  }

  /** The pump's steps of the hub protocol, with nothing in between, do what the loop does. */
  lemma UninterruptedPumpMatchesLoop(c: Client, id: nat, written: bool)
    requires c.pump == Waiting && c.ch.buf != []
    ensures var held := PumpStep(c, Hub.Receive(id, true)).value;
            var measured := PumpStep(held, Measure(id)).value;
            var full := Collected(measured, id, |c.ch.buf| - 1);
            && full.Some?
            && var done := PumpStep(full.value, CloseFrame(id, written));
               && done.Some?
               && done.value.ch == Channel([], c.ch.closed)
               && done.value.frames == if written then c.frames + [Join(c.ch.buf)] else c.frames
  {
    var held := PumpStep(c, Hub.Receive(id, true)).value;
    var measured := PumpStep(held, Measure(id)).value;
    CollectedTakes(measured, id, [c.ch.buf[0]], |c.ch.buf| - 1);
    assert [c.ch.buf[0]] + c.ch.buf[1..][..|c.ch.buf| - 1] == c.ch.buf;
    hide Join;
  }

  /** A channel after the hub has offered it a message, without a panic. */
  predicate Offered(before: Channel, m: string, after: Channel) {
    match Send(before, m)
    case Sent(ch) => after == ch
    case Full => Some(after) == Close(before)
    case SendPanics => false
  }

  class HubServer {
    var clients: set<Connection>

    /** A client in the map has an open channel. */
    ghost predicate Valid()
      reads this, clients
    {
      forall c :: c in clients ==> !c.ch.closed && |c.ch.buf| <= CAPACITY
    }

    constructor ()
      ensures Valid() && clients == {}
    {
      clients := {};
    }

    method Register(c: Connection)
      requires Valid() && c.ch == Channel([], false)
      modifies this
      ensures Valid() && clients == old(clients) + {c}
    {
      clients := clients + {c};
    }

    method Unregister(c: Connection)
      requires Valid()
      modifies this, c
      ensures Valid() && clients == old(clients) - {c}
      ensures c.frames == old(c.frames)
      ensures if c in old(clients) then Some(c.ch) == Close(old(c.ch)) else c.ch == old(c.ch)
      ensures c in old(clients) ==> c.ch == Channel(old(c.ch).buf, true)
    {
      if c in clients {
        clients := clients - {c};
        c.ch := c.ch.(closed := true);
      }
    }

    /** Every client gets the message, or is closed and dropped because its buffer is full. */
    method BroadcastMessage(m: string)
      requires Valid()
      modifies this, clients
      ensures Valid() && clients == set c | c in old(clients) && |old(c.ch.buf)| < CAPACITY
      ensures forall c :: c in old(clients) ==> c.frames == old(c.frames) && Offered(old(c.ch), m, c.ch)
      ensures forall c :: c in old(clients) ==>
                c.ch == if |old(c.ch).buf| < 256
                        then Channel(old(c.ch).buf + [m], false)
                        else Channel(old(c.ch).buf, true)
    {
      ghost var before := clients;
      var rest := clients;
      while rest != {}
        invariant rest <= before && before == old(clients)
        invariant forall c :: c in rest ==> c.ch == old(c.ch)
        invariant forall c :: c in before ==> c.frames == old(c.frames)
        invariant forall c :: c in before - rest ==>
          c.ch == if |old(c.ch.buf)| < CAPACITY then Channel(old(c.ch.buf) + [m], false)
                  else Channel(old(c.ch.buf), true)
        invariant clients == set c | c in before && (c in rest || |old(c.ch.buf)| < CAPACITY)
        decreases rest
      {
        var client :| client in rest;
        if |client.ch.buf| < CAPACITY {
          client.ch := client.ch.(buf := client.ch.buf + [m]);
        } else {
          client.ch := client.ch.(closed := true);
          clients := clients - {client};
        }
        rest := rest - {client};
      }
    }
  }
}

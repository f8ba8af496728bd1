/** The WebSocket hub (internal/dashboard/websocket.go): bounded channels, eviction of slow clients, and
    the pump that batches what is buffered into one frame. */
module Hub {
  import opened Basics

  const CAPACITY := 256

  /** A Go channel of messages, as far as it can be seen: what is buffered, and whether it is closed. */
  datatype Channel = Channel(buf: seq<string>, closed: bool)

  /** A send on a closed channel panics; the hub's select falls through when the buffer is full. */
  datatype SendResult = Sent(ch: Channel) | Full | SendPanics

  function Send(ch: Channel, m: string): SendResult {
    if ch.closed then SendPanics
    else if |ch.buf| < CAPACITY then Sent(Channel(ch.buf + [m], false))
    else Full
  }

  /** Closing twice panics. */
  function Close(ch: Channel): Option<Channel> {
    if ch.closed then None else Some(ch.(closed := true))
  }

  // ----- frames -----

  /** What the batch loop writes: the messages with newlines between them. */
  function Join(batch: seq<string>): string {
    if batch == [] then ""
    else if |batch| == 1 then batch[0]
    else Join(batch[..|batch| - 1]) + "\n" + batch[|batch| - 1]
  }

  /** A frame cut at its newlines. */
  function Split(frame: string): (lines: seq<string>)
    ensures lines != []
  {
    if frame == "" then [""]
    else
      var front := Split(frame[..|frame| - 1]);
      var last := frame[|frame| - 1];
      if last == '\n' then front + [""] else front[..|front| - 1] + [front[|front| - 1] + [last]]
  }

  /** Encoded messages are JSON texts, which hold no raw newline. */
  predicate OneLine(m: string) {
    '\n' !in m
  }

  ghost predicate OneLiners(s: seq<string>) {
    forall k :: 0 <= k < |s| ==> OneLine(s[k])
  }

  lemma SplitOneMore(frame: string, ch: char, lines: seq<string>, line: string)
    requires Split(frame) == lines + [line] && ch != '\n'
    ensures Split(frame + [ch]) == lines + [line + [ch]]
  {
    assert (frame + [ch])[..|frame|] == frame;
  }

  /** Writing on without a newline lengthens the last line. */
  lemma {:induction false} SplitAppend(frame: string, m: string, lines: seq<string>, line: string)
    requires OneLine(m) && Split(frame) == lines + [line]
    ensures Split(frame + m) == lines + [line + m]
  {
    hide Split;
    if m == "" {
      assert frame + m == frame && line + m == line;
    } else {
      var m', last := m[..|m| - 1], m[|m| - 1];
      assert last in m;
      SplitAppend(frame, m', lines, line);
      SplitOneMore(frame + m', last, lines, line + m');
      assert m == m' + [last];
      assert frame + m' + [last] == frame + m && line + m' + [last] == line + m;
    }
  }

  lemma SplitNewline(frame: string)
    ensures Split(frame + "\n") == Split(frame) + [""]
  {
    assert (frame + "\n")[..|frame|] == frame;
  }

  /** Cutting a frame gives back the batch it was joined from. */
  lemma {:induction false} SplitOfJoin(batch: seq<string>)
    requires batch != [] && OneLiners(batch)
    ensures Split(Join(batch)) == batch
  {
    var front, last := batch[..|batch| - 1], batch[|batch| - 1];
    assert batch == front + [last] && OneLine(last);
    if front == [] {
      assert Split("") == [] + [""];
      hide Split;
      SplitAppend("", last, [], "");
      assert "" + last == last;
    } else {
      SplitOfJoin(front);
      SplitNewline(Join(front));
      hide Split;
      SplitAppend(Join(front) + "\n", last, front, "");
      assert "" + last == last;
    }
  }

  /** All lines of all frames. */
  function Lines(frames: seq<string>): seq<string> {
    if frames == [] then [] else Lines(frames[..|frames| - 1]) + Split(frames[|frames| - 1])
  }

  // ----- the protocol -----

  /** Where the write pump is: between frames, with the first message of a frame in hand, in the batch
      loop with `left` messages to go, or returned, with what it took and did not get written. */
  datatype Pump =
    | Waiting
    | Holding(batch: seq<string>)
    | Collecting(batch: seq<string>, left: nat)
    | Returned(lost: seq<string>)

  datatype Client = Client(registered: bool, ch: Channel, pump: Pump, frames: seq<string>)

  /** A client with the part of the broadcast sequence it was registered for. */
  datatype Track = Track(client: Client, start: nat, end: Option<nat>)

  datatype State = State(log: seq<string>, tracks: map<nat, Track>)

  datatype Event =
    | Register(id: nat)
    | Unregister(id: nat)
    | Broadcast(m: string)
    | Receive(id: nat, writerOk: bool)
    | Measure(id: nat)
    | ReceiveMore(id: nat)
    | CloseFrame(id: nat, written: bool)

  /** Broken: the process panics, or the batch loop reads a channel with nothing in it. */
  datatype Outcome = Next(state: State) | NotEnabled | Broken

  /** One client's share of a broadcast, at position `at` of the sequence; None if it panics. */
  function Offer(t: Track, m: string, at: nat): Option<Track> {
    if !t.client.registered then Some(t)
    else
      match Send(t.client.ch, m)
      case SendPanics => None
      case Sent(ch) => Some(t.(client := t.client.(ch := ch)))
      case Full =>
        match Close(t.client.ch)
        case None => None
        case Some(ch) => Some(t.(client := t.client.(ch := ch, registered := false), end := Some(at)))
  }

  /** Unregistering removes and closes, once; a client that was evicted before is left alone. */
  function Leave(t: Track, at: nat): Option<Track> {
    if !t.client.registered then Some(t)
    else
      match Close(t.client.ch)
      case None => None
      case Some(ch) => Some(t.(client := t.client.(ch := ch, registered := false), end := Some(at)))
  }

  function Taken(c: Client, pump: Pump): Client
    requires c.ch.buf != []
  {
    c.(ch := c.ch.(buf := c.ch.buf[1..]), pump := pump)
  }

  /** The pump's own steps; None where its batch loop would find nothing to read. */
  function PumpStep(c: Client, e: Event): Option<Client> {
    match (e, c.pump)
    case (Receive(_, writerOk), Waiting) =>
      if c.ch.buf != [] then
        Some(Taken(c, if writerOk then Holding([c.ch.buf[0]]) else Returned([c.ch.buf[0]])))
      else if c.ch.closed then Some(c.(pump := Returned([])))
      else Some(c)
    case (Measure(_), Holding(batch)) => Some(c.(pump := Collecting(batch, |c.ch.buf|)))
    case (ReceiveMore(_), Collecting(batch, left)) =>
      if left == 0 then Some(c)
      else if c.ch.buf == [] then None
      else Some(Taken(c, Collecting(batch + [c.ch.buf[0]], left - 1)))
    case (CloseFrame(_, written), Collecting(batch, left)) =>
      if left != 0 then Some(c)
      else if written then Some(c.(pump := Waiting, frames := c.frames + [Join(batch)]))
      else Some(c.(pump := Returned(batch)))
    case _ => Some(c)
  }

  ghost function Step(h: State, e: Event): Outcome {
    match e
    case Register(id) =>
      if id in h.tracks then NotEnabled
      else Next(h.(tracks := h.tracks[id := Track(Client(true, Channel([], false), Waiting, []), |h.log|, None)]))
    case Unregister(id) =>
      if id !in h.tracks then Next(h)
      else
        (match Leave(h.tracks[id], |h.log|)
         case None => Broken
         case Some(t) => Next(h.(tracks := h.tracks[id := t])))
    case Broadcast(m) =>
      if !OneLine(m) then NotEnabled
      else if exists id :: id in h.tracks && Offer(h.tracks[id], m, |h.log|).None? then Broken
      else Next(State(h.log + [m], map id | id in h.tracks :: Offer(h.tracks[id], m, |h.log|).value))
    case _ =>
      if e.id !in h.tracks then NotEnabled
      else
        (match PumpStep(h.tracks[e.id].client, e)
         case None => Broken
         case Some(c) => Next(h.(tracks := h.tracks[e.id := h.tracks[e.id].(client := c)])))
  }

  ghost function Run(h: State, events: seq<Event>): Outcome
    decreases |events|
  {
    if events == [] then Next(h)
    else
      var r := Step(h, events[0]);
      if r.Next? then Run(r.state, events[1..]) else r
  }

  const EMPTY := State([], map[])

  /** What the pump has taken out of the channel and not written. */
  function InHand(p: Pump): seq<string> {
    match p
    case Waiting => []
    case Holding(batch) => batch
    case Collecting(batch, _) => batch
    case Returned(lost) => lost
  }

  /** Where a client's part of the sequence ends, so far. */
  function EndOf(log: seq<string>, t: Track): nat {
    if t.end.Some? then t.end.value else |log|
  }

  /** Written, then in hand, then buffered: exactly the broadcasts from registration to removal. */
  ghost predicate Exact(log: seq<string>, t: Track) {
    && t.start <= EndOf(log, t) <= |log|
    && Lines(t.client.frames) + InHand(t.client.pump) + t.client.ch.buf == log[t.start..EndOf(log, t)]
  }

  ghost predicate TrackOk(log: seq<string>, t: Track) {
    && (t.client.registered <==> !t.client.ch.closed)
    && (t.client.registered <==> t.end.None?)
    && |t.client.ch.buf| <= CAPACITY
    && (t.client.pump.Holding? ==> |t.client.pump.batch| == 1)
    && (t.client.pump.Collecting? ==> t.client.pump.batch != [] && t.client.pump.left <= |t.client.ch.buf|)
    && Exact(log, t)
  }

  ghost predicate HubOk(h: State) {
    OneLiners(h.log) && forall id :: id in h.tracks ==> TrackOk(h.log, h.tracks[id])
  }

  lemma LinesAppend(frames: seq<string>, f: string)
    ensures Lines(frames + [f]) == Lines(frames) + Split(f)
  {
    assert (frames + [f])[..|frames|] == frames;
  }

  lemma OfferKeepsTrack(log: seq<string>, t: Track, m: string)
    requires TrackOk(log, t)
    ensures var r := Offer(t, m, |log|); r.Some? && TrackOk(log + [m], r.value)
  {
    var r := Offer(t, m, |log|).value;
    assert (log + [m])[t.start..EndOf(log, t)] == log[t.start..EndOf(log, t)];
    if t.client.registered && |t.client.ch.buf| < CAPACITY {
      assert (log + [m])[t.start..|log| + 1] == log[t.start..|log|] + [m];
    }
  }

  lemma TakeKeepsStream(written: seq<string>, inHand: seq<string>, buf: seq<string>)
    requires buf != []
    ensures written + inHand + buf == written + (inHand + [buf[0]]) + buf[1..]
  {
    assert buf == [buf[0]] + buf[1..];
  }

  /** A frame that is closed turns the batch into lines written. */
  lemma CloseFrameKeepsStream(log: seq<string>, t: Track)
    requires TrackOk(log, t) && OneLiners(log) && t.client.pump.Collecting?
    ensures Lines(t.client.frames + [Join(t.client.pump.batch)]) == Lines(t.client.frames) + t.client.pump.batch
  {
    var c := t.client;
    var segment, before := log[t.start..EndOf(log, t)], Lines(c.frames);
    forall k | 0 <= k < |c.pump.batch| ensures OneLine(c.pump.batch[k]) {
      assert c.pump.batch[k] == segment[|before| + k] == log[t.start + |before| + k];
    }
    SplitOfJoin(c.pump.batch);
    LinesAppend(c.frames, Join(c.pump.batch));
  }

  function Stream(c: Client): seq<string> {
    Lines(c.frames) + InHand(c.pump) + c.ch.buf
  }

  lemma SameStream(log: seq<string>, t: Track, c: Client)
    requires Exact(log, t) && Stream(c) == Stream(t.client)
    ensures Exact(log, t.(client := c))
  {
    hide Lines;
  }

  lemma PumpKeepsStream(log: seq<string>, t: Track, e: Event)
    requires TrackOk(log, t) && OneLiners(log)
    ensures PumpStep(t.client, e).Some? ==> Stream(PumpStep(t.client, e).value) == Stream(t.client)
  {
    hide Lines, Join, TrackOk, OneLiners;
    var c := t.client;
    match (e, c.pump) {
      case (CloseFrame(_, written), Collecting(batch, left)) =>
        CloseFrameKeepsStream(log, t);
      case (Receive(_, _), Waiting) =>
        if c.ch.buf != [] {
          TakeKeepsStream(Lines(c.frames), [], c.ch.buf);
          assert [] + [c.ch.buf[0]] == [c.ch.buf[0]];
        }
      case (ReceiveMore(_), Collecting(batch, left)) =>
        if left > 0 && c.ch.buf != [] {
          TakeKeepsStream(Lines(c.frames), batch, c.ch.buf);
        }
      case _ =>
    }
  }

  lemma PumpKeepsTrack(log: seq<string>, t: Track, e: Event)
    requires TrackOk(log, t) && OneLiners(log)
    ensures var r := PumpStep(t.client, e); r.Some? && TrackOk(log, t.(client := r.value))
  {
    PumpKeepsStream(log, t, e);
    hide Exact, Stream, Join, OneLiners;
    assert PumpStep(t.client, e).Some?;
    SameStream(log, t, PumpStep(t.client, e).value);
  }

  /** Every event keeps every client's stream exact, and none breaks the hub. */
  lemma StepKeepsHub(h: State, e: Event)
    requires HubOk(h)
    ensures !Step(h, e).Broken?
    ensures Step(h, e).Next? ==> HubOk(Step(h, e).state)
  {
    hide Split, Join, PumpStep, Offer, OneLine;
    match e {
      case Broadcast(m) =>
        forall id | id in h.tracks
          ensures Offer(h.tracks[id], m, |h.log|).Some? && TrackOk(h.log + [m], Offer(h.tracks[id], m, |h.log|).value)
        {
          OfferKeepsTrack(h.log, h.tracks[id], m);
        }
      case Register(id) =>
        assert h.log[|h.log|..|h.log|] == [];
      case Unregister(id) =>
      case _ =>
        if e.id in h.tracks {
          PumpKeepsTrack(h.log, h.tracks[e.id], e);
        }
    }
  }

  /** Over every sequence of registrations, unregistrations, broadcasts and pump steps: nothing panics and
      the batch loop always finds its messages; a client's channel is open exactly while the client is
      in the map, and holds at most 256 messages; and what was written, split at its newlines, followed
      by what is in hand and what is buffered, is exactly the stretch of the broadcast sequence from the
      client's registration to its removal, so what was written is always a prefix of that stretch. */
  lemma {:induction false} StreamsAreExact(h: State, events: seq<Event>, id: nat)
    requires HubOk(h)
    ensures !Run(h, events).Broken?
    ensures Run(h, events).Next? && id in Run(h, events).state.tracks ==>
              var h' := Run(h, events).state;
              var t := h'.tracks[id];
              && (t.client.registered <==> !t.client.ch.closed)
              && |t.client.ch.buf| <= 256
              && t.start <= EndOf(h'.log, t) <= |h'.log|
              && Lines(t.client.frames) + InHand(t.client.pump) + t.client.ch.buf == h'.log[t.start..EndOf(h'.log, t)]
              && Lines(t.client.frames) <= h'.log[t.start..EndOf(h'.log, t)]
    decreases |events|
  {
    if events == [] {
      assert id in h.tracks ==> TrackOk(h.log, h.tracks[id]);
    } else {
      StepKeepsHub(h, events[0]);
      if Step(h, events[0]).Next? {
        StreamsAreExact(Step(h, events[0]).state, events[1..], id);
      }
    }
  }

  /** The stretch is what its name says: it begins where the sequence stood when the client registered,
      is open as long as the client is in the map, ends where the sequence stood at the event that
      removed it (before the message that found its buffer full), and never moves afterwards. */
  lemma StretchIsRegistrationToRemoval(h: State, e: Event, id: nat)
    requires HubOk(h) && Step(h, e).Next?
    ensures var h' := Step(h, e).state;
            && h.log <= h'.log
            && (id in h.tracks ==> id in h'.tracks && h'.tracks[id].start == h.tracks[id].start)
            && (id in h'.tracks && id !in h.tracks ==>
                  e == Register(id) && h'.tracks[id].start == |h.log| && h'.tracks[id].end.None?)
            && (id in h.tracks && h.tracks[id].end.Some? ==> h'.tracks[id].end == h.tracks[id].end)
            && (id in h.tracks && h.tracks[id].end.None? && h'.tracks[id].end.Some? ==>
                  h'.tracks[id].end == Some(|h.log|)
                  && (e == Unregister(id) || (e.Broadcast? && |h.tracks[id].client.ch.buf| == 256)))
            && (id in h.tracks ==> h.tracks[id].client.frames <= h'.tracks[id].client.frames)
  {
    hide Exact, OneLiners, OneLine, Lines, Split, Join;
    if id in h.tracks {
      assert TrackOk(h.log, h.tracks[id]);
    }
  }

  /** From an empty hub on: no sequence of events breaks it, and what has been written to any client is a
      prefix of the broadcasts since that client registered. */
  lemma ServedFromTheStart(events: seq<Event>, id: nat)
    ensures !Run(EMPTY, events).Broken?
    ensures Run(EMPTY, events).Next? && id in Run(EMPTY, events).state.tracks ==>
              var h := Run(EMPTY, events).state;
              var t := h.tracks[id];
              t.start <= |h.log| && Lines(t.client.frames) <= h.log[t.start..]
  {
    assert HubOk(EMPTY);
    StreamsAreExact(EMPTY, events, id);
    hide Run, Lines;
    if Run(EMPTY, events).Next? && id in Run(EMPTY, events).state.tracks {
      var h := Run(EMPTY, events).state;
      var t := h.tracks[id];
      assert h.log[t.start..EndOf(h.log, t)] <= h.log[t.start..];
    }
  }

  // ----- what single events do -----

  /** A new client joins with an open, empty channel, at the current end of the sequence. */
  lemma RegisterExactly(h: State, id: nat)
    requires id !in h.tracks
    ensures Step(h, Register(id))
         == Next(State(h.log, h.tracks[id := Track(Client(true, Channel([], false), Waiting, []), |h.log|, None)]))
  {
  }

  /** Unregistering takes a client out of the map and closes its channel, with what is buffered still in it; a
      client that is out already, and every other client, is left alone. */
  lemma UnregisterExactly(h: State, id: nat)
    requires HubOk(h) && id in h.tracks
    ensures var t := h.tracks[id];
            var c := t.client;
            var t' := if c.registered
                      then Track(Client(false, Channel(c.ch.buf, true), c.pump, c.frames), t.start, Some(|h.log|))
                      else t;
            Step(h, Unregister(id)) == Next(State(h.log, h.tracks[id := t']))
  {
    assert TrackOk(h.log, h.tracks[id]);
    hide Exact;
  }

  /** A broadcast goes to the end of every registered client's buffer that holds fewer than 256 messages; a
      registered client whose buffer is full is taken out of the map and its channel closed; nobody else is
      touched. */
  lemma BroadcastExactly(h: State, m: string, id: nat)
    requires HubOk(h) && OneLine(m) && id in h.tracks
    ensures var r := Step(h, Broadcast(m));
            && r.Next? && r.state.log == h.log + [m] && r.state.tracks.Keys == h.tracks.Keys
            && var t := h.tracks[id];
               var c := t.client;
               r.state.tracks[id]
               == if !c.registered then t
                  else if |c.ch.buf| < 256 then
                    Track(Client(true, Channel(c.ch.buf + [m], false), c.pump, c.frames), t.start, t.end)
                  else Track(Client(false, Channel(c.ch.buf, true), c.pump, c.frames), t.start, Some(|h.log|))
  {
    StepKeepsHub(h, Broadcast(m));
    assert TrackOk(h.log, h.tracks[id]);
    hide Exact, OneLine;
  }

  /** The pump ends with its channel, when that is closed and drained, and waits on one that is only drained. */
  lemma DrainedPump(c: Client, id: nat, writerOk: bool)
    requires c.pump == Waiting && c.ch.buf == []
    ensures PumpStep(c, Receive(id, writerOk))
         == Some(Client(c.registered, c.ch, if c.ch.closed then Returned([]) else Waiting, c.frames))
  {
  }

  /** A write that fails ends the pump: the batch in hand is lost, and not written. */
  lemma FailedWriteEndsPump(c: Client, id: nat)
    ensures c.pump == Waiting && c.ch.buf != [] ==>
              PumpStep(c, Receive(id, false))
              == Some(Client(c.registered, Channel(c.ch.buf[1..], c.ch.closed), Returned([c.ch.buf[0]]), c.frames))
    ensures c.pump.Collecting? && c.pump.left == 0 ==>
              PumpStep(c, CloseFrame(id, false)) == Some(Client(c.registered, c.ch, Returned(c.pump.batch), c.frames))
  {
  }

  lemma ReturnedStaysReturned(h: State, e: Event, id: nat)
    requires HubOk(h) && Step(h, e).Next? && id in h.tracks && h.tracks[id].client.pump.Returned?
    ensures var t, t' := h.tracks[id].client, Step(h, e).state.tracks[id].client;
            id in Step(h, e).state.tracks && t'.pump == t.pump && t'.frames == t.frames
  {
    hide Exact, OneLine, Join;
    assert TrackOk(h.log, h.tracks[id]);
  }

  /** Once a pump has returned, nothing is written to its client any more, whatever happens. */
  lemma {:induction false} ReturnedPumpIsFinal(h: State, events: seq<Event>, id: nat)
    requires HubOk(h) && Run(h, events).Next? && id in h.tracks && h.tracks[id].client.pump.Returned?
    ensures var h' := Run(h, events).state;
            id in h'.tracks && h'.tracks[id].client.frames == h.tracks[id].client.frames
    decreases |events|
  {
    hide Step, HubOk;
    if events == [] {
    } else {
      StepKeepsHub(h, events[0]);
      ReturnedStaysReturned(h, events[0], id);
      ReturnedPumpIsFinal(Step(h, events[0]).state, events[1..], id);
    }
  }
}

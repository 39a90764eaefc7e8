/** The client session: the connection state machine on top of the two loops,
    its own handlers for the handshake packets, and one iteration of its run
    loop. The clock is an integer reading in microseconds passed in by the
    caller; the event dispatcher is modelled as the log `events` of what was
    dispatched, in order. */
module Session {
  import opened Protocol
  import opened Windows
  import opened ReceiveSpec
  import opened ReceiveLoop
  import opened SendLoop

  datatype ConnState = Idle | Connecting | Connected

  /** What the dispatcher announced: a received packet (or the empty tick of
      a run-loop iteration that got none), or one of the two session events. */
  datatype Event = Dispatched(item: Option<Packet>) | RobotReady | RobotFound

  /** 0.05 s, in microseconds. */
  const PingInterval: int := 50_000
  const OneDay: int := 86_400_000_000
  const WindowSize: nat := 256

  /** The keepalive ping the client sends. */
  function KeepAlive(): Packet
  {
    Outgoing(Ping([0, 1, 0]))
  }

  /** A keepalive is due only on a connected session whose last send lies
      strictly more than one ping interval back. */
  predicate PingDue(state: ConnState, sendLast: int, now: int)
  {
    state == Connected && now - sendLast > PingInterval
  }

  /** The three enabling commands that open the initialization burst. */
  function EnableCommands(): seq<Packet>
  {
    [ Outgoing(UnknownCommand(0x25, [])),
      Outgoing(UnknownCommand(0x4b, [0xc4, 0xb6, 0x39, 0x00, 0x00, 0x00, 0xa0, 0xc1])),
      Outgoing(UnknownCommand(0x9f, [])) ]
  }

  /** `rounds` rounds of display initialization. */
  function DisplayInit(rounds: nat): seq<Packet>
  {
    if rounds == 0 then []
    else DisplayInit(rounds - 1) + [Outgoing(NextFrame), Outgoing(DisplayImage([0x3f, 0x3f]))]
  }

  /** Everything the client sends when it initializes the robot. */
  function InitBurst(): seq<Packet>
  {
    EnableCommands() + DisplayInit(7)
  }

  lemma {:induction false} DisplayInitAt(rounds: nat, i: nat)
    requires i < rounds
    ensures |DisplayInit(rounds)| == 2 * rounds
    ensures DisplayInit(rounds)[2 * i] == Outgoing(NextFrame)
    ensures DisplayInit(rounds)[2 * i + 1] == Outgoing(DisplayImage([0x3f, 0x3f]))
  {
    if i < rounds - 1 {
      DisplayInitAt(rounds - 1, i);
    } else if rounds > 1 {
      DisplayInitAt(rounds - 1, 0);
    }
  }

  /** The initialization burst is 3 + 7 * 2 = 17 packets: the three enabling
      commands, then seven alternating NextFrame / DisplayImage pairs. */
  lemma InitBurstShape()
    ensures |InitBurst()| == 17
    ensures InitBurst()[..3] == EnableCommands()
    ensures forall i :: 0 <= i < 7 ==>
      InitBurst()[3 + 2 * i] == Outgoing(NextFrame) &&
      InitBurst()[4 + 2 * i] == Outgoing(DisplayImage([0x3f, 0x3f]))
  {
  }

  /** The oldest packet of the receive loop's queue, if any. */
  function Head(q: seq<Packet>): Option<Packet>
  {
    if q == [] then None else Some(q[0])
  }

  predicate IsFirmwareSignature(item: Option<Packet>)
  {
    item.Some? && item.value.body.FirmwareSignature?
  }

  /** What the client's own handlers send in reaction to a dispatched item. */
  function Reaction(item: Option<Packet>): seq<Packet>
  {
    if IsFirmwareSignature(item) then InitBurst() else []
  }

  /** What the dispatcher announces for an item, the item itself first. */
  function Announced(item: Option<Packet>): seq<Event>
  {
    [Dispatched(item)] + if IsFirmwareSignature(item) then [RobotReady, RobotFound] else []
  }

  class Client {
    var state: ConnState
    var robotFwSig: Option<string>
    const recvThread: ReceiveThread
    const sendThread: SendThread
    /** Clock reading of the last packet handed to the send loop. */
    var sendLast: int
    /** Frames the client writes to the socket itself (the RESET frame). */
    var sent: seq<Frame>
    var events: seq<Event>

    ghost predicate Valid()
      reads this, recvThread, recvThread.window, sendThread, sendThread.window
    {
      recvThread.Valid() && sendThread.Valid()
    }

    /** A new client at clock reading `now`: idle, with fresh loops, and a
        last send one day in the past. */
    constructor (now: int)
      ensures Valid() && fresh(recvThread) && fresh(recvThread.window)
      ensures fresh(sendThread) && fresh(sendThread.window)
      ensures state == Idle && robotFwSig == None && sendLast == now - OneDay
      ensures sent == [] && events == []
      ensures recvThread.window.size == WindowSize && recvThread.window.expected == 1
      ensures recvThread.window.buffer == map[] && recvThread.queue == []
      ensures sendThread.window.expected == 1 && sendThread.window.nextSeq == 1
      ensures sendThread.window.buffer == map[] && sendThread.queue == []
      ensures sendThread.window.size == WindowSize
      ensures sendThread.lastAck == 1 && sendThread.lastSendTimestamp == None && sendThread.sent == []
    {
      state := Idle;
      robotFwSig := None;
      recvThread := new ReceiveThread(WindowSize);
      sendThread := new SendThread(WindowSize);
      sendLast := now - OneDay;
      sent := [];
      events := [];
    }

    /** Starts a connection: CONNECTING, a reset send side (the receive side
        is left alone) and a RESET frame with sequence 1 and ack 0, unless the
        socket write is interrupted. */
    method Connect(interrupted: bool)
      requires Valid()
      modifies this, sendThread, sendThread.window
      ensures Valid()
      ensures state == Connecting
      ensures sent == old(sent) + (if interrupted then [] else [Frame(Reset, 1, 1, 0, [])])
      ensures sendThread.window.expected == 1 && sendThread.window.nextSeq == 1
      ensures sendThread.window.buffer == map[]
      ensures sendThread.lastAck == 1 && sendThread.lastSendTimestamp == None
      ensures sendThread.queue == old(sendThread.queue) && sendThread.sent == old(sendThread.sent)
      ensures robotFwSig == old(robotFwSig) && sendLast == old(sendLast) && events == old(events)
    {
      state := Connecting;
      sendThread.Reset();
      var frame := Frame(Reset, 1, 1, 0, []);
      if !interrupted {
        sent := sent + [frame];
      }
    }

    method Send(pkt: Packet, now: int)
      modifies this, sendThread
      ensures sendLast == now && sendThread.queue == old(sendThread.queue) + [pkt]
      ensures state == old(state) && robotFwSig == old(robotFwSig)
      ensures sent == old(sent) && events == old(events)
      ensures sendThread.lastAck == old(sendThread.lastAck)
      ensures sendThread.sent == old(sendThread.sent) && sendThread.lastSendTimestamp == old(sendThread.lastSendTimestamp)
    {
      sendLast := now;
      sendThread.Send(pkt);
    }

    /** Only a connected session sends Disconnect; the state itself does
        not change. */
    method Disconnect(now: int)
      modifies this, sendThread
      ensures state == old(state)
      ensures sendThread.queue ==
        old(sendThread.queue) + (if old(state) == Connected then [Outgoing(Body.Disconnect)] else [])
      ensures sendLast == if old(state) == Connected then now else old(sendLast)
      ensures robotFwSig == old(robotFwSig) && sent == old(sent) && events == old(events)
      ensures sendThread.lastAck == old(sendThread.lastAck)
      ensures sendThread.sent == old(sendThread.sent) && sendThread.lastSendTimestamp == old(sendThread.lastSendTimestamp)
    {
      if state != Connected {
        return;
      }
      Send(Outgoing(Body.Disconnect), now);
    }

    method SendPing(now: int)
      modifies this, sendThread
      ensures sendLast == now && sendThread.queue == old(sendThread.queue) + [KeepAlive()]
      ensures state == old(state) && robotFwSig == old(robotFwSig)
      ensures sent == old(sent) && events == old(events)
      ensures sendThread.lastAck == old(sendThread.lastAck)
      ensures sendThread.sent == old(sendThread.sent) && sendThread.lastSendTimestamp == old(sendThread.lastSendTimestamp)
    {
      Send(KeepAlive(), now);
    }

    /** The keepalive check of the run loop: a connected session whose last
        send lies more than the ping interval back sends a ping. */
    method PingIfDue(now: int)
      modifies this, sendThread
      ensures sendThread.queue ==
        old(sendThread.queue) + (if PingDue(old(state), old(sendLast), now) then [KeepAlive()] else [])
      ensures sendLast == if PingDue(old(state), old(sendLast), now) then now else old(sendLast)
      ensures state == old(state) && robotFwSig == old(robotFwSig)
      ensures sent == old(sent) && events == old(events)
      ensures sendThread.lastAck == old(sendThread.lastAck)
      ensures sendThread.sent == old(sendThread.sent) && sendThread.lastSendTimestamp == old(sendThread.lastSendTimestamp)
    {
      if state == Connected && now - sendLast > PingInterval {
        SendPing(now);
      }
    }

    method OnConnect()
      modifies this
      ensures state == Connected
      ensures robotFwSig == old(robotFwSig) && sendLast == old(sendLast)
      ensures sent == old(sent) && events == old(events)
    {
      state := Connected;
    }

    /** Sends the 17-packet initialization burst, then announces that the
        robot is ready. */
    method InitializeRobot(now: int)
      modifies this, sendThread
      ensures sendThread.queue == old(sendThread.queue) + InitBurst()
      ensures sendLast == now && events == old(events) + [RobotReady]
      ensures state == old(state) && robotFwSig == old(robotFwSig) && sent == old(sent)
      ensures sendThread.lastAck == old(sendThread.lastAck)
      ensures sendThread.sent == old(sendThread.sent) && sendThread.lastSendTimestamp == old(sendThread.lastSendTimestamp)
    {
      ghost var q0 := sendThread.queue;
      Send(Outgoing(UnknownCommand(0x25, [])), now);
      Send(Outgoing(UnknownCommand(0x4b, [0xc4, 0xb6, 0x39, 0x00, 0x00, 0x00, 0xa0, 0xc1])), now);
      Send(Outgoing(UnknownCommand(0x9f, [])), now);
      assert sendThread.queue == q0 + EnableCommands() + DisplayInit(0);
      for i := 0 to 7
        invariant sendThread.queue == q0 + EnableCommands() + DisplayInit(i)
        invariant sendLast == now && events == old(events)
        invariant state == old(state) && robotFwSig == old(robotFwSig) && sent == old(sent)
        invariant sendThread.lastAck == old(sendThread.lastAck)
        invariant sendThread.sent == old(sendThread.sent) && sendThread.lastSendTimestamp == old(sendThread.lastSendTimestamp)
      {
        ghost var q := sendThread.queue;
        Send(Outgoing(NextFrame), now);
        Send(Outgoing(DisplayImage([0x3f, 0x3f])), now);
        assert sendThread.queue == q + [Outgoing(NextFrame), Outgoing(DisplayImage([0x3f, 0x3f]))];
      }
      events := events + [RobotReady];
    }

    method OnFirmwareSignature(signature: string, now: int)
      modifies this, sendThread
      ensures robotFwSig == Some(signature)
      ensures sendThread.queue == old(sendThread.queue) + InitBurst()
      ensures sendLast == now && events == old(events) + [RobotReady, RobotFound]
      ensures state == old(state) && sent == old(sent)
      ensures sendThread.lastAck == old(sendThread.lastAck)
      ensures sendThread.sent == old(sendThread.sent) && sendThread.lastSendTimestamp == old(sendThread.lastSendTimestamp)
    {
      robotFwSig := Some(signature);
      InitializeRobot(now);
      events := events + [RobotFound];
    }

    /** Hands an item to the dispatcher, which runs the client's own
        handlers: Connect completes the handshake, a firmware signature
        starts the initialization, a ping is ignored. */
    method Dispatch(item: Option<Packet>, now: int)
      modifies this, sendThread
      ensures events == old(events) + Announced(item)
      ensures sendThread.queue == old(sendThread.queue) + Reaction(item)
      ensures state == if item.Some? && item.value.body.Connect? then Connected else old(state)
      ensures robotFwSig ==
        if IsFirmwareSignature(item) then Some(item.value.body.signature) else old(robotFwSig)
      ensures sendLast == if IsFirmwareSignature(item) then now else old(sendLast)
      ensures sent == old(sent) && sendThread.lastAck == old(sendThread.lastAck)
      ensures sendThread.sent == old(sendThread.sent) && sendThread.lastSendTimestamp == old(sendThread.lastSendTimestamp)
    {
      events := events + [Dispatched(item)];
      if item.Some? {
        match item.value.body
        case Connect => OnConnect();
        case FirmwareSignature(signature) => OnFirmwareSignature(signature, now);
        case _ =>
      }
    }

    /** One iteration of the run loop at clock reading `now`: take the oldest
        received packet, if any, and feed its ack to the send side and, unless
        it is out-of-band, its sequence number as the ack to piggyback; send a
        keepalive if one is due; dispatch what was received. */
    method RunStep(now: int)
      requires Valid()
      modifies this, recvThread, sendThread, sendThread.window
      ensures Valid()
      ensures recvThread.queue == if old(recvThread.queue) == [] then [] else old(recvThread.queue)[1..]
      ensures recvThread.window.expected == old(recvThread.window.expected)
      ensures recvThread.window.buffer == old(recvThread.window.buffer)
      // the ack of the received packet is fed to the send window
      ensures sendThread.window.nextSeq == old(sendThread.window.nextSeq)
      ensures old(recvThread.queue) == [] || old(sendThread.window.IsOutOfOrder(recvThread.queue[0].ack)) ==>
        sendThread.window.expected == old(sendThread.window.expected) &&
        sendThread.window.buffer == old(sendThread.window.buffer)
      ensures old(recvThread.queue) != [] && !old(sendThread.window.IsOutOfOrder(recvThread.queue[0].ack)) ==>
        sendThread.window.expected == old(recvThread.queue[0].ack) + 1 &&
        forall k :: k in sendThread.window.buffer <==>
          k in old(sendThread.window.buffer) && old(recvThread.queue[0].ack) < k
      ensures forall k :: k in sendThread.window.buffer ==>
        sendThread.window.buffer[k] == old(sendThread.window.buffer)[k]
      // only an ordered packet moves the piggybacked ack
      ensures sendThread.lastAck ==
        if old(recvThread.queue) != [] && !old(recvThread.queue[0].oob) then old(recvThread.queue[0].seqNum)
        else old(sendThread.lastAck)
      // the keepalive is judged on the state before this iteration's dispatch
      ensures sendThread.queue == old(sendThread.queue) +
        (if PingDue(old(state), old(sendLast), now) then [KeepAlive()] else []) +
        Reaction(Head(old(recvThread.queue)))
      ensures sendLast ==
        if PingDue(old(state), old(sendLast), now) || IsFirmwareSignature(Head(old(recvThread.queue))) then now
        else old(sendLast)
      ensures events == old(events) + Announced(Head(old(recvThread.queue)))
      ensures state ==
        if old(recvThread.queue) != [] && old(recvThread.queue[0].body).Connect? then Connected else old(state)
      ensures robotFwSig ==
        if IsFirmwareSignature(Head(old(recvThread.queue))) then Some(old(recvThread.queue[0].body).signature)
        else old(robotFwSig)
      ensures sent == old(sent)
      ensures sendThread.sent == old(sendThread.sent) && sendThread.lastSendTimestamp == old(sendThread.lastSendTimestamp)
    {
      var item := TakeReceived();

      PingIfDue(now);
      Dispatch(item, now);
    }

    /** The receiving half of a run-loop iteration: the oldest packet the
        receive loop delivered, if any, with its ack fed to the send window
        and, unless it is out-of-band, its sequence number made the ack to
        piggyback. */
    method TakeReceived() returns (item: Option<Packet>)
      requires Valid()
      modifies recvThread, sendThread, sendThread.window
      ensures Valid()
      ensures item == Head(old(recvThread.queue))
      ensures recvThread.queue == if old(recvThread.queue) == [] then [] else old(recvThread.queue)[1..]
      ensures sendThread.window.nextSeq == old(sendThread.window.nextSeq)
      ensures item.None? || old(sendThread.window.IsOutOfOrder(item.value.ack)) ==>
        sendThread.window.expected == old(sendThread.window.expected) &&
        sendThread.window.buffer == old(sendThread.window.buffer)
      ensures item.Some? && !old(sendThread.window.IsOutOfOrder(item.value.ack)) ==>
        sendThread.window.expected == item.value.ack + 1 &&
        forall k :: k in sendThread.window.buffer <==> k in old(sendThread.window.buffer) && item.value.ack < k
      ensures forall k :: k in sendThread.window.buffer ==>
        sendThread.window.buffer[k] == old(sendThread.window.buffer)[k]
      ensures sendThread.lastAck ==
        if item.Some? && !item.value.oob then item.value.seqNum else old(sendThread.lastAck)
      ensures sendThread.queue == old(sendThread.queue)
      ensures sendThread.sent == old(sendThread.sent) && sendThread.lastSendTimestamp == old(sendThread.lastSendTimestamp)
    {
      item := None;
      if recvThread.queue != [] {
        var pkt := recvThread.queue[0];
        recvThread.queue := recvThread.queue[1..];
        sendThread.Ack(pkt.ack);
        if !pkt.oob {
          sendThread.SetLastAck(pkt.seqNum);
        }
        item := Some(pkt);
      }
    }
  }

  /** The first half of the bootstrap handshake: a new client connects and
      the robot's Connect packet arrives through the receive loop and is
      taken by one run-loop iteration. */
  method ConnectedClient(now: int) returns (client: Client, trace: seq<ConnState>)
    ensures fresh(client) && fresh(client.recvThread) && fresh(client.recvThread.window)
    ensures fresh(client.sendThread) && fresh(client.sendThread.window)
    ensures client.Valid()
    ensures trace == [Idle, Connecting, Connected] && client.state == Connected
    ensures client.events == [Dispatched(Some(Packet(Connect, 1, 0, false)))]
    ensures client.sendThread.queue == [] && client.sendLast == now - OneDay
    ensures client.recvThread.window.size == WindowSize
    ensures client.recvThread.State() == RecvState(2, map[], [])
  {
    client := new Client(now);
    trace := [client.state];
    client.Connect(false);
    trace := trace + [client.state];

    var connect := Packet(Connect, 1, 0, false);
    ghost var s := client.recvThread.State();
    AdmitExpected(WindowSize, s, connect);
    assert AdmitAll(WindowSize, s, [connect]) == RecvState(2, map[], [connect]);
    client.recvThread.HandleFrame(Frame(Engine, 1, 1, 0, [connect]));
    assert Head(client.recvThread.queue) == Some(connect);
    client.RunStep(now);
    trace := trace + [client.state];
  }

  /** The second half of the bootstrap handshake: on a connected session
      whose last send is long past, the robot's firmware signature arrives
      through the receive loop and is taken by one run-loop iteration. */
  method FirmwareArrives(client: Client, now: int, signature: string)
    requires client.Valid() && client.state == Connected
    requires client.recvThread.window.size == WindowSize
    requires client.recvThread.State() == RecvState(2, map[], [])
    requires client.sendThread.queue == [] && PingDue(client.state, client.sendLast, now)
    modifies client, client.recvThread, client.recvThread.window
    modifies client.sendThread, client.sendThread.window
    ensures client.state == Connected
    ensures client.events == old(client.events) +
      [Dispatched(Some(Packet(FirmwareSignature(signature), 2, 0, false))), RobotReady, RobotFound]
    ensures client.sendThread.queue == [KeepAlive()] + InitBurst()
  {
    var firmware := Packet(FirmwareSignature(signature), 2, 0, false);
    ghost var s := client.recvThread.State();
    AdmitExpected(WindowSize, s, firmware);
    assert AdmitAll(WindowSize, s, [firmware]) == RecvState(3, map[], [firmware]);
    client.recvThread.HandleFrame(Frame(Engine, 2, 2, 0, [firmware]));
    assert Head(client.recvThread.queue) == Some(firmware);
    assert Reaction(Some(firmware)) == InitBurst();
    client.RunStep(now);
    assert client.sendThread.queue == [] + [KeepAlive()] + InitBurst();
  }

  /** The whole bootstrap handshake of a new client: after the Connect
      packet, the robot's firmware signature arrives and is taken by a second
      run-loop iteration. The session goes from IDLE through CONNECTING to
      CONNECTED, the robot is announced ready exactly once, and the
      initialization burst is queued right behind one keepalive: the last
      send of a new client lies a day back, so the first iteration on the
      connected session finds a ping due. */
  method Handshake(now: int, signature: string)
    returns (trace: seq<ConnState>, events: seq<Event>, queued: seq<Packet>)
    ensures trace == [Idle, Connecting, Connected, Connected]
    ensures events == [Dispatched(Some(Packet(Connect, 1, 0, false))),
                       Dispatched(Some(Packet(FirmwareSignature(signature), 2, 0, false))),
                       RobotReady, RobotFound]
    ensures queued == [KeepAlive()] + InitBurst()
  {
    var client;
    client, trace := ConnectedClient(now);
    FirmwareArrives(client, now, signature);
    trace := trace + [client.state];
    events := client.events;
    queued := client.sendThread.queue;
  }
}

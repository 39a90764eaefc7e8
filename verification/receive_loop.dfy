/** The receive loop: it owns the receive window and an output queue of
    packets for the client. Socket reads, sender filtering and frame decoding
    are not modelled; one call of `HandleFrame` is one decoded datagram. */
module ReceiveLoop {
  import opened Protocol
  import opened Windows
  import opened ReceiveSpec

  class ReceiveThread {
    const window: ReceiveWindow
    /** Packets delivered to the client, oldest first. */
    var queue: seq<Packet>

    ghost predicate Valid()
      reads this, window
    {
      window.Valid()
    }

    /** The window and the output queue, as one value. */
    ghost function State(): RecvState
      reads this, window
    {
      RecvState(window.expected, window.buffer, queue)
    }

    constructor (windowSize: nat)
      ensures Valid() && fresh(window)
      ensures window.size == windowSize
      ensures State() == RecvState(1, map[], [])
    {
      window := new ReceiveWindow(windowSize);
      queue := [];
    }

    method HandleFrame(frame: Frame)
      requires Valid()
      modifies this, window
      ensures Valid()
      ensures State() == AdmitAll(window.size, old(State()), frame.pkts)
    {
      var i := 0;
      while i < |frame.pkts|
        invariant 0 <= i <= |frame.pkts|
        invariant Valid()
        invariant AdmitAll(window.size, State(), frame.pkts[i..]) ==
                  AdmitAll(window.size, old(State()), frame.pkts)
      {
        assert frame.pkts[i..][1..] == frame.pkts[i + 1..];
        HandlePkt(frame.pkts[i]);
        i := i + 1;
      }
    }

    method HandlePkt(pkt: Packet)
      requires Valid()
      modifies this, window
      ensures Valid()
      ensures State() == Admit(window.size, old(State()), pkt)
      // an out-of-band packet bypasses the window
      ensures pkt.oob ==>
        (queue == old(queue) + [pkt] &&
         window.expected == old(window.expected) && window.buffer == old(window.buffer))
      // a stale or duplicate ordered packet is dropped and changes nothing
      ensures !pkt.oob && (old(window.IsOutOfOrder(pkt.seqNum)) || old(window.Exists(pkt.seqNum))) ==>
        State() == old(State())
    {
      if pkt.oob {
        Deliver(pkt);
        return;
      }
      if window.IsOutOfOrder(pkt.seqNum) {
        return;
      }
      if window.Exists(pkt.seqNum) {
        return;
      }
      window.Put(pkt.seqNum, pkt);
      if window.IsExpected(pkt.seqNum) {
        DeliverSequence();
      }
    }

    /** Moves packets from the window to the queue until the window has
        nothing more in order. */
    method DeliverSequence()
      requires Valid()
      modifies this, window
      ensures Valid()
      ensures var d := Drain(old(window.expected), old(window.buffer));
        queue == old(queue) + d.released &&
        window.expected == d.expected && window.buffer == d.buffer
    {
      ghost var d0 := Drain(window.expected, window.buffer);
      while true
        invariant Valid()
        invariant queue + Drain(window.expected, window.buffer).released == old(queue) + d0.released
        invariant Drain(window.expected, window.buffer).expected == d0.expected
        invariant Drain(window.expected, window.buffer).buffer == d0.buffer
        decreases window.buffer.Keys
      {
        ghost var e, b := window.expected, window.buffer;
        DrainUnfold(e, b);
        var pkt := window.Get();
        if pkt.None? {
          break;
        }
        ghost var q := queue;
        ghost var rest := Drain(window.expected, window.buffer).released;
        assert Drain(e, b).released == [pkt.value] + rest;
        Deliver(pkt.value);
        assert queue + rest == q + ([pkt.value] + rest);
      }
    }

    method Deliver(pkt: Packet)
      modifies this
      ensures queue == old(queue) + [pkt]
    {
      queue := queue + [pkt];
    }

    method Reset()
      modifies window
      ensures Valid()
      ensures window.expected == 1 && window.buffer == map[]
    {
      window.Reset();
    }
  }
}

/** The send loop: it owns the send window, a queue of packets waiting to go
    out, the acknowledgement value piggybacked on outgoing frames and the time
    of the last transmission. One call of `Step` is one iteration of its run
    loop; the socket is the sequence `sent` of frames written to it. */
module SendLoop {
  import opened Protocol
  import opened Windows
  import opened ReceiveSpec

  /** The frame that carries `pkt`: a ping rides alone in a PING frame with
      sequence 0 outside the window; any other packet rides in an ENGINE
      frame under the sequence number the window hands out next. Either way
      the frame piggybacks `lastAck`. */
  function FrameFor(pkt: Packet, lastAck: int, nextSeq: int): (f: Frame)
    ensures f.ack == lastAck && f.pkts == [pkt]
    ensures f.ftype == PingFrame <==> pkt.body.Ping?
    ensures f.ftype == PingFrame || f.ftype == Engine
    ensures f.ftype == PingFrame ==> f.firstSeq == 0 && f.seqNum == 0
    ensures f.ftype == Engine ==> f.firstSeq == nextSeq && f.seqNum == nextSeq
  {
    if pkt.body.Ping? then Frame(PingFrame, 0, 0, lastAck, [pkt])
    else Frame(Engine, nextSeq, nextSeq, lastAck, [pkt])
  }

  /** The number of packets of `pkts` that take a window sequence number. */
  function Numbered(pkts: seq<Packet>): nat
  {
    if pkts == [] then 0 else (if pkts[0].body.Ping? then 0 else 1) + Numbered(pkts[1..])
  }

  /** The frames that a queue of packets goes out in, oldest first, when no
      write is interrupted and the window numbering starts at `nextSeq`. */
  function FrameQueue(pkts: seq<Packet>, lastAck: int, nextSeq: int): (fs: seq<Frame>)
    ensures |fs| == |pkts|
  {
    if pkts == [] then []
    else
      [FrameFor(pkts[0], lastAck, nextSeq)] +
      FrameQueue(pkts[1..], lastAck, if pkts[0].body.Ping? then nextSeq else nextSeq + 1)
  }

  /** The sequence numbers of the ENGINE frames of `frames`, in order. */
  function EngineSeqs(frames: seq<Frame>): seq<int>
  {
    if frames == [] then []
    else (if frames[0].ftype == Engine then [frames[0].seqNum] else []) + EngineSeqs(frames[1..])
  }

  lemma {:induction false} RangeCons(lo: int, hi: int)
    requires lo < hi
    ensures Range(lo, hi) == [lo] + Range(lo + 1, hi)
  {
    RangeSplit(lo, lo + 1, hi);
    assert Range(lo, lo + 1) == Range(lo, lo) + [lo];
  }

  /** Each packet of a queue goes out in a frame of its own, in queue order,
      with the same piggybacked ack, and the ENGINE frames carry the sequence
      numbers nextSeq, nextSeq + 1, ... in ascending order with no gap and
      no repeat: exactly the stream a receive window starting at nextSeq
      delivers in order. */
  lemma {:induction false} FrameQueueNumbering(pkts: seq<Packet>, lastAck: int, nextSeq: int)
    ensures forall i :: 0 <= i < |pkts| ==>
      FrameQueue(pkts, lastAck, nextSeq)[i].pkts == [pkts[i]] &&
      FrameQueue(pkts, lastAck, nextSeq)[i].ack == lastAck
    ensures EngineSeqs(FrameQueue(pkts, lastAck, nextSeq)) == Range(nextSeq, nextSeq + Numbered(pkts))
    decreases |pkts|
  {
    if pkts == [] {
      assert Range(nextSeq, nextSeq) == [];
    } else {
      var n' := if pkts[0].body.Ping? then nextSeq else nextSeq + 1;
      FrameQueueNumbering(pkts[1..], lastAck, n');
      var fs := FrameQueue(pkts, lastAck, nextSeq);
      assert fs[1..] == FrameQueue(pkts[1..], lastAck, n');
      forall i | 0 <= i < |pkts|
        ensures fs[i].pkts == [pkts[i]] && fs[i].ack == lastAck
      {
        if i > 0 {
          assert fs[i] == FrameQueue(pkts[1..], lastAck, n')[i - 1];
        }
      }
      if !pkts[0].body.Ping? {
        RangeCons(nextSeq, nextSeq + Numbered(pkts));
      }
    }
  }

  /** The packets a queue leaves in the send window, each non-ping packet
      filed under the sequence number its frame carries. */
  function Filed(pkts: seq<Packet>, nextSeq: int): map<int, Packet>
  {
    if pkts == [] then map[]
    else if pkts[0].body.Ping? then Filed(pkts[1..], nextSeq)
    else Filed(pkts[1..], nextSeq + 1)[nextSeq := pkts[0]]
  }

  /** The window keeps exactly the numbers nextSeq, ..., nextSeq +
      Numbered(pkts) - 1 for a queue, and the packet filed under the number
      of each ENGINE frame is the packet that frame carries: what is
      buffered is what went out, under the number it went out with. */
  lemma {:induction false} FiledNumbering(pkts: seq<Packet>, lastAck: int, nextSeq: int)
    ensures forall k :: k in Filed(pkts, nextSeq) <==> nextSeq <= k < nextSeq + Numbered(pkts)
    ensures forall i :: 0 <= i < |pkts| && !pkts[i].body.Ping? ==>
      FrameQueue(pkts, lastAck, nextSeq)[i].seqNum in Filed(pkts, nextSeq) &&
      Filed(pkts, nextSeq)[FrameQueue(pkts, lastAck, nextSeq)[i].seqNum] == pkts[i]
    decreases |pkts|
  {
    if pkts != [] {
      var n' := if pkts[0].body.Ping? then nextSeq else nextSeq + 1;
      FiledNumbering(pkts[1..], lastAck, n');
      FrameQueueNumbering(pkts, lastAck, nextSeq);
      var fs, m := FrameQueue(pkts, lastAck, nextSeq), Filed(pkts, nextSeq);
      assert fs[1..] == FrameQueue(pkts[1..], lastAck, n');
      forall i | 0 <= i < |pkts| && !pkts[i].body.Ping?
        ensures fs[i].seqNum in m && m[fs[i].seqNum] == pkts[i]
      {
        if i > 0 {
          assert fs[i] == FrameQueue(pkts[1..], lastAck, n')[i - 1];
          assert pkts[i] == pkts[1..][i - 1];
        }
      }
    }
  }

  /** Filing a non-ping packet under nextSeq, on a buffer whose numbers all
      lie below nextSeq, is the first step of filing the whole queue. */
  lemma FiledStep(b: map<int, Packet>, pkts: seq<Packet>, nextSeq: int)
    requires pkts != [] && !pkts[0].body.Ping?
    requires forall k :: k in b ==> k < nextSeq
    ensures b[nextSeq := pkts[0]] + Filed(pkts[1..], nextSeq + 1) == b + Filed(pkts, nextSeq)
  {
    FiledNumbering(pkts[1..], 0, nextSeq + 1);
    assert nextSeq !in Filed(pkts[1..], nextSeq + 1);
  }

  class SendThread {
    const window: SendWindow
    /** Packets waiting to be framed, oldest first. */
    var queue: seq<Packet>
    /** The acknowledgement number carried by every outgoing frame. */
    var lastAck: int
    /** The clock reading of the last successful transmission, if any. */
    var lastSendTimestamp: Option<int>
    /** Frames written to the socket, oldest first. */
    var sent: seq<Frame>

    ghost predicate Valid()
      reads this, window
    {
      window.Valid()
    }

    constructor (windowSize: nat)
      ensures Valid() && fresh(window)
      ensures window.size == windowSize
      ensures window.expected == 1 && window.nextSeq == 1 && window.buffer == map[]
      ensures queue == [] && lastAck == 1 && lastSendTimestamp == None && sent == []
    {
      window := new SendWindow(windowSize);
      queue := [];
      lastAck := 1;
      lastSendTimestamp := None;
      sent := [];
    }

    /** One iteration of the run loop at clock reading `now`. With an empty
        queue nothing happens. Otherwise the oldest packet is framed: a ping
        in a PING frame with sequence 0 that bypasses the window, any other
        packet in an ENGINE frame under the next sequence number of the
        window. `interrupted` says whether the socket write was interrupted,
        in which case the frame is lost and the send time is not updated. */
    method Step(now: int, interrupted: bool)
      requires Valid()
      modifies this, window
      ensures Valid()
      ensures lastAck == old(lastAck)
      ensures old(queue) == [] ==>
        queue == [] && sent == old(sent) && lastSendTimestamp == old(lastSendTimestamp) &&
        window.expected == old(window.expected) && window.nextSeq == old(window.nextSeq) &&
        window.buffer == old(window.buffer)
      ensures old(queue) != [] ==>
        queue == old(queue)[1..] &&
        lastSendTimestamp == (if interrupted then old(lastSendTimestamp) else Some(now)) &&
        sent == old(sent) +
          (if interrupted then [] else [FrameFor(old(queue)[0], old(lastAck), old(window.nextSeq))])
      ensures old(queue) != [] && old(queue)[0].body.Ping? ==>
        window.expected == old(window.expected) && window.nextSeq == old(window.nextSeq) &&
        window.buffer == old(window.buffer)
      ensures old(queue) != [] && !old(queue)[0].body.Ping? ==>
        window.expected == old(window.expected) && window.nextSeq == old(window.nextSeq) + 1 &&
        window.buffer == old(window.buffer)[old(window.nextSeq) := old(queue)[0]]
    {
      if queue == [] {
        return;
      }
      var pkt := queue[0];
      queue := queue[1..];

      var frame;
      if pkt.body.Ping? {
        frame := Frame(PingFrame, 0, 0, lastAck, [pkt]);
      } else {
        var sn := window.Put(pkt);
        frame := Frame(Engine, sn, sn, lastAck, [pkt]);
      }

      if interrupted {
        return;
      }
      sent := sent + [frame];
      lastSendTimestamp := Some(now);
    }

    /** The run loop until the queue is empty, at clock reading `now` and
        with no interrupted write: every queued packet goes out in the frame
        `FrameQueue` assigns it, and the window has numbered the non-ping
        ones. */
    method Run(now: int)
      requires Valid()
      modifies this, window
      ensures Valid()
      ensures queue == [] && lastAck == old(lastAck)
      ensures sent == old(sent) + FrameQueue(old(queue), lastAck, old(window.nextSeq))
      ensures window.expected == old(window.expected)
      ensures window.nextSeq == old(window.nextSeq) + Numbered(old(queue))
      ensures window.buffer == old(window.buffer) + Filed(old(queue), old(window.nextSeq))
      ensures old(queue) != [] ==> lastSendTimestamp == Some(now)
      ensures old(queue) == [] ==> lastSendTimestamp == old(lastSendTimestamp)
    {
      while queue != []
        invariant Valid()
        invariant lastAck == old(lastAck) && window.expected == old(window.expected)
        invariant sent + FrameQueue(queue, lastAck, window.nextSeq) ==
                  old(sent) + FrameQueue(old(queue), lastAck, old(window.nextSeq))
        invariant window.nextSeq + Numbered(queue) == old(window.nextSeq) + Numbered(old(queue))
        invariant window.buffer + Filed(queue, window.nextSeq) ==
                  old(window.buffer) + Filed(old(queue), old(window.nextSeq))
        invariant queue != old(queue) ==> lastSendTimestamp == Some(now)
        invariant queue == old(queue) ==> lastSendTimestamp == old(lastSendTimestamp)
        invariant |queue| <= |old(queue)|
        decreases |queue|
      {
        SendNext(now);
      }
    }

    /** One uninterrupted iteration of `Run`: the frames still to be written,
        the numbers still to be handed out and the packets still to be filed
        shrink by exactly what this iteration writes, numbers and files. */
    method SendNext(now: int)
      requires Valid() && queue != []
      modifies this, window
      ensures Valid()
      ensures queue == old(queue)[1..] && lastSendTimestamp == Some(now)
      ensures lastAck == old(lastAck) && window.expected == old(window.expected)
      ensures sent + FrameQueue(queue, lastAck, window.nextSeq) ==
              old(sent) + FrameQueue(old(queue), lastAck, old(window.nextSeq))
      ensures window.nextSeq + Numbered(queue) == old(window.nextSeq) + Numbered(old(queue))
      ensures window.buffer + Filed(queue, window.nextSeq) ==
              old(window.buffer) + Filed(old(queue), old(window.nextSeq))
    {
      ghost var q, n := queue, window.nextSeq;
      ghost var rest := FrameQueue(q[1..], lastAck, if q[0].body.Ping? then n else n + 1);
      assert FrameQueue(q, lastAck, n) == [FrameFor(q[0], lastAck, n)] + rest;
      if !q[0].body.Ping? {
        FiledStep(window.buffer, q, n);
      }
      Step(now, false);
      assert sent + rest == old(sent) + ([FrameFor(q[0], lastAck, n)] + rest);
    }

    method Send(pkt: Packet)
      modifies this
      ensures queue == old(queue) + [pkt]
      ensures lastAck == old(lastAck) && sent == old(sent) && lastSendTimestamp == old(lastSendTimestamp)
    {
      queue := queue + [pkt];
    }

    /** A cumulative acknowledgement: unless it is out of order, every packet
        with a sequence number up to `sn` leaves the window and every later
        one stays. */
    method Ack(sn: int)
      requires Valid()
      modifies window
      ensures Valid()
      ensures window.nextSeq == old(window.nextSeq)
      ensures old(window.IsOutOfOrder(sn)) ==>
        window.expected == old(window.expected) && window.buffer == old(window.buffer)
      ensures !old(window.IsOutOfOrder(sn)) ==>
        window.expected == sn + 1 &&
        (forall k :: k in window.buffer <==> k in old(window.buffer) && sn < k) &&
        (forall k :: k in window.buffer ==> window.buffer[k] == old(window.buffer)[k])
    {
      if window.IsOutOfOrder(sn) {
        return;
      }
      while window.expected <= sn
        invariant Valid()
        invariant old(window.expected) <= window.expected <= sn + 1
        invariant window.nextSeq == old(window.nextSeq)
        invariant forall k :: k in window.buffer <==> k in old(window.buffer) && window.expected <= k
        invariant forall k :: k in window.buffer ==> window.buffer[k] == old(window.buffer)[k]
        decreases sn - window.expected
      {
        var _ := window.Pop();
      }
    }

    method SetLastAck(ack: int)
      modifies this
      ensures lastAck == ack
      ensures queue == old(queue) && sent == old(sent) && lastSendTimestamp == old(lastSendTimestamp)
    {
      lastAck := ack;
    }

    /** Back to the state of a new send loop, keeping the queue. */
    method Reset()
      modifies this, window
      ensures Valid()
      ensures window.expected == 1 && window.nextSeq == 1 && window.buffer == map[]
      ensures lastAck == 1 && lastSendTimestamp == None
      ensures queue == old(queue) && sent == old(sent)
    {
      window.Reset();
      lastAck := 1;
      lastSendTimestamp := None;
    }
  }
}

/** What the receive loop does to its window and its output queue, as
    functions of the state it starts from, and the ordering guarantees that
    follow: the ordered stream handed to the client is exactly the sequence
    numbers from the start of the session, ascending, with no gap and no
    duplicate, whatever the order in which the packets arrived. */
module ReceiveSpec {
  import opened Protocol
  import opened Windows

  /** The receive window's expected sequence number and buffer, and the
      packets already handed to the output queue. */
  datatype RecvState = RecvState(expected: int, buffer: map<int, Packet>, out: seq<Packet>)

  /** The result of draining a window: the packets released in order, the new
      expected sequence number and what stays buffered. */
  datatype Drained = Drained(released: seq<Packet>, expected: int, buffer: map<int, Packet>)

  /** Repeated `get` from expected sequence number `e` until the first
      missing one. */
  function Drain(e: int, b: map<int, Packet>): Drained
    decreases b.Keys
  {
    if e in b then
      var rest := Drain(e + 1, b - {e});
      Drained([b[e]] + rest.released, rest.expected, rest.buffer)
    else
      Drained([], e, b)
  }

  /** A drain releases, in order, the packets buffered under e, e + 1, ...
      up to the first missing sequence number, stops there, and keeps
      buffered exactly the packets it did not release. */
  lemma {:induction false} DrainSpec(e: int, b: map<int, Packet>)
    ensures Drain(e, b).expected == e + |Drain(e, b).released|
    ensures forall i :: 0 <= i < |Drain(e, b).released| ==>
      e + i in b && Drain(e, b).released[i] == b[e + i]
    ensures forall k :: e <= k < Drain(e, b).expected ==> k in b
    ensures Drain(e, b).expected !in b
    ensures forall k :: k in Drain(e, b).buffer <==> k in b && !(e <= k < Drain(e, b).expected)
    ensures forall k :: k in Drain(e, b).buffer ==> Drain(e, b).buffer[k] == b[k]
    decreases b.Keys
  {
    if e in b {
      DrainSpec(e + 1, b - {e});
      var d, rest := Drain(e, b), Drain(e + 1, b - {e});
      forall i | 0 <= i < |d.released|
        ensures e + i in b && d.released[i] == b[e + i]
      {
        if i > 0 {
          assert d.released[i] == rest.released[i - 1];
        }
      }
    }
  }

  /** One step of a drain. */
  lemma DrainUnfold(e: int, b: map<int, Packet>)
    ensures e in b ==>
      Drain(e, b) == Drained([b[e]] + Drain(e + 1, b - {e}).released,
                             Drain(e + 1, b - {e}).expected, Drain(e + 1, b - {e}).buffer)
    ensures e !in b ==> Drain(e, b) == Drained([], e, b)
  {
  }

  /** One received packet: out-of-band packets go straight to the output; an
      ordered packet that is out of the window or already buffered is dropped;
      otherwise it is buffered, and if it is the expected one the window is
      drained into the output. */
  function Admit(size: nat, s: RecvState, p: Packet): RecvState
  {
    if p.oob then
      s.(out := s.out + [p])
    else if ReceiveOutOfOrder(s.expected, size, p.seqNum) || p.seqNum in s.buffer then
      s
    else
      var b := s.buffer[p.seqNum := p];
      if p.seqNum == s.expected then
        var d := Drain(s.expected, b);
        RecvState(d.expected, d.buffer, s.out + d.released)
      else
        s.(buffer := b)
  }

  /** The packets of one frame, handled front to back. */
  function AdmitAll(size: nat, s: RecvState, pkts: seq<Packet>): RecvState
    decreases |pkts|
  {
    if pkts == [] then s else AdmitAll(size, Admit(size, s, pkts[0]), pkts[1..])
  }

  /** The sequence numbers of the ordered (not out-of-band) packets of `out`. */
  function OrderedSeqs(out: seq<Packet>): seq<int>
  {
    if out == [] then []
    else OrderedSeqs(out[..|out| - 1]) + (if out[|out| - 1].oob then [] else [out[|out| - 1].seqNum])
  }

  /** lo, lo + 1, ..., hi - 1. */
  function Range(lo: int, hi: int): seq<int>
    decreases hi - lo
  {
    if hi <= lo then [] else Range(lo, hi - 1) + [hi - 1]
  }

  /** The receive-side invariant of a session that started at `start`: the
      ordered stream is start, ..., expected - 1, and every buffered packet
      is an ordered packet filed under its own sequence number, strictly
      after `expected` and inside the window. */
  ghost predicate StreamInv(size: nat, start: int, s: RecvState)
  {
    && start <= s.expected
    && OrderedSeqs(s.out) == Range(start, s.expected)
    && forall k :: k in s.buffer ==>
         s.buffer[k].seqNum == k && !s.buffer[k].oob && s.expected < k < s.expected + size
  }

  lemma {:induction false} OrderedSeqsAppend(a: seq<Packet>, b: seq<Packet>)
    ensures OrderedSeqs(a + b) == OrderedSeqs(a) + OrderedSeqs(b)
    decreases |b|
  {
    if b == [] {
      assert a + b == a;
    } else {
      var b' := b[..|b| - 1];
      assert (a + b)[..|a + b| - 1] == a + b';
      OrderedSeqsAppend(a, b');
    }
  }

  lemma {:induction false} RangeSplit(lo: int, mid: int, hi: int)
    requires lo <= mid <= hi
    ensures Range(lo, mid) + Range(mid, hi) == Range(lo, hi)
    decreases hi - mid
  {
    if mid < hi {
      RangeSplit(lo, mid, hi - 1);
      assert Range(mid, hi) == Range(mid, hi - 1) + [hi - 1];
      assert Range(lo, mid) + (Range(mid, hi - 1) + [hi - 1]) ==
             (Range(lo, mid) + Range(mid, hi - 1)) + [hi - 1];
    } else {
      assert Range(mid, hi) == [];
    }
  }

  /** A run of ordered packets whose sequence numbers count up from `e`
      contributes exactly e, e + 1, ... to the ordered stream. */
  lemma {:induction false} OrderedSeqsOfRun(r: seq<Packet>, e: int)
    requires forall i :: 0 <= i < |r| ==> !r[i].oob && r[i].seqNum == e + i
    ensures OrderedSeqs(r) == Range(e, e + |r|)
    decreases |r|
  {
    if r != [] {
      OrderedSeqsOfRun(r[..|r| - 1], e);
    }
  }

  /** Draining a window whose buffer holds exactly the n consecutive sequence
      numbers from `e` releases all n of them, in ascending order, and
      leaves the buffer empty. */
  lemma DrainComplete(e: int, n: nat, b: map<int, Packet>)
    requires forall k :: k in b <==> e <= k < e + n
    ensures |Drain(e, b).released| == n
    ensures forall i :: 0 <= i < n ==> Drain(e, b).released[i] == b[e + i]
    ensures Drain(e, b).expected == e + n && Drain(e, b).buffer == map[]
  {
    DrainSpec(e, b);
    var d := Drain(e, b);
    // the drain stops at the first gap, and the first gap is e + n
    assert !(e <= d.expected < e + n);
    // and e + n itself was never buffered, so the drain cannot pass it
    assert e + n !in b;
    assert d.expected == e + n;
    // everything buffered was released
    assert forall k :: k !in d.buffer;
  }

  /** From a buffer of ordered packets filed under their own numbers, a
      drain releases a run whose numbers count up from where it started. */
  lemma ReleasedRun(e: int, b: map<int, Packet>)
    requires forall k :: k in b ==> b[k].seqNum == k && !b[k].oob
    ensures forall i :: 0 <= i < |Drain(e, b).released| ==>
      !Drain(e, b).released[i].oob && Drain(e, b).released[i].seqNum == e + i
  {
    DrainSpec(e, b);
    var d := Drain(e, b);
    forall i | 0 <= i < |d.released|
      ensures !d.released[i].oob && d.released[i].seqNum == e + i
    {
      assert e + i in b;
    }
  }

  /** What a drain keeps buffered lies strictly after where it stopped and
      still inside the window that started at `e`. */
  lemma KeptAhead(size: nat, e: int, b: map<int, Packet>)
    requires forall k :: k in b ==> b[k].seqNum == k && !b[k].oob && e <= k < e + size
    ensures forall k :: k in Drain(e, b).buffer ==>
      Drain(e, b).buffer[k].seqNum == k && !Drain(e, b).buffer[k].oob &&
      Drain(e, b).expected < k < Drain(e, b).expected + size
  {
    DrainSpec(e, b);
    var d := Drain(e, b);
    forall k | k in d.buffer
      ensures d.buffer[k].seqNum == k && !d.buffer[k].oob && d.expected < k < d.expected + size
    {
      assert k in b && k != d.expected;
    }
  }

  /** Buffering the expected packet and draining keeps the stream invariant. */
  lemma DrainKeepsStream(size: nat, start: int, s: RecvState, p: Packet)
    requires StreamInv(size, start, s)
    requires !p.oob && p.seqNum == s.expected
    ensures StreamInv(size, start, Admit(size, s, p))
  {
    if ReceiveOutOfOrder(s.expected, size, p.seqNum) {
      return;
    }
    var b := s.buffer[p.seqNum := p];
    ReleasedRun(s.expected, b);
    KeptAhead(size, s.expected, b);
    DrainSpec(s.expected, b);
    var d := Drain(s.expected, b);
    OrderedSeqsOfRun(d.released, s.expected);
    OrderedSeqsAppend(s.out, d.released);
    RangeSplit(start, s.expected, d.expected);
  }

  /** Handling a packet keeps the stream invariant. */
  lemma AdmitKeepsStream(size: nat, start: int, s: RecvState, p: Packet)
    requires StreamInv(size, start, s)
    ensures StreamInv(size, start, Admit(size, s, p))
  {
    if p.oob {
      OrderedSeqsAppend(s.out, [p]);
      assert OrderedSeqs([p]) == [];
    } else if !ReceiveOutOfOrder(s.expected, size, p.seqNum) && p.seqNum !in s.buffer && p.seqNum == s.expected {
      DrainKeepsStream(size, start, s, p);
    }
  }

  /** With nothing buffered, the expected packet is delivered at once and
      the window moves on by one. */
  lemma AdmitExpected(size: nat, s: RecvState, p: Packet)
    requires size > 0 && s.buffer == map[]
    requires !p.oob && p.seqNum == s.expected
    ensures Admit(size, s, p) == RecvState(s.expected + 1, map[], s.out + [p])
  {
    var b := s.buffer[p.seqNum := p];
    DrainUnfold(s.expected, b);
    assert b - {s.expected} == map[];
    DrainUnfold(s.expected + 1, map[]);
  }

  /** Handling a whole frame keeps the stream invariant. */
  lemma {:induction false} AdmitAllKeepsStream(size: nat, start: int, s: RecvState, pkts: seq<Packet>)
    requires StreamInv(size, start, s)
    ensures StreamInv(size, start, AdmitAll(size, s, pkts))
    decreases |pkts|
  {
    if pkts != [] {
      AdmitKeepsStream(size, start, s, pkts[0]);
      AdmitAllKeepsStream(size, start, Admit(size, s, pkts[0]), pkts[1..]);
    }
  }

  /** A retransmitted ordered packet is never delivered twice: handling a
      packet with the same sequence number again, whatever else it carries,
      changes nothing. */
  lemma AdmitIdempotent(size: nat, s: RecvState, p: Packet, q: Packet)
    requires !p.oob && !q.oob && q.seqNum == p.seqNum
    ensures Admit(size, Admit(size, s, p), q) == Admit(size, s, p)
  {
    if !(ReceiveOutOfOrder(s.expected, size, p.seqNum) || p.seqNum in s.buffer) {
      var b := s.buffer[p.seqNum := p];
      if p.seqNum == s.expected {
        DrainSpec(s.expected, b);
      }
    }
  }

  /** Handling two batches of packets one after the other is handling them
      as one batch: what holds for the packets of one frame holds for
      packets spread over several frames. */
  lemma {:induction false} AdmitAllAppend(size: nat, s: RecvState, a: seq<Packet>, b: seq<Packet>)
    ensures AdmitAll(size, s, a + b) == AdmitAll(size, AdmitAll(size, s, a), b)
    decreases |a|
  {
    if a == [] {
      assert a + b == b;
    } else {
      assert (a + b)[1..] == a[1..] + b;
      AdmitAllAppend(size, Admit(size, s, a[0]), a[1..], b);
    }
  }

  /** The sequence numbers carried by `pkts`. */
  function Seqs(pkts: seq<Packet>): set<int>
  {
    if pkts == [] then {} else {pkts[0].seqNum} + Seqs(pkts[1..])
  }

  /** No two packets of `pkts` carry the same sequence number. */
  predicate DistinctSeqs(pkts: seq<Packet>)
  {
    pkts == [] || (pkts[0].seqNum !in Seqs(pkts[1..]) && DistinctSeqs(pkts[1..]))
  }

  /** The sequence numbers a session that started at `e` has seen so far:
      those already delivered and those still buffered. */
  ghost predicate Covers(e: int, s: RecvState, seen: set<int>)
  {
    forall k :: (k in s.buffer || e <= k < s.expected) <==> k in seen
  }

  /** The window never moves back. */
  lemma AdmitAdvances(size: nat, s: RecvState, p: Packet)
    ensures s.expected <= Admit(size, s, p).expected
  {
    if !p.oob && !ReceiveOutOfOrder(s.expected, size, p.seqNum) && p.seqNum !in s.buffer {
      DrainSpec(s.expected, s.buffer[p.seqNum := p]);
    }
  }

  /** An ordered packet inside the current window that has not been seen
      yet is admitted: it joins the seen sequence numbers, and nothing else
      does. */
  lemma AdmitCovers(size: nat, e: int, s: RecvState, seen: set<int>, p: Packet)
    requires StreamInv(size, e, s) && Covers(e, s, seen)
    requires !p.oob && !ReceiveOutOfOrder(s.expected, size, p.seqNum) && p.seqNum !in seen
    ensures Covers(e, Admit(size, s, p), seen + {p.seqNum})
  {
    var b := s.buffer[p.seqNum := p];
    if p.seqNum == s.expected {
      DrainSpec(s.expected, b);
      var d := Drain(s.expected, b);
      forall k
        ensures (k in d.buffer || e <= k < d.expected) <==> k in seen + {p.seqNum}
      {
        if s.expected <= k < d.expected {
          assert k in b;
        }
      }
    }
  }

  /** The same for a frame of distinct ordered packets not seen yet, all
      inside the window as it stands when the frame arrives. */
  lemma {:induction false} AdmitAllCovers(size: nat, e: int, s: RecvState, seen: set<int>, pkts: seq<Packet>)
    requires StreamInv(size, e, s) && Covers(e, s, seen)
    requires forall i :: 0 <= i < |pkts| ==> !pkts[i].oob
    requires forall k :: k in Seqs(pkts) ==> s.expected <= k < s.expected + size
    requires seen !! Seqs(pkts) && DistinctSeqs(pkts)
    ensures StreamInv(size, e, AdmitAll(size, s, pkts))
    ensures Covers(e, AdmitAll(size, s, pkts), seen + Seqs(pkts))
    decreases |pkts|
  {
    if pkts != [] {
      var p := pkts[0];
      AdmitCovers(size, e, s, seen, p);
      AdmitKeepsStream(size, e, s, p);
      AdmitAdvances(size, s, p);
      var s' := Admit(size, s, p);
      forall k | k in Seqs(pkts[1..])
        ensures s'.expected <= k < s'.expected + size
      {
        assert k in Seqs(pkts) && k !in seen + {p.seqNum};
      }
      AdmitAllCovers(size, e, s', seen + {p.seqNum}, pkts[1..]);
      assert seen + {p.seqNum} + Seqs(pkts[1..]) == seen + Seqs(pkts);
    }
  }

  /** Every packet of the output queue and of the buffer is drawn from P. */
  ghost predicate DrawnFrom(s: RecvState, P: seq<Packet>)
  {
    && (forall i :: 0 <= i < |s.out| ==> s.out[i] in P)
    && (forall k :: k in s.buffer ==> s.buffer[k] in P)
  }

  /** The receive loop only ever delivers or buffers packets it was given. */
  lemma AdmitDrawn(size: nat, s: RecvState, p: Packet, P: seq<Packet>)
    requires DrawnFrom(s, P) && p in P
    ensures DrawnFrom(Admit(size, s, p), P)
  {
    if !p.oob && !ReceiveOutOfOrder(s.expected, size, p.seqNum) && p.seqNum !in s.buffer
       && p.seqNum == s.expected {
      var b := s.buffer[p.seqNum := p];
      DrainSpec(s.expected, b);
      var d := Drain(s.expected, b);
      forall i | 0 <= i < |s.out + d.released|
        ensures (s.out + d.released)[i] in P
      {
        if i >= |s.out| {
          assert (s.out + d.released)[i] == d.released[i - |s.out|];
        }
      }
    }
  }

  lemma {:induction false} AdmitAllDrawn(size: nat, s: RecvState, pkts: seq<Packet>, P: seq<Packet>)
    requires DrawnFrom(s, P)
    requires forall i :: 0 <= i < |pkts| ==> pkts[i] in P
    ensures DrawnFrom(AdmitAll(size, s, pkts), P)
    decreases |pkts|
  {
    if pkts != [] {
      AdmitDrawn(size, s, pkts[0], P);
      AdmitAllDrawn(size, Admit(size, s, pkts[0]), pkts[1..], P);
    }
  }

  /** With no out-of-band packet in it, the ordered stream of a queue is
      the queue's own sequence numbers, one per packet. */
  lemma {:induction false} OrderedSeqsAllOrdered(out: seq<Packet>)
    requires forall i :: 0 <= i < |out| ==> !out[i].oob
    ensures |OrderedSeqs(out)| == |out|
    ensures forall i :: 0 <= i < |out| ==> OrderedSeqs(out)[i] == out[i].seqNum
    decreases |out|
  {
    if out != [] {
      OrderedSeqsAllOrdered(out[..|out| - 1]);
    }
  }

  lemma {:induction false} RangeIndex(lo: int, hi: int)
    requires lo <= hi
    ensures |Range(lo, hi)| == hi - lo
    ensures forall i :: 0 <= i < hi - lo ==> Range(lo, hi)[i] == lo + i
    decreases hi - lo
  {
    if lo < hi {
      RangeIndex(lo, hi - 1);
    }
  }

  lemma {:induction false} SeqsHas(pkts: seq<Packet>, p: Packet)
    requires p in pkts
    ensures p.seqNum in Seqs(pkts)
    decreases |pkts|
  {
    if pkts[0] != p {
      assert p in pkts[1..];
      SeqsHas(pkts[1..], p);
    }
  }

  /** Distinct sequence numbers identify the packets of a sequence. */
  lemma {:induction false} DistinctSeqsUnique(pkts: seq<Packet>, p: Packet, q: Packet)
    requires DistinctSeqs(pkts) && p in pkts && q in pkts && p.seqNum == q.seqNum
    ensures p == q
    decreases |pkts|
  {
    if p != pkts[0] && q != pkts[0] {
      assert p in pkts[1..] && q in pkts[1..];
      DistinctSeqsUnique(pkts[1..], p, q);
    } else if p != pkts[0] {
      assert p in pkts[1..];
      SeqsHas(pkts[1..], p);
    } else if q != pkts[0] {
      assert q in pkts[1..];
      SeqsHas(pkts[1..], q);
    }
  }

  /** Packets with the sequence numbers e, ..., e + n - 1, each once, all
      inside the window, handed to a fresh window in ANY order: the window
      ends empty and expecting e + n, and the ordered stream it delivered is
      exactly e, ..., e + n - 1 in ascending order: the packets handed in,
      each delivered once, sorted by sequence number. */
  lemma DeliversAllInOrder(size: nat, e: int, n: nat, pkts: seq<Packet>)
    requires n <= size
    requires forall i :: 0 <= i < |pkts| ==> !pkts[i].oob
    requires DistinctSeqs(pkts)
    requires forall k :: k in Seqs(pkts) <==> e <= k < e + n
    ensures AdmitAll(size, RecvState(e, map[], []), pkts).expected == e + n
    ensures AdmitAll(size, RecvState(e, map[], []), pkts).buffer == map[]
    ensures OrderedSeqs(AdmitAll(size, RecvState(e, map[], []), pkts).out) == Range(e, e + n)
    ensures |AdmitAll(size, RecvState(e, map[], []), pkts).out| == n
    ensures forall i :: 0 <= i < n ==>
      AdmitAll(size, RecvState(e, map[], []), pkts).out[i] in pkts &&
      AdmitAll(size, RecvState(e, map[], []), pkts).out[i].seqNum == e + i
    ensures forall p :: p in pkts ==> p in AdmitAll(size, RecvState(e, map[], []), pkts).out
  {
    var s0 := RecvState(e, map[], []);
    AdmitAllCovers(size, e, s0, {}, pkts);
    var s := AdmitAll(size, s0, pkts);
    assert {} + Seqs(pkts) == Seqs(pkts);
    // the first sequence number not delivered is not buffered either, so
    // it lies outside e, ..., e + n - 1
    assert s.expected !in s.buffer;
    assert e + n !in Seqs(pkts);
    assert s.expected == e + n;
    assert forall k :: k in s.buffer ==> s.expected < k;
    AdmitAllDrawn(size, s0, pkts, pkts);
    SortedInput(e, n, pkts, s.out);
  }

  /** An ordered stream e, ..., e + n - 1 made only of packets drawn from a
      set of packets that carry exactly those numbers, each once, is that
      set of packets, each once, sorted by sequence number. */
  lemma SortedInput(e: int, n: nat, pkts: seq<Packet>, out: seq<Packet>)
    requires forall i :: 0 <= i < |pkts| ==> !pkts[i].oob
    requires DistinctSeqs(pkts)
    requires forall k :: k in Seqs(pkts) <==> e <= k < e + n
    requires forall i :: 0 <= i < |out| ==> out[i] in pkts
    requires OrderedSeqs(out) == Range(e, e + n)
    ensures |out| == n
    ensures forall i :: 0 <= i < n ==> out[i] in pkts && out[i].seqNum == e + i
    ensures forall p :: p in pkts ==> p in out
  {
    OrderedSeqsAllOrdered(out);
    RangeIndex(e, e + n);
    forall p | p in pkts
      ensures p in out
    {
      SeqsHas(pkts, p);
      var i := p.seqNum - e;
      assert out[i].seqNum == p.seqNum;
      DistinctSeqsUnique(pkts, out[i], p);
    }
  }
}

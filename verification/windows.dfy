/** The two sliding windows that the receive and send loops own.

    The window implementation (pycozmo/window.py) is not part of this model.
    The classes below give it the smallest behaviour that agrees with every
    use client.py makes of it; each method's contract is the assumption the
    loops rely on. Sequence numbers are unbounded integers: the 16-bit
    numbering the client configures (`seq_bits`) and its wraparound are not
    modelled. */
module Windows {
  import opened Protocol

  /** The receive window accepts a sequence number only inside
      [expected, expected + size); anything else is out of order. */
  predicate ReceiveOutOfOrder(expected: int, size: nat, sn: int)
  {
    sn < expected || expected + size <= sn
  }

  class ReceiveWindow {
    const size: nat
    var expected: int
    var buffer: map<int, Packet>

    /** Every buffered sequence number lies inside the window. */
    ghost predicate Valid()
      reads this
    {
      forall k :: k in buffer ==> expected <= k < expected + size
    }

    constructor (size: nat)
      ensures Valid()
      ensures this.size == size && expected == 1 && buffer == map[]
    {
      this.size := size;
      expected := 1;
      buffer := map[];
    }

    /** A sequence number is accepted only if it is not behind `expected`
        and less than `size` ahead of it. */
    predicate IsOutOfOrder(sn: int): (r: bool)
      reads this
      ensures !r <==> expected <= sn < expected + size
    {
      ReceiveOutOfOrder(expected, size, sn)
    }

    /** Whether a packet is already buffered under `sn`; a buffered number
        always lies inside the window. */
    predicate Exists(sn: int): (r: bool)
      reads this
      ensures r <==> sn in buffer
      ensures r && Valid() ==> !IsOutOfOrder(sn)
    {
      sn in buffer
    }

    /** Whether `sn` is the number the window releases next; that number is
        in the window exactly when the window is not empty. */
    predicate IsExpected(sn: int): (r: bool)
      reads this
      ensures r <==> sn == expected
      ensures r ==> (!IsOutOfOrder(sn) <==> size > 0)
    {
      sn == expected
    }

    /** Buffers `pkt` under `sn`; the caller has already ruled out an
        out-of-order or duplicate sequence number. */
    method Put(sn: int, pkt: Packet)
      requires Valid()
      requires !IsOutOfOrder(sn) && !Exists(sn)
      modifies this
      ensures Valid()
      ensures expected == old(expected) && buffer == old(buffer)[sn := pkt]
    {
      buffer := buffer[sn := pkt];
    }

    /** Releases the packet at `expected` and advances past it, or returns
        None when that sequence number has not arrived yet. */
    method Get() returns (r: Option<Packet>)
      requires Valid()
      modifies this
      ensures Valid()
      ensures old(expected) in old(buffer) ==>
        r == Some(old(buffer)[old(expected)]) &&
        expected == old(expected) + 1 && buffer == old(buffer) - {old(expected)}
      ensures old(expected) !in old(buffer) ==>
        r == None && expected == old(expected) && buffer == old(buffer)
    {
      if expected in buffer {
        r := Some(buffer[expected]);
        buffer := buffer - {expected};
        expected := expected + 1;
      } else {
        r := None;
      }
    }

    method Reset()
      modifies this
      ensures Valid()
      ensures expected == 1 && buffer == map[]
    {
      expected := 1;
      buffer := map[];
    }
  }

  class SendWindow {
    const size: nat
    /** The lowest sequence number not yet acknowledged. */
    var expected: int
    /** The sequence number the next `Put` hands out. */
    var nextSeq: int
    var buffer: map<int, Packet>

    /** The buffer holds exactly the unacknowledged sequence numbers. */
    ghost predicate Valid()
      reads this
    {
      expected <= nextSeq &&
      forall k :: k in buffer <==> expected <= k < nextSeq
    }

    constructor (size: nat)
      ensures Valid()
      ensures this.size == size && expected == 1 && nextSeq == 1 && buffer == map[]
    {
      this.size := size;
      expected, nextSeq := 1, 1;
      buffer := map[];
    }

    /** An acknowledgement is out of order unless it names a packet that was
        sent and is still unacknowledged: one behind `expected` and one
        beyond the last number handed out are both rejected. */
    predicate IsOutOfOrder(sn: int): (r: bool)
      reads this
      ensures !r <==> expected <= sn < nextSeq
      ensures Valid() ==> (!r <==> sn in buffer)
    {
      !(expected <= sn < nextSeq)
    }

    /** Assigns the next sequence number to `pkt` and buffers it. No capacity
        check: the window-full back-pressure of the send loop is disabled. */
    method Put(pkt: Packet) returns (sn: int)
      requires Valid()
      modifies this
      ensures Valid()
      ensures sn == old(nextSeq) && nextSeq == sn + 1 && expected == old(expected)
      ensures buffer == old(buffer)[sn := pkt]
    {
      sn := nextSeq;
      buffer := buffer[sn := pkt];
      nextSeq := nextSeq + 1;
    }

    /** Drops the oldest unacknowledged packet and advances `expected`. */
    method Pop() returns (pkt: Packet)
      requires Valid() && expected < nextSeq
      modifies this
      ensures Valid()
      ensures pkt == old(buffer)[old(expected)]
      ensures expected == old(expected) + 1 && nextSeq == old(nextSeq)
      ensures buffer == old(buffer) - {old(expected)}
    {
      pkt := buffer[expected];
      buffer := buffer - {expected};
      expected := expected + 1;
    }

    method Reset()
      modifies this
      ensures Valid()
      ensures expected == 1 && nextSeq == 1 && buffer == map[]
    {
      expected, nextSeq := 1, 1;
      buffer := map[];
    }
  }
}

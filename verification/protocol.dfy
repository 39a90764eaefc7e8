/** Packets and frames as the transport core sees them.

    A packet is one protocol message; a frame is one datagram payload that
    carries a frame type, the sequence and acknowledgement fields, and the
    packets themselves. The wire encoding of both lives in modules that are
    not part of this model, so here they are plain values. */
module Protocol {

  newtype byte = x: int | 0 <= x < 256

  datatype Option<+T> = None | Some(value: T)

  /** The packet kinds the client itself builds or reacts to; every other
      kind is carried as `Other`, keeping its numeric id and raw payload. */
  datatype Body =
    | Connect
    | Disconnect
    | Ping(args: seq<int>)
    | FirmwareSignature(signature: string)
    | NextFrame
    | DisplayImage(image: seq<byte>)
    | UnknownCommand(id: int, data: seq<byte>)
    | Other(id: int, payload: seq<byte>)

  /** A packet with the sequence and acknowledgement numbers the frame decoder
      attaches to it, and its own answer to "am I out-of-band?". */
  datatype Packet = Packet(body: Body, seqNum: int, ack: int, oob: bool)

  datatype FrameType = Reset | Engine | PingFrame | DisconnectFrame

  datatype Frame = Frame(ftype: FrameType, firstSeq: int, seqNum: int, ack: int, pkts: seq<Packet>)

  /** A packet the client creates for sending: its sequence and ack fields are
      still zero; pings are the out-of-band kind among them. */
  function Outgoing(body: Body): Packet
  {
    Packet(body, 0, 0, body.Ping?)
  }
}

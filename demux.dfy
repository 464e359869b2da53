/** The decisions `Servidor._rdt_rcv` takes on an inbound segment before it
    touches any state: whether the segment is ours at all, and which of the
    three branches (open, forward, unknown) handles it. */
module Demux {
  import opened Segments

  /** What the listener does with an inbound segment. */
  datatype Disposition =
    | Discard             // wrong port or failed checksum: dropped silently
    | Open(id: ConnId)     // SYN: (re)create the connection `id` and answer SYN|ACK
    | Forward(id: ConnId)  // known connection: hand the segment to it
    | Unknown(id: ConnId)  // no such connection: dropped with a diagnostic

  /** `(src_addr, src_port, dst_addr, dst_port)` */
  function IdOf(srcAddr: Addr, dstAddr: Addr, seg: Segment): ConnId {
    ConnId(srcAddr, seg.srcPort, dstAddr, seg.dstPort)
  }

  /** The branch of `Servidor._rdt_rcv` a segment takes, given the listener's
      port, whether checksums are checked (`not rede.ignore_checksum`), the
      checksum verdict and the identifiers already in the table. */
  function Classify(porta: int, checkChecksum: bool, checksumOk: bool,
                    srcAddr: Addr, dstAddr: Addr, seg: Segment, known: set<ConnId>): (r: Disposition)
    ensures r == Discard <==> seg.dstPort != porta || (checkChecksum && !checksumOk)
    ensures r != Discard ==> r.id == IdOf(srcAddr, dstAddr, seg)
    // SYN wins over an existing entry for the same identifier
    ensures r.Open? <==> r != Discard && HasFlag(seg.flags, FlagSyn)
    ensures r.Forward? <==> r != Discard && !HasFlag(seg.flags, FlagSyn) && IdOf(srcAddr, dstAddr, seg) in known
    ensures r.Unknown? <==> r != Discard && !HasFlag(seg.flags, FlagSyn) && IdOf(srcAddr, dstAddr, seg) !in known
  {
    if seg.dstPort != porta then Discard
    else if checkChecksum && !checksumOk then Discard
    else if HasFlag(seg.flags, FlagSyn) then Open(IdOf(srcAddr, dstAddr, seg))
    else if IdOf(srcAddr, dstAddr, seg) in known then Forward(IdOf(srcAddr, dstAddr, seg))
    else Unknown(IdOf(srcAddr, dstAddr, seg))
  }

  /** The initial sequence number `randbits(31) + FLAGS_SYN + 1` for random bits `bits`. */
  function InitialSeq(bits: int): (r: int)
    requires 0 <= bits < 0x8000_0000
    ensures 3 <= r < 0x8000_0003
  {
    bits + FlagSyn as int + 1
  }

  /** The SYN|ACK reply to a SYN carrying sequence number `peerSeq`: it
      acknowledges peerSeq + 1 and carries our chosen sequence number. */
  function Handshake(porta: int, peerPort: int, ourSeq: int, peerSeq: int): (r: Segment)
    ensures HasFlag(r.flags, FlagSyn) && HasFlag(r.flags, FlagAck) && !HasFlag(r.flags, FlagFin)
    ensures r.ackNo == peerSeq + 1 && r.seqNo == ourSeq
    ensures r.srcPort == porta && r.dstPort == peerPort && r.payload == []
  {
    Segment(porta, peerPort, ourSeq, peerSeq + 1, FlagSyn | FlagAck, [])
  }
}

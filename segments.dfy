/** The values exchanged with the network layer. The header codec of tcputils
    (read_header, make_header, fix_checksum) is not part of this model: a
    segment is the decoded record itself, and a checksum verdict travels
    beside it. */
module Segments {

  datatype Option<T> = None | Some(value: T)

  type Bytes = seq<bv8>

  /** Flag bits of the header. tcputils is not part of this model; these are
      assumed to be the standard TCP header bits. */
  const FlagFin: bv16 := 1
  const FlagSyn: bv16 := 2
  const FlagAck: bv16 := 16

  /** Largest payload carried by one segment, assumed to be 1460 as tcputils
      is not part of this model. The proofs about enviar use only MSS > 0. */
  const MSS: nat := 1460

  /** `(flags & f) == f` */
  predicate HasFlag(flags: bv16, f: bv16) {
    flags & f == f
  }

  /** A decoded segment: the header fields the core reads or writes, and the payload. */
  datatype Segment = Segment(srcPort: int, dstPort: int, seqNo: int, ackNo: int, flags: bv16, payload: Bytes)

  type Addr = string

  /** The connection identifier `(src_addr, src_port, dst_addr, dst_port)` of an inbound
      segment: the peer's address and port first, then ours. */
  datatype ConnId = ConnId(remoteAddr: Addr, remotePort: int, localAddr: Addr, localPort: int)

  /** One call of the network layer's `enviar(segment, dest_addr)`. */
  datatype Outbound = Outbound(seg: Segment, dest: Addr)

  /** Every segment in `segs`, sent to the peer of connection `id`. */
  function ToPeer(id: ConnId, segs: seq<Segment>): seq<Outbound> {
    seq(|segs|, k requires 0 <= k < |segs| => Outbound(segs[k], id.remoteAddr))
  }

  lemma ToPeerAppend(id: ConnId, segs: seq<Segment>, seg: Segment)
    ensures ToPeer(id, segs + [seg]) == ToPeer(id, segs) + [Outbound(seg, id.remoteAddr)]
  {
    var a, b := ToPeer(id, segs + [seg]), ToPeer(id, segs) + [Outbound(seg, id.remoteAddr)];
    assert |a| == |b|;
    forall k | 0 <= k < |a| ensures a[k] == b[k] {
      if k < |segs| {
        assert (segs + [seg])[k] == segs[k];
      }
    }
  }
}

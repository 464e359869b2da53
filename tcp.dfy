/** The two classes of tcp.py over a network layer. Servidor owns the table
    of connections; each Conexao updates its counters, its retransmission
    buffer and its congestion counter in place. Every operation is proved to
    follow the value-level functions of ConnectionSpec and Demux. */
module Tcp {
  import opened Segments
  import opened ConnectionSpec
  import opened Demux

  /** The network layer: its `ignore_checksum` setting, and the log of every
      segment handed to `enviar`, in order. */
  class Rede {
    const ignoreChecksum: bool
    ghost var sent: seq<Outbound>

    constructor (ignoreChecksum: bool)
      ensures this.ignoreChecksum == ignoreChecksum && sent == []
    {
      this.ignoreChecksum := ignoreChecksum;
      sent := [];
    }

    /** `rede.enviar(segment, dest_addr)` */
    method Transmit(seg: Segment, dest: Addr)
      modifies this
      ensures sent == old(sent) + [Outbound(seg, dest)]
    {
      sent := sent + [Outbound(seg, dest)];
    }
  }

  /** The listener: demultiplexes inbound segments into the connection table. */
  class Servidor {
    const rede: Rede
    const porta: int
    var conexoes: map<ConnId, Conexao>
    var hasCallback: bool
    /** Every connection passed to the accepted-connections callback, in order. */
    ghost var accepted: seq<Conexao>

    /** Each table entry is a valid connection of this listener, stored under its own identifier. */
    ghost predicate Valid()
      reads this, conexoes.Values
    {
      forall k :: k in conexoes ==>
        conexoes[k].servidor == this && conexoes[k].id == k && conexoes[k].Valid()
    }

    constructor (rede: Rede, porta: int)
      ensures this.rede == rede && this.porta == porta
      ensures conexoes == map[] && !hasCallback && accepted == []
      ensures Valid()
    {
      this.rede := rede;
      this.porta := porta;
      conexoes := map[];
      hasCallback := false;
      accepted := [];
    }

    /** `registrar_monitor_de_conexoes_aceitas` */
    method RegisterAcceptedMonitor()
      modifies this
      ensures hasCallback && conexoes == old(conexoes) && accepted == old(accepted)
    {
      hasCallback := true;
    }

    /** What `_rdt_rcv` does with a segment in the current table. */
    ghost function Disposition(srcAddr: Addr, dstAddr: Addr, seg: Segment, checksumOk: bool): Disposition
      reads this
    {
      Classify(porta, !rede.ignoreChecksum, checksumOk, srcAddr, dstAddr, seg, conexoes.Keys)
    }

    /** The connection a segment is addressed to, if the table has one. */
    function Target(srcAddr: Addr, dstAddr: Addr, seg: Segment): set<Conexao>
      reads this
    {
      var k := IdOf(srcAddr, dstAddr, seg);
      if k in conexoes then {conexoes[k]} else {}
    }

    /** `Servidor._rdt_rcv(src_addr, dst_addr, segment)`; `checksumOk` is the
        verdict of calc_checksum and `isnBits` the value of randbits(31). */
    method Receive(srcAddr: Addr, dstAddr: Addr, seg: Segment, checksumOk: bool, isnBits: int)
      returns (outcome: Outcome)
      requires Valid()
      requires 0 <= isnBits < 0x8000_0000
      modifies this, rede, Target(srcAddr, dstAddr, seg)
      ensures Valid()
      ensures hasCallback == old(hasCallback)
      // a misdirected or corrupt segment, or one for no known connection, changes nothing
      ensures old(Disposition(srcAddr, dstAddr, seg, checksumOk)) in {Discard, Unknown(IdOf(srcAddr, dstAddr, seg))} ==>
        conexoes == old(conexoes) && rede.sent == old(rede.sent) && accepted == old(accepted) &&
        outcome == Completed
      // a SYN installs a fresh connection under its identifier and answers SYN|ACK
      ensures var id := IdOf(srcAddr, dstAddr, seg);
        old(Disposition(srcAddr, dstAddr, seg, checksumOk)) == Open(id) ==>
          id in conexoes && fresh(conexoes[id]) &&
          conexoes == old(conexoes)[id := conexoes[id]] &&
          conexoes[id].State() == Initial(InitialSeq(isnBits), seg.seqNo + 1) &&
          conexoes[id].delivered == [] &&
          rede.sent == old(rede.sent) + [Outbound(Handshake(porta, seg.srcPort, InitialSeq(isnBits), seg.seqNo), srcAddr)] &&
          accepted == old(accepted) + (if hasCallback then [conexoes[id]] else []) &&
          outcome == Completed
      // a segment of a known connection is handled by that connection alone
      ensures var id := IdOf(srcAddr, dstAddr, seg);
        old(Disposition(srcAddr, dstAddr, seg, checksumOk)) == Forward(id) ==>
          conexoes == old(conexoes) && accepted == old(accepted) && id in conexoes &&
          var step := ConnectionSpec.Receive(id, old(conexoes[id].State()), seg.seqNo, seg.ackNo, seg.flags, seg.payload);
          conexoes[id].State() == step.st &&
          conexoes[id].delivered == old(conexoes[id].delivered) + step.delivered &&
          rede.sent == old(rede.sent) + ToPeer(id, step.sent) &&
          outcome == step.outcome
      // only a forwarded segment touches a stored connection, and only its own
      ensures forall k ::
        (k in old(conexoes) &&
         (k != IdOf(srcAddr, dstAddr, seg) || !old(Disposition(srcAddr, dstAddr, seg, checksumOk)).Forward?))
        ==> unchanged(old(conexoes)[k])
    {
      if seg.dstPort != porta {
        return Completed;
      }
      if !rede.ignoreChecksum && !checksumOk {
        return Completed;
      }
      var id := IdOf(srcAddr, dstAddr, seg);
      if HasFlag(seg.flags, FlagSyn) {
        Accept(id, srcAddr, seg, isnBits);
        outcome := Completed;
      } else if id in conexoes {
        outcome := conexoes[id].Receive(seg.seqNo, seg.ackNo, seg.flags, seg.payload);
      } else {
        outcome := Completed;
      }
    }

    /** The SYN branch of `_rdt_rcv`: a new connection replaces any entry for
        `id`, the SYN|ACK goes out, and the callback (if any) sees it. */
    method Accept(id: ConnId, srcAddr: Addr, seg: Segment, isnBits: int)
      requires Valid()
      requires 0 <= isnBits < 0x8000_0000
      modifies this, rede
      ensures Valid()
      ensures hasCallback == old(hasCallback)
      ensures id in conexoes && fresh(conexoes[id])
      ensures conexoes == old(conexoes)[id := conexoes[id]]
      ensures conexoes[id].State() == Initial(InitialSeq(isnBits), seg.seqNo + 1)
      ensures conexoes[id].delivered == []
      ensures rede.sent == old(rede.sent) + [Outbound(Handshake(porta, seg.srcPort, InitialSeq(isnBits), seg.seqNo), srcAddr)]
      ensures accepted == old(accepted) + (if hasCallback then [conexoes[id]] else [])
    {
      var newSeq := InitialSeq(isnBits);
      var conexao := new Conexao(this, id, newSeq, seg.seqNo + 1);
      conexoes := conexoes[id := conexao];
      rede.Transmit(Handshake(porta, seg.srcPort, newSeq, seg.seqNo), srcAddr);
      if hasCallback {
        accepted := accepted + [conexao];
      }
    }

    /** `Servidor.close(id_conexao)`: `del self.conexoes[id_conexao]`, which
        raises KeyError for an identifier not in the table. */
    method Close(id: ConnId) returns (outcome: Outcome)
      modifies this
      ensures id in old(conexoes) ==> conexoes == old(conexoes) - {id} && outcome == Completed
      ensures id !in old(conexoes) ==> conexoes == old(conexoes) && outcome == Raised(KeyError)
      ensures hasCallback == old(hasCallback) && accepted == old(accepted)
      ensures old(Valid()) ==> Valid()
    {
      if id !in conexoes {
        return Raised(KeyError);
      }
      conexoes := conexoes - {id};
      return Completed;
    }
  }

  /** One connection: its counters, its retransmission buffer and its
      congestion counter, updated in place. */
  class Conexao {
    const servidor: Servidor
    const id: ConnId
    var seqNo: int
    var ackNo: int
    var buffer: seq<Entry>
    var cwnd: int
    var hasTimer: bool
    var hasCallback: bool
    /** Every payload passed to the receive callback, in order. */
    ghost var delivered: seq<Bytes>

    function State(): ConnState
      reads this
    {
      ConnState(seqNo, ackNo, buffer, cwnd, hasTimer, hasCallback)
    }

    ghost predicate Valid()
      reads this
    {
      ConnValid(State())
    }

    /** `Conexao.__init__(servidor, id_conexao, seq_no, ack_no)` */
    constructor (servidor: Servidor, id: ConnId, seqNo: int, ackNo: int)
      ensures this.servidor == servidor && this.id == id
      ensures State() == Initial(seqNo, ackNo) && delivered == []
      ensures Valid()
    {
      this.servidor := servidor;
      this.id := id;
      this.seqNo := seqNo;
      this.ackNo := ackNo;
      buffer := [];
      cwnd := 1;
      hasTimer := false;
      hasCallback := false;
      delivered := [];
    }

    /** `registrar_recebedor` */
    method RegisterReceiver()
      modifies this
      ensures State() == old(State()).(hasCallback := true) && delivered == old(delivered)
    {
      hasCallback := true;
    }

    /** `_get_idx_inQ(acked_pkt)`: the index of the first buffered packet whose
        sequence number is at most `acked`. */
    method IndexInQueue(acked: int) returns (idx: Option<nat>)
      ensures idx == FirstCovered(buffer, acked)
    {
      var i := 0;
      while i < |buffer|
        invariant 0 <= i <= |buffer|
        invariant forall j :: 0 <= j < i ==> acked < buffer[j].pkt.seqNo
      {
        if acked >= buffer[i].pkt.seqNo {
          return Some(i);
        }
        i := i + 1;
      }
      return None;
    }

    /** Lines 122-133 of `_rdt_rcv`: retire what a pure ACK acknowledges. */
    method RetireAcked(segAck: int) returns (outcome: Outcome)
      modifies this
      ensures State() == PureAck(old(State()), segAck).st
      ensures outcome == PureAck(old(State()), segAck).outcome
      ensures delivered == old(delivered)
    {
      if |buffer| == 0 {
        return Completed;
      }
      if !hasTimer {
        return Raised(AttributeError);
      }
      var idx := IndexInQueue(segAck);
      if idx.None? {
        return Raised(TypeError);
      }
      var i := idx.value;
      if buffer[i].sentAt.Some? {
        cwnd := cwnd + 1;
      }
      buffer := buffer[i + 1..];
      return Completed;
    }

    /** Lines 139-148 of `_rdt_rcv`: acknowledge the new ack_no and hand `data`
        to the receive callback. */
    method AcknowledgeAndDeliver(data: Bytes) returns (outcome: Outcome)
      modifies this, servidor.rede
      ensures var step := Acknowledge(id, old(State()), data);
        State() == old(State()) &&
        delivered == old(delivered) + step.delivered &&
        servidor.rede.sent == old(servidor.rede.sent) + ToPeer(id, step.sent) &&
        outcome == step.outcome
    {
      var ack := AckFor(id, State());
      servidor.rede.Transmit(ack, id.remoteAddr);
      assert ToPeer(id, [ack]) == [Outbound(ack, id.remoteAddr)];
      if !hasCallback {
        return Raised(TypeError);
      }
      delivered := delivered + [data];
      return Completed;
    }

    /** `Conexao._rdt_rcv(seq_no, ack_no, flags, payload)` */
    method Receive(segSeq: int, segAck: int, flags: bv16, payload: Bytes) returns (outcome: Outcome)
      requires Valid()
      modifies this, servidor.rede
      ensures Valid()
      ensures var step := ConnectionSpec.Receive(id, old(State()), segSeq, segAck, flags, payload);
        State() == step.st &&
        delivered == old(delivered) + step.delivered &&
        servidor.rede.sent == old(servidor.rede.sent) + ToPeer(id, step.sent) &&
        outcome == step.outcome
    {
      ghost var st := State();
      if ackNo != segSeq {
        outcome := Completed;
        assert ToPeer(id, []) == [];
      } else if HasFlag(flags, FlagFin) {
        ackNo := ackNo + 1;
        outcome := AcknowledgeAndDeliver([]);
      } else if |payload| == 0 {
        outcome := RetireAcked(segAck);
        assert ToPeer(id, []) == [];
      } else {
        ackNo := ackNo + |payload|;
        outcome := AcknowledgeAndDeliver(payload);
      }
      assert State() == ConnectionSpec.Receive(id, st, segSeq, segAck, flags, payload).st;
      assert Valid() by {
        ReceiveKeepsValid(id, st, segSeq, segAck, flags, payload);
      }
    }

    /** `Conexao._timeout()` */
    method Timeout() returns (outcome: Outcome)
      requires Valid()
      modifies this, servidor.rede
      ensures Valid()
      ensures var step := ConnectionSpec.Timeout(old(State()));
        State() == step.st &&
        delivered == old(delivered) &&
        servidor.rede.sent == old(servidor.rede.sent) + ToPeer(id, step.sent) &&
        outcome == step.outcome
    {
      TimeoutKeepsValid(State());
      if cwnd > 1 {
        cwnd := cwnd / 2;
      }
      if |buffer| == 0 {
        return Raised(IndexError);
      }
      var package := buffer[0].pkt;
      buffer := buffer[0 := Entry(package, None)];
      servidor.rede.Transmit(package, id.remoteAddr);
      hasTimer := true;
      assert State() == ConnectionSpec.Timeout(old(State())).st;
      return Completed;
    }

    /** One level of `enviar`'s recursion (lines 164-171) for `chunk == dados[:MSS]`. */
    method SendChunk(chunk: Bytes, now: int)
      modifies this, servidor.rede
      ensures var seg := DataSegment(id, old(seqNo), old(ackNo), chunk);
        buffer == old(buffer) + [Entry(seg, Some(now))] &&
        servidor.rede.sent == old(servidor.rede.sent) + [Outbound(seg, id.remoteAddr)]
      ensures seqNo == old(seqNo) + |chunk| && hasTimer
      ensures ackNo == old(ackNo) && cwnd == old(cwnd) && hasCallback == old(hasCallback)
      ensures delivered == old(delivered)
    {
      var package := DataSegment(id, seqNo, ackNo, chunk);
      servidor.rede.Transmit(package, id.remoteAddr);
      buffer := buffer + [Entry(package, Some(now))];
      hasTimer := true;
      seqNo := seqNo + |chunk|;
    }

    /** The levels of `enviar`'s recursion that send a full MSS-byte chunk,
        written as a loop; returns the tail left for the last level and the
        segments sent so far. */
    method SendFullChunks(dados: Bytes, now: int) returns (rest: Bytes, ghost emitted: seq<Segment>)
      modifies this, servidor.rede
      ensures |rest| <= MSS
      ensures SendSegments(id, old(seqNo), old(ackNo), dados) == emitted + SendSegments(id, seqNo, ackNo, rest)
      ensures seqNo == old(seqNo) + |dados| - |rest|
      ensures buffer == old(buffer) + Stamped(emitted, now)
      ensures servidor.rede.sent == old(servidor.rede.sent) + ToPeer(id, emitted)
      ensures hasTimer == (old(hasTimer) || |rest| < |dados|)
      ensures ackNo == old(ackNo) && cwnd == old(cwnd) && hasCallback == old(hasCallback)
      ensures delivered == old(delivered)
    {
      ghost var all := SendSegments(id, seqNo, ackNo, dados);
      emitted := [];
      rest := dados;
      while |rest| > MSS
        invariant all == emitted + SendSegments(id, seqNo, ackNo, rest)
        invariant seqNo == old(seqNo) + |dados| - |rest|
        invariant buffer == old(buffer) + Stamped(emitted, now)
        invariant servidor.rede.sent == old(servidor.rede.sent) + ToPeer(id, emitted)
        invariant hasTimer == (old(hasTimer) || |rest| < |dados|)
        invariant ackNo == old(ackNo) && cwnd == old(cwnd) && hasCallback == old(hasCallback)
        invariant delivered == old(delivered)
      {
        ghost var seg := DataSegment(id, seqNo, ackNo, rest[..MSS]);
        SendSegmentsStep(id, seqNo, ackNo, all, emitted, rest);
        SendChunk(rest[..MSS], now);
        StampedAppend(emitted, seg, now);
        ToPeerAppend(id, emitted, seg);
        emitted := emitted + [seg];
        rest := rest[MSS..];
      }
    }

    /** `Conexao.enviar(dados)`; `now` stands for time.time(). */
    method Send(dados: Bytes, now: int)
      requires Valid()
      modifies this, servidor.rede
      ensures Valid()
      ensures var step := ConnectionSpec.Send(id, old(State()), dados, now);
        State() == step.st &&
        delivered == old(delivered) &&
        servidor.rede.sent == old(servidor.rede.sent) + ToPeer(id, step.sent)
    {
      ghost var st0 := State();
      ghost var all := SendSegments(id, seqNo, ackNo, dados);
      var rest, emitted := SendFullChunks(dados, now);
      ghost var seg := DataSegment(id, seqNo, ackNo, rest);
      SendSegmentsStep(id, seqNo, ackNo, all, emitted, rest);
      SendChunk(rest, now);
      StampedAppend(emitted, seg, now);
      ToPeerAppend(id, emitted, seg);
      assert State() == ConnectionSpec.Send(id, st0, dados, now).st;
      assert Valid() by {
        SendKeepsValid(id, st0, dados, now);
      }
    }

    /** `Conexao.fechar()`: send a FIN carrying seq_no + 1, then remove this
        connection's identifier from the listener's table, whichever Conexao
        is now stored under it. */
    method Close() returns (outcome: Outcome)
      modifies servidor, servidor.rede
      ensures servidor.rede.sent == old(servidor.rede.sent) +
        [Outbound(FinFor(id, State()), id.remoteAddr)]
      ensures id in old(servidor.conexoes) ==>
        servidor.conexoes == old(servidor.conexoes) - {id} && outcome == Completed
      ensures id !in old(servidor.conexoes) ==>
        servidor.conexoes == old(servidor.conexoes) && outcome == Raised(KeyError)
      ensures servidor.hasCallback == old(servidor.hasCallback) && servidor.accepted == old(servidor.accepted)
      ensures old(servidor.Valid()) ==> servidor.Valid()
    {
      servidor.rede.Transmit(FinFor(id, State()), id.remoteAddr);
      outcome := servidor.Close(id);
    }
  }
}

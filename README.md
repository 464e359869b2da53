# A verified model of tcp.py (redes-t2)

tcp.py is a small educational TCP. It runs over a network layer (`rede`) that
delivers raw segments. The model covers the sequential bookkeeping of its two
classes.

**`Servidor`** is the listener on one port. Its `_rdt_rcv`:
- drops segments addressed to another port, or with a bad checksum while checksums are checked;
- on SYN, installs a new `Conexao` under the 4-tuple `(src_addr, src_port, dst_addr, dst_port)` and answers SYN|ACK;
- otherwise hands the segment to the `Conexao` stored under that 4-tuple, if there is one.

`close` deletes a table entry.

**`Conexao`** is one connection. It holds:
- the counters `seq_no` and `ack_no`;
- a retransmission `buffer` of (packet, send-time-or-None) pairs;
- a congestion counter `cwnd`.

Its operations:
- `_rdt_rcv` accepts in-order segments only:
  - a FIN advances `ack_no` by 1;
  - data advances it by the payload length, and the new `ack_no` is acknowledged and the payload delivered;
  - a pure ACK retires buffered packets and may raise `cwnd`.
- `enviar` cuts the data into MSS-byte segments, sends and buffers each one and advances `seq_no`.
- `_timeout` halves `cwnd` (never below 1) and resends the head of the buffer with its send time cleared.
- `fechar` sends a FIN and removes the connection from the table.

The project has four modules:
- `Segments` (segments.dfy): the decoded segment record, the flag bits, MSS, connection identifiers and the network-layer log entries.
- `Demux` (demux.dfy): the listener's decision for an inbound segment, the initial sequence number, and the SYN|ACK reply.
- `ConnectionSpec` (conexao_spec.dfy): a connection's state as a value. It has one function per operation, each giving:
  - the new state;
  - the segments handed to `rede.enviar`;
  - the payloads handed to the receive callback;
  - whether the call returns or raises.

  The lemmas state what those functions promise, including the invariant `ConnValid` that every operation keeps.
- `Tcp` (tcp.dfy): the classes `Rede`, `Servidor` and `Conexao`, which update their fields in place.
  - `Conexao.Receive`, `Conexao.Timeout` and `Conexao.Send` are each proved to leave exactly the state, and append exactly the output, that the `ConnectionSpec` function of the same name gives. `RetireAcked` and `AcknowledgeAndDeliver` are proved the same way against `PureAck` and `Acknowledge`.
  - The helpers `SendChunk` and `SendFullChunks`, and `Close`, have no `ConnectionSpec` counterpart. Their contracts state each changed field directly.
  - `Servidor.Receive` is proved against `Demux.Classify`.
  - Ghost logs record what was sent (`Rede.sent`), delivered (`Conexao.delivered`) and announced as accepted (`Servidor.accepted`).

Python exceptions are modelled as outcomes (`Raised(TypeError)` and so on), not as preconditions, with the state the code leaves behind at the raise:
- a pure ACK that matches no buffered packet makes `_get_idx_inQ` return None, and line 128 raises TypeError;
- data or a FIN arriving with no receive callback registered raises TypeError at line 148, after the ACK has gone out and `ack_no` has moved;
- `_timeout` on an empty buffer raises IndexError at line 88, after `cwnd` has already been halved;
- `close` (and so `fechar`) on an identifier that is not in the table raises KeyError.

The `self.timer.cancel()` of line 126 would raise AttributeError if no timer had ever been set. `ConnectionSpec.ReceiveKeepsValid` proves that this cannot happen in a reachable state. `hasTimer` records only that `self.timer` is not None. It does not mean a timer is armed: `cancel()` never resets the field.

Three points where the code does something other than what a textbook TCP description would suggest. The model follows the code in each case.
- **Which packets a pure ACK retires.** `_get_idx_inQ` returns the FIRST buffered packet whose sequence number is at most the ACK number. The sequence numbers of buffered packets never decrease along the buffer. Two `enviar(b'')` calls in a row buffer two packets with the same number. So a covered packet means a covered head, and the search finds the head or nothing. Each pure ACK therefore retires at most one packet, so an ACK that covers several buffered packets retires only the first of them. The highest acknowledged index would be the cumulative rule.
- **`fechar` on a replaced connection.** `fechar` deletes whatever is stored under its own 4-tuple. If a later SYN has replaced the connection, that is the replacement.
- **`cwnd` does not pace sending.** `cwnd` is counted but never consulted: `enviar` transmits every segment at once.

## Model

| member | source | states |
|---|---|---|
| Demux.Classify | tcp.py:21-62 | A segment is discarded exactly when its destination port differs from the listener's, or when checksums are checked and the checksum fails. Otherwise a SYN always opens, even over an existing entry. A non-SYN is forwarded exactly when its 4-tuple is in the table, and is unknown otherwise. The identifier is `(src_addr, src_port, dst_addr, dst_port)`. |
| Demux.InitialSeq | tcp.py:38 | The initial sequence number randbits(31) + FLAGS_SYN + 1 lies in [3, 2^31 + 3). |
| Demux.Handshake | tcp.py:46-52 | The reply to a SYN has SYN and ACK set and FIN clear, and acknowledges the peer's sequence number + 1. It carries our initial sequence number, goes from our port to the peer's port, and has no payload. |
| ConnectionSpec.Initial | tcp.py:69-83 | A new connection has the given `seq_no` and `ack_no`, an empty buffer, `cwnd` 1, no timer and no callback, and satisfies the connection invariant. |
| ConnectionSpec.AckFor | tcp.py:139-145 | The ACK of `_rdt_rcv` has ACK set and FIN and SYN clear. It carries the connection's `seq_no` and `ack_no` and no payload, and goes from our port to the peer's port. |
| ConnectionSpec.FinFor | tcp.py:182-184 | The FIN of `fechar` has FIN set and ACK and SYN clear. It carries `seq_no + 1`, the current `ack_no` and no payload, and goes from our port to the peer's port. |
| ConnectionSpec.DataSegment | tcp.py:164-167 | A data segment of `enviar` has ACK set and FIN and SYN clear. It carries `seq_no + 1`, the current `ack_no` and the chunk as payload, and goes from our port to the peer's port. |
| ConnectionSpec.Acknowledge | tcp.py:139-148 | The state is left alone and exactly one ACK of the current `ack_no` is sent. The payload is delivered exactly when a callback is registered; otherwise the outcome is TypeError. The lemmas `InOrderFin` and `InOrderData` state the whole effect of each in-order branch. |
| ConnectionSpec.PureAck | tcp.py:122-133 | A pure ACK sends and delivers nothing, and changes only the buffer and `cwnd` (`cwnd` by at most 1). A raise leaves the state untouched. TypeError occurs exactly when a timer object exists and a non-empty buffer holds no covered packet. With no timer it is AttributeError, which `ReceiveKeepsValid` shows cannot happen in a reachable state. A completed pure ACK on a non-empty buffer shortens it. `PureAckRetiresHead` states exactly which packet goes in a reachable state. |
| ConnectionSpec.FirstCovered | tcp.py:97-102 | The result is the first index whose packet sequence number is at most the ACK number. No earlier packet qualifies. The result is None exactly when no packet qualifies. |
| ConnectionSpec.FirstCoveredIsHead | tcp.py:97-102 | In an ordered buffer the search finds index 0 when the head is covered, and nothing otherwise. |
| ConnectionSpec.Receive | tcp.py:115-150 | For any segment: `seq_no`, the timer and the callback are unchanged, `ack_no` never decreases, and `cwnd` grows by at most 1. Without a callback nothing is delivered. |
| ConnectionSpec.OutOfOrderIgnored | tcp.py:117-118 | A segment whose sequence number is not `ack_no` changes nothing, sends nothing and delivers nothing. |
| ConnectionSpec.InOrderFin | tcp.py:119-148 | An in-order FIN raises `ack_no` by exactly 1 and changes nothing else. It sends one ACK carrying the new `ack_no`. It delivers an empty payload, or raises TypeError when no callback is registered. |
| ConnectionSpec.InOrderData | tcp.py:134-148 | An in-order data segment raises `ack_no` by the payload length and changes nothing else. It sends one ACK carrying the new `ack_no`. It delivers that payload, or raises TypeError when no callback is registered. |
| ConnectionSpec.PureAckRetiresHead | tcp.py:122-133 | In a reachable state, an in-order pure ACK sends and delivers nothing and leaves `ack_no` alone. With an empty buffer it changes nothing. When the head's sequence number is at most the ACK number, exactly the head is removed, and `cwnd` rises by 1 only when the head still carries its send time. Otherwise it raises TypeError with the state untouched. |
| ConnectionSpec.ReceiveDropsPrefix | tcp.py:132 | Receiving a segment leaves the buffer as a suffix of what it was. |
| ConnectionSpec.ReceiveKeepsValid | tcp.py:115-150 | Receiving a segment preserves the connection invariant: `cwnd` at least 1, buffered packets in disjoint ranges that follow buffer order and end at or before `seq_no + 1`, and a timer object whenever the buffer is non-empty. It never raises AttributeError from a reachable state. |
| ConnectionSpec.Timeout | tcp.py:85-91 | `cwnd` is halved when above 1 and otherwise unchanged. With a non-empty buffer, exactly the head packet is resent, only the head's send time is cleared (length and packets unchanged), and a timer is set. With an empty buffer it raises IndexError and sends nothing. The counters and the callback never change. |
| ConnectionSpec.TimeoutKeepsValid | tcp.py:85-91 | A timeout preserves the connection invariant, so `cwnd` stays at least 1. |
| ConnectionSpec.SendSegments | tcp.py:164-174 | The segments of one `enviar`, one per level of its recursion. There is always at least one, even for empty data, and the first carries `seq_no + 1` and `dados[:MSS]`. `SendSegmentsShape` and `SendSegmentsCarryData` give all of them. |
| ConnectionSpec.Send | tcp.py:159-174 | `enviar` always completes, delivers nothing, sends at least one segment and sets a timer. `seq_no` advances by exactly the data length; `ack_no`, `cwnd` and the callback stay. `SendBuffersWhatItSends` gives the buffer, and `SendKeepsValid` gives the invariant. |
| ConnectionSpec.SendBuffersWhatItSends | tcp.py:168-169 | The old buffer entries stay in front. One entry per sent segment follows, in sending order, each stamped with the send time. |
| ConnectionSpec.SendSegmentsShape | tcp.py:164-174 | `enviar(d)` emits max(1, ceil(\|d\|/MSS)) segments. The k-th carries bytes k*MSS up to (k+1)*MSS of d (at most MSS bytes), sequence number `seq_no + 1 + k*MSS`, the current `ack_no`, flag ACK, and the connection's ports. |
| ConnectionSpec.SendSegmentsIncreasing | tcp.py:165-171 | The segments of one `enviar` have strictly increasing sequence numbers. |
| ConnectionSpec.SendSegmentsCarryData | tcp.py:167-174 | The payloads of the segments of one `enviar`, concatenated in order, are exactly the data. |
| ConnectionSpec.NewEntriesOrdered | tcp.py:164-174 | The entries one `enviar` buffers start after the old `seq_no`, end by the new one, and do not overlap each other. |
| ConnectionSpec.SendKeepsValid | tcp.py:159-174 | `enviar` preserves the connection invariant. |
| Tcp.Servidor.constructor | tcp.py:7-12 | A new listener has an empty table, no callback and nothing accepted. |
| Tcp.Servidor.RegisterAcceptedMonitor | tcp.py:14-19 | Registering the accepted-connection callback changes neither the table nor the accepted log. |
| Tcp.Servidor.Receive | tcp.py:21-62 | A discarded segment, or one for an unknown connection, changes nothing and sends nothing. A SYN maps its 4-tuple to a fresh connection with `ack_no = seq_no + 1` and our initial sequence number, replacing any earlier entry and keeping every other key. It sends exactly the SYN\|ACK reply to the source address and passes the connection to the callback if there is one. Any other segment for a known connection changes that connection exactly as `ConnectionSpec.Receive` says. Only a forwarded segment touches a stored connection, and only the one under its own 4-tuple. A discarded segment leaves even that connection unchanged. The table stays valid. |
| Tcp.Servidor.Accept | tcp.py:35-56 | The SYN branch: the new connection is fresh and stored under the identifier, the rest of the table is unchanged, exactly one SYN\|ACK is sent, and the accepted log grows by the connection exactly when a callback is registered. |
| Tcp.Servidor.Close | tcp.py:64-65 | A known identifier is removed and nothing else in the table changes. An unknown one raises KeyError and changes nothing. The table stays valid. |
| Tcp.Conexao.constructor | tcp.py:69-83 | A new connection has the given counters, an empty buffer, `cwnd` 1, no timer and no callback. |
| Tcp.Conexao.RegisterReceiver | tcp.py:152-157 | Registering the receive callback changes nothing else. |
| Tcp.Conexao.IndexInQueue | tcp.py:97-102 | The loop returns the first buffered index whose sequence number is at most the ACK number, or None exactly when there is none, and agrees with `ConnectionSpec.FirstCovered`. |
| Tcp.Conexao.RetireAcked | tcp.py:122-133 | The pure-ACK branch leaves exactly the state and outcome `ConnectionSpec.PureAck` gives, and delivers nothing. |
| Tcp.Conexao.AcknowledgeAndDeliver | tcp.py:139-148 | One ACK with the current counters is sent to the peer. The payload is delivered when a callback exists; otherwise TypeError is raised. |
| Tcp.Conexao.Receive | tcp.py:115-150 | The new state, the segments sent, the payloads delivered and the outcome are those of `ConnectionSpec.Receive`, and the connection invariant is kept. |
| Tcp.Conexao.Timeout | tcp.py:85-91 | The new state, the resent packet and the outcome are those of `ConnectionSpec.Timeout`, and the connection invariant is kept. |
| Tcp.Conexao.SendChunk | tcp.py:164-171 | One level of `enviar`: one ACK-flagged segment with sequence number `seq_no + 1` is sent and buffered with its send time, a timer is set, and `seq_no` advances by the chunk length. |
| Tcp.Conexao.SendFullChunks | tcp.py:159-174 | After the full-MSS levels of `enviar`, the segments sent and buffered so far are a prefix of `ConnectionSpec.SendSegments`, and what remains (at most MSS bytes) accounts for the rest. A timer is set once any chunk has gone out; otherwise the timer field is unchanged. `ack_no`, `cwnd`, the callback and the delivered log do not change. |
| Tcp.Conexao.Send | tcp.py:159-174 | The new state and the segments sent are those of `ConnectionSpec.Send`: every segment is buffered with its send time, `seq_no` advances by the data length, a timer is set, and the connection invariant is kept. |
| Tcp.Conexao.Close | tcp.py:177-187 | Exactly one FIN with sequence number `seq_no + 1` and the current `ack_no` is sent to the peer. Then this connection's identifier is removed from the table, or KeyError is raised when it is no longer there. The listener's callback and accepted log are unchanged. |

## Left out

- The header codec of tcputils (`read_header`, `make_header`, `fix_checksum`, `calc_checksum`) is not part of this model.
  - A segment is its decoded record.
  - The checksum verdict is a parameter of `Servidor.Receive`.
  - The header-length split of line 32 is taken as already done.
  - tcputils is not part of this model. The constants are assumed to be FLAGS_FIN = 1, FLAGS_SYN = 2, FLAGS_ACK = 16 and MSS = 1460, the values of a standard TCP header. The count, slice, sequence-number and concatenation facts about `enviar` need nothing but MSS > 0. The range of `Demux.InitialSeq` depends on FLAGS_SYN = 2. Some clauses say that other flags are clear: the "FIN clear" of `Demux.Handshake`, and the clear FIN, SYN or ACK bits of `ConnectionSpec.AckFor`, `ConnectionSpec.FinFor` and `ConnectionSpec.DataSegment`. These hold only because the three flags are distinct bits.
- `_calc_timeout_interval` and the `timeout_interval`, `estimated_rtt` and `dev_rtt` updates (lines 104-112 and 130) are left out. They are floating-point arithmetic on wall-clock samples and have no effect on the other state.
- asyncio timers (`call_later` and `cancel`, lines 91, 126, 150 and 170) are modelled only as whether `self.timer` is not None.
  - Which timers are pending, and when `_timeout` fires, are not modelled.
  - `Tcp.Conexao.Timeout` can be called at any time, and covers the stale-timer case: an empty buffer raises IndexError.
- `randbits(31)` (line 38) and `time.time()` (line 169) are parameters: `isnBits` and `now`.
- Tcp.Conexao.Send: Python's recursion limit (1000 frames by default) makes `enviar` raise RecursionError after about 1000 levels, that is for data longer than about 1000 * MSS bytes. The chunks sent by then stay sent and buffered, with `seq_no` advanced, and the rest is never sent. The model, including the segment count of `ConnectionSpec.SendSegmentsShape`, assumes the limit is never reached and always describes a complete send.
- Tcp.Conexao.Send: uses one `now` for every segment of one `enviar`, where the source reads the clock once per segment.
- Tcp.Conexao.Send: the recursion of `enviar` is written as a loop over full chunks followed by a last chunk. The order of sends and buffer appends is the same.
- The application callbacks are recorded as ghost logs of what they receive (`delivered`, `accepted`). What they do in turn is not modelled. In particular, a callback that re-enters the connection is not modelled.
- `Servidor.__init__` registering `_rdt_rcv` with the network layer (line 12) is not modelled. Neither is network delivery itself: `rede.enviar` is a log of outbound segments.
- `print` diagnostics (lines 29, 61, 116, 136-138, 163 and 181) are not modelled.
- Sequence numbers are unbounded integers, as in Python. The code never reduces them modulo 2^32.

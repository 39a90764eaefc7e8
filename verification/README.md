# pycozmo client transport core, in Dafny

This project models the transport core of the pycozmo client: the layer that
sits between the UDP socket and the rest of the library in
`pycozmo/client.py`. It has three actors.

- The **receive loop** (`ReceiveThread`) admits the packets of each decoded
  frame into a receive window and hands them to the client in sequence order:
  - out-of-band packets skip the window;
  - stale and duplicate packets are dropped;
  - when the expected packet arrives, the window is drained in order.
- The **send loop** (`SendThread`) frames queued packets and manages the send window:
  - a ping goes out in a PING frame with sequence 0;
  - every other packet gets the next window sequence number and an ENGINE frame;
  - each frame piggybacks the last acknowledgement;
  - cumulative acks pop the send window.
- The **client** (`Client`) is the session state machine IDLE → CONNECTING →
  CONNECTED:
  - `connect` resets the send side and writes a RESET frame;
  - the robot's Connect packet completes the connection;
  - the firmware signature triggers the 17-packet initialization burst and the
    RobotReady and RobotFound events;
  - one iteration of the client run loop feeds acknowledgements back to the
    send side and sends keepalive pings.

Layout, one module per file:

- `protocol.dfy` (`Protocol`): packets and frames as plain values.
- `windows.dfy` (`Windows`): the two sliding windows.
  - `pycozmo/window.py` is not part of this model.
  - Each window is a class whose method contracts are the behaviour the loops
    rely on. These contracts are assumptions about the hidden code, stated in
    the file.
- `receive_spec.dfy` (`ReceiveSpec`): what the receive loop does, as functions
  on values (`Admit`, `AdmitAll`, `Drain`), together with the ordering
  theorems about them.
- `receive_loop.dfy` (`ReceiveLoop`): the `ReceiveThread` class. `HandleFrame`,
  `HandlePkt` and `DeliverSequence` are proved equal to the specification
  functions; `Deliver`, `Reset` and the constructor state their effect
  directly.
- `send_loop.dfy` (`SendLoop`): the `SendThread` class and the framing
  specification (`FrameFor`, `FrameQueue`).
- `session.dfy` (`Session`): the `Client` class, its handlers, one run-loop
  iteration, and the bootstrap handshake as a proved scenario.

Conventions:

- Sequence numbers are unbounded integers.
- The clock is an integer in microseconds that the caller passes in.
- The event dispatcher is modelled as the log `events` of what was dispatched.
- Frames written to the socket are modelled as two logs, one per writer:
  `SendThread.sent` for the send loop's frames and `Client.sent` for the RESET
  frames `connect` writes itself. The order between the two logs is not
  modelled.

A reconnect does not reset the whole session. `connect` resets only the send
loop, and the receive window keeps its expected sequence number across a
reconnect. The model follows the code here (`Session.Client.Connect`).

## Model

| member | source | states |
|---|---|---|
| Windows.ReceiveWindow.Put | pycozmo/client.py:79 | assumed window contract: an in-window, not yet buffered packet is stored under its sequence number; `expected` is unchanged |
| Windows.ReceiveWindow.Get | pycozmo/client.py:84-89 | assumed window contract: releases the packet at `expected` and advances by one, or returns None and changes nothing when that number has not arrived |
| Windows.ReceiveWindow.Reset | pycozmo/client.py:94-95 | assumed window contract: back to expected 1 with an empty buffer |
| Windows.ReceiveWindow.IsOutOfOrder | pycozmo/client.py:72-73 | assumed window contract: a number is accepted exactly when it lies in [expected, expected + size) |
| Windows.ReceiveWindow.Exists | pycozmo/client.py:75-77 | assumed window contract: true exactly when a packet is buffered under the number; a buffered number always lies inside the window |
| Windows.ReceiveWindow.IsExpected | pycozmo/client.py:81-82 | assumed window contract: true exactly for `expected`, which is inside the window whenever the window size is not zero |
| Windows.SendWindow.IsOutOfOrder | pycozmo/client.py:167-168 | assumed window contract: an ack is in order exactly when it lies in [expected, nextSeq), that is, exactly when it names a buffered, unacknowledged packet |
| Windows.SendWindow.Put | pycozmo/client.py:150 | assumed window contract: hands out the next sequence number, buffers the packet under it and advances the numbering; keeps buffer == [expected, nextSeq) |
| Windows.SendWindow.Pop | pycozmo/client.py:170-171 | assumed window contract: drops the oldest unacknowledged packet and advances `expected` by one |
| Windows.SendWindow.Reset | pycozmo/client.py:176-177 | assumed window contract: numbering back to 1, nothing unacknowledged |
| ReceiveSpec.DrainSpec | pycozmo/client.py:84-89 | the drain releases, in order, the packets buffered under expected, expected+1, ... up to the first missing number, stops exactly there, and keeps every other buffered packet unchanged |
| ReceiveSpec.DrainComplete | pycozmo/client.py:84-89 | a buffer holding exactly n consecutive numbers from `expected` is released whole, in ascending order, leaving the buffer empty and `expected` advanced by n |
| ReceiveSpec.AdmitKeepsStream | pycozmo/client.py:67-82 | handling any packet keeps the receive invariant: the ordered packets handed to the client are start, ..., expected-1 with no gap or repeat, and every buffered packet lies strictly after `expected` inside the window |
| ReceiveSpec.DrainKeepsStream | pycozmo/client.py:79-89 | buffering the expected packet and draining keeps the receive invariant |
| ReceiveSpec.AdmitAllKeepsStream | pycozmo/client.py:63-65 | handling a whole frame keeps the receive invariant |
| ReceiveSpec.AdmitExpected | pycozmo/client.py:79-89 | with nothing buffered, the expected packet is delivered at once and the window advances by one |
| ReceiveSpec.AdmitIdempotent | pycozmo/client.py:72-82 | an ordered packet followed by any ordered packet with the same sequence number (a retransmission, whatever ack its frame carries) has the effect of the first alone: a retransmission is never delivered twice and never replaces what was buffered |
| ReceiveSpec.AdmitAllAppend | pycozmo/client.py:63-65 | handling two frames one after the other is handling their packets as one batch, so every property of `AdmitAll` holds for packets spread over several frames |
| ReceiveSpec.AdmitAdvances | pycozmo/client.py:67-89 | handling a packet never moves the receive window back |
| ReceiveSpec.AdmitCovers | pycozmo/client.py:72-89 | an ordered packet not seen before and inside the current window [expected, expected + size) joins the set of sequence numbers that have been delivered or buffered, and nothing else joins it |
| ReceiveSpec.AdmitAllCovers | pycozmo/client.py:63-89 | the same for a frame of distinct ordered packets not seen before, all inside the window as it stands when the frame arrives, together with the receive invariant |
| ReceiveSpec.AdmitDrawn | pycozmo/client.py:67-89 | handling a packet of P keeps every delivered and every buffered packet a packet of P: nothing is invented |
| ReceiveSpec.AdmitAllDrawn | pycozmo/client.py:63-65 | the same for a whole frame of packets of P |
| ReceiveSpec.SortedInput | pycozmo/client.py:84-92 | an ordered stream e..e+n-1 made of packets from a set that carries exactly those numbers, each once, is that set, each packet once, sorted by number |
| ReceiveSpec.DeliversAllInOrder | pycozmo/client.py:63-92 | the numbers e..e+n-1, each once, all in the window, arriving in ANY order at a window expecting e: exactly the packets handed in are delivered, each once, in ascending order of number, and the window ends empty expecting e+n |
| ReceiveLoop.ReceiveThread.constructor | pycozmo/client.py:26-40 | a new receive loop has an empty window expecting 1 and an empty output queue |
| ReceiveLoop.ReceiveThread.HandleFrame | pycozmo/client.py:63-65 | the window and queue become `AdmitAll` of the frame's packets, front to back |
| ReceiveLoop.ReceiveThread.HandlePkt | pycozmo/client.py:67-82 | the window and queue become `Admit` of the packet; an out-of-band packet is appended to the queue with the window untouched; a stale or duplicate ordered packet changes nothing |
| ReceiveLoop.ReceiveThread.DeliverSequence | pycozmo/client.py:84-89 | the queue grows by exactly what `Drain` releases, in order, and the window ends where `Drain` leaves it |
| ReceiveLoop.ReceiveThread.Deliver | pycozmo/client.py:91-92 | appends the packet to the output queue |
| ReceiveLoop.ReceiveThread.Reset | pycozmo/client.py:94-95 | the window is back to expected 1 and empty |
| SendLoop.FrameFor | pycozmo/client.py:147-151 | a ping rides in a PING frame with first and frame sequence 0; any other packet rides in an ENGINE frame under the window's next number; both carry `lastAck` and exactly that packet |
| SendLoop.FrameQueueNumbering | pycozmo/client.py:140-151 | a queue goes out one frame per packet, in order, all with the same ack; the ENGINE frames carry nextSeq, nextSeq+1, ... with no gap or repeat, one per non-ping packet |
| SendLoop.FiledNumbering | pycozmo/client.py:147-151 | after a queue is framed, the window holds exactly the numbers nextSeq .. nextSeq + (non-pings) - 1, and under the number of each ENGINE frame it holds the packet that frame carries |
| SendLoop.SendThread.constructor | pycozmo/client.py:100-114 | empty window numbered from 1, empty queue, last ack 1, no send time |
| SendLoop.SendThread.Step | pycozmo/client.py:140-161 | one run-loop iteration: an empty queue changes nothing; otherwise the oldest packet leaves the queue, a non-ping one enters the send window under the next number, and unless the write is interrupted its `FrameFor` frame is written and the send time set to now |
| SendLoop.SendThread.Run | pycozmo/client.py:120-161 | iterating until the queue is empty writes exactly `FrameQueue` of the old queue, advances the window numbering by the number of non-ping packets, adds exactly `Filed` of the old queue to the window (the old unacknowledged packets stay), keeps the ack, and sets the send time when anything was sent |
| SendLoop.SendThread.SendNext | pycozmo/client.py:140-159 | one uninterrupted iteration takes the head off the queue and shrinks what is still to be written, numbered and filed by exactly what it writes, numbers and files |
| SendLoop.SendThread.Send | pycozmo/client.py:163-164 | appends the packet to the send queue |
| SendLoop.SendThread.Ack | pycozmo/client.py:166-171 | an out-of-order ack changes nothing; otherwise every packet numbered up to the ack leaves the window, every later one stays unchanged, and `expected` becomes ack + 1 |
| SendLoop.SendThread.SetLastAck | pycozmo/client.py:173-174 | sets the ack piggybacked on later frames |
| SendLoop.SendThread.Reset | pycozmo/client.py:176-179 | window, last ack (1) and send time (none) are back to the constructor's values; the queue is kept |
| Session.DisplayInitAt | pycozmo/client.py:288-293 | r display rounds are 2r packets alternating NextFrame and DisplayImage 0x3f 0x3f |
| Session.InitBurstShape | pycozmo/client.py:277-293 | the initialization burst is 3 + 7 × 2 = 17 packets: commands 0x25, 0x4b (with its 8-byte payload) and 0x9f, then seven NextFrame/DisplayImage pairs |
| Session.Client.constructor | pycozmo/client.py:196-208 | a new client is IDLE with no firmware signature, fresh loops with windows of 256 (receive window expecting 1, send window numbered from 1, both empty), send loop with last ack 1 and no send time, and a last send one day before now |
| Session.Client.Connect | pycozmo/client.py:247-257 | state CONNECTING, the send loop reset (the receive window is left as it is), and a RESET frame (1, 1, ack 0, no packets) written unless the write is interrupted |
| Session.Client.Send | pycozmo/client.py:259-261 | records now as the last send time and queues the packet on the send loop; the send loop's ack, written frames and send time are unchanged |
| Session.Client.Disconnect | pycozmo/client.py:263-267 | a Disconnect packet is queued only on a CONNECTED session; otherwise nothing changes; the state, the send loop's ack, written frames and send time never change |
| Session.Client.SendPing | pycozmo/client.py:269-271 | queues the keepalive Ping(0, 1, 0) and records now as the last send time; the rest of the send loop is unchanged |
| Session.Client.PingIfDue | pycozmo/client.py:237-240 | a ping is queued, and the last send time moved to now, exactly when the session is CONNECTED and more than 50 ms have passed since the last send; the rest of the send loop is unchanged |
| Session.Client.OnConnect | pycozmo/client.py:273-275 | the Connect handler makes the session CONNECTED |
| Session.Client.InitializeRobot | pycozmo/client.py:277-298 | queues the 17-packet burst in order, then announces RobotReady; the rest of the send loop is unchanged |
| Session.Client.OnFirmwareSignature | pycozmo/client.py:300-304 | stores the signature, queues the burst, announces RobotReady and then RobotFound; the rest of the send loop is unchanged |
| Session.Client.Dispatch | pycozmo/client.py:245 | the item is announced first; Connect makes the session CONNECTED; a firmware signature runs the initialization; every other item changes nothing, in the client or in the send loop |
| Session.Client.TakeReceived | pycozmo/client.py:228-235 | takes the oldest received packet, if any; its ack is applied to the send window as `Ack` does (later packets keep their values); its sequence number becomes the piggybacked ack only when it is not out-of-band |
| Session.Client.RunStep | pycozmo/client.py:226-245 | one run-loop iteration: the receive queue loses its head; the send window and last ack change as `TakeReceived` says; the keepalive is judged on the state before dispatch; the send queue gains the keepalive, then the handler's reaction; state, signature, events and send time change accordingly; surviving send-window packets, the send loop's written frames and send time are unchanged |
| Session.ConnectedClient | pycozmo/client.py:196-275 | a new client that connects and receives the robot's Connect packet (sequence 1) ends CONNECTED, with that packet dispatched and nothing queued |
| Session.FirmwareArrives | pycozmo/client.py:226-304 | on such a session, the firmware signature (sequence 2) is dispatched, RobotReady and RobotFound follow, and the send queue is one keepalive followed by the 17-packet burst |
| Session.Handshake | pycozmo/client.py:196-304 | the whole bootstrap: states IDLE, CONNECTING, CONNECTED, CONNECTED; events Connect, signature, RobotReady, RobotFound, in that order; queued: one keepalive, then the burst |

## Left out

- Threads, `start`/`stop`/`join`, `select`, blocking queue reads with timeouts, and the socket calls are not modelled. Queues are sequences, and one loop iteration is one method call. A socket write interrupted by `InterruptedError` is the `interrupted` parameter.
- The receive loop's sender-address filter and the `recvfrom` retry are not modelled. `HandleFrame` takes an already decoded frame.
- `Frame.to_bytes` / `Frame.from_bytes` and the packet encoders are not modelled. `pycozmo/frame.py` and `pycozmo/protocol_encoder.py` are not part of this model. Frames and packets are plain values.
- `Packet.is_oob` is not modelled. `pycozmo/protocol_base.py` is not part of this model. Out-of-band-ness is a field of each packet. Packets the client builds itself are out-of-band exactly when they are pings (`Outgoing`).
- The window internals are not modelled. `pycozmo/window.py` is not part of this model. The windows are classes with assumed contracts, listed in the table:
  - the receive window accepts `[expected, expected + size)`;
  - the send window's buffer is exactly `[expected, nextSeq)`;
  - an ack is out of order unless it lies in that range. This assumption is what makes the pop loop of `Ack` terminate.
- SendWindow.IsOutOfOrder: rejects an ack at or beyond `nextSeq` as well as one behind `expected`. If the real window rejected only acks behind `expected`, a stale ack from before a reconnect (say 500, after `connect` reset the numbering to 1) would make `ack` pop an empty window. Under the assumed contract it is ignored, so the model cannot show that case.
- Sequence-number width and wraparound are not modelled. The client builds both windows with `seq_bits = 16`; the model drops that parameter and uses unbounded integers. So it cannot show what the `<=` of the ack loop does once the 16-bit numbering wraps.
- Wall-clock time is not modelled. The clock is an integer in microseconds, and `PING_INTERVAL` is 50000. The one-second `time.sleep` in `_initialize_robot` is left out.
- The `json.loads` of the firmware signature is not modelled. The signature is kept as the received string.
- OnFirmwareSignature: assumes every signature parses. In the code, a signature that is not valid JSON makes `json.loads` raise before `_initialize_robot` runs: no burst is queued, neither RobotReady nor RobotFound is announced, and since the dispatch is outside the run loop's `try`, the exception ends the run loop. The model runs the burst for every string.
- Logging (`print`) is not modelled.
- The event dispatcher's internals are not modelled, and neither are application handlers:
  - dispatching is an append to `events`;
  - the client's own handlers for Connect, FirmwareSignature and Ping are the only ones assumed registered, as `start` does;
  - handler registration itself (`start`, `stop`, `del_all_handlers`) and `wait_for_robot` are not modelled.
- The commented-out retransmission and window-full back-pressure code of the send loop is not modelled, because it never runs. As in the code, a packet whose write was interrupted stays in the send window and is never resent.
- The example scripts under `examples/` are not modelled. They are applications built on the client.

# Pulse monitoring handshake, modelled in Dafny

The pulse monitoring system has two programs that talk over a Bluetooth
RFCOMM link:

- The **Responder** (`Server/server.py`) runs on the sensor. Its
  `BluetoothPulseServer` keeps two flags, `transmit_data` and
  `pending_ack_ack`. Its `BluetoothConnectionManager` keeps the connection
  identity (`client_socket`, `client_address`).
- The **Initiator** (`Client/client.py`) is a `BluetoothClient`. One handler
  thread drains its command queue, and a second thread receives pulse frames
  into a single "latest frame" slot.

Streaming starts and stops by a three-way handshake. The Initiator sends
`START_SYNC` or `STOP_SYNC`. The Responder answers `ACK` and arms
`pending_ack_ack`. The Initiator confirms with `ACK_ACK`, which resolves the
pending handshake in the direction given by `transmit_data`. If no `ACK_ACK`
arrives within 20 seconds, a wait thread on the Responder runs a fixed timeout
outcome.

The project has five modules:

- `Wire` (`wire.dfy`): the control tokens, an `Option` type, Python's
  `str.strip()` (`Strip`) and the substring test `pat in s` (`Contains`).
- `ServerModel` (`server_model.dfy`): the Responder's state as a value. It has
  one function per callback or loop iteration, the receive loop and the
  accept loop over finite runs of input, and an interleaving model. In that
  model the receive thread, the wait threads and the data pump each take
  atomic steps (`Step`) in any order (`Run`).
- `Server` (`server.dfy`): the two Responder classes with the source's
  fields. Each method has an ensures that ties `State()` to the
  `ServerModel` function of the old state. The receive loop and the accept
  loop are methods of `PulseServer`, because they call its callbacks (in the
  source they live in the manager, which holds those callbacks). The wait
  thread's polling loop is the module method `AwaitAckAck`.
- `ClientModel` (`client_model.dfy`): the Initiator's state as a value, with
  one function per handler and helper. The command queue is drained in queue
  order (`Drain`), and the reception loop keeps the latest frame
  (`ReceptionLoop`).
- `Client` (`client.dfy`): the class `BluetoothClient` with the source's
  fields. Each method is proved against the matching `ClientModel` function.

How the outside world is abstracted:

- The transport is an outbox. On the Responder, `sent` lists every
  message a working link delivered, in order; a failed send runs the
  disconnect cleanup instead. On the Initiator, `sent` lists every command
  handed to an existing socket, in order, because `send_command` only
  prints a send error and carries on.
- Whether a send or a connect succeeds is a `linkUp` parameter.
- What `recv` yields is a parameter: an `Option<string>` on the Initiator, a
  `Recv` on the Responder.
- The Bluetooth scan is the address it finds.
- Which texts `json.loads` accepts is a predicate parameter, `wellFormed`.
- Time is counted in polls of the wait loop: the wait thread takes
  `ack_timeout` × 10 looks (one per 0.1 s), which is `AckWaitPolls` = 200
  for the configured 20 seconds. What the i-th poll sees is a parameter, `pendingAt(i)`,
  so any interleaving with other threads is covered.

Behaviours of the code that a reader might expect to be otherwise; the
model keeps them as the code has them:

- The handshake is meant to settle one request at a time, yet a second
  `START_SYNC`/`STOP_SYNC` while one is pending is not ignored. The Responder answers `ACK` again, re-arms the flag and starts
  another wait thread.
- `stop_data_collection` resets the session but does not clear
  `pending_ack_ack`.
- The Stop timeout is meant to keep streaming going, and it sets
  `transmit_data` to true even when streaming was already off.
- The pump sends `json.dumps(None)`, the text `null`, for an invalid
  reading, where skipping invalid readings looks intended. `json.dumps`
  never yields an empty text, so the gate on it never closes on its own.
- `start_pulse_data_stream` has its thread start commented out, so it does
  nothing. The pump runs instead on the main thread, from startup
  (Server/server.py:341-343), gated by `transmit_data`. After its first
  fault it has ended for good, since the main thread then only sleeps.
  `StreamPulseData` and `Pump` end at the fault as the code does; the
  interleaving model `Run` still allows pump steps after a fault. That only
  adds behaviours, so the lemmas about every interleaving still hold of
  the code.
- A receive error in `listen_for_data` runs the cleanup, and then the
  accept loop's `finally` runs it again. The cleanup is idempotent, so the
  state is the same.

## Model

| member | source | states |
|---|---|---|
| `Wire.Strip` | Server/server.py:89 | The result is the slice of the input after its leading whitespace. Everything cut off on either side is whitespace, and a non-empty result neither starts nor ends with whitespace. |
| `Wire.StripIdempotent` | Server/server.py:170 | Stripping again changes nothing, so the callback's second `strip()` of an already stripped message is a no-op. |
| `Wire.Contains` | Client/client.py:67 | Python's `pat in s`: found when the text starts with the pattern, and only when the pattern fits. |
| `Wire.ContainsIffOccurs` | Client/client.py:67 | The left-to-right search `Contains` holds exactly when the pattern occurs at some position (both directions). |
| `ServerModel.Cleanup` | Server/server.py:125-139 | Disconnect cleanup: streaming off, socket and address cleared, stop event left clear; `pending_ack_ack` and the outbox untouched. |
| `ServerModel.SendMessage` | Server/server.py:97-103 | Without a socket nothing changes. With one, a working link appends exactly the message and changes nothing else, and a failed send is exactly the cleanup. The pending flag never changes. |
| `ServerModel.Handshake` | Server/server.py:169-183 | A wait thread is started exactly for a request, with the Start handler exactly for `START_SYNC`. |
| `ServerModel.OnData` | Server/server.py:169-197 | A request appends exactly `ACK` (when sent) and sets pending, leaving `transmit_data` alone. `ACK_ACK` with nothing pending changes nothing. While pending, `ACK_ACK` turns streaming on from off (Start) and off from on (Stop), clearing pending. Every other message changes nothing. |
| `ServerModel.Timeout` | Server/server.py:159-167 | Pending cleared. Streaming is on after the Stop handler and off after the Start handler. No other field changes. |
| `ServerModel.Expire` | Server/server.py:151-154 | Corrected firing: the handler's outcome applies only while the flag is still set; otherwise nothing changes. |
| `ServerModel.PumpStep` | Server/server.py:208-212 | A frame is sent exactly when streaming is on, the text is non-empty and the link works. A frame the link refuses while streaming runs the cleanup (through `send_message`). With streaming off nothing changes. |
| `ServerModel.PumpTick` | Server/server.py:207-221 | A sensor exception, or a frame the transport refuses while streaming, runs the cleanup. With streaming off a sample changes nothing. |
| `ServerModel.Pump` | Server/server.py:205-221 | The pump never touches the pending flag. |
| `ServerModel.PumpSilentWhileOff` | Server/server.py:210-212 | With streaming off, any run of the pump sends nothing and leaves streaming off. |
| `ServerModel.PumpSendsEverySample` | Server/server.py:205-213 | With streaming on and a working link, the pump sends every sample's JSON text in reading order and changes nothing else. |
| `ServerModel.Deliver` | Server/server.py:89-91 | An empty stripped message is dropped; any other reaches the callback. |
| `ServerModel.Listen` | Server/server.py:84-95 | Corrected receive loop: it has left its loop exactly when the socket is gone, and the outbox only grows. |
| `ServerModel.ListenIterationAsWritten` | Server/server.py:86-95 | As written: without a socket an iteration reads nothing and does not leave the loop. With one it always reads. |
| `ServerModel.ListenAsWritten` | Server/server.py:84-95 | As written: the loop leaves only after the cleanup cleared the socket. |
| `ServerModel.ListenerSpinsOnceSocketGone` | Server/server.py:86-87 | As written: once the socket is gone, any number of iterations leaves the state unchanged and never exits. |
| `ServerModel.FailedAckHangsListenerAsWritten` | Server/server.py:84-103 | As written: a `START_SYNC` whose `ACK` fails to send cleans up inside the loop, and the loop then spins instead of ending the session. |
| `ServerModel.FailedAckEndsSession` | Server/server.py:84-103 | Corrected: the same input ends the session with the cleanup done. |
| `ServerModel.Release` | Server/server.py:72-81 | The accept loop's `finally` amounts to the disconnect cleanup. |
| `ServerModel.Serve` | Server/server.py:59-81 | Corrected (built on the corrected `Listen`): a session that ends always leaves connection identity cleared and streaming off; a failed accept is just the cleanup; while a session lasts, the accepted client is the connection. |
| `ServerModel.AcceptLoop` | Server/server.py:59-81 | Corrected (built on the corrected `Listen`): back at `accept()` after at least one session, identity is cleared and streaming off; still serving means a socket is held; the outbox only grows. |
| `ServerModel.ListenKeepsSocket` | Server/server.py:84-95 | Corrected: while the corrected receive loop serves, the socket is never swapped or lost. |
| `ServerModel.Step` | Server/server.py:64-221 | One atomic step of a thread: an accept (only while no client is connected), one receive-loop iteration, a wait thread firing (corrected, through `Expire`) or one pump iteration. The outbox only grows; without a client only an accept changes the socket or the outbox. |
| `ServerModel.Run` | Server/server.py:59-221 | Corrected interleaving of those steps in any order: nothing once sent is ever taken back. |
| `ServerModel.RunKeepsStopEventClear` | Server/server.py:125-139 | In any interleaving, the stop event is left clear. |
| `ServerModel.StreamingNeedsAckAckOrStopTimeout` | Server/server.py:159-197 | In any interleaving that turns streaming on from off, an `ACK_ACK` arrived or a Stop handshake timed out. |
| `ServerModel.NoClientNothingSent` | Server/server.py:97-98 | Without a connected client, no interleaving sends anything or gains a socket. |
| `ServerModel.StartHandshakeStartsStreaming` | Server/server.py:173-197 | `START_SYNC` then `ACK_ACK` turns streaming on and sends one `ACK`. Corrected: a later timeout of that handshake changes nothing (as written it does, see `UnguardedTimeoutUndoesStart`). |
| `ServerModel.StopHandshakeStopsStreaming` | Server/server.py:179-193 | `STOP_SYNC` then `ACK_ACK` turns streaming off and sends one `ACK`. Corrected: a later timeout changes nothing (as written it does, see `UnguardedTimeoutUndoesStop`). |
| `ServerModel.SilentStartNeverStreams` | Server/server.py:159-162 | An unconfirmed Start only sends `ACK` and leaves streaming off. |
| `ServerModel.UnconfirmedStopKeepsStreaming` | Server/server.py:164-167 | An unconfirmed Stop only sends `ACK` and leaves streaming on. |
| `ServerModel.DuplicateAckAckIsNoOp` | Server/server.py:185-187 | A second `ACK_ACK` changes nothing. |
| `ServerModel.FirstResolverWins` | Server/server.py:147-154 | Corrected: between `ACK_ACK` and the timeout of one handshake, whichever comes first decides; the other is a no-op. |
| `ServerModel.UnguardedTimeoutUndoesStart` | Server/server.py:151-162 | As written: a Start confirmed by `ACK_ACK` is switched off again by a handler that fires after the last poll. |
| `ServerModel.UnguardedTimeoutUndoesStop` | Server/server.py:151-167 | As written: a Stop confirmed by `ACK_ACK` is switched back on by a handler that fires after the last poll. |
| `Server.ConnectionManager.constructor` | Server/server.py:26-27 | No client and nothing sent. |
| `Server.ConnectionManager.Accept` | Server/server.py:64 | The accepted client becomes the connection identity. |
| `Server.ConnectionManager.Close` | Server/server.py:74-80 | Socket and address cleared; nothing sent. |
| `Server.ConnectionManager.SendMessage` | Server/server.py:97-103 | The message is appended exactly when a socket exists and the link works. It reports failure exactly when a socket exists and the link fails. |
| `Server.AwaitAckAck` | Server/server.py:143-150 | For a deadline of `n` looks: the loop times out exactly when every look before the deadline saw the flag set, taking all `n`. Otherwise it returns at the first look that saw the flag clear. |
| `Server.PulseServer.constructor` | Server/server.py:107-120 | Streaming off, nothing pending, `ack_timeout` 20 seconds (200 looks of the wait loop), no client. |
| `Server.PulseServer.StopDataCollection` | Server/server.py:125-139 | The new state is `Cleanup` of the old. |
| `Server.PulseServer.Send` | Server/server.py:97-103 | The new state is `SendMessage` of the old, with the cleanup on failure. |
| `Server.PulseServer.DataReceivedCallback` | Server/server.py:169-197 | The new state is `OnData` of the old. Reports which timeout handler's wait thread is started. |
| `Server.PulseServer.HandleStartSyncTimeout` | Server/server.py:159-162 | The new state is the Start `Timeout` of the old. |
| `Server.PulseServer.HandleStopSyncTimeout` | Server/server.py:164-167 | The new state is the Stop `Timeout` of the old. |
| `Server.PulseServer.WaitForAckAck` | Server/server.py:141-157 | The wait takes `ack_timeout` × 10 looks. Corrected firing: the handler runs only if the flag was set at every look up to the deadline and is still pending; a clear look leaves the state untouched. |
| `Server.PulseServer.StreamPulseData` | Server/server.py:203-221 | The new state is `Pump` of the old. Reports a fault exactly when a sample faulted. |
| `Server.PulseServer.ListenForData` | Server/server.py:84-95 | Corrected: the new state and exit are those of the corrected `Listen`. |
| `Server.PulseServer.AcceptConnection` | Server/server.py:59-81 | Corrected: the new state is that of the corrected `AcceptLoop`. |
| `ClientModel.Initial` | Client/client.py:12-22 | Not connected, not receiving, no socket, no frame, nothing sent; the configured address kept. |
| `ClientModel.SendCommand` | Client/client.py:145-152 | Exactly the command is appended when a socket exists. Nothing else changes. |
| `ClientModel.ReceiveResponse` | Client/client.py:154-164 | No response without a socket; otherwise what arrived in time. |
| `ClientModel.Acked` | Client/client.py:67 | `response and "ACK" in response`: only a present answer at least as long as `ACK` acknowledges, and one that starts with `ACK` does. |
| `ClientModel.AckedIffAckOccurs` | Client/client.py:67 | A response acknowledges exactly when it is present and `ACK` occurs in it. |
| `ClientModel.DiscoverAndPair` | Client/client.py:114-128 | Succeeds exactly when an address is known afterwards. A known address is kept; otherwise only a found one is adopted. |
| `ClientModel.ConnectToServer` | Client/client.py:130-143 | Without an address: failure, nothing changed. With one: the socket object is kept, and the client is connected exactly when the link comes up. |
| `ClientModel.HandleConnect` | Client/client.py:47-58 | A no-op when connected. Otherwise connected exactly when an address is known or found and the link comes up. Nothing sent. |
| `ClientModel.StartDataReception` | Client/client.py:174-180 | Receiving on, stop event clear, reception thread present; nothing else changes. |
| `ClientModel.StopDataReception` | Client/client.py:204-210 | Stop event set. Receiving turns off, except when run on the reception thread itself, where the self-`join` raises first. |
| `ClientModel.CloseConnection` | Client/client.py:166-172 | With a socket: socket gone and disconnected. Without one: nothing changes. |
| `ClientModel.HandleStart` | Client/client.py:60-73 | Acts only when connected and idle. It sends `START_SYNC`, then `ACK_ACK` exactly on an ACK-containing answer, and receiving is on exactly then. On failure only the outbox changed. |
| `ClientModel.HandleStop` | Client/client.py:75-87 | Acts only while receiving. It sends `STOP_SYNC`, then `ACK_ACK` exactly on an ACK-containing answer, and receiving stops exactly then. Otherwise only the outbox changed. |
| `ClientModel.Disconnect` | Client/client.py:89-106 | Disconnect or exit when not connected changes nothing. When connected, receiving ends and an existing socket is closed; nothing is sent. |
| `ClientModel.Execute` | Client/client.py:33-40 | Dispatch to the handler named by the command; an unknown command changes nothing. |
| `ClientModel.Drain` | Client/client.py:24-41 | `command_handler` over a queue, one command at a time in queue order, `exit` ending it: the outbox only grows and no command touches the frame slot. |
| `ClientModel.Consumed` | Client/client.py:26-31 | The handler takes the whole queue if it holds no `exit`, else exactly up to the first `exit`. |
| `ClientModel.DrainInOrder` | Client/client.py:24-41 | Commands run one at a time in FIFO order: draining `q1 + q2` is draining `q1` and then `q2`. |
| `ClientModel.DrainStopsAtExit` | Client/client.py:26-31 | After `exit` only the teardown runs; nothing queued behind it is processed. |
| `ClientModel.ConsumedFirstExit` | Client/client.py:26-31 | The handler stops right after the first `exit`. |
| `ClientModel.ExecuteKeepsConsistent` | Client/client.py:33-40 | Every command keeps "connected implies socket, receiving implies connected". |
| `ClientModel.DrainKeepsConsistent` | Client/client.py:24-41 | The handler as a whole keeps that invariant. |
| `ClientModel.DisconnectReleasesAll` | Client/client.py:89-106 | On a consistent connected client, disconnect and exit end not receiving, with no socket, not connected. |
| `ClientModel.RepeatedCommandsAreNoOps` | Client/client.py:47-106 | A second `connect`, `start` or `stop` after one that took effect, and a second `disconnect`, change nothing. |
| `ClientModel.StartThenStop` | Client/client.py:60-87 | A confirmed start then stop sends the four control messages in order, ends not receiving and keeps the connection. |
| `ClientModel.ReceptionLoop` | Client/client.py:182-202 | Corrected reception loop: silence stops reception, other endings leave the flag alone. The slot only ever holds a received message. Nothing is sent and the connection is untouched. |
| `ClientModel.LatestFrameWins` | Client/client.py:184-198 | After a run of frames the slot holds the most recent one, and reception goes on. |
| `ClientModel.SilenceEndsReception` | Client/client.py:199-202 | A missing or empty response ends reception, keeping the last frame before it; nothing after it is read. |
| `ClientModel.SilenceAfterFrames` | Client/client.py:184-202 | The general form of the above, for any input after the silence. |
| `ClientModel.SelfJoinLeavesReceiving` | Client/client.py:199-210 | As written: stopping from the reception thread leaves receiving on, so `start` is refused afterwards. |
| `ClientModel.RestartAfterSilence` | Client/client.py:199-210 | Corrected: after silence, a confirmed `start` succeeds again. |
| `Client.BluetoothClient.constructor` | Client/client.py:12-22 | The initial state for the given address, with an empty queue. |
| `Client.BluetoothClient.QueueCommand` | Client/client.py:43-45 | The command joins the back of the queue; nothing else changes. |
| `Client.BluetoothClient.CommandHandler` | Client/client.py:24-41 | The new state is `Drain` of the old queue. The queue keeps what follows the first `exit`. It reports exit exactly when one was queued. |
| `Client.BluetoothClient.HandleConnect` | Client/client.py:47-58 | The new state is `HandleConnect` of the old. |
| `Client.BluetoothClient.HandleStart` | Client/client.py:60-73 | The new state is `HandleStart` of the old. |
| `Client.BluetoothClient.HandleStop` | Client/client.py:75-87 | The new state is `HandleStop` of the old. |
| `Client.BluetoothClient.HandleDisconnect` | Client/client.py:89-97 | The new state is `Disconnect` of the old. |
| `Client.BluetoothClient.HandleExit` | Client/client.py:99-106 | The new state is `Disconnect` of the old. |
| `Client.BluetoothClient.DiscoverAndPair` | Client/client.py:114-128 | New state and result as `DiscoverAndPair`. |
| `Client.BluetoothClient.ConnectToServer` | Client/client.py:130-143 | New state and result as `ConnectToServer`. |
| `Client.BluetoothClient.SendCommand` | Client/client.py:145-152 | The new state is `SendCommand` of the old. |
| `Client.BluetoothClient.ReceiveResponse` | Client/client.py:154-164 | The response is that of `ReceiveResponse`; nothing changes. |
| `Client.BluetoothClient.CloseConnection` | Client/client.py:166-172 | The new state is `CloseConnection` of the old. |
| `Client.BluetoothClient.StartDataReception` | Client/client.py:174-180 | The new state is `StartDataReception` of the old. |
| `Client.BluetoothClient.StopDataReception` | Client/client.py:204-210 | The new state is `StopDataReception` of the old, from the command thread. |
| `Client.BluetoothClient.DataReceptionLoop` | Client/client.py:182-202 | New state and ending as the corrected `ReceptionLoop`. |
| `Client.BluetoothClient.GetPulseData` | Client/client.py:212-214 | Returns the latest frame slot. |

## Left out

- The Bluetooth transport: RFCOMM bind, listen, accept, connect, recv and send. These are the outbox and the per-call parameters named above.
- The `bluetoothctl` subprocess calls (`set_device_name`, `set_discoverable`). They are operating-system side effects.
- Threads, `threading.Event`, `ack_lock` and waiting in `join`. Each callback is one atomic step, and the wait threads are `Expired` events that can come at any point. Which waiter belongs to which handshake is not tracked, so a stale waiter from an earlier handshake firing during a later one is covered only as an arbitrary `Expired` event.
- The two Initiator threads reading the same socket: the handshake's `receive_response` and the reception loop. Which reply reaches which thread is a parameter.
- Wall-clock time and the jitter of `time.sleep`. The deadline is a fixed count of polls.
- The signal processing and `read_sensor`. They are floating-point numerics. A frame is its JSON text.
- `json.dumps` and `json.loads`. They are a foreign library. A frame is kept as its text, where the source keeps the decoded object.
- The device scan and its case-insensitive name match in `discover_and_pair`. The scan is the address it finds.
- The Flask routes. They only queue commands or read the frame slot.
- `start` of the client, `start_data_collection` and `start_pulse_data_stream`. They only start threads or print.
- Whitespace beyond ASCII. `Strip` cuts the ASCII characters Python treats as whitespace.
- Loops that never end. They are modelled on finite runs of input that end when the observed input runs out.
- Server.PulseServer.ListenForData: models the corrected receive loop, which leaves once the socket is gone; as written it spins (see Findings).
- Server.PulseServer.WaitForAckAck: models the corrected firing, which looks at the flag once more before the handler; as written the handler runs unguarded (see Findings).
- Server.PulseServer.AcceptConnection: built on the corrected receive loop, so it does not capture the accept loop stuck behind a spinning receive loop.
- Client.BluetoothClient.DataReceptionLoop: models the corrected stop on silence, without the self-`join`; as written the flag stays set (see Findings).
- ServerModel.Serve: built on the corrected `Listen`; as written a session can go on with no socket and never return to `accept()`, as `FailedAckHangsListenerAsWritten` shows.
- ServerModel.AcceptLoop: built on `Serve`, so "still serving means a socket is held" is a property of the corrected loop only.
- ServerModel.ListenKeepsSocket: a property of the corrected `Listen`; the loop as written goes on after its socket is gone.
- ServerModel.StartHandshakeStartsStreaming: "a later timeout changes nothing" holds for the corrected firing `Expire` only; `UnguardedTimeoutUndoesStart` states the as-written outcome.
- ServerModel.StopHandshakeStopsStreaming: "a later timeout changes nothing" holds for the corrected firing `Expire` only; `UnguardedTimeoutUndoesStop` states the as-written outcome.
- ServerModel.Step: a wait thread fires through the corrected `Expire`, and a client is accepted whenever no socket is held, even where the code as written is stuck in a spinning receive loop. The lemmas about `Run` speak of the corrected program; the as-written races are the Findings lemmas.
- ServerModel.Run: composes `Step`, so it inherits the corrected firing and the accept rule above, and it allows pump steps after a pump fault, which the code does not.

## Findings

| source | as written | input that shows it | evidently intended | confidence | as-written member | corrected member |
|---|---|---|---|---|---|---|
| Server/server.py:84-95 | `listen_for_data` loops on `if self.client_socket:` with no else branch. | `START_SYNC` whose `ACK` send fails: the cleanup inside the loop clears the socket, and the loop then spins forever without returning to `accept_connection`. | Leave the loop once the socket is gone, so the accept loop cleans up and waits for the next client. | not executed | `ServerModel.FailedAckHangsListenerAsWritten` | `ServerModel.FailedAckEndsSession` |
| Server/server.py:151-154 | The wait thread calls its timeout handler after the loop, outside `ack_lock`, without looking at `pending_ack_ack` again. | `START_SYNC`, then `ACK_ACK` processed after the last poll but before the handler runs: streaming goes on and is then forced off. | The first of `ACK_ACK` and timeout decides the handshake. | not executed | `ServerModel.UnguardedTimeoutUndoesStart` | `ServerModel.FirstResolverWins` |
| Client/client.py:199-210 | `data_reception_loop` calls `stop_data_reception` on its own thread, whose `join()` raises `RuntimeError` before `is_receiving_data` is cleared. | Reception running, then a receive timeout or an empty message: the client stays marked as receiving and refuses the next `start`. | Silence ends reception and a new `start` can succeed. | not executed | `ClientModel.SelfJoinLeavesReceiving` | `ClientModel.RestartAfterSilence` |

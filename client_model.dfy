/** The Initiator (consumer) side of the handshake, on values: the state of a
    `BluetoothClient`, one function per handler and helper, the command queue
    drained in order, and the reception loop that keeps the latest frame.
    The class in module Client is proved against these functions. */
module ClientModel {
  import opened Wire

  /** A socket object, known only by its identity. */
  type Socket = nat
  type Address = string

  datatype Client = Client(
    serverAddress: Option<Address>,  // server_address
    socket: Option<Socket>,          // client_socket
    isConnected: bool,               // is_connected
    isReceiving: bool,               // is_receiving_data
    stopEvent: bool,                 // data_thread_stop_event is set
    hasDataThread: bool,             // data_thread is not None
    pulseData: Option<string>,       // pulse_data: the latest frame, as received
    sent: seq<string>)               // what send_command handed to the socket, in order

  function Initial(address: Option<Address>): (c: Client)
    ensures !c.isConnected && !c.isReceiving && c.socket.None? && c.pulseData.None? && c.sent == []
    ensures c.serverAddress == address
  {
    Client(address, None, false, false, false, false, None, [])
  }

  /** What the client keeps true between commands: a connection has a
      socket, and reception runs only on a connection. */
  predicate Consistent(c: Client) {
    (c.isConnected ==> c.socket.Some?) && (c.isReceiving ==> c.isConnected)
  }

  /** Python truthiness of `server_address`. */
  predicate HasAddress(a: Option<Address>) {
    a.Some? && a.value != ""
  }

  /** What the outside world does while one command runs: the address of
      the first nearby device whose name matches the target (if a scan
      happens), whether `connect` succeeds, the socket object created for
      it, and what `recv` returns within the handshake timeout (None for a
      timeout or a transport error). */
  datatype Peer = Peer(found: Option<Address>, linkUp: bool, socket: Socket, answer: Option<string>)

  /** `send_command`: the command goes out only when a socket exists; a
      transport error is only printed. Nothing but the outbox changes. */
  function SendCommand(c: Client, command: string): (r: Client)
    ensures c.socket.Some? ==> r.sent == c.sent + [command]
    ensures c.socket.None? ==> r.sent == c.sent
    ensures r.(sent := c.sent) == c
  {
    if c.socket.Some? then c.(sent := c.sent + [command]) else c
  }

  /** `receive_response`: without a socket there is no response. */
  function ReceiveResponse(c: Client, answer: Option<string>): (r: Option<string>)
    ensures c.socket.None? ==> r.None?
    ensures c.socket.Some? ==> r == answer
  {
    if c.socket.Some? then answer else None
  }

  /** `response and "ACK" in response`: only a present answer at least as
      long as the token can acknowledge, and one that starts with it does. */
  predicate Acked(response: Option<string>): (b: bool)
    ensures b ==> response.Some? && |Ack| <= |response.value|
    ensures response.Some? && Ack <= response.value ==> b
  {
    response.Some? && response.value != "" && Contains(response.value, Ack)
  }

  /** A response acknowledges exactly when the text `ACK` occurs in it. */
  lemma AckedIffAckOccurs(response: Option<string>)
    ensures Acked(response) <==> response.Some? && Occurs(response.value, Ack)
  {
    if response.Some? {
      ContainsIffOccurs(response.value, Ack);
      if Occurs(response.value, Ack) {
        var i :| 0 <= i <= |response.value| && Ack <= response.value[i..];
        assert response.value[i] == 'A';
      }
    }
  }

  /** `discover_and_pair`: with an address already known it succeeds at
      once; otherwise a scan may supply one. It succeeds exactly when an
      address is known afterwards. */
  function DiscoverAndPair(c: Client, found: Option<Address>): (r: (Client, bool))
    ensures r.1 <==> HasAddress(r.0.serverAddress)
    ensures HasAddress(c.serverAddress) ==> r.0 == c
    ensures r.0 == c || (found.Some? && r.0 == c.(serverAddress := found))
  {
    if HasAddress(c.serverAddress) then (c, true)
    else
      var c1 := if found.Some? then c.(serverAddress := found) else c;
      (c1, HasAddress(c1.serverAddress))
  }

  /** `connect_to_server`: fails without an address; otherwise a socket
      object is made (and kept even if `connect` then raises) and the client
      is connected exactly when the transport connects. */
  function ConnectToServer(c: Client, linkUp: bool, socket: Socket): (r: (Client, bool))
    ensures !HasAddress(c.serverAddress) ==> r == (c, false)
    ensures HasAddress(c.serverAddress) ==> r.1 == linkUp && r.0.socket == Some(socket)
    ensures HasAddress(c.serverAddress) ==>
              r.0 == c.(socket := Some(socket), isConnected := linkUp || c.isConnected)
  {
    if !HasAddress(c.serverAddress) then (c, false)
    else if linkUp then (c.(socket := Some(socket), isConnected := true), true)
    else (c.(socket := Some(socket)), false)
  }

  /** `_handle_connect`: a no-op when connected; otherwise the client ends
      up connected exactly when an address is or becomes known and the
      transport connects. Nothing is sent. */
  function HandleConnect(c: Client, p: Peer): (r: Client)
    ensures c.isConnected ==> r == c
    ensures !c.isConnected ==>
              (r.isConnected <==> p.linkUp && (HasAddress(c.serverAddress) || HasAddress(p.found)))
    ensures r.isConnected && !c.isConnected ==> r.socket == Some(p.socket)
    ensures r.sent == c.sent && r.isReceiving == c.isReceiving && r.pulseData == c.pulseData
    ensures r.stopEvent == c.stopEvent && r.hasDataThread == c.hasDataThread
  {
    if c.isConnected then c
    else
      var paired := DiscoverAndPair(c, p.found);
      if paired.1 then ConnectToServer(paired.0, p.linkUp, p.socket).0 else paired.0
  }

  /** `start_data_reception`: the stop event cleared, a reception thread
      started, reception on. */
  function StartDataReception(c: Client): (r: Client)
    ensures r.isReceiving && !r.stopEvent && r.hasDataThread
    ensures r.(isReceiving := c.isReceiving, stopEvent := c.stopEvent, hasDataThread := c.hasDataThread) == c
  {
    c.(stopEvent := false, hasDataThread := true, isReceiving := true)
  }

  /** `stop_data_reception`: the stop event is set, the reception thread
      joined, reception off. Run by the reception thread itself
      (`onDataThread`), the `join` raises RuntimeError (a thread cannot join
      itself) and reception is never marked off. */
  function StopDataReception(c: Client, onDataThread: bool): (r: Client)
    ensures r.stopEvent
    ensures r.isReceiving <==> c.isReceiving && onDataThread && c.hasDataThread
    ensures r.(stopEvent := c.stopEvent, isReceiving := c.isReceiving) == c
  {
    if onDataThread && c.hasDataThread then c.(stopEvent := true)
    else c.(stopEvent := true, isReceiving := false)
  }

  /** `close_connection`: acts only when a socket exists. */
  function CloseConnection(c: Client): (r: Client)
    ensures c.socket.None? ==> r == c
    ensures c.socket.Some? ==> r.socket.None? && !r.isConnected
    ensures r.(socket := c.socket, isConnected := c.isConnected) == c
  {
    if c.socket.Some? then c.(socket := None, isConnected := false) else c
  }

  /** `_handle_start`: only a connected, idle client acts. It sends
      START_SYNC; an answer containing ACK is confirmed with ACK_ACK and
      turns reception on, anything else leaves it off. */
  function HandleStart(c: Client, answer: Option<string>): (r: Client)
    ensures !(c.isConnected && !c.isReceiving) ==> r == c
    ensures c.isConnected && !c.isReceiving ==>
              (r.isReceiving <==> c.socket.Some? && Acked(answer))
    ensures c.isConnected && !c.isReceiving && c.socket.Some? ==>
              r.sent == c.sent + [StartSync] + (if Acked(answer) then [AckAck] else [])
    ensures c.socket.None? ==> r == c
    ensures !r.isReceiving ==> r == c.(sent := r.sent)
    ensures r.isConnected == c.isConnected && r.socket == c.socket
    ensures r.pulseData == c.pulseData && r.serverAddress == c.serverAddress
  {
    if c.isConnected && !c.isReceiving then
      var c1 := SendCommand(c, StartSync);
      var response := ReceiveResponse(c1, answer);
      if Acked(response) then StartDataReception(SendCommand(c1, AckAck)) else c1
    else c
  }

  /** `_handle_stop`: only a receiving client acts. It sends STOP_SYNC; an
      answer containing ACK is confirmed with ACK_ACK and turns reception
      off, anything else leaves it on. */
  function HandleStop(c: Client, answer: Option<string>): (r: Client)
    ensures !c.isReceiving ==> r == c
    ensures c.isReceiving ==> (r.isReceiving <==> !(c.socket.Some? && Acked(answer)))
    ensures c.isReceiving && c.socket.Some? ==>
              r.sent == c.sent + [StopSync] + (if Acked(answer) then [AckAck] else [])
    ensures c.socket.None? ==> r == c
    ensures r.isReceiving ==> r == c.(sent := r.sent)
    ensures r.isConnected == c.isConnected && r.socket == c.socket
    ensures r.pulseData == c.pulseData && r.serverAddress == c.serverAddress
  {
    if c.isReceiving then
      var c1 := SendCommand(c, StopSync);
      var response := ReceiveResponse(c1, answer);
      if Acked(response) then StopDataReception(SendCommand(c1, AckAck), false) else c1
    else c
  }

  /** `_handle_disconnect`, and the body of `_handle_exit`, which is the
      same: when connected, reception is stopped first and then the
      connection closed; otherwise nothing changes. Nothing is sent. */
  function Disconnect(c: Client): (r: Client)
    ensures !c.isConnected ==> r == c
    ensures c.isConnected ==> !r.isReceiving
    ensures c.isConnected && c.socket.Some? ==> r.socket.None? && !r.isConnected
    ensures r.sent == c.sent && r.pulseData == c.pulseData && r.serverAddress == c.serverAddress
  {
    if c.isConnected then
      CloseConnection(if c.isReceiving then StopDataReception(c, false) else c)
    else c
  }

  const Exit: string := "exit"

  /** One command of `command_handler` other than `exit`; an unknown
      command is only marked done. */
  function Execute(c: Client, command: string, p: Peer): (r: Client)
    ensures command !in {"connect", "start", "stop", "disconnect"} ==> r == c
    ensures command == "connect" ==> r == HandleConnect(c, p)
    ensures command == "start" ==> r == HandleStart(c, p.answer)
    ensures command == "stop" ==> r == HandleStop(c, p.answer)
    ensures command == "disconnect" ==> r == Disconnect(c)
    ensures c.sent <= r.sent && r.pulseData == c.pulseData
  {
    if command == "connect" then HandleConnect(c, p)
    else if command == "start" then HandleStart(c, p.answer)
    else if command == "stop" then HandleStop(c, p.answer)
    else if command == "disconnect" then Disconnect(c)
    else c
  }

  /** `command_handler` draining `queue`: commands run one after another in
      queue order, the k-th meeting the world `env(k)`; `exit` tears the
      connection down and ends the handler. Commands are only ever added to
      the outbox, and no command touches the frame slot. */
  function Drain(c: Client, queue: seq<string>, env: nat -> Peer, k: nat): (r: Client)
    ensures c.sent <= r.sent
    ensures r.pulseData == c.pulseData
    decreases |queue|
  {
    if queue == [] then c
    else if queue[0] == Exit then Disconnect(c)
    else Drain(Execute(c, queue[0], env(k)), queue[1..], env, k + 1)
  }

  /** How many queued commands the handler takes: all of them, or those up
      to and including the first `exit`. */
  function Consumed(queue: seq<string>): (n: nat)
    ensures n <= |queue|
    ensures Exit !in queue ==> n == |queue|
    ensures Exit in queue ==> 0 < n && queue[n - 1] == Exit && Exit !in queue[..n - 1]
    decreases |queue|
  {
    if queue == [] then 0
    else if queue[0] == Exit then 1
    else
      var m := Consumed(queue[1..]);
      assert queue == [queue[0]] + queue[1..];
      assert Exit in queue[1..] ==> queue[..m] == [queue[0]] + queue[1..][..m - 1];
      1 + m
  }

  /** The handler takes the queue in order: running `q1` (which holds no
      `exit`) and then `q2` is running `q1 + q2`. */
  lemma {:induction false} DrainInOrder(c: Client, q1: seq<string>, q2: seq<string>, env: nat -> Peer, k: nat)
    requires Exit !in q1
    ensures Drain(c, q1 + q2, env, k) == Drain(Drain(c, q1, env, k), q2, env, k + |q1|)
    decreases |q1|
  {
    if q1 == [] {
      assert q1 + q2 == q2;
    } else {
      assert (q1 + q2)[0] == q1[0] && (q1 + q2)[1..] == q1[1..] + q2;
      assert q1[0] in q1;
      DrainInOrder(Execute(c, q1[0], env(k)), q1[1..], q2, env, k + 1);
    }
  }

  /** After `exit` the handler ends: nothing queued behind it runs. */
  lemma DrainStopsAtExit(c: Client, q1: seq<string>, q2: seq<string>, env: nat -> Peer, k: nat)
    requires Exit !in q1
    ensures Drain(c, q1 + [Exit] + q2, env, k) == Disconnect(Drain(c, q1, env, k))
    ensures Consumed(q1 + [Exit] + q2) == |q1| + 1
  {
    DrainInOrder(c, q1, [Exit] + q2, env, k);
    assert q1 + [Exit] + q2 == q1 + ([Exit] + q2);
    var q := q1 + [Exit] + q2;
    assert q[..|q1|] == q1 && q[|q1|] == Exit;
    ConsumedFirstExit(q, |q1|);
  }

  lemma {:induction false} ConsumedFirstExit(q: seq<string>, k: nat)
    requires k < |q| && q[k] == Exit && Exit !in q[..k]
    ensures Consumed(q) == k + 1
    decreases k
  {
    if k > 0 {
      assert q[0] in q[..k];
      assert q[1..][..k - 1] == q[1..k];
      assert q[1..k] <= q[..k][1..];
      ConsumedFirstExit(q[1..], k - 1);
    }
  }

  /** Every handler keeps the client consistent. */
  lemma ExecuteKeepsConsistent(c: Client, command: string, p: Peer)
    requires Consistent(c)
    ensures Consistent(Execute(c, command, p))
  {
  }

  lemma {:induction false} DrainKeepsConsistent(c: Client, queue: seq<string>, env: nat -> Peer, k: nat)
    requires Consistent(c)
    ensures Consistent(Drain(c, queue, env, k))
    decreases |queue|
  {
    if queue != [] && queue[0] != Exit {
      ExecuteKeepsConsistent(c, queue[0], env(k));
      DrainKeepsConsistent(Execute(c, queue[0], env(k)), queue[1..], env, k + 1);
    }
  }

  /** On a consistent client, disconnect and exit leave nothing behind:
      no reception, no socket, no connection. */
  lemma DisconnectReleasesAll(c: Client)
    requires Consistent(c) && c.isConnected
    ensures var r := Disconnect(c); !r.isReceiving && r.socket.None? && !r.isConnected
  {
  }

  /** Repeating a command that took effect changes nothing more. */
  lemma RepeatedCommandsAreNoOps(c: Client, p: Peer, p': Peer, a: Option<string>, a': Option<string>)
    ensures HandleConnect(c, p).isConnected ==>
              HandleConnect(HandleConnect(c, p), p') == HandleConnect(c, p)
    ensures HandleStart(c, a).isReceiving ==>
              HandleStart(HandleStart(c, a), a') == HandleStart(c, a)
    ensures Consistent(c) && c.isReceiving && !HandleStop(c, a).isReceiving ==>
              HandleStop(HandleStop(c, a), a') == HandleStop(c, a)
    ensures Disconnect(Disconnect(c)) == Disconnect(c)
  {
  }

  /** A full Start and Stop round trip: four control messages in order,
      reception on and then off again, the connection kept. */
  lemma StartThenStop(c: Client, a: Option<string>, a': Option<string>)
    requires Consistent(c) && c.isConnected && !c.isReceiving
    requires Acked(a) && Acked(a')
    ensures var r := HandleStop(HandleStart(c, a), a');
            !r.isReceiving && r.isConnected && r.socket == c.socket &&
            r.sent == c.sent + [StartSync, AckAck, StopSync, AckAck]
  {
    var m := HandleStart(c, a);
    assert m.sent == c.sent + [StartSync, AckAck];
    assert HandleStop(m, a').sent == m.sent + [StopSync, AckAck];
  }

  // ---------------------------------------------------------------------------
  // Reception (data_reception_loop)

  /** Why the reception loop ended: the stop event was set, nothing (or an
      empty message) came within the timeout, a message did not decode as
      JSON (the exception ends the thread), or the observed messages ran out
      while it was still receiving. */
  datatype Ending = StopRequested | Silence | Malformed | Observed

  datatype Received = Received(client: Client, ending: Ending)

  /** `data_reception_loop`, corrected: each message replaces the latest
      frame; silence stops reception, with the stop done without the
      self-`join` the source attempts (see SelfJoinLeavesReceiving).
      `wellFormed` tells which texts `json.loads` accepts. */
  function ReceptionLoop(c: Client, inbound: seq<Option<string>>, wellFormed: string -> bool): (r: Received)
    ensures r.client.sent == c.sent && r.client.socket == c.socket
    ensures r.client.isConnected == c.isConnected && r.client.serverAddress == c.serverAddress
    ensures r.ending == Silence ==> !r.client.isReceiving && r.client.stopEvent
    ensures r.ending != Silence ==> r.client.isReceiving == c.isReceiving
    ensures r.client.pulseData == c.pulseData
         || exists i :: 0 <= i < |inbound| && r.client.pulseData == inbound[i]
    decreases |inbound|
  {
    if c.stopEvent then Received(c, StopRequested)
    else if inbound == [] then Received(c, Observed)
    else
      var data := ReceiveResponse(c, inbound[0]);
      if data.Some? && data.value != "" then
        if wellFormed(data.value) then
          var r := ReceptionLoop(c.(pulseData := data), inbound[1..], wellFormed);
          assert r.client.pulseData != data ==>
                   exists i :: 0 <= i < |inbound[1..]| && r.client.pulseData == inbound[1..][i];
          assert forall i :: 0 <= i < |inbound[1..]| ==> inbound[1..][i] == inbound[i + 1];
          r
        else Received(c, Malformed)
      else Received(StopDataReception(c, false), Silence)
  }

  /** Every item is a non-empty message that decodes. */
  predicate AllFrames(xs: seq<Option<string>>, wellFormed: string -> bool) {
    forall i :: 0 <= i < |xs| ==> xs[i].Some? && xs[i].value != "" && wellFormed(xs[i].value)
  }

  /** The frame slot after `xs` replaced `slot` one by one. */
  function Latest(slot: Option<string>, xs: seq<Option<string>>): Option<string> {
    if xs == [] then slot else xs[|xs| - 1]
  }

  /** The slot holds the most recent frame: after a run of frames it is the
      last one, and reception goes on. */
  lemma {:induction false} LatestFrameWins(c: Client, frames: seq<Option<string>>, wellFormed: string -> bool)
    requires c.socket.Some? && !c.stopEvent
    requires AllFrames(frames, wellFormed)
    ensures ReceptionLoop(c, frames, wellFormed)
         == Received(c.(pulseData := Latest(c.pulseData, frames)), Observed)
    decreases |frames|
  {
    if frames != [] {
      var c1 := c.(pulseData := frames[0]);
      assert AllFrames(frames[1..], wellFormed) by {
        forall i | 0 <= i < |frames[1..]| ensures frames[1..][i] == frames[i + 1] { }
      }
      LatestFrameWins(c1, frames[1..], wellFormed);
      if |frames| > 1 {
        assert frames[1..][|frames[1..]| - 1] == frames[|frames| - 1];
      }
    }
  }

  /** Silence ends reception: the slot keeps the last frame before it and
      nothing after it is read. */
  lemma SilenceEndsReception(c: Client, frames: seq<Option<string>>, gap: Option<string>,
                             rest: seq<Option<string>>, wellFormed: string -> bool)
    requires c.socket.Some? && !c.stopEvent
    requires AllFrames(frames, wellFormed)
    requires gap.None? || gap == Some("")
    ensures ReceptionLoop(c, frames + [gap] + rest, wellFormed)
         == Received(StopDataReception(c.(pulseData := Latest(c.pulseData, frames)), false), Silence)
  {
    SilenceAfterFrames(c, frames, [gap] + rest, wellFormed);
    assert frames + [gap] + rest == frames + ([gap] + rest);
    assert ([gap] + rest)[0] == gap;
  }

  lemma {:induction false} SilenceAfterFrames(c: Client, frames: seq<Option<string>>,
                                              tail: seq<Option<string>>, wellFormed: string -> bool)
    requires c.socket.Some? && !c.stopEvent
    requires AllFrames(frames, wellFormed)
    requires tail != [] && (tail[0].None? || tail[0] == Some(""))
    ensures ReceptionLoop(c, frames + tail, wellFormed)
         == Received(StopDataReception(c.(pulseData := Latest(c.pulseData, frames)), false), Silence)
    decreases |frames|
  {
    if frames == [] {
      assert frames + tail == tail;
    } else {
      var c1 := c.(pulseData := frames[0]);
      assert (frames + tail)[0] == frames[0] && (frames + tail)[1..] == frames[1..] + tail;
      assert AllFrames(frames[1..], wellFormed) by {
        forall i | 0 <= i < |frames[1..]| ensures frames[1..][i] == frames[i + 1] { }
      }
      SilenceAfterFrames(c1, frames[1..], tail, wellFormed);
      if |frames| > 1 {
        assert frames[1..][|frames[1..]| - 1] == frames[|frames| - 1];
      }
    }
  }

  /** Finding (as written): when the reception loop stops itself, the
      self-`join` raises before reception is marked off, so the client
      still believes it is receiving and refuses a new `start` until a
      `stop` is issued. */
  lemma SelfJoinLeavesReceiving(c: Client, answer: Option<string>)
    requires c.isReceiving && c.hasDataThread
    ensures StopDataReception(c, true).isReceiving
    ensures HandleStart(StopDataReception(c, true), answer) == StopDataReception(c, true)
  {
  }

  /** Finding (corrected): after silence ends reception, a new `start`
      on the same connection can succeed. */
  lemma RestartAfterSilence(c: Client, frames: seq<Option<string>>, rest: seq<Option<string>>,
                            wellFormed: string -> bool, answer: Option<string>)
    requires Consistent(c) && c.isReceiving && !c.stopEvent
    requires AllFrames(frames, wellFormed) && Acked(answer)
    ensures var r := ReceptionLoop(c, frames + [None] + rest, wellFormed).client;
            !r.isReceiving && HandleStart(r, answer).isReceiving
  {
    SilenceEndsReception(c, frames, None, rest, wellFormed);
  }
}

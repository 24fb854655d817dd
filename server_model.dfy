/** The Responder (sensor) side of the handshake, on values: the state that
    `BluetoothPulseServer` and its `BluetoothConnectionManager` keep, one
    function per callback or loop iteration, and an interleaving model in
    which the receive thread, the wait threads and the data pump each take
    atomic steps in any order. The classes in module Server are proved
    against these functions. */
module ServerModel {
  import opened Wire

  /** A connected client socket, known only by its identity. */
  type Socket = nat
  type Address = string

  /** `ack_timeout`, in seconds. */
  const AckTimeout: nat := 20
  /** The wait loop sleeps 0.1 s between two looks at the flag. */
  const PollsPerSecond: nat := 10
  /** Number of looks at `pending_ack_ack` a wait thread takes before it
      gives up; time is counted in these polls. */
  const AckWaitPolls: nat := AckTimeout * PollsPerSecond

  /** Which handshake a wait thread guards; it selects the timeout handler. */
  datatype Kind = Start | Stop

  datatype Server = Server(
    transmit: bool,            // transmit_data
    pending: bool,             // pending_ack_ack
    stopEvent: bool,           // stop_event is set
    socket: Option<Socket>,    // bluetooth_manager.client_socket
    address: Option<Address>,  // bluetooth_manager.client_address
    sent: seq<string>)         // everything delivered by send_message, in order

  const Initial: Server := Server(false, false, false, None, None, [])

  /** `stop_data_collection`, the on-disconnect callback: streaming off, the
      client socket closed and forgotten, the stop event set and cleared
      again. It does not touch `pending_ack_ack`. */
  function Cleanup(s: Server): (r: Server)
    ensures !r.transmit && !r.stopEvent && r.socket == None && r.address == None
    ensures r.pending == s.pending && r.sent == s.sent
  {
    Server(false, s.pending, false, None, None, s.sent)
  }

  /** `send_message`: without a client socket nothing happens; otherwise the
      message is delivered, or the transport fails (`linkUp` false) and the
      on-disconnect callback runs. */
  function SendMessage(s: Server, msg: string, linkUp: bool): (r: Server)
    ensures s.socket.None? ==> r == s
    ensures s.socket.Some? && linkUp ==> r == s.(sent := s.sent + [msg])
    ensures s.socket.Some? && !linkUp ==> r == Cleanup(s)
    ensures r.pending == s.pending && s.sent <= r.sent
  {
    if s.socket.None? then s
    else if linkUp then s.(sent := s.sent + [msg])
    else Cleanup(s)
  }

  /** `data` names a handshake request once surrounding whitespace is gone. */
  predicate IsRequest(data: string) {
    Strip(data) == StartSync || Strip(data) == StopSync
  }

  predicate IsControl(data: string) {
    IsRequest(data) || Strip(data) == AckAck
  }

  /** The timeout handler the wait thread started for `data` carries. */
  function Handshake(data: string): (k: Option<Kind>)
    ensures k.Some? <==> IsRequest(data)
    ensures k == Some(Start) <==> Strip(data) == StartSync
  {
    if Strip(data) == StartSync then Some(Start)
    else if Strip(data) == StopSync then Some(Stop)
    else None
  }

  /** `data_received_callback`, one message. `linkUp` says whether the
      transport accepts the `ACK` reply, if one is sent. */
  function OnData(s: Server, data: string, linkUp: bool): (r: Server)
    // START_SYNC and STOP_SYNC: reply ACK and arm the pending flag
    ensures IsRequest(data) ==> r.pending
    ensures IsRequest(data) && s.socket.Some? && linkUp ==>
              r == s.(pending := true, sent := s.sent + [Ack])
    ensures IsRequest(data) && s.socket.None? ==> r == s.(pending := true)
    ensures IsRequest(data) && s.socket.Some? && !linkUp ==> r == Cleanup(s).(pending := true)
    // ACK_ACK resolves a pending handshake, in the direction given by transmit_data
    ensures Strip(data) == AckAck && !s.pending ==> r == s
    ensures Strip(data) == AckAck && s.pending && !s.transmit ==>
              r == s.(pending := false, transmit := true)
    ensures Strip(data) == AckAck && s.pending && s.transmit ==>
              r == s.(pending := false, transmit := false)
    // anything else is ignored
    ensures !IsControl(data) ==> r == s
    ensures s.sent <= r.sent
  {
    var d := Strip(data);
    if d == StartSync || d == StopSync then
      SendMessage(s, Ack, linkUp).(pending := true)
    else if d == AckAck then
      if s.pending then s.(pending := false, transmit := !s.transmit) else s
    else s
  }

  /** `handle_start_sync_timeout` and `handle_stop_sync_timeout`: the pending
      flag is dropped and streaming is forced off after a failed Start and on
      after a failed Stop. Nothing else changes. */
  function Timeout(s: Server, kind: Kind): (r: Server)
    ensures !r.pending
    ensures r.transmit <==> kind == Stop
    ensures r == s.(pending := false, transmit := r.transmit)
  {
    match kind
    case Start => s.(pending := false, transmit := false)
    case Stop => s.(pending := false, transmit := true)
  }

  /** A wait thread that has seen the flag set at every poll fires its
      handler. This is the corrected firing: the flag is looked at once more,
      under the lock, and the handler runs only if no ACK_ACK resolved the
      handshake in the meantime (see UnguardedTimeoutUndoesStart). */
  function Expire(s: Server, kind: Kind): (r: Server)
    ensures s.pending ==> r == Timeout(s, kind)
    ensures !s.pending ==> r == s
  {
    if s.pending then Timeout(s, kind) else s
  }

  // ---------------------------------------------------------------------------
  // The data pump (stream_pulse_data)

  /** One value the pump obtains: the JSON text of `read_sensor()` (the text
      `null` for a reading the sensor reports as invalid) and whether the
      transport accepts it, or an exception raised while reading. */
  datatype Sample = Sample(json: string, linkUp: bool) | SensorFault

  /** One iteration of `stream_pulse_data` that read a sample: it is sent
      only while `transmit_data` holds. */
  function PumpStep(s: Server, json: string, linkUp: bool): (r: Server)
    ensures !s.transmit ==> r == s
    ensures |r.sent| == |s.sent| || r.sent == s.sent + [json]
    ensures r.sent != s.sent <==> s.transmit && json != "" && s.socket.Some? && linkUp
    ensures s.transmit && json != "" && s.socket.Some? && !linkUp ==> r == Cleanup(s)
    ensures r.pending == s.pending
  {
    if json != "" && s.transmit then SendMessage(s, json, linkUp) else s
  }

  /** Any iteration of the pump; a sensor fault, or a frame the transport
      refuses while streaming, runs the on-disconnect callback. */
  function PumpTick(s: Server, x: Sample): (r: Server)
    ensures x.SensorFault? ==> r == Cleanup(s)
    ensures x.Sample? && !x.linkUp && s.transmit && x.json != "" && s.socket.Some? ==> r == Cleanup(s)
    ensures x.Sample? && !s.transmit ==> r == s
    ensures s.sent <= r.sent
  {
    match x
    case Sample(json, linkUp) => PumpStep(s, json, linkUp)
    case SensorFault => Cleanup(s)
  }

  /** The pump over a run of samples; it leaves its loop after a fault. */
  function Pump(s: Server, xs: seq<Sample>): (r: Server)
    ensures r.pending == s.pending
    decreases |xs|
  {
    if xs == [] then s
    else if xs[0].SensorFault? then Cleanup(s)
    else Pump(PumpTick(s, xs[0]), xs[1..])
  }

  /** The JSON texts of a run of samples. */
  function Jsons(xs: seq<Sample>): seq<string>
    requires forall i :: 0 <= i < |xs| ==> xs[i].Sample?
  {
    if xs == [] then [] else [xs[0].json] + Jsons(xs[1..])
  }

  predicate Deliverable(xs: seq<Sample>) {
    forall i :: 0 <= i < |xs| ==> xs[i].Sample? && xs[i].linkUp && xs[i].json != ""
  }

  /** While streaming is off, the pump sends nothing. */
  lemma {:induction false} PumpSilentWhileOff(s: Server, xs: seq<Sample>)
    requires !s.transmit
    ensures Pump(s, xs).sent == s.sent && !Pump(s, xs).transmit
    decreases |xs|
  {
    if xs != [] && xs[0].Sample? {
      PumpSilentWhileOff(PumpTick(s, xs[0]), xs[1..]);
    }
  }

  /** While streaming is on and the link holds, the pump sends every sample,
      in the order it read them. */
  lemma {:induction false} PumpSendsEverySample(s: Server, xs: seq<Sample>)
    requires s.transmit && s.socket.Some?
    requires Deliverable(xs)
    ensures Pump(s, xs) == s.(sent := s.sent + Jsons(xs))
    decreases |xs|
  {
    if xs == [] {
      assert s.sent + [] == s.sent;
    } else {
      var t := PumpTick(s, xs[0]);
      assert t == s.(sent := s.sent + [xs[0].json]);
      PumpSendsEverySample(t, xs[1..]);
      assert s.sent + [xs[0].json] + Jsons(xs[1..]) == s.sent + Jsons(xs);
    }
  }

  // ---------------------------------------------------------------------------
  // The receive loop (listen_for_data) and the accept loop (accept_connection)

  /** What one `recv` on the client socket yields: a message (and whether the
      transport accepts the reply, if the message calls for one) or a
      transport error. */
  datatype Recv = Data(text: string, linkUp: bool) | RecvError

  /** A received message after `.strip()`: an empty one is dropped, any other
      goes to `data_received_callback` (which strips it once more). */
  function Deliver(s: Server, text: string, linkUp: bool): (r: Server)
    ensures Strip(text) == "" ==> r == s
    ensures Strip(text) != "" ==> r == OnData(s, text, linkUp)
    ensures s.sent <= r.sent
  {
    var d := Strip(text);
    StripIdempotent(text);
    if d == "" then s else OnData(s, d, linkUp)
  }

  /** How a receive loop ends: `exited` when it left its loop, otherwise it
      is still serving the client when the observed messages run out. */
  datatype Listened = Listened(state: Server, exited: bool)

  /** `listen_for_data`, corrected: it serves messages while a client socket
      is present, runs the on-disconnect callback and leaves on a transport
      error, and also leaves once the socket is gone (the source spins
      instead, see ListenerSpinsOnceSocketGone). */
  function Listen(s: Server, inbound: seq<Recv>): (r: Listened)
    ensures r.exited <==> r.state.socket.None?
    ensures s.sent <= r.state.sent
    decreases |inbound|
  {
    if s.socket.None? then Listened(s, true)
    else if inbound == [] then Listened(s, false)
    else match inbound[0]
      case RecvError => Listened(Cleanup(s), true)
      case Data(text, linkUp) => Listen(Deliver(s, text, linkUp), inbound[1..])
  }

  /** One iteration of `listen_for_data` as written: `consumed` when it read
      a message, `exited` when it broke out of the loop. */
  datatype Iteration = Iteration(state: Server, consumed: bool, exited: bool)

  function ListenIterationAsWritten(s: Server, next: Recv): (r: Iteration)
    ensures s.socket.None? ==> r == Iteration(s, false, false)
    ensures s.socket.Some? ==> r.consumed
  {
    if s.socket.None? then Iteration(s, false, false)
    else match next
      case RecvError => Iteration(Cleanup(s), true, true)
      case Data(text, linkUp) => Iteration(Deliver(s, text, linkUp), true, false)
  }

  /** `listen_for_data` as written, run for `fuel` iterations of its loop
      (a blocked `recv` with nothing left to read ends the observation). */
  function ListenAsWritten(s: Server, inbound: seq<Recv>, fuel: nat): (r: Listened)
    ensures r.exited ==> r.state.socket.None?
    decreases fuel
  {
    if fuel == 0 then Listened(s, false)
    else if s.socket.Some? && inbound == [] then Listened(s, false)
    else
      var it := ListenIterationAsWritten(s, if inbound == [] then RecvError else inbound[0]);
      if it.exited then Listened(it.state, true)
      else ListenAsWritten(it.state, if it.consumed then inbound[1..] else inbound, fuel - 1)
  }

  /** Finding (as written): once the client socket is gone while the loop
      runs, every further iteration skips its body; the loop never reads
      again and never returns to the accept loop, however long it runs. */
  lemma {:induction false} ListenerSpinsOnceSocketGone(s: Server, inbound: seq<Recv>, fuel: nat)
    requires s.socket.None?
    ensures ListenAsWritten(s, inbound, fuel) == Listened(s, false)
    decreases fuel
  {
    if fuel > 0 {
      ListenerSpinsOnceSocketGone(s, inbound, fuel - 1);
    }
  }

  /** Finding (as written): a START_SYNC whose ACK cannot be sent runs the
      on-disconnect callback inside the receive loop; from then on the loop
      spins, so no later message is read and no new client is accepted. */
  lemma FailedAckHangsListenerAsWritten(s: Server, rest: seq<Recv>, fuel: nat)
    requires s.socket.Some?
    ensures ListenAsWritten(s, [Data(StartSync, false)] + rest, fuel + 1)
         == Listened(Cleanup(s).(pending := true), false)
  {
    var t := Cleanup(s).(pending := true);
    assert Strip(StartSync) == StartSync by { StripOfBareToken(StartSync); }
    assert ListenIterationAsWritten(s, Data(StartSync, false)) == Iteration(t, true, false);
    assert ([Data(StartSync, false)] + rest)[1..] == rest;
    ListenerSpinsOnceSocketGone(t, rest, fuel);
  }

  /** Finding (corrected): the same failed ACK ends the session, so the
      accept loop runs its cleanup and waits for the next client. */
  lemma FailedAckEndsSession(s: Server, rest: seq<Recv>)
    requires s.socket.Some?
    ensures Listen(s, [Data(StartSync, false)] + rest)
         == Listened(Cleanup(s).(pending := true), true)
  {
    assert Strip(StartSync) == StartSync by { StripOfBareToken(StartSync); }
    assert ([Data(StartSync, false)] + rest)[1..] == rest;
  }

  /** A token is its own stripped form. */
  lemma StripOfBareToken(t: string)
    requires t == StartSync || t == StopSync || t == AckAck || t == Ack
    ensures Strip(t) == t
  {
    assert !IsSpace(t[0]) && !IsSpace(t[|t| - 1]);
    assert LeadingSpaces(t) == 0;
    assert t[LeadingSpaces(t)..] == t;
  }

  /** Result of one `accept()`: a client or an error. */
  datatype Accepted = Accepted(socket: Socket, address: Address) | AcceptFailed

  /** One iteration of the accept loop: a client, then what it sends. */
  datatype Session = Session(accept: Accepted, inbound: seq<Recv>)

  /** The `finally` block of `accept_connection`: close and forget the client
      socket, then run the on-disconnect callback. */
  function Release(s: Server): (r: Server)
    ensures r == Cleanup(s)
  {
    Cleanup(s.(socket := None, address := None))
  }

  /** One iteration of `accept_connection`. When the session ends, the
      `finally` block always clears the connection identity and runs the
      cleanup; while it lasts, the accepted client is the connection. */
  function Serve(s: Server, x: Session): (r: Listened)
    ensures r.exited ==> r.state.socket.None? && r.state.address.None? && !r.state.transmit
    ensures x.accept.AcceptFailed? ==> r == Listened(Cleanup(s), true)
    ensures x.accept.Accepted? && !r.exited ==> r.state.socket == Some(x.accept.socket)
  {
    match x.accept
    case AcceptFailed => Listened(Release(s), true)
    case Accepted(k, a) =>
      var l := Listen(s.(socket := Some(k), address := Some(a)), x.inbound);
      ListenKeepsSocket(s.(socket := Some(k), address := Some(a)), x.inbound);
      if l.exited then Listened(Release(l.state), true) else l
  }

  /** `accept_connection` over a run of clients: each session is served to
      its end before the next `accept()`. `exited` means the loop is back at
      `accept()`; otherwise the last session's client is still being served. */
  function AcceptLoop(s: Server, xs: seq<Session>): (r: Listened)
    ensures xs != [] && r.exited ==> r.state.socket.None? && r.state.address.None? && !r.state.transmit
    ensures !r.exited ==> r.state.socket.Some?
    ensures s.sent <= r.state.sent
    decreases |xs|
  {
    if xs == [] then Listened(s, true)
    else
      var l := Serve(s, xs[0]);
      ServeExtendsOutbox(s, xs[0]);
      if l.exited then AcceptLoop(l.state, xs[1..]) else l
  }

  lemma ServeExtendsOutbox(s: Server, x: Session)
    ensures s.sent <= Serve(s, x).state.sent
  {
    if x.accept.Accepted? {
      var t := s.(socket := Some(x.accept.socket), address := Some(x.accept.address));
      assert s.sent <= Listen(t, x.inbound).state.sent;
    }
  }

  /** While the receive loop serves, it never swaps the socket. */
  lemma {:induction false} ListenKeepsSocket(s: Server, inbound: seq<Recv>)
    ensures !Listen(s, inbound).exited ==> Listen(s, inbound).state.socket == s.socket
    decreases |inbound|
  {
    if s.socket.Some? && inbound != [] && inbound[0].Data? {
      var t := Deliver(s, inbound[0].text, inbound[0].linkUp);
      assert t.socket == s.socket || t.socket.None?;
      ListenKeepsSocket(t, inbound[1..]);
    }
  }

  // ---------------------------------------------------------------------------
  // Interleavings: every thread's step is atomic, in any order

  datatype Event =
    | Connected(socket: Socket, address: Address)  // accept() returned a client
    | Arrived(recv: Recv)                          // one recv() of the receive thread
    | Expired(kind: Kind)                          // a wait thread saw the flag set at every poll
    | Pumped(sample: Sample)                       // one iteration of the data pump

  /** One atomic step of one thread. A new client is accepted only while
      none is connected; without a client a receive step does nothing. */
  function Step(s: Server, e: Event): (r: Server)
    ensures s.sent <= r.sent
    ensures s.socket.None? && !e.Connected? ==> r.sent == s.sent && r.socket.None?
    ensures e.Connected? && s.socket.None? ==> r.socket == Some(e.socket) && r.address == Some(e.address)
    ensures e.Connected? && s.socket.Some? ==> r == s
  {
    match e
    case Connected(k, a) =>
      // a second client cannot be accepted while one is served
      if s.socket.None? then s.(socket := Some(k), address := Some(a)) else s
    case Arrived(x) =>
      if s.socket.None? then s
      else (match x
        case RecvError => Release(Cleanup(s))
        case Data(text, linkUp) => Deliver(s, text, linkUp))
    case Expired(kind) => Expire(s, kind)
    case Pumped(x) => PumpTick(s, x)
  }

  /** The threads' steps in the order given: nothing once sent is ever
      taken back. */
  function Run(s: Server, events: seq<Event>): (r: Server)
    ensures s.sent <= r.sent
    decreases |events|
  {
    if events == [] then s else Run(Step(s, events[0]), events[1..])
  }

  /** The stop event is always left cleared. */
  lemma {:induction false} RunKeepsStopEventClear(s: Server, events: seq<Event>)
    requires !s.stopEvent
    ensures !Run(s, events).stopEvent
    decreases |events|
  {
    if events != [] {
      RunKeepsStopEventClear(Step(s, events[0]), events[1..]);
    }
  }

  /** Events that can switch streaming on: an ACK_ACK (resolving a Start)
      or a Stop handshake that timed out. */
  predicate MayStartStreaming(e: Event) {
    (e.Arrived? && e.recv.Data? && Strip(e.recv.text) == AckAck) || e == Expired(Stop)
  }

  /** Streaming never begins by itself: in any interleaving that ends with
      streaming on after starting with it off, some ACK_ACK arrived or some
      Stop handshake timed out. */
  lemma {:induction false} StreamingNeedsAckAckOrStopTimeout(s: Server, events: seq<Event>)
    requires !s.transmit && Run(s, events).transmit
    ensures exists i :: 0 <= i < |events| && MayStartStreaming(events[i])
    decreases |events|
  {
    if events == [] {
    } else if MayStartStreaming(events[0]) {
      assert 0 < |events| && MayStartStreaming(events[0]);
    } else {
      var t := Step(s, events[0]);
      assert !t.transmit by {
        match events[0]
        case Arrived(x) =>
          if s.socket.Some? && x.Data? {
            StripIdempotent(x.text);
          }
        case _ =>
      }
      StreamingNeedsAckAckOrStopTimeout(t, events[1..]);
      var i :| 0 <= i < |events[1..]| && MayStartStreaming(events[1..][i]);
      assert events[1..][i] == events[i + 1];
    }
  }

  /** Without any client nothing reaches the wire. */
  lemma {:induction false} NoClientNothingSent(s: Server, events: seq<Event>)
    requires s.socket.None?
    requires forall i :: 0 <= i < |events| ==> !events[i].Connected?
    ensures Run(s, events).sent == s.sent && Run(s, events).socket.None?
    decreases |events|
  {
    if events != [] {
      NoClientNothingSent(Step(s, events[0]), events[1..]);
    }
  }

  // Handshake scenarios, written with the message tokens as they arrive

  function Msg(t: string): Event { Arrived(Data(t, true)) }

  lemma RunTwo(s: Server, a: Event, b: Event)
    ensures Run(s, [a, b]) == Step(Step(s, a), b)
  {
    assert [a, b][1..] == [b];
    assert [b][1..] == [];
    assert Run(Step(s, a), [b]) == Run(Step(Step(s, a), b), []);
  }

  lemma RunThree(s: Server, a: Event, b: Event, c: Event)
    ensures Run(s, [a, b, c]) == Step(Step(Step(s, a), b), c)
  {
    assert [a, b, c][1..] == [b, c];
    RunTwo(Step(s, a), b, c);
  }

  /** A complete Start handshake turns streaming on and sends one ACK; a
      wait thread that fires afterwards changes nothing. */
  lemma StartHandshakeStartsStreaming(s: Server)
    requires s.socket.Some? && !s.transmit && !s.pending
    ensures Run(s, [Msg(StartSync), Msg(AckAck)]) == s.(transmit := true, sent := s.sent + [Ack])
    ensures Run(s, [Msg(StartSync), Msg(AckAck), Expired(Start)]) == Run(s, [Msg(StartSync), Msg(AckAck)])
  {
    StripOfBareToken(StartSync);
    StripOfBareToken(AckAck);
    RunTwo(s, Msg(StartSync), Msg(AckAck));
    RunThree(s, Msg(StartSync), Msg(AckAck), Expired(Start));
  }

  /** A complete Stop handshake turns streaming off and sends one ACK; a
      wait thread that fires afterwards changes nothing. */
  lemma StopHandshakeStopsStreaming(s: Server)
    requires s.socket.Some? && s.transmit && !s.pending
    ensures Run(s, [Msg(StopSync), Msg(AckAck)]) == s.(transmit := false, sent := s.sent + [Ack])
    ensures Run(s, [Msg(StopSync), Msg(AckAck), Expired(Stop)]) == Run(s, [Msg(StopSync), Msg(AckAck)])
  {
    StripOfBareToken(StopSync);
    StripOfBareToken(AckAck);
    RunTwo(s, Msg(StopSync), Msg(AckAck));
    RunThree(s, Msg(StopSync), Msg(AckAck), Expired(Stop));
  }

  /** A Start request never confirmed leaves streaming off. */
  lemma SilentStartNeverStreams(s: Server)
    requires s.socket.Some? && !s.transmit
    ensures Run(s, [Msg(StartSync), Expired(Start)]) == s.(pending := false, sent := s.sent + [Ack])
  {
    StripOfBareToken(StartSync);
    RunTwo(s, Msg(StartSync), Expired(Start));
  }

  /** A Stop request never confirmed leaves streaming on: the pump goes on. */
  lemma UnconfirmedStopKeepsStreaming(s: Server)
    requires s.socket.Some? && s.transmit
    ensures Run(s, [Msg(StopSync), Expired(Stop)]) == s.(pending := false, sent := s.sent + [Ack])
  {
    StripOfBareToken(StopSync);
    RunTwo(s, Msg(StopSync), Expired(Stop));
  }

  /** A duplicate ACK_ACK is a no-op: the state changes at most once. */
  lemma {:induction false} DuplicateAckAckIsNoOp(s: Server, linkUp: bool, linkUp': bool)
    ensures Run(s, [Arrived(Data(AckAck, linkUp)), Arrived(Data(AckAck, linkUp'))])
         == Run(s, [Arrived(Data(AckAck, linkUp))])
  {
    StripOfBareToken(AckAck);
    var t := Step(s, Arrived(Data(AckAck, linkUp)));
    assert !t.pending || t.socket.None?;
    RunTwo(s, Arrived(Data(AckAck, linkUp)), Arrived(Data(AckAck, linkUp')));
    assert [Arrived(Data(AckAck, linkUp))][1..] == [];
    assert Run(s, [Arrived(Data(AckAck, linkUp))]) == Run(t, []);
  }

  /** Finding (corrected): the ACK_ACK and the timeout of one handshake
      race, and whichever comes first decides; the other changes nothing. */
  lemma FirstResolverWins(s: Server, kind: Kind, linkUp: bool)
    requires s.pending
    ensures Expire(OnData(s, AckAck, linkUp), kind) == OnData(s, AckAck, linkUp)
    ensures OnData(Expire(s, kind), AckAck, linkUp) == Expire(s, kind)
  {
    StripOfBareToken(AckAck);
  }

  /** Finding (as written): the wait thread calls its handler outside the
      lock without looking at the flag again, so an ACK_ACK processed
      between its last poll and that call is undone: the Start was
      acknowledged, yet streaming ends up off. */
  lemma UnguardedTimeoutUndoesStart(s: Server)
    requires s.socket.Some? && !s.transmit && !s.pending
    ensures Run(s, [Msg(StartSync), Msg(AckAck)]).transmit
    ensures !Timeout(Run(s, [Msg(StartSync), Msg(AckAck)]), Start).transmit
  {
    StartHandshakeStartsStreaming(s);
  }

  /** The same race on a Stop, as written: a Stop confirmed by ACK_ACK is
      switched back on by an unguarded handler that fires after it. */
  lemma UnguardedTimeoutUndoesStop(s: Server)
    requires s.socket.Some? && s.transmit && !s.pending
    ensures !Run(s, [Msg(StopSync), Msg(AckAck)]).transmit
    ensures Timeout(Run(s, [Msg(StopSync), Msg(AckAck)]), Stop).transmit
  {
    StopHandshakeStopsStreaming(s);
  }
}

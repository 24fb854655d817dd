/** The Responder's objects: `BluetoothConnectionManager`, which owns the
    client connection and sends on it, and `BluetoothPulseServer`, which owns
    the handshake flags and the callbacks. Every method is one callback or
    one loop of the source and is proved to move the state exactly as the
    matching function of ServerModel does. */
module Server {
  import opened Wire
  import opened ServerModel

  class ConnectionManager {
    var clientSocket: Option<Socket>
    var clientAddress: Option<Address>
    /** What `send` delivered on client sockets, in order. */
    var sent: seq<string>

    constructor ()
      ensures clientSocket.None? && clientAddress.None? && sent == []
    {
      clientSocket, clientAddress, sent := None, None, [];
    }

    /** `server_socket.accept()` returned a client. */
    method Accept(socket: Socket, address: Address)
      modifies this
      ensures clientSocket == Some(socket) && clientAddress == Some(address)
      ensures sent == old(sent)
    {
      clientSocket, clientAddress := Some(socket), Some(address);
    }

    /** The first half of the accept loop's `finally`: close the client
      socket if there is one and forget the connection identity. */
    method Close()
      modifies this
      ensures clientSocket.None? && clientAddress.None? && sent == old(sent)
    {
      clientSocket, clientAddress := None, None;
    }

    /** `send_message` up to its `except` branch: `failed` reports the
        transport error, upon which the caller runs the on-disconnect
        callback. */
    method SendMessage(msg: string, linkUp: bool) returns (failed: bool)
      modifies this
      ensures failed <==> old(clientSocket).Some? && !linkUp
      ensures clientSocket == old(clientSocket) && clientAddress == old(clientAddress)
      ensures sent == if old(clientSocket).Some? && linkUp then old(sent) + [msg] else old(sent)
    {
      failed := false;
      if clientSocket.Some? {
        if linkUp {
          sent := sent + [msg];
        } else {
          failed := true;
        }
      }
    }
  }

  /** The polling loop of a wait thread (the inner `wait` of
      `wait_for_ack_ack`): it sleeps, then looks at the flag under the lock,
      and returns early as soon as the flag is clear. `deadline` is the
      number of looks that fit in the timeout. `pendingAt(i)` is the value
      the i-th look (from 0) finds, whatever other threads wrote. `timedOut`
      holds exactly when every look within the deadline found the flag set;
      otherwise the loop stopped at the first clear look. */
  method AwaitAckAck(deadline: nat, pendingAt: nat -> bool) returns (timedOut: bool, polls: nat)
    ensures polls <= deadline
    ensures timedOut <==> forall i :: 0 <= i < deadline ==> pendingAt(i)
    ensures timedOut ==> polls == deadline
    ensures !timedOut ==> 0 < polls && !pendingAt(polls - 1)
    ensures !timedOut ==> forall i :: 0 <= i < polls - 1 ==> pendingAt(i)
  {
    polls := 0;
    while polls < deadline
      invariant polls <= deadline
      invariant forall i :: 0 <= i < polls ==> pendingAt(i)
    {
      var seen := pendingAt(polls);
      polls := polls + 1;
      if !seen {
        return false, polls;
      }
    }
    timedOut := true;
  }

  class PulseServer {
    var transmitData: bool
    var pendingAckAck: bool
    var stopEvent: bool
    const ackTimeout: nat
    const manager: ConnectionManager

    /** The state of both objects, as ServerModel sees it. */
    function State(): Server
      reads this, manager
    {
      Server(transmitData, pendingAckAck, stopEvent,
             manager.clientSocket, manager.clientAddress, manager.sent)
    }

    constructor ()
      ensures State() == Initial && ackTimeout == AckTimeout && fresh(manager)
      ensures ackTimeout * PollsPerSecond == AckWaitPolls
    {
      transmitData, pendingAckAck, stopEvent := false, false, false;
      ackTimeout := AckTimeout;
      manager := new ConnectionManager();
    }

    /** `stop_data_collection`. */
    method StopDataCollection()
      modifies this, manager
      ensures State() == Cleanup(old(State()))
    {
      transmitData := false;
      stopEvent := true;
      manager.Close();
      stopEvent := false;
    }

    /** `bluetooth_manager.send_message`, with its on-disconnect callback. */
    method Send(msg: string, linkUp: bool)
      modifies this, manager
      ensures State() == SendMessage(old(State()), msg, linkUp)
    {
      var failed := manager.SendMessage(msg, linkUp);
      if failed {
        StopDataCollection();
      }
    }

    /** `data_received_callback`. `waiter` is the handshake whose wait
        thread the call starts, if any (see WaitForAckAck). */
    method DataReceivedCallback(data: string, linkUp: bool) returns (waiter: Option<Kind>)
      modifies this, manager
      ensures State() == OnData(old(State()), data, linkUp)
      ensures waiter == Handshake(data)
    {
      var d := Strip(data);
      waiter := None;
      if d == StartSync {
        Send(Ack, linkUp);
        pendingAckAck := true;
        waiter := Some(Start);
      } else if d == StopSync {
        Send(Ack, linkUp);
        pendingAckAck := true;
        waiter := Some(Stop);
      } else if d == AckAck {
        if pendingAckAck {
          pendingAckAck := false;
          if transmitData {
            transmitData := false;
          } else {
            transmitData := true;
          }
        }
      }
    }

    /** `handle_start_sync_timeout`. */
    method HandleStartSyncTimeout()
      modifies this
      ensures State() == Timeout(old(State()), Start)
    {
      pendingAckAck := false;
      transmitData := false;
    }

    /** `handle_stop_sync_timeout`. */
    method HandleStopSyncTimeout()
      modifies this
      ensures State() == Timeout(old(State()), Stop)
    {
      pendingAckAck := false;
      transmitData := true;
    }

    /** The body of the thread `wait_for_ack_ack` starts for one handshake:
        the polling loop, one look per 0.1 s for `ack_timeout` seconds, then
        the timeout handler of `kind`. The handler runs only if every look
        found the flag set and the flag is still set when the loop ends (the
        corrected firing, see Expire). */
    method WaitForAckAck(kind: Kind, pendingAt: nat -> bool) returns (timedOut: bool)
      modifies this
      ensures timedOut <==> forall i :: 0 <= i < ackTimeout * PollsPerSecond ==> pendingAt(i)
      ensures State() == if timedOut then Expire(old(State()), kind) else old(State())
    {
      var polls;
      timedOut, polls := AwaitAckAck(ackTimeout * PollsPerSecond, pendingAt);
      if timedOut && pendingAckAck {
        match kind
        case Start => HandleStartSyncTimeout();
        case Stop => HandleStopSyncTimeout();
      }
    }

    /** `stream_pulse_data` over a run of samples: each one is sent while
        `transmit_data` holds; a fault runs the cleanup and ends the loop. */
    method StreamPulseData(samples: seq<Sample>) returns (faulted: bool)
      modifies this, manager
      ensures State() == Pump(old(State()), samples)
      ensures faulted <==> exists i :: 0 <= i < |samples| && samples[i].SensorFault?
    {
      var i := 0;
      while i < |samples|
        invariant 0 <= i <= |samples|
        invariant Pump(State(), samples[i..]) == Pump(old(State()), samples)
        invariant forall j :: 0 <= j < i ==> samples[j].Sample?
      {
        match samples[i]
        case SensorFault =>
          StopDataCollection();
          return true;
        case Sample(json, linkUp) =>
          if json != "" && transmitData {
            Send(json, linkUp);
          }
        i := i + 1;
      }
      faulted := false;
    }

    /** `listen_for_data` over the messages the client sends, corrected to
        leave its loop once the client socket is gone (see Listen). */
    method ListenForData(inbound: seq<Recv>) returns (exited: bool)
      modifies this, manager
      ensures Listened(State(), exited) == Listen(old(State()), inbound)
    {
      var i := 0;
      while i < |inbound|
        invariant 0 <= i <= |inbound|
        invariant Listen(State(), inbound[i..]) == Listen(old(State()), inbound)
      {
        if manager.clientSocket.None? {
          return true;
        }
        match inbound[i]
        case RecvError =>
          StopDataCollection();
          return true;
        case Data(text, linkUp) =>
          var d := Strip(text);
          if d != "" {
            StripIdempotent(text);
            var _ := DataReceivedCallback(d, linkUp);
          }
        i := i + 1;
      }
      exited := manager.clientSocket.None?;
    }

    /** `accept_connection` over a run of clients. `waiting` means the loop
        is back at `accept()`; otherwise the last client is still served. */
    method AcceptConnection(sessions: seq<Session>) returns (waiting: bool)
      modifies this, manager
      ensures Listened(State(), waiting) == AcceptLoop(old(State()), sessions)
    {
      var i := 0;
      while i < |sessions|
        invariant 0 <= i <= |sessions|
        invariant AcceptLoop(State(), sessions[i..]) == AcceptLoop(old(State()), sessions)
      {
        var ended := true;
        match sessions[i].accept {
          case Accepted(socket, address) =>
            manager.Accept(socket, address);
            ended := ListenForData(sessions[i].inbound);
          case AcceptFailed =>
        }
        if !ended {
          return false;
        }
        manager.Close();
        StopDataCollection();
        i := i + 1;
      }
      waiting := true;
    }
  }
}

/** The Initiator as the class it is in the program: a `BluetoothClient`
    whose handlers update its fields in place. Each method is proved to
    move the object's state exactly as the matching function of
    ClientModel moves the value, so the lemmas there are about this class. */
module Client {
  import opened Wire
  import opened ClientModel

  class BluetoothClient {
    const targetName: string
    const serverPort: nat
    var serverAddress: Option<Address>
    var clientSocket: Option<Socket>
    var hasDataThread: bool
    var dataThreadStopEvent: bool
    /** The commands queued and not yet taken by the handler, oldest first. */
    var commandQueue: seq<string>
    var isConnected: bool
    var isReceivingData: bool
    var pulseData: Option<string>
    /** What `send_command` handed to the socket, in order. */
    var sent: seq<string>

    function State(): Client
      reads this
    {
      Client(serverAddress, clientSocket, isConnected, isReceivingData,
             dataThreadStopEvent, hasDataThread, pulseData, sent)
    }

    constructor (targetName: string, targetPort: nat, serverAddress: Option<Address>)
      ensures State() == Initial(serverAddress) && commandQueue == []
      ensures this.targetName == targetName && serverPort == targetPort
    {
      this.targetName := targetName;
      this.serverAddress := serverAddress;
      serverPort := targetPort;
      clientSocket := None;
      hasDataThread := false;
      dataThreadStopEvent := false;
      commandQueue := [];
      isConnected := false;
      isReceivingData := false;
      pulseData := None;
      sent := [];
    }

    /** `queue_command`: the command joins the back of the queue. */
    method QueueCommand(command: string)
      modifies this
      ensures commandQueue == old(commandQueue) + [command]
      ensures State() == old(State())
    {
      commandQueue := commandQueue + [command];
    }

    /** `command_handler` over the commands queued so far: they run in queue
        order, the k-th meeting the world `env(k)`, up to and including the
        first `exit`, which ends the handler. */
    method CommandHandler(env: nat -> Peer) returns (exited: bool)
      modifies this
      ensures State() == Drain(old(State()), old(commandQueue), env, 0)
      ensures commandQueue == old(commandQueue)[Consumed(old(commandQueue))..]
      ensures exited <==> Exit in old(commandQueue)
    {
      ghost var q0 := commandQueue;
      ghost var c0 := State();
      var k := 0;
      while commandQueue != []
        invariant 0 <= k <= |q0| && commandQueue == q0[k..]
        invariant Exit !in q0[..k]
        invariant Drain(State(), commandQueue, env, k) == Drain(c0, q0, env, 0)
        decreases |commandQueue|
      {
        var command := commandQueue[0];
        assert command == q0[k];
        commandQueue := commandQueue[1..];
        if command == Exit {
          HandleExit();
          ConsumedFirstExit(q0, k);
          return true;
        }
        if command == "connect" {
          HandleConnect(env(k));
        } else if command == "start" {
          HandleStart(env(k).answer);
        } else if command == "stop" {
          HandleStop(env(k).answer);
        } else if command == "disconnect" {
          HandleDisconnect();
        }
        assert q0[..k + 1] == q0[..k] + [command];
        k := k + 1;
      }
      assert q0[..k] == q0;
      return false;
    }

    /** `_handle_connect`. */
    method HandleConnect(p: Peer)
      modifies this
      ensures State() == ClientModel.HandleConnect(old(State()), p)
      ensures commandQueue == old(commandQueue)
    {
      if !isConnected {
        var paired := DiscoverAndPair(p.found);
        if paired {
          var connected := ConnectToServer(p.linkUp, p.socket);
        }
      }
    }

    /** `_handle_start`. */
    method HandleStart(answer: Option<string>)
      modifies this
      ensures State() == ClientModel.HandleStart(old(State()), answer)
      ensures commandQueue == old(commandQueue)
    {
      if isConnected && !isReceivingData {
        SendCommand(StartSync);
        var response := ReceiveResponse(answer);
        if response.Some? && response.value != "" && Contains(response.value, Ack) {
          SendCommand(AckAck);
          StartDataReception();
        }
      }
    }

    /** `_handle_stop`: run on the command thread. */
    method HandleStop(answer: Option<string>)
      modifies this
      ensures State() == ClientModel.HandleStop(old(State()), answer)
      ensures commandQueue == old(commandQueue)
    {
      if isReceivingData {
        SendCommand(StopSync);
        var response := ReceiveResponse(answer);
        if response.Some? && response.value != "" && Contains(response.value, Ack) {
          SendCommand(AckAck);
          StopDataReception();
        }
      }
    }

    /** `_handle_disconnect`. */
    method HandleDisconnect()
      modifies this
      ensures State() == Disconnect(old(State()))
      ensures commandQueue == old(commandQueue)
    {
      if isConnected {
        if isReceivingData {
          StopDataReception();
        }
        CloseConnection();
      }
    }

    /** `_handle_exit`: the same teardown as `_handle_disconnect`. */
    method HandleExit()
      modifies this
      ensures State() == Disconnect(old(State()))
      ensures commandQueue == old(commandQueue)
    {
      if isConnected {
        if isReceivingData {
          StopDataReception();
        }
        CloseConnection();
      }
    }

    /** `discover_and_pair`; `found` is what the scan reports. */
    method DiscoverAndPair(found: Option<Address>) returns (paired: bool)
      modifies this
      ensures (State(), paired) == ClientModel.DiscoverAndPair(old(State()), found)
      ensures commandQueue == old(commandQueue)
    {
      if !HasAddress(serverAddress) {
        if found.Some? {
          serverAddress := found;
        }
        if !HasAddress(serverAddress) {
          return false;
        }
      }
      return true;
    }

    /** `connect_to_server`; `linkUp` says whether `connect` succeeds. */
    method ConnectToServer(linkUp: bool, socket: Socket) returns (connected: bool)
      modifies this
      ensures (State(), connected) == ClientModel.ConnectToServer(old(State()), linkUp, socket)
      ensures commandQueue == old(commandQueue)
    {
      if !HasAddress(serverAddress) {
        return false;
      }
      clientSocket := Some(socket);
      if linkUp {
        isConnected := true;
        return true;
      }
      return false;
    }

    /** `send_command`. */
    method SendCommand(command: string)
      modifies this
      ensures State() == ClientModel.SendCommand(old(State()), command)
      ensures commandQueue == old(commandQueue)
    {
      if clientSocket.Some? {
        sent := sent + [command];
      }
    }

    /** `receive_response`; `answer` is what `recv` yields in time. */
    method ReceiveResponse(answer: Option<string>) returns (response: Option<string>)
      ensures response == ClientModel.ReceiveResponse(State(), answer)
    {
      if clientSocket.Some? {
        return answer;
      }
      return None;
    }

    /** `close_connection`. */
    method CloseConnection()
      modifies this
      ensures State() == ClientModel.CloseConnection(old(State()))
      ensures commandQueue == old(commandQueue)
    {
      if clientSocket.Some? {
        clientSocket := None;
        isConnected := false;
      }
    }

    /** `start_data_reception`: the thread itself is DataReceptionLoop. */
    method StartDataReception()
      modifies this
      ensures State() == ClientModel.StartDataReception(old(State()))
      ensures commandQueue == old(commandQueue)
    {
      dataThreadStopEvent := false;
      hasDataThread := true;
      isReceivingData := true;
    }

    /** `stop_data_reception` called from the command thread: the `join`
        returns once the reception thread has seen the stop event. */
    method StopDataReception()
      modifies this
      ensures State() == ClientModel.StopDataReception(old(State()), false)
      ensures commandQueue == old(commandQueue)
    {
      dataThreadStopEvent := true;
      isReceivingData := false;
    }

    /** `data_reception_loop`, with the stop on silence done as from the
        command thread (the corrected behaviour); `inbound` is what `recv`
        yields, call by call. */
    method DataReceptionLoop(inbound: seq<Option<string>>, wellFormed: string -> bool)
      returns (ending: Ending)
      modifies this
      ensures Received(State(), ending) == ReceptionLoop(old(State()), inbound, wellFormed)
      ensures commandQueue == old(commandQueue)
    {
      var i := 0;
      while true
        invariant 0 <= i <= |inbound|
        invariant ReceptionLoop(State(), inbound[i..], wellFormed)
               == ReceptionLoop(old(State()), inbound, wellFormed)
        invariant commandQueue == old(commandQueue)
        decreases |inbound| - i
      {
        if dataThreadStopEvent {
          return StopRequested;
        }
        if i == |inbound| {
          return Observed;
        }
        var data := ReceiveResponse(inbound[i]);
        assert inbound[i..][1..] == inbound[i + 1..];
        if data.Some? && data.value != "" {
          if !wellFormed(data.value) {
            return Malformed;
          }
          pulseData := data;
          i := i + 1;
        } else {
          StopDataReception();
          return Silence;
        }
      }
    }

    /** `get_pulse_data`: the latest frame, or None before the first. */
    method GetPulseData() returns (r: Option<string>)
      ensures r == State().pulseData
    {
      return pulseData;
    }
  }
}

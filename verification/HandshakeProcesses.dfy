/** Assignment2: intfMonitor and the monitor's message handler as code that updates its own
    variables and one connection in place. */
module HandshakeProcesses {
  import opened MonitorProtocol
  import opened Handshake

  /** One stream connection, with the histories kept at the monitor's end. */
  class Connection {
    var toServer: seq<string>
    var toClient: seq<string>
    var link: Link
    ghost var unknowns: nat
    ghost var joins: nat
    ghost var lost: bool
    ghost var stray: bool

    constructor ()
      ensures toServer == [] && toClient == [] && link == Backlog
      ensures unknowns == 0 && joins == 0 && !lost && !stray
    {
      toServer, toClient, link := [], [], Backlog;
      unknowns, joins, lost, stray := 0, 0, false, false;
    }
  }

  class InterfaceMonitor {
    const socket: Connection
    var pc: ClientPc
    var running: bool

    ghost function View(): Conn
      reads this, socket
    {
      Conn(pc, running, socket.toServer, socket.toClient, socket.link,
           socket.unknowns, socket.joins, socket.lost, socket.stray)
    }

    constructor ()
      ensures View() == FRESH && fresh(socket)
    {
      socket := new Connection();
      pc, running := SendReady, true;
    }

    method SendMessage(message: string)
      modifies socket
      ensures View() == old(View()).(toServer := old(socket.toServer) + [message])
    {
      socket.toServer := socket.toServer + [message];
    }

    /** receive_message: blocks, or returns the next message, or the empty string when recv has
        failed, and also when the monitor has closed, which stops the client. */
    method ReceiveMessage(failed: bool) returns (blocked: bool, message: string)
      modifies this`running, socket`toClient
      ensures blocked <==> !failed && old(socket.toClient) == [] && socket.link != Shut
      ensures blocked || failed ==> View() == old(View())
      ensures failed ==> message == ""
      ensures !blocked && !failed && old(socket.toClient) != [] ==>
        message == old(socket.toClient)[0] && View() == old(View()).(toClient := old(socket.toClient)[1..])
      ensures !blocked && !failed && old(socket.toClient) == [] ==> message == "" && View() == old(View()).(running := false)
    {
      blocked, message := false, "";
      if failed {
        return;
      }
      if socket.toClient != [] {
        message := socket.toClient[0];
        socket.toClient := socket.toClient[1..];
      } else if socket.link == Shut {
        running := false;
      } else {
        blocked := true;
      }
    }

    /** One step of main(); `down` is the operstate read in this round. */
    method Turn(down: bool)
      modifies this, socket
      ensures View() == ClientStep(old(View()), down)
    {
      match pc
      case SendReady =>
        SendMessage(READY);
        pc := AwaitMonitor;
      case AwaitMonitor =>
        var blocked, response := ReceiveMessage(false);
        if !blocked {
          assert MONITOR != "";
          if response != MONITOR {
            running := false;
            pc := LoopHead;
          } else {
            pc := SendMonitoring;
          }
        }
      case SendMonitoring =>
        SendMessage(MONITORING);
        pc := LoopHead;
      case LoopHead => pc := if running then Polling else SendDone;
      case Polling =>
        if down {
          SendMessage(LINK_DOWN);
          pc := AwaitLinkUp;
        } else {
          pc := LoopHead;
        }
      case AwaitLinkUp =>
        var blocked, command := ReceiveMessage(false);
        if !blocked {
          if command == SHUT_DOWN {
            running := false;
          }
          pc := LoopHead;
        }
      case SendDone =>
        SendMessage(DONE);
        pc := Closed;
      case Closed =>
    }

    /** The bytes of the first k messages in transit, run together by the stream. */
    method Receive(k: nat) returns (message: string)
      requires k <= |socket.toServer|
      ensures message == Join(socket.toServer[..k])
    {
      message := "";
      var i := 0;
      while i < k
        invariant 0 <= i <= k
        invariant message + Join(socket.toServer[i..k]) == Join(socket.toServer[..k])
      {
        assert socket.toServer[i..k][1..] == socket.toServer[i + 1..k];
        message := message + socket.toServer[i];
        i := i + 1;
      }
    }

    /** One recv() of the monitor, which returns the first k messages in transit. */
    method Recv(k: nat) returns (message: string)
      requires 1 <= k <= |socket.toServer|
      modifies socket
      ensures message == Join(old(socket.toServer)[..k])
      ensures var c := old(View()); View() == c.(
        toServer := c.toServer[k..], joins := c.joins + (if k > 1 then 1 else 0),
        lost := c.lost || (k > 1 && LINK_DOWN in c.toServer[..k]))
    {
      message := Receive(k);
      socket.joins := socket.joins + (if k > 1 then 1 else 0);
      socket.lost := socket.lost || (k > 1 && LINK_DOWN in socket.toServer[..k]);
      socket.toServer := socket.toServer[k..];
    }

    /** The branches of the monitor on a received text. */
    method React(message: string)
      modifies socket
      ensures View() == Answered(old(View()), message)
    {
      match ReactTo(message)
      case Reply(text) =>
        socket.toClient := socket.toClient + [text];
        socket.stray := socket.stray || !(pc == AwaitMonitor || pc == AwaitLinkUp);
      case Ignore =>
      case Hangup => socket.link := Shut;
      case Unknown => socket.unknowns := socket.unknowns + 1;
    }

    /** The monitor's side of this connection: one call of its message handler. */
    method Serve(k: nat)
      modifies socket
      ensures View() == ServerStep(old(View()), k)
    {
      if socket.link != Open {
        return;
      }
      if socket.toServer == [] {
        if pc == Closed {
          socket.link := Shut;
        }
        return;
      }
      if k == 0 || k > |socket.toServer| {
        return;
      }
      var message := Recv(k);
      React(message);
    }

    /** The monitor's accept on this connection. */
    method Accept(refused: bool)
      modifies socket
      ensures View() == AcceptStep(old(View()), refused)
    {
      if socket.link == Backlog {
        socket.link := if refused then Shut else Open;
      }
    }

    /** SIGINT, outside recv(). */
    method Interrupt()
      modifies this
      ensures View() == InterruptStep(old(View()))
    {
      if !(pc == AwaitMonitor || pc == AwaitLinkUp) {
        running := false;
      }
    }

    /** The monitor's cleanup of this connection. */
    method Shutdown()
      modifies socket
      ensures View() == ShutdownStep(old(View()))
    {
      if socket.link == Open {
        socket.toClient := socket.toClient + [SHUT_DOWN];
      }
      socket.link := Shut;
    }

    /** One action of the connection's client or of the monitor on it. */
    method Perform(a: Action)
      requires !a.Connect?
      modifies this, socket
      ensures View() == Apply(old(View()), a)
    {
      match a
      case Shutdown => Shutdown();
      case ClientTurn(_, down) => Turn(down);
      case ServerTurn(_, k) => Serve(k);
      case Accept(_, refused) => Accept(refused);
      case Interrupt(_) => Interrupt();
    }
  }

  /** The monitor's connections, in the order in which the clients have connected. */
  class System {
    var clients: seq<InterfaceMonitor>

    ghost function Repr(): set<object>
      reads this
    {
      (set c: InterfaceMonitor | c in clients) + (set c: InterfaceMonitor | c in clients :: c.socket)
    }

    lemma Owned(i: int)
      requires 0 <= i < |clients|
      ensures clients[i] in Repr() && clients[i].socket in Repr()
    {
      var c := clients[i];
      assert c in clients;
      assert c.socket in (set x: InterfaceMonitor | x in clients :: x.socket);
    }

    ghost predicate Valid()
      reads this
    {
      && this !in Repr()
      && forall i, j | 0 <= i < j < |clients| :: clients[i] != clients[j] && clients[i].socket != clients[j].socket
    }

    ghost function View(): (conns: seq<Conn>)
      reads this, Repr()
      ensures |conns| == |clients|
    {
      seq(|clients|, i requires 0 <= i < |clients| reads this, Repr() => ViewOf(i))
    }

    ghost function ViewOf(i: int): Conn
      requires 0 <= i < |clients|
      reads this, Repr()
    {
      Owned(i);
      clients[i].View()
    }

    constructor ()
      ensures Valid() && View() == [] && Repr() == {}
    {
      clients := [];
    }

    /** A new intfMonitor connects. */
    method Connect()
      requires Valid()
      modifies this
      ensures Valid() && View() == old(View()) + [FRESH]
      ensures fresh(Repr() - old(Repr()))
    {
      ghost var before := View();
      var client := new InterfaceMonitor();
      clients := clients + [client];
      assert forall i | 0 <= i < |before| :: View()[i] == before[i];
    }

    /** One action on connection i. */
    method PerformOn(i: nat, a: Action)
      requires Valid() && i < |clients| && !a.Connect?
      modifies Repr()
      ensures Valid() && clients == old(clients)
      ensures View() == old(View())[i := Apply(old(View())[i], a)]
    {
      ghost var before := View();
      Owned(i);
      clients[i].Perform(a);
      assert forall j | 0 <= j < |clients| && j != i :: View()[j] == before[j];
    }

    /** cleanup_sockets over all connections. */
    method ShutdownAll()
      requires Valid()
      modifies Repr()
      ensures Valid() && clients == old(clients)
      ensures View() == Step(old(View()), Shutdown)
    {
      ghost var before := View();
      for i := 0 to |clients|
        invariant Valid() && clients == old(clients) && |View()| == |before|
        invariant forall j | 0 <= j < |clients| :: View()[j] == if j < i then ShutdownStep(before[j]) else before[j]
      {
        PerformOn(i, Shutdown);
      }
    }

    method Perform(a: Action)
      requires Valid()
      modifies this, Repr()
      ensures Valid() && View() == Step(old(View()), a)
      ensures fresh(Repr() - old(Repr()))
    {
      if a.Connect? {
        Connect();
      } else if a.Shutdown? {
        ShutdownAll();
      } else if a.i < |clients| {
        PerformOn(a.i, a);
      }
    }
  }

  /** The programs, run from the start under any schedule: on every open connection at most one
      request or reply is in flight, and both ends wait on an empty connection exactly when a
      request was lost. */
  method Simulate(schedule: seq<Action>) returns (system: System)
    ensures system.Valid() && system.View() == Run(schedule)
    ensures forall i | 0 <= i < |system.clients| && system.clients[i].socket.link == Open ::
      var c := system.View()[i];
      && Requests(c.toServer) + |c.toClient| == (if Awaiting(c) && !c.lost then 1 else 0)
      && (Awaiting(c) && c.toServer == [] && c.toClient == [] <==> c.lost)
  {
    system := new System();
    for k := 0 to |schedule|
      invariant fresh(system) && fresh(system.Repr())
      invariant system.Valid() && system.View() == Run(schedule[..k])
    {
      system.Perform(schedule[k]);
      assert schedule[..k + 1][..k] == schedule[..k];
    }
    assert schedule[..|schedule|] == schedule;
    forall i | 0 <= i < |system.clients| && system.clients[i].socket.link == Open
      ensures var c := system.View()[i];
        && Requests(c.toServer) + |c.toClient| == (if Awaiting(c) && !c.lost then 1 else 0)
        && (Awaiting(c) && c.toServer == [] && c.toClient == [] <==> c.lost)
    {
      assert system.View()[i].link == Open;
      OneInFlight(system.View(), i);
      StuckIffLost(system.View(), i);
    }
  }
}

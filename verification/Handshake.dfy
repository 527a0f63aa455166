/** Assignment2: intfMonitor clients and the network monitor, composed over one stream
    socket per connection, for any number of connections.

    A stream keeps the order of the bytes but not the message boundaries: one recv() of the
    monitor returns the concatenation of the first k >= 1 messages in transit, for any k the
    scheduler chooses. The claims below say exactly what depends on k being 1. */
module Handshake {
  import opened MonitorProtocol

  datatype ClientPc =
    | SendReady | AwaitMonitor | SendMonitoring | LoopHead | Polling | AwaitLinkUp | SendDone | Closed

  /** The monitor's end: not yet accepted, registered, or closed. */
  datatype Link = Backlog | Open | Shut

  /** One connection. Histories: `unknowns` counts warnings about unknown messages, `joins`
      counts recv() results made of several messages, `lost` says that one of those
      contained a Link Down, `stray` that a reply was sent to a client not waiting for it. */
  datatype Conn = Conn(
    pc: ClientPc, running: bool, toServer: seq<string>, toClient: seq<string>, link: Link,
    unknowns: nat, joins: nat, lost: bool, stray: bool)

  const FRESH := Conn(SendReady, true, [], [], Backlog, 0, 0, false, false)

  predicate Awaiting(c: Conn) {
    c.pc == AwaitMonitor || c.pc == AwaitLinkUp
  }

  function Say(c: Conn, message: string, next: ClientPc): Conn {
    c.(toServer := c.toServer + [message], pc := next)
  }

  /** One step of intfMonitor; `down` is the operstate it reads in this round. */
  function ClientStep(c: Conn, down: bool): Conn {
    match c.pc
    case SendReady => Say(c, READY, AwaitMonitor)
    case AwaitMonitor =>
      if c.toClient != [] then
        var got := c.(toClient := c.toClient[1..]);
        if c.toClient[0] == MONITOR then got.(pc := SendMonitoring) else got.(running := false, pc := LoopHead)
      else if c.link == Shut then c.(running := false, pc := LoopHead)
      else c
    case SendMonitoring => Say(c, MONITORING, LoopHead)
    case LoopHead => c.(pc := if c.running then Polling else SendDone)
    case Polling => if down then Say(c, LINK_DOWN, AwaitLinkUp) else c.(pc := LoopHead)
    case AwaitLinkUp =>
      if c.toClient != [] then
        c.(toClient := c.toClient[1..], running := c.running && c.toClient[0] != SHUT_DOWN, pc := LoopHead)
      else if c.link == Shut then c.(running := false, pc := LoopHead)
      else c
    case SendDone => Say(c, DONE, Closed)
    case Closed => c
  }

  function Join(messages: seq<string>): string {
    if messages == [] then "" else messages[0] + Join(messages[1..])
  }

  /** The monitor's recv() returns the first k messages in transit as one string. */
  function ServerStep(c: Conn, k: nat): Conn {
    if c.link != Open then c
    else if c.toServer == [] then (if c.pc == Closed then c.(link := Shut) else c)
    else if k == 0 || k > |c.toServer| then c
    else
      var received := c.toServer[..k];
      var c' := c.(toServer := c.toServer[k..],
                   joins := c.joins + (if k > 1 then 1 else 0),
                   lost := c.lost || (k > 1 && LINK_DOWN in received));
      Answered(c', Join(received))
  }

  /** How the monitor reacts to a received text. */
  function Answered(c: Conn, message: string): Conn {
    match ReactTo(message)
    case Reply(text) => c.(toClient := c.toClient + [text], stray := c.stray || !Awaiting(c))
    case Ignore => c
    case Hangup => c.(link := Shut)
    case Unknown => c.(unknowns := c.unknowns + 1)
  }

  /** Accept: registered, or refused and closed when no name is free. */
  function AcceptStep(c: Conn, refused: bool): Conn {
    if c.link == Backlog then c.(link := if refused then Shut else Open) else c
  }

  /** SIGINT at a client that is not blocked in recv(). */
  function InterruptStep(c: Conn): Conn {
    if Awaiting(c) then c else c.(running := false)
  }

  /** cleanup_sockets at one connection: say Shut Down to a registered client, and close. */
  function ShutdownStep(c: Conn): Conn {
    c.(toClient := c.toClient + (if c.link == Open then [SHUT_DOWN] else []), link := Shut)
  }

  /** Connections are numbered; Connect adds a new one, Shutdown ends the monitor. */
  datatype Action =
    | Connect
    | Shutdown
    | ClientTurn(i: nat, down: bool)
    | ServerTurn(i: nat, k: nat)
    | Accept(i: nat, refused: bool)
    | Interrupt(i: nat)

  function Apply(c: Conn, a: Action): Conn {
    match a
    case Connect => c
    case Shutdown => ShutdownStep(c)
    case ClientTurn(_, down) => ClientStep(c, down)
    case ServerTurn(_, k) => ServerStep(c, k)
    case Accept(_, refused) => AcceptStep(c, refused)
    case Interrupt(_) => InterruptStep(c)
  }

  /** One step of the whole system. */
  function Step(conns: seq<Conn>, a: Action): seq<Conn> {
    if a.Connect? then conns + [FRESH]
    else if a.Shutdown? then seq(|conns|, i requires 0 <= i < |conns| => ShutdownStep(conns[i]))
    else if a.i < |conns| then conns[a.i := Apply(conns[a.i], a)]
    else conns
  }

  function Run(schedule: seq<Action>): seq<Conn> {
    if schedule == [] then [] else Step(Run(schedule[..|schedule| - 1]), schedule[|schedule| - 1])
  }

  // -------------------------------------------------------------------- invariant

  /** What may be in transit towards the monitor at each point of the client. */
  predicate Transit(c: Conn) {
    match c.pc
    case SendReady => c.toServer == [] && c.toClient == []
    case AwaitMonitor =>
      (c.toServer == [READY] && c.toClient == []) || (c.toServer == [] && c.toClient == [MONITOR])
    case SendMonitoring => c.toServer == [] && c.toClient == []
    case LoopHead => c.toServer <= [MONITORING] && c.toClient == []
    case Polling => c.toServer <= [MONITORING] && c.toClient == []
    case AwaitLinkUp =>
      || ((c.toServer == [LINK_DOWN] || c.toServer == [MONITORING, LINK_DOWN]) && c.toClient == [] && !c.lost)
      || (c.toServer == [] && c.toClient == [SET_LINK_UP] && !c.lost)
      || (c.toServer == [] && c.toClient == [] && c.lost)
    case SendDone => c.toServer <= [MONITORING] && c.toClient == []
    case Closed => (c.toServer <= [DONE] || c.toServer == [MONITORING, DONE]) && c.toClient == []
  }

  predicate ConnInv(c: Conn) {
    && (c.link != Shut ==> Transit(c))
    && (c.link == Backlog ==> c.pc == SendReady || (c.pc == AwaitMonitor && c.toServer == [READY]))
    && (c.lost ==> c.pc == AwaitLinkUp || c.link == Shut)
    && c.unknowns == c.joins
    && !c.stray
  }

  lemma ClientKeeps(c: Conn, down: bool)
    requires ConnInv(c)
    ensures ConnInv(ClientStep(c, down))
  {
  }

  lemma JoinOne(a: string)
    ensures Join([a]) == a
  {
    assert [a][1..] == [];
    assert a + "" == a;
  }

  lemma JoinTwo(a: string, b: string)
    ensures Join([a, b]) == a + b
  {
    assert [a, b][1..] == [b];
    JoinOne(b);
  }

  /** A single message is always known to the monitor; two that run together never are. */
  lemma Reactions()
    ensures ReactTo(READY) == Reply(MONITOR) && ReactTo(LINK_DOWN) == Reply(SET_LINK_UP)
    ensures ReactTo(MONITORING) == Ignore && ReactTo(DONE) == Hangup
    ensures ReactTo(MONITORING + LINK_DOWN) == Unknown && ReactTo(MONITORING + DONE) == Unknown
  {
    assert |MONITORING + LINK_DOWN| == 19 && |MONITORING + DONE| == 14;
    assert |READY| == 5 && |MONITORING| == 10 && |LINK_DOWN| == 9 && |DONE| == 4;
  }

  /** What the monitor receives is one message, or Monitoring run together with the next. */
  predicate Possible(q: seq<string>) {
    q == [READY] || q == [MONITORING] || q == [LINK_DOWN] || q == [DONE]
    || q == [MONITORING, LINK_DOWN] || q == [MONITORING, DONE]
  }

  lemma FirstOf(q: seq<string>, k: nat)
    requires Possible(q) && 1 <= k <= |q|
    ensures k == 1 ==> Join(q[..k]) == q[0]
    ensures k == 2 ==> Join(q[..k]) == q[0] + q[1] && ReactTo(Join(q[..k])) == Unknown
    ensures k == 1 ==> ReactTo(Join(q[..k])) != Unknown
  {
    Reactions();
    if k == 1 {
      assert q[..1] == [q[0]];
      JoinOne(q[0]);
    } else {
      assert q[..2] == [q[0], q[1]];
      JoinTwo(q[0], q[1]);
    }
  }

  lemma ServeOne(c: Conn)
    requires ConnInv(c) && c.link == Open && c.toServer != []
    ensures ConnInv(ServerStep(c, 1))
  {
    Reactions();
    FirstOf(c.toServer, 1);
  }

  lemma ServeTwo(c: Conn)
    requires ConnInv(c) && c.link == Open && |c.toServer| >= 2
    ensures ConnInv(ServerStep(c, 2))
  {
    FirstOf(c.toServer, 2);
  }

  lemma ServerKeeps(c: Conn, k: nat)
    requires ConnInv(c)
    ensures ConnInv(ServerStep(c, k))
  {
    if c.link == Open && c.toServer != [] {
      assert Possible(c.toServer);
      if k == 1 {
        ServeOne(c);
      } else if k == 2 && |c.toServer| == 2 {
        ServeTwo(c);
      }
    }
  }

  lemma ApplyKeeps(c: Conn, a: Action)
    requires ConnInv(c)
    ensures ConnInv(Apply(c, a))
  {
    match a
    case ClientTurn(_, down) => ClientKeeps(c, down);
    case ServerTurn(_, k) => ServerKeeps(c, k);
    case _ =>
  }

  lemma {:induction false} RunInv(schedule: seq<Action>)
    ensures forall c | c in Run(schedule) :: ConnInv(c)
  {
    if schedule != [] {
      var before := schedule[..|schedule| - 1];
      var a := schedule[|schedule| - 1];
      RunInv(before);
      forall j | 0 <= j < |Run(schedule)| ensures ConnInv(Run(schedule)[j]) {
        if j < |Run(before)| {
          assert ConnInv(Run(before)[j]);
          ApplyKeeps(Run(before)[j], a);
        }
      }
    }
  }

  // ----------------------------------------------------------------- main results

  ghost predicate Reachable(conns: seq<Conn>) {
    exists schedule :: conns == Run(schedule)
  }

  lemma ReachableInv(conns: seq<Conn>, i: nat)
    requires Reachable(conns) && i < |conns|
    ensures ConnInv(conns[i])
  {
    var schedule :| conns == Run(schedule);
    RunInv(schedule);
  }

  /** The monitor warns of an unknown message exactly as often as one of its recv() calls
      returned more than one message. */
  lemma UnknownIffJoined(conns: seq<Conn>, i: nat)
    requires Reachable(conns) && i < |conns|
    ensures conns[i].unknowns == conns[i].joins
  {
    ReachableInv(conns, i);
  }

  /** Ready and Link Down are the messages that ask for an answer. */
  function Requests(messages: seq<string>): nat {
    if messages == [] then 0
    else (if messages[0] == READY || messages[0] == LINK_DOWN then 1 else 0) + Requests(messages[1..])
  }

  /** On an open connection a client blocked in receive_message has exactly one unanswered
      request or one unread reply in flight, unless its request was lost; a client that is
      not blocked has none. */
  lemma OneInFlight(conns: seq<Conn>, i: nat)
    requires Reachable(conns) && i < |conns| && conns[i].link == Open
    ensures var c := conns[i];
      Requests(c.toServer) + |c.toClient| == if Awaiting(c) && !c.lost then 1 else 0
  {
    ReachableInv(conns, i);
    var q := conns[i].toServer;
    if |q| == 1 {
      RequestsIn(q[0]);
    } else if |q| == 2 {
      RequestsIn(q[1]);
      assert q == [q[0]] + [q[1]] && q[1..] == [q[1]];
    }
    assert |READY| == 5 && |MONITORING| == 10 && |LINK_DOWN| == 9 && |DONE| == 4;
  }

  lemma RequestsIn(message: string)
    ensures Requests([message]) == if message == READY || message == LINK_DOWN then 1 else 0
  {
    assert [message][1..] == [];
  }

  /** Exactly when a connection deadlocks: both ends wait on an open, empty connection if and
      only if a recv() ran a Link Down together with the message before it. */
  lemma StuckIffLost(conns: seq<Conn>, i: nat)
    requires Reachable(conns) && i < |conns| && conns[i].link == Open
    ensures Awaiting(conns[i]) && conns[i].toServer == [] && conns[i].toClient == [] <==> conns[i].lost
  {
    ReachableInv(conns, i);
  }

  /** ... and then no step short of the monitor's shutdown ever moves it again. */
  lemma LostIsForever(conns: seq<Conn>, i: nat, a: Action)
    requires Reachable(conns) && i < |conns| && conns[i].link == Open && conns[i].lost && !a.Shutdown?
    ensures Step(conns, a)[i] == conns[i]
  {
    ReachableInv(conns, i);
  }

  /** A reply is only ever sent to a client that waits for it, so the monitor never writes
      to a client that has gone. */
  lemma NoStrayReply(conns: seq<Conn>, i: nat)
    requires Reachable(conns) && i < |conns|
    ensures !conns[i].stray
  {
    ReachableInv(conns, i);
  }

  /** The monitor receiving one message at a time until nothing is in transit. */
  function Drain(c: Conn): Conn
    decreases |c.toServer|
  {
    if c.link != Open || c.toServer == [] then c else Drain(ServerStep(c, 1))
  }

  function Answer(pc: ClientPc): string {
    if pc == AwaitMonitor then MONITOR else SET_LINK_UP
  }

  /** A blocked client whose request has not been lost gets its answer when the monitor
      receives one message at a time: Monitor for Ready, Set Link Up for Link Down. */
  lemma AnswerArrives(conns: seq<Conn>, i: nat)
    requires Reachable(conns) && i < |conns|
    requires conns[i].link == Open && Awaiting(conns[i]) && !conns[i].lost
    ensures Drain(conns[i]).toClient == [Answer(conns[i].pc)]
    ensures Drain(conns[i]).toServer == [] && Drain(conns[i]).link == Open
    ensures ClientStep(Drain(conns[i]), false).pc == if conns[i].pc == AwaitMonitor then SendMonitoring else LoopHead
  {
    ReachableInv(conns, i);
    DrainAnswers(conns[i]);
  }

  lemma {:induction false} DrainAnswers(c: Conn)
    requires ConnInv(c) && c.link == Open && Awaiting(c) && !c.lost
    ensures Drain(c).toClient == [Answer(c.pc)] && Drain(c).toServer == [] && Drain(c).link == Open && Drain(c).pc == c.pc
    decreases |c.toServer|
  {
    if c.toServer != [] {
      ServerKeeps(c, 1);
      FirstOf(c.toServer, 1);
      Reactions();
      assert ServerStep(c, 1).link == Open;
      DrainAnswers(ServerStep(c, 1));
    }
  }

  /** With message boundaries preserved nothing is ever unknown and nothing is ever lost. */
  lemma {:induction false} MessagePreserving(schedule: seq<Action>)
    requires forall a | a in schedule :: a.ServerTurn? ==> a.k <= 1
    ensures forall c | c in Run(schedule) :: c.joins == 0 && c.unknowns == 0 && !c.lost
  {
    RunInv(schedule);
    if schedule != [] {
      var before := schedule[..|schedule| - 1];
      assert forall a | a in before :: a in schedule;
      assert schedule[|schedule| - 1] in schedule;
      MessagePreserving(before);
    }
  }

  lemma RunSnoc(schedule: seq<Action>, a: Action)
    ensures Run(schedule + [a]) == Step(Run(schedule), a)
  {
    assert (schedule + [a])[..|schedule|] == schedule;
  }

  lemma OnlyConnection(schedule: seq<Action>, c: Conn, a: Action)
    requires Run(schedule) == [c] && !a.Connect? && !a.Shutdown? && a.i == 0
    ensures Run(schedule + [a]) == [Apply(c, a)]
  {
    RunSnoc(schedule, a);
  }

  /** The monitor is reached, answers Ready and is told of the monitoring. */
  lemma HandshakeRun() returns (schedule: seq<Action>, c: Conn)
    ensures Run(schedule) == [c]
    ensures c == FRESH.(link := Open, toServer := [MONITORING], pc := LoopHead)
  {
    Reactions();
    RunSnoc([], Connect);
    schedule, c := [Connect], FRESH;
    assert [] + [Connect] == [Connect];
    OnlyConnection(schedule, c, Accept(0, false));
    schedule, c := schedule + [Accept(0, false)], AcceptStep(c, false);
    OnlyConnection(schedule, c, ClientTurn(0, false));
    schedule, c := schedule + [ClientTurn(0, false)], ClientStep(c, false);
    FirstOf(c.toServer, 1);
    OnlyConnection(schedule, c, ServerTurn(0, 1));
    schedule, c := schedule + [ServerTurn(0, 1)], ServerStep(c, 1);
    OnlyConnection(schedule, c, ClientTurn(0, false));
    schedule, c := schedule + [ClientTurn(0, false)], ClientStep(c, false);
    OnlyConnection(schedule, c, ClientTurn(0, false));
    schedule, c := schedule + [ClientTurn(0, false)], ClientStep(c, false);
  }

  /** The boundary-preserving channel is needed: a client that finds its interface down
      right after Monitoring can wait for ever. */
  lemma JoinedRequestIsLost() returns (schedule: seq<Action>)
    ensures |Run(schedule)| == 1
    ensures var c := Run(schedule)[0];
      c.lost && c.link == Open && c.pc == AwaitLinkUp && c.toServer == [] && c.toClient == []
  {
    var c: Conn;
    schedule, c := HandshakeRun();
    OnlyConnection(schedule, c, ClientTurn(0, false));
    schedule, c := schedule + [ClientTurn(0, false)], ClientStep(c, false);
    OnlyConnection(schedule, c, ClientTurn(0, true));
    schedule, c := schedule + [ClientTurn(0, true)], ClientStep(c, true);
    assert c.toServer == [MONITORING, LINK_DOWN];
    FirstOf(c.toServer, 2);
    OnlyConnection(schedule, c, ServerTurn(0, 2));
    schedule, c := schedule + [ServerTurn(0, 2)], ServerStep(c, 2);
  }
}

/** What the Lab8 programs do achieve: the shutdown of the server, the end of a client's
    sending, and the delivery of every message while the programs run. */
module RouterLiveness {
  import opened Sequences
  import opened KernelQueue
  import opened Router
  import opened RouterProof
  import opened RouterTheorems

  lemma {:induction false} RunConcat(st: State, a: seq<Action>, b: seq<Action>)
    ensures Run(st, a + b) == Run(Run(st, a), b)
  {
    if b == [] {
      assert a + b == a;
    } else {
      var front, last := b[..|b| - 1], b[|b| - 1];
      RunConcat(st, a, front);
      assert (a + b)[..|a + b| - 1] == a + front && (a + b)[|a + b| - 1] == last;
    }
  }

  lemma RunOne(st: State, a: Action)
    ensures Run(st, [a]) == Step(st, a)
  {
    assert [a][..0] == [] && Run(st, [a][..0]) == st;
  }

  lemma ReachableRun(st: State, schedule: seq<Action>)
    requires Reachable(st)
    ensures Reachable(Run(st, schedule))
  {
    var pids, junk, before :| ReachedBy(st, pids, junk, before);
    RunConcat(Init(pids, junk), before, schedule);
    assert ReachedBy(Run(st, schedule), pids, junk, before + schedule);
  }

  // ------------------------------------------------------- the server shuts down

  /** The Quit messages among ms: type and text, in order. */
  function QuitsIn(ms: seq<Message>): seq<(int, string)> {
    if ms == [] then []
    else
      var last := ms[|ms| - 1];
      QuitsIn(ms[..|ms| - 1]) + (if IsQuit(last.buf.text) then [(last.mtype, last.buf.text)] else [])
  }

  /** All Quit messages passed to msgsnd, accepted or refused. */
  function QuitsWritten(k: Kernel): seq<(int, string)> {
    QuitsIn(k.sent) + QuitsIn(k.refused)
  }

  const QUITS := [(1, "Quit"), (2, "Quit"), (3, "Quit")]

  function ServerTurns(schedule: seq<Action>): nat {
    if schedule == [] then 0
    else ServerTurns(schedule[..|schedule| - 1]) + (if schedule[|schedule| - 1] == ServerTurn then 1 else 0)
  }

  /** How many Quits the server has written at each point. */
  function QuitsDone(pc: ServerPc): int {
    if pc.SQuit? then pc.i - 1 else if pc.SDone? then 3 else 0
  }

  predicate QuitsOk(s: Server, k: Kernel) {
    0 <= QuitsDone(s.pc) <= 3 && QuitsWritten(k) == QUITS[..QuitsDone(s.pc)] && (s.pc == SDone ==> k.removed)
  }

  lemma QuitsSnoc(ms: seq<Message>, m: Message)
    ensures QuitsIn(ms + [m]) == QuitsIn(ms) + (if IsQuit(m.buf.text) then [(m.mtype, m.buf.text)] else [])
  {
    assert (ms + [m])[..|ms|] == ms;
  }

  lemma QuitsPost(k: Kernel, m: Message)
    requires Lifecycle(k)
    ensures QuitsWritten(Post(k, m)) == QuitsWritten(k) + (if IsQuit(m.buf.text) then [(m.mtype, m.buf.text)] else [])
  {
    QuitsSnoc(k.sent, m);
    QuitsSnoc(k.refused, m);
  }

  lemma MainQuits(c: Client, k: Kernel)
    requires Lifecycle(k)
    ensures QuitsWritten(MainStep(c, k).1) == QuitsWritten(k) && (k.removed ==> MainStep(c, k).1.removed)
  {
    if c.mainPc == Sending {
      DataIsNotQuit(c.pid, c.id);
      QuitsPost(k, Message(4, MsgBuf(c.id, NextDest(c.id, c.dest), ClientText(c.pid, c.id), c.sent)));
    }
  }

  lemma RecvQuits(c: Client, k: Kernel, unwritten: MsgBuf)
    ensures var k' := RecvStep(c, k, unwritten).1; QuitsWritten(k') == QuitsWritten(k) && k'.removed == k.removed
  {
  }

  lemma ServerQuits(s: Server, k: Kernel)
    requires KernelInv(k) && ServerInv(s, k) && QuitsOk(s, k)
    ensures var (s', k') := ServerStep(s, k); QuitsOk(s', k')
  {
    if s.pc == SHolding {
      QuitsPost(k, s.msg.(mtype := s.msg.buf.dest));
    } else if s.pc.SQuit? && s.pc.i <= 3 {
      QuitsPost(k, s.msg.(mtype := s.pc.i, buf := s.msg.buf.(text := "Quit")));
      assert QUITS[..s.pc.i] == QUITS[..s.pc.i - 1] + [(s.pc.i, "Quit")];
    }
  }

  lemma QuitsKept(st: State, a: Action)
    requires Inv(st) && QuitsOk(st.server, st.kernel)
    ensures QuitsOk(Step(st, a).server, Step(st, a).kernel)
  {
    match a
    case MainTurn(o) =>
      ClientTurnSeen(st, o, st.server.msg.buf, o);
      MainQuits(st.At(o), st.kernel);
    case RecvTurn(o, unwritten) =>
      ClientTurnSeen(st, o, unwritten, o);
      RecvQuits(st.At(o), st.kernel, unwritten);
    case ServerTurn =>
      ServerTurnSeen(st, 1);
      ServerQuits(st.server, st.kernel);
    case InterruptClient(_) =>
    case InterruptServer =>
  }

  /** Turns the stopped server needs at most until it is done. */
  function TurnsLeft(pc: ServerPc): int {
    match pc
    case SPolling => 7
    case SHolding => 6
    case SLoopHead => 5
    case SQuit(i) => 5 - i
    case SDone => 0
  }

  lemma StoppedTurn(s: Server, k: Kernel)
    requires !s.isRunning && QuitsInv(s, k)
    ensures var s' := ServerStep(s, k).0; !s'.isRunning && (s.pc == SDone ==> s'.pc == SDone)
    ensures s.pc != SDone ==> TurnsLeft(ServerStep(s, k).0.pc) < TurnsLeft(s.pc)
  {
  }

  lemma ServerSeen(st: State, a: Action)
    ensures a != ServerTurn ==> Step(st, a).server.pc == st.server.pc && (!st.server.isRunning ==> !Step(st, a).server.isRunning)
  {
  }

  lemma {:induction false} StoppedServer(st: State, schedule: seq<Action>)
    requires Inv(st) && QuitsOk(st.server, st.kernel) && !st.server.isRunning
    ensures var end := Run(st, schedule);
      && Inv(end) && QuitsOk(end.server, end.kernel) && !end.server.isRunning
      && (end.server.pc == SDone || TurnsLeft(end.server.pc) + ServerTurns(schedule) <= TurnsLeft(st.server.pc))
  {
    if schedule != [] {
      var before, a := schedule[..|schedule| - 1], schedule[|schedule| - 1];
      var mid := Run(st, before);
      StoppedServer(st, before);
      StepKeeps(mid, a);
      QuitsKept(mid, a);
      if a == ServerTurn {
        ServerTurnSeen(mid, 1);
        StoppedTurn(mid.server, mid.kernel);
      } else {
        ServerSeen(mid, a);
      }
    }
  }

  lemma {:induction false} RunQuits(st: State, schedule: seq<Action>)
    requires Inv(st) && QuitsOk(st.server, st.kernel)
    ensures QuitsOk(Run(st, schedule).server, Run(st, schedule).kernel)
  {
    if schedule != [] {
      var before := schedule[..|schedule| - 1];
      RunQuits(st, before);
      RunKeeps(st, before);
      QuitsKept(Run(st, before), schedule[|schedule| - 1]);
    }
  }

  lemma ReachableQuits(st: State)
    requires Reachable(st)
    ensures QuitsOk(st.server, st.kernel)
  {
    var pids, junk, schedule :| ReachedBy(st, pids, junk, schedule);
    InitInv(pids, junk);
    assert QUITS[..0] == [];
    RunQuits(Init(pids, junk), schedule);
  }

  lemma StoppedServerShutsDown(st: State, schedule: seq<Action>)
    requires Reachable(st) && !st.server.isRunning && ServerTurns(schedule) >= 7
    ensures var end := Run(st, schedule); end.server.pc == SDone && end.kernel.removed && QuitsWritten(end.kernel) == QUITS
  {
    ReachableInv(st);
    ReachableQuits(st);
    StoppedServer(st, schedule);
    assert QUITS[..3] == QUITS;
  }

  lemma InterruptStops(st: State)
    ensures !Step(st, InterruptServer).server.isRunning
  {
  }

  /** An interrupted server shuts down: once it has taken seven turns after the interrupt, in
      any interleaving with the clients, it is done, the queue is removed, and Quit has been
      written exactly to 1, 2 and 3, in this order. */
  lemma ServerShutsDown(st: State, schedule: seq<Action>)
    requires Reachable(st) && ServerTurns(schedule) >= 7
    ensures var end := Run(Step(st, InterruptServer), schedule);
      && end.server.pc == SDone && end.kernel.removed
      && QuitsWritten(end.kernel) == [(1, "Quit"), (2, "Quit"), (3, "Quit")]
  {
    RunOne(st, InterruptServer);
    ReachableRun(st, [InterruptServer]);
    InterruptStops(st);
    StoppedServerShutsDown(Step(st, InterruptServer), schedule);
  }

  /** A running server has written no Quit. */
  lemma NoQuitWhileRunning(st: State)
    requires Reachable(st) && st.server.isRunning
    ensures QuitsWritten(st.kernel) == [] && st.server.pc != SDone
  {
    ReachableInv(st);
    ReachableQuits(st);
  }

  // ------------------------------------------------------------ a client stops sending

  /** May the main loop still send without passing its loop head? */
  predicate BeforeSending(c: Client) {
    !(c.mainPc.LoopHead? || c.mainPc.Joining? || c.mainPc.Exited? || c.mainPc.Crashed?)
  }

  function SendsAtMost(c: Client): nat {
    c.sent + (if BeforeSending(c) then 1 else 0)
  }

  lemma StoppedMain(c: Client, k: Kernel)
    requires !c.isRunning
    ensures var c' := MainStep(c, k).0; !c'.isRunning && SendsAtMost(c') <= SendsAtMost(c)
  {
  }

  lemma StoppedRecv(c: Client, k: Kernel, unwritten: MsgBuf)
    requires !c.isRunning
    ensures var c' := RecvStep(c, k, unwritten).0; !c'.isRunning && SendsAtMost(c') == SendsAtMost(c)
  {
  }

  lemma StoppedStep(st: State, id: ClientId, a: Action)
    requires !st.At(id).isRunning
    ensures var c' := Step(st, a).At(id); !c'.isRunning && SendsAtMost(c') <= SendsAtMost(st.At(id))
  {
    match a
    case MainTurn(o) =>
      ClientTurnSeen(st, o, st.server.msg.buf, id);
      StoppedMain(st.At(id), st.kernel);
    case RecvTurn(o, unwritten) =>
      ClientTurnSeen(st, o, unwritten, id);
      StoppedRecv(st.At(id), st.kernel, unwritten);
    case ServerTurn => ServerTurnSeen(st, id);
    case InterruptClient(_) =>
    case InterruptServer =>
  }

  /** A stopped client sends at most one more message, and none from its loop head. */
  lemma {:induction false} StoppedSendsOnce(st: State, id: ClientId, schedule: seq<Action>)
    requires !st.At(id).isRunning
    ensures var end := Run(st, schedule).At(id);
      && !end.isRunning && SendsAtMost(end) <= SendsAtMost(st.At(id))
      && end.sent <= st.At(id).sent + 1
      && (st.At(id).mainPc == LoopHead ==> end.sent <= st.At(id).sent)
  {
    if schedule != [] {
      var before := schedule[..|schedule| - 1];
      StoppedSendsOnce(st, id, before);
      StoppedStep(Run(st, before), id, schedule[|schedule| - 1]);
    }
  }

  /** SIGINT at a client: at most one more message is sent, however the run goes on. */
  lemma InterruptedClientStops(st: State, id: ClientId, schedule: seq<Action>)
    ensures var end := Run(Step(st, InterruptClient(id)), schedule).At(id);
      end.sent <= st.At(id).sent + 1 && (st.At(id).mainPc == LoopHead ==> end.sent <= st.At(id).sent)
  {
    StoppedSendsOnce(Step(st, InterruptClient(id)), id, schedule);
  }

  // ------------------------------------------------------------------- delivery

  /** A running client is in its loops. */
  predicate RunningInv(c: Client) {
    c.isRunning ==> !c.recvPc.RExited? && !c.mainPc.Joining? && !c.mainPc.Exited?
  }

  lemma RunningMain(c: Client, k: Kernel)
    requires RunningInv(c)
    ensures RunningInv(MainStep(c, k).0)
  {
  }

  lemma RunningRecv(c: Client, k: Kernel, unwritten: MsgBuf)
    requires RunningInv(c)
    ensures RunningInv(RecvStep(c, k, unwritten).0)
  {
  }

  lemma RunningStep(st: State, id: ClientId, a: Action)
    requires RunningInv(st.At(id))
    ensures RunningInv(Step(st, a).At(id))
  {
    match a
    case MainTurn(o) =>
      ClientTurnSeen(st, o, st.server.msg.buf, id);
      RunningMain(st.At(id), st.kernel);
    case RecvTurn(o, unwritten) =>
      ClientTurnSeen(st, o, unwritten, id);
      RunningRecv(st.At(id), st.kernel, unwritten);
    case ServerTurn => ServerTurnSeen(st, id);
    case InterruptClient(_) =>
    case InterruptServer =>
  }

  lemma {:induction false} RunningKept(st: State, id: ClientId, schedule: seq<Action>)
    requires RunningInv(st.At(id))
    ensures RunningInv(Run(st, schedule).At(id))
  {
    if schedule != [] {
      RunningKept(st, id, schedule[..|schedule| - 1]);
      RunningStep(Run(st, schedule[..|schedule| - 1]), id, schedule[|schedule| - 1]);
    }
  }

  lemma ReachableRunning(st: State, id: ClientId)
    requires Reachable(st)
    ensures RunningInv(st.At(id))
  {
    var pids, junk, schedule :| ReachedBy(st, pids, junk, schedule);
    RunningKept(Init(pids, junk), id, schedule);
  }

  /** The queue exists, and the server and client d are running. */
  ghost predicate Alive(st: State, d: ClientId) {
    Inv(st) && !st.kernel.removed && st.server.isRunning && st.At(d).isRunning && RunningInv(st.At(d))
  }

  function OfTypeIn(st: State, t: int): seq<Message> {
    Filter(OfType(t), st.kernel.queue)
  }

  // the server forwards everything

  function ServerRank(s: Server): nat {
    match s.pc
    case SHolding => 3
    case SLoopHead => 2
    case _ => 1
  }

  predicate ServerIdle(st: State) {
    OfTypeIn(st, 4) == [] && st.server.pc != SHolding
  }

  lemma ServerMoves(st: State, d: ClientId)
    requires Alive(st, d) && !ServerIdle(st)
    ensures var st' := Step(st, ServerTurn);
      && Alive(st', d) && st'.At(d) == st.At(d) && Requests(st', d) == Requests(st, d)
      && 4 * |OfTypeIn(st', 4)| + ServerRank(st'.server) < 4 * |OfTypeIn(st, 4)| + ServerRank(st.server)
  {
    var s, k := st.server, st.kernel;
    StepKeeps(st, ServerTurn);
    ServerTurnSeen(st, d);
    HasTypeIffNonEmpty(k, 4);
    if s.pc == SHolding {
      var m := s.msg.(mtype := s.msg.buf.dest);
      assert WellTyped(s.msg);
      OfferedPost(AddressedTo(d), k, m);
      FilterSnoc(OfType(4), k.queue, m);
    } else if s.pc == SPolling && HasType(k, 4) {
      TakeIsFifo(k, 4, 4);
    }
  }

  lemma {:induction false} ServerDrains(st: State, d: ClientId) returns (schedule: seq<Action>)
    requires Alive(st, d)
    ensures var end := Run(st, schedule);
      Alive(end, d) && ServerIdle(end) && end.At(d) == st.At(d) && Requests(end, d) == Requests(st, d)
    decreases 4 * |OfTypeIn(st, 4)| + ServerRank(st.server)
  {
    if ServerIdle(st) {
      return [];
    }
    ServerMoves(st, d);
    var rest := ServerDrains(Step(st, ServerTurn), d);
    RunOne(st, ServerTurn);
    RunConcat(st, [ServerTurn], rest);
    return [ServerTurn] + rest;
  }

  // the main loop lets go of the lock

  predicate MainLocks(c: Client) {
    c.mainPc == HasLock || c.mainPc.Unlocking?
  }

  lemma MainReleases(st: State, d: ClientId)
    requires Alive(st, d) && ServerIdle(st) && MainLocks(st.At(d))
    ensures var st' := Step(st, MainTurn(d));
      Alive(st', d) && ServerIdle(st') && Requests(st', d) == Requests(st, d)
      && (MainLocks(st'.At(d)) ==> st.At(d).mainPc == HasLock && st'.At(d).mainPc.Unlocking?)
  {
    StepKeeps(st, MainTurn(d));
    ClientTurnSeen(st, d, st.server.msg.buf, d);
    assert ClientOk(st, d);
  }

  lemma LockReleased(st: State, d: ClientId) returns (schedule: seq<Action>)
    requires Alive(st, d) && ServerIdle(st)
    ensures var end := Run(st, schedule);
      Alive(end, d) && ServerIdle(end) && !MainLocks(end.At(d)) && Requests(end, d) == Requests(st, d)
    decreases if st.At(d).mainPc == HasLock then 2 else if st.At(d).mainPc.Unlocking? then 1 else 0
  {
    if !MainLocks(st.At(d)) {
      return [];
    }
    MainReleases(st, d);
    var rest := LockReleased(Step(st, MainTurn(d)), d);
    RunOne(st, MainTurn(d));
    RunConcat(st, [MainTurn(d)], rest);
    return [MainTurn(d)] + rest;
  }

  // the receive thread collects everything

  function RecvRank(c: Client): nat {
    match c.recvPc
    case RExited => 0
    case Receiving => 1
    case RLoopHead => 2
    case RUnlocking => 3
    case RHasLock(_) => 4
    case RWantLock(_) => 5
    case Got(_) => 6
  }

  predicate RecvIdle(st: State, d: ClientId) {
    OfTypeIn(st, d) == [] && (st.At(d).recvPc == Receiving || st.At(d).recvPc == RLoopHead)
  }

  /** While the server is running no Quit is around. */
  lemma NoQuitAround(st: State, d: ClientId)
    requires Alive(st, d)
    ensures st.At(d).id == d && LockInv(st.At(d)) && !st.At(d).quitRead
    ensures st.At(d).recvPc.Got? ==> !IsQuit(st.At(d).recvPc.hand.text)
    ensures HasType(st.kernel, d) ==> !IsQuit(Head(st.kernel, d).buf.text)
  {
    assert ClientOk(st, d);
    if HasType(st.kernel, d) {
      TakeIsFifo(st.kernel, d, d);
      assert OfTypeIn(st, d)[0] == Head(st.kernel, d);
    }
  }

  lemma RecvMovesOn(c: Client, k: Kernel, unwritten: MsgBuf)
    requires !k.removed && c.isRunning && c.recvPc != RExited && LockInv(c) && !MainLocks(c)
    requires c.recvPc.Got? ==> !IsQuit(c.recvPc.hand.text)
    requires c.recvPc == Receiving ==> HasType(k, c.id)
    ensures var (c', k') := RecvStep(c, k, unwritten);
      && c'.isRunning && c'.mainPc == c.mainPc && k'.sent == k.sent && k'.refused == k.refused && !k'.removed
      && (if c.recvPc == Receiving then c'.recvPc.Got? && k' == Take(k, c.id) else k' == k && RecvRank(c') < RecvRank(c))
  {
  }

  lemma RecvProgress(st: State, d: ClientId, unwritten: MsgBuf)
    requires Alive(st, d) && ServerIdle(st) && !MainLocks(st.At(d)) && !RecvIdle(st, d)
    ensures var st' := Step(st, RecvTurn(d, unwritten));
      && Alive(st', d) && ServerIdle(st') && !MainLocks(st'.At(d)) && Requests(st', d) == Requests(st, d)
      && 7 * |OfTypeIn(st', d)| + RecvRank(st'.At(d)) < 7 * |OfTypeIn(st, d)| + RecvRank(st.At(d))
  {
    NoQuitAround(st, d);
    HasTypeIffNonEmpty(st.kernel, d);
    StepKeeps(st, RecvTurn(d, unwritten));
    RunningStep(st, d, RecvTurn(d, unwritten));
    ClientTurnSeen(st, d, unwritten, d);
    RecvMovesOn(st.At(d), st.kernel, unwritten);
    if st.At(d).recvPc == Receiving {
      TakeIsFifo(st.kernel, d, d);
      TakeIsFifo(st.kernel, d, 4);
    }
  }

  lemma {:induction false} RecvDrains(st: State, d: ClientId, unwritten: MsgBuf) returns (schedule: seq<Action>)
    requires Alive(st, d) && ServerIdle(st) && !MainLocks(st.At(d))
    ensures var end := Run(st, schedule);
      Alive(end, d) && ServerIdle(end) && RecvIdle(end, d) && Requests(end, d) == Requests(st, d)
    decreases 7 * |OfTypeIn(st, d)| + RecvRank(st.At(d))
  {
    if RecvIdle(st, d) {
      return [];
    }
    var a := RecvTurn(d, unwritten);
    RecvProgress(st, d, unwritten);
    var rest := RecvDrains(Step(st, a), d, unwritten);
    RunOne(st, a);
    RunConcat(st, [a], rest);
    return [a] + rest;
  }

  // the main loop displays everything

  function MainRank(c: Client): nat {
    match c.mainPc
    case Sending => 9
    case LoopHead => 8
    case Unlocking(_) => 7
    case Printing(_) => 6
    case SizeTest => 5
    case WantLock => 4
    case HasLock => 3
    case _ => 0
  }

  /** Nothing for d is on its way outside the client. */
  predicate Arrived(st: State, d: ClientId) {
    && RecvIdle(st, d) && st.server.pc != SHolding && Waiting(st, d) == []
  }

  predicate MainIdle(c: Client) {
    c.inbox == [] && MainHand(c) == []
  }

  lemma MainMovesOn(c: Client, k: Kernel)
    requires !k.removed && c.isRunning && RunningInv(c) && LockInv(c) && !MainIdle(c)
    requires c.recvPc == Receiving || c.recvPc == RLoopHead
    ensures var (c', k') := MainStep(c, k);
      && c'.isRunning && c'.recvPc == c.recvPc && !k'.removed
      && 10 * |c'.inbox| + MainRank(c') < 10 * |c.inbox| + MainRank(c)
      && (k' == k || (c.mainPc == Sending
          && k' == Send(k, Message(4, MsgBuf(c.id, NextDest(c.id, c.dest), ClientText(c.pid, c.id), c.sent)))))
  {
  }

  /** The client's own request is not addressed to it. */
  lemma OwnSend(st: State, d: ClientId, m: Message)
    requires Lifecycle(st.kernel) && m.mtype == 4 && m.buf.dest != d
    ensures var st' := st.(kernel := Send(st.kernel, m));
      OfTypeIn(st', d) == OfTypeIn(st, d) && Waiting(st', d) == Waiting(st, d)
    ensures Select(AddressedTo(d), Send(st.kernel, m).sent) == Select(AddressedTo(d), st.kernel.sent)
  {
    FilterSnoc(OfType(d), st.kernel.queue, m);
    SelectSnoc(AddressedTo(d), st.kernel.queue, m);
    SelectSnoc(AddressedTo(d), st.kernel.sent, m);
  }

  lemma MainProgress(st: State, d: ClientId)
    requires Alive(st, d) && Arrived(st, d) && !MainIdle(st.At(d))
    ensures var st' := Step(st, MainTurn(d));
      && Alive(st', d) && Arrived(st', d) && Requests(st', d) == Requests(st, d)
      && 10 * |st'.At(d).inbox| + MainRank(st'.At(d)) < 10 * |st.At(d).inbox| + MainRank(st.At(d))
  {
    NoQuitAround(st, d);
    StepKeeps(st, MainTurn(d));
    RunningStep(st, d, MainTurn(d));
    ClientTurnSeen(st, d, st.server.msg.buf, d);
    var c, k := st.At(d), st.kernel;
    MainMovesOn(c, k);
    OwnSend(st, d, Message(4, MsgBuf(d, NextDest(d, c.dest), ClientText(c.pid, d), c.sent)));
  }

  lemma {:induction false} MainDrains(st: State, d: ClientId) returns (schedule: seq<Action>)
    requires Alive(st, d) && Arrived(st, d)
    ensures var end := Run(st, schedule);
      Alive(end, d) && Arrived(end, d) && MainIdle(end.At(d)) && Requests(end, d) == Requests(st, d)
    decreases 10 * |st.At(d).inbox| + MainRank(st.At(d))
  {
    if MainIdle(st.At(d)) {
      return [];
    }
    MainProgress(st, d);
    var rest := MainDrains(Step(st, MainTurn(d)), d);
    RunOne(st, MainTurn(d));
    RunConcat(st, [MainTurn(d)], rest);
    return [MainTurn(d)] + rest;
  }

  lemma IdleMeansArrived(st: State, d: ClientId)
    requires Alive(st, d) && ServerIdle(st) && RecvIdle(st, d)
    ensures Arrived(st, d)
  {
    SelectWithinType(4, AddressedTo(d), st.kernel.queue);
  }

  lemma AllDisplayed(st: State, d: ClientId)
    requires Reachable(st) && Alive(st, d) && Arrived(st, d) && MainIdle(st.At(d))
    ensures st.At(d).displayed == Requests(st, d)
  {
    Conservation(st, d);
    SelectWithinType(d, DataFor(d), st.kernel.queue);
    var c := st.At(d);
    assert Holdings(c) == c.displayed + [] + [] + [];
    assert Pipeline(st, d) == c.displayed + ([] + [] + []);
  }

  /** Delivery: from every reachable state in which the queue exists and the server and client
      d are running, some continuation displays at d exactly what had been requested for it, in
      order, however much was on its way and wherever it was. */
  lemma EverythingCanBeDelivered(st: State, d: ClientId) returns (schedule: seq<Action>)
    requires Reachable(st) && !st.kernel.removed && st.server.isRunning && st.At(d).isRunning
    ensures Run(st, schedule).At(d).displayed == Requests(st, d)
  {
    ReachableInv(st);
    ReachableRunning(st, d);
    var s1 := ServerDrains(st, d);
    var st1 := Run(st, s1);
    var s2 := LockReleased(st1, d);
    var st2 := Run(st1, s2);
    var s3 := RecvDrains(st2, d, st.server.msg.buf);
    var st3 := Run(st2, s3);
    IdleMeansArrived(st3, d);
    var s4 := MainDrains(st3, d);
    RunConcat(st, s1, s2);
    RunConcat(st, s1 + s2, s3);
    RunConcat(st, s1 + s2 + s3, s4);
    schedule := s1 + s2 + s3 + s4;
    ReachableRun(st, schedule);
    AllDisplayed(Run(st, schedule), d);
  }
}

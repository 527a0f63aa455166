/** Lab8: three clients, each with a main loop and a receive thread, exchange messages
    through a forwarding server over one shared System V queue.

    Every process is a deterministic step function over its own variables and the shared
    kernel queue; an arbitrary sequence of actions is an arbitrary interleaving. A step
    that cannot proceed (a held lock, an empty queue) changes nothing. Once the queue has
    been removed every msgsnd and msgrcv fails; the programs go on regardless. */
module Router {
  import opened KernelQueue
  import opened Text

  type ClientId = c: int | 1 <= c <= 3 witness 1

  /** strncmp(buf, "Quit", 4) == 0 */
  predicate IsQuit(text: string) {
    |text| >= 4 && text[..4] == "Quit"
  }

  function ClientText(pid: nat, id: ClientId): string {
    Decimal(pid) + ": Message from client " + Decimal(id) + "\n"
  }

  /** The alternation of the three main loops; `dest` starts at 0. */
  function NextDest(id: ClientId, dest: int): ClientId {
    if id == 1 then (if dest == 2 then 3 else 2)
    else if id == 2 then (if dest == 3 then 1 else 3)
    else (if dest == 1 then 2 else 1)
  }

  datatype Lock = Free | ByMain | ByRecv

  /** Where the main loop is. Crashed stands for front() on an empty queue. */
  datatype MainPc =
    | LoopHead | SizeTest | WantLock | HasLock
    | Unlocking(hand: MsgBuf) | Printing(hand: MsgBuf)
    | Sending | Joining | Exited | Crashed

  /** Where the receive thread is. */
  datatype RecvPc =
    | RLoopHead | Receiving | Got(hand: MsgBuf)
    | RWantLock(hand: MsgBuf) | RHasLock(hand: MsgBuf) | RUnlocking | RExited

  /** One client process. The rest are histories: how many messages it has passed to msgsnd,
      what it has printed, whether Quit has been received, how many failed receives were taken
      for messages, and what was still in the local queue when the process ended. */
  datatype Client = Client(
    id: ClientId, pid: nat, isRunning: bool, lock: Lock, inbox: seq<MsgBuf>, dest: int,
    mainPc: MainPc, recvPc: RecvPc, sent: nat, displayed: seq<MsgBuf>, quitRead: bool, staleReads: nat,
    discarded: seq<MsgBuf>)

  datatype ServerPc = SLoopHead | SPolling | SHolding | SQuit(i: int) | SDone

  /** The server. The history `quits` counts the Quit messages that were sent. */
  datatype Server = Server(isRunning: bool, pc: ServerPc, msg: Message, quits: nat)

  datatype State = State(kernel: Kernel, server: Server, c1: Client, c2: Client, c3: Client) {
    function At(id: ClientId): Client {
      if id == 1 then c1 else if id == 2 then c2 else c3
    }

    function With(id: ClientId, c: Client): State {
      if id == 1 then this.(c1 := c) else if id == 2 then this.(c2 := c) else this.(c3 := c)
    }
  }

  /** RecvTurn: `unwritten` is what the uninitialised message variable contains. */
  datatype Action =
    | MainTurn(id: ClientId) | RecvTurn(id: ClientId, unwritten: MsgBuf) | InterruptClient(id: ClientId)
    | ServerTurn | InterruptServer

  /** One step of a client's main loop. */
  function MainStep(c: Client, k: Kernel): (Client, Kernel) {
    match c.mainPc
    case LoopHead => (c.(mainPc := if c.isRunning then SizeTest else Joining), k)
    case SizeTest => (c.(mainPc := if |c.inbox| > 0 then WantLock else Sending), k)
    case WantLock => (if c.lock == Free then c.(lock := ByMain, mainPc := HasLock) else c, k)
    case HasLock =>
      (if c.inbox == [] then c.(mainPc := Crashed)
       else c.(inbox := c.inbox[1..], mainPc := Unlocking(c.inbox[0])), k)
    case Unlocking(b) => (c.(lock := Free, mainPc := Printing(b)), k)
    case Printing(b) => (c.(displayed := c.displayed + [b], mainPc := SizeTest), k)
    case Sending =>
      var d := NextDest(c.id, c.dest);
      (c.(dest := d, sent := c.sent + 1, mainPc := LoopHead),
       Post(k, Message(4, MsgBuf(c.id, d, ClientText(c.pid, c.id), c.sent))))
    case Joining =>
      if c.recvPc == RExited then (c.(mainPc := Exited, inbox := [], discarded := c.inbox), Remove(k)) else (c, k)
    case Exited => (c, k)
    case Crashed => (c, k)
  }

  /** One step of a client's receive thread. Nobody checks msgrcv's result: when it fails,
      the message variable is used unwritten. */
  function RecvStep(c: Client, k: Kernel, unwritten: MsgBuf): (Client, Kernel) {
    match c.recvPc
    case RLoopHead => (c.(recvPc := if c.isRunning then Receiving else RExited), k)
    case Receiving =>
      if k.removed then
        var b := unwritten.(serial := -1);
        (c.(recvPc := Got(b), staleReads := c.staleReads + (if IsQuit(b.text) then 0 else 1)), k)
      else if !HasType(k, c.id) then (c, k)
      else
        var b := Head(k, c.id).buf;
        (c.(recvPc := Got(b), quitRead := c.quitRead || IsQuit(b.text)), Take(k, c.id))
    case Got(b) =>
      (if IsQuit(b.text) then c.(isRunning := false, recvPc := RLoopHead) else c.(recvPc := RWantLock(b)), k)
    case RWantLock(b) => (if c.lock == Free then c.(lock := ByRecv, recvPc := RHasLock(b)) else c, k)
    case RHasLock(b) => (c.(inbox := c.inbox + [b], recvPc := RUnlocking), k)
    case RUnlocking => (c.(lock := Free, recvPc := RLoopHead), k)
    case RExited => (c, k)
  }

  /** One step of the server: poll for type 4, overwrite the type, send back; after
      SIGINT write Quit over the last message three times and remove the queue. */
  function ServerStep(s: Server, k: Kernel): (Server, Kernel) {
    match s.pc
    case SLoopHead => (s.(pc := if s.isRunning then SPolling else SQuit(1)), k)
    case SPolling =>
      if k.removed || !HasType(k, 4) then (s.(pc := SLoopHead), k)
      else (s.(pc := SHolding, msg := Head(k, 4)), Take(k, 4))
    case SHolding =>
      var m := s.msg.(mtype := s.msg.buf.dest);
      (s.(pc := SLoopHead, msg := m), Post(k, m))
    case SQuit(i) =>
      if 1 <= i <= 3 then
        var m := s.msg.(mtype := i, buf := s.msg.buf.(text := "Quit"));
        (s.(pc := SQuit(i + 1), msg := m, quits := s.quits + (if k.removed then 0 else 1)), Post(k, m))
      else (s.(pc := SDone), Remove(k))
    case SDone => (s, k)
  }

  function Step(st: State, a: Action): State {
    match a
    case MainTurn(id) => var (c, k) := MainStep(st.At(id), st.kernel); st.(kernel := k).With(id, c)
    case RecvTurn(id, unwritten) => var (c, k) := RecvStep(st.At(id), st.kernel, unwritten); st.(kernel := k).With(id, c)
    case InterruptClient(id) => st.With(id, st.At(id).(isRunning := false))
    case ServerTurn => var (s, k) := ServerStep(st.server, st.kernel); st.(kernel := k, server := s)
    case InterruptServer => st.(server := st.server.(isRunning := false))
  }

  /** Every interleaving: an arbitrary finite schedule. */
  function Run(st: State, schedule: seq<Action>): State {
    if schedule == [] then st else Step(Run(st, schedule[..|schedule| - 1]), schedule[|schedule| - 1])
  }

  function InitClient(id: ClientId, pid: nat): Client {
    Client(id, pid, true, Free, [], 0, LoopHead, RLoopHead, 0, [], false, 0, [])
  }

  /** Fresh queue, all processes about to enter their loops. `junk` is the server's
      uninitialised message variable. */
  function Init(pids: (nat, nat, nat), junk: Message): State {
    State(EMPTY, Server(true, SLoopHead, junk, 0),
          InitClient(1, pids.0), InitClient(2, pids.1), InitClient(3, pids.2))
  }

  ghost predicate Reachable(st: State) {
    exists pids, junk, schedule :: ReachedBy(st, pids, junk, schedule)
  }

  ghost predicate ReachedBy(st: State, pids: (nat, nat, nat), junk: Message, schedule: seq<Action>) {
    st == Run(Init(pids, junk), schedule)
  }
}

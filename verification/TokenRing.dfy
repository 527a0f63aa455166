/** Lab10: three processes hand one message around in a shared memory cell, under a mutex
    semaphore, after client 3 has initialised the cell and posted a start semaphore.

    The critical section is split into its single reads and writes, so that its atomicity
    is a theorem and not a modelling choice. `n` is NUM_MESSAGES. */
module TokenRing {

  type ClientNo = c: int | 1 <= c <= 3 witness 1

  /** The text field: cleared, or "This is message <num> from client <client>". */
  datatype Text = Blank | Text(num: int, client: int)

  datatype Memory = Memory(src: int, dest: int, message: Text)

  /** A completed message, and a message as a client has read and shown it. */
  datatype Packet = Packet(src: int, dest: int, num: int)
  datatype Receipt = Receipt(reader: int, src: int, message: Text)

  /** Semaphore and segment names, semaphore values, the cell, and two histories. */
  datatype Shared = Shared(
    mutexNamed: bool, startNamed: bool, memoryNamed: bool, mutex: int, start: int,
    cell: Memory, written: seq<Packet>, received: seq<Receipt>)

  datatype Pc =
    // client 3 only
    | CreateMutex | CreateStart | CreateMemory
    | InitSrc | InitDest | InitClear | InitText | Post1 | Post2
    // clients 1 and 2 only
    | OpenMutex(retries: nat) | OpenStart(retries: nat) | WaitStart | Attach
    // the common loop
    | LoopHead | WaitMutex
    | Test | Receive | WriteSrc | WriteDest | ClearText | WriteText | PostMutex
    | Done | FailedToOpen | FailedToAttach

  datatype Client = Client(no: ClientNo, pc: Pc, i: nat, running: bool)

  datatype State = State(shared: Shared, c1: Client, c2: Client, c3: Client) {
    function At(no: ClientNo): Client {
      if no == 1 then c1 else if no == 2 then c2 else c3
    }

    function With(no: ClientNo, c: Client): State {
      if no == 1 then this.(c1 := c) else if no == 2 then this.(c2 := c) else this.(c3 := c)
    }
  }

  /** Interrupt is SIGINT delivered outside sem_wait: it clears is_running. */
  datatype Action = Turn(no: ClientNo) | Interrupt(no: ClientNo)

  /** The destination of the reply a client writes in iteration i. */
  function Reply(no: ClientNo, i: nat): ClientNo {
    if no == 1 then 2 + i % 2
    else if no == 2 then 1 + 2 * (i % 2)
    else 1 + i % 2
  }

  /** Client 3, from creating the semaphores to its second post. */
  predicate StartingUp(c: Client) {
    c.pc.CreateMutex? || c.pc.CreateStart? || c.pc.CreateMemory? || c.pc.InitSrc? || c.pc.InitDest? || c.pc.InitClear?
    || c.pc.InitText? || c.pc.Post1? || c.pc.Post2?
  }

  /** Between sem_wait and sem_post on the mutex. */
  predicate InCritical(c: Client) {
    c.pc.Test? || c.pc.Receive? || c.pc.WriteSrc? || c.pc.WriteDest? || c.pc.ClearText? || c.pc.WriteText? || c.pc.PostMutex?
  }

  /** One step of a process. A sem_wait on a zero semaphore changes nothing. */
  function TurnOf(n: nat, c: Client, s: Shared): (Client, Shared) {
    if StartingUp(c) then CreateStep(c, s) else if InCritical(c) then ExchangeStep(c, s) else EnterStep(n, c, s)
  }

  /** Client 3 creates the semaphores and the segment, writes the first message and posts. */
  function CreateStep(c: Client, s: Shared): (Client, Shared)
    requires StartingUp(c)
  {
    match c.pc
    case CreateMutex => (c.(pc := CreateStart), s.(mutexNamed := true, mutex := 1))
    case CreateStart => (c.(pc := CreateMemory), s.(startNamed := true))
    case CreateMemory => (c.(pc := InitSrc), s.(memoryNamed := true))
    case InitSrc => (c.(pc := InitDest), s.(cell := s.cell.(src := c.no)))
    case InitDest => (c.(pc := InitClear), s.(cell := s.cell.(dest := 1)))
    case InitClear => (c.(pc := InitText), s.(cell := s.cell.(message := Blank)))
    case InitText =>
      (c.(pc := Post1), s.(cell := s.cell.(message := Text(0, c.no)),
                           written := s.written + [Packet(s.cell.src, s.cell.dest, 0)]))
    case Post1 => (c.(pc := Post2), s.(start := s.start + 1))
    case Post2 => (c.(pc := LoopHead), s.(start := s.start + 1))
  }

  /** Opening the semaphores, waiting to be started, attaching; the loop head and the lock. */
  function EnterStep(n: nat, c: Client, s: Shared): (Client, Shared)
    requires !StartingUp(c) && !InCritical(c)
  {
    match c.pc
    case OpenMutex(r) =>
      (c.(pc := if s.mutexNamed then OpenStart(10) else if r <= 1 then FailedToOpen else OpenMutex(r - 1)), s)
    case OpenStart(r) =>
      (c.(pc := if s.startNamed then WaitStart else if r <= 1 then FailedToOpen else OpenStart(r - 1)), s)
    case WaitStart => if s.start > 0 then (c.(pc := Attach), s.(start := s.start - 1)) else (c, s)
    case Attach => (c.(pc := if s.memoryNamed then LoopHead else FailedToAttach), s)
    case LoopHead =>
      if c.i < n && c.running then (c.(pc := WaitMutex), s)
      else (c.(pc := Done), if c.no == 3 then Cleanup(s) else s)
    case WaitMutex => if s.mutex > 0 then (c.(pc := Test), s.(mutex := s.mutex - 1)) else (c, s)
    case Done => (c, s)
    case FailedToOpen => (c, s)
    case FailedToAttach => (c, s)
  }

  /** The locked read and reply, one shared access at a time. */
  function ExchangeStep(c: Client, s: Shared): (Client, Shared)
    requires InCritical(c)
  {
    match c.pc
    case Test => (c.(pc := if s.cell.dest == c.no then Receive else PostMutex), s)
    case Receive =>
      (c.(pc := WriteSrc), s.(received := s.received + [Receipt(c.no, s.cell.src, s.cell.message)]))
    case WriteSrc => (c.(pc := WriteDest), s.(cell := s.cell.(src := c.no)))
    case WriteDest => (c.(pc := ClearText), s.(cell := s.cell.(dest := Reply(c.no, c.i))))
    case ClearText => (c.(pc := WriteText), s.(cell := s.cell.(message := Blank)))
    case WriteText =>
      (c.(pc := PostMutex), s.(cell := s.cell.(message := Text(c.i + 1, c.no)),
                               written := s.written + [Packet(s.cell.src, s.cell.dest, c.i + 1)]))
    case PostMutex => (c.(pc := LoopHead, i := c.i + 1), s.(mutex := s.mutex + 1))
  }

  /** Client 3's exit handler removes the segment and unlinks both semaphores. */
  function Cleanup(s: Shared): Shared {
    s.(mutexNamed := false, startNamed := false, memoryNamed := false)
  }

  function Interrupted(c: Client): Client {
    if c.pc == WaitMutex || c.pc == WaitStart then c else c.(running := false)
  }

  function Step(n: nat, st: State, a: Action): State {
    match a
    case Turn(no) => var (c, s) := TurnOf(n, st.At(no), st.shared); st.(shared := s).With(no, c)
    case Interrupt(no) => st.With(no, Interrupted(st.At(no)))
  }

  function Run(n: nat, st: State, schedule: seq<Action>): State {
    if schedule == [] then st else Step(n, Run(n, st, schedule[..|schedule| - 1]), schedule[|schedule| - 1])
  }

  /** No semaphore or segment exists yet. */
  function Init(): State {
    State(Shared(false, false, false, 0, 0, Memory(0, 0, Blank), [], []),
          Client(1, OpenMutex(10), 0, true), Client(2, OpenMutex(10), 0, true), Client(3, CreateMutex, 0, true))
  }

  ghost predicate Reachable(n: nat, st: State) {
    exists schedule :: st == Run(n, Init(), schedule)
  }
}

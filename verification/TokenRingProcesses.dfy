/** The Lab10 programs as objects: each process has its own counter and flag, and all
    three update one shared segment in place. */
module TokenRingProcesses {
  import opened TokenRing
  import opened TokenRingProof
  import opened TokenRingTheorems

  /** The shared segment and the two named semaphores. */
  class SharedMemory {
    var mutexNamed: bool
    var startNamed: bool
    var memoryNamed: bool
    var mutex: int
    var start: int
    var srcClientNo: int
    var destClientNo: int
    var message: Text
    ghost var written: seq<Packet>
    ghost var received: seq<Receipt>

    ghost function View(): Shared
      reads this
    {
      Shared(mutexNamed, startNamed, memoryNamed, mutex, start,
             Memory(srcClientNo, destClientNo, message), written, received)
    }

    constructor ()
      ensures View() == Init().shared
    {
      mutexNamed, startNamed, memoryNamed, mutex, start := false, false, false, 0, 0;
      srcClientNo, destClientNo, message, written, received := 0, 0, Blank, [], [];
    }
  }

  class RingClient {
    const no: ClientNo
    var pc: Pc
    var i: nat
    var isRunning: bool

    ghost function View(): Client
      reads this
    {
      Client(no, pc, i, isRunning)
    }

    constructor (no: ClientNo)
      ensures View() == Client(no, if no == 3 then CreateMutex else OpenMutex(10), 0, true)
    {
      this.no, pc, i, isRunning := no, if no == 3 then CreateMutex else OpenMutex(10), 0, true;
    }

    /** Client 3 creates the semaphores and the segment, writes the first message and posts. */
    method Create(shm: SharedMemory)
      requires StartingUp(View())
      modifies this, shm
      ensures (View(), shm.View()) == CreateStep(old(View()), old(shm.View()))
    {
      match pc
      case CreateMutex => shm.mutexNamed, shm.mutex, pc := true, 1, CreateStart;
      case CreateStart => shm.startNamed, pc := true, CreateMemory;
      case CreateMemory => shm.memoryNamed, pc := true, InitSrc;
      case InitSrc => shm.srcClientNo, pc := no, InitDest;
      case InitDest => shm.destClientNo, pc := 1, InitClear;
      case InitClear => shm.message, pc := Blank, InitText;
      case InitText =>
        shm.written := shm.written + [Packet(shm.srcClientNo, shm.destClientNo, 0)];
        shm.message, pc := Text(0, no), Post1;
      case Post1 => shm.start, pc := shm.start + 1, Post2;
      case Post2 => shm.start, pc := shm.start + 1, LoopHead;
    }

    /** Clients 1 and 2 open the semaphores, wait to be started and attach; all three take
        the mutex at the head of the loop. */
    method Enter(n: nat, shm: SharedMemory)
      requires !StartingUp(View()) && !InCritical(View())
      modifies this, shm
      ensures (View(), shm.View()) == EnterStep(n, old(View()), old(shm.View()))
    {
      match pc
      case OpenMutex(r) =>
        pc := if shm.mutexNamed then OpenStart(10) else if r <= 1 then FailedToOpen else OpenMutex(r - 1);
      case OpenStart(r) =>
        pc := if shm.startNamed then WaitStart else if r <= 1 then FailedToOpen else OpenStart(r - 1);
      case WaitStart =>
        if shm.start > 0 {
          shm.start, pc := shm.start - 1, Attach;
        }
      case Attach => pc := if shm.memoryNamed then LoopHead else FailedToAttach;
      case LoopHead =>
        if i < n && isRunning {
          pc := WaitMutex;
        } else {
          pc := Done;
          if no == 3 {
            shm.mutexNamed, shm.startNamed, shm.memoryNamed := false, false, false;
          }
        }
      case WaitMutex =>
        if shm.mutex > 0 {
          shm.mutex, pc := shm.mutex - 1, Test;
        }
      case Done =>
      case FailedToOpen =>
      case FailedToAttach =>
    }

    /** The locked read and reply. */
    method Exchange(shm: SharedMemory)
      requires InCritical(View())
      modifies this, shm
      ensures (View(), shm.View()) == ExchangeStep(old(View()), old(shm.View()))
    {
      match pc
      case Test => pc := if shm.destClientNo == no then Receive else PostMutex;
      case Receive =>
        shm.received := shm.received + [Receipt(no, shm.srcClientNo, shm.message)];
        pc := WriteSrc;
      case WriteSrc => shm.srcClientNo, pc := no, WriteDest;
      case WriteDest => shm.destClientNo, pc := Reply(no, i), ClearText;
      case ClearText => shm.message, pc := Blank, WriteText;
      case WriteText =>
        shm.written := shm.written + [Packet(shm.srcClientNo, shm.destClientNo, i + 1)];
        shm.message, pc := Text(i + 1, no), PostMutex;
      case PostMutex => shm.mutex, i, pc := shm.mutex + 1, i + 1, LoopHead;
    }

    predicate Starting()
      reads this
    {
      StartingUp(Client(no, pc, i, isRunning))
    }

    predicate Locked()
      reads this
    {
      InCritical(Client(no, pc, i, isRunning))
    }

    /** One step of main(); n is NUM_MESSAGES. */
    method Turn(n: nat, shm: SharedMemory)
      modifies this, shm
      ensures (View(), shm.View()) == TurnOf(n, old(View()), old(shm.View()))
    {
      if Starting() {
        Create(shm);
      } else if Locked() {
        Exchange(shm);
      } else {
        Enter(n, shm);
      }
    }

    /** SIGINT outside sem_wait. */
    method Interrupt()
      modifies this
      ensures View() == Interrupted(old(View()))
    {
      if pc != WaitMutex && pc != WaitStart {
        isRunning := false;
      }
    }
  }

  class System {
    const shm: SharedMemory
    const c1: RingClient
    const c2: RingClient
    const c3: RingClient

    ghost predicate Valid()
      reads this
    {
      c1 != c2 && c1 != c3 && c2 != c3 && c1.no == 1 && c2.no == 2 && c3.no == 3
    }

    ghost function View(): State
      reads this, shm, c1, c2, c3
    {
      State(shm.View(), c1.View(), c2.View(), c3.View())
    }

    constructor ()
      ensures Valid() && View() == Init() && fresh({shm, c1, c2, c3})
    {
      shm := new SharedMemory();
      c1 := new RingClient(1);
      c2 := new RingClient(2);
      c3 := new RingClient(3);
    }

    function Process(no: ClientNo): RingClient
      reads this
    {
      if no == 1 then c1 else if no == 2 then c2 else c3
    }

    method Perform(n: nat, a: Action)
      requires Valid()
      modifies shm, c1, c2, c3
      ensures Valid() && View() == Step(n, old(View()), a)
    {
      match a
      case Turn(no) => Process(no).Turn(n, shm);
      case Interrupt(no) => Process(no).Interrupt();
    }

    /** Executes an arbitrary interleaving of the three processes. */
    method Execute(n: nat, schedule: seq<Action>)
      requires Valid()
      modifies shm, c1, c2, c3
      ensures Valid() && View() == Run(n, old(View()), schedule)
    {
      for k := 0 to |schedule|
        invariant Valid() && View() == Run(n, old(View()), schedule[..k])
      {
        Perform(n, schedule[k]);
        assert schedule[..k + 1][..k] == schedule[..k];
      }
      assert schedule[..|schedule|] == schedule;
    }
  }

  /** The programs, run from the start: the messages written to the shared segment form a
      token chain, received in order by their addressees. */
  method Simulate(n: nat, schedule: seq<Action>) returns (system: System)
    ensures fresh(system) && system.Valid() && system.View() == Run(n, Init(), schedule)
    ensures var w, r := system.shm.written, system.shm.received;
      && (forall k | 0 < k < |w| :: w[k].src == w[k - 1].dest)
      && |w| - 1 <= |r| <= |w|
      && (forall k | 0 <= k < |r| :: r[k] == ReceiptOf(w[k]))
  {
    system := new System();
    system.Execute(n, schedule);
    TokenChain(n, system.View());
  }
}

/** The Lab8 programs as objects that update their own variables and the shared queue in
    place. Each method is one step of the corresponding thread. */
module RouterProcesses {
  import opened KernelQueue
  import opened Router
  import opened RouterTheorems

  class ClientProcess {
    const id: ClientId
    const pid: nat
    var isRunning: bool
    var lock: Lock
    var inbox: seq<MsgBuf>
    var dest: int
    var mainPc: MainPc
    var recvPc: RecvPc
    var sent: nat
    ghost var displayed: seq<MsgBuf>
    ghost var quitRead: bool
    ghost var staleReads: nat
    ghost var discarded: seq<MsgBuf>

    ghost function View(): Client
      reads this
    {
      Client(id, pid, isRunning, lock, inbox, dest, mainPc, recvPc, sent, displayed, quitRead, staleReads, discarded)
    }

    constructor (id: ClientId, pid: nat)
      ensures View() == InitClient(id, pid)
    {
      this.id, this.pid := id, pid;
      isRunning, lock, inbox, dest := true, Free, [], 0;
      mainPc, recvPc, sent, displayed, quitRead, staleReads, discarded := LoopHead, RLoopHead, 0, [], false, 0, [];
    }

    /** Alternates the destination and sends. */
    method SendNext(queue: MessageQueue)
      requires mainPc == Sending
      modifies this, queue
      ensures (View(), queue.View()) == MainStep(old(View()), old(queue.View()))
    {
      dest := NextDest(id, dest);
      queue.Msgsnd(Message(4, MsgBuf(id, dest, ClientText(pid, id), sent)));
      sent := sent + 1;
      mainPc := LoopHead;
    }

    /** Removes the queue and ends; the local queue is gone with the process. */
    method Leave(queue: MessageQueue)
      requires mainPc == Joining && recvPc == RExited
      modifies this, queue
      ensures (View(), queue.View()) == MainStep(old(View()), old(queue.View()))
    {
      queue.Rmid();
      discarded := inbox;
      inbox := [];
      mainPc := Exited;
    }

    /** One step of main(). */
    method MainTurn(queue: MessageQueue)
      modifies this, queue
      ensures (View(), queue.View()) == MainStep(old(View()), old(queue.View()))
    {
      match mainPc
      case LoopHead => mainPc := if isRunning then SizeTest else Joining;
      case SizeTest => mainPc := if |inbox| > 0 then WantLock else Sending;
      case WantLock =>
        if lock == Free {
          lock := ByMain;
          mainPc := HasLock;
        }
      case HasLock =>
        if inbox == [] {
          mainPc := Crashed;
        } else {
          var recvMsg := inbox[0];
          inbox := inbox[1..];
          mainPc := Unlocking(recvMsg);
        }
      case Unlocking(recvMsg) =>
        lock := Free;
        mainPc := Printing(recvMsg);
      case Printing(recvMsg) =>
        displayed := displayed + [recvMsg];
        mainPc := SizeTest;
      case Sending => SendNext(queue);
      case Joining =>
        if recvPc == RExited {
          Leave(queue);
        }
      case Exited =>
      case Crashed =>
    }

    /** One step of recv_func(). `unwritten` is what its message variable contains. */
    method RecvTurn(queue: MessageQueue, unwritten: MsgBuf)
      modifies this, queue
      ensures (View(), queue.View()) == RecvStep(old(View()), old(queue.View()), unwritten)
    {
      match recvPc
      case RLoopHead => recvPc := if isRunning then Receiving else RExited;
      case Receiving =>
        if queue.removed {
          staleReads := staleReads + (if IsQuit(unwritten.text) then 0 else 1);
          recvPc := Got(unwritten.(serial := -1));
        } else {
          var r := queue.Msgrcv(id);
          if r.Some? {
            recvPc := Got(r.value.buf);
            quitRead := quitRead || IsQuit(r.value.buf.text);
          }
        }
      case Got(msg) =>
        if IsQuit(msg.text) {
          isRunning := false;
          recvPc := RLoopHead;
        } else {
          recvPc := RWantLock(msg);
        }
      case RWantLock(msg) =>
        if lock == Free {
          lock := ByRecv;
          recvPc := RHasLock(msg);
        }
      case RHasLock(msg) =>
        inbox := inbox + [msg];
        recvPc := RUnlocking;
      case RUnlocking =>
        lock := Free;
        recvPc := RLoopHead;
      case RExited =>
    }

    method Interrupt()
      modifies this
      ensures View() == old(View()).(isRunning := false)
    {
      isRunning := false;
    }
  }

  class ServerProcess {
    var isRunning: bool
    var pc: ServerPc
    var msg: Message
    ghost var quits: nat

    ghost function View(): Server
      reads this
    {
      Server(isRunning, pc, msg, quits)
    }

    /** `junk` is the uninitialised message variable. */
    constructor (junk: Message)
      ensures View() == Server(true, SLoopHead, junk, 0)
    {
      isRunning, pc, msg, quits := true, SLoopHead, junk, 0;
    }

    method Turn(queue: MessageQueue)
      modifies this, queue
      ensures (View(), queue.View()) == ServerStep(old(View()), old(queue.View()))
    {
      match pc
      case SLoopHead => pc := if isRunning then SPolling else SQuit(1);
      case SPolling =>
        pc := SLoopHead;
        if !queue.removed {
          var r := queue.Msgrcv(4);
          if r.Some? {
            msg := r.value;
            pc := SHolding;
          }
        }
      case SHolding =>
        msg := msg.(mtype := msg.buf.dest);
        queue.Msgsnd(msg);
        pc := SLoopHead;
      case SQuit(i) =>
        if 1 <= i <= 3 {
          msg := msg.(mtype := i, buf := msg.buf.(text := "Quit"));
          quits := quits + (if queue.removed then 0 else 1);
          queue.Msgsnd(msg);
          pc := SQuit(i + 1);
        } else {
          queue.Rmid();
          pc := SDone;
        }
      case SDone =>
    }

    method Interrupt()
      modifies this
      ensures View() == old(View()).(isRunning := false)
    {
      isRunning := false;
    }
  }

  /** The four processes and the queue they share. */
  class System {
    const queue: MessageQueue
    const server: ServerProcess
    const c1: ClientProcess
    const c2: ClientProcess
    const c3: ClientProcess

    ghost predicate Valid()
      reads this
    {
      c1 != c2 && c1 != c3 && c2 != c3 && c1.id == 1 && c2.id == 2 && c3.id == 3
    }

    ghost function View(): State
      reads this, queue, server, c1, c2, c3
    {
      State(queue.View(), server.View(), c1.View(), c2.View(), c3.View())
    }

    constructor (pids: (nat, nat, nat), junk: Message)
      ensures Valid() && View() == Init(pids, junk)
      ensures fresh({queue, server, c1, c2, c3})
    {
      queue := new MessageQueue();
      server := new ServerProcess(junk);
      c1 := new ClientProcess(1, pids.0);
      c2 := new ClientProcess(2, pids.1);
      c3 := new ClientProcess(3, pids.2);
    }

    function Process(id: ClientId): (c: ClientProcess)
      reads this
    {
      if id == 1 then c1 else if id == 2 then c2 else c3
    }

    method Perform(a: Action)
      requires Valid()
      modifies queue, server, c1, c2, c3
      ensures Valid() && View() == Step(old(View()), a)
    {
      match a
      case MainTurn(id) => Process(id).MainTurn(queue);
      case RecvTurn(id, unwritten) => Process(id).RecvTurn(queue, unwritten);
      case InterruptClient(id) => Process(id).Interrupt();
      case ServerTurn => server.Turn(queue);
      case InterruptServer => server.Interrupt();
    }

    /** Executes an arbitrary interleaving of the processes. */
    method Execute(schedule: seq<Action>)
      requires Valid()
      modifies queue, server, c1, c2, c3
      ensures Valid() && View() == Run(old(View()), schedule)
    {
      for i := 0 to |schedule|
        invariant Valid() && View() == Run(old(View()), schedule[..i])
      {
        Perform(schedule[i]);
        assert schedule[..i + 1][..i] == schedule[..i];
      }
      assert schedule[..|schedule|] == schedule;
    }
  }

  /** The programs, run from the start: whatever the interleaving, the messages in the objects
      are conserved exactly when none has been lost and no failed receive is held. */
  method Simulate(pids: (nat, nat, nat), junk: Message, schedule: seq<Action>) returns (system: System)
    ensures fresh(system) && system.Valid() && system.View() == Run(Init(pids, junk), schedule)
    ensures forall d: ClientId :: Requests(system.View(), d) == Pipeline(system.View(), d) <==> Undisturbed(system.View(), d)
    ensures !system.queue.removed ==> forall d: ClientId :: Undisturbed(system.View(), d)
  {
    system := new System(pids, junk);
    system.Execute(schedule);
    ghost var st := system.View();
    assert ReachedBy(st, pids, junk, schedule);
    forall d: ClientId
      ensures Requests(st, d) == Pipeline(st, d) <==> Undisturbed(st, d)
      ensures !st.kernel.removed ==> Undisturbed(st, d)
    {
      Conservation(st, d);
    }
  }
}

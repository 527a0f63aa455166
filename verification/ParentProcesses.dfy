/** Assignment1 Part4 as objects: the parent's phases, the pending signals and the workers,
    updated in place by one step at a time. */
module ParentProcesses {
  import opened Sequences
  import opened SignalHandler
  import opened ParentSystem

  class System {
    /** The pids that fork() will return. */
    const pids: seq<int>
    const parent: Parent
    var pc: ParentPc
    var usr1: Option<WorkerNo>
    var usr2: Option<WorkerNo>
    var w1: Worker
    var w2: Worker
    var w3: Worker
    ghost var dropped1: set<WorkerNo>
    ghost var dropped2: set<WorkerNo>

    ghost function View(): State
      reads this, parent
    {
      State(pids, pc, parent.View(), usr1, usr2, dropped1, dropped2, w1, w2, w3)
    }

    ghost predicate Valid()
      reads this, parent
    {
      Pids(pids) && |parent.workerPids| == 3
    }

    constructor (pids: seq<int>)
      requires Pids(pids)
      ensures Valid() && View() == Init(pids) && fresh(parent)
    {
      this.pids := pids;
      parent := new Parent();
      pc, usr1, usr2, dropped1, dropped2 := Fork(1), None, None, {}, {};
      w1, w2, w3 := Worker(Unborn, false, false), Worker(Unborn, false, false), Worker(Unborn, false, false);
    }

    function GetWorker(w: WorkerNo): Worker
      reads this
    {
      if w == 1 then w1 else if w == 2 then w2 else w3
    }

    method SetWorker(w: WorkerNo, x: Worker)
      modifies `w1, `w2, `w3
      ensures View() == old(View()).With(w, x)
    {
      if w == 1 {
        w1 := x;
      } else if w == 2 {
        w2 := x;
      } else {
        w3 := x;
      }
    }

    method ForkTurn(w: WorkerNo)
      requires Valid() && pc == Fork(w)
      modifies this
      ensures Valid() && View() == ParentStep(old(View()))
    {
      SetWorker(w, GetWorker(w).(pc := Reading));
      pc := Record(w);
    }

    /** One step of main(). */
    method MainTurn()
      requires Valid()
      modifies this, parent
      ensures Valid() && View() == ParentStep(old(View()))
    {
      match pc
      case Fork(w) => ForkTurn(w);
      case Record(w) =>
        parent.workerPids := parent.workerPids[w - 1 := pids[w - 1]];
        pc := if w == 3 then Unblock else Fork(w + 1);
      case Unblock => pc := Check(0);
      case Check(phase) =>
        var flag := if phase == 0 then parent.memoryWarnedWorker3
          else if phase == 1 then parent.worker1Completed else parent.worker2Completed;
        pc := if !flag then AboutToSuspend(phase) else if phase < 2 then Check(phase + 1) else Reap(1);
      case AboutToSuspend(phase) => pc := Suspended(phase);
      case Suspended(_) =>
      case Reap(w) =>
        if GetWorker(w).pc == Gone {
          pc := if w == 3 then ParentDone else Reap(w + 1);
        }
      case ParentDone =>
    }

    /** The kernel delivers a pending signal, when the mask allows it. */
    method DeliverSignal(sig: Signal)
      requires Valid()
      modifies this, parent
      ensures Valid() && View() == DeliverStep(old(View()), sig)
    {
      var pending := if sig == Usr1 then usr1 else usr2;
      if pc.Fork? || pc.Record? || pc == Unblock || pending.None? {
        return;
      }
      parent.SignalHandler(sig, pids[pending.value - 1]);
      if pc.Suspended? {
        pc := Check(pc.phase);
      }
      if sig == Usr1 {
        usr1 := None;
      } else {
        usr2 := None;
      }
    }

    /** kill(parent, sig): lost when the same signal is already pending. */
    method Raise(sig: Signal, w: WorkerNo)
      modifies this
      ensures View() == if sig == Usr1 then RaiseUsr1(old(View()), w) else RaiseUsr2(old(View()), w)
    {
      if sig == Usr1 {
        if usr1.None? {
          usr1 := Some(w);
        } else {
          dropped1 := dropped1 + {w};
        }
      } else if usr2.None? {
        usr2 := Some(w);
      } else {
        dropped2 := dropped2 + {w};
      }
    }

    /** One step of a worker: a sample in its read loop, its completion, or its end. */
    method WorkerTurn(a: Action)
      requires Valid() && !a.ParentTurn? && !a.Deliver?
      modifies this
      ensures Valid() && View() == Step(old(View()), a)
    {
      var x := GetWorker(a.w);
      match a
      case Sample(w, usage) =>
        if x.pc == Reading && usage > 50000 && !x.warned {
          Raise(Usr1, w);
          SetWorker(w, x.(warned := true));
        }
      case Finish(w) =>
        if x.pc == Reading {
          Raise(Usr2, w);
          SetWorker(w, x.(pc := Leaving, finished := true));
        }
      case Exit(w) =>
        if x.pc == Leaving {
          SetWorker(w, x.(pc := Gone));
        }
      case Crash(w) =>
        if x.pc == Reading {
          SetWorker(w, x.(pc := Gone));
        }
    }

    /** Executes an arbitrary interleaving of the parent, its workers and the deliveries. */
    method Execute(schedule: seq<Action>)
      requires Valid()
      modifies this, parent
      ensures Valid() && View() == Run(old(View()), schedule)
    {
      for i := 0 to |schedule|
        invariant Valid() && View() == Run(old(View()), schedule[..i])
      {
        match schedule[i] {
          case ParentTurn => MainTurn();
          case Deliver(sig) => DeliverSignal(sig);
          case _ => WorkerTurn(schedule[i]);
        }
        assert schedule[..i + 1][..i] == schedule[..i];
      }
      assert schedule[..|schedule|] == schedule;
    }
  }

  /** The programs, run from the start: the parent is done only after worker 3's warning, the
      completions of workers 1 and 2, and the end of all three. */
  method Simulate(pids: seq<int>, schedule: seq<Action>) returns (system: System)
    requires Pids(pids)
    ensures fresh(system) && system.Valid() && system.View() == Run(Init(pids), schedule)
    ensures system.pc == ParentDone ==>
      && system.w3.warned && system.w1.finished && system.w2.finished
      && system.w1.pc == Gone && system.w2.pc == Gone && system.w3.pc == Gone
  {
    system := new System(pids);
    system.Execute(schedule);
    assert Reachable(system.View());
    if system.pc == ParentDone {
      ParentDoneMeans(system.View());
    }
  }
}

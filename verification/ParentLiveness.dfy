/** Assignment1 Part4: from which states the parent can still print "Parent done". */
module ParentLiveness {
  import opened Sequences
  import opened SignalHandler
  import opened ParentSystem

  predicate MayRead(x: Worker) {
    x.pc == Unborn || x.pc == Reading
  }

  /** Worker 3's warning has been noticed, is pending, or can still be sent. */
  predicate WarningPossible(st: State) {
    st.h.warned3 || st.usr1 == Some(3) || (MayRead(st.w3) && !st.w3.warned)
  }

  /** Worker w's completion has been noticed, is pending, or can still be sent. */
  predicate CompletionPossible(st: State, w: WorkerNo) {
    DoneFlag(st.h, w) || st.usr2 == Some(w) || MayRead(st.At(w))
  }

  /** If the parent is suspended, or about to be, something can wake it. */
  predicate WakeupPossible(st: State) {
    st.pc.AboutToSuspend? || st.pc.Suspended? ==>
      st.usr1.Some? || st.usr2.Some? || st.w1.pc == Reading || st.w2.pc == Reading || st.w3.pc == Reading
  }

  predicate CanStill(st: State) {
    WarningPossible(st) && CompletionPossible(st, 1) && CompletionPossible(st, 2) && WakeupPossible(st)
  }

  /** The parent is past its waiting loops, or everything it waits for can still happen. */
  predicate CanFinish(st: State) {
    CanStill(st) || st.pc.Reap? || st.pc == ParentDone
  }

  // ------------------------------------------------------------ what a delivery does

  lemma DeliverEffect(st: State, sig: Signal)
    requires Inv(st) && !Masked(st.pc) && Pending(st, sig).Some?
    ensures var st', w := DeliverStep(st, sig), Pending(st, sig).value;
      && st'.h.warned3 == (st.h.warned3 || (sig == Usr1 && w == 3))
      && (forall o: WorkerNo :: DoneFlag(st'.h, o) == (DoneFlag(st.h, o) || (sig == Usr2 && o == w)))
      && st' == st.(h := st'.h, pc := if st.pc.Suspended? then Check(st.pc.phase) else st.pc,
                    usr1 := if sig == Usr1 then None else st.usr1, usr2 := if sig == Usr2 then None else st.usr2)
  {
    DeliveredToSender(st, sig);
  }

  // ------------------------------------------------- once impossible, always impossible

  lemma ParentStepDoomed(st: State)
    requires Inv(st) && !CanFinish(st)
    ensures !CanFinish(ParentStep(st))
  {
    if st.pc.Fork? {
      assert st.At(st.pc.next).pc == Unborn;
      ForkDoomed(st);
    }
  }

  lemma ForkDoomed(st: State)
    requires st.pc.Fork? && st.At(st.pc.next).pc == Unborn && !CanFinish(st)
    ensures !CanFinish(ParentStep(st))
  {
    var w := st.pc.next;
    var st' := ParentStep(st);
    assert forall o: WorkerNo :: MayRead(st'.At(o)) == MayRead(st.At(o)) && st'.At(o).warned == st.At(o).warned;
    assert st'.w3 == st'.At(3) && st.w3 == st.At(3);
  }

  lemma DeliverDoomed(st: State, sig: Signal)
    requires Inv(st) && !CanFinish(st)
    ensures !CanFinish(DeliverStep(st, sig))
  {
    if !Masked(st.pc) && Pending(st, sig).Some? {
      DeliverEffect(st, sig);
    }
  }

  lemma SampleDoomed(st: State, w: WorkerNo, usage: int)
    requires Inv(st) && !CanFinish(st)
    ensures !CanFinish(Step(st, Sample(w, usage)))
  {
  }

  lemma FinishDoomed(st: State, w: WorkerNo)
    requires Inv(st) && !CanFinish(st)
    ensures !CanFinish(Step(st, Finish(w)))
  {
  }

  lemma GoneDoomed(st: State, w: WorkerNo)
    requires !CanFinish(st)
    ensures !CanFinish(Step(st, Exit(w))) && !CanFinish(Step(st, Crash(w)))
  {
  }

  lemma DoomedStep(st: State, a: Action)
    requires Inv(st) && !CanFinish(st)
    ensures !CanFinish(Step(st, a))
  {
    match a
    case ParentTurn => ParentStepDoomed(st);
    case Deliver(sig) => DeliverDoomed(st, sig);
    case Sample(w, usage) => SampleDoomed(st, w, usage);
    case Finish(w) => FinishDoomed(st, w);
    case Exit(w) => GoneDoomed(st, w);
    case Crash(w) => GoneDoomed(st, w);
  }

  lemma {:induction false} DoomedForEver(st: State, schedule: seq<Action>)
    requires Inv(st) && !CanFinish(st)
    ensures Inv(Run(st, schedule)) && !CanFinish(Run(st, schedule))
  {
    if schedule != [] {
      var before := schedule[..|schedule| - 1];
      DoomedForEver(st, before);
      StepKeeps(Run(st, before), schedule[|schedule| - 1]);
      DoomedStep(Run(st, before), schedule[|schedule| - 1]);
    }
  }

  // ----------------------------------------------------- while possible, a way to the end

  function PositionRank(pc: ParentPc): nat {
    match pc
    case Fork(w) => 18 + 2 * (3 - w)
    case Record(w) => 17 + 2 * (3 - w)
    case Unblock => 16
    case Check(phase) => PhaseRank(phase)
    case AboutToSuspend(phase) => PhaseRank(phase) + 2
    case Suspended(phase) => PhaseRank(phase) + 1
    case Reap(w) => 4 - w
    case ParentDone => 0
  }

  function PhaseRank(phase: nat): nat {
    if phase == 0 then 13 else if phase == 1 then 10 else 7
  }

  function WorkerRank(x: Worker): nat {
    (match x.pc case Unborn => 6 case Reading => 4 case Leaving => 2 case Gone => 0) + (if x.warned then 0 else 2)
  }

  /** What is left to do. */
  function Measure(st: State): nat {
    PositionRank(st.pc) + WorkerRank(st.w1) + WorkerRank(st.w2) + WorkerRank(st.w3)
    + (if st.usr1.Some? then 1 else 0) + (if st.usr2.Some? then 1 else 0)
  }

  predicate Progresses(st: State, a: Action) {
    CanFinish(Step(st, a)) && Measure(Step(st, a)) < Measure(st)
  }

  lemma MaskedProgresses(st: State)
    requires Inv(st) && CanFinish(st) && (Masked(st.pc) || st.pc.AboutToSuspend?)
    ensures Progresses(st, ParentTurn)
  {
    if st.pc.Fork? {
      assert st.At(st.pc.next).pc == Unborn;
      ForkProgresses(st);
    }
  }

  lemma ForkProgresses(st: State)
    requires CanFinish(st) && st.pc.Fork? && st.At(st.pc.next).pc == Unborn
    ensures Progresses(st, ParentTurn)
  {
    if st.pc.next == 1 {
    } else if st.pc.next == 2 {
    } else {
    }
  }

  /** A pending signal can be delivered outside the masked part. */
  lemma DeliverProgresses(st: State, sig: Signal)
    requires Inv(st) && CanFinish(st) && !Masked(st.pc) && !st.pc.AboutToSuspend? && Pending(st, sig).Some?
    ensures Progresses(st, Deliver(sig))
  {
    DeliverEffect(st, sig);
  }

  /** With nothing pending, a reading worker can warn, or complete once it has warned. */
  lemma SampleProgresses(st: State, w: WorkerNo)
    requires Inv(st) && CanFinish(st) && st.usr1.None? && st.At(w).pc == Reading && !st.At(w).warned
    ensures Progresses(st, Sample(w, 50001))
  {
    if w == 1 {
    } else if w == 2 {
    } else {
    }
  }

  lemma FinishProgresses(st: State, w: WorkerNo)
    requires Inv(st) && CanFinish(st) && st.usr1.None? && st.usr2.None? && st.At(w).pc == Reading
    requires w == 3 ==> st.h.warned3
    ensures Progresses(st, Finish(w))
  {
    if w == 1 {
    } else if w == 2 {
    } else {
    }
  }

  lemma ReapProgresses(st: State, w: WorkerNo) returns (a: Action)
    requires Inv(st) && st.pc == Reap(w)
    ensures Progresses(st, a)
  {
    assert WorkerInv(st, w);
    var x := st.At(w);
    a := if x.pc == Gone then ParentTurn else if x.pc == Reading then Crash(w) else Exit(w);
    if w == 1 {
    } else if w == 2 {
    } else {
    }
  }

  lemma SuspendedProgresses(st: State) returns (a: Action)
    requires Inv(st) && CanFinish(st) && st.pc.Suspended? && st.usr1.None? && st.usr2.None?
    ensures Progresses(st, a)
  {
    var w: WorkerNo := if st.w1.pc == Reading then 1 else if st.w2.pc == Reading then 2 else 3;
    if st.At(w).warned {
      FinishProgresses(st, w);
      a := Finish(w);
    } else {
      SampleProgresses(st, w);
      a := Sample(w, 50001);
    }
  }

  lemma PassProgresses(st: State)
    requires Inv(st) && CanFinish(st) && st.pc.Check? && PhaseFlag(st.h, st.pc.phase)
    ensures Progresses(st, ParentTurn)
  {
  }

  lemma CheckProgresses(st: State) returns (a: Action)
    requires Inv(st) && CanFinish(st) && st.pc.Check? && st.usr1.None? && st.usr2.None?
    ensures Progresses(st, a)
  {
    if PhaseFlag(st.h, st.pc.phase) {
      PassProgresses(st);
      a := ParentTurn;
    } else if st.pc.phase == 0 {
      assert WorkerInv(st, 3);
      SampleProgresses(st, 3);
      a := Sample(3, 50001);
    } else {
      var w: WorkerNo := st.pc.phase;
      assert WorkerInv(st, w);
      FinishProgresses(st, w);
      a := Finish(w);
    }
  }

  lemma SomeProgress(st: State) returns (a: Action)
    requires Inv(st) && CanFinish(st) && st.pc != ParentDone
    ensures Progresses(st, a)
  {
    if Masked(st.pc) || st.pc.AboutToSuspend? {
      MaskedProgresses(st);
      a := ParentTurn;
    } else if st.pc.Reap? {
      a := ReapProgresses(st, st.pc.next);
    } else if st.usr1.Some? {
      DeliverProgresses(st, Usr1);
      a := Deliver(Usr1);
    } else if st.usr2.Some? {
      DeliverProgresses(st, Usr2);
      a := Deliver(Usr2);
    } else if st.pc.Suspended? {
      a := SuspendedProgresses(st);
    } else {
      a := CheckProgresses(st);
    }
  }

  lemma {:induction false} RunFrom(st: State, a: Action, rest: seq<Action>)
    ensures Run(st, [a] + rest) == Run(Step(st, a), rest)
  {
    var full := [a] + rest;
    if rest == [] {
      assert full[..0] == [] && full[0] == a;
      assert Run(st, full[..0]) == st;
    } else {
      var before, last := rest[..|rest| - 1], rest[|rest| - 1];
      RunFrom(st, a, before);
      assert full[..|full| - 1] == [a] + before && full[|full| - 1] == last;
    }
  }

  lemma {:induction false} FinishFrom(st: State) returns (schedule: seq<Action>)
    requires Inv(st) && CanFinish(st)
    ensures Run(st, schedule).pc == ParentDone
    decreases Measure(st)
  {
    if st.pc == ParentDone {
      return [];
    }
    var a := SomeProgress(st);
    StepKeeps(st, a);
    var rest := FinishFrom(Step(st, a));
    RunFrom(st, a, rest);
    return [a] + rest;
  }

  /** Exactly when the parent can still finish: some continuation reaches "Parent done" if and
      only if the warning of worker 3 and the completions of workers 1 and 2 have each been
      noticed, are pending or can still be sent, and a suspended parent can be woken; or the
      parent is past its waiting loops. */
  lemma FinishesIff(st: State)
    requires Reachable(st)
    ensures (exists schedule :: Run(st, schedule).pc == ParentDone) <==> CanFinish(st)
  {
    ReachableInv(st);
    if CanFinish(st) {
      var schedule := FinishFrom(st);
    } else {
      forall schedule ensures Run(st, schedule).pc != ParentDone {
        DoomedForEver(st, schedule);
      }
    }
  }

  /** A second way to fail: worker 3's only warning is dropped while worker 2's is pending.
      Nothing else has gone wrong, and the parent never finishes. */
  lemma WarningCanBeDropped(pids: seq<int>) returns (schedule: seq<Action>, st: State)
    requires Pids(pids)
    ensures st == Run(Init(pids), schedule) && st.dropped1 == {3} && st.dropped2 == {} && !Abandoned(st)
    ensures forall later :: Run(st, later).pc != ParentDone
  {
    schedule, st := StartRun(pids);
    schedule, st := Extend(Init(pids), schedule, Sample(2, 60000));
    assert st.usr1 == Some(2);
    schedule, st := Extend(Init(pids), schedule, Sample(3, 60000));
    assert !CanFinish(st);
    assert Reachable(st);
    FinishesIff(st);
  }
}

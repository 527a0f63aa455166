/** Assignment1 Part4: the parent, its three workers and the pending signals between them,
    over every interleaving. A standard signal that is raised while the same signal is
    already pending is dropped. */
module ParentSystem {
  import opened Sequences
  import opened SignalHandler

  type WorkerNo = w: int | 1 <= w <= 3 witness 1

  datatype WorkerPc = Unborn | Reading | Leaving | Gone

  /** `warned` and `finished`: SIGUSR1 and SIGUSR2 have been sent. */
  datatype Worker = Worker(pc: WorkerPc, warned: bool, finished: bool)

  /** The phases of main(): forking with the signals blocked, the three waiting loops (each
      tests its flag, then suspends), the waitpid calls. */
  datatype ParentPc =
    | Fork(next: WorkerNo) | Record(next: WorkerNo) | Unblock
    | Check(phase: nat) | AboutToSuspend(phase: nat) | Suspended(phase: nat)
    | Reap(next: WorkerNo) | ParentDone

  /** `pids` are the pids the kernel will give to the workers; `dropped1` and `dropped2` are
      histories: whose SIGUSR1 and SIGUSR2 were coalesced away. */
  datatype State = State(
    pids: seq<int>, pc: ParentPc, h: Handler, usr1: Option<WorkerNo>, usr2: Option<WorkerNo>,
    dropped1: set<WorkerNo>, dropped2: set<WorkerNo>, w1: Worker, w2: Worker, w3: Worker) {
    function At(w: WorkerNo): Worker {
      if w == 1 then w1 else if w == 2 then w2 else w3
    }

    function With(w: WorkerNo, x: Worker): State {
      if w == 1 then this.(w1 := x) else if w == 2 then this.(w2 := x) else this.(w3 := x)
    }
  }

  /** Sample: one turn of a worker's read loop, with the memory usage it reads in kB. */
  datatype Action =
    | ParentTurn
    | Deliver(sig: Signal)
    | Sample(w: WorkerNo, usage: int)
    | Finish(w: WorkerNo)
    | Exit(w: WorkerNo)
    | Crash(w: WorkerNo)

  function RaiseUsr1(st: State, w: WorkerNo): State {
    if st.usr1.None? then st.(usr1 := Some(w)) else st.(dropped1 := st.dropped1 + {w})
  }

  function RaiseUsr2(st: State, w: WorkerNo): State {
    if st.usr2.None? then st.(usr2 := Some(w)) else st.(dropped2 := st.dropped2 + {w})
  }

  /** The flag the waiting loop of a phase tests: the warning, worker 1, worker 2. */
  predicate PhaseFlag(h: Handler, phase: nat) {
    if phase == 0 then h.warned3 else if phase == 1 then h.done1 else h.done2
  }

  function ParentStep(st: State): State {
    match st.pc
    case Fork(w) => st.With(w, st.At(w).(pc := Reading)).(pc := Record(w))
    case Record(w) =>
      st.(h := st.h.(pids := if |st.h.pids| == 3 == |st.pids| then st.h.pids[w - 1 := st.pids[w - 1]] else st.h.pids),
          pc := if w == 3 then Unblock else Fork(w + 1))
    case Unblock => st.(pc := Check(0))
    case Check(phase) =>
      st.(pc := if !PhaseFlag(st.h, phase) then AboutToSuspend(phase) else if phase < 2 then Check(phase + 1) else Reap(1))
    case AboutToSuspend(phase) => st.(pc := Suspended(phase))
    case Suspended(_) => st
    case Reap(w) => if st.At(w).pc == Gone then st.(pc := if w == 3 then ParentDone else Reap(w + 1)) else st
    case ParentDone => st
  }

  predicate Masked(pc: ParentPc) {
    pc.Fork? || pc.Record? || pc == Unblock
  }

  /** The handler runs for a pending signal; a suspended parent then tests its flag again. */
  function DeliverStep(st: State, sig: Signal): State {
    var pending := if sig == Usr1 then st.usr1 else st.usr2;
    if Masked(st.pc) || pending.None? || |st.pids| != 3 then st
    else
      var st' := st.(h := Handle(st.h, sig, st.pids[pending.value - 1]),
                     pc := if st.pc.Suspended? then Check(st.pc.phase) else st.pc);
      if sig == Usr1 then st'.(usr1 := None) else st'.(usr2 := None)
  }

  function Step(st: State, a: Action): State {
    match a
    case ParentTurn => ParentStep(st)
    case Deliver(sig) => DeliverStep(st, sig)
    case Sample(w, usage) =>
      var x := st.At(w);
      if x.pc == Reading && usage > 50000 && !x.warned then RaiseUsr1(st, w).With(w, x.(warned := true)) else st
    case Finish(w) =>
      var x := st.At(w);
      if x.pc == Reading then RaiseUsr2(st, w).With(w, x.(pc := Leaving, finished := true)) else st
    case Exit(w) => if st.At(w).pc == Leaving then st.With(w, st.At(w).(pc := Gone)) else st
    case Crash(w) => if st.At(w).pc == Reading then st.With(w, st.At(w).(pc := Gone)) else st
  }

  function Run(st: State, schedule: seq<Action>): State {
    if schedule == [] then st else Step(Run(st, schedule[..|schedule| - 1]), schedule[|schedule| - 1])
  }

  function Init(pids: seq<int>): State {
    State(pids, Fork(1), Fresh([0, 0, 0]), None, None, {}, {},
          Worker(Unborn, false, false), Worker(Unborn, false, false), Worker(Unborn, false, false))
  }

  /** Process ids are positive and distinct. */
  predicate Pids(pids: seq<int>) {
    && |pids| == 3
    && (forall i | 0 <= i < 3 :: pids[i] > 0)
    && forall i, j | 0 <= i < j < 3 :: pids[i] != pids[j]
  }

  ghost predicate Reachable(st: State) {
    exists schedule :: Pids(st.pids) && st == Run(Init(st.pids), schedule)
  }

  // -------------------------------------------------------------------- invariant

  predicate DoneFlag(h: Handler, w: WorkerNo) {
    if w == 1 then h.done1 else if w == 2 then h.done2 else h.done3
  }

  /** How many workers the parent has forked, and whose pids it has recorded. */
  function Forked(pc: ParentPc): int {
    if pc.Fork? then pc.next - 1 else if pc.Record? then pc.next else 3
  }

  function Recorded(pc: ParentPc): int {
    if pc.Fork? then pc.next - 1 else if pc.Record? then pc.next - 1 else 3
  }

  predicate PidsInv(st: State) {
    && Pids(st.pids) && |st.h.pids| == 3
    && (forall i | 0 <= i < 3 :: st.h.pids[i] == if i < Recorded(st.pc) then st.pids[i] else 0)
    && (st.pc.Check? ==> st.pc.phase <= 2)
    && (st.pc.AboutToSuspend? ==> st.pc.phase <= 2)
    && (st.pc.Suspended? ==> st.pc.phase <= 2)
  }

  /** Where the SIGUSR2 of worker w is: not sent yet, pending, handled, or dropped; exactly
      one of these. The same for worker 3's SIGUSR1. */
  predicate WorkerInv(st: State, w: WorkerNo) {
    var x := st.At(w);
    && (x.pc == Unborn <==> w > Forked(st.pc))
    && (x.pc == Unborn || x.pc == Reading ==> !x.finished)
    && (x.pc == Leaving ==> x.finished)
    && (x.pc == Unborn ==> !x.warned)
    && One(!x.finished) + One(st.usr2 == Some(w)) + One(DoneFlag(st.h, w)) + One(w in st.dropped2) == 1
    && (w == 3 ==> One(!x.warned) + One(st.usr1 == Some(3)) + One(st.h.warned3) + One(3 in st.dropped1) == 1)
    && (st.usr1 == Some(w) ==> x.warned)
  }

  function One(b: bool): int {
    if b then 1 else 0
  }

  /** What the parent's position says about the flags and the workers. */
  predicate PhaseInv(st: State) {
    && (st.pc.Check? && st.pc.phase >= 1 ==> st.h.warned3)
    && (st.pc.AboutToSuspend? && st.pc.phase >= 1 ==> st.h.warned3)
    && (st.pc.Suspended? && st.pc.phase >= 1 ==> st.h.warned3)
    && (st.pc.Check? && st.pc.phase >= 2 ==> st.h.done1)
    && (st.pc.AboutToSuspend? && st.pc.phase >= 2 ==> st.h.done1)
    && (st.pc.Suspended? && st.pc.phase >= 2 ==> st.h.done1)
    && (st.pc.Reap? || st.pc == ParentDone ==> st.h.warned3 && st.h.done1 && st.h.done2)
    && (st.pc.Reap? && st.pc.next >= 2 ==> st.w1.pc == Gone)
    && (st.pc.Reap? && st.pc.next >= 3 ==> st.w2.pc == Gone)
    && (st.pc == ParentDone ==> st.w1.pc == Gone && st.w2.pc == Gone && st.w3.pc == Gone)
  }

  ghost predicate Inv(st: State) {
    PidsInv(st) && PhaseInv(st) && WorkerInv(st, 1) && WorkerInv(st, 2) && WorkerInv(st, 3)
  }

  lemma ForkKeeps(st: State)
    requires Inv(st) && st.pc.Fork?
    ensures Inv(ParentStep(st))
  {
    if st.pc.next == 1 {
    } else if st.pc.next == 2 {
    } else {
    }
  }

  lemma RecordKeeps(st: State)
    requires Inv(st) && st.pc.Record?
    ensures Inv(ParentStep(st))
  {
  }

  /** Once forking is over the parent only reads flags and workers. */
  lemma WaitKeepsPhase(st: State)
    requires PidsInv(st) && PhaseInv(st) && !st.pc.Fork? && !st.pc.Record?
    ensures PidsInv(ParentStep(st)) && PhaseInv(ParentStep(st))
    ensures Forked(ParentStep(st).pc) == 3 && ParentStep(st) == st.(pc := ParentStep(st).pc)
  {
  }

  lemma PositionFrame(st: State, pc: ParentPc, o: WorkerNo)
    requires WorkerInv(st, o) && Forked(st.pc) == Forked(pc)
    ensures WorkerInv(st.(pc := pc), o)
  {
    assert st.(pc := pc).At(o) == st.At(o);
  }

  lemma WaitKeeps(st: State)
    requires Inv(st) && !st.pc.Fork? && !st.pc.Record?
    ensures Inv(ParentStep(st))
  {
    WaitKeepsPhase(st);
    var pc := ParentStep(st).pc;
    PositionFrame(st, pc, 1);
    PositionFrame(st, pc, 2);
    PositionFrame(st, pc, 3);
  }

  lemma ParentKeeps(st: State)
    requires Inv(st)
    ensures Inv(ParentStep(st))
  {
    if st.pc.Fork? {
      ForkKeeps(st);
    } else if st.pc.Record? {
      RecordKeeps(st);
    } else {
      WaitKeeps(st);
    }
  }

  function Pending(st: State, sig: Signal): Option<WorkerNo> {
    if sig == Usr1 then st.usr1 else st.usr2
  }

  /** A delivered signal is always attributed to its sender: no handler runs before all pids
      have been recorded. */
  lemma DeliveredToSender(st: State, sig: Signal)
    requires PidsInv(st) && !Masked(st.pc) && Pending(st, sig).Some?
    ensures FindWorker(st.h.pids, st.pids[Pending(st, sig).value - 1]) == (Pending(st, sig).value - 1) as int
  {
    assert st.h.pids == st.pids;
    ReportsTheSender(st.pids, Pending(st, sig).value);
  }

  lemma Usr1Keeps(st: State)
    requires Inv(st) && !Masked(st.pc) && st.usr1.Some?
    ensures Inv(DeliverStep(st, Usr1))
  {
    DeliveredToSender(st, Usr1);
    var h' := Handle(st.h, Usr1, st.pids[st.usr1.value - 1]);
    assert h' == st.h.(warned3 := h'.warned3, log := h'.log);
    assert h'.warned3 == (st.h.warned3 || st.usr1.value == 3);
  }

  lemma Usr2Keeps(st: State)
    requires Inv(st) && !Masked(st.pc) && st.usr2.Some?
    ensures Inv(DeliverStep(st, Usr2))
  {
    DeliveredToSender(st, Usr2);
    var w := st.usr2.value;
    var h' := Handle(st.h, Usr2, st.pids[w - 1]);
    assert h'.pids == st.h.pids && h'.warned3 == st.h.warned3;
    assert h'.done1 == (st.h.done1 || w == 1) && h'.done2 == (st.h.done2 || w == 2) && h'.done3 == (st.h.done3 || w == 3);
  }

  lemma DeliverKeeps(st: State, sig: Signal)
    requires Inv(st)
    ensures Inv(DeliverStep(st, sig))
  {
    if !Masked(st.pc) && Pending(st, sig).Some? {
      match sig
      case Usr1 => Usr1Keeps(st);
      case Usr2 => Usr2Keeps(st);
    }
  }

  /** A worker's step does not disturb what the parent's position says. */
  lemma PhaseFrame(st: State, st': State)
    requires PidsInv(st) && PhaseInv(st)
    requires st'.pc == st.pc && st'.h == st.h && st'.pids == st.pids
    requires st.w1.pc == Gone ==> st'.w1.pc == Gone
    requires st.w2.pc == Gone ==> st'.w2.pc == Gone
    requires st.w3.pc == Gone ==> st'.w3.pc == Gone
    ensures PidsInv(st') && PhaseInv(st')
  {
  }

  lemma WorkerFrame(st: State, st': State, o: WorkerNo)
    requires WorkerInv(st, o) && st'.At(o) == st.At(o) && st'.pc == st.pc && st'.h == st.h
    requires (st'.usr1 == Some(o)) == (st.usr1 == Some(o)) && (o in st'.dropped1) == (o in st.dropped1)
    requires (st'.usr2 == Some(o)) == (st.usr2 == Some(o)) && (o in st'.dropped2) == (o in st.dropped2)
    ensures WorkerInv(st', o)
  {
  }

  /** A worker raises a signal or ends: its own account changes, nobody else's does. */
  lemma WorkerStepKeeps(st: State, st': State, w: WorkerNo)
    requires Inv(st) && WorkerInv(st', w)
    requires st'.pc == st.pc && st'.h == st.h && st'.pids == st.pids
    requires st.At(w).pc != Gone
    requires forall o: WorkerNo | o != w ::
      && st'.At(o) == st.At(o)
      && (st'.usr1 == Some(o)) == (st.usr1 == Some(o)) && (o in st'.dropped1) == (o in st.dropped1)
      && (st'.usr2 == Some(o)) == (st.usr2 == Some(o)) && (o in st'.dropped2) == (o in st.dropped2)
    ensures Inv(st')
  {
    assert w != 1 ==> st'.At(1) == st.At(1);
    assert w != 2 ==> st'.At(2) == st.At(2);
    assert w != 3 ==> st'.At(3) == st.At(3);
    PhaseFrame(st, st');
    if w != 1 { WorkerFrame(st, st', 1); }
    if w != 2 { WorkerFrame(st, st', 2); }
    if w != 3 { WorkerFrame(st, st', 3); }
  }

  lemma OwnAccount(st: State, w: WorkerNo)
    requires Inv(st)
    ensures WorkerInv(st, w)
  {
  }

  lemma SampleKeeps(st: State, w: WorkerNo)
    requires Inv(st) && st.At(w).pc == Reading && !st.At(w).warned
    ensures Inv(RaiseUsr1(st, w).With(w, st.At(w).(warned := true)))
  {
    var st' := RaiseUsr1(st, w).With(w, st.At(w).(warned := true));
    OwnAccount(st, w);
    assert st'.At(w) == st.At(w).(warned := true);
    WorkerStepKeeps(st, st', w);
  }

  lemma FinishKeeps(st: State, w: WorkerNo)
    requires Inv(st) && st.At(w).pc == Reading
    ensures Inv(RaiseUsr2(st, w).With(w, st.At(w).(pc := Leaving, finished := true)))
  {
    var st' := RaiseUsr2(st, w).With(w, st.At(w).(pc := Leaving, finished := true));
    OwnAccount(st, w);
    assert st'.At(w) == st.At(w).(pc := Leaving, finished := true);
    WorkerStepKeeps(st, st', w);
  }

  lemma GoneKeeps(st: State, w: WorkerNo)
    requires Inv(st) && (st.At(w).pc == Reading || st.At(w).pc == Leaving)
    ensures Inv(st.With(w, st.At(w).(pc := Gone)))
  {
    var st' := st.With(w, st.At(w).(pc := Gone));
    OwnAccount(st, w);
    assert st'.At(w) == st.At(w).(pc := Gone);
    WorkerStepKeeps(st, st', w);
  }

  lemma StepKeeps(st: State, a: Action)
    requires Inv(st)
    ensures Inv(Step(st, a))
  {
    match a
    case ParentTurn => ParentKeeps(st);
    case Deliver(sig) => DeliverKeeps(st, sig);
    case Sample(w, usage) => if st.At(w).pc == Reading && !st.At(w).warned { SampleKeeps(st, w); }
    case Finish(w) => if st.At(w).pc == Reading { FinishKeeps(st, w); }
    case Exit(w) => if st.At(w).pc == Leaving { GoneKeeps(st, w); }
    case Crash(w) => if st.At(w).pc == Reading { GoneKeeps(st, w); }
  }

  lemma {:induction false} RunKeeps(st: State, schedule: seq<Action>)
    requires Inv(st)
    ensures Inv(Run(st, schedule))
  {
    if schedule != [] {
      RunKeeps(st, schedule[..|schedule| - 1]);
      StepKeeps(Run(st, schedule[..|schedule| - 1]), schedule[|schedule| - 1]);
    }
  }

  lemma ReachableInv(st: State)
    requires Reachable(st)
    ensures Inv(st)
  {
    var schedule :| Pids(st.pids) && st == Run(Init(st.pids), schedule);
    RunKeeps(Init(st.pids), schedule);
  }

  // ----------------------------------------------------------------- main results

  /** A flag is only ever set by the signal it stands for: the worker really sent it. */
  lemma FlagMeansSent(st: State, w: WorkerNo)
    requires Reachable(st)
    ensures DoneFlag(st.h, w) ==> st.At(w).finished
    ensures st.h.warned3 ==> st.w3.warned
  {
    ReachableInv(st);
    assert WorkerInv(st, w) && WorkerInv(st, 3);
  }

  /** What becomes of a completion: once sent it is in exactly one place: pending, noticed,
      or dropped because another worker's completion was pending. */
  lemma CompletionAccounted(st: State, w: WorkerNo)
    requires Reachable(st)
    ensures st.At(w).finished <==> st.usr2 == Some(w) || DoneFlag(st.h, w) || w in st.dropped2
    ensures !(st.usr2 == Some(w) && DoneFlag(st.h, w))
    ensures w in st.dropped2 ==> st.usr2 != Some(w) && !DoneFlag(st.h, w)
  {
    ReachableInv(st);
    assert WorkerInv(st, w);
  }

  /** "Parent done" is printed only after worker 3's warning, the completions of workers 1 and
      2, and the termination of all three. */
  lemma ParentDoneMeans(st: State)
    requires Reachable(st) && st.pc == ParentDone
    ensures st.w3.warned && st.w1.finished && st.w2.finished
    ensures st.w1.pc == Gone && st.w2.pc == Gone && st.w3.pc == Gone
  {
    ReachableInv(st);
    assert WorkerInv(st, 1) && WorkerInv(st, 2) && WorkerInv(st, 3);
  }

  /** A warning is only ever sent because the worker saw a usage above 50000 kB. */
  lemma {:induction false} WarningMeansHighUsage(pids: seq<int>, schedule: seq<Action>, w: WorkerNo)
    requires Run(Init(pids), schedule).At(w).warned
    ensures exists usage :: Sample(w, usage) in schedule && usage > 50000
  {
    var before, last := schedule[..|schedule| - 1], schedule[|schedule| - 1];
    if Run(Init(pids), before).At(w).warned {
      WarningMeansHighUsage(pids, before, w);
      var usage :| Sample(w, usage) in before && usage > 50000;
      assert Sample(w, usage) in schedule;
    } else {
      WarnedBy(Run(Init(pids), before), last, w);
      assert last in schedule;
    }
  }

  /** ... and is sent as soon as it sees one. */
  lemma HighUsageWarns(st: State, w: WorkerNo, usage: int)
    requires st.At(w).pc == Reading && !st.At(w).warned
    ensures Step(st, Sample(w, usage)).At(w).warned <==> usage > 50000
    ensures usage > 50000 && st.usr1.None? ==> Step(st, Sample(w, usage)).usr1 == Some(w)
    ensures usage > 50000 && st.usr1.Some? ==>
      Step(st, Sample(w, usage)).usr1 == st.usr1 && w in Step(st, Sample(w, usage)).dropped1
  {
  }

  lemma WarnedBy(st: State, a: Action, w: WorkerNo)
    requires !st.At(w).warned && Step(st, a).At(w).warned
    ensures a.Sample? && a.w == w && a.usage > 50000
  {
  }

  /** A dropped completion is never made up for: a worker sends it only once, so the parent
      never gets past the loop that waits for it, whatever happens next. */
  lemma DroppedForEver(st: State, w: WorkerNo, schedule: seq<Action>)
    requires Reachable(st) && w in st.dropped2
    ensures !DoneFlag(Run(st, schedule).h, w)
    ensures w != 3 ==> !Run(st, schedule).pc.Reap? && Run(st, schedule).pc != ParentDone
  {
    ReachableInv(st);
    RunKeeps(st, schedule);
    DroppedStays(st, w, schedule);
    assert WorkerInv(Run(st, schedule), w);
  }

  lemma {:induction false} DroppedStays(st: State, w: WorkerNo, schedule: seq<Action>)
    requires w in st.dropped2
    ensures w in Run(st, schedule).dropped2
  {
    if schedule != [] {
      DroppedStays(st, w, schedule[..|schedule| - 1]);
    }
  }

  /** Nobody is left who could wake the suspended parent. */
  predicate Abandoned(st: State) {
    st.pc.Suspended? && st.usr1.None? && st.usr2.None?
    && (forall w: WorkerNo :: st.At(w).pc == Leaving || st.At(w).pc == Gone)
  }

  lemma {:induction false} AbandonedForEver(st: State, schedule: seq<Action>)
    requires Abandoned(st)
    ensures Abandoned(Run(st, schedule)) && Run(st, schedule).h == st.h && Run(st, schedule).pc == st.pc
  {
    if schedule != [] {
      var mid := Run(st, schedule[..|schedule| - 1]);
      AbandonedForEver(st, schedule[..|schedule| - 1]);
      AbandonedStep(mid, schedule[|schedule| - 1]);
    }
  }

  lemma AbandonedStep(st: State, a: Action)
    requires Abandoned(st)
    ensures Abandoned(Step(st, a)) && Step(st, a).h == st.h && Step(st, a).pc == st.pc
  {
    forall w: WorkerNo ensures Step(st, a).At(w).pc == Leaving || Step(st, a).At(w).pc == Gone {
      assert st.At(w).pc == Leaving || st.At(w).pc == Gone;
    }
  }

  /** Being abandoned is the only way to sleep for ever: in any other suspended state some
      continuation wakes the parent. */
  lemma WakesIffNotAbandoned(st: State)
    requires Reachable(st) && st.pc.Suspended?
    ensures (exists schedule :: Run(st, schedule).pc != st.pc) <==> !Abandoned(st)
  {
    if Abandoned(st) {
      forall schedule ensures Run(st, schedule).pc == st.pc {
        AbandonedForEver(st, schedule);
      }
    } else {
      var schedule := Wakeup(st);
    }
  }

  /** A pending signal wakes the suspended parent. */
  lemma DeliverWakes(st: State, sig: Signal)
    requires Inv(st) && st.pc.Suspended? && Pending(st, sig).Some?
    ensures DeliverStep(st, sig).pc == Check(st.pc.phase)
  {
  }

  /** With nothing pending and not everybody leaving, some worker still reads. */
  lemma SomeReader(st: State) returns (w: WorkerNo)
    requires Inv(st) && st.pc.Suspended? && st.usr1.None? && st.usr2.None? && !Abandoned(st)
    ensures st.At(w).pc == Reading
  {
    assert st.At(1) == st.w1 && st.At(2) == st.w2 && st.At(3) == st.w3;
    w := if st.w1.pc == Reading then 1 else if st.w2.pc == Reading then 2 else 3;
  }

  lemma CompletionIsRaised(st: State, w: WorkerNo)
    requires st.At(w).pc == Reading && st.usr2.None?
    ensures Step(st, Finish(w)).usr2 == Some(w) && Step(st, Finish(w)).pc == st.pc
  {
  }

  lemma Wakeup(st: State) returns (schedule: seq<Action>)
    requires Reachable(st) && st.pc.Suspended? && !Abandoned(st)
    ensures Run(st, schedule).pc != st.pc
  {
    ReachableInv(st);
    var next: State;
    if st.usr1.Some? {
      DeliverWakes(st, Usr1);
      schedule, next := Extend(st, [], Deliver(Usr1));
    } else if st.usr2.Some? {
      DeliverWakes(st, Usr2);
      schedule, next := Extend(st, [], Deliver(Usr2));
    } else {
      var w := SomeReader(st);
      CompletionIsRaised(st, w);
      StepKeeps(st, Finish(w));
      DeliverWakes(Step(st, Finish(w)), Usr2);
      schedule, next := Extend(st, [], Finish(w));
      schedule, next := Extend(st, schedule, Deliver(Usr2));
    }
  }

  lemma Extend(st: State, schedule: seq<Action>, a: Action) returns (longer: seq<Action>, next: State)
    ensures longer == schedule + [a] && next == Step(Run(st, schedule), a) && next == Run(st, longer)
  {
    longer, next := schedule + [a], Step(Run(st, schedule), a);
    assert longer[..|schedule|] == schedule;
  }

  /** Forking and unblocking, with three reading workers at the end. */
  lemma StartRun(pids: seq<int>) returns (schedule: seq<Action>, st: State)
    requires Pids(pids)
    ensures st == Run(Init(pids), schedule)
    ensures st == Init(pids).(pc := Check(0), h := Fresh(pids),
      w1 := Worker(Reading, false, false), w2 := Worker(Reading, false, false), w3 := Worker(Reading, false, false))
  {
    schedule, st := Extend(Init(pids), [], ParentTurn);
    schedule, st := Extend(Init(pids), schedule, ParentTurn);
    schedule, st := Extend(Init(pids), schedule, ParentTurn);
    schedule, st := Extend(Init(pids), schedule, ParentTurn);
    schedule, st := Extend(Init(pids), schedule, ParentTurn);
    schedule, st := Extend(Init(pids), schedule, ParentTurn);
    assert st.h.pids == pids;
    schedule, st := Extend(Init(pids), schedule, ParentTurn);
  }

  /** Worker w completes and its signal is handled at once. */
  lemma CompleteRun(init: State, before: seq<Action>, w: WorkerNo) returns (schedule: seq<Action>, st: State)
    requires Run(init, before).At(w).pc == Reading && Run(init, before).usr2.None?
    requires !Masked(Run(init, before).pc) && !Run(init, before).pc.Suspended?
    requires Pids(Run(init, before).pids) && Run(init, before).h.pids == Run(init, before).pids
    ensures var was := Run(init, before);
      st == Run(init, schedule) && st == was.With(w, was.At(w).(pc := Leaving, finished := true)).(
        h := Handle(was.h, Usr2, was.pids[w - 1]))
  {
    var was := Run(init, before);
    schedule, st := Extend(init, before, Finish(w));
    assert st == was.(usr2 := Some(w)).With(w, was.At(w).(pc := Leaving, finished := true));
    schedule, st := Extend(init, schedule, Deliver(Usr2));
  }

  /** What the handler makes of a completion that is not yet known. */
  lemma HandleCompletion(h: Handler, w: WorkerNo)
    requires Pids(h.pids) && !DoneFlag(h, w)
    ensures var log := h.log + [Completed(w)];
      Handle(h, Usr2, h.pids[w - 1]) ==
        if w == 1 then h.(done1 := true, log := log) else if w == 2 then h.(done2 := true, log := log) else h.(done3 := true, log := log)
  {
    ReportsTheSender(h.pids, w);
  }

  /** Worker 3 warns, and the parent notices. */
  lemma NoticedRun(pids: seq<int>) returns (schedule: seq<Action>, st: State)
    requires Pids(pids)
    ensures st == Run(Init(pids), schedule)
    ensures st == Init(pids).(pc := Check(0), h := Fresh(pids).(warned3 := true, log := [MemoryWarning]),
      w1 := Worker(Reading, false, false), w2 := Worker(Reading, false, false), w3 := Worker(Reading, true, false))
  {
    ReportsTheSender(pids, 3);
    schedule, st := StartRun(pids);
    schedule, st := Extend(Init(pids), schedule, Sample(3, 60000));
    assert st.usr1 == Some(3);
    schedule, st := Extend(Init(pids), schedule, Deliver(Usr1));
    assert st.h == Fresh(pids).(warned3 := true, log := [MemoryWarning]);
  }

  /** Worker 3 completes as well. */
  lemma CompletedRun(pids: seq<int>) returns (schedule: seq<Action>, st: State)
    requires Pids(pids)
    ensures st == Run(Init(pids), schedule)
    ensures st == Init(pids).(pc := Check(0),
      h := Fresh(pids).(warned3 := true, done3 := true, log := [MemoryWarning, Completed(3)]),
      w1 := Worker(Reading, false, false), w2 := Worker(Reading, false, false), w3 := Worker(Leaving, true, true))
  {
    schedule, st := NoticedRun(pids);
    ghost var was := st;
    HandleCompletion(was.h, 3);
    schedule, st := CompleteRun(Init(pids), schedule, 3);
    assert was.h.pids == pids == was.pids;
    assert st.h == was.h.(done3 := true, log := was.h.log + [Completed(3)]);
    assert was.h.log + [Completed(3)] == [MemoryWarning, Completed(3)];
  }

  /** The parent is about to wait for worker 1. */
  lemma WarnedRun(pids: seq<int>) returns (schedule: seq<Action>, st: State)
    requires Pids(pids)
    ensures st == Run(Init(pids), schedule)
    ensures st == Init(pids).(pc := Check(1),
      h := Fresh(pids).(warned3 := true, done3 := true, log := [MemoryWarning, Completed(3)]),
      w1 := Worker(Reading, false, false), w2 := Worker(Reading, false, false), w3 := Worker(Leaving, true, true))
  {
    schedule, st := CompletedRun(pids);
    schedule, st := Extend(Init(pids), schedule, ParentTurn);
  }

  /** Worker 1 completes; the parent has found worker 2's flag clear. */
  lemma UnluckyRun(pids: seq<int>) returns (schedule: seq<Action>, st: State)
    requires Pids(pids)
    ensures st == Run(Init(pids), schedule)
    ensures st == Init(pids).(pc := AboutToSuspend(2),
      h := Fresh(pids).(warned3 := true, done3 := true, done1 := true, log := [MemoryWarning, Completed(3), Completed(1)]),
      w1 := Worker(Leaving, false, true), w2 := Worker(Reading, false, false), w3 := Worker(Leaving, true, true))
  {
    schedule, st := WarnedRun(pids);
    HandleCompletion(st.h, 1);
    schedule, st := CompleteRun(Init(pids), schedule, 1);
    assert st.h.log == [MemoryWarning, Completed(3), Completed(1)];
    schedule, st := Extend(Init(pids), schedule, ParentTurn);
    schedule, st := Extend(Init(pids), schedule, ParentTurn);
  }

  /** The wait is not safe against a signal that arrives between the test of a flag and
      sigsuspend: everything the parent waits for has happened, and it sleeps for ever. */
  lemma WakeupCanBeLost(pids: seq<int>) returns (schedule: seq<Action>, st: State)
    requires Pids(pids)
    ensures st == Run(Init(pids), schedule) && Abandoned(st)
    ensures st.pc == Suspended(2) && st.h.warned3 && st.h.done1 && st.h.done2 && st.dropped2 == {}
  {
    schedule, st := UnluckyRun(pids);
    HandleCompletion(st.h, 2);
    schedule, st := CompleteRun(Init(pids), schedule, 2);
    schedule, st := Extend(Init(pids), schedule, ParentTurn);
  }
}

/** Lab10 under SIGINT at the one place the token ring's theorems exclude: inside sem_wait on
    the mutex. The handler is installed without SA_RESTART, so sem_wait returns with an error
    that the programs do not look at. */
module TokenRingInterrupt {
  import opened TokenRing
  import opened TokenRingProof
  import opened TokenRingTheorems

  /** The wait ends without the mutex, and the client goes on into the critical section. */
  function InterruptedWait(st: State, no: ClientNo): State {
    st.With(no, st.At(no).(pc := Test, running := false))
  }

  /** The account of the mutex after an interrupted wait: one unit too many. */
  lemma OneTooMany(n: nat, st: State, no: ClientNo)
    requires Reachable(n, st) && st.At(no).pc == WaitMutex
    ensures ProgramsInv(n, InterruptedWait(st, no)) && SemaphoresWith(InterruptedWait(st, no), 1)
    ensures st.shared.mutex == 0 <==> Inside(InterruptedWait(st, no)) == 2
  {
    ReachableInv(n, st);
    var c' := st.At(no).(pc := Test, running := false);
    assert InCritical(c') && ProgramInv(n, c');
    if no == 1 {
    } else if no == 2 {
    } else {
    }
  }

  lemma {:induction false} AccountKept(n: nat, st: State, extra: nat, schedule: seq<Action>)
    requires ProgramsInv(n, st) && SemaphoresWith(st, extra)
    ensures ProgramsInv(n, Run(n, st, schedule)) && SemaphoresWith(Run(n, st, schedule), extra)
  {
    if schedule != [] {
      var before := schedule[..|schedule| - 1];
      AccountKept(n, st, extra, before);
      ProgramsKept(n, Run(n, st, before), extra, schedule[|schedule| - 1]);
    }
  }

  /** It stays one too high, however the run goes on. */
  lemma StaysTooHigh(n: nat, st: State, no: ClientNo, schedule: seq<Action>)
    requires Reachable(n, st) && st.At(no).pc == WaitMutex
    ensures var later := Run(n, InterruptedWait(st, no), schedule); later.shared.mutex + Inside(later) == 2
  {
    OneTooMany(n, st, no);
    AccountKept(n, InterruptedWait(st, no), 1, schedule);
  }

  // ------------------------------------------------------- who can still get inside

  /** Can the client still get into its critical section? It is there, waits for the mutex, or
      is running with iterations left; before the loop it must also find what it has to open. */
  predicate CanEnter(n: nat, c: Client, s: Shared) {
    match c.pc
    case OpenMutex(_) => c.running && c.i < n && s.mutexNamed && s.startNamed && s.memoryNamed
    case OpenStart(_) => c.running && c.i < n && s.startNamed && s.memoryNamed
    case WaitStart => c.running && c.i < n && s.memoryNamed
    case Attach => c.running && c.i < n && s.memoryNamed
    case LoopHead => c.running && c.i < n
    case WaitMutex => true
    case Done => false
    case FailedToOpen => false
    case FailedToAttach => false
    case _ => InCritical(c) || (c.running && c.i < n)
  }

  predicate Creating(c: Client) {
    c.pc.CreateMutex? || c.pc.CreateStart? || c.pc.CreateMemory?
  }

  /** Inside or on the way out, and not coming back. */
  predicate Leaving(c: Client) {
    !c.running && (InCritical(c) || c.pc == LoopHead || c.pc == Done)
  }

  predicate FewerNames(s: Shared, s': Shared) {
    && (s'.mutexNamed ==> s.mutexNamed) && (s'.startNamed ==> s.startNamed) && (s'.memoryNamed ==> s.memoryNamed)
  }

  lemma BarredTurn(n: nat, c: Client, s: Shared)
    requires !CanEnter(n, c, s) && !Creating(c)
    ensures var (c', s') := TurnOf(n, c, s); !CanEnter(n, c', s') && !Creating(c') && FewerNames(s, s')
  {
    if StartingUp(c) {
      BarredStart(n, c, s);
    } else {
      BarredEntry(n, c, s);
    }
  }

  lemma BarredStart(n: nat, c: Client, s: Shared)
    requires StartingUp(c) && !CanEnter(n, c, s) && !Creating(c)
    ensures var (c', s') := CreateStep(c, s); !CanEnter(n, c', s') && !Creating(c') && FewerNames(s, s')
  {
  }

  lemma BarredEntry(n: nat, c: Client, s: Shared)
    requires !StartingUp(c) && !InCritical(c) && !CanEnter(n, c, s)
    ensures var (c', s') := EnterStep(n, c, s); !CanEnter(n, c', s') && !Creating(c') && FewerNames(s, s')
  {
  }

  lemma LeavingTurn(n: nat, c: Client, s: Shared)
    requires Leaving(c)
    ensures var (c', s') := TurnOf(n, c, s); Leaving(c') && FewerNames(s, s')
  {
  }

  lemma BarredFrame(n: nat, c: Client, s: Shared, s': Shared)
    requires !CanEnter(n, c, s) && FewerNames(s, s')
    ensures !CanEnter(n, c, s') && !CanEnter(n, Interrupted(c), s')
  {
  }

  /** Client `no` is leaving, and nobody else can get inside any more. */
  predicate Barred(n: nat, st: State, no: ClientNo) {
    && Leaving(st.At(no))
    && forall o: ClientNo | o != no :: !CanEnter(n, st.At(o), st.shared) && !Creating(st.At(o))
  }

  lemma BarredAssemble(n: nat, st: State, no: ClientNo, x: ClientNo, c': Client, s': Shared)
    requires Barred(n, st, no) && FewerNames(st.shared, s')
    requires if x == no then Leaving(c') else !CanEnter(n, c', s') && !Creating(c')
    ensures Barred(n, st.(shared := s').With(x, c'), no)
  {
    var st' := st.(shared := s').With(x, c');
    assert st'.At(no) == if x == no then c' else st.At(no);
    forall o: ClientNo | o != no ensures !CanEnter(n, st'.At(o), s') && !Creating(st'.At(o)) {
      assert st'.At(o) == if x == o then c' else st.At(o);
      BarredFrame(n, st.At(o), st.shared, s');
    }
  }

  lemma BarredStep(n: nat, st: State, no: ClientNo, a: Action)
    requires Barred(n, st, no)
    ensures Barred(n, Step(n, st, a), no)
  {
    match a
    case Turn(x) =>
      var (c', s') := TurnOf(n, st.At(x), st.shared);
      if x == no {
        LeavingTurn(n, st.At(x), st.shared);
      } else {
        BarredTurn(n, st.At(x), st.shared);
      }
      BarredAssemble(n, st, no, x, c', s');
    case Interrupt(x) =>
      if x != no {
        BarredFrame(n, st.At(x), st.shared, st.shared);
      }
      assert st.(shared := st.shared) == st;
      BarredAssemble(n, st, no, x, Interrupted(st.At(x)), st.shared);
  }

  lemma {:induction false} BarredForEver(n: nat, st: State, no: ClientNo, schedule: seq<Action>)
    requires Barred(n, st, no)
    ensures Inside(Run(n, st, schedule)) <= 1 && Barred(n, Run(n, st, schedule), no)
  {
    if schedule != [] {
      var before := schedule[..|schedule| - 1];
      BarredForEver(n, st, no, before);
      BarredStep(n, Run(n, st, before), no, schedule[|schedule| - 1]);
    }
    AtMostTheLeaver(n, Run(n, st, schedule), no);
  }

  lemma AtMostTheLeaver(n: nat, st: State, no: ClientNo)
    requires Barred(n, st, no)
    ensures Inside(st) <= 1
  {
    forall o: ClientNo | o != no ensures !InCritical(st.At(o)) {
      assert !CanEnter(n, st.At(o), st.shared);
    }
    assert no != 1 ==> !InCritical(st.At(1));
    assert no != 2 ==> !InCritical(st.At(2));
    assert no != 3 ==> !InCritical(st.At(3));
  }

  lemma EntryTurn(n: nat, c: Client, s: Shared)
    requires CanEnter(n, c, s) && !InCritical(c) && s.mutex > 0 && (c.pc == WaitStart ==> s.start > 0)
    ensures var (c', s') := TurnOf(n, c, s); CanEnter(n, c', s') && c' != c
  {
  }

  /** Client 3's second post. */
  lemma PostTurn(n: nat, c: Client, s: Shared)
    requires c.pc == Post2
    ensures TurnOf(n, c, s) == (c.(pc := LoopHead), s.(start := s.start + 1))
  {
  }

  /** Whose turn brings client o closer to the critical section. */
  function Mover(st: State, o: ClientNo): ClientNo {
    if st.At(o).pc == WaitStart && st.shared.start == 0 then 3 else o
  }

  /** While another client is inside, a client that waits in vain to be started waits for the
      second post. */
  lemma SecondPostIsDue(n: nat, st: State, no: ClientNo, o: ClientNo)
    requires ProgramsInv(n, st) && SemaphoresWith(st, 1)
    requires o != no && InCritical(st.At(no)) && st.At(o).pc == WaitStart && st.shared.start == 0
    ensures o != 3 && no != 3 && st.c3.pc == Post2
  {
  }

  lemma MoveKeeps(n: nat, st: State, no: ClientNo, o: ClientNo)
    requires ProgramsInv(n, st) && SemaphoresWith(st, 1) && st.shared.mutex > 0
    requires o != no && InCritical(st.At(no)) && CanEnter(n, st.At(o), st.shared) && !InCritical(st.At(o))
    ensures var st' := Step(n, st, Turn(Mover(st, o)));
      && Enabled(n, st, Mover(st, o))
      && InCritical(st'.At(no)) && CanEnter(n, st'.At(o), st'.shared)
  {
    var x := Mover(st, o);
    if x == o {
      EntryTurn(n, st.At(o), st.shared);
    } else {
      SecondPostIsDue(n, st, no, o);
      PostTurn(n, st.c3, st.shared);
    }
    var (c', s') := TurnOf(n, st.At(x), st.shared);
    var st' := st.(shared := s').With(x, c');
    assert st'.At(no) == st.At(no) && st'.At(o) == if x == o then c' else st.At(o);
  }

  /** A client that can still enter can do so while client `no` is inside. */
  lemma {:induction false} EnterFrom(n: nat, st: State, no: ClientNo, o: ClientNo) returns (schedule: seq<Action>)
    requires ProgramsInv(n, st) && SemaphoresWith(st, 1)
    requires o != no && InCritical(st.At(no)) && CanEnter(n, st.At(o), st.shared)
    ensures Inside(Run(n, st, schedule)) == 2
    decreases Measure(n, st)
  {
    if st.shared.mutex == 0 {
      return [];
    }
    NotBothInside(st, no, o);
    var a := Turn(Mover(st, o));
    MoveKeeps(n, st, no, o);
    ProgramsKept(n, st, 1, a);
    TurnDecreases(n, st, a.no);
    MeasureBounds(n, st);
    var rest := EnterFrom(n, Step(n, st, a), no, o);
    RunFrom(n, st, a, rest);
    return [a] + rest;
  }

  lemma NotBothInside(st: State, no: ClientNo, o: ClientNo)
    requires SemaphoresWith(st, 1) && st.shared.mutex > 0 && o != no && InCritical(st.At(no))
    ensures !InCritical(st.At(o))
  {
  }

  /** Is the mutex taken, or can a client other than `no` still enter? */
  ghost predicate SomeoneElse(n: nat, st: State, no: ClientNo) {
    st.shared.mutex == 0 || exists o: ClientNo :: o != no && CanEnter(n, st.At(o), st.shared)
  }

  lemma WaitSeen(st: State, no: ClientNo, o: ClientNo)
    ensures InterruptedWait(st, no).shared == st.shared
    ensures InterruptedWait(st, no).At(o) == if o == no then st.At(no).(pc := Test, running := false) else st.At(o)
  {
  }

  lemma CanBreak(n: nat, st: State, no: ClientNo) returns (schedule: seq<Action>)
    requires Reachable(n, st) && st.At(no).pc == WaitMutex && SomeoneElse(n, st, no)
    ensures Inside(Run(n, InterruptedWait(st, no), schedule)) == 2
  {
    OneTooMany(n, st, no);
    if st.shared.mutex == 0 {
      return [];
    }
    var o: ClientNo :| o != no && CanEnter(n, st.At(o), st.shared);
    WaitSeen(st, no, no);
    WaitSeen(st, no, o);
    schedule := EnterFrom(n, InterruptedWait(st, no), no, o);
  }

  lemma CannotBreak(n: nat, st: State, no: ClientNo, schedule: seq<Action>)
    requires Reachable(n, st) && st.At(no).pc == WaitMutex && !SomeoneElse(n, st, no)
    ensures Inside(Run(n, InterruptedWait(st, no), schedule)) <= 1
  {
    ReachableInv(n, st);
    NobodyCreates(n, st, no);
    var st' := InterruptedWait(st, no);
    WaitSeen(st, no, no);
    forall o: ClientNo | o != no ensures !CanEnter(n, st'.At(o), st'.shared) && !Creating(st'.At(o)) {
      WaitSeen(st, no, o);
    }
    BarredForEver(n, st', no, schedule);
  }

  /** Exactly when an interrupted wait breaks mutual exclusion, now or later: when the mutex
      was taken, or when another client can still enter. */
  lemma BreaksExclusionIff(n: nat, st: State, no: ClientNo)
    requires Reachable(n, st) && st.At(no).pc == WaitMutex
    ensures (exists schedule :: Inside(Run(n, InterruptedWait(st, no), schedule)) == 2) <==> SomeoneElse(n, st, no)
  {
    if SomeoneElse(n, st, no) {
      var schedule := CanBreak(n, st, no);
    } else {
      forall schedule ensures Inside(Run(n, InterruptedWait(st, no), schedule)) <= 1 {
        CannotBreak(n, st, no, schedule);
      }
    }
  }

  lemma NobodyCreates(n: nat, st: State, no: ClientNo)
    requires ProgramsInv(n, st) && SemaphoreInv(st) && st.At(no).pc == WaitMutex
    ensures forall o: ClientNo :: !Creating(st.At(o))
  {
  }

  lemma Extend(n: nat, schedule: seq<Action>, no: ClientNo) returns (longer: seq<Action>, next: State)
    ensures longer == schedule + [Turn(no)] && next == Run(n, Init(), longer)
    ensures next == Step(n, Run(n, Init(), schedule), Turn(no))
  {
    longer := schedule + [Turn(no)];
    assert longer[..|schedule|] == schedule;
    next := Run(n, Init(), longer);
  }

  const READY := Shared(true, true, true, 1, 2, Memory(3, 1, Text(0, 3)), [Packet(3, 1, 0)], [])

  /** Client 3 has initialised everything and is at its loop. */
  lemma Started(n: nat) returns (schedule: seq<Action>, st: State)
    ensures st == Run(n, Init(), schedule)
    ensures st == State(READY, Init().c1, Init().c2, Client(3, LoopHead, 0, true))
  {
    schedule, st := Extend(n, [], 3);
    schedule, st := Extend(n, schedule, 3);
    schedule, st := Extend(n, schedule, 3);
    schedule, st := Extend(n, schedule, 3);
    schedule, st := Extend(n, schedule, 3);
    schedule, st := Extend(n, schedule, 3);
    schedule, st := Extend(n, schedule, 3);
    schedule, st := Extend(n, schedule, 3);
    schedule, st := Extend(n, schedule, 3);
  }

  /** Client 1 has been started and is at its loop. */
  lemma Joined(n: nat) returns (schedule: seq<Action>, st: State)
    ensures st == Run(n, Init(), schedule)
    ensures st == State(READY.(start := 1), Client(1, LoopHead, 0, true), Init().c2, Client(3, LoopHead, 0, true))
  {
    schedule, st := Started(n);
    schedule, st := Extend(n, schedule, 1);
    schedule, st := Extend(n, schedule, 1);
    schedule, st := Extend(n, schedule, 1);
    schedule, st := Extend(n, schedule, 1);
  }

  /** It does happen: with at least one message to exchange, client 3 is inside and client 1
      waits; interrupted there, client 1 enters as well. */
  lemma ExclusionCanBeBroken(n: nat) returns (st: State)
    requires n > 0
    ensures Reachable(n, st) && st.c1.pc == WaitMutex
    ensures InCritical(InterruptedWait(st, 1).c1) && InCritical(InterruptedWait(st, 1).c3)
  {
    var schedule: seq<Action>;
    schedule, st := Joined(n);
    schedule, st := Extend(n, schedule, 1);
    schedule, st := Extend(n, schedule, 3);
    schedule, st := Extend(n, schedule, 3);
  }
}

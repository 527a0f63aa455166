/** What one locked iteration of a Lab10 client achieves, in any interleaving, and what an
    interrupted client still does. */
module TokenRingExchange {
  import opened TokenRing
  import opened TokenRingProof

  function TurnsTaken(no: ClientNo, schedule: seq<Action>): nat {
    if schedule == [] then 0
    else TurnsTaken(no, schedule[..|schedule| - 1]) + (if schedule[|schedule| - 1] == Turn(no) then 1 else 0)
  }

  /** To whom client `no` replies in iteration i. */
  function ReplyTo(no: int, i: int): int {
    if no == 1 then (if i % 2 == 0 then 2 else 3)
    else if no == 2 then (if i % 2 == 0 then 1 else 3)
    else (if i % 2 == 0 then 1 else 2)
  }

  /** Client and shared memory after j turns inside, begun with i and s0, for its addressee. */
  predicate Answering(no: ClientNo, i: nat, s0: Shared, j: nat, c: Client, s: Shared) {
    && c.no == no && c.i == (if j == 7 then i + 1 else i)
    && s.received == s0.received + (if j >= 2 then [Receipt(no, s0.cell.src, s0.cell.message)] else [])
    && s.written == s0.written + (if j >= 6 then [Packet(no, ReplyTo(no, i), i + 1)] else [])
    && match j
       case 0 => c.pc == Test && s.cell == s0.cell
       case 1 => c.pc == Receive && s.cell == s0.cell
       case 2 => c.pc == WriteSrc && s.cell == s0.cell
       case 3 => c.pc == WriteDest && s.cell.src == no
       case 4 => c.pc == ClearText && s.cell.src == no && s.cell.dest == ReplyTo(no, i)
       case 5 => c.pc == WriteText && s.cell.src == no && s.cell.dest == ReplyTo(no, i)
       case 6 => c.pc == PostMutex && s.cell == Memory(no, ReplyTo(no, i), Text(i + 1, no))
       case _ => j == 7 && c.pc == LoopHead && s.cell == Memory(no, ReplyTo(no, i), Text(i + 1, no))
  }

  /** The same for a client that finds the message addressed to somebody else. */
  predicate Passing(no: ClientNo, i: nat, s0: Shared, j: nat, c: Client, s: Shared) {
    && c.no == no && c.i == (if j == 2 then i + 1 else i)
    && s.received == s0.received && s.written == s0.written && s.cell == s0.cell
    && c.pc == (if j == 0 then Test else if j == 1 then PostMutex else LoopHead)
    && j <= 2
  }

  predicate Progressed(no: ClientNo, i: nat, s0: Shared, j: nat, c: Client, s: Shared) {
    if s0.cell.dest == no then Answering(no, i, s0, j, c, s) else Passing(no, i, s0, j, c, s)
  }

  function TurnsNeeded(no: ClientNo, s0: Shared): nat {
    if s0.cell.dest == no then 7 else 2
  }

  lemma OwnTurn(n: nat, no: ClientNo, i: nat, s0: Shared, j: nat, c: Client, s: Shared)
    requires Progressed(no, i, s0, j, c, s) && j < TurnsNeeded(no, s0)
    ensures Progressed(no, i, s0, j + 1, TurnOf(n, c, s).0, TurnOf(n, c, s).1)
  {
  }

  /** While `no` is inside nobody else touches the cell or the record, and SIGINT only clears
      its flag. */
  lemma OtherAction(n: nat, st: State, no: ClientNo, a: Action)
    requires Reachable(n, st) && InCritical(st.At(no)) && a != Turn(no)
    ensures var st' := Step(n, st, a);
      && st'.At(no).pc == st.At(no).pc && st'.At(no).i == st.At(no).i && st'.At(no).no == st.At(no).no
      && st'.shared.cell == st.shared.cell && st'.shared.written == st.shared.written && st'.shared.received == st.shared.received
  {
    ReachableInv(n, st);
    AloneInside(st, no);
    if a.Turn? {
      if !Initialised(st.c3) {
        NobodyStarted(n, st);
      }
      OutsideTurn(n, st.At(a.no), st.shared);
      var (c', s') := TurnOf(n, st.At(a.no), st.shared);
      OtherClient(st, no, a.no, c', s');
      assert Step(n, st, a) == st.(shared := s').With(a.no, c');
    } else {
      OtherInterrupt(st, no, a.no);
    }
  }

  lemma OtherClient(st: State, no: ClientNo, o: ClientNo, c: Client, s: Shared)
    requires o != no
    ensures st.(shared := s).With(o, c).At(no) == st.At(no) && st.(shared := s).With(o, c).shared == s
  {
  }

  lemma OtherInterrupt(st: State, no: ClientNo, o: ClientNo)
    ensures var st' := st.With(o, Interrupted(st.At(o)));
      && st'.shared == st.shared && st'.At(no).pc == st.At(no).pc
      && st'.At(no).i == st.At(no).i && st'.At(no).no == st.At(no).no
  {
  }

  lemma TurnSeen(n: nat, st: State, no: ClientNo)
    ensures var st' := Step(n, st, Turn(no)); (st'.At(no), st'.shared) == TurnOf(n, st.At(no), st.shared)
  {
  }

  lemma ProgressedSame(no: ClientNo, i: nat, s0: Shared, j: nat, c: Client, s: Shared, c': Client, s': Shared)
    requires Progressed(no, i, s0, j, c, s)
    requires c'.pc == c.pc && c'.i == c.i && c'.no == c.no
    requires s'.cell == s.cell && s'.written == s.written && s'.received == s.received
    ensures Progressed(no, i, s0, j, c', s')
  {
  }

  lemma StillInside(no: ClientNo, i: nat, s0: Shared, j: nat, c: Client, s: Shared)
    requires Progressed(no, i, s0, j, c, s) && j < TurnsNeeded(no, s0)
    ensures InCritical(c)
  {
  }

  lemma {:induction false} InsideProgress(n: nat, st: State, no: ClientNo, schedule: seq<Action>)
    requires Reachable(n, st) && st.At(no).no == no && st.At(no).pc == Test
    requires TurnsTaken(no, schedule) < TurnsNeeded(no, st.shared)
    ensures var end := Run(n, st, schedule);
      && Reachable(n, end)
      && Progressed(no, st.At(no).i, st.shared, TurnsTaken(no, schedule), end.At(no), end.shared)
  {
    if schedule != [] {
      var before, a := schedule[..|schedule| - 1], schedule[|schedule| - 1];
      InsideProgress(n, st, no, before);
      OneMore(n, Run(n, st, before), no, st.At(no).i, st.shared, TurnsTaken(no, before), a);
    }
  }

  lemma OneMore(n: nat, mid: State, no: ClientNo, i: nat, s0: Shared, j: nat, a: Action)
    requires Reachable(n, mid) && Progressed(no, i, s0, j, mid.At(no), mid.shared) && j < TurnsNeeded(no, s0)
    ensures var end := Step(n, mid, a);
      Reachable(n, end) && Progressed(no, i, s0, if a == Turn(no) then j + 1 else j, end.At(no), end.shared)
  {
    ReachableStep(n, mid, a);
    StillInside(no, i, s0, j, mid.At(no), mid.shared);
    if a == Turn(no) {
      OwnTurn(n, no, i, s0, j, mid.At(no), mid.shared);
      TurnSeen(n, mid, no);
    } else {
      OtherAction(n, mid, no, a);
      var end := Step(n, mid, a);
      ProgressedSame(no, i, s0, j, mid.At(no), mid.shared, end.At(no), end.shared);
    }
  }

  lemma ReachableStep(n: nat, st: State, a: Action)
    requires Reachable(n, st)
    ensures Reachable(n, Step(n, st, a))
  {
    var schedule :| st == Run(n, Init(), schedule);
    assert (schedule + [a])[..|schedule|] == schedule;
    assert Step(n, st, a) == Run(n, Init(), schedule + [a]);
  }

  lemma NumberedClient(n: nat, st: State, no: ClientNo)
    requires Reachable(n, st)
    ensures st.At(no).no == no
  {
    ReachableInv(n, st);
  }

  lemma Ending(no: ClientNo, i: nat, s: Shared, j: nat, c: Client, s': Shared)
    requires Progressed(no, i, s, j, c, s') && j == TurnsNeeded(no, s)
    ensures c.pc == LoopHead && c.i == i + 1
    ensures if s.cell.dest == no then
        && s'.received == s.received + [Receipt(no, s.cell.src, s.cell.message)]
        && s'.written == s.written + [Packet(no, ReplyTo(no, i), i + 1)]
        && s'.cell == Memory(no, ReplyTo(no, i), Text(i + 1, no))
      else s'.received == s.received && s'.written == s.written && s'.cell == s.cell
  {
  }

  /** One iteration, from the test to the turn that brings the client back to its loop head,
      whatever the others do in between. A message that is addressed to it is received exactly
      once and answered: client 1 answers 2 and 3 by turns, client 2 answers 1 and 3, client 3
      answers 1 and 2, and the number of the answer is that of the iteration. A message that is
      addressed to somebody else is left alone. */
  lemma OneIteration(n: nat, st: State, no: ClientNo, schedule: seq<Action>)
    requires Reachable(n, st) && st.At(no).pc == Test
    requires schedule != [] && schedule[|schedule| - 1] == Turn(no)
    requires TurnsTaken(no, schedule) == if st.shared.cell.dest == no then 7 else 2
    ensures var (i, s, end) := (st.At(no).i, st.shared, Run(n, st, schedule));
      && end.At(no).pc == LoopHead && end.At(no).i == i + 1
      && if s.cell.dest == no then
           && end.shared.received == s.received + [Receipt(no, s.cell.src, s.cell.message)]
           && end.shared.written == s.written + [Packet(no, ReplyTo(no, i), i + 1)]
           && end.shared.cell == Memory(no, ReplyTo(no, i), Text(i + 1, no))
         else end.shared.received == s.received && end.shared.written == s.written && end.shared.cell == s.cell
  {
    NumberedClient(n, st, no);
    var before, end := schedule[..|schedule| - 1], Run(n, st, schedule);
    InsideProgress(n, st, no, before);
    OneMore(n, Run(n, st, before), no, st.At(no).i, st.shared, TurnsTaken(no, before), Turn(no));
    Ending(no, st.At(no).i, st.shared, TurnsTaken(no, schedule), end.At(no), end.shared);
  }

  // ---------------------------------------------------- the first message is received

  /** As long as nothing has been received, client 1 has not been past its first test. */
  predicate FirstInv(n: nat, st: State) {
    && (st.shared.received == [] ==> st.c1.i == 0 && !Replying(st.c1) && st.c1.pc != PostMutex)
    && (st.c1.pc == Done && st.c1.running ==> st.c1.i == n)
  }

  lemma FirstTest(n: nat, st: State)
    requires Inv(n, st) && FirstInv(n, st) && st.c1.pc == Test && st.shared.received == []
    ensures st.shared.cell.dest == 1
  {
    if !Initialised(st.c3) {
      NobodyStarted(n, st);
    }
    AloneInside(st, 1);
  }

  lemma FirstOwn(n: nat, c: Client, s: Shared)
    requires ProgramInv(n, c) && c.no == 1
    requires s.received == [] ==> c.i == 0 && !Replying(c) && c.pc != PostMutex
    requires c.pc == Done && c.running ==> c.i == n
    requires c.pc == Test && s.received == [] ==> s.cell.dest == 1
    ensures var (c', s') := TurnOf(n, c, s);
      && (s'.received == [] ==> c'.i == 0 && !Replying(c') && c'.pc != PostMutex)
      && (c'.pc == Done && c'.running ==> c'.i == n)
  {
    if StartingUp(c) {
      assert false;
    } else if InCritical(c) {
    } else {
    }
  }

  lemma ReceivedGrows(n: nat, c: Client, s: Shared)
    ensures s.received != [] ==> TurnOf(n, c, s).1.received != []
  {
  }

  lemma FirstKept(n: nat, st: State, a: Action)
    requires Inv(n, st) && FirstInv(n, st)
    ensures FirstInv(n, Step(n, st, a))
  {
    if a.Interrupt? {
    } else if a.no == 1 {
      if st.c1.pc == Test && st.shared.received == [] {
        FirstTest(n, st);
      }
      FirstOwn(n, st.c1, st.shared);
      TurnSeen(n, st, 1);
    } else {
      ReceivedGrows(n, st.At(a.no), st.shared);
      var (c', s') := TurnOf(n, st.At(a.no), st.shared);
      OtherClient(st, 1, a.no, c', s');
      assert Step(n, st, a) == st.(shared := s').With(a.no, c');
    }
  }

  lemma {:induction false} FirstRun(n: nat, schedule: seq<Action>)
    ensures Inv(n, Run(n, Init(), schedule)) && FirstInv(n, Run(n, Init(), schedule))
  {
    if schedule == [] {
      InitInv(n);
    } else {
      var before := schedule[..|schedule| - 1];
      FirstRun(n, before);
      StepKeeps(n, Run(n, Init(), before), schedule[|schedule| - 1]);
      FirstKept(n, Run(n, Init(), before), schedule[|schedule| - 1]);
    }
  }

  /** The first message is never left unread by a client 1 that completes its loop. */
  lemma FirstMessageIsRead(n: nat, st: State)
    requires Reachable(n, st) && n > 0 && st.c1.pc == Done && st.c1.running
    ensures st.shared.received != [] && st.shared.received[0] == Receipt(1, 3, Text(0, 3))
  {
    var schedule :| st == Run(n, Init(), schedule);
    FirstRun(n, schedule);
  }

  // ------------------------------------------------------ an interrupted client stops

  /** Iterations begun. */
  function Begun(c: Client): nat {
    c.i + One(c.pc == WaitMutex || InCritical(c))
  }

  lemma StoppedTurn(n: nat, c: Client, s: Shared)
    requires !c.running
    ensures var c' := TurnOf(n, c, s).0; !c'.running && Begun(c') <= Begun(c)
  {
    if StartingUp(c) {
    } else if InCritical(c) {
    } else {
    }
  }

  lemma StoppedStep(n: nat, st: State, no: ClientNo, a: Action)
    requires !st.At(no).running
    ensures !Step(n, st, a).At(no).running && Begun(Step(n, st, a).At(no)) <= Begun(st.At(no))
  {
    if a == Turn(no) {
      StoppedTurn(n, st.At(no), st.shared);
      TurnSeen(n, st, no);
    } else if a.Turn? {
      var (c', s') := TurnOf(n, st.At(a.no), st.shared);
      OtherClient(st, no, a.no, c', s');
      assert Step(n, st, a) == st.(shared := s').With(a.no, c');
    } else {
      InterruptSeen(st, no, a.no);
    }
  }

  lemma InterruptSeen(st: State, no: ClientNo, o: ClientNo)
    ensures var c, c' := st.At(no), st.With(o, Interrupted(st.At(o))).At(no);
      c'.pc == c.pc && c'.i == c.i && (!c.running ==> !c'.running)
  {
  }

  /** SIGINT outside sem_wait. */
  lemma InterruptClears(n: nat, st: State, no: ClientNo)
    requires st.At(no).pc != WaitMutex && st.At(no).pc != WaitStart
    ensures !Step(n, st, Interrupt(no)).At(no).running && Begun(Step(n, st, Interrupt(no)).At(no)) == Begun(st.At(no))
  {
  }

  /** After SIGINT a client completes the iteration it is in and begins no other. */
  lemma {:induction false} InterruptedClientStops(n: nat, st: State, no: ClientNo, schedule: seq<Action>)
    requires !st.At(no).running
    ensures var end := Run(n, st, schedule).At(no);
      !end.running && Begun(end) <= Begun(st.At(no))
  {
    if schedule != [] {
      var before := schedule[..|schedule| - 1];
      InterruptedClientStops(n, st, no, before);
      StoppedStep(n, Run(n, st, before), no, schedule[|schedule| - 1]);
    }
  }
}

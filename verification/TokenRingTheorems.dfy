/** The main results about the Lab10 token ring, for every reachable state and every N. */
module TokenRingTheorems {
  import opened TokenRing
  import opened TokenRingProof

  /** Semaphore accounting: the mutex value plus the clients inside is 1 once created, the
      start value plus the clients past their wait is the number of posts made; hence at
      most one client is inside. */
  lemma SemaphoresCount(n: nat, st: State, a: ClientNo, b: ClientNo)
    requires Reachable(n, st)
    ensures st.c3.pc != CreateMutex ==>
      st.shared.mutex + Inside(st) == 1
    ensures st.shared.start + One(PassedStart(st.c1)) + One(PassedStart(st.c2)) == Posts(st.c3)
    ensures a != b ==> !(InCritical(st.At(a)) && InCritical(st.At(b)))
  {
    ReachableInv(n, st);
  }

  /** Client 3's unlocked writes are complete before another client attaches, and nobody
      attaches, reads or writes earlier. */
  lemma InitialiseBeforeUse(n: nat, st: State)
    requires Reachable(n, st)
    ensures PassedStart(st.c1) || PassedStart(st.c2) || InCritical(st.c3) ==>
      Initialised(st.c3) && st.shared.written != [] && st.shared.written[0] == Packet(3, 1, 0)
    ensures !Initialised(st.c3) ==> st.shared.written == [] && st.shared.received == []
  {
    ReachableInv(n, st);
  }

  /** The token chain: every message is written by the addressee of the one before it, the
      receipts are the addressees' complete receipts of the messages in the order written,
      and at most the last message is still unread. */
  lemma TokenChain(n: nat, st: State)
    requires Reachable(n, st)
    ensures var w, r := st.shared.written, st.shared.received;
      && (forall k | 0 < k < |w| :: w[k].src == w[k - 1].dest)
      && |w| - 1 <= |r| <= |w|
      && (forall k | 0 <= k < |r| :: r[k] == ReceiptOf(w[k]))
  {
    ReachableInv(n, st);
  }

  /** With nobody in the middle of a reply, what has been received is exactly what has been
      written minus the message still in memory, and that message is intact. */
  lemma NothingLost(n: nat, st: State)
    requires Reachable(n, st) && Initialised(st.c3) && !SomeoneReplying(st)
    ensures var w := st.shared.written;
      && w != []
      && |st.shared.received| == |w| - 1
      && st.shared.cell == CellOf(w[|w| - 1])
  {
    ReachableInv(n, st);
  }

  lemma NumberOf(n: nat, c: Client, w: seq<Packet>, k: nat)
    requires ProgramInv(n, c) && NumbersOf(c, w) && 0 < k < |w| && w[k].src == c.no
    ensures 1 <= w[k].num <= n && w[k].dest != w[k].src
    ensures w[k].src == 1 ==> w[k].dest == if w[k].num % 2 == 1 then 2 else 3
    ensures w[k].src == 2 ==> w[k].dest == if w[k].num % 2 == 1 then 1 else 3
    ensures w[k].src == 3 ==> w[k].dest == if w[k].num % 2 == 1 then 1 else 2
  {
    assert w[k].dest == Reply(c.no, w[k].num - 1);
  }

  /** Numbering and routing: at most 3N+1 messages; a client's numbers lie in 1..N (0 for
      the initial message) and strictly increase; odd numbers of clients 1, 2 and 3 go to
      clients 2, 1 and 1, even ones to 3, 3 and 2. */
  lemma Numbering(n: nat, st: State, k: nat)
    requires Reachable(n, st) && 0 < k < |st.shared.written|
    ensures var w := st.shared.written;
      && |w| <= 3 * n + 1
      && 1 <= w[k].src <= 3 && 1 <= w[k].num <= n
      && (w[k].src == 1 ==> w[k].dest == if w[k].num % 2 == 1 then 2 else 3)
      && (w[k].src == 2 ==> w[k].dest == if w[k].num % 2 == 1 then 1 else 3)
      && (w[k].src == 3 ==> w[k].dest == if w[k].num % 2 == 1 then 1 else 2)
      && forall j | 0 <= j < k && w[j].src == w[k].src :: w[j].num < w[k].num
  {
    ReachableInv(n, st);
    var w := st.shared.written;
    assert Progress(st.c1) <= n && Progress(st.c2) <= n && Progress(st.c3) <= n;
    assert 1 <= w[k].src <= 3;
    NumberOf(n, st.At(w[k].src), w, k);
  }

  // --------------------------------------------- deadlock freedom and termination

  predicate Enabled(n: nat, st: State, no: ClientNo) {
    TurnOf(n, st.At(no), st.shared) != (st.At(no), st.shared)
  }

  predicate AllFinished(st: State) {
    Finished(st.c1) && Finished(st.c2) && Finished(st.c3)
  }

  /** Only a finished process or one waiting on a zero semaphore cannot move. */
  lemma BlockedOnlyAtSemaphores(n: nat, c: Client, s: Shared)
    requires ProgramInv(n, c)
    requires !Finished(c) && !(c.pc == WaitMutex && s.mutex == 0) && !(c.pc == WaitStart && s.start == 0)
    requires s.mutex >= 0 && s.start >= 0
    ensures TurnOf(n, c, s).0 != c
  {
  }

  /** The system never deadlocks: while some client has not finished, some client can move. */
  lemma NoDeadlock(n: nat, st: State)
    requires Reachable(n, st) && !AllFinished(st)
    ensures Enabled(n, st, 1) || Enabled(n, st, 2) || Enabled(n, st, 3)
  {
    ReachableInv(n, st);
    SomeoneCanMove(n, st);
  }

  lemma SomeoneCanMove(n: nat, st: State)
    requires ProgramsInv(n, st) && SemaphoreInv(st) && !AllFinished(st)
    ensures Enabled(n, st, 1) || Enabled(n, st, 2) || Enabled(n, st, 3)
  {
    var s := st.shared;
    forall no: ClientNo | !Finished(st.At(no))
      && !(st.At(no).pc == WaitMutex && s.mutex == 0) && !(st.At(no).pc == WaitStart && s.start == 0)
      ensures Enabled(n, st, no)
    {
      BlockedOnlyAtSemaphores(n, st.At(no), s);
    }
    assert st.At(1) == st.c1 && st.At(2) == st.c2 && st.At(3) == st.c3;
  }

  /** What a client still has to do. */
  function Rank(n: nat, c: Client): int {
    var loop := 10 * (n - c.i);
    One(c.running) +
    match c.pc
    case CreateMutex => loop + 16
    case CreateStart => loop + 15
    case CreateMemory => loop + 14
    case InitSrc => loop + 13
    case InitDest => loop + 12
    case InitClear => loop + 11
    case InitText => loop + 10
    case Post1 => loop + 9
    case Post2 => loop + 8
    case OpenMutex(r) => loop + 20 + r
    case OpenStart(r) => loop + 4 + r
    case WaitStart => loop + 3
    case Attach => loop + 2
    case LoopHead => loop + 1
    case WaitMutex => loop
    case Test => loop - 1
    case Receive => loop - 2
    case WriteSrc => loop - 3
    case WriteDest => loop - 4
    case ClearText => loop - 5
    case WriteText => loop - 6
    case PostMutex => loop - 7
    case Done => 0
    case FailedToOpen => 0
    case FailedToAttach => 0
  }

  function Measure(n: nat, st: State): int {
    Rank(n, st.c1) + Rank(n, st.c2) + Rank(n, st.c3)
  }

  lemma RankBounds(n: nat, c: Client)
    requires ProgramInv(n, c)
    ensures 0 <= Rank(n, c) <= 10 * n + 31
  {
  }

  lemma RankDecreases(n: nat, c: Client, s: Shared)
    requires ProgramInv(n, c)
    ensures TurnOf(n, c, s) == (c, s) || Rank(n, TurnOf(n, c, s).0) < Rank(n, c)
  {
    if StartingUp(c) {
    } else if InCritical(c) {
      ExchangeRank(n, c, s);
    } else {
    }
  }

  lemma ExchangeRank(n: nat, c: Client, s: Shared)
    requires InCritical(c)
    ensures Rank(n, ExchangeStep(c, s).0) < Rank(n, c)
  {
  }

  lemma MeasureBounds(n: nat, st: State)
    requires ProgramsInv(n, st)
    ensures 0 <= Measure(n, st) <= 30 * n + 93
  {
    RankBounds(n, st.c1);
    RankBounds(n, st.c2);
    RankBounds(n, st.c3);
  }

  lemma MeasureOf(n: nat, st: State, no: ClientNo, c: Client, s: Shared)
    ensures Measure(n, st.(shared := s).With(no, c)) == Measure(n, st) - Rank(n, st.At(no)) + Rank(n, c)
    ensures c == st.At(no) && s == st.shared ==> st.(shared := s).With(no, c) == st
  {
  }

  lemma TurnDecreases(n: nat, st: State, no: ClientNo)
    requires ProgramsInv(n, st)
    ensures var (c, s) := TurnOf(n, st.At(no), st.shared);
      if Enabled(n, st, no) then Measure(n, st.(shared := s).With(no, c)) < Measure(n, st)
      else st.(shared := s).With(no, c) == st
  {
    var (c, s) := TurnOf(n, st.At(no), st.shared);
    RankDecreases(n, st.At(no), st.shared);
    MeasureOf(n, st, no, c, s);
  }

  lemma RankOfInterrupt(n: nat, c: Client)
    ensures Interrupted(c) == c || Rank(n, Interrupted(c)) == Rank(n, c) - 1
  {
  }

  /** Every step that changes anything brings some process closer to its end. */
  lemma MeasureDecreases(n: nat, st: State, a: Action)
    requires ProgramsInv(n, st)
    ensures Step(n, st, a) != st ==> Measure(n, Step(n, st, a)) < Measure(n, st)
  {
    if a.Turn? {
      TurnDecreases(n, st, a.no);
      var (c, s) := TurnOf(n, st.At(a.no), st.shared);
      assert Step(n, st, a) == st.(shared := s).With(a.no, c);
    } else {
      var c := Interrupted(st.At(a.no));
      RankOfInterrupt(n, st.At(a.no));
      MeasureOf(n, st, a.no, c, st.shared);
      assert Step(n, st, a) == st.(shared := st.shared).With(a.no, c);
    }
  }

  /** How many steps of a run had an effect. */
  function EffectiveSteps(n: nat, st: State, schedule: seq<Action>): nat {
    if schedule == [] then 0
    else
      var before := schedule[..|schedule| - 1];
      var mid := Run(n, st, before);
      EffectiveSteps(n, st, before) + (if Step(n, mid, schedule[|schedule| - 1]) != mid then 1 else 0)
  }

  lemma {:induction false} StepsAreBounded(n: nat, st: State, schedule: seq<Action>)
    requires Inv(n, st)
    ensures EffectiveSteps(n, st, schedule) + Measure(n, Run(n, st, schedule)) <= Measure(n, st)
  {
    if schedule != [] {
      var before := schedule[..|schedule| - 1];
      StepsAreBounded(n, st, before);
      RunKeeps(n, st, before);
      MeasureDecreases(n, Run(n, st, before), schedule[|schedule| - 1]);
    }
  }

  /** Every run terminates: however the processes are scheduled and interrupted, at most
      30N + 93 steps ever have an effect. */
  lemma Terminates(n: nat, schedule: seq<Action>)
    ensures EffectiveSteps(n, Init(), schedule) <= 30 * n + 93
  {
    InitInv(n);
    BoundFrom(n, Init(), schedule);
  }

  lemma BoundFrom(n: nat, st: State, schedule: seq<Action>)
    requires Inv(n, st)
    ensures EffectiveSteps(n, st, schedule) <= 30 * n + 93
  {
    StepsAreBounded(n, st, schedule);
    RunKeeps(n, st, schedule);
    MeasureBounds(n, Run(n, st, schedule));
    MeasureBounds(n, st);
  }

  /** Some enabled process, when not all have finished. */
  function Next(n: nat, st: State): ClientNo {
    if Enabled(n, st, 1) then 1 else if Enabled(n, st, 2) then 2 else 3
  }

  /** Once all have finished, only the message left in memory is unread. */
  lemma FinalState(n: nat, st: State)
    requires Reachable(n, st) && AllFinished(st)
    ensures Initialised(st.c3) && |st.shared.received| == |st.shared.written| - 1
  {
    ReachableInv(n, st);
  }

  /** From every reachable state some schedule finishes all three clients. */
  lemma CanFinish(n: nat, st: State) returns (schedule: seq<Action>)
    requires Reachable(n, st)
    ensures AllFinished(Run(n, st, schedule))
  {
    ReachableInv(n, st);
    schedule := FinishFrom(n, st);
  }

  lemma {:induction false} FinishFrom(n: nat, st: State) returns (schedule: seq<Action>)
    requires Inv(n, st)
    ensures AllFinished(Run(n, st, schedule))
    decreases Measure(n, st)
  {
    if AllFinished(st) {
      return [];
    }
    SomeoneCanMove(n, st);
    var a := Turn(Next(n, st));
    StepKeeps(n, st, a);
    TurnDecreases(n, st, a.no);
    MeasureBounds(n, st);
    var rest := FinishFrom(n, Step(n, st, a));
    RunFrom(n, st, a, rest);
    return [a] + rest;
  }

  lemma {:induction false} RunFrom(n: nat, st: State, a: Action, rest: seq<Action>)
    ensures Run(n, st, [a] + rest) == Run(n, Step(n, st, a), rest)
  {
    var full := [a] + rest;
    if rest == [] {
      assert full[..0] == [] && full[0] == a;
      assert Run(n, st, full[..0]) == st;
    } else {
      var before, last := rest[..|rest| - 1], rest[|rest| - 1];
      RunFrom(n, st, a, before);
      assert full[..|full| - 1] == [a] + before && full[|full| - 1] == last;
    }
  }
}

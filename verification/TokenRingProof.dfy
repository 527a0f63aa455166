/** Invariants of the Lab10 token ring over every interleaving. */
module TokenRingProof {
  import opened TokenRing

  // ------------------------------------------------------------- control phases

  /** Between having read the message and having completed the reply. */
  predicate Replying(c: Client) {
    (c.pc.WriteSrc? || c.pc.WriteDest? || c.pc.ClearText? || c.pc.WriteText?)
  }

  predicate InLoop(c: Client) {
    c.pc == LoopHead || c.pc == WaitMutex || InCritical(c) || c.pc == Done
  }

  predicate Finished(c: Client) {
    c.pc == Done || c.pc == FailedToOpen || c.pc == FailedToAttach
  }

  predicate PassedStart(c: Client) {
    InLoop(c) || c.pc == Attach || c.pc == FailedToAttach
  }

  predicate Initialised(c3: Client) {
    InLoop(c3) || c3.pc == Post1 || c3.pc == Post2
  }

  function Posts(c3: Client): nat {
    if InLoop(c3) then 2 else if c3.pc == Post2 then 1 else 0
  }

  function One(b: bool): nat {
    if b then 1 else 0
  }

  /** Each process stays in its own program, and its counter within bounds. */
  predicate ProgramInv(n: nat, c: Client) {
    && c.i <= n
    && (c.pc == WaitMutex || InCritical(c) ==> c.i < n)
    && (InLoop(c) || c.i == 0)
    && (c.pc.OpenMutex? ==> c.pc.retries <= 10)
    && (c.pc.OpenStart? ==> c.pc.retries <= 10)
    && (if c.no == 3
        then InLoop(c) || StartingUp(c)
        else PassedStart(c) || c.pc == WaitStart || c.pc == FailedToOpen || c.pc.OpenMutex? || c.pc.OpenStart?)
  }

  predicate ProgramsInv(n: nat, st: State) {
    && st.c1.no == 1 && st.c2.no == 2 && st.c3.no == 3
    && ProgramInv(n, st.c1) && ProgramInv(n, st.c2) && ProgramInv(n, st.c3)
  }

  /** Semaphore accounting, with `extra` mutex units that nobody has waited for. */
  predicate SemaphoresWith(st: State, extra: nat) {
    && st.shared.mutex >= 0 && st.shared.start >= 0
    && st.shared.mutex + Inside(st) == One(st.c3.pc != CreateMutex) + extra
    && (st.c3.pc == CreateMutex ==> extra == 0)
    && st.shared.start + One(PassedStart(st.c1)) + One(PassedStart(st.c2)) == Posts(st.c3)
  }

  predicate SemaphoreInv(st: State) {
    SemaphoresWith(st, 0)
  }

  /** How many clients are in their critical sections. */
  function Inside(st: State): nat {
    One(InCritical(st.c1)) + One(InCritical(st.c2)) + One(InCritical(st.c3))
  }

  // ------------------------------------------------------------------ the token

  function CellOf(p: Packet): Memory {
    Memory(p.src, p.dest, Text(p.num, p.src))
  }

  function ReceiptOf(p: Packet): Receipt {
    Receipt(p.dest, p.src, Text(p.num, p.src))
  }

  /** The histories form a chain, and the receipts are the addressees' of a prefix. */
  ghost predicate Chain(s: Shared) {
    && |s.received| <= |s.written|
    && (forall k | 0 <= k < |s.received| :: s.received[k] == ReceiptOf(s.written[k]))
    && (s.written != [] ==> s.written[0] == Packet(3, 1, 0))
    && (forall k | 0 < k < |s.written| :: s.written[k].src == s.written[k - 1].dest)
  }

  /** What a client in its critical section knows about the cell. */
  predicate CellView(c: Client, s: Shared)
    requires s.written != []
  {
    var w := s.written[|s.written| - 1];
    match c.pc
    case Receive => w.dest == c.no
    case WriteSrc => w.dest == c.no && s.cell == CellOf(w)
    case WriteDest => w.dest == c.no && s.cell.src == c.no
    case ClearText => w.dest == c.no && s.cell.src == c.no && s.cell.dest == Reply(c.no, c.i)
    case WriteText => w.dest == c.no && s.cell.src == c.no && s.cell.dest == Reply(c.no, c.i)
    case _ => true
  }

  predicate InitView(c3: Client, s: Shared) {
    && s.written == [] && s.received == []
    && ((c3.pc.InitDest? || c3.pc.InitClear? || c3.pc.InitText?) ==> s.cell.src == 3)
    && ((c3.pc.InitClear? || c3.pc.InitText?) ==> s.cell.dest == 1)
  }

  predicate SomeoneReplying(st: State) {
    Replying(st.c1) || Replying(st.c2) || Replying(st.c3)
  }

  /** The cell holds the last message, and everything before it has been received. */
  predicate Settled(s: Shared) {
    s.written != [] && |s.received| == |s.written| - 1 && s.cell == CellOf(s.written[|s.written| - 1])
  }

  predicate Consistent(replying: bool, s: Shared) {
    s.written != [] && if replying then |s.received| == |s.written| else Settled(s)
  }

  ghost predicate TokenInv(st: State) {
    var s := st.shared;
    && Chain(s)
    && if !Initialised(st.c3) then InitView(st.c3, s)
       else
         && Consistent(SomeoneReplying(st), s)
         && CellView(st.c1, s) && CellView(st.c2, s) && CellView(st.c3, s)
  }

  // ----------------------------------------------------------- message numbers

  /** Loop iterations of a client whose reply, if any, is complete. */
  function Progress(c: Client): nat {
    c.i + One(c.pc == PostMutex)
  }

  /** A client's own messages: numbered within its progress, routed by parity. */
  ghost predicate NumbersOf(c: Client, w: seq<Packet>) {
    forall k | 0 < k < |w| && w[k].src == c.no ::
      1 <= w[k].num <= Progress(c) && w[k].dest == Reply(c.no, w[k].num - 1)
  }

  ghost predicate Increasing(w: seq<Packet>) {
    && (forall k | 0 <= k < |w| :: 1 <= w[k].src <= 3 && w[k].num >= 0)
    && (forall j, k | 0 <= j < k < |w| && w[j].src == w[k].src :: w[j].num < w[k].num)
  }

  ghost predicate NumberInv(st: State) {
    var w := st.shared.written;
    && NumbersOf(st.c1, w) && NumbersOf(st.c2, w) && NumbersOf(st.c3, w)
    && Increasing(w)
    && |w| <= 1 + Progress(st.c1) + Progress(st.c2) + Progress(st.c3)
  }

  ghost predicate Inv(n: nat, st: State) {
    ProgramsInv(n, st) && SemaphoreInv(st) && TokenInv(st) && NumberInv(st)
  }

  // --------------------------------------------------------------- preservation

  /** The start semaphore's balance of one process: waits passed, or minus posts made. */
  function StartBalance(c: Client): int {
    if c.no == 3 then -(Posts(c) as int) else One(PassedStart(c))
  }

  /** A turn keeps a process inside its program. */
  lemma ProgramTurn(n: nat, c: Client, s: Shared)
    requires ProgramInv(n, c)
    ensures TurnOf(n, c, s).0.no == c.no && ProgramInv(n, TurnOf(n, c, s).0)
  {
    if StartingUp(c) {
    } else if InCritical(c) {
      ExchangeProgram(n, c, s);
    } else {
      EnterProgram(n, c, s);
    }
  }

  lemma ExchangeProgram(n: nat, c: Client, s: Shared)
    requires ProgramInv(n, c) && InCritical(c)
    ensures ExchangeStep(c, s).0.no == c.no && ProgramInv(n, ExchangeStep(c, s).0)
  {
  }

  lemma EnterProgram(n: nat, c: Client, s: Shared)
    requires ProgramInv(n, c) && !StartingUp(c) && !InCritical(c)
    ensures EnterStep(n, c, s).0.no == c.no && ProgramInv(n, EnterStep(n, c, s).0)
  {
  }

  /** What one turn does to the two semaphores. */
  lemma EnterMutex(n: nat, c: Client, s: Shared)
    requires !StartingUp(c) && !InCritical(c) && s.mutex >= 0
    ensures var (c', s') := EnterStep(n, c, s);
      s'.mutex >= 0 && s'.mutex + One(InCritical(c')) == s.mutex && c'.pc != CreateMutex
  {
  }

  lemma ExchangeMutex(c: Client, s: Shared)
    requires InCritical(c)
    ensures var (c', s') := ExchangeStep(c, s);
      s'.mutex >= s.mutex && s'.mutex + One(InCritical(c')) == s.mutex + 1 && c'.pc != CreateMutex
  {
  }

  lemma CreateMutexOnce(c: Client, s: Shared)
    requires StartingUp(c) && (c.pc == CreateMutex ==> s.mutex == 0)
    ensures var (c', s') := CreateStep(c, s);
      s'.mutex == s.mutex + One(c.pc == CreateMutex) && !InCritical(c') && c'.pc != CreateMutex
  {
  }

  lemma MutexTurn(n: nat, c: Client, s: Shared)
    requires s.mutex >= 0
    requires c.pc == CreateMutex ==> s.mutex == 0
    ensures var (c', s') := TurnOf(n, c, s);
      && s'.mutex >= 0 && c'.pc != CreateMutex
      && s'.mutex + One(InCritical(c')) == s.mutex + One(InCritical(c)) + One(c.pc == CreateMutex)
  {
    if StartingUp(c) {
      CreateMutexOnce(c, s);
    } else if InCritical(c) {
      ExchangeMutex(c, s);
    } else {
      EnterMutex(n, c, s);
    }
  }

  lemma ExchangeStays(c: Client, s: Shared)
    requires InCritical(c)
    ensures var (c', s') := ExchangeStep(c, s); c'.no == c.no && InLoop(c') && s'.start == s.start
  {
  }

  lemma PostsTurn(n: nat, c: Client, s: Shared)
    requires ProgramInv(n, c) && c.no == 3
    ensures TurnOf(n, c, s).1.start == s.start + Posts(TurnOf(n, c, s).0) - Posts(c)
  {
    if StartingUp(c) {
    } else if InCritical(c) {
      ExchangeStays(c, s);
    } else {
      EnterTouchesNothing(n, c, s);
    }
  }

  lemma WaitsTurn(n: nat, c: Client, s: Shared)
    requires ProgramInv(n, c) && c.no != 3 && s.start >= 0
    ensures TurnOf(n, c, s).1.start == s.start - One(PassedStart(TurnOf(n, c, s).0)) + One(PassedStart(c)) >= 0
  {
    if InCritical(c) {
      ExchangeStays(c, s);
    }
  }

  lemma BalancesKept(n: nat, st: State, extra: nat, no: ClientNo, c': Client, s': Shared)
    requires ProgramsInv(n, st) && SemaphoresWith(st, extra)
    requires c'.no == no && ProgramInv(n, c') && s'.mutex >= 0 && s'.start >= 0 && c'.pc != CreateMutex
    requires s'.mutex + One(InCritical(c')) == st.shared.mutex + One(InCritical(st.At(no))) + One(st.At(no).pc == CreateMutex)
    requires s'.start + StartBalance(c') == st.shared.start + StartBalance(st.At(no))
    ensures ProgramsInv(n, st.(shared := s').With(no, c')) && SemaphoresWith(st.(shared := s').With(no, c'), extra)
  {
    if no == 1 {
    } else if no == 2 {
    } else {
    }
  }

  lemma ProgramsKept(n: nat, st: State, extra: nat, a: Action)
    requires ProgramsInv(n, st) && SemaphoresWith(st, extra)
    ensures ProgramsInv(n, Step(n, st, a)) && SemaphoresWith(Step(n, st, a), extra)
  {
    match a
    case Turn(no) =>
      var (c', s') := TurnOf(n, st.At(no), st.shared);
      ProgramTurn(n, st.At(no), st.shared);
      MutexTurn(n, st.At(no), st.shared);
      if no == 3 { PostsTurn(n, st.c3, st.shared); } else { WaitsTurn(n, st.At(no), st.shared); }
      BalancesKept(n, st, extra, no, c', s');
    case Interrupt(no) =>
      InterruptKeepsPrograms(n, st, extra, no);
  }

  lemma InterruptProgram(n: nat, c: Client)
    requires ProgramInv(n, c)
    ensures ProgramInv(n, Interrupted(c)) && Interrupted(c).pc == c.pc && Interrupted(c).no == c.no
  {
  }

  lemma SamePlace(n: nat, st: State, extra: nat, no: ClientNo, c': Client)
    requires ProgramsInv(n, st) && SemaphoresWith(st, extra)
    requires ProgramInv(n, c') && c'.pc == st.At(no).pc && c'.no == st.At(no).no
    ensures ProgramsInv(n, st.With(no, c')) && SemaphoresWith(st.With(no, c'), extra)
  {
    var c := st.At(no);
    assert InCritical(c') == InCritical(c) && PassedStart(c') == PassedStart(c) && Posts(c') == Posts(c);
    if no == 1 {
    } else if no == 2 {
    } else {
    }
  }

  lemma InterruptKeepsPrograms(n: nat, st: State, extra: nat, no: ClientNo)
    requires ProgramsInv(n, st) && SemaphoresWith(st, extra)
    ensures ProgramsInv(n, st.With(no, Interrupted(st.At(no)))) && SemaphoresWith(st.With(no, Interrupted(st.At(no))), extra)
  {
    InterruptProgram(n, st.At(no));
    SamePlace(n, st, extra, no, Interrupted(st.At(no)));
  }

  lemma CriticalKeepsChain(n: nat, c: Client, s: Shared)
    requires InCritical(c) && Chain(s) && Consistent(Replying(c), s) && CellView(c, s)
    ensures Chain(TurnOf(n, c, s).1)
  {
    var s' := TurnOf(n, c, s).1;
    if c.pc == Receive {
      assert s'.received == s.received + [ReceiptOf(s.written[|s.received|])];
    } else if c.pc == WriteText {
      assert s'.written == s.written + [Packet(c.no, Reply(c.no, c.i), c.i + 1)];
    }
  }

  /** The single reads and writes of the critical section, one at a time. */
  lemma CriticalTurn(n: nat, c: Client, s: Shared)
    requires InCritical(c) && Chain(s) && Consistent(Replying(c), s) && CellView(c, s)
    ensures var (c', s') := TurnOf(n, c, s); Chain(s') && Consistent(Replying(c'), s') && CellView(c', s')
  {
    CriticalKeepsChain(n, c, s);
    var s' := TurnOf(n, c, s).1;
    if c.pc == WriteText {
      assert s'.written[|s'.written| - 1] == Packet(c.no, Reply(c.no, c.i), c.i + 1);
    }
  }

  /** Outside the critical section, and after initialisation, nobody touches the cell. */
  lemma EnterTouchesNothing(n: nat, c: Client, s: Shared)
    requires !StartingUp(c) && !InCritical(c)
    ensures var (c', s') := EnterStep(n, c, s);
      && s'.cell == s.cell && s'.written == s.written && s'.received == s.received
      && (InCritical(c') ==> c'.pc.Test?) && !StartingUp(c') && c'.no == c.no
      && (InLoop(c) ==> InLoop(c'))
  {
  }

  lemma OutsideTurn(n: nat, c: Client, s: Shared)
    requires ProgramInv(n, c) && !InCritical(c) && (c.no == 3 ==> Initialised(c))
    ensures var (c', s') := TurnOf(n, c, s);
      s'.cell == s.cell && s'.written == s.written && s'.received == s.received
      && !c'.pc.Receive? && !c'.pc.WriteSrc? && !c'.pc.WriteDest? && !c'.pc.ClearText? && !c'.pc.WriteText? && !c'.pc.PostMutex?
      && (c.no == 3 ==> Initialised(c')) && c'.no == c.no
  {
    if StartingUp(c) {
      assert c.pc == Post1 || c.pc == Post2;
    } else {
      EnterTouchesNothing(n, c, s);
    }
  }

  lemma InitTurn(n: nat, c: Client, s: Shared)
    requires ProgramInv(n, c) && c.no == 3 && !Initialised(c) && InitView(c, s)
    ensures var (c', s') := TurnOf(n, c, s);
      && !InCritical(c')
      && if Initialised(c') then s'.written == [Packet(3, 1, 0)] && s'.received == [] && Settled(s')
         else InitView(c', s')
  {
  }

  /** Nobody else is in the critical section while client `no` is. */
  lemma AloneInside(st: State, no: ClientNo)
    requires SemaphoreInv(st) && InCritical(st.At(no))
    ensures SomeoneReplying(st) == Replying(st.At(no))
    ensures forall o: ClientNo | o != no :: !InCritical(st.At(o))
  {
  }

  /** Before client 3 has initialised the cell nobody has entered the loop. */
  lemma NobodyStarted(n: nat, st: State)
    requires ProgramsInv(n, st) && SemaphoreInv(st) && !Initialised(st.c3)
    ensures !PassedStart(st.c1) && !PassedStart(st.c2) && !InCritical(st.c1) && !InCritical(st.c2) && !InCritical(st.c3)
  {
  }

  lemma TokenAssemble(st: State, no: ClientNo, c': Client, s': Shared)
    requires Initialised(st.c3) && (no == 3 ==> Initialised(c')) && c'.no == no
    requires forall o: ClientNo | o != no :: !InCritical(st.At(o))
    requires Chain(s') && Consistent(Replying(c'), s') && CellView(c', s')
    ensures TokenInv(st.(shared := s').With(no, c'))
  {
    assert forall o: ClientNo | o != no :: !InCritical(st.At(o));
    assert no != 1 ==> !InCritical(st.At(1));
    assert no != 2 ==> !InCritical(st.At(2));
    assert no != 3 ==> !InCritical(st.At(3));
  }

  lemma TokenKeptInside(n: nat, st: State, no: ClientNo)
    requires Inv(n, st) && InCritical(st.At(no))
    ensures TokenInv(Step(n, st, Turn(no)))
  {
    AloneInside(st, no);
    if !Initialised(st.c3) {
      NobodyStarted(n, st);
    }
    CriticalTurn(n, st.At(no), st.shared);
    ProgramTurn(n, st.At(no), st.shared);
    var (c', s') := TurnOf(n, st.At(no), st.shared);
    TokenAssemble(st, no, c', s');
  }

  /** A step that leaves the cell alone and does not enter the middle of a reply. */
  lemma TokenFrame(st: State, no: ClientNo, c': Client, s': Shared)
    requires TokenInv(st) && !InCritical(st.At(no))
    requires s'.cell == st.shared.cell && s'.written == st.shared.written && s'.received == st.shared.received
    requires !c'.pc.Receive? && !Replying(c') && c'.no == st.At(no).no
    requires no == 3 ==> Initialised(st.c3) && Initialised(c')
    ensures TokenInv(st.(shared := s').With(no, c'))
  {
    if no == 1 {
    } else if no == 2 {
    } else {
    }
  }

  lemma TokenKeptOutside(n: nat, st: State, no: ClientNo)
    requires Inv(n, st) && !InCritical(st.At(no)) && (no == 3 ==> Initialised(st.c3))
    ensures TokenInv(Step(n, st, Turn(no)))
  {
    OutsideTurn(n, st.At(no), st.shared);
    var (c', s') := TurnOf(n, st.At(no), st.shared);
    TokenFrame(st, no, c', s');
  }

  lemma TokenKeptInitially(n: nat, st: State)
    requires Inv(n, st) && !Initialised(st.c3)
    ensures TokenInv(Step(n, st, Turn(3)))
  {
    NobodyStarted(n, st);
    InitTurn(n, st.c3, st.shared);
  }

  lemma TokenKept(n: nat, st: State, a: Action)
    requires Inv(n, st)
    ensures TokenInv(Step(n, st, a))
  {
    match a
    case Turn(no) =>
      if InCritical(st.At(no)) {
        TokenKeptInside(n, st, no);
      } else if no == 3 && !Initialised(st.c3) {
        TokenKeptInitially(n, st);
      } else {
        TokenKeptOutside(n, st, no);
      }
    case Interrupt(no) =>
      InterruptKeepsToken(st, no);
  }

  lemma InterruptKeepsToken(st: State, no: ClientNo)
    requires TokenInv(st)
    ensures TokenInv(st.With(no, Interrupted(st.At(no))))
  {
  }

  /** Only two steps complete a message; every other step leaves the record alone. */
  lemma WrittenTurn(n: nat, c: Client, s: Shared)
    ensures var (c', s') := TurnOf(n, c, s);
      if c.pc == WriteText then
        s'.written == s.written + [Packet(s.cell.src, s.cell.dest, c.i + 1)] && Progress(c') == c.i + 1
      else if c.pc == InitText then s'.written == s.written + [Packet(s.cell.src, s.cell.dest, 0)] && Progress(c') == c.i
      else s'.written == s.written && Progress(c') >= Progress(c)
  {
  }

  /** Client c's reply keeps the numbering of c and of every other client o. */
  lemma ReplyNumbers(c: Client, c': Client, o: Client, w: seq<Packet>)
    requires NumbersOf(c, w) && NumbersOf(o, w) && Increasing(w) && o.no != c.no
    requires c'.no == c.no && Progress(c') == c.i + 1 && Progress(c) == c.i
    requires w != [] && w[0].num == 0
    ensures var w' := w + [Packet(c.no, Reply(c.no, c.i), c.i + 1)];
      NumbersOf(c', w') && NumbersOf(o, w') && Increasing(w')
  {
    forall j | 0 <= j < |w| && w[j].src == c.no ensures w[j].num < c.i + 1 {
      if j > 0 {
        assert w[j].num <= Progress(c);
      }
    }
  }

  lemma ReplyAssemble(st: State, no: ClientNo, c': Client, s': Shared)
    requires NumberInv(st) && st.c1.no == 1 && st.c2.no == 2 && st.c3.no == 3
    requires var c := st.At(no);
      c'.no == no && Progress(c') == c.i + 1 && Progress(c) == c.i
      && s'.written == st.shared.written + [Packet(no, Reply(no, c.i), c.i + 1)]
    requires st.shared.written != [] && st.shared.written[0].num == 0
    ensures NumberInv(st.(shared := s').With(no, c'))
  {
    var c, w := st.At(no), st.shared.written;
    if no == 1 {
      ReplyNumbers(c, c', st.c2, w);
      ReplyNumbers(c, c', st.c3, w);
    } else if no == 2 {
      ReplyNumbers(c, c', st.c1, w);
      ReplyNumbers(c, c', st.c3, w);
    } else {
      ReplyNumbers(c, c', st.c1, w);
      ReplyNumbers(c, c', st.c2, w);
    }
  }

  lemma ReplyReady(n: nat, st: State, no: ClientNo)
    requires Inv(n, st) && st.At(no).pc == WriteText
    ensures st.shared.cell.src == no && st.shared.cell.dest == Reply(no, st.At(no).i)
    ensures st.shared.written != [] && st.shared.written[0].num == 0
    ensures st.At(no).no == no && NumberInv(st) && st.c1.no == 1 && st.c2.no == 2 && st.c3.no == 3
  {
    if !Initialised(st.c3) {
      NobodyStarted(n, st);
    }
    assert CellView(st.At(no), st.shared);
  }

  lemma NumbersKeptByReply(n: nat, st: State, no: ClientNo)
    requires Inv(n, st) && st.At(no).pc == WriteText
    ensures NumberInv(Step(n, st, Turn(no)))
  {
    ReplyReady(n, st, no);
    WrittenTurn(n, st.At(no), st.shared);
    var (c', s') := TurnOf(n, st.At(no), st.shared);
    assert (c', s') == ExchangeStep(st.At(no), st.shared);
    ReplyAssemble(st, no, c', s');
    assert Step(n, st, Turn(no)) == st.(shared := s').With(no, c');
  }

  lemma NumbersKeptBySilence(st: State, no: ClientNo, c': Client, s': Shared)
    requires NumberInv(st) && s'.written == st.shared.written
    requires c'.no == st.At(no).no && Progress(c') >= Progress(st.At(no))
    ensures NumberInv(st.(shared := s').With(no, c'))
  {
    ProgressFrame(st.At(no), c', s'.written);
    if no == 1 {
    } else if no == 2 {
    } else {
    }
  }

  lemma ProgressFrame(c: Client, c': Client, w: seq<Packet>)
    requires NumbersOf(c, w) && c'.no == c.no && Progress(c') >= Progress(c)
    ensures NumbersOf(c', w)
  {
  }

  lemma NumbersKeptInitially(n: nat, st: State)
    requires Inv(n, st) && st.c3.pc == InitText
    ensures NumberInv(Step(n, st, Turn(3)))
  {
    NobodyStarted(n, st);
    WrittenTurn(n, st.c3, st.shared);
    assert Step(n, st, Turn(3)).shared.written == [Packet(3, 1, 0)];
  }

  lemma NumbersKeptSilently(n: nat, st: State, no: ClientNo)
    requires Inv(n, st) && st.At(no).pc != WriteText && st.At(no).pc != InitText
    ensures NumberInv(Step(n, st, Turn(no)))
  {
    var (c', s') := TurnOf(n, st.At(no), st.shared);
    WrittenTurn(n, st.At(no), st.shared);
    SameClient(n, st.At(no), st.shared);
    NumbersKeptBySilence(st, no, c', s');
    assert Step(n, st, Turn(no)) == st.(shared := s').With(no, c');
  }

  lemma SameClient(n: nat, c: Client, s: Shared)
    ensures TurnOf(n, c, s).0.no == c.no
  {
  }

  lemma NumbersKept(n: nat, st: State, a: Action)
    requires Inv(n, st)
    ensures NumberInv(Step(n, st, a))
  {
    match a
    case Turn(no) =>
      if st.At(no).pc == WriteText {
        NumbersKeptByReply(n, st, no);
      } else if st.At(no).pc == InitText {
        NumbersKeptInitially(n, st);
      } else {
        NumbersKeptSilently(n, st, no);
      }
    case Interrupt(no) =>
      NumbersKeptBySilence(st, no, Interrupted(st.At(no)), st.shared);
  }

  lemma StepKeeps(n: nat, st: State, a: Action)
    requires Inv(n, st)
    ensures Inv(n, Step(n, st, a))
  {
    ProgramsKept(n, st, 0, a);
    TokenKept(n, st, a);
    NumbersKept(n, st, a);
  }

  lemma {:induction false} RunKeeps(n: nat, st: State, schedule: seq<Action>)
    requires Inv(n, st)
    ensures Inv(n, Run(n, st, schedule))
  {
    if schedule != [] {
      RunKeeps(n, st, schedule[..|schedule| - 1]);
      StepKeeps(n, Run(n, st, schedule[..|schedule| - 1]), schedule[|schedule| - 1]);
    }
  }

  lemma InitInv(n: nat)
    ensures Inv(n, Init())
  {
  }

  lemma ReachableInv(n: nat, st: State)
    requires Reachable(n, st)
    ensures Inv(n, st)
  {
    var schedule :| st == Run(n, Init(), schedule);
    InitInv(n);
    RunKeeps(n, Init(), schedule);
  }
}

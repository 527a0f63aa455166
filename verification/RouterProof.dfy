/** Safety of the Lab8 router over every interleaving: conservation and order of the
    messages, the local queue's unlocked size test, and what reading Quit means. */
module RouterProof {
  import opened Sequences
  import opened KernelQueue
  import opened Text
  import opened Router

  // ---------------------------------------------------------------- projections

  /** Data (not Quit) the server has forwarded to client d. */
  function DataFor(d: ClientId): Message -> bool {
    (m: Message) => m.mtype == d && !IsQuit(m.buf.text)
  }

  /** Anything the server has forwarded. */
  function Forwarded(): Message -> bool {
    (m: Message) => 1 <= m.mtype <= 3 && !IsQuit(m.buf.text)
  }

  /** Requests to the server, addressed to d. */
  function AddressedTo(d: ClientId): Message -> bool {
    (m: Message) => m.mtype == 4 && m.buf.dest == d
  }

  /** Requests to the server, sent by s. */
  function SentBy(s: ClientId): Message -> bool {
    (m: Message) => m.mtype == 4 && m.buf.source == s
  }

  function ForDest(d: ClientId): MsgBuf -> bool {
    (b: MsgBuf) => b.dest == d
  }

  function FromSource(s: ClientId): MsgBuf -> bool {
    (b: MsgBuf) => b.source == s
  }

  /** What was really received, and what failed receives left behind. */
  function Genuine(): MsgBuf -> bool {
    (b: MsgBuf) => b.serial >= 0
  }

  function Stale(): MsgBuf -> bool {
    (b: MsgBuf) => b.serial < 0
  }

  // ---------------------------------------------------------- who holds a message

  function MainHand(c: Client): seq<MsgBuf> {
    match c.mainPc
    case Unlocking(b) => [b]
    case Printing(b) => [b]
    case _ => []
  }

  function RecvHand(c: Client): seq<MsgBuf> {
    match c.recvPc
    case Got(b) => if IsQuit(b.text) then [] else [b]
    case RWantLock(b) => [b]
    case RHasLock(b) => [b]
    case _ => []
  }

  /** What a client has taken for messages and has not lost, oldest first. */
  function Holdings(c: Client): seq<MsgBuf> {
    c.displayed + MainHand(c) + c.inbox + RecvHand(c)
  }

  /** ... and with what was lost when it ended. */
  function Collected(c: Client): seq<MsgBuf> {
    Holdings(c) + c.discarded
  }

  /** What msgsnd was asked to send: first what it has sent, then what it has refused. */
  function Offered(p: Message -> bool, k: Kernel): seq<MsgBuf> {
    Select(p, k.sent) + Select(p, k.refused)
  }

  function ServerHand(s: Server): seq<MsgBuf> {
    if s.pc == SHolding then [s.msg.buf] else []
  }

  /** What client `id` sends first, second, ... n-th. */
  function Dest(id: ClientId, j: nat): ClientId {
    if j % 2 == 0 then NextDest(id, 0) else NextDest(id, NextDest(id, 0))
  }

  function Nth(id: ClientId, pid: nat, j: nat): MsgBuf {
    MsgBuf(id, Dest(id, j), ClientText(pid, id), j)
  }

  function Stream(id: ClientId, pid: nat, n: nat): seq<MsgBuf> {
    if n == 0 then [] else Stream(id, pid, n - 1) + [Nth(id, pid, n - 1)]
  }

  // ------------------------------------------------------------------- invariants

  predicate WellTyped(m: Message) {
    && 1 <= m.mtype <= 4
    && (m.mtype == 4 ==> !IsQuit(m.buf.text))
    && (!IsQuit(m.buf.text) ==>
          1 <= m.buf.source <= 3 && 1 <= m.buf.dest <= 3 && m.buf.source != m.buf.dest && m.buf.serial >= 0
          && (m.mtype != 4 ==> m.buf.dest == m.mtype))
  }

  ghost predicate KernelInv(k: Kernel) {
    && Fifo(k)
    && (forall m | m in k.sent || m in k.refused :: WellTyped(m))
    && (forall m | m in k.queue :: m in k.sent)
  }

  predicate LockInv(c: Client) {
    && (c.lock == ByMain <==> c.mainPc == HasLock || c.mainPc.Unlocking?)
    && (c.lock == ByRecv <==> c.recvPc.RHasLock? || c.recvPc == RUnlocking)
    && (c.mainPc == WantLock || c.mainPc == HasLock ==> c.inbox != [])
    && c.mainPc != Crashed
  }

  predicate QuitReadInv(c: Client, k: Kernel) {
    if c.quitRead then
      || (c.recvPc.Got? && IsQuit(c.recvPc.hand.text))
      || (c.recvPc == RLoopHead && !c.isRunning)
      || c.recvPc == RExited
    else
      c.recvPc.Got? && IsQuit(c.recvPc.hand.text) ==> k.removed
  }

  /** A client that has ended has removed the queue, and only then has it lost anything. */
  predicate ExitInv(c: Client, k: Kernel) {
    if c.mainPc == Exited then c.recvPc == RExited && c.inbox == [] && k.removed else c.discarded == []
  }

  /** Failed receives: none before the removal, none after Quit. */
  predicate StaleInv(c: Client, k: Kernel) {
    c.staleReads > 0 ==> k.removed && !c.quitRead
  }

  /** The books of one client: what it has collected is what it was given, in order, and one
      more for each failed receive; what it has offered is its stream. */
  predicate Books(id: ClientId, pid: nat, sent: nat, staleReads: nat, collected: seq<MsgBuf>, k: Kernel) {
    && Select(DataFor(id), k.taken) == Filter(Genuine(), collected)
    && staleReads == |Filter(Stale(), collected)|
    && Offered(SentBy(id), k) == Stream(id, pid, sent)
  }

  ghost predicate ClientInv(c: Client, k: Kernel) {
    && LockInv(c)
    && QuitReadInv(c, k)
    && ExitInv(c, k)
    && StaleInv(c, k)
    && Books(c.id, c.pid, c.sent, c.staleReads, Collected(c), k)
    && c.dest == (if c.sent == 0 then 0 else Dest(c.id, c.sent - 1))
  }

  ghost predicate ServerInv(s: Server, k: Kernel) {
    && Select(OfType(4), k.taken) == Offered(Forwarded(), k) + ServerHand(s)
    && QuitsInv(s, k)
    && (s.pc == SHolding ==> s.msg.mtype == 4 && s.msg in k.sent)
  }

  /** How many Quits have been sent at each point of the server. */
  predicate QuitsInv(s: Server, k: Kernel) {
    && (s.pc.SQuit? ==> 1 <= s.pc.i <= 4 && (!k.removed ==> s.quits == s.pc.i - 1))
    && (s.pc.SLoopHead? || s.pc.SPolling? || s.pc.SHolding? ==> s.quits == 0)
    && (s.pc.SQuit? || s.pc.SDone? ==> !s.isRunning)
  }

  /** Has the server already sent Quit to client d? */
  predicate QuitSent(s: Server, d: ClientId) {
    s.quits >= d
  }

  /** No Quit in a per-type queue, except as its last element when `last`. */
  predicate QuitOnlyLast(q: seq<Message>, last: bool) {
    && (last ==> q != [] && IsQuit(q[|q| - 1].buf.text))
    && forall i | 0 <= i < |q| - (if last then 1 else 0) :: !IsQuit(q[i].buf.text)
  }

  ghost predicate QuitInv(c: Client, s: Server, k: Kernel) {
    var q := Filter(OfType(c.id), k.queue);
    if c.quitRead then QuitSent(s, c.id) && q == [] && Filter(OfType(c.id), k.destroyed) == []
    else k.removed || QuitOnlyLast(q, QuitSent(s, c.id))
  }

  ghost predicate ClientOk(st: State, id: ClientId) {
    st.At(id).id == id && ClientInv(st.At(id), st.kernel) && QuitInv(st.At(id), st.server, st.kernel)
  }

  ghost predicate ClientsInv(st: State) {
    forall id: ClientId :: ClientOk(st, id)
  }

  ghost predicate Inv(st: State) {
    KernelInv(st.kernel) && ServerInv(st.server, st.kernel) && ClientsInv(st)
  }

  // ------------------------------------------------------------- small facts

  lemma DataIsNotQuit(pid: nat, id: ClientId)
    ensures !IsQuit(ClientText(pid, id))
  {
    assert ClientText(pid, id)[0] == Decimal(pid)[0];
    assert Decimal(pid)[0] in Decimal(pid);
  }

  lemma NthIsNext(id: ClientId, j: nat)
    ensures Dest(id, j) == NextDest(id, if j == 0 then 0 else Dest(id, j - 1))
    ensures Dest(id, j) != id
  {
  }

  lemma PostedKernelInv(k: Kernel, m: Message)
    requires KernelInv(k) && WellTyped(m)
    ensures KernelInv(Post(k, m))
  {
    PostKeepsFifo(k, m);
  }

  lemma RemovedKernelInv(k: Kernel)
    requires KernelInv(k)
    ensures KernelInv(Remove(k))
  {
    RemoveKeepsFifo(k);
  }

  lemma OfferedPost(p: Message -> bool, k: Kernel, m: Message)
    requires Lifecycle(k)
    ensures Offered(p, Post(k, m)) == Offered(p, k) + (if p(m) then [m.buf] else [])
  {
    var more := if p(m) then [m.buf] else [];
    if k.removed {
      SelectSnoc(p, k.refused, m);
      ConcatAssoc(Select(p, k.sent), Select(p, k.refused), more);
    } else {
      SelectSnoc(p, k.sent, m);
    }
  }

  lemma TakenKernelInv(k: Kernel, t: int)
    requires KernelInv(k) && HasType(k, t)
    ensures KernelInv(Take(k, t)) && Head(k, t) in k.sent
  {
    TakeKeepsFifo(k, t);
  }

  lemma SelectSnoc(p: Message -> bool, ms: seq<Message>, m: Message)
    ensures Select(p, ms + [m]) == Select(p, ms) + (if p(m) then [m.buf] else [])
  {
    SelectConcat(p, ms, [m]);
  }

  lemma FilterSnoc(p: Message -> bool, ms: seq<Message>, m: Message)
    ensures Filter(p, ms + [m]) == Filter(p, ms) + (if p(m) then [m] else [])
  {
    FilterConcat(p, ms, [m]);
  }

  // ------------------------------- what a kernel operation means to one client

  lemma BooksPost(id: ClientId, pid: nat, sent: nat, staleReads: nat, collected: seq<MsgBuf>, k: Kernel, m: Message)
    requires Books(id, pid, sent, staleReads, collected, k) && Lifecycle(k) && !SentBy(id)(m)
    ensures Books(id, pid, sent, staleReads, collected, Post(k, m))
  {
    OfferedPost(SentBy(id), k, m);
  }

  /** A client is not affected by a message of type 4 that another client sends. */
  lemma RequestFrame(c: Client, s: Server, k: Kernel, m: Message)
    requires ClientInv(c, k) && QuitInv(c, s, k) && Lifecycle(k)
    requires m.mtype == 4 && m.buf.source != c.id
    ensures ClientInv(c, Post(k, m)) && QuitInv(c, s, Post(k, m))
  {
    BooksPost(c.id, c.pid, c.sent, c.staleReads, Collected(c), k, m);
    RequestQuit(c, c, s, k, m);
  }

  /** A request does not change a client's per-type queue. */
  lemma RequestQuit(c: Client, c': Client, s: Server, k: Kernel, m: Message)
    requires QuitInv(c, s, k) && c'.id == c.id && c'.quitRead == c.quitRead && m.mtype == 4
    ensures QuitInv(c', s, Post(k, m))
  {
    FilterSnoc(OfType(c.id), k.queue, m);
  }

  /** The server's writes: data for any client, or the Quit that is due. */
  predicate Due(c: Client, s: Server, s': Server, k: Kernel, m: Message) {
    && m.mtype != 4
    && if k.removed then s'.quits == s.quits
       else if m.mtype == c.id then !QuitSent(s, c.id) && (QuitSent(s', c.id) <==> IsQuit(m.buf.text))
       else QuitSent(s', c.id) <==> QuitSent(s, c.id)
  }

  lemma DeliveryQuit(c: Client, s: Server, s': Server, k: Kernel, m: Message)
    requires QuitInv(c, s, k) && Due(c, s, s', k, m)
    ensures QuitInv(c, s', Post(k, m))
  {
    FilterSnoc(OfType(c.id), k.queue, m);
  }

  lemma DeliveryFrame(c: Client, s: Server, s': Server, k: Kernel, m: Message)
    requires ClientInv(c, k) && QuitInv(c, s, k) && Lifecycle(k) && Due(c, s, s', k, m)
    ensures ClientInv(c, Post(k, m)) && QuitInv(c, s', Post(k, m))
  {
    BooksPost(c.id, c.pid, c.sent, c.staleReads, Collected(c), k, m);
    DeliveryQuit(c, s, s', k, m);
  }

  /** The removal of the queue. */
  lemma RemoveFrame(c: Client, s: Server, k: Kernel)
    requires ClientInv(c, k) && QuitInv(c, s, k)
    ensures ClientInv(c, Remove(k)) && QuitInv(c, s, Remove(k))
  {
    FilterConcat(OfType(c.id), k.destroyed, k.queue);
  }

  /** A receive of another type leaves the client's projections alone. */
  lemma OtherTakeFrame(c: Client, s: Server, k: Kernel, t: int)
    requires ClientInv(c, k) && QuitInv(c, s, k) && HasType(k, t) && t != c.id
    ensures ClientInv(c, Take(k, t)) && QuitInv(c, s, Take(k, t))
  {
    SelectSnoc(DataFor(c.id), k.taken, Head(k, t));
    TakeIsFifo(k, t, c.id);
  }

  // ------------------------------------------------- one client's own steps

  /** What a step that touches neither histories nor holdings leaves intact. */
  lemma LocalFrame(c: Client, c': Client, s: Server, k: Kernel)
    requires ClientInv(c, k) && QuitInv(c, s, k)
    requires c'.id == c.id && c'.pid == c.pid && c'.sent == c.sent && c'.dest == c.dest
    requires c'.quitRead == c.quitRead && c'.staleReads == c.staleReads
    requires Collected(c') == Collected(c) && LockInv(c') && QuitReadInv(c', k) && ExitInv(c', k)
    ensures ClientInv(c', k) && QuitInv(c', s, k)
  {
    LocalClient(c, c', k);
    QuitSame(c, c', s, k);
  }

  lemma LocalClient(c: Client, c': Client, k: Kernel)
    requires ClientInv(c, k)
    requires c'.id == c.id && c'.pid == c.pid && c'.sent == c.sent && c'.dest == c.dest
    requires c'.quitRead == c.quitRead && c'.staleReads == c.staleReads
    requires Collected(c') == Collected(c) && LockInv(c') && QuitReadInv(c', k) && ExitInv(c', k)
    ensures ClientInv(c', k)
  {
  }

  lemma QuitSame(c: Client, c': Client, s: Server, k: Kernel)
    requires QuitInv(c, s, k) && c'.id == c.id && c'.quitRead == c.quitRead
    ensures QuitInv(c', s, k)
  {
  }

  lemma TakeHead<T>(a: seq<T>, s: seq<T>, d: seq<T>)
    requires s != []
    ensures a + [] + s + d == a + [s[0]] + s[1..] + d
  {
    assert s == [s[0]] + s[1..];
  }

  lemma MoveOn<T>(a: seq<T>, x: T, s: seq<T>, d: seq<T>)
    ensures a + [x] + s + d == (a + [x]) + [] + s + d
  {
  }

  /** Does the step end the process? */
  predicate Leaves(c: Client) {
    c.mainPc == Joining && c.recvPc == RExited
  }

  lemma MainKeepsHoldings(c: Client, k: Kernel)
    requires !Leaves(c)
    ensures Holdings(MainStep(c, k).0) == Holdings(c) && MainStep(c, k).0.discarded == c.discarded
  {
    if c.mainPc == HasLock && c.inbox != [] {
      TakeHead(c.displayed, c.inbox, RecvHand(c));
    } else if c.mainPc.Printing? {
      MoveOn(c.displayed, c.mainPc.hand, c.inbox, RecvHand(c));
    }
  }

  lemma LeavingKeepsCollected(c: Client, k: Kernel)
    requires Leaves(c) && ExitInv(c, k)
    ensures Collected(MainStep(c, k).0) == Collected(c)
  {
  }

  lemma MainKeepsCollected(c: Client, k: Kernel)
    requires ExitInv(c, k)
    ensures Collected(MainStep(c, k).0) == Collected(c)
  {
    if Leaves(c) {
      LeavingKeepsCollected(c, k);
    } else {
      MainKeepsHoldings(c, k);
    }
  }

  lemma MainKeepsLock(c: Client, k: Kernel)
    requires LockInv(c) && QuitReadInv(c, k) && ExitInv(c, k)
    ensures LockInv(MainStep(c, k).0) && QuitReadInv(MainStep(c, k).0, k) && ExitInv(MainStep(c, k).0, MainStep(c, k).1)
  {
  }

  lemma MainLocal(c: Client, s: Server, k: Kernel)
    requires ClientInv(c, k) && QuitInv(c, s, k) && c.mainPc != Sending
    ensures MainStep(c, k).1 == k || MainStep(c, k).1 == Remove(k)
    ensures MainStep(c, k).0.id == c.id
    ensures ClientInv(MainStep(c, k).0, MainStep(c, k).1) && QuitInv(MainStep(c, k).0, s, MainStep(c, k).1)
  {
    var (c', k') := MainStep(c, k);
    MainKeepsCollected(c, k);
    MainKeepsLock(c, k);
    MainKeepsRest(c, k);
    RemoveFrame(c, s, k);
    LocalFrame(c, c', s, k');
  }

  lemma MainKeepsRest(c: Client, k: Kernel)
    requires c.mainPc != Sending
    ensures var (c', k') := MainStep(c, k);
      && (k' == k || k' == Remove(k))
      && c'.id == c.id && c'.pid == c.pid && c'.sent == c.sent && c'.dest == c.dest
      && c'.quitRead == c.quitRead && c'.staleReads == c.staleReads
  {
  }

  /** What a send adds to the client's stream. */
  lemma MainSendStream(c: Client, k: Kernel)
    requires Lifecycle(k) && Offered(SentBy(c.id), k) == Stream(c.id, c.pid, c.sent)
    ensures Offered(SentBy(c.id), Post(k, Message(4, Nth(c.id, c.pid, c.sent)))) == Stream(c.id, c.pid, c.sent + 1)
  {
    OfferedPost(SentBy(c.id), k, Message(4, Nth(c.id, c.pid, c.sent)));
  }

  lemma MainSendStep(c: Client, k: Kernel)
    requires c.mainPc == Sending && c.dest == (if c.sent == 0 then 0 else Dest(c.id, c.sent - 1))
    ensures MainStep(c, k) == (c.(dest := Dest(c.id, c.sent), sent := c.sent + 1, mainPc := LoopHead),
                               Post(k, Message(4, Nth(c.id, c.pid, c.sent))))
  {
    NthIsNext(c.id, c.sent);
  }

  lemma MainSendAssemble(c: Client, c': Client, k: Kernel, k': Kernel)
    requires ClientInv(c, k) && k'.taken == k.taken && k'.removed == k.removed
    requires c' == c.(dest := c'.dest, sent := c'.sent, mainPc := c'.mainPc)
    requires Collected(c') == Collected(c) && LockInv(c') && QuitReadInv(c', k) && ExitInv(c', k)
    requires Offered(SentBy(c.id), k') == Stream(c.id, c.pid, c'.sent)
    requires c'.dest == if c'.sent == 0 then 0 else Dest(c.id, c'.sent - 1)
    ensures ClientInv(c', k')
  {
    assert c'.id == c.id && c'.pid == c.pid && c'.staleReads == c.staleReads;
    assert StaleInv(c', k') && QuitReadInv(c', k') && ExitInv(c', k');
  }

  lemma MainSend(c: Client, s: Server, k: Kernel)
    requires ClientInv(c, k) && QuitInv(c, s, k) && Lifecycle(k) && c.mainPc == Sending
    ensures MainStep(c, k).1 == Post(k, Message(4, Nth(c.id, c.pid, c.sent)))
    ensures ClientInv(MainStep(c, k).0, MainStep(c, k).1) && QuitInv(MainStep(c, k).0, s, MainStep(c, k).1)
  {
    var m := Message(4, Nth(c.id, c.pid, c.sent));
    MainSendStep(c, k);
    MainSendStream(c, k);
    MainKeepsCollected(c, k);
    MainKeepsLock(c, k);
    MainSendAssemble(c, MainStep(c, k).0, k, Post(k, m));
    RequestQuit(c, MainStep(c, k).0, s, k, m);
  }

  lemma RecvMoves(c: Client, k: Kernel, unwritten: MsgBuf)
    requires LockInv(c) && QuitReadInv(c, k) && ExitInv(c, k) && (c.recvPc != Receiving || (!k.removed && !HasType(k, c.id)))
    ensures var c' := RecvStep(c, k, unwritten).0;
      Collected(c') == Collected(c) && Holdings(c') == Holdings(c) && LockInv(c') && QuitReadInv(c', k) && ExitInv(c', k)
  {
  }

  lemma RecvLocal(c: Client, s: Server, k: Kernel, unwritten: MsgBuf)
    requires ClientInv(c, k) && QuitInv(c, s, k)
    requires c.recvPc != Receiving || (!k.removed && !HasType(k, c.id))
    ensures RecvStep(c, k, unwritten).1 == k && RecvStep(c, k, unwritten).0.id == c.id
    ensures ClientInv(RecvStep(c, k, unwritten).0, k) && QuitInv(RecvStep(c, k, unwritten).0, s, k)
  {
    RecvMoves(c, k, unwritten);
    LocalFrame(c, RecvStep(c, k, unwritten).0, s, k);
  }

  /** One more message in the holdings, genuine or not. */
  lemma OneMoreHeld(held: seq<MsgBuf>, b: MsgBuf)
    ensures Filter(Genuine(), held + [b]) == Filter(Genuine(), held) + (if b.serial >= 0 then [b] else [])
    ensures |Filter(Stale(), held + [b])| == |Filter(Stale(), held)| + (if b.serial < 0 then 1 else 0)
  {
    FilterConcat(Genuine(), held, [b]);
    FilterConcat(Stale(), held, [b]);
  }

  /** While the receive thread is at work nothing has been discarded. */
  lemma NotYetDiscarded(c: Client, k: Kernel)
    requires ExitInv(c, k) && c.recvPc != RExited
    ensures c.discarded == [] && Collected(c) == Holdings(c)
  {
  }

  /** A failed receive: what the variable contains is taken for a message. */
  lemma RecvStaleCollects(c: Client, k: Kernel, unwritten: MsgBuf)
    requires c.recvPc == Receiving && k.removed && ExitInv(c, k)
    ensures var c', b := RecvStep(c, k, unwritten).0, unwritten.(serial := -1);
      && Filter(Genuine(), Collected(c')) == Filter(Genuine(), Collected(c))
      && |Filter(Stale(), Collected(c'))| == |Filter(Stale(), Collected(c))| + (if IsQuit(b.text) then 0 else 1)
  {
    var c' := RecvStep(c, k, unwritten).0;
    Append(c.displayed + MainHand(c) + c.inbox, RecvHand(c'));
    NotYetDiscarded(c, k);
    NotYetDiscarded(c', k);
    OneMoreHeld(Holdings(c), unwritten.(serial := -1));
  }

  lemma RecvStaleStep(c: Client, k: Kernel, unwritten: MsgBuf)
    requires c.recvPc == Receiving && k.removed && LockInv(c) && QuitReadInv(c, k) && ExitInv(c, k)
    ensures var (c', k') := RecvStep(c, k, unwritten);
      && k' == k && LockInv(c') && QuitReadInv(c', k) && ExitInv(c', k) && !c'.quitRead && !c.quitRead
      && c' == c.(recvPc := c'.recvPc, staleReads := c.staleReads + (if IsQuit(unwritten.text) then 0 else 1))
  {
  }

  lemma RecvStaleAssemble(c: Client, c': Client, k: Kernel)
    requires ClientInv(c, k) && k.removed && !c'.quitRead
    requires c' == c.(recvPc := c'.recvPc, staleReads := c'.staleReads)
    requires LockInv(c') && QuitReadInv(c', k) && ExitInv(c', k)
    requires Filter(Genuine(), Collected(c')) == Filter(Genuine(), Collected(c))
    requires c'.staleReads == |Filter(Stale(), Collected(c'))|
    ensures ClientInv(c', k)
  {
    assert c'.id == c.id && c'.pid == c.pid && c'.sent == c.sent && c'.dest == c.dest;
    assert Books(c'.id, c'.pid, c'.sent, c'.staleReads, Collected(c'), k);
  }

  lemma RecvStale(c: Client, s: Server, k: Kernel, unwritten: MsgBuf)
    requires ClientInv(c, k) && QuitInv(c, s, k)
    requires c.recvPc == Receiving && k.removed
    ensures RecvStep(c, k, unwritten).1 == k && RecvStep(c, k, unwritten).0.id == c.id
    ensures ClientInv(RecvStep(c, k, unwritten).0, k) && QuitInv(RecvStep(c, k, unwritten).0, s, k)
  {
    RecvStaleStep(c, k, unwritten);
    RecvStaleCollects(c, k, unwritten);
    QuitSame(c, RecvStep(c, k, unwritten).0, s, k);
    RecvStaleAssemble(c, RecvStep(c, k, unwritten).0, k);
  }

  lemma Append<T>(a: seq<T>, d: seq<T>)
    ensures a + [] + d == a + d
  {
  }

  /** What a received message adds to the holdings. */
  lemma RecvTakeHoldings(c: Client, k: Kernel, unwritten: MsgBuf)
    requires c.recvPc == Receiving && !k.removed && HasType(k, c.id)
    ensures var b := Head(k, c.id).buf;
      Holdings(RecvStep(c, k, unwritten).0) == Holdings(c) + (if IsQuit(b.text) then [] else [b])
  {
    Append(c.displayed + MainHand(c) + c.inbox, RecvHand(RecvStep(c, k, unwritten).0));
  }

  /** What a received message leaves in the client's per-type queue. */
  lemma RecvTakeQuit(c: Client, s: Server, k: Kernel, unwritten: MsgBuf)
    requires ClientInv(c, k) && QuitInv(c, s, k) && Lifecycle(k)
    requires c.recvPc == Receiving && !k.removed && HasType(k, c.id)
    ensures QuitInv(RecvStep(c, k, unwritten).0, s, Take(k, c.id))
  {
    var q := Filter(OfType(c.id), k.queue);
    TakeIsFifo(k, c.id, c.id);
    assert q[0] == Head(k, c.id);
    assert Filter(OfType(c.id), Take(k, c.id).queue) == q[1..];
    assert Filter(OfType(c.id), k.destroyed) == [];
    QuitOnlyLastTail(q, QuitSent(s, c.id));
  }

  lemma QuitOnlyLastTail(q: seq<Message>, last: bool)
    requires QuitOnlyLast(q, last) && q != []
    ensures if IsQuit(q[0].buf.text) then last && q[1..] == [] else QuitOnlyLast(q[1..], last)
  {
  }

  /** What it means to the client's share of what has been received. */
  lemma RecvTakeShare(c: Client, k: Kernel, unwritten: MsgBuf)
    requires ClientInv(c, k)
    requires c.recvPc == Receiving && !k.removed && HasType(k, c.id) && WellTyped(Head(k, c.id))
    ensures var c' := RecvStep(c, k, unwritten).0;
      && Select(DataFor(c.id), Take(k, c.id).taken) == Filter(Genuine(), Collected(c'))
      && |Filter(Stale(), Collected(c'))| == c.staleReads == 0
  {
    var m := Head(k, c.id);
    SelectSnoc(DataFor(c.id), k.taken, m);
    RecvTakeHoldings(c, k, unwritten);
    NotYetDiscarded(c, k);
    NotYetDiscarded(RecvStep(c, k, unwritten).0, k);
    OneMoreHeld(Holdings(c), m.buf);
  }

  lemma RecvTakeLocks(c: Client, k: Kernel, unwritten: MsgBuf)
    requires LockInv(c) && QuitReadInv(c, k) && ExitInv(c, k) && c.recvPc == Receiving && !k.removed && HasType(k, c.id)
    ensures !c.quitRead
    ensures var c', m := RecvStep(c, k, unwritten).0, Head(k, c.id);
      && LockInv(c') && QuitReadInv(c', k) && ExitInv(c', k)
      && c' == c.(recvPc := Got(m.buf), quitRead := c.quitRead || IsQuit(m.buf.text))
  {
  }

  lemma RecvTakeClient(c: Client, k: Kernel, unwritten: MsgBuf)
    requires ClientInv(c, k)
    requires c.recvPc == Receiving && !k.removed && HasType(k, c.id) && WellTyped(Head(k, c.id))
    ensures ClientInv(RecvStep(c, k, unwritten).0, Take(k, c.id))
  {
    RecvTakeShare(c, k, unwritten);
    RecvTakeLocks(c, k, unwritten);
    RecvTakeAssemble(c, RecvStep(c, k, unwritten).0, k, Take(k, c.id));
  }

  lemma RecvTakeAssemble(c: Client, c': Client, k: Kernel, k': Kernel)
    requires ClientInv(c, k) && k'.sent == k.sent && k'.removed == k.removed && k'.refused == k.refused
    requires c' == c.(recvPc := c'.recvPc, quitRead := c'.quitRead)
    requires LockInv(c') && QuitReadInv(c', k) && ExitInv(c', k)
    requires Select(DataFor(c.id), k'.taken) == Filter(Genuine(), Collected(c'))
    requires |Filter(Stale(), Collected(c'))| == c.staleReads == 0
    ensures ClientInv(c', k')
  {
    assert c'.id == c.id && c'.pid == c.pid && c'.sent == c.sent && c'.dest == c.dest && c'.staleReads == c.staleReads;
    assert StaleInv(c', k') && QuitReadInv(c', k');
  }

  lemma RecvTake(c: Client, s: Server, k: Kernel, unwritten: MsgBuf)
    requires ClientInv(c, k) && QuitInv(c, s, k) && Lifecycle(k)
    requires c.recvPc == Receiving && !k.removed && HasType(k, c.id) && WellTyped(Head(k, c.id))
    ensures RecvStep(c, k, unwritten).1 == Take(k, c.id)
    ensures ClientInv(RecvStep(c, k, unwritten).0, Take(k, c.id)) && QuitInv(RecvStep(c, k, unwritten).0, s, Take(k, c.id))
  {
    RecvTakeClient(c, k, unwritten);
    RecvTakeQuit(c, s, k, unwritten);
  }

  // ---------------------------------------------------- every step keeps Inv

  /** Putting one client's new variables and a new kernel state together. */
  lemma Assemble(st: State, id: ClientId, c: Client, k: Kernel)
    requires KernelInv(k) && ServerInv(st.server, k)
    requires c.id == id && ClientInv(c, k) && QuitInv(c, st.server, k)
    requires forall o: ClientId | o != id :: st.At(o).id == o && ClientInv(st.At(o), k) && QuitInv(st.At(o), st.server, k)
    ensures Inv(st.(kernel := k).With(id, c))
  {
    var st' := st.(kernel := k).With(id, c);
    forall o: ClientId ensures ClientOk(st', o) {
      WithSeen(st, id, c, k, o);
    }
    WithSeen(st, id, c, k, id);
  }

  lemma WithSeen(st: State, id: ClientId, c: Client, k: Kernel, o: ClientId)
    ensures var st' := st.(kernel := k).With(id, c);
      st'.At(o) == (if o == id then c else st.At(o)) && st'.kernel == k && st'.server == st.server
  {
  }

  /** The other processes when nothing happens to the queue, or it is removed. */
  lemma RemovedFrame(st: State, k: Kernel)
    requires Inv(st) && (k == st.kernel || k == Remove(st.kernel))
    ensures KernelInv(k) && ServerInv(st.server, k)
    ensures forall o: ClientId :: st.At(o).id == o && ClientInv(st.At(o), k) && QuitInv(st.At(o), st.server, k)
  {
    RemovedKernelInv(st.kernel);
    forall o: ClientId ensures st.At(o).id == o && ClientInv(st.At(o), k) && QuitInv(st.At(o), st.server, k) {
      assert ClientOk(st, o);
      RemoveFrame(st.At(o), st.server, st.kernel);
    }
  }

  lemma RequestKeeps(st: State, id: ClientId, m: Message)
    requires Inv(st) && WellTyped(m) && m.mtype == 4 && m.buf.source == id
    ensures KernelInv(Post(st.kernel, m)) && ServerInv(st.server, Post(st.kernel, m))
    ensures forall o: ClientId | o != id :: st.At(o).id == o && ClientInv(st.At(o), Post(st.kernel, m)) && QuitInv(st.At(o), st.server, Post(st.kernel, m))
  {
    PostedKernelInv(st.kernel, m);
    OfferedPost(Forwarded(), st.kernel, m);
    forall o: ClientId | o != id
      ensures st.At(o).id == o && ClientInv(st.At(o), Post(st.kernel, m)) && QuitInv(st.At(o), st.server, Post(st.kernel, m))
    {
      assert ClientOk(st, o);
      RequestFrame(st.At(o), st.server, st.kernel, m);
    }
  }

  lemma MainSendKeeps(st: State, id: ClientId)
    requires Inv(st) && st.At(id).mainPc == Sending
    ensures Inv(Step(st, MainTurn(id)))
  {
    var c, k := st.At(id), st.kernel;
    assert ClientOk(st, id);
    MainSend(c, st.server, k);
    DataIsNotQuit(c.pid, id);
    NthIsNext(id, c.sent);
    var m := Message(4, Nth(id, c.pid, c.sent));
    assert WellTyped(m);
    RequestKeeps(st, id, m);
    Assemble(st, id, MainStep(c, k).0, Post(k, m));
  }

  lemma MainKeeps(st: State, id: ClientId)
    requires Inv(st)
    ensures Inv(Step(st, MainTurn(id)))
  {
    var c, s, k := st.At(id), st.server, st.kernel;
    assert ClientOk(st, id);
    if c.mainPc == Sending {
      MainSendKeeps(st, id);
    } else {
      MainLocal(c, s, k);
      RemovedFrame(st, MainStep(c, k).1);
      Assemble(st, id, MainStep(c, k).0, MainStep(c, k).1);
    }
  }

  lemma DeliveredKeeps(st: State, id: ClientId)
    requires Inv(st) && HasType(st.kernel, id)
    ensures KernelInv(Take(st.kernel, id)) && ServerInv(st.server, Take(st.kernel, id))
    ensures forall o: ClientId | o != id :: st.At(o).id == o && ClientInv(st.At(o), Take(st.kernel, id)) && QuitInv(st.At(o), st.server, Take(st.kernel, id))
  {
    TakenKernelInv(st.kernel, id);
    SelectSnoc(OfType(4), st.kernel.taken, Head(st.kernel, id));
    forall o: ClientId | o != id
      ensures st.At(o).id == o && ClientInv(st.At(o), Take(st.kernel, id)) && QuitInv(st.At(o), st.server, Take(st.kernel, id))
    {
      assert ClientOk(st, o);
      OtherTakeFrame(st.At(o), st.server, st.kernel, id);
    }
  }

  lemma RecvKeeps(st: State, id: ClientId, unwritten: MsgBuf)
    requires Inv(st)
    ensures Inv(Step(st, RecvTurn(id, unwritten)))
  {
    var c, s, k := st.At(id), st.server, st.kernel;
    assert ClientOk(st, id);
    if c.recvPc == Receiving && !k.removed && HasType(k, id) {
      assert WellTyped(Head(k, id));
      RecvTake(c, s, k, unwritten);
      DeliveredKeeps(st, id);
    } else {
      if c.recvPc == Receiving && k.removed {
        RecvStale(c, s, k, unwritten);
      } else {
        RecvLocal(c, s, k, unwritten);
      }
      RemovedFrame(st, k);
    }
    var next := RecvStep(c, k, unwritten);
    Assemble(st, id, next.0, next.1);
  }

  lemma ServerTakeKeeps(st: State)
    requires Inv(st) && st.server.pc == SPolling && HasType(st.kernel, 4)
    ensures Inv(st.(kernel := Take(st.kernel, 4), server := st.server.(pc := SHolding, msg := Head(st.kernel, 4))))
  {
    var k := st.kernel;
    var st' := st.(kernel := Take(k, 4), server := st.server.(pc := SHolding, msg := Head(k, 4)));
    TakenKernelInv(k, 4);
    SelectSnoc(OfType(4), k.taken, Head(k, 4));
    forall o: ClientId ensures ClientOk(st', o) {
      assert ClientOk(st, o);
      OtherTakeFrame(st.At(o), st.server, k, 4);
      assert st'.At(o) == st.At(o);
    }
  }

  lemma ServerSendKeeps(st: State)
    requires Inv(st)
    requires st.server.pc == SHolding || (st.server.pc.SQuit? && st.server.pc.i <= 3)
    ensures Inv(Step(st, ServerTurn))
  {
    var s, k := st.server, st.kernel;
    var s' := ServerStep(s, k).0;
    var m := s'.msg;
    assert ServerStep(s, k).1 == Post(k, m) && WellTyped(m);
    PostedKernelInv(k, m);
    ServerSendOwn(st);
    var st' := st.(kernel := Post(k, m), server := s');
    assert Step(st, ServerTurn) == st';
    forall o: ClientId ensures ClientOk(st', o) {
      assert ClientOk(st, o);
      DeliveryFrame(st.At(o), s, s', k, m);
      assert st'.At(o) == st.At(o);
    }
  }

  lemma ServerSendOwn(st: State)
    requires Inv(st)
    requires st.server.pc == SHolding || (st.server.pc.SQuit? && st.server.pc.i <= 3)
    ensures ServerInv(ServerStep(st.server, st.kernel).0, ServerStep(st.server, st.kernel).1)
  {
    OfferedPost(Forwarded(), st.kernel, ServerStep(st.server, st.kernel).0.msg);
  }

  /** A server step that neither sends nor receives. */
  lemma ServerIdleKeeps(st: State, s: Server, k: Kernel)
    requires Inv(st) && (k == st.kernel || k == Remove(st.kernel))
    requires ServerHand(s) == ServerHand(st.server) && (s.pc == SHolding ==> s.msg == st.server.msg)
    requires QuitsInv(s, k) && s.quits == st.server.quits
    ensures Inv(st.(kernel := k, server := s))
  {
    RemovedFrame(st, k);
    var st' := st.(kernel := k, server := s);
    forall o: ClientId ensures ClientOk(st', o) {
      assert st'.At(o) == st.At(o);
      QuitsFrame(st.At(o), st.server, s, k);
    }
  }

  lemma QuitsFrame(c: Client, s: Server, s': Server, k: Kernel)
    requires QuitInv(c, s, k) && s'.quits == s.quits
    ensures QuitInv(c, s', k)
  {
  }

  lemma ServerKeeps(st: State)
    requires Inv(st)
    ensures Inv(Step(st, ServerTurn))
  {
    var s, k := st.server, st.kernel;
    if !k.removed && s.pc == SPolling && HasType(k, 4) {
      ServerTakeKeeps(st);
    } else if s.pc == SHolding || (s.pc.SQuit? && s.pc.i <= 3) {
      ServerSendKeeps(st);
    } else {
      ServerIdleKeeps(st, ServerStep(s, k).0, ServerStep(s, k).1);
    }
  }

  lemma InterruptClientKeeps(st: State, id: ClientId)
    requires Inv(st)
    ensures Inv(st.With(id, st.At(id).(isRunning := false)))
  {
    RemovedFrame(st, st.kernel);
    assert ClientOk(st, id);
    LocalFrame(st.At(id), st.At(id).(isRunning := false), st.server, st.kernel);
    Assemble(st, id, st.At(id).(isRunning := false), st.kernel);
  }

  lemma StepKeeps(st: State, a: Action)
    requires Inv(st)
    ensures Inv(Step(st, a))
  {
    match a
    case MainTurn(id) => MainKeeps(st, id);
    case RecvTurn(id, unwritten) => RecvKeeps(st, id, unwritten);
    case ServerTurn => ServerKeeps(st);
    case InterruptClient(id) => InterruptClientKeeps(st, id);
    case InterruptServer => ServerIdleKeeps(st, st.server.(isRunning := false), st.kernel);
  }

  lemma {:induction false} RunKeeps(st: State, schedule: seq<Action>)
    requires Inv(st)
    ensures Inv(Run(st, schedule))
  {
    if schedule != [] {
      RunKeeps(st, schedule[..|schedule| - 1]);
      StepKeeps(Run(st, schedule[..|schedule| - 1]), schedule[|schedule| - 1]);
    }
  }

  lemma InitInv(pids: (nat, nat, nat), junk: Message)
    ensures Inv(Init(pids, junk))
  {
    var st := Init(pids, junk);
    forall id: ClientId ensures ClientOk(st, id) {
      assert st.At(id) == InitClient(id, if id == 1 then pids.0 else if id == 2 then pids.1 else pids.2);
    }
  }

  lemma ReachableInv(st: State)
    requires Reachable(st)
    ensures Inv(st)
  {
    var pids, junk, schedule :| ReachedBy(st, pids, junk, schedule);
    InitInv(pids, junk);
    RunKeeps(Init(pids, junk), schedule);
  }
}

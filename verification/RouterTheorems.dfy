/** The main results about the Lab8 router, for every reachable state. */
module RouterTheorems {
  import opened Sequences
  import opened KernelQueue
  import opened Router
  import opened RouterProof

  /** What the clients have asked the server to deliver to d: first the requests that were
      sent, in order, then those that msgsnd has refused. */
  function Requests(st: State, d: ClientId): seq<MsgBuf> {
    Offered(AddressedTo(d), st.kernel)
  }

  /** What is addressed to d, nearest its destination first: printed, in the main loop's
      hand, in the local queue, in the receive thread's hand (these are what d holds), in the
      kernel queue as type d, in the server's hand, in the kernel queue as type 4. */
  function Pipeline(st: State, d: ClientId): seq<MsgBuf> {
    Holdings(st.At(d)) + (Queued(st, d) + AtServer(st, d) + Waiting(st, d))
  }

  function Queued(st: State, d: ClientId): seq<MsgBuf> {
    Select(DataFor(d), st.kernel.queue)
  }

  function AtServer(st: State, d: ClientId): seq<MsgBuf> {
    Filter(ForDest(d), ServerHand(st.server))
  }

  function Waiting(st: State, d: ClientId): seq<MsgBuf> {
    Select(AddressedTo(d), st.kernel.queue)
  }

  /** What d had really received and not displayed when it ended. */
  function LostByClient(st: State, d: ClientId): seq<MsgBuf> {
    Filter(Genuine(), st.At(d).discarded)
  }

  /** What was lost between the server and d: destroyed with the queue, or refused. */
  function LostAfterServer(st: State, d: ClientId): seq<MsgBuf> {
    Select(DataFor(d), st.kernel.destroyed) + Select(DataFor(d), st.kernel.refused)
  }

  /** What was lost on the way to the server: destroyed with the queue, or refused. */
  function LostBeforeServer(st: State, d: ClientId): seq<MsgBuf> {
    Select(AddressedTo(d), st.kernel.destroyed) + Select(AddressedTo(d), st.kernel.refused)
  }

  /** Where everything addressed to d is or has ended: the pipeline without what failed
      receives have put into it, and with what was lost at each stage. */
  function Accounted(st: State, d: ClientId): seq<MsgBuf> {
    Filter(Genuine(), Holdings(st.At(d))) + LostByClient(st, d) + Queued(st, d) + LostAfterServer(st, d)
    + AtServer(st, d) + Waiting(st, d) + LostBeforeServer(st, d)
  }

  /** d holds no failed receive, and nothing for d has been discarded, destroyed or refused. */
  predicate Undisturbed(st: State, d: ClientId) {
    && Filter(Stale(), Holdings(st.At(d))) == []
    && LostByClient(st, d) == [] && LostAfterServer(st, d) == [] && LostBeforeServer(st, d) == []
  }

  /** The same for what bears the name of one sender. */
  predicate PairUndisturbed(st: State, s: ClientId, d: ClientId) {
    && Filter(FromSource(s), Filter(Stale(), Holdings(st.At(d)))) == []
    && Filter(FromSource(s), LostByClient(st, d)) == []
    && Filter(FromSource(s), LostAfterServer(st, d)) == []
    && Filter(FromSource(s), LostBeforeServer(st, d)) == []
  }

  /** The messages that s sends to d among its first n. */
  function PairStream(s: ClientId, d: ClientId, pid: nat, n: nat): seq<MsgBuf> {
    Filter(ForDest(d), Stream(s, pid, n))
  }

  function FirstSerial(s: ClientId, d: ClientId): nat {
    if Dest(s, 0) == d then 0 else 1
  }

  /** How many of s's first n messages go to d. */
  function PairCount(s: ClientId, d: ClientId, n: nat): nat {
    if s == d then 0 else (n + 1 - FirstSerial(s, d)) / 2
  }

  /** What becomes of every message, in every reachable state: the requests addressed to d
      are, in order, what d really received and still holds or has lost, what is queued for it
      or was lost there, what is in the server's hand, and what is queued for the server or was
      lost there. */
  lemma Accounting(st: State, d: ClientId)
    requires Reachable(st)
    ensures Requests(st, d) == Accounted(st, d)
  {
    ReachableInv(st);
    var k, c := st.kernel, st.At(d);
    assert ClientOk(st, d);
    FifoSelect(k, 4, AddressedTo(d));
    FifoSelect(k, d, DataFor(d));
    ForwardedToDest(k, d);
    TakenToDest(k, d);
    FilterConcat(ForDest(d), Offered(Forwarded(), k), ServerHand(st.server));
    FilterConcat(ForDest(d), Select(Forwarded(), k.sent), Select(Forwarded(), k.refused));
    FilterConcat(Genuine(), Holdings(c), c.discarded);
    Regroup(Filter(Genuine(), Holdings(c)), LostByClient(st, d), Queued(st, d),
            Select(DataFor(d), k.destroyed), Select(DataFor(d), k.refused), AtServer(st, d), Waiting(st, d),
            Select(AddressedTo(d), k.destroyed), Select(AddressedTo(d), k.refused));
  }

  lemma Regroup<T>(a: seq<T>, b: seq<T>, c: seq<T>, d: seq<T>, e: seq<T>, f: seq<T>, g: seq<T>, h: seq<T>, i: seq<T>)
    ensures (((a + b) + c + d) + e + f) + g + h + i == a + b + c + (d + e) + f + g + (h + i)
  {
  }

  /** Exactly when nothing is lost, duplicated or reordered on the way to d: the requests
      addressed to d are the contents of the pipeline if and only if d holds no failed receive
      and nothing for d has been discarded, destroyed or refused. While the queue exists nothing
      has. */
  lemma Conservation(st: State, d: ClientId)
    requires Reachable(st)
    ensures Requests(st, d) == Pipeline(st, d) <==> Undisturbed(st, d)
    ensures !st.kernel.removed ==> Undisturbed(st, d)
  {
    Accounting(st, d);
    RequestsAreGenuine(st, d);
    SameIff(Holdings(st.At(d)), LostByClient(st, d), Queued(st, d), LostAfterServer(st, d),
            AtServer(st, d), Waiting(st, d), LostBeforeServer(st, d));
    if !st.kernel.removed {
      NothingLostYet(st, d);
    }
  }

  lemma NothingLostYet(st: State, d: ClientId)
    requires Reachable(st) && !st.kernel.removed
    ensures Undisturbed(st, d)
  {
    ReachableInv(st);
    assert ClientOk(st, d);
    assert st.At(d).discarded == [] && Collected(st.At(d)) == Holdings(st.At(d));
    assert st.kernel.destroyed == [] && st.kernel.refused == [];
  }

  lemma RequestsAreGenuine(st: State, d: ClientId)
    requires Reachable(st)
    ensures forall b | b in Accounted(st, d) :: b.serial >= 0 && 1 <= b.source <= 3
  {
    Accounting(st, d);
    ReachableInv(st);
    SelectMembers(AddressedTo(d), st.kernel.sent);
    SelectMembers(AddressedTo(d), st.kernel.refused);
    forall b | b in Requests(st, d) ensures b.serial >= 0 && 1 <= b.source <= 3 {
      var m :| (m in st.kernel.sent || m in st.kernel.refused) && AddressedTo(d)(m) && m.buf == b;
      assert WellTyped(m);
    }
  }

  /** Leaving out what is stale and putting in what was lost changes nothing exactly when
      nothing is stale and nothing was lost. */
  lemma SameIff(held: seq<MsgBuf>, a: seq<MsgBuf>, queued: seq<MsgBuf>, b: seq<MsgBuf>, hand: seq<MsgBuf>,
      waiting: seq<MsgBuf>, c: seq<MsgBuf>)
    requires forall x | x in Filter(Genuine(), held) + a + queued + b + hand + waiting + c :: x.serial >= 0
    ensures Filter(Genuine(), held) + a + queued + b + hand + waiting + c == held + (queued + hand + waiting)
      <==> Filter(Stale(), held) == [] && a == [] && b == [] && c == []
  {
    var account := Filter(Genuine(), held) + a + queued + b + hand + waiting + c;
    var pipeline := held + (queued + hand + waiting);
    FilterNone(Stale(), held);
    if account == pipeline {
      forall x | x in held ensures x.serial >= 0 {
        assert x in pipeline;
      }
      FilterAll(Genuine(), held);
      assert |account| == |pipeline|;
    }
    if Filter(Stale(), held) == [] && a == [] && b == [] && c == [] {
      FilterAll(Genuine(), held);
      NothingBetween(held, queued, hand, waiting);
    }
  }

  lemma NothingBetween<T>(a: seq<T>, b: seq<T>, c: seq<T>, d: seq<T>)
    ensures a + [] + b + [] + c + d + [] == a + (b + c + d)
  {
  }

  lemma ForwardedToDest(k: Kernel, d: ClientId)
    requires KernelInv(k)
    ensures Filter(ForDest(d), Select(Forwarded(), k.sent)) == Select(DataFor(d), k.sent)
    ensures Filter(ForDest(d), Select(Forwarded(), k.refused)) == Select(DataFor(d), k.refused)
  {
    forall m | m in k.sent || m in k.refused
      ensures DataFor(d)(m) <==> Forwarded()(m) && ForDest(d)(m.buf)
    {
      assert WellTyped(m);
    }
    FilterSelect(ForDest(d), Forwarded(), DataFor(d), k.sent);
    FilterSelect(ForDest(d), Forwarded(), DataFor(d), k.refused);
  }

  lemma TakenToDest(k: Kernel, d: ClientId)
    ensures Filter(ForDest(d), Select(OfType(4), k.taken)) == Select(AddressedTo(d), k.taken)
  {
    FilterSelect(ForDest(d), OfType(4), AddressedTo(d), k.taken);
  }

  /** Is anything for d in the kernel queue? */
  predicate InQueueFor(st: State, d: ClientId) {
    Queued(st, d) != [] || Waiting(st, d) != []
  }

  /** The steps that disturb d: on the removed queue, a receive of d that does not find Quit in
      the variable, a request for d, and a delivery to d; the removal of a queue that contains
      something for d; and the end of d with something in its local queue. */
  predicate Disturbs(st: State, d: ClientId, a: Action) {
    match a
    case RecvTurn(o, unwritten) => st.kernel.removed && o == d && st.At(d).recvPc == Receiving && !IsQuit(unwritten.text)
    case MainTurn(o) =>
      var c := st.At(o);
      || (c.mainPc == Sending && st.kernel.removed && NextDest(o, c.dest) == d)
      || (Leaves(c) && (InQueueFor(st, d) || (o == d && c.inbox != [])))
    case ServerTurn =>
      || (st.server.pc == SHolding && st.kernel.removed && st.server.msg.buf.dest == d)
      || (st.server.pc == SQuit(4) && InQueueFor(st, d))
    case InterruptClient(_) => false
    case InterruptServer => false
  }

  /** What a step means to client d and to the server. */
  lemma ClientTurnSeen(st: State, o: ClientId, unwritten: MsgBuf, d: ClientId)
    ensures var st' := Step(st, MainTurn(o));
      && st'.server == st.server && st'.kernel == MainStep(st.At(o), st.kernel).1
      && st'.At(d) == if o == d then MainStep(st.At(d), st.kernel).0 else st.At(d)
    ensures var st' := Step(st, RecvTurn(o, unwritten));
      && st'.server == st.server && st'.kernel == RecvStep(st.At(o), st.kernel, unwritten).1
      && st'.At(d) == if o == d then RecvStep(st.At(d), st.kernel, unwritten).0 else st.At(d)
  {
  }

  lemma ServerTurnSeen(st: State, d: ClientId)
    ensures Step(st, ServerTurn).At(d) == st.At(d)
    ensures (Step(st, ServerTurn).server, Step(st, ServerTurn).kernel) == ServerStep(st.server, st.kernel)
  {
  }

  /** The part of the account that the kernel keeps. */
  predicate KernelCalm(k: Kernel, d: ClientId) {
    && Select(DataFor(d), k.destroyed) + Select(DataFor(d), k.refused) == []
    && Select(AddressedTo(d), k.destroyed) + Select(AddressedTo(d), k.refused) == []
  }

  predicate ClientCalm(c: Client) {
    Filter(Stale(), Holdings(c)) == [] && Filter(Genuine(), c.discarded) == []
  }

  lemma PostCalm(k: Kernel, m: Message, d: ClientId)
    requires KernelCalm(k, d)
    ensures KernelCalm(Post(k, m), d) <==> !(k.removed && (DataFor(d)(m) || AddressedTo(d)(m)))
  {
    SelectSnoc(DataFor(d), k.refused, m);
    SelectSnoc(AddressedTo(d), k.refused, m);
  }

  lemma RemoveCalm(k: Kernel, d: ClientId)
    requires KernelCalm(k, d)
    ensures KernelCalm(Remove(k), d) <==> Select(DataFor(d), k.queue) == [] && Select(AddressedTo(d), k.queue) == []
  {
    SelectConcat(DataFor(d), k.destroyed, k.queue);
    SelectConcat(AddressedTo(d), k.destroyed, k.queue);
  }

  lemma LeavingCalm(c: Client, k: Kernel)
    requires ClientCalm(c) && ExitInv(c, k) && Leaves(c)
    ensures ClientCalm(MainStep(c, k).0) <==> c.inbox == []
  {
    var c' := MainStep(c, k).0;
    assert Holdings(c) == c.displayed + c.inbox && Holdings(c') == c.displayed;
    FilterConcat(Stale(), c.displayed, c.inbox);
    FilterNone(Stale(), c.inbox);
    FilterAll(Genuine(), c.inbox);
  }

  /** A main loop's step, seen by itself and by the kernel's account for d. */
  lemma MainCalm(c: Client, k: Kernel)
    requires ClientCalm(c) && ExitInv(c, k)
    ensures ClientCalm(MainStep(c, k).0) <==> !(Leaves(c) && c.inbox != [])
  {
    if Leaves(c) {
      LeavingCalm(c, k);
    } else {
      MainKeepsHoldings(c, k);
    }
  }

  lemma MainKernelCalm(c: Client, k: Kernel, d: ClientId)
    requires KernelCalm(k, d)
    ensures KernelCalm(MainStep(c, k).1, d) <==>
      && !(c.mainPc == Sending && k.removed && NextDest(c.id, c.dest) == d)
      && !(Leaves(c) && (Select(DataFor(d), k.queue) != [] || Select(AddressedTo(d), k.queue) != []))
  {
    if c.mainPc == Sending {
      PostCalm(k, Message(4, MsgBuf(c.id, NextDest(c.id, c.dest), ClientText(c.pid, c.id), c.sent)), d);
    } else if Leaves(c) {
      RemoveCalm(k, d);
    }
  }

  lemma RecvCalm(c: Client, k: Kernel, unwritten: MsgBuf, d: ClientId)
    requires ClientInv(c, k) && KernelInv(k) && ClientCalm(c) && KernelCalm(k, d)
    ensures ClientCalm(RecvStep(c, k, unwritten).0) <==> !(k.removed && c.recvPc == Receiving && !IsQuit(unwritten.text))
    ensures KernelCalm(RecvStep(c, k, unwritten).1, d)
  {
    if c.recvPc == Receiving && k.removed {
      RecvStaleCalm(c, k, unwritten);
    } else if c.recvPc == Receiving && HasType(k, c.id) {
      RecvTakeHoldings(c, k, unwritten);
      assert WellTyped(Head(k, c.id));
      OneMoreHeld(Holdings(c), Head(k, c.id).buf);
    } else {
      RecvMoves(c, k, unwritten);
    }
  }

  lemma RecvStaleCalm(c: Client, k: Kernel, unwritten: MsgBuf)
    requires ClientCalm(c) && ExitInv(c, k) && c.recvPc == Receiving && k.removed
    ensures ClientCalm(RecvStep(c, k, unwritten).0) <==> IsQuit(unwritten.text)
  {
    RecvStaleCollects(c, k, unwritten);
    NotYetDiscarded(c, k);
    NotYetDiscarded(RecvStep(c, k, unwritten).0, k);
  }

  lemma ServerCalm(s: Server, k: Kernel, d: ClientId)
    requires KernelCalm(k, d) && KernelInv(k) && ServerInv(s, k)
    ensures KernelCalm(ServerStep(s, k).1, d) <==>
      && !(s.pc == SHolding && k.removed && s.msg.buf.dest == d)
      && !(s.pc == SQuit(4) && (Select(DataFor(d), k.queue) != [] || Select(AddressedTo(d), k.queue) != []))
  {
    if s.pc == SHolding || (s.pc.SQuit? && s.pc.i <= 3) {
      PostCalm(k, ServerStep(s, k).0.msg, d);
    } else if s.pc.SQuit? {
      RemoveCalm(k, d);
    }
  }

  lemma UndisturbedParts(st: State, d: ClientId)
    ensures Undisturbed(st, d) <==> ClientCalm(st.At(d)) && KernelCalm(st.kernel, d)
  {
  }

  lemma ExitOk(st: State, id: ClientId)
    requires Inv(st)
    ensures st.At(id).id == id && ExitInv(st.At(id), st.kernel)
  {
    assert ClientOk(st, id);
  }

  lemma MainDisturbs(st: State, d: ClientId, o: ClientId)
    requires Inv(st) && ClientCalm(st.At(d)) && KernelCalm(st.kernel, d)
    ensures var st' := Step(st, MainTurn(o)); ClientCalm(st'.At(d)) && KernelCalm(st'.kernel, d) <==> !Disturbs(st, d, MainTurn(o))
  {
    ExitOk(st, d);
    ExitOk(st, o);
    ClientTurnSeen(st, o, st.server.msg.buf, d);
    MainCalm(st.At(d), st.kernel);
    MainKernelCalm(st.At(o), st.kernel, d);
  }

  lemma RecvDisturbs(st: State, d: ClientId, o: ClientId, unwritten: MsgBuf)
    requires Inv(st) && ClientCalm(st.At(d)) && KernelCalm(st.kernel, d)
    ensures var st' := Step(st, RecvTurn(o, unwritten));
      ClientCalm(st'.At(d)) && KernelCalm(st'.kernel, d) <==> !Disturbs(st, d, RecvTurn(o, unwritten))
  {
    assert ClientOk(st, d) && ClientOk(st, o);
    ClientTurnSeen(st, o, unwritten, d);
    RecvKernel(st.At(o), st.kernel, unwritten);
    if o == d {
      RecvCalm(st.At(d), st.kernel, unwritten, d);
    }
  }

  lemma ServerDisturbs(st: State, d: ClientId)
    requires Inv(st) && ClientCalm(st.At(d)) && KernelCalm(st.kernel, d)
    ensures var st' := Step(st, ServerTurn); ClientCalm(st'.At(d)) && KernelCalm(st'.kernel, d) <==> !Disturbs(st, d, ServerTurn)
  {
    ServerTurnSeen(st, d);
    ServerCalm(st.server, st.kernel, d);
  }

  /** Conservation ends with exactly such a step. */
  lemma DisturbedBy(st: State, d: ClientId, a: Action)
    requires Reachable(st) && Undisturbed(st, d)
    ensures Undisturbed(Step(st, a), d) <==> !Disturbs(st, d, a)
  {
    ReachableInv(st);
    UndisturbedParts(st, d);
    UndisturbedParts(Step(st, a), d);
    match a
    case MainTurn(o) => MainDisturbs(st, d, o);
    case RecvTurn(o, unwritten) => RecvDisturbs(st, d, o, unwritten);
    case ServerTurn => ServerDisturbs(st, d);
    case InterruptClient(o) => InterruptSeen(st, o, d);
    case InterruptServer =>
  }

  lemma RecvKernel(c: Client, k: Kernel, unwritten: MsgBuf)
    ensures var k' := RecvStep(c, k, unwritten).1; k'.destroyed == k.destroyed && k'.refused == k.refused
  {
  }

  lemma InterruptSeen(st: State, o: ClientId, d: ClientId)
    ensures var st' := Step(st, InterruptClient(o));
      st'.kernel == st.kernel && Holdings(st'.At(d)) == Holdings(st.At(d))
      && st'.At(d).discarded == st.At(d).discarded && st'.At(d).quitRead == st.At(d).quitRead
  {
  }

  /** Per pair, always: what s has sent to d is what bears its name in the account. */
  lemma PairAccounting(st: State, s: ClientId, d: ClientId)
    requires Reachable(st)
    ensures Filter(FromSource(s), Accounted(st, d)) == PairStream(s, d, st.At(s).pid, st.At(s).sent)
  {
    Accounting(st, d);
    ReachableInv(st);
    assert ClientOk(st, s);
    var k := st.kernel;
    var both := (m: Message) => m.mtype == 4 && m.buf.source == s && m.buf.dest == d;
    FilterOffered(FromSource(s), AddressedTo(d), both, k);
    FilterOffered(ForDest(d), SentBy(s), both, k);
  }

  lemma FilterOffered(q: MsgBuf -> bool, p: Message -> bool, pq: Message -> bool, k: Kernel)
    requires forall m :: pq(m) <==> p(m) && q(m.buf)
    ensures Filter(q, Offered(p, k)) == Offered(pq, k)
  {
    FilterConcat(q, Select(p, k.sent), Select(p, k.refused));
    FilterSelect(q, p, pq, k.sent);
    FilterSelect(q, p, pq, k.refused);
  }

  /** Filtering distributes over the places of the account and of the pipeline. */
  lemma FilterPlaces(p: MsgBuf -> bool, a: seq<MsgBuf>, b: seq<MsgBuf>, c: seq<MsgBuf>, d: seq<MsgBuf>, e: seq<MsgBuf>,
      f: seq<MsgBuf>, g: seq<MsgBuf>)
    ensures Filter(p, a + b + c + d + e + f + g)
      == Filter(p, a) + Filter(p, b) + Filter(p, c) + Filter(p, d) + Filter(p, e) + Filter(p, f) + Filter(p, g)
    ensures Filter(p, a + (c + e + f)) == Filter(p, a) + (Filter(p, c) + Filter(p, e) + Filter(p, f))
  {
    FilterConcat(p, a + b + c + d + e + f, g);
    FilterConcat(p, a + b + c + d + e, f);
    FilterConcat(p, a + b + c + d, e);
    FilterConcat(p, a + b + c, d);
    FilterConcat(p, a + b, c);
    FilterConcat(p, a, b);
    FilterConcat(p, a, c + e + f);
    FilterConcat(p, c + e, f);
    FilterConcat(p, c, e);
  }

  /** Per pair: what s has sent to d is what is on its way from s, in order, if and only if
      nothing from s was lost and nothing stale bears its name. */
  lemma PairConservation(st: State, s: ClientId, d: ClientId)
    requires Reachable(st)
    ensures Filter(FromSource(s), Pipeline(st, d)) == PairStream(s, d, st.At(s).pid, st.At(s).sent) <==> PairUndisturbed(st, s, d)
    ensures Undisturbed(st, d) ==> PairUndisturbed(st, s, d)
  {
    PairAccounting(st, s, d);
    RequestsAreGenuine(st, d);
    FilterMembers(FromSource(s), Accounted(st, d));
    var p, held := FromSource(s), Holdings(st.At(d));
    var a, b, c := LostByClient(st, d), LostAfterServer(st, d), LostBeforeServer(st, d);
    var queued, hand, waiting := Queued(st, d), AtServer(st, d), Waiting(st, d);
    FilterPlaces(p, Filter(Genuine(), held), a, queued, b, hand, waiting, c);
    FilterPlaces(p, held, a, queued, b, hand, waiting, c);
    FilterCommutes(p, Genuine(), held);
    FilterCommutes(p, Stale(), held);
    SameIff(Filter(p, held), Filter(p, a), Filter(p, queued), Filter(p, b), Filter(p, hand), Filter(p, waiting), Filter(p, c));
  }

  lemma DestByParity(s: ClientId, d: ClientId, j: nat)
    requires s != d
    ensures Dest(s, j) == d <==> j % 2 == FirstSerial(s, d)
  {
  }

  lemma {:induction false} PairStreamForm(s: ClientId, d: ClientId, pid: nat, n: nat)
    ensures |PairStream(s, d, pid, n)| == PairCount(s, d, n)
    ensures forall i | 0 <= i < PairCount(s, d, n) :: PairStream(s, d, pid, n)[i] == Nth(s, pid, 2 * i + FirstSerial(s, d))
  {
    if n > 0 {
      PairStreamForm(s, d, pid, n - 1);
      var last := Nth(s, pid, n - 1);
      FilterConcat(ForDest(d), Stream(s, pid, n - 1), [last]);
      NthIsNext(s, n - 1);
      if s != d {
        DestByParity(s, d, n - 1);
        CountStep(s, d, n);
      }
      assert PairStream(s, d, pid, n) == PairStream(s, d, pid, n - 1) + (if last.dest == d then [last] else []);
    }
  }

  lemma CountStep(s: ClientId, d: ClientId, n: nat)
    requires s != d && n > 0
    ensures if (n - 1) % 2 == FirstSerial(s, d)
      then PairCount(s, d, n) == PairCount(s, d, n - 1) + 1 && 2 * PairCount(s, d, n - 1) + FirstSerial(s, d) == n - 1
      else PairCount(s, d, n) == PairCount(s, d, n - 1)
  {
  }

  /** The beginning of what s sends to d: the i-th one shown is the i-th one sent, with no
      gap and no repetition. */
  predicate IsBeginning(shown: seq<MsgBuf>, s: ClientId, d: ClientId, pid: nat, n: nat) {
    && |shown| <= PairCount(s, d, n)
    && forall i | 0 <= i < |shown| :: shown[i] == Nth(s, pid, 2 * i + FirstSerial(s, d))
  }

  lemma PrefixForm(s: ClientId, d: ClientId, pid: nat, n: nat, shown: seq<MsgBuf>, rest: seq<MsgBuf>)
    requires PairStream(s, d, pid, n) == shown + rest
    ensures IsBeginning(shown, s, d, pid, n)
  {
    PairStreamForm(s, d, pid, n);
    forall i | 0 <= i < |shown| ensures shown[i] == Nth(s, pid, 2 * i + FirstSerial(s, d)) {
      assert shown[i] == PairStream(s, d, pid, n)[i];
    }
  }

  /** What d has displayed from s, leaving out failed receives, is always the beginning of
      what s sends to d; with them it is one exactly when none of them bore the name of s. */
  lemma DisplayedIsPrefix(st: State, s: ClientId, d: ClientId)
    requires Reachable(st)
    ensures var displayed, pid, n := st.At(d).displayed, st.At(s).pid, st.At(s).sent;
      && IsBeginning(Filter(FromSource(s), Filter(Genuine(), displayed)), s, d, pid, n)
      && (IsBeginning(Filter(FromSource(s), displayed), s, d, pid, n) <==> Filter(FromSource(s), Filter(Stale(), displayed)) == [])
  {
    GenuineDisplayed(st, s, d);
    var shown := Filter(FromSource(s), st.At(d).displayed);
    FilterCommutes(FromSource(s), Genuine(), st.At(d).displayed);
    FilterCommutes(FromSource(s), Stale(), st.At(d).displayed);
    FilterNone(Stale(), shown);
    if Filter(Stale(), shown) == [] {
      FilterAll(Genuine(), shown);
    }
  }

  lemma GenuineDisplayed(st: State, s: ClientId, d: ClientId)
    requires Reachable(st)
    ensures IsBeginning(Filter(FromSource(s), Filter(Genuine(), st.At(d).displayed)), s, d, st.At(s).pid, st.At(s).sent)
  {
    PairAccounting(st, s, d);
    var c := st.At(d);
    var later := SplitHoldings(c);
    var front := Filter(Genuine(), c.displayed);
    var rest := SplitAccount(st, d, later);
    FilterConcat(FromSource(s), front, rest);
    PrefixForm(s, d, st.At(s).pid, st.At(s).sent, Filter(FromSource(s), front), Filter(FromSource(s), rest));
  }

  lemma SplitHoldings(c: Client) returns (later: seq<MsgBuf>)
    ensures Filter(Genuine(), Holdings(c)) == Filter(Genuine(), c.displayed) + later
  {
    var held := MainHand(c) + c.inbox + RecvHand(c);
    Regroup4(c.displayed, MainHand(c), c.inbox, RecvHand(c));
    FilterConcat(Genuine(), c.displayed, held);
    later := Filter(Genuine(), held);
  }

  lemma SplitAccount(st: State, d: ClientId, later: seq<MsgBuf>) returns (rest: seq<MsgBuf>)
    requires Filter(Genuine(), Holdings(st.At(d))) == Filter(Genuine(), st.At(d).displayed) + later
    ensures Accounted(st, d) == Filter(Genuine(), st.At(d).displayed) + rest
  {
    var a, b, c := LostByClient(st, d), LostAfterServer(st, d), LostBeforeServer(st, d);
    rest := later + a + Queued(st, d) + b + AtServer(st, d) + Waiting(st, d) + c;
    Regroup8(Filter(Genuine(), st.At(d).displayed), later, a, Queued(st, d), b, AtServer(st, d), Waiting(st, d), c);
  }

  lemma Regroup4<T>(a: seq<T>, b: seq<T>, c: seq<T>, d: seq<T>)
    ensures a + b + c + d == a + (b + c + d)
  {
  }

  lemma Regroup8<T>(a: seq<T>, b: seq<T>, c: seq<T>, d: seq<T>, e: seq<T>, f: seq<T>, g: seq<T>, h: seq<T>)
    ensures (a + b) + c + d + e + f + g + h == a + (b + c + d + e + f + g + h)
  {
  }

  lemma {:induction false} CountBySource(bs: seq<MsgBuf>)
    requires forall b | b in bs :: 1 <= b.source <= 3
    ensures |bs| == |Filter(FromSource(1), bs)| + |Filter(FromSource(2), bs)| + |Filter(FromSource(3), bs)|
  {
    if bs != [] {
      CountBySource(bs[1..]);
      assert bs[0] in bs;
    }
  }

  lemma {:induction false} SelectMembers(p: Message -> bool, ms: seq<Message>)
    ensures forall b | b in Select(p, ms) :: exists m :: m in ms && p(m) && m.buf == b
  {
    if ms != [] {
      SelectMembers(p, ms[1..]);
      forall b | b in Select(p, ms) ensures exists m :: m in ms && p(m) && m.buf == b {
        if b in Select(p, ms[1..]) {
          var m :| m in ms[1..] && p(m) && m.buf == b;
          assert m in ms;
        } else {
          assert ms[0] in ms;
        }
      }
    }
  }

  lemma {:induction false} Partition(held: seq<MsgBuf>)
    ensures |held| == |Filter(Genuine(), held)| + |Filter(Stale(), held)|
  {
    if held != [] {
      Partition(held[1..]);
    }
  }

  /** How many messages for d have been lost, at any stage. */
  function LostCount(st: State, d: ClientId): nat {
    |LostByClient(st, d)| + |LostAfterServer(st, d)| + |LostBeforeServer(st, d)|
  }

  /** The exact load: how many messages are in the pipelines once the clients have passed a, b
      and c messages to msgsnd. Every failed receive that is held adds one, everything lost
      takes one away. */
  lemma ExactLoad(st: State)
    requires Reachable(st)
    ensures var a, b, c := st.c1.sent, st.c2.sent, st.c3.sent;
      && |Pipeline(st, 1)| + LostCount(st, 1) == b / 2 + (c + 1) / 2 + |Filter(Stale(), Holdings(st.c1))|
      && |Pipeline(st, 2)| + LostCount(st, 2) == (a + 1) / 2 + c / 2 + |Filter(Stale(), Holdings(st.c2))|
      && |Pipeline(st, 3)| + LostCount(st, 3) == a / 2 + (b + 1) / 2 + |Filter(Stale(), Holdings(st.c3))|
  {
    LoadOf(st, 1);
    LoadOf(st, 2);
    LoadOf(st, 3);
  }

  lemma LoadOf(st: State, d: ClientId)
    requires Reachable(st)
    ensures |Pipeline(st, d)| + LostCount(st, d)
      == PairCount(1, d, st.c1.sent) + PairCount(2, d, st.c2.sent) + PairCount(3, d, st.c3.sent)
         + |Filter(Stale(), Holdings(st.At(d)))|
  {
    RequestsAreGenuine(st, d);
    CountBySource(Accounted(st, d));
    PairSize(st, 1, d);
    PairSize(st, 2, d);
    PairSize(st, 3, d);
    Partition(Holdings(st.At(d)));
  }

  lemma PairSize(st: State, s: ClientId, d: ClientId)
    requires Reachable(st)
    ensures |Filter(FromSource(s), Accounted(st, d))| == PairCount(s, d, st.At(s).sent)
  {
    PairAccounting(st, s, d);
    PairStreamForm(s, d, st.At(s).pid, st.At(s).sent);
  }

  /** The unlocked size() test is safe: whenever the main loop is about to call front()
      and pop() the queue is not empty, and the mutex has at most one holder. */
  lemma LocalQueueSafe(st: State, id: ClientId)
    requires Reachable(st)
    ensures var c := st.At(id);
      && c.mainPc != Crashed
      && (c.mainPc == WantLock || c.mainPc == HasLock ==> c.inbox != [])
      && !((c.mainPc == HasLock || c.mainPc.Unlocking?) && (c.recvPc.RHasLock? || c.recvPc == RUnlocking))
  {
    ReachableInv(st);
    assert ClientOk(st, id);
  }

  /** A forwarded message is never sent to the server again and never returns to its
      sender; the server's own queue never carries Quit. */
  lemma RoutingIsCorrect(st: State, m: Message)
    requires Reachable(st) && (m in st.kernel.sent || m in st.kernel.refused)
    ensures m.mtype == 4 ==> !IsQuit(m.buf.text) && m.buf.dest != m.buf.source
    ensures m.mtype != 4 && !IsQuit(m.buf.text) ==> m.mtype == m.buf.dest && m.mtype != m.buf.source
  {
    ReachableInv(st);
    assert WellTyped(m);
  }

  /** Nothing for the client is left, or has been destroyed, in a queue that has no message of
      its type. */
  lemma NothingOfType(t: int, p: Message -> bool, ms: seq<Message>)
    requires forall m :: p(m) ==> m.mtype == t
    requires Filter(OfType(t), ms) == []
    ensures Select(p, ms) == []
  {
    SelectWithinType(t, p, ms);
  }

  lemma AllGenuine(held: seq<MsgBuf>)
    requires |Filter(Stale(), held)| == 0
    ensures Filter(Genuine(), held) == held
  {
    FilterNone(Stale(), held);
    FilterAll(Genuine(), held);
  }

  lemma EmptyHand<T>(a: seq<T>, b: seq<T>, c: seq<T>, d: seq<T>)
    ensures a + b + c + [] + d == a + b + c + d
  {
  }

  lemma QuitComplete(c: Client, s: Server, k: Kernel)
    requires Fifo(k) && ClientInv(c, k) && QuitInv(c, s, k) && c.quitRead
    ensures Select(DataFor(c.id), k.sent) == Collected(c) && RecvHand(c) == []
  {
    FifoSelect(k, c.id, DataFor(c.id));
    NothingOfType(c.id, DataFor(c.id), k.queue);
    NothingOfType(c.id, DataFor(c.id), k.destroyed);
    AllGenuine(Collected(c));
  }

  /** The receive thread that reads Quit has received everything the server ever forwarded
      to its client, and the server has been told to stop. */
  lemma QuitMeansComplete(st: State, id: ClientId)
    requires Reachable(st) && st.At(id).quitRead
    ensures var c := st.At(id); Select(DataFor(id), st.kernel.sent) == c.displayed + MainHand(c) + c.inbox + c.discarded
    ensures RecvHand(st.At(id)) == [] && !st.server.isRunning
  {
    ReachableInv(st);
    var c := st.At(id);
    assert ClientOk(st, id);
    QuitComplete(c, st.server, st.kernel);
    EmptyHand(c.displayed, MainHand(c), c.inbox, c.discarded);
  }

  /** A data message is never mistaken for Quit: while the queue exists, the receive thread
      stops its client only after the server has begun to shut down. */
  lemma DataNeverStopsAClient(st: State, id: ClientId)
    requires Reachable(st) && st.At(id).recvPc.Got? && IsQuit(st.At(id).recvPc.hand.text)
    ensures st.kernel.removed || (st.At(id).quitRead && !st.server.isRunning)
  {
    ReachableInv(st);
    assert ClientOk(st, id);
  }

  lemma QuitClientMain(c: Client, k: Kernel)
    requires ExitInv(c, k)
    ensures MainStep(c, k).0.quitRead == c.quitRead && Collected(MainStep(c, k).0) == Collected(c)
  {
    MainKeepsCollected(c, k);
  }

  lemma QuitClientRecv(c: Client, k: Kernel, unwritten: MsgBuf)
    requires c.quitRead && LockInv(c) && QuitReadInv(c, k) && ExitInv(c, k)
    ensures RecvStep(c, k, unwritten).0.quitRead && Collected(RecvStep(c, k, unwritten).0) == Collected(c)
  {
    RecvMoves(c, k, unwritten);
  }

  lemma AfterQuitStep(st: State, id: ClientId, a: Action)
    requires Inv(st) && st.At(id).quitRead
    ensures Step(st, a).At(id).quitRead
    ensures Collected(Step(st, a).At(id)) == Collected(st.At(id))
  {
    assert ClientOk(st, id);
    match a
    case MainTurn(o) =>
      ClientTurnSeen(st, o, st.server.msg.buf, id);
      QuitClientMain(st.At(id), st.kernel);
    case RecvTurn(o, unwritten) =>
      ClientTurnSeen(st, o, unwritten, id);
      QuitClientRecv(st.At(id), st.kernel, unwritten);
    case InterruptClient(o) => InterruptSeen(st, o, id);
    case ServerTurn => ServerTurnSeen(st, id);
    case InterruptServer =>
  }

  /** After Quit has been read the client receives nothing more, however the run goes on: what
      it has then is what it displays, holds, or has lost with its local queue when it ended. */
  lemma AfterQuit(st: State, id: ClientId, schedule: seq<Action>)
    requires Reachable(st) && st.At(id).quitRead
    ensures Collected(Run(st, schedule).At(id)) == Collected(st.At(id))
    ensures Run(st, schedule).At(id).mainPc != Exited ==> Holdings(Run(st, schedule).At(id)) == Collected(st.At(id))
  {
    ReachableInv(st);
    AfterQuitFrom(st, id, schedule);
    var c := Run(st, schedule).At(id);
    assert ClientOk(Run(st, schedule), id);
    if c.mainPc != Exited {
      assert Holdings(c) + [] == Holdings(c);
    }
  }

  lemma {:induction false} AfterQuitFrom(st: State, id: ClientId, schedule: seq<Action>)
    requires Inv(st) && st.At(id).quitRead
    ensures Inv(Run(st, schedule)) && Run(st, schedule).At(id).quitRead
    ensures Collected(Run(st, schedule).At(id)) == Collected(st.At(id))
  {
    if schedule != [] {
      var before := schedule[..|schedule| - 1];
      AfterQuitFrom(st, id, before);
      StepKeeps(Run(st, before), schedule[|schedule| - 1]);
      AfterQuitStep(Run(st, before), id, schedule[|schedule| - 1]);
    }
  }
}

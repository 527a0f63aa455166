/** Lab8 around the removal of the queue: a message can be destroyed with the queue, discarded
    with the local queue of a client that ends, and, because nobody looks at msgrcv's result,
    taken for a message a second time. */
module RouterShutdown {
  import opened Sequences
  import opened KernelQueue
  import opened Router
  import opened RouterProof
  import opened RouterTheorems

  lemma Extend(init: State, schedule: seq<Action>, a: Action) returns (longer: seq<Action>, next: State)
    ensures longer == schedule + [a] && next == Step(Run(init, schedule), a) && next == Run(init, longer)
  {
    longer, next := schedule + [a], Step(Run(init, schedule), a);
    assert longer[..|schedule|] == schedule;
  }

  /** The first message of client 1, on its way to client 2. */
  function First(pids: (nat, nat, nat)): MsgBuf {
    Nth(1, pids.0, 0)
  }

  /** Client 1 has sent one message. */
  function AfterSend(pids: (nat, nat, nat), junk: Message): State {
    var m := Message(4, First(pids));
    Init(pids, junk).(kernel := EMPTY.(queue := [m], sent := [m]), c1 := InitClient(1, pids.0).(dest := 2, sent := 1))
  }

  lemma SentRun(pids: (nat, nat, nat), junk: Message) returns (schedule: seq<Action>)
    ensures Run(Init(pids, junk), schedule) == AfterSend(pids, junk)
  {
    var init := Init(pids, junk);
    var st: State;
    schedule, st := Extend(init, [], MainTurn(1));
    schedule, st := Extend(init, schedule, MainTurn(1));
    schedule, st := Extend(init, schedule, MainTurn(1));
    assert [] + [Message(4, First(pids))] == [Message(4, First(pids))];
  }

  /** The server has forwarded it. */
  function AfterForward(pids: (nat, nat, nat), junk: Message): State {
    var m := Message(2, First(pids));
    AfterSend(pids, junk).(kernel := EMPTY.(queue := [m], sent := [Message(4, First(pids)), m], taken := [Message(4, First(pids))]),
                      server := Server(true, SLoopHead, m, 0))
  }

  lemma ForwardedRun(pids: (nat, nat, nat), junk: Message) returns (schedule: seq<Action>)
    ensures Run(Init(pids, junk), schedule) == AfterForward(pids, junk)
  {
    var init := Init(pids, junk);
    var st: State;
    schedule := SentRun(pids, junk);
    var m := Message(4, First(pids));
    assert FirstOfType(4, [m]) == 0;
    schedule, st := Extend(init, schedule, ServerTurn);
    schedule, st := Extend(init, schedule, ServerTurn);
    assert st.kernel == EMPTY.(sent := [m], taken := [m]);
    schedule, st := Extend(init, schedule, ServerTurn);
    assert st.kernel.queue == [Message(2, First(pids))];
  }

  /** Client 2 has received it into its local queue. */
  function AfterReceive(pids: (nat, nat, nat), junk: Message): State {
    var b := First(pids);
    AfterForward(pids, junk).(
      kernel := EMPTY.(sent := [Message(4, b), Message(2, b)], taken := [Message(4, b), Message(2, b)]),
      c2 := InitClient(2, pids.1).(inbox := [b]))
  }

  lemma ReceivedRun(pids: (nat, nat, nat), junk: Message, unwritten: MsgBuf) returns (schedule: seq<Action>)
    ensures Run(Init(pids, junk), schedule) == AfterReceive(pids, junk)
  {
    var init := Init(pids, junk);
    var st: State;
    schedule := ForwardedRun(pids, junk);
    var b := First(pids);
    DataIsNotQuit(pids.0, 1);
    assert FirstOfType(2, [Message(2, b)]) == 0;
    schedule, st := Extend(init, schedule, RecvTurn(2, unwritten));
    schedule, st := Extend(init, schedule, RecvTurn(2, unwritten));
    assert st.kernel == AfterReceive(pids, junk).kernel;
    schedule, st := Extend(init, schedule, RecvTurn(2, unwritten));
    schedule, st := Extend(init, schedule, RecvTurn(2, unwritten));
    schedule, st := Extend(init, schedule, RecvTurn(2, unwritten));
    assert st.c2.inbox == [b];
    schedule, st := Extend(init, schedule, RecvTurn(2, unwritten));
  }

  /** A client at its loop heads is interrupted, ends and removes the queue. */
  function Left(st: State, id: ClientId): State {
    var c := st.At(id);
    st.(kernel := Remove(st.kernel)).With(id,
      c.(isRunning := false, recvPc := RExited, mainPc := Exited, inbox := [], discarded := c.inbox))
  }

  lemma LeaveRun(init: State, before: seq<Action>, id: ClientId, unwritten: MsgBuf) returns (schedule: seq<Action>)
    requires var c := Run(init, before).At(id); c.mainPc == LoopHead && c.recvPc == RLoopHead
    ensures Run(init, schedule) == Left(Run(init, before), id)
  {
    var st: State;
    schedule, st := Extend(init, before, InterruptClient(id));
    schedule, st := Extend(init, schedule, RecvTurn(id, unwritten));
    schedule, st := Extend(init, schedule, MainTurn(id));
    schedule, st := Extend(init, schedule, MainTurn(id));
  }

  /** Client 3 has been interrupted, has ended and has removed the queue. */
  function AfterRemoval(pids: (nat, nat, nat), junk: Message): State {
    var st := AfterReceive(pids, junk);
    st.(kernel := st.kernel.(removed := true),
        c3 := InitClient(3, pids.2).(isRunning := false, recvPc := RExited, mainPc := Exited))
  }

  lemma RemovedRun(pids: (nat, nat, nat), junk: Message, unwritten: MsgBuf) returns (schedule: seq<Action>)
    ensures Run(Init(pids, junk), schedule) == AfterRemoval(pids, junk)
  {
    schedule := ReceivedRun(pids, junk, unwritten);
    schedule := LeaveRun(Init(pids, junk), schedule, 3, unwritten);
  }

  /** Client 2 has taken the same message for a second one. */
  function AfterRepeat(pids: (nat, nat, nat), junk: Message): State {
    var st := AfterRemoval(pids, junk);
    st.(c2 := st.c2.(inbox := [First(pids), First(pids).(serial := -1)], staleReads := 1))
  }

  lemma RepeatedRun(pids: (nat, nat, nat), junk: Message) returns (schedule: seq<Action>)
    ensures Run(Init(pids, junk), schedule) == AfterRepeat(pids, junk)
  {
    var init, b := Init(pids, junk), First(pids);
    var st: State;
    schedule := RemovedRun(pids, junk, b);
    DataIsNotQuit(pids.0, 1);
    schedule, st := Extend(init, schedule, RecvTurn(2, b));
    schedule, st := Extend(init, schedule, RecvTurn(2, b));
    schedule, st := Extend(init, schedule, RecvTurn(2, b));
    schedule, st := Extend(init, schedule, RecvTurn(2, b));
    schedule, st := Extend(init, schedule, RecvTurn(2, b));
    assert st.c2.inbox == [b, b.(serial := -1)];
    schedule, st := Extend(init, schedule, RecvTurn(2, b));
  }

  /** The main loop, from its size test, displays the first message of its local queue. */
  lemma ShowOne(init: State, before: seq<Action>, b: MsgBuf, rest: seq<MsgBuf>) returns (schedule: seq<Action>)
    requires var c := Run(init, before).c2; c.mainPc == SizeTest && c.lock == Free && c.inbox == [b] + rest
    ensures var was := Run(init, before);
      Run(init, schedule) == was.(c2 := was.c2.(inbox := rest, displayed := was.c2.displayed + [b]))
  {
    var st: State;
    schedule, st := Extend(init, before, MainTurn(2));
    schedule, st := Extend(init, schedule, MainTurn(2));
    schedule, st := Extend(init, schedule, MainTurn(2));
    schedule, st := Extend(init, schedule, MainTurn(2));
    schedule, st := Extend(init, schedule, MainTurn(2));
  }

  /** A message can be shown twice: client 1 has sent one message, and client 2 displays the
      text of it two times. */
  lemma MessageShownTwice(pids: (nat, nat, nat), junk: Message) returns (st: State)
    ensures Reachable(st) && st.c1.sent == 1 && st.c2.sent == 0 && st.c3.sent == 0
    ensures var b := First(pids); st.c2.displayed == [b, b.(serial := -1)]
    ensures Requests(st, 2) != Pipeline(st, 2)
  {
    var init, b := Init(pids, junk), First(pids);
    var schedule := RepeatedRun(pids, junk);
    schedule, st := Extend(init, schedule, MainTurn(2));
    var stale := [b.(serial := -1)];
    assert [b] + stale == [b, b.(serial := -1)];
    schedule := ShowOne(init, schedule, b, stale);
    assert stale == stale + [];
    schedule := ShowOne(init, schedule, stale[0], []);
    st := Run(init, schedule);
    assert st.c2.displayed == [b, b.(serial := -1)];
    assert ReachedBy(st, pids, junk, schedule);
    StaleBreaks(st, 2, stale[0]);
  }

  lemma StaleBreaks(st: State, d: ClientId, b: MsgBuf)
    requires Reachable(st) && b in st.At(d).displayed && b.serial < 0
    ensures Requests(st, d) != Pipeline(st, d)
  {
    Conservation(st, d);
    FilterNone(Stale(), Holdings(st.At(d)));
    assert b in Holdings(st.At(d));
  }

  /** A forwarded message can be destroyed: client 3 ends while it is queued for client 2. */
  lemma MessageDestroyed(pids: (nat, nat, nat), junk: Message) returns (st: State)
    ensures Reachable(st) && st.kernel.destroyed == [Message(2, First(pids))]
    ensures Requests(st, 2) == [First(pids)] && Pipeline(st, 2) == []
  {
    var init, b := Init(pids, junk), First(pids);
    var schedule := ForwardedRun(pids, junk);
    schedule := LeaveRun(init, schedule, 3, b);
    st := Run(init, schedule);
    DataIsNotQuit(pids.0, 1);
    assert st.kernel.destroyed == [Message(2, b)];
    assert ReachedBy(st, pids, junk, schedule);
    assert Requests(st, 2) == [b] by { TwoRequests(Message(4, b), Message(2, b)); }
  }

  lemma TwoRequests(request: Message, delivery: Message)
    requires request.mtype == 4 && request.buf.dest == 2 && delivery.mtype == 2
    ensures Select(AddressedTo(2), [request, delivery]) == [request.buf]
  {
    SelectHead(AddressedTo(2), [request, delivery]);
    assert [request, delivery][1..] == [delivery];
    SelectHead(AddressedTo(2), [delivery]);
    assert [delivery][1..] == [];
  }

  /** A received message can be discarded: client 2 ends with it in its local queue. */
  lemma MessageDiscarded(pids: (nat, nat, nat), junk: Message) returns (st: State)
    ensures Reachable(st) && st.c2.mainPc == Exited && st.c2.discarded == [First(pids)]
    ensures Requests(st, 2) == [First(pids)] && Pipeline(st, 2) == []
  {
    var init, b := Init(pids, junk), First(pids);
    var schedule := ReceivedRun(pids, junk, b);
    schedule := LeaveRun(init, schedule, 2, b);
    st := Run(init, schedule);
    assert ReachedBy(st, pids, junk, schedule);
    assert Requests(st, 2) == [b] by { TwoRequests(Message(4, b), Message(2, b)); }
  }
}

/** Assignment2, networkMonitor.cpp: the select loop, the naming of connections, and the
    ownership of accepted descriptors. The kernel's answers are parameters. */
module NetworkMonitor {
  import opened Sequences
  import opened Text
  import opened MonitorProtocol

  /** What recv() reports; `bytes` is not empty. */
  datatype RecvResult = Data(bytes: string) | Eof | RecvInterrupted | RecvError

  datatype SelectResult = Ready(fds: set<int>) | SelectInterrupted | SelectFailed

  datatype AcceptResult = Accepted(fd: int) | AcceptInterrupted | AcceptFailed

  /** The kernel's answers during one round of the select loop. */
  datatype RoundInput = RoundInput(select: SelectResult, accept: AcceptResult, recv: int -> RecvResult)

  /** What the monitor does about a received result. */
  function Outcome(r: RecvResult): Reaction {
    match r
    case Data(bytes) => ReactTo(CString(bytes))
    case Eof => Hangup
    case RecvInterrupted => Ignore
    case RecvError => Hangup
  }

  /** Position of the first name that is not held, or the number of names. */
  function FirstFree(names: seq<string>, held: set<string>): (i: nat)
    ensures i <= |names|
    ensures i < |names| ==> names[i] !in held
    ensures forall j | 0 <= j < i :: names[j] in held
  {
    if names == [] || names[0] !in held then 0 else 1 + FirstFree(names[1..], held)
  }

  /** The registry after a connection has been accepted on descriptor fd. */
  function Register(names: seq<string>, m: map<int, string>, fd: int): map<int, string> {
    var i := FirstFree(names, m.Values);
    if i < |names| then m[fd := names[i]] else m
  }

  /** A connection is refused exactly when every name is held, and otherwise gets a name
      that nobody holds. */
  lemma RefusedIffAllHeld(names: seq<string>, m: map<int, string>, fd: int)
    requires fd !in m
    ensures fd !in Register(names, m, fd) <==> forall name | name in names :: name in m.Values
    ensures fd in Register(names, m, fd) ==>
      Register(names, m, fd)[fd] in names && Register(names, m, fd)[fd] !in m.Values
  {
    var i := FirstFree(names, m.Values);
    if i < |names| {
      assert names[i] in names;
    } else {
      forall name | name in names ensures name in m.Values {
        var j :| 0 <= j < |names| && names[j] == name;
      }
    }
  }

  lemma SomeElement(s: set<int>)
    ensures s == {} || exists x :: x in s
  {
    assert (forall x :: x !in s) ==> s == {};
  }

  lemma KeyOf<V>(m: map<int, V>, v: V)
    ensures v in m.Values ==> exists k :: k in m && m[k] == v
  {
    assert (forall k | k in m :: m[k] != v) ==> v !in m.Values;
  }

  /** Names in use are distinct and were entered by the user. */
  ghost predicate NamesOk(names: seq<string>, m: map<int, string>) {
    && (forall fd | fd in m :: m[fd] in names)
    && (forall a, b | a in m && b in m && a != b :: m[a] != m[b])
  }

  lemma RegisterKeepsNames(names: seq<string>, m: map<int, string>, fd: int)
    requires NamesOk(names, m) && fd !in m
    ensures NamesOk(names, Register(names, m, fd))
  {
    var m' := Register(names, m, fd);
    var i := FirstFree(names, m.Values);
    if i < |names| {
      forall a | a in m ensures m[a] != names[i] {
        assert m[a] in m.Values;
      }
      assert names[i] in names;
    }
  }

  /** At most one connection per distinct name, however many duplicates were entered. */
  lemma {:induction false} NoMoreThanNames(names: set<string>, m: map<int, string>)
    requires forall fd | fd in m :: m[fd] in names
    requires forall a, b | a in m && b in m && a != b :: m[a] != m[b]
    ensures |m| <= |names|
    decreases |m|
  {
    if m != map[] {
      SomeElement(m.Keys);
      var fd :| fd in m.Keys;
      var rest := m - {fd};
      assert forall a | a in rest :: m[a] != m[fd];
      NoMoreThanNames(names - {m[fd]}, rest);
      assert rest.Keys == m.Keys - {fd};
      assert |rest.Keys| == |rest| && |m.Keys| == |m|;
    }
  }

  predicate Distinct<T(==)>(s: seq<T>) {
    forall i, j | 0 <= i < j < |s| :: s[i] != s[j]
  }

  /** The kernel's book on accepted connections, numbered 0, 1, 2, ...: each is either open,
      on exactly one descriptor, or has been closed exactly once. */
  ghost predicate Ledger(connections: map<int, nat>, closed: seq<nat>, accepted: nat) {
    && (Distinct(closed))
    && (forall c | c in closed :: c < accepted)
    && (forall fd | fd in connections :: connections[fd] < accepted && connections[fd] !in closed)
    && (forall a, b | a in connections && b in connections && a != b :: connections[a] != connections[b])
    && (forall c: nat | c < accepted :: c in closed || c in connections.Values)
  }

  lemma LedgerAccept(connections: map<int, nat>, closed: seq<nat>, accepted: nat, fd: int)
    requires Ledger(connections, closed, accepted) && fd !in connections
    ensures Ledger(connections[fd := accepted], closed, accepted + 1)
  {
    var now := connections[fd := accepted];
    assert now[fd] == accepted;
    forall c: nat | c < accepted + 1 ensures c in closed || c in now.Values {
      if c < accepted && c !in closed {
        KeyOf(connections, c);
        var a :| a in connections && connections[a] == c;
        assert now[a] == c;
      }
    }
  }

  lemma LedgerClose(connections: map<int, nat>, closed: seq<nat>, accepted: nat, fd: int)
    requires Ledger(connections, closed, accepted) && fd in connections
    ensures Ledger(connections - {fd}, closed + [connections[fd]], accepted)
  {
    var now := connections - {fd};
    var closed' := closed + [connections[fd]];
    forall c: nat | c < accepted ensures c in closed' || c in now.Values {
      if c !in closed && c != connections[fd] {
        KeyOf(connections, c);
        var a :| a in connections && connections[a] == c;
        assert a in now && now[a] == c;
      }
    }
  }

  /** With no connection open, every accepted one has been closed exactly once. */
  lemma {:induction false} AllClosedOnce(closed: seq<nat>, accepted: nat)
    requires Ledger(map[], closed, accepted)
    ensures multiset(closed) == multiset(seq(accepted, i => i))
  {
    var all := seq(accepted, i => i);
    forall c ensures multiset(closed)[c] == multiset(all)[c] {
      assert c in closed <==> c in all by {
        if 0 <= c < accepted {
          assert all[c] == c;
        }
      }
      OnceOrNever(closed, c);
      OnceOrNever(all, c);
    }
  }

  lemma {:induction false} OnceOrNever<T>(s: seq<T>, x: T)
    requires Distinct(s)
    ensures multiset(s)[x] == if x in s then 1 else 0
  {
    if s != [] {
      var front := s[..|s| - 1];
      assert s == front + [s[|s| - 1]];
      OnceOrNever(front, x);
    }
  }

  function Elements(s: seq<int>): set<int> {
    set x | x in s
  }

  /** The descriptors whose client is disconnected by this round. */
  function Dropped(handled: set<int>, recv: int -> RecvResult): set<int> {
    set fd | fd in handled && Outcome(recv(fd)).Hangup?
  }

  lemma NextToCheck(readable: set<int>, fds: seq<int>, i: nat)
    requires Distinct(fds) && i < |fds|
    ensures fds[i] in Elements(fds) && fds[i] !in Elements(fds[..i])
    ensures readable * Elements(fds[..i + 1]) == readable * Elements(fds[..i]) + (if fds[i] in readable then {fds[i]} else {})
  {
    assert Elements(fds[..i + 1]) == Elements(fds[..i]) + {fds[i]};
  }

  lemma OneMore(handled: seq<int>, fd: int)
    requires Distinct(handled) && fd !in Elements(handled)
    ensures Distinct(handled + [fd]) && Elements(handled + [fd]) == Elements(handled) + {fd}
  {
  }

  /** The replies that handling a sequence of descriptors sends, in order. */
  function RepliesTo(handled: seq<int>, recv: int -> RecvResult): seq<(int, string)> {
    if handled == [] then []
    else
      var fd := handled[|handled| - 1];
      RepliesTo(handled[..|handled| - 1], recv) + ReplyTo(fd, recv(fd))
  }

  function ReplyTo(fd: int, r: RecvResult): seq<(int, string)> {
    if Outcome(r).Reply? then [(fd, Outcome(r).text)] else []
  }

  /** Which results of recv() end a connection: the end of the stream, an error, and "Done". */
  predicate Ends(r: RecvResult) {
    r == Eof || r == RecvError || (r.Data? && CString(r.bytes) == "Done")
  }

  /** What is sent back: Monitor for Ready, Set Link Up for Link Down, and nothing else. */
  predicate Answers(r: RecvResult, text: string) {
    r.Data? && ((CString(r.bytes) == "Ready" && text == "Monitor") || (CString(r.bytes) == "Link Down" && text == "Set Link Up"))
  }

  /** What the reactions amount to, in the words of the protocol. */
  lemma OutcomeMeaning(r: RecvResult)
    ensures Outcome(r).Hangup? <==> Ends(r)
    ensures forall text :: Outcome(r) == Reply(text) <==> Answers(r, text)
  {
    assert |READY| == 5 && |MONITORING| == 10 && |LINK_DOWN| == 9 && |DONE| == 4;
  }

  lemma ReplyMeaning(fd: int, r: RecvResult)
    ensures Outcome(r).Hangup? <==> !(r == RecvInterrupted || (r.Data? && CString(r.bytes) != "Done"))
    ensures ReplyTo(fd, r) == if r.Data? && CString(r.bytes) == "Ready" then [(fd, "Monitor")]
      else if r.Data? && CString(r.bytes) == "Link Down" then [(fd, "Set Link Up")] else []
  {
    OutcomeMeaning(r);
    assert |READY| == 5 && |LINK_DOWN| == 9;
  }

  lemma {:induction false} RepliesMeaning(handled: seq<int>, recv: int -> RecvResult, fd: int, text: string)
    ensures (fd, text) in RepliesTo(handled, recv) <==> fd in handled && Answers(recv(fd), text)
  {
    if handled != [] {
      var front, last := handled[..|handled| - 1], handled[|handled| - 1];
      RepliesMeaning(front, recv, fd, text);
      OutcomeMeaning(recv(last));
      assert handled == front + [last];
    }
  }

  lemma RepliesAreAnswers(handled: seq<int>, recv: int -> RecvResult)
    ensures forall fd, text :: (fd, text) in RepliesTo(handled, recv) <==> fd in handled && Answers(recv(fd), text)
  {
    forall fd, text ensures (fd, text) in RepliesTo(handled, recv) <==> fd in handled && Answers(recv(fd), text) {
      RepliesMeaning(handled, recv, fd, text);
    }
  }

  lemma DroppedMeaning(handled: set<int>, recv: int -> RecvResult)
    ensures forall fd :: fd in Dropped(handled, recv) <==> fd in handled && Ends(recv(fd))
  {
    forall fd ensures fd in Dropped(handled, recv) <==> fd in handled && Ends(recv(fd)) {
      OutcomeMeaning(recv(fd));
    }
  }

  /** `name` is the first one in the list that nobody holds. */
  ghost predicate FirstUnused(names: seq<string>, m: map<int, string>, name: string) {
    exists i :: 0 <= i < |names| && names[i] == name && name !in m.Values && forall j | 0 <= j < i :: names[j] in m.Values
  }

  lemma RegisterMeaning(names: seq<string>, m: map<int, string>, fd: int)
    requires fd !in m
    ensures fd in Register(names, m, fd) ==> FirstUnused(names, m, Register(names, m, fd)[fd])
    ensures forall o | o in m :: o in Register(names, m, fd) && Register(names, m, fd)[o] == m[o]
    ensures forall o | o in Register(names, m, fd) :: o in m || o == fd
  {
    var i := FirstFree(names, m.Values);
    if i < |names| {
      assert names[i] == Register(names, m, fd)[fd];
    }
  }

  /** Handling one more descriptor drops it or not, according to what it received. */
  lemma DropOne(m: map<int, string>, handled: set<int>, recv: int -> RecvResult, fd: int)
    requires fd !in handled
    ensures m - Dropped(handled + {fd}, recv) ==
      if Outcome(recv(fd)).Hangup? then m - Dropped(handled, recv) - {fd} else m - Dropped(handled, recv)
  {
    assert Dropped(handled + {fd}, recv) == Dropped(handled, recv) + (if Outcome(recv(fd)).Hangup? then {fd} else {});
  }

  /** The descriptors that FD_ISSET reports after select(): a subset of those registered,
      or all of them, untouched, when select() failed. */
  function ReadableIn(s: SelectResult, registered: set<int>, masterFd: int): set<int> {
    match s
    case Ready(fds) => fds * (registered + {masterFd})
    case SelectInterrupted => {}
    case SelectFailed => registered + {masterFd}
  }

  /** The registry after the accept part of a round. */
  function AdmittedIn(input: RoundInput, names: seq<string>, m: map<int, string>, masterFd: int): map<int, string> {
    if masterFd in ReadableIn(input.select, m.Keys, masterFd) && input.accept.Accepted?
    then Register(names, m, input.accept.fd) else m
  }

  /** The descriptors a round handles: those registered before it and reported readable,
      unless accept() was interrupted. */
  function HandledIn(input: RoundInput, registered: set<int>, masterFd: int): set<int> {
    var readable := ReadableIn(input.select, registered, masterFd);
    if masterFd in readable && input.accept.AcceptInterrupted? then {} else readable * registered
  }

  lemma HandledMeaning(input: RoundInput, registered: set<int>, masterFd: int)
    requires masterFd !in registered
    ensures HandledIn(input, registered, masterFd) <= registered
    ensures input.select.SelectInterrupted? ==> HandledIn(input, registered, masterFd) == {}
    ensures input.select.Ready? && !(masterFd in input.select.fds && input.accept.AcceptInterrupted?) ==>
      forall fd | fd in registered :: fd in HandledIn(input, registered, masterFd) <==> fd in input.select.fds
  {
  }

  lemma AdmittedMeaning(input: RoundInput, names: seq<string>, m: map<int, string>, masterFd: int)
    requires Honest(input, m.Keys, masterFd)
    ensures var m' := AdmittedIn(input, names, m, masterFd);
      && (forall fd | fd in m :: fd in m' && m'[fd] == m[fd])
      && (forall fd | fd in m' && fd !in m :: input.accept == Accepted(fd) && FirstUnused(names, m, m'[fd]))
      && (input.select.Ready? && masterFd in input.select.fds && input.accept.Accepted? ==>
          (input.accept.fd in m' <==> exists name :: name in names && name !in m.Values))
  {
    if input.accept.Accepted? {
      RegisterMeaning(names, m, input.accept.fd);
      RefusedIffAllHeld(names, m, input.accept.fd);
    }
  }

  /** What a round amounts to, in terms of the kernel's answers. */
  lemma RoundMeaning(input: RoundInput, names: seq<string>, m: map<int, string>, masterFd: int, handled: seq<int>, m': map<int, string>)
    requires Honest(input, m.Keys, masterFd) && masterFd !in m && NamesOk(names, m)
    requires Elements(handled) == HandledIn(input, m.Keys, masterFd)
    requires m' == AdmittedIn(input, names, m, masterFd) - Dropped(Elements(handled), input.recv)
    ensures forall fd | fd in handled :: fd in m
    ensures input.select.SelectInterrupted? ==> handled == []
    ensures input.select.Ready? && !(masterFd in input.select.fds && input.accept.AcceptInterrupted?) ==>
      forall fd | fd in m :: fd in handled <==> fd in input.select.fds
    ensures forall fd | fd in m :: (fd in m' <==> !(fd in handled && Ends(input.recv(fd)))) && (fd in m' ==> m'[fd] == m[fd])
    ensures forall fd, o | fd in m && fd !in m' && o in m && o in m' :: m'[o] != m[fd]
    ensures forall fd | fd in m' && fd !in m :: input.accept == Accepted(fd) && FirstUnused(names, m, m'[fd])
    ensures input.select.Ready? && masterFd in input.select.fds && input.accept.Accepted? ==>
      (input.accept.fd in m' <==> exists name :: name in names && name !in m.Values)
  {
    HandledMeaning(input, m.Keys, masterFd);
    AdmittedMeaning(input, names, m, masterFd);
    DroppedMeaning(Elements(handled), input.recv);
    assert forall fd :: fd in Elements(handled) <==> fd in handled;
    ElementsEmpty(handled);
  }

  lemma ElementsEmpty(handled: seq<int>)
    ensures Elements(handled) == {} <==> handled == []
  {
    if handled != [] {
      assert handled[0] in Elements(handled);
    }
  }

  /** accept() returns a descriptor that is not in use. */
  predicate Honest(input: RoundInput, registered: set<int>, masterFd: int) {
    input.accept.Accepted? ==>
      input.accept.fd >= 0 && input.accept.fd !in registered && input.accept.fd != masterFd
  }

  /** The size of the registry, in terms of the names the user entered. */
  lemma RegistrySize(names: seq<string>, m: map<int, string>)
    requires NamesOk(names, m)
    ensures |m| <= |set name | name in names| <= |names|
  {
    NoMoreThanNames((set name | name in names), m);
    DistinctElements(names);
  }

  lemma {:induction false} DistinctElements(names: seq<string>)
    ensures |set name | name in names| <= |names|
  {
    if names != [] {
      DistinctElements(names[1..]);
      assert (set name | name in names) == {names[0]} + (set name | name in names[1..]);
    }
  }

  class Monitor {
    const names: seq<string>
    var clientFds: map<int, string>
    var running: bool
    var masterFd: int
    /** Histories: the kernel's book, and the messages sent by descriptor. */
    ghost var connections: map<int, nat>
    ghost var closed: seq<nat>
    ghost var accepted: nat
    ghost var sent: seq<(int, string)>

    ghost predicate Valid()
      reads this
    {
      && connections.Keys == clientFds.Keys
      && masterFd !in clientFds
      && (forall fd | fd in clientFds :: fd >= 0)
      && NamesOk(names, clientFds)
      && Ledger(connections, closed, accepted)
    }

    constructor (names: seq<string>, masterFd: int)
      requires masterFd >= 0
      ensures Valid() && running && clientFds == map[] && this.names == names && this.masterFd == masterFd
      ensures accepted == 0 && closed == [] && sent == []
    {
      this.names, this.masterFd := names, masterFd;
      clientFds, running, connections, closed, accepted, sent := map[], true, map[], [], 0, [];
    }

    /** The SIGINT handler. */
    method SigInt()
      requires Valid()
      modifies `running, `masterFd
      ensures Valid()
      ensures !running && masterFd == -1
    {
      running := false;
      if masterFd != -1 {
        masterFd := -1;
      }
    }

    method CloseClient(fd: int)
      requires Valid() && fd in clientFds
      modifies `clientFds, `connections, `closed
      ensures Valid()
      ensures clientFds == old(clientFds) - {fd}
      ensures closed == old(closed) + [old(connections)[fd]]
      ensures connections == old(connections) - {fd}
    {
      LedgerClose(connections, closed, accepted, fd);
      closed := closed + [connections[fd]];
      connections := connections - {fd};
      clientFds := clientFds - {fd};
    }

    /** handle_client_message: one recv() on a registered descriptor. */
    method HandleClientMessage(fd: int, r: RecvResult)
      requires Valid() && fd in clientFds
      modifies `clientFds, `connections, `closed, `sent
      ensures Valid()
      ensures Outcome(r).Hangup? ==>
        clientFds == old(clientFds) - {fd} && closed == old(closed) + [old(connections)[fd]]
        && connections == old(connections) - {fd}
      ensures !Outcome(r).Hangup? ==>
        clientFds == old(clientFds) && closed == old(closed) && connections == old(connections)
      ensures sent == old(sent) + ReplyTo(fd, r)
      ensures fd in clientFds <==> r == RecvInterrupted || (r.Data? && CString(r.bytes) != "Done")
      ensures r.Data? && CString(r.bytes) == "Ready" ==> sent == old(sent) + [(fd, "Monitor")]
      ensures r.Data? && CString(r.bytes) == "Link Down" ==> sent == old(sent) + [(fd, "Set Link Up")]
      ensures !(r.Data? && (CString(r.bytes) == "Ready" || CString(r.bytes) == "Link Down")) ==> sent == old(sent)
    {
      ReplyMeaning(fd, r);
      HandleSteps(fd, r);
    }

    /** The branches of the handler. */
    method HandleSteps(fd: int, r: RecvResult)
      requires Valid() && fd in clientFds
      modifies `clientFds, `connections, `closed, `sent
      ensures Valid()
      ensures Outcome(r).Hangup? ==>
        clientFds == old(clientFds) - {fd} && closed == old(closed) + [old(connections)[fd]]
        && connections == old(connections) - {fd}
      ensures !Outcome(r).Hangup? ==>
        clientFds == old(clientFds) && closed == old(closed) && connections == old(connections)
      ensures sent == old(sent) + ReplyTo(fd, r)
    {
      match r
      case Data(bytes) =>
        var message := CString(bytes);
        if message == READY {
          sent := sent + [(fd, MONITOR)];
        } else if message == MONITORING {
        } else if message == LINK_DOWN {
          sent := sent + [(fd, SET_LINK_UP)];
        } else if message == DONE {
          CloseClient(fd);
        }
      case Eof => CloseClient(fd);
      case RecvInterrupted =>
      case RecvError => CloseClient(fd);
    }

    /** Is the name held by a connection? The inner loop over client_fds. */
    method NameInUse(name: string) returns (inUse: bool)
      ensures inUse <==> name in clientFds.Values
    {
      inUse := false;
      var rest := clientFds.Keys;
      while rest != {} && !inUse
        invariant rest <= clientFds.Keys
        invariant inUse ==> name in clientFds.Values
        invariant forall fd | fd in clientFds.Keys - rest :: clientFds[fd] == name ==> inUse
        decreases |rest|
      {
        SomeElement(rest);
        var fd :| fd in rest;
        if clientFds[fd] == name {
          inUse := true;
        }
        rest := rest - {fd};
      }
      if !inUse {
        KeyOf(clientFds, name);
      }
    }

    /** A new connection: the first unused name in list order, or an immediate close. */
    method Admit(fd: int)
      requires Valid() && fd >= 0 && fd !in clientFds && fd != masterFd
      modifies `clientFds, `connections, `closed, `accepted
      ensures Valid()
      ensures clientFds == Register(names, old(clientFds), fd)
      ensures accepted == old(accepted) + 1
      ensures closed == old(closed) + (if fd in clientFds then [] else [old(accepted)])
      ensures connections == if fd in clientFds then old(connections)[fd := old(accepted)] else old(connections)
    {
      LedgerAccept(connections, closed, accepted, fd);
      RegisterKeepsNames(names, clientFds, fd);
      ghost var before := connections;
      connections := connections[fd := accepted];
      accepted := accepted + 1;
      var i := 0;
      var taken := false;
      while i < |names| && !taken
        invariant 0 <= i <= |names|
        invariant !taken ==> clientFds == old(clientFds) && forall j | 0 <= j < i :: names[j] in clientFds.Values
        invariant taken ==> FirstFree(names, old(clientFds).Values) < |names| && clientFds == Register(names, old(clientFds), fd)
        modifies `clientFds
      {
        var inUse := NameInUse(names[i]);
        if !inUse {
          assert FirstFree(names, clientFds.Values) == i;
          clientFds := clientFds[fd := names[i]];
          taken := true;
        }
        i := i + 1;
      }
      if !taken {
        LedgerClose(connections, closed, accepted, fd);
        closed := closed + [connections[fd]];
        connections := connections - {fd};
        assert connections == before;
      }
    }

    /** Handles one more descriptor, after those in `handled`. */
    method HandleNext(fd: int, recv: int -> RecvResult, ghost handled: seq<int>,
        ghost registered: map<int, string>, ghost before: seq<(int, string)>)
      requires Valid() && fd in clientFds && fd !in Elements(handled) && Distinct(handled)
      requires clientFds == registered - Dropped(Elements(handled), recv)
      requires sent == before + RepliesTo(handled, recv)
      modifies `clientFds, `connections, `closed, `sent
      ensures Valid()
      ensures clientFds == registered - Dropped(Elements(handled) + {fd}, recv)
      ensures sent == before + RepliesTo(handled + [fd], recv)
      ensures Distinct(handled + [fd]) && Elements(handled + [fd]) == Elements(handled) + {fd}
      ensures forall f | f in old(clientFds) && f != fd :: f in clientFds
    {
      OneMore(handled, fd);
      DropOne(registered, Elements(handled), recv, fd);
      ConcatAssoc(before, RepliesTo(handled, recv), ReplyTo(fd, recv(fd)));
      assert (handled + [fd])[..|handled|] == handled;
      HandleClientMessage(fd, recv(fd));
    }

    /** The vector fds_to_check: the registered descriptors, each once. */
    method RegisteredFds() returns (fds: seq<int>)
      ensures Distinct(fds) && Elements(fds) == clientFds.Keys
    {
      fds := [];
      var rest := clientFds.Keys;
      while rest != {}
        invariant rest <= clientFds.Keys
        invariant Distinct(fds) && Elements(fds) == clientFds.Keys - rest
        decreases |rest|
      {
        SomeElement(rest);
        var fd :| fd in rest;
        OneMore(fds, fd);
        fds := fds + [fd];
        rest := rest - {fd};
      }
    }

    /** The second half of a round: the registered descriptors that are readable. */
    method HandleReady(readable: set<int>, recv: int -> RecvResult) returns (handled: seq<int>)
      requires Valid()
      modifies `clientFds, `connections, `closed, `sent
      ensures Valid()
      ensures Distinct(handled)
      ensures Elements(handled) == readable * old(clientFds).Keys
      ensures clientFds == old(clientFds) - Dropped(Elements(handled), recv)
      ensures sent == old(sent) + RepliesTo(handled, recv)
    {
      handled := [];
      ghost var registered := clientFds;
      ghost var before := sent;
      var fdsToCheck := RegisteredFds();
      var i := 0;
      while i < |fdsToCheck|
        invariant 0 <= i <= |fdsToCheck| && Valid()
        invariant Distinct(handled) && Elements(handled) == readable * Elements(fdsToCheck[..i])
        invariant clientFds == registered - Dropped(Elements(handled), recv)
        invariant sent == before + RepliesTo(handled, recv)
      {
        var fd := fdsToCheck[i];
        NextToCheck(readable, fdsToCheck, i);
        if fd in readable && fd in clientFds {
          HandleNext(fd, recv, handled, registered, before);
          handled := handled + [fd];
        }
        i := i + 1;
      }
      assert fdsToCheck[..i] == fdsToCheck;
    }

    /** The steps of one round. `handled` lists the descriptors on which a message was handled,
        in order. */
    method RoundSteps(input: RoundInput) returns (handled: seq<int>)
      requires Valid() && running && masterFd != -1
      requires Honest(input, clientFds.Keys, masterFd)
      modifies `clientFds, `connections, `closed, `accepted, `running, `sent
      ensures Valid()
      ensures running == !input.select.SelectFailed?
      ensures Distinct(handled)
      ensures Elements(handled) == HandledIn(input, old(clientFds).Keys, masterFd)
      ensures clientFds == AdmittedIn(input, names, old(clientFds), masterFd) - Dropped(Elements(handled), input.recv)
      ensures sent == old(sent) + RepliesTo(handled, input.recv)
    {
      var readable := ReadableIn(input.select, clientFds.Keys, masterFd);
      if input.select.SelectFailed? {
        running := false;
      }
      if input.select.SelectInterrupted? {
        handled := [];
        return;
      }
      if masterFd in readable {
        if input.accept.AcceptInterrupted? {
          handled := [];
          return;
        }
        if input.accept.Accepted? {
          Admit(input.accept.fd);
        }
      }
      handled := HandleReady(readable, input.recv);
    }

    /** One round of the select loop, for any answers of the kernel. */
    method Round(input: RoundInput) returns (handled: seq<int>)
      requires Valid() && running && masterFd != -1
      requires Honest(input, clientFds.Keys, masterFd)
      modifies `clientFds, `connections, `closed, `accepted, `running, `sent
      ensures Valid()
      ensures running == !input.select.SelectFailed?
      ensures Distinct(handled)
      ensures Elements(handled) == HandledIn(input, old(clientFds).Keys, masterFd)
      ensures clientFds == AdmittedIn(input, names, old(clientFds), masterFd) - Dropped(Elements(handled), input.recv)
      ensures sent == old(sent) + RepliesTo(handled, input.recv)
      // who is handled: the registered and readable, unless select() or accept() was interrupted
      ensures forall fd | fd in handled :: fd in old(clientFds)
      ensures input.select.SelectInterrupted? ==> handled == []
      ensures input.select.Ready? && !(masterFd in input.select.fds && input.accept.AcceptInterrupted?) ==>
        forall fd | fd in old(clientFds) :: fd in handled <==> fd in input.select.fds
      // what becomes of those registered before
      ensures forall fd | fd in old(clientFds) ::
        && (fd in clientFds <==> !(fd in handled && Ends(input.recv(fd))))
        && (fd in clientFds ==> clientFds[fd] == old(clientFds)[fd])
      ensures forall fd, o | fd in old(clientFds) && fd !in clientFds && o in old(clientFds) && o in clientFds ::
        clientFds[o] != old(clientFds)[fd]
      // the new connection
      ensures forall fd | fd in clientFds && fd !in old(clientFds) ::
        input.accept == Accepted(fd) && FirstUnused(names, old(clientFds), clientFds[fd])
      ensures input.select.Ready? && masterFd in input.select.fds && input.accept.Accepted? ==>
        (input.accept.fd in clientFds <==> exists name :: name in names && name !in old(clientFds).Values)
      // the answers
      ensures |old(sent)| <= |sent| && sent[..|old(sent)|] == old(sent)
      ensures forall fd, text :: (fd, text) in sent[|old(sent)|..] <==> fd in handled && Answers(input.recv(fd), text)
    {
      ghost var registered, before := clientFds, sent;
      handled := RoundSteps(input);
      RoundMeaning(input, names, registered, masterFd, handled, clientFds);
      RepliesAreAnswers(handled, input.recv);
      assert sent[|before|..] == RepliesTo(handled, input.recv);
    }

    /** cleanup_sockets: say Shut Down to every client, close every descriptor. */
    method CleanupSockets()
      requires Valid()
      modifies `clientFds, `masterFd, `connections, `closed, `sent
      ensures Valid() && clientFds == map[] && connections == map[] && masterFd == -1
      ensures multiset(closed) == multiset(seq(accepted, i => i))
      ensures |sent| == |old(sent)| + |old(clientFds)|
      ensures forall fd | fd in old(clientFds) :: (fd, SHUT_DOWN) in sent[|old(sent)|..]
    {
      var rest := clientFds;
      ghost var said: seq<(int, string)> := [];
      while rest != map[]
        invariant connections.Keys == rest.Keys
        invariant rest.Keys <= old(clientFds).Keys
        invariant Ledger(connections, closed, accepted)
        invariant sent == old(sent) + said && |said| + |rest| == |old(clientFds)|
        invariant forall fd | fd in old(clientFds).Keys - rest.Keys :: (fd, SHUT_DOWN) in said
        invariant clientFds == old(clientFds)
        decreases |rest|
      {
        SomeElement(rest.Keys);
        var fd :| fd in rest.Keys;
        LedgerClose(connections, closed, accepted, fd);
        sent := sent + [(fd, SHUT_DOWN)];
        said := said + [(fd, SHUT_DOWN)];
        closed := closed + [connections[fd]];
        connections := connections - {fd};
        assert |rest - {fd}| == |rest| - 1;
        rest := rest - {fd};
      }
      clientFds := map[];
      masterFd := -1;
      assert connections == map[];
      AllClosedOnce(closed, accepted);
    }

    /** main(): rounds against an arbitrary kernel until the loop stops or SIGINT arrives,
        then the cleanup. Every accepted connection ends up closed exactly once. */
    method Serve(rounds: nat, kernel: (nat, set<int>) -> RoundInput)
      requires Valid() && running && masterFd != -1
      requires forall k, registered :: Honest(kernel(k, registered), registered, masterFd)
      modifies this
      ensures !running && masterFd == -1 && clientFds == map[] && connections == map[]
      ensures multiset(closed) == multiset(seq(accepted, i => i))
    {
      var k := 0;
      while running && k < rounds
        invariant Valid() && masterFd == old(masterFd)
        decreases rounds - k
      {
        var _ := Round(kernel(k, clientFds.Keys));
        k := k + 1;
      }
      if running {
        SigInt();
      }
      CleanupSockets();
    }
  }
}

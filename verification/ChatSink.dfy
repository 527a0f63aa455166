/** Lab9: any number of reader threads push what they read into one queue under a mutex,
    and the main loop drains the queue to the output. */
module ChatSink {
  import opened Sequences
  import opened Text

  /** What one read() delivers: shorter than the 4096-byte buffer, so that the buffer is
      still terminated by a NUL. */
  type Chunk = s: string | 0 < |s| < 4096 witness "x"

  datatype Input = Data(chunk: Chunk) | Eof | Failure

  datatype ReaderPc = RHead | Reading | RWantLock(text: string) | RHasLock(text: string) | RUnlocking | RExited

  /** A receive thread; `chunks` is the history of what it has read. */
  datatype Reader = Reader(pc: ReaderPc, chunks: seq<string>)

  datatype Holder = Nobody | Main | Thread(t: nat)

  datatype MainPc = Head | Accepting | WantLock | Testing | Popping | Unlocking | Stopped

  /** `pushes` is a history: which thread pushed what, in order. */
  datatype State = State(
    running: bool, readers: seq<Reader>, mutex: Holder, queue: seq<string>,
    mainPc: MainPc, printed: seq<string>, pushes: seq<(nat, string)>)

  /** MainTurn: `pending` says whether accept() finds a connection. */
  datatype Action = MainTurn(pending: bool) | ReaderTurn(t: nat, input: Input) | Interrupt

  function MainStep(st: State, pending: bool): State {
    match st.mainPc
    case Head => st.(mainPc := if st.running then Accepting else Stopped)
    case Accepting => st.(mainPc := WantLock, readers := st.readers + (if pending then [Reader(RHead, [])] else []))
    case WantLock => if st.mutex == Nobody then st.(mutex := Main, mainPc := Testing) else st
    case Testing =>
      if st.queue == [] then st.(mainPc := Unlocking)
      else st.(printed := st.printed + [st.queue[0]], mainPc := Popping)
    case Popping => st.(queue := if st.queue == [] then [] else st.queue[1..], mainPc := Testing)
    case Unlocking => st.(mutex := Nobody, mainPc := Head)
    case Stopped => st
  }

  function ReaderStep(st: State, t: nat, input: Input): State
    requires t < |st.readers|
  {
    var r := st.readers[t];
    match r.pc
    case RHead => st.(readers := st.readers[t := r.(pc := if st.running then Reading else RExited)])
    case Reading =>
      (match input
       case Data(chunk) => st.(readers := st.readers[t := Reader(RWantLock(CString(chunk)), r.chunks + [chunk])])
       case Eof => st.(readers := st.readers[t := r.(pc := RExited)])
       case Failure => st.(readers := st.readers[t := r.(pc := RHead)]))
    case RWantLock(text) =>
      if st.mutex == Nobody then st.(mutex := Thread(t), readers := st.readers[t := r.(pc := RHasLock(text))]) else st
    case RHasLock(text) =>
      st.(queue := st.queue + [text], pushes := st.pushes + [(t, text)], readers := st.readers[t := r.(pc := RUnlocking)])
    case RUnlocking => st.(mutex := Nobody, readers := st.readers[t := r.(pc := RHead)])
    case RExited => st
  }

  function Step(st: State, a: Action): State {
    match a
    case MainTurn(pending) => MainStep(st, pending)
    case ReaderTurn(t, input) => if t < |st.readers| then ReaderStep(st, t, input) else st
    case Interrupt => st.(running := false)
  }

  function Run(st: State, schedule: seq<Action>): State {
    if schedule == [] then st else Step(Run(st, schedule[..|schedule| - 1]), schedule[|schedule| - 1])
  }

  function Init(): State {
    State(true, [], Nobody, [], Head, [], [])
  }

  ghost predicate Reachable(st: State) {
    exists schedule :: st == Run(Init(), schedule)
  }

  // ------------------------------------------------------------------ vocabulary

  function Texts(tagged: seq<(nat, string)>): (r: seq<string>)
    ensures |r| == |tagged|
  {
    seq(|tagged|, i requires 0 <= i < |tagged| => tagged[i].1)
  }

  /** The texts that thread t contributed, in order. */
  function From(t: nat, tagged: seq<(nat, string)>): seq<string> {
    if tagged == [] then []
    else From(t, tagged[..|tagged| - 1]) + (if tagged[|tagged| - 1].0 == t then [tagged[|tagged| - 1].1] else [])
  }

  /** The C strings of a thread's reads. */
  function CStrings(chunks: seq<string>): (r: seq<string>)
    ensures |r| == |chunks|
  {
    seq(|chunks|, i requires 0 <= i < |chunks| => CString(chunks[i]))
  }

  function Hand(r: Reader): seq<string> {
    match r.pc
    case RWantLock(text) => [text]
    case RHasLock(text) => [text]
    case _ => []
  }

  /** What is queued and not yet printed. */
  function Unprinted(st: State): seq<string> {
    if st.mainPc == Popping && st.queue != [] then st.queue[1..] else st.queue
  }

  /** Every element of `out` belongs to one of the streams, and what belongs to a stream is,
      in order, a prefix of it. */
  ghost predicate Explains(tagged: seq<(nat, string)>, out: seq<string>, streams: seq<seq<string>>) {
    && Texts(tagged) == out
    && (forall p | p in tagged :: p.0 < |streams|)
    && forall t: nat | t < |streams| :: IsPrefix(From(t, tagged), streams[t])
  }

  /** `out` is an order-preserving merge of prefixes of the streams. */
  ghost predicate IsMerge(out: seq<string>, streams: seq<seq<string>>) {
    exists tagged :: Explains(tagged, out, streams)
  }

  // -------------------------------------------------------------------- invariant

  predicate MainInside(st: State) {
    st.mainPc == Testing || st.mainPc == Popping || st.mainPc == Unlocking
  }

  predicate ReaderInside(r: Reader) {
    r.pc.RHasLock? || r.pc == RUnlocking
  }

  ghost predicate MutexInv(st: State) {
    && (st.mutex == Main <==> MainInside(st))
    && (forall t: nat | t < |st.readers| :: ReaderInside(st.readers[t]) <==> st.mutex == Thread(t))
    && (st.mutex.Thread? ==> st.mutex.t < |st.readers|)
    && (st.mainPc == Popping || st.mainPc == Unlocking ==> (st.queue == [] <==> st.mainPc == Unlocking))
  }

  ghost predicate ReadersInv(st: State) {
    && (forall t: nat | t < |st.readers| :: From(t, st.pushes) + Hand(st.readers[t]) == CStrings(st.readers[t].chunks))
    && (forall p | p in st.pushes :: p.0 < |st.readers|)
  }

  ghost predicate OutputInv(st: State) {
    st.printed + Unprinted(st) == Texts(st.pushes)
  }

  ghost predicate Inv(st: State) {
    MutexInv(st) && ReadersInv(st) && OutputInv(st)
  }

  lemma {:induction false} FromNobody(t: nat, tagged: seq<(nat, string)>)
    requires forall p | p in tagged :: p.0 != t
    ensures From(t, tagged) == []
  {
    if tagged != [] {
      assert tagged[|tagged| - 1] in tagged;
      FromNobody(t, tagged[..|tagged| - 1]);
    }
  }

  lemma FromSnoc(t: nat, tagged: seq<(nat, string)>, p: (nat, string))
    ensures From(t, tagged + [p]) == From(t, tagged) + (if p.0 == t then [p.1] else [])
  {
    assert (tagged + [p])[..|tagged|] == tagged;
  }

  lemma MainKeepsMutex(st: State, pending: bool)
    requires MutexInv(st)
    ensures MutexInv(MainStep(st, pending))
  {
  }

  lemma MainKeepsReaders(st: State, pending: bool)
    requires ReadersInv(st)
    ensures ReadersInv(MainStep(st, pending))
  {
    if st.mainPc == Accepting && pending {
      forall p | p in st.pushes ensures p.0 != |st.readers| {
      }
      FromNobody(|st.readers|, st.pushes);
    }
  }

  lemma MainKeepsOutput(st: State, pending: bool)
    requires MutexInv(st) && OutputInv(st)
    ensures OutputInv(MainStep(st, pending))
  {
    if st.mainPc == Testing && st.queue != [] {
      assert st.queue == [st.queue[0]] + st.queue[1..];
    }
  }

  lemma MainKeeps(st: State, pending: bool)
    requires Inv(st)
    ensures Inv(MainStep(st, pending))
  {
    MainKeepsMutex(st, pending);
    MainKeepsReaders(st, pending);
    MainKeepsOutput(st, pending);
  }

  lemma ReaderKeepsMutex(st: State, t: nat, input: Input)
    requires MutexInv(st) && t < |st.readers|
    ensures MutexInv(ReaderStep(st, t, input))
  {
  }

  /** A push moves the text in hand to the thread's pushes. */
  lemma PushKeepsReaders(st: State, t: nat, input: Input)
    requires ReadersInv(st) && t < |st.readers| && st.readers[t].pc.RHasLock?
    ensures ReadersInv(ReaderStep(st, t, input))
  {
    var st', text := ReaderStep(st, t, input), st.readers[t].pc.text;
    forall u: nat | u < |st.readers|
      ensures From(u, st'.pushes) + Hand(st'.readers[u]) == CStrings(st'.readers[u].chunks)
    {
      FromSnoc(u, st.pushes, (t, text));
      assert From(u, st.pushes) + Hand(st.readers[u]) == CStrings(st.readers[u].chunks);
    }
  }

  /** The thread holds the mutex, so the main loop is not in the middle of a pop. */
  lemma PushKeepsOutput(st: State, t: nat, input: Input)
    requires MutexInv(st) && OutputInv(st) && t < |st.readers| && st.readers[t].pc.RHasLock?
    ensures OutputInv(ReaderStep(st, t, input))
  {
    var st', text := ReaderStep(st, t, input), st.readers[t].pc.text;
    assert ReaderInside(st.readers[t]);
    assert st.mutex == Thread(t) && !MainInside(st);
    assert Texts(st'.pushes) == Texts(st.pushes) + [text];
    assert Unprinted(st') == Unprinted(st) + [text];
  }

  lemma PushKeeps(st: State, t: nat, input: Input)
    requires Inv(st) && t < |st.readers| && st.readers[t].pc.RHasLock?
    ensures ReadersInv(ReaderStep(st, t, input)) && OutputInv(ReaderStep(st, t, input))
  {
    PushKeepsReaders(st, t, input);
    PushKeepsOutput(st, t, input);
  }

  /** Any other step of a thread changes only its own variables and the mutex. */
  lemma LocalFrame(st: State, t: nat, input: Input)
    requires t < |st.readers| && !st.readers[t].pc.RHasLock?
    ensures var st' := ReaderStep(st, t, input);
      && |st'.readers| == |st.readers|
      && (forall u: nat | u < |st.readers| && u != t :: st'.readers[u] == st.readers[u])
      && st'.pushes == st.pushes && st'.queue == st.queue && st'.printed == st.printed && st'.mainPc == st.mainPc
  {
  }

  lemma CStringsSnoc(chunks: seq<string>, chunk: string)
    ensures CStrings(chunks + [chunk]) == CStrings(chunks) + [CString(chunk)]
  {
  }

  lemma OwnReads(st: State, t: nat, input: Input)
    requires t < |st.readers| && !st.readers[t].pc.RHasLock?
    requires From(t, st.pushes) + Hand(st.readers[t]) == CStrings(st.readers[t].chunks)
    ensures var r' := ReaderStep(st, t, input).readers[t]; From(t, st.pushes) + Hand(r') == CStrings(r'.chunks)
  {
    var r, r' := st.readers[t], ReaderStep(st, t, input).readers[t];
    if r.pc == Reading && input.Data? {
      CStringsSnoc(r.chunks, input.chunk);
    } else {
      assert Hand(r') == Hand(r) && r'.chunks == r.chunks;
    }
  }

  lemma LocalKeeps(st: State, t: nat, input: Input)
    requires Inv(st) && t < |st.readers| && !st.readers[t].pc.RHasLock?
    ensures ReadersInv(ReaderStep(st, t, input)) && OutputInv(ReaderStep(st, t, input))
  {
    LocalFrame(st, t, input);
    OwnReads(st, t, input);
  }

  lemma ReaderKeeps(st: State, t: nat, input: Input)
    requires Inv(st) && t < |st.readers|
    ensures Inv(ReaderStep(st, t, input))
  {
    ReaderKeepsMutex(st, t, input);
    if st.readers[t].pc.RHasLock? {
      PushKeeps(st, t, input);
    } else {
      LocalKeeps(st, t, input);
    }
  }

  lemma {:induction false} RunKeeps(st: State, schedule: seq<Action>)
    requires Inv(st)
    ensures Inv(Run(st, schedule))
  {
    if schedule != [] {
      var before := Run(st, schedule[..|schedule| - 1]);
      RunKeeps(st, schedule[..|schedule| - 1]);
      match schedule[|schedule| - 1]
      case MainTurn(pending) => MainKeeps(before, pending);
      case ReaderTurn(t, input) => if t < |before.readers| { ReaderKeeps(before, t, input); }
      case Interrupt =>
    }
  }

  lemma ReachableInv(st: State)
    requires Reachable(st)
    ensures Inv(st)
  {
    var schedule :| st == Run(Init(), schedule);
    RunKeeps(Init(), schedule);
  }

  // ----------------------------------------------------------------- main results

  /** Printed output followed by the queue is the push sequence, and each thread's pushes
      are its reads minus at most the one in its hand. */
  lemma NothingLost(st: State)
    requires Reachable(st)
    ensures st.printed + Unprinted(st) == Texts(st.pushes)
    ensures forall t: nat | t < |st.readers| ::
      |Hand(st.readers[t])| <= 1 && From(t, st.pushes) + Hand(st.readers[t]) == CStrings(st.readers[t].chunks)
  {
    ReachableInv(st);
  }

  function Streams(st: State): (r: seq<seq<string>>)
    ensures |r| == |st.readers|
  {
    seq(|st.readers|, t requires 0 <= t < |st.readers| => CStrings(st.readers[t].chunks))
  }

  lemma {:induction false} FromPrefix(t: nat, tagged: seq<(nat, string)>, n: nat)
    requires n <= |tagged|
    ensures IsPrefix(From(t, tagged[..n]), From(t, tagged))
  {
    if n < |tagged| {
      FromPrefix(t, tagged[..|tagged| - 1], n);
      assert tagged[..|tagged| - 1][..n] == tagged[..n];
    } else {
      assert tagged[..n] == tagged;
    }
  }

  /** For any number of clients and any interleaving the output is an order-preserving
      merge of what the clients sent. */
  lemma OutputIsMerge(st: State)
    requires Reachable(st)
    ensures IsMerge(st.printed, Streams(st))
  {
    ReachableInv(st);
    var n := |st.printed|;
    var tagged := st.pushes[..n];
    assert Texts(tagged) == Texts(st.pushes)[..n] == st.printed;
    forall t: nat | t < |Streams(st)| ensures IsPrefix(From(t, tagged), Streams(st)[t]) {
      FromPrefix(t, st.pushes, n);
      assert Streams(st)[t] == From(t, st.pushes) + Hand(st.readers[t]);
    }
    assert forall p | p in tagged :: p in st.pushes;
    assert Explains(tagged, st.printed, Streams(st));
  }

  /** How much of a merge comes from the first n streams. */
  function TakenFrom(tagged: seq<(nat, string)>, n: nat): nat {
    if n == 0 then 0 else TakenFrom(tagged, n - 1) + |From(n - 1, tagged)|
  }

  lemma {:induction false} TakenSnoc(tagged: seq<(nat, string)>, p: (nat, string), n: nat)
    ensures TakenFrom(tagged + [p], n) == TakenFrom(tagged, n) + (if p.0 < n then 1 else 0)
  {
    if n > 0 {
      TakenSnoc(tagged, p, n - 1);
      FromSnoc(n - 1, tagged, p);
    }
  }

  lemma {:induction false} NothingTaken(n: nat)
    ensures TakenFrom([], n) == 0
  {
    if n > 0 {
      NothingTaken(n - 1);
    }
  }

  /** Nothing in a merge is invented: the prefixes taken from the streams make up all of it. */
  lemma {:induction false} MergeIsExhaustive(tagged: seq<(nat, string)>, out: seq<string>, streams: seq<seq<string>>)
    requires Explains(tagged, out, streams)
    ensures |out| == TakenFrom(tagged, |streams|)
  {
    TakenAll(tagged, |streams|);
  }

  lemma {:induction false} TakenAll(tagged: seq<(nat, string)>, n: nat)
    requires forall p | p in tagged :: p.0 < n
    ensures TakenFrom(tagged, n) == |tagged|
  {
    if tagged == [] {
      NothingTaken(n);
    } else {
      var front, last := tagged[..|tagged| - 1], tagged[|tagged| - 1];
      assert tagged == front + [last] && last in tagged;
      TakenAll(front, n);
      TakenSnoc(front, last, n);
    }
  }

  /** The mutex has at most one holder: the main loop, or one reader thread. */
  lemma AtMostOneHolder(st: State, t: nat, u: nat)
    requires Reachable(st) && t < |st.readers| && u < |st.readers|
    requires ReaderInside(st.readers[t])
    ensures !MainInside(st) && (ReaderInside(st.readers[u]) <==> t == u)
  {
    ReachableInv(st);
  }

  /** When the main loop lets go of the mutex, everything pushed so far has been printed. */
  lemma DrainIsComplete(st: State)
    requires Reachable(st) && st.mainPc == Unlocking
    ensures st.printed == Texts(st.pushes)
  {
    ReachableInv(st);
  }

  /** The text pushed is the data read exactly when the data contains no NUL; from the
      first NUL on, a chunk is lost. */
  lemma VerbatimIffNoNul(chunks: seq<string>)
    ensures CStrings(chunks) == chunks <==> forall c | c in chunks :: '\0' !in c
  {
    if CStrings(chunks) == chunks {
      forall c | c in chunks ensures '\0' !in c {
        var i :| 0 <= i < |chunks| && chunks[i] == c;
        assert CStrings(chunks)[i] == CString(c);
      }
    }
  }

  /** The server as an object whose shared variables the threads update in place. */
  class ChatServer {
    var isRunning: bool
    var readers: seq<Reader>
    var mutex: Holder
    var messageQueue: seq<string>
    var mainPc: MainPc
    ghost var printed: seq<string>
    ghost var pushes: seq<(nat, string)>

    ghost function View(): State
      reads this
    {
      State(isRunning, readers, mutex, messageQueue, mainPc, printed, pushes)
    }

    constructor ()
      ensures View() == Init()
    {
      isRunning, readers, mutex, messageQueue, mainPc, printed, pushes := true, [], Nobody, [], Head, [], [];
    }

    method MainLoopTurn(pending: bool)
      modifies this
      ensures View() == MainStep(old(View()), pending)
    {
      match mainPc
      case Head => mainPc := if isRunning then Accepting else Stopped;
      case Accepting =>
        if pending {
          readers := readers + [Reader(RHead, [])];
        }
        mainPc := WantLock;
      case WantLock =>
        if mutex == Nobody {
          mutex, mainPc := Main, Testing;
        }
      case Testing =>
        if messageQueue == [] {
          mainPc := Unlocking;
        } else {
          printed := printed + [messageQueue[0]];
          mainPc := Popping;
        }
      case Popping =>
        if messageQueue != [] {
          messageQueue := messageQueue[1..];
        }
        mainPc := Testing;
      case Unlocking => mutex, mainPc := Nobody, Head;
      case Stopped =>
    }

    method ReceiveThreadTurn(t: nat, input: Input)
      requires t < |readers|
      modifies this
      ensures View() == ReaderStep(old(View()), t, input)
    {
      var r := readers[t];
      match r.pc
      case RHead => readers := readers[t := r.(pc := if isRunning then Reading else RExited)];
      case Reading =>
        match input {
          case Data(chunk) => readers := readers[t := Reader(RWantLock(CString(chunk)), r.chunks + [chunk])];
          case Eof => readers := readers[t := r.(pc := RExited)];
          case Failure => readers := readers[t := r.(pc := RHead)];
        }
      case RWantLock(text) =>
        if mutex == Nobody {
          mutex := Thread(t);
          readers := readers[t := r.(pc := RHasLock(text))];
        }
      case RHasLock(text) =>
        messageQueue := messageQueue + [text];
        pushes := pushes + [(t, text)];
        readers := readers[t := r.(pc := RUnlocking)];
      case RUnlocking =>
        mutex := Nobody;
        readers := readers[t := r.(pc := RHead)];
      case RExited =>
    }

    /** Executes an arbitrary interleaving of the main loop, the threads and SIGINT. */
    method Execute(schedule: seq<Action>)
      modifies this
      ensures View() == Run(old(View()), schedule)
    {
      for i := 0 to |schedule|
        invariant View() == Run(old(View()), schedule[..i])
      {
        match schedule[i] {
          case MainTurn(pending) => MainLoopTurn(pending);
          case ReaderTurn(t, input) => if t < |readers| { ReceiveThreadTurn(t, input); }
          case Interrupt => isRunning := false;
        }
        assert schedule[..i + 1][..i] == schedule[..i];
      }
      assert schedule[..|schedule|] == schedule;
    }
  }

  /** The server, run from the start: its output is a merge of what the clients sent. */
  method Simulate(schedule: seq<Action>) returns (server: ChatServer)
    ensures fresh(server) && server.View() == Run(Init(), schedule)
    ensures IsMerge(server.printed, Streams(server.View()))
  {
    server := new ChatServer();
    server.Execute(schedule);
    OutputIsMerge(server.View());
  }
}

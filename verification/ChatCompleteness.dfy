/** What the Lab9 server can do: every merge is the output of some run, whatever the clients
    send; and what still happens after the end of a stream and after SIGINT. */
module ChatCompleteness {
  import opened Sequences
  import opened ChatSink

  /** One more action of a run from the start. */
  lemma Extend(schedule: seq<Action>, a: Action) returns (longer: seq<Action>, st: State)
    ensures st == Run(Init(), longer) && st == Step(Run(Init(), schedule), a)
  {
    longer := schedule + [a];
    assert longer[..|schedule|] == schedule;
    st := Run(Init(), longer);
  }

  // ------------------------------------------------------------- between two rounds

  /** The main loop is at its head, nobody holds the mutex, every thread is at its loop head,
      and thread t has read chunks[t]. */
  ghost predicate Quiet(st: State, chunks: seq<seq<string>>, queue: seq<string>, printed: seq<string>) {
    && st.running && st.mutex == Nobody && st.mainPc == Head
    && st.queue == queue && st.printed == printed
    && |st.readers| == |chunks|
    && forall t | 0 <= t < |chunks| :: st.readers[t] == Reader(RHead, chunks[t])
  }

  /** A client connects: one round of the main loop with nothing to print. */
  lemma Connect(schedule: seq<Action>, chunks: seq<seq<string>>) returns (longer: seq<Action>)
    requires Quiet(Run(Init(), schedule), chunks, [], [])
    ensures Quiet(Run(Init(), longer), chunks + [[]], [], [])
  {
    var st: State;
    longer, st := Extend(schedule, MainTurn(true));
    longer, st := Extend(longer, MainTurn(true));
    longer, st := Extend(longer, MainTurn(true));
    longer, st := Extend(longer, MainTurn(true));
    longer, st := Extend(longer, MainTurn(true));
  }

  /** Thread t reads a chunk and pushes it. */
  lemma Push(schedule: seq<Action>, chunks: seq<seq<string>>, queue: seq<string>, printed: seq<string>, t: nat, text: string)
      returns (longer: seq<Action>)
    requires Quiet(Run(Init(), schedule), chunks, queue, printed) && t < |chunks|
    requires 0 < |text| < 4096 && '\0' !in text
    ensures Quiet(Run(Init(), longer), chunks[t := chunks[t] + [text]], queue + [text], printed)
  {
    var st: State;
    longer, st := Extend(schedule, ReaderTurn(t, Eof));
    longer, st := Extend(longer, ReaderTurn(t, Data(text)));
    assert st.readers[t] == Reader(RWantLock(text), chunks[t] + [text]);
    longer, st := Extend(longer, ReaderTurn(t, Eof));
    longer, st := Extend(longer, ReaderTurn(t, Eof));
    assert st.queue == queue + [text];
    longer, st := Extend(longer, ReaderTurn(t, Eof));
    assert st.readers[t] == Reader(RHead, chunks[t] + [text]);
  }

  /** One round of the main loop prints the text that is queued. */
  lemma Show(schedule: seq<Action>, chunks: seq<seq<string>>, printed: seq<string>, text: string) returns (longer: seq<Action>)
    requires Quiet(Run(Init(), schedule), chunks, [text], printed)
    ensures Quiet(Run(Init(), longer), chunks, [], printed + [text])
  {
    var st: State;
    longer, st := Extend(schedule, MainTurn(false));
    longer, st := Extend(longer, MainTurn(false));
    assert st.readers == Run(Init(), schedule).readers;
    longer, st := Extend(longer, MainTurn(false));
    longer, st := Extend(longer, MainTurn(false));
    longer, st := Extend(longer, MainTurn(false));
    assert st.queue == [];
    longer, st := Extend(longer, MainTurn(false));
    longer, st := Extend(longer, MainTurn(false));
  }

  // ------------------------------------------------------------------ all clients connect

  function Nothing(n: nat): (chunks: seq<seq<string>>)
    ensures |chunks| == n && forall t | 0 <= t < n :: chunks[t] == []
  {
    seq(n, t => [])
  }

  lemma {:induction false} ConnectAll(n: nat) returns (schedule: seq<Action>)
    ensures Quiet(Run(Init(), schedule), Nothing(n), [], [])
  {
    if n == 0 {
      schedule := [];
    } else {
      schedule := ConnectAll(n - 1);
      schedule := Connect(schedule, Nothing(n - 1));
      assert Nothing(n - 1) + [[]] == Nothing(n);
    }
  }

  // ------------------------------------------------------------- the printed part

  /** What the threads have read when the texts in `tagged` have been pushed. */
  function ReadBy(n: nat, tagged: seq<(nat, string)>): (chunks: seq<seq<string>>)
    ensures |chunks| == n && forall t | 0 <= t < n :: chunks[t] == From(t, tagged)
  {
    seq(n, t requires 0 <= t => From(t, tagged))
  }

  predicate Sendable(text: string) {
    0 < |text| < 4096 && '\0' !in text
  }

  lemma {:induction false} PrintAll(n: nat, tagged: seq<(nat, string)>) returns (schedule: seq<Action>)
    requires forall p | p in tagged :: p.0 < n && Sendable(p.1)
    ensures Quiet(Run(Init(), schedule), ReadBy(n, tagged), [], Texts(tagged))
  {
    if tagged == [] {
      schedule := ConnectAll(n);
      assert Nothing(n) == ReadBy(n, tagged);
      assert Texts(tagged) == [];
    } else {
      var front, p := tagged[..|tagged| - 1], tagged[|tagged| - 1];
      assert p in tagged && tagged == front + [p];
      schedule := PrintAll(n, front);
      var chunks := ReadBy(n, front);
      schedule := Push(schedule, chunks, [], Texts(front), p.0, p.1);
      assert [] + [p.1] == [p.1];
      schedule := Show(schedule, chunks[p.0 := chunks[p.0] + [p.1]], Texts(front), p.1);
      ReadOneMore(n, front, p);
      assert Texts(front) + [p.1] == Texts(tagged);
    }
  }

  lemma ReadOneMore(n: nat, front: seq<(nat, string)>, p: (nat, string))
    requires p.0 < n
    ensures ReadBy(n, front + [p]) == ReadBy(n, front)[p.0 := ReadBy(n, front)[p.0] + [p.1]]
  {
    forall t | 0 <= t < n ensures From(t, front + [p]) == if t == p.0 then From(t, front) + [p.1] else From(t, front) {
      FromSnoc(t, front, p);
    }
  }

  // ------------------------------------------------------------- the part still queued

  /** Thread t pushes the rest of its stream. */
  lemma {:induction false} PushRest(schedule: seq<Action>, chunks: seq<seq<string>>, queue: seq<string>, printed: seq<string>,
      t: nat, rest: seq<string>) returns (longer: seq<Action>, queue': seq<string>)
    requires Quiet(Run(Init(), schedule), chunks, queue, printed) && t < |chunks|
    requires forall x | x in rest :: Sendable(x)
    ensures Quiet(Run(Init(), longer), chunks[t := chunks[t] + rest], queue', printed)
    decreases |rest|
  {
    if rest == [] {
      longer, queue' := schedule, queue;
      assert chunks[t] + rest == chunks[t];
    } else {
      var x := rest[0];
      assert x in rest && Sendable(x);
      var next := chunks[t := chunks[t] + [x]];
      longer := Push(schedule, chunks, queue, printed, t, x);
      longer, queue' := PushRest(longer, next, queue + [x], printed, t, rest[1..]);
      assert next[t] + rest[1..] == chunks[t] + rest by { assert rest == [x] + rest[1..]; }
      assert next[t := next[t] + rest[1..]] == chunks[t := chunks[t] + rest];
    }
  }

  /** The first n threads have read their whole streams, the others as much as in `chunks`. */
  lemma {:induction false} ReadAll(schedule: seq<Action>, chunks: seq<seq<string>>, printed: seq<string>,
      streams: seq<seq<string>>, n: nat) returns (longer: seq<Action>, queue: seq<string>)
    requires Quiet(Run(Init(), schedule), chunks, [], printed) && |chunks| == |streams| && n <= |streams|
    requires forall t | 0 <= t < |streams| :: IsPrefix(chunks[t], streams[t])
    requires forall t, x | 0 <= t < |streams| && x in streams[t] :: Sendable(x)
    ensures Quiet(Run(Init(), longer), streams[..n] + chunks[n..], queue, printed)
  {
    if n == 0 {
      longer, queue := schedule, [];
      assert streams[..0] + chunks[0..] == chunks;
    } else {
      longer, queue := ReadAll(schedule, chunks, printed, streams, n - 1);
      var now := streams[..n - 1] + chunks[n - 1..];
      var rest := streams[n - 1][|chunks[n - 1]|..];
      assert now[n - 1] == chunks[n - 1];
      longer, queue := PushRest(longer, now, queue, printed, n - 1, rest);
      assert chunks[n - 1] + rest == streams[n - 1];
      assert now[n - 1 := streams[n - 1]] == streams[..n] + chunks[n..];
    }
  }

  // --------------------------------------------------------------------- main result

  lemma FromMembers(t: nat, tagged: seq<(nat, string)>, p: (nat, string))
    requires p in tagged && p.0 == t
    ensures p.1 in From(t, tagged)
  {
    var front, last := tagged[..|tagged| - 1], tagged[|tagged| - 1];
    assert tagged == front + [last];
    if p in front {
      FromMembers(t, front, p);
    }
  }

  lemma TaggedIsSendable(tagged: seq<(nat, string)>, out: seq<string>, streams: seq<seq<string>>, p: (nat, string))
    requires Explains(tagged, out, streams) && p in tagged
    requires forall t, x | 0 <= t < |streams| && x in streams[t] :: Sendable(x)
    ensures p.0 < |streams| && Sendable(p.1)
  {
    FromMembers(p.0, tagged, p);
    assert IsPrefix(From(p.0, tagged), streams[p.0]);
    assert p.1 in streams[p.0];
  }

  lemma Verbatim(chunks: seq<string>)
    requires forall x | x in chunks :: Sendable(x)
    ensures CStrings(chunks) == chunks
  {
    VerbatimIffNoNul(chunks);
  }

  /** Completeness: however many clients there are and whatever texts they send (without NUL,
      and shorter than the buffer), every order-preserving merge of prefixes of their streams is
      the output of some run in which they send exactly these streams. */
  lemma EveryMergeIsPossible(tagged: seq<(nat, string)>, out: seq<string>, streams: seq<seq<string>>)
      returns (schedule: seq<Action>)
    requires Explains(tagged, out, streams)
    requires forall t, x | 0 <= t < |streams| && x in streams[t] :: 0 < |x| < 4096 && '\0' !in x
    ensures var end := Run(Init(), schedule); end.printed == out && Streams(end) == streams
  {
    forall p | p in tagged ensures p.0 < |streams| && Sendable(p.1) {
      TaggedIsSendable(tagged, out, streams, p);
    }
    schedule := PrintAll(|streams|, tagged);
    var queue: seq<string>;
    schedule, queue := ReadAll(schedule, ReadBy(|streams|, tagged), out, streams, |streams|);
    assert streams[..|streams|] + ReadBy(|streams|, tagged)[|streams|..] == streams;
    var end := Run(Init(), schedule);
    forall t | 0 <= t < |streams| ensures Streams(end)[t] == streams[t] {
      Verbatim(streams[t]);
    }
  }

  // ------------------------------------------------------------ the end of a stream

  lemma ExitedStep(st: State, t: nat, a: Action)
    requires t < |st.readers| && st.readers[t].pc == RExited
    ensures t < |Step(st, a).readers| && Step(st, a).readers[t] == st.readers[t]
  {
  }

  lemma {:induction false} ExitedForEver(st: State, t: nat, schedule: seq<Action>)
    requires t < |st.readers| && st.readers[t].pc == RExited
    ensures t < |Run(st, schedule).readers| && Run(st, schedule).readers[t] == st.readers[t]
  {
    if schedule != [] {
      ExitedForEver(st, t, schedule[..|schedule| - 1]);
      ExitedStep(Run(st, schedule[..|schedule| - 1]), t, schedule[|schedule| - 1]);
    }
  }

  /** A thread that reads the end of its stream, or finds the server stopped at its loop head,
      never reads or pushes again; one whose read times out does, while the server runs. */
  lemma ThreadEnds(st: State, t: nat, input: Input, schedule: seq<Action>)
    requires t < |st.readers|
    requires (st.readers[t].pc == Reading && input == Eof) || (st.readers[t].pc == RHead && !st.running)
    ensures var end := Run(Step(st, ReaderTurn(t, input)), schedule);
      t < |end.readers| && end.readers[t] == Reader(RExited, st.readers[t].chunks)
  {
    ExitedForEver(Step(st, ReaderTurn(t, input)), t, schedule);
  }

  lemma TimeoutGoesOn(st: State, t: nat)
    requires t < |st.readers| && st.readers[t].pc == Reading && st.running
    ensures Step(Step(st, ReaderTurn(t, Failure)), ReaderTurn(t, Failure)) == st
  {
    assert st.readers[t := st.readers[t].(pc := RHead)][t := st.readers[t]] == st.readers;
  }

  // ----------------------------------------------------------------------- after SIGINT

  function Accepts(st: State): nat {
    |st.readers| + (if st.mainPc == Accepting then 1 else 0)
  }

  function Reads(r: Reader): nat {
    |r.chunks| + (if r.pc == Reading then 1 else 0)
  }

  lemma StoppedMain(st: State, pending: bool)
    requires !st.running
    ensures var st' := MainStep(st, pending);
      && !st'.running && Accepts(st') <= Accepts(st) && |st.readers| <= |st'.readers|
      && forall t | 0 <= t < |st.readers| :: st'.readers[t] == st.readers[t]
  {
  }

  lemma StoppedReader(st: State, t: nat, input: Input)
    requires !st.running && t < |st.readers|
    ensures var st' := ReaderStep(st, t, input);
      && !st'.running && Accepts(st') == Accepts(st) && |st.readers| == |st'.readers|
      && Reads(st'.readers[t]) <= Reads(st.readers[t])
      && forall u | 0 <= u < |st.readers| && u != t :: st'.readers[u] == st.readers[u]
  {
  }

  lemma StoppedStep(st: State, a: Action)
    requires !st.running
    ensures var st' := Step(st, a);
      && !st'.running && Accepts(st') <= Accepts(st) && |st.readers| <= |st'.readers|
      && forall t | 0 <= t < |st.readers| :: Reads(st'.readers[t]) <= Reads(st.readers[t])
  {
    match a
    case MainTurn(pending) => StoppedMain(st, pending);
    case ReaderTurn(t, input) =>
      if t < |st.readers| {
        StoppedReader(st, t, input);
      }
    case Interrupt =>
  }

  /** At its loop head a stopped server ends. */
  lemma MainEnds(st: State, pending: bool, schedule: seq<Action>)
    requires st.mainPc == Head
    ensures var end := Run(Step(Step(st, Interrupt), MainTurn(pending)), schedule);
      end.mainPc == Stopped && |end.readers| == |st.readers| && end.printed == st.printed
  {
    StoppedForEver(Step(Step(st, Interrupt), MainTurn(pending)), schedule);
  }

  lemma {:induction false} StoppedForEver(st: State, schedule: seq<Action>)
    requires st.mainPc == Stopped
    ensures var end := Run(st, schedule); end.mainPc == Stopped && |end.readers| == |st.readers| && end.printed == st.printed
  {
    if schedule != [] {
      StoppedForEver(st, schedule[..|schedule| - 1]);
    }
  }

  /** SIGINT stops everything in this way. */
  lemma InterruptedServer(st: State, schedule: seq<Action>)
    ensures var end := Run(Step(st, Interrupt), schedule);
      && |end.readers| <= |st.readers| + 1 && |st.readers| <= |end.readers|
      && forall t | 0 <= t < |st.readers| :: |end.readers[t].chunks| <= |st.readers[t].chunks| + 1
  {
    StoppedServer(Step(st, Interrupt), schedule);
  }

  /** After SIGINT at most one more connection is accepted, and none from the loop head, and
      every thread finishes at most the read it is in. */
  lemma {:induction false} StoppedServer(st: State, schedule: seq<Action>)
    requires !st.running
    ensures var end := Run(st, schedule);
      && !end.running && Accepts(end) <= Accepts(st) && |st.readers| <= |end.readers|
      && forall t | 0 <= t < |st.readers| :: Reads(end.readers[t]) <= Reads(st.readers[t])
  {
    if schedule != [] {
      StoppedServer(st, schedule[..|schedule| - 1]);
      StoppedStep(Run(st, schedule[..|schedule| - 1]), schedule[|schedule| - 1]);
    }
  }
}

/** Assignment1 Part2, worker_process.c: reading a file into a bounded buffer while sampling
    memory usage. The kernel's answers are parameters: how read() cuts the file into chunks,
    and what /proc/self/status shows at each sample. */
module AccumulatingWorker {
  import opened SignalHandler

  /** One look at /proc/self/status: it cannot be opened, it has no VmRSS line, or the usage
      in kB. */
  datatype Sample = Unavailable | NoLine | Usage(kB: int)

  type Chunks = c: seq<seq<int>> | forall i | 0 <= i < |c| :: 0 < |c[i]| <= 4096 witness []

  /** The file that the chunks are cut from. */
  function Whole(chunks: seq<seq<int>>): seq<int> {
    if chunks == [] then [] else Whole(chunks[..|chunks| - 1]) + chunks[|chunks| - 1]
  }

  /** The in-order concatenation of the chunks that fitted when they were read. */
  function Fitted(chunks: seq<seq<int>>, capacity: nat): (r: seq<int>)
    ensures |r| <= capacity
  {
    if chunks == [] then []
    else
      var before, last := Fitted(chunks[..|chunks| - 1], capacity), chunks[|chunks| - 1];
      if |before| + |last| <= capacity then before + last else before
  }

  predicate High(s: Sample) {
    s.Usage? && s.kB > 50000
  }

  /** Has the usage been too high in one of the samples? */
  predicate AnyHigh(samples: seq<Sample>) {
    samples != [] && (AnyHigh(samples[..|samples| - 1]) || High(samples[|samples| - 1]))
  }

  lemma {:induction false} AnyHighMeans(samples: seq<Sample>)
    ensures AnyHigh(samples) <==> exists s :: s in samples && s.Usage? && s.kB > 50000
  {
    if samples != [] {
      AnyHighMeans(samples[..|samples| - 1]);
      assert samples == samples[..|samples| - 1] + [samples[|samples| - 1]];
    }
  }

  /** How many turns of the loop are made: up to and including the first one whose sample
      cannot be taken. */
  function Turns(samples: seq<Sample>): (n: nat)
    ensures n <= |samples|
    ensures forall i | 0 <= i < n - 1 :: samples[i] != Unavailable
    ensures n < |samples| ==> n > 0 && samples[n - 1] == Unavailable
  {
    if samples == [] then 0 else if samples[0] == Unavailable then 1 else 1 + Turns(samples[1..])
  }

  predicate AllAvailable(samples: seq<Sample>) {
    forall i | 0 <= i < |samples| :: samples[i] != Unavailable
  }

  lemma {:induction false} WholeLength(chunks: Chunks, capacity: nat)
    ensures |Fitted(chunks, capacity)| <= |Whole(chunks)|
    ensures |Whole(chunks)| <= capacity ==> Fitted(chunks, capacity) == Whole(chunks)
  {
    if chunks != [] {
      WholeLength(chunks[..|chunks| - 1], capacity);
    }
  }

  /** Nothing is skipped exactly when the whole file fits into the buffer. */
  lemma CompleteIffFits(chunks: Chunks, capacity: nat)
    ensures Fitted(chunks, capacity) == Whole(chunks) <==> |Whole(chunks)| <= capacity
  {
    WholeLength(chunks, capacity);
  }

  lemma {:induction false} TurnsAreAvailable(samples: seq<Sample>, n: nat)
    requires n <= |samples| && AllAvailable(samples[..n])
    ensures n == |samples| ==> Turns(samples) == n
    ensures n < |samples| && samples[n] == Unavailable ==> Turns(samples) == n + 1
  {
    if n > 0 {
      assert samples[..n][0] == samples[0];
      assert samples[1..][..n - 1] == samples[..n][1..];
      TurnsAreAvailable(samples[1..], n - 1);
    }
  }

  /** What one worker sends: SIGUSR1 exactly once if some sampled usage exceeded 50000 and
      never otherwise, then SIGUSR2 if it completes. */
  function SignalsSent(initial: Sample, samples: seq<Sample>): seq<Signal> {
    (if High(initial) || AnyHigh(samples[..Turns(samples)]) then [Usr1] else [])
    + (if AllAvailable(samples) then [Usr2] else [])
  }

  /** The same without abbreviations. */
  lemma SignalsMean(initial: Sample, samples: seq<Sample>)
    ensures var seen := [initial] + samples[..Turns(samples)];
      SignalsSent(initial, samples) ==
        (if exists s :: s in seen && s.Usage? && s.kB > 50000 then [Usr1] else [])
        + (if Unavailable !in samples then [Usr2] else [])
  {
    var rest := samples[..Turns(samples)];
    AnyHighMeans(rest);
    assert forall s :: s in [initial] + rest <==> s == initial || s in rest;
  }

  /** One sample: the warning is sent the first time the usage is too high. */
  method Check(sample: Sample, usage: int, alreadySent: bool) returns (newUsage: int, warn: bool)
    requires usage > 50000 ==> alreadySent
    ensures warn <==> !alreadySent && High(sample)
    ensures newUsage > 50000 ==> alreadySent || warn
  {
    newUsage := if sample.Usage? then sample.kB else usage;
    warn := sample != Unavailable && newUsage > 50000 && !alreadySent;
  }

  /** dhsb_worker_process after the file has been opened. `samples[i]` is what the i-th turn of
      the loop sees; `data` is the accumulation buffer. */
  method Work(chunks: Chunks, initial: Sample, samples: seq<Sample>, data: array<int>)
      returns (completed: bool, offset: nat, signals: seq<Signal>)
    requires |samples| == |chunks|
    modifies data
    ensures completed <==> AllAvailable(samples)
    ensures offset <= data.Length
    ensures data[..offset] == Fitted(chunks[..Turns(samples)], data.Length)
    ensures signals == SignalsSent(initial, samples)
  {
    var memUsage, alreadySent := Check(initial, 0, false);
    signals, offset := if alreadySent then [Usr1] else [], 0;
    var i := 0;
    while i < |chunks|
      invariant 0 <= i <= |chunks| && offset <= data.Length
      invariant AllAvailable(samples[..i])
      invariant data[..offset] == Fitted(chunks[..i], data.Length)
      invariant alreadySent == (High(initial) || AnyHigh(samples[..i]))
      invariant memUsage > 50000 ==> alreadySent
      invariant signals == if alreadySent then [Usr1] else []
    {
      offset := Accumulate(data, offset, chunks[i], chunks[..i]);
      assert chunks[..i + 1] == chunks[..i] + [chunks[i]];
      OneTurn(samples, i);
      if samples[i] == Unavailable {
        EndsEarly(initial, samples, i);
        return false, offset, signals;
      }
      var warn: bool;
      memUsage, warn := Check(samples[i], memUsage, alreadySent);
      if warn {
        signals := signals + [Usr1];
        alreadySent := true;
      }
      i := i + 1;
    }
    assert samples[..i] == samples && chunks[..i] == chunks;
    Completes(initial, samples);
    completed := true;
    signals := signals + [Usr2];
  }

  lemma OneTurn(samples: seq<Sample>, i: nat)
    requires i < |samples| && AllAvailable(samples[..i])
    ensures AnyHigh(samples[..i + 1]) == (AnyHigh(samples[..i]) || High(samples[i]))
    ensures samples[i] != Unavailable ==> AllAvailable(samples[..i + 1])
  {
    assert samples[..i + 1][..i] == samples[..i];
  }

  lemma EndsEarly(initial: Sample, samples: seq<Sample>, i: nat)
    requires i < |samples| && AllAvailable(samples[..i]) && samples[i] == Unavailable
    ensures Turns(samples) == i + 1 && !AllAvailable(samples)
    ensures SignalsSent(initial, samples) == if High(initial) || AnyHigh(samples[..i]) then [Usr1] else []
  {
    OneTurn(samples, i);
    TurnsAreAvailable(samples, i);
  }

  lemma Completes(initial: Sample, samples: seq<Sample>)
    requires AllAvailable(samples)
    ensures Turns(samples) == |samples|
    ensures SignalsSent(initial, samples) == (if High(initial) || AnyHigh(samples) then [Usr1] else []) + [Usr2]
  {
    assert samples[..|samples|] == samples;
    TurnsAreAvailable(samples, |samples|);
  }

  /** Copies a chunk behind what has been accumulated, if it fits. */
  method Accumulate(data: array<int>, offset: nat, chunk: seq<int>, ghost earlier: seq<seq<int>>) returns (next: nat)
    requires offset <= data.Length && data[..offset] == Fitted(earlier, data.Length)
    modifies data
    ensures next <= data.Length && data[..next] == Fitted(earlier + [chunk], data.Length)
  {
    assert (earlier + [chunk])[..|earlier|] == earlier;
    if offset + |chunk| > data.Length {
      return offset;
    }
    ghost var filled := data[..offset];
    var k := 0;
    while k < |chunk|
      invariant 0 <= k <= |chunk|
      invariant data[..offset] == filled
      invariant data[offset..offset + k] == chunk[..k]
    {
      data[offset + k] := chunk[k];
      k := k + 1;
    }
    next := offset + |chunk|;
    assert data[..next] == data[..offset] + data[offset..next];
    assert chunk[..k] == chunk;
  }
}

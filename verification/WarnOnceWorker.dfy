/** Assignment1 Part4, worker_process.c: the read loop that warns its parent once. Unlike the
    Part2 worker it goes on when /proc/self/status cannot be opened. */
module WarnOnceWorker {
  import opened SignalHandler
  import opened AccumulatingWorker

  /** `samples[i]` is what turn i of the read loop sees. The parent receives SIGUSR1 exactly
      once if some sampled usage exceeded 50000 and never otherwise, and then SIGUSR2. */
  method Work(samples: seq<Sample>) returns (signals: seq<Signal>)
    ensures signals == (if AnyHigh(samples) then [Usr1] else []) + [Usr2]
    ensures Usr1 in signals <==> exists s :: s in samples && s.Usage? && s.kB > 50000
  {
    var memUsage := 0;
    var warned := false;
    signals := [];
    var i := 0;
    while i < |samples|
      invariant 0 <= i <= |samples|
      invariant warned == AnyHigh(samples[..i])
      invariant memUsage > 50000 ==> warned
      invariant signals == if warned then [Usr1] else []
    {
      assert samples[..i + 1][..i] == samples[..i];
      if samples[i] != Unavailable {
        if samples[i].Usage? {
          memUsage := samples[i].kB;
        }
        if !warned && memUsage > 50000 {
          signals := signals + [Usr1];
          warned := true;
        }
      }
      i := i + 1;
    }
    assert samples[..i] == samples;
    AnyHighMeans(samples);
    signals := signals + [Usr2];
  }
}

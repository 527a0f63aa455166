/** Assignment1 Part4, parent_main.c: the signal handler and what it logs. */
module SignalHandler {
  import opened Sequences

  datatype Signal = Usr1 | Usr2

  datatype Event = MemoryWarning | Completed(worker: int)

  /** worker_pids, the four flags, and the events written to the log file. */
  datatype Handler = Handler(pids: seq<int>, warned3: bool, done1: bool, done2: bool, done3: bool, log: seq<Event>)

  /** The first i with worker_pids[i] == pid, or the length. */
  function FindWorker(pids: seq<int>, pid: int): (i: nat)
    ensures i <= |pids|
    ensures i < |pids| ==> pids[i] == pid
    ensures forall j | 0 <= j < i :: pids[j] != pid
  {
    if pids == [] || pids[0] == pid then 0 else 1 + FindWorker(pids[1..], pid)
  }

  /** dhsb_signal_handler */
  function Handle(h: Handler, sig: Signal, pid: int): Handler {
    var i := FindWorker(h.pids, pid);
    match sig
    case Usr1 =>
      if i == 2 && i < |h.pids| && !h.warned3 then h.(warned3 := true, log := h.log + [MemoryWarning]) else h
    case Usr2 =>
      if i >= |h.pids| then h
      else if i == 0 && !h.done1 then h.(done1 := true, log := h.log + [Completed(1)])
      else if i == 1 && !h.done2 then h.(done2 := true, log := h.log + [Completed(2)])
      else if i == 2 && !h.done3 then h.(done3 := true, log := h.log + [Completed(3)])
      else h
  }

  /** What a signal from a process reports, if anything. */
  function Report(pids: seq<int>, sig: Signal, pid: int): Option<Event> {
    var i := FindWorker(pids, pid);
    if i >= |pids| || i > 2 then None
    else if sig == Usr2 then Some(Completed(i + 1))
    else if i == 2 then Some(MemoryWarning) else None
  }

  function Reports(pids: seq<int>, signals: seq<(Signal, int)>): seq<Event> {
    if signals == [] then []
    else
      var last := signals[|signals| - 1];
      Reports(pids, signals[..|signals| - 1]) + OptSeq(Report(pids, last.0, last.1))
  }

  /** The elements of a sequence in the order of their first occurrence. */
  function FirstOccurrences<T(==)>(s: seq<T>): seq<T> {
    if s == [] then []
    else
      var front, last := s[..|s| - 1], s[|s| - 1];
      FirstOccurrences(front) + (if last in front then [] else [last])
  }

  function HandleAll(h: Handler, signals: seq<(Signal, int)>): Handler {
    if signals == [] then h
    else
      var last := signals[|signals| - 1];
      Handle(HandleAll(h, signals[..|signals| - 1]), last.0, last.1)
  }

  function Fresh(pids: seq<int>): Handler {
    Handler(pids, false, false, false, false, [])
  }

  /** The flag that stands for an event. */
  predicate Flag(h: Handler, e: Event) {
    match e
    case MemoryWarning => h.warned3
    case Completed(w) => if w == 1 then h.done1 else if w == 2 then h.done2 else h.done3
  }

  predicate Known(e: Event) {
    e == MemoryWarning || (e.Completed? && 1 <= e.worker <= 3)
  }

  lemma {:induction false} FirstOccurrencesSame<T>(s: seq<T>, x: T)
    ensures x in FirstOccurrences(s) <==> x in s
    ensures forall i, j | 0 <= i < j < |FirstOccurrences(s)| :: FirstOccurrences(s)[i] != FirstOccurrences(s)[j]
  {
    if s != [] {
      var front, last := s[..|s| - 1], s[|s| - 1];
      FirstOccurrencesSame(front, x);
      FirstOccurrencesSame(front, last);
      assert s == front + [last];
    }
  }

  /** One signal: it is logged exactly when it reports an event whose flag is still clear. */
  lemma HandleOne(h: Handler, sig: Signal, pid: int)
    requires |h.pids| == 3
    ensures var h', r := Handle(h, sig, pid), Report(h.pids, sig, pid);
      && h'.pids == h.pids
      && h'.log == h.log + (if r.Some? && !Flag(h, r.value) then [r.value] else [])
      && (r.Some? ==> Known(r.value))
      && forall e | Known(e) :: Flag(h', e) == (Flag(h, e) || r == Some(e))
  {
  }

  /** For every sequence of signals, in any order and with any repetitions: the log is the
      reported events with duplicates removed, in the order of their first occurrence, and a
      flag is set exactly when its event has been reported. */
  lemma {:induction false} LogIsFirstOccurrences(pids: seq<int>, signals: seq<(Signal, int)>)
    requires |pids| == 3
    ensures HandleAll(Fresh(pids), signals).pids == pids
    ensures HandleAll(Fresh(pids), signals).log == FirstOccurrences(Reports(pids, signals))
    ensures forall e | Known(e) :: Flag(HandleAll(Fresh(pids), signals), e) <==> e in Reports(pids, signals)
  {
    if signals != [] {
      var front, last := signals[..|signals| - 1], signals[|signals| - 1];
      LogIsFirstOccurrences(pids, front);
      HandleOne(HandleAll(Fresh(pids), front), last.0, last.1);
      var r := Report(pids, last.0, last.1);
      if r.Some? {
        var all := Reports(pids, signals);
        assert all[..|all| - 1] == Reports(pids, front) && all[|all| - 1] == r.value;
      } else {
        assert Reports(pids, signals) == Reports(pids, front);
      }
    }
  }

  /** With distinct pids every worker's signals are reported as its own. */
  lemma ReportsTheSender(pids: seq<int>, w: nat)
    requires |pids| == 3 && 1 <= w <= 3
    requires forall i, j | 0 <= i < j < 3 :: pids[i] != pids[j]
    ensures Report(pids, Usr2, pids[w - 1]) == Some(Completed(w))
    ensures Report(pids, Usr1, pids[w - 1]) == if w == 3 then Some(MemoryWarning) else None
  {
    assert FindWorker(pids, pids[w - 1]) == w - 1;
  }

  /** The handler as code over the global flags. */
  class Parent {
    var workerPids: seq<int>
    var memoryWarnedWorker3: bool
    var worker1Completed: bool
    var worker2Completed: bool
    var worker3Completed: bool
    var log: seq<Event>

    function View(): Handler
      reads this
    {
      Handler(workerPids, memoryWarnedWorker3, worker1Completed, worker2Completed, worker3Completed, log)
    }

    constructor ()
      ensures View() == Fresh([0, 0, 0])
    {
      workerPids, log := [0, 0, 0], [];
      memoryWarnedWorker3, worker1Completed, worker2Completed, worker3Completed := false, false, false, false;
    }

    method SignalHandler(sig: Signal, pid: int)
      requires |workerPids| == 3
      modifies this
      ensures View() == Handle(old(View()), sig, pid)
    {
      var i := 0;
      while i < 3 && workerPids[i] != pid
        invariant 0 <= i <= 3
        invariant forall j | 0 <= j < i :: workerPids[j] != pid
      {
        i := i + 1;
      }
      assert i == FindWorker(workerPids, pid);
      if sig == Usr1 {
        if i == 2 && !memoryWarnedWorker3 {
          memoryWarnedWorker3 := true;
          log := log + [MemoryWarning];
        }
      } else if i == 0 && !worker1Completed {
        worker1Completed := true;
        log := log + [Completed(1)];
      } else if i == 1 && !worker2Completed {
        worker2Completed := true;
        log := log + [Completed(2)];
      } else if i == 2 && !worker3Completed {
        worker3Completed := true;
        log := log + [Completed(3)];
      }
    }
  }
}

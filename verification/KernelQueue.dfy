/** The System V message queue that the clients and the server of Lab8 share: one
    mixed sequence of typed messages, from which msgrcv() removes the first message of
    the requested type (POSIX.1-2017, System Interfaces, msgrcv()). */
module KernelQueue {
  import opened Sequences

  /** The payload of a message. `serial` is a history tag: how many messages the sender
      had sent before this one, or -1 for what a client finds in its message variable when
      a receive has failed. No step ever looks at it. */
  datatype MsgBuf = MsgBuf(source: int, dest: int, text: string, serial: int)

  datatype Message = Message(mtype: int, buf: MsgBuf)

  /** The queue together with its histories, each in order: every message ever sent, every
      message ever received, what was destroyed with the queue, and what msgsnd() has refused
      since. */
  datatype Kernel = Kernel(
    queue: seq<Message>, removed: bool, sent: seq<Message>, taken: seq<Message>,
    destroyed: seq<Message>, refused: seq<Message>)

  const EMPTY := Kernel([], false, [], [], [], [])

  function OfType(t: int): Message -> bool {
    (m: Message) => m.mtype == t
  }

  /** The payloads of the messages that satisfy p, in order. */
  function Select(p: Message -> bool, ms: seq<Message>): seq<MsgBuf> {
    if ms == [] then []
    else (if p(ms[0]) then [ms[0].buf] else []) + Select(p, ms[1..])
  }

  lemma SelectHead(p: Message -> bool, ms: seq<Message>)
    requires ms != []
    ensures Select(p, ms) == (if p(ms[0]) then [ms[0].buf] else []) + Select(p, ms[1..])
  {
  }

  lemma {:induction false} SelectConcat(p: Message -> bool, a: seq<Message>, b: seq<Message>)
    ensures Select(p, a + b) == Select(p, a) + Select(p, b)
  {
    if a == [] {
      assert a + b == b;
    } else {
      HeadOfConcat(a, b);
      SelectHead(p, a + b);
      SelectHead(p, a);
      SelectConcat(p, a[1..], b);
      ConcatAssoc(if p(a[0]) then [a[0].buf] else [], Select(p, a[1..]), Select(p, b));
    }
  }

  /** Narrowing the selected payloads by q is selecting with the combined predicate. */
  lemma {:induction false} FilterSelect(q: MsgBuf -> bool, p: Message -> bool, pq: Message -> bool, ms: seq<Message>)
    requires forall m | m in ms :: pq(m) <==> p(m) && q(m.buf)
    ensures Filter(q, Select(p, ms)) == Select(pq, ms)
  {
    if ms != [] {
      FilterSelect(q, p, pq, ms[1..]);
      FilterConcat(q, if p(ms[0]) then [ms[0].buf] else [], Select(p, ms[1..]));
    }
  }

  /** A selection that only looks at messages of one type sees no other message. */
  lemma {:induction false} SelectWithinType(t: int, p: Message -> bool, ms: seq<Message>)
    requires forall m :: p(m) ==> m.mtype == t
    ensures Select(p, Filter(OfType(t), ms)) == Select(p, ms)
  {
    if ms != [] {
      SelectWithinType(t, p, ms[1..]);
      SelectConcat(p, if ms[0].mtype == t then [ms[0]] else [], Filter(OfType(t), ms[1..]));
    }
  }

  /** Index of the first message of type t, or the length when there is none. */
  function FirstOfType(t: int, q: seq<Message>): (i: nat)
    ensures i <= |q|
    ensures i < |q| ==> q[i].mtype == t
    ensures forall j | 0 <= j < i :: q[j].mtype != t
  {
    if q == [] || q[0].mtype == t then 0 else 1 + FirstOfType(t, q[1..])
  }

  function Send(k: Kernel, m: Message): Kernel {
    k.(queue := k.queue + [m], sent := k.sent + [m])
  }

  /** msgsnd(): fails on a removed queue. */
  function Post(k: Kernel, m: Message): Kernel {
    if k.removed then k.(refused := k.refused + [m]) else Send(k, m)
  }

  /** msgctl(IPC_RMID): the messages are destroyed with the queue. */
  function Remove(k: Kernel): Kernel {
    k.(queue := [], removed := true, destroyed := k.destroyed + k.queue)
  }

  /** Nothing is destroyed or refused while the queue exists, and nothing is left in it after. */
  predicate Lifecycle(k: Kernel) {
    if k.removed then k.queue == [] else k.destroyed == [] && k.refused == []
  }

  predicate HasType(k: Kernel, t: int) {
    FirstOfType(t, k.queue) < |k.queue|
  }

  function Head(k: Kernel, t: int): Message
    requires HasType(k, t)
  {
    k.queue[FirstOfType(t, k.queue)]
  }

  /** The kernel after the first message of type t has been received. */
  function Take(k: Kernel, t: int): Kernel
    requires HasType(k, t)
  {
    var i := FirstOfType(t, k.queue);
    k.(queue := k.queue[..i] + k.queue[i + 1..], taken := k.taken + [k.queue[i]])
  }

  /** The mixed queue behaves as one FIFO queue per type: receiving takes the oldest
      message of the type and leaves every other type exactly as it was. */
  lemma TakeIsFifo(k: Kernel, t: int, u: int)
    requires HasType(k, t)
    ensures Filter(OfType(t), k.queue) == [Head(k, t)] + Filter(OfType(t), Take(k, t).queue)
    ensures u != t ==> Filter(OfType(u), Take(k, t).queue) == Filter(OfType(u), k.queue)
  {
    var i := FirstOfType(t, k.queue);
    var before, after := k.queue[..i], k.queue[i + 1..];
    assert k.queue == before + [k.queue[i]] + after;
    FilterConcat(OfType(t), before + [k.queue[i]], after);
    FilterConcat(OfType(t), before, [k.queue[i]]);
    FilterConcat(OfType(t), before, after);
    FilterNone(OfType(t), before);
    FilterConcat(OfType(u), before + [k.queue[i]], after);
    FilterConcat(OfType(u), before, [k.queue[i]]);
    FilterConcat(OfType(u), before, after);
  }

  /** msgrcv finds a message exactly when the per-type queue is not empty. */
  lemma HasTypeIffNonEmpty(k: Kernel, t: int)
    ensures HasType(k, t) <==> Filter(OfType(t), k.queue) != []
  {
    FilterNone(OfType(t), k.queue);
    if HasType(k, t) {
      assert k.queue[FirstOfType(t, k.queue)] in k.queue;
    }
  }

  /** Everything sent with type t is what was received, what is queued, and what has been
      destroyed with the queue. */
  predicate FifoFor(k: Kernel, t: int) {
    Filter(OfType(t), k.sent) == Filter(OfType(t), k.taken) + Filter(OfType(t), k.queue) + Filter(OfType(t), k.destroyed)
  }

  ghost predicate Fifo(k: Kernel) {
    Lifecycle(k) && forall t :: FifoFor(k, t)
  }

  lemma PostKeepsFifo(k: Kernel, m: Message)
    requires Fifo(k)
    ensures Fifo(Post(k, m))
  {
    forall t ensures FifoFor(Post(k, m), t) {
      assert FifoFor(k, t);
      FilterConcat(OfType(t), k.sent, [m]);
      FilterConcat(OfType(t), k.queue, [m]);
    }
  }

  lemma TakeKeepsFifo(k: Kernel, t: int)
    requires Fifo(k) && HasType(k, t)
    ensures Fifo(Take(k, t))
  {
    forall u ensures FifoFor(Take(k, t), u) {
      assert FifoFor(k, u);
      TakeIsFifo(k, t, u);
      FilterConcat(OfType(u), k.taken, [Head(k, t)]);
    }
  }

  lemma RemoveKeepsFifo(k: Kernel)
    requires Fifo(k)
    ensures Fifo(Remove(k))
  {
    forall t ensures FifoFor(Remove(k), t) {
      assert FifoFor(k, t);
      FilterConcat(OfType(t), k.destroyed, k.queue);
    }
  }

  /** From a removed queue nothing is ever received again. */
  lemma RemovedIsEmpty(k: Kernel, t: int)
    requires Lifecycle(k) && k.removed
    ensures !HasType(k, t)
  {
  }

  /** The FIFO law for any selection within one type. */
  lemma FifoSelect(k: Kernel, t: int, p: Message -> bool)
    requires Fifo(k)
    requires forall m :: p(m) ==> m.mtype == t
    ensures Select(p, k.sent) == Select(p, k.taken) + Select(p, k.queue) + Select(p, k.destroyed)
  {
    assert FifoFor(k, t);
    SelectWithinType(t, p, k.sent);
    SelectWithinType(t, p, k.taken);
    SelectWithinType(t, p, k.queue);
    SelectWithinType(t, p, k.destroyed);
    SelectConcat(p, Filter(OfType(t), k.taken) + Filter(OfType(t), k.queue), Filter(OfType(t), k.destroyed));
    SelectConcat(p, Filter(OfType(t), k.taken), Filter(OfType(t), k.queue));
  }

  /** The queue object of the kernel, with its histories. */
  class MessageQueue {
    var queue: seq<Message>
    var removed: bool
    ghost var sent: seq<Message>
    ghost var taken: seq<Message>
    ghost var destroyed: seq<Message>
    ghost var refused: seq<Message>

    ghost function View(): Kernel
      reads this
    {
      Kernel(queue, removed, sent, taken, destroyed, refused)
    }

    constructor ()
      ensures View() == EMPTY
    {
      queue, removed, sent, taken, destroyed, refused := [], false, [], [], [], [];
    }

    method Msgsnd(m: Message)
      modifies this
      ensures View() == Post(old(View()), m)
    {
      if removed {
        refused := refused + [m];
      } else {
        queue := queue + [m];
        sent := sent + [m];
      }
    }

    /** Non-blocking receive: scans for the first message of the type. */
    method Msgrcv(t: int) returns (r: Option<Message>)
      modifies this
      ensures r.Some? == HasType(old(View()), t)
      ensures r.Some? ==> r.value == Head(old(View()), t) && View() == Take(old(View()), t)
      ensures r.None? ==> View() == old(View())
    {
      var i := 0;
      while i < |queue| && queue[i].mtype != t
        invariant 0 <= i <= |queue|
        invariant forall j | 0 <= j < i :: queue[j].mtype != t
      {
        i := i + 1;
      }
      if i == |queue| {
        return None;
      }
      r := Some(queue[i]);
      taken := taken + [queue[i]];
      queue := queue[..i] + queue[i + 1..];
    }

    /** msgctl(IPC_RMID) */
    method Rmid()
      modifies this
      ensures View() == Remove(old(View()))
    {
      destroyed := destroyed + queue;
      queue, removed := [], true;
    }
  }
}

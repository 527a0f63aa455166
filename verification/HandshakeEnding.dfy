/** Assignment2: how an intfMonitor client ends, in any interleaving with the monitor and the
    other clients, and how the monitor notices. */
module HandshakeEnding {
  import opened MonitorProtocol
  import opened Handshake

  function ClientTurns(i: nat, schedule: seq<Action>): nat {
    if schedule == [] then 0
    else
      var a := schedule[|schedule| - 1];
      ClientTurns(i, schedule[..|schedule| - 1]) + (if a.ClientTurn? && a.i == i then 1 else 0)
  }

  /** The client is blocked, and what it will find is the monitor's Shut Down or the end of the
      stream. */
  predicate ToldToStop(c: Conn) {
    c.link == Shut && Awaiting(c) && (c.toClient == [] || c.toClient[0] == "Shut Down")
  }

  /** The client after j turns since it was told, having had `said` in transit. */
  predicate Ending(c: Conn, said: seq<string>, j: nat) {
    && c.link == Shut
    && if j == 0 then ToldToStop(c) && c.toServer == said
       else if j == 1 then c.pc == LoopHead && !c.running && c.toServer == said
       else if j == 2 then c.pc == SendDone && c.toServer == said
       else c.pc == Closed && c.toServer == said + ["Done"]
  }

  lemma EndingTurn(c: Conn, said: seq<string>, j: nat, down: bool)
    requires Ending(c, said, j)
    ensures Ending(ClientStep(c, down), said, j + 1)
  {
    assert |MONITOR| == 7 && |SHUT_DOWN| == 9;
  }

  lemma EndingFrame(c: Conn, said: seq<string>, j: nat, a: Action)
    requires Ending(c, said, j) && !a.ClientTurn?
    ensures Ending(Apply(c, a), said, j)
  {
    assert c.toClient + [] == c.toClient;
  }

  lemma StepAt(conns: seq<Conn>, a: Action, i: nat)
    requires i < |conns|
    ensures i < |Step(conns, a)|
    ensures Step(conns, a)[i] == if a.Connect? || a.Shutdown? || a.i == i then Apply(conns[i], a) else conns[i]
  {
  }

  lemma {:induction false} EndingRun(before: seq<Action>, after: seq<Action>, i: nat)
    requires i < |Run(before)| && ToldToStop(Run(before)[i])
    ensures i < |Run(before + after)|
    ensures Ending(Run(before + after)[i], Run(before)[i].toServer, ClientTurns(i, after))
  {
    if after == [] {
      assert before + after == before;
    } else {
      var front, a := after[..|after| - 1], after[|after| - 1];
      EndingRun(before, front, i);
      assert (before + after)[..|before + after| - 1] == before + front && (before + after)[|before + after| - 1] == a;
      StepAt(Run(before + front), a, i);
      var c, said, j := Run(before + front)[i], Run(before)[i].toServer, ClientTurns(i, front);
      if a.ClientTurn? && a.i == i {
        EndingTurn(c, said, j, a.down);
      } else if a.Connect? || a.Shutdown? || a.i == i {
        EndingFrame(c, said, j, a);
      }
    }
  }

  /** A client that reads Shut Down, or finds the stream closed, stops: three turns later, in any
      interleaving, it has closed, and the last thing it has said is Done; it has reported no
      other Link Down. */
  lemma ToldClientEnds(before: seq<Action>, after: seq<Action>, i: nat)
    requires i < |Run(before)| && ToldToStop(Run(before)[i]) && ClientTurns(i, after) >= 3
    ensures i < |Run(before + after)|
    ensures var c := Run(before + after)[i]; c.pc == Closed && c.toServer == Run(before)[i].toServer + ["Done"]
  {
    EndingRun(before, after, i);
  }

  /** The monitor's shutdown tells every client that is blocked with nothing else to read. */
  lemma ShutdownTells(conns: seq<Conn>, i: nat)
    requires i < |conns| && Awaiting(conns[i]) && conns[i].toClient == []
    ensures ToldToStop(Step(conns, Shutdown)[i])
    ensures conns[i].link == Open ==> Step(conns, Shutdown)[i].toClient == ["Shut Down"]
  {
    StepAt(conns, Shutdown, i);
  }

  /** A client that reads the answer it waits for goes on, with its flag as it was. */
  lemma AnsweredClientGoesOn(c: Conn, down: bool)
    requires c.pc == AwaitLinkUp && c.toClient != [] && c.toClient[0] == "Set Link Up"
    ensures ClientStep(c, down).pc == LoopHead && ClientStep(c, down).running == c.running
  {
    assert |SHUT_DOWN| == 9 && |SET_LINK_UP| == 11;
  }

  /** Link Down is reported exactly when the interface is found down, and then awaits its answer. */
  lemma DownIsReported(c: Conn, down: bool)
    requires c.pc == Polling
    ensures ClientStep(c, down).toServer == c.toServer + (if down then ["Link Down"] else [])
    ensures ClientStep(c, down).pc == (if down then AwaitLinkUp else LoopHead)
  {
    assert c.toServer + [] == c.toServer;
  }

  // ------------------------------------------------------------ an interrupted client

  /** SIGINT at a client that is not blocked. */
  lemma InterruptClears(conns: seq<Conn>, i: nat)
    requires i < |conns| && !Awaiting(conns[i])
    ensures Step(conns, Interrupt(i))[i] == conns[i].(running := false)
  {
  }

  lemma {:induction false} StoppedRun(before: seq<Action>, after: seq<Action>, i: nat)
    requires i < |Run(before)|
    requires var c := Run(before)[i]; !c.running && c.pc == LoopHead
    ensures i < |Run(before + after)|
    ensures var c, j := Run(before + after)[i], ClientTurns(i, after);
      !c.running && c.pc == (if j == 0 then LoopHead else if j == 1 then SendDone else Closed)
  {
    if after == [] {
      assert before + after == before;
    } else {
      var front, a := after[..|after| - 1], after[|after| - 1];
      StoppedRun(before, front, i);
      assert (before + after)[..|before + after| - 1] == before + front && (before + after)[|before + after| - 1] == a;
      StepAt(Run(before + front), a, i);
      StoppedStep(Run(before + front)[i], a);
    }
  }

  lemma StoppedStep(c: Conn, a: Action)
    requires !c.running && (c.pc == LoopHead || c.pc == SendDone || c.pc == Closed)
    ensures var c' := Apply(c, a);
      && !c'.running
      && c'.pc == (if !a.ClientTurn? then c.pc else if c.pc == LoopHead then SendDone else Closed)
  {
  }

  /** A client that finds itself stopped at its loop head closes in its next two turns. */
  lemma StoppedClientEnds(before: seq<Action>, after: seq<Action>, i: nat)
    requires i < |Run(before)| && ClientTurns(i, after) >= 2
    requires var c := Run(before)[i]; !c.running && c.pc == LoopHead
    ensures i < |Run(before + after)| && Run(before + after)[i].pc == Closed
  {
    StoppedRun(before, after, i);
  }

  // ------------------------------------------------------------- the monitor notices

  lemma OneTurn(conns: seq<Conn>, i: nat)
    requires i < |conns|
    ensures i < |Step(conns, ServerTurn(i, 1))| && Step(conns, ServerTurn(i, 1))[i] == ServerStep(conns[i], 1)
  {
    StepAt(conns, ServerTurn(i, 1), i);
  }

  /** The end of a client is noticed: with one message per recv, two turns of the monitor on
      the connection close it, by Done or by the end of the stream. */
  lemma EndIsNoticed(conns: seq<Conn>, i: nat)
    requires Reachable(conns) && i < |conns| && conns[i].pc == Closed && conns[i].link == Open
    ensures var later := Step(Step(conns, ServerTurn(i, 1)), ServerTurn(i, 1));
      i < |later| && later[i].link == Shut
  {
    ReachableInv(conns, i);
    OneTurn(conns, i);
    OneTurn(Step(conns, ServerTurn(i, 1)), i);
    Reactions();
    var c := conns[i];
    if c.toServer != [] {
      FirstOf(c.toServer, 1);
      if |c.toServer| == 2 {
        FirstOf(c.toServer[1..], 1);
      }
    }
  }
}

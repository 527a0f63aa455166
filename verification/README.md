# Verified models of the Unix concurrency programs

The programs modelled here are small, but most of them are protocols between several
processes, threads or signal handlers, and what they promise has to hold for every
interleaving. Each protocol is a state, a total step function (a step that cannot proceed
changes nothing) and `Run`, which executes an arbitrary finite schedule; a theorem about
`Reachable` states is therefore a theorem about every interleaving. Beside the step function
stands the program itself as classes that update their variables and the shared objects in
place; every method is proved to take the state from `View()` to the step function's result,
`Execute` is proved to follow `Run`, and `Simulate` carries a main theorem over to the objects
at the end of any run from the start. (The select loop and the simulation are single
programs: there `Serve` and TravelSimulation's `Simulate` are the loops themselves.) Ghost
fields and histories (what was sent, written, closed, printed) never influence a step.

| system | files |
|---|---|
| Lab8, message router over one System V queue | `KernelQueue`, `Router`, `RouterProof`, `RouterTheorems`, `RouterShutdown`, `RouterLiveness`, `RouterProcesses` |
| Lab10, token ring in shared memory | `TokenRing`, `TokenRingProof`, `TokenRingTheorems`, `TokenRingInterrupt`, `TokenRingExchange`, `TokenRingProcesses` |
| Assignment2, network monitor and its clients | `MonitorProtocol`, `NetworkMonitor`, `Handshake`, `HandshakeEnding`, `HandshakeProcesses` |
| Lab9, threaded chat sink | `ChatSink`, `ChatCompleteness` |
| Assignment3, logger and log server | `Text`, `LogFormat`, `RecordFields`, `LogServer` |
| Assignment1, signal-driven parent and workers | `SignalHandler`, `ParentSystem`, `ParentLiveness`, `ParentProcesses`, `AccumulatingWorker`, `WarnOnceWorker` |
| Assignment3, fuel simulation | `TravelSimulation` |

`Sequences` holds the vocabulary of filtering and concatenation that all of them share.

The results, in short:

- **Lab8.** A message passes through seven places. For every destination the requests made
  so far are exactly the concatenation of the seven, in order, if and only if nothing for that
  client has been destroyed with the queue, refused by msgsnd or discarded with its local
  queue, and it holds no failed receive; while the queue exists none of this has happened, and
  the steps that bring it about are named exactly. Concrete runs show a message destroyed, one
  discarded, and one displayed twice, because nobody looks at msgrcv's result and the message
  variable is taken for a message. Counting the losses at each stage, every message is always
  accounted for. The load of every client has a closed form; the unlocked `size()` test is
  safe; the thread that reads Quit has received everything forwarded to its client, and while
  the queue exists no data message is mistaken for Quit. While the server and a client are
  running, everything requested for the client can still be displayed, wherever it is; and an
  interrupted server, in any interleaving, writes Quit to 1, 2 and 3 and removes the queue
  within seven turns.
- **Lab10.** Mutual exclusion is derived from single reads and writes, not assumed. The
  written messages form a token chain, every message is received once by its addressee
  before it is overwritten, and for every N the system cannot deadlock and takes at most
  30N + 93 effective steps. One locked iteration, in any interleaving, receives and answers
  exactly the message that is addressed to the client. Interrupts are allowed everywhere but inside `sem_wait`. An
  interrupted wait leaves the mutex one unit too high for ever, and some continuation has two
  clients inside if and only if the mutex was taken or another client can still enter; a
  concrete run shows that it happens.
- **Assignment2.** The registry, the naming and the ownership of descriptors are proved for
  any answers of the kernel. The handshake is proved over a byte stream that may run
  messages together; a connection deadlocks if and only if a `Link Down` was received
  together with another message, and a concrete run shows that this happens.
- **Lab9.** The output is an order-preserving merge of what the clients sent, for any number
  of clients, and conversely every such merge is the output of some run.
- **Assignment3.** The classifier returns exactly the maximum of the logged level and the
  levels named in the text of a record, for every record; from this follows the round trip
  through log, file and dump. All fields of a record can be read back from its text. The simulation's counts have a closed form.
- **Assignment1.** The handler's log is its reports without repetitions; in the composed
  system with coalescing signals every completion is accounted for. That the parent always
  finishes is false. From every reachable state it can still finish if and only if worker 3's
  warning and the completions of workers 1 and 2 have each been noticed, are pending or can
  still be sent, and something can wake a suspended parent, or it is past its waiting loops.
  Concrete runs show a lost wakeup and a dropped warning.

The code and its comments differ in one place: `sigprocmask` is meant to keep signals away
until the parent is ready to call `sigsuspend` (Assignment1/Part4/parent_main.c:122-123), but
the mask is lifted before the first waiting loop (lines 156-161). The model follows the code.

## Model

| member | source | states |
|---|---|---|
| KernelQueue.TakeIsFifo | Lab8/server.cpp:45 | msgrcv by type on the mixed queue takes the oldest message of that type and leaves every other type as it was |
| KernelQueue.HasTypeIffNonEmpty | Lab8/server.cpp:45-50 | a receive finds a message exactly when the queue of that type is not empty |
| KernelQueue.PostKeepsFifo | Lab8/client1.cpp:84 | a msgsnd, accepted or refused, keeps for every type "sent = received, then queued, then destroyed" |
| KernelQueue.TakeKeepsFifo | Lab8/client1.cpp:99 | receiving by type keeps the same law for every type |
| KernelQueue.RemoveKeepsFifo | Lab8/server.cpp:73 | the removal, which destroys the queued messages, keeps it too |
| KernelQueue.RemovedIsEmpty | Lab8/client1.cpp:99 | from a removed queue nothing is ever received again |
| KernelQueue.FifoSelect | Lab8/server.cpp:44-62 | the law holds for any selection of messages within one type |
| KernelQueue.MessageQueue.Msgrcv | Lab8/server.cpp:45-50 | the scan removes and returns the first message of the type, or changes nothing when there is none |
| KernelQueue.MessageQueue.Msgsnd | Lab8/server.cpp:57 | appends one message, or refuses it when the queue has been removed |
| KernelQueue.MessageQueue.Rmid | Lab8/server.cpp:73 | removes the queue and destroys what is in it |
| RouterTheorems.Accounting | Lab8/server.cpp:44-73 | in every reachable state, the requests addressed to a client are, in order, what it really received and holds or discarded at its end, what is queued for it or was destroyed or refused there, what is in the server's hand, and what is queued for the server or was destroyed or refused there |
| RouterTheorems.Conservation | Lab8/server.cpp:44-73 | the requests addressed to a client are, in order, what it displayed, its main loop's hand, its local queue, its receive thread's hand, the kernel queue for it, the server's hand and the queue of requests, if and only if it holds no failed receive and nothing for it has been discarded, destroyed or refused; while the queue exists nothing has |
| RouterTheorems.DisturbedBy | Lab8/client1.cpp:84-105 | conservation for a client ends with exactly these steps: on the removed queue, its receive that finds no Quit in the variable, a request for it, or a delivery to it; the removal of a queue that contains something for it; its own end with something in its local queue |
| RouterTheorems.PairAccounting | Lab8/client1.cpp:68-86 | per pair, always: the account restricted to one sender is exactly that sender's messages to this destination, in order |
| RouterTheorems.PairConservation | Lab8/client1.cpp:68-86 | per pair: the pipeline restricted to one sender is exactly that sender's messages to this destination, in order, if and only if none of them was lost at any stage and no failed receive that is held bears its name |
| RouterTheorems.PairStreamForm | Lab8/client2.cpp:76-84 | which messages a client sends to which other: every second one, starting with the first or the second |
| RouterTheorems.DisplayedIsPrefix | Lab8/client1.cpp:69-75 | the i-th message really received and displayed from a sender is the i-th one it sent to this client; with failed receives counted in, exactly when none of those displayed bears the sender's name |
| RouterTheorems.ExactLoad | Lab8/client3.cpp:76-84 | after a, b, c messages passed to msgsnd, those in the pipelines to clients 1, 2, 3 together with those lost at any stage number b/2 + (c+1)/2, (a+1)/2 + c/2 and a/2 + (b+1)/2 (integer division), plus the failed receives held |
| RouterTheorems.LocalQueueSafe | Lab8/client1.cpp:69-75 | at front() and pop() the local queue is not empty in any interleaving, and the mutex has at most one holder |
| RouterTheorems.RoutingIsCorrect | Lab8/server.cpp:55-57 | a forwarded message goes to its destination, never to the server again and never back to its sender; requests are never Quit |
| RouterTheorems.QuitMeansComplete | Lab8/server.cpp:64-70 | when a receive thread has read Quit, its client has collected everything the server ever forwarded to it, in order: displayed, in hand, in the local queue, or discarded at its end |
| RouterTheorems.DataNeverStopsAClient | Lab8/client1.cpp:100 | while the queue exists, a receive thread stops its client only after the server was told to stop |
| RouterShutdown.MessageShownTwice | Lab8/client1.cpp:89-105 | a concrete run: client 3 ends and removes the queue, and client 2 displays the only message of client 1 two times |
| RouterShutdown.MessageDestroyed | Lab8/client1.cpp:89 | a concrete run: client 3 ends while a message is queued for client 2, and the message is gone |
| RouterShutdown.MessageDiscarded | Lab8/client1.cpp:68-92 | a concrete run: client 2 ends with a message in its local queue, and the message is gone |
| RouterTheorems.AfterQuit | Lab8/client1.cpp:94-108 | after Quit, no continuation makes the client receive anything; what it has collected stays displayed or held until it ends, and only then is the rest discarded |
| RouterLiveness.ServerShutsDown | Lab8/server.cpp:44-74 | once an interrupted server has taken seven turns, in any interleaving with the clients, it is done, the queue is removed, and the Quit messages written are exactly "Quit" to 1, 2 and 3, in this order |
| RouterLiveness.NoQuitWhileRunning | Lab8/server.cpp:44-70 | a running server has written no Quit |
| RouterLiveness.InterruptedClientStops | Lab8/client1.cpp:68-86 | after SIGINT a client sends at most one more message, and none from its loop head |
| RouterLiveness.EverythingCanBeDelivered | Lab8/server.cpp:44-62 | from every reachable state in which the queue exists and the server and a client are running, some continuation displays at the client exactly what had been requested for it, in order |
| RouterProof.DataIsNotQuit | Lab8/client1.cpp:83 | a text that starts with a decimal pid is never taken for Quit |
| RouterProof.StepKeeps | Lab8/server.cpp:44-73 | every step of every process keeps the invariant (order, locks, routing, Quit last) |
| RouterProcesses.ClientProcess.MainTurn | Lab8/client1.cpp:67-92 | one step of the main loop: drain under the lock, alternate the destination, send, join, remove the queue and end |
| RouterProcesses.ClientProcess.RecvTurn | Lab8/client1.cpp:94-108 | one step of the receive thread: receive by type or use the variable unwritten, stop on Quit, push under the lock |
| RouterProcesses.ServerProcess.Turn | Lab8/server.cpp:44-73 | one step of the server: poll, overwrite the type, send back; Quit to 1, 2, 3 and removal at the end |
| RouterProcesses.System.Execute | Lab8/server.cpp:44-73 | the four processes sharing one queue object follow the run of any schedule |
| RouterProcesses.Simulate | Lab8/server.cpp:39-73 | run from the start under any schedule, the objects' messages are conserved exactly when none has been lost and no failed receive is held |
| TokenRingTheorems.SemaphoresCount | Lab10/client3.cpp:69-110 | mutex value plus clients inside is 1 once created, start value plus clients past their wait equals the posts, at most one client is inside |
| TokenRingTheorems.InitialiseBeforeUse | Lab10/client3.cpp:101-110 | client 3's unlocked writes are complete before anyone attaches; nothing is written or received earlier |
| TokenRingTheorems.TokenChain | Lab10/client1.cpp:115-131 | each message is written by the addressee of the one before; the receipts are the addressees' receipts of the messages in the order written, and only the last may be unread |
| TokenRingTheorems.NothingLost | Lab10/client2.cpp:118-134 | while nobody is replying, everything but the message in memory has been received and that message is intact |
| TokenRingTheorems.Numbering | Lab10/client3.cpp:113-130 | at most 3N+1 messages; each client's numbers lie in 1..N and strictly increase; odd numbers of clients 1, 2 and 3 go to 2, 1 and 1, even ones to 3, 3 and 2 |
| TokenRingTheorems.NoDeadlock | Lab10/client1.cpp:94-131 | in every reachable state some client can move unless all have finished |
| TokenRingTheorems.MeasureDecreases | Lab10/client2.cpp:97-134 | every step with an effect decreases a measure of the work left |
| TokenRingTheorems.Terminates | Lab10/client3.cpp:113-132 | however the processes are scheduled and interrupted, at most 30N + 93 steps have an effect |
| TokenRingTheorems.CanFinish | Lab10/client1.cpp:115-135 | from every reachable state some schedule finishes all three clients |
| TokenRingTheorems.FinalState | Lab10/client3.cpp:113-134 | when all have finished, exactly the message left in memory is unread |
| TokenRingProof.CriticalTurn | Lab10/client1.cpp:116-129 | one step inside the critical section keeps the chain and the client's knowledge of the cell |
| TokenRingProof.StepKeeps | Lab10/client3.cpp:68-130 | every step of every process keeps the invariant (programs, semaphores, token, numbers) |
| TokenRingExchange.OneIteration | Lab10/client1.cpp:118-129 | from the test to the next loop head, in any interleaving: a message addressed to the client is received exactly once, as it was, and answered by one message, numbered by the iteration, to 2 and 3, 1 and 3, or 1 and 2 by turns for clients 1, 2 and 3; any other message is left alone |
| TokenRingExchange.FirstMessageIsRead | Lab10/client1.cpp:115-131 | a client 1 that completes its loop has received the initial message first |
| TokenRingExchange.InterruptedClientStops | Lab10/client2.cpp:118-134 | after SIGINT a client completes the iteration it is in and begins no other |
| TokenRingInterrupt.StaysTooHigh | Lab10/client1.cpp:116 | after a sem_wait that SIGINT interrupts, the mutex value plus the clients inside is 2 in every continuation |
| TokenRingInterrupt.BreaksExclusionIff | Lab10/client1.cpp:115-130 | some continuation of the interrupted wait has two clients inside if and only if the mutex was taken or another client can still enter |
| TokenRingInterrupt.ExclusionCanBeBroken | Lab10/client1.cpp:52-57 | a concrete reachable state in which this happens, for every N above 0 |
| TokenRingProcesses.RingClient.Create | Lab10/client3.cpp:68-110 | client 3's creation, initial writes and posts, one shared access at a time |
| TokenRingProcesses.RingClient.Enter | Lab10/client1.cpp:63-116 | opening with ten retries, waiting for the start, attaching, loop head and lock |
| TokenRingProcesses.RingClient.Exchange | Lab10/client2.cpp:121-132 | the locked read and reply, one shared access at a time |
| TokenRingProcesses.System.Execute | Lab10/client3.cpp:54-135 | the three processes sharing one segment follow the run of any schedule |
| TokenRingProcesses.Simulate | Lab10/client3.cpp:54-135 | run from the start under any schedule, the messages written to the segment form a token chain received in order |
| NetworkMonitor.RefusedIffAllHeld | Assignment2/networkMonitor.cpp:344-367 | a connection is refused exactly when every name is held, and otherwise gets a listed name that nobody holds |
| NetworkMonitor.RegisterMeaning | Assignment2/networkMonitor.cpp:345-362 | the name given is the first in the list that nobody holds, and nobody else is affected |
| NetworkMonitor.OutcomeMeaning | Assignment2/networkMonitor.cpp:77-139 | exactly the end of the stream, an error and "Done" end a connection; exactly "Ready" is answered by "Monitor" and "Link Down" by "Set Link Up" |
| NetworkMonitor.RegisterKeepsNames | Assignment2/networkMonitor.cpp:344-362 | names in use stay distinct and drawn from the list |
| NetworkMonitor.NoMoreThanNames | Assignment2/networkMonitor.cpp:344-362 | distinct names from a set bound the size of the registry |
| NetworkMonitor.RegistrySize | Assignment2/networkMonitor.cpp:193-201 | at most one connection per distinct name, even when the user entered duplicates |
| NetworkMonitor.LedgerAccept | Assignment2/networkMonitor.cpp:317 | accepting keeps "every accepted connection is open on one descriptor or was closed once" |
| NetworkMonitor.LedgerClose | Assignment2/networkMonitor.cpp:109-137 | closing an open descriptor keeps it |
| NetworkMonitor.AllClosedOnce | Assignment2/networkMonitor.cpp:143-158 | with nothing open, every accepted connection has been closed exactly once |
| NetworkMonitor.Monitor.SigInt | Assignment2/networkMonitor.cpp:43-55 | stops the loop and closes the master socket, keeping the registry valid |
| NetworkMonitor.Monitor.HandleClientMessage | Assignment2/networkMonitor.cpp:71-140 | the descriptor stays registered exactly when recv was interrupted or the text before the first NUL is not "Done"; "Monitor" is sent for "Ready", "Set Link Up" for "Link Down", and nothing otherwise |
| NetworkMonitor.Monitor.NameInUse | Assignment2/networkMonitor.cpp:346-353 | the inner loop decides whether a connection holds the name |
| NetworkMonitor.Monitor.Admit | Assignment2/networkMonitor.cpp:344-367 | a new connection gets the first unused name in list order or is closed at once |
| NetworkMonitor.Monitor.RegisteredFds | Assignment2/networkMonitor.cpp:373-376 | the copied list holds each registered descriptor once |
| NetworkMonitor.Monitor.HandleReady | Assignment2/networkMonitor.cpp:378-385 | handles exactly the descriptors that are registered and readable, each once; the dropped ones and the replies follow from what they received |
| NetworkMonitor.Monitor.Round | Assignment2/networkMonitor.cpp:281-386 | one round for any answers of select, accept and recv: handled are exactly those registered before and readable; of them exactly those with end of stream, error or "Done" are gone, their names held by nobody who was registered before; the new connection has the first unused name, or none exists; the answers sent are exactly those asked for |
| NetworkMonitor.Monitor.CleanupSockets | Assignment2/networkMonitor.cpp:143-164 | says Shut Down once to every client and closes everything: each accepted connection has been closed exactly once |
| NetworkMonitor.Monitor.Serve | Assignment2/networkMonitor.cpp:281-389 | any number of rounds against any kernel, then the cleanup, end with nothing open and everything closed exactly once |
| Handshake.Reactions | Assignment2/networkMonitor.cpp:86-115 | every single protocol message is known; Monitoring run together with the next message is not |
| Handshake.RunInv | Assignment2/intfMonitor.cpp:148-264 | what can be in transit at every point of every client, for any number of connections |
| Handshake.UnknownIffJoined | Assignment2/networkMonitor.cpp:112-115 | unknown messages are counted exactly as often as one recv returned several messages |
| Handshake.OneInFlight | Assignment2/intfMonitor.cpp:148-200 | a blocked client has exactly one unanswered request or unread reply in flight unless its request was lost, and one that is not blocked has none |
| Handshake.StuckIffLost | Assignment2/intfMonitor.cpp:191-231 | both ends wait on an empty open connection if and only if a Link Down was received together with another message |
| Handshake.LostIsForever | Assignment2/intfMonitor.cpp:200 | such a connection is not moved by any step before the monitor's shutdown |
| Handshake.NoStrayReply | Assignment2/networkMonitor.cpp:91-102 | a reply is only sent to a client that waits for it |
| Handshake.AnswerArrives | Assignment2/networkMonitor.cpp:86-103 | when the monitor receives one message at a time, a blocked client whose request has not been lost gets Monitor for Ready and Set Link Up for Link Down, and goes on |
| Handshake.MessagePreserving | Assignment2/networkMonitor.cpp:71-140 | when every recv returns one message, nothing is unknown and nothing is lost |
| Handshake.HandshakeRun | Assignment2/intfMonitor.cpp:148-168 | the opening handshake is reachable, with Monitoring in transit |
| Handshake.JoinedRequestIsLost | Assignment2/intfMonitor.cpp:164-200 | a concrete run in which a client waits for ever |
| HandshakeEnding.ToldClientEnds | Assignment2/intfMonitor.cpp:200-264 | a client that reads Shut Down, or finds the stream closed, has closed three turns later in any interleaving; the last thing it has said is Done, and it has reported no other Link Down |
| HandshakeEnding.ShutdownTells | Assignment2/networkMonitor.cpp:149-157 | the monitor's shutdown brings every client that is blocked with nothing to read into that situation |
| HandshakeEnding.AnsweredClientGoesOn | Assignment2/intfMonitor.cpp:201-227 | a client that reads Set Link Up goes on |
| HandshakeEnding.DownIsReported | Assignment2/intfMonitor.cpp:191-200 | Link Down is said exactly when the interface is found down |
| HandshakeEnding.StoppedClientEnds | Assignment2/intfMonitor.cpp:171-264 | a client stopped at its loop head has closed after two more turns, in any interleaving |
| HandshakeEnding.EndIsNoticed | Assignment2/networkMonitor.cpp:104-124 | with one message per recv, two turns of the monitor close the connection of a client that has closed |
| HandshakeProcesses.InterfaceMonitor.ReceiveMessage | Assignment2/intfMonitor.cpp:77-108 | blocks, returns the next message, returns the empty string when recv fails, or reports the closed connection and stops |
| HandshakeProcesses.InterfaceMonitor.Turn | Assignment2/intfMonitor.cpp:146-264 | one step of the client program |
| HandshakeProcesses.InterfaceMonitor.Receive | Assignment2/networkMonitor.cpp:75-79 | the bytes of the first k messages, run together by the stream |
| HandshakeProcesses.InterfaceMonitor.Recv | Assignment2/networkMonitor.cpp:75-79 | takes the first k messages off the stream as one text |
| HandshakeProcesses.InterfaceMonitor.Serve | Assignment2/networkMonitor.cpp:71-140 | the monitor's handling of one recv on this connection |
| HandshakeProcesses.InterfaceMonitor.Accept | Assignment2/networkMonitor.cpp:314-368 | the connection is registered or refused |
| HandshakeProcesses.InterfaceMonitor.Shutdown | Assignment2/networkMonitor.cpp:149-157 | says Shut Down on a registered connection and closes it |
| HandshakeProcesses.System.Perform | Assignment2/networkMonitor.cpp:281-389 | one action on any number of client objects and their sockets: connect, a step of a client or of the monitor, or the shutdown of all |
| HandshakeProcesses.Simulate | Assignment2/networkMonitor.cpp:281-389 | run from the start under any schedule, on every open connection at most one request or reply is in flight, and both ends wait on an empty connection exactly when a request was lost |
| ChatSink.NothingLost | Lab9/server.cpp:45-67 | printed output plus queue is the push sequence; each thread's pushes are its reads in order minus at most one in hand |
| ChatSink.OutputIsMerge | Lab9/server.cpp:117-122 | the output is an order-preserving merge of the clients' streams: every text in it belongs to a stream, and those of one stream are a prefix of it in order |
| ChatSink.MergeIsExhaustive | Lab9/server.cpp:117-122 | a merge invents nothing: its length is the sum of the prefixes it takes from the streams |
| ChatCompleteness.EveryMergeIsPossible | Lab9/server.cpp:45-125 | the converse: for any streams of texts without NUL and shorter than the buffer, every order-preserving merge of prefixes of them is the output of some run in which the clients send exactly these streams |
| ChatCompleteness.ThreadEnds | Lab9/server.cpp:55-70 | a thread that reads the end of its stream, or finds the server stopped, never reads or pushes again |
| ChatCompleteness.TimeoutGoesOn | Lab9/server.cpp:60-66 | a thread whose read times out reads again while the server runs |
| ChatCompleteness.MainEnds | Lab9/server.cpp:100-128 | interrupted at its loop head the server accepts and prints nothing more |
| ChatCompleteness.InterruptedServer | Lab9/server.cpp:45-106 | after SIGINT at most one more connection is accepted and every thread makes at most one more read |
| ChatSink.AtMostOneHolder | Lab9/server.cpp:52-54 | the mutex is held by the main loop or by one thread |
| ChatSink.DrainIsComplete | Lab9/server.cpp:117-122 | when the main loop unlocks, everything pushed has been printed |
| ChatSink.VerbatimIffNoNul | Lab9/server.cpp:46-53 | the pushed texts are the bytes read if and only if these contain no NUL |
| ChatSink.PushKeeps | Lab9/server.cpp:52-54 | a push under the mutex keeps order and completeness for every thread |
| ChatSink.MainKeeps | Lab9/server.cpp:100-125 | a step of the main loop keeps the invariant |
| ChatSink.ChatServer.MainLoopTurn | Lab9/server.cpp:100-125 | one step: accept, lock, print front, pop, unlock |
| ChatSink.ChatServer.ReceiveThreadTurn | Lab9/server.cpp:45-67 | one step of a thread: data, end of stream or timeout |
| ChatSink.ChatServer.Execute | Lab9/server.cpp:100-125 | main loop, threads and SIGINT follow the run of any schedule |
| ChatSink.Simulate | Lab9/server.cpp:100-125 | run from the start under any schedule, the server's output is a merge of what the clients sent |
| Text.ValueOfDecimal | Assignment3/LogServer.cpp:142 | the decimal text of a number denotes that number |
| Text.ContainsSplit | Assignment3/LogServer.cpp:39-44 | a key never straddles a separator that it does not contain |
| LogFormat.ClassifySplit | Assignment3/LogServer.cpp:39-44 | around a separator the level of a text is the higher of the levels of its parts |
| LogFormat.ClassifyRecord | Assignment3/Logger.cpp:98-123 | for every record, the classifier returns the higher of the logged level and the levels named in file, function and message |
| LogFormat.LevelRecoveredIff | Assignment3/LogServer.cpp:39-44 | the logged level is recovered if and only if no part names a higher one |
| RecordFields.RecordReadsBack | Assignment3/Logger.cpp:107-118 | time, level, file, function, line and message can be read back from a record whose file and function contain no colon |
| RecordFields.RecordsDiffer | Assignment3/Logger.cpp:118 | no two such calls have the same record |
| LogFormat.TruncationNeverRaises | Assignment3/LogServer.cpp:85-88 | cutting a datagram to 1024 bytes never raises its level |
| LogFormat.LevelSurvivesTruncation | Assignment3/LogServer.cpp:85-88 | nor does it hide the logged level, however long the message |
| LogFormat.LinesOfEntry | Assignment3/LogServer.cpp:31 | the lines read from an entry are the pieces of the record |
| LogFormat.FileReadsBack | Assignment3/LogServer.cpp:28-52 | for any records, getline over the file delivers the lines of every record and an empty line after each, in order |
| LogServer.FirstLineIsRecord | Assignment3/Logger.cpp:118 | the first line of a record is the record of the message's first line |
| LogServer.ReceivedPieces | Assignment3/LogServer.cpp:85-88 | cutting a datagram to 1024 bytes cuts its first line to 1024 bytes and at most shortens the others |
| LogServer.PlainLines | Assignment3/LogServer.cpp:52-54 | the first line received of a plain record, of any length, has the logged level, later lines have none |
| LogServer.DumpRecoversLog | Assignment3/LogServer.cpp:47-70 | over lossless in-order delivery, a dump at a level above DEBUG prints exactly the first lines, as received, of the plain calls that passed the logger's and the server's filter, in order, for both kinds of dump |
| LogServer.SingleLineShownWhole | Assignment3/Logger.cpp:118 | a record without newlines is one line |
| LogServer.DumpAtDebug | Assignment3/LogServer.cpp:59-63 | at DEBUG the cumulative dump prints every line, the empty ones included |
| LogServer.FiltersCompose | Assignment3/Logger.cpp:98-101 | for plain calls, the cumulative dump at server level l of what a logger at level k sent equals the dump at the higher level of what an unfiltered logger sent, if and only if l is above DEBUG, or k is DEBUG, or nothing was sent |
| LogServer.StoiOfDecimal | Assignment3/LogServer.cpp:140-142 | stoi undoes to_string on every int that is not negative |
| LogServer.StoiReads | Assignment3/Logger.cpp:38 | stoi reads spaces, a sign and a number, ignores what follows, and fails exactly when the number does not fit |
| LogServer.StoiNeedsDigits | Assignment3/Logger.cpp:37-45 | without a digit it fails |
| LogServer.CommandUnderstood | Assignment3/Logger.cpp:36-42 | a datagram that contains the command is accepted exactly when the number after its first '=' is 0..3 |
| LogServer.CommandNeeded | Assignment3/Logger.cpp:36 | a datagram that does not contain it is ignored |
| LogServer.CommandRoundTrip | Assignment3/Logger.cpp:36-42 | the listener accepts the server's command exactly when it carries a level, and takes that level |
| LogServer.LevelIsLastAccepted | Assignment3/Logger.cpp:32-49 | after any datagrams the level is that of the last accepted command, or the initial one |
| LogServer.LevelStaysInRange | Assignment3/Logger.cpp:39-41 | the level never leaves DEBUG..CRITICAL |
| LogServer.Logger.Listen | Assignment3/Logger.cpp:33-48 | one datagram: malformed and out-of-range commands change nothing |
| LogServer.Logger.Log | Assignment3/Logger.cpp:98-123 | sends the record exactly when the call's level reaches the logger's and the socket could be bound |
| LogServer.Server.ReceiveLog | Assignment3/LogServer.cpp:84-90 | one datagram, cut to 1024 bytes, becomes one entry of the file; an empty one is ignored |
| LogServer.Server.GetLine | Assignment3/LogServer.cpp:52 | getline splits off the first remaining line |
| LogServer.Server.Dump | Assignment3/LogServer.cpp:47-70 | an exact dump prints exactly the lines whose level is the server's, a cumulative one those whose level is at least that, each as often as it is in the file and in order |
| LogServer.Server.ChooseLevel | Assignment3/LogServer.cpp:139-174 | builds a command exactly for 0..3, and the listener then takes the level the server has set for itself; an empty line is ignored, another number is invalid, and a stoi exception ends the server |
| LogServer.LogAndDump | Assignment3/LogServer.cpp:84-171 | the programs together: plain calls logged under changing levels and delivered, a level above DEBUG chosen in the menu; the dump prints exactly the expected lines, and logger and server agree on the level |
| SignalHandler.HandleOne | Assignment1/Part4/parent_main.c:27-63 | a signal is logged exactly when it reports an event whose flag is clear, and sets only that flag |
| SignalHandler.LogIsFirstOccurrences | Assignment1/Part4/parent_main.c:20-64 | for any sequence of signals the log is the reports without duplicates in order of first occurrence; a flag is set exactly when its event was reported |
| SignalHandler.FirstOccurrencesSame | Assignment1/Part4/parent_main.c:32-57 | removing repetitions keeps the elements and leaves no duplicate |
| SignalHandler.ReportsTheSender | Assignment1/Part4/parent_main.c:29-45 | with distinct pids every signal is attributed to its sender |
| SignalHandler.Parent.SignalHandler | Assignment1/Part4/parent_main.c:20-64 | the handler's search loop and flag updates |
| ParentSystem.StepKeeps | Assignment1/Part4/parent_main.c:122-198 | every step of parent, workers and kernel keeps the invariant |
| ParentSystem.DeliveredToSender | Assignment1/Part4/parent_main.c:122-161 | no handler runs before all pids are recorded, so every signal finds its sender |
| ParentSystem.FlagMeansSent | Assignment1/Part4/parent_main.c:46-58 | a set flag means that this worker really sent the signal |
| ParentSystem.CompletionAccounted | Assignment1/Part4/worker_process.c:74-77 | a completion that was sent is pending, noticed or dropped, and only one of these |
| ParentSystem.ParentDoneMeans | Assignment1/Part4/parent_main.c:171-198 | "Parent done" implies worker 3's warning, the completions of 1 and 2 and the end of all three |
| ParentSystem.WarningMeansHighUsage | Assignment1/Part4/worker_process.c:60-64 | a worker that has warned its parent did sample a usage above 50000 |
| ParentSystem.HighUsageWarns | Assignment1/Part4/worker_process.c:62-64 | a reading worker that has not warned does so exactly when it samples a usage above 50000; the signal becomes pending, or is dropped when one is |
| ParentSystem.DroppedForEver | Assignment1/Part4/parent_main.c:176-184 | a coalesced completion is never noticed later, so the parent never gets past the loop that waits for it |
| ParentSystem.AbandonedForEver | Assignment1/Part4/parent_main.c:171-184 | suspended with nothing pending and no worker reading, the parent sleeps whatever happens |
| ParentSystem.WakesIffNotAbandoned | Assignment1/Part4/parent_main.c:171-184 | some continuation wakes a suspended parent if and only if it is not in that situation |
| ParentSystem.WakeupCanBeLost | Assignment1/Part4/parent_main.c:158-184 | a concrete run in which all awaited events happened, none was dropped, and the parent sleeps for ever |
| ParentLiveness.FinishesIff | Assignment1/Part4/parent_main.c:171-198 | from a reachable state some continuation reaches "Parent done" if and only if worker 3's warning and the completions of workers 1 and 2 have each been noticed, are pending or can still be sent, and something can wake a suspended parent; or the parent is past its waiting loops |
| ParentLiveness.DoomedForEver | Assignment1/Part4/parent_main.c:171-184 | once that is impossible it stays impossible |
| ParentLiveness.WarningCanBeDropped | Assignment1/Part4/worker_process.c:62-64 | a concrete run: worker 3's warning is dropped while worker 2's is pending, and the parent never finishes |
| ParentProcesses.System.MainTurn | Assignment1/Part4/parent_main.c:134-198 | one step of main(): fork, record, unblock, test, suspend, reap |
| ParentProcesses.System.DeliverSignal | Assignment1/Part4/parent_main.c:158-184 | a pending signal runs the handler when the mask allows it and wakes a suspended parent |
| ParentProcesses.System.Raise | Assignment1/Part4/worker_process.c:62-75 | a signal that is already pending is not queued again |
| ParentProcesses.System.WorkerTurn | Assignment1/Part4/worker_process.c:41-77 | one step of a worker |
| ParentProcesses.System.Execute | Assignment1/Part4/parent_main.c:134-198 | parent, workers and deliveries follow the run of any schedule |
| ParentProcesses.Simulate | Assignment1/Part4/parent_main.c:96-198 | run from the start under any schedule, the parent is done only after the warning, the two completions and the three ends |
| WarnOnceWorker.Work | Assignment1/Part4/worker_process.c:41-77 | SIGUSR1 once if some sampled usage exceeded 50000 and never otherwise, then SIGUSR2 |
| AccumulatingWorker.AnyHighMeans | Assignment1/Part2/worker_process.c:118-122 | the warning condition means that some sample exceeded 50000 |
| AccumulatingWorker.SignalsMean | Assignment1/Part2/worker_process.c:58-132 | what Work sends, without abbreviations: SIGUSR1 exactly when some sample up to the last turn exceeded 50000, SIGUSR2 exactly when every sample could be taken |
| AccumulatingWorker.CompleteIffFits | Assignment1/Part2/worker_process.c:86-93 | the buffer holds the whole file if and only if the file fits |
| AccumulatingWorker.Check | Assignment1/Part2/worker_process.c:109-122 | one sample warns exactly when it is the first that is too high |
| AccumulatingWorker.Accumulate | Assignment1/Part2/worker_process.c:86-93 | copies the chunk behind the accumulated data if it fits, never past the buffer |
| AccumulatingWorker.Work | Assignment1/Part2/worker_process.c:45-132 | for any chunking and samples: the buffer is the in-order concatenation of the chunks that fitted, and the signals are SIGUSR1 at most once, then SIGUSR2 on completion |
| TravelSimulation.Automobile.AddFuel | Assignment3/Automobile.cpp:27-36 | capped at 50 with a WARNING when something was discarded |
| TravelSimulation.Automobile.Drive | Assignment3/Automobile.cpp:38-50 | never below empty, with an ERROR when the fuel did not suffice |
| TravelSimulation.Fleet.FillUp | Assignment3/TravelSimulator.cpp:37-44 | fills every tank to exactly 50 and logs nothing |
| TravelSimulation.Fleet.DriveCity | Assignment3/TravelSimulator.cpp:47-56 | exactly the cars that run dry on this track log an ERROR, in order; what is left in each tank, in numbers |
| TravelSimulation.Fleet.TopUp | Assignment3/TravelSimulator.cpp:59-62 | restores exactly 50; exactly the other cars log a WARNING |
| TravelSimulation.Fleet.DriveHighway | Assignment3/TravelSimulator.cpp:64-73 | logs nothing; what is left in each tank, in numbers |
| TravelSimulation.Fleet.Round | Assignment3/TravelSimulator.cpp:37-74 | the records of one round, in order, and the fuel left at its end |
| TravelSimulation.Consumption | Assignment3/TravelSimulator.cpp:48-73 | which car runs dry on which track, and that the highway leg never empties a full tank |
| TravelSimulation.TrackCycle | Assignment3/TravelSimulator.cpp:35-75 | the track schedule is 1, 3, 5, 2, 4 over and over |
| TravelSimulation.ErrorsStep | Assignment3/TravelSimulator.cpp:54-75 | one more round adds to the closed form exactly the cars that run dry on its track |
| TravelSimulation.ClosedForm | Assignment3/TravelSimulator.cpp:36-77 | n rounds log 4(n/5) plus 0, 0, 1, 3, 3 errors by n mod 5, and 4n minus that warnings |
| TravelSimulation.Simulate | Assignment3/TravelSimulator.cpp:23-77 | the loop logs exactly the records of the first n rounds of the schedule |

## Left out

- Lab8, kernel queue: capacity, EINTR, and failures of msgsnd and msgrcv other than those
  after the removal of the queue. The server's sleep after an empty poll is not modelled.
- Lab8, delivery of Quit and a full drain at shutdown: the queue is removed right after Quit
  has been sent (Lab8/server.cpp:73), so neither is promised; the results about reading Quit
  are conditional on its being read.
- Lab10, SIGINT inside sem_wait is not a step of the runs of TokenRing. What it does in the
  wait for the mutex is the subject of TokenRingInterrupt; an interrupted wait for the start
  signal is not modelled.
- Lab10, semaphores or a segment left over from an earlier run, and failures of client 3's own
  system calls.
- Lab10, the 1024-byte text is modelled as cleared or "message j from client c", and reading
  the cell (source and text) is one step; packet_no is never used by the programs. N is a
  parameter instead of 30.
- Lab9, reads that fill all 4096 bytes of the buffer, failing pthread_create, and the shutdown
  sequence after the main loop.
- Assignment2, the map's iteration order: descriptors are handled and shut down in an
  arbitrary order instead of the ascending one, so the results hold for every order.
- NetworkMonitor.Monitor.Serve: SIGINT is assumed to arrive between rounds. Inside select it is
  the same as that, because select ends with EINTR and the round is over; signal() makes accept
  and recv start again, so there it takes effect after the round. Not covered is its arrival
  while the descriptor set is being built or tested, where the descriptor -1 would be used.
- NetworkMonitor.Monitor.CleanupSockets: a send to a peer that has already closed is assumed to
  fail with an error. In the program it raises SIGPIPE, which nobody ignores and which would end
  the process, for example when Shut Down is said to a client that has just sent Done and closed.
- Assignment2, setting up the master socket, fork, exec, unlinking and reaping.
- HandshakeProcesses.InterfaceMonitor.Turn: recv is assumed not to fail in the runs of the
  client, because a reply that arrives after a failed receive would be read as the answer to a
  later request; and a send after the monitor has closed is assumed to fail with an error
  instead of raising SIGPIPE.
- Assignment2, sends that fail for other reasons, which both programs report and otherwise
  ignore, and client messages of 255 bytes or more.
- Assignment2, the client's recv returns one message: while the monitor runs at most one reply
  is in flight (Handshake.OneInFlight), and only Shut Down could follow it.
- Assignment3, loss and reordering of datagrams, and a log file that cannot be opened.
- LogServer.DumpRecoversLog: stated for levels above DEBUG, because at DEBUG the dump also
  prints the empty line after every record (LogServer.DumpAtDebug).
- Assignment3, the 64-byte message buffers in Automobile.cpp, rounding of doubles (amounts are
  real numbers), displayReport, and level commands that arrive during the simulation.
- Assignment1, fairness: ParentLiveness says when the parent can finish, not that a given
  scheduler lets it.
- Assignment1, fork and exec failures, generating and unlinking the files, and waitpid's
  early return when SIGCHLD is ignored and the child is already gone.
- Assignment1, worker pids must be distinct and positive, as the kernel guarantees.
- Assignment1/Part3, whose worker has the logic of the Part2 worker, and dhsb_logger.c, which
  appends a line to a file.
- Lab1 to Lab7 and the exams: input and output wrappers, fixed scripts and single loops, with no
  protocol between processes beyond those modelled here.

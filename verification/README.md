# Verification of the shell servers and the SOCKS proxy

A Dafny model of four protocols of this repository, with proofs about all their runs, and
of the small parsers and encoders around them.

* **Semaphores** (`SysVSemaphores`, `SemaphoreProtocol`, `SemaphoreClient`). The
  three-counter System V protocol of `semaphore.h`. Every `semop()` and `semctl()` call is
  one atomic step, with per-process adjustments, and a process may die between any two
  steps, which applies its undo. The semantics are those of the `semop()` and `semctl()`
  pages of POSIX.1-2008. `SemaphoreClient` is the code itself, call by call, with other
  processes running in between.
* **User pipes of the multi-process server** (`UserPipeHandshake`, `HandshakeRefinement`).
  Unlocked checks, locked updates, the exit loop cell by cell, kills, the forked children that
  broadcast, and the server giving free places to newcomers. The lock of these steps is shown
  to be the semaphore: every run is a run of `SemaphoreProtocol`.
* **Number pipes and pipeline wiring** (`Descriptors`, `NumberPipes`, `Delivery`,
  `Pipeline`). The countdown vector, the descriptor table with lowest-free allocation, and
  the pipe/fork/dup2/close calls of the execution loop, in the parent and in every child.
  `close()` may only be called on what is open, and every end of every pipe ever made is open
  at one descriptor or has been closed once.
* **The single-process server** (`SessionTable`, `Server`). User table, mark matrix, user
  pipes and number pipes of all users in one descriptor table, over any sequence of logins,
  lines and exits. Every line runs the loop of `Pipeline` and joins a history to which the
  theorems of `Delivery` apply.
* **The SOCKS 4 server** (`Relay`, `Socks4`, `Firewall`, `Proxy`). The asynchronous
  two-direction relay, the byte codec, and the rule matcher. SOCKS 4 is "SOCKS: A protocol
  for TCP proxy across firewalls", sections 1 and 2.
* **Text** (`Text`, `CommandLine`, `WebConsole`). The shell grammar and the web console's
  escaping.

Code that changes state in the repository is a class or a loop here, proved against
specification functions, and the properties are proved about those functions. The two
machines whose steps interleave between processes (`SemaphoreProtocol`,
`UserPipeHandshake`) are step functions on values, because no single method body contains
a step of another process.

## What the proofs found

* Some properties hold only up to a condition, which is proved exactly.
  `SemaphoreProtocol.OverwritesExactlyAtTheBound`: a create overwrites a set in use exactly
  when 31 processes are open. `SemaphoreClient.SemCreate`: a create returns a removed
  identifier exactly when it slept through the removal, because EIDRM is not retried;
  `SemaphoreProtocol.StrandedCreate` is a run that gets there.
  `UserPipeHandshake.ReceiveTakesWhatItSaw`: a receive takes the send that its check saw
  exactly when that mark was not wiped by an exit in between.
  `UserPipeHandshake.NewcomerFindsOnlyLateMarks`: a newcomer finds a mark exactly when it was
  written while the place was vacant and its sender has not exited since.
  `Delivery.NewcomerCanRead`: a newcomer to a slot of the single-process server can read a
  number pipe of an earlier user exactly when one of the slot's countdowns is 1 or more.
  `Firewall.CrashesExactly`: a request goes without a verdict exactly when a line that is
  blank, `permit` alone, or `permit` and the command without a pattern comes before any line
  that accepts. `Firewall.ListIsExactWhen`: a list of rules is octet-wise exactly when no rule
  with four octets overreaches, or another one matches anyway; 1.2.3.4 also admits 1.2.3.40.
* `SemaphoreProtocol.ForkedCloseRemoves` and `SemaphoreClient.SemCloseForked`: a forked child
  that runs `sem_close` removes the set while its parent has it open.
* `UserPipeHandshake.NewcomersMarkIsLost` and `NewcomerFindsALateMark`: what an exit between
  a check and its update can do.
* `Server.Server.InheritedPipe`: a run in which a newcomer's first command reads what the
  previous user's command wrote.
* `Relay.RunDelivers` and `Relay.ExactOnlyInOneSend`: retries send from the beginning of the
  buffer again, so a read arrives intact for all contents only in one full send.
* `Pipeline.ParentAccounting`: superseded read ends stay open in the parent, k - 1 or k - 2
  of them.

## Model

| member | source | states |
|---|---|---|
| SysVSemaphores.LockMeans | nctu_np_project2/final/semaphore.h:9-12 | the lock array succeeds exactly when [2] is 0, sets it to 1 and owes 1 back at exit |
| SysVSemaphores.EndCreateMeans | nctu_np_project2/final/semaphore.h:18-21 | one step counts the caller in [1] and releases [2], with both undone at exit |
| SysVSemaphores.CloseMeans | nctu_np_project2/final/semaphore.h:27-31 | one step takes [2] and counts the caller out of [1] |
| SysVSemaphores.OpMeans | nctu_np_project2/final/semaphore.h:33-37 | adding or taking one of [0], blocking below zero, owed back at exit |
| SemaphoreProtocol.NextKeepsInv | nctu_np_project2/final/semaphore.h:44-142 | every call of create, close, wait and signal, every fork and every death keeps counters, adjustments and places in agreement |
| SemaphoreProtocol.CountersExact | nctu_np_project2/final/semaphore.h:44-78 | in every reachable state [1] is 0 with nobody open or 31 less the open processes, and [2] is 1 exactly while one process is inside the locked section |
| SemaphoreProtocol.AdmittedRunsReach | nctu_np_project2/final/semaphore.h:44-78 | if every semget() happens while fewer than 31 processes are open or opening, and whoever closes has opened, the run keeps the discipline of the theorems here, with never more than 31 open or opening |
| SemaphoreProtocol.MutualExclusion | nctu_np_project2/final/semaphore.h:127-142 | two holders of a set are one process, and [0] is then 0 |
| SemaphoreProtocol.ValuePlusHolders | nctu_np_project2/final/semaphore.h:127-142 | on a set that is set up, [0] and the number of holders add up to 1 in every reachable state |
| SemaphoreProtocol.DeadHolderReleases | nctu_np_project2/final/semaphore.h:7-37 | a holder's death brings [0] from 0 to 1 and leaves no holder |
| SemaphoreProtocol.DieGivesBack | nctu_np_project2/final/semaphore.h:7-37 | the undo at death returns exactly what the process holds, never clipped at zero |
| SemaphoreProtocol.RemovedOnlyUnused | nctu_np_project2/final/semaphore.h:103-125 | when the set is removed nobody that completed a create is left and [1] is 31 |
| SemaphoreProtocol.InitialisedOnlyUnused | nctu_np_project2/final/semaphore.h:61-73 | SETVAL on [0] and [1] happens only with nobody open or holding and with no adjustment it would wipe out |
| SemaphoreProtocol.CloseByCreator | nctu_np_project2/final/semaphore.h:103-125 | a closing creator removes exactly when it is the only one open, and otherwise unlocks |
| SemaphoreProtocol.CloseByBorrower | nctu_np_project2/final/semaphore.h:103-125 | a process that was never counted in removes exactly when one other is open, and keeps the lock when nobody is |
| SemaphoreProtocol.CreateSucceeds | nctu_np_project2/final/semaphore.h:44-78 | with the lock free, the steps of a create alone lead to an open process with exact counters |
| SemaphoreProtocol.RecoversFromDeath | nctu_np_project2/final/semaphore.h:44-125 | after a death at any point of the locked section of a create or close, the next create succeeds |
| SemaphoreProtocol.OverwritesExactlyAtTheBound | nctu_np_project2/final/semaphore.h:61-73 | a create on a set in use initialises it again if and only if 31 processes are open |
| SemaphoreProtocol.ManyOpen | nctu_np_project2/final/semaphore.h:5 | 31 creates reach the bound, with [1] back at 0 |
| SemaphoreProtocol.StrandedCreate | nctu_np_project2/final/semaphore.h:54-60 | a reachable state in which one process is about to remove the set that a create of another is asleep on, which then wakes with the removed identifier |
| SemaphoreProtocol.ForkedCloseRemoves | nctu_np_project2/final/semaphore.h:103-125 | the close of a forked child decides to remove the set that its parent has open |
| SemaphoreClient.SemCreate | nctu_np_project2/final/semaphore.h:44-78 | begun with room, and with any steps of others between its calls, the code returns a set it has opened, or a removed identifier if and only if the set was removed while it slept on the lock, or is still asleep with the lock taken; its own steps are some attempts, the lock, and the set-up, which sets [0] and [1] if and only if it reads [1] as zero |
| SemaphoreClient.SemClose | nctu_np_project2/final/semaphore.h:103-125 | a process that opened the set is out afterwards: its own steps are the lock with the counting out, one GETVAL, and then the removal if nobody was open when [1] was read, and else the unlocking; it stays asleep only while the lock is taken |
| SemaphoreClient.SemCloseForked | nctu_np_project2/final/semaphore.h:103-125 | a forked process removes the set exactly when one process has it open at its first semop(), keeps the lock with nobody open, and otherwise leaves [1] one too high |
| SemaphoreClient.SemOp | nctu_np_project2/final/semaphore.h:127-142 | one call with the stored amount, for the process that opened the set and for forked ones; a wait ends alone with [0] at 0, or unprotected if and only if the set has been removed, and sleeps only while it must; a signal adds one and never blocks |
| SemaphoreClient.Bracket | nctu_np_project2/final/npshell_3.h:194-196 | an update between sem_wait and sem_signal, with others running before, during and after, is made alone unless the set has been removed |
| SemaphoreClient.RunPath | nctu_np_project2/final/npshell_3.h:755-772 | every path of a client that takes the lock waits only outside a bracket, makes exactly its calls in order, and ends outside |
| UserPipeHandshake.UpdatesAreExclusive | nctu_np_project2/final/npshell_3.h:194-196 | whoever updates the shared table holds the lock, and is alone |
| UserPipeHandshake.HolderNeverWaits | nctu_np_project2/final/npshell_3.h:755-772 | the holder's next step towards releasing the lock is always possible |
| HandshakeRefinement.StepFollows | nctu_np_project2/final/semaphore.h:127-142 | every step of the handshake, of the server, a client or a forked child, is followed by the kernel calls of the semaphore protocol, a death by its undo |
| HandshakeRefinement.LockIsTheSemaphore | nctu_np_project2/final/npshell_3.h:534-542 | in every run of the handshake the server, a client or a forked child is inside its bracket if and only if its process holds the semaphore, [0] is 1 if and only if nobody is, and a process outside can wait if and only if nobody is inside |
| UserPipeHandshake.SendNeverOverwrites | nctu_np_project2/final/npshell_3.h:279-294 | when a send writes its mark the cell is clear, whatever others and exits did since the unlocked check |
| UserPipeHandshake.ReceiveTakesWhatItSaw | nctu_np_project2/final/npshell_3.h:184-198 | a receive clears the mark its check saw if and only if no exit wiped it in between |
| UserPipeHandshake.ClearTakesTheMark | nctu_np_project2/final/npshell_3.h:194-196 | a receive clears exactly its cell and adds exactly one event, which takes the send its check saw if and only if that mark is there |
| UserPipeHandshake.Receive | nctu_np_project2/final/npshell_3.h:184-198 | a receive running alone takes the send whose mark it finds, clears that cell and changes nothing else |
| UserPipeHandshake.Send | nctu_np_project2/final/npshell_3.h:279-294 | a send running alone sets its cell, with a ticket of its own, and changes nothing else |
| UserPipeHandshake.SendRefused | nctu_np_project2/final/npshell_3.h:279-303 | a send to nobody or to a marked cell ends at its checks and changes nothing |
| UserPipeHandshake.ReceiveRefused | nctu_np_project2/final/npshell_3.h:184-203 | a receive from nobody or from an unmarked cell ends at its checks and changes nothing |
| UserPipeHandshake.Exit | nctu_np_project2/final/npshell_3.h:345-362 | an exit running alone leaves exactly the marks that do not name the user |
| UserPipeHandshake.CellHistoryAlternates | nctu_np_project2/final/npshell_3.h:184-294 | on a cell that no exit has wiped, sends and receives strictly alternate in every reachable history, each receive taking the send before it, and the mark is set exactly after an odd number |
| UserPipeHandshake.EverySendEndsOnce | nctu_np_project2/final/npshell_3.h:184-362 | whatever exits happen, each send is ended by exactly one later event, a receive, an exit or a receive that saw another mark, before the next send on its cell, or its mark is still there |
| UserPipeHandshake.NoSendReceivedTwice | nctu_np_project2/final/npshell_3.h:184-198 | no send is received twice in any run, exits included |
| UserPipeHandshake.NewcomerFindsOnlyLateMarks | nctu_np_project2/final/npshell_3.h:345-362 | a place given to a newcomer has no marks from its last user, and one addressed to it if and only if a send was written while the place was vacant and its sender has not exited since |
| UserPipeHandshake.LowestFreeIsLowest | nctu_np_project2/final/np_multi_proc.cpp:125-146 | the accept loop seats a newcomer in the lowest free place |
| UserPipeHandshake.SeatsWhenFree | nctu_np_project2/final/np_multi_proc.cpp:125-146 | whenever one of the thirty places is free the accept loop can fill the lowest of them |
| UserPipeHandshake.NewcomersMarkIsLost | nctu_np_project2/final/npshell_3.h:184-198 | a reachable state in which a receive is about to clear a newcomer's mark that its check never saw |
| UserPipeHandshake.NewcomerFindsALateMark | nctu_np_project2/final/npshell_3.h:279-294 | a reachable state in which a newcomer is about to be seated with a mark addressed to him |
| Descriptors.Process.Pipe | nctu_np_project2/final/npshell_2.h:571-573 | pipe() takes the two lowest free descriptors |
| Descriptors.Process.Close | nctu_np_project2/final/npshell_2.h:653-667 | only what is open is closed, so that every end of every pipe made so far stays open at exactly one descriptor or has been closed exactly once |
| NumberPipes.NumberPipes.Tick | nctu_np_project2/final/npshell_2.h:149-157 | the in-place loop counts every entry down by one and reports whether one is due |
| NumberPipes.NumberPipes.Park | nctu_np_project2/final/npshell_2.h:225-261 | the search shares a pipe with the same deadline, and else appends one new pipe |
| NumberPipes.NumberPipes.CloseDueOut | nctu_np_project2/final/npshell_2.h:653-659 | closes exactly the write ends of due entries, each open and once |
| NumberPipes.TickKeepsAgenda | nctu_np_project2/final/npshell_2.h:149-157 | counting down changes no absolute deadline and keeps countdowns distinct |
| NumberPipes.ParkAddsToAgenda | nctu_np_project2/final/npshell_2.h:235-240 | parking adds exactly one line number to the map the vector stands for |
| NumberPipes.EraseKeepsAgenda | nctu_np_project2/final/npshell_2.h:447-453 | compacting takes the present line, and only it, off the map |
| Delivery.ReadsIffParkedFor | nctu_np_project2/final/npshell_2.h:149-261 | over any session, the first external command of line t reads a number pipe if and only if an earlier line s had s + N = t |
| Delivery.ReadsExactlyItsWriters | nctu_np_project2/final/npshell_2.h:447-507 | that pipe is written by exactly the lines s with s + N = t whose last command can write, merged, and never again later |
| Delivery.AgendaIsSchedule | nctu_np_project2/final/npshell_2.h:149-261 | after any session the vector, as a map, holds exactly the lines to come that were parked for, each with the pipe that exactly its lines write |
| Delivery.InheritsExactly | nctu_np_project2/final/npshell_2.h:149-157 | line t reads a pipe made before line n if and only if the vector at n has an entry whose countdown ends at t |
| Delivery.NewcomerCanRead | nctu_np_project2/final/np_single_proc.cpp:82-99 | whoever goes on with a slot can read a pipe of before if and only if a countdown of 1 or more is left |
| Pipeline.RunStages | nctu_np_project2/final/npshell_2.h:303-640 | the whole execution loop: wiring of every child, what the parent keeps, what happens to the vector, for any mix of external commands, builtins and exit; every child has exactly what the parent had at its fork, less the read end of the pipe it writes, and nothing that writes the pipe it reads; no stage closes what is not open |
| Pipeline.StagesAreJoined | nctu_np_project2/final/npshell_2.h:406-637 | in a line of external commands each stage writes the pipe that exactly the next one reads, the first reads the due number pipe, else the user pipe, else standard input, and the last writes where the parser said |
| Pipeline.ParentAccounting | nctu_np_project2/final/npshell_2.h:571-636 | with k >= 2 external stages the parent keeps exactly what it had, less the consumed ends, and k - 1 read ends of its own pipes, or k - 2 when the last stage has its own output |
| Pipeline.LoneAccounting | nctu_np_project2/final/npshell_2.h:406-637 | one external command leaves no descriptor and closes both ends of what it consumed |
| Pipeline.FirstFork | nctu_np_project2/final/npshell_2.h:574-582 | at the fork of the reader neither the parent nor the child has the due pipe's or the user pipe's write end |
| Pipeline.FinishedOutcome | nctu_np_project2/final/npshell_2.h:446-459 | apart from the inputs it consumed and descriptor 0, a finished line changes no descriptor and adds only read ends of its own pipes, none on a standard descriptor |
| SessionTable.LivePipesApart | nctu_np_project2/final/npshell_2.h:230-276 | descriptors of live number pipes and user pipes of all users are pairwise distinct |
| SessionTable.OneOwner | nctu_np_project2/final/npshell_2.h:230-276 | every live pipe belongs to one entry of one user, and to no user-pipe cell |
| SessionTable.VacantUnmarked | nctu_np_project2/final/npshell_2.h:324-340 | a vacant slot has no marks from or to it |
| SessionTable.ReceiveKeeps | nctu_np_project2/final/npshell_2.h:170-189 | clearing a mark keeps the invariant, and its pipe stays open for the line that received it |
| SessionTable.SendNewPipe | nctu_np_project2/final/npshell_2.h:262-284 | a new pipe in the cell of an unmarked pair keeps the invariant of all users |
| SessionTable.RunKeeps | nctu_np_project2/final/npshell_2.h:303-640 | running a line keeps the invariant: nobody else's pipe or socket is touched |
| SessionTable.LeaveKeeps | nctu_np_project2/final/npshell_2.h:324-340 | an exit keeps the invariant once the marks are cleared |
| Server.Server.constructor | nctu_np_project2/final/np_single_proc.cpp:37-59 | the server starts with every slot vacant, no marks and the invariant |
| Server.Server.Login | nctu_np_project2/final/np_single_proc.cpp:71-105 | a login takes the lowest free slot with a socket of its own, and finds no marks; it can read a number pipe of an earlier user if and only if the slot has a countdown of 1 or more |
| Server.Server.FindFdUser | nctu_np_project2/final/np_single_proc.cpp:188-195 | the search inverts the table: it returns the one valid user with that socket, or -1 when there is none |
| Server.Server.Rename | nctu_np_project2/final/npshell_2.h:391-404 | a name is taken only if no valid user has it, without one the name is "(no name)", and nothing else changes |
| Server.Server.Receive | nctu_np_project2/final/npshell_2.h:169-189 | each receive needs an existing sender and a mark that no earlier one of the line took; up to the first that fails exactly their marks are cleared |
| Server.Server.Finish | nctu_np_project2/final/npshell_2.h:211-287 | a line's end parks, sends or names a file as the grammar says; a send succeeds if and only if its receiver exists and its own cell has no mark, and then exactly that mark is set and its pipe open |
| Server.Server.ClearMarks | nctu_np_project2/final/npshell_2.h:329-336 | the nested loops clear exactly the row and the column of the user |
| Server.Server.Command | nctu_np_project2/final/np_single_proc.cpp:109-142 | one line of one user: it has no error if and only if every receive finds its mark and a final send its receiver and no mark; then exactly the marks, the name, the slot, the number pipes and the children change that it says, on the user's socket, with the invariant of all users kept |
| Server.LineIsWired | nctu_np_project2/final/npshell_2.h:406-637 | of a line as it ran: one child per external command before the first exit; the first reads the due number pipe, else the user pipe of the last receive, else the socket; neighbours share a pipe; the last writes to the socket, the file, the parked pipe (with `!N` its errors too) or the receiver's cell |
| Server.ParsingMeans | nctu_np_project2/final/npshell_2.h:169-287 | which lines have an error, and which marks a line leaves, receive by receive |
| Server.LastNameWins | nctu_np_project2/final/npshell_2.h:391-404 | after a line the user has the name of its last `name` command before the first exit that nobody else has, and nobody else is renamed |
| Server.Server.Serve | nctu_np_project2/final/np_single_proc.cpp:61-144 | over any sequence of logins, lines and exits every event does to users, marks and histories what it means, and only an event out of scope stops the loop; the invariant holds, a set mark has two valid users and two open ends, live pipes share no descriptor and no owner, and every vector is what its slot's history makes of it |
| Server.FirstCommandReads | nctu_np_project2/final/npshell_2.h:149-157 | in the server, the first command of a line reads the pipe written by exactly the slot's earlier lines parked for it |
| Server.LastCommandWrites | nctu_np_project2/final/npshell_2.h:460-488 | the last command of a line parked for later writes the pipe that the history says |
| Server.LineReadsLine | nctu_np_project2/final/npshell_2.h:447-507 | of two lines of one slot as they ran, the first command of the later reads the number pipe that the last command of the earlier writes, if and only if the earlier ended in N with N the distance between them |
| Server.NewcomerReads | nctu_np_project2/final/np_single_proc.cpp:82-99 | a line of a newcomer reads a pipe of an earlier user if and only if the vector at the login has an entry whose countdown ends on it |
| Server.Server.InheritedPipe | nctu_np_project2/final/np_single_proc.cpp:82-99 | a run in which a user parks a command's output and exits, and the standard input of the next user's first command is the pipe that command wrote |
| Relay.StepKeepsInv | nctu_np_project4/socks_server.cpp:78-154 | every completion, in any order, keeps both directions' bookkeeping |
| Relay.OneOutstanding | nctu_np_project4/socks_server.cpp:246-321 | each direction has at most one outstanding operation |
| Relay.NothingCutOff | nctu_np_project4/socks_server.cpp:78-154 | no outstanding operation has its socket closed or shut down for it |
| Relay.HalfCloseAtZeroDebt | nctu_np_project4/socks_server.cpp:86-94 | a direction is half-closed only when everything read has been acknowledged |
| Relay.HalfClosedExactly | nctu_np_project4/socks_server.cpp:82-95 | both sockets of a direction are shut for it if and only if one of its reads has failed |
| Relay.AnyCompletion | nctu_np_project4/socks_server.cpp:78-154 | whatever is outstanding in a run may complete with any number of bytes up to what was asked, or fail, and the run goes on |
| Relay.BytesConserved | nctu_np_project4/socks_server.cpp:82-108 | bytes read are bytes acknowledged, plus what the pending send asks, plus what was owed when a send failed |
| Relay.HowItStops | nctu_np_project4/socks_server.cpp:117-154 | a direction has nothing outstanding exactly after a failed read, which sets its flag, or a failed send, which does not |
| Relay.ClosedExactlyWhenBothEnded | nctu_np_project4/socks_server.cpp:85-92 | the sockets are closed explicitly if and only if reads failed in both directions, so never after a failed send |
| Relay.FullSendsDeliver | nctu_np_project4/socks_server.cpp:98-115 | with full sends the delivered stream is a prefix of the read stream, and all of it when nothing is owed |
| Relay.RunDelivers | nctu_np_project4/socks_server.cpp:98-115 | in every run, with any completions of the other direction in between, what is read is a list of chunks, and what is delivered is for each chunk the buffer prefixes of its sends; all but the last chunk are carried whole, and the last one unless its send is pending or failed |
| Relay.RetriesBounded | nctu_np_project4/socks_server.cpp:103-108 | in every run a read is carried by at most as many sends as it has bytes |
| Relay.SendsBounded | nctu_np_project4/socks_server.cpp:98-108 | in every run a direction completes at most as many sends as it has delivered bytes |
| Relay.ExactOnlyInOneSend | nctu_np_project4/socks_server.cpp:103-108 | what is delivered equals what was read for all contents if and only if one full send carried it |
| Relay.Session.InReadHandler | nctu_np_project4/socks_server.cpp:82-95 | the handler moves the session's fields exactly as the protocol's step |
| Relay.Session.OutSendHandler | nctu_np_project4/socks_server.cpp:137-154 | the same for an acknowledged, short or failed send |
| Relay.Session.Run | nctu_np_project4/socks_server.cpp:45-154 | over any possible completions the object's state is the machine's |
| Socks4.ByteToInt | nctu_np_project4/socks_server.cpp:462-471 | the bit loop over a signed char gives its value modulo 256 |
| Socks4.ParseRequest | nctu_np_project4/socks_server.cpp:453-461 | the parsed fields are the unsigned meaning of the eight bytes: 1 is CONNECT, 2 is BIND, other commands leave CD unset, and port and address are decimal |
| Socks4.Encode | nctu_np_project4/console.cpp:188-197 | the nine bytes stored for a port string and an address |
| Socks4.RoundTrip | nctu_np_project4/console.cpp:188-197 | for every port that is not negative and every address, parsing gives back the address and the port modulo 65536 |
| Socks4.PortStringRoundTrip | nctu_np_project4/socks_server.cpp:459 | a port string below 65536 comes back unchanged |
| Socks4.PortOfAnyInt | nctu_np_project4/console.cpp:191-192 | for any int the sixteen bits come back if and only if it is not negative or a multiple of 256 |
| Firewall.Permits | nctu_np_project4/socks_server.cpp:408-437 | the loop over the lines gives the verdict of the first line that decides, out-of-range reads included |
| Firewall.WordsOfLine | nctu_np_project4/socks_server.cpp:413-421 | words with any runs of blanks around them and any comment behind them are read as those words |
| Firewall.AcceptsExactlyMatches | nctu_np_project4/socks_server.cpp:408-437 | for any list of rules, with four octets or with wildcards, a request is accepted if and only if some rule of its command admits the address: octet by octet, with a last octet that may be extended |
| Firewall.PrintedRule | nctu_np_project4/socks_server.cpp:413-421 | a printed rule, with or without a comment, is read back as that rule |
| Firewall.FullRule | nctu_np_project4/socks_server.cpp:423-431 | a rule with four octets accepts exactly the addresses with its first three octets whose last one extends its last |
| Firewall.FullRuleIsExactWhen | nctu_np_project4/socks_server.cpp:423-431 | such a rule is octet-wise if and only if the last octet does not properly extend the rule's |
| Firewall.ListIsExactWhen | nctu_np_project4/socks_server.cpp:408-437 | a list of rules accepts octet-wise if and only if none of its four-octet rules overreaches for the address or some rule matches it |
| Firewall.OneAddressAdmitsAnother | nctu_np_project4/socks_server.cpp:423-431 | a rule for 1.2.3.4 accepts 1.2.3.40 |
| Firewall.CrashesExactly | nctu_np_project4/socks_server.cpp:408-437 | for any configuration: a request goes without a verdict if and only if a line that is blank, `permit` alone, or `permit` and the command without a pattern comes before any that grants it, and is accepted if and only if it is the other way round |
| Firewall.UnknownNeverAccepted | nctu_np_project4/socks_server.cpp:422 | no configuration accepts a request whose command is neither 1 nor 2 |
| Proxy.Respond | nctu_np_project4/socks_server.cpp:357-406 | which session starts and which eight bytes are the reply, for every verdict |
| Proxy.ConnectedExactlyWhenPermitted | nctu_np_project4/socks_server.cpp:353-389 | from the console's bytes to the decision: connected to that address and port if and only if a rule admits the address and it is not 0.0.0.0 |
| Proxy.AnswersExactly | nctu_np_project4/socks_server.cpp:353-406 | any eight bytes against any configuration: which of connecting, binding, rejecting, silence and a read out of range follows, if and only if, and the eight bytes of each reply |
| Proxy.BindPort | nctu_np_project4/socks_server.cpp:202-205 | the port that a BIND reply stores is read back from its two bytes |
| Text.Tokenize | nctu_np_project1/npshell.cpp:85-89 | repeated strtok gives the words of the text: around and between them there are only runs of separators, none of them empty between two words |
| Text.WordsOfWeave | nctu_np_project1/npshell.cpp:85-89 | words with any runs of separators before, between and after them are read back |
| Text.AtoiReads | nctu_np_project1/npshell.cpp:102-169 | blanks, a sign, a decimal number and whatever is no digit behind it are read as that number |
| CommandLine.Parse | nctu_np_project1/npshell.cpp:84-169 | the token and grouping loops compute the grammar, null-token crashes included |
| CommandLine.PiecesParse | nctu_np_project1/npshell.cpp:102-169 | any line of arguments and operators gives its arguments command by command, the file of its last `>` and its numbers in order |
| CommandLine.PiecesCrash | nctu_np_project1/npshell.cpp:102-169 | a line that ends in `>`, or that has an operator without a number, makes the parser use a null token, wherever it is |
| CommandLine.EveryLine | nctu_np_project1/npshell.cpp:84-169 | every sequence of tokens is of one of these two forms |
| CommandLine.ParseOfRender | nctu_np_project1/npshell.cpp:84-169 | printing any well-formed commands joined by pipes with any end and parsing them gives back arguments, end and N |
| CommandLine.RenderInjective | nctu_np_project1/npshell.cpp:102-169 | two well-formed lines that print alike are the same |
| WebConsole.Encode | nctu_np_project3/console.cpp:87-101 | the appending loop escapes character by character |
| WebConsole.ReplaceAll | nctu_np_project3/console.cpp:79-84 | replacing the first occurrence until there is none ends, and replaces every one |
| WebConsole.OneMap | nctu_np_project3/console.cpp:75-101 | escaping and both replacement loops together are one map over the characters |
| WebConsole.ShownTable | nctu_np_project3/console.cpp:75-101 | what is written for each character, and that a text is written character by character |
| WebConsole.DecodeOfShown | nctu_np_project3/console.cpp:75-101 | reading the character references back gives the shell's text without carriage returns |
| WebConsole.NoQuotesTagsOrLineEnds | nctu_np_project3/console.cpp:85 | no double quote, angle bracket or line end is left in what is written |
| WebConsole.NpShellRun.Run | nctu_np_project3/console.cpp:50-74 | over any responses the commands go out one per prompt in order, and the page reads as the session's text |
| WebConsole.SessionMore | nctu_np_project3/console.cpp:50-74 | the session's text grows by each response and, if it has a prompt and a command is left, by the next command |

## Left out

* Socket setup, `select`, Boost.Asio internals, name resolution, `execvp`, PATH lookup and
  environment variables: foreign calls, present only through descriptors and completions.
* HTML pages, welcome and broadcast texts: user interface. The script string around the
  console's text, in which a browser would also read backslashes, is not modelled.
* Assumptions on semaphores: a `semop()` that sleeps is not interrupted by a signal, new sets
  start at zero, the lock-free `sem_open` is unused, and processes share one set under one
  key. The theorems hold for runs in which a create begins only while fewer than 31 processes
  are open or opening; `OverwritesExactlyAtTheBound` says what happens beyond.
* SemaphoreClient.SemCloseForked: after its first semop() the others do not run until it ends,
  because a close that was never counted in leaves the reachable states of the other theorems.
* `sem_create` with an invalid key, and failures of `semget()` and `semctl()` on a live set.
* `pipe()`, `open()` and `fork()` succeed; `fork()` is retried until it does. At most 30 users,
  and arguments, tokens and names fit their arrays. A user array of 31 entries is assumed for
  the multi-process server, which indexes it by identifiers.
* The bodies of child processes after `dup2`; a user-pipe child also opens a file whose name
  is never set, which adds an unused descriptor.
* `batch`, whose state does not survive a call.
* The mailbox of the multi-process server and its draining on SIGUSR1, which has no lock, and
  the process identifiers published for it.
* Lines in which `<n` follows the end, or that both receive from and send to oneself, empty
  and blank lines, and clients that leave without `exit`.
* A server line's `name` commands are applied after its stages although the code
  interleaves them; names and descriptors share no state.
* `redirection_file_name` in `npshell.cpp` is used as if it were zeroed, as `npshell_2.h`
  does; the code copies a name into it without a terminator.
* Delivery of bytes through number pipes and user pipes: pipes are identities, and what is
  proved is who can read and write them.
* Lifetime of the reply buffer handed to a SOCKS session; it is a value here.
* Other shells, drafts and the CGI programs, which repeat these parts or add easy ones.

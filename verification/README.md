# A verified model of sctp_sandbox_c

sctp_sandbox_c is a chat program over SCTP, TCP, UDP, DCCP and Unix sockets. One I/O thread reads
lines; any number of network threads each own one socket, send those lines to their peers, and react to
what the kernel reports. This project models its four stateful cores and proves what they are for:

- **The peer table and its handlers** (`Socket.dfy`, `SocketUdp.dfy`, `SocketTcp.dfy`, `SocketSctp.dfy`,
  `SocketUnix.dfy`, `SocketCleanUp.dfy`, `FdSet.dfy`). Ten append-only slots, used by every protocol under
  its own key. The handlers are methods on a `Socket` object whose array of slots is updated in place. Each
  is proved to compute a function on the `State` that the object stands for; the properties are proved of
  those functions and of whole runs of them (`PeerTable.dfy`, `TableUse.dfy`, `TableRuns.dfy`, `Accounts.dfy`,
  `UdpOwnership.dfy`, `UdpAccounts.dfy`, `UdpDetection.dfy`, `TcpRuns.dfy`).
- **The UDP keep-alive protocol in time** (`UdpTiming.dfy`: one node; `UdpNetwork.dfy`: any number of nodes
  on a network that delays, loses and duplicates).
- **The chat mailbox and the quit message** (`Chat.dfy`, `ChatQuit.dfy`, `ChatMessages.dfy`), as
  interleavings of lock, copy out, copy in and unlock by any number of threads.
- **Addresses and arguments** (`IpSocket.dfy`: packed arrays of addresses; `NetworkConfiguration.dfy`: the
  command line).

`dafny verify dfyconfig.toml` checks everything.

## Assumptions

What the program calls but does not contain is replaced by these assumptions, and by nothing else.

- **Scheduler** (`tools_c/TaskScheduler` is not part of this model). A task has a stable handle, a delay, a
  number of repetitions and a due time. A launch fires only due, enabled tasks, in any order; `resetTask` restores
  repetitions and due time; `disableTask` cancels for good. Whether the next repetition is counted from the time
  the last one was due or from now is not known, so every result holds for both (`Rearm`): with launches at
  most P apart the last ping can be P late in the first case and 3P in the second (`Pace.Late`).
- **Time.** Milliseconds; handlers take no time. The nodes of a network share one clock.
- **Kernel.** A new descriptor is not zero and not open. `select` reports a subset of what it was given.
- **Failed checks.** Where the program stops in an error check the run ends, so no such state is modelled. A null
  pointer that is followed is an outcome of its own (`NullPeer`, `NullTask`), and exactly when that happens is
  proved.
- **Ports.** A datagram does not come from port 0, and port 0 is not connected to; zero is what marks a removed
  slot. What happens otherwise is stated: a message from port 0 resets null tasks exactly when a removed slot has its
  address (`UdpOwnership.PortZeroResetsNothing`), and connecting to port 0 breaks ownership of tasks exactly when
  there is room for it (`UdpOwnership.PortZeroBreaksOwnership`).
- **Network, for the no-false-failure results only.** After each reset of a watched pair of nodes that are both
  there, one of the three probes is promised: it arrives and is handled within the delay D, and so is the answer.
  Every other datagram may come late, many times or never. What a node puts on the wire is what its handlers and
  its clean-up add to its log of sent messages, and nothing else.
- **Texts.** `msg` and `text` are the C string in the message buffer after a receive.
- **Threads.** The one-time creation of the chat mutex is over. A network thread may find its lifetime over
  whenever it comes to its loop's condition.
- **inet_pton and inet_ntop** are any pair of functions of which the first, given what the second printed, gives the
  same bytes back (`IpSockets.Lawful`).

## Where the code does less than one might expect

- `connectSocketUdp` does not look its remotes up, so one remote can get several slots; it gets a second one exactly
  when it is connected to again and there is room (`UdpTiming.SecondSlotExactlyOnConnect`). A message resets only the
  first slot for its sender (`UdpDetection.MessageResetsTheFirst`). A firing comm-lost gives up its own slot exactly
  when no earlier slot is for the same remote. Otherwise it takes the earlier slot, although the remote may be
  talking, and leaves its own slot live without a comm-lost that could fire, so that from then on nobody notices if
  the remote falls silent, until a message arms the slot again (`UdpDetection.CommLostGivesUpItsOwnSlot`; a run in
  `UdpTiming.DuplicateIsLostWhileTalking`). That is the only way in which a live slot loses its comm-lost
  (`UdpDetection.LiveSlotsStayArmed`). Ownership, conservation and the bound on churn hold with duplicates too.
- A goodbye from a sender without a slot makes a UDP socket follow a null pointer, and a Unix socket likewise, whether
  or not it has duplicate paths; these are the only ways to make them crash
  (`UdpOwnership.CrashesExactlyOnStrangersGoodbye`, `SocketUnix.PathsAreTracked`).
- A command line with more than four pairs before "-r", or more than four after it, writes behind the arrays of the
  configuration; no other does (`NetworkConfigurations.StoresFitExactly`, `NetworkConfigurations.RenderedFits`).
- An SCTP association that finds the table full is not stored; the report of its end is then followed into a null
  pointer (`SocketSctp.CrashesExactlyOnRefusedAssociation`).
- Once ten slots have been used, a socket never fills another: see the bounds on churn.
- The I/O thread compares its buffer with "q" before it first reads (`src/IoTask.c:28-30`), so an uninitialised "q" would
  end it at once (`Chat.IoTask`).

## Model

| member | source | states |
|---|---|---|
| Sockets.Find | src/SocketUdp.c:43-49 | a lookup gives the first slot with the key, and nothing exactly when no slot has it |
| Sockets.Socket.FindPeer | src/SocketTcp.c:32-38 | the lookup loop computes that |
| Sockets.Socket.ScheduleTask | src/SocketUdp.c:32-41 | a new task goes behind all others and its handle is returned |
| Sockets.Socket.ScheduleReestablishment | src/Socket.c:232-242 | a one-shot reconnect due in 5000 is added, nothing else changes |
| Sockets.Socket.CloseFd | src/Socket.c:222-230 | a descriptor that is open is closed, none twice, and the field becomes zero |
| Sockets.Socket.DisableTasks | src/Socket.c:52-64 | both tasks of the slot are cancelled and the slot lets go of them |
| Sockets.Socket.RemovePeer | src/Socket.c:244-252 | the slot becomes a tombstone, its descriptor is closed, its tasks are cancelled on UDP |
| Sockets.Socket.SendToLive | src/SocketTcp.c:136-155 | the send loop computes the send of which SendGoesToEachPeer speaks |
| Sockets.RemovalKeepsFdsOwned | src/Socket.c:244-252 | a removal keeps "open descriptors = main + live slots, all distinct" |
| Sockets.AppendKeepsFdsOwned | src/SocketTcp.c:63-68 | so does filling a slot with a fresh descriptor |
| PeerTable.StepRefines | src/Socket.c:244-252 | lookup, add and remove on the slots agree with the partial map, under each of the four keys |
| PeerTable.SlotsRefineMap | src/SocketTcp.c:32-38 | so do operation sequences of any length, answer by answer |
| PeerTable.SlotsAreMapExactly | src/Socket.h:66-67 | the slots are a map if and only if their live keys are distinct |
| PeerTable.SlotsAreNeverReused | src/Socket.h:66-67 | over any operations a dead slot stays dead and a live one is unchanged until it is removed |
| PeerTable.TombstoneIsDead | src/Socket.c:244-252 | a removed peer is dead under all four keys at once, has lost its tasks on UDP, and keeps its address |
| PeerTable.EachLiveKeyOnce | src/SocketSctp.c:253-267 | the targets of a send loop are the keys of the map, each exactly once |
| TableUse.UdpMessageActsOnMap | src/SocketUdp.c:112-143 | a datagram adds an unknown sender to the map, a goodbye removes the sender, anything else leaves the map |
| TableUse.UdpCommLostActsOnMap | src/SocketUdp.c:51-56 | comm-lost removes the remote from the map |
| TableUse.UdpConnectActsOnMap | src/SocketUdp.c:106-110 | a start adds its remotes in order as far as there is room, if those are distinct and new |
| TableUse.TcpConnectActsOnMap | src/SocketTcp.c:53-70 | a start or reconnect adds the descriptors opened for it |
| TableUse.UnixConnectActsOnMap | src/SocketUnix.c:49-53 | a start adds its paths, if distinct and new |
| TableUse.TcpMessageActsOnMap | src/SocketTcp.c:72-96 | the listening descriptor adds the accepted one, an end of either kind removes its descriptor, TCP and DCCP alike |
| TableUse.SctpUpActsOnMap | src/SocketSctp.c:94-113 | a new association is added to the map if there is room |
| TableUse.SctpDownActsOnMap | src/SocketSctp.c:128-132 | the end of an association removes it from the map |
| TableUse.UnixMessageActsOnMap | src/SocketUnix.c:55-82 | a message adds an unknown path, a goodbye removes it |
| TableUse.SendGoesToEachPeer | src/Socket.c:181-193 | in every protocol and whatever is in the table, a send logs one copy for each slot with a descriptor (TCP, DCCP, SCTP), a port (UDP) or a path (Unix), to that descriptor, remote or path, in slot order, and nothing else |
| TableUse.SendReachesEachOnce | src/SocketUdp.c:145-153 | if the slots are a map by descriptor, remote or path, as the protocol has it, each key of the map is told once |
| TableUse.CleanUpSaysGoodbye | src/Socket.c:195-203 | closing says "q" to each such slot on DCCP, UDP and Unix, in order, and nothing on TCP and SCTP; it leaves nothing open and no descriptor in a slot |
| TableUse.UdpHasTenSlots | src/SocketUdp.c:75-88 | of the remotes of a start as many get a slot as are left of ten |
| TableUse.TcpHasTenSlots | src/SocketTcp.c:53-70 | the same for TCP and DCCP |
| TableUse.UnixHasTenSlots | src/SocketUnix.c:49-53 | the same for Unix |
| TableRuns.TcpSendsWhatIsSaid | src/SocketTcp.c:136-155 | a TCP or DCCP socket that runs sends what its user says, to each peer in slot order, and nothing else |
| TableRuns.TcpRefinesMap | src/Socket.c:156-175 | every TCP and DCCP run, connects and reconnects included, is a run of a map from descriptors to slots that the events alone determine; what is said then, and a DCCP goodbye, goes to each descriptor of that map once |
| TableRuns.UdpRefinesMap | src/SocketUdp.c:106-143 | so is every UDP run, by remote, that does not connect to a remote that has its slot; messages and goodbyes likewise |
| TableRuns.SctpRefinesMap | src/SocketSctp.c:145-172 | so is every SCTP run, by association; by descriptor the slots are a map too, so a send reaches each once and closing says nothing |
| TableRuns.UnixRefinesMap | src/SocketUnix.c:49-82 | so is every run of a Unix socket that connects to distinct paths; messages and goodbyes go to each path of the map once |
| SocketUdp.SendSocketUdpToRemote | src/SocketUdp.c:11-24 | one datagram to the remote is logged, nothing else changes |
| SocketUdp.FindPeerByRemote | src/SocketUdp.c:43-49 | finds the first slot for the address and port |
| SocketUdp.HandleCommUpUdp | src/SocketUdp.c:75-88 | a fresh slot gets the remote and its two new tasks; with a full table nothing happens |
| SocketUdp.ConnectSocketUdp | src/SocketUdp.c:106-110 | the loop is a comm-up for each remote in order |
| SocketUdp.HandleCommLostUdp | src/SocketUdp.c:51-56 | schedules the reconnect and removes the first slot for the remote; crashes when there is none |
| SocketUdp.HandleMessageUdp | src/SocketUdp.c:112-143 | goodbye, acknowledgement, reset or new peer; crashes exactly when a null pointer is followed |
| UdpOwnership.StepKeepsInv | src/SocketUdp.c:75-100 | every event keeps: a live slot has two tasks of its own for its own remote, neither cancelled, a dead one none, and each task that is not cancelled has an owner |
| UdpOwnership.TimerOwnership | src/Socket.c:52-64 | in every reachable state each enabled ping or comm-lost task has exactly one owner, a live slot for the task's remote |
| UdpOwnership.FiringIsSafe | src/SocketUdp.c:26-62 | no firing crashes: comm-lost finds its peer, a ping goes to the remote of a live slot |
| UdpOwnership.CrashesExactlyOnStrangersGoodbye | src/SocketUdp.c:90-100 | an event crashes if and only if it is a goodbye from a sender without a slot; null tasks are never reset |
| UdpOwnership.PortZeroResetsNothing | src/Socket.c:250 | a message resets null tasks if and only if it comes from port 0 and matches a removed slot |
| UdpOwnership.PortZeroBreaksOwnership | src/SocketUdp.c:75-88 | connecting keeps that invariant if and only if the port is not 0 or the table is full |
| UdpOwnership.OneDescriptor | src/SocketUdp.c:11-24 | UDP slots hold no descriptor, so the main one is all there is to close |
| UdpAccounts.StepFlow | src/SocketUdp.c:51-94 | what each event takes from and gives to live slots and pending reconnects, per remote |
| UdpAccounts.StepBalances | src/SocketUdp.c:106-143 | each event keeps the books of a remote balanced |
| UdpAccounts.UdpConservation | src/Socket.c:28-36 | in every run live slots + pending reconnects = connects asked for + peers learned - goodbyes - attempts without a slot, per remote and in all; a pending reconnect keeps its port |
| UdpAccounts.StepSpendsWeight | src/SocketUdp.c:75-94 | 3 * unused + 2 * live + pending falls with every comm-up, comm-lost, goodbye and reconnect |
| UdpAccounts.UdpChurnIsBounded | src/Socket.h:9-14 | so no run has more than thirty of them |
| UdpAccounts.DeadSlotsStayDead | src/SocketUdp.c:84-87 | a slot given up is not used again in any run |
| UdpAccounts.PingsBetweenResets | src/SocketUdp.c:96-100 | a ping fires as often as its repetitions went down, so at most three times between resets |
| UdpAccounts.StepSends | src/SocketUdp.c:26-30 | what each event adds to the log of sent messages: a ping, an acknowledgement, what the user says, or nothing |
| UdpDetection.CommLostGivesUpItsOwnSlot | src/SocketUdp.c:51-62 | a firing comm-lost gives up its own slot if and only if no earlier slot is for the same remote; otherwise an earlier one goes, and its own stays live with a comm-lost that is used up; either way one reconnect is owed, due in 5000 |
| UdpDetection.MessageResetsTheFirst | src/SocketUdp.c:135-137 | a message resets both tasks of the first slot for its sender, which is then armed, and of no other |
| UdpDetection.ArmedUnlessDisarmed | src/SocketUdp.c:51-143 | if every live slot has a comm-lost that is going to fire, this is so after an event if and only if the event is not the firing of the comm-lost of a slot behind another for its remote |
| UdpDetection.LiveSlotsStayArmed | src/SocketUdp.c:51-143 | the converse of timer ownership: in every state of a run every live slot has a comm-lost that is going to fire, if and only if no such firing is in the run |
| UdpTiming.OthersKeepWatch | src/SocketUdp.c:112-143 | no event about other remotes touches the slot or its tasks |
| UdpTiming.ResetStartsRhythm | src/SocketUdp.c:96-100 | any message but a goodbye sets the three pings to 1000, 2000 and 3000 from now, and comm-lost to 4000 |
| UdpTiming.CommUpStartsRhythm | src/SocketUdp.c:75-88 | so does a new slot for a remote that has none |
| UdpTiming.StartStartsRhythm | src/SocketUdp.c:106-110 | so does a start, for each remote it names once and finds room for |
| UdpTiming.ReconnectStartsRhythm | src/Socket.c:28-36 | so does a reconnect when it fires, and it is used up; with a full table it comes to nothing |
| UdpTiming.EventKeepsRhythm | src/SocketUdp.c:32-41 | until comm-lost is due every other event keeps those dates, up to the lateness of launches |
| UdpTiming.SilentPeerIsDetected | src/SocketUdp.c:51-73 | silent since t, launches at most P apart for any P: up before t + 4000, with no second slot; removed at some time up to t + 4000 + P; then without a slot, its one reconnect pending, until that fires not before 5000 and not after 5000 + P from the removal and starts the three pings and comm-lost anew, if there is room; at most three pings, and exactly three before the removal when the last cannot be 1000 late |
| UdpTiming.DuplicateIsLostWhileTalking | src/SocketUdp.c:106-110 | a run in which a remote with two slots loses the first one millisecond after it was heard, and keeps the second without a comm-lost that could fire |
| UdpTiming.SecondSlotExactlyOnConnect | src/SocketUdp.c:135-142 | an event gives a remote a second slot if and only if it connects to it again and there is room |
| UdpNetwork.NetStepKeepsOk | src/NetworkTask.c:41-44 | every step of the network, nodes joining and leaving included, keeps every node's ownership invariant |
| UdpNetwork.WireIsLogged | src/SocketUdp.c:11-24 | the wire gains, for each remote and text, exactly the copies that the node's handlers logged; a node that leaves sends a goodbye for each live slot |
| UdpNetwork.LogGrows | src/SocketUdp.c:11-24 | the log of a node that stays grows by what it sends in its own events, and by nothing in others |
| UdpNetwork.NetStepKeepsAttention | src/SocketUdp.c:26-73 | every step keeps: when the probes are used up, a promised probe is under way, or the promised answer that the peer's handler logged, and will reset the slot in time |
| UdpNetwork.AttentionLasts | src/SocketUdp.c:112-143 | in any run of any number of nodes, a watched peer's comm-lost does not fire |
| UdpNetwork.NoFalseFailure | src/SocketUdp.c:6-9 | with Late + 2D < 1000, two nodes of which each watches the other never lose each other, and less than 4000 passes between resets on either |
| UdpNetwork.HearingStartsAttention | src/SocketUdp.c:112-143 | any message from a peer that is there is enough to start watching it without failure, whether it resets the peer's slot or the peer is learned from it |
| UdpNetwork.OnceHeardNeverLost | src/SocketUdp.c:112-143 | so from the first message on, in any run, the peer is never lost and less than 4000 passes between resets |
| UdpNetwork.ConnectingStartsAttention | src/SocketUdp.c:106-110 | so is a state just after a connect: each remote of the list that is there is watched from then on |
| UdpNetwork.ReconnectingStartsAttention | src/Socket.c:28-36 | the step in which a reconnect fires brings it about, with all dates counted from the firing |
| UdpNetwork.JoiningNodeKeepsItsPeers | src/NetworkTask.c:22-25 | a node that joins with any list of remotes never loses one of them that is there |
| UdpNetwork.AwaitingLasts | src/SocketUdp.c:32-41 | less than 3000 after connecting to a peer that is not there yet, a node still has a ping left for it |
| UdpNetwork.NodesThatJoinStayInTouch | src/NetworkTask.c:22-57 | from a network without the two, such as the empty one: a joins, other things happen, b joins less than 3000 later, each among the remotes of the other; then no run makes them lose each other |
| UdpNetwork.TwoNodesFromNothing | src/NetworkTask.c:22-57 | in particular two nodes that join the empty network and connect to each other never lose each other, whoever else comes and goes |
| UdpNetwork.NoAckStorm | src/SocketUdp.c:132-133 | whatever is lost or repeated and whoever comes and goes, the acknowledgements that a node's handlers log equal in number the probe deliveries it handled, per peer |
| UdpNetwork.LogHoldsOneAckPerProbe | src/SocketUdp.c:132-133 | after any run the whole log of a node that stays, and whose user does not type that text, holds exactly as many more acknowledgements as probes were delivered to it |
| FdSets.ChosenAreTheSmallest | src/FDSet.c:34-40 | the selection is strictly ascending, made of ready descriptors, min(10, n) many, and passes one over only for ten smaller ones |
| FdSets.FDSet.Clear | src/Socket.c:40-41 | the cleared set |
| FdSets.FDSet.SetFd | src/FDSet.c:11-16 | fd_max stays one more than the largest member |
| FdSets.FDSet.SelectFdSet | src/FDSet.c:34-40 | the loop computes that selection |
| SocketTcp.FindPeerByFd | src/SocketTcp.c:32-38 | finds the first slot with the descriptor |
| SocketTcp.ConnectSocketTcp | src/SocketTcp.c:53-70 | a descriptor is opened and a slot filled for each remote until the table is full, and none after |
| SocketTcp.HandleCommUpTcp | src/SocketTcp.c:98-118 | accepts into a fresh slot that will not reconnect; with a full table accepts nothing |
| SocketTcp.HandleCommLostTcp | src/SocketTcp.c:120-127 | computes the loss of which HandleOwes and HandleActs speak: a reconnect for an outgoing peer, with the remote as it was before its port is cleared; then the slot goes |
| SocketTcp.HandleGracefulShutdownTcp | src/SocketTcp.c:129-134 | the slot goes, with no reconnect |
| SocketTcp.HandleMessageTcp | src/SocketTcp.c:72-96 | accept, error, end of stream or message |
| SocketTcp.HandleMessageDccp | src/SocketDccp.c:7-33 | the same table with the other rule for ends: nothing read is a loss, "q" a goodbye |
| SocketTcp.SelectFds | src/Socket.c:38-50 | the selection is made from the main descriptor and those of the live slots |
| TcpRuns.HandleKeepsInv | src/SocketTcp.c:72-134 | handling a watched descriptor never crashes and keeps descriptor ownership |
| TcpRuns.HandleActs | src/SocketTcp.c:72-134 | an end gives up exactly the slot of its descriptor, anything else from a peer changes no slot, and an accepted connection gets a slot behind all others while there are fewer than ten |
| TcpRuns.HandleOwes | src/Socket.c:232-242 | the loss of an outgoing TCP or DCCP connection adds one reconnect, to its remote and due in 5000, and nothing else adds any |
| TcpRuns.OthersUndisturbed | src/SocketTcp.c:72-134 | it leaves every other live slot and the way to it as they were |
| TcpRuns.SnapshotSlotStays | src/Socket.c:156-175 | while the loop accepts and closes, each descriptor still to come resolves to the slot it had when select returned |
| TcpRuns.SnapshotIsSafe | src/Socket.c:160-175 | so the loop never follows a null peer, whatever is ready and whatever the kernel has for it |
| TcpRuns.RoundIsSafe | src/Socket.c:38-50 | the same from select on, with at most ten descriptors a round |
| TcpRuns.HandleMessage | src/Socket.c:165-174 | dispatch by protocol |
| TcpRuns.ReceiveSocket | src/Socket.c:156-179 | the whole round on the socket object: every selected peer that failed or ended is given up, every other peer is as it was, a waiting connection has a slot if there is room, and the invariant is kept |
| TcpRuns.LoopHandlesAll | src/Socket.c:160-175 | the same of the loop over any snapshot of watched descriptors |
| TcpRuns.RoundIsRun | src/Socket.c:160-175 | a round is the run in which each selected descriptor is ready once, in order; so what holds of runs holds of rounds |
| TcpRuns.WatchedExactly | src/Socket.c:43-47 | what may be selected is the main descriptor and those of live slots |
| TcpRuns.FdOwnership | src/SocketTcp.c:53-70 | in every TCP and DCCP run nothing crashes, the open descriptors are exactly the main one and the live slots', all distinct, and none is open after cleaning up |
| TcpRuns.StepFlow | src/SocketTcp.c:98-134 | what each event takes from and gives to live peers and pending reconnects, per remote, for outgoing and for all |
| TcpRuns.TcpConservation | src/SocketTcp.c:120-134 | in every run live outgoing peers + pending reconnects = connects asked for - orderly ends - attempts without a slot, per remote and in all |
| TcpRuns.StepSpendsWeight | src/SocketTcp.c:98-134 | 3 * unused + 2 * live + pending falls with every comm-up, comm-lost, orderly end and reconnect |
| TcpRuns.TcpChurnIsBounded | src/Socket.h:9-14 | so no run has more than thirty of them |
| TcpRuns.DeadSlotsStayDead | src/SocketTcp.c:65-68 | a slot given up is not used again in any run |
| SocketCleanUp.CloseSlots | src/Socket.c:200-202 | the closing loop closes each live descriptor once |
| SocketCleanUp.CleanUpSocket | src/Socket.c:195-203 | afterwards nothing is open |
| SocketSctp.PeelOffAssoc | src/SocketSctp.c:94-108 | a peeled-off descriptor and the association get a fresh slot; with a full table nothing is peeled off |
| SocketSctp.RemoveAssocPeer | src/SocketSctp.c:128-132 | removes the association's slot; crashes when there is none |
| SocketSctp.HandleNotificationSctp | src/SocketSctp.c:145-172 | the five association states and the other notifications |
| SocketSctp.CrashesExactlyOnRefusedAssociation | src/SocketSctp.c:96-100 | with a correct kernel the socket crashes if and only if an association ends that found the table full |
| SocketSctp.ReconnectIsOwed | src/SocketSctp.c:115-118 | each failure adds one reconnect, to the address it was reported for and due in 5000; a reconnect that is made is used up; nothing else touches the tasks |
| SocketSctp.NotificationsAreTracked | src/SocketSctp.c:110-143 | over any notification run the live ids are those up and not down, pending + made reconnects are the failures seen, per remote and in all, descriptors are owned and all closed at the end |
| SocketUnix.HandleCommUpUnix | src/SocketUnix.c:6-17 | a fresh slot gets the path, if there is one |
| SocketUnix.ConnectSocketUnix | src/SocketUnix.c:49-53 | the loop is a comm-up for each address in order |
| SocketUnix.HandleMessageUnix | src/SocketUnix.c:55-82 | goodbye removes, an unknown sender is added |
| SocketUnix.ConnectArrives | src/SocketUnix.c:49-53 | connecting gives each path a slot while there is one, duplicates too |
| SocketUnix.PathsAreTracked | src/SocketUnix.c:19-31 | from any state and over any messages, duplicate and empty paths included, the socket crashes if and only if a goodbye comes from a sender out of touch; else the paths of its slots are, as a multiset, those in touch |
| SocketUnix.UnixSocketIsTracked | src/SocketUnix.c:49-82 | the same from a new socket that connects and then receives |
| Chat.StepRefines | src/Chat.c:24-45 | each fine step is an atomic exchange by the same thread or is not seen |
| Chat.ChatRefinesRegister | src/Chat.c:34-45 | every interleaving of any number of threads is a run of an atomic exchange register |
| Chat.ChatBuffer.ExchangeChatMessages | src/Chat.c:24-32 | old message out, new message or nothing in |
| Chat.IoTask | src/IoTask.c:15-33 | posts the lines up to and with the first "q", in order, and stops |
| ChatQuit.StepKeepsToken | src/NetworkTask.c:46-56 | every step of every thread keeps the token invariant |
| ChatQuit.QuitTokenIsNeverLost | src/NetworkTask.c:41-57 | once "q" is posted, always exactly one of: it is in the mailbox, or one network thread is between take and re-post; takes = re-posts + carriers; it is in the mailbox when all have left |
| ChatQuit.LeavingIsForGood | src/NetworkTask.c:53-54 | a thread that has posted "q" back, or ended, does not return |
| ChatQuit.AcquisitionsUseUpThreads | src/NetworkTask.c:46-56 | there are never more takes of "q" than threads that carry it or have left |
| ChatMessages.RepostFindsNothing | src/NetworkTask.c:53 | posting "q" back overwrites no message |
| ChatMessages.EachMessageAtMostOnce | src/IoTask.c:15-19 | the messages taken by all threads are a subsequence of those posted, and each posted one was taken once, overwritten by a later post, or is in the mailbox |
| ChatMessages.Release | src/Chat.c:40-42 | the thread with the mutex can always give it back |
| ChatMessages.Leave | src/NetworkTask.c:46-56 | a thread that carries "q", or any thread when the mailbox holds it, can run to its end |
| ChatMessages.QuitCanReachEveryone | src/NetworkTask.c:46-56 | from every state after "q" was posted there is a way for every thread to end |
| IpSockets.IpSocketsToSockaddrs | src/IPSocket.c:95-109 | the growing buffer is the records one after another, or the program ends because an address does not parse |
| IpSockets.LogAddrs | src/SctpGetAddrs.c:13-30 | the pointer walk visits what the stride of each record leads to |
| IpSockets.RecordReadsBack | src/IPSocket.c:29-93 | a record anywhere in a buffer decodes to its socket, and is as long as the decoded socket says |
| IpSockets.AddressArrayRoundTrip | src/SctpGetAddrs.c:18-27 | the walk over the packed buffer visits the sockets in order, the i-th at the sum of the sizes before it, and ends at the buffer's end |
| IpSockets.CanonicalIsSameAddress | src/IPSocket.c:48 | the address read back is the same one in printed form |
| IpSockets.RecordHasLayout | src/IPSocket.c:53-83 | byte by byte: family in host order, port in network order, address at 4 or 8, every other byte of the 16 or 28 zero |
| IpSockets.PackedBytes | src/IPSocket.c:95-109 | a list packs if and only if every address parses, and then each socket's bytes stand, so laid out, behind 16 or 28 for each before it |
| IpSockets.DecodeReadsLayout | src/IPSocket.c:29-51 | reading takes family, port and address from those places, whatever the other bytes are |
| IpSockets.CreatedSocketsPack | src/IPSocket.c:10-22 | a socket made from text has that text and port and the first family as which it parses; it can be packed if and only if the text is an IPv4 or IPv6 address |
| NetworkConfigurations.CreateNetworkConfiguration | src/NetworkConfiguration.c:40-76 | on every argv the loop ends, reads only indices below argc, computes the parse of which ParseInvertsRender speaks, and tells whether it wrote only within the arrays |
| NetworkConfigurations.StoresFitExactly | src/NetworkConfiguration.c:69-71 | on any argv it did if and only if neither list comes out longer than four |
| NetworkConfigurations.NamesSelectProtocols | src/NetworkConfiguration.c:20-38 | each of the six names, in any mixture of cases, selects its protocol, and every other text SCTP |
| NetworkConfigurations.AtoiReadsNumber | src/NetworkConfiguration.c:56-60 | blanks, a sign, digits and anything behind them read as the number with its sign |
| NetworkConfigurations.AtoiReadsNothing | src/NetworkConfiguration.c:56-60 | text without digits in that place reads as 0 |
| NetworkConfigurations.AtoiIsDecimal | src/NetworkConfiguration.c:56-60 | one more digit makes ten times the number and that digit |
| NetworkConfigurations.AtoiReadsBack | src/NetworkConfiguration.c:56-60 | a number written in digits reads back |
| NetworkConfigurations.ParseItem | src/NetworkConfiguration.c:47-73 | the parser takes exactly the words of one item off the line, with that item's effect |
| NetworkConfigurations.ParseInvertsRender | src/NetworkConfiguration.c:40-76 | parsing inverts rendering: the k-th local has the text, the port in sixteen bits and the family of the k-th pair before "-r", the remotes likewise after it; of each option the last value counts; unknown options are passed over |
| NetworkConfigurations.RenderedFits | src/NetworkConfiguration.c:61-72 | on a rendered command line it did if and only if at most four pairs stand before "-r" and at most four after it |

## Left out

- UdpTiming.SilentPeerIsDetected: starts from a slot that is the only one for its remote while no reconnect towards that remote is pending, which a caller can see in the state; that the slot stays the only one is then proved, not assumed.
- UdpNetwork.NoFalseFailure: as do the theorems that lead up to it, this speaks of remotes with one slot and no pending reconnect, for the reason given by UdpDetection.CommLostGivesUpItsOwnSlot; clocks of different speed are not modelled.
- TcpRuns.FdOwnership: in the runs of TCP, DCCP and SCTP a pending reconnect may fire at any time and not only when it is due, so the theorems about those runs hold for more runs than there are.
- UdpNetwork.NodesThatJoinStayInTouch: says nothing of a peer that joins 3000 or more after the node that connected to it, since by then all pings to it may be used up.
- ChatMessages.QuitCanReachEveryone: says that a way out always exists; that every thread takes it depends on the fairness of the operating system's scheduler, which is not modelled.
- NetworkConfigurations.CreateNetworkConfiguration: what memory holds after a store behind an array is not modelled; the lists then go on, and the method says that it happened.
- NetworkConfigurations.AtoiReadsNumber: integers are unbounded, so what atoi does on overflow of an int is not modelled.
- Chat.IoTask: the end of standard input ends the program in an error check, so a run that reads all lines without "q" just stops here.
- `src/SocketUnixForked.c`: processes, signals, shared memory and POSIX queues; its behaviour is decided by the kernel.
- `src/SocketConfiguration.c`, `src/SocketErrorChecks.c`, `src/SocketIO.c` and logging: options, errno and strings.
- The network thread as one loop: its launches, receives and takes are steps of the models above, in any order, which includes the order of `src/NetworkTask.c:41-57`; `compareTime` is not part of this model.
- `connectMultihomedSocket` and the SCTP connect and bind calls: one kernel call each after the packing that is modelled.
- `connectSocketSctp` changes nothing in the table: its effect arrives later as a notification.
- The lengths of C arrays (paths, addresses, message buffers), their terminators, and the reads past a small record that `ipSocketToSockaddrStorage` makes on the stack.
- The memory of task parameters, which the program never frees.
- The text form of addresses: parsing and printing stay abstract.

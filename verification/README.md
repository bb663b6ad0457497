# Verification of the gPTP daemon

This project models the state machines of the gPTP daemon (IEEE 802.1AS-2020) in Dafny and proves
what they promise: which clock a network follows, how time travels through it, and what the
software clocks show.

Each machine of the program is a loop over a state and a last state that rewrites shared records.
The model keeps that form twice. Functions give the effect of one pass, of a call, and of an event;
they are what the lemmas speak about. Classes hold the records in fields and arrays and update them
in place with the program's own loops and branches; every method is proved to have exactly the
effect of the corresponding function. A run is any sequence of events: announces, Syncs, timestamps
and timeouts in any order, at any time, with any content.

## What is proved

- `Priority`: priority vectors are compared by `memcmp` over their memory image; that is a total
  order, field by field, on little- and big-endian hosts.
- `BmcsState`, `PortSelection`, `PortInformation`: one time-aware system, the port state selection
  machine and the port announce information machine.
- `BmcsPerform`: the do-while over the two machines. It does not end from every state: an update
  that the port's machine will not make, on a port that nothing will select again, keeps it going
  for ever. It ends from exactly the other states, after at most three passes, and no run reaches a
  state from which it does not.
- `BmcsInvariants`: one invariant of the whole system over every run, and what follows from it: one
  slave port, states that follow from the ports' information, the current choice published.
- `PathTrace`, `LongPaths`: networks of any number of systems. Announces may be late, repeated, out
  of order, or delivered to any port. A path that is full at 179 entries is not extended but
  emptied, so every announce is paired with the route it came by, which is not. A path is the part
  of its route since it was last emptied; it repeats no system, and a system refuses an announce on
  account of its path exactly when the announce passed through it in that part. In networks of at
  most 179 systems that is all of the route, and no announce is accepted where it passed through. In
  larger ones announces do return: there is a run of 180 systems, from their initial states, in
  which one does. Attribute bits are only ever added to those sent: a port that announced a leap
  second of one grandmaster announces it of the next; the exact condition under which a port
  announces the attributes of its own grandmaster is proved.
- `Agreement`: networks in which nothing moves any more agree on the best clock, and stepsRemoved is
  the distance from it. Quiescence is what announces establish: every linked port holds what its
  neighbour keeps sending or announces itself, and nothing a neighbour may send is better than what
  the port holds. The identity of every system must have some field that is not zero, since the
  program takes an all-zero vector for none (`HAS_PORT_PRIORITY`).
- `Settling`: ports come to rest, and any two systems of different identity have a run from their
  initial states to such a network.
- `Ageing`: an announce heard is held over every run of a system for exactly its timeout interval,
  unless the system comes to announce its own choice on that port first; then the neighbour is gone.
- `TimeAwareSystem`: the two machines, announce reception and the do-while over arrays, in place.
- `AnnounceTransmit`: when a port announces. The dispatch loop does not end when the announce
  interval is shorter than the 25 ms slot that send times are rounded down to and the next time is
  already past; the exact condition is proved. When it ends, what it announces and leaves is proved
  exactly, and so is when the next announce follows.
- `AnnounceCodec`: announces on the wire, octet by octet and there and back. In AVNU mode an
  announce without a path is sent four octets short of the length its header gives, and the receiver
  reads those from whatever its buffer holds.
- `SyncPairing`: each Sync and Follow_Up passed up belong together, for every order of events. A
  Follow_Up that overtakes its Sync is matched with it, but the pair is not passed up: the result of
  the machine is looked at only when a Follow_Up arrives.
- `SyncSending`: what is due is sent. Follow_Ups sent go with the Sync sent last. Timestamps are
  taken whatever the state and the number of the Sync they are of, so a second one of a Sync is sent
  with the next; the exact condition under which a Follow_Up carries the timestamp of its own Sync
  is proved.
- `RateRatio`, `TimeTransport`: the grandmaster's time through any number of systems, with the
  program's rounding to whole nanoseconds and 2^-16 ns and its additive rate ratio.
- `SyncForwarding`: a Sync from the slave port crosses the system, and there is one source of time.
  A stored Sync that is overdue lets one in from any port; the exact condition is proved, with an
  instance that fails it.
- `AsCapable`, `PeerDelay`, `PeerDelayRequester`, `PeerDelayAnswers`, `PeerDelayCalls`,
  `PeerDelayRuns`: what every call of the requester does, which messages answer a request, when a
  neighbour counts as capable, how soon a silent one no longer does, and how the measured ratio and
  delay converge over runs of the requester. That a rate ratio is valid survives a link that goes
  down and the restart after it, although the ratio itself is set back to one: only a reset that
  ends capability, or ceases it, makes the ratio invalid.
- `ClockMirror`: what the software clocks show once they are set, and the shared memory that clients
  compute the time from. Client and daemon round differently: with a negative contribution of the
  rate that is not whole the client is one nanosecond behind. A clock whose time equals the
  hardware's loses its rate in the daemon but not in the client. A clock that comes to be adjusted
  in hardware with an offset of its own is put ahead by twice that: `ThisClockShows` states what the
  hardware is set to.

`dafny verify dfyconfig.toml` checks the whole project.

## Model

| member | source | states |
|---|---|---|
| Priority.SuperiorTotal | gptpcommon.c:73-88 | The order on priority vectors is total: of two vectors exactly one of equal, better and worse holds |
| Priority.SuperiorTransitive | gptpcommon.c:73-88 | Better than is transitive |
| Priority.NotWorseTransitive | gptpcommon.c:73-88 | At least as good as is transitive |
| Priority.FewerStepsBetter | gptpcommon.c:80 | For hop counts below 256 the vector with fewer steps removed is better, on either byte order of the host |
| Priority.NothingWorse | port_state_selection_sm.c:181-182 | No vector is worse than the one with all octets 0xFF |
| Priority.ImageOrder | gptpbasetypes.h:124-142 | memcmp over the packed 28 octets decides exactly this order, and is zero only for equal vectors, on either byte order |
| Priority.ComparePriorityVectors | gptpcommon.c:73-88 | The octet loop answers superior, inferior or same exactly as the order says |
| PortSelection.UpdtStatesTreeAt | port_state_selection_sm.c:169-317 | A selection gives each port the master vector of the new grandmaster and the state and update flag of that port alone; nothing else of the port changes |
| PortSelection.UpdtStatesTreeFrame | port_state_selection_sm.c:169-317 | A selection sets grandmaster, attributes, hop count and presence from the one best choice, port 0 from the other ports, and leaves the rest of the system alone |
| PortSelection.NoneIsZero | gptpcommon.h:70-77 | A vector counts as none exactly when it is zero apart from who sent it |
| PortSelection.PathIsOffered | port_state_selection_sm.c:178-190 | A port offers what it stores one hop further, and the worst vector when that is aged or none |
| PortSelection.ProcClearsReselect | port_state_selection_sm.c:399-422 | After a selection nothing asks for one and every port is selected |
| PortSelection.SelectRunCases | port_state_selection_sm.c:440-475 | A call of the selection machine selects exactly once when it was asked to or never has, and changes nothing otherwise |
| PortSelection.SelectRunAwake | port_state_selection_sm.c:440-475 | Whatever a call of the selection machine finds, it ends at rest with nothing asking for a selection |
| PortInformation.StepDecreases | port_announce_information_sm.c:364-416 | Every pass of the information machine's loop that does not end it lowers the measure, from every live state: one that handles a message has the message, as in every state that a call passes through |
| PortInformation.LoopFacts | port_announce_information_sm.c:355-418 | When the loop ends no transition is enabled, and unless it asked for a selection it kept the port selected as it was |
| PortInformation.RunFacts | port_announce_information_sm.c:355-418 | A call of the machine leaves an enabled port aged or current with no update it could make, and a port not enabled disabled |
| PortInformation.UpdatingLoop | port_announce_information_sm.c:192-246 | A selected port with an update due makes it, and after it handles a waiting announce at most |
| PortInformation.HearingReceives | port_announce_information_sm.c:70-114 | A waiting port with an announce classifies it against the vector it stores before anything else |
| PortInformation.SuperiorIsStored | port_announce_information_sm.c:273-309 | A superior announce becomes the port's information with its attributes, starts both timeouts and asks for a selection, whatever the intervals; the call then goes on as from a port that waits with it |
| PortInformation.TraceOnArrival | port_announce_receive_sm.c:70-106 | What arrival does to the path trace: nothing unless the announce qualifies on an enabled port; one without a path trace zeroes it, one on the slave port replaces it, extended or emptied |
| PortInformation.SuperiorTakesOver | port_announce_information_sm.c:273-309 | Unless a timeout interval is zero, at which information ages at once, that is the whole effect of a call that hears a superior announce, field by field |
| PortInformation.RepeatedOnlyRefreshes | port_announce_information_sm.c:311-325 | A repeated announce changes nothing but the announce timeout: the call goes on as without it, on the port with the timeout restarted |
| PortInformation.InferiorIsDropped | port_announce_information_sm.c:327-353 | An announce neither superior nor repeated is dropped; with quick update one from the very port whose announce is stored ages what is stored, and only such a one |
| PortInformation.UpdateIsMade | port_announce_information_sm.c:200-216 | A call that finds an update due makes the port announce the system's choice and raises newInfo, and does nothing else |
| PortInformation.PortIsDisabled | port_announce_information_sm.c:139-161 | A call that finds a port no longer enabled disables it, drops a waiting announce and asks for a selection |
| PortInformation.PortIsEnabled | port_announce_information_sm.c:163-190 | A call that finds a port enabled again ages it and asks for a selection |
| PortInformation.ReceivedAgesIff | port_announce_information_sm.c:226-246 | Information received ages exactly when the announce timeout, or with a grandmaster present the Sync timeout, has come: aged, a selection asked for, the system itself shown as grandmaster; otherwise a call changes nothing |
| PortInformation.IntervalDoubles | gptpcommon.h:43 | One more in a logarithmic interval doubles it, halving with rounding below a second |
| PortInformation.IntervalOfZero | gptpcommon.h:43 | The intervals of 0, 1 and -1 are one second, two and a half |
| Ageing.SuperiorHolds | port_announce_information_sm.c:273-303 | A superior announce heard at t0 is held with a timeout at t0 plus announceReceiptTimeout of its intervals, after the whole do-while |
| Ageing.RepeatedHolds | port_announce_information_sm.c:311-319 | A repeated announce moves that timeout to its own arrival plus the same interval |
| Ageing.InformationLasts | port_announce_information_sm.c:226-246 | Over every run of the system in which the port hears nothing more and its calls come before its timeouts, what it holds stays, with the same timeout, or gives way to the system's own choice; it never ages |
| Ageing.InformationEnds | port_announce_information_sm.c:226-246 | The first call from the announce timeout on ends it: the port announces the system's own choice, and a system that holds nothing elsewhere is its own grandmaster |
| Ageing.HeldForItsInterval | port_announce_information_sm.c:226-325 | The whole law: an announce heard at t0, superior or repeated, is held over every such run until t0 plus its interval, and the first call from then on ends that |
| BmcsPerform.PerformTerminatesIff | gptpman.c:197-205 | From a state at rest the do-while ends exactly when the state is not stuck, and then after at most three passes |
| BmcsPerform.StuckStatesDoNotTerminate | gptpman.c:197-205 | A concrete state at rest from which the do-while never ends |
| BmcsPerform.StuckStays | gptpman.c:197-205 | A stuck state is a fixed point of the loop body |
| BmcsPerform.BodyPending | gptpman.c:197-205 | A pass that finds an update due makes it, or has used up the waiting announce and left one due again |
| BmcsInvariants.IterateKeeps | port_announce_information_sm.c:355-418 | One pass of the information machine keeps the invariant of its port |
| BmcsInvariants.SelectKeeps | port_state_selection_sm.c:399-475 | A call of the selection machine keeps the invariant of the whole system and leaves nothing asking for a selection |
| BmcsInvariants.InfoKeeps | port_announce_information_sm.c:355-418 | A call of the information machine of any port keeps the invariant of the whole system |
| BmcsInvariants.ArrivalKeeps | port_announce_receive_sm.c:56-230 | The arrival of any announce keeps the invariant of the whole system |
| BmcsInvariants.NeverStuck | gptpman.c:197-205 | No state that satisfies the invariant is stuck |
| BmcsInvariants.PerformKeeps | gptpman.c:191-215 | The whole do-while keeps the invariant and leaves no announce waiting |
| BmcsInvariants.BestIsBest | port_state_selection_sm.c:188-227 | The loop over the ports ends with the best of the system's own vector and the eligible path vectors, and with the attributes of that very source |
| BmcsInvariants.SelectionChoosesBest | port_state_selection_sm.c:178-227 | The same of a whole selection: grandmaster and leap, UTC, traceability and time source come from one source, and none is better |
| BmcsInvariants.SelectionRoles | port_state_selection_sm.c:114-131 | After a selection at most one port is the slave, port 0 is exactly when none is, which is exactly when the system is its own grandmaster |
| BmcsInvariants.EveryRun | gptpman.c:331-488 | The invariant holds in every state of every run from initialisation, whatever announces arrive, ports come and go, and machines are called |
| BmcsInvariants.RunsHaveOneSlave | port_state_selection_sm.c:278-293 | In every run, once a selection was made: one slave port, port 0 exactly without another, exactly when grandmaster |
| BmcsInvariants.RunsAreCoherent | port_state_selection_sm.c:90-131 | In every run a port waits for selection, or its state and pending update follow from its information; reselect is the negation of selected |
| BmcsInvariants.RunsPublishTheChoice | port_state_selection_sm.c:107-113 | In every run a port announcing its own system has an update due or announces the current grandmaster at the current distance |
| BmcsInvariants.RunsTerminate | gptpman.c:197-205 | In every run the do-while ends, for every port and time |
| PathTrace.PathExtends | port_state_selection_sm.c:142-151 | Extending a path, or emptying it at MAX_PATH_TRACE_N entries, leaves the part of its route since it was last emptied |
| PathTrace.ExtendForeign | port_state_selection_sm.c:132-152 | Appending this system to a path that was announced and does not contain it gives the path of the route that goes on to it |
| PathTrace.TraceOnSelection | port_state_selection_sm.c:132-152 | A selection makes the path trace that of the port that becomes the slave, with this system added or emptied when full; leaves it while the same port stays the slave; and makes it this system alone when that is the grandmaster |
| PathTrace.NetStepKeeps | port_announce_receive_sm.c:70-106 | Every step of every network of systems keeps the invariant of all path traces, of all announces sent, and of the routes they came by |
| PathTrace.RouteIsAnnounced | port_announce_transmit_sm.c:85-98 | Each system on a route announced the route up to itself |
| PathTrace.RouteListsSystems | port_announce_transmit_sm.c:85-98 | A route, which is never emptied, lists exactly the systems its announce passed through |
| PathTrace.PathsAreLoopFree | port_state_selection_sm.c:132-152 | In every run of every network each path trace and each path sent is the part of its route since that was last emptied, repeats no system, has at most MAX_PATH_TRACE_N entries, and ends in its system unless it is empty |
| PathTrace.PathIsRoute | port_announce_transmit_sm.c:85-98 | Each entry of a path sent is a system that announced the path up to itself |
| PathTrace.PathListsRoute | port_announce_transmit_sm.c:85-98 | A path sent contains a system exactly when the announce passed through it since its path was last emptied |
| PathTrace.RefusedIff | port_announce_receive_sm.c:56-113 | In every run a system accepts an announce exactly when it is not its own, has fewer than 255 steps, and has not passed through it since its path was last emptied |
| PathTrace.ReturningAcceptedIff | port_announce_receive_sm.c:70-106 | An announce that passed through a system is accepted there exactly when it did so only before its path was emptied |
| PathTrace.NoAnnounceReturns | port_announce_receive_sm.c:56-113 | In every run of a network of at most MAX_PATH_TRACE_N systems every path is the whole route, and a system accepts an announce exactly when it is not its own, has fewer than 255 steps, and never passed through it |
| PathTrace.FullPathReturns | port_announce_receive_sm.c:96-105 | In larger networks announces do return: a system whose slave port receives a full path announces an empty one, and every system of the full path accepts that |
| LongPaths.AnnounceReturns | port_state_selection_sm.c:142-151 | A run of 180 systems in a line, from their initial states, that ends with an announce which passed through system 1 and which system 1 accepts |
| PathTrace.BitsAreKept | port_announce_transmit_sm.c:65-70 | Over every sequence of announces of a port each attribute bit once sent is sent for ever; UTC offset and time source are those of the last |
| PathTrace.AnnouncesOwnAttributes | port_announce_transmit_sm.c:61-99 | A port announces the attributes of its grandmaster exactly when it sent no bit before that these do not have; root, hop count, source and path are always the system's own |
| PathTrace.LeapIsKept | port_announce_transmit_sm.c:65 | For instance a leap second of one grandmaster goes on being announced under the next |
| Agreement.FollowedEnd | port_state_selection_sm.c:114-131 | In a quiescent network a slave port's neighbour has the same grandmaster and is exactly one hop closer to it |
| Agreement.LinkAgrees | port_announce_information_sm.c:92-111 | Neighbours in a quiescent network have the same grandmaster, and their distances differ by one hop at most |
| Agreement.Grandmaster | port_state_selection_sm.c:169-317 | Following slave ports leads, one hop closer each time, to a system that is its own grandmaster |
| Agreement.NetworkAgrees | port_state_selection_sm.c:169-317 | In a quiescent connected network all systems have one grandmaster, the one with the best identity of all, and only it has no slave port but port 0 |
| Agreement.StepsAreDistance | port_state_selection_sm.c:183-186 | In a quiescent connected network stepsRemoved is the length of a shortest walk from the grandmaster |
| Settling.PerformRests | gptpman.c:191-215 | The do-while brings every enabled port to rest, announced or received, with nothing left to select |
| Settling.HearingFollows | port_announce_information_sm.c:273-303 | A system that is its own grandmaster and hears a better one follows it in one call: the port is the slave, stores the announce, and the hop count is one more |
| Settling.PairSettles | gptpman.c:191-225 | For any two systems of different identity there is a run from their initial states to a network that is quiescent and connected, in which the worse follows the better: what the theorems assume comes about |
| TimeAwareSystem.TimeAware.constructor | mind.c:147-234 | A new system is in the state that all runs start from |
| TimeAwareSystem.TimeAware.UpdateStateDisabledTree | port_state_selection_sm.c:59-70 | Every state becomes disabled and the path trace is this system |
| TimeAwareSystem.TimeAware.ClearReselectTree | port_state_selection_sm.c:72-79 | Clears every reselect flag and nothing else |
| TimeAwareSystem.TimeAware.SetSelectedTree | port_state_selection_sm.c:81-88 | Sets every selected flag and nothing else |
| TimeAwareSystem.TimeAware.AssignPortState | port_state_selection_sm.c:90-131 | Gives one port the specified state and update flag and changes no other entry |
| TimeAwareSystem.TimeAware.PortStateUpdate | port_state_selection_sm.c:90-156 | The same with the path trace when the port becomes the slave |
| TimeAwareSystem.TimeAware.ChooseGm | port_state_selection_sm.c:190-227 | The loop over the ports leaves the specified best choice, with its attributes, in the system |
| TimeAwareSystem.TimeAware.ComputeMasterPriorities | port_state_selection_sm.c:240-254 | Every port's master vector, in place |
| TimeAwareSystem.TimeAware.AssignPortStates | port_state_selection_sm.c:255-273 | The states of ports 1 and up, in place and in port order |
| TimeAwareSystem.TimeAware.AssignPortZero | port_state_selection_sm.c:274-316 | Grandmaster presence, the state of port 0 and the path trace of a grandmaster |
| TimeAwareSystem.TimeAware.UpdtStatesTree | port_state_selection_sm.c:169-317 | The new state of the system is the specified selection, and the grandmaster's identity is returned exactly when it changed |
| TimeAwareSystem.TimeAware.PortStateSelectionSm | port_state_selection_sm.c:440-475 | The dispatch loop ends in the specified state, and returns the grandmaster's identity exactly when it changed |
| TimeAwareSystem.TimeAware.ReceiveProc | port_announce_information_sm.c:70-114 | The message vector and its classification, in place |
| TimeAwareSystem.TimeAware.SuperiorMasterPortProc | port_announce_information_sm.c:273-303 | The specified effect of a superior announce on port, flags and grandmaster identity, in place |
| TimeAwareSystem.TimeAware.InfoIterate | port_announce_information_sm.c:365-416 | One pass of the information machine has the specified effect on the whole system |
| TimeAwareSystem.TimeAware.PortAnnounceInformationSm | port_announce_information_sm.c:355-418 | The dispatch loop ends in the specified state of the whole system |
| TimeAwareSystem.TimeAware.QualifyAnnounce | port_announce_receive_sm.c:56-113 | The loop over the path qualifies an announce exactly as specified, and the path trace changes only as specified |
| TimeAwareSystem.TimeAware.RecvAnnounce | port_announce_receive_sm.c:115-230 | The arrival of an announce has the specified effect on the whole system |
| TimeAwareSystem.TimeAware.BmcsPerform | gptpman.c:197-205 | The do-while, from every state from which it ends, leaves the specified state |
| TimeAwareSystem.TimeAware.TransmitAnnounce | port_announce_transmit_sm.c:61-99 | An announce is composed exactly when the port may transmit, of the port's master vector, the hop count, the attributes and the path trace |
| TimeAwareSystem.TimeAware.OnAnnounce | gptpman.c:445-458 | The arrival of an announce is the corresponding step of a run, and keeps its invariant |
| TimeAwareSystem.TimeAware.OnTimeout | gptpman.c:217-225 | A periodic call is the corresponding step of a run, and keeps its invariant |
| AnnounceTransmit.CallTerminatesIff | port_announce_transmit_sm.c:202-244 | The dispatch loop ends except when it enters the idle state with an announce due at once |
| AnnounceTransmit.SlotIntervalsTerminate | port_announce_transmit_sm.c:144-153 | It always ends with intervals of 25 ms or more |
| AnnounceTransmit.ShortIntervalsStall | port_announce_transmit_sm.c:144-170 | With a shorter interval it does not end when called right after an announce at the start of a slot |
| AnnounceTransmit.AnnouncesMayTransmit | port_announce_transmit_sm.c:155-170 | An announce is handed back only when the port is a selected master with no update due |
| AnnounceTransmit.CallAnnounces | port_announce_transmit_sm.c:111-244 | Every call that ends hands an announce back exactly when the port is a settled master and there is news, its time has come or it starts; and this is the send time, interval, news and slowdown it leaves |
| AnnounceTransmit.NextAnnounce | port_announce_transmit_sm.c:127-170 | Over every run of calls a settled master with a capable neighbour and no news announces again at the first call from the time of the next call plus the interval, rounded down to 25 ms, on; and not before |
| AnnounceTransmit.AnnouncesApart | port_announce_transmit_sm.c:127-170 | So two announces are more than the interval less 25 ms apart, and at most the interval and two gaps between calls |
| AnnounceTransmit.Transmitter.Run | port_announce_transmit_sm.c:202-244 | The machine in place reaches the state of the pass that ends the loop, whenever there is one |
| SyncPairing.IterateDecreases | md_sync_receive_sm.c:300-337 | Every pass of the loop that does not end it lowers the measure, from every state |
| SyncPairing.SyncStep | md_sync_receive_sm.c:363-377 | What the arrival of a Sync amounts to: a wait, unless it is one-step or its Follow_Up came first |
| SyncPairing.FupStep | md_sync_receive_sm.c:379-389 | What the arrival of a Follow_Up amounts to: it completes a waiting Sync exactly when the sequence numbers agree |
| SyncPairing.PairIsLastSync | md_sync_receive_sm.c:195-272 | Over every order of events a pair passed up is the Follow_Up just received and the last Sync received, with equal sequence numbers and that Sync's reception time, passed up for the first time |
| SyncPairing.OncePerSync | md_sync_receive_sm.c:195-272 | Each Sync is passed up at most once, in the order received |
| SyncPairing.FollowedUpIff | md_sync_receive_sm.c:217-251 | A Sync followed in time by its Follow_Up is passed up unless a Follow_Up with its number was kept from before it |
| SyncPairing.OvertakenSyncIsLost | md_sync_receive_sm.c:217-251 | A concrete order of events in which both are used up and nothing is passed up |
| SyncPairing.SyncReceiver.Run | md_sync_receive_sm.c:300-337 | The dispatch loop in place reaches the specified state and hands back the specified pair |
| SyncPairing.SyncReceiver.RecvSync | md_sync_receive_sm.c:363-377 | The arrival of a Sync is the specified step, and what the machine hands back is not passed up |
| SyncPairing.SyncReceiver.RecvFup | md_sync_receive_sm.c:379-389 | The arrival of a Follow_Up is the specified step, and passes up what the machine hands back |
| SyncSending.CallSends | md_sync_send_sm.c:301-356 | A call sends nothing, a Sync with the number to come, or the Follow_Up of the Sync that waits for it |
| SyncSending.CallSendsWhatIsDue | md_sync_send_sm.c:213-263 | A call sends exactly what is due: the Follow_Up of a timestamped Sync, an MDSync given, or the Sync again when its timestamp is lost or it could not be sent; and this is the state it leaves |
| SyncSending.FollowUpOfLastSync | md_sync_send_sm.c:213-250 | Over every order of events a Follow_Up has the number of the last Sync sent and nothing was sent between them; it tells of the last MDSync given, its Sync's own unless a newer one came |
| SyncSending.FollowUpStamp | md_sync_send_sm.c:223-250 | The timestamp a Follow_Up carries was given by the network or by the software clock, and is that of its own Sync exactly when the last one given since is, or none was given since, none was pending when the Sync was sent (rcvdMDTimestampReceive was off) and the software clock gave one |
| SyncSending.StampLeftOver | md_sync_send_sm.c:395-408 | A concrete order of events in which a second timestamp of one Sync is sent in the Follow_Up of the next, since neither state nor number is checked when a timestamp is taken |
| SyncSending.SyncSender.Run | md_sync_send_sm.c:301-356 | The dispatch loop in place reaches the specified state with the specified message |
| RateRatio.SumNearProduct | port_sync_sync_receive_sm.c:92-98 | Adding neighbour rate ratios minus one stays within (1 + eps)^n - 1 - n eps of their product when each is within eps of one, for every n |
| RateRatio.GapIsReached | port_sync_sync_receive_sm.c:92-98 | That bound is reached by equal deviations |
| RateRatio.WireLoses | mdeth.c:140 | What the scaled rate offset on the wire loses is at most n units of 2^-41 after n hops |
| RateRatio.AccumulatedNearProduct | md_sync_receive_sm.c:88-92 | The ratio a system computes is within the sum of both bounds of the true one |
| RateRatio.RatioErrorBound | port_sync_sync_receive_sm.c:92-98 | The bound in closed form, growing with the number of hops |
| RateRatio.OffsetFits | mdeth.c:140 | The scaled offset fits 32 bits while the deviations add up to less than 2^-10 |
| TimeTransport.OriginCarry | md_sync_send_sm.c:143-150 | The grandmaster's one carry keeps the time sent equal to origin plus correction, and nanoseconds below 10^9 exactly for sums below two seconds, so for every correction below one |
| TimeTransport.GrandmasterTellsTime | md_sync_send_sm.c:127-130 | A grandmaster's Follow_Up tells its own time at the moment its Sync left |
| TimeTransport.Egress | md_sync_send_sm.c:132-136 | The correction sent is the correction received plus the residence in the grandmaster's time, rounded down by less than 2^-16 ns |
| TimeTransport.OneHop | md_sync_send_sm.c:112-172 | One more system adds to the error at most what its ratio costs over its residence, its link's error and 4 ns |
| TimeTransport.TimeIsTransported | md_sync_receive_sm.c:66-148 | After any number of systems the Follow_Up tells the grandmaster's time at the moment its Sync left, up to the accumulated error |
| TimeTransport.ErrorIsLinear | md_sync_send_sm.c:132-136 | The accumulated error is at most linear in the number of systems, the ratio's error apart |
| TimeTransport.SlaveLearnsTime | clock_slave_sync_sm.c:79-106 | A slave's syncReceiptTime is the grandmaster's time at reception up to the accumulated error, and syncReceiptLocalTime is its own reading then, rounded down |
| TimeTransport.AsymmetryIsAccounted | md_sync_receive_sm.c:140-147 | An asymmetry of the link puts the time the neighbour is taken to have sent that much earlier, and a slave adds the same to both its times |
| TimeTransport.SyncRecords.FillMDSyncReceive | md_sync_receive_sm.c:66-148 | The MDSyncReceive record filled in place is the specified one |
| TimeTransport.SyncRecords.FillPortSyncSync | port_sync_sync_receive_sm.c:87-101 | The PortSyncSync record filled in place has the ratio accumulated |
| TimeTransport.SyncRecords.FillMDSyncSend | port_sync_sync_send_sm.c:62-76 | The MDSyncSend record filled in place carries what was received |
| TimeTransport.SyncRecords.FollowUp | md_sync_send_sm.c:112-172 | The Follow_Up composed is the specified one |
| TimeTransport.SyncRecords.SendSyncIndication | clock_slave_sync_sm.c:79-106 | The receipt time in seconds and nanoseconds and the local time, in place |
| AsCapable.CapableIffEarned | md_pdelay_req_sm.c:236-286 | asCapable holds exactly when there was a good exchange and since then no over-threshold or invalid exchange, at most allowedFaults + 1 faults, at most allowedLostResponses resets between exchanges, no cease, restart or link down; a rate ratio is valid exactly when one was measured and no reset since ended or ceased capability; all in terms of the acts alone |
| AsCapable.RatioSurvivesRestart | md_pdelay_req_sm.c:188-214 | A ratio measured before the link went down still counts after the restart: an exchange that measures none then makes the port capable, which by itself it would not |
| AsCapable.ResetsCounted | md_pdelay_req_sm.c:236-286 | The lost response counter is the number of resets since the last exchange or start, up to allowedLostResponses |
| AsCapable.DoubleAnswersCounted | md_pdelay_req_sm.c:452-537 | The double answer counter is the number of double answers since the last exchange, forgetting or restart |
| AsCapable.ExchangeIsJudged | md_pdelay_req_sm.c:539-611 | The verdict on one exchange: in range it earns asCapable, above the threshold or without a ratio it ends it, below the minimum or from itself it is a fault, tolerated allowedFaults + 1 times running |
| AsCapable.ResetIsCounted | md_pdelay_req_sm.c:236-286 | One reset counts one lost response, and ends asCapable exactly when there is none left to lose or for double answers |
| PeerDelayRequester.IterateAccounted | md_pdelay_req_sm.c:623-696 | A pass of the requester changes the counters exactly as the acts it reports say |
| PeerDelayRequester.HistoryAccounts | md_pdelay_req_sm.c:623-782 | Over every order of events the counters are those of the history of acts |
| PeerDelayRequester.CapableIsEarned | md_pdelay_req_sm.c:539-611 | Over every order of events asCapable holds, and a rate ratio is valid, exactly when the exchanges and resets so far say so |
| PeerDelayAnswers.CallExchangesIff | md_pdelay_req_sm.c:363-537 | A call makes an exchange exactly when it finds the request answered: less than an interval old, with a response and a follow-up that pass the checks on identity and number, the timestamp there, and no second response |
| PeerDelayAnswers.ExchangeIsAnswer | md_pdelay_req_sm.c:363-537 | Over every order of events an exchange is made of messages that came since the last request and less than an interval after it: a response to it or an earlier one and a follow-up of its number, both from another system |
| PeerDelayAnswers.OverdueLapses | md_pdelay_req_sm.c:236-311 | The first call an interval or more after a request that is not answered counts it as lost, once, and attempts the next one unless the port is silent after double answers |
| PeerDelayAnswers.SilenceEndsCapability | md_pdelay_req_sm.c:236-286 | Once follow-ups fail to come, over every order of events: after allowedLostResponses + 1 further resets the port is not asCapable |
| PeerDelayAnswers.SilentNeighbour | md_pdelay_req_sm.c:236-286 | Over every run of requests sent and not answered, polled at any times in between, each counts one lost response, and the port stays asCapable exactly until they are more than allowedLostResponses |
| PeerDelayCalls.RespIsJudged | md_pdelay_req_sm.c:363-442 | What a call makes of a response: a reset when it is not from another system to this port or has a later number, nothing when it is of another domain, else it waits for the follow-up |
| PeerDelayCalls.FollowUpIsJudged | md_pdelay_req_sm.c:452-537 | What a call makes of a requester that waits for a follow-up: a counted reset for a second response, a reset for a follow-up of its own, an exchange for the right one, and else nothing |
| PeerDelayCalls.ResetWaits | md_pdelay_req_sm.c:236-311 | What a reset leaves, field by field, less than an interval after the request |
| PeerDelayCalls.Starts | md_pdelay_req_sm.c:188-214 | A port that is not enabled sends nothing; the first request after it is: random number, ratio one, nothing to measure since, and the counters start again when it is sent |
| PeerDelayCalls.StampIsAwaited | md_pdelay_req_sm.c:330-354 | A request without a timestamp waits for it as long as is allowed, then takes the software clock's, or is sent again with the same number |
| PeerDelayCalls.FirstStampIsAwaited | md_pdelay_req_sm.c:216-234 | The same of the first request |
| PeerDelayCalls.FailedIsRetried | md_pdelay_req_sm.c:313-328 | A request that could not be sent is sent at the next call, with the next number or as a first one |
| PeerDelayCalls.ExchangeLeaves | md_pdelay_req_sm.c:539-611 | What an exchange leaves, field by field, whatever is to be computed: ratio, delay, what is measured next, the verdict, and whether measuring goes on |
| PeerDelayCalls.NextIsSent | md_pdelay_req_sm.c:613-621 | After an exchange the next request is sent at the first call an interval after the last |
| PeerDelayCalls.ResetEnds | md_pdelay_req_sm.c:289-311 | After a reset too; but after too many double answers not before five minutes, and these are then forgotten |
| PeerDelayCalls.LinkGoesDown | md_pdelay_req_sm.c:158-186 | Once the link is down nothing is sent and the port is not asCapable; the first call after it is enabled again starts |
| PeerDelayRequester.Requester.InitialSendPdelayReqProc | md_pdelay_req_sm.c:188-214 | The first request and its resets, in place; nothing of asCapable is reset when sending fails |
| PeerDelayRequester.Requester.ResetProcedure | md_pdelay_req_sm.c:236-286 | The count of lost responses and the end of asCapable, in place |
| PeerDelayRequester.Requester.RespNext | md_pdelay_req_sm.c:363-442 | The checks of a response, in place; one with an earlier sequence number falls through |
| PeerDelayRequester.Requester.RespFollowUpNext | md_pdelay_req_sm.c:452-537 | The checks of a response follow-up, in place |
| PeerDelayRequester.Requester.UpdateRatio | md_pdelay_req_sm.c:91-130 | The rate ratio averaged with the measurement, in place |
| PeerDelayRequester.Requester.Judge | md_pdelay_req_sm.c:559-610 | The verdict on an exchange, in place |
| PeerDelayRequester.Requester.WaitingForPdelayIntervalTimerProc | md_pdelay_req_sm.c:539-611 | Measurement and verdict of an exchange, in place |
| PeerDelayRequester.Requester.Run | md_pdelay_req_sm.c:623-696 | The dispatch loop in place ends in the specified state, and says whether a request was sent |
| PeerDelayRequester.Requester.TxTs | md_pdelay_req_sm.c:730-749 | A timestamp is taken only for the request just sent |
| PeerDelayRequester.Requester.RecvResp | md_pdelay_req_sm.c:751-766 | The arrival of a response is the specified step; its reception time is stored after the machine ran |
| PeerDelayRequester.Requester.RecvRespFup | md_pdelay_req_sm.c:768-782 | The arrival of a response follow-up is the specified step |
| PeerDelay.SteadyLinkIsMeasured | md_pdelay_req_sm.c:104-117 | Two exchanges over a steady link an interval apart measure the neighbour's rate, whatever the offset and delay |
| PeerDelay.ErrorHalves | md_pdelay_req_sm.c:129 | After n exact measurements the error of the averaged ratio is 2^-n of its start |
| PeerDelay.ErrorShrinks | md_pdelay_req_sm.c:129 | With measurements off by at most delta, what remains besides is at most delta |
| PeerDelay.DelayError | md_pdelay_req_sm.c:145-146 | Over a symmetric link half the turnaround is the true delay plus half the ratio's error over the turnaround, for every clock offset |
| PeerDelay.DifferenceIsSigned | md_pdelay_req_sm.c:145-146 | Differences of 64-bit times are taken as signed, also across their wrap-around |
| PeerDelay.DelayComputed | md_pdelay_req_sm.c:133-156 | The computed delay is the true one up to that error and rounding when in range, and 0 exactly otherwise |
| PeerDelay.DelayConverges | md_pdelay_req_sm.c:91-156 | After n measurements of a constant rate the delay is off by at most 2^-n of the first ratio error over half the turnaround, and rounding |
| PeerDelayRuns.ExchangeMeasures | md_pdelay_req_sm.c:539-611 | Over every answered exchange, polled at any times in between, the requester averages in the ratio measured since the exchange before when both intervals are off by less than half, computes the delay with the average, and judges it |
| PeerDelayRuns.RequesterConverges | md_pdelay_req_sm.c:91-156 | Over every run with one exchange and n more over a steady link, whatever came before, the ratio is off by exactly 2^-n of what it was off by after the first, and the delay accordingly and by rounding, or 0 exactly when out of range |
| ClockMirror.ApplyKeeps | gptpclock.c:262-306 | Every setting of time, offset or rate of the master clock or thisClock keeps the mirror |
| ClockMirror.SetThisClockMirrors | gptpclock.c:933-998 | Choosing thisClock sets up the mirror exactly when its offset is moved or zero (adjusted in hardware), or what is not moved already agrees (adjusted in software) |
| ClockMirror.OthersLeaveMirror | gptpclock.c:262-306 | Setting any other clock leaves the mirror and both clocks it shows alone |
| ClockMirror.ThisClockShows | gptpclock.c:933-998 | What choosing thisClock leaves, and what the hardware is set to: an own offset that the clock had is added twice |
| ClockMirror.MoveKeepsOrigin | gptpclock.c:981-993 | Adjusted in software, moving the offset leaves origin timestamps as they were exactly when it does not switch the rate's contribution on or off |
| ClockMirror.ClientAgrees | gptpmasterclock.c:222-232 | The client's time against the origin timestamp of the same instant: equal without a rate, equal or one nanosecond less with an offset, and ahead by the rate's whole contribution without one |
| ClockMirror.ClientKeepsUp | gptpmasterclock.c:214-237 | Over every sequence of settings the client is the daemon's origin timestamp or one nanosecond less, while thisClock has an offset or no rate |
| ClockMirror.MasterPhaseMoves | gptpclock.c:517-539 | A phase given to the master clock moves origin timestamps and the clients' time by what it exceeds the old phase by, at every reading |
| ClockMirror.PhaseIsShown | gptpclock.c:517-539 | A clock adjusted in software shows the phase it is given ahead of the hardware, its rate's contribution apart; one adjusted in hardware is put ahead of what it shows by the phase and half the latency |
| ClockMirror.TimeIsShown | gptpclock.c:286-306 | A clock set to a time shows it at that reading, or the hardware is set to it |
| ClockMirror.SlewKeepsTime | gptpclock.c:561-577 | A change of rate puts the clock ahead by half the latency allowed for setting it, and so without that leaves the time of that instant as it was |
| ClockMirror.SlewStep | gptpclock.c:561-577 | After a change of rate the clock counts on from the same time at the new rate, unless it shows the very hardware time |
| ClockMirror.SlewRate | gptpclock.c:541-581 | A clock slewed by ppb gains that many nanoseconds in every second of hardware time |
| ClockMirror.SlewIntegrates | gptpclock.c:240-260 | Over every sequence of changes of rate the clock is continuous and the sum of what elapsed at each rate |
| ClockMirror.ClockStore.Read | gptpclock.c:240-260 | The time of a clock, or a failure for one that does not exist |
| ClockMirror.ClockStore.UpdateMirror | gptpclock.c:262-284 | The mirror takes over the offsets, in place |
| ClockMirror.ClockStore.SetTs | gptpclock.c:286-306 | The time of a clock set in place, and what the hardware clock is set to |
| ClockMirror.ClockStore.SetOffset | gptpclock.c:517-539 | The offset of a clock set in place, or a failure |
| ClockMirror.ClockStore.SetRate | gptpclock.c:541-581 | The rate of a clock set in place, or a failure |
| ClockMirror.ClockStore.ChooseThisClock | gptpclock.c:933-998 | thisClock chosen in place with what is moved to it, or a failure |
| SyncForwarding.SiteForwards | site_sync_sync_sm.c:102-145 | A call forwards exactly the Sync that arrives from the slave port; when the stored one is overdue, the one that arrives from anywhere or the stored one again |
| SyncForwarding.IngressIsSlave | site_sync_sync_sm.c:111-129 | The exact condition under which what is forwarded came from the slave port |
| SyncForwarding.OverdueLetsOthersIn | site_sync_sync_sm.c:111-129 | A concrete overdue state in which a Sync from a port that is not the slave is forwarded |
| SyncForwarding.TxSendsWhatItGets | port_sync_sync_send_sm.c:98-165 | A port sends only the Sync it was just given, and only as an enabled master |
| SyncForwarding.SendsIff | port_sync_sync_send_sm.c:98-181 | A port sends the Sync it is given exactly when it is an enabled master, the Sync came in elsewhere, and it has sent nothing, its last Sync is too old, or it is locked; not locked, when its interval is over and its last Sync is not too old |
| SyncForwarding.SendingIsRemembered | port_sync_sync_send_sm.c:111-181 | What it sent it remembers, and when, whether it is locked, and the count for a slowdown; what it does not send changes its state at most |
| SyncForwarding.SingleSource | gptpman.c:153-178 | While the stored Sync is not overdue, what is forwarded came from the one slave port (port 0 when grandmaster) and leaves on enabled master ports only, never on its ingress |
| SyncForwarding.SyncCrosses | gptpman.c:153-178 | A Sync from the one slave port is forwarded, and sent by every enabled master port that has sent nothing, whose last Sync is too old, or that is locked |
| SyncForwarding.RunsHaveASingleSource | site_sync_sync_sm.c:102-144 | In every state of every run of the best master clock machines after a selection, while the stored Sync is not overdue, what is forwarded came from the one slave port and leaves on enabled master ports only, never on its ingress |
| SyncForwarding.Forwarder.SiteSync | site_sync_sync_sm.c:148-208 | The site machine's loop in place reaches the specified state and hands back the specified Sync |
| SyncForwarding.Forwarder.TxSync | port_sync_sync_send_sm.c:188-259 | The machine of one port in place, no other port touched |
| SyncForwarding.Forwarder.ForAll | gptpman.c:153-178 | The loop over the ports gives every port from 1 on the specified call |
| AnnounceCodec.HeadRoundTrip | mdeth.c:27-64 | Every header with fields of their sizes comes back from its octets |
| AnnounceCodec.HeadRoundTripBack | mdeth.c:27-64 | Every 34 octets come back from the header they are read as |
| AnnounceCodec.FlagsRoundTrip | port_announce_transmit_sm.c:65-70 | The attribute bits of an announce are recorded as they were |
| AnnounceCodec.Layout | md_announce_send_sm.c:54-104 | Every octet of an announce up to its TLV, as section 10.6.3 of IEEE 802.1AS-2020 lays it out, and its length |
| AnnounceCodec.WhatIsReceived | md_announce_receive_sm.c:53-95 | Of any message something is recorded exactly when it is for this sdoId or any is accepted, and a TLV exactly when it says to be longer than 64 octets, with missing octets of the path all ones |
| AnnounceCodec.FieldsRoundTrip | md_announce_receive_sm.c:53-80 | Every field but the path comes back, whatever the rest of the reception buffer holds |
| AnnounceCodec.AnnounceRoundTrip | md_announce_send_sm.c:54-104 | The TLV and the exact path come back, for up to 179 identities and without a path outside AVNU mode |
| AnnounceCodec.AvnuEmptyPathIff | md_announce_send_sm.c:90-104 | In AVNU mode an announce without a path comes back exactly when the four octets left out happen to be in the receiver's buffer |
| AnnounceCodec.ArrivesAsSent | md_announce_receive_sm.c:53-95 | The announce that one system's machines send is the announce that another's receive |
| AnnounceCodec.WriteHead | mdeth.c:27-44 | The header written into the buffer is the specified one |
| AnnounceCodec.SendAnnounce | md_announce_send_sm.c:54-109 | The message written into the buffer, and how much of it is sent |
| AnnounceCodec.AnnounceReceiver.RecAnnounce | md_announce_receive_sm.c:53-95 | The announce recorded in place; a message without TLV leaves the last TLV, one for another sdoId is not accepted |

## Left out

- External port configuration, static slave ports, the initial slave time, asymmetry measurement mode, one-step Sync, and the test ports of forwarding: they are off in the baseline configuration, and branches that only they reach are dropped. `BEGIN`, `instanceEnable` and `systemIdentityChange` never change after initialisation and are dropped likewise.
- Double precision rounding: products and quotients of `double` values are exact reals; their conversions to integers are modelled.
- 64-bit overflow of time in the best master clock machines and shifts of logarithmic intervals by 32 bits or more: times and intervals are unbounded there. They are unbounded in the machine that pairs Sync and Follow_Up (SyncPairing) too. The peer delay requester, the Sync sending machine and the forwarding machines wrap at 64 bits.
- Overflow of the correction field and of the scaled rate offset: TimeTransport.TimeIsTransported assumes that neither occurs; RateRatio.OffsetFits says when the second cannot.
- Containers of the per-port records: a port's record is a value in an array that is overwritten in place, not an object of its own, so aliasing between records is not captured.
- The dispatch loop of announce reception, of the PortSyncSync receiver, of the clock slave and of the clock master machines: each is modelled by the effect of the state its call ends in.
- gmTimeBaseIndicator, lastGmFreqChange, lastGmPhaseChange, gmsync notices and the deferred setting of gmsync: they do not feed back into what is modelled.
- TimeAwareSystem.TimeAware.TransmitAnnounce and the networks of PathTrace take the attribute bits a port sent before as given; PathTrace.BitsAreKept says what they are.
- An announce without the path trace TLV overwrites the stored path trace with zeros: PathTrace is about announces that carry the TLV, and PortInformation models the other ones.
- TLVs longer than 179 identities: AnnounceCodec reads 1432 octets of path at most.
- Clocks of several domains on one hardware clock: ClockMirror is about one domain, and whether another domain already adjusts the hardware is an input. Re-pointing thisClock without moving its parameters and the adjustment of the master clock between domains are outside the mirror's invariant.
- ClockMirror.ClientAgrees: takes one reading of the hardware clock for both sides, and a client's time that is not before the epoch.
- A newer MDSync between a Sync and its timestamp replaces what the Follow_Up tells; SyncSending.FollowUpOfLastSync states when it is the Sync's own, not what the mixture amounts to for the time told.
- A peer delay request that cannot be composed for want of a network handle, and CONF_NEIGHBOR_PROP_DELAY other than 0.
- Equal sequence numbers for all four timestamps of a peer delay exchange: a response with an earlier number falls through in the program, and in the model.
- The capable transmit and receive machines, interval setting machines, the rate servo of clock_master_sync_receive_sm.c, sockets, IPC, logging, statistics and the Linux layer.
- TimeAwareSystem.TimeAware.UpdateStateDisabledTree: lastGmPriority is not in the record; the program sets it there and nothing modelled reads it.
- TimeTransport.SyncRecords.FillMDSyncReceive: the phase and frequency change fields and the source identity are not in the record.
- TimeTransport.SyncRecords.FillPortSyncSync: the receipt timeout and the parent's interval set there are not in the record; SyncForwarding has the timeout as a field of the Sync it is given.
- TimeTransport.SyncRecords.FillMDSyncSend: domain number, source identity and interval are not carried.
- TimeTransport.SyncRecords.FollowUp: domain number and phase change fields are not in the message.
- PortInformation.SuperiorTakesOver: is about intervals that are not zero; PortInformation.SuperiorIsStored says what happens with any.
- PeerDelayRuns.RequesterConverges: starts from a requester that waits for its next interval, and takes exchanges that are answered within one; PeerDelayRequester.HistoryAccounts is about every order of events.

# Wink, verified

Wink runs state machines as processes that exchange messages over UDP. This project models three layers of
it and proves what they promise over whole runs.

* **The reliable mailbox** (`AsyncMailbox`): `Mailboxes` holds the state under its locks and the class whose
  methods update it in place; `Network` composes any number of mailboxes with a network that loses, repeats
  and reorders datagrams. A run is any list of steps: a `Send`, one whole pass of `BackgroundSend`, the
  arrival of a datagram, the two later steps of the receiving thread, a `Receive`, a loss. The receiving
  thread has a program counter, because the acknowledgement leaves before the watermark is written.
  `NetworkInvariant` keeps one invariant over every step; `NetworkTheorems`, `Acknowledgements`,
  `Transmissions` (what is handed to the socket), `Deliveries` (what one pass, one arrival and one acknowledgement
  do, exactly), `Draining`, `Lockstep` and `Wrapping` draw the consequences.
* **The hierarchical state machine and supervisor** (`Machine`): `Machines` says what every operation does,
  re-entrant actions and receivers included; `MachineObjects` is the class that does it in place, each method
  proved equal to the operation. `MachineRuns`, `MachineTheorems`, `StartRuns`, `Actions`, `Schedules`,
  `Lifecycles`, `Finishing`, `Histories`, `Heartbeats`, `Quietness`, `Supervision`, `Children`, `Dispatching`,
  `Lineages` and `Fuel` hold the theorems.
* **The Turing sample**: `Tapes` (a vector that grows at both ends stands for an infinite tape), `Universal`
  (the states made of the quintuples, and the reference Turing machine), `UniversalRuns` and `Echoes` (the machine
  of the second layer simulates the reference, and exactly when), `UniversalObjects` (the set-up loops).

`Composition` puts the three on top of each other: the universal machine behind its mailbox, over the network,
computes what the Turing machine computes, and nothing else, in every run; `Progress` shows for every step of the
Turing machine a run that reaches it.

`Addresses`, `Frames` and `Text` are the codecs under all three: address text, datagram layout, words and
decimal numbers.

Actions and receivers of a machine are lists of commands; a closure of the program is one `Call`, which may
change the application's data and issue further commands. The recursion of a transition into the actions it
triggers, and along the lists of actions, is bounded by a `fuel` argument. Every theorem about a finished run
holds for every fuel, and `Fuel.StartMore` proves that a run that ends for any other reason ends the same way
under every larger bound. History fields (`sentAt`, `sent`, `acked`, `expired`, `transmissions`, `handed`,
`planned`, `due`, `trace`, `heard`, `pulses`, `stale`) record what happened and influence nothing.

## Results that are conditional in the code

* `Address::operator==` is true when the ports match, or the hosts, or the resolved hosts; the maps use
  `operator<`. An acknowledgement can therefore remove a message to somebody else. `AcksSoundIffSeparated`
  proves that acknowledged messages were heard by their destination in all runs if and only if the two
  identities agree on the addresses in use.
* The receiver acknowledges and drops a message that was overtaken by a later one. `AckedIsDeliveredIffStopAndWait`
  proves that acknowledged messages were delivered in all runs if and only if senders keep at most one
  message per destination outstanding.
* A frame whose number has the byte 10 on top and whose message is all newlines is rejected:
  `FrameRoundTripIff`.
* An address survives printing and reading exactly when its host is not empty and has neither a colon nor a
  space: `RoundTripIffPlain`. `CheckChildren` drops an overdue child exactly in that case:
  `BuryRemovesIffPlain`.
* Sequence numbers order messages as long as their 64-bit counter does not wrap. `InOrderIffNoWrap` proves that
  messages are delivered in order and at most once in all runs if and only if no destination is sent more than
  2^64 of them; with one more, `WrapBreaksTheOrder` is a run that delivers the last one first.
* A universal machine that is its own parent gets its own pulses back. In a program state no receiver has the key
  "pulsed", so the pulse is an unhandled message and stops the machine. `StepIsSimulated`, `RunIsSimulated` and
  `RequestIsComputed` prove that the simulation holds if and only if the machine is not its own parent or no pulse
  becomes due, and `AllRunsAreSimulated` that it holds at all clock readings if and only if the machine is not its
  own parent (or there is no step to make).
* A transition made by an exit action, or by the entry action of a state on the way to the target, runs while
  the lists of another transition are in use; the history field `stale` marks such a run. `ActionsNest` proves
  that every finished run nests its actions for every machine whose exit actions, and entry actions of states
  with children, make no transition. `RestlessBreaksTheOrder` is a machine outside that class whose actions do
  not nest. The condition goes one way only: it looks at the actions a machine has, not at what a run makes of
  them, and `RestoredKeepsTheOrder` is a machine outside the class that visits a child while it exits, comes
  back, and nests all the same.

## Where the documentation and the code differ

* `README.md:302` says an unacknowledged message is sent again after 10 seconds, up to 5 times. The code
  transmits five times in all, attempt k (counted from 0) not before 2k seconds, and gives up on the first
  pass after the fifth attempt, without waiting for an answer to it.
* `samples/turing/README.md:24` takes the state of the first quintuple as the initial state. The code takes
  the least state character; `FirstStateIff` says when the two are the same.

## Model

| member | source | states |
|---|---|---|
| NetworkInvariant.RunInv | src/async_mailbox.cpp:51-199 | the invariant of senders, links and datagrams holds after every list of steps of any number of mailboxes over a losing, repeating, reordering network |
| NetworkInvariant.NextKeepsInv | src/async_mailbox.cpp:51-199 | one step of any peer or of the network, in any state, keeps the invariant |
| NetworkInvariant.ArriveKeepsInv | src/async_mailbox.cpp:92-125 | the arrival of an acknowledgement or a message keeps it, whatever copies are still in the network |
| NetworkInvariant.SaveKeepsLink | src/async_mailbox.cpp:127-139 | comparing with and raising the watermark keeps a link ordered although the acknowledgement has already left |
| NetworkInvariant.PassKeepsSender | src/async_mailbox.cpp:164-199 | a pass keeps numbers, contents, schedule, order and conservation of a sender |
| NetworkTheorems.InOrderAtMostOnce | src/async_mailbox.cpp:51-68 | in every run the messages of a in b's incoming queue are, in order and each at most once, what a passed to Send for b, each message whole up to 65499 bytes and cut there, and trimmed of newlines |
| NetworkTheorems.TakenInOrder | src/async_mailbox.cpp:35-49 | the same for what the application has received so far |
| Deliveries.PassDecides | src/async_mailbox.cpp:173-195 | in any reachable state, what a pass does about a queued message: after five transmissions it is given up; otherwise it stays, and is transmitted once more exactly when 2 s for each transmission so far have passed since Send |
| Deliveries.NewerIsDelivered | src/async_mailbox.cpp:112-144 | in any reachable state an arriving message is acknowledged to its source in any case, and delivered, as it was framed, exactly when all delivered from that source before have smaller numbers |
| Deliveries.AckRemoves | src/async_mailbox.cpp:99-111 | in any reachable state, where the two identities of addresses agree, an arriving acknowledgement takes exactly the acknowledged message out of the queue |
| Deliveries.DeliveredAreLabelled | src/async_mailbox.cpp:77-144 | in every run what the application receives names the source it came from, by the text that prints it, and the peer itself as destination |
| NetworkTheorems.WatermarkIsLastDelivered | src/async_mailbox.cpp:127-144 | in every run the watermark is the number of the last message delivered, or the one in the receiving thread's hands |
| NetworkTheorems.NumbersAreInOrder | src/async_mailbox.cpp:57-65 | in every run the numbers issued per destination are 0, 1, 2, ... and the queue's are strictly increasing |
| NetworkTheorems.MessagesAreConserved | src/async_mailbox.cpp:102-198 | in every run each message sent is queued, acknowledged or given up, exactly one of the three and once |
| NetworkTheorems.RetriesAreOnSchedule | src/async_mailbox.cpp:172-198 | in every run the entry of a message is the message that was sent, its attempts are at most five and on schedule, and exactly five when it was given up |
| Transmissions.TransmissionsAreAttempts | src/async_mailbox.cpp:181-195 | in every run the transmissions of a message are, in number and clock readings, exactly the attempts of its queued, acknowledged or expired entry |
| Transmissions.TransmissionsAreOnSchedule | src/async_mailbox.cpp:173-195 | in every run a message is handed to the socket at most five times, the k-th time at least 2k seconds after Send, and not at all if it was never sent |
| Transmissions.GivenUpAfterFive | src/async_mailbox.cpp:174-179 | a message is given up only after five transmissions |
| Transmissions.NetworkIsLogged | src/async_mailbox.cpp:184-193 | whatever is in the network and is no acknowledgement was transmitted by a pass and is the frame of a message that was sent |
| Draining.SixLatePassesDrain | src/async_mailbox.cpp:164-199 | from any reachable state, any continuation without a new Send at a peer and with six late passes there leaves its queue empty, whatever else happens |
| Lockstep.TakenIsSent | src/async_mailbox.cpp:35-68 | if a peer sends to another only after its last message was taken, what was taken is exactly what was sent, but for the last one under way |
| NetworkTheorems.NoLateDelivery | src/async_mailbox.cpp:127-136 | once a message has been heard, no continuation of the run delivers it or an earlier one again; one that is in the receiving thread's hands at that moment is delivered once, next |
| NetworkTheorems.ThreeStepsReceive | src/async_mailbox.cpp:77-146 | the three steps of the receiving thread, taken together, are one call of BackgroundReceive |
| Acknowledgements.AcksSoundIffSeparated | include/Wink/address.h:63-78 | in all runs acknowledged messages were heard by their destination if and only if operator== separates the addresses in use as operator< does |
| Acknowledgements.AckedIsDeliveredIffStopAndWait | src/async_mailbox.cpp:99-139 | in all runs acknowledged messages were delivered if and only if at most one message per destination is outstanding |
| Acknowledgements.AckedIsDeliveredOnce | src/async_mailbox.cpp:99-144 | then an acknowledged message is in the delivered sequence exactly once, with its contents, or is in the receiving thread's hands and in the sequence not yet |
| Acknowledgements.WrongMessageAcked | src/async_mailbox.cpp:102-107 | a run in which an acknowledgement removes a message to another destination |
| Acknowledgements.OvertakenMessageAcked | src/async_mailbox.cpp:115-135 | a run in which an overtaken message is acknowledged and never delivered |
| Wrapping.InOrderIffNoWrap | src/async_mailbox.cpp:57-65 | in all runs with at most so many messages to a destination, counters wrapping as they may, delivery is in order and at most once if and only if that is at most 2^64 |
| Wrapping.WrapBreaksTheOrder | src/async_mailbox.cpp:127-136 | with one message more, a run in which the last message, number 0 again, is delivered before an early one |
| Mailboxes.AsyncMailbox.Send | src/async_mailbox.cpp:51-68 | appends one entry under the next number of its destination, 0 at first and after 2^64 - 1, multicasts to their own queue, and changes nothing else |
| Mailboxes.AsyncMailbox.Receive | src/async_mailbox.cpp:35-49 | takes the oldest delivered message, false exactly on an empty queue |
| Mailboxes.AsyncMailbox.Flushed | src/async_mailbox.cpp:70-75 | true exactly when both outgoing queues are empty |
| Mailboxes.AsyncMailbox.BackgroundSend | src/async_mailbox.cpp:164-199 | the loop that erases while iterating leaves and transmits exactly what the pass function says, entry by entry |
| Mailboxes.AsyncMailbox.FillSendBuffer | src/async_mailbox.cpp:184-189 | the two copies build the frame in the send buffer: its bytes from the eighth on are the message, whole up to 65499 bytes and cut there |
| Mailboxes.AsyncMailbox.BackgroundReceive | src/async_mailbox.cpp:77-146 | one datagram changes the mailbox and puts replies on the wire as the step relation says |
| Mailboxes.AsyncMailbox.TrimReceived | src/async_mailbox.cpp:84-86 | the loop finds the length without trailing newlines |
| Mailboxes.AsyncMailbox.AcknowledgeInPlace | src/async_mailbox.cpp:115-125 | writing three bytes over the receive buffer makes the acknowledgement frame of the same number |
| Mailboxes.AsyncMailbox.RemoveAcknowledged | src/async_mailbox.cpp:102-111 | the search removes the first entry with the number and a loosely equal address, or none |
| Mailboxes.AsyncMailbox.BackgroundSendMulticast | src/async_mailbox.cpp:201-213 | every queued multicast goes out once, unframed and in order, and the queue is empty |
| Mailboxes.AckIndex | src/async_mailbox.cpp:102-111 | the position of the first entry an acknowledgement names |
| Passes.PassConserves | src/async_mailbox.cpp:173-198 | a pass keeps or gives up every entry, none twice |
| Passes.RemovalConserves | src/async_mailbox.cpp:104-106 | an acknowledgement takes exactly one entry away |
| Passes.PassKeepsOrder | src/async_mailbox.cpp:173-198 | a pass keeps numbers per destination strictly increasing |
| Passes.WorkFalls | src/async_mailbox.cpp:27-33 | with the clock late every pass takes one unit of work from every entry, so the Flushed loops end |
| Passes.SixPassesDrain | src/async_mailbox.cpp:174-178 | six late passes empty any queue |
| Passes.NewMessageIsTriedFiveTimes | src/async_mailbox.cpp:174-195 | five do not: a new message is then still queued and has been tried once by each |
| Frames.FrameIs | src/async_mailbox.cpp:184-190 | byte by byte: the number, least significant byte first, then the message as far as 65507 bytes have room |
| Frames.CanonicalIs | src/async_mailbox.cpp:84-97 | a message of up to 65499 bytes crosses whole but for trailing newlines, a longer one as its first 65499 bytes |
| Frames.FrameRoundTrip | src/async_mailbox.cpp:84-97 | every frame parses back to its number and its message, whole up to 65499 bytes, cut there and trimmed of newlines; it is rejected exactly when nothing is left of the message and the number's top byte is 10 |
| Frames.FrameRoundTripIff | src/async_mailbox.cpp:84-90 | the frame of every message parses back, exactly for the numbers outside one band |
| Frames.AckRoundTrip | src/async_mailbox.cpp:116-121 | every acknowledgement frame parses to its number and "ack" |
| Addresses.BeforeOrdersEndpoints | include/Wink/address.h:63-68 | operator< is a strict order that identifies addresses with equal resolved host and port |
| Addresses.LooseEqualityIsCoarser | include/Wink/address.h:70-78 | operator== accepts whatever operator< identifies, and more: it rejects only addresses that differ in port, host and resolved host |
| Addresses.RoundTripIffPlain | src/address.cpp:40-64 | printing and reading gives an address back exactly for plain hosts, for every port |
| Addresses.PrintOfExtract | src/address.cpp:97-107 | reading and printing gives back the text of a plain address |
| Addresses.OthersDoNotRoundTrip | src/address.cpp:40-56 | for any other host the text never comes back |
| Addresses.PrintInjective | src/address.cpp:58-64 | distinct plain addresses have distinct texts |
| Addresses.ParseIs | src/address.cpp:40-56 | a host alone has port 0; before a colon stands the host, or nothing for 127.0.0.1; behind it a port cut to 16 bits, out of range from 2^64 on, invalid without digits |
| Addresses.KeyOfMade | src/address.cpp:8-12 | numeric hosts are known under themselves, others under what they resolve to |
| Addresses.AddressObject.FromString | src/address.cpp:40-56 | the object parsed in place, and what an exception leaves of it |
| Text.StoulIs | src/address.cpp:49-53 | every text splits into white space, a sign, digits and a rest, and its number is that of the digits: invalid without any, out of range from 2^64 on, modulo 2^64 behind a minus |
| Text.DecimalIs | src/address.cpp:104-107 | decimal notation digit by digit |
| Text.WordIs | src/machine.cpp:267-269 | a word is read from behind the white space before it up to the white space after it |
| Text.LessIs | include/Wink/address.h:63-68 | the order of strings is lexicographic |
| Text.StoulOfDecimal | src/address.cpp:49-53 | the decimal text of a number converts to the number |
| Lineages.StateLineage | src/machine.cpp:336-344 | the loop collects the chain to the root, or fails at an unregistered state, in every acyclic hierarchy |
| Lineages.PruneLineage | src/machine.cpp:346-360 | the erasing loop removes exactly the longest common part |
| Lineages.RouteIsSymmetricDifference | src/machine.cpp:126-137 | a transition exits exactly the ancestors-or-self of the source that are not those of the target, and enters the converse, each once |
| Lineages.RouteIsOrdered | src/machine.cpp:126-149 | exits run from the source upwards, entries downwards to the target, and what stays is the same on both sides |
| MachineRuns.TransitionEffect | src/machine.cpp:111-150 | a transition, whatever transitions its actions make, keeps the stack of entered states equal to the path to the current state, unless it is marked stale |
| MachineRuns.TransitionActions | src/machine.cpp:139-149 | the actions are all exits, then all entries, and what follows is exactly the run of the target's own entry action, or nothing when the target is not entered; for transitions not marked stale |
| Actions.ExitsInTurn | src/machine.cpp:139-142 | the result of the loop over the exit actions is that of noting each listed state and running its own exit action, one after the other in list order, and nothing else |
| Actions.EntriesInTurn | src/machine.cpp:146-149 | the same for the entry actions |
| Actions.TransitionInTurn | src/machine.cpp:126-149 | so every finished transition, stale or not, is the exit action of each state on the route, then the entry action of each; and nothing else |
| Actions.FinalExitsInTurn | src/machine.cpp:37-56 | and the end of every run is the exit action of each state on the lineage at the end of the loop |
| Actions.TransitionSays | src/machine.cpp:126-149 | with actions that only post, a transition adds exactly the posts of the exit actions on the route and then those of the entry actions, in order, and changes nothing else but the current state |
| Lifecycles.StartEnters | src/machine.cpp:28-36 | every finished run has begun by entering the states from the root down to the state it was told to start in, or else to the first one added |
| UniversalRuns.StartsInInitial | samples/turing/universal.cpp:95-131 | the universal machine, told so, enters Initial and nothing else before its loop |
| Lifecycles.PostAtIsKept | src/machine.cpp:157-160 | a scheduled message goes to the end of the queue, is posted by the first pass whose clock is past its time, after what was queued before it, and stays last until then |
| Lifecycles.ExitEnds | src/machine.cpp:89-93 | after Exit the script goes on and the loop makes no more turn |
| Lifecycles.ErrorIsTold | src/machine.cpp:95-101 | so after Error, whose text the parent is told before the exit |
| Lifecycles.ExitStops | src/machine.cpp:275-276 | the message exit, whatever its receiver does, stops the machine |
| Lifecycles.HandledRunsOn | src/machine.cpp:262-319 | any other message that is handled leaves running and the error text as they were, if neither its receiver nor an entry or exit action stops the machine |
| Lifecycles.StartRunsUntilExit | src/machine.cpp:14-56 | if every state catches every message and no action or receiver stops the machine, a finished run was running to its last turn if and only if no message given to it was exit, and has no error to report |
| Finishing.TransitionFinishes | src/machine.cpp:111-150 | with actions that only post, a transition from anywhere in the hierarchy to any state finishes |
| Finishing.StartFinishes | src/machine.cpp:14-87 | with scripts that only post and states that catch every message, every run finishes, whatever it is given: all that is said of finished runs applies |
| Finishing.StatelessStart | src/machine.cpp:14-87 | a machine without states sends its first and last messages and nothing else |
| MachineRuns.RunEffect | src/machine.cpp:89-160 | any action or receiver leaves the children, the machine's own messages and the queue's front alone, and keeps the stack unless it is marked stale |
| MachineRuns.DispatchEffect | src/machine.cpp:292-318 | with the current lineage registered the search for a receiver ends, and its receiver keeps the lineage registered, and the stack unless it is marked stale |
| StartRuns.LoopKeeps | src/machine.cpp:39-48 | after any number of turns the lineage is registered, children and own messages are as they must be, and so is the stack unless the run is marked stale |
| StartRuns.StartGuarantees | src/machine.cpp:14-87 | every finished run: children agree with the history; own messages are started, register, pulses, errored iff there is an error text, exited, unregister, one stop per child; and the stack is empty unless the run is marked stale |
| Histories.StartHears | src/machine.cpp:37-48 | every finished run has handled exactly the messages its mailbox gave it, up to the turn that ended it, which is no later than the first one given exit, with the obituaries of overdue children in their places, and has sent a pulse in exactly the turns whose clock reading is more than 10 s after that of the one before; states and receivers have no other influence |
| Heartbeats.PulsesAreFrequent | src/machine.cpp:42-45 | a machine whose turns come in time sends its pulses at most one interval and one turn apart |
| Heartbeats.LivingChildIsTracked | src/machine.cpp:202-237 | a child whose turns and deliveries are in time, with interval, gap and delay within the timeout, is tracked in every turn of its parent, as seen at its last message, and the parent hears no obituary of it |
| Fuel.StartMore | src/machine.cpp:14-150 | a run that ends for any reason but the bound on recursion ends the same way under every larger bound |
| StartRuns.StopIsForTheChild | src/machine.cpp:77-83 | the stop goes to port 42000 of the child's own host and names the child's port |
| StartRuns.FinalExits | src/machine.cpp:50-56 | the last loop exits everything that was entered, unless the run is marked stale |
| Quietness.ActionsNest | src/machine.cpp:111-150 | for machines whose exit actions and inner entry actions make no transition, every finished run nests its actions as a stack that ends empty |
| Quietness.TransitionFresh | src/machine.cpp:126-149 | such a machine never makes a transition while the lists of another are in use |
| Quietness.RestlessBreaksTheOrder | src/machine.cpp:144-149 | a machine outside that class that exits a state before it enters it |
| Quietness.RestoredKeepsTheOrder | src/machine.cpp:139-144 | a machine outside that class whose actions nest all the same |
| MachineTheorems.HandleKeeps | src/machine.cpp:262-319 | one message has exactly its effect on the table of children, whatever the receivers do |
| MachineTheorems.CheckChildrenExact | src/machine.cpp:202-237 | exactly the children seen within 60 s stay; the machine handles errored and exited for each other one, in key order, and nothing else |
| MachineTheorems.BuryRemovesIffPlain | src/machine.cpp:215-234 | an overdue child leaves the table exactly when its key's host is plain |
| MachineTheorems.OrderSorted | src/machine.cpp:204-208 | the iteration visits the keys in strictly increasing order |
| MachineTheorems.BuryIsTwoMessages | src/machine.cpp:211-235 | a mourned child: the machine is given "errored NAME heartbeat timeout" and then "exited NAME" as if from the child's address to its own |
| MachineTheorems.UnreadableKeyThrows | src/machine.cpp:215-220 | a child whose key does not read as an address makes CheckChildren throw when it is overdue, and the last loop of Start in any case; which keys those are, by an example family |
| Supervision.TrackedIffStarted | src/machine.cpp:271-290 | a child is tracked exactly when some started from it has no later exited |
| Supervision.TrackedSince | src/machine.cpp:277-290 | with the name of the earliest such started and the time of the latest pulsed since |
| Children.ChildLife | src/machine.cpp:271-290 | what a child says from start to exit, with others' messages in between and with or without an error, makes its parent track it under its name, as seen at its last pulse, and in the end not any more |
| Children.ReceiverSees | src/machine.cpp:282-302 | a catch-all receiver sees the whole message, an exact one what follows its key, for started the name on |
| Dispatching.NearestIs | src/machine.cpp:292-312 | the receiver is the nearest state's, the exact key before the empty one; none exactly when no state has either |
| Dispatching.HandledOrError | src/machine.cpp:292-318 | a message is an error exactly when no state of the lineage handles it and it is not exit; otherwise the nearest receiver is given sender, destination and the rest of the message, or the whole for a catch-all |
| Dispatching.QueueHoldsTheRest | src/machine.cpp:241-251 | after any list of schedulings and passes, which `StartSchedules` shows every run to be, the queue is, in order, what no later pass was late for |
| Dispatching.TakenArePosted | src/machine.cpp:244-246 | a pass posts only messages whose time is strictly past, in queue order |
| Dispatching.ScheduledAreConserved | src/machine.cpp:157-251 | in such a list every scheduled message is taken once or still queued, never both |
| Schedules.ScheduledPass | src/machine.cpp:241-251 | SendScheduled posts exactly the entries whose time is before now, each once and in queue order, leaves exactly the others in order, and changes nothing else |
| Schedules.TurnSends | src/machine.cpp:39-48 | a turn: the children, then the pulse if more than 10 s have passed since the last one, then what is due, then the message, if there is one, with its sender and destination |
| Schedules.LoopSchedules | src/machine.cpp:37-48 | whatever scripts and receivers schedule, the loop takes queue, schedulings and posts through a list of operations with one pass for each turn, at the clock reading of the turn |
| Schedules.StartSchedules | src/machine.cpp:14-251 | every finished run of Start: what was posted of the scheduled messages and what is still queued are together exactly what was scheduled, each once; the queue is, in order, what no later turn was late for; and nothing was posted before a turn's clock was past its time |
| MachineObjects.Machine.AddState | src/machine.cpp:103-109 | the first state becomes current, a taken name keeps its state |
| MachineObjects.Machine.PlanTransition | src/machine.cpp:120-137 | the two lineages, reversed and pruned, are the route |
| MachineObjects.Machine.MakeTransition | src/machine.cpp:111-150 | the method does what the transition function says, exceptions included; `TransitionInTurn` and `TransitionEffect` say what that is |
| MachineObjects.Machine.FindReceiver | src/machine.cpp:292-312 | the loop up the hierarchy ends and finds the nearest receiver |
| MachineObjects.Machine.HandleMessage | src/machine.cpp:262-319 | supervision, then dispatch, in place; `HandleKeeps`, `ExitStops`, `HandledRunsOn` and `HandledOrError` say what that is |
| MachineObjects.Machine.FindOverdue | src/machine.cpp:203-208 | the overdue keys in map order |
| MachineObjects.Machine.CheckChildren | src/machine.cpp:202-237 | both loops, in place |
| MachineObjects.Machine.SendScheduled | src/machine.cpp:241-251 | swapping the queue out and putting back what is not due, in place; `ScheduledPass` says what that is |
| MachineObjects.Machine.Loop | src/machine.cpp:37-48 | the loop, in place, for every sequence of clock readings and messages |
| MachineObjects.Machine.Start | src/machine.cpp:14-87 | a whole run, in place |
| MachineObjects.Machine.StopChildren | src/machine.cpp:76-83 | one stop per tracked child, in key order |
| Tapes.AssignIs | samples/turing/tape.cpp:11-17 | the cells are, in order and each once, exactly the characters of the text that are no white space, with the head on the first |
| Tapes.AssignPlain | samples/turing/tape.cpp:11-17 | so a text without white space is assigned as it is |
| Tapes.AssignConcat | samples/turing/tape.cpp:11-17 | two texts with white space between them are assigned one after the other |
| Tapes.MoveReads | samples/turing/tape.cpp:27-43 | after a move the head reads the neighbouring cell, or a blank where the vector ended, and the vector is as before but for that blank |
| Tapes.WriteComesBack | samples/turing/tape.cpp:25-43 | a symbol written is read again when the head comes back from either side |
| Tapes.WriteRefines | samples/turing/tape.cpp:23-25 | reading and writing agree with the infinite tape at the head |
| Tapes.MoveRefines | samples/turing/tape.cpp:27-43 | so does every move, growing at either end |
| Tapes.OpsRefine | samples/turing/tape.cpp:23-43 | over any sequence of writes and moves the head stays on the vector, reading agrees, and cells outside are blank |
| Tapes.AssignStandsFor | samples/turing/tape.cpp:11-17 | a non-empty assignment inscribes the text, as `AssignIs` describes it, with the head on its first symbol |
| Tapes.InscribedIs | samples/turing/tape.cpp:11-17 | a text without white space is on the infinite tape character by character from the head on, between blanks |
| TapeObjects.TapeObject.Assign | samples/turing/tape.cpp:11-17 | the loop over the stream, in place: for a text without white space the text itself, by `AssignPlain` |
| TapeObjects.TapeObject.Move | samples/turing/tape.cpp:27-43 | the move, in place; an unknown direction throws and changes nothing |
| Universal.StepIs | samples/turing/README.md:9-24 | the Turing machine: a step exactly when the state is not H and some quintuple applies, and then the first one's symbol where the head was and nowhere else, its state, and the head one cell to the left, to the right or in place |
| Universal.BuildTable | samples/turing/universal.cpp:38-56 | the loop groups the quintuples by state, in program order |
| UniversalObjects.BuildReceivers | samples/turing/universal.cpp:66-77 | emplace keeps the first receiver for a symbol |
| UniversalObjects.AddStates | samples/turing/universal.cpp:58-129 | the machine gets exactly the states of the program, Initial and H, a name the program has taken keeping its state; the first state is the least, null characters aside; the hierarchy is acyclic and quiet |
| UniversalRuns.ReceiverIsRule | samples/turing/universal.cpp:66-77 | the receiver for a symbol obeys the first quintuple for the state and symbol, and exists exactly when there is one |
| UniversalRuns.TransitionContinues | samples/turing/universal.cpp:79-129 | a transition posts the symbol under the head, or, into H, the tape to the requester and goes on to Initial from inside the entry action |
| UniversalRuns.TurnIsSimulated | samples/turing/universal.cpp:70-76 | one turn of the loop with the symbol as message, whoever the parent is: the machine makes the step of the Turing machine and posts exactly one message besides its pulse, or reports an unhandled message when there is no step |
| Echoes.StepIsSimulated | samples/turing/universal.cpp:70-76 | one turn with the machine's own pending message is the step of the Turing machine and leaves exactly the next symbol pending, if and only if the machine is not its own parent or no pulse is due |
| Echoes.RunIsSimulated | samples/turing/universal.cpp:58-129 | any number of such turns at given clock readings: machine and Turing machine agree on state, tape and the one pending message, one message was posted per symbol scanned and one answer on halting, if and only if the machine is not its own parent or no pulse becomes due |
| Echoes.AllRunsAreSimulated | samples/turing/universal.cpp:58-129 | this holds at all clock readings if and only if the machine is not its own parent, or there is no step to make |
| Echoes.RequestIsComputed | samples/turing/universal.cpp:95-129 | from a request to the answer, under the same exact condition: when the Turing machine halts, the requester has been sent one answer, its tape, nothing is pending, and the machine waits for the next request |
| Echoes.PulseStops | src/machine.cpp:292-318 | in a program state the machine's own pulse is an unhandled message and stops it |
| Composition.NetworkComputes | samples/turing/universal.cpp:58-129 | the machine behind its mailbox, over the losing, repeating, reordering network, at clock readings at which no pulse comes back to it: after every run it is where the Turing machine is after some number of steps, or stopped where that one has none |
| Composition.RequestIsComputedOverNetwork | samples/turing/universal.cpp:95-129 | the same from the request on, with the tape of the request |
| Composition.OneAnswerIsDelivered | samples/turing/universal.cpp:114-125 | in every such run the requester is delivered at most one message by the machine beyond what it was sent before, and that is, byte for byte up to 65499, the tape with which the Turing machine has halted |
| Composition.AnsweredAwaits | samples/turing/universal.cpp:121-125 | after its answer the machine and its mailbox are ready for the next request |
| Progress.EveryStepIsReached | samples/turing/universal.cpp:95-129 | from a network in which nothing was sent, for every number of steps the Turing machine makes there is a run that reaches exactly that step |
| Composition.HandIsPatient | src/async_mailbox.cpp:51-68 | the machine gives its mailbox a message to itself only when the one before was taken |
| UniversalRuns.FirstStateIff | samples/turing/universal.cpp:58-64 | the code starts in the first quintuple's state exactly when no quintuple has a smaller one |

## Left out

- Sockets, DNS and multicast membership: the network is abstract and name resolution is a function parameter, as are the clock readings and the process identifier. A send the socket refuses is the same as a loss.
- Reception of multicasts, which bypasses numbers and acknowledgements, and the classification of an address as multicast, which is an argument of `Send`.
- Mailboxes.AsyncMailbox.TrimReceived: stops at the first byte of a datagram of newlines only, where the code's loop reads before its buffer.
- The byte order of the host: frames are little-endian, as on the machines the program is built for.
- Mailboxes.AsyncMailbox.Send: wraps its counter modulo 2^64 as the code does, but the runs of `Network` have no step that would wrap (those of `Wrapping` do), and none that sends a message whose trimmed text is "ack", which the receiver cannot tell from an acknowledgement.
- Restarts of a peer, which reset its numbers while the other side keeps its watermark.
- Threads and condition variables: each block under a lock is one step; a wait that times out changes nothing.
- Destroying a mailbox: that its loop ends is `WorkFalls` and `SixLatePassesDrain`, under the assumption that the clock passes every deadline.
- Exceptions inside actions: a run that throws has no further state in the functions; the class leaves its fields as they were at that point and promises nothing about them.
- MachineRuns.TransitionEffect: says nothing about the stack for runs that make a transition from an exit action or from the entry action of a state on the way to the target, which the history field `stale` marks.
- MachineRuns.TransitionActions: says nothing about the actions of transitions so marked.
- MachineRuns.RunEffect: says nothing about the stack after scripts so marked.
- MachineRuns.DispatchEffect: says nothing about the stack after receivers so marked.
- StartRuns.LoopKeeps: says nothing about the stack in runs so marked; `ActionsNest` says which machines have none.
- StartRuns.StartGuarantees: says nothing about the stack in runs so marked; `ActionsNest` says which machines have none.
- StartRuns.FinalExits: says nothing about the stack in runs so marked.
- Hierarchies with a cycle of parents, on which the lineage loop would not end, and a state named "".
- A message handled while the current lineage is not registered, where the code's loop would not advance: the model calls it endless and `StartGuarantees` proves it unreachable.
- Calls of `SendAt` from other threads, `SendAfter`, and `Spawn`, which is one more posted message.
- Echoes.RunIsSimulated: the machine supervises nobody and has scheduled nothing; between the messages it may send pulses.
- The sign of `char`: states are ordered as unsigned bytes, so where `char` is signed and a state is a byte of 128 or above, the least state is another one.
- Echoes.StepIsSimulated: needs a well-formed program, that is, known directions, successor states that exist, no quintuple for H and no white space written; the splitting of the program text at semicolons is not modelled.
- Composition.NetworkComputes: nobody else sends to the machine while it computes, and the requester is not the machine itself, whose answer would be its next request; that every message arrives in the end is not promised, as the network may lose all five copies.
- Composition.RequestIsComputedOverNetwork: the request is given to the machine as its mailbox gives messages; how it came there is the business of `InOrderAtMostOnce`.
- Progress.EveryStepIsReached: speaks of step numbers below 2^64, as each step takes a sequence number; the answer is posted in the run it shows, not followed to the requester.
- The server's control of processes, the command-line client, help and log files, and the other samples.

# Open Diameter base protocol: verified model

This project models the logic of the Open Diameter base protocol library in Dafny and proves its protocol
properties. It covers the peer state machine of RFC 3588 section 5.6 with the election and the capabilities
exchange, the state-table engine with its timers, the weighted fair job scheduler, hop-by-hop routing, the
accounting client and both authorization session machines, and the session counter.

`dafny verify dfyconfig.toml` checks everything.

## How the model is built

Each component has a specification made of values and functions, and the form the library gives it: a class whose
methods update fields, arrays, maps or linked nodes with the library's own loops, proved against the
specification. The theorems are about the specification, over every input, every run or every reachable state.

| files | what they hold |
|---|---|
| `StateTable`, `TableFunctions`, `Timers` | the engine: rows, lookup, adds, timers by type; when a row list is a given transition function |
| `PeerTable`, `PeerModel`, `PeerMachine`, `PeerInvariants`, `PeerSends`, `PeerAnswers` | one peer: its table, the effect of every action, the class, what every event keeps, what it answers |
| `PeerAgreement`, `AgreementIds` | two peers connecting to each other, under every interleaving; the message ids they exchange |
| `Election`, `AvpContainers`, `Capabilities`, `CapabilityTheorems` | the election; the AVP lists, assembling, reading and validating a capabilities exchange |
| `WeightedQueue`, `QueueHistories`, `QueueJobs` | the weighted fair queue as a value, over runs with removals, and as the class over arrays |
| `JobScheduler`, `JobGroups`, `JobPolicies`, `JobCover`, `JobStranding`, `JobLoss` | the hierarchy of groups and peers and its class; what a policy does; event delivery; when no job is stranded and when one is |
| `Routing`, `RoutingChain`, `LinkedLists` | pending tables and retransmission; the chain as linked nodes, and what linking keeps a list |
| `MessageIds`, `SessionCounter` | ids of a peer's own messages; the two-part session counter |
| `AcctClient`, `AcctCycles`, `AcctSession` | the accounting client with its re-entrant event step; its interim records |
| `AuthTypes`, `AuthClient`, `AuthServer`, `AuthSessions`, `AuthSupervision` | the authorization sessions and how their timers relate |

A connection is a token that sits in a slot, in an event or among the closed ones. A timer is an entry of a map from
timer type to event and interval. A send is a message appended to an outbox. What the transport, the record
collector, the application or the clock answers is a parameter of the step that asks. Host names are sequences of
integers, so no result depends on the signedness of `char`.

In the two-peer system each peer has its own queue, served in order, while the wire between them delivers in any
order and may lose the news of a closed connection and what was sent on it. Its premises are different host names
without the octet 0x08, mutual acceptance of capabilities, and connects that succeed; stops and timeouts do not occur.

## Where the code and its documentation differ

- The election's comment asks for padding with zeros and for an assumed value of 0x80; the code pads with 0x08. The
  model pads with 0x08. `Election.PaddingCanLeaveNoWinner` shows two different hosts that both lose.
- The comment of `Enqueue` says only that larger weights are served more often. A weight above the maximum is clamped
  for choosing the data queue, to 3 and not to the maximum of the queue, and not for the comparison with the length of
  the data queue. `WeightedQueue.EnqueueKeepsValid` and `WeightedQueue.ClampedEnqueueKeepsValid` say exactly when that
  breaks the invariant. From an empty queue it takes one entry (`WeightedQueue.ClampingCrossesClasses`) or four
  (`WeightedQueue.ClampingOverfills`).
- The comments call the queue work conserving. A hierarchy of such queues is not always: a job can stay queued below
  an empty root. For a group under a group, take the least backlog at which it is put back by a service that removes at
  most one entry: its weight if some group inside it has such a backlog no larger than that weight, and one more
  otherwise. `JobStranding.NeverStrandsIffNested` shows that no run strands a job exactly if no group under a group
  weighs more than that number for any group inside it. It reads only the configured weights.
  `JobStranding.WorkCanBeStranded` is a hierarchy that fails it. The condition is exact for jobs that are stranded.
  Under it every event is delivered too (`JobStranding.EventsAreDelivered`), and `JobLoss.EventsCanBeLost` is a
  hierarchy that fails it and loses an event.
- Policies may be combined by adding their numbers, as the comment on the policy says, but only plain weighted fair
  queueing looks at weights; `JobPolicies.ServeByPolicy` and `JobPolicies.ScheduleByPolicy` state this.
- `Schedule` takes a reference before it compares the backlog with the weight and does not give it back when it
  refuses. `JobScheduler.ScheduleEffect` states this exactly.
- Symmetric validation of capabilities fails for a row with two application ids
  (`CapabilityTheorems.TwoIdsInARowAreAsymmetric`). `CapabilityTheorems.SymmetricWithEveryPeer` gives the exact
  condition on one configuration: it sends what it compares with, or offers the relay id.
- The supervision order of the session timers fails exactly when the server's grace period overflows 32 bits
  (`AuthSupervision.OverflowBreaksTheOrder`).
- `Add` of the routing chain checks nothing. A node that is already in the chain closes a cycle, and so does one whose
  own links lead back into it (`LinkedLists.AppendedTwice`); `RoutingChains.RoutingChain.Add` and
  `LinkedLists.AppendExtends` say exactly when the chain stays a finite list.
- An answer takes the oldest ids received, whichever request it is for. `MessageIds.AnswersInOrderOrStale` says exactly
  when these are the ids of its request; `AgreementIds.LoserOwesAnAnswer` shows that the election leaves the loser with
  the ids of a request it never answers.

Five places of the code are read as they are meant:

- cplusplus/include/framework.h:543 would never advance the iterator; the index queue keeps the first occurrences up to
  the length of the data queue and loses the rest.
- cplusplus/include/framework.h:484 writes `=+`; the number of removed entries is added up.
- cplusplus/libdiameter/src/aaa_peer_fsm.cxx:234 overwrites the responder with the connection of an event that carries
  none; the responder already accepted is kept.
- cplusplus/libdiameter/src/aaa_peer_fsm.cxx:217-218 resets to CLOSED and keeps the initiator; this is kept as written
  and is why CLOSED may hold an initiator.
- cplusplus/libdiameter/src/aaa_peer_fsm.cxx:68-82 also equates ids that are not set; the relation is kept as coded.

## Model

| member | source | states |
|---|---|---|
| PeerAgreement.NeverOpenApart | cplusplus/libdiameter/include/aaa_peer_fsm.h:285-396 | In every reachable state of two peers connecting to each other at once, under any interleaving, a side that is open is open on the connection the election loser initiated: the winner as responder, the loser as initiator |
| PeerAgreement.SettledMeansOpen | cplusplus/libdiameter/include/aaa_peer_fsm.h:285-396 | When nothing but news of closed connections is left to deliver or serve, both sides are open on that connection and hold no other (RFC 3588 section 5.6.4) |
| PeerAgreement.HigherNameAccepts | cplusplus/libdiameter/include/aaa_peer_fsm.h:285-396 | Which connection survives, in octets: the host with the higher name is open as the acceptor and the other as the initiator, on the connection the other initiated; once settled both are open |
| PeerAgreement.RunsAreShort | cplusplus/libdiameter/include/aaa_peer_fsm.h:285-396 | No interleaving of deliveries, losses and turns goes on for more than 16 steps, so every run settles |
| PeerAgreement.RunAgrees | cplusplus/libdiameter/src/aaa_peer_fsm.cxx:205-230 | The inductive invariant: which states winner and loser can be in together, what each holds, and exactly what is still to come; each step lowers the remaining distance |
| PeerAgreement.WinnerStep | cplusplus/libdiameter/src/aaa_peer_fsm.cxx:307-319 | Any event at the head of the winner's queue keeps the agreement and brings the end closer |
| PeerAgreement.LoserStep | cplusplus/libdiameter/src/aaa_peer_fsm.cxx:270-298 | Any event at the head of the loser's queue keeps the agreement and brings the end closer |
| PeerAgreement.DeliverStep | cplusplus/libdiameter/src/aaa_peer_table.cxx:51-70 | Delivering an ack, CER, CEA or disconnect notice raises the event the protocol expects and keeps the agreement |
| PeerAgreement.LoseStep | cplusplus/libdiameter/src/aaa_peer_table.cxx:178-204 | Losing news of a closed connection, or what was sent on it, keeps the agreement |
| PeerAgreement.CerCarries | cplusplus/libdiameter/src/aaa_peer_fsm.cxx:205-223 | What a side learns from the other's CER is the other's configuration, and it accepts it |
| PeerAgreement.ServeElectingCER | cplusplus/libdiameter/src/aaa_peer_fsm.cxx:205-223 | A valid CER after the own CER went out takes the responder slot and runs the election |
| PeerAgreement.ServeWin | cplusplus/libdiameter/src/aaa_peer_fsm.cxx:307-319 | A won election closes the initiated connection, answers on the accepted one and opens |
| AgreementIds.AnswersAreAccepted | cplusplus/libdiameter/src/aaa_peer_table.cxx:51-122 | In every reachable state of the two-peer exchange an answer in flight carries the ids its receiver has outstanding, so it is accepted whenever it arrives |
| AgreementIds.LoserOwesAnAnswer | cplusplus/libdiameter/src/aaa_peer_fsm.cxx:1404-1449 | The loser never answers the winner's CER: from its arrival on the loser's next answer would carry that CER's ids, before it zero ids |
| AgreementIds.RunKeepsBooks | cplusplus/libdiameter/src/aaa_peer_fsm.cxx:1404-1449 | Over every run the winner has the ids of the loser's CER queued exactly from its arrival to its answer, and the loser has them outstanding until the answer arrives |
| Election.Elect | cplusplus/libdiameter/src/aaa_peer_fsm.cxx:1093-1138 | The loop over the pairwise padded names gives the verdict on the endlessly padded names; equal names are SameHost |
| Election.HigherNameWins | cplusplus/libdiameter/src/aaa_peer_fsm.cxx:1110-1136 | For all names, a host wins exactly if its name is the higher one in octets: at the first difference its octet is larger, or, where one name has run out, what is left of the other first differs from 8 upwards (own) or downwards (the peer) |
| Election.LargerOctetWins | cplusplus/libdiameter/src/aaa_peer_fsm.cxx:1120-1136 | Names that first differ in an octet both have: the larger octet wins and the other host loses |
| Election.LongerNameWins | cplusplus/libdiameter/src/aaa_peer_fsm.cxx:1110-1136 | A name and its continuation: the longer one wins exactly if it goes on with an octet above 8, the shorter one if below |
| Election.ExactlyOneWinner | cplusplus/libdiameter/src/aaa_peer_fsm.cxx:1093-1138 | Two peers never both win, one wins exactly if the padded names differ, and SameHost means equal names |
| Election.WinningIsAStrictWeakOrder | cplusplus/libdiameter/src/aaa_peer_fsm.cxx:1093-1138 | Winning is irreflexive and transitive, and so is having no winner, over three or more hosts |
| Election.DistinctNamesElectSomeone | cplusplus/libdiameter/src/aaa_peer_fsm.cxx:1093-1138 | Different names without the octet 0x08 always have exactly one winner |
| Election.PaddingCanLeaveNoWinner | cplusplus/libdiameter/src/aaa_peer_fsm.cxx:1110-1116 | Two different names of which one is padded with 0x08 both lose |
| PeerInvariants.RunKeepsInv | cplusplus/libdiameter/include/aaa_peer_fsm.h:262-540 | Every run keeps connection ownership by state, the timers of each state, sends that name a connection, and well-formed events |
| PeerInvariants.ServeKeepsInv | cplusplus/libdiameter/include/aaa_peer_fsm.h:706-725 | Serving one queued event keeps that invariant, including resets from inside an action |
| PeerInvariants.ReactKeepsInv | cplusplus/include/framework.h:1281-1312 | A table step (state first, then the action) keeps it |
| PeerInvariants.ActionsFindTheirConnections | cplusplus/libdiameter/src/aaa_peer_fsm.cxx:85-495 | In every reachable state each action finds the payload it reads and each send finds a connection |
| PeerInvariants.RunConserves | cplusplus/libdiameter/src/aaa_peer_fsm.cxx:93-316 | Over every run a connection has exactly as many owners (slots, events, closed) as times it was delivered: none leaks, none is closed twice |
| PeerInvariants.ServeConserves | cplusplus/libdiameter/include/aaa_peer_fsm.h:706-725 | Serving keeps the owners of every connection and the order of the events still queued |
| PeerInvariants.EventsAreServedInOrder | cplusplus/libdiameter/include/aaa_peer_fsm.h:706-725 | Over every run the events served so far followed by the queue are the events raised, from outside and by actions, in the order raised |
| PeerInvariants.SendsFindAnOpenConnection | cplusplus/libdiameter/include/aaa_peer_fsm.h:586-605 | With each connection delivered at most once, in every reachable open state the connection the public send picks is present and not closed |
| PeerInvariants.SlotsAreLive | cplusplus/libdiameter/include/aaa_peer_fsm.h:586-605 | With each connection delivered at most once, a connection in a slot is not closed and the slots differ |
| PeerSends.RunSendsLive | cplusplus/libdiameter/src/aaa_peer_fsm.cxx:842-1091 | With each connection delivered at most once, no message of any run goes out on a connection that was closed before that message was sent |
| PeerSends.ApplySendsLive | cplusplus/libdiameter/src/aaa_peer_fsm.cxx:85-495 | Every action that sends finds the connection it sends on open at that moment, whatever it closed before |
| PeerInvariants.TimeoutsEndTransientStates | cplusplus/libdiameter/include/aaa_peer_fsm.h:285-540 | Every transient state has its timeout armed, and serving a timeout closes the machine and drops both connections |
| PeerInvariants.TableLeads | cplusplus/libdiameter/include/aaa_peer_fsm.h:262-540 | Between which states and on which events the table runs each action |
| PeerAnswers.CerIsAnswered | cplusplus/libdiameter/src/aaa_peer_fsm.cxx:93-119 | A CER to a closed peer is answered once, on its connection, with this side's capabilities and the code in the message: 5010 exactly without a common application, 5017 exactly with one but other in-band security, 2001 otherwise; the peer is open afterwards exactly with 2001 |
| PeerAnswers.NegotiationsAreAnswered | cplusplus/libdiameter/src/aaa_peer_fsm.cxx:246-262 | A CER over an open connection is answered on it with the code of the same three cases; the peer stays open |
| PeerAnswers.OpenCerIsAnswered | cplusplus/libdiameter/src/aaa_peer_fsm.cxx:390-403 | The same for the event at the head of the queue of an open peer |
| PeerAnswers.EarlyCerIsJudged | cplusplus/libdiameter/src/aaa_peer_fsm.cxx:149-166 | A CER while the own connect is pending waits for the election exactly if it deserves 2001; otherwise both connections are given up; nothing is sent |
| PeerAnswers.LateCerIsJudged | cplusplus/libdiameter/src/aaa_peer_fsm.cxx:205-223 | A CER after the own went out: what does not deserve 2001 closes the peer and leaves the own connection, the own name gives up both, and otherwise the win event is queued exactly if the own name is the higher one |
| PeerAnswers.SuccessfulCeaOpens | cplusplus/libdiameter/src/aaa_peer_fsm.cxx:175-203 | A CEA opens the peer, learns the capabilities and arms the watchdog exactly if its result is 2000 to 2999; otherwise everything is given up |
| PeerAnswers.LosersOpen | cplusplus/libdiameter/src/aaa_peer_fsm.cxx:270-298 | A successful CEA during the election opens the own connection and closes the accepted one |
| PeerAnswers.WinnersAnswer | cplusplus/libdiameter/src/aaa_peer_fsm.cxx:307-319 | A win, or the loss of the own connection during the election, is followed by one CEA with 2001 on the accepted connection, which is open |
| PeerAnswers.NackAnswersTheCer | cplusplus/libdiameter/src/aaa_peer_fsm.cxx:232-244 | A refused connect with a CER accepted meanwhile is followed by one CEA with 2001 on the accepted connection, which is open |
| PeerAnswers.ConnectionsAreIntroduced | cplusplus/libdiameter/src/aaa_peer_fsm.cxx:842-882 | A connect that succeeds is followed by one CER on it that decodes to this side's capabilities |
| PeerAnswers.WatchdogsAreAnswered | cplusplus/libdiameter/src/aaa_peer_table.cxx:72-174 | A watchdog request received in an open state is answered once, on the open connection, with 2001, and changes nothing else |
| PeerAnswers.DisconnectsAreAnswered | cplusplus/libdiameter/src/aaa_peer_table.cxx:72-174 | A disconnect request received in an open state is answered once, on the open connection, with 2001; then both connections, the timers and the capabilities are given up |
| PeerAnswers.FailedWatchdogsGiveUp | cplusplus/libdiameter/src/aaa_peer_fsm.cxx:357-377 | A watchdog answer changes nothing exactly if its result is 2000 to 2999; otherwise everything is given up |
| PeerAnswers.OnlyCeaIsWaitedFor | cplusplus/libdiameter/src/aaa_peer_table.cxx:72-86 | Anything but a CEA makes a peer that waits for one give up, ids accepted or not |
| PeerAnswers.UnexpectedMessagesDoNothing | cplusplus/libdiameter/src/aaa_peer_table.cxx:105-174 | Answers with unknown ids, requests in the wrong state and messages for the router leave the machine as it is |
| PeerAnswers.WatchdogsAreSent | cplusplus/libdiameter/src/aaa_peer_fsm.cxx:492-495 | The watchdog timer sends one request on the open connection and changes nothing else |
| PeerAnswers.StopsAreAnnounced | cplusplus/libdiameter/src/aaa_peer_fsm.cxx:405-423 | A stop of an open peer sends one disconnect request on the open connection and waits 30 seconds for the answer |
| PeerAnswers.DpaEndsClosing | cplusplus/libdiameter/src/aaa_peer_fsm.cxx:463-490 | The answer to it gives everything up and arms a retry exactly for a rebooting peer with attempts left |
| PeerAnswers.RebootingPeersComeBack | cplusplus/libdiameter/src/aaa_peer_table.cxx:44-49 | From the stop to its answer: a retry is armed exactly if the cause given to the stop was rebooting and attempts are left |
| PeerAnswers.LostPeersTryAgain | cplusplus/libdiameter/src/aaa_peer_fsm.cxx:1451-1465 | A lost connection gives everything up, sends nothing, and arms the retry after the configured interval while attempts are left |
| PeerAnswers.RetriesAreCounted | cplusplus/libdiameter/src/aaa_peer_fsm.cxx:1451-1465 | A peer whose connects all fail asks for exactly as many further connects as configured and then rests, closed with no timer |
| PeerAnswers.MessagesArePassedOn | cplusplus/libdiameter/include/aaa_peer_fsm.h:586-605 | A message to pass on goes out unchanged on the open connection; otherwise nothing happens |
| PeerTable.LookupIsTransition | cplusplus/libdiameter/include/aaa_peer_fsm.h:262-540 | The constructor never meets a duplicate row, and looking an event up in the list it builds is the transition function |
| PeerMachine.PeerStateMachine.Serve | cplusplus/libdiameter/include/aaa_peer_fsm.h:706-725 | Takes the first event, reacts, destroys what the event still owns: the new state is the specified one and valid |
| PeerMachine.PeerStateMachine.HandleEvent | cplusplus/include/framework.h:1281-1312 | Looks the event up in the real row list, changes the state, dispatches the action |
| PeerMachine.PeerStateMachine.Dispatch | cplusplus/libdiameter/src/aaa_peer_fsm.cxx:85-495 | Runs the action of a row with its specified effect |
| PeerMachine.PeerStateMachine.Cleanup | cplusplus/libdiameter/src/aaa_peer_fsm.cxx:1140-1202 | Resets to CLOSED: capabilities cleared, timers cancelled, connections closed, the initiator only unless kept |
| PeerMachine.PeerStateMachine.AcceptSendCEA | cplusplus/libdiameter/src/aaa_peer_fsm.cxx:93-119 | Takes the responder, learns the capabilities, answers, and opens or resets by the verdict |
| PeerMachine.PeerStateMachine.Accept | cplusplus/libdiameter/src/aaa_peer_fsm.cxx:149-166 | Keeps the accepted connection for the election, or resets when the peer is not acceptable |
| PeerMachine.PeerStateMachine.AcceptElect | cplusplus/libdiameter/src/aaa_peer_fsm.cxx:205-223 | Accepts and elects; a rejected peer resets the machine but keeps the initiator |
| PeerMachine.PeerStateMachine.Elect | cplusplus/libdiameter/src/aaa_peer_fsm.cxx:1093-1138 | A win queues the win event, the same host resets, a loss does nothing |
| PeerMachine.PeerStateMachine.OnCEA | cplusplus/libdiameter/src/aaa_peer_fsm.cxx:175-203 | A successful CEA opens with the watchdog, any other resets |
| PeerMachine.PeerStateMachine.WinByNack | cplusplus/libdiameter/src/aaa_peer_fsm.cxx:232-244 | Answers on the responder already accepted and opens |
| PeerMachine.PeerStateMachine.WinElection | cplusplus/libdiameter/src/aaa_peer_fsm.cxx:307-319 | Closes the initiated connection, answers on the accepted one and opens |
| PeerMachine.PeerStateMachine.DisconnectInitiatorOpen | cplusplus/libdiameter/src/aaa_peer_fsm.cxx:270-298 | Opens on the initiated connection and closes the accepted one, or resets |
| PeerMachine.PeerStateMachine.Renegotiate | cplusplus/libdiameter/src/aaa_peer_fsm.cxx:246-262 | Learns capabilities while open and answers with the verdict |
| PeerMachine.PeerStateMachine.Leave | cplusplus/libdiameter/src/aaa_peer_fsm.cxx:405-423 | Stops the watchdog, arms the timeout and sends a DPR |
| PeerMachine.PeerStateMachine.OnDPA | cplusplus/libdiameter/src/aaa_peer_fsm.cxx:463-490 | Resets, and reconnects when the peer is rebooting |
| PeerMachine.PeerStateMachine.AnswerDPR | cplusplus/libdiameter/src/aaa_peer_fsm.cxx:425-453 | Answers the DPR and resets |
| PeerMachine.PeerStateMachine.SendCEA | cplusplus/libdiameter/src/aaa_peer_fsm.cxx:884-946 | The answer goes out on the connection the state names, with the capabilities and the result |
| PeerMachine.PeerStateMachine.DoReConnect | cplusplus/libdiameter/src/aaa_peer_fsm.cxx:1451-1465 | Arms the retry timer while attempts are left, else starts counting afresh |
| PeerMachine.PeerStateMachine.Message | cplusplus/libdiameter/src/aaa_peer_table.cxx:72-174 | Classifies a received message by state, command and kind into the event it raises, or drops it |
| PeerMachine.PeerStateMachine.IncommingConnectionRequest | cplusplus/libdiameter/src/aaa_peer_table.cxx:51-58 | A CER on a new connection raises its event with the message and the connection |
| PeerMachine.PeerStateMachine.ConnectionRequestAccepted | cplusplus/libdiameter/src/aaa_peer_table.cxx:60-65 | An accepted connect raises its event with the connection |
| PeerMachine.PeerStateMachine.ConnectionRequestFailed | cplusplus/libdiameter/src/aaa_peer_table.cxx:67-70 | A failed connect raises its event, which carries no connection |
| PeerMachine.PeerStateMachine.Stop | cplusplus/libdiameter/src/aaa_peer_table.cxx:44-49 | Records the cause and raises the stop event |
| PeerMachine.PeerStateMachine.Start | cplusplus/libdiameter/src/aaa_peer_table.cxx:36-42 | Raises the start event and asks for a connection |
| PeerMachine.PeerStateMachine.Send | cplusplus/libdiameter/include/aaa_peer_fsm.h:586-605 | In an open state the message goes out on the connection of that state and the transport's result is returned; otherwise nothing is sent |
| StateTables.LookupIsByKey | cplusplus/include/framework.h:1125-1154 | Lookup returns the unique exact row if there is one, otherwise the state's unique wildcard, otherwise nothing |
| StateTables.LookupIgnoresOrder | cplusplus/include/framework.h:1125-1154 | Lookup does not depend on the order of the rows |
| StateTables.AddsKeepLookups | cplusplus/include/framework.h:1174-1198 | A later successful add never changes a lookup that already succeeded |
| StateTables.RowsAreUnique | cplusplus/include/framework.h:1174-1198 | Successful adds never leave two rows with the same state and event |
| StateTables.StateTable.FindStateTableEntry | cplusplus/include/framework.h:1125-1154 | The scan over the list finds what lookup specifies |
| StateTables.StateTable.FindWildcardEntry | cplusplus/include/framework.h:1156-1171 | The scan for a wildcard finds one exactly if the state has one |
| StateTables.StateTable.Add | cplusplus/include/framework.h:1174-1198 | Appends the row, or refuses it exactly if an entry was found |
| StateTables.StateTable.AddAll | cplusplus/include/framework.h:1174-1198 | A whole table is added exactly if every prefix accepts its next row |
| Timers.TimerQueue.ScheduleTimer | cplusplus/include/framework.h:1375-1388 | Afterwards the type has exactly the new timer and no other type changed |
| Timers.TimerQueue.CancelTimer | cplusplus/include/framework.h:1391-1405 | Afterwards the type has no timer and no other type changed |
| Timers.TimerQueue.CancelAllTimer | cplusplus/include/framework.h:1408-1414 | Afterwards nothing is armed, in the map or in the reactor |
| CapabilityTheorems.RoundTrip | cplusplus/libdiameter/src/aaa_peer_fsm.cxx:497-745 | Disassembling an assembled message returns every scalar, the three id lists in order, and the vendor rows normalised: auth wins over acct, rows with neither are dropped |
| CapabilityTheorems.MessageCarries | cplusplus/libdiameter/src/aaa_peer_fsm.cxx:497-620 | What stands under each AVP name of a CE message: the configured values, and 1 or 0 for in-band security with or without TLS |
| CapabilityTheorems.GroupCarries | cplusplus/libdiameter/src/aaa_peer_fsm.cxx:560-598 | Each vendor row is one group with the ids that are set, each under its own name |
| CapabilityTheorems.FieldsArrive | cplusplus/libdiameter/src/aaa_peer_fsm.cxx:622-745 | The other side reads every field as configured, and in-band security 1 exactly with TLS |
| CapabilityTheorems.RowsArrive | cplusplus/libdiameter/src/aaa_peer_fsm.cxx:700-745 | Rows arrive in order: with an auth id without the acct id, without one with it, and not at all with neither |
| CapabilityTheorems.AddressesArrive | cplusplus/libdiameter/src/aaa_peer_fsm.cxx:497-560 | The host address arrives first; over SCTP the advertised names that resolve follow, in order, and otherwise nothing does |
| CapabilityTheorems.ValidateMeaning | cplusplus/libdiameter/src/aaa_peer_fsm.cxx:1278-1402 | Acceptance means meeting in-band security and an application id matching between the local ids and the ids offered |
| CapabilityTheorems.VerdictCodes | cplusplus/libdiameter/src/aaa_peer_fsm.cxx:1278-1402 | 5010 exactly if no id the peer lists, in a list or in half a row, pairs with a local one by being equal or by one of the two being the relay id; else 5017 exactly if in-band security is not 1 with TLS and 0 without; else 2001 |
| CapabilityTheorems.MeetMeaning | cplusplus/libdiameter/src/aaa_peer_fsm.cxx:43-54 | Two sets of ids meet exactly if they share an id or one has the relay id and the other any |
| CapabilityTheorems.KnownLocallyMeaning | cplusplus/libdiameter/src/aaa_peer_fsm.cxx:43-83 | The three list searches together are membership in the local ids, the relay id and unset halves included |
| CapabilityTheorems.AcceptanceIsSymmetric | cplusplus/libdiameter/src/aaa_peer_fsm.cxx:1278-1402 | With one id in every configured row, A accepts B exactly if B accepts A, in-band security included |
| CapabilityTheorems.AcceptsMeaning | cplusplus/libdiameter/src/aaa_peer_fsm.cxx:1278-1402 | Between two configured peers: one accepts the other exactly if their security settings agree and some id the other sends matches one it compares with |
| CapabilityTheorems.OneSidedNeedsUnsentId | cplusplus/libdiameter/src/aaa_peer_fsm.cxx:600-618 | Only a configuration that does not send exactly the ids it compares with can make a pair one-sided |
| CapabilityTheorems.SymmetricWithEveryPeer | cplusplus/libdiameter/src/aaa_peer_fsm.cxx:1278-1402 | A configuration and its security setting are treated alike by every peer that sends what it compares with exactly if it does so itself or offers the relay id |
| CapabilityTheorems.TwoIdsInARowAreAsymmetric | cplusplus/libdiameter/src/aaa_peer_fsm.cxx:600-618 | A row with two ids gives peers of which only one accepts the other |
| CapabilityTheorems.UnrelatedVendorsAreAccepted | cplusplus/libdiameter/src/aaa_peer_fsm.cxx:68-82 | Unset halves match, so peers with nothing in common can accept each other |
| Capabilities.AssembleCE | cplusplus/libdiameter/src/aaa_peer_fsm.cxx:497-620 | Fills the message with exactly the specified containers, skipping empty ones |
| Capabilities.DisassembleCE | cplusplus/libdiameter/src/aaa_peer_fsm.cxx:622-745 | Reads exactly the specified capabilities from a message, and zero or nothing for what is missing |
| Capabilities.ValidatePeer | cplusplus/libdiameter/src/aaa_peer_fsm.cxx:1278-1402 | The verdict is the specified one for every capability set |
| Capabilities.FindInIds | cplusplus/libdiameter/src/aaa_peer_fsm.cxx:43-54 | The scan finds an id exactly if it matches some entry or the relay id is involved |
| Capabilities.FindInRows | cplusplus/libdiameter/src/aaa_peer_fsm.cxx:68-82 | The scan finds an id exactly if it matches a row, by the relation as coded |
| AvpContainers.AvpContainerList.Search | cplusplus/include/aaa_parser_api.h:397-405 | Finds the first container of a name, or nothing |
| AvpContainers.SearchIsFirst | cplusplus/include/aaa_parser_api.h:397-405 | What is found is the container of that name before which there is no other |
| AvpContainers.AvpContainerList.GetAvp | cplusplus/include/aaa_parser_api.h:774-781 | Reads an entry of the first container of a name, or nothing when the index is too large |
| WeightedQueue.WeightedFairness | cplusplus/include/framework.h:343-468 | While a class works off the index queue it had at the start, each flow is served exactly min(backlog, weight) times, whatever is enqueued or served elsewhere meanwhile |
| WeightedQueue.ServicesAreEntries | cplusplus/include/framework.h:439-455 | Each service of a flow hands out one entry of it |
| WeightedQueue.FlowsAreFifo | cplusplus/include/framework.h:376-455 | Within a flow entries leave in the order they came; none is lost or duplicated |
| WeightedQueue.IndexIsServedInOrder | cplusplus/include/framework.h:439-450 | A class serves its flows in the order of its index queue |
| WeightedQueue.RunKeepsValid | cplusplus/include/framework.h:343-468 | Every run keeps the invariant: each data queue stands min(size, weight) times in its class's index queue and nowhere else, and total is the sum of sizes |
| WeightedQueue.EnqueueKeepsValid | cplusplus/include/framework.h:343-394 | Wherever an entry lands, clamped or not, the invariant is kept exactly if the index queue gets the flow just when its data queue is below the weight of that flow, and then in its own class |
| WeightedQueue.ClampedEnqueueKeepsValid | cplusplus/include/framework.h:343-394 | In the caller's terms: kept exactly if the weight is at most the maximum, or the data queue it goes to is at least as long as the weight, or the maximum is 3 and that data queue is shorter than 3 |
| WeightedQueue.ClampingCrossesClasses | cplusplus/include/framework.h:522-533 | Two classes of weights up to 2: one entry of weight 3 put into the empty queue lands in the data queue of the other class and breaks the invariant |
| WeightedQueue.ClampingOverfills | cplusplus/include/framework.h:366-391 | One class of weights up to 3: of entries of any larger weight put into the empty queue exactly the fourth breaks the invariant |
| WeightedQueue.DequeueKeepsValid | cplusplus/include/framework.h:402-468 | Dequeue of a non-empty queue keeps the invariant and lowers total by one |
| WeightedQueue.BackloggedServes | cplusplus/include/framework.h:437-463 | There is something to serve exactly if total is positive, so the dequeue error is unreachable then |
| WeightedQueue.ServesBestPriority | cplusplus/include/framework.h:439-455 | The entry served comes from the best priority that has any entry |
| WeightedQueue.RemoveKeepsValid | cplusplus/include/framework.h:472-494 | Remove keeps the invariant and takes every matching entry out of every data queue |
| QueueHistories.RemoveKeepsOrder | cplusplus/include/framework.h:472-494 | A removed entry leaves those before and after it in their order, and a queue without it as it was |
| QueueHistories.HistoriesAreFifo | cplusplus/include/framework.h:376-494 | Over every run of enqueues, dequeues and removals, for each flow: the entries put in, in order, are those served, those removed and those waiting; served and waiting ones keep that order, and none is served before an older one that waits |
| QueueHistories.RemovedWereDropped | cplusplus/include/framework.h:472-494 | Only entries that a removal asked for are removed |
| QueueHistories.CallersGetTheirWeight | cplusplus/include/framework.h:343-468 | Fairness in the caller's terms: the entries of a priority and a weight are served min(backlog, weight) times while their class works off its index queue |
| QueueHistories.SmallerNumbersGoFirst | cplusplus/include/framework.h:437-463 | While an entry of a smaller priority number waits, none of a larger one is served |
| WeightedQueue.FirstOccurrencesStay | cplusplus/include/framework.h:535-547 | Adjusting keeps the occurrences of the flow that come first and drops the later ones; everything else stays where it stood |
| WeightedQueue.KeepFirstOccurrences | cplusplus/include/framework.h:535-547 | Adjusting an index queue leaves min(occurrences, size) of the flow and all of every other flow |
| QueueJobs.QueueJob.Create | cplusplus/include/framework.h:292-317 | A queue is made exactly if priorities and weights are not too many, and starts empty and valid |
| QueueJobs.QueueJob.Enqueue | cplusplus/include/framework.h:343-394 | Appends the entry to its data queue, the flow to its index queue while below its weight, and returns the total |
| QueueJobs.QueueJob.Dequeue | cplusplus/include/framework.h:402-468 | How a dequeue ends in every case; the error is left exactly for a signaled, non-blocking, empty queue |
| QueueJobs.QueueJob.ServeClass | cplusplus/include/framework.h:445-455 | Serves the head flow of a class and puts it back while it is backlogged beyond its weight |
| QueueJobs.QueueJob.Adjusted | cplusplus/include/framework.h:535-547 | The walk over the list keeps the first occurrences up to the size and erases the rest |
| QueueJobs.QueueJob.Remove | cplusplus/include/framework.h:472-494 | The two loops remove every matching entry and return how many there were |
| QueueJobs.QueueJob.Flush | cplusplus/include/framework.h:496-504 | Leaves the queue empty and valid |
| JobScheduler.ServeKeepsBalance | cplusplus/include/framework.h:732-760 | Serving conserves, for every job, references minus queued occurrences, whatever leaves report or raise |
| JobPolicies.ServeByPolicy | cplusplus/include/framework.h:803-820 | A served job leaves its group's queue exactly if it is left with a backlog below its weight under policy 1, and below 100000 under any other policy |
| JobPolicies.ScheduleByPolicy | cplusplus/include/framework.h:803-820 | Scheduling queues a job exactly if its backlog is at most its weight under policy 1, and at most 100000 under any other; otherwise only a reference is taken |
| JobPolicies.RootsCountNotifications | cplusplus/include/framework.h:702-760 | In a hierarchy without policy 1, over runs with fewer than 100000 notifications and quiet services, a root has exactly one entry for every notification below it that it has not served |
| JobScheduler.ScheduleEffect | cplusplus/include/framework.h:702-729 | Scheduling conserves that balance exactly if the backlog is at most the weight; otherwise it keeps one reference too many |
| JobScheduler.RemoveKeepsBalance | cplusplus/include/framework.h:693-699 | Removing a job drops as many references as occurrences and leaves none of them |
| JobScheduler.FlushKeepsBalance | cplusplus/include/framework.h:683-691 | Flushing a group empties it and conserves every balance |
| JobCover.ServeKeepsCover | cplusplus/include/framework.h:732-760 | With nested weights and leaves that report less than their weight, serving keeps every child group in its parent's queue at least as often as its own backlog |
| JobCover.RunKeepsSound | cplusplus/include/framework.h:702-760 | With nested weights every run of notifications and root services keeps every child group covered by its places in its parent's queue |
| JobCover.EventQueuesAreNeverEmpty | cplusplus/libdiameter/include/aaa_peer_fsm.h:706-710 | For any weights: in every state reachable from empty queues, and for every group, the service that walks down from it to a peer finds an event in that peer's queue |
| JobCover.PlacesAreEvents | cplusplus/libdiameter/include/aaa_peer_fsm.h:620-668 | For any weights: in every state reachable from empty queues a peer stands in a queue exactly as often as it has events |
| JobCover.RunKeepsLeaves | cplusplus/include/framework.h:702-760 | For any weights, over any run from any well-formed state: a peer never has fewer events than places, and with backed references the difference never changes |
| JobCover.WorkReachesTheRoot | cplusplus/include/framework.h:702-760 | Under cover, while any job stands in any queue the root of its hierarchy has something to serve |
| JobStranding.NeverStrandsIffNested | cplusplus/include/framework.h:702-760 | For every hierarchy in which every group has a child: no run from empty queues leaves a job queued below an empty root exactly if the weights are nested, that is, no group weighs more than the least backlog at which a group inside it is put back; exactly then every run keeps cover, and every step from any sound state does |
| JobStranding.HeavyStrands | cplusplus/include/framework.h:732-760 | A group above that weight is stranded by notifying one leaf and then serving one root until it is empty |
| JobStranding.ServePath | cplusplus/include/framework.h:732-760 | One service of a path of groups with equal backlogs: each loses the entry it serves and gets it back exactly if the next one is left with at least its weight |
| JobStranding.ServeShrinks | cplusplus/include/framework.h:732-760 | A service that raises nothing adds to no queue and takes at least one entry off the hierarchy if there was one to serve |
| JobScheduler.NotifyEffect | cplusplus/libdiameter/include/aaa_peer_fsm.h:620-668 | A notified peer gains one event and one occurrence, and nobody else's balance or excess changes |
| JobStranding.EventsAreDelivered | cplusplus/include/framework.h:732-760 | With nested weights, after any run from empty queues as many services of the root as there are entries, if they raise nothing, leave no peer below it with an event |
| JobStranding.EmptyRootMeansNoEvents | cplusplus/include/framework.h:732-760 | With nested weights, in every state reachable from empty queues, an empty root means no peer below it has an event |
| JobLoss.EventsCanBeLost | cplusplus/include/framework.h:732-760 | Weights that grow towards the root: after three notifications and three services the root is empty and a peer still has its event |
| JobStranding.WorkCanBeStranded | cplusplus/include/framework.h:732-760 | A group of weight 3 under the root with a group of weight 1 inside it is a hierarchy on which a run from empty queues strands a job |
| JobGroups.Jobs.Schedule | cplusplus/include/framework.h:702-729 | Takes a reference and queues the job, and this group in every group above it |
| JobGroups.Jobs.Serve | cplusplus/include/framework.h:732-760 | Serves the next job of a group and puts it back if it reports at least its weight |
| JobGroups.Jobs.Remove | cplusplus/include/framework.h:693-699 | Drops a job's entries and as many references |
| JobGroups.Jobs.Flush | cplusplus/include/framework.h:683-691 | Empties a group and releases what it held |
| JobGroups.Jobs.Release | cplusplus/include/framework.h:206-214 | Lowers the count and says whether the job is still alive |
| JobGroups.Jobs.ServeLeaf | cplusplus/libdiameter/include/aaa_peer_fsm.h:706-725 | Takes one event and raises further ones for the same peer |
| Routing.RunKeeps | cplusplus/libdiameter/include/aaa_route_framework.h:230-298 | Over any run every request issued is answered, dropped or pending, and only one of these, with its original id and source; an id is pending in at most one node |
| Routing.AnsweredAtMostOnce | cplusplus/libdiameter/include/aaa_route_framework.h:269-298 | No request is answered more often than it was issued |
| Routing.AnswerIsTranslated | cplusplus/libdiameter/include/aaa_route_framework.h:286-295 | An answer is taken by the one node holding its id, leaves with the original id for the original source, and its id is then unknown to the whole chain |
| Routing.UnknownIdChangesNothing | cplusplus/libdiameter/include/aaa_route_framework.h:269-298 | An answer with an unknown id changes no table and goes nowhere |
| Routing.DeletedAfterLastResend | cplusplus/libdiameter/include/aaa_route_framework.h:152-166 | An unanswered entry is deleted by exactly the matching pass after its last resend, and is counted until then |
| Routing.PassesAreIndependent | cplusplus/libdiameter/include/aaa_route_framework.h:208-217 | Retransmission passes treat every entry on its own |
| Routing.ResendsAreSpaced | cplusplus/libdiameter/include/aaa_route_framework.h:152-200 | Passes by age resend an entry only when it is due, that is, later than an interval after it was last resent, and at most as often as allowed |
| Routing.AgePassesActWhenDue | cplusplus/libdiameter/include/aaa_route_framework.h:180-189 | After any such passes the next one acts exactly if the entry is due: it resends it while attempts are left and deletes it otherwise |
| Routing.PeerPassesAreForThePeer | cplusplus/libdiameter/include/aaa_route_framework.h:191-201 | A pass for a peer resends or deletes exactly what was sent to that peer |
| Routing.PendingWasIssued | cplusplus/libdiameter/include/aaa_route_framework.h:230-268 | Every pending entry of every run holds the request it was issued for, with its id, source and destination |
| Routing.TakenIdsStay | cplusplus/libdiameter/include/aaa_route_framework.h:230-246 | An id that is taken keeps its entry |
| RoutingChains.RoutingChain.Add | cplusplus/libdiameter/include/aaa_route_framework.h:345-358 | Links the last node to the one given, whatever that is linked to; the chain is a finite list again exactly if the node starts a list that has no node in common with it, and is then that list appended |
| LinkedLists.AppendExtends | cplusplus/libdiameter/include/aaa_route_framework.h:345-358 | Of all sequences of nodes, the links after an append spell out exactly the old list followed by the list that starts at the new node and avoids it |
| LinkedLists.AppendedTwice | cplusplus/libdiameter/include/aaa_route_framework.h:345-358 | A node that is already in the list leaves no finite list: the walk from the head never ends |
| RoutingChains.RoutingChain.Remove | cplusplus/libdiameter/include/aaa_route_framework.h:369-390 | Deletes exactly that node from the list, or reports that it is not there |
| RoutingChains.RoutingChain.Lookup | cplusplus/libdiameter/include/aaa_route_framework.h:359-368 | Membership |
| RoutingChains.RoutingChain.Route | cplusplus/libdiameter/include/aaa_route_framework.h:340-344 | Ends with the verdict of the first node whose lookup does not defer; only the node that takes an answer changes |
| RoutingChains.RoutingChain.RouteFrom | cplusplus/libdiameter/include/aaa_route_framework.h:51-71 | The walk along the chain from a node on, when all before it deferred |
| RoutingChains.RoutingAnswers | cplusplus/libdiameter/include/aaa_route_framework.h:51-71 | Routing along delivery nodes is the answer step of the pending tables |
| RoutingChains.Node.Lookup | cplusplus/libdiameter/include/aaa_route_framework.h:269-298 | Takes a known answer out of the pending requests and restores its id, else defers |
| RoutingChains.Node.ReTransmitCheck | cplusplus/libdiameter/include/aaa_route_framework.h:208-217 | One pass over all entries resends or deletes exactly those that match |
| RoutingChains.Node.StoreRequestMessage | cplusplus/libdiameter/include/aaa_route_framework.h:260-268 | Stores the request with its pending entry, or reports that there is none |
| RoutingChains.Node.Add | cplusplus/libdiameter/include/aaa_route_framework.h:230-246 | Stores the pending request unless its id is taken |
| MessageIds.AnswersMatchRequests | cplusplus/libdiameter/src/aaa_peer_fsm.cxx:1416-1432 | The k-th answer sent while a request is queued carries both ids of the k-th request received |
| MessageIds.AnswersInOrderOrStale | cplusplus/libdiameter/src/aaa_peer_fsm.cxx:1416-1432 | Among requests with different ids an answer carries the ids of a request exactly if every request before it was answered first |
| MessageIds.AnswersBeyondRequests | cplusplus/libdiameter/src/aaa_peer_fsm.cxx:1416-1432 | There are never more such answers than requests, and with every request answered the next answer leaves with zero ids |
| MessageIds.QueuesInLockstep | cplusplus/libdiameter/src/aaa_peer_fsm.cxx:1404-1449 | The two id queues have the same length, and what was asked is what was answered followed by what is queued |
| MessageIds.AcceptedAtMostOncePerIssue | cplusplus/libdiameter/src/aaa_peer_fsm.cxx:1434-1449 | An answer is accepted at most once for each time its hop id was issued, an outstanding issue not counted |
| MessageIds.AcceptedIffOutstanding | cplusplus/libdiameter/src/aaa_peer_fsm.cxx:1434-1449 | Over every run an answer is accepted exactly if its hop id was issued after the last answer with that id, and its end id after the last answer with it that came under an outstanding hop id |
| MessageIds.PeerMessageIds.TxMessage | cplusplus/libdiameter/src/aaa_peer_fsm.cxx:1404-1432 | Stamps a request with fresh ids and an answer with the oldest queued ids, or zero |
| MessageIds.PeerMessageIds.RxMessage | cplusplus/libdiameter/src/aaa_peer_fsm.cxx:1434-1449 | Queues a request's ids; an answer is accepted exactly if both ids are outstanding |
| AcctClient.NestingIsBounded | cplusplus/libdiameter/src/aaa_session_acct_client_fsm.cxx:46-197 | Events nest two deep exactly when a request fails, and one deep otherwise |
| AcctClient.FailureLeavesPendingIffMatching | cplusplus/libdiameter/src/aaa_session_acct_client_fsm.cxx:170-196 | After a failed request the session is outside every pending state exactly if storage holds a record just while replaying and the record is of the kind the event asks for |
| AcctClient.FailedIntervalRecord | cplusplus/libdiameter/include/aaa_session_acct_client_fsm.h:256-285 | After a failed start or interim record the session is open exactly if the record was stored or realtime is GRANT_AND_LOSE, else idle, with the timers each outcome leaves |
| AcctClient.InterimsGoOnIffStored | cplusplus/libdiameter/include/aaa_session_acct_client_fsm.h:244-363 | After a failed start or interim record that leaves the session open, some run without a stop generates another interim record exactly if the failed one was stored |
| AcctClient.OpenWithoutInterims | cplusplus/libdiameter/include/aaa_session_acct_client_fsm.h:339-363 | An open session without its interim timer ignores every run of events but a stop |
| AcctClient.FailedLastRecord | cplusplus/libdiameter/include/aaa_session_acct_client_fsm.h:475-489 | A failed event or stop record ends the session and is stored exactly if there is space |
| AcctClient.FailureIsReported | cplusplus/libdiameter/src/aaa_session_acct_client_fsm.cxx:170-197 | Every failed request is reported once, last, under the number its record was generated with |
| AcctClient.FailureUnfolds | cplusplus/libdiameter/include/aaa_session_fsm.h:62-97 | A failed request is the waiting session resolved by its own failure event |
| AcctCycles.InterimsAreNumbered | cplusplus/libdiameter/include/aaa_session_acct_client_fsm.h:113-131 | While records are delivered and answered, one interim record goes out for each interval, under consecutive numbers, for any number of intervals |
| AcctCycles.RequestIsOffered | cplusplus/libdiameter/src/aaa_session_acct_client_fsm.cxx:46-197 | A delivered request is one record under the next number of 32 bits, with no timer until the answer |
| AcctCycles.SuccessIsTaken | cplusplus/libdiameter/include/aaa_session_acct_client_fsm.h:113-131 | A success deletes a replayed record, or arms the interim timer for a start or interim record and no other, and opens or ends the session |
| AcctCycles.RefusalIsTaken | cplusplus/libdiameter/include/aaa_session_acct_client_fsm.h:133-190 | A refusal opens an interval session with the session timer alone or ends it, and deletes a refused record of a replay |
| AcctCycles.EarlyStopsAreStored | cplusplus/libdiameter/include/aaa_session_acct_client_fsm.h:145-160 | A stop while an interval record is unanswered stores a stop record and waits on |
| AcctClient.LookupIsTransition | cplusplus/libdiameter/include/aaa_session_acct_client_fsm.h:195-599 | The constructor never meets a duplicate row, and looking an event up in its list is the transition function |
| AcctSessions.AcctSession.Notify | cplusplus/libdiameter/include/aaa_session_fsm.h:62-97 | One event through the real table, re-entered from inside an action |
| AcctSessions.AcctSession.SendRecord | cplusplus/libdiameter/src/aaa_session_acct_client_fsm.cxx:46-197 | Generates the record, offers it, and turns a failure into the event its kind, storage and realtime ask for |
| AcctSessions.AcctSession.Store | cplusplus/libdiameter/include/aaa_session_acct_client_fsm.h:145-160 | Stores the record and arms the interim timer for interval records only |
| AcctSessions.AcctSession.OnSuccess | cplusplus/libdiameter/include/aaa_session_acct_client_fsm.h:113-131 | Deletes a replayed record or arms the interim timer, and reports success |
| AuthClient.RunFits | cplusplus/libdiameter/include/aaa_session_auth_client_fsm.h:98-270 | Every run of a stateful client: open means both timers armed, idle and pending none, on the way out both or none |
| AuthClient.TimersEndOpenSessions | cplusplus/libdiameter/include/aaa_session_auth_client_fsm.h:530-580 | Either timer firing takes an open session out of the open state with no timer left |
| AuthClient.OnlyAnswersEndUnsupervised | cplusplus/libdiameter/include/aaa_session_auth_client_fsm.h:646-716 | A session on its way out without timers is ended by no timer of its own |
| AuthClient.OneRequestPerLeaving | cplusplus/libdiameter/include/aaa_session_auth_client_fsm.h:152-240 | Over every run the client asks for termination exactly once each time it starts leaving |
| AuthClient.AbortsAreAnswered | cplusplus/libdiameter/include/aaa_session_auth_client_fsm.h:222-248 | An abort request is answered with success and a termination request, or with a refusal |
| AuthClient.RefusalsAreReported | cplusplus/libdiameter/include/aaa_session_auth_client_fsm.h:152-168 | A refused grant asks for termination with the code of its reason |
| AuthClient.FailuresEndAtOnce | cplusplus/libdiameter/include/aaa_session_auth_client_fsm.h:261-270 | A failed access ends the session without asking for anything |
| AuthClient.OpenRequestsAreMet | cplusplus/libdiameter/include/aaa_session_auth_client_fsm.h:138-220 | An abort by the user and a reauthorization request of an open session |
| AuthClient.RunResetsLast | cplusplus/libdiameter/src/aaa_session_client.cxx:345-350 | Every run resets the client session at most once; the reset leaves it idle and stopped, and nothing is sent or reported after it |
| AuthClient.LookupIsTransition | cplusplus/libdiameter/include/aaa_session_auth_client_fsm.h:276-720 | The constructor never meets a duplicate row, and looking an event up in its list is the transition function |
| AuthServer.RunFits | cplusplus/libdiameter/include/aaa_session_auth_server_fsm.h:137-289 | Every run of a stateful server: open means both timers armed, idle none, and while aborting only the retry |
| AuthServer.TimersEndOpenSessions | cplusplus/libdiameter/include/aaa_session_auth_server_fsm.h:515-526 | Either timer firing ends an open session with no timer left |
| AuthServer.TerminationsAreAnswered | cplusplus/libdiameter/include/aaa_session_auth_server_fsm.h:198-221 | A termination request is answered exactly once in every state and ends the session |
| AuthServer.RunResetsLast | cplusplus/libdiameter/src/aaa_session_server.cxx:388-397 | Every run resets the server session at most once; the reset leaves it idle and stopped, and nothing is sent or reported after it |
| AuthServer.LookupIsTransition | cplusplus/libdiameter/include/aaa_session_auth_server_fsm.h:295-723 | The constructor never meets a duplicate row, and looking an event up in its list is the transition function |
| AuthSupervision.ClientExpiresFirst | cplusplus/libdiameter/include/aaa_session_auth_server_fsm.h:137-161 | With equal values and no 32-bit overflow the client's first timer precedes the server's exactly if the client was granted less than 5 seconds after the server |
| AuthSupervision.ClientGrants | cplusplus/libdiameter/include/aaa_session_auth_client_fsm.h:98-134 | After a grant the client's session timer runs for the session timeout and its authorization timer for lifetime plus grace, in 32 bits |
| AuthSupervision.ClientEndsByTheShorter | cplusplus/libdiameter/include/aaa_session_auth_client_fsm.h:179-210 | The first timer to fire ends the client's session as timed out if the session timeout is the shorter, and as no longer authorized if it is the longer |
| AuthSupervision.ServerGrants | cplusplus/libdiameter/include/aaa_session_auth_server_fsm.h:137-161 | The server's timers run 5 seconds longer each, in 32 bits |
| AuthSupervision.ServerEndsByTheShorter | cplusplus/libdiameter/include/aaa_session_auth_server_fsm.h:233-255 | The first timer to fire ends the server's session as timed out or as no longer authorized, likewise |
| AuthSupervision.EachClientTimerFirst | cplusplus/libdiameter/include/aaa_session_auth_server_fsm.h:137-161 | Without overflow each of the two timers of the client, not only the first, precedes the server's exactly if the client was granted less than 5 seconds later |
| AuthSupervision.StatelessClientTimesOut | cplusplus/libdiameter/include/aaa_session_auth_client_fsm.h:98-134 | A stateless client is timed exactly if there is a session timeout, and then ends by it |
| AuthSupervision.StatelessServerEnds | cplusplus/libdiameter/include/aaa_session_auth_server_fsm.h:96-134 | A stateless server that answered is timed 5 seconds longer than its client, or offered for reclamation every 60 seconds until it is reclaimed |
| AuthSupervision.AbortsAreRetried | cplusplus/libdiameter/src/aaa_session_auth_server_fsm.cxx:352-359 | An abort request is sent again at every firing of its timer, any number of times, until it goes out; then nothing is armed |
| AuthSupervision.OverflowBreaksTheOrder | cplusplus/libdiameter/include/aaa_session_auth_server_fsm.h:142-149 | With any overflow a client granted 4 seconds after the server is not the earlier one |
| AuthSessions.ClientSession.Notify | cplusplus/libdiameter/include/aaa_session_fsm.h:62-97 | One event through the client's real table with the specified effect |
| AuthSessions.ClientSession.GrantAccess | cplusplus/libdiameter/include/aaa_session_auth_client_fsm.h:98-134 | Arms both timers for a stateful session, at most one for a stateless one |
| AuthSessions.ServerSession.Notify | cplusplus/libdiameter/include/aaa_session_fsm.h:62-97 | One event through the server's real table with the specified effect |
| AuthSessions.ServerSession.GrantAccess | cplusplus/libdiameter/include/aaa_session_auth_server_fsm.h:137-161 | Arms both timers, each a grace period later than the client's |
| AuthSessions.ServerSession.Answer | cplusplus/libdiameter/include/aaa_session_auth_server_fsm.h:96-134 | Extends the access time of a stateless session, or arms its reclamation |
| AuthSessions.ServerSession.Abort | cplusplus/libdiameter/src/aaa_session_auth_server_fsm.cxx:352-359 | Arms only the retry when the abort request cannot be sent |
| SessionCounters.IncrementsAdd | cplusplus/libdiameter/include/aaa_session_attributes.h:110-120 | n increments add n modulo (2^32-1)^2 |
| SessionCounters.CountersAreDistinct | cplusplus/libdiameter/include/aaa_session_attributes.h:110-120 | Any run of increments shorter than the modulus yields pairwise different counters |
| SessionCounters.CountersComeRound | cplusplus/libdiameter/include/aaa_session_attributes.h:110-120 | After that many increments the counter is back where it was |
| SessionCounters.OrderIsByValue | cplusplus/libdiameter/include/aaa_session_attributes.h:96-109 | Comparing the halves compares the numbers, and equal numbers are equal counters |
| SessionCounters.LowHalfFirst | cplusplus/libdiameter/include/aaa_session_attributes.h:110-120 | Increments change the low half alone until it reaches 2^32-1; then it is 0 and the high half moves on by one |
| SessionCounters.SessionCounter.Increment | cplusplus/libdiameter/include/aaa_session_attributes.h:110-120 | Adds one to the number, modulo (2^32-1)^2 |
| SessionCounters.SessionCounter.LessThan | cplusplus/libdiameter/include/aaa_session_attributes.h:100-109 | Compares by the number |

## Left out

- PeerMachine.PeerStateMachine.SendCEA: does not carry the text of the error message, only that there is one, because
  the text is for operators.
- PeerMachine.PeerStateMachine.Message: does not keep the message ids itself, because MessageIds models them; whether
  the ids of an answer are accepted is a parameter, which AgreementIds shows to be true in the two-peer exchange.
- PeerMachine.PeerStateMachine.IncommingConnectionRequest: does not queue the ids of the CER; AgreementIds does.
- PeerMachine.PeerStateMachine.Dispatch: does nothing for the asynchronous send actions, which are compiled out, and for
  handing a message to the router.
- QueueJobs.QueueJob.Dequeue: does not wait on an empty queue; where the library waits it reports so and changes nothing.
- QueueJobs.QueueJob.Enqueue: does not wait when the queue is full, because its maximum is the largest machine word.
- JobGroups.Jobs.Serve: does not model a leaf that reports a failure code as its backlog, a signaled group, or blocking
  groups, and keeps the record of a job whose count fell below zero.
- JobGroups.Jobs.Schedule: does not model a stopped peer, which refuses to be scheduled.
- JobGroups.Jobs.Remove: holds the hierarchy in sequences indexed by job number, not in linked objects, so aliasing
  between groups is not captured.
- JobStranding.NeverStrandsIffNested: takes weights that are at least one wherever a job is scheduled, and leaves that
  report less than their weight, as peers do.
- JobCover.EventQueuesAreNeverEmpty: takes the same weights and leaves; so do the other results over runs of the
  hierarchy.
- JobPolicies.RootsCountNotifications: takes services in which peers raise and report nothing.
- PeerAgreement.NeverOpenApart: leaves out stops, timeouts and failed answers, for which no agreement is promised.
- RoutingChains.RoutingChain.Remove: does not free the node.
- RoutingChains.Node.ReTransmitCheck: counts a resend and arms its next date; it does not hand the stored request back
  to the router, whose request handling is entered again and takes the request out of the entry.
- RoutingChains.Node.Lookup: takes the lookup rule of request nodes and the handling of a message as given functions.
- AcctSessions.AcctSession.SendRecord: keeps the type and number of a request, not its other AVPs.
- AuthSessions.ServerSession.Abort: keeps the retry timer of the abort request, not the request's AVPs.
- Sockets, reactor threads, mutexes, condition variables, memory pools and logging.
- The transport error callback that resets a peer outside any event.
- The route table, the session database, the message parser and the accounting server session.
- Starting a session, ending it, starting a stopped session again and interpreting answers, which choose the events raised here.
- The applications built on the library.

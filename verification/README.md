# hkp-node, modelled

A Dafny model of the stateful protocols and the loop-heavy algorithms of hkp-node, a server on which boards of
services run, and proofs of what its comments promise of them. `dafny verify dfyconfig.toml` checks all of it.

| files | source | what |
|---|---|---|
| `TicketProtocol`, `TicketTheorems`, `TicketSlots`, `Participants` | src/coordinator/participants.ts | tickets and connections of the runtime servers a board uses |
| `SerialWork` | src/coordinator/coordinator.ts, src/coordinator/session.ts | work chained on promises is a queue of which only the head runs |
| `BoardPersistence`, `BoardSessions`, `BoardHistory`, `Coordinator` | src/coordinator/coordinator.ts | boards registered, stopped, shared and removed against a store |
| `StoredTickets` | src/coordinator/coordinator.ts, src/coordinator/participants.ts | the tickets that count, and those that are stored |
| `SessionLifecycle`, `SessionRebuilds`, `SessionHistory`, `Session` | src/coordinator/session.ts | a board's session: building, picking up and releasing runtimes |
| `LinkProtocol`, `LinkHistory`, `CoordinatorLinks` | src/coordinatorLinks.ts | the other end: links that reconnect, and how they end |
| `AssetCache`, `AssetHistory`, `Assets` | src/assets.ts | a cache with a byte budget under descriptors that change |
| `Projection`, `FacadeAccess` | src/coordinator/facadeAccess.ts | of a value, only what a facade's sources read |
| `MembersFacade`, `MembersInherit`, `MembersReach`, `MembersPlaces`, `FacadeReading` | src/coordinator/facadeAccess.ts | the facade a member is shown, and what it grants them |
| `Reassembly`, `Gathering`, `Refusals`, `Gather` | src/services/gather.ts | spread arrays put together again |
| `Utf16`, `Measuring`, `Printing`, `Previewing`, `CallReport` | src/callReport.ts | how large a value is, and how it begins |
| `Addresses`, `Egress` | src/egress.ts | which addresses are the public internet |
| `Threading`, `Filing`, `Conversations` | src/services/conversations.ts | mail filed into conversations |
| `LogReading` | src/coordinator/logStore.ts | a log read from its end |
| `Secrets`, `CredentialedFetch` | src/secrets.ts, src/credentialedFetch.ts | redirects followed with headers that name secrets |

Protocols are state machines: one pure function per stretch of code between two awaits or events, a run being any
sequence of steps that may happen. Beside each is a class with the source's fields, whose methods update them in place
and are proved to take exactly the step they stand for; the theorems are about every run of the machine. Algorithms
that work step by step are methods with loops, proved against a function that says what they compute; the theorems
relate that function to a simple one or to the standard it follows.

What a machine holds is told a second time from the steps of its run alone (`TicketSlots`, `BoardHistory`, `SessionHistory`,
`LinkHistory`, `AssetHistory`, `Refusals`, `Filing`): which step makes each fact so and which ends it, in the source's terms, and
that after every run the fact holds exactly if some step made it so and none since ended it (`Marks`).

Tickets are represented by their digests, which are distinct; the order a Map is visited in is arbitrary where the
source's answer does not depend on it; clocks, answers of stores and hosts, and the moments timers fire are anything
at all.

## Where the code and its comments part

The model follows the code. Each of these is proved.

- src/coordinator/facadeAccess.ts:309-319 promises that every source path reads in a projection what it read in the
  notification. That holds exactly when no source path goes on from another through an array (`Projection.KeptExactly`).
- src/coordinator/session.ts:161-162 has a participant that arrives while the board is starting not built twice. It is,
  when the start has yet to reach its runtime (`SessionRebuilds.BuiltTwice`); a connection can be asked to provision
  twice exactly if it joins then and nothing that waits ends the session (`SessionRebuilds.ProvisionedTwiceExactly`).
- src/coordinator/session.ts:120-121 has a live runtime's participant connected. It is, at every moment of a run, unless a
  replaced connection completes what it was asked after its successor left, turning capturing on again fails with nobody
  connected, or a server leaves a session that was destroyed: exactly then it is not
  (`SessionLifecycle.LiveMeansConnectedExactly`, `SessionLifecycle.ReplacedMayAnswer`, `SessionLifecycle.CapturedMayBeGone`).
- src/coordinator/facadeAccess.ts:166-176 writes a record anew by assigning its fields, and an own field named `__proto__`,
  which JSON may have, becomes the prototype the record reads on through. A member may so be granted what the whole facade
  does not grant (`MembersReach.ServiceUnderProto`), and a tab be shown that names a panel that is not
  (`MembersInherit.PanelsUnderProto`). When this happens is told from the facade exactly (`MembersReach.MembersAreGrantedLess`,
  `MembersFacade.TabsNameOnlyPanels`, `MembersInherit.Idempotent`); never where nothing in it has such a field.
- src/services/gather.ts: a duplicate that comes after its group is complete begins the group again
  (`Gathering.LateDuplicateComesOutAgain`); the group comes out once exactly unless every part arrives again after
  that (`Gathering.EachOnce`).
- src/egress.ts:80-84 judges an address by the IPv4 address it carries; the operator's list of allowed ranges is compared
  with the address as dialled (`Egress.AllowedAsDialled`).
- src/egress.ts:157-161 has an entry that is no range refused. One whose bits are no number is not: it covers every
  address of its kind (`Egress.CoversEveryAddress`). With infinitely many bits the loop that compares them never ends, on the
  very address the range was written with and no other (`Egress.NeverEndsExactly`).
- src/coordinator/coordinator.ts:439-458 destroys the session a removal finds, and then deletes whichever is registered: a
  board registered anew meanwhile loses its new session, which is never destroyed and runs on
  (`BoardSessions.RemovedWhileRegistered`); with registrations one after another, exactly then (`BoardSessions.LostByRemovals`).
- src/callReport.ts:87 has a value carried or described. One past the limit is neither, and an error, when there is a bigint
  among what is shown of it: it is counted like a number (:187) and cannot be written (:275). Exactly then
  (`Previewing.FailsExactly`, `CallReport.ReportedValue`); `CallReport.NeitherCarriedNorDescribed` is one.
- src/callReport.ts:163-166 takes the unit after a high surrogate for its other half whatever it is: the count is off by
  what follows each lone one (`Utf16.LoneSurrogateTakesTheNext`). And a print of exactly 1024 units is followed by an
  ellipsis although nothing is missing (`Previewing.ShowsTheBeginning`).
- src/services/conversations.ts:39-47 has threads decided by headers alone. They are decided by the order mail arrives
  in as well, unless messages name the same thread as what they refer to (`Threading.OrderDoesNotMatterExactly`).
- src/coordinator/logStore.ts:239-242 reads four lines per entry wanted: a filter that discards more than that leaves
  fewer entries than there are, and maybe none (`LogReading.EntriesMissed`); exactly when is told from the files
  (`LogReading.NewestExactly`).

## Model

| member | source | states |
|---|---|---|
| `TicketTheorems.MapsAgree` | src/coordinator/participants.ts:38-59 | After any run of issues, hellos, closes, registrations, cancellations, revocations and imports from the empty registry, the accepted digests are exactly the counting and pending ones, each under its own runtime; a pending one stands beside a counting one; whoever waits holds the pending one; and a connection not being closed was admitted with the one that counts now. |
| `TicketTheorems.StepKeeps` | src/coordinator/participants.ts:256-436 | Every handler keeps those relations, from any state that has them. |
| `TicketTheorems.ListenerKnowsConnections` | src/coordinator/participants.ts:552-600 | A board's listener that keeps the last server that joined and forgets one that left knows exactly that board's current connections after every step of every run, late closes of replaced, revoked and promoted sockets included. |
| `TicketTheorems.RegistrationTakesOver` | src/coordinator/participants.ts:333-346 | Registering a board settles each of its runtimes by itself, whatever the order the records are visited in: a waiting server takes over with its ticket and the one before is forgotten; a pending ticket nobody connected with is dropped; no other board's runtime changes. |
| `TicketTheorems.PromotedAtOnce` | src/coordinator/participants.ts:566-570 | A pending ticket's holder that arrives where no server is connected becomes the board's at once, and its ticket the one that counts; so promotion from a handler never meets the branch without a successor. |
| `TicketTheorems.PromotingNobodyBreaksTheRegistry` | src/coordinator/participants.ts:309-312 | Taken with a server connected, that branch would leave a live connection holding a ticket that no longer counts. |
| `TicketTheorems.FailedDeployChangesNothing` | src/coordinator/participants.ts:50-51 | For a runtime whose server stays connected, any run of other steps, revoking all but it among them, followed by cancelling its board's pending tickets ends with the same counting ticket and connection, nothing pending or waiting, and nothing told to listeners about it. |
| `TicketTheorems.StoredTicketsComeBack` | src/coordinator/participants.ts:404-436 | What a board's export listed, imported in any order into an empty registry, brings back exactly the board's counting tickets, each for its own runtime. |
| `TicketTheorems.StoredTicketsAreTheSame` | src/coordinator/participants.ts:404-436 | And exporting again then lists exactly what was imported, with when each ticket was issued. |
| `TicketTheorems.StoredTicketsChangeOnlyThere` | src/coordinator/coordinator.ts:72-79 | What a board's export answers changes in no step but those after which the coordinator writes the board down, a pending ticket that took over by itself among them. |
| `TicketSlots.EachRuntimeByItself` | src/coordinator/participants.ts:256-600 | Each step is, to each runtime, what happens to it and nothing else: to its counting and pending ticket, its server, whoever waits, and what its listeners heard. Each runtime is a small machine of its own, told without the maps. |
| `TicketSlots.EachRuntimeHasItsStory` | src/coordinator/participants.ts:38-59 | So what the registry has of a runtime after any run is what happened to that runtime in it. |
| `TicketSlots.SocketsExactly` | src/coordinator/participants.ts:440-600 | Which sockets there are after each step, of which runtime and ticket, and which of them was welcomed or asked to close by it. |
| `TicketSlots.RecordsStay` | src/coordinator/participants.ts:256-272 | A ticket's record is what it was issued or stored with, in every step. |
| `TicketSlots.WelcomedExactly` | src/coordinator/participants.ts:536-572 | In every run from the empty registry: a socket that was welcomed and was not asked to close is its runtime's server or waits to be, and whoever is or waits was welcomed. |
| `TicketSlots.CountingHello` | src/coordinator/participants.ts:539-564 | A hello with the ticket that counts makes its sender the runtime's server, its listeners hear so, and whoever was before is asked to close; nothing else changes, here or of another runtime. |
| `TicketSlots.LateHello` | src/coordinator/participants.ts:531-536 | A hello with a ticket that was replaced meanwhile changes no runtime and asks its socket to close. |
| `TicketSlots.FirstServer` | src/coordinator/participants.ts:256-565 | The run: a first ticket issued, a socket that presents it, its hello. It is the runtime's server, and its joining was told. |
| `Participants.ParticipantRegistry.Issue` | src/coordinator/participants.ts:256-272 | The five maps, updated in place, become what issuing is specified to make of them. |
| `Participants.ParticipantRegistry.DropPending` | src/coordinator/participants.ts:275-285 | Forgets a pending ticket and closes whoever waits with it, and nothing else. |
| `Participants.ParticipantRegistry.Promote` | src/coordinator/participants.ts:296-320 | The pending ticket counts, the one before is forgotten, and a server waiting succeeds the one connected. |
| `Participants.ParticipantRegistry.PendingOf` | src/coordinator/participants.ts:322-330 | Found by going through the accepted tickets, the runtimes with something pending are all of the board's. |
| `Participants.ParticipantRegistry.PromoteBoard` | src/coordinator/participants.ts:337-346 | The loop over pending records settles exactly the board's pending runtimes, each once, in the order it happens to visit them. |
| `Participants.ParticipantRegistry.CancelPending` | src/coordinator/participants.ts:352-356 | Dropping one by one is dropping all of the board's pending tickets at once. |
| `Participants.ParticipantRegistry.Revoke` | src/coordinator/participants.ts:372-383 | Both tickets of a runtime are forgotten and its servers closed; the entry of its connection stays until the close event. |
| `Participants.ParticipantRegistry.RevokeBoard` | src/coordinator/participants.ts:391-402 | Going through a snapshot of the records, a runtime with two tickets twice, revokes exactly the board's runtimes that are not kept. |
| `Participants.ParticipantRegistry.ExportTickets` | src/coordinator/participants.ts:408-418 | Exactly the board's tickets that count. |
| `Participants.ParticipantRegistry.ImportTickets` | src/coordinator/participants.ts:420-436 | Stored tickets count again where nothing counts yet, one after another. |
| `Participants.ParticipantRegistry.Accept` | src/coordinator/participants.ts:446-461 | A socket is taken exactly when its ticket is accepted, and speaks for that ticket's runtime. |
| `Participants.ParticipantRegistry.OnHello` | src/coordinator/participants.ts:530-572 | The step of a hello, taken in place: the sender is the runtime's server, or waits, or is asked to close, as `TicketSlots.EachRuntimeByItself`, `CountingHello` and `LateHello` say. |
| `Participants.ParticipantRegistry.OnClose` | src/coordinator/participants.ts:577-600 | Only the connection that is current leaves; a waiting one is forgotten in silence, a replaced one changes nothing. |
| `SerialWork.Lines.Enqueue` | src/coordinator/coordinator.ts:197-208 | Chaining on the last promise puts a task at the end of its line and touches no other. |
| `SerialWork.Lines.Begin` | src/coordinator/coordinator.ts:197-208 | What begins is the oldest unsettled task of its line. |
| `SerialWork.Lines.Settle` | src/coordinator/coordinator.ts:197-208 | Settling, with or without success, takes exactly the head off the line. |
| `SerialWork.Lines.Forget` | src/coordinator/coordinator.ts:202-206 | The end of a line is forgotten only if nothing was put behind it, and no line changes by it. |
| `SerialWork.OneAtATime` | src/coordinator/coordinator.ts:283-300 | At most one task of a line runs at a time, the oldest unsettled: so at most one replacement of a board's session, one piece of store work per board, one piece of a session's work. |
| `SerialWork.ReadyExactlyAtHead` | src/coordinator/session.ts:199-203 | A line is never stuck: a task may begin exactly when it is the oldest unsettled one. |
| `BoardPersistence.StoreConverges` | src/coordinator/coordinator.ts:197-251 | Whatever order registering, stopping, logging, sharing, removing and ticket changes interleave in: once the line drained with no call in flight and no failure outstanding, the store holds the board exactly when it is registered, with its current config, stopped flag, creation time, counting tickets and members. |
| `BoardPersistence.RemovedStaysRemoved` | src/coordinator/coordinator.ts:439-458 | After its removal left the line, with calls in flight or not, the store holds nothing of a removed board and nothing under way will save it. |
| `BoardPersistence.RunKeeps` | src/coordinator/coordinator.ts:257-529 | What makes both true is kept by every stretch of every call and by every landing and answer of the store. |
| `BoardHistory.RunTells` | src/coordinator/coordinator.ts:197-529 | After any run everything kept of a board is as the run's steps tell: its session, each session's config and whether it stopped, its members, tickets, calls and line, and what is in the store. |
| `BoardHistory.StoppedExactly` | src/coordinator/coordinator.ts:257-268 | A session made in the run is stopped exactly when a call to stop the board found it registered and has seen it stop; its config is the one of its registration, or the last logging was changed to while it was registered. |
| `BoardHistory.LineIsWhatWasAsked` | src/coordinator/coordinator.ts:197-208 | The line is what was asked of the store without what was answered, in order; a call is in flight exactly from its first stretch to its last. |
| `BoardHistory.StoredAsToldBySteps` | src/coordinator/coordinator.ts:217-251 | Once all that was asked was answered, with no call in flight and no failure outstanding: the store has the board exactly if a registration went through since the last removal; stopped exactly if the session of that registration was stopped; with its config, the tickets that count, and whoever was shared with and not unshared since, as the steps tell each. |
| `BoardSessions.LostExactly` | src/coordinator/coordinator.ts:302-367 | After any run some session that was made is neither registered, nor about to be, nor destroyed or being destroyed, exactly when a removal ended, or a registration published, while one was registered that nobody destroys. |
| `BoardSessions.NoneLostAtFirst` | src/coordinator/coordinator.ts:108-138 | As a coordinator starts no session is lost, so the runs these lemmas are about begin somewhere. |
| `BoardSessions.LostByRemovals` | src/coordinator/coordinator.ts:283-300 | With registrations of a board one after another, exactly when a removal ended so. |
| `BoardSessions.RemovedWhileRegistered` | src/coordinator/coordinator.ts:439-446 | The run: a board is registered while a removal destroys the session before, and the new one is lost. |
| `BoardPersistence.ShareLists` | src/coordinator/coordinator.ts:473-501 | Sharing lists one entry per address, replaces a known one, and refuses only a new address when the list is full. |
| `BoardPersistence.ReplacedLists` | src/coordinator/coordinator.ts:492-494 | Naming an address that is listed replaces its entry and keeps the others. |
| `BoardPersistence.WithoutLists` | src/coordinator/coordinator.ts:518-522 | Ending a share leaves exactly the other addresses listed. |
| `Coordinator.BoardCoordinator.Registering` | src/coordinator/coordinator.ts:302-313 | The first stretch of replacing a session takes its step for that board and no other. |
| `Coordinator.BoardCoordinator.SettlesTickets` | src/coordinator/coordinator.ts:315-339 | Tickets are settled once the old session let go, and the new session is made; which tickets count then is the registry's answer (`StoredTickets.MoveKeeps`). |
| `Coordinator.BoardCoordinator.Publishes` | src/coordinator/coordinator.ts:360-366 | The new session is the board's, and is written down behind what was asked before. |
| `Coordinator.BoardCoordinator.StopBoard` | src/coordinator/coordinator.ts:257-265 | Answers whether the board is held, and begins stopping the session it is held by. |
| `Coordinator.BoardCoordinator.SessionStopped` | src/coordinator/coordinator.ts:265-265 | The session that was asked, whether or not it is still the board's, is stopped (`BoardHistory.StoppedExactly`). |
| `Coordinator.BoardCoordinator.LoggingPersist` | src/coordinator/coordinator.ts:388-390 | The config changed is written down behind what was asked before. |
| `Coordinator.BoardCoordinator.StoreWorkLands` | src/coordinator/coordinator.ts:229-241 | What was asked lands in the store at some moment before the answer. |
| `Coordinator.BoardCoordinator.StoreWorkAnswers` | src/coordinator/coordinator.ts:197-208 | An answer, failed or not, takes the head off the board's line. |
| `Coordinator.BoardCoordinator.StopPersist` | src/coordinator/coordinator.ts:266-267 | A stopped session is written down, whichever is registered by then. |
| `Coordinator.BoardCoordinator.SetBoardLogging` | src/coordinator/coordinator.ts:376-387 | Changes the config of the session held when it is asked. |
| `Coordinator.BoardCoordinator.RemoveBoard` | src/coordinator/coordinator.ts:439-444 | Answers whether the board is held, and begins destroying its session. |
| `Coordinator.BoardCoordinator.SessionDestroyed` | src/coordinator/coordinator.ts:445-457 | Board, tickets and members go together, and the removal waits behind every write. |
| `Coordinator.BoardCoordinator.SetMember` | src/coordinator/coordinator.ts:473-501 | The list changes as sharing is specified to, or not at all when it is full. |
| `Coordinator.BoardCoordinator.RemoveMember` | src/coordinator/coordinator.ts:508-529 | The list loses the address, and the board is written down. |
| `Coordinator.BoardCoordinator.TicketsChanged` | src/coordinator/coordinator.ts:72-79 | A board that is held is written down when a ticket took over by itself, with the registry's answer for its tickets (`StoredTickets.MoveKeeps`). |
| `Coordinator.BoardCoordinator.StoreWorkBegins` | src/coordinator/coordinator.ts:217-241 | A write saves the board as it is when the write begins, and nothing when it was removed. |
| `StoredTickets.StoresWhatCounts` | src/coordinator/coordinator.ts:151-187 | Registry and coordinator together: whatever order issuing, arriving, registering, cancelling, removing and everything else interleave in, once the board's line drained without failures the store has of a registered board exactly the tickets that count in the registry, and of any other nothing. |
| `StoredTickets.MoveKeeps` | src/coordinator/coordinator.ts:315-327 | After every call that changes what counts, the tickets the coordinator has are what the registry's export answers. |
| `StoredTickets.EachRuntimeBecomes` | src/coordinator/coordinator.ts:315-339 | What settling, cancelling and removing make of each runtime's tickets, said of each by itself. |
| `SessionLifecycle.LiveIsBuilt` | src/coordinator/session.ts:272-362 | In every run, what is live was built. |
| `SessionLifecycle.RemovesOnlyItsOwn` | src/coordinator/session.ts:385-403 | A stopped session asks for the removal of a runtime its board lists only on a join saying it is still running there, and only if a stop since the last start failed to release it. |
| `SessionLifecycle.HoldsWhatItBuilt` | src/coordinator/session.ts:212-235 | Where every start is of a session that holds nothing, what it holds was built since its last start. |
| `SessionLifecycle.OneStartIsFresh` | src/coordinator/coordinator.ts:324-339 | A session started once, as the coordinator starts each it makes, holds nothing when it is. |
| `SessionLifecycle.RemovesOnlyWhatItBuilt` | src/coordinator/session.ts:386-391 | So in every run with one start, what a stopped session asks to remove that its board lists was built by it since it was started, and a stop failed to release it. |
| `SessionLifecycle.SecondStopForgetsResidue` | src/coordinator/session.ts:493-509 | Stopping a stopped session forgets what it reported as left over and still remembers what it has to release. |
| `SessionHistory.FactsExactly` | src/coordinator/session.ts:199-639 | After any run, whether a session is stopped, destroyed, subscribed, capturing or serving, and which runtimes are built, live and owed their release, is told from the steps: some step made it so and none since ended it. |
| `SessionHistory.AsksExactly` | src/coordinator/session.ts:272-403 | What each step asks, and of which runtimes, is told from the state before it; and the answer awaited is to that. |
| `SessionHistory.GoesOnWithSoonest` | src/coordinator/session.ts:226-235 | A start goes on with the first of the rest that has somebody connected, and leaves none after that one out. |
| `SessionHistory.ReleasesEachOnce` | src/coordinator/session.ts:609-639 | A stop, and the end of a session, ask each built runtime whose server is connected for its removal, exactly once, and ask nothing else. |
| `SessionHistory.RemovesExactlyWhatItOwes` | src/coordinator/session.ts:385-403 | In every run, a stopped session that takes up a join of a runtime its board lists asks for its removal if and only if the server says it still runs there and a stop since the last start found it built and either found nobody connected or was answered with a failure, and no release or removal of it succeeded since. |
| `SessionHistory.ReportsWhatItOwes` | src/coordinator/session.ts:493-509 | What a stop reports as left over is exactly what was built and is owed; a start reports nothing, and what is removed after all is reported no longer. |
| `SessionHistory.TakenInOrder` | src/coordinator/session.ts:199-203 | Work is taken up once each, in the order it came. |
| `SessionRebuilds.BuiltTwice` | src/coordinator/session.ts:226-231 | A server that connects while the start is at an earlier runtime is brought up by the start, and provisioned a second time by its own join, built, live and connected as it is: the run. |
| `SessionRebuilds.ProvisionedTwiceExactly` | src/coordinator/session.ts:161-162 | From any moment of any run with one start: a server that connects then may be asked to provision its runtime twice, in some run that goes on from there, exactly if a start under way has yet to reach that runtime and nothing in the queue stops or destroys the session. |
| `SessionRebuilds.ProvisionedOnce` | src/coordinator/session.ts:161-162 | So a connection that joins at any other moment, or was there before, is asked at most once in every run. |
| `SessionRebuilds.NeverRebuilt` | src/coordinator/session.ts:279-292 | A runtime that was built, also by the first build of a server that did not have it, is never provisioned again while it is still running whenever its server comes back, however joins and leaves fall between the awaits. |
| `SessionLifecycle.LiveMeansConnectedExactly` | src/coordinator/session.ts:120-122 | In every run, what is live is connected at every moment exactly unless one of three things happens in it: a replaced connection completes what it was asked after its successor left, turning capturing on again fails with nobody connected, or a server leaves a session that was destroyed. |
| `SessionLifecycle.LiveMeansConnected` | src/coordinator/session.ts:418-426 | With capturing off and no end of the session, exactly unless the first of them does. |
| `SessionLifecycle.ReplacedMayAnswer` | src/coordinator/participants.ts:548-556 | A server asked to build is replaced, its successor leaves, and then it answers: the runtime is live with nobody connected, and stays so when that connection closes. |
| `SessionLifecycle.CapturedMayBeGone` | src/coordinator/session.ts:336-342 | With it on it need not be: a server that leaves while it is told to capture again goes live. |
| `Session.BoardSession.OnJoin` | src/coordinator/session.ts:370-372 | A join puts its work behind everything asked before it. |
| `Session.BoardSession.OnLeave` | src/coordinator/session.ts:418-426 | Takes a runtime out of those that are live, in the middle of whatever is under way. |
| `Session.BoardSession.BringUp` | src/coordinator/session.ts:272-311 | Describes what was built and is still running, and provisions anything else. |
| `Session.BoardSession.Answer` | src/coordinator/session.ts:312-366 | What an answer or a failure does to the runtime being brought up, and to the ones after it. |
| `Session.BoardSession.TeardownRuntimes` | src/coordinator/session.ts:609-639 | Everything built is asked to go at once; one nobody is connected for is left over and owed (`SessionHistory.ReleasesEachOnce`, `SessionHistory.RemovesExactlyWhatItOwes`). |
| `Session.BoardSession.ReleaseAnswered` | src/coordinator/session.ts:621-635 | A release that failed is to be made up for, one that did not is not. |
| `Session.BoardSession.TakeNext` | src/coordinator/session.ts:199-203 | The next piece of work begins when the one before it has finished, and takes its first stretch. |
| `Session.BoardSession.RemoveAnswered` | src/coordinator/session.ts:393-401 | A removal that succeeded is no longer owed; one that failed still is. |
| `LinkProtocol.AlwaysConnectingOrWaiting` | src/coordinatorLinks.ts:250-398 | Between connecting and being over, a link has exactly one of a current socket and an armed timer; after that, neither. |
| `LinkProtocol.OverIsOver` | src/coordinatorLinks.ts:391-410 | Once over, no later event opens a socket or arms a timer. |
| `LinkProtocol.EndsExactly` | src/coordinatorLinks.ts:305-372 | A link ends by being disposed of, by an answer of 401 or 403, and by a close of its current socket with 4403 or 4409, and by nothing else. |
| `LinkProtocol.DelaysGrow` | src/coordinatorLinks.ts:375-389 | Between welcomes the delays never get shorter, none exceeds the longest, and the first is the shortest. |
| `LinkProtocol.FirstReport` | src/coordinatorLinks.ts:238-249 | The first attempt is reported to have worked exactly when the link is welcomed before anything went wrong. |
| `LinkProtocol.ReportedOnce` | src/coordinatorLinks.ts:245-248 | And reported once. |
| `LinkHistory.FactsExactly` | src/coordinatorLinks.ts:250-443 | Whether a link is begun, over, welcomed or waiting, which socket it is on, and how its first try was reported, told from the events: some event made it so and none since ended it. |
| `LinkHistory.WaitsByTries` | src/coordinatorLinks.ts:375-389 | Armed for the n-th time since its last welcome, the timer waits the first delay doubled n - 1 times, or the longest delay if that is less. |
| `Links.Link.Open` | src/coordinatorLinks.ts:250-274 | Nothing once disposed of; otherwise a new current socket, or another try later. |
| `Links.Link.Retry` | src/coordinatorLinks.ts:375-389 | One timer, twice as long each time up to the longest. |
| `Links.Link.Dispose` | src/coordinatorLinks.ts:400-410 | No timer, no socket, and for good. |
| `Links.Link.OnClose` | src/coordinatorLinks.ts:356-372 | Only the current socket's close counts; two codes end the link, any other is tried again. |
| `Links.Link.OnTimer` | src/coordinatorLinks.ts:384-387 | The timer is gone and the next try begins. |
| `Links.Link.OnWelcome` | src/coordinatorLinks.ts:435-443 | A welcome over the current socket, and no other, makes the link connected and forgets the failed tries. |
| `Links.Link.OnError` | src/coordinatorLinks.ts:352-354 | An error only settles the first report. |
| `Links.Link.OnUnexpectedResponse` | src/coordinatorLinks.ts:305-322 | A refused ticket ends the link; any other answer only settles the first report. |
| `Links.CoordinatorLinks.Introduce` | src/coordinatorLinks.ts:565-588 | A malformed address, or a runtime connected elsewhere, changes nothing; one connected there already keeps its link and takes the secrets; otherwise a new link is in place, begun, with the secrets, on a socket if one could be made and else waiting the shortest delay with its first try reported as failed; and the one before is over. At most one link per runtime, none of them over and each of them begun. |
| `Links.CoordinatorLinks.Introduced` | src/coordinatorLinks.ts:601-609 | A link that was not welcomed is over and gone, unless another took its place meanwhile. |
| `Links.CoordinatorLinks.Rejected` | src/coordinatorLinks.ts:686-699 | A link whose ticket is refused goes with its runtime, unless it was replaced. |
| `Links.CoordinatorLinks.Restore` | src/coordinatorLinks.ts:613-623 | Every record kept has a link: one there already is left alone, and any other is of the first record of its runtime and begun, on a socket or waiting the shortest delay. |
| `Links.GoesOnConnecting` | src/coordinatorLinks.ts:238-274 | So every link in the map is on a socket or about to try again, and not both. |
| `Links.CoordinatorLinks.Remove` | src/coordinatorLinks.ts:649-660 | The runtime's link is over and gone, and no other changes. |
| `Links.CoordinatorLinks.Stop` | src/coordinatorLinks.ts:679-684 | Every link is over, and what was stored stays stored. |
| `AssetCache.CacheCoherent` | src/assets.ts:195-235 | Over any interleaving of merges, replacements and loads: each entry is of its asset's current descriptor and passed the check against it, at most one per asset, the bytes held fit the budget, and the list is in order of last use. |
| `AssetCache.StaleLoadNeverCached` | src/assets.ts:226-230 | A load begun for a descriptor that changed since changes nothing of the cache, whatever it brings back. |
| `AssetCache.EvictsLeastRecentlyUsed` | src/assets.ts:346-352 | Whatever is evicted was used before everything that stays. |
| `AssetCache.EvictsFewestOldest` | src/assets.ts:346-352 | The oldest go, and no more of them than have to: one fewer would not fit. |
| `AssetHistory.EntryStep` | src/assets.ts:195-235 | Which step brings an entry into the cache and which takes it out. |
| `AssetHistory.HeldExactly` | src/assets.ts:340-379 | After any run an entry is held exactly when a load brought it for the descriptor its asset then had, and since then no other landed for that asset, it was not described anew, and nothing remembered since needed its room. |
| `AssetHistory.ServesTheLastLoad` | src/assets.ts:195-211 | In every run what a resolve is served is what the last load brought back that landed for the asset as it is described now; one of an address without a hash always loads, and any other whose content is held is served. |
| `AssetHistory.DescribedLoadedUsed` | src/assets.ts:131-231 | An asset is described as it was last merged or replaced; a load in flight was begun for that, there being nothing to serve; it is used when it is served and when a load lands. |
| `Assets.AssetStore.ForgetEntry` | src/assets.ts:362-368 | The entry goes, and the running count of bytes stays the sum of what is held. |
| `Assets.AssetStore.RememberEntry` | src/assets.ts:340-355 | The evicting loop leaves exactly the specified entries, and the running count right. |
| `Assets.AssetStore.Touch` | src/assets.ts:357-360 | The entry moves to the end. |
| `Assets.AssetStore.Changed` | src/assets.ts:370-379 | What is cached of the asset goes, and its listeners hear of it once. |
| `Assets.AssetStore.ReplaceAll` | src/assets.ts:131-140 | Exactly the assets whose descriptor differs are told about, each once, and lose what is cached of them. |
| `Assets.AssetStore.MergeEntries` | src/assets.ts:147-159 | Descriptors are added, replaced or removed one after another, the others left alone. |
| `Assets.AssetStore.Resolve` | src/assets.ts:195-211 | Unknown without a descriptor; served exactly when content of the asset is held and it is no address without a hash, and then with that content; otherwise a load begins for what it is described as. |
| `Assets.AssetStore.Loaded` | src/assets.ts:213-231 | What was loaded is served if it passes the check, and remembered only if the descriptor is still the one it was loaded for. |
| `Projection.KeptExactly` | src/coordinator/facadeAccess.ts:309-319 | Every list of paths drawn from a set is projected as promised, each path reading what it read and the payload untouched, if and only if no path of the set goes on from another through an array. |
| `Projection.KeptWhenPrefixFree` | src/coordinator/facadeAccess.ts:309-319 | In particular when no path goes on from another; and then every path at all reads the payload's value, an object made for the projection, or nothing, as the paths alone say. |
| `Projection.PickShows` | src/coordinator/facadeAccess.ts:333-347 | How any path reads in a projection, told from the payload and the set of paths: what is at or below a path found is the payload's, what is above one is new, and nothing else is there. |
| `Projection.OrderDoesNotShow` | src/coordinator/facadeAccess.ts:333-347 | Two orders of the same paths read the same everywhere. |
| `Projection.BrokenByArray` | src/coordinator/facadeAccess.ts:282-287 | A path going on through an array, asked for after the path to the array, always breaks the promise: the first path reads something else, or the payload itself is written into. |
| `Projection.ItemsThenTitle` | src/coordinator/facadeAccess.ts:282-287 | `items` and then `items.0.title`: the items are gone from the projection. |
| `Projection.ProjectsSomething` | src/coordinator/facadeAccess.ts:329-330 | A projection is empty exactly when none of the paths holds anything. |
| `FacadeAccess.Objects.ReadPath` | src/coordinator/facadeAccess.ts:252-264 | The loop over the keys reads as reading is specified: own fields only, through no machinery. |
| `FacadeAccess.Objects.WritePath` | src/coordinator/facadeAccess.ts:272-290 | The loop makes and fills objects in one heap exactly as writing is specified to, and nothing along a path through machinery. |
| `FacadeAccess.Objects.Pick` | src/coordinator/facadeAccess.ts:335-347 | Where no path goes on from another through an array, nothing that was there is changed, every path reads what it read, and nothing beside the paths is there. |
| `FacadeAccess.Objects.ProjectNotification` | src/coordinator/facadeAccess.ts:320-331 | A source without a path gives the payload itself; otherwise nothing at all when no path holds anything, and else every path as it was. |
| `MembersFacade.ShownAsItIsExactly` | src/coordinator/facadeAccess.ts:216-240 | A facade is shown unchanged exactly when it keeps nothing for the owner below its root, nothing in it has a field named `__proto__`, its tabs name only panels that are there, and its default names a tab. |
| `MembersInherit.Idempotent` | src/coordinator/facadeAccess.ts:216-240 | Showing again what a member is shown leaves out nothing more, exactly unless a record that is shown holds an object under `__proto__` (a tab that lists panels and the root of a facade with tabs are copied, and do not), or a tab names a panel the facade holds there. |
| `MembersInherit.ShownBorrowers` | src/coordinator/facadeAccess.ts:166-176 | Which records a member is shown read on through a prototype, told from the facade. |
| `MembersInherit.IdempotentWithout` | src/coordinator/facadeAccess.ts:216-240 | Without such a field anywhere, showing again leaves out nothing more and tabs name only panels that are shown. |
| `MembersInherit.PanelsUnderProto` | src/coordinator/facadeAccess.ts:216-240 | A facade whose shown tab names a panel that is not shown, and that is not shown the same again. |
| `MembersFacade.NothingOfTheOwners` | src/coordinator/facadeAccess.ts:163-177 | No entry kept for the owner is anywhere below the root of what a member is shown, nor in anything it reads through a prototype. |
| `MembersFacade.TabsNameOnlyPanels` | src/coordinator/facadeAccess.ts:221-234 | Every panel a shown tab names is shown, exactly unless the facade has no panels of its own and such a tab names one it holds under `__proto__`. |
| `MembersFacade.DefaultNamesATab` | src/coordinator/facadeAccess.ts:235-239 | A shown default is the id of a shown tab. |
| `MembersFacade.PanelsShownExactly` | src/coordinator/facadeAccess.ts:179-203 | The panels shown are exactly those that neither are the owner's nor are named by a tab of the owner's and by no other, each without what is the owner's. |
| `MembersFacade.TabsShownExactly` | src/coordinator/facadeAccess.ts:216-240 | A facade with tabs keeps every field that is shown but its tabs, and its default only where that names a tab that is left. |
| `MembersFacade.OneTabShown` | src/coordinator/facadeAccess.ts:226-234 | A tab that lists panels keeps those that are there, and goes when it named some and none is left; any other stays as it is. |
| `MembersFacade.OneEntryShown` | src/coordinator/facadeAccess.ts:163-203 | Of one entry of a list: the owner's is left out; so is a panel that owners' tabs name and no other tab, and an id of no panel shown. |
| `MembersFacade.EntriesInOrder` | src/coordinator/facadeAccess.ts:164-166 | Lists are gone through entry by entry and stay in order. |
| `MembersFacade.PanelsInOrder` | src/coordinator/facadeAccess.ts:198-201 | So are the panels. |
| `MembersFacade.NamedInOrder` | src/coordinator/facadeAccess.ts:230-230 | And the panels a tab names. |
| `MembersFacade.TabsInOrder` | src/coordinator/facadeAccess.ts:226-234 | And the tabs. |
| `MembersReach.MembersAreGrantedLess` | src/coordinator/facadeAccess.ts:22-41 | What a member may ask, hears and is named is of what the whole facade grants, exactly when that grants what each record that is shown with an object under `__proto__` says as it is read through it. |
| `MembersReach.GrantedLessWithout` | src/coordinator/facadeAccess.ts:22-41 | So always where nothing in the facade has such a field. |
| `MembersReach.NothingKeptGrants` | src/coordinator/facadeAccess.ts:22-41 | And whatever it has, nothing in an entry kept for the owner grants a member anything. |
| `MembersReach.ServiceUnderProto` | src/coordinator/facadeAccess.ts:85-104 | A facade that lets nobody ask a service to process, shown to a member as one that does. |
| `MembersReach.GrantsOfWhatIsShown` | src/coordinator/facadeAccess.ts:85-126 | What any value grants with the owner's entries left out, told from the value: the grants of the others, each record read through what it holds under `__proto__`. |
| `MembersReach.SourcesArePlain` | src/coordinator/facadeAccess.ts:95-105 | A source is only ever granted along a path through data; a refused path is one through machinery. |
| `MembersPlaces.GrantedSomewhere` | src/coordinator/facadeAccess.ts:85-126 | A facade grants exactly what some record in it grants, reached through lists and fields but through nothing an action carries as its payload. |
| `MembersPlaces.SaysExactly` | src/coordinator/facadeAccess.ts:96-112 | What one record grants: asking the service it names to process, or reading its path where a source belongs, refused when that leads into machinery; nothing without an address filled in. |
| `MembersPlaces.PlainPathExactly` | src/coordinator/facadeAccess.ts:69-74 | A path is plain exactly when none of the segments between its dots is one of the three that lead into what objects inherit. |
| `FacadeReading.Access.Walk` | src/coordinator/facadeAccess.ts:85-126 | The sets and maps filled in place gain exactly what the facade grants. |
| `Gathering.EachOnce` | src/services/gather.ts:16-25 | An array all of whose parts arrive comes out whole and in order, first with its last missing part; and exactly once if and only if not every part of it arrives again after that. For any interleaving of groups, any order of parts and any duplicates, early and late, when nothing waits too long, there is room for each group as it begins and each fits the bytes allowed. |
| `Gathering.ComesOutWhenCovered` | src/services/gather.ts:262-287 | In every such run a group comes out with a part exactly when what arrived of it since it came out before, that part with it, is every part it has. |
| `Gathering.GathersWhatWasSpread` | src/services/gather.ts:202-288 | After every such run nothing was refused and exactly the incomplete groups are held, each with exactly what arrived of it since it last came out, and since when. |
| `Gathering.LateDuplicateComesOutAgain` | src/services/gather.ts:275-276 | A duplicate that comes after its group is complete starts the group again: one of a group of one comes out a second time. |
| `Reassembly.Bounded` | src/services/gather.ts:40-45 | In every run, whatever arrives: at most so many groups are incomplete, each holds at most the bytes allowed as measured, at most 1024 refusals are remembered, and no refused group is being collected. |
| `Reassembly.RefusedCollectsNothing` | src/services/gather.ts:213-216 | A part of a group whose refusal is remembered is answered with nothing and collects nothing. |
| `Reassembly.ProcessKeeps` | src/services/gather.ts:202-288 | One value keeps those bounds, whatever it is. |
| `Refusals.PassedOnExactly` | src/services/gather.ts:202-208 | A value is passed on exactly when it is no part: without an item, a group of 1 to 256 units, or an index below its total. |
| `Refusals.PartExactly` | src/services/gather.ts:210-287 | What one part does in any state, told by what is held of its group: refused for each of the source's reasons, ignored as a duplicate, held as the first or another, or completing its group with every item in order. |
| `Refusals.RememberedExactly` | src/services/gather.ts:298-334 | In every run a refusal is remembered exactly when a part was refused then, and none since came that found it too old or needed its place among 1024. |
| `Gather.GatherService.Process` | src/services/gather.ts:202-288 | The maps updated in place, and the answer, are as specified for one value. |
| `Gather.GatherService.Refuse` | src/services/gather.ts:298-313 | The group goes, its refusal is remembered, and the evicting loop keeps the newest 1024. |
| `Gather.GatherService.LetGoOfStale` | src/services/gather.ts:316-334 | Exactly the groups and refusals older than the timeout are let go, the refusals left in order. |
| `Gather.GatherService.Collect` | src/services/gather.ts:213-287 | What a part does once what is stale was let go of: refused, held, kept out as a duplicate, or completing its group. |
| `Utf16.BytesUpTo` | src/callReport.ts:152-172 | The counting loop gives the bytes when they fit the budget, and otherwise something past it and no more than them. |
| `Utf16.BytesAreUtf8` | src/callReport.ts:152-172 | Of well-formed text, the count is the number of octets section 3 of RFC 3629 encodes it in. |
| `Utf16.LoneSurrogateTakesTheNext` | src/callReport.ts:163-166 | Of any text, the count is its octets, U+FFFD for each surrogate that is not half of a pair, and for each lone high surrogate counted one more at the end of the text, none before ASCII or before a pair, one less before a character of two octets, and two less before any other. |
| `Utf16.ExactWithoutLoneHighs` | src/callReport.ts:152-172 | So it is exact wherever every high surrogate begins a pair. |
| `Utf16.EncodedIsUtf8` | src/callReport.ts:152-172 | Those octets are the encoding of section 3 of RFC 3629, for text that is well formed. |
| `Utf16.Head` | src/callReport.ts:222-229 | The beginning of a text, as long as asked for, or one unit less where that would cut a surrogate pair. |
| `Measuring.WithinBudget` | src/callReport.ts:174-220 | The worklist's count is within the budget exactly when the value is a tree no larger, and is its recursive size then; past it otherwise, and no more than that size. A value that leads back to itself is past every budget. |
| `Measuring.MeasuresSize` | src/callReport.ts:180-220 | The same for any pending values, whatever was counted before them. |
| `Measuring.InItself` | src/callReport.ts:195-202 | A list that holds itself is past every budget. |
| `Printing.MeasuredAsPrinted` | src/callReport.ts:174-220 | Of a tree of texts printed without escapes, numbers, truth values and nulls: what it is measured at is what its compact JSON takes in UTF-8, and one more for each record that has a field. |
| `Printing.TextReadsBack` | src/callReport.ts:243-244 | A text as it is printed, escapes and all, reads back as that text, for every text. |
| `Measuring.SizeUpTo` | src/callReport.ts:180-220 | The loop ends on every object graph, cyclic ones included, and answers as above. |
| `Previewing.ShowsTheBeginning` | src/callReport.ts:231-281 | Of any value, one that leads back to itself included, by its unfolding to any depth from 1024 on: where fewer than 1024 units of its compact print come before its end or its first bigint, the preview is the whole print, or fails at the bigint; otherwise it is the first 1024 of those units, or 1023 where the cut would split a surrogate pair, and an ellipsis. No closing quote that was added shows. |
| `Previewing.ShowsTree` | src/callReport.ts:231-281 | The same by the tree a value says, if it does. |
| `Previewing.UnfoldsToItsTree` | src/callReport.ts:231-281 | A value that says a tree unfolds to it, from its depth on. |
| `Previewing.FailsExactly` | src/callReport.ts:274-276 | A preview fails exactly when the value has a bigint with fewer than 1024 units of the print before it. |
| `Previewing.FailsOnlyAtBigInt` | src/callReport.ts:274-276 | So where no bigint is reached it shows the print, and nothing throws. |
| `Previewing.UptoBigInt` | src/callReport.ts:274-276 | The print up to the first bigint is the beginning of the print, short of it exactly where there is a bigint. |
| `Previewing.BigIntFails` | src/callReport.ts:187-188 | A list of a bigint and a long text is past the limit, and its preview fails. |
| `Previewing.CutPrints` | src/callReport.ts:243-244 | A text cut between characters prints as the beginning of its print. |
| `CallReport.Writer.Write` | src/callReport.ts:239-278 | The text written in place, and whether more may be, are as specified, on every object graph. |
| `CallReport.ReportedValue` | src/callReport.ts:88-108 | A value is carried exactly when it is a tree weighing no more than the limit. Reporting it throws exactly when it is not, and is a list or an object with a bigint among what is shown of it. Otherwise its description says its kind, a size past the limit and no more than its weight, exact where it says so, and how it begins. |
| `CallReport.NeitherCarriedNorDescribed` | src/callReport.ts:87-108 | A list of a bigint and a text longer than the limit is neither. |
| `Addresses.EverySpellingIsRead` | src/egress.ts:92-118 | Every way section 2.2 of RFC 4291 has to write an address (`::` anywhere, leading zeros, either case, a dotted tail) is read as the sixteen bytes of its eight groups. |
| `Addresses.SameBytesSameAddress` | src/egress.ts:92-118 | Two spellings are read as the same bytes exactly when they mean the same address. |
| `Addresses.DecorationsChangeNothing` | src/egress.ts:93-93 | Brackets around an address and a zone after it change nothing. |
| `Addresses.ReadsDotted` | src/egress.ts:94-97 | An IPv4 address written out is read as its four bytes. |
| `Egress.InRange` | src/egress.ts:129-141 | The loop over bits answers whether the leading bits are the same as numbers. |
| `Egress.SameBitsSameNumber` | src/egress.ts:129-141 | Comparing bit by bit is comparing the leading bits as one number. |
| `Egress.CoversPrefix` | src/egress.ts:129-141 | A range is so many whole bytes and the first bits of the next. |
| `Egress.PublicIsOfTheBytes` | src/egress.ts:144-155 | Whether an address is public depends on its bytes alone, as stated range by range; one that carries an IPv4 address is public exactly when that one is. |
| `Egress.PrivateIsPrivateV4` | src/egress.ts:60-71 | The table's IPv4 ranges cover exactly the networks stated octet by octet. |
| `Egress.PrivateIsPrivateV6` | src/egress.ts:72-78 | The table's IPv6 ranges cover exactly the addresses stated byte by byte. |
| `Egress.CarriedIsCarried` | src/egress.ts:85-89 | The three carrying forms, and where the IPv4 address sits in each. |
| `Egress.MappedIsJudgedAsInside` | src/egress.ts:80-84 | An IPv4-mapped address with a dotted tail is judged as the IPv4 address written plainly. |
| `Egress.SpellingDoesNotMatter` | src/egress.ts:187-196 | Two spellings of an address are public together and may be reached together. |
| `Egress.AllowedAsDialled` | src/egress.ts:187-196 | An address carrying another is reached exactly when a range allows it as dialled or what it carries is public. |
| `Egress.AllowedOnlyPlainly` | src/egress.ts:187-196 | So a private IPv4 network that is allowed is not reached at its addresses written the other way. |
| `Egress.CoversEveryAddress` | src/egress.ts:120-127 | A range covers every address of its kind exactly when what is written after its slash is no number, or none above zero. |
| `Egress.NeverEndsExactly` | src/egress.ts:129-141 | The loop over bits never ends exactly with infinitely many of them, on the address the range was written with. |
| `Egress.FindsWhatItCovers` | src/egress.ts:129-141 | With any other number of bits it finds the addresses of the range of those bits. |
| `Threading.OrderDoesNotMatterExactly` | src/services/conversations.ts:569-593 | Where each message is filed is the same for every order of arrival if and only if messages name the same thread as whatever of their chain may arrive; and then each is filed under the name its headers give. |
| `Threading.TwoOrders` | src/services/conversations.ts:472-559 | Then the same mail in any two orders, re-delivered or not, leaves the same messages in the same conversations. |
| `Threading.RepliesMeetAtTheRoot` | src/services/conversations.ts:39-48 | Where references begin with the thread's root and chains stay within their thread (section 3.6.4 of RFC 5322), every message is filed under the root, in every run. |
| `Threading.TruncatedReferences` | src/services/conversations.ts:580-592 | A reply that kept only the last of its references is filed by the order it arrives in: three messages that show it. |
| `Threading.AgainChangesNothing` | src/services/conversations.ts:529-538 | Ingesting a known message again changes no row. |
| `Threading.IngestKeeps` | src/services/conversations.ts:472-559 | Every email's conversation exists and every conversation has an email; a message filed is found under the conversation answered. |
| `Threading.AReplyIsNoDecision` | src/services/conversations.ts:464-471 | An arriving reply leaves a conversation's state, subject and creation time, and only widens who is in it, by sender and recipient. |
| `Threading.TransitionKeeps` | src/services/conversations.ts:662-702 | A transition moves one conversation to a declared state, or changes nothing. |
| `Threading.FilesWhatArrived` | src/services/conversations.ts:510-528 | Exactly what was delivered is filed. |
| `Filing.JoinsTheMostSpecific` | src/services/conversations.ts:569-593 | A message joins the conversation of the message it answers if that is known, else of the newest reference that is, else its own; where none is known, the oldest reference names it, then the message answered, then the message itself. |
| `Filing.FiledAsItCame` | src/services/conversations.ts:472-559 | One message in any state: refused without an id, known already, or filed; its row as it came, and its conversation begun with the initial state, its subject and whoever is in it, or only touched. |
| `Filing.TouchedInOrder` | src/services/conversations.ts:596-617 | Whoever was in a conversation stays, each once and in order, followed by the sender and then the recipient if they are new. |
| `Filing.FiledOnce` | src/services/conversations.ts:510-538 | In every run a message's row is as the message came the first time, however often it comes again. |
| `Filing.MovedAsAsked` | src/services/conversations.ts:662-702 | A transition goes through exactly for a conversation there is, to a state that is declared or when none are; it moves that conversation to that state and changes nothing else. |
| `Conversations.Service.ThreadOf` | src/services/conversations.ts:569-593 | The loop over the chain finds the first message known, newest first, and else the root of the chain. |
| `Conversations.Service.Touch` | src/services/conversations.ts:596-617 | Whoever is seen is added once, in order, and the time of the last message is now. |
| `Conversations.Service.Ingest` | src/services/conversations.ts:472-559 | Both tables and the answer are as specified for one message, and the last count and error with them. |
| `Conversations.Service.Transition` | src/services/conversations.ts:662-702 | Refused without a conversation named, without a state, to one not declared, or of no conversation, each with its reason and in that order; otherwise that conversation alone moves. |
| `LogReading.TailLines` | src/coordinator/logStore.ts:97-123 | Reading a file backwards in chunks gives the last lines of what its chunks are decoded to, in order, torn at most in the first; all of them, or more than were wanted; and which. |
| `LogReading.ReadLines` | src/coordinator/logStore.ts:254-274 | Over the live file and the rolled ones: the last lines in order, torn at most at the very front, and as many of them whole as are wanted while there are any more. |
| `LogReading.Read` | src/coordinator/logStore.ts:233-309 | The entries asked for among exactly those lines, the newest of them up to the limit. |
| `LogReading.NewestExactly` | src/coordinator/logStore.ts:239-242 | A read gives the newest entries asked for of all the files exactly when the lines it reads whole hold enough of them; or no line before those holds one, and what it has of a torn line reads as none; or that reads as one, the one that is wanted of the lines before. |
| `LogReading.EnoughAmongTheLast` | src/coordinator/logStore.ts:239-242 | So it gives them wherever the last lines of all the files, four for every entry wanted, hold as many as are wanted. |
| `LogReading.EntriesMissed` | src/coordinator/logStore.ts:239-242 | As many lines as are read that a filter discards, in the live file, hide every entry of the files rolled before it. |
| `LogReading.FoundAtTheEnd` | src/coordinator/logStore.ts:276-289 | What is found in the lines that are read whole is the end of what is found in all; what is left of a torn line adds one at most. |
| `LogReading.FoundInLine` | src/coordinator/logStore.ts:276-305 | What one line gives: its entry, if it is one of the run asked for, at least as severe and later than asked for, with its data if asked for; nothing of an empty line. |
| `LogReading.WholeCharactersAreRead` | src/coordinator/logStore.ts:110-114 | Where no chunk begins inside a character, what the chunks are decoded to is the text of the file. |
| `CredentialedFetch.FetchWithCredentials` | src/credentialedFetch.ts:50-122 | At most eleven requests, each following from the answer before it; a credential is a problem at the first address, with nothing sent, or nowhere, whatever the vault holds by later hops. |
| `CredentialedFetch.SecretsReachOnlyTheirAudience` | src/credentialedFetch.ts:2-10 | At every hop, each secret named by a header still held is held by then and its audience permits that hop's host. |
| `CredentialedFetch.OnlyWhatMayGo` | src/credentialedFetch.ts:64-74 | What a host is sent depends on no secret that may not be sent there: two vaults that agree on those that may would have had the same headers sent. |
| `CredentialedFetch.HeldExactly` | src/credentialedFetch.ts:107-119 | A header is held at a hop exactly when it was there to begin with and went on at every hop up to it. |
| `CredentialedFetch.NamesShrink` | src/credentialedFetch.ts:12-16 | Header names are only ever left out along the chain, and stay out. |
| `CredentialedFetch.HopFollows` | src/credentialedFetch.ts:75-120 | Each hop but the first is where the answer before it led, one of five statuses with an address; as a GET without a body exactly after a 303 to neither GET nor HEAD or a 301 or 302 to a POST; and of the headers held, with those that go on. |
| `CredentialedFetch.KeptInOrder` | src/credentialedFetch.ts:108-119 | Headers are looked at one by one and stay in order. |
| `CredentialedFetch.BodyIsGone` | src/credentialedFetch.ts:28-35 | Once a redirect was followed as a GET, no later hop is sent the body or a header that describes it. |
| `CredentialedFetch.CaseDoesNotMatter` | src/credentialedFetch.ts:110-110 | Headers are told by name in either case. |
| `CredentialedFetch.NamesInLowerCase` | src/credentialedFetch.ts:25-35 | Which names are bound to an origin, and which describe a body. |
| `CredentialedFetch.BoundToItsOrigin` | src/credentialedFetch.ts:107-116 | Past another origin no header bound to one is sent again, not even back at the first. |
| `CredentialedFetch.ClearTogether` | src/credentialedFetch.ts:62-67 | Headers that each clear alone clear together. |
| `CredentialedFetch.ClearAlone` | src/credentialedFetch.ts:62-67 | And together only if each does alone. |
| `CredentialedFetch.Redirect` | src/credentialedFetch.ts:97-120 | Method, body and headers of the next hop follow from the answer as specified, and clear for its host. |
| `Secrets.ClearsExactly` | src/secrets.ts:139-169 | A credential clears exactly when it names nothing, or every secret it names is held and may be sent there. |
| `Secrets.WildcardIsOfSubdomains` | src/secrets.ts:209-230 | A wildcard permits exactly the hosts ending in a dot and its domain, and never the bare domain. |
| `Secrets.PermitsExactly` | src/secrets.ts:209-230 | An audience permits any host when it is empty, and else exactly the hosts it names plainly and those that end in what a wildcard of it stands for. |
| `Secrets.NamedInOrder` | src/secrets.ts:92-118 | What is missing and what is refused is each listed once, in the order it is first named in. |
| `Secrets.RefusedWith` | src/secrets.ts:139-169 | Which problem there is: no vault, no host, the first secret named that may not be sent there, or all that are not held, in that order. |
| `Secrets.ResolvedPieceByPiece` | src/secrets.ts:95-112 | A text is resolved piece by piece, in order. |
| `Secrets.OnePieceResolved` | src/secrets.ts:95-112 | A literal stays as it is; a reference becomes the value held if it may go to the host, and nothing otherwise. |
| `Secrets.SecretVault.Merge` | src/secrets.ts:56-61 | Entries are added or replaced, and the rest left alone. |
| `Secrets.SecretVault.Resolve` | src/secrets.ts:84-119 | Every reference becomes its value or nothing; what is missing and what is refused is reported by name, once each. |

## Left out

- SessionRebuilds.ProvisionedTwiceExactly: of a board that lists each of its runtimes once; a start goes through one listed twice twice.
- Requests to a server that was replaced before it was asked: they fail at once, and here may also be answered until its connection closes.
- Bridges to browsers, members' requests, mounts, pushed states, error texts and logging of a session: they hang off the states modelled and change none of them.
- Heartbeats, request timeouts and binary frames: a participant's message is the event it causes, and a timer fires at any moment.
- Randomness and SHA-256 of tickets: a new digest is one not known before.
- The listener sets of a board: one listener subscribed from the start stands for all.
- The coordinator's restore at start, which builds every session from the store before any call: a run may start with what a store brought back.
- Calls of the coordinator that only read, and capturing, which the store is not told about.
- Listeners of an asset that throw, and the fetching, decoding and hashing of content: a load brings back anything.
- Changing a gather's configuration while it runs, its nested pipeline, and what it says in the log: the bounds are those of one configuration.
- Sizes of parts that are neither text nor bytes: a part comes with the size it is measured at.
- Projecting a facade's configuration for members (src/coordinator/facadeAccess.ts:379): it filters a board's services by what `MembersReach` grants.
- Objects of a facade in the order their fields come: no answer modelled depends on it.
- Number formatting in src/callReport.ts: what String() makes of a number is given, as ASCII text.
- What leaves a call report depending on Capture mode (src/callReport.ts:64-85), a choice between the value described here and none.
- Which texts the platform takes for addresses: the grammar of section 2.2 of RFC 4291, and four decimal numbers without leading zeros.
- What a text is as a number, for the bits of a range: the platform says.
- Looking names up, sockets and dispatchers in src/egress.ts: addresses are judged as they are dialled.
- Trimming and bracket-stripping of message ids (src/services/imap-email.ts:72-90): ids come as they are read, "" for none.
- Artifacts, and the queries that list a thread or what is actionable: they write no email and no conversation.
- What a platform makes of a chunk that begins inside a character (src/coordinator/logStore.ts:110-112): decoding is given.
- What JSON.parse makes of a line of the log is given.
- Appending to a log and rolling its files: file renames and open descriptors are the operating system's.
- The pattern secret references are found by: a text comes as literal pieces and the aliases between them, an audience trimmed and in lower case.
- CredentialedFetch.FetchWithCredentials: addresses come with their origin and host, a location as what it means against the address it came from, and the method in upper case; an address without a host, at which resolving throws, is one of the problems.
- Secrets inside nested structures: a request's headers are a list of texts, and src/secrets.ts:256 visits every text of a structure the same way.

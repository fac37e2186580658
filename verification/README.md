# Verified model of the device agent

The agent runs apps on an edge device for a cloud that pushes requested states.
This project models the parts of it that are protocols, not plumbing, and proves
what each of them promises: the per-app lifecycle controller, the host-port
allocator with its two clients, the reconnect machinery of the WAMP session, the
ownership of app observers, the bounded log paths, file transfers, and the disk
guard. `dafny verify dfyconfig.toml` checks everything.

## How it is modelled

Code that changes one object step by step is a class whose methods are proved
against a function of the old state (`HostPortRegistry`, `AppManager`,
`Batcher`, `Filesystem`, `Guard`, `StateObserver`), and what the source promises
is then proved about that function over every sequence of calls. Code in which
goroutines interleave is a state machine: a run is any sequence of enabled
events, one event being one step of one goroutine between two accesses to shared
state. Docker, compose, SQLite, WAMP, JSON, clocks and the operating system are
outcomes an event or a parameter chooses freely.

| module | models |
|---|---|
| `HostPorts` | the port registry, every call, whole runs of calls |
| `ComposePorts`, `Texts` | reading and printing compose port entries |
| `AuthoredPorts` | what an authored port entry means, for every text |
| `ComposeRewrite` | the compose rewriter and the tunnel resolver on one registry |
| `LaunchPorts` | the port a single-container app is launched on, against the tunnel resolver |
| `BindConflict` | reassigning ports after a bind error |
| `AppStates` | app states, the transition table, one app's record and rows |
| `Controller` | any number of requests, cancels, pushes, synchronisations, observer probes, state corrections and failed transfers on one app, from any state the agent may start with, and its lock |
| `Targets` | the fate of a target whose request was refused or dropped |
| `Rest` | why an app may rest away from its target |
| `StrandedRuns` | runs that do strand a target |
| `Redrive` | the chain of requests that `VerifyState` spawns |
| `OneRequest` | one request alone: the interleaved and the sequential account agree |
| `ComposeCancel` | registering, looking up and calling cancel functions |
| `Reconnect` | dial, watcher, heartbeat and close of the session |
| `Observers` | pollers registered in a map under a mutex |
| `LogLines`, `LogBatcher`, `LogQuery`, `AgentLog` | log batching, paging, reading back |
| `Transfer` | chunked file transfers that overlap on one slot |
| `DiskGuard` | the emergency flag over all passes |

## What does not hold, and exactly when it does

- The ports in use are not always the ports held: `ReserveDeclared` can move a
  key without freeing its old port. They are equal exactly on runs without such a
  move (`EveryTakenPortIsHeldUnlessAKeyMoved`).
- A rewritten compose entry reads back exactly when it is `Printable`: a short
  entry needs a bind address without `$`, and without `/` unless the protocol is
  udp, and a container port of at most 16 bits (`ParseUndoesRewrite`).
- A target whose request gave way to another transition is not always answered.
  `FateOfARefusedTarget` says exactly when: the holder of the lock leaves in one
  of five ways, and it answers if and only if it compares. It compares if its
  transition ended with success or canceled and the requested-state row is there
  (`NoStrandedTarget`). It does not
  - when the row is missing: the target is then a teardown, or the row has been
    missing since the agent started or since the clean-up after a synchronisation
    took it (`WhyTheRowIsMissing`). An uninstall
    pushed while a removal runs is stranded so, because REMOVED deletes the row
    (`UninstallDuringRemovalIsStranded`);
  - when its transition takes no action: it publishes the state it finds and does
    not verify (`StopDuringNoActionIsStranded`);
  - when its transition fails or the disk guard refuses it: it publishes FAILED;
  - when it never starts one: the record could not be saved, there was no registry
    token, or the table has no such transition.
- A request is dropped for UPDATING although no update is in flight exactly when
  the agent started with UPDATING, or an update was unlocked with it still
  published, or a request adopted it from the cloud's view, or a transition
  without action published it again, and since then no other state was written and
  no update started (`LeftOverIffLeftBehind`, `DroppedWithoutUpdateIff`). A
  canceled update strands its own re-driven request that way
  (`CanceledUpdateIsStranded`), and so does an agent that ends in the middle of an
  update (`RestartDuringUpdateIsStranded`).
- An app rests away from its target, with nobody working on it, only when it has
  done so since the agent started, or after one of the steps listed by `Unheeded`
  (`WhyAnAppRestsAwayFromItsTarget`). One of them is the correction of app states
  at start and on every reconnect: it publishes what docker shows, without the
  lock and without a request (`CorrectedAppIsStranded`).
- A running PROD app with target PUBLISHED is re-driven without end, since its
  transition reports success and does nothing; every other chain stops after at
  most four requests (`ChainIsBoundedExactlyWhenItDoesNotSpin`).
- The cancel function registered for an app is a transition's own if and only if
  the transition registered it and no other transition of the app has registered,
  or returned after registering, since (`OwnCancelIff`). The lock keeps others
  away (`LockKeepsTheRegistration`), but a cancel request runs the table's entry
  for the current state without the lock: in every state but six
  (`InstallingStates`) one can install, and it displaces whatever is registered
  (`InstallBesideDisplaces`).
- A compose update publishes UPDATING before it registers its cancel function; a
  cancel in between finds nothing (`UnregisteredIsNotFound`,
  `CancelBeforeRegistrationIsLost`).
- `Close` leaves no client behind exactly when no connection attempt is in flight
  (`CloseIsFinalUnlessDialing`, `AttemptInFlightCanInstall`).
- A bind error is searched for ":" and the port's digits. In every message the
  agent reads exactly the ports the message names and those that remain when last
  digits are cut off (`MentionedIffHeadsANamedPort`), so a key on 4000 is also
  reassigned for a conflict on 40001 (`ConflictOn40001Strikes4000`); two pool
  ports are always told apart (`PoolPortsAreToldApart`).

Where code and comments disagree the model follows the code. The comment at
src/logging/query.go:29-31 says that a deep page is refused; the code clamps the
read to 5000 lines and answers, and beyond the cap it answers nothing without
marking the answer truncated. The comment at src/apps/hostports_resolve.go:55-57
says that resolving a tunnel never allocates a pool port; it does when the port to
recover is taken.

## Model

| member | source | states |
|---|---|---|
| HostPorts.ScanIsLeastAndComplete | src/apps/hostports.go:180-193 | the scan returns the smallest pool port neither in use nor refused by the probe, and fails, changing nothing, exactly when there is none |
| HostPorts.ScanSucceedsUnlessPoolIsFull | src/apps/hostports.go:180-193 | by pigeonhole the scan succeeds while fewer than 10000 pool ports are in use or refused |
| HostPorts.FailureLeaves | src/apps/hostports.go:108-161 | a failed recover or declare changes nothing; a failed reassign unassigns its own key and frees that key's port only |
| HostPorts.RecoverGives | src/apps/hostports.go:108-124 | the held port, else the preferred one if there is one and it is free, else the scan's |
| HostPorts.DeclareGives | src/apps/hostports.go:132-146 | the key's own port unless another has it |
| HostPorts.ReleaseLeaves | src/apps/hostports.go:165-175 | a release drops exactly the keys of that app in that stage and frees exactly their ports |
| HostPorts.StepKeepsExclusive | src/apps/hostports.go:108-198 | every call keeps the grants of different keys on different ports, all in use, covering all assignments |
| HostPorts.RunIsExclusive | src/apps/hostports.go:108-198 | after any sequence of calls the assignment is injective and its image lies in the used ports |
| HostPorts.PortChangesHandsOnlyAfterItsGrantEnds | src/apps/hostports.go:108-175 | a port handed to a key goes to another key only after the first was reassigned or its app released, even if a declare moved it meanwhile |
| HostPorts.GrantsAreOfFreePorts | src/apps/hostports.go:108-193 | no call hands out a port another key still has a live grant for |
| HostPorts.StepLeaks | src/apps/hostports.go:132-146 | a call makes a used port ownerless only by declaring a key that held another port, and then exactly that port |
| HostPorts.LeaksOnlyByMoving | src/apps/hostports.go:132-146 | a run leaves ownerless ports if and only if some declare in it moved a key |
| HostPorts.EveryTakenPortIsHeldUnlessAKeyMoved | src/apps/hostports.go:132-146 | used ports equal held ports after a run if and only if no declare moved a key |
| HostPorts.RecoveredThenDeclared | src/apps/hostports.go:108-146 | a run in which a key recovered on a remembered port declares its own: the remembered port stays taken and nobody holds it |
| HostPorts.HeldKeyKeepsItsPort | src/apps/hostports.go:108-124 | a held key keeps its port through any calls that do not reassign, declare or release it, and recovering it returns that port whatever is preferred |
| HostPorts.LivePersists | src/apps/hostports.go:151-175 | a grant outlives every history that neither reassigns its key nor releases its app |
| HostPorts.HostPortRegistry.GetByPort | src/apps/hostports.go:88-98 | some assignment of the declared port whatever its service, none exactly when there is none |
| HostPorts.HostPortRegistry.RecoverOrReserve | src/apps/hostports.go:108-124 | both maps and the result change as the registry's call model says, and the history grows by this call |
| HostPorts.HostPortRegistry.ReserveDeclared | src/apps/hostports.go:132-146 | the same for declaring a key's own port |
| HostPorts.HostPortRegistry.ReassignFresh | src/apps/hostports.go:151-161 | the same for dropping the key's port and scanning anew |
| HostPorts.HostPortRegistry.ReleaseApp | src/apps/hostports.go:165-175 | the loop removes exactly the app's keys and their ports |
| HostPorts.HostPortRegistry.ReserveFreeLocked | src/apps/hostports.go:180-193 | the loop finds the least free port or leaves the registry alone |
| Texts.FormatReadsBack | src/apps/compose_ports.go:199-215 | a printed port is digits and reads back as its number |
| Texts.SplitConcat | src/apps/compose_ports.go:104-142 | splitting text joined by a separator gives the parts of both sides |
| Texts.JoinUndoesSplit | src/apps/compose_ports.go:104-142 | joining the split parts gives the text back, so a bind address with colons survives |
| Texts.LettersHaveTwoCases | src/apps/compose_ports.go:114-114 | lower and upper case undo each other on the 26 letters and leave everything else alone |
| AuthoredPorts.ShortMeans | src/apps/compose_ports.go:104-142 | a short entry of any form is understood exactly when it holds no variable, names tcp or udp or nothing, and has numbers for ports; its parts are then address, host port, container port and protocol by their places |
| AuthoredPorts.EveryTextHasAForm | src/apps/compose_ports.go:104-142 | every text is of one of these forms, so nothing is left out |
| AuthoredPorts.WrittenPorts | src/apps/compose_ports.go:104-142 | the forms with plain numbers, alone, with /tcp and with /udp, parse to those numbers |
| AuthoredPorts.NumbersMean | src/apps/compose_ports.go:81-100 | a bare number is a container port without host port |
| AuthoredPorts.LongMeans | src/apps/compose_ports.go:144-194 | a long entry is understood exactly when target and protocol are and published, if there, is; each field stands for its name |
| AuthoredPorts.RuleMatchesAuthored | src/apps/compose_ports.go:36-46 | a rule matches an authored entry by its host port, or its container port without one, and by protocol |
| ComposePorts.ParsePrintedSpec | src/apps/compose_ports.go:104-142 | a printed address, host port and container port parse back exactly when both ports are in 1..65535 |
| ComposePorts.UdpRoundTrip | src/apps/compose_ports.go:104-215 | a printed udp entry parses back unless the address holds a dollar sign or a port does not fit |
| ComposePorts.TcpRoundTrip | src/apps/compose_ports.go:104-215 | a printed tcp entry parses back unless the address also holds a slash |
| ComposePorts.ShortRoundTrip | src/apps/compose_ports.go:81-215 | short syntax parses back to address, new host port, same container port and protocol exactly when printable |
| ComposePorts.LongRoundTrip | src/apps/compose_ports.go:144-215 | long syntax does so exactly when the host port is in 1..65535 |
| ComposePorts.ParseUndoesRewrite | src/apps/compose_ports.go:81-215 | parsing a rewritten entry gives back everything but host address and port, if and only if it is printable |
| ComposePorts.ManagedRoundTrip | src/apps/hostports_resolve.go:374-374 | the same for the address the agent always binds |
| ComposePorts.LongSyntaxKeepsOtherKeys | src/apps/compose_ports.go:199-215 | rewriting long syntax changes no key but the published port and the host address |
| ComposePorts.AuthoredShortEntryIsPrintable | src/apps/compose_ports.go:104-181 | every short entry the parser accepts is printable on the agent's address |
| ComposeRewrite.FindRule | src/apps/hostports_resolve.go:337-343 | the first matching rule is returned, none exactly when there is none |
| ComposeRewrite.RuleForMeans | src/apps/hostports_resolve.go:340-340 | which rules match an entry, in their fields |
| ComposeRewrite.ReserveEntry | src/apps/hostports_resolve.go:356-372 | the handed port is a live grant of the entry's key; a held key gets its port back, a fresh one the preferred port if free, a DEV entry its declared port if free |
| ComposeRewrite.RewriteOne | src/apps/hostports_resolve.go:327-375 | unmanaged and unpublished entries stay identical; every other publishes the port granted to its key: the one held, or the one the running project publishes, else the one the first matching rule remembers, if free, or for DEV without either the declared one; it fails only after a call that handed out no port |
| ComposeRewrite.RewriteService | src/apps/hostports_resolve.go:326-377 | number and order of a service's entries are kept, each rewritten as stated, and every call on the registry recovers an entry's key with the port wanted for it |
| ComposeRewrite.RewriteCompose | src/apps/hostports_resolve.go:300-381 | all services are kept and rewritten, in any order of the walk, by such calls only; it fails only after a call that handed out no port and leaves the rest as authored; new keys come only from entries |
| ComposeRewrite.RewrittenEntriesNeverCollide | src/apps/hostports_resolve.go:300-381 | two rewritten entries of any apps at any moments, with different keys neither reassigned nor released since, publish different host ports |
| ComposeRewrite.FindComposeRulePort | src/apps/hostports_resolve.go:123-133 | the service of an entry the rule refers to and the port the running project publishes it on, or nothing |
| ComposeRewrite.PublishedKeysDiffer | src/apps/hostports_resolve.go:36-47 | the keys of what the running project publishes tell port and protocol apart |
| ComposeRewrite.TunnelCandidate | src/apps/hostports_resolve.go:69-106 | the port to recover is what docker binds or publishes, else what the cloud remembers; a compose rule is keyed by the entry it refers to |
| ComposeRewrite.ResolveTunnel | src/apps/hostports_resolve.go:61-118 | a known port is returned unchanged; otherwise the port to recover is recorded under one new key if free, a pool port if not, nothing if there is none to recover, and a host-network container is dialed as it is |
| ComposeRewrite.TunnelAndComposeAgree | src/apps/hostports_resolve.go:61-381 | tunnel resolver and rewrite in either order, with other calls in between, leave one assignment for the rule, and the compose file publishes what the tunnel dials |
| ComposeRewrite.BystandersKeepSoleKey | src/apps/hostports.go:88-175 | calls for other keys never add a second key for the rule |
| LaunchPorts.ReserveLaunch | src/apps/hostports_resolve.go:140-153 | the handed port is a live grant of the rule's key; a held key gets its port back, a fresh one what docker binds or the cloud remembers if free, a DEV rule its declared port if free |
| LaunchPorts.TunnelAndLaunchAgree | src/apps/hostports_resolve.go:61-153 | launch and tunnel resolver in either order, with other calls in between, leave one assignment for the rule and return one port, but for a container still on the host network |
| BindConflict.ReassignAfterConflict | src/apps/hostports_resolve.go:444-472 | exactly the given keys whose port the error mentions move into the pool or lose their port; the answer is true if and only if one of them was handed a port |
| BindConflict.ReassignComposePorts | src/apps/hostports_resolve.go:437-473 | the same for the keys of exactly the rewritable entries of a compose app |
| BindConflict.ReassignRulePorts | src/apps/hostports_resolve.go:490-520 | the same for the keys of exactly the rules without a local address |
| BindConflict.ComposeKeys | src/apps/compose_ports.go:52-79 | the walk over all services, in any order, collects the keys of exactly the rewritable entries |
| BindConflict.Contains | src/apps/hostports_resolve.go:458-458 | the text search finds an occurrence exactly when there is one |
| BindConflict.PrefixIffHeads | src/apps/hostports_resolve.go:458-458 | one port's digits begin another's exactly when it is the other with last digits cut off |
| BindConflict.MentionedIffHeadsANamedPort | src/apps/hostports_resolve.go:458-458 | in every message the agent reads exactly the ports named after a colon and those that head them |
| BindConflict.MentionedIffHeads | src/apps/hostports_resolve.go:458-458 | a message that names one port, whatever other colons it holds, strikes exactly that port and those that head it |
| BindConflict.BindFailureStrikesHeads | src/apps/hostports_resolve.go:479-485 | the same for docker's own message, for every port |
| BindConflict.ConflictOn40001Strikes4000 | src/apps/hostports_resolve.go:458-458 | docker's message about 40001 strikes 4000 and does not strike 40002 |
| BindConflict.PoolPortsAreToldApart | src/apps/hostports_resolve.go:458-458 | no pool port is taken for another |
| AppStates.EveryWriteKeepsTheRow | src/persistence/database.go:110-200 | every write keeps the row on the live target and lets it go missing only with a teardown as target, but for the clean-up |
| AppStates.PushIsStored | src/apps/app_manager.go:814-849 | a push stores its target and its own row, and changes nothing, exactly for a built app on its way elsewhere that is not torn down |
| AppStates.RequestAdopts | src/apps/app_manager.go:780-812 | a request takes over the reported state only for a built, published or to-be-built app, and a version whenever it names one |
| AppStates.UpdateIsChosenIff | src/apps/state_machine.go:288-301 | the update runs exactly when the request asks for a version the app does not have and does not uninstall |
| AppStates.ActualStates | src/common/constants.go:66-83 | what a stored target stands for: never a state an app only passes through |
| AppStates.FullDiskRefuses | src/common/constants.go:51-64 | on a full disk every target that some transition reaches by using disk is refused, and teardown never is |
| AppStates.TowardsPresent | src/apps/state_machine.go:117-230 | the table's column for PRESENT |
| AppStates.TowardsRunning | src/apps/state_machine.go:117-230 | the table's column for RUNNING |
| AppStates.TowardsBuiltAndPublished | src/apps/state_machine.go:117-230 | the table's columns for BUILT and PUBLISHED |
| AppStates.TowardsTeardown | src/apps/state_machine.go:117-230 | the table's columns for REMOVED and UNINSTALLED |
| AppStates.TowardsNothingElse | src/apps/state_machine.go:117-230 | no other state is a target |
| Controller.LockIsBalanced | src/apps/app_manager.go:291-334 | in every run the lock history is acquires each followed by a release by the same holder, nobody acquires twice, and at most one thread is in the locked section |
| Controller.EveryStepTreatsThreads | src/apps/app_manager.go:225-394 | every step of every thread enters, continues or leaves the locked section, or stays outside it |
| Controller.HolderReleases | src/common/types.go:51-61 | whoever releases the lock is the one who holds it |
| Controller.InvAlways | src/apps/app_manager.go:225-394 | the lock is consistent with the threads, balanced and acquired once each in every reachable state |
| Targets.FateOfARefusedTarget | src/apps/app_manager.go:291-394 | a holder a request gave way to leaves in one of five ways; it answered if and only if it compared, verified if and only if its transition ended with success or canceled, and each other way has its exact cause |
| Targets.NoStrandedTarget | src/apps/app_manager.go:269-369 | after a success or a cancel the holder read the row after the request gave way, and settled or re-drove the target stored then, unless the row was missing for one of the reasons of `WhyTheRowIsMissing` |
| Targets.FinishedIffCourse | src/apps/app_manager.go:332-369 | how far a holder has come tells exactly how its transition ended |
| Targets.CourseWasTurnedTo | src/apps/app_manager.go:332-369 | whoever verifies, fails or idles has a matching end of its transition in the past |
| Targets.CourseStays | src/apps/app_manager.go:332-394 | the end of a transition decides the holder's course until it is gone |
| Targets.ComparedRowWasRead | src/apps/app_manager.go:706-750 | the row a thread compares is the one it read from the store at an earlier step |
| Targets.ComparisonAnswers | src/apps/app_manager.go:706-750 | a comparison of a holder reads the row after the request gave way, with the target stored then, and settles or spawns a request from it |
| Targets.CompareSpawnsIff | src/apps/app_manager.go:724-775 | a comparison spawns a request for the row if and only if the app has not failed and is away from its target or the row asks for a version it does not have, and touches nothing else |
| Targets.StoredInEveryRun | src/apps/app_manager.go:814-849 | in every run a push or a synchronisation leaves its target and row unless it is kept out, and a push starts its request |
| Targets.EnterDecides | src/apps/app_manager.go:255-279 | which requests cancel, which are dropped, and which go on |
| Targets.TransitionsKeepToTheirScript | src/apps/update_app.go:19-143 | an update publishes UPDATING, installs, publishes PRESENT, writes its row and then succeeds, in this order; no other transition publishes UPDATING, and one without action publishes nothing |
| Targets.CancelsEndAtAnyTime | src/apps/state_machine.go:258-270 | a cancel's transition ends at any time and leaves without verification |
| Targets.ReportsAndCorrections | src/apps/state_observer.go:663-700 | what observers and corrections publish, and when a request follows |
| Targets.ResetsAndRetries | src/apps/app_manager.go:398-422 | a failed transfer resets its app, a finished build is put to PRESENT, a retry requests its target while the app is elsewhere |
| Targets.WhyTheRowIsMissing | src/apps/app_manager.go:563-658 | a row is missing with no teardown as target only because it has been missing since the start or since the clean-up took it |
| Targets.TargetStays | src/apps/app_manager.go:814-849 | only a push or a synchronisation changes an app's target |
| Rest.LeftOverIffLeftBehind | src/apps/app_manager.go:269-279 | UPDATING is published with no update in flight if and only if the agent started with it or one of three steps left it behind, and nothing has been written or started since |
| Rest.DroppedWithoutUpdateIff | src/apps/app_manager.go:269-279 | a request is dropped with no update in flight if and only if UPDATING was loaded or left behind, it is no cancel, and its target stops no update; every other dropped one gives way to the holder |
| Rest.WhyAnAppRestsAwayFromItsTarget | src/apps/app_manager.go:225-394 | an app nobody works on that is neither at its target nor FAILED has been so since the agent started, or was put there by one listed step, `CorrectAppStates` among them, and nobody has worked on it since |
| StrandedRuns.UninstallDuringRemovalIsStranded | src/apps/state_observer.go:73-132 | a run that ends with the app removed, an uninstall stored, the row gone, and nobody working on it |
| StrandedRuns.StopDuringNoActionIsStranded | src/apps/app_manager.go:336-349 | a run that ends with the app running, a stop stored in the row, and nobody working on it |
| StrandedRuns.CanceledUpdateIsStranded | src/apps/app_manager.go:269-279 | a run that ends with UPDATING left behind, RUNNING stored, and nobody working on it |
| StrandedRuns.RestartDuringUpdateIsStranded | src/agent.go:407-436 | a run that starts with UPDATING loaded and drops the request for the stored row |
| StrandedRuns.CorrectedAppIsStranded | src/apps/state_observer.go:382-547 | a run in which a correction takes an app at rest away from its target and nothing follows |
| Redrive.UpdateClosesBothGates | src/apps/update_app.go:123-169 | a completed update closes the gate `VerifyState` looks through and the gate the next transition is chosen by |
| Redrive.TableReachesTarget | src/apps/state_machine.go:117-230 | every table transition a PROD app can complete ends in the requested state, with two named exceptions |
| Redrive.PublishAllLeaves | src/apps/state_observer.go:73-132 | after publishing, the row is gone, refreshed with state and version, or untouched because one state was published throughout |
| Redrive.RoundLowersRank | src/apps/app_manager.go:723-750 | every re-driven request strictly lowers the rank of open gate and distance to target, unless it spins |
| Redrive.ChainIsBounded | src/apps/app_manager.go:706-778 | a chain that does not spin runs at most four requests, whatever succeeds or fails |
| Redrive.SpinningChainNeverEnds | src/apps/state_machine.go:117-230 | a running app with target PUBLISHED is re-driven any number of times |
| Redrive.ChainIsBoundedExactlyWhenItDoesNotSpin | src/apps/app_manager.go:706-778 | the bound holds for every behaviour of the environment if and only if the chain does not start spinning |
| Redrive.AnyRequestChainIsBounded | src/apps/app_manager.go:225-394 | a chain started by any request stops after at most five unless it reaches the spinning pair |
| Redrive.SuccessfulChainReachesItsTarget | src/apps/app_manager.go:706-778 | when every transition succeeds, a chain that does not spin ends with the app at its target and no update pending, or for one of the listed reasons |
| Redrive.StoppedChainEnds | src/apps/app_manager.go:225-394 | the same for a chain started by any request, once it has stopped |
| Redrive.RefusalLeavesFailed | src/apps/state_machine.go:272-281 | a request the disk guard refuses leaves the app FAILED with target and row, and leads to no other |
| Redrive.FailureLeavesFailed | src/apps/app_manager.go:370-390 | so does a transition that fails or cannot be completed; the row is kept unless REMOVED was published |
| Redrive.LostTokenChangesNothing | src/apps/app_manager.go:317-322 | a request without a token ends where it was prepared |
| OneRequest.VerifySpawnsWhatItDecides | src/apps/app_manager.go:706-750 | in the controller, reading the row and comparing spawn exactly what `VerifyState` decides |
| OneRequest.RequestRunsItsRound | src/apps/app_manager.go:225-394 | a request nobody interferes with has a run in the controller that leaves the record of its round, releases the lock and spawns exactly the next request of the chain |
| OneRequest.CancelRunsItsRound | src/apps/state_machine.go:258-270 | so has a cancel, which never touches the lock and leads to no other request |
| OneRequest.DroppedAsItsRoundSays | src/apps/app_manager.go:269-279 | and a request dropped while the app is UPDATING |
| Redrive.AppManager.CreateOrUpdateApp | src/apps/app_manager.go:814-849 | a push leaves its target and row, or nothing for a built app that is under way and not torn down |
| Redrive.AppManager.UpdateCurrentAppState | src/apps/app_manager.go:780-812 | a request adopts state and version and saves the record |
| Redrive.SuccessIsNeverBuilt | src/apps/app_manager.go:767-775 | no transition a PROD app completes ends BUILT, so verification promotes nothing in the chain |
| Redrive.AppManager.RequestAppState | src/apps/app_manager.go:225-394 | one request from admission to verification and promotion, cancels included; unless it cancels, is dropped or refused, the lock is taken and given back once, around everything its transition publishes, an update UPDATING and then PRESENT |
| Redrive.AppManager.Redrive | src/apps/app_manager.go:723-750 | driving the stored row until nothing is left to spawn takes at most four requests unless it spins |
| ComposeCancel.OwnCancelIff | src/apps/state_machine.go:83-97 | the registered cancel is a transition's own if and only if it registered and no other of the app registered, or returned after registering, since |
| ComposeCancel.CancelableIffUndisplaced | src/apps/pull_app.go:21-62 | from publishing DOWNLOADING until it returns, an install has registered, and the registered cancel is its own if and only if nothing displaced it |
| ComposeCancel.LockKeepsTheRegistration | src/apps/run_app.go:330-355 | as long as no cancel request starts an install, every registered transition, so every downloading install, has its own cancel registered |
| ComposeCancel.CancelReachesItsTransitionIff | src/apps/state_machine.go:101-111 | a lookup and its call cancel a transition if and only if it was undisplaced at the lookup |
| ComposeCancel.CancelIsNeverLost | src/apps/update_app.go:176-181 | after such a call every later command error of the transition counts as canceled |
| ComposeCancel.ErrorIsCanceledIff | src/apps/update_app.go:176-181 | a command's error counts as canceled if and only if somebody has called the cancel function of that very transition |
| ComposeCancel.ReturnsOnceEnded | src/apps/pull_app.go:42-107 | a transition returns, and so clears its registration, exactly once its work has ended |
| ComposeCancel.CancelHitsItsOwnApp | src/apps/state_machine.go:101-111 | whatever a cancel cancels is a transition of the app it was sent for |
| ComposeCancel.InstallingStates | src/apps/state_machine.go:117-230 | some cancel request installs in every state of the app but six |
| ComposeCancel.InstallBesideDisplaces | src/apps/state_machine.go:258-270 | whenever the table's entry for the current state installs, a cancel request can start an install that displaces what is registered |
| ComposeCancel.UnregisteredIsNotFound | src/apps/update_app.go:183-218 | a transition that has not registered, such as an update that has only published, is found by no lookup |
| ComposeCancel.CancelBeforeRegistrationIsLost | src/apps/update_app.go:176-218 | a run in which a cancel before the registration does nothing and the update fails |
| Reconnect.ExactlyOneToken | src/messenger/wamp.go:197-287 | never two goroutines can reconnect; exactly one from the first success until close; a live watcher watches the newest connection |
| Reconnect.ChannelIsClosedOnceByItsHeartbeat | src/messenger/wamp.go:296-349 | no heartbeat is left for a closed channel, so it is closed at most once, and only by its own generation's heartbeat |
| Reconnect.SecondFailureSignals | src/messenger/wamp.go:308-347 | a status update closes the channel if and only if it fails and the one before failed too with no lost connection seen in between, and the parked watcher can then fire |
| Reconnect.CountIsTheRuns | src/messenger/wamp.go:308-347 | the failure count is what the run says about the last update |
| Reconnect.UpdateFollowsAClient | src/messenger/wamp.go:325-333 | a status update is sent only right after the heartbeat has seen a client |
| Reconnect.WatcherFiresAndDials | src/messenger/wamp.go:272-287 | a watcher fires exactly when its client is done or its heartbeat gave up, and then dials again |
| Reconnect.ClosingTheClientWakesItsWatcher | src/messenger/wamp.go:717-744 | what `Reconnect`, `Close` and a lost transport do to client and watcher |
| Reconnect.InstallsTheNewest | src/messenger/wamp.go:197-233 | a dialed connection becomes the newest; only the first connect gives up on a failed testament |
| Reconnect.StaleHeartbeatIsHarmless | src/messenger/wamp.go:296-349 | a heartbeat of a replaced connection changes neither connection nor token and wakes no watcher |
| Reconnect.AtMostOneLateUpdate | src/messenger/wamp.go:296-349 | in no run does one heartbeat send two status updates after its connection was replaced |
| Reconnect.InvAlways | src/messenger/wamp.go:197-349 | the invariants behind these hold in every reachable state |
| Reconnect.CloseIsFinalUnlessDialing | src/messenger/wamp.go:733-744 | with no attempt in flight a closed session never gets a client again |
| Reconnect.AttemptInFlightCanInstall | src/messenger/wamp.go:197-211 | with an attempt in flight, closed or not, the run can go on to install its client |
| Reconnect.CloseDuringDialLeaksTheClient | src/messenger/wamp.go:197-245 | a run that ends closed with an installed client nobody will close |
| Observers.EveryEntryHasItsPoller | src/apps/state_observer.go:149-223 | every registered name has a running poller of that name, even if the environment replaces entries |
| Observers.EntryOutlivesForeignCleanups | src/apps/state_observer.go:44-52 | no other poller's cleanup and no second add touches an entry |
| Observers.ReplacementSurvives | src/apps/state_observer.go:44-52 | a replacement stays until its own poller ends or it is replaced in turn |
| Observers.NamesAndPollersAreInBijection | src/apps/state_observer.go:167-223 | registered names and running pollers are in bijection in every interleaving, but for the one whose adder still holds the mutex |
| Observers.CleanupFreesExactlyItsName | src/apps/state_observer.go:573-583 | a poller that ends takes exactly its own name with it |
| Observers.ReturnsBeforeCleanup | src/apps/state_observer.go:573-583 | a poller cleans up exactly when it has left its loop and the mutex is free |
| Observers.StateObserver.Add | src/apps/state_observer.go:203-222 | an entry is created exactly when the name had none |
| Observers.StateObserver.RemoveOwnObserver | src/apps/state_observer.go:44-52 | entries with another context survive |
| LogLines.TrimToBytes | src/logging/query.go:281-298 | the result is the longest suffix within the limit, cut exactly when the whole is larger |
| LogBatcher.FittingIsLongest | src/logging/applog.go:189-226 | the kept lines are the longest prefix whose summed length plus one fits a flush |
| LogBatcher.WriteLines | src/logging/applog.go:202-215 | the flush loop writes exactly that prefix, joined by newlines without leading empty lines |
| LogBatcher.Render | src/logging/applog.go:202-225 | the text is the shown lines and, if lines were dropped, the marker |
| LogBatcher.MessageIsBounded | src/logging/applog.go:189-226 | a message without its marker stays within the flush limit |
| LogBatcher.ReaderRecoversTheLines | src/logging/applog.go:136-226 | splitting a message on newlines gives back the shown lines and the marker |
| LogBatcher.MarkerTellsTheDrops | src/logging/applog.go:217-222 | a message ends in a marker exactly when lines were dropped, and the marker tells how many |
| LogBatcher.LinesAreConserved | src/logging/applog.go:159-226 | over every run, with adds during a flush, lines added are lines kept, reported dropped, waiting, or dropped and unreported |
| LogBatcher.FinalFlushAccountsForEverything | src/logging/applog.go:159-234 | after the last flush every line is in a message or counted in a marker |
| LogBatcher.EveryFlushIsPublished | src/logging/applog.go:189-226 | the published messages are those of the flushes in order, empty ones left out |
| LogBatcher.OrderIsKept | src/logging/applog.go:177-226 | kept and waiting lines are a subsequence of the lines added |
| LogBatcher.BufferStaysBounded | src/logging/applog.go:177-187 | the byte count is the buffered size and never exceeds its bound |
| LogBatcher.AddBuffersIffItFits | src/logging/applog.go:177-187 | in every run a line is buffered if and only if it still fits, and counted as dropped otherwise |
| LogBatcher.Batcher.Add | src/logging/applog.go:177-187 | a line is buffered, or counted as dropped when the buffer is full |
| LogBatcher.Batcher.Flush | src/logging/applog.go:189-226 | the buffer is emptied and its message published |
| LogQuery.TakePage | src/logging/query.go:112-125 | the page before the newest `offset` lines, cut exactly when more was read than it reaches back |
| LogQuery.QueryLogs | src/logging/query.go:82-142 | for any answer of the store, the page cut to the longest suffix within the byte limit, and when it counts as truncated |
| LogQuery.PageIsTheWindow | src/logging/query.go:87-125 | reading only the fetch bound answers the window of the whole log, the line cut never fires, and a wrapped sum changes nothing |
| LogQuery.QueryStore | src/logging/query.go:82-142 | against a store that serves its newest lines, the answer is the window's longest suffix that fits, truncated exactly by the byte limit |
| LogQuery.EmptyExactlyBeyondTheCap | src/logging/query.go:97-119 | nothing is answered exactly when the offset passes the log or the line cap |
| LogQuery.PagesTile | src/logging/query.go:87-125 | successive pages join without gap or overlap into the newest lines, up to the cap |
| AgentLog.QueryAgentLog | src/logging/agentlog.go:85-170 | the one-pass loop equals annotate, filter, last `tail`, longest suffix within the limit; truncated exactly when a cut took a line |
| AgentLog.ScanLine | src/logging/agentlog.go:127-158 | one line moves the loop's variables from the specification of the lines before to that including it |
| AgentLog.ScanFile | src/logging/agentlog.go:124-159 | the same for a whole file |
| AgentLog.CarriedAppend | src/logging/agentlog.go:133-140 | the carried stamp and severity are those of the nearest record at or before a line |
| AgentLog.RenderedIsItsWords | src/logging/agentlog.go:179-216 | a record with a time, a level or a message is rendered as its words, any other line as it stands |
| AgentLog.OneLineOneFile | src/logging/agentlog.go:113-131 | blank lines are left out and nothing else; files that do not open are passed over and not counted |
| AgentLog.LinesGoInOrder | src/logging/agentlog.go:124-131 | the lines of a file are read one after the other |
| AgentLog.FilesGoInOrder | src/logging/agentlog.go:113-123 | the files are read one after the other |
| AgentLog.WantedMeans | src/logging/agentlog.go:146-154 | severe enough, not before `since` and not after `until` where there is a stamp |
| AgentLog.FirstStampIsFirst | src/logging/agentlog.go:142-144 | the oldest stamp is that of the first line that has one |
| AgentLog.LevelsAreOrdered | src/logging/agentlog.go:34-47 | the severities in order, unknown ones as info |
| Transfer.DecodeUndoesEncode | src/filesystem/transfer.go:156-159 | decoding an encoding gives the bytes back |
| Transfer.EncodeUndoesDecode | src/filesystem/transfer.go:156-159 | whatever decodes is an encoding, up to letter case |
| Transfer.DecodableIffHexPairs | src/filesystem/transfer.go:156-159 | text decodes exactly when it is pairs of hex digits |
| Transfer.CaseDoesNotMatter | src/filesystem/transfer.go:156-159 | upper and lower case decode alike |
| Transfer.DataIsNeverAControlWord | src/filesystem/transfer.go:83-115 | no data chunk is taken for BEGIN or END |
| Transfer.SupersededChunksChangeNothing | src/filesystem/transfer.go:115-150 | data and END of another transfer change nothing while the active one is not canceled |
| Transfer.BeginTakesTheSlot | src/filesystem/transfer.go:83-110 | a BEGIN takes the slot with an empty file, or frees it if the file cannot be opened |
| Transfer.EndFreesTheSlot | src/filesystem/transfer.go:112-144 | the active transfer's END frees the slot and leaves the file; without a transfer nothing happens |
| Transfer.DataIsAppendedOrRefused | src/filesystem/transfer.go:146-167 | data is refused for a canceled transfer or when it is no hex, changing nothing, and appended otherwise |
| Transfer.FileIsThePayload | src/filesystem/transfer.go:80-170 | from a BEGIN on, the file is the chunks bearing its ID up to a cancel, and the counter its length |
| Transfer.ActiveSlotHasItsBegin | src/filesystem/transfer.go:80-170 | a slot is active only through a BEGIN that nothing has ended or replaced since |
| Transfer.ActiveFileIsItsPayload | src/filesystem/transfer.go:42-170 | for any sequence of calls the active transfer's file is what was delivered under its ID since its last BEGIN |
| Transfer.TransferDeliversTheFile | src/filesystem/transfer.go:80-170 | a whole transfer, sent in any pieces amid superseded and foreign calls, leaves exactly the sent bytes and a free slot |
| Transfer.Filesystem.CancelFileTransfer | src/filesystem/transfer.go:42-55 | marks the slot's transfer canceled, if there is one |
| Transfer.Filesystem.CleanupFailedTransfer | src/filesystem/transfer.go:59-67 | frees the slot |
| Transfer.Filesystem.Write | src/filesystem/transfer.go:80-170 | state and outcome of one chunk, and the counter stays the file's length |
| DiskGuard.LatchMeaning | src/diskguard/diskguard.go:264-282 | the latch is on exactly when some reading was critical and none since reached the warning threshold |
| DiskGuard.RisesMinusFalls | src/diskguard/diskguard.go:264-282 | entries minus exits is one exactly while the latch is on |
| DiskGuard.PassRefines | src/diskguard/diskguard.go:246-262 | a pass keeps the flag and the recoveries in step with the latch over all its readings, although it skips some updates |
| DiskGuard.FlagIsTheLatchOverAllReadings | src/diskguard/diskguard.go:206-282 | over any passes the flag is the latch over all readings, recovery ran once per time it went off, entries minus recoveries is 0 or 1, and every critical reading stopped the foreign containers |
| DiskGuard.FlagIsUpBeforeCleanup | src/diskguard/diskguard.go:246-262 | a critical first reading raises the flag before cleanup starts; cleanup runs exactly below a threshold |
| DiskGuard.Guard.UpdateEmergency | src/diskguard/diskguard.go:266-282 | flag and effects of one reading |
| DiskGuard.Guard.RunOnce | src/diskguard/diskguard.go:246-262 | flag and effects of one pass |

## Left out

- Docker, the compose CLI, SQLite, WAMP, JSON decoding, time parsing and file systems are foreign; their outcomes are free choices of events or parameters.
- Storing a push, saving a state, deleting the rows of an app and an update's final row write are one step each; the source does not hold the state lock across the row write, so a finer interleaving of one write with another is not covered.
- The release key in the saved app state, errors of the database while a transition saves a state or a row is read, a port synchronisation that fails inside verification, and the timing of crash-loop retries are not modelled; a retry may come at any time.
- A transition that panics: transition functions, watchers and heartbeats return.
- Targets.NoStrandedTarget: only the target state is answered, not the version, because an update's final row write may overwrite a newer one.
- Rest.WhyAnAppRestsAwayFromItsTarget: a request refused by an observer's momentary probe is among the listed steps, because the source gives no guarantee there.
- ComposeRewrite.TunnelAndComposeAgree: only when the rule refers to exactly one entry and the registry knows the port under no other key, as the source's own comments require.
- LogQuery.PageIsTheWindow: for a store that serves its newest lines; the compose CLI applies the line count to each container of a project, which is not modelled.
- AgentLog.QueryAgentLog: takes the listed files as given; listing rotations and its errors are not modelled.
- Transfer.FileIsThePayload: every file write succeeds completely, and each container has its own path.
- The order in which Go walks a map is a free choice everywhere.
- White space and letter case are those of ASCII and Latin-1; a character stands for a byte where sizes are counted.
- The retry loops of `composeUp` and `startContainer` are counters around foreign calls; what they do to the registry between two attempts is `BindConflict`.
- Environment variables and credential files, tunnels, self update, network management, the API handlers, service installation and code signing pass arguments to other programs and keep no state that the modelled protocols share.

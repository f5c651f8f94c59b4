# A verified model of the dinit service manager

Dinit starts and stops services that depend on one another, takes requests over control sockets, and runs on the
dasynq event loop. This project models the parts of both whose correctness is not evident from any one function, in
Dafny, and proves what they are for:

- **Services** (`Service*.dfy`): the state machine of a whole set of services. The operations of `service.cc` on a
  service record are methods of one class, `ServiceSet`, whose fields are the records, the dependency links and the
  two queues. Each method keeps an invariant of the whole graph (`ServiceBooks.Order`), states what becomes of the
  service it is called for, and terminates, along the ranks of the dependency graph. `ServicePasses` says what each
  message, transition, request and piece of news leads to, as relations between the worlds before and after, and
  `ServiceSet.Run` that any sequence of events leads through worlds so related: a history. `ServiceGuarantees` and
  `ServicePins` say what holds in every world, and `ServiceHistories`, `ServiceAsking` and `ServiceStranding` what holds
  in every history from loading on: no start is lost, none happens before its dependencies run, nothing runs that nothing
  requires, no stop is forgotten, with the exact condition wherever the code does not see to it. `ServiceExamples` has a
  history for each of these conditions, from loading on, and `ServiceRuns` runs them. `ServiceQueues` is the
  queues of the set, and `ServiceTurns` what comes of a service being in one twice.
- **Settings** (`Characters`, `ConfigNames`, `References`, `Substitution`, `TokenSubstitution`, `SettingValues`): reading
  a setting's value into arguments, and substituting variables in it in place.
- **Graphs** (`CycleSearch`, `DependencyCycles`, `Loading`): the three searches for circular dependencies, and loading
  services with all that they depend on.
- **Containers** (`UnorderedSets`, `LinkedSets`, `Environments`): the hash set, the set that remembers its order, and
  environments, which are made of three hash sets.
- **Locking** (`WaitQueues`, `PollLocks`): the event loop's lock, over all interleavings of its critical sections.
- **Streams** (`RingBuffers`, `OutputStreams`, `InputStreams`, `ByteNumbers`, `EnvironmentBlocks`, `ControlFraming`,
  `ControlOutput`, `ServiceHandles`): the ring buffer and what is built on it, for every way in which the operating
  system may divide reads and writes; the handles of a control connection.

Files that follow C++ functions which change objects contain classes with the same fields and methods. A method is
proved against a specification that is written independently of it: a declarative function (`Flatten`, `Parts`,
`Packets`, `Variables`, `LinesOf`, `StatusIn`), a relation (`Spells`, `Loadable`, `Reaches`, `ReachesCycle`), a state
machine (`PollLocks.After`, `ControlFraming.Serve`) or an abstract value (`Contents()`, `Values()`, `Accepted()`).
The round trips and the all-inputs lemmas are then about those. `Wrappers` and `Sequences` are small helpers.

## Reading the contracts

**Services.** Services and links are addressed by index. The queues are sets, and the order in which entries are taken
is left open; the stacks that they are in the program are the subject of `ServiceQueues`, and `ServiceTurns` says why
sets will do. `BringUp` and `downAtOnce` say what `bring_up()` and `bring_down()` do. `ties` and `notes` are ghost
fields. `ties` repeats which links hold and wait for each service. A note has `surplus`, what was acquired twice,
`late`, a start that was reported to no one because of a pin, and `mask`, messages that a propagation pass is still to
act on; `ServiceHistories.NotesExactly` says when the first two change, in terms of the rest. `Ok()` is `Order`, the
invariant. The graph's rank is not a restriction: `DependencyCycles.AcyclicIsRanked` shows that a graph has one exactly
if it is acyclic, and `AddedAcyclic` that requests keep it acyclic. `StopRel(g, w, v, x)` bounds what a stop of `x` does
to other services, and `StopDone` says what becomes of `x` and its dependents.

The names of relations between worlds tell them apart: those in `Done` are single operations (`StartDone`, `UpDone`,
`DownDone`, `FailDone`, `ReleaseDone`, `RequireDone`), those in `Passed` one message of a propagation pass, those in
`Handled` events. A relation is exact where it can be, and otherwise says which parts of the world are as they were.

**Characters** stand for bytes, and the character classes are those of the classic locale.

**Read and write calls** are nondeterministic in how much they transfer. `EINTR` is retried in the code and not visible
in the model.

## What the code does that its callers might not expect

These follow from the code as it is, and are stated and proved as such.

- A service that fails to start while it is pinned started keeps what it holds: `release(false)` returns before a release
  is queued, and the pin is dropped only after that (`service.cc:191`, `552`). `FailedReleases` says when a service that
  fails is told to release its dependencies: exactly unless a pin held it, or it has yet to require them.
- `required_by` may exceed the number of holders: a `prop_require` pass acquires through links that already hold
  (`NotesExactly` says that the surplus grows exactly then, and by how much; `RequiredByIsExact` accounts for it). In
  `TwiceExample` a service fails to start while it is pinned, is started again, and stopped: its dependency is required
  ever after, by no one.
- `do_start()` re-attaches links that are ordering-only, as it does soft ones (`service.cc:348-360`, compare 531-534).
- `started()` returns early for a service that is pinned and must stop, without telling its dependents, whose links go
  on waiting on a started service (`late`). This happens if and only if a service comes up with `MustStop` and a start
  pin (`NotesExactly`), and needs no force: in `LateExample` a pinned service that is coming up is released, another
  service is started that depends on it, and waits for ever.
- `failed_to_start()` drops a start pin without telling the dependencies. The flags they hold stay right if and only if
  `PinNotMissed`, which looks at the world before the failure only; `StalePinExample` is a history in which one goes
  wrong for good.
- A service that was told to start and is no longer required by the time it passes that on starts all the same, and
  then nothing in the set stops it. `ToldUnasked` is the condition, on the world before the pass; `UnaskedExactly` the
  step, and `NothingRunsUnasked` the if-and-only-if for histories. `UnaskedExample`: of two dependencies one must not
  start, so that their dependent fails and lets go of the other, which has yet to pass its start on.
- `do_start()` returns a service that waits to stop to starting, and assumes in a comment that its dependencies, if they
  are stopping, are returned too (`service.cc:373-376`). If it has released them, they are not: they go on waiting for
  it to stop, and it waits for them to start. `Strands` says when, on the world before, and `StopsNotLost` is the
  if-and-only-if for histories; `StrandedExample` has three services.
- A start request for a service that has been told to stop, but has not passed that on, keeps its dependents from being
  told, and one of them may be brought up while it stops. It takes a request that comes with messages outstanding, which
  the program never makes (`service.h:1006-1018`), so no history is given; `BroughtUpOnDependencies` excludes such
  requests, and `DrainedIsEnough` shows that there are none if messages are passed on first.
- `is_queued()` does not see the service at the end of a queue, if it is behind others (`dinit-ll.h:125-129`), so that it
  can be queued a second time, in front of them (`Queue.Add`, `QueueTwice`). A second pass finds nothing to pass on
  (`SecondPass`), but a second transition is carried out: a service that has been launched is launched again
  (`LaunchedAgain`). For the state of the set this is no other than news of the process (`SecondTurn`).
- In all five histories of `ServiceExamples` passes come in the order of the stack that the program has, and requests
  come with no messages outstanding, so that they are runs of the program.
- An empty quoted argument takes no room. If it is all there is of a value, `+=` puts the first argument it adds where
  the empty one is, and substitution, whose positions must be apart, is not met with what it needs: exactly if
  `Collides` (`AddedSpells`, `AddedIsTokens`, `AccumulatedTokens`, `EmptyArgumentExample`).
- `get()` finds a name that has been undefined, if the process has it and nothing was cleared (`Environment.Get`).
- `unpin()` keeps `pinned_stopped` if the service is also pinned on account of a dependent, because it returns first.
- `prop_pin_dpt` is never cleared once set.
- A request to add a dependency of an invalid kind is answered as bad and is still carried out, if nothing else forbids
  it: two replies (`DependencySet.AddServiceDep`).
- A parent that uses selective import is not consulted as its child's commands suggest for some names.
  `Environment.BuildOver` gives the right value if and only if not `Slips`; `SlipsExample` has both ways to slip.
- `GETALLENV` leaves the length to wait for at two, so that a one-byte request behind it may wait for another byte
  before it is looked at: exactly if the input `EndsOverlooked` (`OverlooksExactly`, `PiecesDoNotMatter`,
  `OverlookedExample`).
- `get_remote_env()` does not look at whether the header of the reply arrived, and an information packet of length zero
  is not caught by `wait_for_reply()`. Where the program would go on with bytes it never received, the model stops with
  `Unguarded`; `Read` and `AfterInfo` say exactly when.
- A file that ends in a newline is read as having an empty last line (`LinesOf`).
- `erase()` does not adjust the count of a hash set, so that `size()` is only an upper bound (`Placed` and `Valid` have
  `|contents| <= currentSize`).

## Model

| member | source | states |
|---|---|---|
| `Services.ServiceSet.constructor` | cdinit/dinit/src/includes/service.h:475-522 | Stopped services that nothing holds are a service set in order, with no message outstanding and pins up to date |
| `Services.ServiceSet.Require` | cdinit/dinit/src/service.cc:166-176 | One more requirement on a service; it is told to start, and a release outstanding is called off, if it was not required; the count is ahead of its holders by one until the caller's link holds it |
| `Services.ServiceSet.Release` | cdinit/dinit/src/service.cc:178-207 | From a count that is one ahead back to order; the last release withdraws the wish to run, and a service that is neither pinned, stopped nor stopping then stops, with all that a stop leads to; otherwise only its own record changes |
| `Services.ServiceSet.Start` | cdinit/dinit/src/service.cc:222-235 | Marks a service started explicitly, once, and leaves it starting unless pinned stopped; nothing else about other services changes |
| `Services.ServiceSet.DoStart` | cdinit/dinit/src/service.cc:335-388 | Which links are re-attached and which are waited on; when the transition is queued; a service that is pinned stopped fails together with the dependents waiting for it |
| `Services.ServiceSet.InitiateStart` | cdinit/dinit/src/service.cc:237-248 | Waits on exactly the links whose targets must start first, and is queued at once if and only if there are none |
| `Services.ServiceSet.WaitForDependencies` | cdinit/dinit/src/service.cc:400-411 | The result says whether no link must be waited for; the links newly waiting are exactly those that must be |
| `Services.ServiceSet.HoldUpDependents` | cdinit/dinit/src/service.cc:413-421 | The ordering links whose services are starting now wait for this one |
| `Services.ServiceSet.CheckDepsStarted` | cdinit/dinit/src/service.cc:426-435 | True if and only if no link of the service is waiting |
| `Services.ServiceSet.AllDepsStarted` | cdinit/dinit/src/service.cc:437-450 | What bringing a service up leads to: it runs, is on its way, or fails with its dependents |
| `Services.ServiceSet.DependencyStarted` | cdinit/dinit/src/service.cc:390-398 | A service is queued for a transition exactly if it is waiting for dependencies |
| `Services.ServiceSet.HasStarted` | cdinit/dinit/src/service.cc:470-502 | Exactly the dependents that waited are queued, and no link waits on the service any more; or it must stop: then it does, or, pinned, is late and nothing else changes |
| `Services.ServiceSet.FailedToStart` | cdinit/dinit/src/service.cc:504-557 | A failed service is not wanted any more, every dependent that needed it is told to fail, links to others are as they were, and dependencies that waited for it to stop are queued; pins stay up to date if and only if none rested on its own |
| `Services.ServiceSet.HasStopped` | cdinit/dinit/src/service.cc:77-164 | A service that has stopped starts again exactly if it is wanted and not pinned stopped; otherwise its soft links are broken and explicit activation ends; dependencies waiting for it are queued |
| `Services.ServiceSet.Stop` | cdinit/dinit/src/service.cc:591-625 | Explicit activation ends; a service that nothing requires is queued to release its dependencies; a started one that is not required, or is to be brought down, stops unless pinned, and the stop is passed on to every hard dependent |
| `Services.ServiceSet.Restart` | cdinit/dinit/src/service.cc:627-641 | Issued if and only if the service is started: it then stops by force with its hard dependents told so, or is only marked if pinned; otherwise nothing changes |
| `Services.ServiceSet.DoStop` | cdinit/dinit/src/service.cc:643-734 | A pinned service is untouched; any other goes to stopping from where it is, queued if no hard dependent has yet to stop and else waiting for one; it breaks its dependents' soft links unless it restarts, and passes the stop or the restart on; the recursion through other services ends by rank |
| `Services.ServiceSet.StopDependents` | cdinit/dinit/src/service.cc:753-821 | After the walk every soft link of a dependent is broken (unless restarting) and every hard dependent has been told; true only if no hard dependent had yet to stop, false only if one still has |
| `Services.ServiceSet.StopHardDependent` | cdinit/dinit/src/service.cc:758-802 | What one hard dependent is told, depending on force and on whether the service is to come back; with a restart, that it is to restart as well |
| `Services.ServiceSet.StopCheckDependents` | cdinit/dinit/src/service.cc:736-751 | True if and only if no hard link still holds the service without waiting on it |
| `Services.ServiceSet.ForcedStop` | cdinit/dinit/src/service.cc:573-582 | A service that runs is marked and told to stop, with the message queued unless it is pinned |
| `Services.ServiceSet.UnrecoverableStop` | cdinit/dinit/src/service.cc:559-563 | A forced stop that also withdraws the wish to run |
| `Services.ServiceSet.UnexpectedTermination` | cdinit/dinit/src/baseproc-service.cc:79-80 | A service whose process has ended stops by force, with its hard dependents told so; a pinned one is only marked |
| `Services.ServiceSet.RunTransition` | cdinit/dinit/src/service.cc:313-333 | What a queue entry leads to for each state and each outcome, whole worlds compared; without cause it does nothing but leave the queue |
| `Services.ServiceSet.StartDep` | cdinit/dinit/src/includes/service.h:851-857 | A link comes to hold its target, once |
| `Services.ServiceSet.PropagateRequire` | cdinit/dinit/src/service.cc:252-261 | Each dependency's count grows by the number of links to it, it is told to start if it must be, and all links that are not ordering-only hold; surplus grows by the number of those that held already |
| `Services.ServiceSet.PropagateRelease` | cdinit/dinit/src/service.cc:209-220 | The dependencies are released one after the other, each with its whole effect on the world the last one left; afterwards none is held |
| `Services.ServiceSet.PropagateFailure` | cdinit/dinit/src/service.cc:268-273 | The service has stopped and each dependent waiting for it is to fail |
| `Services.ServiceSet.PropagatePins` | cdinit/dinit/src/service.cc:285-310 | The flag becomes what the dependents say; if it changes, exactly the hard dependencies that may be affected are told, and a service no longer pinned stops if it must |
| `Services.ServiceSet.DoPropagation` | cdinit/dinit/src/service.cc:250-311 | All six messages are passed on, in this order, each with its whole effect on the world the previous one left; none to this service is outstanding afterwards |
| `Services.ServiceSet.PinStart` | cdinit/dinit/src/service.cc:829-842 | Only the pin and messages about pins change, and pins that were up to date stay so |
| `Services.ServiceSet.PinStop` | cdinit/dinit/src/includes/service.h:633-636 | Only this pin changes |
| `Services.ServiceSet.Unpin` | cdinit/dinit/src/service.cc:844-881 | Which pins are left; a started service that nothing requires is queued to release its dependencies, one that must stop does, and for any other only pins change; pins stay up to date |
| `Services.ServiceSet.ProcessOne` | cdinit/dinit/src/includes/service.h:1154-1166 | With messages outstanding a queued service passes its own on, otherwise one makes its transition; the set stays in order |
| `Services.ServiceSet.DrainPins` | cdinit/dinit/src/includes/service.h:1154-1166 | Processing pin messages ends, and leaves exactly those services flagged that have a pinned service above them |
| `Services.ServiceSet.Handle` | cdinit/dinit/src/control.cc:300-460 | What every request (start, stop, forced stop, restart, wake, pin, unpin), every piece of news of a process and every queue step leads to, late starts and double acquisitions included, and that it keeps the whole set in order |
| `Services.ServiceSet.Run` | cdinit/dinit/src/includes/service.h:1154-1166 | Any run of them, of any length, is a history: each leads from one world to the next as it should, and the set is in order in between |
| `ServiceGuarantees.RequiredByIsExact` | cdinit/dinit/src/service.cc:166-207 | In a set in order the count is the number of holding links, plus one if started explicitly, plus the surplus; it never falls below that |
| `ServiceGuarantees.UnrequiredIsUnheld` | cdinit/dinit/src/service.cc:178-207 | A service with a count of zero is held by no link |
| `ServiceGuarantees.WaitingOnUnstarted` | cdinit/dinit/src/service.cc:400-424 | A link waits only on a service that has not started, or is late |
| `ServiceGuarantees.WaitingForSomething` | cdinit/dinit/src/service.cc:313-320 | A starting service that waits is queued or has a link that waits |
| `ServiceHistories.NothingLost` | cdinit/dinit/src/service.cc:390-398 | No lost wake-ups, in any history from loading on in which no start pin is requested: with nothing queued, each waiting service has a dependency that it waits for and that has not started |
| `ServiceHistories.NothingPinned` | cdinit/dinit/src/service.cc:829-842 | In such a history nothing is pinned started, and no start goes unreported |
| `ServiceHistories.NotesExactly` | cdinit/dinit/src/service.cc:487-492 | A start goes unreported if and only if the service comes up pinned while it must stop; the surplus of a service grows by exactly what is required of it once more through links that hold |
| `ServiceHistories.LateSince` | cdinit/dinit/src/service.cc:487-492 | In any history, a start that no one heard of was one of a service that was pinned, and had to stop, when it came up |
| `ServiceHistories.AllObey` | cdinit/dinit/src/service.cc:643-734 | In any history, a running service that must stop has been told to, unless a pin holds it |
| `ServiceAsking.UnaskedExactly` | cdinit/dinit/src/service.cc:250-278 | The step: a service comes to be wanted without being required if and only if, in a pass of its own, it passes on a start when its requirements are used up, and is neither pinned stopped nor taken up again by a soft dependent; all of it told from the world before, releases that bring nothing down included |
| `ServiceSparing.SparedPass` | cdinit/dinit/src/service.cc:209-220 | Releasing dependencies that others require too, or that are down or pinned, changes counts and messages, and brings nothing down |
| `ServiceAsking.WantedIsAsked` | cdinit/dinit/src/service.cc:178-207 | In any history, a service is wanted without being required if and only if that happened to it, and it has not been required, or given up, since |
| `ServiceAsking.NothingRunsUnasked` | cdinit/dinit/src/service.cc:178-207 | In any history, once all messages are passed on, a service runs unpinned and without being required if and only if that happened to it, and it has not been required, or given up, since |
| `ServiceAsking.FailedReleases` | cdinit/dinit/src/service.cc:504-557 | A service whose start fails holds what it held, and is told to release it if and only if it was not pinned and had passed its requirements on |
| `ServiceUpkeep.ReleaseStops` | cdinit/dinit/src/service.cc:209-220 | A running dependency that is not pinned, and that no one else requires, is stopping once the release has been passed on |
| `ServiceHistories.BroughtUpOnDependencies` | cdinit/dinit/src/service.cc:313-320 | What a service manager is for: in any history without start pins, all that a service regularly depends on runs whenever the service is brought up, if no start request overtakes a stop |
| `ServiceHistories.DrainedIsEnough` | cdinit/dinit/src/includes/service.h:1006-1011 | None does if start requests come with no messages outstanding |
| `ServiceStranding.StopsNotLost` | cdinit/dinit/src/service.cc:321-333 | No stop is forgotten: in any history, with no transitions queued, a service that waits to stop has a hard dependent that has not stopped or still holds it, if and only if no dependent has started, or released it, in its stead, and left it with nothing to wait for since |
| `ServiceStranding.EventStrands` | cdinit/dinit/src/service.cc:362-387 | The step: which events leave a service that waits to stop unqueued and with nothing to wait for, told from the world before |
| `ServiceStranding.PassStrands` | cdinit/dinit/src/service.cc:250-283 | For a pass: exactly when a service starts, or, being down, lets go, and was all that another waited for, with failures, stops in the same pass and what else the pass brings down taken into account |
| `ServiceStranding.StartStrands` | cdinit/dinit/src/service.cc:222-235 | For a start on request: if and only if it is carried out, and the other service waits to stop, is not queued, and has nothing to wait for but the service that starts |
| `ServiceExamples.StrandedExample` | cdinit/dinit/src/service.cc:362-387 | In every history of these fifteen events, from loading on, a service waits to stop, its dependent waits for it to start, and the queues are empty |
| `ServiceExamples.LateExample` | cdinit/dinit/src/service.cc:487-492 | In every history of these eight events a service waits for one that runs, with the queues empty |
| `ServiceExamples.TwiceExample` | cdinit/dinit/src/service.cc:504-557 | In every history of these fourteen events, from loading on, a service is required and nothing holds it |
| `ServiceExamples.UnaskedExample` | cdinit/dinit/src/service.cc:275-278 | In every history of these ten events, from loading on, a service runs that nothing requires, with the queues empty |
| `ServiceRuns.RunFromStart` | cdinit/dinit/src/includes/service.h:1154-1166 | Any events have a history from loading on, so that all of this is about something |
| `ServiceQueues.Queue.Add` | cdinit/dinit/src/includes/service.h:1135-1151 | The service has a turn, in front of the others, unless it had one already; it gets a second one exactly if it was at the end, behind others, and there only |
| `ServiceQueues.Queue.IsQueued` | cdinit/dinit/src/includes/dinit-ll.h:125-129 | True if and only if the service is the only one or comes out before the last |
| `ServiceQueues.Queue.PopFront` | cdinit/dinit/src/includes/dinit-ll.h:143-150 | The next in turn comes out and no turn is lost, while the list is circular, too |
| `ServiceQueues.Queue.TwoTurnsAtMost` | cdinit/dinit/src/includes/dinit-ll.h:131-136 | No service has more than two turns, and only the one at the end has two |
| `ServiceTurns.SecondPass` | cdinit/dinit/src/service.cc:250-311 | A service that has no messages passes nothing on |
| `ServiceTurns.SecondTurn` | cdinit/dinit/src/service.cc:313-333 | A transition of a service that is not queued is none, or what news of its process would lead to, unless it waits to stop: so histories with second turns are histories |
| `ServiceTurns.LaunchedAgain` | cdinit/dinit/src/service.cc:313-320 | A service that was launched in its first turn is launched again in its second |
| `ServiceGuarantees.MessagesAreQueued` | cdinit/dinit/src/service.cc:250-283 | Whatever a service is yet to be told, it is queued for; it is never told to require and to release at once |
| `ServicePins.PinsAreTransitive` | cdinit/dinit/src/service.cc:285-300 | With no message outstanding, the flag of each service says whether a chain of hard dependents leads up to a pinned one |
| `ServicePins.PinsToldUpToDate` | cdinit/dinit/src/service.cc:829-857 | Telling the dependencies whose flag differs is enough for every flag to be right or to have a message outstanding |
| `ServicePins.LessToDo` | cdinit/dinit/src/service.cc:293-300 | A pass that tells dependencies leaves less to do: why queue processing ends |
| `ServicePins.FailedStartPins` | cdinit/dinit/src/service.cc:504-557 | A failed start keeps pins up to date if and only if no dependency's flag rested on the pin it drops, which can be told before the call |
| `ServiceExamples.StalePinExample` | cdinit/dinit/src/service.cc:504-557 | In every history of these eight events, from loading on, a service stays pinned on account of one that is not |
| `ServicePasses.OnlyPinsPassed` | cdinit/dinit/src/service.cc:285-310 | A pass with no message but pins, and no stop due, touches pins only and queues exactly the services it tells |
| `ServiceSteps.FailPins` | cdinit/dinit/src/service.cc:504-557 | The same for a failure that goes up to the dependents |
| `ServiceSteps.ChainsSame` | cdinit/dinit/src/service.cc:285-300 | Which services are pinned from above does not depend on the flags themselves |
| `ServiceBooks.TiesExact` | cdinit/dinit/src/includes/service.h:152-165 | The books name exactly the links that hold a service, that it waits by, and that wait on it |
| `ServiceStops.StopTrans` | cdinit/dinit/src/service.cc:643-734 | What a stop may do to other services may be done in any number of steps |
| `ServiceStops.StopLift` | cdinit/dinit/src/service.cc:753-821 | A stop of a dependent is within what a stop of the service may do |
| `Characters.Find` | cdinit/dinit/src/includes/load-service.h:1223-1226 | The first occurrence from a position on, or a position beyond the end |
| `ConfigNames.ReadConfigName` | cdinit/dinit/src/includes/load-service.h:441-486 | Reads exactly the longest name there is, and says whether it is a number |
| `References.ReadReference` | cdinit/dinit/src/includes/load-service.h:1257-1301 | What is read at a dollar sign depends on the token only, with each malformed reference reported as such |
| `References.ReadAlt` | cdinit/dinit/src/includes/load-service.h:1278-1301 | The alternative text of a reference in braces, read in place, is that of the token |
| `References.ParseBraced` | cdinit/dinit/src/includes/load-service.h:1257-1301 | Any reference written in braces reads back as itself, whatever follows |
| `Substitution.EvalIsFlatten` | cdinit/dinit/src/includes/load-service.h:1219-1418 | The one-pass algorithm yields the words that the declarative meaning of a token has, unless the output gets too long |
| `Substitution.EvalIsExpand` | cdinit/dinit/src/includes/load-service.h:1247-1398 | From any point within a token the pass yields the groups of the remaining expansion |
| `Substitution.SplitIntoIsGroups` | cdinit/dinit/src/includes/load-service.h:1336-1385 | Splitting a value as it is written gives the words between its white space |
| `TokenSubstitution.SplitWords` | cdinit/dinit/src/includes/load-service.h:1336-1385 | The split words are in the line, at the positions recorded; the offset's adjustment grows by what was written |
| `TokenSubstitution.SubstituteReference` | cdinit/dinit/src/includes/load-service.h:1255-1395 | One reference is replaced by its value, and `offadj` is the output's length less the input position |
| `TokenSubstitution.SubstituteToken` | cdinit/dinit/src/includes/load-service.h:1240-1407 | All references in a token are replaced, the first malformed one is reported, and the next dollar sign is found |
| `TokenSubstitution.MoveToken` | cdinit/dinit/src/includes/load-service.h:1409-1413 | Tokens before the next dollar sign only move |
| `TokenSubstitution.Substitute` | cdinit/dinit/src/includes/load-service.h:1219-1418 | The positions returned are in bounds, ordered and apart, and spell exactly the words of the tokens one by one; otherwise the error of the first token that has one |
| `TokenSubstitution.TokensFlatten` | cdinit/dinit/src/includes/load-service.h:1201-1207 | What comes before a token does not matter to what it stands for |
| `TokenSubstitution.UnsplitIsOne` | cdinit/dinit/src/includes/load-service.h:1329-1335 | A token without `$/` is exactly one argument |
| `TokenSubstitution.EmptyWordsKept` | cdinit/dinit/src/includes/load-service.h:1384-1404 | Empty results of splitting are dropped |
| `TokenSubstitution.EscapedIsItself` | cdinit/dinit/src/includes/load-service.h:1201-1204 | With `$` doubled, any text stands for itself in any environment |
| `SettingValues.SkipComment` | cdinit/dinit/src/includes/load-service.h:310-330 | Ends exactly behind the comment and the white space and comments that follow it |
| `SettingValues.ReadQuoted` | cdinit/dinit/src/includes/load-service.h:550-568 | The characters between the quotation marks, with escapes resolved, are added to the part; an unterminated string is an error |
| `SettingValues.ReadParts` | cdinit/dinit/src/includes/load-service.h:540-607 | The parts read, joined, and their positions are those of the rest of the line, for every line |
| `SettingValues.ReadSettingValue` | cdinit/dinit/src/includes/load-service.h:513-608 | Value and positions are those of the parts of the line; `+=` appends and `=` replaces; errors are those of the line |
| `SettingValues.AddedSpells` | cdinit/dinit/src/includes/load-service.h:525-538 | `+=` leaves the earlier arguments' positions and texts as they were and adds the new ones behind them, or, exactly if all there was is one empty argument, puts one over the other |
| `SettingValues.AddedIsTokens` | cdinit/dinit/src/includes/load-service.h:525-608 | What `+=` leaves meets what substitution requires of positions, exactly if no empty argument is overlaid |
| `SettingValues.ReadAccumulates` | cdinit/dinit/src/includes/load-service.h:513-538 | What one line after another makes of a setting: the first sets the value, and each one more adds its arguments |
| `SettingValues.AccumulatedTokens` | cdinit/dinit/src/includes/load-service.h:513-608 | After any number of lines the value meets what substitution requires, and is made of the arguments of all of them, exactly if no empty argument is overlaid |
| `SettingValues.EmptyArgumentExample` | cdinit/dinit/src/includes/load-service.h:525-538 | `command = ""` and `command += foo` overlay an empty argument |
| `SettingValues.LinesEvaluate` | cdinit/dinit/src/includes/load-service.h:513-1418 | Reading, adding and substituting together: what a setting comes to is the words of each argument of each line, one by one |
| `SettingValues.ReadIsTokens` | cdinit/dinit/src/includes/load-service.h:578-607 | What has been read meets what substitution requires of positions |
| `SettingValues.QuotedLineReads` | cdinit/dinit/src/includes/load-service.h:543-607 | Any arguments, quoted and escaped, are read back as they are, empty ones included |
| `SettingValues.QuotedArgumentsAppend` | cdinit/dinit/src/includes/load-service.h:525-608 | So are arguments that are added, exactly if no empty one is overlaid |
| `CycleSearch.DependencyCheck.Search` | cdinit/dinit/src/dinit-check.cc:374-427 | Ends; finds a chain if and only if a requested service reaches a cycle; the chain is then a closed walk along the recorded indices |
| `CycleSearch.DependencyCheck.Explore` | cdinit/dinit/src/dinit-check.cc:382-422 | From one root: it is cycle-free afterwards, or the chain is a cycle it reaches |
| `CycleSearch.DependencyCheck.GoUp` | cdinit/dinit/src/dinit-check.cc:392-400 | Another service is cycle-free, or less of the walk over cycle-free services remains |
| `CycleSearch.DependencyCheck.Visit` | cdinit/dinit/src/dinit-check.cc:401-421 | Another service is visited, or less work remains: cycle-free services are walked again, and it still ends |
| `CycleSearch.ClosedIsCycle` | cdinit/dinit/src/dinit-check.cc:408-418 | A chain cut off at the service that was met again is a cycle that the root reaches |
| `CycleSearch.SettledReachesNone` | cdinit/dinit/src/dinit-check.cc:393-394 | A service marked cycle-free reaches no cycle |
| `DependencyCycles.CheckCycle` | cdinit/dinit/src/load-service.cc:107-126 | Walking a set while it grows ends, and reports a cycle if and only if the service can be reached from a new dependency |
| `DependencyCycles.DependencySet.LeadsBack` | cdinit/dinit/src/control.cc:896-920 | Says exactly whether the one service can be reached from the other |
| `DependencyCycles.DependencySet.AddServiceDep` | cdinit/dinit/src/control.cc:845-959 | The replies to every request, and the dependencies after it; a circular one is refused, none is doubled, and the set stays acyclic |
| `DependencyCycles.DependencySet.RemoveServiceDep` | cdinit/dinit/src/control.cc:961-1009 | The replies to every request, bad handles and kinds included; removes the first such dependency, if any, and nothing else; the set stays acyclic |
| `DependencyCycles.AddedAcyclic` | cdinit/dinit/src/control.cc:896-940 | A dependency that leads not back closes no cycle |
| `DependencyCycles.RemovedAcyclic` | cdinit/dinit/src/control.cc:961-1009 | Removing dependencies closes none |
| `DependencyCycles.AcyclicIsRanked` | cdinit/dinit/src/control.cc:896-920 | Services can be ranked, each above those it depends on, if and only if no dependencies are circular |
| `Loading.RecordSet.Load` | cdinit/dinit/src/load-service.cc:93-96 | Succeeds if and only if there is an order in which all that is needed can be loaded; leaves no dummy either way and changes no record |
| `Loading.RecordSet.LoadService` | cdinit/dinit/src/load-service.cc:379-551 | With services being loaded above it: ends, reports a cycle exactly if the service is one of those, and adds complete records only |
| `Loading.RecordSet.LoadDependencies` | cdinit/dinit/src/load-service.cc:522-551 | Every dependency named has been loaded, or the description or a dependency is to blame |
| `Loading.LoadableExactly` | cdinit/dinit/src/load-service.cc:379-393 | A service can be loaded if and only if it is, or every description it reaches is there and well formed and none is on a cycle |
| `Loading.LoadedAreAcyclic` | cdinit/dinit/src/load-service.cc:379-393 | Loaded services depend on one another in no cycle |
| `UnorderedSets.UnorderedSet.Find` | cdinit/dinit/src/includes/dinit-util.h:959-970 | Finds the element with a key if and only if there is one |
| `UnorderedSets.UnorderedSet.Insert` | cdinit/dinit/src/includes/dinit-util.h:841-879 | Inserts exactly if the key is not there, keeps each element once and in its bucket, and rehashes so that the load stays within limits |
| `UnorderedSets.UnorderedSet.Erase` | cdinit/dinit/src/includes/dinit-util.h:987-996 | Removes the element with a key and no other |
| `UnorderedSets.UnorderedSet.Clear` | cdinit/dinit/src/includes/dinit-util.h:1014-1028 | Leaves an empty set that can be used again |
| `UnorderedSets.UnorderedSet.Rehash` | cdinit/dinit/src/includes/dinit-util.h:930-957 | Has as many buckets as asked for, or as the elements need, with the same elements each in its bucket, growing or shrinking |
| `UnorderedSets.UnorderedSet.DoRehash` | cdinit/dinit/src/includes/dinit-util.h:734-754 | Moves every element to its bucket among the first n, and loses none |
| `UnorderedSets.UnorderedSet.Next` | cdinit/dinit/src/includes/dinit-util.h:801-815 | Iteration passes over the elements one by one |
| `UnorderedSets.BucketsToMaxExact` | cdinit/dinit/src/includes/dinit-util.h:726-732 | Three quarters, without the overflow |
| `UnorderedSets.MinBucketsExact` | cdinit/dinit/src/includes/dinit-util.h:939-943 | Four thirds, without the overflow |
| `LinkedSets.LinkedSet.AddBack` | cdinit/dinit/src/includes/dinit-util.h:1093-1108 | Adds a value at the end exactly if it is not there; earlier nodes stay where they are, through rehashing |
| `LinkedSets.LinkedSet.NextIs` | cdinit/dinit/src/includes/dinit-util.h:1143-1158 | Following the links visits the values in the order they were added |
| `LinkedSets.LinkedSet.ValuesOnce` | cdinit/dinit/src/includes/dinit-util.h:1093-1108 | Every value is there once |
| `Environments.Environment.SetVar` | cdinit/dinit/src/includes/dinit-env.h:285-316 | The three sets, disjoint by name, still say what the commands so far amount to: the name has this assignment, every other its status |
| `Environments.Environment.ImportParentVar` | cdinit/dinit/src/includes/dinit-env.h:318-325 | The name has the parent's value again, in either mode, and every other name its status |
| `Environments.Environment.UndefineVar` | cdinit/dinit/src/includes/dinit-env.h:327-346 | The name is undefined whatever it was, and every other name keeps its status |
| `Environments.Environment.ClearNoInherit` | cdinit/dinit/src/includes/dinit-env.h:348-354 | Every name is undefined, and from now on is inherited on request only |
| `Environments.LastDecides` | cdinit/dinit/src/includes/dinit-env.h:285-354 | The status of a name is what the last command about it, or the last clear, says; a name that no command is about is inherited |
| `Environments.SlipsExample` | cdinit/dinit/src/includes/dinit-env.h:240-277 | Two pairs of command logs, one for each way in which a name slips through |
| `Environments.Environment.Get` | cdinit/dinit/src/includes/dinit-env.h:150-168 | The value is what the command log calls for, if and only if the name was not undefined, or the process lacks it, or the log has a clear |
| `Environments.Environment.Build` | cdinit/dinit/src/includes/dinit-env.h:173-234 | The index map agrees with the list, and yields for every name the value its status in the command log calls for; an excluded name is left out, unless it was imported after a clear |
| `Environments.Environment.BuildOver` | cdinit/dinit/src/includes/dinit-env.h:240-277 | Over a parent, the value is that of the two command logs layered, if and only if the name does not slip through |
| `Environments.LayersExactly` | cdinit/dinit/src/includes/dinit-env.h:240-277 | Why: for all contents of the sets of both environments |
| `Environments.BuiltExactly` | cdinit/dinit/src/includes/dinit-env.h:173-234 | An environment on its own gives what its command log says |
| `WaitQueues.WaitQueue.Queue` | cdinit/dinit/dasynq/include/dasynq.h:328-338 | The linked queue gets one more node at its end |
| `WaitQueues.WaitQueue.Unqueue` | cdinit/dinit/dasynq/include/dasynq.h:299-306 | The linked queue loses its head; the new one is returned |
| `PollLocks.PollLock.GetAttnLock` | cdinit/dinit/dasynq/include/dasynq.h:1136-1154 | One step of the protocol: queued, with a poll interrupted if there is one and nobody else has done so |
| `PollLocks.PollLock.PollAttnLock` | cdinit/dinit/dasynq/include/dasynq.h:1158-1174 | One step: queued, unless there is a poll |
| `PollLocks.PollLock.GetPollwaitLock` | cdinit/dinit/dasynq/include/dasynq.h:1180-1196 | One step: at the head, or in the second queue |
| `PollLocks.PollLock.Awake` | cdinit/dinit/dasynq/include/dasynq.h:1150-1196 | One step: a thread that wakes up has the lock exactly if it is at the head |
| `PollLocks.PollLock.ReleaseLock` | cdinit/dinit/dasynq/include/dasynq.h:1199-1219 | One step: the next in line is made head and woken, a poller only if nobody asks for attention |
| `PollLocks.AfterInvariant` | cdinit/dinit/dasynq/include/dasynq.h:747-757 | Each step of any thread keeps: only the head holds the lock, the first queue is empty only if the second is, a poll is running exactly if the head is a poller, no other poller is in the first queue, and a poller with others behind it has been interrupted |
| `PollLocks.OutcomeInvariant` | cdinit/dinit/dasynq/include/dasynq.h:747-757 | So does any interleaving |
| `PollLocks.OneHolder` | cdinit/dinit/dasynq/include/dasynq.h:752-752 | No two threads hold the lock |
| `PollLocks.MovesUp` | cdinit/dinit/dasynq/include/dasynq.h:747-757 | A thread that asks for attention is never overtaken |
| `PollLocks.AttentionIsServed` | cdinit/dinit/dasynq/include/dasynq.h:741-751 | In any run it is at the head after as many releases as there were threads before it |
| `PollLocks.PollersInOrder` | cdinit/dinit/dasynq/include/dasynq.h:753-755 | Pollers keep their order, and leave the second queue only when nobody else is queued |
| `RingBuffers.RingBuffer.Append` | cdinit/dinit/src/includes/cpbuffer.h:155-170 | The bytes follow the contents, also where the buffer ends in between |
| `RingBuffers.RingBuffer.Fill` | cdinit/dinit/src/includes/cpbuffer.h:61-87 | What was read follows the contents; with room and data, something is |
| `RingBuffers.RingBuffer.Consume` | cdinit/dinit/src/includes/cpbuffer.h:113-119 | The contents lose their beginning |
| `RingBuffers.RingBuffer.Extract` | cdinit/dinit/src/includes/cpbuffer.h:121-135 | A stretch of the contents, in one piece or two |
| `RingBuffers.RingBuffer.GetContiguousLength` | cdinit/dinit/src/includes/cpbuffer.h:46-59 | From any position in the contents on, the contents are this many bytes in one piece, and the rest at the start of the buffer |
| `RingBuffers.WrappedMore` | cdinit/dinit/src/includes/cpbuffer.h:155-170 | Writing behind the contents, wrapped or not, adds to them |
| `RingBuffers.WrappedSlice` | cdinit/dinit/src/includes/cpbuffer.h:114-135 | Any stretch of the contents is where its indices, wrapped, say |
| `OutputStreams.OutputStream.Put` | cdinit/dinit/src/dinit-iostream.cc:41-92 | What has been written, followed by what is buffered, grows by exactly the part of the message that is reported as accepted, whatever each write takes and wherever the buffer wraps |
| `OutputStreams.OutputStream.Flush` | cdinit/dinit/src/dinit-iostream.cc:246-277 | Writes all that was accepted, or fails and loses nothing |
| `OutputStreams.WrittenSplit` | cdinit/dinit/src/dinit-iostream.cc:70-87 | A partial write takes from the buffer first, and from the message what is left |
| `InputStreams.InputStream.GetLine` | cdinit/dinit/src/dinit-iostream.cc:607-659 | A line and its delimiter leave the stream; with none left, the rest is read; on an error nothing is lost |
| `InputStreams.InputStream.GetLineUntilEof` | cdinit/dinit/src/dinit-iostream.cc:684-695 | The end of the file ends a line too |
| `InputStreams.InputStream.ReadLines` | cdinit/dinit/src/includes/file-input-stack.h:51-65 | However the file is read, its lines are those of its text; an error leaves a prefix of them |
| `InputStreams.LinesReadBack` | cdinit/dinit/src/dinit-iostream.cc:607-659 | Lines written with a delimiter between them are read as they were |
| `ByteNumbers.SizeReadBack` | cdinit/dinit/src/control.cc:1147-1148 | A number that fits is read back as it was written |
| `EnvironmentBlocks.GetAllEnv` | cdinit/dinit/src/control.cc:1129-1150 | The reply has the size of its block in the header, and each defined variable ended by a null |
| `EnvironmentBlocks.BlockReadBack` | cdinit/dinit/src/dinit-client.cc:30-69 | A block reads as the variables it was made of |
| `EnvironmentBlocks.ReplyReadBack` | cdinit/dinit/src/dinit-client.cc:12-70 | So does a reply, whatever follows |
| `EnvironmentBlocks.InfoPassed` | cdinit/dinit/src/includes/dinit-client.h:199-212 | Any number of information packets before a reply are passed over |
| `EnvironmentBlocks.EnvironmentReceived` | cdinit/dinit/src/dinit-client.cc:5-70 | What the client reads is what the daemon sent, and exactly the reply is consumed |
| `EnvironmentBlocks.Client.WaitForReply` | cdinit/dinit/src/includes/dinit-client.h:199-212 | Stops exactly at the first packet that is no information, however it arrives |
| `EnvironmentBlocks.Client.TakePiece` | cdinit/dinit/src/dinit-client.cc:33-59 | A stretch without a null leaves the stream, with the null behind it if it was reached |
| `EnvironmentBlocks.Client.ReadVariables` | cdinit/dinit/src/dinit-client.cc:26-69 | For every chunking and wrap position the variables are those of the block, and exactly the block is consumed; a short stream is an error |
| `EnvironmentBlocks.Client.GetRemoteEnv` | cdinit/dinit/src/dinit-client.cc:5-70 | The result depends on the stream only, and exactly the reply is consumed |
| `ControlFraming.FrameStays` | cdinit/dinit/src/control.cc:142-161 | Bytes behind a complete packet, or a bad one, do not matter to it |
| `ControlFraming.RequestIsPacket` | cdinit/dinit/src/control.cc:142-161 | A request with a counted text of an allowed length is a packet of exactly its own length |
| `ControlFraming.PacketsReadBack` | cdinit/dinit/src/control.cc:32-134 | Packets sent one behind the other are told apart again |
| `ControlFraming.ServeConserves` | cdinit/dinit/src/control.cc:1648-1661 | Packets handled and bytes left are all that was received |
| `ControlFraming.ServeSteady` | cdinit/dinit/src/control.cc:1648-1661 | The loop stops only when fewer bytes are there than a packet needs, or at a bad one |
| `ControlFraming.NothingLeft` | cdinit/dinit/src/control.cc:1648-1667 | What is left contains no packet, but for one that is overlooked, and does not fill the buffer |
| `ControlFraming.OverlooksExactly` | cdinit/dinit/src/control.cc:1110-1151 | A packet is overlooked if and only if the input ends in one of a single byte, behind a request for the environment that was cut in two and packets that leave the length alone |
| `ControlFraming.PiecesDoNotMatter` | cdinit/dinit/src/control.cc:1627-1670 | For any splitting of the input the packets handled are those of the whole stream, if and only if the input does not end so, and all but the last one otherwise; the buffer never fills |
| `ControlFraming.OverlookedExample` | cdinit/dinit/src/control.cc:1110-1151 | The same bytes, in one piece and in three: only the first way gets the second request handled |
| `ControlFraming.Connection.DataReady` | cdinit/dinit/src/control.cc:1627-1670 | Reads at least a byte if there is any; what an open connection has handled is determined by what it has read; it closes only on a refused or a bad request, never for want of room |
| `ControlFraming.Connection.ProcessPacket` | cdinit/dinit/src/control.cc:32-134 | Takes a complete packet, or says how many bytes to wait for, or rejects |
| `ControlFraming.Connection.ProcessCounted` | cdinit/dinit/src/control.cc:136-169 | The same where the length follows the command: lengths of 0 and above 1021 are rejected once four bytes are there |
| `ControlOutput.Output.QueuePacketCopied` | cdinit/dinit/src/control.cc:1527-1575 | What has been sent and what is pending grows by the packet, or, on a broken connection, not at all |
| `ControlOutput.Output.QueuePacketMoved` | cdinit/dinit/src/control.cc:1579-1625 | The same where the packet is kept whole and an index remembers what was sent: neither variant disturbs the other's index |
| `ControlOutput.Output.SendData` | cdinit/dinit/src/control.cc:1672-1719 | Nothing is lost, doubled or reordered; a connection that is closed without an error has sent all its packets |
| `ServiceHandles.Handles.Allocate` | cdinit/dinit/src/control.cc:1419-1450 | The smallest number not in use; the tables stay inverse, and the connection listens to the service |
| `ServiceHandles.Handles.Close` | cdinit/dinit/src/control.cc:219-265 | Exactly this handle goes; the connection listens to exactly the services it still has handles of |
| `ServiceHandles.Handles.FindServiceForKey` | cdinit/dinit/src/includes/control.h:211-220 | Finds a service exactly for the handles in use, and one that is listened to |
| `ServiceHandles.ListenedTo` | cdinit/dinit/src/control.cc:234-261 | In inverse tables a service has an entry if and only if it has a handle |

## Left out

- Processes, descriptors, signals, sockets, timers, consoles, logging, utmp and the user database. `bring_up()`, `bring_down()`, reads and writes are parameters or nondeterministic.
- Command lines and what the programs print; the switch over settings in `process_service_line`.
- In services: chaining to another service on stop, listeners, `stop_reason`, `start_failed`, `start_skipped`, `active_services`, smooth recovery, and the order in which several dependents stop.
- Services.ServiceSet.Handle: the dependency links are fixed. Adding and removing them is the subject of `DependencyCycles`, which shows that it keeps a rank possible.
- Services.ServiceSet.UnexpectedTermination: models lines 79-80; starting again at once, while dependents are still stopping (83-90), is left out.
- Termination of `process_queues()` is proved for pin messages only (`DrainPins`). It does not hold in general: a service that stops by itself can be restarted for ever.
- Services.ServiceSet.DrainPins: assumes that no service must stop once it is unpinned, as otherwise the transitions that follow change more than pins.
- Services.ServiceSet.Unpin: models the function without the queue processing it ends with, which is `ProcessOne`.
- ServiceHistories.BroughtUpOnDependencies: says nothing of histories with start pins, where a dependency may come up, or stay up, in spite of a stop that its dependents are not told of.
- ServiceHistories.NothingLost: likewise; with start pins a service that waits may wait for one that is late, as `LateSince` says.
- ServiceGuarantees.WaitingOnUnstarted: has the escape of late services, for which `NotesExactly` and `NothingPinned` say when there are any.
- ServiceStranding.EventStrands: leaves open the passes that are `InDoubt`, which bring services down that may in turn bring down the service itself, or one that bystands. What these bring down depends on whether a start under way is interrupted, which the world before the pass does not say (service.cc:694-712).
- ServiceAsking.UnaskedExactly: likewise leaves open the passes that are `Entangled`.
- ServiceAsking.FailedReleases: looks at failures only. A service can be left holding dependencies in other ways, too: it is unpinned in a state other than started, or loses the pin of a dependent, after its last requirement has gone.
- ServiceTurns.SecondTurn: excludes a service that waits to stop, which might get on with it in a second turn although nothing has woken it.
- Loading.RecordSet.LoadService: placeholders, reloading and `avoid_circular` are left out.
- Services.ServiceSet.AllDepsStarted: a service that starts on the console is not queued for it.
- Services.ServiceSet.FailedToStart: nor taken off that queue.
- TokenSubstitution.Substitute: `MAX_LENGTH` stands for the largest `int`. Failure to allocate memory is left out, and so are the texts of messages.
- SettingValues.ReadSettingValue: requires that the value not end in an odd number of backslashes, which joining continued lines guarantees (load-service.h:1043-1058). Line numbers are left out.
- Loading.RecordSet.Load: only `depends-on` and its effects on records; placeholders, reloading, `before` and `after`, consumers, directories of dependencies and service arguments are not modelled. Records are in a map, not in a list.
- CycleSearch.DependencyCheck.Search: the flags of records are sets of names.
- PollLocks.PollLock.GetAttnLock: a wait on the condition variable is a step of its own (`Awake`), which may also happen spuriously. That a thread that is woken runs eventually is up to the scheduler.
- UnorderedSets.UnorderedSet.Insert: the largest number of buckets is a parameter, and allocation does not fail.
- Environments.Environment.SetVar: listeners and their notification are left out, and so are environment files.
- InputStreams.InputStream.ReadLines: one file; the stack of files that inclusion builds is left out.
- OutputStreams.OutputStream.Put: a write that is offered data writes some or fails, and the error number is only a flag.
- EnvironmentBlocks.Client.GetRemoteEnv: errors of reading other than the end of the stream are left out, and so is sending the request.
- ControlFraming.Connection.DataReady: what a request does is a verdict that may be any. After a reply could not be written, or the connection is to be closed, no more is said.
- ControlOutput.Output.SendData: failure to allocate memory is left out, and so is whether pending output is ever sent. Watching for output is renewed after an event on the connection only (control.h:270-281), not when news of a service is queued.
- `outbuf_size`, which is read from a vector that has been moved from, and exact sizes after erasing: the code does not keep these as counts.
- ServiceHandles.Handles.Close: unloading and reloading a service that has several handles on one connection is left out.
- `event_dispatch`, watchers and the backends of dasynq other than the lock; `parse_timespec`, `to_dec_digits` and other parsing of plain numbers.

# Verified models of muster

muster runs a project's processes under a background service. Each process has a
*holder* that keeps its terminal screen, its log and its exit, and serves them to
one supervisor and any number of attached terminals. This project models the parts
of muster where most can go wrong, in Dafny, and proves what they promise for every
input, every run and every interleaving of the threads involved.

`dafny verify dfyconfig.toml` checks everything. Nothing here executes muster.

## The parts

- **Byte queues** (`byte_queue.dfy`, on `sieve.dfy`). An outbox is a channel with a
  counter of bytes, filled by one producer and drained by one consumer thread. Its
  calls are split into their atomic steps, and every theorem holds after every
  interleaving of those steps. The class `ByteQueue` runs the calls with the
  consumer let in between any two steps.
- **The holder loop** (`holder_protocol.dfy`, `holder_streams.dfy`,
  `holder_clients.dfy`, `holder_table.dfy`, `holder_state.dfy`,
  `holder_events.dfy`, `holder_server.dfy`, `holder_runs.dfy`). The event loop of one
  holder over the outboxes of its clients. `Valid` is what holds between any two
  events and `ValidMeans` spells it out. `Handled` says what an event makes of every
  field, clients included: who is sent what, in which order, and that no one else is
  touched. `Handle` keeps `Valid` and does what `Handled` says, `Serve` gives the states
  of a whole run, and `holder_runs.dfy` proves what holds over every run. A client's
  frames are those its writer took, then those queued, so "replaying its frames" is
  what the client ends up with.
- **Duties** (`holder_duties.dfy`). What the holder owes over every run, said in the
  roles, sizes and events themselves rather than in its own rules: who may write, when a
  timer is armed and when serving ends, what the screen, the attach count and the child's
  input come to, and whose screen a snapshot is.
- **Races with a clear** (`holder_races.dfy`, `holder_disorder.dfy`). A clear takes
  frames one at a time while the writer takes frames too. The writer can therefore take
  a frame after the clear discarded an earlier one. Three orders the holder is built to
  keep are then lost. The first file says, of what is queued before a resync, exactly
  when each order survives every schedule of the writer. The second gives for each a
  holder and an event that lose it.
- **Orders over a run** (`holder_orders.dfy`). What each event sends a supervisor, move
  by move. If no resync since it took charge started with an order at risk, the order
  lasts to the end of the run; and each exit follows a screen the holder had at that
  exit or since.
- **Pushes that fail** (`fallible_holder.dfy`). The same mutually recursive calls
  when every push may fail: they still end.
- **Alerts** (`alerts.dfy`). The mark of the newest event an agent heard of, moved by
  any number of concurrent calls.
- **Stack sync** (`stack_sync.dfy`). The loops that bring a workspace in line with a
  stack, against a declared diff, and the workspace over its life.
- **Todo pages** (`todo_page.dfy`). Paging by cursor through a listing that changes
  between pages.
- **Settling** (`outcomes.dfy`, `settle_report.dfy`). The polling loop behind every
  command that acts on processes, and the report it makes.
- **The service log's tail** (`service_log.dfy`). A bounded read against a full one.
- **Descriptions** (`described.dfy`, `placeholder_table.dfy`). Placeholders replaced one
  after another against all at once.

## What turned out false

- **Log order, exit order and warning order.** `ByteQueue::clear` and the writer race.
  If the writer receives a frame after the clear has discarded an earlier one, a
  supervisor can get output whose place in the log it was never told, an exit without
  the final screen before it, or a warning after the exit. `EveryRaceRuns` shows that
  the two threads can have every such race. `TilingSurvivesExactlyWhen`,
  `ScreensSurviveExactlyWhen` and `WarningsSurviveExactlyWhen` say exactly which queues
  are safe under every schedule. `OvertakingLosesTheTiling`, `OvertakingHidesTheScreen`
  and `OvertakingWarnsTooLate` give a valid holder, an event it can get, and the run; the
  last two with a terminal of 1000 by 2000 cells, as large as one may be, whose repaint
  alone is more than an outbox's cap. `OrdersOverRun` says that nothing else loses an order.
  What a client ends up knowing is not affected: the screen, the log's end, the exit,
  the warning and the attach count are right in every run.
- **A removal cut short.** The documentation says that a bound that cuts the wait short
  fails no process that has yet to arrive, and that a removal has three outcomes. A
  removed process that the service has not begun to stop has yet to arrive, but its
  outcome is a fourth, still running, and that fails the command. `CutShortRemovalFails`
  gives the run; `CutShortExcusesExactlyWhen` and `OnItsWayFailsExactlyWhen` say that
  there is no other such case.
- **Syncing twice.** A stack that names a key twice adds a pane on every sync, so
  `SyncTwice` says a second sync adds nothing exactly when no key is named twice.
- **Replacing one after another.** A placeholder's value may complete another
  placeholder. `ResolvedMeansExactlyWhen` says replacing one after another agrees with
  replacing all at once, for every template, exactly when no value lies within a key
  replaced after it.

## Model

| member | source | states |
|---|---|---|
| ByteQueues.CounterIsExact | muster-holder/src/byte_queue.rs:37-82 | after every interleaving the counter is the bytes in the channel plus those reserved plus those taken but not released, and no next step takes it below zero |
| ByteQueues.QueueIsFifo | muster-holder/src/byte_queue.rs:37-82 | after every interleaving each accepted item was consumed once, cleared once or is still queued; each of the three keeps push order and nothing is lost or doubled |
| ByteQueues.SendNeverFails | muster-holder/src/byte_queue.rs:12-14 | the queue holds its own receiver, so a reserved item is always sent and its bytes stay counted |
| ByteQueues.TryPushHonoursCap | muster-holder/src/byte_queue.rs:33-44 | in a run without forced pushes the counter exceeds the cap only when one outstanding item alone makes up all of it |
| ByteQueues.RefusedExactlyWhenOver | muster-holder/src/byte_queue.rs:37-41 | after every interleaving a push under way is refused if and only if the bytes it read are not zero and with its own exceed the cap, and no more bytes are queued than it read |
| ByteQueues.RefusedPushChangesNothing | muster-holder/src/byte_queue.rs:37-41 | a refused push, with any consumer steps in between, ends in the state those steps alone give |
| ByteQueues.StepKeepsInv | muster-holder/src/byte_queue.rs:37-82 | every atomic step of either side keeps the accounting of bytes and of items |
| ByteQueues.RunKeepsInv | muster-holder/src/byte_queue.rs:37-82 | so does every run of such steps |
| ByteQueues.ClearProgress | muster-holder/src/byte_queue.rs:55-73 | while a clear and the consumer both take items, each item goes to exactly one of them, in order |
| ByteQueues.ByteQueue.constructor | muster-holder/src/byte_queue.rs:23-31 | a new queue is empty with nothing counted |
| ByteQueues.ByteQueue.TryPush | muster-holder/src/byte_queue.rs:37-44 | with the consumer let in between steps: an accepted item is queued behind all others, a refused one leaves only what the consumer did; an item is accepted if the bytes queued at the call were zero or with it within the cap, and refused only if they were not zero and with it above the cap |
| ByteQueues.ByteQueue.ForcePush | muster-holder/src/byte_queue.rs:48-51 | the item is always queued behind all others |
| ByteQueues.ByteQueue.Enqueue | muster-holder/src/byte_queue.rs:76-82 | a reserved item is sent and stays counted |
| ByteQueues.ByteQueue.Clear | muster-holder/src/byte_queue.rs:55-63 | returns, oldest first, exactly the queued items the consumer did not take meanwhile, and leaves the channel empty |
| ByteQueues.ByteQueue.ConsumerRuns | muster-holder/src/byte_queue.rs:67-73 | the consumer takes queued items in order, and only that |
| HolderStreams.WarningsConserved | muster-holder/src/server.rs:504-543 | sorting a stream into kept and cleared frames conserves its warnings |
| HolderClients.Replace | muster-holder/src/server.rs:504-543 | after a resync the frames are what the writer took, the snapshot, the warnings cleared, the one owed, then the exit |
| HolderClients.ResyncSyncs | muster-holder/src/server.rs:504-543 | however far behind a client was and whatever its writer takes meanwhile, after a resync its replayed screen is the holder's, its log place the log's end, its count and exit current |
| HolderClients.ResyncKeepsWarnings | muster-holder/src/server.rs:504-543 | a resync neither loses nor doubles a warning |
| HolderClients.ResyncKeepsHistory | muster-holder/src/server.rs:504-543 | what a supervisor has received stays the log's own bytes, never going back, whatever a resync cleared |
| HolderClients.ReachedConveys | muster-holder/src/server.rs:708-767 | a client in sync stays in sync when a frame reaches it, queued or by a resync in its place |
| HolderTable.Resync | muster-holder/src/server.rs:504-543 | one client resynced, everyone else untouched; a pending warning goes to a supervisor and is then sent |
| HolderTable.ResyncEach | muster-holder/src/server.rs:600-611 | exactly the chosen clients are resynced |
| HolderTable.BroadcastTo | muster-holder/src/server.rs:721-752 | each chosen client gets the frame, or, only if there was no room for it, a resync in its place; no other is touched |
| HolderTable.BroadcastServes | muster-holder/src/server.rs:721-767 | a frame that conveys a change to those it concerns leaves every client in sync with the change |
| HolderTable.ResyncServes | muster-holder/src/server.rs:584-611 | resyncing all clients that are behind leaves every client in sync |
| HolderTable.SplitOutputServes | muster-holder/src/server.rs:369-380 | output sent to the supervisor as logged and to attached terminals whole leaves every client in sync |
| HolderTable.ExitServes | muster-holder/src/server.rs:312-325 | the final screen to the supervisor, then the exit to all, leaves every client knowing both, the supervisor in that order |
| HolderTable.WithoutKeepsSizes | muster-holder/src/server.rs:665-678 | forgetting a client keeps every other size asked for, each once, and which is latest unless it was that client's |
| HolderState.ValidMeans | muster-holder/src/server.rs:266-303 | between events: every attach client's frames replay to the holder's screen at its size; a supervisor's outputs are the log's bytes up to its end; every introduced client hears the exit; the warning is exactly once where it was sent; the count told is right; at most one supervisor; the PTY has the last size on the list unless it refused one |
| HolderEvents.AllowedExactlyWhen | muster-holder/src/server.rs:418-461 | a request is let through if and only if it is a first hello, input or a size from an introduced client not attached read-only, a control from the supervisor, or its collection of an observed exit |
| HolderEvents.RefusedForReason | muster-holder/src/server.rs:418-461 | each reason for a refusal is given if and only if it applies, role by role and request by request |
| HolderProtocol.KeptIsSent | muster-holder/src/server.rs:382-388 | what the log held of a chunk and what the supervisor is sent beside it are together all that the gate kept, in order and without repeats |
| HolderServers.HolderServer.constructor | muster-holder/src/server.rs:193-238 | a new holder, with no clients, satisfies all of the above |
| HolderServers.HolderServer.ApplySize | muster-holder/src/server.rs:652-660 | PTY and emulator sizes always agree; a refusal changes neither; the same size changes nothing |
| HolderServers.HolderServer.TakeSize | muster-holder/src/server.rs:447-455 | the PTY has the size, the screen is laid out anew and exactly the attach clients are resynced to it; or it had it already, or refuses it, and no client is touched |
| HolderServers.HolderServer.ResyncAttached | muster-holder/src/server.rs:584-590 | exactly the attach clients are resynced to the screen as it is and nothing else changes; every client is in sync with it |
| HolderServers.HolderServer.Send | muster-holder/src/server.rs:708-715 | one client gets the frame, or, only if there was no room for it, is resynced, or dropped if it has yet to say hello; a client gone changes nothing |
| HolderServers.HolderServer.OnStalled | muster-holder/src/server.rs:759-767 | an introduced client is resynced, any other dropped |
| HolderServers.HolderServer.ReportAttached | muster-holder/src/server.rs:628-644 | if the writable attach clients are not as many as last reported the supervisor, and no one else, is sent their count; if they are, no client is touched; afterwards the count on record is right |
| HolderServers.HolderServer.DropClient | muster-holder/src/server.rs:665-678 | exactly that client goes, with the size it asked for, and the size falls back only if it was the latest; of the rest, the supervisor is sent the count if it changed, then the attach clients are resynced if the size did, and no one else is touched; every other field is as it was and everyone left is in sync |
| HolderServers.HolderServer.FallBack | muster-holder/src/server.rs:670-677 | if the latest size is gone the PTY takes the one asked for before it, or refuses and keeps its own; exactly the attach clients are resynced if the size changed, and no one is touched if not |
| HolderServers.HolderServer.BroadcastTo | muster-holder/src/server.rs:730-752 | each client in an accepted role gets the message, or, only if there was no room for it, a resync; no other is touched |
| HolderServers.HolderServer.TellOutput | muster-holder/src/server.rs:367-381 | after output is told, gated, cut or whole, every client is in sync with the new screen and log |
| HolderServers.HolderServer.TellUnlogged | muster-holder/src/server.rs:382-388 | the supervisor alone is sent the part of a chunk the log did not take, and no one's place in the log moves |
| HolderServers.HolderServer.TellAll | muster-holder/src/server.rs:367-388 | the sends of a chunk in order: held to the supervisor, whole to the rest, unlogged to the supervisor, each from the table the one before left; every client in sync |
| HolderServers.HolderServer.TellReset | muster-holder/src/server.rs:361-366 | after an emulator reset exactly those with a role are resynced to the reset screen, and the warning is sent, or waits for a supervisor |
| HolderServers.HolderServer.Answer | muster-holder/src/server.rs:343-349 | replies to terminal queries are queued for the child whole and in order, or lost only if there was no room for them, and nothing else changes |
| HolderServers.HolderServer.Absorb | muster-holder/src/server.rs:342-389 | screen and log take the chunk, and what each client was sent is the sends above, or the resync of a reset; all are in sync with both |
| HolderServers.HolderServer.OnOutput | muster-holder/src/server.rs:342-389 | the same, with the child's queries answered from the screen before the output; every other field is as it was |
| HolderServers.HolderServer.OnExit | muster-holder/src/server.rs:312-325 | the exit is held; the final screen goes to the supervisor and then the exit to everyone, and nothing else changes |
| HolderServers.HolderServer.SendScreen | muster-holder/src/server.rs:315-323 | the supervisor, and only it, gets the live screen |
| HolderServers.HolderServer.OnConnected | muster-holder/src/server.rs:392-404 | a connection joins without a role, unless its stream cannot be cloned |
| HolderServers.HolderServer.OnHello | muster-holder/src/server.rs:472-494 | the client has its role; a new supervisor evicts exactly the one before, with the sends of that departure; then the client alone is resynced, with a pending warning if it supervises; then the supervisor is sent the count if it changed; every other field is as it was and all are in sync |
| HolderServers.HolderServer.EvictSupervisors | muster-holder/src/server.rs:473-484 | exactly the supervisors go, with the sizes they asked for, the size falls back if it was theirs, and the attach clients are resynced if it changed |
| HolderServers.HolderServer.Introduce | muster-holder/src/server.rs:485-492 | the introduced client, and no other, gets the screen, the warning owed and the exit; a pending warning is sent to a new supervisor |
| HolderServers.HolderServer.Reject | muster-holder/src/server.rs:684-702 | the one refused is told so, and no one else; one yet to say hello is dropped instead only if there was no room to tell it, and nothing else changes |
| HolderServers.HolderServer.OnResize | muster-holder/src/server.rs:447-455 | the size asked for becomes the latest; the PTY has it, with exactly the attach clients resynced if it is another, or the one who asked, and no one else, is told it was refused |
| HolderServers.HolderServer.OnControl | muster-holder/src/server.rs:565-577 | the control is run for the supervisor; a graceful stop the child takes arms a timer for its grace; a control the child refuses arms none and the supervisor is told |
| HolderServers.HolderServer.OnInput | muster-holder/src/server.rs:439-446 | input is queued for the child whole and in order, or refused, only if there was no room for it, and the client told |
| HolderServers.HolderServer.OnMessage | muster-holder/src/server.rs:410-463 | a message of a client gone changes nothing; one out of role is refused and changes nothing else; any other is obeyed; serving finishes exactly when the supervisor collects an observed exit |
| HolderServers.HolderServer.OnAccepted | muster-holder/src/server.rs:439-463 | each accepted request does what it asks and no more |
| HolderServers.HolderServer.OnWriter | muster-holder/src/server.rs:877-891 | a writer thread taking frames between events leaves every client in sync |
| HolderServers.HolderServer.Handle | muster-holder/src/server.rs:266-303 | each event takes a valid state to a valid one, with every field and every client's outbox accounted for, and ends serving exactly by a supervisor's collection or an unsupervised deadline |
| HolderServers.HolderServer.Serve | muster-holder/src/server.rs:266-303 | the states of a run, each valid and each made of the one before by its event; serving stops at the first event that ends it; at the end: convergence, log following, exit heard, warning once, count known, one supervisor |
| HolderRuns.EventChanges | muster-holder/src/server.rs:266-303 | for every event: the signals sent, whether supervised, the list of sizes, the log, the exit, the refusal on record, who goes, who stays and in which role, and who joins |
| HolderRuns.ResetWarns | muster-holder/src/server.rs:361-366 | a chunk the emulator fails on makes the warning due and sends it at most once, to a supervisor if there is one; any other chunk leaves it alone |
| HolderRuns.SignalsOverRun | muster-holder/src/server.rs:282-291 | over every run the child was sent, in order and nothing else: a kill for each grace that ran out before any exit, a kill for a deadline before any exit and any supervisor, and each control from the supervisor of the moment |
| HolderRuns.KillsOverRun | muster-holder/src/server.rs:282-291 | over every run the kills for a grace and for the deadline are exactly as many as the events that call for them, told from the events before |
| HolderRuns.ControlsOverRun | muster-holder/src/server.rs:434-459 | over every run each control the child was sent was asked for by the client that was supervisor at that moment |
| HolderRuns.SupervisedOverRun | muster-holder/src/server.rs:472-474 | over every run the holder counts as supervised if and only if a supervisor's first hello was ever accepted |
| HolderRuns.EndsOnlySo | muster-holder/src/server.rs:286-298 | serving ends only at its last event, by the one supervisor there is collecting the exit there is, or by the deadline when no client ever became supervisor |
| HolderRuns.GoneForGood | muster-holder/src/server.rs:410-417 | over every run a client evicted or dropped never comes back under its number, and its messages change nothing |
| HolderRuns.LogOverRun | muster-holder/src/server.rs:342-359 | over every run the log is what was held of each chunk, in order, and a warning sent stays sent to the one it was sent to |
| HolderRuns.ResizesOverRun | muster-holder/src/server.rs:447-449 | over every run the list of sizes is the last that each client still connected asked for, in the order of asking |
| HolderRuns.LatestSizeOverRun | muster-holder/src/server.rs:652-678 | in every state of every run in which no size was refused, the PTY has the size most recently asked for by a client still connected, if there is one |
| HolderRuns.RefusedOverRun | muster-holder/src/server.rs:652-660 | a size counts as refused if and only if in some state of the run the PTY did not have the latest asked for |
| HolderDuties.ReadersOverRun | muster-holder/src/server.rs:431-433 | over every run, input or a size from a client attached read-only changes nothing but that it is told it may only read |
| HolderDuties.WritersOverRun | muster-holder/src/server.rs:439-455 | over every run, a size from any other introduced client becomes the latest, and its input joins the child's unless there is no room and it is told so |
| HolderDuties.GracesOverRun | muster-holder/src/server.rs:565-577 | over every run a timer is armed for the grace of a stop the supervisor asks for and the child takes, and by no other event |
| HolderDuties.EndsExactlyWhen | muster-holder/src/server.rs:286-298 | an event ends serving if and only if it is the supervisor collecting an exit that came before, or the deadline with no client having taken charge |
| HolderDuties.ScreenOverRun | muster-holder/src/server.rs:342-360 | over every run the screen is the first one fed each chunk and resized to each new size, in order |
| HolderDuties.AttachedOverRun | muster-holder/src/server.rs:613-644 | over every run the count on record is that of the clients let in as writable attach clients and not gone since |
| HolderDuties.InputOverRun | muster-holder/src/server.rs:343-349 | over every run the child's input is added to only by those who may write and by the answers to its own queries |
| HolderDuties.OutputArrives | muster-holder/src/server.rs:367-381 | over every run an attached terminal with room for it gets each chunk as the child wrote it, behind all it was sent before and with none of that lost |
| HolderDuties.ExitArrives | muster-holder/src/server.rs:312-325 | the same of the exit |
| HolderDuties.SnapshotsOverRun | muster-holder/src/server.rs:546-557 | over every run every snapshot any client is sent names the child's pid and where its run starts |
| HolderRaces.EveryRaceRuns | muster-holder/src/byte_queue.rs:55-73 | whatever is queued, and whichever of it the writer is to receive during a clear, some interleaving of the two threads does just that |
| HolderRaces.EveryMaskHappens | muster-holder/src/server.rs:504-543 | so with a whole resync, step by step from the client's outbox |
| HolderRaces.TilingSurvivesExactlyWhen | muster-holder/src/server.rs:504-543 | a supervisor's stream stays tiled through a resync under every schedule of its writer if and only if no output is queued behind a queued frame that moves on along the log |
| HolderRaces.ScreensSurviveExactlyWhen | muster-holder/src/server.rs:504-543 | every exit keeps its screen ahead of it under every schedule if and only if for each queued exit that screen has already been taken |
| HolderRaces.WarningsSurviveExactlyWhen | muster-holder/src/server.rs:504-543 | every warning stays ahead of every exit under every schedule if and only if there is no exit in the stream, or no warning queued or owed |
| HolderRaces.ResyncOrders | muster-holder/src/server.rs:504-543 | the order after a resync in terms of the frames the writer received |
| HolderDisorder.OvertakingLosesTheTiling | muster-holder/src/server.rs:361-366 | a valid holder, an emulator failure, and a run of the resync after which the supervisor's stream has a hole |
| HolderDisorder.OvertakingHidesTheScreen | muster-holder/src/server.rs:759-767 | a valid holder of a terminal as large as one may be, whose child has exited, a refusal that does not fit the outbox its snapshot filled, and a run of the resync after which the exit has no screen before it |
| HolderDisorder.OvertakingWarnsTooLate | muster-holder/src/server.rs:759-767 | the same, with a run after which the warning follows the exit |
| HolderOrders.EventExplained | muster-holder/src/server.rs:266-303 | whatever the event, a supervisor who stays gets exactly its sends, each as a frame or, only if there was no room, a resync in its place: held and unlogged output; screen then exit; a reset; a refusal of its own request; the count when it changed; otherwise nothing |
| HolderOrders.OnlyHelloAdmits | muster-holder/src/server.rs:472-494 | no event but a first hello puts a client in charge |
| HolderOrders.AdmittedInOrder | muster-holder/src/server.rs:485-492 | a client that takes charge starts with every order kept, however its writer raced, and any exit right after the current screen |
| HolderOrders.ChargeHasStart | muster-holder/src/server.rs:472-494 | over every run whoever is in charge took charge by some event and has been since, if no one was at first |
| HolderOrders.RunExplained | muster-holder/src/server.rs:266-303 | over every run there is such a story of a supervisor for every event since it took charge |
| HolderOrders.OrdersOverRun | muster-holder/src/server.rs:504-557 | over every run and in every story of it: if each resync since a supervisor took charge started with no output behind a queued frame that moves on, its output tiles the log; likewise exits after screens and warnings before exits, each with its own condition |
| HolderOrders.ExitsShowScreensSince | muster-holder/src/server.rs:312-325 | over every run a supervisor whose writer never overtook a clear hears each exit right after a repaint of a screen the holder had at that exit or since |
| HolderRaces.TiledExactlyWhen | muster-holder/src/server.rs:504-557 | frames dropped from a tiled stream leave it tiled if and only if no output is kept whose place was lost |
| HolderRaces.ExitsShownExactlyWhen | muster-holder/src/server.rs:312-325 | frames dropped leave each exit right after a screen if and only if each exit kept still has one ahead |
| HolderRaces.WarnsFirstExactlyWhen | muster-holder/src/server.rs:504-543 | a resync keeps warnings ahead of exits if and only if the writer has taken no exit or no warning is left |
| FallibleHolders.FallibleHolder.DropClient | muster-holder/src/server.rs:665-678 | with every push free to fail the recursion ends, the client is gone, nobody joins or changes role, the count reported is right, the size is the latest asked for unless refused |
| FallibleHolders.FallibleHolder.ReportAttached | muster-holder/src/server.rs:628-644 | ends with the count right although each send may drop a client and so report again |
| FallibleHolders.FallibleHolder.Send | muster-holder/src/server.rs:708-715 | ends, with fewer clients or the same |
| FallibleHolders.FallibleHolder.OnStalled | muster-holder/src/server.rs:759-767 | ends, with fewer clients or the same |
| FallibleHolders.FallibleHolder.Resync | muster-holder/src/server.rs:504-543 | ends, dropping a client whose push fails |
| FallibleHolders.FallibleHolder.ResyncAttached | muster-holder/src/server.rs:584-611 | ends although each resync may drop a client and so resize and resync again |
| FallibleHolders.FallibleHolder.ApplySize | muster-holder/src/server.rs:652-660 | the size is taken or the refusal noted |
| Alerting.Alerts.Take | muster-mcp/src/alerts.rs:47-83 | for that project only: a call that had read no mark shows nothing; any other shows the newest five of the crashes, timeouts and blocks of its page that no call which moved the mark meanwhile covered, counts the rest, and says if the page had a gap; the mark moves to the page's end if no call moved it since or the end is further in the same epoch |
| Alerting.StepKeepsInv | muster-mcp/src/alerts.rs:47-83 | every step of every call keeps told, passed over and mark consistent |
| Alerting.MarkNeverGoesBack | muster-mcp/src/alerts.rs:62-66 | in every state any interleaving reaches, no step moves the mark back |
| Alerting.ToldAtMostOnce | muster-mcp/src/alerts.rs:47-83 | under every interleaving within one epoch each event is told at most once; without gaps the alarming events up to the mark are exactly those told and those passed over by a call that had read no mark |
| Alerting.ShownAtMostOnce | muster-mcp/src/alerts.rs:47-83 | under every interleaving within one epoch no event is shown twice, in one view or two, every event shown was told, and those shown and those counted as omitted are as many as were told |
| Alerting.CallTellsItsPage | muster-mcp/src/alerts.rs:68-83 | a call that had read a mark accounts for exactly the alarming events of its page past the mark it found, showing the newest few and counting the rest, and reports a gap exactly when the page has one |
| StackSyncs.IndexByKey | muster-application/src/stack_sync.rs:35-38 | each key maps to the first process that has it |
| StackSyncs.NextPane | muster-application/src/stack_sync.rs:39-44 | the next id is one past the largest |
| StackSyncs.MatchStack | muster-application/src/stack_sync.rs:45-65 | the loop over the stack places, keeps and adds exactly as the diff declares |
| StackSyncs.SplitRest | muster-application/src/stack_sync.rs:66-79 | the processes left over split into retiring and removed in order |
| StackSyncs.Apply | muster-application/src/stack_sync.rs:30-84 | the result is the declared diff: stack in order, kept panes with id and state and the new definition, consecutive new ids, then the retiring |
| StackSyncs.SyncedFollowsStack | muster-application/src/stack_sync.rs:45-65 | the workspace starts with the stack's definitions in order; the first of each key keeps the pane and state of the first process that had it, any other is pending in a new pane above all before it |
| StackSyncs.AddedAreNew | muster-application/src/stack_sync.rs:55-64 | the panes added are exactly those of the stack's processes that no process had before |
| StackSyncs.RestFollowsInOrder | muster-application/src/stack_sync.rs:66-79 | after the stack come, in their old order, exactly the other processes that are live; the others are removed, in theirs |
| StackSyncs.SyncKeepsPanesDistinct | muster-application/src/stack_sync.rs:30-84 | a sync never gives two processes one pane |
| StackSyncs.SyncSplitsOldPanes | muster-application/src/stack_sync.rs:66-79 | old panes split exactly into kept, retiring and removed; retiring are live, removed are not; added are above every old one |
| StackSyncs.SyncTwice | muster-application/src/stack_sync.rs:35-79 | a second sync adds nothing if and only if the stack names no key twice; then no stack process changes, and nothing at all if and only if every retiring pane is still live |
| StackSyncs.Workspace.PositionOf | muster-application/src/workspace.rs:36-40 | the first process with that pane, or none |
| StackSyncs.Workspace.Remove | muster-application/src/workspace.rs:29-33 | exactly the pane's owner goes, the others stay in order |
| StackSyncs.Workspace.SetState | muster-application/src/workspace.rs:48-52 | exactly the owner's state changes |
| StackSyncs.Workspace.Run | muster-application/src/workspace.rs:24-52 | over every run of syncs, pushes, removals and state changes each does what it declares, and panes stay distinct throughout if and only if no process pushed has a pane another owns |
| StackSyncs.ChangeKeepsPanesDistinct | muster-application/src/workspace.rs:24-52 | a change keeps panes distinct if and only if it is not a push of a process whose pane another owns |
| StackSyncs.PanesStayDistinctExactlyWhen | muster-application/src/workspace.rs:24-52 | so over every run of changes, whatever made them |
| TodoPages.Resume | muster-client/src/todo_page.rs:58-62 | everything before the place is at or before the cursor, everything from it is past it |
| TodoPages.PageSays | muster-client/src/todo_page.rs:40-53 | a page holds as many as it may from the first on, and has more, and a cursor at its last, if and only if it left some |
| TodoPages.ListedIs | muster-mcp/src/coordination_tools.rs:314-333 | a call lists only todos that are there, wanted and past its cursor, in order |
| TodoPages.ListedHas | muster-mcp/src/coordination_tools.rs:314-333 | and every one of them |
| TodoPages.ResumeAfterPage | muster-client/src/todo_page.rs:40-62 | resuming where a page ended lists exactly what the page left |
| TodoPages.PagesGlueToListing | muster-client/src/todo_page.rs:40-62 | for a listing that stays the same, all pages glued together are the filtered listing, and only the last says there is no more |
| TodoPages.PageBetweenCursors | muster-client/src/todo_page.rs:40-62 | a page lies past the cursor it was asked with and up to the one it answers with |
| TodoPages.NeverTwice | muster-client/src/todo_page.rs:40-62 | whatever changes between pages, positions only grow, so no todo is listed twice |
| TodoPages.NothingMissed | muster-client/src/todo_page.rs:40-62 | once a page says there is no more, every todo there and wanted at every call has been listed |
| TodoPages.PagingEnds | muster-client/src/todo_page.rs:40-62 | whatever is added, deleted or changed between calls, and for any page sizes, there are at most as many pages with more to follow as positions that ever held a todo |
| Outcomes.FailsExactlyWhen | muster-client/src/outcome.rs:75-266 | for every action and pair of listings the outcome is a failure if and only if the process is not as the action asks, and unsettled if and only if it is between states |
| Outcomes.SuccessSaysWhich | muster-client/src/outcome.rs:169-266 | a launch reports a new child if and only if the one listed is not the one before; a stop tells ended from never running; a pause or resume whether it was so already |
| Outcomes.EndingSaysWhich | muster-client/src/outcome.rs:169-187 | for every listing before and after, which of four outcomes an action that ends processes has |
| Outcomes.SuspendingSaysWhich | muster-client/src/outcome.rs:190-221 | the outcome of a pause or resume for every listing before and after |
| Outcomes.LaunchSaysWhich | muster-client/src/outcome.rs:224-275 | each outcome of a launch if and only if what the listings show of its child calls for it |
| Outcomes.WaitedOut | muster-client/src/action.rs:90-117 | which states each action waits out, the first half second of a launched child included |
| Outcomes.SettledOutcome | muster-client/src/action.rs:90-117 | a process no longer settling is never reported as starting or stopping, a removed one only as stopped or not having run |
| Outcomes.OnItsWayFailsExactlyWhen | muster-client/src/outcome.rs:169-187 | a process on its way fails outright if and only if its removal has not begun to stop it |
| SettleReports.Find | muster-client/src/process.rs:974-979 | the first process listed under that name, none if there is none |
| SettleReports.LongestGrace | muster-client/src/process.rs:826-830 | an upper bound on the graces of the named processes that one of them has, or zero |
| SettleReports.Moving | muster-client/src/process.rs:836-840 | exactly the named processes listed as settling |
| SettleReports.Await | muster-client/src/process.rs:833-852 | for every sequence of looks: ends at the first with nothing moving or past the deadline, remembers exactly who was seen moving, and passes on errors and interrupts; it always ends |
| SettleReports.Report | muster-client/src/process.rs:813-896 | the report is of that look, with one row per name and the notices since the request sorted by whom they are about, or the error met |
| SettleReports.WaitLasts | muster-client/src/action.rs:119-130 | a wait that timed out lasted every grace and the margins of its action; one cut short its bound, which is less; no look but the last came after either |
| SettleReports.NoticesSplit | muster-client/src/process.rs:876-886 | each notice since the request is the report's own or another's according to whether it names one of the processes, as often as raised; earlier ones are in neither |
| SettleReports.BlockShown | muster-client/src/process.rs:856-875 | each row is of its name as last listed, and says what the process waits for unless it was to end |
| SettleReports.SettledReport | muster-client/src/process.rs:833-875 | a settled report has no still-starting or still-stopping outcome, and of a removal only stopped and was-not-running |
| SettleReports.FailedExactlyWhen | muster-client/src/action_report.rs:77-87 | the command fails if and only if a named process is not as asked, and not under way when cut short, or an error about one was raised since the request |
| SettleReports.CutShortExcusesExactlyWhen | muster-client/src/action_report.rs:73-87 | a process on its way when the wait is cut short counts as a failure if and only if its removal has not begun to stop it |
| SettleReports.CutShortRemovalFails | muster-client/src/process.rs:444-469 | a run of a removal cut short that fails although its only process is on its way |
| SettleReports.ClaimingSortsByAll | muster-client/src/action_report.rs:58-70 | claiming notices about more names comes to sorting by all names at once: none lost, none doubled, none left in the context |
| ServiceLogs.TailSince | muster-client/src/service_log.rs:37-56 | the result is the last lines of a full read after `from`: twenty, or as many as begin past the start of the bounded read; with their ends they are the last bytes written after `from`; empty when unreadable |
| ServiceLogs.LinesMakeUpText | muster-client/src/service_log.rs:48-48 | the lines of any text, each followed by a line feed with or without a carriage return, only the last possibly by nothing, make up the text |
| ServiceLogs.OnlyLinesDo | muster-client/src/service_log.rs:48-48 | and no other lines do |
| ServiceLogs.LongLogReadInPart | muster-client/src/service_log.rs:41-51 | of a log that grew by more than the bound, the lines that begin within its last 16 KiB are seen |
| ServiceLogs.CutLines | muster-client/src/service_log.rs:47-51 | cutting a text anywhere and dropping the line cut leaves a suffix of the text's lines |
| ServiceLogs.CountLines | muster-client/src/service_log.rs:48-48 | a text has one line and one more for each line feed that is not its last byte |
| ServiceLogs.LinesHoldNoLineFeed | muster-client/src/service_log.rs:48-48 | no line holds a line feed |
| ServiceLogs.ShortLogReadWhole | muster-client/src/service_log.rs:41-42 | a log that grew by no more than the bound since `from` is read whole |
| Descriptions.ResolvedMeans | muster-mcp/src/described.rs:130-136 | with values inside no later key, replacing one after another is replacing all at once, for every template |
| Descriptions.ResolvedMeansExactlyWhen | muster-mcp/src/described.rs:130-136 | the two agree on every template if and only if no value lies within a key replaced after it |
| Descriptions.BrokenResolves | muster-mcp/src/described.rs:130-136 | otherwise a template exists whose replacement goes on to a placeholder the template never held |
| PlaceholderTable.TableApart | muster-mcp/src/described.rs:39-95 | the table's own 35 keys, with any numbers and comma-separated lists for values, are bracketed and distinct and meet that condition |
| PlaceholderTable.DescriptionsMean | muster-mcp/src/described.rs:130-136 | so every description comes to mean what its template says |

## Left out

- Sockets, threads, PTYs, signals, file permissions and process spawning: threads appear only as interleaved steps, the PTY only as accepting or refusing a size.
- The terminal emulator and keyboard tracker: a record of functions with four laws (a repaint rebuilds the state it was taken of; feeding, resetting and resizing have the sizes they should).
- The screen gate and the rotating log: each chunk of output carries what they made of it, constrained to hold a prefix of what was logged, or all of it and perhaps a line end.
- Encoding errors of frames: encoding is total, each message having some length on the wire; HolderDisorder counts the lengths there are.
- Timers: which are armed is on record, but a grace or deadline elapsing is an event that may come at any time.
- Wrap-around of the byte counter, log offsets, pane ids and attach counts: these are unbounded here.
- HolderServers.HolderServer.TellUnlogged: does not promise that an unlogged frame survives a resync, because a resync keeps only warnings.
- HolderTable.Resync: does not model dropping a client whose forced push fails, because such a push cannot fail on a live queue; FallibleHolders has that branch, without the frames.
- HolderState.ValidMeans: log tiling, exit after screen and warning before exit are stated for supervisors whose writer has not overtaken a clear, the last also while the child's reader sends nothing after the exit, because they are false otherwise; HolderRaces has the exact condition on each resync and HolderOrders carries it over runs, but once an order is lost nothing is promised of it for the rest of that client's stream.
- Alerting.ToldAtMostOnce: does not cover calls in flight across a service restart, for which the code promises nothing; the event log's pages are assumed to be in order and to hold every alarming event they do not flag a gap for.
- StackSyncs: normalising process names to keys is not modelled; a spec carries its key.
- SettleReports.Report: does not model rendering of notices and statuses, nor the rows `up` adds for processes found running or refused.
- ServiceLogs.TailSince: works on bytes, because lossy UTF-8 decoding leaves line feeds and carriage returns where they are.
- PlaceholderTable.DescriptionsMean: takes the values as any numbers and lists rather than the constants they are, and does not model walking the tool schemas' JSON for description fields.
- Process lifecycle, coordination store, project and settings files, views, argument parsing and tool wiring: each is one match or plumbing.

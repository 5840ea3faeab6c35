# Isolated component container: models and proofs

A composable-node container that gives every component a process of its own. A
manager forks the processes, answers a supervisor over a control socket, and
watches and stops what it forked. This project models the manager's load
protocol, the socket's JSON and framing, the hand-over of early frames, the
talk between parent and child while a component comes up, the memory gate, the
shutdown and the order of the mutexes, and proves what they are for.

Functions say what a critical section, a parse or a line on a pipe comes to;
methods and classes do the same step by step, as the sources do, and are proved
against the functions; lemmas then say what holds of every input and every run.

## Modules

| files | what they hold |
|---|---|
| `LoadTables` | the shared tables of the manager: a class whose methods are its critical sections, and the functions they are proved against |
| `LoadProtocol` | readers, services, workers, monitor, destructor and environment as one state machine; one action is one critical section or one outside effect |
| `LoadInvariant`, `LoadTaskSteps`, `LoadSharedSteps`, `LoadClientSteps`, `LoadOtherSteps` | the invariant of every interleaving, and its proof actor by actor |
| `LoadTheorems`, `LoadAnswers`, `LoadReports`, `LoadRequests`, `LoadEndings`, `LoadShutdown`, `LoadSignals`, `LoadTraces` | what the invariant says of every reachable state and of whole runs: that what is told is true, that every request is answered, which cancels are honoured, in which order an outcome and a farewell are sent, what a context that is down stops, and how often a process is signalled at shutdown; runs that show where more would be false |
| `JsonValue`, `JsonSpec`, `JsonParser` | values and their typed reads, the parse as a function of text and position, the parser with its cursor |
| `JsonGrammar`, `JsonReading`, `JsonSoundness` | the grammar of RFC 8259 with every choice a writer has; the parser accepts exactly its (slightly widened) texts and finds what they mean |
| `JsonUnicode`, `Utf8`, `JsonAlphabet` | escapes and surrogate pairs against RFC 3629; the characters the parser knows, spelled out |
| `JsonWriter`, `Decimal` | `quote`, `ObjectWriter`, and the round trip |
| `Frames`, `ControlSocket`, `SendLock` | frames as functions on byte streams, the read and write loops over a scripted socket, many senders under the write lock |
| `Handover`, `EarlyFrames` | held frames and their replay while the reader goes on; the same joined to the load protocol, frame by frame |
| `ReadyPipe`, `SpawnArgs`, `RosArguments` | the two halves of the spawn protocol, parent and child; what a reader of the command line finds in it |
| `Admission`, `Shutdown`, `Locks` | the memory gate, the stopping of children, deadlock freedom |

Text is a `string` with one `char` per byte throughout.

## Findings

Places where a stronger statement would be false. Each has a run or an input
that shows it.

* A cancel can be overtaken: set between the pre-fork check and the moment the
  pid is on record, its flag is dropped and the load ends as `loaded`
  (`LoadTraces.CancelCanBeOvertaken`). A flag is sure to be honoured exactly if
  the worker has not come past the pre-fork check, or waits for a child that died
  in silence or wrote something else than that it is up, or has already given the
  child up (`LoadEndings.CancelIsHonouredIffInTime`); it is then confirmed as
  `load_failed` with `cancelled` set (`LoadEndings.CancelInTimeIsConfirmed`). A
  cancel that kills is one of these exactly if the kill lands before the child has
  written that it is up, or after it was given up
  (`LoadEndings.KillIsHonouredIffUnreported`, `LoadEndings.KillInTimeIsConfirmed`).
* A cancel that goes on to kill can come to its kill with nothing owed any more
  (`LoadTraces.CancelKillCanComeLate`). What holds: the outcome was owed when
  the flag was set, and is owed still or stands on the wire after that moment
  (`LoadTheorems.CancelKillIsAnswered`).
* `crashed` and `unloaded` can reach the wire before `loaded`
  (`LoadTraces.CrashCanComeFirst`, `LoadTraces.UnloadCanComeFirst`): exactly if
  they are sent while the load's worker has registered the child and not yet
  reported it (`LoadEndings.FarewellFirstIffReporting`). They never go with
  `load_failed` (`LoadEndings.FarewellMeansLoaded`).
* The destructor can find one process both registered and still pending, and
  then sends it SIGTERM twice (`LoadTraces.OneProcessInBothLists`): exactly if the
  load's worker has registered the child and not yet taken its pending entry
  (`LoadSignals.OnBothLists`, `LoadSignals.TermsOfProcess`).
* Ids start again at 1 after the counter's overflow
  (`LoadTheorems.IdsRestartAfterOverflow`); all statements about runs reach up
  to the first overflow.
* A frame that arrives during the replay can overtake held ones
  (`Handover.ReplayCanBeOvertaken`); `Handover.ArrivalOrder` says exactly when.
  A query that does so can be answered `unknown` for a load whose frame arrived
  before it and which is still to be forked (`EarlyFrames.QueryCanOvertakeLoad`):
  exactly if that load has not been put on record when the query looks
  (`EarlyFrames.InformedIffMapped`, `EarlyFrames.MappedIffInserted`). With nothing
  arriving during the replay it always has
  (`EarlyFrames.QueryBehindLoadIsInformed`).
* If a send fails and another one, already past its look at `active`, then
  succeeds in writing, its frame is appended to a torn one
  (`SendLock.LateBytesMixFrames`). Before such a write, and in every run in which
  nobody else was past that look, the order stands (`SendLock.SentInLockOrder`,
  `SendLock.AloneFailsSafely`).
* The sender does not look at the frame cap, and cuts lengths of 2^32 or more
  down to 32 bits (`Frames.CapDecides`, `Frames.HugeIsTorn`).
* A name with a newline or NUL in it can be lost on the ready pipe
  (`ReadyPipe.RecoveredIffClean`). A line cut short by a failed or interrupted
  write is taken for a death, and the child is not signalled
  (`ReadyPipe.PartialIsNoAnswer`).
* Half a surrogate pair, or bytes that are no character, are accepted and come
  out as they are. A string that is read comes out as UTF-8 exactly if it was
  written character by character (`JsonUnicode.ReadsUtf8IffCharacters`).
* An integer read of `1e3` is 1: `strtoll` succeeds on the leading digits, so the
  double reading the comment in `as_int64` promises for such texts is reached
  only by those that start with no digits or are out of range
  (`Decimal.IntegerPartIsRead`).
* A thread count that an `int` cannot hold arrives as another number
  (`SpawnArgs.ThreadCountHeld`).

## Assumptions

Pids are fresh per fork. A process sent SIGKILL dies. Publishing and logging do
not throw and change nothing modelled. A `send` is one step of the manager; that
its bytes arrive whole is what `Frames`, `ControlSocket` and `SendLock` are about.

The services of the executor make no more requests once the destructor has joined
the channel's reader: the executor has stopped spinning by then.

In the load protocol a child writes one line into its ready pipe, whole, or none,
and closes its end without a line only by ending; so end-of-file without a newline
is a death there. `ReadyPipe` does not assume this and shows what becomes of a line
cut short by a failed or interrupted write while the child lives on: the parent
takes it for gone, and nobody signals, waits for or watches it any more
(`ReadyPipe.PartialIsNoAnswer`). What the load protocol says of processes holds of
children that do not do this.

## Model

| member | source | states |
|---|---|---|
| `LoadTables.Manager.ReserveNodeId` | src/clone_isolated_component_manager.cpp:1061-1084 | the id drawn, the pending entry and the sequence mapping; zero is the overflow, after which the counter has moved on and nothing was inserted |
| `LoadTables.Manager.NoteForked` | src/clone_isolated_component_manager.cpp:1086-1094 | a pending load gets its pid and phase; a load no longer pending is left alone |
| `LoadTables.Manager.TakePending` | src/clone_isolated_component_manager.cpp:1096-1109 | the entry is gone afterwards, and whether it was cancelled, with which reason, is handed back |
| `LoadTables.Manager.CheckBeforeFork` | src/clone_isolated_component_manager.cpp:1131-1142 | the entry goes exactly if it carries a cancel, and then the reason of the cancel is handed back |
| `LoadTables.Manager.AddChild` | src/clone_isolated_component_manager.cpp:1169-1172 | the child is registered under its id, the other tables are unchanged |
| `LoadTables.Manager.RemoveChild` | src/clone_isolated_component_manager.cpp:1456-1475 | the child that was there is handed back and is registered no longer; a missing id changes nothing |
| `LoadTables.Manager.FlagCancelled` | src/clone_isolated_component_manager.cpp:1399-1408 | flag and reason are set on a pending load, and the pid to kill is the one on record then |
| `LoadTables.Manager.HandleControlQuery` | src/clone_isolated_component_manager.cpp:1343-1390 | undisturbed, a query is answered from the pending entry, else from the registered child, else with `unknown`, for the id asked or the one its sequence number maps to; what the answers then say is in `LoadReports.StatusIsTrue` |
| `LoadTables.Manager.ListNodes` | src/clone_isolated_component_manager.cpp:1500-1516 | exactly the registered ids that are not pending, each with the name its node reported |
| `LoadReports.SectionsShow` | src/clone_isolated_component_manager.cpp:1061-1109 | what each section of a load leaves for a query to find: `queued` with the plugin and no pid when reserved, `constructing` with the pid when forked, nothing pending once taken, `loaded` with pid and name when registered, nothing once removed |
| `LoadReports.FlagShows` | src/clone_isolated_component_manager.cpp:1399-1408 | a cancel leaves flag and reason on the pending load until its entry is taken, and changes nothing a query sees |
| `LoadReports.SectionsSpareOthers` | src/clone_isolated_component_manager.cpp:1061-1109 | no section touches what is on record for another load |
| `LoadInvariant.InitInv` | src/clone_isolated_component_manager.cpp:296-330 | the invariant holds when the manager has been constructed |
| `LoadTaskSteps.TaskStepKeepsInv` | src/clone_isolated_component_manager.cpp:1111-1244 | every step of a worker's spawn, on every path, keeps the invariant |
| `LoadTaskSteps.TaskProfile` | src/clone_isolated_component_manager.cpp:1117-1243 | a worker's step touches its own load's entries only, adds at most one frame, and takes back nothing the load has reached |
| `LoadTaskSteps.AfterStep` | src/clone_isolated_component_manager.cpp:1117-1243 | whatever a worker's next step is and however its outside call ends, the load it works on is sound after it at its new program point, has lost nothing, and any frame sent is about that load |
| `LoadClientSteps.PendingMiss` | src/clone_isolated_component_manager.cpp:1350-1376 | a load on record that has no pending entry is past `take_pending` |
| `LoadClientSteps.ChildMiss` | src/clone_isolated_component_manager.cpp:1378-1389 | a load past `take_pending` that is then not registered either has no running process and will not fork one |
| `LoadClientSteps.ClientStepKeepsInv` | src/clone_isolated_component_manager.cpp:1300-1475 | every section of a load, query, cancel or unload request keeps the invariant and runs no load's own code |
| `LoadOtherSteps.DtorStepKeepsInv` | src/clone_isolated_component_manager.cpp:332-391 | every step of the destructor keeps the invariant |
| `LoadOtherSteps.StepKeepsInv` | src/clone_isolated_component_manager.cpp:332-1745 | the invariant is inductive over every action of every actor, and no action but a worker's own forks, answers or runs a load's code |
| `LoadTheorems.RunKeepsInv` | src/clone_isolated_component_manager.cpp:332-1745 | every state of every run satisfies the invariant until the id counter is exhausted |
| `LoadTheorems.QuietForever` | src/clone_isolated_component_manager.cpp:1154-1174 | once no process runs for a load and its worker is past the fork, that stays so |
| `LoadTheorems.AnnouncedIsKnown` | src/clone_isolated_component_manager.cpp:1313-1376 | a query by an accepted id, or by a sequence number already mapped, that misses the pending entry goes on to `children_` with the load known |
| `LoadTheorems.RunningIsVisible` | src/clone_isolated_component_manager.cpp:1154-1174 | in every reachable state a load whose process runs is pending, registered or held by the destructor |
| `LoadTheorems.UnknownMeansNothingRuns` | src/clone_isolated_component_manager.cpp:1334-1390 | in every run, when a query for a known load is about to answer `unknown`, no process runs for that load then or later, and none will be forked |
| `LoadReports.StatusIsTrue` | src/clone_isolated_component_manager.cpp:1343-1390 | every status sent in a reachable state answers a query with what it asked by, and is true: `queued` only for a pending load with no pid on record, `constructing` only for one with its own process on record, both with the plugin asked for; `loaded` only for a registered child, with its pid and the name it wrote; `unknown` only at the end of a query, and for a known load only if nothing runs or will be forked |
| `LoadReports.UnknownHasLooked` | src/clone_isolated_component_manager.cpp:1350-1389 | in every run an `unknown` was sent after its query had looked and missed: its id was not pending when it read the pending loads, and then not registered when it read the children |
| `LoadReports.FramesAreTrue` | src/control_channel.cpp:326-401 | in every reachable state, a `loaded`, `constructing` or `crashed` on the wire names the pid of its load, a `loaded` the name its child wrote |
| `LoadReports.ClientSays` | src/clone_isolated_component_manager.cpp:1313-1485 | each section of a request sends the frame it is for and no other |
| `LoadReports.ReportsAreSent` | src/clone_isolated_component_manager.cpp:440-456 | every report of a load still waiting goes out, as `queued` with no pid from the memory gate and as `constructing` with the child's pid from the wait for its line |
| `LoadTheorems.ForkNeedsTask` | src/clone_isolated_component_manager.cpp:1154 | a process comes to run for a load only by a step of that load's own worker that has not passed its fork |
| `LoadTheorems.OneOwner` | src/clone_isolated_component_manager.cpp:1154-1172 | a load's child, pidfd and parameter file have exactly one owner in every state; owned they are unreleased, let go they are released exactly once |
| `LoadTheorems.ShutdownReleasesEverything` | src/clone_isolated_component_manager.cpp:332-391 | when the destructor is done no child ever forked runs, and each file and descriptor was released exactly once |
| `LoadShutdown.NothingStartsWhenDown` | src/clone_isolated_component_manager.cpp:1117-1122 | a load whose worker has not looked at the context when it goes down is never forked and gets no outcome, in any continuation |
| `LoadShutdown.NothingIsTakenOverWhenDown` | src/clone_isolated_component_manager.cpp:1160-1211 | a load whose worker is past the check and not past its second look when the context goes down is never registered and gets no outcome, in any continuation |
| `LoadShutdown.WorkersOutliveChildren` | src/clone_isolated_component_manager.cpp:355-377 | in every reachable state in which a worker thread has ended, every child the destructor took has been collected and let go |
| `LoadShutdown.DestructorIsAlone` | src/clone_isolated_component_manager.cpp:334-353 | while the destructor is at its children the monitor has ended and no request is under way |
| `LoadShutdown.NothingAfterStop` | src/clone_isolated_component_manager.cpp:334-377 | from the destructor's first step on nothing is sent, and from its stop of the workers on no load is begun |
| `LoadTheorems.PendingIsCarried` | src/clone_isolated_component_manager.cpp:1061-1109 | a pending load is with the thread that reserved it, in the queue, or with a worker, and has no outcome yet |
| `LoadTheorems.FinishedIsAnswered` | src/clone_isolated_component_manager.cpp:1143-1231 | with the context up and the channel open, a load whose work is over has exactly one outcome on the wire |
| `LoadTheorems.AtMostOneOutcome` | src/clone_isolated_component_manager.cpp:1143-1231 | no id gets two of `loaded` and `load_failed` |
| `LoadTheorems.AcceptedComesFirst` | src/clone_isolated_component_manager.cpp:1313-1331 | for a load asked for over the socket, `accepted` stands before every `constructing`, `loaded` or `load_failed` |
| `LoadRequests.LoadIsAnsweredOnce` | src/clone_isolated_component_manager.cpp:1300-1332 | in every run with the channel open a load asked for over the socket is under way until exactly one of `accepted`, with the id drawn, and `rejected` has been sent for it, both with its number; `rejected` exactly if the plugin was not available or the counter drew zero |
| `LoadRequests.LoadIsAnswered` | src/clone_isolated_component_manager.cpp:1300-1332 | at any later moment the request is under way or that answer stands on the wire behind its beginning |
| `LoadRequests.RejectedIsTurned` | src/clone_isolated_component_manager.cpp:1303-1321 | a `rejected` is sent only for a request with its number that was turned away |
| `LoadRequests.FirstComeFirstServed` | src/clone_isolated_component_manager.cpp:466-494 | in every run loads are begun in the order they were queued, each once, and the rest wait in that order |
| `LoadTheorems.CancelFindsDebt` | src/clone_isolated_component_manager.cpp:1399-1430 | a cancel that finds its load pending, at either look, finds that the worker still owes its one outcome |
| `LoadAnswers.DebtIsPaid` | src/clone_isolated_component_manager.cpp:1143-1231 | an outcome owed at one moment: if the work on the load is over at a later one, with the context up and the channel open, the outcome stands on the wire behind that moment |
| `LoadAnswers.QueryIsAnswered` | src/clone_isolated_component_manager.cpp:1343-1390 | in every run with the channel open a query is under way until a status for what was asked stands on the wire |
| `LoadAnswers.CancelIsAnswered` | src/clone_isolated_component_manager.cpp:1392-1436 | in every run with the channel open a cancel is under way until a status for its id has been sent since it started, or its own second look found the outcome owed, or its own kill left the process dead with no outcome sent before the cancel |
| `LoadAnswers.CancelIsSettled` | src/clone_isolated_component_manager.cpp:1392-1436 | a cancel that has returned: a status for its id was sent since it started, or the load is on record and, if the work on it is over, its one outcome was sent since |
| `LoadTheorems.CancelKillIsAnswered` | src/clone_isolated_component_manager.cpp:1399-1420 | for a cancel about to kill, the outcome was owed when the flag was set, and by now it is owed still or was sent after that |
| `LoadAnswers.KillSparesOthers` | src/clone_isolated_component_manager.cpp:1410-1420 | the kill leaves the cancelled load's process dead and every other load as it was |
| `LoadTheorems.DoomedStays` | src/clone_isolated_component_manager.cpp:1131-1152 | no step of anyone frees a load cancelled before its check |
| `LoadTheorems.EarlyCancelPreventsFork` | src/clone_isolated_component_manager.cpp:1127-1152 | a flag set before the pre-fork check: in no continuation is a process forked for the load |
| `LoadTheorems.DoomedIsCancelled` | src/clone_isolated_component_manager.cpp:1143-1151 | such a load's outcome, if it gets one, is `load_failed` with `cancelled` true, and with the context up and the channel open it gets it |
| `LoadEndings.CancelIsHonouredIffInTime` | src/clone_isolated_component_manager.cpp:885-1231 | in every reachable state, for every cancelled pending load: no continuation sends `loaded` for it exactly if its worker has not come past the pre-fork check, or waits for a child that died in silence or wrote something else than that it is up, or has given the child up |
| `LoadEndings.CanStillLoad` | src/clone_isolated_component_manager.cpp:885-1185 | from every other program point between the check and the report, cancelled or not, some continuation sends `loaded`: a child waited for must have written that it is up, or live and still be silent |
| `LoadEndings.BarredForGood` | src/clone_isolated_component_manager.cpp:885-1231 | a load cancelled before the check, given up by its worker, or whose child can no longer say that it is up while it is waited for, stays so in every continuation |
| `LoadEndings.FlagIsTold` | src/clone_isolated_component_manager.cpp:1200-1231 | in every continuation a `load_failed` for a load cancelled while pending has `cancelled` set |
| `LoadRequests.ConfirmedWasAsked` | src/clone_isolated_component_manager.cpp:1143-1231 | in every run a load no cancel has found pending is never reported as cancelled |
| `LoadEndings.CancelInTimeIsConfirmed` | src/clone_isolated_component_manager.cpp:1131-1231 | in every continuation of a cancel in time the load has no outcome but `load_failed` with `cancelled` set, and with the context up and the channel open it has that one once its work is over |
| `LoadEndings.KillIsHonouredIffUnreported` | src/clone_isolated_component_manager.cpp:1410-1420 | after a cancel's kill of a pending load no continuation sends `loaded` exactly if the kill landed while the child was waited for and had not written that it is up, or after it was given up |
| `LoadEndings.KillInTimeIsConfirmed` | src/clone_isolated_component_manager.cpp:937-1231 | after such a kill the load has no outcome but `load_failed` with `cancelled` set in any continuation, and with the context up and the channel open it has that one once its work is over |
| `LoadTheorems.NoCrashIsLost` | src/clone_isolated_component_manager.cpp:1019-1028 | a registered child's open pidfd is in the epoll set, and the child is dead exactly when epoll reports it, also if it died before it was registered |
| `LoadTheorems.EarlyEventIsKept` | src/clone_isolated_component_manager.cpp:1572-1579 | an event handled before the child is registered changes nothing and stays to be reported |
| `LoadTheorems.CrashIsReported` | src/clone_isolated_component_manager.cpp:1543-1633 | two steps of the monitor report a registered child's death and release it |
| `LoadTheorems.OnlyDeadAreReported` | src/clone_isolated_component_manager.cpp:1572-1633 | the monitor never removes a live child |
| `LoadTheorems.AtMostOneFarewell` | src/clone_isolated_component_manager.cpp:1483-1485 | no id gets two of `crashed` and `unloaded` |
| `LoadTheorems.RemovedIsReported` | src/clone_isolated_component_manager.cpp:1572-1633 | a child the monitor has taken out is on the wire as `crashed` exactly once, as long as the channel is open |
| `LoadRequests.UnloadIsAnswered` | src/clone_isolated_component_manager.cpp:1439-1485 | in every run with the channel open an unload is under way until `unloaded` for its id has been sent since, unless it found the load pending or no such child |
| `LoadRequests.UnloadSparesConstruction` | src/clone_isolated_component_manager.cpp:1443-1452 | an unload that goes on to the child of a load on record when it looked finds it past construction |
| `LoadRequests.UnloadReleases` | src/clone_isolated_component_manager.cpp:1455-1476 | the section that takes a child out leaves its process collected, what it held released, and every other load as it was |
| `LoadEndings.FarewellMeansLoaded` | src/clone_isolated_component_manager.cpp:1169-1231 | no id gets both `load_failed` and a `crashed` or `unloaded` |
| `LoadEndings.FarewellFirstIffReporting` | src/clone_isolated_component_manager.cpp:1169-1185 | in every run with both on the wire, `crashed` or `unloaded` stands before `loaded` exactly if it was sent while the worker had registered the child and not yet reported it |
| `LoadAnswers.IdsAreUnique` | src/clone_isolated_component_manager.cpp:1061-1070 | until the overflow no two requests of a run are given the same id |
| `LoadAnswers.RunKeepsPidsDistinct` | src/clone_isolated_component_manager.cpp:795-805 | in every run, with fresh pids, no two loads ever have the same process |
| `LoadTheorems.IdsRestartAfterOverflow` | src/clone_isolated_component_manager.cpp:1066-1069 | the caller that draws the overflow is turned away and adds nothing, and the next gets id 1, whatever has become of the first load of that id |
| `LoadTheorems.ListedIsLoaded` | src/clone_isolated_component_manager.cpp:1500-1516 | a listed id is past `take_pending` and owned by `children_` alone |
| `LoadReports.ListedIffDone` | src/clone_isolated_component_manager.cpp:1500-1516 | in every reachable state exactly the registered children whose workers have taken their pending entries are listed |
| `LoadTheorems.NobodyIsStuck` | src/clone_isolated_component_manager.cpp:1300-1475 | in every reachable state each request under way, each worker with work or told to stop, each load being worked on and the monitor can go on |
| `LoadTheorems.DestructorIsNotStuck` | src/clone_isolated_component_manager.cpp:332-391 | until it is done the destructor can go on, or what it waits for can |
| `LoadTraces.CancelCanBeOvertaken` | src/clone_isolated_component_manager.cpp:1131-1174 | a run in which a cancel has flagged a load and returned, and the load then ends as `loaded` with its process running |
| `LoadTraces.CrashCanComeFirst` | src/clone_isolated_component_manager.cpp:1169-1185 | a run with `crashed` on the wire before `loaded` |
| `LoadTraces.UnloadCanComeFirst` | src/clone_isolated_component_manager.cpp:1439-1485 | a run in which `unloaded` stands before `loaded` |
| `LoadTraces.CancelKillCanComeLate` | src/clone_isolated_component_manager.cpp:1399-1420 | a run in which the outcome is sent before the cancelling thread has come to its kill |
| `LoadTraces.OneProcessInBothLists` | src/clone_isolated_component_manager.cpp:1643-1658 | a run in which the destructor has read one living process from both lists |
| `LoadSignals.RegisteredAndPending` | src/clone_isolated_component_manager.cpp:1169-1174 | in every reachable state a registered child is still pending, as under construction and with its own pid, exactly while its worker stands between registering it and taking its pending entry |
| `LoadSignals.OnBothLists` | src/clone_isolated_component_manager.cpp:1643-1657 | when the destructor reads the pending loads a pid is on both its lists exactly if it is that of a child it has taken whose worker still stands there |
| `LoadSignals.TermsOfProcess` | src/clone_isolated_component_manager.cpp:1643-1687 | in whatever order it reads its maps, a process gets two SIGTERMs exactly if its worker stands there, and none exactly if it is on neither list |
| `JsonSpec.SkipWs` | src/control_json.cpp:148-158 | ends at the first position that holds no white space |
| `JsonSpec.HexValueOfFour` | src/control_json.cpp:311-333 | four hexadecimal digits are worth their base-16 sum, below 2^16 |
| `JsonAlphabet.DigitsCount` | src/control_json.cpp:316-327 | the digit at each of the sixteen positions is worth that position, in upper and in lower case |
| `JsonAlphabet.NoOtherDigits` | src/control_json.cpp:316-327 | and there are no other digits |
| `JsonAlphabet.EveryHexSpellingIsRead` | src/control_json.cpp:310-333 | through the parser: four digits, each in either case, are read as the code point they spell in base sixteen |
| `JsonAlphabet.EveryPairIsRead` | src/control_json.cpp:380-404 | through the parser: the two halves of a character beyond U+FFFF, spelled in any case, are read as that character |
| `JsonAlphabet.EscapesAre` | src/control_json.cpp:352-378 | the eight short escapes and the characters they stand for |
| `JsonAlphabet.SpacesAre` | src/control_json.cpp:139-149 | white space is the four characters RFC 8259 lists |
| `JsonAlphabet.NumberCharsAre` | src/control_json.cpp:414-421 | a number may hold the sixteen characters listed and no others, and starts with at most two kinds of sign |
| `JsonAlphabet.RejectionsAreSpelled` | src/control_json.cpp:126-137 | message and position for texts that are rejected |
| `JsonAlphabet.StructuresAreRejected` | src/control_json.cpp:214-409 | message and position of every way a list, an object or a string is rejected |
| `JsonSpec.ParseText` | src/control_json.cpp:126-137 | an accepted text was read to its end and was not empty; a rejection has a message and a position inside the text |
| `JsonSpec.ValueAt` | src/control_json.cpp:170-212 | every accepted value consumes at least one byte and ends inside the text |
| `JsonSpec.Chars` | src/control_json.cpp:335-409 | so does every accepted string, the look-ahead for a pair included |
| `JsonParser.AppendUtf8` | src/control_json.cpp:292-309 | appends the code point's bytes and nothing else |
| `JsonParser.Parser.Fail` | src/control_json.cpp:140-146 | message and offset are recorded if there is somewhere to record them |
| `JsonParser.Parser.ReportIsSpelled` | src/control_json.cpp:142-144 | what an error says of its place, or nothing without an error string |
| `JsonParser.Parser.SkipSpace` | src/control_json.cpp:148-158 | the cursor moves to the first position that holds no white space |
| `JsonParser.Parser.Literal` | src/control_json.cpp:160-168 | accepts exactly the word at the cursor and moves past it, or does not move |
| `JsonParser.Parser.ParseHex4` | src/control_json.cpp:311-333 | four digits are read or the cursor stays, with the error for a short or a bad escape |
| `JsonParser.Parser.ParseUnicode` | src/control_json.cpp:380-404 | a pair is joined, any other look-ahead is undone, and a malformed second escape is an error |
| `JsonParser.Parser.ParseString` | src/control_json.cpp:335-409 | cursor, value and error are those of the string at the cursor |
| `JsonParser.Parser.ParseNumber` | src/control_json.cpp:411-429 | the text of the run of number characters, or an error behind a lone sign |
| `JsonParser.Parser.ParseValue` | src/control_json.cpp:170-212 | cursor, value and error are those of the value at the cursor |
| `JsonParser.Parser.ParseObject` | src/control_json.cpp:214-257 | likewise for an object, in which the first of two members with one key stays |
| `JsonParser.Parser.ParseArray` | src/control_json.cpp:259-289 | likewise for an array, in order |
| `JsonParser.Parser.Run` | src/control_json.cpp:126-137 | likewise for the whole text |
| `JsonParser.ParseJson` | src/control_json.cpp:436-444 | comes to an end on every text, and says what `ParseText` says; a rejection leaves a non-empty error with the offset if an error string was given |
| `JsonGrammar.FirstCounts` | src/control_json.cpp:242 | a tree's object has, under each key, the value of the first member with that key, and no other keys |
| `JsonGrammar.StrictIsLoose` | src/control_json.cpp:170-429 | every tree of RFC 8259, sections 2 to 7, is one the parser's grammar allows |
| `JsonReading.CharsRead` | src/control_json.cpp:335-409 | the spelling of any list of characters and escapes is read as what it says |
| `JsonReading.CodeRead` | src/control_json.cpp:380-404 | the look-ahead joins two escapes exactly when they are the halves of one character |
| `JsonReading.ValueRead` | src/control_json.cpp:170-429 | the text of any legal tree, anywhere in a text, is read as the tree's value, up to its end |
| `JsonReading.CharsFound` | src/control_json.cpp:335-409 | every string the parser accepts is the spelling of some list of characters and escapes |
| `JsonSoundness.ValueFound` | src/control_json.cpp:170-429 | every value the parser accepts is the text of some legal tree |
| `JsonSoundness.TreesAreAccepted` | src/control_json.cpp:126-137 | every text of a legal tree, with any white space around it, is accepted with the tree's value |
| `JsonSoundness.AcceptedAreTrees` | src/control_json.cpp:126-137 | every accepted text is such a text, and its value is the tree's |
| `JsonSoundness.ParserIsTheGrammar` | src/control_json.cpp:436-444 | the accepted texts are exactly the texts of the grammar |
| `JsonSoundness.EveryRfcTextIsRead` | src/control_json.cpp:436-444 | every RFC 8259 text is accepted and read as it is meant, whatever white space, escapes and spelling of numbers it uses |
| `JsonSoundness.MeaningIsUnique` | src/control_json.cpp:436-444 | two trees with one text have one value |
| `Utf8.BitsAreArithmetic` | src/control_json.cpp:292-309 | the masks and shifts of the source are the quotients and remainders the model uses |
| `Utf8.EncodeDecodes` | src/control_json.cpp:292-309 | a scalar value's bytes are well-formed by RFC 3629 and decode to it; any other code point's are not well-formed |
| `Utf8.DecodeEncodes` | src/control_json.cpp:292-309 | a well-formed sequence is the encoding of what it stands for |
| `Utf8.ExamplesEncode` | src/control_json.cpp:292-309 | the examples of section 7 of RFC 3629, and the first and last code points of each length, byte by byte |
| `Utf8.WellFormedAfter` | src/control_json.cpp:292-309 | a code point's bytes in front of a string leave it well-formed exactly if the code point is a scalar value and the rest is well-formed |
| `JsonUnicode.CharactersAreRead` | src/control_json.cpp:335-409 | a string of characters, each written as its bytes, a short escape, a code or a pair, is read as the characters' UTF-8 |
| `JsonUnicode.EveryCharacterEscapes` | src/control_json.cpp:380-404 | every scalar value has a code of its own, or a pair from 0x10000 on, that decoding finds again |
| `JsonUnicode.ReadsUtf8IffCharacters` | src/control_json.cpp:335-409 | every legal spelling of a string is read, and comes out as UTF-8 if and only if it is a list of characters, each written in one of its ways |
| `JsonWriter.Quote` | src/control_json.cpp:448-492 | a quote, each byte spelled in order, a quote |
| `JsonAlphabet.BytesAreSpelled` | src/control_json.cpp:448-492 | quotes, backslashes and control characters are escaped, in lower-case digits, and nothing else is |
| `JsonWriter.SpokenBack` | src/control_json.cpp:448-492 | what `quote` spells is read back byte for byte, for every string |
| `JsonWriter.ObjectWriter.FieldString` | src/control_json.cpp:503-510 | one more field behind those written so far |
| `JsonWriter.ObjectWriter.FieldCString` | src/control_json.cpp:512-515 | a null pointer is written as the empty string |
| `JsonWriter.ObjectWriter.FieldUint64` | src/control_json.cpp:517-524 | one more field behind those written so far |
| `JsonWriter.ObjectWriter.FieldInt64` | src/control_json.cpp:526-533 | one more field behind those written so far |
| `JsonWriter.ObjectWriter.FieldBool` | src/control_json.cpp:540-547 | one more field behind those written so far |
| `JsonWriter.ObjectWriter.Str` | src/control_json.cpp:549-555 | the object of all fields written, closed; the empty object for none |
| `JsonWriter.WritesJson` | src/control_json.cpp:448-555 | whatever is written is an RFC 8259 object |
| `JsonWriter.WriterReadBack` | src/control_json.cpp:448-555 | parsing what was written gives exactly the keys written, each with its first value |
| `JsonWriter.TypedReadBack` | src/control_json.cpp:84-117 | and through the typed accessors strings come back byte for byte and 64-bit integers and booleans exactly |
| `Decimal.Uint64RoundTrip` | src/control_json.cpp:103-117 | every 64-bit unsigned integer survives writing and `as_uint64` |
| `Decimal.Int64RoundTrip` | src/control_json.cpp:84-101 | every 64-bit signed integer survives writing and `as_int64` |
| `Decimal.PlacesAreTens` | src/control_json.cpp:517-533 | each digit written stands for its power of ten, and a longer number starts with no zero |
| `Decimal.OutOfRangeFallsBack` | src/control_json.cpp:84-117 | an integer out of a reader's range is not read; with a minus sign the unsigned reader wraps |
| `Decimal.OthersFallBack` | src/control_json.cpp:60-117 | a value of another kind, or a text with no digits in front, reads as the fallback |
| `Decimal.IntegerPartIsRead` | src/control_json.cpp:84-117 | an integer read of a text that starts with an integer in range and goes on with something else is that integer, whatever the fallback |
| `Frames.HeaderLength` | src/control_channel.cpp:408-413 | the receiver reads the length the sender wrote, modulo 2^32 |
| `Frames.StreamReceived` | src/control_channel.cpp:431-456 | all payloads within the cap are received in order, and what follows them is read as if it stood alone |
| `Frames.PrefixReceived` | src/control_channel.cpp:431-456 | of any first part of a stream exactly the frames whole in it are received |
| `Frames.CapDecides` | src/control_channel.cpp:444-448 | a payload is received as itself exactly if it is within the cap; a longer one below 2^32 ends the stream |
| `Frames.CapIsEightMebibytes` | src/control_channel.cpp:444-448 | a payload of 8388608 bytes is received, one of a byte more is not |
| `Frames.HeaderIsSpelled` | src/control_channel.cpp:408-413 | the four bytes of the length in their order on the wire |
| `Frames.HugeIsTorn` | src/control_channel.cpp:408 | from 2^32 bytes on a piece of the payload can be received for the whole |
| `ControlSocket.ReadExact` | src/control_channel.cpp:70-89 | the next bytes, all or with word that the stream ended or broke, whatever the sizes of the reads and the interrupts |
| `ControlSocket.WriteAll` | src/control_channel.cpp:91-107 | all bytes in order, or a first part of them and false; all of them if the calls are only interrupted or short |
| `ControlSocket.Channel.SendRaw` | src/control_channel.cpp:403-429 | a frame goes out whole and the channel stays active, or a first part does and it is inactive, which it never is if the calls are only interrupted or short; nothing goes out on an inactive or closed one |
| `ControlSocket.Channel.ReaderLoop` | src/control_channel.cpp:431-456 | dispatches the frames of what it read; unless a read failed, of all that was sent; and leaves the channel inactive |
| `SendLock.StepKeepsInv` | src/control_channel.cpp:403-429 | at each write call of each sender the wire holds whole frames in lock order and the holder's part |
| `SendLock.SentInLockOrder` | src/control_channel.cpp:403-456 | for any number of senders, in every state before bytes are written behind a failed send, any first part of the bytes is received as a prefix of the payloads in lock order, and all of them if no send failed |
| `SendLock.InactiveForGood` | src/control_channel.cpp:424 | after a failed send the channel never becomes active again |
| `SendLock.AloneFailsSafely` | src/control_channel.cpp:405-428 | if nobody else was past the look at `active` when a send failed, nothing is written ever after |
| `SendLock.LateBytesMixFrames` | src/control_channel.cpp:405-428 | a run in which bytes are written behind a failed send and a payload is received that nobody sent |
| `Handover.Backlog.Enqueue` | src/control_channel.cpp:562-576 | a frame is held, last, exactly while there are no handlers |
| `Handover.Backlog.SwapOut` | src/control_channel.cpp:254-264 | handlers are there from then on, and all that was held is taken in order |
| `Handover.RunKeepsInv` | src/control_channel.cpp:254-268 | under every interleaving the delivered frames are a merge of held and later ones, each in order of arrival |
| `Handover.ExactlyOnce` | src/control_channel.cpp:254-268 | every frame that arrived is delivered once or is in exactly one place from which it will be |
| `Handover.DeliveredMerges` | src/control_channel.cpp:254-268 | the held frames delivered are the first of them in order, the direct ones likewise; with the replay done, all held ones |
| `Handover.ArrivalOrder` | src/control_channel.cpp:265-267 | delivery is in order of arrival exactly as long as the reader delivered nothing during the replay |
| `Handover.QuietReplayKeepsOrder` | src/control_channel.cpp:254-268 | if nothing arrives during the replay, delivery is in order of arrival |
| `Handover.ReplayCanBeOvertaken` | src/control_channel.cpp:257-268 | a run in which a later frame is delivered before a held one |
| `EarlyFrames.JointRunKeepsInv` | src/control_channel.cpp:254-268 | with nothing arriving during the replay, frames are handled one at a time in order of arrival, and every load frame handled has its sequence number mapped |
| `EarlyFrames.QueryBehindLoadIsInformed` | src/control_channel.cpp:562-576 | then a query by sequence number that comes to answer `unknown` for a load whose frame arrived before it does so only for a load on record with no process running or to be forked |
| `EarlyFrames.InformedIffMapped` | src/clone_isolated_component_manager.cpp:1343-1390 | in every joint run, whatever arrives when: a query by number that comes to answer `unknown` does so of a load asked for with that number, with no process running or to be forked, exactly if the number was mapped when it looked at the pending loads; otherwise the answer names no load |
| `EarlyFrames.MappedIffInserted` | src/clone_isolated_component_manager.cpp:1071-1083 | in every joint run a number is mapped exactly once `reserve_node_id` has put a load asked for with it on record |
| `EarlyFrames.QueryCanOvertakeLoad` | src/control_channel.cpp:254-268 | a run in which a query that arrives during the replay is answered `unknown` for a load that is put on record, to be forked, afterwards |
| `ReadyPipe.WriteReady` | src/component_node.cpp:43-55 | the whole line if no write fails, else a first part of it, and then the pipe is closed |
| `ReadyPipe.AwaitReady` | src/clone_isolated_component_manager.cpp:885-955 | outcome, text, time waited and reports are those of the events in order, with the text of each chunk cut at its first NUL |
| `ReadyPipe.Conclude` | src/clone_isolated_component_manager.cpp:963-1017 | the name, or the whole error text and whether the child is killed, for each outcome and line |
| `ReadyPipe.AnswerRecovered` | src/clone_isolated_component_manager.cpp:888-1009 | a name or error text with no newline or NUL comes back exactly, however the line is split and whatever signals and quiet seconds come between |
| `ReadyPipe.RecoveredIffClean` | src/clone_isolated_component_manager.cpp:937-1001 | a name comes back under every split exactly if it has no newline and no NUL |
| `ReadyPipe.PartialIsNoAnswer` | src/clone_isolated_component_manager.cpp:937-972 | a line without its newline is never an answer; at end-of-file the child is taken for dead and not signalled |
| `ReadyPipe.OutcomeIsTrue` | src/clone_isolated_component_manager.cpp:880-993 | the outcome names the event that ended the wait: a deadline only for a child found alive in that second, a death only where the process was found gone or the pipe ended; a failed child is killed exactly if it was not found gone |
| `ReadyPipe.WaitIsMeasured` | src/clone_isolated_component_manager.cpp:901-935 | a deadline is given only if one was asked for, at the first whole second that reaches it; there is one report for every fifteen seconds waited, but for the second that shows a deadline or a death |
| `ReadyPipe.WaitInNumbers` | src/clone_isolated_component_manager.cpp:901-935 | in numbers: a deadline falls within a second of the time asked for, and reports are fifteen seconds apart |
| `ReadyPipe.SecondsArePolled` | src/clone_isolated_component_manager.cpp:887-903 | the time waited is a second for each poll that found nothing |
| `ReadyPipe.ErrorsAreSpelled` | src/clone_isolated_component_manager.cpp:957-986 | the error texts for a death, a deadline and a failed poll, word for word, with the seconds waited |
| `ReadyPipe.OtherLinesFail` | src/clone_isolated_component_manager.cpp:1002-1009 | a line that is neither `OK` nor `ERR` is reported as it is, and the child is killed |
| `SpawnArgs.BuildArgs` | src/clone_isolated_component_manager.cpp:660-786 | the argument list for a request, descriptor filled in, and the last log directory given |
| `SpawnArgs.ParseArgs` | src/component_node.cpp:86-139 | the settings the loop ends with and the arguments from `--ros-args` on |
| `SpawnArgs.ArgsRoundTrip` | src/component_node.cpp:99-119 | for every request the child gets package and plugin as C strings, the descriptor, the executor kind, forwarding if any extra asks for it, the last positive thread count, and the ROS arguments as built |
| `SpawnArgs.RemapsInOrder` | src/clone_isolated_component_manager.cpp:764-768 | the remap rules stand one by one, each behind its flag, in the order of the request |
| `RosArguments.TailIsRead` | src/clone_isolated_component_manager.cpp:735-771 | read flag by flag, the arguments behind `--ros-args` are the node's own rules, then the request's in order, the log level and the parameter file, each there exactly if the request gives it |
| `RosArguments.NodeIsNamed` | src/clone_isolated_component_manager.cpp:738-752 | among the node's own rules `__node` carries exactly its name and `__ns` its namespace, with one slash put in front exactly if it had none, each there exactly if it is not empty |
| `RosArguments.HeadIsSpelled` | src/clone_isolated_component_manager.cpp:660-675 | the first arguments of every child, word for word |
| `RosArguments.ExtrasAreSpelled` | src/clone_isolated_component_manager.cpp:689-730 | what each extra argument adds, word for word |
| `RosArguments.LogDirIsLast` | src/clone_isolated_component_manager.cpp:709-713 | the log directory is the last text given for it, and empty if there is none |
| `RosArguments.ThreadsAreLast` | src/clone_isolated_component_manager.cpp:714-730 | the thread count handed on is the last positive one asked for, and zero if there is none |
| `RosArguments.NothingIsDefault` | src/component_node.cpp:86-98 | without any argument it knows the child has no names, no pipe, and takes nothing for ROS |
| `RosArguments.AtoiReads` | src/component_node.cpp:109 | a number is read as C reads it: behind white space, with a sign, up to the first character that is no digit |
| `RosArguments.NoNumberIsZero` | src/component_node.cpp:109-117 | a descriptor or thread count that starts with no number is zero |
| `RosArguments.AtoiWraps` | src/component_node.cpp:116-117 | beyond 32 bits a number keeps its low bits, as a signed one; beyond 64 it is read as the nearest 64-bit one |
| `SpawnArgs.NothingLost` | src/clone_isolated_component_manager.cpp:788-793 | texts without NUL are handed over unchanged |
| `SpawnArgs.ThreadCountHeld` | src/component_node.cpp:116-117 | a thread count comes back as itself exactly if an `int` can hold it |
| `Admission.AwaitSpawnCapacity` | src/clone_isolated_component_manager.cpp:408-464 | for every sequence of readings, which reading ends the wait and why, every sleep and every report |
| `Admission.GateIsBounded` | src/clone_isolated_component_manager.cpp:416-464 | at most 120250 ms of sleep and eight reports |
| `Admission.GateOpens` | src/clone_isolated_component_manager.cpp:416-464 | the gate opens at the first reading that fails or reaches the floor, or at the 481st |
| `Admission.PacesAre` | src/clone_isolated_component_manager.cpp:440-463 | readings are 250 ms apart and reports 15 s, the first at once |
| `Admission.BoundsAreMet` | src/clone_isolated_component_manager.cpp:416-464 | both bounds are reached when memory never comes free |
| `Shutdown.Stagger` | src/clone_isolated_component_manager.cpp:1671-1687 | one SIGTERM for each entry with a pause between any two |
| `Shutdown.Sweep` | src/clone_isolated_component_manager.cpp:1695-1698 | one look at each process; exactly those found running stay on the list, and nothing but collecting is done |
| `Shutdown.Reap` | src/clone_isolated_component_manager.cpp:1689-1709 | for every exit behaviour every process is collected; SIGKILL goes to exactly those found running at every look, at least one look for each pause of 10 ms, and not before 5 s have passed |
| `Shutdown.TerminateChildren` | src/clone_isolated_component_manager.cpp:1637-1719 | signals, then collection of every child, by force only as `Reap` says, counted from after the last signal; then its descriptor and file, each once and in this order |
| `Shutdown.CleanupChild` | src/clone_isolated_component_manager.cpp:1723-1745 | SIGTERM, then collection: SIGKILL exactly if all of 51 looks over half a second found the process running; then descriptor and file |
| `Shutdown.ReleasedOnce` | src/clone_isolated_component_manager.cpp:1711-1718 | of distinct descriptors and files each is closed and removed exactly once |
| `Shutdown.DescriptorFirst` | src/clone_isolated_component_manager.cpp:1711-1718 | a child's descriptor is closed before its file is removed |
| `Shutdown.StaggerIsBounded` | src/clone_isolated_component_manager.cpp:1671-1687 | the signals go to the targets in order, and the pauses come to one less than their number |
| `Shutdown.StaggerAlternates` | src/clone_isolated_component_manager.cpp:1680-1687 | signals and pauses take turns, the k-th signal goes to the k-th target |
| `Shutdown.StepIsLongest` | src/clone_isolated_component_manager.cpp:1671-1679 | the pause is 5 ms up to 200 targets, and beyond that the longest that keeps all of them within a second |
| `Shutdown.TermsPerProcess` | src/clone_isolated_component_manager.cpp:1643-1687 | a process gets one SIGTERM for each of the two lists it is on; no pause is over 5 ms and all together are at most 1 s, for any number of targets |
| `Locks.RoutinesKeepOrder` | src/clone_isolated_component_manager.cpp:332-1745 | every path through every routine, frame handlers that throw anywhere included, takes mutexes in rising order, joins and waits with none held, and ends with none |
| `Locks.ItemBalanced` | src/clone_isolated_component_manager.cpp:1117-1243 | so does every path of a worker's item, sends under the admission mutex included |
| `Locks.DestroyBalanced` | src/control_channel.cpp:219-242 | so do `stop` and the destructor, whose joins hold no mutex |
| `Locks.NoDeadlock` | src/clone_isolated_component_manager.cpp:332-383 | for any number of threads, in every reachable state with a thread waiting for a mutex, a thread that holds one can go on |

## Left out

- `write_params_file`: creates a file or returns the empty string; the YAML it writes is not modelled.
- `/proc` and environment reads, clocks and `elapsed_ms`, CPU times, process start times: inputs, or not modelled.
- ROS publishing, logging, the service plumbing and the ament index: publishing and logging are no-ops, plugin lookup is an arbitrary boolean.
- `hello`, protocol versions and fault injection; `dispatch`'s choice of fields: JSON objects and frames are modelled, the copying of fields between them is not.
- `as_double`, and integer reads that fall through to it: `JsonValue.Value.AsInt64` is `None` there.
- The node name in `crashed` and `unloaded`, the start time in `loaded`, and the error texts in `load_failed` and `rejected`: the frames of `LoadProtocol` carry ids, pids, phases and the name in `loaded`.
- What the load protocol would make of a child that closes its ready pipe without a whole line and lives on.
- The answers `deliver` sends for a handler that throws: `Locks` has their paths; in `LoadProtocol` handlers do not throw.
- What a rejected parse leaves in `*out`.
- Stack depth, allocation failure and sizes near `SIZE_MAX`.
- The class loading and executor set-up of `component_node`; its resource lookup.
- `clone_vm_component_manager`, `observable_component_manager`, `component_container`, `slow_loader`.
- Pid reuse and SIGPIPE.
- The admission mutex is released before the fork, so the gate bounds one caller's wait and not the memory of all.
- The load protocol takes a frame sent under a mutex as part of that mutex's section; the mutexes themselves, and the writing of the frame, are modelled in `Locks` and `SendLock`.
- ShutdownReleasesEverything: says dead, not reaped, for a child that was seen to end by end-of-file, because its worker does not wait for it.
- RemoveChild: says what the section does to the table; the epoll removal, the stopping and the clean-up in the same section of `on_unload_node` are `LoadProtocol.UnloadLoad` and `Shutdown.CleanupChild`.
- HandleControlQuery: says what one undisturbed query reports, without the elapsed and CPU times; what other threads do between its two sections is in `LoadProtocol`, `LoadReports.StatusIsTrue` and `LoadTheorems.UnknownMeansNothingRuns`.

# Pragma: verified models

This project models the parts of Pragma whose correctness depends on order, crashes
and interleaving, and proves what they promise:

- the terminal input queue of the desktop client: producers, one writer thread, retries
  (`InputQueue`, `InputWriter`, `InputSystem`, `InputTheorems`);
- push registration against push revocation in the phone app, one `await` at a time, with
  crashes and failing storage: the machine (`PushProtocol`, `PendingRevocations`), the order of
  what reaches a host (`PushOrdering`, `PushFreshness`), what is owed to hosts that were left
  (`PushObligations`, `PushDurability`) and exactly when it is forgotten (`PushExactness`), what
  holds of every run without any condition (`PushHistory`), and runs that break the guarantees
  (`PushRuns`); and the serialized edits of its saved hosts (`SavedHostsChain`, `SavedHosts`);
- the byte bridge between a local socket and a remote stream (`Bridge`);
- resuming a terminal from a byte cursor, together with the host's bounded scrollback
  (`Scrollback`, `TerminalResume`);
- the data structures of the phone app: worktree forest, file explorer, chat transcript
  (`WorktreeForest`, `FileTree`, `Transcript`);
- blanking hidden windows in a screen capture (`Redaction`);
- the supervisor of one agent run, crashes included (`Supervisor`).

`Basics` and `Seqs` hold shared types and facts about sequences. Code that changes state in
place is modelled by classes and loops, each proved against a specification function; code
whose difficulty is concurrency is modelled as a machine of labelled atomic steps, and its
theorems hold of every finite run. `dafny verify dfyconfig.toml` checks everything.

## How to read the step machines

`Enabled(s, l)` says when step `l` can happen and `Next(s, l)` what it does; a run is a list
of states and the labels between them, and `Leads(labels, t)` says that some run makes these
steps and ends in `t`. Steps that can fail have one label for each outcome,
so a theorem about all runs is a theorem about all failures. A crash is a step. Where a
guarantee needs a condition, the condition is a named predicate on steps or states
(`Waits`, `Disciplined`, `MissesNothing`, `RestoresClean`, `Careful`, `Smooth`,
`AttachesBetweenBroadcasts`), lemmas say how exact it is, and a lemma gives a concrete run that
breaks the guarantee without it.

In the push machine a `Leave` is a session that an unpair has left: the host and the session's
number. Sessions are numbered over all launches. Queue entries, POSTs and DELETEs carry the host
and the session they are for. `left` collects the leaves from the moment the save of their unpair
has settled, and `fate` what became of them; both only grow, and outlast every crash. A leave is
kept while the queue has its entry, once it has had an outcome, while the connection stored is
still one to its host and nothing is about to erase it, and while its host is being paired.

## What the proofs brought out

- **Attaching in the middle of a broadcast repeats output.** `Session::attach` takes the
  scrollback lock and the subscriber lock together and its comment says this makes attaching
  atomic with respect to broadcasting. `Session::broadcast`, however, gives the scrollback
  lock up before it takes the subscriber lock. An attachment in between finds the frame in its
  replay and is handed it again. The phone's cursor then runs ahead of the stream, and its next
  attachment can skip as many bytes as it had repeated.
  `TerminalResume.AttachIsExactlyInStepBetweenBroadcasts` states exactly when this happens, and
  `TerminalResume.ARepeatCanTurnIntoAGap` gives a run.
- **A crash while re-pairing can forget a host that was left.** `pair` drops the host's queued
  revocation before it stores the connection. A crash, or a failing store, in between leaves the
  host neither stored nor queued, and it keeps pushing (`PushRuns.ACrashInPairingForgetsTheHost`).
- **A failed read of the revocation queue counts as an empty queue.** The save of an unpair then
  writes that back and forgets every queued host (`PushRuns.AFailedReadForgetsTheQueue`); and a
  pairing then leaves its host's old entry in place, so that the retry of a later launch takes the
  new registration down (`PushRuns.AFailedReadLetsAnOlderDeleteThrough`).
- **The launch-time retry can take a freshly queued host out again**, because its write is
  made from what it read at launch (`PushRuns.RetryCanUndoAnUnpair`).
- **An erase that fails or is cut off hides a host that was left.** The code ignores a failing
  erase, and a crash can come before it. The host is then left and still stored, and once its
  entry is gone only the stored connection remembers it: the next launch discards that when it
  cannot restore it, and a new pairing overwrites it (`PushRuns.AFailedRestoreForgetsTheHost`,
  `PushRuns.ANewPairingForgetsTheHost`). Discarded while its entry is still queued, it can be
  forgotten like any other (`PushRuns.ADiscardedHostCanBeForgotten`,
  `PushRuns.AFailedReadForgetsADiscardedHost`).
- **These, and the failed write of an unpair's own save, are all the steps that can lose a host
  that an unpair has left** while pairing waits for revocations: a run keeps every such host at
  every moment if and only if each of its steps meets the condition that `Careful` puts on it
  (`PushExactness.RunsForgetNobodyExactlyIfCareful`). So a run forgets nobody if no unpair fails to
  read or write the queue or saves while the retry is at work, and the app neither goes down nor
  gives up between dropping a host's entry and storing its pairing
  (`PushExactness.SmoothRunsForgetNobody`).
- **A launch that cannot reach the stored host discards the connection and queues no revocation**,
  though the host may hold a registration. Nothing was unpaired, so no obligation arises
  (`PushRuns.AFailedRestoreQueuesNothing`).
- **A restored session can be taken down by its own interrupted unpair.** A crash between the save
  and the erase of an unpair leaves the entry queued and the connection stored: the next launch
  restores and registers, and the retry then sends the old DELETE
  (`PushRuns.ARestoredSessionCanBeTakenDown`; `PushFreshness.NoOlderDeleteAfterRestore` and
  `PushRuns.ARestoreLetsAnOlderDeleteThrough` say exactly when).
- **An unpair can be undone by a crash.** The DELETE may go out before the erase of the stored
  connection has taken effect; a crash then lets the next launch restore the connection and
  register again, with no pairing (`PushRuns.ARelaunchCanRegisterAgain`).
- **A terminal cursor outlives its session.** The hook keeps the cursor when it is given another
  session; a host that covers it appends that session's output to the old screen
  (`TerminalResume.CarriedCursorIsInStepExactlyIf` states exactly when the result is wrong).
- **Replaying an event log is idempotent except for optimistic messages.** Replaying the echo
  of one of two equal messages sent within a minute takes the other off the screen
  (`Transcript.ReplayIsIdempotent` states when, `Transcript.ReplayCanDropAnUnsentMessage` gives one).
- **An exit event does not end the attach loop**, although a comment in the loop speaks of
  streams that end without one: a stream that ends after an exit event sets the status back to
  `connecting` and is attached again (`TerminalResume.Terminal.Run`).
- **A journal entry is never partial, but a power failure can lose it**, since the directory is
  not synced after the rename (`Supervisor.Survives`, `Supervisor.EntriesAreWhole`).

## Model

| member | source | states |
|---|---|---|
| InputQueue.ConsumeKeepsTheRest | crates/pragma-client/src/lib.rs:1443-1457 | consuming n bytes leaves exactly the bytes after the first n, in order |
| InputQueue.ConsumeStaysLive | crates/pragma-client/src/lib.rs:1443-1457 | no spent message stays at the front; the deque is empty exactly when all its bytes have been consumed |
| InputQueue.SpentDequeNeverDrains | crates/pragma-client/src/lib.rs:313-315 | why empty input must be refused: a deque of spent messages yields empty frames for ever |
| InputQueue.EnqueueConsistent | crates/pragma-client/src/lib.rs:1416-1429 | after queueing, `ready` still lists exactly the sessions with pending input, once each, and nobody loses its place |
| InputQueue.EnqueueOwes | crates/pragma-client/src/lib.rs:1416-1429 | queueing adds the message's bytes at the end of its session and changes what no other session is owed |
| InputQueue.FrameSaved | crates/pragma-client/src/lib.rs:1431-1441 | a frame is 1 byte to 64 KiB, and sending one leaves exactly one frame fewer to send |
| InputQueue.BackoffDoublesToCap | crates/pragma-client/src/lib.rs:1394-1404 | the pause after the k-th failure in a row is 10 ms times 2 to the k, at most one second |
| InputWriter.InputSender.TrySend | crates/pragma-client/src/lib.rs:213-241 | all or nothing: accepted exactly when both limits, the channel's room and a receiver allow it, and a refused message leaves both counters as they were |
| InputWriter.InputClient.Write | crates/pragma-client/src/lib.rs:311-333 | empty input is accepted and touches nothing; anything else is accepted exactly when the sender found (a new one if there is none) takes it, and only then changes it; a disconnected sender is dropped |
| InputWriter.InputWriter.QueueInput | crates/pragma-client/src/lib.rs:1416-1429 | in place, the state becomes `Enqueue` of the old one |
| InputWriter.InputWriter.BuildInputFrame | crates/pragma-client/src/lib.rs:1431-1441 | the frame is the first 64 KiB of what the session owes, across message boundaries |
| InputWriter.InputWriter.ConsumeInputFrame | crates/pragma-client/src/lib.rs:1443-1457 | in place, drops exactly the first n owed bytes and counts the messages this finished |
| InputWriter.InputWriter.Deliver | crates/pragma-client/src/lib.rs:1394-1404 | repeats the identical frame, with the right pauses, until it is written, and delivers it once |
| InputWriter.InputWriter.Serve | crates/pragma-client/src/lib.rs:1388-1412 | one turn: the head session gets one frame, the counters give back exactly what was sent, and the session goes to the end of the line or is forgotten |
| InputWriter.InputWriter.Run | crates/pragma-client/src/lib.rs:1354-1414 | terminates, delivers to every session exactly what arrived for it, in order, and takes everything off both counters |
| InputSystem.PushNeverFails | crates/pragma-client/src/lib.rs:213-241 | a producer holding both reservations finds room in the channel and a live receiver, under every interleaving |
| InputSystem.StepKeepsInv | crates/pragma-client/src/lib.rs:1354-1457 | every atomic step of every producer and of the writer keeps order, counters, `ready` and retry discipline |
| InputTheorems.InputIsInOrderExactlyOnce | crates/pragma-client/src/lib.rs:1354-1457 | in every run: delivered, then owed, then in the channel make up what was admitted, session by session; a failed frame is repeated before anything else is tried |
| InputTheorems.ReservationsAreConserved | crates/pragma-client/src/lib.rs:213-241 | in every reachable state the counters equal channel, pending, reserved and unreleased; they stay within 256 and 4 MiB and never underflow, and no push is turned away |
| InputTheorems.ReadyListsThePending | crates/pragma-client/src/lib.rs:1388-1392 | at the loop head `ready` holds each session with input exactly once, so neither `expect` can fail |
| InputTheorems.WriterStepsAreBounded | crates/pragma-client/src/lib.rs:1365-1413 | no livelock: failed writes aside, the writer's steps are bounded by the work at hand and the input admitted |
| InputTheorems.StuckMeansDrained | crates/pragma-client/src/lib.rs:1365-1413 | no deadlock: a writer that cannot move has returned or waits for input, with everything delivered |
| InputTheorems.ShutdownWritesExactlyWhatIsOwed | crates/pragma-client/src/lib.rs:1365-1413 | once the senders are gone and the channel is empty, the writer makes exactly the sum over sessions of the owed bytes over 64 KiB, rounded up, more successful writes, then returns with both counters at zero |
| InputTheorems.RoundRobinIsExact | crates/pragma-client/src/lib.rs:1388-1412 | a session that owes more than a frame is served again after exactly those waiting behind it, once each and in order |
| InputTheorems.TurnsAreFrames | crates/pragma-client/src/lib.rs:1388-1412 | the order in which sessions are served is the order in which frames are written |
| PendingRevocations.SaveKnowsWhatItRead | apps/pragma-go/lib/pending-revocation.ts:38-58 | after a save a leave is queued, or dropped for its age or by the cap, if and only if the save had read an entry for it or is about its host |
| PendingRevocations.CapDropsOnlyTheOldestOfFive | apps/pragma-go/lib/pending-revocation.ts:51-58 | a queue of at most five stays one; the cap drops at most one entry, the oldest of five live ones of other hosts, the other four staying in order |
| PendingRevocations.CapDropsTheOldestOfFive | apps/pragma-go/lib/pending-revocation.ts:51-58 | and in that case it does drop it |
| PushOrdering.LocksStep | apps/pragma-go/lib/registration-gate.ts:33-59 | each step in which a registration aborts the one before it and pairing waits keeps the gate, the exclusion of sessions, and that nothing can post once an unpair's DELETE is out |
| PushOrdering.NoPostAfterUnpair | apps/pragma-go/lib/push.ts:144-194 | over crashes and relaunches, no registration POST is issued between an unpair's DELETE and the storing of the next pairing, unless the app went down while the connection being left was still stored |
| PushFreshness.FreshStep | apps/pragma-go/lib/connection-context.tsx:212-223 | each step keeps every queued, retried or running revocation of a paired host at least as new as its pairing |
| PushFreshness.NoOlderDeleteAfterPairing | apps/pragma-go/lib/connection-context.tsx:212-223 | once a pairing of a host is stored, no DELETE for that host of an earlier session is ever issued, by an unpair or a retry, in this launch or a later one |
| PushFreshness.NoOlderDeleteAfterRestore | apps/pragma-go/lib/connection-context.tsx:399-459 | once a connection is restored whose host is not queued, no DELETE for that host of an earlier session is ever issued |
| PushFreshness.NoOlderDeleteAfterPost | apps/pragma-go/lib/push.ts:161-179 | hence none after the POST of any session, however it began |
| PushRuns.AFailedReadLetsAnOlderDeleteThrough | apps/pragma-go/lib/push.ts:221-225 | the condition on pairings is exact: from every reachable moment at which the host being paired is queued and the read fails, a run, which only lets the erases under way finish first, issues the older DELETE after the pairing |
| PushRuns.ARestoreLetsAnOlderDeleteThrough | apps/pragma-go/lib/push.ts:201-218 | the condition on restores is exact: from every reachable moment at which a connection is restored whose host is queued, a run issues the older DELETE after the new session's POST |
| PushRuns.ARestoredSessionCanBeTakenDown | apps/pragma-go/lib/connection-context.tsx:226-240 | a run in which the entry of an unpair cut off by a crash takes the restored session's registration down in the same launch |
| PushRuns.WithoutAbortAPostCanFollow | apps/pragma-go/lib/use-push-notifications.ts:20-32 | a run showing that each registration must abort the one before it |
| PushRuns.ARelaunchRegistersWhatIsStored | apps/pragma-go/lib/connection-context.tsx:226-240 | the exemption of `NoPostAfterUnpair` is exact: from every moment at which a connection is stored, a crash lets the next launch POST to its host without a pairing |
| PushRuns.ARelaunchCanRegisterAgain | apps/pragma-go/lib/connection-context.tsx:226-240 | a run in which an unpaired host is registered with again after a crash |
| PushRuns.WithoutSettlingAnOlderDeleteCanFollow | apps/pragma-go/lib/push.ts:168-179 | a run showing what can happen once the settle bound expires |
| PushRuns.WithoutReadingAnOlderDeleteCanFollow | apps/pragma-go/lib/push.ts:221-225 | a whole run in which the queue cannot be read for a pairing and a retry takes the new registration down |
| PushDurability.DurableStep | apps/pragma-go/lib/connection-context.tsx:212-248 | each careful step, crashes and failing storage included, keeps every host that was left, every copy of the queue about to be written complete, and what the retry has read |
| PushDurability.UnpairedHostsAreNotForgotten | apps/pragma-go/lib/push.ts:144-263 | at every moment of every careful run a host that was left is queued, or its revocation has had an outcome, or it is still stored with no erase under way, or its pairing is being stored; while its unpair is under way it is still stored or queued or has had an outcome |
| PushExactness.ACarelessStepLosesAHost | apps/pragma-go/lib/push.ts:144-263 | every step that is not careful leaves a host that was left without anything that keeps it |
| PushExactness.RunsForgetNobodyExactlyIfCareful | apps/pragma-go/lib/push.ts:144-263 | over whole runs in which pairing waits: every host that was left is kept at every moment if and only if every step is careful |
| PushExactness.SmoothRunsForgetNobody | apps/pragma-go/lib/connection-context.tsx:212-240 | a condition the app can check makes a run careful: no failing queue access of an unpair, no save beside the retry, no crash or failure between dropping an entry and storing the pairing; failing erases and restores do no harm then |
| PushExactness.SaveLosesNobodyExactlyIf | apps/pragma-go/lib/push.ts:247-250 | a save loses nobody if and only if what it read has an entry for every other host that was left and has had no outcome |
| PushExactness.FailedReadLosesNobodyExactlyIf | apps/pragma-go/lib/push.ts:247-255 | after a failed read it loses nobody if and only if every other host that was left and is queued has already had an outcome |
| PushExactness.RetryLosesNobodyExactlyIf | apps/pragma-go/lib/push.ts:209-218 | the retry's write loses nobody if and only if every host left since the launch has had an outcome, was queued when the retry read, or is still stored; hosts left before are never lost by it |
| PushExactness.RejectedSaveLosesNobodyExactlyIf | apps/pragma-go/lib/connection-context.tsx:232-239 | an unpair whose save is rejected erases the connection all the same, and loses its host unless that is already queued or has had an outcome |
| PushExactness.CrashLosesNobodyExactlyIf | apps/pragma-go/lib/connection-context.tsx:219-221 | a crash loses nobody if and only if every host that was left and whose entry was dropped for a pairing not yet stored has had an outcome or is still stored |
| PushExactness.FailedPairingLosesNobodyExactlyIf | apps/pragma-go/lib/connection-context.tsx:219-221 | and so for a pairing that fails, with no erase under way |
| PushExactness.ANewPairingLosesNobodyExactlyIf | apps/pragma-go/lib/connection-context.tsx:219-223 | the storing of a pairing loses nobody if and only if the connection it replaces is not to another host that was left and is neither queued nor settled |
| PushExactness.FailedRestoreLosesNobodyExactlyIf | apps/pragma-go/lib/connection-context.tsx:435-459 | a failed restore loses nobody if and only if the connection it discards is not to a host that was left and is neither queued nor settled |
| PushHistory.OutcomesHaveHappened | apps/pragma-go/lib/push.ts:181-245 | in every run a leave counts as acknowledged only once its DELETE has been issued, and as paired again only once the new connection has been stored |
| PushHistory.ASaveCapsOnlyTheOldestOfFive | apps/pragma-go/lib/push.ts:247-250 | in every run the queue holds at most five, and a save pushes out at most one host, the oldest of five live ones |
| PushRuns.ACrashInPairingForgetsTheHost | apps/pragma-go/lib/connection-context.tsx:219-221 | a run that loses a host between dropping its entry and storing its pairing |
| PushRuns.ADiscardedHostCanBeForgotten | apps/pragma-go/lib/connection-context.tsx:435-459 | a run in which an unpair is cut off before its erase, the next launch discards the connection, and a pairing cut off in its turn forgets the host |
| PushRuns.AFailedReadForgetsADiscardedHost | apps/pragma-go/lib/push.ts:247-255 | a run in which such a host's entry is overwritten by the unpair of another |
| PushRuns.AFailedRestoreForgetsTheHost | apps/pragma-go/lib/connection-context.tsx:435-459 | a run in which, the erase having failed and the entry gone, a failed restore discards the last trace of a host |
| PushRuns.ANewPairingForgetsTheHost | apps/pragma-go/lib/connection-context.tsx:219-223 | a run in which a new pairing does |
| PushRuns.AFailedRestoreQueuesNothing | apps/pragma-go/lib/connection-context.tsx:435-459 | a run in which a launch discards a registered host with nothing queued for it |
| PushRuns.RetryCanUndoAnUnpair | apps/pragma-go/lib/push.ts:209-218 | a run showing that the retry's write is not serialized with an unpair's save |
| PushRuns.AFailedReadForgetsTheQueue | apps/pragma-go/lib/push.ts:247-255 | a run showing that a failed read, taken for an empty queue, loses the host that was waiting |
| PushRuns.WithoutSettlingALateForgetLosesAHost | apps/pragma-go/lib/push.ts:168-179 | a run in which, the settle bound having expired, the forgetting of one host overwrites the entry of another |
| SavedHostsChain.EditsAreSerialized | apps/pragma-go/lib/connection-context.tsx:355-378 | with any overlaps and failures the stored list is the fold of the saved changes in call order, and each saved call is told the list right after its own change |
| SavedHostsChain.SomeoneCanMove | apps/pragma-go/lib/connection-context.tsx:364-378 | no call is blocked for good by another's failure |
| SavedHostsChain.RunsAreShort | apps/pragma-go/lib/connection-context.tsx:364-378 | a run makes at most four steps for each call |
| SavedHosts.ListIsThePrefix | apps/pragma-go/lib/saved-hosts.ts:38-56 | after any history of connections and removals the list is the first `Depth` of the unbounded move-to-front list, each host with the last name given since it last entered |
| SavedHosts.ListIsTheRecentSix | apps/pragma-go/lib/saved-hosts.ts:38-56 | as long as nothing is removed, that is the six most recent hosts |
| SavedHosts.OverlappingEditsKeepTheList | apps/pragma-go/lib/connection-context.tsx:336-378 | with overlapping and failing edits, it is that prefix for the history of the saved ones |
| SavedHosts.ListShape | apps/pragma-go/lib/saved-hosts.ts:38-56 | no host twice, never more than six, the one just visited first, the one just removed gone |
| Bridge.BytesKeepTheirOrder | crates/pragma-client/src/bridge.rs:108-160 | in each direction, at every moment, written, in hand and queued make up what was read unless a write failed; at most 64 chunks of 1 byte to 32 KiB are queued |
| Bridge.PumpStepsAreBounded | crates/pragma-client/src/bridge.rs:108-160 | no livelock: at most five steps for each byte that arrives, on top of finishing what is at hand |
| Bridge.RemoteEofClosesEverything | crates/pragma-client/src/bridge.rs:126-165 | once the remote has ended, the bridge can come to rest only with both threads and both tasks finished, the local socket shut down, and all remote bytes written unless a local write or a remote read failed |
| Bridge.LocalEofDrainsUpward | crates/pragma-client/src/bridge.rs:108-147 | once the local side has ended, its bytes all reach the remote unless a remote write or a local read failed |
| Scrollback.EvictionKeepsTheLongestFit | crates/pragma-server/src/session.rs:1143-1162 | eviction keeps the longest run of newest frames within both budgets, and always the newest frame |
| Scrollback.History.Push | crates/pragma-server/src/session.rs:1143-1162 | in place, with its two counters, the buffer becomes `Evicted` of the old frames and the new one, and holds a suffix of the stream |
| Scrollback.ReplayIsTheRest | crates/pragma-server/src/session.rs:1172-1207 | a replay starts at the reader's cursor if that is still covered and else at the oldest byte retained, says which, and contains exactly the stream from there on |
| Scrollback.History.FramesSince | crates/pragma-server/src/session.rs:1172-1207 | the loop computes that replay |
| TerminalResume.Terminal.Apply | apps/pragma-go/lib/use-terminal-session.ts:249-277 | one event changes cursor, screen, status, title and exit code as `Applied` says, and hands the renderer output with the offset it is said to start at; an echo mode changes nothing |
| TerminalResume.Terminal.Pump | apps/pragma-go/lib/use-terminal-session.ts:97-104 | an attachment applies all it delivers, and anything at all resets the pause |
| TerminalResume.Terminal.Run | apps/pragma-go/lib/use-terminal-session.ts:84-126 | the attach loop stops exactly at a tear-down or a final refusal; each pause is 500 ms doubled for each silent attempt in a row, at most 10 s; every event of every attempt is applied |
| TerminalResume.StepKeepsInv | apps/pragma-go/lib/use-terminal-session.ts:226-271 | pushing, fanning out, attaching between broadcasts, delivering and dropping keep the client in step |
| TerminalResume.ResumeHasNoGapOrRepeat | apps/pragma-go/lib/use-terminal-session.ts:52-56 | over any drops and reattaches and whatever the host has forgotten, the output since the last reset is one stretch of the stream ending at the cursor, and every piece was handed over with its own offset; with nothing under way the client has everything |
| TerminalResume.AttachIsExactlyInStepBetweenBroadcasts | crates/pragma-server/src/session.rs:332-351 | an attachment keeps the client in step if and only if no output was half published when it was taken |
| TerminalResume.ARepeatCanTurnIntoAGap | crates/pragma-server/src/session.rs:859-872 | a run in which output is shown twice and later output never |
| TerminalResume.CarriedCursorIsInStepExactlyIf | apps/pragma-go/lib/use-terminal-session.ts:74-104 | a cursor kept for another session puts the client in step with it if and only if that session's host does not cover the cursor, or the screen already showed that stretch of it |
| FileTree.FileRows.Walk | apps/pragma-go/lib/file-tree.ts:34-50 | the recursive walk appends exactly `Rows` of the folder |
| FileTree.VisibleFileRows | apps/pragma-go/lib/file-tree.ts:29-53 | terminates on every acyclic set of listings with the rows of the root |
| FileTree.ToggleExpanded | apps/pragma-go/lib/file-tree.ts:56-61 | changes the membership of one path in a copy; doing it twice gives the set back |
| FileTree.EachEntryIsOneRow | apps/pragma-go/lib/file-tree.ts:29-53 | with unique paths a visible entry is one row, not more |
| FileTree.CollapseRemovesOneBlock | apps/pragma-go/lib/file-tree.ts:29-61 | closing a visible folder clears its flag, deletes exactly the run of deeper rows below it, never empty, and changes nothing else |
| FileTree.ExpandInsertsOneBlock | apps/pragma-go/lib/file-tree.ts:29-61 | opening a visible folder inserts such a run and changes nothing else |
| WorktreeForest.DistinctIdsAreAllKept | apps/pragma-go/lib/worktree-tree.ts:16-20 | with distinct ids every worktree becomes a node, in the order given |
| WorktreeForest.Tree.LinkRoots | apps/pragma-go/lib/worktree-tree.ts:28-40 | in place, each node hangs off its known parent that is not main, or is a root, in map order |
| WorktreeForest.Tree.SortNodes | apps/pragma-go/lib/worktree-tree.ts:42-47 | in place, sorts the siblings below a node and no others; terminates even when other nodes' parents form cycles |
| WorktreeForest.Tree.Build | apps/pragma-go/lib/worktree-tree.ts:16-25 | terminates on every list of worktrees with every list that can be reached in display order |
| WorktreeForest.SortIsStable | apps/pragma-go/lib/worktree-tree.ts:42-54 | sorting by the comparator gives the sorted rearrangement that keeps the order of ties |
| WorktreeForest.SiblingsAreInOrder | apps/pragma-go/lib/worktree-tree.ts:28-54 | siblings are exactly the nodes with that parent, main first, then by label, ties as they came; nothing hangs off main |
| WorktreeForest.ForestHoldsExactlyTheRooted | apps/pragma-go/lib/worktree-tree.ts:16-54 | the flattened forest holds exactly the worktrees whose parents come to an end, each once |
| WorktreeForest.AcyclicForestIsAPermutation | apps/pragma-go/lib/worktree-tree.ts:16-54 | without cycles nothing is lost |
| Transcript.UpsertMessage | apps/pragma-go/lib/transcript-store.ts:82-100 | on a copy of the map: the optimistic entry a user message stands for goes, the message takes or keeps its place |
| Transcript.UpsertHas | apps/pragma-go/lib/transcript-store.ts:82-100 | membership after one message: its own entry with the first timestamp, not the replaced optimistic one, all others untouched |
| Transcript.ReplayIsIdempotent | apps/pragma-go/lib/transcript-store.ts:36-110 | a host's log applied twice changes nothing, if and only if none of its user messages stands for an optimistic entry still there; attention never changes |
| Transcript.ReplayWithoutOptimisticIsIdempotent | apps/pragma-go/lib/transcript-store.ts:36-153 | without optimistic entries a whole log is idempotent |
| Transcript.ReplayCanDropAnUnsentMessage | apps/pragma-go/lib/transcript-store.ts:89-97 | two equal messages and one echo: the replay removes the second |
| Transcript.AttentionOfALog | apps/pragma-go/lib/transcript-store.ts:102-153 | the last status event decides attention, and without one a log can only clear it |
| Transcript.RowsForMessage | apps/pragma-go/lib/transcript-store.ts:166-224 | the pushes build prose, tool, file and sub-agent rows in that order, with their texts and tool summaries, and none for a reasoning message |
| Transcript.RowsAreInOrder | apps/pragma-go/lib/transcript-store.ts:156-163 | rows go by timestamp, then message id, a message's rows together |
| Transcript.RowsIgnoreInsertionOrder | apps/pragma-go/lib/transcript-store.ts:156-163 | the rows depend on which messages there are, not on when they came |
| Transcript.MessagesThatStayNeverSwap | apps/pragma-go/lib/transcript-store.ts:82-163 | two messages that stay never change places, whatever arrives in between |
| Transcript.HostMessagesStay | apps/pragma-go/lib/transcript-store.ts:82-100 | a message that is not optimistic is never removed |
| Redaction.RoundingIsByCentre | crates/pragma-computer/src/capture.rs:221-227 | the pixels between two rounded, clamped edges are those whose centre lies in the half-open interval of the edges themselves |
| Redaction.BlankWindow | crates/pragma-computer/src/capture.rs:221-229 | in place, blackens exactly the pixels whose centre the mapped window covers; every write is in bounds |
| Redaction.Redact | crates/pragma-computer/src/capture.rs:198-232 | on success a pixel is black exactly if a hidden window that is not minimized covers its centre, and untouched otherwise; fails exactly when the windows or a hidden window's frame are unknown |
| Redaction.GrabRegion | crates/pragma-computer/src/capture.rs:170-190 | the region handed on is the redacted display's, within its bounds, and no covered pixel shows |
| Supervisor.Supervisor.ReportRun | crates/pragma-cli/src/agent_run.rs:307-338 | the retry loop's effects and result are `Attempts` and `Answer` |
| Supervisor.AttemptsAreFew | crates/pragma-cli/src/agent_run.rs:307-338 | one to `max` attempts; all but the last failed for a passing reason; the last succeeded, was stale, or used up the allowance |
| Supervisor.Supervisor.WriteCompletionJournal | crates/pragma-cli/src/agent_run.rs:285-302 | each step of the journal write is taken only after the one before succeeded |
| Supervisor.Supervisor.Run | crates/pragma-cli/src/agent_run.rs:109-180 | the whole life of a supervisor is `Trace` of what the outside answers |
| Supervisor.EachEffectComesInItsTime | crates/pragma-cli/src/agent_run.rs:109-241 | over every world, each effect happens only when `Allowed` by what happened before it |
| Supervisor.ChildNeedsAuthorization | crates/pragma-cli/src/agent_run.rs:126-147 | the child is started only after a successful, usable `startRun` |
| Supervisor.EndIsDurableBeforeReported | crates/pragma-cli/src/agent_run.rs:147-160 | `finishRun` comes after the child's end, with its code; for a code exit the whole synced entry is on disk, or its absence was surfaced |
| Supervisor.EntriesAreWhole | crates/pragma-cli/src/agent_run.rs:212-302 | after a crash at any effect, or a power failure, an entry exists only for a code exit and is that code in full |

## Left out

- PushExactness.RunsForgetNobodyExactlyIfCareful: is about hosts that an unpair has left; a connection discarded because it could not be restored, or whose unpair went down before its save, is not among them (`PushRuns.AFailedRestoreQueuesNothing`). Runs in which the settle bound expires are left out as a whole; `PushRuns.WithoutSettlingALateForgetLosesAHost` shows that the property then fails, but at a later step, so that expiry has no condition of its own.
- PushFreshness.NoOlderDeleteAfterPairing: likewise assumes that the settle bound does not expire.
- PushOrdering.NoPostAfterUnpair: an unpair while the client is still being created sends no revocation at all (apps/pragma-go/lib/connection-context.tsx:232); such unpairs are not steps of the model.
- TerminalResume.CarriedCursorIsInStepExactlyIf: states what the first attachment after the change of session does; `ResumeHasNoGapOrRepeat` is about one session.
- InputWriter.InputWriter.Run: write outcomes are an arbitrary finite script of failures, after which writes succeed; `InputSystem` has no such bound. The senders go when `restart` drops them (crates/pragma-client/src/lib.rs:431); dropping every handle of the client is not enough, since the writer thread holds a clone of it.
- Supervisor.EntriesAreWhole: durability across a power failure is not claimed, as the directory is never synced.
- Bridge.LocalEofDrainsUpward: local bytes not yet read when the local socket is shut down in both directions may still be read in the model, while some systems discard them; what is promised is that every byte that was read arrives.
- Bridge.BytesKeepTheirOrder: the four loops are steps of one machine, since what is hard about them is their interleaving; that each reader reuses one buffer is not modelled.
- InputTheorems.ReservationsAreConserved: the two counters and the channel are updated in sequentially consistent steps, while the source uses `Ordering::Relaxed` (crates/pragma-client/src/lib.rs:213-241 and 1405-1407).
- The gate's variable, the set of revocations in flight and the write chain of the saved hosts are fields of a machine's state for the same reason; aliasing plays no part in them.
- Storage operations on one key take effect in the order they are issued, and the code between two awaits runs as one step.
- Restoring a connection from a page handoff or a development environment, and the probe's details: only success and failure are kept.
- The viewport lease: releasing every lease does not hold in general, because a superseded acquire that fails clears the newer lease.
- 64-bit saturation of the scrollback's byte counter and JavaScript's loss of precision in cursors above 2^53.
- Floating-point rounding in capture coordinates: reals are used, with round half up and saturation to 32 bits.
- Image scaling and encoding, `ScreenCaptureKit` captures and single-window captures.
- The texts of labels and log lines, and row ids as strings (a row id is the message and what in it the row is about); question options and sub-questions of an attention request.
- Parsing of stored JSON, the collation behind `localeCompare` and the order of strings: any total preorder and any strict total order are allowed.
- Sockets, processes, timers and RPC: only their outcomes appear, as arguments or as steps.
- React components and hooks, commands, servers other than the scrollback, and process start-up: plumbing whose properties would be easy members.

# A verified model of pgactive

pgactive is a PostgreSQL extension for active-active logical replication: every node of a
group accepts writes, sends its own changes to all peers through logical decoding, and
applies theirs.  This project models its protocols in Dafny and proves what they keep over
whole runs.  Where a property the code is meant to have does not hold, the project has a run
that breaks it and the exact condition under which it does hold.

`dafny verify dfyconfig.toml` checks everything.

## What is modelled

- **Global lock** (`Lock*.dfy`).  The DDL and write lock: request, tally, grant, upgrade,
  cancelling of writers, replay confirmations, confirmation, release, crash and restart.
  `LockHandlers` are the handlers on the shared-memory record, the lock table and the log;
  `LockDatabase` is the same record as a class that the handlers update in place;
  `LockProtocol` is the group of any size as a step relation in which each step changes one
  node and nodes replay each other's logs in order.  A section that runs under the
  control-segment lock is one step, and what is checked outside it, such as the type of a
  confirmation, is a step of its own; steps of other nodes and workers come in between.
  `LockPaths` and `LockProgress` build continuations of a group, for the theorems that say
  exactly when one goes wrong.
- **Apply progress** (`Feedback.dfy`, `Replay.dfy`, `ReplayReports.dfy`).  The list that pairs
  local with remote commit positions, the feedback sent upstream, and replay across crashes and
  reconnections.
- **Conflicts** (`Convergence.dfy`, `SingleWriter.dfy`).  Last-update-wins with its tie break, in
  a group of any size in which nodes write and replay each other's writes in any order.
- **Wire format** (`Bytes.dfy`, `TupleWire.dfy`, `ActionWire.dfy`, `WireLayout.dfy`,
  `WireRefusals.dfy`).  Buffers, integers in network order, rows against a table with other
  columns, stream records, lock messages, where each field lies and what is refused.
- **Identity** (`Names.dfy`, `Snowflake.dfy`, `SeqIds.dfy`).  Slot and origin names, global
  sequence values, node sequence ids over joins and detaches.
- **Replication sets** (`ReplicationSets.dfy`).  Which changes are sent, and the cache of
  that decision.
- **Joining** (`JoinStatus.dfy`).  The persistent join status with crashes at any point.

## Where the code does not keep what it is meant to keep

Most entries name a run of the model that shows the failure, and the theorem that says exactly
when it can happen.

- Two nodes can hold the global lock at once when a new attempt counts confirmations of an
  attempt given up earlier (`StaleConfirmsBreakExclusion`).  A new attempt can count a peer
  that is not locked for it if and only if some peer's confirmation of an earlier request in
  that mode is checked and about to be counted, is in the peer's log, or can still be logged:
  a hold in catch-up, or an old ACQUIRE under way (`DrainedIsExact`).  A hold that was
  confirmed and counted, with its RELEASE still under way, does no harm.  The step relation of
  the guarantees starts an attempt only when none of this is left.
- A decline counted between the end of the wait and the section that takes the lock is wiped,
  and the lock is acquired (`DeclineIsWiped`).  A decline stops the attempt if and only if it
  is counted before the wait ends (`DeclineIsExact`).
- Upgrading a held DDL lock to a write lock cancels writers before the lock type is raised; a
  writer that starts in between is not flushed (`UpgradeLetsWriterThrough`).  A peer that
  restarts before it confirms forgets the number of nodes as well.  What a peer confirms is
  flushed in every continuation if and only if, when the type is raised, it has no open writer
  and, in a group of more than two, everything of it is replayed already; a requester that has
  gone makes this weaker in groups of two and three (`RaiseIsExact`).  Without a restart it is
  enough to know the number of nodes (`RaiseWithoutRestart`).
- After a restart the number of nodes is unknown (-1), and the first replay confirmation
  already makes a quorum: the write lock can be acquired with a change unreplayed
  (`UnknownCountLetsChangeThrough`).  The quorum covers the group if and only if the number is
  known when the answer is counted (`QuorumIsExact`, `RequestIsExact`).
- A node that restarts after granting a DDL lock and before confirming it comes back waiting
  for replay in DDL mode, where the assertion on confirming fails
  (`RecoveredDdlBreaksAssertion`).  It can fail if and only if a DDL hold is unconfirmed, or its
  confirmation can still be lost, and an answer can still come (`AssertionIsExact`).
- A worker that exits and reconnects while its commits are unflushed can report them as
  flushed and, after a crash, lose them (`RestartLosesTransaction`); a connection can never
  lose one if and only if they are flushed when it is made (`ConnectIsExact`).
- A report that finds nothing unflushed reports the position it is given; a keepalive can carry
  one before a commit that was applied and flushed, which the worker then drops from its list
  unreported (`KeepaliveHidesCommit`).  Every report of a connection covers what is committed and
  flushed on it if and only if each that finds nothing unflushed is given a position at or past
  the commits not yet reported (`ReportsAreCompleteExactly`); the report at the end of the
  worker's loop is (`LoopReportsAreComplete`).
- A row that only one node writes, with a stamp before what the group started out with, keeps
  its old value on the other nodes (`EarlyStampIsRejected`).  A node holds the last write it has
  seen of such a row if and only if it wrote it or some write it has seen wins over the start,
  whatever the stamps of the others (`LastWriteHoldsExactly`).
- The tie break compares the local node with the sender, not the two writers: three nodes can
  end with different rows (`ThreeNodesDiverge`), and so can two when a clock runs behind
  (`LateClockDiverges`).  `StepIsExact` says when a step is safe.
- Discarding mismatched columns skips one byte for each, so reading goes wrong exactly when
  one of them carried data (`DiscardIsExact`).
- The comment on global sequence values promises 40 bits of time, but the sign bit is one of
  them: order breaks at 2^39 ms after the epoch (`LaterIsLargerExactly`).
- A session keeps the sequence id it read first.  A node that is made ready again takes a new
  id and frees the old one, which another node may take, from any table: values then collide
  (`KeptIdsCanCollide`).  They never do while no node is made ready again
  (`GlobalSequenceIsGlobal`, `IdChangesExactly`).
- A set configuration that was itself replicated from a peer does not flush the decision
  cache (`StaleAfterRemoteChange`).  A decision is current if and only if it was not taken
  since it last became invalid, or the configuration it was taken under calls for the same as
  the present one (`DecisionIsExact`).
- A crash between the arrival of 'r' and the last step of a join leaves the node ready and
  read-only until a user clears it (`ReadOnlyAfterJoin`, `OnlyUserClears`); a node left alone
  runs read-only if and only if there was such a crash (`ReadOnlyIsExact`).

## Model

| member | source | states |
|---|---|---|
| `LockTheorems.MutualExclusion` | src/pgactive_locks.c:1197-1243 | in every run of a group of any size, in which attempts start when nothing of an earlier one can mislead them, no two nodes hold the global lock, and while one holds it every other node is locked for exactly that node in that mode, even across a crash |
| `LockTheorems.AnswersAreExact` | src/pgactive_locks.c:1008-1096 | in every run, a backend that is not waiting is told that it holds the lock exactly when it does, in a mode at least as strong; is refused exactly when the node count is unknown or the node is locked for a peer or another backend; and otherwise asks the group |
| `LockTheorems.OneBackendIsTold` | src/pgactive_locks.c:1074-1096 | in every run, while one backend is told that it holds the lock, every other backend of the group that asks is refused, on whatever node and in whatever mode |
| `LockTheorems.WritersAdmittedExactly` | src/pgactive_locks.c:2320-2351 | in every run a running node admits a new writer exactly when it is not locked for a peer in write mode; a node that itself holds or requests the lock does |
| `LockTheorems.CountingIsExact` | src/pgactive_locks.c:1989-2065 | a CONFIRM is counted exactly when it names this node and the mode of its record, a DECLINE exactly when it is about that mode, and counting changes that counter alone |
| `LockDrained.DrainedIsExact` | src/pgactive_locks.c:1989-2024 | from any group that a run of such attempts reaches, some continuation of a new attempt counts the confirmation of a peer that is not locked for this attempt if and only if some peer's confirmation of an earlier request is about to be counted, is in its log or can still be logged |
| `LockDrained.LogsConfirm` | src/pgactive_locks.c:562-698 | whatever of an old request can still be confirmed (a handler about to, a catch-up hold, an answer or an ACQUIRE under way) the other nodes can get logged, without a step of the requester |
| `LockDrained.NotDrainedMiscounts` | src/pgactive_locks.c:2003-2012 | and the new attempt then counts it |
| `LockTheorems.ConfirmCounterIsExact` | src/pgactive_locks.c:1989-2024 | with the check of the type and the counting as separate steps, the confirmation counter is the number of distinct peers that confirmed this very attempt, each of which is locked for it, and reaches the node count exactly when all have |
| `LockTheorems.ReplayCounterIsExact` | src/pgactive_locks.c:2202-2244 | the replay counter is the number of distinct peers that answered this request, each having replayed this node's log past it |
| `LockTheorems.AnswersAreForThisRequest` | src/pgactive_locks.c:1845-1979 | in every run answers are counted only while they are awaited: a release, a restart or the confirmation leaves none for the next request |
| `LockTheorems.OneConfirmPerGrant` | src/pgactive_locks.c:2101-2189 | since the current hold was granted at most one confirmation was logged, and the table row says acquired exactly when one was |
| `LockTheorems.TableMatchesMemory` | src/pgactive_locks.c:1479-1610 | the lock table has a row for a node exactly when the shared-memory lock is held for it, and never two rows |
| `LockDecline.DeclineIsExact` | src/pgactive_locks.c:1197-1243 | in any run, a request with a counted decline can still become the lock if and only if its wait had already ended, in the section before the one that takes the lock |
| `LockDecline.DeclinedNeverAcquires` | src/pgactive_locks.c:1204-1213 | a decline counted before the wait ends keeps the attempt from the lock, whatever arrives later |
| `LockDecline.DeclinedSinceRequest` | src/pgactive_locks.c:1133-1153 | in every run a request that is declined was declined since it was made: the step that counted its first decline can be named, and declines counted for earlier requests do not touch it |
| `LockDeclineRun.DeclineIsWiped` | src/pgactive_locks.c:1230-1243 | a run of three nodes in which a decline meant for another node is counted and the lock acquired in the next step |
| `LockTheorems.RecordIsCoherent` | src/pgactive_locks.c:1127-1153 | in every run the record of a running node agrees with itself and with the lock table |
| `LockTheorems.UpgradeFindsConfirmedHold` | src/pgactive_locks.c:1611-1614 | in every run a peer asks a node that is locked for it only for more, and only after its first request is confirmed there |
| `LockTheorems.RecoveryRebuildsHold` | src/pgactive_locks.c:562-698 | after a crash, with the last confirmation flushed or lost, start-up rebuilds the same holder in a mode at least as strong and is confirmed exactly when that confirmation is on disk |
| `LockTheorems.EveryHoldWillEnd` | src/pgactive_locks.c:2253-2311 | a node locked for a peer without an open attempt has that peer's release or restart on its way |
| `LockTheorems.NothingLeftLocked` | src/pgactive_locks.c:1845-1979 | when everything logged is replayed and nobody asks, no node is locked on disk or in memory |
| `LockTheorems.AssertionsNeverFail` | src/pgactive_locks.c:1479-1496 | the assertions that guard the handlers hold in every reachable state in which the handler can start |
| `LockAssertion.AssertionIsExact` | src/pgactive_locks.c:2124-2127 | from any reachable group in which a node is held for a peer, some continuation without another grant there reaches a replay quorum where the assertion on confirming fails, if and only if the hold is in DDL mode and unconfirmed or its confirmation can still be lost in a crash, and, with two nodes, the requester can still answer |
| `LockAssertion.AssertionFailsExactly` | src/pgactive_locks.c:602-698 | in any run, at a replay quorum the assertion on confirming fails if and only if the request it answers was made on a restart that found a DDL hold unconfirmed |
| `LockFlush.WriteLockFlushes` | src/pgactive_locks.c:1451-1610 | in any run, once a write lock that was requested directly is acquired, every peer that confirmed knowing the number of nodes is flushed to every other node and has and admits no writer, and the requester's own earlier changes are replayed there |
| `LockFlush.ConfirmationExists` | src/pgactive_locks.c:2202-2244 | the step of the run that confirmed a peer's present write hold can always be named |
| `LockFlush.NoPeerWritesWhileHeld` | src/pgactive_locks.c:2359-2443 | as long as a directly requested write lock stays held no peer adds a row change to its log |
| `LockQuorum.QuorumIsExact` | src/pgactive_locks.c:2221-2233 | in any run, when an answer completes the replay quorum everybody has answered this request if and only if the number of nodes is known (or there is one other node); otherwise only the sender has |
| `LockQuorum.RequestIsExact` | src/pgactive_locks.c:1413-1443 | from any reachable group, every continuation that confirms a replay request has everybody past it if and only if the number of nodes is known when the request is made |
| `LockQuorumRun.UnknownCountLetsChangeThrough` | src/pgactive_locks.c:584-587 | a run of three nodes that ends with the write lock held and a peer's change unreplayed by the third, the peer having restarted |
| `LockRaise.RaiseIsExact` | src/pgactive_locks.c:1691-1709 | from any reachable group, whatever crashes and restarts follow, every continuation in which the peer confirms an upgraded hold is flushed if and only if, when the lock type is raised: with two nodes, it has no open writer or the requester has gone; with more, it has no open writer and everything of it is replayed already (with three nodes and the requester gone, by the requester) |
| `LockRaise.RestartLeaves` | src/pgactive_locks.c:584-698 | for every such group with a node behind, the peer restarts and one answer of a third node confirms, with the node still behind |
| `LockRaise.NeverConfirmed` | src/pgactive_locks.c:2221-2233 | with two nodes, a hold whose requester is down or has its release or restart under way is never confirmed |
| `LockUpgrade.RaiseWithoutRestart` | src/pgactive_locks.c:1691-1709 | over the continuations in which the peer does not restart, with the requester waiting, the condition is that the peer has no open writer and either knows the number of nodes or was flushed already |
| `LockUpgrade.WriterSlipsThrough` | src/pgactive_locks.c:1672-1709 | for every such group with an open writer, a continuation in which the peer confirms, all having answered or the number unknown, and a change follows that nobody has replayed |
| `LockUpgrade.AnotherIsBehind` | src/pgactive_locks.c:2221-2233 | for every such group with the number unknown and a node behind, a continuation in which the peer confirms and the node is still behind |
| `LockUpgradeRun.UpgradeLetsWriterThrough` | src/pgactive_locks.c:1611-1731 | a run in which the lock is upgraded, held in write mode, and a peer's change is unreplayed |
| `LockUpgradeRun.RecoveredDdlBreaksAssertion` | src/pgactive_locks.c:602-698 | a run that reaches a replay quorum with the assertion on confirming false |
| `LockSafety.StepKeepsInv` | src/pgactive_locks.c:1451-1757 | every step of every node, crash and restart included, keeps the invariant of the group |
| `LockSafety.RunInv` | src/pgactive_locks.c:755-840 | the invariant holds in every state of every run |
| `LockCounterexamples.StaleConfirmsBreakExclusion` | src/pgactive_locks.c:1989-2024 | a run of the model without the condition on new attempts that ends with two holders |
| `LockDatabase.LockDatabase.AcquireDdlLock` | src/pgactive_locks.c:1002-1160 | returns at once exactly for the backend that has at least this mode, refuses exactly another backend when the node count is unknown or the lock taken, otherwise logs the request; keeps the record coherent and meets the assertions at 1008, 1090, 1133-1138 and 1142 |
| `LockDatabase.LockDatabase.FinishAcquire` | src/pgactive_locks.c:1230-1243 | the later section takes the lock whatever was counted since, and meets the assertion at 1236 |
| `LockDatabase.LockDatabase.ReleaseOnXactEnd` | src/pgactive_locks.c:846-899 | leaves the record free and the table empty, keeps it coherent, and meets the assertions at 877 and 884 |
| `LockDatabase.LockDatabase.ProcessAcquireDdlLock` | src/pgactive_locks.c:1451-1757 | grant, upgrade or decline keep the record coherent; when the lock is free so is the table (1492), and an upgrade finds its row |
| `LockDatabase.LockDatabase.RequestReplayConfirmation` | src/pgactive_locks.c:1413-1443 | keeps the record coherent and meets the assertion at 1432 |
| `LockDatabase.LockDatabase.SendConfirmLock` | src/pgactive_locks.c:2101-2189 | logs one confirmation and keeps row and record in step; the assertion at 2124 fails exactly for a DDL hold in catch-up |
| `LockDatabase.LockDatabase.ReleaseLocalDdlLock` | src/pgactive_locks.c:1845-1979 | afterwards nothing is held for the node, a hold for another is untouched, and the assertions at 1886-1890, 1931, 1957 and 1968 are met |
| `LockDatabase.LockDatabase.ProcessReplayConfirm` | src/pgactive_locks.c:2202-2244 | the hold becomes confirmed exactly when the answer completes the quorum, and the record stays coherent |
| `LockDatabase.LockDatabase.Startup` | src/pgactive_locks.c:562-698 | from an empty record and a table of at most one row start-up reaches a coherent record |
| `LockDatabase.HandlerIsSteps` | src/pgactive_locks.c:1451-1757 | the ACQUIRE handler run to its end is the sequence of protocol steps, for every decision and outcome of cancelling |
| `LockDatabase.StartupIsRecovery` | src/pgactive_locks.c:602-698 | the start-up loop over the table is the recovery step of the protocol |
| `Feedback.FastScanIsExact` | src/pgactive_apply.c:2463-2500 | stopping at the first unflushed entry gives the list and positions of a full scan if and only if flushed entries come first |
| `Feedback.OrderedScans` | src/pgactive_apply.c:2463-2500 | with commits in local order the early stop is always right |
| `Feedback.Session.GetFlushPosition` | src/pgactive_apply.c:2463-2500 | the loop drops exactly the flushed prefix and yields the last written and last flushed remote positions |
| `Feedback.Session.SendFeedback` | src/pgactive_apply.c:2509-2580 | sends exactly when forced or when a position is higher than the one last sent, remembers what was sent, and, given a position at or past the commits when none is unflushed, covers every commit of the list as written and every flushed one as flushed |
| `Feedback.ReportCoversExactly` | src/pgactive_apply.c:2509-2545 | a report covers the list exactly when a commit is unflushed or the received position has passed them all |
| `Feedback.ReportIsTight` | src/pgactive_apply.c:2509-2545 | what is newly reported is the received position, with nothing unflushed, or the end of a commit of the list, as flushed only if it and all before it are |
| `ReplayReports.ReportsAreCompleteExactly` | src/pgactive_apply.c:2509-2580 | in any run, as long as a worker stays connected, every report says that all commits of the connection are written and everything up to the last flushed one is flushed, and the upstream knows, if and only if each report that finds nothing unflushed is given a position at or past the commits not yet reported |
| `ReplayReports.LoopReportsAreComplete` | src/pgactive_apply.c:2856-2858 | a connection whose reports are given at least what was received is told everything |
| `ReplayReports.KeepaliveHidesCommit` | src/pgactive_apply.c:2816-2850 | a run in which a keepalive with an earlier position makes the worker drop a flushed commit without reporting it |
| `ReplayReports.ReportIsSentExactly` | src/pgactive_apply.c:2540-2577 | a report goes out exactly when one is asked for or a position is higher than the one last reported, and otherwise changes nothing |
| `ReplayReports.NewCommitIsSent` | src/pgactive_apply.c:2540-2577 | a commit of the connection that was not reported as written, or as flushed though it is, makes a complete report go out |
| `ReplayReports.ReceivedIsHighest` | src/pgactive_apply.c:2805-2813 | as long as a worker stays connected it remembers the highest position received |
| `ReplayReports.ProcessedIsNotRepeated` | src/pgactive_apply.c:3021-3039 | without a crash in between, a worker that connects does not ask again for a transaction or message that was processed |
| `Replay.ExactlyOnceInOrder` | src/pgactive_apply.c:466-560 | across crashes and reconnections the local commits are the upstream's non-empty transactions up to a point, each once and in order, and all of them when the worker has caught up |
| `Replay.ConfirmedIsDurable` | src/pgactive_apply.c:2509-2580 | every upstream transaction at or before the confirmed position is committed here and flushed |
| `Replay.ReportsAreSafe` | src/pgactive_apply.c:2449-2500 | no reported or confirmed flush position passes a remote commit whose local commit is unflushed |
| `Replay.StepKeepsInv` | src/pgactive_apply.c:2690-2915 | commits, messages, flushes, reports, crashes and reconnections keep the replay invariant |
| `Replay.ConnectIsExact` | src/pgactive_apply.c:3021-3039 | from any reachable state a worker can connect so that no continuation without another connection loses a transaction the upstream was told to forget, if and only if no earlier commit is unflushed |
| `Replay.UnflushedConnectionLoses` | src/pgactive_apply.c:2463-2500 | otherwise connecting, one report and a crash lose the first unflushed commit |
| `Replay.ReportsAdvance` | src/pgactive_apply.c:2509-2580 | in any run, as long as a worker stays connected what it reported as received, written and flushed does not go back, and flushed does not pass written |
| `Replay.EndsUpTo` | src/pgactive_apply.c:3021-3039 | the position to start from splits the upstream's transactions where the recorded commits end |
| `Replay.RestartLosesTransaction` | src/pgactive_apply.c:3021-3039 | a run of the model without the condition after which a transaction is neither here nor sent again |
| `Convergence.StepIsExact` | src/pgactive_apply.c:1551-1641 | a step keeps every row the newest version its node has seen if and only if a local write is newer than what it replaces and a tie is decided as the two writers compare |
| `Convergence.Converges` | src/pgactive_apply.c:1465-1536 | in every run of such steps nodes that have seen the same versions of a row hold the same, newest one |
| `Convergence.TwoNodesConverge` | src/pgactive_apply.c:1489-1534 | two nodes converge whatever ties occur |
| `Convergence.DistinctStampsConverge` | src/pgactive_apply.c:1476-1488 | any number of nodes converge when no two write a row at one time |
| `Convergence.DecisionIsNewer` | src/pgactive_apply.c:1551-1641 | where stamps of one node grow, the decision keeps the newer of the two versions |
| `Convergence.BothSidesAgree` | src/pgactive_apply.c:1465-1536 | of two nodes that exchange conflicting updates one keeps its version exactly when the other takes it, and both fail exactly on a tie without two different positive sequence ids |
| `SingleWriter.SameNodeIsTaken` | src/pgactive_apply.c:1573-1583 | a write delivered onto a row whose version comes from the same node is taken, whatever the stamps |
| `SingleWriter.LastWriteHoldsExactly` | src/pgactive_apply.c:1573-1583 | in every run, whatever the stamps and the order of delivery, a node holds the last write it has seen of a row that one node writes if and only if it is that node or one of the writes it has seen wins over the start, and otherwise the start |
| `SingleWriter.SameWritesAgree` | src/pgactive_apply.c:1551-1641 | nodes that have seen the same writes of such a row agree on it as soon as one of them is stamped later than the start |
| `SingleWriter.EarlyStampIsRejected` | src/pgactive_apply.c:1476-1488 | a run of two nodes in which the only write of a row, stamped before the start, is delivered and rejected |
| `Convergence.ThreeNodesDiverge` | src/pgactive_apply.c:1489-1534 | a run of three nodes with a tie that ends, everything delivered, with different rows |
| `Convergence.LateClockDiverges` | src/pgactive_apply.c:1476-1488 | a run of two nodes with a slow clock that ends, everything delivered, with different rows |
| `Bytes.ValueOfBigEndian` | src/pgactive_protocol.c:43-60 | an integer sent in network order is read back modulo its width, negative ones in two's complement |
| `Bytes.BigEndianOfValue` | src/pgactive_protocol.c:43-60 | every byte string is the encoding of the value read from it |
| `Bytes.StringInfo.SendInt` | src/pgactive_protocol.c:43-60 | appends the bytes of the integer, high byte first |
| `Bytes.StringInfo.GetMsgInt` | src/pgactive_protocol.c:16-31 | reads an integer and moves past exactly its bytes, or reports that too few are left |
| `Bytes.StringInfo.GetMsgBytes` | src/pgactive_apply.c:2222-2233 | yields the next bytes and moves past them, or reports that too few are left |
| `TupleWire.TupleRoundTrip` | src/pgactive_apply.c:2179-2372 | a row is taken exactly when it fits the table, every null and unchanged flag and every byte arrives, missing columns are null, and reading stops where writing stopped |
| `TupleWire.TupleIsEncoding` | src/pgactive_apply.c:2179-2372 | bytes taken as a row are the encoding of a row that fits |
| `TupleWire.DiscardIsExact` | src/pgactive_apply.c:2327-2369 | a wider row with discarding on is taken, and the reader stays aligned exactly when no extra column carried data |
| `TupleWire.WriteTuple` | src/pgactive_output.c:1042-1174 | appends bytes that, read into any table, are taken exactly when the sender's row fits it and then as that row: null, dropped and untouched out-of-line columns without a value, only the last unchanged, all others with format and bytes |
| `TupleWire.RowRoundTrip` | src/pgactive_apply.c:2179-2372 | a row of the sender's table arrives column by column, in the fields of both sides, and leaves what follows untouched |
| `TupleWire.ReadTupleParts` | src/pgactive_apply.c:2179-2372 | the three loops fill the tuple, advance the cursor and fail as the reading function says |
| `TupleWire.ReadColumnInto` | src/pgactive_apply.c:2199-2284 | one column by kind, with data for a dropped column refused |
| `TupleWire.PadMissing` | src/pgactive_apply.c:2287-2325 | missing columns become null if all of them may be, otherwise the row is refused |
| `TupleWire.DiscardExtras` | src/pgactive_apply.c:2340-2369 | one byte for each extra column, refused unless null or discarded |
| `ActionWire.ActionRoundTrip` | src/pgactive_apply.c:2402-2447 | a stream record is taken exactly when its table exists and its rows fit, arrives as sent, and leaves nothing over |
| `ActionWire.BeginRoundTrip` | src/pgactive_output.c:758-814 | BEGIN with and without the origin of a forwarded transaction |
| `ActionWire.CommitRoundTrip` | src/pgactive_output.c:829-855 | COMMIT with its two positions and its time |
| `ActionWire.UpdateRoundTrip` | src/pgactive_apply.c:996-1031 | UPDATE with and without the old key is told apart and both rows arrive |
| `ActionWire.InsertRoundTrip` | src/pgactive_apply.c:661-677 | INSERT arrives exactly when its row fits |
| `ActionWire.DeleteRoundTrip` | src/pgactive_apply.c:1290-1312 | DELETE with and without a key |
| `ActionWire.RelRoundTrip` | src/pgactive_output.c:972-994 | schema and table names go with their terminator and arrive without it |
| `ActionWire.NodeIdRoundTrip` | src/pgactive_protocol.c:16-43 | a node identifier with or without the empty name arrives whole |
| `ActionWire.WriteChange` | src/pgactive_output.c:868-967 | appends bytes that, read with any tables, are taken exactly when the table is there and the rows fit, as the same kind of change of the same table, with a new and an old row exactly where the sender had one, each as in the sender's table |
| `ActionWire.ChangeIsTaken` | src/pgactive_apply.c:2402-2447 | an INSERT, UPDATE or DELETE of the sender's rows arrives with all its rows |
| `ActionWire.SendNodeId` | src/pgactive_protocol.c:33-42 | appends the identifier, with the empty name if asked |
| `ActionWire.GetMsgNodeId` | src/pgactive_protocol.c:16-31 | reads the identifier and moves past it, refusing a name that is not empty |
| `ActionWire.PrepareMessage` | src/pgactive_messaging.c:91-109 | appends the message number and the sender |
| `ActionWire.SendMessage` | src/pgactive_messaging.c:91-135 | appends the whole message of every kind |
| `ActionWire.ProcessMessage` | src/pgactive_messaging.c:39-63 | yields sender and message, or the error, that the bytes mean |
| `ActionWire.ProcessMessageBody` | src/pgactive_locks.c:755-840 | reads what each kind of message carries |
| `ActionWire.MessageRoundTrip` | src/pgactive_messaging.c:39-109 | a lock message arrives with its sender, and what follows it is ignored |
| `ActionWire.OldProtocolMeansWrite` | src/pgactive_locks.c:766-813 | without a lock type ACQUIRE, CONFIRM and DECLINE mean lock type 2, the write lock |
| `ActionWire.WrappedMessage` | src/pgactive_output.c:1176-1192 | a lock message wrapped into a stream record and unwrapped is the message |
| `WireLayout.BeginLayout` | src/pgactive_output.c:758-814 | letter, width and place of every field of BEGIN |
| `WireLayout.CommitLayout` | src/pgactive_output.c:829-858 | letter, width and place of every field of COMMIT |
| `WireLayout.ChangeLayout` | src/pgactive_output.c:905-958 | the letters of a change and of its rows, and where they lie |
| `WireLayout.TupleLayout` | src/pgactive_output.c:1042-1174 | letter and count of a row, and letter, length and bytes of each column behind the ones before it |
| `WireLayout.MessageLayout` | src/pgactive_messaging.c:91-109 | number, sender and fields of every lock message, by width and place |
| `WireRefusals.ChangeIsEncoding` | src/pgactive_apply.c:2402-2447 | bytes taken as a change are its letter, the names of a table that is here and the encoding of rows that fit it |
| `WireRefusals.LetterDecides` | src/pgactive_apply.c:2402-2432 | the first letter says what a record is; any other is refused |
| `WireRefusals.FlagsDecide` | src/pgactive_apply.c:287-489 | COMMIT with flags is refused; in BEGIN the lowest flag announces an origin and others are ignored |
| `WireRefusals.NameMustBeEmpty` | src/pgactive_protocol.c:16-31 | a node identifier with a name that is not empty is refused |
| `Names.SlotNameRoundTrip` | src/pgactive_common.c:39-45 | every identifier can be read back from its slot name, which fits the name field even if it loses its last character |
| `Names.OriginNameRoundTrip` | src/pgactive_catalogs.c:346-358 | every identifier can be read back from its origin name, and a name with a text at its end is refused |
| `Names.NamesAreDistinct` | src/pgactive_catalogs.c:385-398 | different identifiers have different slot and origin names |
| `Names.NamesAre` | include/pgactive_internal.h:19-31 | the text of both names, the slot name cut off behind 63 characters |
| `Snowflake.SameValueExactly` | src/pgactive_seq.c:56-119 | two calls yield one value exactly when millisecond, node and local value modulo 16383 agree |
| `Snowflake.ValueHasFields` | src/pgactive_seq.c:56-119 | a value is drawn exactly in the 2^40 milliseconds from the epoch, with a node id of ten bits and no negative remainder, and its bits are the milliseconds, the node id and the local value modulo 16383 |
| `Snowflake.DistinctWithinPeriod` | src/pgactive_seq.c:80-119 | calls on one node differ while the local sequence advanced by less than its period |
| `Snowflake.DistinctAcrossNodes` | src/pgactive_seq.c:56-119 | nodes with different sequence ids never yield one value |
| `Snowflake.LaterIsLargerExactly` | src/pgactive_seq.c:42-56 | a later millisecond gives a larger value exactly when the two are on one side of 2^39 ms |
| `Snowflake.OrIsSum` | src/pgactive_seq.c:110-118 | the ors of the shifted fields add up, so the value handed out is the sum the other results are about |
| `Snowflake.Session.GetNodeId` | src/pgactive_seq.c:144-155 | the id read once for a database is kept, and refused exactly when it is missing or not in 0 to 1023 |
| `Snowflake.Session.NextVal` | src/pgactive_seq.c:56-119 | the value for the kept id, or a refusal outside the ranges |
| `SeqIds.NextIdIsLeastFree` | src/pgactive_init_replica.c:972-995 | the query yields the least positive number that no live node holds |
| `SeqIds.NextIdBound` | src/pgactive_init_replica.c:972-995 | which is at most one more than the number of live nodes holding one |
| `SeqIds.LiveIdsAreUnique` | src/pgactive_init_replica.c:943-1031 | over any joins, retries, detaches and re-use of ids live nodes never share one |
| `SeqIds.GlobalSequenceIsGlobal` | src/pgactive_seq.c:124-155 | values that sessions of two live nodes draw, each with the id it read first, never collide as long as neither node was made ready again since, and with at most 1022 nodes every node can draw |
| `SeqIds.IdChangesExactly` | src/pgactive_init_replica.c:943-1031 | the id of a live node changes exactly when the node is made ready again (or restarts a group alone under another id) |
| `SeqIds.KeptIdsCanCollide` | src/pgactive_seq.c:144-155 | from any reachable table, a live node made ready again takes a new id, and a continuation gives the one its sessions keep to another live node, so that both draw one value |
| `ReplicationSets.SortIsSorted` | src/pgactive_relcache.c:244-248 | sorting a label's names keeps them and puts them in order |
| `ReplicationSets.BinarySearch` | src/pgactive_relcache.c:327-330 | finds a name exactly when it is there |
| `ReplicationSets.InReplicationSet` | src/pgactive_relcache.c:308-333 | every table is in "all", unconfigured ones in "default", others in the sets of their label |
| `ReplicationSets.ComputeSettings` | src/pgactive_relcache.c:377-450 | an action is sent exactly when everything is wanted or some wanted set contains the table and has no configuration or one that allows it, in spite of the early stop |
| `ReplicationSets.SettingsAre` | src/pgactive_relcache.c:377-450 | each of the three settings, by the sets wanted, those of the table and their configuration |
| `ReplicationSets.Relcache.InvalidateCallback` | src/pgactive_relcache.c:52-88 | marks one entry or all, and nothing else |
| `ReplicationSets.Relcache.ShouldForwardChange` | src/pgactive_output.c:712-750 | own tables apart, the answer is the cached or newly computed setting |
| `ReplicationSets.DecisionIsExact` | src/pgactive_output.c:712-750 | after any history the decision for a table is current if and only if nothing was decided since it last became invalid, or the configuration it was decided under calls for the same as the present one |
| `ReplicationSets.RemoteChangeMakesStale` | src/pgactive_output.c:895-902 | after any history a decision followed by a configuration that is not sent on and calls for anything else is stale |
| `ReplicationSets.EveryDecisionIsCurrent` | src/pgactive_output.c:712-750 | over any history in which configurations are sent on every decision is current |
| `ReplicationSets.StaleAfterRemoteChange` | src/pgactive_output.c:895-902 | such a history, after which the cache sends for good what the configuration forbids |
| `JoinStatus.LocalNode.InitReplica` | src/pgactive_init_replica.c:1109-1489 | without a crash the worker gives up exactly for a failed copy or a node without a peer past its beginning, otherwise ends ready and writable having restored only from a clean start, and what it does is a run of the step machine |
| `JoinStatus.JoinIsSafe` | src/pgactive_init_replica.c:1109-1489 | through any crashes data is restored at most once, a node catching up or creating slots has it and is read-only, and a running node is ready or killed |
| `JoinStatus.StatusMovesForward` | src/pgactive_catalogs.c:239-296 | in every run from a fresh start each status is followed by its successor in b, i, c, o, r, but for a node on its own, which goes from b to r, a detach, and a 'r' that a worker still connecting requests after the detach, which brings a killed node back |
| `JoinStatus.WaitingEndsExactly` | src/pgactive_init_replica.c:1043-1066 | in every run a worker that waits goes on exactly when the node is ready, gives up exactly when it was detached, and otherwise waits |
| `JoinStatus.DetachedGivesUp` | src/pgactive_init_replica.c:1060-1065 | in every run a node detached while it waits stays killed and gives up at its next look at the status |
| `JoinStatus.FailedCopyStays` | src/pgactive_init_replica.c:1208-1236 | an attempt that crashed while copying never starts again by itself |
| `JoinStatus.CrashedJoinCanFinish` | src/pgactive_init_replica.c:1185-1206 | from every crash after the data was restored the join can be finished without restoring again |
| `JoinStatus.ReadOnlyIsExact` | src/pgactive_init_replica.c:1468-1478 | a node that is not detached and whose flag no user touches runs read-only if and only if some crash found it ready with the flag still set |
| `JoinStatus.ReadOnlyAfterJoin` | src/pgactive_perdb.c:1304-1306 | a run that ends ready, running and read-only |
| `JoinStatus.OnlyUserClears` | src/pgactive_executor.c:381-405 | from there only a user makes the node writable |

## Left out

- Connections, dump and restore, base backup, latches, timeouts, memory contexts and error text.
- Lock protocol: membership is fixed in a run; node detach is not modelled.
- Lock protocol: entries are replayed once each; redelivery after a crash of the replaying node is not modelled, and of the commits on the lock table only the one that marks a confirmation can be lost.
- Lock protocol: a worker that declines logs the DECLINE in the step that decides it, and drops a hold, in table and memory, in one step.
- Lock protocol: rolling back a subtransaction while it waits for the lock, and lock timeouts.
- Lock protocol: log positions asked for by different nodes are distinct, as positions in different logs are in practice; cancelling leaves no open writer or fails.
- LockFlush.WriteLockFlushes: does not cover a write lock reached by upgrading a DDL lock, nor a peer that confirmed without knowing the number of nodes, because it is false there; `LockRaise.RaiseIsExact` and `LockQuorum.RequestIsExact` say exactly when.
- LockUpgrade.RaiseWithoutRestart: is about continuations in which the peer does not restart and a requester that is still waiting; `LockRaise.RaiseIsExact` is not.
- Lock protocol: a reachable group is one that some run reaches in which every attempt started when nothing of an earlier one could mislead it, and the continuations of the exact theorems are of the same kind.
- Replay.ConnectIsExact: is about what this connection loses; continuations end where a worker connects again.
- LockTheorems.MutualExclusion: is about runs in which attempts start when nothing of an earlier one can mislead them, because it is false without; the code does not check this.
- LockDatabase.LockDatabase.ProcessAcquireDdlLock: is about a peer that asks for more only once its first request is confirmed, as `LockTheorems.UpgradeFindsConfirmedHold` shows of every run.
- LockDatabase.LockDatabase.Startup: the waiting for local workers and the shared-memory search for the database are not modelled.
- ReplayReports.ReportsAreCompleteExactly: is about the commits of one connection; a worker that exits forgets its list, and the next one reports only its own commits and what it receives.
- SingleWriter.LastWriteHoldsExactly: is about rows that one node writes; `Convergence.StepIsExact` is about several writers.
- Replay: the commit in the middle of a transaction that replays queued DDL is not modelled, and positions received before a commit lie below its end, as the upstream sends them.
- TupleWire.TupleRoundTrip: is about the bytes of a column; how a type is put into bytes and the choice between binary, send and text formats are not modelled.
- TupleWire.ReadTupleParts: a column count with the sign bit set is an error in the model; the C code gives it no meaning.
- ActionWire.RelRoundTrip: a name sent without its terminator is taken as it is.
- Names.OriginNameRoundTrip: numbers are scanned as plain digits; blanks, signs and overflow that scanf accepts before or in a number are not modelled.
- Convergence: one row per key that always exists; deletes, missing rows, conflicts on other unique keys, user conflict handlers and the logging of conflicts are not modelled.
- ReplicationSets: labels are lists of names; their JSON form is not modelled.
- SeqIds.GlobalSequenceIsGlobal: does not cover a session whose node was made ready again after it read its id, because it is false there.
- SeqIds: the table of nodes is one table, as the global lock held during the query makes it.
- The generator of node identifiers, queued DDL, conflict history and statistics.

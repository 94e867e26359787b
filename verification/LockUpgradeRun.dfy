/** A run of two nodes in which a writer slips in while a lock is upgraded, and one in which
    a DDL hold is recovered in catch-up. */
module LockUpgradeRun {
  import opened Common
  import opened LockHandlers
  import opened LockProtocol
  import opened LockInvariant
  import opened LockSafety
  import opened LockFlush
  import LockDatabase
  import opened LockCounterexamples
  import opened LockRequester

  /** Node 0 takes the DDL lock, then upgrades it. */
  const Asker0: Node := Make(FreeDb.(nnodes := 1), [], [0, 0], [NoCount, NoCount])
  const Asker1: Node := Begun(Asker0, Ddl)
  const Asker2: Node := Taken(Passed(Counted(Asker1, 1)))
  const Asker3: Node := Upgraded(Asker2, Write)
  const Asker4: Node := Logged(Asker3, 1, ReplayConfirm(5))
  const Asker5: Node := Taken(Passed(Counted(Asker4, 1)))

  /** Node 1, having replayed `seen` entries of node 0. */
  function Granter(db: LockDb, log: seq<Entry>, seen: nat, table: map<NodeId, Row> := map[], worker: Worker := Idle,
                   writers: set<nat> := {}, hist: History := NoHistory): Node
  {
    Make(db, log, [seen, 0], [NoCount, NoCount], table, worker, writers := writers, hist := hist)
  }

  /** Transaction 9 starts between the cancelling of writers and the raising of the lock
      type. */
  function GranterEvent(k: nat): Event
    requires k < 10
  {
    if k == 0 then Deliver(0, Acquire(Ddl))
    else if k == 1 then ConfirmDdl
    else if k == 2 then Deliver(0, Acquire(Write))
    else if k == 3 then CancelStart
    else if k == 4 then CancelDone
    else if k == 5 then OpenWrite(9)
    else if k == 6 then Raise
    else if k == 7 then AskReplay(5)
    else if k == 8 then Deliver(0, ReplayConfirm(5))
    else CommitWrite(9)
  }

  function GranterNode(k: nat): Node
    requires k <= 10
  {
    var l1, l2 := [Confirm(0, Ddl)], [Confirm(0, Ddl), RequestReplay(5)];
    var l3 := l2 + [Confirm(0, Write)];
    var ddl, up := NoHistory.(grants := 1), NoHistory.(grants := 1, grant := 1, src := 1);
    var rowW, heard := map[0 := Row(Write, RowCatchup)], up.(req := 1, replayedBy := {0}, full := true);
    if k == 0 then Granter(FreeDb.(nnodes := 1), [], 0)
    else if k == 1 then Granter(Held(1, 0, Ddl, BeginCatchup), [], 1, map[0 := Row(Ddl, RowCatchup)], WillConfirm, {}, ddl)
    else if k == 2 then Granter(Held(1, 0, Ddl, Confirmed), l1, 1, map[0 := Row(Ddl, RowAcquired)], Idle, {}, ddl)
    else if k == 3 then Granter(Held(1, 0, Ddl, BeginCatchup), l1, 2, rowW, WillCancel(true), {}, up)
    else if k == 4 then Granter(Held(1, 0, Ddl, CancelXacts), l1, 2, rowW, Cancelling(true), {}, up)
    else if k == 5 then Granter(Held(1, 0, Ddl, CancelXacts), l1, 2, rowW, WillRaise, {}, up)
    else if k == 6 then Granter(Held(1, 0, Ddl, CancelXacts), l1, 2, rowW, WillRaise, {9}, up)
    else if k == 7 then Granter(Held(1, 0, Write, CancelXacts), l1, 2, rowW, WillRequest, {9}, up)
    else if k == 8 then Granter(Held(1, 0, Write, Catchup).(lsn := 5), l2, 2, rowW, Idle, {9}, up.(req := 1))
    else if k == 9 then Granter(Held(1, 0, Write, Confirmed), l3, 3, map[0 := Row(Write, RowAcquired)], Idle, {9}, heard)
    else Granter(Held(1, 0, Write, Confirmed), l3 + [Change], 3, map[0 := Row(Write, RowAcquired)], Idle, {}, heard)
  }

  lemma GranterGoes1(k: nat)
    requires k < 3
    ensures Goes(1, 2, GranterNode(k), GranterEvent(k), GranterNode(k + 1))
  {
    assert SameNode(Next(1, 2, GranterNode(k), GranterEvent(k)), GranterNode(k + 1));
  }

  lemma GranterGoes2(k: nat)
    requires 3 <= k < 6
    ensures Goes(1, 2, GranterNode(k), GranterEvent(k), GranterNode(k + 1))
  {
    assert SameNode(Next(1, 2, GranterNode(k), GranterEvent(k)), GranterNode(k + 1));
  }

  lemma GranterGoes3(k: nat)
    requires 6 <= k < 8
    ensures Goes(1, 2, GranterNode(k), GranterEvent(k), GranterNode(k + 1))
  {
    assert SameNode(Next(1, 2, GranterNode(k), GranterEvent(k)), GranterNode(k + 1));
  }

  lemma GranterGoes4(k: nat)
    requires 8 <= k < 9
    ensures Goes(1, 2, GranterNode(k), GranterEvent(k), GranterNode(k + 1))
  {
    hide Peers;
    PeersAre();
    assert SameNode(Next(1, 2, GranterNode(k), GranterEvent(k)), GranterNode(k + 1));
  }

  lemma GranterGoes5(k: nat)
    requires 9 <= k < 10
    ensures Goes(1, 2, GranterNode(k), GranterEvent(k), GranterNode(k + 1))
  {
    assert SameNode(Next(1, 2, GranterNode(k), GranterEvent(k)), GranterNode(k + 1));
  }

  lemma GranterGoes(k: nat)
    requires k < 10
    ensures Goes(1, 2, GranterNode(k), GranterEvent(k), GranterNode(k + 1))
  {
    hide Goes;
    if k < 3 { GranterGoes1(k); }
    else if k < 6 { GranterGoes2(k); }
    else if k < 8 { GranterGoes3(k); }
    else if k < 9 { GranterGoes4(k); }
    else { GranterGoes5(k); }
  }

  /** The run, a few steps at a time. */
  lemma GrantedRun() returns (tr: seq<Group>)
    ensures IsRun(tr) && tr[|tr| - 1] == [Asker1, GranterNode(1)]
  {
    hide Goes, Next, Enabled;
    tr := [[Asker0, GranterNode(0)]];
    BeginGoes(0, 2, Asker0, Ddl);
    tr := MoveTo(tr, [Asker0, GranterNode(0)], 0, BeginAttempt(Pid, Ddl), Asker1);
    assert tr[|tr| - 1] == [Asker1, GranterNode(0)];
    GranterGoes(0);
    tr := MoveTo(tr, [Asker1, GranterNode(0)], 1, GranterEvent(0), GranterNode(1));
    assert tr[|tr| - 1] == [Asker1, GranterNode(1)];
  }

  lemma UpgradeRun1() returns (tr: seq<Group>)
    ensures IsRun(tr) && tr[|tr| - 1] == [Asker1, GranterNode(2)]
  {
    hide IsRun, Goes, Next, Enabled;
    tr := GrantedRun();
    GranterGoes(1);
    tr := MoveTo(tr, [Asker1, GranterNode(1)], 1, GranterEvent(1), GranterNode(2));
    assert tr[|tr| - 1] == [Asker1, GranterNode(2)];
  }

  lemma UpgradeRun2() returns (tr: seq<Group>)
    ensures IsRun(tr) && |tr| > 0 && tr[|tr| - 1] == [Asker2, GranterNode(2)]
  {
    hide IsRun;
    tr := UpgradeRun1();
    tr := Counts(tr, [Asker1, GranterNode(2)], 0, 1, Confirm(0, Ddl));
    assert tr[|tr| - 1] == [Counted(Asker1, 1), GranterNode(2)];
    tr := Passes(tr, [Counted(Asker1, 1), GranterNode(2)], 0);
    assert tr[|tr| - 1] == [Passed(Counted(Asker1, 1)), GranterNode(2)];
    tr := Takes(tr, [Passed(Counted(Asker1, 1)), GranterNode(2)], 0);
    assert tr[|tr| - 1] == [Asker2, GranterNode(2)];
  }

  lemma UpgradeRun3() returns (tr: seq<Group>)
    ensures IsRun(tr) && |tr| > 0 && tr[|tr| - 1] == [Asker3, GranterNode(2)]
  {
    hide IsRun, Goes, Next, Enabled;
    tr := UpgradeRun2();
    UpgradeGoes(0, 2, Asker2);
    tr := MoveTo(tr, [Asker2, GranterNode(2)], 0, BeginUpgrade(Write), Asker3);
    assert tr[|tr| - 1] == [Asker3, GranterNode(2)];
  }

  lemma UpgradeRun4() returns (tr: seq<Group>)
    ensures IsRun(tr) && tr[|tr| - 1] == [Asker3, GranterNode(5)]
  {
    hide IsRun, Goes, Next, Enabled;
    tr := UpgradeRun3();
    GranterGoes(2);
    tr := MoveTo(tr, [Asker3, GranterNode(2)], 1, GranterEvent(2), GranterNode(3));
    assert tr[|tr| - 1] == [Asker3, GranterNode(3)];
    GranterGoes(3);
    tr := MoveTo(tr, [Asker3, GranterNode(3)], 1, GranterEvent(3), GranterNode(4));
    assert tr[|tr| - 1] == [Asker3, GranterNode(4)];
    GranterGoes(4);
    tr := MoveTo(tr, [Asker3, GranterNode(4)], 1, GranterEvent(4), GranterNode(5));
    assert tr[|tr| - 1] == [Asker3, GranterNode(5)];
  }

  lemma UpgradeRun5() returns (tr: seq<Group>)
    ensures IsRun(tr) && tr[|tr| - 1] == [Asker3, GranterNode(8)]
  {
    hide IsRun, Goes, Next, Enabled;
    tr := UpgradeRun4();
    GranterGoes(5);
    tr := MoveTo(tr, [Asker3, GranterNode(5)], 1, GranterEvent(5), GranterNode(6));
    assert tr[|tr| - 1] == [Asker3, GranterNode(6)];
    GranterGoes(6);
    tr := MoveTo(tr, [Asker3, GranterNode(6)], 1, GranterEvent(6), GranterNode(7));
    assert tr[|tr| - 1] == [Asker3, GranterNode(7)];
    GranterGoes(7);
    tr := MoveTo(tr, [Asker3, GranterNode(7)], 1, GranterEvent(7), GranterNode(8));
    assert tr[|tr| - 1] == [Asker3, GranterNode(8)];
  }

  lemma UpgradeRun6() returns (tr: seq<Group>)
    ensures IsRun(tr) && |tr| > 0 && tr[|tr| - 1] == [Asker4, GranterNode(8)]
  {
    hide IsRun;
    tr := UpgradeRun5();
    tr := Replays(tr, [Asker3, GranterNode(8)], 0, 1, RequestReplay(5));
    assert tr[|tr| - 1] == [Asker4, GranterNode(8)];
  }

  lemma UpgradeRun7() returns (tr: seq<Group>)
    ensures IsRun(tr) && tr[|tr| - 1] == [Asker4, GranterNode(9)]
  {
    hide IsRun, Goes, Next, Enabled;
    tr := UpgradeRun6();
    GranterGoes(8);
    tr := MoveTo(tr, [Asker4, GranterNode(8)], 1, GranterEvent(8), GranterNode(9));
    assert tr[|tr| - 1] == [Asker4, GranterNode(9)];
  }

  lemma UpgradeRun8() returns (tr: seq<Group>)
    ensures IsRun(tr) && |tr| > 0 && tr[|tr| - 1] == [Asker5, GranterNode(9)]
  {
    hide IsRun;
    tr := UpgradeRun7();
    tr := Counts(tr, [Asker4, GranterNode(9)], 0, 1, Confirm(0, Write));
    assert tr[|tr| - 1] == [Counted(Asker4, 1), GranterNode(9)];
    tr := Passes(tr, [Counted(Asker4, 1), GranterNode(9)], 0);
    assert tr[|tr| - 1] == [Passed(Counted(Asker4, 1)), GranterNode(9)];
    tr := Takes(tr, [Passed(Counted(Asker4, 1)), GranterNode(9)], 0);
    assert tr[|tr| - 1] == [Asker5, GranterNode(9)];
  }

  lemma UpgradeRun9() returns (tr: seq<Group>)
    ensures IsRun(tr) && tr[|tr| - 1] == [Asker5, GranterNode(10)]
  {
    hide IsRun, Goes, Next, Enabled;
    tr := UpgradeRun8();
    GranterGoes(9);
    tr := MoveTo(tr, [Asker5, GranterNode(9)], 1, GranterEvent(9), GranterNode(10));
    assert tr[|tr| - 1] == [Asker5, GranterNode(10)];
  }

  /** An upgraded write lock does not flush: while node 0 holds it, node 1 commits a
      row change that node 0 has not replayed. */
  lemma UpgradeLetsWriterThrough() returns (tr: seq<Group>)
    ensures IsRun(tr) && WellFormed(tr[|tr| - 1]) && |tr[|tr| - 1]| == 2
    ensures HoldsWriteLock(tr[|tr| - 1], 0) && !AllReplayed(tr[|tr| - 1], 1, 0)
  {
    tr := UpgradeRun9();
    var g := tr[|tr| - 1];
    assert g[1].site.log[3] == Change && g[0].cur[1] == 3;
  }

  // ---- a ddl hold recovered in catch-up --------------------------------------------------------

  const DdlRow: map<NodeId, Row> := map[0 := Row(Ddl, RowCatchup)]

  const DownNode := Granter(FreeDb, [], 1, DdlRow, Idle, {}, NoHistory.(grants := 1)).(up := false)

  const RecoveredNode :=
    Granter(Held(0, 0, Ddl, Catchup).(nnodes := -1, lsn := 5), [Start, RequestReplay(5)], 1, DdlRow, Idle, {},
            NoHistory.(req := 1, clean := true, grants := 1, boots := 1))

  lemma CrashGoes()
    ensures Goes(1, 2, GranterNode(1), Crash, DownNode)
  {
    assert SameNode(Next(1, 2, GranterNode(1), Crash), DownNode);
  }

  lemma RecoverGoes()
    ensures Goes(1, 2, DownNode, Recover(5), RecoveredNode)
  {
    assert 0 in DownNode.site.table;
    assert SameNode(Next(1, 2, DownNode, Recover(5)), RecoveredNode);
  }

  /** A node that crashes after granting a ddl lock and before confirming it comes back
      waiting for replay in ddl mode, where the assertion on confirming fails. */
  lemma RecoveredDdlBreaksAssertion() returns (tr: seq<Group>)
    ensures IsRun(tr) && |tr[|tr| - 1]| == 2
    ensures ReachesQuorum(tr[|tr| - 1][1].site, 5) && !LockDatabase.ConfirmAssertion(tr[|tr| - 1][1].site.db)
  {
    hide IsRun, Goes, Next, Enabled;
    tr := GrantedRun();
    CrashGoes();
    tr := MoveTo(tr, [Asker1, GranterNode(1)], 1, Crash, DownNode);
    RecoverGoes();
    assert tr[|tr| - 1] == [Asker1, DownNode];
    tr := MoveTo(tr, [Asker1, DownNode], 1, Recover(5), RecoveredNode);
  }
}

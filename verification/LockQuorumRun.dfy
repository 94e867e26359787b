/** A run of three nodes in which a restarted peer takes one answer for all, and the write
    lock is acquired with a change unreplayed. */
module LockQuorumRun {
  import opened Common
  import opened LockHandlers
  import opened LockProtocol
  import opened LockInvariant
  import opened LockSafety
  import opened LockFlush
  import opened LockCounterexamples
  import opened LockRequester

  /** Node 0 asks for the write lock and answers both peers. */
  const Asker0: Node := Make(FreeDb.(nnodes := 2), [], [0, 0, 0], [NoCount, NoCount, NoCount])
  const Asker1: Node := Begun(Asker0, Write)
  const Asker2: Node := Logged(Asker1, 2, ReplayConfirm(5))
  const Asker3: Node := Skipped(Skipped(Asker2, 1), 1)
  const Asker4: Node := Logged(Skipped(Asker3, 1), 1, ReplayConfirm(6))
  const Asker5: Node := Counted(Counted(Asker4, 1), 2)

  /** Node 1, having replayed `zero` entries of node 0 and `two` of node 2. */
  function Writer(db: LockDb, log: seq<Entry>, zero: nat, two: nat, table: map<NodeId, Row> := map[], worker: Worker := Idle,
                  writers: set<nat> := {}, hist: History := NoHistory): Node
  {
    Make(db, log, [zero, 0, two], [NoCount, NoCount, NoCount], table, worker, writers := writers, hist := hist)
  }

  /** It commits a change, grants the lock, restarts and confirms on the answer of node 0
      alone. */
  function WriterEvent(k: nat): Event
    requires k < 8
  {
    if k == 0 then Deliver(2, RequestReplay(5))
    else if k == 1 then OpenWrite(9)
    else if k == 2 then CommitWrite(9)
    else if k == 3 then Deliver(0, Acquire(Write))
    else if k == 4 then Crash
    else if k == 5 then Recover(6)
    else if k == 6 then Deliver(0, ReplayConfirm(5))
    else Deliver(0, ReplayConfirm(6))
  }

  function WriterNode(k: nat): Node
    requires k <= 8
  {
    var l1, l2 := [ReplayConfirm(5)], [ReplayConfirm(5), Change];
    var l3 := l2 + [Start, RequestReplay(6)];
    var granted := NoHistory.(grant := 2, grants := 1);
    var asked := granted.(req := 3, clean := true, boots := 1);
    var row := map[0 := Row(Write, RowCatchup)];
    if k == 0 then Writer(FreeDb.(nnodes := 2), [], 0, 0)
    else if k == 1 then Writer(FreeDb.(nnodes := 2), l1, 0, 1)
    else if k == 2 then Writer(FreeDb.(nnodes := 2), l1, 0, 1, writers := {9})
    else if k == 3 then Writer(FreeDb.(nnodes := 2), l2, 0, 1)
    else if k == 4 then Writer(Held(2, 0, Write, BeginCatchup), l2, 1, 1, row, WillCancel(false), {}, granted)
    else if k == 5 then Writer(FreeDb, l2, 1, 1, row, Idle, {}, granted).(up := false)
    else if k == 6 then Writer(Held(0, 0, Write, Catchup).(nnodes := -1, lsn := 6), l3, 1, 1, row, Idle, {}, asked)
    else if k == 7 then Writer(Held(0, 0, Write, Catchup).(nnodes := -1, lsn := 6), l3, 2, 1, row, Idle, {}, asked)
    else Writer(Held(0, 0, Write, Confirmed).(nnodes := -1), l3 + [Confirm(0, Write)], 3, 1, map[0 := Row(Write, RowAcquired)], Idle, {}, asked.(replayedBy := {0}))
  }

  /** Node 2, having replayed `zero` entries of node 0 and `one` of node 1. */
  function Behind(db: LockDb, log: seq<Entry>, zero: nat, one: nat, table: map<NodeId, Row> := map[], worker: Worker := Idle,
                  hist: History := NoHistory): Node
  {
    Make(db, log, [zero, one, 0], [NoCount, NoCount, NoCount], table, worker, hist := hist)
  }

  /** It grants the lock and gets both answers before the change of node 1. */
  function BehindEvent(k: nat): Event
    requires k < 6
  {
    if k == 0 then Deliver(0, Acquire(Write))
    else if k == 1 then CancelStart
    else if k == 2 then CancelDone
    else if k == 3 then AskReplay(5)
    else if k == 4 then Deliver(0, ReplayConfirm(5))
    else Deliver(1, ReplayConfirm(5))
  }

  function BehindNode(k: nat): Node
    requires k <= 6
  {
    var granted, row := NoHistory.(grants := 1), map[0 := Row(Write, RowCatchup)];
    var asked, l1 := granted.(clean := true), [RequestReplay(5)];
    if k == 0 then Behind(FreeDb.(nnodes := 2), [], 0, 0)
    else if k == 1 then Behind(Held(2, 0, Write, BeginCatchup), [], 1, 0, row, WillCancel(false), granted)
    else if k == 2 then Behind(Held(2, 0, Write, CancelXacts), [], 1, 0, row, Cancelling(false), granted)
    else if k == 3 then Behind(Held(2, 0, Write, CancelXacts), [], 1, 0, row, WillRequest, asked)
    else if k == 4 then Behind(Held(2, 0, Write, Catchup).(lsn := 5), l1, 1, 0, row, Idle, asked)
    else if k == 5 then Behind(Held(2, 0, Write, Catchup).(lsn := 5, replayed := 1), l1, 2, 0, row, Idle, asked.(replayedBy := {0}))
    else Behind(Held(2, 0, Write, Confirmed), l1 + [Confirm(0, Write)], 2, 1, map[0 := Row(Write, RowAcquired)], Idle,
           asked.(replayedBy := {0, 1}, full := true))
  }

  lemma WriterGoes1(k: nat)
    requires k < 3
    ensures Goes(1, 3, WriterNode(k), WriterEvent(k), WriterNode(k + 1))
  {
    assert SameNode(Next(1, 3, WriterNode(k), WriterEvent(k)), WriterNode(k + 1));
  }

  lemma WriterGoes2(k: nat)
    requires 3 <= k < 5
    ensures Goes(1, 3, WriterNode(k), WriterEvent(k), WriterNode(k + 1))
  {
    assert SameNode(Next(1, 3, WriterNode(k), WriterEvent(k)), WriterNode(k + 1));
  }

  lemma WriterGoes3(k: nat)
    requires 5 <= k < 6
    ensures Goes(1, 3, WriterNode(k), WriterEvent(k), WriterNode(k + 1))
  {
    assert 0 in WriterNode(5).site.table;
    assert SameNode(Next(1, 3, WriterNode(k), WriterEvent(k)), WriterNode(k + 1));
  }

  lemma WriterGoes4(k: nat)
    requires 6 <= k < 7
    ensures Goes(1, 3, WriterNode(k), WriterEvent(k), WriterNode(k + 1))
  {
    assert SameNode(Next(1, 3, WriterNode(k), WriterEvent(k)), WriterNode(k + 1));
  }

  lemma WriterGoes5(k: nat)
    requires 7 <= k < 8
    ensures Goes(1, 3, WriterNode(k), WriterEvent(k), WriterNode(k + 1))
  {
    hide Peers;
    PeersAre();
    assert SameNode(Next(1, 3, WriterNode(k), WriterEvent(k)), WriterNode(k + 1));
  }

  lemma WriterGoes(k: nat)
    requires k < 8
    ensures Goes(1, 3, WriterNode(k), WriterEvent(k), WriterNode(k + 1))
  {
    hide Goes;
    if k < 3 { WriterGoes1(k); }
    else if k < 5 { WriterGoes2(k); }
    else if k < 6 { WriterGoes3(k); }
    else if k < 7 { WriterGoes4(k); }
    else { WriterGoes5(k); }
  }

  lemma BehindGoes1(k: nat)
    requires k < 2
    ensures Goes(2, 3, BehindNode(k), BehindEvent(k), BehindNode(k + 1))
  {
    assert SameNode(Next(2, 3, BehindNode(k), BehindEvent(k)), BehindNode(k + 1));
  }

  lemma BehindGoes2(k: nat)
    requires 2 <= k < 4
    ensures Goes(2, 3, BehindNode(k), BehindEvent(k), BehindNode(k + 1))
  {
    assert SameNode(Next(2, 3, BehindNode(k), BehindEvent(k)), BehindNode(k + 1));
  }

  lemma BehindGoes3(k: nat)
    requires 4 <= k < 5
    ensures Goes(2, 3, BehindNode(k), BehindEvent(k), BehindNode(k + 1))
  {
    assert SameNode(Next(2, 3, BehindNode(k), BehindEvent(k)), BehindNode(k + 1));
  }

  lemma BehindGoes4(k: nat)
    requires 5 <= k < 6
    ensures Goes(2, 3, BehindNode(k), BehindEvent(k), BehindNode(k + 1))
  {
    hide Peers;
    PeersAre();
    assert SameNode(Next(2, 3, BehindNode(k), BehindEvent(k)), BehindNode(k + 1));
  }

  lemma BehindGoes(k: nat)
    requires k < 6
    ensures Goes(2, 3, BehindNode(k), BehindEvent(k), BehindNode(k + 1))
  {
    hide Goes;
    if k < 2 { BehindGoes1(k); }
    else if k < 4 { BehindGoes2(k); }
    else if k < 5 { BehindGoes3(k); }
    else { BehindGoes4(k); }
  }

  /** The run, a few steps at a time. */
  lemma QuorumRun1() returns (tr: seq<Group>)
    ensures IsRun(tr) && tr[|tr| - 1] == [Asker1, WriterNode(0), BehindNode(0)]
  {
    hide Goes, Next, Enabled;
    tr := [[Asker0, WriterNode(0), BehindNode(0)]];
    BeginGoes(0, 3, Asker0, Write);
    tr := MoveTo(tr, [Asker0, WriterNode(0), BehindNode(0)], 0, BeginAttempt(Pid, Write), Asker1);
    assert tr[|tr| - 1] == [Asker1, WriterNode(0), BehindNode(0)];
  }

  lemma QuorumRun2() returns (tr: seq<Group>)
    ensures IsRun(tr) && tr[|tr| - 1] == [Asker1, WriterNode(0), BehindNode(3)]
  {
    hide IsRun, Goes, Next, Enabled;
    tr := QuorumRun1();
    BehindGoes(0);
    tr := MoveTo(tr, [Asker1, WriterNode(0), BehindNode(0)], 2, BehindEvent(0), BehindNode(1));
    assert tr[|tr| - 1] == [Asker1, WriterNode(0), BehindNode(1)];
    BehindGoes(1);
    tr := MoveTo(tr, [Asker1, WriterNode(0), BehindNode(1)], 2, BehindEvent(1), BehindNode(2));
    assert tr[|tr| - 1] == [Asker1, WriterNode(0), BehindNode(2)];
    BehindGoes(2);
    tr := MoveTo(tr, [Asker1, WriterNode(0), BehindNode(2)], 2, BehindEvent(2), BehindNode(3));
    assert tr[|tr| - 1] == [Asker1, WriterNode(0), BehindNode(3)];
  }

  lemma QuorumRun3() returns (tr: seq<Group>)
    ensures IsRun(tr) && tr[|tr| - 1] == [Asker1, WriterNode(1), BehindNode(4)]
  {
    hide IsRun, Goes, Next, Enabled;
    tr := QuorumRun2();
    BehindGoes(3);
    tr := MoveTo(tr, [Asker1, WriterNode(0), BehindNode(3)], 2, BehindEvent(3), BehindNode(4));
    assert tr[|tr| - 1] == [Asker1, WriterNode(0), BehindNode(4)];
    WriterGoes(0);
    tr := MoveTo(tr, [Asker1, WriterNode(0), BehindNode(4)], 1, WriterEvent(0), WriterNode(1));
    assert tr[|tr| - 1] == [Asker1, WriterNode(1), BehindNode(4)];
  }

  lemma QuorumRun4() returns (tr: seq<Group>)
    ensures IsRun(tr) && |tr| > 0 && tr[|tr| - 1] == [Asker2, WriterNode(1), BehindNode(4)]
  {
    hide IsRun;
    tr := QuorumRun3();
    tr := Replays(tr, [Asker1, WriterNode(1), BehindNode(4)], 0, 2, RequestReplay(5));
    assert tr[|tr| - 1] == [Asker2, WriterNode(1), BehindNode(4)];
  }

  lemma QuorumRun5() returns (tr: seq<Group>)
    ensures IsRun(tr) && tr[|tr| - 1] == [Asker2, WriterNode(1), BehindNode(6)]
  {
    hide IsRun, Goes, Next, Enabled;
    tr := QuorumRun4();
    BehindGoes(4);
    tr := MoveTo(tr, [Asker2, WriterNode(1), BehindNode(4)], 2, BehindEvent(4), BehindNode(5));
    assert tr[|tr| - 1] == [Asker2, WriterNode(1), BehindNode(5)];
    BehindGoes(5);
    tr := MoveTo(tr, [Asker2, WriterNode(1), BehindNode(5)], 2, BehindEvent(5), BehindNode(6));
    assert tr[|tr| - 1] == [Asker2, WriterNode(1), BehindNode(6)];
  }

  lemma QuorumRun6() returns (tr: seq<Group>)
    ensures IsRun(tr) && tr[|tr| - 1] == [Asker2, WriterNode(4), BehindNode(6)]
  {
    hide IsRun, Goes, Next, Enabled;
    tr := QuorumRun5();
    WriterGoes(1);
    tr := MoveTo(tr, [Asker2, WriterNode(1), BehindNode(6)], 1, WriterEvent(1), WriterNode(2));
    assert tr[|tr| - 1] == [Asker2, WriterNode(2), BehindNode(6)];
    WriterGoes(2);
    tr := MoveTo(tr, [Asker2, WriterNode(2), BehindNode(6)], 1, WriterEvent(2), WriterNode(3));
    assert tr[|tr| - 1] == [Asker2, WriterNode(3), BehindNode(6)];
    WriterGoes(3);
    tr := MoveTo(tr, [Asker2, WriterNode(3), BehindNode(6)], 1, WriterEvent(3), WriterNode(4));
    assert tr[|tr| - 1] == [Asker2, WriterNode(4), BehindNode(6)];
  }

  lemma QuorumRun7() returns (tr: seq<Group>)
    ensures IsRun(tr) && tr[|tr| - 1] == [Asker2, WriterNode(5), BehindNode(6)]
  {
    hide IsRun, Goes, Next, Enabled;
    tr := QuorumRun6();
    WriterGoes(4);
    tr := MoveTo(tr, [Asker2, WriterNode(4), BehindNode(6)], 1, WriterEvent(4), WriterNode(5));
    assert tr[|tr| - 1] == [Asker2, WriterNode(5), BehindNode(6)];
  }

  lemma QuorumRun8() returns (tr: seq<Group>)
    ensures IsRun(tr) && tr[|tr| - 1] == [Asker2, WriterNode(6), BehindNode(6)]
  {
    hide IsRun, Goes, Next, Enabled;
    tr := QuorumRun7();
    WriterGoes(5);
    tr := MoveTo(tr, [Asker2, WriterNode(5), BehindNode(6)], 1, WriterEvent(5), WriterNode(6));
    assert tr[|tr| - 1] == [Asker2, WriterNode(6), BehindNode(6)];
  }

  lemma QuorumRun9() returns (tr: seq<Group>)
    ensures IsRun(tr) && |tr| > 0 && tr[|tr| - 1] == [Asker3, WriterNode(6), BehindNode(6)]
  {
    hide IsRun;
    tr := QuorumRun8();
    tr := Replays(tr, [Asker2, WriterNode(6), BehindNode(6)], 0, 1, ReplayConfirm(5));
    assert tr[|tr| - 1] == [Skipped(Asker2, 1), WriterNode(6), BehindNode(6)];
    tr := Replays(tr, [Skipped(Asker2, 1), WriterNode(6), BehindNode(6)], 0, 1, Change);
    assert tr[|tr| - 1] == [Asker3, WriterNode(6), BehindNode(6)];
  }

  lemma QuorumRun10() returns (tr: seq<Group>)
    ensures IsRun(tr) && |tr| > 0 && tr[|tr| - 1] == [Asker4, WriterNode(6), BehindNode(6)]
  {
    hide IsRun;
    tr := QuorumRun9();
    tr := Replays(tr, [Asker3, WriterNode(6), BehindNode(6)], 0, 1, Start);
    assert tr[|tr| - 1] == [Skipped(Asker3, 1), WriterNode(6), BehindNode(6)];
    tr := Replays(tr, [Skipped(Asker3, 1), WriterNode(6), BehindNode(6)], 0, 1, RequestReplay(6));
    assert tr[|tr| - 1] == [Asker4, WriterNode(6), BehindNode(6)];
  }

  lemma QuorumRun11() returns (tr: seq<Group>)
    ensures IsRun(tr) && tr[|tr| - 1] == [Asker4, WriterNode(8), BehindNode(6)]
  {
    hide IsRun, Goes, Next, Enabled;
    tr := QuorumRun10();
    WriterGoes(6);
    tr := MoveTo(tr, [Asker4, WriterNode(6), BehindNode(6)], 1, WriterEvent(6), WriterNode(7));
    assert tr[|tr| - 1] == [Asker4, WriterNode(7), BehindNode(6)];
    WriterGoes(7);
    tr := MoveTo(tr, [Asker4, WriterNode(7), BehindNode(6)], 1, WriterEvent(7), WriterNode(8));
    assert tr[|tr| - 1] == [Asker4, WriterNode(8), BehindNode(6)];
  }

  lemma QuorumRun12() returns (tr: seq<Group>)
    ensures IsRun(tr) && |tr| > 0 && tr[|tr| - 1] == [Asker5, WriterNode(8), BehindNode(6)]
  {
    hide IsRun;
    tr := QuorumRun11();
    tr := Counts(tr, [Asker4, WriterNode(8), BehindNode(6)], 0, 1, Confirm(0, Write));
    assert tr[|tr| - 1] == [Counted(Asker4, 1), WriterNode(8), BehindNode(6)];
    tr := Counts(tr, [Counted(Asker4, 1), WriterNode(8), BehindNode(6)], 0, 2, Confirm(0, Write));
    assert tr[|tr| - 1] == [Asker5, WriterNode(8), BehindNode(6)];
  }

  /** The write lock is held and node 2 has not replayed the change of node 1. */
  lemma UnknownCountLetsChangeThrough() returns (tr: seq<Group>)
    ensures IsRun(tr) && WellFormed(tr[|tr| - 1]) && |tr[|tr| - 1]| == 3
    ensures HoldsWriteLock(tr[|tr| - 1], 0) && !AllReplayed(tr[|tr| - 1], 1, 2)
  {
    tr := QuorumRun12();
    tr := Passes(tr, [Asker5, WriterNode(8), BehindNode(6)], 0);
    assert tr[|tr| - 1] == [Passed(Asker5), WriterNode(8), BehindNode(6)];
    tr := Takes(tr, [Passed(Asker5), WriterNode(8), BehindNode(6)], 0);
    var g := tr[|tr| - 1];
    assert g[1].site.log[1] == Change && g[2].cur[1] == 1;
  }
}

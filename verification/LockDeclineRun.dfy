/** A run of three nodes in which a decline is counted and the lock is acquired all the
    same. */
module LockDeclineRun {
  import opened Common
  import opened LockHandlers
  import opened LockProtocol
  import opened LockInvariant
  import opened LockSafety
  import opened LockCounterexamples
  import opened LockRequester

  /** Node 0 counts both confirmations, ends its wait, and only then counts the decline that
      node 2 meant for node 1. */
  const Asker0: Node := Make(FreeDb.(nnodes := 2), [], [0, 0, 0], [NoCount, NoCount, NoCount])
  const Asker1: Node := Begun(Asker0, Ddl)
  const Asker2: Node := Skipped(Logged(Asker1, 1, Decline(1, Ddl)), 1)
  const Asker3: Node := Passed(Counted(Counted(Asker2, 1), 2))
  const Asker4: Node := Declined(Asker3, 2)

  /** Node 1, having replayed `zero` entries of node 0. */
  function Former(db: LockDb, log: seq<Entry>, zero: nat, table: map<NodeId, Row> := map[], worker: Worker := Idle,
                  releasing: bool := false, hist: History := NoHistory): Node
  {
    Make(db, log, [zero, 0, 0], [NoCount, NoCount, NoCount], table, worker, releasing := releasing, hist := hist)
  }

  /** It asks for the lock and gives up, then confirms node 0. */
  function FormerEvent(k: nat): Event
    requires k < 5
  {
    if k == 0 then BeginAttempt(Pid, Ddl)
    else if k == 1 then LogRelease
    else if k == 2 then ClearLocal
    else if k == 3 then Deliver(0, Acquire(Ddl))
    else ConfirmDdl
  }

  function FormerNode(k: nat): Node
    requires k <= 5
  {
    var l1, l2 := [Acquire(Ddl)], [Acquire(Ddl), Release(1)];
    var granted := NoHistory.(grant := 2, grants := 1);
    if k == 0 then Former(FreeDb.(nnodes := 2), [], 0)
    else if k == 1 then Former(Asking(2, Ddl, 0), l1, 0)
    else if k == 2 then Former(Asking(2, Ddl, 0), l2, 0, releasing := true)
    else if k == 3 then Former(FreeDb.(nnodes := 2), l2, 0)
    else if k == 4 then Former(Held(2, 0, Ddl, BeginCatchup), l2, 1, map[0 := Row(Ddl, RowCatchup)], WillConfirm, false, granted)
    else Former(Held(2, 0, Ddl, Confirmed), l2 + [Confirm(0, Ddl)], 1, map[0 := Row(Ddl, RowAcquired)], Idle, false, granted)
  }

  /** Node 2, having replayed `zero` entries of node 0 and `one` of node 1. */
  function Late(db: LockDb, log: seq<Entry>, zero: nat, one: nat, table: map<NodeId, Row> := map[], worker: Worker := Idle,
                hist: History := NoHistory): Node
  {
    Make(db, log, [zero, one, 0], [NoCount, NoCount, NoCount], table, worker, hist := hist)
  }

  /** It confirms node 0 and then replays the old request of node 1. */
  function LateEvent(k: nat): Event
    requires k < 3
  {
    if k == 0 then Deliver(0, Acquire(Ddl))
    else if k == 1 then ConfirmDdl
    else Deliver(1, Acquire(Ddl))
  }

  function LateNode(k: nat): Node
    requires k <= 3
  {
    var granted, full := NoHistory.(grants := 1), map[0 := Row(Ddl, RowAcquired)];
    if k == 0 then Late(FreeDb.(nnodes := 2), [], 0, 0)
    else if k == 1 then Late(Held(2, 0, Ddl, BeginCatchup), [], 1, 0, map[0 := Row(Ddl, RowCatchup)], WillConfirm, granted)
    else if k == 2 then Late(Held(2, 0, Ddl, Confirmed), [Confirm(0, Ddl)], 1, 0, full, Idle, granted)
    else Late(Held(2, 0, Ddl, Confirmed), [Confirm(0, Ddl), Decline(1, Ddl)], 1, 1, full, Idle, granted)
  }

  lemma FormerGoes1(k: nat)
    requires k < 3
    ensures Goes(1, 3, FormerNode(k), FormerEvent(k), FormerNode(k + 1))
  {
    assert SameNode(Next(1, 3, FormerNode(k), FormerEvent(k)), FormerNode(k + 1));
  }

  lemma FormerGoes2(k: nat)
    requires 3 <= k < 5
    ensures Goes(1, 3, FormerNode(k), FormerEvent(k), FormerNode(k + 1))
  {
    assert SameNode(Next(1, 3, FormerNode(k), FormerEvent(k)), FormerNode(k + 1));
  }

  lemma FormerGoes(k: nat)
    requires k < 5
    ensures Goes(1, 3, FormerNode(k), FormerEvent(k), FormerNode(k + 1))
  {
    hide Goes;
    if k < 3 { FormerGoes1(k); }
    else { FormerGoes2(k); }
  }

  lemma LateGoes1(k: nat)
    requires k < 2
    ensures Goes(2, 3, LateNode(k), LateEvent(k), LateNode(k + 1))
  {
    assert SameNode(Next(2, 3, LateNode(k), LateEvent(k)), LateNode(k + 1));
  }

  lemma LateGoes2(k: nat)
    requires 2 <= k < 3
    ensures Goes(2, 3, LateNode(k), LateEvent(k), LateNode(k + 1))
  {
    assert SameNode(Next(2, 3, LateNode(k), LateEvent(k)), LateNode(k + 1));
  }

  lemma LateGoes(k: nat)
    requires k < 3
    ensures Goes(2, 3, LateNode(k), LateEvent(k), LateNode(k + 1))
  {
    hide Goes;
    if k < 2 { LateGoes1(k); }
    else { LateGoes2(k); }
  }

  /** The run, a few steps at a time. */
  lemma DeclineRun1() returns (tr: seq<Group>)
    ensures IsRun(tr) && tr[|tr| - 1] == [Asker0, FormerNode(3), LateNode(0)]
  {
    hide Goes, Next, Enabled;
    tr := [[Asker0, FormerNode(0), LateNode(0)]];
    FormerGoes(0);
    tr := MoveTo(tr, [Asker0, FormerNode(0), LateNode(0)], 1, FormerEvent(0), FormerNode(1));
    assert tr[|tr| - 1] == [Asker0, FormerNode(1), LateNode(0)];
    FormerGoes(1);
    tr := MoveTo(tr, [Asker0, FormerNode(1), LateNode(0)], 1, FormerEvent(1), FormerNode(2));
    assert tr[|tr| - 1] == [Asker0, FormerNode(2), LateNode(0)];
    FormerGoes(2);
    tr := MoveTo(tr, [Asker0, FormerNode(2), LateNode(0)], 1, FormerEvent(2), FormerNode(3));
    assert tr[|tr| - 1] == [Asker0, FormerNode(3), LateNode(0)];
  }

  lemma DeclineRun2() returns (tr: seq<Group>)
    ensures IsRun(tr) && tr[|tr| - 1] == [Asker1, FormerNode(5), LateNode(0)]
  {
    hide IsRun, Goes, Next, Enabled;
    tr := DeclineRun1();
    BeginGoes(0, 3, Asker0, Ddl);
    tr := MoveTo(tr, [Asker0, FormerNode(3), LateNode(0)], 0, BeginAttempt(Pid, Ddl), Asker1);
    assert tr[|tr| - 1] == [Asker1, FormerNode(3), LateNode(0)];
    FormerGoes(3);
    tr := MoveTo(tr, [Asker1, FormerNode(3), LateNode(0)], 1, FormerEvent(3), FormerNode(4));
    assert tr[|tr| - 1] == [Asker1, FormerNode(4), LateNode(0)];
    FormerGoes(4);
    tr := MoveTo(tr, [Asker1, FormerNode(4), LateNode(0)], 1, FormerEvent(4), FormerNode(5));
    assert tr[|tr| - 1] == [Asker1, FormerNode(5), LateNode(0)];
  }

  lemma DeclineRun3() returns (tr: seq<Group>)
    ensures IsRun(tr) && tr[|tr| - 1] == [Asker1, FormerNode(5), LateNode(3)]
  {
    hide IsRun, Goes, Next, Enabled;
    tr := DeclineRun2();
    LateGoes(0);
    tr := MoveTo(tr, [Asker1, FormerNode(5), LateNode(0)], 2, LateEvent(0), LateNode(1));
    assert tr[|tr| - 1] == [Asker1, FormerNode(5), LateNode(1)];
    LateGoes(1);
    tr := MoveTo(tr, [Asker1, FormerNode(5), LateNode(1)], 2, LateEvent(1), LateNode(2));
    assert tr[|tr| - 1] == [Asker1, FormerNode(5), LateNode(2)];
    LateGoes(2);
    tr := MoveTo(tr, [Asker1, FormerNode(5), LateNode(2)], 2, LateEvent(2), LateNode(3));
    assert tr[|tr| - 1] == [Asker1, FormerNode(5), LateNode(3)];
  }

  lemma DeclineRun4() returns (tr: seq<Group>)
    ensures IsRun(tr) && tr[|tr| - 1] == [Asker2, FormerNode(5), LateNode(3)]
  {
    hide IsRun;
    tr := DeclineRun3();
    var a := Logged(Asker1, 1, Decline(1, Ddl));
    tr := Replays(tr, [Asker1, FormerNode(5), LateNode(3)], 0, 1, Acquire(Ddl));
    assert tr[|tr| - 1] == [a, FormerNode(5), LateNode(3)];
    tr := Replays(tr, [a, FormerNode(5), LateNode(3)], 0, 1, Release(1));
    assert tr[|tr| - 1] == [Asker2, FormerNode(5), LateNode(3)];
  }

  lemma DeclineRun5() returns (tr: seq<Group>)
    ensures IsRun(tr) && tr[|tr| - 1] == [Asker3, FormerNode(5), LateNode(3)]
  {
    hide IsRun;
    tr := DeclineRun4();
    var a := Counted(Asker2, 1);
    tr := Counts(tr, [Asker2, FormerNode(5), LateNode(3)], 0, 1, Confirm(0, Ddl));
    assert tr[|tr| - 1] == [a, FormerNode(5), LateNode(3)];
    tr := Counts(tr, [a, FormerNode(5), LateNode(3)], 0, 2, Confirm(0, Ddl));
    assert tr[|tr| - 1] == [Counted(a, 2), FormerNode(5), LateNode(3)];
    tr := Passes(tr, [Counted(a, 2), FormerNode(5), LateNode(3)], 0);
    assert tr[|tr| - 1] == [Asker3, FormerNode(5), LateNode(3)];
  }

  /** The lock is acquired although a decline has been counted, one step after it was. */
  lemma DeclineIsWiped() returns (tr: seq<Group>)
    ensures IsRun(tr) && |tr| > 1 && |tr[|tr| - 1]| == 3 == |tr[|tr| - 2]|
    ensures tr[|tr| - 2][0].site.db.state.Tallying? && tr[|tr| - 2][0].site.db.declined > 0
    ensures tr[|tr| - 1][0].site.db.state.Acquired? && Open(tr[|tr| - 1][0])
  {
    var t := DeclineRun5();
    t := Counts(t, [Asker3, FormerNode(5), LateNode(3)], 0, 2, Decline(1, Ddl));
    assert t[|t| - 1] == [Asker4, FormerNode(5), LateNode(3)];
    tr := Takes(t, [Asker4, FormerNode(5), LateNode(3)], 0);
  }
}

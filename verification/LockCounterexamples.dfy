/** Runs that show why the conditions of the guarantees are needed. */
module LockCounterexamples {
  import opened Common
  import opened LockHandlers
  import opened LockProtocol
  import opened LockInvariant
  import opened LockSafety

  const Pid: nat := 7

  /** A running node; what is not given is as in an idle node. */
  function Make(db: LockDb, log: seq<Entry>, cur: seq<nat>, pend: seq<Pending>, table: map<NodeId, Row> := map[],
                worker: Worker := Idle, passed: bool := false, releasing: bool := false,
                writers: set<nat> := {}, hist: History := NoHistory): Node
  {
    Node(true, Site(db, table, log), cur, pend, worker, passed, releasing, writers, hist)
  }

  /** The record of a requesting node in a group of `others` + 1. */
  function Asking(others: nat, t: LockType, confirmed: int): LockDb {
    FreeDb.(nnodes := others, lockcount := 1, pid := Pid, ty := t, state := Tallying, confirmed := confirmed)
  }

  /** The record of a node held for `h`. */
  function Held(others: nat, h: NodeId, t: LockType, state: LockState): LockDb {
    FreeDb.(nnodes := others, lockcount := 1, holder := Some(h), ty := t, state := state)
  }

  /** Equal part by part. */
  ghost predicate SameNode(n: Node, n': Node) {
    && n.up == n'.up && n.site.db == n'.site.db && n.site.table == n'.site.table && n.site.log == n'.site.log
    && n.cur == n'.cur && n.pend == n'.pend && n.worker == n'.worker && n.passed == n'.passed
    && n.releasing == n'.releasing && n.writers == n'.writers && n.hist == n'.hist
  }

  /** The event takes the node from one state to the other. */
  ghost predicate Goes(me: NodeId, size: nat, n: Node, ev: Event, n': Node) {
    Enabled(me, n, ev) && Next(me, size, n, ev) == n'
  }

  lemma PeersAre()
    ensures Peers(1, 2) == {0} && Peers(1, 3) == {0, 2} && Peers(2, 3) == {0, 1}
  {
  }

  lemma ExtendRun(tr: seq<Group>, g: Group)
    requires IsRun(tr) && StepsTo(tr[|tr| - 1], g)
    ensures IsRun(tr + [g])
  {
    forall k | 0 <= k < |tr| ensures StepsAt(tr + [g], k) {
      if k < |tr| - 1 { assert StepsAt(tr, k); }
    }
  }

  /** The run goes on with a step of node `me`. */
  lemma MoveTo(tr: seq<Group>, g: Group, me: NodeId, ev: Event, n': Node) returns (tr': seq<Group>)
    requires IsRun(tr) && tr[|tr| - 1] == g && WellFormed(g) && me < |g|
    requires Goes(me, |g|, g[me], ev, n') && Available(g, me, ev) && (ev.BeginAttempt? ==> Drained(g, me, ev.ty))
    ensures IsRun(tr') && |tr'| == |tr| + 1 && tr'[|tr'| - 2] == g && tr'[|tr'| - 1] == g[me := n']
  {
    hide IsRun, Enabled, Next, Available, Drained;
    var g' := g[me := n'];
    assert Step(g, g', me, ev);
    ExtendRun(tr, g');
    tr' := tr + [g'];
  }

  // ---- confirmations of an abandoned attempt are counted in the next --------------------

  ghost predicate AnyStepsTo(g: Group, g': Group) {
    WellFormed(g) && exists i, ev :: AnyStep(g, g', i, ev)
  }

  ghost predicate AnyStepsAt(tr: seq<Group>, k: nat) {
    k + 1 < |tr| && AnyStepsTo(tr[k], tr[k + 1])
  }

  /** A run in which attempts may start at any time. */
  ghost predicate IsAnyRun(tr: seq<Group>) {
    |tr| > 0 && Init(tr[0]) && forall k :: 0 <= k < |tr| - 1 ==> AnyStepsAt(tr, k)
  }

  lemma ExtendAnyRun(tr: seq<Group>, g: Group)
    requires IsAnyRun(tr) && AnyStepsTo(tr[|tr| - 1], g)
    ensures IsAnyRun(tr + [g])
  {
    forall k | 0 <= k < |tr| ensures AnyStepsAt(tr + [g], k) {
      if k < |tr| - 1 { assert AnyStepsAt(tr, k); }
    }
  }

  /** What each of the two nodes does, in turn. */
  function StaleEvent(me: NodeId, k: nat): Event
    requires me < 2 && k < 11
  {
    var other := 1 - me;
    if k == 0 then BeginAttempt(Pid, Ddl)
    else if k == 1 then LogRelease
    else if k == 2 then ClearLocal
    else if k == 3 then Deliver(other, Acquire(Ddl))
    else if k == 4 then ConfirmDdl
    else if k == 5 then Deliver(other, Release(other))
    else if k == 6 then BeginAttempt(Pid, Ddl)
    else if k == 7 then Deliver(other, Confirm(me, Ddl))
    else if k == 8 then Count(other)
    else if k == 9 then TallyCheck
    else TallyDone
  }

  /** A node of the run that has replayed `seen` entries of the other node. */
  function Stale(me: NodeId, db: LockDb, log: seq<Entry>, seen: nat, pend: Pending := NoCount, table: map<NodeId, Row> := map[],
                 worker: Worker := Idle, passed: bool := false, releasing: bool := false, hist: History := NoHistory): Node
    requires me < 2
  {
    Make(db, log, if me == 0 then [0, seen] else [seen, 0], if me == 0 then [NoCount, pend] else [pend, NoCount],
         table, worker, passed, releasing, {}, hist)
  }

  function StaleNode(me: NodeId, k: nat): Node
    requires me < 2 && k <= 11
  {
    var other, free := 1 - me, FreeDb.(nnodes := 1);
    var l2 := [Acquire(Ddl), Release(me)];
    var l3 := l2 + [Confirm(other, Ddl)];
    var l4 := l3 + [Acquire(Ddl)];
    var granted := NoHistory.(grant := 2, grants := 1);
    var again := granted.(attempt := 3, acq := 3);
    if k == 0 then Stale(me, free, [], 0)
    else if k == 1 then Stale(me, Asking(1, Ddl, 0), [Acquire(Ddl)], 0)
    else if k == 2 then Stale(me, Asking(1, Ddl, 0), l2, 0, releasing := true)
    else if k == 3 then Stale(me, free, l2, 0)
    else if k == 4 then Stale(me, Held(1, other, Ddl, BeginCatchup), l2, 1, NoCount, map[other := Row(Ddl, RowCatchup)], WillConfirm, hist := granted)
    else if k == 5 then Stale(me, Held(1, other, Ddl, Confirmed), l3, 1, NoCount, map[other := Row(Ddl, RowAcquired)], hist := granted)
    else if k == 6 then Stale(me, free, l3, 2, hist := granted)
    else if k == 7 then Stale(me, Asking(1, Ddl, 0), l4, 2, hist := again)
    else if k == 8 then Stale(me, Asking(1, Ddl, 0), l4, 3, ConfirmChecked, hist := again)
    else if k == 9 then Stale(me, Asking(1, Ddl, 1), l4, 3, hist := again.(confirmedBy := {other}))
    else if k == 10 then Stale(me, Asking(1, Ddl, 1), l4, 3, passed := true, hist := again.(confirmedBy := {other}))
    else Stale(me, Asking(1, Ddl, 0).(state := Acquired), l4, 3, hist := again.(confirmedBy := {other}))
  }

  lemma StaleGoes1(me: NodeId, k: nat)
    requires me < 2 && k < 3
    ensures Goes(me, 2, StaleNode(me, k), StaleEvent(me, k), StaleNode(me, k + 1))
  {
    assert SameNode(Next(me, 2, StaleNode(me, k), StaleEvent(me, k)), StaleNode(me, k + 1));
  }

  lemma StaleGoes2(me: NodeId, k: nat)
    requires me < 2 && 3 <= k < 5
    ensures Goes(me, 2, StaleNode(me, k), StaleEvent(me, k), StaleNode(me, k + 1))
  {
    assert SameNode(Next(me, 2, StaleNode(me, k), StaleEvent(me, k)), StaleNode(me, k + 1));
  }

  lemma StaleGoes3(me: NodeId, k: nat)
    requires me < 2 && 5 <= k < 8
    ensures Goes(me, 2, StaleNode(me, k), StaleEvent(me, k), StaleNode(me, k + 1))
  {
    assert SameNode(Next(me, 2, StaleNode(me, k), StaleEvent(me, k)), StaleNode(me, k + 1));
  }

  lemma StaleGoes4(me: NodeId, k: nat)
    requires me < 2 && 8 <= k < 11
    ensures Goes(me, 2, StaleNode(me, k), StaleEvent(me, k), StaleNode(me, k + 1))
  {
    assert SameNode(Next(me, 2, StaleNode(me, k), StaleEvent(me, k)), StaleNode(me, k + 1));
  }

  lemma StaleGoes(me: NodeId, k: nat)
    requires me < 2 && k < 11
    ensures Goes(me, 2, StaleNode(me, k), StaleEvent(me, k), StaleNode(me, k + 1))
  {
    hide Goes;
    if k < 3 { StaleGoes1(me, k); }
    else if k < 5 { StaleGoes2(me, k); }
    else if k < 8 { StaleGoes3(me, k); }
    else { StaleGoes4(me, k); }
  }

  /** Node 0 has taken `j` of its steps and node 1 `k` of its own. */
  function StaleGroup(j: nat, k: nat): Group
    requires j <= 11 && k <= 11
  {
    [StaleNode(0, j), StaleNode(1, k)]
  }

  lemma StaleAvailable(me: NodeId, j: nat, k: nat)
    requires me < 2 && j <= 11 && k <= 11
    requires if me == 0 then j == k < 11 else j == k + 1
    ensures WellFormed(StaleGroup(j, k))
    ensures Available(StaleGroup(j, k), me, StaleEvent(me, k))
  {
  }

  lemma StaleStep(me: NodeId, j: nat, k: nat)
    requires me < 2 && j <= 11 && k <= 11
    requires if me == 0 then j == k < 11 else j == k + 1
    ensures AnyStepsTo(StaleGroup(j, k), if me == 0 then StaleGroup(j + 1, k) else StaleGroup(j, k + 1))
  {
    hide StaleNode, StaleEvent, Available, Next, Enabled;
    StaleAvailable(me, j, k);
    StaleGoes(me, k);
    var g := StaleGroup(j, k);
    var g' := if me == 0 then StaleGroup(j + 1, k) else StaleGroup(j, k + 1);
    assert g' == g[me := StaleNode(me, k + 1)];
    assert AnyStep(g, g', me, StaleEvent(me, k));
  }

  lemma {:induction false} StaleRun(k: nat) returns (tr: seq<Group>)
    requires k <= 11
    ensures IsAnyRun(tr) && tr[|tr| - 1] == StaleGroup(k, k)
  {
    hide AnyStepsTo;
    if k == 0 {
      tr := [StaleGroup(0, 0)];
    } else {
      tr := StaleRun(k - 1);
      StaleStep(0, k - 1, k - 1);
      ExtendAnyRun(tr, StaleGroup(k, k - 1));
      tr := tr + [StaleGroup(k, k - 1)];
      StaleStep(1, k, k - 1);
      ExtendAnyRun(tr, StaleGroup(k, k));
      tr := tr + [StaleGroup(k, k)];
    }
  }

  /** Without the condition two nodes hold the lock at once: each counts a confirmation
      the other sent for an attempt already given up. */
  lemma StaleConfirmsBreakExclusion() returns (tr: seq<Group>)
    ensures IsAnyRun(tr) && |tr[|tr| - 1]| == 2
    ensures tr[|tr| - 1][0].site.db.state.Acquired? && tr[|tr| - 1][1].site.db.state.Acquired?
  {
    hide IsAnyRun;
    tr := StaleRun(11);
  }
}

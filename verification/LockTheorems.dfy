/** What the lock protocol guarantees in every run, for groups of any size. */
module LockTheorems {
  import opened Common
  import opened LockHandlers
  import opened LockProtocol
  import opened LockInvariant
  import opened LockNodeProof
  import opened LockSafety

  // ---- mutual exclusion ------------------------------------------------------------

  /** The local lock of `n` is held for exactly node `i`, in mode `t`, confirmed. */
  ghost predicate HeldFor(n: Node, i: NodeId, t: LockType) {
    && n.site.table == map[i := Row(t, RowAcquired)]
    && (n.up ==> n.site.db.lockcount == 1 && n.site.db.holder == Some(i)
                 && n.site.db.ty == t && n.site.db.state.Confirmed? && n.site.db.pid == 0)
  }

  lemma CountedMeansHeld(i: NodeId, p: NodeId, size: nat, a: Node, b: Node)
    requires CoreOk(p, size, b) && i < size && p < |a.cur| && p < |a.pend| && LinkOk(i, p, a, b)
    requires Open(a) && p in a.hist.confirmedBy
    ensures HeldFor(b, i, a.site.db.ty)
  {
  }

  /** No two nodes hold the global lock, and while one does, every other node is
      locked for exactly that node, even across a crash of the other node. */
  lemma MutualExclusion(tr: seq<Group>, k: nat, i: NodeId, p: NodeId)
    requires IsRun(tr) && k < |tr| && i < |tr[k]| && p < |tr[k]| && i != p
    requires tr[k][i].site.db.state.Acquired?
    ensures !tr[k][p].site.db.state.Acquired?
    ensures !tr[k][i].releasing ==> HeldFor(tr[k][p], i, tr[k][i].site.db.ty)
  {
    RunInv(tr, k);
    var a, b := tr[k][i], tr[k][p];
    assert NodeOk(i, |tr[k]|, a) && NodeOk(p, |tr[k]|, b) && LinkOk(i, p, a, b) && Exclusive(a, b);
    if !a.releasing {
      assert p in a.hist.confirmedBy;
      CountedMeansHeld(i, p, |tr[k]|, a, b);
    }
  }

  // ---- what a backend that asks is told -----------------------------------------------

  /** In every run: a backend that is not waiting is told that it already holds the lock exactly
      when it does, in a mode at least as strong; it is refused exactly when the number of nodes
      is unknown, or the node is locked for a peer or another backend; and a request is logged
      exactly when the lock is free here or its own and weaker. */
  lemma AnswersAreExact(tr: seq<Group>, k: nat, i: NodeId, pid: nat, t: LockType)
    requires IsRun(tr) && k < |tr| && i < |tr[k]| && tr[k][i].up && pid != 0 && t != NoLock
    requires !(tr[k][i].site.db.state.Tallying? && tr[k][i].site.db.pid == pid)
    ensures var s := tr[k][i].site;
            && (AcquireDecision(s, pid, t) == AlreadyHeld <==>
                  s.db.state.Acquired? && s.db.pid == pid && Rank(s.db.ty) >= Rank(t))
            && (AcquireDecision(s, pid, t) == Refused <==>
                  s.table != map[] || (s.db.pid != 0 && s.db.pid != pid) || (s.db.pid == 0 && s.db.nnodes == -1))
            && (AcquireDecision(s, pid, t) == Requested <==>
                  s.table == map[] && ((s.db.pid == 0 && s.db.nnodes == |tr[k]| - 1)
                                       || (s.db.state.Acquired? && s.db.pid == pid && s.db.ty == Ddl && t == Write)))
  {
    RunInv(tr, k);
    assert NodeOk(i, |tr[k]|, tr[k][i]);
  }

  /** While one backend is told that it holds the lock, every other backend of the group that
      asks for it, in any mode, is refused. */
  lemma OneBackendIsTold(tr: seq<Group>, k: nat, i: NodeId, pid: nat, t: LockType, p: NodeId, pid': nat, t': LockType)
    requires IsRun(tr) && k < |tr| && i < |tr[k]| && p < |tr[k]| && tr[k][i].up && tr[k][p].up
    requires pid != 0 && pid' != 0 && t != NoLock && t' != NoLock && (i, pid) != (p, pid')
    requires !tr[k][i].site.db.state.Tallying? && !tr[k][i].releasing
    requires AcquireDecision(tr[k][i].site, pid, t) == AlreadyHeld
    ensures AcquireDecision(tr[k][p].site, pid', t') == Refused
  {
    AnswersAreExact(tr, k, i, pid, t);
    if p != i { MutualExclusion(tr, k, i, p); }
    AnswersAreExact(tr, k, p, pid', t');
  }

  /** In every run a running node admits a new writer exactly when it is not locked for a peer
      in write mode; a node that itself holds or requests the write lock goes on writing. */
  lemma WritersAdmittedExactly(tr: seq<Group>, k: nat, i: NodeId, xid: nat)
    requires IsRun(tr) && k < |tr| && i < |tr[k]| && tr[k][i].up && xid !in tr[k][i].writers
    ensures Enabled(i, tr[k][i], OpenWrite(xid)) <==> tr[k][i].site.table == map[] || tr[k][i].site.db.ty != Write
    ensures tr[k][i].site.db.pid != 0 ==> Enabled(i, tr[k][i], OpenWrite(xid))
  {
    RunInv(tr, k);
    assert NodeOk(i, |tr[k]|, tr[k][i]);
  }

  // ---- counters stand for sets ------------------------------------------------------

  /** While the tally is open the counter is the number of distinct peers whose
      confirmation of this very attempt arrived, and each of them is locked for the
      requester; so the counter reaches the node count exactly when all peers are in. */
  lemma ConfirmCounterIsExact(tr: seq<Group>, k: nat, i: NodeId)
    requires IsRun(tr) && k < |tr| && i < |tr[k]|
    requires tr[k][i].site.db.state.Tallying? && !tr[k][i].releasing
    ensures tr[k][i].site.db.confirmed == |tr[k][i].hist.confirmedBy|
    ensures tr[k][i].site.db.confirmed >= tr[k][i].site.db.nnodes
            <==> tr[k][i].hist.confirmedBy == Peers(i, |tr[k]|)
    ensures forall p :: p in tr[k][i].hist.confirmedBy ==>
              p < |tr[k]| && p != i && HeldFor(tr[k][p], i, tr[k][i].site.db.ty)
  {
    hide LinkOk, HeldFor, TableOk, UpgradesOnly, CleanOk, ReplayOk, LogOk, AttemptsEnd, AttemptLog, LsnsApart, LsnsOnce;
    RunInv(tr, k);
    var a := tr[k][i];
    assert NodeOk(i, |tr[k]|, a);
    if a.site.db.confirmed >= a.site.db.nnodes {
      FullSubset(a.hist.confirmedBy, Peers(i, |tr[k]|));
    }
    forall p | p in a.hist.confirmedBy
      ensures p < |tr[k]| && p != i && HeldFor(tr[k][p], i, a.site.db.ty)
    {
      assert p in Peers(i, |tr[k]|);
      assert LinkOk(i, p, a, tr[k][p]) && NodeOk(p, |tr[k]|, tr[k][p]);
      CountedMeansHeld(i, p, |tr[k]|, a, tr[k][p]);
    }
  }

  /** While replay confirmations are awaited, the counter is the number of distinct
      peers that answered this request, and each of them has replayed this node's log
      past the request. */
  lemma ReplayCounterIsExact(tr: seq<Group>, k: nat, i: NodeId)
    requires IsRun(tr) && k < |tr| && i < |tr[k]| && tr[k][i].site.db.lsn != 0
    ensures tr[k][i].site.db.replayed == |tr[k][i].hist.replayedBy|
    ensures tr[k][i].hist.replayedBy <= Peers(i, |tr[k]|)
    ensures tr[k][i].hist.req < |tr[k][i].site.log|
            && tr[k][i].site.log[tr[k][i].hist.req] == RequestReplay(tr[k][i].site.db.lsn)
    ensures forall p :: p in tr[k][i].hist.replayedBy ==>
              p < |tr[k]| && i < |tr[k][p].cur| && tr[k][i].hist.req < tr[k][p].cur[i]
  {
    RunInv(tr, k);
    var a := tr[k][i];
    assert NodeOk(i, |tr[k]|, a);
    forall p | p in a.hist.replayedBy
      ensures p < |tr[k]| && i < |tr[k][p].cur| && a.hist.req < tr[k][p].cur[i]
    {
      assert p in Peers(i, |tr[k]|);
      assert LinkOk(i, p, a, tr[k][p]);
    }
  }

  /** Answers are counted only while they are awaited. */
  predicate NoAnswersLeft(n: Node) { n.site.db.replayed != 0 ==> n.site.db.state.Catchup? }

  lemma NoneLeftByMessage(i: NodeId, size: nat, n: Node, from: NodeId, msg: Entry)
    requires NodeOk(i, size, n) && EventOk(i, size, n, Deliver(from, msg)) && NoAnswersLeft(n)
    ensures NoAnswersLeft(Receive(i, size, n, from, msg))
  {
    hide TableOk, UpgradesOnly, CleanOk, LogOk, AttemptsEnd, AttemptOk, ReplayOk;
  }

  lemma NoneLeftByStep(i: NodeId, size: nat, n: Node, ev: Event)
    requires NodeOk(i, size, n) && EventOk(i, size, n, ev) && NoAnswersLeft(n)
    ensures NoAnswersLeft(Next(i, size, n, ev))
  {
    hide UpgradesOnly, CleanOk, LogOk, AttemptsEnd, AttemptOk, ReplayOk, Receive;
    if ev.Deliver? { NoneLeftByMessage(i, size, n, ev.from, ev.msg); }
  }

  lemma NoneLeftInGroup(g: Group, g': Group, i: NodeId)
    requires Inv(g) && StepsTo(g, g') && i < |g| && NoAnswersLeft(g[i])
    ensures i < |g'| && NoAnswersLeft(g'[i])
  {
    hide NoAnswersLeft;
    var j, ev :| Step(g, g', j, ev);
    if j == i {
      NextEntryOk(g, i, ev);
      NoneLeftByStep(i, |g|, g[i], ev);
    }
  }

  /** In every run: whatever ends the wait for answers, a release, a restart or the confirmation,
      leaves none of them counted for the next request. */
  lemma {:induction false} AnswersAreForThisRequest(tr: seq<Group>, k: nat, i: NodeId)
    requires IsRun(tr) && k < |tr| && i < |tr[k]|
    ensures NoAnswersLeft(tr[k][i])
  {
    hide Inv, StepsTo;
    if k > 0 {
      RunInv(tr, k - 1);
      RunInv(tr, k);
      AnswersAreForThisRequest(tr, k - 1, i);
      assert StepsAt(tr, k - 1);
      NoneLeftInGroup(tr[k - 1], tr[k], i);
    }
  }

  /** Of the confirmations logged since the current hold was granted there is at most
      one, and the hold is marked acquired exactly when there is one. */
  lemma OneConfirmPerGrant(tr: seq<Group>, k: nat, p: NodeId, h: NodeId)
    requires IsRun(tr) && k < |tr| && p < |tr[k]| && h in tr[k][p].site.table
    ensures tr[k][p].hist.grant <= |tr[k][p].site.log|
    ensures tr[k][p].site.table[h].state.RowAcquired?
            <==> ConfirmLogged(tr[k][p].hist.grant, tr[k][p].site.log, h)
    ensures forall m, l :: tr[k][p].hist.grant <= m < l < |tr[k][p].site.log| && NamesHolder(tr[k][p].site.log[m], h)
              ==> !NamesHolder(tr[k][p].site.log[l], h)
  {
    RunInv(tr, k);
    assert GrantOk(tr[k][p]);
  }

  /** A CONFIRM is going to be counted exactly when it names this node and the mode that is
      requested or held here, a DECLINE exactly when it is about that mode, whoever it was
      meant for; and counting adds one to that counter alone. */
  lemma CountingIsExact(i: NodeId, size: nat, n: Node, from: NodeId)
    requires from < |n.pend| && from < |n.cur|
    ensures forall h, t :: Enabled(i, n, Deliver(from, Confirm(h, t))) ==>
              var n' := Next(i, size, n, Deliver(from, Confirm(h, t)));
              n'.site == n.site && n'.pend[from] == if h == i && n.site.db.ty == t then ConfirmChecked else NoCount
    ensures forall h, t :: Enabled(i, n, Deliver(from, Decline(h, t))) ==>
              var n' := Next(i, size, n, Deliver(from, Decline(h, t)));
              n'.site == n.site && n'.pend[from] == if n.site.db.ty == t then DeclineChecked else NoCount
    ensures Enabled(i, n, Count(from)) ==>
              var d, d' := n.site.db, Next(i, size, n, Count(from)).site.db;
              && d' == d.(confirmed := d'.confirmed, declined := d'.declined)
              && d'.confirmed == d.confirmed + (if n.pend[from].ConfirmChecked? then 1 else 0)
              && d'.declined == d.declined + (if n.pend[from].DeclineChecked? then 1 else 0)
  {
  }

  // ---- disk, memory and recovery -------------------------------------------------------

  /** The lock table has a row for a node exactly when the in-memory lock is held for
      it, and never more than one row. */
  lemma TableMatchesMemory(tr: seq<Group>, k: nat, i: NodeId, h: NodeId)
    requires IsRun(tr) && k < |tr| && i < |tr[k]| && tr[k][i].up
    ensures h in tr[k][i].site.table <==> tr[k][i].site.db.lockcount == 1 && tr[k][i].site.db.holder == Some(h)
    ensures h in tr[k][i].site.table ==> tr[k][i].site.table.Keys == {h}
  {
    RunInv(tr, k);
    assert NodeOk(i, |tr[k]|, tr[k][i]);
  }

  ghost predicate ConfirmLogged(grant: nat, log: seq<Entry>, h: NodeId) {
    exists m :: grant <= m < |log| && NamesHolder(log[m], h)
  }

  /** A crash, with the last confirmation on disk or lost, followed by startup. */
  ghost function CrashAndRecover(i: NodeId, size: nat, n: Node, lost: bool, lsn: nat): Node
    requires n.up && lsn != 0 && (lost ==> Enabled(i, n, CrashUnflushed))
  {
    Next(i, size, Next(i, size, n, if lost then CrashUnflushed else Crash), Recover(lsn))
  }

  ghost predicate HoldRebuilt(n: Node, r: Node) {
    && r.site.db.holder == n.site.db.holder
    && r.site.table.Keys == n.site.table.Keys
    && (n.site.db.holder.Some? ==>
          && n.site.db.holder.value in n.site.table
          && r.site.db.lockcount == 1
          && r.site.db.ty == n.site.table[n.site.db.holder.value].ty
          && Rank(r.site.db.ty) >= Rank(n.site.db.ty))
    && (n.site.db.holder.None? ==> r.site.db.lockcount == 0 && r.site.db.state.Unlocked?)
  }

  ghost predicate Rebuilt(n: Node, r: Node) {
    && HoldRebuilt(n, r)
    && (r.site.db.state.Confirmed? <==>
          n.site.db.holder.Some? && ConfirmLogged(n.hist.grant, r.site.log, n.site.db.holder.value))
  }

  lemma CrashedNode(i: NodeId, size: nat, n: Node, ev: Event)
    requires CoreOk(i, size, n) && GrantOk(n) && n.up && (ev.Crash? || ev.CrashUnflushed?) && Enabled(i, n, ev)
    ensures var c := Next(i, size, n, ev);
            CoreOk(i, size, c) && GrantOk(c) && !c.up && c.hist.grant == n.hist.grant && c.site.table.Keys == n.site.table.Keys
  {
    GrantKept(i, size, n, ev);
  }

  lemma RecoveredNode(i: NodeId, size: nat, c: Node, lsn: nat)
    requires CoreOk(i, size, c) && GrantOk(c) && !c.up && lsn != 0
    ensures var r := Next(i, size, c, Recover(lsn));
            r.site.table.Keys == c.site.table.Keys && GrantOk(r) && r.hist.grant == c.hist.grant
  {
    GrantKept(i, size, c, Recover(lsn));
  }

  lemma RecoverHold(i: NodeId, size: nat, n: Node, lost: bool, lsn: nat)
    requires CoreOk(i, size, n) && GrantOk(n) && n.up && lsn != 0
    requires lost ==> Enabled(i, n, CrashUnflushed)
    ensures HoldRebuilt(n, CrashAndRecover(i, size, n, lost, lsn))
  {
    var c := Next(i, size, n, if lost then CrashUnflushed else Crash);
    if n.site.db.holder.Some? {
      assert n.site.db.holder.value in c.site.table;
    }
  }

  /** A node comes back confirmed exactly when the row of its holder says so. */
  lemma ConfirmedByRow(i: NodeId, size: nat, c: Node, lsn: nat)
    requires CoreOk(i, size, c) && !c.up && lsn != 0
    ensures var r := Next(i, size, c, Recover(lsn));
            r.site.db.state.Confirmed? <==> r.site.db.holder.Some? && r.site.db.holder.value in r.site.table
                                            && r.site.table[r.site.db.holder.value].state.RowAcquired?
  {
  }

  lemma RowByLog(n: Node, h: NodeId)
    requires GrantOk(n) && h in n.site.table
    ensures n.site.table[h].state.RowAcquired? <==> ConfirmLogged(n.hist.grant, n.site.log, h)
  {
  }

  lemma RecoverNode(i: NodeId, size: nat, n: Node, lost: bool, lsn: nat)
    requires CoreOk(i, size, n) && GrantOk(n) && n.up && lsn != 0
    requires lost ==> Enabled(i, n, CrashUnflushed)
    ensures Rebuilt(n, CrashAndRecover(i, size, n, lost, lsn))
  {
    var ev := if lost then CrashUnflushed else Crash;
    var c := Next(i, size, n, ev);
    CrashedNode(i, size, n, ev);
    RecoveredNode(i, size, c, lsn);
    RecoverHold(i, size, n, lost, lsn);
    ConfirmedByRow(i, size, c, lsn);
    var r := CrashAndRecover(i, size, n, lost, lsn);
    RebuiltFromParts(n, r);
  }

  lemma RebuiltFromParts(n: Node, r: Node)
    requires HoldRebuilt(n, r) && GrantOk(r) && r.hist.grant == n.hist.grant
    requires r.site.db.state.Confirmed? <==> r.site.db.holder.Some? && r.site.db.holder.value in r.site.table
                                             && r.site.table[r.site.db.holder.value].state.RowAcquired?
    ensures Rebuilt(n, r)
  {
    if n.site.db.holder.Some? {
      assert n.site.db.holder.value in r.site.table.Keys;
      RowByLog(r, n.site.db.holder.value);
    }
  }

  /** Startup rebuilds the same holder in a mode at least as strong, comes back
      confirmed exactly when the confirmation of that grant is on disk, and holds
      nothing that was only being requested locally. */
  lemma RecoveryRebuildsHold(tr: seq<Group>, k: nat, i: NodeId, lost: bool, lsn: nat)
    requires IsRun(tr) && k < |tr| && i < |tr[k]| && tr[k][i].up && lsn != 0
    requires lost ==> Enabled(i, tr[k][i], CrashUnflushed)
    ensures Rebuilt(tr[k][i], CrashAndRecover(i, |tr[k]|, tr[k][i], lost, lsn))
  {
    RunInv(tr, k);
    assert NodeOk(i, |tr[k]|, tr[k][i]) && GrantOk(tr[k][i]);
    RecoverNode(i, |tr[k]|, tr[k][i], lost, lsn);
  }

  // ---- no orphan locks ------------------------------------------------------------------

  /** All nodes run, everything logged has been replayed and nobody asks for the lock. */
  ghost predicate Quiescent(g: Group)
    requires WellFormed(g)
  {
    && (forall i :: 0 <= i < |g| ==> g[i].up && g[i].site.db.pid == 0)
    && (forall i, j :: 0 <= i < |g| && 0 <= j < |g| && i != j ==> g[i].cur[j] == |g[j].site.log|)
  }

  /** A lock held for a node without an open attempt will be dropped: the node's
      release or restart is on its way to the holder. */
  lemma EveryHoldWillEnd(tr: seq<Group>, k: nat, i: NodeId, p: NodeId)
    requires IsRun(tr) && k < |tr| && i < |tr[k]| && p < |tr[k]|
    requires i in tr[k][p].site.table && tr[k][i].up
    ensures Open(tr[k][i]) || (i < |tr[k][p].cur| && EndsFrom(tr[k][i].site.log, tr[k][p].cur[i]))
  {
    RunInv(tr, k);
    assert NodeOk(p, |tr[k]|, tr[k][p]);
    assert LinkOk(i, p, tr[k][i], tr[k][p]);
  }

  /** When nothing is in flight and nobody asks, no node is locked. */
  lemma NothingLeftLocked(tr: seq<Group>, k: nat, p: NodeId)
    requires IsRun(tr) && k < |tr| && p < |tr[k]| && WellFormed(tr[k]) && Quiescent(tr[k])
    ensures tr[k][p].site.table == map[]
    ensures tr[k][p].site.db.lockcount == 0 && tr[k][p].site.db.state.Unlocked? && tr[k][p].site.db.holder.None?
  {
    RunInv(tr, k);
    assert NodeOk(p, |tr[k]|, tr[k][p]);
    if i :| i in tr[k][p].site.table {
      EveryHoldWillEnd(tr, k, i, p);
    }
  }

  // ---- the record of a running node ---------------------------------------------------------

  /** The shared-memory record of a running node always agrees with itself and with the lock
      table. */
  lemma RecordIsCoherent(tr: seq<Group>, k: nat, i: NodeId)
    requires IsRun(tr) && k < |tr| && i < |tr[k]| && tr[k][i].up
    ensures RecordOk(i, tr[k][i].site)
    ensures tr[k][i].site.db.nnodes == |tr[k]| - 1 || tr[k][i].site.db.nnodes == -1
  {
    RunInv(tr, k);
    assert NodeOk(i, |tr[k]|, tr[k][i]);
  }

  /** A peer asks a node that is locked for it only for more, and only once its first request
      is confirmed there. */
  lemma UpgradeFindsConfirmedHold(tr: seq<Group>, k: nat, p: NodeId, i: NodeId, t: LockType)
    requires IsRun(tr) && k < |tr| && WellFormed(tr[k]) && p < |tr[k]| && i in tr[k][p].site.table
    requires Enabled(p, tr[k][p], Deliver(i, Acquire(t))) && Available(tr[k], p, Deliver(i, Acquire(t)))
    ensures tr[k][p].site.table[i] == Row(Ddl, RowAcquired) && t == Write
  {
    RunInv(tr, k);
    NextEntryOk(tr[k], p, Deliver(i, Acquire(t)));
  }

  // ---- the assertions in the code ----------------------------------------------------------

  /** The assertions that guard the handlers hold at every state in which the handler
      can start. */
  ghost predicate AssertionsHold(i: NodeId, n: Node, ev: Event) {
    var d := n.site.db;
    match ev
    case BeginAttempt(_, _) => d.lockcount == 0 && d.state.Unlocked? && d.ty == NoLock && d.pid == 0
    case BeginUpgrade(_) => d.ty != NoLock && d.lockcount == 1
    case TallyDone => d.state.Tallying?
    case LogRelease => d.lockcount == 1 && !d.state.Unlocked?
    case ClearLocal => d.lockcount == 1 && !d.state.Unlocked? && d.pid != 0
    case AskReplay(_) => d.ty == Write && d.state.CancelXacts?
    case ConfirmDdl => d.state.BeginCatchup? && d.ty == Ddl
    case Deliver(from, msg) =>
      && (msg.Acquire? && GrantDecision(n.site, from, msg.ty) == Grant ==> d.state.Unlocked?)
      && (msg.Acquire? && GrantDecision(n.site, from, msg.ty) == Upgrade ==> from in n.site.table)
      && (msg.Release? && msg.node in n.site.table ==> d.ty != NoLock && IsPeerState(d.state) && d.lockcount > 0)
      && (msg.Start? && from in n.site.table ==> d.lockcount > 0 && !d.state.Unlocked?)
    case OpenWrite(_) =>
      d.state.Unlocked? || IsLocalState(d.state) || Rank(d.ty) < Rank(Write)
    case _ => true
  }

  lemma AssertionsNeverFail(tr: seq<Group>, k: nat, i: NodeId, ev: Event)
    requires IsRun(tr) && k < |tr| && WellFormed(tr[k]) && i < |tr[k]|
    requires Enabled(i, tr[k][i], ev) && Available(tr[k], i, ev)
    ensures AssertionsHold(i, tr[k][i], ev)
  {
    RunInv(tr, k);
    NextEntryOk(tr[k], i, ev);
    assert NodeOk(i, |tr[k]|, tr[k][i]);
  }
}

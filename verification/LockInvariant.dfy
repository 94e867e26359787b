/** What every reachable group satisfies: one invariant per node and one per
    ordered pair (requesting node, other node). */
module LockInvariant {
  import opened Common
  import opened LockHandlers
  import opened LockProtocol

  // ---- one node ----------------------------------------------------------------

  /** At most one row, never for the node itself. */
  ghost predicate TableOk(i: NodeId, size: nat, table: map<NodeId, Row>) {
    forall h :: h in table ==> h < size && h != i && table.Keys == {h} && table[h].ty != NoLock
  }

  /** Which state the worker can be in while this node is held for a peer. */
  ghost predicate PeerOk(st: LockState, ty: LockType, lsn: nat, w: Worker, r: Row) {
    && (st.BeginCatchup? <==> w.WillConfirm? || w.WillCancel?)
    && (w.Cancelling? || w.WillRaise? || w.WillRequest? ==> st.CancelXacts?)
    && (w.WillConfirm? ==> ty == Ddl && r.ty == Ddl)
    && (w.WillCancel? || w.Cancelling? ==> r.ty == Write && ty == (if w.upgrade then Ddl else Write))
    && (w.WillRaise? ==> r.ty == Write && ty == Ddl)
    && (w.WillRequest? ==> r.ty == Write && ty == Write)
    && Rank(ty) <= Rank(r.ty)
    && (st.Catchup? || st.Confirmed? ==> ty == r.ty)
    && (st.Confirmed? <==> r.state.RowAcquired?)
    && (lsn != 0 <==> st.Catchup?)
  }

  /** Shared memory, lock table and worker of a running node agree. */
  ghost predicate StateOk(i: NodeId, size: nat, n: Node) {
    var d := n.site.db;
    && (d.lockcount == 0 || d.lockcount == 1) && d.declined >= 0
    && (d.lockcount == 0 <==> d.ty == NoLock)
    && (d.lockcount == 0 <==> d.state.Unlocked?)
    && (d.pid != 0 <==> IsLocalState(d.state))
    && (d.holder.Some? <==> IsPeerState(d.state))
    && (d.holder.Some? ==> n.site.table.Keys == {d.holder.value} && PeerOk(d.state, d.ty, d.lsn, n.worker, n.site.table[d.holder.value]))
    && (d.holder.None? ==> n.site.table == map[] && n.worker.Idle? && d.lsn == 0)
    && (n.releasing ==> d.pid != 0)
    && (n.passed ==> d.state.Tallying? && !n.releasing)
    && (d.nnodes == size - 1 || (d.nnodes == -1 && d.pid == 0))
  }

  ghost predicate EndsFrom(log: seq<Entry>, from: nat) {
    exists m :: from <= m < |log| && IsEnd(log[m])
  }

  ghost predicate EntryOk(i: NodeId, e: Entry) {
    && (e.Acquire? ==> e.ty != NoLock)
    && (e.Release? ==> e.node == i)
    && (e.Confirm? ==> e.cty != NoLock)
    && (e.RequestReplay? ==> e.lsn != 0)
    && (e.ReplayConfirm? ==> e.rlsn != 0)
  }

  ghost predicate LogOk(i: NodeId, log: seq<Entry>) {
    forall k :: 0 <= k < |log| ==> EntryOk(i, log[k])
  }

  /** Every ACQUIRE belongs to the open attempt, if there is one, or is followed by a
      release or restart. */
  ghost predicate RequestsEnd(log: seq<Entry>, open: bool, attempt: nat) {
    forall k :: 0 <= k < |log| && log[k].Acquire? ==> (open && attempt <= k) || EndsFrom(log, k)
  }

  ghost predicate AttemptsEnd(n: Node) { n.up ==> RequestsEnd(n.site.log, Open(n), n.hist.attempt) }

  /** Two requests without an end between them are a DDL request and its upgrade. */
  ghost predicate UpgradesOnly(log: seq<Entry>) {
    forall k, l :: 0 <= k < l < |log| && log[k].Acquire? && log[l].Acquire? && NoEnd(log, k, l) ==>
      log[k] == Acquire(Ddl) && log[l] == Acquire(Write)
  }

  /** The requests of the open attempt: one, or a DDL request and its upgrade. */
  ghost predicate AttemptLog(log: seq<Entry>, attempt: nat, acq: nat, ty: LockType) {
    && attempt <= acq < |log| && log[attempt].Acquire? && log[acq] == Acquire(ty)
    && (attempt < acq ==> log[attempt] == Acquire(Ddl) && ty == Write)
    && (forall k :: attempt <= k < |log| ==> !IsEnd(log[k]))
    && (forall k :: attempt <= k < |log| && log[k].Acquire? ==> k == attempt || k == acq)
  }

  /** The open attempt and the confirmations counted for it. */
  ghost predicate AttemptOk(i: NodeId, size: nat, n: Node) {
    var d, h := n.site.db, n.hist;
    Open(n) ==>
      && AttemptLog(n.site.log, h.attempt, h.acq, d.ty)
      && h.confirmedBy <= Peers(i, size)
      && (d.state.Tallying? ==> d.confirmed == |h.confirmedBy|)
      && (d.state.Acquired? || n.passed ==> h.confirmedBy == Peers(i, size))
  }

  /** The awaited replay request and the answers counted for it. */
  ghost predicate ReplayOk(i: NodeId, size: nat, n: Node) {
    var d, h, log := n.site.db, n.hist, n.site.log;
    d.lsn != 0 ==>
      && h.req < |log| && log[h.req] == RequestReplay(d.lsn)
      && d.replayed == |h.replayedBy| && h.replayedBy <= Peers(i, size)
      && (d.nnodes == -1 ==> h.replayedBy == {})
  }

  ghost predicate NoChangeAfter(log: seq<Entry>, req: nat) {
    req < |log| && forall k :: req <= k < |log| ==> !log[k].Change?
  }

  ghost predicate WriteConfirmed(table: map<NodeId, Row>) {
    exists h :: h in table && table[h] == Row(Write, RowAcquired)
  }

  /** The node is held in write mode and its replay request is on record. */
  ghost predicate WriteRequested(n: Node) {
    if n.up then n.site.db.holder.Some? && n.site.db.ty == Write
                 && (n.site.db.state.Catchup? || n.site.db.state.Confirmed?)
    else WriteConfirmed(n.site.table)
  }

  /** A clean write hold has no writer and no change behind its replay request, and only an
      upgraded one can be other than clean. */
  ghost predicate CleanOk(n: Node) {
    && (n.hist.clean ==>
          && (n.up && n.worker.WillRequest? ==> n.writers == {})
          && (WriteRequested(n) ==> n.writers == {} && NoChangeAfter(n.site.log, n.hist.req)))
    && (n.worker.WillCancel? || n.worker.Cancelling? ==> (n.worker.upgrade <==> n.hist.base < n.hist.src))
    && (n.worker.WillRaise? ==> n.hist.base < n.hist.src)
    && (n.hist.base == n.hist.src && ((n.up && n.worker.WillRequest?) || WriteRequested(n)) ==> n.hist.clean)
  }

  /** The part of a node that is not history. */
  ghost predicate CoreOk(i: NodeId, size: nat, n: Node) {
    && i < size && |n.cur| == size && |n.pend| == size && n.pend[i].NoCount?
    && TableOk(i, size, n.site.table)
    && (if n.up then StateOk(i, size, n)
        else n.site.db == FreeDb && n.worker.Idle? && !n.passed && !n.releasing && n.writers == {}
             && forall j :: 0 <= j < size ==> n.pend[j].NoCount?)
  }

  ghost predicate NodeOk(i: NodeId, size: nat, n: Node) {
    && CoreOk(i, size, n)
    && LogOk(i, n.site.log)
    && AttemptsEnd(n) && UpgradesOnly(n.site.log)
    && AttemptOk(i, size, n)
    && ReplayOk(i, size, n)
    && CleanOk(n)
  }

  ghost predicate NamesHolder(e: Entry, h: NodeId) { e.Confirm? && e.holder == h }

  /** Since the hold was granted its confirmation was logged at most once, and the row
      is marked acquired exactly when it was. */
  ghost predicate GrantOk(n: Node) {
    var log, g := n.site.log, n.hist.grant;
    forall h :: h in n.site.table ==>
      && g <= |log|
      && (n.site.table[h].state.RowAcquired? <==> exists k :: g <= k < |log| && NamesHolder(log[k], h))
      && (forall k, l :: g <= k < l < |log| && NamesHolder(log[k], h) ==> !NamesHolder(log[l], h))
  }

  // ---- a requesting node `i` (state a) and another node `p` (state b) -----------

  predicate HoldsFully(b: Node, i: NodeId, t: LockType) {
    i in b.site.table && b.site.table[i] == Row(t, RowAcquired)
  }

  /** No confirmation naming `i` is in the rest of the log of `p` or about to be counted. */
  ghost predicate NoConfirmPending(i: NodeId, p: NodeId, a: Node, b: Node)
    requires p < |a.cur| && p < |a.pend|
  {
    && !a.pend[p].ConfirmChecked?
    && forall k :: a.cur[p] <= k < |b.site.log| ==> !NamesHolder(b.site.log[k], i)
  }

  /** A hold is for requests that `p` has replayed and seen no end of. */
  ghost predicate HoldOk(i: NodeId, a: Node, b: Node)
    requires i < |b.cur|
  {
    var log, h := a.site.log, b.hist;
    i in b.site.table ==>
      && h.base <= h.src < b.cur[i] <= |log|
      && log[h.base].Acquire? && log[h.src] == Acquire(b.site.table[i].ty)
      && NoEnd(log, h.base, b.cur[i])
  }

  /** Requests of `i` on their way to `p` are apart from each other, and one that upgrades
      finds a hold whose confirmation `i` has counted. */
  ghost predicate RequestOk(i: NodeId, p: NodeId, a: Node, b: Node)
    requires i < |b.cur| && p < |a.cur| && p < |a.pend|
  {
    var log := a.site.log;
    && (forall k, l :: b.cur[i] <= k < l < |log| && log[k].Acquire? && log[l].Acquire? ==> !NoEnd(log, k, l))
    && (forall k :: b.cur[i] <= k < |log| && log[k].Acquire? && NoEnd(log, b.cur[i], k) && i in b.site.table ==>
          HoldsFully(b, i, Ddl) && NoConfirmPending(i, p, a, b))
  }

  /** `p` is locked for the open request of `i`. */
  predicate Backed(i: NodeId, a: Node, b: Node)
    requires i < |b.cur|
  {
    HoldsFully(b, i, a.site.db.ty) && a.hist.attempt < b.cur[i]
  }

  /** A confirmation that would be counted is on its way: position `k` of the log of `p`. */
  predicate Matches(i: NodeId, a: Node, e: Entry) { e == Confirm(i, a.site.db.ty) }

  /** Every confirmation on its way or already counted is backed by a full hold,
      and each peer contributes at most one. */
  ghost predicate ConfirmOk(i: NodeId, p: NodeId, a: Node, b: Node)
    requires i < |b.cur| && p < |a.cur| && p < |a.pend|
  {
    var log := b.site.log;
    Open(a) ==>
      && (p in a.hist.confirmedBy ==> Backed(i, a, b) && NoConfirmPending(i, p, a, b))
      && (a.pend[p].ConfirmChecked? ==>
            && Backed(i, a, b) && p !in a.hist.confirmedBy
            && forall l :: a.cur[p] <= l < |log| ==> !NamesHolder(log[l], i))
      && (forall k :: a.cur[p] <= k < |log| && Matches(i, a, log[k]) ==>
            && Backed(i, a, b) && p !in a.hist.confirmedBy
            && forall l :: k < l < |log| ==> !NamesHolder(log[l], i))
      && (a.hist.attempt < a.hist.acq ==> a.hist.attempt < b.cur[i])
  }

  /** Until `p` has replayed the open request it cannot confirm an earlier one that could
      be taken for it. */
  ghost predicate StaleFree(i: NodeId, a: Node, b: Node)
    requires i < |b.cur|
  {
    Open(a) && b.cur[i] <= a.hist.attempt ==>
      !RowCanConfirm(i, a, b, a.site.db.ty) && !OldRequest(i, a, b, a.site.db.ty, a.hist.attempt)
  }

  /** A hold that is not for the open attempt has a release, or a restart, on the way. */
  ghost predicate NoOrphan(i: NodeId, a: Node, b: Node)
    requires i < |b.cur|
  {
    i in b.site.table && a.up && !(Open(a) && a.hist.attempt < b.cur[i]) ==> EndsFrom(a.site.log, b.cur[i])
  }

  // ---- a held node `i` waiting for replay (state a) and an answering node `p` ---

  ghost predicate AnswerOk(i: NodeId, p: NodeId, a: Node, b: Node)
    requires i < |b.cur| && p < |a.cur|
  {
    var log, want := b.site.log, ReplayConfirm(a.site.db.lsn);
    a.site.db.lsn != 0 ==>
      && (p in a.hist.replayedBy ==> a.hist.req < b.cur[i])
      && (forall k :: a.cur[p] <= k < |log| && log[k] == want ==>
            a.hist.req < b.cur[i] && p !in a.hist.replayedBy)
      && (forall k, l :: a.cur[p] <= k < l < |log| && log[k] == want ==> log[l] != want)
  }

  /** A request that everybody answered has been replayed by everybody. */
  ghost predicate FlushOk(i: NodeId, a: Node, b: Node)
    requires i < |b.cur|
  {
    a.hist.full ==> a.hist.req < b.cur[i]
  }

  /** Requests of the two nodes never name the same position. */
  ghost predicate LsnsApart(a: Node, b: Node) {
    forall k, l :: 0 <= k < |a.site.log| && 0 <= l < |b.site.log| && a.site.log[k].RequestReplay? ==>
      a.site.log[k] != b.site.log[l]
  }

  /** Requests of one node name different positions. */
  ghost predicate LsnsOnce(a: Node) {
    forall k, l :: 0 <= k < l < |a.site.log| && a.site.log[k].RequestReplay? ==>
      a.site.log[k] != a.site.log[l]
  }

  /** The two nodes do not both hold the global lock. */
  ghost predicate Exclusive(a: Node, b: Node) {
    !(a.site.db.state.Acquired? && b.site.db.state.Acquired?)
  }

  ghost predicate LinkOk(i: NodeId, p: NodeId, a: Node, b: Node)
    requires i < |b.cur| && p < |a.cur| && p < |a.pend|
  {
    && a.cur[p] <= |b.site.log| && b.cur[i] <= |a.site.log|
    && HoldOk(i, a, b)
    && RequestOk(i, p, a, b)
    && ConfirmOk(i, p, a, b)
    && StaleFree(i, a, b)
    && NoOrphan(i, a, b)
    && AnswerOk(i, p, a, b)
    && FlushOk(i, a, b)
  }

  ghost predicate Inv(g: Group) {
    && WellFormed(g)
    && (forall i :: 0 <= i < |g| ==> NodeOk(i, |g|, g[i]) && GrantOk(g[i]) && LsnsOnce(g[i]))
    && (forall i, p :: 0 <= i < |g| && 0 <= p < |g| && i != p ==>
          LinkOk(i, p, g[i], g[p]) && LsnsApart(g[i], g[p]) && Exclusive(g[i], g[p]))
  }
}

/** A directly requested write lock flushes the whole group. */
module LockFlush {
  import opened Common
  import opened LockHandlers
  import opened LockProtocol
  import opened LockInvariant
  import opened LockNodeProof
  import opened LockLinkProof
  import opened LockSafety

  /** Node `q` has replayed every row change in the log of node `p`. */
  ghost predicate AllReplayed(g: Group, p: NodeId, q: NodeId)
    requires WellFormed(g) && p < |g| && q < |g|
  {
    forall k :: 0 <= k < |g[p].site.log| && g[p].site.log[k].Change? ==> k < g[q].cur[p]
  }

  ghost predicate HoldsWriteLock(g: Group, i: NodeId) {
    i < |g| && g[i].site.db.state.Acquired? && g[i].site.db.ty == Write && !g[i].releasing
  }

  /** `p` has no open writer and starts none. */
  ghost predicate NoWriters(p: NodeId, n: Node) {
    n.writers == {} && forall x :: !Enabled(p, n, OpenWrite(x))
  }

  // ---- a peer held in write mode for the open request ---------------------------------------

  /** The hold is for the latest request of `i`, and for that alone if `i` did not upgrade. */
  lemma HeldForRequest(g: Group, i: NodeId, p: NodeId)
    requires Inv(g) && HoldsWriteLock(g, i) && p < |g| && p != i
    ensures HoldsFully(g[p], i, Write) && WriteRequested(g[p])
    ensures g[i].hist.acq < |g[i].site.log| && g[i].site.log[g[i].hist.acq] == Acquire(Write)
    ensures g[i].hist.acq < g[p].cur[i]
    ensures g[i].hist.attempt == g[i].hist.acq ==> g[p].hist.clean
  {
    hide TableOk, UpgradesOnly, ReplayOk, LogOk, AttemptsEnd, AttemptLog, LsnsApart, LsnsOnce, GrantOk, NoChangeAfter;
    var a, b := g[i], g[p];
    assert NodeOk(i, |g|, a) && NodeOk(p, |g|, b) && LinkOk(i, p, a, b);
    assert p in Peers(i, |g|);
    WriteHeld(i, p, |g|, a, b);
  }

  lemma WriteHeld(i: NodeId, p: NodeId, size: nat, a: Node, b: Node)
    requires NodeOk(i, size, a) && NodeOk(p, size, b) && LinkOk(i, p, a, b)
    requires Open(a) && p in a.hist.confirmedBy && a.site.db.ty == Write
    ensures HoldsFully(b, i, Write) && WriteRequested(b)
    ensures a.hist.acq < |a.site.log| && a.site.log[a.hist.acq] == Acquire(Write) && a.hist.acq < b.cur[i]
    ensures a.hist.attempt == a.hist.acq ==> b.hist.clean
  {
    hide UpgradesOnly, ReplayOk, LogOk, AttemptsEnd, LsnsOnce, NoChangeAfter;
    SrcOfOpen(i, p, size, a, b);
    assert WriteConfirmed(b.site.table);
  }

  lemma CleanMeansNoWriters(p: NodeId, size: nat, n: Node)
    requires CoreOk(p, size, n) && CleanOk(n) && WriteRequested(n) && n.hist.clean
    ensures NoWriters(p, n) && NoChangeAfter(n.site.log, n.hist.req)
  {
  }

  // ---- the quorum ---------------------------------------------------------------------------

  /** The number of answers to wait for is right. */
  predicate Known(n: Node, size: nat) { n.site.db.nnodes == size - 1 || size == 2 }

  lemma KnownQuorumIsFull(p: NodeId, size: nat, n: Node, from: NodeId, lsn: nat)
    requires CoreOk(p, size, n) && ReplayOk(p, size, n) && MayReceive(p, size, n, from, ReplayConfirm(lsn))
    requires ReachesQuorum(n.site, lsn) && Known(n, size)
    ensures n.hist.replayedBy + {from} == Peers(p, size)
  {
    AddPeer(n.hist.replayedBy, from, p, size);
    FullSubset(n.hist.replayedBy + {from}, Peers(p, size));
  }

  /** The step that confirms a write hold: everybody has answered if the number of nodes is
      known, or there is only one other node. */
  lemma ConfirmStep(p: NodeId, size: nat, n: Node, ev: Event, i: NodeId)
    requires CoreOk(p, size, n) && ReplayOk(p, size, n) && EventOk(p, size, n, ev)
    requires !HoldsFully(n, i, Write) && HoldsFully(Next(p, size, n, ev), i, Write)
    requires Known(n, size)
    ensures Next(p, size, n, ev).hist.full
  {
    hide Peers, ReplayOk;
    assert ev.Deliver? && ev.msg.ReplayConfirm? && ReachesQuorum(n.site, ev.msg.rlsn);
    KnownQuorumIsFull(p, size, n, ev.from, ev.msg.rlsn);
  }

  lemma FullStays(p: NodeId, size: nat, n: Node, ev: Event, i: NodeId)
    requires CoreOk(p, size, n) && EventOk(p, size, n, ev) && n.hist.full
    requires HoldsFully(n, i, Write) && HoldsFully(Next(p, size, n, ev), i, Write)
    ensures Next(p, size, n, ev).hist.full
  {
  }

  /** The hold that `p` has for `i` in group `k` of the run was confirmed in the step from
      group `m`. */
  ghost predicate ConfirmedAt(tr: seq<Group>, m: nat, k: nat, i: NodeId, p: NodeId)
    requires m < k < |tr|
  {
    && p < |tr[m]| && !HoldsFully(tr[m][p], i, Write)
    && forall j :: m < j <= k ==> p < |tr[j]| && HoldsFully(tr[j][p], i, Write)
  }

  lemma {:induction false} ConfirmedMeansFull(tr: seq<Group>, m: nat, k: nat, i: NodeId, p: NodeId)
    requires IsRun(tr) && m < k < |tr| && ConfirmedAt(tr, m, k, i, p)
    requires Known(tr[m][p], |tr[m]|)
    ensures p < |tr[k]| && tr[k][p].hist.full
  {
    hide Inv, CoreOk, StepsTo;
    RunInv(tr, k - 1);
    assert StepsAt(tr, k - 1);
    if k > m + 1 { ConfirmedMeansFull(tr, m, k - 1, i, p); }
    FullAfter(tr[k - 1], tr[k], i, p, k == m + 1);
  }

  lemma FullAfter(g: Group, g': Group, i: NodeId, p: NodeId, first: bool)
    requires Inv(g) && StepsTo(g, g') && p < |g| && p < |g'| && HoldsFully(g'[p], i, Write)
    requires if first then !HoldsFully(g[p], i, Write) && Known(g[p], |g|)
             else HoldsFully(g[p], i, Write) && g[p].hist.full
    ensures g'[p].hist.full
  {
    hide TableOk, StateOk, ReplayOk, UpgradesOnly, LogOk, AttemptsEnd, AttemptOk, LinkOk, LsnsApart, LsnsOnce, GrantOk;
    var j, ev :| Step(g, g', j, ev);
    if j == p {
      assert NodeOk(p, |g|, g[p]);
      NextEntryOk(g, p, ev);
      if first { ConfirmStep(p, |g|, g[p], ev, i); } else { FullStays(p, |g|, g[p], ev, i); }
    }
  }

  // ---- the flush ----------------------------------------------------------------------------

  /** A clean hold that everybody answered for is flushed to everybody. */
  lemma CleanHoldFlushes(g: Group, i: NodeId, p: NodeId, q: NodeId)
    requires Inv(g) && p < |g| && q < |g| && p != q
    requires WriteRequested(g[p]) && g[p].hist.clean && g[p].hist.full
    ensures AllReplayed(g, p, q)
  {
    hide TableOk, StateOk, UpgradesOnly, LogOk, AttemptsEnd, AttemptOk, LsnsApart, LsnsOnce, GrantOk;
    assert NodeOk(p, |g|, g[p]) && LinkOk(p, q, g[p], g[q]);
    CleanMeansNoWriters(p, |g|, g[p]);
  }

  /** Once a directly requested write lock is acquired, for every peer whose hold was
      confirmed knowing the number of nodes: every change of that peer has been replayed by
      every other node of the group; the peer has no open writer and lets none start; and
      every change the requester logged before its ACQUIRE has been replayed by the peer. */
  lemma WriteLockFlushes(tr: seq<Group>, m: nat, k: nat, i: NodeId, p: NodeId, q: NodeId)
    requires IsRun(tr) && m < k < |tr| && HoldsWriteLock(tr[k], i) && WellFormed(tr[k])
    requires tr[k][i].hist.attempt == tr[k][i].hist.acq
    requires p < |tr[k]| && q < |tr[k]| && p != i && p != q
    requires ConfirmedAt(tr, m, k, i, p) && Known(tr[m][p], |tr[m]|)
    ensures AllReplayed(tr[k], p, q)
    ensures NoWriters(p, tr[k][p])
    ensures tr[k][i].hist.acq < |tr[k][i].site.log| && tr[k][i].site.log[tr[k][i].hist.acq] == Acquire(Write)
    ensures tr[k][i].hist.acq < tr[k][p].cur[i]
  {
    hide Inv, AllReplayed, NoWriters, WriteRequested;
    RunInv(tr, k);
    ConfirmedMeansFull(tr, m, k, i, p);
    HeldForRequest(tr[k], i, p);
    CleanHoldFlushes(tr[k], i, p, q);
    DirectNoWriters(tr[k], i, p);
  }

  lemma DirectNoWriters(g: Group, i: NodeId, p: NodeId)
    requires Inv(g) && HoldsWriteLock(g, i) && g[i].hist.attempt == g[i].hist.acq && p < |g| && p != i
    ensures NoWriters(p, g[p])
  {
    hide LinkOk, LsnsApart, LsnsOnce, GrantOk, TableOk, StateOk, UpgradesOnly, LogOk, AttemptsEnd, AttemptOk;
    HeldForRequest(g, i, p);
    assert NodeOk(p, |g|, g[p]);
    CleanMeansNoWriters(p, |g|, g[p]);
  }

  /** The step that confirmed the hold can always be named. */
  lemma {:induction false} ConfirmationExists(tr: seq<Group>, k: nat, i: NodeId, p: NodeId) returns (m: nat)
    requires IsRun(tr) && k < |tr| && p < |tr[k]| && HoldsFully(tr[k][p], i, Write)
    ensures m < k && ConfirmedAt(tr, m, k, i, p)
  {
    RunInv(tr, k);
    if k > 0 { RunInv(tr, k - 1); }
    if k == 0 || !HoldsFully(tr[k - 1][p], i, Write) {
      m := k - 1;
    } else {
      m := ConfirmationExists(tr, k - 1, i, p);
    }
  }

  // ---- no peer writes while the lock is held --------------------------------------------

  function CountChanges(log: seq<Entry>): nat {
    if log == [] then 0
    else CountChanges(log[..|log| - 1]) + if log[|log| - 1].Change? then 1 else 0
  }

  lemma {:induction false} CountAppended(log: seq<Entry>, log': seq<Entry>)
    requires log <= log' && forall m :: |log| <= m < |log'| ==> !log'[m].Change?
    ensures CountChanges(log') == CountChanges(log)
  {
    if |log'| > |log| {
      CountAppended(log, log'[..|log'| - 1]);
    } else {
      assert log == log';
    }
  }

  lemma ChangesOnlyByCommit(i: NodeId, size: nat, n: Node, ev: Event)
    requires Enabled(i, n, ev) && !ev.CommitWrite?
    ensures CountChanges(Next(i, size, n, ev).site.log) == CountChanges(n.site.log)
  {
    var log, log' := n.site.log, Next(i, size, n, ev).site.log;
    if !ev.CrashUnflushed? { CountAppended(log, log'); }
  }

  lemma SameAttempt(i: NodeId, size: nat, n: Node, ev: Event)
    requires CoreOk(i, size, n) && EventOk(i, size, n, ev) && n.site.db.state.Acquired?
    requires Next(i, size, n, ev).site.db.state.Acquired?
    ensures Next(i, size, n, ev).hist.attempt == n.hist.attempt && Next(i, size, n, ev).hist.acq == n.hist.acq
  {
  }

  lemma NoPeerWriteStep(g: Group, g': Group, i: NodeId, p: NodeId)
    requires Inv(g) && StepsTo(g, g') && HoldsWriteLock(g, i) && g[i].hist.attempt == g[i].hist.acq && p < |g| && p != i
    ensures |g'| == |g| && CountChanges(g'[p].site.log) == CountChanges(g[p].site.log)
    ensures HoldsWriteLock(g', i) ==> g'[i].hist.attempt == g'[i].hist.acq
  {
    hide LinkOk, LsnsApart, LsnsOnce, GrantOk, TableOk, StateOk, UpgradesOnly, LogOk, AttemptsEnd, AttemptOk, CleanOk, ReplayOk;
    DirectNoWriters(g, i, p);
    var j: NodeId, ev: Event :| Step(g, g', j, ev);
    NextEntryOk(g, j, ev);
    assert NodeOk(j, |g|, g[j]);
    if j == p { ChangesOnlyByCommit(p, |g|, g[p], ev); }
    if j == i && HoldsWriteLock(g', i) { SameAttempt(i, |g|, g[i], ev); }
  }

  /** As long as a directly requested write lock stays held no peer adds a row change. */
  lemma {:induction false} NoPeerWritesWhileHeld(tr: seq<Group>, k: nat, m: nat, i: NodeId, p: NodeId)
    requires IsRun(tr) && k <= m < |tr| && p < |tr[k]| && p != i
    requires i < |tr[k]| && tr[k][i].hist.attempt == tr[k][i].hist.acq
    requires forall j :: k <= j < m ==> HoldsWriteLock(tr[j], i)
    ensures |tr[m]| == |tr[k]| && CountChanges(tr[m][p].site.log) == CountChanges(tr[k][p].site.log)
    ensures HoldsWriteLock(tr[m], i) ==> tr[m][i].hist.attempt == tr[m][i].hist.acq
  {
    hide Inv, StepsTo;
    if k < m {
      NoPeerWritesWhileHeld(tr, k, m - 1, i, p);
      RunInv(tr, m - 1);
      assert StepsAt(tr, m - 1);
      NoPeerWriteStep(tr[m - 1], tr[m], i, p);
    }
  }
}

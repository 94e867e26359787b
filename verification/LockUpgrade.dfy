/** Exactly when an upgraded write lock flushes a peer. */
module LockUpgrade {
  import opened Common
  import opened LockHandlers
  import opened LockProtocol
  import opened LockInvariant
  import opened LockNodeProof
  import opened LockSafety
  import opened LockFlush
  import opened LockPaths
  import opened LockProgress
  import opened LockDrained
  import opened LockQuorum

  /** Every other node has replayed every change of `p`. */
  ghost predicate FlushedFrom(g: Group, p: NodeId)
    requires WellFormed(g) && p < |g|
  {
    forall q :: 0 <= q < |g| && q != p ==> AllReplayed(g, p, q)
  }

  lemma RaisedNode(p: NodeId, size: nat, n: Node, i: NodeId, f: bool, r: bool)
    requires CoreOk(p, size, n) && Enabled(p, n, Raise) && n.site.db.holder == Some(i) && (f ==> Known(n, size))
    ensures var n' := Next(p, size, n, Raise);
            && n'.up && n'.worker.WillRequest? && n'.site.db.holder == Some(i) && n'.site.log == n.site.log
            && n'.site.db.nnodes == n.site.db.nnodes && n'.writers == n.writers
            && i in n'.site.table && n'.site.table[i] == Row(Write, RowCatchup)
            && Stage(n', size, n', i, n.writers == {}, f, r)
  {
  }

  lemma CleanKnownFlushes(g: Group, h: Group, p: NodeId, i: NodeId, r: bool)
    requires Inv(g) && p < |g| && Stage(g[p], |g|, g[p], i, true, true, r) && (r ==> |g| == 2)
    requires Leads(g, h) && ConfirmedSince(h, p, g[p], i, r)
    ensures WellFormed(h) && FlushedFrom(h, p)
  {
    hide LinkOk, LsnsApart, LsnsOnce, GrantOk, Exclusive, AllReplayed;
    StageLater(g, h, p, g[p], i, true, true, r);
    assert NodeOk(p, |h|, h[p]);
    ConfirmedIsRequested(p, |h|, h[p], i);
    forall q | 0 <= q < |h| && q != p ensures AllReplayed(h, p, q) {
      CleanHoldFlushes(h, i, p, q);
    }
  }

  lemma ConfirmedIsRequested(p: NodeId, size: nat, n: Node, i: NodeId)
    requires CoreOk(p, size, n) && HoldsFully(n, i, Write)
    ensures WriteRequested(n)
  {
    assert WriteConfirmed(n.site.table);
  }

  /** The hold is clean and `q` has replayed everything: then it stays so. */
  ghost predicate StaysReplayed(g: Group, p: NodeId, n0: Node, i: NodeId, q: NodeId, r: bool)
    requires WellFormed(g) && p < |g| && q < |g|
  {
    SameHold(g[p], n0, r) && i in g[p].site.table ==> AllReplayed(g, p, q)
  }

  lemma CleanHasNoWriters(p: NodeId, size: nat, n: Node, n0: Node, i: NodeId, r: bool)
    requires CoreOk(p, size, n) && CleanOk(n) && n.up && Stage(n, size, n0, i, true, false, r)
    requires SameHold(n, n0, r) && i in n.site.table
    ensures n.writers == {}
  {
    if n.site.table[i].state.RowAcquired? { ConfirmedIsRequested(p, size, n, i); }
  }

  /** Only a commit logs a change. */
  lemma ReceiveLogsNoChange(p: NodeId, size: nat, n: Node, from: NodeId, msg: Entry, k: nat)
    requires from < |n.cur| && from < |n.pend| && k < |Receive(p, size, n, from, msg).site.log|
    requires Receive(p, size, n, from, msg).site.log[k].Change?
    ensures k < |n.site.log| && n.site.log[k].Change?
  {
  }

  lemma LogsNoChange(p: NodeId, size: nat, n: Node, ev: Event, k: nat)
    requires Enabled(p, n, ev) && !ev.CommitWrite? && k < |Next(p, size, n, ev).site.log|
    requires Next(p, size, n, ev).site.log[k].Change?
    ensures k < |n.site.log| && n.site.log[k].Change?
  {
    hide Receive;
    if ev.Deliver? { ReceiveLogsNoChange(p, size, n, ev.from, ev.msg, k); }
  }

  lemma NoCommit(p: NodeId, size: nat, n: Node, ev: Event, n0: Node, i: NodeId, r: bool)
    requires CoreOk(p, size, n) && CleanOk(n) && EventOk(p, size, n, ev) && Stage(n, size, n0, i, true, false, r)
    requires SameHold(Next(p, size, n, ev), n0, r) && i in Next(p, size, n, ev).site.table
    ensures SameHold(n, n0, r) && i in n.site.table
    ensures forall k :: 0 <= k < |Next(p, size, n, ev).site.log| && Next(p, size, n, ev).site.log[k].Change? ==>
              k < |n.site.log| && n.site.log[k].Change?
  {
    hide CleanOk, CoreOk, MsgOk, Next;
    SameHoldBefore(p, size, n, ev, n0, i, r);
    if n.up { CleanHasNoWriters(p, size, n, n0, i, r); }
    forall k | 0 <= k < |Next(p, size, n, ev).site.log| && Next(p, size, n, ev).site.log[k].Change?
      ensures k < |n.site.log| && n.site.log[k].Change?
    {
      LogsNoChange(p, size, n, ev, k);
    }
  }

  lemma CursorsAdvance(q: NodeId, size: nat, n: Node, ev: Event, p: NodeId)
    requires Enabled(q, n, ev) && p < |n.cur|
    ensures n.cur[p] <= Next(q, size, n, ev).cur[p]
  {
  }

  lemma ReplayedStep(g: Group, h: Group, p: NodeId, n0: Node, i: NodeId, q: NodeId, r: bool)
    requires Inv(g) && StepsTo(g, h) && p < |g| && q < |g| && q != p && Stage(g[p], |g|, n0, i, true, false, r)
    requires StaysReplayed(g, p, n0, i, q, r)
    ensures WellFormed(h) && |h| == |g| && StaysReplayed(h, p, n0, i, q, r)
  {
    hide LinkOk, LsnsApart, LsnsOnce, GrantOk, Exclusive, UpgradesOnly, LogOk, AttemptsEnd, AttemptOk, TableOk, StateOk,
      ReplayOk, MsgOk, Stage, CleanOk;
    var j: NodeId, ev: Event :| Step(g, h, j, ev);
    NextEntryOk(g, j, ev);
    assert NodeOk(j, |g|, g[j]);
    if j == q {
      CursorsAdvance(j, |g|, g[j], ev, p);
    } else if j == p && SameHold(h[p], n0, r) && i in h[p].site.table {
      NoCommit(p, |g|, g[p], ev, n0, i, r);
    }
  }

  lemma {:induction false} ReplayedPath(tr: seq<Group>, k: nat, p: NodeId, n0: Node, i: NodeId, q: NodeId, r: bool)
    requires IsPath(tr) && Inv(tr[0]) && p < |tr[0]| && Stage(tr[0][p], |tr[0]|, n0, i, true, false, r) && k < |tr|
    requires WellFormed(tr[0]) && q < |tr[0]| && q != p && StaysReplayed(tr[0], p, n0, i, q, r)
    ensures WellFormed(tr[k]) && |tr[k]| == |tr[0]| && StaysReplayed(tr[k], p, n0, i, q, r)
  {
    hide Inv, StepsTo, Stage, StaysReplayed;
    if k > 0 {
      ReplayedPath(tr, k - 1, p, n0, i, q, r);
      StagePath(tr, k - 1, p, n0, i, true, false, r);
      assert StepsAt(tr, k - 1);
      ReplayedStep(tr[k - 1], tr[k], p, n0, i, q, r);
    }
  }

  lemma CleanReplayedStays(g: Group, h: Group, p: NodeId, i: NodeId, q: NodeId, r: bool)
    requires Inv(g) && WellFormed(g) && p < |g| && Stage(g[p], |g|, g[p], i, true, false, r)
    requires q < |g| && q != p && AllReplayed(g, p, q) && Leads(g, h) && ConfirmedSince(h, p, g[p], i, r)
    ensures WellFormed(h) && |h| == |g| && AllReplayed(h, p, q)
  {
    hide Inv, Stage, AllReplayed;
    var tr :| PathFrom(tr, g, h);
    ReplayedPath(tr, |tr| - 1, p, g[p], i, q, r);
  }

  lemma CleanFlushedStays(g: Group, h: Group, p: NodeId, i: NodeId, r: bool)
    requires Inv(g) && WellFormed(g) && p < |g| && Stage(g[p], |g|, g[p], i, true, false, r) && FlushedFrom(g, p)
    requires Leads(g, h) && ConfirmedSince(h, p, g[p], i, r)
    ensures WellFormed(h) && FlushedFrom(h, p)
  {
    hide Inv, Stage, AllReplayed, Leads;
    LeadsInv(g, h);
    CurSize(h, p);
    forall q | 0 <= q < |h| && q != p ensures AllReplayed(h, p, q) { CleanReplayedStays(g, h, p, i, q, r); }
  }

  // ---- continuations that are not flushed --------------------------------------------------------

  /** Node `q` answers the request of `p`: the requester as it is, another node after a restart. */
  lemma AnyAnswers(g: Group, q: NodeId, p: NodeId, i: NodeId) returns (h: Group)
    requires Inv(g) && q < |g| && p < |g| && q != p && i < |g| && i != p && |g[q].cur| == |g| == |g[p].cur|
    requires Requesting(i, g[i], g[i].site.db.ty, g[i].hist.attempt) && g[i].hist.attempt < g[p].cur[i]
    requires g[p].hist.req < |g[p].site.log| && g[p].site.log[g[p].hist.req].RequestReplay? && g[q].cur[p] <= g[p].hist.req
    ensures Frame({q}, g, h) && g[q].site.log < h[q].site.log && h[p] == g[p]
    ensures h[q].site.log[|h[q].site.log| - 1] == ReplayConfirm(g[p].site.log[g[p].hist.req].lsn)
    ensures Requesting(i, h[i], g[i].site.db.ty, g[i].hist.attempt)
    ensures q == i ==> NoEnd(h[i].site.log, g[p].cur[i], |h[i].site.log|)
  {
    hide Inv, By;
    if q == i {
      h := RequesterAnswers(g, i, p, g[i].site.db.ty, g[i].hist.attempt, g[p].hist.req);
      OpenHasNoEnd(h, i, g[p].cur[i]);
    } else {
      h := Answers(g, q, p, g[p].hist.req);
    }
  }

  lemma OpenHasNoEnd(g: Group, i: NodeId, from: nat)
    requires Inv(g) && i < |g| && Open(g[i]) && g[i].hist.attempt < from
    ensures NoEnd(g[i].site.log, from, |g[i].site.log|)
  {
    hide LinkOk, LsnsApart, LsnsOnce, GrantOk, Exclusive;
    assert NodeOk(i, |g|, g[i]);
  }

  /** One more answer reaches the waiting node. */
  lemma HearsOne(g: Group, q: NodeId, p: NodeId, i: NodeId, lsn: nat) returns (h: Group)
    requires Inv(g) && q < |g| && p < |g| && q != p && i < |g| && i != p && |g[q].cur| == |g| == |g[p].cur|
    requires Waiting(g[p], i, Write, lsn) && g[q].cur[p] <= g[p].hist.req
    requires Requesting(i, g[i], g[i].site.db.ty, g[i].hist.attempt) && g[i].hist.attempt < g[p].cur[i]
    ensures Leads(g, h) && Inv(h) && |h| == |g| && forall j :: 0 <= j < |g| && j != q && j != p ==> h[j] == g[j]
    ensures Requesting(i, h[i], g[i].site.db.ty, g[i].hist.attempt) && |h[p].cur| == |g| && g[p].cur[i] <= h[p].cur[i]
    ensures KeptAside(g[p], h[p]) && Heard(g[p], h[p], i, Write, lsn, q)
  {
    hide Inv, By, Leads, Requesting, Peers, NoEnd;
    ReplayFacts(g, p);
    Positions(g, p, q);
    var g1 := AnyAnswers(g, q, p, i);
    var k := |g1[q].site.log| - 1;
    if q == i { NoEndShorter(g1[i].site.log, g1[p].cur[i], k); }
    h := Hears(g1, p, i, Write, lsn, q, k);
    ByLeads({q}, g, g1);
    ByLeads({p}, g1, h);
    LeadsTrans(g, g1, h);
    CurSize(h, p);
  }

  /** The waiting node gets all the answers it waits for. */
  lemma {:induction false} HearsAll(g: Group, p: NodeId, i: NodeId, lsn: nat) returns (h: Group)
    requires Inv(g) && p < |g| && i < |g| && i != p && Waiting(g[p], i, Write, lsn) && g[p].hist.replayedBy != Peers(p, |g|)
    requires |g[p].cur| == |g| && Requesting(i, g[i], g[i].site.db.ty, g[i].hist.attempt) && g[i].hist.attempt < g[p].cur[i]
    requires forall q :: 0 <= q < |g| && q != p && q !in g[p].hist.replayedBy ==> p < |g[q].cur| && g[q].cur[p] <= g[p].hist.req
    ensures Leads(g, h) && Inv(h) && |h| == |g| && JustConfirmed(h[p], i, Write) && KeptAside(g[p], h[p])
    decreases |Peers(p, |g|) - g[p].hist.replayedBy|
  {
    hide Inv, Leads, Peers;
    ReplayFacts(g, p);
    var q := Unheard(p, |g|, g[p].hist.replayedBy);
    CurSize(g, q);
    h := HearsOne(g, q, p, i, lsn);
    if !JustConfirmed(h[p], i, Write) {
      var g2 := h;
      ReplayFacts(g2, p);
      NotAll(p, |g|, g2[p].hist.replayedBy, g2[p].site.db.nnodes);
      FewerLeft(Peers(p, |g|), g[p].hist.replayedBy, q);
      h := HearsAll(g2, p, i, lsn);
      LeadsTrans(g, g2, h);
    }
  }

  lemma FewerLeft(all: set<NodeId>, heard: set<NodeId>, q: NodeId)
    requires q in all && q !in heard
    ensures |all - (heard + {q})| < |all - heard|
  {
    assert all - heard == (all - (heard + {q})) + {q};
  }

  lemma NoEndShorter(log: seq<Entry>, lo: nat, hi: nat)
    requires hi <= |log|
    ensures NoEnd(log, lo, |log|) ==> NoEnd(log, lo, hi)
  {
  }

  lemma Unheard(p: NodeId, size: nat, heard: set<NodeId>) returns (q: NodeId)
    requires heard <= Peers(p, size) && heard != Peers(p, size)
    ensures q < size && q != p && q !in heard && q in Peers(p, size)
  {
    q :| q in Peers(p, size) && q !in heard;
  }

  lemma NotAll(p: NodeId, size: nat, heard: set<NodeId>, nnodes: int)
    requires p < size && |heard| < nnodes <= size - 1
    ensures heard != Peers(p, size)
  {
    assert |Peers(p, size)| == size - 1 by { assert p in AllNodes(size); }
  }

  /** A requester with no release or restart on its way is still waiting for `p`. */
  lemma StillRequesting(g: Group, i: NodeId, p: NodeId)
    requires Inv(g) && i < |g| && p < |g| && i != p && i in g[p].site.table && g[p].site.table[i].state.RowCatchup?
    requires g[i].up && |g[p].cur| == |g| && !EndsFrom(g[i].site.log, g[p].cur[i])
    ensures Requesting(i, g[i], g[i].site.db.ty, g[i].hist.attempt) && g[i].hist.attempt < g[p].cur[i]
  {
    hide LsnsApart, LsnsOnce, GrantOk, Exclusive, CleanOk, UpgradesOnly, LogOk, AttemptsEnd, TableOk, AttemptLog, ReplayOk;
    assert NodeOk(i, |g|, g[i]) && LinkOk(i, p, g[i], g[p]);
    assert p in Peers(i, |g|);
  }

  /** `p` makes its replay request, which nobody has replayed yet. */
  lemma Asks(g: Group, p: NodeId, i: NodeId) returns (h: Group, lsn: nat)
    requires Inv(g) && p < |g| && i < |g| && i != p && g[p].up && g[p].worker.WillRequest? && g[p].site.db.holder == Some(i)
    ensures Frame({p}, g, h) && Leads(g, h) && Waiting(h[p], i, Write, lsn) && h[p].hist.replayedBy == {} && SameHold(h[p], g[p], false)
    ensures |h[p].cur| == |g| && h[p].cur == g[p].cur && h[p].writers == g[p].writers && h[p].site.db.nnodes == g[p].site.db.nnodes
    ensures g[p].site.log <= h[p].site.log && h[p].hist.replayedBy != Peers(p, |g|)
    ensures forall q :: 0 <= q < |g| && q != p ==> |h[q].cur| == |g| && h[q].cur[p] <= h[p].hist.req
  {
    hide Inv, By, CoreOk, Stage, Leads;
    NodeFacts(g, p);
    lsn := Unasked(g);
    AskedNode(p, |g|, g[p], i, lsn);
    h := FrameStep(g, p, AskReplay(lsn));
    ByLeads({p}, g, h);
    forall q | 0 <= q < |g| && q != p ensures |h[q].cur| == |g| && h[q].cur[p] <= h[p].hist.req { Positions(g, q, p); }
    CurSize(h, p);
    assert i in Peers(p, |g|);
  }

  /** A writer open when the type was raised commits after the hold is confirmed. */
  lemma WriterSlipsThrough(g: Group, p: NodeId, i: NodeId) returns (h: Group)
    requires Inv(g) && p < |g| && i < |g| && i != p && g[p].up && g[p].worker.WillRequest? && g[p].site.db.holder == Some(i)
    requires |g[p].cur| == |g| && Requesting(i, g[i], g[i].site.db.ty, g[i].hist.attempt) && g[i].hist.attempt < g[p].cur[i]
    requires g[p].writers != {}
    ensures Leads(g, h) && WellFormed(h) && ConfirmedSince(h, p, g[p], i, false) && !FlushedFrom(h, p)
  {
    hide Inv, By, Leads, Requesting, Peers;
    var g1, lsn := Asks(g, p, i);
    var g2 := HearsAll(g1, p, i, lsn);
    LeadsTrans(g, g1, g2);
    var x: nat :| x in g2[p].writers;
    h := FrameStep(g2, p, CommitWrite(x));
    ByLeads({p}, g2, h);
    LeadsTrans(g, g2, h);
    Positions(g2, i, p);
    CurSize(h, i);
    assert h[p].site.log[|g2[p].site.log|] == Change;
    assert !AllReplayed(h, p, i);
  }

  /** With the number of nodes unknown one answer confirms, and another node is behind. */
  lemma AnotherIsBehind(g: Group, p: NodeId, i: NodeId, q: NodeId) returns (h: Group)
    requires Inv(g) && WellFormed(g) && p < |g| && i < |g| && i != p && g[p].up && g[p].worker.WillRequest?
    requires g[p].site.db.holder == Some(i) && g[p].site.db.nnodes == -1 && |g| > 2
    requires Requesting(i, g[i], g[i].site.db.ty, g[i].hist.attempt) && g[i].hist.attempt < g[p].cur[i]
    requires q < |g| && q != p && !AllReplayed(g, p, q)
    ensures Leads(g, h) && WellFormed(h) && ConfirmedSince(h, p, g[p], i, false) && !FlushedFrom(h, p)
  {
    hide Inv, By, Leads, Requesting, Peers;
    var r := Third(p, q, |g|);
    var g1, lsn := Asks(g, p, i);
    CurSize(g1, r);
    h := HearsOne(g1, r, p, i, lsn);
    LeadsTrans(g, g1, h);
    ReplayFacts(h, p);
    CurSize(h, q);
    var k :| 0 <= k < |g[p].site.log| && g[p].site.log[k].Change? && g[q].cur[p] <= k;
    assert h[p].site.log[k] == Change && h[q] == g[q];
    assert !AllReplayed(h, p, q);
  }

  /** As long as `p` does not restart, and its requester is waiting: an upgraded hold that `p`
      confirms is flushed in every such continuation if and only if, when the lock type is
      raised, no writer is open at `p` and either the number of nodes is known or everything
      is replayed already. */
  lemma RaiseWithoutRestart(g: Group, g': Group, p: NodeId, i: NodeId)
    requires Reachable(g) && WellFormed(g) && AnyStep(g, g', p, Raise) && g[p].site.db.holder == Some(i)
    requires i < |g| && g[i].up && !EndsFrom(g[i].site.log, g[p].cur[i])
    ensures (forall h :: Leads(g', h) && WellFormed(h) && ConfirmedSince(h, p, g'[p], i, false) ==> FlushedFrom(h, p))
            <==> g[p].writers == {} && (Known(g[p], |g|) || FlushedFrom(g, p))
  {
    hide Inv, NodeOk, Leads, HoldsFully, SameHold, Next, Stage, CoreOk, Requesting, EndsFrom, AllReplayed, Reachable;
    ReachableInv(g);
    NodeFacts(g, p);
    HolderIsPeer(g, p, i);
    RaisedNode(p, |g|, g[p], i, Known(g[p], |g|), false);
    RaisedFlush(g, g', p);
    StepKeepsInv(g, g', p, Raise);
    if g[p].writers == {} && Known(g[p], |g|) {
      forall h | Leads(g', h) && WellFormed(h) && ConfirmedSince(h, p, g'[p], i, false) ensures FlushedFrom(h, p) {
        CleanKnownFlushes(g', h, p, i, false);
      }
    } else if g[p].writers == {} && FlushedFrom(g, p) {
      forall h | Leads(g', h) && WellFormed(h) && ConfirmedSince(h, p, g'[p], i, false) ensures FlushedFrom(h, p) {
        CleanFlushedStays(g', h, p, i, false);
      }
    } else {
      RaisingRow(g, p, i);
      StillRequesting(g, i, p);
      if g[p].writers != {} {
        var h := WriterSlipsThrough(g', p, i);
      } else {
        var q :| 0 <= q < |g| && q != p && !AllReplayed(g', p, q);
        var h := AnotherIsBehind(g', p, i, q);
      }
    }
  }

  lemma RaisingRow(g: Group, p: NodeId, i: NodeId)
    requires Inv(g) && p < |g| && Enabled(p, g[p], Raise) && g[p].site.db.holder == Some(i) && i in g[p].site.table
    ensures g[p].site.table[i].state.RowCatchup?
  {
    hide LinkOk, LsnsApart, LsnsOnce, GrantOk, Exclusive;
    assert NodeOk(p, |g|, g[p]);
  }

  lemma RaisedFlush(g: Group, g': Group, p: NodeId)
    requires WellFormed(g) && AnyStep(g, g', p, Raise)
    ensures WellFormed(g') && |g'| == |g| && g'[p].cur == g[p].cur && (forall q :: 0 <= q < |g| && q != p ==> g'[q] == g[q])
    ensures forall q :: 0 <= q < |g| && q != p ==> (AllReplayed(g', p, q) <==> AllReplayed(g, p, q))
  {
  }
}

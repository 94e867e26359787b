/** Exactly when the replay quorum of a peer means that everybody has replayed its log. */
module LockQuorum {
  import opened Common
  import opened LockHandlers
  import opened LockProtocol
  import opened LockInvariant
  import opened LockNodeProof
  import opened LockSafety
  import opened LockFlush
  import opened LockPaths
  import opened LockProgress
  import opened LockDrained

  /** When an answer completes the quorum everybody has answered this request if and only if
      the number of nodes is known; otherwise nobody but the sender has. */
  lemma QuorumIsExact(tr: seq<Group>, k: nat, p: NodeId, from: NodeId, lsn: nat)
    requires IsRun(tr) && k < |tr| && WellFormed(tr[k]) && p < |tr[k]| && ReachesQuorum(tr[k][p].site, lsn)
    requires Enabled(p, tr[k][p], Deliver(from, ReplayConfirm(lsn))) && Available(tr[k], p, Deliver(from, ReplayConfirm(lsn)))
    ensures var answered := tr[k][p].hist.replayedBy + {from};
            && (answered == Peers(p, |tr[k]|) <==> Known(tr[k][p], |tr[k]|))
            && (!Known(tr[k][p], |tr[k]|) ==> answered == {from})
    ensures Known(tr[k][p], |tr[k]|) ==>
              forall q :: 0 <= q < |tr[k]| && q != p ==> tr[k][p].hist.req < tr[k][q].cur[p]
  {
    hide LinkOk, LsnsApart, LsnsOnce, GrantOk, Exclusive, CleanOk, UpgradesOnly, LogOk, AttemptsEnd, AttemptOk, TableOk, StateOk,
      ReplayOk, MsgOk;
    RunInv(tr, k);
    var g := tr[k];
    NextEntryOk(g, p, Deliver(from, ReplayConfirm(lsn)));
    assert NodeOk(p, |g|, g[p]) && NodeOk(from, |g|, g[from]);
    QuorumCount(g, p, from, lsn);
    if Known(g[p], |g|) {
      forall q | 0 <= q < |g| && q != p ensures g[p].hist.req < g[q].cur[p] {
        assert q in Peers(p, |g|);
        assert LinkOk(p, q, g[p], g[q]);
        PastRequest(p, q, g[p], g[q], from, lsn);
      }
    }
  }

  lemma PastRequest(p: NodeId, q: NodeId, a: Node, b: Node, from: NodeId, lsn: nat)
    requires p < |b.cur| && q < |a.cur| && q < |a.pend| && LinkOk(p, q, a, b) && a.site.db.lsn == lsn != 0
    requires q in a.hist.replayedBy || (q == from && a.cur[q] < |b.site.log| && b.site.log[a.cur[q]] == ReplayConfirm(lsn))
    ensures a.hist.req < b.cur[p]
  {
  }

  lemma QuorumCount(g: Group, p: NodeId, from: NodeId, lsn: nat)
    requires p < |g| && CoreOk(p, |g|, g[p]) && ReplayOk(p, |g|, g[p]) && ReachesQuorum(g[p].site, lsn)
    requires from < |g| && MayReceive(p, |g|, g[p], from, ReplayConfirm(lsn))
    ensures lsn != 0
    ensures var answered := g[p].hist.replayedBy + {from};
            && (answered == Peers(p, |g|) <==> Known(g[p], |g|))
            && (!Known(g[p], |g|) ==> answered == {from})
  {
    var answered := g[p].hist.replayedBy + {from};
    AddPeer(g[p].hist.replayedBy, from, p, |g|);
    if Known(g[p], |g|) {
      FullSubset(answered, Peers(p, |g|));
    } else {
      var r := Third(p, from, |g|);
      assert r in Peers(p, |g|) && r !in answered;
    }
  }

  // ---- the hold from here on -------------------------------------------------------------------

  /** The node has granted nothing since it was `n0` and, unless `r` allows it, not restarted. */
  predicate SameHold(n: Node, n0: Node, r: bool) {
    n.hist.grants == n0.hist.grants && (r || n.hist.boots == n0.hist.boots)
  }

  lemma ReceiveSameHold(p: NodeId, size: nat, n: Node, from: NodeId, msg: Entry, i: NodeId)
    requires CoreOk(p, size, n) && MayReceive(p, size, n, from, msg)
    ensures var n' := Receive(p, size, n, from, msg);
            n'.hist.boots == n.hist.boots && n'.hist.grants >= n.hist.grants
            && (n'.hist.grants == n.hist.grants && i in n'.site.table ==> i in n.site.table)
  {
  }

  lemma SameHoldBefore(p: NodeId, size: nat, n: Node, ev: Event, n0: Node, i: NodeId, r: bool)
    requires CoreOk(p, size, n) && EventOk(p, size, n, ev)
    requires n.hist.grants >= n0.hist.grants && n.hist.boots >= n0.hist.boots
    ensures var n' := Next(p, size, n, ev);
            n'.hist.grants >= n0.hist.grants && n'.hist.boots >= n0.hist.boots
            && (SameHold(n', n0, r) && i in n'.site.table ==> SameHold(n, n0, r) && i in n.site.table)
  {
    hide Receive, MsgOk;
    if ev.Deliver? { ReceiveSameHold(p, size, n, ev.from, ev.msg, i); }
  }

  /** The write hold for `i` of the node that was `n0`, on its way through replay request and
      quorum.  With `c` it is clean; with `f` the number of answers to wait for is right; with
      `r` the node may restart meanwhile. */
  ghost predicate Stage(n: Node, size: nat, n0: Node, i: NodeId, c: bool, f: bool, r: bool) {
    && n.hist.grants >= n0.hist.grants && n.hist.boots >= n0.hist.boots
    && (SameHold(n, n0, r) && i in n.site.table ==>
          var row := n.site.table[i];
          && row.ty == Write
          && (row.state.RowCatchup? && n.up ==> n.worker.WillRequest? || n.site.db.lsn != 0)
          && (c ==> n.hist.clean)
          && (f && row.state.RowAcquired? ==> n.hist.full)
          && (f && row.state.RowCatchup? && n.up ==> Known(n, size)))
  }

  lemma StageReceives(p: NodeId, size: nat, n: Node, from: NodeId, msg: Entry, n0: Node, i: NodeId, c: bool, f: bool, r: bool)
    requires CoreOk(p, size, n) && ReplayOk(p, size, n) && MayReceive(p, size, n, from, msg) && Stage(n, size, n0, i, c, f, r)
    ensures Stage(Receive(p, size, n, from, msg), size, n0, i, c, f, r)
  {
    hide Peers, ReplayOk, TableOk;
    if f && msg.ReplayConfirm? && ReachesQuorum(n.site, msg.rlsn) && Known(n, size) {
      KnownQuorumIsFull(p, size, n, from, msg.rlsn);
    }
  }

  predicate OfWorker(ev: Event) {
    ev.ConfirmDdl? || ev.CancelStart? || ev.CancelFail? || ev.CancelDone? || ev.Raise? || ev.AskReplay?
  }

  lemma StageWorker(p: NodeId, size: nat, n: Node, ev: Event, n0: Node, i: NodeId, c: bool, f: bool, r: bool)
    requires CoreOk(p, size, n) && Enabled(p, n, ev) && OfWorker(ev) && Stage(n, size, n0, i, c, f, r)
    ensures Stage(Next(p, size, n, ev), size, n0, i, c, f, r)
  {
  }

  lemma StageRestarts(p: NodeId, size: nat, n: Node, lsn: nat, n0: Node, i: NodeId, c: bool, f: bool, r: bool)
    requires CoreOk(p, size, n) && Enabled(p, n, Recover(lsn)) && Stage(n, size, n0, i, c, f, r) && (f && r ==> size == 2)
    ensures Stage(Next(p, size, n, Recover(lsn)), size, n0, i, c, f, r)
  {
  }

  lemma StageCrashes(p: NodeId, size: nat, n: Node, ev: Event, n0: Node, i: NodeId, c: bool, f: bool, r: bool)
    requires CoreOk(p, size, n) && Enabled(p, n, ev) && (ev.Crash? || ev.CrashUnflushed?) && Stage(n, size, n0, i, c, f, r)
    ensures Stage(Next(p, size, n, ev), size, n0, i, c, f, r)
  {
  }

  lemma StageKept(p: NodeId, size: nat, n: Node, ev: Event, n0: Node, i: NodeId, c: bool, f: bool, r: bool)
    requires CoreOk(p, size, n) && ReplayOk(p, size, n) && EventOk(p, size, n, ev) && Stage(n, size, n0, i, c, f, r)
    requires f && r ==> size == 2
    ensures Stage(Next(p, size, n, ev), size, n0, i, c, f, r)
  {
    hide Receive, Restart, MsgOk, ReplayOk, TableOk, Stopped;
    if ev.Deliver? { StageReceives(p, size, n, ev.from, ev.msg, n0, i, c, f, r); }
    else if ev.Recover? { StageRestarts(p, size, n, ev.rlsn, n0, i, c, f, r); }
    else if ev.Crash? || ev.CrashUnflushed? { StageCrashes(p, size, n, ev, n0, i, c, f, r); }
    else if OfWorker(ev) { StageWorker(p, size, n, ev, n0, i, c, f, r); }
  }

  lemma StageStep(g: Group, h: Group, p: NodeId, n0: Node, i: NodeId, c: bool, f: bool, r: bool)
    requires Inv(g) && StepsTo(g, h) && p < |g| && Stage(g[p], |g|, n0, i, c, f, r) && (f && r ==> |g| == 2)
    ensures |h| == |g| && Stage(h[p], |g|, n0, i, c, f, r)
  {
    hide LinkOk, LsnsApart, LsnsOnce, GrantOk, Exclusive, CleanOk, UpgradesOnly, LogOk, AttemptsEnd, AttemptOk, TableOk, StateOk,
      ReplayOk, MsgOk, Stage;
    var j: NodeId, ev: Event :| Step(g, h, j, ev);
    if j == p {
      NextEntryOk(g, p, ev);
      assert NodeOk(p, |g|, g[p]);
      StageKept(p, |g|, g[p], ev, n0, i, c, f, r);
    }
  }

  lemma {:induction false} StagePath(tr: seq<Group>, k: nat, p: NodeId, n0: Node, i: NodeId, c: bool, f: bool, r: bool)
    requires IsPath(tr) && Inv(tr[0]) && p < |tr[0]| && Stage(tr[0][p], |tr[0]|, n0, i, c, f, r) && k < |tr|
    requires f && r ==> |tr[0]| == 2
    ensures Inv(tr[k]) && |tr[k]| == |tr[0]| && Stage(tr[k][p], |tr[0]|, n0, i, c, f, r)
  {
    hide Inv, StepsTo, Stage;
    if k > 0 {
      StagePath(tr, k - 1, p, n0, i, c, f, r);
      assert StepsAt(tr, k - 1);
      StageStep(tr[k - 1], tr[k], p, n0, i, c, f, r);
      StepsKeepInv(tr[k - 1], tr[k]);
    }
  }

  lemma StageLater(g: Group, h: Group, p: NodeId, n0: Node, i: NodeId, c: bool, f: bool, r: bool)
    requires Inv(g) && Leads(g, h) && p < |g| && Stage(g[p], |g|, n0, i, c, f, r) && (f && r ==> |g| == 2)
    ensures Inv(h) && |h| == |g| && Stage(h[p], |g|, n0, i, c, f, r)
  {
    hide Inv, Stage;
    var tr :| PathFrom(tr, g, h);
    StagePath(tr, |tr| - 1, p, n0, i, c, f, r);
  }

  /** `p` has confirmed the write hold for `i` that it had as `n0`. */
  predicate ConfirmedSince(h: Group, p: NodeId, n0: Node, i: NodeId, r: bool) {
    p < |h| && HoldsFully(h[p], i, Write) && SameHold(h[p], n0, r)
  }

  // ---- the replay request -----------------------------------------------------------------------

  /** Every other node has replayed the log of `p` past position `req`. */
  ghost predicate AllPast(h: Group, p: NodeId, req: nat)
    requires WellFormed(h) && p < |h|
  {
    forall q :: 0 <= q < |h| && q != p ==> req < h[q].cur[p]
  }

  lemma AskedNode(p: NodeId, size: nat, n: Node, i: NodeId, lsn: nat)
    requires CoreOk(p, size, n) && Enabled(p, n, AskReplay(lsn)) && n.site.db.holder == Some(i)
    ensures var n' := Next(p, size, n, AskReplay(lsn));
            && Waiting(n', i, Write, lsn) && n'.hist.req == |n.site.log| && n'.site.log == n.site.log + [RequestReplay(lsn)]
            && n'.site.db.nnodes == n.site.db.nnodes && n'.hist.replayedBy == {} && SameHold(n', n, false) && n'.writers == n.writers
            && Stage(n', size, n', i, false, Known(n, size), false)
  {
  }

  lemma KnownMeansPast(g: Group, h: Group, p: NodeId, i: NodeId)
    requires Inv(g) && p < |g| && Stage(g[p], |g|, g[p], i, false, true, false) && Leads(g, h) && ConfirmedSince(h, p, g[p], i, false)
    requires h[p].hist.req == g[p].hist.req
    ensures WellFormed(h) && AllPast(h, p, g[p].hist.req)
  {
    hide NodeOk, LsnsApart, LsnsOnce, GrantOk, Exclusive;
    StageLater(g, h, p, g[p], i, false, true, false);
    forall q | 0 <= q < |h| && q != p ensures g[p].hist.req < h[q].cur[p] {
      assert LinkOk(p, q, h[p], h[q]);
    }
  }

  /** A third node answers; the requester has not replayed the request. */
  lemma UnknownMissesRequester(g: Group, p: NodeId, i: NodeId, lsn: nat) returns (h: Group)
    requires Inv(g) && p < |g| && i < |g| && i != p && |g| > 2 && Waiting(g[p], i, Write, lsn) && g[p].site.db.nnodes <= 1
    requires g[p].hist.req == |g[p].site.log| - 1 && g[p].site.log[g[p].hist.req] == RequestReplay(lsn)
    requires forall q :: 0 <= q < |g| && q != p ==> p < |g[q].cur| && g[q].cur[p] <= g[p].hist.req
    ensures Leads(g, h) && WellFormed(h) && |h| == |g| && ConfirmedSince(h, p, g[p], i, false) && !AllPast(h, p, g[p].hist.req)
    ensures h[p].hist.req == g[p].hist.req
  {
    hide Inv, By;
    var r := Third(i, p, |g|);
    CurSize(g, r);
    CurSize(g, p);
    Positions(g, p, r);
    var g1 := Answers(g, r, p, g[p].hist.req);
    h := HearsEnough(g1, p, i, Write, lsn, r, |g1[r].site.log| - 1);
    ByLeads({r}, g, g1);
    ByLeads({p}, g1, h);
    LeadsTrans(g, g1, h);
    CurSize(h, i);
    assert h[i] == g[i];
  }

  /** A confirmation given for a replay request means that everybody has replayed up to the
      request, in every continuation, if and only if the number of nodes is known when the
      request is made. */
  lemma RequestIsExact(g: Group, g': Group, p: NodeId, i: NodeId, lsn: nat)
    requires Reachable(g) && WellFormed(g) && AnyStep(g, g', p, AskReplay(lsn)) && g[p].site.db.holder == Some(i)
    ensures (forall h: Group :: Leads(g', h) && WellFormed(h) && ConfirmedSince(h, p, g'[p], i, false) && h[p].hist.req == g'[p].hist.req
                         ==> AllPast(h, p, g'[p].hist.req))
            <==> Known(g[p], |g|)
  {
    hide Inv, NodeOk, Leads, HoldsFully, Next, Stage, CoreOk, AllPast, Reachable;
    ReachableInv(g);
    NodeFacts(g, p);
    AskedNode(p, |g|, g[p], i, lsn);
    StepKeepsInv(g, g', p, AskReplay(lsn));
    HolderIsPeer(g, p, i);
    if Known(g[p], |g|) {
      forall h: Group | Leads(g', h) && WellFormed(h) && ConfirmedSince(h, p, g'[p], i, false) && h[p].hist.req == g'[p].hist.req
        ensures AllPast(h, p, g'[p].hist.req)
      {
        KnownMeansPast(g', h, p, i);
      }
    } else {
      forall q | 0 <= q < |g| && q != p ensures p < |g'[q].cur| && g'[q].cur[p] <= |g[p].site.log| { Positions(g, q, p); }
      var h := UnknownMissesRequester(g', p, i, lsn);
    }
  }

  lemma HolderIsPeer(g: Group, p: NodeId, i: NodeId)
    requires Inv(g) && p < |g| && g[p].site.db.holder == Some(i)
    ensures i < |g| && i != p && i in g[p].site.table && (Known(g[p], |g|) || (g[p].site.db.nnodes == -1 && |g| > 2))
  {
    hide LinkOk, LsnsApart, LsnsOnce, GrantOk, Exclusive;
    assert NodeOk(p, |g|, g[p]);
  }
}

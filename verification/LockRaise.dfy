/** Exactly when an upgraded write lock flushes a peer, whatever crashes and restarts
    follow. */
module LockRaise {
  import opened Common
  import opened LockHandlers
  import opened LockProtocol
  import opened LockInvariant
  import opened LockNodeProof
  import opened LockSafety
  import opened LockFlush
  import opened LockPaths
  import opened LockProgress
  import opened LockDrained
  import opened LockQuorum
  import opened LockUpgrade
  import opened LockGone

  // ---- a restarted peer takes one answer for all --------------------------------------------------

  /** The requester is waiting for `p`. */
  predicate WaitsFor(i: NodeId, a: Node, b: Node)
    requires i < |b.cur|
  {
    Requesting(i, a, a.site.db.ty, a.hist.attempt) && a.hist.attempt < b.cur[i]
  }

  /** `p` restarts with an unconfirmed hold, `r` answers its new request, and the answer is what
      `p` replays next: the requester answers as it is, another node after a restart. */
  lemma RestartAnswered(g: Group, p: NodeId, i: NodeId, t: LockType, r: NodeId) returns (h: Group, lsn: nat)
    requires Inv(g) && p < |g| && i < |g| && i != p && r < |g| && r != p && |g[p].cur| == |g|
    requires i in g[p].site.table && g[p].site.table[i] == Row(t, RowCatchup) && (r == i ==> WaitsFor(i, g[i], g[p]))
    ensures Leads(g, h) && Inv(h) && |h| == |g| && forall j :: 0 <= j < |g| && j != p && j != r ==> h[j] == g[j]
    ensures Waiting(h[p], i, t, lsn) && AnswerNext(h[p], h[r], r, lsn) && h[p].site.db.nnodes == -1
    ensures h[p].hist.replayedBy == {} && h[p].hist.grants == g[p].hist.grants && g[p].site.log <= h[p].site.log
  {
    hide Inv, By, Leads, NoEnd;
    Positions(g, r, p);
    var g1 := Restarts(g, p);
    lsn := g1[p].site.db.lsn;
    var k := g1[p].hist.req;
    var g2 := g1;
    CurSize(g1, r);
    if r == i {
      g2 := RequesterAnswers(g1, i, p, g[i].site.db.ty, g[i].hist.attempt, k);
      OpenHasNoEnd(g2, i, g[p].cur[i]);
      NoEndShorter(g2[i].site.log, g[p].cur[i], |g2[i].site.log| - 1);
    } else {
      g2 := Answers(g1, r, p, k);
    }
    Positions(g1, p, r);
    h := ReachesAnswer(g2, p, i, t, lsn, r, |g2[r].site.log| - 1);
    ByLeads({p}, g, g1);
    ByLeads({r}, g1, g2);
    ByLeads({p}, g2, h);
    LeadsTrans(g, g1, g2);
    LeadsTrans(g, g2, h);
  }

  /** That answer confirms the hold, and `q` is left behind. */
  lemma RestartLeaves(g: Group, p: NodeId, i: NodeId, q: NodeId, r: NodeId) returns (h: Group)
    requires Inv(g) && WellFormed(g) && p < |g| && i < |g| && i != p && r < |g| && r != p
    requires i in g[p].site.table && g[p].site.table[i] == Row(Write, RowCatchup) && (r == i ==> WaitsFor(i, g[i], g[p]))
    requires q < |g| && q != p && q != r && !AllReplayed(g, p, q)
    ensures Leads(g, h) && WellFormed(h) && ConfirmedSince(h, p, g[p], i, true) && !FlushedFrom(h, p)
  {
    hide Inv, By, Leads, WaitsFor;
    var g1, lsn := RestartAnswered(g, p, i, Write, r);
    h := WaitingStep(g1, p, i, Write, lsn, r);
    ByLeads({p}, g1, h);
    LeadsTrans(g, g1, h);
    ReplayFacts(h, p);
    CurSize(h, q);
    var k :| 0 <= k < |g[p].site.log| && g[p].site.log[k].Change? && g[q].cur[p] <= k;
    assert h[p].site.log[k] == Change && h[q] == g[q];
    assert !AllReplayed(h, p, q);
  }

  /** An open writer commits, `p` restarts, and the requester has not replayed the change. */
  lemma CommitThenRestart(g: Group, p: NodeId, i: NodeId) returns (h: Group)
    requires Inv(g) && WellFormed(g) && p < |g| && i < |g| && i != p && |g| > 2 && g[p].up && g[p].writers != {}
    requires i in g[p].site.table && g[p].site.table[i] == Row(Write, RowCatchup)
    ensures Leads(g, h) && WellFormed(h) && ConfirmedSince(h, p, g[p], i, true) && !FlushedFrom(h, p)
  {
    hide Inv, By, Leads, WaitsFor;
    var x: nat :| x in g[p].writers;
    var g1 := FrameStep(g, p, CommitWrite(x));
    ByLeads({p}, g, g1);
    Positions(g, i, p);
    CurSize(g1, i);
    assert g1[p].site.log[|g[p].site.log|] == Change;
    assert !AllReplayed(g1, p, i);
    var r := Third(i, p, |g|);
    h := RestartLeaves(g1, p, i, i, r);
    LeadsTrans(g, g1, h);
  }

  // ---- the requester has gone ------------------------------------------------------------------

  /** A hold confirmed without the requester was confirmed by everybody else, who have
      replayed up to the request. */
  ghost predicate HeardOthers(g: Group, p: NodeId, n0: Node, i: NodeId)
    requires WellFormed(g) && p < |g|
  {
    SameHold(g[p], n0, true) && i in g[p].site.table && g[p].site.table[i].state.RowAcquired? ==>
      |g| > 2 && forall q :: 0 <= q < |g| && q != p && q != i ==> g[p].hist.req < g[q].cur[p]
  }

  /** How a write hold gets confirmed, and what keeps its request on record. */
  lemma ConfirmedBy(p: NodeId, size: nat, n: Node, ev: Event, n0: Node, i: NodeId)
    requires CoreOk(p, size, n) && EventOk(p, size, n, ev) && Stage(n, size, n0, i, false, false, true)
    requires SameHold(n, n0, true) && i in n.site.table
    requires SameHold(Next(p, size, n, ev), n0, true) && HoldsFully(Next(p, size, n, ev), i, Write)
    ensures HoldsFully(n, i, Write) || (ev.Deliver? && ev.msg.ReplayConfirm? && ReachesQuorum(n.site, ev.msg.rlsn) && ev.msg.rlsn != 0)
    ensures Next(p, size, n, ev).hist.req == n.hist.req
  {
  }

  lemma OtherAnswered(p: NodeId, q: NodeId, a: Node, b: Node, lsn: nat)
    requires p < |b.cur| && q < |a.cur| && q < |a.pend| && LinkOk(p, q, a, b) && a.site.db.lsn == lsn != 0
    requires a.cur[q] < |b.site.log| && b.site.log[a.cur[q]] == ReplayConfirm(lsn)
    ensures a.hist.req < b.cur[p]
  {
  }

  lemma AnswerOfBlocked(i: NodeId, a: Node, b: Node, lsn: nat)
    requires i < |b.cur| && Blocked(i, a, b) && b.site.db.lsn == lsn != 0
    requires b.cur[i] < |a.site.log|
    ensures a.site.log[b.cur[i]] != ReplayConfirm(lsn)
  {
    if a.site.log[b.cur[i]] == ReplayConfirm(lsn) { assert AnswerAt(i, a, b, b.cur[i]); }
  }

  lemma HeardByOwn(g: Group, h: Group, p: NodeId, ev: Event, n0: Node, i: NodeId)
    requires Inv(g) && WellFormed(g) && AnyStep(g, h, p, ev) && i < |g| && i != p && |g| <= 3
    requires Stage(g[p], |g|, n0, i, false, false, true) && StaysBlocked(g, p, n0, i) && HeardOthers(g, p, n0, i)
    ensures WellFormed(h) && HeardOthers(h, p, n0, i)
  {
    hide LinkOk, LsnsApart, LsnsOnce, GrantOk, Exclusive, CleanOk, UpgradesOnly, LogOk, AttemptsEnd, AttemptOk, TableOk, StateOk,
      ReplayOk, MsgOk, Blocked, Next, Stage;
    NextEntryOk(g, p, ev);
    assert NodeOk(p, |g|, g[p]);
    StageCounts(g[p], |g|, n0, i);
    SameHoldBefore(p, |g|, g[p], ev, n0, i, true);
    if SameHold(h[p], n0, true) && i in h[p].site.table && h[p].site.table[i].state.RowAcquired? {
      StageKeptWrite(g, h, p, ev, n0, i);
      ConfirmedBy(p, |g|, g[p], ev, n0, i);
      if !HoldsFully(g[p], i, Write) {
        var from, lsn := ev.from, ev.msg.rlsn;
        if from == i { AnswerOfBlocked(i, g[i], g[p], lsn); }
        assert LinkOk(p, from, g[p], g[from]);
        OtherAnswered(p, from, g[p], g[from], lsn);
      }
    }
  }

  lemma StageWeaker(n: Node, size: nat, n0: Node, i: NodeId, c: bool, f: bool)
    requires Stage(n, size, n0, i, c, f, true)
    ensures Stage(n, size, n0, i, c, false, true) && Stage(n, size, n0, i, false, false, true)
  {
  }

  lemma StageCounts(n: Node, size: nat, n0: Node, i: NodeId)
    requires Stage(n, size, n0, i, false, false, true)
    ensures n.hist.grants >= n0.hist.grants && n.hist.boots >= n0.hist.boots
    ensures SameHold(n, n0, true) && i in n.site.table ==> n.site.table[i].ty == Write
  {
  }

  lemma StageKeptWrite(g: Group, h: Group, p: NodeId, ev: Event, n0: Node, i: NodeId)
    requires Inv(g) && WellFormed(g) && AnyStep(g, h, p, ev) && Stage(g[p], |g|, n0, i, false, false, true)
    ensures SameHold(h[p], n0, true) && i in h[p].site.table ==> h[p].site.table[i].ty == Write
  {
    hide LinkOk, LsnsApart, LsnsOnce, GrantOk, Exclusive, CleanOk, UpgradesOnly, LogOk, AttemptsEnd, AttemptOk, TableOk, StateOk,
      ReplayOk, MsgOk, Next, Stage;
    NextEntryOk(g, p, ev);
    assert NodeOk(p, |g|, g[p]);
    StageKept(p, |g|, g[p], ev, n0, i, false, false, true);
    StageCounts(h[p], |g|, n0, i);
  }

  lemma HeardStep(g: Group, h: Group, p: NodeId, n0: Node, i: NodeId)
    requires Inv(g) && StepsTo(g, h) && WellFormed(g) && p < |g| && i < |g| && i != p && |g| <= 3
    requires Stage(g[p], |g|, n0, i, false, false, true) && StaysBlocked(g, p, n0, i) && HeardOthers(g, p, n0, i)
    ensures WellFormed(h) && |h| == |g| && HeardOthers(h, p, n0, i)
  {
    hide NodeOk, LinkOk, LsnsApart, LsnsOnce, GrantOk, Exclusive, Blocked, Stage;
    var j: NodeId, ev: Event :| Step(g, h, j, ev);
    if j == p { HeardByOwn(g, h, p, ev, n0, i); } else { CursorsAdvance(j, |g|, g[j], ev, p); }
  }

  lemma {:induction false} HeardPath(tr: seq<Group>, k: nat, p: NodeId, n0: Node, i: NodeId)
    requires IsPath(tr) && Inv(tr[0]) && WellFormed(tr[0]) && p < |tr[0]| && i < |tr[0]| && i != p && |tr[0]| <= 3 && k < |tr|
    requires Stage(tr[0][p], |tr[0]|, n0, i, false, false, true) && StaysBlocked(tr[0], p, n0, i) && HeardOthers(tr[0], p, n0, i)
    ensures WellFormed(tr[k]) && |tr[k]| == |tr[0]| && HeardOthers(tr[k], p, n0, i)
  {
    hide Inv, StepsTo, Stage, StaysBlocked, HeardOthers;
    if k > 0 {
      HeardPath(tr, k - 1, p, n0, i);
      StagePath(tr, k - 1, p, n0, i, false, false, true);
      BlockedPath(tr, k - 1, p, n0, i);
      assert StepsAt(tr, k - 1);
      HeardStep(tr[k - 1], tr[k], p, n0, i);
    }
  }

  lemma HeardLater(g: Group, h: Group, p: NodeId, i: NodeId)
    requires Inv(g) && Leads(g, h) && WellFormed(g) && p < |g| && i < |g| && i != p && |g| <= 3
    requires Stage(g[p], |g|, g[p], i, false, false, true) && Blocked(i, g[i], g[p])
    requires i in g[p].site.table && g[p].site.table[i].state.RowCatchup?
    ensures WellFormed(h) && |h| == |g| && HeardOthers(h, p, g[p], i)
  {
    hide Inv, Stage, Blocked;
    var tr :| PathFrom(tr, g, h);
    HeardPath(tr, |tr| - 1, p, g[p], i);
  }

  /** The hold is clean and `q` has replayed the request: then it has replayed every change. */
  lemma PastRequestIsReplayed(g: Group, p: NodeId, i: NodeId, q: NodeId)
    requires Inv(g) && WellFormed(g) && p < |g| && q < |g| && q != p
    requires HoldsFully(g[p], i, Write) && g[p].hist.clean && g[p].hist.req < g[q].cur[p]
    ensures AllReplayed(g, p, q)
  {
    hide LinkOk, LsnsApart, LsnsOnce, GrantOk, Exclusive, UpgradesOnly, LogOk, AttemptsEnd, AttemptOk, ReplayOk;
    assert NodeOk(p, |g|, g[p]);
    ConfirmedIsRequested(p, |g|, g[p], i);
    CleanMeansNoWriters(p, |g|, g[p]);
  }

  /** With three nodes and the requester gone, only the third can have answered. */
  lemma GoneFlushes(g: Group, h: Group, p: NodeId, i: NodeId)
    requires Inv(g) && WellFormed(g) && p < |g| && i < |g| && i != p && |g| == 3
    requires Stage(g[p], |g|, g[p], i, true, false, true) && Blocked(i, g[i], g[p]) && AllReplayed(g, p, i)
    requires i in g[p].site.table && g[p].site.table[i].state.RowCatchup?
    requires Leads(g, h) && ConfirmedSince(h, p, g[p], i, true)
    ensures WellFormed(h) && FlushedFrom(h, p)
  {
    hide Inv, Leads, Blocked, AllReplayed;
    StageWeaker(g[p], |g|, g[p], i, true, false);
    HeardLater(g, h, p, i);
    StageLater(g, h, p, g[p], i, true, false, true);
    CleanReplayedStays(g, h, p, i, i, true);
    forall q | 0 <= q < |h| && q != p && q != i ensures AllReplayed(h, p, q) { PastRequestIsReplayed(h, p, i, q); }
  }

  // ---- the theorem --------------------------------------------------------------------------------

  /** What the group must be like when the type is raised.  With two nodes, no writer is open or
      the requester has gone and the hold is never confirmed.  With more, no writer is open and
      every change is replayed already, but for the one node, if there is no other, whose answer
      alone can confirm. */
  ghost predicate RaiseIsSafe(g: Group, p: NodeId, i: NodeId)
    requires WellFormed(g) && p < |g| && i < |g|
  {
    if |g| == 2 then g[p].writers == {} || Gone(i, g[i], g[p])
    else g[p].writers == {} && (FlushedFrom(g, p) || (|g| == 3 && Gone(i, g[i], g[p]) && AllReplayed(g, p, i)))
  }

  lemma NoAnswerYet(g: Group, i: NodeId, p: NodeId)
    requires WellFormed(g) && i < |g| && p < |g| && g[p].site.db.lsn == 0 && Gone(i, g[i], g[p])
    ensures Blocked(i, g[i], g[p])
  {
  }

  lemma SafeRaiseFlushes(g: Group, h: Group, p: NodeId, i: NodeId)
    requires Inv(g) && WellFormed(g) && p < |g| && i < |g| && i != p && RaiseIsSafe(g, p, i)
    requires Stage(g[p], |g|, g[p], i, g[p].writers == {}, |g| == 2, true) && g[p].site.db.lsn == 0
    requires i in g[p].site.table && g[p].site.table[i] == Row(Write, RowCatchup)
    requires Leads(g, h) && ConfirmedSince(h, p, g[p], i, true)
    ensures WellFormed(h) && FlushedFrom(h, p)
  {
    hide Inv, Leads, AllReplayed, Gone, Blocked, Stage;
    StageWeaker(g[p], |g|, g[p], i, g[p].writers == {}, |g| == 2);
    if g[p].writers == {} {
      if |g| == 2 { CleanKnownFlushes(g, h, p, i, true); }
      else if FlushedFrom(g, p) { CleanFlushedStays(g, h, p, i, true); }
      else {
        NoAnswerYet(g, i, p);
        GoneFlushes(g, h, p, i);
      }
    } else {
      NoAnswerYet(g, i, p);
      NeverConfirmed(g, h, p, i);
    }
  }

  /** With two nodes and the requester gone the hold is never confirmed. */
  lemma NeverConfirmed(g: Group, h: Group, p: NodeId, i: NodeId)
    requires Inv(g) && WellFormed(g) && p < |g| && i < |g| && i != p && |g| == 2 && Blocked(i, g[i], g[p])
    requires Stage(g[p], |g|, g[p], i, false, false, true)
    requires i in g[p].site.table && g[p].site.table[i].state.RowCatchup? && Leads(g, h)
    ensures !ConfirmedSince(h, p, g[p], i, true)
  {
    hide Inv, Leads, Blocked, Stage;
    HeardLater(g, h, p, i);
  }

  lemma Fourth(p: NodeId, q: NodeId, i: NodeId, size: nat) returns (r: NodeId)
    requires size > 3
    ensures r < size && r != p && r != q && r != i
  {
    r := if 0 != p && 0 != q && 0 != i then 0
         else if 1 != p && 1 != q && 1 != i then 1
         else if 2 != p && 2 != q && 2 != i then 2 else 3;
  }

  lemma UnsafeRaiseLeaves(g: Group, p: NodeId, i: NodeId) returns (h: Group)
    requires Inv(g) && WellFormed(g) && p < |g| && i < |g| && i != p && !RaiseIsSafe(g, p, i)
    requires g[p].up && g[p].worker.WillRequest? && g[p].site.db.holder == Some(i)
    requires i in g[p].site.table && g[p].site.table[i] == Row(Write, RowCatchup)
    ensures Leads(g, h) && WellFormed(h) && ConfirmedSince(h, p, g[p], i, true) && !FlushedFrom(h, p)
  {
    hide Inv, Leads, AllReplayed, EndsFrom, Requesting;
    if !Gone(i, g[i], g[p]) { StillRequesting(g, i, p); }
    if |g| == 2 {
      h := WriterSlipsThrough(g, p, i);
    } else if g[p].writers != {} {
      GroupIsLarger(g, p, i);
      h := CommitThenRestart(g, p, i);
    } else {
      GroupIsLarger(g, p, i);
      var q: NodeId :| q < |g| && q != p && !AllReplayed(g, p, q);
      var r: NodeId;
      if !Gone(i, g[i], g[p]) {
        r := Third(p, q, |g|);
      } else if |g| == 3 {
        q := i;
        r := Third(i, p, |g|);
      } else {
        r := Fourth(p, q, i, |g|);
      }
      h := RestartLeaves(g, p, i, q, r);
    }
  }

  lemma GroupIsLarger(g: Group, p: NodeId, i: NodeId)
    requires p < |g| && i < |g| && i != p && |g| != 2
    ensures |g| > 2
  {
  }

  lemma RaiseFacts(g: Group, g': Group, p: NodeId, i: NodeId)
    requires Inv(g) && WellFormed(g) && AnyStep(g, g', p, Raise) && g[p].site.db.holder == Some(i) && i < |g|
    ensures WellFormed(g') && |g'| == |g| && g'[p].site.db.lsn == 0 && (RaiseIsSafe(g', p, i) <==> RaiseIsSafe(g, p, i))
  {
    hide LinkOk, LsnsApart, LsnsOnce, GrantOk, Exclusive, AllReplayed, EndsFrom;
    assert NodeOk(p, |g|, g[p]);
    RaisedFlush(g, g', p);
    assert FlushedFrom(g', p) <==> FlushedFrom(g, p);
  }

  /** Whatever crashes and restarts follow: an upgraded hold that `p` confirms is flushed in
      every continuation if and only if the group is safe when the lock type is raised. */
  lemma RaiseIsExact(g: Group, g': Group, p: NodeId, i: NodeId)
    requires Reachable(g) && WellFormed(g) && AnyStep(g, g', p, Raise) && g[p].site.db.holder == Some(i) && i < |g|
    ensures (forall h :: Leads(g', h) && WellFormed(h) && ConfirmedSince(h, p, g'[p], i, true) ==> FlushedFrom(h, p))
            <==> RaiseIsSafe(g, p, i)
  {
    hide Inv, NodeOk, Leads, HoldsFully, SameHold, Next, Stage, CoreOk, Requesting, Gone, AllReplayed, Reachable, RaiseIsSafe;
    ReachableInv(g);
    NodeFacts(g, p);
    HolderIsPeer(g, p, i);
    RaisedNode(p, |g|, g[p], i, |g| == 2, true);
    RaiseFacts(g, g', p, i);
    StepKeepsInv(g, g', p, Raise);
    if RaiseIsSafe(g, p, i) {
      forall h | Leads(g', h) && WellFormed(h) && ConfirmedSince(h, p, g'[p], i, true) ensures FlushedFrom(h, p) {
        SafeRaiseFlushes(g', h, p, i);
      }
    } else {
      var h := UnsafeRaiseLeaves(g', p, i);
    }
  }
}

/** When a new attempt can mistake what is left of an earlier one for its own: exactly
    when some peer's old confirmation can still reach it. */
module LockDrained {
  import opened Common
  import opened LockHandlers
  import opened LockProtocol
  import opened LockInvariant
  import opened LockNodeProof
  import opened LockSafety
  import opened LockPaths
  import opened LockProgress

  // ---- the peer logs the confirmation of an old request -----------------------------------------

  /** A hold in catch-up, in a group of three and more: after a restart the answer of any
      third node confirms it. */
  lemma CatchupConfirms(g: Group, i: NodeId, p: NodeId, t: LockType) returns (h: Group)
    requires Inv(g) && i < |g| && p < |g| && i != p && |g| > 2
    requires i in g[p].site.table && g[p].site.table[i] == Row(t, RowCatchup)
    ensures Frame(Peers(i, |g|), g, h) && g[p].site.log < h[p].site.log
    ensures h[p].site.log[|h[p].site.log| - 1] == Confirm(i, t)
  {
    hide Inv, By, Peers;
    var r := Third(i, p, |g|);
    var g1 := Restarts(g, p);
    var lsn := g1[p].site.db.lsn;
    Positions(g, r, p);
    Positions(g, p, r);
    CurSize(g1, r);
    var g2 := Answers(g1, r, p, |g1[p].site.log| - 1);
    CurSize(g2, p);
    var g3 := HearsEnough(g2, p, i, t, lsn, r, |g2[r].site.log| - 1);
    h := g3;
    PeersOf(i, p, |g|);
    PeersOf(i, r, |g|);
    FrameMore({p}, Peers(i, |g|), g, g1);
    FrameMore({r}, Peers(i, |g|), g1, g2);
    FrameMore({p}, Peers(i, |g|), g2, g3);
    FrameTrans(Peers(i, |g|), g, g1, g2);
    FrameTrans(Peers(i, |g|), g, g2, g3);
  }

  lemma PeersOf(i: NodeId, p: NodeId, size: nat)
    requires p < size && p != i
    ensures {p} <= Peers(i, size) && i !in Peers(i, size)
  {
  }

  lemma Third(i: NodeId, p: NodeId, size: nat) returns (r: NodeId)
    requires size > 2
    ensures r < size && r != i && r != p
  {
    r := if 0 != i && 0 != p then 0 else if 1 != i && 1 != p then 1 else 2;
  }

  lemma Positions(g: Group, q: NodeId, p: NodeId)
    requires Inv(g) && q < |g| && p < |g| && q != p
    ensures |g[q].cur| == |g| && g[q].cur[p] <= |g[p].site.log|
  {
    hide NodeOk, LsnsApart, LsnsOnce, GrantOk, Exclusive;
    assert LinkOk(q, p, g[q], g[p]);
  }

  /** Whoever else `p` is held for can restart, and `p` drops the hold on replaying that. */
  lemma Frees(g: Group, i: NodeId, p: NodeId) returns (h: Group)
    requires Inv(g) && i < |g| && p < |g| && i != p
    ensures Frame(Peers(i, |g|), g, h) && h[p].site.table.Keys <= {i} && |h[p].cur| == |g| == |g[p].cur|
    ensures h[p].cur[i] == g[p].cur[i] && g[p].site.log <= h[p].site.log
  {
    hide Inv, By, Peers;
    CurSize(g, p);
    if g[p].site.table.Keys <= {i} {
      ByRefl(Peers(i, |g|), g);
      h := g;
    } else {
      var j: NodeId :| j in g[p].site.table && j != i;
      OneRow(g, p, j);
      Positions(g, p, j);
      var n := |g[j].site.log|;
      var g1 := Restarts(g, j);
      var g2 := ReplaysTo(g1, p, j, n);
      h := ReplaysOne(g2, p, j);
      assert g2[j].site.log[n] == Start;
      PeersOf(i, p, |g|);
      PeersOf(i, j, |g|);
      FrameMore({j}, Peers(i, |g|), g, g1);
      FrameMore({p}, Peers(i, |g|), g1, g2);
      FrameMore({p}, Peers(i, |g|), g2, h);
      FrameTrans(Peers(i, |g|), g, g1, g2);
      FrameTrans(Peers(i, |g|), g, g2, h);
      CurSize(h, p);
    }
  }

  lemma OneRow(g: Group, p: NodeId, j: NodeId)
    requires Inv(g) && p < |g| && j in g[p].site.table
    ensures j < |g| && j != p && g[p].site.table.Keys == {j}
  {
    hide LinkOk, LsnsApart, LsnsOnce, GrantOk, Exclusive;
    assert NodeOk(p, |g|, g[p]);
  }

  /** `p` replays a request of `i` that is still on its way and grants it. */
  lemma GrantsOld(g: Group, i: NodeId, p: NodeId, k: nat) returns (h: Group)
    requires Inv(g) && i < |g| && p < |g| && i != p && |g[p].cur| == |g|
    requires g[p].cur[i] <= k < |g[i].site.log| && g[i].site.log[k].Acquire?
    ensures var t := g[i].site.log[k].ty;
            && Frame(Peers(i, |g|), g, h) && i in h[p].site.table && h[p].site.table[i] == Row(t, RowCatchup)
            && (t == Ddl ==> h[p].up && h[p].worker.WillConfirm?) && g[p].site.log <= h[p].site.log
  {
    hide Inv, By, Peers;
    PeersOf(i, p, |g|);
    var g1 := Frees(g, i, p);
    var g2 := ReplaysTo(g1, p, i, k);
    h := ReplaysOne(g2, p, i);
    FrameMore({p}, Peers(i, |g|), g1, g2);
    FrameMore({p}, Peers(i, |g|), g2, h);
    FrameTrans(Peers(i, |g|), g, g1, g2);
    FrameTrans(Peers(i, |g|), g, g2, h);
  }

  /** The handler of `p` is about to confirm its hold for `i`. */
  lemma WorkerConfirms(g: Group, i: NodeId, p: NodeId, t: LockType) returns (h: Group)
    requires Inv(g) && i < |g| && p < |g| && i != p && g[p].up && g[p].worker.WillConfirm?
    requires i in g[p].site.table && g[p].site.table[i] == Row(t, RowCatchup)
    ensures Frame(Peers(i, |g|), g, h) && h[p].site.log == g[p].site.log + [Confirm(i, t)]
  {
    hide LinkOk, LsnsApart, LsnsOnce, GrantOk, Exclusive, By, CleanOk, ReplayOk, UpgradesOnly, LogOk, AttemptsEnd, AttemptOk, Peers;
    assert NodeOk(p, |g|, g[p]);
    h := FrameStep(g, p, ConfirmDdl);
    PeersOf(i, p, |g|);
    FrameMore({p}, Peers(i, |g|), g, h);
  }

  /** `p` confirms when the answer of `i` reaches it; there is no other node. */
  lemma AnswerConfirms(g: Group, i: NodeId, p: NodeId, t: LockType) returns (h: Group)
    requires Inv(g) && i < |g| && p < |g| && i != p && |g| == 2 == |g[p].cur|
    requires i in g[p].site.table && g[p].site.table[i] == Row(t, RowCatchup) && AnswerWaits(i, g[i], g[p])
    ensures Frame(Peers(i, |g|), g, h) && g[p].site.log < h[p].site.log
    ensures h[p].site.log[|h[p].site.log| - 1] == Confirm(i, t)
  {
    hide Inv, By, Peers;
    var lsn := g[p].site.db.lsn;
    var k :| AnswerAt(i, g[i], g[p], k);
    WaitingHere(g, i, p, t);
    h := HearsEnough(g, p, i, t, lsn, i, k);
    PeersOf(i, p, |g|);
    FrameMore({p}, Peers(i, |g|), g, h);
  }

  lemma WaitingHere(g: Group, i: NodeId, p: NodeId, t: LockType)
    requires Inv(g) && i < |g| && p < |g| && i != p && |g| == 2 && g[p].site.db.lsn != 0
    requires i in g[p].site.table && g[p].site.table[i] == Row(t, RowCatchup)
    ensures Waiting(g[p], i, t, g[p].site.db.lsn) && g[p].site.db.nnodes <= 1
  {
    hide LinkOk, LsnsApart, LsnsOnce, GrantOk, Exclusive;
    assert NodeOk(p, |g|, g[p]);
  }

  /** Whatever of an old request can still be confirmed, the peers can get it logged. */
  lemma LogsConfirm(g: Group, i: NodeId, p: NodeId, t: LockType) returns (h: Group)
    requires Inv(g) && i < |g| && p < |g| && i != p && |g[p].cur| == |g| && t != NoLock
    requires RowCanConfirm(i, g[i], g[p], t) || OldRequest(i, g[i], g[p], t, |g[i].site.log|)
    ensures Frame(Peers(i, |g|), g, h) && |g[p].site.log| < |h[p].site.log|
    ensures h[p].site.log[|h[p].site.log| - 1] == Confirm(i, t)
  {
    hide Inv, By, Peers, AnswerWaits;
    if RowCanConfirm(i, g[i], g[p], t) {
      if g[p].up && g[p].worker.WillConfirm? { h := WorkerConfirms(g, i, p, t); }
      else if |g| > 2 { h := CatchupConfirms(g, i, p, t); }
      else { h := AnswerConfirms(g, i, p, t); }
    } else {
      var k :| g[p].cur[i] <= k < |g[i].site.log| && g[i].site.log[k] == Acquire(t);
      var g1 := GrantsOld(g, i, p, k);
      if t == Ddl { h := WorkerConfirms(g1, i, p, t); } else { h := CatchupConfirms(g1, i, p, t); }
      FrameTrans(Peers(i, |g|), g, g1, h);
    }
  }

  // ---- the requester takes it for its own ---------------------------------------------------------

  /** The requester replays the log of `p` up to a confirmation of its type and counts one
      on the way. */
  lemma {:induction false} CountsFrom(g: Group, i: NodeId, p: NodeId, t: LockType, attempt: nat, k: nat)
    returns (h: Group)
    requires WellFormed(g) && i < |g| && p < |g| && i != p && Requesting(i, g[i], t, attempt) && LogOk(p, g[p].site.log)
    requires g[i].pend[p].ConfirmChecked?
             || (g[i].cur[p] <= k < |g[p].site.log| && g[p].site.log[k] == Confirm(i, t))
    ensures By({i}, g, h) && |h| == |g| && h[p] == g[p] && Requesting(i, h[i], t, attempt) && p in h[i].hist.confirmedBy
    decreases if g[i].pend[p].ConfirmChecked? then 0 else 1, |g[p].site.log| - g[i].cur[p], !g[i].pend[p].NoCount?
  {
    hide By, Receive, CountPending, LogOk;
    var n := g[i];
    if !n.pend[p].NoCount? {
      RequestingCounts(i, n, t, attempt, p);
      var g1 := g[i := Next(i, |g|, n, Count(p))];
      ByStep(g, g1, i, Count(p));
      if n.pend[p].ConfirmChecked? {
        h := g1;
      } else {
        h := CountsFrom(g1, i, p, t, attempt, k);
        ByTrans({i}, g, g1, h);
      }
    } else {
      var msg := g[p].site.log[n.cur[p]];
      var ev := Deliver(p, msg);
      assert EntryOk(p, msg) by { EntriesOk(p, g[p].site.log, n.cur[p]); }
      RequestingReceives(i, |g|, n, t, attempt, p, msg);
      var g1 := g[i := Next(i, |g|, n, ev)];
      ByStep(g, g1, i, ev);
      h := CountsFrom(g1, i, p, t, attempt, k);
      ByTrans({i}, g, g1, h);
    }
  }

  /** The open attempt of `i`, begun at log position `attempt`, has counted a confirmation of
      `p`, which is not locked for that attempt. */
  ghost predicate Miscounted(g: Group, i: NodeId, p: NodeId, attempt: nat) {
    && i < |g| && p < |g| && p != i && i < |g[p].cur|
    && Open(g[i]) && g[i].hist.attempt == attempt && p in g[i].hist.confirmedBy
    && !Backed(i, g[i], g[p])
  }

  /** Some continuation miscounts a confirmation in the attempt. */
  ghost predicate CanMiscount(g: Group, i: NodeId, attempt: nat) {
    exists h, p :: Leads(g, h) && Miscounted(h, i, p, attempt)
  }

  lemma BegunRequest(i: NodeId, size: nat, n: Node, pid: nat, t: LockType)
    requires CoreOk(i, size, n) && Enabled(i, n, BeginAttempt(pid, t))
    ensures var n' := Next(i, size, n, BeginAttempt(pid, t));
            && Requesting(i, n', t, |n.site.log|) && Behind(n, n') && n'.pend == n.pend && n'.hist.confirmedBy == {}
            && n'.site.log == n.site.log + [Acquire(t)]
  {
  }

  /** A confirmation in the log of `p` becomes one of an attempt that `p` knows nothing of. */
  lemma MiscountsFrom(g: Group, i: NodeId, p: NodeId, t: LockType, attempt: nat, k: nat)
    requires WellFormed(g) && i < |g| && p < |g| && i != p && Requesting(i, g[i], t, attempt) && LogOk(p, g[p].site.log)
    requires g[i].pend[p].ConfirmChecked?
             || (g[i].cur[p] <= k < |g[p].site.log| && g[p].site.log[k] == Confirm(i, t))
    requires g[p].cur[i] <= attempt
    ensures CanMiscount(g, i, attempt)
  {
    hide By, LogOk;
    var h := CountsFrom(g, i, p, t, attempt, k);
    ByLeads({i}, g, h);
    assert Miscounted(h, i, p, attempt);
  }

  lemma NotDrainedMiscounts(g: Group, g': Group, i: NodeId, p: NodeId, pid: nat, t: LockType)
    requires Inv(g) && AnyStep(g, g', i, BeginAttempt(pid, t)) && p < |g| && p != i && CanMislead(i, p, g[i], g[p], t)
    ensures CanMiscount(g', i, |g[i].site.log|)
  {
    hide Inv, NodeOk, By, LogOk, RowCanConfirm, OldRequest, Peers, Next, Behind, CanMiscount, Enabled;
    var attempt, a' := |g[i].site.log|, g'[i];
    NodeFacts(g, i);
    NodeFacts(g, p);
    BegunRequest(i, |g|, g[i], pid, t);
    Positions(g, p, i);
    if g[i].pend[p].ConfirmChecked? {
      MiscountsFrom(g', i, p, t, attempt, 0);
    } else if exists k :: g[i].cur[p] <= k < |g[p].site.log| && g[p].site.log[k] == Confirm(i, t) {
      var k :| g[i].cur[p] <= k < |g[p].site.log| && g[p].site.log[k] == Confirm(i, t);
      MiscountsFrom(g', i, p, t, attempt, k);
    } else {
      assert t != NoLock by { BeginType(i, g[i], pid, t); }
      var h := LogsConfirm(g, i, p, t);
      PeersOf(i, p, |g|);
      Transport(Peers(i, |g|), g, h, i, a');
      var h' := h[i := a'];
      NodeFacts(h, p);
      Positions(h, p, i);
      Positions(g, i, p);
      ByFrame(Peers(i, |g|), g', h');
      MiscountsFrom(h', i, p, t, attempt, |h[p].site.log| - 1);
      ByLeads(Peers(i, |g|), g', h');
      MiscountsLater(g', h', i, attempt);
    }
  }

  lemma BeginType(i: NodeId, n: Node, pid: nat, t: LockType)
    requires Enabled(i, n, BeginAttempt(pid, t))
    ensures t != NoLock
  {
  }

  lemma MiscountsLater(g: Group, h: Group, i: NodeId, attempt: nat)
    requires Leads(g, h) && CanMiscount(h, i, attempt)
    ensures CanMiscount(g, i, attempt)
  {
    hide Leads;
    var h', p :| Leads(h, h') && Miscounted(h', i, p, attempt);
    LeadsTrans(g, h, h');
  }

  lemma NeverMiscounts(g: Group, i: NodeId, p: NodeId, attempt: nat)
    requires Inv(g)
    ensures !Miscounted(g, i, p, attempt)
  {
    hide NodeOk, LsnsApart, LsnsOnce, GrantOk, Exclusive;
    if i < |g| && p < |g| && p != i { assert LinkOk(i, p, g[i], g[p]); }
  }

  /** A new attempt can count the confirmation of a peer that is not locked for it if and only
      if some peer's confirmation of an earlier request is checked and about to be counted,
      is in its log, or can still be logged. */
  lemma DrainedIsExact(g: Group, g': Group, i: NodeId, pid: nat, t: LockType)
    requires Reachable(g) && WellFormed(g) && AnyStep(g, g', i, BeginAttempt(pid, t))
    ensures CanMiscount(g', i, |g[i].site.log|) <==> !Drained(g, i, t)
  {
    hide Inv, CanMislead, Leads, Miscounted, Reachable;
    ReachableInv(g);
    if Drained(g, i, t) {
      StepKeepsInv(g, g', i, BeginAttempt(pid, t));
      forall h, p | Leads(g', h) ensures !Miscounted(h, i, p, |g[i].site.log|) {
        LeadsInv(g', h);
        NeverMiscounts(h, i, p, |g[i].site.log|);
      }
    } else {
      var p :| 0 <= p < |g| && p != i && CanMislead(i, p, g[i], g[p], t);
      NotDrainedMiscounts(g, g', i, p, pid, t);
    }
  }
}

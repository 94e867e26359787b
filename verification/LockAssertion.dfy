/** Exactly when the assertion made on confirming can fail. */
module LockAssertion {
  import opened Common
  import opened LockHandlers
  import opened LockProtocol
  import opened LockInvariant
  import opened LockNodeProof
  import opened LockSafety
  import opened LockPaths
  import opened LockProgress
  import opened LockDrained
  import opened LockQuorum
  import opened LockUpgrade
  import opened LockGone
  import opened LockRaise
  import LockDatabase

  /** The entry that `p` replays next from the log of `from` completes its replay quorum. */
  ghost predicate QuorumNext(h: Group, p: NodeId, from: NodeId, lsn: nat)
    requires WellFormed(h) && p < |h|
  {
    var ev := Deliver(from, ReplayConfirm(lsn));
    Enabled(p, h[p], ev) && Available(h, p, ev) && ReachesQuorum(h[p].site, lsn)
  }

  /** `p` is about to confirm where the assertion does not hold. */
  ghost predicate AssertionFails(h: Group, p: NodeId)
    requires WellFormed(h) && p < |h|
  {
    !LockDatabase.ConfirmAssertion(h[p].site.db) && exists from, lsn :: QuorumNext(h, p, from, lsn)
  }

  /** The commit that confirmed the hold can still be lost in a crash. */
  ghost predicate CanLose(g: Group, p: NodeId)
    requires WellFormed(g) && p < |g|
  {
    Enabled(p, g[p], CrashUnflushed) && Available(g, p, CrashUnflushed)
  }

  /** The hold of `p` for `i` is in DDL mode and unconfirmed, or may be so again; and, in a group
      of two, the requester can still answer. */
  ghost predicate CanFail(g: Group, p: NodeId, i: NodeId)
    requires WellFormed(g) && p < |g| && i < |g| && i in g[p].site.table
  {
    && g[p].site.table[i].ty == Ddl && (g[p].site.table[i].state.RowCatchup? || CanLose(g, p))
    && (|g| > 2 || !Blocked(i, g[i], g[p]))
  }

  // ---- it can fail ------------------------------------------------------------------------------

  lemma FailsHere(h: Group, p: NodeId, i: NodeId, lsn: nat, from: NodeId)
    requires Inv(h) && WellFormed(h) && p < |h| && from < |h| && from != p && h[p].site.db.nnodes <= 1
    requires Waiting(h[p], i, Ddl, lsn) && AnswerNext(h[p], h[from], from, lsn)
    ensures AssertionFails(h, p)
  {
    hide LinkOk, LsnsApart, LsnsOnce, GrantOk, Exclusive;
    assert NodeOk(p, |h|, h[p]);
    assert QuorumNext(h, p, from, lsn);
  }

  lemma CatchupFails(g: Group, p: NodeId, i: NodeId) returns (h: Group)
    requires Inv(g) && WellFormed(g) && p < |g| && i < |g| && i != p
    requires i in g[p].site.table && g[p].site.table[i] == Row(Ddl, RowCatchup) && (|g| > 2 || !Blocked(i, g[i], g[p]))
    ensures Leads(g, h) && WellFormed(h) && |h| == |g| && SameHold(h[p], g[p], true) && AssertionFails(h, p)
  {
    hide Inv, By, Leads, AssertionFails, Requesting, EndsFrom, NoEnd;
    if |g| > 2 {
      var r := Third(i, p, |g|);
      var lsn;
      h, lsn := RestartAnswered(g, p, i, Ddl, r);
      CurSize(h, p);
      FailsHere(h, p, i, lsn, r);
    } else if !Gone(i, g[i], g[p]) {
      StillRequesting(g, i, p);
      var lsn;
      h, lsn := RestartAnswered(g, p, i, Ddl, i);
      CurSize(h, p);
      FailsHere(h, p, i, lsn, i);
    } else {
      var lsn := g[p].site.db.lsn;
      var k :| AnswerAt(i, g[i], g[p], k);
      assert |g| == 2;
      WaitingHere(g, i, p, Ddl);
      h := ReachesAnswer(g, p, i, Ddl, lsn, i, k);
      ByLeads({p}, g, h);
      CurSize(h, p);
      FailsHere(h, p, i, lsn, i);
    }
  }

  lemma LostNode(p: NodeId, size: nat, n: Node, i: NodeId)
    requires CoreOk(p, size, n) && Enabled(p, n, CrashUnflushed) && i in n.site.table && n.site.table[i].ty == Ddl
    ensures var n' := Next(p, size, n, CrashUnflushed);
            n'.site.table == map[i := Row(Ddl, RowCatchup)] && n'.cur == n.cur && n'.hist.grants == n.hist.grants
            && n'.site.db.lsn == 0 && n.site.db.lsn == 0
  {
  }

  lemma LostFails(g: Group, p: NodeId, i: NodeId) returns (h: Group)
    requires Inv(g) && WellFormed(g) && p < |g| && i < |g| && i != p && CanLose(g, p)
    requires i in g[p].site.table && g[p].site.table[i].ty == Ddl && (|g| > 2 || !Blocked(i, g[i], g[p]))
    ensures Leads(g, h) && WellFormed(h) && |h| == |g| && SameHold(h[p], g[p], true) && AssertionFails(h, p)
  {
    hide Inv, By, Leads, AssertionFails, CoreOk, Next, Enabled;
    NodeFacts(g, p);
    LostNode(p, |g|, g[p], i);
    var g1 := FrameStep(g, p, CrashUnflushed);
    ByLeads({p}, g, g1);
    CurSize(g1, p);
    h := CatchupFails(g1, p, i);
    LeadsTrans(g, g1, h);
  }

  // ---- it cannot ----------------------------------------------------------------------------------

  /** The hold is in write mode, or confirmed for good. */
  ghost predicate Settled(g: Group, p: NodeId, n0: Node, i: NodeId)
    requires WellFormed(g) && p < |g|
  {
    && g[p].hist.grants >= n0.hist.grants && g[p].hist.boots >= n0.hist.boots
    && (SameHold(g[p], n0, true) && i in g[p].site.table ==>
          g[p].site.table[i].ty == Write || (g[p].site.table[i] == Row(Ddl, RowAcquired) && !CanLose(g, p)))
  }

  /** A confirmed hold stays confirmed, until it is upgraded or its commit lost, and no
      confirmation is logged for it again. */
  lemma AcquiredReceives(p: NodeId, size: nat, n: Node, from: NodeId, msg: Entry, i: NodeId)
    requires CoreOk(p, size, n) && MayReceive(p, size, n, from, msg) && i in n.site.table && n.site.table[i] == Row(Ddl, RowAcquired)
    ensures var n' := Receive(p, size, n, from, msg);
            i in n'.site.table ==>
              n'.site.table[i].ty == Write
              || (n'.site.table[i] == Row(Ddl, RowAcquired) && NoNewConfirm(n, n'))
  {
  }

  ghost predicate NoNewConfirm(n: Node, n': Node) {
    || (n'.site.log == n.site.log && (n'.up ==> n.up))
    || (|n'.site.log| > 0 && !n'.site.log[|n'.site.log| - 1].Confirm?)
  }

  lemma AcquiredStays(p: NodeId, size: nat, n: Node, ev: Event, i: NodeId)
    requires CoreOk(p, size, n) && EventOk(p, size, n, ev) && !ev.CrashUnflushed?
    requires i in n.site.table && n.site.table[i] == Row(Ddl, RowAcquired)
    ensures var n' := Next(p, size, n, ev);
            i in n'.site.table ==>
              n'.site.table[i].ty == Write
              || (n'.site.table[i] == Row(Ddl, RowAcquired) && NoNewConfirm(n, n'))
  {
    hide Receive, MsgOk;
    if ev.Deliver? { AcquiredReceives(p, size, n, ev.from, ev.msg, i); }
  }

  lemma WriteStays(p: NodeId, size: nat, n: Node, ev: Event, i: NodeId)
    requires CoreOk(p, size, n) && EventOk(p, size, n, ev) && i in n.site.table && n.site.table[i].ty == Write
    ensures i in Next(p, size, n, ev).site.table ==> Next(p, size, n, ev).site.table[i].ty == Write
  {
    hide TableOk;
  }

  /** No other node has replayed the whole log of `p`. */
  ghost predicate Unread(g: Group, p: NodeId)
    requires WellFormed(g) && p < |g|
  {
    forall q :: 0 <= q < |g| && q != p ==> g[q].cur[p] < |g[p].site.log|
  }

  lemma UnreadBefore(g: Group, h: Group, p: NodeId)
    requires WellFormed(g) && WellFormed(h) && |h| == |g| && p < |g| && h[p].site.log == g[p].site.log
    requires forall q :: 0 <= q < |g| && q != p ==> g[q].cur[p] <= h[q].cur[p]
    ensures Unread(h, p) ==> Unread(g, p)
  {
  }

  /** What the commit could be lost by, read off the log. */
  lemma LossByLog(g: Group, p: NodeId, i: NodeId)
    requires Inv(g) && WellFormed(g) && p < |g| && i in g[p].site.table && g[p].site.table[i] == Row(Ddl, RowAcquired)
    ensures CanLose(g, p) <==>
              g[p].up && |g[p].site.log| > 0 && g[p].site.log[|g[p].site.log| - 1] == Confirm(i, Ddl)
              && Unread(g, p)
  {
    hide LinkOk, LsnsApart, LsnsOnce, GrantOk, Exclusive;
    assert NodeOk(p, |g|, g[p]);
  }

  lemma SettledOwn(g: Group, h: Group, p: NodeId, ev: Event, n0: Node, i: NodeId)
    requires Inv(g) && Inv(h) && WellFormed(g) && AnyStep(g, h, p, ev) && Settled(g, p, n0, i) && WellFormed(h)
    ensures Settled(h, p, n0, i)
  {
    hide LinkOk, LsnsApart, LsnsOnce, GrantOk, Exclusive, CleanOk, UpgradesOnly, LogOk, AttemptsEnd, AttemptOk, TableOk, StateOk,
      ReplayOk, MsgOk, Next, CanLose, Unread;
    NextEntryOk(g, p, ev);
    assert NodeOk(p, |g|, g[p]);
    SameHoldBefore(p, |g|, g[p], ev, n0, i, true);
    if SameHold(h[p], n0, true) && i in h[p].site.table {
      if g[p].site.table[i].ty == Write {
        WriteStays(p, |g|, g[p], ev, i);
      } else {
        LossByLog(g, p, i);
        if ev.CrashUnflushed? { LosesOnlyLosable(g, h, p, i); } else { AcquiredStays(p, |g|, g[p], ev, i); }
        if h[p].site.table[i] == Row(Ddl, RowAcquired) {
          LossByLog(h, p, i);
          if h[p].site.log == g[p].site.log { UnreadBefore(g, h, p); }
        }
      }
    }
  }

  lemma LosesOnlyLosable(g: Group, h: Group, p: NodeId, i: NodeId)
    requires WellFormed(g) && AnyStep(g, h, p, CrashUnflushed)
    ensures CanLose(g, p)
  {
  }

  lemma SettledOther(g: Group, h: Group, p: NodeId, j: NodeId, ev: Event, n0: Node, i: NodeId)
    requires Inv(g) && Inv(h) && WellFormed(g) && AnyStep(g, h, j, ev) && j != p && p < |g| && WellFormed(h) && Settled(g, p, n0, i)
    ensures Settled(h, p, n0, i)
  {
    hide Inv, CanLose, Next, Enabled, Available, Unread;
    CursorsAdvance(j, |g|, g[j], ev, p);
    if SameHold(g[p], n0, true) && i in g[p].site.table && g[p].site.table[i] == Row(Ddl, RowAcquired) {
      LossByLog(g, p, i);
      LossByLog(h, p, i);
      UnreadBefore(g, h, p);
    }
  }

  lemma SettledStep(g: Group, h: Group, p: NodeId, n0: Node, i: NodeId)
    requires Inv(g) && StepsTo(g, h) && WellFormed(g) && p < |g| && Settled(g, p, n0, i)
    ensures Inv(h) && WellFormed(h) && |h| == |g| && Settled(h, p, n0, i)
  {
    hide NodeOk, LinkOk, LsnsApart, LsnsOnce, GrantOk, Exclusive, Settled, Next, Enabled;
    StepsKeepInv(g, h);
    var j: NodeId, ev: Event :| Step(g, h, j, ev);
    if j == p { SettledOwn(g, h, p, ev, n0, i); } else { SettledOther(g, h, p, j, ev, n0, i); }
  }

  lemma {:induction false} SettledPath(tr: seq<Group>, k: nat, p: NodeId, n0: Node, i: NodeId)
    requires IsPath(tr) && Inv(tr[0]) && WellFormed(tr[0]) && p < |tr[0]| && k < |tr| && Settled(tr[0], p, n0, i)
    ensures Inv(tr[k]) && WellFormed(tr[k]) && |tr[k]| == |tr[0]| && Settled(tr[k], p, n0, i)
  {
    hide Inv, StepsTo, Settled;
    if k > 0 {
      SettledPath(tr, k - 1, p, n0, i);
      assert StepsAt(tr, k - 1);
      SettledStep(tr[k - 1], tr[k], p, n0, i);
    }
  }

  /** As long as nothing is granted, a node is held for `i` or for nobody. */
  ghost predicate OnlyFor(n: Node, n0: Node, i: NodeId) {
    && n.hist.grants >= n0.hist.grants && n.hist.boots >= n0.hist.boots
    && (SameHold(n, n0, true) ==> n.site.table.Keys <= {i})
  }

  lemma {:induction false} OnlyForPath(tr: seq<Group>, k: nat, p: NodeId, n0: Node, i: NodeId)
    requires IsPath(tr) && Inv(tr[0]) && p < |tr[0]| && k < |tr| && OnlyFor(tr[0][p], n0, i)
    ensures Inv(tr[k]) && |tr[k]| == |tr[0]| && OnlyFor(tr[k][p], n0, i)
  {
    hide Inv, StepsTo, OnlyFor;
    if k > 0 {
      OnlyForPath(tr, k - 1, p, n0, i);
      assert StepsAt(tr, k - 1);
      OnlyForStep(tr[k - 1], tr[k], p, n0, i);
      StepsKeepInv(tr[k - 1], tr[k]);
    }
  }

  lemma OnlyForStep(g: Group, h: Group, p: NodeId, n0: Node, i: NodeId)
    requires Inv(g) && StepsTo(g, h) && p < |g| && OnlyFor(g[p], n0, i)
    ensures |h| == |g| && OnlyFor(h[p], n0, i)
  {
    hide LinkOk, LsnsApart, LsnsOnce, GrantOk, Exclusive, CleanOk, UpgradesOnly, LogOk, AttemptsEnd, AttemptOk, TableOk, StateOk,
      ReplayOk, MsgOk, Next;
    var j: NodeId, ev: Event :| Step(g, h, j, ev);
    if j == p {
      NextEntryOk(g, p, ev);
      assert NodeOk(p, |g|, g[p]);
      forall x ensures SameHold(h[p], n0, true) && x in h[p].site.table ==> SameHold(g[p], n0, true) && x in g[p].site.table {
        SameHoldBefore(p, |g|, g[p], ev, n0, x, true);
      }
      SameHoldBefore(p, |g|, g[p], ev, n0, i, true);
    }
  }

  /** Where the assertion fails the hold is in DDL mode and in catch-up, and an answer is next. */
  lemma FailingHold(h: Group, p: NodeId) returns (j: NodeId, from: NodeId)
    requires Inv(h) && WellFormed(h) && p < |h| && AssertionFails(h, p)
    ensures j in h[p].site.table && h[p].site.table[j] == Row(Ddl, RowCatchup)
    ensures from < |h| && from != p && h[p].site.db.lsn != 0 && AnswerNext(h[p], h[from], from, h[p].site.db.lsn)
  {
    hide LinkOk, LsnsApart, LsnsOnce, GrantOk, Exclusive;
    var lsn;
    from, lsn :| QuorumNext(h, p, from, lsn);
    assert NodeOk(p, |h|, h[p]) && NodeOk(from, |h|, h[from]);
    EntriesOk(from, h[from].site.log, h[p].cur[from]);
    j := h[p].site.db.holder.value;
  }

  lemma NeverFails(g: Group, h: Group, p: NodeId, i: NodeId)
    requires Inv(g) && WellFormed(g) && p < |g| && i < |g| && i != p && i in g[p].site.table && !CanFail(g, p, i)
    requires g[p].site.table.Keys == {i} && (g[p].site.table[i].ty == Ddl || g[p].site.table[i].ty == Write)
    requires Leads(g, h) && WellFormed(h) && |h| == |g| && SameHold(h[p], g[p], true)
    ensures !AssertionFails(h, p)
  {
    hide Inv, CanLose, AssertionFails, Blocked;
    if AssertionFails(h, p) {
      var tr :| PathFrom(tr, g, h);
      OnlyForPath(tr, |tr| - 1, p, g[p], i);
      var j, from := FailingHold(h, p);
      if g[p].site.table[i].ty == Write || (g[p].site.table[i].state.RowAcquired? && !CanLose(g, p)) {
        SettledPath(tr, |tr| - 1, p, g[p], i);
      } else {
        BlockedLater(g, h, p, i);
        AnswerOfBlocked(i, h[i], h[p], h[p].site.db.lsn);
      }
    }
  }

  lemma HoldFacts(g: Group, p: NodeId, i: NodeId)
    requires Inv(g) && p < |g| && i in g[p].site.table
    ensures i < |g| && i != p && g[p].site.table.Keys == {i} && (g[p].site.table[i].ty == Ddl || g[p].site.table[i].ty == Write)
  {
    hide LinkOk, LsnsApart, LsnsOnce, GrantOk, Exclusive;
    assert NodeOk(p, |g|, g[p]);
  }

  /** From any reachable group in which `p` is held for `i`, some continuation without another
      grant at `p` leads to where the assertion on confirming fails, if and only if the hold is in
      DDL mode and unconfirmed, or its confirmation can still be lost; and, with two nodes, the
      requester can still answer. */
  lemma AssertionIsExact(g: Group, p: NodeId, i: NodeId)
    requires Reachable(g) && WellFormed(g) && p < |g| && i < |g| && i in g[p].site.table
    ensures (exists h: Group :: Leads(g, h) && WellFormed(h) && |h| == |g| && SameHold(h[p], g[p], true) && AssertionFails(h, p))
            <==> CanFail(g, p, i)
  {
    hide Inv, Leads, AssertionFails, Reachable, Blocked, CanLose, SameHold;
    ReachableInv(g);
    HoldFacts(g, p, i);
    if CanFail(g, p, i) {
      if g[p].site.table[i].state.RowCatchup? {
        var h := CatchupFails(g, p, i);
      } else {
        var h := LostFails(g, p, i);
      }
    } else {
      forall h: Group | Leads(g, h) && WellFormed(h) && |h| == |g| && SameHold(h[p], g[p], true) ensures !AssertionFails(h, p) {
        NeverFails(g, h, p, i);
      }
    }
  }

  // ---- along a run --------------------------------------------------------------------------------

  /** The replay request that `p` waits for in group `k` was made when `p` restarted, after group
      `m`, with an unconfirmed DDL hold. */
  ghost predicate AskedOnRestart(tr: seq<Group>, m: nat, k: nat, p: NodeId)
    requires m < k < |tr|
  {
    && (forall l :: m <= l <= k ==> p < |tr[l]|)
    && !tr[m][p].up && (exists j :: j in tr[m][p].site.table && tr[m][p].site.table[j] == Row(Ddl, RowCatchup))
    && forall l :: m < l <= k ==> tr[l][p].up && tr[l][p].site.db.lsn == tr[k][p].site.db.lsn
  }

  /** Where an awaited replay request comes from. */
  lemma RequestFrom(p: NodeId, size: nat, n: Node, ev: Event)
    requires CoreOk(p, size, n) && EventOk(p, size, n, ev)
    requires Next(p, size, n, ev).up && Next(p, size, n, ev).site.db.lsn != 0
    ensures var d, d' := n.site.db, Next(p, size, n, ev).site.db;
            || (n.up && d.lsn == d'.lsn && d.ty == d'.ty)
            || (n.up && d'.ty == Write)
            || (!n.up && exists j :: j in n.site.table && n.site.table[j] == Row(d'.ty, RowCatchup))
  {
  }

  lemma RequestStep(g: Group, h: Group, p: NodeId)
    requires Inv(g) && StepsTo(g, h) && p < |g| && p < |h| && h[p].up && h[p].site.db.lsn != 0
    ensures var d, d' := g[p].site.db, h[p].site.db;
            || (g[p].up && d.lsn == d'.lsn && d.ty == d'.ty)
            || (g[p].up && d'.ty == Write)
            || (!g[p].up && exists j :: j in g[p].site.table && g[p].site.table[j] == Row(d'.ty, RowCatchup))
  {
    hide LinkOk, LsnsApart, LsnsOnce, GrantOk, Exclusive, CleanOk, UpgradesOnly, LogOk, AttemptsEnd, AttemptOk, TableOk, StateOk,
      ReplayOk, MsgOk, Next;
    var j: NodeId, ev: Event :| Step(g, h, j, ev);
    if j == p {
      NextEntryOk(g, p, ev);
      assert NodeOk(p, |g|, g[p]);
      RequestFrom(p, |g|, g[p], ev);
    }
  }

  lemma {:induction false} DdlRequestIsRestart(tr: seq<Group>, k: nat, p: NodeId) returns (m: nat)
    requires IsRun(tr) && k < |tr| && p < |tr[k]| && tr[k][p].up && tr[k][p].site.db.lsn != 0 && tr[k][p].site.db.ty == Ddl
    ensures m < k && AskedOnRestart(tr, m, k, p)
  {
    hide Inv, StepsTo;
    RunInv(tr, k);
    if k > 0 {
      RunInv(tr, k - 1);
      assert StepsAt(tr, k - 1);
      RequestStep(tr[k - 1], tr[k], p);
      if tr[k - 1][p].up {
        m := DdlRequestIsRestart(tr, k - 1, p);
      } else {
        m := k - 1;
      }
    }
  }

  lemma {:induction false} RestartRequestIsDdl(tr: seq<Group>, m: nat, k: nat, p: NodeId)
    requires IsRun(tr) && m < k < |tr| && AskedOnRestart(tr, m, k, p)
    requires tr[k][p].site.db.lsn != 0
    ensures tr[k][p].site.db.ty == Ddl
  {
    hide Inv, StepsTo;
    RunInv(tr, k - 1);
    assert StepsAt(tr, k - 1);
    if m < k - 1 {
      RestartRequestIsDdl(tr, m, k - 1, p);
      SameRequest(tr[k - 1], tr[k], p);
    } else {
      RestartTakesRow(tr[m], tr[k], p);
    }
  }

  lemma SameRequest(g: Group, h: Group, p: NodeId)
    requires Inv(g) && StepsTo(g, h) && p < |g| && p < |h| && g[p].up && h[p].up
    requires h[p].site.db.lsn == g[p].site.db.lsn != 0
    ensures h[p].site.db.ty == g[p].site.db.ty
  {
    hide LinkOk, LsnsApart, LsnsOnce, GrantOk, Exclusive, CleanOk, UpgradesOnly, LogOk, AttemptsEnd, AttemptOk, TableOk,
      ReplayOk;
    var j: NodeId, ev: Event :| Step(g, h, j, ev);
    if j == p {
      NextEntryOk(g, p, ev);
      assert NodeOk(p, |g|, g[p]);
    }
  }

  lemma RestartTakesRow(g: Group, h: Group, p: NodeId)
    requires Inv(g) && StepsTo(g, h) && p < |g| && p < |h| && !g[p].up && h[p].up
    requires exists j :: j in g[p].site.table && g[p].site.table[j] == Row(Ddl, RowCatchup)
    ensures h[p].site.db.ty == Ddl
  {
    hide LinkOk, LsnsApart, LsnsOnce, GrantOk, Exclusive, CleanOk, UpgradesOnly, LogOk, AttemptsEnd, AttemptOk, ReplayOk;
    assert NodeOk(p, |g|, g[p]);
  }

  /** In any run, where a replay quorum is reached the assertion on confirming fails if and only if
      the request that it answers was made on a restart that found a DDL hold unconfirmed. */
  lemma AssertionFailsExactly(tr: seq<Group>, k: nat, p: NodeId, lsn: nat)
    requires IsRun(tr) && k < |tr| && p < |tr[k]| && lsn != 0 && ReachesQuorum(tr[k][p].site, lsn)
    ensures !LockDatabase.ConfirmAssertion(tr[k][p].site.db) <==> exists m :: 0 <= m < k && AskedOnRestart(tr, m, k, p)
  {
    RunInv(tr, k);
    assert NodeOk(p, |tr[k]|, tr[k][p]);
    if tr[k][p].site.db.ty == Ddl {
      var m := DdlRequestIsRestart(tr, k, p);
    } else if m :| 0 <= m < k && AskedOnRestart(tr, m, k, p) {
      RestartRequestIsDdl(tr, m, k, p);
    }
  }
}

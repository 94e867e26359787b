/** A requester that is down, or whose release or restart is under way, answers no replay
    request in time. */
module LockGone {
  import opened Common
  import opened LockHandlers
  import opened LockProtocol
  import opened LockInvariant
  import opened LockNodeProof
  import opened LockLinkProof
  import opened LockSelfProof
  import opened LockSafety
  import opened LockPaths
  import opened LockQuorum

  /** Whatever `i` logs from now on is behind an end of its request that `p` has not
      replayed. */
  ghost predicate Gone(i: NodeId, a: Node, b: Node)
    requires i < |b.cur|
  {
    !a.up || EndsFrom(a.site.log, b.cur[i])
  }

  /** And no answer is before it. */
  ghost predicate Blocked(i: NodeId, a: Node, b: Node)
    requires i < |b.cur|
  {
    Gone(i, a, b) && !AnswerWaits(i, a, b)
  }

  lemma AnswerInPrefix(i: NodeId, a: Node, a': Node, b: Node)
    requires i < |b.cur| && a'.site.log <= a.site.log && AnswerWaits(i, a', b)
    ensures AnswerWaits(i, a, b)
  {
    var k :| AnswerAt(i, a', b, k);
    NoEndGrows(a'.site.log, a.site.log, b.cur[i], k);
    assert AnswerAt(i, a, b, k);
  }

  lemma RestartIsNoAnswer(i: NodeId, size: nat, a: Node, b: Node, lsn: nat)
    requires i < |b.cur| && b.cur[i] <= |a.site.log| && Enabled(i, a, Recover(lsn))
    requires AnswerWaits(i, Next(i, size, a, Recover(lsn)), b)
    ensures AnswerWaits(i, a, b)
  {
    var a' := Next(i, size, a, Recover(lsn));
    var k :| AnswerAt(i, a', b, k);
    assert k < |a.site.log|;
    NoEndGrows(a.site.log, a'.site.log, b.cur[i], k);
    assert AnswerAt(i, a, b, k);
  }

  lemma RestartEnds(i: NodeId, size: nat, a: Node, b: Node, lsn: nat)
    requires i < |b.cur| && b.cur[i] <= |a.site.log| && Enabled(i, a, Recover(lsn))
    ensures EndsFrom(Next(i, size, a, Recover(lsn)).site.log, b.cur[i])
  {
    var log' := Next(i, size, a, Recover(lsn)).site.log;
    EndAppended(a.site.log, Start, b.cur[i]);
    assert a.site.log + [Start] <= log';
    EndsFromGrows(a.site.log + [Start], log', b.cur[i]);
  }

  /** Steps of the requester. */
  lemma BlockedSelf(i: NodeId, size: nat, a: Node, b: Node, ev: Event)
    requires i < |b.cur| && b.cur[i] <= |a.site.log| && Enabled(i, a, ev) && Blocked(i, a, b)
    ensures Blocked(i, Next(i, size, a, ev), b)
  {
    hide Receive, EndsFrom, AnswerWaits, Restart;
    var a' := Next(i, size, a, ev);
    if ev.Recover? {
      RestartEnds(i, size, a, b, ev.rlsn);
      if AnswerWaits(i, a', b) { RestartIsNoAnswer(i, size, a, b, ev.rlsn); }
    } else if ev.CrashUnflushed? {
      if AnswerWaits(i, a', b) { AnswerInPrefix(i, a, a', b); }
    } else {
      EndsFromGrows(a.site.log, a'.site.log, b.cur[i]);
      if AnswerWaits(i, a', b) { LateAnswer(i, a, a', b); }
    }
  }

  /** `p` replays another entry of `i`. */
  lemma BlockedAdvance(i: NodeId, a: Node, b: Node, b': Node)
    requires i < |b.cur| && b.cur[i] < |a.site.log| && !IsEnd(a.site.log[b.cur[i]]) && Blocked(i, a, b)
    requires |b'.cur| == |b.cur| && b'.cur[i] == b.cur[i] + 1
    requires b'.site.db.lsn == b.site.db.lsn || b'.site.db.lsn == 0
    ensures Blocked(i, a, b')
  {
    StillEnds(a.site.log, b.cur[i]);
    if AnswerWaits(i, a, b') {
      var k :| AnswerAt(i, a, b', k);
      NoEndFrom(a.site.log, b.cur[i], k);
      assert AnswerAt(i, a, b, k);
    }
  }

  lemma BlockedQuiet(i: NodeId, a: Node, b: Node, b': Node)
    requires i < |b.cur| == |b'.cur| && b'.cur[i] == b.cur[i] && Blocked(i, a, b)
    requires b'.site.db.lsn == b.site.db.lsn || b'.site.db.lsn == 0 || NoAnswer(a.site.log, b'.site.db.lsn)
    ensures Blocked(i, a, b')
  {
    if AnswerWaits(i, a, b') {
      var k :| AnswerAt(i, a, b', k);
      assert AnswerAt(i, a, b, k);
    }
  }

  /** Steps of `p` that keep the hold. */
  lemma BlockedOther(i: NodeId, p: NodeId, size: nat, a: Node, b: Node, ev: Event)
    requires CoreOk(p, size, b) && EventOk(p, size, b, ev) && i < size && i in b.site.table && Blocked(i, a, b)
    requires ev.Deliver? && ev.from == i ==> b.cur[i] < |a.site.log| && a.site.log[b.cur[i]] == ev.msg
    requires ev.AskReplay? ==> NoAnswer(a.site.log, ev.lsn)
    requires ev.Recover? ==> NoAnswer(a.site.log, ev.rlsn)
    ensures i in Next(p, size, b, ev).site.table ==> Blocked(i, a, Next(p, size, b, ev))
  {
    hide Blocked, TableOk, NoAnswer;
    var b' := Next(p, size, b, ev);
    if i in b'.site.table {
      if ev.Deliver? && ev.from == i { BlockedAdvance(i, a, b, b'); } else { BlockedQuiet(i, a, b, b'); }
    }
  }

  /** As long as the hold that `p` had as `n0` lasts, the requester stays blocked. */
  ghost predicate StaysBlocked(g: Group, p: NodeId, n0: Node, i: NodeId)
    requires WellFormed(g) && p < |g| && i < |g|
  {
    && g[p].hist.grants >= n0.hist.grants && g[p].hist.boots >= n0.hist.boots
    && (SameHold(g[p], n0, true) && i in g[p].site.table ==> Blocked(i, g[i], g[p]))
  }

  lemma FreshNoAnswer(g: Group, i: NodeId, lsn: nat)
    requires FreshLsn(g, lsn) && i < |g|
    ensures NoAnswer(g[i].site.log, lsn)
  {
  }

  lemma BlockedStep(g: Group, h: Group, p: NodeId, n0: Node, i: NodeId)
    requires Inv(g) && StepsTo(g, h) && p < |g| && i < |g| && i != p && WellFormed(g) && StaysBlocked(g, p, n0, i)
    ensures WellFormed(h) && |h| == |g| && StaysBlocked(h, p, n0, i)
  {
    hide LsnsApart, LsnsOnce, GrantOk, Exclusive, CleanOk, UpgradesOnly, LogOk, AttemptsEnd, AttemptOk, TableOk, StateOk,
      ReplayOk, MsgOk, Blocked, HoldOk, RequestOk, ConfirmOk, StaleFree, NoOrphan, AnswerOk, FlushOk, Enabled, Next, NoAnswer;
    var j: NodeId, ev: Event :| Step(g, h, j, ev);
    NextEntryOk(g, j, ev);
    assert NodeOk(j, |g|, g[j]) && LinkOk(i, p, g[i], g[p]);
    if j == i {
      if SameHold(g[p], n0, true) && i in g[p].site.table { BlockedSelf(i, |g|, g[i], g[p], ev); }
    } else if j == p {
      SameHoldBefore(p, |g|, g[p], ev, n0, i, true);
      if SameHold(h[p], n0, true) && i in h[p].site.table {
        if ev.AskReplay? { FreshNoAnswer(g, i, ev.lsn); }
        if ev.Recover? { FreshNoAnswer(g, i, ev.rlsn); }
        BlockedOther(i, p, |g|, g[i], g[p], ev);
      }
    }
  }

  lemma {:induction false} BlockedPath(tr: seq<Group>, k: nat, p: NodeId, n0: Node, i: NodeId)
    requires IsPath(tr) && Inv(tr[0]) && WellFormed(tr[0]) && p < |tr[0]| && i < |tr[0]| && i != p && k < |tr|
    requires StaysBlocked(tr[0], p, n0, i)
    ensures Inv(tr[k]) && WellFormed(tr[k]) && |tr[k]| == |tr[0]| && StaysBlocked(tr[k], p, n0, i)
  {
    hide Inv, StepsTo, StaysBlocked;
    if k > 0 {
      BlockedPath(tr, k - 1, p, n0, i);
      assert StepsAt(tr, k - 1);
      BlockedStep(tr[k - 1], tr[k], p, n0, i);
      StepsKeepInv(tr[k - 1], tr[k]);
    }
  }

  lemma BlockedLater(g: Group, h: Group, p: NodeId, i: NodeId)
    requires Inv(g) && Leads(g, h) && WellFormed(g) && p < |g| && i < |g| && i != p && Blocked(i, g[i], g[p])
    ensures Inv(h) && WellFormed(h) && |h| == |g| && StaysBlocked(h, p, g[p], i)
  {
    hide Inv, Blocked;
    var tr :| PathFrom(tr, g, h);
    BlockedPath(tr, |tr| - 1, p, g[p], i);
  }
}

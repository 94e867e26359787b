/** What a decline does to the request it reaches. */
module LockDecline {
  import opened Common
  import opened LockHandlers
  import opened LockProtocol
  import opened LockInvariant
  import opened LockNodeProof
  import opened LockSafety
  import opened LockPaths
  import opened LockProgress

  /** Node `n` is tallying, some peer has declined and the wait has not ended. */
  predicate DeclineCounted(n: Node) { Open(n) && n.site.db.state.Tallying? && n.site.db.declined > 0 && !n.passed }

  lemma DeclineStays(i: NodeId, size: nat, n: Node, ev: Event)
    requires NodeOk(i, size, n) && EventOk(i, size, n, ev) && DeclineCounted(n) && Open(Next(i, size, n, ev))
    ensures DeclineCounted(Next(i, size, n, ev))
  {
    hide TableOk, UpgradesOnly, CleanOk, ReplayOk, LogOk, AttemptsEnd, AttemptOk;
  }

  lemma DeclineStep(g: Group, g': Group, i: NodeId)
    requires Inv(g) && StepsTo(g, g') && i < |g| && DeclineCounted(g[i]) && (i < |g'| ==> Open(g'[i]))
    ensures i < |g'| && DeclineCounted(g'[i])
  {
    var j, ev :| Step(g, g', j, ev);
    if j == i {
      NextEntryOk(g, i, ev);
      DeclineStays(i, |g|, g[i], ev);
    }
  }

  /** An attempt in which a decline was counted before the wait ended never acquires the
      lock, however many confirmations follow. */
  lemma {:induction false} DeclinedNeverAcquires(tr: seq<Group>, k: nat, m: nat, i: NodeId)
    requires IsRun(tr) && k <= m < |tr| && i < |tr[k]| && DeclineCounted(tr[k][i])
    requires forall j :: k <= j <= m && i < |tr[j]| ==> Open(tr[j][i])
    ensures i < |tr[m]| && DeclineCounted(tr[m][i]) && !tr[m][i].site.db.state.Acquired?
  {
    hide Inv, StepsTo;
    if m > k {
      DeclinedNeverAcquires(tr, k, m - 1, i);
      RunInv(tr, m - 1);
      assert StepsAt(tr, m - 1);
      DeclineStep(tr[m - 1], tr[m], i);
    }
  }

  // ---- only declines of this request stop it ------------------------------------------------

  predicate Declined(n: Node) { n.site.db.state.Tallying? && n.site.db.declined > 0 }

  /** A decline was checked and is about to be counted. */
  ghost predicate DeclineWaits(n: Node) { exists p: nat :: p < |n.pend| && n.pend[p].DeclineChecked? }

  /** A decline is counted in step `j` of the run, the first one since node `i` made the request
      logged at `acq`. */
  ghost predicate FirstDeclineAt(tr: seq<Group>, j: nat, i: NodeId, acq: nat)
    requires j + 1 < |tr|
  {
    && i < |tr[j]| && i < |tr[j + 1]|
    && tr[j][i].site.db.state.Tallying? && tr[j][i].hist.acq == acq
    && tr[j][i].site.db.declined == 0 && tr[j + 1][i].site.db.declined == 1
    && DeclineWaits(tr[j][i])
  }

  lemma StartsUndeclined(g: Group, i: NodeId)
    requires Init(g) && i < |g|
    ensures !Declined(g[i])
  {
  }

  /** No message counts as a decline by itself. */
  lemma DeliverDeclines(i: NodeId, size: nat, n: Node, from: NodeId, msg: Entry)
    requires from < |n.cur| && from < |n.pend| && Declined(Receive(i, size, n, from, msg))
    ensures var n' := Receive(i, size, n, from, msg);
            n.site.db.state.Tallying? && n'.hist.acq == n.hist.acq && n'.site.db.declined == n.site.db.declined
  {
  }

  lemma DeclinedBefore(i: NodeId, size: nat, n: Node, ev: Event)
    requires Enabled(i, n, ev) && Declined(Next(i, size, n, ev))
    ensures var n' := Next(i, size, n, ev);
            && n.site.db.state.Tallying? && n'.hist.acq == n.hist.acq
            && (n'.site.db.declined == n.site.db.declined
                || (n'.site.db.declined == n.site.db.declined + 1 && DeclineWaits(n)))
  {
    hide Receive;
    if ev.Deliver? { DeliverDeclines(i, size, n, ev.from, ev.msg); }
  }

  lemma DeclinedStepBefore(g: Group, g': Group, i: NodeId)
    requires Inv(g) && StepsTo(g, g') && i < |g'| && Declined(g'[i])
    ensures i < |g| && g[i].site.db.state.Tallying? && g'[i].hist.acq == g[i].hist.acq && g[i].site.db.declined >= 0
    ensures g'[i].site.db.declined == g[i].site.db.declined
            || (g'[i].site.db.declined == g[i].site.db.declined + 1 && DeclineWaits(g[i]))
  {
    var j, ev :| Step(g, g', j, ev);
    assert NodeOk(i, |g|, g[i]);
    if j == i { DeclinedBefore(i, |g|, g[i], ev); }
  }

  /** In every run, a request that was declined was declined since it was made: declines counted
      for earlier requests of the node do not touch it. */
  lemma {:induction false} DeclinedSinceRequest(tr: seq<Group>, k: nat, i: NodeId) returns (j: nat)
    requires IsRun(tr) && k < |tr| && i < |tr[k]| && Declined(tr[k][i])
    ensures j < k && FirstDeclineAt(tr, j, i, tr[k][i].hist.acq)
  {
    hide Inv, StepsTo, Init;
    if k == 0 { StartsUndeclined(tr[0], i); }
    RunInv(tr, k - 1);
    assert StepsAt(tr, k - 1);
    DeclinedStepBefore(tr[k - 1], tr[k], i);
    if tr[k - 1][i].site.db.declined == 0 {
      j := k - 1;
    } else {
      j := DeclinedSinceRequest(tr, k - 1, i);
    }
  }

  /** A path along which `i` keeps its request open. */
  ghost predicate KeepsOpen(tr: seq<Group>, g: Group, i: NodeId) {
    IsPath(tr) && tr[0] == g && forall k :: 0 <= k < |tr| ==> i < |tr[k]| && Open(tr[k][i])
  }

  /** The open request can still become the lock. */
  ghost predicate CanAcquire(g: Group, i: NodeId) {
    exists tr: seq<Group> :: KeepsOpen(tr, g, i) && tr[|tr| - 1][i].site.db.state.Acquired?
  }

  lemma {:induction false} DeclinedPath(tr: seq<Group>, g: Group, i: NodeId, k: nat)
    requires Inv(g) && i < |g| && DeclineCounted(g[i]) && KeepsOpen(tr, g, i) && k < |tr|
    ensures Inv(tr[k]) && DeclineCounted(tr[k][i])
  {
    hide Inv, StepsTo;
    if k > 0 {
      DeclinedPath(tr, g, i, k - 1);
      assert StepsAt(tr, k - 1);
      DeclineStep(tr[k - 1], tr[k], i);
      StepsKeepInv(tr[k - 1], tr[k]);
    }
  }

  /** A counted decline keeps the open request from becoming the lock if and only if it was
      counted before the wait ended: once the wait has ended the counter is only reset. */
  lemma DeclineIsExact(tr: seq<Group>, k: nat, i: NodeId)
    requires IsRun(tr) && k < |tr| && i < |tr[k]|
    requires Open(tr[k][i]) && tr[k][i].site.db.state.Tallying? && tr[k][i].site.db.declined > 0
    ensures CanAcquire(tr[k], i) <==> tr[k][i].passed
  {
    hide Inv;
    RunInv(tr, k);
    var g := tr[k];
    if g[i].passed {
      CurSize(g, i);
      var g' := g[i := Next(i, |g|, g[i], TallyDone)];
      assert Step(g, g', i, TallyDone);
      assert StepsAt([g, g'], 0);
      assert KeepsOpen([g, g'], g, i);
    } else if path: seq<Group> :| KeepsOpen(path, g, i) && path[|path| - 1][i].site.db.state.Acquired? {
      DeclinedPath(path, g, i, |path| - 1);
    }
  }
}

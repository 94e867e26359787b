/** Continuations of a group: paths of steps, and paths taken by some of the nodes only. */
module LockPaths {
  import opened Common
  import opened LockHandlers
  import opened LockProtocol
  import opened LockInvariant
  import opened LockSafety

  ghost predicate IsPath(tr: seq<Group>) {
    |tr| > 0 && forall k :: 0 <= k < |tr| - 1 ==> StepsAt(tr, k)
  }

  ghost predicate PathFrom(tr: seq<Group>, g: Group, h: Group) {
    IsPath(tr) && tr[0] == g && tr[|tr| - 1] == h
  }

  /** Some run of steps leads from `g` to `h`. */
  ghost predicate Leads(g: Group, h: Group) { exists tr :: PathFrom(tr, g, h) }

  lemma LeadsOn(g: Group, h: Group, h': Group)
    requires Leads(g, h) && StepsTo(h, h')
    ensures Leads(g, h')
  {
    var tr :| PathFrom(tr, g, h);
    var tr' := tr + [h'];
    forall k | 0 <= k < |tr'| - 1 ensures StepsAt(tr', k) {
      if k < |tr| - 1 { assert StepsAt(tr, k); }
    }
    assert PathFrom(tr', g, h');
  }

  lemma {:induction false} PathTrans(g: Group, h: Group, tr: seq<Group>)
    requires Leads(g, h) && IsPath(tr) && tr[0] == h
    ensures Leads(g, tr[|tr| - 1])
    decreases |tr|
  {
    if |tr| > 1 {
      var n := |tr| - 1;
      forall k | 0 <= k < n - 1 ensures StepsAt(tr[..n], k) { assert StepsAt(tr, k); }
      PathTrans(g, h, tr[..n]);
      assert StepsAt(tr, n - 1);
      LeadsOn(g, tr[n - 1], tr[n]);
    }
  }

  lemma LeadsTrans(g: Group, h: Group, h': Group)
    requires Leads(g, h) && Leads(h, h')
    ensures Leads(g, h')
  {
    var tr :| PathFrom(tr, h, h');
    PathTrans(g, h, tr);
  }

  lemma {:induction false} PathInv(tr: seq<Group>)
    requires IsPath(tr) && Inv(tr[0])
    ensures Inv(tr[|tr| - 1]) && |tr[|tr| - 1]| == |tr[0]|
    decreases |tr|
  {
    hide Inv;
    if |tr| > 1 {
      var n := |tr| - 1;
      forall k | 0 <= k < n - 1 ensures StepsAt(tr[..n], k) { assert StepsAt(tr, k); }
      PathInv(tr[..n]);
      assert StepsAt(tr, n - 1);
      StepsKeepInv(tr[n - 1], tr[n]);
    }
  }

  lemma StepsKeepInv(g: Group, h: Group)
    requires Inv(g) && StepsTo(g, h)
    ensures Inv(h) && |h| == |g|
  {
    hide NodeOk, GrantOk, LsnsOnce, LinkOk, LsnsApart, Exclusive;
    var i, ev :| Step(g, h, i, ev);
    StepKeepsInv(g, h, i, ev);
  }

  lemma LeadsInv(g: Group, h: Group)
    requires Leads(g, h) && Inv(g)
    ensures Inv(h) && |h| == |g|
  {
    var tr :| PathFrom(tr, g, h);
    PathInv(tr);
  }

  // ---- steps of some nodes, none of which starts an attempt ----------------------------------

  ghost predicate StepBy(s: set<NodeId>, g: Group, h: Group) {
    WellFormed(g) && exists i: NodeId, ev: Event :: i in s && !ev.BeginAttempt? && Step(g, h, i, ev)
  }

  ghost predicate StepByAt(s: set<NodeId>, tr: seq<Group>, k: nat) {
    k + 1 < |tr| && StepBy(s, tr[k], tr[k + 1])
  }

  ghost predicate PathBy(s: set<NodeId>, tr: seq<Group>, g: Group, h: Group) {
    |tr| > 0 && tr[0] == g && tr[|tr| - 1] == h && forall k :: 0 <= k < |tr| - 1 ==> StepByAt(s, tr, k)
  }

  /** Nodes of `s` alone, none of them starting an attempt, lead the group from `g` to `h`. */
  ghost predicate By(s: set<NodeId>, g: Group, h: Group) { exists tr :: PathBy(s, tr, g, h) }

  lemma ByRefl(s: set<NodeId>, g: Group)
    ensures By(s, g, g)
  {
    assert PathBy(s, [g], g, g);
  }

  lemma ByOn(s: set<NodeId>, g: Group, h: Group, h': Group)
    requires By(s, g, h) && StepBy(s, h, h')
    ensures By(s, g, h')
  {
    var tr :| PathBy(s, tr, g, h);
    var tr' := tr + [h'];
    forall k | 0 <= k < |tr'| - 1 ensures StepByAt(s, tr', k) {
      if k < |tr| - 1 { assert StepByAt(s, tr, k); }
    }
    assert PathBy(s, tr', g, h');
  }

  /** Induction along a path: its last step. */
  lemma LastStep(s: set<NodeId>, tr: seq<Group>, g: Group, h: Group)
    requires PathBy(s, tr, g, h) && |tr| > 1
    ensures PathBy(s, tr[..|tr| - 1], g, tr[|tr| - 2]) && StepBy(s, tr[|tr| - 2], h)
  {
    var n := |tr| - 1;
    forall k | 0 <= k < n - 1 ensures StepByAt(s, tr[..n], k) { assert StepByAt(s, tr, k); }
    assert StepByAt(s, tr, n - 1);
  }

  lemma {:induction false} PathByTrans(s: set<NodeId>, g: Group, h: Group, tr: seq<Group>, h': Group)
    requires By(s, g, h) && PathBy(s, tr, h, h')
    ensures By(s, g, h')
    decreases |tr|
  {
    if |tr| > 1 {
      LastStep(s, tr, h, h');
      PathByTrans(s, g, h, tr[..|tr| - 1], tr[|tr| - 2]);
      ByOn(s, g, tr[|tr| - 2], h');
    }
  }

  lemma ByTrans(s: set<NodeId>, g: Group, h: Group, h': Group)
    requires By(s, g, h) && By(s, h, h')
    ensures By(s, g, h')
  {
    var tr :| PathBy(s, tr, h, h');
    PathByTrans(s, g, h, tr, h');
  }

  lemma ByMore(s: set<NodeId>, s': set<NodeId>, g: Group, h: Group)
    requires By(s, g, h) && s <= s'
    ensures By(s', g, h)
  {
    var tr :| PathBy(s, tr, g, h);
    forall k | 0 <= k < |tr| - 1 ensures StepByAt(s', tr, k) {
      assert StepByAt(s, tr, k);
      var i: NodeId, ev: Event :| i in s && !ev.BeginAttempt? && Step(tr[k], tr[k + 1], i, ev);
      assert i in s' && StepBy(s', tr[k], tr[k + 1]);
    }
    assert PathBy(s', tr, g, h);
  }

  /** One step. */
  lemma ByStep(g: Group, h: Group, i: NodeId, ev: Event)
    requires WellFormed(g) && AnyStep(g, h, i, ev) && !ev.BeginAttempt?
    ensures By({i}, g, h)
  {
    assert Step(g, h, i, ev);
    ByRefl({i}, g);
    ByOn({i}, g, g, h);
  }

  lemma ByLeads(s: set<NodeId>, g: Group, h: Group)
    requires By(s, g, h)
    ensures Leads(g, h)
  {
    var tr :| PathBy(s, tr, g, h);
    forall k | 0 <= k < |tr| - 1 ensures StepsAt(tr, k) { assert StepByAt(s, tr, k); }
    assert PathFrom(tr, g, h);
  }

  lemma StepFrame(s: set<NodeId>, g: Group, h: Group)
    requires StepBy(s, g, h)
    ensures WellFormed(h) && |h| == |g| && forall j :: 0 <= j < |g| && j !in s ==> h[j] == g[j]
  {
  }

  lemma {:induction false} PathFrame(s: set<NodeId>, g: Group, h: Group, tr: seq<Group>)
    requires PathBy(s, tr, g, h) && WellFormed(g)
    ensures WellFormed(h) && |h| == |g| && forall j :: 0 <= j < |g| && j !in s ==> h[j] == g[j]
    decreases |tr|
  {
    hide StepBy;
    if |tr| > 1 {
      LastStep(s, tr, g, h);
      PathFrame(s, g, tr[|tr| - 2], tr[..|tr| - 1]);
      StepFrame(s, tr[|tr| - 2], h);
    }
  }

  /** The other nodes stay as they are. */
  lemma ByFrame(s: set<NodeId>, g: Group, h: Group)
    requires By(s, g, h) && WellFormed(g)
    ensures WellFormed(h) && |h| == |g| && forall j :: 0 <= j < |g| && j !in s ==> h[j] == g[j]
  {
    var tr :| PathBy(s, tr, g, h);
    PathFrame(s, g, h, tr);
  }

  lemma ByInv(s: set<NodeId>, g: Group, h: Group)
    requires By(s, g, h) && Inv(g)
    ensures Inv(h) && |h| == |g| && forall j :: 0 <= j < |g| && j !in s ==> h[j] == g[j]
  {
    ByLeads(s, g, h);
    LeadsInv(g, h);
    ByFrame(s, g, h);
  }

  // ---- a path does not notice what an idle node logs -------------------------------------------

  /** The log has grown by entries that neither ask for a replay nor answer one. */
  ghost predicate Behind(a: Node, a': Node) {
    && a'.cur == a.cur && |a'.pend| == |a.pend| && a.site.log <= a'.site.log
    && forall k :: |a.site.log| <= k < |a'.site.log| ==> !a'.site.log[k].RequestReplay? && !a'.site.log[k].ReplayConfirm?
  }

  lemma StillFresh(g: Group, i: NodeId, a': Node, lsn: nat)
    requires i < |g| && Behind(g[i], a') && FreshLsn(g, lsn)
    ensures FreshLsn(g[i := a'], lsn)
  {
    forall k | 0 <= k < |a'.site.log|
      ensures a'.site.log[k] != RequestReplay(lsn) && a'.site.log[k] != ReplayConfirm(lsn)
    {
      if k < |g[i].site.log| { assert a'.site.log[k] == g[i].site.log[k]; }
    }
  }

  lemma StillAvailable(g: Group, i: NodeId, a': Node, j: NodeId, ev: Event)
    requires WellFormed(g) && i < |g| && Behind(g[i], a') && j < |g| && j != i && Available(g, j, ev)
    ensures WellFormed(g[i := a']) && Available(g[i := a'], j, ev)
  {
    match ev {
      case AskReplay(lsn) => StillFresh(g, i, a', lsn);
      case Recover(lsn) => StillFresh(g, i, a', lsn);
      case Deliver(from, msg) =>
        if from == i { assert a'.site.log[g[j].cur[i]] == g[i].site.log[g[j].cur[i]]; }
      case _ =>
    }
  }

  lemma StepTransport(s: set<NodeId>, g: Group, h: Group, i: NodeId, a': Node)
    requires StepBy(s, g, h) && i !in s && i < |g| && Behind(g[i], a')
    ensures i < |h| && StepBy(s, g[i := a'], h[i := a'])
  {
    hide Enabled, Available, Drained, Behind;
    var j: NodeId, ev: Event :| j in s && !ev.BeginAttempt? && Step(g, h, j, ev);
    var g', h' := g[i := a'], h[i := a'];
    StillAvailable(g, i, a', j, ev);
    assert h' == g'[j := Next(j, |g|, g[j], ev)];
    assert Step(g', h', j, ev);
  }

  lemma {:induction false} PathTransport(s: set<NodeId>, g: Group, h: Group, tr: seq<Group>, i: NodeId, a': Node)
    requires PathBy(s, tr, g, h) && WellFormed(g) && i !in s && i < |g| && Behind(g[i], a')
    ensures i < |h| && By(s, g[i := a'], h[i := a'])
    decreases |tr|
  {
    hide StepBy, Behind;
    if |tr| > 1 {
      var m := tr[|tr| - 2];
      LastStep(s, tr, g, h);
      PathTransport(s, g, m, tr[..|tr| - 1], i, a');
      PathFrame(s, g, m, tr[..|tr| - 1]);
      StepTransport(s, m, h, i, a');
      ByOn(s, g[i := a'], m[i := a'], h[i := a']);
    } else {
      ByRefl(s, g[i := a']);
    }
  }

  /** What other nodes do from `g` they can do as well when `i` has logged more. */
  lemma Transport(s: set<NodeId>, g: Group, h: Group, i: NodeId, a': Node)
    requires By(s, g, h) && WellFormed(g) && i !in s && i < |g| && Behind(g[i], a')
    ensures i < |h| && By(s, g[i := a'], h[i := a'])
  {
    var tr :| PathBy(s, tr, g, h);
    PathTransport(s, g, h, tr, i, a');
  }
}

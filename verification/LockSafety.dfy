/** The invariant holds in every run; from it, what the lock protocol guarantees. */
module LockSafety {
  import opened Common
  import opened LockHandlers
  import opened LockProtocol
  import opened LockInvariant
  import opened LockNodeProof
  import opened LockLinkProof
  import opened LockSelfProof

  ghost predicate StepsTo(g: Group, g': Group) {
    WellFormed(g) && exists i, ev :: Step(g, g', i, ev)
  }

  /** Group `k` of the sequence leads to the next by one step. */
  ghost predicate StepsAt(tr: seq<Group>, k: nat) {
    k + 1 < |tr| && StepsTo(tr[k], tr[k + 1])
  }

  /** A run: groups linked by steps, from an initial group of any size. */
  ghost predicate IsRun(tr: seq<Group>) {
    |tr| > 0 && Init(tr[0]) && forall k :: 0 <= k < |tr| - 1 ==> StepsAt(tr, k)
  }

  // ---- the invariant is kept -----------------------------------------------------

  lemma InitOk(g: Group)
    requires Init(g)
    ensures Inv(g)
  {
  }

  /** The entry `n` replays next from the log of `from`, whose state is `f`. */
  lemma NextMsgOk(i: NodeId, size: nat, n: Node, from: NodeId, f: Node, msg: Entry)
    requires NodeOk(i, size, n) && NodeOk(from, size, f) && LinkOk(i, from, n, f) && LinkOk(from, i, f, n)
    requires n.cur[from] < |f.site.log| && f.site.log[n.cur[from]] == msg
    ensures MsgOk(i, size, n, from, msg)
  {
    hide TableOk, StateOk, CleanOk, ReplayOk, AttemptsEnd, AttemptOk;
    var log, c := f.site.log, n.cur[from];
    assert EntryOk(from, log[c]);
    if msg.Acquire? && from in n.site.table {
      assert NoEnd(log, c, c);
      assert HoldsFully(n, from, Ddl);
      assert NoEnd(log, n.hist.src, c);
    }
  }

  lemma NextEntryOk(g: Group, i: NodeId, ev: Event)
    requires Inv(g) && i < |g| && Enabled(i, g[i], ev) && Available(g, i, ev)
    ensures EventOk(i, |g|, g[i], ev)
  {
    if ev.Deliver? {
      assert LinkOk(i, ev.from, g[i], g[ev.from]) && LinkOk(ev.from, i, g[ev.from], g[i]);
      assert NodeOk(ev.from, |g|, g[ev.from]) && NodeOk(i, |g|, g[i]);
      NextMsgOk(i, |g|, g[i], ev.from, g[ev.from], ev.msg);
    } else if ev.Count? && Open(g[i]) {
      assert NodeOk(i, |g|, g[i]);
      assert LinkOk(i, ev.peer, g[i], g[ev.peer]);
    }
  }

  /** Replaying an entry makes no replay request. */
  lemma ReceiveAsksNothing(i: NodeId, size: nat, n: Node, from: NodeId, msg: Entry, k: nat)
    requires from < |n.cur| && from < |n.pend|
    requires |n.site.log| <= k < |Receive(i, size, n, from, msg).site.log|
    ensures !Receive(i, size, n, from, msg).site.log[k].RequestReplay?
  {
  }

  /** A replay request is logged only with the position the step was given. */
  lemma AppendsFresh(i: NodeId, size: nat, n: Node, ev: Event, k: nat)
    requires Enabled(i, n, ev)
    requires |n.site.log| <= k < |Next(i, size, n, ev).site.log|
    requires Next(i, size, n, ev).site.log[k].RequestReplay?
    ensures k == |Next(i, size, n, ev).site.log| - 1
    ensures (ev.AskReplay? && Next(i, size, n, ev).site.log[k].lsn == ev.lsn)
         || (ev.Recover? && Next(i, size, n, ev).site.log[k].lsn == ev.rlsn)
  {
    hide Receive;
    if ev.Deliver? { ReceiveAsksNothing(i, size, n, ev.from, ev.msg, k); }
  }

  /** Entries in the log stay, but for one that is lost. */
  lemma OldEntries(i: NodeId, size: nat, n: Node, ev: Event)
    requires Enabled(i, n, ev)
    ensures var log, log' := n.site.log, Next(i, size, n, ev).site.log;
            forall k :: 0 <= k < |log| && k < |log'| ==> log'[k] == log[k]
  {
    hide Receive, Restart;
  }

  lemma AppendOnce(a: Node, a': Node)
    requires LsnsOnce(a) && forall k :: 0 <= k < |a.site.log| && k < |a'.site.log| ==> a'.site.log[k] == a.site.log[k]
    requires forall k :: |a.site.log| <= k < |a'.site.log| && a'.site.log[k].RequestReplay? ==>
               k == |a'.site.log| - 1 && forall l :: 0 <= l < |a.site.log| ==> a.site.log[l] != a'.site.log[k]
    ensures LsnsOnce(a')
  {
  }

  lemma AppendApart(a: Node, a': Node, b: Node)
    requires LsnsApart(a, b) && LsnsApart(b, a)
    requires forall k :: 0 <= k < |a.site.log| && k < |a'.site.log| ==> a'.site.log[k] == a.site.log[k]
    requires forall k :: |a.site.log| <= k < |a'.site.log| && a'.site.log[k].RequestReplay? ==>
               forall l :: 0 <= l < |b.site.log| ==> b.site.log[l] != a'.site.log[k]
    ensures LsnsApart(a', b) && LsnsApart(b, a')
  {
  }

  lemma LsnsKept(g: Group, g': Group, i: NodeId, ev: Event)
    requires Inv(g) && AnyStep(g, g', i, ev)
    ensures LsnsOnce(g'[i])
    ensures forall p :: 0 <= p < |g| && p != i ==> LsnsApart(g'[i], g'[p]) && LsnsApart(g'[p], g'[i])
  {
    hide NodeOk, GrantOk, LinkOk, LsnsOnce, LsnsApart, Exclusive, Next, Enabled;
    var log, log' := g[i].site.log, g'[i].site.log;
    OldEntries(i, |g|, g[i], ev);
    forall k | |log| <= k < |log'| && log'[k].RequestReplay?
      ensures k == |log'| - 1 && FreshLsn(g, log'[k].lsn)
    {
      AppendsFresh(i, |g|, g[i], ev, k);
    }
    AppendOnce(g[i], g'[i]);
    forall p | 0 <= p < |g| && p != i
      ensures LsnsApart(g'[i], g'[p]) && LsnsApart(g'[p], g'[i])
    {
      AppendApart(g[i], g'[i], g[p]);
    }
  }

  lemma SelfLinksKept(g: Group, g': Group, i: NodeId, ev: Event, p: NodeId)
    requires Inv(g) && Step(g, g', i, ev) && p < |g| && p != i
    ensures LinkOk(i, p, g'[i], g'[p])
  {
    NextEntryOk(g, i, ev);
    assert LinkOk(i, p, g[i], g[p]);
    SelfKept(i, p, |g|, g[i], g[p], ev);
  }

  /** A third node does not ask for the position `i` asked for. */
  lemma AnswersOwn(i: NodeId, size: nat, a: Node, c: Node, msg: Entry, k: nat)
    requires ReplayOk(i, size, a) && LsnsApart(a, c) && k < |c.site.log| && c.site.log[k] == msg
    ensures a.site.db.lsn != 0 ==> msg != RequestReplay(a.site.db.lsn)
  {
  }

  lemma OtherLinksKept(g: Group, g': Group, p: NodeId, ev: Event, i: NodeId)
    requires Inv(g) && AnyStep(g, g', p, ev) && i < |g| && p != i
    ensures LinkOk(i, p, g'[i], g'[p])
  {
    NextEntryOk(g, p, ev);
    assert LinkOk(i, p, g[i], g[p]);
    if ev.Deliver? && ev.from != i { AnswersOwn(i, |g|, g[i], g[ev.from], ev.msg, g[p].cur[ev.from]); }
    OtherKept(i, p, |g|, g[i], g[p], ev);
  }

  // ---- each grant logs at most one confirmation ------------------------------------

  /** Rows may go but do not change, and no confirmation is logged for one that stays. */
  lemma GrantQuiet(n: Node, n': Node)
    requires GrantOk(n) && n'.hist.grant == n.hist.grant && n.site.log <= n'.site.log
    requires forall h :: h in n'.site.table ==> h in n.site.table && n'.site.table[h].state == n.site.table[h].state
    requires forall k :: |n.site.log| <= k < |n'.site.log| ==> !n'.site.log[k].Confirm?
    ensures GrantOk(n')
  {
    var log, log', g := n.site.log, n'.site.log, n.hist.grant;
    forall h | h in n'.site.table
      ensures n'.site.table[h].state.RowAcquired? <==> exists k :: g <= k < |log'| && NamesHolder(log'[k], h)
    {
      if n.site.table[h].state.RowAcquired? {
        var k :| g <= k < |log| && NamesHolder(log[k], h);
        assert NamesHolder(log'[k], h);
      }
    }
  }

  lemma GrantConfirms(i: NodeId, size: nat, n: Node, n': Node)
    requires GrantOk(n) && n'.hist.grant == n.hist.grant
    requires TableOk(i, size, n.site.table) && n.site.db.holder.Some? && n.site.db.holder.value in n.site.table
    requires n.site.table[n.site.db.holder.value].state.RowCatchup?
    requires n'.site.table == SendConfirm(n.site).table && n'.site.log == SendConfirm(n.site).log
    ensures GrantOk(n')
  {
    var h := n.site.db.holder.value;
    assert NamesHolder(n'.site.log[|n.site.log|], h);
    assert forall k :: 0 <= k < |n.site.log| ==> n'.site.log[k] == n.site.log[k];
  }

  lemma GrantUnflushed(i: NodeId, size: nat, n: Node)
    requires CoreOk(i, size, n) && GrantOk(n) && Enabled(i, n, CrashUnflushed)
    ensures GrantOk(Next(i, size, n, CrashUnflushed))
  {
    var h, last := n.site.db.holder.value, |n.site.log| - 1;
    assert NamesHolder(n.site.log[last], h);
    assert n.hist.grant <= last;
  }

  lemma GrantReceive(i: NodeId, size: nat, n: Node, from: NodeId, msg: Entry)
    requires CoreOk(i, size, n) && GrantOk(n) && MayReceive(i, size, n, from, msg)
    ensures GrantOk(Receive(i, size, n, from, msg))
  {
    var n' := Receive(i, size, n, from, msg);
    if msg.ReplayConfirm? && ReachesQuorum(n.site, msg.rlsn) {
      GrantConfirms(i, size, n, n');
    } else if !(msg.Acquire? && GrantDecision(n.site, from, msg.ty) != Refuse) {
      GrantQuiet(n, n');
    }
  }

  lemma GrantWorker(i: NodeId, size: nat, n: Node)
    requires CoreOk(i, size, n) && GrantOk(n) && Enabled(i, n, ConfirmDdl)
    ensures GrantOk(Next(i, size, n, ConfirmDdl))
  {
    hide GrantOk;
    GrantConfirms(i, size, n, Next(i, size, n, ConfirmDdl));
  }

  lemma GrantRestart(i: NodeId, size: nat, n: Node, lsn: nat)
    requires CoreOk(i, size, n) && GrantOk(n) && Enabled(i, n, Recover(lsn))
    ensures GrantOk(Next(i, size, n, Recover(lsn)))
  {
    hide GrantOk;
    GrantQuiet(n, Next(i, size, n, Recover(lsn)));
  }

  lemma GrantKept(i: NodeId, size: nat, n: Node, ev: Event)
    requires CoreOk(i, size, n) && GrantOk(n) && EventOk(i, size, n, ev)
    ensures GrantOk(Next(i, size, n, ev))
  {
    hide GrantOk, CoreOk;
    match ev
    case Deliver(from, msg) => GrantReceive(i, size, n, from, msg);
    case CrashUnflushed => GrantUnflushed(i, size, n);
    case ConfirmDdl => GrantWorker(i, size, n);
    case Recover(lsn) => GrantRestart(i, size, n, lsn);
    case _ => GrantQuiet(n, Next(i, size, n, ev));
  }

  // ---- exclusion ----------------------------------------------------------------------

  lemma AcquiredBefore(i: NodeId, size: nat, n: Node, ev: Event)
    requires CoreOk(i, size, n) && EventOk(i, size, n, ev) && !ev.TallyDone?
    requires Next(i, size, n, ev).site.db.state.Acquired?
    ensures n.site.db.state.Acquired?
  {
  }

  /** A node completes its tally only when every peer is held for it. */
  lemma TallyMeansHeld(i: NodeId, p: NodeId, size: nat, a: Node, b: Node)
    requires NodeOk(i, size, a) && CoreOk(p, size, b) && i != p && LinkOk(i, p, a, b)
    requires Enabled(i, a, TallyDone)
    ensures HoldsFully(b, i, a.site.db.ty) && !b.site.db.state.Acquired?
  {
    assert p in Peers(i, size);
  }

  lemma ExclusiveKept(g: Group, g': Group, i: NodeId, ev: Event, p: NodeId)
    requires Inv(g) && Step(g, g', i, ev) && p < |g| && p != i
    ensures Exclusive(g'[i], g'[p])
  {
    assert LinkOk(i, p, g[i], g[p]) && Exclusive(g[i], g[p]);
    NextEntryOk(g, i, ev);
    if ev.TallyDone? {
      TallyMeansHeld(i, p, |g|, g[i], g[p]);
    } else if g'[i].site.db.state.Acquired? {
      AcquiredBefore(i, |g|, g[i], ev);
    }
  }

  lemma PairKept(g: Group, g': Group, i: NodeId, ev: Event, j: NodeId, p: NodeId)
    requires Inv(g) && Step(g, g', i, ev) && j < |g| && p < |g| && j != p
    ensures LinkOk(j, p, g'[j], g'[p]) && LsnsApart(g'[j], g'[p]) && Exclusive(g'[j], g'[p])
  {
    NextEntryOk(g, i, ev);
    LsnsKept(g, g', i, ev);
    assert LinkOk(j, p, g[j], g[p]) && LsnsApart(g[j], g[p]) && Exclusive(g[j], g[p]);
    if j == i { SelfLinksKept(g, g', i, ev, p); ExclusiveKept(g, g', i, ev, p); }
    else if p == i { OtherLinksKept(g, g', i, ev, j); ExclusiveKept(g, g', i, ev, j); }
  }

  lemma StepKeepsInv(g: Group, g': Group, i: NodeId, ev: Event)
    requires Inv(g) && Step(g, g', i, ev)
    ensures Inv(g')
  {
    NextEntryOk(g, i, ev);
    NodeKept(i, |g|, g[i], ev);
    GrantKept(i, |g|, g[i], ev);
    LsnsKept(g, g', i, ev);
    forall j, p | 0 <= j < |g| && 0 <= p < |g| && j != p
      ensures LinkOk(j, p, g'[j], g'[p]) && LsnsApart(g'[j], g'[p]) && Exclusive(g'[j], g'[p])
    {
      PairKept(g, g', i, ev, j, p);
    }
  }

  lemma {:induction false} RunInv(tr: seq<Group>, k: nat)
    requires IsRun(tr) && k < |tr|
    ensures Inv(tr[k]) && |tr[k]| == |tr[0]|
  {
    if k == 0 {
      InitOk(tr[0]);
    } else {
      RunInv(tr, k - 1);
      assert StepsAt(tr, k - 1);
      var i, ev :| Step(tr[k - 1], tr[k], i, ev);
      StepKeepsInv(tr[k - 1], tr[k], i, ev);
    }
  }

  /** Some run ends in `g`. */
  ghost predicate Reachable(g: Group) { exists tr :: IsRun(tr) && tr[|tr| - 1] == g }

  lemma ReachableInv(g: Group)
    requires Reachable(g)
    ensures Inv(g)
  {
    hide Inv;
    var tr :| IsRun(tr) && tr[|tr| - 1] == g;
    RunInv(tr, |tr| - 1);
  }
}

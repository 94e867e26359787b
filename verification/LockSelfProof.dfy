/** Every step of a requesting node keeps the invariant between it and every other
    node. */
module LockSelfProof {
  import opened Common
  import opened LockHandlers
  import opened LockProtocol
  import opened LockInvariant
  import opened LockNodeProof
  import opened LockLinkProof

  /** Nothing the other node `p` depends on changes: only entries that ask for nothing are
      logged. */
  ghost predicate QuietStep(p: NodeId, a: Node, a': Node)
    requires p < |a.cur| && p < |a.pend|
  {
    && |a'.cur| == |a.cur| && |a'.pend| == |a.pend| && a'.cur[p] == a.cur[p]
    && (a'.pend[p].ConfirmChecked? <==> a.pend[p].ConfirmChecked?)
    && NoNewRequest(a.site.log, a'.site.log)
    && a'.up == a.up && Open(a') == Open(a)
    && (Open(a) ==> a'.site.db.ty == a.site.db.ty && a'.hist.attempt == a.hist.attempt && a'.hist.acq == a.hist.acq
                    && (p in a'.hist.confirmedBy <==> p in a.hist.confirmedBy))
    && (a'.site.db.lsn != 0 ==> a'.site.db.lsn == a.site.db.lsn && a'.hist.req == a.hist.req
                                && (p in a'.hist.replayedBy <==> p in a.hist.replayedBy))
    && (a'.hist.full ==> a.hist.full && a'.hist.req == a.hist.req)
  }

  /** An answer logged behind the end of a hold does not wait for it. */
  lemma LateAnswer(i: NodeId, a: Node, a': Node, b: Node)
    requires i < |b.cur| && b.cur[i] <= |a.site.log| && a.site.log <= a'.site.log
    requires EndsFrom(a.site.log, b.cur[i]) && AnswerWaits(i, a', b)
    ensures AnswerWaits(i, a, b)
  {
    var k :| AnswerAt(i, a', b, k);
    var m :| b.cur[i] <= m < |a.site.log| && IsEnd(a.site.log[m]);
    assert IsEnd(a'.site.log[m]);
    NoEndGrows(a.site.log, a'.site.log, b.cur[i], k);
    assert AnswerAt(i, a, b, k);
  }

  lemma AnswerSameLog(i: NodeId, a: Node, a': Node, b: Node)
    requires i < |b.cur| && a'.site.log == a.site.log && AnswerWaits(i, a', b)
    ensures AnswerWaits(i, a, b)
  {
    var k :| AnswerAt(i, a', b, k);
    assert AnswerAt(i, a, b, k);
  }

  lemma RequestsApart(i: NodeId, p: NodeId, a: Node, a': Node, b: Node)
    requires i < |b.cur| && p < |a.cur| && p < |a.pend| && LinkOk(i, p, a, b)
    requires p < |a'.cur| && p < |a'.pend| && a'.cur[p] >= a.cur[p]
    requires NoConfirmPending(i, p, a, b) ==> NoConfirmPending(i, p, a', b)
    requires NoNewRequest(a.site.log, a'.site.log)
    ensures RequestOk(i, p, a', b)
  {
    var log, log' := a.site.log, a'.site.log;
    forall k, l | b.cur[i] <= k < l < |log'| && log'[k].Acquire? && log'[l].Acquire? ensures !NoEnd(log', k, l) {
      NoEndGrows(log, log', k, l);
      assert log[k].Acquire? && log[l].Acquire?;
    }
    forall k | b.cur[i] <= k < |log'| && log'[k].Acquire? && NoEnd(log', b.cur[i], k) && i in b.site.table
      ensures HoldsFully(b, i, Ddl) && NoConfirmPending(i, p, a', b)
    {
      NoEndGrows(log, log', b.cur[i], k);
      assert log[k].Acquire?;
    }
  }

  lemma StaleFreeKept(i: NodeId, p: NodeId, a: Node, a': Node, b: Node)
    requires i < |b.cur| && p < |a.cur| && p < |a.pend| && LinkOk(i, p, a, b) && QuietStep(p, a, a')
    ensures StaleFree(i, a', b)
  {
    if Open(a) && b.cur[i] <= a.hist.attempt {
      if RowCanConfirm(i, a', b, a.site.db.ty) && AnswerWaits(i, a', b) { LateAnswer(i, a, a', b); }
    }
  }

  lemma SelfQuiet(i: NodeId, p: NodeId, a: Node, a': Node, b: Node)
    requires i < |b.cur| && p < |a.cur| && p < |a.pend| && LinkOk(i, p, a, b) && QuietStep(p, a, a')
    ensures LinkOk(i, p, a', b)
  {
    RequestsApart(i, p, a, a', b);
    StaleFreeKept(i, p, a, a', b);
    if i in b.site.table { NoEndGrows(a.site.log, a'.site.log, b.hist.base, b.cur[i]); }
    if EndsFrom(a.site.log, b.cur[i]) { EndsFromGrows(a.site.log, a'.site.log, b.cur[i]); }
  }

  // ---- requests -----------------------------------------------------------------------

  /** A new attempt: every earlier request has ended. */
  lemma SelfBegins(i: NodeId, p: NodeId, size: nat, a: Node, b: Node, ev: Event)
    requires NodeOk(i, size, a) && |b.cur| == size && p < size && p != i && LinkOk(i, p, a, b)
    requires ev.BeginAttempt? && Enabled(i, a, ev) && !CanMislead(i, p, a, b, ev.ty)
    ensures LinkOk(i, p, Next(i, size, a, ev), b)
  {
    hide UpgradesOnly, TableOk, StateOk, CleanOk, ReplayOk, AttemptLog, LogOk;
    var a', log := Next(i, size, a, ev), a.site.log;
    var log' := a'.site.log;
    assert a.up && !Open(a);
    assert forall k :: 0 <= k < |log| ==> log'[k] == log[k];
    if i in b.site.table { NoEndGrows(log, log', b.hist.base, b.cur[i]); EndsFromGrows(log, log', b.cur[i]); }
    forall k, l | b.cur[i] <= k < l < |log'| && log'[k].Acquire? && log'[l].Acquire? ensures !NoEnd(log', k, l) {
      assert log[k].Acquire?;
      var m :| k <= m < |log| && IsEnd(log[m]);
      assert IsEnd(log'[m]);
      NoEndGrows(log, log', k, if l < |log| then l else |log|);
    }
    if RowCanConfirm(i, a', b, ev.ty) && AnswerWaits(i, a', b) { LateAnswer(i, a, a', b); }
  }

  /** An upgrade: every peer is held for the lock this node has. */
  lemma SelfUpgrades(i: NodeId, p: NodeId, size: nat, a: Node, b: Node, ev: Event)
    requires NodeOk(i, size, a) && |b.cur| == size && p < size && p != i && LinkOk(i, p, a, b)
    requires ev.BeginUpgrade? && Enabled(i, a, ev)
    ensures LinkOk(i, p, Next(i, size, a, ev), b)
  {
    hide UpgradesOnly, TableOk, CleanOk, ReplayOk, LogOk, AttemptsEnd;
    var a', log := Next(i, size, a, ev), a.site.log;
    var log' := a'.site.log;
    assert p in a.hist.confirmedBy;
    SrcOfOpen(i, p, size, a, b);
    assert forall k :: 0 <= k < |log| ==> log'[k] == log[k];
    NoEndGrows(log, log', b.hist.base, b.cur[i]);
    assert forall k :: b.cur[i] <= k < |log| ==> !log'[k].Acquire?;
  }

  lemma SelfEnds(i: NodeId, p: NodeId, size: nat, a: Node, b: Node, ev: Event)
    requires NodeOk(i, size, a) && |b.cur| == size && p < size && p != i && LinkOk(i, p, a, b)
    requires ev.LogRelease? || ev.Crash?
    requires Enabled(i, a, ev)
    ensures LinkOk(i, p, Next(i, size, a, ev), b)
  {
    var a' := Next(i, size, a, ev);
    RequestsApart(i, p, a, a', b);
    if i in b.site.table { NoEndGrows(a.site.log, a'.site.log, b.hist.base, b.cur[i]); }
    if ev.LogRelease? { EndAppended(a.site.log, Release(i), b.cur[i]); }
  }

  // ---- the replay request ----------------------------------------------------------------

  lemma SelfAsks(i: NodeId, p: NodeId, size: nat, a: Node, b: Node, ev: Event)
    requires NodeOk(i, size, a) && |b.cur| == size && p < size && p != i && LinkOk(i, p, a, b)
    requires ev.AskReplay? && Enabled(i, a, ev) && NoAnswer(b.site.log, ev.lsn)
    ensures LinkOk(i, p, Next(i, size, a, ev), b)
  {
    var a' := Next(i, size, a, ev);
    var a1 := a'.(site := a'.site.(db := a'.site.db.(lsn := 0)));
    SelfQuiet(i, p, a, a1, b);
  }

  lemma SelfRecovers(i: NodeId, p: NodeId, size: nat, a: Node, b: Node, lsn: nat)
    requires NodeOk(i, size, a) && |b.cur| == size && p < size && p != i && LinkOk(i, p, a, b)
    requires Enabled(i, a, Recover(lsn)) && NoAnswer(b.site.log, lsn)
    ensures LinkOk(i, p, Next(i, size, a, Recover(lsn)), b)
  {
    hide UpgradesOnly, TableOk, CleanOk, ReplayOk, LogOk, AttemptsEnd, AttemptOk;
    var a' := Next(i, size, a, Recover(lsn));
    var log, log' := a.site.log, a'.site.log;
    EndAppended(log, Start, b.cur[i]);
    assert log + [Start] <= log';
    EndsFromGrows(log + [Start], log', b.cur[i]);
    RequestsApart(i, p, a, a', b);
    if i in b.site.table { NoEndGrows(log, log', b.hist.base, b.cur[i]); }
  }

  lemma SelfLosesConfirm(i: NodeId, p: NodeId, size: nat, a: Node, b: Node)
    requires NodeOk(i, size, a) && |b.cur| == size && p < size && p != i && LinkOk(i, p, a, b)
    requires Enabled(i, a, CrashUnflushed) && b.cur[i] < |a.site.log|
    ensures LinkOk(i, p, Next(i, size, a, CrashUnflushed), b)
  {
    hide UpgradesOnly, TableOk, StateOk, CleanOk, ReplayOk, LogOk, AttemptsEnd, AttemptOk;
    var a' := Next(i, size, a, CrashUnflushed);
    var log, log' := a.site.log, a'.site.log;
    assert log' <= log && forall k :: 0 <= k < |log'| ==> log'[k] == log[k];
    forall k: nat, l: nat | k <= l <= |log'| ensures NoEnd(log', k, l) <==> NoEnd(log, k, l) {
      NoEndGrows(log', log, k, l);
    }
  }

  // ---- replaying the log of `p` or of a third node ------------------------------------------

  /** Everybody has answered, `p` among them. */
  lemma QuorumCovers(i: NodeId, p: NodeId, size: nat, a: Node, b: Node, from: NodeId, lsn: nat)
    requires i < |b.cur| && p < |a.cur| && p < |a.pend| && LinkOk(i, p, a, b)
    requires p < size && p != i && a.site.db.lsn == lsn != 0
    requires a.hist.replayedBy + {from} == Peers(i, size)
    requires from == p ==> a.cur[p] < |b.site.log| && b.site.log[a.cur[p]] == ReplayConfirm(lsn)
    ensures a.hist.req < b.cur[i]
  {
    assert p in Peers(i, size);
  }

  lemma SelfFull(i: NodeId, p: NodeId, a: Node, b: Node)
    requires i < |b.cur| && p < |a.cur| && p < |a.pend| && LinkOk(i, p, a.(hist := a.hist.(full := false)), b)
    requires a.hist.full ==> a.hist.req < b.cur[i]
    ensures LinkOk(i, p, a, b)
  {
    var a1 := a.(hist := a.hist.(full := false));
    if AnswerWaits(i, a, b) { AnswerSameLog(i, a1, a, b); }
  }

  /** The confirmation this node logs when its replay quorum is reached. */
  lemma SelfQuorum(i: NodeId, p: NodeId, size: nat, a: Node, b: Node, from: NodeId, lsn: nat)
    requires NodeOk(i, size, a) && |b.cur| == size && p < size && p != i && LinkOk(i, p, a, b)
    requires MayReceive(i, size, a, from, ReplayConfirm(lsn)) && ReachesQuorum(a.site, lsn)
    requires from == p ==> a.cur[p] < |b.site.log| && b.site.log[a.cur[p]] == ReplayConfirm(lsn)
    ensures LinkOk(i, p, Receive(i, size, a, from, ReplayConfirm(lsn)), b)
  {
    hide LinkOk, Peers, UpgradesOnly, TableOk, CleanOk, ReplayOk, LogOk, AttemptsEnd, AttemptOk;
    var a' := Receive(i, size, a, from, ReplayConfirm(lsn));
    var a1 := a.(cur := a'.cur);
    if from == p { SelfAdvances(i, p, a, a1, b); } else { SelfQuiet(i, p, a, a1, b); }
    SelfQuiet(i, p, a1, a'.(hist := a'.hist.(full := false)), b);
    if a'.hist.full { QuorumCovers(i, p, size, a, b, from, lsn); }
    SelfFull(i, p, a', b);
  }

  lemma SelfReceivesThird(i: NodeId, p: NodeId, size: nat, a: Node, b: Node, from: NodeId, msg: Entry)
    requires NodeOk(i, size, a) && |b.cur| == size && p < size && p != i && LinkOk(i, p, a, b)
    requires MayReceive(i, size, a, from, msg) && from != p
    ensures LinkOk(i, p, Receive(i, size, a, from, msg), b)
  {
    hide LinkOk, UpgradesOnly, TableOk, CleanOk, ReplayOk, LogOk, AttemptsEnd, AttemptOk;
    if msg.ReplayConfirm? && ReachesQuorum(a.site, msg.rlsn) {
      SelfQuorum(i, p, size, a, b, from, msg.rlsn);
    } else {
      SelfQuiet(i, p, a, Receive(i, size, a, from, msg), b);
    }
  }

  /** Replaying an entry of `p` that is neither checked as a confirmation nor counted as an
      answer. */
  lemma SelfAdvances(i: NodeId, p: NodeId, a: Node, a': Node, b: Node)
    requires i < |b.cur| && p < |a.cur| && p < |a.pend| && LinkOk(i, p, a, b)
    requires a.cur[p] < |b.site.log| && a' == a.(cur := a.cur[p := a.cur[p] + 1])
    ensures LinkOk(i, p, a', b)
  {
    if AnswerWaits(i, a', b) { AnswerSameLog(i, a, a', b); }
  }

  lemma SelfChecks(i: NodeId, p: NodeId, size: nat, a: Node, b: Node, msg: Entry)
    requires NodeOk(i, size, a) && |b.cur| == size && p < size && p != i && LinkOk(i, p, a, b)
    requires MayReceive(i, size, a, p, msg)
    requires a.cur[p] < |b.site.log| && b.site.log[a.cur[p]] == msg
    requires msg.Confirm? && ChecksConfirm(a.site, i, msg.holder, msg.cty)
    ensures LinkOk(i, p, Receive(i, size, a, p, msg), b)
  {
    hide NodeOk;
    assert NamesHolder(msg, i);
    assert !NoConfirmPending(i, p, a, b);
    if Open(a) { assert Matches(i, a, b.site.log[a.cur[p]]); }
  }

  lemma SelfCountsReplay(i: NodeId, p: NodeId, size: nat, a: Node, b: Node, lsn: nat)
    requires NodeOk(i, size, a) && |b.cur| == size && p < size && p != i && LinkOk(i, p, a, b)
    requires MayReceive(i, size, a, p, ReplayConfirm(lsn)) && !ReachesQuorum(a.site, lsn)
    requires a.cur[p] < |b.site.log| && b.site.log[a.cur[p]] == ReplayConfirm(lsn)
    ensures LinkOk(i, p, Receive(i, size, a, p, ReplayConfirm(lsn)), b)
  {
    hide UpgradesOnly, TableOk, StateOk, CleanOk, ReplayOk, LogOk, AttemptsEnd, AttemptOk;
    var a' := Receive(i, size, a, p, ReplayConfirm(lsn));
    if AnswerWaits(i, a', b) { AnswerSameLog(i, a, a', b); }
  }

  lemma SelfReceivesOwn(i: NodeId, p: NodeId, size: nat, a: Node, b: Node, msg: Entry)
    requires NodeOk(i, size, a) && |b.cur| == size && p < size && p != i && LinkOk(i, p, a, b)
    requires MayReceive(i, size, a, p, msg)
    requires a.cur[p] < |b.site.log| && b.site.log[a.cur[p]] == msg
    ensures LinkOk(i, p, Receive(i, size, a, p, msg), b)
  {
    hide LinkOk, UpgradesOnly, TableOk, CleanOk, ReplayOk, LogOk, AttemptsEnd, AttemptOk;
    if msg.ReplayConfirm? {
      if ReachesQuorum(a.site, msg.rlsn) { SelfQuorum(i, p, size, a, b, p, msg.rlsn); }
      else { SelfCountsReplay(i, p, size, a, b, msg.rlsn); }
    } else if msg.Confirm? && ChecksConfirm(a.site, i, msg.holder, msg.cty) {
      SelfChecks(i, p, size, a, b, msg);
    } else {
      var a' := Receive(i, size, a, p, msg);
      var a1 := a.(cur := a'.cur);
      SelfAdvances(i, p, a, a1, b);
      SelfQuiet(i, p, a1, a', b);
    }
  }

  /** Counting what the worker for `peer` has checked. */
  lemma SelfCounts(i: NodeId, p: NodeId, size: nat, a: Node, b: Node, peer: NodeId)
    requires NodeOk(i, size, a) && |b.cur| == size && p < size && p != i && LinkOk(i, p, a, b)
    requires Enabled(i, a, Count(peer))
    ensures LinkOk(i, p, CountPending(a, peer), b)
  {
    hide UpgradesOnly, TableOk, StateOk, CleanOk, ReplayOk, LogOk, AttemptsEnd, AttemptOk;
    var a' := CountPending(a, peer);
    if peer == p && a.pend[p].ConfirmChecked? {
      assert !NoConfirmPending(i, p, a, b);
      if AnswerWaits(i, a', b) { AnswerSameLog(i, a, a', b); }
    } else {
      SelfQuiet(i, p, a, a', b);
    }
  }

  lemma SelfLocal(i: NodeId, p: NodeId, size: nat, a: Node, b: Node, ev: Event)
    requires NodeOk(i, size, a) && |b.cur| == size && p < size && p != i && LinkOk(i, p, a, b)
    requires Enabled(i, a, ev)
    requires !ev.BeginAttempt? && !ev.BeginUpgrade? && !ev.LogRelease? && !ev.Crash? && !ev.Count?
    requires !ev.AskReplay? && !ev.Recover? && !ev.Deliver? && !ev.CrashUnflushed?
    ensures LinkOk(i, p, Next(i, size, a, ev), b)
  {
    hide LinkOk, UpgradesOnly, TableOk, CleanOk, ReplayOk, LogOk, AttemptsEnd, AttemptOk;
    SelfQuiet(i, p, a, Next(i, size, a, ev), b);
  }

  /** What the rest of the group grants a step of `i`, seen from `p`. */
  ghost predicate SelfReady(i: NodeId, p: NodeId, a: Node, b: Node, ev: Event)
    requires i < |b.cur| && p < |a.cur| && p < |a.pend|
  {
    && (ev.BeginAttempt? ==> !CanMislead(i, p, a, b, ev.ty))
    && (ev.AskReplay? ==> NoAnswer(b.site.log, ev.lsn))
    && (ev.Recover? ==> NoAnswer(b.site.log, ev.rlsn))
    && (ev.CrashUnflushed? ==> b.cur[i] < |a.site.log|)
    && (ev.Deliver? && ev.from == p ==> a.cur[p] < |b.site.log| && b.site.log[a.cur[p]] == ev.msg)
  }

  lemma SelfKept(i: NodeId, p: NodeId, size: nat, a: Node, b: Node, ev: Event)
    requires NodeOk(i, size, a) && |b.cur| == size && p < size && p != i && LinkOk(i, p, a, b)
    requires EventOk(i, size, a, ev) && SelfReady(i, p, a, b, ev)
    ensures LinkOk(i, p, Next(i, size, a, ev), b)
  {
    hide LinkOk, NodeOk, CanMislead;
    match ev
    case BeginAttempt(_, _) => SelfBegins(i, p, size, a, b, ev);
    case BeginUpgrade(_) => SelfUpgrades(i, p, size, a, b, ev);
    case LogRelease => SelfEnds(i, p, size, a, b, ev);
    case Crash => SelfEnds(i, p, size, a, b, ev);
    case AskReplay(_) => SelfAsks(i, p, size, a, b, ev);
    case Recover(lsn) => SelfRecovers(i, p, size, a, b, lsn);
    case CrashUnflushed => SelfLosesConfirm(i, p, size, a, b);
    case Count(peer) => SelfCounts(i, p, size, a, b, peer);
    case Deliver(from, msg) =>
      if from == p { SelfReceivesOwn(i, p, size, a, b, msg); }
      else { SelfReceivesThird(i, p, size, a, b, from, msg); }
    case _ => SelfLocal(i, p, size, a, b, ev);
  }
}

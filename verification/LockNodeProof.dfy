/** Every step keeps the invariant of the node that takes it. */
module LockNodeProof {
  import opened Common
  import opened LockHandlers
  import opened LockProtocol
  import opened LockInvariant

  /** What the pair invariant says about the entry a node replays next. */
  ghost predicate MsgOk(i: NodeId, size: nat, n: Node, from: NodeId, msg: Entry) {
    && from < size && from < |n.cur|
    && EntryOk(from, msg)
    && (msg.Acquire? && from in n.site.table ==>
          n.site.table[from] == Row(Ddl, RowAcquired) && msg.ty == Write && n.hist.base <= n.hist.src < n.cur[from])
    && (n.site.db.lsn != 0 && msg == ReplayConfirm(n.site.db.lsn) ==> from !in n.hist.replayedBy)
  }

  /** The apply worker for `from` is free to replay `msg`. */
  ghost predicate MayReceive(i: NodeId, size: nat, n: Node, from: NodeId, msg: Entry) {
    Enabled(i, n, Deliver(from, msg)) && MsgOk(i, size, n, from, msg)
  }

  ghost predicate EventOk(i: NodeId, size: nat, n: Node, ev: Event) {
    && Enabled(i, n, ev)
    && (ev.Deliver? ==> MsgOk(i, size, n, ev.from, ev.msg))
    && (ev.Count? && Open(n) && n.pend[ev.peer].ConfirmChecked? ==> ev.peer !in n.hist.confirmedBy)
  }

  // ---- logs ----------------------------------------------------------------------

  lemma EndsFromGrows(log: seq<Entry>, log': seq<Entry>, from: nat)
    requires log <= log' && EndsFrom(log, from)
    ensures EndsFrom(log', from)
  {
    var m :| from <= m < |log| && IsEnd(log[m]);
    assert log'[m] == log[m];
  }

  lemma EndAppended(log: seq<Entry>, e: Entry, from: nat)
    requires IsEnd(e) && from <= |log|
    ensures EndsFrom(log + [e], from)
  {
    assert (log + [e])[|log|] == e;
  }

  lemma NoEndGrows(log: seq<Entry>, log': seq<Entry>, lo: nat, hi: nat)
    requires log <= log' && hi <= |log|
    ensures NoEnd(log', lo, hi) <==> NoEnd(log, lo, hi)
  {
    assert forall m :: 0 <= m < |log| ==> log'[m] == log[m];
  }

  lemma FullSubset(s: set<NodeId>, t: set<NodeId>)
    requires s <= t && |s| >= |t|
    ensures s == t
  {
    if s != t {
      var x :| x in t && x !in s;
      FullSubset(s, t - {x});
    }
  }

  ghost predicate NoNewRequest(log: seq<Entry>, log': seq<Entry>) {
    log <= log' && forall k :: |log| <= k < |log'| ==> !log'[k].Acquire?
  }

  lemma UpgradesAppend(log: seq<Entry>, log': seq<Entry>)
    requires UpgradesOnly(log) && NoNewRequest(log, log')
    ensures UpgradesOnly(log')
  {
    forall k, l | 0 <= k < l < |log'| && log'[k].Acquire? && log'[l].Acquire? && NoEnd(log', k, l)
      ensures log'[k] == Acquire(Ddl) && log'[l] == Acquire(Write)
    {
      NoEndGrows(log, log', k, l);
      assert log[k] == log'[k] && log[l] == log'[l];
    }
  }

  lemma UpgradesPrefix(log: seq<Entry>, n: nat)
    requires UpgradesOnly(log) && n <= |log|
    ensures UpgradesOnly(log[..n])
  {
    forall k, l | 0 <= k < l < n && log[k].Acquire? && log[l].Acquire? && NoEnd(log[..n], k, l)
      ensures log[k] == Acquire(Ddl) && log[l] == Acquire(Write)
    {
      NoEndGrows(log[..n], log, k, l);
    }
  }

  lemma RequestsEndAppend(log: seq<Entry>, log': seq<Entry>, open: bool, attempt: nat)
    requires RequestsEnd(log, open, attempt) && NoNewRequest(log, log')
    ensures RequestsEnd(log', open, attempt)
  {
    forall k | 0 <= k < |log'| && log'[k].Acquire? ensures (open && attempt <= k) || EndsFrom(log', k) {
      assert log[k] == log'[k];
      if !(open && attempt <= k) { EndsFromGrows(log, log', k); }
    }
  }

  lemma AttemptLogAppend(log: seq<Entry>, log': seq<Entry>, attempt: nat, acq: nat, ty: LockType)
    requires AttemptLog(log, attempt, acq, ty) && NoNewRequest(log, log')
    requires forall k :: |log| <= k < |log'| ==> !IsEnd(log'[k])
    ensures AttemptLog(log', attempt, acq, ty)
  {
    assert forall k :: 0 <= k < |log| ==> log'[k] == log[k];
  }

  /** One entry, neither a request nor an end, appended to the log of a running node. */
  lemma LogsAppend(i: NodeId, size: nat, n: Node, e: Entry)
    requires NodeOk(i, size, n) && n.up && !e.Acquire? && !IsEnd(e) && EntryOk(i, e)
    ensures var log' := n.site.log + [e];
            && LogOk(i, log') && UpgradesOnly(log') && RequestsEnd(log', Open(n), n.hist.attempt)
            && (Open(n) ==> AttemptLog(log', n.hist.attempt, n.hist.acq, n.site.db.ty))
  {
    var log, log' := n.site.log, n.site.log + [e];
    UpgradesAppend(log, log');
    RequestsEndAppend(log, log', Open(n), n.hist.attempt);
    if Open(n) { AttemptLogAppend(log, log', n.hist.attempt, n.hist.acq, n.site.db.ty); }
  }

  // ---- the requesting backend ------------------------------------------------------

  /** A request before the open attempt, or any one without an open attempt, has ended. */
  lemma OlderEnded(i: NodeId, size: nat, n: Node, k: nat)
    requires AttemptsEnd(n) && AttemptOk(i, size, n) && n.up && k < |n.site.log| && n.site.log[k].Acquire?
    requires !Open(n) || k < n.hist.attempt
    ensures !NoEnd(n.site.log, k, if Open(n) then n.hist.attempt else |n.site.log|)
  {
    assert EndsFrom(n.site.log, k);
    var m :| k <= m < |n.site.log| && IsEnd(n.site.log[m]);
  }

  lemma OlderEndedIfAny(i: NodeId, size: nat, n: Node, k: nat)
    requires AttemptsEnd(n) && AttemptOk(i, size, n) && n.up && k < |n.site.log| && n.site.log[k].Acquire?
    ensures (Open(n) && n.hist.attempt <= k) || !NoEnd(n.site.log, k, |n.site.log|)
  {
    if !Open(n) || k < n.hist.attempt { OlderEnded(i, size, n, k); }
  }

  lemma BeginUpgradesOnly(i: NodeId, size: nat, n: Node, ev: Event)
    requires NodeOk(i, size, n) && EventOk(i, size, n, ev)
    requires ev.BeginAttempt? || ev.BeginUpgrade?
    ensures UpgradesOnly(Next(i, size, n, ev).site.log)
  {
    var log, log' := n.site.log, Next(i, size, n, ev).site.log;
    forall k, l | 0 <= k < l < |log'| && log'[k].Acquire? && log'[l].Acquire? && NoEnd(log', k, l)
      ensures log'[k] == Acquire(Ddl) && log'[l] == Acquire(Write)
    {
      if l < |log| {
        NoEndGrows(log, log', k, l);
        assert log[k] == log'[k] && log[l] == log'[l];
      } else {
        assert log[k] == log'[k];
        NoEndGrows(log, log', k, |log|);
        OlderEndedIfAny(i, size, n, k);
      }
    }
  }

  lemma KeptBegin(i: NodeId, size: nat, n: Node, ev: Event)
    requires NodeOk(i, size, n) && EventOk(i, size, n, ev)
    requires ev.BeginAttempt? || ev.BeginUpgrade?
    ensures NodeOk(i, size, Next(i, size, n, ev))
  {
    var n' := Next(i, size, n, ev);
    var log, log' := n.site.log, n'.site.log;
    BeginUpgradesOnly(i, size, n, ev);
    assert forall k :: 0 <= k < |log| ==> log'[k] == log[k];
    forall k | 0 <= k < |log'| && log'[k].Acquire?
      ensures (Open(n') && n'.hist.attempt <= k) || EndsFrom(log', k)
    {
      if k < |log| {
        assert log[k] == log'[k];
        if !(Open(n) && n.hist.attempt <= k) { EndsFromGrows(log, log', k); }
      }
    }
  }

  lemma KeptTally(i: NodeId, size: nat, n: Node, ev: Event)
    requires NodeOk(i, size, n) && Enabled(i, n, ev) && (ev.TallyCheck? || ev.TallyDone?)
    ensures NodeOk(i, size, Next(i, size, n, ev))
  {
    if ev.TallyCheck? { FullSubset(n.hist.confirmedBy, Peers(i, size)); }
  }

  lemma KeptRelease(i: NodeId, size: nat, n: Node, ev: Event)
    requires NodeOk(i, size, n) && EventOk(i, size, n, ev)
    requires ev.LogRelease? || ev.ClearLocal?
    ensures NodeOk(i, size, Next(i, size, n, ev))
  {
    var log := n.site.log;
    if ev.LogRelease? {
      UpgradesAppend(log, log + [Release(i)]);
      forall k | 0 <= k < |log| ensures EndsFrom(log + [Release(i)], k) { EndAppended(log, Release(i), k); }
    }
  }

  // ---- the apply worker inside an ACQUIRE handler ----------------------------------

  lemma KeptWorkerCore(i: NodeId, size: nat, n: Node, ev: Event)
    requires CoreOk(i, size, n) && Enabled(i, n, ev)
    requires ev.ConfirmDdl? || ev.CancelStart? || ev.CancelFail? || ev.CancelDone? || ev.Raise? || ev.AskReplay?
    ensures CoreOk(i, size, Next(i, size, n, ev))
  {
  }

  lemma KeptWorker(i: NodeId, size: nat, n: Node, ev: Event)
    requires NodeOk(i, size, n) && EventOk(i, size, n, ev)
    requires ev.ConfirmDdl? || ev.CancelStart? || ev.CancelFail? || ev.CancelDone? || ev.Raise? || ev.AskReplay?
    ensures NodeOk(i, size, Next(i, size, n, ev))
  {
    hide UpgradesOnly, RequestsEnd, AttemptLog, LogOk;
    KeptWorkerCore(i, size, n, ev);
    var s := n.site;
    if ev.ConfirmDdl? { LogsAppend(i, size, n, Confirm(s.db.holder.value, s.db.ty)); }
    if ev.CancelFail? { LogsAppend(i, size, n, Decline(s.db.holder.value, Write)); }
    if ev.AskReplay? { LogsAppend(i, size, n, RequestReplay(ev.lsn)); }
  }

  // ---- counting, writers, crash and restart --------------------------------------------

  lemma KeptCountCore(i: NodeId, size: nat, n: Node, peer: NodeId)
    requires CoreOk(i, size, n) && Enabled(i, n, Count(peer))
    ensures CoreOk(i, size, CountPending(n, peer)) && peer < size && peer != i && Open(CountPending(n, peer)) == Open(n)
  {
    hide PeerOk, TableOk;
  }

  lemma AddPeer(s: set<NodeId>, x: NodeId, i: NodeId, size: nat)
    requires s <= Peers(i, size) && x !in s && x < size && x != i
    ensures |s + {x}| == |s| + 1 && s + {x} <= Peers(i, size)
  {
    assert x in AllNodes(size);
  }

  lemma KeptCount(i: NodeId, size: nat, n: Node, peer: NodeId)
    requires NodeOk(i, size, n) && EventOk(i, size, n, Count(peer))
    ensures NodeOk(i, size, CountPending(n, peer))
  {
    hide UpgradesOnly, RequestsEnd, AttemptLog, LogOk, Peers, NoChangeAfter, PeerOk, TableOk;
    KeptCountCore(i, size, n, peer);
    if Open(n) && n.pend[peer].ConfirmChecked? { AddPeer(n.hist.confirmedBy, peer, i, size); }
  }

  lemma KeptWriters(i: NodeId, size: nat, n: Node, ev: Event)
    requires NodeOk(i, size, n) && EventOk(i, size, n, ev)
    requires ev.OpenWrite? || ev.CommitWrite? || ev.AbortWrite?
    ensures NodeOk(i, size, Next(i, size, n, ev))
  {
    hide UpgradesOnly, RequestsEnd, AttemptLog, LogOk;
    if ev.CommitWrite? { LogsAppend(i, size, n, Change); }
  }

  lemma KeptCrash(i: NodeId, size: nat, n: Node, ev: Event)
    requires NodeOk(i, size, n) && EventOk(i, size, n, ev)
    requires ev.Crash? || ev.LearnPeers?
    ensures NodeOk(i, size, Next(i, size, n, ev))
  {
    hide UpgradesOnly, RequestsEnd, AttemptLog, LogOk;
  }

  lemma KeptUnflushed(i: NodeId, size: nat, n: Node)
    requires NodeOk(i, size, n) && Enabled(i, n, CrashUnflushed)
    ensures NodeOk(i, size, Next(i, size, n, CrashUnflushed))
  {
    hide UpgradesOnly, RequestsEnd, AttemptLog;
    UpgradesPrefix(n.site.log, |n.site.log| - 1);
  }

  lemma KeptRecoverCore(i: NodeId, size: nat, n: Node, lsn: nat)
    requires CoreOk(i, size, n) && Enabled(i, n, Recover(lsn))
    ensures CoreOk(i, size, Next(i, size, n, Recover(lsn)))
  {
  }

  lemma KeptRecover(i: NodeId, size: nat, n: Node, lsn: nat)
    requires NodeOk(i, size, n) && Enabled(i, n, Recover(lsn))
    ensures NodeOk(i, size, Next(i, size, n, Recover(lsn)))
  {
    KeptRecoverCore(i, size, n, lsn);
    var log, log' := n.site.log, Next(i, size, n, Recover(lsn)).site.log;
    UpgradesAppend(log, log');
    forall k | 0 <= k < |log| ensures EndsFrom(log', k) {
      EndAppended(log, Start, k);
      EndsFromGrows(log + [Start], log', k);
    }
  }

  // ---- replayed entries --------------------------------------------------------------

  lemma KeptReceiveCore(i: NodeId, size: nat, n: Node, from: NodeId, msg: Entry)
    requires CoreOk(i, size, n) && MayReceive(i, size, n, from, msg) && !msg.ReplayConfirm? && !msg.Acquire?
    ensures CoreOk(i, size, Receive(i, size, n, from, msg))
  {
  }

  lemma KeptReplayCore(i: NodeId, size: nat, n: Node, from: NodeId, lsn: nat)
    requires CoreOk(i, size, n) && MayReceive(i, size, n, from, ReplayConfirm(lsn))
    ensures CoreOk(i, size, Receive(i, size, n, from, ReplayConfirm(lsn)))
  {
  }

  lemma KeptAcquireCore(i: NodeId, size: nat, n: Node, from: NodeId, t: LockType)
    requires CoreOk(i, size, n) && MayReceive(i, size, n, from, Acquire(t))
    ensures CoreOk(i, size, Receive(i, size, n, from, Acquire(t)))
  {
  }

  lemma ReceiveLogs(i: NodeId, size: nat, n: Node, from: NodeId, msg: Entry)
    requires NodeOk(i, size, n) && MayReceive(i, size, n, from, msg)
    ensures var n' := Receive(i, size, n, from, msg);
            && LogOk(i, n'.site.log) && UpgradesOnly(n'.site.log) && RequestsEnd(n'.site.log, Open(n), n.hist.attempt)
            && (Open(n) ==> AttemptLog(n'.site.log, n.hist.attempt, n.hist.acq, n.site.db.ty))
  {
    hide UpgradesOnly, RequestsEnd, AttemptLog, LogOk;
    var n', s := Receive(i, size, n, from, msg), n.site;
    if n'.site.log != s.log {
      var e := n'.site.log[|s.log|];
      assert n'.site.log == s.log + [e];
      LogsAppend(i, size, n, e);
    }
  }

  /** Replaying an entry leaves an open attempt alone. */
  lemma ReceiveOpen(i: NodeId, size: nat, n: Node, from: NodeId, msg: Entry)
    requires CoreOk(i, size, n) && MayReceive(i, size, n, from, msg)
    ensures var n' := Receive(i, size, n, from, msg);
            && Open(n') == Open(n) && n'.passed == n.passed
            && n'.hist.attempt == n.hist.attempt && n'.hist.acq == n.hist.acq && n'.hist.confirmedBy == n.hist.confirmedBy
            && (Open(n) ==> n'.site.db == n.site.db && n'.site.table == n.site.table)
  {
  }

  lemma ReceiveReplay(i: NodeId, size: nat, n: Node, from: NodeId, msg: Entry)
    requires NodeOk(i, size, n) && MayReceive(i, size, n, from, msg)
    ensures ReplayOk(i, size, Receive(i, size, n, from, msg))
  {
    hide UpgradesOnly, RequestsEnd, AttemptLog, LogOk, CleanOk, AttemptOk, Peers, TableOk;
    if n.site.db.lsn != 0 && msg == ReplayConfirm(n.site.db.lsn) { AddPeer(n.hist.replayedBy, from, i, size); }
  }

  lemma ReceiveClean(i: NodeId, size: nat, n: Node, from: NodeId, msg: Entry)
    requires NodeOk(i, size, n) && MayReceive(i, size, n, from, msg)
    ensures CleanOk(Receive(i, size, n, from, msg))
  {
    hide UpgradesOnly, RequestsEnd, AttemptLog, LogOk, AttemptOk, ReplayOk;
  }

  lemma KeptReceive(i: NodeId, size: nat, n: Node, from: NodeId, msg: Entry)
    requires NodeOk(i, size, n) && MayReceive(i, size, n, from, msg)
    ensures NodeOk(i, size, Receive(i, size, n, from, msg))
  {
    if msg.ReplayConfirm? { KeptReplayCore(i, size, n, from, msg.rlsn); }
    else if msg.Acquire? { KeptAcquireCore(i, size, n, from, msg.ty); }
    else { KeptReceiveCore(i, size, n, from, msg); }
    hide UpgradesOnly, RequestsEnd, AttemptLog, LogOk, ReplayOk, CleanOk, Receive;
    ReceiveLogs(i, size, n, from, msg);
    ReceiveOpen(i, size, n, from, msg);
    ReceiveReplay(i, size, n, from, msg);
    ReceiveClean(i, size, n, from, msg);
  }

  lemma NodeKept(i: NodeId, size: nat, n: Node, ev: Event)
    requires NodeOk(i, size, n) && EventOk(i, size, n, ev)
    ensures NodeOk(i, size, Next(i, size, n, ev))
  {
    match ev
    case BeginAttempt(_, _) => KeptBegin(i, size, n, ev);
    case BeginUpgrade(_) => KeptBegin(i, size, n, ev);
    case TallyCheck => KeptTally(i, size, n, ev);
    case TallyDone => KeptTally(i, size, n, ev);
    case LogRelease => KeptRelease(i, size, n, ev);
    case ClearLocal => KeptRelease(i, size, n, ev);
    case Recover(lsn) => KeptRecover(i, size, n, lsn);
    case Deliver(from, msg) => KeptReceive(i, size, n, from, msg);
    case Count(peer) => KeptCount(i, size, n, peer);
    case _ =>
      if ev.OpenWrite? || ev.CommitWrite? || ev.AbortWrite? { KeptWriters(i, size, n, ev); }
      else if ev.CrashUnflushed? { KeptUnflushed(i, size, n); }
      else if ev.Crash? || ev.LearnPeers? { KeptCrash(i, size, n, ev); }
      else { KeptWorker(i, size, n, ev); }
  }
}

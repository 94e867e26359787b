/** Every step keeps the invariant between the node that takes it and every other
    node, in both roles. */
module LockLinkProof {
  import opened Common
  import opened LockHandlers
  import opened LockProtocol
  import opened LockInvariant
  import opened LockNodeProof

  // ---- steps of the other node `p` ------------------------------------------------

  ghost predicate HoldUnchanged(i: NodeId, b: Node, b': Node) {
    && (i in b'.site.table <==> i in b.site.table)
    && (i in b.site.table ==>
          b'.site.table[i] == b.site.table[i] && b'.hist.base == b.hist.base && b'.hist.src == b.hist.src)
  }

  /** Entries that neither confirm a lock to `i` nor answer its replay request. */
  ghost predicate QuietEntry(i: NodeId, a: Node, e: Entry) {
    !NamesHolder(e, i) && (a.site.db.lsn != 0 ==> e != ReplayConfirm(a.site.db.lsn))
  }

  ghost predicate NoAnswer(log: seq<Entry>, lsn: nat) {
    forall k :: 0 <= k < |log| ==> log[k] != ReplayConfirm(lsn)
  }

  /** The step brings a confirmation of the hold no nearer. */
  ghost predicate NoNearer(i: NodeId, a: Node, b: Node, b': Node) {
    i in b'.site.table ==>
    && (b'.up && b'.worker.WillConfirm? ==> b.up && b.worker.WillConfirm?)
    && (b'.site.db.lsn == b.site.db.lsn || b'.site.db.lsn == 0 || NoAnswer(a.site.log, b'.site.db.lsn))
  }

  ghost predicate QuietAppend(i: NodeId, a: Node, log: seq<Entry>, log': seq<Entry>) {
    log <= log' && forall k :: |log| <= k < |log'| ==> QuietEntry(i, a, log'[k])
  }

  lemma AnswerNoNearer(i: NodeId, a: Node, b: Node, b': Node)
    requires i < |b.cur| == |b'.cur| && b'.cur[i] == b.cur[i] && i in b'.site.table && NoNearer(i, a, b, b') && AnswerWaits(i, a, b')
    ensures AnswerWaits(i, a, b)
  {
    var k :| AnswerAt(i, a, b', k);
    assert AnswerAt(i, a, b, k);
  }

  lemma OtherQuiet(i: NodeId, p: NodeId, a: Node, b: Node, b': Node)
    requires i < |b.cur| && p < |a.cur| && p < |a.pend| && LinkOk(i, p, a, b)
    requires |b'.cur| == |b.cur| && b'.cur[i] == b.cur[i] && HoldUnchanged(i, b, b') && NoNearer(i, a, b, b')
    requires QuietAppend(i, a, b.site.log, b'.site.log)
    ensures LinkOk(i, p, a, b')
  {
    assert forall k :: 0 <= k < |b.site.log| ==> b'.site.log[k] == b.site.log[k];
    if i in b'.site.table && AnswerWaits(i, a, b') { AnswerNoNearer(i, a, b, b'); }
  }

  lemma NoEndFrom(log: seq<Entry>, lo: nat, hi: nat)
    requires lo < |log| && !IsEnd(log[lo]) && NoEnd(log, lo + 1, hi)
    ensures NoEnd(log, lo, hi)
  {
  }

  lemma StillEnds(log: seq<Entry>, from: nat)
    requires from < |log| && !IsEnd(log[from])
    ensures EndsFrom(log, from) <==> EndsFrom(log, from + 1)
  {
  }

  /** `p` replays an entry of `i` that is not a release or restart; the hold stays. */
  lemma OtherAdvances(i: NodeId, p: NodeId, a: Node, b: Node, b': Node)
    requires i < |b.cur| && p < |a.cur| && p < |a.pend| && LinkOk(i, p, a, b)
    requires b.cur[i] < |a.site.log| && !IsEnd(a.site.log[b.cur[i]])
    requires b' == b.(cur := b.cur[i := b.cur[i] + 1])
    ensures LinkOk(i, p, a, b')
  {
    var log, c := a.site.log, b.cur[i];
    StillEnds(log, c);
    forall k | c + 1 <= k < |log| && log[k].Acquire? && NoEnd(log, c + 1, k) ensures NoEnd(log, c, k) {
      NoEndFrom(log, c, k);
    }
    if AnswerWaits(i, a, b') {
      var k :| AnswerAt(i, a, b', k);
      NoEndFrom(log, c, k);
      assert AnswerAt(i, a, b, k);
    }
  }

  /** `p` replays a release or restart of `i` and drops what it held for it. */
  lemma OtherDrops(i: NodeId, p: NodeId, a: Node, b: Node, b': Node)
    requires i < |b.cur| && p < |a.cur| && p < |a.pend| && LinkOk(i, p, a, b) && AttemptOk(i, |a.cur|, a)
    requires b.cur[i] < |a.site.log| && IsEnd(a.site.log[b.cur[i]]) && |b'.cur| == |b.cur| && b'.cur[i] == b.cur[i] + 1
    requires i !in b'.site.table && b'.site.log == b.site.log
    ensures LinkOk(i, p, a, b')
  {
    var log, c := a.site.log, b.cur[i];
    if Open(a) { assert c < a.hist.attempt; }
  }

  /** `p` replays a request of `i` and locks itself for it. */
  lemma OtherGrants(i: NodeId, p: NodeId, size: nat, a: Node, b: Node, b': Node, t: LockType)
    requires NodeOk(i, size, a) && p < size && |b.cur| == size && LinkOk(i, p, a, b) && i !in b.site.table
    requires b.cur[i] < |a.site.log| && a.site.log[b.cur[i]] == Acquire(t)
    requires b'.cur == b.cur[i := b.cur[i] + 1] && b'.site.log == b.site.log
    requires i in b'.site.table && b'.site.table[i] == Row(t, RowCatchup)
    requires b'.hist.base == b'.hist.src == b.cur[i] && b'.site.db.lsn == 0 && (t == Write ==> !b'.worker.WillConfirm?)
    ensures LinkOk(i, p, a, b')
  {
    var log, c := a.site.log, b.cur[i];
    var b1 := b.(cur := b'.cur);
    OtherAdvances(i, p, a, b, b1);
    forall k | c + 1 <= k < |log| && log[k].Acquire? && NoEnd(log, c + 1, k) ensures false {
      NoEndFrom(log, c, k);
    }
    assert RequestOk(i, p, a, b');
    if a.up && !(Open(a) && a.hist.attempt <= c) {
      assert EndsFrom(log, c);
      StillEnds(log, c);
    }
  }

  /** `p` replays a request of `i` for more than it holds and raises its row. */
  lemma OtherUpgrades(i: NodeId, p: NodeId, size: nat, a: Node, b: Node, b': Node)
    requires NodeOk(i, size, a) && p < size && |b.cur| == size && LinkOk(i, p, a, b) && i in b.site.table
    requires b.cur[i] < |a.site.log| && a.site.log[b.cur[i]] == Acquire(Write)
    requires b'.cur == b.cur[i := b.cur[i] + 1] && b'.site.log == b.site.log
    requires i in b'.site.table && b'.site.table[i] == Row(Write, RowCatchup)
    requires b'.hist.base == b.hist.base && b'.hist.src == b.cur[i] && b'.site.db.lsn == 0 && !b'.worker.WillConfirm?
    ensures LinkOk(i, p, a, b')
  {
    var log, c := a.site.log, b.cur[i];
    var b1 := b.(cur := b'.cur);
    OtherAdvances(i, p, a, b, b1);
    assert NoEnd(log, c, c);
    assert HoldsFully(b, i, Ddl) && NoConfirmPending(i, p, a, b);
    forall k | c + 1 <= k < |log| && log[k].Acquire? && NoEnd(log, c + 1, k) ensures false {
      NoEndFrom(log, c, k);
    }
    assert RequestOk(i, p, a, b');
    assert ConfirmOk(i, p, a, b') by {
      if Open(a) && p in a.hist.confirmedBy { UpgradeIsOpenOne(i, p, size, a, b); }
    }
  }

  /** A peer that was counted for the open request has replayed all requests of `i`. */
  lemma UpgradeIsOpenOne(i: NodeId, p: NodeId, size: nat, a: Node, b: Node)
    requires NodeOk(i, size, a) && p < size && |b.cur| == size && LinkOk(i, p, a, b) && Open(a) && p in a.hist.confirmedBy
    ensures forall k :: b.cur[i] <= k < |a.site.log| ==> !a.site.log[k].Acquire?
  {
    SrcOfOpen(i, p, size, a, b);
  }

  /** A hold for the open attempt is for one of its requests. */
  lemma SrcOfOpen(i: NodeId, p: NodeId, size: nat, a: Node, b: Node)
    requires NodeOk(i, size, a) && p < size && |b.cur| == size && LinkOk(i, p, a, b)
    requires Open(a) && i in b.site.table && a.hist.attempt < b.cur[i]
    ensures a.hist.attempt <= b.hist.base <= b.hist.src
    ensures b.hist.src == a.hist.attempt || b.hist.src == a.hist.acq
    ensures b.site.table[i].ty == a.site.db.ty ==> a.hist.acq == b.hist.src < b.cur[i]
    ensures Rank(b.site.table[i].ty) <= Rank(a.site.db.ty)
  {
    var log, h := a.site.log, b.hist;
    if h.base < a.hist.attempt {
      OlderEnded(i, size, a, h.base);
      assert false;
    }
  }

  /** `p` confirms its hold for `i`. */
  lemma OtherConfirms(i: NodeId, p: NodeId, size: nat, a: Node, b: Node, b': Node)
    requires NodeOk(i, size, a) && p < size && |b.cur| == size && LinkOk(i, p, a, b)
    requires i in b.site.table && b.site.table[i].state.RowCatchup?
    requires Open(a) && b.site.table[i].ty == a.site.db.ty ==> a.hist.attempt < b.cur[i]
    requires b'.cur == b.cur && b'.site.log == b.site.log + [Confirm(i, b.site.table[i].ty)]
    requires b'.site.table == b.site.table[i := b.site.table[i].(state := RowAcquired)]
    requires b'.hist.base == b.hist.base && b'.hist.src == b.hist.src
    ensures LinkOk(i, p, a, b')
  {
    assert forall k :: 0 <= k < |b.site.log| ==> b'.site.log[k] == b.site.log[k];
  }

  /** `p` answers the replay request of `i` that it has just replayed. */
  lemma OtherAnswers(i: NodeId, p: NodeId, a: Node, b: Node, b': Node, lsn: nat)
    requires i < |b.cur| && p < |a.cur| && p < |a.pend| && LinkOk(i, p, a, b) && LsnsOnce(a)
    requires a.site.db.lsn == lsn != 0 && a.hist.req < |a.site.log| && a.site.log[a.hist.req] == RequestReplay(lsn)
    requires b.cur[i] < |a.site.log| && a.site.log[b.cur[i]] == RequestReplay(lsn)
    requires b' == b.(cur := b.cur[i := b.cur[i] + 1], site := b.site.(log := b.site.log + [ReplayConfirm(lsn)]))
    ensures LinkOk(i, p, a, b')
  {
    var b1 := b.(cur := b'.cur);
    OtherAdvances(i, p, a, b, b1);
    assert b.cur[i] == a.hist.req;
    if i in b'.site.table && AnswerWaits(i, a, b') { AnswerNoNearer(i, a, b1, b'); }
    assert forall k :: 0 <= k < |b.site.log| ==> b'.site.log[k] == b.site.log[k];
  }

  /** The last entry of `p`, a confirmation nobody has replayed, is lost with the mark on
      the row. */
  lemma OtherLosesConfirm(i: NodeId, p: NodeId, size: nat, a: Node, b: Node)
    requires |a.cur| == |a.pend| == size && p < size && i < size && i != p && CoreOk(p, size, b) && LinkOk(i, p, a, b)
    requires Enabled(p, b, CrashUnflushed) && a.cur[p] < |b.site.log|
    ensures LinkOk(i, p, a, Next(p, size, b, CrashUnflushed))
  {
    var b', n := Next(p, size, b, CrashUnflushed), |b.site.log| - 1;
    assert forall k :: 0 <= k < n ==> b'.site.log[k] == b.site.log[k];
    var h := b.site.db.holder.value;
    if h == i {
      assert NamesHolder(b.site.log[n], i);
      assert !NoConfirmPending(i, p, a, b);
      if Open(a) && b.site.db.ty == a.site.db.ty { assert Matches(i, a, b.site.log[n]); }
    }
  }

  // ---- the steps of `p`, event by event ----------------------------------------------------

  /** A hold that can be confirmed in the mode `i` asks for is for the open request. */
  lemma ConfirmAllowed(i: NodeId, p: NodeId, a: Node, b: Node)
    requires i < |b.cur| && p < |a.cur| && p < |a.pend| && LinkOk(i, p, a, b)
    requires i in b.site.table && RowCanConfirm(i, a, b, b.site.table[i].ty)
    ensures Open(a) && b.site.table[i].ty == a.site.db.ty ==> a.hist.attempt < b.cur[i]
  {
  }

  /** Steps of `p` other than replaying an entry. */
  lemma OtherLocal(i: NodeId, p: NodeId, size: nat, a: Node, b: Node, ev: Event)
    requires NodeOk(i, size, a) && CoreOk(p, size, b) && i < size && |a.cur| == |a.pend| == size && i != p && LinkOk(i, p, a, b)
    requires Enabled(p, b, ev) && !ev.Deliver? && !ev.CrashUnflushed?
    requires ev.AskReplay? ==> NoAnswer(a.site.log, ev.lsn)
    requires ev.Recover? ==> NoAnswer(a.site.log, ev.rlsn)
    ensures LinkOk(i, p, a, Next(p, size, b, ev))
  {
    hide LinkOk, NodeOk, Receive, Peers, TableOk;
    var b' := Next(p, size, b, ev);
    if ev.ConfirmDdl? && b.site.db.holder == Some(i) {
      ConfirmAllowed(i, p, a, b);
      OtherConfirms(i, p, size, a, b, b');
    } else {
      OtherQuiet(i, p, a, b, b');
    }
  }

  /** `p` reaches the replay quorum of its hold for `i`. */
  lemma OtherQuorum(i: NodeId, p: NodeId, size: nat, a: Node, b: Node, from: NodeId, lsn: nat)
    requires NodeOk(i, size, a) && CoreOk(p, size, b) && i < size && |a.cur| == |a.pend| == size && i != p
    requires LinkOk(i, p, a, b) && MayReceive(p, size, b, from, ReplayConfirm(lsn))
    requires ReachesQuorum(b.site, lsn) && b.site.db.holder == Some(i)
    requires from == i ==> b.cur[i] < |a.site.log| && a.site.log[b.cur[i]] == ReplayConfirm(lsn)
    ensures LinkOk(i, p, a, Receive(p, size, b, from, ReplayConfirm(lsn)))
  {
    hide LinkOk, NodeOk;
    var b' := Receive(p, size, b, from, ReplayConfirm(lsn));
    var b1 := b.(cur := b'.cur);
    if from == i {
      assert AnswerAt(i, a, b, b.cur[i]);
      ConfirmAllowed(i, p, a, b);
      OtherAdvances(i, p, a, b, b1);
    } else {
      assert size > 2;
      ConfirmAllowed(i, p, a, b);
      OtherQuiet(i, p, a, b, b1);
    }
    OtherConfirms(i, p, size, a, b1, b');
  }

  /** `p` replays an entry of a third node. */
  lemma OtherReceivesThird(i: NodeId, p: NodeId, size: nat, a: Node, b: Node, from: NodeId, msg: Entry)
    requires NodeOk(i, size, a) && CoreOk(p, size, b) && i < size && |a.cur| == |a.pend| == size && i != p
    requires LinkOk(i, p, a, b) && from != i && MayReceive(p, size, b, from, msg)
    requires a.site.db.lsn != 0 ==> msg != RequestReplay(a.site.db.lsn)
    ensures LinkOk(i, p, a, Receive(p, size, b, from, msg))
  {
    hide LinkOk, NodeOk;
    if msg.ReplayConfirm? && ReachesQuorum(b.site, msg.rlsn) && b.site.db.holder == Some(i) {
      OtherQuorum(i, p, size, a, b, from, msg.rlsn);
    } else {
      OtherQuiet(i, p, a, b, Receive(p, size, b, from, msg));
    }
  }

  /** `p` replays a request, release or restart of `i`. */
  lemma OtherReceivesHold(i: NodeId, p: NodeId, size: nat, a: Node, b: Node, msg: Entry)
    requires NodeOk(i, size, a) && CoreOk(p, size, b) && i < size && |a.cur| == |a.pend| == size && i != p
    requires LinkOk(i, p, a, b) && AttemptOk(i, size, a)
    requires MayReceive(p, size, b, i, msg) && b.cur[i] < |a.site.log| && a.site.log[b.cur[i]] == msg
    requires msg.Acquire? || IsEnd(msg)
    ensures LinkOk(i, p, a, Receive(p, size, b, i, msg))
  {
    hide LinkOk, NodeOk, AttemptOk;
    var b' := Receive(p, size, b, i, msg);
    if IsEnd(msg) {
      OtherDrops(i, p, a, b, b');
    } else {
      match GrantDecision(b.site, i, msg.ty)
      case Grant => OtherGrants(i, p, size, a, b, b', msg.ty);
      case Upgrade => OtherUpgrades(i, p, size, a, b, b');
      case Refuse =>
        var b1 := b.(cur := b'.cur);
        OtherAdvances(i, p, a, b, b1);
        OtherQuiet(i, p, a, b1, b');
    }
  }

  /** `p` replays any other entry of `i`. */
  lemma OtherReceivesOwn(i: NodeId, p: NodeId, size: nat, a: Node, b: Node, msg: Entry)
    requires NodeOk(i, size, a) && LsnsOnce(a) && CoreOk(p, size, b) && i < size && |a.cur| == |a.pend| == size && i != p
    requires LinkOk(i, p, a, b) && ReplayOk(i, size, a)
    requires MayReceive(p, size, b, i, msg) && b.cur[i] < |a.site.log| && a.site.log[b.cur[i]] == msg
    requires !msg.Acquire? && !IsEnd(msg)
    ensures LinkOk(i, p, a, Receive(p, size, b, i, msg))
  {
    hide LinkOk, NodeOk, LsnsOnce, Peers;
    var b' := Receive(p, size, b, i, msg);
    if msg.ReplayConfirm? && ReachesQuorum(b.site, msg.rlsn) && b.site.db.holder == Some(i) {
      OtherQuorum(i, p, size, a, b, i, msg.rlsn);
    } else if msg.RequestReplay? && msg.lsn == a.site.db.lsn {
      OtherAnswers(i, p, a, b, b', msg.lsn);
    } else {
      var b1 := b.(cur := b'.cur);
      OtherAdvances(i, p, a, b, b1);
      OtherQuiet(i, p, a, b1, b');
    }
  }

  /** What a step of `p` needs to know about `i`. */
  ghost predicate OtherReady(i: NodeId, p: NodeId, a: Node, b: Node, ev: Event)
    requires i < |b.cur| && p < |a.cur|
  {
    match ev
    case Deliver(from, msg) =>
      if from == i then b.cur[i] < |a.site.log| && a.site.log[b.cur[i]] == msg
      else a.site.db.lsn != 0 ==> msg != RequestReplay(a.site.db.lsn)
    case AskReplay(lsn) => NoAnswer(a.site.log, lsn)
    case Recover(lsn) => NoAnswer(a.site.log, lsn)
    case CrashUnflushed => a.cur[p] < |b.site.log|
    case _ => true
  }

  lemma OtherKept(i: NodeId, p: NodeId, size: nat, a: Node, b: Node, ev: Event)
    requires NodeOk(i, size, a) && LsnsOnce(a) && i != p && NodeOk(p, size, b) && LinkOk(i, p, a, b)
    requires EventOk(p, size, b, ev) && OtherReady(i, p, a, b, ev)
    ensures LinkOk(i, p, a, Next(p, size, b, ev))
  {
    hide LinkOk;
    if ev.Deliver? {
      if ev.from != i { OtherReceivesThird(i, p, size, a, b, ev.from, ev.msg); }
      else if ev.msg.Acquire? || IsEnd(ev.msg) { OtherReceivesHold(i, p, size, a, b, ev.msg); }
      else { OtherReceivesOwn(i, p, size, a, b, ev.msg); }
    } else if ev.CrashUnflushed? {
      OtherLosesConfirm(i, p, size, a, b);
    } else {
      OtherLocal(i, p, size, a, b, ev);
    }
  }
}

/** What nodes can always do: restart, replay a log up to any entry, answer a replay
    request, confirm a hold. */
module LockProgress {
  import opened Common
  import opened LockHandlers
  import opened LockProtocol
  import opened LockInvariant
  import opened LockNodeProof
  import opened LockSafety
  import opened LockPaths

  // ---- a position nobody has asked for ------------------------------------------------------

  function Larger(a: nat, b: nat): nat { if a < b then b else a }

  function LsnOf(e: Entry): nat {
    match e
    case RequestReplay(lsn) => lsn
    case ReplayConfirm(lsn) => lsn
    case _ => 0
  }

  function LogBound(log: seq<Entry>): (r: nat)
    ensures forall k :: 0 <= k < |log| ==> LsnOf(log[k]) <= r
  {
    if log == [] then 0 else Larger(LogBound(log[..|log| - 1]), LsnOf(log[|log| - 1]))
  }

  ghost function GroupBound(g: Group): (r: nat)
    ensures forall i, k :: 0 <= i < |g| && 0 <= k < |g[i].site.log| ==> LsnOf(g[i].site.log[k]) <= r
  {
    if g == [] then 0 else Larger(GroupBound(g[..|g| - 1]), LogBound(g[|g| - 1].site.log))
  }

  ghost function Unasked(g: Group): (lsn: nat)
    ensures lsn != 0 && FreshLsn(g, lsn)
  {
    GroupBound(g) + 1
  }

  // ---- restart ------------------------------------------------------------------------------

  /** The node runs again with the same table, nothing pending and the number of nodes
      unknown; a hold in catch-up is asking for replay confirmations anew. */
  ghost predicate Restarted(n: Node, n': Node) {
    var d := n'.site.db;
    && n'.up && n'.cur == n.cur && |n'.pend| == |n.pend| && n'.site.table == n.site.table
    && n'.worker.Idle? && (forall j :: 0 <= j < |n'.pend| ==> n'.pend[j].NoCount?)
    && n.site.log + [Start] <= n'.site.log && d.nnodes == -1 && d.pid == 0
    && (n.site.table == map[] ==> d.lockcount == 0) && n'.hist.grants == n.hist.grants
    && forall h :: h in n.site.table && n.site.table[h].state.RowCatchup? ==>
         && d.holder == Some(h) && d.lsn != 0 && n'.site.log[|n'.site.log| - 1] == RequestReplay(d.lsn)
         && n'.hist.req == |n'.site.log| - 1 && n'.hist.replayedBy == {}
  }

  lemma RestartedNode(q: NodeId, size: nat, n: Node, lsn: nat)
    requires CoreOk(q, size, n) && !n.up && lsn != 0
    ensures Restarted(n, Next(q, size, n, Recover(lsn)))
  {
  }

  lemma StoppedNode(q: NodeId, size: nat, n: Node)
    requires CoreOk(q, size, n) && n.up
    ensures var c := Next(q, size, n, Crash);
            CoreOk(q, size, c) && !c.up && c.cur == n.cur && |c.pend| == |n.pend| && c.site.table == n.site.table
            && c.site.log == n.site.log && c.hist == n.hist
  {
  }

  ghost predicate Frame(s: set<NodeId>, g: Group, h: Group) {
    && By(s, g, h) && Inv(h) && |h| == |g|
    && forall j :: 0 <= j < |g| && j !in s ==> h[j] == g[j]
  }

  lemma FrameOf(s: set<NodeId>, g: Group, h: Group)
    requires Inv(g) && By(s, g, h)
    ensures Frame(s, g, h)
  {
    hide Inv, By;
    ByInv(s, g, h);
  }

  lemma FrameTrans(s: set<NodeId>, g: Group, h: Group, h': Group)
    requires Frame(s, g, h) && Frame(s, h, h')
    ensures Frame(s, g, h')
  {
    hide Inv, By;
    ByTrans(s, g, h, h');
  }

  lemma FrameMore(s: set<NodeId>, s': set<NodeId>, g: Group, h: Group)
    requires Frame(s, g, h) && s <= s'
    ensures Frame(s', g, h)
  {
    hide Inv, By;
    ByMore(s, s', g, h);
  }

  lemma FrameStep(g: Group, i: NodeId, ev: Event) returns (h: Group)
    requires Inv(g) && i < |g| && Enabled(i, g[i], ev) && Available(g, i, ev) && !ev.BeginAttempt?
    ensures h == g[i := Next(i, |g|, g[i], ev)] && Frame({i}, g, h)
  {
    hide NodeOk, LinkOk, LsnsApart, LsnsOnce, GrantOk, Exclusive, Frame;
    h := g[i := Next(i, |g|, g[i], ev)];
    ByStep(g, h, i, ev);
    FrameOf({i}, g, h);
  }

  lemma Restarts(g: Group, q: NodeId) returns (h: Group)
    requires Inv(g) && q < |g|
    ensures Frame({q}, g, h) && Restarted(g[q], h[q])
  {
    hide LinkOk, LsnsApart, LsnsOnce, GrantOk, Exclusive, By, CleanOk, ReplayOk, UpgradesOnly, LogOk, AttemptsEnd, AttemptOk,
      TableOk, StateOk, Restarted;
    assert NodeOk(q, |g|, g[q]);
    var g1 := g;
    if g[q].up {
      StoppedNode(q, |g|, g[q]);
      g1 := FrameStep(g, q, Crash);
    } else {
      ByRefl({q}, g);
    }
    var lsn := Unasked(g1);
    RestartedNode(q, |g|, g1[q], lsn);
    h := FrameStep(g1, q, Recover(lsn));
    FrameTrans({q}, g, g1, h);
    RestartedSame(g[q], g1[q], h[q]);
  }

  lemma RestartedSame(n: Node, c: Node, n': Node)
    requires Restarted(c, n') && c.cur == n.cur && |c.pend| == |n.pend| && c.site.table == n.site.table && c.site.log == n.site.log
    requires c.hist == n.hist
    ensures Restarted(n, n')
  {
  }

  // ---- replaying the log of another node ------------------------------------------------------

  /** What replaying one entry does to a node that has just restarted. */
  ghost predicate ReplayedOne(n: Node, n': Node, from: NodeId, msg: Entry)
    requires from < |n.cur|
  {
    && n'.cur == n.cur[from := n.cur[from] + 1] && |n'.pend| == |n.pend| && n.site.log <= n'.site.log
    && n'.site.table.Keys <= n.site.table.Keys + {from}
    && (IsEnd(msg) ==> from !in n'.site.table)
    && (msg.RequestReplay? ==> |n.site.log| < |n'.site.log|
                               && n'.site.log[|n'.site.log| - 1] == ReplayConfirm(msg.lsn))
    && (msg.Acquire? && n.site.table.Keys <= {from} ==>
          && from in n'.site.table && n'.site.table[from] == Row(msg.ty, RowCatchup)
          && (msg.ty == Ddl ==> n'.up && n'.worker.WillConfirm?))
  }

  lemma RestartedReplays(q: NodeId, size: nat, n: Node, n1: Node, from: NodeId, msg: Entry)
    requires CoreOk(q, size, n1) && Restarted(n, n1) && MayReceive(q, size, n1, from, msg) && from < |n.cur|
    ensures ReplayedOne(n, Receive(q, size, n1, from, msg), from, msg)
  {
    var n' := Receive(q, size, n1, from, msg);
    if msg.Acquire? && n.site.table.Keys <= {from} {
      if from in n1.site.table {
        assert GrantDecision(n1.site, from, msg.ty) == Upgrade;
      } else {
        assert n1.site.table == map[];
      }
    }
  }

  /** Restarting first, a node can always replay the next entry of a log. */
  lemma ReplaysOne(g: Group, q: NodeId, from: NodeId) returns (h: Group)
    requires Inv(g) && q < |g| && from < |g| && q != from && g[q].cur[from] < |g[from].site.log|
    ensures Frame({q}, g, h) && ReplayedOne(g[q], h[q], from, g[from].site.log[g[q].cur[from]])
  {
    hide LinkOk, LsnsApart, LsnsOnce, GrantOk, Exclusive, By, CleanOk, ReplayOk, UpgradesOnly, LogOk, AttemptsEnd, AttemptOk,
      TableOk, StateOk, ReplayedOne, MsgOk;
    var g1 := Restarts(g, q);
    var msg := g[from].site.log[g[q].cur[from]];
    var ev := Deliver(from, msg);
    assert NodeOk(q, |g|, g1[q]);
    NextEntryOk(g1, q, ev);
    RestartedReplays(q, |g|, g[q], g1[q], from, msg);
    h := FrameStep(g1, q, ev);
    FrameTrans({q}, g, g1, h);
  }

  lemma {:induction false} ReplaysTo(g: Group, q: NodeId, from: NodeId, n: nat) returns (h: Group)
    requires Inv(g) && q < |g| && from < |g| && q != from && g[q].cur[from] <= n <= |g[from].site.log|
    ensures Frame({q}, g, h) && |h[q].cur| == |g| && h[q].cur == g[q].cur[from := n]
    ensures g[q].site.log <= h[q].site.log && h[q].site.table.Keys <= g[q].site.table.Keys + {from}
    decreases n - g[q].cur[from]
  {
    hide Inv, By;
    CurSize(g, q);
    if g[q].cur[from] == n {
      h := g;
      ByRefl({q}, g);
    } else {
      var g1 := ReplaysOne(g, q, from);
      h := ReplaysTo(g1, q, from, n);
      FrameTrans({q}, g, g1, h);
    }
  }

  lemma CurSize(g: Group, q: NodeId)
    requires Inv(g) && q < |g|
    ensures WellFormed(g) && |g[q].cur| == |g| && |g[q].pend| == |g|
  {
    hide NodeOk, LinkOk, LsnsApart, LsnsOnce, GrantOk, Exclusive;
  }

  /** A node can always replay a replay request and answer it. */
  lemma Answers(g: Group, q: NodeId, p: NodeId, k: nat) returns (h: Group)
    requires Inv(g) && q < |g| && p < |g| && q != p && |g[q].cur| == |g|
    requires g[q].cur[p] <= k < |g[p].site.log| && g[p].site.log[k].RequestReplay?
    ensures Frame({q}, g, h) && h[q].cur == g[q].cur[p := k + 1] && g[q].site.log < h[q].site.log
    ensures h[q].site.log[|h[q].site.log| - 1] == ReplayConfirm(g[p].site.log[k].lsn)
  {
    hide Inv, By;
    var g1 := ReplaysTo(g, q, p, k);
    h := ReplaysOne(g1, q, p);
    FrameTrans({q}, g, g1, h);
  }

  // ---- confirming a hold by replay answers ---------------------------------------------------------

  /** The node is held for `i` in mode `t` and waits for answers to `lsn`. */
  predicate Waiting(n: Node, i: NodeId, t: LockType, lsn: nat) {
    var d := n.site.db;
    && n.up && n.worker.Idle? && d.holder == Some(i) && d.lsn == lsn && lsn != 0
    && i in n.site.table && n.site.table[i] == Row(t, RowCatchup)
  }

  /** The hold is confirmed, and that is the last thing logged. */
  predicate JustConfirmed(n: Node, i: NodeId, t: LockType) {
    n.up && n.site.table == map[i := Row(t, RowAcquired)] && |n.site.log| > 0 && n.site.log[|n.site.log| - 1] == Confirm(i, t)
  }

  /** What waiting does not touch. */
  ghost predicate KeptAside(n: Node, n': Node) {
    && n.site.log <= n'.site.log && n'.writers == n.writers && n'.site.db.nnodes == n.site.db.nnodes
    && |n'.cur| == |n.cur| && (forall j :: 0 <= j < |n.cur| ==> n.cur[j] <= n'.cur[j])
    && n'.hist.req == n.hist.req && n'.hist.grants == n.hist.grants && n'.hist.boots == n.hist.boots
  }

  /** The answer of `from` is counted: the hold is confirmed, or more answers are needed. */
  ghost predicate Heard(n: Node, n': Node, i: NodeId, t: LockType, lsn: nat, from: NodeId) {
    if n'.hist.replayedBy == n.hist.replayedBy + {from} && Waiting(n', i, t, lsn)
    then n'.site.db.replayed < n'.site.db.nnodes
    else JustConfirmed(n', i, t) && n.site.log < n'.site.log
  }

  lemma WaitingReceives(p: NodeId, size: nat, n: Node, i: NodeId, t: LockType, lsn: nat, from: NodeId, msg: Entry)
    requires CoreOk(p, size, n) && MayReceive(p, size, n, from, msg) && Waiting(n, i, t, lsn)
    requires msg != ReplayConfirm(lsn) && (from == i ==> !IsEnd(msg))
    ensures var n' := Receive(p, size, n, from, msg);
            Waiting(n', i, t, lsn) && KeptAside(n, n') && n'.hist.replayedBy == n.hist.replayedBy
  {
  }

  lemma WaitingHears(p: NodeId, size: nat, n: Node, i: NodeId, t: LockType, lsn: nat, from: NodeId)
    requires CoreOk(p, size, n) && MayReceive(p, size, n, from, ReplayConfirm(lsn)) && Waiting(n, i, t, lsn)
    ensures var n' := Receive(p, size, n, from, ReplayConfirm(lsn));
            Heard(n, n', i, t, lsn, from) && KeptAside(n, n')
  {
  }

  lemma WaitingCounts(p: NodeId, n: Node, i: NodeId, t: LockType, lsn: nat, peer: NodeId)
    requires peer < |n.pend| && Waiting(n, i, t, lsn) && !n.pend[peer].NoCount?
    ensures var n' := CountPending(n, peer);
            && Waiting(n', i, t, lsn) && KeptAside(n, n') && n'.cur == n.cur && n'.pend[peer].NoCount?
            && n'.site.log == n.site.log && n'.hist.replayedBy == n.hist.replayedBy
  {
  }

  lemma WaitingCountStep(g: Group, p: NodeId, i: NodeId, t: LockType, lsn: nat, from: NodeId) returns (h: Group)
    requires Inv(g) && p < |g| && from < |g| && Waiting(g[p], i, t, lsn)
    requires from < |g[p].pend| && !g[p].pend[from].NoCount?
    ensures Frame({p}, g, h) && Waiting(h[p], i, t, lsn) && KeptAside(g[p], h[p])
    ensures h[p].cur == g[p].cur && h[p].hist.replayedBy == g[p].hist.replayedBy
    ensures |h[p].pend| == |g[p].pend| && h[p].pend[from].NoCount?
  {
    hide Inv, By;
    CurSize(g, p);
    WaitingCounts(p, g[p], i, t, lsn, from);
    h := FrameStep(g, p, Count(from));
  }

  lemma WaitingStep(g: Group, p: NodeId, i: NodeId, t: LockType, lsn: nat, from: NodeId) returns (h: Group)
    requires Inv(g) && p < |g| && from < |g| && from != p && Waiting(g[p], i, t, lsn)
    requires from < |g[p].cur| && from < |g[p].pend| && g[p].cur[from] < |g[from].site.log| && g[p].pend[from].NoCount?
    requires from == i ==> !IsEnd(g[from].site.log[g[p].cur[from]])
    ensures Frame({p}, g, h) && KeptAside(g[p], h[p]) && h[p].cur == g[p].cur[from := g[p].cur[from] + 1]
    ensures if g[from].site.log[g[p].cur[from]] == ReplayConfirm(lsn)
            then Heard(g[p], h[p], i, t, lsn, from)
            else Waiting(h[p], i, t, lsn) && h[p].hist.replayedBy == g[p].hist.replayedBy
  {
    hide LinkOk, LsnsApart, LsnsOnce, GrantOk, Exclusive, By, CleanOk, ReplayOk, UpgradesOnly, LogOk, AttemptsEnd, AttemptOk,
      TableOk, StateOk, MsgOk, Heard, KeptAside;
    var msg := g[from].site.log[g[p].cur[from]];
    assert NodeOk(p, |g|, g[p]);
    NextEntryOk(g, p, Deliver(from, msg));
    if msg == ReplayConfirm(lsn) {
      WaitingHears(p, |g|, g[p], i, t, lsn, from);
    } else {
      WaitingReceives(p, |g|, g[p], i, t, lsn, from, msg);
    }
    h := FrameStep(g, p, Deliver(from, msg));
  }

  /** The next entry that `p` replays from the log of `from` answers `lsn`. */
  predicate AnswerNext(n: Node, f: Node, from: NodeId, lsn: nat) {
    && from < |n.cur| && from < |n.pend| && n.pend[from].NoCount?
    && n.cur[from] < |f.site.log| && f.site.log[n.cur[from]] == ReplayConfirm(lsn)
  }

  /** A waiting node replays a log up to an answer. */
  lemma {:induction false} ReachesAnswer(g: Group, p: NodeId, i: NodeId, t: LockType, lsn: nat, from: NodeId, k: nat)
    returns (h: Group)
    requires Inv(g) && p < |g| && from < |g| && from != p && Waiting(g[p], i, t, lsn)
    requires from < |g[p].cur| && g[p].cur[from] <= k < |g[from].site.log| && g[from].site.log[k] == ReplayConfirm(lsn)
    requires from == i ==> NoEnd(g[from].site.log, g[p].cur[from], k)
    ensures Frame({p}, g, h) && KeptAside(g[p], h[p]) && Waiting(h[p], i, t, lsn)
    ensures h[p].hist.replayedBy == g[p].hist.replayedBy && AnswerNext(h[p], g[from], from, lsn)
    decreases k - g[p].cur[from], from < |g[p].pend| && !g[p].pend[from].NoCount?
  {
    hide Inv, By;
    CurSize(g, p);
    if !g[p].pend[from].NoCount? {
      var g1 := WaitingCountStep(g, p, i, t, lsn, from);
      h := ReachesAnswer(g1, p, i, t, lsn, from, k);
      FrameTrans({p}, g, g1, h);
    } else if g[from].site.log[g[p].cur[from]] == ReplayConfirm(lsn) {
      h := g;
      ByRefl({p}, g);
    } else {
      var g1 := WaitingStep(g, p, i, t, lsn, from);
      h := ReachesAnswer(g1, p, i, t, lsn, from, k);
      FrameTrans({p}, g, g1, h);
    }
  }

  /** And counts it. */
  lemma Hears(g: Group, p: NodeId, i: NodeId, t: LockType, lsn: nat, from: NodeId, k: nat) returns (h: Group)
    requires Inv(g) && p < |g| && from < |g| && from != p && Waiting(g[p], i, t, lsn)
    requires from < |g[p].cur| && g[p].cur[from] <= k < |g[from].site.log| && g[from].site.log[k] == ReplayConfirm(lsn)
    requires from == i ==> NoEnd(g[from].site.log, g[p].cur[from], k)
    ensures Frame({p}, g, h) && KeptAside(g[p], h[p]) && Heard(g[p], h[p], i, t, lsn, from)
  {
    hide Inv, By;
    var g1 := ReachesAnswer(g, p, i, t, lsn, from, k);
    h := WaitingStep(g1, p, i, t, lsn, from);
    FrameTrans({p}, g, g1, h);
  }

  /** One answer is enough when the number of other nodes is one or unknown. */
  lemma HearsEnough(g: Group, p: NodeId, i: NodeId, t: LockType, lsn: nat, from: NodeId, k: nat) returns (h: Group)
    requires Inv(g) && p < |g| && from < |g| && from != p && Waiting(g[p], i, t, lsn) && g[p].site.db.nnodes <= 1
    requires from < |g[p].cur| && g[p].cur[from] <= k < |g[from].site.log| && g[from].site.log[k] == ReplayConfirm(lsn)
    requires from == i ==> NoEnd(g[from].site.log, g[p].cur[from], k)
    ensures Frame({p}, g, h) && KeptAside(g[p], h[p]) && JustConfirmed(h[p], i, t) && g[p].site.log < h[p].site.log
  {
    hide Inv, By;
    h := Hears(g, p, i, t, lsn, from, k);
    ReplayFacts(h, p);
  }

  lemma ReplayFacts(g: Group, p: NodeId)
    requires Inv(g) && p < |g|
    ensures g[p].site.db.lsn != 0 ==> g[p].site.db.replayed == |g[p].hist.replayedBy| && g[p].hist.replayedBy <= Peers(p, |g|)
    ensures g[p].site.db.lsn != 0 ==> g[p].hist.req < |g[p].site.log| && g[p].site.log[g[p].hist.req] == RequestReplay(g[p].site.db.lsn)
    ensures g[p].site.db.nnodes <= |g| - 1
  {
    hide LinkOk, LsnsApart, LsnsOnce, GrantOk, Exclusive, CleanOk, UpgradesOnly, LogOk, AttemptsEnd, AttemptOk, TableOk;
    assert NodeOk(p, |g|, g[p]);
  }

  // ---- the requester replays without restarting ------------------------------------------------------

  /** The node is counting confirmations of its open request in mode `t`. */
  predicate Requesting(i: NodeId, n: Node, t: LockType, attempt: nat) {
    && Open(n) && n.site.db.state.Tallying? && n.site.db.ty == t && n.site.db.holder.None? && n.site.db.lockcount > 0
    && n.site.db.lsn == 0 && n.site.table == map[] && n.worker.Idle? && n.hist.attempt == attempt
  }

  lemma RequestingReceives(i: NodeId, size: nat, n: Node, t: LockType, attempt: nat, from: NodeId, msg: Entry)
    requires Requesting(i, n, t, attempt) && from < |n.cur| && from < |n.pend| && EntryOk(from, msg)
    ensures var n' := Receive(i, size, n, from, msg);
            && Requesting(i, n', t, attempt)
            && (msg == Confirm(i, t) ==> n'.pend[from].ConfirmChecked?)
            && (msg.RequestReplay? ==> n'.site.log == n.site.log + [ReplayConfirm(msg.lsn)])
  {
  }

  lemma RequestingCounts(i: NodeId, n: Node, t: LockType, attempt: nat, peer: NodeId)
    requires Requesting(i, n, t, attempt) && peer < |n.pend| && !n.pend[peer].NoCount?
    ensures var n' := CountPending(n, peer);
            && Requesting(i, n', t, attempt) && n'.cur == n.cur && |n'.pend| == |n.pend| && n'.pend[peer].NoCount?
            && n'.site.log == n.site.log
            && (n.pend[peer].ConfirmChecked? ==> peer in n'.hist.confirmedBy)
  {
  }

  lemma EntriesOk(p: NodeId, log: seq<Entry>, k: nat)
    requires LogOk(p, log) && k < |log|
    ensures EntryOk(p, log[k])
  {
  }

  lemma NodeFacts(g: Group, q: NodeId)
    requires Inv(g) && q < |g|
    ensures WellFormed(g) && CoreOk(q, |g|, g[q]) && LogOk(q, g[q].site.log)
  {
    hide LinkOk, LsnsApart, LsnsOnce, GrantOk, Exclusive;
    assert NodeOk(q, |g|, g[q]);
  }

  /** The requester counts what is pending from `p`, if anything, and replays an entry. */
  lemma RequesterStep(g: Group, i: NodeId, p: NodeId, t: LockType, attempt: nat) returns (h: Group)
    requires Inv(g) && i < |g| && p < |g| && i != p && Requesting(i, g[i], t, attempt) && |g[i].cur| == |g|
    requires g[i].cur[p] < |g[p].site.log|
    ensures Frame({i}, g, h) && Requesting(i, h[i], t, attempt) && g[i].site.log <= h[i].site.log
    ensures h[i].cur == g[i].cur[p := g[i].cur[p] + 1]
    ensures var msg := g[p].site.log[g[i].cur[p]];
            msg.RequestReplay? ==> h[i].site.log == g[i].site.log + [ReplayConfirm(msg.lsn)]
  {
    hide Inv, By, Receive, CountPending, LogOk, CoreOk;
    NodeFacts(g, i);
    NodeFacts(g, p);
    var g1 := g;
    if !g[i].pend[p].NoCount? {
      RequestingCounts(i, g[i], t, attempt, p);
      g1 := FrameStep(g, i, Count(p));
    } else {
      ByRefl({i}, g);
    }
    var msg := g[p].site.log[g[i].cur[p]];
    EntriesOk(p, g[p].site.log, g[i].cur[p]);
    RequestingReceives(i, |g|, g1[i], t, attempt, p, msg);
    h := FrameStep(g1, i, Deliver(p, msg));
    FrameTrans({i}, g, g1, h);
  }

  lemma {:induction false} RequesterAnswers(g: Group, i: NodeId, p: NodeId, t: LockType, attempt: nat, k: nat)
    returns (h: Group)
    requires Inv(g) && i < |g| && p < |g| && i != p && Requesting(i, g[i], t, attempt) && |g[i].cur| == |g|
    requires g[i].cur[p] <= k < |g[p].site.log| && g[p].site.log[k].RequestReplay?
    ensures Frame({i}, g, h) && Requesting(i, h[i], t, attempt) && g[i].site.log < h[i].site.log
    ensures h[i].site.log[|h[i].site.log| - 1] == ReplayConfirm(g[p].site.log[k].lsn)
    decreases k - g[i].cur[p]
  {
    hide Inv, By, Requesting;
    var g1 := RequesterStep(g, i, p, t, attempt);
    if g[i].cur[p] == k {
      h := g1;
    } else {
      h := RequesterAnswers(g1, i, p, t, attempt, k);
      FrameTrans({i}, g, g1, h);
    }
  }
}

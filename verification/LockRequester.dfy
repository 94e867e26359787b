/** The steps of a requesting node, as moves of a run: what it replays, counts and takes, in
    a group of any size. */
module LockRequester {
  import opened Common
  import opened LockHandlers
  import opened LockProtocol
  import opened LockSafety
  import opened LockCounterexamples

  /** The node has an open request and is held for nobody. */
  predicate Asks(n: Node) {
    && Open(n) && n.site.db.state.Tallying? && n.site.db.holder.None? && n.site.db.lockcount > 0
    && n.site.db.lsn == 0 && n.site.table == map[] && n.worker.Idle?
  }

  function Begun(n: Node, t: LockType): Node {
    n.(site := RegisterRequest(n.site, Pid, t),
       hist := n.hist.(confirmedBy := {}, attempt := |n.site.log|, acq := |n.site.log|))
  }

  function Upgraded(n: Node, t: LockType): Node {
    n.(site := RegisterRequest(n.site, n.site.db.pid, t), hist := n.hist.(confirmedBy := {}, acq := |n.site.log|))
  }

  function Skipped(n: Node, from: NodeId): Node
    requires from < |n.cur|
  {
    n.(cur := n.cur[from := n.cur[from] + 1])
  }

  function Logged(n: Node, from: NodeId, e: Entry): Node
    requires from < |n.cur|
  {
    Skipped(n, from).(site := n.site.Emit(e))
  }

  function Counted(n: Node, peer: NodeId): Node
    requires peer < |n.cur|
  {
    Skipped(n, peer).(site := CountConfirm(n.site), hist := n.hist.(confirmedBy := n.hist.confirmedBy + {peer}))
  }

  function Declined(n: Node, peer: NodeId): Node
    requires peer < |n.cur|
  {
    Skipped(n, peer).(site := CountDecline(n.site))
  }

  function Passed(n: Node): Node { n.(passed := true) }

  function Taken(n: Node): Node { n.(site := FinishTally(n.site), passed := false) }

  /** What a requester does with an entry it has nothing to count in: it refuses a request,
      answers for its replay, and skips the rest. */
  function Replayed(n: Node, from: NodeId, e: Entry): Node
    requires from < |n.cur|
  {
    match e
    case Acquire(t) => Logged(n, from, Decline(from, t))
    case RequestReplay(lsn) => Logged(n, from, ReplayConfirm(lsn))
    case _ => Skipped(n, from)
  }

  predicate NothingToCount(e: Entry) {
    !e.Confirm? && !e.Decline? && (e.ReplayConfirm? ==> e.rlsn != 0)
  }

  lemma ReplayGoes(i: NodeId, size: nat, n: Node, from: NodeId, e: Entry)
    requires Asks(n) && from != i && from < |n.cur| && from < |n.pend| && n.pend[from].NoCount? && NothingToCount(e)
    ensures Goes(i, size, n, Deliver(from, e), Replayed(n, from, e))
  {
  }

  /** The requester replays the next entry of `from`. */
  lemma Replays(tr: seq<Group>, g: Group, i: NodeId, from: NodeId, e: Entry) returns (tr': seq<Group>)
    requires IsRun(tr) && tr[|tr| - 1] == g && WellFormed(g) && i < |g| && from < |g| && from != i
    requires Asks(g[i]) && g[i].pend[from].NoCount? && NothingToCount(e)
    requires g[i].cur[from] < |g[from].site.log| && g[from].site.log[g[i].cur[from]] == e
    ensures IsRun(tr') && |tr'| > 0 && tr'[|tr'| - 1] == g[i := Replayed(g[i], from, e)]
  {
    hide IsRun, Goes;
    ReplayGoes(i, |g|, g[i], from, e);
    tr' := MoveTo(tr, g, i, Deliver(from, e), Replayed(g[i], from, e));
  }

  lemma CheckGoes(i: NodeId, size: nat, n: Node, peer: NodeId, e: Entry)
    requires Asks(n) && peer != i && peer < |n.cur| && peer < |n.pend| && n.pend[peer].NoCount?
    requires e == Confirm(i, n.site.db.ty) || (e.Decline? && e.dty == n.site.db.ty)
    ensures var n1 := Skipped(n, peer).(pend := n.pend[peer := if e.Confirm? then ConfirmChecked else DeclineChecked]);
            && Goes(i, size, n, Deliver(peer, e), n1)
            && Goes(i, size, n1, Count(peer), if e.Confirm? then Counted(n, peer) else Declined(n, peer))
  {
    assert n.pend[peer := NoCount] == n.pend;
    assert n.pend[peer := ConfirmChecked][peer := NoCount] == n.pend;
    assert n.pend[peer := DeclineChecked][peer := NoCount] == n.pend;
  }

  /** The requester replays a confirmation, or a decline, of `peer` and counts it. */
  lemma Counts(tr: seq<Group>, g: Group, i: NodeId, peer: NodeId, e: Entry) returns (tr': seq<Group>)
    requires IsRun(tr) && tr[|tr| - 1] == g && WellFormed(g) && i < |g| && peer < |g| && peer != i
    requires Asks(g[i]) && g[i].pend[peer].NoCount?
    requires e == Confirm(i, g[i].site.db.ty) || (e.Decline? && e.dty == g[i].site.db.ty)
    requires g[i].cur[peer] < |g[peer].site.log| && g[peer].site.log[g[i].cur[peer]] == e
    ensures IsRun(tr') && |tr'| > 0 && tr'[|tr'| - 1] == g[i := if e.Confirm? then Counted(g[i], peer) else Declined(g[i], peer)]
  {
    hide IsRun, Goes;
    CheckGoes(i, |g|, g[i], peer, e);
    var n1 := Skipped(g[i], peer).(pend := g[i].pend[peer := if e.Confirm? then ConfirmChecked else DeclineChecked]);
    tr' := MoveTo(tr, g, i, Deliver(peer, e), n1);
    var g1 := g[i := n1];
    tr' := MoveTo(tr', g1, i, Count(peer), if e.Confirm? then Counted(g[i], peer) else Declined(g[i], peer));
  }

  lemma PassGoes(i: NodeId, size: nat, n: Node)
    requires Asks(n) && !n.passed && TallyPasses(n.site)
    ensures Goes(i, size, n, TallyCheck, Passed(n))
  {
  }

  lemma TakeGoes(i: NodeId, size: nat, n: Node)
    requires n.up && n.passed
    ensures Goes(i, size, n, TallyDone, Taken(n))
  {
  }

  /** The wait ends. */
  lemma Passes(tr: seq<Group>, g: Group, i: NodeId) returns (tr': seq<Group>)
    requires IsRun(tr) && tr[|tr| - 1] == g && WellFormed(g) && i < |g| && Asks(g[i]) && !g[i].passed && TallyPasses(g[i].site)
    ensures IsRun(tr') && |tr'| > 0 && tr'[|tr'| - 1] == g[i := Passed(g[i])]
  {
    hide IsRun, Goes;
    PassGoes(i, |g|, g[i]);
    tr' := MoveTo(tr, g, i, TallyCheck, Passed(g[i]));
  }

  /** The lock is taken. */
  lemma Takes(tr: seq<Group>, g: Group, i: NodeId) returns (tr': seq<Group>)
    requires IsRun(tr) && tr[|tr| - 1] == g && WellFormed(g) && i < |g| && g[i].up && g[i].passed
    ensures IsRun(tr') && |tr'| == |tr| + 1 && tr'[|tr'| - 2] == g && tr'[|tr'| - 1] == g[i := Taken(g[i])]
  {
    hide IsRun, Goes;
    TakeGoes(i, |g|, g[i]);
    tr' := MoveTo(tr, g, i, TallyDone, Taken(g[i]));
  }

  lemma BeginGoes(i: NodeId, size: nat, n: Node, t: LockType)
    requires n.up && n.site.db.pid == 0 && n.site.db.lockcount == 0 && n.site.db.nnodes >= 0 && t != NoLock
    ensures Goes(i, size, n, BeginAttempt(Pid, t), Begun(n, t))
  {
  }

  lemma UpgradeGoes(i: NodeId, size: nat, n: Node)
    requires Open(n) && n.site.db.state.Acquired? && n.site.db.ty == Ddl
    ensures Goes(i, size, n, BeginUpgrade(Write), Upgraded(n, Write))
  {
  }
}

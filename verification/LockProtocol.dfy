/** The lock protocol of a group of nodes as a step relation.  Every step changes
    one node; the others only see the entries it appends to its log, which they
    replay in order.  A step is one section under the control-segment lock. */
module LockProtocol {
  import opened Common
  import opened LockHandlers

  /** Where the apply worker stands inside the handler of an ACQUIRE message. */
  datatype Worker =
    | Idle
    | WillConfirm
    | WillCancel(upgrade: bool)
    | Cancelling(upgrade: bool)
    | WillRaise
    | WillRequest

  /** What the apply worker of a peer has checked and will count next. */
  datatype Pending = NoCount | ConfirmChecked | DeclineChecked

  /** Auxiliary history: nothing the handlers do depends on it.
      `confirmedBy`, `attempt`, `acq`: whose confirmations of the open request were
      counted, and the log positions of the attempt's first and latest ACQUIRE.
      `replayedBy`, `req`: whose replay confirmations were counted, and the log
      position of the request.  `grant`: the log length when the hold was granted or
      upgraded; `base`, `src`: the positions, in the holder's log, of the ACQUIRE that
      was granted and of the latest one.  `clean`: no local writer was open when the
      lock type began to keep writers out.  `full`: everybody had answered when the
      replay quorum was reached.  `grants`, `boots`: how often this node granted a lock
      and restarted. */
  datatype History = History(
    confirmedBy: set<NodeId>, attempt: nat, acq: nat,
    replayedBy: set<NodeId>, req: nat, grant: nat, base: nat, src: nat, clean: bool, full: bool,
    grants: nat, boots: nat)

  /** `cur[j]` counts the entries of node j's log replayed here, `pend[j]` is what the
      worker for j is about to count.  `passed`: the waiting backend has left its loop.
      `releasing` holds between logging RELEASE and clearing the shared memory. */
  datatype Node = Node(
    up: bool, site: Site, cur: seq<nat>, pend: seq<Pending>, worker: Worker,
    passed: bool, releasing: bool, writers: set<nat>, hist: History)

  datatype Event =
    | BeginAttempt(pid: nat, ty: LockType)
    | BeginUpgrade(uty: LockType)
    | TallyCheck
    | TallyDone
    | LogRelease
    | ClearLocal
    | ConfirmDdl
    | CancelStart
    | CancelFail
    | CancelDone
    | Raise
    | AskReplay(lsn: nat)
    | Deliver(from: NodeId, msg: Entry)
    | Count(peer: NodeId)
    | OpenWrite(xid: nat)
    | CommitWrite(cxid: nat)
    | AbortWrite(axid: nat)
    | Crash
    | CrashUnflushed
    | Recover(rlsn: nat)
    | LearnPeers

  function AllNodes(size: nat): (r: set<NodeId>)
    ensures forall j: nat :: j in r <==> j < size
    ensures |r| == size
  {
    if size == 0 then {} else AllNodes(size - 1) + {size - 1}
  }

  function Peers(i: NodeId, size: nat): set<NodeId> { AllNodes(size) - {i} }

  predicate Open(n: Node) { n.up && n.site.db.pid != 0 && !n.releasing }

  /** User writes wait while a peer holds this node in write mode. */
  predicate PeerHoldsWrite(d: LockDb) {
    d.lockcount > 0 && d.ty == Write && d.holder.Some?
  }

  predicate Enabled(i: NodeId, n: Node, ev: Event) {
    var d := n.site.db;
    match ev
    case BeginAttempt(pid, ty) =>
      n.up && pid != 0 && ty != NoLock && d.pid == 0 && AcquireDecision(n.site, pid, ty) == Requested
    case BeginUpgrade(ty) =>
      Open(n) && d.state.Acquired? && AcquireDecision(n.site, d.pid, ty) == Requested
    case TallyCheck => Open(n) && !n.passed && TallyPasses(n.site)
    case TallyDone => n.up && n.passed
    case LogRelease => Open(n) && !n.passed
    case ClearLocal => n.up && n.releasing
    case ConfirmDdl => n.up && n.worker.WillConfirm?
    case CancelStart => n.up && n.worker.WillCancel?
    case CancelFail => n.up && n.worker.Cancelling? && d.holder.Some?
    case CancelDone => n.up && n.worker.Cancelling?
    case Raise => n.up && n.worker.WillRaise?
    case AskReplay(lsn) => n.up && n.worker.WillRequest? && lsn != 0
    case Deliver(from, msg) =>
      n.up && from != i && from < |n.cur| && from < |n.pend| && n.pend[from].NoCount?
      && (n.worker.Idle? || d.holder != Some(from))
    case Count(peer) => n.up && peer < |n.pend| && !n.pend[peer].NoCount?
    case OpenWrite(x) => n.up && x !in n.writers && !PeerHoldsWrite(d)
    case CommitWrite(x) => n.up && x in n.writers
    case AbortWrite(x) => n.up && x in n.writers
    case Crash => n.up
    case CrashUnflushed =>
      n.up && d.state.Confirmed? && d.holder.Some? && |n.site.log| > 0
      && n.site.log[|n.site.log| - 1] == Confirm(d.holder.value, d.ty)
    case Recover(lsn) => !n.up && lsn != 0
    case LearnPeers => n.up
  }

  /** Processing one replayed entry, up to where a counter is changed. */
  function Receive(i: NodeId, size: nat, n0: Node, from: NodeId, msg: Entry): (r: Node)
    requires from < |n0.cur| && from < |n0.pend|
    ensures r.cur == n0.cur[from := n0.cur[from] + 1] && |r.pend| == |n0.pend| && n0.site.log <= r.site.log
  {
    var pos := n0.cur[from];
    var n := n0.(cur := n0.cur[from := pos + 1]);
    var s := n.site;
    match msg
    case Change => n
    case Start => n.(site := DropHold(s, from))
    case Acquire(t) =>
      (match GrantDecision(s, from, t)
       case Grant => n.(site := GrantLock(s, from, t),
                        hist := n.hist.(grant := |s.log|, base := pos, src := pos, clean := false, full := false,
                                        grants := n.hist.grants + 1),
                        worker := if t == Write then WillCancel(false) else WillConfirm)
       case Upgrade => n.(site := UpgradeRow(s, from, t),
                          hist := n.hist.(grant := |s.log|, src := pos, clean := false, full := false),
                          worker := WillCancel(true))
       case Refuse => n.(site := SendDecline(s, from, t)))
    case Release(node) => n.(site := DropHold(s, node))
    case Confirm(h, t) => if ChecksConfirm(s, i, h, t) then n.(pend := n.pend[from := ConfirmChecked]) else n
    case Decline(_, t) => if ChecksDecline(s, t) then n.(pend := n.pend[from := DeclineChecked]) else n
    case RequestReplay(lsn) => n.(site := AnswerReplay(s, lsn))
    case ReplayConfirm(lsn) =>
      if !CountsReplay(s, lsn) then n
      else
        var answered := n.hist.replayedBy + {from};
        n.(site := CountReplay(s, lsn),
           hist := n.hist.(replayedBy := answered, full := ReachesQuorum(s, lsn) && answered == Peers(i, size)))
  }

  /** The worker for `peer` counts what it has checked. */
  function CountPending(n: Node, peer: NodeId): Node
    requires peer < |n.pend|
  {
    var n1 := n.(pend := n.pend[peer := NoCount]);
    match n.pend[peer]
    case NoCount => n1
    case ConfirmChecked =>
      n1.(site := CountConfirm(n.site), hist := n.hist.(confirmedBy := n.hist.confirmedBy + {peer}))
    case DeclineChecked => n1.(site := CountDecline(n.site))
  }

  function NoneIn(size: nat): (r: seq<Pending>)
    ensures |r| == size && forall j :: 0 <= j < size ==> r[j] == NoCount
  {
    seq(size, j => NoCount)
  }

  /** Shared memory, workers and backends are gone; table and log stay. */
  function Stopped(n: Node, site: Site): Node {
    n.(up := false, site := site.(db := FreeDb), pend := NoneIn(|n.pend|), worker := Idle,
       passed := false, releasing := false, writers := {})
  }

  /** Restart: announce it, then take back what the lock table says is held. */
  ghost function Restart(n: Node, lsn: nat): Node {
    var s := n.site.(db := FreeDb).Emit(Start);
    var n1 := n.(up := true, site := s, hist := n.hist.(boots := n.hist.boots + 1));
    if s.table == map[] then n1
    else
      var h :| h in s.table;
      n1.(site := ReloadRow(s, h, lsn),
          hist := if s.table[h].state.RowCatchup?
                  then n1.hist.(replayedBy := {}, req := |s.log|, clean := true, full := false) else n1.hist)
  }

  ghost function Next(i: NodeId, size: nat, n: Node, ev: Event): (r: Node)
    requires Enabled(i, n, ev)
    ensures |r.cur| == |n.cur| && |r.pend| == |n.pend|
    ensures !ev.CrashUnflushed? ==> n.site.log <= r.site.log
  {
    var s := n.site;
    match ev
    case BeginAttempt(pid, ty) =>
      n.(site := RegisterRequest(s, pid, ty),
         hist := n.hist.(confirmedBy := {}, attempt := |s.log|, acq := |s.log|))
    case BeginUpgrade(ty) =>
      n.(site := RegisterRequest(s, s.db.pid, ty),
         hist := n.hist.(confirmedBy := {}, acq := |s.log|))
    case TallyCheck => n.(passed := true)
    case TallyDone => n.(site := FinishTally(s), passed := false)
    case LogRelease => n.(site := SendRelease(s, i), releasing := true)
    case ClearLocal => n.(site := ClearRequest(s), releasing := false)
    case ConfirmDdl => n.(site := SendConfirm(s), worker := Idle)
    case CancelStart => n.(site := BeginCancel(s), worker := Cancelling(n.worker.upgrade))
    case CancelFail => n.(site := SendDecline(s, s.db.holder.value, Write), worker := Idle)
    case CancelDone =>
      n.(writers := {}, worker := if n.worker.upgrade then WillRaise else WillRequest,
         hist := n.hist.(clean := !n.worker.upgrade))
    case Raise =>
      n.(site := RaiseType(s, Write), worker := WillRequest,
         hist := n.hist.(clean := n.writers == {}))
    case AskReplay(lsn) =>
      n.(site := SendReplayRequest(s, lsn), worker := Idle,
         hist := n.hist.(replayedBy := {}, req := |s.log|, full := false))
    case Deliver(from, msg) => Receive(i, size, n, from, msg)
    case Count(peer) => CountPending(n, peer)
    case OpenWrite(x) => n.(writers := n.writers + {x})
    case CommitWrite(x) => n.(writers := n.writers - {x}, site := s.Emit(Change))
    case AbortWrite(x) => n.(writers := n.writers - {x})
    case Crash => Stopped(n, s)
    case CrashUnflushed =>
      // the commit that logged the last CONFIRM and marked the row never reached disk
      var h := s.db.holder.value;
      Stopped(n, Site(s.db, if h in s.table then s.table[h := s.table[h].(state := RowCatchup)] else s.table,
                      s.log[..|s.log| - 1])).(hist := n.hist.(full := false))
    case Recover(lsn) => Restart(n, lsn)
    case LearnPeers => n.(site := s.(db := s.db.(nnodes := size - 1)))
  }

  // ---- the group -------------------------------------------------------------

  type Group = seq<Node>

  ghost predicate WellFormed(g: Group) {
    |g| > 0 && forall i :: 0 <= i < |g| ==> |g[i].cur| == |g| && |g[i].pend| == |g|
  }

  /** The LSN appears in no log: positions asked for by different nodes differ. */
  ghost predicate FreshLsn(g: Group, lsn: nat) {
    forall i, k :: 0 <= i < |g| && 0 <= k < |g[i].site.log| ==>
      g[i].site.log[k] != RequestReplay(lsn) && g[i].site.log[k] != ReplayConfirm(lsn)
  }

  // ---- what an earlier attempt can leave behind --------------------------------------

  /** Entries that make every peer drop what it holds for the node that logged them. */
  predicate IsEnd(e: Entry) { e.Release? || e.Start? }

  predicate NoEnd(log: seq<Entry>, lo: nat, hi: nat) {
    forall m :: lo <= m < hi && m < |log| ==> !IsEnd(log[m])
  }

  /** The answer of `i` to the replay request of `p` will reach `p` before `p` drops what
      it holds for `i`. */
  ghost predicate AnswerWaits(i: NodeId, a: Node, b: Node)
    requires i < |b.cur|
  {
    b.site.db.lsn != 0 && exists k :: AnswerAt(i, a, b, k)
  }

  predicate AnswerAt(i: NodeId, a: Node, b: Node, k: int)
    requires i < |b.cur|
  {
    && b.cur[i] <= k < |a.site.log| && a.site.log[k] == ReplayConfirm(b.site.db.lsn)
    && NoEnd(a.site.log, b.cur[i], k)
  }

  /** The hold of `p` for `i` in mode `t` is unconfirmed and can still be confirmed: the
      handler is about to; or the answer of `i` is on its way; or, in a group of three and
      more, after a restart of `p`, which forgets the number of nodes, by an answer of a
      third node alone. */
  ghost predicate RowCanConfirm(i: NodeId, a: Node, b: Node, t: LockType)
    requires i < |b.cur|
  {
    && i in b.site.table && b.site.table[i] == Row(t, RowCatchup)
    && ((b.up && b.worker.WillConfirm?) || |b.cur| > 2 || AnswerWaits(i, a, b))
  }

  /** A request of `i` in mode `t`, before log position `end`, is on its way to `p`, which
      may grant and confirm it. */
  ghost predicate OldRequest(i: NodeId, a: Node, b: Node, t: LockType, end: nat)
    requires i < |b.cur|
  {
    (t != Write || |b.cur| > 2) && exists k :: b.cur[i] <= k < end && k < |a.site.log| && a.site.log[k] == Acquire(t)
  }

  /** A confirmation that `p` gave or can still give to an earlier request of `i` can be
      taken for one of a request in mode `t` made now. */
  ghost predicate CanMislead(i: NodeId, p: NodeId, a: Node, b: Node, t: LockType)
    requires i < |b.cur| && p < |a.cur| && p < |a.pend|
  {
    || a.pend[p].ConfirmChecked?
    || (exists k :: a.cur[p] <= k < |b.site.log| && b.site.log[k] == Confirm(i, t))
    || RowCanConfirm(i, a, b, t)
    || OldRequest(i, a, b, t, |a.site.log|)
  }

  /** Nothing of an earlier attempt of `i` can be taken for an attempt in mode `t`. */
  ghost predicate Drained(g: Group, i: NodeId, t: LockType)
    requires WellFormed(g) && i < |g|
  {
    forall p :: 0 <= p < |g| && p != i ==> !CanMislead(i, p, g[i], g[p], t)
  }

  // ---- steps ---------------------------------------------------------------------------

  /** What a step asks of the rest of the group, as the code does. */
  ghost predicate Available(g: Group, i: NodeId, ev: Event)
    requires WellFormed(g) && i < |g|
  {
    match ev
    case Deliver(from, msg) =>
      from < |g| && g[i].cur[from] < |g[from].site.log| && g[from].site.log[g[i].cur[from]] == msg
    case AskReplay(lsn) => FreshLsn(g, lsn)
    case Recover(lsn) => FreshLsn(g, lsn)
    case CrashUnflushed => forall p :: 0 <= p < |g| && p != i ==> g[p].cur[i] < |g[i].site.log|
    case _ => true
  }

  /** Every step the code can take. */
  ghost predicate AnyStep(g: Group, g': Group, i: NodeId, ev: Event)
    requires WellFormed(g)
  {
    i < |g| && Enabled(i, g[i], ev) && Available(g, i, ev) && g' == g[i := Next(i, |g|, g[i], ev)]
  }

  /** The steps in which a new attempt starts only once earlier ones have drained. */
  ghost predicate Step(g: Group, g': Group, i: NodeId, ev: Event)
    requires WellFormed(g)
  {
    AnyStep(g, g', i, ev) && (ev.BeginAttempt? ==> Drained(g, i, ev.ty))
  }

  const NoHistory := History({}, 0, 0, {}, 0, 0, 0, 0, false, false, 0, 0)

  ghost predicate IsInitial(n: Node, size: nat) {
    n == Node(true, Site(FreeDb.(nnodes := size - 1), map[], []), n.cur, NoneIn(size), Idle, false, false, {}, NoHistory)
    && |n.cur| == size && forall j :: 0 <= j < size ==> n.cur[j] == 0
  }

  ghost predicate Init(g: Group) {
    |g| > 0 && forall i :: 0 <= i < |g| ==> IsInitial(g[i], |g|)
  }
}

/** Last-update-wins resolution of concurrent updates, and the agreement of nodes that
    have seen the same writes. */
module Convergence {
  import opened Common

  type NodeId = nat
  type Key = nat
  type Value = nat

  /** A row version: commit timestamp, the node that wrote it (None for the row as the
      group started out with it) and the value. */
  datatype Version = Version(ts: int, origin: Option<NodeId>, val: Value)

  datatype Write = Write(key: Key, version: Version)

  // ---- the decision taken for one incoming row ----------------------------------------

  datatype Resolution = KeepRemote | KeepLocal | Failed

  /** Compare timestamps, then the sequence ids of the two nodes; the lower id wins. */
  function LastUpdateWins(localTs: int, remoteTs: int, localSeq: int, remoteSeq: int): Resolution {
    if remoteTs > localTs then KeepRemote
    else if remoteTs < localTs then KeepLocal
    else if localSeq <= 0 || remoteSeq <= 0 || localSeq == remoteSeq then Failed
    else if localSeq < remoteSeq then KeepLocal
    else KeepRemote
  }

  /** Two updates of one node are applied in the order they arrive; otherwise the last
      update wins.  `localOrigin` is who wrote the row found here. */
  function CheckApplyUpdate(localOrigin: Option<NodeId>, session: NodeId, localTs: int, remoteTs: int,
                            localSeq: int, remoteSeq: int): Resolution
  {
    if localOrigin == Some(session) then KeepRemote
    else LastUpdateWins(localTs, remoteTs, localSeq, remoteSeq)
  }

  /** The two nodes that exchange conflicting updates decide alike: one keeps its version
      exactly when the other takes it, and both fail exactly on a tie without two different
      positive sequence ids. */
  lemma BothSidesAgree(ts: int, ts': int, id: int, id': int)
    ensures LastUpdateWins(ts, ts', id, id') == KeepRemote <==> LastUpdateWins(ts', ts, id', id) == KeepLocal
    ensures LastUpdateWins(ts, ts', id, id') == KeepLocal <==>
              ts > ts' || (ts == ts' && 0 < id < id')
    ensures LastUpdateWins(ts, ts', id, id') == Failed <==> ts == ts' && !(id > 0 && id' > 0 && id != id')
  {
  }

  // ---- the group -------------------------------------------------------------------------

  /** `seqId` is the node sequence id, `cur[j]` counts the writes of node j applied here. */
  datatype Node = Node(seqId: int, rows: map<Key, Version>, log: seq<Write>, cur: seq<nat>)

  type Group = seq<Node>

  datatype Event =
    | LocalWrite(key: Key, ts: int, val: Value)
    | Deliver(from: NodeId)

  ghost predicate WellFormed(g: Group) {
    && (forall i :: 0 <= i < |g| ==> |g[i].cur| == |g| && g[i].seqId > 0)
    && (forall i, j :: 0 <= i < j < |g| ==> g[i].seqId != g[j].seqId)
  }

  ghost predicate Enabled(g: Group, i: NodeId, ev: Event)
    requires WellFormed(g) && i < |g|
  {
    match ev
    case LocalWrite(key, _, _) => key in g[i].rows
    case Deliver(from) =>
      from < |g| && from != i && g[i].cur[from] < |g[from].log| && g[from].log[g[i].cur[from]].key in g[i].rows
  }

  /** The decision never fails here: sequence ids are positive and no two are equal. */
  ghost function Next(g: Group, i: NodeId, ev: Event): Node
    requires WellFormed(g) && i < |g| && Enabled(g, i, ev)
  {
    var n := g[i];
    match ev
    case LocalWrite(key, ts, val) =>
      var v := Version(ts, Some(i), val);
      n.(rows := n.rows[key := v], log := n.log + [Write(key, v)])
    case Deliver(from) =>
      var w := g[from].log[n.cur[from]];
      var n' := n.(cur := n.cur[from := n.cur[from] + 1]);
      var mine := n.rows[w.key];
      var localOrigin := if mine.origin == Some(i) then None else mine.origin;
      if CheckApplyUpdate(localOrigin, from, mine.ts, w.version.ts, n.seqId, g[from].seqId) == KeepRemote
      then n'.(rows := n.rows[w.key := w.version]) else n'
  }

  ghost predicate AnyStep(g: Group, g': Group, i: NodeId, ev: Event)
    requires WellFormed(g)
  {
    i < |g| && Enabled(g, i, ev) && g' == g[i := Next(g, i, ev)]
  }

  ghost predicate Init(g: Group, start: map<Key, Version>) {
    && WellFormed(g)
    && (forall k :: k in start ==> start[k].origin == None)
    && forall i :: 0 <= i < |g| ==> g[i].rows == start && g[i].log == [] && forall j :: 0 <= j < |g| ==> g[i].cur[j] == 0
  }

  // ---- what a node has seen ----------------------------------------------------------------

  /** How much of the log of `j` node `i` has seen; its own it knows entirely. */
  ghost function Horizon(g: Group, i: NodeId, j: NodeId): nat
    requires WellFormed(g) && i < |g| && j < |g|
  {
    if i == j then |g[i].log| else g[i].cur[j]
  }

  /** Write `k` of node `j` concerns the row and node `i` has seen it. */
  ghost predicate Visible(g: Group, i: NodeId, key: Key, j: NodeId, k: nat)
    requires WellFormed(g) && i < |g|
  {
    j < |g| && k < Horizon(g, i, j) && k < |g[j].log| && g[j].log[k].key == key
  }

  ghost predicate Seen(g: Group, i: NodeId, key: Key, v: Version)
    requires WellFormed(g) && i < |g|
  {
    exists j: NodeId, k: nat :: Visible(g, i, key, j, k) && g[j].log[k].version == v
  }

  function SeqOf(g: Group, v: Version): int {
    if v.origin.Some? && v.origin.value < |g| then g[v.origin.value].seqId else 0
  }

  /** The order of versions: later timestamp, then lower sequence id of the writer. */
  predicate NotNewer(g: Group, v: Version, w: Version) {
    v.ts < w.ts || (v.ts == w.ts && SeqOf(g, w) <= SeqOf(g, v))
  }

  /** When a step keeps every row the newest version its node has seen.  A local write
      has to be newer than what it replaces.  On equal timestamps the code compares the
      sequence id of the local node with that of the sender, which has to order them like
      the two writers. */
  ghost predicate Orderly(g: Group, i: NodeId, ev: Event)
    requires WellFormed(g) && i < |g| && Enabled(g, i, ev)
  {
    match ev
    case LocalWrite(key, ts, val) => !NotNewer(g, Version(ts, Some(i), val), g[i].rows[key])
    case Deliver(from) =>
      var w := g[from].log[g[i].cur[from]];
      var mine := g[i].rows[w.key];
      mine.ts == w.version.ts && mine.origin != Some(from) ==>
        (g[i].seqId < g[from].seqId <==> SeqOf(g, mine) < g[from].seqId)
  }

  // ---- the invariant ------------------------------------------------------------------------

  /** Every log is stamped by its node, in growing order for each row, after the start. */
  ghost predicate LogOk(g: Group, start: map<Key, Version>, i: NodeId)
    requires i < |g|
  {
    var log := g[i].log;
    && (forall k :: 0 <= k < |log| ==>
          log[k].version.origin == Some(i) && log[k].key in start && start[log[k].key].ts < log[k].version.ts)
    && (forall k, l :: 0 <= k < l < |log| && log[k].key == log[l].key ==> log[k].version.ts < log[l].version.ts)
  }

  /** The row is the newest version seen, or the one from the start if none was seen. */
  ghost predicate RowOk(g: Group, start: map<Key, Version>, i: NodeId, key: Key)
    requires WellFormed(g) && i < |g|
  {
    key in start && key in g[i].rows &&
    var v := g[i].rows[key];
    && (v == start[key] || Seen(g, i, key, v))
    && (forall j: NodeId, k: nat :: Visible(g, i, key, j, k) ==> NotNewer(g, g[j].log[k].version, v))
  }

  ghost predicate LogsOk(g: Group, start: map<Key, Version>) {
    && WellFormed(g)
    && (forall k :: k in start ==> start[k].origin == None)
    && (forall i :: 0 <= i < |g| ==> LogOk(g, start, i) && g[i].rows.Keys == start.Keys)
    && (forall i, j :: 0 <= i < |g| && 0 <= j < |g| ==> g[i].cur[j] <= |g[j].log|)
  }

  ghost predicate Inv(g: Group, start: map<Key, Version>) {
    LogsOk(g, start) && forall i, key :: 0 <= i < |g| && key in start ==> RowOk(g, start, i, key)
  }

  // ---- facts about one state or one step --------------------------------------------------

  lemma SameOrder(g: Group, g': Group, i: NodeId, ev: Event, v: Version, w: Version)
    requires WellFormed(g) && AnyStep(g, g', i, ev)
    ensures NotNewer(g', v, w) <==> NotNewer(g, v, w)
  {
  }

  /** A row version other than the start sits in the log of its writer. */
  lemma RowOrigin(g: Group, start: map<Key, Version>, i: NodeId, key: Key) returns (j: NodeId, k: nat)
    requires LogsOk(g, start) && i < |g| && key in start && RowOk(g, start, i, key) && g[i].rows[key] != start[key]
    ensures Visible(g, i, key, j, k) && g[j].log[k].version == g[i].rows[key] && g[i].rows[key].origin == Some(j)
  {
    j, k :| Visible(g, i, key, j, k) && g[j].log[k].version == g[i].rows[key];
    assert LogOk(g, start, j);
  }

  // ---- a local write ---------------------------------------------------------------------------

  /** Every version seen is later than the start and not later than the row. */
  lemma RowBounds(g: Group, start: map<Key, Version>, i: NodeId, key: Key)
    requires LogsOk(g, start) && i < |g| && key in start && RowOk(g, start, i, key)
    ensures start[key].ts <= g[i].rows[key].ts
    ensures g[i].rows[key] == start[key] || start[key].ts < g[i].rows[key].ts
    ensures forall j: NodeId, k: nat :: Visible(g, i, key, j, k) ==> g[j].log[k].version.ts <= g[i].rows[key].ts
  {
    var v := g[i].rows[key];
    if v != start[key] {
      var j: NodeId, k: nat :| Visible(g, i, key, j, k) && g[j].log[k].version == v;
      assert LogOk(g, start, j);
    }
  }

  lemma WriteLogs(g: Group, g': Group, start: map<Key, Version>, i: NodeId, key: Key, ts: int, val: Value)
    requires Inv(g, start) && AnyStep(g, g', i, LocalWrite(key, ts, val)) && Orderly(g, i, LocalWrite(key, ts, val))
    ensures LogsOk(g', start)
  {
    assert RowOk(g, start, i, key);
    RowBounds(g, start, i, key);
    var log, n := g[i].log, |g[i].log|;
    assert LogOk(g, start, i);
    forall k | 0 <= k < n && log[k].key == key ensures log[k].version.ts < ts {
      assert Visible(g, i, key, i, k);
    }
    forall p | 0 <= p < |g| ensures LogOk(g', start, p) { assert LogOk(g, start, p); }
  }

  lemma WriteVisible(g: Group, g': Group, i: NodeId, ev: Event, p: NodeId, q: Key, j: NodeId, k: nat)
    requires WellFormed(g) && WellFormed(g') && AnyStep(g, g', i, ev) && ev.LocalWrite? && p < |g|
    requires forall a, b :: 0 <= a < |g| && 0 <= b < |g| ==> g[a].cur[b] <= |g[b].log|
    ensures Visible(g', p, q, j, k) <==> Visible(g, p, q, j, k) || (p == i && j == i && k == |g[i].log| && q == ev.key)
    ensures Visible(g, p, q, j, k) ==> g'[j].log[k] == g[j].log[k]
  {
  }

  lemma WriteOtherRow(g: Group, g': Group, start: map<Key, Version>, i: NodeId, ev: Event, p: NodeId, q: Key)
    requires Inv(g, start) && LogsOk(g', start) && AnyStep(g, g', i, ev) && ev.LocalWrite? && p < |g| && q in start
    requires p != i || q != ev.key
    ensures RowOk(g', start, p, q)
  {
    assert RowOk(g, start, p, q);
    var v := g[p].rows[q];
    forall j: NodeId, k: nat | Visible(g', p, q, j, k) ensures NotNewer(g', g'[j].log[k].version, v) {
      WriteVisible(g, g', i, ev, p, q, j, k);
      SameOrder(g, g', i, ev, g[j].log[k].version, v);
    }
    if v != start[q] {
      var j, k := RowOrigin(g, start, p, q);
      WriteVisible(g, g', i, ev, p, q, j, k);
      assert Visible(g', p, q, j, k) && g'[j].log[k].version == v;
    }
  }

  lemma WriteOwnRow(g: Group, g': Group, start: map<Key, Version>, i: NodeId, ev: Event)
    requires Inv(g, start) && LogsOk(g', start) && AnyStep(g, g', i, ev) && ev.LocalWrite? && Orderly(g, i, ev)
    ensures RowOk(g', start, i, ev.key)
  {
    var q, v, n := ev.key, Version(ev.ts, Some(i), ev.val), |g[i].log|;
    assert RowOk(g, start, i, q);
    forall j: NodeId, k: nat | Visible(g', i, q, j, k) ensures NotNewer(g', g'[j].log[k].version, v) {
      WriteVisible(g, g', i, ev, i, q, j, k);
      if Visible(g, i, q, j, k) { SameOrder(g, g', i, ev, g[j].log[k].version, v); }
    }
    WriteVisible(g, g', i, ev, i, q, i, n);
    assert Visible(g', i, q, i, n) && g'[i].log[n].version == v;
  }

  lemma WriteKeepsInv(g: Group, g': Group, start: map<Key, Version>, i: NodeId, ev: Event)
    requires Inv(g, start) && AnyStep(g, g', i, ev) && ev.LocalWrite? && Orderly(g, i, ev)
    ensures Inv(g', start)
  {
    WriteLogs(g, g', start, i, ev.key, ev.ts, ev.val);
    forall p, q | 0 <= p < |g| && q in start ensures RowOk(g', start, p, q) {
      if p == i && q == ev.key { WriteOwnRow(g, g', start, i, ev); } else { WriteOtherRow(g, g', start, i, ev, p, q); }
    }
  }

  // ---- a delivered write --------------------------------------------------------------------------

  lemma DeliverVisible(g: Group, g': Group, i: NodeId, ev: Event, p: NodeId, q: Key, j: NodeId, k: nat)
    requires WellFormed(g) && WellFormed(g') && AnyStep(g, g', i, ev) && ev.Deliver? && p < |g|
    ensures Visible(g', p, q, j, k) <==>
              Visible(g, p, q, j, k)
              || (p == i && j == ev.from && k == g[i].cur[ev.from] && q == g[ev.from].log[k].key)
    ensures j < |g| ==> g'[j].log == g[j].log
  {
  }

  lemma DeliverRows(g: Group, g': Group, start: map<Key, Version>, i: NodeId, ev: Event)
    requires LogsOk(g, start) && AnyStep(g, g', i, ev) && ev.Deliver?
    ensures forall p :: 0 <= p < |g| ==> g'[p].rows.Keys == start.Keys
    ensures forall p :: 0 <= p < |g| ==> g'[p].log == g[p].log && g'[p].seqId == g[p].seqId
  {
    assert g[i].rows.Keys == start.Keys;
    assert g'[i].rows.Keys == g[i].rows.Keys;
  }

  lemma DeliverLogs(g: Group, g': Group, start: map<Key, Version>, i: NodeId, ev: Event)
    requires LogsOk(g, start) && AnyStep(g, g', i, ev) && ev.Deliver?
    ensures LogsOk(g', start)
  {
    DeliverRows(g, g', start, i, ev);
    forall p | 0 <= p < |g| ensures LogOk(g', start, p) { assert LogOk(g, start, p); }
  }

  /** When ties agree the row after the delivery is the newer of the two versions. */
  lemma DecisionIsNewer(g: Group, g': Group, start: map<Key, Version>, i: NodeId, from: NodeId)
    requires Inv(g, start) && AnyStep(g, g', i, Deliver(from)) && Orderly(g, i, Deliver(from))
    ensures var w := g[from].log[g[i].cur[from]]; var mine := g[i].rows[w.key];
            if g'[i].rows[w.key] == w.version then NotNewer(g, mine, w.version) || mine == start[w.key]
            else g'[i].rows[w.key] == mine && NotNewer(g, w.version, mine) && mine != start[w.key]
  {
    var c := g[i].cur[from];
    var w := g[from].log[c];
    var mine := g[i].rows[w.key];
    assert LogOk(g, start, from);
    assert RowOk(g, start, i, w.key);
    if mine != start[w.key] {
      var j, k := RowOrigin(g, start, i, w.key);
      if j == from {
        assert g[from].log[k].version.ts < g[from].log[c].version.ts;
      }
    }
  }

  lemma DeliverRow(g: Group, g': Group, start: map<Key, Version>, i: NodeId, ev: Event, p: NodeId, q: Key)
    requires Inv(g, start) && LogsOk(g', start) && AnyStep(g, g', i, ev) && ev.Deliver? && p < |g| && q in start
    requires p != i || q != g[ev.from].log[g[i].cur[ev.from]].key
    ensures RowOk(g', start, p, q)
  {
    assert RowOk(g, start, p, q);
    var v := g'[p].rows[q];
    forall j: NodeId, k: nat | Visible(g', p, q, j, k) ensures NotNewer(g', g'[j].log[k].version, v) {
      DeliverVisible(g, g', i, ev, p, q, j, k);
      SameOrder(g, g', i, ev, g[j].log[k].version, v);
    }
    if v != start[q] {
      var j: NodeId, k: nat :| Visible(g, p, q, j, k) && g[j].log[k].version == v;
      DeliverVisible(g, g', i, ev, p, q, j, k);
      assert Visible(g', p, q, j, k) && g'[j].log[k].version == v;
    }
  }

  lemma DeliverOwnRow(g: Group, g': Group, start: map<Key, Version>, i: NodeId, ev: Event, q: Key)
    requires Inv(g, start) && LogsOk(g', start) && AnyStep(g, g', i, ev) && ev.Deliver? && Orderly(g, i, ev)
    requires q == g[ev.from].log[g[i].cur[ev.from]].key && q in start
    ensures RowOk(g', start, i, q)
  {
    var from, c := ev.from, g[i].cur[ev.from];
    var w, mine, v := g[from].log[c].version, g[i].rows[q], g'[i].rows[q];
    assert RowOk(g, start, i, q);
    DecisionIsNewer(g, g', start, i, from);
    RowBounds(g, start, i, q);
    assert LogOk(g, start, from);
    forall j: NodeId, k: nat | Visible(g', i, q, j, k) ensures NotNewer(g', g'[j].log[k].version, v) {
      DeliverVisible(g, g', i, ev, i, q, j, k);
      SameOrder(g, g', i, ev, g[j].log[k].version, v);
      if Visible(g, i, q, j, k) { assert NotNewer(g, g[j].log[k].version, mine); }
    }
    if v == w {
      DeliverVisible(g, g', i, ev, i, q, from, c);
      assert Visible(g', i, q, from, c) && g'[from].log[c].version == v;
    } else {
      var j, k := RowOrigin(g, start, i, q);
      DeliverVisible(g, g', i, ev, i, q, j, k);
      assert Visible(g', i, q, j, k) && g'[j].log[k].version == v;
    }
  }

  lemma DeliverKeepsInv(g: Group, g': Group, start: map<Key, Version>, i: NodeId, ev: Event)
    requires Inv(g, start) && AnyStep(g, g', i, ev) && ev.Deliver? && Orderly(g, i, ev)
    ensures Inv(g', start)
  {
    DeliverLogs(g, g', start, i, ev);
    forall p, q | 0 <= p < |g| && q in start ensures RowOk(g', start, p, q) {
      if p == i && q == g[ev.from].log[g[i].cur[ev.from]].key { DeliverOwnRow(g, g', start, i, ev, q); }
      else { DeliverRow(g, g', start, i, ev, p, q); }
    }
  }

  // ---- the condition is exact --------------------------------------------------------------------

  /** A write that is not newer than the row it replaces leaves the log or the row wrong. */
  lemma WriteNeedsOrder(g: Group, g': Group, start: map<Key, Version>, i: NodeId, ev: Event)
    requires Inv(g, start) && AnyStep(g, g', i, ev) && ev.LocalWrite? && Inv(g', start)
    ensures Orderly(g, i, ev)
  {
    var mine, n := g[i].rows[ev.key], |g[i].log|;
    assert RowOk(g, start, i, ev.key) && RowOk(g', start, i, ev.key);
    assert LogOk(g', start, i);
    if mine != start[ev.key] {
      var j, k := RowOrigin(g, start, i, ev.key);
      WriteVisible(g, g', i, ev, i, ev.key, j, k);
      assert NotNewer(g', g'[j].log[k].version, g'[i].rows[ev.key]);
      SameOrder(g, g', i, ev, mine, g'[i].rows[ev.key]);
      if j == i { assert g'[i].log[k].version.ts < g'[i].log[n].version.ts; }
    }
  }

  lemma DeliverNeedsOrder(g: Group, g': Group, start: map<Key, Version>, i: NodeId, ev: Event)
    requires Inv(g, start) && AnyStep(g, g', i, ev) && ev.Deliver? && Inv(g', start)
    ensures Orderly(g, i, ev)
  {
    var c := g[i].cur[ev.from];
    var w := g[ev.from].log[c];
    var mine := g[i].rows[w.key];
    assert LogOk(g, start, ev.from);
    assert RowOk(g, start, i, w.key) && RowOk(g', start, i, w.key);
    if mine.ts == w.version.ts && mine.origin != Some(ev.from) {
      var j, k := RowOrigin(g, start, i, w.key);
      DeliverVisible(g, g', i, ev, i, w.key, j, k);
      DeliverVisible(g, g', i, ev, i, w.key, ev.from, c);
      assert NotNewer(g', g'[j].log[k].version, g'[i].rows[w.key]);
      assert NotNewer(g', g'[ev.from].log[c].version, g'[i].rows[w.key]);
      SameOrder(g, g', i, ev, mine, w.version);
      SameOrder(g, g', i, ev, w.version, mine);
    }
  }

  /** A step keeps "every row is the newest version seen" exactly when it is orderly. */
  lemma StepIsExact(g: Group, g': Group, start: map<Key, Version>, i: NodeId, ev: Event)
    requires Inv(g, start) && AnyStep(g, g', i, ev)
    ensures Inv(g', start) <==> Orderly(g, i, ev)
  {
    if Orderly(g, i, ev) {
      if ev.LocalWrite? { WriteKeepsInv(g, g', start, i, ev); } else { DeliverKeepsInv(g, g', start, i, ev); }
    }
    if Inv(g', start) {
      if ev.LocalWrite? { WriteNeedsOrder(g, g', start, i, ev); } else { DeliverNeedsOrder(g, g', start, i, ev); }
    }
  }

  // ---- runs -----------------------------------------------------------------------------------------

  /** The hypothesis on a run: which steps it may take. */
  datatype Rule = AnyOrder | OrderedWrites | OrderedSteps | DistinctStamps

  /** No write of the row anywhere has this timestamp. */
  ghost predicate Unused(g: Group, key: Key, ts: int) {
    forall j, k :: 0 <= j < |g| && 0 <= k < |g[j].log| && g[j].log[k].key == key ==> g[j].log[k].version.ts != ts
  }

  ghost predicate Allowed(rule: Rule, g: Group, i: NodeId, ev: Event)
    requires WellFormed(g) && i < |g| && Enabled(g, i, ev)
  {
    match rule
    case AnyOrder => true
    case OrderedWrites => ev.LocalWrite? ==> Orderly(g, i, ev)
    case OrderedSteps => Orderly(g, i, ev)
    case DistinctStamps => ev.LocalWrite? ==> Orderly(g, i, ev) && Unused(g, ev.key, ev.ts)
  }

  ghost predicate StepsTo(rule: Rule, g: Group, g': Group) {
    WellFormed(g) && exists i: NodeId, ev :: AnyStep(g, g', i, ev) && Allowed(rule, g, i, ev)
  }

  ghost predicate StepsAt(rule: Rule, tr: seq<Group>, k: nat)
    requires k + 1 < |tr|
  {
    StepsTo(rule, tr[k], tr[k + 1])
  }

  ghost predicate IsRun(rule: Rule, tr: seq<Group>, start: map<Key, Version>) {
    |tr| > 0 && Init(tr[0], start) && forall k: nat :: k + 1 < |tr| ==> StepsAt(rule, tr, k)
  }

  lemma InitOk(g: Group, start: map<Key, Version>)
    requires Init(g, start)
    ensures Inv(g, start)
  {
    forall i | 0 <= i < |g| ensures LogOk(g, start, i) {}
    forall i, key | 0 <= i < |g| && key in start ensures RowOk(g, start, i, key) {}
  }

  /** A longer run is a run and one more step. */
  lemma LastStep(rule: Rule, tr: seq<Group>, start: map<Key, Version>)
    requires IsRun(rule, tr, start) && |tr| > 1
    ensures IsRun(rule, tr[..|tr| - 1], start) && StepsTo(rule, tr[|tr| - 2], tr[|tr| - 1])
  {
    var head := tr[..|tr| - 1];
    assert StepsAt(rule, tr, |tr| - 2);
    forall k: nat | k + 1 < |head| ensures StepsAt(rule, head, k) { assert StepsAt(rule, tr, k); }
  }

  lemma ExtendRun(rule: Rule, tr: seq<Group>, start: map<Key, Version>, g: Group)
    requires IsRun(rule, tr, start) && StepsTo(rule, tr[|tr| - 1], g)
    ensures IsRun(rule, tr + [g], start)
  {
    forall k: nat | k + 1 < |tr + [g]| ensures StepsAt(rule, tr + [g], k) {
      if k + 1 < |tr| { assert StepsAt(rule, tr, k); }
    }
  }

  lemma {:induction false} RunInv(tr: seq<Group>, start: map<Key, Version>)
    requires IsRun(OrderedSteps, tr, start)
    ensures Inv(tr[|tr| - 1], start)
  {
    if |tr| == 1 {
      InitOk(tr[0], start);
    } else {
      LastStep(OrderedSteps, tr, start);
      var g, g' := tr[|tr| - 2], tr[|tr| - 1];
      RunInv(tr[..|tr| - 1], start);
      var i: NodeId, ev :| AnyStep(g, g', i, ev) && Allowed(OrderedSteps, g, i, ev);
      StepIsExact(g, g', start, i, ev);
    }
  }

  // ---- agreement ----------------------------------------------------------------------------------------

  /** Two versions that are neither newer than the other are the same write. */
  lemma OneNewest(g: Group, start: map<Key, Version>, key: Key, j: NodeId, k: nat, j': NodeId, k': nat)
    requires LogsOk(g, start) && j < |g| && j' < |g| && k < |g[j].log| && k' < |g[j'].log|
    requires g[j].log[k].key == key && g[j'].log[k'].key == key
    requires NotNewer(g, g[j].log[k].version, g[j'].log[k'].version)
    requires NotNewer(g, g[j'].log[k'].version, g[j].log[k].version)
    ensures j == j' && k == k'
  {
    assert LogOk(g, start, j) && LogOk(g, start, j');
  }

  ghost predicate SameSeen(g: Group, i: NodeId, p: NodeId, key: Key)
    requires WellFormed(g) && i < |g| && p < |g|
  {
    forall v :: Seen(g, i, key, v) <==> Seen(g, p, key, v)
  }

  /** Nodes that have seen the same versions of a row hold the same version of it. */
  lemma SameSeenSameRow(g: Group, start: map<Key, Version>, i: NodeId, p: NodeId, key: Key)
    requires Inv(g, start) && i < |g| && p < |g| && key in start
    requires SameSeen(g, i, p, key)
    ensures g[i].rows[key] == g[p].rows[key]
  {
    assert RowOk(g, start, i, key) && RowOk(g, start, p, key);
    if g[i].rows[key] != start[key] {
      SeenIsBelow(g, start, i, p, key);
    }
    if g[p].rows[key] != start[key] {
      SeenIsBelow(g, start, p, i, key);
    }
    if g[i].rows[key] != start[key] && g[p].rows[key] != start[key] {
      var j, k := RowOrigin(g, start, i, key);
      var j', k' := RowOrigin(g, start, p, key);
      OneNewest(g, start, key, j, k, j', k');
    }
  }

  lemma SeenIsBelow(g: Group, start: map<Key, Version>, i: NodeId, p: NodeId, key: Key)
    requires Inv(g, start) && i < |g| && p < |g| && key in start && g[i].rows[key] != start[key]
    requires forall v :: Seen(g, i, key, v) ==> Seen(g, p, key, v)
    ensures NotNewer(g, g[i].rows[key], g[p].rows[key]) && g[p].rows[key] != start[key]
  {
    assert RowOk(g, start, i, key) && RowOk(g, start, p, key);
    assert Seen(g, p, key, g[i].rows[key]);
    var j: NodeId, k: nat :| Visible(g, p, key, j, k) && g[j].log[k].version == g[i].rows[key];
    assert LogOk(g, start, j);
  }

  /** In every run of orderly steps, nodes that have seen the same versions of a row agree
      on it, and what they hold is the newest of them. */
  lemma Converges(tr: seq<Group>, start: map<Key, Version>, i: NodeId, p: NodeId, key: Key)
    requires IsRun(OrderedSteps, tr, start) && key in start
    requires WellFormed(tr[|tr| - 1]) && i < |tr[|tr| - 1]| && p < |tr[|tr| - 1]|
    requires SameSeen(tr[|tr| - 1], i, p, key)
    ensures var g := tr[|tr| - 1];
            key in g[i].rows && key in g[p].rows && g[i].rows[key] == g[p].rows[key]
    ensures var g := tr[|tr| - 1];
            forall v :: Seen(g, i, key, v) ==> NotNewer(g, v, g[i].rows[key])
  {
    RunInv(tr, start);
    var g := tr[|tr| - 1];
    assert RowOk(g, start, i, key);
    SameSeenSameRow(g, start, i, p, key);
  }

  // ---- two nodes, and distinct timestamps -------------------------------------------------------------

  /** Entries of different nodes for one row do not share a timestamp. */
  predicate EntriesApart(v: Write, w: Write) {
    v.key == w.key ==> v.version.ts != w.version.ts
  }

  ghost predicate Apart(g: Group) {
    forall j, k, j', k' :: 0 <= j < |g| && 0 <= j' < |g| && j != j' && 0 <= k < |g[j].log| && 0 <= k' < |g[j'].log| ==>
      EntriesApart(g[j].log[k], g[j'].log[k'])
  }

  lemma ApartKept(g: Group, g': Group, i: NodeId, ev: Event)
    requires WellFormed(g) && AnyStep(g, g', i, ev) && Allowed(DistinctStamps, g, i, ev) && Apart(g)
    ensures Apart(g')
  {
    forall j, k, j', k' | 0 <= j < |g| && 0 <= j' < |g| && j != j' && 0 <= k < |g'[j].log| && 0 <= k' < |g'[j'].log|
      ensures EntriesApart(g'[j].log[k], g'[j'].log[k'])
    {
      assert k < |g[j].log| ==> g'[j].log[k] == g[j].log[k];
      assert k' < |g[j'].log| ==> g'[j'].log[k'] == g[j'].log[k'];
    }
  }

  /** With two nodes the row found is the sender's or one's own, so the ids compared are
      the writers'; with timestamps apart there is no tie. */
  lemma NoFalseTie(g: Group, start: map<Key, Version>, i: NodeId, ev: Event)
    requires Inv(g, start) && i < |g| && Enabled(g, i, ev) && ev.Deliver? && (|g| == 2 || Apart(g))
    ensures Orderly(g, i, ev)
  {
    var w := g[ev.from].log[g[i].cur[ev.from]];
    assert LogOk(g, start, ev.from);
    assert RowOk(g, start, i, w.key);
    if g[i].rows[w.key] != start[w.key] {
      var j, k := RowOrigin(g, start, i, w.key);
    }
  }

  /** One more step of a run that is two nodes', or keeps the timestamps apart. */
  lemma StepIsOrderly(rule: Rule, g: Group, g': Group, start: map<Key, Version>)
    requires StepsTo(rule, g, g') && Inv(g, start)
    requires (rule == OrderedWrites && |g| == 2) || (rule == DistinctStamps && Apart(g))
    ensures StepsTo(OrderedSteps, g, g') && Inv(g', start) && |g'| == |g|
    ensures rule == DistinctStamps ==> Apart(g')
  {
    var i: NodeId, ev :| AnyStep(g, g', i, ev) && Allowed(rule, g, i, ev);
    if ev.Deliver? { NoFalseTie(g, start, i, ev); }
    StepIsExact(g, g', start, i, ev);
    if rule == DistinctStamps { ApartKept(g, g', i, ev); }
  }

  lemma {:induction false} RunIsOrderly(rule: Rule, tr: seq<Group>, start: map<Key, Version>)
    requires IsRun(rule, tr, start) && ((rule == OrderedWrites && |tr[0]| == 2) || rule == DistinctStamps)
    ensures IsRun(OrderedSteps, tr, start) && Inv(tr[|tr| - 1], start) && |tr[|tr| - 1]| == |tr[0]|
    ensures rule == DistinctStamps ==> Apart(tr[|tr| - 1])
  {
    if |tr| == 1 {
      InitOk(tr[0], start);
    } else {
      var n := |tr| - 1;
      LastStep(rule, tr, start);
      RunIsOrderly(rule, tr[..n], start);
      StepIsOrderly(rule, tr[n - 1], tr[n], start);
      ExtendRun(OrderedSteps, tr[..n], start, tr[n]);
      assert tr[..n] + [tr[n]] == tr;
    }
  }

  /** Two nodes converge whatever ties occur, as long as no node writes over a row with a
      stamp that is not newer. */
  lemma TwoNodesConverge(tr: seq<Group>, start: map<Key, Version>, key: Key)
    requires IsRun(OrderedWrites, tr, start) && |tr[0]| == 2 && key in start
    requires WellFormed(tr[|tr| - 1]) && |tr[|tr| - 1]| == 2 ==> SameSeen(tr[|tr| - 1], 0, 1, key)
    ensures var g := tr[|tr| - 1];
            |g| == 2 && key in g[0].rows && key in g[1].rows && g[0].rows[key] == g[1].rows[key]
  {
    RunIsOrderly(OrderedWrites, tr, start);
    Converges(tr, start, 0, 1, key);
  }

  /** Any number of nodes converge when no two write a row at the same time. */
  lemma DistinctStampsConverge(tr: seq<Group>, start: map<Key, Version>, i: NodeId, p: NodeId, key: Key)
    requires IsRun(DistinctStamps, tr, start) && key in start
    requires WellFormed(tr[|tr| - 1]) && i < |tr[|tr| - 1]| && p < |tr[|tr| - 1]|
    requires SameSeen(tr[|tr| - 1], i, p, key)
    ensures var g := tr[|tr| - 1];
            key in g[i].rows && key in g[p].rows && g[i].rows[key] == g[p].rows[key]
  {
    RunIsOrderly(DistinctStamps, tr, start);
    Converges(tr, start, i, p, key);
  }

  // ---- what goes wrong otherwise ------------------------------------------------------------------------

  /** Every node has seen every write. */
  ghost predicate AllDelivered(g: Group) {
    WellFormed(g) && forall i, j :: 0 <= i < |g| && 0 <= j < |g| && i != j ==> g[i].cur[j] == |g[j].log|
  }

  lemma Stepped(rule: Rule, g: Group, g': Group, i: NodeId, ev: Event)
    requires WellFormed(g) && i < |g| && Enabled(g, i, ev) && Allowed(rule, g, i, ev) && g' == g[i := Next(g, i, ev)]
    ensures StepsTo(rule, g, g')
  {
    assert AnyStep(g, g', i, ev);
  }

  lemma Grow(rule: Rule, tr: seq<Group>, start: map<Key, Version>, g: Group) returns (tr': seq<Group>)
    requires IsRun(rule, tr, start) && StepsTo(rule, tr[|tr| - 1], g)
    ensures IsRun(rule, tr', start) && tr'[0] == tr[0] && tr'[|tr'| - 1] == g
  {
    ExtendRun(rule, tr, start, g);
    tr' := tr + [g];
  }

  // The run with a tie, by the states each of the three nodes goes through.

  function TieStart(): map<Key, Version> { map[7 := Version(0, None, 0)] }

  function TieB(): Version { Version(10, Some(1), 2) }

  function TieC(): Version { Version(10, Some(2), 3) }

  function Reader(k: nat): Node {
    if k == 0 then Node(1, TieStart(), [], [0, 0, 0])
    else Node(1, TieStart()[7 := TieC()], [], if k == 1 then [0, 0, 1] else [0, 1, 1])
  }

  function WriterB(k: nat): Node {
    if k == 0 then Node(2, TieStart(), [], [0, 0, 0])
    else Node(2, TieStart()[7 := TieB()], [Write(7, TieB())], if k == 1 then [0, 0, 0] else [0, 0, 1])
  }

  function WriterC(k: nat): Node {
    if k == 0 then Node(3, TieStart(), [], [0, 0, 0])
    else if k == 1 then Node(3, TieStart()[7 := TieC()], [Write(7, TieC())], [0, 0, 0])
    else Node(3, TieStart()[7 := TieC()][7 := TieB()], [Write(7, TieC())], [0, 1, 0])
  }

  lemma TieWriteB(a: Node, b: Node, c: Node)
    requires WellFormed([a, b, c]) && b == WriterB(0)
    ensures StepsTo(OrderedWrites, [a, b, c], [a, WriterB(1), c])
  {
    assert Next([a, b, c], 1, LocalWrite(7, 10, 2)) == WriterB(1);
    Stepped(OrderedWrites, [a, b, c], [a, WriterB(1), c], 1, LocalWrite(7, 10, 2));
  }

  lemma TieWriteC(a: Node, b: Node, c: Node)
    requires WellFormed([a, b, c]) && c == WriterC(0)
    ensures StepsTo(OrderedWrites, [a, b, c], [a, b, WriterC(1)])
  {
    assert Next([a, b, c], 2, LocalWrite(7, 10, 3)) == WriterC(1);
    Stepped(OrderedWrites, [a, b, c], [a, b, WriterC(1)], 2, LocalWrite(7, 10, 3));
  }

  lemma TieReadC(a: Node, b: Node, c: Node)
    requires WellFormed([a, b, c]) && a == Reader(0) && c == WriterC(1)
    ensures StepsTo(OrderedWrites, [a, b, c], [Reader(1), b, c])
  {
    assert Next([a, b, c], 0, Deliver(2)) == Reader(1);
    Stepped(OrderedWrites, [a, b, c], [Reader(1), b, c], 0, Deliver(2));
  }

  lemma TieReadB(a: Node, b: Node, c: Node)
    requires WellFormed([a, b, c]) && a == Reader(1) && b == WriterB(1)
    ensures StepsTo(OrderedWrites, [a, b, c], [Reader(2), b, c])
  {
    assert Next([a, b, c], 0, Deliver(1)) == Reader(2);
    Stepped(OrderedWrites, [a, b, c], [Reader(2), b, c], 0, Deliver(1));
  }

  lemma TieAtB(a: Node, b: Node, c: Node)
    requires WellFormed([a, b, c]) && b == WriterB(1) && c == WriterC(1)
    ensures StepsTo(OrderedWrites, [a, b, c], [a, WriterB(2), c])
  {
    assert Next([a, b, c], 1, Deliver(2)) == WriterB(2);
    Stepped(OrderedWrites, [a, b, c], [a, WriterB(2), c], 1, Deliver(2));
  }

  lemma TieAtC(a: Node, b: Node, c: Node)
    requires WellFormed([a, b, c]) && b == WriterB(2) && c == WriterC(1)
    ensures StepsTo(OrderedWrites, [a, b, c], [a, b, WriterC(2)])
  {
    assert Next([a, b, c], 2, Deliver(1)) == WriterC(2);
    Stepped(OrderedWrites, [a, b, c], [a, b, WriterC(2)], 2, Deliver(1));
  }

  lemma TieWellFormed(i: nat, j: nat, k: nat)
    ensures WellFormed([Reader(i), WriterB(j), WriterC(k)])
  {
  }

  lemma TieStartsOk()
    ensures Init([Reader(0), WriterB(0), WriterC(0)], TieStart())
  {
  }

  lemma TieBothWrite() returns (tr: seq<Group>)
    ensures IsRun(OrderedWrites, tr, TieStart()) && |tr[0]| == 3 && tr[|tr| - 1] == [Reader(0), WriterB(1), WriterC(1)]
  {
    TieWellFormed(0, 0, 0);
    TieWellFormed(0, 1, 0);
    TieStartsOk();
    TieWriteB(Reader(0), WriterB(0), WriterC(0));
    tr := Grow(OrderedWrites, [[Reader(0), WriterB(0), WriterC(0)]], TieStart(), [Reader(0), WriterB(1), WriterC(0)]);
    TieWriteC(Reader(0), WriterB(1), WriterC(0));
    tr := Grow(OrderedWrites, tr, TieStart(), [Reader(0), WriterB(1), WriterC(1)]);
  }

  lemma TieReaderDone() returns (tr: seq<Group>)
    ensures IsRun(OrderedWrites, tr, TieStart()) && |tr[0]| == 3 && tr[|tr| - 1] == [Reader(2), WriterB(1), WriterC(1)]
  {
    TieWellFormed(0, 1, 1);
    TieWellFormed(1, 1, 1);
    tr := TieBothWrite();
    TieReadC(Reader(0), WriterB(1), WriterC(1));
    tr := Grow(OrderedWrites, tr, TieStart(), [Reader(1), WriterB(1), WriterC(1)]);
    TieReadB(Reader(1), WriterB(1), WriterC(1));
    tr := Grow(OrderedWrites, tr, TieStart(), [Reader(2), WriterB(1), WriterC(1)]);
  }

  lemma TieAllDone() returns (tr: seq<Group>)
    ensures IsRun(OrderedWrites, tr, TieStart()) && |tr[0]| == 3 && tr[|tr| - 1] == [Reader(2), WriterB(2), WriterC(2)]
  {
    TieWellFormed(2, 1, 1);
    TieWellFormed(2, 2, 1);
    tr := TieReaderDone();
    TieAtB(Reader(2), WriterB(1), WriterC(1));
    tr := Grow(OrderedWrites, tr, TieStart(), [Reader(2), WriterB(2), WriterC(1)]);
    TieAtC(Reader(2), WriterB(2), WriterC(1));
    tr := Grow(OrderedWrites, tr, TieStart(), [Reader(2), WriterB(2), WriterC(2)]);
  }

  /** Three nodes and two writes with one timestamp: node 0, which wrote nothing, compares
      its own id and keeps the version that came first, here that of node 2, while nodes 1
      and 2 settle on that of node 1. */
  lemma ThreeNodesDiverge() returns (tr: seq<Group>, start: map<Key, Version>)
    ensures IsRun(OrderedWrites, tr, start) && |tr[0]| == 3 && 7 in start
    ensures var g := tr[|tr| - 1];
            AllDelivered(g) && |g| == 3 && (forall i :: 0 <= i < 3 ==> 7 in g[i].rows)
            && g[0].rows[7].val == 3 && g[1].rows[7].val == 2 && g[2].rows[7].val == 2
  {
    start := TieStart();
    tr := TieAllDone();
    TieWellFormed(2, 2, 2);
  }

  // The run with a slow clock on node 0.

  function SlowV(): Version { Version(5, Some(0), 1) }

  function Slow(k: nat): Node {
    if k == 0 then Node(1, TieStart(), [], [0, 0])
    else if k == 1 then Node(1, TieStart()[7 := TieB()], [], [0, 1])
    else Node(1, TieStart()[7 := TieB()][7 := SlowV()], [Write(7, SlowV())], [0, 1])
  }

  function Fast(k: nat): Node {
    if k == 0 then Node(2, TieStart(), [], [0, 0])
    else Node(2, TieStart()[7 := TieB()], [Write(7, TieB())], if k == 1 then [0, 0] else [1, 0])
  }

  lemma SlowWellFormed(i: nat, j: nat)
    ensures WellFormed([Slow(i), Fast(j)])
  {
  }

  lemma FastWrites(a: Node, b: Node)
    requires WellFormed([a, b]) && b == Fast(0)
    ensures StepsTo(AnyOrder, [a, b], [a, Fast(1)])
  {
    assert Next([a, b], 1, LocalWrite(7, 10, 2)) == Fast(1);
    Stepped(AnyOrder, [a, b], [a, Fast(1)], 1, LocalWrite(7, 10, 2));
  }

  lemma SlowReads(a: Node, b: Node)
    requires WellFormed([a, b]) && a == Slow(0) && b == Fast(1)
    ensures StepsTo(AnyOrder, [a, b], [Slow(1), b])
  {
    assert Next([a, b], 0, Deliver(1)) == Slow(1);
    Stepped(AnyOrder, [a, b], [Slow(1), b], 0, Deliver(1));
  }

  lemma SlowWrites(a: Node, b: Node)
    requires WellFormed([a, b]) && a == Slow(1)
    ensures StepsTo(AnyOrder, [a, b], [Slow(2), b])
  {
    assert Next([a, b], 0, LocalWrite(7, 5, 1)) == Slow(2);
    Stepped(AnyOrder, [a, b], [Slow(2), b], 0, LocalWrite(7, 5, 1));
  }

  lemma FastReads(a: Node, b: Node)
    requires WellFormed([a, b]) && a == Slow(2) && b == Fast(1)
    ensures StepsTo(AnyOrder, [a, b], [a, Fast(2)])
  {
    assert Next([a, b], 1, Deliver(0)) == Fast(2);
    Stepped(AnyOrder, [a, b], [a, Fast(2)], 1, Deliver(0));
  }

  lemma SlowHasRead() returns (tr: seq<Group>)
    ensures IsRun(AnyOrder, tr, TieStart()) && |tr[0]| == 2 && tr[|tr| - 1] == [Slow(1), Fast(1)]
  {
    SlowWellFormed(0, 0);
    SlowWellFormed(0, 1);
    FastWrites(Slow(0), Fast(0));
    tr := Grow(AnyOrder, [[Slow(0), Fast(0)]], TieStart(), [Slow(0), Fast(1)]);
    SlowReads(Slow(0), Fast(1));
    tr := Grow(AnyOrder, tr, TieStart(), [Slow(1), Fast(1)]);
  }

  lemma SlowAllDone() returns (tr: seq<Group>)
    ensures IsRun(AnyOrder, tr, TieStart()) && |tr[0]| == 2 && tr[|tr| - 1] == [Slow(2), Fast(2)]
  {
    SlowWellFormed(1, 1);
    SlowWellFormed(2, 1);
    tr := SlowHasRead();
    SlowWrites(Slow(1), Fast(1));
    tr := Grow(AnyOrder, tr, TieStart(), [Slow(2), Fast(1)]);
    FastReads(Slow(2), Fast(1));
    tr := Grow(AnyOrder, tr, TieStart(), [Slow(2), Fast(2)]);
  }

  /** Two nodes and a clock that runs behind: a node that overwrites a row with an older
      stamp keeps its own version, which the other node rejects. */
  lemma LateClockDiverges() returns (tr: seq<Group>, start: map<Key, Version>)
    ensures IsRun(AnyOrder, tr, start) && |tr[0]| == 2 && 7 in start
    ensures var g := tr[|tr| - 1];
            AllDelivered(g) && |g| == 2 && (forall i :: 0 <= i < 2 ==> 7 in g[i].rows)
            && g[0].rows[7].val == 1 && g[1].rows[7].val == 2
  {
    start := TieStart();
    tr := SlowAllDone();
    SlowWellFormed(2, 2);
  }
}

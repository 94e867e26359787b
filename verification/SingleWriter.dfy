/** Rows that only one node writes: whatever stamps it puts on its writes, in whatever order
    the group's logs are delivered, its later writes replace its earlier ones everywhere. */
module SingleWriter {
  import opened Common
  import opened Convergence

  /** A write delivered onto a row whose version comes from the same node is taken, whatever
      the two stamps are. */
  lemma SameNodeIsTaken(g: Group, g': Group, i: NodeId, from: NodeId)
    requires WellFormed(g) && AnyStep(g, g', i, Deliver(from))
    requires g[i].rows[g[from].log[g[i].cur[from]].key].origin == Some(from)
    ensures var w := g[from].log[g[i].cur[from]]; g'[i].rows == g[i].rows[w.key := w.version]
  {
  }

  /** No node but `w` has written the row. */
  ghost predicate OnlyWriter(g: Group, key: Key, w: NodeId) {
    forall j, k :: 0 <= j < |g| && j != w && 0 <= k < |g[j].log| ==> g[j].log[k].key != key
  }

  /** Write `k` of node `w` is the last one of the row that node `i` has seen. */
  ghost predicate LastSeen(g: Group, i: NodeId, w: NodeId, key: Key, k: nat)
    requires WellFormed(g) && i < |g|
  {
    Visible(g, i, key, w, k) && forall l: nat :: Visible(g, i, key, w, l) ==> l <= k
  }

  /** Last-update-wins prefers the version of `w` to the one the group started out with: a
      later stamp, or the same one and a lower sequence id than the node that compares. */
  ghost predicate WinsOverStart(g: Group, i: NodeId, w: NodeId, first: Version, v: Version)
    requires i < |g| && w < |g|
  {
    v.ts > first.ts || (v.ts == first.ts && g[w].seqId < g[i].seqId)
  }

  /** Some write of the row that the node has seen is its own or wins over the start. */
  ghost predicate Taken(g: Group, start: map<Key, Version>, i: NodeId, w: NodeId, key: Key)
    requires WellFormed(g) && i < |g| && w < |g| && key in start
  {
    exists k: nat :: TakenAt(g, start, i, w, key, k)
  }

  ghost predicate TakenAt(g: Group, start: map<Key, Version>, i: NodeId, w: NodeId, key: Key, k: nat)
    requires WellFormed(g) && i < |g| && w < |g| && key in start
  {
    Visible(g, i, key, w, k) && (i == w || WinsOverStart(g, i, w, start[key], g[w].log[k].version))
  }

  /** The row is the last write seen once one was taken, and the start before. */
  ghost predicate RowFollows(g: Group, start: map<Key, Version>, i: NodeId, w: NodeId, key: Key)
    requires WellFormed(g) && i < |g| && w < |g| && key in start
  {
    && key in g[i].rows
    && if Taken(g, start, i, w, key)
       then exists k: nat :: LastSeen(g, i, w, key, k) && g[i].rows[key] == g[w].log[k].version
       else g[i].rows[key] == start[key]
  }

  /** Logs are stamped with their node, and no node has seen more than there is. */
  ghost predicate Signed(g: Group, start: map<Key, Version>) {
    && WellFormed(g)
    && (forall k :: k in start ==> start[k].origin == None)
    && (forall j, k :: 0 <= j < |g| && 0 <= k < |g[j].log| ==> g[j].log[k].version.origin == Some(j))
    && (forall i, j :: 0 <= i < |g| && 0 <= j < |g| ==> g[i].cur[j] <= |g[j].log|)
  }

  ghost predicate Follows(g: Group, start: map<Key, Version>, w: NodeId, key: Key) {
    Signed(g, start) && w < |g| && key in start && OnlyWriter(g, key, w)
    && forall i :: 0 <= i < |g| ==> RowFollows(g, start, i, w, key)
  }

  lemma SignedKept(g: Group, g': Group, start: map<Key, Version>, i: NodeId, ev: Event)
    requires Signed(g, start) && AnyStep(g, g', i, ev)
    ensures Signed(g', start)
  {
  }

  lemma OnlyWriterBefore(g: Group, g': Group, i: NodeId, ev: Event, key: Key, w: NodeId)
    requires WellFormed(g) && AnyStep(g, g', i, ev) && OnlyWriter(g', key, w)
    ensures OnlyWriter(g, key, w)
  {
    forall j, k | 0 <= j < |g| && j != w && 0 <= k < |g[j].log| ensures g[j].log[k].key != key {
      assert g'[j].log[k] == g[j].log[k];
    }
  }

  // ---- one step ---------------------------------------------------------------------------

  /** What a node has seen of the writer does not change, and neither does its row. */
  ghost predicate Untouched(g: Group, g': Group, p: NodeId, w: NodeId, key: Key)
    requires WellFormed(g) && WellFormed(g') && |g'| == |g| && p < |g| && w < |g|
  {
    && g'[p].seqId == g[p].seqId && g'[w].seqId == g[w].seqId
    && key in g[p].rows && key in g'[p].rows && g'[p].rows[key] == g[p].rows[key]
    && forall k: nat :: (Visible(g', p, key, w, k) <==> Visible(g, p, key, w, k))
                        && (Visible(g, p, key, w, k) ==> g'[w].log[k] == g[w].log[k])
  }

  lemma UntouchedFollows(g: Group, g': Group, start: map<Key, Version>, p: NodeId, w: NodeId, key: Key)
    requires WellFormed(g) && WellFormed(g') && |g'| == |g| && p < |g| && w < |g| && key in start
    requires Untouched(g, g', p, w, key) && RowFollows(g, start, p, w, key)
    ensures RowFollows(g', start, p, w, key)
  {
    if Taken(g, start, p, w, key) {
      var l: nat :| TakenAt(g, start, p, w, key, l);
      assert TakenAt(g', start, p, w, key, l);
      var k: nat :| LastSeen(g, p, w, key, k) && g[p].rows[key] == g[w].log[k].version;
      assert LastSeen(g', p, w, key, k);
    } else if Taken(g', start, p, w, key) {
      var l: nat :| TakenAt(g', start, p, w, key, l);
      assert TakenAt(g, start, p, w, key, l);
    }
  }

  /** Node `p` has now seen write `n` of the row as well, its last. */
  ghost predicate SeesOneMore(g: Group, g': Group, p: NodeId, w: NodeId, key: Key, n: nat)
    requires WellFormed(g) && WellFormed(g') && |g'| == |g| && p < |g| && w < |g|
  {
    && g'[p].seqId == g[p].seqId && g'[w].seqId == g[w].seqId
    && LastSeen(g', p, w, key, n)
    && forall k: nat :: (Visible(g', p, key, w, k) <==> Visible(g, p, key, w, k) || k == n)
                        && (Visible(g, p, key, w, k) ==> g'[w].log[k] == g[w].log[k])
  }

  /** A node that sees one more write follows if it takes it exactly when it is its own, wins
      over the start or meets an earlier one. */
  lemma OneMoreFollows(g: Group, g': Group, start: map<Key, Version>, p: NodeId, w: NodeId, key: Key, n: nat)
    requires WellFormed(g) && WellFormed(g') && |g'| == |g| && p < |g| && w < |g| && key in start
    requires SeesOneMore(g, g', p, w, key, n) && RowFollows(g, start, p, w, key) && key in g'[p].rows
    requires Taken(g, start, p, w, key) || p == w || WinsOverStart(g, p, w, start[key], g'[w].log[n].version)
             ==> g'[p].rows[key] == g'[w].log[n].version
    requires !(Taken(g, start, p, w, key) || p == w || WinsOverStart(g, p, w, start[key], g'[w].log[n].version))
             ==> g'[p].rows[key] == g[p].rows[key]
    ensures RowFollows(g', start, p, w, key)
  {
    if Taken(g', start, p, w, key) {
      var l: nat :| TakenAt(g', start, p, w, key, l);
      if l != n { assert TakenAt(g, start, p, w, key, l); }
      assert LastSeen(g', p, w, key, n) && g'[p].rows[key] == g'[w].log[n].version;
    } else {
      assert !TakenAt(g', start, p, w, key, n);
      if Taken(g, start, p, w, key) {
        var l: nat :| TakenAt(g, start, p, w, key, l);
        assert TakenAt(g', start, p, w, key, l);
      }
    }
  }

  lemma WriteFollows(g: Group, g': Group, start: map<Key, Version>, i: NodeId, ev: Event, w: NodeId, key: Key, p: NodeId)
    requires Follows(g, start, w, key) && AnyStep(g, g', i, ev) && ev.LocalWrite? && p < |g|
    requires Signed(g', start) && OnlyWriter(g', key, w)
    ensures RowFollows(g', start, p, w, key)
  {
    var n := |g[i].log|;
    assert g'[i].log[n].key == ev.key;
    assert RowFollows(g, start, p, w, key);
    if p == i && ev.key == key {
      assert i == w;
      assert SeesOneMore(g, g', p, w, key, n);
      OneMoreFollows(g, g', start, p, w, key, n);
    } else {
      assert Untouched(g, g', p, w, key);
      UntouchedFollows(g, g', start, p, w, key);
    }
  }

  /** The row of a node is the start or comes from the writer. */
  lemma OriginOfRow(g: Group, start: map<Key, Version>, i: NodeId, w: NodeId, key: Key)
    requires Signed(g, start) && i < |g| && w < |g| && key in start && RowFollows(g, start, i, w, key)
    ensures g[i].rows[key].origin == if Taken(g, start, i, w, key) then Some(w) else None
  {
  }

  lemma DeliverFollows(g: Group, g': Group, start: map<Key, Version>, i: NodeId, ev: Event, w: NodeId, key: Key, p: NodeId)
    requires Follows(g, start, w, key) && AnyStep(g, g', i, ev) && ev.Deliver? && p < |g|
    requires Signed(g', start) && OnlyWriter(g', key, w)
    ensures RowFollows(g', start, p, w, key)
  {
    var n := g[i].cur[ev.from];
    assert RowFollows(g, start, p, w, key);
    if p == i && g[ev.from].log[n].key == key {
      assert ev.from == w;
      assert SeesOneMore(g, g', p, w, key, n);
      OriginOfRow(g, start, i, w, key);
      OneMoreFollows(g, g', start, p, w, key, n);
    } else {
      assert Untouched(g, g', p, w, key);
      UntouchedFollows(g, g', start, p, w, key);
    }
  }

  lemma FollowsKept(g: Group, g': Group, start: map<Key, Version>, i: NodeId, ev: Event, w: NodeId, key: Key)
    requires Follows(g, start, w, key) && AnyStep(g, g', i, ev) && OnlyWriter(g', key, w)
    ensures Follows(g', start, w, key)
  {
    SignedKept(g, g', start, i, ev);
    forall p | 0 <= p < |g| ensures RowFollows(g', start, p, w, key) {
      if ev.LocalWrite? { WriteFollows(g, g', start, i, ev, w, key, p); } else { DeliverFollows(g, g', start, i, ev, w, key, p); }
    }
  }

  // ---- every run --------------------------------------------------------------------------

  lemma {:induction false} RunFollows(tr: seq<Group>, start: map<Key, Version>, w: NodeId, key: Key)
    requires IsRun(AnyOrder, tr, start) && key in start && w < |tr[|tr| - 1]| && OnlyWriter(tr[|tr| - 1], key, w)
    ensures Follows(tr[|tr| - 1], start, w, key)
  {
    if |tr| > 1 {
      LastStep(AnyOrder, tr, start);
      var g, g' := tr[|tr| - 2], tr[|tr| - 1];
      var i: NodeId, ev :| AnyStep(g, g', i, ev) && Allowed(AnyOrder, g, i, ev);
      OnlyWriterBefore(g, g', i, ev, key, w);
      RunFollows(tr[..|tr| - 1], start, w, key);
      FollowsKept(g, g', start, i, ev, w, key);
    }
  }

  /** In every run, whatever the stamps: a node holds the last write it has seen of a row that
      one node writes, if and only if that node is itself or one of the writes it has seen wins
      over what the group started out with; otherwise it still holds the start. */
  lemma LastWriteHoldsExactly(tr: seq<Group>, start: map<Key, Version>, w: NodeId, key: Key, i: NodeId, k: nat)
    requires IsRun(AnyOrder, tr, start) && key in start && WellFormed(tr[|tr| - 1])
    requires w < |tr[|tr| - 1]| && i < |tr[|tr| - 1]| && OnlyWriter(tr[|tr| - 1], key, w)
    requires LastSeen(tr[|tr| - 1], i, w, key, k)
    ensures var g := tr[|tr| - 1];
            && key in g[i].rows && (g[i].rows[key] == g[w].log[k].version || g[i].rows[key] == start[key])
            && (g[i].rows[key] == g[w].log[k].version <==>
                  i == w || exists l: nat :: Visible(g, i, key, w, l) && WinsOverStart(g, i, w, start[key], g[w].log[l].version))
  {
    RunFollows(tr, start, w, key);
    var g := tr[|tr| - 1];
    assert RowFollows(g, start, i, w, key);
    if i == w { assert TakenAt(g, start, i, w, key, k); }
    if l: nat :| Visible(g, i, key, w, l) && WinsOverStart(g, i, w, start[key], g[w].log[l].version) {
      assert TakenAt(g, start, i, w, key, l);
    }
  }

  /** So nodes that have seen the same writes of the row agree on it, whatever the stamps of
      all others, as soon as one of them is stamped later than the start. */
  lemma SameWritesAgree(tr: seq<Group>, start: map<Key, Version>, w: NodeId, key: Key, i: NodeId, p: NodeId, l: nat)
    requires IsRun(AnyOrder, tr, start) && key in start && WellFormed(tr[|tr| - 1])
    requires w < |tr[|tr| - 1]| && i < |tr[|tr| - 1]| && p < |tr[|tr| - 1]| && OnlyWriter(tr[|tr| - 1], key, w)
    requires var g := tr[|tr| - 1]; forall k: nat :: Visible(g, i, key, w, k) <==> Visible(g, p, key, w, k)
    requires var g := tr[|tr| - 1]; Visible(g, i, key, w, l) && g[w].log[l].version.ts > start[key].ts
    ensures var g := tr[|tr| - 1];
            key in g[i].rows && key in g[p].rows && g[i].rows[key] == g[p].rows[key] && g[i].rows[key].origin == Some(w)
  {
    RunFollows(tr, start, w, key);
    var g := tr[|tr| - 1];
    assert RowFollows(g, start, i, w, key) && RowFollows(g, start, p, w, key);
    assert TakenAt(g, start, i, w, key, l) && TakenAt(g, start, p, w, key, l);
  }

  // The run in which the first write of a row is stamped before the start.

  function Early(): Version { Version(-5, Some(1), 4) }

  function EarlyReader(k: nat): Node { Node(1, TieStart(), [], if k == 0 then [0, 0] else [0, 1]) }

  function EarlyWriter(k: nat): Node {
    if k == 0 then Node(2, TieStart(), [], [0, 0]) else Node(2, TieStart()[7 := Early()], [Write(7, Early())], [0, 0])
  }

  lemma EarlyIsWritten()
    ensures StepsTo(AnyOrder, [EarlyReader(0), EarlyWriter(0)], [EarlyReader(0), EarlyWriter(1)])
  {
    var g := [EarlyReader(0), EarlyWriter(0)];
    assert Next(g, 1, LocalWrite(7, -5, 4)) == EarlyWriter(1);
    Stepped(AnyOrder, g, [EarlyReader(0), EarlyWriter(1)], 1, LocalWrite(7, -5, 4));
  }

  lemma EarlyIsRead()
    ensures StepsTo(AnyOrder, [EarlyReader(0), EarlyWriter(1)], [EarlyReader(1), EarlyWriter(1)])
  {
    var g := [EarlyReader(0), EarlyWriter(1)];
    assert Next(g, 0, Deliver(1)) == EarlyReader(1);
    Stepped(AnyOrder, g, [EarlyReader(1), EarlyWriter(1)], 0, Deliver(1));
  }

  lemma EarlyStarts()
    ensures Init([EarlyReader(0), EarlyWriter(0)], TieStart())
    ensures AllDelivered([EarlyReader(1), EarlyWriter(1)]) && OnlyWriter([EarlyReader(1), EarlyWriter(1)], 7, 1)
  {
  }

  /** A row that one node writes, with a stamp before the start: the other node has seen the
      write and still holds the start. */
  lemma EarlyStampIsRejected() returns (tr: seq<Group>, start: map<Key, Version>)
    ensures IsRun(AnyOrder, tr, start) && 7 in start
    ensures var g := tr[|tr| - 1];
            AllDelivered(g) && |g| == 2 && OnlyWriter(g, 7, 1) && 7 in g[0].rows && 7 in g[1].rows
            && g[0].rows[7] == start[7] && g[1].rows[7].val == 4 && start[7].val == 0
  {
    hide StepsTo, Init, OnlyWriter, AllDelivered;
    start := TieStart();
    EarlyStarts();
    EarlyIsWritten();
    EarlyIsRead();
    tr := Grow(AnyOrder, [[EarlyReader(0), EarlyWriter(0)]], start, [EarlyReader(0), EarlyWriter(1)]);
    tr := Grow(AnyOrder, tr, start, [EarlyReader(1), EarlyWriter(1)]);
  }
}

/** Node sequence ids: each joining node takes the lowest id that no live node holds. */
module SeqIds {
  import opened Common
  import opened NodeStatus
  import Snowflake

  /** The row of a node in the table of nodes. */
  datatype Row = Row(status: Status, seqId: Option<nat>)

  type Table = map<nat, Row>

  predicate Live(r: Row) { r.status != Killed }

  predicate HasLiveId(t: Table, k: nat) { k in t && Live(t[k]) && t[k].seqId.Some? }

  ghost function Holders(t: Table): set<nat> { set k | k in t && HasLiveId(t, k) }

  ghost function LiveIds(t: Table): set<nat> { set k | k in t && HasLiveId(t, k) :: t[k].seqId.value }

  ghost function AllIds(t: Table): set<nat> { set k | k in t && t[k].seqId.Some? :: t[k].seqId.value }

  // ---- the query -----------------------------------------------------------------------

  ghost predicate IsLowest(s: set<nat>, m: nat) { m in s && forall x :: x in s ==> m <= x }

  ghost predicate IsHighest(s: set<nat>, m: nat) { m in s && forall x :: x in s ==> x <= m }

  lemma {:induction false} HasExtremes(s: set<nat>)
    requires s != {}
    ensures (exists m :: IsLowest(s, m)) && (exists m :: IsHighest(s, m))
    decreases |s|
  {
    var a :| a in s;
    var s' := s - {a};
    if s' == {} {
      assert s == {a};
      assert IsLowest(s, a) && IsHighest(s, a);
    } else {
      HasExtremes(s');
      var lo :| IsLowest(s', lo);
      var hi :| IsHighest(s', hi);
      assert s == s' + {a};
      assert IsLowest(s, if a < lo then a else lo);
      assert IsHighest(s, if a > hi then a else hi);
    }
  }

  ghost function Lowest(s: set<nat>): (m: nat)
    requires s != {}
    ensures m in s && forall x :: x in s ==> m <= x
  {
    HasExtremes(s);
    var m: nat :| IsLowest(s, m);
    m
  }

  /** The maximum, or 0 where the query finds no value. */
  ghost function Highest(s: set<nat>): (m: nat)
    ensures s == {} ==> m == 0
    ensures s != {} ==> m in s && forall x :: x in s ==> x <= m
  {
    if s == {} then 0
    else
      HasExtremes(s);
      var m: nat :| IsHighest(s, m);
      m
  }

  /** Ids up to the highest one ever given out that no live node holds. */
  ghost function Released(t: Table): set<nat> {
    set x | 1 <= x <= Highest(AllIds(t)) && x !in LiveIds(t)
  }

  /** The lowest released id, otherwise one more than the highest in use. */
  ghost function NextId(t: Table): nat {
    if Released(t) != {} then Lowest(Released(t)) else Highest(LiveIds(t)) + 1
  }

  ghost predicate Positive(t: Table) {
    forall k :: k in t && t[k].seqId.Some? ==> t[k].seqId.value >= 1
  }

  lemma LiveIdsInAll(t: Table)
    ensures LiveIds(t) <= AllIds(t)
  {
  }

  /** The query finds the least positive number that no live node holds. */
  lemma NextIdIsLeastFree(t: Table)
    requires Positive(t)
    ensures NextId(t) >= 1 && NextId(t) !in LiveIds(t)
    ensures forall x :: 1 <= x < NextId(t) ==> x in LiveIds(t)
  {
    LiveIdsInAll(t);
    var all, live := AllIds(t), LiveIds(t);
    if Released(t) != {} {
      var m := Lowest(Released(t));
      assert m in Released(t);
      forall x | 1 <= x < m ensures x in live {
        assert x !in live ==> x in Released(t);
      }
    } else {
      forall x | 1 <= x <= Highest(all) ensures x in live {
        assert x !in live ==> x in Released(t);
      }
    }
  }

  // ---- how large ids get ---------------------------------------------------------------------

  lemma {:induction false} Subset(a: set<nat>, b: set<nat>)
    requires a <= b
    ensures |a| <= |b|
    decreases |a|
  {
    if x :| x in a {
      Subset(a - {x}, b - {x});
    } else {
      assert a == {};
    }
  }

  ghost function UpTo(n: nat): (s: set<nat>)
    ensures forall x :: x in s <==> 1 <= x <= n
  {
    if n == 0 then {} else UpTo(n - 1) + {n}
  }

  lemma {:induction false} UpToSize(n: nat)
    ensures |UpTo(n)| == n
  {
    if n > 0 { UpToSize(n - 1); }
  }

  ghost function IdsOf(t: Table, ks: set<nat>): set<nat>
    requires forall k :: k in ks ==> HasLiveId(t, k)
  {
    set k | k in ks && HasLiveId(t, k) :: t[k].seqId.value
  }

  lemma {:induction false} NoMoreIdsThanNodes(t: Table, ks: set<nat>)
    requires forall k :: k in ks ==> HasLiveId(t, k)
    ensures |IdsOf(t, ks)| <= |ks|
    decreases |ks|
  {
    if ks != {} {
      var k :| k in ks;
      NoMoreIdsThanNodes(t, ks - {k});
      assert IdsOf(t, ks) == IdsOf(t, ks - {k}) + {t[k].seqId.value};
    } else {
      assert IdsOf(t, ks) == {};
    }
  }

  /** The id found is at most one more than the number of live nodes that hold one. */
  lemma NextIdBound(t: Table)
    requires Positive(t)
    ensures NextId(t) <= |Holders(t)| + 1
  {
    NextIdIsLeastFree(t);
    var n := NextId(t) - 1;
    UpToSize(n);
    assert UpTo(n) <= LiveIds(t);
    Subset(UpTo(n), LiveIds(t));
    assert IdsOf(t, Holders(t)) == LiveIds(t);
    NoMoreIdsThanNodes(t, Holders(t));
  }

  // ---- runs ------------------------------------------------------------------------------------

  datatype Event =
    | Register(node: nat)
    | SetReady(node: nat)
    | SetStatus(node: nat, status: Status)
    | Kill(node: nat)
    | Standalone(node: nat)

  /** A node that starts a group alone takes id 1; a killed node does not come back with
      the id it had. */
  ghost predicate Enabled(t: Table, ev: Event) {
    match ev
    case Register(k) => k !in t
    case SetReady(k) => k in t
    case SetStatus(k, s) => k in t && Live(t[k]) && s != Killed
    case Kill(k) => k in t
    case Standalone(k) => k in t && t[k].status == BeginningInit && forall j :: j in t && j != k ==> !HasLiveId(t, j)
  }

  ghost function Next(t: Table, ev: Event): Table
    requires Enabled(t, ev)
  {
    match ev
    case Register(k) => t[k := Row(BeginningInit, None)]
    case SetReady(k) => t[k := Row(Ready, Some(NextId(t)))]
    case SetStatus(k, s) => t[k := t[k].(status := s)]
    case Kill(k) => t[k := t[k].(status := Killed)]
    case Standalone(k) => t[k := Row(Ready, Some(1))]
  }

  ghost predicate Distinct(t: Table) {
    forall j, k :: HasLiveId(t, j) && HasLiveId(t, k) && t[j].seqId == t[k].seqId ==> j == k
  }

  ghost predicate Inv(t: Table) { Positive(t) && Distinct(t) }

  lemma StepKeepsInv(t: Table, ev: Event)
    requires Inv(t) && Enabled(t, ev)
    ensures Inv(Next(t, ev))
  {
    var t' := Next(t, ev);
    if ev.SetReady? {
      NextIdIsLeastFree(t);
      forall j | HasLiveId(t, j) ensures t[j].seqId != Some(NextId(t)) {
        assert t[j].seqId.value in LiveIds(t);
      }
    }
    forall j, k | HasLiveId(t', j) && HasLiveId(t', k) && t'[j].seqId == t'[k].seqId ensures j == k {
      assert j != ev.node ==> HasLiveId(t, j);
      assert k != ev.node ==> HasLiveId(t, k);
    }
  }

  ghost predicate StepsTo(t: Table, t': Table) {
    exists ev :: Enabled(t, ev) && t' == Next(t, ev)
  }

  ghost predicate StepsAt(tr: seq<Table>, k: nat)
    requires k + 1 < |tr|
  {
    StepsTo(tr[k], tr[k + 1])
  }

  ghost predicate IsRun(tr: seq<Table>) {
    |tr| > 0 && tr[0] == map[] && forall k: nat :: k + 1 < |tr| ==> StepsAt(tr, k)
  }

  /** Never more than `peak` live nodes with an id. */
  ghost predicate AtMost(tr: seq<Table>, peak: nat) {
    forall k :: 0 <= k < |tr| ==> |Holders(tr[k])| <= peak
  }

  lemma LastStep(tr: seq<Table>)
    requires IsRun(tr) && |tr| > 1
    ensures IsRun(tr[..|tr| - 1]) && StepsTo(tr[|tr| - 2], tr[|tr| - 1])
  {
    var head := tr[..|tr| - 1];
    assert StepsAt(tr, |tr| - 2);
    forall k: nat | k + 1 < |head| ensures StepsAt(head, k) { assert StepsAt(tr, k); }
  }

  ghost predicate Bounded(t: Table, bound: nat) {
    forall k :: HasLiveId(t, k) ==> 1 <= t[k].seqId.value <= bound
  }

  lemma StepKeepsBound(t: Table, ev: Event, bound: nat)
    requires Inv(t) && Enabled(t, ev) && Bounded(t, bound) && |Holders(t)| + 1 <= bound
    ensures Bounded(Next(t, ev), bound)
  {
    NextIdBound(t);
    NextIdIsLeastFree(t);
    var t' := Next(t, ev);
    forall k | HasLiveId(t', k) ensures 1 <= t'[k].seqId.value <= bound {
      assert k != ev.node ==> HasLiveId(t, k);
    }
  }

  /** Through any history of joins, restarts and detaches, live nodes never share an id, and
      ids stay within one of the largest number of nodes that held one together. */
  lemma {:induction false} LiveIdsAreUnique(tr: seq<Table>, peak: nat)
    requires IsRun(tr) && AtMost(tr, peak)
    ensures Inv(tr[|tr| - 1]) && Bounded(tr[|tr| - 1], peak + 1)
  {
    if |tr| > 1 {
      var n := |tr| - 1;
      LastStep(tr);
      LiveIdsAreUnique(tr[..n], peak);
      var t, t' := tr[n - 1], tr[n];
      assert |Holders(t)| <= peak;
      assert Inv(t) && Bounded(t, peak + 1);
      var ev :| Enabled(t, ev) && t' == Next(t, ev);
      StepKeepsInv(t, ev);
      StepKeepsBound(t, ev, peak + 1);
    }
  }

  // ---- ids kept by sessions -----------------------------------------------------------------------

  /** The id of a live node changes in exactly one kind of step: the node is made ready again,
      and takes a new one because it still holds the old.  (A node that is ready has nothing
      left to start alone with.) */
  lemma IdChangesExactly(t: Table, ev: Event, k: nat)
    requires Inv(t) && Enabled(t, ev) && HasLiveId(t, k)
    ensures Next(t, ev)[k].seqId != t[k].seqId <==>
              ev == SetReady(k) || (ev == Standalone(k) && t[k].seqId != Some(1))
  {
    if ev == SetReady(k) {
      NextIdIsLeastFree(t);
      assert t[k].seqId.value in LiveIds(t);
    }
  }

  /** The step gives node `k` an id. */
  ghost predicate Numbers(t: Table, t': Table, k: nat) {
    exists ev :: (ev == SetReady(k) || ev == Standalone(k)) && Enabled(t, ev) && t' == Next(t, ev)
  }

  /** Node `k` is live with an id from table `m` on and is not made ready again. */
  ghost predicate KeepsId(tr: seq<Table>, m: nat, k: nat) {
    && m < |tr| && (forall l :: m <= l < |tr| ==> HasLiveId(tr[l], k))
    && (forall l: nat :: m <= l && l + 1 < |tr| ==> !Numbers(tr[l], tr[l + 1], k))
  }

  /** An id that a session read in table `m` is still the one in the table. */
  lemma {:induction false} KeptIdIsCurrent(tr: seq<Table>, peak: nat, m: nat, k: nat)
    requires IsRun(tr) && AtMost(tr, peak) && KeepsId(tr, m, k)
    ensures tr[|tr| - 1][k].seqId == tr[m][k].seqId
    decreases |tr|
  {
    var n := |tr| - 1;
    if m < n {
      LastStep(tr);
      var head := tr[..n];
      forall l: nat | m <= l && l + 1 < |head| ensures !Numbers(head[l], head[l + 1], k) {
        assert !Numbers(tr[l], tr[l + 1], k);
      }
      KeptIdIsCurrent(head, peak, m, k);
      LiveIdsAreUnique(head, peak);
      var t, t' := tr[n - 1], tr[n];
      var l := n - 1;
      assert !Numbers(tr[l], tr[l + 1], k);
      var ev :| Enabled(t, ev) && t' == Next(t, ev);
      IdChangesExactly(t, ev, k);
    }
  }

  /** Values that sessions of two live nodes draw never collide, each session keeping the id it
      read, whenever that was, as long as its node was not made ready again since; and with at
      most 1022 nodes no id is too large to draw any. */
  lemma GlobalSequenceIsGlobal(tr: seq<Table>, peak: nat, j: nat, k: nat, mj: nat, mk: nat,
                               micros: int, micros': int, n: nat, n': nat)
    requires IsRun(tr) && AtMost(tr, peak) && peak <= 1022
    requires j != k && KeepsId(tr, mj, j) && KeepsId(tr, mk, k)
    requires 0 <= Snowflake.Milliseconds(micros) <= Snowflake.MAX_TIMESTAMP
    requires 0 <= Snowflake.Milliseconds(micros') <= Snowflake.MAX_TIMESTAMP
    ensures var a := Snowflake.NextValue(micros, tr[mj][j].seqId.value, n);
            var b := Snowflake.NextValue(micros', tr[mk][k].seqId.value, n');
            a.Value? && b.Value? && a != b
  {
    KeptIdIsCurrent(tr, peak, mj, j);
    KeptIdIsCurrent(tr, peak, mk, k);
    LiveIdsAreUnique(tr, peak);
    var t := tr[|tr| - 1];
    Snowflake.TruncModRange(n, Snowflake.MAX_SEQ_ID);
    Snowflake.TruncModRange(n', Snowflake.MAX_SEQ_ID);
    Snowflake.DistinctAcrossNodes(micros, t[j].seqId.value, n, micros', t[k].seqId.value, n');
  }

  // ---- a kept id that is given away ----------------------------------------------------------------

  lemma ExtendRun(tr: seq<Table>, ev: Event) returns (tr': seq<Table>)
    requires IsRun(tr) && Enabled(tr[|tr| - 1], ev)
    ensures IsRun(tr') && tr' == tr + [Next(tr[|tr| - 1], ev)]
  {
    tr' := tr + [Next(tr[|tr| - 1], ev)];
    forall k: nat | k + 1 < |tr'| ensures StepsAt(tr', k) {
      if k + 1 < |tr| { assert StepsAt(tr, k); }
    }
  }

  lemma {:induction false} RunInv(tr: seq<Table>)
    requires IsRun(tr)
    ensures Inv(tr[|tr| - 1])
  {
    if |tr| > 1 {
      LastStep(tr);
      RunInv(tr[..|tr| - 1]);
      var t := tr[|tr| - 2];
      var ev :| Enabled(t, ev) && tr[|tr| - 1] == Next(t, ev);
      StepKeepsInv(t, ev);
    }
  }

  /** Ids below `x` that no live node holds. */
  ghost function FreeBelow(t: Table, x: nat): set<nat> { UpTo(x) - LiveIds(t) }

  /** A node that joins takes the least free id. */
  lemma NewNodeTakesLeast(t: Table, j: nat)
    requires Inv(t) && j !in t
    ensures var t1 := Next(t, Register(j));
            && Enabled(t, Register(j)) && Enabled(t1, SetReady(j))
            && var t2 := Next(t1, SetReady(j));
               && HasLiveId(t2, j) && t2[j].seqId == Some(NextId(t)) && LiveIds(t2) == LiveIds(t) + {NextId(t)}
               && forall k :: k in t ==> k in t2 && t2[k] == t[k]
  {
    var t1 := Next(t, Register(j));
    SameLiveIds(t, t1, j);
    StepKeepsInv(t, Register(j));
    NextIdIsLeastFree(t);
    NextIdIsLeastFree(t1);
    LeastIsOne(LiveIds(t), NextId(t), NextId(t1));
    AddedLiveId(t1, Next(t1, SetReady(j)), j);
  }

  lemma SameLiveIds(t: Table, t1: Table, j: nat)
    requires j !in t && t1 == t[j := Row(BeginningInit, None)]
    ensures LiveIds(t1) == LiveIds(t)
  {
    forall x ensures x in LiveIds(t) <==> x in LiveIds(t1) {
      if x in LiveIds(t) {
        var k :| k in t && HasLiveId(t, k) && t[k].seqId.value == x;
        assert HasLiveId(t1, k) && t1[k].seqId.value == x;
      }
      if x in LiveIds(t1) {
        var k :| k in t1 && HasLiveId(t1, k) && t1[k].seqId.value == x;
        assert HasLiveId(t, k);
      }
    }
  }

  lemma AddedLiveId(t1: Table, t2: Table, j: nat)
    requires j in t1 && !HasLiveId(t1, j) && t2 == t1[j := Row(Ready, Some(NextId(t1)))]
    ensures LiveIds(t2) == LiveIds(t1) + {NextId(t1)}
  {
    assert HasLiveId(t2, j);
    forall x ensures x in LiveIds(t2) <==> x in LiveIds(t1) + {NextId(t1)} {
      if x in LiveIds(t1) {
        var k :| k in t1 && HasLiveId(t1, k) && t1[k].seqId.value == x;
        assert HasLiveId(t2, k) && t2[k].seqId.value == x;
      }
      if x in LiveIds(t2) {
        var k :| k in t2 && HasLiveId(t2, k) && t2[k].seqId.value == x;
        assert k != j ==> HasLiveId(t1, k);
      }
    }
  }

  lemma LeastIsOne(live: set<nat>, m: nat, n: nat)
    requires m >= 1 && n >= 1 && m !in live && n !in live
    requires (forall x :: 1 <= x < m ==> x in live) && (forall x :: 1 <= x < n ==> x in live)
    ensures m == n
  {
  }

  ghost function NewKey(t: Table): (j: nat)
    ensures j !in t
  {
    if t.Keys == {} then 0 else Highest(t.Keys) + 1
  }

  /** One more node joins. */
  lemma Joins(tr: seq<Table>) returns (tr': seq<Table>, j: nat)
    requires IsRun(tr)
    ensures IsRun(tr') && tr <= tr' && j !in tr[|tr| - 1]
    ensures var t, t' := tr[|tr| - 1], tr'[|tr'| - 1];
            && Inv(t) && HasLiveId(t', j) && t'[j].seqId == Some(NextId(t)) && LiveIds(t') == LiveIds(t) + {NextId(t)}
            && forall k :: k in t ==> k in t' && t'[k] == t[k]
  {
    hide StepsTo, StepsAt, LiveIds, NextId, Inv;
    var t := tr[|tr| - 1];
    RunInv(tr);
    j := NewKey(t);
    NewNodeTakesLeast(t, j);
    var tr1 := ExtendRun(tr, Register(j));
    tr' := ExtendRun(tr1, SetReady(j));
  }

  /** Joining nodes fill the free ids from below, until one of them takes `x`. */
  lemma {:induction false} FreeIdIsTaken(tr: seq<Table>, x: nat, k: nat) returns (tr': seq<Table>, j: nat)
    requires IsRun(tr) && x >= 1 && x !in LiveIds(tr[|tr| - 1]) && k in tr[|tr| - 1]
    ensures IsRun(tr') && tr <= tr' && j != k && HasLiveId(tr'[|tr'| - 1], j) && tr'[|tr'| - 1][j].seqId == Some(x)
    ensures k in tr'[|tr'| - 1] && tr'[|tr'| - 1][k] == tr[|tr| - 1][k]
    decreases |FreeBelow(tr[|tr| - 1], x)|
  {
    hide LiveIds, NextId, FreeBelow, StepsTo, StepsAt;
    var t := tr[|tr| - 1];
    tr', j := Joins(tr);
    if NextId(t) != x {
      var tr1 := tr';
      FewerFree(t, tr1[|tr1| - 1], x);
      tr', j := FreeIdIsTaken(tr1, x, k);
    }
  }

  lemma FewerFree(t: Table, t': Table, x: nat)
    requires Positive(t) && x !in LiveIds(t) && x >= 1 && NextId(t) != x && LiveIds(t') == LiveIds(t) + {NextId(t)}
    ensures x !in LiveIds(t') && |FreeBelow(t', x)| < |FreeBelow(t, x)|
  {
    hide LiveIds, NextId, Positive;
    NextIdIsLeastFree(t);
    TakingOne(UpTo(x), LiveIds(t), NextId(t));
  }

  lemma TakingOne(all: set<nat>, live: set<nat>, y: nat)
    requires y in all && y !in live
    ensures |all - (live + {y})| < |all - live|
  {
    assert all - live == (all - (live + {y})) + {y};
  }

  lemma IdIsFreed(t: Table, k: nat)
    requires Inv(t) && HasLiveId(t, k)
    ensures Enabled(t, SetReady(k))
    ensures var t' := Next(t, SetReady(k));
            HasLiveId(t', k) && t'[k].seqId != t[k].seqId && t[k].seqId.value !in LiveIds(t')
  {
    IdChangesExactly(t, SetReady(k), k);
  }

  /** Without that condition values do collide: from any reachable table, a live node that is made
      ready again takes a new id, and some continuation gives the one its sessions keep to
      another live node, so that both draw the same value. */
  lemma KeptIdsCanCollide(tr: seq<Table>, k: nat, micros: int, n: nat) returns (tr': seq<Table>, j: nat)
    requires IsRun(tr) && HasLiveId(tr[|tr| - 1], k) && tr[|tr| - 1][k].seqId.value <= Snowflake.MAX_NODE_ID
    requires 0 <= Snowflake.Milliseconds(micros) <= Snowflake.MAX_TIMESTAMP
    ensures IsRun(tr') && tr < tr' && Enabled(tr[|tr| - 1], SetReady(k)) && tr'[|tr|] == Next(tr[|tr| - 1], SetReady(k))
    ensures j != k && HasLiveId(tr'[|tr'| - 1], k) && HasLiveId(tr'[|tr'| - 1], j)
    ensures var kept, given := tr[|tr| - 1][k].seqId.value, tr'[|tr'| - 1][j].seqId.value;
            && tr'[|tr'| - 1][k].seqId != Some(kept)
            && Snowflake.NextValue(micros, kept, n).Value?
            && Snowflake.NextValue(micros, kept, n) == Snowflake.NextValue(micros, given, n)
  {
    var t := tr[|tr| - 1];
    RunInv(tr);
    IdIsFreed(t, k);
    var tr1 := ExtendRun(tr, SetReady(k));
    tr', j := FreeIdIsTaken(tr1, t[k].seqId.value, k);
    Snowflake.TruncModRange(n, Snowflake.MAX_SEQ_ID);
  }
}

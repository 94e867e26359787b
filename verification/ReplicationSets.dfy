/** Which changes of a table are sent: replication sets, their configuration and the cache
    of the decision in the process that decodes the log. */
module ReplicationSets {
  import opened Common

  // ---- names in order ------------------------------------------------------------------

  /** The order of the C library's string comparison. */
  predicate Less(a: string, b: string) {
    b != "" && (a == "" || a[0] < b[0] || (a[0] == b[0] && Less(a[1..], b[1..])))
  }

  lemma {:induction false} OneOrder(a: string, b: string)
    ensures Less(a, b) || a == b || Less(b, a)
    ensures !(Less(a, b) && Less(b, a)) && !Less(a, a)
  {
    if a != "" && b != "" && a[0] == b[0] {
      OneOrder(a[1..], b[1..]);
      assert a == [a[0]] + a[1..] && b == [b[0]] + b[1..];
    }
    if a != "" { OneOrder(a[1..], a[1..]); }
  }

  lemma {:induction false} LessTransitive(a: string, b: string, c: string)
    requires Less(a, b) && Less(b, c)
    ensures Less(a, c)
  {
    if a != "" && a[0] == b[0] && b[0] == c[0] { LessTransitive(a[1..], b[1..], c[1..]); }
  }

  predicate Sorted(s: seq<string>) {
    forall i, j :: 0 <= i < j < |s| ==> !Less(s[j], s[i])
  }

  // ---- sorting the names of a label --------------------------------------------------------

  function Insert(x: string, s: seq<string>): seq<string> {
    if s == [] || !Less(s[0], x) then [x] + s else [s[0]] + Insert(x, s[1..])
  }

  function Sort(s: seq<string>): seq<string> {
    if s == [] then [] else Insert(s[0], Sort(s[1..]))
  }

  predicate AllAtLeast(s: seq<string>, x: string) {
    forall i :: 0 <= i < |s| ==> !Less(s[i], x)
  }

  lemma {:induction false} InsertElements(x: string, s: seq<string>)
    ensures multiset(Insert(x, s)) == multiset{x} + multiset(s)
  {
    if s != [] && Less(s[0], x) {
      InsertElements(x, s[1..]);
      assert s == [s[0]] + s[1..];
    }
  }

  lemma MembersByMultiset(s: seq<string>, t: seq<string>, y: string)
    requires multiset(s) == multiset(t)
    ensures y in s <==> y in t
  {
    assert y in s <==> y in multiset(s);
    assert y in t <==> y in multiset(t);
  }

  lemma {:induction false} InsertSorted(x: string, s: seq<string>)
    requires Sorted(s)
    ensures Sorted(Insert(x, s))
  {
    if s == [] {
    } else if !Less(s[0], x) {
      forall i | 0 <= i < |s| ensures !Less(s[i], x) {
        if i > 0 && Less(s[i], x) {
          OneOrder(s[0], s[i]);
          OneOrder(s[0], x);
          if Less(s[0], s[i]) { LessTransitive(s[0], s[i], x); }
        }
      }
    } else {
      InsertSorted(x, s[1..]);
      InsertElements(x, s[1..]);
      var t := Insert(x, s[1..]);
      OneOrder(s[0], x);
      forall i | 0 <= i < |t| ensures !Less(t[i], s[0]) {
        assert t[i] in multiset(t);
        if t[i] != x {
          assert t[i] in s[1..];
          var k :| 0 <= k < |s[1..]| && s[1..][k] == t[i];
          assert s[k + 1] == t[i];
        }
      }
      ConsSorted(s[0], t);
    }
  }

  lemma ConsSorted(x: string, t: seq<string>)
    requires Sorted(t) && AllAtLeast(t, x)
    ensures Sorted([x] + t)
  {
  }

  /** Sorting keeps the names and puts them in order. */
  lemma {:induction false} SortIsSorted(s: seq<string>)
    ensures Sorted(Sort(s)) && multiset(Sort(s)) == multiset(s)
  {
    if s != [] {
      SortIsSorted(s[1..]);
      InsertSorted(s[0], Sort(s[1..]));
      InsertElements(s[0], Sort(s[1..]));
      assert s == [s[0]] + s[1..];
    }
  }

  /** The search of the C library in the sorted names. */
  method BinarySearch(s: seq<string>, name: string) returns (found: bool)
    requires Sorted(s)
    ensures found <==> name in s
  {
    var lo, hi := 0, |s|;
    while lo < hi
      invariant 0 <= lo <= hi <= |s|
      invariant forall i :: 0 <= i < lo ==> s[i] != name
      invariant forall i :: hi <= i < |s| ==> s[i] != name
    {
      var mid := (lo + hi) / 2;
      if s[mid] == name { return true; }
      OneOrder(s[mid], name);
      if Less(s[mid], name) {
        forall i | lo <= i <= mid ensures s[i] != name {
          if i < mid { assert !Less(s[mid], s[i]); }
        }
        lo := mid + 1;
      } else {
        forall i | mid <= i < hi ensures s[i] != name {
          if mid < i { assert !Less(s[i], s[mid]); }
        }
        hi := mid;
      }
    }
    found := false;
  }

  // ---- what is to be sent -----------------------------------------------------------------------

  datatype Action = InsertAction | UpdateAction | DeleteAction

  /** The configured actions of a set. */
  datatype SetConfig = SetConfig(inserts: bool, updates: bool, deletes: bool)

  function Enables(c: SetConfig, a: Action): bool {
    match a
    case InsertAction => c.inserts
    case UpdateAction => c.updates
    case DeleteAction => c.deletes
  }

  /** The sets a table is in, none when it is not configured. */
  type Label = Option<seq<string>>

  predicate InSet(sets: Label, name: string) {
    name == "all" || (name == "default" && sets == None) || (sets.Some? && name in sets.value)
  }

  /** The change is sent when the peer asked for everything, or for some set that contains
      the table and that has no configuration or one that allows the action. */
  predicate Wanted(sets: Label, wants: Option<seq<string>>, config: map<string, SetConfig>, a: Action) {
    wants == None || exists i :: 0 <= i < |wants.value| && Contributes(sets, wants.value[i], config, a)
  }

  predicate Contributes(sets: Label, name: string, config: map<string, SetConfig>, a: Action) {
    InSet(sets, name) && (name in config ==> Enables(config[name], a))
  }

  // ---- the decision -------------------------------------------------------------------------------

  /** A cache entry: the sorted sets of the table and, once computed, the actions to send. */
  datatype Entry = Entry(valid: bool, sets: Label, computed: bool, sends: SetConfig)

  method InReplicationSet(sets: Label, name: string) returns (r: bool)
    requires sets.Some? ==> Sorted(sets.value)
    ensures r <==> InSet(sets, name)
    ensures sets == None ==> (r <==> name == "all" || name == "default")
    ensures sets.Some? ==> (r <==> name == "all" || name in sets.value)
  {
    if name == "all" { return true; }
    if name == "default" && sets == None { return true; }
    if sets == None || |sets.value| == 0 { return false; }
    r := BinarySearch(sets.value, name);
  }

  /** Union over the configured sets, stopping as soon as every action is to be sent. */
  method ComputeSettings(sets: Label, wants: Option<seq<string>>, config: map<string, SetConfig>) returns (sends: SetConfig)
    requires sets.Some? ==> Sorted(sets.value)
    ensures forall a :: Enables(sends, a) <==> Wanted(sets, wants, config, a)
  {
    if wants == None { return SetConfig(true, true, true); }
    sends := SetConfig(false, false, false);
    var names := wants.value;
    var i := 0;
    while i < |names|
      invariant 0 <= i <= |names|
      invariant forall a :: Enables(sends, a) <==> exists k :: 0 <= k < i && Contributes(sets, names[k], config, a)
    {
      ghost var before := sends;
      var there := InReplicationSet(sets, names[i]);
      if there {
        var c := if names[i] in config then config[names[i]] else SetConfig(true, true, true);
        sends := SetConfig(sends.inserts || c.inserts, sends.updates || c.updates, sends.deletes || c.deletes);
        assert forall a :: Enables(sends, a) <==> Enables(before, a) || Enables(c, a);
      }
      assert forall a :: Enables(sends, a) <==> Enables(before, a) || Contributes(sets, names[i], config, a);
      if sends == SetConfig(true, true, true) {
        forall a ensures Wanted(sets, wants, config, a) {
          assert Enables(sends, a);
        }
        return;
      }
      i := i + 1;
    }
  }

  // ---- the cache ------------------------------------------------------------------------------------

  type Oid = nat
  type Cache = map<Oid, Entry>
  type Config = map<string, SetConfig>

  function SortedLabel(sets: Label): Label {
    if sets.Some? then Some(Sort(sets.value)) else None
  }

  function Settings(sets: Label, wants: Option<seq<string>>, config: Config): SetConfig {
    SetConfig(Wanted(sets, wants, config, InsertAction), Wanted(sets, wants, config, UpdateAction),
              Wanted(sets, wants, config, DeleteAction))
  }

  /** Each setting by the sets and their configuration: everything for a peer that wants no
      sets in particular; otherwise some wanted set contains the table and is not configured,
      or configured to send it. */
  lemma SettingsAre(sets: Label, wants: Option<seq<string>>, config: Config)
    ensures var s := Settings(sets, wants, config);
            if wants == None then s == SetConfig(true, true, true)
            else
              var ws := wants.value;
              && (s.inserts <==> exists i :: 0 <= i < |ws| && InSet(sets, ws[i]) && (ws[i] !in config || config[ws[i]].inserts))
              && (s.updates <==> exists i :: 0 <= i < |ws| && InSet(sets, ws[i]) && (ws[i] !in config || config[ws[i]].updates))
              && (s.deletes <==> exists i :: 0 <= i < |ws| && InSet(sets, ws[i]) && (ws[i] !in config || config[ws[i]].deletes))
  {
  }

  /** An entry that is missing or was invalidated is read again from the label. */
  function Opened(cache: Cache, oid: Oid, sets: Label): (c: Cache)
    ensures oid in c && c[oid].valid
  {
    if oid in cache && cache[oid].valid then cache
    else cache[oid := Entry(true, SortedLabel(sets), false, SetConfig(false, false, false))]
  }

  function Computed(cache: Cache, oid: Oid, wants: Option<seq<string>>, config: Config): (c: Cache)
    requires oid in cache
    ensures oid in c && c[oid].computed
  {
    var e := cache[oid];
    if e.computed then cache else cache[oid := e.(computed := true, sends := Settings(e.sets, wants, config))]
  }

  /** One entry, or all of them. */
  function Invalidated(cache: Cache, which: Option<Oid>): Cache {
    map k | k in cache :: if which == None || which == Some(k) then cache[k].(valid := false) else cache[k]
  }

  /** Tables of the extension are treated apart: some are never sent, one configures the
      sets, and the rest are always sent. */
  datatype Kind = Unreplicated | SetConfiguration | OwnSchema | UserTable

  class Relcache {
    var entries: Cache

    constructor ()
      ensures entries == map[]
    {
      entries := map[];
    }

    ghost predicate AllSorted()
      reads this
    {
      forall k :: k in entries && entries[k].sets.Some? ==> Sorted(entries[k].sets.value)
    }

    method InvalidateCallback(which: Option<Oid>)
      modifies this
      ensures entries == Invalidated(old(entries), which)
    {
      if which.Some? {
        if which.value in entries {
          entries := entries[which.value := entries[which.value].(valid := false)];
        }
        assert entries.Keys == old(entries).Keys;
        return;
      }
      var left := entries.Keys;
      while left != {}
        invariant left <= old(entries).Keys == entries.Keys
        invariant forall k :: k in entries ==> entries[k] == if k in left then old(entries)[k] else old(entries)[k].(valid := false)
        decreases left
      {
        var k :| k in left;
        entries := entries[k := entries[k].(valid := false)];
        left := left - {k};
      }
    }

    method TableOpen(oid: Oid, sets: Label)
      requires AllSorted()
      modifies this
      ensures AllSorted() && entries == Opened(old(entries), oid, sets)
    {
      if oid in entries && entries[oid].valid { return; }
      if sets.Some? { SortIsSorted(sets.value); }
      entries := entries[oid := Entry(true, SortedLabel(sets), false, SetConfig(false, false, false))];
    }

    /** Whether a change is sent; a change of the set configuration flushes the cache. */
    method ShouldForwardChange(oid: Oid, kind: Kind, wants: Option<seq<string>>, config: Config, a: Action) returns (send: bool)
      requires AllSorted() && oid in entries
      modifies this
      ensures AllSorted()
      ensures kind == Unreplicated ==> !send && entries == old(entries)
      ensures kind == OwnSchema ==> send && entries == old(entries)
      ensures kind == SetConfiguration ==> send && entries == Invalidated(old(entries), None)
      ensures kind == UserTable ==> entries == Computed(old(entries), oid, wants, config)
      ensures kind == UserTable ==> send == Enables(entries[oid].sends, a)
    {
      if kind == Unreplicated { return false; }
      if kind == SetConfiguration { InvalidateCallback(None); }
      if kind == SetConfiguration || kind == OwnSchema { return true; }
      if !entries[oid].computed {
        var sends := ComputeSettings(entries[oid].sets, wants, config);
        assert Enables(sends, InsertAction) == sends.inserts;
        assert Enables(sends, UpdateAction) == sends.updates;
        assert Enables(sends, DeleteAction) == sends.deletes;
        entries := entries[oid := entries[oid].(computed := true, sends := sends)];
      }
      send := Enables(entries[oid].sends, a);
    }
  }

  // ---- the decision over a run ----------------------------------------------------------------------

  /** What the log says at this point of decoding: labels, set configuration, and what the
      peer asked for. */
  datatype World = World(labels: map<Oid, seq<string>>, config: Config, wants: Option<seq<string>>)

  function LabelOf(w: World, oid: Oid): Label { if oid in w.labels then Some(w.labels[oid]) else None }

  datatype State = State(world: World, cache: Cache)

  /** `sent` says whether the transaction that changed the configuration is one that this
      process sends on. */
  datatype Event =
    | Decide(oid: Oid)
    | SetLabel(oid: Oid, names: Option<seq<string>>)
    | Reconfigure(config: Config, sent: bool)
    | Invalidate(which: Option<Oid>)

  function Next(s: State, ev: Event): State {
    match ev
    case Decide(oid) =>
      var c := Opened(s.cache, oid, LabelOf(s.world, oid));
      s.(cache := Computed(c, oid, s.world.wants, s.world.config))
    case SetLabel(oid, names) =>
      var labels := if names.Some? then s.world.labels[oid := names.value] else s.world.labels - {oid};
      State(s.world.(labels := labels), Invalidated(s.cache, Some(oid)))
    case Reconfigure(config, sent) =>
      State(s.world.(config := config), if sent then Invalidated(s.cache, None) else s.cache)
    case Invalidate(which) => s.(cache := Invalidated(s.cache, which))
  }

  /** The history of a process that starts with an empty cache. */
  function Run(w: World, evs: seq<Event>): State
    decreases |evs|
  {
    if evs == [] then State(w, map[]) else Next(Run(w, evs[..|evs| - 1]), evs[|evs| - 1])
  }

  /** The configuration under which the decision for a table was last computed; none once its
      label was set, the cache was invalidated for it, or a configuration change was sent.
      A matter of the history alone. */
  function Basis(w: World, evs: seq<Event>, oid: Oid): Option<Config>
    decreases |evs|
  {
    if evs == [] then None
    else
      var before := evs[..|evs| - 1];
      var b := Basis(w, before, oid);
      match evs[|evs| - 1]
      case Decide(o) => if o == oid && b == None then Some(Run(w, before).world.config) else b
      case SetLabel(o, _) => if o == oid then None else b
      case Reconfigure(_, sent) => if sent then None else b
      case Invalidate(which) => if which == None || which == Some(oid) then None else b
  }

  /** What the cache holds for a table. */
  ghost predicate Holds(s: State, oid: Oid, basis: Option<Config>) {
    && (oid in s.cache && s.cache[oid].valid <==> basis.Some?)
    && (basis.Some? ==>
          var e := s.cache[oid];
          e.computed && e.sets == SortedLabel(LabelOf(s.world, oid)) && e.sends == Settings(e.sets, s.world.wants, basis.value))
  }

  lemma {:induction false} CacheHolds(w: World, evs: seq<Event>, oid: Oid)
    ensures Holds(Run(w, evs), oid, Basis(w, evs, oid)) && Run(w, evs).world.wants == w.wants
    decreases |evs|
  {
    if evs != [] {
      CacheHolds(w, evs[..|evs| - 1], oid);
    }
  }

  /** Sorting the label does not change what it contains. */
  lemma SortedLabelSame(sets: Label, wants: Option<seq<string>>, config: Config, a: Action)
    ensures Wanted(SortedLabel(sets), wants, config, a) <==> Wanted(sets, wants, config, a)
  {
    forall name ensures Contributes(SortedLabel(sets), name, config, a) <==> Contributes(sets, name, config, a) {
      if sets.Some? {
        SortIsSorted(sets.value);
        MembersByMultiset(Sort(sets.value), sets.value, name);
      }
    }
  }

  lemma SettingsSame(sets: Label, wants: Option<seq<string>>, config: Config)
    ensures Settings(SortedLabel(sets), wants, config) == Settings(sets, wants, config)
  {
    SortedLabelSame(sets, wants, config, InsertAction);
    SortedLabelSame(sets, wants, config, UpdateAction);
    SortedLabelSame(sets, wants, config, DeleteAction);
  }

  /** The decision now taken for a table is, for every action, the one the labels and the
      configuration call for. */
  ghost predicate Current(s: State, oid: Oid) {
    var s' := Next(s, Decide(oid));
    oid in s'.cache
    && forall a :: Enables(s'.cache[oid].sends, a) <==> Wanted(LabelOf(s.world, oid), s.world.wants, s.world.config, a)
  }

  lemma CurrentBySettings(s: State, oid: Oid)
    ensures oid in Next(s, Decide(oid)).cache
    ensures Current(s, oid) <==>
              Next(s, Decide(oid)).cache[oid].sends == Settings(LabelOf(s.world, oid), s.world.wants, s.world.config)
  {
    var now, then_ := Settings(LabelOf(s.world, oid), s.world.wants, s.world.config), Next(s, Decide(oid)).cache[oid].sends;
    assert forall a :: Enables(now, a) <==> Wanted(LabelOf(s.world, oid), s.world.wants, s.world.config, a);
    if Current(s, oid) {
      assert Enables(then_, InsertAction) == Enables(now, InsertAction);
      assert Enables(then_, UpdateAction) == Enables(now, UpdateAction);
      assert Enables(then_, DeleteAction) == Enables(now, DeleteAction);
    }
  }

  /** After any history the decision for a table is current if and only if nothing was decided
      since it last became invalid, or the configuration it was decided under calls for the
      same as the present one. */
  lemma DecisionIsExact(w: World, evs: seq<Event>, oid: Oid)
    ensures var s, basis := Run(w, evs), Basis(w, evs, oid);
            Current(s, oid) <==>
              basis == None
              || Settings(LabelOf(s.world, oid), w.wants, basis.value) == Settings(LabelOf(s.world, oid), w.wants, s.world.config)
  {
    var s, basis := Run(w, evs), Basis(w, evs, oid);
    CacheHolds(w, evs, oid);
    CurrentBySettings(s, oid);
    SettingsSame(LabelOf(s.world, oid), w.wants, if basis.Some? then basis.value else s.world.config);
  }

  predicate Flushed(ev: Event) { ev.Reconfigure? ==> ev.sent }

  lemma {:induction false} BasisIsCurrent(w: World, evs: seq<Event>, oid: Oid)
    requires forall i :: 0 <= i < |evs| ==> Flushed(evs[i])
    ensures Basis(w, evs, oid) == None || Basis(w, evs, oid) == Some(Run(w, evs).world.config)
    decreases |evs|
  {
    if evs != [] { BasisIsCurrent(w, evs[..|evs| - 1], oid); }
  }

  /** Over any history in which configuration changes are sent on, every decision is
      current. */
  lemma EveryDecisionIsCurrent(w: World, evs: seq<Event>, oid: Oid)
    requires forall i :: 0 <= i < |evs| ==> Flushed(evs[i])
    ensures Current(Run(w, evs), oid)
  {
    BasisIsCurrent(w, evs, oid);
    DecisionIsExact(w, evs, oid);
  }

  /** A set configuration that came in from another node is not sent on.  After any history,
      a decision followed by such a change is stale whenever the change calls for anything
      else than what was decided. */
  lemma RemoteChangeMakesStale(w: World, evs: seq<Event>, oid: Oid, config: Config)
    requires var s := Run(w, evs + [Decide(oid)]);
             s.cache[oid].sends != Settings(LabelOf(s.world, oid), w.wants, config)
    ensures !Current(Run(w, evs + [Decide(oid)] + [Reconfigure(config, false)]), oid)
  {
    var evs1 := evs + [Decide(oid)];
    var evs2 := evs1 + [Reconfigure(config, false)];
    assert evs2[..|evs1|] == evs1;
    CacheHolds(w, evs1, oid);
    DecisionIsExact(w, evs2, oid);
    SettingsSame(LabelOf(Run(w, evs1).world, oid), w.wants, Basis(w, evs1, oid).value);
  }

  /** Such a history: the table is sent for good although the configuration now forbids it. */
  lemma StaleAfterRemoteChange() returns (w: World, evs: seq<Event>)
    ensures var s := Run(w, evs);
            7 in s.cache && Enables(s.cache[7].sends, InsertAction) && s.cache == Next(s, Decide(7)).cache
            && !Wanted(LabelOf(s.world, 7), s.world.wants, s.world.config, InsertAction)
  {
    var nothing := map["default" := SetConfig(false, false, false)];
    w := World(map[], map[], Some(["default"]));
    evs := [Decide(7), Reconfigure(nothing, false)];
    var s0 := State(w, map[]);
    var s1 := Next(s0, Decide(7));
    assert evs[..1] == [Decide(7)] && evs[..1][..0] == [];
    assert Run(w, evs[..1]) == s1;
    assert Contributes(None, w.wants.value[0], w.config, InsertAction);
    var s := Run(w, evs);
    assert s == Next(s1, evs[1]);
  }
}

/** How a node joins: the persistent status through which it moves, what it does in each,
    and where it picks up after a crash. */
module JoinStatus {
  import opened NodeStatus

  /** Where the worker that brings up the database stands; it starts over after a crash. */
  datatype Stage =
    | Down
    | Fresh            // found status 'b', about to record 'i'
    | RecordedCopying  // about to make the node read-only
    | MadeReadOnly     // about to dump and restore
    | DataRestored     // about to record 'c'
    | CatchingUp       // creating slots, replaying to the peer's position
    | CaughtUp         // about to record 'o'
    | Connecting       // starting workers, about to have the peer record 'r'
    | AwaitingReady    // waiting until 'r' arrives here
    | SawReady         // about to make the node writable
    | Running
    | GaveUp           // stopped with an error

  /** `status` and `readOnly` are on disk; `peerReady` is the status at the join target;
      `restores` counts how often data was restored. */
  datatype Node = Node(fromPeer: bool, status: Status, readOnly: bool, peerReady: bool, restores: nat, stage: Stage)

  datatype Event =
    | Boot            // the worker starts and reads the status
    | Proceed         // it takes its next step
    | ReadyArrives    // the row that the peer set to 'r' is replayed here
    | Crash
    | Detach          // the node is marked as killed
    | UserReadOnly(on: bool)

  predicate Settled(s: Status) { s == Ready || s == Killed }

  /** Workers that replay changes run from the slot phase on. */
  predicate WorkersUp(s: Stage) { s == Connecting || s == AwaitingReady || s == SawReady || s == Running }

  predicate Enabled(n: Node, ev: Event) {
    match ev
    case Boot => n.stage == Down || n.stage == GaveUp
    case Proceed => n.stage != Down && n.stage != GaveUp && n.stage != Running
    case ReadyArrives => n.peerReady && WorkersUp(n.stage)
    case Crash => true
    case Detach => true
    case UserReadOnly(_) => Settled(n.status)
  }

  /** Which phase a start of the worker leads to. */
  function Booted(n: Node): Node {
    if Settled(n.status) then n.(stage := Running)
    else if !n.fromPeer then
      if n.status == BeginningInit then n.(status := Ready, stage := Running) else n.(stage := GaveUp)
    else
      match n.status
      case BeginningInit => n.(stage := Fresh)
      case Catchup => n.(stage := CatchingUp)
      case CreatingOutboundSlots => n.(stage := Connecting)
      case _ => n.(stage := GaveUp)
  }

  /** The status is only changed if it still is what it was expected to be. */
  function Record(n: Node, from: Status, to: Status): Node {
    if n.status == from then n.(status := to) else n
  }

  function Advance(n: Node): Node
    requires Enabled(n, Proceed)
  {
    match n.stage
    case Fresh => Record(n, BeginningInit, CopyingInitialData).(stage := RecordedCopying)
    case RecordedCopying => n.(readOnly := true, stage := MadeReadOnly)
    case MadeReadOnly => n.(restores := n.restores + 1, stage := DataRestored)
    case DataRestored => Record(n, CopyingInitialData, Catchup).(stage := CatchingUp)
    case CatchingUp => n.(stage := CaughtUp)
    case CaughtUp => Record(n, Catchup, CreatingOutboundSlots).(stage := Connecting)
    case Connecting => n.(peerReady := true, stage := AwaitingReady)
    case AwaitingReady =>
      if n.status == Killed then n.(stage := GaveUp)
      else if n.status == Ready then n.(stage := SawReady)
      else n
    case SawReady => n.(readOnly := false, stage := Running)
  }

  function Next(n: Node, ev: Event): Node
    requires Enabled(n, ev)
  {
    match ev
    case Boot => Booted(n)
    case Proceed => Advance(n)
    case ReadyArrives => n.(status := Ready)
    case Crash => n.(stage := Down)
    case Detach => n.(status := Killed, peerReady := false)
    case UserReadOnly(on) => n.(readOnly := on)
  }

  predicate Init(n: Node) {
    n.status == BeginningInit && !n.readOnly && !n.peerReady && n.restores == 0 && n.stage == Down
  }

  // ---- runs ---------------------------------------------------------------------------------

  /** The events of a run, all possible in turn. */
  predicate Possible(n: Node, evs: seq<Event>)
    decreases |evs|
  {
    evs == [] || (Enabled(n, evs[0]) && Possible(Next(n, evs[0]), evs[1..]))
  }

  function After(n: Node, evs: seq<Event>): Node
    requires Possible(n, evs)
    decreases |evs|
  {
    if evs == [] then n else After(Next(n, evs[0]), evs[1..])
  }

  // ---- the invariant ---------------------------------------------------------------------------

  /** What is on disk for each status. */
  predicate DiskOk(n: Node) {
    && (n.status == BeginningInit ==> n.restores == 0 && !n.readOnly && !n.peerReady)
    && (n.status == CopyingInitialData ==> n.restores <= 1 && !n.peerReady)
    && (n.status == Catchup ==> n.restores == 1 && n.readOnly && !n.peerReady)
    && (n.status == CreatingOutboundSlots ==> n.restores == 1 && n.readOnly)
    && n.restores <= 1
    && (n.peerReady ==> n.status == CreatingOutboundSlots || Settled(n.status))
    && (!n.fromPeer ==> n.status == BeginningInit || Settled(n.status))
  }

  /** What the worker has done by each stage, unless the node was killed meanwhile. */
  predicate StageOk(n: Node) {
    match n.stage
    case Down => true
    case Fresh => n.fromPeer && n.restores == 0 && (n.status == BeginningInit || n.status == Killed)
    case RecordedCopying => n.restores == 0 && (n.status == CopyingInitialData || n.status == Killed)
    case MadeReadOnly => n.restores == 0 && ((n.status == CopyingInitialData && n.readOnly) || n.status == Killed)
    case DataRestored => n.restores == 1 && ((n.status == CopyingInitialData && n.readOnly) || n.status == Killed)
    case CatchingUp => n.restores == 1 && (n.status == Catchup || n.status == Killed)
    case CaughtUp => n.restores == 1 && (n.status == Catchup || n.status == Killed)
    case Connecting => n.restores == 1 && (n.status == CreatingOutboundSlots || Settled(n.status))
    case AwaitingReady => n.restores == 1 && (n.status == CreatingOutboundSlots || Settled(n.status))
    case SawReady => n.restores == 1 && Settled(n.status)
    case Running => Settled(n.status)
    case GaveUp => n.status != BeginningInit
  }

  predicate Inv(n: Node) { DiskOk(n) && StageOk(n) }

  lemma BootKeepsInv(n: Node)
    requires Inv(n) && Enabled(n, Boot)
    ensures Inv(Booted(n))
  {
  }

  lemma EarlyStageKeepsInv(n: Node)
    requires Inv(n) && (n.stage == Fresh || n.stage == RecordedCopying || n.stage == MadeReadOnly || n.stage == DataRestored)
    ensures Inv(Advance(n))
  {
  }

  lemma LateStageKeepsInv(n: Node)
    requires Inv(n)
    requires n.stage == CatchingUp || n.stage == CaughtUp || n.stage == Connecting || n.stage == AwaitingReady || n.stage == SawReady
    ensures Inv(Advance(n))
  {
  }

  lemma StepKeepsInv(n: Node, ev: Event)
    requires Inv(n) && Enabled(n, ev)
    ensures Inv(Next(n, ev))
  {
    match ev
    case Boot => BootKeepsInv(n);
    case Proceed =>
      if n.stage == Fresh || n.stage == RecordedCopying || n.stage == MadeReadOnly || n.stage == DataRestored {
        EarlyStageKeepsInv(n);
      } else {
        LateStageKeepsInv(n);
      }
    case _ =>
  }

  lemma {:induction false} RunInv(n: Node, evs: seq<Event>)
    requires Inv(n) && Possible(n, evs)
    ensures Inv(After(n, evs))
    decreases |evs|
  {
    if evs != [] {
      StepKeepsInv(n, evs[0]);
      RunInv(Next(n, evs[0]), evs[1..]);
    }
  }

  /** Through any crashes and restarts: data is restored at most once, a node that is
      catching up or creating slots has it and is read-only, and only a node that was asked
      to join from a peer gets there. */
  lemma JoinIsSafe(n: Node, evs: seq<Event>)
    requires Init(n) && Possible(n, evs)
    ensures var m := After(n, evs);
            && m.restores <= 1
            && (m.status == Catchup || m.status == CreatingOutboundSlots ==> m.readOnly && m.restores == 1 && m.fromPeer)
            && (m.stage == Running ==> Settled(m.status))
  {
    RunInv(n, evs);
    SameSource(n, evs);
  }

  lemma {:induction false} SameSource(n: Node, evs: seq<Event>)
    requires Possible(n, evs)
    ensures After(n, evs).fromPeer == n.fromPeer
    decreases |evs|
  {
    if evs != [] { SameSource(Next(n, evs[0]), evs[1..]); }
  }

  /** The ways a status changes: the worker of a joining node records the next one; the 'r'
      arrives; a node that starts a group alone is ready at once; a node is killed; and a
      killed node is made ready again by a 'r' that its worker, still connecting, requests
      after the detach. */
  predicate StatusMove(n: Node, ev: Event, to: Status) {
    || (ev == Proceed && n.fromPeer && !Settled(n.status) && n.status != CreatingOutboundSlots && to == Successor(n.status))
    || (ev == ReadyArrives && n.status == CreatingOutboundSlots && to == Ready)
    || (ev == Boot && !n.fromPeer && n.status == BeginningInit && to == Ready)
    || (ev == Detach && to == Killed)
    || (ev == ReadyArrives && n.status == Killed && n.peerReady && WorkersUp(n.stage) && to == Ready)
  }

  /** In every run from a fresh start each status is followed by its successor in b, i, c, o,
      r, but for a node on its own and a killed one. */
  lemma StatusMovesForward(n: Node, evs: seq<Event>, ev: Event)
    requires Init(n) && Possible(n, evs) && Enabled(After(n, evs), ev)
    ensures var m := After(n, evs);
            Next(m, ev).status == m.status || StatusMove(m, ev, Next(m, ev).status)
  {
    RunInv(n, evs);
    AloneStays(n, evs);
  }

  lemma {:induction false} AloneStays(n: Node, evs: seq<Event>)
    requires Inv(n) && Possible(n, evs) && (!n.fromPeer ==> n.stage in {Down, Running, GaveUp})
    ensures var m := After(n, evs); !m.fromPeer ==> m.stage in {Down, Running, GaveUp}
    decreases |evs|
  {
    if evs != [] {
      StepKeepsInv(n, evs[0]);
      AloneStays(Next(n, evs[0]), evs[1..]);
    }
  }

  lemma {:induction false} KilledGivesUp(n: Node, evs: seq<Event>)
    requires Inv(n) && n.status == Killed && !n.peerReady && n.stage in {AwaitingReady, GaveUp, Down}
    requires Possible(n, evs) && Boot !in evs
    ensures var m := After(n, evs);
            && m.status == Killed && !m.peerReady && m.stage in {AwaitingReady, GaveUp, Down}
            && (n.stage == AwaitingReady && Crash !in evs ==> (m.stage == GaveUp <==> Proceed in evs))
            && (n.stage == GaveUp && Crash !in evs ==> m.stage == GaveUp)
    decreases |evs|
  {
    if evs != [] {
      StepKeepsInv(n, evs[0]);
      assert evs == [evs[0]] + evs[1..];
      KilledGivesUp(Next(n, evs[0]), evs[1..]);
    }
  }

  /** A node detached while it waits to be made ready never gets there by itself: until its
      worker is started again it stays killed, and gives up at its next look at the status. */
  lemma DetachedGivesUp(n: Node, before: seq<Event>, evs: seq<Event>)
    requires Init(n) && Possible(n, before) && After(n, before).stage == AwaitingReady
    requires Possible(Next(After(n, before), Detach), evs) && Boot !in evs
    ensures var m := After(Next(After(n, before), Detach), evs);
            && m.status == Killed && m.stage in {AwaitingReady, GaveUp, Down}
            && (Crash !in evs ==> (m.stage == GaveUp <==> Proceed in evs))
  {
    RunInv(n, before);
    StepKeepsInv(After(n, before), Detach);
    KilledGivesUp(Next(After(n, before), Detach), evs);
  }

  /** In every run: what a worker that waits does next. */
  lemma WaitingEndsExactly(n: Node, evs: seq<Event>)
    requires Init(n) && Possible(n, evs) && After(n, evs).stage == AwaitingReady
    ensures var m := After(n, evs); var m' := Next(m, Proceed);
            && (m'.stage == SawReady <==> m.status == Ready) && (m'.stage == GaveUp <==> m.status == Killed)
            && (m' == m <==> m.status == CreatingOutboundSlots)
            && Possible(m, [Detach, Proceed]) && After(m, [Detach, Proceed]).stage == GaveUp
  {
    RunInv(n, evs);
    var m := After(n, evs);
    assert [Detach, Proceed][1..] == [Proceed] && [Proceed][1..] == [];
    assert Possible(Next(m, Detach), [Proceed]);
  }

  /** An attempt that crashed while copying stays stopped: only detaching the node changes
      its status or starts it again. */
  lemma {:induction false} FailedCopyStays(n: Node, evs: seq<Event>)
    requires Inv(n) && n.status == CopyingInitialData && (n.stage == Down || n.stage == GaveUp)
    requires Possible(n, evs) && Detach !in evs
    ensures var m := After(n, evs); m.status == CopyingInitialData && (m.stage == Down || m.stage == GaveUp)
    decreases |evs|
  {
    if evs != [] {
      StepKeepsInv(n, evs[0]);
      assert Detach !in evs[1..];
      FailedCopyStays(Next(n, evs[0]), evs[1..]);
    }
  }

  // ---- resuming -----------------------------------------------------------------------------------

  lemma {:induction false} Append(n: Node, evs: seq<Event>, more: seq<Event>)
    requires Possible(n, evs) && Possible(After(n, evs), more)
    ensures Possible(n, evs + more) && After(n, evs + more) == After(After(n, evs), more)
    decreases |evs|
  {
    if evs == [] {
      assert evs + more == more;
    } else {
      assert (evs + more)[1..] == evs[1..] + more;
      Append(Next(n, evs[0]), evs[1..], more);
    }
  }

  lemma OneStep(n: Node, ev: Event)
    requires Enabled(n, ev)
    ensures Possible(n, [ev]) && After(n, [ev]) == Next(n, ev)
  {
    assert [ev][1..] == [];
  }

  lemma TwoSteps(n: Node, ev: Event, ev': Event)
    requires Enabled(n, ev) && Enabled(Next(n, ev), ev')
    ensures Possible(n, [ev, ev']) && After(n, [ev, ev']) == Next(Next(n, ev), ev')
  {
    OneStep(n, ev);
    OneStep(Next(n, ev), ev');
    Append(n, [ev], [ev']);
    assert [ev] + [ev'] == [ev, ev'];
  }

  /** A node that crashed in the slot phase finishes the join. */
  lemma FinishFromSlots(n: Node) returns (evs: seq<Event>)
    requires Inv(n) && n.stage == Connecting && n.status == CreatingOutboundSlots
    ensures Possible(n, evs)
    ensures var m := After(n, evs); m.stage == Running && m.status == Ready && !m.readOnly && m.restores == n.restores
  {
    TwoSteps(n, Proceed, ReadyArrives);
    var m := Next(Next(n, Proceed), ReadyArrives);
    TwoSteps(m, Proceed, Proceed);
    Append(n, [Proceed, ReadyArrives], [Proceed, Proceed]);
    evs := [Proceed, ReadyArrives] + [Proceed, Proceed];
  }

  /** From every crash after the data was restored a node can still finish, without
      restoring again. */
  lemma CrashedJoinCanFinish(n: Node) returns (evs: seq<Event>)
    requires Inv(n) && n.stage == Down && n.fromPeer && (n.status == Catchup || n.status == CreatingOutboundSlots)
    ensures Possible(n, evs)
    ensures var m := After(n, evs); m.stage == Running && m.status == Ready && !m.readOnly && m.restores == 1
  {
    var m, head := n, [];
    if n.status == Catchup {
      TwoSteps(n, Boot, Proceed);
      m := Next(Next(n, Boot), Proceed);
      OneStep(m, Proceed);
      Append(n, [Boot, Proceed], [Proceed]);
      head := [Boot, Proceed] + [Proceed];
      m := Next(m, Proceed);
    } else {
      OneStep(n, Boot);
      m, head := Next(n, Boot), [Boot];
    }
    RunInv(n, head);
    var tail := FinishFromSlots(m);
    Append(n, head, tail);
    evs := head + tail;
  }

  // ---- the end of the join ------------------------------------------------------------------------

  /** Neither a detach nor a hand on the read-only flag. */
  predicate LeftAlone(evs: seq<Event>) {
    forall i :: 0 <= i < |evs| ==> evs[i] != Detach && !evs[i].UserReadOnly?
  }

  /** Some crash found the status already ready and the flag still set. */
  predicate StuckCrash(n: Node, evs: seq<Event>)
    requires Possible(n, evs)
    decreases |evs|
  {
    evs != [] && ((evs[0] == Crash && n.status == Ready && n.readOnly) || StuckCrash(Next(n, evs[0]), evs[1..]))
  }

  /** A node that has not been through such a crash: it does not run read-only, and is not down
      read-only when ready. */
  predicate NotStuck(n: Node) {
    && n.status != Killed
    && (n.stage == Running ==> !n.readOnly)
    && (n.stage == Down || n.stage == GaveUp ==> !(n.status == Ready && n.readOnly))
  }

  predicate Stuck(n: Node) { n.status == Ready && n.readOnly && (n.stage == Running || n.stage == Down) }

  lemma {:induction false} StuckStays(n: Node, evs: seq<Event>)
    requires Stuck(n) && Possible(n, evs) && LeftAlone(evs)
    ensures Stuck(After(n, evs))
    decreases |evs|
  {
    if evs != [] {
      assert evs[0] != Detach && !evs[0].UserReadOnly?;
      RestLeftAlone(evs);
      StuckStays(Next(n, evs[0]), evs[1..]);
    }
  }

  lemma RestLeftAlone(evs: seq<Event>)
    requires LeftAlone(evs) && evs != []
    ensures LeftAlone(evs[1..])
  {
    assert forall i :: 0 <= i < |evs[1..]| ==> evs[1..][i] == evs[i + 1];
  }

  lemma NotStuckStep(n: Node, ev: Event)
    requires Inv(n) && NotStuck(n) && Enabled(n, ev) && ev != Detach && !ev.UserReadOnly?
    ensures if ev == Crash && n.status == Ready && n.readOnly then Stuck(Next(n, ev)) else NotStuck(Next(n, ev))
  {
  }

  lemma {:induction false} ReadOnlyFrom(n: Node, evs: seq<Event>)
    requires Inv(n) && NotStuck(n) && Possible(n, evs) && LeftAlone(evs)
    ensures if StuckCrash(n, evs) then Stuck(After(n, evs)) else NotStuck(After(n, evs))
    decreases |evs|
  {
    if evs != [] {
      var n' := Next(n, evs[0]);
      assert evs[0] != Detach && !evs[0].UserReadOnly?;
      NotStuckStep(n, evs[0]);
      StepKeepsInv(n, evs[0]);
      RestLeftAlone(evs);
      if Stuck(n') && evs[0] == Crash && n.status == Ready && n.readOnly {
        StuckStays(n', evs[1..]);
      } else {
        ReadOnlyFrom(n', evs[1..]);
      }
    }
  }

  /** A node that is left alone runs read-only after its join if and only if some crash came
      between the arrival of 'r' and the clearing of the flag. */
  lemma ReadOnlyIsExact(n: Node, evs: seq<Event>)
    requires Init(n) && Possible(n, evs) && LeftAlone(evs) && After(n, evs).stage == Running
    ensures After(n, evs).readOnly <==> StuckCrash(n, evs)
  {
    ReadOnlyFrom(n, evs);
  }

  /** A node that runs ready and read-only is made writable by a user only. */
  lemma {:induction false} OnlyUserClears(n: Node, evs: seq<Event>)
    requires Inv(n) && Settled(n.status) && n.readOnly && (n.stage == Running || n.stage == Down)
    requires Possible(n, evs) && UserReadOnly(false) !in evs
    ensures After(n, evs).readOnly
    decreases |evs|
  {
    if evs != [] {
      StepKeepsInv(n, evs[0]);
      assert UserReadOnly(false) !in evs[1..];
      OnlyUserClears(Next(n, evs[0]), evs[1..]);
    }
  }

  /** A node that joins and crashes at that point: the run. */
  lemma ReadOnlyAfterJoin(n: Node) returns (evs: seq<Event>)
    requires Init(n) && n.fromPeer
    ensures Possible(n, evs)
    ensures var m := After(n, evs); m.stage == Running && m.status == Ready && m.readOnly
  {
    var ev0 := Join(n);
    var m := After(n, ev0);
    RunInv(n, ev0);
    TwoSteps(m, Crash, Boot);
    Append(n, ev0, [Crash, Boot]);
    evs := ev0 + [Crash, Boot];
  }

  lemma Join(n: Node) returns (evs: seq<Event>)
    requires Init(n) && n.fromPeer
    ensures Possible(n, evs)
    ensures var m := After(n, evs); m.stage == SawReady && m.status == Ready && m.readOnly
  {
    TwoSteps(n, Boot, Proceed);
    var a := Next(Next(n, Boot), Proceed);
    TwoSteps(a, Proceed, Proceed);
    Append(n, [Boot, Proceed], [Proceed, Proceed]);
    var b := Next(Next(a, Proceed), Proceed);
    evs := [Boot, Proceed] + [Proceed, Proceed];
    TwoSteps(b, Proceed, Proceed);
    Append(n, evs, [Proceed, Proceed]);
    var c := Next(Next(b, Proceed), Proceed);
    evs := evs + [Proceed, Proceed];
    TwoSteps(c, Proceed, Proceed);
    Append(n, evs, [Proceed, Proceed]);
    var d := Next(Next(c, Proceed), Proceed);
    evs := evs + [Proceed, Proceed];
    TwoSteps(d, ReadyArrives, Proceed);
    Append(n, evs, [ReadyArrives, Proceed]);
    evs := evs + [ReadyArrives, Proceed];
  }

  // ---- the procedure ---------------------------------------------------------------------------------

  /** The row of the local node and the worker that brings up the database. */
  class LocalNode {
    const fromPeer: bool
    var status: Status
    var readOnly: bool
    var peerReady: bool
    ghost var restores: nat

    ghost function At(stage: Stage): Node
      reads this
    {
      Node(fromPeer, status, readOnly, peerReady, restores, stage)
    }

    method SetLocalStatus(to: Status, from: Status)
      modifies this`status
      ensures status == if old(status) == from then to else old(status)
    {
      if status == from { status := to; }
    }

    /** From a clean start to the end of the copy. */
    method CopyFromPeer(ghost before: Node, ghost evs: seq<Event>) returns (ghost evs': seq<Event>)
      requires status == BeginningInit
      requires Possible(before, evs) && After(before, evs) == At(Fresh)
      modifies this
      ensures status == Catchup && readOnly && peerReady == old(peerReady) && restores == old(restores) + 1
      ensures Possible(before, evs') && After(before, evs') == At(CatchingUp)
    {
      evs' := evs;
      SetLocalStatus(CopyingInitialData, BeginningInit);
      evs' := Extended(before, evs', Proceed);
      readOnly := true;
      evs' := Extended(before, evs', Proceed);
      restores := restores + 1;
      evs' := Extended(before, evs', Proceed);
      SetLocalStatus(Catchup, CopyingInitialData);
      evs' := Extended(before, evs', Proceed);
    }

    /** Replay up to the peer's position. */
    method CatchUp(ghost before: Node, ghost evs: seq<Event>) returns (ghost evs': seq<Event>)
      requires status == Catchup
      requires Possible(before, evs) && After(before, evs) == At(CatchingUp)
      modifies this`status
      ensures status == CreatingOutboundSlots
      ensures Possible(before, evs') && After(before, evs') == At(Connecting)
    {
      evs' := Extended(before, evs, Proceed);
      SetLocalStatus(CreatingOutboundSlots, Catchup);
      evs' := Extended(before, evs', Proceed);
    }

    /** The slot phase, with the 'r' that the peer recorded arriving. */
    method FinishJoin(ghost before: Node, ghost evs: seq<Event>) returns (ghost evs': seq<Event>)
      requires status == CreatingOutboundSlots
      requires Possible(before, evs) && After(before, evs) == At(Connecting)
      modifies this`status, this`readOnly, this`peerReady
      ensures status == Ready && !readOnly && peerReady
      ensures Possible(before, evs') && After(before, evs') == At(Running)
    {
      peerReady := true;
      evs' := Extended(before, evs, Proceed);
      status := Ready;
      evs' := Extended(before, evs', ReadyArrives);
      evs' := Extended(before, evs', Proceed);
      readOnly := false;
      evs' := Extended(before, evs', Proceed);
    }

    /** The worker without a crash: it either stops with an error, or picks up at the
        recorded status and brings the node to ready and writable, as a run of the steps
        above. */
    method InitReplica() returns (ok: bool, ghost evs: seq<Event>)
      requires !Settled(status)
      modifies this
      ensures ok <==> old(if fromPeer then status != CopyingInitialData else status == BeginningInit)
      ensures ok ==> status == Ready && (fromPeer ==> !readOnly) && (!fromPeer ==> readOnly == old(readOnly))
      ensures restores == old(restores) + if ok && fromPeer && old(status) == BeginningInit then 1 else 0
      ensures !ok ==> status == old(status) && readOnly == old(readOnly) && peerReady == old(peerReady)
      ensures Possible(old(At(Down)), evs) && After(old(At(Down)), evs) == At(if ok then Running else GaveUp)
    {
      ghost var before := At(Down);
      evs := [Boot];
      OneStep(before, Boot);
      if !fromPeer {
        if status != BeginningInit { return false, evs; }
        status := Ready;
        return true, evs;
      }
      if status == CopyingInitialData { return false, evs; }
      if status == BeginningInit { evs := CopyFromPeer(before, evs); }
      if status == Catchup { evs := CatchUp(before, evs); }
      evs := FinishJoin(before, evs);
      ok := true;
    }
  }

  lemma Extended(n: Node, evs: seq<Event>, ev: Event) returns (evs': seq<Event>)
    requires Possible(n, evs) && Enabled(After(n, evs), ev)
    ensures Possible(n, evs') && After(n, evs') == Next(After(n, evs), ev)
  {
    OneStep(After(n, evs), ev);
    Append(n, evs, [ev]);
    evs' := evs + [ev];
  }
}

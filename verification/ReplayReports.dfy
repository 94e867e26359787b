/** What the reports of one connection tell the upstream: everything that is committed and
    flushed, or exactly when not. */
module ReplayReports {
  import opened Common
  import opened Feedback
  import opened Replay

  /** The states of a run and the events between them. */
  ghost predicate RunBy(tr: seq<State>, evs: seq<Event>) {
    |tr| == |evs| + 1 && tr[0] == Initial && forall k :: 0 <= k < |evs| ==> StepAt(tr, evs, k)
  }

  ghost predicate StepAt(tr: seq<State>, evs: seq<Event>, k: nat)
    requires k < |evs| && |tr| == |evs| + 1
  {
    Step(tr[k], tr[k + 1], evs[k])
  }

  lemma RunByIsRun(tr: seq<State>, evs: seq<Event>)
    requires RunBy(tr, evs)
    ensures IsRun(tr)
  {
    hide Step;
    forall k | 0 <= k < |tr| - 1 ensures StepsAt(tr, k) { assert StepAt(tr, evs, k); }
  }

  /** A worker connects in step `j` and stays connected. */
  ghost predicate StaysConnected(tr: seq<State>, evs: seq<Event>, j: nat) {
    && RunBy(tr, evs) && j < |evs| && evs[j].Connect?
    && forall k :: j < k < |tr| ==> tr[k].conn.Some?
  }

  /** The commits of this connection, those from `base` on, are all reported as written, and
      whatever comes up to a flushed one is reported as flushed and known to the upstream. */
  predicate Complete(base: nat, s: State) {
    && s.conn.Some?
    && (forall m :: base <= m < |s.committed| ==> s.committed[m].remoteEnd <= s.conn.value.last.write)
    && (forall l, m :: 0 <= l <= m < |s.committed| && base <= m && s.committed[m].localEnd <= s.flushed ==>
          s.committed[l].remoteEnd <= s.conn.value.last.flush && s.committed[l].remoteEnd <= s.confirmed)
  }

  /** If no commit of this connection is unflushed, each of them was reported before or lies at
      or before the position received, the one given now or the one last reported. */
  predicate Heard(base: nat, s: State, pos: Lsn)
    requires s.conn.Some?
  {
    var last := s.conn.value.last;
    (forall m :: base <= m < |s.committed| ==> s.committed[m].localEnd <= s.flushed) ==>
      forall m :: base <= m < |s.committed| ==> s.committed[m].remoteEnd <= Max(pos, Max(last.recv, last.flush))
  }

  // ---- what holds while the reports are complete ------------------------------------------

  /** The list holds commits of this connection that were not reported as flushed; those it
      has dropped were; and all were received. */
  ghost predicate InStep(base: nat, s: State) {
    && s.conn.Some?
    && var c := s.conn.value;
       && base + |c.list| <= |s.committed|
       && (forall m :: base <= m < |s.committed| - |c.list| ==> s.committed[m].remoteEnd <= c.last.flush)
       && (forall m :: |s.committed| - |c.list| <= m < |s.committed| ==> s.committed[m].remoteEnd > c.last.flush)
       && (forall m :: base <= m < |s.committed| ==> s.committed[m].remoteEnd <= c.recv)
  }

  lemma Connected(s: State)
    requires Enabled(s, Connect)
    ensures InStep(|s.committed|, Next(s, Connect))
  {
  }

  /** Between reports nothing changes but that commits are added. */
  lemma InStepKept(base: nat, s: State, s': State, ev: Event)
    requires Inv(s) && InStep(base, s) && Step(s, s', ev) && s'.conn.Some? && !ev.SendReport?
    ensures InStep(base, s')
  {
    hide UpOrdered, ListOk, Applied, BelowUnflushed;
  }

  /** In terms of the list, whose first entry is commit `at`. */
  lemma ListEntry(s: State, k: nat)
    requires Inv(s) && s.conn.Some? && k < |s.conn.value.list|
    ensures var at := |s.committed| - |s.conn.value.list|; at >= 0 && s.conn.value.list[k] == s.committed[at + k]
  {
  }

  lemma ListAhead(base: nat, s: State)
    requires Inv(s) && InStep(base, s)
    ensures RemotelyOrdered(s.conn.value.list)
    ensures forall k :: 0 <= k < |s.conn.value.list| ==> s.conn.value.list[k].remoteEnd > s.conn.value.last.flush
  {
    ListIsOrdered(s);
    forall k | 0 <= k < |s.conn.value.list| ensures s.conn.value.list[k].remoteEnd > s.conn.value.last.flush { ListEntry(s, k); }
  }

  /** A commit that is flushed is dropped or in the flushed part of the list. */
  lemma FlushedInList(s: State, k: nat)
    requires Inv(s) && s.conn.Some? && k < |s.conn.value.list|
    ensures FlushedThrough(s.conn.value.list, s.flushed, k) <==> s.conn.value.list[k].localEnd <= s.flushed
  {
  }

  lemma EveryFlushedHere(base: nat, s: State)
    requires Inv(s) && InStep(base, s)
    ensures EveryFlushed(s.conn.value.list, s.flushed) <==>
              forall m :: base <= m < |s.committed| ==> s.committed[m].localEnd <= s.flushed
  {
    var list := s.conn.value.list;
    var at := |s.committed| - |list|;
    if EveryFlushed(list, s.flushed) {
      forall m | base <= m < |s.committed| ensures s.committed[m].localEnd <= s.flushed {
        if m >= at { ListEntry(s, m - at); }
      }
    }
    if forall m :: base <= m < |s.committed| ==> s.committed[m].localEnd <= s.flushed {
      forall k | 0 <= k < |list| ensures list[k].localEnd <= s.flushed { ListEntry(s, k); }
    }
  }

  lemma HeardIsInformed(base: nat, s: State, pos: Lsn)
    requires Inv(s) && InStep(base, s)
    ensures Heard(base, s, pos) <==> Informed(s.conn.value.list, s.flushed, Max(pos, s.conn.value.last.recv))
  {
    hide Inv;
    var list, last := s.conn.value.list, s.conn.value.last;
    var at := |s.committed| - |list|;
    EveryFlushedHere(base, s);
    forall k | 0 <= k < |list| ensures list[k] == s.committed[at + k] { ListEntry(s, k); }
    if EveryFlushed(list, s.flushed) && Informed(list, s.flushed, Max(pos, last.recv)) {
      forall m | base <= m < |s.committed| ensures s.committed[m].remoteEnd <= Max(pos, Max(last.recv, last.flush)) {
        if m >= at { assert list[m - at] == s.committed[m]; }
      }
    }
    if EveryFlushed(list, s.flushed) && Heard(base, s, pos) {
      forall k | 0 <= k < |list| ensures list[k].remoteEnd <= Max(pos, last.recv) {
        assert s.committed[at + k].remoteEnd > last.flush;
      }
    }
  }

  /** Whether or not it is sent, `last` is what the report would say. */
  lemma AfterReport(s: State, pos: Lsn, force: bool)
    requires Inv(s) && Enabled(s, SendReport(pos, force))
    ensures var c, c' := s.conn.value, Next(s, SendReport(pos, force)).conn.value;
            var r := NextReport(c.last, c.list, s.flushed, pos);
            && c'.last.write == r.write && c'.last.flush == r.flush && c'.next == c.next && c'.recv == c.recv
            && c'.list == FastScan(c.list, s.flushed).0
            && r.write >= c.last.write && r.flush >= c.last.flush && r.flush <= r.write
  {
    ListIsOrdered(s);
    ReportAdvances(s.conn.value.last, s.conn.value.list, s.flushed, pos);
  }

  /** A report is complete if it covers the list, the rest having been reported. */
  lemma CoversIsComplete(base: nat, s: State, s': State, pos: Lsn, force: bool)
    requires Inv(s) && InStep(base, s) && Enabled(s, SendReport(pos, force)) && s' == Next(s, SendReport(pos, force))
    requires Covers(s.conn.value.list, s.flushed, NextReport(s.conn.value.last, s.conn.value.list, s.flushed, pos))
    ensures Complete(base, s')
  {
    hide Inv, NextReport, FastScan, ListOk;
    AfterReport(s, pos, force);
    var list, last := s.conn.value.list, s'.conn.value.last;
    var at := |s.committed| - |list|;
    forall m | base <= m < |s.committed|
      ensures s.committed[m].remoteEnd <= last.write && (s.committed[m].localEnd <= s.flushed ==> s.committed[m].remoteEnd <= last.flush)
    {
      if m >= at {
        ListEntry(s, m - at);
        FlushedInList(s, m - at);
      }
    }
    RemoteOrder(s);
  }

  lemma RemoteOrder(s: State)
    requires Inv(s)
    ensures forall l, m :: 0 <= l <= m < |s.committed| ==> s.committed[l].remoteEnd <= s.committed[m].remoteEnd
  {
  }

  lemma CompleteCovers(base: nat, s: State, s': State, pos: Lsn, force: bool)
    requires Inv(s) && InStep(base, s) && Enabled(s, SendReport(pos, force)) && s' == Next(s, SendReport(pos, force))
    requires Complete(base, s')
    ensures Covers(s.conn.value.list, s.flushed, NextReport(s.conn.value.last, s.conn.value.list, s.flushed, pos))
  {
    hide Inv, NextReport, FastScan, ListOk;
    AfterReport(s, pos, force);
    var list := s.conn.value.list;
    var r := NextReport(s.conn.value.last, list, s.flushed, pos);
    forall k | 0 <= k < |list|
      ensures list[k].remoteEnd <= r.write && (FlushedThrough(list, s.flushed, k) ==> list[k].remoteEnd <= r.flush)
    {
      ListEntry(s, k);
    }
  }

  /** A report after complete ones is complete exactly when it was heard. */
  lemma ReportIsExact(base: nat, s: State, s': State, pos: Lsn, force: bool)
    requires Inv(s) && InStep(base, s) && Enabled(s, SendReport(pos, force)) && s' == Next(s, SendReport(pos, force))
    ensures Complete(base, s') <==> Heard(base, s, pos)
  {
    hide Inv, Complete, Heard, Covers, Informed, NextReport, FastScan, Next;
    HeardIsInformed(base, s, pos);
    ListAhead(base, s);
    ReportCoversExactly(s.conn.value.last, s.conn.value.list, s.flushed, pos);
    if Complete(base, s') { CompleteCovers(base, s, s', pos, force); }
    if Heard(base, s, pos) { CoversIsComplete(base, s, s', pos, force); }
  }

  /** What the list keeps after a report is unflushed, and lies behind the position reported. */
  lemma KeptIsAhead(base: nat, s: State, pos: Lsn, force: bool)
    requires Inv(s) && InStep(base, s) && Enabled(s, SendReport(pos, force))
    ensures var s' := Next(s, SendReport(pos, force)); var at := |s.committed| - |s'.conn.value.list|;
            at >= base && (forall m :: base <= m < at ==> s.committed[m].localEnd <= s.flushed)
            && (forall m :: at <= m < |s.committed| ==> s.committed[m].remoteEnd > s'.conn.value.last.flush)
  {
    var s' := Next(s, SendReport(pos, force));
    StepKeepsInv(s, s', SendReport(pos, force));
    AfterReport(s, pos, force);
    var n, at := FlushedPrefix(s.conn.value.list, s.flushed), |s.committed| - |s'.conn.value.list|;
    forall m | at <= m < |s.committed| ensures s.committed[m].remoteEnd > s'.conn.value.last.flush {
      KeptUnflushed(s, s', m);
    }
  }

  lemma KeptUnflushed(s: State, s': State, m: nat)
    requires Inv(s) && Inv(s') && s.conn.Some? && s'.conn.Some? && s'.committed == s.committed && s'.flushed == s.flushed
    requires s'.conn.value.list == FastScan(s.conn.value.list, s.flushed).0
    requires |s.committed| - |s'.conn.value.list| <= m < |s.committed|
    ensures s.committed[m].remoteEnd > s'.conn.value.last.flush
  {
    var list, n := s.conn.value.list, FlushedPrefix(s.conn.value.list, s.flushed);
    var at := |s.committed| - |list|;
    ListEntry(s, n);
    assert s.committed[at + n].localEnd > s.flushed;
    assert s.committed[m].localEnd > s.flushed;
  }

  lemma CompleteStaysInStep(base: nat, s: State, s': State, pos: Lsn, force: bool)
    requires Inv(s) && InStep(base, s) && Enabled(s, SendReport(pos, force)) && s' == Next(s, SendReport(pos, force))
    requires Complete(base, s')
    ensures InStep(base, s')
  {
    hide Inv, NextReport, FastScan;
    KeptIsAhead(base, s, pos, force);
    AfterReport(s, pos, force);
  }

  // ---- over a connection -------------------------------------------------------------------

  lemma {:induction false} ConnectionInStep(tr: seq<State>, evs: seq<Event>, j: nat, q: nat)
    requires StaysConnected(tr, evs, j) && j < q < |tr|
    requires forall k :: j < k < q && evs[k].SendReport? ==>
               Heard(|tr[j].committed|, tr[k], evs[k].recvpos) || Complete(|tr[j].committed|, tr[k + 1])
    ensures InStep(|tr[j].committed|, tr[q]) && Inv(tr[q])
  {
    hide Inv, InStep, Heard, Complete, Enabled, Next;
    RunByIsRun(tr, evs);
    RunInv(tr, q);
    var base, s, s', ev := |tr[j].committed|, tr[q - 1], tr[q], evs[q - 1];
    assert StepAt(tr, evs, q - 1);
    if q == j + 1 {
      Connected(s);
    } else {
      ConnectionInStep(tr, evs, j, q - 1);
      if ev.SendReport? {
        ReportIsExact(base, s, s', ev.recvpos, ev.force);
        CompleteStaysInStep(base, s, s', ev.recvpos, ev.force);
      } else {
        InStepKept(base, s, s', ev);
      }
    }
  }

  /** As long as a worker stays connected, every report covers all that is committed and
      flushed on the connection, if and only if every report that finds nothing unflushed is
      given a received position at or past the commits it has not reported yet. */
  lemma ReportsAreCompleteExactly(tr: seq<State>, evs: seq<Event>, j: nat)
    requires StaysConnected(tr, evs, j)
    ensures (forall k :: j < k < |evs| && evs[k].SendReport? ==> Complete(|tr[j].committed|, tr[k + 1])) <==>
              (forall k :: j < k < |evs| && evs[k].SendReport? ==> Heard(|tr[j].committed|, tr[k], evs[k].recvpos))
  {
    hide Inv, InStep, Heard, Complete, Enabled, Next;
    var base := |tr[j].committed|;
    if forall k :: j < k < |evs| && evs[k].SendReport? ==> Complete(base, tr[k + 1]) {
      forall k | j < k < |evs| && evs[k].SendReport? ensures Heard(base, tr[k], evs[k].recvpos) {
        ConnectionInStep(tr, evs, j, k);
        assert StepAt(tr, evs, k);
        ReportIsExact(base, tr[k], tr[k + 1], evs[k].recvpos, evs[k].force);
      }
    }
    if forall k :: j < k < |evs| && evs[k].SendReport? ==> Heard(base, tr[k], evs[k].recvpos) {
      forall k | j < k < |evs| && evs[k].SendReport? ensures Complete(base, tr[k + 1]) {
        ConnectionInStep(tr, evs, j, k);
        assert StepAt(tr, evs, k);
        ReportIsExact(base, tr[k], tr[k + 1], evs[k].recvpos, evs[k].force);
      }
    }
  }

  /** The report at the end of the worker's loop is given what was received: a connection on
      which all reports are is told everything. */
  lemma LoopReportsAreComplete(tr: seq<State>, evs: seq<Event>, j: nat, k: nat)
    requires StaysConnected(tr, evs, j) && j < k < |evs| && evs[k].SendReport?
    requires forall l :: j < l <= k && evs[l].SendReport? ==> evs[l].recvpos >= tr[l].conn.value.recv
    ensures Complete(|tr[j].committed|, tr[k + 1])
  {
    hide Inv, Heard, Complete, Enabled, Next;
    LoopReportsAreHeard(tr, evs, j, k);
    ConnectionInStep(tr, evs, j, k);
    assert StepAt(tr, evs, k);
    ReportIsExact(|tr[j].committed|, tr[k], tr[k + 1], evs[k].recvpos, evs[k].force);
  }

  lemma {:induction false} LoopReportsAreHeard(tr: seq<State>, evs: seq<Event>, j: nat, q: nat)
    requires StaysConnected(tr, evs, j) && j < q < |evs|
    requires forall l :: j < l <= q && evs[l].SendReport? ==> evs[l].recvpos >= tr[l].conn.value.recv
    ensures forall k :: j < k <= q && evs[k].SendReport? ==> Heard(|tr[j].committed|, tr[k], evs[k].recvpos)
  {
    hide Inv, Enabled, Next;
    if q > j + 1 { LoopReportsAreHeard(tr, evs, j, q - 1); }
    ConnectionInStep(tr, evs, j, q);
  }

  /** A report is sent exactly when one is asked for or a position is new; if it is not sent,
      the last one says all there is. */
  lemma ReportIsSentExactly(s: State, pos: Lsn, force: bool)
    requires Enabled(s, SendReport(pos, force))
    ensures var c, c' := s.conn.value, Next(s, SendReport(pos, force)).conn.value;
            && c'.sent == c.sent + (if force || c'.last.write > c.last.write || c'.last.flush > c.last.flush then 1 else 0)
            && (c'.sent == c.sent ==> c'.last == c.last) && (c'.sent > c.sent ==> c'.last.recv == Max(pos, c.last.recv))
  {
  }

  /** So a commit of this connection that was not reported yet makes a complete report go out. */
  lemma NewCommitIsSent(tr: seq<State>, evs: seq<Event>, j: nat, k: nat, m: nat)
    requires StaysConnected(tr, evs, j) && j < k < |evs| && evs[k].SendReport? && Complete(|tr[j].committed|, tr[k + 1])
    requires |tr[j].committed| <= m < |tr[k].committed|
    requires tr[k].committed[m].remoteEnd > tr[k].conn.value.last.write
             || (tr[k].committed[m].localEnd <= tr[k].flushed && tr[k].committed[m].remoteEnd > tr[k].conn.value.last.flush)
    ensures tr[k + 1].conn.value.sent == tr[k].conn.value.sent + 1
  {
    assert StepAt(tr, evs, k);
    ReportIsSentExactly(tr[k], evs[k].recvpos, evs[k].force);
  }

  // ---- what was received ------------------------------------------------------------------

  /** The position that comes with the data of a step. */
  function Received(s: State, ev: Event): Lsn
    requires Enabled(s, ev)
  {
    match ev
    case Message(lsn) => lsn
    case Receive(pos) => pos
    case Apply(_) => s.up[s.conn.value.next].end
    case _ => 0
  }

  /** As long as the worker stays connected it remembers the highest position received. */
  lemma {:induction false} ReceivedIsHighest(tr: seq<State>, evs: seq<Event>, j: nat, q: nat)
    requires StaysConnected(tr, evs, j) && j < q < |tr|
    requires forall k :: j < k < q ==> Enabled(tr[k], evs[k])
    ensures forall k :: j < k < q ==> Received(tr[k], evs[k]) <= tr[q].conn.value.recv
    ensures tr[q].conn.value.recv == 0 || exists k :: j < k < q && Received(tr[k], evs[k]) == tr[q].conn.value.recv
  {
    assert StepAt(tr, evs, q - 1);
    if q > j + 1 {
      ReceivedIsHighest(tr, evs, j, q - 1);
    }
  }

  // ---- what is asked for again -----------------------------------------------------------

  /** Up to where a step has processed the upstream for good. */
  function Processed(s: State, ev: Event): Lsn
    requires Enabled(s, ev)
  {
    match ev
    case Message(lsn) => lsn
    case Apply(_) => if s.up[s.conn.value.next].empty then 0 else s.up[s.conn.value.next].end
    case _ => 0
  }

  lemma {:induction false} ProgressKept(tr: seq<State>, evs: seq<Event>, k: nat, m: nat)
    requires RunBy(tr, evs) && k <= m < |tr| && forall q :: k <= q < m ==> !evs[q].Crash?
    ensures tr[k].progress <= tr[m].progress
  {
    if k < m {
      ProgressKept(tr, evs, k, m - 1);
      assert StepAt(tr, evs, m - 1);
    }
  }

  /** Without a crash in between, a worker that connects does not ask again for what an earlier
      one has processed. */
  lemma ProcessedIsNotRepeated(tr: seq<State>, evs: seq<Event>, k: nat, m: nat, x: nat)
    requires RunBy(tr, evs) && k < m < |evs| && evs[m].Connect? && forall q :: k <= q < m ==> !evs[q].Crash?
    requires Enabled(tr[k], evs[k]) && x < |tr[m].up| && tr[m].up[x].end <= Processed(tr[k], evs[k])
    ensures tr[m + 1].conn.Some? && x < tr[m + 1].conn.value.next
  {
    assert StepAt(tr, evs, k) && StepAt(tr, evs, m);
    ProgressKept(tr, evs, k + 1, m);
    RunByIsRun(tr, evs);
    RunInv(tr, m);
  }

  // ---- a keepalive with an earlier position --------------------------------------------------

  function LowState(k: nat): State
    requires k <= 5
  {
    var done := [Assoc(5, 10)];
    var none := Report(0, 0, 0);
    if k == 0 then Initial
    else if k == 1 then Initial.(conn := Some(Connection(0, [], 0, none, 0)))
    else if k == 2 then State([LostTxn], [], 0, 0, 0, Some(Connection(0, [], 0, none, 0)))
    else if k == 3 then State([LostTxn], done, 0, 10, 0, Some(Connection(1, done, 10, none, 0)))
    else if k == 4 then State([LostTxn], done, 5, 10, 0, Some(Connection(1, done, 10, none, 0)))
    else State([LostTxn], done, 5, 10, 7, Some(Connection(1, [], 10, Report(7, 7, 7), 1)))
  }

  function LowEvent(k: nat): Event
    requires k < 5
  {
    if k == 0 then Connect
    else if k == 1 then UpstreamCommit(LostTxn)
    else if k == 2 then Apply(5)
    else if k == 3 then LocalFlush(5)
    else SendReport(7, true)
  }

  lemma LowStep(k: nat)
    requires k < 5
    ensures Step(LowState(k), LowState(k + 1), LowEvent(k))
  {
    if k == 1 || k == 2 {
      LosingStepApply();
    } else if k == 4 {
      LowReport();
    }
  }

  lemma LowReport()
    ensures Step(LowState(4), LowState(5), LowEvent(4))
  {
    var list := [Assoc(5, 10)];
    assert FlushedPrefix(list, 5) == 1 by { PrefixIs(list, 5, 1); }
    assert list[1..] == [];
    assert SameState(Next(LowState(4), LowEvent(4)), LowState(5));
  }

  /** The upstream asks for a report with a keepalive that carries an earlier position than the
      commit that was applied and flushed: the worker drops the commit and reports the earlier
      position. */
  lemma KeepaliveHidesCommit() returns (tr: seq<State>, evs: seq<Event>)
    ensures StaysConnected(tr, evs, 0) && |evs| == 5 && evs[4] == SendReport(7, true)
    ensures var s := tr[5];
            s.committed == [Assoc(5, 10)] && s.flushed == 5 && s.conn.value.list == [] && s.conn.value.last.flush == 7
            && !Complete(0, s)
  {
    hide Step;
    tr := seq(6, k requires 0 <= k < 6 => LowState(k));
    evs := seq(5, k requires 0 <= k < 5 => LowEvent(k));
    forall k | 0 <= k < 5 ensures StepAt(tr, evs, k) { LowStep(k); }
    assert tr[5].committed[0].remoteEnd == 10;
  }
}

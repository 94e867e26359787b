/** Replay of one upstream by one apply worker across crashes and reconnections:
    local commits carry the upstream position with them, a crash takes back any suffix
    of the commits that were not flushed, and the upstream only resends what it was not
    told to forget. */
module Replay {
  import opened Common
  import opened Feedback

  datatype Txn = Txn(end: Lsn, empty: bool)

  /** `next` is the upstream transaction to be replayed next, `recv` how far data was received,
      `list` and `last` are the worker's association list and last report, `sent` counts its
      reports. */
  datatype Connection = Connection(next: nat, list: seq<Assoc>, recv: Lsn, last: Report, sent: nat)

  /** `progress` is the position recorded for the origin, `confirmed` what the upstream
      slot was told is flushed here. */
  datatype State = State(
    up: seq<Txn>, committed: seq<Assoc>, flushed: Lsn, progress: Lsn, confirmed: Lsn,
    conn: Option<Connection>)

  datatype Event =
    | UpstreamCommit(txn: Txn)
    | Apply(localEnd: Lsn)
    | Message(lsn: Lsn)
    | Receive(pos: Lsn)
    | LocalFlush(upto: Lsn)
    | SendReport(recvpos: Lsn, force: bool)
    | Crash(keep: nat, prog: Lsn)
    | WorkerExit
    | Connect

  /** Leading transactions that end at or before `lsn`: what the upstream skips. */
  function CountUpTo(up: seq<Txn>, lsn: Lsn): (n: nat)
    ensures n <= |up|
    ensures forall k :: 0 <= k < n ==> up[k].end <= lsn
    ensures n < |up| ==> up[n].end > lsn
  {
    if up == [] || up[0].end > lsn then 0 else 1 + CountUpTo(up[1..], lsn)
  }

  /** Position lies before the transaction that is to be replayed next. */
  predicate BeforeNext(s: State, next: nat, pos: Lsn) {
    next < |s.up| ==> pos < s.up[next].end
  }

  predicate Enabled(s: State, ev: Event) {
    match ev
    case UpstreamCommit(t) =>
      && (forall k :: 0 <= k < |s.up| ==> s.up[k].end < t.end)
      && s.progress < t.end && s.confirmed < t.end
      && (s.conn.Some? ==> s.conn.value.recv < t.end && s.conn.value.last.recv < t.end)
    case Apply(localEnd) =>
      && s.conn.Some? && s.conn.value.next < |s.up|
      && s.flushed < localEnd && forall k :: 0 <= k < |s.committed| ==> s.committed[k].localEnd < localEnd
    case Message(lsn) => s.conn.Some? && BeforeNext(s, s.conn.value.next, lsn)
    case Receive(pos) => s.conn.Some? && BeforeNext(s, s.conn.value.next, pos)
    case LocalFlush(_) => true
    case SendReport(pos, _) => s.conn.Some? && BeforeNext(s, s.conn.value.next, pos)
    case Crash(keep, prog) =>
      && keep <= |s.committed|
      && (forall k :: keep <= k < |s.committed| ==> s.committed[k].localEnd > s.flushed)
      && LastRemote(s.committed[..keep]) <= prog <= s.progress
      && (keep < |s.committed| ==> prog < s.committed[keep].remoteEnd)
    case WorkerExit => s.conn.Some?
    case Connect => s.conn.None?
  }

  /** The connection after the worker had a chance to report. */
  function Reported(c: Connection, flushed: Lsn, pos: Lsn, force: bool): Connection {
    var r := NextReport(c.last, c.list, flushed, pos);
    var sends := Worthwhile(c.last, r, force);
    c.(list := FastScan(c.list, flushed).0, last := if sends then r else c.last,
       sent := if sends then c.sent + 1 else c.sent)
  }

  function Next(s: State, ev: Event): State
    requires Enabled(s, ev)
  {
    match ev
    case UpstreamCommit(t) => s.(up := s.up + [t])
    case Apply(localEnd) =>
      var c := s.conn.value;
      var t := s.up[c.next];
      var c' := c.(next := c.next + 1, recv := Max(c.recv, t.end));
      if t.empty then s.(conn := Some(c'))
      else
        var a := Assoc(localEnd, t.end);
        s.(conn := Some(c'.(list := c.list + [a])), committed := s.committed + [a], progress := Max(s.progress, t.end))
    case Message(lsn) =>
      s.(progress := Max(s.progress, lsn), conn := Some(s.conn.value.(recv := Max(s.conn.value.recv, lsn))))
    case Receive(pos) => s.(conn := Some(s.conn.value.(recv := Max(s.conn.value.recv, pos))))
    case LocalFlush(upto) => s.(flushed := Max(s.flushed, upto))
    case SendReport(pos, force) =>
      var c := Reported(s.conn.value, s.flushed, pos, force);
      s.(conn := Some(c), confirmed := Max(s.confirmed, c.last.flush))
    case Crash(keep, prog) =>
      var kept := s.committed[..keep];
      s.(committed := kept, progress := prog, conn := None,
         flushed := if keep == 0 then s.flushed else Max(s.flushed, kept[keep - 1].localEnd))
    case WorkerExit => s.(conn := None)
    case Connect =>
      s.(conn := Some(Connection(CountUpTo(s.up, Max(s.progress, s.confirmed)), [], 0, Report(0, 0, 0), 0)))
  }

  predicate AllFlushed(s: State) {
    forall k :: 0 <= k < |s.committed| ==> s.committed[k].localEnd <= s.flushed
  }

  /** A step in which a worker connects only when no earlier commit is unflushed. */
  predicate Step(s: State, s': State, ev: Event) {
    Enabled(s, ev) && s' == Next(s, ev) && (ev.Connect? ==> AllFlushed(s))
  }

  const Initial := State([], [], 0, 0, 0, None)

  // ---- the invariant ------------------------------------------------------------------

  /** End positions of the transactions that change something, in upstream order. */
  function EffectiveEnds(up: seq<Txn>): seq<Lsn> {
    if up == [] then []
    else EffectiveEnds(up[..|up| - 1]) + if up[|up| - 1].empty then [] else [up[|up| - 1].end]
  }

  function RemoteEnds(committed: seq<Assoc>): (r: seq<Lsn>)
    ensures |r| == |committed| && forall k :: 0 <= k < |r| ==> r[k] == committed[k].remoteEnd
  {
    seq(|committed|, k requires 0 <= k < |committed| => committed[k].remoteEnd)
  }

  /** How many upstream transactions are behind us. */
  function Done(s: State): nat {
    if s.conn.Some? then s.conn.value.next else CountUpTo(s.up, Max(s.progress, s.confirmed))
  }

  ghost predicate UpOrdered(up: seq<Txn>) {
    forall j, k :: 0 <= j < k < |up| ==> up[j].end < up[k].end
  }

  /** Commits follow each other in the local and in the upstream log. */
  ghost predicate InOrder(c: seq<Assoc>) {
    && (forall j, k :: 0 <= j < k < |c| ==> c[j].localEnd < c[k].localEnd && c[j].remoteEnd < c[k].remoteEnd)
    && (forall k :: 0 <= k < |c| ==> c[k].remoteEnd > 0)
  }

  /** The association list holds the latest commits; those before it are flushed. */
  ghost predicate ListOk(list: seq<Assoc>, committed: seq<Assoc>, flushed: Lsn) {
    && |list| <= |committed| && list == committed[|committed| - |list|..]
    && forall k :: 0 <= k < |committed| - |list| ==> committed[k].localEnd <= flushed
  }

  ghost predicate ConnOk(s: State) {
    s.conn.Some? ==>
      var c := s.conn.value;
      && c.next <= |s.up|
      && ListOk(c.list, s.committed, s.flushed)
      && c.last.flush <= s.confirmed && c.last.flush <= c.last.write
      && BeforeNext(s, c.next, c.recv) && BeforeNext(s, c.next, c.last.recv)
  }

  /** Recorded positions cover what is committed and nothing beyond. */
  ghost predicate Bounded(s: State) {
    && BeforeNext(s, Done(s), s.progress) && BeforeNext(s, Done(s), s.confirmed)
    && LastRemote(s.committed) <= s.progress
  }

  /** `flush` lies below every commit that is not flushed locally. */
  ghost predicate BelowUnflushed(flush: Lsn, committed: seq<Assoc>, flushed: Lsn) {
    forall k :: 0 <= k < |committed| && committed[k].localEnd > flushed ==> flush < committed[k].remoteEnd
  }

  ghost predicate Applied(s: State) {
    Done(s) <= |s.up| && RemoteEnds(s.committed) == EffectiveEnds(s.up[..Done(s)])
  }

  ghost predicate Sane(s: State) {
    && UpOrdered(s.up) && InOrder(s.committed)
    && ConnOk(s) && Bounded(s)
    && BelowUnflushed(s.confirmed, s.committed, s.flushed)
  }

  ghost predicate Inv(s: State) { Sane(s) && Applied(s) }

  // ---- facts about the upstream log ------------------------------------------------------

  lemma {:induction false} EffectiveBound(up: seq<Txn>, lsn: Lsn, j: nat)
    requires (forall k :: 0 <= k < |up| ==> up[k].end <= lsn) && j < |EffectiveEnds(up)|
    ensures EffectiveEnds(up)[j] <= lsn
  {
    var last := |up| - 1;
    if j < |EffectiveEnds(up[..last])| { EffectiveBound(up[..last], lsn, j); }
  }

  /** The transactions up to position `lsn` are those whose ends do not exceed it. */
  lemma {:induction false} EndsUpTo(up: seq<Txn>, done: nat, lsn: Lsn, ends: seq<Lsn>, keep: nat)
    requires UpOrdered(up) && done <= |up| && (done < |up| ==> lsn < up[done].end)
    requires ends == EffectiveEnds(up[..done]) && keep <= |ends|
    requires keep > 0 ==> ends[keep - 1] <= lsn
    requires keep < |ends| ==> lsn < ends[keep]
    ensures CountUpTo(up, lsn) <= done
    ensures EffectiveEnds(up[..CountUpTo(up, lsn)]) == ends[..keep]
  {
    if done > 0 {
      var t := up[done - 1];
      assert up[..done][..done - 1] == up[..done - 1];
      if t.end <= lsn {
        assert CountUpTo(up, lsn) == done;
        if keep < |ends| { EffectiveBound(up[..done], lsn, keep); }
      } else {
        var e := EffectiveEnds(up[..done - 1]);
        assert keep <= |e| && e[..keep] == ends[..keep];
        EndsUpTo(up, done - 1, lsn, e, keep);
      }
    }
  }

  lemma {:induction false} CountAppend(up: seq<Txn>, t: Txn, lsn: Lsn)
    requires lsn < t.end
    ensures CountUpTo(up + [t], lsn) == CountUpTo(up, lsn)
  {
    if up != [] {
      assert (up + [t])[1..] == up[1..] + [t];
      CountAppend(up[1..], t, lsn);
    }
  }

  // ---- every step keeps it -------------------------------------------------------------------

  lemma UpstreamDone(s: State, t: Txn)
    requires Inv(s) && Enabled(s, UpstreamCommit(t))
    ensures Done(Next(s, UpstreamCommit(t))) == Done(s) && Applied(Next(s, UpstreamCommit(t)))
  {
    var s' := Next(s, UpstreamCommit(t));
    CountAppend(s.up, t, Max(s.progress, s.confirmed));
    assert s'.up[..Done(s)] == s.up[..Done(s)];
  }

  lemma UpstreamBounds(s: State, t: Txn)
    requires Inv(s) && Enabled(s, UpstreamCommit(t))
    ensures ConnOk(Next(s, UpstreamCommit(t))) && Bounded(Next(s, UpstreamCommit(t)))
  {
    UpstreamDone(s, t);
  }

  lemma KeptUpstream(s: State, t: Txn)
    requires Inv(s) && Enabled(s, UpstreamCommit(t))
    ensures Inv(Next(s, UpstreamCommit(t)))
  {
    UpstreamDone(s, t);
    UpstreamBounds(s, t);
    assert UpOrdered(s.up + [t]);
  }

  lemma AppendInOrder(c: seq<Assoc>, a: Assoc)
    requires InOrder(c) && LastRemote(c) < a.remoteEnd
    requires forall k :: 0 <= k < |c| ==> c[k].localEnd < a.localEnd
    ensures InOrder(c + [a])
  {
  }

  lemma AppendList(list: seq<Assoc>, c: seq<Assoc>, flushed: Lsn, a: Assoc)
    requires ListOk(list, c, flushed)
    ensures ListOk(list + [a], c + [a], flushed)
  {
    assert (c + [a])[|c| - |list|..] == list + [a];
  }

  lemma AppendBelow(flush: Lsn, c: seq<Assoc>, flushed: Lsn, a: Assoc)
    requires BelowUnflushed(flush, c, flushed) && flush < a.remoteEnd
    ensures BelowUnflushed(flush, c + [a], flushed)
  {
  }

  lemma KeptApplySane(s: State, localEnd: Lsn)
    requires Sane(s) && Enabled(s, Apply(localEnd))
    ensures Sane(Next(s, Apply(localEnd)))
  {
    var t := s.up[s.conn.value.next];
    if !t.empty {
      var a := Assoc(localEnd, t.end);
      AppendInOrder(s.committed, a);
      AppendList(s.conn.value.list, s.committed, s.flushed, a);
      AppendBelow(s.confirmed, s.committed, s.flushed, a);
    }
  }

  lemma ApplyApplied(s: State, localEnd: Lsn)
    requires Applied(s) && Enabled(s, Apply(localEnd))
    ensures Applied(Next(s, Apply(localEnd)))
  {
    var n := s.conn.value.next;
    EffectiveNext(s.up, n);
    if !s.up[n].empty {
      var a := Assoc(localEnd, s.up[n].end);
      assert RemoteEnds(s.committed + [a]) == RemoteEnds(s.committed) + [a.remoteEnd];
    }
  }

  lemma EffectiveNext(up: seq<Txn>, n: nat)
    requires n < |up|
    ensures EffectiveEnds(up[..n + 1]) == EffectiveEnds(up[..n]) + if up[n].empty then [] else [up[n].end]
  {
    assert up[..n + 1][..n] == up[..n];
  }

  lemma KeptApply(s: State, localEnd: Lsn)
    requires Inv(s) && Enabled(s, Apply(localEnd))
    ensures Inv(Next(s, Apply(localEnd)))
  {
    KeptApplySane(s, localEnd);
    ApplyApplied(s, localEnd);
  }

  /** The part of the list a report leaves is again the latest commits. */
  lemma ScanKeepsList(list: seq<Assoc>, committed: seq<Assoc>, flushed: Lsn)
    requires ListOk(list, committed, flushed)
    ensures ListOk(FastScan(list, flushed).0, committed, flushed)
  {
    var n, k := |committed|, FlushedPrefix(list, flushed);
    assert list[k..] == committed[n - |list| + k..];
    forall m | 0 <= m < n - |list| + k ensures committed[m].localEnd <= flushed {
      if m >= n - |list| { assert list[m - (n - |list|)] == committed[m]; }
    }
  }

  /** The flush position of a scan is that of a commit before the first unflushed one. */
  lemma ScanFlush(list: seq<Assoc>, committed: seq<Assoc>, flushed: Lsn)
    requires ListOk(list, committed, flushed) && InOrder(committed) && !FastScan(list, flushed).1.none
    ensures FastScan(list, flushed).1.flush != 0 ==> BelowUnflushed(FastScan(list, flushed).1.flush, committed, flushed)
    ensures FastScan(list, flushed).1.flush <= LastRemote(committed)
  {
    var n, k := |committed|, FlushedPrefix(list, flushed);
    if k > 0 {
      var last := n - |list| + k - 1;
      assert list[..k][k - 1] == list[k - 1] == committed[last];
      assert list[k - 1].localEnd <= flushed;
      FlushedIsBelow(committed, last, flushed);
    }
  }

  lemma FlushedIsBelow(committed: seq<Assoc>, last: nat, flushed: Lsn)
    requires InOrder(committed) && last < |committed| && committed[last].localEnd <= flushed
    ensures BelowUnflushed(committed[last].remoteEnd, committed, flushed)
    ensures committed[last].remoteEnd <= LastRemote(committed)
  {
  }

  /** A report never passes a commit that is not flushed, nor the next transaction. */
  lemma FlushStaysBelow(s: State, pos: Lsn)
    requires Sane(s) && s.conn.Some? && BeforeNext(s, s.conn.value.next, pos)
    ensures BeforeNext(s, s.conn.value.next, NextReport(s.conn.value.last, s.conn.value.list, s.flushed, pos).flush)
    ensures BelowUnflushed(NextReport(s.conn.value.last, s.conn.value.list, s.flushed, pos).flush, s.committed, s.flushed)
  {
    var c := s.conn.value;
    var p := FastScan(c.list, s.flushed).1;
    if p.none {
      NoneUnflushed(c.list, s.committed, s.flushed);
    } else {
      ScanFlush(c.list, s.committed, s.flushed);
    }
  }

  lemma NoneUnflushed(list: seq<Assoc>, committed: seq<Assoc>, flushed: Lsn)
    requires ListOk(list, committed, flushed) && FastScan(list, flushed).1.none
    ensures forall k :: 0 <= k < |committed| ==> committed[k].localEnd <= flushed
  {
    var n := |committed|;
    forall m | 0 <= m < n ensures committed[m].localEnd <= flushed {
      if m >= n - |list| { assert list[m - (n - |list|)] == committed[m]; }
    }
  }

  lemma MaxBelow(a: Lsn, b: Lsn, c: seq<Assoc>, flushed: Lsn)
    requires BelowUnflushed(a, c, flushed) && BelowUnflushed(b, c, flushed)
    ensures BelowUnflushed(Max(a, b), c, flushed)
  {
  }

  lemma ConnectionChange(s: State, c': Connection, confirmed: Lsn)
    requires Sane(s) && s.conn.Some? && c'.next == s.conn.value.next
    requires ListOk(c'.list, s.committed, s.flushed) && c'.last.flush <= confirmed && c'.last.flush <= c'.last.write
    requires BeforeNext(s, c'.next, c'.recv) && BeforeNext(s, c'.next, c'.last.recv) && BeforeNext(s, c'.next, confirmed)
    requires BelowUnflushed(confirmed, s.committed, s.flushed)
    ensures Sane(s.(conn := Some(c'), confirmed := confirmed))
  {
  }

  lemma ReportedOk(s: State, pos: Lsn, force: bool)
    requires Sane(s) && s.conn.Some? && BeforeNext(s, s.conn.value.next, pos)
    ensures var c' := Reported(s.conn.value, s.flushed, pos, force);
            && ListOk(c'.list, s.committed, s.flushed) && c'.last.flush <= c'.last.write
            && BeforeNext(s, c'.next, c'.recv) && BeforeNext(s, c'.next, c'.last.recv) && BeforeNext(s, c'.next, c'.last.flush)
            && BelowUnflushed(Max(s.confirmed, c'.last.flush), s.committed, s.flushed)
  {
    var c := s.conn.value;
    var r := NextReport(c.last, c.list, s.flushed, pos);
    ScanKeepsList(c.list, s.committed, s.flushed);
    FlushStaysBelow(s, pos);
    ReportAdvances(c.last, c.list, s.flushed, pos);
    MaxBelow(s.confirmed, r.flush, s.committed, s.flushed);
  }

  lemma KeptReport(s: State, pos: Lsn, force: bool)
    requires Sane(s) && Enabled(s, SendReport(pos, force))
    ensures Sane(Next(s, SendReport(pos, force))) && Done(Next(s, SendReport(pos, force))) == Done(s)
  {
    ReportedOk(s, pos, force);
    var c' := Reported(s.conn.value, s.flushed, pos, force);
    ConnectionChange(s, c', Max(s.confirmed, c'.last.flush));
  }

  lemma KeptCrashSane(s: State, keep: nat, prog: Lsn)
    requires Sane(s) && Enabled(s, Crash(keep, prog))
    requires CountUpTo(s.up, Max(prog, s.confirmed)) <= |s.up|
    ensures Sane(Next(s, Crash(keep, prog)))
  {
  }

  lemma KeptCrash(s: State, keep: nat, prog: Lsn)
    requires Inv(s) && Enabled(s, Crash(keep, prog))
    ensures Inv(Next(s, Crash(keep, prog)))
  {
    KeptCrashSane(s, keep, prog);
    CrashApplied(s, keep, prog);
  }

  lemma CrashApplied(s: State, keep: nat, prog: Lsn)
    requires Inv(s) && Enabled(s, Crash(keep, prog))
    ensures Applied(Next(s, Crash(keep, prog)))
  {
    var ends := RemoteEnds(s.committed);
    KeptEnds(s, keep, prog);
    EndsUpTo(s.up, Done(s), Max(prog, s.confirmed), ends, keep);
    assert RemoteEnds(s.committed[..keep]) == ends[..keep];
  }

  /** Kept commits end before the position recovered, lost ones after it. */
  lemma KeptEnds(s: State, keep: nat, prog: Lsn)
    requires Sane(s) && Enabled(s, Crash(keep, prog))
    ensures keep > 0 ==> s.committed[keep - 1].remoteEnd <= prog
    ensures keep < |s.committed| ==> Max(prog, s.confirmed) < s.committed[keep].remoteEnd
    ensures BeforeNext(s, Done(s), Max(prog, s.confirmed))
  {
    if keep > 0 { assert LastRemote(s.committed[..keep]) == s.committed[keep - 1].remoteEnd; }
  }

  lemma DisconnectedDone(s: State)
    requires Inv(s)
    ensures RemoteEnds(s.committed) == EffectiveEnds(s.up[..CountUpTo(s.up, Max(s.progress, s.confirmed))])
  {
    var ends := RemoteEnds(s.committed);
    EndsUpTo(s.up, Done(s), Max(s.progress, s.confirmed), ends, |ends|);
    assert ends[..|ends|] == ends;
  }

  lemma KeptExit(s: State)
    requires Inv(s) && s.conn.Some?
    ensures Inv(Next(s, WorkerExit))
  {
    DisconnectedDone(s);
  }

  lemma KeptOther(s: State, ev: Event)
    requires Sane(s) && Enabled(s, ev) && (ev.Message? || ev.Receive? || ev.LocalFlush? || (ev.Connect? && AllFlushed(s)))
    ensures Sane(Next(s, ev)) && Done(Next(s, ev)) == Done(s)
  {
  }

  lemma StepKeepsInv(s: State, s': State, ev: Event)
    requires Inv(s) && Step(s, s', ev)
    ensures Inv(s')
  {
    match ev
    case UpstreamCommit(t) => KeptUpstream(s, t);
    case Apply(localEnd) => KeptApply(s, localEnd);
    case SendReport(pos, force) => KeptReport(s, pos, force);
    case Crash(keep, prog) => KeptCrash(s, keep, prog);
    case WorkerExit => KeptExit(s);
    case _ => KeptOther(s, ev);
  }

  // ---- what holds in every run ---------------------------------------------------------------

  ghost predicate StepsAt(tr: seq<State>, k: nat) {
    k + 1 < |tr| && StepsTo(tr[k], tr[k + 1])
  }

  ghost predicate StepsTo(s: State, s': State) { exists ev :: Step(s, s', ev) }

  ghost predicate IsRun(tr: seq<State>) {
    |tr| > 0 && tr[0] == Initial && forall k :: 0 <= k < |tr| - 1 ==> StepsAt(tr, k)
  }

  lemma {:induction false} RunInv(tr: seq<State>, k: nat)
    requires IsRun(tr) && k < |tr|
    ensures Inv(tr[k])
  {
    if k > 0 {
      RunInv(tr, k - 1);
      assert StepsAt(tr, k - 1);
      var ev :| Step(tr[k - 1], tr[k], ev);
      StepKeepsInv(tr[k - 1], tr[k], ev);
    }
  }

  /** Whatever crashed and reconnected before, the local commits are the effective
      upstream transactions up to a point, each once and in upstream order, and the
      worker continues with the first one not among them. */
  lemma ExactlyOnceInOrder(tr: seq<State>, k: nat)
    requires IsRun(tr) && k < |tr|
    ensures Done(tr[k]) <= |tr[k].up| && RemoteEnds(tr[k].committed) == EffectiveEnds(tr[k].up[..Done(tr[k])])
    ensures tr[k].conn.Some? && tr[k].conn.value.next == |tr[k].up| ==>
              RemoteEnds(tr[k].committed) == EffectiveEnds(tr[k].up)
  {
    RunInv(tr, k);
    assert tr[k].up[..|tr[k].up|] == tr[k].up;
  }

  lemma {:induction false} EffectiveMember(up: seq<Txn>, j: nat) returns (m: nat)
    requires j < |up| && !up[j].empty
    ensures m < |EffectiveEnds(up)| && EffectiveEnds(up)[m] == up[j].end
  {
    var last := |up| - 1;
    if j == last {
      m := |EffectiveEnds(up)| - 1;
    } else {
      m := EffectiveMember(up[..last], j);
    }
  }

  /** The upstream was never told to forget a transaction that could still be needed:
      every effective transaction at or before the confirmed position is committed
      here and flushed. */
  lemma ConfirmedIsDurable(tr: seq<State>, k: nat, j: nat) returns (m: nat)
    requires IsRun(tr) && k < |tr| && j < |tr[k].up| && !tr[k].up[j].empty && tr[k].up[j].end <= tr[k].confirmed
    ensures m < |tr[k].committed| && tr[k].committed[m].remoteEnd == tr[k].up[j].end
    ensures tr[k].committed[m].localEnd <= tr[k].flushed
  {
    var s := tr[k];
    RunInv(tr, k);
    var d := Done(s);
    assert j < d;
    m := EffectiveMember(s.up[..d], j);
    assert RemoteEnds(s.committed)[m] == s.committed[m].remoteEnd;
  }

  /** A reported flush position never passes a remote commit whose local commit is
      unflushed. */
  lemma ReportsAreSafe(tr: seq<State>, k: nat, m: nat)
    requires IsRun(tr) && k < |tr| && m < |tr[k].committed| && tr[k].committed[m].localEnd > tr[k].flushed
    ensures tr[k].confirmed < tr[k].committed[m].remoteEnd
    ensures tr[k].conn.Some? ==> tr[k].conn.value.last.flush < tr[k].committed[m].remoteEnd
  {
    RunInv(tr, k);
  }

  /** As long as the worker stays connected the positions it has reported do not go back, and
      it never reports more flushed than written. */
  lemma {:induction false} ReportsAdvance(tr: seq<State>, k: nat, m: nat)
    requires IsRun(tr) && k <= m < |tr| && forall j :: k <= j <= m ==> tr[j].conn.Some?
    ensures var r, r' := tr[k].conn.value.last, tr[m].conn.value.last;
            r.recv <= r'.recv && r.write <= r'.write && r.flush <= r'.flush && r'.flush <= r'.write
  {
    hide Step, UpOrdered, InOrder, Bounded, BelowUnflushed, Applied, ListOk;
    RunInv(tr, m);
    if k < m {
      ReportsAdvance(tr, k, m - 1);
      RunInv(tr, m - 1);
      assert StepsAt(tr, m - 1);
      var ev :| Step(tr[m - 1], tr[m], ev);
      ReportStep(tr[m - 1], tr[m], ev);
    }
  }

  lemma ReportStep(s: State, s': State, ev: Event)
    requires Inv(s) && Step(s, s', ev) && s.conn.Some? && s'.conn.Some?
    ensures var r, r' := s.conn.value.last, s'.conn.value.last;
            r.recv <= r'.recv && r.write <= r'.write && r.flush <= r'.flush
  {
    hide UpOrdered, InOrder, Bounded, BelowUnflushed, Applied, ListOk, NextReport, FastScan, CountUpTo;
    if ev.SendReport? {
      var c := s.conn.value;
      ListIsOrdered(s);
      ReportAdvances(c.last, c.list, s.flushed, ev.recvpos);
    }
  }

  lemma ListIsOrdered(s: State)
    requires Sane(s) && s.conn.Some?
    ensures RemotelyOrdered(s.conn.value.list)
  {
  }

  // ---- connecting over unflushed commits loses a transaction ----------------------------------

  /** Steps with no condition on connecting. */
  predicate AnyStep(s: State, s': State, ev: Event) { Enabled(s, ev) && s' == Next(s, ev) }

  /** The upstream was told to forget transaction `j`, which changes something and is not
      committed here. */
  ghost predicate LostAt(s: State, j: nat) {
    && j < |s.up| && !s.up[j].empty && s.up[j].end <= s.confirmed
    && forall m :: 0 <= m < |s.committed| ==> s.committed[m].remoteEnd != s.up[j].end
  }

  ghost predicate Lost(s: State) { exists j :: LostAt(s, j) }

  ghost predicate GoesOn(s: State, s': State) { exists ev: Event :: !ev.Connect? && AnyStep(s, s', ev) }

  ghost predicate GoesOnAt(tr: seq<State>, k: nat) { k + 1 < |tr| && GoesOn(tr[k], tr[k + 1]) }

  /** A continuation of `s` without another connection. */
  ghost predicate Continues(tr: seq<State>, s: State) {
    |tr| > 0 && tr[0] == s && forall k :: 0 <= k < |tr| - 1 ==> GoesOnAt(tr, k)
  }

  lemma {:induction false} ContinuesInv(tr: seq<State>, s: State, k: nat)
    requires Inv(s) && Continues(tr, s) && k < |tr|
    ensures Inv(tr[k])
  {
    hide Inv;
    if k > 0 {
      ContinuesInv(tr, s, k - 1);
      assert GoesOnAt(tr, k - 1);
      var ev: Event :| !ev.Connect? && AnyStep(tr[k - 1], tr[k], ev);
      StepKeepsInv(tr[k - 1], tr[k], ev);
    }
  }

  lemma NothingLost(s: State)
    requires Inv(s)
    ensures !Lost(s)
  {
    if j :| LostAt(s, j) {
      var d := Done(s);
      assert j < d;
      var m := EffectiveMember(s.up[..d], j);
    }
  }

  /** Every effective end is that of a transaction which changes something. */
  lemma {:induction false} EffectiveSource(up: seq<Txn>, m: nat) returns (j: nat)
    requires m < |EffectiveEnds(up)|
    ensures j < |up| && !up[j].empty && up[j].end == EffectiveEnds(up)[m]
  {
    var last := |up| - 1;
    if m < |EffectiveEnds(up[..last])| { j := EffectiveSource(up[..last], m); } else { j := last; }
  }

  lemma FirstUnflushed(s: State) returns (k: nat)
    requires InOrder(s.committed) && !AllFlushed(s)
    ensures k < |s.committed| && (forall m :: 0 <= m < k ==> s.committed[m].localEnd <= s.flushed)
    ensures forall m :: k <= m < |s.committed| ==> s.committed[m].localEnd > s.flushed
  {
    k := 0;
    while s.committed[k].localEnd <= s.flushed
      invariant k < |s.committed| && forall m :: 0 <= m < k ==> s.committed[m].localEnd <= s.flushed
      decreases |s.committed| - k
    {
      k := k + 1;
    }
  }

  /** A worker that connects over an unflushed commit and at once reports what its origin has
      recorded, with nothing in its list, confirms that commit. */
  lemma ConfirmsUnflushed(s: State)
    requires Inv(s) && s.conn.None?
    ensures var c := Next(s, Connect);
            && Enabled(c, SendReport(s.progress, true))
            && var r := Next(c, SendReport(s.progress, true));
               r.up == s.up && r.committed == s.committed && r.flushed == s.flushed && r.progress == s.progress
               && r.confirmed >= s.progress && r.conn.Some?
  {
  }

  /** A crash then takes the commit back. */
  lemma LosesUnflushed(s: State, r: State, k: nat)
    requires Inv(s) && r.up == s.up && r.committed == s.committed && r.flushed == s.flushed && r.progress == s.progress
    requires r.confirmed >= s.progress
    requires k < |s.committed| && forall m :: k <= m < |s.committed| ==> s.committed[m].localEnd > s.flushed
    ensures Enabled(r, Crash(k, LastRemote(s.committed[..k]))) && Lost(Next(r, Crash(k, LastRemote(s.committed[..k]))))
  {
    var prog := LastRemote(s.committed[..k]);
    assert s.committed[k].remoteEnd <= LastRemote(s.committed) <= s.progress;
    var d := Done(s);
    assert RemoteEnds(s.committed)[k] == EffectiveEnds(s.up[..d])[k];
    var j := EffectiveSource(s.up[..d], k);
    assert LostAt(Next(r, Crash(k, prog)), j);
  }

  lemma CanConnect(s: State)
    requires Inv(s) && s.conn.None?
    ensures Enabled(s, Connect) && InOrder(s.committed)
  {
  }

  lemma UnflushedConnectionLoses(s: State) returns (tr: seq<State>)
    requires Inv(s) && s.conn.None? && !AllFlushed(s)
    ensures Continues(tr, Next(s, Connect)) && Lost(tr[|tr| - 1])
  {
    hide Inv, Lost, Enabled, Next;
    CanConnect(s);
    var k := FirstUnflushed(s);
    var c := Next(s, Connect);
    ConfirmsUnflushed(s);
    var r := Next(c, SendReport(s.progress, true));
    LosesUnflushed(s, r, k);
    var z := Next(r, Crash(k, LastRemote(s.committed[..k])));
    tr := [c, r, z];
    assert AnyStep(c, r, SendReport(s.progress, true)) && AnyStep(r, z, Crash(k, LastRemote(s.committed[..k])));
    assert GoesOnAt(tr, 0) && GoesOnAt(tr, 1);
  }

  /** Some run, in which workers connect only over flushed commits, ends in `s`. */
  ghost predicate Reachable(s: State) { exists tr :: IsRun(tr) && tr[|tr| - 1] == s }

  /** A worker can connect without ever losing a confirmed transaction through this connection,
      whatever follows, if and only if no earlier commit is unflushed. */
  lemma ConnectIsExact(s: State)
    requires Reachable(s) && s.conn.None?
    ensures (forall tr :: Continues(tr, Next(s, Connect)) ==> !Lost(tr[|tr| - 1])) <==> AllFlushed(s)
  {
    hide Inv, Lost;
    var run :| IsRun(run) && run[|run| - 1] == s;
    RunInv(run, |run| - 1);
    if AllFlushed(s) {
      StepKeepsInv(s, Next(s, Connect), Connect);
      forall tr | Continues(tr, Next(s, Connect)) ensures !Lost(tr[|tr| - 1]) {
        ContinuesInv(tr, Next(s, Connect), |tr| - 1);
        NothingLost(tr[|tr| - 1]);
      }
    } else {
      var tr := UnflushedConnectionLoses(s);
    }
  }

  const LostTxn: Txn := Txn(10, false)

  /** The state after each of the steps of the run below. */
  function LosingState(k: nat): State
    requires k <= 8
  {
    var done := [Assoc(5, 10)];
    var none := Report(0, 0, 0);
    if k == 0 then Initial
    else if k == 1 then Initial.(conn := Some(Connection(0, [], 0, none, 0)))
    else if k == 2 then State([LostTxn], [], 0, 0, 0, Some(Connection(0, [], 0, none, 0)))
    else if k == 3 then State([LostTxn], done, 0, 10, 0, Some(Connection(1, done, 10, none, 0)))
    else if k == 4 then State([LostTxn], done, 0, 10, 0, None)
    else if k == 5 then State([LostTxn], done, 0, 10, 0, Some(Connection(1, [], 0, none, 0)))
    else if k == 6 then State([LostTxn], done, 0, 10, 10, Some(Connection(1, [], 0, Report(10, 10, 10), 1)))
    else if k == 7 then State([LostTxn], [], 0, 0, 10, None)
    else State([LostTxn], [], 0, 0, 10, Some(Connection(1, [], 0, none, 0)))
  }

  function LosingEvent(k: nat): Event
    requires k < 8
  {
    if k == 0 then Connect
    else if k == 1 then UpstreamCommit(LostTxn)
    else if k == 2 then Apply(5)
    else if k == 3 then WorkerExit
    else if k == 4 then Connect
    else if k == 5 then SendReport(10, true)
    else if k == 6 then Crash(0, 0)
    else Connect
  }

  predicate SameState(s: State, s': State) {
    && s.up == s'.up && s.committed == s'.committed && s.flushed == s'.flushed
    && s.progress == s'.progress && s.confirmed == s'.confirmed && s.conn == s'.conn
  }

  lemma LosingStepApply()
    ensures AnyStep(LosingState(1), LosingState(2), LosingEvent(1)) && AnyStep(LosingState(2), LosingState(3), LosingEvent(2))
  {
    assert SameState(Next(LosingState(1), LosingEvent(1)), LosingState(2));
    var c := LosingState(2).conn.value;
    assert c.list + [Assoc(5, 10)] == [Assoc(5, 10)];
    assert SameState(Next(LosingState(2), LosingEvent(2)), LosingState(3));
  }

  lemma LosingStepConnect()
    ensures AnyStep(LosingState(0), LosingState(1), LosingEvent(0)) && AnyStep(LosingState(3), LosingState(4), LosingEvent(3))
    ensures AnyStep(LosingState(4), LosingState(5), LosingEvent(4))
  {
    assert CountUpTo([LostTxn], 10) == 1;
  }

  lemma LosingStepReport()
    ensures AnyStep(LosingState(5), LosingState(6), LosingEvent(5))
  {
  }

  lemma LosingStepCrash()
    ensures AnyStep(LosingState(6), LosingState(7), LosingEvent(6)) && AnyStep(LosingState(7), LosingState(8), LosingEvent(7))
  {
    assert SameState(Next(LosingState(6), LosingEvent(6)), LosingState(7));
    assert CountUpTo([LostTxn], 10) == 1;
  }

  lemma LosingStep(k: nat)
    requires k < 8
    ensures AnyStep(LosingState(k), LosingState(k + 1), LosingEvent(k))
  {
    if k == 0 || k == 3 || k == 4 { LosingStepConnect(); }
    else if k == 1 || k == 2 { LosingStepApply(); }
    else if k == 5 { LosingStepReport(); }
    else { LosingStepCrash(); }
  }

  /** A worker applies a transaction and exits before the commit is flushed; the next
      worker, with an empty list, reports everything received as flushed; then the node
      crashes.  The transaction is neither here nor ever sent again. */
  lemma RestartLosesTransaction() returns (tr: seq<State>, evs: seq<Event>)
    ensures |evs| == 8 && |tr| == 9 && tr[0] == Initial
    ensures forall k {:trigger evs[k]} :: 0 <= k < 8 ==> AnyStep(tr[k], tr[k + 1], evs[k])
    ensures var s := tr[8];
            s.conn.Some? && s.conn.value.next == |s.up| == 1 && !s.up[0].empty && s.committed == []
  {
    tr := seq(9, k requires 0 <= k < 9 => LosingState(k));
    evs := seq(8, k requires 0 <= k < 8 => LosingEvent(k));
    forall k | 0 <= k < 8 ensures AnyStep(tr[k], tr[k + 1], evs[k]) {
      LosingStep(k);
    }
  }
}

/** Progress feedback of an apply worker: the list that associates local with remote
    commit positions, and the positions reported to the upstream. */
module Feedback {

  type Lsn = nat

  datatype Assoc = Assoc(localEnd: Lsn, remoteEnd: Lsn)

  datatype Positions = Positions(write: Lsn, flush: Lsn, none: bool)

  // ---- a full scan of the list ------------------------------------------------------

  function Unflushed(list: seq<Assoc>, flushed: Lsn): (r: seq<Assoc>)
    ensures forall e :: e in r <==> e in list && e.localEnd > flushed
    ensures |r| <= |list|
  {
    if list == [] then []
    else (if list[0].localEnd > flushed then [list[0]] else []) + Unflushed(list[1..], flushed)
  }

  /** Remote end of the last flushed entry, or 0. */
  function LastFlushed(list: seq<Assoc>, flushed: Lsn): Lsn {
    if list == [] then 0
    else if list[|list| - 1].localEnd <= flushed then list[|list| - 1].remoteEnd
    else LastFlushed(list[..|list| - 1], flushed)
  }

  function LastRemote(list: seq<Assoc>): Lsn {
    if list == [] then 0 else list[|list| - 1].remoteEnd
  }

  function FullScan(list: seq<Assoc>, flushed: Lsn): (seq<Assoc>, Positions) {
    var rest := Unflushed(list, flushed);
    (rest, Positions(LastRemote(list), LastFlushed(list, flushed), rest == []))
  }

  // ---- the scan that stops at the first unflushed entry ------------------------------

  /** Number of entries before the first unflushed one. */
  function FlushedPrefix(list: seq<Assoc>, flushed: Lsn): (n: nat)
    ensures n <= |list|
    ensures forall k :: 0 <= k < n ==> list[k].localEnd <= flushed
    ensures n < |list| ==> list[n].localEnd > flushed
  {
    if list == [] || list[0].localEnd > flushed then 0 else 1 + FlushedPrefix(list[1..], flushed)
  }

  function FastScan(list: seq<Assoc>, flushed: Lsn): (seq<Assoc>, Positions) {
    var n := FlushedPrefix(list, flushed);
    (list[n..], Positions(LastRemote(list), LastRemote(list[..n]), n == |list|))
  }

  /** Flushed entries come first. */
  predicate FlushedFirst(list: seq<Assoc>, flushed: Lsn) {
    forall j, k :: 0 <= j < k < |list| && list[k].localEnd <= flushed ==> list[j].localEnd <= flushed
  }

  predicate LocallyOrdered(list: seq<Assoc>) {
    forall j, k :: 0 <= j < k < |list| ==> list[j].localEnd <= list[k].localEnd
  }

  lemma {:induction false} UnflushedSuffix(list: seq<Assoc>, flushed: Lsn)
    requires FlushedFirst(list, flushed)
    ensures Unflushed(list, flushed) == list[FlushedPrefix(list, flushed)..]
  {
    if list != [] {
      UnflushedSuffix(list[1..], flushed);
      if list[0].localEnd > flushed {
        assert FlushedPrefix(list[1..], flushed) == 0;
        assert Unflushed(list, flushed) == [list[0]] + list[1..];
      } else {
        assert Unflushed(list, flushed) == Unflushed(list[1..], flushed);
      }
    }
  }

  lemma {:induction false} LastFlushedPrefix(list: seq<Assoc>, flushed: Lsn)
    requires FlushedFirst(list, flushed)
    ensures LastFlushed(list, flushed) == LastRemote(list[..FlushedPrefix(list, flushed)])
  {
    var n := FlushedPrefix(list, flushed);
    if list != [] {
      var last := |list| - 1;
      if list[last].localEnd <= flushed {
        assert n == |list| && list[..n] == list;
      } else {
        var init := list[..last];
        PrefixIs(init, flushed, n);
        LastFlushedPrefix(init, flushed);
        assert init[..n] == list[..n];
      }
    }
  }

  /** Stopping early gives what a full scan gives, the remaining list and all three
      results, exactly when the flushed entries come first. */
  lemma FastScanIsExact(list: seq<Assoc>, flushed: Lsn)
    ensures FastScan(list, flushed) == FullScan(list, flushed) <==> FlushedFirst(list, flushed)
  {
    var n := FlushedPrefix(list, flushed);
    if FlushedFirst(list, flushed) {
      UnflushedSuffix(list, flushed);
      LastFlushedPrefix(list, flushed);
    } else {
      var j, k :| 0 <= j < k < |list| && list[k].localEnd <= flushed && list[j].localEnd > flushed;
      assert n <= j;
      assert list[n..][k - n] == list[k];
      assert list[k] in list[n..] && list[k] !in Unflushed(list, flushed);
    }
  }

  lemma OrderedScans(list: seq<Assoc>, flushed: Lsn)
    requires LocallyOrdered(list)
    ensures FastScan(list, flushed) == FullScan(list, flushed)
  {
    FastScanIsExact(list, flushed);
  }

  // ---- the worker's session state --------------------------------------------------------

  function Max(a: nat, b: nat): nat { if a < b then b else a }

  /** What a feedback message reports and remembers.  `recv` is already at least the
      last reported receive position. */
  datatype Report = Report(recv: Lsn, write: Lsn, flush: Lsn)

  function NextReport(last: Report, list: seq<Assoc>, flushed: Lsn, recvpos: Lsn): Report {
    var recv := Max(recvpos, last.recv);
    var p := FastScan(list, flushed).1;
    var write, flush := if p.none then recv else p.write, if p.none then recv else p.flush;
    Report(recv, Max(write, last.write), Max(flush, last.flush))
  }

  /** Something new is reported, or an answer was asked for. */
  predicate Worthwhile(last: Report, next: Report, force: bool) {
    force || next.write != last.write || next.flush != last.flush
  }

  // ---- what a report has to say -------------------------------------------------------------

  predicate RemotelyOrdered(list: seq<Assoc>) {
    forall j, k :: 0 <= j < k < |list| ==> list[j].remoteEnd <= list[k].remoteEnd
  }

  predicate EveryFlushed(list: seq<Assoc>, flushed: Lsn) {
    forall k :: 0 <= k < |list| ==> list[k].localEnd <= flushed
  }

  /** Entry `k` and all before it are flushed. */
  predicate FlushedThrough(list: seq<Assoc>, flushed: Lsn, k: nat)
    requires k < |list|
  {
    forall j :: 0 <= j <= k ==> list[j].localEnd <= flushed
  }

  /** Every commit is reported as written, and as flushed if it and all before it are. */
  predicate Covers(list: seq<Assoc>, flushed: Lsn, r: Report) {
    forall k :: 0 <= k < |list| ==>
      list[k].remoteEnd <= r.write && (FlushedThrough(list, flushed, k) ==> list[k].remoteEnd <= r.flush)
  }

  /** With nothing unflushed the position received speaks for the commits. */
  predicate Informed(list: seq<Assoc>, flushed: Lsn, recv: Lsn) {
    EveryFlushed(list, flushed) ==> forall k :: 0 <= k < |list| ==> list[k].remoteEnd <= recv
  }

  lemma FlushedUpTo(list: seq<Assoc>, flushed: Lsn, k: nat)
    requires k < |list|
    ensures FlushedThrough(list, flushed, k) <==> k < FlushedPrefix(list, flushed)
  {
    var n := FlushedPrefix(list, flushed);
    assert n <= k ==> list[n].localEnd > flushed;
  }

  /** An informed report covers the list. */
  lemma InformedCovers(last: Report, list: seq<Assoc>, flushed: Lsn, recvpos: Lsn)
    ensures RemotelyOrdered(list) && Informed(list, flushed, Max(recvpos, last.recv)) ==>
              Covers(list, flushed, NextReport(last, list, flushed, recvpos))
  {
    var n, r := FlushedPrefix(list, flushed), NextReport(last, list, flushed, recvpos);
    if RemotelyOrdered(list) && Informed(list, flushed, Max(recvpos, last.recv)) {
      forall k | 0 <= k < |list|
        ensures list[k].remoteEnd <= r.write && (FlushedThrough(list, flushed, k) ==> list[k].remoteEnd <= r.flush)
      {
        FlushedUpTo(list, flushed, k);
        if k < n < |list| { assert list[..n][n - 1] == list[n - 1]; }
      }
    }
  }

  /** A report covers a list, of which nothing was reported as flushed before, exactly when
      a commit is unflushed or the position received has passed them all. */
  lemma ReportCoversExactly(last: Report, list: seq<Assoc>, flushed: Lsn, recvpos: Lsn)
    requires RemotelyOrdered(list) && forall k :: 0 <= k < |list| ==> list[k].remoteEnd > last.flush
    ensures Covers(list, flushed, NextReport(last, list, flushed, recvpos)) <==>
              Informed(list, flushed, Max(recvpos, last.recv))
  {
    InformedCovers(last, list, flushed, recvpos);
    if Covers(list, flushed, NextReport(last, list, flushed, recvpos)) && EveryFlushed(list, flushed) {
      assert FlushedPrefix(list, flushed) == |list|;
      forall k | 0 <= k < |list| ensures list[k].remoteEnd <= Max(recvpos, last.recv) {
        assert FlushedThrough(list, flushed, k);
      }
    }
  }

  /** What is newly reported is the position received, with nothing unflushed, or the end of
      a commit in the list, as flushed only if it and all before it are. */
  lemma ReportIsTight(last: Report, list: seq<Assoc>, flushed: Lsn, recvpos: Lsn)
    ensures var r := NextReport(last, list, flushed, recvpos);
            && (r.recv == recvpos || r.recv == last.recv) && r.recv >= recvpos && r.recv >= last.recv
            && (r.write > last.write ==>
                  (r.write == r.recv && EveryFlushed(list, flushed)) || exists k :: 0 <= k < |list| && r.write == list[k].remoteEnd)
            && (r.flush > last.flush ==>
                  || (r.flush == r.recv && EveryFlushed(list, flushed))
                  || exists k :: 0 <= k < |list| && r.flush == list[k].remoteEnd && FlushedThrough(list, flushed, k))
  {
    var n, r := FlushedPrefix(list, flushed), NextReport(last, list, flushed, recvpos);
    if n < |list| {
      assert LastRemote(list) == list[|list| - 1].remoteEnd;
      if n > 0 {
        FlushedUpTo(list, flushed, n - 1);
        assert LastRemote(list[..n]) == list[n - 1].remoteEnd;
      }
    }
  }

  class Session {
    var list: seq<Assoc>
    var last: Report

    constructor ()
      ensures list == [] && last == Report(0, 0, 0)
    {
      list, last := [], Report(0, 0, 0);
    }

    /** A remote transaction was committed locally. */
    method Associate(localEnd: Lsn, remoteEnd: Lsn)
      modifies this`list
      ensures list == old(list) + [Assoc(localEnd, remoteEnd)]
    {
      list := list + [Assoc(localEnd, remoteEnd)];
    }

    /** Drop what is flushed locally and say how far writing and flushing has come. */
    method GetFlushPosition(flushed: Lsn) returns (write: Lsn, flush: Lsn, none: bool)
      modifies this`list
      ensures (list, Positions(write, flush, none)) == FastScan(old(list), flushed)
    {
      write, flush := 0, 0;
      ghost var all := list;
      ghost var n := 0;
      while list != []
        invariant n <= |all| && list == all[n..]
        invariant forall k :: 0 <= k < n ==> all[k].localEnd <= flushed
        invariant write == flush == LastRemote(all[..n])
        decreases |list|
      {
        var pos := list[0];
        write := pos.remoteEnd;
        if pos.localEnd <= flushed {
          flush := pos.remoteEnd;
          list := list[1..];
          n := n + 1;
          assert all[..n][n - 1] == pos;
        } else {
          write := list[|list| - 1].remoteEnd;
          PrefixIs(all, flushed, n);
          return write, flush, false;
        }
      }
      PrefixIs(all, flushed, n);
      assert all[..n] == all;
      none := true;
    }

    /** Report to the upstream unless there is nothing new; the message sent is `last`. */
    method SendFeedback(recvpos: Lsn, flushed: Lsn, force: bool) returns (sent: bool)
      modifies this
      ensures list == FastScan(old(list), flushed).0
      ensures sent <==> Worthwhile(old(last), NextReport(old(last), old(list), flushed, recvpos), force)
      ensures last == if sent then NextReport(old(last), old(list), flushed, recvpos) else old(last)
      ensures sent <==> force || last.write > old(last).write || last.flush > old(last).flush
      ensures RemotelyOrdered(old(list)) && Informed(old(list), flushed, Max(recvpos, old(last).recv)) ==>
                Covers(old(list), flushed, last)
    {
      hide Informed, RemotelyOrdered;
      ghost var all, before := list, last;
      var recv := recvpos;
      if recv < last.recv { recv := last.recv; }
      var write, flush, none := GetFlushPosition(flushed);
      if none { flush, write := recv, recv; }
      if write < last.write { write := last.write; }
      if flush < last.flush { flush := last.flush; }
      InformedCovers(before, all, flushed, recvpos);
      if !force && write == last.write && flush == last.flush { return false; }
      if recv > last.recv { last := last.(recv := recv); }
      if write > last.write { last := last.(write := write); }
      if flush > last.flush { last := last.(flush := flush); }
      sent := true;
    }
  }

  lemma PrefixIs(list: seq<Assoc>, flushed: Lsn, n: nat)
    requires n <= |list| && (forall k :: 0 <= k < n ==> list[k].localEnd <= flushed)
    requires n < |list| ==> list[n].localEnd > flushed
    ensures FlushedPrefix(list, flushed) == n
  {
  }

  /** A report goes back behind none before it, and its flush position not past its write
      position. */
  lemma ReportAdvances(last: Report, list: seq<Assoc>, flushed: Lsn, recvpos: Lsn)
    requires RemotelyOrdered(list) && last.flush <= last.write
    ensures var r := NextReport(last, list, flushed, recvpos);
            r.recv >= last.recv && r.write >= last.write && r.flush >= last.flush && r.flush <= r.write
  {
  }
}

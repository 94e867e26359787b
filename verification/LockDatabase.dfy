/** The shared-memory lock record of one database together with its lock table and
    log, updated in place by the handlers.  Assertions in the bodies are those of the
    original. */
module LockDatabase {
  import opened Common
  import opened LockHandlers
  import opened LockProtocol

  datatype TallyResult = Waiting | Declined | Passed

  /** What the whole ACQUIRE handler does when no other worker interleaves. */
  function AcquireHandled(s: Site, from: NodeId, t: LockType, cancelled: bool, lsn: nat): Site {
    match GrantDecision(s, from, t)
    case Refuse => SendDecline(s, from, t)
    case Grant =>
      var s1 := GrantLock(s, from, t);
      if t != Write then SendConfirm(s1)
      else if cancelled then SendReplayRequest(BeginCancel(s1), lsn)
      else SendDecline(BeginCancel(s1), from, t)
    case Upgrade =>
      var s1 := UpgradeRow(s, from, t);
      if t != Write then SendConfirm(RaiseType(s1, t))
      else if cancelled then SendReplayRequest(RaiseType(BeginCancel(s1), t), lsn)
      else SendDecline(BeginCancel(s1), from, t)
  }

  /** Rows reloaded in scan order. */
  function Reloaded(s: Site, scan: seq<NodeId>, lsns: seq<nat>): (r: Site)
    requires |scan| == |lsns| && forall k :: 0 <= k < |scan| ==> scan[k] in s.table
    ensures r.table == s.table
  {
    if scan == [] then s
    else
      var last := |scan| - 1;
      ReloadRow(Reloaded(s, scan[..last], lsns[..last]), scan[last], lsns[last])
  }

  /** The assertion made where a confirmation is logged. */
  predicate ConfirmAssertion(d: LockDb) {
    (d.state.BeginCatchup? && d.ty == Ddl) || (d.state.Catchup? && d.ty == Write)
  }

  class LockDatabase {
    const me: NodeId
    var nnodes: int
    var lockcount: int
    var holder: Option<NodeId>
    var pid: nat
    var ty: LockType
    var state: LockState
    var confirmed: int
    var declined: int
    var replayed: int
    var lsn: nat
    var table: map<NodeId, Row>
    var log: seq<Entry>

    function Snapshot(): Site
      reads this
    {
      Site(LockDb(nnodes, lockcount, holder, pid, ty, state, confirmed, declined, replayed, lsn), table, log)
    }

    ghost predicate Valid()
      reads this
    {
      RecordOk(me, Snapshot())
    }

    /** Ask for the lock from the local backend `backend`. */
    method AcquireDdlLock(backend: nat, t: LockType) returns (outcome: AcquireOutcome)
      requires Valid() && backend != 0 && t != NoLock
      modifies this
      ensures Valid()
      ensures outcome == AcquireDecision(old(Snapshot()), backend, t)
      ensures Snapshot() == if outcome == Requested then RegisterRequest(old(Snapshot()), backend, t) else old(Snapshot())
      ensures outcome == AlreadyHeld <==> old(pid) == backend && Rank(old(ty)) >= Rank(t)
      ensures outcome == Refused <==> old(pid) != backend && (old(nnodes) < 0 || old(lockcount) > 0)
      ensures outcome == Requested ==> pid == backend && ty == t && state.Tallying? && log == old(log) + [Acquire(t)]
    {
      var mine := pid == backend;
      assert (ty == NoLock && lockcount == 0 && !mine) || (ty != NoLock && lockcount == 1);
      if mine && Rank(ty) >= Rank(t) { return AlreadyHeld; }
      if !mine {
        if nnodes < 0 { return Refused; }
        if lockcount > 0 {
          assert !state.Unlocked?;
          return Refused;
        }
        assert state.Unlocked? && pid == 0;
        lockcount := lockcount + 1;
        pid := backend;
      }
      assert pid == backend;
      holder := None;
      confirmed := 0;
      declined := 0;
      ty := t;
      state := Tallying;
      log := log + [Acquire(t)];
      outcome := Requested;
    }

    /** One look of the waiting backend at the counters. */
    method CheckTally() returns (r: TallyResult)
      requires Valid() && state.Tallying?
      ensures r == Passed <==> TallyPasses(Snapshot())
      ensures r == Declined <==> declined > 0
    {
      if declined > 0 { return Declined; }
      if confirmed >= nnodes { return Passed; }
      r := Waiting;
    }

    /** The wait has ended, in an earlier section: the lock is taken whatever has been
        counted since. */
    method FinishAcquire()
      requires Valid() && state.Tallying?
      modifies this
      ensures Valid() && Snapshot() == FinishTally(old(Snapshot()))
    {
      confirmed := 0;
      declined := 0;
      assert state.Tallying?;
      state := Acquired;
    }

    /** End of the transaction that holds or requests the lock. */
    method ReleaseOnXactEnd()
      requires Valid() && pid != 0
      modifies this
      ensures Valid() && Snapshot() == ClearRequest(SendRelease(old(Snapshot()), me))
      ensures lockcount == 0 && holder.None? && table == map[]
    {
      log := log + [Release(me)];
      assert lockcount == 1 && !state.Unlocked?;
      if lockcount > 0 { lockcount := lockcount - 1; }
      pid := 0;
      ty := NoLock;
      state := Unlocked;
      replayed := 0;
      lsn := 0;
    }

    /** A peer asks for the lock.  `cancelled` says whether all conflicting local
        transactions could be stopped, `pos` is the current log position.  A peer asks for
        more only once its first request is confirmed here. */
    method ProcessAcquireDdlLock(from: NodeId, t: LockType, cancelled: bool, pos: nat)
      requires Valid() && from != me && t != NoLock && pos != 0
      requires from in table ==> table[from] == Row(Ddl, RowAcquired) && t == Write
      modifies this
      ensures Valid() && Snapshot() == AcquireHandled(old(Snapshot()), from, t, cancelled, pos)
    {
      if lockcount == 0 {
        assert state.Unlocked? && table == map[];
        table := table[from := Row(t, RowCatchup)];
        state := BeginCatchup;
        lockcount := lockcount + 1;
        ty := t;
        holder := Some(from);
        if t == Write {
          state := CancelXacts;
          if !cancelled {
            log := log + [Decline(from, t)];
            return;
          }
          RequestReplayConfirmation(pos);
        } else {
          SendConfirmLock();
        }
      } else if holder == Some(from) && Rank(t) > Rank(ty) {
        assert from in table;
        table := table[from := Row(t, RowCatchup)];
        state := BeginCatchup;
        if t == Write {
          state := CancelXacts;
          if !cancelled {
            log := log + [Decline(from, t)];
            return;
          }
          ty := t;
          RequestReplayConfirmation(pos);
        } else {
          // nothing lies between the two modes
          assert false;
        }
      } else {
        log := log + [Decline(from, t)];
      }
    }

    method RequestReplayConfirmation(pos: nat)
      requires Valid() && ty == Write && state.CancelXacts? && pos != 0
      modifies this
      ensures Valid() && Snapshot() == SendReplayRequest(old(Snapshot()), pos)
    {
      assert ty == Write && state.CancelXacts?;
      log := log + [RequestReplay(pos)];
      replayed := 0;
      lsn := pos;
      state := Catchup;
    }

    /** The original asserts `ConfirmAssertion` here.  It holds but for a DDL hold that was
        taken back in catch-up after a restart. */
    method SendConfirmLock()
      requires Valid() && (state.Catchup? || (state.BeginCatchup? && ty == Ddl && table[holder.value].ty == Ddl))
      modifies this
      ensures Valid() && Snapshot() == SendConfirm(old(Snapshot()))
      ensures old(ConfirmAssertion(Snapshot().db)) <==> !old(state.Catchup? && ty == Ddl)
      ensures |log| == |old(log)| + 1 && log[|old(log)|] == Confirm(old(holder).value, old(ty))
    {
      assert ConfirmAssertion(Snapshot().db) || (state.Catchup? && ty == Ddl);
      replayed := 0;
      lsn := 0;
      log := log + [Confirm(holder.value, ty)];
      assert holder.value in table;
      table := table[holder.value := table[holder.value].(state := RowAcquired)];
      state := Confirmed;
    }

    /** A release or restart of `node` was replayed. */
    method ReleaseLocalDdlLock(node: NodeId)
      requires Valid()
      modifies this
      ensures Valid() && Snapshot() == DropHold(old(Snapshot()), node)
      ensures node !in table && holder != Some(node) && (old(holder) != Some(node) ==> Snapshot() == old(Snapshot()))
    {
      if node !in table { return; }
      assert ty != NoLock && !state.Unlocked? && !state.Tallying? && !state.Acquired?;
      assert lockcount > 0;
      table := table - {node};
      state := Unlocked;
      assert state.Unlocked?;
      lockcount := lockcount - 1;
      holder := None;
      ty := NoLock;
      replayed := 0;
      lsn := 0;
      assert lockcount == 0;
    }

    /** A confirmation of the request of node `requester` was replayed: will it count?
        Decided without the control-segment lock. */
    method CheckConfirm(requester: NodeId, t: LockType) returns (counts: bool)
      ensures counts <==> ChecksConfirm(Snapshot(), me, requester, t)
    {
      if requester != me { return false; }
      counts := ty == t;
    }

    method AddConfirm()
      requires Valid()
      modifies this
      ensures Valid() && Snapshot() == CountConfirm(old(Snapshot()))
    {
      confirmed := confirmed + 1;
    }

    method CheckDecline(t: LockType) returns (counts: bool)
      ensures counts <==> ChecksDecline(Snapshot(), t)
    {
      counts := ty == t;
    }

    method AddDecline()
      requires Valid()
      modifies this
      ensures Valid() && Snapshot() == CountDecline(old(Snapshot()))
    {
      declined := declined + 1;
    }

    /** A peer has replayed up to `pos`.  The hold is confirmed, once, when enough have. */
    method ProcessReplayConfirm(pos: nat)
      requires Valid() && pos != 0
      modifies this
      ensures Valid() && Snapshot() == CountReplay(old(Snapshot()), pos)
      ensures old(state).Catchup? && state.Confirmed? <==> old(ReachesQuorum(Snapshot(), pos))
    {
      var quorum := false;
      if lsn == pos {
        replayed := replayed + 1;
        quorum := replayed >= nnodes;
      }
      if quorum { SendConfirmLock(); }
    }

    /** Take back the lock recorded in the row of `h`. */
    method ReloadOneRow(h: NodeId, pos: nat)
      requires h in table
      modifies this
      ensures Snapshot() == ReloadRow(old(Snapshot()), h, pos)
    {
      holder := Some(h);
      lockcount := lockcount + 1;
      ty := table[h].ty;
      if table[h].state == RowAcquired {
        state := Confirmed;
      } else {
        log := log + [RequestReplay(pos)];
        state := Catchup;
        replayed := 0;
        lsn := pos;
      }
    }

    /** Start-up: announce the restart and take back the row found in the lock table, if
        there is one. */
    method Startup(scan: seq<NodeId>, positions: seq<nat>)
      requires |scan| == |positions| && (forall k :: 0 <= k < |scan| ==> scan[k] in table)
      requires (if scan == [] then table == map[] else |scan| == 1 && table.Keys == {scan[0]})
      requires forall h :: h in table ==> h != me && table[h].ty != NoLock
      requires Snapshot().db == FreeDb && forall k :: 0 <= k < |scan| ==> positions[k] != 0
      modifies this
      ensures Valid() && Snapshot() == Reloaded(old(Snapshot()).Emit(Start), scan, positions)
    {
      ghost var s := Snapshot().Emit(Start);
      nnodes := -1;
      log := log + [Start];
      for k := 0 to |scan|
        invariant Snapshot() == Reloaded(s, scan[..k], positions[..k])
      {
        ReloadOneRow(scan[k], positions[k]);
        assert scan[..k + 1][..k] == scan[..k] && positions[..k + 1][..k] == positions[..k];
      }
      assert scan[..|scan|] == scan && positions[..|scan|] == positions;
      if scan != [] { assert scan[..0] == [] && positions[..0] == []; }
    }

    /** Must a user write wait? */
    method PeerHasWriteLock(mine: bool) returns (r: bool)
      ensures r <==> !mine && PeerHoldsWrite(Snapshot().db)
    {
      r := !mine && lockcount > 0 && Rank(ty) >= Rank(Write) && holder.Some?;
    }
  }

  // ---- the handlers and the step relation agree ------------------------------------------

  /** The sections the worker still has to run after replaying an ACQUIRE. */
  ghost function RemainingSections(i: NodeId, size: nat, n: Node, cancelled: bool, lsn: nat): Node
    requires n.up && lsn != 0 && (n.worker.WillCancel? ==> n.site.db.holder.Some?)
    requires n.worker.Idle? || n.worker.WillConfirm? || n.worker.WillCancel?
  {
    if n.worker.Idle? then n
    else if n.worker.WillConfirm? then Next(i, size, n, ConfirmDdl)
    else
      var n1 := Next(i, size, n, CancelStart);
      if !cancelled then Next(i, size, n1, CancelFail)
      else
        var n2 := Next(i, size, n1, CancelDone);
        if n2.worker.WillRaise? then Next(i, size, Next(i, size, n2, Raise), AskReplay(lsn))
        else Next(i, size, n2, AskReplay(lsn))
  }

  lemma CancelSections(i: NodeId, size: nat, n: Node, cancelled: bool, lsn: nat)
    requires n.up && lsn != 0 && n.worker.WillCancel? && n.site.db.holder.Some?
    ensures RemainingSections(i, size, n, cancelled, lsn).site
         == var c := BeginCancel(n.site);
            if !cancelled then SendDecline(c, n.site.db.holder.value, Write)
            else SendReplayRequest(if n.worker.upgrade then RaiseType(c, Write) else c, lsn)
  {
  }

  /** The ACQUIRE handler run without interruption is the sequence of steps the
      protocol takes: replay the message, then the sections of the worker. */
  lemma HandlerIsSteps(i: NodeId, size: nat, n: Node, from: NodeId, t: LockType, cancelled: bool, lsn: nat)
    requires Enabled(i, n, Deliver(from, Acquire(t))) && n.worker.Idle? && t != NoLock && lsn != 0
    requires n.site.db.lockcount == 0 <==> n.site.db.ty == NoLock
    ensures RemainingSections(i, size, Receive(i, size, n, from, Acquire(t)), cancelled, lsn).site
         == AcquireHandled(n.site, from, t, cancelled, lsn)
  {
    var n1 := Receive(i, size, n, from, Acquire(t));
    if n1.worker.WillCancel? {
      CancelSections(i, size, n1, cancelled, lsn);
    }
  }

  /** Start-up with the one row the lock table can hold is the recovery step. */
  lemma StartupIsRecovery(n: Node, lsn: nat, h: NodeId)
    requires !n.up && n.site.db == FreeDb && n.site.table.Keys == {h}
    ensures Restart(n, lsn).site == Reloaded(n.site.Emit(Start), [h], [lsn])
  {
    assert [h][..0] == [] && [lsn][..0] == [];
  }
}

/** The per-database lock state of one node, the rows of its lock table, and the
    handlers that change them.  Each handler is one section of the original that
    runs under the control-segment lock. */
module LockHandlers {
  import opened Common

  type NodeId = nat

  datatype LockType = NoLock | Ddl | Write

  function Rank(t: LockType): nat {
    match t
    case NoLock => 0
    case Ddl => 1
    case Write => 2
  }

  datatype LockState =
    | Unlocked
    | Tallying          // requesting node, counting confirmations
    | Acquired          // requesting node, lock held
    | BeginCatchup      // peer
    | CancelXacts       // peer
    | Catchup           // peer, waiting for replay confirmations
    | Confirmed         // peer, confirmation logged

  predicate IsPeerState(st: LockState) {
    st.BeginCatchup? || st.CancelXacts? || st.Catchup? || st.Confirmed?
  }

  predicate IsLocalState(st: LockState) {
    st.Tallying? || st.Acquired?
  }

  /** The shared-memory record.  `holder` is None for the local node, `lsn` is 0
      when no replay confirmation is awaited, `pid` is 0 when no local backend
      holds or requests the lock. */
  datatype LockDb = LockDb(
    nnodes: int, lockcount: int, holder: Option<NodeId>, pid: nat,
    ty: LockType, state: LockState,
    confirmed: int, declined: int, replayed: int, lsn: nat)

  datatype RowState = RowCatchup | RowAcquired

  /** A row of the lock table, keyed by the node it is held for. */
  datatype Row = Row(ty: LockType, state: RowState)

  /** What a node writes to its own log; every peer replays the log in order. */
  datatype Entry =
    | Change                                  // a committed row change
    | Start
    | Acquire(ty: LockType)
    | Release(node: NodeId)
    | Confirm(holder: NodeId, cty: LockType)
    | Decline(node: NodeId, dty: LockType)
    | RequestReplay(lsn: nat)
    | ReplayConfirm(rlsn: nat)

  /** Shared memory, lock table and log of one node. */
  datatype Site = Site(db: LockDb, table: map<NodeId, Row>, log: seq<Entry>) {
    function Emit(e: Entry): Site { this.(log := log + [e]) }
  }

  /** The record agrees with itself and with the lock table: at most one hold; no lock type
      and no state exactly without one; local states exactly with a local backend; peer
      states exactly with a peer as holder, whose row is then the only one; a replay
      position exactly while answers are awaited. */
  predicate RecordOk(me: NodeId, s: Site) {
    var d := s.db;
    && (d.lockcount == 0 || d.lockcount == 1) && d.declined >= 0
    && (d.lockcount == 0 <==> d.ty == NoLock) && (d.lockcount == 0 <==> d.state.Unlocked?)
    && (d.pid != 0 <==> IsLocalState(d.state)) && (d.holder.Some? <==> IsPeerState(d.state))
    && (d.lsn != 0 <==> d.state.Catchup?)
    && (if d.holder.None? then s.table == map[]
        else d.holder.value != me && s.table.Keys == {d.holder.value} && RowOk(d, s.table[d.holder.value]))
  }

  /** The row of the holder is acquired exactly when the hold is confirmed, and is never for
      less than the record says. */
  predicate RowOk(d: LockDb, r: Row) {
    && Rank(d.ty) <= Rank(r.ty) && (d.state.Catchup? || d.state.Confirmed? ==> d.ty == r.ty)
    && (d.state.Confirmed? <==> r.state.RowAcquired?)
  }

  const FreeDb := LockDb(-1, 0, None, 0, NoLock, Unlocked, 0, 0, 0, 0)

  // ---- the requesting backend ------------------------------------------------

  datatype AcquireOutcome = AlreadyHeld | Refused | Requested

  /** Outcome of asking for the lock from backend `pid`. */
  function AcquireDecision(s: Site, pid: nat, t: LockType): AcquireOutcome {
    var mine := s.db.pid != 0 && s.db.pid == pid;
    if mine && Rank(s.db.ty) >= Rank(t) then AlreadyHeld
    else if !mine && (s.db.nnodes < 0 || s.db.lockcount > 0) then Refused
    else Requested
  }

  /** Register the request and log the ACQUIRE message. */
  function RegisterRequest(s: Site, pid: nat, t: LockType): Site {
    s.(db := s.db.(lockcount := if s.db.pid == pid then s.db.lockcount else s.db.lockcount + 1,
                   pid := pid, holder := None, confirmed := 0, declined := 0,
                   ty := t, state := Tallying))
     .Emit(Acquire(t))
  }

  /** The wait ends: nobody has declined and all have confirmed. */
  predicate TallyPasses(s: Site) {
    s.db.state.Tallying? && s.db.declined <= 0 && s.db.confirmed >= s.db.nnodes
  }

  /** A later section takes the lock and resets both counters. */
  function FinishTally(s: Site): Site {
    s.(db := s.db.(confirmed := 0, declined := 0, state := Acquired))
  }

  function SendRelease(s: Site, me: NodeId): Site { s.Emit(Release(me)) }

  function ClearRequest(s: Site): Site {
    s.(db := s.db.(lockcount := if s.db.lockcount > 0 then s.db.lockcount - 1 else s.db.lockcount,
                   pid := 0, ty := NoLock, state := Unlocked, replayed := 0, lsn := 0))
  }

  // ---- a peer asks for the lock ----------------------------------------------

  datatype GrantKind = Grant | Upgrade | Refuse

  function GrantDecision(s: Site, from: NodeId, t: LockType): GrantKind {
    if s.db.lockcount == 0 then Grant
    else if s.db.holder == Some(from) && Rank(t) > Rank(s.db.ty) then Upgrade
    else Refuse
  }

  function GrantLock(s: Site, from: NodeId, t: LockType): Site {
    s.(table := s.table[from := Row(t, RowCatchup)],
       db := s.db.(lockcount := s.db.lockcount + 1, ty := t, holder := Some(from), state := BeginCatchup))
  }

  /** Only the row and the state change; the type in memory is raised later. */
  function UpgradeRow(s: Site, from: NodeId, t: LockType): Site {
    s.(table := s.table[from := Row(t, RowCatchup)], db := s.db.(state := BeginCatchup))
  }

  function SendDecline(s: Site, from: NodeId, t: LockType): Site { s.Emit(Decline(from, t)) }

  function BeginCancel(s: Site): Site { s.(db := s.db.(state := CancelXacts)) }

  function RaiseType(s: Site, t: LockType): Site { s.(db := s.db.(ty := t)) }

  function SendReplayRequest(s: Site, lsn: nat): Site {
    s.(db := s.db.(replayed := 0, lsn := lsn, state := Catchup)).Emit(RequestReplay(lsn))
  }

  /** One transaction logs the CONFIRM and marks the row acquired. */
  function SendConfirm(s: Site): Site {
    if s.db.holder.None? || s.db.holder.value !in s.table then s
    else
      var h := s.db.holder.value;
      s.(db := s.db.(replayed := 0, lsn := 0, state := Confirmed),
         table := s.table[h := s.table[h].(state := RowAcquired)])
       .Emit(Confirm(h, s.db.ty))
  }

  // ---- messages ---------------------------------------------------------------

  /** Release and restart messages both drop what is held for `node`. */
  function DropHold(s: Site, node: NodeId): Site {
    if node !in s.table then s
    else s.(table := s.table - {node},
            db := s.db.(lockcount := s.db.lockcount - 1, holder := None, ty := NoLock,
                        state := Unlocked, replayed := 0, lsn := 0))
  }

  /** Whether a confirmation will be counted is decided before the control segment is
      locked; no attempt number travels with it, only holder and type. */
  predicate ChecksConfirm(s: Site, me: NodeId, holder: NodeId, t: LockType) { holder == me && s.db.ty == t }

  function CountConfirm(s: Site): Site { s.(db := s.db.(confirmed := s.db.confirmed + 1)) }

  /** Likewise for a decline, whoever it names. */
  predicate ChecksDecline(s: Site, t: LockType) { s.db.ty == t }

  function CountDecline(s: Site): Site { s.(db := s.db.(declined := s.db.declined + 1)) }

  function AnswerReplay(s: Site, lsn: nat): Site { s.Emit(ReplayConfirm(lsn)) }

  /** The answer matches the request this node is waiting for. */
  predicate CountsReplay(s: Site, lsn: nat) { s.db.lsn == lsn }

  predicate ReachesQuorum(s: Site, lsn: nat) {
    CountsReplay(s, lsn) && s.db.replayed + 1 >= s.db.nnodes
  }

  function CountReplay(s: Site, lsn: nat): Site {
    if !CountsReplay(s, lsn) then s
    else
      var s1 := s.(db := s.db.(replayed := s.db.replayed + 1));
      if ReachesQuorum(s, lsn) then SendConfirm(s1) else s1
  }

  // ---- restart ------------------------------------------------------------------

  /** Reload the row held for `h` after a restart. */
  function ReloadRow(s: Site, h: NodeId, lsn: nat): Site
    requires h in s.table
  {
    var r := s.table[h];
    var db := s.db.(holder := Some(h), lockcount := s.db.lockcount + 1, ty := r.ty);
    match r.state
    case RowAcquired => s.(db := db.(state := Confirmed))
    case RowCatchup => s.(db := db.(state := Catchup, replayed := 0, lsn := lsn)).Emit(RequestReplay(lsn))
  }
}

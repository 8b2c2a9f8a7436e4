/** Who owns a vehicle, over whole runs of the ledger. */
module LedgerOwners {
  import opened Tables
  import opened Chain
  import opened Indexer
  import opened Reconciler
  import opened ReconcilerFacts
  import opened Ledger

  /** The owner an indexed event gives to the ownership row: `XferDone` and `VehicleReg` of its token. */
  ghost function IndexedOwner(db: Db, ev: Event, id: RowId): Option<string> {
    match ev
    case XferDone(_, ownTid, newOwner) =>
      if Find(db, Ownerships, ownTid) == Some(id) then Some(Lower(newOwner)) else None
    case VehicleReg(ownTid, owner, _, dvpId) =>
      if Find(db, Ownerships, ownTid) == Some(id) && Find(db, Passports, dvpId).Some? then Some(Lower(owner)) else None
    case _ => None
  }

  /** The owner a transfer approval on the chain gives. */
  function ApprovedOwner(chain: Verdicts, h: Hash): Option<string> {
    if h !in chain then None else
    match Get(chain[h].events, "XferDone")
    case Some(XferDone(_, _, newOwner)) => Some(newOwner)
    case _ => None
  }

  /** The owner a move writes to the row: a completed approval that counts on it, or an indexed event. */
  ghost function OwnerBy(s: State, dir: Directory, chain: Verdicts, m: Move, id: RowId): Option<string>
    requires Enabled(s, chain, m)
  {
    if m.Take? && Step(s, dir, chain, m).passed == s.passed + [(m.h, id)] then ApprovedOwner(chain, m.h)
    else if m.Index? then IndexedOwner(s.db, m.log.event, id)
    else None
  }

  /** The owners a run writes, in order. */
  ghost function Owners(s: State, dir: Directory, chain: Verdicts, moves: seq<Move>, id: RowId): seq<string>
    requires RunOk(s, dir, chain, moves)
    decreases |moves|
  {
    if moves == [] then [] else
    (match OwnerBy(s, dir, chain, moves[0], id) case None => [] case Some(w) => [w])
    + Owners(Step(s, dir, chain, moves[0]), dir, chain, moves[1..], id)
  }

  /** The new owners of the approvals counted on the row. */
  function ApprovedOwners(chain: Verdicts, passed: seq<(Hash, RowId)>, id: RowId): seq<string> {
    if passed == [] then [] else
    (if passed[0].1 != id then [] else match ApprovedOwner(chain, passed[0].0) case None => [] case Some(w) => [w])
    + ApprovedOwners(chain, passed[1..], id)
  }

  function LastOr(owners: seq<string>, first: Val): Val {
    if owners == [] then first else Text(owners[|owners| - 1])
  }

  // ── Ids ──

  /** New rows have new ids. */
  ghost predicate NewIds(d: Db, d': Db) {
    && d.next <= d'.next && (forall id :: id in d'.rows ==> id < d'.next)
    && (forall id :: id in d'.rows && id !in d.rows ==> id >= d.next)
  }

  lemma StepNewIds(s: State, dir: Directory, chain: Verdicts, m: Move)
    requires Enabled(s, chain, m) && forall id :: id in s.db.rows ==> id < s.db.next
    ensures NewIds(s.db, Step(s, dir, chain, m).db)
  {
    hide RollForward, Handle, Compensate, RecordTx, Counted;
    KeptByNothing(s.db);
    match m
    case Submit(_, _, _) => RecordCounts(s, m, chain);
    case Index(log) => HandleCounts(s.db, dir, log);
    case Undo(k) => CompensateCounts(s.db, s.sweepers[k].copy.value.action, s.sweepers[k].copy.value.target);
    case Take(k, h, seen) =>
      if Succeeded(chain, h) {
        RollForwardCounts(s.db, dir, h, s.sweepers[k].batch[h], chain[h].block, chain[h].events);
      }
    case _ =>
  }

  // ── One move ──

  /** The owner of the row, if it still exists, is the one written or the one before. */
  ghost predicate OwnedAfter(d: Db, d': Db, id: RowId, owner: Option<string>) {
    id in d.rows && id in d'.rows ==>
      At(d'.rows[id], OwnerWallet) == if owner.Some? then Text(owner.value) else At(d.rows[id], OwnerWallet)
  }

  lemma OtherAmend(dir: Directory, tx: Option<Tx>, ev: Event)
    requires KindOf(ev).Amend? && !ev.XferDone?
    ensures OwnerWallet !in AmendData(dir, tx, ev)
  {
  }

  lemma OtherMake(db: Db, dir: Directory, ev: Event)
    requires KindOf(ev).Make? && !ev.VehicleReg?
    ensures OwnerWallet !in UpsertData(dir, ev) && OwnerWallet !in PromoteData(db, dir, ev)
  {
  }

  lemma HandleOwner(db: Db, dir: Directory, log: Log, id: RowId)
    requires id in db.rows && id < db.next
    ensures OwnedAfter(db, Handle(db, dir, log), id, IndexedOwner(db, log.event, id))
  {
    hide Find, Parents, Linked, CreateData;
    var ev, tx := log.event, TxOf(db, log.hash);
    if KindOf(ev).Amend? && !ev.XferDone? { OtherAmend(dir, tx, ev); }
    if KindOf(ev).Make? && !ev.VehicleReg? { OtherMake(db, dir, ev); }
    hide AmendData, PromoteData;
    if ev.XferDone? {
      DoneHandle(db, dir, log, id);
    } else if ev.VehicleReg? {
      RegisteredHandle(db, dir, log, id);
    } else {
      hide UpsertData;
      assert SecondEffect(db, log) == NoWrite;
    }
  }

  lemma DoneHandle(db: Db, dir: Directory, log: Log, id: RowId)
    requires id in db.rows && log.event.XferDone?
    ensures OwnedAfter(db, Handle(db, dir, log), id, IndexedOwner(db, log.event, id))
  {
    hide Find;
    AmendHandle(db, dir, log, Ownerships, log.event.ownTid);
    hide Handle;
  }

  lemma RegisteredHandle(db: Db, dir: Directory, log: Log, id: RowId)
    requires id in db.rows && id < db.next && log.event.VehicleReg?
    ensures OwnedAfter(db, Handle(db, dir, log), id, IndexedOwner(db, log.event, id))
  {
    hide Find, CreateData, Handle;
    RegHandle(db, dir, log);
  }

  lemma CompensateOwner(db: Db, a: Action, target: Option<RowId>, id: RowId)
    ensures OwnedAfter(db, Compensate(db, a, target), id, None)
  {
    hide Write;
    RestoredOwner(a);
    hide UndoOf;
  }

  lemma RestoredOwner(a: Action)
    ensures UndoOf(a).Restore? ==> OwnerWallet !in UndoOf(a).data
  {
  }

  lemma RollForwardOwner(db: Db, dir: Directory, h: Hash, tx: Tx, block: nat, events: EventMap, id: RowId)
    ensures var d := RollForward(db, dir, h, tx, block, events);
            d.Some? ==>
              OwnedAfter(db, d.value, id,
                         if Counted(db, tx, events) == Some(id) then Completes(tx.action, events) else None)
  {
    hide Business;
    if h in db.txs && tx.target.Some? {
      BusinessOwner(db.(txs := db.txs[h := db.txs[h].(sync := Mined, block := Some(block))]), dir, tx, tx.target.value,
                    events, id);
    }
  }

  lemma BusinessOwner(db: Db, dir: Directory, tx: Tx, target: RowId, events: EventMap, id: RowId)
    requires tx.target == Some(target)
    ensures var d := Business(db, dir, tx.action, target, events);
            d.Some? ==>
              OwnedAfter(db, d.value, id,
                         if Counted(db, tx, events) == Some(id) then Completes(tx.action, events) else None)
  {
    RowDataHarmless(dir, tx.action, events);
    CompletesHasData(dir, tx.action, events);
    FollowedNone(dir, tx.action, target, events);
    hide RowData, Completes, Write;
  }

  lemma StepOwner(s: State, dir: Directory, chain: Verdicts, m: Move, id: RowId)
    requires Enabled(s, chain, m) && id in s.db.rows && id < s.db.next
    ensures OwnedAfter(s.db, Step(s, dir, chain, m).db, id, OwnerBy(s, dir, chain, m, id))
  {
    hide RollForward, Handle, Compensate, Counted;
    match m
    case Index(log) => HandleOwner(s.db, dir, log, id);
    case Undo(k) => CompensateOwner(s.db, s.sweepers[k].copy.value.action, s.sweepers[k].copy.value.target, id);
    case Take(k, h, seen) => TakeOwner(s, dir, chain, m, id);
    case _ =>
  }

  lemma TakeOwner(s: State, dir: Directory, chain: Verdicts, m: Move, id: RowId)
    requires Enabled(s, chain, m) && m.Take?
    ensures OwnedAfter(s.db, Step(s, dir, chain, m).db, id, OwnerBy(s, dir, chain, m, id))
  {
    hide RollForward;
    if m.seen && Succeeded(chain, m.h) {
      var tx, events := s.sweepers[m.k].batch[m.h], chain[m.h].events;
      RollForwardOwner(s.db, dir, m.h, tx, chain[m.h].block, events, id);
      if Counted(s.db, tx, events).Some? {
        assert Completes(tx.action, events) == ApprovedOwner(chain, m.h);
        Appended(s.passed, (m.h, Counted(s.db, tx, events).value), (m.h, id));
      }
    }
    NotAppended(s.passed, (m.h, id));
  }

  lemma Appended<T>(s: seq<T>, x: T, y: T)
    ensures s + [x] == s + [y] ==> x == y
  {
    assert (s + [x])[|s|] == x && (s + [y])[|s|] == y;
  }

  lemma NotAppended<T>(s: seq<T>, x: T)
    ensures s != s + [x]
  {
    assert |s + [x]| == |s| + 1;
  }

  // ── Whole runs ──

  /** A row that is gone stays gone. */
  lemma {:induction false} GoneStays(s: State, dir: Directory, chain: Verdicts, moves: seq<Move>, id: RowId)
    requires RunOk(s, dir, chain, moves) && id !in s.db.rows && id < s.db.next
    requires forall i :: i in s.db.rows ==> i < s.db.next
    ensures id !in After(s, dir, chain, moves).db.rows
    decreases |moves|
  {
    hide Step, Enabled;
    if moves != [] {
      StepNewIds(s, dir, chain, moves[0]);
      GoneStays(Step(s, dir, chain, moves[0]), dir, chain, moves[1..], id);
    }
  }

  /** The owner of a vehicle is the last one written: by a completed approval that counts on its ownership row, by an
      indexed `XferDone` or `VehicleReg` of its token, and by nothing else, whatever crashes. */
  lemma {:induction false} OwnerIsLastWritten(s: State, dir: Directory, chain: Verdicts, moves: seq<Move>, id: RowId)
    requires RunOk(s, dir, chain, moves) && id in s.db.rows && forall i :: i in s.db.rows ==> i < s.db.next
    ensures var t := After(s, dir, chain, moves);
            id in t.db.rows ==>
              At(t.db.rows[id], OwnerWallet) ==
              LastOr(Owners(s, dir, chain, moves, id), At(s.db.rows[id], OwnerWallet))
    decreases |moves|
  {
    hide Step, Enabled, OwnerBy;
    if moves != [] {
      var s' := Step(s, dir, chain, moves[0]);
      StepNewIds(s, dir, chain, moves[0]);
      StepOwner(s, dir, chain, moves[0], id);
      if id in s'.db.rows {
        OwnerIsLastWritten(s', dir, chain, moves[1..], id);
      } else {
        GoneStays(s', dir, chain, moves[1..], id);
      }
    }
  }

  /** No event that the indexer handles names an owner of the row. */
  ghost predicate OnlySwept(s: State, dir: Directory, chain: Verdicts, moves: seq<Move>, id: RowId)
    requires RunOk(s, dir, chain, moves)
    decreases |moves|
  {
    moves != [] ==>
      && (moves[0].Index? ==> IndexedOwner(s.db, moves[0].log.event, id).None?)
      && OnlySwept(Step(s, dir, chain, moves[0]), dir, chain, moves[1..], id)
  }

  lemma StepPassed(s: State, dir: Directory, chain: Verdicts, m: Move)
    requires Enabled(s, chain, m)
    ensures var t := Step(s, dir, chain, m);
            t.passed == s.passed || (m.Take? && exists id :: t.passed == s.passed + [(m.h, id)])
  {
    hide RollForward, Handle, Compensate, RecordTx, Counted;
  }

  lemma {:induction false} SweptOwners(s: State, dir: Directory, chain: Verdicts, moves: seq<Move>, id: RowId)
    requires RunOk(s, dir, chain, moves) && OnlySwept(s, dir, chain, moves, id)
    ensures var t := After(s, dir, chain, moves);
            && s.passed <= t.passed
            && Owners(s, dir, chain, moves, id) == ApprovedOwners(chain, t.passed[|s.passed|..], id)
    decreases |moves|
  {
    hide Step, Enabled, ApprovedOwner;
    if moves != [] {
      var m, s', t := moves[0], Step(s, dir, chain, moves[0]), After(s, dir, chain, moves);
      SweptOwners(s', dir, chain, moves[1..], id);
      StepPassed(s, dir, chain, m);
      if s'.passed == s.passed {
        if m.Take? { NotAppended(s.passed, (m.h, id)); }
      } else {
        var n :| s'.passed == s.passed + [(m.h, n)];
        Appended(s.passed, (m.h, n), (m.h, id));
        assert t.passed[|s.passed|..] == [(m.h, n)] + t.passed[|s'.passed|..];
      }
    }
  }

  /** The sweep alone: the wallet is the new owner of the last approval counted on the row, and the first wallet when
      there is none. */
  lemma LastApprovalOwns(s: State, dir: Directory, chain: Verdicts, moves: seq<Move>, id: RowId)
    requires RunOk(s, dir, chain, moves) && OnlySwept(s, dir, chain, moves, id)
    requires id in s.db.rows && forall i :: i in s.db.rows ==> i < s.db.next
    ensures var t := After(s, dir, chain, moves);
            && s.passed <= t.passed
            && (id in t.db.rows ==>
                  At(t.db.rows[id], OwnerWallet) ==
                  LastOr(ApprovedOwners(chain, t.passed[|s.passed|..], id), At(s.db.rows[id], OwnerWallet)))
  {
    OwnerIsLastWritten(s, dir, chain, moves, id);
    SweptOwners(s, dir, chain, moves, id);
  }
}

/** The worker's writes keep the database sound. */
module ReconcilerFacts {
  import opened Tables
  import opened Chain
  import opened Indexer
  import opened IndexerFacts
  import opened Reconciler

  /** What the worker's row writes have in common. */
  predicate Harmless(data: Data) {
    && PassportRef !in data && EntityRef !in data && OwnershipRef !in data && TransferCount !in data
    && OwnerWallet !in data
    && (Status in data ==> data[Status] != St(LoanPending))
    && (OnChainId in data ==> Status in data && data[OnChainId].Num?)
  }

  lemma RowDataHarmless(dir: Directory, a: Action, events: EventMap)
    ensures RowData(dir, a, events).Some? ==> Harmless(RowData(dir, a, events).value)
  {
    hide Harmless, VehicleData, ChallanData, PolicyData, PucData, LoanData, TransferData;
    match TableOf(a)
    case Passports => VehicleDataHarmless(dir, a, events);
    case Transfers => TransferDataHarmless(a, events);
    case TradeCerts => assert Harmless(map[IsActive := Flag(false)]) by { RevocationHarmless(); }
    case Challans => ChallanDataHarmless(a, events);
    case Policies => PolicyDataHarmless(a, events);
    case Pucs => PucDataHarmless(a, events);
    case Loans => LoanDataHarmless(dir, a, events);
    case Ownerships =>
  }

  lemma RevocationHarmless()
    ensures Harmless(map[IsActive := Flag(false)])
  {
  }

  lemma VehicleDataHarmless(dir: Directory, a: Action, events: EventMap)
    ensures VehicleData(dir, a, events).Some? ==> Harmless(VehicleData(dir, a, events).value)
  {
  }

  lemma TransferDataHarmless(a: Action, events: EventMap)
    ensures TransferData(a, events).Some? ==> Harmless(TransferData(a, events).value)
  {
  }

  lemma ChallanDataHarmless(a: Action, events: EventMap)
    ensures ChallanData(a, events).Some? ==> Harmless(ChallanData(a, events).value)
  {
  }

  lemma PolicyDataHarmless(a: Action, events: EventMap)
    ensures PolicyData(a, events).Some? ==> Harmless(PolicyData(a, events).value)
  {
  }

  lemma PucDataHarmless(a: Action, events: EventMap)
    ensures PucData(a, events).Some? ==> Harmless(PucData(a, events).value)
  {
  }

  lemma LoanDataHarmless(dir: Directory, a: Action, events: EventMap)
    ensures LoanData(dir, a, events).Some? ==> Harmless(LoanData(dir, a, events).value)
  {
    assert Harmless(CLEARED);
  }

  lemma TryUpdateSound(db: Db, id: RowId, data: Data)
    requires Sound(db) && Harmless(data)
    ensures TryUpdate(db, id, data).Some? ==> Sound(TryUpdate(db, id, data).value)
  {
    if TryUpdate(db, id, data).Some? {
      if OnChainId in data {
        var table, x := db.rows[id].table, data[OnChainId].n;
        assert forall j :: HasChainId(db, table, x, j) && j != id ==> Taken(db, table, Num(x), id);
      }
      PerformSound(db, WriteRow(id, data));
    }
  }

  /** Writes that keep ids and references keep the database sound. */
  lemma UpdateSound(db: Db, id: RowId, data: Data)
    requires Sound(db) && id in db.rows && PassportRef !in data && EntityRef !in data && OnChainId !in data
    requires Status in data ==> data[Status] != St(LoanPending)
    ensures Sound(Update(db, id, data))
  {
    PerformSound(db, WriteRow(id, data));
  }

  lemma DeactivateSound(db: Db, passport: RowId)
    requires Sound(db)
    ensures Sound(Deactivate(db, passport))
  {
    var d := Deactivate(db, passport);
    forall table, x, i, j | HasChainId(d, table, x, i) && HasChainId(d, table, x, j) ensures i == j {
      assert HasChainId(db, table, x, i) && HasChainId(db, table, x, j);
    }
    forall h | h in d.txs ensures TargetOk(d, d.txs[h]) {
      assert TargetOk(db, db.txs[h]);
    }
  }

  lemma PassOnSound(db: Db, dir: Directory, transfer: RowId, newOwner: string)
    requires Sound(db) && transfer in db.rows
    ensures PassOn(db, dir, transfer, newOwner).Some? ==> Sound(PassOn(db, dir, transfer, newOwner).value)
  {
    hide Sound;
    var ref := At(db.rows[transfer], OwnershipRef);
    if PassOn(db, dir, transfer, newOwner).Some? {
      UpdateSound(db, ref.n, PassedOn(dir, newOwner, At(db.rows[ref.n], TransferCount).n));
    }
  }

  lemma BusinessSound(db: Db, dir: Directory, a: Action, target: RowId, events: EventMap)
    requires Sound(db)
    ensures Business(db, dir, a, target, events).Some? ==> Sound(Business(db, dir, a, target, events).value)
  {
    hide RowData, Sound, Deactivate, PassOn, TryUpdate, Completes;
    RowDataHarmless(dir, a, events);
    PerformSound(db, RemoveRows({target}));
    if RowData(dir, a, events).Some? {
      var d := TryUpdate(db, target, RowData(dir, a, events).value);
      TryUpdateSound(db, target, RowData(dir, a, events).value);
      if d.Some? && target in d.value.rows {
        if Completes(a, events).Some? { PassOnSound(d.value, dir, target, Completes(a, events).value); }
        DeactivateSound(d.value, target);
      }
    }
  }

  // ── What services write ──

  lemma InsertedSound(db: Db, table: Table, data: Data)
    requires Sound(db) && OnChainId !in data
    ensures Sound(Insert(db, table, data))
  {
    var d := Insert(db, table, data);
    assert At(d.rows[db.next], OnChainId) == Null;
    forall t, x, i, j | HasChainId(d, t, x, i) && HasChainId(d, t, x, j) ensures i == j {
      assert HasChainId(db, t, x, i) && HasChainId(db, t, x, j);
    }
    forall h | h in d.txs ensures TargetOk(d, d.txs[h]) {
      assert TargetOk(db, db.txs[h]);
    }
  }

  lemma TrackedSound(db: Db, h: Hash, tx: Tx)
    requires Sound(db) && TargetOk(db, tx)
    ensures Sound(db.(txs := db.txs[h := tx]))
  {
    var d := db.(txs := db.txs[h := tx]);
    forall t, x, i, j | HasChainId(d, t, x, i) && HasChainId(d, t, x, j) ensures i == j {
      assert HasChainId(db, t, x, i) && HasChainId(db, t, x, j);
    }
    forall k | k in d.txs ensures TargetOk(d, d.txs[k]) {
      if k != h { assert TargetOk(db, db.txs[k]); }
    }
  }

  lemma MarkSound(db: Db, h: Hash, tx: Tx)
    requires Sound(db) && h in db.txs && tx.action == db.txs[h].action && tx.target == db.txs[h].target
    ensures Sound(db.(txs := db.txs[h := tx]))
  {
    var d := db.(txs := db.txs[h := tx]);
    forall table, x, i, j | HasChainId(d, table, x, i) && HasChainId(d, table, x, j) ensures i == j {
      assert HasChainId(db, table, x, i) && HasChainId(db, table, x, j);
    }
    forall k | k in d.txs ensures TargetOk(d, d.txs[k]) {
      assert TargetOk(db, db.txs[if k == h then h else k]);
    }
  }

  lemma RollForwardSound(db: Db, dir: Directory, h: Hash, tx: Tx, block: nat, events: EventMap)
    requires Sound(db)
    ensures RollForward(db, dir, h, tx, block, events).Some? ==> Sound(RollForward(db, dir, h, tx, block, events).value)
  {
    hide Sound, Business;
    if h in db.txs {
      MarkSound(db, h, db.txs[h].(sync := Mined, block := Some(block)));
      if tx.target.Some? {
        BusinessSound(db.(txs := db.txs[h := db.txs[h].(sync := Mined, block := Some(block))]), dir, tx.action,
                      tx.target.value, events);
      }
    }
  }

  lemma RestoreHarmless(a: Action)
    ensures UndoOf(a).Restore? ==> var data := UndoOf(a).data;
              PassportRef !in data && EntityRef !in data && OnChainId !in data
                  && (Status in data ==> data[Status] != St(LoanPending))
  {
  }

  lemma CompensateSound(db: Db, a: Action, target: Option<RowId>)
    requires Sound(db)
    ensures Sound(Compensate(db, a, target))
  {
    hide Sound, Write;
    if target.Some? && target.value in db.rows {
      RestoreHarmless(a);
      match UndoOf(a)
      case Nothing =>
      case Delete => PerformSound(db, RemoveRows({target.value}));
      case Restore(data) => UpdateSound(db, target.value, data);
      case CountDown =>
        var count := At(db.rows[target.value], ClaimCount);
        if count.Num? { UpdateSound(db, target.value, map[ClaimCount := Num(count.n - 1)]); }
    }
  }
}

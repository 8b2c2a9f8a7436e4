/** Every event handler keeps the database sound, and only ever moves it forward. */
module IndexerFacts {
  import opened Tables
  import opened Chain
  import opened Indexer

  ghost predicate Legal(db: Db, e: Effect) {
    match e
    case WriteRow(id, data) =>
      && id in db.rows
      && PassportRef !in data && EntityRef !in data && (Status in data ==> data[Status] != St(LoanPending))
      && (OnChainId in data ==> Status in data && data[OnChainId].Num?
                                && forall j :: HasChainId(db, db.rows[id].table, data[OnChainId].n, j) ==> j == id)
    case CreateRow(table, data) =>
      (Status in data ==> data[Status] != St(LoanPending)) && OnChainId in data && data[OnChainId].Num?
          && forall j :: !HasChainId(db, table, data[OnChainId].n, j)
    case _ => true
  }

  lemma FindUnique(db: Db, table: Table, x: int, id: RowId)
    requires UniqueIds(db) && HasChainId(db, table, x, id)
    ensures Find(db, table, x) == Some(id)
  {
  }

  /** The query itself. */
  method FindUniqueRow(db: Db, table: Table, x: int) returns (r: Option<RowId>)
    requires UniqueIds(db)
    ensures r == Find(db, table, x)
  {
    var ids := db.rows.Keys;
    while ids != {}
      invariant ids <= db.rows.Keys
      invariant forall id :: HasChainId(db, table, x, id) ==> id in ids
      decreases ids
    {
      var id :| id in ids;
      if db.rows[id].table == table && At(db.rows[id], OnChainId) == Num(x) {
        assert HasChainId(db, table, x, id);
        return Some(id);
      }
      ids := ids - {id};
    }
    return None;
  }

  /** Only the row a service created can be linked, and it has the table of the event's row. */
  lemma LinkedTable(db: Db, log: Log)
    requires Sound(db) && KindOf(log.event).Make? && Linked(TxOf(db, log.hash), log.event).Some?
    ensures var id := Linked(TxOf(db, log.hash), log.event).value;
            id in db.rows && db.rows[id].table == KindOf(log.event).table
  {
    assert TargetOk(db, db.txs[log.hash]);
  }

  /** What the data of every write of the indexer has in common. */
  predicate Tame(data: Data, x: nat) {
    && PassportRef !in data && EntityRef !in data
    && (Status in data ==> data[Status] != St(LoanPending))
    && (OnChainId in data ==> data[OnChainId] == Num(x) && Status in data)
  }

  lemma MakeData(db: Db, dir: Directory, tx: Option<Tx>, ev: Event)
    requires KindOf(ev).Make?
    ensures Tame(UpsertData(dir, ev), KindOf(ev).x)
    ensures Tame(PromoteData(db, dir, ev), KindOf(ev).x)
  {
    match ev
    case VehicleReg(_, _, _, _) =>
    case XferInit(_, _, _, _) =>
    case ChallanIssued(_, _, _, _) =>
    case PolicyIssued(_, _, _) =>
    case PucIssued(_, _, _) =>
    case LoanReg(_, _, _, _, _) =>
  }

  lemma CreateOnlyData(db: Db, dir: Directory, tx: Option<Tx>, ev: Event)
    requires KindOf(ev).Make?
    ensures Status !in CreateOnly(db, dir, tx, ev)
    ensures OnChainId in CreateOnly(db, dir, tx, ev) ==> CreateOnly(db, dir, tx, ev)[OnChainId] == Num(KindOf(ev).x)
    ensures OnChainId in CreateOnly(db, dir, tx, ev) || OnChainId in UpsertData(dir, ev)
  {
    match ev
    case VehicleReg(_, _, _, _) =>
    case XferInit(_, _, _, _) =>
    case ChallanIssued(_, _, _, _) =>
    case PolicyIssued(_, _, _) =>
    case PucIssued(_, _, _) =>
    case LoanReg(_, _, _, _, _) =>
  }

  /** The upsert's `create` numbers the row and agrees with its `update`. */
  lemma CreateCovers(db: Db, dir: Directory, tx: Option<Tx>, ev: Event)
    requires KindOf(ev).Make?
    ensures var made := CreateData(db, dir, tx, ev);
            && OnChainId in made && made[OnChainId] == Num(KindOf(ev).x)
            && (Status in made ==> made[Status] != St(LoanPending))
            && (forall c :: c in UpsertData(dir, ev) ==> c in made && made[c] == UpsertData(dir, ev)[c])
  {
    CreateOnlyData(db, dir, tx, ev);
    MakeData(db, dir, tx, ev);
  }

  lemma AmendTame(dir: Directory, tx: Option<Tx>, ev: Event)
    requires KindOf(ev).Amend?
    ensures OnChainId !in AmendData(dir, tx, ev) && Tame(AmendData(dir, tx, ev), 0)
  {
  }

  lemma EffectLegal(db: Db, dir: Directory, log: Log)
    requires Sound(db)
    ensures Legal(db, EffectOf(db, dir, log))
  {
    var tx := TxOf(db, log.hash);
    match KindOf(log.event) {
      case Make(table, x) =>
        MakeData(db, dir, tx, log.event);
        CreateCovers(db, dir, tx, log.event);
        if Linked(tx, log.event).Some? { LinkedTable(db, log); }
      case Amend(table, x) => AmendTame(dir, tx, log.event);
      case _ =>
    }
  }

  lemma PerformSound(db: Db, e: Effect)
    requires Sound(db) && Legal(db, e)
    ensures Sound(Perform(db, e))
  {
    var d := Perform(db, e);
    forall h | h in d.txs ensures TargetOk(d, d.txs[h]) {
      assert TargetOk(db, db.txs[h]);
    }
    forall table, x, i, j | HasChainId(d, table, x, i) && HasChainId(d, table, x, j) ensures i == j {
      if i != j {
        if e.WriteRow? && OnChainId in e.data {
          if i == e.id { assert HasChainId(db, table, x, j); }
          else if j == e.id { assert HasChainId(db, table, x, i); }
          else { assert HasChainId(db, table, x, i) && HasChainId(db, table, x, j); }
        } else if e.CreateRow? {
          if i == db.next { assert HasChainId(db, table, x, j); }
          else if j == db.next { assert HasChainId(db, table, x, i); }
          else { assert HasChainId(db, table, x, i) && HasChainId(db, table, x, j); }
        } else {
          assert HasChainId(db, table, x, i) && HasChainId(db, table, x, j);
        }
      }
    }
  }

  lemma FinalizeSound(db: Db, h: Hash, block: nat, action: Action)
    requires Sound(db)
    ensures Sound(Finalize(db, h, block, action))
  {
    var d := Finalize(db, h, block, action);
    assert d.rows == db.rows;
    forall table, x, i, j | HasChainId(d, table, x, i) && HasChainId(d, table, x, j) ensures i == j {
      assert HasChainId(db, table, x, i) && HasChainId(db, table, x, j);
    }
    forall k | k in d.txs ensures TargetOk(d, d.txs[k]) {
      if k in db.txs { assert TargetOk(db, db.txs[k]); }
    }
  }

  lemma HandleSound(db: Db, dir: Directory, log: Log)
    requires Sound(db)
    ensures Sound(Handle(db, dir, log))
  {
    var e := EffectOf(db, dir, log);
    EffectLegal(db, dir, log);
    PerformSound(db, e);
    var d := Perform(db, e);
    PerformSound(d, SecondEffect(db, log));
    var final := FinalAction(TxOf(db, log.hash), log.event);
    if final.Some? { FinalizeSound(Perform(d, SecondEffect(db, log)), log.hash, log.block, final.value); }
  }

  lemma {:induction false} RunSound(db: Db, dir: Directory, logs: seq<Log>)
    requires Sound(db)
    ensures Sound(Run(db, dir, logs))
  {
    if logs != [] {
      RunSound(db, dir, logs[..|logs| - 1]);
      HandleSound(Run(db, dir, logs[..|logs| - 1]), dir, logs[|logs| - 1]);
    }
  }

  // ── Moving forward ──

  /** What a handler reads of a tracking row. */
  datatype Info = Info(link: Option<(Action, RowId)>, entity: Option<nat>, member: Option<nat>)

  function InfoOf(db: Db, h: Hash): Info {
    if h in db.txs then
      var tx := db.txs[h];
      Info(if tx.target.Some? then Some((tx.action, tx.target.value)) else None, tx.entity, tx.member)
    else Info(None, None, None)
  }

  /** The linked row is still without an on-chain id, or already has the one the event reports; no other row has it. */
  ghost predicate PromotionOk(db: Db, log: Log) {
    KindOf(log.event).Make? && Linked(TxOf(db, log.hash), log.event).Some? ==>
      var id := Linked(TxOf(db, log.hash), log.event).value;
      && (id in db.rows ==> At(db.rows[id], OnChainId) in {Null, Num(KindOf(log.event).x)})
      && Find(db, KindOf(log.event).table, KindOf(log.event).x) in {None, Some(id)}
  }

  ghost predicate Later(d: Db, d': Db, contract: Contract) {
    && d.next <= d'.next
    && (forall id :: id in d'.rows && id < d.next ==> id in d.rows)
    && (forall id :: id in d.rows && id in d'.rows ==> Kept(d.rows[id], d'.rows[id], contract))
    && (forall id :: id in d.rows && (At(d.rows[id], OnChainId) != Null || contract != LoanContract) ==> id in d'.rows)
    && (forall id :: id in d'.rows && At(d'.rows[id], Status) == St(LoanPending) ==>
        id in d.rows && At(d.rows[id], Status) == St(LoanPending))
    && (forall h :: InfoOf(d', h) == InfoOf(d, h) || Forgotten(d, d', h))
  }

  ghost predicate Kept(r: Row, r': Row, contract: Contract) {
    && r'.table == r.table
    && (At(r, OnChainId) != Null ==> At(r', OnChainId) == At(r, OnChainId))
    && At(r', PassportRef) == At(r, PassportRef) && At(r', EntityRef) == At(r, EntityRef)
    && (r.table == Ownerships && contract != OwnershipToken ==> r' == r)
  }

  /** The tracking row went with the loan it pointed at. */
  ghost predicate Forgotten(d: Db, d': Db, h: Hash) {
    && h in d.txs && d.txs[h].target.Some? && d.txs[h].target.value in d.rows && d.txs[h].target.value !in d'.rows
    && InfoOf(d', h) == Info(None, None, None)
  }

  lemma LaterTransitive(a: Db, b: Db, c: Db, contract: Contract)
    requires Sound(a) && Later(a, b, contract) && Later(b, c, contract)
    ensures Later(a, c, contract)
  {
    forall h ensures InfoOf(c, h) == InfoOf(a, h) || Forgotten(a, c, h) {
      assert InfoOf(b, h) == InfoOf(a, h) || Forgotten(a, b, h);
      assert InfoOf(c, h) == InfoOf(b, h) || Forgotten(b, c, h);
      if h in a.txs { assert TargetOk(a, a.txs[h]); }
    }
    forall id | id in a.rows && id in c.rows ensures Kept(a.rows[id], c.rows[id], contract) {
      assert id < a.next;
      assert Kept(a.rows[id], b.rows[id], contract) && Kept(b.rows[id], c.rows[id], contract);
    }
    forall id | id in a.rows && (At(a.rows[id], OnChainId) != Null || contract != LoanContract) ensures id in c.rows {
      assert Kept(a.rows[id], b.rows[id], contract);
    }
  }

  /** An effect that can only move the database forward. */
  ghost predicate Forward(db: Db, e: Effect, contract: Contract) {
    && Legal(db, e)
    && match e
       case WriteRow(id, data) =>
         && (OnChainId in data ==> At(db.rows[id], OnChainId) in {Null, data[OnChainId]})
         && (db.rows[id].table == Ownerships ==> contract == OwnershipToken)
       case RemoveRows(ids) =>
         contract == LoanContract && forall id :: id in ids ==>
             id in db.rows && At(db.rows[id], Status) == St(LoanPending)
       case _ => true
  }

  lemma WriteLater(db: Db, id: RowId, data: Data, contract: Contract)
    requires Sound(db) && Forward(db, WriteRow(id, data), contract)
    ensures Later(db, Update(db, id, data), contract)
  {
    var d := Update(db, id, data);
    forall h ensures InfoOf(d, h) == InfoOf(db, h) {
    }
  }

  lemma InsertLater(db: Db, table: Table, data: Data, contract: Contract)
    requires Sound(db) && Forward(db, CreateRow(table, data), contract)
    ensures Later(db, Insert(db, table, data), contract)
  {
    var d := Insert(db, table, data);
    forall h ensures InfoOf(d, h) == InfoOf(db, h) {
    }
  }

  lemma RemoveLater(db: Db, ids: set<RowId>)
    requires Sound(db) && Forward(db, RemoveRows(ids), LoanContract)
    ensures Later(db, DeleteAll(db, ids), LoanContract)
  {
    var d := DeleteAll(db, ids);
    forall h ensures InfoOf(d, h) == InfoOf(db, h) || Forgotten(db, d, h) {
    }
    forall id | id in db.rows && At(db.rows[id], OnChainId) != Null ensures id in d.rows {
      assert PendingUnnumbered(db.rows[id]);
    }
  }

  lemma FinalizeLater(db: Db, h: Hash, block: nat, action: Action, contract: Contract)
    ensures Later(db, Finalize(db, h, block, action), contract)
  {
    var d := Finalize(db, h, block, action);
    forall k ensures InfoOf(d, k) == InfoOf(db, k) {
    }
  }

  lemma PerformLater(db: Db, e: Effect, contract: Contract)
    requires Sound(db) && Forward(db, e, contract)
    ensures Later(db, Perform(db, e), contract)
  {
    match e
    case WriteRow(id, data) => WriteLater(db, id, data, contract);
    case CreateRow(table, data) => InsertLater(db, table, data, contract);
    case RemoveRows(ids) => RemoveLater(db, ids);
    case _ =>
  }

  lemma EffectForward(db: Db, dir: Directory, log: Log)
    requires Sound(db) && PromotionOk(db, log)
    ensures Forward(db, EffectOf(db, dir, log), ContractOf(log.event))
  {
    hide AmendData, CreateData, Sound, Parents, Linked;
    var tx := TxOf(db, log.hash);
    EffectLegal(db, dir, log);
    match KindOf(log.event) {
      case Make(table, x) =>
        MakeData(db, dir, tx, log.event);
        if Linked(tx, log.event).Some? { LinkedTable(db, log); }
      case Amend(table, x) => AmendTame(dir, tx, log.event);
      case _ =>
    }
  }

  lemma HandleLater(db: Db, dir: Directory, log: Log)
    requires Sound(db) && PromotionOk(db, log)
    ensures Later(db, Handle(db, dir, log), ContractOf(log.event))
  {
    var contract := ContractOf(log.event);
    var e, e2 := EffectOf(db, dir, log), SecondEffect(db, log);
    EffectForward(db, dir, log);
    PerformLater(db, e, contract);
    PerformSound(db, e);
    var d := Perform(db, e);
    PerformLater(d, e2, contract);
    PerformSound(d, e2);
    var d2 := Perform(d, e2);
    LaterTransitive(db, d, d2, contract);
    var final := FinalAction(TxOf(db, log.hash), log.event);
    if final.Some? && !e.Rejected? {
      FinalizeLater(d2, log.hash, log.block, final.value, contract);
      LaterTransitive(db, d2, Handle(db, dir, log), contract);
    }
  }

  // ── Who numbers rows ──

  /** The on-chain id of a row after a handler with effect `e` has run on `db`. */
  ghost predicate Numbered(db: Db, e: Effect, id: RowId, r: Row) {
    if e.WriteRow? && id == e.id && OnChainId in e.data then
      id in db.rows && r.table == db.rows[id].table && At(r, OnChainId) == e.data[OnChainId]
    else if e.CreateRow? && id == db.next then
      r.table == e.table && OnChainId in e.data && At(r, OnChainId) == e.data[OnChainId]
    else
      id in db.rows && r.table == db.rows[id].table && At(r, OnChainId) == At(db.rows[id], OnChainId)
  }

  lemma PerformNumbers(db: Db, e: Effect, id: RowId)
    requires Legal(db, e) && id in Perform(db, e).rows
    ensures Numbered(db, e, id, Perform(db, e).rows[id])
  {
  }

  lemma HandleNumbers(db: Db, dir: Directory, log: Log, id: RowId, d: Db)
    requires Sound(db) && d == Handle(db, dir, log) && id in d.rows
    ensures Numbered(db, EffectOf(db, dir, log), id, d.rows[id])
  {
    var e, e2 := EffectOf(db, dir, log), SecondEffect(db, log);
    EffectLegal(db, dir, log);
    if e.Rejected? {
      PerformNumbers(db, e, id);
    } else {
      var d1 := Perform(db, e);
      assert d.rows == Perform(d1, e2).rows;
      PerformNumbers(d1, e2, id);
      PerformNumbers(db, e, id);
    }
  }

  /** Only creating events number rows, with their own id; a row without a number must be the linked one. */
  lemma EffectNumbers(db: Db, dir: Directory, log: Log)
    requires Sound(db)
    ensures var e := EffectOf(db, dir, log);
            (e.WriteRow? && OnChainId in e.data) || e.CreateRow? ==>
              && KindOf(log.event).Make?
              && OnChainId in e.data && e.data[OnChainId] == Num(KindOf(log.event).x)
              && (e.CreateRow? ==> e.table == KindOf(log.event).table)
              && (e.WriteRow? ==>
                    && e.id in db.rows && db.rows[e.id].table == KindOf(log.event).table
                    && (At(db.rows[e.id], OnChainId) == Null ==> Linked(TxOf(db, log.hash), log.event) == Some(e.id)))
  {
    var tx := TxOf(db, log.hash);
    match KindOf(log.event) {
      case Make(table, x) =>
        MakeData(db, dir, tx, log.event);
        CreateCovers(db, dir, tx, log.event);
        if Linked(tx, log.event).Some? { LinkedTable(db, log); }
      case Amend(table, x) => AmendTame(dir, tx, log.event);
      case _ =>
    }
  }
}

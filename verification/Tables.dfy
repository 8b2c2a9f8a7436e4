/** The database rows shared by the services, the indexer and the reconciliation worker.

    A row is a finite map from columns to values, and the `data` object of a Prisma write is a map as well:
    writing it overrides exactly the columns it names. A null column is absent from the row, so two rows with the
    same column values are equal. Wall-clock values are abstracted to `Date`.
  */
module Tables {

  datatype Option<+T> = None | Some(value: T)

  type RowId = nat
  type Hash = nat

  datatype Table = Passports | Ownerships | Transfers | TradeCerts | Challans | Policies | Pucs | Loans

  datatype Status =
    | VehicleNotReg | VehicleActive | VehicleScrapped
    | TransferPending | TransferBuyerAccepted | TransferRtoApproved | TransferCancelled
    | ChallanPending | ChallanPaid | ChallanCancelled
    | PolicyActive | PolicyExpired | PolicyCancelled
    | PucValid | PucExpired | PucRevoked
    | LoanPending | LoanActive | LoanCleared

  datatype Val = Null | Num(n: int) | Flag(on: bool) | Text(s: string) | Date | St(status: Status)

  /** `OnChainId` is the unique nullable column that mirrors the contract's counter: dvpId, ownTid, reqId, challanId,
      polId, certId or loanId, depending on the table. The foreign keys are `PassportRef` and `OwnershipRef`. */
  datatype Col =
    | OnChainId | Status | PassportRef | OwnershipRef | OwnTid | EntityRef | Amount | IssuedAt
    | PaidAt | CancelledAt | CancelledBy | IsAdminCancel | PaymentRef | CreatedBy
    | ClaimCount | ExpiryDate | IssueDate | Passed
    | OwnerWallet | OwnerUser | TransferCount | IsActive | RegisteredBy
    | SellerWallet | SellerUser | BuyerWallet | BuyerUser | BuyerOk | RtoOk | CompletedDate | RtoApprover
    | BorrowerWallet | BorrowerUser | ClearedAt | NocIssued | NocDate | NocRecipientWallet | NocRecipientUser
    | DealerWallet | DealerUser | ScrapEntity | ScrapDate

  type Data = map<Col, Val>
  type Cols = m: map<Col, Val> | forall c <- m :: m[c] != Null

  datatype Row = Row(table: Table, cols: Cols)

  /** The value of a column; an absent column is null. */
  function At(row: Row, c: Col): Val {
    if c in row.cols then row.cols[c] else Null
  }

  /** `!x` of an on-chain id: missing, or 0, which no counter gives. */
  predicate Falsy(v: Val) {
    v == Null || v == Num(0)
  }

  /** Prisma `update({ data })` on one row. */
  function Write(row: Row, data: Data): (r: Row)
    ensures r.table == row.table
    ensures forall c :: At(r, c) == if c in data then data[c] else At(row, c)
  {
    Row(row.table,
        map c | c in row.cols.Keys + data.Keys && (if c in data then data[c] else row.cols[c]) != Null
          :: if c in data then data[c] else row.cols[c])
  }

  /** Prisma `create({ data })`. */
  function NewRow(table: Table, data: Data): (r: Row)
    ensures r.table == table
    ensures forall c :: At(r, c) == if c in data then data[c] else Null
  {
    Write(Row(table, map[]), data)
  }

  /** Rows are determined by their table and their column values. */
  lemma RowsEqual(r1: Row, r2: Row)
    requires r1.table == r2.table
    requires forall c :: At(r1, c) == At(r2, c)
    ensures r1 == r2
  {
    forall c ensures c in r1.cols <==> c in r2.cols {
      assert At(r1, c) == At(r2, c);
    }
    forall c | c in r1.cols ensures r1.cols[c] == r2.cols[c] {
      assert At(r1, c) == At(r2, c);
    }
    assert r1.cols == r2.cols;
  }

  // ── Tracking rows (BlockchainTransaction) ──

  datatype Sync = Pending | Mined | Failed

  datatype Action =
    | VehicleMint | VehicleScrap | VehicleAssignDealer | VehicleRegisterRto
    | TransferInit | TransferApproveBuyer | TransferApproveRto | TransferCancel
    | TradeCertRevoke
    | ChallanIssue | ChallanPay | ChallanCancel
    | InsuranceIssue | InsuranceClaim | InsuranceExpire
    | PucIssue | PucExpire
    | LoanReg | LoanClear | LoanCancelPending | LoanRefinance

  /** `target` is the foreign key to the business row the transaction acts on; its table follows from the action. */
  datatype Tx = Tx(action: Action, sync: Sync, block: Option<nat>, target: Option<RowId>, entity: Option<nat>,
                   member: Option<nat>)

  function TableOf(a: Action): Table {
    match a
    case VehicleMint | VehicleScrap | VehicleAssignDealer | VehicleRegisterRto => Passports
    case TransferInit | TransferApproveBuyer | TransferApproveRto | TransferCancel => Transfers
    case TradeCertRevoke => TradeCerts
    case ChallanIssue | ChallanPay | ChallanCancel => Challans
    case InsuranceIssue | InsuranceClaim | InsuranceExpire => Policies
    case PucIssue | PucExpire => Pucs
    case LoanReg | LoanClear | LoanCancelPending | LoanRefinance => Loans
  }

  // ── The database ──

  /** `next` is the next unused row id; ids are never reused, even after a delete. */
  datatype Db = Db(rows: map<RowId, Row>, txs: map<Hash, Tx>, next: RowId)

  function Update(db: Db, id: RowId, data: Data): Db
    requires id in db.rows
  {
    db.(rows := db.rows[id := Write(db.rows[id], data)])
  }

  function Insert(db: Db, table: Table, data: Data): Db {
    db.(rows := db.rows[db.next := NewRow(table, data)], next := db.next + 1)
  }

  /** Deleting rows also deletes the tracking rows that point at them (`onDelete: Cascade`). */
  function DeleteAll(db: Db, ids: set<RowId>): Db {
    db.(rows := db.rows - ids,
        txs := map h | h in db.txs && !(db.txs[h].target.Some? && db.txs[h].target.value in ids) :: db.txs[h])
  }

  // ── What a write changes, column by column ──

  /** The rows of `d` are those of `db`, but in the given rows the given columns have the given values. */
  ghost predicate RowsSet(db: Db, d: Db, changes: map<RowId, Data>) {
    && d.next == db.next && d.rows.Keys == db.rows.Keys && changes.Keys <= db.rows.Keys
    && (forall id :: id in changes ==> RowChanged(db.rows[id], d.rows[id], changes[id]))
    && (forall id :: id in db.rows && id !in changes ==> d.rows[id] == db.rows[id])
  }

  ghost predicate RowChanged(row: Row, row': Row, vals: Data) {
    row'.table == row.table && forall c :: At(row', c) == if c in vals then vals[c] else At(row, c)
  }

  /** One row, which a query may not have found: then no row changes. */
  ghost predicate FoundSet(db: Db, d: Db, found: Option<RowId>, vals: Data) {
    if found.Some? then RowsSet(db, d, map[found.value := vals]) else SameRows(db, d)
  }

  predicate SameRows(db: Db, d: Db) {
    d.rows == db.rows && d.next == db.next
  }

  /** `d` has one more row, with the given columns and no other. */
  ghost predicate RowAdded(db: Db, d: Db, table: Table, vals: Data) {
    && d.next == db.next + 1 && d.rows.Keys == db.rows.Keys + {db.next}
    && RowChanged(Row(table, map[]), d.rows[db.next], vals)
    && (forall other :: other in db.rows && other != db.next ==> d.rows[other] == db.rows[other])
  }

  /** An upsert: the known row has the columns of the update, or there is a new row with those of the create. */
  ghost predicate Upserted(db: Db, d: Db, known: Option<RowId>, update: Data, table: Table, create: Data) {
    if known.Some? then RowsSet(db, d, map[known.value := update]) else RowAdded(db, d, table, create)
  }

  /** The transaction is recorded, and no other tracking row changes. */
  predicate TxRecorded(db: Db, d: Db, h: Hash, tx: Tx) {
    h in d.txs && d.txs[h] == tx && d.txs.Keys == db.txs.Keys + {h}
        && forall k :: k in db.txs && k != h ==> d.txs[k] == db.txs[k]
  }

  /** The tracking row is MINED in the block: the known one, with what it says otherwise, or a new unlinked one. */
  predicate TxMined(db: Db, d: Db, h: Hash, block: nat, action: Action) {
    TxRecorded(db, d, h, if h in db.txs then db.txs[h].(sync := Mined, block := Some(block))
                         else Tx(action, Mined, Some(block), None, None, None))
  }

  lemma Unchanged(db: Db)
    ensures SameRows(db, db)
  {
  }

  lemma UpdateSets(db: Db, id: RowId, data: Data)
    requires id in db.rows
    ensures RowsSet(db, Update(db, id, data), map[id := data]) && Update(db, id, data).txs == db.txs
  {
  }

  /** Other columns stay, in every row. */
  lemma ColumnStays(db: Db, d: Db, id: RowId, vals: Data, other: RowId, c: Col)
    requires RowsSet(db, d, map[id := vals]) && c !in vals && other in db.rows
    ensures other in d.rows && d.rows[other].table == db.rows[other].table
            && At(d.rows[other], c) == At(db.rows[other], c)
  {
    if other == id { assert RowChanged(db.rows[id], d.rows[id], vals); }
  }

  /** A row write and then the tracking row. */
  lemma SetAndMined(db: Db, d: Db, d': Db, found: Option<RowId>, vals: Data, h: Hash, block: nat, action: Action)
    requires FoundSet(db, d, found, vals) && d.txs == db.txs && SameRows(d, d') && TxMined(d, d', h, block, action)
    ensures FoundSet(db, d', found, vals) && TxMined(db, d', h, block, action)
  {
  }

  lemma AddedAndMined(db: Db, d: Db, d': Db, table: Table, vals: Data, h: Hash, block: nat, action: Action)
    requires RowAdded(db, d, table, vals) && d.txs == db.txs && SameRows(d, d') && TxMined(d, d', h, block, action)
    ensures RowAdded(db, d', table, vals) && TxMined(db, d', h, block, action)
  {
  }

  lemma UpsertAndMined(db: Db, d: Db, d': Db, known: Option<RowId>, update: Data, table: Table, create: Data,
                       h: Hash, block: nat, action: Action)
    requires Upserted(db, d, known, update, table, create) && d.txs == db.txs && SameRows(d, d')
             && TxMined(d, d', h, block, action)
    ensures Upserted(db, d', known, update, table, create) && TxMined(db, d', h, block, action)
  {
  }

  lemma MinedAfter(db: Db, d: Db, d': Db, h: Hash, block: nat, action: Action)
    requires d.txs == db.txs && TxMined(d, d', h, block, action)
    ensures TxMined(db, d', h, block, action)
  {
  }

  /** What holds of rows holds when only tracking rows change. */
  lemma SetThenSame(db: Db, d: Db, d': Db, changes: map<RowId, Data>)
    requires RowsSet(db, d, changes) && SameRows(d, d')
    ensures RowsSet(db, d', changes)
  {
  }

  /** One row, twice. */
  lemma SetAgain(db: Db, mid: Db, d: Db, id: RowId, vals: Data, more: Data)
    requires RowsSet(db, mid, map[id := vals]) && RowsSet(mid, d, map[id := more])
    ensures RowsSet(db, d, map[id := vals + more])
  {
    hide RowChanged, At;
    var once, again, both := map[id := vals], map[id := more], map[id := vals + more];
    assert RowChanged(db.rows[id], mid.rows[id], once[id]) && RowChanged(mid.rows[id], d.rows[id], again[id]);
    ChangedAgain(db.rows[id], mid.rows[id], d.rows[id], vals, more);
    assert forall i :: i in both ==> RowChanged(db.rows[i], d.rows[i], both[i]);
  }

  lemma ChangedAgain(row: Row, mid: Row, row': Row, vals: Data, more: Data)
    requires RowChanged(row, mid, vals) && RowChanged(mid, row', more)
    ensures RowChanged(row, row', vals + more)
  {
  }

  /** The columns say what the rows are. */
  lemma SetsAgree(db: Db, d: Db, d': Db, changes: map<RowId, Data>)
    requires RowsSet(db, d, changes) && RowsSet(db, d', changes)
    ensures SameRows(d, d')
  {
    forall id | id in db.rows ensures d'.rows[id] == d.rows[id] {
      if id in changes {
        assert RowChanged(db.rows[id], d.rows[id], changes[id]) && RowChanged(db.rows[id], d'.rows[id], changes[id]);
        RowsEqual(d.rows[id], d'.rows[id]);
      }
    }
  }

  /** Two rows, one after the other. */
  lemma SetTwo(db: Db, mid: Db, d: Db, i: RowId, vals: Data, j: RowId, more: Data)
    requires RowsSet(db, mid, map[i := vals]) && RowsSet(mid, d, map[j := more]) && i != j
    ensures RowsSet(db, d, map[i := vals, j := more])
  {
    var both := map[i := vals, j := more];
    forall id | id in both ensures RowChanged(db.rows[id], d.rows[id], both[id]) {
      assert RowChanged(db.rows[i], mid.rows[i], vals) && RowChanged(mid.rows[j], d.rows[j], more);
    }
  }

  lemma InsertAdds(db: Db, table: Table, data: Data)
    ensures RowAdded(db, Insert(db, table, data), table, data) && Insert(db, table, data).txs == db.txs
  {
  }

  ghost predicate HasChainId(db: Db, table: Table, x: int, id: RowId) {
    id in db.rows && db.rows[id].table == table && At(db.rows[id], OnChainId) == Num(x)
  }

  /** `findUnique` on the on-chain id column of a table. */
  ghost function Find(db: Db, table: Table, x: int): (r: Option<RowId>)
    ensures r.Some? ==> HasChainId(db, table, x, r.value)
    ensures r.None? ==> forall id :: !HasChainId(db, table, x, id)
  {
    if exists id :: HasChainId(db, table, x, id) then var id :| HasChainId(db, table, x, id); Some(id) else None
  }

  /** The unique constraint on on-chain ids, referential integrity of tracking rows, fresh row ids, and pending loans
      that the chain has not numbered yet. */
  ghost predicate Sound(db: Db) {
    && UniqueIds(db)
    && (forall h :: h in db.txs ==> TargetOk(db, db.txs[h]))
    && (forall id :: id in db.rows ==> id < db.next && PendingUnnumbered(db.rows[id]))
  }

  ghost predicate PendingUnnumbered(row: Row) {
    At(row, Status) == St(LoanPending) ==> At(row, OnChainId) == Null
  }

  ghost predicate UniqueIds(db: Db) {
    forall table, x, i, j :: HasChainId(db, table, x, i) && HasChainId(db, table, x, j) ==> i == j
  }

  ghost predicate TargetOk(db: Db, tx: Tx) {
    tx.target.Some? ==> tx.target.value in db.rows && db.rows[tx.target.value].table == TableOf(tx.action)
  }

  function OrNull(v: Option<nat>): Val {
    match v case None => Null case Some(n) => Num(n)
  }
}

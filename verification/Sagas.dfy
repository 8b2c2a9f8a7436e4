/** Reverted sagas leave no trace. Services, the indexer and the sweep interleave in any order; some submissions revert
    on chain and are compensated. The business tables end as in the run in which those submissions never happened. */
module Sagas {
  import opened Tables
  import opened Chain
  import opened Indexer
  import opened IndexerFacts
  import opened Lookalikes
  import opened Reconciler
  import opened ReconcilerFacts

  /** The actions whose service guards make compensation exact. */
  const COMPENSATED: set<Action> :=
    {VehicleMint, VehicleScrap, TradeCertRevoke, ChallanIssue, ChallanPay, ChallanCancel, InsuranceIssue,
     Action.PucIssue,
     Action.LoanReg, LoanClear, LoanCancelPending, LoanRefinance}

  function Creates(a: Action): bool {
    UndoOf(a).Delete?
  }

  // ── Guards ──

  /** What the service checks of the row before it submits a transaction on it. */
  predicate Guard(a: Action, row: Row) {
    row.table == TableOf(a) &&
    match a
    case VehicleScrap => At(row, Status) == St(VehicleActive)
    case VehicleAssignDealer => At(row, Status) == St(VehicleNotReg)
    case TransferApproveRto => At(row, Status) == St(TransferPending) && At(row, BuyerOk) == Flag(true)
    case TradeCertRevoke => At(row, IsActive) == Flag(true)
    case ChallanPay | ChallanCancel =>
      At(row, OnChainId) != Null && At(row, Status) != St(Status.ChallanPaid)
          && At(row, Status) != St(Status.ChallanCancelled) && !Falsy(At(row, OwnTid))
    case InsuranceClaim => At(row, Status) == St(PolicyActive) && !Falsy(At(row, OnChainId))
    case InsuranceExpire => At(row, Status) != St(Status.PolicyExpired) && !Falsy(At(row, OnChainId))
    case PucExpire => At(row, Status) != St(Status.PucExpired) && !Falsy(At(row, OnChainId))
    case LoanClear | LoanRefinance => At(row, Status) == St(LoanActive) && At(row, Col.NocIssued) != Flag(true)
    case LoanCancelPending => At(row, Status) == St(LoanPending) && At(row, Col.NocIssued) == Flag(false)
    case _ => false
  }

  /** What the guards rely on: an open challan carries no payment or cancellation date, a loan without NOC no
      clearance. */
  predicate RowOk(row: Row) {
    && (row.table == Challans ==>
          && At(row, Status) in {St(ChallanPending), St(Status.ChallanPaid), St(Status.ChallanCancelled)}
          && (At(row, Status) == St(ChallanPending) ==> At(row, PaidAt) == Null && At(row, CancelledAt) == Null))
    && (row.table == Loans ==>
          && At(row, Col.NocIssued) in {Flag(true), Flag(false)}
          && (At(row, Col.NocIssued) == Flag(false) ==>
                At(row, ClearedAt) == Null && At(row, NocDate) == Null && At(row, NocRecipientWallet) == Null
                    && At(row, NocRecipientUser) == Null))
  }

  /** Compensation leaves the row as it is. */
  predicate Exact(a: Action, row: Row) {
    match UndoOf(a)
    case Nothing => true
    case Delete => false
    case Restore(data) => forall c :: c in data ==> At(row, c) == data[c]
    case CountDown => !At(row, ClaimCount).Num?
  }

  lemma CompensationIsExact(db: Db, a: Action, id: RowId)
    requires id in db.rows && !Creates(a)
    ensures Exact(a, db.rows[id]) <==> Compensate(db, a, Some(id)) == db
  {
    match UndoOf(a) {
      case Restore(data) => RestoreIsExact(db, id, data);
      case CountDown => CountDownIsExact(db, id);
      case _ =>
    }
  }

  lemma RestoreIsExact(db: Db, id: RowId, data: Data)
    requires id in db.rows
    ensures (forall c :: c in data ==> At(db.rows[id], c) == data[c]) <==> Update(db, id, data) == db
  {
    var row := db.rows[id];
    if forall c :: c in data ==> At(row, c) == data[c] {
      RowsEqual(Write(row, data), row);
      assert db.rows[id := row] == db.rows;
    } else {
      var c :| c in data && At(row, c) != data[c];
      assert At(Write(row, data), c) != At(row, c);
      assert Update(db, id, data).rows[id] != db.rows[id];
    }
  }

  lemma CountDownIsExact(db: Db, id: RowId)
    requires id in db.rows
    ensures !At(db.rows[id], ClaimCount).Num? <==> Compensate(db, InsuranceClaim, Some(id)) == db
  {
    if At(db.rows[id], ClaimCount).Num? {
      var n := At(db.rows[id], ClaimCount).n;
      var row := Write(db.rows[id], map[ClaimCount := Num(n - 1)]);
      assert At(row, ClaimCount) == Num(n - 1);
      assert Compensate(db, InsuranceClaim, Some(id)).rows[id] == row;
    }
  }

  /** The guards of the compensated actions, together with `RowOk`, are strong enough. */
  lemma GuardsMakeExact(a: Action, row: Row)
    requires a in COMPENSATED && Guard(a, row) && RowOk(row)
    ensures Exact(a, row)
  {
  }

  /** Nor do these guards refuse a row that compensation would leave alone, if the chain has numbered it. */
  lemma GuardsAreExact(a: Action, row: Row)
    requires a in {VehicleScrap, TradeCertRevoke, ChallanPay, ChallanCancel, LoanClear} && row.table == TableOf(a)
    requires RowOk(row) && (row.table == Challans ==> At(row, OnChainId) != Null && !Falsy(At(row, OwnTid)))
    ensures Guard(a, row) <==> Exact(a, row)
  {
    if Exact(a, row) { ExactColumns(a, row); }
  }

  lemma ExactColumns(a: Action, row: Row)
    requires Exact(a, row) && UndoOf(a).Restore?
    ensures Status in UndoOf(a).data ==> At(row, Status) == UndoOf(a).data[Status]
    ensures IsActive in UndoOf(a).data ==> At(row, IsActive) == UndoOf(a).data[IsActive]
    ensures Col.NocIssued in UndoOf(a).data ==> At(row, Col.NocIssued) == UndoOf(a).data[Col.NocIssued]
  {
  }

  /** Three guards are not: a cancelled policy may be expired, a revoked certificate may be expired, and the worker
      takes a claim back that the service never counted. */
  lemma GuardsThatAreNotExact(row: Row)
    ensures Guard(InsuranceExpire, row) ==> (Exact(InsuranceExpire, row) <==> At(row, Status) == St(PolicyActive))
    ensures Guard(PucExpire, row) ==> (Exact(PucExpire, row) <==> At(row, Status) == St(PucValid))
    ensures Guard(InsuranceClaim, row) ==> (Exact(InsuranceClaim, row) <==> !At(row, ClaimCount).Num?)
  {
  }

  // ── Moves ──

  /** A submission, a settled transaction, an indexed event, a payment reference, the two halves of a failed sweep, an
      id that no row gets, or nothing. */
  datatype Move =
    | Submit(h: Hash, action: Action, data: Data, target: RowId, entity: Option<nat>, member: Option<nat>)
    | Settle(h: Hash, tx: Tx, block: nat, events: EventMap)
    | Index(log: Log)
    | PayRef(id: RowId, ref: string)
    | Fail(h: Hash, block: nat)
    | Rollback(h: Hash)
    | Burn
    | Skip

  datatype Submission = Submission(action: Action, id: RowId)

  /** `open` holds the reverted submissions that no sweep has compensated yet. */
  datatype World = World(db: Db, open: map<Hash, Submission>)

  function Submitted(db: Db, h: Hash, a: Action, data: Data, target: RowId, entity: Option<nat>,
                     member: Option<nat>): Db {
    if Creates(a) then
      Insert(db, TableOf(a), data).(txs := db.txs[h := Tx(a, Pending, None, Some(db.next), entity, member)])
    else
      db.(txs := db.txs[h := Tx(a, Pending, None, Some(target), entity, member)])
  }

  /** `reverted` is the chain's verdict. */
  ghost function Apply(w: World, dir: Directory, reverted: set<Hash>, m: Move): World {
    match m
    case Submit(h, a, data, target, entity, member) =>
      World(Submitted(w.db, h, a, data, target, entity, member),
            if h in reverted then w.open[h := Submission(a, if Creates(a) then w.db.next else target)] else w.open)
    case Settle(h, tx, block, events) =>
      var d := RollForward(w.db, dir, h, tx, block, events);
      w.(db := if d.Some? then d.value else w.db)
    case Index(log) => w.(db := Handle(w.db, dir, log))
    case PayRef(id, ref) => w.(db := if id in w.db.rows then Update(w.db, id, map[PaymentRef := Text(ref)]) else w.db)
    case Fail(h, block) => w.(db := if h in w.db.txs then MarkFailed(w.db, h, block) else w.db)
    case Rollback(h) => if h in w.open then World(Compensate(w.db, w.open[h].action, Some(w.open[h].id)), w.open - {h})
      else w
    case Burn => w.(db := w.db.(next := w.db.next + 1))
    case Skip => w
  }

  ghost function Held(w: World): set<RowId> {
    set h | h in w.open :: w.open[h].id
  }

  /** A move that does not change the rows of reverted submissions. */
  ghost predicate LeavesAlone(d: Db, d': Db, held: set<RowId>) {
    forall id :: id in held && id in d.rows ==> id in d'.rows && d'.rows[id] == d.rows[id]
  }

  /** The row a service creates before the chain has numbered it. */
  predicate NewRowOk(a: Action, data: Data) {
    && OnChainId !in data
    && RowOk(NewRow(TableOf(a), data))
  }

  /** What makes a move possible: fresh hashes, the guards, events in chain order, and no two outstanding transactions
      that share a business row. */
  ghost predicate Allowed(w: World, dir: Directory, reverted: set<Hash>, m: Move) {
    match m
    case Submit(h, a, data, target, _, _) =>
      && h !in w.db.txs && h !in w.open && a in COMPENSATED
      && (if Creates(a) then NewRowOk(a, data) else target in w.db.rows && Guard(a, w.db.rows[target])
                                                    && target !in Held(w))
    case Settle(h, tx, block, events) =>
      && h !in reverted && tx.action in COMPENSATED && tx.target.Some?
      && InOrder(w.db, tx, events)
      && LeavesAlone(w.db, Apply(w, dir, reverted, m).db, Held(w))
      && tx.target.value !in Held(w) && (tx.target.value in w.db.rows ==>
                                         w.db.rows[tx.target.value].table == TableOf(tx.action))
    case Index(log) =>
      && log.hash !in reverted && InOrderLog(w.db, dir, log)
      && LeavesAlone(w.db, Handle(w.db, dir, log), Held(w))
    case Fail(h, _) => h in reverted
    case Rollback(h) => h in reverted
    case _ => true
  }

  /** Chain order: a challan is issued before it is paid or cancelled, a NOC is minted no earlier than it is issued. */
  predicate InOrder(db: Db, tx: Tx, events: EventMap) {
    tx.target.Some? && tx.target.value in db.rows ==>
      && (tx.action == ChallanIssue ==> Unpaid(db.rows[tx.target.value]))
      && (tx.action == LoanClear && "NOCMinted" in events && "NOCIssued" !in events ==>
          At(db.rows[tx.target.value], Col.NocIssued) == Flag(true))
  }

  predicate Unpaid(row: Row) {
    At(row, PaidAt) == Null && At(row, CancelledAt) == Null
  }

  ghost predicate InOrderLog(db: Db, dir: Directory, log: Log) {
    var e := EffectOf(db, dir, log);
    e.WriteRow? && e.id in db.rows ==>
      && (log.event.ChallanIssued? ==> Unpaid(db.rows[e.id]))
      && (log.event.NocMinted? ==> At(db.rows[e.id], Col.NocIssued) == Flag(true))
  }

  ghost predicate LegalRun(w: World, dir: Directory, reverted: set<Hash>, moves: seq<Move>)
    decreases |moves|
  {
    moves != [] ==> Allowed(w, dir, reverted, moves[0])
                    && LegalRun(Apply(w, dir, reverted, moves[0]), dir, reverted, moves[1..])
  }

  ghost function RunMoves(w: World, dir: Directory, reverted: set<Hash>, moves: seq<Move>): World
    decreases |moves|
  {
    if moves == [] then w else RunMoves(Apply(w, dir, reverted, moves[0]), dir, reverted, moves[1..])
  }

  /** The run without the reverted submissions; an id that one of them took is left unused. */
  function Without(reverted: set<Hash>, m: Move): Move {
    match m
    case Submit(h, a, _, _, _, _) => if h !in reverted then m else if Creates(a) then Burn else Skip
    case Fail(h, _) => if h in reverted then Skip else m
    case Rollback(h) => if h in reverted then Skip else m
    case _ => m
  }

  function Erased(reverted: set<Hash>, moves: seq<Move>): seq<Move> {
    seq(|moves|, i requires 0 <= i < |moves| => Without(reverted, moves[i]))
  }

  // ── The two runs side by side ──

  /** Rows the erased run never has: they were created by reverted submissions. */
  function Phantoms(w: World): set<RowId> {
    set h | h in w.open && Creates(w.open[h].action) :: w.open[h].id
  }

  /** `f` is `e` with phantom rows and with the tracking rows of reverted transactions. */
  ghost predicate Shadow(f: Db, e: Db, phantoms: set<RowId>, reverted: set<Hash>) {
    && f.next == e.next
    && f.rows.Keys == e.rows.Keys + phantoms && e.rows.Keys !! phantoms
    && (forall id :: id in e.rows ==> f.rows[id] == e.rows[id])
    && (forall id :: id in phantoms ==> PhantomRow(f.rows[id]))
    && (forall h :: h in e.txs ==> h !in reverted)
    && (forall h :: h !in reverted ==> SameTx(f, e, phantoms, h))
  }

  predicate PhantomRow(row: Row) {
    At(row, OnChainId) == Null && row.table !in {Ownerships, Transfers, TradeCerts}
  }

  predicate SameTx(f: Db, e: Db, phantoms: set<RowId>, h: Hash) {
    && TxOf(f, h) == TxOf(e, h)
    && (h in f.txs && f.txs[h].target.Some? ==> f.txs[h].target.value !in phantoms)
  }

  lemma ShadowUpdate(f: Db, e: Db, phantoms: set<RowId>, reverted: set<Hash>, id: RowId, data: Data)
    requires Shadow(f, e, phantoms, reverted) && id in e.rows
    ensures Shadow(Update(f, id, data), Update(e, id, data), phantoms, reverted)
  {
    var f', e' := Update(f, id, data), Update(e, id, data);
    assert f'.rows.Keys == f.rows.Keys && e'.rows.Keys == e.rows.Keys;
    forall h | h !in reverted ensures SameTx(f', e', phantoms, h) {
      assert SameTx(f, e, phantoms, h);
    }
  }

  lemma ShadowInsert(f: Db, e: Db, phantoms: set<RowId>, reverted: set<Hash>, table: Table, data: Data)
    requires Sound(f) && Shadow(f, e, phantoms, reverted)
    ensures Shadow(Insert(f, table, data), Insert(e, table, data), phantoms, reverted)
  {
    var f', e' := Insert(f, table, data), Insert(e, table, data);
    assert f.next !in f.rows;
    assert f'.rows.Keys == f.rows.Keys + {f.next} && e'.rows.Keys == e.rows.Keys + {f.next};
    forall h | h !in reverted ensures SameTx(f', e', phantoms, h) {
      assert SameTx(f, e, phantoms, h);
    }
  }

  lemma ShadowDelete(f: Db, e: Db, phantoms: set<RowId>, reverted: set<Hash>, ids: set<RowId>)
    requires Shadow(f, e, phantoms, reverted) && ids !! phantoms
    ensures Shadow(DeleteAll(f, ids), DeleteAll(e, ids), phantoms, reverted)
  {
    var f', e' := DeleteAll(f, ids), DeleteAll(e, ids);
    assert f'.rows.Keys == f.rows.Keys - ids && e'.rows.Keys == e.rows.Keys - ids;
    forall h | h !in reverted ensures SameTx(f', e', phantoms, h) {
      assert SameTx(f, e, phantoms, h);
    }
  }

  lemma ShadowTx(f: Db, e: Db, phantoms: set<RowId>, reverted: set<Hash>, h: Hash, tx: Tx)
    requires Shadow(f, e, phantoms, reverted) && h !in reverted
    requires tx.target.Some? ==> tx.target.value !in phantoms
    ensures Shadow(f.(txs := f.txs[h := tx]), e.(txs := e.txs[h := tx]), phantoms, reverted)
  {
    var f', e' := f.(txs := f.txs[h := tx]), e.(txs := e.txs[h := tx]);
    forall k | k !in reverted ensures SameTx(f', e', phantoms, k) {
      assert SameTx(f, e, phantoms, k);
    }
  }

  // ── The indexer ──

  lemma ShadowLooks(f: Db, e: Db, phantoms: set<RowId>, reverted: set<Hash>, h: Hash)
    requires Sound(f) && Sound(e) && Shadow(f, e, phantoms, reverted) && h !in reverted
    ensures Lookalike(f, e, h)
  {
    forall table, x ensures FindsAlike(f, e, table, x) {
      ShadowFind(f, e, phantoms, reverted, table, x);
    }
    assert SameTx(f, e, phantoms, h);
  }

  lemma ShadowFind(f: Db, e: Db, phantoms: set<RowId>, reverted: set<Hash>, table: Table, x: int)
    requires Sound(f) && Sound(e) && Shadow(f, e, phantoms, reverted)
    ensures FindsAlike(f, e, table, x)
  {
    if Find(e, table, x).Some? {
      var id := Find(e, table, x).value;
      assert HasChainId(f, table, x, id);
      FindUnique(f, table, x, id);
    } else if Find(f, table, x).Some? {
      var id := Find(f, table, x).value;
      assert id in phantoms ==> PhantomRow(f.rows[id]);
      assert HasChainId(e, table, x, id);
    }
  }

  /** Effects that write to rows of both runs. */
  ghost predicate Visible(e: Db, eff: Effect) {
    && (eff.WriteRow? ==> eff.id in e.rows)
  }

  lemma ShadowPerform(f: Db, e: Db, phantoms: set<RowId>, reverted: set<Hash>, eff: Effect)
    requires Sound(f) && Shadow(f, e, phantoms, reverted) && Visible(e, eff)
             && (eff.RemoveRows? ==> eff.ids !! phantoms)
    ensures Shadow(Perform(f, eff), Perform(e, eff), phantoms, reverted)
  {
    match eff
    case WriteRow(id, data) => ShadowUpdate(f, e, phantoms, reverted, id, data);
    case CreateRow(table, data) => ShadowInsert(f, e, phantoms, reverted, table, data);
    case RemoveRows(ids) => ShadowDelete(f, e, phantoms, reverted, ids);
    case _ =>
  }

  lemma EffectVisible(e: Db, dir: Directory, log: Log)
    requires Sound(e)
    ensures Visible(e, EffectOf(e, dir, log)) && Visible(e, SecondEffect(e, log))
    ensures SecondEffect(e, log).NoWrite? || SecondEffect(e, log).WriteRow?
  {
    EffectLegal(e, dir, log);
  }

  lemma ShadowCarry(f: Db, e: Db, phantoms: set<RowId>, reverted: set<Hash>, eff: Effect, log: Log)
    requires Sound(f) && Sound(e) && Shadow(f, e, phantoms, reverted) && log.hash !in reverted
    requires Visible(e, eff) && Legal(f, eff) && (eff.RemoveRows? ==> eff.ids !! phantoms)
    requires SecondEffect(f, log) == SecondEffect(e, log) && Visible(Perform(e, eff), SecondEffect(e, log))
    ensures Shadow(Carry(f, eff, log), Carry(e, eff, log), phantoms, reverted)
  {
    if !eff.Rejected? {
      var e2 := SecondEffect(e, log);
      ShadowPerform(f, e, phantoms, reverted, eff);
      PerformSound(f, eff);
      ShadowPerform(Perform(f, eff), Perform(e, eff), phantoms, reverted, e2);
      assert SameTx(f, e, phantoms, log.hash);
      ShadowFinish(Perform(Perform(f, eff), e2), Perform(Perform(e, eff), e2), phantoms, reverted, TxOf(e, log.hash),
                   log);
    }
  }

  lemma ShadowFinish(f: Db, e: Db, phantoms: set<RowId>, reverted: set<Hash>, tx: Option<Tx>, log: Log)
    requires Shadow(f, e, phantoms, reverted) && log.hash !in reverted
    ensures Shadow(Finish(f, tx, log), Finish(e, tx, log), phantoms, reverted)
  {
    var final := FinalAction(tx, log.event);
    if final.Some? { FinalizeShadow(f, e, phantoms, reverted, log.hash, log.block, final.value); }
  }

  lemma ShadowWithdrawn(f: Db, e: Db, phantoms: set<RowId>, reverted: set<Hash>, dir: Directory, dvpId: nat,
                        bankId: nat)
    requires Sound(f) && Sound(e) && Shadow(f, e, phantoms, reverted)
    ensures Withdrawn(e, dir, dvpId, bankId) == Withdrawn(f, dir, dvpId, bankId) - phantoms
  {
    ShadowFind(f, e, phantoms, reverted, Passports, dvpId);
    forall id | id in e.rows ensures IsWithdrawn(e, dir, dvpId, bankId, id) == IsWithdrawn(f, dir, dvpId, bankId, id) {
    }
  }

  lemma IndexShadow(f: Db, e: Db, phantoms: set<RowId>, reverted: set<Hash>, dir: Directory, log: Log)
    requires Sound(f) && Sound(e) && Shadow(f, e, phantoms, reverted) && log.hash !in reverted
    requires LeavesAlone(f, Handle(f, dir, log), phantoms)
    ensures Shadow(Handle(f, dir, log), Handle(e, dir, log), phantoms, reverted)
  {
    hide Handle, Sound, EffectOf, Shadow;
    if log.event.PendingLoanCancelled? {
      WithdrawShadow(f, e, phantoms, reverted, dir, log);
    } else {
      ShadowLooks(f, e, phantoms, reverted, log.hash);
      LookalikeEffect(f, e, dir, log);
      EffectLegal(f, dir, log);
      EffectVisible(e, dir, log);
      NothingRemoved(e, dir, log);
      ShadowCarry(f, e, phantoms, reverted, EffectOf(e, dir, log), log);
      HandleIsCarry(f, dir, log);
      HandleIsCarry(e, dir, log);
    }
  }

  lemma HandleIsCarry(db: Db, dir: Directory, log: Log)
    ensures Handle(db, dir, log) == Carry(db, EffectOf(db, dir, log), log)
  {
  }

  lemma NothingRemoved(e: Db, dir: Directory, log: Log)
    requires !log.event.PendingLoanCancelled? && Visible(e, SecondEffect(e, log))
    ensures !EffectOf(e, dir, log).RemoveRows? && Visible(Perform(e, EffectOf(e, dir, log)), SecondEffect(e, log))
  {
  }

  lemma WithdrawShadow(f: Db, e: Db, phantoms: set<RowId>, reverted: set<Hash>, dir: Directory, log: Log)
    requires Sound(f) && Sound(e) && Shadow(f, e, phantoms, reverted) && log.hash !in reverted
             && log.event.PendingLoanCancelled?
    requires LeavesAlone(f, Handle(f, dir, log), phantoms)
    ensures Shadow(Handle(f, dir, log), Handle(e, dir, log), phantoms, reverted)
  {
    hide Handle, Withdrawn, Sound;
    var gone := Withdrawn(f, dir, log.event.dvpId, log.event.bankId);
    WithdrawHandle(f, dir, log);
    WithdrawHandle(e, dir, log);
    ShadowWithdrawn(f, e, phantoms, reverted, dir, log.event.dvpId, log.event.bankId);
    assert gone !! phantoms && gone - phantoms == gone by {
      KeptNotGone(f, Handle(f, dir, log), phantoms, gone);
      assert phantoms <= f.rows.Keys;
    }
    ShadowDelete(f, e, phantoms, reverted, gone);
    FinalizeShadow(DeleteAll(f, gone), DeleteAll(e, gone), phantoms, reverted, log.hash, log.block, LoanCancelPending);
  }

  lemma KeptNotGone(f: Db, f': Db, held: set<RowId>, gone: set<RowId>)
    requires LeavesAlone(f, f', held) && f'.rows == f.rows - gone && held <= f.rows.Keys
    ensures gone !! held
  {
    forall id | id in held ensures id !in gone {
      assert id in f'.rows;
    }
  }

  lemma FinalizeShadow(f: Db, e: Db, phantoms: set<RowId>, reverted: set<Hash>, h: Hash, block: nat, a: Action)
    requires Shadow(f, e, phantoms, reverted) && h !in reverted
    ensures Shadow(Finalize(f, h, block, a), Finalize(e, h, block, a), phantoms, reverted)
  {
    assert SameTx(f, e, phantoms, h);
    var tx := if h in e.txs then e.txs[h].(sync := Mined, block := Some(block))
        else Tx(a, Mined, Some(block), None, None, None);
    ShadowTx(f, e, phantoms, reverted, h, tx);
  }

  // ── The sweep ──

  lemma TakenShadow(f: Db, e: Db, phantoms: set<RowId>, reverted: set<Hash>, table: Table, x: Val, id: RowId)
    requires Shadow(f, e, phantoms, reverted) && x != Null
    ensures Taken(f, table, x, id) == Taken(e, table, x, id)
  {
    if Taken(f, table, x, id) {
      var j :| j in f.rows && j != id && f.rows[j].table == table && At(f.rows[j], OnChainId) == x;
      assert j in phantoms ==> PhantomRow(f.rows[j]);
      assert j in e.rows && e.rows[j] == f.rows[j];
    }
  }

  lemma TryUpdateShadow(f: Db, e: Db, phantoms: set<RowId>, reverted: set<Hash>, id: RowId, data: Data)
    requires Shadow(f, e, phantoms, reverted) && id !in phantoms
    ensures TryUpdate(f, id, data).Some? == TryUpdate(e, id, data).Some?
    ensures TryUpdate(e, id, data).Some? ==>
            Shadow(TryUpdate(f, id, data).value, TryUpdate(e, id, data).value, phantoms, reverted)
  {
    assert id in f.rows <==> id in e.rows;
    if id in e.rows {
      if OnChainId in data && data[OnChainId] != Null {
        TakenShadow(f, e, phantoms, reverted, e.rows[id].table, data[OnChainId], id);
      }
      ShadowUpdate(f, e, phantoms, reverted, id, data);
    }
  }

  lemma DeactivateShadow(f: Db, e: Db, phantoms: set<RowId>, reverted: set<Hash>, passport: RowId)
    requires Shadow(f, e, phantoms, reverted)
    ensures Shadow(Deactivate(f, passport), Deactivate(e, passport), phantoms, reverted)
  {
    var f', e' := Deactivate(f, passport), Deactivate(e, passport);
    assert f'.rows.Keys == f.rows.Keys && e'.rows.Keys == e.rows.Keys;
    forall h | h !in reverted ensures SameTx(f', e', phantoms, h) {
      assert SameTx(f, e, phantoms, h);
    }
    forall id | id in phantoms ensures PhantomRow(f'.rows[id]) {
      assert PhantomRow(f.rows[id]);
    }
  }

  lemma BusinessShadow(f: Db, e: Db, phantoms: set<RowId>, reverted: set<Hash>, dir: Directory, a: Action,
                       target: RowId, events: EventMap)
    requires Shadow(f, e, phantoms, reverted) && target !in phantoms && a in COMPENSATED
    ensures var f', e' := Business(f, dir, a, target, events), Business(e, dir, a, target, events);
            f'.Some? == e'.Some? && (e'.Some? ==> Shadow(f'.value, e'.value, phantoms, reverted))
  {
    hide RowData, Shadow, TryUpdate, Deactivate;
    assert Completes(a, events).None?;
    if a == LoanCancelPending {
      ShadowDelete(f, e, phantoms, reverted, {target});
    } else if RowData(dir, a, events).Some? {
      var data := RowData(dir, a, events).value;
      TryUpdateShadow(f, e, phantoms, reverted, target, data);
      var f1, e1 := TryUpdate(f, target, data), TryUpdate(e, target, data);
      if e1.Some? {
        SameTarget(f1.value, e1.value, phantoms, reverted, target);
        DeactivateShadow(f1.value, e1.value, phantoms, reverted, target);
      }
    }
  }

  lemma SameTarget(f: Db, e: Db, phantoms: set<RowId>, reverted: set<Hash>, id: RowId)
    requires Shadow(f, e, phantoms, reverted) && id !in phantoms
    ensures id in f.rows <==> id in e.rows
  {
  }

  lemma SettleShadow(f: Db, e: Db, phantoms: set<RowId>, reverted: set<Hash>, dir: Directory, h: Hash, tx: Tx,
                     block: nat, events: EventMap)
    requires Shadow(f, e, phantoms, reverted) && h !in reverted && tx.target.Some? && tx.target.value !in phantoms
             && tx.action in COMPENSATED
    ensures var f', e' := RollForward(f, dir, h, tx, block, events), RollForward(e, dir, h, tx, block, events);
            f'.Some? == e'.Some? && (e'.Some? ==> Shadow(f'.value, e'.value, phantoms, reverted))
  {
    hide Business;
    assert SameTx(f, e, phantoms, h);
    if h in e.txs {
      var mined := e.txs[h].(sync := Mined, block := Some(block));
      ShadowTx(f, e, phantoms, reverted, h, mined);
      BusinessShadow(f.(txs := f.txs[h := mined]), e.(txs := e.txs[h := mined]), phantoms, reverted, dir, tx.action,
                     tx.target.value, events);
    }
  }

  // ── The rows stay as the guards expect ──

  ghost predicate AllOk(db: Db) {
    forall id :: id in db.rows ==> RowOk(db.rows[id])
  }

  /** Writes to a row that keep `RowOk`. */
  predicate Orderly(row: Row, data: Data) {
    && (row.table == Challans ==>
          && (Status in data ==> data[Status] in {St(ChallanPending), St(Status.ChallanPaid),
                                                  St(Status.ChallanCancelled)})
          && (Status in data && data[Status] == St(ChallanPending) ==> Unpaid(row))
          && (PaidAt in data || CancelledAt in data ==> Status in data && data[Status] != St(ChallanPending)))
    && (row.table == Loans ==>
          && (Col.NocIssued in data ==> data[Col.NocIssued] == Flag(true))
          && (ClearedAt in data || NocDate in data ==> Col.NocIssued in data)
          && (NocRecipientWallet in data || NocRecipientUser in data ==>
              Col.NocIssued in data || At(row, Col.NocIssued) == Flag(true)))
  }

  lemma OrderlyKeeps(row: Row, data: Data)
    requires RowOk(row) && Orderly(row, data)
    ensures RowOk(Write(row, data))
  {
  }

  lemma UpdateOk(db: Db, id: RowId, data: Data)
    requires AllOk(db) && id in db.rows && Orderly(db.rows[id], data)
    ensures AllOk(Update(db, id, data))
  {
    OrderlyKeeps(db.rows[id], data);
  }

  lemma RowDataOrderly(dir: Directory, a: Action, events: EventMap, row: Row)
    requires row.table == TableOf(a)
    requires a == ChallanIssue ==> Unpaid(row)
    requires a == LoanClear && "NOCMinted" in events && "NOCIssued" !in events ==> At(row, Col.NocIssued) == Flag(true)
    ensures RowData(dir, a, events).Some? ==> Orderly(row, RowData(dir, a, events).value)
  {
    match TableOf(a)
    case Loans => LoanDataOrderly(dir, a, events, row);
    case Challans => assert ChallanData(a, events).Some? ==> Orderly(row, ChallanData(a, events).value);
    case _ =>
  }

  lemma LoanDataOrderly(dir: Directory, a: Action, events: EventMap, row: Row)
    requires row.table == Loans == TableOf(a)
    requires a == LoanClear && "NOCMinted" in events && "NOCIssued" !in events ==> At(row, Col.NocIssued) == Flag(true)
    ensures LoanData(dir, a, events).Some? ==> Orderly(row, LoanData(dir, a, events).value)
  {
    assert Orderly(row, CLEARED) && CLEARED[Col.NocIssued] == Flag(true);
  }

  lemma SettleOk(db: Db, dir: Directory, h: Hash, tx: Tx, block: nat, events: EventMap)
    requires AllOk(db) && InOrder(db, tx, events) && tx.target.Some? && tx.action in COMPENSATED
    requires tx.target.value in db.rows ==> db.rows[tx.target.value].table == TableOf(tx.action)
    ensures var d := RollForward(db, dir, h, tx, block, events); d.Some? ==> AllOk(d.value)
  {
    hide RowData, Orderly, RowOk;
    var target := tx.target.value;
    assert Completes(tx.action, events).None?;
    if target in db.rows {
      RowDataOrderly(dir, tx.action, events, db.rows[target]);
      if RowData(dir, tx.action, events).Some? {
        UpdateOk(db, target, RowData(dir, tx.action, events).value);
        DeactivateOk(Update(db, target, RowData(dir, tx.action, events).value), target);
      }
    }
  }

  lemma DeactivateOk(db: Db, passport: RowId)
    requires AllOk(db)
    ensures AllOk(Deactivate(db, passport))
  {
  }

  lemma AmendOrderly(dir: Directory, tx: Option<Tx>, ev: Event, row: Row)
    requires KindOf(ev).Amend? && row.table == KindOf(ev).table
    requires ev.NocMinted? ==> At(row, Col.NocIssued) == Flag(true)
    ensures Orderly(row, AmendData(dir, tx, ev))
  {
  }

  lemma MakeOrderly(db: Db, dir: Directory, tx: Option<Tx>, ev: Event, row: Row)
    requires KindOf(ev).Make? && row.table == KindOf(ev).table
    requires ev.ChallanIssued? ==> Unpaid(row)
    ensures Orderly(row, UpsertData(dir, ev)) && Orderly(row, PromoteData(db, dir, ev))
  {
  }

  lemma CreatedOk(db: Db, dir: Directory, tx: Option<Tx>, ev: Event)
    requires KindOf(ev).Make?
    ensures RowOk(NewRow(KindOf(ev).table, CreateData(db, dir, tx, ev)))
  {
    hide CreateData;
    if ev.ChallanIssued? {
      CreatedChallanOk(db, dir, tx, ev);
    } else if ev.LoanReg? {
      CreatedLoanOk(db, dir, tx, ev);
    }
  }

  lemma CreatedChallanOk(db: Db, dir: Directory, tx: Option<Tx>, ev: Event)
    requires ev.ChallanIssued?
    ensures RowOk(NewRow(Challans, CreateData(db, dir, tx, ev)))
  {
    var data := CreateData(db, dir, tx, ev);
    assert data[Status] == St(ChallanPending) && PaidAt !in data && CancelledAt !in data;
  }

  lemma CreatedLoanOk(db: Db, dir: Directory, tx: Option<Tx>, ev: Event)
    requires ev.LoanReg?
    ensures RowOk(NewRow(Loans, CreateData(db, dir, tx, ev)))
  {
    var data := CreateData(db, dir, tx, ev);
    assert data[Col.NocIssued] == Flag(false) && ClearedAt !in data && NocDate !in data && NocRecipientWallet !in data
           && NocRecipientUser !in data;
  }

  lemma PerformOk(db: Db, e: Effect)
    requires AllOk(db)
    requires e.WriteRow? && e.id in db.rows ==> Orderly(db.rows[e.id], e.data)
    requires e.CreateRow? ==> RowOk(NewRow(e.table, e.data))
    ensures AllOk(Perform(db, e))
  {
    hide Orderly, RowOk;
    if e.WriteRow? && e.id in db.rows { UpdateOk(db, e.id, e.data); }
  }

  /** The table of the row a handler writes. */
  lemma EffectTable(db: Db, dir: Directory, log: Log)
    requires Sound(db)
    ensures var e := EffectOf(db, dir, log);
            && (e.WriteRow? ==> e.id in db.rows && (KindOf(log.event).Make? || KindOf(log.event).Amend?)
                                && db.rows[e.id].table == KindOf(log.event).table)
            && (e.CreateRow? ==> KindOf(log.event).Make?
                                 && e == CreateRow(KindOf(log.event).table,
                                                   CreateData(db, dir, TxOf(db, log.hash), log.event)))
            && (e.WriteRow? && KindOf(log.event).Make? ==>
                e.data in {UpsertData(dir, log.event), PromoteData(db, dir, log.event)})
            && (e.WriteRow? && KindOf(log.event).Amend? ==> e.data == AmendData(dir, TxOf(db, log.hash), log.event))
  {
    hide Sound, AmendData, UpsertData, PromoteData, CreateData, Parents, Linked;
    var tx := TxOf(db, log.hash);
    if KindOf(log.event).Make? && Linked(tx, log.event).Some? {
      LinkedTable(db, log);
    }
  }

  lemma IndexOk(db: Db, dir: Directory, log: Log)
    requires Sound(db) && AllOk(db) && InOrderLog(db, dir, log)
    ensures AllOk(Handle(db, dir, log))
  {
    hide Sound, AllOk, Handle, EffectOf, AmendData, UpsertData, PromoteData, CreateData, Orderly, RowOk;
    var e, tx := EffectOf(db, dir, log), TxOf(db, log.hash);
    EffectTable(db, dir, log);
    if e.WriteRow? && KindOf(log.event).Make? { MakeOrderly(db, dir, tx, log.event, db.rows[e.id]); }
    if e.WriteRow? && KindOf(log.event).Amend? { AmendOrderly(dir, tx, log.event, db.rows[e.id]); }
    if e.CreateRow? { CreatedOk(db, dir, tx, log.event); }
    PerformOk(db, e);
    var d, e2 := Perform(db, e), SecondEffect(db, log);
    SecondOrderly(db, d, log);
    PerformOk(d, e2);
    HandleIsCarry(db, dir, log);
    FinishOk(Perform(d, e2), tx, log);
  }

  lemma SecondOrderly(db: Db, d: Db, log: Log)
    ensures var e2 := SecondEffect(db, log);
            && !e2.CreateRow?
            && (e2.WriteRow? && e2.id in d.rows ==> d.rows[e2.id].table != Challans ==> Orderly(d.rows[e2.id], e2.data))
  {
  }

  lemma FinishOk(db: Db, tx: Option<Tx>, log: Log)
    requires AllOk(db)
    ensures AllOk(Finish(db, tx, log))
  {
  }

  // ── The invariant of the two runs ──

  /** A reverted submission on an existing row: compensating it will change nothing. */
  predicate OpenOk(db: Db, sub: Submission) {
    sub.action in COMPENSATED &&
    (!Creates(sub.action) && sub.id in db.rows ==>
     db.rows[sub.id].table == TableOf(sub.action) && Exact(sub.action, db.rows[sub.id]))
  }

  ghost predicate Related(w: World, e: Db, reverted: set<Hash>) {
    && Sound(w.db) && Sound(e) && AllOk(e)
    && Shadow(w.db, e, Phantoms(w), reverted)
    && OpenInv(w, reverted)
  }

  ghost predicate OpenInv(w: World, reverted: set<Hash>) {
    && (forall h :: h in w.open ==> h in reverted && OpenOk(w.db, w.open[h]) && w.open[h].id < w.db.next)
    && (forall h, k :: h in w.open && k in w.open && h != k ==> w.open[h].id != w.open[k].id)
  }

  /** A change of the database that leaves held rows alone keeps the bookkeeping. */
  lemma OpenStays(w: World, d: Db, reverted: set<Hash>)
    requires OpenInv(w, reverted) && LeavesAlone(w.db, d, Held(w)) && w.db.next <= d.next
    requires forall id :: id in d.rows && id < w.db.next ==> id in w.db.rows
    ensures OpenInv(w.(db := d), reverted) && Phantoms(w.(db := d)) == Phantoms(w)
  {
    forall h | h in w.open ensures OpenOk(d, w.open[h]) {
      assert OpenOk(w.db, w.open[h]) && w.open[h].id in Held(w);
    }
  }

  lemma PhantomsHeld(w: World)
    ensures Phantoms(w) <= Held(w)
  {
  }

  lemma FewerHeld(d: Db, d': Db, held: set<RowId>, fewer: set<RowId>)
    requires LeavesAlone(d, d', held) && fewer <= held
    ensures LeavesAlone(d, d', fewer)
  {
  }

  lemma HandleIds(db: Db, dir: Directory, log: Log)
    requires Sound(db)
    ensures var d := Handle(db, dir, log); db.next <= d.next && forall id :: id in d.rows && id < db.next ==>
            id in db.rows
  {
    hide EffectOf, Sound, Handle;
    HandleIsCarry(db, dir, log);
    var e := EffectOf(db, dir, log);
    EffectLegal(db, dir, log);
    CarryIds(db, e, log);
  }

  lemma CarryIds(db: Db, e: Effect, log: Log)
    requires Legal(db, e)
    ensures var d := Carry(db, e, log); db.next <= d.next && forall id :: id in d.rows && id < db.next ==> id in db.rows
  {
  }

  lemma IndexRelated(w: World, e: Db, dir: Directory, reverted: set<Hash>, log: Log)
    requires Related(w, e, reverted) && Allowed(w, dir, reverted, Index(log))
    ensures Related(w.(db := Handle(w.db, dir, log)), Handle(e, dir, log), reverted)
    ensures InOrderLog(e, dir, log)
  {
    hide Handle, Sound, EffectOf, Shadow, OpenInv, Phantoms, Held, AllOk, RowOk;
    PhantomsHeld(w);
    FewerHeld(w.db, Handle(w.db, dir, log), Held(w), Phantoms(w));
    IndexShadow(w.db, e, Phantoms(w), reverted, dir, log);
    HandleSound(w.db, dir, log);
    HandleSound(e, dir, log);
    InOrderBoth(w.db, e, Phantoms(w), reverted, dir, log);
    IndexOk(e, dir, log);
    HandleIds(w.db, dir, log);
    OpenStays(w, Handle(w.db, dir, log), reverted);
  }

  lemma InOrderBoth(f: Db, e: Db, phantoms: set<RowId>, reverted: set<Hash>, dir: Directory, log: Log)
    requires Sound(f) && Sound(e) && Shadow(f, e, phantoms, reverted) && log.hash !in reverted
             && InOrderLog(f, dir, log)
    ensures InOrderLog(e, dir, log)
  {
    hide EffectOf, Sound;
    if !log.event.PendingLoanCancelled? {
      ShadowLooks(f, e, phantoms, reverted, log.hash);
      LookalikeEffect(f, e, dir, log);
    }
  }

  lemma SettleIds(db: Db, dir: Directory, h: Hash, tx: Tx, block: nat, events: EventMap)
    ensures var d := RollForward(db, dir, h, tx, block, events); d.Some? ==>
            d.value.next == db.next && d.value.rows.Keys <= db.rows.Keys
  {
    hide RowData;
  }

  lemma SettleRelated(w: World, e: Db, dir: Directory, reverted: set<Hash>, m: Move)
    requires m.Settle? && Related(w, e, reverted) && Allowed(w, dir, reverted, m)
    ensures Related(Apply(w, dir, reverted, m), Apply(World(e, map[]), dir, reverted, m).db, reverted)
    ensures InOrder(e, m.tx, m.events) && (m.tx.target.value in e.rows ==>
                                           e.rows[m.tx.target.value].table == TableOf(m.tx.action))
  {
    hide RollForward, Sound, OpenInv, AllOk, RowOk;
    PhantomsHeld(w);
    SettleShadow(w.db, e, Phantoms(w), reverted, dir, m.h, m.tx, m.block, m.events);
    RollForwardSound(w.db, dir, m.h, m.tx, m.block, m.events);
    RollForwardSound(e, dir, m.h, m.tx, m.block, m.events);
    SameTarget(w.db, e, Phantoms(w), reverted, m.tx.target.value);
    SettleOk(e, dir, m.h, m.tx, m.block, m.events);
    SettleIds(w.db, dir, m.h, m.tx, m.block, m.events);
    OpenStays(w, Apply(w, dir, reverted, m).db, reverted);
  }

  // ── Submissions ──

  lemma SubmitSound(db: Db, m: Move)
    requires m.Submit? && Sound(db)
    requires if Creates(m.action) then OnChainId !in m.data else m.target in db.rows
                                                                 && db.rows[m.target].table == TableOf(m.action)
    ensures Sound(Submitted(db, m.h, m.action, m.data, m.target, m.entity, m.member))
  {
    hide Sound;
    if Creates(m.action) {
      InsertedSound(db, TableOf(m.action), m.data);
      TrackedSound(Insert(db, TableOf(m.action), m.data), m.h,
                   Tx(m.action, Pending, None, Some(db.next), m.entity, m.member));
    } else {
      TrackedSound(db, m.h, Tx(m.action, Pending, None, Some(m.target), m.entity, m.member));
    }
  }

  /** A tracking row of a reverted transaction makes no difference. */
  lemma ShadowRevertedTx(f: Db, e: Db, phantoms: set<RowId>, reverted: set<Hash>, h: Hash, txs: map<Hash, Tx>)
    requires Shadow(f, e, phantoms, reverted) && h in reverted
             && (forall k :: k != h ==> (k in txs <==> k in f.txs) && (k in txs ==> txs[k] == f.txs[k]))
    ensures Shadow(f.(txs := txs), e, phantoms, reverted)
  {
    var f' := f.(txs := txs);
    forall k | k !in reverted ensures SameTx(f', e, phantoms, k) {
      assert SameTx(f, e, phantoms, k);
    }
  }

  lemma ShadowNewPhantom(f: Db, e: Db, phantoms: set<RowId>, reverted: set<Hash>, table: Table, data: Data)
    requires Sound(f) && Sound(e) && Shadow(f, e, phantoms, reverted) && OnChainId !in data
             && table !in {Ownerships, Transfers, TradeCerts}
    ensures Shadow(Insert(f, table, data), e.(next := e.next + 1), phantoms + {f.next}, reverted)
  {
    var f' := Insert(f, table, data);
    assert f.next !in f.rows && e.next !in e.rows;
    assert f'.rows.Keys == f.rows.Keys + {f.next};
    assert PhantomRow(f'.rows[f.next]);
    forall h | h !in reverted ensures SameTx(f', e.(next := e.next + 1), phantoms + {f.next}, h) {
      assert SameTx(f, e, phantoms, h);
      if h in f.txs { assert TargetOk(f, f.txs[h]); }
    }
  }

  lemma BurnSound(e: Db)
    requires Sound(e)
    ensures Sound(e.(next := e.next + 1))
  {
    var d := e.(next := e.next + 1);
    forall t, x, i, j | HasChainId(d, t, x, i) && HasChainId(d, t, x, j) ensures i == j {
      assert HasChainId(e, t, x, i) && HasChainId(e, t, x, j);
    }
    forall h | h in d.txs ensures TargetOk(d, d.txs[h]) {
      assert TargetOk(e, e.txs[h]);
    }
  }

  lemma PhantomAdded(w: World, h: Hash, sub: Submission, d: Db)
    requires h !in w.open
    ensures Phantoms(World(d, w.open[h := sub])) == Phantoms(w) + if Creates(sub.action) then {sub.id} else {}
    ensures Held(World(d, w.open[h := sub])) == Held(w) + {sub.id}
  {
    var w' := World(d, w.open[h := sub]);
    forall k | k in w.open
      ensures w.open[k].id in Held(w') && (Creates(w.open[k].action) ==> w.open[k].id in Phantoms(w'))
    {
      assert w'.open[k] == w.open[k] && k in w'.open;
    }
    assert h in w'.open && w'.open[h] == sub;
  }

  lemma OpenAdded(w: World, reverted: set<Hash>, h: Hash, sub: Submission, d: Db)
    requires OpenInv(w, reverted) && h in reverted && h !in w.open && w.db.next <= d.next
    requires LeavesAlone(w.db, d, Held(w)) && forall id :: id in d.rows && id < w.db.next ==> id in w.db.rows
    requires OpenOk(d, sub) && sub.id < d.next && forall k :: k in w.open ==> w.open[k].id != sub.id
    ensures OpenInv(World(d, w.open[h := sub]), reverted)
  {
    OpenStays(w, d, reverted);
    var w' := World(d, w.open[h := sub]);
    forall k | k in w'.open ensures k in reverted && OpenOk(d, w'.open[k]) && w'.open[k].id < d.next {
      if k != h { assert OpenOk(w.(db := d).db, w.open[k]); }
    }
  }

  lemma CreateReverted(w: World, e: Db, dir: Directory, reverted: set<Hash>, m: Move)
    requires m.Submit? && m.h in reverted && Creates(m.action) && Related(w, e, reverted)
             && Allowed(w, dir, reverted, m)
    ensures Related(Apply(w, dir, reverted, m), e.(next := e.next + 1), reverted)
  {
    hide Sound, AllOk, Shadow, Held, Phantoms, OpenInv, RowOk;
    var sub := Submission(m.action, w.db.next);
    var mid, d := Insert(w.db, TableOf(m.action), m.data),
        Submitted(w.db, m.h, m.action, m.data, m.target, m.entity, m.member);
    SubmitSound(w.db, m);
    ShadowNewPhantom(w.db, e, Phantoms(w), reverted, TableOf(m.action), m.data);
    ShadowRevertedTx(mid, e.(next := e.next + 1), Phantoms(w) + {w.db.next}, reverted, m.h, d.txs);
    PhantomAdded(w, m.h, sub, d);
    NextUnheld(w, e, reverted);
    OpenIds(w, reverted);
    OpenAdded(w, reverted, m.h, sub, d);
    BurnSound(e);
    BurnOk(e);
  }

  lemma OpenIds(w: World, reverted: set<Hash>)
    requires OpenInv(w, reverted)
    ensures forall k :: k in w.open ==> w.open[k].id < w.db.next
  {
  }

  lemma AmendReverted(w: World, e: Db, dir: Directory, reverted: set<Hash>, m: Move)
    requires m.Submit? && m.h in reverted && !Creates(m.action) && Related(w, e, reverted)
             && Allowed(w, dir, reverted, m)
    ensures Related(Apply(w, dir, reverted, m), e, reverted)
  {
    hide Sound, AllOk, Shadow, Phantoms, OpenInv, RowOk, Guard, Exact;
    var sub := Submission(m.action, m.target);
    var d := Submitted(w.db, m.h, m.action, m.data, m.target, m.entity, m.member);
    SubmitExact(w, e, reverted, m);
    GuardTable(m.action, w.db.rows[m.target]);
    SubmitSound(w.db, m);
    ShadowRevertedTx(w.db, e, Phantoms(w), reverted, m.h, d.txs);
    PhantomAdded(w, m.h, sub, d);
    assert Phantoms(w) + {} == Phantoms(w);
    OpenAdded(w, reverted, m.h, sub, d);
  }

  lemma GuardTable(a: Action, row: Row)
    requires Guard(a, row)
    ensures row.table == TableOf(a)
  {
  }

  lemma SubmitReverted(w: World, e: Db, dir: Directory, reverted: set<Hash>, m: Move)
    requires m.Submit? && m.h in reverted && Related(w, e, reverted) && Allowed(w, dir, reverted, m)
    ensures Related(Apply(w, dir, reverted, m), Apply(World(e, map[]), dir, reverted, Without(reverted, m)).db,
                    reverted)
  {
    hide Related, Allowed;
    if Creates(m.action) {
      CreateReverted(w, e, dir, reverted, m);
    } else {
      AmendReverted(w, e, dir, reverted, m);
    }
  }

  lemma BurnOk(e: Db)
    requires AllOk(e)
    ensures AllOk(e.(next := e.next + 1))
  {
  }

  /** A guarded row is no phantom, so it is in order, and the guard makes the compensation exact. */
  lemma SubmitExact(w: World, e: Db, reverted: set<Hash>, m: Move)
    requires m.Submit? && Related(w, e, reverted) && m.action in COMPENSATED && m.target in w.db.rows
             && Guard(m.action, w.db.rows[m.target]) && m.target !in Held(w)
    ensures m.target in e.rows && e.rows[m.target] == w.db.rows[m.target] && Exact(m.action, w.db.rows[m.target])
            && m.target < w.db.next
    ensures forall h :: h in w.open ==> w.open[h].id != m.target
  {
    PhantomsHeld(w);
    GuardsMakeExact(m.action, w.db.rows[m.target]);
  }

  lemma SubmitKept(w: World, e: Db, dir: Directory, reverted: set<Hash>, m: Move)
    requires m.Submit? && m.h !in reverted && Related(w, e, reverted) && Allowed(w, dir, reverted, m)
    ensures Related(Apply(w, dir, reverted, m), Apply(World(e, map[]), dir, reverted, m).db, reverted)
    ensures Allowed(World(e, map[]), dir, reverted, m)
  {
    hide Sound, AllOk, Shadow, Phantoms, OpenInv, RowOk;
    SubmitSound(w.db, m);
    PhantomsHeld(w);
    var table, data := TableOf(m.action), m.data;
    ShadowFresh(w.db, e, Phantoms(w), reverted, m.h);
    if Creates(m.action) {
      SubmitSound(e, m);
      ShadowInsert(w.db, e, Phantoms(w), reverted, table, data);
      NextUnheld(w, e, reverted);
      ShadowTx(Insert(w.db, table, data), Insert(e, table, data), Phantoms(w), reverted, m.h,
               Tx(m.action, Pending, None, Some(w.db.next), m.entity, m.member));
      InsertOk(e, table, data);
      SameRowsOk(Insert(e, table, data), Submitted(e, m.h, m.action, data, m.target, m.entity, m.member));
      OpenStays(w, Submitted(w.db, m.h, m.action, data, m.target, m.entity, m.member), reverted);
    } else {
      SubmitExact(w, e, reverted, m);
      SubmitSound(e, m);
      ShadowTx(w.db, e, Phantoms(w), reverted, m.h, Tx(m.action, Pending, None, Some(m.target), m.entity, m.member));
      SameRowsOk(e, Submitted(e, m.h, m.action, data, m.target, m.entity, m.member));
      OpenStays(w, Submitted(w.db, m.h, m.action, data, m.target, m.entity, m.member), reverted);
    }
  }

  lemma ShadowFresh(f: Db, e: Db, phantoms: set<RowId>, reverted: set<Hash>, h: Hash)
    requires Shadow(f, e, phantoms, reverted) && h !in reverted
    ensures (h in f.txs <==> h in e.txs) && f.next == e.next
  {
    assert SameTx(f, e, phantoms, h);
  }

  lemma NextUnheld(w: World, e: Db, reverted: set<Hash>)
    requires Sound(w.db) && Sound(e) && Shadow(w.db, e, Phantoms(w), reverted)
    ensures w.db.next !in Phantoms(w) && w.db.next !in w.db.rows
  {
  }

  lemma InsertOk(e: Db, table: Table, data: Data)
    requires AllOk(e) && RowOk(NewRow(table, data))
    ensures AllOk(Insert(e, table, data))
  {
  }

  lemma SameRowsOk(e: Db, e': Db)
    requires AllOk(e) && e'.rows == e.rows
    ensures AllOk(e')
  {
  }

  // ── The other moves ──

  lemma PayRefRelated(w: World, e: Db, dir: Directory, reverted: set<Hash>, m: Move)
    requires m.PayRef? && Related(w, e, reverted)
    ensures Related(Apply(w, dir, reverted, m), Apply(World(e, map[]), dir, reverted, m).db, reverted)
  {
    hide Sound, AllOk, RowOk, Shadow, OpenInv, Phantoms;
    var data := map[PaymentRef := Text(m.ref)];
    OnlyPhantoms(w.db, e, Phantoms(w), reverted, m.id);
    if m.id in w.db.rows {
      PerformSound(w.db, WriteRow(m.id, data));
      PayRefOpen(w, reverted, m.id, data);
      if m.id in e.rows {
        PerformSound(e, WriteRow(m.id, data));
        UpdateOk(e, m.id, data);
        ShadowUpdate(w.db, e, Phantoms(w), reverted, m.id, data);
      } else {
        PhantomPaid(w.db, e, Phantoms(w), reverted, m.id, data);
      }
    }
  }

  lemma OnlyPhantoms(f: Db, e: Db, phantoms: set<RowId>, reverted: set<Hash>, id: RowId)
    requires Shadow(f, e, phantoms, reverted)
    ensures id in e.rows ==> id in f.rows
  {
  }

  lemma PayRefOpen(w: World, reverted: set<Hash>, id: RowId, data: Data)
    requires OpenInv(w, reverted) && id in w.db.rows && data.Keys == {PaymentRef}
    ensures OpenInv(w.(db := Update(w.db, id, data)), reverted)
            && Phantoms(w.(db := Update(w.db, id, data))) == Phantoms(w)
  {
    var d := Update(w.db, id, data);
    forall h | h in w.open ensures OpenOk(d, w.open[h]) {
      assert OpenOk(w.db, w.open[h]);
      NoPaymentRef(w.open[h].action);
    }
  }

  lemma NoPaymentRef(a: Action)
    ensures UndoOf(a).Restore? ==> PaymentRef !in UndoOf(a).data
  {
  }

  lemma PhantomPaid(f: Db, e: Db, phantoms: set<RowId>, reverted: set<Hash>, id: RowId, data: Data)
    requires Shadow(f, e, phantoms, reverted) && id in f.rows && id !in e.rows && data.Keys == {PaymentRef}
    ensures Shadow(Update(f, id, data), e, phantoms, reverted)
  {
    var f' := Update(f, id, data);
    assert f'.rows.Keys == f.rows.Keys;
    assert PhantomRow(f.rows[id]);
    assert At(f'.rows[id], OnChainId) == Null;
    forall h | h !in reverted ensures SameTx(f', e, phantoms, h) {
      assert SameTx(f, e, phantoms, h);
    }
  }

  lemma FailRelated(w: World, e: Db, dir: Directory, reverted: set<Hash>, m: Move)
    requires m.Fail? && m.h in reverted && Related(w, e, reverted)
    ensures Related(Apply(w, dir, reverted, m), e, reverted)
  {
    hide Sound, AllOk, Shadow, OpenInv;
    if m.h in w.db.txs {
      var d := MarkFailed(w.db, m.h, m.block);
      MarkSound(w.db, m.h, w.db.txs[m.h].(sync := Failed, block := Some(m.block)));
      ShadowRevertedTx(w.db, e, Phantoms(w), reverted, m.h, d.txs);
      OpenStays(w, d, reverted);
    }
  }

  lemma RollbackRelated(w: World, e: Db, dir: Directory, reverted: set<Hash>, h: Hash)
    requires h in reverted && Related(w, e, reverted)
    ensures Related(Apply(w, dir, reverted, Rollback(h)), e, reverted)
  {
    hide Sound, AllOk, Shadow, OpenInv, Exact;
    if h in w.open {
      var sub := w.open[h];
      OpenAt(w, reverted, h);
      var d := Compensate(w.db, sub.action, Some(sub.id));
      CompensateSound(w.db, sub.action, Some(sub.id));
      if Creates(sub.action) {
        assert sub.id in Phantoms(w);
        PhantomPresent(w.db, e, Phantoms(w), reverted, sub.id);
        PhantomDeleted(w.db, e, Phantoms(w), reverted, sub.id);
        PhantomDropped(w, h, d, reverted);
      } else {
        if sub.id in w.db.rows { CompensationIsExact(w.db, sub.action, sub.id); }
        assert d == w.db && Phantoms(w) - {} == Phantoms(w);
        PhantomDropped(w, h, d, reverted);
      }
    }
  }

  lemma PhantomPresent(f: Db, e: Db, phantoms: set<RowId>, reverted: set<Hash>, id: RowId)
    requires Shadow(f, e, phantoms, reverted) && id in phantoms
    ensures id in f.rows
  {
  }

  lemma OpenAt(w: World, reverted: set<Hash>, h: Hash)
    requires OpenInv(w, reverted) && h in w.open
    ensures OpenOk(w.db, w.open[h])
  {
  }

  lemma PhantomDeleted(f: Db, e: Db, phantoms: set<RowId>, reverted: set<Hash>, id: RowId)
    requires Shadow(f, e, phantoms, reverted) && id in phantoms
    ensures Shadow(DeleteAll(f, {id}), e, phantoms - {id}, reverted)
  {
    var f' := DeleteAll(f, {id});
    assert f'.rows.Keys == f.rows.Keys - {id};
    forall h | h !in reverted ensures SameTx(f', e, phantoms - {id}, h) {
      assert SameTx(f, e, phantoms, h);
    }
  }

  lemma PhantomDropped(w: World, h: Hash, d: Db, reverted: set<Hash>)
    requires OpenInv(w, reverted) && h in w.open && d.next == w.db.next
    requires d == if Creates(w.open[h].action) then DeleteAll(w.db, {w.open[h].id}) else w.db
    ensures OpenInv(World(d, w.open - {h}), reverted)
    ensures Phantoms(World(d, w.open - {h})) == Phantoms(w) - if Creates(w.open[h].action) then {w.open[h].id} else {}
  {
    var w' := World(d, w.open - {h});
    forall k | k in w'.open ensures OpenOk(d, w'.open[k]) {
      assert OpenOk(w.db, w.open[k]) && w.open[k].id != w.open[h].id;
    }
    forall id | id in Phantoms(w) && (Creates(w.open[h].action) ==> id != w.open[h].id) ensures id in Phantoms(w') {
      var k :| k in w.open && Creates(w.open[k].action) && w.open[k].id == id;
      assert k in w'.open && w'.open[k] == w.open[k];
    }
  }

  // ── Whole runs ──

  lemma MoveRelated(w: World, e: Db, dir: Directory, reverted: set<Hash>, m: Move)
    requires Related(w, e, reverted) && Allowed(w, dir, reverted, m)
    ensures var m' := Without(reverted, m);
            && Allowed(World(e, map[]), dir, reverted, m')
            && Apply(World(e, map[]), dir, reverted, m') == World(Apply(World(e, map[]), dir, reverted, m').db, map[])
            && Related(Apply(w, dir, reverted, m), Apply(World(e, map[]), dir, reverted, m').db, reverted)
  {
    hide Related, Sound, Handle, RollForward, InOrder, InOrderLog, Guard, NewRowOk;
    match m
    case Submit(h, _, _, _, _, _) =>
      if h in reverted { SubmitReverted(w, e, dir, reverted, m); } else { SubmitKept(w, e, dir, reverted, m); }
    case Settle(_, _, _, _) => SettleRelated(w, e, dir, reverted, m);
    case Index(log) => IndexRelated(w, e, dir, reverted, log);
    case PayRef(_, _) => PayRefRelated(w, e, dir, reverted, m);
    case Fail(_, _) => FailRelated(w, e, dir, reverted, m);
    case Rollback(h) => RollbackRelated(w, e, dir, reverted, h);
    case Burn => BurnRelated(w, e, reverted);
    case Skip =>
  }

  lemma BurnRelated(w: World, e: Db, reverted: set<Hash>)
    requires Related(w, e, reverted)
    ensures Related(w.(db := w.db.(next := w.db.next + 1)), e.(next := e.next + 1), reverted)
  {
    hide Sound, AllOk, OpenInv;
    var f', e' := w.db.(next := w.db.next + 1), e.(next := e.next + 1);
    BurnSound(w.db);
    BurnSound(e);
    BurnOk(e);
    OpenStays(w, f', reverted);
    forall h | h !in reverted ensures SameTx(f', e', Phantoms(w), h) {
      assert SameTx(w.db, e, Phantoms(w), h);
    }
  }

  lemma {:induction false} RunRelated(w: World, e: Db, dir: Directory, reverted: set<Hash>, moves: seq<Move>)
    requires Related(w, e, reverted) && LegalRun(w, dir, reverted, moves)
    ensures LegalRun(World(e, map[]), dir, reverted, Erased(reverted, moves))
    ensures RunMoves(World(e, map[]), dir, reverted, Erased(reverted, moves)).open == map[]
    ensures Related(RunMoves(w, dir, reverted, moves),
                    RunMoves(World(e, map[]), dir, reverted, Erased(reverted, moves)).db, reverted)
    decreases |moves|
  {
    hide Related, Allowed, Apply;
    if moves != [] {
      var rest := Erased(reverted, moves);
      MoveRelated(w, e, dir, reverted, moves[0]);
      assert rest[0] == Without(reverted, moves[0]) && rest[1..] == Erased(reverted, moves[1..]);
      RunRelated(Apply(w, dir, reverted, moves[0]), Apply(World(e, map[]), dir, reverted, rest[0]).db, dir, reverted,
                 moves[1..]);
    }
  }

  /** Reverted sagas leave no trace. From any sound database, the run without the reverted submissions is a possible run
      of the same system, and it ends with the same business rows as the full run if and only if every reverted
      submission that created a row has been compensated. The rows that are missing are exactly those it left. */
  lemma RevertedSagasLeaveNoTrace(db: Db, dir: Directory, reverted: set<Hash>, moves: seq<Move>)
    requires Sound(db) && AllOk(db) && db.txs.Keys !! reverted
    requires LegalRun(World(db, map[]), dir, reverted, moves)
    ensures LegalRun(World(db, map[]), dir, reverted, Erased(reverted, moves))
    ensures var full, erased := RunMoves(World(db, map[]), dir, reverted, moves),
            RunMoves(World(db, map[]), dir, reverted, Erased(reverted, moves));
            && (full.db.rows == erased.db.rows <==> forall h :: h in full.open ==> !Creates(full.open[h].action))
            && erased.db.rows == full.db.rows - Phantoms(full)
  {
    hide Sound, AllOk, LegalRun, RunMoves;
    var full, erased := RunMoves(World(db, map[]), dir, reverted, moves),
        RunMoves(World(db, map[]), dir, reverted, Erased(reverted, moves));
    StartRelated(db, reverted);
    RunRelated(World(db, map[]), db, dir, reverted, moves);
    RowsApart(full, erased.db, reverted);
  }

  lemma StartRelated(db: Db, reverted: set<Hash>)
    requires Sound(db) && AllOk(db) && db.txs.Keys !! reverted
    ensures Related(World(db, map[]), db, reverted)
  {
    hide Sound, AllOk;
    assert Phantoms(World(db, map[])) == {};
  }

  lemma RowsApart(full: World, e: Db, reverted: set<Hash>)
    requires Related(full, e, reverted)
    ensures e.rows == full.db.rows - Phantoms(full)
    ensures full.db.rows == e.rows <==> forall h :: h in full.open ==> !Creates(full.open[h].action)
  {
    hide Sound, AllOk, OpenInv;
    assert e.rows.Keys == (full.db.rows - Phantoms(full)).Keys;
    if h :| h in full.open && Creates(full.open[h].action) {
      assert full.open[h].id in Phantoms(full) && full.open[h].id in full.db.rows && full.open[h].id !in e.rows;
    } else {
      assert Phantoms(full) == {};
    }
  }
}

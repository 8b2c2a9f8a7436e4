/** What the rollback of a reverted transaction leaves of the row it acted on, and when that is the row the service
    saw. */
module Rollbacks {
  import opened Tables
  import opened Reconciler
  import opened Sagas

  /** The row is gone, with the tracking rows that point at it. */
  predicate Removed(db: Db, d: Db, id: RowId) {
    && d.next == db.next && d.rows == db.rows - {id} && d.txs.Keys <= db.txs.Keys
    && forall h :: h in db.txs ==>
         (h in d.txs <==> db.txs[h].target != Some(id)) && (h in d.txs ==> d.txs[h] == db.txs[h])
  }

  /** The columns a rollback sets in an existing row; what a reverted transaction has created is removed instead. */
  function TakenBack(a: Action, row: Row): Data {
    match a
    case TransferApproveBuyer => map[BuyerOk := Flag(false), Status := St(TransferPending)]
    case TransferApproveRto => map[RtoOk := Flag(false), Status := St(TransferBuyerAccepted)]
    case TransferCancel => map[Status := St(TransferPending)]
    case VehicleScrap => map[Status := St(VehicleActive)]
    case VehicleAssignDealer => map[DealerWallet := Null, DealerUser := Null]
    case TradeCertRevoke => map[IsActive := Flag(true)]
    case ChallanPay => map[Status := St(ChallanPending), PaidAt := Null]
    case ChallanCancel => map[Status := St(ChallanPending), CancelledAt := Null]
    case InsuranceClaim =>
      (match At(row, ClaimCount) case Num(n) => map[ClaimCount := Num(n - 1)] case _ => map[])
    case InsuranceExpire => map[Status := St(PolicyActive)]
    case PucExpire => map[Status := St(PucValid)]
    case LoanClear =>
      map[Status := St(LoanActive), ClearedAt := Null, Col.NocIssued := Flag(false), NocDate := Null,
          NocRecipientWallet := Null, NocRecipientUser := Null]
    case _ => map[]
  }

  ghost predicate RolledBack(db: Db, d: Db, a: Action, target: Option<RowId>) {
    if target.None? || target.value !in db.rows then d == db
    else if a in {VehicleMint, ChallanIssue, InsuranceIssue, Action.PucIssue, Action.LoanReg} then
      Removed(db, d, target.value)
    else
      d.txs == db.txs && RowsSet(db, d, map[target.value := TakenBack(a, db.rows[target.value])])
  }

  lemma TakenBackIs(a: Action, row: Row)
    ensures match UndoOf(a)
            case Restore(data) => TakenBack(a, row) == data
            case CountDown => a == InsuranceClaim
            case Nothing => TakenBack(a, row) == map[]
            case Delete => true
    ensures UndoOf(a).Delete? <==>
            a in {VehicleMint, ChallanIssue, InsuranceIssue, Action.PucIssue, Action.LoanReg}
  {
  }

  lemma CompensateRows(db: Db, a: Action, target: Option<RowId>)
    ensures RolledBack(db, Compensate(db, a, target), a, target)
  {
    if target.Some? && target.value in db.rows {
      var id := target.value;
      TakenBackIs(a, db.rows[id]);
      hide RowsSet, Update, UndoOf, TakenBack, DeleteAll;
      UpdateSets(db, id, TakenBack(a, db.rows[id]));
      NothingSet(db, id);
      RemovedRows(db, id);
      ClaimTakenBack(db.rows[id]);
    }
  }

  lemma ClaimTakenBack(row: Row)
    ensures TakenBack(InsuranceClaim, row) ==
            match At(row, ClaimCount) { case Num(n) => map[ClaimCount := Num(n - 1)] case _ => map[] }
  {
  }

  lemma RemovedRows(db: Db, id: RowId)
    ensures Removed(db, DeleteAll(db, {id}), id)
  {
  }

  lemma NothingSet(db: Db, id: RowId)
    requires id in db.rows
    ensures RowsSet(db, db, map[id := map[]])
  {
  }

  // ── Does it give back what the service saw? ──

  /** Whether the rollback restores a row that has passed the guard. Of the policy and certificate guards see
      `GuardsThatAreNotExact`. */
  ghost predicate GivesBack(a: Action, row: Row) {
    match a
    case TransferApproveRto => false
    case VehicleAssignDealer => At(row, DealerWallet) == Null && At(row, DealerUser) == Null
    case InsuranceExpire => At(row, Status) == St(PolicyActive)
    case PucExpire => At(row, Status) == St(PucValid)
    case InsuranceClaim => !At(row, ClaimCount).Num?
    case _ => true
  }

  /** For every row that a service lets through: the rollback restores it always, but for an assigned dealer, who is
      cleared even if he was assigned before, a policy or certificate that was not in force, a counted claim, and the
      approval of the RTO, whose request never gets its status back. */
  lemma RestoredExactly(db: Db, d: Db, a: Action, id: RowId)
    requires id in db.rows && Guard(a, db.rows[id]) && RowOk(db.rows[id]) && RolledBack(db, d, a, Some(id))
    ensures d.rows == db.rows <==> GivesBack(a, db.rows[id])
  {
    var row := db.rows[id];
    assert d.rows.Keys == db.rows.Keys && RowChanged(row, d.rows[id], TakenBack(a, row));
    if GivesBack(a, row) {
      GuardGives(a, row);
      RowsEqual(d.rows[id], row);
    } else {
      GuardTakes(a, row, d.rows[id]);
    }
  }

  lemma GuardGives(a: Action, row: Row)
    requires Guard(a, row) && RowOk(row) && GivesBack(a, row)
    ensures forall c :: c in TakenBack(a, row) ==> At(row, c) == TakenBack(a, row)[c]
  {
  }

  lemma GuardTakes(a: Action, row: Row, row': Row)
    requires Guard(a, row) && !GivesBack(a, row) && RowChanged(row, row', TakenBack(a, row))
    ensures row' != row
  {
    assert At(row', Status) == if Status in TakenBack(a, row) then TakenBack(a, row)[Status] else At(row, Status);
  }

  /** Requests without a service of their own: approval by the buyer and cancellation are sent by citizens. */
  lemma RequestRestoredExactly(db: Db, d: Db, a: Action, id: RowId)
    requires id in db.rows && a in {TransferApproveBuyer, TransferCancel} && RolledBack(db, d, a, Some(id))
    ensures d.rows == db.rows <==>
            && At(db.rows[id], Status) == St(TransferPending)
            && (a == TransferApproveBuyer ==> At(db.rows[id], BuyerOk) == Flag(false))
  {
    RequestRow(a, db.rows[id], d.rows[id]);
    hide TakenBack, RowChanged;
  }

  lemma RequestRow(a: Action, row: Row, row': Row)
    requires a in {TransferApproveBuyer, TransferCancel} && RowChanged(row, row', TakenBack(a, row))
    ensures row' == row <==> At(row, Status) == St(TransferPending)
                             && (a == TransferApproveBuyer ==> At(row, BuyerOk) == Flag(false))
  {
    if At(row, Status) == St(TransferPending) && (a == TransferApproveBuyer ==> At(row, BuyerOk) == Flag(false)) {
      RowsEqual(row', row);
    }
  }

  /** A request that was ready for the RTO has another status after the rollback of his approval, and is not ready any
      more. */
  lemma RtoRollbackSpoilsRequest(db: Db, d: Db, id: RowId)
    requires id in db.rows && Guard(TransferApproveRto, db.rows[id])
             && RolledBack(db, d, TransferApproveRto, Some(id))
    ensures id in d.rows && At(db.rows[id], Status) == St(TransferPending)
            && At(d.rows[id], Status) == St(TransferBuyerAccepted) && At(d.rows[id], RtoOk) == Flag(false)
            && !Guard(TransferApproveRto, d.rows[id])
            && forall c :: c !in {Status, RtoOk} ==> At(d.rows[id], c) == At(db.rows[id], c)
  {
    assert RowChanged(db.rows[id], d.rows[id], TakenBack(TransferApproveRto, db.rows[id]));
  }

  /** The flag of the approval that reverted. */
  function ApprovalFlag(a: Action): Option<Col> {
    match a
    case TransferApproveBuyer => Some(BuyerOk)
    case TransferApproveRto => Some(RtoOk)
    case _ => None
  }

  /** No rollback leaves the flag of its own approval set, none sets a flag, and none touches the other's. */
  lemma NoApprovalSurvives(db: Db, d: Db, a: Action, target: RowId, id: RowId)
    requires target in db.rows && RolledBack(db, d, a, Some(target)) && id in d.rows
    ensures id in db.rows
            && (ApprovalFlag(a).Some? && id == target ==> At(d.rows[id], ApprovalFlag(a).value) == Flag(false))
            && forall c :: c in {BuyerOk, RtoOk} && !(id == target && ApprovalFlag(a) == Some(c)) ==>
                 At(d.rows[id], c) == At(db.rows[id], c)
  {
    FlagsTaken(a, db.rows[target]);
    hide TakenBack, ApprovalFlag;
    if a in {VehicleMint, ChallanIssue, InsuranceIssue, Action.PucIssue, Action.LoanReg} {
      assert d.rows == db.rows - {target};
    } else if id == target {
      assert RowChanged(db.rows[id], d.rows[id], TakenBack(a, db.rows[id]));
    }
  }

  lemma FlagsTaken(a: Action, row: Row)
    ensures forall c :: c in {BuyerOk, RtoOk} ==>
              (c in TakenBack(a, row) <==> ApprovalFlag(a) == Some(c))
              && (c in TakenBack(a, row) ==> TakenBack(a, row)[c] == Flag(false))
    ensures a in {VehicleMint, ChallanIssue, InsuranceIssue, Action.PucIssue, Action.LoanReg} ==> ApprovalFlag(a).None?
    ensures ApprovalFlag(a) in {None, Some(BuyerOk), Some(RtoOk)}
  {
  }

  /** Each rollback of a claim takes one from the count, whatever the claim had added. */
  lemma ClaimCountsDown(db: Db, d: Db, id: RowId)
    requires id in db.rows && RolledBack(db, d, InsuranceClaim, Some(id))
    ensures id in d.rows
            && (At(db.rows[id], ClaimCount).Num? ==>
                  At(d.rows[id], ClaimCount) == Num(At(db.rows[id], ClaimCount).n - 1))
            && forall c :: c != ClaimCount ==> At(d.rows[id], c) == At(db.rows[id], c)
  {
    assert RowChanged(db.rows[id], d.rows[id], TakenBack(InsuranceClaim, db.rows[id]));
  }
}

/** What a settled sweep leaves in the tables, action by action and column by column, and when it throws. */
module SweepRows {
  import opened Tables
  import opened Chain
  import opened Reconciler

  predicate Approves(a: Action) {
    a == TransferApproveBuyer || a == TransferApproveRto
  }

  /** The request is approved and complete, and its vehicle has the new owner and one more transfer. */
  ghost predicate TransferCompleted(db: Db, d: Db, dir: Directory, action: Action, id: RowId, newOwner: string) {
    id in db.rows &&
    var ref := At(db.rows[id], OwnershipRef);
    && ref.Num? && ref.n >= 0 && ref.n in db.rows && At(db.rows[ref.n], TransferCount).Num?
    && (db.rows[ref.n].table != db.rows[id].table ==>
          RowsSet(db, d,
                  map[id := map[if action == TransferApproveBuyer then BuyerOk else RtoOk := Flag(true),
                                Status := St(TransferRtoApproved), CompletedDate := Date],
                      ref.n := NewOwner(dir, newOwner, At(db.rows[ref.n], TransferCount).n)]))
  }

  function NewOwner(dir: Directory, newOwner: string, transfers: int): Data {
    map[OwnerWallet := Text(newOwner), OwnerUser := OrNull(UserOf(dir, newOwner)), TransferCount := Num(transfers + 1)]
  }

  ghost predicate TransferSwept(db: Db, d: Db, dir: Directory, action: Action, id: RowId, events: EventMap) {
    match action
    case TransferApproveBuyer =>
      (match Get(events, "XferDone")
       case Some(XferDone(_, _, newOwner)) => TransferCompleted(db, d, dir, action, id, newOwner)
       case _ =>
         FoundSet(db, d, if "XferApproved" in events then Some(id) else None,
                  map[BuyerOk := Flag(true), Status := St(TransferBuyerAccepted)]))
    case TransferApproveRto =>
      (match Get(events, "XferDone")
       case Some(XferDone(_, _, newOwner)) => TransferCompleted(db, d, dir, action, id, newOwner)
       case _ => SameRows(db, d))
    case TransferCancel => RowsSet(db, d, map[id := map[Status := St(TransferCancelled)]])
    case _ => SameRows(db, d)
  }

  ghost predicate VehicleSwept(db: Db, d: Db, dir: Directory, action: Action, id: RowId, events: EventMap) {
    if action == VehicleMint then
      match Get(events, "VehicleMfg")
      case Some(VehicleMfg(dvpId)) =>
        RowsSet(db, d, map[id := map[OnChainId := Num(dvpId), Status := St(VehicleNotReg)]])
      case _ => SameRows(db, d)
    else if action == VehicleScrap then
      match Get(events, "VehicleScrapped")
      case Some(VehicleScrapped(_, scrapId)) =>
        RowGone(db, d, id, map[Status := St(Status.VehicleScrapped), ScrapDate := Date,
                               ScrapEntity := OrNull(EntityOf(dir, scrapId))])
      case _ => SameRows(db, d)
    else if action == VehicleAssignDealer then
      match Get(events, "VehicleAssignedToDealer")
      case Some(VehicleAssignedToDealer(_, dealer)) =>
        RowsSet(db, d, map[id := map[DealerWallet := Text(dealer), DealerUser := OrNull(UserOf(dir, dealer))]])
      case _ => SameRows(db, d)
    else SameRows(db, d)
  }

  /** The vehicle is scrapped, and none of its ownership rows is active. */
  ghost predicate RowGone(db: Db, d: Db, id: RowId, vals: Data) {
    && id in db.rows && d.next == db.next && d.rows.Keys == db.rows.Keys
    && (db.rows[id].table == Passports ==> RowChanged(db.rows[id], d.rows[id], vals))
    && forall other :: other in db.rows && other != id ==>
         if db.rows[other].table == Ownerships && At(db.rows[other], PassportRef) == Num(id) then
           RowChanged(db.rows[other], d.rows[other], map[IsActive := Flag(false)])
         else d.rows[other] == db.rows[other]
  }

  ghost predicate ChallanSwept(db: Db, d: Db, action: Action, id: RowId, events: EventMap) {
    if action == ChallanPay then
      RowsSet(db, d, map[id := map[Status := St(Status.ChallanPaid), PaidAt := Date]])
    else if action == ChallanCancel then
      var byAdmin := Get(events, "ChallanCancelled").Some? && events["ChallanCancelled"].ChallanCancelled?
          && events["ChallanCancelled"].isAdminCancel;
      RowsSet(db, d, map[id := map[Status := St(Status.ChallanCancelled), CancelledAt := Date,
                                   IsAdminCancel := Flag(byAdmin)]])
    else
      match Get(events, "ChallanIssued")
      case Some(ChallanIssued(challanId, ownTid, _, _)) =>
        RowsSet(db, d, map[id := map[OnChainId := Num(challanId), OwnTid := Num(ownTid), Status := St(ChallanPending)]])
      case _ => SameRows(db, d)
  }

  ghost predicate PolicySwept(db: Db, d: Db, action: Action, id: RowId, events: EventMap) {
    if action == InsuranceExpire then
      RowsSet(db, d, map[id := map[Status := St(Status.PolicyExpired)]])
    else if action == InsuranceIssue then
      match Get(events, "PolicyIssued")
      case Some(PolicyIssued(polId, _, _)) =>
        RowsSet(db, d, map[id := map[OnChainId := Num(polId), Status := St(PolicyActive)]])
      case _ => SameRows(db, d)
    else
      match Get(events, "ClaimFiled")
      case Some(ClaimFiled(_, claimNum)) => RowsSet(db, d, map[id := map[ClaimCount := Num(claimNum)]])
      case _ => SameRows(db, d)
  }

  ghost predicate PucSwept(db: Db, d: Db, action: Action, id: RowId, events: EventMap) {
    if action == PucExpire then
      RowsSet(db, d, map[id := map[Status := St(Status.PucExpired)]])
    else
      match Get(events, "PUCIssued")
      case Some(PucIssued(certId, ownTid, passed)) =>
        RowsSet(db, d, map[id := map[OnChainId := Num(certId), OwnTid := Num(ownTid), Passed := Flag(passed),
                                     Status := St(PucValid), ExpiryDate := Date]])
      case _ => SameRows(db, d)
  }

  /** A cleared loan has its dates, and its recipient when the certificate was minted. */
  function LoanVals(dir: Directory, action: Action, events: EventMap): Option<Data> {
    var dates: Data := map[Status := St(LoanCleared), ClearedAt := Date, Col.NocIssued := Flag(true), NocDate := Date];
    if action == LoanRefinance then
      if "LoanRefinanced" in events then Some(dates) else None
    else if action == LoanClear then
      match Get(events, "NOCMinted")
      case Some(NocMinted(_, owner)) =>
        var recipient: Data := map[NocRecipientWallet := Text(Lower(owner)),
                                   NocRecipientUser := OrNull(UserOf(dir, Lower(owner)))];
        Some(if "NOCIssued" in events then dates + recipient else recipient)
      case _ => if "NOCIssued" in events then Some(dates) else None
    else
      match Get(events, "LoanReg")
      case Some(LoanReg(loanId, _, _, borrower, _)) =>
        Some(map[OnChainId := Num(loanId), Status := St(LoanActive),
                 BorrowerUser := OrNull(UserOf(dir, Lower(borrower)))])
      case _ => None
  }

  ghost predicate LoanSwept(db: Db, d: Db, dir: Directory, action: Action, id: RowId, events: EventMap) {
    if action == LoanCancelPending then d.next == db.next && d.rows == db.rows - {id}
    else
      var vals := LoanVals(dir, action, events);
      if vals.Some? then RowsSet(db, d, map[id := vals.value]) else SameRows(db, d)
  }

  ghost predicate Swept(db: Db, d: Db, dir: Directory, action: Action, id: RowId, events: EventMap) {
    match TableOf(action)
    case Transfers => TransferSwept(db, d, dir, action, id, events)
    case Passports => VehicleSwept(db, d, dir, action, id, events)
    case TradeCerts => RowsSet(db, d, map[id := map[IsActive := Flag(false)]])
    case Challans => ChallanSwept(db, d, action, id, events)
    case Policies => PolicySwept(db, d, action, id, events)
    case Pucs => PucSwept(db, d, action, id, events)
    case Loans => LoanSwept(db, d, dir, action, id, events)
    case Ownerships => SameRows(db, d)
  }

  // ── The sweep leaves that ──

  lemma OneRow(db: Db, dir: Directory, action: Action, id: RowId, events: EventMap, d: Db, data: Data)
    requires Business(db, dir, action, id, events) == Some(d) && RowData(dir, action, events) == Some(data)
    requires action !in {LoanCancelPending, VehicleScrap} && Completes(action, events).None?
    ensures RowsSet(db, d, map[id := data])
  {
    hide RowData, Completes, Update;
    UpdateSets(db, id, data);
  }

  lemma NoRow(db: Db, dir: Directory, action: Action, id: RowId, events: EventMap, d: Db)
    requires Business(db, dir, action, id, events) == Some(d) && RowData(dir, action, events).None?
    requires action != LoanCancelPending
    ensures d == db
  {
    hide RowData;
  }

  lemma DoneIsDone(events: EventMap)
    requires Named(events) && "XferDone" in events
    ensures events["XferDone"].XferDone?
  {
    assert NameOf(events["XferDone"]) == "XferDone";
  }

  lemma TransferRows(db: Db, dir: Directory, action: Action, id: RowId, events: EventMap, d: Db)
    requires Named(events) && TableOf(action) == Transfers && Business(db, dir, action, id, events) == Some(d)
    ensures TransferSwept(db, d, dir, action, id, events)
  {
    hide Business, RowsSet, Named, TransferCompleted;
    var data := RowData(dir, action, events);
    if "XferDone" in events { DoneIsDone(events); }
    if Completes(action, events).Some? {
      CompletedRows(db, dir, action, id, events, Completes(action, events).value, d);
    } else if data.Some? {
      OneRow(db, dir, action, id, events, d, data.value);
    } else {
      NoRow(db, dir, action, id, events, d);
    }
  }

  lemma CompletedRows(db: Db, dir: Directory, action: Action, id: RowId, events: EventMap, newOwner: string, d: Db)
    requires Completes(action, events) == Some(newOwner) && Business(db, dir, action, id, events) == Some(d)
    ensures TransferCompleted(db, d, dir, action, id, newOwner)
  {
    hide RowsSet, Update, PassOn;
    var data := map[if action == TransferApproveBuyer then BuyerOk else RtoOk := Flag(true),
                    Status := St(TransferRtoApproved), CompletedDate := Date];
    assert RowData(dir, action, events) == Some(data);
    CompletedUpdates(db, Update(db, id, data), dir, id, data, newOwner, d);
  }

  lemma CompletedUpdates(db: Db, mid: Db, dir: Directory, id: RowId, data: Data, newOwner: string, d: Db)
    requires OnChainId !in data && OwnershipRef !in data && TransferCount !in data
    requires id in db.rows && mid == Update(db, id, data) && id in mid.rows && PassOn(mid, dir, id, newOwner) == Some(d)
    ensures var ref := At(db.rows[id], OwnershipRef);
            && ref.Num? && ref.n >= 0 && ref.n in db.rows && At(db.rows[ref.n], TransferCount).Num?
            && (db.rows[ref.n].table != db.rows[id].table ==>
                  RowsSet(db, d,
                          map[id := data, ref.n := NewOwner(dir, newOwner, At(db.rows[ref.n], TransferCount).n)]))
  {
    UpdateSets(db, id, data);
    assert mid.rows.Keys == db.rows.Keys;
    hide RowsSet, Update;
    ColumnStays(db, mid, id, data, id, OwnershipRef);
    var n := At(db.rows[id], OwnershipRef).n;
    ColumnStays(db, mid, id, data, n, TransferCount);
    var more := NewOwner(dir, newOwner, At(mid.rows[n], TransferCount).n);
    UpdateSets(mid, n, more);
    assert d == Update(mid, n, more);
    if n != id { SetTwo(db, mid, d, id, data, n, more); }
  }

  /** A completed approval throws exactly when its request, or the ownership row of the request, is missing. */
  lemma CompletesExactly(db: Db, dir: Directory, h: Hash, tx: Tx, block: nat, events: EventMap, newOwner: string)
    requires h in db.txs && tx.target.Some? && Completes(tx.action, events) == Some(newOwner)
    ensures RollForward(db, dir, h, tx, block, events).Some? <==>
            && tx.target.value in db.rows
            && var ref := At(db.rows[tx.target.value], OwnershipRef);
               ref.Num? && ref.n >= 0 && ref.n in db.rows && At(db.rows[ref.n], TransferCount).Num?
  {
    var id, d := tx.target.value, db.(txs := db.txs[h := db.txs[h].(sync := Mined, block := Some(block))]);
    if id in db.rows {
      BusinessPasses(d, dir, tx.action, id, events, newOwner);
      PassesExactly(d, dir, id, RowData(dir, tx.action, events).value, newOwner);
      hide Business, PassOn, RowData;
    }
  }

  lemma BusinessPasses(db: Db, dir: Directory, action: Action, id: RowId, events: EventMap, newOwner: string)
    requires Completes(action, events) == Some(newOwner) && id in db.rows
    ensures var data := RowData(dir, action, events);
            && data.Some? && OwnershipRef !in data.value && TransferCount !in data.value
            && id in Update(db, id, data.value).rows
            && Business(db, dir, action, id, events) == PassOn(Update(db, id, data.value), dir, id, newOwner)
  {
    hide PassOn, Write;
  }

  lemma PassesExactly(db: Db, dir: Directory, id: RowId, data: Data, newOwner: string)
    requires id in db.rows && OwnershipRef !in data && TransferCount !in data && id in Update(db, id, data).rows
    ensures PassOn(Update(db, id, data), dir, id, newOwner).Some? <==>
            var ref := At(db.rows[id], OwnershipRef);
            ref.Num? && ref.n >= 0 && ref.n in db.rows && At(db.rows[ref.n], TransferCount).Num?
  {
    var mid, ref := Update(db, id, data), At(db.rows[id], OwnershipRef);
    UpdateSets(db, id, data);
    assert mid.rows.Keys == db.rows.Keys;
    hide RowsSet, Update;
    ColumnStays(db, mid, id, data, id, OwnershipRef);
    if ref.Num? && ref.n >= 0 && ref.n in db.rows { ColumnStays(db, mid, id, data, ref.n, TransferCount); }
  }

  lemma VehicleRows(db: Db, dir: Directory, action: Action, id: RowId, events: EventMap, d: Db)
    requires TableOf(action) == Passports && Business(db, dir, action, id, events) == Some(d)
    ensures VehicleSwept(db, d, dir, action, id, events)
  {
    hide Business, RowsSet, RowGone;
    var data := RowData(dir, action, events);
    if data.None? {
      NoRow(db, dir, action, id, events, d);
    } else if action == VehicleScrap {
      Scrapped(db, dir, id, events, d, data.value);
      GoneRows(db, id, data.value);
    } else {
      OneRow(db, dir, action, id, events, d, data.value);
    }
  }

  lemma GoneRows(db: Db, id: RowId, data: Data)
    requires id in db.rows
    ensures RowGone(db, Deactivate(Update(db, id, data), id), id, data)
  {
    var mid := Update(db, id, data);
    UpdateSets(db, id, data);
    assert RowChanged(db.rows[id], mid.rows[id], data);
    DeactivatedRows(mid, id);
    assert mid.rows.Keys == db.rows.Keys && mid.next == db.next;
    assert forall other :: other in db.rows && other != id ==> mid.rows[other] == db.rows[other];
    hide Deactivate, Update, RowChanged, RowsSet;
  }

  lemma Scrapped(db: Db, dir: Directory, id: RowId, events: EventMap, d: Db, data: Data)
    requires Business(db, dir, VehicleScrap, id, events) == Some(d) && RowData(dir, VehicleScrap, events) == Some(data)
    requires OnChainId !in data
    ensures id in db.rows && d == Deactivate(Update(db, id, data), id)
  {
    hide RowData, Update, Deactivate;
  }

  lemma DeactivatedRows(db: Db, id: RowId)
    ensures var d := Deactivate(db, id);
            && d.next == db.next && d.rows.Keys == db.rows.Keys
            && forall other :: other in db.rows ==>
                 if IsOwnershipOf(db.rows[other], id) then
                   RowChanged(db.rows[other], d.rows[other], map[IsActive := Flag(false)])
                 else d.rows[other] == db.rows[other]
  {
  }

  lemma ChallanRows(db: Db, dir: Directory, action: Action, id: RowId, events: EventMap, d: Db)
    requires TableOf(action) == Challans && Business(db, dir, action, id, events) == Some(d)
    ensures ChallanSwept(db, d, action, id, events)
  {
    hide Business, RowsSet;
    var data := RowData(dir, action, events);
    if data.Some? { OneRow(db, dir, action, id, events, d, data.value); } else {
      NoRow(db, dir, action, id, events, d);
    }
  }

  lemma PolicyRows(db: Db, dir: Directory, action: Action, id: RowId, events: EventMap, d: Db)
    requires TableOf(action) == Policies && Business(db, dir, action, id, events) == Some(d)
    ensures PolicySwept(db, d, action, id, events)
  {
    hide Business, RowsSet;
    var data := RowData(dir, action, events);
    if data.Some? { OneRow(db, dir, action, id, events, d, data.value); } else {
      NoRow(db, dir, action, id, events, d);
    }
  }

  lemma PucRows(db: Db, dir: Directory, action: Action, id: RowId, events: EventMap, d: Db)
    requires TableOf(action) == Pucs && Business(db, dir, action, id, events) == Some(d)
    ensures PucSwept(db, d, action, id, events)
  {
    hide Business, RowsSet;
    var data := RowData(dir, action, events);
    if data.Some? { OneRow(db, dir, action, id, events, d, data.value); } else {
      NoRow(db, dir, action, id, events, d);
    }
  }

  lemma CertRows(db: Db, dir: Directory, action: Action, id: RowId, events: EventMap, d: Db)
    requires TableOf(action) == TradeCerts && Business(db, dir, action, id, events) == Some(d)
    ensures RowsSet(db, d, map[id := map[IsActive := Flag(false)]])
  {
    hide Business, RowsSet;
    var data := RowData(dir, action, events);
    if data.Some? { OneRow(db, dir, action, id, events, d, data.value); } else {
      NoRow(db, dir, action, id, events, d);
    }
  }

  lemma LoanRows(db: Db, dir: Directory, action: Action, id: RowId, events: EventMap, d: Db)
    requires TableOf(action) == Loans && Business(db, dir, action, id, events) == Some(d)
    ensures LoanSwept(db, d, dir, action, id, events)
  {
    hide RowsSet, Business, RowData;
    if action == LoanCancelPending {
      WithdrawnRows(db, dir, id, events, d);
    } else {
      var data := RowData(dir, action, events);
      LoanColumns(dir, action, events);
      if data.Some? { OneRow(db, dir, action, id, events, d, data.value); } else {
        NoRow(db, dir, action, id, events, d);
      }
    }
  }

  lemma LoanColumns(dir: Directory, action: Action, events: EventMap)
    requires TableOf(action) == Loans && action != LoanCancelPending
    ensures RowData(dir, action, events) == LoanVals(dir, action, events)
  {
  }

  lemma WithdrawnRows(db: Db, dir: Directory, id: RowId, events: EventMap, d: Db)
    requires Business(db, dir, LoanCancelPending, id, events) == Some(d)
    ensures d.next == db.next && d.rows == db.rows - {id}
  {
  }

  lemma BusinessRows(db: Db, dir: Directory, action: Action, id: RowId, events: EventMap, d: Db)
    requires Named(events) && Business(db, dir, action, id, events) == Some(d)
    ensures Swept(db, d, dir, action, id, events)
  {
    hide Business, TransferSwept, VehicleSwept, LoanSwept;
    match TableOf(action)
    case Transfers => TransferRows(db, dir, action, id, events, d);
    case Passports => VehicleRows(db, dir, action, id, events, d);
    case Loans => LoanRows(db, dir, action, id, events, d);
    case Challans => ChallanRows(db, dir, action, id, events, d);
    case Policies => PolicyRows(db, dir, action, id, events, d);
    case Pucs => PucRows(db, dir, action, id, events, d);
    case TradeCerts => CertRows(db, dir, action, id, events, d);
    case Ownerships =>
  }

  lemma ChangesSame(db: Db, work: Db, d: Db, changes: map<RowId, Data>)
    requires SameRows(db, work)
    ensures RowsSet(work, d, changes) == RowsSet(db, d, changes)
  {
    hide RowChanged;
  }

  lemma AllSame(db: Db, work: Db, d: Db)
    requires SameRows(db, work)
    ensures forall changes: map<RowId, Data> :: RowsSet(work, d, changes) == RowsSet(db, d, changes)
  {
    forall changes: map<RowId, Data> ensures RowsSet(work, d, changes) == RowsSet(db, d, changes) {
      ChangesSame(db, work, d, changes);
    }
  }

  lemma TransferSame(db: Db, work: Db, d: Db, dir: Directory, action: Action, id: RowId, events: EventMap)
    requires SameRows(db, work)
    ensures TransferSwept(work, d, dir, action, id, events) == TransferSwept(db, d, dir, action, id, events)
  {
    AllSame(db, work, d);
    hide RowsSet;
  }

  lemma VehicleSame(db: Db, work: Db, d: Db, dir: Directory, action: Action, id: RowId, events: EventMap)
    requires SameRows(db, work)
    ensures VehicleSwept(work, d, dir, action, id, events) == VehicleSwept(db, d, dir, action, id, events)
  {
    AllSame(db, work, d);
    hide RowsSet, RowChanged;
  }

  lemma ChallanSame(db: Db, work: Db, d: Db, dir: Directory, action: Action, id: RowId, events: EventMap)
    requires SameRows(db, work)
    ensures ChallanSwept(work, d, action, id, events) == ChallanSwept(db, d, action, id, events)
  {
    AllSame(db, work, d);
    hide RowsSet;
  }

  lemma PolicySame(db: Db, work: Db, d: Db, dir: Directory, action: Action, id: RowId, events: EventMap)
    requires SameRows(db, work)
    ensures PolicySwept(work, d, action, id, events) == PolicySwept(db, d, action, id, events)
  {
    AllSame(db, work, d);
    hide RowsSet;
  }

  lemma PucSame(db: Db, work: Db, d: Db, dir: Directory, action: Action, id: RowId, events: EventMap)
    requires SameRows(db, work)
    ensures PucSwept(work, d, action, id, events) == PucSwept(db, d, action, id, events)
  {
    AllSame(db, work, d);
    hide RowsSet;
  }

  lemma LoanSame(db: Db, work: Db, d: Db, dir: Directory, action: Action, id: RowId, events: EventMap)
    requires SameRows(db, work)
    ensures LoanSwept(work, d, dir, action, id, events) == LoanSwept(db, d, dir, action, id, events)
  {
    AllSame(db, work, d);
    hide RowsSet;
  }

  /** What a sweep leaves is about rows only. */
  lemma SweptSame(db: Db, work: Db, d: Db, dir: Directory, action: Action, id: RowId, events: EventMap)
    requires SameRows(db, work) && Swept(work, d, dir, action, id, events)
    ensures Swept(db, d, dir, action, id, events)
  {
    hide TransferSwept, VehicleSwept, ChallanSwept, PolicySwept, PucSwept, LoanSwept, RowsSet;
    match TableOf(action)
    case Transfers => TransferSame(db, work, d, dir, action, id, events);
    case Passports => VehicleSame(db, work, d, dir, action, id, events);
    case TradeCerts => ChangesSame(db, work, d, map[id := map[IsActive := Flag(false)]]);
    case Challans => ChallanSame(db, work, d, dir, action, id, events);
    case Policies => PolicySame(db, work, d, dir, action, id, events);
    case Pucs => PucSame(db, work, d, dir, action, id, events);
    case Loans => LoanSame(db, work, d, dir, action, id, events);
    case Ownerships =>
  }

  lemma RollForwardRows(db: Db, dir: Directory, h: Hash, tx: Tx, block: nat, events: EventMap, d: Db)
    requires Named(events) && tx.target.Some? && RollForward(db, dir, h, tx, block, events) == Some(d)
    ensures h in db.txs && Swept(db, d, dir, tx.action, tx.target.value, events)
    ensures tx.action != LoanCancelPending ==>
              TxRecorded(db, d, h, db.txs[h].(sync := Mined, block := Some(block)))
  {
    hide Business, Swept;
    var work := db.(txs := db.txs[h := db.txs[h].(sync := Mined, block := Some(block))]);
    BusinessRows(work, dir, tx.action, tx.target.value, events, d);
    SweptSame(db, work, d, dir, tx.action, tx.target.value, events);
    if tx.action != LoanCancelPending { BusinessTracks(work, dir, tx.action, tx.target.value, events, d); }
  }

  lemma BusinessTracks(db: Db, dir: Directory, action: Action, id: RowId, events: EventMap, d: Db)
    requires Business(db, dir, action, id, events) == Some(d) && action != LoanCancelPending
    ensures d.txs == db.txs
  {
    hide RowData, Completes;
  }
}

/** The indexer's event handlers: what each of them writes, stated as one effect on the database. */
module Indexer {
  import opened Tables
  import opened Chain

  datatype Effect =
    | NoWrite
    | WriteRow(id: RowId, data: Data)
    | CreateRow(table: Table, data: Data)
    | RemoveRows(ids: set<RowId>)
    | Rejected  // a unique constraint or a foreign key fails: the handler stops and its catch block swallows the error

  /** How an event finds its row: `Amend` updates an existing row by on-chain id, `Make` creates or promotes one,
      `Withdraw` deletes pending loans, `Notice` writes no business row. */
  datatype Kind = Amend(table: Table, x: nat) | Make(table: Table, x: nat) | Withdraw | Notice

  function KindOf(ev: Event): Kind {
    match ev
    case VehicleReg(ownTid, _, _, _) => Make(Ownerships, ownTid)
    case XferInit(reqId, _, _, _) => Make(Transfers, reqId)
    case XferCancelled(reqId) => Amend(Transfers, reqId)
    case XferApproved(reqId, _) => Amend(Transfers, reqId)
    case XferDone(_, ownTid, _) => Amend(Ownerships, ownTid)
    case ChallanIssued(challanId, _, _, _) => Make(Challans, challanId)
    case ChallanPaid(challanId) => Amend(Challans, challanId)
    case ChallanCancelled(challanId, _) => Amend(Challans, challanId)
    case PolicyIssued(polId, _, _) => Make(Policies, polId)
    case PolicyExpired(polId) => Amend(Policies, polId)
    case ClaimFiled(polId, _) => Amend(Policies, polId)
    case PucIssued(certId, _, _) => Make(Pucs, certId)
    case PucExpired(certId) => Amend(Pucs, certId)
    case LoanReg(loanId, _, _, _, _) => Make(Loans, loanId)
    case NocIssued(loanId) => Amend(Loans, loanId)
    case NocMinted(loanId, _) => Amend(Loans, loanId)
    case LoanRefinanced(oldLoanId, _) => Amend(Loans, oldLoanId)
    case PendingLoanAttached(_, _) => Notice
    case PendingLoanCancelled(_, _) => Withdraw
    case VehicleMfg(_) | VehicleScrapped(_, _) | VehicleAssignedToDealer(_, _) => Notice
  }

  function TxOf(db: Db, h: Hash): Option<Tx> {
    if h in db.txs then Some(db.txs[h]) else None
  }

  function MemberOf(tx: Option<Tx>): Option<nat> {
    if tx.Some? then tx.value.member else None
  }

  /** `data` of the update an `Amend` event makes. */
  function AmendData(dir: Directory, tx: Option<Tx>, ev: Event): Data
    requires KindOf(ev).Amend?
  {
    match ev
    case XferCancelled(_) => map[Status := St(TransferCancelled)]
    case XferApproved(_, approver) =>
      if approver == 1 then map[Status := St(TransferBuyerAccepted)]
      else if approver == 2 then
        if MemberOf(tx).Some?
        then map[Status := St(TransferRtoApproved), RtoApprover := Num(MemberOf(tx).value)]
        else map[Status := St(TransferRtoApproved)]
      else map[Status := St(TransferPending)]
    case XferDone(_, _, newOwner) =>
      map[OwnerWallet := Text(Lower(newOwner)), OwnerUser := OrNull(UserOf(dir, Lower(newOwner)))]
    case ChallanPaid(_) => map[Status := St(Status.ChallanPaid), PaidAt := Date]
    case ChallanCancelled(_, isAdminCancel) =>
      map[Status := St(Status.ChallanCancelled), CancelledAt := Date, CancelledBy := OrNull(MemberOf(tx)),
          IsAdminCancel := Flag(isAdminCancel)]
    case PolicyExpired(_) => map[Status := St(Status.PolicyExpired)]
    case ClaimFiled(_, claimNum) => map[ClaimCount := Num(claimNum)]
    case PucExpired(_) => map[Status := St(Status.PucExpired)]
    case NocIssued(_) | LoanRefinanced(_, _) =>
      map[Status := St(LoanCleared), ClearedAt := Date, Col.NocIssued := Flag(true), NocDate := Date]
    case NocMinted(_, owner) =>
      map[NocRecipientWallet := Text(Lower(owner)), NocRecipientUser := OrNull(UserOf(dir, Lower(owner)))]
  }

  /** `update` of the upsert a `Make` event makes when the on-chain id is already known. An undefined user leaves the
      column alone in `VehicleReg`, but nulls it in `LoanReg`. */
  function UpsertData(dir: Directory, ev: Event): Data
    requires KindOf(ev).Make?
  {
    match ev
    case VehicleReg(_, owner, _, _) =>
      if UserOf(dir, Lower(owner)).Some?
      then map[OwnerWallet := Text(Lower(owner)), OwnerUser := Num(UserOf(dir, Lower(owner)).value)]
      else map[OwnerWallet := Text(Lower(owner))]
    case XferInit(_, _, _, _) => map[Status := St(TransferPending)]
    case ChallanIssued(challanId, ownTid, _, _) =>
      map[OnChainId := Num(challanId), OwnTid := Num(ownTid), Status := St(ChallanPending)]
    case PolicyIssued(_, _, _) => map[Status := St(PolicyActive)]
    case PucIssued(_, _, _) => map[Status := St(PucValid)]
    case LoanReg(loanId, _, _, borrower, _) =>
      map[OnChainId := Num(loanId), Status := St(LoanActive), BorrowerUser := OrNull(UserOf(dir, Lower(borrower)))]
  }

  /** `data` of the update of the row the service created before it submitted the transaction. */
  ghost function PromoteData(db: Db, dir: Directory, ev: Event): Data
    requires KindOf(ev).Make?
  {
    match ev
    case PolicyIssued(polId, ownTid, _) =>
      map[OnChainId := Num(polId), Status := St(PolicyActive), OwnerUser := OwnerColumn(db, ownTid, OwnerUser),
          IssueDate := Date]
    case PucIssued(certId, ownTid, _) =>
      map[OnChainId := Num(certId), Status := St(PucValid), OwnerUser := OwnerColumn(db, ownTid, OwnerUser),
          IssueDate := Date]
    case _ => UpsertData(dir, ev)
  }

  /** A column of the ownership row with the given ownTid. */
  ghost function OwnerColumn(db: Db, ownTid: nat, c: Col): Val {
    match Find(db, Ownerships, ownTid)
    case None => Null
    case Some(id) => At(db.rows[id], c)
  }

  /** `create` of the upsert a `Make` event makes when neither a linked row nor the on-chain id exists. */
  ghost function CreateData(db: Db, dir: Directory, tx: Option<Tx>, ev: Event): Data
    requires KindOf(ev).Make?
  {
    CreateOnly(db, dir, tx, ev) + UpsertData(dir, ev)
  }

  /** The fields of `create` beside those it shares with `update`. */
  ghost function CreateOnly(db: Db, dir: Directory, tx: Option<Tx>, ev: Event): Data
    requires KindOf(ev).Make?
  {
    var member := OrNull(MemberOf(tx));
    match ev
    case VehicleReg(ownTid, owner, rtoId, dvpId) =>
      map[OnChainId := Num(ownTid), PassportRef := Ref(Find(db, Passports, dvpId)),
          EntityRef := OrNull(EntityOf(dir, rtoId)),
          OwnerUser := OrNull(UserOf(dir, Lower(owner))), RegisteredBy := member,
          TransferCount := Num(0), IsActive := Flag(true)]
    case XferInit(reqId, ownTid, seller, buyer) =>
      map[OnChainId := Num(reqId), OwnershipRef := Ref(Find(db, Ownerships, ownTid)),
          SellerWallet := Text(Lower(seller)), SellerUser := OrNull(UserOf(dir, Lower(seller))),
          BuyerWallet := Text(Lower(buyer)), BuyerUser := OrNull(UserOf(dir, Lower(buyer)))]
    case ChallanIssued(challanId, ownTid, policeId, amount) =>
      map[OwnershipRef := Ref(Find(db, Ownerships, ownTid)), EntityRef := OrNull(EntityOf(dir, policeId)),
          Amount := Num(amount), IssuedAt := Date,
          OwnerUser := OwnerColumn(db, ownTid, OwnerUser), CreatedBy := member]
    case PolicyIssued(polId, ownTid, compId) =>
      map[OnChainId := Num(polId), OwnershipRef := Ref(Find(db, Ownerships, ownTid)),
          EntityRef := OrNull(EntityOf(dir, compId)),
          ExpiryDate := Date, IssueDate := Date, ClaimCount := Num(0),
          OwnerUser := OwnerColumn(db, ownTid, OwnerUser), OwnerWallet := OwnerColumn(db, ownTid, OwnerWallet),
          CreatedBy := member]
    case PucIssued(certId, ownTid, passed) =>
      map[OnChainId := Num(certId), OwnershipRef := Ref(Find(db, Ownerships, ownTid)),
          EntityRef := (if tx.Some? then OrNull(tx.value.entity) else Null), ExpiryDate := Date, IssueDate := Date,
          Passed := Flag(passed), OwnerUser := OwnerColumn(db, ownTid, OwnerUser),
          OwnerWallet := OwnerColumn(db, ownTid, OwnerWallet),
          CreatedBy := member]
    case LoanReg(loanId, dvpId, bankId, borrower, amount) =>
      map[PassportRef := Ref(Find(db, Passports, dvpId)), EntityRef := OrNull(EntityOf(dir, bankId)),
          BorrowerWallet := Text(Lower(borrower)), Amount := Num(amount), Col.NocIssued := Flag(false),
          CreatedBy := member]
  }

  function Ref(id: Option<RowId>): Val {
    OrNull(id)
  }

  /** The handler's outer `if`: without these rows a `Make` event writes no business row. */
  ghost predicate Parents(db: Db, dir: Directory, tx: Option<Tx>, ev: Event)
    requires KindOf(ev).Make?
  {
    match ev
    case VehicleReg(_, _, _, dvpId) => Find(db, Passports, dvpId).Some?
    case XferInit(_, ownTid, _, _) => Find(db, Ownerships, ownTid).Some?
    case ChallanIssued(_, ownTid, policeId, _) => Find(db, Ownerships, ownTid).Some? && EntityOf(dir, policeId).Some?
    case PolicyIssued(_, ownTid, compId) => Find(db, Ownerships, ownTid).Some? && EntityOf(dir, compId).Some?
    case PucIssued(_, ownTid, _) => Find(db, Ownerships, ownTid).Some? && tx.Some? && tx.value.entity.Some?
    case LoanReg(_, dvpId, bankId, _, _) => Find(db, Passports, dvpId).Some? && EntityOf(dir, bankId).Some?
  }

  /** The row the tracking transaction says the service created for this event. Challans accept any challan
      transaction; the other tables insist on the creating action; transfers and ownerships have no such path. */
  function Linked(tx: Option<Tx>, ev: Event): Option<RowId>
    requires KindOf(ev).Make?
  {
    if tx.None? then None else
    match ev
    case ChallanIssued(_, _, _, _) => if TableOf(tx.value.action) == Challans then tx.value.target else None
    case PolicyIssued(_, _, _) => if tx.value.action == InsuranceIssue then tx.value.target else None
    case PucIssued(_, _, _) => if tx.value.action == PucIssue then tx.value.target else None
    case LoanReg(_, _, _, _, _) => if tx.value.action == Action.LoanReg then tx.value.target else None
    case _ => None
  }

  /** The loans `handlePendingLoanCancelled` deletes. */
  ghost function Withdrawn(db: Db, dir: Directory, dvpId: nat, bankId: nat): set<RowId> {
    set id | id in db.rows && IsWithdrawn(db, dir, dvpId, bankId, id)
  }

  /** `lenderEntity: { onChainId }`. */
  predicate LentBy(dir: Directory, row: Row, bankId: nat) {
    var lender := At(row, EntityRef);
    lender.Num? && lender.n >= 0 && lender.n in dir.chainIds && dir.chainIds[lender.n] == bankId
  }

  ghost predicate IsWithdrawn(db: Db, dir: Directory, dvpId: nat, bankId: nat, id: RowId)
    requires id in db.rows
  {
    && db.rows[id].table == Loans
    && At(db.rows[id], Status) == St(LoanPending)
    && Find(db, Passports, dvpId).Some? && At(db.rows[id], PassportRef) == Num(Find(db, Passports, dvpId).value)
    && LentBy(dir, db.rows[id], bankId)
  }

  ghost function EffectOf(db: Db, dir: Directory, log: Log): Effect {
    var tx := TxOf(db, log.hash);
    match KindOf(log.event)
    case Notice => NoWrite
    case Withdraw => RemoveRows(Withdrawn(db, dir, log.event.dvpId, log.event.bankId))
    case Amend(table, x) =>
      var found := Find(db, table, x);
      if found.Some? then WriteRow(found.value, AmendData(dir, tx, log.event)) else NoWrite
    case Make(table, x) => MakeEffect(db, dir, tx, log.event)
  }

  ghost function MakeEffect(db: Db, dir: Directory, tx: Option<Tx>, ev: Event): Effect
    requires KindOf(ev).Make?
  {
    var found := Find(db, KindOf(ev).table, KindOf(ev).x);
    var link := Linked(tx, ev);
    if !Parents(db, dir, tx, ev) then NoWrite
    else if link.Some? && link.value in db.rows then
      if found.Some? && found.value != link.value then Rejected else WriteRow(link.value, PromoteData(db, dir, ev))
    else if found.Some? then WriteRow(found.value, UpsertData(dir, ev))
    else if Unregistrable(dir, ev) then Rejected
    else CreateRow(KindOf(ev).table, CreateData(db, dir, tx, ev))
  }

  /** An ownership needs its RTO: for an unknown one the foreign key refuses the row. */
  predicate Unregistrable(dir: Directory, ev: Event) {
    ev.VehicleReg? && EntityOf(dir, ev.rtoId).None?
  }

  /** `handleVehicleReg` also activates the passport. */
  ghost function SecondEffect(db: Db, log: Log): Effect {
    if log.event.VehicleReg? && Find(db, Passports, log.event.dvpId).Some?
    then WriteRow(Find(db, Passports, log.event.dvpId).value, map[Status := St(VehicleActive)])
    else NoWrite
  }

  function Perform(db: Db, e: Effect): Db {
    match e
    case NoWrite | Rejected => db
    case WriteRow(id, data) => if id in db.rows then Update(db, id, data) else db
    case CreateRow(table, data) => Insert(db, table, data)
    case RemoveRows(ids) => DeleteAll(db, ids)
  }

  /** The default action passed to `finalizeTx`, or none for the handlers that do not call it. */
  function FinalAction(tx: Option<Tx>, ev: Event): Option<Action> {
    match ev
    case VehicleReg(_, _, _, _) => Some(VehicleRegisterRto)
    case XferInit(_, _, _, _) => Some(TransferInit)
    case XferCancelled(_) => Some(TransferCancel)
    case XferApproved(_, approver) => Some(if approver == 2 then TransferApproveRto else TransferApproveBuyer)
    case ChallanIssued(_, _, _, _) => Some(ChallanIssue)
    case ChallanPaid(_) => Some(ChallanPay)
    case ChallanCancelled(_, _) => Some(ChallanCancel)
    case PolicyIssued(_, _, _) => Some(InsuranceIssue)
    case PolicyExpired(_) => Some(InsuranceExpire)
    case ClaimFiled(_, _) => Some(InsuranceClaim)
    case PucIssued(_, _, _) => Some(PucIssue)
    case PucExpired(_) => Some(PucExpire)
    case LoanReg(_, _, _, _, _) => if tx.None? || tx.value.action == Action.LoanReg then Some(Action.LoanReg) else None
    case NocIssued(_) => Some(LoanClear)
    case LoanRefinanced(_, _) => Some(LoanRefinance)
    case PendingLoanAttached(_, _) => Some(Action.LoanReg)
    case PendingLoanCancelled(_, _) => Some(LoanCancelPending)
    case _ => None
  }

  /** `finalizeTx`: marks the tracking row MINED, or creates an unlinked one. */
  function Finalize(db: Db, h: Hash, block: nat, action: Action): Db {
    var tx := if h in db.txs then db.txs[h].(sync := Mined, block := Some(block))
        else Tx(action, Mined, Some(block), None, None, None);
    db.(txs := db.txs[h := tx])
  }

  /** The end of a handler, given the tracking row it read at its start. */
  function Finish(db: Db, tx: Option<Tx>, log: Log): Db {
    var final := FinalAction(tx, log.event);
    if final.Some? then Finalize(db, log.hash, log.block, final.value) else db
  }

  /** One event handler. */
  ghost function Handle(db: Db, dir: Directory, log: Log): Db {
    Carry(db, EffectOf(db, dir, log), log)
  }

  ghost function Carry(db: Db, e: Effect, log: Log): Db {
    if e.Rejected? then db
    else Finish(Perform(Perform(db, e), SecondEffect(db, log)), TxOf(db, log.hash), log)
  }

  // ── What `Handle` comes to for each kind of event ──

  lemma AmendHandle(db: Db, dir: Directory, log: Log, table: Table, x: nat)
    requires KindOf(log.event) == Amend(table, x)
    ensures var found := Find(db, table, x);
            Handle(db, dir, log) ==
            Finish(if found.Some? then Update(db, found.value, AmendData(dir, TxOf(db, log.hash), log.event))
                   else db, TxOf(db, log.hash), log)
  {
    var e := EffectOf(db, dir, log);
    assert SecondEffect(db, log) == NoWrite;
  }

  lemma MakeHandle(db: Db, dir: Directory, log: Log)
    requires KindOf(log.event).Make? && !log.event.VehicleReg?
    ensures var e := MakeEffect(db, dir, TxOf(db, log.hash), log.event);
            Handle(db, dir, log) == if e.Rejected? then db else Finish(Perform(db, e), TxOf(db, log.hash), log)
  {
    assert EffectOf(db, dir, log) == MakeEffect(db, dir, TxOf(db, log.hash), log.event);
    assert SecondEffect(db, log) == NoWrite;
  }

  lemma RegHandle(db: Db, dir: Directory, log: Log)
    requires log.event.VehicleReg?
    ensures var passport, ownership := Find(db, Passports, log.event.dvpId), Find(db, Ownerships, log.event.ownTid);
            Handle(db, dir, log) ==
            if passport.Some? && ownership.None? && Unregistrable(dir, log.event) then db
            else Finalize(if passport.None? then db else WithOwnership(db, dir, log), log.hash, log.block,
                          VehicleRegisterRto)
  {
    hide Finalize, Insert, Update, UpsertData, CreateData;
    var tx, passport := TxOf(db, log.hash), Find(db, Passports, log.event.dvpId);
    assert Linked(tx, log.event).None?;
    assert EffectOf(db, dir, log) == MakeEffect(db, dir, tx, log.event);
    assert FinalAction(tx, log.event) == Some(VehicleRegisterRto);
    if passport.Some? { RegPerforms(db, dir, log); }
  }

  /** The ownership row and the active passport. */
  ghost function WithOwnership(db: Db, dir: Directory, log: Log): Db
    requires log.event.VehicleReg? && Find(db, Passports, log.event.dvpId).Some?
  {
    var passport, ownership := Find(db, Passports, log.event.dvpId).value, Find(db, Ownerships, log.event.ownTid);
    var written := if ownership.Some? then Update(db, ownership.value, UpsertData(dir, log.event))
                   else Insert(db, Ownerships, CreateData(db, dir, TxOf(db, log.hash), log.event));
    if passport in written.rows then Update(written, passport, map[Status := St(VehicleActive)]) else written
  }

  lemma RegPerforms(db: Db, dir: Directory, log: Log)
    requires log.event.VehicleReg? && Find(db, Passports, log.event.dvpId).Some?
    ensures var e := MakeEffect(db, dir, TxOf(db, log.hash), log.event);
            if Find(db, Ownerships, log.event.ownTid).None? && Unregistrable(dir, log.event) then e.Rejected?
            else !e.Rejected? && Perform(Perform(db, e), SecondEffect(db, log)) == WithOwnership(db, dir, log)
  {
    hide Insert, Update, UpsertData, CreateData;
    assert Linked(TxOf(db, log.hash), log.event).None?;
  }

  lemma NoticeHandle(db: Db, dir: Directory, log: Log)
    requires KindOf(log.event).Notice?
    ensures Handle(db, dir, log) == if log.event.PendingLoanAttached?
            then Finalize(db, log.hash, log.block, Action.LoanReg) else db
  {
    assert EffectOf(db, dir, log) == SecondEffect(db, log) == NoWrite;
  }

  lemma WithdrawHandle(db: Db, dir: Directory, log: Log)
    requires log.event.PendingLoanCancelled?
    ensures Handle(db, dir, log) ==
            Finalize(DeleteAll(db, Withdrawn(db, dir, log.event.dvpId, log.event.bankId)), log.hash, log.block,
                     LoanCancelPending)
  {
    assert EffectOf(db, dir, log) == RemoveRows(Withdrawn(db, dir, log.event.dvpId, log.event.bankId));
    assert SecondEffect(db, log) == NoWrite;
  }

  lemma XferCreateData(db: Db, dir: Directory, tx: Option<Tx>, reqId: nat, ownTid: nat, seller: string, buyer: string)
    ensures CreateData(db, dir, tx, XferInit(reqId, ownTid, seller, buyer)) ==
            map[OnChainId := Num(reqId), OwnershipRef := OrNull(Find(db, Ownerships, ownTid)),
                SellerWallet := Text(Lower(seller)), SellerUser := OrNull(UserOf(dir, Lower(seller))),
                BuyerWallet := Text(Lower(buyer)), BuyerUser := OrNull(UserOf(dir, Lower(buyer))),
                Status := St(TransferPending)]
  {
  }

  lemma RegCreateData(db: Db, dir: Directory, tx: Option<Tx>, ownTid: nat, owner: string, rtoId: nat, dvpId: nat)
    ensures CreateData(db, dir, tx, VehicleReg(ownTid, owner, rtoId, dvpId)) ==
            map[OnChainId := Num(ownTid), PassportRef := OrNull(Find(db, Passports, dvpId)),
                EntityRef := OrNull(EntityOf(dir, rtoId)),
                OwnerWallet := Text(Lower(owner)), OwnerUser := OrNull(UserOf(dir, Lower(owner))),
                RegisteredBy := OrNull(MemberOf(tx)), TransferCount := Num(0), IsActive := Flag(true)]
  {
    hide Find, EntityOf, UserOf, Lower, MemberOf;
  }

  lemma XferInitHandle(db: Db, dir: Directory, log: Log)
    requires log.event.XferInit?
    ensures var ownership, req := Find(db, Ownerships, log.event.ownTid), Find(db, Transfers, log.event.reqId);
            Handle(db, dir, log) ==
            Finalize(if ownership.None? then db
                     else if req.Some? then Update(db, req.value, map[Status := St(TransferPending)])
                     else Insert(db, Transfers, CreateData(db, dir, TxOf(db, log.hash), log.event)),
                     log.hash, log.block, TransferInit)
  {
    hide Insert, Update, Finalize, CreateData;
    MakeHandle(db, dir, log);
  }

  lemma LinkedEffect(db: Db, dir: Directory, tx: Option<Tx>, ev: Event, link: Option<RowId>)
    requires KindOf(ev).Make? && link == Linked(tx, ev)
    ensures var found := Find(db, KindOf(ev).table, KindOf(ev).x);
            MakeEffect(db, dir, tx, ev) ==
            if !Parents(db, dir, tx, ev) then NoWrite
            else if link.Some? && link.value in db.rows then
              if found.Some? && found.value != link.value then Rejected
                 else WriteRow(link.value, PromoteData(db, dir, ev))
            else if found.Some? then WriteRow(found.value, UpsertData(dir, ev))
            else if Unregistrable(dir, ev) then Rejected
            else CreateRow(KindOf(ev).table, CreateData(db, dir, tx, ev))
  {
    hide Find, Parents, Linked, PromoteData, UpsertData, CreateData;
  }

  lemma PucEffect(db: Db, dir: Directory, tx: Option<Tx>, certId: nat, ownTid: nat, passed: bool)
    ensures var own, found := Find(db, Ownerships, ownTid), Find(db, Pucs, certId);
            MakeEffect(db, dir, tx, PucIssued(certId, ownTid, passed)) ==
            if own.None? || tx.None? || tx.value.entity.None? then NoWrite
            else
              var owner, link := db.rows[own.value], if tx.value.action == Action.PucIssue then tx.value.target
                  else None;
              if link.Some? && link.value in db.rows then
                if found.Some? && found != link then Rejected
                else WriteRow(link.value, map[OnChainId := Num(certId), Status := St(PucValid),
                                              OwnerUser := At(owner, OwnerUser), IssueDate := Date])
              else if found.Some? then WriteRow(found.value, map[Status := St(PucValid)])
              else CreateRow(Pucs, map[OnChainId := Num(certId), OwnershipRef := Num(own.value),
                                       EntityRef := OrNull(tx.value.entity),
                                       ExpiryDate := Date, IssueDate := Date, Passed := Flag(passed),
                                       OwnerUser := At(owner, OwnerUser),
                                       OwnerWallet := At(owner, OwnerWallet), CreatedBy := OrNull(MemberOf(tx))] +
                                           map[Status := St(PucValid)])
  {
    hide Find, Lower;
  }

  lemma LoanEffect(db: Db, dir: Directory, tx: Option<Tx>, loanId: nat, dvpId: nat, bankId: nat, borrower: string,
                   amount: nat)
    ensures var passport, found, bank := Find(db, Passports, dvpId), Find(db, Loans, loanId), EntityOf(dir, bankId);
            var link := if tx.Some? && tx.value.action == Action.LoanReg then tx.value.target else None;
            var promoted := map[OnChainId := Num(loanId), Status := St(LoanActive),
                                BorrowerUser := OrNull(UserOf(dir, Lower(borrower)))];
            MakeEffect(db, dir, tx, Event.LoanReg(loanId, dvpId, bankId, borrower, amount)) ==
            if passport.None? || bank.None? then NoWrite
            else if link.Some? && link.value in db.rows then
              if found.Some? && found != link then Rejected else WriteRow(link.value, promoted)
            else if found.Some? then WriteRow(found.value, promoted)
            else CreateRow(Loans, map[PassportRef := Num(passport.value), EntityRef := Num(bank.value),
                                      BorrowerWallet := Text(Lower(borrower)),
                                      Amount := Num(amount), Col.NocIssued := Flag(false),
                                      CreatedBy := OrNull(MemberOf(tx))] + promoted)
  {
    hide Find, Lower;
  }

  lemma ChallanEffect(db: Db, dir: Directory, tx: Option<Tx>, challanId: nat, ownTid: nat, policeId: nat, amount: nat)
    ensures var own, found, police := Find(db, Ownerships, ownTid), Find(db, Challans, challanId),
            EntityOf(dir, policeId);
            var link := if tx.Some? && TableOf(tx.value.action) == Challans then tx.value.target else None;
            var numbers := map[OnChainId := Num(challanId), OwnTid := Num(ownTid), Status := St(ChallanPending)];
            MakeEffect(db, dir, tx, ChallanIssued(challanId, ownTid, policeId, amount)) ==
            if own.None? || police.None? then NoWrite
            else if link.Some? && link.value in db.rows then
              if found.Some? && found != link then Rejected else WriteRow(link.value, numbers)
            else if found.Some? then WriteRow(found.value, numbers)
            else CreateRow(Challans, map[OwnershipRef := Num(own.value), EntityRef := Num(police.value),
                                         Amount := Num(amount), IssuedAt := Date,
                                         OwnerUser := At(db.rows[own.value], OwnerUser),
                                         CreatedBy := OrNull(MemberOf(tx))] + numbers)
  {
    hide Find, Lower;
  }

  lemma PolicyEffect(db: Db, dir: Directory, tx: Option<Tx>, polId: nat, ownTid: nat, compId: nat)
    ensures var own, found, comp := Find(db, Ownerships, ownTid), Find(db, Policies, polId), EntityOf(dir, compId);
            MakeEffect(db, dir, tx, PolicyIssued(polId, ownTid, compId)) ==
            if own.None? || comp.None? then NoWrite
            else
              var owner, link := db.rows[own.value], if tx.Some?
                  && tx.value.action == InsuranceIssue then tx.value.target else None;
              if link.Some? && link.value in db.rows then
                if found.Some? && found != link then Rejected
                else WriteRow(link.value, map[OnChainId := Num(polId), Status := St(PolicyActive),
                                              OwnerUser := At(owner, OwnerUser), IssueDate := Date])
              else if found.Some? then WriteRow(found.value, map[Status := St(PolicyActive)])
              else CreateRow(Policies, map[OnChainId := Num(polId), OwnershipRef := Num(own.value),
                                           EntityRef := Num(comp.value),
                                           ExpiryDate := Date, IssueDate := Date, ClaimCount := Num(0),
                                           OwnerUser := At(owner, OwnerUser),
                                           OwnerWallet := At(owner, OwnerWallet), CreatedBy := OrNull(MemberOf(tx))] +
                                               map[Status := St(PolicyActive)])
  {
    hide Find, Lower;
  }

  /** Dispatching a sequence of logs. */
  ghost function Run(db: Db, dir: Directory, logs: seq<Log>): Db {
    if logs == [] then db else Handle(Run(db, dir, logs[..|logs| - 1]), dir, logs[|logs| - 1])
  }

  lemma {:induction false} RunAppend(db: Db, dir: Directory, p: seq<Log>, q: seq<Log>)
    ensures Run(db, dir, p + q) == Run(Run(db, dir, p), dir, q)
  {
    if q == [] {
      assert p + q == p;
    } else {
      RunAppend(db, dir, p, q[..|q| - 1]);
      assert (p + q)[..|p + q| - 1] == p + q[..|q| - 1];
    }
  }
}

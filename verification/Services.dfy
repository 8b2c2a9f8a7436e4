/** The police and bank services: guard, submit to the chain, then record. What they record is what the sagas and the
    loan guards start from. `submit` is the answer of the chain client: a hash, or none when it throws. */
module Services {
  import opened Tables
  import opened Chain
  import opened IndexerFacts
  import opened ReconcilerFacts
  import opened Sagas
  import LoanGuards

  datatype Error =
    | NotFound | Forbidden | AlreadyPaid | AlreadyCancelled | Incomplete | WrongAmount | ChainError | HashTaken
    | Scrapped | AlreadyHypothecated | WrongBorrower | NotActive | NocExists | NoPendingLoan

  /** The record of a transaction on an existing row, or of a row with the transaction that creates it. */
  function Record(db: Db, h: Hash, a: Action, data: Data, target: RowId, entity: nat, member: Option<nat>): Option<Db> {
    if h in db.txs then None else Some(Submitted(db, h, a, data, target, Some(entity), member))
  }

  /** The row `createChallanTx` creates. */
  function NewChallan(db: Db, ownership: RowId, ownTid: nat, amount: nat, police: nat, member: nat): Data
    requires ownership in db.rows
  {
    map[OwnershipRef := Num(ownership), OwnTid := Num(ownTid), EntityRef := Num(police), Amount := Num(amount),
        Status := St(ChallanPending), IssuedAt := Date, CreatedBy := Num(member),
        OwnerUser := At(db.rows[ownership], OwnerUser)]
  }

  lemma NewChallanOk(db: Db, ownership: RowId, ownTid: nat, amount: nat, police: nat, member: nat)
    requires ownership in db.rows
    ensures NewRowOk(ChallanIssue, NewChallan(db, ownership, ownTid, amount, police, member))
  {
    UnpaidChallanOk(NewChallan(db, ownership, ownTid, amount, police, member));
  }

  lemma UnpaidChallanOk(data: Data)
    requires OnChainId !in data && PaidAt !in data && CancelledAt !in data && Status in data
             && data[Status] == St(ChallanPending)
    ensures NewRowOk(ChallanIssue, data)
  {
  }

  /** The challan that paying and cancelling agree on. */
  ghost predicate Payable(db: Db, challanId: nat, police: nat) {
    var found := Find(db, Challans, challanId);
    found.Some? && At(db.rows[found.value], EntityRef) == Num(police) && Guard(ChallanPay, db.rows[found.value])
  }

  /** The vehicle of a loan has its on-chain id. */
  predicate OnChain(db: Db, loan: Row) {
    var ref := At(loan, PassportRef);
    ref.Num? && ref.n >= 0 && ref.n in db.rows && !Falsy(At(db.rows[ref.n], OnChainId))
  }

  predicate ActiveOwnership(db: Db, passport: RowId, id: RowId) {
    id in db.rows && db.rows[id].table == Ownerships && At(db.rows[id], PassportRef) == Num(passport)
        && At(db.rows[id], IsActive) == Flag(true)
  }

  predicate OwnedBy(db: Db, id: RowId, borrower: string)
    requires id in db.rows
  {
    At(db.rows[id], OwnerWallet).Text? && Lower(At(db.rows[id], OwnerWallet).s) == Lower(borrower)
  }

  /** A loan on a registered vehicle that is not being transferred. */
  predicate TitleLoan(db: Db, passport: RowId) {
    !LoanGuards.TransferUnderWay(db, passport) && passport in db.rows
        && At(db.rows[passport], Status) == St(VehicleActive)
  }

  ghost predicate SomeOwner(db: Db, passport: RowId, borrower: string) {
    TitleLoan(db, passport) ==>
      (exists id :: ActiveOwnership(db, passport, id) && OwnedBy(db, id, borrower))
          || forall id :: !ActiveOwnership(db, passport, id)
  }

  ghost predicate MustRegister(db: Db, dvpId: nat, borrower: string) {
    var passport := Find(db, Passports, dvpId);
    passport.Some? && LoanGuards.MayRegister(db, passport.value) && OnlyOwner(db, passport.value, borrower)
  }

  ghost predicate OnlyOwner(db: Db, passport: RowId, borrower: string) {
    TitleLoan(db, passport) ==> forall id :: ActiveOwnership(db, passport, id) ==> OwnedBy(db, id, borrower)
  }

  predicate CancelableLoan(db: Db, passport: RowId, bank: nat, id: RowId) {
    LoanGuards.PendingOn(db, passport, id) && At(db.rows[id], EntityRef) == Num(bank)
        && At(db.rows[id], Col.NocIssued) == Flag(false)
  }

  /** From `before` to `after` a service made the saga's submission `m`: a move the saga theorem allows in every world
      with these tables in which no reverted transaction holds the row, and one that leaves these tables. */
  ghost predicate SubmitsSaga(before: Db, m: Move, after: Db)
    requires m.Submit?
  {
    forall w: World, dir: Directory, reverted: set<Hash> ::
      w.db == before && m.h !in w.open && (Creates(m.action) || m.target !in Held(w)) ==>
        Allowed(w, dir, reverted, m) && Apply(w, dir, reverted, m).db == after
  }

  lemma ServicesSubmitSagas(db: Db, h: Hash, a: Action, data: Data, target: RowId, entity: nat, member: Option<nat>)
    requires h !in db.txs && a in COMPENSATED
    requires if Creates(a) then NewRowOk(a, data) else target in db.rows && Guard(a, db.rows[target])
    ensures SubmitsSaga(db, Submit(h, a, data, target, Some(entity), member),
                        Submitted(db, h, a, data, target, Some(entity), member))
  {
    hide Guard, NewRowOk, Submitted;
  }

  /** Transactions on an existing row. */
  lemma SubmitsOnRow(db: Db, h: Hash, a: Action, target: RowId, entity: nat, member: Option<nat>)
    requires h !in db.txs && a in {ChallanPay, ChallanCancel, LoanClear, LoanRefinance, LoanCancelPending}
    requires target in db.rows && Guard(a, db.rows[target])
    ensures SubmitsSaga(db, Submit(h, a, map[], target, Some(entity), member),
                        Submitted(db, h, a, map[], target, Some(entity), member))
  {
    hide SubmitsSaga, Submitted, Guard;
    ServicesSubmitSagas(db, h, a, map[], target, entity, member);
  }

  lemma SubmitsChallan(db: Db, h: Hash, ownership: RowId, ownTid: nat, amount: nat, police: nat, member: nat)
    requires h !in db.txs && ownership in db.rows
    ensures var data := NewChallan(db, ownership, ownTid, amount, police, member);
            SubmitsSaga(db, Submit(h, ChallanIssue, data, 0, Some(police), Some(member)),
                        Submitted(db, h, ChallanIssue, data, 0, Some(police), Some(member)))
  {
    hide SubmitsSaga, Submitted, NewChallan, NewRowOk;
    NewChallanOk(db, ownership, ownTid, amount, police, member);
    ServicesSubmitSagas(db, h, ChallanIssue, NewChallan(db, ownership, ownTid, amount, police, member), 0, police,
                        Some(member));
  }

  /** The loan that registerLoan records is such a submission. */
  lemma RegisterIsSubmission(db: Db, passport: RowId, bank: nat, wallet: string, amount: nat, h: Hash, member: nat)
    requires h !in db.txs
    ensures SubmitsSaga(db, Submit(h, Action.LoanReg, LoanGuards.PendingLoan(passport, bank, wallet, amount, member), 0,
                                   Some(bank), Some(member)),
                        LoanGuards.Register(db, passport, bank, wallet, amount, h, member))
  {
    hide SubmitsSaga, LoanGuards.Register, Submitted, NewRowOk;
    var data := LoanGuards.PendingLoan(passport, bank, wallet, amount, member);
    NewLoanOk(data);
    RegisterSubmits(db, passport, bank, wallet, amount, h, member);
    ServicesSubmitSagas(db, h, Action.LoanReg, data, 0, bank, Some(member));
  }

  lemma RegisterSubmits(db: Db, passport: RowId, bank: nat, wallet: string, amount: nat, h: Hash, member: nat)
    ensures LoanGuards.Register(db, passport, bank, wallet, amount, h, member) ==
            Submitted(db, h, Action.LoanReg, LoanGuards.PendingLoan(passport, bank, wallet, amount, member), 0,
                      Some(bank), Some(member))
  {
    hide LoanGuards.PendingLoan, NewRow;
  }

  lemma NewLoanOk(data: Data)
    requires OnChainId !in data && Col.NocIssued in data && data[Col.NocIssued] == Flag(false)
    requires ClearedAt !in data && NocDate !in data && NocRecipientWallet !in data && NocRecipientUser !in data
    ensures NewRowOk(Action.LoanReg, data)
  {
  }

  /** What a service records for a transaction on an existing row: a tracking row. */
  predicate Tracked(db: Db, d: Db, h: Hash, a: Action, target: RowId, entity: nat, member: Option<nat>) {
    SameRows(db, d) && TxRecorded(db, d, h, Tx(a, Pending, None, Some(target), Some(entity), member))
  }

  /** What a service records for a new row: the row and its tracking row. */
  ghost predicate Recorded(db: Db, d: Db, h: Hash, a: Action, vals: Data, entity: nat, member: nat) {
    && RowAdded(db, d, TableOf(a), vals)
    && TxRecorded(db, d, h, Tx(a, Pending, None, Some(db.next), Some(entity), Some(member)))
  }

  lemma SubmittedTracks(db: Db, h: Hash, a: Action, target: RowId, entity: nat, member: Option<nat>)
    requires a in {ChallanPay, ChallanCancel, LoanClear, LoanRefinance, LoanCancelPending}
    ensures Tracked(db, Submitted(db, h, a, map[], target, Some(entity), member), h, a, target, entity, member)
  {
  }

  lemma SubmittedRecords(db: Db, h: Hash, a: Action, data: Data, entity: nat, member: nat)
    requires a in {ChallanIssue, Action.LoanReg} && Sound(db) && OnChainId !in data
    ensures var d := Submitted(db, h, a, data, 0, Some(entity), Some(member));
            Recorded(db, d, h, a, data, entity, member) && Sound(d)
  {
    hide Sound, Insert;
    InsertAdds(db, TableOf(a), data);
    InsertedSound(db, TableOf(a), data);
    TrackedSound(Insert(db, TableOf(a), data), h, Tx(a, Pending, None, Some(db.next), Some(entity), Some(member)));
  }

  /** What recording a loan comes to. */
  lemma RegisterRecords(db: Db, passport: RowId, bank: nat, wallet: string, amount: nat, h: Hash, member: nat)
    requires Sound(db) && h !in db.txs
    ensures var data := map[PassportRef := Num(passport), EntityRef := Num(bank), BorrowerWallet := Text(wallet),
                            Amount := Num(amount), Status := St(LoanPending), Col.NocIssued := Flag(false),
                            CreatedBy := Num(member)];
            var d := LoanGuards.Register(db, passport, bank, wallet, amount, h, member);
            && Recorded(db, d, h, Action.LoanReg, data, bank, member) && Sound(d)
            && SubmitsSaga(db, Submit(h, Action.LoanReg, data, 0, Some(bank), Some(member)), d)
  {
    hide SubmitsSaga, Recorded, Sound, LoanGuards.Register, Submitted;
    var data := LoanGuards.PendingLoan(passport, bank, wallet, amount, member);
    RegisterIsSubmission(db, passport, bank, wallet, amount, h, member);
    RegisterSubmits(db, passport, bank, wallet, amount, h, member);
    SubmittedRecords(db, h, Action.LoanReg, data, bank, member);
  }

  /** The loans of this bank that the chain knows and the guard lets through. */
  predicate Serviceable(db: Db, a: Action, loanId: RowId, bank: nat) {
    && loanId in db.rows && At(db.rows[loanId], EntityRef) == Num(bank) && Guard(a, db.rows[loanId])
    && OnChain(db, db.rows[loanId])
  }

  class PoliceService {
    var db: Db

    constructor (db: Db)
      ensures this.db == db
    {
      this.db := db;
    }

    method IssueChallan(ownTid: nat, amount: nat, police: nat, member: nat, submit: Option<Hash>)
      returns (errors: set<Error>)
      requires Sound(db)
      modifies this
      ensures errors == {} <==> Find(old(db), Ownerships, ownTid).Some? && submit.Some? && submit.value !in old(db).txs
      ensures errors == {} ==>
                var ownership := Find(old(db), Ownerships, ownTid).value;
                var data := map[OwnershipRef := Num(ownership), OwnTid := Num(ownTid), EntityRef := Num(police),
                                Amount := Num(amount), Status := St(ChallanPending), IssuedAt := Date,
                                CreatedBy := Num(member), OwnerUser := At(old(db).rows[ownership], OwnerUser)];
                && Recorded(old(db), db, submit.value, ChallanIssue, data, police, member) && Sound(db)
                && SubmitsSaga(old(db), Submit(submit.value, ChallanIssue, data, 0, Some(police), Some(member)), db)
      ensures errors != {} ==> db == old(db)
    {
      hide SubmitsSaga, Submitted, Recorded;
      var ownership := FindUniqueRow(db, Ownerships, ownTid);
      hide Sound;
      if ownership.None? { return {NotFound}; }
      if submit.None? { return {ChainError}; }
      var data := NewChallan(db, ownership.value, ownTid, amount, police, member);
      var recorded := Record(db, submit.value, ChallanIssue, data, 0, police, Some(member));
      if recorded.None? { return {HashTaken}; }
      SubmitsChallan(db, submit.value, ownership.value, ownTid, amount, police, member);
      SubmittedRecords(db, submit.value, ChallanIssue, data, police, member);
      db := recorded.value;
      return {};
    }

    method CancelChallan(challanId: nat, police: nat, member: Option<nat>, submit: Option<Hash>)
      returns (errors: set<Error>)
      requires Sound(db)
      modifies this
      ensures errors == {} <==> Payable(old(db), challanId, police) && submit.Some? && submit.value !in old(db).txs
      ensures errors == {} ==>
                var id := Find(old(db), Challans, challanId).value;
                && Tracked(old(db), db, submit.value, ChallanCancel, id, police, member)
                && SubmitsSaga(old(db), Submit(submit.value, ChallanCancel, map[], id, Some(police), member), db)
      ensures errors != {} ==> db == old(db)
    {
      hide SubmitsSaga, Submitted, Tracked;
      var found := FindUniqueRow(db, Challans, challanId);
      if found.None? { return {NotFound}; }
      var challan := db.rows[found.value];
      if At(challan, EntityRef) != Num(police) { return {Forbidden}; }
      if At(challan, Status) == St(Status.ChallanPaid) { return {AlreadyPaid}; }
      if At(challan, Status) == St(Status.ChallanCancelled) { return {AlreadyCancelled}; }
      if Falsy(At(challan, OwnTid)) { return {Incomplete}; }
      if submit.None? { return {ChainError}; }
      var recorded := Record(db, submit.value, ChallanCancel, map[], found.value, police, member);
      if recorded.None? { return {HashTaken}; }
      SubmitsOnRow(db, submit.value, ChallanCancel, found.value, police, member);
      SubmittedTracks(db, submit.value, ChallanCancel, found.value, police, member);
      db := recorded.value;
      return {};
    }

    method PayChallan(challanId: nat, amountPaid: nat, police: nat, member: Option<nat>, submit: Option<Hash>)
      returns (errors: set<Error>)
      requires Sound(db)
      modifies this
      ensures errors == {} <==>
              && Payable(old(db), challanId, police) && At(old(db).rows[Find(old(db), Challans, challanId).value],
                                                           Amount) == Num(amountPaid)
              && submit.Some? && submit.value !in old(db).txs
      ensures errors == {} ==>
                var id := Find(old(db), Challans, challanId).value;
                && Tracked(old(db), db, submit.value, ChallanPay, id, police, member)
                && SubmitsSaga(old(db), Submit(submit.value, ChallanPay, map[], id, Some(police), member), db)
      ensures errors != {} ==> db == old(db)
    {
      hide SubmitsSaga, Submitted, Tracked;
      var found := FindUniqueRow(db, Challans, challanId);
      if found.None? { return {NotFound}; }
      var challan := db.rows[found.value];
      if At(challan, EntityRef) != Num(police) { return {Forbidden}; }
      if At(challan, Status) == St(Status.ChallanPaid) { return {AlreadyPaid}; }
      if At(challan, Status) == St(Status.ChallanCancelled) { return {AlreadyCancelled}; }
      if Falsy(At(challan, OwnTid)) { return {Incomplete}; }
      if At(challan, Amount) != Num(amountPaid) { return {WrongAmount}; }
      if submit.None? { return {ChainError}; }
      var recorded := Record(db, submit.value, ChallanPay, map[], found.value, police, member);
      if recorded.None? { return {HashTaken}; }
      SubmitsOnRow(db, submit.value, ChallanPay, found.value, police, member);
      SubmittedTracks(db, submit.value, ChallanPay, found.value, police, member);
      db := recorded.value;
      return {};
    }
  }

  class BankService {
    var db: Db

    constructor (db: Db)
      ensures this.db == db
    {
      this.db := db;
    }

    method FindActiveOwnership(passport: RowId) returns (r: Option<RowId>)
      ensures match r
              case Some(id) => ActiveOwnership(db, passport, id)
              case None => forall id :: !ActiveOwnership(db, passport, id)
    {
      var ids := db.rows.Keys;
      while ids != {}
        invariant ids <= db.rows.Keys && forall id :: ActiveOwnership(db, passport, id) ==> id in ids
        decreases ids
      {
        var id :| id in ids;
        if ActiveOwnership(db, passport, id) { return Some(id); }
        ids := ids - {id};
      }
      return None;
    }

    /** A vehicle that already has a pending loan is refused on either branch of the guard, and the loan that is
        recorded keeps the pending loans single. A title loan asks for the wallet of an active ownership row,
        whichever the query returns: with at most one such row for a vehicle the two conditions on the borrower are
        the same. */
    method RegisterLoan(dvpId: nat, borrower: string, amount: Option<nat>, bank: nat, member: nat, submit: Option<Hash>)
      returns (errors: set<Error>)
      requires Sound(db) && LoanGuards.LoanInv(db)
      modifies this
      ensures LoanGuards.LoanInv(db)
      ensures errors != {} ==> db == old(db)
      ensures errors == {} ==>
                var passport := Find(old(db), Passports, dvpId);
                && passport.Some? && LoanGuards.MayRegister(old(db), passport.value)
                   && SomeOwner(old(db), passport.value, borrower)
                && amount.Some? && submit.Some? && submit.value !in old(db).txs
                && var data := map[PassportRef := Num(passport.value), EntityRef := Num(bank),
                                   BorrowerWallet := Text(Lower(borrower)), Amount := Num(amount.value),
                                   Status := St(LoanPending), Col.NocIssued := Flag(false), CreatedBy := Num(member)];
                   && Recorded(old(db), db, submit.value, Action.LoanReg, data, bank, member) && Sound(db)
                   && SubmitsSaga(old(db), Submit(submit.value, Action.LoanReg, data, 0, Some(bank), Some(member)), db)
      ensures MustRegister(old(db), dvpId, borrower) && amount.Some? && submit.Some? && submit.value !in old(db).txs ==>
              errors == {}
      ensures var passport := Find(old(db), Passports, dvpId);
              passport.Some? && LoanGuards.HasPending(old(db), passport.value) ==> errors != {}
    {
      hide LoanGuards.LoanInv, SubmitsSaga, LoanGuards.Register, Recorded;
      var passport := FindUniqueRow(db, Passports, dvpId);
      hide Sound;
      if passport.None? { return {NotFound}; }
      var vehicle := db.rows[passport.value];
      if At(vehicle, Status) == St(Status.VehicleScrapped) { return {Scrapped}; }
      if LoanGuards.TransferUnderWay(db, passport.value) {
        if LoanGuards.HasPending(db, passport.value) { return {AlreadyHypothecated}; }
      } else {
        if LoanGuards.HasActiveOrPending(db, passport.value) { return {AlreadyHypothecated}; }
        if At(vehicle, Status) == St(VehicleActive) {
          var ownership := FindActiveOwnership(passport.value);
          if ownership.Some? && !OwnedBy(db, ownership.value, borrower) { return {WrongBorrower}; }
        }
      }
      LoanGuards.GuardKeepsOut(db, passport.value);
      if amount.None? { return {WrongAmount}; }
      if submit.None? { return {ChainError}; }
      if submit.value in db.txs { return {HashTaken}; }
      LoanGuards.RegisterKeeps(db, passport.value, bank, Lower(borrower), amount.value, submit.value, member);
      RegisterRecords(db, passport.value, bank, Lower(borrower), amount.value, submit.value, member);
      db := LoanGuards.Register(db, passport.value, bank, Lower(borrower), amount.value, submit.value, member);
      return {};
    }

    method IssueNoc(loanId: RowId, bank: nat, member: nat, submit: Option<Hash>) returns (errors: set<Error>)
      requires loanId in db.rows ==> db.rows[loanId].table == Loans
      modifies this
      ensures errors == {} <==>
              Serviceable(old(db), LoanClear, loanId, bank) && submit.Some? && submit.value !in old(db).txs
      ensures errors == {} ==>
                && Tracked(old(db), db, submit.value, LoanClear, loanId, bank, Some(member))
                && SubmitsSaga(old(db), Submit(submit.value, LoanClear, map[], loanId, Some(bank), Some(member)), db)
      ensures errors != {} ==> db == old(db)
    {
      hide SubmitsSaga, Submitted, Tracked;
      if loanId !in db.rows { return {NotFound}; }
      var loan := db.rows[loanId];
      if At(loan, EntityRef) != Num(bank) { return {Forbidden}; }
      if At(loan, Status) != St(LoanActive) { return {NotActive}; }
      if At(loan, Col.NocIssued) == Flag(true) { return {NocExists}; }
      if !OnChain(db, loan) { return {Incomplete}; }
      if submit.None? { return {ChainError}; }
      var recorded := Record(db, submit.value, LoanClear, map[], loanId, bank, Some(member));
      if recorded.None? { return {HashTaken}; }
      SubmitsOnRow(db, submit.value, LoanClear, loanId, bank, Some(member));
      SubmittedTracks(db, submit.value, LoanClear, loanId, bank, Some(member));
      db := recorded.value;
      return {};
    }

    method RefinanceLoan(loanId: RowId, newAmount: Option<nat>, bank: nat, member: nat, submit: Option<Hash>)
      returns (errors: set<Error>)
      requires loanId in db.rows ==> db.rows[loanId].table == Loans
      modifies this
      ensures errors == {} <==>
              && Serviceable(old(db), LoanRefinance, loanId, bank) && newAmount.Some?
              && submit.Some? && submit.value !in old(db).txs
      ensures errors == {} ==>
                && Tracked(old(db), db, submit.value, LoanRefinance, loanId, bank, Some(member))
                && SubmitsSaga(old(db), Submit(submit.value, LoanRefinance, map[], loanId, Some(bank), Some(member)),
                               db)
      ensures errors != {} ==> db == old(db)
    {
      hide SubmitsSaga, Submitted, Tracked;
      if loanId !in db.rows { return {NotFound}; }
      var loan := db.rows[loanId];
      if At(loan, EntityRef) != Num(bank) { return {Forbidden}; }
      if At(loan, Status) != St(LoanActive) { return {NotActive}; }
      if At(loan, Col.NocIssued) == Flag(true) { return {NocExists}; }
      if !OnChain(db, loan) { return {Incomplete}; }
      if newAmount.None? { return {WrongAmount}; }
      if submit.None? { return {ChainError}; }
      var recorded := Record(db, submit.value, LoanRefinance, map[], loanId, bank, Some(member));
      if recorded.None? { return {HashTaken}; }
      SubmitsOnRow(db, submit.value, LoanRefinance, loanId, bank, Some(member));
      SubmittedTracks(db, submit.value, LoanRefinance, loanId, bank, Some(member));
      db := recorded.value;
      return {};
    }

    method FindPendingLoanByDvpIdAndBank(dvpId: nat, bank: nat) returns (loan: Option<RowId>)
      requires Sound(db)
      ensures loan.Some? ==> Find(db, Passports, dvpId).Some?
                             && CancelableLoan(db, Find(db, Passports, dvpId).value, bank, loan.value)
      ensures loan.None? ==> Find(db, Passports, dvpId).None?
                             || forall id :: !CancelableLoan(db, Find(db, Passports, dvpId).value, bank, id)
    {
      var passport := FindUniqueRow(db, Passports, dvpId);
      if passport.None? { return None; }
      var ids := db.rows.Keys;
      while ids != {}
        invariant ids <= db.rows.Keys && forall id :: CancelableLoan(db, passport.value, bank, id) ==> id in ids
        decreases ids
      {
        var id :| id in ids;
        if CancelableLoan(db, passport.value, bank, id) { return Some(id); }
        ids := ids - {id};
      }
      return None;
    }

    method CancelPendingLoan(dvpId: nat, bank: nat, member: nat, submit: Option<Hash>)
      returns (errors: set<Error>, loan: Option<RowId>)
      requires Sound(db)
      modifies this
      ensures errors == {} ==>
                && Find(old(db), Passports, dvpId).Some? && loan.Some?
                   && CancelableLoan(old(db), Find(old(db), Passports, dvpId).value, bank, loan.value)
                && submit.Some? && submit.value !in old(db).txs
                && Tracked(old(db), db, submit.value, LoanCancelPending, loan.value, bank, Some(member))
                && SubmitsSaga(old(db), Submit(submit.value, LoanCancelPending, map[], loan.value, Some(bank),
                                               Some(member)), db)
      ensures errors == {NoPendingLoan} ==>
                Find(old(db), Passports, dvpId).None? || forall id ::
                    !CancelableLoan(old(db), Find(old(db), Passports, dvpId).value, bank, id)
      ensures errors != {} ==> db == old(db)
    {
      hide SubmitsSaga, Submitted, Tracked;
      loan := FindPendingLoanByDvpIdAndBank(dvpId, bank);
      if loan.None? { return {NoPendingLoan}, None; }
      if submit.None? { return {ChainError}, loan; }
      var recorded := Record(db, submit.value, LoanCancelPending, map[], loan.value, bank, Some(member));
      if recorded.None? { return {HashTaken}, loan; }
      SubmitsOnRow(db, submit.value, LoanCancelPending, loan.value, bank, Some(member));
      SubmittedTracks(db, submit.value, LoanCancelPending, loan.value, bank, Some(member));
      db := recorded.value;
      return {}, loan;
    }
  }
}

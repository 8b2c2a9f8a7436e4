/** Across services: what one service records, another accepts from the same institution and refuses to all others, once
    a writer has numbered the row. */
module ServiceLaws {
  import opened Tables
  import opened Chain
  import opened Indexer
  import opened IndexerFacts
  import opened Reconciler
  import opened ReconcilerFacts
  import opened SweepRows
  import opened Sagas
  import opened Services
  import LoanGuards

  /** One of the writers has mirrored the event that numbers a new row: the sweep, or the indexer's handler. */
  ghost predicate Numbered(d: Db, n: Db, dir: Directory, h: Hash, block: nat, ev: Event) {
    && h in d.txs && KindOf(ev).Make?
    && (n == Handle(d, dir, Log(h, block, ev))
        || exists events: EventMap :: SweptOnce(d, n, dir, h, block, ev, events))
  }

  ghost predicate SweptOnce(d: Db, n: Db, dir: Directory, h: Hash, block: nat, ev: Event, events: EventMap) {
    && Named(events) && Get(events, NameOf(ev)) == Some(ev)
    && h in d.txs && RollForward(d, dir, h, d.txs[h], block, events) == Some(n)
  }

  lemma NumberedMeans(d: Db, n: Db, dir: Directory, h: Hash, block: nat, ev: Event)
    requires Numbered(d, n, dir, h, block, ev)
    ensures h in d.txs && (n == Handle(d, dir, Log(h, block, ev))
                           || exists events: EventMap :: SweptOnce(d, n, dir, h, block, ev, events))
  {
    hide SweptOnce, Handle;
  }

  // ── Challans ──

  function ChallanColumns(db: Db, ownership: RowId, ownTid: nat, amount: nat, police: nat, member: nat): Data
    requires ownership in db.rows
  {
    map[OwnershipRef := Num(ownership), OwnTid := Num(ownTid), EntityRef := Num(police), Amount := Num(amount),
        Status := St(ChallanPending), IssuedAt := Date, CreatedBy := Num(member),
        OwnerUser := At(db.rows[ownership], OwnerUser)]
  }

  function Numbers(challanId: nat, ownTid: nat): Data {
    map[OnChainId := Num(challanId), OwnTid := Num(ownTid), Status := St(ChallanPending)]
  }

  /** What both writers make of a challan that has just been issued. */
  lemma ChallanNumbered(d: Db, n: Db, dir: Directory, h: Hash, block: nat, id: RowId, challanId: nat, ownTid: nat,
                        policeId: nat, amount: nat)
    requires Sound(d) && Numbered(d, n, dir, h, block, ChallanIssued(challanId, ownTid, policeId, amount))
    requires d.txs[h].action == ChallanIssue && d.txs[h].target == Some(id) && id in d.rows
    requires Find(d, Challans, challanId).None?
    requires Find(d, Ownerships, ownTid).Some? && EntityOf(dir, policeId).Some?
    ensures Sound(n)
    ensures RowsSet(d, n, map[id := Numbers(challanId, ownTid)])
  {
    var ev := ChallanIssued(challanId, ownTid, policeId, amount);
    hide *;
    NumberedMeans(d, n, dir, h, block, ev);
    if n == Handle(d, dir, Log(h, block, ev)) {
      HandleSound(d, dir, Log(h, block, ev));
      ChallanIndexed(d, n, dir, h, block, id, challanId, ownTid, policeId, amount);
    } else {
      var events: EventMap :| SweptOnce(d, n, dir, h, block, ev, events);
      ChallanSweptOnce(d, n, dir, h, block, id, ev, events);
    }
  }

  lemma ChallanSweptOnce(d: Db, n: Db, dir: Directory, h: Hash, block: nat, id: RowId, ev: Event, events: EventMap)
    requires Sound(d) && SweptOnce(d, n, dir, h, block, ev, events) && ev.ChallanIssued?
    requires h in d.txs && d.txs[h].action == ChallanIssue && d.txs[h].target == Some(id)
    ensures Sound(n) && RowsSet(d, n, map[id := Numbers(ev.challanId, ev.ownTid)])
  {
    hide *;
    SweptOnceMeans(d, n, dir, h, block, ev, events);
    RollForwardSound(d, dir, h, d.txs[h], block, events);
    RollForwardRows(d, dir, h, d.txs[h], block, events, n);
    SweptChallan(d, n, dir, id, ev, events);
  }

  lemma SweptOnceMeans(d: Db, n: Db, dir: Directory, h: Hash, block: nat, ev: Event, events: EventMap)
    requires SweptOnce(d, n, dir, h, block, ev, events)
    ensures Named(events) && Get(events, NameOf(ev)) == Some(ev)
    ensures h in d.txs && RollForward(d, dir, h, d.txs[h], block, events) == Some(n)
  {
  }

  lemma SweptChallan(d: Db, n: Db, dir: Directory, id: RowId, ev: Event, events: EventMap)
    requires Swept(d, n, dir, ChallanIssue, id, events) && ev.ChallanIssued? && Get(events, NameOf(ev)) == Some(ev)
    ensures RowsSet(d, n, map[id := Numbers(ev.challanId, ev.ownTid)])
  {
    hide RowsSet;
  }

  lemma ChallanIndexed(d: Db, n: Db, dir: Directory, h: Hash, block: nat, id: RowId, challanId: nat, ownTid: nat,
                       policeId: nat, amount: nat)
    requires n == Handle(d, dir, Log(h, block, ChallanIssued(challanId, ownTid, policeId, amount)))
    requires h in d.txs && d.txs[h].action == ChallanIssue && d.txs[h].target == Some(id) && id in d.rows
    requires Find(d, Challans, challanId).None?
    requires Find(d, Ownerships, ownTid).Some? && EntityOf(dir, policeId).Some?
    ensures RowsSet(d, n, map[id := Numbers(challanId, ownTid)])
  {
    var ev := ChallanIssued(challanId, ownTid, policeId, amount);
    var numbers := Numbers(challanId, ownTid);
    hide Handle, MakeEffect, Update, RowsSet, Find;
    MakeHandle(d, dir, Log(h, block, ev));
    ChallanEffect(d, dir, TxOf(d, h), challanId, ownTid, policeId, amount);
    UpdateSets(d, id, numbers);
    SetThenSame(d, Update(d, id, numbers), n, map[id := numbers]);
  }

  /** A challan that a station has issued for an amount can, once it has its number, be cancelled by that station, and
      paid at that station for that amount; another station is refused. */
  lemma ChallanServesItsStation(db: Db, d: Db, n: Db, dir: Directory, h: Hash, block: nat, ownership: RowId,
                                ownTid: nat, amount: nat, police: nat, member: nat, challanId: nat, policeId: nat)
    requires ownership in db.rows && ownTid > 0 && Sound(d)
    requires Recorded(db, d, h, ChallanIssue, ChallanColumns(db, ownership, ownTid, amount, police, member), police,
                      member)
    requires Find(d, Challans, challanId).None? && Find(d, Ownerships, ownTid).Some? && EntityOf(dir, policeId).Some?
    requires Numbered(d, n, dir, h, block, ChallanIssued(challanId, ownTid, policeId, amount))
    ensures forall p :: Payable(n, challanId, p) <==> p == police
    ensures Find(n, Challans, challanId) == Some(db.next) && At(n.rows[db.next], Amount) == Num(amount)
  {
    hide *;
    IssuedRow(db, d, h, ownership, ownTid, amount, police, member);
    ChallanNumbered(d, n, dir, h, block, db.next, challanId, ownTid, policeId, amount);
    NumberedChallan(d, n, db.next, challanId, ownTid);
    PayableAt(n, db.next, challanId, police);
  }

  lemma IssuedRow(db: Db, d: Db, h: Hash, ownership: RowId, ownTid: nat, amount: nat, police: nat, member: nat)
    requires ownership in db.rows
    requires Recorded(db, d, h, ChallanIssue, ChallanColumns(db, ownership, ownTid, amount, police, member), police,
                      member)
    ensures db.next in d.rows && d.rows[db.next].table == Challans
            && At(d.rows[db.next], EntityRef) == Num(police) && At(d.rows[db.next], Amount) == Num(amount)
    ensures h in d.txs && d.txs[h].action == ChallanIssue && d.txs[h].target == Some(db.next)
  {
  }

  lemma PayableAt(n: Db, id: RowId, challanId: nat, police: nat)
    requires Find(n, Challans, challanId) == Some(id) && id in n.rows && At(n.rows[id], EntityRef) == Num(police)
             && Guard(ChallanPay, n.rows[id])
    ensures forall p :: Payable(n, challanId, p) <==> p == police
  {
  }

  lemma NumberedChallan(d: Db, n: Db, id: RowId, challanId: nat, ownTid: nat)
    requires Sound(n) && id in d.rows && d.rows[id].table == Challans && ownTid > 0
    requires RowsSet(d, n, map[id := Numbers(challanId, ownTid)])
    ensures Find(n, Challans, challanId) == Some(id) && id in n.rows
            && At(n.rows[id], EntityRef) == At(d.rows[id], EntityRef)
            && At(n.rows[id], Amount) == At(d.rows[id], Amount)
            && Guard(ChallanPay, n.rows[id])
  {
    NumberedColumns(d.rows[id], n.rows[id], challanId, ownTid);
    FindUnique(n, Challans, challanId, id);
    hide Sound, Find;
  }

  lemma NumberedColumns(row: Row, row': Row, challanId: nat, ownTid: nat)
    requires RowChanged(row, row', Numbers(challanId, ownTid)) && ownTid > 0 && row.table == Challans
    ensures row'.table == Challans && At(row', OnChainId) == Num(challanId)
    ensures At(row', EntityRef) == At(row, EntityRef) && At(row', Amount) == At(row, Amount)
    ensures Guard(ChallanPay, row')
  {
  }

  // ── Loans ──

  function LoanColumns(passport: RowId, bank: nat, wallet: string, amount: nat, member: nat): Data {
    map[PassportRef := Num(passport), EntityRef := Num(bank), BorrowerWallet := Text(wallet), Amount := Num(amount),
        Status := St(LoanPending), Col.NocIssued := Flag(false), CreatedBy := Num(member)]
  }

  /** A loan that a bank has registered can be withdrawn by that bank and no other. */
  lemma PendingLoanServesItsBank(db: Db, d: Db, h: Hash, passport: RowId, bank: nat, wallet: string, amount: nat,
                                 member: nat)
    requires Recorded(db, d, h, Action.LoanReg, LoanColumns(passport, bank, wallet, amount, member), bank, member)
    requires LoanGuards.LoanInv(d)
    ensures forall b, id :: CancelableLoan(d, passport, b, id) <==> b == bank && id == db.next
    ensures db.next in d.rows && At(d.rows[db.next], Amount) == Num(amount)
            && At(d.rows[db.next], BorrowerWallet) == Text(wallet)
  {
    RegisteredRow(db, d, h, passport, bank, wallet, amount, member);
    hide Recorded;
    assert CancelableLoan(d, passport, bank, db.next);
    forall b, id | CancelableLoan(d, passport, b, id) ensures b == bank && id == db.next {
      assert LoanGuards.PendingOn(d, passport, id) && LoanGuards.PendingOn(d, passport, db.next);
    }
  }

  lemma LoanNumbered(d: Db, n: Db, dir: Directory, h: Hash, block: nat, id: RowId, loanId: nat, dvpId: nat, bankId: nat,
                     borrower: string, amount: nat)
    requires Sound(d) && Numbered(d, n, dir, h, block, Event.LoanReg(loanId, dvpId, bankId, borrower, amount))
    requires d.txs[h].action == Action.LoanReg && d.txs[h].target == Some(id) && id in d.rows
    requires Find(d, Loans, loanId).None? && Find(d, Passports, dvpId).Some? && EntityOf(dir, bankId).Some?
    ensures RowsSet(d, n, map[id := Promoted(dir, loanId, borrower)])
  {
    var ev := Event.LoanReg(loanId, dvpId, bankId, borrower, amount);
    hide *;
    NumberedMeans(d, n, dir, h, block, ev);
    if n == Handle(d, dir, Log(h, block, ev)) {
      LoanIndexed(d, n, dir, h, block, id, loanId, dvpId, bankId, borrower, amount);
    } else {
      var events: EventMap :| SweptOnce(d, n, dir, h, block, ev, events);
      LoanSweptOnce(d, n, dir, h, block, id, ev, events);
    }
  }

  lemma LoanSweptOnce(d: Db, n: Db, dir: Directory, h: Hash, block: nat, id: RowId, ev: Event, events: EventMap)
    requires SweptOnce(d, n, dir, h, block, ev, events) && ev.LoanReg?
    requires h in d.txs && d.txs[h].action == Action.LoanReg && d.txs[h].target == Some(id)
    ensures RowsSet(d, n, map[id := Promoted(dir, ev.loanId, ev.borrower)])
  {
    hide *;
    SweptOnceMeans(d, n, dir, h, block, ev, events);
    RollForwardRows(d, dir, h, d.txs[h], block, events, n);
    SweptLoan(d, n, dir, id, ev, events);
  }

  lemma SweptLoan(d: Db, n: Db, dir: Directory, id: RowId, ev: Event, events: EventMap)
    requires Swept(d, n, dir, Action.LoanReg, id, events) && ev.LoanReg? && Get(events, NameOf(ev)) == Some(ev)
    ensures RowsSet(d, n, map[id := Promoted(dir, ev.loanId, ev.borrower)])
  {
    hide RowsSet;
  }

  function Promoted(dir: Directory, loanId: nat, borrower: string): Data {
    map[OnChainId := Num(loanId), Status := St(LoanActive), BorrowerUser := OrNull(UserOf(dir, Lower(borrower)))]
  }

  lemma LoanIndexed(d: Db, n: Db, dir: Directory, h: Hash, block: nat, id: RowId, loanId: nat, dvpId: nat, bankId: nat,
                    borrower: string, amount: nat)
    requires n == Handle(d, dir, Log(h, block, Event.LoanReg(loanId, dvpId, bankId, borrower, amount)))
    requires h in d.txs && d.txs[h].action == Action.LoanReg && d.txs[h].target == Some(id) && id in d.rows
    requires Find(d, Loans, loanId).None? && Find(d, Passports, dvpId).Some? && EntityOf(dir, bankId).Some?
    ensures RowsSet(d, n, map[id := Promoted(dir, loanId, borrower)])
  {
    var ev, data := Event.LoanReg(loanId, dvpId, bankId, borrower, amount), Promoted(dir, loanId, borrower);
    hide Handle, MakeEffect, Update, RowsSet, Find;
    MakeHandle(d, dir, Log(h, block, ev));
    LoanEffect(d, dir, TxOf(d, h), loanId, dvpId, bankId, borrower, amount);
    UpdateSets(d, id, data);
    SetThenSame(d, Update(d, id, data), n, map[id := data]);
  }

  /** Once it has its number, the same bank, and no other, can issue its NOC and refinance it. */
  lemma LoanServesItsBank(db: Db, d: Db, n: Db, dir: Directory, h: Hash, block: nat, passport: RowId, dvpId: nat,
                          bank: nat, wallet: string, amount: nat, member: nat, loanId: nat, bankId: nat,
                          borrower: string)
    requires Sound(d) && dvpId > 0 && Find(d, Passports, dvpId) == Some(passport) && EntityOf(dir, bankId).Some?
    requires Recorded(db, d, h, Action.LoanReg, LoanColumns(passport, bank, wallet, amount, member), bank, member)
    requires Find(d, Loans, loanId).None?
    requires Numbered(d, n, dir, h, block, Event.LoanReg(loanId, dvpId, bankId, borrower, amount))
    ensures forall a, b :: a in {LoanClear, LoanRefinance} ==> (Serviceable(n, a, db.next, b) <==> b == bank)
    ensures db.next in n.rows && At(n.rows[db.next], Amount) == Num(amount)
  {
    hide *;
    FoundPassport(d, dvpId, passport);
    RegisteredRow(db, d, h, passport, bank, wallet, amount, member);
    LoanNumbered(d, n, dir, h, block, db.next, loanId, dvpId, bankId, borrower, amount);
    NumberedLoan(d, n, dir, db.next, loanId, borrower, passport);
    ServiceableAt(n, db.next, bank, passport, dvpId);
  }

  lemma FoundPassport(d: Db, dvpId: nat, passport: RowId)
    requires Find(d, Passports, dvpId) == Some(passport)
    ensures passport in d.rows && d.rows[passport].table == Passports && At(d.rows[passport], OnChainId) == Num(dvpId)
  {
  }

  lemma RegisteredRow(db: Db, d: Db, h: Hash, passport: RowId, bank: nat, wallet: string, amount: nat, member: nat)
    requires Recorded(db, d, h, Action.LoanReg, LoanColumns(passport, bank, wallet, amount, member), bank, member)
    ensures db.next in d.rows && d.rows[db.next].table == Loans && At(d.rows[db.next], Status) == St(LoanPending)
    ensures At(d.rows[db.next], EntityRef) == Num(bank) && At(d.rows[db.next], PassportRef) == Num(passport)
    ensures At(d.rows[db.next], Amount) == Num(amount) && At(d.rows[db.next], BorrowerWallet) == Text(wallet)
    ensures At(d.rows[db.next], Col.NocIssued) == Flag(false)
    ensures h in d.txs && d.txs[h].action == Action.LoanReg && d.txs[h].target == Some(db.next)
  {
  }

  lemma ServiceableAt(n: Db, id: RowId, bank: nat, passport: RowId, dvpId: nat)
    requires id in n.rows && n.rows[id].table == Loans && At(n.rows[id], EntityRef) == Num(bank)
    requires At(n.rows[id], PassportRef) == Num(passport) && At(n.rows[id], Status) == St(LoanActive)
    requires At(n.rows[id], Col.NocIssued) == Flag(false)
    requires passport in n.rows && At(n.rows[passport], OnChainId) == Num(dvpId) && dvpId > 0
    ensures forall a, b :: a in {LoanClear, LoanRefinance} ==> (Serviceable(n, a, id, b) <==> b == bank)
  {
  }

  lemma NumberedLoan(d: Db, n: Db, dir: Directory, id: RowId, loanId: nat, borrower: string, passport: RowId)
    requires id in d.rows && d.rows[id].table == Loans && At(d.rows[id], PassportRef) == Num(passport)
    requires passport in d.rows && passport != id && At(d.rows[id], Col.NocIssued) == Flag(false)
    requires RowsSet(d, n, map[id := Promoted(dir, loanId, borrower)])
    ensures id in n.rows && passport in n.rows && n.rows[passport] == d.rows[passport] && n.rows[id].table == Loans
            && At(n.rows[id], EntityRef) == At(d.rows[id], EntityRef)
            && At(n.rows[id], Amount) == At(d.rows[id], Amount)
            && At(n.rows[id], PassportRef) == Num(passport) && At(n.rows[id], Status) == St(LoanActive)
            && At(n.rows[id], Col.NocIssued) == Flag(false)
  {
    assert RowChanged(d.rows[id], n.rows[id], Promoted(dir, loanId, borrower));
  }
}

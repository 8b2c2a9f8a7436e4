/** The reconciliation worker as a class: it parses the receipt, writes row by row, and commits or gives up as a whole.
    A batch is a run of moves of the ledger, so what holds of every run of sweepers holds of it. */
module ReconciliationWorkers {
  import opened Tables
  import opened Chain
  import opened Reconciler
  import opened SweepRows
  import opened Rollbacks
  import Ledger

  class ReconciliationWorker {
    const dir: Directory
    var db: Db

    constructor (dir: Directory, db: Db)
      ensures this.dir == dir && this.db == db
    {
      this.dir, this.db := dir, db;
    }

    // ── Statements of a database transaction ──

    /** `update` inside a transaction: none when it throws. */
    static method UpdateIn(work: Db, id: RowId, data: Data) returns (r: Option<Db>)
      ensures r == TryUpdate(work, id, data)
      ensures r.Some? ==> id in r.value.rows
    {
      if id !in work.rows { return None; }
      if OnChainId in data && data[OnChainId] != Null {
        var others := work.rows.Keys - {id};
        while others != {}
          invariant others <= work.rows.Keys - {id}
          invariant forall j :: j in work.rows && j != id && j !in others ==>
                    work.rows[j].table != work.rows[id].table || At(work.rows[j], OnChainId) != data[OnChainId]
          decreases others
        {
          var j :| j in others;
          if work.rows[j].table == work.rows[id].table && At(work.rows[j], OnChainId) == data[OnChainId] {
            return None;
          }
          others := others - {j};
        }
      }
      return Some(Update(work, id, data));
    }

    /** `vehicleOwnership.updateMany({ where: { passportId } })`. */
    static method DeactivateOwnership(work: Db, passport: RowId) returns (r: Db)
      ensures r == Deactivate(work, passport)
    {
      var rows, todo := work.rows, work.rows.Keys;
      while todo != {}
        invariant todo <= work.rows.Keys == rows.Keys
        invariant forall id :: id in work.rows ==>
                  rows[id] == if id in todo then work.rows[id] else Deactivate(work, passport).rows[id]
        decreases todo
      {
        var id :| id in todo;
        if rows[id].table == Ownerships && At(rows[id], PassportRef) == Num(passport) {
          rows := rows[id := Write(rows[id], map[IsActive := Flag(false)])];
        }
        todo := todo - {id};
      }
      assert rows == Deactivate(work, passport).rows;
      r := work.(rows := rows);
    }

    /** `update` of the ownership row behind a completed transfer. */
    method PassOnIn(work: Db, transfer: RowId, newOwner: string) returns (r: Option<Db>)
      requires transfer in work.rows
      ensures r == PassOn(work, dir, transfer, newOwner)
    {
      r := None;
      var ref := At(work.rows[transfer], OwnershipRef);
      if ref.Num? && ref.n >= 0 && ref.n in work.rows && At(work.rows[ref.n], TransferCount).Num? {
        r := Some(Update(work, ref.n, map[OwnerWallet := Text(newOwner), OwnerUser := OrNull(UserOf(dir, newOwner)),
                                          TransferCount := Num(At(work.rows[ref.n], TransferCount).n + 1)]));
      }
    }

    // ── Success ──

    method SettleVehicle(work: Db, action: Action, id: RowId, events: EventMap) returns (r: Option<Db>)
      requires TableOf(action) == Passports
      ensures r == Business(work, dir, action, id, events)
      ensures r.Some? ==> VehicleSwept(work, r.value, dir, action, id, events)
    {
      hide TryUpdate, PassOn, Deactivate, Update, Write, VehicleSwept;
      r := Some(work);
      if action == VehicleMint && Get(events, "VehicleMfg").Some? && events["VehicleMfg"].VehicleMfg? {
        r := UpdateIn(work, id, map[OnChainId := Num(events["VehicleMfg"].tokenId), Status := St(VehicleNotReg)]);
      } else if action == VehicleScrap && Get(events, "VehicleScrapped").Some?
             && events["VehicleScrapped"].VehicleScrapped? {
        var scrapEntity := EntityOf(dir, events["VehicleScrapped"].scrapId);
        r := UpdateIn(work, id, map[Status := St(Status.VehicleScrapped), ScrapDate := Date,
                                    ScrapEntity := OrNull(scrapEntity)]);
        if r.Some? {
          var d := DeactivateOwnership(r.value, id);
          r := Some(d);
        }
      } else if action == VehicleAssignDealer && Get(events, "VehicleAssignedToDealer").Some?
             && events["VehicleAssignedToDealer"].VehicleAssignedToDealer? {
        var dealer := events["VehicleAssignedToDealer"].dealer;
        r := UpdateIn(work, id, map[DealerWallet := Text(dealer), DealerUser := OrNull(UserOf(dir, dealer))]);
      }
      if r.Some? { VehicleRows(work, dir, action, id, events, r.value); }
    }

    method SettleTransfer(work: Db, action: Action, id: RowId, events: EventMap) returns (r: Option<Db>)
      requires TableOf(action) == Transfers
      requires Named(events)
      ensures r == Business(work, dir, action, id, events)
      ensures r.Some? ==> TransferSwept(work, r.value, dir, action, id, events)
    {
      hide TryUpdate, PassOn, Deactivate, Update, Write, TransferSwept;
      r := Some(work);
      if action == TransferApproveBuyer {
        if "XferDone" in events {
          r := UpdateIn(work, id, map[BuyerOk := Flag(true), Status := St(TransferRtoApproved), CompletedDate := Date]);
          if r.Some? { r := PassOnIn(r.value, id, events["XferDone"].newOwner); }
        } else if "XferApproved" in events {
          r := UpdateIn(work, id, map[BuyerOk := Flag(true), Status := St(TransferBuyerAccepted)]);
        }
      } else if action == TransferApproveRto {
        if "XferDone" in events {
          r := UpdateIn(work, id, map[RtoOk := Flag(true), Status := St(TransferRtoApproved), CompletedDate := Date]);
          if r.Some? { r := PassOnIn(r.value, id, events["XferDone"].newOwner); }
        }
      } else if action == TransferCancel {
        r := UpdateIn(work, id, map[Status := St(TransferCancelled)]);
      }
      if r.Some? { TransferRows(work, dir, action, id, events, r.value); }
    }

    method SettleChallan(work: Db, action: Action, id: RowId, events: EventMap) returns (r: Option<Db>)
      requires TableOf(action) == Challans
      ensures r == Business(work, dir, action, id, events)
      ensures r.Some? ==> ChallanSwept(work, r.value, action, id, events)
    {
      hide TryUpdate, PassOn, Deactivate, Update, Write, ChallanSwept;
      r := Some(work);
      if action == ChallanIssue {
        var event := Get(events, "ChallanIssued");
        if event.Some? && event.value.ChallanIssued? {
          r := UpdateIn(work, id, map[OnChainId := Num(event.value.challanId), OwnTid := Num(event.value.ownTid),
                                      Status := St(ChallanPending)]);
        }
      } else if action == ChallanPay {
        r := UpdateIn(work, id, map[Status := St(Status.ChallanPaid), PaidAt := Date]);
      } else {
        var event := Get(events, "ChallanCancelled");
        var byAdmin := event.Some? && event.value.ChallanCancelled? && event.value.isAdminCancel;
        r := UpdateIn(work, id, map[Status := St(Status.ChallanCancelled), CancelledAt := Date,
                                    IsAdminCancel := Flag(byAdmin)]);
      }
      if r.Some? { ChallanRows(work, dir, action, id, events, r.value); }
    }

    method SettlePolicy(work: Db, action: Action, id: RowId, events: EventMap) returns (r: Option<Db>)
      requires TableOf(action) == Policies
      ensures r == Business(work, dir, action, id, events)
      ensures r.Some? ==> PolicySwept(work, r.value, action, id, events)
    {
      hide TryUpdate, PassOn, Deactivate, Update, Write, PolicySwept;
      r := Some(work);
      if action == InsuranceIssue {
        var event := Get(events, "PolicyIssued");
        if event.Some? && event.value.PolicyIssued? {
          r := UpdateIn(work, id, map[OnChainId := Num(event.value.polId), Status := St(PolicyActive)]);
        }
      } else if action == InsuranceClaim {
        var event := Get(events, "ClaimFiled");
        if event.Some? && event.value.ClaimFiled? {
          r := UpdateIn(work, id, map[ClaimCount := Num(event.value.claimNum)]);
        }
      } else {
        r := UpdateIn(work, id, map[Status := St(Status.PolicyExpired)]);
      }
      if r.Some? { PolicyRows(work, dir, action, id, events, r.value); }
    }

    method SettlePuc(work: Db, action: Action, id: RowId, events: EventMap) returns (r: Option<Db>)
      requires TableOf(action) == Pucs
      ensures r == Business(work, dir, action, id, events)
      ensures r.Some? ==> PucSwept(work, r.value, action, id, events)
    {
      hide TryUpdate, PassOn, Deactivate, Update, Write, PucSwept;
      r := Some(work);
      if action == Action.PucIssue {
        var event := Get(events, "PUCIssued");
        if event.Some? && event.value.PucIssued? {
          r := UpdateIn(work, id, map[OnChainId := Num(event.value.certId), OwnTid := Num(event.value.ownTid),
                                      Passed := Flag(event.value.passed), Status := St(PucValid), ExpiryDate := Date]);
        }
      } else {
        r := UpdateIn(work, id, map[Status := St(Status.PucExpired)]);
      }
      if r.Some? { PucRows(work, dir, action, id, events, r.value); }
    }

    method SettleLoan(work: Db, action: Action, id: RowId, events: EventMap) returns (r: Option<Db>)
      requires TableOf(action) == Loans
      ensures r == Business(work, dir, action, id, events)
      ensures r.Some? ==> LoanSwept(work, r.value, dir, action, id, events)
    {
      hide TryUpdate, PassOn, Deactivate, Update, Write, LoanSwept;
      r := Some(work);
      if action == Action.LoanReg {
        var event := Get(events, "LoanReg");
        if event.Some? && event.value.LoanReg? {
          var borrower := UserOf(dir, Lower(event.value.borrower));
          r := UpdateIn(work, id, map[OnChainId := Num(event.value.loanId), Status := St(LoanActive),
                                      BorrowerUser := OrNull(borrower)]);
        }
      } else if action == LoanClear {
        var minted := Get(events, "NOCMinted");
        var recipient: Data := map[];
        if minted.Some? && minted.value.NocMinted? {
          var owner := UserOf(dir, Lower(minted.value.owner));
          recipient := map[NocRecipientWallet := Text(Lower(minted.value.owner)), NocRecipientUser := OrNull(owner)];
          assert NocRecipientWallet in recipient;
          if "NOCIssued" in events { TwoWrites(work, id, CLEARED, recipient); }
        }
        if "NOCIssued" in events {
          r := UpdateIn(work, id, CLEARED);
        }
        if r.Some? && recipient != map[] {
          r := UpdateIn(r.value, id, recipient);
        }
      } else if action == LoanCancelPending {
        r := Some(DeleteAll(work, {id}));
      } else if "LoanRefinanced" in events {
        r := UpdateIn(work, id, CLEARED);
        if "LoanReg" in events { r := None; }  // reads a sixth argument that the event does not have
      }
      if r.Some? { LoanRows(work, dir, action, id, events, r.value); }
    }

    /** Two updates of one row make the update with both. */
    static lemma TwoWrites(work: Db, id: RowId, first: Data, second: Data)
      requires OnChainId !in first && OnChainId !in second
      ensures TryUpdate(work, id, first + second) ==
              match TryUpdate(work, id, first) { case None => None case Some(d) => TryUpdate(d, id, second) }
    {
      if id in work.rows {
        RowsEqual(Write(Write(work.rows[id], first), second), Write(work.rows[id], first + second));
        assert Update(Update(work, id, first), id, second).rows == Update(work, id, first + second).rows;
      }
    }

    method HandleSuccessfulReconciliation(h: Hash, tx: Tx, receipt: Receipt) returns (ok: bool)
      modifies this`db
      ensures RollForward(old(db), dir, h, tx, receipt.block, IndexEvents(EventsOf(receipt.logs))) == if ok
              then Some(db) else None
      ensures ok && tx.target.Some? ==>
                Swept(old(db), db, dir, tx.action, tx.target.value, IndexEvents(EventsOf(receipt.logs)))
      ensures ok && tx.action != LoanCancelPending ==>
                h in old(db).txs &&
                TxRecorded(old(db), db, h, old(db).txs[h].(sync := Mined, block := Some(receipt.block)))
      ensures !ok ==> db == old(db)
    {
      hide Swept, TransferSwept, VehicleSwept, LoanSwept, ChallanSwept, PolicySwept, PucSwept;
      var events := ParseReceiptEvents(receipt.logs);
      EventsNamed(EventsOf(receipt.logs));
      if h !in db.txs { return false; }
      var work := db.(txs := db.txs[h := db.txs[h].(sync := Mined, block := Some(receipt.block))]);
      var done := Some(work);
      if tx.target.Some? {
        var id := tx.target.value;
        match TableOf(tx.action) {
          case Passports => done := SettleVehicle(work, tx.action, id, events);
          case Transfers => done := SettleTransfer(work, tx.action, id, events);
          case TradeCerts => done := UpdateIn(work, id, map[IsActive := Flag(false)]);
          case Challans => done := SettleChallan(work, tx.action, id, events);
          case Policies => done := SettlePolicy(work, tx.action, id, events);
          case Pucs => done := SettlePuc(work, tx.action, id, events);
          case Loans => done := SettleLoan(work, tx.action, id, events);
          case Ownerships =>
        }
      }
      if done.None? { return false; }
      if tx.target.Some? { RollForwardRows(db, dir, h, tx, receipt.block, events, done.value); }
      db := done.value;
      return true;
    }

    // ── Revert ──

    /** Each compensation is an independent statement; a missing row is ignored. */
    method HandleRevertedRollback(tx: Tx)
      modifies this`db
      ensures db == Compensate(old(db), tx.action, tx.target)
      ensures RolledBack(old(db), db, tx.action, tx.target)
    {
      hide Update, DeleteAll, RolledBack;
      CompensateRows(db, tx.action, tx.target);
      if tx.target.None? || tx.target.value !in db.rows { return; }
      var id := tx.target.value;
      match tx.action {
        case VehicleMint => db := DeleteAll(db, {id});
        case VehicleScrap => db := Update(db, id, map[Status := St(VehicleActive)]);
        case VehicleAssignDealer => db := Update(db, id, map[DealerWallet := Null, DealerUser := Null]);
        case TransferApproveBuyer => db := Update(db, id, map[BuyerOk := Flag(false), Status := St(TransferPending)]);
        case TransferApproveRto => db := Update(db, id, map[RtoOk := Flag(false), Status := St(TransferBuyerAccepted)]);
        case TransferCancel => db := Update(db, id, map[Status := St(TransferPending)]);
        case TradeCertRevoke => db := Update(db, id, map[IsActive := Flag(true)]);
        case ChallanIssue => db := DeleteAll(db, {id});
        case ChallanPay => db := Update(db, id, map[Status := St(ChallanPending), PaidAt := Null]);
        case ChallanCancel => db := Update(db, id, map[Status := St(ChallanPending), CancelledAt := Null]);
        case InsuranceIssue => db := DeleteAll(db, {id});
        case InsuranceClaim =>
          var count := At(db.rows[id], ClaimCount);
          if count.Num? { db := Update(db, id, map[ClaimCount := Num(count.n - 1)]); }
        case InsuranceExpire => db := Update(db, id, map[Status := St(PolicyActive)]);
        case PucIssue => db := DeleteAll(db, {id});
        case PucExpire => db := Update(db, id, map[Status := St(PucValid)]);
        case LoanReg => db := DeleteAll(db, {id});
        case LoanClear =>
          db := Update(db, id, map[Status := St(LoanActive), ClearedAt := Null, Col.NocIssued := Flag(false),
                                   NocDate := Null,
                                   NocRecipientWallet := Null, NocRecipientUser := Null]);
        case _ =>
      }
    }

    /** One transaction of the batch, as sweeper `k` after the `moves` of a run of the ledger from `s`. The FAILED
        write and the rollback are separate statements. */
    method ReconcileOne(h: Hash, tx: Tx, receipt: Option<Receipt>,
                        ghost s: Ledger.State, ghost chain: Ledger.Verdicts, ghost k: nat,
                            ghost moves: seq<Ledger.Move>)
      returns (ghost more: seq<Ledger.Move>)
      requires Follows(s, dir, chain, moves, k, db)
      requires var batch := Ledger.After(s, dir, chain, moves).sweepers[k].batch; h in batch && batch[h] == tx
      requires receipt.Some? ==> h in chain && chain[h] == VerdictOf(receipt.value)
      modifies this`db
      ensures more == [Ledger.Take(k, h, receipt.Some?)] || more == [Ledger.Take(k, h, receipt.Some?), Ledger.Undo(k)]
      ensures Follows(s, dir, chain, moves + more, k, db)
      ensures var t, t' := Ledger.After(s, dir, chain, moves), Ledger.After(s, dir, chain, moves + more);
              t'.sweepers == t.sweepers[k := Ledger.Sweeper(t.sweepers[k].batch - {h}, None, None)]
    {
      hide RollForward, Compensate, Ledger.RunOk, Ledger.After, Ledger.Counted;
      ghost var t, take := Ledger.After(s, dir, chain, moves), Ledger.Take(k, h, receipt.Some?);
      Ledger.RunsOn(s, dir, chain, moves, take);
      more := [take];
      if receipt.None? { return; }
      if receipt.value.succeeded {
        var ok := HandleSuccessfulReconciliation(h, tx, receipt.value);
      } else if h in db.txs {
        db := db.(txs := db.txs[h := db.txs[h].(sync := Failed, block := Some(receipt.value.block))]);
        HandleRevertedRollback(tx);
        Ledger.RunsOn(s, dir, chain, moves + [take], Ledger.Undo(k));
        more := [take, Ledger.Undo(k)];
        assert moves + more == moves + [take] + [Ledger.Undo(k)];
      }
    }

    /** A page of pending rows, in the order it was read and with the copies of the rows it was read with. It is a run
        of sweeper `k` from any state of the ledger: the sweeper reads the page, takes each of its transactions in
        order and once, compensates before it takes the next, and is at rest at the end. */
    method ReconcileBatch(page: seq<Hash>, receipts: map<Hash, Receipt>, ghost s: Ledger.State,
                          ghost chain: Ledger.Verdicts, ghost k: nat)
      returns (ghost moves: seq<Ledger.Move>)
      requires s.db == db && k < |s.sweepers| && s.sweepers[k].undoing.None?
      requires forall i :: 0 <= i < |page| ==> page[i] in db.txs && db.txs[page[i]].sync == Pending
      requires forall i, j :: 0 <= i < j < |page| ==> page[i] != page[j]
      requires forall h :: h in page && h in receipts ==> h in chain && chain[h] == VerdictOf(receipts[h])
      modifies this`db
      ensures Ledger.RunOk(s, dir, chain, moves) && Ledger.After(s, dir, chain, moves).db == db
      ensures Ledger.After(s, dir, chain, moves).sweepers == s.sweepers[k := Ledger.IDLE]
      ensures moves != [] && moves[0] == Ledger.ReadBatch(k, set h | h in page) && OfSweeper(moves[1..], k)
      ensures Takes(moves) == Seen(page, receipts)
      ensures Ledger.Truthful(s, chain) ==> Ledger.Truthful(Ledger.After(s, dir, chain, moves), chain)
    {
      hide Ledger.RunOk, Ledger.After, Ledger.Truthful, Ledger.Step, Ledger.Enabled, Takes, Seen, Rest, OfSweeper,
          VerdictOf;
      var batch := map h | h in page :: db.txs[h];
      PageRead(s, dir, chain, k, page, batch, receipts);
      moves := [Ledger.ReadBatch(k, set h | h in page)];
      ghost var read := moves[0];
      for i := 0 to |page|
        invariant moves != [] && moves[0] == read && OfSweeper(moves[1..], k)
                  && Takes(moves) == Seen(page[..i], receipts)
        invariant Follows(s, dir, chain, moves, k, db)
        invariant Ledger.After(s, dir, chain, moves).sweepers == s.sweepers[k := Ledger.Sweeper(Rest(batch, page[..i]),
                    None, None)]
      {
        InRest(batch, page, i);
        ghost var more := ReconcileOne(page[i], batch[page[i]], if page[i] in receipts then Some(receipts[page[i]])
                                       else None,
                                       s, chain, k, moves);
        TakesMore(moves, more, page, i, receipts, k);
        moves := moves + more;
      }
      assert page[..|page|] == page;
      RestNone(batch, page);
      if Ledger.Truthful(s, chain) { Ledger.LedgerSound(s, dir, chain, moves); }
    }
  }

  // ── Batches as runs of the ledger ──

  function VerdictOf(receipt: Receipt): Ledger.Verdict {
    Ledger.Verdict(receipt.succeeded, receipt.block, IndexEvents(EventsOf(receipt.logs)))
  }

  /** The moves lead from `s` to the database, and sweeper `k` is not in the middle of a compensation. */
  ghost predicate Follows(s: Ledger.State, dir: Directory, chain: Ledger.Verdicts, moves: seq<Ledger.Move>, k: nat,
                          db: Db) {
    && Ledger.RunOk(s, dir, chain, moves)
    && var t := Ledger.After(s, dir, chain, moves);
       t.db == db && k < |t.sweepers| && t.sweepers[k].undoing.None? && t.sweepers[k].copy.None?
  }

  predicate OfSweeper(moves: seq<Ledger.Move>, k: nat) {
    forall i :: 0 <= i < |moves| ==> (moves[i].Take? || moves[i].Undo?) && moves[i].k == k
  }

  /** The transactions a run takes, and whether their receipts were there. */
  function Takes(moves: seq<Ledger.Move>): seq<(Hash, bool)> {
    if moves == [] then [] else
    var last := moves[|moves| - 1];
    Takes(moves[..|moves| - 1]) + if last.Take? then [(last.h, last.seen)] else []
  }

  function Seen(page: seq<Hash>, receipts: map<Hash, Receipt>): seq<(Hash, bool)> {
    seq(|page|, i requires 0 <= i < |page| => (page[i], page[i] in receipts))
  }

  /** What is left of the batch. */
  function Rest(batch: map<Hash, Tx>, done: seq<Hash>): map<Hash, Tx> {
    map h | h in batch && h !in done :: batch[h]
  }

  lemma InRest(batch: map<Hash, Tx>, page: seq<Hash>, i: nat)
    requires i < |page| && page[i] in batch && forall j, n :: 0 <= j < n < |page| ==> page[j] != page[n]
    ensures page[i] in Rest(batch, page[..i]) && Rest(batch, page[..i])[page[i]] == batch[page[i]]
    ensures Rest(batch, page[..i + 1]) == Rest(batch, page[..i]) - {page[i]}
  {
    assert page[..i + 1] == page[..i] + [page[i]];
  }

  lemma RestNone(batch: map<Hash, Tx>, page: seq<Hash>)
    requires forall h :: h in batch ==> h in page
    ensures Rest(batch, page) == map[]
  {
  }

  lemma TakesMore(moves: seq<Ledger.Move>, more: seq<Ledger.Move>, page: seq<Hash>, i: nat,
                  receipts: map<Hash, Receipt>, k: nat)
    requires i < |page| && moves != [] && OfSweeper(moves[1..], k) && Takes(moves) == Seen(page[..i], receipts)
    requires var take := Ledger.Take(k, page[i], page[i] in receipts); more == [take] || more == [take, Ledger.Undo(k)]
    ensures moves + more != [] && (moves + more)[0] == moves[0] && OfSweeper((moves + more)[1..], k)
    ensures Takes(moves + more) == Seen(page[..i + 1], receipts)
  {
    hide Takes;
    assert (moves + more)[1..] == moves[1..] + more;
    assert Seen(page[..i + 1], receipts) == Seen(page[..i], receipts) + [(page[i], page[i] in receipts)];
    TakesOne(moves, more[0]);
    if |more| == 1 {
      assert moves + more == moves + [more[0]];
    } else {
      TakesOne(moves + [more[0]], more[1]);
      assert moves + more == moves + [more[0]] + [more[1]];
    }
  }

  lemma TakesOne(moves: seq<Ledger.Move>, m: Ledger.Move)
    ensures Takes(moves + [m]) == Takes(moves) + if m.Take? then [(m.h, m.seen)] else []
  {
    assert (moves + [m])[..|moves|] == moves;
  }

  lemma PageRead(s: Ledger.State, dir: Directory, chain: Ledger.Verdicts, k: nat, page: seq<Hash>, batch: map<Hash, Tx>,
                 receipts: map<Hash, Receipt>)
    requires k < |s.sweepers| && s.sweepers[k].undoing.None?
    requires forall i :: 0 <= i < |page| ==> page[i] in s.db.txs && s.db.txs[page[i]].sync == Pending
    requires batch.Keys == (set h | h in page) && forall h :: h in batch ==> batch[h] == s.db.txs[h]
    ensures var read := Ledger.ReadBatch(k, set h | h in page);
            && Follows(s, dir, chain, [read], k, s.db) && Takes([read]) == Seen(page[..0], receipts)
               && OfSweeper([read][1..], k)
            && Ledger.After(s, dir, chain, [read]).sweepers == s.sweepers[k := Ledger.Sweeper(Rest(batch, page[..0]),
                        None, None)]
  {
    hide Ledger.RunOk, Ledger.After, Ledger.Step;
    var hs := set h | h in page;
    var read := Ledger.ReadBatch(k, hs);
    NothingRun(s, dir, chain);
    ReadStep(s, dir, chain, k, hs, batch);
    Ledger.RunsOn(s, dir, chain, [], read);
    assert [] + [read] == [read] && [read][..0] == [] && Takes([]) == [];
    RestAll(batch, page[..0]);
  }

  lemma NothingRun(s: Ledger.State, dir: Directory, chain: Ledger.Verdicts)
    ensures Ledger.RunOk(s, dir, chain, []) && Ledger.After(s, dir, chain, []) == s
  {
  }

  lemma RestAll(batch: map<Hash, Tx>, done: seq<Hash>)
    requires done == []
    ensures Rest(batch, done) == batch
  {
  }

  lemma ReadStep(s: Ledger.State, dir: Directory, chain: Ledger.Verdicts, k: nat, hs: set<Hash>, batch: map<Hash, Tx>)
    requires Ledger.Enabled(s, chain, Ledger.ReadBatch(k, hs))
    requires batch.Keys == hs && forall h :: h in batch ==> h in s.db.txs && batch[h] == s.db.txs[h]
    ensures Ledger.Step(s, dir, chain, Ledger.ReadBatch(k, hs)) ==
            s.(sweepers := s.sweepers[k := Ledger.Sweeper(batch, None, None)])
  {
    var t := Ledger.Step(s, dir, chain, Ledger.ReadBatch(k, hs));
    assert t.sweepers[k].batch == batch;
  }
}

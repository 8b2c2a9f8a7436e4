/** The indexer as a class: handlers that read and write tables step by step, the persisted cursor, and the chunked
    catch-up that may die at any point. */
module IndexerServices {
  import opened Tables
  import opened Chain
  import opened Indexer
  import opened IndexerFacts
  import opened Replay
  import opened Recovery

  const CHUNK_SIZE: nat := 2000
  const DEFAULT_DEPTH: nat := 5000

  /** The logs of one contract in blocks `lo` (included) to `hi` (excluded), in chain order. */
  function LogsIn(chain: seq<seq<Log>>, lo: nat, hi: nat): seq<Log>
    requires lo <= hi <= |chain|
    decreases hi
  {
    if lo == hi then [] else LogsIn(chain, lo, hi - 1) + chain[hi - 1]
  }

  lemma {:induction false} LogsInSplit(chain: seq<seq<Log>>, lo: nat, mid: nat, hi: nat)
    requires lo <= mid <= hi <= |chain|
    ensures LogsIn(chain, lo, hi) == LogsIn(chain, lo, mid) + LogsIn(chain, mid, hi)
    decreases hi
  {
    if mid < hi {
      LogsInSplit(chain, lo, mid, hi - 1);
    }
  }

  /** Consecutive block ranges `(from, to)` that cover `lo` to `hi` (excluded) without gap or overlap: each is full
      except possibly the last, which ends at `latest`. */
  predicate Tiles(chunks: seq<(nat, nat)>, lo: nat, hi: nat, latest: nat) {
    && (chunks == [] ==> lo == hi)
    && (chunks != [] ==> chunks[0].0 == lo && chunks[|chunks| - 1].1 + 1 == hi)
    && (forall i :: 0 <= i < |chunks| ==> chunks[i].0 <= chunks[i].1 && chunks[i].1 <= latest)
    && (forall i :: 0 <= i < |chunks| ==> chunks[i].1 + 1 - chunks[i].0 == CHUNK_SIZE
                                          || (chunks[i].1 + 1 - chunks[i].0 < CHUNK_SIZE && chunks[i].1 == latest))
    && (forall i :: 0 < i < |chunks| ==> chunks[i].0 == chunks[i - 1].1 + 1)
  }

  class IndexerService {
    const dir: Directory
    var db: Db
    var indexerState: map<string, nat>   // persisted: contract name -> last block
    var cursorTracker: map<string, nat>  // in memory

    constructor (dir: Directory, db: Db, indexerState: map<string, nat>)
      ensures this.dir == dir && this.db == db && this.indexerState == indexerState && cursorTracker == map[]
    {
      this.dir, this.db, this.indexerState, this.cursorTracker := dir, db, indexerState, map[];
    }

    // ── Tracking rows ──

    method FinalizeTx(h: Hash, action: Action, block: nat)
      modifies this`db
      ensures db == Finalize(old(db), h, block, action)
      ensures SameRows(old(db), db) && TxMined(old(db), db, h, block, action)
    {
      if h in db.txs {
        db := db.(txs := db.txs[h := db.txs[h].(sync := Mined, block := Some(block))]);
      } else {
        db := db.(txs := db.txs[h := Tx(action, Mined, Some(block), None, None, None)]);
      }
    }

    /** `update`. */
    method UpdateOne(id: RowId, data: Data)
      requires id in db.rows
      modifies this`db
      ensures db == Update(old(db), id, data)
      ensures RowsSet(old(db), db, map[id := data]) && db.txs == old(db).txs && db.rows.Keys == old(db).rows.Keys
    {
      UpdateSets(db, id, data);
      db := Update(db, id, data);
    }

    /** `update` of the row a query found, if it found one. */
    method UpdateFound(found: Option<RowId>, data: Data)
      requires found.Some? ==> found.value in db.rows
      modifies this`db
      ensures db == if found.Some? then Update(old(db), found.value, data) else old(db)
      ensures FoundSet(old(db), db, found, data) && db.txs == old(db).txs
    {
      if found.Some? { UpdateOne(found.value, data); }
    }

    /** `create`. */
    method CreateIn(table: Table, data: Data)
      modifies this`db
      ensures db == Insert(old(db), table, data)
      ensures RowAdded(old(db), db, table, data) && db.txs == old(db).txs && db.rows.Keys >= old(db).rows.Keys
    {
      InsertAdds(db, table, data);
      db := Insert(db, table, data);
    }

    /** `upsert`. */
    method Upsert(known: Option<RowId>, update: Data, table: Table, create: Data)
      requires known.Some? ==> known.value in db.rows
      modifies this`db
      ensures db == if known.Some? then Update(old(db), known.value, update) else Insert(old(db), table, create)
      ensures Upserted(old(db), db, known, update, table, create) && db.txs == old(db).txs
    {
      if known.Some? { UpdateOne(known.value, update); } else { CreateIn(table, create); }
    }

    // ── Ownership ──

    method HandleVehicleReg(ownTid: nat, owner: string, rtoId: nat, dvpId: nat, h: Hash, block: nat)
      requires Sound(db)
      modifies this`db
      ensures db == Handle(old(db), dir, Log(h, block, VehicleReg(ownTid, owner, rtoId, dvpId)))
      ensures var passport, ownership := Find(old(db), Passports, dvpId), Find(old(db), Ownerships, ownTid);
              var user, rto := UserOf(dir, Lower(owner)), EntityOf(dir, rtoId);
              if passport.None? then
                SameRows(old(db), db) && TxMined(old(db), db, h, block, VehicleRegisterRto)
              else if ownership.None? && rto.None? then
                db == old(db)
              else if ownership.Some? then
                && RowsSet(old(db), db,
                           map[ownership.value := if user.None? then map[OwnerWallet := Text(Lower(owner))]
                               else map[OwnerWallet := Text(Lower(owner)), OwnerUser := Num(user.value)],
                               passport.value := map[Status := St(VehicleActive)]])
                && TxMined(old(db), db, h, block, VehicleRegisterRto)
              else
                && (exists added: Db ::
                      && RowAdded(old(db), added, Ownerships,
                                  map[OnChainId := Num(ownTid), PassportRef := Num(passport.value),
                                      EntityRef := Num(rto.value), OwnerWallet := Text(Lower(owner)),
                                      OwnerUser := OrNull(user), RegisteredBy := OrNull(MemberOf(TxOf(old(db), h))),
                                      TransferCount := Num(0), IsActive := Flag(true)])
                      && RowsSet(added, db, map[passport.value := map[Status := St(VehicleActive)]]))
                && TxMined(old(db), db, h, block, VehicleRegisterRto)
    {
      hide Handle, Update, Insert, Finalize, RowsSet, FoundSet, RowAdded, SameRows, TxMined, CreateData;
      RegHandle(db, dir, Log(h, block, VehicleReg(ownTid, owner, rtoId, dvpId)));
      ghost var before := db;
      var rto, user := EntityOf(dir, rtoId), UserOf(dir, Lower(owner));
      var passport := FindUniqueRow(db, Passports, dvpId);
      if passport.None? {
        FinalizeTx(h, VehicleRegisterRto, block);
        return;
      }
      var tx := TxOf(db, h);
      var ownership := FindUniqueRow(db, Ownerships, ownTid);
      var active := map[Status := St(VehicleActive)];
      if ownership.Some? {
        var data := map[OwnerWallet := Text(Lower(owner))];
        if user.Some? { data := data[OwnerUser := Num(user.value)]; }
        UpdateOne(ownership.value, data);
        ghost var owned := db;
        UpdateOne(passport.value, active);
        ghost var written := db;
        SetTwo(before, owned, written, ownership.value, data, passport.value, active);
        FinalizeTx(h, VehicleRegisterRto, block);
        MinedAfter(before, written, db, h, block, VehicleRegisterRto);
        SetThenSame(before, written, db, map[ownership.value := data, passport.value := active]);
      } else {
        if rto.None? { return; }  // foreign key constraint
        var data := map[OnChainId := Num(ownTid), PassportRef := Num(passport.value), EntityRef := OrNull(rto),
                        OwnerWallet := Text(Lower(owner)), OwnerUser := OrNull(user),
                        RegisteredBy := OrNull(MemberOf(tx)), TransferCount := Num(0), IsActive := Flag(true)];
        RegCreateData(db, dir, tx, ownTid, owner, rtoId, dvpId);
        CreateIn(Ownerships, data);
        ghost var added := db;
        UpdateOne(passport.value, active);
        ghost var written := db;
        FinalizeTx(h, VehicleRegisterRto, block);
        MinedAfter(before, written, db, h, block, VehicleRegisterRto);
        SetThenSame(added, written, db, map[passport.value := active]);
      }
    }

    method HandleXferInit(reqId: nat, ownTid: nat, seller: string, buyer: string, h: Hash, block: nat)
      requires Sound(db)
      modifies this`db
      ensures db == Handle(old(db), dir, Log(h, block, XferInit(reqId, ownTid, seller, buyer)))
      ensures var ownership, req := Find(old(db), Ownerships, ownTid), Find(old(db), Transfers, reqId);
              if ownership.Some? && req.None? then
                RowAdded(old(db), db, Transfers,
                         map[OnChainId := Num(reqId), OwnershipRef := Num(ownership.value),
                             SellerWallet := Text(Lower(seller)), SellerUser := OrNull(UserOf(dir, Lower(seller))),
                             BuyerWallet := Text(Lower(buyer)), BuyerUser := OrNull(UserOf(dir, Lower(buyer))),
                             Status := St(TransferPending)])
              else
                FoundSet(old(db), db, if ownership.Some? then req else None, map[Status := St(TransferPending)])
      ensures TxMined(old(db), db, h, block, TransferInit)
    {
      hide Handle, Update, Insert, Finalize, FoundSet, RowAdded, SameRows, TxMined, CreateData;
      XferInitHandle(db, dir, Log(h, block, XferInit(reqId, ownTid, seller, buyer)));
      ghost var before := db;
      var ownership := FindUniqueRow(db, Ownerships, ownTid);
      var req := FindUniqueRow(db, Transfers, reqId);
      if ownership.Some? && req.None? {
        var data := map[OnChainId := Num(reqId), OwnershipRef := Num(ownership.value),
                        SellerWallet := Text(Lower(seller)), SellerUser := OrNull(UserOf(dir, Lower(seller))),
                        BuyerWallet := Text(Lower(buyer)), BuyerUser := OrNull(UserOf(dir, Lower(buyer))),
                        Status := St(TransferPending)];
        XferCreateData(db, dir, TxOf(db, h), reqId, ownTid, seller, buyer);
        CreateIn(Transfers, data);
        ghost var written := db;
        FinalizeTx(h, TransferInit, block);
        AddedAndMined(before, written, db, Transfers, data, h, block, TransferInit);
      } else {
        var known, data := if ownership.Some? then req else None, map[Status := St(TransferPending)];
        UpdateFound(known, data);
        ghost var written := db;
        FinalizeTx(h, TransferInit, block);
        SetAndMined(before, written, db, known, data, h, block, TransferInit);
      }
    }

    method HandleXferCancelled(reqId: nat, h: Hash, block: nat)
      requires Sound(db)
      modifies this`db
      ensures db == Handle(old(db), dir, Log(h, block, XferCancelled(reqId)))
      ensures FoundSet(old(db), db, Find(old(db), Transfers, reqId), map[Status := St(Status.TransferCancelled)])
      ensures TxMined(old(db), db, h, block, TransferCancel)
    {
      hide Handle, Update, Finalize, FoundSet, SameRows, TxMined;
      AmendHandle(db, dir, Log(h, block, XferCancelled(reqId)), Transfers, reqId);
      ghost var before := db;
      var req := FindUniqueRow(db, Transfers, reqId);
      var data := map[Status := St(Status.TransferCancelled)];
      UpdateFound(req, data);
      ghost var written := db;
      FinalizeTx(h, TransferCancel, block);
      SetAndMined(before, written, db, req, data, h, block, TransferCancel);
    }

    method HandleXferApproved(reqId: nat, approver: nat, h: Hash, block: nat)
      requires Sound(db)
      modifies this`db
      ensures db == Handle(old(db), dir, Log(h, block, XferApproved(reqId, approver)))
      ensures approver == 1 ==>
                FoundSet(old(db), db, Find(old(db), Transfers, reqId), map[Status := St(TransferBuyerAccepted)])
                && TxMined(old(db), db, h, block, TransferApproveBuyer)
      ensures approver == 2 ==>
                var rto := MemberOf(TxOf(old(db), h));
                && FoundSet(old(db), db, Find(old(db), Transfers, reqId),
                            if rto.None? then map[Status := St(TransferRtoApproved)]
                            else map[Status := St(TransferRtoApproved), RtoApprover := Num(rto.value)])
                && TxMined(old(db), db, h, block, TransferApproveRto)
      ensures approver !in {1, 2} ==>
                FoundSet(old(db), db, Find(old(db), Transfers, reqId), map[Status := St(TransferPending)])
                && TxMined(old(db), db, h, block, TransferApproveBuyer)
    {
      hide Handle, Update, Finalize, FoundSet, SameRows, TxMined;
      AmendHandle(db, dir, Log(h, block, XferApproved(reqId, approver)), Transfers, reqId);
      ghost var before := db;
      var req := FindUniqueRow(db, Transfers, reqId);
      var newStatus, action := TransferPending, TransferApproveBuyer;
      if approver == 1 { newStatus := TransferBuyerAccepted; }
      if approver == 2 { newStatus, action := TransferRtoApproved, TransferApproveRto; }
      var data, member := map[Status := St(newStatus)], MemberOf(TxOf(db, h));
      if approver == 2 && member.Some? { data := data[RtoApprover := Num(member.value)]; }
      UpdateFound(req, data);
      ghost var written := db;
      FinalizeTx(h, action, block);
      SetAndMined(before, written, db, req, data, h, block, action);
    }

    method HandleXferDone(reqId: nat, ownTid: nat, newOwner: string, h: Hash, block: nat)
      requires Sound(db)
      modifies this`db
      ensures db == Handle(old(db), dir, Log(h, block, XferDone(reqId, ownTid, newOwner)))
      ensures FoundSet(old(db), db, Find(old(db), Ownerships, ownTid),
                       map[OwnerWallet := Text(Lower(newOwner)), OwnerUser := OrNull(UserOf(dir, Lower(newOwner)))])
      ensures db.txs == old(db).txs
    {
      hide Handle, Update, Finalize, FoundSet, SameRows, TxMined;
      AmendHandle(db, dir, Log(h, block, XferDone(reqId, ownTid, newOwner)), Ownerships, ownTid);
      ghost var before := db;
      var ownership := FindUniqueRow(db, Ownerships, ownTid);
      var data := map[OwnerWallet := Text(Lower(newOwner)), OwnerUser := OrNull(UserOf(dir, Lower(newOwner)))];
      UpdateFound(ownership, data);
    }

    // ── Challans ──

    method HandleChallanIssued(challanId: nat, ownTid: nat, policeId: nat, amount: nat, h: Hash, block: nat)
      requires Sound(db)
      modifies this`db
      ensures db == Handle(old(db), dir, Log(h, block, ChallanIssued(challanId, ownTid, policeId, amount)))
      ensures var own, police := Find(old(db), Ownerships, ownTid), EntityOf(dir, policeId);
              var tx, found := TxOf(old(db), h), Find(old(db), Challans, challanId);
              var link := if tx.Some? && TableOf(tx.value.action) == Challans then tx.value.target else None;
              var numbers := map[OnChainId := Num(challanId), OwnTid := Num(ownTid), Status := St(ChallanPending)];
              if own.None? || police.None? then
                SameRows(old(db), db) && TxMined(old(db), db, h, block, ChallanIssue)
              else if link.Some? && found.Some? && found != link then
                db == old(db)
              else
                && Upserted(old(db), db, if link.Some? then link else found, numbers, Challans,
                            map[OwnershipRef := Num(own.value), EntityRef := Num(police.value), Amount := Num(amount),
                                IssuedAt := Date, OwnerUser := At(old(db).rows[own.value], OwnerUser),
                                CreatedBy := OrNull(MemberOf(tx))] + numbers)
                && TxMined(old(db), db, h, block, ChallanIssue)
    {
      ghost var ev, before := ChallanIssued(challanId, ownTid, policeId, amount), db;
      hide Handle, MakeEffect, Parents, Linked, PromoteData, CreateData, Insert, Update, Finalize, RowsSet,
          RowAdded, Upserted, SameRows, TxMined;
      MakeHandle(db, dir, Log(h, block, ev));
      ChallanEffect(db, dir, TxOf(db, h), challanId, ownTid, policeId, amount);
      var police, tx := EntityOf(dir, policeId), TxOf(db, h);
      var ownership := FindUniqueRow(db, Ownerships, ownTid);
      if ownership.None? || police.None? {
        FinalizeTx(h, ChallanIssue, block);
        return;
      }
      var numbers := map[OnChainId := Num(challanId), OwnTid := Num(ownTid), Status := St(ChallanPending)];
      var preCreated := if tx.Some? && TableOf(tx.value.action) == Challans then tx.value.target else None;
      var found := FindUniqueRow(db, Challans, challanId);
      assert tx.Some? ==> TargetOk(db, tx.value);
      if preCreated.Some? && found.Some? && found != preCreated { return; }  // unique constraint
      var known := if preCreated.Some? then preCreated else found;
      var data := map[OwnershipRef := Num(ownership.value), EntityRef := Num(police.value), Amount := Num(amount),
                      IssuedAt := Date, OwnerUser := At(db.rows[ownership.value], OwnerUser),
                      CreatedBy := OrNull(MemberOf(tx))] + numbers;
      Upsert(known, numbers, Challans, data);
      ghost var written := db;
      FinalizeTx(h, ChallanIssue, block);
      UpsertAndMined(before, written, db, known, numbers, Challans, data, h, block, ChallanIssue);
    }

    method HandleChallanPaid(challanId: nat, h: Hash, block: nat)
      requires Sound(db)
      modifies this`db
      ensures db == Handle(old(db), dir, Log(h, block, Event.ChallanPaid(challanId)))
      ensures FoundSet(old(db), db, Find(old(db), Challans, challanId),
                       map[Status := St(Status.ChallanPaid), PaidAt := Date])
      ensures TxMined(old(db), db, h, block, ChallanPay)
    {
      hide Handle, Update, Finalize, FoundSet, SameRows, TxMined;
      AmendHandle(db, dir, Log(h, block, Event.ChallanPaid(challanId)), Challans, challanId);
      ghost var before := db;
      var challan := FindUniqueRow(db, Challans, challanId);
      var data := map[Status := St(Status.ChallanPaid), PaidAt := Date];
      UpdateFound(challan, data);
      ghost var written := db;
      FinalizeTx(h, ChallanPay, block);
      SetAndMined(before, written, db, challan, data, h, block, ChallanPay);
    }

    method HandleChallanCancelled(challanId: nat, isAdminCancel: bool, h: Hash, block: nat)
      requires Sound(db)
      modifies this`db
      ensures db == Handle(old(db), dir, Log(h, block, Event.ChallanCancelled(challanId, isAdminCancel)))
      ensures FoundSet(old(db), db, Find(old(db), Challans, challanId),
                       map[Status := St(Status.ChallanCancelled), CancelledAt := Date,
                           CancelledBy := OrNull(MemberOf(TxOf(old(db), h))), IsAdminCancel := Flag(isAdminCancel)])
      ensures TxMined(old(db), db, h, block, ChallanCancel)
    {
      hide Handle, Update, Finalize, FoundSet, SameRows, TxMined;
      AmendHandle(db, dir, Log(h, block, Event.ChallanCancelled(challanId, isAdminCancel)), Challans, challanId);
      ghost var before := db;
      var challan := FindUniqueRow(db, Challans, challanId);
      var data := map[Status := St(Status.ChallanCancelled), CancelledAt := Date,
                      CancelledBy := OrNull(MemberOf(TxOf(db, h))), IsAdminCancel := Flag(isAdminCancel)];
      UpdateFound(challan, data);
      ghost var written := db;
      FinalizeTx(h, ChallanCancel, block);
      SetAndMined(before, written, db, challan, data, h, block, ChallanCancel);
    }

    // ── Insurance ──

    method HandlePolicyIssued(polId: nat, ownTid: nat, compId: nat, h: Hash, block: nat)
      requires Sound(db)
      modifies this`db
      ensures db == Handle(old(db), dir, Log(h, block, PolicyIssued(polId, ownTid, compId)))
      ensures var own, comp := Find(old(db), Ownerships, ownTid), EntityOf(dir, compId);
              var tx, found := TxOf(old(db), h), Find(old(db), Policies, polId);
              var link := if tx.Some? && tx.value.action == InsuranceIssue then tx.value.target else None;
              if own.None? || comp.None? then
                SameRows(old(db), db) && TxMined(old(db), db, h, block, InsuranceIssue)
              else if link.Some? && found.Some? && found != link then
                db == old(db)
              else
                var owner := old(db).rows[own.value];
                && Upserted(old(db), db, if link.Some? then link else found,
                            if link.Some? then map[OnChainId := Num(polId), Status := St(PolicyActive),
                                                   OwnerUser := At(owner, OwnerUser), IssueDate := Date]
                            else map[Status := St(PolicyActive)],
                            Policies,
                            map[OnChainId := Num(polId), OwnershipRef := Num(own.value), EntityRef := Num(comp.value),
                                ExpiryDate := Date, IssueDate := Date, ClaimCount := Num(0),
                                OwnerUser := At(owner, OwnerUser), OwnerWallet := At(owner, OwnerWallet),
                                CreatedBy := OrNull(MemberOf(tx))] + map[Status := St(PolicyActive)])
                && TxMined(old(db), db, h, block, InsuranceIssue)
    {
      ghost var ev, before := PolicyIssued(polId, ownTid, compId), db;
      hide Handle, MakeEffect, Parents, Linked, PromoteData, CreateData, Insert, Update, Finalize, RowsSet, RowAdded,
          Upserted, SameRows, TxMined;
      MakeHandle(db, dir, Log(h, block, ev));
      PolicyEffect(db, dir, TxOf(db, h), polId, ownTid, compId);
      var comp, tx := EntityOf(dir, compId), TxOf(db, h);
      var ownership := FindUniqueRow(db, Ownerships, ownTid);
      if ownership.None? || comp.None? {
        FinalizeTx(h, InsuranceIssue, block);
        return;
      }
      var owner := db.rows[ownership.value];
      var preCreated := if tx.Some? && tx.value.action == InsuranceIssue then tx.value.target else None;
      var found := FindUniqueRow(db, Policies, polId);
      assert tx.Some? ==> TargetOk(db, tx.value);
      if preCreated.Some? && found.Some? && found != preCreated { return; }  // unique constraint
      var known := if preCreated.Some? then preCreated else found;
      var active := map[Status := St(PolicyActive)];
      var promoted := map[OnChainId := Num(polId), Status := St(PolicyActive), OwnerUser := At(owner, OwnerUser),
                          IssueDate := Date];
      var update := if preCreated.Some? then promoted else active;
      var data := map[OnChainId := Num(polId), OwnershipRef := Num(ownership.value), EntityRef := Num(comp.value),
                      ExpiryDate := Date, IssueDate := Date, ClaimCount := Num(0), OwnerUser := At(owner, OwnerUser),
                      OwnerWallet := At(owner, OwnerWallet), CreatedBy := OrNull(MemberOf(tx))] + active;
      Upsert(known, update, Policies, data);
      ghost var written := db;
      FinalizeTx(h, InsuranceIssue, block);
      UpsertAndMined(before, written, db, known, update, Policies, data, h, block, InsuranceIssue);
    }

    method HandlePolicyExpired(polId: nat, h: Hash, block: nat)
      requires Sound(db)
      modifies this`db
      ensures db == Handle(old(db), dir, Log(h, block, Event.PolicyExpired(polId)))
      ensures FoundSet(old(db), db, Find(old(db), Policies, polId), map[Status := St(Status.PolicyExpired)])
      ensures TxMined(old(db), db, h, block, InsuranceExpire)
    {
      hide Handle, Update, Finalize, FoundSet, SameRows, TxMined;
      AmendHandle(db, dir, Log(h, block, Event.PolicyExpired(polId)), Policies, polId);
      ghost var before := db;
      var policy := FindUniqueRow(db, Policies, polId);
      var data := map[Status := St(Status.PolicyExpired)];
      UpdateFound(policy, data);
      ghost var written := db;
      FinalizeTx(h, InsuranceExpire, block);
      SetAndMined(before, written, db, policy, data, h, block, InsuranceExpire);
    }

    method HandleClaimFiled(polId: nat, claimNum: nat, h: Hash, block: nat)
      requires Sound(db)
      modifies this`db
      ensures db == Handle(old(db), dir, Log(h, block, ClaimFiled(polId, claimNum)))
      ensures FoundSet(old(db), db, Find(old(db), Policies, polId), map[ClaimCount := Num(claimNum)])
      ensures TxMined(old(db), db, h, block, InsuranceClaim)
    {
      hide Handle, Update, Finalize, FoundSet, SameRows, TxMined;
      AmendHandle(db, dir, Log(h, block, ClaimFiled(polId, claimNum)), Policies, polId);
      ghost var before := db;
      var policy := FindUniqueRow(db, Policies, polId);
      var data := map[ClaimCount := Num(claimNum)];
      UpdateFound(policy, data);
      ghost var written := db;
      FinalizeTx(h, InsuranceClaim, block);
      SetAndMined(before, written, db, policy, data, h, block, InsuranceClaim);
    }

    // ── PUC ──

    method HandlePucIssued(certId: nat, ownTid: nat, passed: bool, h: Hash, block: nat)
      requires Sound(db)
      modifies this`db
      ensures db == Handle(old(db), dir, Log(h, block, PucIssued(certId, ownTid, passed)))
      ensures var own, tx, found := Find(old(db), Ownerships, ownTid), TxOf(old(db), h), Find(old(db), Pucs, certId);
              var link := if tx.Some? && tx.value.action == PucIssue then tx.value.target else None;
              if own.None? || tx.None? || tx.value.entity.None? then
                SameRows(old(db), db) && TxMined(old(db), db, h, block, PucIssue)
              else if link.Some? && found.Some? && found != link then
                db == old(db)
              else
                var owner := old(db).rows[own.value];
                && Upserted(old(db), db, if link.Some? then link else found,
                            if link.Some? then map[OnChainId := Num(certId), Status := St(PucValid),
                                                   OwnerUser := At(owner, OwnerUser), IssueDate := Date]
                            else map[Status := St(PucValid)],
                            Pucs,
                            map[OnChainId := Num(certId), OwnershipRef := Num(own.value),
                                EntityRef := OrNull(tx.value.entity), ExpiryDate := Date, IssueDate := Date,
                                Passed := Flag(passed), OwnerUser := At(owner, OwnerUser),
                                OwnerWallet := At(owner, OwnerWallet), CreatedBy := OrNull(MemberOf(tx))]
                                + map[Status := St(PucValid)])
                && TxMined(old(db), db, h, block, PucIssue)
    {
      ghost var ev, before := PucIssued(certId, ownTid, passed), db;
      hide Handle, MakeEffect, Parents, Linked, PromoteData, CreateData, Insert, Update, Finalize, RowsSet, RowAdded,
          Upserted, SameRows, TxMined;
      MakeHandle(db, dir, Log(h, block, ev));
      PucEffect(db, dir, TxOf(db, h), certId, ownTid, passed);
      var tx := TxOf(db, h);
      var ownership := FindUniqueRow(db, Ownerships, ownTid);
      if ownership.None? || tx.None? || tx.value.entity.None? {
        FinalizeTx(h, PucIssue, block);
        return;
      }
      var owner := db.rows[ownership.value];
      var preCreated := if tx.value.action == PucIssue then tx.value.target else None;
      var found := FindUniqueRow(db, Pucs, certId);
      assert TargetOk(db, tx.value);
      if preCreated.Some? && found.Some? && found != preCreated { return; }  // unique constraint
      var known := if preCreated.Some? then preCreated else found;
      var valid := map[Status := St(PucValid)];
      var promoted := map[OnChainId := Num(certId), Status := St(PucValid), OwnerUser := At(owner, OwnerUser),
                          IssueDate := Date];
      var update := if preCreated.Some? then promoted else valid;
      var data := map[OnChainId := Num(certId), OwnershipRef := Num(ownership.value),
                      EntityRef := OrNull(tx.value.entity), ExpiryDate := Date, IssueDate := Date,
                      Passed := Flag(passed), OwnerUser := At(owner, OwnerUser),
                      OwnerWallet := At(owner, OwnerWallet), CreatedBy := OrNull(MemberOf(tx))] + valid;
      Upsert(known, update, Pucs, data);
      ghost var written := db;
      FinalizeTx(h, PucIssue, block);
      UpsertAndMined(before, written, db, known, update, Pucs, data, h, block, PucIssue);
    }

    method HandlePucExpired(certId: nat, h: Hash, block: nat)
      requires Sound(db)
      modifies this`db
      ensures db == Handle(old(db), dir, Log(h, block, Event.PucExpired(certId)))
      ensures FoundSet(old(db), db, Find(old(db), Pucs, certId), map[Status := St(Status.PucExpired)])
      ensures TxMined(old(db), db, h, block, PucExpire)
    {
      hide Handle, Update, Finalize, FoundSet, SameRows, TxMined;
      AmendHandle(db, dir, Log(h, block, Event.PucExpired(certId)), Pucs, certId);
      ghost var before := db;
      var puc := FindUniqueRow(db, Pucs, certId);
      var data := map[Status := St(Status.PucExpired)];
      UpdateFound(puc, data);
      ghost var written := db;
      FinalizeTx(h, PucExpire, block);
      SetAndMined(before, written, db, puc, data, h, block, PucExpire);
    }

    // ── Loans ──

    method HandleLoanReg(loanId: nat, dvpId: nat, bankId: nat, borrower: string, amount: nat, h: Hash, block: nat)
      requires Sound(db)
      modifies this`db
      ensures db == Handle(old(db), dir, Log(h, block, Event.LoanReg(loanId, dvpId, bankId, borrower, amount)))
      ensures var passport, bank := Find(old(db), Passports, dvpId), EntityOf(dir, bankId);
              var tx, found := TxOf(old(db), h), Find(old(db), Loans, loanId);
              var ours := tx.None? || tx.value.action == Action.LoanReg;
              var link := if tx.Some? && ours then tx.value.target else None;
              var promoted := map[OnChainId := Num(loanId), Status := St(LoanActive),
                                  BorrowerUser := OrNull(UserOf(dir, Lower(borrower)))];
              if passport.Some? && bank.Some? && link.Some? && found.Some? && found != link then
                db == old(db)
              else
                && (if passport.None? || bank.None? then SameRows(old(db), db)
                    else
                      Upserted(old(db), db, if link.Some? then link else found, promoted, Loans,
                               map[PassportRef := Num(passport.value), EntityRef := Num(bank.value),
                                   BorrowerWallet := Text(Lower(borrower)), Amount := Num(amount),
                                   Col.NocIssued := Flag(false), CreatedBy := OrNull(MemberOf(tx))] + promoted))
                && if ours then TxMined(old(db), db, h, block, Action.LoanReg) else db.txs == old(db).txs
    {
      ghost var ev, before := Event.LoanReg(loanId, dvpId, bankId, borrower, amount), db;
      hide Handle, MakeEffect, Parents, Linked, PromoteData, CreateData, Insert, Update, Finalize, RowsSet, RowAdded,
          Upserted, SameRows, TxMined;
      MakeHandle(db, dir, Log(h, block, ev));
      LoanEffect(db, dir, TxOf(db, h), loanId, dvpId, bankId, borrower, amount);
      var bank, user, tx := EntityOf(dir, bankId), UserOf(dir, Lower(borrower)), TxOf(db, h);
      var ours := tx.None? || tx.value.action == Action.LoanReg;
      var passport := FindUniqueRow(db, Passports, dvpId);
      if passport.None? || bank.None? {
        if ours { FinalizeTx(h, Action.LoanReg, block); } else { Unchanged(db); }
        return;
      }
      var promoted := map[OnChainId := Num(loanId), Status := St(LoanActive), BorrowerUser := OrNull(user)];
      var preCreated := if tx.Some? && ours then tx.value.target else None;
      var found := FindUniqueRow(db, Loans, loanId);
      assert tx.Some? ==> TargetOk(db, tx.value);
      if preCreated.Some? && found.Some? && found != preCreated { return; }  // unique constraint
      var known := if preCreated.Some? then preCreated else found;
      var data := map[PassportRef := Num(passport.value), EntityRef := Num(bank.value),
                      BorrowerWallet := Text(Lower(borrower)), Amount := Num(amount), Col.NocIssued := Flag(false),
                      CreatedBy := OrNull(MemberOf(tx))] + promoted;
      Upsert(known, promoted, Loans, data);
      if ours {
        ghost var written := db;
        FinalizeTx(h, Action.LoanReg, block);
        UpsertAndMined(before, written, db, known, promoted, Loans, data, h, block, Action.LoanReg);
      }
    }

    method HandleNocIssued(loanId: nat, h: Hash, block: nat)
      requires Sound(db)
      modifies this`db
      ensures db == Handle(old(db), dir, Log(h, block, Event.NocIssued(loanId)))
      ensures FoundSet(old(db), db, Find(old(db), Loans, loanId),
                       map[Status := St(LoanCleared), ClearedAt := Date, Col.NocIssued := Flag(true), NocDate := Date])
      ensures TxMined(old(db), db, h, block, LoanClear)
    {
      hide Handle, Update, Finalize, FoundSet, SameRows, TxMined;
      AmendHandle(db, dir, Log(h, block, Event.NocIssued(loanId)), Loans, loanId);
      ghost var before := db;
      var loan := FindUniqueRow(db, Loans, loanId);
      var data := map[Status := St(LoanCleared), ClearedAt := Date, Col.NocIssued := Flag(true), NocDate := Date];
      UpdateFound(loan, data);
      ghost var written := db;
      FinalizeTx(h, LoanClear, block);
      SetAndMined(before, written, db, loan, data, h, block, LoanClear);
    }

    method HandleNocMinted(loanId: nat, owner: string, h: Hash, block: nat)
      requires Sound(db)
      modifies this`db
      ensures db == Handle(old(db), dir, Log(h, block, NocMinted(loanId, owner)))
      ensures FoundSet(old(db), db, Find(old(db), Loans, loanId),
                       map[NocRecipientWallet := Text(Lower(owner)),
                           NocRecipientUser := OrNull(UserOf(dir, Lower(owner)))])
      ensures db.txs == old(db).txs
    {
      hide Handle, Update, Finalize, FoundSet, SameRows, TxMined;
      AmendHandle(db, dir, Log(h, block, NocMinted(loanId, owner)), Loans, loanId);
      ghost var before := db;
      var loan := FindUniqueRow(db, Loans, loanId);
      var data := map[NocRecipientWallet := Text(Lower(owner)), NocRecipientUser := OrNull(UserOf(dir,
                      Lower(owner)))];
      UpdateFound(loan, data);
    }

    method HandleLoanRefinanced(oldLoanId: nat, newLoanId: nat, h: Hash, block: nat)
      requires Sound(db)
      modifies this`db
      ensures db == Handle(old(db), dir, Log(h, block, LoanRefinanced(oldLoanId, newLoanId)))
      ensures FoundSet(old(db), db, Find(old(db), Loans, oldLoanId),
                       map[Status := St(LoanCleared), ClearedAt := Date, Col.NocIssued := Flag(true), NocDate := Date])
      ensures TxMined(old(db), db, h, block, LoanRefinance)
    {
      hide Handle, Update, Finalize, FoundSet, SameRows, TxMined;
      AmendHandle(db, dir, Log(h, block, LoanRefinanced(oldLoanId, newLoanId)), Loans, oldLoanId);
      ghost var before := db;
      var oldLoan := FindUniqueRow(db, Loans, oldLoanId);
      var data := map[Status := St(LoanCleared), ClearedAt := Date, Col.NocIssued := Flag(true), NocDate := Date];
      UpdateFound(oldLoan, data);
      ghost var written := db;
      FinalizeTx(h, LoanRefinance, block);
      SetAndMined(before, written, db, oldLoan, data, h, block, LoanRefinance);
    }

    method HandlePendingLoanCancelled(dvpId: nat, bankId: nat, h: Hash, block: nat)
      requires Sound(db)
      modifies this`db
      ensures db == Handle(old(db), dir, Log(h, block, PendingLoanCancelled(dvpId, bankId)))
      ensures db.rows.Keys <= old(db).rows.Keys
      ensures var passport := Find(old(db), Passports, dvpId);
              forall id :: id in old(db).rows ==>
                var row, lender := old(db).rows[id], At(old(db).rows[id], EntityRef);
                && (id !in db.rows <==>
                      && passport.Some? && row.table == Loans && At(row, PassportRef) == Num(passport.value)
                      && At(row, Status) == St(LoanPending)
                      && lender.Num? && lender.n >= 0 && lender.n in dir.chainIds && dir.chainIds[lender.n] == bankId)
                && (id in db.rows ==> db.rows[id] == row)
      ensures h in db.txs && db.txs[h].sync == Mined && db.txs[h].block == Some(block)
    {
      hide Handle;
      WithdrawHandle(db, dir, Log(h, block, PendingLoanCancelled(dvpId, bankId)));
      var passport := FindUniqueRow(db, Passports, dvpId);
      var gone := set id | id in db.rows && passport.Some?
                           && db.rows[id].table == Loans && At(db.rows[id], Status) == St(LoanPending)
                           && At(db.rows[id], PassportRef) == Num(passport.value) && LentBy(dir, db.rows[id], bankId);
      assert gone == Withdrawn(db, dir, dvpId, bankId);
      db := DeleteAll(db, gone);
      FinalizeTx(h, LoanCancelPending, block);
    }

    method ProcessLog(log: Log)
      requires Sound(db)
      modifies this`db
      ensures db == Handle(old(db), dir, log) && Sound(db)
    {
      hide Handle, Sound;
      HandleSound(db, dir, log);
      if KindOf(log.event).Notice? { NoticeHandle(db, dir, log); }
      var h, b := log.hash, log.block;
      match log.event
      case VehicleReg(ownTid, owner, rtoId, dvpId) => HandleVehicleReg(ownTid, owner, rtoId, dvpId, h, b);
      case XferInit(reqId, ownTid, seller, buyer) => HandleXferInit(reqId, ownTid, seller, buyer, h, b);
      case XferCancelled(reqId) => HandleXferCancelled(reqId, h, b);
      case XferApproved(reqId, approver) => HandleXferApproved(reqId, approver, h, b);
      case XferDone(reqId, ownTid, newOwner) => HandleXferDone(reqId, ownTid, newOwner, h, b);
      case ChallanIssued(challanId, ownTid, policeId, amount) =>
        HandleChallanIssued(challanId, ownTid, policeId, amount, h, b);
      case ChallanPaid(challanId) => HandleChallanPaid(challanId, h, b);
      case ChallanCancelled(challanId, isAdminCancel) => HandleChallanCancelled(challanId, isAdminCancel, h, b);
      case PolicyIssued(polId, ownTid, compId) => HandlePolicyIssued(polId, ownTid, compId, h, b);
      case PolicyExpired(polId) => HandlePolicyExpired(polId, h, b);
      case ClaimFiled(polId, claimNum) => HandleClaimFiled(polId, claimNum, h, b);
      case PucIssued(certId, ownTid, passed) => HandlePucIssued(certId, ownTid, passed, h, b);
      case PucExpired(certId) => HandlePucExpired(certId, h, b);
      case LoanReg(loanId, dvpId, bankId, borrower, amount) =>
        HandleLoanReg(loanId, dvpId, bankId, borrower, amount, h, b);
      case NocIssued(loanId) => HandleNocIssued(loanId, h, b);
      case NocMinted(loanId, owner) => HandleNocMinted(loanId, owner, h, b);
      case LoanRefinanced(oldLoanId, newLoanId) => HandleLoanRefinanced(oldLoanId, newLoanId, h, b);
      case PendingLoanAttached(_, _) => FinalizeTx(h, Action.LoanReg, b);
      case PendingLoanCancelled(dvpId, bankId) => HandlePendingLoanCancelled(dvpId, bankId, h, b);
      case _ =>
    }

    // ── Catch-up ──

    /** The tracker and the persisted cursor move to the block together, or not at all. The check looks at the tracker
        only, so the persisted cursor moves back exactly when the block lies between a stale tracker and the cursor. */
    method AdvanceCursor(name: string, block: nat)
      modifies this`indexerState, this`cursorTracker
      ensures Tracked(name) >= old(Tracked(name))
              && Tracked(name) == if block > old(Tracked(name)) then block else old(Tracked(name))
      ensures forall other :: other != name ==>
                (other in indexerState <==> other in old(indexerState))
                    && (other in cursorTracker <==> other in old(cursorTracker))
                && (other in indexerState ==> indexerState[other] == old(indexerState)[other])
                && (other in cursorTracker ==> cursorTracker[other] == old(cursorTracker)[other])
      ensures name in indexerState <==> name in old(indexerState) || block > old(Tracked(name))
      ensures name in indexerState ==> indexerState[name] == if block > old(Tracked(name)) then block
              else old(indexerState)[name]
      ensures name in old(indexerState) ==>
                (indexerState[name] < old(indexerState)[name] <==> old(Tracked(name)) < block < old(indexerState)[name])
      ensures block > old(Tracked(name)) ==> name in cursorTracker
    {
      var currentTracker := if name in cursorTracker then cursorTracker[name] else 0;
      if block > currentTracker {
        cursorTracker := cursorTracker[name := block];
        indexerState := indexerState[name := block];
      }
    }

    /** The tracker of a contract, 0 while there is none. */
    function Tracked(name: string): nat
      reads this
    {
      if name in cursorTracker then cursorTracker[name] else 0
    }

    /** Dispatches the logs of one chunk; the process dies when the budget runs out. */
    method ProcessChunk(logs: seq<Log>, budget: nat) returns (handled: nat, left: nat)
      requires Sound(db)
      modifies this`db
      ensures Sound(db) && handled <= |logs| && db == Run(old(db), dir, logs[..handled])
      ensures handled < |logs| ==> left == 0
    {
      hide Handle;
      handled, left := 0, budget;
      while handled < |logs|
        invariant handled <= |logs| && Sound(db) && db == Run(old(db), dir, logs[..handled])
      {
        if left == 0 { return; }
        assert logs[..handled + 1][..handled] == logs[..handled];
        ProcessLog(logs[handled]);
        handled, left := handled + 1, left - 1;
      }
    }

    /** One chunk: its logs, then the cursor. `alive` is false when the process died before saving the cursor. The ghost
        parameters say which run from `db0` this chunk continues. */
    method CatchUpChunk(name: string, chain: seq<seq<Log>>, fromBlock: nat, toBlock: nat, budget: nat,
                        ghost db0: Db, ghost lo: nat, ghost hi: nat, ghost before: nat)
      returns (handled: nat, left: nat, alive: bool)
      requires Sound(db) && fromBlock <= toBlock < |chain|
      requires name in cursorTracker && cursorTracker[name] < toBlock
      requires lo <= fromBlock <= toBlock < hi <= |chain| && InHistory(db0, dir, chain, lo, fromBlock, db, before)
      modifies this
      ensures Sound(db) && handled <= |LogsIn(chain, fromBlock, toBlock + 1)|
      ensures alive ==> InHistory(db0, dir, chain, lo, toBlock + 1, db, before + handled)
      ensures CutHistory(db0, dir, chain, lo, fromBlock, hi, db, before + handled)
      ensures indexerState == if alive then old(indexerState)[name := toBlock] else old(indexerState)
      ensures alive ==> name in cursorTracker && cursorTracker[name] == toBlock
    {
      hide Run, Handle;
      handled, left := ProcessChunk(LogsIn(chain, fromBlock, toBlock + 1), budget);
      ChunkRun(db0, dir, chain, lo, fromBlock, toBlock + 1, hi, handled);
      alive := left > 0;
      if alive {
        left := left - 1;
        AdvanceCursor(name, toBlock);
        assert indexerState == old(indexerState)[name := toBlock];
      }
    }

    /** `chain` holds the logs of the contract block by block, and the process dies after `budget` steps, a step being
        the handling of one log or one cursor write. `chunks` are the block ranges queried and `handled` the number of
        logs dispatched. */
    method CatchUpContract(name: string, chain: seq<seq<Log>>, latest: nat, budget: nat)
      returns (done: bool, chunks: seq<(nat, nat)>, handled: nat)
      requires Sound(db) && latest < |chain|
      modifies this
      ensures Sound(db)
      ensures CaughtUp(dir, chain, name, latest, old(db), old(indexerState), db, indexerState, done, handled)
      ensures var start := LastBlock(old(indexerState), name, latest);
              if start >= latest then chunks == []
              else chunks != [] && Tiles(chunks, start + 1, chunks[|chunks| - 1].1 + 1, latest)
                   && (done ==> chunks[|chunks| - 1].1 == latest)
    {
      hide Run, Handle, LogsIn, Tiles, SavedCursor, InHistory, CutHistory, CaughtUp, Sound;
      var lastBlock := LastBlock(indexerState, name, latest);
      cursorTracker := cursorTracker[name := lastBlock];
      done, chunks, handled := true, [], 0;
      if lastBlock >= latest {
        NothingToDo(dir, chain, name, latest, db, indexerState);
        return;
      }
      ghost var db0, state0 := db, indexerState;
      NothingYet(db0, state0, name, dir, chain, lastBlock, latest);
      var left, fromBlock, upTo := budget, lastBlock + 1, lastBlock + 1;
      while fromBlock <= latest
        invariant lastBlock < upTo && upTo == if fromBlock <= latest then fromBlock else latest + 1
        invariant Sound(db) && Tiles(chunks, lastBlock + 1, upTo, latest)
        invariant InHistory(db0, dir, chain, lastBlock + 1, upTo, db, handled)
        invariant indexerState == SavedCursor(state0, name, lastBlock, upTo)
        invariant name in cursorTracker && cursorTracker[name] == upTo - 1
        decreases latest + 1 - fromBlock
      {
        var toBlock := if fromBlock + CHUNK_SIZE - 1 < latest then fromBlock + CHUNK_SIZE - 1 else latest;
        TilesExtend(chunks, lastBlock + 1, fromBlock, toBlock, latest);
        chunks := chunks + [(fromBlock, toBlock)];
        var n, alive;
        n, left, alive := CatchUpChunk(name, chain, fromBlock, toBlock, left, db0, lastBlock + 1, latest + 1, handled);
        handled := handled + n;
        if !alive {
          done := false;
          StoppedAt(dir, chain, name, latest, db0, state0, db, fromBlock, handled);
          return;
        }
        fromBlock, upTo := fromBlock + CHUNK_SIZE, toBlock + 1;
      }
      TilesEnd(chunks, lastBlock + 1, latest);
      Completed(dir, chain, name, latest, db0, state0, db, handled);
    }
  }

  lemma TilesEnd(chunks: seq<(nat, nat)>, lo: nat, latest: nat)
    requires Tiles(chunks, lo, latest + 1, latest) && lo <= latest
    ensures chunks != [] && chunks[|chunks| - 1].1 == latest
  {
  }

  lemma ChunkRun(db: Db, dir: Directory, chain: seq<seq<Log>>, lo: nat, from: nat, to: nat, hi: nat, n: nat)
    requires lo <= from <= to <= hi <= |chain| && n <= |LogsIn(chain, from, to)|
    ensures var all, before, chunk := LogsIn(chain, lo, hi), LogsIn(chain, lo, from), LogsIn(chain, from, to);
            && |before| + n <= |all|
            && Run(Run(db, dir, before), dir, chunk[..n]) == Run(db, dir, all[..|before| + n])
            && (n == |chunk| ==> |before| + n == |LogsIn(chain, lo, to)|
                                 && Run(db, dir, all[..|before| + n]) == Run(db, dir, LogsIn(chain, lo, to)))
  {
    hide Run, Handle;
    var all, before, chunk := LogsIn(chain, lo, hi), LogsIn(chain, lo, from), LogsIn(chain, from, to);
    LogsInSplit(chain, lo, from, hi);
    LogsInSplit(chain, from, to, hi);
    LogsInSplit(chain, lo, from, to);
    RunAppend(db, dir, before, chunk[..n]);
    assert all[..|before| + n] == before + chunk[..n];
    assert n == |chunk| ==> before + chunk[..n] == LogsIn(chain, lo, to);
  }

  lemma RunNothing(db: Db, dir: Directory)
    ensures Run(db, dir, []) == db
  {
  }

  ghost predicate InHistory(db0: Db, dir: Directory, chain: seq<seq<Log>>, lo: nat, hi: nat, db: Db, handled: nat)
    requires lo <= hi <= |chain|
  {
    handled == |LogsIn(chain, lo, hi)| && db == Run(db0, dir, LogsIn(chain, lo, hi))
  }

  /** Every log before block `from` has been dispatched, and nothing out of order. */
  ghost predicate CutHistory(db0: Db, dir: Directory, chain: seq<seq<Log>>, lo: nat, from: nat, hi: nat, db: Db,
                             handled: nat)
    requires lo <= from <= hi <= |chain|
  {
    |LogsIn(chain, lo, from)| <= handled <= |LogsIn(chain, lo, hi)|
        && db == Run(db0, dir, LogsIn(chain, lo, hi)[..handled])
  }

  lemma NothingYet(db: Db, state: map<string, nat>, name: string, dir: Directory, chain: seq<seq<Log>>, start: nat,
                   latest: nat)
    requires start < |chain|
    ensures InHistory(db, dir, chain, start + 1, start + 1, db, 0)
    ensures Tiles([], start + 1, start + 1, latest) && SavedCursor(state, name, start, start + 1) == state
    ensures forall upTo, upTo' :: start < upTo < upTo' ==>
            SavedCursor(state, name, start, upTo)[name := upTo' - 1] == SavedCursor(state, name, start, upTo')
  {
  }

  lemma NothingToDo(dir: Directory, chain: seq<seq<Log>>, name: string, latest: nat, db: Db, state: map<string, nat>)
    requires LastBlock(state, name, latest) >= latest && latest < |chain|
    ensures CaughtUp(dir, chain, name, latest, db, state, db, state, true, 0)
  {
  }

  lemma StoppedAt(dir: Directory, chain: seq<seq<Log>>, name: string, latest: nat,
                  db: Db, state: map<string, nat>, db': Db, from: nat, handled: nat)
    requires LastBlock(state, name, latest) < from <= latest < |chain|
    requires CutHistory(db, dir, chain, LastBlock(state, name, latest) + 1, from, latest + 1, db', handled)
    ensures CaughtUp(dir, chain, name, latest, db, state, db',
                     SavedCursor(state, name, LastBlock(state, name, latest), from), false, handled)
  {
    hide Run, Handle, LogsIn, Tiles;
  }

  lemma Completed(dir: Directory, chain: seq<seq<Log>>, name: string, latest: nat,
                  db: Db, state: map<string, nat>, db': Db, handled: nat)
    requires LastBlock(state, name, latest) < latest < |chain|
    requires InHistory(db, dir, chain, LastBlock(state, name, latest) + 1, latest + 1, db', handled)
    ensures CaughtUp(dir, chain, name, latest, db, state, db', state[name := latest], true, handled)
  {
    hide Run, Handle, Tiles;
    var logs := LogsIn(chain, LastBlock(state, name, latest) + 1, latest + 1);
    assert logs[..handled] == logs;
  }

  /** Where catch-up of a contract starts: after the persisted cursor, or DEFAULT_DEPTH blocks back. */
  function LastBlock(state: map<string, nat>, name: string, latest: nat): nat {
    if name in state then state[name] else if latest > DEFAULT_DEPTH then latest - DEFAULT_DEPTH else 0
  }

  /** The persisted cursors once catch-up from `start` has finished the chunks before `upTo`. */
  function SavedCursor(state: map<string, nat>, name: string, start: nat, upTo: nat): map<string, nat>
    requires start < upTo
  {
    if upTo == start + 1 then state else state[name := upTo - 1]
  }

  /** What one catch-up of a contract, completed or not, leaves behind: a prefix of the logs has been dispatched in
      order, every log up to the persisted cursor among them, and the cursor has not moved back. */
  ghost predicate CaughtUp(dir: Directory, chain: seq<seq<Log>>, name: string, latest: nat,
                           db: Db, state: map<string, nat>, db': Db, state': map<string, nat>, done: bool, handled: nat)
    requires latest < |chain|
  {
    var start := LastBlock(state, name, latest);
    && (forall n :: n != name ==> (n in state' <==> n in state) && (n in state' ==> state'[n] == state[n]))
    && (name in state ==> name in state')
    && if start >= latest then done && handled == 0 && db' == db && state' == state else
         var logs := LogsIn(chain, start + 1, latest + 1);
         && handled <= |logs| && db' == Run(db, dir, logs[..handled])
         && (name in state' ==> start <= state'[name] <= latest
                                && |LogsIn(chain, start + 1, state'[name] + 1)| <= handled)
         && (done ==> handled == |logs| && name in state' && state'[name] == latest)
  }

  lemma TilesExtend(chunks: seq<(nat, nat)>, lo: nat, from: nat, to: nat, latest: nat)
    requires Tiles(chunks, lo, from, latest) && lo <= from <= to <= latest
    requires to + 1 - from == CHUNK_SIZE || (to + 1 - from < CHUNK_SIZE && to == latest)
    ensures Tiles(chunks + [(from, to)], lo, to + 1, latest) && (chunks + [(from, to)])[|chunks|].1 == to
  {
  }

  /** Logs of the history before and after a cursor. */
  lemma CursorSplits(chain: seq<seq<Log>>, start: nat, cursor: nat, latest: nat)
    requires start <= cursor <= latest < |chain|
    ensures var all := LogsIn(chain, start + 1, latest + 1);
            && |LogsIn(chain, start + 1, cursor + 1)| <= |all|
            && all[..|LogsIn(chain, start + 1, cursor + 1)|] == LogsIn(chain, start + 1, cursor + 1)
            && all[|LogsIn(chain, start + 1, cursor + 1)|..] == LogsIn(chain, cursor + 1, latest + 1)
  {
    LogsInSplit(chain, start + 1, cursor + 1, latest + 1);
  }

  /** Every catch-up up to block `end` starts at the same block, or after its saved cursor. */
  predicate Anchored(state: map<string, nat>, name: string, end: nat) {
    name in state || end <= DEFAULT_DEPTH
  }

  /** A process that dies and is restarted over and over on a growing chain, and that completes on its last run, leaves
      the rows of one run without interruption: from a saved cursor always, and without one as long as the chain is not
      longer than the default depth. */
  method CatchUpWithCrashes(dir: Directory, db: Db, state: map<string, nat>, name: string, contract: Contract,
                            chain: seq<seq<Log>>, latest: seq<nat>, budgets: seq<nat>)
    returns (db': Db, done: bool)
    requires |latest| == |budgets| > 0 && latest[|latest| - 1] < |chain| && Anchored(state, name, latest[|latest| - 1])
    requires forall i :: 0 <= i < |latest| ==>
             LastBlock(state, name, latest[|latest| - 1]) <= latest[i] <= latest[|latest| - 1]
    requires Replayable(db, LogsIn(chain, LastBlock(state, name, latest[|latest| - 1]) + 1, latest[|latest| - 1] + 1),
                        contract)
    ensures done ==>
              db'.rows == Run(db, dir, LogsIn(chain, LastBlock(state, name, latest[|latest| - 1]) + 1,
                                              latest[|latest| - 1] + 1)).rows
  {
    hide Run, Handle, LogsIn, CaughtUp, Same, Replayable, Sound, LastBlock, Anchored;
    ghost var end := latest[|latest| - 1];
    ghost var start := LastBlock(state, name, end);
    ghost var all := LogsIn(chain, start + 1, end + 1);
    ghost var goal := Run(db, dir, all);
    ReplayableSound(db, all, contract);
    var state' := state;
    db', done := db, false;
    SameItself(goal);
    for i := 0 to |latest|
      invariant Anchored(state', name, end) && start <= LastBlock(state', name, end) <= end
      invariant Replayable(db', all, contract) && Sound(db')
      invariant Same(Run(db', dir, LogsIn(chain, LastBlock(state', name, end) + 1, end + 1)), goal)
      invariant i == |latest| && done ==> LastBlock(state', name, end) == end
    {
      var service := new IndexerService(dir, db', state');
      var handled, chunks;
      done, chunks, handled := service.CatchUpContract(name, chain, latest[i], budgets[i]);
      Restarted(dir, contract, chain, name, start, latest[i], end, db', state', service.db, service.indexerState, done,
                handled, goal);
      db', state' := service.db, service.indexerState;
    }
    if done { NothingLeft(db', dir, chain, end, goal); }
  }

  lemma ReplayableSound(db: Db, logs: seq<Log>, contract: Contract)
    requires Replayable(db, logs, contract)
    ensures Sound(db)
  {
  }

  lemma SameItself(db: Db)
    ensures Same(db, db)
  {
  }

  lemma NothingLeft(db: Db, dir: Directory, chain: seq<seq<Log>>, end: nat, goal: Db)
    requires end < |chain| && Same(Run(db, dir, LogsIn(chain, end + 1, end + 1)), goal)
    ensures db.rows == goal.rows
  {
    assert LogsIn(chain, end + 1, end + 1) == [];
    RunNothing(db, dir);
  }

  /** A catch-up run, completed or not, keeps the history replayable and its end in reach. */
  lemma Restarted(dir: Directory, contract: Contract, chain: seq<seq<Log>>, name: string, start: nat, latest: nat,
                  end: nat,
                  db: Db, state: map<string, nat>, db': Db, state': map<string, nat>, done: bool, handled: nat,
                  goal: Db)
    requires Anchored(state, name, end) && start <= LastBlock(state, name, end) <= end && latest <= end < |chain|
    requires CaughtUp(dir, chain, name, latest, db, state, db', state', done, handled)
    requires Replayable(db, LogsIn(chain, start + 1, end + 1), contract)
    requires Same(Run(db, dir, LogsIn(chain, LastBlock(state, name, end) + 1, end + 1)), goal)
    ensures Anchored(state', name, end) && start <= LastBlock(state', name, end) <= end
    ensures done && latest == end ==> LastBlock(state', name, end) == end
    ensures Replayable(db', LogsIn(chain, start + 1, end + 1), contract) && Sound(db')
    ensures Same(Run(db', dir, LogsIn(chain, LastBlock(state', name, end) + 1, end + 1)), goal)
  {
    hide Run, Handle, Same;
    var c, c' := LastBlock(state, name, end), LastBlock(state', name, end);
    assert LastBlock(state, name, latest) == c;
    if c < latest {
      assert c == c' ==> LogsIn(chain, c + 1, c' + 1) == [];
      CrashedRun(db, dir, contract, chain, start, c, c', latest, end, handled);
      SameTransitive(Run(db', dir, LogsIn(chain, c' + 1, end + 1)), Run(db, dir, LogsIn(chain, c + 1, end + 1)), goal);
    }
  }

  /** One crashed run seen as a pass over the whole history. */
  lemma CrashedRun(db: Db, dir: Directory, contract: Contract, chain: seq<seq<Log>>, start: nat, c: nat, c': nat,
                   latest: nat, end: nat, handled: nat)
    requires start <= c < latest <= end < |chain| && c <= c' <= latest
    requires Replayable(db, LogsIn(chain, start + 1, end + 1), contract)
    requires |LogsIn(chain, c + 1, c' + 1)| <= handled <= |LogsIn(chain, c + 1, latest + 1)|
    ensures var db' := Run(db, dir, LogsIn(chain, c + 1, latest + 1)[..handled]);
            && Replayable(db', LogsIn(chain, start + 1, end + 1), contract)
            && Same(Run(db', dir, LogsIn(chain, c' + 1, end + 1)), Run(db, dir, LogsIn(chain, c + 1, end + 1)))
  {
    hide Run, Handle, Replayable, Same, LogsIn;
    var all := LogsIn(chain, start + 1, end + 1);
    var at := |LogsIn(chain, start + 1, c + 1)|;
    CursorSplits(chain, start, c, end);
    CursorSplits(chain, start, c', end);
    LogsInSplit(chain, start + 1, c + 1, c' + 1);
    LogsInSplit(chain, c + 1, latest + 1, end + 1);
    var p := Pass(at + handled, 0, at + |LogsIn(chain, c + 1, c' + 1)|);
    assert all[at..at + handled] == LogsIn(chain, c + 1, latest + 1)[..handled];
    AfterPassReplayable(db, dir, all, contract, at, p);
    OnePass(db, dir, all, contract, at, p);
  }
}

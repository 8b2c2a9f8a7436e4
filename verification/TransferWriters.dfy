/** The two writers of a transfer: what the indexer's handlers and the sweep make of an approval, and in what they
    differ. */
module TransferWriters {
  import opened Tables
  import opened Chain
  import opened Indexer
  import opened IndexerFacts
  import opened Reconciler
  import opened ReconcilerFacts
  import opened SweepRows
  import Sagas

  /** The handler of an approval, column by column. */
  lemma ApprovalHandled(db: Db, dir: Directory, h: Hash, block: nat, reqId: nat, approver: nat)
    ensures var d, found := Handle(db, dir, Log(h, block, XferApproved(reqId, approver))), Find(db, Transfers, reqId);
            var rto := MemberOf(TxOf(db, h));
            && (approver == 1 ==> FoundSet(db, d, found, map[Status := St(TransferBuyerAccepted)])
                                  && TxMined(db, d, h, block, TransferApproveBuyer))
            && (approver == 2 && rto.None? ==> FoundSet(db, d, found, map[Status := St(TransferRtoApproved)]))
            && (approver == 2 && rto.Some? ==>
                  FoundSet(db, d, found, map[Status := St(TransferRtoApproved), RtoApprover := Num(rto.value)]))
            && (approver == 2 ==> TxMined(db, d, h, block, TransferApproveRto))
            && (approver !in {1, 2} ==> FoundSet(db, d, found, map[Status := St(TransferPending)])
                                        && TxMined(db, d, h, block, TransferApproveBuyer))
  {
    hide FoundSet, Handle, TxMined;
    var log := Log(h, block, XferApproved(reqId, approver));
    AmendSets(db, dir, log, Transfers, reqId);
  }

  /** What every handler of an existing row does. */
  lemma AmendSets(db: Db, dir: Directory, log: Log, table: Table, x: nat)
    requires KindOf(log.event) == Amend(table, x)
    ensures var d, final := Handle(db, dir, log), FinalAction(TxOf(db, log.hash), log.event);
            && FoundSet(db, d, Find(db, table, x), AmendData(dir, TxOf(db, log.hash), log.event))
            && (final.Some? ==> TxMined(db, d, log.hash, log.block, final.value))
            && (final.None? ==> d.txs == db.txs)
  {
    AmendHandle(db, dir, log, table, x);
    var found, data := Find(db, table, x), AmendData(dir, TxOf(db, log.hash), log.event);
    var mid := if found.Some? then Update(db, found.value, data) else db;
    if found.Some? { UpdateSets(db, found.value, data); }
    hide Handle, RowsSet, Update, AmendData, Find;
    var final := FinalAction(TxOf(db, log.hash), log.event);
    if final.Some? {
      FinalizeMines(mid, log.hash, log.block, final.value);
      SetAndMined(db, mid, Handle(db, dir, log), found, data, log.hash, log.block, final.value);
    }
  }

  lemma FinalizeMines(db: Db, h: Hash, block: nat, action: Action)
    ensures var d := Finalize(db, h, block, action); SameRows(db, d) && TxMined(db, d, h, block, action)
  {
  }

  lemma DoneHandled(db: Db, dir: Directory, h: Hash, block: nat, reqId: nat, ownTid: nat, newOwner: string)
    ensures var d := Handle(db, dir, Log(h, block, XferDone(reqId, ownTid, newOwner)));
            && FoundSet(db, d, Find(db, Ownerships, ownTid),
                        map[OwnerWallet := Text(Lower(newOwner)), OwnerUser := OrNull(UserOf(dir, Lower(newOwner)))])
            && d.txs == db.txs
  {
    hide FoundSet, Handle, TxMined;
    AmendSets(db, dir, Log(h, block, XferDone(reqId, ownTid, newOwner)), Ownerships, ownTid);
  }

  // ── The buyer's approval ──

  /** What the sweep writes, and, without the flag, the handler. */
  function Accepted(ok: bool): Data {
    if ok then map[BuyerOk := Flag(true), Status := St(TransferBuyerAccepted)]
    else map[Status := St(TransferBuyerAccepted)]
  }

  /** A tracking row of a transfer request with its on-chain id. */
  ghost predicate Tracks(db: Db, h: Hash, id: RowId, reqId: nat, action: Action) {
    && Sound(db) && h in db.txs && db.txs[h].action == action && TableOf(action) == Transfers
    && db.txs[h].target == Some(id) && id in db.rows && At(db.rows[id], OnChainId) == Num(reqId)
  }

  lemma TracksRow(db: Db, h: Hash, id: RowId, reqId: nat, action: Action)
    requires Tracks(db, h, id, reqId, action)
    ensures db.rows[id].table == Transfers && Find(db, Transfers, reqId) == Some(id)
  {
    assert TargetOk(db, db.txs[h]);
    FindUnique(db, Transfers, reqId, id);
  }

  lemma BuyerSwept(db: Db, dir: Directory, h: Hash, block: nat, id: RowId, reqId: nat, events: EventMap)
    returns (swept: Db)
    requires Tracks(db, h, id, reqId, TransferApproveBuyer) && Named(events)
    requires "XferApproved" in events && "XferDone" !in events
    ensures SweepLeaves(db, dir, h, block, events, swept) && RowsSet(db, swept, map[id := Accepted(true)])
    ensures TxRecorded(db, swept, h, db.txs[h].(sync := Mined, block := Some(block)))
    ensures Tracks(swept, h, id, reqId, TransferApproveBuyer)
  {
    hide Named, Sound;
    RollsForward(db, dir, h, block, id, events);
    swept := RollForward(db, dir, h, db.txs[h], block, events).value;
    RollForwardRows(db, dir, h, db.txs[h], block, events, swept);
    RollForwardSound(db, dir, h, db.txs[h], block, events);
    hide RollForward, RowsSet;
    BuyerStatus(db, swept, id, true);
  }

  lemma RollsForward(db: Db, dir: Directory, h: Hash, block: nat, id: RowId, events: EventMap)
    requires h in db.txs && db.txs[h].action == TransferApproveBuyer && db.txs[h].target == Some(id) && id in db.rows
    requires "XferApproved" in events && "XferDone" !in events
    ensures RollForward(db, dir, h, db.txs[h], block, events).Some?
  {
  }

  /** Whichever writer mirrors the buyer's approval first, once the sweep has had its turn the tables are the same; the
      handler alone leaves out the flag and nothing else. Either way the request is no longer pending, so the service
      of the RTO, which asks for a pending request, refuses it. */
  lemma BuyerApprovalConverges(db: Db, dir: Directory, h: Hash, block: nat, id: RowId, reqId: nat, events: EventMap)
    returns (swept: Db, indexed: Db)
    requires Tracks(db, h, id, reqId, TransferApproveBuyer) && Named(events)
    requires "XferApproved" in events && "XferDone" !in events
    ensures SweepLeaves(db, dir, h, block, events, swept) && HandlerLeaves(db, dir, h, block, reqId, 1, indexed)
    ensures HandlerLeaves(swept, dir, h, block, reqId, 1, swept)
            && SweepLeaves(indexed, dir, h, block, events, swept)
    ensures RowsSet(db, indexed, map[id := Accepted(false)]) && RowsSet(db, swept, map[id := Accepted(true)])
    ensures NotReadyForRto(indexed, id) && NotReadyForRto(swept, id)
  {
    hide Handle, RollForward, Named, RowsSet, Tracks;
    TracksRow(db, h, id, reqId, TransferApproveBuyer);
    swept := BuyerSwept(db, dir, h, block, id, reqId, events);
    indexed := BuyerIndexed(db, dir, h, block, id, reqId);
    BuyerStatus(db, swept, id, true);
    BuyerStatus(db, indexed, id, false);
    SweptThenIndexed(db, dir, swept, h, block, id, reqId);
    IndexedThenSwept(db, dir, swept, indexed, h, block, id, reqId, events);
  }

  /** The sweep of the transaction succeeds and leaves these tables. */
  ghost predicate SweepLeaves(db: Db, dir: Directory, h: Hash, block: nat, events: EventMap, d: Db) {
    h in db.txs && RollForward(db, dir, h, db.txs[h], block, events) == Some(d)
  }

  /** The handler of the approval leaves these tables. */
  ghost predicate HandlerLeaves(db: Db, dir: Directory, h: Hash, block: nat, reqId: nat, approver: nat, d: Db) {
    Handle(db, dir, Log(h, block, XferApproved(reqId, approver))) == d
  }

  predicate NotReadyForRto(db: Db, id: RowId) {
    id in db.rows && !Sagas.Guard(TransferApproveRto, db.rows[id])
  }

  lemma BuyerIndexed(db: Db, dir: Directory, h: Hash, block: nat, id: RowId, reqId: nat) returns (indexed: Db)
    requires Tracks(db, h, id, reqId, TransferApproveBuyer)
    ensures HandlerLeaves(db, dir, h, block, reqId, 1, indexed) && RowsSet(db, indexed, map[id := Accepted(false)])
    ensures TxRecorded(db, indexed, h, db.txs[h].(sync := Mined, block := Some(block)))
    ensures Tracks(indexed, h, id, reqId, TransferApproveBuyer)
  {
    hide Handle, RowsSet, Sound;
    indexed := Handle(db, dir, Log(h, block, XferApproved(reqId, 1)));
    TracksRow(db, h, id, reqId, TransferApproveBuyer);
    ApprovalHandled(db, dir, h, block, reqId, 1);
    HandleSound(db, dir, Log(h, block, XferApproved(reqId, 1)));
    BuyerStatus(db, indexed, id, false);
  }

  lemma SweptThenIndexed(db: Db, dir: Directory, s: Db, h: Hash, block: nat, id: RowId, reqId: nat)
    requires RowsSet(db, s, map[id := Accepted(true)]) && h in db.txs && Tracks(s, h, id, reqId, TransferApproveBuyer)
    requires TxRecorded(db, s, h, db.txs[h].(sync := Mined, block := Some(block)))
    ensures HandlerLeaves(s, dir, h, block, reqId, 1, s)
  {
    hide RowsSet, Tracks, Accepted;
    var d := BuyerIndexed(s, dir, h, block, id, reqId);
    AcceptedAgain();
    SetAgain(db, s, d, id, Accepted(true), Accepted(false));
    SetsAgree(db, s, d, map[id := Accepted(true)]);
    assert d.txs == s.txs;
  }

  lemma IndexedThenSwept(db: Db, dir: Directory, s: Db, i: Db, h: Hash, block: nat, id: RowId, reqId: nat,
                         events: EventMap)
    requires RowsSet(db, s, map[id := Accepted(true)]) && RowsSet(db, i, map[id := Accepted(false)]) && h in db.txs
    requires TxRecorded(db, s, h, db.txs[h].(sync := Mined, block := Some(block)))
    requires TxRecorded(db, i, h, db.txs[h].(sync := Mined, block := Some(block)))
    requires Tracks(i, h, id, reqId, TransferApproveBuyer) && Named(events)
    requires "XferApproved" in events && "XferDone" !in events
    ensures SweepLeaves(i, dir, h, block, events, s)
  {
    hide RowsSet, Tracks, Named, Accepted, RollForward;
    assert h in i.txs;
    var d := BuyerSwept(i, dir, h, block, id, reqId, events);
    AcceptedAgain();
    SetAgain(db, i, d, id, Accepted(false), Accepted(true));
    SetsAgree(db, s, d, map[id := Accepted(true)]);
    assert d.txs == s.txs;
  }

  lemma AcceptedAgain()
    ensures Accepted(true) + Accepted(false) == Accepted(true) == Accepted(false) + Accepted(true)
  {
  }

  lemma BuyerStatus(db: Db, d: Db, id: RowId, ok: bool)
    requires RowsSet(db, d, map[id := Accepted(ok)])
    ensures id in d.rows && d.rows[id].table == db.rows[id].table && At(d.rows[id], Status) == St(TransferBuyerAccepted)
            && (ok ==> At(d.rows[id], BuyerOk) == Flag(true))
            && At(d.rows[id], OnChainId) == At(db.rows[id], OnChainId)
  {
    assert RowChanged(db.rows[id], d.rows[id], Accepted(ok));
  }

  // ── The approval by the RTO ──

  /** What the sweep and the handlers write to the request. */
  const SWEPT_REQUEST: Data := map[RtoOk := Flag(true), Status := St(TransferRtoApproved), CompletedDate := Date]

  function IndexedRequest(rto: Option<nat>): Data {
    if rto.None? then map[Status := St(TransferRtoApproved)]
    else map[Status := St(TransferRtoApproved), RtoApprover := Num(rto.value)]
  }

  function IndexedOwner(dir: Directory, newOwner: string): Data {
    map[OwnerWallet := Text(Lower(newOwner)), OwnerUser := OrNull(UserOf(dir, Lower(newOwner)))]
  }

  /** The request belongs to the ownership row with the given token, whose transfers are counted. */
  ghost predicate Concerns(db: Db, id: RowId, n: RowId, ownTid: nat) {
    && id in db.rows && At(db.rows[id], OwnershipRef) == Num(n)
    && Find(db, Ownerships, ownTid) == Some(n) && At(db.rows[n], TransferCount).Num?
  }

  lemma RtoSwept(db: Db, dir: Directory, h: Hash, block: nat, id: RowId, n: RowId, reqId: nat, ownTid: nat,
                 newOwner: string, events: EventMap) returns (swept: Db)
    requires Tracks(db, h, id, reqId, TransferApproveRto) && Concerns(db, id, n, ownTid) && Named(events)
    requires Completes(TransferApproveRto, events) == Some(newOwner)
    ensures SweepLeaves(db, dir, h, block, events, swept) && n in db.rows && At(db.rows[n], TransferCount).Num?
    ensures RowsSet(db, swept, map[id := SWEPT_REQUEST, n := NewOwner(dir, newOwner, At(db.rows[n], TransferCount).n)])
    ensures TxRecorded(db, swept, h, db.txs[h].(sync := Mined, block := Some(block)))
  {
    TracksRow(db, h, id, reqId, TransferApproveRto);
    CompletesExactly(db, dir, h, db.txs[h], block, events, newOwner);
    hide Named, RowsSet, RollForward, Sound, Find;
    swept := RollForward(db, dir, h, db.txs[h], block, events).value;
    RollForwardRows(db, dir, h, db.txs[h], block, events, swept);
    assert TransferCompleted(db, swept, dir, TransferApproveRto, id, newOwner);
  }

  lemma RtoIndexed(db: Db, dir: Directory, h: Hash, block: nat, id: RowId, n: RowId, reqId: nat, ownTid: nat,
                   newOwner: string) returns (approved: Db, indexed: Db)
    requires Tracks(db, h, id, reqId, TransferApproveRto) && Concerns(db, id, n, ownTid)
    ensures HandlerLeaves(db, dir, h, block, reqId, 2, approved)
    ensures indexed == Handle(approved, dir, Log(h, block, XferDone(reqId, ownTid, newOwner)))
    ensures id != n
    ensures RowsSet(db, indexed, map[id := IndexedRequest(db.txs[h].member), n := IndexedOwner(dir, newOwner)])
    ensures TxRecorded(db, indexed, h, db.txs[h].(sync := Mined, block := Some(block)))
  {
    TracksRow(db, h, id, reqId, TransferApproveRto);
    hide Handle, RowsSet, Sound;
    approved := Handle(db, dir, Log(h, block, XferApproved(reqId, 2)));
    ApprovalHandled(db, dir, h, block, reqId, 2);
    HandleSound(db, dir, Log(h, block, XferApproved(reqId, 2)));
    StillFound(db, approved, id, n, IndexedRequest(db.txs[h].member), ownTid);
    indexed := Handle(approved, dir, Log(h, block, XferDone(reqId, ownTid, newOwner)));
    DoneHandled(approved, dir, h, block, reqId, ownTid, newOwner);
    SetTwo(db, approved, indexed, id, IndexedRequest(db.txs[h].member), n, IndexedOwner(dir, newOwner));
  }

  lemma StillFound(db: Db, d: Db, id: RowId, n: RowId, vals: Data, ownTid: nat)
    requires RowsSet(db, d, map[id := vals]) && Sound(d) && Find(db, Ownerships, ownTid) == Some(n) && n != id
    ensures Find(d, Ownerships, ownTid) == Some(n)
  {
    assert d.rows[n] == db.rows[n];
    FindUnique(d, Ownerships, ownTid, n);
  }

  /** Two tables that differ at most in some columns of two rows. */
  ghost predicate SameBut(d: Db, d': Db, i: RowId, colsI: set<Col>, j: RowId, colsJ: set<Col>) {
    && d'.rows.Keys == d.rows.Keys && d'.txs == d.txs && d'.next == d.next
    && (forall k :: k in d.rows && k != i && k != j ==> d'.rows[k] == d.rows[k])
    && (i in d.rows ==> forall c :: c !in colsI ==> At(d'.rows[i], c) == At(d.rows[i], c))
    && (j in d.rows ==> forall c :: c !in colsJ ==> At(d'.rows[j], c) == At(d.rows[j], c))
  }

  /** For an approval by the RTO, which also emits `XferDone`, both writers end in the same status and differ only in
      the columns listed: the sweep sets the flag, the date and the count, the handlers the approver. The owner is the
      same exactly when the address has no capital letter, because only the handlers lower it. */
  lemma RtoApprovalWriters(db: Db, dir: Directory, h: Hash, block: nat, id: RowId, n: RowId, reqId: nat, ownTid: nat,
                           newOwner: string, events: EventMap) returns (swept: Db, approved: Db, indexed: Db)
    requires Tracks(db, h, id, reqId, TransferApproveRto) && Concerns(db, id, n, ownTid) && Named(events)
    requires Completes(TransferApproveRto, events) == Some(newOwner)
    ensures SweepLeaves(db, dir, h, block, events, swept)
    ensures HandlerLeaves(db, dir, h, block, reqId, 2, approved)
    ensures indexed == Handle(approved, dir, Log(h, block, XferDone(reqId, ownTid, newOwner)))
    ensures SameBut(swept, indexed, id, {RtoOk, CompletedDate, RtoApprover}, n, {OwnerWallet, OwnerUser, TransferCount})
    ensures id in swept.rows && At(swept.rows[id], Status) == St(TransferRtoApproved)
    ensures n in swept.rows && n in indexed.rows && id in indexed.rows
    ensures At(swept.rows[n], OwnerWallet) == At(indexed.rows[n], OwnerWallet) <==> Lower(newOwner) == newOwner
    ensures At(swept.rows[n], OwnerUser) == OrNull(UserOf(dir, newOwner))
    ensures At(indexed.rows[n], OwnerUser) == OrNull(UserOf(dir, Lower(newOwner)))
  {
    assert h in db.txs && n in db.rows && At(db.rows[n], TransferCount).Num?;
    hide *;
    swept := RtoSwept(db, dir, h, block, id, n, reqId, ownTid, newOwner, events);
    approved, indexed := RtoIndexed(db, dir, h, block, id, n, reqId, ownTid, newOwner);
    SameTxs(db, swept, indexed, h, db.txs[h].(sync := Mined, block := Some(block)));
    Compared(db, swept, indexed, id, n, dir, db.txs[h].member, newOwner, At(db.rows[n], TransferCount).n);
  }

  lemma Compared(db: Db, s: Db, i: Db, id: RowId, n: RowId, dir: Directory, rto: Option<nat>, newOwner: string,
                 count: int)
    requires RowsSet(db, s, map[id := SWEPT_REQUEST, n := NewOwner(dir, newOwner, count)]) && id != n
    requires RowsSet(db, i, map[id := IndexedRequest(rto), n := IndexedOwner(dir, newOwner)]) && i.txs == s.txs
    ensures SameBut(s, i, id, {RtoOk, CompletedDate, RtoApprover}, n, {OwnerWallet, OwnerUser, TransferCount})
    ensures id in s.rows && n in s.rows && id in i.rows && n in i.rows
    ensures At(s.rows[id], Status) == St(TransferRtoApproved)
    ensures At(s.rows[n], OwnerWallet) == Text(newOwner) && At(i.rows[n], OwnerWallet) == Text(Lower(newOwner))
    ensures At(s.rows[n], OwnerUser) == OrNull(UserOf(dir, newOwner))
    ensures At(i.rows[n], OwnerUser) == OrNull(UserOf(dir, Lower(newOwner)))
  {
    hide *;
    BothChanged(db, s, id, SWEPT_REQUEST, n, NewOwner(dir, newOwner, count));
    BothChanged(db, i, id, IndexedRequest(rto), n, IndexedOwner(dir, newOwner));
    RequestsDiffer(db.rows[id], s.rows[id], i.rows[id], rto);
    OwnersDiffer(db.rows[n], s.rows[n], i.rows[n], dir, newOwner, count);
    TwoRowsDiffer(s, i, id, {RtoOk, CompletedDate, RtoApprover}, n, {OwnerWallet, OwnerUser, TransferCount});
  }

  lemma TwoRowsDiffer(d: Db, d': Db, i: RowId, colsI: set<Col>, j: RowId, colsJ: set<Col>)
    requires d'.rows.Keys == d.rows.Keys && d'.txs == d.txs && d'.next == d.next
    requires forall k :: k in d.rows && k != i && k != j ==> d'.rows[k] == d.rows[k]
    requires i in d.rows ==> forall c :: c !in colsI ==> At(d'.rows[i], c) == At(d.rows[i], c)
    requires j in d.rows ==> forall c :: c !in colsJ ==> At(d'.rows[j], c) == At(d.rows[j], c)
    ensures SameBut(d, d', i, colsI, j, colsJ)
  {
  }

  lemma SameTxs(db: Db, d: Db, d': Db, h: Hash, tx: Tx)
    requires TxRecorded(db, d, h, tx) && TxRecorded(db, d', h, tx)
    ensures d'.txs == d.txs
  {
  }

  lemma OwnersDiffer(row: Row, s: Row, i: Row, dir: Directory, newOwner: string, count: int)
    requires RowChanged(row, s, NewOwner(dir, newOwner, count)) && RowChanged(row, i, IndexedOwner(dir, newOwner))
    ensures At(s, OwnerWallet) == Text(newOwner) && At(i, OwnerWallet) == Text(Lower(newOwner))
    ensures At(s, OwnerUser) == OrNull(UserOf(dir, newOwner))
    ensures At(i, OwnerUser) == OrNull(UserOf(dir, Lower(newOwner)))
    ensures forall c :: c !in {OwnerWallet, OwnerUser, TransferCount} ==> At(s, c) == At(i, c)
  {
  }

  lemma RequestsDiffer(row: Row, s: Row, i: Row, rto: Option<nat>)
    requires RowChanged(row, s, SWEPT_REQUEST) && RowChanged(row, i, IndexedRequest(rto))
    ensures At(s, Status) == At(i, Status) == St(TransferRtoApproved)
    ensures forall c :: c !in {RtoOk, CompletedDate, RtoApprover} ==> At(s, c) == At(i, c)
  {
  }

  lemma BothChanged(db: Db, d: Db, i: RowId, vals: Data, j: RowId, more: Data)
    requires RowsSet(db, d, map[i := vals, j := more]) && i != j
    ensures i in db.rows && j in db.rows && d.rows.Keys == db.rows.Keys && d.next == db.next
            && RowChanged(db.rows[i], d.rows[i], vals) && RowChanged(db.rows[j], d.rows[j], more)
            && forall k :: k in db.rows && k != i && k != j ==> d.rows[k] == db.rows[k]
  {
    hide RowChanged;
    var both := map[i := vals, j := more];
    assert i in both && j in both;
  }
}

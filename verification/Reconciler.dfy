/** The reconciliation worker: what a sweep does with one pending transaction once its receipt is known. Successful
    transactions are rolled forward in one database transaction; reverted ones are marked and then compensated. */
module Reconciler {
  import opened Tables
  import opened Chain

  // ── Receipts ──

  /** What each contract interface makes of each log of the receipt. */
  type ParsedLogs = seq<seq<Option<Event>>>

  datatype Receipt = Receipt(succeeded: bool, block: nat, logs: ParsedLogs)

  function NameOf(ev: Event): string {
    match ev
    case VehicleReg(_, _, _, _) => "VehicleReg"
    case XferInit(_, _, _, _) => "XferInit"
    case XferCancelled(_) => "XferCancelled"
    case XferApproved(_, _) => "XferApproved"
    case XferDone(_, _, _) => "XferDone"
    case ChallanIssued(_, _, _, _) => "ChallanIssued"
    case ChallanPaid(_) => "ChallanPaid"
    case ChallanCancelled(_, _) => "ChallanCancelled"
    case PolicyIssued(_, _, _) => "PolicyIssued"
    case PolicyExpired(_) => "PolicyExpired"
    case ClaimFiled(_, _) => "ClaimFiled"
    case PucIssued(_, _, _) => "PUCIssued"
    case PucExpired(_) => "PUCExpired"
    case LoanReg(_, _, _, _, _) => "LoanReg"
    case NocIssued(_) => "NOCIssued"
    case NocMinted(_, _) => "NOCMinted"
    case LoanRefinanced(_, _) => "LoanRefinanced"
    case PendingLoanAttached(_, _) => "PendingLoanAttached"
    case PendingLoanCancelled(_, _) => "PendingLoanCancelled"
    case VehicleMfg(_) => "VehicleMfg"
    case VehicleScrapped(_, _) => "VehicleScrapped"
    case VehicleAssignedToDealer(_, _) => "VehicleAssignedToDealer"
  }

  /** The events of the receipt: log by log, and for each log interface by interface. */
  function EventsOf(logs: ParsedLogs): seq<Event> {
    if logs == [] then [] else EventsOf(logs[..|logs| - 1]) + Somes(logs[|logs| - 1])
  }

  function Somes(parses: seq<Option<Event>>): seq<Event> {
    if parses == [] then [] else
    Somes(parses[..|parses| - 1]) + match parses[|parses| - 1] { case None => [] case Some(ev) => [ev] }
  }

  /** The first event with a name. */
  function FirstNamed(evs: seq<Event>, name: string): Option<Event> {
    if evs == [] then None else
    match FirstNamed(evs[..|evs| - 1], name)
    case Some(ev) => Some(ev)
    case None => if NameOf(evs[|evs| - 1]) == name then Some(evs[|evs| - 1]) else None
  }

  lemma FirstNamedIsFirst(evs: seq<Event>, name: string)
    ensures match FirstNamed(evs, name)
            case None => forall i :: 0 <= i < |evs| ==> NameOf(evs[i]) != name
            case Some(ev) => exists i :: 0 <= i < |evs| && evs[i] == ev && NameOf(ev) == name
                                         && forall j :: 0 <= j < i ==> NameOf(evs[j]) != name
  {
    if evs != [] {
      var p := evs[..|evs| - 1];
      FirstNamedIsFirst(p, name);
      if FirstNamed(p, name).Some? {
        var i :| 0 <= i < |p| && p[i] == FirstNamed(p, name).value && NameOf(p[i]) == name && forall j :: 0 <= j < i ==>
            NameOf(p[j]) != name;
        assert evs[i] == p[i] && forall j :: 0 <= j < i ==> evs[j] == p[j];
      } else {
        assert forall i :: 0 <= i < |p| ==> evs[i] == p[i];
      }
    }
  }

  type EventMap = map<string, Event>

  function Get(events: EventMap, name: string): Option<Event> {
    if name in events then Some(events[name]) else None
  }

  /** The event map of a receipt: later events of a name do not replace the first. */
  function IndexEvents(evs: seq<Event>): EventMap {
    if evs == [] then map[] else
    var events, last := IndexEvents(evs[..|evs| - 1]), evs[|evs| - 1];
    if NameOf(last) in events then events else events[NameOf(last) := last]
  }

  lemma {:induction false} IndexIsFirst(evs: seq<Event>, name: string)
    ensures Get(IndexEvents(evs), name) == FirstNamed(evs, name)
  {
    if evs != [] {
      IndexIsFirst(evs[..|evs| - 1], name);
      IndexIsFirst(evs[..|evs| - 1], NameOf(evs[|evs| - 1]));
    }
  }

  predicate Named(events: EventMap) {
    forall name :: name in events ==> NameOf(events[name]) == name
  }

  lemma {:induction false} EventsNamed(evs: seq<Event>)
    ensures Named(IndexEvents(evs))
  {
    if evs != [] { EventsNamed(evs[..|evs| - 1]); }
  }

  lemma IndexOneMore(evs: seq<Event>, parse: Option<Event>)
    ensures IndexEvents(evs + match parse { case None => [] case Some(ev) => [ev] }) ==
            if parse.Some? && NameOf(parse.value) !in IndexEvents(evs)
               then IndexEvents(evs)[NameOf(parse.value) := parse.value] else IndexEvents(evs)
  {
    if parse.Some? {
      assert (evs + [parse.value])[..|evs|] == evs;
    } else {
      assert evs + [] == evs;
    }
  }

  lemma SomesOneMore(before: seq<Event>, parses: seq<Option<Event>>, j: nat)
    requires j < |parses|
    ensures before + Somes(parses[..j + 1]) == (before + Somes(parses[..j])) +
            match parses[j] { case None => [] case Some(ev) => [ev] }
  {
    assert parses[..j + 1][..j] == parses[..j];
  }

  lemma EventsOneMore(logs: ParsedLogs, i: nat)
    requires i < |logs|
    ensures EventsOf(logs[..i + 1]) == EventsOf(logs[..i]) + Somes(logs[i][..|logs[i]|])
  {
    assert logs[..i + 1][..i] == logs[..i] && logs[i][..|logs[i]|] == logs[i];
  }

  method ParseReceiptEvents(logs: ParsedLogs) returns (events: EventMap)
    ensures events == IndexEvents(EventsOf(logs))
  {
    hide IndexEvents;
    events := map[];
    EmptyIndex();
    for i := 0 to |logs|
      invariant events == IndexEvents(EventsOf(logs[..i]))
    {
      ghost var before := EventsOf(logs[..i]);
      assert before + Somes(logs[i][..0]) == before;
      for j := 0 to |logs[i]|
        invariant events == IndexEvents(before + Somes(logs[i][..j]))
      {
        SomesOneMore(before, logs[i], j);
        IndexOneMore(before + Somes(logs[i][..j]), logs[i][j]);
        if logs[i][j].Some? {
          var parsed := logs[i][j].value;
          if NameOf(parsed) !in events {
            events := events[NameOf(parsed) := parsed];
          }
        }
      }
      EventsOneMore(logs, i);
    }
    assert logs[..|logs|] == logs;
  }

  lemma EmptyIndex()
    ensures IndexEvents([]) == map[]
  {
  }

  // ── Rolling forward ──

  predicate Taken(db: Db, table: Table, x: Val, id: RowId) {
    exists j :: j in db.rows && j != id && db.rows[j].table == table && At(db.rows[j], OnChainId) == x
  }

  /** `update` by primary key: fails when the row is gone or its new on-chain id belongs to another row. */
  function TryUpdate(db: Db, id: RowId, data: Data): Option<Db> {
    if id !in db.rows then None
    else if OnChainId in data && data[OnChainId] != Null && Taken(db, db.rows[id].table, data[OnChainId], id) then None
    else Some(Update(db, id, data))
  }

  function UserRef(dir: Directory, wallet: string): Val {
    OrNull(UserOf(dir, wallet))
  }

  const CLEARED: Data := map[Status := St(LoanCleared), ClearedAt := Date, Col.NocIssued := Flag(true), NocDate := Date]

  function VehicleData(dir: Directory, action: Action, events: EventMap): Option<Data> {
    if action == VehicleMint then
      match Get(events, "VehicleMfg")
      case Some(VehicleMfg(tokenId)) => Some(map[OnChainId := Num(tokenId), Status := St(VehicleNotReg)])
      case _ => None
    else if action == VehicleScrap then
      match Get(events, "VehicleScrapped")
      case Some(VehicleScrapped(_, scrapId)) =>
        Some(map[Status := St(Status.VehicleScrapped), ScrapDate := Date,
                 ScrapEntity := OrNull(EntityOf(dir, scrapId))])
      case _ => None
    else if action == VehicleAssignDealer then
      match Get(events, "VehicleAssignedToDealer")
      case Some(VehicleAssignedToDealer(_, dealer)) =>
        Some(map[DealerWallet := Text(dealer), DealerUser := UserRef(dir, dealer)])
      case _ => None
    else None
  }

  function TransferData(action: Action, events: EventMap): Option<Data> {
    match action
    case TransferApproveBuyer =>
      if "XferDone" in events then Some(map[BuyerOk := Flag(true), Status := St(TransferRtoApproved),
                                            CompletedDate := Date])
      else if "XferApproved" in events then Some(map[BuyerOk := Flag(true), Status := St(TransferBuyerAccepted)])
      else None
    case TransferApproveRto =>
      if "XferDone" in events then Some(map[RtoOk := Flag(true), Status := St(TransferRtoApproved),
                                            CompletedDate := Date]) else None
    case TransferCancel => Some(map[Status := St(TransferCancelled)])
    case _ => None
  }

  function ChallanData(action: Action, events: EventMap): Option<Data> {
    if action == ChallanIssue then
      match Get(events, "ChallanIssued")
      case Some(ChallanIssued(challanId, ownTid, _, _)) =>
        Some(map[OnChainId := Num(challanId), OwnTid := Num(ownTid), Status := St(ChallanPending)])
      case _ => None
    else if action == ChallanPay then
      Some(map[Status := St(Status.ChallanPaid), PaidAt := Date])
    else if action == ChallanCancel then
      var byAdmin := match Get(events, "ChallanCancelled") { case Some(ChallanCancelled(_, isAdminCancel)) =>
                                                            isAdminCancel case _ => false };
      Some(map[Status := St(Status.ChallanCancelled), CancelledAt := Date, IsAdminCancel := Flag(byAdmin)])
    else None
  }

  function PolicyData(action: Action, events: EventMap): Option<Data> {
    if action == InsuranceIssue then
      match Get(events, "PolicyIssued")
      case Some(PolicyIssued(polId, _, _)) => Some(map[OnChainId := Num(polId), Status := St(PolicyActive)])
      case _ => None
    else if action == InsuranceClaim then
      match Get(events, "ClaimFiled")
      case Some(ClaimFiled(_, claimNum)) => Some(map[ClaimCount := Num(claimNum)])
      case _ => None
    else if action == InsuranceExpire then
      Some(map[Status := St(Status.PolicyExpired)])
    else None
  }

  function PucData(action: Action, events: EventMap): Option<Data> {
    if action == Action.PucIssue then
      match Get(events, "PUCIssued")
      case Some(PucIssued(certId, ownTid, passed)) =>
        Some(map[OnChainId := Num(certId), OwnTid := Num(ownTid), Passed := Flag(passed), Status := St(PucValid),
                 ExpiryDate := Date])
      case _ => None
    else if action == PucExpire then
      Some(map[Status := St(Status.PucExpired)])
    else None
  }

  function LoanData(dir: Directory, action: Action, events: EventMap): Option<Data> {
    if action == Action.LoanReg then
      match Get(events, "LoanReg")
      case Some(LoanReg(loanId, _, _, borrower, _)) =>
        Some(map[OnChainId := Num(loanId), Status := St(LoanActive), BorrowerUser := UserRef(dir, Lower(borrower))])
      case _ => None
    else if action == LoanClear then
      match Get(events, "NOCMinted")
      case Some(NocMinted(_, owner)) =>
        var recipient: Data := map[NocRecipientWallet := Text(Lower(owner)),
                                   NocRecipientUser := UserRef(dir, Lower(owner))];
        Some(if "NOCIssued" in events then CLEARED + recipient else recipient)
      case _ => if "NOCIssued" in events then Some(CLEARED) else None
    else if action == LoanRefinance then
      if "LoanRefinanced" in events then Some(CLEARED) else None
    else None
  }

  /** `data` the worker writes to the row the transaction acts on, or none when the event it needs is missing. Transfers
      and dealers keep the wallet's letter case; loans lower it. */
  function RowData(dir: Directory, action: Action, events: EventMap): Option<Data> {
    match TableOf(action)
    case Passports => VehicleData(dir, action, events)
    case Transfers => TransferData(action, events)
    case TradeCerts => Some(map[IsActive := Flag(false)])
    case Challans => ChallanData(action, events)
    case Policies => PolicyData(action, events)
    case Pucs => PucData(action, events)
    case Loans => LoanData(dir, action, events)
    case Ownerships => None
  }

  /** The new owner of a vehicle whose transfer the receipt completes. */
  function Completes(action: Action, events: EventMap): Option<string> {
    if action in {TransferApproveBuyer, TransferApproveRto} then
      match Get(events, "XferDone")
      case Some(XferDone(_, _, newOwner)) => Some(newOwner)
      case _ => None
    else None
  }

  function PassedOn(dir: Directory, newOwner: string, transfers: int): Data {
    map[OwnerWallet := Text(newOwner), OwnerUser := UserRef(dir, newOwner), TransferCount := Num(transfers + 1)]
  }

  /** The owner changes and one more transfer is counted. */
  function PassOn(db: Db, dir: Directory, transfer: RowId, newOwner: string): Option<Db>
    requires transfer in db.rows
  {
    match At(db.rows[transfer], OwnershipRef)
    case Num(n) =>
      if n >= 0 && n in db.rows && At(db.rows[n], TransferCount).Num? then
        Some(Update(db, n, PassedOn(dir, newOwner, At(db.rows[n], TransferCount).n)))
      else None
    case _ => None
  }

  /** Scrapping a vehicle deactivates its ownership rows. */
  function Deactivate(db: Db, passport: RowId): Db {
    db.(rows := map id | id in db.rows :: if IsOwnershipOf(db.rows[id], passport)
        then Write(db.rows[id], map[IsActive := Flag(false)]) else db.rows[id])
  }

  predicate IsOwnershipOf(row: Row, passport: RowId) {
    row.table == Ownerships && At(row, PassportRef) == Num(passport)
  }

  /** The business part of the database transaction; none when a statement throws. The worker reads a sixth argument of
      `LoanReg`, which has five, so a refinancing that carries `LoanReg` always throws. */
  function Business(db: Db, dir: Directory, action: Action, target: RowId, events: EventMap): Option<Db> {
    if action == LoanCancelPending then Some(DeleteAll(db, {target}))
    else if action == LoanRefinance && "LoanRefinanced" in events && "LoanReg" in events then None
    else match RowData(dir, action, events)
         case None => Some(db)
         case Some(data) => Followed(TryUpdate(db, target, data), dir, action, target, events)
  }

  /** The second row of a transfer or a scrapping. */
  function Followed(db: Option<Db>, dir: Directory, action: Action, target: RowId, events: EventMap): Option<Db> {
    if db.None? || target !in db.value.rows then None
    else if Completes(action, events).Some? then PassOn(db.value, dir, target, Completes(action, events).value)
    else if action == VehicleScrap then Some(Deactivate(db.value, target))
    else db
  }

  /** `handleSuccessfulReconciliation`: the tracking row and the business rows, or nothing at all. `tx` is the copy of
      the tracking row that the sweep read with its batch. */
  function RollForward(db: Db, dir: Directory, h: Hash, tx: Tx, block: nat, events: EventMap): Option<Db> {
    if h !in db.txs then None
    else
      var d := db.(txs := db.txs[h := db.txs[h].(sync := Mined, block := Some(block))]);
      if tx.target.None? then Some(d) else Business(d, dir, tx.action, tx.target.value, events)
  }

  // ── Compensating ──

  datatype Undo = Nothing | Delete | Restore(data: Data) | CountDown

  function UndoOf(action: Action): Undo {
    match action
    case VehicleMint | ChallanIssue | InsuranceIssue | PucIssue | LoanReg => Delete
    case VehicleScrap => Restore(map[Status := St(VehicleActive)])
    case VehicleAssignDealer => Restore(map[DealerWallet := Null, DealerUser := Null])
    case TransferApproveBuyer => Restore(map[BuyerOk := Flag(false), Status := St(TransferPending)])
    case TransferApproveRto => Restore(map[RtoOk := Flag(false), Status := St(TransferBuyerAccepted)])
    case TransferCancel => Restore(map[Status := St(TransferPending)])
    case TradeCertRevoke => Restore(map[IsActive := Flag(true)])
    case ChallanPay => Restore(map[Status := St(ChallanPending), PaidAt := Null])
    case ChallanCancel => Restore(map[Status := St(ChallanPending), CancelledAt := Null])
    case InsuranceClaim => CountDown
    case InsuranceExpire => Restore(map[Status := St(PolicyActive)])
    case PucExpire => Restore(map[Status := St(PucValid)])
    case LoanClear =>
      Restore(map[Status := St(LoanActive), ClearedAt := Null, Col.NocIssued := Flag(false), NocDate := Null,
                  NocRecipientWallet := Null, NocRecipientUser := Null])
    case _ => Nothing
  }

  /** `handleRevertedRollback`: a missing row is not an error. */
  function Compensate(db: Db, action: Action, target: Option<RowId>): Db {
    if target.None? || target.value !in db.rows then db
    else
      match UndoOf(action)
      case Nothing => db
      case Delete => DeleteAll(db, {target.value})
      case Restore(data) => Update(db, target.value, data)
      case CountDown =>
        var count := At(db.rows[target.value], ClaimCount);
        if count.Num? then Update(db, target.value, map[ClaimCount := Num(count.n - 1)]) else db
  }

  function MarkFailed(db: Db, h: Hash, block: nat): Db
    requires h in db.txs
  {
    db.(txs := db.txs[h := db.txs[h].(sync := Failed, block := Some(block))])
  }
}

/** The guards of loan registration: a vehicle never has two pending loans. */
module LoanGuards {
  import opened Tables
  import opened Chain
  import opened Indexer
  import opened IndexerFacts
  import opened Reconciler
  import opened ReconcilerFacts

  // ── registerLoan ──

  predicate LoanOn(db: Db, passport: RowId, id: RowId) {
    id in db.rows && db.rows[id].table == Loans && At(db.rows[id], PassportRef) == Num(passport)
  }

  /** A transfer request under way for an ownership of the vehicle. */
  predicate TransferUnderWay(db: Db, passport: RowId) {
    exists id :: id in db.rows && IsPendingTransfer(db, passport, id)
  }

  predicate IsPendingTransfer(db: Db, passport: RowId, id: RowId)
    requires id in db.rows
  {
    && db.rows[id].table == Transfers && At(db.rows[id], Status) == St(TransferPending)
    && var ref := At(db.rows[id], OwnershipRef);
       ref.Num? && ref.n >= 0 && ref.n in db.rows && db.rows[ref.n].table == Ownerships
           && At(db.rows[ref.n], PassportRef) == Num(passport)
  }

  predicate HasPending(db: Db, passport: RowId) {
    exists id :: id in db.rows && LoanOn(db, passport, id) && At(db.rows[id], Status) == St(LoanPending)
  }

  /** `findActiveOrPendingLoanByDvpId`: a loan with a NOC does not count. */
  predicate HasActiveOrPending(db: Db, passport: RowId) {
    exists id :: id in db.rows && LoanOn(db, passport, id)
                 && At(db.rows[id], Status) in {St(LoanActive), St(LoanPending)}
                 && At(db.rows[id], Col.NocIssued) == Flag(false)
  }

  /** The two branches of the guard against double hypothecation. */
  predicate MayRegister(db: Db, passport: RowId) {
    && passport in db.rows && db.rows[passport].table == Passports
       && At(db.rows[passport], Status) != St(Status.VehicleScrapped)
    && if TransferUnderWay(db, passport) then !HasPending(db, passport) else !HasActiveOrPending(db, passport)
  }

  /** The pending request is for this ownership row of the vehicle. */
  predicate Requested(db: Db, passport: RowId, request: RowId, ownership: RowId) {
    && request in db.rows && ownership in db.rows
    && db.rows[request].table == Transfers && At(db.rows[request], Status) == St(TransferPending)
    && At(db.rows[request], OwnershipRef) == Num(ownership)
    && db.rows[ownership].table == Ownerships && At(db.rows[ownership], PassportRef) == Num(passport)
  }

  /** A vehicle takes a new loan exactly when it is not scrapped and no loan on it is pending, nor, while its owner
      stays, active and without NOC. */
  lemma MayRegisterExactly(db: Db, passport: RowId)
    requires passport in db.rows && db.rows[passport].table == Passports
    ensures MayRegister(db, passport) <==>
            && At(db.rows[passport], Status) != St(Status.VehicleScrapped)
            && forall id ::
                 id in db.rows && db.rows[id].table == Loans && At(db.rows[id], PassportRef) == Num(passport) ==>
                 if TransferUnderWay(db, passport) then At(db.rows[id], Status) != St(LoanPending)
                 else !(At(db.rows[id], Status) in {St(LoanActive), St(LoanPending)}
                        && At(db.rows[id], Col.NocIssued) == Flag(false))
    ensures TransferUnderWay(db, passport) <==>
            exists request, ownership :: Requested(db, passport, request, ownership)
  {
    if request, ownership :| Requested(db, passport, request, ownership) {
      assert IsPendingTransfer(db, passport, request);
    }
    if id :| id in db.rows && IsPendingTransfer(db, passport, id) {
      assert Requested(db, passport, id, At(db.rows[id], OwnershipRef).n);
    }
    hide TransferUnderWay, IsPendingTransfer, Requested;
    forall id | id in db.rows ensures LoanOn(db, passport, id) <==>
                                      db.rows[id].table == Loans && At(db.rows[id], PassportRef) == Num(passport) {
    }
  }

  /** The row `createPendingLoanTx` creates. */
  function PendingLoan(passport: RowId, bank: nat, wallet: string, amount: nat, member: nat): Data {
    map[PassportRef := Num(passport), EntityRef := Num(bank), BorrowerWallet := Text(wallet), Amount := Num(amount),
        Status := St(LoanPending), Col.NocIssued := Flag(false), CreatedBy := Num(member)]
  }

  /** `createPendingLoanTx`. */
  function Register(db: Db, passport: RowId, bank: nat, wallet: string, amount: nat, h: Hash, member: nat): Db {
    Insert(db, Loans, PendingLoan(passport, bank, wallet, amount, member))
      .(txs := db.txs[h := Tx(Action.LoanReg, Pending, None, Some(db.next), Some(bank), Some(member))])
  }

  // ── The invariant ──

  ghost predicate OnePending(db: Db) {
    forall p, i, j :: PendingOn(db, p, i) && PendingOn(db, p, j) ==> i == j
  }

  predicate PendingOn(db: Db, passport: RowId, id: RowId) {
    LoanOn(db, passport, id) && At(db.rows[id], Status) == St(LoanPending)
  }

  /** Without this the second branch of the guard would overlook a pending loan. */
  ghost predicate PendingWithoutNoc(db: Db) {
    forall id :: id in db.rows && db.rows[id].table == Loans && At(db.rows[id], Status) == St(LoanPending) ==>
      At(db.rows[id], Col.NocIssued) == Flag(false)
  }

  ghost predicate LoanInv(db: Db) {
    OnePending(db) && PendingWithoutNoc(db) && forall id :: id in db.rows ==> id < db.next
  }

  /** Either branch keeps out a vehicle that has a pending loan. */
  lemma GuardKeepsOut(db: Db, passport: RowId)
    requires LoanInv(db) && MayRegister(db, passport)
    ensures !HasPending(db, passport)
  {
    if !TransferUnderWay(db, passport) {
      forall id | id in db.rows && LoanOn(db, passport, id) ensures At(db.rows[id], Status) != St(LoanPending) {
      }
    }
  }

  lemma RegisterKeeps(db: Db, passport: RowId, bank: nat, wallet: string, amount: nat, h: Hash, member: nat)
    requires LoanInv(db) && !HasPending(db, passport)
    ensures LoanInv(Register(db, passport, bank, wallet, amount, h, member))
    ensures PendingOn(Register(db, passport, bank, wallet, amount, h, member), passport, db.next)
  {
    hide Register;
    var d := Register(db, passport, bank, wallet, amount, h, member);
    Registered(db, passport, bank, wallet, amount, h, member);
    forall p, i, j | PendingOn(d, p, i) && PendingOn(d, p, j) ensures i == j {
      assert i != db.next ==> PendingOn(db, p, i);
      assert j != db.next ==> PendingOn(db, p, j);
    }
  }

  lemma NotOne(db: Db, passport: RowId, i: RowId, j: RowId)
    requires PendingOn(db, passport, i) && PendingOn(db, passport, j) && i != j
    ensures !OnePending(db)
  {
  }

  /** What the guard is for: recording a loan keeps pending loans single exactly when the vehicle has none. */
  lemma RegisterExactly(db: Db, passport: RowId, bank: nat, wallet: string, amount: nat, h: Hash, member: nat)
    requires LoanInv(db)
    ensures OnePending(Register(db, passport, bank, wallet, amount, h, member)) <==> !HasPending(db, passport)
  {
    hide Register, OnePending, LoanInv;
    if HasPending(db, passport) {
      var d := Register(db, passport, bank, wallet, amount, h, member);
      Registered(db, passport, bank, wallet, amount, h, member);
      var id :| id in db.rows && PendingOn(db, passport, id);
      IdsBelow(db);
      assert id in d.rows.Keys && d.rows[id] == db.rows[id];
      assert PendingOn(db, passport, id);
      assert LoanOn(db, passport, id);
      NotOne(d, passport, id, db.next);
    } else {
      RegisterKeeps(db, passport, bank, wallet, amount, h, member);
      InvIsOne(Register(db, passport, bank, wallet, amount, h, member));
    }
  }

  lemma IdsBelow(db: Db)
    requires LoanInv(db)
    ensures forall id :: id in db.rows ==> id < db.next
  {
  }

  lemma InvIsOne(db: Db)
    requires LoanInv(db)
    ensures OnePending(db)
  {
  }

  /** Registering adds one pending loan, of that vehicle, and changes no other row. */
  lemma Registered(db: Db, passport: RowId, bank: nat, wallet: string, amount: nat, h: Hash, member: nat)
    ensures var d := Register(db, passport, bank, wallet, amount, h, member);
            && d.next == db.next + 1 && d.rows.Keys == db.rows.Keys + {db.next}
            && PendingOn(d, passport, db.next) && At(d.rows[db.next], Col.NocIssued) == Flag(false)
            && forall id :: id in db.rows && id != db.next ==> d.rows[id] == db.rows[id]
  {
    var row := NewRow(Loans, PendingLoan(passport, bank, wallet, amount, member));
    assert At(row, PassportRef) == Num(passport) && At(row, Status) == St(LoanPending)
           && At(row, Col.NocIssued) == Flag(false);
  }

  // ── No other writer makes a pending loan ──

  /** Pending loans of `d'` are pending loans of `d`, of the same vehicle. */
  ghost predicate NoNewPending(d: Db, d': Db) {
    && d.next <= d'.next && (forall id :: id in d'.rows ==> id < d'.next)
    && forall id :: id in d'.rows && At(d'.rows[id], Status) == St(LoanPending) ==>
         && id in d.rows && d'.rows[id].table == d.rows[id].table && At(d.rows[id], Status) == St(LoanPending)
         && At(d'.rows[id], PassportRef) == At(d.rows[id], PassportRef)
            && At(d'.rows[id], Col.NocIssued) == At(d.rows[id], Col.NocIssued)
  }

  lemma InvFollows(d: Db, d': Db)
    requires LoanInv(d) && NoNewPending(d, d')
    ensures LoanInv(d') && forall p :: HasPending(d', p) ==> HasPending(d, p)
  {
    forall p, i | PendingOn(d', p, i) ensures PendingOn(d, p, i) {
    }
  }

  lemma Chained(a: Db, b: Db, c: Db)
    requires NoNewPending(a, b) && NoNewPending(b, c)
    ensures NoNewPending(a, c)
  {
  }

  /** Data that no writer but `registerLoan` goes beyond. */
  predicate Settling(data: Data) {
    && PassportRef !in data && (Status in data ==> data[Status] != St(LoanPending))
    && (Col.NocIssued in data ==> Status in data)
  }

  lemma UpdateSettles(db: Db, id: RowId, data: Data)
    requires id in db.rows && Settling(data) && forall j :: j in db.rows ==> j < db.next
    ensures NoNewPending(db, Update(db, id, data))
  {
  }

  lemma EffectSettles(db: Db, dir: Directory, log: Log)
    requires Sound(db)
    ensures var e := EffectOf(db, dir, log);
            && (e.WriteRow? ==> e.id in db.rows && Settling(e.data))
            && (e.CreateRow? ==> Status in e.data ==> e.data[Status] != St(LoanPending))
  {
    hide Sound, CreateData, UpsertData, PromoteData, AmendData, Parents, Linked, Find;
    EffectLegal(db, dir, log);
    NocWithStatus(db, dir, TxOf(db, log.hash), log.event);
  }

  lemma NocWithStatus(db: Db, dir: Directory, tx: Option<Tx>, ev: Event)
    ensures KindOf(ev).Amend? && Col.NocIssued in AmendData(dir, tx, ev) ==> Status in AmendData(dir, tx, ev)
    ensures KindOf(ev).Make? ==> Col.NocIssued !in UpsertData(dir, ev) && Col.NocIssued !in PromoteData(db, dir, ev)
  {
  }

  lemma PerformSettles(db: Db, e: Effect)
    requires forall id :: id in db.rows ==> id < db.next
    requires e.WriteRow? ==> e.id in db.rows && Settling(e.data)
    requires e.CreateRow? ==> Status in e.data ==> e.data[Status] != St(LoanPending)
    ensures NoNewPending(db, Perform(db, e))
  {
    if e.WriteRow? { UpdateSettles(db, e.id, e.data); }
  }

  lemma HandleSettles(db: Db, dir: Directory, log: Log)
    requires Sound(db)
    ensures NoNewPending(db, Handle(db, dir, log))
  {
    hide EffectOf, Sound;
    var e, e2 := EffectOf(db, dir, log), SecondEffect(db, log);
    EffectSettles(db, dir, log);
    RowsBelow(db);
    PerformSettles(db, e);
    SecondSettles(db, Perform(db, e), e2, log);
    Chained(db, Perform(db, e), Perform(Perform(db, e), e2));
  }

  lemma RowsBelow(db: Db)
    requires Sound(db)
    ensures forall id :: id in db.rows ==> id < db.next
  {
  }

  lemma SecondSettles(db: Db, d: Db, e2: Effect, log: Log)
    requires e2 == SecondEffect(db, log) && forall id :: id in d.rows ==> id < d.next
    ensures NoNewPending(d, Perform(d, e2))
  {
    if e2.WriteRow? && e2.id in d.rows { UpdateSettles(d, e2.id, e2.data); }
  }

  lemma RowDataSettles(dir: Directory, a: Action, events: EventMap)
    ensures RowData(dir, a, events).Some? ==> Settling(RowData(dir, a, events).value)
  {
    RowDataHarmless(dir, a, events);
    match TableOf(a)
    case Loans => assert Settling(CLEARED) && CLEARED[Status] == St(LoanCleared);
    case Passports => assert VehicleData(dir, a, events).Some? ==> Settling(VehicleData(dir, a, events).value);
    case _ =>
  }

  lemma RollForwardSettles(db: Db, dir: Directory, h: Hash, tx: Tx, block: nat, events: EventMap)
    requires forall id :: id in db.rows ==> id < db.next
    ensures var d := RollForward(db, dir, h, tx, block, events); d.Some? ==> NoNewPending(db, d.value)
  {
    hide RowData;
    if tx.target.Some? && h in db.txs {
      var d := db.(txs := db.txs[h := db.txs[h].(sync := Mined, block := Some(block))]);
      var id, data := tx.target.value, RowData(dir, tx.action, events);
      RowDataSettles(dir, tx.action, events);
      if data.Some? && tx.action != LoanCancelPending && TryUpdate(d, id, data.value).Some? {
        UpdateSettles(d, id, data.value);
        FollowedSettles(Update(d, id, data.value), dir, tx.action, id, events);
        Chained(d, Update(d, id, data.value), Update(d, id, data.value));
      }
    }
  }

  lemma FollowedSettles(db: Db, dir: Directory, a: Action, id: RowId, events: EventMap)
    requires forall j :: j in db.rows ==> j < db.next
    ensures var d := Followed(Some(db), dir, a, id, events); d.Some? ==> NoNewPending(db, d.value)
  {
    hide Deactivate, Write;
    DeactivateSettles(db, id);
    if id in db.rows && Completes(a, events).Some? {
      PassOnSettles(db, dir, id, Completes(a, events).value);
    }
  }

  lemma PassOnSettles(db: Db, dir: Directory, id: RowId, newOwner: string)
    requires id in db.rows && forall j :: j in db.rows ==> j < db.next
    ensures var d := PassOn(db, dir, id, newOwner); d.Some? ==> NoNewPending(db, d.value)
  {
    var ref := At(db.rows[id], OwnershipRef);
    if PassOn(db, dir, id, newOwner).Some? {
      UpdateSettles(db, ref.n, PassedOn(dir, newOwner, At(db.rows[ref.n], TransferCount).n));
    }
  }

  lemma DeactivateSettles(db: Db, passport: RowId)
    requires forall j :: j in db.rows ==> j < db.next
    ensures NoNewPending(db, Deactivate(db, passport))
  {
  }

  lemma CompensateSettles(db: Db, a: Action, target: Option<RowId>)
    requires forall id :: id in db.rows ==> id < db.next
    ensures NoNewPending(db, Compensate(db, a, target))
  {
    hide Write;
    if target.Some? && target.value in db.rows {
      RestoreSettles(a);
      match UndoOf(a)
      case Restore(data) => UpdateSettles(db, target.value, data);
      case CountDown =>
        var count := At(db.rows[target.value], ClaimCount);
        if count.Num? { UpdateSettles(db, target.value, map[ClaimCount := Num(count.n - 1)]); }
      case _ =>
    }
  }

  lemma RestoreSettles(a: Action)
    ensures UndoOf(a).Restore? ==> Settling(UndoOf(a).data)
  {
  }

  // ── Whole runs ──

  /** Calls of `registerLoan` as one step, and everything the indexer and the sweep do. */
  datatype Move =
    | RegisterLoan(passport: RowId, bank: nat, wallet: string, amount: nat, h: Hash, member: nat)
    | Index(log: Log)
    | Settle(h: Hash, tx: Tx, block: nat, events: EventMap)
    | Rollback(action: Action, target: Option<RowId>)

  ghost function Apply(db: Db, dir: Directory, m: Move): Db {
    match m
    case RegisterLoan(passport, bank, wallet, amount, h, member) =>
      if MayRegister(db, passport) && h !in db.txs then Register(db, passport, bank, wallet, amount, h, member) else db
    case Index(log) => Handle(db, dir, log)
    case Settle(h, tx, block, events) =>
      var d := RollForward(db, dir, h, tx, block, events);
      if d.Some? then d.value else db
    case Rollback(action, target) => Compensate(db, action, target)
  }

  ghost function RunMoves(db: Db, dir: Directory, moves: seq<Move>): Db {
    if moves == [] then db else Apply(RunMoves(db, dir, moves[..|moves| - 1]), dir, moves[|moves| - 1])
  }

  lemma RegisterSound(db: Db, passport: RowId, bank: nat, wallet: string, amount: nat, h: Hash, member: nat)
    requires Sound(db)
    ensures Sound(Register(db, passport, bank, wallet, amount, h, member))
  {
    hide Sound, Insert;
    InsertedSound(db, Loans, PendingLoan(passport, bank, wallet, amount, member));
    RegisteredRow(db, passport, bank, wallet, amount, member);
    TrackedSound(Insert(db, Loans, PendingLoan(passport, bank, wallet, amount, member)), h,
                 Tx(Action.LoanReg, Pending, None, Some(db.next), Some(bank), Some(member)));
  }

  lemma RegisteredRow(db: Db, passport: RowId, bank: nat, wallet: string, amount: nat, member: nat)
    ensures var d := Insert(db, Loans, PendingLoan(passport, bank, wallet, amount, member));
            db.next in d.rows && d.rows[db.next].table == Loans && d.txs == db.txs
  {
  }

  lemma ApplyKeeps(db: Db, dir: Directory, m: Move)
    requires Sound(db) && LoanInv(db)
    ensures Sound(Apply(db, dir, m)) && LoanInv(Apply(db, dir, m))
  {
    hide Sound, LoanInv, Handle, RollForward, Compensate, Register, MayRegister, NoNewPending;
    RowsBelow(db);
    match m
    case RegisterLoan(passport, bank, wallet, amount, h, member) =>
      RegisterSound(db, passport, bank, wallet, amount, h, member);
      if MayRegister(db, passport) {
        GuardKeepsOut(db, passport);
        RegisterKeeps(db, passport, bank, wallet, amount, h, member);
      }
    case Index(log) =>
      HandleSound(db, dir, log);
      HandleSettles(db, dir, log);
      InvFollows(db, Handle(db, dir, log));
    case Settle(h, tx, block, events) =>
      RollForwardSound(db, dir, h, tx, block, events);
      RollForwardSettles(db, dir, h, tx, block, events);
      if RollForward(db, dir, h, tx, block, events).Some? {
        InvFollows(db, RollForward(db, dir, h, tx, block, events).value);
      }
    case Rollback(action, target) =>
      CompensateSound(db, action, target);
      CompensateSettles(db, action, target);
      InvFollows(db, Compensate(db, action, target));
  }

  /** At most one pending loan per vehicle, in every state of every run. */
  lemma {:induction false} OnePendingLoanPerVehicle(db: Db, dir: Directory, moves: seq<Move>)
    requires Sound(db) && LoanInv(db)
    ensures Sound(RunMoves(db, dir, moves)) && OnePending(RunMoves(db, dir, moves))
            && PendingWithoutNoc(RunMoves(db, dir, moves))
    ensures LoanInv(RunMoves(db, dir, moves))
  {
    if moves != [] {
      hide Sound, Apply, OnePending, PendingWithoutNoc;
      OnePendingLoanPerVehicle(db, dir, moves[..|moves| - 1]);
      ApplyKeeps(RunMoves(db, dir, moves[..|moves| - 1]), dir, moves[|moves| - 1]);
    }
  }
}

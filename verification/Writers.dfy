/** Two writers, one row: the indexer and the reconciliation worker mirror the same transaction, and whichever comes
    first, alone, or repeatedly, the row ends the same in every column that both of them write. */
module Writers {
  import opened Tables
  import opened Chain
  import opened Indexer
  import opened IndexerFacts
  import opened Reconciler

  /** A transaction with a tracking row: the events of its receipt the indexer mirrors, and the worker's event map. */
  datatype Scenario = Scenario(dir: Directory, h: Hash, block: nat, tx: Tx, x: nat, evs: seq<Event>, events: EventMap)

  /** One writer's turn: the sweep, or the indexer's handler for one of the events. */
  datatype Turn = Sweep | Index(i: nat)

  const MIRRORED: set<Action> :=
    {ChallanIssue, ChallanPay, ChallanCancel, InsuranceIssue, InsuranceClaim, InsuranceExpire, PucIssue, PucExpire,
     Action.LoanReg, LoanClear}

  /** The events that belong to an action, about the row with on-chain id `x`. */
  predicate EventsFit(action: Action, x: nat, evs: seq<Event>) {
    evs != [] &&
    match action
    case ChallanIssue => |evs| == 1 && evs[0].ChallanIssued? && evs[0].challanId == x
    case ChallanPay => evs == [Event.ChallanPaid(x)]
    case ChallanCancel => |evs| == 1 && evs[0].ChallanCancelled? && evs[0].challanId == x
    case InsuranceIssue => |evs| == 1 && evs[0].PolicyIssued? && evs[0].polId == x
    case InsuranceClaim => |evs| == 1 && evs[0].ClaimFiled? && evs[0].polId == x
    case InsuranceExpire => evs == [Event.PolicyExpired(x)]
    case PucIssue => |evs| == 1 && evs[0].PucIssued? && evs[0].certId == x
    case PucExpire => evs == [Event.PucExpired(x)]
    case LoanReg => |evs| == 1 && evs[0].LoanReg? && evs[0].loanId == x
    case LoanClear => evs[0] == Event.NocIssued(x)
      && (|evs| == 1 || (|evs| == 2 && evs[1].NocMinted? && evs[1].loanId == x))
    case _ => false
  }

  predicate Fits(s: Scenario) {
    && s.tx.target.Some?
    && EventsFit(s.tx.action, s.x, s.evs)
    && (forall i :: 0 <= i < |s.evs| ==> Get(s.events, NameOf(s.evs[i])) == Some(s.evs[i]))
    && (s.tx.action == LoanClear && |s.evs| == 1 ==> "NOCMinted" !in s.events)
  }

  predicate TurnOf(s: Scenario, t: Turn) {
    t.Sweep? || t.i < |s.evs|
  }

  /** The linked rows are present: the row itself, numbered for later actions and at most numbered for creating ones,
      and for creating actions the rows the indexer looks up. */
  ghost predicate Ready(db: Db, s: Scenario) {
    && Sound(db) && Fits(s)
    && s.h in db.txs
    && db.txs[s.h].(sync := s.tx.sync, block := s.tx.block) == s.tx
    && s.tx.target.value in db.rows
    && var row := db.rows[s.tx.target.value];
       if KindOf(s.evs[0]).Make? then
         && At(row, OnChainId) in {Null, Num(s.x)}
         && !Taken(db, row.table, Num(s.x), s.tx.target.value)
         && Parents(db, s.dir, Some(db.txs[s.h]), s.evs[0])
       else At(row, OnChainId) == Num(s.x)
  }

  ghost function Step(db: Db, s: Scenario, t: Turn): Db
    requires TurnOf(s, t)
  {
    if t.Sweep? then
      var d := RollForward(db, s.dir, s.h, s.tx, s.block, s.events);
      if d.Some? then d.value else db
    else Handle(db, s.dir, Log(s.h, s.block, s.evs[t.i]))
  }

  ghost function Play(db: Db, s: Scenario, turns: seq<Turn>): Db
    requires forall t :: t in turns ==> TurnOf(s, t)
  {
    if turns == [] then db else Step(Play(db, s, turns[..|turns| - 1]), s, turns[|turns| - 1])
  }

  /** What a turn writes to the row. */
  ghost function DataOf(db: Db, s: Scenario, t: Turn): Data
    requires TurnOf(s, t)
  {
    if t.Sweep? then
      var data := RowData(s.dir, s.tx.action, s.events);
      if data.Some? then data.value else map[]
    else if KindOf(s.evs[t.i]).Make? then PromoteData(db, s.dir, s.evs[t.i])
    else if KindOf(s.evs[t.i]).Amend? then AmendData(s.dir, Some(s.tx), s.evs[t.i])
    else map[]
  }

  /** A database reached by turns: only the row and the tracking row may differ. */
  ghost predicate Reached(db: Db, d: Db, s: Scenario) {
    && d.rows.Keys == db.rows.Keys && d.next == db.next
    && (forall id :: id in db.rows && Some(id) != s.tx.target ==> d.rows[id] == db.rows[id])
    && d.txs.Keys == db.txs.Keys
    && (forall h :: h in db.txs && h != s.h ==> d.txs[h] == db.txs[h])
  }

  /** `d` is `db` with `data` written to the row and the tracking row, possibly, marked. */
  ghost predicate Wrote(db: Db, d: Db, s: Scenario, data: Data, marks: bool) {
    && s.tx.target.Some? && s.tx.target.value in db.rows && s.h in db.txs
    && d.rows == db.rows[s.tx.target.value := Write(db.rows[s.tx.target.value], data)]
    && d.next == db.next
    && d.txs == if marks then db.txs[s.h := db.txs[s.h].(sync := Mined, block := Some(s.block))] else db.txs
  }

  predicate Marks(s: Scenario, t: Turn)
    requires TurnOf(s, t)
  {
    t.Sweep? || !s.evs[t.i].NocMinted?
  }

  // ── One turn ──

  lemma SweepWrites(db: Db, s: Scenario)
    requires Ready(db, s)
    ensures Wrote(db, Step(db, s, Sweep), s, DataOf(db, s, Sweep), true)
  {
    var d := db.(txs := db.txs[s.h := db.txs[s.h].(sync := Mined, block := Some(s.block))]);
    NotTaken(db, s);
    SweepData(s);
    SweepBusiness(d, s);
  }

  lemma SweepBusiness(d: Db, s: Scenario)
    requires Fits(s) && s.tx.target.value in d.rows
             && !Taken(d, d.rows[s.tx.target.value].table, Num(s.x), s.tx.target.value)
    requires RowData(s.dir, s.tx.action, s.events).Some?
    ensures Business(d, s.dir, s.tx.action, s.tx.target.value, s.events) ==
            Some(Update(d, s.tx.target.value, RowData(s.dir, s.tx.action, s.events).value))
  {
    hide RowData, EventsFit;
    SweepData(s);
    assert Completes(s.tx.action, s.events).None?;
  }

  lemma NotTaken(db: Db, s: Scenario)
    requires Ready(db, s)
    ensures !Taken(db, db.rows[s.tx.target.value].table, Num(s.x), s.tx.target.value)
  {
    var table, id := db.rows[s.tx.target.value].table, s.tx.target.value;
    if !KindOf(s.evs[0]).Make? && Taken(db, table, Num(s.x), id) {
      var j :| j in db.rows && j != id && db.rows[j].table == table && At(db.rows[j], OnChainId) == Num(s.x);
      assert HasChainId(db, table, s.x, j) && HasChainId(db, table, s.x, id);
    }
  }

  lemma SweepData(s: Scenario)
    requires Fits(s)
    ensures var data := RowData(s.dir, s.tx.action, s.events);
            data.Some? && (OnChainId in data.value ==> data.value[OnChainId] == Num(s.x))
    ensures s.tx.action !in {LoanCancelPending, LoanRefinance, VehicleScrap, TransferApproveBuyer, TransferApproveRto}
  {
    assert Get(s.events, NameOf(s.evs[0])) == Some(s.evs[0]);
    if s.tx.action == LoanClear { ClearedData(s); }
  }

  lemma ClearedData(s: Scenario)
    requires Fits(s) && s.tx.action == LoanClear
    ensures RowData(s.dir, LoanClear, s.events) ==
            Some(CLEARED + if |s.evs| == 2 then map[NocRecipientWallet := Text(Lower(s.evs[1].owner)),
                                                    NocRecipientUser := UserRef(s.dir, Lower(s.evs[1].owner))]
                                                        else map[])
    ensures Status in CLEARED && OnChainId !in CLEARED
  {
    assert Get(s.events, NameOf(s.evs[0])) == Some(s.evs[0]);
    assert CLEARED[Status] == St(LoanCleared);
    if |s.evs| == 2 {
      assert Get(s.events, NameOf(s.evs[1])) == Some(s.evs[1]);
    } else {
      assert CLEARED + map[] == CLEARED;
    }
  }

  lemma AmendWrites(db: Db, s: Scenario, i: nat)
    requires Ready(db, s) && i < |s.evs| && KindOf(s.evs[0]).Amend?
    ensures Wrote(db, Step(db, s, Index(i)), s, DataOf(db, s, Index(i)), Marks(s, Index(i)))
  {
    hide Handle, RowData, AmendData, Finish, EventsFit;
    OneKind(s, i);
    AmendTarget(db, s, i);
    var table, id := KindOf(s.evs[i]).table, s.tx.target.value;
    AmendHandle(db, s.dir, Log(s.h, s.block, s.evs[i]), table, s.x);
    SameAmend(s.dir, db.txs[s.h], s.tx, s.evs[i]);
    FinishMarks(Update(db, id, AmendData(s.dir, Some(s.tx), s.evs[i])), TxOf(db, s.h), s, i);
  }

  lemma AmendTarget(db: Db, s: Scenario, i: nat)
    requires Ready(db, s) && i < |s.evs| && KindOf(s.evs[0]).Amend?
    ensures KindOf(s.evs[i]) == Amend(db.rows[s.tx.target.value].table, s.x)
    ensures Find(db, KindOf(s.evs[i]).table, s.x) == s.tx.target
  {
    AmendKind(s, i);
    hide EventsFit, KindOf, Parents, NameOf;
    assert TargetOk(db, db.txs[s.h]);
    FindUnique(db, db.rows[s.tx.target.value].table, s.x, s.tx.target.value);
  }

  lemma AmendKind(s: Scenario, i: nat)
    requires EventsFit(s.tx.action, s.x, s.evs) && i < |s.evs| && KindOf(s.evs[0]).Amend?
    ensures KindOf(s.evs[i]) == Amend(TableOf(s.tx.action), s.x)
  {
  }

  /** Every mirrored event but `NOCMinted` finalises the tracking row. */
  lemma FinishMarks(d: Db, tx: Option<Tx>, s: Scenario, i: nat)
    requires Fits(s) && i < |s.evs| && KindOf(s.evs[0]).Amend? && s.h in d.txs
    ensures Finish(d, tx, Log(s.h, s.block, s.evs[i])) ==
            if Marks(s, Index(i)) then d.(txs := d.txs[s.h := d.txs[s.h].(sync := Mined, block := Some(s.block))])
               else d
  {
  }

  lemma SameAmend(dir: Directory, tx: Tx, tx': Tx, ev: Event)
    requires KindOf(ev).Amend? && tx.member == tx'.member
    ensures AmendData(dir, Some(tx), ev) == AmendData(dir, Some(tx'), ev)
  {
  }

  lemma MakeWrites(db: Db, s: Scenario)
    requires Ready(db, s) && KindOf(s.evs[0]).Make?
    ensures Wrote(db, Step(db, s, Index(0)), s, DataOf(db, s, Index(0)), true)
  {
    hide Handle, RowData, MakeEffect;
    var ev, tx, id := s.evs[0], TxOf(db, s.h), s.tx.target.value;
    var table := KindOf(ev).table;
    LinkOf(s, tx, ev);
    LinkedEffect(db, s.dir, tx, ev, Some(id));
    MakeHandle(db, s.dir, Log(s.h, s.block, ev));
    assert Find(db, table, s.x) in {None, Some(id)} by {
      NoOther(db, s, table);
    }
    MarksAtEnd(s, tx);
  }

  lemma LinkOf(s: Scenario, tx: Option<Tx>, ev: Event)
    requires Fits(s) && KindOf(s.evs[0]).Make? && ev == s.evs[0] && tx.Some?
             && tx.value.(sync := s.tx.sync, block := s.tx.block) == s.tx
    ensures KindOf(ev) == Make(TableOf(s.tx.action), s.x) && !ev.VehicleReg? && Linked(tx, ev) == s.tx.target
  {
  }

  lemma NoOther(db: Db, s: Scenario, table: Table)
    requires Ready(db, s) && KindOf(s.evs[0]).Make? && table == db.rows[s.tx.target.value].table
    ensures Find(db, table, s.x) in {None, s.tx.target}
  {
    NotTaken(db, s);
    var found := Find(db, table, s.x);
    assert found.Some? ==> HasChainId(db, table, s.x, found.value);
  }

  lemma MarksAtEnd(s: Scenario, tx: Option<Tx>)
    requires Fits(s) && tx.Some? && tx.value.action == s.tx.action
    ensures FinalAction(tx, s.evs[0]).Some?
  {
  }

  lemma SomeEvent(s: Scenario)
    requires Fits(s)
    ensures TurnOf(s, Index(0))
  {
  }

  lemma OneKind(s: Scenario, i: nat)
    requires Fits(s) && i < |s.evs|
    ensures KindOf(s.evs[i]).Make? == KindOf(s.evs[0]).Make?
    ensures KindOf(s.evs[i]).Amend? == KindOf(s.evs[0]).Amend? == !KindOf(s.evs[i]).Make?
    ensures KindOf(s.evs[0]).Make? ==> |s.evs| == 1 && !s.evs[0].NocMinted?
  {
  }

  lemma TurnWrites(db: Db, s: Scenario, t: Turn)
    requires Ready(db, s) && TurnOf(s, t)
    ensures Wrote(db, Step(db, s, t), s, DataOf(db, s, t), Marks(s, t))
  {
    hide Step, DataOf, Wrote, Ready, EventsFit;
    if t.Sweep? {
      SweepWrites(db, s);
    } else {
      assert Fits(s) by { ReadyFits(db, s); }
      OneKind(s, t.i);
      if KindOf(s.evs[0]).Make? {
        MakeWrites(db, s);
      } else {
        AmendWrites(db, s, t.i);
      }
    }
  }

  lemma ReadyFits(db: Db, s: Scenario)
    requires Ready(db, s)
    ensures Fits(s)
  {
  }

  // ── The next turn finds the same data ──

  /** A turn leaves the other writer ready, and what either of them writes unchanged. */
  lemma StillReady(db: Db, s: Scenario, t: Turn, d: Db)
    requires Ready(db, s) && TurnOf(s, t) && Wrote(db, d, s, DataOf(db, s, t), Marks(s, t)) && Sound(d)
    ensures Ready(d, s)
  {
    hide Handle, RollForward, RowData, PromoteData, AmendData;
    DataTame(db, s, t);
    var id := s.tx.target.value;
    if Taken(d, d.rows[id].table, Num(s.x), id) {
      var j :| j in d.rows && j != id && d.rows[j].table == d.rows[id].table && At(d.rows[j], OnChainId) == Num(s.x);
      assert d.rows[j] == db.rows[j];
      NotTaken(db, s);
    }
    if KindOf(s.evs[0]).Make? {
      SameWorld(db, d, s);
    }
  }

  lemma DataTame(db: Db, s: Scenario, t: Turn)
    requires Fits(s) && TurnOf(s, t)
    ensures var data := DataOf(db, s, t); OnChainId in data ==> data[OnChainId] == Num(s.x)
  {
    if t.Sweep? {
      SweepData(s);
    } else {
      OneKind(s, t.i);
      if KindOf(s.evs[0]).Make? {
        MakeData(db, s.dir, None, s.evs[0]);
      } else {
        AmendTame(s.dir, Some(s.tx), s.evs[t.i]);
      }
    }
  }

  /** The rows a creating handler looks up are other rows, so it finds them as before. */
  lemma SameWorld(db: Db, d: Db, s: Scenario)
    requires Ready(db, s) && KindOf(s.evs[0]).Make? && Sound(d) && s.h in d.txs
    requires Reached(db, d, s) && d.rows[s.tx.target.value].table == db.rows[s.tx.target.value].table
    requires d.txs[s.h].(sync := s.tx.sync, block := s.tx.block) == s.tx
    ensures Parents(d, s.dir, Some(d.txs[s.h]), s.evs[0])
            && PromoteData(d, s.dir, s.evs[0]) == PromoteData(db, s.dir, s.evs[0])
  {
    hide Ready, FindsSame, Parents, PromoteData, Fits, EventsFit;
    forall table: Table, x: nat | table in {Passports, Ownerships} ensures FindsSame(db, d, table, x) {
      OtherFinds(db, d, s, table, x);
    }
    ReadyParents(db, s);
    SomeEvent(s);
    MakingEvents(s);
    SameLookups(db, d, s.dir, db.txs[s.h], d.txs[s.h], s.evs[0]);
  }

  lemma MakingEvents(s: Scenario)
    requires Fits(s) && KindOf(s.evs[0]).Make?
    ensures s.evs[0].ChallanIssued? || s.evs[0].PolicyIssued? || s.evs[0].PucIssued? || s.evs[0].LoanReg?
  {
  }

  lemma ReadyParents(db: Db, s: Scenario)
    requires Ready(db, s) && KindOf(s.evs[0]).Make?
    ensures Fits(s) && s.h in db.txs && Parents(db, s.dir, Some(db.txs[s.h]), s.evs[0])
            && db.txs[s.h].entity == s.tx.entity
  {
  }

  ghost predicate FindsSame(db: Db, d: Db, table: Table, x: nat) {
    Find(d, table, x) == Find(db, table, x) &&
    (Find(db, table, x).Some? ==> Find(db, table, x).value in d.rows
                                  && d.rows[Find(db, table, x).value] == db.rows[Find(db, table, x).value])
  }

  lemma SameLookups(db: Db, d: Db, dir: Directory, tx: Tx, tx': Tx, ev: Event)
    requires ev.ChallanIssued? || ev.PolicyIssued? || ev.PucIssued? || ev.LoanReg?
    requires forall table, x: nat :: table in {Passports, Ownerships} ==> FindsSame(db, d, table, x)
    requires Parents(db, dir, Some(tx), ev) && tx.entity == tx'.entity
    ensures Parents(d, dir, Some(tx'), ev) && PromoteData(d, dir, ev) == PromoteData(db, dir, ev)
  {
    hide Find;
    match ev
    case ChallanIssued(_, ownTid, _, _) => assert FindsSame(db, d, Ownerships, ownTid);
    case PolicyIssued(_, ownTid, _) => assert FindsSame(db, d, Ownerships, ownTid);
    case PucIssued(_, ownTid, _) => assert FindsSame(db, d, Ownerships, ownTid);
    case LoanReg(_, dvpId, _, _, _) => assert FindsSame(db, d, Passports, dvpId);
  }

  lemma TargetTable(db: Db, s: Scenario)
    requires Ready(db, s)
    ensures db.rows[s.tx.target.value].table == TableOf(s.tx.action) && TableOf(s.tx.action) !in {Passports, Ownerships}
  {
    assert TargetOk(db, db.txs[s.h]);
  }

  lemma OtherFinds(db: Db, d: Db, s: Scenario, table: Table, x: nat)
    requires Ready(db, s) && Sound(d) && Reached(db, d, s) && table in {Passports, Ownerships}
    requires d.rows[s.tx.target.value].table == db.rows[s.tx.target.value].table
    ensures FindsSame(db, d, table, x)
  {
    TargetTable(db, s);
    if Find(db, table, x).Some? {
      assert HasChainId(d, table, x, Find(db, table, x).value);
      FindUnique(d, table, x, Find(db, table, x).value);
    } else if Find(d, table, x).Some? {
      assert HasChainId(db, table, x, Find(d, table, x).value);
    }
  }

  lemma TurnSound(db: Db, s: Scenario, t: Turn)
    requires Ready(db, s) && TurnOf(s, t)
    ensures Sound(Step(db, s, t))
  {
    if t.Sweep? {
      hide Step, RowData, EventsFit;
      var id, data := s.tx.target.value, DataOf(db, s, t);
      SweepLegal(s);
      NotTaken(db, s);
      assert forall j :: HasChainId(db, db.rows[id].table, s.x, j) && j != id ==>
             Taken(db, db.rows[id].table, Num(s.x), id);
      PerformSound(db, WriteRow(id, data));
      FinalizeSound(Update(db, id, data), s.h, s.block, s.tx.action);
      SweepWrites(db, s);
      assert Step(db, s, t) == Finalize(Update(db, id, data), s.h, s.block, s.tx.action);
    } else {
      HandleSound(db, s.dir, Log(s.h, s.block, s.evs[t.i]));
    }
  }

  lemma SweepLegal(s: Scenario)
    requires Fits(s)
    ensures var data := RowData(s.dir, s.tx.action, s.events);
            && data.Some? && PassportRef !in data.value && EntityRef !in data.value
            && (Status in data.value ==> data.value[Status] != St(LoanPending))
            && (OnChainId in data.value ==> Status in data.value && data.value[OnChainId] == Num(s.x))
  {
    SweepData(s);
    if s.tx.action == LoanClear { ClearedData(s); }
  }

  lemma DataStays(db: Db, d: Db, s: Scenario, t: Turn)
    requires Ready(db, s) && Ready(d, s) && TurnOf(s, t) && Reached(db, d, s)
    requires d.rows[s.tx.target.value].table == db.rows[s.tx.target.value].table
    ensures DataOf(d, s, t) == DataOf(db, s, t)
  {
    hide Ready, RowData, AmendData, PromoteData, EventsFit;
    if t.Index? && KindOf(s.evs[t.i]).Make? {
      ReadyFits(db, s);
      OneKind(s, t.i);
      StaysBoth(db, d, s);
    }
  }

  lemma StaysBoth(db: Db, d: Db, s: Scenario)
    requires Ready(db, s) && Ready(d, s) && KindOf(s.evs[0]).Make? && Reached(db, d, s)
    requires d.rows[s.tx.target.value].table == db.rows[s.tx.target.value].table
    ensures PromoteData(d, s.dir, s.evs[0]) == PromoteData(db, s.dir, s.evs[0])
  {
    SameWorld(db, d, s);
  }

  // ── The writers agree ──

  /** The columns only one of the two writers sets. */
  function OneSided(action: Action): set<Col> {
    match action
    case ChallanCancel => {CancelledBy}
    case InsuranceIssue => {OwnerUser, IssueDate}
    case PucIssue => {OwnTid, Passed, ExpiryDate, OwnerUser, IssueDate}
    case _ => {}
  }

  /** Every column outside `OneSided` that the sweep writes is written by one of the handlers, and conversely; shared
      columns get the same value. */
  ghost predicate Agrees(db: Db, s: Scenario) {
    && (forall t, t', c :: TurnOf(s, t) && TurnOf(s, t') && c in DataOf(db, s, t) && c in DataOf(db, s, t') ==>
        DataOf(db, s, t)[c] == DataOf(db, s, t')[c])
    && (forall c :: c !in OneSided(s.tx.action) ==>
          (c in DataOf(db, s, Sweep) <==> exists i :: 0 <= i < |s.evs| && c in DataOf(db, s, Index(i))))
  }

  lemma WritersAgree(db: Db, s: Scenario)
    requires Fits(s)
    ensures Agrees(db, s)
  {
    assert Get(s.events, NameOf(s.evs[0])) == Some(s.evs[0]);
    SweepData(s);
    if s.tx.action == LoanClear {
      ClearedAgree(db, s);
    } else {
      var sweep, index := DataOf(db, s, Sweep), DataOf(db, s, Index(0));
      assert |s.evs| == 1;
      assert forall t :: TurnOf(s, t) ==> t == Sweep || t == Index(0);
      SingleAgree(db, s);
    }
  }

  lemma SingleAgree(db: Db, s: Scenario)
    requires Fits(s) && |s.evs| == 1 && s.tx.action != LoanClear && Get(s.events, NameOf(s.evs[0])) == Some(s.evs[0])
    ensures var sweep, index := DataOf(db, s, Sweep), DataOf(db, s, Index(0));
            && (forall c :: c in sweep && c in index ==> sweep[c] == index[c])
            && (forall c :: c !in OneSided(s.tx.action) ==> (c in sweep <==> c in index))
  {
    hide PromoteData, AmendData, ChallanData, PolicyData, PucData, LoanData;
    match TableOf(s.tx.action)
    case Challans => ChallanAgree(db, s);
    case Policies => PolicyAgree(db, s);
    case Pucs => PucAgree(db, s);
    case Loans => LoanAgree(db, s);
    case _ =>
  }

  /** The data of both writers for one event: they share the columns outside `OneSided`. */
  predicate SameOutside(sweep: Data, index: Data, oneSided: set<Col>) {
    && (forall c :: c in sweep && c in index ==> sweep[c] == index[c])
    && (forall c :: c !in oneSided ==> (c in sweep <==> c in index))
  }

  lemma ChallanAgree(db: Db, s: Scenario)
    requires Fits(s) && |s.evs| == 1 && TableOf(s.tx.action) == Challans
             && Get(s.events, NameOf(s.evs[0])) == Some(s.evs[0])
    ensures SameOutside(DataOf(db, s, Sweep), DataOf(db, s, Index(0)), OneSided(s.tx.action))
  {
  }

  lemma PolicyAgree(db: Db, s: Scenario)
    requires Fits(s) && |s.evs| == 1 && TableOf(s.tx.action) == Policies
             && Get(s.events, NameOf(s.evs[0])) == Some(s.evs[0])
    ensures SameOutside(DataOf(db, s, Sweep), DataOf(db, s, Index(0)), OneSided(s.tx.action))
  {
  }

  lemma PucAgree(db: Db, s: Scenario)
    requires Fits(s) && |s.evs| == 1 && TableOf(s.tx.action) == Pucs
             && Get(s.events, NameOf(s.evs[0])) == Some(s.evs[0])
    ensures SameOutside(DataOf(db, s, Sweep), DataOf(db, s, Index(0)), OneSided(s.tx.action))
  {
  }

  lemma LoanAgree(db: Db, s: Scenario)
    requires Fits(s) && |s.evs| == 1 && s.tx.action == Action.LoanReg
             && Get(s.events, NameOf(s.evs[0])) == Some(s.evs[0])
    ensures SameOutside(DataOf(db, s, Sweep), DataOf(db, s, Index(0)), OneSided(s.tx.action))
  {
  }

  lemma ClearedAgree(db: Db, s: Scenario)
    requires Fits(s) && s.tx.action == LoanClear
    ensures Agrees(db, s)
  {
    hide DataOf, RowData;
    ClearedTurns(db, s);
    AtMostTwo(s);
    forall t, t', c | TurnOf(s, t) && TurnOf(s, t') && c in DataOf(db, s, t) && c in DataOf(db, s, t')
      ensures DataOf(db, s, t)[c] == DataOf(db, s, t')[c]
    {
      assert (t.Index? ==> t == Index(t.i)) && (t'.Index? ==> t' == Index(t'.i));
    }
    forall c ensures c in DataOf(db, s, Sweep) <==> exists i :: 0 <= i < |s.evs| && c in DataOf(db, s, Index(i)) {
      ClearedColumn(db, s, c);
    }
  }

  lemma ClearedColumn(db: Db, s: Scenario, c: Col)
    requires Fits(s) && s.tx.action == LoanClear
    ensures c in DataOf(db, s, Sweep) <==> exists i :: 0 <= i < |s.evs| && c in DataOf(db, s, Index(i))
  {
    hide DataOf, RowData;
    ClearedTurns(db, s);
    var recipient: Data := if |s.evs| == 2 then DataOf(db, s, Index(1)) else map[];
    if c in CLEARED {
      assert c in DataOf(db, s, Index(0));
    } else if c in recipient {
      assert c in DataOf(db, s, Index(1));
    } else {
      AtMostTwo(s);
    }
  }

  lemma AtMostTwo(s: Scenario)
    requires Fits(s) && s.tx.action == LoanClear
    ensures 1 <= |s.evs| <= 2
  {
  }

  lemma ClearedTurns(db: Db, s: Scenario)
    requires Fits(s) && s.tx.action == LoanClear
    ensures var recipient: Data := if |s.evs| == 2 then DataOf(db, s, Index(1)) else map[];
            && DataOf(db, s, Index(0)) == CLEARED && CLEARED.Keys !! recipient.Keys
            && DataOf(db, s, Sweep) == CLEARED + recipient
  {
    ClearedData(s);
  }

  /** Each column has the value some turn wrote, or its old value when no turn writes it. */
  ghost predicate RowPlayed(db: Db, row: Row, row': Row, s: Scenario, turns: seq<Turn>)
    requires forall t :: t in turns ==> TurnOf(s, t)
  {
    && row'.table == row.table
    && (forall t, c :: t in turns && c in DataOf(db, s, t) ==> At(row', c) == DataOf(db, s, t)[c])
    && (forall c :: (forall t :: t in turns ==> c !in DataOf(db, s, t)) ==> At(row', c) == At(row, c))
  }

  ghost predicate Played(db: Db, d: Db, s: Scenario, turns: seq<Turn>)
    requires forall t :: t in turns ==> TurnOf(s, t)
  {
    && Ready(db, s) && Ready(d, s) && Reached(db, d, s)
    && RowPlayed(db, db.rows[s.tx.target.value], d.rows[s.tx.target.value], s, turns)
    && ((exists t :: t in turns && Marks(s, t)) ==> d.txs[s.h].sync == Mined)
  }

  lemma RowPlayedStep(db: Db, row: Row, mid: Row, s: Scenario, turns: seq<Turn>, t: Turn)
    requires (forall t' :: t' in turns ==> TurnOf(s, t')) && TurnOf(s, t)
    requires RowPlayed(db, row, mid, s, turns) && Agrees(db, s)
    ensures RowPlayed(db, row, Write(mid, DataOf(db, s, t)), s, turns + [t])
  {
    hide DataOf;
    var data, row' := DataOf(db, s, t), Write(mid, DataOf(db, s, t));
    assert t in turns + [t] && forall t' :: t' in turns ==> t' in turns + [t];
    forall t', c | t' in turns + [t] && c in DataOf(db, s, t') ensures At(row', c) == DataOf(db, s, t')[c] {
      assert t' == t || t' in turns;
    }
  }

  lemma PlayedStep(db: Db, d: Db, s: Scenario, turns: seq<Turn>, t: Turn, d': Db)
    requires (forall t' :: t' in turns ==> TurnOf(s, t')) && TurnOf(s, t)
    requires Played(db, d, s, turns) && Agrees(db, s) && Ready(d', s) && DataOf(d, s, t) == DataOf(db, s, t)
    requires Wrote(d, d', s, DataOf(d, s, t), Marks(s, t))
    ensures Played(db, d', s, turns + [t])
  {
    hide Ready, DataOf, RowData, Fits, Agrees, RowPlayed;
    ReadyTarget(db, s);
    ReadyTarget(d, s);
    RowPlayedStep(db, db.rows[s.tx.target.value], d.rows[s.tx.target.value], s, turns, t);
    assert forall t' :: t' in turns + [t] ==> t' == t || t' in turns;
  }

  lemma PlayedNothing(db: Db, s: Scenario)
    requires Ready(db, s)
    ensures Played(db, db, s, [])
  {
  }

  lemma ReadyTarget(db: Db, s: Scenario)
    requires Ready(db, s)
    ensures s.tx.target.Some? && s.tx.target.value in db.rows && s.h in db.txs
  {
  }

  lemma {:induction false} PlayedAll(db: Db, s: Scenario, turns: seq<Turn>)
    requires Ready(db, s) && forall t :: t in turns ==> TurnOf(s, t)
    ensures Played(db, Play(db, s, turns), s, turns)
  {
    hide Ready, DataOf, Step, Wrote, Agrees, Played;
    if turns == [] {
      PlayedNothing(db, s);
    } else {
      var before, t := turns[..|turns| - 1], turns[|turns| - 1];
      PlayedAll(db, s, before);
      PlayOn(db, Play(db, s, before), s, before, t);
      assert before + [t] == turns && t in turns;
    }
  }

  lemma PlayOn(db: Db, d: Db, s: Scenario, turns: seq<Turn>, t: Turn)
    requires (forall t' :: t' in turns ==> TurnOf(s, t')) && TurnOf(s, t) && Played(db, d, s, turns)
    ensures Played(db, Step(d, s, t), s, turns + [t])
  {
    hide Ready, DataOf, Step, Wrote, Agrees, RowPlayed;
    TurnWrites(d, s, t);
    TurnSound(d, s, t);
    StillReady(d, s, t, Step(d, s, t));
    ReadyFits(db, s);
    WritersAgree(db, s);
    SameTable(db, d, s, turns);
    DataStays(db, d, s, t);
    PlayedStep(db, d, s, turns, t, Step(d, s, t));
  }

  lemma SameTable(db: Db, d: Db, s: Scenario, turns: seq<Turn>)
    requires (forall t :: t in turns ==> TurnOf(s, t)) && Played(db, d, s, turns)
    ensures d.rows[s.tx.target.value].table == db.rows[s.tx.target.value].table
  {
  }

  /** The sweep has had a turn, or every event has been handled. */
  predicate Complete(s: Scenario, turns: seq<Turn>) {
    Sweep in turns || forall i :: 0 <= i < |s.evs| ==> Index(i) in turns
  }

  /** Whichever writer comes first: any two ways in which the writers finish a transaction, with any repetitions, leave
      the tables equal except for the columns only one writer sets; status and on-chain id are never among those. */
  lemma WhicheverWriterComesFirst(db: Db, s: Scenario, u: seq<Turn>, v: seq<Turn>)
    requires Ready(db, s) && (forall t :: t in u ==> TurnOf(s, t)) && (forall t :: t in v ==> TurnOf(s, t))
    requires Complete(s, u) && Complete(s, v)
    ensures var d, d', id := Play(db, s, u), Play(db, s, v), s.tx.target.value;
            && d.rows.Keys == d'.rows.Keys == db.rows.Keys
            && (forall other :: other in db.rows && other != id ==> d.rows[other] == d'.rows[other] == db.rows[other])
            && (forall c :: c !in OneSided(s.tx.action) ==> At(d.rows[id], c) == At(d'.rows[id], c))
            && s.h in d.txs && s.h in d'.txs && d.txs[s.h].sync == d'.txs[s.h].sync == Mined
    ensures Status !in OneSided(s.tx.action) && OnChainId !in OneSided(s.tx.action)
  {
    hide Ready, DataOf, Play, Agrees, RowPlayed;
    PlayedAll(db, s, u);
    PlayedAll(db, s, v);
    ReadyFits(db, s);
    WritersAgree(db, s);
    ReadyTarget(db, s);
    ReadyTarget(Play(db, s, u), s);
    ReadyTarget(Play(db, s, v), s);
    forall c | c !in OneSided(s.tx.action)
      ensures At(Play(db, s, u).rows[s.tx.target.value], c) == At(Play(db, s, v).rows[s.tx.target.value], c)
    {
      ColumnAgrees(db, Play(db, s, u), s, u, c);
      ColumnAgrees(db, Play(db, s, v), s, v, c);
    }
    MarkedAtEnd(s, u);
    MarkedAtEnd(s, v);
  }

  lemma MarkedAtEnd(s: Scenario, turns: seq<Turn>)
    requires Fits(s) && Complete(s, turns) && forall t :: t in turns ==> TurnOf(s, t)
    ensures exists t :: t in turns && Marks(s, t)
  {
    if Sweep in turns { assert Marks(s, Sweep); } else { assert Marks(s, Index(0)); }
  }

  /** A column both writers set has the sweep's value in the end; any other column outside `OneSided` is untouched. */
  lemma ColumnAgrees(db: Db, d: Db, s: Scenario, turns: seq<Turn>, c: Col)
    requires (forall t :: t in turns ==> TurnOf(s, t)) && Complete(s, turns)
    requires Played(db, d, s, turns) && Agrees(db, s) && c !in OneSided(s.tx.action)
    ensures At(d.rows[s.tx.target.value], c) == if c in DataOf(db, s, Sweep) then DataOf(db, s, Sweep)[c]
            else At(db.rows[s.tx.target.value], c)
  {
    hide DataOf, RowData, Fits, Ready;
    if c in DataOf(db, s, Sweep) {
      if Sweep !in turns {
        var i :| 0 <= i < |s.evs| && c in DataOf(db, s, Index(i));
        assert Index(i) in turns;
      }
    } else {
      forall t | t in turns ensures c !in DataOf(db, s, t) {
        if t.Index? { assert 0 <= t.i < |s.evs| && t == Index(t.i); }
      }
    }
  }

  /** The one-sided columns are really one-sided: the sweep alone and the handler alone leave such a column equal only
      if what the one writer wrote was there before. */
  lemma OneSidedDiffers(db: Db, s: Scenario, c: Col)
    requires Ready(db, s) && c in OneSided(s.tx.action)
    ensures var sweep, index, id := Play(db, s, [Sweep]), Play(db, s, [Index(0)]), s.tx.target.value;
            var writer := if c in DataOf(db, s, Sweep) then Sweep else Index(0);
            && c in DataOf(db, s, writer)
            && id in sweep.rows && id in index.rows
            && (At(sweep.rows[id], c) == At(index.rows[id], c) <==> DataOf(db, s, writer)[c] == At(db.rows[id], c))
  {
    hide Ready, DataOf, Play, EventsFit;
    ReadyFits(db, s);
    SomeEvent(s);
    OneSidedWriter(db, s, c);
    AfterOne(db, s, Sweep, c);
    AfterOne(db, s, Index(0), c);
  }

  lemma AfterOne(db: Db, s: Scenario, t: Turn, c: Col)
    requires Ready(db, s) && TurnOf(s, t)
    ensures var d, id := Play(db, s, [t]), s.tx.target.value;
            id in d.rows && At(d.rows[id], c) == if c in DataOf(db, s, t) then DataOf(db, s, t)[c]
                else At(db.rows[id], c)
  {
    hide DataOf, Play;
    PlayedAll(db, s, [t]);
    assert t in [t];
  }

  lemma OneSidedWriter(db: Db, s: Scenario, c: Col)
    requires Fits(s) && c in OneSided(s.tx.action)
    ensures c in DataOf(db, s, Sweep) <==> c !in DataOf(db, s, Index(0))
  {
    assert Get(s.events, NameOf(s.evs[0])) == Some(s.evs[0]);
  }
}

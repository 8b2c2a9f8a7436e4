/** Replaying logs of one contract a second time changes no business row: the fact behind crash recovery of the
    indexer, whose cursor is only saved at the end of a chunk. */
module Replay {
  import opened Tables
  import opened Chain
  import opened Indexer
  import opened IndexerFacts

  /** The on-chain ids an event looks up. */
  function Refs(ev: Event): set<(Table, nat)> {
    match ev
    case VehicleReg(ownTid, _, _, dvpId) => {(Ownerships, ownTid), (Passports, dvpId)}
    case XferInit(reqId, ownTid, _, _) => {(Transfers, reqId), (Ownerships, ownTid)}
    case ChallanIssued(challanId, ownTid, _, _) => {(Challans, challanId), (Ownerships, ownTid)}
    case PolicyIssued(polId, ownTid, _) => {(Policies, polId), (Ownerships, ownTid)}
    case PucIssued(certId, ownTid, _) => {(Pucs, certId), (Ownerships, ownTid)}
    case LoanReg(loanId, dvpId, _, _, _) => {(Loans, loanId), (Passports, dvpId)}
    case PendingLoanCancelled(dvpId, _) => {(Passports, dvpId)}
    case _ => if KindOf(ev).Amend? then {(KindOf(ev).table, KindOf(ev).x)} else {}
  }

  predicate Makes(ev: Event, table: Table, x: nat) {
    KindOf(ev) == Make(table, x)
  }

  /** No log refers to an id before the log that creates it. (So an id is created at most once.) */
  ghost predicate Ordered(logs: seq<Log>) {
    forall i, j, table, x | 0 <= i < |logs| && 0 <= j < |logs| ::
      (table, x) in Refs(logs[i].event) && Makes(logs[j].event, table, x) ==> j <= i
  }

  /** Each creating log promotes its own service row, and that row is not numbered otherwise. */
  ghost predicate PromotionsFresh(db: Db, logs: seq<Log>) {
    && (forall i :: 0 <= i < |logs| ==> PromotionOk(db, logs[i]))
    && (forall i, j :: 0 <= i < j < |logs| ==> DifferentLinks(db, logs[i], logs[j]))
  }

  ghost predicate DifferentLinks(db: Db, l1: Log, l2: Log) {
    KindOf(l1.event).Make? && KindOf(l2.event).Make? ==>
      var r1, r2 := Linked(TxOf(db, l1.hash), l1.event), Linked(TxOf(db, l2.hash), l2.event);
      r1.None? || r2.None? || r1 != r2
  }

  ghost predicate Replayable(db: Db, logs: seq<Log>, contract: Contract) {
    && Sound(db) && Ordered(logs) && PromotionsFresh(db, logs)
    && forall i :: 0 <= i < |logs| ==> ContractOf(logs[i].event) == contract
  }

  // ── Promotions stay fresh ──

  lemma LinkedByInfo(d: Db, d': Db, log: Log)
    requires KindOf(log.event).Make?
    ensures InfoOf(d', log.hash) == InfoOf(d, log.hash) ==>
            Linked(TxOf(d', log.hash), log.event) == Linked(TxOf(d, log.hash), log.event)
    ensures InfoOf(d', log.hash).link.None? ==> Linked(TxOf(d', log.hash), log.event).None?
  {
  }

  /** A handler numbers a row only by promoting it, or with the number it already has. */
  lemma NumberedBy(db: Db, dir: Directory, log: Log, id: RowId, d: Db)
    requires Sound(db) && d == Handle(db, dir, log) && id in db.rows && id in d.rows
    requires At(db.rows[id], OnChainId) == Null && At(d.rows[id], OnChainId) != Null
    ensures KindOf(log.event).Make? && Linked(TxOf(db, log.hash), log.event) == Some(id)
    ensures At(d.rows[id], OnChainId) == Num(KindOf(log.event).x)
  {
    HandleNumbers(db, dir, log, id, d);
    EffectNumbers(db, dir, log);
  }

  /** A log's link never changes, except that it can disappear. */
  lemma LinkStays(db: Db, d: Db, log: Log, contract: Contract)
    requires Later(db, d, contract) && KindOf(log.event).Make?
    ensures Linked(TxOf(d, log.hash), log.event) in {None, Linked(TxOf(db, log.hash), log.event)}
  {
    LinkedByInfo(db, d, log);
    assert InfoOf(d, log.hash) == InfoOf(db, log.hash) || Forgotten(db, d, log.hash);
  }

  lemma PromotionOkStep(db: Db, dir: Directory, logs: seq<Log>, k: nat, i: nat, d: Db)
    requires Sound(db) && Sound(d) && Ordered(logs) && PromotionsFresh(db, logs) && k < |logs| && i < |logs|
             && d == Handle(db, dir, logs[k])
    requires Later(db, d, ContractOf(logs[k].event))
    ensures PromotionOk(d, logs[i])
  {
    if KindOf(logs[i].event).Make? && Linked(TxOf(d, logs[i].hash), logs[i].event).Some? {
      LinkStays(db, d, logs[i], ContractOf(logs[k].event));
      LinkedTable(db, logs[i]);
      var id := Linked(TxOf(db, logs[i].hash), logs[i].event).value;
      assert PromotionOk(db, logs[i]);
      if id in d.rows && At(db.rows[id], OnChainId) == Null && At(d.rows[id], OnChainId) != Null {
        NumberedBy(db, dir, logs[k], id, d);
        SameLog(db, logs, i, k, id);
      } else if id in d.rows {
        assert Kept(db.rows[id], d.rows[id], ContractOf(logs[k].event));
      }
      NumberUnique(db, dir, logs, k, i, d, id);
    }
  }

  /** Only the creating event gives out a number, and it gives it to its linked row if there is one. */
  lemma NewNumber(db: Db, dir: Directory, log: Log, d: Db, table: Table, x: nat, j: RowId)
    requires Sound(db) && d == Handle(db, dir, log) && HasChainId(d, table, x, j) && !HasChainId(db, table, x, j)
    ensures Makes(log.event, table, x) && Linked(TxOf(db, log.hash), log.event) in {None, Some(j)}
  {
    HandleNumbers(db, dir, log, j, d);
    EffectNumbers(db, dir, log);
    if Linked(TxOf(db, log.hash), log.event).Some? {
      LinkedTable(db, log);
      PromotesLinked(db, dir, log, Linked(TxOf(db, log.hash), log.event).value);
    }
  }

  /** No other row takes the number of a linked row. */
  lemma NumberUnique(db: Db, dir: Directory, logs: seq<Log>, k: nat, i: nat, d: Db, id: RowId)
    requires Sound(db) && Ordered(logs) && k < |logs| && i < |logs| && PromotionOk(db, logs[i])
             && d == Handle(db, dir, logs[k])
    requires KindOf(logs[i].event).Make? && Linked(TxOf(db, logs[i].hash), logs[i].event) == Some(id) && id in db.rows
    ensures Find(d, KindOf(logs[i].event).table, KindOf(logs[i].event).x) in {None, Some(id)}
  {
    var table, x := KindOf(logs[i].event).table, KindOf(logs[i].event).x;
    if Find(d, table, x).Some? {
      var j := Find(d, table, x).value;
      if !HasChainId(db, table, x, j) {
        NewNumber(db, dir, logs[k], d, table, x, j);
        MadeOnce(logs, i, k, table, x);
      } else {
        FindUnique(db, table, x, j);
      }
    }
  }

  lemma MadeOnce(logs: seq<Log>, i: nat, k: nat, table: Table, x: nat)
    requires Ordered(logs) && i < |logs| && k < |logs| && Makes(logs[i].event, table, x)
             && Makes(logs[k].event, table, x)
    ensures i == k
  {
    assert (table, x) in Refs(logs[i].event) && (table, x) in Refs(logs[k].event);
  }

  lemma PromotesLinked(db: Db, dir: Directory, log: Log, id: RowId)
    requires KindOf(log.event).Make? && Linked(TxOf(db, log.hash), log.event) == Some(id) && id in db.rows
    ensures var e := EffectOf(db, dir, log); e.NoWrite? || e.Rejected? || (e.WriteRow? && e.id == id)
  {
  }

  lemma SameLog(db: Db, logs: seq<Log>, i: nat, k: nat, id: RowId)
    requires PromotionsFresh(db, logs) && i < |logs| && k < |logs|
    requires KindOf(logs[i].event).Make? && Linked(TxOf(db, logs[i].hash), logs[i].event) == Some(id)
    requires KindOf(logs[k].event).Make? && Linked(TxOf(db, logs[k].hash), logs[k].event) == Some(id)
    ensures i == k
  {
    assert i < k ==> DifferentLinks(db, logs[i], logs[k]);
    assert k < i ==> DifferentLinks(db, logs[k], logs[i]);
  }

  lemma PromotionsFreshStep(db: Db, dir: Directory, logs: seq<Log>, k: nat, d: Db)
    requires Sound(db) && Ordered(logs) && PromotionsFresh(db, logs) && k < |logs| && d == Handle(db, dir, logs[k])
    ensures PromotionsFresh(d, logs)
  {
    HandleSound(db, dir, logs[k]);
    HandleLater(db, dir, logs[k]);
    forall i | 0 <= i < |logs| ensures PromotionOk(d, logs[i]) {
      PromotionOkStep(db, dir, logs, k, i, d);
    }
    forall i, j | 0 <= i < j < |logs| ensures DifferentLinks(d, logs[i], logs[j]) {
      assert DifferentLinks(db, logs[i], logs[j]);
      if KindOf(logs[i].event).Make? && KindOf(logs[j].event).Make? {
        LinkStays(db, d, logs[i], ContractOf(logs[k].event));
        LinkStays(db, d, logs[j], ContractOf(logs[k].event));
      }
    }
  }

  /** Running some of the logs keeps the rest of the story replayable. */
  lemma {:induction false} RunReplayable(db: Db, dir: Directory, logs: seq<Log>, contract: Contract, q: seq<Log>)
    requires Replayable(db, logs, contract) && forall l :: l in q ==> l in logs
    ensures Replayable(Run(db, dir, q), logs, contract)
  {
    if q != [] {
      var p, l := q[..|q| - 1], q[|q| - 1];
      RunReplayable(db, dir, logs, contract, p);
      HandleSound(Run(db, dir, p), dir, l);
      assert l in q;
      var k :| 0 <= k < |logs| && logs[k] == l;
      PromotionsFreshStep(Run(db, dir, p), dir, logs, k, Run(db, dir, q));
    }
  }

  lemma {:induction false} RunLater(db: Db, dir: Directory, logs: seq<Log>, contract: Contract, i: nat)
    requires Replayable(db, logs, contract) && i <= |logs|
    ensures Later(Run(db, dir, logs[..i]), Run(db, dir, logs), contract)
    decreases |logs| - i
  {
    var a := Run(db, dir, logs[..i]);
    if i == |logs| {
      assert logs[..i] == logs;
    } else {
      RunReplayable(db, dir, logs, contract, logs[..i]);
      assert logs[..i + 1][..i] == logs[..i];
      HandleLater(a, dir, logs[i]);
      RunLater(db, dir, logs, contract, i + 1);
      LaterTransitive(a, Run(db, dir, logs[..i + 1]), Run(db, dir, logs), contract);
    }
  }

  // ── Ids that are never created ──

  lemma StaysUnknown(db: Db, dir: Directory, log: Log, table: Table, x: nat, d: Db)
    requires Sound(db) && Find(db, table, x).None? && !Makes(log.event, table, x) && d == Handle(db, dir, log)
    ensures Find(d, table, x).None?
  {
    EffectNumbers(db, dir, log);
    forall id ensures !HasChainId(d, table, x, id) {
      assert !HasChainId(db, table, x, id);
      if id in d.rows { HandleNumbers(db, dir, log, id, d); }
    }
  }

  lemma {:induction false} NeverMade(db: Db, dir: Directory, logs: seq<Log>, i: nat, table: Table, x: nat)
    requires Sound(db) && i <= |logs| && Find(Run(db, dir, logs[..i]), table, x).None?
    requires forall j :: i <= j < |logs| ==> !Makes(logs[j].event, table, x)
    ensures Find(Run(db, dir, logs), table, x).None?
    decreases |logs| - i
  {
    if i == |logs| {
      assert logs[..i] == logs;
    } else {
      assert logs[..i + 1][..i] == logs[..i];
      RunSound(db, dir, logs[..i]);
      StaysUnknown(Run(db, dir, logs[..i]), dir, logs[i], table, x, Run(db, dir, logs[..i + 1]));
      NeverMade(db, dir, logs, i + 1, table, x);
    }
  }

  // ── The second pass in step with the first ──

  /** `a` is the first pass after some logs, `b` the second pass after the same logs, `t` the end of the first pass:
      every column of `b` has its value in `t` already, or still has its value in `a`. */
  ghost predicate InStep(a: Db, b: Db, t: Db) {
    && b.rows.Keys == t.rows.Keys && b.next == t.next
    && (forall id :: id in t.rows ==> RowInStep(RowOf(a, id), b.rows[id], t.rows[id]))
    && (forall h :: InfoOf(b, h) == InfoOf(t, h))
  }

  function RowOf(db: Db, id: RowId): Option<Row> {
    if id in db.rows then Some(db.rows[id]) else None
  }

  ghost predicate RowInStep(ra: Option<Row>, rb: Row, rt: Row) {
    && rb.table == rt.table
    && At(rb, OnChainId) == At(rt, OnChainId) && At(rb, PassportRef) == At(rt, PassportRef)
       && At(rb, EntityRef) == At(rt, EntityRef)
    && forall c :: At(rb, c) == At(rt, c) || (ra.Some? && At(rb, c) == At(ra.value, c))
  }

  lemma FindInStep(a: Db, b: Db, t: Db, contract: Contract, table: Table, x: nat)
    requires Sound(b) && Sound(t) && InStep(a, b, t) && Later(a, t, contract)
    ensures Find(b, table, x) == Find(t, table, x)
    ensures Find(a, table, x).Some? ==> Find(t, table, x) == Find(a, table, x)
  {
    if Find(t, table, x).Some? {
      var id := Find(t, table, x).value;
      assert RowInStep(RowOf(a, id), b.rows[id], t.rows[id]);
      FindUnique(b, table, x, id);
    } else if Find(b, table, x).Some? {
      var id := Find(b, table, x).value;
      assert RowInStep(RowOf(a, id), b.rows[id], t.rows[id]);
      assert HasChainId(t, table, x, id);
    }
    if Find(a, table, x).Some? {
      var id := Find(a, table, x).value;
      assert Kept(a.rows[id], t.rows[id], contract);
      FindUnique(t, table, x, id);
    }
  }

  ghost predicate RefsKnown(a: Db, t: Db, ev: Event) {
    forall table, x :: (table, x) in Refs(ev) && !Makes(ev, table, x) ==> Find(a, table, x) == Find(t, table, x)
  }

  /** The effect of the second pass on a log repeats that of the first. */
  ghost predicate Echo(a: Db, b: Db, t: Db, ea: Effect, eb: Effect) {
    match ea
    case NoWrite | Rejected => eb == ea
    case WriteRow(id, data) => eb == ea && id in t.rows && KeepsIds(t, id, data)
    case CreateRow(table, data) =>
      && eb.WriteRow? && eb.id == a.next && eb.id in t.rows && KeepsIds(t, eb.id, eb.data)
      && forall c :: c in eb.data ==> c in data && data[c] == eb.data[c]
    case RemoveRows(ids) => eb == RemoveRows({}) && ids !! t.rows.Keys
  }

  ghost predicate KeepsIds(t: Db, id: RowId, data: Data)
    requires id in t.rows
  {
    && PassportRef !in data && EntityRef !in data
    && (OnChainId in data ==> data[OnChainId] == At(t.rows[id], OnChainId))
  }

  /** Both passes write `data`, or the first pass creates a row that contains it. */
  lemma RowWritten(ra: Option<Row>, ra': Row, rb: Row, rt: Row, data: Data)
    requires RowInStep(ra, rb, rt)
    requires forall c :: c in data ==> At(ra', c) == data[c]
    requires ra.Some? ==> forall c :: c !in data ==> At(ra', c) == At(ra.value, c)
    requires PassportRef !in data && EntityRef !in data && (OnChainId in data ==> data[OnChainId] == At(rt, OnChainId))
    ensures RowInStep(Some(ra'), Write(rb, data), rt)
  {
    var r := Write(rb, data);
    forall c ensures At(r, c) == At(rt, c) || At(r, c) == At(ra', c) {
      if c !in data { assert At(r, c) == At(rb, c); }
    }
  }

  lemma ReplaceInStep(a: Db, b: Db, t: Db, id: RowId, ra: Row, rb: Row, n: RowId)
    requires InStep(a, b, t) && id in t.rows && RowInStep(Some(ra), rb, t.rows[id])
    ensures InStep(a.(rows := a.rows[id := ra], next := n), b.(rows := b.rows[id := rb]), t)
  {
    var a', b' := a.(rows := a.rows[id := ra], next := n), b.(rows := b.rows[id := rb]);
    forall j | j in t.rows ensures RowInStep(RowOf(a', j), b'.rows[j], t.rows[j]) {
      assert RowInStep(RowOf(a, j), b.rows[j], t.rows[j]);
    }
    forall h ensures InfoOf(b', h) == InfoOf(t, h) {
      assert InfoOf(b, h) == InfoOf(t, h);
    }
  }

  lemma WriteInStep(a: Db, b: Db, t: Db, id: RowId, data: Data)
    requires InStep(a, b, t) && id in a.rows && id in t.rows && KeepsIds(t, id, data)
    ensures InStep(Update(a, id, data), Update(b, id, data), t)
  {
    RowWritten(RowOf(a, id), Write(a.rows[id], data), b.rows[id], t.rows[id], data);
    ReplaceInStep(a, b, t, id, Write(a.rows[id], data), Write(b.rows[id], data), a.next);
  }

  lemma CreateInStep(a: Db, b: Db, t: Db, table: Table, made: Data, data: Data)
    requires Sound(a) && InStep(a, b, t) && a.next in t.rows && KeepsIds(t, a.next, data)
    requires forall c :: c in data ==> c in made && made[c] == data[c]
    ensures InStep(Insert(a, table, made), Update(b, a.next, data), t)
  {
    var ra, rb := NewRow(table, made), Write(b.rows[a.next], data);
    assert RowInStep(Some(ra), rb, t.rows[a.next]) by {
      assert RowOf(a, a.next) == None;
      RowWritten(None, ra, b.rows[a.next], t.rows[a.next], data);
    }
    ReplaceInStep(a, b, t, a.next, ra, rb, a.next + 1);
  }

  lemma RemoveInStep(a: Db, b: Db, t: Db, ids: set<RowId>)
    requires InStep(a, b, t) && ids !! t.rows.Keys
    ensures InStep(DeleteAll(a, ids), DeleteAll(b, {}), t)
  {
    var a', b' := DeleteAll(a, ids), DeleteAll(b, {});
    assert b'.rows == b.rows && b'.txs == b.txs;
    forall j | j in t.rows ensures RowInStep(RowOf(a', j), b'.rows[j], t.rows[j]) {
      assert RowInStep(RowOf(a, j), b.rows[j], t.rows[j]);
    }
    forall h ensures InfoOf(b', h) == InfoOf(t, h) {
      assert InfoOf(b, h) == InfoOf(t, h);
    }
  }

  lemma EchoInStep(a: Db, b: Db, t: Db, ea: Effect, eb: Effect)
    requires Sound(a) && InStep(a, b, t) && Legal(a, ea) && Echo(a, b, t, ea, eb)
    ensures InStep(Perform(a, ea), Perform(b, eb), t)
  {
    match ea
    case WriteRow(id, data) => WriteInStep(a, b, t, id, data);
    case CreateRow(table, data) => CreateInStep(a, b, t, table, data, eb.data);
    case RemoveRows(ids) => RemoveInStep(a, b, t, ids);
    case _ =>
  }

  lemma FinalizeInStep(a: Db, b: Db, t: Db, h: Hash, block: nat, action: Action)
    requires InStep(a, b, t)
    ensures InStep(Finalize(a, h, block, action), b, t)
    ensures InStep(a, Finalize(b, h, block, action), t)
  {
    var a', b' := Finalize(a, h, block, action), Finalize(b, h, block, action);
    forall id | id in t.rows ensures RowInStep(RowOf(a', id), b.rows[id], t.rows[id]) {
      assert RowInStep(RowOf(a, id), b.rows[id], t.rows[id]);
    }
    forall k ensures InfoOf(b', k) == InfoOf(t, k) {
      assert InfoOf(b', k) == InfoOf(b, k);
    }
  }

  // ── Effects on both passes ──

  /** The two passes, the log both handle next, and what is known about them. */
  ghost predicate Paired(a: Db, b: Db, t: Db, log: Log) {
    && Sound(a) && Sound(b) && Sound(t) && InStep(a, b, t)
    && Later(a, t, ContractOf(log.event)) && RefsKnown(a, t, log.event)
  }

  lemma SameFinds(a: Db, b: Db, t: Db, contract: Contract, ev: Event, table: Table, x: nat)
    requires Sound(b) && Sound(t) && InStep(a, b, t) && Later(a, t, contract) && RefsKnown(a, t, ev)
    requires (table, x) in Refs(ev) && !Makes(ev, table, x)
    ensures Find(a, table, x) == Find(b, table, x) == Find(t, table, x)
  {
    FindInStep(a, b, t, contract, table, x);
  }

  lemma SameInfo(a: Db, b: Db, t: Db, log: Log)
    requires InStep(a, b, t) && Later(a, t, ContractOf(log.event))
    ensures ContractOf(log.event) != LoanContract ==> InfoOf(b, log.hash) == InfoOf(a, log.hash)
    ensures InfoOf(b, log.hash) == InfoOf(a, log.hash) ||
            (InfoOf(b, log.hash) == Info(None, None, None) && InfoOf(a, log.hash).link.Some?
             && InfoOf(a, log.hash).link.value.1 !in t.rows)
  {
    assert InfoOf(b, log.hash) == InfoOf(t, log.hash);
    assert InfoOf(t, log.hash) == InfoOf(a, log.hash) || Forgotten(a, t, log.hash);
  }

  lemma AmendByInfo(d: Db, d': Db, dir: Directory, log: Log)
    requires KindOf(log.event).Amend? && (InfoOf(d, log.hash) == InfoOf(d', log.hash)
                                          || ContractOf(log.event) == LoanContract)
    ensures AmendData(dir, TxOf(d, log.hash), log.event) == AmendData(dir, TxOf(d', log.hash), log.event)
  {
  }

  lemma AmendEcho(a: Db, b: Db, t: Db, dir: Directory, log: Log)
    requires Paired(a, b, t, log) && KindOf(log.event).Amend?
    ensures Echo(a, b, t, EffectOf(a, dir, log), EffectOf(b, dir, log))
  {
    var table, x := KindOf(log.event).table, KindOf(log.event).x;
    SameFinds(a, b, t, ContractOf(log.event), log.event, table, x);
    SameInfo(a, b, t, log);
    AmendByInfo(a, b, dir, log);
    AmendTame(dir, TxOf(a, log.hash), log.event);
  }

  lemma WithdrawEcho(a: Db, b: Db, t: Db, dir: Directory, log: Log, a': Db)
    requires Paired(a, b, t, log) && log.event.PendingLoanCancelled?
    requires a'.rows == a.rows - Withdrawn(a, dir, log.event.dvpId, log.event.bankId) && a'.next == a.next
             && Later(a', t, LoanContract)
    ensures Withdrawn(a, dir, log.event.dvpId, log.event.bankId) !! t.rows.Keys
    ensures Withdrawn(b, dir, log.event.dvpId, log.event.bankId) == {}
  {
    var dvpId, bankId := log.event.dvpId, log.event.bankId;
    SameFinds(a, b, t, LoanContract, log.event, Passports, dvpId);
    var gone := Withdrawn(a, dir, dvpId, bankId);
    forall id | id in gone ensures id !in t.rows {
      assert id < a.next && id !in a'.rows;
    }
    forall id | id in b.rows && IsWithdrawn(b, dir, dvpId, bankId, id) ensures id in gone {
      StillPending(a, b, t, id);
    }
  }

  lemma StillPending(a: Db, b: Db, t: Db, id: RowId)
    requires InStep(a, b, t) && Later(a, t, LoanContract) && id in b.rows && At(b.rows[id], Status) == St(LoanPending)
    ensures id in a.rows && a.rows[id].table == b.rows[id].table && At(a.rows[id], Status) == St(LoanPending)
    ensures At(a.rows[id], PassportRef) == At(b.rows[id], PassportRef)
            && At(a.rows[id], EntityRef) == At(b.rows[id], EntityRef)
  {
    assert RowInStep(RowOf(a, id), b.rows[id], t.rows[id]);
    assert id in a.rows;
    assert Kept(a.rows[id], t.rows[id], LoanContract);
  }

  lemma SameParents(a: Db, b: Db, t: Db, dir: Directory, log: Log)
    requires Paired(a, b, t, log) && KindOf(log.event).Make?
    ensures Parents(a, dir, TxOf(a, log.hash), log.event) == Parents(b, dir, TxOf(b, log.hash), log.event)
  {
    SameInfo(a, b, t, log);
    var ev, contract := log.event, ContractOf(log.event);
    match ev
    case VehicleReg(_, _, _, dvpId) => SameFinds(a, b, t, contract, ev, Passports, dvpId);
    case XferInit(_, ownTid, _, _) => SameFinds(a, b, t, contract, ev, Ownerships, ownTid);
    case ChallanIssued(_, ownTid, _, _) => SameFinds(a, b, t, contract, ev, Ownerships, ownTid);
    case PolicyIssued(_, ownTid, _) => SameFinds(a, b, t, contract, ev, Ownerships, ownTid);
    case PucIssued(_, ownTid, _) => SameFinds(a, b, t, contract, ev, Ownerships, ownTid);
    case LoanReg(_, dvpId, _, _, _) => SameFinds(a, b, t, contract, ev, Passports, dvpId);
  }

  /** The ownership row the insurance and PUC contracts read is the same on both passes. */
  lemma SameOwner(a: Db, b: Db, t: Db, log: Log, ownTid: nat)
    requires Paired(a, b, t, log) && ContractOf(log.event) in {InsuranceToken, PucToken}
    requires (Ownerships, ownTid) in Refs(log.event) && !Makes(log.event, Ownerships, ownTid)
    ensures OwnerColumn(a, ownTid, OwnerUser) == OwnerColumn(b, ownTid, OwnerUser)
  {
    SameFinds(a, b, t, ContractOf(log.event), log.event, Ownerships, ownTid);
    if Find(a, Ownerships, ownTid).Some? {
      UntouchedOwner(a, b, t, ContractOf(log.event), Find(a, Ownerships, ownTid).value);
    }
  }

  lemma UntouchedOwner(a: Db, b: Db, t: Db, contract: Contract, id: RowId)
    requires InStep(a, b, t) && Later(a, t, contract) && contract in {InsuranceToken, PucToken}
    requires id in a.rows && a.rows[id].table == Ownerships
    ensures id in b.rows && At(b.rows[id], OwnerUser) == At(a.rows[id], OwnerUser)
  {
    assert Kept(a.rows[id], t.rows[id], contract);
    assert RowInStep(RowOf(a, id), b.rows[id], t.rows[id]);
  }

  lemma SamePromotion(a: Db, b: Db, t: Db, dir: Directory, log: Log)
    requires Paired(a, b, t, log) && KindOf(log.event).Make?
    ensures PromoteData(a, dir, log.event) == PromoteData(b, dir, log.event)
  {
    match log.event
    case PolicyIssued(_, ownTid, _) => SameOwner(a, b, t, log, ownTid);
    case PucIssued(_, ownTid, _) => SameOwner(a, b, t, log, ownTid);
    case _ =>
  }

  lemma WithdrawnOnly(a: Db, dir: Directory, log: Log)
    requires log.event.PendingLoanCancelled?
    ensures Handle(a, dir, log).rows == a.rows - Withdrawn(a, dir, log.event.dvpId, log.event.bankId)
    ensures Handle(a, dir, log).next == a.next
  {
    assert EffectOf(a, dir, log) == RemoveRows(Withdrawn(a, dir, log.event.dvpId, log.event.bankId));
    assert SecondEffect(a, log) == NoWrite;
  }

  /** A row that has its event's number after the first pass handled the log keeps it to the end. */
  lemma NumberKept(a: Db, t: Db, dir: Directory, log: Log, a': Db, id: RowId)
    requires Sound(a) && Sound(t) && KindOf(log.event).Make? && a' == Handle(a, dir, log) && id in a'.rows
    requires Later(a', t, ContractOf(log.event))
    requires var e := EffectOf(a, dir, log);
             (e.WriteRow? && e.id == id && OnChainId in e.data) || (e.CreateRow? && id == a.next)
    ensures HasChainId(t, KindOf(log.event).table, KindOf(log.event).x, id)
    ensures Find(t, KindOf(log.event).table, KindOf(log.event).x) == Some(id)
  {
    HandleNumbers(a, dir, log, id, a');
    EffectNumbers(a, dir, log);
    assert Kept(a'.rows[id], t.rows[id], ContractOf(log.event));
    FindUnique(t, KindOf(log.event).table, KindOf(log.event).x, id);
  }

  lemma EffectRow(a: Db, dir: Directory, log: Log)
    ensures var e := EffectOf(a, dir, log);
            && (e.CreateRow? ==> a.next in Handle(a, dir, log).rows)
            && (e.WriteRow? && e.id in a.rows ==> e.id in Handle(a, dir, log).rows)
  {
    var e := EffectOf(a, dir, log);
    var d := Perform(a, e);
    assert Perform(d, SecondEffect(a, log)).rows.Keys == d.rows.Keys;
  }

  /** After the first pass has handled a creating log, the row it wrote is in `t` with the event's number. */
  ghost predicate WrittenKept(a: Db, t: Db, e: Effect, table: Table, x: nat) {
    && (e.WriteRow? && OnChainId in e.data ==> Find(t, table, x) == Some(e.id))
    && (e.CreateRow? ==> Find(t, table, x) == Some(a.next))
  }

  lemma MakeKept(a: Db, t: Db, dir: Directory, log: Log, a': Db)
    requires Sound(a) && Sound(t) && KindOf(log.event).Make?
    requires a' == Handle(a, dir, log) && Later(a', t, ContractOf(log.event))
    ensures WrittenKept(a, t, EffectOf(a, dir, log), KindOf(log.event).table, KindOf(log.event).x)
  {
    var e := EffectOf(a, dir, log);
    EffectLegal(a, dir, log);
    EffectRow(a, dir, log);
    if e.WriteRow? && OnChainId in e.data { NumberKept(a, t, dir, log, a', e.id); }
    if e.CreateRow? { NumberKept(a, t, dir, log, a', a.next); }
  }

  lemma LinkedEcho(a: Db, b: Db, t: Db, dir: Directory, log: Log, ea: Effect, eb: Effect)
    requires Paired(a, b, t, log) && KindOf(log.event).Make? && PromotionOk(a, log)
    requires ea == MakeEffect(a, dir, TxOf(a, log.hash), log.event)
             && eb == MakeEffect(b, dir, TxOf(b, log.hash), log.event)
    requires Parents(a, dir, TxOf(a, log.hash), log.event) && Linked(TxOf(a, log.hash), log.event).Some?
    requires WrittenKept(a, t, ea, KindOf(log.event).table, KindOf(log.event).x)
    ensures Echo(a, b, t, ea, eb)
  {
    var id := Linked(TxOf(a, log.hash), log.event).value;
    LinkedTable(a, log);
    assert ea == WriteRow(id, PromoteData(a, dir, log.event));
    MakeData(a, dir, TxOf(a, log.hash), log.event);
    PromotionNumbers(a, dir, log.event, TxOf(a, log.hash));
    SameInfo(a, b, t, log);
    LinkedByInfo(a, b, log);
    SameParents(a, b, t, dir, log);
    SamePromotion(a, b, t, dir, log);
    FindInStep(a, b, t, ContractOf(log.event), KindOf(log.event).table, KindOf(log.event).x);
  }

  lemma PromotionNumbers(db: Db, dir: Directory, ev: Event, tx: Option<Tx>)
    requires KindOf(ev).Make? && Linked(tx, ev).Some?
    ensures OnChainId in PromoteData(db, dir, ev)
    ensures tx.value.target == Linked(tx, ev)
  {
  }

  /** An ownership that the handler cannot create is not created later either. */
  ghost predicate RefusedKnown(a: Db, t: Db, dir: Directory, ev: Event) {
    Unregistrable(dir, ev) ==> Find(a, Ownerships, ev.ownTid) == Find(t, Ownerships, ev.ownTid)
  }

  lemma UnlinkedEcho(a: Db, b: Db, t: Db, dir: Directory, log: Log, ea: Effect, eb: Effect)
    requires Paired(a, b, t, log) && KindOf(log.event).Make? && RefusedKnown(a, t, dir, log.event)
    requires ea == MakeEffect(a, dir, TxOf(a, log.hash), log.event)
             && eb == MakeEffect(b, dir, TxOf(b, log.hash), log.event)
    requires Parents(a, dir, TxOf(a, log.hash), log.event) && Linked(TxOf(a, log.hash), log.event).None?
    requires WrittenKept(a, t, ea, KindOf(log.event).table, KindOf(log.event).x)
    ensures Echo(a, b, t, ea, eb)
  {
    hide InStep, Later, Parents, CreateData, UpsertData, PromoteData, Sound;
    var table, x := KindOf(log.event).table, KindOf(log.event).x;
    MakeData(a, dir, TxOf(a, log.hash), log.event);
    CreateCovers(a, dir, TxOf(a, log.hash), log.event);
    SameInfo(a, b, t, log);
    LinkedByInfo(a, b, log);
    SameParents(a, b, t, dir, log);
    FindInStep(a, b, t, ContractOf(log.event), table, x);
    assert Unregistrable(dir, log.event) ==> Find(a, table, x) == Find(b, table, x);
  }

  lemma MakeEcho(a: Db, b: Db, t: Db, dir: Directory, log: Log)
    requires Paired(a, b, t, log) && KindOf(log.event).Make? && PromotionOk(a, log)
             && RefusedKnown(a, t, dir, log.event)
    requires WrittenKept(a, t, EffectOf(a, dir, log), KindOf(log.event).table, KindOf(log.event).x)
    ensures Echo(a, b, t, EffectOf(a, dir, log), EffectOf(b, dir, log))
  {
    var ea := MakeEffect(a, dir, TxOf(a, log.hash), log.event);
    var eb := MakeEffect(b, dir, TxOf(b, log.hash), log.event);
    if !Parents(a, dir, TxOf(a, log.hash), log.event) {
      SameParents(a, b, t, dir, log);
    } else if Linked(TxOf(a, log.hash), log.event).Some? {
      LinkedEcho(a, b, t, dir, log, ea, eb);
    } else {
      UnlinkedEcho(a, b, t, dir, log, ea, eb);
    }
  }

  lemma EffectsEcho(a: Db, b: Db, t: Db, dir: Directory, log: Log, a': Db)
    requires Paired(a, b, t, log) && PromotionOk(a, log) && a' == Handle(a, dir, log)
             && Later(a', t, ContractOf(log.event))
    requires RefusedKnown(a, t, dir, log.event)
    ensures Echo(a, b, t, EffectOf(a, dir, log), EffectOf(b, dir, log))
  {
    if KindOf(log.event).Make? {
      MakeKept(a, t, dir, log, a');
      MakeEcho(a, b, t, dir, log);
    } else if KindOf(log.event).Amend? {
      AmendEcho(a, b, t, dir, log);
    } else {
      if KindOf(log.event).Withdraw? {
        WithdrawnOnly(a, dir, log);
        WithdrawEcho(a, b, t, dir, log, a');
      }
      OtherEcho(a, b, t, dir, log);
    }
  }

  lemma OtherEcho(a: Db, b: Db, t: Db, dir: Directory, log: Log)
    requires KindOf(log.event).Notice? || KindOf(log.event).Withdraw?
    requires KindOf(log.event).Withdraw? ==>
               && Withdrawn(a, dir, log.event.dvpId, log.event.bankId) !! t.rows.Keys
               && Withdrawn(b, dir, log.event.dvpId, log.event.bankId) == {}
    ensures Echo(a, b, t, EffectOf(a, dir, log), EffectOf(b, dir, log))
  {
  }

  lemma SecondEcho(a: Db, b: Db, t: Db, log: Log, a1: Db, b1: Db)
    requires Paired(a, b, t, log) && (SecondEffect(a, log) != NoWrite ==> a.rows.Keys <= a1.rows.Keys)
    ensures SecondEffect(b, log) == SecondEffect(a, log)
    ensures Echo(a1, b1, t, SecondEffect(a, log), SecondEffect(b, log))
    ensures Legal(a1, SecondEffect(a, log))
  {
    if log.event.VehicleReg? {
      SameFinds(a, b, t, OwnershipToken, log.event, Passports, log.event.dvpId);
    }
  }

  lemma HandleInStep(a: Db, b: Db, t: Db, dir: Directory, log: Log)
    requires Paired(a, b, t, log) && PromotionOk(a, log) && Later(Handle(a, dir, log), t, ContractOf(log.event))
    requires RefusedKnown(a, t, dir, log.event)
    ensures InStep(Handle(a, dir, log), Handle(b, dir, log), t)
  {
    EffectLegal(a, dir, log);
    EffectsEcho(a, b, t, dir, log, Handle(a, dir, log));
    NoRemoval(a, dir, log);
    CarryInStep(a, b, t, log, EffectOf(a, dir, log), EffectOf(b, dir, log));
  }

  lemma NoRemoval(a: Db, dir: Directory, log: Log)
    ensures log.event.VehicleReg? ==> !EffectOf(a, dir, log).RemoveRows?
  {
  }

  lemma CarryInStep(a: Db, b: Db, t: Db, log: Log, ea: Effect, eb: Effect)
    requires Paired(a, b, t, log) && Legal(a, ea) && Echo(a, b, t, ea, eb)
             && (log.event.VehicleReg? ==> !ea.RemoveRows?)
    ensures InStep(Carry(a, ea, log), Carry(b, eb, log), t)
  {
    if !ea.Rejected? {
      PerformsInStep(a, b, t, log, ea, eb);
      Finished(Perform(Perform(a, ea), SecondEffect(a, log)), Perform(Perform(b, eb), SecondEffect(b, log)), t,
               TxOf(a, log.hash), TxOf(b, log.hash), log);
    }
  }

  lemma PerformsInStep(a: Db, b: Db, t: Db, log: Log, ea: Effect, eb: Effect)
    requires Paired(a, b, t, log) && Legal(a, ea) && Echo(a, b, t, ea, eb)
             && (log.event.VehicleReg? ==> !ea.RemoveRows?)
    ensures InStep(Perform(Perform(a, ea), SecondEffect(a, log)), Perform(Perform(b, eb), SecondEffect(b, log)), t)
  {
    var a1, b1, e2 := Perform(a, ea), Perform(b, eb), SecondEffect(a, log);
    EchoInStep(a, b, t, ea, eb);
    PerformSound(a, ea);
    if e2 != NoWrite { assert a.rows.Keys <= a1.rows.Keys; }
    SecondEcho(a, b, t, log, a1, b1);
    EchoInStep(a1, b1, t, e2, e2);
  }

  /** `finalizeTx` on either pass, or neither, leaves the passes in step. */
  lemma Finished(a: Db, b: Db, t: Db, txa: Option<Tx>, txb: Option<Tx>, log: Log)
    requires InStep(a, b, t)
    ensures InStep(Finish(a, txa, log), Finish(b, txb, log), t)
  {
    var fa, fb := FinalAction(txa, log.event), FinalAction(txb, log.event);
    if fb.Some? { FinalizeInStep(a, b, t, log.hash, log.block, fb.value); }
    if fa.Some? { FinalizeInStep(a, Finish(b, txb, log), t, log.hash, log.block, fa.value); }
  }

  lemma RefsKnownAt(db: Db, dir: Directory, logs: seq<Log>, contract: Contract, i: nat)
    requires Replayable(db, logs, contract) && i < |logs|
    ensures RefsKnown(Run(db, dir, logs[..i]), Run(db, dir, logs), logs[i].event)
  {
    var a, t := Run(db, dir, logs[..i]), Run(db, dir, logs);
    RunSound(db, dir, logs);
    RunLater(db, dir, logs, contract, i);
    forall table, x | (table, x) in Refs(logs[i].event) && !Makes(logs[i].event, table, x)
      ensures Find(a, table, x) == Find(t, table, x)
    {
      if Find(a, table, x).Some? {
        KeptKnown(a, t, contract, table, x);
      } else {
        NeverMade(db, dir, logs, i, table, x);
      }
    }
  }

  lemma RefusedStays(db: Db, dir: Directory, log: Log, d: Db)
    requires Sound(db) && log.event.VehicleReg? && Unregistrable(dir, log.event) && d == Handle(db, dir, log)
    requires Find(db, Ownerships, log.event.ownTid).None?
    ensures Find(d, Ownerships, log.event.ownTid).None?
  {
    hide Handle;
    RegHandle(db, dir, log);
    forall id ensures !HasChainId(d, Ownerships, log.event.ownTid, id) {
      assert !HasChainId(db, Ownerships, log.event.ownTid, id);
    }
  }

  lemma RefusedKnownAt(db: Db, dir: Directory, logs: seq<Log>, contract: Contract, i: nat)
    requires Replayable(db, logs, contract) && i < |logs|
    ensures RefusedKnown(Run(db, dir, logs[..i]), Run(db, dir, logs), dir, logs[i].event)
  {
    hide Handle, Later;
    var a, t, ev := Run(db, dir, logs[..i]), Run(db, dir, logs), logs[i].event;
    if Unregistrable(dir, ev) {
      RunSound(db, dir, logs[..i]);
      RunSound(db, dir, logs);
      RunLater(db, dir, logs, contract, i);
      if Find(a, Ownerships, ev.ownTid).Some? {
        KeptKnown(a, t, contract, Ownerships, ev.ownTid);
      } else {
        assert logs[..i + 1][..i] == logs[..i];
        RefusedStays(a, dir, logs[i], Run(db, dir, logs[..i + 1]));
        assert (Ownerships, ev.ownTid) in Refs(ev);
        NeverMade(db, dir, logs, i + 1, Ownerships, ev.ownTid);
      }
    }
  }

  lemma KeptKnown(a: Db, t: Db, contract: Contract, table: Table, x: nat)
    requires Sound(t) && Later(a, t, contract) && Find(a, table, x).Some?
    ensures Find(t, table, x) == Find(a, table, x)
  {
    var id := Find(a, table, x).value;
    assert Kept(a.rows[id], t.rows[id], contract);
    FindUnique(t, table, x, id);
  }

  lemma {:induction false} SecondPass(db: Db, dir: Directory, logs: seq<Log>, contract: Contract, b0: Db, i: nat)
    requires Replayable(db, logs, contract) && i <= |logs|
    requires Sound(b0) && InStep(db, b0, Run(db, dir, logs))
    ensures InStep(Run(db, dir, logs[..i]), Run(b0, dir, logs[..i]), Run(db, dir, logs))
  {
    hide Handle, InStep, Later;
    if i > 0 {
      var t := Run(db, dir, logs);
      var a, b := Run(db, dir, logs[..i - 1]), Run(b0, dir, logs[..i - 1]);
      SecondPass(db, dir, logs, contract, b0, i - 1);
      RunSound(db, dir, logs);
      RunSound(b0, dir, logs[..i - 1]);
      RunReplayable(db, dir, logs, contract, logs[..i - 1]);
      RunLater(db, dir, logs, contract, i - 1);
      RunLater(db, dir, logs, contract, i);
      RefsKnownAt(db, dir, logs, contract, i - 1);
      RefusedKnownAt(db, dir, logs, contract, i - 1);
      assert logs[..i][..i - 1] == logs[..i - 1];
      HandleInStep(a, b, t, dir, logs[i - 1]);
    }
  }

  /** Equal in every business row and in everything a handler reads of the tracking rows. */
  ghost predicate Same(d: Db, d': Db) {
    d.rows == d'.rows && d.next == d'.next && forall h :: InfoOf(d, h) == InfoOf(d', h)
  }

  /** A second pass over the logs ends where the first one did, from any database in which every column has the value
      it had before or after the first pass. */
  lemma ReplayFrom(db: Db, dir: Directory, logs: seq<Log>, contract: Contract, b0: Db)
    requires Replayable(db, logs, contract) && Sound(b0) && InStep(db, b0, Run(db, dir, logs))
    ensures Same(Run(b0, dir, logs), Run(db, dir, logs))
  {
    SecondPass(db, dir, logs, contract, b0, |logs|);
    assert logs[..|logs|] == logs;
    InStepDone(Run(b0, dir, logs), Run(db, dir, logs));
  }

  lemma InStepDone(b: Db, t: Db)
    requires InStep(t, b, t)
    ensures Same(b, t)
  {
    forall id | id in t.rows ensures b.rows[id] == t.rows[id] {
      assert RowInStep(RowOf(t, id), b.rows[id], t.rows[id]);
      RowsEqual(b.rows[id], t.rows[id]);
    }
    assert b.rows == t.rows;
  }

  lemma InStepAtEnd(a: Db, b: Db, t: Db)
    requires Same(b, t)
    ensures InStep(a, b, t)
  {
    forall id | id in t.rows ensures RowInStep(RowOf(a, id), b.rows[id], t.rows[id]) {
    }
  }

  /** The key of crash recovery: dispatching the same logs again changes no business row. */
  lemma ReplayIsIdempotent(db: Db, dir: Directory, logs: seq<Log>, contract: Contract)
    requires Replayable(db, logs, contract)
    ensures Same(Run(Run(db, dir, logs), dir, logs), Run(db, dir, logs))
  {
    var t := Run(db, dir, logs);
    RunSound(db, dir, logs);
    InStepAtEnd(db, t, t);
    ReplayFrom(db, dir, logs, contract, t);
  }
}

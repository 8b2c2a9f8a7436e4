/** The ledger of tracking rows: services, the indexer and any number of sweepers with stale batches, each of which may
    die between two database writes. */
module Ledger {
  import opened Tables
  import opened Chain
  import opened Indexer
  import opened Reconciler
  import opened ReconcilerFacts

  /** How a transaction ended, and the worker's event map of its receipt. */
  datatype Verdict = Verdict(succeeded: bool, block: nat, events: EventMap)

  /** A sweeper holds the copies of tracking rows it read with its batch; between the FAILED write and the rollback it
      holds the transaction it is compensating. */
  datatype Sweeper = Sweeper(batch: map<Hash, Tx>, undoing: Option<Hash>, copy: Option<Tx>)

  /** `submitted`, `applied`, `undone` and `passed` are histories: submissions, transactions rolled forward,
      transactions compensated, and completed transfers with the ownership row each of them counted. */
  datatype State = State(db: Db, sweepers: seq<Sweeper>, submitted: set<Hash>, applied: set<Hash>, undone: set<Hash>,
                         passed: seq<(Hash, RowId)>)

  datatype Move =
    | Submit(h: Hash, tx: Tx, data: Data)
    | Index(log: Log)
    | ReadBatch(k: nat, hs: set<Hash>)
    | Take(k: nat, h: Hash, seen: bool)
    | Undo(k: nat)
    | Crash(k: nat)

  const IDLE: Sweeper := Sweeper(map[], None, None)

  type Verdicts = map<Hash, Verdict>

  predicate Succeeded(chain: Verdicts, h: Hash) {
    h in chain && chain[h].succeeded
  }

  predicate Reverted(chain: Verdicts, h: Hash) {
    h in chain && !chain[h].succeeded
  }

  /** A hash is submitted once; only successful transactions have logs; a batch holds pending rows. */
  ghost predicate Enabled(s: State, chain: Verdicts, m: Move) {
    match m
    case Submit(h, tx, data) =>
      && h !in s.submitted && h !in s.db.txs && tx.sync == Pending
      && TableOf(tx.action) != Ownerships && OnChainId !in data && TransferCount !in data
      && (UndoOf(tx.action).Delete? || TargetOk(s.db, tx))
    case Index(log) => Succeeded(chain, log.hash)
    case ReadBatch(k, hs) => k < |s.sweepers| && s.sweepers[k].undoing.None? && forall h :: h in hs ==>
      h in s.db.txs && s.db.txs[h].sync == Pending
    case Take(k, h, seen) => k < |s.sweepers| && s.sweepers[k].undoing.None? && h in s.sweepers[k].batch
    case Undo(k) => k < |s.sweepers| && s.sweepers[k].undoing.Some? && s.sweepers[k].copy.Some?
    case Crash(k) => k < |s.sweepers|
  }

  /** The ownership row a rolled-forward transaction counts a transfer for. */
  function Counted(db: Db, tx: Tx, events: EventMap): Option<RowId> {
    if tx.target.Some? && tx.target.value in db.rows && Completes(tx.action, events).Some? then
      match At(db.rows[tx.target.value], OwnershipRef)
      case Num(n) => if n >= 0 then Some(n) else None
      case _ => None
    else None
  }

  function RecordTx(db: Db, h: Hash, tx: Tx, data: Data): Db {
    if UndoOf(tx.action).Delete? then
      Insert(db, TableOf(tx.action), data).(txs := db.txs[h := tx.(target := Some(db.next))])
    else
      db.(txs := db.txs[h := tx])
  }

  function WithSweeper(s: State, k: nat, sw: Sweeper): State
    requires k < |s.sweepers|
  {
    s.(sweepers := s.sweepers[k := sw])
  }

  /** A sweeper takes the next transaction of its batch: nothing happens while there is no receipt. */
  function Taken(s: State, dir: Directory, chain: Verdicts, k: nat, h: Hash, seen: bool): State
    requires k < |s.sweepers| && h in s.sweepers[k].batch
  {
    var sw := s.sweepers[k];
    var tx, rest := sw.batch[h], WithSweeper(s, k, sw.(batch := sw.batch - {h}));
    if !seen || h !in chain then rest
    else if chain[h].succeeded then
      var d := RollForward(s.db, dir, h, tx, chain[h].block, chain[h].events);
      if d.None? then rest else
        var counted := Counted(s.db, tx, chain[h].events);
        rest.(db := d.value, applied := s.applied + {h},
              passed := s.passed + if counted.Some? then [(h, counted.value)] else [])
    else if h in s.db.txs then
      WithSweeper(s, k, Sweeper(sw.batch - {h}, Some(h), Some(tx))).(db := MarkFailed(s.db, h, chain[h].block))
    else rest
  }

  ghost function Step(s: State, dir: Directory, chain: Verdicts, m: Move): State
    requires Enabled(s, chain, m)
  {
    match m
    case Submit(h, tx, data) => s.(db := RecordTx(s.db, h, tx, data), submitted := s.submitted + {h})
    case Index(log) => s.(db := Handle(s.db, dir, log))
    case ReadBatch(k, hs) => WithSweeper(s, k, Sweeper(map h | h in hs && h in s.db.txs :: s.db.txs[h], None, None))
    case Take(k, h, seen) => Taken(s, dir, chain, k, h, seen)
    case Undo(k) =>
      var sw := s.sweepers[k];
      WithSweeper(s, k, sw.(undoing := None, copy := None)).(
        db := Compensate(s.db, sw.copy.value.action, sw.copy.value.target), undone := s.undone + {sw.undoing.value})
    case Crash(k) => WithSweeper(s, k, IDLE)
  }

  ghost predicate RunOk(s: State, dir: Directory, chain: Verdicts, moves: seq<Move>)
    decreases |moves|
  {
    moves != [] ==> Enabled(s, chain, moves[0]) && RunOk(Step(s, dir, chain, moves[0]), dir, chain, moves[1..])
  }

  ghost function After(s: State, dir: Directory, chain: Verdicts, moves: seq<Move>): State
    requires RunOk(s, dir, chain, moves)
    decreases |moves|
  {
    if moves == [] then s else After(Step(s, dir, chain, moves[0]), dir, chain, moves[1..])
  }

  lemma {:induction false} RunsOn(s: State, dir: Directory, chain: Verdicts, moves: seq<Move>, m: Move)
    requires RunOk(s, dir, chain, moves) && Enabled(After(s, dir, chain, moves), chain, m)
    ensures RunOk(s, dir, chain, moves + [m])
    ensures After(s, dir, chain, moves + [m]) == Step(After(s, dir, chain, moves), dir, chain, m)
    decreases |moves|
  {
    hide Step, Enabled;
    if moves == [] {
      assert [] + [m] == [m] && [m][1..] == [];
      assert RunOk(Step(s, dir, chain, m), dir, chain, []);
    } else {
      RunsOn(Step(s, dir, chain, moves[0]), dir, chain, moves[1..], m);
      assert (moves + [m])[1..] == moves[1..] + [m];
    }
  }

  // ── Soundness ──

  predicate StatusTrue(chain: Verdicts, db: Db, h: Hash) {
    h in db.txs ==>
      && (db.txs[h].sync == Mined ==> Succeeded(chain, h))
      && (db.txs[h].sync == Failed ==> Reverted(chain, h))
  }

  ghost predicate Truthful(s: State, chain: Verdicts) {
    && (forall h :: StatusTrue(chain, s.db, h))
    && (forall k :: 0 <= k < |s.sweepers| && s.sweepers[k].undoing.Some? ==>
        Reverted(chain, s.sweepers[k].undoing.value))
    && (forall h :: h in s.applied ==> Succeeded(chain, h))
    && (forall h :: h in s.undone ==> Reverted(chain, h))
    && (forall i :: 0 <= i < |s.passed| ==> s.passed[i].0 in s.applied)
  }

  /** A settled row keeps its status for as long as it exists. */
  ghost predicate Settled(d: Db, d': Db) {
    forall h :: h in d.txs && d.txs[h].sync != Pending && h in d'.txs ==> d'.txs[h].sync == d.txs[h].sync
  }

  /** What a step may do to a tracking row: mark it, drop it with the row it points at, or leave it. */
  predicate TxsFollow(d: Db, d': Db, h: Hash, mark: Sync) {
    && (forall k :: k in d'.txs ==> (k in d.txs && d'.txs[k] == d.txs[k]) || (k == h && Marked(d, d', h, mark)))
    && (forall k :: k in d.txs && d.txs[k].target.None? ==> k in d'.txs)
  }

  predicate Marked(d: Db, d': Db, h: Hash, mark: Sync) {
    && h in d'.txs && d'.txs[h].sync == mark
    && (mark == Pending || d'.txs[h].target.None? || (h in d.txs && d'.txs[h].target == d.txs[h].target))
  }

  /** Business writes drop tracking rows at most. */
  predicate TxsKept(d: Db, d': Db) {
    && (forall k :: k in d'.txs ==> k in d.txs && d'.txs[k] == d.txs[k])
    && (forall k :: k in d.txs && d.txs[k].target.None? ==> k in d'.txs)
  }

  lemma PerformTxs(db: Db, e: Effect)
    ensures TxsKept(db, Perform(db, e))
  {
  }

  lemma FinishTxs(db: Db, d: Db, tx: Option<Tx>, log: Log)
    requires TxsKept(db, d)
    ensures TxsFollow(db, Finish(d, tx, log), log.hash, Mined)
  {
  }

  lemma HandleTxs(db: Db, dir: Directory, log: Log)
    ensures TxsFollow(db, Handle(db, dir, log), log.hash, Mined)
  {
    hide EffectOf, SecondEffect, Perform, Finish;
    var e, e2 := EffectOf(db, dir, log), SecondEffect(db, log);
    PerformTxs(db, e);
    PerformTxs(Perform(db, e), e2);
    if !e.Rejected? { FinishTxs(db, Perform(Perform(db, e), e2), TxOf(db, log.hash), log); }
  }

  lemma BusinessTxs(db: Db, dir: Directory, a: Action, target: RowId, events: EventMap)
    ensures var d := Business(db, dir, a, target, events); d.Some? ==> TxsKept(db, d.value)
  {
    hide RowData, Completes, Write;
  }

  lemma RollForwardTxs(db: Db, dir: Directory, h: Hash, tx: Tx, block: nat, events: EventMap)
    ensures var d := RollForward(db, dir, h, tx, block, events); d.Some? ==>
            h in db.txs && TxsFollow(db, d.value, h, Mined)
    ensures var d := RollForward(db, dir, h, tx, block, events); d.Some? && h in d.value.txs ==>
            d.value.txs[h].sync == Mined
  {
    hide Business;
    if h in db.txs && tx.target.Some? {
      BusinessTxs(db.(txs := db.txs[h := db.txs[h].(sync := Mined, block := Some(block))]), dir, tx.action,
                  tx.target.value, events);
    }
  }

  lemma CompensateTxs(db: Db, a: Action, target: Option<RowId>)
    ensures TxsFollow(db, Compensate(db, a, target), 0, Mined)
    ensures forall k :: k in Compensate(db, a, target).txs ==>
            k in db.txs && Compensate(db, a, target).txs[k] == db.txs[k]
  {
  }

  lemma TruthfulDb(chain: Verdicts, d: Db, d': Db, h: Hash, mark: Sync)
    requires (forall k :: StatusTrue(chain, d, k)) && TxsFollow(d, d', h, mark)
    requires (mark == Mined && Succeeded(chain, h)) || (mark == Failed && Reverted(chain, h)) || mark == Pending
    ensures forall k :: StatusTrue(chain, d', k)
  {
    forall k ensures StatusTrue(chain, d', k) {
      assert StatusTrue(chain, d, k);
    }
  }

  lemma SettledBy(chain: Verdicts, d: Db, d': Db, h: Hash, mark: Sync)
    requires (forall k :: StatusTrue(chain, d, k)) && TxsFollow(d, d', h, mark)
    requires (mark == Mined && Succeeded(chain, h)) || (mark == Failed && Reverted(chain, h))
             || (mark == Pending && h !in d.txs)
    ensures Settled(d, d')
  {
    forall k | k in d.txs && d.txs[k].sync != Pending && k in d'.txs ensures d'.txs[k].sync == d.txs[k].sync {
      assert StatusTrue(chain, d, k);
    }
  }

  /** The mark a step may leave, and on which row. */
  lemma StepTxs(s: State, dir: Directory, chain: Verdicts, m: Move) returns (h: Hash, mark: Sync)
    requires Enabled(s, chain, m)
    ensures TxsFollow(s.db, Step(s, dir, chain, m).db, h, mark)
    ensures (mark == Mined && Succeeded(chain, h)) || (mark == Failed && Reverted(chain, h))
            || (mark == Pending && h !in s.db.txs)
            || Step(s, dir, chain, m).db == s.db
            || (forall k :: k in Step(s, dir, chain, m).db.txs ==>
                  k in s.db.txs && Step(s, dir, chain, m).db.txs[k] == s.db.txs[k])
    ensures m.Submit? ==> h == m.h && mark == Pending
    ensures !m.Submit? ==> mark != Pending
    ensures mark == Failed ==> m.Take? && h == m.h && !Succeeded(chain, h)
  {
    hide Handle, RollForward;
    match m
    case Submit(h', _, _) => h, mark := h', Pending;
    case Index(log) => h, mark := log.hash, Mined; HandleTxs(s.db, dir, log);
    case Take(k, h', seen) =>
      h, mark := h', if Succeeded(chain, h') then Mined else Failed;
      if Succeeded(chain, h') {
        RollForwardTxs(s.db, dir, h', s.sweepers[k].batch[h'], chain[h'].block, chain[h'].events);
      }
    case Undo(k) =>
      h, mark := 0, Mined;
      CompensateTxs(s.db, s.sweepers[k].copy.value.action, s.sweepers[k].copy.value.target);
    case _ => h, mark := 0, Mined;
  }

  lemma StepTruthful(s: State, dir: Directory, chain: Verdicts, m: Move)
    requires Truthful(s, chain) && Enabled(s, chain, m)
    ensures Truthful(Step(s, dir, chain, m), chain) && Settled(s.db, Step(s, dir, chain, m).db)
  {
    hide RollForward, Handle, TxsFollow;
    var d := Step(s, dir, chain, m).db;
    var h, mark := StepTxs(s, dir, chain, m);
    if (mark == Mined && Succeeded(chain, h)) || (mark == Failed && Reverted(chain, h))
       || (mark == Pending && h !in s.db.txs) {
      TruthfulDb(chain, s.db, d, h, mark);
      SettledBy(chain, s.db, d, h, mark);
    } else {
      forall k ensures StatusTrue(chain, d, k) {
        assert StatusTrue(chain, s.db, k);
      }
    }
  }

  /** Ledger soundness: along every run a row is MINED only if its transaction succeeded and FAILED only if it reverted,
      and nothing is both rolled forward and compensated. */
  lemma {:induction false} LedgerSound(s: State, dir: Directory, chain: Verdicts, moves: seq<Move>)
    requires Truthful(s, chain) && RunOk(s, dir, chain, moves)
    ensures var t := After(s, dir, chain, moves);
            && Truthful(t, chain)
            && t.applied !! t.undone
    decreases |moves|
  {
    hide Step, Enabled, Truthful;
    if moves == [] {
      AppliedNotUndone(s, chain);
    } else {
      StepTruthful(s, dir, chain, moves[0]);
      LedgerSound(Step(s, dir, chain, moves[0]), dir, chain, moves[1..]);
    }
  }

  lemma AppliedNotUndone(s: State, chain: Verdicts)
    requires Truthful(s, chain)
    ensures s.applied !! s.undone
  {
  }

  // ── Settled rows stay settled ──

  /** Rows come from submissions, except for the unlinked ones the indexer makes. */
  ghost predicate Tracked(s: State) {
    forall h :: h in s.db.txs && (s.db.txs[h].target.Some? || s.db.txs[h].sync == Pending) ==> h in s.submitted
  }

  ghost predicate Closed(s: State, h: Hash) {
    && (h in s.db.txs ==> s.db.txs[h].sync != Pending)
    && (h in s.submitted || h in s.db.txs)
  }

  lemma StepTracked(s: State, dir: Directory, chain: Verdicts, m: Move)
    requires Tracked(s) && Enabled(s, chain, m)
    ensures Tracked(Step(s, dir, chain, m))
  {
    hide RollForward, Handle;
    var h, mark := StepTxs(s, dir, chain, m);
    var s' := Step(s, dir, chain, m);
    assert s.submitted <= s'.submitted;
    forall k | k in s'.db.txs && (s'.db.txs[k].target.Some? || s'.db.txs[k].sync == Pending) ensures k in s'.submitted {
      assert (k in s.db.txs && s'.db.txs[k] == s.db.txs[k]) || (k == h && Marked(s.db, s'.db, h, mark));
    }
  }

  lemma StepClosed(s: State, dir: Directory, chain: Verdicts, m: Move, h: Hash)
    requires Tracked(s) && Enabled(s, chain, m) && Closed(s, h)
    ensures Closed(Step(s, dir, chain, m), h)
  {
    hide RollForward, Handle;
    var k, mark := StepTxs(s, dir, chain, m);
    var s' := Step(s, dir, chain, m);
    if h in s'.db.txs {
      assert (h in s.db.txs && s'.db.txs[h] == s.db.txs[h]) || (h == k && Marked(s.db, s'.db, h, mark));
    }
  }

  /** A row never leaves MINED or FAILED. */
  lemma {:induction false} SettledForever(s: State, dir: Directory, chain: Verdicts, moves: seq<Move>, h: Hash)
    requires Truthful(s, chain) && Tracked(s) && RunOk(s, dir, chain, moves) && Closed(s, h)
    ensures var t := After(s, dir, chain, moves);
            && Closed(t, h)
            && (h in s.db.txs && h in t.db.txs ==> t.db.txs[h].sync == s.db.txs[h].sync)
    decreases |moves|
  {
    hide Step, Enabled;
    if moves != [] {
      var s' := Step(s, dir, chain, moves[0]);
      StepTruthful(s, dir, chain, moves[0]);
      StepTracked(s, dir, chain, moves[0]);
      StepClosed(s, dir, chain, moves[0], h);
      SettledForever(s', dir, chain, moves[1..], h);
      LedgerSound(s', dir, chain, moves[1..]);
      assert StatusTrue(chain, s.db, h) && StatusTrue(chain, After(s', dir, chain, moves[1..]).db, h);
    }
  }

  // ── A crash between the FAILED write and the rollback ──

  /** The row is FAILED, and no sweeper is compensating it or has it in its batch. */
  ghost predicate Stranded(s: State, h: Hash) {
    && h in s.submitted && h !in s.undone
    && (h in s.db.txs ==> s.db.txs[h].sync != Pending)
    && forall k :: 0 <= k < |s.sweepers| ==> h !in s.sweepers[k].batch && s.sweepers[k].undoing != Some(h)
  }

  lemma StepStranded(s: State, dir: Directory, chain: Verdicts, m: Move, h: Hash)
    requires Tracked(s) && Stranded(s, h) && Enabled(s, chain, m)
    ensures Stranded(Step(s, dir, chain, m), h)
  {
    hide RollForward, Handle;
    StepClosed(s, dir, chain, m, h);
  }

  /** No later sweep ever compensates it: the sweep looks at pending rows only. */
  lemma {:induction false} StrandedForever(s: State, dir: Directory, chain: Verdicts, moves: seq<Move>, h: Hash)
    requires Tracked(s) && Stranded(s, h) && RunOk(s, dir, chain, moves)
    ensures h !in After(s, dir, chain, moves).undone
    decreases |moves|
  {
    hide Step, Enabled;
    if moves != [] {
      StepStranded(s, dir, chain, moves[0], h);
      StepTracked(s, dir, chain, moves[0]);
      StrandedForever(Step(s, dir, chain, moves[0]), dir, chain, moves[1..], h);
    }
  }

  // ── Sweepers that are apart ──

  /** What can go wrong with a transaction that two sweepers have read: it counts a transfer, or it is compensated. */
  datatype Concern = Counting | Compensating

  predicate Concerns(chain: Verdicts, c: Concern, h: Hash, tx: Tx) {
    match c
    case Counting => Succeeded(chain, h) && Completes(tx.action, chain[h].events).Some?
    case Compensating => Reverted(chain, h)
  }

  predicate Holds(s: State, chain: Verdicts, c: Concern, k: nat, h: Hash)
    requires k < |s.sweepers|
  {
    h in s.sweepers[k].batch && Concerns(chain, c, h, s.sweepers[k].batch[h])
  }

  /** No transaction of concern is in two batches; others may be. */
  ghost predicate Apart(s: State, chain: Verdicts, c: Concern) {
    forall j, k, h | 0 <= j < |s.sweepers| && 0 <= k < |s.sweepers| ::
      Holds(s, chain, c, j, h) && Holds(s, chain, c, k, h) ==> j == k
  }

  /** A sweeper reads nothing of concern that another one has in its batch. */
  predicate ReadsApart(s: State, chain: Verdicts, c: Concern, m: Move) {
    m.ReadBatch? ==> forall j, h | 0 <= j < |s.sweepers| && j != m.k && h in m.hs && h in s.db.txs ::
      Holds(s, chain, c, j, h) ==> !Concerns(chain, c, h, s.db.txs[h])
  }

  ghost predicate StaysApart(s: State, dir: Directory, chain: Verdicts, c: Concern, moves: seq<Move>)
    requires RunOk(s, dir, chain, moves)
    decreases |moves|
  {
    moves != [] ==>
      ReadsApart(s, chain, c, moves[0]) && StaysApart(Step(s, dir, chain, moves[0]), dir, chain, c, moves[1..])
  }

  /** Batches only shrink, but for the one that is read. */
  lemma HeldBefore(s: State, dir: Directory, chain: Verdicts, c: Concern, m: Move, k: nat, h: Hash)
    requires Enabled(s, chain, m) && k < |s.sweepers| && k < |Step(s, dir, chain, m).sweepers|
    requires Holds(Step(s, dir, chain, m), chain, c, k, h)
    ensures Holds(s, chain, c, k, h) || (m.ReadBatch? && k == m.k)
    ensures m.ReadBatch? && k == m.k ==> h in m.hs && h in s.db.txs && Concerns(chain, c, h, s.db.txs[h])
  {
    hide RollForward, Handle, Compensate, RecordTx, MarkFailed, Counted, Concerns;
  }

  lemma StepApart(s: State, dir: Directory, chain: Verdicts, c: Concern, m: Move)
    requires Apart(s, chain, c) && Enabled(s, chain, m) && ReadsApart(s, chain, c, m)
    ensures Apart(Step(s, dir, chain, m), chain, c)
  {
    hide Step, Enabled, Holds, Concerns;
    var s' := Step(s, dir, chain, m);
    SweeperStep(s, dir, chain, m);
    forall j, k, h | 0 <= j < |s'.sweepers| && 0 <= k < |s'.sweepers|
                     && Holds(s', chain, c, j, h) && Holds(s', chain, c, k, h)
      ensures j == k
    {
      HeldBefore(s, dir, chain, c, m, j, h);
      HeldBefore(s, dir, chain, c, m, k, h);
    }
  }

  /** A single sweeper is always apart. */
  lemma {:induction false} OneSweeperApart(s: State, dir: Directory, chain: Verdicts, c: Concern, moves: seq<Move>)
    requires |s.sweepers| == 1 && RunOk(s, dir, chain, moves)
    ensures Apart(s, chain, c) && StaysApart(s, dir, chain, c, moves)
    decreases |moves|
  {
    hide Step, Enabled, Holds, Concerns;
    if moves != [] {
      OneSweeperStays(s, dir, chain, moves[0]);
      OneSweeperApart(Step(s, dir, chain, moves[0]), dir, chain, c, moves[1..]);
    }
  }

  lemma OneSweeperStays(s: State, dir: Directory, chain: Verdicts, m: Move)
    requires |s.sweepers| == 1 && Enabled(s, chain, m)
    ensures |Step(s, dir, chain, m).sweepers| == 1 && (m.ReadBatch? ==> m.k == 0)
  {
    hide RollForward, Handle, Compensate, RecordTx, MarkFailed, Counted;
  }

  // ── Which FAILED transactions are never compensated ──

  predicate BeingUndone(s: State, h: Hash) {
    exists k :: 0 <= k < |s.sweepers| && s.sweepers[k].undoing == Some(h)
  }

  /** The transaction whose compensation a crash prevents. */
  function HitBy(s: State, m: Move): set<Hash> {
    if m.Crash? && m.k < |s.sweepers| && s.sweepers[m.k].undoing.Some? then {s.sweepers[m.k].undoing.value} else {}
  }

  /** The transactions of which a sweeper died between the FAILED write and the rollback. */
  ghost function Hit(s: State, dir: Directory, chain: Verdicts, moves: seq<Move>): set<Hash>
    requires RunOk(s, dir, chain, moves)
    decreases |moves|
  {
    if moves == [] then {} else HitBy(s, moves[0]) + Hit(Step(s, dir, chain, moves[0]), dir, chain, moves[1..])
  }

  /** The sweep has begun with the compensation: it is done, under way, or a crash has cut it off. */
  predicate Begun(s: State, hit: set<Hash>, h: Hash) {
    h in s.undone || h in hit || BeingUndone(s, h)
  }

  /** What has become of each transaction that a sweeper has marked FAILED; `hit` are those a crash has hit so far. */
  ghost predicate Accounted(s: State, chain: Verdicts, hit: set<Hash>) {
    && (forall k, h :: 0 <= k < |s.sweepers| && h in s.sweepers[k].batch ==> h in s.submitted && !Begun(s, hit, h))
    && (forall h :: Begun(s, hit, h) ==> Closed(s, h))
    && s.undone !! hit && (forall h :: h in hit ==> Reverted(chain, h))
    && (forall k :: 0 <= k < |s.sweepers| && s.sweepers[k].undoing.Some? ==> OnlyUndoing(s, hit, k))
    && (forall h :: h in s.db.txs && s.db.txs[h].sync == Failed ==> Begun(s, hit, h))
  }

  predicate OnlyUndoing(s: State, hit: set<Hash>, k: nat)
    requires k < |s.sweepers| && s.sweepers[k].undoing.Some?
  {
    var h := s.sweepers[k].undoing.value;
    h !in s.undone && h !in hit && forall j :: 0 <= j < |s.sweepers| && s.sweepers[j].undoing == Some(h) ==> j == k
  }

  /** The transaction a move marks FAILED. */
  function MarkedBy(s: State, chain: Verdicts, m: Move): set<Hash> {
    if m.Take? && m.seen && Reverted(chain, m.h) && m.h in s.db.txs then {m.h} else {}
  }

  /** What a batch still holds or has just read. */
  predicate InBatch(s: State, m: Move, j: nat, h: Hash)
    requires j < |s.sweepers|
  {
    (h in s.sweepers[j].batch && !(m.Take? && j == m.k && h == m.h)) || (m.ReadBatch? && j == m.k && h in m.hs)
  }

  /** The moves of a sweeper, seen from its own state. */
  lemma SweeperStep(s: State, dir: Directory, chain: Verdicts, m: Move)
    requires Enabled(s, chain, m)
    ensures var s' := Step(s, dir, chain, m);
            && |s'.sweepers| == |s.sweepers| && s.submitted <= s'.submitted
            && s'.undone == s.undone + (if m.Undo? then {s.sweepers[m.k].undoing.value} else {})
            && (forall j :: 0 <= j < |s.sweepers| ==>
                  s'.sweepers[j].undoing == (if (m.Undo? || m.Crash?) && j == m.k then None
                                             else if m.Take? && j == m.k && m.h in MarkedBy(s, chain, m) then Some(m.h)
                                             else s.sweepers[j].undoing))
            && (forall j, h :: 0 <= j < |s.sweepers| && h in s'.sweepers[j].batch ==> InBatch(s, m, j, h))
  {
    hide RollForward, Handle, Compensate, RecordTx, MarkFailed, Counted;
  }

  lemma BegunStep(s: State, dir: Directory, chain: Verdicts, m: Move, hit: set<Hash>, h: Hash)
    requires Enabled(s, chain, m)
    ensures Begun(Step(s, dir, chain, m), hit + HitBy(s, m), h) <==> Begun(s, hit, h) || h in MarkedBy(s, chain, m)
  {
    var s' := Step(s, dir, chain, m);
    SweeperStep(s, dir, chain, m);
    SweeperReady(s, chain, m);
    hide Step, Enabled;
    if h in MarkedBy(s, chain, m) { assert s'.sweepers[m.k].undoing == Some(h); }
    if k :| 0 <= k < |s.sweepers| && s.sweepers[k].undoing == Some(h) {
      assert s'.sweepers[k].undoing == Some(h) || h in s'.undone || h in HitBy(s, m);
    }
  }

  /** A sweeper takes a transaction only while it compensates none. */
  lemma SweeperReady(s: State, chain: Verdicts, m: Move)
    requires Enabled(s, chain, m)
    ensures m.Take? ==> m.k < |s.sweepers| && s.sweepers[m.k].undoing.None? && m.h in s.sweepers[m.k].batch
    ensures m.Undo? ==> m.k < |s.sweepers| && s.sweepers[m.k].undoing.Some?
    ensures m.Crash? ==> m.k < |s.sweepers|
    ensures m.ReadBatch? ==> m.k < |s.sweepers| && forall h :: h in m.hs ==>
            h in s.db.txs && s.db.txs[h].sync == Pending
  {
  }

  /** Only a sweeper marks FAILED. */
  lemma FailedByTake(s: State, dir: Directory, chain: Verdicts, m: Move, h: Hash)
    requires Enabled(s, chain, m) && h in Step(s, dir, chain, m).db.txs
             && Step(s, dir, chain, m).db.txs[h].sync == Failed
    ensures (h in s.db.txs && s.db.txs[h].sync == Failed) || h in MarkedBy(s, chain, m)
  {
    hide RollForward, Handle, Compensate, Counted;
    var k, mark := StepTxs(s, dir, chain, m);
    var s' := Step(s, dir, chain, m);
    assert (h in s.db.txs && s'.db.txs[h] == s.db.txs[h]) || (h == k && Marked(s.db, s'.db, k, mark));
    if m.Take? && !Succeeded(chain, m.h) && m.h !in MarkedBy(s, chain, m) { assert s'.db == s.db; }
  }

  lemma MarkedCloses(s: State, dir: Directory, chain: Verdicts, m: Move, h: Hash)
    requires Enabled(s, chain, m) && h in MarkedBy(s, chain, m) && h in s.submitted
    ensures Closed(Step(s, dir, chain, m), h)
  {
  }

  lemma StepAccounted(s: State, dir: Directory, chain: Verdicts, m: Move, hit: set<Hash>)
    requires Accounted(s, chain, hit) && Truthful(s, chain) && Tracked(s) && Enabled(s, chain, m)
    requires Apart(s, chain, Compensating) && ReadsApart(s, chain, Compensating, m)
    ensures Accounted(Step(s, dir, chain, m), chain, hit + HitBy(s, m))
  {
    hide Step, Enabled, Tracked, Truthful;
    var s', hit' := Step(s, dir, chain, m), hit + HitBy(s, m);
    SweeperStep(s, dir, chain, m);
    SweeperReady(s, chain, m);
    forall h ensures Begun(s', hit', h) <==> Begun(s, hit, h) || h in MarkedBy(s, chain, m) {
      BegunStep(s, dir, chain, m, hit, h);
    }
    forall h | Begun(s', hit', h) ensures Closed(s', h) {
      if h in MarkedBy(s, chain, m) { MarkedCloses(s, dir, chain, m, h); } else { StepClosed(s, dir, chain, m, h); }
    }
    forall h | h in s'.db.txs && s'.db.txs[h].sync == Failed ensures Begun(s', hit', h) {
      FailedByTake(s, dir, chain, m, h);
    }
    if m.ReadBatch? { BatchSubmitted(s, m.hs); }
    forall j, h | 0 <= j < |s'.sweepers| && h in s'.sweepers[j].batch ensures h in s'.submitted && !Begun(s', hit', h) {
      assert InBatch(s, m, j, h);
      assert h in s.sweepers[j].batch ==> !Begun(s, hit, h) && h in s.submitted;
      assert m.ReadBatch? && h in m.hs ==> !Closed(s, h);
      assert h in MarkedBy(s, chain, m) && h in s.sweepers[j].batch ==>
          Holds(s, chain, Compensating, m.k, h) && Holds(s, chain, Compensating, j, h);
      assert h !in MarkedBy(s, chain, m);
    }
    HitReverted(s, chain, m);
    SweepersAccounted(s, s', chain, m, hit);
  }

  lemma HitReverted(s: State, chain: Verdicts, m: Move)
    requires Truthful(s, chain)
    ensures forall h :: h in HitBy(s, m) ==> Reverted(chain, h)
  {
  }

  lemma SweepersAccounted(s: State, s': State, chain: Verdicts, m: Move, hit: set<Hash>)
    requires Accounted(s, chain, hit) && |s'.sweepers| == |s.sweepers|
    requires m.Take? ==> m.k < |s.sweepers| && s.sweepers[m.k].undoing.None? && m.h in s.sweepers[m.k].batch
    requires (m.Undo? ==> m.k < |s.sweepers| && s.sweepers[m.k].undoing.Some?) && (m.Crash? ==> m.k < |s.sweepers|)
    requires s'.undone == s.undone + (if m.Undo? then {s.sweepers[m.k].undoing.value} else {})
    requires forall j :: 0 <= j < |s.sweepers| ==>
               s'.sweepers[j].undoing == (if (m.Undo? || m.Crash?) && j == m.k then None
                                          else if m.Take? && j == m.k && m.h in MarkedBy(s, chain, m) then Some(m.h)
                                          else s.sweepers[j].undoing)
    ensures s'.undone !! hit + HitBy(s, m)
    ensures forall k :: 0 <= k < |s'.sweepers| && s'.sweepers[k].undoing.Some? ==> OnlyUndoing(s', hit + HitBy(s, m), k)
  {
    hide Closed;
    forall k | 0 <= k < |s'.sweepers| && s'.sweepers[k].undoing.Some? ensures OnlyUndoing(s', hit + HitBy(s, m), k) {
      if s.sweepers[k].undoing.Some? { assert OnlyUndoing(s, hit, k); }
      if m.Take? { assert !Begun(s, hit, m.h); }
    }
    assert m.Undo? || (m.Crash? && s.sweepers[m.k].undoing.Some?) ==> OnlyUndoing(s, hit, m.k);
  }

  lemma {:induction false} AccountedAfter(s: State, dir: Directory, chain: Verdicts, moves: seq<Move>, hit: set<Hash>)
    requires Accounted(s, chain, hit) && Truthful(s, chain) && Tracked(s) && Apart(s, chain, Compensating)
    requires RunOk(s, dir, chain, moves) && StaysApart(s, dir, chain, Compensating, moves)
    ensures Accounted(After(s, dir, chain, moves), chain, hit + Hit(s, dir, chain, moves))
    ensures Truthful(After(s, dir, chain, moves), chain)
    decreases |moves|
  {
    hide Step, Enabled, Accounted, Truthful, Tracked, Apart, ReadsApart;
    if moves == [] {
      assert hit + {} == hit;
    } else {
      var m, s' := moves[0], Step(s, dir, chain, moves[0]);
      StepAccounted(s, dir, chain, m, hit);
      StepTruthful(s, dir, chain, m);
      StepTracked(s, dir, chain, m);
      StepApart(s, dir, chain, Compensating, m);
      AccountedAfter(s', dir, chain, moves[1..], hit + HitBy(s, m));
      assert hit + HitBy(s, m) + Hit(s', dir, chain, moves[1..]) == hit + Hit(s, dir, chain, moves);
    }
  }

  /** The row says FAILED, but nothing has compensated the transaction and nothing is compensating it. */
  predicate Abandoned(s: State, h: Hash) {
    h in s.db.txs && s.db.txs[h].sync == Failed && h !in s.undone && !BeingUndone(s, h)
  }

  /** Nothing has been swept yet: the rows are from earlier and none is FAILED. */
  ghost predicate Fresh(s: State, chain: Verdicts) {
    && Sound(s.db) && s.submitted == s.db.txs.Keys && s.applied == {} && s.undone == {} && s.passed == []
    && (forall k :: 0 <= k < |s.sweepers| ==> s.sweepers[k] == IDLE)
    && (forall h :: StatusTrue(chain, s.db, h)) && forall h :: h in s.db.txs ==> s.db.txs[h].sync != Failed
  }

  lemma FreshStart(s: State, chain: Verdicts)
    requires Fresh(s, chain)
    ensures Tracked(s) && Truthful(s, chain) && CountedOnce(s, chain) && Counts(s.db.rows, s)
            && Accounted(s, chain, {}) && forall c :: Apart(s, chain, c)
  {
  }

  /** Along every run from a fresh state, by one sweeper or by any number that share no reverted transaction: a FAILED
      transaction is neither compensated nor being compensated exactly when a crash hit its sweeper between the two
      writes, and then no sweep has compensated it. Without such a crash FAILED means compensated or being
      compensated. */
  lemma AbandonedExactlyByCrash(s: State, dir: Directory, chain: Verdicts, moves: seq<Move>)
    requires Fresh(s, chain) && RunOk(s, dir, chain, moves) && StaysApart(s, dir, chain, Compensating, moves)
    ensures var t, hit := After(s, dir, chain, moves), Hit(s, dir, chain, moves);
            && (forall h :: Abandoned(t, h) <==> h in hit && h in t.db.txs)
            && (forall h :: h in hit ==> h !in t.undone && !BeingUndone(t, h))
            && (forall h :: h in t.db.txs && t.db.txs[h].sync == Failed && h !in hit ==>
                h in t.undone || BeingUndone(t, h))
  {
    hide RunOk, After, StaysApart;
    FreshStart(s, chain);
    AccountedAfter(s, dir, chain, moves, {});
    var t, hit := After(s, dir, chain, moves), Hit(s, dir, chain, moves);
    assert {} + hit == hit;
    forall h | h in hit ensures !BeingUndone(t, h) && (h in t.db.txs ==> t.db.txs[h].sync == Failed) {
      assert Begun(t, hit, h) && Closed(t, h) && StatusTrue(chain, t.db, h);
      forall k | 0 <= k < |t.sweepers| ensures t.sweepers[k].undoing != Some(h) {
        assert t.sweepers[k].undoing.Some? ==> OnlyUndoing(t, hit, k);
      }
    }
    assert forall h :: Abandoned(t, h) ==> Begun(t, hit, h);
  }

  // ── Transfers are counted once ──

  function Count(passed: seq<(Hash, RowId)>, id: RowId): nat {
    if passed == [] then 0 else Count(passed[..|passed| - 1], id) + if passed[|passed| - 1].1 == id then 1 else 0
  }

  function Hashes(passed: seq<(Hash, RowId)>): seq<Hash> {
    seq(|passed|, i requires 0 <= i < |passed| => passed[i].0)
  }

  predicate Distinct(hs: seq<Hash>) {
    forall i, j :: 0 <= i < j < |hs| ==> hs[i] != hs[j]
  }

  /** No batch has a counted transaction that would count again, and counted transactions are settled. */
  ghost predicate CountedOnce(s: State, chain: Verdicts) {
    && Distinct(Hashes(s.passed))
    && (forall k, h :: 0 <= k < |s.sweepers| && h in s.sweepers[k].batch ==> h in s.submitted)
    && (forall k, h :: 0 <= k < |s.sweepers| && Holds(s, chain, Counting, k, h) ==> h !in Hashes(s.passed))
    && (forall h :: h in Hashes(s.passed) ==> h in s.submitted && (h in s.db.txs ==> s.db.txs[h].sync != Pending))
  }

  lemma HashesAppend(passed: seq<(Hash, RowId)>, more: seq<(Hash, RowId)>)
    requires |more| <= 1
    ensures Hashes(passed + more) == Hashes(passed) + Hashes(more)
  {
  }

  lemma StepCountedOnce(s: State, dir: Directory, chain: Verdicts, m: Move)
    requires Tracked(s) && CountedOnce(s, chain) && Apart(s, chain, Counting) && Enabled(s, chain, m)
    ensures CountedOnce(Step(s, dir, chain, m), chain)
  {
    hide RollForward, Handle, Counted, Tracked, Compensate, RecordTx, Holds;
    var s' := Step(s, dir, chain, m);
    SweeperStep(s, dir, chain, m);
    forall h | h in Hashes(s.passed) ensures h in s'.db.txs ==> s'.db.txs[h].sync != Pending {
      StepClosed(s, dir, chain, m, h);
    }
    if m.Take? && s'.passed != s.passed {
      var counted := Counted(s.db, s.sweepers[m.k].batch[m.h], chain[m.h].events);
      HashesAppend(s.passed, [(m.h, counted.value)]);
      TakenHeld(s, dir, chain, m);
      RollForwardTxs(s.db, dir, m.h, s.sweepers[m.k].batch[m.h], chain[m.h].block, chain[m.h].events);
    }
    if m.ReadBatch? { BatchSubmitted(s, m.hs); }
    forall k, h | 0 <= k < |s'.sweepers| && h in s'.sweepers[k].batch ensures h in s'.submitted {
      assert InBatch(s, m, k, h);
    }
    forall k, h | 0 <= k < |s'.sweepers| && Holds(s', chain, Counting, k, h) ensures h !in Hashes(s'.passed) {
      HeldBefore(s, dir, chain, Counting, m, k, h);
      if m.ReadBatch? && k == m.k {
        assert s.db.txs[h].sync == Pending;
      } else {
        assert Holds(s, chain, Counting, k, h);
        if m.Take? && s'.passed != s.passed { TakenIsGone(s, dir, chain, m, k, h); }
      }
    }
  }

  /** A transaction that has just been counted was of concern, and is gone from its batch. */
  lemma TakenHeld(s: State, dir: Directory, chain: Verdicts, m: Move)
    requires Enabled(s, chain, m) && m.Take? && Step(s, dir, chain, m).passed != s.passed
    ensures Holds(s, chain, Counting, m.k, m.h)
  {
    hide RollForward;
  }

  lemma TakenIsGone(s: State, dir: Directory, chain: Verdicts, m: Move, k: nat, h: Hash)
    requires Enabled(s, chain, m) && m.Take? && Step(s, dir, chain, m).passed != s.passed
    requires k < |s.sweepers| && k < |Step(s, dir, chain, m).sweepers|
    requires Holds(Step(s, dir, chain, m), chain, Counting, k, h)
    ensures !(k == m.k && h == m.h)
  {
    hide RollForward, Handle, Compensate, RecordTx, MarkFailed, Counted;
  }

  lemma BatchSubmitted(s: State, hs: set<Hash>)
    requires Tracked(s) && forall h :: h in hs ==> h in s.db.txs && s.db.txs[h].sync == Pending
    ensures forall h :: h in hs ==> h in s.submitted
  {
  }

  /** Every row with a transfer count has its first count plus one for each completion counted on it. */
  ghost predicate Counts(base: map<RowId, Row>, s: State) {
    && (forall id :: id in s.db.rows && At(s.db.rows[id], TransferCount).Num? ==>
        CountIs(base, s.passed, id, s.db.rows[id]))
    && (forall i :: 0 <= i < |s.passed| ==> s.passed[i].1 < s.db.next)
    && (forall id :: id in base ==> id < s.db.next)
    && (forall id :: id in s.db.rows ==> id < s.db.next)
  }

  predicate CountIs(base: map<RowId, Row>, passed: seq<(Hash, RowId)>, id: RowId, row: Row) {
    var first := if id in base then At(base[id], TransferCount) else Num(0);
    first.Num? && At(row, TransferCount) == Num(first.n + Count(passed, id))
  }

  /** A change that leaves transfer counts alone and starts those of new rows at zero. */
  ghost predicate CountsKept(d: Db, d': Db) {
    && d.next <= d'.next
    && (forall id :: id in d'.rows ==> id < d'.next)
    && (forall id :: id in d'.rows && id in d.rows ==> At(d'.rows[id], TransferCount) == At(d.rows[id], TransferCount))
    && (forall id :: id in d'.rows && id !in d.rows ==>
        id >= d.next && At(d'.rows[id], TransferCount) in {Null, Num(0)})
  }

  lemma {:induction false} CountNone(passed: seq<(Hash, RowId)>, id: RowId)
    requires forall i :: 0 <= i < |passed| ==> passed[i].1 != id
    ensures Count(passed, id) == 0
  {
    if passed != [] { CountNone(passed[..|passed| - 1], id); }
  }

  lemma CountsStay(base: map<RowId, Row>, s: State, s': State)
    requires Counts(base, s) && CountsKept(s.db, s'.db) && s'.passed == s.passed
    ensures Counts(base, s')
  {
    forall id | id in s'.db.rows && At(s'.db.rows[id], TransferCount).Num?
      ensures CountIs(base, s'.passed, id, s'.db.rows[id])
    {
      if id in s.db.rows {
        assert CountIs(base, s.passed, id, s.db.rows[id]);
      } else {
        CountNone(s.passed, id);
      }
    }
  }

  lemma NoTransferCount(db: Db, dir: Directory, tx: Option<Tx>, ev: Event)
    ensures KindOf(ev).Amend? ==> TransferCount !in AmendData(dir, tx, ev)
    ensures KindOf(ev).Make? ==> TransferCount !in UpsertData(dir, ev) && TransferCount !in PromoteData(db, dir, ev)
  {
  }

  lemma CreatedCount(db: Db, dir: Directory, tx: Option<Tx>, ev: Event)
    requires KindOf(ev).Make?
    ensures var data := CreateData(db, dir, tx, ev); TransferCount in data ==> data[TransferCount] == Num(0)
  {
    hide EntityOf, UserOf, Find, OwnerColumn;
  }

  predicate CountFree(e: Effect) {
    && (e.WriteRow? ==> TransferCount !in e.data)
    && (e.CreateRow? && TransferCount in e.data ==> e.data[TransferCount] == Num(0))
  }

  lemma EffectCountFree(db: Db, dir: Directory, log: Log)
    ensures CountFree(EffectOf(db, dir, log)) && CountFree(SecondEffect(db, log))
  {
    hide AmendData, UpsertData, PromoteData, CreateData, Parents, Linked, Find;
    NoTransferCount(db, dir, TxOf(db, log.hash), log.event);
    if KindOf(log.event).Make? { CreatedCount(db, dir, TxOf(db, log.hash), log.event); }
  }

  lemma PerformCounts(db: Db, e: Effect)
    requires CountFree(e) && forall id :: id in db.rows ==> id < db.next
    ensures CountsKept(db, Perform(db, e))
  {
  }

  lemma CountsTransitive(a: Db, b: Db, c: Db)
    requires CountsKept(a, b) && CountsKept(b, c) && forall id :: id in a.rows ==> id < a.next
    requires forall id :: id in c.rows && id < b.next ==> id in b.rows
    ensures CountsKept(a, c)
  {
    forall id | id in c.rows && id !in a.rows ensures id >= a.next && At(c.rows[id], TransferCount) in {Null, Num(0)} {
      if id in b.rows { assert At(c.rows[id], TransferCount) == At(b.rows[id], TransferCount); }
    }
    forall id | id in c.rows && id in a.rows ensures At(c.rows[id], TransferCount) == At(a.rows[id], TransferCount) {
      assert id in b.rows;
    }
  }

  lemma HandleCounts(db: Db, dir: Directory, log: Log)
    requires forall id :: id in db.rows ==> id < db.next
    ensures CountsKept(db, Handle(db, dir, log))
  {
    hide EffectOf, SecondEffect, CountFree;
    var e, e2 := EffectOf(db, dir, log), SecondEffect(db, log);
    EffectCountFree(db, dir, log);
    PerformCounts(db, e);
    PerformCounts(Perform(db, e), e2);
    CountsTransitive(db, Perform(db, e), Perform(Perform(db, e), e2));
  }

  lemma CompensateCounts(db: Db, a: Action, target: Option<RowId>)
    requires forall id :: id in db.rows ==> id < db.next
    ensures CountsKept(db, Compensate(db, a, target))
  {
    hide CountsKept, Write;
    KeptByNothing(db);
    if target.Some? && target.value in db.rows {
      match UndoOf(a)
      case Nothing =>
      case Delete => PerformCounts(db, RemoveRows({target.value}));
      case Restore(data) => RestoreCountFree(a); PerformCounts(db, WriteRow(target.value, data));
      case CountDown =>
        var count := At(db.rows[target.value], ClaimCount);
        if count.Num? { PerformCounts(db, WriteRow(target.value, map[ClaimCount := Num(count.n - 1)])); }
    }
  }

  lemma RestoreCountFree(a: Action)
    ensures UndoOf(a).Restore? ==> TransferCount !in UndoOf(a).data
  {
  }

  lemma RecordCounts(s: State, m: Move, chain: Verdicts)
    requires m.Submit? && Enabled(s, chain, m) && forall id :: id in s.db.rows ==> id < s.db.next
    ensures CountsKept(s.db, RecordTx(s.db, m.h, m.tx, m.data))
  {
  }

  // ── Rolling forward counts one transfer, on one row ──

  function CountAfter(row: Row, passedOn: bool): Val {
    if passedOn && At(row, TransferCount).Num? then Num(At(row, TransferCount).n + 1) else At(row, TransferCount)
  }

  /** `d'` has one more transfer on row `one`, if there is one. */
  ghost predicate OneMore(d: Db, d': Db, one: Option<RowId>) {
    && d'.next == d.next && d'.rows.Keys <= d.rows.Keys
    && (one.Some? ==> one.value in d'.rows && At(d.rows[one.value], TransferCount).Num?)
    && (forall id :: id in d'.rows ==> At(d'.rows[id], TransferCount) == CountAfter(d.rows[id], one == Some(id)))
  }

  lemma FollowedCounts(db: Db, d: Db, dir: Directory, a: Action, target: RowId, events: EventMap)
    requires OneMore(db, d, None) && target in d.rows
             && At(d.rows[target], OwnershipRef) == At(db.rows[target], OwnershipRef)
    ensures var r := Followed(Some(d), dir, a, target, events);
            r.Some? ==> OneMore(db, r.value, Counted(db, Tx(a, Pending, None, Some(target), None, None), events))
  {
    hide Deactivate;
    var one := Counted(db, Tx(a, Pending, None, Some(target), None, None), events);
    if Completes(a, events).Some? {
      PassOnCounts(db, d, dir, target, Completes(a, events).value);
    } else {
      assert one == None;
      DeactivateCounts(db, d, target);
    }
  }

  lemma PassOnCounts(db: Db, d: Db, dir: Directory, target: RowId, newOwner: string)
    requires OneMore(db, d, None) && target in d.rows
             && At(d.rows[target], OwnershipRef) == At(db.rows[target], OwnershipRef)
    ensures var r, ref := PassOn(d, dir, target, newOwner), At(db.rows[target], OwnershipRef);
            r.Some? ==> ref.Num? && ref.n >= 0 && OneMore(db, r.value, Some(ref.n))
  {
    hide OneMore, Update;
    var ref := At(d.rows[target], OwnershipRef);
    if PassOn(d, dir, target, newOwner).Some? {
      BumpCounts(db, d, ref.n, PassedOn(dir, newOwner, At(d.rows[ref.n], TransferCount).n));
    }
  }

  lemma BumpCounts(db: Db, d: Db, n: RowId, data: Data)
    requires OneMore(db, d, None) && n in d.rows && At(d.rows[n], TransferCount).Num?
    requires TransferCount in data && data[TransferCount] == Num(At(d.rows[n], TransferCount).n + 1)
    ensures OneMore(db, Update(d, n, data), Some(n))
  {
    assert At(d.rows[n], TransferCount) == CountAfter(db.rows[n], false);
    forall id | id in d.rows
      ensures At(Update(d, n, data).rows[id], TransferCount) == CountAfter(db.rows[id], Some(n) == Some(id))
    {
      assert At(d.rows[id], TransferCount) == CountAfter(db.rows[id], false);
    }
  }

  lemma DeactivateCounts(db: Db, d: Db, target: RowId)
    requires OneMore(db, d, None)
    ensures OneMore(db, Deactivate(d, target), None)
  {
    var r := Deactivate(d, target);
    forall id | id in r.rows ensures At(r.rows[id], TransferCount) == CountAfter(db.rows[id], false) {
      assert At(d.rows[id], TransferCount) == CountAfter(db.rows[id], false);
    }
  }

  lemma BusinessCounts(db: Db, dir: Directory, a: Action, target: RowId, events: EventMap)
    ensures var r := Business(db, dir, a, target, events);
            r.Some? ==> OneMore(db, r.value, Counted(db, Tx(a, Pending, None, Some(target), None, None), events))
  {
    hide RowData, Followed;
    RowDataHarmless(dir, a, events);
    var data := RowData(dir, a, events);
    CompletesHasData(dir, a, events);
    if data.Some? && a != LoanCancelPending && TryUpdate(db, target, data.value).Some? {
      FollowedCounts(db, Update(db, target, data.value), dir, a, target, events);
    }
    FollowedNone(dir, a, target, events);
  }

  lemma FollowedNone(dir: Directory, a: Action, target: RowId, events: EventMap)
    ensures Followed(None, dir, a, target, events) == None
  {
  }

  lemma CompletesHasData(dir: Directory, a: Action, events: EventMap)
    ensures Completes(a, events).Some? ==> RowData(dir, a, events).Some? && a != LoanCancelPending && a != LoanRefinance
  {
  }

  lemma RollForwardCounts(db: Db, dir: Directory, h: Hash, tx: Tx, block: nat, events: EventMap)
    ensures var r := RollForward(db, dir, h, tx, block, events);
            r.Some? ==> OneMore(db, r.value, Counted(db, tx, events))
  {
    hide Business;
    if h in db.txs && tx.target.Some? {
      BusinessCounts(db.(txs := db.txs[h := db.txs[h].(sync := Mined, block := Some(block))]), dir, tx.action,
                     tx.target.value, events);
    }
  }

  lemma CountAppend(passed: seq<(Hash, RowId)>, last: (Hash, RowId), id: RowId)
    ensures Count(passed + [last], id) == Count(passed, id) + if last.1 == id then 1 else 0
  {
    assert (passed + [last])[..|passed|] == passed;
  }

  lemma CountOneMore(base: map<RowId, Row>, s: State, s': State, h: Hash, one: Option<RowId>)
    requires Counts(base, s) && OneMore(s.db, s'.db, one)
    requires s'.passed == s.passed + if one.Some? then [(h, one.value)] else []
    ensures Counts(base, s')
  {
    forall id | id in s'.db.rows && At(s'.db.rows[id], TransferCount).Num?
      ensures CountIs(base, s'.passed, id, s'.db.rows[id])
    {
      assert CountIs(base, s.passed, id, s.db.rows[id])
             && At(s'.db.rows[id], TransferCount) == CountAfter(s.db.rows[id], one == Some(id));
      if one.Some? {
        CountAppend(s.passed, (h, one.value), id);
      } else {
        assert s'.passed == s.passed;
      }
    }
  }

  lemma StepCounts(base: map<RowId, Row>, s: State, dir: Directory, chain: Verdicts, m: Move)
    requires Counts(base, s) && Enabled(s, chain, m)
    ensures Counts(base, Step(s, dir, chain, m))
  {
    hide RollForward, Handle, CountsKept, CountIs, Counted, OneMore, Compensate, RecordTx;
    var s' := Step(s, dir, chain, m);
    KeptByNothing(s.db);
    match m
    case Submit(_, _, _) => RecordCounts(s, m, chain); CountsStay(base, s, s');
    case Index(log) => HandleCounts(s.db, dir, log); CountsStay(base, s, s');
    case Undo(k) => CompensateCounts(s.db, s.sweepers[k].copy.value.action,
                                     s.sweepers[k].copy.value.target); CountsStay(base, s, s');
    case Take(k, h, seen) =>
      if seen && Succeeded(chain, h) {
        RollForwardCounts(s.db, dir, h, s.sweepers[k].batch[h], chain[h].block, chain[h].events);
        if RollForward(s.db, dir, h, s.sweepers[k].batch[h], chain[h].block, chain[h].events).Some? {
          CountOneMore(base, s, s', h, Counted(s.db, s.sweepers[k].batch[h], chain[h].events));
        } else {
          CountsStay(base, s, s');
        }
      } else {
        MarkCounts(s.db, s'.db);
        CountsStay(base, s, s');
      }
    case _ => CountsStay(base, s, s');
  }

  lemma KeptByNothing(d: Db)
    requires forall id :: id in d.rows ==> id < d.next
    ensures CountsKept(d, d)
  {
  }

  lemma MarkCounts(d: Db, d': Db)
    requires d'.rows == d.rows && d'.next == d.next && forall id :: id in d.rows ==> id < d.next
    ensures CountsKept(d, d')
  {
  }

  /** Exactly once: with one sweeper, or with any number that share no transfer approval, however they crash and
      whatever the indexer and the services do meanwhile, the transfer count of a vehicle rises once for each transfer
      approval that the sweep completes. */
  lemma {:induction false} TransfersCountedOnce(base: map<RowId, Row>, s: State, dir: Directory, chain: Verdicts,
                                                moves: seq<Move>)
    requires Tracked(s) && CountedOnce(s, chain) && Counts(base, s) && Apart(s, chain, Counting)
    requires RunOk(s, dir, chain, moves) && StaysApart(s, dir, chain, Counting, moves)
    ensures var t := After(s, dir, chain, moves);
            && Distinct(Hashes(t.passed))
            && forall id :: id in t.db.rows && At(t.db.rows[id], TransferCount).Num? ==>
                 CountIs(base, t.passed, id, t.db.rows[id])
    decreases |moves|
  {
    hide Step, Enabled, Tracked, CountIs, Apart, ReadsApart;
    if moves != [] {
      StepTracked(s, dir, chain, moves[0]);
      StepCountedOnce(s, dir, chain, moves[0]);
      StepCounts(base, s, dir, chain, moves[0]);
      StepApart(s, dir, chain, Counting, moves[0]);
      TransfersCountedOnce(base, Step(s, dir, chain, moves[0]), dir, chain, moves[1..]);
    }
  }

  /** The same from the start, with one sweeper and nothing else asked for. */
  lemma OneSweeperCountsOnce(s: State, dir: Directory, chain: Verdicts, moves: seq<Move>)
    requires Fresh(s, chain) && |s.sweepers| == 1 && RunOk(s, dir, chain, moves)
    ensures var t := After(s, dir, chain, moves);
            && Distinct(Hashes(t.passed))
            && forall id :: id in t.db.rows && At(t.db.rows[id], TransferCount).Num? ==>
                 CountIs(s.db.rows, t.passed, id, t.db.rows[id])
  {
    hide RunOk, After, StaysApart, CountIs;
    FreshStart(s, chain);
    OneSweeperApart(s, dir, chain, Counting, moves);
    TransfersCountedOnce(s.db.rows, s, dir, chain, moves);
  }

  // ── Batches that share an approval ──

  /** Taking the transaction now completes a transfer and counts it. */
  predicate CountsNow(db: Db, h: Hash, tx: Tx, events: EventMap) {
    h in db.txs && Counted(db, tx, events).Some? &&
    var id := Counted(db, tx, events).value;
    id in db.rows && At(db.rows[id], TransferCount).Num?
  }

  lemma ApprovalData(tx: Tx, dir: Directory, events: EventMap)
    requires Completes(tx.action, events).Some?
    ensures var data := RowData(dir, tx.action, events);
            && tx.action in {TransferApproveBuyer, TransferApproveRto} && data.Some?
            && OnChainId !in data.value && OwnershipRef !in data.value && TransferCount !in data.value
  {
  }

  /** After the first time everything is in place to count it again. */
  lemma ApprovalCountsAgain(db: Db, dir: Directory, h: Hash, tx: Tx, block: nat, events: EventMap)
    requires CountsNow(db, h, tx, events)
    ensures var d := RollForward(db, dir, h, tx, block, events);
            && d.Some? && CountsNow(d.value, h, tx, events) && Counted(d.value, tx, events) == Counted(db, tx, events)
            && var id := Counted(db, tx, events).value;
               At(d.value.rows[id], TransferCount) == Num(At(db.rows[id], TransferCount).n + 1)
  {
    hide RowData, Completes, Write, PassedOn;
    ApprovalData(tx, dir, events);
    var target, id, data := tx.target.value, Counted(db, tx, events).value, RowData(dir, tx.action, events).value;
    var d := db.(txs := db.txs[h := db.txs[h].(sync := Mined, block := Some(block))]);
    var updated := Update(d, target, data);
    assert TryUpdate(d, target, data) == Some(updated);
    assert At(updated.rows[target], OwnershipRef) == At(db.rows[target], OwnershipRef) == Num(id);
    assert At(updated.rows[id], TransferCount) == At(db.rows[id], TransferCount);
    PassedOnRows(updated, dir, target, id, Completes(tx.action, events).value);
  }

  lemma PassedOnRows(db: Db, dir: Directory, target: RowId, id: RowId, newOwner: string)
    requires target in db.rows && id in db.rows && At(db.rows[target], OwnershipRef) == Num(id)
             && At(db.rows[id], TransferCount).Num?
    ensures var d := PassOn(db, dir, target, newOwner);
            && d.Some? && d.value.rows.Keys == db.rows.Keys && d.value.txs == db.txs
            && At(d.value.rows[target], OwnershipRef) == Num(id)
            && At(d.value.rows[id], TransferCount) == Num(At(db.rows[id], TransferCount).n + 1)
  {
  }

  /** Two sweepers at rest have read the same approval, and it counts. */
  predicate ShareApproval(s: State, chain: Verdicts, j: nat, k: nat, h: Hash) {
    && j < |s.sweepers| && k < |s.sweepers| && j != k && s.sweepers[j].undoing.None? && s.sweepers[k].undoing.None?
    && h in s.sweepers[j].batch && h in s.sweepers[k].batch && s.sweepers[j].batch[h] == s.sweepers[k].batch[h]
    && Succeeded(chain, h) && CountsNow(s.db, h, s.sweepers[j].batch[h], chain[h].events)
  }

  lemma TakeApproval(s: State, dir: Directory, chain: Verdicts, k: nat, h: Hash)
    requires k < |s.sweepers| && s.sweepers[k].undoing.None? && h in s.sweepers[k].batch && Succeeded(chain, h)
    requires CountsNow(s.db, h, s.sweepers[k].batch[h], chain[h].events)
    ensures Enabled(s, chain, Take(k, h, true))
    ensures var t, tx := Step(s, dir, chain, Take(k, h, true)), s.sweepers[k].batch[h];
            var id := Counted(s.db, tx, chain[h].events).value;
            && t.passed == s.passed + [(h, id)] && |t.sweepers| == |s.sweepers|
            && (forall i :: 0 <= i < |s.sweepers| && i != k ==> t.sweepers[i] == s.sweepers[i])
            && CountsNow(t.db, h, tx, chain[h].events) && Counted(t.db, tx, chain[h].events) == Some(id)
            && At(t.db.rows[id], TransferCount) == Num(At(s.db.rows[id], TransferCount).n + 1)
  {
    hide RollForward, Counted;
    ApprovalCountsAgain(s.db, dir, h, s.sweepers[k].batch[h], chain[h].block, chain[h].events);
  }

  /** Apartness is needed: in every state in which two batches share an approval that counts, a run counts it twice. */
  lemma TwoSweepersCountTwice(s: State, dir: Directory, chain: Verdicts, j: nat, k: nat, h: Hash)
    requires ShareApproval(s, chain, j, k, h)
    ensures var moves, id := [Take(j, h, true), Take(k, h, true)],
            Counted(s.db, s.sweepers[j].batch[h], chain[h].events).value;
            && RunOk(s, dir, chain, moves)
            && var t := After(s, dir, chain, moves);
               && t.passed == s.passed + [(h, id), (h, id)]
               && id in t.db.rows && At(t.db.rows[id], TransferCount) == Num(At(s.db.rows[id], TransferCount).n + 2)
  {
    hide Step, Enabled, Counted;
    var moves := [Take(j, h, true), Take(k, h, true)];
    TakeApproval(s, dir, chain, j, h);
    var s1 := Step(s, dir, chain, moves[0]);
    TakeApproval(s1, dir, chain, k, h);
    var s2 := Step(s1, dir, chain, moves[1]);
    assert moves[1..] == [moves[1]] && moves[1..][1..] == [];
    assert RunOk(s2, dir, chain, []) && RunOk(s1, dir, chain, moves[1..]);
    assert After(s1, dir, chain, moves[1..]) == s2;
    var id := Counted(s.db, s.sweepers[j].batch[h], chain[h].events).value;
    assert s.passed + [(h, id)] + [(h, id)] == s.passed + [(h, id), (h, id)];
  }
}

/** registerLoan as the code runs it: the guard, the submission to the chain and the record are apart, and calls, events
    and sweeps interleave between them. */
module LoanCalls {
  import opened Tables
  import opened Chain
  import opened Indexer
  import opened IndexerFacts
  import opened Reconciler
  import opened ReconcilerFacts
  import opened LoanGuards
  import Ledger

  /** A call that has passed the guard and has its transaction hash. */
  datatype Passed = Passed(passport: RowId, bank: nat, wallet: string, amount: nat, h: Hash, member: nat)

  datatype World = World(db: Db, calls: map<nat, Passed>)

  datatype Step =
    | Check(c: nat, call: Passed)
    | Record(c: nat)
    | Drop(c: nat)  // the call dies before it records
    | Other(m: LoanGuards.Move)

  /** The chain gives no hash twice. */
  predicate Fresh(w: World, h: Hash) {
    h !in w.db.txs && forall c :: c in w.calls ==> w.calls[c].h != h
  }

  predicate Enabled(w: World, s: Step) {
    match s
    case Check(c, call) => c !in w.calls && MayRegister(w.db, call.passport) && Fresh(w, call.h)
    case Record(c) => c in w.calls
    case Drop(c) => c in w.calls
    case Other(m) => !m.RegisterLoan?
  }

  /** The indexer may have tracked the hash first: then the record fails as a whole. */
  predicate Live(w: World, c: nat)
    requires c in w.calls
  {
    w.calls[c].h !in w.db.txs
  }

  function Recorded(db: Db, call: Passed): Db {
    Register(db, call.passport, call.bank, call.wallet, call.amount, call.h, call.member)
  }

  ghost function Take(w: World, dir: Directory, s: Step): World
    requires Enabled(w, s)
  {
    match s
    case Check(c, call) => w.(calls := w.calls[c := call])
    case Record(c) => World(if Live(w, c) then Recorded(w.db, w.calls[c]) else w.db, w.calls - {c})
    case Drop(c) => w.(calls := w.calls - {c})
    case Other(m) => w.(db := Apply(w.db, dir, m))
  }

  ghost predicate RunOk(w: World, dir: Directory, steps: seq<Step>)
    decreases |steps|
  {
    steps != [] ==> Enabled(w, steps[0]) && RunOk(Take(w, dir, steps[0]), dir, steps[1..])
  }

  ghost function After(w: World, dir: Directory, steps: seq<Step>): World
    requires RunOk(w, dir, steps)
    decreases |steps|
  {
    if steps == [] then w else After(Take(w, dir, steps[0]), dir, steps[1..])
  }

  // ── One run ──

  /** In every state of the run. */
  ghost predicate AlwaysOne(w: World, dir: Directory, steps: seq<Step>)
    requires RunOk(w, dir, steps)
    decreases |steps|
  {
    OnePending(w.db) && (steps != [] ==> AlwaysOne(Take(w, dir, steps[0]), dir, steps[1..]))
  }

  ghost predicate Clear(w: World, s: Step)
    requires Enabled(w, s)
  {
    s.Record? && Live(w, s.c) ==> !HasPending(w.db, w.calls[s.c].passport)
  }

  /** Every loan is recorded on a vehicle without a pending one. */
  ghost predicate RecordsClear(w: World, dir: Directory, steps: seq<Step>)
    requires RunOk(w, dir, steps)
    decreases |steps|
  {
    steps != [] ==> Clear(w, steps[0]) && RecordsClear(Take(w, dir, steps[0]), dir, steps[1..])
  }

  lemma TakeKeeps(w: World, dir: Directory, s: Step)
    requires Sound(w.db) && LoanInv(w.db) && Enabled(w, s) && Clear(w, s)
    ensures Sound(Take(w, dir, s).db) && LoanInv(Take(w, dir, s).db)
  {
    hide Sound, LoanInv, Apply, Register, MayRegister, HasPending;
    match s
    case Record(c) =>
      var call := w.calls[c];
      if Live(w, c) {
        RegisterSound(w.db, call.passport, call.bank, call.wallet, call.amount, call.h, call.member);
        RegisterKeeps(w.db, call.passport, call.bank, call.wallet, call.amount, call.h, call.member);
      }
    case Other(m) => ApplyKeeps(w.db, dir, m);
    case _ =>
  }

  /** Over any run with guard and record apart, no vehicle ever has two pending loans exactly when each record finds its
      vehicle without one. */
  lemma {:induction false} OneExactlyWhenClear(w: World, dir: Directory, steps: seq<Step>)
    requires Sound(w.db) && LoanInv(w.db) && RunOk(w, dir, steps)
    ensures AlwaysOne(w, dir, steps) <==> RecordsClear(w, dir, steps)
    decreases |steps|
  {
    hide Sound, LoanInv, Take, Enabled, OnePending;
    InvIsOne(w.db);
    if steps != [] {
      var s, rest := steps[0], steps[1..];
      if Clear(w, s) {
        TakeKeeps(w, dir, s);
        OneExactlyWhenClear(Take(w, dir, s), dir, rest);
      } else {
        RecordBreaks(w, dir, s);
      }
    }
  }

  lemma RecordBreaks(w: World, dir: Directory, s: Step)
    requires LoanInv(w.db) && Enabled(w, s) && !Clear(w, s)
    ensures !OnePending(Take(w, dir, s).db)
  {
    hide LoanInv, OnePending, Register;
    var call := w.calls[s.c];
    RegisterExactly(w.db, call.passport, call.bank, call.wallet, call.amount, call.h, call.member);
  }

  // ── Which calls under way can break it ──

  /** No call under way is on a vehicle with a pending loan, and no two are on the same vehicle. */
  ghost predicate Apart(w: World) {
    && (forall c :: c in w.calls && Live(w, c) ==> !HasPending(w.db, w.calls[c].passport))
    && (forall c, c' :: c in w.calls && c' in w.calls && Live(w, c) && Live(w, c') && c != c' ==>
          w.calls[c].passport != w.calls[c'].passport)
  }

  /** Hashes under way are distinct, and tracked by the indexer at most, in an unlinked row. */
  ghost predicate Tidy(w: World) {
    && Sound(w.db) && LoanInv(w.db)
    && (forall c, c' :: c in w.calls && c' in w.calls && c != c' ==> w.calls[c].h != w.calls[c'].h)
    && (forall c :: c in w.calls ==> Unlinked(w.db, w.calls[c].h))
  }

  predicate Unlinked(db: Db, h: Hash) {
    h in db.txs ==> db.txs[h].target.None?
  }

  /** A call checks its vehicle while no other call on that vehicle is under way. */
  predicate Alone(w: World, s: Step) {
    s.Check? ==> forall c :: c in w.calls ==> w.calls[c].passport != s.call.passport
  }

  ghost predicate NoOverlap(w: World, dir: Directory, steps: seq<Step>)
    requires RunOk(w, dir, steps)
    decreases |steps|
  {
    steps != [] ==> Alone(w, steps[0]) && NoOverlap(Take(w, dir, steps[0]), dir, steps[1..])
  }

  /** Events and sweeps make no pending loan, and free no hash under way. */
  ghost predicate Quiet(d: Db, d': Db) {
    && (forall p :: HasPending(d', p) ==> HasPending(d, p))
    && (forall h :: Unlinked(d, h) ==> Unlinked(d', h) && (h in d.txs ==> h in d'.txs))
  }

  lemma FollowQuiet(d: Db, d': Db, h: Hash)
    requires Ledger.TxsFollow(d, d', h, Mined)
    ensures forall k :: Unlinked(d, k) ==> Unlinked(d', k) && (k in d.txs ==> k in d'.txs)
  {
  }

  lemma ApplyQuiet(db: Db, dir: Directory, m: LoanGuards.Move)
    requires Sound(db) && LoanInv(db) && !m.RegisterLoan?
    ensures Quiet(db, Apply(db, dir, m))
  {
    hide Sound, LoanInv, Handle, RollForward, Compensate, NoNewPending, Ledger.TxsFollow;
    RowsBelow(db);
    match m
    case Index(log) =>
      HandleSettles(db, dir, log);
      InvFollows(db, Handle(db, dir, log));
      Ledger.HandleTxs(db, dir, log);
      FollowQuiet(db, Handle(db, dir, log), log.hash);
    case Settle(h, tx, block, events) =>
      RollForwardSettles(db, dir, h, tx, block, events);
      Ledger.RollForwardTxs(db, dir, h, tx, block, events);
      var d := RollForward(db, dir, h, tx, block, events);
      if d.Some? {
        InvFollows(db, d.value);
        FollowQuiet(db, d.value, h);
      }
    case Rollback(action, target) =>
      CompensateSettles(db, action, target);
      InvFollows(db, Compensate(db, action, target));
      Ledger.CompensateTxs(db, action, target);
      FollowQuiet(db, Compensate(db, action, target), 0);
  }

  lemma RecordedPending(db: Db, call: Passed, p: RowId)
    ensures p != call.passport && HasPending(Recorded(db, call), p) ==> HasPending(db, p)
    ensures Recorded(db, call).txs.Keys == db.txs.Keys + {call.h}
    ensures forall h :: h in db.txs && h != call.h ==> Recorded(db, call).txs[h] == db.txs[h]
  {
    var d := Recorded(db, call);
    Registered(db, call.passport, call.bank, call.wallet, call.amount, call.h, call.member);
    if p != call.passport && HasPending(d, p) {
      var id :| id in d.rows && PendingOn(d, p, id);
      assert PendingOn(d, p, id);
      assert LoanOn(d, p, id);
      assert id != db.next;
      assert id in d.rows.Keys && id in db.rows && d.rows[id] == db.rows[id];
    }
  }

  lemma RecordApart(w: World, dir: Directory, c: nat)
    requires Tidy(w) && Apart(w) && c in w.calls
    ensures var w' := Take(w, dir, Record(c));
            Apart(w') && forall c' :: c' in w'.calls ==> Unlinked(w'.db, w'.calls[c'].h)
  {
    hide Sound, LoanInv, Register, HasPending;
    var w', call := Take(w, dir, Record(c)), w.calls[c];
    forall c' | c' in w'.calls
      ensures Unlinked(w'.db, w'.calls[c'].h) && (Live(w', c') ==>
                                                  Live(w, c') && !HasPending(w'.db, w'.calls[c'].passport))
    {
      RecordedPending(w.db, call, w.calls[c'].passport);
    }
  }

  lemma TakeApart(w: World, dir: Directory, s: Step)
    requires Tidy(w) && Apart(w) && Enabled(w, s) && Alone(w, s)
    ensures Tidy(Take(w, dir, s)) && Apart(Take(w, dir, s))
  {
    hide Sound, LoanInv, Apply, Register, HasPending, MayRegister;
    var w' := Take(w, dir, s);
    TakeKeeps(w, dir, s);
    match s
    case Check(_, call) => GuardKeepsOut(w.db, call.passport);
    case Record(c) => RecordApart(w, dir, c);
    case Drop(_) =>
    case Other(m) => ApplyQuiet(w.db, dir, m);
  }

  lemma {:induction false} ApartStays(w: World, dir: Directory, steps: seq<Step>)
    requires Tidy(w) && Apart(w) && RunOk(w, dir, steps) && NoOverlap(w, dir, steps)
    ensures OnePending(After(w, dir, steps).db)
    decreases |steps|
  {
    hide Take, Enabled, Apart, OnePending;
    InvIsOne(w.db);
    if steps != [] {
      TakeApart(w, dir, steps[0]);
      ApartStays(Take(w, dir, steps[0]), dir, steps[1..]);
    }
  }

  lemma RecordOnce(w: World, dir: Directory, c: nat)
    requires Tidy(w) && c in w.calls && Live(w, c) && HasPending(w.db, w.calls[c].passport)
    ensures RunOk(w, dir, [Record(c)]) && NoOverlap(w, dir, [Record(c)]) && !OnePending(After(w, dir, [Record(c)]).db)
  {
    hide OnePending, Sound, LoanInv, Register, HasPending;
    RecordBreaks(w, dir, Record(c));
    var w' := Take(w, dir, Record(c));
    assert [Record(c)][1..] == [] && RunOk(w', dir, []) && NoOverlap(w', dir, []) && After(w', dir, []) == w';
  }

  lemma RecordTwice(w: World, dir: Directory, c: nat, c': nat)
    requires Tidy(w) && c in w.calls && c' in w.calls && c != c' && Live(w, c) && Live(w, c')
    requires w.calls[c].passport == w.calls[c'].passport && !HasPending(w.db, w.calls[c].passport)
    ensures var steps := [Record(c), Record(c')];
            RunOk(w, dir, steps) && NoOverlap(w, dir, steps) && !OnePending(After(w, dir, steps).db)
  {
    hide OnePending, Sound, LoanInv, Register, RunOk, NoOverlap, After, Take;
    var w', call := Take(w, dir, Record(c)), w.calls[c];
    SecondIsLive(w, dir, c, c');
    RecordOnce(w', dir, c');
    RunsOn(w, dir, Record(c), [Record(c')]);
    assert [Record(c)] + [Record(c')] == [Record(c), Record(c')];
  }

  lemma SecondIsLive(w: World, dir: Directory, c: nat, c': nat)
    requires Tidy(w) && c in w.calls && c' in w.calls && c != c' && Live(w, c) && Live(w, c')
    requires w.calls[c].passport == w.calls[c'].passport && !HasPending(w.db, w.calls[c].passport)
    ensures var w' := Take(w, dir, Record(c));
            Tidy(w') && c' in w'.calls && w'.calls[c'] == w.calls[c'] && Live(w', c')
                && HasPending(w'.db, w.calls[c].passport)
  {
    hide Sound, LoanInv, Register;
    var w', call := Take(w, dir, Record(c)), w.calls[c];
    TakeKeeps(w, dir, Record(c));
    RegisterKeeps(w.db, call.passport, call.bank, call.wallet, call.amount, call.h, call.member);
    assert PendingOn(w'.db, call.passport, w.db.next);
    RecordedPending(w.db, call, call.passport);
  }

  lemma RunsOn(w: World, dir: Directory, s: Step, rest: seq<Step>)
    requires Enabled(w, s) && Alone(w, s) && RunOk(Take(w, dir, s), dir, rest) && NoOverlap(Take(w, dir, s), dir, rest)
    ensures RunOk(w, dir, [s] + rest) && NoOverlap(w, dir, [s] + rest)
    ensures After(w, dir, [s] + rest) == After(Take(w, dir, s), dir, rest)
  {
    assert ([s] + rest)[1..] == rest;
  }

  /** The guard is exact for calls that do not overlap: whatever follows, as long as further calls check their vehicle
      alone, no vehicle ever gets two pending loans, if and only if the calls under way are apart. Two calls that have
      both passed the guard of one vehicle are not. */
  lemma OneExactlyWhenApart(w: World, dir: Directory)
    requires Tidy(w)
    ensures (forall steps :: RunOk(w, dir, steps) && NoOverlap(w, dir, steps) ==>
             OnePending(After(w, dir, steps).db)) <==> Apart(w)
  {
    hide Tidy, OnePending, HasPending;
    if Apart(w) {
      forall steps | RunOk(w, dir, steps) && NoOverlap(w, dir, steps) ensures OnePending(After(w, dir, steps).db) {
        ApartStays(w, dir, steps);
      }
    } else if c :| c in w.calls && Live(w, c) && HasPending(w.db, w.calls[c].passport) {
      RecordOnce(w, dir, c);
    } else {
      var c, c' :| c in w.calls && c' in w.calls && Live(w, c) && Live(w, c') && c != c'
          && w.calls[c].passport == w.calls[c'].passport;
      RecordTwice(w, dir, c, c');
    }
  }
}

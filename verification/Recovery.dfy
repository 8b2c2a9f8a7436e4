/** Crash recovery of the indexer: catch-up runs that die between any two database writes, each restarted from the
    persisted cursor, followed by one run that completes. */
module Recovery {
  import opened Tables
  import opened Chain
  import opened Indexer
  import opened IndexerFacts
  import opened Lookalikes
  import opened Replay

  // ── Handlers cannot tell equal databases apart ──

  /** Two sound databases that are equal as far as handlers can see. */
  ghost predicate Alike(d: Db, d': Db) {
    Sound(d) && Sound(d') && Same(d, d')
  }

  lemma SameFind(d: Db, d': Db, table: Table, x: int)
    requires Sound(d) && Sound(d') && d.rows == d'.rows
    ensures Find(d, table, x) == Find(d', table, x)
  {
    if Find(d, table, x).Some? {
      assert HasChainId(d', table, x, Find(d, table, x).value);
      FindUnique(d', table, x, Find(d, table, x).value);
    } else if Find(d', table, x).Some? {
      assert HasChainId(d, table, x, Find(d', table, x).value);
    }
  }

  lemma AlikeLooks(d: Db, d': Db, h: Hash)
    requires Alike(d, d')
    ensures Lookalike(d, d', h)
  {
    forall table, x ensures FindsAlike(d, d', table, x) {
      SameFind(d, d', table, x);
    }
    assert InfoOf(d, h) == InfoOf(d', h);
  }

  lemma AlikeWithdrawn(d: Db, d': Db, dir: Directory, dvpId: nat, bankId: nat)
    requires Alike(d, d')
    ensures Withdrawn(d, dir, dvpId, bankId) == Withdrawn(d', dir, dvpId, bankId)
  {
    SameFind(d, d', Passports, dvpId);
    forall id | id in d.rows ensures IsWithdrawn(d, dir, dvpId, bankId, id) == IsWithdrawn(d', dir, dvpId, bankId, id) {
    }
  }

  lemma WithdrawEffect(d: Db, dir: Directory, log: Log)
    requires log.event.PendingLoanCancelled?
    ensures EffectOf(d, dir, log) == RemoveRows(Withdrawn(d, dir, log.event.dvpId, log.event.bankId))
            && SecondEffect(d, log) == NoWrite
  {
  }

  lemma AlikeEffect(d: Db, d': Db, dir: Directory, log: Log)
    requires Alike(d, d')
    ensures EffectOf(d, dir, log) == EffectOf(d', dir, log) && SecondEffect(d, log) == SecondEffect(d', log)
  {
    hide EffectOf, SecondEffect, Alike, Lookalike, Withdrawn;
    AlikeLooks(d, d', log.hash);
    if log.event.PendingLoanCancelled? {
      AlikeWithdrawn(d, d', dir, log.event.dvpId, log.event.bankId);
      WithdrawEffect(d, dir, log);
      WithdrawEffect(d', dir, log);
    } else {
      LookalikeEffect(d, d', dir, log);
    }
  }

  lemma PerformSame(d: Db, d': Db, e: Effect)
    requires Same(d, d')
    ensures Same(Perform(d, e), Perform(d', e))
  {
    var p, p' := Perform(d, e), Perform(d', e);
    forall h ensures InfoOf(p, h) == InfoOf(p', h) {
      assert InfoOf(d, h) == InfoOf(d', h);
    }
  }

  /** `finalizeTx` writes nothing that a handler reads. */
  lemma FinishSame(d: Db, tx: Option<Tx>, log: Log)
    ensures Same(Finish(d, tx, log), d)
  {
    var p := Finish(d, tx, log);
    forall h ensures InfoOf(p, h) == InfoOf(d, h) {
    }
  }

  /** The business writes of a handler. */
  ghost function Writes(db: Db, dir: Directory, log: Log): Db {
    Perform(Perform(db, EffectOf(db, dir, log)), if EffectOf(db, dir, log).Rejected? then NoWrite
            else SecondEffect(db, log))
  }

  lemma HandleWrites(db: Db, dir: Directory, log: Log)
    ensures Same(Handle(db, dir, log), Writes(db, dir, log))
  {
    var e := EffectOf(db, dir, log);
    if !e.Rejected? {
      FinishSame(Perform(Perform(db, e), SecondEffect(db, log)), TxOf(db, log.hash), log);
    }
  }

  lemma SameTransitive(a: Db, b: Db, c: Db)
    requires Same(a, b) && Same(b, c)
    ensures Same(a, c)
  {
    forall h ensures InfoOf(a, h) == InfoOf(c, h) {
      assert InfoOf(a, h) == InfoOf(b, h);
    }
  }

  lemma HandleSame(d: Db, d': Db, dir: Directory, log: Log)
    requires Alike(d, d')
    ensures Same(Handle(d, dir, log), Handle(d', dir, log))
  {
    var e, e2 := EffectOf(d, dir, log), SecondEffect(d, log);
    AlikeEffect(d, d', dir, log);
    PerformSame(d, d', e);
    PerformSame(Perform(d, e), Perform(d', e), if e.Rejected? then NoWrite else e2);
    HandleWrites(d, dir, log);
    HandleWrites(d', dir, log);
    SameTransitive(Handle(d, dir, log), Writes(d, dir, log), Writes(d', dir, log));
    SameTransitive(Handle(d, dir, log), Writes(d', dir, log), Handle(d', dir, log));
  }

  lemma {:induction false} RunSame(d: Db, d': Db, dir: Directory, logs: seq<Log>)
    requires Alike(d, d')
    ensures Same(Run(d, dir, logs), Run(d', dir, logs))
  {
    if logs != [] {
      var p := logs[..|logs| - 1];
      RunSame(d, d', dir, p);
      RunSound(d, dir, p);
      RunSound(d', dir, p);
      HandleSame(Run(d, dir, p), Run(d', dir, p), dir, logs[|logs| - 1]);
    }
  }

  // ── Handlers cut short ──

  /** The first `writes` database writes of a handler: the business row, the passport of `VehicleReg`, the tracking
      row. */
  ghost function Cut(db: Db, dir: Directory, log: Log, writes: nat): Db {
    if writes == 0 then db
    else if writes == 1 then Perform(db, EffectOf(db, dir, log))
    else if writes == 2 then Writes(db, dir, log)
    else Handle(db, dir, log)
  }

  lemma WritesSound(db: Db, dir: Directory, log: Log)
    requires Sound(db)
    ensures Sound(Perform(db, EffectOf(db, dir, log))) && Sound(Writes(db, dir, log))
  {
    var e := EffectOf(db, dir, log);
    EffectLegal(db, dir, log);
    PerformSound(db, e);
    PerformSound(Perform(db, e), if e.Rejected? then NoWrite else SecondEffect(db, log));
  }

  lemma CutSound(db: Db, dir: Directory, log: Log, writes: nat)
    requires Sound(db)
    ensures Sound(Cut(db, dir, log, writes))
  {
    WritesSound(db, dir, log);
    HandleSound(db, dir, log);
  }

  /** Only `VehicleReg` has a state between its business writes. */
  lemma CutIsWhole(db: Db, dir: Directory, log: Log, writes: nat)
    requires writes > 0 && (writes > 1 || !log.event.VehicleReg?)
    ensures Same(Cut(db, dir, log, writes), Handle(db, dir, log))
  {
    if writes == 1 { assert SecondEffect(db, log) == NoWrite; }
    HandleWrites(db, dir, log);
  }

  lemma ReplayableSame(d: Db, d': Db, logs: seq<Log>, contract: Contract)
    requires Replayable(d, logs, contract) && Sound(d') && Same(d, d')
    ensures Replayable(d', logs, contract)
  {
    forall i | 0 <= i < |logs| ensures PromotionOk(d', logs[i]) {
      assert PromotionOk(d, logs[i]) && InfoOf(d, logs[i].hash) == InfoOf(d', logs[i].hash);
      if KindOf(logs[i].event).Make? {
        LinkedByInfo(d, d', logs[i]);
        SameFind(d, d', KindOf(logs[i].event).table, KindOf(logs[i].event).x);
      }
    }
    forall i, j | 0 <= i < j < |logs| ensures DifferentLinks(d', logs[i], logs[j]) {
      assert DifferentLinks(d, logs[i], logs[j]);
      assert InfoOf(d, logs[i].hash) == InfoOf(d', logs[i].hash) && InfoOf(d, logs[j].hash) == InfoOf(d', logs[j].hash);
      if KindOf(logs[i].event).Make? && KindOf(logs[j].event).Make? {
        LinkedByInfo(d, d', logs[i]);
        LinkedByInfo(d, d', logs[j]);
      }
    }
  }

  /** The ownership contract promotes no row, so its logs are replayable on every sound database. */
  lemma OwnershipReplayable(db: Db, logs: seq<Log>)
    requires Sound(db) && Ordered(logs) && forall i :: 0 <= i < |logs| ==> ContractOf(logs[i].event) == OwnershipToken
    ensures Replayable(db, logs, OwnershipToken)
  {
    forall i | 0 <= i < |logs| && KindOf(logs[i].event).Make?
      ensures Linked(TxOf(db, logs[i].hash), logs[i].event).None?
    {
      assert ContractOf(logs[i].event) == OwnershipToken;
    }
  }

  lemma CutReplayable(db: Db, dir: Directory, logs: seq<Log>, contract: Contract, k: nat, writes: nat)
    requires Replayable(db, logs, contract) && k < |logs|
    ensures Replayable(Cut(db, dir, logs[k], writes), logs, contract)
  {
    CutSound(db, dir, logs[k], writes);
    if writes > 0 {
      if writes > 1 || !logs[k].event.VehicleReg? {
        RunReplayable(db, dir, logs, contract, [logs[k]]);
        RunOne(db, dir, logs[k]);
        CutIsWhole(db, dir, logs[k], writes);
        ReplayableSame(Handle(db, dir, logs[k]), Cut(db, dir, logs[k], writes), logs, contract);
      } else {
        OwnershipReplayable(Cut(db, dir, logs[k], writes), logs);
      }
    }
  }

  lemma RunOne(db: Db, dir: Directory, log: Log)
    ensures Run(db, dir, [log]) == Handle(db, dir, log)
  {
    assert [log][..0] == [];
  }

  // ── Passports under the ownership contract ──

  /** Its handlers change no passport except to activate it. */
  ghost predicate PassportsKept(d: Db, d': Db) {
    forall id :: id in d'.rows && d'.rows[id].table == Passports ==>
      id in d.rows && d.rows[id].table == Passports
          && At(d'.rows[id], Status) in {At(d.rows[id], Status), St(VehicleActive)}
  }

  /** They write ownership rows and transfer requests only. */
  lemma OwnershipEffect(db: Db, dir: Directory, log: Log)
    requires ContractOf(log.event) == OwnershipToken
    ensures var e := EffectOf(db, dir, log);
            && (e.WriteRow? ==> e.id in db.rows && db.rows[e.id].table != Passports)
            && (e.CreateRow? ==> e.table != Passports)
  {
    if KindOf(log.event).Make? {
      assert Linked(TxOf(db, log.hash), log.event).None?;
    }
  }

  lemma PerformPassports(db: Db, e: Effect)
    requires e.WriteRow? ==> e.id in db.rows
                             && (db.rows[e.id].table == Passports ==> e.data == map[Status := St(VehicleActive)])
    requires e.CreateRow? ==> e.table != Passports
    ensures PassportsKept(db, Perform(db, e))
  {
  }

  lemma PassportsTransitive(a: Db, b: Db, c: Db)
    requires PassportsKept(a, b) && PassportsKept(b, c)
    ensures PassportsKept(a, c)
  {
  }

  lemma WritesPassports(db: Db, dir: Directory, log: Log)
    requires ContractOf(log.event) == OwnershipToken
    ensures PassportsKept(db, Writes(db, dir, log))
  {
    var e, e2 := EffectOf(db, dir, log), SecondEffect(db, log);
    OwnershipEffect(db, dir, log);
    PerformPassports(db, e);
    if e2.WriteRow? { SecondIsActivation(db, log, e2, Perform(db, e)); }
    PerformPassports(Perform(db, e), if e.Rejected? then NoWrite else e2);
    PassportsTransitive(db, Perform(db, e), Writes(db, dir, log));
  }

  lemma SecondIsActivation(db: Db, log: Log, e: Effect, d: Db)
    requires e == SecondEffect(db, log) && e.WriteRow?
    ensures e.data == map[Status := St(VehicleActive)] && e.id in db.rows
  {
  }

  lemma {:induction false} RunPassports(db: Db, dir: Directory, logs: seq<Log>)
    requires forall l :: l in logs ==> ContractOf(l.event) == OwnershipToken
    ensures PassportsKept(db, Run(db, dir, logs))
  {
    if logs != [] {
      var d := Run(db, dir, logs[..|logs| - 1]);
      RunPassports(db, dir, logs[..|logs| - 1]);
      WritesPassports(d, dir, logs[|logs| - 1]);
      HandleWrites(d, dir, logs[|logs| - 1]);
      PassportsTransitive(db, d, Writes(d, dir, logs[|logs| - 1]));
    }
  }

  // ── One pass ──

  lemma ActivatedInStep(ra: Option<Row>, rb: Row)
    requires ra.Some? && At(rb, Status) in {At(ra.value, Status), St(VehicleActive)}
    ensures RowInStep(ra, rb, Write(rb, map[Status := St(VehicleActive)]))
  {
  }

  lemma HalfRegInStep(m: Db, b: Db, t: Db, e: Effect)
    requires PassportsKept(m, b) && t == Perform(b, e)
    requires e == NoWrite || (e.WriteRow? && e.id in b.rows && b.rows[e.id].table == Passports
                              && e.data == map[Status := St(VehicleActive)])
    ensures InStep(m, b, t)
  {
    if e.WriteRow? {
      InStepAtEnd(m, b, b);
      ActivatedInStep(RowOf(m, e.id), b.rows[e.id]);
      assert forall id :: id in t.rows && id != e.id ==> RowInStep(RowOf(m, id), b.rows[id], b.rows[id]);
    } else {
      InStepAtEnd(m, b, t);
    }
  }

  /** Between the two business writes of `VehicleReg`. */
  lemma HalfReg(m: Db, d: Db, dir: Directory, log: Log)
    requires Sound(d) && log.event.VehicleReg? && PassportsKept(m, d)
    ensures InStep(m, Cut(d, dir, log, 1), Writes(d, dir, log))
  {
    var e, e2 := EffectOf(d, dir, log), SecondEffect(d, log);
    OwnershipEffect(d, dir, log);
    PerformPassports(d, e);
    PassportsTransitive(m, d, Perform(d, e));
    RegEffects(d, dir, log, e, e2);
    HalfRegInStep(m, Perform(d, e), Writes(d, dir, log), if e.Rejected? then NoWrite else e2);
  }

  lemma RegEffects(d: Db, dir: Directory, log: Log, e: Effect, e2: Effect)
    requires Sound(d) && log.event.VehicleReg? && e == EffectOf(d, dir, log) && e2 == SecondEffect(d, log)
    requires e.WriteRow? ==> e.id in d.rows
    ensures e2 == NoWrite || (e2.WriteRow? && e2.id in Perform(d, e).rows
                              && Perform(d, e).rows[e2.id].table == Passports
                                 && e2.data == map[Status := St(VehicleActive)])
  {
    assert !e.RemoveRows?;
    assert d.next !in d.rows;
  }

  lemma InStepSame(m: Db, b: Db, t: Db, t': Db)
    requires InStep(m, b, t) && Same(t, t')
    ensures InStep(m, b, t')
  {
    forall h ensures InfoOf(b, h) == InfoOf(t', h) {
      assert InfoOf(b, h) == InfoOf(t, h);
    }
  }

  /** However far a pass over `logs` got, another pass over them ends where one whole pass does. */
  lemma ReplayAfterCut(m: Db, dir: Directory, logs: seq<Log>, contract: Contract, writes: nat)
    requires Replayable(m, logs, contract) && logs != []
    ensures var d := Run(m, dir, logs[..|logs| - 1]);
            writes > 0 ==> Same(Run(Cut(d, dir, logs[|logs| - 1], writes), dir, logs), Run(m, dir, logs))
  {
    hide Handle, Same, Cut, InStep;
    var p, log := logs[..|logs| - 1], logs[|logs| - 1];
    var d := Run(m, dir, p);
    var b := Cut(d, dir, log, writes);
    RunSound(m, dir, p);
    CutSound(d, dir, log, writes);
    if writes > 1 || (writes == 1 && !log.event.VehicleReg?) {
      CutIsWhole(d, dir, log, writes);
      InStepAtEnd(m, b, Run(m, dir, logs));
      ReplayFrom(m, dir, logs, contract, b);
    } else if writes == 1 {
      assert forall l :: l in p ==> l in logs;
      RunPassports(m, dir, p);
      HalfReg(m, d, dir, log);
      HandleWrites(d, dir, log);
      InStepSame(m, b, Writes(d, dir, log), Run(m, dir, logs));
      ReplayFrom(m, dir, logs, contract, b);
    }
  }

  lemma SliceReplayable(db: Db, logs: seq<Log>, contract: Contract, i: nat, j: nat)
    requires Replayable(db, logs, contract) && i <= j <= |logs|
    ensures Replayable(db, logs[i..j], contract)
  {
    var s := logs[i..j];
    forall a, b, table, x | 0 <= a < |s| && 0 <= b < |s| && (table, x) in Refs(s[a].event)
      && Makes(s[b].event, table, x)
      ensures b <= a
    {
      assert s[a] == logs[i + a] && s[b] == logs[i + b];
    }
    forall a, b | 0 <= a < b < |s| ensures DifferentLinks(db, s[a], s[b]) {
      assert DifferentLinks(db, logs[i + a], logs[i + b]);
    }
  }

  /** A catch-up run that dies after dispatching the logs up to `upTo` and making `writes` writes of the next handler,
      with the persisted cursor behind `cursor` logs. */
  datatype Pass = Pass(upTo: nat, writes: nat, cursor: nat)

  predicate PassesOk(logs: seq<Log>, c: nat, passes: seq<Pass>)
    decreases |passes|
  {
    c <= |logs| &&
    (passes != [] ==>
       && c <= passes[0].cursor <= passes[0].upTo <= |logs| && (passes[0].writes > 0 ==> passes[0].upTo < |logs|)
       && PassesOk(logs, passes[0].cursor, passes[1..]))
  }

  ghost function AfterPass(db: Db, dir: Directory, logs: seq<Log>, c: nat, p: Pass): Db
    requires c <= p.upTo <= |logs| && (p.writes > 0 ==> p.upTo < |logs|)
  {
    var d := Run(db, dir, logs[c..p.upTo]);
    if p.writes > 0 then Cut(d, dir, logs[p.upTo], p.writes) else d
  }

  /** The passes that died, in order, and then one that completes. */
  ghost function Recover(db: Db, dir: Directory, logs: seq<Log>, c: nat, passes: seq<Pass>): Db
    requires PassesOk(logs, c, passes)
    decreases |passes|
  {
    if passes == [] then Run(db, dir, logs[c..])
    else Recover(AfterPass(db, dir, logs, c, passes[0]), dir, logs, passes[0].cursor, passes[1..])
  }

  lemma AfterPassReplayable(db: Db, dir: Directory, logs: seq<Log>, contract: Contract, c: nat, p: Pass)
    requires Replayable(db, logs, contract) && c <= p.upTo <= |logs| && (p.writes > 0 ==> p.upTo < |logs|)
    ensures Replayable(AfterPass(db, dir, logs, c, p), logs, contract)
  {
    RunReplayable(db, dir, logs, contract, logs[c..p.upTo]);
    if p.writes > 0 {
      CutReplayable(Run(db, dir, logs[c..p.upTo]), dir, logs, contract, p.upTo, p.writes);
    }
  }

  /** Where the completing run ends does not depend on the pass that died before it. */
  lemma OnePass(db: Db, dir: Directory, logs: seq<Log>, contract: Contract, c: nat, p: Pass)
    requires Replayable(db, logs, contract) && PassesOk(logs, c, [p])
    ensures Same(Run(AfterPass(db, dir, logs, c, p), dir, logs[p.cursor..]), Run(db, dir, logs[c..]))
  {
    hide Run, Handle, Cut, Same, Replayable, Sound;
    var d, m := AfterPass(db, dir, logs, c, p), Run(db, dir, logs[c..p.cursor]);
    RunReplayable(db, dir, logs, contract, logs[c..p.cursor]);
    AgainSame(db, dir, logs, contract, c, p, m);
    AfterPassReplayable(db, dir, logs, contract, c, p);
    RestSame(d, m, dir, logs, p.cursor, Reached(p));
    assert logs[c..] == logs[c..p.cursor] + logs[p.cursor..];
    RunAppend(db, dir, logs[c..p.cursor], logs[p.cursor..]);
  }

  /** How many logs a pass has at least begun to handle. */
  function Reached(p: Pass): nat {
    if p.writes > 0 then p.upTo + 1 else p.upTo
  }

  lemma AgainSame(db: Db, dir: Directory, logs: seq<Log>, contract: Contract, c: nat, p: Pass, m: Db)
    requires PassesOk(logs, c, [p]) && m == Run(db, dir, logs[c..p.cursor]) && Replayable(m, logs, contract)
    ensures Same(Run(AfterPass(db, dir, logs, c, p), dir, logs[p.cursor..Reached(p)]),
                 Run(m, dir, logs[p.cursor..Reached(p)]))
  {
    hide Run, Handle, Cut, Same, Replayable, Sound;
    SliceReplayable(m, logs, contract, p.cursor, Reached(p));
    assert logs[c..p.upTo] == logs[c..p.cursor] + logs[p.cursor..p.upTo];
    RunAppend(db, dir, logs[c..p.cursor], logs[p.cursor..p.upTo]);
    if p.writes > 0 {
      CutAgain(m, dir, logs, contract, p);
    } else {
      ReplayIsIdempotent(m, dir, logs[p.cursor..p.upTo], contract);
    }
  }

  lemma CutAgain(m: Db, dir: Directory, logs: seq<Log>, contract: Contract, p: Pass)
    requires p.cursor <= p.upTo < |logs| && p.writes > 0 && Replayable(m, logs[p.cursor..p.upTo + 1], contract)
    ensures var again := logs[p.cursor..p.upTo + 1];
            Same(Run(Cut(Run(m, dir, logs[p.cursor..p.upTo]), dir, logs[p.upTo], p.writes), dir, again),
                 Run(m, dir, again))
  {
    hide Run, Handle, Cut, Same, Replayable, Sound;
    var again := logs[p.cursor..p.upTo + 1];
    assert again[..|again| - 1] == logs[p.cursor..p.upTo];
    ReplayAfterCut(m, dir, again, contract, p.writes);
  }

  lemma RestSame(d: Db, m: Db, dir: Directory, logs: seq<Log>, i: nat, j: nat)
    requires i <= j <= |logs| && Sound(d) && Sound(m) && Same(Run(d, dir, logs[i..j]), Run(m, dir, logs[i..j]))
    ensures Same(Run(d, dir, logs[i..]), Run(m, dir, logs[i..]))
  {
    hide Run, Handle, Cut, Same, Replayable, Sound;
    assert logs[i..] == logs[i..j] + logs[j..];
    RunAppend(d, dir, logs[i..j], logs[j..]);
    RunAppend(m, dir, logs[i..j], logs[j..]);
    RunSound(d, dir, logs[i..j]);
    RunSound(m, dir, logs[i..j]);
    RunSame(Run(d, dir, logs[i..j]), Run(m, dir, logs[i..j]), dir, logs[j..]);
  }

  lemma {:induction false} RecoverFrom(db: Db, dir: Directory, logs: seq<Log>, contract: Contract, c: nat,
                                       passes: seq<Pass>)
    requires Replayable(db, logs, contract) && PassesOk(logs, c, passes)
    ensures Same(Recover(db, dir, logs, c, passes), Run(db, dir, logs[c..]))
    decreases |passes|
  {
    hide Run, Handle, Replayable;
    if passes != [] {
      var p := passes[0];
      var d := AfterPass(db, dir, logs, c, p);
      AfterPassReplayable(db, dir, logs, contract, c, p);
      RecoverFrom(d, dir, logs, contract, p.cursor, passes[1..]);
      OnePass(db, dir, logs, contract, c, p);
      SameTransitive(Recover(db, dir, logs, c, passes), Run(d, dir, logs[p.cursor..]), Run(db, dir, logs[c..]));
    }
  }

  /** Crash-replay equivalence: any number of catch-up runs that die anywhere, and then one that completes, leave every
      business row exactly as one run without interruption. */
  lemma CrashesLeaveNoTrace(db: Db, dir: Directory, logs: seq<Log>, contract: Contract, passes: seq<Pass>)
    requires Replayable(db, logs, contract) && PassesOk(logs, 0, passes)
    ensures Recover(db, dir, logs, 0, passes).rows == Run(db, dir, logs).rows
  {
    RecoverFrom(db, dir, logs, contract, 0, passes);
    assert logs[0..] == logs;
  }
}

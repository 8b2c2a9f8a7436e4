/** The first catch-up of a contract. Until its first cursor is saved every restart begins DEFAULT_DEPTH blocks behind
    the latest block, so on a growing chain the start drifts past blocks that the dead run had not reached. */
module CatchUpDrift {
  import opened Tables
  import opened Chain
  import opened Indexer
  import opened IndexerFacts
  import opened Replay
  import opened Recovery
  import opened IndexerServices

  /** Where catch-up starts without a cursor. */
  function StartOf(latest: nat): nat {
    LastBlock(map[], "", latest)
  }

  /** The start moves exactly when the chain has outgrown the default depth. */
  lemma StartDrifts(latest: nat, later: nat)
    requires latest < later
    ensures StartOf(latest) <= StartOf(later) && (StartOf(latest) != StartOf(later) <==> later > DEFAULT_DEPTH)
    ensures StartOf(later) < later && (0 < latest ==> StartOf(latest) < latest)
  {
  }

  /** What the dead run never reached is in these blocks, which the restart does not query. */
  function Skipped(chain: seq<seq<Log>>, latest: nat, later: nat): seq<Log>
    requires latest < later < |chain|
  {
    StartDrifts(latest, later);
    LogsIn(chain, StartOf(latest) + 1, StartOf(later) + 1)
  }

  function History(chain: seq<seq<Log>>, latest: nat, later: nat): seq<Log>
    requires latest < later < |chain|
  {
    StartDrifts(latest, later);
    LogsIn(chain, StartOf(latest) + 1, later + 1)
  }

  /** A run that handled `n` logs and died before it saved a cursor, and a run from scratch that completed. */
  ghost function Restart(db: Db, dir: Directory, chain: seq<seq<Log>>, latest: nat, n: nat, later: nat): Db
    requires 0 < latest < later < |chain| && n <= |LogsIn(chain, StartOf(latest) + 1, latest + 1)|
  {
    Run(Run(db, dir, LogsIn(chain, StartOf(latest) + 1, latest + 1)[..n]), dir,
        LogsIn(chain, StartOf(later) + 1, later + 1))
  }

  /** It is what two catch-ups of the service leave behind. */
  lemma RestartIsCatchUp(dir: Directory, chain: seq<seq<Log>>, name: string, latest: nat, later: nat, db: Db,
                         state: map<string, nat>,
                         db1: Db, state1: map<string, nat>, n: nat, db2: Db, state2: map<string, nat>, n2: nat)
    requires name !in state && latest < later < |chain|
    requires CaughtUp(dir, chain, name, latest, db, state, db1, state1, false, n) && name !in state1
    requires CaughtUp(dir, chain, name, later, db1, state1, db2, state2, true, n2)
    ensures 0 < latest && n <= |LogsIn(chain, StartOf(latest) + 1, latest + 1)|
            && db2 == Restart(db, dir, chain, latest, n, later)
  {
    hide Run;
    var logs := LogsIn(chain, StartOf(later) + 1, later + 1);
    assert logs[..|logs|] == logs;
  }

  /** No harm is done if the dead run had handled every skipped log. */
  lemma RestartCovers(db: Db, dir: Directory, contract: Contract, chain: seq<seq<Log>>, latest: nat, n: nat, later: nat)
    requires 0 < latest < later < |chain| && n <= |LogsIn(chain, StartOf(latest) + 1, latest + 1)|
    requires Replayable(db, History(chain, latest, later), contract) && |Skipped(chain, latest, later)| <= n
    ensures Restart(db, dir, chain, latest, n, later).rows == Run(db, dir, History(chain, latest, later)).rows
  {
    hide Run, Handle, Replayable, LogsIn, StartOf;
    StartDrifts(latest, later);
    var lo := StartOf(latest) + 1;
    var all, skipped, first := LogsIn(chain, lo, later + 1), Skipped(chain, latest, later),
        LogsIn(chain, lo, latest + 1);
    LogsInSplit(chain, lo, StartOf(later) + 1, later + 1);
    LogsInSplit(chain, lo, latest + 1, later + 1);
    assert all[0..n] == first[..n] && all[|skipped|..] == LogsIn(chain, StartOf(later) + 1, later + 1)
           && all[0..] == all;
    OnePass(db, dir, all, contract, 0, Pass(n, 0, |skipped|));
  }

  /** Otherwise whatever a skipped log would have created is missing, though a run without the crash has it. */
  lemma RestartLoses(db: Db, dir: Directory, contract: Contract, chain: seq<seq<Log>>, latest: nat, n: nat, later: nat,
                     p: nat, table: Table, x: nat)
    requires 0 < latest < later < |chain| && n <= |LogsIn(chain, StartOf(latest) + 1, latest + 1)|
    requires Replayable(db, History(chain, latest, later), contract)
    requires n <= p < |Skipped(chain, latest, later)| && Makes(Skipped(chain, latest, later)[p].event, table, x)
    requires Find(db, table, x).None?
    ensures Find(Restart(db, dir, chain, latest, n, later), table, x).None?
    ensures p < |History(chain, latest, later)| && History(chain, latest, later)[p] == Skipped(chain, latest, later)[p]
    ensures Find(Run(db, dir, History(chain, latest, later)[..p + 1]), table, x).Some? ==>
              && Find(Run(db, dir, History(chain, latest, later)), table, x).Some?
              && Restart(db, dir, chain, latest, n, later).rows != Run(db, dir, History(chain, latest, later)).rows
  {
    hide Run, Handle, Replayable, LogsIn, StartOf;
    StartDrifts(latest, later);
    var lo, mid := StartOf(latest) + 1, StartOf(later) + 1;
    var all, first, rest := LogsIn(chain, lo, later + 1), LogsIn(chain, lo, latest + 1), LogsIn(chain, mid, later + 1);
    LogsInSplit(chain, lo, mid, later + 1);
    LogsInSplit(chain, lo, latest + 1, later + 1);
    assert all[..n] == first[..n] && all[p].event == Skipped(chain, latest, later)[p].event;
    var dispatched := all[..n] + rest;
    RunAppend(db, dir, all[..n], rest);
    NotDispatched(db, dir, all, contract, n, |all| - |rest|, p, table, x);
    assert all[|all| - |rest|..] == rest;
    if Find(Run(db, dir, all[..p + 1]), table, x).Some? {
      KnownStays(db, dir, all, contract, p + 1, table, x);
      KnownDiffers(Run(db, dir, dispatched), Run(db, dir, all), table, x);
    }
  }

  lemma NotDispatched(db: Db, dir: Directory, all: seq<Log>, contract: Contract, n: nat, m: nat, p: nat, table: Table,
                      x: nat)
    requires Replayable(db, all, contract) && n <= p < m <= |all| && Makes(all[p].event, table, x)
             && Find(db, table, x).None?
    ensures Find(Run(db, dir, all[..n] + all[m..]), table, x).None?
  {
    var dispatched := all[..n] + all[m..];
    forall j | 0 <= j < |dispatched| ensures !Makes(dispatched[j].event, table, x) {
      var k := if j < n then j else m + j - n;
      assert dispatched[j] == all[k] && k != p;
      assert Makes(all[k].event, table, x) ==> (table, x) in Refs(all[k].event);
      assert (table, x) in Refs(all[p].event);
    }
    assert dispatched[..0] == [];
    NeverMade(db, dir, dispatched, 0, table, x);
  }

  lemma KnownStays(db: Db, dir: Directory, all: seq<Log>, contract: Contract, i: nat, table: Table, x: nat)
    requires Replayable(db, all, contract) && i <= |all| && Find(Run(db, dir, all[..i]), table, x).Some?
    ensures Find(Run(db, dir, all), table, x).Some?
  {
    var a, t := Run(db, dir, all[..i]), Run(db, dir, all);
    RunLater(db, dir, all, contract, i);
    var id := Find(a, table, x).value;
    assert id in t.rows && Kept(a.rows[id], t.rows[id], contract);
    assert HasChainId(t, table, x, id);
  }

  lemma KnownDiffers(d: Db, d': Db, table: Table, x: nat)
    requires Find(d, table, x).None? && Find(d', table, x).Some?
    ensures d.rows != d'.rows
  {
    assert HasChainId(d', table, x, Find(d', table, x).value);
    assert !HasChainId(d, table, x, Find(d', table, x).value);
  }

  // ── When a restart can lose a row ──

  ghost predicate LosesRows(db: Db, dir: Directory, contract: Contract, chain: seq<seq<Log>>, latest: nat, n: nat,
                            later: nat) {
    && 0 < latest < later < |chain| && n <= |LogsIn(chain, StartOf(latest) + 1, latest + 1)|
    && Replayable(db, History(chain, latest, later), contract)
    && Restart(db, dir, chain, latest, n, later).rows != Run(db, dir, History(chain, latest, later)).rows
  }

  /** One log in a chain of empty blocks. */
  function OneLog(length: nat, at: nat, log: Log): seq<seq<Log>> {
    seq(length, i => if i == at then [log] else [])
  }

  predicate HasOneLog(chain: seq<seq<Log>>, at: nat, log: Log) {
    forall b :: 0 <= b < |chain| ==> chain[b] == if b == at then [log] else []
  }

  lemma {:induction false} OneLogIn(chain: seq<seq<Log>>, at: nat, log: Log, lo: nat, hi: nat)
    requires lo <= hi <= |chain| && HasOneLog(chain, at, log)
    ensures LogsIn(chain, lo, hi) == if lo <= at < hi then [log] else []
    decreases hi
  {
    if lo < hi {
      OneLogIn(chain, at, log, lo, hi - 1);
      assert chain[hi - 1] == if hi - 1 == at then [log] else [];
    }
  }

  const OWNED: Db := Db(map[0 := Row(Ownerships, map[OnChainId := Num(2)])], map[], 1)
  const REQUEST: Log := Log(0, 0, XferInit(1, 2, "", ""))

  lemma OwnedSound()
    ensures Sound(OWNED) && OWNED.rows.Keys == {0} && OWNED.rows[0].table == Ownerships
            && At(OWNED.rows[0], OnChainId) == Num(2)
  {
  }

  lemma RequestReplayable()
    ensures Replayable(OWNED, [REQUEST], OwnershipToken)
  {
    OwnedSound();
    OwnershipReplayable(OWNED, [REQUEST]);
  }

  lemma RequestCreates(dir: Directory)
    ensures Run(OWNED, dir, [REQUEST]).rows != OWNED.rows
  {
    hide Handle, Sound, CreateData;
    OwnedSound();
    assert HasChainId(OWNED, Ownerships, 2, 0);
    var e := MakeEffect(OWNED, dir, TxOf(OWNED, 0), REQUEST.event);
    assert Find(OWNED, Transfers, 1).None? && Parents(OWNED, dir, None, REQUEST.event)
           && Linked(None, REQUEST.event).None?;
    assert e == CreateRow(Transfers, CreateData(OWNED, dir, None, REQUEST.event));
    MakeHandle(OWNED, dir, REQUEST);
    RunOne(OWNED, dir, REQUEST);
    assert 1 in Run(OWNED, dir, [REQUEST]).rows;
  }

  /** A crash before the first cursor write can lose rows exactly when the chain has grown beyond the default depth by
      the time of the restart. */
  lemma FirstCatchUpLosesExactly(latest: nat, later: nat, dir: Directory)
    requires 0 < latest < later
    ensures (exists db, contract, chain, n :: LosesRows(db, dir, contract, chain, latest, n, later)) <==>
            later > DEFAULT_DEPTH
  {
    StartDrifts(latest, later);
    if later > DEFAULT_DEPTH {
      DriftLoses(latest, later, dir);
    } else {
      forall db, contract, chain, n ensures !LosesRows(db, dir, contract, chain, latest, n, later) {
        if LosesRows(db, dir, contract, chain, latest, n, later) {
          assert Skipped(chain, latest, later) == [];
          RestartCovers(db, dir, contract, chain, latest, n, later);
        }
      }
    }
  }

  lemma DriftLoses(latest: nat, later: nat, dir: Directory)
    requires 0 < latest < later && later > DEFAULT_DEPTH
    ensures exists db, contract, chain, n :: LosesRows(db, dir, contract, chain, latest, n, later)
  {
    hide Run, Handle, Replayable, LogsIn;
    StartDrifts(latest, later);
    var lo, mid := StartOf(latest) + 1, StartOf(later) + 1;
    var chain := OneLog(later + 1, lo, REQUEST);
    assert HasOneLog(chain, lo, REQUEST);
    RequestReplayable();
    RequestCreates(dir);
    OneLogIn(chain, lo, REQUEST, lo, later + 1);
    OneLogIn(chain, lo, REQUEST, lo, latest + 1);
    OneLogIn(chain, lo, REQUEST, mid, later + 1);
    RunNothing(OWNED, dir);
    assert LosesRows(OWNED, dir, OwnershipToken, chain, latest, 0, later);
  }
}

/** When signing queues the execution of a proposal: each sign call counts the signatures it read and its own, so calls
    that overlap can all miss the threshold. */
module SafeSigning {
  import opened Tables
  import opened SafeGovernance

  /** Moves of sign calls and of cancellations. */
  predicate OfSigners(m: Move) {
    m.SignRead? || m.SignInsert? || m.SignDecide? || m.Enqueue? || m.CancelRead? || m.CancelWrite?
  }

  predicate AllOfSigners(moves: seq<Move>) {
    forall i :: 0 <= i < |moves| ==> OfSigners(moves[i])
  }

  // ── One job for each signer who read late enough ──

  /** A signer who reads the proposal when his signature makes enough. */
  predicate ReadsLate(s: State, m: Move) {
    m.SignRead? && |s.signers| + 1 >= s.threshold
  }

  /** A call that will queue a job. */
  predicate Late(threshold: nat, call: Call) {
    match call
    case Signing(seen) => seen + 1 >= threshold
    case Signed(seen) => seen + 1 >= threshold
    case _ => call == Queueing
  }

  ghost function Due(s: State): set<nat> {
    set c | c in s.calls && Late(s.threshold, s.calls[c])
  }

  /** The signers of a run who read late enough. */
  ghost function LateReads(s: State, chain: Verdicts, moves: seq<Move>): nat
    requires RunOk(s, chain, moves)
    decreases |moves|
  {
    if moves == [] then 0
    else (if ReadsLate(s, moves[0]) then 1 else 0) + LateReads(Step(s, chain, moves[0]), chain, moves[1..])
  }

  ghost predicate LateReadAt(s: State, chain: Verdicts, moves: seq<Move>, i: nat)
    requires RunOk(s, chain, moves) && i < |moves|
    decreases |moves|
  {
    if i == 0 then ReadsLate(s, moves[0]) else LateReadAt(Step(s, chain, moves[0]), chain, moves[1..], i - 1)
  }

  predicate IsDue(s: State, c: nat) {
    c in s.calls && Late(s.threshold, s.calls[c])
  }

  lemma CountOne(a: set<nat>, b: set<nat>, c: nat)
    requires a - {c} == b - {c}
    ensures |a| + (if c in b then 1 else 0) == |b| + if c in a then 1 else 0
  {
    assert a == if c in a then (a - {c}) + {c} else a - {c};
    assert b == if c in b then (b - {c}) + {c} else b - {c};
  }

  predicate SameElsewhere(s: State, t: State, c: nat) {
    && t.threshold == s.threshold
    && (forall k :: k in t.calls && k != c ==> k in s.calls && t.calls[k] == s.calls[k])
    && (forall k :: k in s.calls && k != c ==> k in t.calls)
  }

  /** Only one call has changed. */
  lemma DueCount(s: State, t: State, c: nat)
    requires SameElsewhere(s, t, c)
    ensures |Due(t)| + (if IsDue(s, c) then 1 else 0) == |Due(s)| + if IsDue(t, c) then 1 else 0
  {
    hide Late;
    assert Due(t) - {c} == Due(s) - {c};
    CountOne(Due(t), Due(s), c);
  }

  lemma OneCall(s: State, chain: Verdicts, m: Move)
    requires Enabled(s, chain, m) && OfSigners(m)
    ensures SameElsewhere(s, Step(s, chain, m), m.c)
  {
  }

  lemma StepDue(s: State, chain: Verdicts, m: Move)
    requires Enabled(s, chain, m) && OfSigners(m)
    ensures var t := Step(s, chain, m); |t.jobs| + |Due(t)| == |s.jobs| + |Due(s)| + if ReadsLate(s, m) then 1 else 0
  {
    hide Due;
    OneCall(s, chain, m);
    DueCount(s, Step(s, chain, m), m.c);
  }

  lemma {:induction false} JobsAreLateReads(s: State, chain: Verdicts, moves: seq<Move>)
    requires RunOk(s, chain, moves) && AllOfSigners(moves)
    ensures var t := After(s, chain, moves); |t.jobs| + |Due(t)| == |s.jobs| + |Due(s)| + LateReads(s, chain, moves)
    decreases |moves|
  {
    hide Step, Enabled, Due;
    if moves != [] {
      StepDue(s, chain, moves[0]);
      JobsAreLateReads(Step(s, chain, moves[0]), chain, moves[1..]);
    }
  }

  lemma {:induction false} LateReadCounts(s: State, chain: Verdicts, moves: seq<Move>, i: nat)
    requires RunOk(s, chain, moves) && i < |moves| && LateReadAt(s, chain, moves, i)
    ensures LateReads(s, chain, moves) > 0
    decreases |moves|
  {
    hide Step, Enabled;
    if i > 0 { LateReadCounts(Step(s, chain, moves[0]), chain, moves[1..], i - 1); }
  }

  lemma {:induction false} LateReadFound(s: State, chain: Verdicts, moves: seq<Move>) returns (i: nat)
    requires RunOk(s, chain, moves) && LateReads(s, chain, moves) > 0
    ensures i < |moves| && LateReadAt(s, chain, moves, i)
    decreases |moves|
  {
    hide Step, Enabled;
    if ReadsLate(s, moves[0]) {
      i := 0;
    } else {
      i := LateReadFound(Step(s, chain, moves[0]), chain, moves[1..]);
      i := i + 1;
    }
  }

  /** Whatever the threshold and however many signers: once all calls have decided there is one job for each signer who
      read at least `threshold - 1` signatures, so a job is queued exactly when there was such a signer. */
  lemma QueuedExactlyByLateReaders(threshold: nat, chain: Verdicts, moves: seq<Move>)
    requires RunOk(Proposed(threshold), chain, moves) && AllOfSigners(moves)
    requires After(Proposed(threshold), chain, moves).calls == map[]
    ensures var s := Proposed(threshold);
            && |After(s, chain, moves).jobs| == LateReads(s, chain, moves)
            && (After(s, chain, moves).jobs != multiset{} <==>
                  exists i :: 0 <= i < |moves| && LateReadAt(s, chain, moves, i))
  {
    JobsAreLateReads(Proposed(threshold), chain, moves);
    if LateReads(Proposed(threshold), chain, moves) > 0 { var i := LateReadFound(Proposed(threshold), chain, moves); }
    forall i: nat | i < |moves| && LateReadAt(Proposed(threshold), chain, moves, i)
      ensures LateReads(Proposed(threshold), chain, moves) > 0
    {
      LateReadCounts(Proposed(threshold), chain, moves, i);
    }
    assert Due(Proposed(threshold)) == {} && Due(After(Proposed(threshold), chain, moves)) == {};
  }

  // ── Signers one after the other ──

  /** A sign call before it has decided. */
  predicate Undecided(call: Call) {
    call.Signing? || call.Signed?
  }

  /** No signer reads while another has not decided. */
  ghost predicate OneByOne(s: State, chain: Verdicts, moves: seq<Move>)
    requires RunOk(s, chain, moves)
    decreases |moves|
  {
    moves != [] ==>
      && (moves[0].SignRead? ==> forall c :: c in s.calls ==> !Undecided(s.calls[c]))
      && OneByOne(Step(s, chain, moves[0]), chain, moves[1..])
  }

  /** The one undecided signer has counted right, and enough signatures mean a job, queued or due. */
  ghost predicate CountedRight(s: State) {
    && (forall c, c' :: c in s.calls && c' in s.calls && Undecided(s.calls[c]) && Undecided(s.calls[c']) ==> c == c')
    && (forall c :: c in s.calls && Undecided(s.calls[c]) ==>
          |s.signers| == s.calls[c].seen + if s.calls[c].Signed? then 1 else 0)
    && (|s.signers| >= s.threshold ==> s.jobs != multiset{} || exists c :: c in s.calls && Decisive(s, c))
  }

  predicate Decisive(s: State, c: nat)
    requires c in s.calls
  {
    s.calls[c] == Queueing || (s.calls[c].Signed? && s.calls[c].seen + 1 >= s.threshold)
  }

  lemma StepCountedRight(s: State, chain: Verdicts, m: Move)
    requires CountedRight(s) && Enabled(s, chain, m) && OfSigners(m) && s.threshold > 0
    requires m.SignRead? ==> forall c :: c in s.calls ==> !Undecided(s.calls[c])
    ensures CountedRight(Step(s, chain, m)) && Step(s, chain, m).threshold == s.threshold
  {
    hide Authorised;
    var t := Step(s, chain, m);
    SignersGrow(s, chain, m);
    if |t.signers| >= t.threshold && t.jobs == multiset{} {
      if m.SignInsert? {
        assert Decisive(t, m.c);
      } else {
        var c :| c in s.calls && Decisive(s, c);
        assert Decisive(t, c);
      }
    }
  }

  lemma {:induction false} CountedRightAfter(s: State, chain: Verdicts, moves: seq<Move>)
    requires RunOk(s, chain, moves) && AllOfSigners(moves) && OneByOne(s, chain, moves) && CountedRight(s)
             && s.threshold > 0
    ensures CountedRight(After(s, chain, moves)) && After(s, chain, moves).threshold == s.threshold
    decreases |moves|
  {
    hide Step, Enabled, CountedRight;
    if moves != [] {
      StepCountedRight(s, chain, moves[0]);
      CountedRightAfter(Step(s, chain, moves[0]), chain, moves[1..]);
    }
  }

  /** Sign calls that do not overlap queue the execution exactly when the threshold is reached. */
  lemma OneByOneQueues(threshold: nat, chain: Verdicts, moves: seq<Move>)
    requires threshold > 0 && RunOk(Proposed(threshold), chain, moves) && AllOfSigners(moves)
    requires OneByOne(Proposed(threshold), chain, moves) && After(Proposed(threshold), chain, moves).calls == map[]
    ensures var t := After(Proposed(threshold), chain, moves); t.jobs != multiset{} <==> |t.signers| >= threshold
  {
    hide Step, Enabled;
    CountedRightAfter(Proposed(threshold), chain, moves);
    ProposedIsFine(threshold, chain);
    EverySubmissionIsAuthorised(Proposed(threshold), chain, moves);
  }

  // ── Signers at the same time ──

  /** Distinct wallets. */
  predicate Distinct(wallets: seq<string>) {
    forall i, j :: 0 <= i < j < |wallets| ==> wallets[i] != wallets[j]
  }

  function Wallets(wallets: seq<string>): set<string> {
    set w | w in wallets
  }

  function Between(lo: nat, hi: nat): (ids: set<nat>)
    ensures forall c :: c in ids <==> lo <= c < hi
  {
    if lo >= hi then {} else Between(lo, hi - 1) + {hi - 1}
  }

  /** The first `read` signers have read the fresh proposal, the first `signed` have signed, the first `decided` are
      through. */
  function Together(threshold: nat, wallets: seq<string>, read: nat, signed: nat, decided: nat): State
    requires signed <= |wallets|
  {
    var calls := map c | c in Between(decided, read) :: if c < signed then Signed(0) else Signing(0);
    State(threshold, Collecting, Wallets(wallets[..signed]), multiset{}, None, calls, [])
  }

  ghost predicate Gets(threshold: nat, chain: Verdicts, t: State) {
    exists moves :: Reaches(Proposed(threshold), chain, moves, t) && AllOfSigners(moves)
  }

  lemma GetsOn(threshold: nat, chain: Verdicts, t: State, m: Move)
    requires Gets(threshold, chain, t) && Enabled(t, chain, m) && OfSigners(m)
    ensures Gets(threshold, chain, Step(t, chain, m))
  {
    var moves :| Reaches(Proposed(threshold), chain, moves, t) && AllOfSigners(moves);
    ReachesMore(Proposed(threshold), chain, moves, t, m);
    assert AllOfSigners(moves + [m]);
  }

  /** The next signer reads, signs, or decides. */
  lemma NextTogether(chain: Verdicts, threshold: nat, wallets: seq<string>, k: nat)
    requires Distinct(wallets) && k < |wallets| && threshold >= 2
    ensures NextIs(chain, Together(threshold, wallets, k, 0, 0), SignRead(k), Together(threshold, wallets, k + 1, 0, 0))
    ensures NextIs(chain, Together(threshold, wallets, |wallets|, k, 0), SignInsert(k, wallets[k]),
                   Together(threshold, wallets, |wallets|, k + 1, 0))
    ensures NextIs(chain, Together(threshold, wallets, |wallets|, |wallets|, k), SignDecide(k),
                   Together(threshold, wallets, |wallets|, |wallets|, k + 1))
  {
    ReadNext(chain, threshold, wallets, k);
    SignNext(chain, threshold, wallets, k);
    DecideNext(chain, threshold, wallets, k);
  }

  ghost predicate NextIs(chain: Verdicts, s: State, m: Move, t: State) {
    Enabled(s, chain, m) && Step(s, chain, m) == t
  }

  lemma ReadNext(chain: Verdicts, threshold: nat, wallets: seq<string>, k: nat)
    ensures NextIs(chain, Together(threshold, wallets, k, 0, 0), SignRead(k), Together(threshold, wallets, k + 1, 0, 0))
  {
    var s, t := Together(threshold, wallets, k, 0, 0), Together(threshold, wallets, k + 1, 0, 0);
    assert t.calls == s.calls[k := Signing(0)];
  }

  lemma SignNext(chain: Verdicts, threshold: nat, wallets: seq<string>, k: nat)
    requires Distinct(wallets) && k < |wallets|
    ensures NextIs(chain, Together(threshold, wallets, |wallets|, k, 0), SignInsert(k, wallets[k]),
                   Together(threshold, wallets, |wallets|, k + 1, 0))
  {
    var s, t := Together(threshold, wallets, |wallets|, k, 0), Together(threshold, wallets, |wallets|, k + 1, 0);
    assert wallets[..k + 1] == wallets[..k] + [wallets[k]];
    assert t.signers == s.signers + {wallets[k]};
    assert t.calls == s.calls[k := Signed(0)];
  }

  lemma DecideNext(chain: Verdicts, threshold: nat, wallets: seq<string>, k: nat)
    requires k < |wallets| && threshold >= 2
    ensures NextIs(chain, Together(threshold, wallets, |wallets|, |wallets|, k), SignDecide(k),
                   Together(threshold, wallets, |wallets|, |wallets|, k + 1))
  {
    var s, t := Together(threshold, wallets, |wallets|, |wallets|, k),
        Together(threshold, wallets, |wallets|, |wallets|, k + 1);
    assert t.calls == s.calls - {k};
  }

  lemma GetsStart(threshold: nat, chain: Verdicts)
    ensures Gets(threshold, chain, Proposed(threshold))
  {
    ReachesNothing(Proposed(threshold), chain);
    assert AllOfSigners([]);
  }

  /** All read, then all sign, then all decide. */
  lemma {:induction false} AllTogether(chain: Verdicts, threshold: nat, wallets: seq<string>, read: nat, signed: nat,
                                       decided: nat)
    requires Distinct(wallets) && threshold >= 2 && decided <= signed <= read <= |wallets|
    requires (signed > 0 ==> read == |wallets|) && (decided > 0 ==> signed == |wallets|)
    ensures Gets(threshold, chain, Together(threshold, wallets, read, signed, decided))
  {
    hide Gets, Together, Step, Enabled;
    if decided > 0 {
      AllTogether(chain, threshold, wallets, read, signed, decided - 1);
      NextTogether(chain, threshold, wallets, decided - 1);
      GetsOn(threshold, chain, Together(threshold, wallets, read, signed, decided - 1), SignDecide(decided - 1));
    } else if signed > 0 {
      AllTogether(chain, threshold, wallets, read, signed - 1, 0);
      NextTogether(chain, threshold, wallets, signed - 1);
      GetsOn(threshold, chain, Together(threshold, wallets, read, signed - 1, 0),
             SignInsert(signed - 1, wallets[signed - 1]));
    } else if read > 0 {
      AllTogether(chain, threshold, wallets, read - 1, 0, 0);
      NextTogether(chain, threshold, wallets, read - 1);
      GetsOn(threshold, chain, Together(threshold, wallets, read - 1, 0, 0), SignRead(read - 1));
    } else {
      GetsStart(threshold, chain);
      NoneYet(threshold, wallets);
    }
  }

  lemma NoneYet(threshold: nat, wallets: seq<string>)
    ensures Together(threshold, wallets, 0, 0, 0) == Proposed(threshold)
  {
  }

  /** Any number of signers who read a fresh proposal at the same time all sign, and with a threshold of two or more the
      proposal stays PENDING, nothing is under way and no job is queued. */
  lemma ConcurrentSignersStall(chain: Verdicts, threshold: nat, wallets: seq<string>)
    requires threshold >= 2 && Distinct(wallets)
    ensures Gets(threshold, chain, State(threshold, Collecting, Wallets(wallets), multiset{}, None, map[], []))
  {
    AllTogether(chain, threshold, wallets, |wallets|, |wallets|, |wallets|);
    assert wallets[..|wallets|] == wallets;
    assert Together(threshold, wallets, |wallets|, |wallets|, |wallets|) == State(threshold, Collecting,
                Wallets(wallets), multiset{}, None, map[], []);
  }

  /** Everybody has decided, there are enough signatures, and no job is queued. */
  ghost predicate Stalled(t: State) {
    t.calls == map[] && |t.signers| >= t.threshold && t.jobs == multiset{}
  }

  lemma {:induction false} Names(n: nat) returns (wallets: seq<string>)
    ensures |wallets| == n && Distinct(wallets) && |Wallets(wallets)| == n
    ensures forall w :: w in wallets ==> |w| < n
  {
    if n == 0 {
      wallets := [];
    } else {
      var fewer := Names(n - 1);
      var last := seq(n - 1, _ => 'x');
      wallets := fewer + [last];
      assert Wallets(wallets) == Wallets(fewer) + {last};
    }
  }

  lemma AlwaysLate(s: State, chain: Verdicts, m: Move)
    requires s.threshold == 1 && Enabled(s, chain, m) && OfSigners(m) && (s.signers != {} ==> |s.jobs| + |Due(s)| > 0)
    ensures var t := Step(s, chain, m); t.threshold == 1 && (t.signers != {} ==> |t.jobs| + |Due(t)| > 0)
  {
    StepDue(s, chain, m);
    if m.SignInsert? { assert m.c in Due(s); }
  }

  lemma {:induction false} SingleSignatureQueues(s: State, chain: Verdicts, moves: seq<Move>)
    requires s.threshold == 1 && (s.signers != {} ==> |s.jobs| + |Due(s)| > 0) && RunOk(s, chain, moves)
             && AllOfSigners(moves)
    ensures !Stalled(After(s, chain, moves))
    decreases |moves|
  {
    hide Step, Enabled;
    if moves == [] {
      assert s.calls == map[] ==> Due(s) == {};
    } else {
      AlwaysLate(s, chain, moves[0]);
      SingleSignatureQueues(Step(s, chain, moves[0]), chain, moves[1..]);
    }
  }

  /** Signing can stall exactly when more than one signature is asked for. */
  lemma StallsExactlyFromTwo(chain: Verdicts, threshold: nat)
    requires threshold > 0
    ensures (exists t :: Gets(threshold, chain, t) && Stalled(t)) <==> threshold >= 2
  {
    if threshold >= 2 {
      var wallets := Names(threshold);
      ConcurrentSignersStall(chain, threshold, wallets);
      assert Stalled(State(threshold, Collecting, Wallets(wallets), multiset{}, None, map[], []));
    } else if t :| Gets(threshold, chain, t) && Stalled(t) {
      var moves :| Reaches(Proposed(threshold), chain, moves, t) && AllOfSigners(moves);
      SingleSignatureQueues(Proposed(threshold), chain, moves);
    }
  }
}

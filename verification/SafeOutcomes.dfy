/** What a Safe proposal can still become: the convergence of the three recovery layers, and exactly when a proposal
    that is EXECUTED or CANCELLED can leave that status again. */
module SafeOutcomes {
  import opened Tables
  import opened SafeGovernance

  // ── Crash convergence ──

  ghost predicate Converged(s: State, h: Hash) {
    s.status == Executed && s.record == Some(Record(h, Mined))
  }

  /** A recorded hash stays the record, and submitted hashes stay submitted. */
  lemma {:induction false} RecordKept(s: State, chain: Verdicts, moves: seq<Move>)
    requires RunOk(s, chain, moves)
    ensures var t := After(s, chain, moves);
            && (s.record.Some? ==> t.record.Some? && t.record.value.hash == s.record.value.hash)
            && s.submissions <= t.submissions
    decreases |moves|
  {
    hide Step, Enabled;
    if moves != [] {
      RecordStays(s, chain, moves[0]);
      SubmissionsGrow(s, chain, moves[0]);
      RecordKept(Step(s, chain, moves[0]), chain, moves[1..]);
    }
  }

  lemma SubmissionsGrow(s: State, chain: Verdicts, m: Move)
    requires Enabled(s, chain, m)
    ensures s.submissions <= Step(s, chain, m).submissions
  {
  }

  /** From the moment the hash of a mined attempt is recorded, whatever dies, throws, signs, cancels or retries
      meanwhile: a pending record can be swept, and the sweep, the receipt and the indexer each end in the same status
      and the same record. */
  lemma OneSweepConverges(s: State, chain: Verdicts, moves: seq<Move>, c: nat)
    requires s.record.Some? && Mines(chain, s.record.value.hash) && RunOk(s, chain, moves)
    ensures var t, h := After(s, chain, moves), s.record.value.hash;
            && t.record.Some? && t.record.value.hash == h
            && (t.record.value.sync == Pending && c !in t.calls ==>
                  Enabled(t, chain, SweepRead(c)) && InCall(Step(t, chain, SweepRead(c)), c, Sweeping(h)))
            && (InCall(t, c, Sweeping(h)) ==> Enabled(t, chain, SweepSettle(c))
                                              && Converged(Step(t, chain, SweepSettle(c)), h))
            && (c in t.calls && t.calls[c].Waiting? && t.calls[c].hash == h ==>
                  Enabled(t, chain, Receipt(c)) && Converged(Step(t, chain, Receipt(c)), h))
            && (SubmittedHash(s, h) && chain[h] == InnerOk ==>
                  Enabled(t, chain, IndexSuccess(h)) && Converged(Step(t, chain, IndexSuccess(h)), h))
  {
    hide RunOk, After;
    RecordKept(s, chain, moves);
    StillSubmitted(s, After(s, chain, moves), s.record.value.hash);
  }

  lemma StillSubmitted(s: State, t: State, h: Hash)
    requires s.submissions <= t.submissions
    ensures SubmittedHash(s, h) ==> SubmittedHash(t, h)
  {
    if i :| 0 <= i < |s.submissions| && s.submissions[i].0 == h {
      assert t.submissions[i] == s.submissions[i];
    }
  }

  /** A record that is no longer pending has been through one of the three layers, or the inner call has failed. */
  lemma {:induction false} SettledByALayer(s: State, chain: Verdicts, moves: seq<Move>) returns (k: nat)
    requires Justified(s, chain) && RunOk(s, chain, moves)
    requires s.record.Some? && s.record.value.sync == Pending && Mines(chain, s.record.value.hash)
    ensures k <= |moves| && RunOk(s, chain, moves[..k])
    ensures var t, h := After(s, chain, moves), s.record.value.hash;
            t.record.Some? &&
            match t.record.value.sync
            case Pending => true
            case Mined => Converged(After(s, chain, moves[..k]), h) || chain[h] == InnerFailed
            case Failed => chain[h] == InnerFailed
    decreases |moves|
  {
    hide Step, Enabled, Justified;
    k := 0;
    if moves != [] {
      var s' := Step(s, chain, moves[0]);
      StepJustified(s, chain, moves[0]);
      RecordKept(s', chain, moves[1..]);
      FirstSettled(s, chain, moves[0]);
      if s'.record.value.sync == Pending {
        k := SettledByALayer(s', chain, moves[1..]);
        Prepend(s, chain, moves[0], moves[1..][..k]);
        assert [moves[0]] + moves[1..][..k] == moves[..k + 1];
        k := k + 1;
      } else {
        Prepend(s, chain, moves[0], []);
        assert [moves[0]] + [] == moves[..1];
        k := 1;
        ExecutedIsJustified(s', chain, moves[1..]);
        FailedIsInner(After(s', chain, moves[1..]), chain);
      }
    }
  }

  lemma FailedIsInner(t: State, chain: Verdicts)
    requires Justified(t, chain) && t.record.Some? && Mines(chain, t.record.value.hash)
    ensures t.record.value.sync == Failed ==> chain[t.record.value.hash] == InnerFailed
  {
  }

  lemma FirstSettled(s: State, chain: Verdicts, m: Move)
    requires Enabled(s, chain, m) && Justified(s, chain)
    requires s.record.Some? && s.record.value.sync == Pending && Mines(chain, s.record.value.hash)
    ensures var s', h := Step(s, chain, m), s.record.value.hash;
            s'.record.Some? && match s'.record.value.sync
                               case Pending => true
                               case Mined => Converged(s', h)
                               case Failed => chain[h] == InnerFailed
  {
    assert m.IndexFailureWrite? ==> CallJustified(s, chain, s.calls[m.c]);
  }

  /** A recorded attempt that failed ends as EXECUTION_FAILED and FAILED: by the sweep when all of it reverted, by the
      indexer when the inner call did. */
  lemma FailureIsRecorded(s: State, chain: Verdicts, c: nat)
    requires s.record.Some? && c !in s.calls && s.record.value.hash in chain
    ensures var h := s.record.value.hash;
            && (s.record.value.sync == Pending && chain[h] == OuterReverted ==>
                  var t := AfterThree(s, chain, SweepRead(c), SweepSettle(c), SweepUndo(c));
                  t.Some? && t.value == s.(status := ExecutionFailed, record := Some(Record(h, Failed))))
            && (SubmittedHash(s, h) && chain[h] == InnerFailed && s.status != Executed ==>
                  Enabled(s, chain, IndexFailureRead(c, h))
                  && var t := Step(s, chain, IndexFailureRead(c, h));
                     && Enabled(t, chain, IndexFailureWrite(c))
                     && Step(t, chain, IndexFailureWrite(c)) ==
                        s.(status := ExecutionFailed, record := Some(Record(h, Failed))))
  {
    var h := s.record.value.hash;
    assert s.calls[c := NotingFailure(h)] - {c} == s.calls[c := Sweeping(h)][c := Undoing] - {c} == s.calls;
  }

  /** Three moves in a row, if they are possible. */
  function AfterThree(s: State, chain: Verdicts, m: Move, m': Move, m'': Move): Option<State> {
    if !Enabled(s, chain, m) then None else
    var t := Step(s, chain, m);
    if !Enabled(t, chain, m') then None else
    var t' := Step(t, chain, m');
    if !Enabled(t', chain, m'') then None else Some(Step(t', chain, m''))
  }

  // ── Runs that leave a status ──

  /** Some run from `s` ends in another status than `from`. */
  ghost predicate CanLeave(s: State, chain: Verdicts, from: ProposalStatus) {
    exists moves :: RunOk(s, chain, moves) && After(s, chain, moves).status != from
  }

  lemma Left(s: State, chain: Verdicts, from: ProposalStatus)
    requires s.status != from
    ensures CanLeave(s, chain, from)
  {
    assert RunOk(s, chain, []) && After(s, chain, []) == s;
  }

  lemma LeavesBy(s: State, chain: Verdicts, from: ProposalStatus, m: Move)
    requires Enabled(s, chain, m) && CanLeave(Step(s, chain, m), chain, from)
    ensures CanLeave(s, chain, from)
  {
    var rest :| RunOk(Step(s, chain, m), chain, rest) && After(Step(s, chain, m), chain, rest).status != from;
    Prepend(s, chain, m, rest);
  }

  predicate Attempting(call: Call) {
    call.Executing? || call.Submitted? || call.Waiting? || call.Failing?
  }

  /** The attempt is the last of its job. */
  predicate LastAttempt(call: Call)
    requires Attempting(call)
  {
    call.made + 1 >= ATTEMPTS
  }

  /** How far an attempt is from having thrown. */
  function Ahead(call: Call): nat {
    if call.Failing? then 0 else if call.Submitted? then 2 else 1
  }

  /** The move by which an attempt throws, or comes nearer to it. */
  function Onward(c: nat, call: Call): Move {
    if call.Submitted? then RecordTx(c) else Throw(c)
  }

  lemma OnwardStays(s: State, chain: Verdicts, c: nat)
    requires c in s.calls && Attempting(s.calls[c]) && !s.calls[c].Failing?
    ensures var m := Onward(c, s.calls[c]);
            && Enabled(s, chain, m)
            && var t := Step(s, chain, m);
               && t.status == s.status && c in t.calls && Attempting(t.calls[c])
               && t.calls[c].made == s.calls[c].made && Ahead(t.calls[c]) < Ahead(s.calls[c])
  {
  }

  /** The last attempt of a job, wherever it is, may throw, and then the proposal is marked as failed. */
  lemma LastAttemptLeaves(s: State, chain: Verdicts, from: ProposalStatus, c: nat)
    requires c in s.calls && Attempting(s.calls[c]) && LastAttempt(s.calls[c]) && from != ExecutionFailed
    ensures CanLeave(s, chain, from)
    decreases Ahead(s.calls[c])
  {
    hide CanLeave;
    if s.calls[c].Failing? {
      WriterLeaves(s, chain, from, GiveUp(c));
    } else {
      OnwardStays(s, chain, c);
      LastAttemptLeaves(Step(s, chain, Onward(c, s.calls[c])), chain, from, c);
      LeavesBy(s, chain, from, Onward(c, s.calls[c]));
    }
  }

  lemma {:induction false} Longer(wallets: set<string>) returns (wallet: string)
    ensures forall w :: w in wallets ==> |w| < |wallet|
  {
    if wallets == {} {
      wallet := "";
    } else {
      var w :| w in wallets;
      var other := Longer(wallets - {w});
      wallet := w + other + "x";
    }
  }

  lemma {:induction false} Above(ids: set<nat>) returns (n: nat)
    ensures forall id :: id in ids ==> id < n
  {
    if ids == {} {
      n := 0;
    } else {
      var id :| id in ids;
      var m := Above(ids - {id});
      n := if id < m then m else id + 1;
      assert forall i :: i in ids ==> i == id || i in ids - {id};
    }
  }

  /** One write is enough. */
  lemma WriterLeaves(s: State, chain: Verdicts, from: ProposalStatus, m: Move)
    requires Enabled(s, chain, m) && Step(s, chain, m).status != from
    ensures CanLeave(s, chain, from)
  {
    hide CanLeave;
    Left(Step(s, chain, m), chain, from);
    LeavesBy(s, chain, from, m);
  }

  /** A signer who counts enough signatures moves the proposal, even if the last of them is his own. */
  lemma SignerLeaves(s: State, chain: Verdicts, from: ProposalStatus, c: nat)
    requires c in s.calls && from != ThresholdMet
    requires (s.calls[c].Signing? || s.calls[c].Signed?) && s.calls[c].seen + 1 >= s.threshold
    ensures CanLeave(s, chain, from)
    decreases s.calls[c].Signing?
  {
    hide CanLeave;
    if s.calls[c].Signed? {
      WriterLeaves(s, chain, from, SignDecide(c));
    } else {
      var wallet := Longer(s.signers);
      SignerLeaves(Step(s, chain, SignInsert(c, wallet)), chain, from, c);
      LeavesBy(s, chain, from, SignInsert(c, wallet));
    }
  }

  // ── EXECUTED ──

  /** Calls that read the proposal earlier and may still write over EXECUTED. */
  predicate MayOverwrite(s: State, call: Call) {
    match call
    case Cancelling => true
    case Executing(_, _) | Submitted(_, _) | Waiting(_, _) | Failing(_) => LastAttempt(call)
    case Signing(seen) => seen + 1 >= s.threshold
    case Signed(seen) => seen + 1 >= s.threshold
    case NotingFailure(h) => s.record.Some? && s.record.value.hash == h
    case Queueing | Sweeping(_) | Undoing => false
  }

  ghost predicate Final(s: State, chain: Verdicts) {
    && s.status == Executed && Justified(s, chain)
    && forall c :: c in s.calls ==> !MayOverwrite(s, s.calls[c])
  }

  lemma StepFinal(s: State, chain: Verdicts, m: Move)
    requires Final(s, chain) && Enabled(s, chain, m)
    ensures Final(Step(s, chain, m), chain)
  {
    StepJustified(s, chain, m);
    var t := Step(s, chain, m);
    StaysExecuted(s, chain, m);
    forall c | c in t.calls ensures !MayOverwrite(t, t.calls[c]) {
      FinalCall(s, chain, m, c);
    }
  }

  lemma StaysExecuted(s: State, chain: Verdicts, m: Move)
    requires Final(s, chain) && Enabled(s, chain, m)
    ensures Step(s, chain, m).status == Executed
  {
    assert forall c :: c in s.calls ==> CallJustified(s, chain, s.calls[c]);
  }

  lemma FinalCall(s: State, chain: Verdicts, m: Move, c: nat)
    requires Final(s, chain) && Enabled(s, chain, m) && c in Step(s, chain, m).calls
    ensures !MayOverwrite(Step(s, chain, m), Step(s, chain, m).calls[c])
  {
    if c in s.calls && Step(s, chain, m).calls[c] == s.calls[c] {
      QuietCall(s, chain, m, s.calls[c]);
    } else {
      NewCall(s, chain, m, c);
    }
  }

  /** A call that is left alone cannot overwrite now if it could not before. */
  lemma QuietCall(s: State, chain: Verdicts, m: Move, call: Call)
    requires Final(s, chain) && Enabled(s, chain, m) && !MayOverwrite(s, call)
    ensures !MayOverwrite(Step(s, chain, m), call)
  {
    hide Step;
    RecordStays(s, chain, m);
    SignersOf(s, chain, m);
  }

  lemma NewCall(s: State, chain: Verdicts, m: Move, c: nat)
    requires Final(s, chain) && Enabled(s, chain, m) && c in Step(s, chain, m).calls
             && (c in s.calls ==> Step(s, chain, m).calls[c] != s.calls[c])
    ensures !MayOverwrite(Step(s, chain, m), Step(s, chain, m).calls[c])
  {
    assert c in s.calls ==> CallJustified(s, chain, s.calls[c]);
  }

  lemma {:induction false} FinalStays(s: State, chain: Verdicts, moves: seq<Move>)
    requires Final(s, chain) && RunOk(s, chain, moves)
    ensures After(s, chain, moves).status == Executed
    decreases |moves|
  {
    hide Step, Enabled;
    if moves != [] {
      StepFinal(s, chain, moves[0]);
      FinalStays(Step(s, chain, moves[0]), chain, moves[1..]);
    }
  }

  /** EXECUTED can be left by some run exactly when a call that read the proposal earlier is under way and may still
      overwrite it. Later cancellations, sweeps and indexed events respect it, and so does the retry of an attempt that
      is not the last of its job. */
  lemma ExecutedIsAbsorbing(s: State, chain: Verdicts)
    requires s.status == Executed && Justified(s, chain)
    ensures CanLeave(s, chain, Executed) <==> exists c :: c in s.calls && MayOverwrite(s, s.calls[c])
  {
    if c :| c in s.calls && MayOverwrite(s, s.calls[c]) {
      OverwriteRun(s, chain, c);
    } else if CanLeave(s, chain, Executed) {
      var moves :| RunOk(s, chain, moves) && After(s, chain, moves).status != Executed;
      FinalStays(s, chain, moves);
    }
  }

  /** A run for each kind of call. */
  lemma OverwriteRun(s: State, chain: Verdicts, c: nat)
    requires s.status == Executed && c in s.calls && MayOverwrite(s, s.calls[c])
    ensures CanLeave(s, chain, Executed)
  {
    hide CanLeave;
    match s.calls[c]
    case Cancelling => WriterLeaves(s, chain, Executed, CancelWrite(c));
    case NotingFailure(_) => WriterLeaves(s, chain, Executed, IndexFailureWrite(c));
    case Signing(_) | Signed(_) => SignerLeaves(s, chain, Executed, c);
    case _ => LastAttemptLeaves(s, chain, Executed, c);
  }

  /** Such states are reached: an attempt that threw while it waited is still failing when the sweep has made the
      proposal EXECUTED. */
  lemma LateFailureOverwritesExecuted(s: State, chain: Verdicts, c: nat, w: nat)
    requires s.record.Some? && s.record.value.sync == Pending && Mines(chain, s.record.value.hash)
    requires c !in s.calls && w in s.calls && s.calls[w].Waiting? && s.calls[w].hash == s.record.value.hash
    ensures exists moves :: RunOk(s, chain, moves) && After(s, chain, moves).status == Executed
                            && InCall(After(s, chain, moves), w, Failing(s.calls[w].made))
  {
    var s1 := Step(s, chain, Throw(w));
    var s2 := Step(s1, chain, SweepRead(c));
    var s3 := Step(s2, chain, SweepSettle(c));
    assert RunOk(s3, chain, []) && After(s3, chain, []) == s3;
    Prepend(s2, chain, SweepSettle(c), []);
    Prepend(s1, chain, SweepRead(c), [SweepSettle(c)] + []);
    Prepend(s, chain, Throw(w), [SweepRead(c)] + ([SweepSettle(c)] + []));
  }

  /** EXECUTED does not mean that the proposed call went through: a receipt with status 1 is enough. From a pending
      record some run ends EXECUTED without it exactly when the inner call of the recorded attempt failed. */
  lemma ExecutedWithoutEffect(s: State, chain: Verdicts)
    requires Justified(s, chain) && s.record.Some? && s.record.value.sync == Pending
    ensures (exists moves :: RunOk(s, chain, moves) && WithoutEffect(After(s, chain, moves), chain)) <==>
            s.record.value.hash in chain && chain[s.record.value.hash] == InnerFailed
  {
    var h := s.record.value.hash;
    if h in chain && chain[h] == InnerFailed {
      var c := Above(s.calls.Keys);
      var s1 := Step(s, chain, SweepRead(c));
      var s2 := Step(s1, chain, SweepSettle(c));
      assert RunOk(s2, chain, []) && After(s2, chain, []) == s2;
      Prepend(s1, chain, SweepSettle(c), []);
      Prepend(s, chain, SweepRead(c), [SweepSettle(c)] + []);
      assert WithoutEffect(After(s, chain, [SweepRead(c)] + ([SweepSettle(c)] + [])), chain);
    } else if moves :| RunOk(s, chain, moves) && WithoutEffect(After(s, chain, moves), chain) {
      RecordKept(s, chain, moves);
      ExecutedIsJustified(s, chain, moves);
    }
  }

  ghost predicate WithoutEffect(s: State, chain: Verdicts) {
    s.status == Executed && !(s.record.Some? && s.record.value.hash in chain && chain[s.record.value.hash] == InnerOk)
  }

  // ── CANCELLED ──

  /** The tracking row accepts a mark for this hash. */
  predicate Recordable(s: State, h: Hash) {
    s.record.None? || s.record.value.hash == h
  }

  /** A mined attempt whose Safe event the indexer can still note. */
  ghost predicate Notable(s: State, chain: Verdicts, h: Hash) {
    SubmittedHash(s, h) && Mines(chain, h) && Recordable(s, h)
  }

  predicate Sweepable(s: State, chain: Verdicts) {
    s.record.Some? && s.record.value.sync == Pending && s.record.value.hash in chain
  }

  /** Calls that can move a cancelled proposal. */
  predicate MayRevive(s: State, chain: Verdicts, call: Call) {
    match call
    case Queueing | Executing(_, _) | Submitted(_, _) | Waiting(_, _) | Failing(_) | Undoing => true
    case Signing(seen) => seen + 1 >= s.threshold
    case Signed(seen) => seen + 1 >= s.threshold
    case NotingFailure(h) => Recordable(s, h)
    case Sweeping(h) => s.record.Some? && s.record.value.hash == h && h in chain
    case Cancelling => false
  }

  ghost predicate Revivable(s: State, chain: Verdicts) {
    || s.jobs != multiset{}
    || Sweepable(s, chain)
    || (exists h :: Notable(s, chain, h))
    || (exists c :: c in s.calls && MayRevive(s, chain, s.calls[c]))
  }

  ghost predicate Buried(s: State, chain: Verdicts) {
    s.status == Cancelled && !Revivable(s, chain)
  }

  lemma StepBuried(s: State, chain: Verdicts, m: Move)
    requires Buried(s, chain) && Enabled(s, chain, m)
    ensures Buried(Step(s, chain, m), chain)
  {
    var t := Step(s, chain, m);
    BuriedStep(s, chain, m);
    forall h ensures !Notable(t, chain, h) {
      assert !Notable(s, chain, h);
    }
    forall c | c in t.calls ensures !MayRevive(t, chain, t.calls[c]) {
      BuriedCall(s, chain, m, c);
    }
  }

  lemma StaysCancelled(s: State, chain: Verdicts, m: Move)
    requires Buried(s, chain) && Enabled(s, chain, m)
    ensures Step(s, chain, m).status == Cancelled
  {
    assert m.IndexSuccess? ==> !Notable(s, chain, m.h);
  }

  /** Nothing but calls changes. */
  lemma BuriedStep(s: State, chain: Verdicts, m: Move)
    requires Buried(s, chain) && Enabled(s, chain, m)
    ensures var t := Step(s, chain, m);
            t.status == Cancelled && t.jobs == multiset{} && t.record == s.record && t.submissions == s.submissions
                && t.threshold == s.threshold
  {
    StaysCancelled(s, chain, m);
    assert m.IndexSuccess? ==> !Notable(s, chain, m.h);
  }

  lemma BuriedCall(s: State, chain: Verdicts, m: Move, c: nat)
    requires Buried(s, chain) && Enabled(s, chain, m) && c in Step(s, chain, m).calls
    ensures !MayRevive(Step(s, chain, m), chain, Step(s, chain, m).calls[c])
  {
    BuriedStep(s, chain, m);
    assert m.IndexFailureRead? ==> !Notable(s, chain, m.h);
    assert c in s.calls ==> !MayRevive(s, chain, s.calls[c]);
  }

  lemma {:induction false} BuriedStays(s: State, chain: Verdicts, moves: seq<Move>)
    requires Buried(s, chain) && RunOk(s, chain, moves)
    ensures After(s, chain, moves).status == Cancelled
    decreases |moves|
  {
    hide Step, Enabled, Buried;
    if moves == [] {
      assert s.status == Cancelled by { BuriedIsCancelled(s, chain); }
    } else {
      StepBuried(s, chain, moves[0]);
      BuriedStays(Step(s, chain, moves[0]), chain, moves[1..]);
    }
  }

  lemma BuriedIsCancelled(s: State, chain: Verdicts)
    requires Buried(s, chain)
    ensures s.status == Cancelled
  {
  }

  /** CANCELLED is not terminal. A cancelled proposal stays cancelled in every run exactly when no job is queued, no
      record is pending with a verdict, no mined attempt can be noted by the indexer, and no call under way can queue,
      execute, undo, give up, or note a failure. */
  lemma CancelledIsNotTerminal(s: State, chain: Verdicts)
    requires s.status == Cancelled
    ensures CanLeave(s, chain, Cancelled) <==> Revivable(s, chain)
  {
    if made :| made in s.jobs {
      JobRevives(s, chain, made);
    } else if Sweepable(s, chain) {
      PendingRevives(s, chain);
    } else if h :| Notable(s, chain, h) {
      EventRevives(s, chain, h);
    } else if c :| c in s.calls && MayRevive(s, chain, s.calls[c]) {
      CallRevives(s, chain, c);
    } else if CanLeave(s, chain, Cancelled) {
      var moves :| RunOk(s, chain, moves) && After(s, chain, moves).status != Cancelled;
      BuriedStays(s, chain, moves);
    }
  }

  function AttemptsLeft(made: nat): nat {
    if made < ATTEMPTS then ATTEMPTS - made else 0
  }

  /** A job, or an attempt wherever it is, may throw and be tried again until its last attempt. */
  lemma JobRevives(s: State, chain: Verdicts, made: nat)
    requires s.status == Cancelled && made in s.jobs
    ensures CanLeave(s, chain, Cancelled)
    decreases AttemptsLeft(made), 3
  {
    hide CanLeave;
    var c := Above(s.calls.Keys);
    AttemptRevives(Step(s, chain, Start(c, made)), chain, c);
    LeavesBy(s, chain, Cancelled, Start(c, made));
  }

  lemma AttemptRevives(s: State, chain: Verdicts, c: nat)
    requires s.status == Cancelled && c in s.calls && Attempting(s.calls[c])
    ensures CanLeave(s, chain, Cancelled)
    decreases AttemptsLeft(s.calls[c].made), Ahead(s.calls[c])
  {
    hide CanLeave;
    var call := s.calls[c];
    if LastAttempt(call) {
      LastAttemptLeaves(s, chain, Cancelled, c);
    } else if call.Failing? {
      JobRevives(Step(s, chain, Retry(c)), chain, call.made + 1);
      LeavesBy(s, chain, Cancelled, Retry(c));
    } else {
      OnwardStays(s, chain, c);
      AttemptRevives(Step(s, chain, Onward(c, call)), chain, c);
      LeavesBy(s, chain, Cancelled, Onward(c, call));
    }
  }

  lemma PendingRevives(s: State, chain: Verdicts)
    requires s.status == Cancelled && Sweepable(s, chain)
    ensures CanLeave(s, chain, Cancelled)
  {
    hide CanLeave;
    var c := Above(s.calls.Keys);
    SweepRevives(Step(s, chain, SweepRead(c)), chain, c);
    LeavesBy(s, chain, Cancelled, SweepRead(c));
  }

  /** The sweep of a mined attempt executes the proposal, that of a reverted one marks it as failed. */
  lemma SweepRevives(s: State, chain: Verdicts, c: nat)
    requires c in s.calls && s.calls[c].Sweeping? && s.calls[c].hash in chain && s.record.Some?
             && s.record.value.hash == s.calls[c].hash
    ensures CanLeave(s, chain, Cancelled)
  {
    hide CanLeave;
    var t := Step(s, chain, SweepSettle(c));
    if Mines(chain, s.calls[c].hash) {
      Left(t, chain, Cancelled);
    } else {
      WriterLeaves(t, chain, Cancelled, SweepUndo(c));
    }
    LeavesBy(s, chain, Cancelled, SweepSettle(c));
  }

  lemma EventRevives(s: State, chain: Verdicts, h: Hash)
    requires s.status == Cancelled && Notable(s, chain, h)
    ensures CanLeave(s, chain, Cancelled)
  {
    hide CanLeave;
    if chain[h] == InnerOk {
      WriterLeaves(s, chain, Cancelled, IndexSuccess(h));
    } else {
      var c := Above(s.calls.Keys);
      WriterLeaves(Step(s, chain, IndexFailureRead(c, h)), chain, Cancelled, IndexFailureWrite(c));
      LeavesBy(s, chain, Cancelled, IndexFailureRead(c, h));
    }
  }

  lemma CallRevives(s: State, chain: Verdicts, c: nat)
    requires s.status == Cancelled && c in s.calls && MayRevive(s, chain, s.calls[c])
    ensures CanLeave(s, chain, Cancelled)
  {
    hide CanLeave;
    match s.calls[c]
    case Queueing =>
      JobRevives(Step(s, chain, Enqueue(c)), chain, 0);
      LeavesBy(s, chain, Cancelled, Enqueue(c));
    case Undoing => WriterLeaves(s, chain, Cancelled, SweepUndo(c));
    case NotingFailure(_) => WriterLeaves(s, chain, Cancelled, IndexFailureWrite(c));
    case Sweeping(_) => SweepRevives(s, chain, c);
    case Signing(_) | Signed(_) => SignerLeaves(s, chain, Cancelled, c);
    case _ => AttemptRevives(s, chain, c);
  }

  /** A proposal cancelled two signatures or more before its threshold stays cancelled. */
  lemma CancelledEarlyIsTerminal(s: State, chain: Verdicts)
    requires s.status == Cancelled && Authorised(s) && |s.signers| + 1 < s.threshold
    ensures !CanLeave(s, chain, Cancelled)
  {
    CancelledIsNotTerminal(s, chain);
    assert forall c :: c in s.calls ==> CallAuthorised(s, s.calls[c]);
  }
}

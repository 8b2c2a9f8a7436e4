/** One Safe proposal from its first signature to its execution: signers, cancellations, retries, the execution
    worker, the sweep and the indexer, each a call that may die between two database writes and that acts on what it
    read before. */
module SafeGovernance {
  import opened Tables

  datatype ProposalStatus = Collecting | ThresholdMet | Executed | ExecutionFailed | Cancelled

  /** How an execTransaction ends on chain: the inner call went through, the inner call failed, or all of it
      reverted. */
  datatype Verdict = InnerOk | InnerFailed | OuterReverted

  type Verdicts = map<Hash, Verdict>

  /** `receipt.status === 1`. */
  predicate Mines(chain: Verdicts, h: Hash) {
    h in chain && chain[h] != OuterReverted
  }

  /** The one tracking row that carries the proposal's id: the column is unique. */
  datatype Record = Record(hash: Hash, sync: Sync)

  /** How often the queue tries a job. */
  const ATTEMPTS: nat := 3

  /** Where a call is, with what it has read; an execution knows how many attempts its job `made` before it. */
  datatype Call =
    | Signing(seen: nat)        // read a collecting proposal with that many signatures
    | Signed(seen: nat)         // has inserted its own signature
    | Queueing                  // about to add an execution job
    | Cancelling                // has seen that the proposal is not executed
    | Executing(made: nat, signatures: nat)
    | Submitted(made: nat, hash: Hash)
    | Waiting(made: nat, hash: Hash) // the tracking row has been written, or could not be
    | Failing(made: nat)        // the attempt has thrown
    | Sweeping(hash: Hash)      // the sweep holds a copy of the pending row
    | Undoing                   // the sweep has marked the row FAILED
    | NotingFailure(hash: Hash) // the indexer has seen that the proposal is not executed

  /** `jobs` are the waiting jobs, each with the attempts it has made. */
  datatype State = State(
    threshold: nat, status: ProposalStatus, signers: set<string>,
    jobs: multiset<nat>, record: Option<Record>, calls: map<nat, Call>,
    submissions: seq<(Hash, nat)>)  // history: every execTransaction with the signatures it carried

  datatype Move =
    | SignRead(c: nat) | SignInsert(c: nat, wallet: string) | SignDecide(c: nat) | Enqueue(c: nat)
    | CancelRead(c: nat) | CancelWrite(c: nat)
    | FallbackRead(c: nat) | StuckRead(c: nat)
    | Start(c: nat, made: nat) | Submit(c: nat, h: Hash) | RecordTx(c: nat) | Receipt(c: nat)
    | Throw(c: nat) | Retry(c: nat) | GiveUp(c: nat)
    | SweepRead(c: nat) | SweepSettle(c: nat) | SweepUndo(c: nat)
    | IndexSuccess(h: Hash) | IndexFailureRead(c: nat, h: Hash) | IndexFailureWrite(c: nat)
    | Die(c: nat, redelivered: bool)

  function With(s: State, c: nat, call: Call): State {
    s.(calls := s.calls[c := call])
  }

  function Done(s: State, c: nat): State {
    s.(calls := s.calls - {c})
  }

  predicate InCall(s: State, c: nat, call: Call) {
    c in s.calls && s.calls[c] == call
  }

  predicate SubmittedHash(s: State, h: Hash) {
    exists i :: 0 <= i < |s.submissions| && s.submissions[i].0 == h
  }

  predicate Enabled(s: State, chain: Verdicts, m: Move) {
    match m
    case SignRead(c) => c !in s.calls && s.status == Collecting
    case SignInsert(c, wallet) => c in s.calls && s.calls[c].Signing? && wallet !in s.signers
    case SignDecide(c) => c in s.calls && s.calls[c].Signed?
    case Enqueue(c) => c in s.calls && s.calls[c].Queueing?
    case CancelRead(c) => c !in s.calls && s.status != Executed
    case CancelWrite(c) => c in s.calls && s.calls[c].Cancelling?
    case FallbackRead(c) => c !in s.calls && s.status in {ExecutionFailed, ThresholdMet}
    case StuckRead(c) => c !in s.calls && s.status == ThresholdMet && s.record.None?
    case Start(c, made) => c !in s.calls && made in s.jobs
    case Submit(c, h) => c in s.calls && s.calls[c].Executing? && !SubmittedHash(s, h)
    case RecordTx(c) => c in s.calls && s.calls[c].Submitted?
    case Receipt(c) => c in s.calls && s.calls[c].Waiting? && s.calls[c].hash in chain
    case Throw(c) => c in s.calls && (s.calls[c].Executing? || s.calls[c].Waiting?)
    case Retry(c) => c in s.calls && s.calls[c].Failing? && s.calls[c].made + 1 < ATTEMPTS
    case GiveUp(c) => c in s.calls && s.calls[c].Failing? && s.calls[c].made + 1 >= ATTEMPTS
    case SweepRead(c) => c !in s.calls && s.record.Some? && s.record.value.sync == Pending
    case SweepSettle(c) => c in s.calls && s.calls[c].Sweeping? && s.calls[c].hash in chain
    case SweepUndo(c) => c in s.calls && s.calls[c].Undoing?
    case IndexSuccess(h) => SubmittedHash(s, h) && h in chain && chain[h] == InnerOk
    case IndexFailureRead(c, h) => c !in s.calls && SubmittedHash(s, h) && h in chain && chain[h] == InnerFailed
      && s.status != Executed
    case IndexFailureWrite(c) => c in s.calls && s.calls[c].NotingFailure?
    case Die(c, _) => c in s.calls
  }

  /** `upsert` of the tracking row by hash: refused when another row carries the proposal's id. */
  function Upsert(s: State, h: Hash, sync: Sync, status: ProposalStatus): State {
    if s.record.None? || s.record.value.hash == h then s.(record := Some(Record(h, sync)), status := status) else s
  }

  function Step(s: State, chain: Verdicts, m: Move): State
    requires Enabled(s, chain, m)
  {
    match m
    case SignRead(c) => With(s, c, Signing(|s.signers|))
    case SignInsert(c, wallet) => With(s, c, Signed(s.calls[c].seen)).(signers := s.signers + {wallet})
    case SignDecide(c) => if s.calls[c].seen + 1 >= s.threshold then With(s, c, Queueing).(status := ThresholdMet)
      else Done(s, c)
    case Enqueue(c) => Done(s, c).(jobs := s.jobs + multiset{0})
    case CancelRead(c) => With(s, c, Cancelling)
    case CancelWrite(c) => Done(s, c).(status := Cancelled)
    case FallbackRead(c) => With(s, c, Queueing)
    case StuckRead(c) => With(s, c, Queueing)
    case Start(c, made) => if s.status == Executed then s.(jobs := s.jobs - multiset{made})
      else With(s, c, Executing(made, |s.signers|)).(jobs := s.jobs - multiset{made})
    case Submit(c, h) =>
      With(s, c, Submitted(s.calls[c].made, h)).(submissions := s.submissions + [(h, s.calls[c].signatures)])
    case RecordTx(c) =>
      var t := With(s, c, Waiting(s.calls[c].made, s.calls[c].hash));
      if s.record.None? then t.(record := Some(Record(s.calls[c].hash, Pending))) else t
    case Receipt(c) =>
      var h := s.calls[c].hash;
      if s.record.None? || s.record.value.hash != h then With(s, c, Failing(s.calls[c].made))
      else if Mines(chain, h) then Done(s, c).(status := Executed, record := Some(Record(h, Mined)))
      else With(s, c, Failing(s.calls[c].made)).(record := Some(Record(h, Failed)))
    case Throw(c) => With(s, c, Failing(s.calls[c].made))
    case Retry(c) => Done(s, c).(jobs := s.jobs + multiset{s.calls[c].made + 1})
    case GiveUp(c) => Done(s, c).(status := ExecutionFailed)
    case SweepRead(c) => With(s, c, Sweeping(s.record.value.hash))
    case SweepSettle(c) =>
      var h := s.calls[c].hash;
      if s.record.None? || s.record.value.hash != h then Done(s, c)
      else if Mines(chain, h) then Done(s, c).(status := Executed, record := Some(Record(h, Mined)))
      else With(s, c, Undoing).(record := Some(Record(h, Failed)))
    case SweepUndo(c) => Done(s, c).(status := ExecutionFailed)
    case IndexSuccess(h) => Upsert(s, h, Mined, Executed)
    case IndexFailureRead(c, h) => With(s, c, NotingFailure(h))
    case IndexFailureWrite(c) => Done(Upsert(s, s.calls[c].hash, Failed, ExecutionFailed), c)
    case Die(c, redelivered) =>
      if redelivered && (s.calls[c].Executing? || s.calls[c].Submitted? || s.calls[c].Waiting? || s.calls[c].Failing?)
      then Done(s, c).(jobs := s.jobs + multiset{s.calls[c].made}) else Done(s, c)
  }

  ghost predicate RunOk(s: State, chain: Verdicts, moves: seq<Move>)
    decreases |moves|
  {
    moves != [] ==> Enabled(s, chain, moves[0]) && RunOk(Step(s, chain, moves[0]), chain, moves[1..])
  }

  ghost function After(s: State, chain: Verdicts, moves: seq<Move>): State
    requires RunOk(s, chain, moves)
    decreases |moves|
  {
    if moves == [] then s else After(Step(s, chain, moves[0]), chain, moves[1..])
  }

  /** A run of the state machine from one state to another. */
  ghost predicate Reaches(s: State, chain: Verdicts, moves: seq<Move>, t: State) {
    RunOk(s, chain, moves) && After(s, chain, moves) == t
  }

  lemma ReachesNothing(s: State, chain: Verdicts)
    ensures Reaches(s, chain, [], s)
  {
  }

  lemma {:induction false} ReachesMore(s: State, chain: Verdicts, moves: seq<Move>, t: State, m: Move)
    requires Reaches(s, chain, moves, t) && Enabled(t, chain, m)
    ensures Reaches(s, chain, moves + [m], Step(t, chain, m))
    decreases |moves|
  {
    if moves == [] {
      assert [] + [m] == [m] && [m][1..] == [];
      assert RunOk(Step(t, chain, m), chain, []);
    } else {
      var rest := moves[1..];
      ReachesMore(Step(s, chain, moves[0]), chain, rest, t, m);
      assert (moves + [m])[0] == moves[0] && (moves + [m])[1..] == rest + [m];
    }
  }

  lemma Prepend(s: State, chain: Verdicts, m: Move, rest: seq<Move>)
    requires Enabled(s, chain, m) && RunOk(Step(s, chain, m), chain, rest)
    ensures RunOk(s, chain, [m] + rest) && After(s, chain, [m] + rest) == After(Step(s, chain, m), chain, rest)
  {
    assert ([m] + rest)[1..] == rest;
  }

  function Proposed(threshold: nat): State {
    State(threshold, Collecting, {}, multiset{}, None, map[], [])
  }

  // ── Threshold safety ──

  /** The proposal has got as far as its execution. */
  predicate Advanced(s: State) {
    || s.status in {ThresholdMet, Executed, ExecutionFailed}
    || s.jobs != multiset{} || s.record.Some? || s.submissions != []
  }

  /** Signatures only accumulate, and whatever leads to an execution has seen enough of them. */
  ghost predicate Authorised(s: State) {
    && (Advanced(s) ==> |s.signers| >= s.threshold)
    && (forall c :: c in s.calls ==> CallAuthorised(s, s.calls[c]))
    && (forall i :: 0 <= i < |s.submissions| ==> s.submissions[i].1 >= s.threshold)
  }

  predicate CallAuthorised(s: State, call: Call) {
    match call
    case Signing(seen) => seen <= |s.signers|
    case Signed(seen) => seen + 1 <= |s.signers|
    case Executing(_, signatures) => signatures >= s.threshold && |s.signers| >= s.threshold
    case Cancelling => true
    case _ => |s.signers| >= s.threshold
  }

  lemma SignersOf(s: State, chain: Verdicts, m: Move)
    requires Enabled(s, chain, m)
    ensures var t := Step(s, chain, m);
            && t.threshold == s.threshold
            && t.signers == if m.SignInsert? then s.signers + {m.wallet} else s.signers
  {
  }

  /** Signatures only accumulate. */
  lemma SignersGrow(s: State, chain: Verdicts, m: Move)
    requires Enabled(s, chain, m)
    ensures var t := Step(s, chain, m);
            && t.threshold == s.threshold
            && (if m.SignInsert? then |t.signers| == |s.signers| + 1 else t.signers == s.signers)
  {
    hide Step;
    SignersOf(s, chain, m);
  }

  lemma CallStays(s: State, t: State, call: Call)
    requires CallAuthorised(s, call) && t.threshold == s.threshold && |s.signers| <= |t.signers|
    ensures CallAuthorised(t, call)
  {
  }

  /** Enough signatures for an execution. */
  ghost predicate Enough(s: State) {
    |s.signers| >= s.threshold
  }

  predicate SignMove(m: Move) {
    m.SignRead? || m.SignInsert? || m.SignDecide?
  }

  lemma MovedSigner(s: State, chain: Verdicts, m: Move, c: nat)
    requires Authorised(s) && Enabled(s, chain, m) && c in Step(s, chain, m).calls && SignMove(m)
             && (c in s.calls ==> Step(s, chain, m).calls[c] != s.calls[c])
    ensures CallAuthorised(Step(s, chain, m), Step(s, chain, m).calls[c])
  {
    SignersGrow(s, chain, m);
    assert c in s.calls ==> CallAuthorised(s, s.calls[c]);
  }

  /** The call a move works on. */
  lemma MovedCall(s: State, chain: Verdicts, m: Move, c: nat)
    requires Authorised(s) && Enabled(s, chain, m) && c in Step(s, chain, m).calls
             && (c in s.calls ==> Step(s, chain, m).calls[c] != s.calls[c])
    ensures CallAuthorised(Step(s, chain, m), Step(s, chain, m).calls[c])
  {
    if SignMove(m) { MovedSigner(s, chain, m, c); } else { MovedOther(s, chain, m, c); }
  }

  lemma MovedOther(s: State, chain: Verdicts, m: Move, c: nat)
    requires Authorised(s) && Enabled(s, chain, m) && c in Step(s, chain, m).calls && !SignMove(m)
             && (c in s.calls ==> Step(s, chain, m).calls[c] != s.calls[c])
    ensures CallAuthorised(Step(s, chain, m), Step(s, chain, m).calls[c])
  {
    hide Authorised, Step;
    SignersGrow(s, chain, m);
    ExecutionMove(s, chain, m);
    NewCallReads(s, chain, m, c);
  }

  /** A new call has read all signatures, and only cancelling asks for none. */
  lemma NewCallReads(s: State, chain: Verdicts, m: Move, c: nat)
    requires Enabled(s, chain, m) && c in Step(s, chain, m).calls && !SignMove(m)
             && (c in s.calls ==> Step(s, chain, m).calls[c] != s.calls[c])
    ensures var call := Step(s, chain, m).calls[c];
            && !call.Signing? && !call.Signed? && (call.Executing? ==> call.signatures == |s.signers|)
            && (m.CancelRead? || m.CancelWrite? || m.Die? ==> call.Cancelling?)
  {
  }

  /** What has to do with an execution happens when there are enough signatures. */
  lemma ExecutionMove(s: State, chain: Verdicts, m: Move)
    requires Authorised(s) && Enabled(s, chain, m) && !SignMove(m)
    ensures m.CancelRead? || m.CancelWrite? || Enough(s)
            || (m.Die? && (s.calls[m.c].Signing? || s.calls[m.c].Signed? || s.calls[m.c].Cancelling?))
  {
    assert m.IndexSuccess? || m.IndexFailureRead? ==> s.submissions != [];
    assert !m.IndexSuccess? && m.c in s.calls ==> CallAuthorised(s, s.calls[m.c]);
  }

  lemma StepAuthorised(s: State, chain: Verdicts, m: Move)
    requires Authorised(s) && Enabled(s, chain, m)
    ensures Authorised(Step(s, chain, m)) && Step(s, chain, m).threshold == s.threshold
  {
    var t := Step(s, chain, m);
    SignersGrow(s, chain, m);
    forall c | c in t.calls ensures CallAuthorised(t, t.calls[c]) {
      if c in s.calls && t.calls[c] == s.calls[c] { CallStays(s, t, s.calls[c]); } else { MovedCall(s, chain, m, c); }
    }
    StepRest(s, chain, m);
  }

  lemma StepRest(s: State, chain: Verdicts, m: Move)
    requires Authorised(s) && Enabled(s, chain, m)
    ensures var t := Step(s, chain, m);
            && (Advanced(t) ==> |t.signers| >= t.threshold)
            && (forall i :: 0 <= i < |t.submissions| ==> t.submissions[i].1 >= t.threshold)
  {
    SignersGrow(s, chain, m);
    NewSubmission(s, chain, m);
    if SignMove(m) {
      SignerAdvances(s, chain, m);
    } else {
      ExecutionMove(s, chain, m);
      hide Authorised;
    }
  }

  lemma SignerAdvances(s: State, chain: Verdicts, m: Move)
    requires Authorised(s) && Enabled(s, chain, m) && SignMove(m)
    ensures Advanced(Step(s, chain, m)) ==> Advanced(s) || |Step(s, chain, m).signers| >= s.threshold
  {
    assert m.c in s.calls ==> CallAuthorised(s, s.calls[m.c]);
  }

  lemma NewSubmission(s: State, chain: Verdicts, m: Move)
    requires Authorised(s) && Enabled(s, chain, m)
    ensures var t := Step(s, chain, m);
            forall i :: 0 <= i < |t.submissions| ==> t.submissions[i].1 >= t.threshold
  {
    assert m.Submit? ==> CallAuthorised(s, s.calls[m.c]);
  }

  /** Threshold safety: in every interleaving each execTransaction carries at least `threshold` signatures. */
  lemma {:induction false} EverySubmissionIsAuthorised(s: State, chain: Verdicts, moves: seq<Move>)
    requires Authorised(s) && RunOk(s, chain, moves)
    ensures var t := After(s, chain, moves);
            && Authorised(t) && t.threshold == s.threshold
            && forall i :: 0 <= i < |t.submissions| ==> t.submissions[i].1 >= s.threshold
    decreases |moves|
  {
    hide Step, Enabled;
    if moves != [] {
      StepAuthorised(s, chain, moves[0]);
      EverySubmissionIsAuthorised(Step(s, chain, moves[0]), chain, moves[1..]);
    }
  }

  lemma ProposedIsFine(threshold: nat, chain: Verdicts)
    ensures Authorised(Proposed(threshold)) && Justified(Proposed(threshold), chain)
  {
  }

  // ── What EXECUTED means ──

  /** EXECUTED rests on the recorded attempt, and so do the marks of the tracking row. */
  ghost predicate Justified(s: State, chain: Verdicts) {
    && (s.status == Executed ==> s.record.Some? && Mines(chain, s.record.value.hash))
    && (s.record.Some? && s.record.value.sync == Mined ==> Mines(chain, s.record.value.hash))
    && (s.record.Some? && s.record.value.sync == Failed ==>
        s.record.value.hash in chain && chain[s.record.value.hash] != InnerOk)
    && (forall c :: c in s.calls ==> CallJustified(s, chain, s.calls[c]))
  }

  /** The indexer notes failures of the inner call only, and the sweep undoes only what it has recorded as reverted. */
  predicate CallJustified(s: State, chain: Verdicts, call: Call) {
    && (call.NotingFailure? ==> call.hash in chain && chain[call.hash] == InnerFailed)
    && (call.Undoing? ==> s.record.Some? && !Mines(chain, s.record.value.hash))
  }

  lemma RecordStays(s: State, chain: Verdicts, m: Move)
    requires Enabled(s, chain, m)
    ensures s.record.Some? ==> Step(s, chain, m).record.Some?
                               && Step(s, chain, m).record.value.hash == s.record.value.hash
  {
  }

  lemma CallsJustified(s: State, chain: Verdicts, m: Move, c: nat)
    requires Justified(s, chain) && Enabled(s, chain, m) && c in Step(s, chain, m).calls
    ensures CallJustified(Step(s, chain, m), chain, Step(s, chain, m).calls[c])
  {
    RecordStays(s, chain, m);
    assert c in s.calls ==> CallJustified(s, chain, s.calls[c]);
  }

  lemma StepJustified(s: State, chain: Verdicts, m: Move)
    requires Justified(s, chain) && Enabled(s, chain, m)
    ensures Justified(Step(s, chain, m), chain)
    ensures s.record.Some? ==> Step(s, chain, m).record.Some?
                               && Step(s, chain, m).record.value.hash == s.record.value.hash
  {
    RecordStays(s, chain, m);
    forall c | c in Step(s, chain, m).calls
      ensures CallJustified(Step(s, chain, m), chain, Step(s, chain, m).calls[c])
    {
      CallsJustified(s, chain, m, c);
    }
    MarksJustified(s, chain, m);
  }

  lemma MarksJustified(s: State, chain: Verdicts, m: Move)
    requires Justified(s, chain) && Enabled(s, chain, m)
    ensures var t := Step(s, chain, m);
            && (t.status == Executed ==> t.record.Some? && Mines(chain, t.record.value.hash))
            && (t.record.Some? && t.record.value.sync == Mined ==> Mines(chain, t.record.value.hash))
            && (t.record.Some? && t.record.value.sync == Failed ==>
                t.record.value.hash in chain && chain[t.record.value.hash] != InnerOk)
  {
  }

  /** The row that carries the proposal's id never changes its hash, so once the recorded attempt has reverted no retry
      can make the proposal EXECUTED, whatever becomes of the retry on chain. */
  lemma {:induction false} RevertedRecordIsFinal(s: State, chain: Verdicts, moves: seq<Move>)
    requires Justified(s, chain) && RunOk(s, chain, moves)
    requires s.record.Some? && s.record.value.hash in chain && chain[s.record.value.hash] == OuterReverted
    ensures After(s, chain, moves).status != Executed
    decreases |moves|
  {
    hide Step, Enabled;
    if moves != [] {
      StepJustified(s, chain, moves[0]);
      RevertedRecordIsFinal(Step(s, chain, moves[0]), chain, moves[1..]);
    }
  }

  /** Along every run, EXECUTED means that the recorded attempt was mined. */
  lemma {:induction false} ExecutedIsJustified(s: State, chain: Verdicts, moves: seq<Move>)
    requires Justified(s, chain) && RunOk(s, chain, moves)
    ensures Justified(After(s, chain, moves), chain)
    decreases |moves|
  {
    hide Step, Enabled;
    if moves != [] {
      StepJustified(s, chain, moves[0]);
      ExecutedIsJustified(Step(s, chain, moves[0]), chain, moves[1..]);
    }
  }
}

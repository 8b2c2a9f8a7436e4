/** The admin service and the execution worker as they run when nothing interrupts them. Each method is a run of the
    governance state machine, so what holds of every run holds of them, interleaved or not. */
module AdminServices {
  import opened Tables
  import opened SafeGovernance

  /** What the chain client makes of one attempt: it throws before anything is sent, it sends a transaction and the wait
      for the receipt throws, or it returns the receipt. */
  datatype Attempt = NotSent | NoReceipt(hash: Hash) | Sent(hash: Hash)

  /** A transaction that has not been sent before. */
  predicate Fresh(submissions: seq<(Hash, nat)>, chain: Verdicts, attempt: Attempt) {
    !attempt.NotSent? ==>
      attempt.hash in chain && forall i :: 0 <= i < |submissions| ==> submissions[i].0 != attempt.hash
  }

  predicate AllFresh(submissions: seq<(Hash, nat)>, chain: Verdicts, attempts: seq<Attempt>) {
    forall i :: 0 <= i < |attempts| ==> Fresh(submissions, chain, attempts[i])
  }

  predicate Distinct(attempts: seq<Attempt>) {
    forall i, j :: 0 <= i < j < |attempts| && !attempts[i].NotSent? && !attempts[j].NotSent? ==>
      attempts[i].hash != attempts[j].hash
  }

  class AdminService {
    const chain: Verdicts
    var state: State
    ghost var run: seq<Move>
    ghost const start: State

    constructor (chain: Verdicts, threshold: nat)
      ensures this.chain == chain && state == Proposed(threshold) && start == state && Valid()
    {
      this.chain, this.start, this.state, this.run := chain, Proposed(threshold), Proposed(threshold), [];
      new;
      ReachesNothing(start, chain);
    }

    /** The proposal and its queue are where some run of the machine from the creation of the proposal leads. */
    ghost predicate Valid()
      reads this
    {
      Reaches(start, chain, run, state)
    }

    method Do(m: Move)
      requires Valid() && Enabled(state, chain, m)
      modifies this
      ensures Valid() && state == Step(old(state), chain, m)
    {
      ReachesMore(start, chain, run, state, m);
      run := run + [m];
      state := Step(state, chain, m);
    }

    /** `c` names the call. */
    method SignProposal(c: nat, wallet: string) returns (refused: bool)
      requires Valid() && c !in state.calls
      modifies this
      ensures Valid()
      ensures refused <==> old(state).status != Collecting || wallet in old(state).signers
      ensures refused ==> state.status == old(state).status && state.signers == old(state).signers
                          && state.jobs == old(state).jobs
      ensures !refused ==>
                && state.signers == old(state).signers + {wallet} && state.calls == old(state).calls
                && (|state.signers| >= state.threshold ==>
                    state.status == ThresholdMet && state.jobs == old(state).jobs + multiset{0})
                && (|state.signers| < state.threshold ==> state.status == Collecting && state.jobs == old(state).jobs)
    {
      hide Reaches;
      if state.status != Collecting { return true; }
      if wallet in state.signers { return true; }
      ghost var calls := state.calls;
      Do(SignRead(c));
      Do(SignInsert(c, wallet));
      assert |state.signers| == |old(state).signers| + 1;
      var totalSignatures := state.calls[c].seen + 1;
      Do(SignDecide(c));
      if totalSignatures >= state.threshold {
        Do(Enqueue(c));
      }
      assert state.calls == calls;
      return false;
    }

    method CancelProposal(c: nat) returns (refused: bool)
      requires Valid() && c !in state.calls
      modifies this
      ensures Valid() && (refused <==> old(state).status == Executed)
      ensures state.status == if refused then Executed else Cancelled
      ensures state.calls == old(state).calls && state.record == old(state).record
              && state.signers == old(state).signers
    {
      hide Reaches;
      if state.status == Executed { return true; }
      ghost var calls := state.calls;
      Do(CancelRead(c));
      Do(CancelWrite(c));
      assert state.calls == calls;
      return false;
    }

    method ExecuteProposalFallback(c: nat) returns (refused: bool)
      requires Valid() && c !in state.calls
      modifies this
      ensures Valid() && (refused <==> old(state).status !in {ExecutionFailed, ThresholdMet})
      ensures state.status == old(state).status
      ensures state.jobs == if refused then old(state).jobs else old(state).jobs + multiset{0}
    {
      hide Reaches;
      if state.status != ExecutionFailed && state.status != ThresholdMet { return true; }
      Do(FallbackRead(c));
      Do(Enqueue(c));
      return false;
    }

    /** One attempt of a job that has `made` attempts before; a thrown attempt leaves the call failing. */
    method ExecuteSafeTxInternal(c: nat, made: nat, attempt: Attempt) returns (threw: bool)
      requires Valid() && c !in state.calls && made in state.jobs
      requires Fresh(state.submissions, chain, attempt)
      modifies this
      ensures Valid() && state.jobs == old(state).jobs - multiset{made}
      ensures state.calls == if threw then old(state).calls[c := Failing(made)] else old(state).calls
      ensures old(state).status == Executed ==>
              !threw && state.status == Executed && state.submissions == old(state).submissions
      ensures !threw && old(state).status != Executed ==>
                state.status == Executed && attempt.Sent? && state.record == Some(Record(attempt.hash, Mined))
                    && Mines(chain, attempt.hash)
      ensures old(state).status != Executed && old(state).record.None? && attempt.Sent? ==>
                (Mines(chain, attempt.hash) ==> !threw)
      ensures state.submissions == old(state).submissions ||
              (!attempt.NotSent? && state.submissions == old(state).submissions +
               [(attempt.hash, |old(state).signers|)])
    {
      hide Reaches;
      var wasExecuted := state.status == Executed;
      ghost var calls := state.calls;
      Do(Start(c, made));
      if wasExecuted { return false; }
      assert state.calls == calls[c := Executing(made, |state.signers|)];
      if attempt.NotSent? {
        Do(Throw(c));
        return true;
      }
      threw := Send(c, attempt);
    }

    /** Layer 1 records the hash before the wait, layer 2 acts on the receipt. */
    method Send(c: nat, attempt: Attempt) returns (threw: bool)
      requires Valid() && c in state.calls && state.calls[c].Executing? && !attempt.NotSent?
      requires attempt.hash in chain && !SubmittedHash(state, attempt.hash)
      modifies this
      ensures Valid() && state.jobs == old(state).jobs && state.signers == old(state).signers
      ensures threw ==> state.calls == old(state).calls[c := Failing(old(state).calls[c].made)]
      ensures !threw ==> state.calls == old(state).calls - {c}
      ensures state.submissions == old(state).submissions + [(attempt.hash, old(state).calls[c].signatures)]
      ensures !threw ==> state.status == Executed && attempt.Sent? && state.record == Some(Record(attempt.hash, Mined))
                         && Mines(chain, attempt.hash)
      ensures attempt.Sent? && Mines(chain, attempt.hash) && old(state).record.None? ==> !threw
    {
      hide Reaches;
      ghost var calls := state.calls;
      Do(Submit(c, attempt.hash));
      Do(RecordTx(c));
      assert state.calls == calls[c := Waiting(calls[c].made, attempt.hash)];
      if attempt.NoReceipt? {
        Do(Throw(c));
        return true;
      }
      Do(Receipt(c));
      threw := c in state.calls;
    }

    /** The worker: up to three attempts, and after the last the proposal is marked as failed. */
    method ProcessJob(c: nat, attempts: seq<Attempt>)
      requires Valid() && c !in state.calls && 0 in state.jobs && |attempts| == ATTEMPTS
      requires Distinct(attempts) && AllFresh(state.submissions, chain, attempts)
      modifies this
      ensures Valid() && state.calls == old(state).calls && state.jobs == old(state).jobs - multiset{0}
      ensures state.status in {Executed, ExecutionFailed}
    {
      hide Reaches, Step, Enabled, Fresh, Distinct;
      ghost var others := state.jobs - multiset{0};
      var attemptsMade, settled := 0, false;
      while !settled
        invariant Valid() && state.calls == old(state).calls
        invariant !settled ==> attemptsMade < ATTEMPTS && state.jobs == others + multiset{attemptsMade}
        invariant !settled ==> AllFresh(state.submissions, chain, attempts[attemptsMade..])
        invariant settled ==> state.jobs == others && state.status in {Executed, ExecutionFailed}
        decreases ATTEMPTS - attemptsMade, !settled
      {
        ghost var before := state.submissions;
        assert Fresh(before, chain, attempts[attemptsMade..][0]);
        settled := HandleJob(c, attemptsMade, attempts[attemptsMade], others);
        StillFresh(before, state.submissions, chain, attempts, attemptsMade);
        attemptsMade := attemptsMade + 1;
      }
    }

    /** One attempt and what the queue makes of it: a job that has thrown is put back, or after its last attempt its
        proposal is marked as failed. */
    method HandleJob(c: nat, made: nat, attempt: Attempt, ghost others: multiset<nat>) returns (settled: bool)
      requires Valid() && c !in state.calls && made < ATTEMPTS && state.jobs == others + multiset{made}
      requires Fresh(state.submissions, chain, attempt)
      modifies this
      ensures Valid() && state.calls == old(state).calls
      ensures settled ==> state.jobs == others && state.status in {Executed, ExecutionFailed}
      ensures !settled ==> made + 1 < ATTEMPTS && state.jobs == others + multiset{made + 1}
      ensures state.submissions == old(state).submissions ||
              (!attempt.NotSent? && state.submissions == old(state).submissions +
               [(attempt.hash, |old(state).signers|)])
    {
      hide Reaches, Step, Enabled, Fresh;
      ghost var calls := state.calls;
      var threw := ExecuteSafeTxInternal(c, made, attempt);
      assert state.jobs == others;
      if !threw { return true; }
      if made + 1 >= ATTEMPTS {
        MarkProposalAsFailed(c);
      } else {
        TryAgain(c);
      }
      assert state.calls == calls;
      return made + 1 >= ATTEMPTS;
    }

    method MarkProposalAsFailed(c: nat)
      requires Valid() && c in state.calls && state.calls[c].Failing? && state.calls[c].made + 1 >= ATTEMPTS
      modifies this
      ensures Valid() && state == old(state).(status := ExecutionFailed, calls := old(state).calls - {c})
    {
      hide Reaches;
      Do(GiveUp(c));
    }

    /** The queue puts a job that has thrown back, unless that was its last attempt. */
    method TryAgain(c: nat)
      requires Valid() && c in state.calls && state.calls[c].Failing? && state.calls[c].made + 1 < ATTEMPTS
      modifies this
      ensures Valid() && state == old(state).(jobs := old(state).jobs + multiset{old(state).calls[c].made + 1},
                                              calls := old(state).calls - {c})
    {
      hide Reaches;
      Do(Retry(c));
    }
  }

  lemma StillFresh(
    before: seq<(Hash, nat)>, after: seq<(Hash, nat)>, chain: Verdicts, attempts: seq<Attempt>, k: nat)
    requires k < |attempts| && Distinct(attempts) && AllFresh(before, chain, attempts[k..])
    requires after == before || (!attempts[k].NotSent? && |after| == |before| + 1 && after[..|before|] == before
                                 && after[|before|].0 == attempts[k].hash)
    ensures AllFresh(after, chain, attempts[k + 1..])
  {
    var rest := attempts[k + 1..];
    forall i | 0 <= i < |rest| ensures Fresh(after, chain, rest[i]) {
      assert rest[i] == attempts[k..][i + 1];
      forall n | 0 <= n < |after| && !rest[i].NotSent? ensures after[n].0 != rest[i].hash {
        if n < |before| { assert after[n] == before[n]; }
      }
    }
  }

  /** Whatever the methods have done, every execTransaction they sent carried enough signatures. */
  lemma MethodsAreAuthorised(s: State, chain: Verdicts, moves: seq<Move>, threshold: nat)
    requires Reaches(Proposed(threshold), chain, moves, s)
    ensures forall i :: 0 <= i < |s.submissions| ==> s.submissions[i].1 >= threshold
    ensures s.status == Executed ==> s.record.Some? && Mines(chain, s.record.value.hash)
  {
    ProposedIsFine(threshold, chain);
    EverySubmissionIsAuthorised(Proposed(threshold), chain, moves);
    ExecutedIsJustified(Proposed(threshold), chain, moves);
  }
}

/** The transaction creator of bitcoincore
    (bitcoincore/.../transactions/TransactionCreator.kt).

    Two public entry points pick a builder operation; one shared path then runs
    the send precheck, the build, `processCreated` (with one bloom-filter
    regeneration when the processor reports an expired filter) and a best-effort
    `sendPendingTransactions`, and returns the built transaction.

    The collaborators (builder, pending-transaction processor, transaction
    sender, bloom filter manager) are not modelled: for one call of `create`,
    a `Responses` value says what each of them returns or raises if it is
    called. The model records which collaborator calls are made, with their
    arguments, and what `create` returns or raises. */
module CoreCreator {
  import opened Common

  /** Opaque pass-through data of the builder's signature. */
  datatype UnspentOutput = UnspentOutput(id: nat)
  datatype PluginData = PluginData(payload: seq<bv8>)
  datatype SortType = SortType(code: nat)

  /** A built, signed transaction; `hash` is its identity. */
  datatype FullTransaction = FullTransaction(hash: seq<bv8>, body: seq<bv8>)

  /** The exceptions that reach or leave `create`. `TransactionCreationException`
      and its subclass `TransactionAlreadyExists` are the creator's own error
      classes; `Raised` is any other exception a collaborator throws (the send
      precheck's refusal, a builder failure, a processor failure, ...). */
  datatype Error =
    | BloomFilterExpired
    | TransactionCreationException(message: string)
    | TransactionAlreadyExists(message: string)
    | Raised(name: string, message: string)

  /** `TransactionAlreadyExists` is a subclass of `TransactionCreationException`. */
  predicate IsTransactionCreationException(e: Error) {
    e.TransactionCreationException? || e.TransactionAlreadyExists?
  }

  /** The argument list of the builder operation an entry point calls: the
      eight-argument `buildTransaction` of the all-inputs entry point, or the
      single-`UnspentOutput` one. */
  datatype BuildRequest =
    | AllInputs(toAddress: string, value: Int64, feeRate: Int32, senderPay: bool,
                sortType: SortType, unspentOutputs: Option<seq<UnspentOutput>>,
                pluginData: map<Int8, PluginData>, rbfEnabled: bool)
    | SingleInput(unspentOutput: UnspentOutput, toAddress: string, feeRate: Int32,
                  sortType: SortType, rbfEnabled: bool)

  /** One collaborator call made by `create`. */
  datatype Call =
    | CanSendTransaction
    | BuildTransaction(request: BuildRequest)
    | ProcessCreated(transaction: FullTransaction)
    | RegenerateBloomFilter
    | SendPendingTransactions

  /** What each collaborator does if `create` calls it. */
  datatype Responses = Responses(
    canSend: Outcome<Error>,
    built: Result<FullTransaction, Error>,
    processed: Outcome<Error>,
    regenerated: Outcome<Error>,
    sent: Outcome<Error>)

  /** The calls one `create` makes, and what it returns or raises. */
  datatype Execution = Execution(calls: seq<Call>, result: Result<FullTransaction, Error>)

  /** The commit step: `processCreated`, and, when it raises `BloomFilterExpired`,
      `regenerateBloomFilter`, whose own outcome then decides the step. */
  datatype CommitStep = CommitStep(calls: seq<Call>, outcome: Outcome<Error>)

  function Commit(transaction: FullTransaction, responses: Responses): (c: CommitStep)
    ensures |c.calls| > 0 && c.calls[0] == ProcessCreated(transaction)
    ensures RegenerateBloomFilter in c.calls <==> responses.processed == Fail(BloomFilterExpired)
    ensures c.outcome.Pass? <==> CommitCompletes(responses)
    ensures c.outcome.Fail? ==> c.outcome.error == BloomFilterExpired ==>
              responses.regenerated == Fail(BloomFilterExpired)
  {
    if responses.processed == Fail(BloomFilterExpired) then
      CommitStep([ProcessCreated(transaction), RegenerateBloomFilter], responses.regenerated)
    else
      CommitStep([ProcessCreated(transaction)], responses.processed)
  }

  /** The private `create(transactionBuilderFunction)`, with the builder call
      fixed by `request`. */
  function Execute(request: BuildRequest, responses: Responses): (e: Execution)
    ensures e.result.Success? ==>
              && responses.built == Success(e.result.value)
              && |e.calls| > 0 && e.calls[|e.calls| - 1] == SendPendingTransactions
    ensures e.result.Failure? ==> SendPendingTransactions !in e.calls
  {
    if responses.canSend.Fail? then
      Execution([CanSendTransaction], Failure(responses.canSend.error))
    else if responses.built.Failure? then
      Execution([CanSendTransaction, BuildTransaction(request)], Failure(responses.built.error))
    else
      var transaction := responses.built.value;
      var commit := Commit(transaction, responses);
      var committed := [CanSendTransaction, BuildTransaction(request)] + commit.calls;
      if commit.outcome.Fail? then
        Execution(committed, Failure(commit.outcome.error))
      else
        // the outcome of sendPendingTransactions is ignored
        Execution(committed + [SendPendingTransactions], Success(transaction))
  }

  /** The commit step completed: `processCreated` returned, or it raised
      `BloomFilterExpired` and the regeneration returned. */
  predicate CommitCompletes(responses: Responses) {
    || responses.processed.Pass?
    || (responses.processed == Fail(BloomFilterExpired) && responses.regenerated.Pass?)
  }

  // ---------------------------------------------------------------------------
  // The per-call state machine: precheck, build, commit, optional filter
  // regeneration, broadcast. A trace of calls is a walk through it.

  datatype Phase = Start | Prechecked | Built | Processed | Regenerated | Broadcast

  function Next(p: Phase, c: Call): Option<Phase> {
    match (p, c)
    case (Start, CanSendTransaction) => Some(Prechecked)
    case (Prechecked, BuildTransaction(_)) => Some(Built)
    case (Built, ProcessCreated(_)) => Some(Processed)
    case (Processed, RegenerateBloomFilter) => Some(Regenerated)
    case (Processed, SendPendingTransactions) => Some(Broadcast)
    case (Regenerated, SendPendingTransactions) => Some(Broadcast)
    case _ => None
  }

  /** The phase reached by following `calls` from `p`, or None if some call is
      not allowed where it occurs. */
  function Walk(p: Phase, calls: seq<Call>): Option<Phase>
    decreases |calls|
  {
    if calls == [] then Some(p)
    else match Next(p, calls[0])
      case None => None
      case Some(q) => Walk(q, calls[1..])
  }

  lemma {:induction false} WalkConcat(p: Phase, a: seq<Call>, b: seq<Call>)
    requires Walk(p, a).Some?
    ensures Walk(p, a + b) == Walk(Walk(p, a).value, b)
    decreases |a|
  {
    if a == [] {
      assert a + b == b;
    } else {
      assert (a + b)[0] == a[0];
      assert (a + b)[1..] == a[1..] + b;
      WalkConcat(Next(p, a[0]).value, a[1..], b);
    }
  }

  // ---------------------------------------------------------------------------
  // Properties of one call.

  /** Every trace is a walk of the state machine from its start, and the walk
      reaches the broadcast phase exactly when `create` returns normally. */
  lemma CallsFollowCreationPhases(request: BuildRequest, responses: Responses)
    ensures Walk(Start, Execute(request, responses).calls).Some?
    ensures Walk(Start, Execute(request, responses).calls) == Some(Broadcast)
            <==> Execute(request, responses).result.Success?
  {
    var e := Execute(request, responses);
    var pre := [CanSendTransaction, BuildTransaction(request)];
    assert Walk(Start, [CanSendTransaction]) == Some(Prechecked);
    assert Walk(Start, pre) == Some(Built) by {
      WalkConcat(Start, [CanSendTransaction], [BuildTransaction(request)]);
    }
    if responses.canSend.Pass? && responses.built.Success? {
      var c := Commit(responses.built.value, responses);
      var last := if responses.processed == Fail(BloomFilterExpired) then Regenerated else Processed;
      assert Walk(Built, c.calls) == Some(last) by {
        if responses.processed == Fail(BloomFilterExpired) {
          WalkConcat(Built, [ProcessCreated(responses.built.value)], [RegenerateBloomFilter]);
        }
      }
      WalkConcat(Start, pre, c.calls);
      if c.outcome.Pass? {
        WalkConcat(Start, pre + c.calls, [SendPendingTransactions]);
      }
    }
  }

  /** `canSendTransaction` is always the first call and is made exactly once. */
  lemma PrecheckIsFirstCall(request: BuildRequest, responses: Responses)
    ensures |Execute(request, responses).calls| > 0
    ensures Execute(request, responses).calls[0] == CanSendTransaction
    ensures Count(Execute(request, responses).calls, CanSendTransaction) == 1
  {
    var pre := [CanSendTransaction, BuildTransaction(request)];
    assert Count(pre, CanSendTransaction) == 1 by {
      CountConcat([CanSendTransaction], [BuildTransaction(request)], CanSendTransaction);
    }
    if responses.canSend.Pass? && responses.built.Success? {
      var c := Commit(responses.built.value, responses);
      var tail := if c.outcome.Pass? then [SendPendingTransactions] else [];
      assert Execute(request, responses).calls == (pre + c.calls) + tail;
      assert CanSendTransaction !in c.calls && CanSendTransaction !in tail;
      CountConcat(pre, c.calls, CanSendTransaction);
      CountConcat(pre + c.calls, tail, CanSendTransaction);
    }
  }

  /** A refused precheck propagates unchanged, and nothing else is called. */
  lemma PrecheckFailureAborts(request: BuildRequest, responses: Responses)
    requires responses.canSend.Fail?
    ensures Execute(request, responses).result == Failure(responses.canSend.error)
    ensures Execute(request, responses).calls == [CanSendTransaction]
  {
  }

  /** After a passed precheck, exactly one builder operation is called, second,
      with the entry point's arguments unchanged. */
  lemma BuilderCalledOnceWithRequest(request: BuildRequest, responses: Responses)
    requires responses.canSend.Pass?
    ensures |Execute(request, responses).calls| > 1
    ensures Execute(request, responses).calls[1] == BuildTransaction(request)
    ensures forall i | 0 <= i < |Execute(request, responses).calls| &&
                       Execute(request, responses).calls[i].BuildTransaction? :: i == 1
  {
  }

  /** A builder failure propagates unchanged; the processor and the sender's
      `sendPendingTransactions` are not called. */
  lemma BuildFailurePropagates(request: BuildRequest, responses: Responses)
    requires responses.canSend.Pass? && responses.built.Failure?
    ensures Execute(request, responses).result == Failure(responses.built.error)
    ensures Execute(request, responses).calls == [CanSendTransaction, BuildTransaction(request)]
  {
  }

  /** The processor is only ever handed the transaction the builder produced. */
  lemma ProcessorReceivesBuiltTransaction(request: BuildRequest, responses: Responses)
    ensures forall i | 0 <= i < |Execute(request, responses).calls| &&
                       Execute(request, responses).calls[i].ProcessCreated? ::
              responses.built.Success? &&
              Execute(request, responses).calls[i].transaction == responses.built.value
  {
  }

  /** `BloomFilterExpired` from `processCreated` leads to exactly one
      `regenerateBloomFilter`; when that returns, `create` goes on to
      `sendPendingTransactions` and returns the built transaction. */
  lemma BloomFilterExpiryRecovers(request: BuildRequest, responses: Responses)
    requires responses.canSend.Pass? && responses.built.Success?
    requires responses.processed == Fail(BloomFilterExpired)
    ensures Count(Execute(request, responses).calls, RegenerateBloomFilter) == 1
    ensures responses.regenerated.Pass? ==>
              && Before(Execute(request, responses).calls, RegenerateBloomFilter, SendPendingTransactions)
              && Execute(request, responses).result == Success(responses.built.value)
  {
    var tx := responses.built.value;
    var e := Execute(request, responses);
    var head := [CanSendTransaction, BuildTransaction(request), ProcessCreated(tx)];
    var tail := e.calls[|head| + 1..];
    assert e.calls == head + [RegenerateBloomFilter] + tail;
    assert RegenerateBloomFilter !in head;
    assert RegenerateBloomFilter !in tail;
    CountConcat(head, [RegenerateBloomFilter], RegenerateBloomFilter);
    CountConcat(head + [RegenerateBloomFilter], tail, RegenerateBloomFilter);
    if responses.regenerated.Pass? {
      assert e.calls[3] == RegenerateBloomFilter && e.calls[4] == SendPendingTransactions;
    }
  }

  /** An exception from `regenerateBloomFilter` (thrown inside the catch block)
      propagates, and nothing is sent. */
  lemma RegenerationFailurePropagates(request: BuildRequest, responses: Responses)
    requires responses.canSend.Pass? && responses.built.Success?
    requires responses.processed == Fail(BloomFilterExpired) && responses.regenerated.Fail?
    ensures Execute(request, responses).result == Failure(responses.regenerated.error)
    ensures SendPendingTransactions !in Execute(request, responses).calls
  {
  }

  /** Any other error of `processCreated` (`TransactionAlreadyExists`, say)
      propagates unchanged, with no regeneration and no send. */
  lemma OtherCommitErrorPropagates(request: BuildRequest, responses: Responses)
    requires responses.canSend.Pass? && responses.built.Success?
    requires responses.processed.Fail? && responses.processed.error != BloomFilterExpired
    ensures Execute(request, responses).result == Failure(responses.processed.error)
    ensures RegenerateBloomFilter !in Execute(request, responses).calls
    ensures SendPendingTransactions !in Execute(request, responses).calls
  {
  }

  /** The filter is never regenerated when `processCreated` returns normally. */
  lemma NoRegenerationAfterNormalCommit(request: BuildRequest, responses: Responses)
    requires responses.processed.Pass?
    ensures RegenerateBloomFilter !in Execute(request, responses).calls
  {
  }

  /** Regeneration and broadcast each happen at most once per call. */
  lemma AtMostOneRegenerationAndSend(request: BuildRequest, responses: Responses)
    ensures Count(Execute(request, responses).calls, RegenerateBloomFilter) <= 1
    ensures Count(Execute(request, responses).calls, SendPendingTransactions) <= 1
  {
    if responses.canSend.Pass? && responses.built.Success? {
      var c := Commit(responses.built.value, responses);
      var pre := [CanSendTransaction, BuildTransaction(request)];
      var tail := if c.outcome.Pass? then [SendPendingTransactions] else [];
      assert Execute(request, responses).calls == (pre + c.calls) + tail;
      CommitCallsOnceEach(responses.built.value, responses);
      assert Count(pre, RegenerateBloomFilter) == 0 && Count(pre, SendPendingTransactions) == 0;
      assert Count(tail, RegenerateBloomFilter) == 0;
      CountConcat(pre, c.calls, RegenerateBloomFilter);
      CountConcat(pre, c.calls, SendPendingTransactions);
      CountConcat(pre + c.calls, tail, RegenerateBloomFilter);
      CountConcat(pre + c.calls, tail, SendPendingTransactions);
    }
  }

  /** The commit step regenerates the filter at most once and never sends. */
  lemma CommitCallsOnceEach(transaction: FullTransaction, responses: Responses)
    ensures Count(Commit(transaction, responses).calls, RegenerateBloomFilter) <= 1
    ensures Count(Commit(transaction, responses).calls, SendPendingTransactions) == 0
  {
    if responses.processed == Fail(BloomFilterExpired) {
      CountConcat([ProcessCreated(transaction)], [RegenerateBloomFilter], RegenerateBloomFilter);
    }
  }

  /** `create` returns normally exactly when the precheck passed, the build
      succeeded and the commit step completed; it then returns the built
      transaction, and `sendPendingTransactions` was called exactly then. */
  lemma SucceedsExactlyWhenCommitted(request: BuildRequest, responses: Responses)
    ensures Execute(request, responses).result.Success? <==>
              responses.canSend.Pass? && responses.built.Success? && CommitCompletes(responses)
    ensures Execute(request, responses).result.Success? ==>
              Execute(request, responses).result.value == responses.built.value
    ensures SendPendingTransactions in Execute(request, responses).calls <==>
              Execute(request, responses).result.Success?
  {
  }

  /** Whatever `sendPendingTransactions` does, the outcome of `create` (and the
      calls it makes) is the same as when the send succeeds. */
  lemma SendFailureIsSwallowed(request: BuildRequest, responses: Responses, sent: Outcome<Error>)
    ensures Execute(request, responses.(sent := sent)) == Execute(request, responses.(sent := Pass))
  {
  }

  /** `create` never invents or reclassifies an error: a raised error is the one
      some collaborator raised, and never the caught `BloomFilterExpired`
      unless the regeneration itself raised it. */
  lemma ErrorsComeFromCollaborators(request: BuildRequest, responses: Responses)
    requires Execute(request, responses).result.Failure?
    ensures var err := Execute(request, responses).result.error;
              responses.canSend == Fail(err) || responses.built == Failure(err) ||
              responses.processed == Fail(err) || responses.regenerated == Fail(err)
    ensures Execute(request, responses).result.error == BloomFilterExpired ==>
              responses.canSend == Fail(BloomFilterExpired) ||
              responses.built == Failure(BloomFilterExpired) ||
              responses.regenerated == Fail(BloomFilterExpired)
  {
  }

  /** The creator's own error classes never originate in `create`: a
      `TransactionCreationException` (such as `TransactionAlreadyExists`) that
      `create` raises is one the precheck, the builder, the processor or the filter
      regeneration raised. */
  lemma CreationExceptionsComeFromCollaborators(request: BuildRequest, responses: Responses)
    requires Execute(request, responses).result.Failure?
    requires IsTransactionCreationException(Execute(request, responses).result.error)
    ensures var err := Execute(request, responses).result.error;
              responses.canSend == Fail(err) || responses.built == Failure(err) ||
              responses.processed == Fail(err) || responses.regenerated == Fail(err)
    ensures responses.processed.Fail? && IsTransactionCreationException(responses.processed.error) &&
            responses.canSend.Pass? && responses.built.Success? ==>
              Execute(request, responses).result == Failure(responses.processed.error)
  {
  }

  // ---------------------------------------------------------------------------
  // The creator object. It holds no state of its own across calls; `calls`
  // records every collaborator call it has made, in order.

  class TransactionCreator {
    var calls: seq<Call>

    constructor ()
      ensures calls == []
    {
      calls := [];
    }

    /** `create(toAddress, value, feeRate, senderPay, sortType, unspentOutputs,
        pluginData, rbfEnabled)`: coin selection over all inputs. */
    method CreateFromAllInputs(toAddress: string, value: Int64, feeRate: Int32, senderPay: bool,
                               sortType: SortType, unspentOutputs: Option<seq<UnspentOutput>>,
                               pluginData: map<Int8, PluginData>, rbfEnabled: bool,
                               responses: Responses)
      returns (result: Result<FullTransaction, Error>)
      modifies this
      ensures var e := Execute(AllInputs(toAddress, value, feeRate, senderPay, sortType,
                                         unspentOutputs, pluginData, rbfEnabled), responses);
              calls == old(calls) + e.calls && result == e.result
    {
      result := Create(AllInputs(toAddress, value, feeRate, senderPay, sortType,
                                 unspentOutputs, pluginData, rbfEnabled), responses);
    }

    /** `create(unspentOutput, toAddress, feeRate, sortType, rbfEnabled)`: spend
        one unspent output. */
    method CreateFromSingleInput(unspentOutput: UnspentOutput, toAddress: string, feeRate: Int32,
                                 sortType: SortType, rbfEnabled: bool, responses: Responses)
      returns (result: Result<FullTransaction, Error>)
      modifies this
      ensures var e := Execute(SingleInput(unspentOutput, toAddress, feeRate, sortType, rbfEnabled),
                               responses);
              calls == old(calls) + e.calls && result == e.result
    {
      result := Create(SingleInput(unspentOutput, toAddress, feeRate, sortType, rbfEnabled),
                       responses);
    }

    /** The shared path. An early `return` of a failure stands for an exception
        leaving `create`. */
    method Create(request: BuildRequest, responses: Responses)
      returns (result: Result<FullTransaction, Error>)
      modifies this
      ensures calls == old(calls) + Execute(request, responses).calls
      ensures result == Execute(request, responses).result
    {
      var canSend := CanSendTransaction(responses);
      if canSend.Fail? {
        return Failure(canSend.error);
      }

      var built := BuildTransaction(request, responses);
      if built.Failure? {
        return Failure(built.error);
      }
      var transaction := built.value;

      // try { processCreated } catch (BloomFilterExpired) { regenerateBloomFilter }
      var processed := ProcessCreated(transaction, responses);
      if processed == Fail(BloomFilterExpired) {
        var regenerated := RegenerateBloomFilter(responses);
        if regenerated.Fail? {
          return Failure(regenerated.error);
        }
      } else if processed.Fail? {
        return Failure(processed.error);
      }

      // try { sendPendingTransactions } catch (Exception) { }
      var sent := SendPendingTransactions(responses);

      result := Success(transaction);
    }

    // The collaborator calls: each is recorded, and answers as `responses` says.

    method CanSendTransaction(responses: Responses) returns (o: Outcome<Error>)
      modifies this
      ensures calls == old(calls) + [Call.CanSendTransaction] && o == responses.canSend
    {
      calls := calls + [Call.CanSendTransaction];
      o := responses.canSend;
    }

    method BuildTransaction(request: BuildRequest, responses: Responses)
      returns (r: Result<FullTransaction, Error>)
      modifies this
      ensures calls == old(calls) + [Call.BuildTransaction(request)] && r == responses.built
    {
      calls := calls + [Call.BuildTransaction(request)];
      r := responses.built;
    }

    method ProcessCreated(transaction: FullTransaction, responses: Responses) returns (o: Outcome<Error>)
      modifies this
      ensures calls == old(calls) + [Call.ProcessCreated(transaction)] && o == responses.processed
    {
      calls := calls + [Call.ProcessCreated(transaction)];
      o := responses.processed;
    }

    method RegenerateBloomFilter(responses: Responses) returns (o: Outcome<Error>)
      modifies this
      ensures calls == old(calls) + [Call.RegenerateBloomFilter] && o == responses.regenerated
    {
      calls := calls + [Call.RegenerateBloomFilter];
      o := responses.regenerated;
    }

    method SendPendingTransactions(responses: Responses) returns (o: Outcome<Error>)
      modifies this
      ensures calls == old(calls) + [Call.SendPendingTransactions] && o == responses.sent
    {
      calls := calls + [Call.SendPendingTransactions];
      o := responses.sent;
    }
  }
}

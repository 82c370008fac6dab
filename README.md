# Transaction creation coordinators of bitcoin-kit-android, modelled in Dafny

The wallet engine turns "pay this address this amount" into a built, locally
stored and broadcast transaction through a `TransactionCreator`. Two versions of
it exist and both are modelled here:

- `CoreCreator` (`core_creator.dfy`), the bitcoincore creator. Two public
  `create` overloads (coin selection over all inputs, or spending one unspent
  output) hand a builder call to one private `create`: the sender's
  `canSendTransaction` precheck, the build, the pending-transaction processor's
  `processCreated`, one `regenerateBloomFilter` when that raises
  `BloomFilterExpired`, a `sendPendingTransactions` whose exceptions are
  swallowed, and the return of the built transaction. The creator's error
  classes are `TransactionCreationException` and its subclass
  `TransactionAlreadyExists`; the latter is only ever raised by collaborators
  here and propagates like any other processor error.
- `KitCreator` (`kit_creator.dfy`), the older bitcoinkit creator. `create`
  obtains a Realm, builds a transaction (the builder reads the Realm), throws
  `TransactionAlreadyExists("hashHexReversed = <hash>")` if a stored transaction
  has the same hash, inserts the transaction and runs the processor on it
  inside one Realm write transaction, closes the Realm, and calls the peer
  group's `sendPendingTransactions` without catching its exceptions.
- `Common` (`common.dfy`): collaborator outcomes (`Outcome`, `Result`),
  Kotlin's nullable references and fixed-width integers, and counting and
  ordering over traces.

The collaborators (builder, processors, sender, peer group, bloom filter
manager) are not modelled. For one `create` call, a `Responses` value says what
each collaborator returns or raises if it is called. Each model is a pure
function `Execute` giving the calls made, with their arguments, and what `create`
returns or raises. For bitcoinkit it also gives the new store. A class
`TransactionCreator` carries out the same steps imperatively on its fields, and
its methods are proved equal to `Execute`. The lemmas state the ordering,
propagation, recovery and store guarantees about `Execute`.

In bitcoinkit the Transaction table is a set of transactions, not a map keyed by
hash. The invariant "no two stored transactions share a `hashHexReversed`" is then
something the duplicate check must keep, and `ExecuteAllKeepsConsistent` proves it
is kept over any sequence of calls. A second set records the transactions the
processor has been applied to. The invariant says it equals the stored set:
nothing is ever half persisted. `openRealms` counts Realm handles that were
obtained and not closed.

The error classes `TransactionCreationException` and `TransactionAlreadyExists`
of each file are constructors of that module's `Error` datatype. The other
collaborator errors are here too: `BloomFilterExpired`, and `Raised` for any other
exception.

Points where the code may behave differently from what a caller would expect:

- In bitcoincore, `BloomFilterExpired` from `processCreated` is caught, and
  `regenerateBloomFilter` is called inside the catch block. An exception that
  `regenerateBloomFilter` throws therefore propagates out of `create`, and no send
  happens (`RegenerationFailurePropagates`).
- bitcoincore's `create` does no duplicate check of its own. It never raises a
  `TransactionCreationException` itself: one escapes only when a collaborator
  raised it, and `TransactionAlreadyExists` is just one of the errors
  `processCreated` may raise (`CreationExceptionsComeFromCollaborators`).
- The precheck's refusal is whatever exception `canSendTransaction` throws. The
  creator neither raises nor translates one for it.
- bitcoinkit does not swallow send failures. After a committed write, an
  exception from `sendPendingTransactions` is the outcome of `create`
  (`NewTransactionIsCommitted`).
- bitcoinkit closes the Realm only on the path that commits. Every path on which
  the write does not commit leaves the handle it obtained open. A send failure
  after the commit leaves it closed (`RealmClosedOnlyAfterCommit`).

## Model

| member | source | states |
|---|---|---|
| CoreCreator.TransactionCreator.CreateFromAllInputs | bitcoincore/src/main/kotlin/io/horizontalsystems/bitcoincore/transactions/TransactionCreator.kt:17-40 | the calls made and the result are those of the shared path with the eight-argument `buildTransaction`, all arguments passed on unchanged |
| CoreCreator.TransactionCreator.CreateFromSingleInput | bitcoincore/src/main/kotlin/io/horizontalsystems/bitcoincore/transactions/TransactionCreator.kt:42-53 | the calls made and the result are those of the shared path with the single-`UnspentOutput` `buildTransaction`, arguments unchanged |
| CoreCreator.TransactionCreator.Create | bitcoincore/src/main/kotlin/io/horizontalsystems/bitcoincore/transactions/TransactionCreator.kt:55-73 | the imperative shared path, with try/catch as early returns, appends exactly the calls of `Execute` to the log and returns its result |
| CoreCreator.TransactionCreator.CanSendTransaction | bitcoincore/src/main/kotlin/io/horizontalsystems/bitcoincore/transactions/TransactionCreator.kt:56 | the precheck call is logged and answers as scripted |
| CoreCreator.TransactionCreator.BuildTransaction | bitcoincore/src/main/kotlin/io/horizontalsystems/bitcoincore/transactions/TransactionCreator.kt:58 | the builder call is logged with its request and answers as scripted |
| CoreCreator.TransactionCreator.ProcessCreated | bitcoincore/src/main/kotlin/io/horizontalsystems/bitcoincore/transactions/TransactionCreator.kt:61 | the processor call is logged with its transaction and answers as scripted |
| CoreCreator.TransactionCreator.RegenerateBloomFilter | bitcoincore/src/main/kotlin/io/horizontalsystems/bitcoincore/transactions/TransactionCreator.kt:63 | the regeneration call is logged and answers as scripted |
| CoreCreator.TransactionCreator.SendPendingTransactions | bitcoincore/src/main/kotlin/io/horizontalsystems/bitcoincore/transactions/TransactionCreator.kt:67 | the send call is logged and answers as scripted |
| CoreCreator.CallsFollowCreationPhases | bitcoincore/src/main/kotlin/io/horizontalsystems/bitcoincore/transactions/TransactionCreator.kt:55-73 | every trace is a walk of the per-call state machine (precheck, build, commit, optional regeneration, broadcast), and it reaches broadcast if and only if `create` returns normally |
| CoreCreator.PrecheckIsFirstCall | bitcoincore/src/main/kotlin/io/horizontalsystems/bitcoincore/transactions/TransactionCreator.kt:56 | `canSendTransaction` is the first call on every path and occurs exactly once |
| CoreCreator.PrecheckFailureAborts | bitcoincore/src/main/kotlin/io/horizontalsystems/bitcoincore/transactions/TransactionCreator.kt:56-58 | a raising precheck propagates its error unchanged and no build, process, regeneration or send call follows |
| CoreCreator.BuilderCalledOnceWithRequest | bitcoincore/src/main/kotlin/io/horizontalsystems/bitcoincore/transactions/TransactionCreator.kt:55-58 | after a passed precheck, the second call is the builder call with the entry point's request, and no other builder call occurs |
| CoreCreator.BuildFailurePropagates | bitcoincore/src/main/kotlin/io/horizontalsystems/bitcoincore/transactions/TransactionCreator.kt:58-61 | a builder error propagates unchanged, and neither `processCreated` nor `sendPendingTransactions` is called |
| CoreCreator.ProcessorReceivesBuiltTransaction | bitcoincore/src/main/kotlin/io/horizontalsystems/bitcoincore/transactions/TransactionCreator.kt:58-61 | any `processCreated` call receives exactly the transaction the builder produced |
| CoreCreator.BloomFilterExpiryRecovers | bitcoincore/src/main/kotlin/io/horizontalsystems/bitcoincore/transactions/TransactionCreator.kt:60-72 | `BloomFilterExpired` from `processCreated` leads to exactly one regeneration; if that returns, the send follows it and `create` returns the built transaction |
| CoreCreator.RegenerationFailurePropagates | bitcoincore/src/main/kotlin/io/horizontalsystems/bitcoincore/transactions/TransactionCreator.kt:62-64 | an exception thrown by the regeneration inside the catch block propagates, and nothing is sent |
| CoreCreator.OtherCommitErrorPropagates | bitcoincore/src/main/kotlin/io/horizontalsystems/bitcoincore/transactions/TransactionCreator.kt:60-64 | any other `processCreated` error (such as `TransactionAlreadyExists`) propagates unchanged, with no regeneration and no send |
| CoreCreator.NoRegenerationAfterNormalCommit | bitcoincore/src/main/kotlin/io/horizontalsystems/bitcoincore/transactions/TransactionCreator.kt:60-64 | the filter is never regenerated when `processCreated` returns normally |
| CoreCreator.CommitCallsOnceEach | bitcoincore/src/main/kotlin/io/horizontalsystems/bitcoincore/transactions/TransactionCreator.kt:60-64 | the commit step regenerates the filter at most once and never sends |
| CoreCreator.AtMostOneRegenerationAndSend | bitcoincore/src/main/kotlin/io/horizontalsystems/bitcoincore/transactions/TransactionCreator.kt:60-70 | on every path, regeneration and `sendPendingTransactions` each occur at most once |
| CoreCreator.SucceedsExactlyWhenCommitted | bitcoincore/src/main/kotlin/io/horizontalsystems/bitcoincore/transactions/TransactionCreator.kt:55-73 | `create` returns normally if and only if the precheck passed, the build succeeded and the commit step completed; it then returns the built transaction, and the send was called if and only if it returns normally |
| CoreCreator.SendFailureIsSwallowed | bitcoincore/src/main/kotlin/io/horizontalsystems/bitcoincore/transactions/TransactionCreator.kt:66-72 | whatever `sendPendingTransactions` does, the calls and the result equal those of a successful send |
| CoreCreator.ErrorsComeFromCollaborators | bitcoincore/src/main/kotlin/io/horizontalsystems/bitcoincore/transactions/TransactionCreator.kt:55-73 | a raised error is one a collaborator raised; `BloomFilterExpired` from `processCreated` never escapes |
| CoreCreator.Execute | bitcoincore/src/main/kotlin/io/horizontalsystems/bitcoincore/transactions/TransactionCreator.kt:55-73 | a normal return carries exactly the builder's transaction and the last call is `sendPendingTransactions`; an exception means no send was attempted |
| CoreCreator.Commit | bitcoincore/src/main/kotlin/io/horizontalsystems/bitcoincore/transactions/TransactionCreator.kt:60-64 | the commit step starts with `processCreated` of the transaction, regenerates the filter if and only if that raised `BloomFilterExpired`, completes exactly when the processor or the regeneration returned, and lets `BloomFilterExpired` out only when the regeneration raised it |
| CoreCreator.CreationExceptionsComeFromCollaborators | bitcoincore/src/main/kotlin/io/horizontalsystems/bitcoincore/transactions/TransactionCreator.kt:55-76 | a `TransactionCreationException` or `TransactionAlreadyExists` out of `create` is one a collaborator raised; one raised by `processCreated` after a passed precheck and a successful build is the result |
| KitCreator.HasHash | bitcoinkit/src/main/kotlin/io/horizontalsystems/bitcoinkit/transactions/TransactionCreator.kt:18 | the Realm query finds a transaction if and only if the hash is among the stored transactions' hashes |
| KitCreator.AlreadyExistsMessage | bitcoinkit/src/main/kotlin/io/horizontalsystems/bitcoinkit/transactions/TransactionCreator.kt:19 | the message is the prefix `hashHexReversed = ` followed by exactly the hash |
| KitCreator.Execute | bitcoinkit/src/main/kotlin/io/horizontalsystems/bitcoinkit/transactions/TransactionCreator.kt:14-29 | one `create` never removes a stored transaction, adds at most the built one, and leaves at most one more Realm handle open |
| KitCreator.NormalReturnMeansStored | bitcoinkit/src/main/kotlin/io/horizontalsystems/bitcoinkit/transactions/TransactionCreator.kt:22-28 | a normal return means the write committed and the built transaction is stored and processed; after a commit, `create` returns normally if and only if the send does |
| KitCreator.CreationExceptionsOfCreate | bitcoinkit/src/main/kotlin/io/horizontalsystems/bitcoinkit/transactions/TransactionCreator.kt:18-32 | a `TransactionCreationException` or `TransactionAlreadyExists` out of `create` was raised by the builder, the processor or the send, or is the duplicate refusal with the stored hash in its message |
| KitCreator.TransactionCreator.Create | bitcoinkit/src/main/kotlin/io/horizontalsystems/bitcoinkit/transactions/TransactionCreator.kt:14-29 | the imperative `create` keeps the store invariant, and its new store, open-Realm count, log and result are those of `Execute` |
| KitCreator.BuildComesFirst | bitcoinkit/src/main/kotlin/io/horizontalsystems/bitcoinkit/transactions/TransactionCreator.kt:15-16 | on every path the Realm is obtained and then the builder is called, before any check or write |
| KitCreator.BuildFailureLeavesStoreUnchanged | bitcoinkit/src/main/kotlin/io/horizontalsystems/bitcoinkit/transactions/TransactionCreator.kt:15-18 | a builder error propagates, the store is unchanged, the Realm stays open, and no check, write or send occurs |
| KitCreator.DuplicateIsRefused | bitcoinkit/src/main/kotlin/io/horizontalsystems/bitcoinkit/transactions/TransactionCreator.kt:18-20 | a stored hash leads to `TransactionAlreadyExists("hashHexReversed = <hash>")`: nothing is inserted or processed, the Realm is not closed, nothing is sent |
| KitCreator.NewTransactionIsCommitted | bitcoinkit/src/main/kotlin/io/horizontalsystems/bitcoinkit/transactions/TransactionCreator.kt:22-28 | an absent hash with a passing processor gives the old store plus exactly the new transaction, stored and processed; the calls are build, check, insert, process, close, send; the send's outcome is the result |
| KitCreator.ProcessorFailureRollsBack | bitcoinkit/src/main/kotlin/io/horizontalsystems/bitcoinkit/transactions/TransactionCreator.kt:22-25 | a processor error cancels the write transaction: the store is unchanged, the error propagates, the Realm stays open, nothing is sent |
| KitCreator.OnlyWriteIsTheInsert | bitcoinkit/src/main/kotlin/io/horizontalsystems/bitcoinkit/transactions/TransactionCreator.kt:22-25 | no stored transaction is removed; insert and processing take effect together or not at all; the store changes if and only if the write commits, and then by exactly the built transaction |
| KitCreator.SendOnlyAfterCommit | bitcoinkit/src/main/kotlin/io/horizontalsystems/bitcoinkit/transactions/TransactionCreator.kt:26-28 | `sendPendingTransactions` is called exactly once if the write commits and never otherwise, after the Realm is closed |
| KitCreator.RealmClosedOnlyAfterCommit | bitcoinkit/src/main/kotlin/io/horizontalsystems/bitcoinkit/transactions/TransactionCreator.kt:15-26 | the Realm is closed if and only if the write commits; on every other path the handle obtained stays open |
| KitCreator.ExecuteKeepsConsistent | bitcoinkit/src/main/kotlin/io/horizontalsystems/bitcoinkit/transactions/TransactionCreator.kt:18-25 | one `create` keeps hashes unique among stored transactions and keeps stored equal to processed |
| KitCreator.SecondCreateOfSameTransactionIsRefused | bitcoinkit/src/main/kotlin/io/horizontalsystems/bitcoinkit/transactions/TransactionCreator.kt:18-25 | after a create commits a transaction, a create that builds it again is refused with `TransactionAlreadyExists` and changes nothing but the open-Realm count |
| KitCreator.ExecuteAllKeepsConsistent | bitcoinkit/src/main/kotlin/io/horizontalsystems/bitcoinkit/transactions/TransactionCreator.kt:14-29 | over any sequence of creates, no two stored transactions share a hash, stored equals processed, and nothing stored is ever removed |

## Left out

- Builder internals are not modelled: coin selection, fees, dust rules, scripts and signing. The builder's answer is a free per-call response. In bitcoinkit that answer is not tied to the store contents the builder reads.
- Processor internals (`PendingTransactionProcessor`, `TransactionProcessor`) are not modelled: UTXO and balance accounting. Processing is recorded only as "applied" or as a raised error.
- `TransactionSender`, `PeerGroup` networking and `BloomFilterManager` filter construction are I/O. They appear only as logged calls with scripted outcomes.
- The Realm engine is not modelled. `executeTransaction` is one atomic step: on an exception inside the block, nothing is written and the exception is rethrown. No code of Realm is part of this model.
- Obtaining a Realm, querying it for the hash (`where(...).findFirst()`, modelled by `HasHash`), inserting into it and closing it are assumed never to fail.
- Concurrent `create` calls, and atomicity of check-and-insert under them, are not modelled. That is the storage layer's concern, and the creators are sequential.
- Hash computation is not modelled. `UnspentOutput`, `IPluginData` and `TransactionDataSortType` are opaque tags passed through unchanged.
- Kotlin's `catch (e: Exception)` does not catch a `Throwable` that is not an `Exception`. The model has only tagged errors, so every error of `sendPendingTransactions` is caught.
- Collaborator answers are chosen independently for each call. The model does not relate, say, two builder answers to each other across calls.

## Not part of this model

- The `RealmFactory`, `TransactionBuilder`, `TransactionProcessor`, `PendingTransactionProcessor`, `TransactionSender`, `PeerGroup` and `BloomFilterManager` classes.

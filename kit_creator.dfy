/** The older transaction creator of bitcoinkit
    (bitcoinkit/.../transactions/TransactionCreator.kt).

    `create` opens a Realm, builds a transaction (the builder reads the Realm),
    refuses it when a stored transaction already has its `hashHexReversed`,
    inserts it and runs the transaction processor on it inside one Realm write
    transaction, closes the Realm and asks the peer group to send pending
    transactions; nothing catches that last call's exceptions.

    The Transaction table is a set of transactions (`transactions`); the
    transactions the processor has been applied to are `processed`; `openRealms`
    counts the Realm handles `create` obtained and did not close. The builder,
    the processor and the peer group are not modelled: a `Responses` value says
    what each returns or raises if called. */
module KitCreator {
  import opened Common

  /** A stored transaction; `hashHexReversed` is its identity, `body` stands for
      everything else it holds. */
  datatype Transaction = Transaction(hashHexReversed: string, body: seq<bv8>)

  /** `TransactionCreationException` and its subclass `TransactionAlreadyExists`
      are the creator's own classes; `Raised` is any exception of a collaborator. */
  datatype Error =
    | TransactionCreationException(message: string)
    | TransactionAlreadyExists(message: string)
    | Raised(name: string, message: string)

  /** The arguments `create` passes to `builder.buildTransaction` besides the Realm. */
  datatype BuildArgs = BuildArgs(value: Int32, address: string, feeRate: Int32, senderPay: bool)

  /** One call `create` makes on its Realm or on a collaborator. */
  datatype Call =
    | GetRealm
    | BuildTransaction(args: BuildArgs)
    | FindByHash(hashHexReversed: string)
    | Insert(transaction: Transaction)
    | Process(transaction: Transaction)
    | CloseRealm
    | SendPendingTransactions

  /** What the builder, the processor and the peer group do if called. */
  datatype Responses = Responses(
    built: Result<Transaction, Error>,
    processed: Outcome<Error>,
    sent: Outcome<Error>)

  datatype State = State(transactions: set<Transaction>, processed: set<Transaction>, openRealms: nat)

  /** The new state, the calls made, and whether `create` returned or raised. */
  datatype Execution = Execution(state: State, calls: seq<Call>, result: Outcome<Error>)

  /** The Realm query of line 18 finds a row: some stored transaction has hash `h`. */
  predicate HasHash(transactions: set<Transaction>, h: string): (found: bool)
    ensures found <==> h in StoredHashes(transactions)
  {
    exists t :: t in transactions && t.hashHexReversed == h
  }

  /** The hashes of the stored transactions. */
  ghost function StoredHashes(transactions: set<Transaction>): set<string> {
    set t | t in transactions :: t.hashHexReversed
  }

  /** `TransactionAlreadyExists` is a subclass of `TransactionCreationException`. */
  predicate IsTransactionCreationException(e: Error) {
    e.TransactionCreationException? || e.TransactionAlreadyExists?
  }

  /** No two stored transactions share a hash. */
  ghost predicate UniqueHashes(transactions: set<Transaction>) {
    forall t, u | t in transactions && u in transactions && t.hashHexReversed == u.hashHexReversed :: t == u
  }

  /** The store invariant: hashes identify stored transactions, and a transaction
      is stored exactly when the processor has been applied to it (nothing is
      half persisted). */
  ghost predicate Consistent(s: State) {
    UniqueHashes(s.transactions) && s.processed == s.transactions
  }

  /** The message the duplicate check puts in `TransactionAlreadyExists`. */
  const AlreadyExistsPrefix := "hashHexReversed = "

  /** The message the duplicate check puts in `TransactionAlreadyExists`; the
      hash can be read back from it. */
  function AlreadyExistsMessage(h: string): (m: string)
    ensures |m| == |AlreadyExistsPrefix| + |h|
    ensures m[..|AlreadyExistsPrefix|] == AlreadyExistsPrefix
    ensures m[|AlreadyExistsPrefix|..] == h
  {
    AlreadyExistsPrefix + h
  }

  /** `create(address, value, feeRate, senderPay)` from state `s`. */
  function Execute(s: State, args: BuildArgs, responses: Responses): (e: Execution)
    ensures s.transactions <= e.state.transactions
    ensures e.state.transactions <= s.transactions + (if responses.built.Success? then {responses.built.value} else {})
    ensures e.state.openRealms <= s.openRealms + 1
  {
    var withRealm := s.(openRealms := s.openRealms + 1);
    var building := [GetRealm, BuildTransaction(args)];
    if responses.built.Failure? then
      Execution(withRealm, building, Fail(responses.built.error))
    else
      var tx := responses.built.value;
      var checked := building + [FindByHash(tx.hashHexReversed)];
      if HasHash(s.transactions, tx.hashHexReversed) then
        Execution(withRealm, checked, Fail(TransactionAlreadyExists(AlreadyExistsMessage(tx.hashHexReversed))))
      else
        var written := checked + [Insert(tx), Process(tx)];
        if responses.processed.Fail? then
          // the write transaction is cancelled: neither the insert nor the processing persists
          Execution(withRealm, written, Fail(responses.processed.error))
        else
          var committed := State(s.transactions + {tx}, s.processed + {tx}, s.openRealms);
          Execution(committed, written + [CloseRealm, SendPendingTransactions], responses.sent)
  }

  /** The conditions under which the write transaction commits. */
  predicate Commits(s: State, responses: Responses) {
    && responses.built.Success?
    && !HasHash(s.transactions, responses.built.value.hashHexReversed)
    && responses.processed.Pass?
  }

  // ---------------------------------------------------------------------------
  // Properties of one call.

  /** A build failure propagates; the store is untouched, the Realm stays open
      and nothing is sent. */
  lemma BuildFailureLeavesStoreUnchanged(s: State, args: BuildArgs, responses: Responses)
    requires responses.built.Failure?
    ensures Execute(s, args, responses).result == Fail(responses.built.error)
    ensures Execute(s, args, responses).state == s.(openRealms := s.openRealms + 1)
    ensures Execute(s, args, responses).calls == [GetRealm, BuildTransaction(args)]
  {
  }

  /** A built transaction whose hash is already stored is refused with
      `TransactionAlreadyExists`: nothing is inserted, the processor is not
      called, the Realm is not closed and nothing is sent. */
  lemma DuplicateIsRefused(s: State, args: BuildArgs, responses: Responses)
    requires responses.built.Success? && HasHash(s.transactions, responses.built.value.hashHexReversed)
    ensures var h := responses.built.value.hashHexReversed;
            Execute(s, args, responses).result == Fail(TransactionAlreadyExists(AlreadyExistsMessage(h)))
    ensures Execute(s, args, responses).state == s.(openRealms := s.openRealms + 1)
    ensures Execute(s, args, responses).calls ==
              [GetRealm, BuildTransaction(args), FindByHash(responses.built.value.hashHexReversed)]
  {
  }

  /** A new transaction is stored and processed in one unit; the Realm is closed
      and then pending transactions are sent; the send's outcome is the outcome
      of `create`. */
  lemma NewTransactionIsCommitted(s: State, args: BuildArgs, responses: Responses)
    requires Commits(s, responses)
    ensures var tx := responses.built.value;
            && Execute(s, args, responses).state ==
                 State(s.transactions + {tx}, s.processed + {tx}, s.openRealms)
            && Execute(s, args, responses).calls ==
                 [GetRealm, BuildTransaction(args), FindByHash(tx.hashHexReversed),
                  Insert(tx), Process(tx), CloseRealm, SendPendingTransactions]
            && Execute(s, args, responses).result == responses.sent
  {
  }

  /** A processor failure cancels the write transaction: the insert is undone,
      the error propagates, the Realm stays open and nothing is sent. */
  lemma ProcessorFailureRollsBack(s: State, args: BuildArgs, responses: Responses)
    requires responses.built.Success? && !HasHash(s.transactions, responses.built.value.hashHexReversed)
    requires responses.processed.Fail?
    ensures Execute(s, args, responses).result == Fail(responses.processed.error)
    ensures Execute(s, args, responses).state == s.(openRealms := s.openRealms + 1)
    ensures CloseRealm !in Execute(s, args, responses).calls
    ensures SendPendingTransactions !in Execute(s, args, responses).calls
  {
  }

  /** The only write is the insert of the built transaction: nothing stored is
      removed or changed, and the insert and the processing take effect together
      or not at all. */
  lemma OnlyWriteIsTheInsert(s: State, args: BuildArgs, responses: Responses)
    requires Consistent(s)
    ensures s.transactions <= Execute(s, args, responses).state.transactions
    ensures s.processed <= Execute(s, args, responses).state.processed
    ensures Execute(s, args, responses).state.transactions - s.transactions ==
            Execute(s, args, responses).state.processed - s.processed
    ensures Execute(s, args, responses).state.transactions != s.transactions <==> Commits(s, responses)
    ensures Commits(s, responses) ==>
              Execute(s, args, responses).state.transactions - s.transactions == {responses.built.value}
  {
  }

  /** On every path the builder runs first, right after the Realm is obtained. */
  lemma BuildComesFirst(s: State, args: BuildArgs, responses: Responses)
    ensures |Execute(s, args, responses).calls| >= 2
    ensures Execute(s, args, responses).calls[..2] == [GetRealm, BuildTransaction(args)]
  {
  }

  /** `sendPendingTransactions` is called exactly once when the write
      transaction commits and never otherwise, after the Realm is closed. */
  lemma SendOnlyAfterCommit(s: State, args: BuildArgs, responses: Responses)
    ensures Count(Execute(s, args, responses).calls, SendPendingTransactions) ==
              if Commits(s, responses) then 1 else 0
    ensures Commits(s, responses) ==>
              Before(Execute(s, args, responses).calls, CloseRealm, SendPendingTransactions)
  {
    var e := Execute(s, args, responses);
    if Commits(s, responses) {
      var head := e.calls[..6];
      assert e.calls == head + [SendPendingTransactions];
      assert SendPendingTransactions !in head;
      CountConcat(head, [SendPendingTransactions], SendPendingTransactions);
      assert e.calls[5] == CloseRealm && e.calls[6] == SendPendingTransactions;
    } else {
      assert SendPendingTransactions !in e.calls;
    }
  }

  /** The Realm is closed exactly on the committing path; on every other path
      the handle obtained at the start stays open. */
  lemma RealmClosedOnlyAfterCommit(s: State, args: BuildArgs, responses: Responses)
    ensures CloseRealm in Execute(s, args, responses).calls <==> Commits(s, responses)
    ensures Execute(s, args, responses).state.openRealms ==
              if Commits(s, responses) then s.openRealms else s.openRealms + 1
  {
  }

  /** `create` keeps the store invariant. */
  lemma ExecuteKeepsConsistent(s: State, args: BuildArgs, responses: Responses)
    requires Consistent(s)
    ensures Consistent(Execute(s, args, responses).state)
  {
    if Commits(s, responses) {
      var tx := responses.built.value;
      assert forall t | t in s.transactions :: t.hashHexReversed != tx.hashHexReversed;
    }
  }

  /** Two creates that build the same transaction: when the first commits, the
      second is refused with `TransactionAlreadyExists` and changes nothing but
      the count of open Realms. */
  lemma SecondCreateOfSameTransactionIsRefused(s: State, args1: BuildArgs, r1: Responses,
                                               args2: BuildArgs, r2: Responses)
    requires Commits(s, r1) && r2.built == r1.built
    ensures var s1 := Execute(s, args1, r1).state;
            var e2 := Execute(s1, args2, r2);
            && e2.result == Fail(TransactionAlreadyExists(AlreadyExistsMessage(r1.built.value.hashHexReversed)))
            && e2.state == s1.(openRealms := s1.openRealms + 1)
  {
    var tx := r1.built.value;
    assert tx in Execute(s, args1, r1).state.transactions;
  }

  /** A normal return of `create` means the built transaction is stored and
      processed; conversely, once the write commits, `create` returns normally
      exactly when the send does. */
  lemma NormalReturnMeansStored(s: State, args: BuildArgs, responses: Responses)
    ensures Execute(s, args, responses).result.Pass? ==>
              && Commits(s, responses)
              && responses.built.value in Execute(s, args, responses).state.transactions
              && responses.built.value in Execute(s, args, responses).state.processed
    ensures Commits(s, responses) ==>
              (Execute(s, args, responses).result.Pass? <==> responses.sent.Pass?)
  {
  }

  /** The only `TransactionCreationException` `create` raises of its own is
      `TransactionAlreadyExists` for a stored hash, carrying that hash; any other
      one was raised by a collaborator. */
  lemma CreationExceptionsOfCreate(s: State, args: BuildArgs, responses: Responses)
    requires Execute(s, args, responses).result.Fail?
    requires IsTransactionCreationException(Execute(s, args, responses).result.error)
    ensures var err := Execute(s, args, responses).result.error;
            || responses.built == Failure(err)
            || responses.processed == Fail(err)
            || responses.sent == Fail(err)
            || (&& responses.built.Success?
                && HasHash(s.transactions, responses.built.value.hashHexReversed)
                && err == TransactionAlreadyExists(AlreadyExistsMessage(responses.built.value.hashHexReversed)))
  {
  }

  // ---------------------------------------------------------------------------
  // Many calls.

  datatype Request = Request(args: BuildArgs, responses: Responses)

  /** The state after running the creates of `requests` one after another. */
  function ExecuteAll(s: State, requests: seq<Request>): State
    decreases |requests|
  {
    if requests == [] then s
    else ExecuteAll(Execute(s, requests[0].args, requests[0].responses).state, requests[1..])
  }

  /** Over any sequence of creates the store invariant holds, no stored
      transaction is ever removed, and none is ever stored twice under one hash. */
  lemma {:induction false} ExecuteAllKeepsConsistent(s: State, requests: seq<Request>)
    requires Consistent(s)
    ensures Consistent(ExecuteAll(s, requests))
    ensures s.transactions <= ExecuteAll(s, requests).transactions
    decreases |requests|
  {
    if requests != [] {
      var next := Execute(s, requests[0].args, requests[0].responses).state;
      ExecuteKeepsConsistent(s, requests[0].args, requests[0].responses);
      OnlyWriteIsTheInsert(s, requests[0].args, requests[0].responses);
      ExecuteAllKeepsConsistent(next, requests[1..]);
    }
  }

  // ---------------------------------------------------------------------------
  // The creator object.

  class TransactionCreator {
    var transactions: set<Transaction>
    var processed: set<Transaction>
    var openRealms: nat
    /** Every call made on the Realm or a collaborator, in order. */
    var calls: seq<Call>

    function Current(): State
      reads this
    {
      State(transactions, processed, openRealms)
    }

    ghost predicate Valid()
      reads this
    {
      Consistent(Current())
    }

    constructor (stored: set<Transaction>)
      requires UniqueHashes(stored)
      ensures Valid() && Current() == State(stored, stored, 0) && calls == []
    {
      transactions, processed, openRealms := stored, stored, 0;
      calls := [];
    }

    /** `create(address, value, feeRate, senderPay)`. An early `return` of a
        failure stands for an exception leaving `create`. */
    method Create(address: string, value: Int32, feeRate: Int32, senderPay: bool, responses: Responses)
      returns (result: Outcome<Error>)
      requires Valid()
      modifies this
      ensures Valid()
      ensures var e := Execute(old(Current()), BuildArgs(value, address, feeRate, senderPay), responses);
              Current() == e.state && calls == old(calls) + e.calls && result == e.result
    {
      ghost var s := Current();
      ghost var args := BuildArgs(value, address, feeRate, senderPay);
      ghost var log := calls;
      ExecuteKeepsConsistent(s, args, responses);

      openRealms := openRealms + 1;
      calls := calls + [GetRealm];

      calls := calls + [BuildTransaction(BuildArgs(value, address, feeRate, senderPay))];
      assert calls == log + [GetRealm, BuildTransaction(args)];
      if responses.built.Failure? {
        BuildFailureLeavesStoreUnchanged(s, args, responses);
        return Fail(responses.built.error);
      }
      var transaction := responses.built.value;

      calls := calls + [FindByHash(transaction.hashHexReversed)];
      assert calls == log + [GetRealm, BuildTransaction(args), FindByHash(transaction.hashHexReversed)];
      if HasHash(transactions, transaction.hashHexReversed) {
        DuplicateIsRefused(s, args, responses);
        return Fail(TransactionAlreadyExists(AlreadyExistsMessage(transaction.hashHexReversed)));
      }

      // realm.executeTransaction { insert; process }: writes are staged and
      // become visible only when the block completes.
      var stagedTransactions := transactions + {transaction};
      calls := calls + [Insert(transaction)];
      calls := calls + [Process(transaction)];
      ghost var written := [GetRealm, BuildTransaction(args), FindByHash(transaction.hashHexReversed),
                            Insert(transaction), Process(transaction)];
      assert calls == log + written;
      if responses.processed.Fail? {
        ProcessorFailureRollsBack(s, args, responses);
        assert Execute(s, args, responses).calls == written;
        return Fail(responses.processed.error);
      }
      transactions, processed := stagedTransactions, processed + {transaction};

      openRealms := openRealms - 1;
      calls := calls + [CloseRealm];

      calls := calls + [SendPendingTransactions];
      NewTransactionIsCommitted(s, args, responses);
      assert calls == log + (written + [CloseRealm, SendPendingTransactions]);
      result := responses.sent;
    }
  }
}

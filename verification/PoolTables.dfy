/**
 The in-memory pool on values: what every handler does to the tables that a failed transaction
 restores, and what a callback, seen as the queries it makes, does to them.
 */
module PoolTables {
  import opened Options
  import opened Keys
  import opened LedgerSums

  datatype Wallet = Wallet(available: string, locked: string)

  datatype Position = Position(status: string, quantity: string, initialMargin: string, realizedPnl: string)

  datatype Withdrawal = Withdrawal(status: string, cryptoStatus: string)

  datatype LedgerTx = LedgerTx(id: string, accountId: string, transactionType: string, referenceId: string)

  datatype Tables = Tables(
    wallets: map<string, Wallet>,
    positions: map<string, Position>,
    withdrawals: map<string, Withdrawal>,
    transactions: map<string, LedgerTx>,
    byRef: map<string, string>,
    entries: seq<Entry>)

  /** The tables and the simulated row locks, which no rollback restores. */
  datatype World = World(tables: Tables, locks: set<string>)

  datatype Op =
    | SelectForUpdate(account: string, asset: string)
    | InsertWallet(account: string, asset: string, wallet: Wallet, onConflictDoNothing: bool)
    | UpdateWallet(account: string, asset: string, available: string, locked: string)
    | UpdateAvailable(account: string, asset: string, available: string)
    | InsertPosition(positionId: string, position: Position)
    | ReducePosition(positionId: string, position: Position)
    | LiquidatePosition(positionId: string, realizedPnl: string)
    | InsertWithdrawal(withdrawalId: string, withdrawal: Withdrawal)
    | UpdateWithdrawal(withdrawalId: string, withdrawal: Withdrawal)
    | InsertLedgerTx(tx: LedgerTx)
    | InsertEntry(entry: Entry)
    | DeleteWallets
    | DeleteWithdrawals
    | DeleteTransactions
    | DeleteEntries

  datatype Result = Result(world: World, threw: bool)

  // ------------------------------------------------------------- row updates

  function Reduced(p: Position, to: Position): Position {
    if p.status == "OPEN" then to else p
  }

  function Liquidated(p: Position, realizedPnl: string): Position {
    p.(status := "LIQUIDATED", realizedPnl := realizedPnl, initialMargin := "0")
  }

  function WithAvailable(wallets: map<string, Wallet>, key: string, available: string): Wallet {
    if key in wallets then wallets[key].(available := available) else Wallet(available, "0")
  }

  function WalletStep(op: Op, wallets: map<string, Wallet>): map<string, Wallet> {
    match op
    case InsertWallet(account, asset, wallet, onConflictDoNothing) =>
      if onConflictDoNothing && Key(account, asset) in wallets then wallets
      else wallets[Key(account, asset) := wallet]
    case UpdateWallet(account, asset, available, locked) =>
      wallets[Key(account, asset) := Wallet(available, locked)]
    case UpdateAvailable(account, asset, available) =>
      wallets[Key(account, asset) := WithAvailable(wallets, Key(account, asset), available)]
    case DeleteWallets => map[]
    case _ => wallets
  }

  function PositionStep(op: Op, positions: map<string, Position>): map<string, Position> {
    match op
    case InsertPosition(id, position) => positions[id := position]
    case ReducePosition(id, position) =>
      if id in positions then positions[id := Reduced(positions[id], position)] else positions
    case LiquidatePosition(id, pnl) =>
      if id in positions then positions[id := Liquidated(positions[id], pnl)] else positions
    case _ => positions
  }

  function WithdrawalStep(op: Op, withdrawals: map<string, Withdrawal>): map<string, Withdrawal> {
    match op
    case InsertWithdrawal(id, withdrawal) => withdrawals[id := withdrawal]
    case UpdateWithdrawal(id, withdrawal) => if id in withdrawals then withdrawals[id := withdrawal] else withdrawals
    case DeleteWithdrawals => map[]
    case _ => withdrawals
  }

  function RefKey(tx: LedgerTx): string {
    Key(tx.accountId, tx.referenceId)
  }

  function LocksAfter(op: Op, locks: set<string>): set<string> {
    match op
    case SelectForUpdate(account, asset) => locks + {Key(account, asset)}
    case UpdateWallet(account, asset, _, _) => locks - {Key(account, asset)}
    case DeleteWallets => {}
    case _ => locks
  }

  /** A lock conflict or a duplicate reference: the query throws and changes nothing. */
  predicate Rejects(op: Op, w: World) {
    match op
    case SelectForUpdate(account, asset) => Key(account, asset) in w.locks
    case InsertLedgerTx(tx) => RefKey(tx) in w.tables.byRef
    case _ => false
  }

  function TransactionsStep(op: Op, transactions: map<string, LedgerTx>): map<string, LedgerTx> {
    match op
    case InsertLedgerTx(tx) => transactions[tx.id := tx]
    case DeleteTransactions => map[]
    case _ => transactions
  }

  function ByRefStep(op: Op, byRef: map<string, string>): map<string, string> {
    match op
    case InsertLedgerTx(tx) => byRef[RefKey(tx) := tx.id]
    case DeleteTransactions => map[]
    case _ => byRef
  }

  function EntriesStep(op: Op, entries: seq<Entry>): seq<Entry> {
    match op
    case InsertEntry(entry) => entries + [entry]
    case DeleteEntries => []
    case _ => entries
  }

  function TablesAfter(op: Op, t: Tables): Tables {
    Tables(WalletStep(op, t.wallets), PositionStep(op, t.positions), WithdrawalStep(op, t.withdrawals),
           TransactionsStep(op, t.transactions), ByRefStep(op, t.byRef), EntriesStep(op, t.entries))
  }

  function Step(op: Op, w: World): Result {
    if Rejects(op, w) then Result(w, true)
    else Result(World(TablesAfter(op, w.tables), LocksAfter(op, w.locks)), false)
  }

  // ---------------------------------------------------- reading back a query

  /** The row under the key is the given one afterwards; all others are as they were. */
  ghost predicate Becomes<T>(before: map<string, T>, after: map<string, T>, key: string, row: T) {
    && after.Keys == before.Keys + {key} && after[key] == row
    && forall k :: k in before && k != key ==> after[k] == before[k]
  }

  /** The row under the key, if there is one, changes to the given one; there is none otherwise. */
  ghost predicate Changes<T>(before: map<string, T>, after: map<string, T>, key: string, row: T) {
    if key in before then Becomes(before, after, key, row) else after == before
  }

  /** What one sees of a query afterwards: whether it threw, which row it left, and that the rest is as it was. */
  ghost predicate ReadsBack(op: Op, w: World, u: World, threw: bool) {
    var t, v := w.tables, u.tables;
    match op
    case SelectForUpdate(account, asset) =>
      && (threw <==> Key(account, asset) in w.locks)
      && v == t && u.locks == w.locks + {Key(account, asset)}
    case InsertWallet(account, asset, wallet, onConflictDoNothing) =>
      && !threw && u.locks == w.locks && v == t.(wallets := v.wallets)
      && if onConflictDoNothing && Key(account, asset) in t.wallets then v == t
         else Becomes(t.wallets, v.wallets, Key(account, asset), wallet)
    case UpdateWallet(account, asset, available, locked) =>
      && !threw && u.locks == w.locks - {Key(account, asset)} && v == t.(wallets := v.wallets)
      && Becomes(t.wallets, v.wallets, Key(account, asset), Wallet(available, locked))
    case UpdateAvailable(account, asset, available) =>
      && !threw && u.locks == w.locks && v == t.(wallets := v.wallets)
      && var key := Key(account, asset);
         Becomes(t.wallets, v.wallets, key, Wallet(available, if key in t.wallets then t.wallets[key].locked else "0"))
    case InsertPosition(id, position) =>
      && !threw && u.locks == w.locks && v == t.(positions := v.positions)
      && Becomes(t.positions, v.positions, id, position)
    case ReducePosition(id, position) =>
      && !threw && u.locks == w.locks && v == t.(positions := v.positions)
      && if id in t.positions && t.positions[id].status == "OPEN" then Becomes(t.positions, v.positions, id, position)
         else v == t
    case LiquidatePosition(id, realizedPnl) =>
      && !threw && u.locks == w.locks && v == t.(positions := v.positions)
      && Changes(t.positions, v.positions, id, Position("LIQUIDATED",
                 if id in t.positions then t.positions[id].quantity else realizedPnl, "0", realizedPnl))
    case InsertWithdrawal(id, withdrawal) =>
      && !threw && u.locks == w.locks && v == t.(withdrawals := v.withdrawals)
      && Becomes(t.withdrawals, v.withdrawals, id, withdrawal)
    case UpdateWithdrawal(id, withdrawal) =>
      && !threw && u.locks == w.locks && v == t.(withdrawals := v.withdrawals)
      && Changes(t.withdrawals, v.withdrawals, id, withdrawal)
    case InsertLedgerTx(tx) =>
      && (threw <==> Key(tx.accountId, tx.referenceId) in t.byRef)
      && u.locks == w.locks && v == t.(transactions := v.transactions, byRef := v.byRef)
      && if threw then v == t
         else Becomes(t.transactions, v.transactions, tx.id, tx)
              && Becomes(t.byRef, v.byRef, Key(tx.accountId, tx.referenceId), tx.id)
    case InsertEntry(entry) =>
      !threw && u.locks == w.locks && v == t.(entries := t.entries + [entry])
    case DeleteWallets =>
      !threw && u.locks == {} && v == t.(wallets := map[])
    case DeleteWithdrawals =>
      !threw && u.locks == w.locks && v == t.(withdrawals := map[])
    case DeleteTransactions =>
      !threw && u.locks == w.locks && v == t.(transactions := map[], byRef := map[])
    case DeleteEntries =>
      !threw && u.locks == w.locks && v == t.(entries := [])
  }

  lemma StepReadsBack(op: Op, w: World)
    ensures ReadsBack(op, w, Step(op, w).world, Step(op, w).threw)
  {
    hide Key;
  }

  // ------------------------------------------------------------- transactions

  /**
   A callback, as the calls it makes: after each query or nested transaction it goes on one way
   when the call returns and another when it throws (`Throw` when it lets the error through).
   */
  datatype Script =
    | Return
    | Throw
    | Query(op: Op, returned: Script, thrown: Script)
    | Nested(body: Script, returned: Script, thrown: Script)

  function Exec(s: Script, w: World): Result
    decreases s, 0
  {
    match s
    case Return => Result(w, false)
    case Throw => Result(w, true)
    case Query(op, returned, thrown) =>
      var r := Step(op, w);
      if r.threw then Exec(thrown, r.world) else Exec(returned, r.world)
    case Nested(body, returned, thrown) =>
      var r := Transact(body, w);
      if r.threw then Exec(thrown, r.world) else Exec(returned, r.world)
  }

  /** A transaction is all or nothing on the tables; the locks stay as the callback left them. */
  function Transact(body: Script, w: World): Result
    decreases body, 1
  {
    var r := Exec(body, w);
    if r.threw then Result(World(w.tables, r.world.locks), true) else r
  }

  // ------------------------------------------------------------- leaked locks

  /** A query that was executed, and whether it threw. */
  datatype Executed = Executed(op: Op, threw: bool)

  /** The queries a callback executes, in order, those of nested transactions included. */
  function Log(s: Script, w: World): seq<Executed> {
    match s
    case Return => []
    case Throw => []
    case Query(op, returned, thrown) =>
      var r := Step(op, w);
      [Executed(op, r.threw)] + if r.threw then Log(thrown, r.world) else Log(returned, r.world)
    case Nested(body, returned, thrown) =>
      var r := Transact(body, w);
      Log(body, w) + if r.threw then Log(thrown, r.world) else Log(returned, r.world)
  }

  /** A SELECT FOR UPDATE of the row that went through. */
  predicate Locks(e: Executed, key: string) {
    e.op.SelectForUpdate? && !e.threw && Key(e.op.account, e.op.asset) == key
  }

  /** The row's UPDATE, or the deletion of all wallets. */
  predicate Releases(e: Executed, key: string) {
    e.op.DeleteWallets? || (e.op.UpdateWallet? && Key(e.op.account, e.op.asset) == key)
  }

  predicate NoReleaseAfter(log: seq<Executed>, i: int, key: string)
    requires -1 <= i
  {
    forall j :: i < j < |log| ==> !Releases(log[j], key)
  }

  /**
   Of the queries that lock or release the row the last one locked it, or there was none and it
   was locked before.
   */
  predicate LastLocks(log: seq<Executed>, key: string, before: bool) {
    || (exists i :: 0 <= i < |log| && Locks(log[i], key) && NoReleaseAfter(log, i, key))
    || (before && NoReleaseAfter(log, -1, key))
  }

  lemma NoReleaseShifts(e: Executed, log: seq<Executed>, i: int, key: string)
    requires -1 <= i
    ensures NoReleaseAfter([e] + log, i + 1, key) == NoReleaseAfter(log, i, key)
  {
    hide Releases;
    var all := [e] + log;
    if NoReleaseAfter(all, i + 1, key) {
      forall j | i < j < |log| ensures !Releases(log[j], key) {
        assert all[j + 1] == log[j];
      }
    }
    if NoReleaseAfter(log, i, key) {
      forall j | i + 1 < j < |all| ensures !Releases(all[j], key) {
        assert all[j] == log[j - 1];
      }
    }
  }

  lemma NoReleaseFirst(e: Executed, log: seq<Executed>, key: string)
    ensures NoReleaseAfter([e] + log, -1, key) == (!Releases(e, key) && NoReleaseAfter(log, -1, key))
  {
    hide Releases;
    NoReleaseShifts(e, log, -1, key);
    assert ([e] + log)[0] == e;
    assert NoReleaseAfter([e] + log, -1, key) == (!Releases(([e] + log)[0], key) && NoReleaseAfter([e] + log, 0, key));
  }

  lemma LastLocksNext(e: Executed, log: seq<Executed>, key: string, before: bool)
    ensures LastLocks([e] + log, key, before)
         == LastLocks(log, key, Locks(e, key) || (before && !Releases(e, key)))
  {
    hide Locks, Releases, NoReleaseAfter;
    var all := [e] + log;
    NoReleaseFirst(e, log, key);
    NoReleaseShifts(e, log, -1, key);
    if i :| 0 <= i < |all| && Locks(all[i], key) && NoReleaseAfter(all, i, key) {
      if i > 0 {
        NoReleaseShifts(e, log, i - 1, key);
        assert Locks(log[i - 1], key) && NoReleaseAfter(log, i - 1, key);
      }
    }
    if i :| 0 <= i < |log| && Locks(log[i], key) && NoReleaseAfter(log, i, key) {
      NoReleaseShifts(e, log, i, key);
      assert Locks(all[i + 1], key) && NoReleaseAfter(all, i + 1, key);
    }
    if Locks(e, key) && NoReleaseAfter(log, -1, key) {
      assert Locks(all[0], key) && NoReleaseAfter(all, 0, key);
    }
  }

  lemma {:induction false} LastLocksConcat(a: seq<Executed>, b: seq<Executed>, key: string, before: bool)
    ensures LastLocks(a + b, key, before) == LastLocks(b, key, LastLocks(a, key, before))
  {
    hide LastLocks;
    if |a| == 0 {
      assert a + b == b;
      NothingLocks(a, key, before);
    } else {
      var after := Locks(a[0], key) || (before && !Releases(a[0], key));
      assert a == [a[0]] + a[1..] && a + b == [a[0]] + (a[1..] + b);
      LastLocksNext(a[0], a[1..], key, before);
      LastLocksNext(a[0], a[1..] + b, key, before);
      LastLocksConcat(a[1..], b, key, after);
    }
  }

  lemma NothingLocks(log: seq<Executed>, key: string, before: bool)
    requires |log| == 0
    ensures LastLocks(log, key, before) == before
  {
  }

  lemma StepLocksIff(op: Op, w: World, key: string)
    ensures var e := Executed(op, Step(op, w).threw);
      key in Step(op, w).world.locks <==> Locks(e, key) || (key in w.locks && !Releases(e, key))
  {
    hide Key, TablesAfter;
  }

  lemma QueryLocks(op: Op, w: World, key: string, rest: seq<Executed>)
    ensures var r := Step(op, w);
      LastLocks([Executed(op, r.threw)] + rest, key, key in w.locks) == LastLocks(rest, key, key in r.world.locks)
  {
    hide LastLocks, Step, Locks, Releases;
    StepLocksIff(op, w, key);
    LastLocksNext(Executed(op, Step(op, w).threw), rest, key, key in w.locks);
  }

  /** A row is locked after a callback exactly when the last executed query that concerns its lock says so. */
  lemma {:induction false} LockedIff(s: Script, w: World, key: string)
    ensures key in Exec(s, w).world.locks <==> LastLocks(Log(s, w), key, key in w.locks)
  {
    hide LastLocks, Step;
    match s
    case Return =>
      NothingLocks([], key, key in w.locks);
    case Throw =>
      NothingLocks([], key, key in w.locks);
    case Query(op, returned, thrown) =>
      var r := Step(op, w);
      var next := if r.threw then thrown else returned;
      QueryLocks(op, w, key, Log(next, r.world));
      LockedIff(next, r.world, key);
    case Nested(body, returned, thrown) =>
      var r := Transact(body, w);
      var next := if r.threw then thrown else returned;
      LockedIff(body, w, key);
      LockedIff(next, r.world, key);
      LastLocksConcat(Log(body, w), Log(next, r.world), key, key in w.locks);
  }

  /**
   A failed transaction restores the balances but not the locks: whatever runs in between, a later
   SELECT FOR UPDATE of a row throws if and only if the last query that locked or released the row,
   in the failed callback or since, was a SELECT FOR UPDATE that went through (or there was none
   and the row was locked before).
   */
  lemma FailedTransactionLeaksLockIff(body: Script, between: Script, w: World, account: string, asset: string)
    requires Transact(body, w).threw
    ensures Transact(body, w).world.tables == w.tables
    ensures var failed := Transact(body, w).world;
      Step(SelectForUpdate(account, asset), Exec(between, failed).world).threw
      <==> LastLocks(Log(body, w) + Log(between, failed), Key(account, asset), Key(account, asset) in w.locks)
  {
    hide Log, LastLocks, Key, Exec;
    var key, failed := Key(account, asset), Transact(body, w).world;
    LockedIff(body, w, key);
    LockedIff(between, failed, key);
    LastLocksConcat(Log(body, w), Log(between, failed), key, key in w.locks);
  }

  /** The shortest such transaction, on an unlocked row. */
  lemma LockThenFailLeaks(w: World, account: string, asset: string)
    requires Key(account, asset) !in w.locks
    ensures var body := Query(SelectForUpdate(account, asset), Throw, Throw);
      && Transact(body, w).threw && Transact(body, w).world.tables == w.tables
      && Transact(body, w).world.locks == w.locks + {Key(account, asset)}
      && Step(SelectForUpdate(account, asset), Transact(body, w).world).threw
  {
    var locked := Step(SelectForUpdate(account, asset), w).world;
    assert Exec(Throw, locked) == Result(locked, true);
  }

  // ------------------------------------------------------- committed entries

  /** The entries a callback inserts in transactions that commit, up to itself, in order. */
  function Kept(s: Script, w: World): seq<Entry> {
    match s
    case Return => []
    case Throw => []
    case Query(op, returned, thrown) =>
      var r := Step(op, w);
      (if op.InsertEntry? then [op.entry] else [])
      + if r.threw then Kept(thrown, r.world) else Kept(returned, r.world)
    case Nested(body, returned, thrown) =>
      var r := Transact(body, w);
      (if r.threw then [] else Kept(body, w))
      + if r.threw then Kept(thrown, r.world) else Kept(returned, r.world)
  }

  predicate NoEntriesDeleted(log: seq<Executed>) {
    forall i :: 0 <= i < |log| ==> !log[i].op.DeleteEntries?
  }

  lemma NoneDeletedInParts(a: seq<Executed>, b: seq<Executed>)
    requires NoEntriesDeleted(a + b)
    ensures NoEntriesDeleted(a) && NoEntriesDeleted(b)
  {
    forall i | 0 <= i < |a| ensures !a[i].op.DeleteEntries? {
      assert (a + b)[i] == a[i];
    }
    forall i | 0 <= i < |b| ensures !b[i].op.DeleteEntries? {
      assert (a + b)[|a| + i] == b[i];
    }
  }

  lemma QueryKeepsEntries(op: Op, w: World)
    requires !op.DeleteEntries?
    ensures Step(op, w).world.tables.entries == w.tables.entries + if op.InsertEntry? then [op.entry] else []
  {
    hide Key;
  }

  /**
   Unless entries are deleted, a callback leaves the entries that were there, followed by those it
   inserted in transactions that all committed; an entry of a transaction that failed is gone.
   */
  lemma {:induction false} EntriesKept(s: Script, w: World)
    requires NoEntriesDeleted(Log(s, w))
    ensures Exec(s, w).world.tables.entries == w.tables.entries + Kept(s, w)
  {
    hide Step, NoEntriesDeleted;
    match s
    case Return =>
    case Throw =>
    case Query(op, returned, thrown) =>
      var r := Step(op, w);
      var next := if r.threw then thrown else returned;
      FirstDeletesNone(Executed(op, r.threw), Log(next, r.world));
      QueryKeepsEntries(op, w);
      EntriesKept(next, r.world);
    case Nested(body, returned, thrown) =>
      var r := Transact(body, w);
      var next := if r.threw then thrown else returned;
      NoneDeletedInParts(Log(body, w), Log(next, r.world));
      EntriesKept(body, w);
      EntriesKept(next, r.world);
  }

  lemma FirstDeletesNone(e: Executed, log: seq<Executed>)
    requires NoEntriesDeleted([e] + log)
    ensures !e.op.DeleteEntries? && NoEntriesDeleted(log)
  {
    NoneDeletedInParts([e], log);
    assert [e][0] == e;
  }

  // -------------------------------------------------- the reference index

  /** `byRef` and `transactions` are inverse to each other on reference keys. */
  predicate Indexed(t: Tables) {
    && (forall id :: id in t.transactions ==>
          && t.transactions[id].id == id
          && RefKey(t.transactions[id]) in t.byRef && t.byRef[RefKey(t.transactions[id])] == id)
    && (forall k :: k in t.byRef ==> t.byRef[k] in t.transactions && RefKey(t.transactions[t.byRef[k]]) == k)
  }

  /** An insert keeps the index exactly when it is rejected or its id is new. */
  lemma InsertKeepsIndexIff(tx: LedgerTx, w: World)
    requires Indexed(w.tables)
    ensures Indexed(Step(InsertLedgerTx(tx), w).world.tables)
            <==> RefKey(tx) in w.tables.byRef || tx.id !in w.tables.transactions
  {
    hide Key;
    var t, t' := w.tables, Step(InsertLedgerTx(tx), w).world.tables;
    if RefKey(tx) !in t.byRef && tx.id in t.transactions {
      var k := RefKey(t.transactions[tx.id]);
      assert k in t.byRef && k in t'.byRef && t'.byRef[k] == tx.id;
    }
  }

  lemma StepKeepsIndex(op: Op, w: World)
    requires Indexed(w.tables) && (op.InsertLedgerTx? ==> op.tx.id !in w.tables.transactions)
    ensures Indexed(Step(op, w).world.tables)
  {
    hide Key, WalletStep, PositionStep, WithdrawalStep;
    if op.InsertLedgerTx? {
      InsertKeepsIndexIff(op.tx, w);
    }
  }

  /** Every transaction id that the run inserts is new when it is inserted, as random UUIDs are. */
  predicate FreshIds(s: Script, w: World) {
    match s
    case Return => true
    case Throw => true
    case Query(op, returned, thrown) =>
      && (op.InsertLedgerTx? ==> op.tx.id !in w.tables.transactions)
      && var r := Step(op, w);
         if r.threw then FreshIds(thrown, r.world) else FreshIds(returned, r.world)
    case Nested(body, returned, thrown) =>
      && FreshIds(body, w)
      && var r := Transact(body, w);
         if r.threw then FreshIds(thrown, r.world) else FreshIds(returned, r.world)
  }

  /** Inserts, rejected duplicates, deletes, commits and rollbacks at every depth keep the index. */
  lemma {:induction false} RunKeepsIndex(s: Script, w: World)
    requires Indexed(w.tables) && FreshIds(s, w)
    ensures Indexed(Exec(s, w).world.tables)
  {
    hide Indexed, Step;
    match s
    case Return =>
    case Throw =>
    case Query(op, returned, thrown) =>
      StepKeepsIndex(op, w);
      var r := Step(op, w);
      if r.threw { RunKeepsIndex(thrown, r.world); } else { RunKeepsIndex(returned, r.world); }
    case Nested(body, returned, thrown) =>
      RunKeepsIndex(body, w);
      var r := Transact(body, w);
      if r.threw { RunKeepsIndex(thrown, r.world); } else { RunKeepsIndex(returned, r.world); }
  }

  /** SELECT ... WHERE account_id = $1 AND reference_id = $2 */
  function Lookup(t: Tables, account: string, reference: string): Option<LedgerTx> {
    var k := Key(account, reference);
    if k in t.byRef && t.byRef[k] in t.transactions then Some(t.transactions[t.byRef[k]]) else None
  }

  predicate Refers(tx: LedgerTx, account: string, reference: string) {
    tx.accountId == account && tx.referenceId == reference
  }

  /** With colon-free account ids the index finds what a scan of the table finds, and there is at most one. */
  lemma LookupIsScan(t: Tables, account: string, reference: string)
    requires Indexed(t) && ColonFree(account)
    requires forall id :: id in t.transactions ==> ColonFree(t.transactions[id].accountId)
    ensures forall id :: id in t.transactions && Refers(t.transactions[id], account, reference) ==>
              Lookup(t, account, reference) == Some(t.transactions[id])
    ensures Lookup(t, account, reference).Some? ==>
              && Lookup(t, account, reference).value.id in t.transactions
              && t.transactions[Lookup(t, account, reference).value.id] == Lookup(t, account, reference).value
              && Refers(Lookup(t, account, reference).value, account, reference)
  {
    hide ColonFree, Key;
    var k := Key(account, reference);
    if k in t.byRef {
      var tx := t.transactions[t.byRef[k]];
      KeyIsInjective(tx.accountId, tx.referenceId, account, reference);
    }
  }
}

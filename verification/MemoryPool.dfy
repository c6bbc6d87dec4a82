/**
 The in-memory pool on the heap.  Wallet, position and withdrawal rows are objects that UPDATE
 statements mutate in place, so a transaction has to clone them to be able to roll back.
 `Run` and `Transaction` are proved to do what `Exec` and `Transact` say on values.
 */
module MemoryPool {
  import opened Options
  import opened Keys
  import opened LedgerSums
  import opened PoolTables

  lemma TransactIs(body: Script, before: World, after: World, threw: bool)
    requires Exec(body, before) == Result(after, threw)
    ensures Transact(body, before) == Result(if threw then World(before.tables, after.locks) else after, threw)
  {
  }

  lemma AppendedEntryCounts(entries: seq<Entry>, entry: Entry)
    ensures forall direction: Direction, keep: Entry -> bool ::
      TotalWhere(entries + [entry], direction, keep) == TotalWhere(entries, direction, keep)
        + if keep(entry) && entry.direction == direction then Amount(entry) else 0
  {
    hide Amount;
    assert (entries + [entry])[..|entries|] == entries;
  }

  lemma EntryReadsBack(entry: Entry, w: World, u: World, threw: bool)
    requires ReadsBack(InsertEntry(entry), w, u, threw)
    ensures u.tables.entries == w.tables.entries + [entry]
  {
  }

  class Row<T> {
    var data: T

    constructor (data: T)
      ensures this.data == data
    {
      this.data := data;
    }
  }

  ghost function Objects<T>(table: map<string, Row<T>>): set<object> {
    set k | k in table :: table[k]
  }

  /** No two keys share a row object. */
  ghost predicate Separate<T>(table: map<string, Row<T>>) {
    forall j, k :: j in table && k in table && j != k ==> table[j] != table[k]
  }

  ghost function Data<T>(table: map<string, Row<T>>): map<string, T>
    reads Objects(table)
  {
    map k | k in table :: table[k].data
  }

  /** new Map([...table].map(([k, v]) => [k, { ...v }])) */
  method Clone<T>(table: map<string, Row<T>>) returns (copy: map<string, Row<T>>)
    ensures copy.Keys == table.Keys && Separate(copy) && fresh(Objects(copy))
    ensures Data(copy) == Data(table)
  {
    copy := map[];
    var keys := table.Keys;
    while keys != {}
      invariant keys <= table.Keys && copy.Keys == table.Keys - keys
      invariant Separate(copy) && fresh(Objects(copy))
      invariant forall k :: k in copy ==> copy[k].data == table[k].data
      decreases keys
    {
      var k :| k in keys;
      var row := new Row<T>(table[k].data);
      ghost var before := Objects(copy);
      copy := copy[k := row];
      assert Objects(copy) <= before + {row};
      keys := keys - {k};
    }
  }

  /** table.set(key, row) with a new row object */
  method Put<T>(table: map<string, Row<T>>, key: string, data: T) returns (next: map<string, Row<T>>)
    requires Separate(table)
    ensures Separate(next) && fresh(Objects(next) - Objects(table))
    ensures Data(next) == old(Data(table))[key := data]
  {
    var row := new Row<T>(data);
    next := table[key := row];
  }

  /** const row = table.get(key); row.field = ... */
  method Update<T>(table: map<string, Row<T>>, key: string, data: T)
    requires Separate(table) && key in table
    modifies table[key]
    ensures Data(table) == old(Data(table))[key := data]
  {
    table[key].data := data;
  }

  /**
   new Map(table), as the other tables are snapshotted: the copy shares the row objects, so putting
   it back does not undo an update in place.  A cloned snapshot of the same table does.
   */
  method ShallowRollback<T>(table: map<string, Row<T>>, key: string, data: T)
    returns (shallow: map<string, Row<T>>, cloned: map<string, Row<T>>)
    requires Separate(table) && key in table
    modifies table[key]
    ensures Data(shallow) == old(Data(table))[key := data]
    ensures Data(cloned) == old(Data(table))
  {
    shallow := table;
    cloned := Clone(table);
    Update(table, key, data);
  }

  datatype Snapshot = Snapshot(
    wallets: map<string, Row<Wallet>>,
    positions: map<string, Row<Position>>,
    withdrawals: map<string, Row<Withdrawal>>,
    transactions: map<string, LedgerTx>,
    byRef: map<string, string>,
    entries: seq<Entry>)
  {
    ghost function Rows(): set<object> {
      Objects(wallets) + Objects(positions) + Objects(withdrawals)
    }

    ghost predicate Separated() {
      && Separate(wallets) && Separate(positions) && Separate(withdrawals)
      && Objects(wallets) !! Objects(positions)
      && Objects(wallets) !! Objects(withdrawals)
      && Objects(positions) !! Objects(withdrawals)
    }

    ghost function Tables(): Tables
      reads Rows()
    {
      PoolTables.Tables(Data(wallets), Data(positions), Data(withdrawals), transactions, byRef, entries)
    }
  }

  class Pool {
    var wallets: map<string, Row<Wallet>>
    var positions: map<string, Row<Position>>
    var withdrawals: map<string, Row<Withdrawal>>
    var transactions: map<string, LedgerTx>
    var byRef: map<string, string>
    var entries: seq<Entry>
    var locks: set<string>
    var depth: nat

    ghost function Rows(): set<object>
      reads `wallets, `positions, `withdrawals
    {
      Objects(wallets) + Objects(positions) + Objects(withdrawals)
    }

    ghost predicate Valid()
      reads `wallets, `positions, `withdrawals
    {
      && Separate(wallets) && Separate(positions) && Separate(withdrawals)
      && Objects(wallets) !! Objects(positions)
      && Objects(wallets) !! Objects(withdrawals)
      && Objects(positions) !! Objects(withdrawals)
      && this !in Rows()
    }

    /** What the pool holds, as a value */
    ghost function State(): World
      reads `wallets, `positions, `withdrawals, `transactions, `byRef, `entries, `locks, Rows()
    {
      World(Tables(Data(wallets), Data(positions), Data(withdrawals), transactions, byRef, entries), locks)
    }

    constructor ()
      ensures Valid() && fresh(Rows()) && depth == 0
      ensures State() == World(Tables(map[], map[], map[], map[], map[], []), {})
    {
      wallets, positions, withdrawals := map[], map[], map[];
      transactions, byRef, entries := map[], map[], [];
      locks, depth := {}, 0;
    }

    /** The row is updated in place when it exists and created when it does not. */
    method SetWallet(key: string, wallet: Wallet)
      requires Valid()
      modifies this`wallets, Objects(wallets)
      ensures Valid() && fresh(Objects(wallets) - old(Objects(wallets)))
      ensures Data(wallets) == old(Data(wallets))[key := wallet]
    {
      if key in wallets {
        Update(wallets, key, wallet);
      } else {
        wallets := Put(wallets, key, wallet);
      }
    }

    method WalletQuery(op: Op)
      requires Valid()
      modifies this`wallets, Objects(wallets)
      ensures Valid() && fresh(Objects(wallets) - old(Objects(wallets)))
      ensures Data(wallets) == WalletStep(op, old(Data(wallets)))
    {
      hide Key;
      match op
      case InsertWallet(account, asset, wallet, onConflictDoNothing) =>
        if !(onConflictDoNothing && Key(account, asset) in wallets) {
          wallets := Put(wallets, Key(account, asset), wallet);
        }
      case UpdateWallet(account, asset, available, locked) =>
        SetWallet(Key(account, asset), Wallet(available, locked));
      case UpdateAvailable(account, asset, available) =>
        if Key(account, asset) in wallets {
          SetWallet(Key(account, asset), wallets[Key(account, asset)].data.(available := available));
        } else {
          SetWallet(Key(account, asset), Wallet(available, "0"));
        }
      case DeleteWallets =>
        wallets := map[];
      case _ =>
    }

    method PositionQuery(op: Op)
      requires Valid()
      modifies this`positions, Objects(positions)
      ensures Valid() && fresh(Objects(positions) - old(Objects(positions)))
      ensures Data(positions) == PositionStep(op, old(Data(positions)))
    {
      hide Key;
      match op
      case InsertPosition(id, position) =>
        positions := Put(positions, id, position);
      case ReducePosition(id, position) =>
        if id in positions && positions[id].data.status == "OPEN" {
          Update(positions, id, position);
        }
      case LiquidatePosition(id, pnl) =>
        if id in positions {
          Update(positions, id, Liquidated(positions[id].data, pnl));
        }
      case _ =>
    }

    method WithdrawalQuery(op: Op)
      requires Valid()
      modifies this`withdrawals, Objects(withdrawals)
      ensures Valid() && fresh(Objects(withdrawals) - old(Objects(withdrawals)))
      ensures Data(withdrawals) == WithdrawalStep(op, old(Data(withdrawals)))
    {
      hide Key;
      match op
      case InsertWithdrawal(id, withdrawal) =>
        withdrawals := Put(withdrawals, id, withdrawal);
      case UpdateWithdrawal(id, withdrawal) =>
        if id in withdrawals {
          Update(withdrawals, id, withdrawal);
        }
      case DeleteWithdrawals =>
        withdrawals := map[];
      case _ =>
    }

    method LedgerQuery(op: Op)
      modifies this`transactions, this`byRef, this`entries
      ensures transactions == TransactionsStep(op, old(transactions))
      ensures byRef == ByRefStep(op, old(byRef))
      ensures entries == EntriesStep(op, old(entries))
    {
      hide Key;
      match op
      case InsertLedgerTx(tx) =>
        transactions := transactions[tx.id := tx];
        byRef := byRef[RefKey(tx) := tx.id];
      case InsertEntry(entry) =>
        entries := entries + [entry];
      case DeleteTransactions =>
        transactions, byRef := map[], map[];
      case DeleteEntries =>
        entries := [];
      case _ =>
    }

    method RowQueries(op: Op)
      requires Valid()
      modifies this`wallets, this`positions, this`withdrawals, Rows()
      ensures Valid() && fresh(Rows() - old(Rows()))
      ensures Data(wallets) == WalletStep(op, old(Data(wallets)))
      ensures Data(positions) == PositionStep(op, old(Data(positions)))
      ensures Data(withdrawals) == WithdrawalStep(op, old(Data(withdrawals)))
    {
      hide WalletStep, PositionStep, WithdrawalStep, Separate;
      WalletQuery(op);
      assert Data(positions) == old(Data(positions)) && Data(withdrawals) == old(Data(withdrawals));
      ghost var afterWallets := Data(wallets);
      PositionQuery(op);
      assert Data(wallets) == afterWallets && Data(withdrawals) == old(Data(withdrawals));
      ghost var afterPositions := Data(positions);
      WithdrawalQuery(op);
      assert Data(wallets) == afterWallets && Data(positions) == afterPositions;
    }

    method Conflicts(op: Op) returns (conflict: bool)
      ensures conflict == Rejects(op, State())
    {
      match op
      case SelectForUpdate(account, asset) =>
        conflict := Key(account, asset) in locks;
      case InsertLedgerTx(tx) =>
        conflict := RefKey(tx) in byRef;
      case _ =>
        conflict := false;
    }

    method Write(op: Op)
      requires Valid()
      modifies this, Rows()
      ensures Valid() && fresh(Rows() - old(Rows())) && depth == old(depth)
      ensures State() == World(TablesAfter(op, old(State().tables)), LocksAfter(op, old(State().locks)))
    {
      hide WalletStep, PositionStep, WithdrawalStep, TransactionsStep, ByRefStep, EntriesStep, LocksAfter, Data,
           Separate;
      ghost var t := State().tables;
      RowQueries(op);
      LedgerQuery(op);
      locks := LocksAfter(op, locks);
      assert State().tables == Tables(WalletStep(op, t.wallets), PositionStep(op, t.positions),
                                      WithdrawalStep(op, t.withdrawals), TransactionsStep(op, t.transactions),
                                      ByRefStep(op, t.byRef), EntriesStep(op, t.entries));
    }

    lemma EntriesInState()
      ensures State().tables.entries == entries
    {
    }

    /** One query: a conflict throws before anything is written. */
    method Query(op: Op) returns (threw: bool)
      requires Valid()
      modifies this, Rows()
      ensures Valid() && fresh(Rows() - old(Rows())) && depth == old(depth)
      ensures Step(op, old(State())) == Result(State(), threw)
      ensures ReadsBack(op, old(State()), State(), threw)
      ensures op.InsertEntry? ==>
        forall direction: Direction, keep: Entry -> bool ::
          TotalWhere(entries, direction, keep) == TotalWhere(old(entries), direction, keep)
            + if keep(op.entry) && op.entry.direction == direction then Amount(op.entry) else 0
    {
      hide Rejects, TablesAfter, LocksAfter, ReadsBack, Data, Separate, Pool.State;
      StepReadsBack(op, State());
      EntriesInState();
      threw := Conflicts(op);
      if !threw {
        Write(op);
      }
      if op.InsertEntry? {
        EntryReadsBack(op.entry, old(State()), State(), threw);
        EntriesInState();
        AppendedEntryCounts(old(entries), op.entry);
      }
    }

    /** The callback's calls, one after the other. */
    method Run(s: Script) returns (threw: bool)
      requires Valid()
      modifies this, Rows()
      ensures Valid() && fresh(Rows() - old(Rows())) && depth == old(depth)
      ensures Exec(s, old(State())) == Result(State(), threw)
      ensures NoEntriesDeleted(Log(s, old(State()))) ==> entries == old(entries) + Kept(s, old(State()))
      decreases s, 0
    {
      hide Step, Kept, Log, NoEntriesDeleted, ReadsBack, Data, Separate;
      if NoEntriesDeleted(Log(s, State())) {
        EntriesKept(s, State());
      }
      match s
      case Return =>
        threw := false;
      case Throw =>
        threw := true;
      case Query(op, returned, thrown) =>
        var failed := Query(op);
        if failed {
          threw := Run(thrown);
        } else {
          threw := Run(returned);
        }
      case Nested(body, returned, thrown) =>
        var failed := Transaction(body);
        if failed {
          threw := Run(thrown);
        } else {
          threw := Run(returned);
        }
    }

    /** The snapshots taken before the callback runs: rows cloned, values shared. */
    method TakeSnapshot() returns (snapshot: Snapshot)
      ensures fresh(snapshot.Rows()) && snapshot.Separated()
      ensures snapshot.Tables() == State().tables
    {
      var w := Clone(wallets);
      var p := Clone(positions);
      var d := Clone(withdrawals);
      snapshot := Snapshot(w, p, d, transactions, byRef, entries);
    }

    method Restore(snapshot: Snapshot)
      requires snapshot.Separated() && this !in snapshot.Rows()
      modifies this
      ensures Valid() && Rows() == snapshot.Rows() && depth == old(depth)
      ensures State() == World(old(snapshot.Tables()), old(State().locks))
    {
      hide Data, Separate;
      wallets, positions, withdrawals := snapshot.wallets, snapshot.positions, snapshot.withdrawals;
      transactions, byRef, entries := snapshot.transactions, snapshot.byRef, snapshot.entries;
    }

    /**
     Rollback fidelity: a transaction that throws leaves every table equal in value to what it was
     at its start, although rows were updated in place and row objects may have been replaced.
     */
    method Transaction(body: Script) returns (threw: bool)
      requires Valid()
      modifies this, Rows()
      ensures Valid() && fresh(Rows() - old(Rows())) && depth == old(depth)
      ensures Transact(body, old(State())) == Result(State(), threw)
      ensures threw ==> State().tables == old(State().tables)
      decreases body, 1
    {
      hide Exec, Transact, Data, Separate, Pool.State;
      ghost var before := State();
      depth := depth + 1;
      var snapshot := TakeSnapshot();
      ghost var taken := snapshot.Tables();
      assert State() == before && snapshot.Rows() !! Rows();
      threw := Run(body);
      TransactIs(body, before, State(), threw);
      if threw {
        assert snapshot.Tables() == taken;
        Restore(snapshot);
      }
      ghost var after := State();
      assert Transact(body, before) == Result(after, threw);
      depth := depth - 1;
      assert State() == after;
    }
  }
}

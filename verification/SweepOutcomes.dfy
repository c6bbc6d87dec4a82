/**
 What recording a verdict makes of a sweep, of the rows that carry its hash and of the intent that
 it spends, written out column by column, and what nobody's verdict touches.
 */
module SweepOutcomes {
  import opened Options
  import opened SweepTables
  import opened SweepLockstep

  /** The rows that carried the hash become `Row(_, status, txid, _, _)`; group and intent stay. */
  ghost predicate RowsBecome(t: Tables, u: Tables, h: Hash, status: Status, txid: Option<Hash>, at: Option<Millis>) {
    forall r :: r in t.rows && t.rows[r].txid == Some(h) ==>
      && r in u.rows
      && u.rows[r] == Row(t.rows[r].group, status, txid, t.rows[r].intent,
                          if at.Some? then at.value else t.rows[r].updatedAt)
  }

  ghost predicate IntentsBecome(t: Tables, u: Tables, h: Hash, status: Status) {
    forall i :: i in t.intents && t.intents[i].txid == Some(h) ==>
      i in u.intents && u.intents[i] == Intent(t.intents[i].group, t.intents[i].nonce, status, Some(h))
  }

  /** Confirmed in a block: the block is recorded with the moment of the confirmation. */
  ghost predicate Confirms(t: Tables, u: Tables, h: Hash, number: Option<int>, block: Option<int>,
                           now: Millis, at: Option<Millis>) {
    && h in t.txs && h in u.txs
    && u.txs[h] == Tx(t.txs[h].group, t.txs[h].nonce, Confirmed, if at.Some? then at.value else t.txs[h].updatedAt,
                      Some(now), number, block)
    && RowsBecome(t, u, h, Confirmed, Some(h), at) && IntentsBecome(t, u, h, Confirmed)
  }

  /** The sweep moves to another status and keeps what is recorded of a confirmation. */
  ghost predicate Moves(t: Tables, u: Tables, h: Hash, status: Status, at: Option<Millis>) {
    && h in t.txs && h in u.txs
    && u.txs[h] == Tx(t.txs[h].group, t.txs[h].nonce, status, if at.Some? then at.value else t.txs[h].updatedAt,
                      t.txs[h].confirmedAt, t.txs[h].blockNumber, t.txs[h].blockHash)
  }

  /** Reverted: the rows go back to the queue without the hash. */
  ghost predicate Fails(t: Tables, u: Tables, h: Hash, at: Option<Millis>) {
    Moves(t, u, h, Failed, at) && RowsBecome(t, u, h, Pending, None, at) && IntentsBecome(t, u, h, Failed)
  }

  /** Visible again, or rebroadcast. */
  ghost predicate Reopens(t: Tables, u: Tables, h: Hash, at: Option<Millis>) {
    Moves(t, u, h, Broadcast, at) && RowsBecome(t, u, h, Broadcast, Some(h), at) && IntentsBecome(t, u, h, Broadcast)
  }

  /** Dropped by the network: the rows keep the hash and wait for manual resolution. */
  ghost predicate Drops(t: Tables, u: Tables, h: Hash, at: Option<Millis>) {
    && Moves(t, u, h, StaleBroadcast, at)
    && RowsBecome(t, u, h, Reconciliation, Some(h), at) && IntentsBecome(t, u, h, Reconciliation)
  }

  ghost predicate CarriersStay(t: Tables, u: Tables, h: Hash) {
    && (forall r :: r in t.rows && t.rows[r].txid == Some(h) ==> r in u.rows && u.rows[r] == t.rows[r])
    && (forall i :: i in t.intents && t.intents[i].txid == Some(h) ==> i in u.intents && u.intents[i] == t.intents[i])
  }

  /** Mined in another block: only the block and the timestamp of the transaction change. */
  ghost predicate Reblocks(t: Tables, u: Tables, h: Hash, number: Option<int>, block: Option<int>, now: Millis) {
    && h in t.txs && h in u.txs
    && u.txs[h] == Tx(t.txs[h].group, t.txs[h].nonce, t.txs[h].status, now, t.txs[h].confirmedAt, number, block)
    && CarriersStay(t, u, h)
  }

  ghost predicate Untouched(t: Tables, u: Tables, h: Hash) {
    h in t.txs && h in u.txs && u.txs[h] == t.txs[h] && CarriersStay(t, u, h)
  }

  /** Nothing is inserted or deleted, and what carries none of the hashes stays. */
  ghost predicate OnlyCarriersMove(t: Tables, u: Tables, hashes: set<Hash>) {
    && u.rows.Keys == t.rows.Keys && u.intents.Keys == t.intents.Keys && u.txs.Keys == t.txs.Keys
    && u.nonces == t.nonces
    && (forall r :: r in t.rows && !(t.rows[r].txid.Some? && t.rows[r].txid.value in hashes) ==>
          u.rows[r] == t.rows[r])
    && (forall i :: i in t.intents && !(t.intents[i].txid.Some? && t.intents[i].txid.value in hashes) ==>
          u.intents[i] == t.intents[i])
    && (forall h :: h in t.txs && h !in hashes ==> u.txs[h] == t.txs[h])
  }

  /** What a verdict says, column by column. */
  ghost predicate Records(t: Tables, u: Tables, h: Hash, v: Verdict, now: Millis, at: Option<Millis>) {
    match v
    case Mined(number, block) => Confirms(t, u, h, number, block, now, at)
    case Reverted => Fails(t, u, h, at)
    case Visible => Reopens(t, u, h, at)
    case Dropped => Drops(t, u, h, at)
    case Remined(number, block) => at.Some? ==> Reblocks(t, u, h, number, block, at.value)
  }

  /** Of the two writers only the status worker stamps rows and transactions. */
  lemma ResolveRecords(t: Tables, h: Hash, v: Verdict, writer: Writer, now: Millis)
    requires h in t.txs
    ensures var u := Apply(t, Resolve(h, v, writer), now);
      && Records(t, u, h, v, now, if writer.StatusWorker? then Some(now) else None)
      && OnlyCarriersMove(t, u, {h})
  {
  }
}

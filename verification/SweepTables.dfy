/**
 The three tables of the deposit-sweep protocol and every SQL write that reaches
 them, from the sweep worker, the sweep status worker and the KMS custody provider.
 One `Write` is one committed statement or one committed database transaction.

 The columns `ps.network`, `bd.to_address` and `bd.asset` of a pending sweep never
 change, so they are kept together as the row's `Group`.
 */
module SweepTables {
  import opened Options

  type RowId = nat
  type IntentId = nat
  type Hash = nat
  type Network = nat
  type Millis = int

  datatype Group = Group(network: Network, address: nat, asset: nat)

  /** The VARCHAR status column shared by the three tables. */
  datatype Status =
    | Pending | Processing | Signing | Signed | Broadcast | Confirmed | Failed
    | StaleBroadcast | Reconciliation | DeferredDust | ZeroBalance

  /** A pending_sweeps row: `txid` is sweep_txid, `intent` is sweep_intent_id. */
  datatype Row = Row(group: Group, status: Status, txid: Option<Hash>, intent: Option<IntentId>, updatedAt: Millis)

  datatype Intent = Intent(group: Group, nonce: int, status: Status, txid: Option<Hash>)

  /** A sweep_transactions row. `group` is what its signed bytes pay: factory, salt and token. */
  datatype Tx = Tx(group: Group, nonce: int, status: Status, updatedAt: Millis,
                   confirmedAt: Option<Millis>, blockNumber: Option<int>, blockHash: Option<int>)

  datatype Tables = Tables(rows: map<RowId, Row>, intents: map<IntentId, Intent>, txs: map<Hash, Tx>,
                           nonces: map<Network, int>)

  /** What is decided about a recorded sweep transaction. */
  datatype Verdict =
    | Mined(blockNumber: Option<int>, blockHash: Option<int>)
    | Reverted
    | Visible
    | Dropped
    | Remined(newNumber: Option<int>, newHash: Option<int>)

  /** The provider's status writes leave updated_at alone; the status worker's set it. */
  datatype Writer = StatusWorker | Provider

  datatype Write =
    | Arrive(row: RowId, group: Group)
    | Allocate(network: Network, chainNonce: int)
    | Claim(group: Group)
    | RecoverUnreserved(before: Millis)
    | RecoverReserved(before: Millis)
    | RecoverArtifact(before: Millis)
    | Reserve(ids: set<RowId>, intent: IntentId, group: Group, chainNonce: int)
    | Reuse(ids: set<RowId>, intent: IntentId)
    | Persist(ids: set<RowId>, intent: IntentId, hash: Hash, group: Group)
    | Announce(intent: IntentId, hash: Hash)
    | Resolve(hash: Hash, verdict: Verdict, writer: Writer)
    | Review(intent: IntentId)
    | Mark(ids: set<RowId>, status: Status)
    | Settle(ids: set<RowId>, hash: Hash)

  // ---------------------------------------------------------------- queries

  predicate Claimable(row: Row) {
    row.status == Pending || row.status == DeferredDust
  }

  predicate InFlight(row: Row) {
    row.status == Processing || row.status == Signing
  }

  /** An open intent holds a reserved nonce and no artifact. */
  predicate Open(intent: Intent) {
    intent.status == Signing && intent.txid == None
  }

  predicate LinkedToOpen(row: Row, intents: map<IntentId, Intent>) {
    row.intent.Some? && row.intent.value in intents && Open(intents[row.intent.value])
  }

  /** The group selection query: a PENDING row, and nothing in flight or broadcast. */
  ghost predicate Selectable(t: Tables, g: Group) {
    && (exists r :: r in t.rows && t.rows[r].group == g && t.rows[r].status == Pending)
    && (forall r :: r in t.rows && t.rows[r].group == g ==>
                      !InFlight(t.rows[r]) && t.rows[r].status != Broadcast)
  }

  /** The rows a claim of group `g` takes: every claimable row of the group. */
  function ClaimIds(t: Tables, g: Group): set<RowId> {
    set r | r in t.rows && t.rows[r].group == g && Claimable(t.rows[r])
  }

  // ------------------------------------------------- pending_sweeps updates

  predicate StuckUnreserved(row: Row, before: Millis) {
    row.status == Processing && row.txid == None && row.intent == None && row.updatedAt < before
  }

  predicate StuckReserved(row: Row, intents: map<IntentId, Intent>, before: Millis) {
    row.status == Signing && LinkedToOpen(row, intents) && row.updatedAt < before
  }

  predicate StuckArtifact(row: Row, before: Millis) {
    InFlight(row) && row.txid.Some? && row.updatedAt < before
  }

  function Requeue(row: Row, now: Millis): Row {
    row.(status := Pending, updatedAt := now)
  }

  function RowStamp(row: Row, writer: Writer, now: Millis): Millis {
    if writer == StatusWorker then now else row.updatedAt
  }

  /** A row that carries the hash of a transaction on which `v` was just recorded. */
  function RowAfter(row: Row, v: Verdict, writer: Writer, now: Millis): Row {
    var at := RowStamp(row, writer, now);
    match v
    case Mined(_, _) => row.(status := Confirmed, updatedAt := at)
    case Reverted => row.(status := Pending, txid := None, updatedAt := at)
    case Visible => row.(status := Broadcast, updatedAt := at)
    case Dropped => row.(status := Reconciliation, updatedAt := at)
    case Remined(_, _) => row
  }

  function IntentAfter(intent: Intent, v: Verdict): Intent {
    match v
    case Mined(_, _) => intent.(status := Confirmed)
    case Reverted => intent.(status := Failed)
    case Visible => intent.(status := Broadcast)
    case Dropped => intent.(status := Reconciliation)
    case Remined(_, _) => intent
  }

  function TxAfter(tx: Tx, v: Verdict, writer: Writer, now: Millis): Tx {
    var at := if writer == StatusWorker then now else tx.updatedAt;
    match v
    case Mined(n, b) =>
      tx.(status := Confirmed, blockNumber := n, blockHash := b, confirmedAt := Some(now), updatedAt := at)
    case Reverted => tx.(status := Failed, updatedAt := at)
    case Visible => tx.(status := Broadcast, updatedAt := at)
    case Dropped => tx.(status := StaleBroadcast, updatedAt := at)
    case Remined(n, b) => tx.(blockNumber := n, blockHash := b, updatedAt := at)
  }

  // ---------------------------------------------------- the effect of a write

  /** The row a write leaves under a given id: the SET clause where the WHERE clause holds. */
  function RowUpdate(t: Tables, w: Write, r: RowId, row: Row, now: Millis): Row {
    match w
    case Arrive(_, _) => row
    case Allocate(_, _) => row
    case Claim(g) =>
      if row.group == g && Claimable(row) then row.(status := Processing, updatedAt := now) else row
    case RecoverUnreserved(before) =>
      if StuckUnreserved(row, before) then Requeue(row, now) else row
    case RecoverReserved(before) =>
      if StuckReserved(row, t.intents, before) then Requeue(row, now) else row
    case RecoverArtifact(before) =>
      if StuckArtifact(row, before) then Requeue(row, now) else row
    case Reserve(ids, i, _, _) =>
      if r in ids then row.(status := Signing, intent := Some(i), updatedAt := now) else row
    case Reuse(ids, i) =>
      if r in ids then row.(status := Signing, intent := Some(i), updatedAt := now) else row
    case Persist(ids, _, h, _) =>
      if r in ids && h !in t.txs then row.(txid := Some(h)) else row
    case Announce(_, h) =>
      if row.txid == Some(h) then row.(status := Broadcast) else row
    case Resolve(h, v, writer) =>
      if row.txid == Some(h) then RowAfter(row, v, writer, now) else row
    case Review(i) =>
      if row.intent == Some(i) then row.(status := Reconciliation, updatedAt := now) else row
    case Mark(ids, status) =>
      if r in ids then row.(status := status, updatedAt := now) else row
    case Settle(ids, h) =>
      if r in ids then row.(status := Confirmed, txid := Some(h), updatedAt := now) else row
  }

  function IntentUpdate(t: Tables, w: Write, i: IntentId, intent: Intent): Intent {
    match w
    case Persist(_, j, h, _) =>
      if i == j && h !in t.txs then intent.(status := Signed, txid := Some(h)) else intent
    case Announce(j, _) =>
      if i == j then intent.(status := Broadcast) else intent
    case Resolve(h, v, _) =>
      if intent.txid == Some(h) then IntentAfter(intent, v) else intent
    case Review(j) =>
      if i == j then intent.(status := Reconciliation) else intent
    case _ => intent
  }

  function TxUpdate(w: Write, h: Hash, tx: Tx, now: Millis): Tx {
    match w
    case Announce(_, k) => if h == k then tx.(status := Broadcast) else tx
    case Resolve(k, v, writer) => if h == k then TxAfter(tx, v, writer, now) else tx
    case _ => tx
  }

  /** The nonce a fresh reservation hands out: the stored counter, or the chain's count at first use. */
  function NextNonce(t: Tables, n: Network, chainNonce: int): int {
    if n in t.nonces then t.nonces[n] else chainNonce
  }

  /** The intent a reservation inserts. */
  function NewIntent(t: Tables, g: Group, chainNonce: int): Intent {
    Intent(g, NextNonce(t, g.network, chainNonce), Signing, None)
  }

  /** The transaction row a persisted artifact inserts, for an intent that exists. */
  function NewTx(t: Tables, i: IntentId, g: Group, now: Millis): Tx {
    Tx(g, if i in t.intents then t.intents[i].nonce else 0, Pending, now, None, None, None)
  }

  function UpdatedRows(t: Tables, w: Write, now: Millis): map<RowId, Row> {
    map r | r in t.rows :: RowUpdate(t, w, r, t.rows[r], now)
  }

  function UpdatedIntents(t: Tables, w: Write): map<IntentId, Intent> {
    map i | i in t.intents :: IntentUpdate(t, w, i, t.intents[i])
  }

  function UpdatedTxs(t: Tables, w: Write, now: Millis): map<Hash, Tx> {
    map h | h in t.txs :: TxUpdate(w, h, t.txs[h], now)
  }

  /** UNIQUE(deposit_id) makes a repeated arrival a no-op; UNIQUE(tx_hash) aborts a repeated Persist. */
  function Apply(t: Tables, w: Write, now: Millis): Tables {
    var rows := UpdatedRows(t, w, now);
    var intents := UpdatedIntents(t, w);
    var txs := UpdatedTxs(t, w, now);
    match w
    case Arrive(r, g) =>
      if r in t.rows then t else t.(rows := t.rows[r := Row(g, Pending, None, None, now)])
    case Allocate(n, chainNonce) =>
      t.(nonces := t.nonces[n := NextNonce(t, n, chainNonce) + 1])
    case Reserve(_, i, g, chainNonce) =>
      Tables(rows, intents[i := NewIntent(t, g, chainNonce)], txs,
             t.nonces[g.network := NextNonce(t, g.network, chainNonce) + 1])
    case Persist(_, i, h, g) =>
      if h in t.txs then t else Tables(rows, intents, txs[h := NewTx(t, i, g, now)], t.nonces)
    case _ =>
      Tables(rows, intents, txs, t.nonces)
  }

  /** What the database itself guarantees of a write: generated ids are new, addressed rows exist. */
  predicate Ready(t: Tables, w: Write) {
    match w
    case Reserve(_, i, _, _) => i !in t.intents
    case Persist(_, i, _, _) => i in t.intents
    case Announce(_, h) => h in t.txs
    case Resolve(h, _, _) => h in t.txs
    case Mark(_, status) =>
      status == Pending || status == DeferredDust || status == Reconciliation || status == ZeroBalance
    case _ => true
  }
}

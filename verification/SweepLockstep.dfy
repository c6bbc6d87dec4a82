/**
 Three-table lockstep: rows and intents that carry the hash of a sweep transaction
 agree with that transaction.  For every write the exact condition is given under
 which it keeps the lockstep, so that over any run, with any number of workers
 interleaved, stalled or crashed, the lockstep holds throughout if and only if
 each write met its own condition.
 */
module SweepLockstep {
  import opened Options
  import opened SweepTables

  /** The recorded status of the transaction a txid column names, if it names one. */
  function TxStatus(txs: map<Hash, Tx>, txid: Option<Hash>): Option<Status> {
    if txid.Some? && txid.value in txs then Some(txs[txid.value].status) else None
  }

  predicate Agree(status: Status, st: Option<Status>) {
    && (status == Broadcast <==> st == Some(Broadcast))
    && (status == Confirmed <==> st == Some(Confirmed))
    && (st == Some(StaleBroadcast) ==> status == Reconciliation)
    && st != Some(Failed)
  }

  /**
   A row agrees with its transaction: BROADCAST and CONFIRMED together, RECONCILIATION once dropped,
   never a FAILED hash.
   */
  predicate RowAgrees(row: Row, txs: map<Hash, Tx>) {
    Agree(row.status, TxStatus(txs, row.txid))
  }

  predicate IntentAgrees(intent: Intent, txs: map<Hash, Tx>) {
    var st := TxStatus(txs, intent.txid);
    && (intent.status == Broadcast <==> st == Some(Broadcast))
    && (intent.status == Confirmed <==> st == Some(Confirmed))
    && (intent.status == Failed <==> st == Some(Failed))
    && (st == Some(StaleBroadcast) ==> intent.status == Reconciliation)
  }

  ghost predicate Lockstep(t: Tables) {
    && (forall r :: r in t.rows ==> RowAgrees(t.rows[r], t.txs))
    && (forall i :: i in t.intents ==> IntentAgrees(t.intents[i], t.txs))
  }

  /** A row on which neither a broadcast nor a confirmation has been recorded. */
  predicate Unsettled(row: Row) {
    row.status != Broadcast && row.status != Confirmed
  }

  predicate CarriesDropped(t: Tables, row: Row) {
    TxStatus(t.txs, row.txid) == Some(StaleBroadcast)
  }

  /** The check each write would need in its WHERE clause. */
  ghost predicate Guard(t: Tables, w: Write) {
    match w
    case Reserve(ids, _, _, _) =>
      forall r :: r in ids && r in t.rows ==> Unsettled(t.rows[r]) && !CarriesDropped(t, t.rows[r])
    case Reuse(ids, _) =>
      forall r :: r in ids && r in t.rows ==> Unsettled(t.rows[r]) && !CarriesDropped(t, t.rows[r])
    case Persist(ids, _, h, _) =>
      h in t.txs || forall r :: r in ids && r in t.rows ==> Unsettled(t.rows[r])
    case Announce(i, h) =>
      && (i in t.intents ==> t.intents[i].txid == Some(h) || t.intents[i].status == Broadcast)
      && (forall j :: j in t.intents && j != i && t.intents[j].txid == Some(h) ==> t.intents[j].status == Broadcast)
    case Review(i) =>
      && (i in t.intents ==> t.intents[i].status !in {Broadcast, Confirmed, Failed})
      && (forall r :: r in t.rows && t.rows[r].intent == Some(i) ==> Unsettled(t.rows[r]))
    case Mark(ids, status) =>
      forall r :: r in ids && r in t.rows ==>
        Unsettled(t.rows[r]) && (CarriesDropped(t, t.rows[r]) ==> status == Reconciliation)
    case Settle(ids, h) =>
      TxStatus(t.txs, Some(h)) == Some(Confirmed) || forall r :: r in ids ==> r !in t.rows
    case _ => true
  }

  ghost predicate RowGuard(t: Tables, w: Write, r: RowId)
    requires r in t.rows
  {
    var row := t.rows[r];
    match w
    case Reserve(ids, _, _, _) => r in ids ==> Unsettled(row) && !CarriesDropped(t, row)
    case Reuse(ids, _) => r in ids ==> Unsettled(row) && !CarriesDropped(t, row)
    case Persist(ids, _, h, _) => h in t.txs || (r in ids ==> Unsettled(row))
    case Review(i) => row.intent == Some(i) ==> Unsettled(row)
    case Mark(ids, status) => r in ids ==> Unsettled(row) && (CarriesDropped(t, row) ==> status == Reconciliation)
    case Settle(ids, h) => r in ids ==> TxStatus(t.txs, Some(h)) == Some(Confirmed)
    case _ => true
  }

  ghost predicate IntentGuard(t: Tables, w: Write, i: IntentId)
    requires i in t.intents
  {
    match w
    case Announce(j, h) =>
      if i == j then t.intents[i].txid == Some(h) || t.intents[i].status == Broadcast
      else t.intents[i].txid == Some(h) ==> t.intents[i].status == Broadcast
    case Review(j) => i == j ==> t.intents[i].status !in {Broadcast, Confirmed, Failed}
    case _ => true
  }

  /** What `Apply` leaves at one row, one intent and one txid. */
  lemma RowAt(t: Tables, w: Write, now: Millis, r: RowId)
    requires Ready(t, w) && r in t.rows
    ensures r in Apply(t, w, now).rows
    ensures Apply(t, w, now).rows[r] == RowUpdate(t, w, r, t.rows[r], now)
  {
  }

  lemma IntentAt(t: Tables, w: Write, now: Millis, i: IntentId)
    requires Ready(t, w) && i in t.intents
    ensures i in Apply(t, w, now).intents
    ensures Apply(t, w, now).intents[i] == IntentUpdate(t, w, i, t.intents[i])
  {
  }

  /** The status recorded under a txid after a write. */
  function StatusAfter(t: Tables, w: Write, txid: Option<Hash>): Option<Status> {
    match w
    case Persist(_, _, h, _) => if txid == Some(h) && h !in t.txs then Some(Pending) else TxStatus(t.txs, txid)
    case Announce(_, h) => if txid == Some(h) then Some(Broadcast) else TxStatus(t.txs, txid)
    case Resolve(h, Mined(_, _), _) => if txid == Some(h) then Some(Confirmed) else TxStatus(t.txs, txid)
    case Resolve(h, Reverted, _) => if txid == Some(h) then Some(Failed) else TxStatus(t.txs, txid)
    case Resolve(h, Visible, _) => if txid == Some(h) then Some(Broadcast) else TxStatus(t.txs, txid)
    case Resolve(h, Dropped, _) => if txid == Some(h) then Some(StaleBroadcast) else TxStatus(t.txs, txid)
    case _ => TxStatus(t.txs, txid)
  }

  lemma StatusAt(t: Tables, w: Write, now: Millis, txid: Option<Hash>)
    requires Ready(t, w)
    ensures TxStatus(Apply(t, w, now).txs, txid) == StatusAfter(t, w, txid)
  {
  }

  lemma RowStep(t: Tables, w: Write, now: Millis, r: RowId)
    requires Lockstep(t) && Ready(t, w) && r in t.rows
    ensures r in Apply(t, w, now).rows
    ensures RowAgrees(Apply(t, w, now).rows[r], Apply(t, w, now).txs) <==> RowGuard(t, w, r)
  {
    var row := t.rows[r];
    var row' := RowUpdate(t, w, r, row, now);
    RowAt(t, w, now, r);
    StatusAt(t, w, now, row'.txid);
    RowArithmetic(t, w, now, r, row, row');
  }

  lemma RowArithmetic(t: Tables, w: Write, now: Millis, r: RowId, row: Row, row': Row)
    requires r in t.rows && t.rows[r] == row && Ready(t, w)
    requires RowAgrees(row, t.txs) && row' == RowUpdate(t, w, r, row, now)
    ensures Agree(row'.status, StatusAfter(t, w, row'.txid)) <==> RowGuard(t, w, r)
  {
  }

  lemma IntentStep(t: Tables, w: Write, now: Millis, i: IntentId)
    requires Lockstep(t) && Ready(t, w) && i in t.intents
    ensures i in Apply(t, w, now).intents
    ensures IntentAgrees(Apply(t, w, now).intents[i], Apply(t, w, now).txs) <==> IntentGuard(t, w, i)
  {
    hide Apply;
    var intent := t.intents[i];
    assert IntentAgrees(intent, t.txs);
    IntentAt(t, w, now, i);
    StatusAt(t, w, now, IntentUpdate(t, w, i, intent).txid);
  }

  lemma GuardIsPointwise(t: Tables, w: Write)
    ensures Guard(t, w) <==>
      (forall r :: r in t.rows ==> RowGuard(t, w, r)) && (forall i :: i in t.intents ==> IntentGuard(t, w, i))
  {
    match w
    case Announce(i, h) =>
    case Settle(ids, h) =>
    case _ =>
  }

  /** The exact condition: from lockstep, a write keeps lockstep if and only if it meets its guard. */
  lemma WriteKeepsLockstepIff(t: Tables, w: Write, now: Millis)
    requires Lockstep(t) && Ready(t, w)
    ensures Lockstep(Apply(t, w, now)) <==> Guard(t, w)
  {
    hide Apply, Ready, Guard, RowGuard, IntentGuard, RowAgrees, IntentAgrees;
    var u := Apply(t, w, now);
    GuardIsPointwise(t, w);
    InsertedAgree(t, w, now);
    forall r | r in t.rows
      ensures r in u.rows && (RowAgrees(u.rows[r], u.txs) <==> RowGuard(t, w, r))
    {
      RowStep(t, w, now, r);
    }
    forall i | i in t.intents
      ensures i in u.intents && (IntentAgrees(u.intents[i], u.txs) <==> IntentGuard(t, w, i))
    {
      IntentStep(t, w, now, i);
    }
  }

  /** A row or an intent that a write inserts carries no hash and agrees with every transaction. */
  lemma InsertedAgree(t: Tables, w: Write, now: Millis)
    ensures var u := Apply(t, w, now);
      && (forall r :: r in u.rows && r !in t.rows ==> RowAgrees(u.rows[r], u.txs))
      && (forall i :: i in u.intents && i !in t.intents ==> IntentAgrees(u.intents[i], u.txs))
  {
    var u := Apply(t, w, now);
    forall r | r in u.rows && r !in t.rows ensures RowAgrees(u.rows[r], u.txs) {
      assert w.Arrive?;
    }
    forall i | i in u.intents && i !in t.intents ensures IntentAgrees(u.intents[i], u.txs) {
      assert w.Reserve?;
    }
  }

  /**
   A row settled against an earlier sweep follows that sweep: a reorg takes it back to BROADCAST,
   a revert back to PENDING without the hash, and a drop to RECONCILIATION.
   */
  lemma SettledRowFollows(t: Tables, ids: set<RowId>, h: Hash, at: Millis, v: Verdict, writer: Writer, now: Millis,
                          r: RowId)
    requires Lockstep(t) && TxStatus(t.txs, Some(h)) == Some(Confirmed) && r in ids && r in t.rows
    ensures var settled := Apply(t, Settle(ids, h), at);
      var u := Apply(settled, Resolve(h, v, writer), now);
      && Lockstep(settled) && Lockstep(u) && r in u.rows
      && u.rows[r].group == t.rows[r].group && u.rows[r].intent == t.rows[r].intent
      && u.rows[r].txid == (if v.Reverted? then None else Some(h))
      && (v.Reverted? ==> u.rows[r].status == Pending && TxStatus(u.txs, Some(h)) == Some(Failed))
      && (v.Visible? ==> u.rows[r].status == Broadcast && TxStatus(u.txs, Some(h)) == Some(Broadcast))
      && (v.Dropped? ==> u.rows[r].status == Reconciliation && TxStatus(u.txs, Some(h)) == Some(StaleBroadcast))
      && (v.Mined? || v.Remined? ==> u.rows[r].status == Confirmed && TxStatus(u.txs, Some(h)) == Some(Confirmed))
  {
    hide Apply, Lockstep;
    var settled := Apply(t, Settle(ids, h), at);
    WriteKeepsLockstepIff(t, Settle(ids, h), at);
    RowAt(t, Settle(ids, h), at, r);
    StatusAt(t, Settle(ids, h), at, Some(h));
    WriteKeepsLockstepIff(settled, Resolve(h, v, writer), now);
    RowAt(settled, Resolve(h, v, writer), now, r);
    StatusAt(settled, Resolve(h, v, writer), now, Some(h));
  }

  datatype Timed = Timed(write: Write, now: Millis)

  predicate Commits(t: Tables, step: Timed, u: Tables) {
    Ready(t, step.write) && u == Apply(t, step.write, step.now)
  }

  /** A run of the database: every committed write, of any worker, in commit order. */
  ghost predicate Run(states: seq<Tables>, log: seq<Timed>) {
    && |states| == |log| + 1
    && forall k :: 0 <= k < |log| ==> Commits(states[k], log[k], states[k + 1])
  }

  lemma {:induction false} GuardedRunKeepsLockstep(states: seq<Tables>, log: seq<Timed>, n: nat)
    requires Run(states, log) && Lockstep(states[0]) && n < |states|
    requires forall k :: 0 <= k < |log| ==> Guard(states[k], log[k].write)
    ensures Lockstep(states[n])
  {
    if n > 0 {
      GuardedRunKeepsLockstep(states, log, n - 1);
      assert Commits(states[n - 1], log[n - 1], states[n - 1 + 1]);
      WriteKeepsLockstepIff(states[n - 1], log[n - 1].write, log[n - 1].now);
    }
  }

  /** Over every run: the tables stay in lockstep if and only if every write met its guard. */
  lemma RunKeepsLockstepIff(states: seq<Tables>, log: seq<Timed>)
    requires Run(states, log) && Lockstep(states[0])
    ensures (forall k :: 0 <= k < |states| ==> Lockstep(states[k]))
       <==> (forall k :: 0 <= k < |log| ==> Guard(states[k], log[k].write))
  {
    if forall k :: 0 <= k < |states| ==> Lockstep(states[k]) {
      forall k | 0 <= k < |log| ensures Guard(states[k], log[k].write) {
        assert Commits(states[k], log[k], states[k + 1]);
        WriteKeepsLockstepIff(states[k], log[k].write, log[k].now);
      }
    }
    if forall k :: 0 <= k < |log| ==> Guard(states[k], log[k].write) {
      forall n | 0 <= n < |states| ensures Lockstep(states[n]) {
        GuardedRunKeepsLockstep(states, log, n);
      }
    }
  }

  // ------------------------------------------------------------------ replay

  /** The tables a log of commits leads to. */
  function Replay(t: Tables, log: seq<Timed>): Tables {
    if |log| == 0 then t
    else Apply(Replay(t, log[..|log| - 1]), log[|log| - 1].write, log[|log| - 1].now)
  }

  lemma {:induction false} ReplayConcat(t: Tables, a: seq<Timed>, b: seq<Timed>)
    ensures Replay(t, a + b) == Replay(Replay(t, a), b)
  {
    hide Apply;
    if |b| == 0 {
      assert a + b == a;
    } else {
      var n := |b| - 1;
      assert (a + b)[..|a + b| - 1] == a + b[..n];
      ReplayConcat(t, a, b[..n]);
    }
  }

  ghost predicate Possible(t: Tables, log: seq<Timed>) {
    forall k :: 0 <= k < |log| ==> Ready(Replay(t, log[..k]), log[k].write)
  }

  /** The tables agree after every prefix of a log if and only if each of its writes met its guard when it committed. */
  lemma ReplayKeepsLockstepIff(t: Tables, log: seq<Timed>)
    requires Lockstep(t) && Possible(t, log)
    ensures (forall k :: 0 <= k <= |log| ==> Lockstep(Replay(t, log[..k])))
       <==> (forall k :: 0 <= k < |log| ==> Guard(Replay(t, log[..k]), log[k].write))
  {
    hide Apply, Lockstep, Guard, Ready;
    var states := seq(|log| + 1, k requires 0 <= k <= |log| => Replay(t, log[..k]));
    forall k | 0 <= k < |log| ensures Commits(states[k], log[k], states[k + 1]) {
      assert Ready(Replay(t, log[..k]), log[k].write);
      assert log[..k + 1][..k] == log[..k];
    }
    RunKeepsLockstepIff(states, log);
    forall k | 0 <= k <= |log| ensures states[k] == Replay(t, log[..k]) {
    }
    assert (forall k :: 0 <= k <= |log| ==> Lockstep(Replay(t, log[..k])))
      <==> (forall k :: 0 <= k < |states| ==> Lockstep(states[k]));
  }
}

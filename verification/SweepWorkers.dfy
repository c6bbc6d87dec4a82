/**
 The sweep worker and the sweep status worker as the imperative programs they are, over a
 database object whose tables they update, proved against the writes of `SweepTables`.
 Chain replies, clock readings and connection failures are parameters.
 */
module SweepWorkers {
  import opened Options
  import opened SweepTables
  import opened SweepLockstep
  import opened SweepProtocol
  import opened SweepInvariant
  import opened SweepQueue
  import opened SweepOutcomes

  const MINUTE: Millis := 60_000
  const HOUR: Millis := 3_600_000
  const BROADCAST_BATCH: nat := 50
  const REORG_BATCH: nat := 20

  class SweepDatabase {
    var rows: map<RowId, Row>
    var intents: map<IntentId, Intent>
    var txs: map<Hash, Tx>
    var nonces: map<Network, int>

    function Contents(): Tables
      reads this
    {
      Tables(rows, intents, txs, nonces)
    }

    constructor ()
      ensures Contents() == INITIAL.t
    {
      rows, intents, txs, nonces := map[], map[], map[], map[];
    }

    /** Commits one statement or transaction. */
    method Execute(w: Write, now: Millis)
      modifies this
      ensures Contents() == Apply(old(Contents()), w, now)
    {
      var t := Apply(Contents(), w, now);
      rows, intents, txs, nonces := t.rows, t.intents, t.txs, t.nonces;
    }

    /** Commits what other workers commit in the meantime. */
    method ExecuteAll(log: seq<Timed>)
      modifies this
      ensures Contents() == Replay(old(Contents()), log)
    {
      hide Apply;
      for k := 0 to |log|
        invariant Contents() == Replay(old(Contents()), log[..k])
      {
        assert log[..k + 1][..k] == log[..k];
        Execute(log[k].write, log[k].now);
      }
      assert log[..|log|] == log;
    }
  }

  /** Rows last written before these instants count as stuck. */
  function Cutoffs(clock: seq<Millis>, timeoutMinutes: nat): (cut: seq<Millis>)
    requires |clock| == 3
    ensures |cut| == 3
  {
    [clock[0] - timeoutMinutes * MINUTE, clock[1] - timeoutMinutes * MINUTE, clock[2] - timeoutMinutes * MINUTE]
  }

  /** Written less than the timeout before each of the readings, or just as long. */
  predicate Young(row: Row, clock: seq<Millis>, timeoutMinutes: nat)
    requires |clock| == 3
  {
    forall k :: 0 <= k < 3 ==> clock[k] - row.updatedAt <= timeoutMinutes * 60_000
  }

  /** Written longer than the timeout before each of the readings. */
  predicate Overdue(row: Row, clock: seq<Millis>, timeoutMinutes: nat)
    requires |clock| == 3
  {
    forall k :: 0 <= k < 3 ==> clock[k] - row.updatedAt > timeoutMinutes * 60_000
  }

  /** The row as it was, or PENDING with its ids at one of the readings. */
  predicate RequeuedAt(row: Row, after: Row, clock: seq<Millis>) {
    after == row || (InFlight(row) && after.updatedAt in clock
                     && after == Row(row.group, Pending, row.txid, row.intent, after.updatedAt))
  }

  /**
   The cases of the recovery routine: an artifact to rebroadcast, a claim that never came to an
   intent, or a nonce reserved in an intent that is still SIGNING without an artifact.
   */
  predicate Recoverable(row: Row, intents: map<IntentId, Intent>) {
    || row.txid.Some?
    || (row.status == Processing && row.intent == None)
    || (row.status == Signing && row.intent.Some? && row.intent.value in intents
        && intents[row.intent.value].status == Signing && intents[row.intent.value].txid == None)
  }

  lemma RecoveryByAge(t: Tables, clock: seq<Millis>, timeoutMinutes: nat)
    requires |clock| == 3
    ensures var cut := Cutoffs(clock, timeoutMinutes);
      && (forall r :: r in t.rows ==> RequeuedAt(t.rows[r], Recovered(t, t.rows[r], cut, clock), clock))
      && (forall r :: r in t.rows && Young(t.rows[r], clock, timeoutMinutes) ==>
            Recovered(t, t.rows[r], cut, clock) == t.rows[r])
      && (forall r :: r in t.rows && InFlight(t.rows[r]) && Overdue(t.rows[r], clock, timeoutMinutes) ==>
            r in RecoveryPass(t, cut, clock).rows &&
            (RecoveryPass(t, cut, clock).rows[r].status == Pending <==> Recoverable(t.rows[r], t.intents)))
  {
    var cut := Cutoffs(clock, timeoutMinutes);
    forall r | r in t.rows && InFlight(t.rows[r]) && Overdue(t.rows[r], clock, timeoutMinutes)
      ensures r in RecoveryPass(t, cut, clock).rows
      ensures RecoveryPass(t, cut, clock).rows[r].status == Pending <==> Recoverable(t.rows[r], t.intents)
    {
      assert cut[0] > t.rows[r].updatedAt && cut[1] > t.rows[r].updatedAt && cut[2] > t.rows[r].updatedAt;
      RecoveryPassRow(t, cut, clock, r);
    }
  }

  // ------------------------------------------------------------ SweepWorker

  class SweepWorker {
    const db: SweepDatabase

    constructor (db: SweepDatabase)
      ensures this.db == db
    {
      this.db := db;
    }

    /**
     Three updates in order; a lost connection leaves the later ones undone.  A row is left as it is
     or put back into the queue with all its ids; one that was written within the timeout is left;
     and with all updates done a row in flight that is overdue is back exactly when it is recoverable.
     */
    method RecoverStuckSweeps(timeoutMinutes: nat, clock: seq<Millis>, succeeding: nat)
      requires |clock| == 3
      modifies db
      ensures StageFits(old(db.Contents()), db.Contents(), Cutoffs(clock, timeoutMinutes), clock)
      ensures succeeding >= 3 ==>
        db.Contents() == RecoveryPass(old(db.Contents()), Cutoffs(clock, timeoutMinutes), clock)
      ensures forall r :: r in old(db.rows) ==> r in db.rows && RequeuedAt(old(db.rows)[r], db.rows[r], clock)
      ensures forall r :: r in old(db.rows) && Young(old(db.rows)[r], clock, timeoutMinutes) ==>
        db.rows[r] == old(db.rows)[r]
      ensures succeeding >= 3 ==>
        forall r ::
          r in old(db.rows) && InFlight(old(db.rows)[r]) && Overdue(old(db.rows)[r], clock, timeoutMinutes) ==>
          (db.rows[r].status == Pending <==> Recoverable(old(db.rows)[r], old(db.intents)))
    {
      var cut := Cutoffs(clock, timeoutMinutes);
      RecoveryStagesFit(db.Contents(), cut, clock);
      ghost var t := db.Contents();
      RecoveryByAge(t, clock, timeoutMinutes);
      if succeeding >= 1 {
        db.Execute(RecoverUnreserved(cut[0]), clock[0]);
      }
      if succeeding >= 2 {
        db.Execute(RecoverReserved(cut[1]), clock[1]);
      }
      if succeeding >= 3 {
        db.Execute(RecoverArtifact(cut[2]), clock[2]);
      }
    }

    /** SELECT DISTINCT of the selectable groups, at most `limit` of them. */
    method GetGroupedTargets(limit: nat) returns (targets: seq<Group>)
      ensures |targets| <= limit
      ensures forall i :: 0 <= i < |targets| ==> Selectable(db.Contents(), targets[i])
      ensures forall i, j :: 0 <= i < j < |targets| ==> targets[i] != targets[j]
      ensures |targets| < limit ==> forall g :: Selectable(db.Contents(), g) ==> g in targets
      ensures forall i :: 0 <= i < |targets| ==>
        && (exists r :: r in db.rows && db.rows[r].group == targets[i] && db.rows[r].status == Pending)
        && forall r :: r in db.rows && db.rows[r].group == targets[i] ==>
             db.rows[r].status !in {Processing, Signing, Broadcast}
      ensures |targets| < limit ==> forall r :: r in db.rows && db.rows[r].status == Pending ==>
        || db.rows[r].group in targets
        || exists q :: q in db.rows && db.rows[q].group == db.rows[r].group
             && db.rows[q].status in {Processing, Signing, Broadcast}
    {
      ghost var t := db.Contents();
      var left := set r | r in db.rows && db.rows[r].status == Pending;
      var busy := set r | r in db.rows && (InFlight(db.rows[r]) || db.rows[r].status == Broadcast) :: db.rows[r].group;
      targets := [];
      while left != {} && |targets| < limit
        invariant |targets| <= limit
        invariant forall r :: r in left ==> r in db.rows && db.rows[r].status == Pending
        invariant forall i :: 0 <= i < |targets| ==> Selectable(t, targets[i])
        invariant forall i, j :: 0 <= i < j < |targets| ==> targets[i] != targets[j]
        invariant forall r :: r in db.rows && db.rows[r].status == Pending && r !in left ==>
          db.rows[r].group in busy || db.rows[r].group in targets
        decreases left
      {
        var r :| r in left;
        var g := db.rows[r].group;
        if g !in busy && g !in targets {
          assert forall q :: q in db.rows && db.rows[q].group == g ==> db.rows[q].group !in busy;
          targets := targets + [g];
        }
        left := left - {r};
      }
    }

    /**
     The claim transaction: nothing unless the advisory lock was granted; with it every claimable
     row of the group is taken and none is left, no other row moves, every link stays and so does
     the agreement with the transactions.
     */
    method ClaimTarget(target: Group, lockGranted: bool, now: Millis) returns (ids: set<RowId>)
      modifies db
      ensures !lockGranted ==> ids == {} && db.Contents() == old(db.Contents())
      ensures lockGranted ==> ids == ClaimIds(old(db.Contents()), target) &&
                              db.Contents() == Apply(old(db.Contents()), Claim(target), now)
      ensures lockGranted ==> forall r :: r in ids <==>
        r in old(db.rows) && old(db.rows)[r].group == target && old(db.rows)[r].status in {Pending, DeferredDust}
      ensures lockGranted ==> forall r :: r in db.rows && db.rows[r].group == target ==> !Claimable(db.rows[r])
      ensures forall r :: r in db.rows ==>
        db.rows[r] == if r in ids then old(db.rows)[r].(status := Processing, updatedAt := now) else old(db.rows)[r]
      ensures SameLinks(old(db.Contents()), db.Contents())
      ensures Lockstep(old(db.Contents())) ==> Lockstep(db.Contents())
    {
      ids := {};
      if !lockGranted {
        return;
      }
      ids := set r | r in db.rows && db.rows[r].group == target && Claimable(db.rows[r]);
      ghost var t := db.Contents();
      StatusOnlyKeepsLinks(t, Claim(target), now);
      if Lockstep(t) {
        WriteKeepsLockstepIff(t, Claim(target), now);
      }
      db.Execute(Claim(target), now);
    }

    /**
     The batch takes the status and a new timestamp; every link, every other row and every other
     table is as it was.  Agreement with the transactions survives exactly when no row of the
     batch was broadcast, confirmed or, unless for RECONCILIATION, dropped.
     */
    method MarkReconciled(ids: set<RowId>, status: Status, now: Millis)
      requires status in {Pending, DeferredDust, Reconciliation, ZeroBalance}
      modifies db
      ensures db.Contents() == Apply(old(db.Contents()), Mark(ids, status), now)
      ensures SameLinks(old(db.Contents()), db.Contents())
      ensures forall r :: r in db.rows ==>
        db.rows[r] == if r in ids then old(db.rows)[r].(status := status, updatedAt := now) else old(db.rows)[r]
      ensures Lockstep(old(db.Contents())) ==>
        (Lockstep(db.Contents()) <==> forall r :: r in ids && r in old(db.rows) ==>
          && Unsettled(old(db.rows)[r])
          && (CarriesDropped(old(db.Contents()), old(db.rows)[r]) ==> status == Reconciliation))
    {
      ghost var t := db.Contents();
      StatusOnlyKeepsLinks(t, Mark(ids, status), now);
      if Lockstep(t) {
        WriteKeepsLockstepIff(t, Mark(ids, status), now);
      }
      db.Execute(Mark(ids, status), now);
    }

    /**
     The catch block of a failed provider call.  Only the batch moves.  It goes back to the queue
     exactly after a dust or an unclassified error, to manual resolution exactly when the balance
     is unexplained or the intent needs review, and to a recorded settlement exactly when a sweep
     explains the balance, the one case in which a row takes a new hash.
     */
    method RouteFailure(call: Call, now: Millis)
      requires call.phase.Thrown?
      modifies db
      ensures db.Contents() == Apply(old(db.Contents()), RoutingWrite(call), now)
      ensures RoutedApart(old(db.Contents()), db.Contents(), call.ids)
      ensures forall r :: r in call.ids && r in db.rows ==> Routed(old(db.rows)[r], db.rows[r], call.phase.outcome, now)
      ensures Lockstep(old(db.Contents())) ==>
        (Lockstep(db.Contents()) <==> forall r :: r in call.ids && r in old(db.rows) ==>
          RouteKeepsAgreement(old(db.Contents()), old(db.rows)[r], call.phase.outcome))
    {
      hide Apply, Lockstep, Routed, RoutedApart, RouteKeepsAgreement;
      var outcome := call.phase.outcome;
      RoutingMovesTheBatch(db.Contents(), call, now);
      RoutingKeepsLockstepIff(db.Contents(), call, now);
      if outcome.SettledBy? {
        db.Execute(Settle(call.ids, outcome.hash), now);
      } else if outcome.ZeroUnexplained? || outcome.ReviewRequired? {
        MarkReconciled(call.ids, Reconciliation, now);
      } else if outcome.Dust? {
        MarkReconciled(call.ids, DeferredDust, now);
      } else if outcome.LegacyZero? {
        MarkReconciled(call.ids, ZeroBalance, now);
      } else {
        MarkReconciled(call.ids, Pending, now);
      }
    }
  }

  /** Nothing but the rows of the batch differs. */
  ghost predicate RoutedApart(t: Tables, u: Tables, ids: set<RowId>) {
    && u.rows.Keys == t.rows.Keys && u.intents == t.intents && u.txs == t.txs && u.nonces == t.nonces
    && forall r :: r in t.rows && r !in ids ==> u.rows[r] == t.rows[r]
  }

  /** What becomes of a row of the batch, by kind of outcome. */
  predicate Routed(row: Row, after: Row, outcome: Outcome, now: Millis) {
    && after.group == row.group && after.intent == row.intent && after.updatedAt == now
    && (Claimable(after) <==> outcome.Dust? || outcome.OtherError?)
    && (after.status == DeferredDust <==> outcome.Dust?)
    && (after.status == Reconciliation <==> outcome.ZeroUnexplained? || outcome.ReviewRequired?)
    && (after.status == ZeroBalance <==> outcome.LegacyZero?)
    && (after.status == Confirmed <==> outcome.SettledBy?)
    && (if outcome.SettledBy? then after.txid == Some(outcome.hash) else after.txid == row.txid)
  }

  /** When routing leaves a row in agreement with its transaction. */
  predicate RouteKeepsAgreement(t: Tables, row: Row, outcome: Outcome) {
    if outcome.SettledBy? then TxStatus(t.txs, Some(outcome.hash)) == Some(Confirmed)
    else Unsettled(row) && (CarriesDropped(t, row) ==> outcome.ZeroUnexplained? || outcome.ReviewRequired?)
  }

  lemma RoutingTouchesRowsOnly(t: Tables, call: Call, now: Millis)
    requires call.phase.Thrown?
    ensures var u := Apply(t, RoutingWrite(call), now);
      u.rows.Keys == t.rows.Keys && u.intents == t.intents && u.txs == t.txs && u.nonces == t.nonces
  {
    var w := RoutingWrite(call);
    assert w.Mark? || w.Settle?;
    assert UpdatedIntents(t, w) == t.intents && UpdatedTxs(t, w, now) == t.txs;
  }

  lemma RoutingMovesTheRow(t: Tables, call: Call, now: Millis, r: RowId)
    requires call.phase.Thrown? && r in t.rows
    ensures var row := RowUpdate(t, RoutingWrite(call), r, t.rows[r], now);
      if r in call.ids then Routed(t.rows[r], row, call.phase.outcome, now) else row == t.rows[r]
  {
  }

  lemma RoutingMovesTheBatch(t: Tables, call: Call, now: Millis)
    requires call.phase.Thrown?
    ensures var u := Apply(t, RoutingWrite(call), now);
      && RoutedApart(t, u, call.ids)
      && forall r :: r in call.ids && r in u.rows ==> Routed(t.rows[r], u.rows[r], call.phase.outcome, now)
  {
    hide Apply, Routed, RowUpdate, RoutingWrite;
    RoutingTouchesRowsOnly(t, call, now);
    forall r | r in t.rows
      ensures r in Apply(t, RoutingWrite(call), now).rows
      ensures var row := Apply(t, RoutingWrite(call), now).rows[r];
        if r in call.ids then Routed(t.rows[r], row, call.phase.outcome, now) else row == t.rows[r]
    {
      RoutingIsReady(t, call);
      RowAt(t, RoutingWrite(call), now, r);
      RoutingMovesTheRow(t, call, now, r);
    }
  }

  lemma RoutingIsReady(t: Tables, call: Call)
    requires call.phase.Thrown?
    ensures Ready(t, RoutingWrite(call))
  {
  }

  /** Routing keeps the tables in agreement exactly when it does so for every row of the batch. */
  lemma RoutingKeepsLockstepIff(t: Tables, call: Call, now: Millis)
    requires call.phase.Thrown?
    ensures Lockstep(t) ==>
      (Lockstep(Apply(t, RoutingWrite(call), now))
       <==> forall r :: r in call.ids && r in t.rows ==> RouteKeepsAgreement(t, t.rows[r], call.phase.outcome))
  {
    hide Apply, Lockstep;
    if Lockstep(t) {
      WriteKeepsLockstepIff(t, RoutingWrite(call), now);
    }
  }

  /** However many of the three updates commit, each row is untouched or fully recovered. */
  lemma RecoveryStagesFit(t: Tables, cut: seq<Millis>, clock: seq<Millis>)
    requires |cut| == 3 && |clock| == 3
    ensures var t1 := Apply(t, RecoverUnreserved(cut[0]), clock[0]);
      var t2 := Apply(t1, RecoverReserved(cut[1]), clock[1]);
      var t3 := RecoveryPass(t, cut, clock);
      && StageFits(t, t, cut, clock) && StageFits(t, t1, cut, clock)
      && StageFits(t, t2, cut, clock) && StageFits(t, t3, cut, clock)
  {
    var t1 := Apply(t, RecoverUnreserved(cut[0]), clock[0]);
    var t2 := Apply(t1, RecoverReserved(cut[1]), clock[1]);
    assert t1.intents == t.intents && t2.intents == t.intents;
    forall r | r in t.rows
      ensures StageRow(t, t1, r, cut, clock) && StageRow(t, t2, r, cut, clock)
        && StageRow(t, RecoveryPass(t, cut, clock), r, cut, clock)
    {
      RowAt(t, RecoverUnreserved(cut[0]), clock[0], r);
      RowAt(t1, RecoverReserved(cut[1]), clock[1], r);
      RecoveryPassRow(t, cut, clock, r);
    }
    RecoveryPassKeepsLinks(t, cut, clock);
    assert t1.txs == t.txs && t2.txs == t.txs;
  }

  ghost predicate StageRow(t: Tables, u: Tables, r: RowId, cut: seq<Millis>, clock: seq<Millis>)
    requires |cut| == 3 && |clock| == 3 && r in t.rows
  {
    r in u.rows && (u.rows[r] == t.rows[r] || u.rows[r] == Recovered(t, t.rows[r], cut, clock))
  }

  ghost predicate StageFits(t: Tables, u: Tables, cut: seq<Millis>, clock: seq<Millis>)
    requires |cut| == 3 && |clock| == 3
  {
    && u.intents == t.intents && u.txs == t.txs && u.nonces == t.nonces
    && forall r :: r in t.rows ==> StageRow(t, u, r, cut, clock)
  }

  // ------------------------------------------------------ SweepStatusWorker

  /** What the chain says of a sweep; a hash without a report is one whose check failed. */
  datatype Report =
    | ReportedConfirmed(blockNumber: Option<int>, blockHash: Option<int>)
    | ReportedFailed
    | ReportedBroadcast

  datatype Presence = Presence(present: bool, mined: bool)

  /** The verdict of the broadcast pass on a selected transaction, if it records one. */
  function BroadcastVerdict(tx: Tx, h: Hash, reports: map<Hash, Report>, probes: map<Hash, Presence>,
                            staleMinutes: int, now: Millis): Option<Verdict>
  {
    if h !in reports then None
    else match reports[h]
      case ReportedConfirmed(n, b) => Some(Mined(n, b))
      case ReportedFailed => Some(Reverted)
      case ReportedBroadcast =>
        if staleMinutes > 0 && now - tx.updatedAt > staleMinutes * MINUTE &&
           h in probes && !probes[h].present && !probes[h].mined
        then Some(Dropped) else None
  }

  /** The verdict of the reorg pass on a recently confirmed transaction, if it records one. */
  function ReorgVerdict(tx: Tx, h: Hash, reports: map<Hash, Report>): Option<Verdict> {
    if h !in reports then None
    else match reports[h]
      case ReportedBroadcast => Some(Visible)
      case ReportedFailed => Some(Reverted)
      case ReportedConfirmed(n, b) =>
        if b.Some? && b != tx.blockHash then Some(Remined(n, b)) else None
  }

  /** The verdicts a broadcast pass records on the transactions it selected. */
  function BroadcastVerdicts(txs: map<Hash, Tx>, picked: seq<Hash>, reports: map<Hash, Report>,
                             probes: map<Hash, Presence>, staleMinutes: int, now: Millis): map<Hash, Verdict>
  {
    map h | h in txs && h in picked && BroadcastVerdict(txs[h], h, reports, probes, staleMinutes, now).Some?
      :: BroadcastVerdict(txs[h], h, reports, probes, staleMinutes, now).value
  }

  /** The verdicts a reorg pass records on the transactions it selected. */
  function ReorgVerdicts(txs: map<Hash, Tx>, picked: seq<Hash>, reports: map<Hash, Report>): map<Hash, Verdict> {
    map h | h in txs && h in picked && ReorgVerdict(txs[h], h, reports).Some? :: ReorgVerdict(txs[h], h, reports).value
  }

  /** All verdicts recorded at once: every row and intent follows the verdict on the hash it carries. */
  function ResolveAll(t: Tables, verdicts: map<Hash, Verdict>, now: Millis): Tables {
    Tables(
      map r | r in t.rows ::
        if t.rows[r].txid.Some? && t.rows[r].txid.value in verdicts
        then RowAfter(t.rows[r], verdicts[t.rows[r].txid.value], StatusWorker, now) else t.rows[r],
      map i | i in t.intents ::
        if t.intents[i].txid.Some? && t.intents[i].txid.value in verdicts
        then IntentAfter(t.intents[i], verdicts[t.intents[i].txid.value]) else t.intents[i],
      map h | h in t.txs ::
        if h in verdicts then TxAfter(t.txs[h], verdicts[h], StatusWorker, now) else t.txs[h],
      t.nonces)
  }

  lemma ResolveOneMoreRow(t: Tables, verdicts: map<Hash, Verdict>, h: Hash, v: Verdict, now: Millis, r: RowId)
    requires h !in verdicts && r in t.rows
    ensures var u := ResolveAll(t, verdicts, now);
      RowUpdate(u, Resolve(h, v, StatusWorker), r, u.rows[r], now)
         == ResolveAll(t, verdicts[h := v], now).rows[r]
  {
  }

  lemma ResolveOneMoreIntent(t: Tables, verdicts: map<Hash, Verdict>, h: Hash, v: Verdict, now: Millis, i: IntentId)
    requires h !in verdicts && i in t.intents
    ensures var u := ResolveAll(t, verdicts, now);
      IntentUpdate(u, Resolve(h, v, StatusWorker), i, u.intents[i])
         == ResolveAll(t, verdicts[h := v], now).intents[i]
  {
  }

  lemma ResolveOneMoreTx(t: Tables, verdicts: map<Hash, Verdict>, h: Hash, v: Verdict, now: Millis, k: Hash)
    requires h !in verdicts && k in t.txs
    ensures TxUpdate(Resolve(h, v, StatusWorker), k, ResolveAll(t, verdicts, now).txs[k], now)
         == ResolveAll(t, verdicts[h := v], now).txs[k]
  {
  }

  lemma ResolveOneMoreRows(t: Tables, verdicts: map<Hash, Verdict>, h: Hash, v: Verdict, now: Millis)
    requires h !in verdicts
    ensures UpdatedRows(ResolveAll(t, verdicts, now), Resolve(h, v, StatusWorker), now)
      == ResolveAll(t, verdicts[h := v], now).rows
  {
    var u := UpdatedRows(ResolveAll(t, verdicts, now), Resolve(h, v, StatusWorker), now);
    forall r | r in t.rows ensures r in u && u[r] == ResolveAll(t, verdicts[h := v], now).rows[r] {
      ResolveOneMoreRow(t, verdicts, h, v, now, r);
    }
  }

  lemma ResolveOneMoreIntents(t: Tables, verdicts: map<Hash, Verdict>, h: Hash, v: Verdict, now: Millis)
    requires h !in verdicts
    ensures UpdatedIntents(ResolveAll(t, verdicts, now), Resolve(h, v, StatusWorker))
      == ResolveAll(t, verdicts[h := v], now).intents
  {
    var u := UpdatedIntents(ResolveAll(t, verdicts, now), Resolve(h, v, StatusWorker));
    forall i | i in t.intents ensures i in u && u[i] == ResolveAll(t, verdicts[h := v], now).intents[i] {
      ResolveOneMoreIntent(t, verdicts, h, v, now, i);
    }
  }

  lemma ResolveOneMoreTxs(t: Tables, verdicts: map<Hash, Verdict>, h: Hash, v: Verdict, now: Millis)
    requires h !in verdicts
    ensures UpdatedTxs(ResolveAll(t, verdicts, now), Resolve(h, v, StatusWorker), now)
      == ResolveAll(t, verdicts[h := v], now).txs
  {
    var u := UpdatedTxs(ResolveAll(t, verdicts, now), Resolve(h, v, StatusWorker), now);
    forall k | k in t.txs ensures k in u && u[k] == ResolveAll(t, verdicts[h := v], now).txs[k] {
      ResolveOneMoreTx(t, verdicts, h, v, now, k);
    }
  }

  /** One more transaction after the others is one more verdict among them. */
  lemma ResolveOneMore(t: Tables, verdicts: map<Hash, Verdict>, h: Hash, v: Verdict, now: Millis)
    requires h !in verdicts
    ensures Apply(ResolveAll(t, verdicts, now), Resolve(h, v, StatusWorker), now)
      == ResolveAll(t, verdicts[h := v], now)
  {
    ResolveOneMoreRows(t, verdicts, h, v, now);
    ResolveOneMoreIntents(t, verdicts, h, v, now);
    ResolveOneMoreTxs(t, verdicts, h, v, now);
  }

  lemma ResolveNone(t: Tables, now: Millis)
    ensures ResolveAll(t, map[], now) == t
  {
    var u := ResolveAll(t, map[], now);
    assert u.rows == t.rows && u.intents == t.intents && u.txs == t.txs;
  }

  /** A whole pass keeps the three tables in lockstep. */
  lemma {:induction false} ResolveAllKeepsLockstep(t: Tables, verdicts: map<Hash, Verdict>, now: Millis)
    requires Lockstep(t) && verdicts.Keys <= t.txs.Keys
    ensures Lockstep(ResolveAll(t, verdicts, now))
    decreases |verdicts|
  {
    if verdicts == map[] {
      ResolveNone(t, now);
    } else {
      var h :| h in verdicts;
      var rest := verdicts - {h};
      assert rest[h := verdicts[h]] == verdicts;
      assert |rest| < |verdicts|;
      ResolveAllKeepsLockstep(t, rest, now);
      ResolveOneMore(t, rest, h, verdicts[h], now);
      WriteKeepsLockstepIff(ResolveAll(t, rest, now), Resolve(h, verdicts[h], StatusWorker), now);
    }
  }

  /** At most `limit` BROADCAST transactions, and a BROADCAST one is left out only for as many that are no younger. */
  ghost predicate OldestBroadcasts(txs: map<Hash, Tx>, picked: seq<Hash>, limit: nat) {
    && |picked| <= limit
    && (forall h :: h in picked ==> h in txs && txs[h].status == Broadcast)
    && (forall h :: h in txs && txs[h].status == Broadcast && h !in picked ==>
          |picked| == limit && forall k :: k in picked ==> txs[k].updatedAt <= txs[h].updatedAt)
  }

  // ------------------------------- a pass among the commits of other workers

  /** What other workers commit before a pass's transaction number `k`. */
  function Before(others: seq<seq<Timed>>, k: nat): seq<Timed> {
    if k < |others| then others[k] else []
  }

  predicate Undisturbed(others: seq<seq<Timed>>) {
    forall k :: 0 <= k < |others| ==> |others[k]| == 0
  }

  /** The transaction that records the verdict on a sweep, if there is one. */
  function Own(h: Hash, verdicts: map<Hash, Verdict>, now: Millis): seq<Timed> {
    if h in verdicts then [Timed(Resolve(h, verdicts[h], StatusWorker), now)] else []
  }

  /** The commits of a pass over `picked`, each preceded by what the others commit meanwhile. */
  function Woven(picked: seq<Hash>, verdicts: map<Hash, Verdict>, others: seq<seq<Timed>>, now: Millis): seq<Timed> {
    if |picked| == 0 then []
    else
      var n := |picked| - 1;
      Woven(picked[..n], verdicts, others, now) + Before(others, n) + Own(picked[n], verdicts, now)
  }

  lemma WovenNext(t: Tables, picked: seq<Hash>, k: nat, verdicts: map<Hash, Verdict>, others: seq<seq<Timed>>,
                  now: Millis)
    requires k < |picked|
    ensures var u := Replay(Replay(t, Woven(picked[..k], verdicts, others, now)), Before(others, k));
      Replay(t, Woven(picked[..k + 1], verdicts, others, now)) ==
        if picked[k] in verdicts then Apply(u, Resolve(picked[k], verdicts[picked[k]], StatusWorker), now) else u
  {
    hide Apply;
    var before := Woven(picked[..k], verdicts, others, now);
    assert picked[..k + 1][..k] == picked[..k];
    ReplayConcat(t, before, Before(others, k));
    ReplayConcat(t, before + Before(others, k), Own(picked[k], verdicts, now));
  }

  /**
   Among any commits of others the tables agree throughout a pass if and only if each of those
   commits met its guard: the pass's own transactions never part a row from its sweep.
   */
  lemma PassKeepsLockstepIff(t: Tables, picked: seq<Hash>, verdicts: map<Hash, Verdict>,
                             others: seq<seq<Timed>>, now: Millis)
    requires Lockstep(t) && Possible(t, Woven(picked, verdicts, others, now))
    ensures var log := Woven(picked, verdicts, others, now);
      (forall k :: 0 <= k <= |log| ==> Lockstep(Replay(t, log[..k])))
      <==> (forall k :: 0 <= k < |log| && !log[k].write.Resolve? ==> Guard(Replay(t, log[..k]), log[k].write))
  {
    hide Woven, Replay, Lockstep, Ready;
    ReplayKeepsLockstepIff(t, Woven(picked, verdicts, others, now));
  }

  function Restricted(verdicts: map<Hash, Verdict>, picked: seq<Hash>): map<Hash, Verdict> {
    map h | h in verdicts && h in picked :: verdicts[h]
  }

  /** A pass that nobody disturbs ends in the tables of all its verdicts at once. */
  lemma {:induction false} UndisturbedPass(t: Tables, picked: seq<Hash>, verdicts: map<Hash, Verdict>,
                                           others: seq<seq<Timed>>, now: Millis)
    requires Undisturbed(others) && forall i, j :: 0 <= i < j < |picked| ==> picked[i] != picked[j]
    ensures Replay(t, Woven(picked, verdicts, others, now)) == ResolveAll(t, Restricted(verdicts, picked), now)
  {
    hide Apply, ResolveAll, Woven;
    if |picked| == 0 {
      NothingWoven(picked, verdicts, others, now);
      ResolveNone(t, now);
      assert Restricted(verdicts, picked) == map[];
    } else {
      var n := |picked| - 1;
      var h, rest := picked[n], Restricted(verdicts, picked[..n]);
      UndisturbedPass(t, picked[..n], verdicts, others, now);
      WovenNext(t, picked, n, verdicts, others, now);
      assert picked[..n + 1] == picked && picked == picked[..n] + [h];
      assert Restricted(verdicts, picked) == if h in verdicts then rest[h := verdicts[h]] else rest;
      if h in verdicts {
        ResolveOneMore(t, rest, h, verdicts[h], now);
      }
    }
  }

  lemma NothingReplayed(t: Tables, none: seq<Hash>, verdicts: map<Hash, Verdict>, others: seq<seq<Timed>>, now: Millis)
    requires |none| == 0
    ensures Replay(t, Woven(none, verdicts, others, now)) == t
  {
  }

  lemma NothingWoven(picked: seq<Hash>, verdicts: map<Hash, Verdict>, others: seq<seq<Timed>>, now: Millis)
    requires |picked| == 0
    ensures Woven(picked, verdicts, others, now) == []
  {
  }

  // ------------------------------------------- what a pass does, from the reports

  /** After `staleMinutes` without news, if that is not zero, a probe found it in neither mempool nor chain. */
  predicate GoneStale(tx: Tx, h: Hash, probes: map<Hash, Presence>, staleMinutes: int, now: Millis) {
    && staleMinutes > 0 && now > tx.updatedAt + staleMinutes * 60_000
    && h in probes && probes[h] == Presence(false, false)
  }

  /**
   A broadcast pass, sweep by sweep: what is reported confirmed is confirmed with its block, what is
   reported failed goes back to the queue, what stays broadcast is escalated exactly when it has gone
   stale, and what could not be checked is left alone, as is everything that was not picked.
   */
  ghost predicate BroadcastPassDid(t: Tables, u: Tables, picked: seq<Hash>, reports: map<Hash, Report>,
                                   probes: map<Hash, Presence>, staleMinutes: int, now: Millis)
  {
    && OnlyCarriersMove(t, u, set h | h in picked)
    && (forall h :: h in picked ==> h in t.txs)
    && (forall h :: h in picked && h !in reports ==> Untouched(t, u, h))
    && (forall h :: h in picked && h in reports && reports[h].ReportedConfirmed? ==>
          Confirms(t, u, h, reports[h].blockNumber, reports[h].blockHash, now, Some(now)))
    && (forall h :: h in picked && h in reports && reports[h] == ReportedFailed ==> Fails(t, u, h, Some(now)))
    && (forall h :: h in picked && h in reports && reports[h] == ReportedBroadcast ==>
          if GoneStale(t.txs[h], h, probes, staleMinutes, now) then Drops(t, u, h, Some(now)) else Untouched(t, u, h))
  }

  /**
   A reorg pass, sweep by sweep: what is no longer confirmed is broadcast again, what is reported
   failed goes back to the queue, and what was mined in another known block is recorded there.
   */
  ghost predicate ReorgPassDid(t: Tables, u: Tables, picked: seq<Hash>, reports: map<Hash, Report>, now: Millis) {
    && OnlyCarriersMove(t, u, set h | h in picked)
    && (forall h :: h in picked ==> h in t.txs)
    && (forall h :: h in picked && h !in reports ==> Untouched(t, u, h))
    && (forall h :: h in picked && h in reports && reports[h] == ReportedBroadcast ==> Reopens(t, u, h, Some(now)))
    && (forall h :: h in picked && h in reports && reports[h] == ReportedFailed ==> Fails(t, u, h, Some(now)))
    && (forall h :: h in picked && h in reports && reports[h].ReportedConfirmed? ==>
          if reports[h].blockHash == None || reports[h].blockHash == t.txs[h].blockHash then Untouched(t, u, h)
          else Reblocks(t, u, h, reports[h].blockNumber, reports[h].blockHash, now))
  }

  lemma ResolveAllRecords(t: Tables, verdicts: map<Hash, Verdict>, now: Millis, h: Hash)
    requires h in t.txs
    ensures h in verdicts ==> Records(t, ResolveAll(t, verdicts, now), h, verdicts[h], now, Some(now))
    ensures h !in verdicts ==> Untouched(t, ResolveAll(t, verdicts, now), h)
  {
  }

  lemma ResolveAllMovesCarriers(t: Tables, verdicts: map<Hash, Verdict>, now: Millis, picked: seq<Hash>)
    requires forall h :: h in verdicts ==> h in picked
    ensures OnlyCarriersMove(t, ResolveAll(t, verdicts, now), set h | h in picked)
  {
  }

  lemma BroadcastPassOutcome(t: Tables, picked: seq<Hash>, reports: map<Hash, Report>, probes: map<Hash, Presence>,
                             staleMinutes: int, now: Millis)
    requires forall h :: h in picked ==> h in t.txs
    ensures var verdicts := BroadcastVerdicts(t.txs, picked, reports, probes, staleMinutes, now);
      BroadcastPassDid(t, ResolveAll(t, verdicts, now), picked, reports, probes, staleMinutes, now)
  {
    hide ResolveAll, OnlyCarriersMove, Untouched, Confirms, Fails, Drops, Reopens, Reblocks;
    var verdicts := BroadcastVerdicts(t.txs, picked, reports, probes, staleMinutes, now);
    ResolveAllMovesCarriers(t, verdicts, now, picked);
    forall h | h in picked
      ensures h in verdicts ==> Records(t, ResolveAll(t, verdicts, now), h, verdicts[h], now, Some(now))
      ensures h !in verdicts ==> Untouched(t, ResolveAll(t, verdicts, now), h)
    {
      ResolveAllRecords(t, verdicts, now, h);
    }
  }

  lemma ReorgPassOutcome(t: Tables, picked: seq<Hash>, reports: map<Hash, Report>, now: Millis)
    requires forall h :: h in picked ==> h in t.txs
    ensures ReorgPassDid(t, ResolveAll(t, ReorgVerdicts(t.txs, picked, reports), now), picked, reports, now)
  {
    hide ResolveAll, OnlyCarriersMove, Untouched, Confirms, Fails, Drops, Reopens, Reblocks;
    var verdicts := ReorgVerdicts(t.txs, picked, reports);
    ResolveAllMovesCarriers(t, verdicts, now, picked);
    forall h | h in picked
      ensures h in verdicts ==> Records(t, ResolveAll(t, verdicts, now), h, verdicts[h], now, Some(now))
      ensures h !in verdicts ==> Untouched(t, ResolveAll(t, verdicts, now), h)
    {
      ResolveAllRecords(t, verdicts, now, h);
    }
  }

  class SweepStatusWorker {
    const db: SweepDatabase

    constructor (db: SweepDatabase)
      ensures this.db == db
    {
      this.db := db;
    }

    /** ORDER BY updated_at ASC LIMIT `limit` over the BROADCAST transactions. */
    method SelectBroadcast(limit: nat) returns (picked: seq<Hash>)
      ensures forall i, j :: 0 <= i < j < |picked| ==>
        && picked[i] != picked[j] && picked[i] in db.txs && picked[j] in db.txs
        && db.txs[picked[i]].updatedAt <= db.txs[picked[j]].updatedAt
      ensures OldestBroadcasts(db.txs, picked, limit)
    {
      var left := set h | h in db.txs && db.txs[h].status == Broadcast;
      picked := [];
      while left != {} && |picked| < limit
        invariant |picked| <= limit
        invariant forall h :: h in left ==> h in db.txs && db.txs[h].status == Broadcast && h !in picked
        invariant forall h :: h in db.txs && db.txs[h].status == Broadcast ==> h in left || h in picked
        invariant forall i :: 0 <= i < |picked| ==> picked[i] in db.txs && db.txs[picked[i]].status == Broadcast
        invariant forall i, j :: 0 <= i < j < |picked| ==>
          picked[i] != picked[j] && db.txs[picked[i]].updatedAt <= db.txs[picked[j]].updatedAt
        invariant forall i, h :: 0 <= i < |picked| && h in left ==> db.txs[picked[i]].updatedAt <= db.txs[h].updatedAt
        decreases left
      {
        var oldest := Oldest(left);
        picked := picked + [oldest];
        left := left - {oldest};
      }
    }

    method Oldest(hashes: set<Hash>) returns (oldest: Hash)
      requires hashes != {} && hashes <= db.txs.Keys
      ensures oldest in hashes
      ensures forall h :: h in hashes ==> db.txs[oldest].updatedAt <= db.txs[h].updatedAt
    {
      oldest :| oldest in hashes;
      var left := hashes - {oldest};
      while left != {}
        invariant oldest in hashes && left <= hashes
        invariant forall h :: h in hashes - left ==> db.txs[oldest].updatedAt <= db.txs[h].updatedAt
        decreases left
      {
        var h :| h in left;
        if db.txs[h].updatedAt < db.txs[oldest].updatedAt {
          oldest := h;
        }
        left := left - {h};
      }
    }

    /**
     One broadcast pass.  The loop settles the selected transactions one by one, each in its own
     database transaction, by what was read of it when the batch was selected, whatever other
     workers commit in between.  Undisturbed it ends in the tables of all verdicts at once, so
     their order is immaterial.
     */
    method ProcessBroadcastSweeps(reports: map<Hash, Report>, probes: map<Hash, Presence>, staleMinutes: int,
                                  now: Millis, others: seq<seq<Timed>>)
      returns (picked: seq<Hash>)
      modifies db
      ensures OldestBroadcasts(old(db.txs), picked, 50)
      ensures var verdicts := BroadcastVerdicts(old(db.txs), picked, reports, probes, staleMinutes, now);
        && db.Contents() == Replay(old(db.Contents()), Woven(picked, verdicts, others, now))
        && (Undisturbed(others) ==> db.Contents() == ResolveAll(old(db.Contents()), verdicts, now))
      ensures Undisturbed(others) ==>
        BroadcastPassDid(old(db.Contents()), db.Contents(), picked, reports, probes, staleMinutes, now)
      ensures Undisturbed(others) && Lockstep(old(db.Contents())) ==> Lockstep(db.Contents())
    {
      hide Apply, Replay, Woven, ResolveAll, BroadcastVerdict, BroadcastPassDid, Lockstep;
      ghost var t := db.Contents();
      var fetched := db.txs;
      picked := SelectBroadcast(BROADCAST_BATCH);
      ghost var verdicts := BroadcastVerdicts(fetched, picked, reports, probes, staleMinutes, now);
      NothingReplayed(t, picked[..0], verdicts, others, now);
      for k := 0 to |picked|
        invariant db.Contents() == Replay(t, Woven(picked[..k], verdicts, others, now))
      {
        var h := picked[k];
        var verdict := BroadcastVerdict(fetched[h], h, reports, probes, staleMinutes, now);
        WovenNext(t, picked, k, verdicts, others, now);
        db.ExecuteAll(Before(others, k));
        if verdict.Some? {
          db.Execute(Resolve(h, verdict.value, StatusWorker), now);
        }
      }
      assert picked[..|picked|] == picked;
      if Undisturbed(others) {
        UndisturbedPass(t, picked, verdicts, others, now);
        assert Restricted(verdicts, picked) == verdicts;
        BroadcastPassOutcome(t, picked, reports, probes, staleMinutes, now);
        if Lockstep(t) {
          ResolveAllKeepsLockstep(t, verdicts, now);
        }
      }
    }

    /** Confirmed within the last hour, at most `limit`, in no particular order. */
    method SelectRecentlyConfirmed(limit: nat, now: Millis) returns (picked: seq<Hash>)
      ensures |picked| <= limit
      ensures forall i :: 0 <= i < |picked| ==> picked[i] in db.txs && RecentlyConfirmed(db.txs[picked[i]], now)
      ensures forall i, j :: 0 <= i < j < |picked| ==> picked[i] != picked[j]
      ensures |picked| < limit ==> forall h :: h in db.txs && RecentlyConfirmed(db.txs[h], now) ==> h in picked
      ensures forall i :: 0 <= i < |picked| ==> db.txs[picked[i]].status == Confirmed
      ensures forall i :: 0 <= i < |picked| ==>
        db.txs[picked[i]].confirmedAt.Some? && now - db.txs[picked[i]].confirmedAt.value <= 3_600_000
      ensures |picked| < limit ==> forall h ::
        (&& h in db.txs && db.txs[h].status == Confirmed && db.txs[h].confirmedAt.Some?
         && now - db.txs[h].confirmedAt.value <= 3_600_000) ==> h in picked
    {
      var left := set h | h in db.txs && RecentlyConfirmed(db.txs[h], now);
      picked := [];
      while left != {} && |picked| < limit
        invariant |picked| <= limit
        invariant forall h :: h in left ==> h in db.txs && RecentlyConfirmed(db.txs[h], now) && h !in picked
        invariant forall h :: h in db.txs && RecentlyConfirmed(db.txs[h], now) ==> h in left || h in picked
        invariant forall i :: 0 <= i < |picked| ==> picked[i] in db.txs && RecentlyConfirmed(db.txs[picked[i]], now)
        invariant forall i, j :: 0 <= i < j < |picked| ==> picked[i] != picked[j]
        decreases left
      {
        var h :| h in left;
        picked := picked + [h];
        left := left - {h};
      }
    }

    /** One reorg pass over recently confirmed sweeps, among the commits of other workers too. */
    method VerifyConfirmedSweepsReorg(reports: map<Hash, Report>, now: Millis, others: seq<seq<Timed>>)
      returns (picked: seq<Hash>)
      modifies db
      ensures |picked| <= 20
      ensures forall h :: h in picked ==> h in old(db.txs) && RecentlyConfirmed(old(db.txs)[h], now)
      ensures |picked| < 20 ==> forall h :: h in old(db.txs) && RecentlyConfirmed(old(db.txs)[h], now) ==> h in picked
      ensures var verdicts := ReorgVerdicts(old(db.txs), picked, reports);
        && db.Contents() == Replay(old(db.Contents()), Woven(picked, verdicts, others, now))
        && (Undisturbed(others) ==> db.Contents() == ResolveAll(old(db.Contents()), verdicts, now))
      ensures Undisturbed(others) ==> ReorgPassDid(old(db.Contents()), db.Contents(), picked, reports, now)
      ensures Undisturbed(others) && Lockstep(old(db.Contents())) ==> Lockstep(db.Contents())
    {
      hide Apply, Replay, Woven, ResolveAll, ReorgVerdict, ReorgPassDid, Lockstep;
      ghost var t := db.Contents();
      var fetched := db.txs;
      picked := SelectRecentlyConfirmed(REORG_BATCH, now);
      ghost var verdicts := ReorgVerdicts(fetched, picked, reports);
      NothingReplayed(t, picked[..0], verdicts, others, now);
      for k := 0 to |picked|
        invariant db.Contents() == Replay(t, Woven(picked[..k], verdicts, others, now))
      {
        var h := picked[k];
        var verdict := ReorgVerdict(fetched[h], h, reports);
        WovenNext(t, picked, k, verdicts, others, now);
        db.ExecuteAll(Before(others, k));
        if verdict.Some? {
          db.Execute(Resolve(h, verdict.value, StatusWorker), now);
        }
      }
      assert picked[..|picked|] == picked;
      if Undisturbed(others) {
        UndisturbedPass(t, picked, verdicts, others, now);
        assert Restricted(verdicts, picked) == verdicts;
        ReorgPassOutcome(t, picked, reports, now);
        if Lockstep(t) {
          ResolveAllKeepsLockstep(t, verdicts, now);
        }
      }
    }
  }

  predicate RecentlyConfirmed(tx: Tx, now: Millis) {
    tx.status == Confirmed && tx.confirmedAt.Some? && tx.confirmedAt.value >= now - HOUR
  }
}

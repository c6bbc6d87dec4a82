/**
 What holds over every run of the sweep protocol, and exactly when: the protocol invariant, the
 links of rows to the intents that reserved their nonces, and sweeps dropped from the network.
 */
module SweepSafety {
  import opened Options
  import opened SweepTables
  import opened SweepLockstep
  import opened SweepProtocol
  import opened SweepInvariant
  import opened SweepGroups
  import opened SweepNonces

  /** Over every disciplined run, whatever crashes and interleaves: the invariant holds in every state. */
  lemma {:induction false} DisciplinedRunKeepsInv(states: seq<State>, log: seq<Stamped>, n: nat)
    requires DisciplinedTrace(states, log) && Inv(states[0]) && n < |states|
    ensures Inv(states[n])
  {
    if n > 0 {
      DisciplinedRunKeepsInv(states, log, n - 1);
      assert Next(states[n - 1], log[n - 1].action, log[n - 1].now, states[n - 1 + 1]);
      StepKeepsInv(states[n - 1], log[n - 1].action, log[n - 1].now);
    }
  }

  /** Over every run: the invariant holds throughout if and only if every step was disciplined. */
  lemma RunKeepsInvIff(states: seq<State>, log: seq<Stamped>)
    requires Trace(states, log) && Inv(states[0])
    ensures (forall k :: 0 <= k < |states| ==> Inv(states[k]))
       <==> (forall k :: 0 <= k < |log| ==> Disciplined(states[k], log[k].action))
  {
    hide Inv, Disciplined, Enabled, Do;
    if forall k :: 0 <= k < |states| ==> Inv(states[k]) {
      forall k | 0 <= k < |log| ensures Disciplined(states[k], log[k].action) {
        assert Next(states[k], log[k].action, log[k].now, states[k + 1]);
        StepKeepsInvIff(states[k], log[k].action, log[k].now);
      }
    }
    if forall k :: 0 <= k < |log| ==> Disciplined(states[k], log[k].action) {
      forall n | 0 <= n < |states| ensures Inv(states[n]) {
        DisciplinedRunKeepsInv(states, log, n);
      }
    }
  }

  lemma InitialInv()
    ensures Inv(INITIAL)
  {
  }

  // ------------------------------------------------------------------ nonces

  /** The discipline includes the check of `NonceNeverSharedIff`: the intent a call signs for is still open. */
  lemma DisciplineSignsFresh(s: State, a: Action)
    requires Inv(s)
    ensures SignsFresh(s, a)
  {
    if a.PersistArtifact? && a.call in s.calls {
      assert CallFits(s.t, s.calls[a.call]);
    }
  }

  /** Started from empty tables, a disciplined run never signs two sweeps with one nonce. */
  lemma NonceNeverShared(states: seq<State>, log: seq<Stamped>, n: nat)
    requires DisciplinedTrace(states, log) && states[0] == INITIAL && n < |states|
    ensures NoNonceShared(states[n].t) && OneOpenIntent(states[n].t) && Lockstep(states[n].t)
  {
    hide NoNonceShared, SignsFresh;
    InitialInv();
    DisciplinedRunKeepsInv(states, log, n);
    forall k | 0 <= k < |log| ensures SignsFresh(states[k], log[k].action) {
      DisciplinedRunKeepsInv(states, log, k);
      DisciplineSignsFresh(states[k], log[k].action);
    }
    NonceNeverSharedIff(states, log);
  }

  /** Recovery is queue mechanics only: intents, transactions, nonces and every row link survive it. */
  lemma RecoveryKeepsReservations(t: Tables, w: Write, now: Millis)
    requires w.RecoverUnreserved? || w.RecoverReserved? || w.RecoverArtifact?
    ensures SameLinks(t, Apply(t, w, now))
  {
    StatusOnlyKeepsLinks(t, w, now);
  }

  // ------------------------------------------------------- reserved rows

  predicate LinkedTo(t: Tables, r: RowId, i: IntentId) {
    r in t.rows && t.rows[r].intent == Some(i)
  }

  /** The write does not link the row to another intent: the clause that Reserve and Reuse lack. */
  predicate SparesLink(w: Write, r: RowId, i: IntentId) {
    (w.Reserve? || w.Reuse?) && r in w.ids ==> w.intent == i
  }

  /** A write keeps a row linked to its intent exactly when it does not relink it. */
  lemma WriteKeepsLinkIff(t: Tables, w: Write, now: Millis, r: RowId, i: IntentId)
    requires Ready(t, w) && LinkedTo(t, r, i)
    ensures LinkedTo(Apply(t, w, now), r, i) <==> SparesLink(w, r, i)
  {
    RowAt(t, w, now, r);
  }

  /** What an action commits spares the link; an action that commits nothing does. */
  predicate StepSparesLink(s: State, a: Action, r: RowId, i: IntentId) {
    WriteOf(s, a).Some? ==> SparesLink(WriteOf(s, a).value, r, i)
  }

  lemma StepKeepsLinkIff(s: State, a: Action, now: Millis, r: RowId, i: IntentId)
    requires Enabled(s, a) && LinkedTo(s.t, r, i)
    ensures LinkedTo(Do(s, a, now).t, r, i) <==> StepSparesLink(s, a, r, i)
  {
    hide Apply, SparesLink;
    if WriteOf(s, a).Some? {
      WriteIsReady(s, a);
      WriteKeepsLinkIff(s.t, WriteOf(s, a).value, now, r, i);
    }
  }

  lemma {:induction false} SparedLinkStays(states: seq<State>, log: seq<Stamped>, n: nat, r: RowId, i: IntentId)
    requires Trace(states, log) && LinkedTo(states[0].t, r, i) && n < |states|
    requires forall k :: 0 <= k < |log| ==> StepSparesLink(states[k], log[k].action, r, i)
    ensures LinkedTo(states[n].t, r, i)
  {
    hide LinkedTo, StepSparesLink, Enabled, Do;
    if n > 0 {
      SparedLinkStays(states, log, n - 1, r, i);
      assert Next(states[n - 1], log[n - 1].action, log[n - 1].now, states[n - 1 + 1]);
      StepKeepsLinkIff(states[n - 1], log[n - 1].action, log[n - 1].now, r, i);
    }
  }

  /** Over every run: a row stays linked to the intent that reserved its nonce if and only if no write relinks it. */
  lemma ReservationKeptIff(states: seq<State>, log: seq<Stamped>, r: RowId, i: IntentId)
    requires Trace(states, log) && LinkedTo(states[0].t, r, i)
    ensures (forall k :: 0 <= k < |states| ==> LinkedTo(states[k].t, r, i))
       <==> (forall k :: 0 <= k < |log| ==> StepSparesLink(states[k], log[k].action, r, i))
  {
    hide LinkedTo, StepSparesLink, Enabled, Do;
    if forall k :: 0 <= k < |states| ==> LinkedTo(states[k].t, r, i) {
      forall k | 0 <= k < |log| ensures StepSparesLink(states[k], log[k].action, r, i) {
        assert Next(states[k], log[k].action, log[k].now, states[k + 1]);
        StepKeepsLinkIff(states[k], log[k].action, log[k].now, r, i);
      }
    }
    if forall k :: 0 <= k < |log| ==> StepSparesLink(states[k], log[k].action, r, i) {
      forall n | 0 <= n < |states| ensures LinkedTo(states[n].t, r, i) {
        SparedLinkStays(states, log, n, r, i);
      }
    }
  }

  // ---------------------------------------------- all reservations at once

  /** A row linked to an intent that holds a reserved nonce and no artifact. */
  predicate OpenLink(t: Tables, r: RowId, i: IntentId) {
    LinkedTo(t, r, i) && i in t.intents && Open(t.intents[i])
  }

  /** A batch takes no row of another open intent: a condition on the tables before the write. */
  ghost predicate TakesFree(t: Tables, w: Write) {
    w.Reserve? || w.Reuse? ==>
      forall r :: r in w.ids && r in t.rows && LinkedToOpen(t.rows[r], t.intents) ==> t.rows[r].intent == Some(w.intent)
  }

  ghost predicate StepTakesFree(s: State, a: Action) {
    WriteOf(s, a).Some? ==> TakesFree(s.t, WriteOf(s, a).value)
  }

  /** Every row of an intent that is still open keeps it. */
  ghost predicate KeepsOpenLinks(t: Tables, u: Tables) {
    forall r, i :: OpenLink(t, r, i) && i in u.intents && Open(u.intents[i]) ==> LinkedTo(u, r, i)
  }

  lemma WriteKeepsOpenLinksIff(t: Tables, w: Write, now: Millis)
    requires Ready(t, w)
    ensures KeepsOpenLinks(t, Apply(t, w, now)) <==> TakesFree(t, w)
  {
    hide Apply;
    var u := Apply(t, w, now);
    forall r, i | OpenLink(t, r, i) ensures LinkedTo(u, r, i) <==> SparesLink(w, r, i) {
      WriteKeepsLinkIff(t, w, now, r, i);
    }
    if w.Reserve? || w.Reuse? {
      forall i | i in t.intents ensures i in u.intents && u.intents[i] == t.intents[i] {
        IntentAt(t, w, now, i);
      }
      if KeepsOpenLinks(t, u) {
        forall r | r in w.ids && r in t.rows && LinkedToOpen(t.rows[r], t.intents)
          ensures t.rows[r].intent == Some(w.intent)
        {
          assert OpenLink(t, r, t.rows[r].intent.value);
        }
      }
    }
  }

  lemma StepKeepsOpenLinksIff(s: State, a: Action, now: Millis)
    requires Enabled(s, a)
    ensures KeepsOpenLinks(s.t, Do(s, a, now).t) <==> StepTakesFree(s, a)
  {
    hide Apply, TakesFree, KeepsOpenLinks;
    if WriteOf(s, a).Some? {
      WriteIsReady(s, a);
      WriteKeepsOpenLinksIff(s.t, WriteOf(s, a).value, now);
    } else {
      NothingKeepsOpenLinks(s.t);
    }
  }

  lemma NothingKeepsOpenLinks(t: Tables)
    ensures KeepsOpenLinks(t, t)
  {
  }

  lemma {:induction false} FreeStepsKeepOpenLinks(states: seq<State>, log: seq<Stamped>, m: nat, n: nat)
    requires Trace(states, log) && m <= n < |states|
    requires forall k :: 0 <= k < |log| ==> StepTakesFree(states[k], log[k].action)
    ensures KeepsOpenLinks(states[m].t, states[n].t)
  {
    hide StepTakesFree, Enabled, Do, KeepsOpenLinks;
    if m == n {
      NothingKeepsOpenLinks(states[m].t);
    } else {
      var s, a, now := states[n - 1], log[n - 1].action, log[n - 1].now;
      FreeStepsKeepOpenLinks(states, log, m, n - 1);
      assert Next(s, a, now, states[n - 1 + 1]);
      StepKeepsOpenLinksIff(s, a, now);
      IntentsPersist(states, log, m, n - 1);
      StepKeepsIntents(s, a, now);
      KeepsOpenLinksJoins(states[m].t, s.t, states[n].t);
    }
  }

  /** Intents are never deleted, keep their nonce, and do not open again. */
  lemma StepKeepsIntent(s: State, a: Action, now: Millis, i: IntentId)
    requires Enabled(s, a) && i in s.t.intents
    ensures i in Do(s, a, now).t.intents
    ensures Do(s, a, now).t.intents[i].nonce == s.t.intents[i].nonce
    ensures Open(Do(s, a, now).t.intents[i]) ==> Open(s.t.intents[i])
  {
    if WriteOf(s, a).Some? {
      WriteIsReady(s, a);
      IntentAt(s.t, WriteOf(s, a).value, now, i);
    }
  }

  /** The intents of `t` are still there with their nonces, and none of them has opened since. */
  ghost predicate IntentsSince(t: Tables, u: Tables) {
    forall i :: i in t.intents ==>
      i in u.intents && u.intents[i].nonce == t.intents[i].nonce && (Open(u.intents[i]) ==> Open(t.intents[i]))
  }

  lemma KeepsOpenLinksJoins(t: Tables, u: Tables, v: Tables)
    requires KeepsOpenLinks(t, u) && KeepsOpenLinks(u, v) && IntentsSince(t, u) && IntentsSince(u, v)
    ensures KeepsOpenLinks(t, v)
  {
    forall r, i | OpenLink(t, r, i) && i in v.intents && Open(v.intents[i]) ensures LinkedTo(v, r, i) {
      assert OpenLink(u, r, i);
    }
  }

  lemma StepKeepsIntents(s: State, a: Action, now: Millis)
    requires Enabled(s, a)
    ensures IntentsSince(s.t, Do(s, a, now).t)
  {
    hide Enabled, Do;
    var u := Do(s, a, now).t;
    forall i | i in s.t.intents
      ensures i in u.intents && u.intents[i].nonce == s.t.intents[i].nonce
      ensures Open(u.intents[i]) ==> Open(s.t.intents[i])
    {
      StepKeepsIntent(s, a, now, i);
    }
  }

  lemma {:induction false} IntentsPersist(states: seq<State>, log: seq<Stamped>, m: nat, n: nat)
    requires Trace(states, log) && m <= n < |states|
    ensures IntentsSince(states[m].t, states[n].t)
  {
    hide Enabled, Do;
    if m < n {
      IntentsPersist(states, log, m, n - 1);
      assert Next(states[n - 1], log[n - 1].action, log[n - 1].now, states[n - 1 + 1]);
      StepKeepsIntents(states[n - 1], log[n - 1].action, log[n - 1].now);
    }
  }

  /**
   Over every run: no row ever leaves an intent that is still open, between any two moments, if and
   only if every batch that reserves or reuses an intent takes rows of no other open intent, the
   clause its UPDATE lacks.
   */
  lemma NoReservationAbandonedIff(states: seq<State>, log: seq<Stamped>)
    requires Trace(states, log)
    ensures (forall m, n :: 0 <= m <= n < |states| ==> KeepsOpenLinks(states[m].t, states[n].t))
       <==> (forall k :: 0 <= k < |log| ==> StepTakesFree(states[k], log[k].action))
  {
    hide StepTakesFree, Enabled, Do, KeepsOpenLinks;
    if forall m, n :: 0 <= m <= n < |states| ==> KeepsOpenLinks(states[m].t, states[n].t) {
      forall k | 0 <= k < |log| ensures StepTakesFree(states[k], log[k].action) {
        assert Next(states[k], log[k].action, log[k].now, states[k + 1]);
        assert KeepsOpenLinks(states[k].t, states[k + 1].t);
        StepKeepsOpenLinksIff(states[k], log[k].action, log[k].now);
      }
    }
    if forall k :: 0 <= k < |log| ==> StepTakesFree(states[k], log[k].action) {
      forall m, n | 0 <= m <= n < |states| ensures KeepsOpenLinks(states[m].t, states[n].t) {
        FreeStepsKeepOpenLinks(states, log, m, n);
      }
    }
  }

  /** With one live call per group a batch relinks rows of an open intent to that intent only. */
  lemma InvTakesFree(s: State, a: Action)
    requires Inv(s) && Enabled(s, a)
    ensures StepTakesFree(s, a)
  {
    if a.ReuseIntent? || a.ReserveNonce? {
      var call := s.calls[a.call];
      assert CallFits(s.t, call);
      forall r | r in call.ids && r in s.t.rows && LinkedToOpen(s.t.rows[r], s.t.intents)
        ensures s.t.rows[r].intent == Some(WriteOf(s, a).value.intent)
      {
        assert RowLinked(s.t, s.t.rows[r]);
        assert OpenFor(s.t, s.t.rows[r].intent.value, call.group);
      }
    }
  }

  /**
   A reserved nonce is never abandoned in a disciplined run: an intent still open at its end has
   been open since, holds its original nonce, and still owns every row it owned.
   */
  lemma ReservationSurvives(states: seq<State>, log: seq<Stamped>, n: nat, r: RowId, i: IntentId)
    requires DisciplinedTrace(states, log) && Inv(states[0]) && n < |states|
    requires LinkedTo(states[0].t, r, i) && i in states[0].t.intents
    requires i in states[n].t.intents && Open(states[n].t.intents[i])
    ensures Open(states[0].t.intents[i])
    ensures states[n].t.intents[i].nonce == states[0].t.intents[i].nonce
    ensures LinkedTo(states[n].t, r, i)
  {
    hide Inv, Disciplined, Enabled, Do, LinkedTo, StepTakesFree;
    IntentsPersist(states, log, 0, n);
    forall k | 0 <= k < |log| ensures StepTakesFree(states[k], log[k].action) {
      DisciplinedRunKeepsInv(states, log, k);
      assert Next(states[k], log[k].action, log[k].now, states[k + 1]);
      InvTakesFree(states[k], log[k].action);
    }
    FreeStepsKeepOpenLinks(states, log, 0, n);
  }

  // ----------------------------------------------------- escalated intents

  /** An intent that waits for manual resolution without an artifact, and on which no call works. */
  ghost predicate Shelved(s: State, i: IntentId, intent: Intent) {
    && intent.status == Reconciliation && intent.txid == None
    && i in s.t.intents && s.t.intents[i] == intent
    && forall c :: c in s.calls ==> IntentOf(s.calls[c].phase) != Some(i)
  }

  lemma StepKeepsShelvedCalls(s: State, a: Action, i: IntentId, intent: Intent)
    requires Enabled(s, a) && Shelved(s, i, intent)
    ensures forall c :: c in CallsAfter(s, a) ==> IntentOf(CallsAfter(s, a)[c].phase) != Some(i)
  {
  }

  lemma ShelvedIsNotWritten(s: State, a: Action, i: IntentId, intent: Intent)
    requires Enabled(s, a) && Shelved(s, i, intent) && WriteOf(s, a).Some?
    ensures IntentUpdate(s.t, WriteOf(s, a).value, i, intent) == intent
    ensures WriteOf(s, a).value.Reuse? ==> WriteOf(s, a).value.intent != i
  {
  }

  lemma StepKeepsShelved(s: State, a: Action, now: Millis, i: IntentId, intent: Intent)
    requires Enabled(s, a) && Shelved(s, i, intent)
    ensures Shelved(Do(s, a, now), i, intent)
  {
    hide Apply, Enabled, WriteOf, CallsAfter, IntentUpdate;
    StepKeepsShelvedCalls(s, a, i, intent);
    if WriteOf(s, a).Some? {
      WriteIsReady(s, a);
      ShelvedIsNotWritten(s, a, i, intent);
      IntentAt(s.t, WriteOf(s, a).value, now, i);
    }
  }

  /**
   Over every run an escalated intent stays as it is: no call finds it as one to reuse, signs for it
   or escalates it again, although it has a nonce and no artifact.
   */
  lemma {:induction false} EscalatedForever(states: seq<State>, log: seq<Stamped>, n: nat, i: IntentId, intent: Intent)
    requires Trace(states, log) && Shelved(states[0], i, intent) && n < |states|
    ensures Shelved(states[n], i, intent)
  {
    hide Shelved, Enabled, Do;
    if n > 0 {
      EscalatedForever(states, log, n - 1, i, intent);
      assert Next(states[n - 1], log[n - 1].action, log[n - 1].now, states[n - 1 + 1]);
      StepKeepsShelved(states[n - 1], log[n - 1].action, log[n - 1].now, i, intent);
    }
  }

  // ----------------------------------------------------- dropped broadcasts

  /** A dropped sweep: STALE_BROADCAST, and `r` still carries it and waits for manual resolution. */
  predicate DroppedRow(t: Tables, h: Hash, r: RowId) {
    && h in t.txs && t.txs[h].status == StaleBroadcast
    && r in t.rows && t.rows[r].txid == Some(h) && t.rows[r].status == Reconciliation
  }

  /**
   The write spares the dropped sweep and its row: no later report or announcement of the sweep,
   and no batch that holds the row, except to mark it RECONCILIATION once more.
   */
  predicate SparesDropped(t: Tables, w: Write, h: Hash, r: RowId) {
    match w
    case Resolve(k, v, _) => k != h || v.Dropped? || v.Remined?
    case Announce(_, k) => k != h
    case Reserve(ids, _, _, _) => r !in ids
    case Reuse(ids, _) => r !in ids
    case Persist(ids, _, k, _) => r !in ids || k in t.txs
    case Mark(ids, status) => r !in ids || status == Reconciliation
    case Settle(ids, _) => r !in ids
    case _ => true
  }

  /** A dropped sweep stays dropped exactly when the write spares it. */
  lemma WriteKeepsDroppedIff(t: Tables, w: Write, now: Millis, h: Hash, r: RowId)
    requires Ready(t, w) && DroppedRow(t, h, r)
    ensures DroppedRow(Apply(t, w, now), h, r) <==> SparesDropped(t, w, h, r)
  {
    RowAt(t, w, now, r);
    StatusAt(t, w, now, Some(h));
    assert TxStatus(Apply(t, w, now).txs, Some(h)) == StatusAfter(t, w, Some(h));
  }

  predicate StepSparesDropped(s: State, a: Action, h: Hash, r: RowId) {
    WriteOf(s, a).Some? ==> SparesDropped(s.t, WriteOf(s, a).value, h, r)
  }

  lemma StepKeepsDroppedIff(s: State, a: Action, now: Millis, h: Hash, r: RowId)
    requires Enabled(s, a) && DroppedRow(s.t, h, r)
    ensures DroppedRow(Do(s, a, now).t, h, r) <==> StepSparesDropped(s, a, h, r)
  {
    hide Apply, SparesDropped;
    if WriteOf(s, a).Some? {
      WriteIsReady(s, a);
      WriteKeepsDroppedIff(s.t, WriteOf(s, a).value, now, h, r);
    }
  }

  lemma {:induction false} SparedSweepStaysDropped(states: seq<State>, log: seq<Stamped>, n: nat, h: Hash, r: RowId)
    requires Trace(states, log) && DroppedRow(states[0].t, h, r) && n < |states|
    requires forall k :: 0 <= k < |log| ==> StepSparesDropped(states[k], log[k].action, h, r)
    ensures DroppedRow(states[n].t, h, r)
  {
    hide DroppedRow, StepSparesDropped, Enabled, Do;
    if n > 0 {
      SparedSweepStaysDropped(states, log, n - 1, h, r);
      assert Next(states[n - 1], log[n - 1].action, log[n - 1].now, states[n - 1 + 1]);
      StepKeepsDroppedIff(states[n - 1], log[n - 1].action, log[n - 1].now, h, r);
    }
  }

  /** Over every run of both workers: a dropped sweep stays dropped if and only if every write spares it. */
  lemma DroppedForeverIff(states: seq<State>, log: seq<Stamped>, h: Hash, r: RowId)
    requires Trace(states, log) && DroppedRow(states[0].t, h, r)
    ensures (forall k :: 0 <= k < |states| ==> DroppedRow(states[k].t, h, r))
       <==> (forall k :: 0 <= k < |log| ==> StepSparesDropped(states[k], log[k].action, h, r))
  {
    hide DroppedRow, StepSparesDropped, Enabled, Do;
    if forall k :: 0 <= k < |states| ==> DroppedRow(states[k].t, h, r) {
      forall k | 0 <= k < |log| ensures StepSparesDropped(states[k], log[k].action, h, r) {
        assert Next(states[k], log[k].action, log[k].now, states[k + 1]);
        StepKeepsDroppedIff(states[k], log[k].action, log[k].now, h, r);
      }
    }
    if forall k :: 0 <= k < |log| ==> StepSparesDropped(states[k], log[k].action, h, r) {
      forall n | 0 <= n < |states| ensures DroppedRow(states[n].t, h, r) {
        SparedSweepStaysDropped(states, log, n, h, r);
      }
    }
  }

  /** The status worker's report is written while the sweep still has a status it was selected for. */
  predicate ReportFresh(s: State, a: Action) {
    a.Commit? && a.write.Resolve? && a.write.hash in s.t.txs ==>
      s.t.txs[a.write.hash].status == Broadcast || s.t.txs[a.write.hash].status == Confirmed
  }

  /** No batch in memory holds a dropped row, and no call works on its sweep. */
  lemma BatchExcludesDropped(t: Tables, call: Call, h: Hash, r: RowId)
    requires CallFits(t, call) && DroppedRow(t, h, r)
    ensures r !in call.ids
    ensures call.phase.Recovering? || call.phase.Persisted? ==> call.phase.hash != h
  {
    assert BatchOwned(t, call);
  }

  lemma FreeCallSparesDropped(s: State, a: Action, h: Hash, r: RowId)
    requires Enabled(s, a) && (CallWrite(a) || a.Route?) && a.call in s.calls && r !in s.calls[a.call].ids
    requires s.calls[a.call].phase.Recovering? || s.calls[a.call].phase.Persisted? ==> s.calls[a.call].phase.hash != h
    ensures StepSparesDropped(s, a, h, r)
  {
  }

  lemma InvFits(s: State, c: CallId)
    requires Inv(s) && c in s.calls
    ensures CallFits(s.t, s.calls[c])
  {
  }

  lemma FreshReportsSpareDropped(s: State, a: Action, h: Hash, r: RowId)
    requires Inv(s) && Enabled(s, a) && ReportFresh(s, a) && DroppedRow(s.t, h, r)
    ensures StepSparesDropped(s, a, h, r)
  {
    hide Inv, CallFits;
    if CallWrite(a) || a.Route? {
      InvFits(s, a.call);
      BatchExcludesDropped(s.t, s.calls[a.call], h, r);
      FreeCallSparesDropped(s, a, h, r);
    }
  }

  /** So over every disciplined run in which reports are written fresh, a dropped sweep is never claimable again. */
  lemma DroppedIsAbsorbing(states: seq<State>, log: seq<Stamped>, n: nat, h: Hash, r: RowId)
    requires DisciplinedTrace(states, log) && Inv(states[0]) && n < |states|
    requires forall k :: 0 <= k < |log| ==> ReportFresh(states[k], log[k].action)
    requires h in states[0].t.txs && states[0].t.txs[h].status == StaleBroadcast
    requires r in states[0].t.rows && states[0].t.rows[r].txid == Some(h)
    ensures DroppedRow(states[n].t, h, r) && !Claimable(states[n].t.rows[r])
  {
    assert RowAgrees(states[0].t.rows[r], states[0].t.txs);
    DroppedPrefix(states, log, n, h, r);
  }

  lemma {:induction false} DroppedPrefix(states: seq<State>, log: seq<Stamped>, n: nat, h: Hash, r: RowId)
    requires DisciplinedTrace(states, log) && Inv(states[0]) && n < |states|
    requires forall k :: 0 <= k < |log| ==> ReportFresh(states[k], log[k].action)
    requires DroppedRow(states[0].t, h, r)
    ensures DroppedRow(states[n].t, h, r)
  {
    hide Inv, DroppedRow, StepSparesDropped, ReportFresh, Enabled, Do;
    if n > 0 {
      DroppedPrefix(states, log, n - 1, h, r);
      DisciplinedRunKeepsInv(states, log, n - 1);
      assert Next(states[n - 1], log[n - 1].action, log[n - 1].now, states[n - 1 + 1]);
      FreshReportsSpareDropped(states[n - 1], log[n - 1].action, h, r);
      StepKeepsDroppedIff(states[n - 1], log[n - 1].action, log[n - 1].now, h, r);
    }
  }
}

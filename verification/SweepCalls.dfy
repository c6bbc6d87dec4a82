/**
 What one call of the provider does to the tables when nothing comes between its steps: a fresh
 sweep, a sweep over a reserved nonce, the recovery of a recorded sweep, an escalation.  Every
 column that changes is named, and nothing else changes.
 */
module SweepCalls {
  import opened Options
  import opened SweepTables
  import opened SweepLockstep
  import opened SweepProtocol
  import opened SweepGroups
  import opened SweepOutcomes

  /** The action is possible, and the state it leads to is `s'`. */
  ghost predicate Goes(s: State, a: Action, now: Millis, s': State) {
    Enabled(s, a) && s' == Do(s, a, now)
  }

  /** The rows of the batch become the given ones; all other rows are as they were. */
  ghost predicate BatchBecomes(t: Tables, u: Tables, ids: set<RowId>, become: Row -> Row) {
    && u.rows.Keys == t.rows.Keys
    && forall r :: r in t.rows ==> u.rows[r] == if r in ids then become(t.rows[r]) else t.rows[r]
  }

  /** Linked to an intent whose nonce is reserved. */
  function Linked(i: IntentId, at: Millis): Row -> Row {
    (row: Row) => Row(row.group, Signing, row.txid, Some(i), at)
  }

  /** Swept by the announced transaction `h`. */
  function Swept(i: IntentId, h: Hash, at: Millis): Row -> Row {
    (row: Row) => Row(row.group, Broadcast, Some(h), Some(i), at)
  }

  // --------------------------------------------------------------- reservation

  lemma ReservationLeaves(t: Tables, ids: set<RowId>, i: IntentId, g: Group, count: int, now: Millis)
    requires i !in t.intents
    ensures var u := Apply(t, Reserve(ids, i, g, count), now);
      var nonce := if g.network in t.nonces then t.nonces[g.network] else count;
      && BatchBecomes(t, u, ids, Linked(i, now)) && u.txs == t.txs
      && u.intents == t.intents[i := Intent(g, nonce, Signing, None)]
      && u.nonces == t.nonces[g.network := nonce + 1]
  {
  }

  lemma ReuseLeaves(t: Tables, ids: set<RowId>, i: IntentId, now: Millis)
    ensures var u := Apply(t, Reuse(ids, i), now);
      BatchBecomes(t, u, ids, Linked(i, now)) && u.txs == t.txs && u.intents == t.intents && u.nonces == t.nonces
  {
  }

  // ---------------------------------------------------- signing and announcing

  lemma PersistLeaves(t: Tables, ids: set<RowId>, i: IntentId, h: Hash, g: Group, now: Millis)
    requires h !in t.txs && i in t.intents
    ensures var u := Apply(t, Persist(ids, i, h, g), now);
      && BatchBecomes(t, u, ids, (row: Row) => Row(row.group, row.status, Some(h), row.intent, row.updatedAt))
      && u.intents == t.intents[i := Intent(t.intents[i].group, t.intents[i].nonce, Signed, Some(h))]
      && u.txs == t.txs[h := Tx(g, t.intents[i].nonce, Pending, now, None, None, None)]
      && u.nonces == t.nonces
  {
  }

  /** A hash that is recorded already makes the insert fail and the whole transaction with it. */
  lemma RepeatedPersistLeaves(t: Tables, ids: set<RowId>, i: IntentId, h: Hash, g: Group, now: Millis)
    requires h in t.txs
    ensures Apply(t, Persist(ids, i, h, g), now) == t
  {
  }

  lemma AnnounceLeaves(t: Tables, i: IntentId, h: Hash, now: Millis)
    requires i in t.intents && h in t.txs
    ensures var u := Apply(t, Announce(i, h), now);
      && u.rows.Keys == t.rows.Keys
      && (forall r :: r in t.rows ==>
            u.rows[r] == if t.rows[r].txid == Some(h)
                         then Row(t.rows[r].group, Broadcast, Some(h), t.rows[r].intent, t.rows[r].updatedAt)
                         else t.rows[r])
      && u.intents == t.intents[i := Intent(t.intents[i].group, t.intents[i].nonce, Broadcast, t.intents[i].txid)]
      && u.txs == t.txs[h := Tx(t.txs[h].group, t.txs[h].nonce, Broadcast, t.txs[h].updatedAt, t.txs[h].confirmedAt,
                                t.txs[h].blockNumber, t.txs[h].blockHash)]
      && u.nonces == t.nonces
  {
  }

  lemma ReviewLeaves(t: Tables, i: IntentId, now: Millis)
    requires i in t.intents
    ensures var u := Apply(t, Review(i), now);
      && u.rows.Keys == t.rows.Keys
      && (forall r :: r in t.rows ==>
            u.rows[r] == if t.rows[r].intent == Some(i)
                         then Row(t.rows[r].group, Reconciliation, t.rows[r].txid, Some(i), now)
                         else t.rows[r])
      && u.intents == t.intents[i := Intent(t.intents[i].group, t.intents[i].nonce, Reconciliation, t.intents[i].txid)]
      && u.txs == t.txs && u.nonces == t.nonces
  {
  }

  // ------------------------------------------------------------- whole calls

  ghost predicate NoneCarries(t: Tables, h: Hash) {
    forall r :: r in t.rows ==> t.rows[r].txid != Some(h)
  }

  /** From a reserved nonce to the announced sweep: the batch, its intent and one new transaction. */
  lemma SigningLeaves(t: Tables, ids: set<RowId>, i: IntentId, h: Hash, g: Group, at: Millis, later: Millis,
                      last: Millis, before: Tables)
    requires h !in t.txs && NoneCarries(t, h) && i in t.intents && t.intents[i].group == g
    requires BatchBecomes(before, t, ids, Linked(i, at))
    ensures var u := Apply(Apply(t, Persist(ids, i, h, g), later), Announce(i, h), last);
      && BatchBecomes(before, u, ids, Swept(i, h, at))
      && u.intents == t.intents[i := Intent(g, t.intents[i].nonce, Broadcast, Some(h))]
      && u.txs == t.txs[h := Tx(g, t.intents[i].nonce, Broadcast, later, None, None, None)]
      && u.nonces == t.nonces
  {
    hide Apply;
    PersistLeaves(t, ids, i, h, g, later);
    AnnounceLeaves(Apply(t, Persist(ids, i, h, g), later), i, h, last);
  }

  /** What signing makes of a state in which the call has a reserved nonce. */
  lemma SigningGoes(s: State, c: CallId, h: Hash, later: Millis, last: Millis) returns (s1: State, s2: State)
    requires c in s.calls && s.calls[c].phase.Reserved? && s.calls[c].phase.intent in s.t.intents && h !in s.t.txs
    ensures Goes(s, PersistArtifact(c, h), later, s1) && Goes(s1, AnnounceSweep(c), last, s2)
    ensures var call := s.calls[c];
      s2 == State(Apply(Apply(s.t, Persist(call.ids, call.phase.intent, h, call.group), later),
                        Announce(call.phase.intent, h), last), s.scheduled, s.calls - {c})
  {
    s1 := Do(s, PersistArtifact(c, h), later);
    s2 := Do(s1, AnnounceSweep(c), last);
    assert s1.calls - {c} == s.calls - {c};
  }

  /** A call that finds neither an artifact nor an open intent reserves a nonce. */
  lemma ReservingGoes(s: State, c: CallId, i: IntentId, count: int, first: Millis, second: Millis, at: Millis)
    returns (s1: State, s2: State, s3: State)
    requires c in s.calls && s.calls[c].phase == Entered && BatchUnsigned(s.t, s.calls[c])
    requires (forall j :: j in s.t.intents ==> !OpenFor(s.t, j, s.calls[c].group)) && i !in s.t.intents
    ensures Goes(s, Lookup(c, None), first, s1) && Goes(s1, FindIntent(c, None), second, s2)
    ensures Goes(s2, ReserveNonce(c, i, count), at, s3)
    ensures s3 == State(Apply(s.t, Reserve(s.calls[c].ids, i, s.calls[c].group, count), at), s.scheduled,
                        s.calls[c := At(s.calls[c], Reserved(i))])
  {
    hide Apply;
    var call := s.calls[c];
    s1, s2 := s.(calls := s.calls[c := At(call, Unsigned)]), s.(calls := s.calls[c := At(call, Allocating)]);
    assert s1.calls[c := At(call, Allocating)] == s2.calls;
    s3 := Do(s2, ReserveNonce(c, i, count), at);
    assert s2.calls[c := At(call, Reserved(i))] == s.calls[c := At(call, Reserved(i))];
  }

  /**
   A fresh sweep.  A call that finds neither an artifact on its batch nor an open intent of its group
   takes the next nonce, signs, and announces: in the end exactly its batch is BROADCAST under the
   new hash, the new intent and the new transaction hold that nonce, and the call is over.
   */
  lemma FreshSweep(s: State, c: CallId, i: IntentId, count: int, h: Hash, at: seq<Millis>)
    returns (s1: State, s2: State, s3: State, s4: State, s5: State)
    requires |at| == 5 && c in s.calls && s.calls[c].phase == Entered && BatchUnsigned(s.t, s.calls[c])
    requires forall j :: j in s.t.intents ==> !OpenFor(s.t, j, s.calls[c].group)
    requires i !in s.t.intents && h !in s.t.txs && NoneCarries(s.t, h)
    ensures Goes(s, Lookup(c, None), at[0], s1) && Goes(s1, FindIntent(c, None), at[1], s2)
    ensures Goes(s2, ReserveNonce(c, i, count), at[2], s3)
    ensures Goes(s3, PersistArtifact(c, h), at[3], s4) && Goes(s4, AnnounceSweep(c), at[4], s5)
    ensures var g, t, u := s.calls[c].group, s.t, s5.t;
      var nonce := if g.network in t.nonces then t.nonces[g.network] else count;
      && BatchBecomes(t, u, s.calls[c].ids, Swept(i, h, at[2]))
      && u.intents == t.intents[i := Intent(g, nonce, Broadcast, Some(h))]
      && u.txs == t.txs[h := Tx(g, nonce, Broadcast, at[3], None, None, None)]
      && u.nonces == t.nonces[g.network := nonce + 1]
    ensures s5.calls == s.calls - {c} && s5.scheduled == s.scheduled
  {
    hide Apply, Enabled, CallsAfter, WriteOf;
    var call := s.calls[c];
    s1, s2, s3 := ReservingGoes(s, c, i, count, at[0], at[1], at[2]);
    ReservationLeaves(s.t, call.ids, i, call.group, count, at[2]);
    s4, s5 := SigningGoes(s3, c, h, at[3], at[4]);
    SigningLeaves(s3.t, call.ids, i, h, call.group, at[2], at[3], at[4], s.t);
    assert s3.calls - {c} == s.calls - {c};
  }

  /** A sweep over the open intent of an earlier call: it spends that nonce, and the counter stays. */
  lemma ReusedSweep(s: State, c: CallId, i: IntentId, h: Hash, at: seq<Millis>)
    returns (s1: State, s2: State, s3: State, s4: State, s5: State)
    requires |at| == 5 && c in s.calls && s.calls[c].phase == Entered && BatchUnsigned(s.t, s.calls[c])
    requires OpenFor(s.t, i, s.calls[c].group) && h !in s.t.txs && NoneCarries(s.t, h)
    ensures Goes(s, Lookup(c, None), at[0], s1) && Goes(s1, FindIntent(c, Some(i)), at[1], s2)
    ensures Goes(s2, ReuseIntent(c), at[2], s3)
    ensures Goes(s3, PersistArtifact(c, h), at[3], s4) && Goes(s4, AnnounceSweep(c), at[4], s5)
    ensures var g, t, u := s.calls[c].group, s.t, s5.t;
      var nonce := t.intents[i].nonce;
      && BatchBecomes(t, u, s.calls[c].ids, Swept(i, h, at[2]))
      && u.intents == t.intents[i := Intent(g, nonce, Broadcast, Some(h))]
      && u.txs == t.txs[h := Tx(g, nonce, Broadcast, at[3], None, None, None)]
      && u.nonces == t.nonces
    ensures s5.calls == s.calls - {c} && s5.scheduled == s.scheduled
  {
    hide Apply;
    var call := s.calls[c];
    s1, s2 := s.(calls := s.calls[c := At(call, Unsigned)]), s.(calls := s.calls[c := At(call, Reusing(i))]);
    assert s1.calls[c := At(call, Reusing(i))] == s2.calls;
    s3 := Do(s2, ReuseIntent(c), at[2]);
    ReuseLeaves(s.t, call.ids, i, at[2]);
    s4, s5 := SigningGoes(s3, c, h, at[3], at[4]);
    SigningLeaves(s3.t, call.ids, i, h, call.group, at[2], at[3], at[4], s.t);
    assert s3.calls - {c} == s.calls - {c};
  }

  /**
   Recovery of a recorded sweep: no nonce is taken and nothing is signed.  What the chain says is
   recorded without stamping rows or transaction; after a revert the call ends with an error.
   */
  lemma RecoveredSweep(s: State, c: CallId, h: Hash, v: Verdict, at: seq<Millis>)
    returns (s1: State, s2: State)
    requires |at| == 2 && c in s.calls && s.calls[c].phase == Entered && h in s.t.txs
    requires s.t.txs[h].group == s.calls[c].group && !v.Dropped? && !v.Remined?
    requires exists r :: r in s.calls[c].ids && Carries(s.t, r, h)
    ensures Goes(s, Lookup(c, Some(h)), at[0], s1) && Goes(s1, FinishRecovery(c, v), at[1], s2)
    ensures Records(s.t, s2.t, h, v, at[1], None) && OnlyCarriersMove(s.t, s2.t, {h})
    ensures s2.calls == if v.Reverted? then s.calls[c := At(s.calls[c], Thrown(OtherError))] else s.calls - {c}
    ensures s2.scheduled == s.scheduled
  {
    hide Apply;
    s1 := s.(calls := s.calls[c := At(s.calls[c], Recovering(h))]);
    s2 := Do(s1, FinishRecovery(c, v), at[1]);
    ResolveRecords(s.t, h, v, Provider, at[1]);
    assert s1.calls - {c} == s.calls - {c};
    assert s1.calls[c := At(s.calls[c], Thrown(OtherError))] == s.calls[c := At(s.calls[c], Thrown(OtherError))];
  }

  /**
   Escalation of an intent whose nonce the chain shows as used: the intent and every row linked to it
   wait for manual resolution, and so does the batch once the error is routed; no nonce is taken.
   */
  lemma EscalatedIntent(s: State, c: CallId, i: IntentId, at: seq<Millis>)
    returns (s1: State, s2: State, s3: State, s4: State)
    requires |at| == 4 && c in s.calls && s.calls[c].phase == Entered && BatchUnsigned(s.t, s.calls[c])
    requires OpenFor(s.t, i, s.calls[c].group)
    ensures Goes(s, Lookup(c, None), at[0], s1) && Goes(s1, FindIntent(c, Some(i)), at[1], s2)
    ensures Goes(s2, EscalateIntent(c), at[2], s3) && Goes(s3, Route(c), at[3], s4)
    ensures var t, u := s.t, s4.t;
      && u.rows.Keys == t.rows.Keys && u.txs == t.txs && u.nonces == t.nonces
      && u.intents == t.intents[i := Intent(t.intents[i].group, t.intents[i].nonce, Reconciliation, None)]
      && forall r :: r in t.rows ==>
           var row := t.rows[r];
           u.rows[r] == if r in s.calls[c].ids then Row(row.group, Reconciliation, row.txid, row.intent, at[3])
                        else if row.intent == Some(i) then Row(row.group, Reconciliation, row.txid, row.intent, at[2])
                        else row
    ensures s4.calls == s.calls - {c} && s4.scheduled == s.scheduled
  {
    hide Apply;
    var call := s.calls[c];
    s1, s2 := s.(calls := s.calls[c := At(call, Unsigned)]), s.(calls := s.calls[c := At(call, Reusing(i))]);
    assert s1.calls[c := At(call, Reusing(i))] == s2.calls;
    s3 := Do(s2, EscalateIntent(c), at[2]);
    s4 := Do(s3, Route(c), at[3]);
    ReviewLeaves(s.t, i, at[2]);
    MarkLeaves(s3.t, call.ids, Reconciliation, at[3]);
    assert s3.calls - {c} == s.calls - {c};
  }

  lemma MarkLeaves(t: Tables, ids: set<RowId>, status: Status, now: Millis)
    ensures var u := Apply(t, Mark(ids, status), now);
      && BatchBecomes(t, u, ids, (row: Row) => Row(row.group, status, row.txid, row.intent, now))
      && u.intents == t.intents && u.txs == t.txs && u.nonces == t.nonces
  {
  }

  /** A crash loses what is held in memory, a call or a target still to be claimed, and nothing of the tables. */
  lemma CrashForgets(s: State, c: CallId, now: Millis)
    ensures var u := Do(s, Crash(c), now);
      u.t == s.t && u.calls == s.calls - {c} && u.scheduled == s.scheduled - {c}
  {
  }
}

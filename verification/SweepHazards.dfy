/**
 Concrete runs of the protocol, from empty tables, in which the conditions of a disciplined
 run fail and the guarantees fail with them, and disciplined runs that end in a frozen row.
 */
module SweepHazards {
  import opened Options
  import opened SweepTables
  import opened SweepLockstep
  import opened SweepProtocol
  import opened SweepInvariant
  import opened SweepGroups
  import opened SweepNonces
  import opened SweepSafety
  import opened SweepQueue

  /** Some run from empty tables ends in `s`; with `safely`, some disciplined run does. */
  ghost predicate Reached(s: State, safely: bool) {
    exists states, log ::
      Trace(states, log) && states[0] == INITIAL && states[|log|] == s && (safely ==> DisciplinedTrace(states, log))
  }

  lemma Advance(s: State, a: Action, now: Millis, s': State, safely: bool)
    requires Reached(s, safely) && Enabled(s, a) && (safely ==> Disciplined(s, a)) && s' == Do(s, a, now)
    ensures Reached(s', safely)
  {
    var states, log :| Trace(states, log) && states[0] == INITIAL && states[|log|] == s &&
                       (safely ==> DisciplinedTrace(states, log));
    var states', log' := states + [s'], log + [Stamped(a, now)];
    forall k | 0 <= k < |log'|
      ensures Next(states'[k], log'[k].action, log'[k].now, states'[k + 1])
      ensures safely ==> Disciplined(states'[k], log'[k].action)
    {
      if k < |log| {
        assert Next(states[k], log[k].action, log[k].now, states[k + 1]);
        assert safely ==> Disciplined(states[k], log[k].action);
      }
    }
    assert Trace(states', log') && states'[0] == INITIAL && states'[|log'|] == s';
    assert safely ==> DisciplinedTrace(states', log');
  }

  lemma InitialReached()
    ensures Reached(INITIAL, true)
  {
    var states, log: seq<Stamped> := [INITIAL], [];
    assert DisciplinedTrace(states, log) && Trace(states, log) && states[0] == INITIAL && states[|log|] == INITIAL;
  }

  lemma Unsafely(s: State)
    requires Reached(s, true)
    ensures Reached(s, false)
  {
  }

  // ----------------------------------------------------- several steps at once

  /** A call that finds no artifact and no open intent reserves a nonce in a fresh one. */
  lemma ReservesFresh(s: State, c: CallId, i: IntentId, now: Millis, safely: bool)
    requires Reached(s, safely) && c in s.calls && s.calls[c].phase == Entered && BatchUnsigned(s.t, s.calls[c])
    requires i !in s.t.intents && forall j :: j in s.t.intents ==> !OpenFor(s.t, j, s.calls[c].group)
    ensures Reached(State(Apply(s.t, Reserve(s.calls[c].ids, i, s.calls[c].group, 0), now), s.scheduled,
                          s.calls[c := At(s.calls[c], Reserved(i))]), safely)
  {
    var call := s.calls[c];
    var s1 := s.(calls := s.calls[c := At(call, Unsigned)]);
    Advance(s, Lookup(c, None), now, s1, safely);
    var s2 := s.(calls := s.calls[c := At(call, Allocating)]);
    assert s1.calls[c := At(call, Allocating)] == s2.calls;
    Advance(s1, FindIntent(c, None), now, s2, safely);
    assert s2.calls[c := At(call, Reserved(i))] == s.calls[c := At(call, Reserved(i))];
    Advance(s2, ReserveNonce(c, i, 0), now, Do(s2, ReserveNonce(c, i, 0), now), safely);
  }

  /** A call that finds an open intent of its group links its batch to it. */
  lemma ReusesOpen(s: State, c: CallId, i: IntentId, now: Millis, safely: bool)
    requires Reached(s, safely) && c in s.calls && s.calls[c].phase == Entered && BatchUnsigned(s.t, s.calls[c])
    requires OpenFor(s.t, i, s.calls[c].group)
    ensures Reached(s.(calls := s.calls[c := At(s.calls[c], Reusing(i))]), safely)
    ensures Reached(State(Apply(s.t, Reuse(s.calls[c].ids, i), now), s.scheduled,
                          s.calls[c := At(s.calls[c], Reserved(i))]), safely)
  {
    var call := s.calls[c];
    var s1 := s.(calls := s.calls[c := At(call, Unsigned)]);
    Advance(s, Lookup(c, None), now, s1, safely);
    var s2 := s.(calls := s.calls[c := At(call, Reusing(i))]);
    assert s1.calls[c := At(call, Reusing(i))] == s2.calls;
    Advance(s1, FindIntent(c, Some(i)), now, s2, safely);
    assert s2.calls[c := At(call, Reserved(i))] == s.calls[c := At(call, Reserved(i))];
    Advance(s2, ReuseIntent(c), now, Do(s2, ReuseIntent(c), now), safely);
  }

  /** A call with a reserved nonce persists its artifact and announces it. */
  lemma SignsAndAnnounces(s: State, c: CallId, h: Hash, now: Millis, safely: bool)
    requires Reached(s, safely) && c in s.calls && s.calls[c].phase.Reserved? && h !in s.t.txs
    requires s.calls[c].phase.intent in s.t.intents
    ensures var call, i := s.calls[c], s.calls[c].phase.intent;
      Reached(State(Apply(Apply(s.t, Persist(call.ids, i, h, call.group), now), Announce(i, h), now),
                    s.scheduled, s.calls - {c}), safely)
  {
    var s1 := Do(s, PersistArtifact(c, h), now);
    Advance(s, PersistArtifact(c, h), now, s1, safely);
    assert h in s1.t.txs;
    assert s1.calls - {c} == s.calls - {c};
    Advance(s1, AnnounceSweep(c), now, Do(s1, AnnounceSweep(c), now), safely);
  }

  // ------------------------------------------------------- a common prefix

  /** The recovery timeout of five minutes, and an instant at which a row written at 0 is stuck. */
  const TIMEOUT: Millis := 300_000
  const LATER: Millis := TIMEOUT + 1

  const G := Group(1, 1, 1)
  const ROW := Row(G, Pending, None, None, 0)
  const OPEN := Intent(G, 0, Signing, None)
  const TX := Tx(G, 0, Pending, 0, None, None, None)

  const ARRIVED := Tables(map[1 := ROW], map[], map[], map[])

  lemma ArrivedReached()
    ensures Reached(State(ARRIVED, map[1 := G, 2 := G], map[]), true)
  {
    InitialReached();
    var s1 := State(ARRIVED, map[], map[]);
    Advance(INITIAL, Commit(Arrive(1, G)), 0, s1, true);
    assert s1.t.rows[1].group == G;
    Advance(s1, Select(1, G), 0, s1.(scheduled := map[1 := G]), true);
    Advance(s1.(scheduled := map[1 := G]), Select(2, G), 0, s1.(scheduled := map[1 := G, 2 := G]), true);
  }

  /** One deposit; two workers have selected its group; call 1 has claimed it and call 2 is still to come. */
  const CLAIMED := State(
    ARRIVED.(rows := map[1 := ROW.(status := Processing)]), map[2 := G], map[1 := Call(G, {1}, Entered)])

  lemma ClaimedReached()
    ensures Reached(CLAIMED, true)
  {
    ArrivedReached();
    var s := State(ARRIVED, map[1 := G, 2 := G], map[]);
    assert ClaimIds(s.t, G) == {1};
    Advance(s, ClaimTarget(1), 0, CLAIMED, true);
  }

  const RESERVED_ROW := ROW.(status := Signing, intent := Some(7))

  /** Call 1 has reserved nonce 0 in intent 7. */
  const RESERVED := State(
    Tables(map[1 := RESERVED_ROW], map[7 := OPEN], map[], map[1 := 1]),
    map[2 := G], map[1 := Call(G, {1}, Reserved(7))])

  lemma ReservedReached()
    ensures Reached(RESERVED, true)
  {
    ClaimedReached();
    ReservesFresh(CLAIMED, 1, 7, 0, true);
    assert Apply(CLAIMED.t, Reserve({1}, 7, G, 0), 0) == RESERVED.t;
    assert CLAIMED.calls[1 := Call(G, {1}, Reserved(7))] == RESERVED.calls;
  }

  // ------------------------------------------------------ a frozen row

  const REQUEUED := RESERVED.t.(rows := map[1 := ROW.(intent := Some(7), updatedAt := LATER)])
  const FROZEN_ROW := ROW.(status := Processing, intent := Some(7), updatedAt := LATER)
  const FROZEN := RESERVED.t.(rows := map[1 := FROZEN_ROW])

  lemma RequeuedTables()
    ensures Apply(RESERVED.t, RecoverReserved(LATER - TIMEOUT), LATER) == REQUEUED
  {
    var t := Apply(RESERVED.t, RecoverReserved(LATER - TIMEOUT), LATER);
    assert t.rows == REQUEUED.rows && t.intents == REQUEUED.intents && t.txs == REQUEUED.txs;
  }

  lemma RequeuedReached()
    ensures Reached(State(REQUEUED, map[2 := G], map[]), true)
  {
    hide Apply, Reached;
    ReservedReached();
    RequeuedTables();
    Advance(RESERVED, Crash(1), 0, RESERVED.(calls := map[]), true);
    Advance(RESERVED.(calls := map[]), Commit(RecoverReserved(LATER - TIMEOUT)), LATER,
            State(REQUEUED, map[2 := G], map[]), true);
  }

  lemma FrozenTables()
    ensures ClaimIds(REQUEUED, G) == {1} && Apply(REQUEUED, Claim(G), LATER) == FROZEN
  {
    var t := Apply(REQUEUED, Claim(G), LATER);
    assert t.rows == FROZEN.rows && t.intents == FROZEN.intents && t.txs == FROZEN.txs;
  }

  lemma FrozenReached()
    ensures Reached(State(FROZEN, map[], map[]), true)
  {
    hide Apply, Reached, ClaimIds;
    RequeuedReached();
    FrozenTables();
    var s := State(FROZEN, map[], map[2 := Call(G, {1}, Entered)]);
    Advance(State(REQUEUED, map[2 := G], map[]), ClaimTarget(2), LATER, s, true);
    Advance(s, Crash(2), LATER, State(FROZEN, map[], map[]), true);
  }

  /**
   Two crashes freeze a group, in a disciplined run: the first after the reservation, the second
   after the row was recovered and claimed again.  The row is PROCESSING with an intent, which no
   recovery case matches.
   */
  lemma TwoCrashesFreezeARow()
    ensures exists s, row :: Reached(s, true) && Frozen(s, 1, row) && row.status == Processing
  {
    FrozenReached();
    assert Frozen(State(FROZEN, map[], map[]), 1, FROZEN_ROW);
  }

  // -------------------------------------------- a row left on a used intent

  /** The call that reserved intent 7 for row 1 has crashed; call 2 has claimed a second deposit of the group. */
  const ABANDONED := State(
    RESERVED.t.(rows := map[1 := RESERVED_ROW, 2 := ROW.(status := Processing)]),
    map[], map[2 := Call(G, {2}, Entered)])

  lemma AbandonedTables()
    ensures var t := RESERVED.t.(rows := map[1 := RESERVED_ROW, 2 := ROW]);
      && Apply(RESERVED.t, Arrive(2, G), 0) == t && ClaimIds(t, G) == {2}
      && Apply(t, Claim(G), 0) == ABANDONED.t
  {
    var t := RESERVED.t.(rows := map[1 := RESERVED_ROW, 2 := ROW]);
    var u := Apply(t, Claim(G), 0);
    assert u.rows == ABANDONED.t.rows && u.intents == ABANDONED.t.intents && u.txs == ABANDONED.t.txs;
  }

  lemma AbandonedReached()
    ensures Reached(ABANDONED, true)
  {
    hide Apply, ClaimIds, Reached;
    ReservedReached();
    AbandonedTables();
    var s1 := RESERVED.(calls := map[]);
    var s2 := s1.(t := RESERVED.t.(rows := map[1 := RESERVED_ROW, 2 := ROW]));
    Advance(RESERVED, Crash(1), 0, s1, true);
    Advance(s1, Commit(Arrive(2, G)), 0, s2, true);
    Advance(s2, ClaimTarget(2), 0, ABANDONED, true);
  }

  /** Call 2 has found the open intent 7 and linked its own batch to it. */
  const ADOPTED := State(
    RESERVED.t.(rows := map[1 := RESERVED_ROW, 2 := RESERVED_ROW]), map[], map[2 := Call(G, {2}, Reserved(7))])

  lemma AdoptedTables()
    ensures Apply(ABANDONED.t, Reuse({2}, 7), 0) == ADOPTED.t
  {
    var t := Apply(ABANDONED.t, Reuse({2}, 7), 0);
    assert t.rows == ADOPTED.t.rows && t.intents == ADOPTED.t.intents && t.txs == ADOPTED.t.txs;
  }

  lemma AdoptedReached()
    ensures Reached(ADOPTED, true)
  {
    hide Apply, Reached;
    AbandonedReached();
    ReusesOpen(ABANDONED, 2, 7, 0, true);
    AdoptedTables();
    assert ABANDONED.calls[2 := Call(G, {2}, Reserved(7))] == ADOPTED.calls;
  }

  /** The sweep of row 2 spends intent 7, and row 1 still waits on that intent. */
  const OUTLIVED := State(
    Tables(map[1 := RESERVED_ROW, 2 := RESERVED_ROW.(status := Broadcast, txid := Some(100))],
           map[7 := OPEN.(status := Broadcast, txid := Some(100))],
           map[100 := TX.(status := Broadcast)], map[1 := 1]), map[], map[])

  const SPENT := Tables(
    map[1 := RESERVED_ROW, 2 := RESERVED_ROW.(txid := Some(100))],
    map[7 := OPEN.(status := Signed, txid := Some(100))], map[100 := TX], map[1 := 1])

  lemma SpentTables()
    ensures Apply(ADOPTED.t, Persist({2}, 7, 100, G), 0) == SPENT
  {
    var t := Apply(ADOPTED.t, Persist({2}, 7, 100, G), 0);
    assert t.rows == SPENT.rows && t.intents == SPENT.intents && t.txs == SPENT.txs;
  }

  lemma OutlivedTables()
    ensures Apply(SPENT, Announce(7, 100), 0) == OUTLIVED.t
  {
    var t := Apply(SPENT, Announce(7, 100), 0);
    assert t.rows == OUTLIVED.t.rows && t.intents == OUTLIVED.t.intents && t.txs == OUTLIVED.t.txs;
  }

  lemma OutlivedReached()
    ensures Reached(OUTLIVED, true)
  {
    hide Apply, Reached;
    AdoptedReached();
    SignsAndAnnounces(ADOPTED, 2, 100, 0, true);
    SpentTables();
    OutlivedTables();
    assert ADOPTED.calls - {2} == map[];
  }

  /**
   One crash freezes a group, in a disciplined run: the crashed call had reserved an intent, and a
   call that had selected the group before spends that intent on a later deposit alone.  The first
   row stays SIGNING on an intent that is closed, which no recovery case matches.
   */
  lemma OneCrashFreezesARow()
    ensures exists s, row :: Reached(s, true) && Frozen(s, 1, row) && row.status == Signing
  {
    hide Reached;
    OutlivedReached();
    assert Frozen(OUTLIVED, 1, RESERVED_ROW);
  }

  // --------------------------------------- the lock ends with the claim

  const TWO_ROWS := RESERVED.t.(rows := map[1 := RESERVED_ROW, 2 := ROW.(status := Processing)])

  /** Call 2 claims a second deposit of the group while call 1 is live. */
  const BOTH_LIVE := State(TWO_ROWS, map[], map[1 := Call(G, {1}, Reserved(7)), 2 := Call(G, {2}, Entered)])

  lemma BothLiveReached()
    ensures Reached(BOTH_LIVE, false)
  {
    ReservedReached();
    Unsafely(RESERVED);
    var s1 := RESERVED.(t := RESERVED.t.(rows := map[1 := RESERVED_ROW, 2 := ROW]));
    Advance(RESERVED, Commit(Arrive(2, G)), 0, s1, false);
    assert ClaimIds(s1.t, G) == {2};
    Advance(s1, ClaimTarget(2), 0, BOTH_LIVE, false);
  }

  /** Both calls hold the same reserved intent. */
  const SHARED := State(
    RESERVED.t.(rows := map[1 := RESERVED_ROW, 2 := RESERVED_ROW]),
    map[], map[1 := Call(G, {1}, Reserved(7)), 2 := Call(G, {2}, Reserved(7))])

  lemma SharedTables()
    ensures Apply(TWO_ROWS, Reuse({2}, 7), 0) == SHARED.t
  {
    var t := Apply(TWO_ROWS, Reuse({2}, 7), 0);
    assert t.rows == SHARED.t.rows && t.intents == SHARED.t.intents && t.txs == SHARED.t.txs;
  }

  lemma SharedReached()
    ensures Reached(SHARED, false)
  {
    BothLiveReached();
    ReusesOpen(BOTH_LIVE, 2, 7, 0, false);
    SharedTables();
    assert BOTH_LIVE.calls[2 := Call(G, {2}, Reserved(7))] == SHARED.calls;
  }

  const ONCE_SIGNED := State(
    Tables(map[1 := RESERVED_ROW.(txid := Some(100)), 2 := RESERVED_ROW],
           map[7 := Intent(G, 0, Signed, Some(100))], map[100 := TX], map[1 := 1]),
    map[], map[1 := Call(G, {1}, Persisted(7, 100)), 2 := Call(G, {2}, Reserved(7))])

  lemma OnceSignedReached()
    ensures Reached(ONCE_SIGNED, false)
  {
    SharedReached();
    Advance(SHARED, PersistArtifact(1, 100), 0, ONCE_SIGNED, false);
  }

  /** Call 1 has persisted hash 100, and call 2 then hash 200, over the same intent. */
  const TWICE_SIGNED := State(
    Tables(map[1 := RESERVED_ROW.(txid := Some(100)), 2 := RESERVED_ROW.(txid := Some(200))],
           map[7 := Intent(G, 0, Signed, Some(200))], map[100 := TX, 200 := TX], map[1 := 1]),
    map[], map[1 := Call(G, {1}, Persisted(7, 100)), 2 := Call(G, {2}, Persisted(7, 200))])

  lemma TwiceSignedReached()
    ensures Reached(TWICE_SIGNED, false)
  {
    OnceSignedReached();
    Advance(ONCE_SIGNED, PersistArtifact(2, 200), 0, TWICE_SIGNED, false);
  }

  /**
   With the lock released at the claim, two calls can hold one group and sign two sweeps with one
   nonce; announcing the first then puts the intent out of step with the hash it carries.
   */
  lemma ReleasedLockSharesANonce()
    ensures exists s :: Reached(s, false) && !NoNonceShared(s.t) && !Lockstep(s.t)
  {
    TwiceSignedReached();
    var s := Do(TWICE_SIGNED, AnnounceSweep(1), 0);
    Advance(TWICE_SIGNED, AnnounceSweep(1), 0, s, false);
    assert s.t.intents[7] == Intent(G, 0, Broadcast, Some(200)) && s.t.txs[200] == TX;
    assert !IntentAgrees(s.t.intents[7], s.t.txs);
    assert s.t.txs[100].nonce == s.t.txs[200].nonce;
  }

  /** Call 1 stalls; its row is recovered, and call 2 claims, signs and broadcasts it. */
  const OVERTAKEN := State(
    Tables(map[1 := Row(G, Broadcast, Some(100), Some(7), LATER)], map[7 := Intent(G, 0, Broadcast, Some(100))],
           map[100 := TX.(status := Broadcast, updatedAt := LATER)], map[1 := 1]),
    map[], map[1 := Call(G, {1}, Entered)])

  /** Call 2 has claimed the recovered row while call 1 is stalled inside the provider. */
  const STALLED := State(
    ARRIVED.(rows := map[1 := ROW.(updatedAt := LATER, status := Processing)]), map[],
    map[1 := Call(G, {1}, Entered), 2 := Call(G, {1}, Entered)])

  lemma StalledReached()
    ensures Reached(STALLED, false)
  {
    ClaimedReached();
    Unsafely(CLAIMED);
    var s1 := CLAIMED.(t := ARRIVED.(rows := map[1 := ROW.(updatedAt := LATER)]));
    Advance(CLAIMED, Commit(RecoverUnreserved(LATER - TIMEOUT)), LATER, s1, false);
    assert ClaimIds(s1.t, G) == {1};
    Advance(s1, ClaimTarget(2), LATER, STALLED, false);
  }

  const OVERTAKING := State(
    RESERVED.t.(rows := map[1 := RESERVED_ROW.(updatedAt := LATER)]), map[],
    map[1 := Call(G, {1}, Entered), 2 := Call(G, {1}, Reserved(7))])

  lemma OvertakingReached()
    ensures Reached(OVERTAKING, false)
  {
    StalledReached();
    ReservesFresh(STALLED, 2, 7, LATER, false);
    OvertakingTables();
    assert STALLED.calls[2 := Call(G, {1}, Reserved(7))] == OVERTAKING.calls;
  }

  lemma OvertakingTables()
    ensures Apply(STALLED.t, Reserve({1}, 7, G, 0), LATER) == OVERTAKING.t
  {
    var t := Apply(STALLED.t, Reserve({1}, 7, G, 0), LATER);
    assert t.rows == OVERTAKING.t.rows && t.intents == OVERTAKING.t.intents && t.txs == OVERTAKING.t.txs;
  }

  /** What signing and announcing hash 100 makes of the tables in which row 1 reserved intent 7. */
  lemma SignedAndAnnounced(row: Row, at: Millis)
    requires row.group == G && row.status == Signing && row.txid == None && row.intent == Some(7)
    ensures var t := Tables(map[1 := row], map[7 := OPEN], map[], map[1 := 1]);
      Apply(Apply(t, Persist({1}, 7, 100, G), at), Announce(7, 100), at) ==
      Tables(map[1 := row.(status := Broadcast, txid := Some(100))], map[7 := Intent(G, 0, Broadcast, Some(100))],
             map[100 := TX.(status := Broadcast, updatedAt := at)], map[1 := 1])
  {
    var t := Tables(map[1 := row], map[7 := OPEN], map[], map[1 := 1]);
    var t1 := Tables(map[1 := row.(txid := Some(100))], map[7 := Intent(G, 0, Signed, Some(100))],
                     map[100 := TX.(updatedAt := at)], map[1 := 1]);
    assert Apply(t, Persist({1}, 7, 100, G), at) == t1;
  }

  lemma OvertakenReached()
    ensures Reached(OVERTAKEN, false)
  {
    OvertakingReached();
    SignsAndAnnounces(OVERTAKING, 2, 100, LATER, false);
    SignedAndAnnounced(RESERVED_ROW.(updatedAt := LATER), LATER);
    assert OVERTAKING.calls - {2} == OVERTAKEN.calls;
  }

  /** With the lock released, a stalled call hands a row whose sweep is already broadcast back to the queue. */
  lemma StalledCallRequeuesBroadcastRow()
    ensures exists s :: Reached(s, false) && !Lockstep(s.t) && ClaimableAt(s.t, 1) && Carries(s.t, 1, 100)
                     && TxStatus(s.t.txs, Some(100)) == Some(Broadcast)
  {
    OvertakenReached();
    var s1 := OVERTAKEN.(calls := map[1 := Call(G, {1}, Thrown(OtherError))]);
    Advance(OVERTAKEN, Raise(1, OtherError), LATER, s1, false);
    var s2 := Do(s1, Route(1), LATER);
    Advance(s1, Route(1), LATER, s2, false);
    assert s2.t.rows[1] == Row(G, Pending, Some(100), Some(7), LATER) && s2.t.txs == OVERTAKEN.t.txs;
    assert !RowAgrees(s2.t.rows[1], s2.t.txs);
  }

  /** Call 1 found no open intent before call 2 reserved intent 7 for the row both hold. */
  const OUTRUN := OVERTAKING.(calls := map[1 := Call(G, {1}, Allocating), 2 := Call(G, {1}, Reserved(7))])

  lemma OutrunReached()
    ensures Reached(OUTRUN, false)
  {
    hide Apply, Reached;
    StalledReached();
    var s1 := STALLED.(calls := map[1 := Call(G, {1}, Unsigned), 2 := Call(G, {1}, Entered)]);
    Advance(STALLED, Lookup(1, None), LATER, s1, false);
    var s2 := STALLED.(calls := map[1 := Call(G, {1}, Allocating), 2 := Call(G, {1}, Entered)]);
    Advance(s1, FindIntent(1, None), LATER, s2, false);
    ReservesFresh(s2, 2, 7, LATER, false);
    OvertakingTables();
    assert s2.calls[2 := Call(G, {1}, Reserved(7))] == OUTRUN.calls;
  }

  /**
   With the lock released, a reserved nonce is abandoned: call 1 relinks the row to a second
   intent with a second nonce while the first intent is still open.
   */
  lemma StalledCallAbandonsReservation()
    ensures exists s, s' :: Reached(s, false) && Next(s, ReserveNonce(1, 8, 0), LATER, s')
                         && LinkedTo(s.t, 1, 7) && 7 in s.t.intents && Open(s.t.intents[7])
                         && LinkedTo(s'.t, 1, 8) && 7 in s'.t.intents && Open(s'.t.intents[7])
  {
    OutrunReached();
    var s' := Do(OUTRUN, ReserveNonce(1, 8, 0), LATER);
    assert Next(OUTRUN, ReserveNonce(1, 8, 0), LATER, s');
    assert LinkedTo(s'.t, 1, 8) && 7 in s'.t.intents && s'.t.intents[7] == OPEN;
  }

  // ------------------------------------------ dust and a second target list

  /** Call 1 has put the row back as dust; call 2, from an earlier tick, still has the group on its list. */
  const DUSTED := State(ARRIVED.(rows := map[1 := ROW.(status := DeferredDust)]), map[2 := G], map[])

  lemma DustedReached()
    ensures Reached(DUSTED, true)
  {
    ClaimedReached();
    var s := CLAIMED.(calls := map[1 := Call(G, {1}, Thrown(Dust))]);
    Advance(CLAIMED, Raise(1, Dust), 0, s, true);
    Advance(s, Route(1), 0, DUSTED, true);
  }

  /** A call that selected the group before retries its deferred dust without any deposit. */
  lemma ScheduledCallRetriesDust()
    ensures exists s, s' :: Reached(s, true) && NonePending(s.t, G)
                         && 1 in s.t.rows && s.t.rows[1].status == DeferredDust
                         && Quiet(s, ClaimTarget(2)) && Disciplined(s, ClaimTarget(2)) && Next(s, ClaimTarget(2), 1, s')
                         && 2 in s'.calls && s'.calls[2] == Call(G, {1}, Entered)
  {
    DustedReached();
    assert ClaimIds(DUSTED.t, G) == {1};
    var s' := Do(DUSTED, ClaimTarget(2), 1);
    assert Next(DUSTED, ClaimTarget(2), 1, s') && NonePending(DUSTED.t, G);
    assert s'.calls[2] == Call(G, {1}, Entered);
  }

  // --------------------------------------------- the settlement race

  const SWEPT_ROW := Row(G, Confirmed, Some(100), Some(7), 0)
  const SWEPT_INTENT := Intent(G, 0, Confirmed, Some(100))
  const SWEPT_TX := Tx(G, 0, Confirmed, 0, Some(0), None, None)

  /** Row 1 is swept and confirmed by transaction 100. */
  const SWEPT := State(
    Tables(map[1 := SWEPT_ROW], map[7 := SWEPT_INTENT], map[100 := SWEPT_TX], map[1 := 1]), map[2 := G], map[])

  /** The sweep of row 1 is broadcast. */
  const ANNOUNCED := State(
    Tables(map[1 := SWEPT_ROW.(status := Broadcast)], map[7 := SWEPT_INTENT.(status := Broadcast)],
           map[100 := TX.(status := Broadcast)], map[1 := 1]), map[2 := G], map[])

  lemma AnnouncedReached()
    ensures Reached(ANNOUNCED, true)
  {
    ReservedReached();
    SignsAndAnnounces(RESERVED, 1, 100, 0, true);
    SignedAndAnnounced(RESERVED_ROW, 0);
    assert RESERVED.calls - {1} == map[];
  }

  /** The sweep was dropped from the network; row 1 waits for manual resolution. */
  const DROPPED := State(
    Tables(map[1 := Row(G, Reconciliation, Some(100), Some(7), 1)], map[7 := SWEPT_INTENT.(status := Reconciliation)],
           map[100 := TX.(status := StaleBroadcast, updatedAt := 1)], map[1 := 1]), map[2 := G], map[])

  lemma DroppedReached()
    ensures Reached(DROPPED, true)
  {
    AnnouncedReached();
    Advance(ANNOUNCED, Commit(Resolve(100, Dropped, StatusWorker)), 1, DROPPED, true);
  }

  /**
   A report that was read before the sweep was dropped and is written after it erases the hash
   and makes the row claimable, in a disciplined run.
   */
  lemma LateReportFreesADroppedRow()
    ensures exists s, s' :: Reached(s, true) && DroppedRow(s.t, 100, 1)
                         && Disciplined(s, Commit(Resolve(100, Reverted, StatusWorker)))
                         && Next(s, Commit(Resolve(100, Reverted, StatusWorker)), 2, s')
                         && ClaimableAt(s'.t, 1) && s'.t.rows[1].txid == None
  {
    DroppedReached();
    var a := Commit(Resolve(100, Reverted, StatusWorker));
    var s' := Do(DROPPED, a, 2);
    assert Next(DROPPED, a, 2, s') && DroppedRow(DROPPED.t, 100, 1);
    assert s'.t.rows[1] == Row(G, Pending, None, Some(7), 2);
  }

  lemma SweptReached()
    ensures Reached(SWEPT, true)
  {
    AnnouncedReached();
    Advance(ANNOUNCED, Commit(Resolve(100, Mined(None, None), StatusWorker)), 0, SWEPT, true);
  }

  /** A second deposit of the group has arrived and call 2 has claimed it. */
  const SECOND := State(
    SWEPT.t.(rows := map[1 := SWEPT_ROW, 2 := ROW.(status := Processing)]), map[], map[2 := Call(G, {2}, Entered)])

  lemma SecondTables()
    ensures var t := SWEPT.t.(rows := map[1 := SWEPT_ROW, 2 := ROW]);
      Apply(SWEPT.t, Arrive(2, G), 0) == t && Apply(t, Claim(G), 0) == SECOND.t
  {
    var t := SWEPT.t.(rows := map[1 := SWEPT_ROW, 2 := ROW]);
    var u := Apply(t, Claim(G), 0);
    assert u.rows == SECOND.t.rows && u.intents == SECOND.t.intents && u.txs == SECOND.t.txs;
  }

  lemma SecondReached()
    ensures Reached(SECOND, true)
  {
    hide Apply, Reached;
    SecondTables();
    SweptReached();
    var s1 := SWEPT.(t := SWEPT.t.(rows := map[1 := SWEPT_ROW, 2 := ROW]));
    Advance(SWEPT, Commit(Arrive(2, G)), 0, s1, true);
    assert ClaimIds(s1.t, G) == {2};
    Advance(s1, ClaimTarget(2), 0, SECOND, true);
  }

  /** Call 2 read transaction 100 as the explanation of its zero balance, and 100 was reverted since. */
  const REVERTED := State(
    Tables(map[1 := Row(G, Pending, None, Some(7), 1), 2 := ROW.(status := Processing)],
           map[7 := SWEPT_INTENT.(status := Failed)],
           map[100 := SWEPT_TX.(status := Failed, updatedAt := 1)], map[1 := 1]),
    map[], map[2 := Call(G, {2}, Thrown(SettledBy(100)))])

  lemma ExplainedReached()
    ensures Reached(SECOND.(calls := REVERTED.calls), true)
  {
    SecondReached();
    assert Carries(SECOND.t, 1, 100) && SECOND.t.rows[1].group == G;
    Advance(SECOND, Raise(2, SettledBy(100)), 0, SECOND.(calls := REVERTED.calls), true);
  }

  lemma RevertedTables()
    ensures Apply(SECOND.t, Resolve(100, Reverted, StatusWorker), 1) == REVERTED.t
  {
    var t := Apply(SECOND.t, Resolve(100, Reverted, StatusWorker), 1);
    assert t.rows == REVERTED.t.rows && t.intents == REVERTED.t.intents && t.txs == REVERTED.t.txs;
  }

  lemma RevertedReached()
    ensures Reached(REVERTED, true)
  {
    hide Apply, Reached;
    ExplainedReached();
    RevertedTables();
    Advance(SECOND.(calls := REVERTED.calls), Commit(Resolve(100, Reverted, StatusWorker)), 1, REVERTED, true);
  }

  /**
   The settlement is written against a sweep that was CONFIRMED when it was read and has been
   reverted since: the row ends CONFIRMED on a FAILED transaction, which no worker visits again.
   */
  lemma SettlementRace()
    ensures exists s, s' :: Reached(s, true) && Next(s, Route(2), 2, s') && !Lockstep(s'.t) && 2 in s'.t.rows
                         && s'.t.rows[2] == Row(G, Confirmed, Some(100), None, 2)
                         && TxStatus(s'.t.txs, Some(100)) == Some(Failed)
  {
    RevertedReached();
    var s' := Do(REVERTED, Route(2), 2);
    assert Next(REVERTED, Route(2), 2, s');
    assert s'.t.rows[2] == Row(G, Confirmed, Some(100), None, 2) && s'.t.txs == REVERTED.t.txs;
    assert !RowAgrees(s'.t.rows[2], s'.t.txs);
  }

  // -------------------------------- an escalated intent and a settled row

  const SECOND_OPEN := Intent(G, 1, Signing, None)

  /** Call 2 reserved nonce 1 in intent 8 and crashed; its row was recovered. */
  const RECOVERED := Tables(
    map[1 := SWEPT_ROW, 2 := ROW.(intent := Some(8), updatedAt := LATER)],
    map[7 := SWEPT_INTENT, 8 := SECOND_OPEN], map[100 := SWEPT_TX], map[1 := 2])

  const CRASHED := RECOVERED.(rows := map[1 := SWEPT_ROW, 2 := ROW.(status := Signing, intent := Some(8))])

  lemma CrashedTables()
    ensures Apply(SECOND.t, Reserve({2}, 8, G, 0), 0) == CRASHED
  {
    var t := Apply(SECOND.t, Reserve({2}, 8, G, 0), 0);
    assert t.rows == CRASHED.rows && t.intents == CRASHED.intents && t.txs == CRASHED.txs && t.nonces == CRASHED.nonces;
  }

  lemma CrashedReached()
    ensures Reached(State(CRASHED, map[], map[]), true)
  {
    hide Apply, Reached;
    SecondReached();
    ReservesFresh(SECOND, 2, 8, 0, true);
    CrashedTables();
    var s := State(CRASHED, map[], map[2 := Call(G, {2}, Reserved(8))]);
    assert SECOND.calls[2 := Call(G, {2}, Reserved(8))] == s.calls;
    Advance(s, Crash(2), 0, State(CRASHED, map[], map[]), true);
  }

  lemma RecoveredTables()
    ensures Apply(CRASHED, RecoverReserved(LATER - TIMEOUT), LATER) == RECOVERED
  {
    var t := Apply(CRASHED, RecoverReserved(LATER - TIMEOUT), LATER);
    assert t.rows == RECOVERED.rows && t.intents == RECOVERED.intents && t.txs == RECOVERED.txs;
  }

  lemma RecoveredReached()
    ensures Reached(State(RECOVERED, map[], map[]), true)
  {
    hide Apply, Reached;
    CrashedReached();
    RecoveredTables();
    Advance(State(CRASHED, map[], map[]), Commit(RecoverReserved(LATER - TIMEOUT)), LATER,
            State(RECOVERED, map[], map[]), true);
  }

  /** Call 3 claimed the recovered row. */
  const RECLAIMED := State(
    RECOVERED.(rows := map[1 := SWEPT_ROW, 2 := Row(G, Processing, None, Some(8), LATER)]),
    map[], map[3 := Call(G, {2}, Entered)])

  lemma ReselectedReached()
    ensures Reached(State(RECOVERED, map[3 := G], map[]), true)
  {
    RecoveredReached();
    assert RECOVERED.rows[2].group == G && RECOVERED.rows[2].status == Pending;
    Advance(State(RECOVERED, map[], map[]), Select(3, G), LATER, State(RECOVERED, map[3 := G], map[]), true);
  }

  lemma ReclaimedIds()
    ensures ClaimIds(RECOVERED, G) == {2}
  {
  }

  lemma ReclaimedTables()
    ensures Apply(RECOVERED, Claim(G), LATER) == RECLAIMED.t
  {
    hide ClaimIds;
    var t := Apply(RECOVERED, Claim(G), LATER);
    assert t.rows == RECLAIMED.t.rows && t.intents == RECLAIMED.t.intents && t.txs == RECLAIMED.t.txs;
  }

  lemma ReclaimedReached()
    ensures Reached(RECLAIMED, true)
  {
    hide Apply, ClaimIds, Reached;
    ReselectedReached();
    ReclaimedIds();
    ReclaimedTables();
    Advance(State(RECOVERED, map[3 := G], map[]), ClaimTarget(3), LATER, RECLAIMED, true);
  }

  const SETTLED_ROW := Row(G, Confirmed, Some(100), Some(8), LATER)
  const SETTLED := RECOVERED.(rows := map[1 := SWEPT_ROW, 2 := SETTLED_ROW])

  const SETTLING := RECLAIMED.(calls := map[3 := Call(G, {2}, Thrown(SettledBy(100)))])

  lemma SettlingReached()
    ensures Reached(SETTLING, true)
  {
    ReclaimedReached();
    assert Carries(RECLAIMED.t, 1, 100) && RECLAIMED.t.rows[1].group == G;
    Advance(RECLAIMED, Raise(3, SettledBy(100)), LATER, SETTLING, true);
  }

  lemma SettledTables()
    ensures Apply(RECLAIMED.t, Settle({2}, 100), LATER) == SETTLED
  {
    var t := Apply(RECLAIMED.t, Settle({2}, 100), LATER);
    assert t.rows == SETTLED.rows && t.intents == SETTLED.intents && t.txs == SETTLED.txs;
  }

  lemma SettledReached()
    ensures Reached(State(SETTLED, map[], map[]), true)
  {
    hide Apply, Reached;
    SettlingReached();
    SettledTables();
    Advance(SETTLING, Route(3), LATER, State(SETTLED, map[], map[]), true);
  }

  /** Row 2 was settled by transaction 100 while its intent 8 stayed open; call 4 has claimed row 3. */
  const SETTLED_OPEN := State(
    SETTLED.(rows := map[1 := SWEPT_ROW, 2 := SETTLED_ROW, 3 := ROW.(status := Processing, updatedAt := LATER)]),
    map[], map[4 := Call(G, {3}, Entered)])

  const THIRD := SETTLED.(rows := map[1 := SWEPT_ROW, 2 := SETTLED_ROW, 3 := ROW.(updatedAt := LATER)])

  lemma ThirdReached()
    ensures Reached(State(THIRD, map[4 := G], map[]), true)
  {
    SettledReached();
    Advance(State(SETTLED, map[], map[]), Commit(Arrive(3, G)), LATER, State(THIRD, map[], map[]), true);
    assert THIRD.rows[3].group == G && THIRD.rows[3].status == Pending;
    Advance(State(THIRD, map[], map[]), Select(4, G), LATER, State(THIRD, map[4 := G], map[]), true);
  }

  lemma ThirdClaimedTables()
    ensures Apply(THIRD, Claim(G), LATER) == SETTLED_OPEN.t
  {
    hide ClaimIds;
    var t := Apply(THIRD, Claim(G), LATER);
    assert t.rows == SETTLED_OPEN.t.rows && t.intents == SETTLED_OPEN.t.intents;
  }

  lemma ThirdClaimIds()
    ensures ClaimIds(THIRD, G) == {3}
  {
  }

  lemma SettledOpenReached()
    ensures Reached(SETTLED_OPEN, true)
  {
    hide Apply, ClaimIds, Reached;
    ThirdReached();
    ThirdClaimedTables();
    ThirdClaimIds();
    Advance(State(THIRD, map[4 := G], map[]), ClaimTarget(4), LATER, SETTLED_OPEN, true);
  }

  /** Call 4 has found the open intent 8. */
  const FOUND_OPEN := SETTLED_OPEN.(calls := map[4 := Call(G, {3}, Reusing(8))])

  lemma FoundOpenReached()
    ensures Reached(FOUND_OPEN, true)
  {
    SettledOpenReached();
    ReusesOpen(SETTLED_OPEN, 4, 8, LATER, true);
    assert SETTLED_OPEN.calls[4 := Call(G, {3}, Reusing(8))] == FOUND_OPEN.calls;
  }

  /** Escalating the open intent of a settled row pulls a CONFIRMED row out of step with its CONFIRMED sweep. */
  lemma EscalationReopensSettledRow()
    ensures exists s, s' :: Reached(s, true) && Next(s, EscalateIntent(4), LATER, s') && !Lockstep(s'.t)
  {
    FoundOpenReached();
    var s' := Do(FOUND_OPEN, EscalateIntent(4), LATER);
    assert Next(FOUND_OPEN, EscalateIntent(4), LATER, s');
    assert s'.t.rows[2] == Row(G, Reconciliation, Some(100), Some(8), LATER) && s'.t.txs == FOUND_OPEN.t.txs;
    assert !RowAgrees(s'.t.rows[2], s'.t.txs);
  }
}

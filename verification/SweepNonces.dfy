/**
 When two recorded sweeps spend one nonce.  The reservation of nonces is sound in every run;
 what the provider does not check is that the intent it signs for has no artifact yet.  With
 that check in the UPDATE that stores an artifact no nonce is ever shared; without it, one is
 shared exactly when the check would have failed.
 */
module SweepNonces {
  import opened Options
  import opened SweepTables
  import opened SweepLockstep
  import opened SweepProtocol
  import opened SweepGroups

  /** No two recorded sweeps of a network spend one nonce. */
  ghost predicate NoNonceShared(t: Tables) {
    forall h, k :: h in t.txs && k in t.txs && h != k && t.txs[h].group.network == t.txs[k].group.network ==>
      t.txs[h].nonce != t.txs[k].nonce
  }

  predicate Spends(tx: Tx, intent: Intent) {
    tx.group.network == intent.group.network && tx.nonce == intent.nonce
  }

  ghost predicate ArtifactsSpend(t: Tables) {
    forall i :: i in t.intents && t.intents[i].txid.Some? ==>
      t.intents[i].txid.value in t.txs && Spends(t.txs[t.intents[i].txid.value], t.intents[i])
  }

  ghost predicate SpentBySome(t: Tables, tx: Tx) {
    exists i :: i in t.intents && t.intents[i].txid.Some? && Spends(tx, t.intents[i])
  }

  ghost predicate EveryTxSpends(t: Tables) {
    forall h :: h in t.txs ==> SpentBySome(t, t.txs[h])
  }

  /** One nonce per intent, below the counter; every recorded sweep spends the nonce of an intent with an artifact. */
  ghost predicate NonceInv(t: Tables) {
    NoncesBelow(t) && NoncesDistinct(t) && ArtifactsSpend(t) && EveryTxSpends(t)
  }

  /** Storing an artifact finds its intent without one: the clause the UPDATE lacks. */
  predicate SignsOnce(t: Tables, w: Write) {
    w.Persist? && w.hash !in t.txs && w.intent in t.intents ==> t.intents[w.intent].txid == None
  }

  /** An artifact is signed for the network of its intent. */
  predicate SameNetwork(t: Tables, w: Write) {
    w.Persist? && w.intent in t.intents ==> t.intents[w.intent].group.network == w.group.network
  }

  // ----------------------------------------------------------- the invariant

  /** Intents keep nonce and group, and an artifact is never taken from one. */
  lemma IntentsKeep(t: Tables, w: Write, now: Millis, i: IntentId)
    requires Ready(t, w) && i in t.intents
    ensures var u := Apply(t, w, now);
      && i in u.intents && u.intents[i].nonce == t.intents[i].nonce && u.intents[i].group == t.intents[i].group
      && (t.intents[i].txid.Some? ==> u.intents[i].txid.Some?)
      && (u.intents[i].txid == t.intents[i].txid
          || (w.Persist? && w.hash !in t.txs && w.intent == i && u.intents[i].txid == Some(w.hash)))
  {
    IntentAt(t, w, now, i);
  }

  lemma NewIntents(t: Tables, w: Write, now: Millis, i: IntentId)
    requires Ready(t, w) && i in Apply(t, w, now).intents && i !in t.intents
    ensures w.Reserve? && w.intent == i && Apply(t, w, now).intents[i] == NewIntent(t, w.group, w.chainNonce)
  {
  }

  lemma TxsKeep(t: Tables, w: Write, now: Millis)
    requires Ready(t, w)
    ensures forall h :: h in t.txs ==>
      && h in Apply(t, w, now).txs
      && Apply(t, w, now).txs[h].nonce == t.txs[h].nonce && Apply(t, w, now).txs[h].group == t.txs[h].group
    ensures forall h :: h in Apply(t, w, now).txs && h !in t.txs ==>
      w.Persist? && w.hash == h && Apply(t, w, now).txs[h] == NewTx(t, w.intent, w.group, now)
    ensures w.Persist? ==> w.hash in Apply(t, w, now).txs
  {
  }

  lemma CountersGrow(t: Tables, w: Write, now: Millis)
    ensures forall n :: n in t.nonces ==> n in Apply(t, w, now).nonces && t.nonces[n] <= Apply(t, w, now).nonces[n]
    ensures w.Reserve? ==>
      && w.group.network in Apply(t, w, now).nonces
      && Apply(t, w, now).nonces[w.group.network] == NextNonce(t, w.group.network, w.chainNonce) + 1
  {
  }

  lemma WriteKeepsBelow(t: Tables, w: Write, now: Millis)
    requires Ready(t, w) && NoncesBelow(t)
    ensures NoncesBelow(Apply(t, w, now))
  {
    var u := Apply(t, w, now);
    CountersGrow(t, w, now);
    forall i | i in u.intents
      ensures u.intents[i].group.network in u.nonces && u.intents[i].nonce < u.nonces[u.intents[i].group.network]
    {
      hide Apply;
      if i in t.intents {
        IntentsKeep(t, w, now, i);
      } else {
        NewIntents(t, w, now, i);
      }
    }
  }

  /** A fresh nonce is none of the network's: the counter is above them all, and without a counter there are none. */
  lemma WriteKeepsDistinct(t: Tables, w: Write, now: Millis)
    requires Ready(t, w) && NoncesBelow(t) && NoncesDistinct(t)
    ensures NoncesDistinct(Apply(t, w, now))
  {
    var u := Apply(t, w, now);
    forall i, j | i in u.intents && j in u.intents && i != j && u.intents[i].group.network == u.intents[j].group.network
      ensures u.intents[i].nonce != u.intents[j].nonce
    {
      hide Apply;
      if i in t.intents { IntentsKeep(t, w, now, i); } else { NewIntents(t, w, now, i); }
      if j in t.intents { IntentsKeep(t, w, now, j); } else { NewIntents(t, w, now, j); }
    }
  }

  lemma WriteKeepsArtifacts(t: Tables, w: Write, now: Millis)
    requires Ready(t, w) && ArtifactsSpend(t) && SameNetwork(t, w)
    ensures ArtifactsSpend(Apply(t, w, now))
  {
    hide Apply;
    var u := Apply(t, w, now);
    TxsKeep(t, w, now);
    forall i | i in u.intents && u.intents[i].txid.Some?
      ensures u.intents[i].txid.value in u.txs && Spends(u.txs[u.intents[i].txid.value], u.intents[i])
    {
      if i in t.intents {
        IntentsKeep(t, w, now, i);
      } else {
        NewIntents(t, w, now, i);
      }
    }
  }

  lemma WriteKeepsSpends(t: Tables, w: Write, now: Millis)
    requires Ready(t, w) && EveryTxSpends(t) && SameNetwork(t, w)
    ensures EveryTxSpends(Apply(t, w, now))
  {
    hide Apply;
    var u := Apply(t, w, now);
    TxsKeep(t, w, now);
    forall h | h in u.txs ensures SpentBySome(u, u.txs[h]) {
      if h in t.txs {
        assert SpentBySome(t, t.txs[h]);
        var i :| i in t.intents && t.intents[i].txid.Some? && Spends(t.txs[h], t.intents[i]);
        IntentsKeep(t, w, now, i);
        assert Spends(u.txs[h], u.intents[i]);
      } else {
        PersistedIntent(t, w, now);
        assert Spends(u.txs[h], u.intents[w.intent]);
      }
    }
  }

  lemma PersistedIntent(t: Tables, w: Write, now: Millis)
    requires Ready(t, w) && w.Persist? && w.hash !in t.txs
    ensures var u := Apply(t, w, now);
      && w.intent in u.intents && u.intents[w.intent].txid == Some(w.hash)
      && u.intents[w.intent].nonce == t.intents[w.intent].nonce
      && u.intents[w.intent].group == t.intents[w.intent].group
  {
  }

  lemma WriteKeepsNonceInv(t: Tables, w: Write, now: Millis)
    requires NonceInv(t) && Ready(t, w) && SameNetwork(t, w)
    ensures NonceInv(Apply(t, w, now))
  {
    hide Apply, NoncesBelow, NoncesDistinct, ArtifactsSpend, EveryTxSpends;
    WriteKeepsBelow(t, w, now);
    WriteKeepsDistinct(t, w, now);
    WriteKeepsArtifacts(t, w, now);
    WriteKeepsSpends(t, w, now);
  }

  // ---------------------------------------------------- the exact condition

  /** A write makes two sweeps share a nonce exactly when it stores a second artifact over an intent. */
  lemma WriteSharesNonceIff(t: Tables, w: Write, now: Millis)
    requires NonceInv(t) && NoNonceShared(t) && Ready(t, w) && SameNetwork(t, w)
    ensures NoNonceShared(Apply(t, w, now)) <==> SignsOnce(t, w)
  {
    hide Apply;
    var u := Apply(t, w, now);
    TxsKeep(t, w, now);
    if w.Persist? && w.hash !in t.txs {
      assert u.txs[w.hash] == NewTx(t, w.intent, w.group, now);
      if t.intents[w.intent].txid.Some? {
        var k := t.intents[w.intent].txid.value;
        assert k in u.txs && k != w.hash && u.txs[k].nonce == u.txs[w.hash].nonce;
      } else {
        forall k | k in t.txs && t.txs[k].group.network == w.group.network
          ensures t.txs[k].nonce != u.txs[w.hash].nonce
        {
          assert SpentBySome(t, t.txs[k]);
          var i :| i in t.intents && t.intents[i].txid.Some? && Spends(t.txs[k], t.intents[i]);
          assert i != w.intent;
        }
      }
    }
  }

  /** The artifact of a call is stored for an intent that exists, on the call's own network. */
  lemma ActionsSignInGroup(s: State, a: Action)
    requires GroupInv(s) && Enabled(s, a) && WriteOf(s, a).Some?
    ensures SameNetwork(s.t, WriteOf(s, a).value)
  {
    if a.PersistArtifact? {
      assert CallInGroup(s.t, s.calls[a.call]);
    }
  }

  /** The intent for which a call stores a new artifact has none yet. */
  predicate SignsFresh(s: State, a: Action) {
    a.PersistArtifact? && a.call in s.calls && s.calls[a.call].phase.Reserved?
      && s.calls[a.call].phase.intent in s.t.intents && a.hash !in s.t.txs
    ==> s.t.intents[s.calls[a.call].phase.intent].txid == None
  }

  lemma StepSharesNonceIff(s: State, a: Action, now: Millis)
    requires GroupInv(s) && NonceInv(s.t) && NoNonceShared(s.t) && Enabled(s, a)
    ensures NoNonceShared(Do(s, a, now).t) <==> SignsFresh(s, a)
  {
    hide Apply, NonceInv, NoNonceShared, GroupInv;
    if WriteOf(s, a).Some? {
      WriteIsReady(s, a);
      ActionsSignInGroup(s, a);
      WriteSharesNonceIff(s.t, WriteOf(s, a).value, now);
    }
  }

  lemma StepKeepsNonceInv(s: State, a: Action, now: Millis)
    requires GroupInv(s) && NonceInv(s.t) && Enabled(s, a)
    ensures NonceInv(Do(s, a, now).t)
  {
    hide Apply, NonceInv, GroupInv;
    if WriteOf(s, a).Some? {
      WriteIsReady(s, a);
      ActionsSignInGroup(s, a);
      WriteKeepsNonceInv(s.t, WriteOf(s, a).value, now);
    }
  }

  /** In every run, however many calls are live on a group: nonces are reserved once each. */
  lemma {:induction false} RunKeepsNonceInv(states: seq<State>, log: seq<Stamped>, n: nat)
    requires Trace(states, log) && GroupInv(states[0]) && NonceInv(states[0].t) && n < |states|
    ensures NonceInv(states[n].t)
  {
    hide GroupInv, NonceInv, Enabled, Do;
    if n > 0 {
      RunKeepsNonceInv(states, log, n - 1);
      RunKeepsGroups(states, log, n - 1);
      assert Next(states[n - 1], log[n - 1].action, log[n - 1].now, states[n - 1 + 1]);
      StepKeepsNonceInv(states[n - 1], log[n - 1].action, log[n - 1].now);
    }
  }

  lemma {:induction false} FreshSignaturesShareNothing(states: seq<State>, log: seq<Stamped>, n: nat)
    requires Trace(states, log) && n < |states|
    requires GroupInv(states[0]) && NonceInv(states[0].t) && NoNonceShared(states[0].t)
    requires forall k :: 0 <= k < |log| ==> SignsFresh(states[k], log[k].action)
    ensures NoNonceShared(states[n].t)
  {
    hide GroupInv, NonceInv, NoNonceShared, Enabled, Do, SignsFresh;
    if n > 0 {
      FreshSignaturesShareNothing(states, log, n - 1);
      RunKeepsGroups(states, log, n - 1);
      RunKeepsNonceInv(states, log, n - 1);
      assert Next(states[n - 1], log[n - 1].action, log[n - 1].now, states[n - 1 + 1]);
      StepSharesNonceIff(states[n - 1], log[n - 1].action, log[n - 1].now);
    }
  }

  lemma InitialNonceInv()
    ensures GroupInv(INITIAL) && NonceInv(INITIAL.t) && NoNonceShared(INITIAL.t)
  {
  }

  /**
   Over every run from empty tables, with any number of calls live on a group, stalled, overtaken
   or crashed: no two sweeps ever share a nonce if and only if every artifact was stored over an
   intent without one.
   */
  lemma NonceNeverSharedIff(states: seq<State>, log: seq<Stamped>)
    requires Trace(states, log) && states[0] == INITIAL
    ensures (forall k :: 0 <= k < |states| ==> NoNonceShared(states[k].t))
       <==> (forall k :: 0 <= k < |log| ==> SignsFresh(states[k], log[k].action))
  {
    hide GroupInv, NonceInv, NoNonceShared, SignsFresh, Enabled, Do;
    InitialNonceInv();
    if forall k :: 0 <= k < |states| ==> NoNonceShared(states[k].t) {
      forall k | 0 <= k < |log| ensures SignsFresh(states[k], log[k].action) {
        RunKeepsGroups(states, log, k);
        RunKeepsNonceInv(states, log, k);
        assert Next(states[k], log[k].action, log[k].now, states[k + 1]);
        StepSharesNonceIff(states[k], log[k].action, log[k].now);
      }
    }
    if forall k :: 0 <= k < |log| ==> SignsFresh(states[k], log[k].action) {
      forall n | 0 <= n < |states| ensures NoNonceShared(states[n].t) {
        FreshSignaturesShareNothing(states, log, n);
      }
    }
  }
}

/**
 Every disciplined step keeps the protocol invariant: lockstep, resolved links, one open
 intent per group, and one nonce per intent and per artifact.
 */
module SweepInvariant {
  import opened Options
  import opened SweepTables
  import opened SweepLockstep
  import opened SweepProtocol

  // ------------------------------------------ writes that only move statuses

  /** The links of the tables are untouched: only row statuses and timestamps may differ. */
  ghost predicate SameLinks(t: Tables, u: Tables) {
    && u.rows.Keys == t.rows.Keys && u.intents == t.intents && u.txs == t.txs && u.nonces == t.nonces
    && forall r :: r in t.rows ==>
         u.rows[r].group == t.rows[r].group && u.rows[r].intent == t.rows[r].intent && u.rows[r].txid == t.rows[r].txid
  }

  predicate StatusOnly(w: Write) {
    w.Claim? || w.RecoverUnreserved? || w.RecoverReserved? || w.RecoverArtifact? || w.Mark?
  }

  lemma StatusOnlyKeepsLinks(t: Tables, w: Write, now: Millis)
    requires StatusOnly(w)
    ensures SameLinks(t, Apply(t, w, now))
  {
    assert Apply(t, w, now).intents == t.intents;
    assert Apply(t, w, now).txs == t.txs;
  }

  lemma SameLinksKeepTables(t: Tables, u: Tables)
    requires TablesInv(t) && SameLinks(t, u) && Lockstep(u)
    ensures TablesInv(u)
  {
  }

  lemma SameLinksKeepCall(t: Tables, u: Tables, call: Call)
    requires SameLinks(t, u) && CallFits(t, call)
    ensures CallFits(u, call)
  {
  }

  /** An unannounced row is safe to write to: it is unsettled and carries no dropped hash. */
  lemma UnannouncedIsFree(t: Tables, row: Row)
    requires RowAgrees(row, t.txs) && Unannounced(t, row)
    ensures Unsettled(row) && !CarriesDropped(t, row)
  {
  }

  lemma BatchIsFree(t: Tables, call: Call)
    requires Lockstep(t) && BatchOwned(t, call)
    ensures forall r :: r in call.ids && r in t.rows ==> Unsettled(t.rows[r]) && !CarriesDropped(t, t.rows[r])
  {
    forall r | r in call.ids && r in t.rows ensures Unsettled(t.rows[r]) && !CarriesDropped(t, t.rows[r]) {
      assert RowAgrees(t.rows[r], t.txs);
      UnannouncedIsFree(t, t.rows[r]);
    }
  }

  // --------------------------------------------- writes within one group

  /** Everything that differs between `t` and `u` belongs to group `g`. */
  ghost predicate OnlyGroup(t: Tables, u: Tables, g: Group) {
    && (forall r :: r in t.rows ==> r in u.rows && u.rows[r].group == t.rows[r].group &&
                                    (t.rows[r].group != g ==> u.rows[r] == t.rows[r]))
    && (forall i :: i in t.intents ==> i in u.intents && u.intents[i].group == t.intents[i].group &&
                                       (t.intents[i].group != g ==> u.intents[i] == t.intents[i]))
    && (forall i :: i in u.intents && i !in t.intents ==> u.intents[i].group == g)
    && (forall h :: h in t.txs ==> h in u.txs && u.txs[h].group == t.txs[h].group &&
                                   (t.txs[h].group != g ==> u.txs[h] == t.txs[h]))
  }

  lemma OtherGroupKeepsCall(t: Tables, u: Tables, g: Group, call: Call)
    requires OnlyGroup(t, u, g) && RowLinks(t) && IntentLinks(t)
    requires call.group != g && CallFits(t, call)
    ensures CallFits(u, call)
  {
    forall r | r in call.ids ensures r in u.rows && u.rows[r] == t.rows[r] && Unannounced(u, u.rows[r]) {
      assert r in t.rows && t.rows[r].group == call.group;
    }
    match call.phase
    case Allocating =>
      forall i | i in u.intents ensures !OpenFor(u, i, call.group) {
        if i in t.intents {
          assert !OpenFor(t, i, call.group);
        }
      }
    case _ =>
  }

  // ---------------------------------------------------- the tables themselves

  /** Intents and transactions keep their keys, groups, nonces and hashes; no intent becomes open. */
  ghost predicate IntentsKept(t: Tables, u: Tables) {
    && u.intents.Keys == t.intents.Keys && u.txs.Keys == t.txs.Keys && u.nonces == t.nonces
    && (forall i :: i in t.intents ==>
          && u.intents[i].group == t.intents[i].group && u.intents[i].nonce == t.intents[i].nonce
          && u.intents[i].txid == t.intents[i].txid
          && (u.intents[i].status == Signing ==> t.intents[i].status == Signing))
    && (forall h :: h in t.txs ==> u.txs[h].group == t.txs[h].group && u.txs[h].nonce == t.txs[h].nonce)
  }

  /** What `Apply` leaves of the rows, for the writes that insert none. */
  lemma RowEffects(t: Tables, w: Write, now: Millis)
    requires Ready(t, w) && !w.Arrive? && !w.Allocate?
    ensures Apply(t, w, now).rows.Keys == t.rows.Keys
    ensures forall r :: r in t.rows ==> Apply(t, w, now).rows[r] == RowUpdate(t, w, r, t.rows[r], now)
  {
  }

  /** The writes of a call on group `g` address rows, intents and transactions of `g` only. */
  ghost predicate Within(t: Tables, w: Write, g: Group) {
    match w
    case Reserve(ids, i, g', _) => g' == g && (forall r :: r in ids ==> r in t.rows && t.rows[r].group == g)
    case Reuse(ids, i) => OpenFor(t, i, g) && forall r :: r in ids ==> r in t.rows && t.rows[r].group == g
    case Persist(ids, i, _, g') =>
      g' == g && OpenFor(t, i, g) && (forall r :: r in ids ==> r in t.rows && t.rows[r].group == g)
    case Announce(i, h) => i in t.intents && t.intents[i].group == g && h in t.txs && t.txs[h].group == g
    case Resolve(h, _, _) => h in t.txs && t.txs[h].group == g
    case Review(i) => OpenFor(t, i, g)
    case Settle(ids, h) =>
      h in t.txs && t.txs[h].group == g && forall r :: r in ids ==> r in t.rows && t.rows[r].group == g
    case _ => false
  }

  lemma RowsStayInGroup(t: Tables, w: Write, g: Group, now: Millis, r: RowId)
    requires Ready(t, w) && Within(t, w, g) && RowLinks(t) && r in t.rows
    ensures RowUpdate(t, w, r, t.rows[r], now).group == t.rows[r].group
    ensures t.rows[r].group != g ==> RowUpdate(t, w, r, t.rows[r], now) == t.rows[r]
  {
  }

  lemma IntentsStayInGroup(t: Tables, w: Write, g: Group, i: IntentId)
    requires Ready(t, w) && Within(t, w, g) && IntentLinks(t) && i in t.intents
    ensures IntentUpdate(t, w, i, t.intents[i]).group == t.intents[i].group
    ensures t.intents[i].group != g ==> IntentUpdate(t, w, i, t.intents[i]) == t.intents[i]
  {
  }

  lemma WriteStaysInGroup(t: Tables, w: Write, g: Group, now: Millis)
    requires Ready(t, w) && Within(t, w, g) && RowLinks(t) && IntentLinks(t)
    ensures OnlyGroup(t, Apply(t, w, now), g)
  {
    var u := Apply(t, w, now);
    forall r | r in t.rows
      ensures r in u.rows && u.rows[r].group == t.rows[r].group && (t.rows[r].group != g ==> u.rows[r] == t.rows[r])
    {
      RowAt(t, w, now, r);
      RowsStayInGroup(t, w, g, now, r);
    }
    forall i | i in t.intents
      ensures i in u.intents && u.intents[i].group == t.intents[i].group
      ensures t.intents[i].group != g ==> u.intents[i] == t.intents[i]
    {
      IntentAt(t, w, now, i);
      IntentsStayInGroup(t, w, g, i);
    }
    NewIntentsInGroup(t, w, g, now);
    TxsStayInGroup(t, w, g, now);
  }

  lemma NewIntentsInGroup(t: Tables, w: Write, g: Group, now: Millis)
    requires Ready(t, w) && Within(t, w, g)
    ensures forall i :: i in Apply(t, w, now).intents && i !in t.intents ==> Apply(t, w, now).intents[i].group == g
  {
  }

  lemma TxsStayInGroup(t: Tables, w: Write, g: Group, now: Millis)
    requires Ready(t, w) && Within(t, w, g)
    ensures forall h :: h in t.txs ==> h in Apply(t, w, now).txs && Apply(t, w, now).txs[h].group == t.txs[h].group
    ensures forall h :: h in t.txs && t.txs[h].group != g ==> Apply(t, w, now).txs[h] == t.txs[h]
  {
  }

  // ------------------------------------------------- links after a write

  lemma RowsRelinkedBy(t: Tables, w: Write, g: Group, now: Millis)
    requires Ready(t, w) && Within(t, w, g) && RowLinks(t) && IntentLinks(t)
    ensures RowLinks(Apply(t, w, now))
  {
    var u := Apply(t, w, now);
    WriteStaysInGroup(t, w, g, now);
    RowEffects(t, w, now);
    InsertedInGroup(t, w, g, now);
    forall r | r in u.rows ensures RowLinked(u, u.rows[r]) {
      assert RowLinked(t, t.rows[r]);
      LinkAfter(t, w, g, now, r, u);
    }
  }

  /** The intent a reservation inserts and the transaction an artifact inserts belong to the group. */
  ghost predicate InsertsIn(t: Tables, w: Write, g: Group, u: Tables) {
    && (w.Reserve? ==> w.intent in u.intents && u.intents[w.intent].group == g)
    && (w.Persist? && w.hash !in t.txs ==> w.hash in u.txs && u.txs[w.hash].group == g)
  }

  lemma InsertedInGroup(t: Tables, w: Write, g: Group, now: Millis)
    requires Ready(t, w) && Within(t, w, g)
    ensures InsertsIn(t, w, g, Apply(t, w, now))
  {
  }

  lemma LinkAfter(t: Tables, w: Write, g: Group, now: Millis, r: RowId, u: Tables)
    requires Ready(t, w) && Within(t, w, g) && r in t.rows && RowLinked(t, t.rows[r])
    requires OnlyGroup(t, u, g) && InsertsIn(t, w, g, u)
    ensures RowLinked(u, RowUpdate(t, w, r, t.rows[r], now))
  {
  }

  // ------------------------------------------------------ the intents table

  lemma KeptTxsHaveIntents(t: Tables, u: Tables)
    requires EveryTxHasIntent(t)
    requires forall i ::
      i in t.intents && t.intents[i].txid.Some? ==> i in u.intents && u.intents[i].txid == t.intents[i].txid
    ensures forall h :: h in t.txs ==> exists i :: i in u.intents && u.intents[i].txid == Some(h)
  {
    forall h | h in t.txs ensures exists i :: i in u.intents && u.intents[i].txid == Some(h) {
      var i :| i in t.intents && t.intents[i].txid == Some(h);
      assert u.intents[i].txid == Some(h);
    }
  }

  lemma IntentsKeptInv(t: Tables, u: Tables)
    requires IntentsInv(t) && IntentsKept(t, u)
    ensures IntentsInv(u)
  {
    KeptTxsHaveIntents(t, u);
  }

  lemma InsertedNonce(t: Tables, u: Tables, i: IntentId, g: Group, n: int)
    requires NoncesBelow(t) && NoncesDistinct(t) && i !in t.intents
    requires u.intents == t.intents[i := NewIntent(t, g, n)]
    requires u.nonces == t.nonces[g.network := NextNonce(t, g.network, n) + 1]
    ensures NoncesBelow(u) && NoncesDistinct(u)
  {
    hide NoncesBelow, NoncesDistinct;
    var nonce := NextNonce(t, g.network, n);
    NextIsAbove(t, g.network, n);
    InsertedBelow(t, u, i, Intent(g, nonce, Signing, None));
    InsertedDistinct(t, u, i, Intent(g, nonce, Signing, None));
  }

  lemma NextIsAbove(t: Tables, network: Network, n: int)
    requires NoncesBelow(t)
    ensures forall j :: j in t.intents && t.intents[j].group.network == network ==>
      network in t.nonces && t.intents[j].nonce < NextNonce(t, network, n) == t.nonces[network]
  {
  }

  lemma InsertedBelow(t: Tables, u: Tables, i: IntentId, intent: Intent)
    requires NoncesBelow(t) && i !in t.intents && u.intents == t.intents[i := intent]
    requires u.nonces == t.nonces[intent.group.network := intent.nonce + 1]
    requires forall j :: j in t.intents && t.intents[j].group.network == intent.group.network ==>
      t.intents[j].nonce < intent.nonce
    ensures NoncesBelow(u)
  {
  }

  lemma InsertedDistinct(t: Tables, u: Tables, i: IntentId, intent: Intent)
    requires NoncesDistinct(t) && i !in t.intents && u.intents == t.intents[i := intent]
    requires forall j :: j in t.intents && t.intents[j].group.network == intent.group.network ==>
      t.intents[j].nonce < intent.nonce
    ensures NoncesDistinct(u)
  {
    forall j, k | j in u.intents && k in u.intents && j != k && u.intents[j].group.network == u.intents[k].group.network
      ensures u.intents[j].nonce != u.intents[k].nonce
    {
    }
  }

  lemma InsertedIsOnlyOpen(t: Tables, u: Tables, i: IntentId, g: Group, n: int)
    requires OneOpenIntent(t) && i !in t.intents && forall j :: j in t.intents ==> !OpenFor(t, j, g)
    requires u.intents == t.intents[i := NewIntent(t, g, n)]
    ensures OneOpenIntent(u)
  {
    forall j | j in t.intents && Open(t.intents[j]) ensures t.intents[j].group != g {
      assert !OpenFor(t, j, g);
    }
  }

  lemma InsertedHasNoArtifact(t: Tables, u: Tables, i: IntentId, intent: Intent)
    requires IntentLinks(t) && EveryTxHasIntent(t) && HashesDistinct(t) && i !in t.intents && intent.txid == None
    requires u.txs == t.txs && u.intents == t.intents[i := intent]
    ensures IntentLinks(u) && EveryTxHasIntent(u) && HashesDistinct(u)
  {
    KeptTxsHaveIntents(t, u);
  }

  lemma InsertedIntentInv(t: Tables, u: Tables, i: IntentId, g: Group, n: int)
    requires IntentsInv(t) && i !in t.intents && forall j :: j in t.intents ==> !OpenFor(t, j, g)
    requires u.txs == t.txs && u.intents == t.intents[i := NewIntent(t, g, n)]
    requires u.nonces == t.nonces[g.network := NextNonce(t, g.network, n) + 1]
    ensures IntentsInv(u)
  {
    hide NoncesBelow, NoncesDistinct, OneOpenIntent, OpenFor, NextNonce, EveryTxHasIntent, IntentLinks, HashesDistinct;
    InsertedNonce(t, u, i, g, n);
    InsertedHasNoArtifact(t, u, i, NewIntent(t, g, n));
    InsertedIsOnlyOpen(t, u, i, g, n);
  }

  lemma SignedIntentInv(t: Tables, u: Tables, i: IntentId, h: Hash, g: Group, now: Millis)
    requires IntentsInv(t) && OpenFor(t, i, g) && h !in t.txs
    requires u.txs == t.txs[h := NewTx(t, i, g, now)] && u.nonces == t.nonces
    requires u.intents == t.intents[i := t.intents[i].(status := Signed, txid := Some(h))]
    ensures IntentsInv(u)
  {
    SignedTxsHaveIntents(t, u, i, h, g, now);
    SignedHashDistinct(t, u, i, h, g);
    SignedIntentLinks(t, u, i, h, g, now);
  }

  lemma SignedTxsHaveIntents(t: Tables, u: Tables, i: IntentId, h: Hash, g: Group, now: Millis)
    requires EveryTxHasIntent(t) && OpenFor(t, i, g)
    requires u.txs == t.txs[h := NewTx(t, i, g, now)]
    requires u.intents == t.intents[i := t.intents[i].(status := Signed, txid := Some(h))]
    ensures EveryTxHasIntent(u)
  {
    KeptTxsHaveIntents(t, u);
    assert u.intents[i].txid == Some(h);
  }

  lemma SignedIntentLinks(t: Tables, u: Tables, i: IntentId, h: Hash, g: Group, now: Millis)
    requires IntentLinks(t) && OpenFor(t, i, g) && h !in t.txs
    requires u.txs == t.txs[h := NewTx(t, i, g, now)]
    requires u.intents == t.intents[i := t.intents[i].(status := Signed, txid := Some(h))]
    ensures IntentLinks(u)
  {
  }

  lemma SignedHashDistinct(t: Tables, u: Tables, i: IntentId, h: Hash, g: Group)
    requires IntentLinks(t) && HashesDistinct(t) && OpenFor(t, i, g) && h !in t.txs
    requires u.intents == t.intents[i := t.intents[i].(status := Signed, txid := Some(h))]
    ensures HashesDistinct(u)
  {
  }

  /** What a call's write does to the intents and transactions tables. */
  lemma WriteKeepsIntents(t: Tables, w: Write, g: Group, now: Millis)
    requires IntentsInv(t) && Ready(t, w) && Within(t, w, g)
    requires w.Announce? ==> t.intents[w.intent].txid == Some(w.hash)
    requires w.Reserve? ==> forall j :: j in t.intents ==> !OpenFor(t, j, g)
    ensures IntentsInv(Apply(t, w, now))
  {
    if w.Reserve? {
      ReserveEffects(t, w.ids, w.intent, g, w.chainNonce, now);
      InsertedIntentInv(t, Apply(t, w, now), w.intent, g, w.chainNonce);
    } else if w.Persist? {
      PersistEffects(t, w.ids, w.intent, w.hash, g, now);
      if w.hash !in t.txs {
        SignedIntentInv(t, Apply(t, w, now), w.intent, w.hash, g, now);
      }
    } else {
      IntentsKeptBy(t, w, g, now);
      IntentsKeptInv(t, Apply(t, w, now));
    }
  }

  lemma ReserveEffects(t: Tables, ids: set<RowId>, i: IntentId, g: Group, n: int, now: Millis)
    ensures var u := Apply(t, Reserve(ids, i, g, n), now);
      && u.txs == t.txs && u.intents == t.intents[i := NewIntent(t, g, n)]
      && u.nonces == t.nonces[g.network := NextNonce(t, g.network, n) + 1]
  {
    assert UpdatedIntents(t, Reserve(ids, i, g, n)) == t.intents;
    assert UpdatedTxs(t, Reserve(ids, i, g, n), now) == t.txs;
  }

  lemma PersistEffects(t: Tables, ids: set<RowId>, i: IntentId, h: Hash, g: Group, now: Millis)
    requires i in t.intents
    ensures var u := Apply(t, Persist(ids, i, h, g), now);
      if h in t.txs then u == t else
      && u.txs == t.txs[h := NewTx(t, i, g, now)] && u.nonces == t.nonces
      && u.intents == t.intents[i := t.intents[i].(status := Signed, txid := Some(h))]
  {
    assert UpdatedTxs(t, Persist(ids, i, h, g), now) == t.txs;
  }

  lemma IntentsKeptBy(t: Tables, w: Write, g: Group, now: Millis)
    requires IntentLinks(t) && Ready(t, w) && Within(t, w, g) && !w.Reserve? && !w.Persist?
    requires w.Announce? ==> t.intents[w.intent].txid == Some(w.hash)
    ensures IntentsKept(t, Apply(t, w, now))
  {
    var u := Apply(t, w, now);
    forall i | i in t.intents
      ensures i in u.intents && u.intents[i].group == t.intents[i].group && u.intents[i].nonce == t.intents[i].nonce
      ensures u.intents[i].txid == t.intents[i].txid
      ensures u.intents[i].status == Signing ==> t.intents[i].status == Signing
    {
      IntentAt(t, w, now, i);
    }
    assert u.intents.Keys == t.intents.Keys;
    TxsKeptBy(t, w, g, now);
  }

  lemma TxsKeptBy(t: Tables, w: Write, g: Group, now: Millis)
    requires Ready(t, w) && Within(t, w, g) && !w.Reserve? && !w.Persist?
    ensures Apply(t, w, now).txs.Keys == t.txs.Keys && Apply(t, w, now).nonces == t.nonces
    ensures forall h :: h in t.txs ==>
      Apply(t, w, now).txs[h].group == t.txs[h].group && Apply(t, w, now).txs[h].nonce == t.txs[h].nonce
  {
  }

  /** A guarded write of a call on group `g` keeps every table invariant. */
  lemma WriteKeepsTables(t: Tables, w: Write, g: Group, now: Millis)
    requires TablesInv(t) && Ready(t, w) && Within(t, w, g) && Guard(t, w)
    requires w.Announce? ==> t.intents[w.intent].txid == Some(w.hash)
    requires w.Reserve? ==> forall j :: j in t.intents ==> !OpenFor(t, j, g)
    ensures TablesInv(Apply(t, w, now))
  {
    WriteKeepsLockstepIff(t, w, now);
    RowsRelinkedBy(t, w, g, now);
    WriteKeepsTxStatuses(t, w, now);
    WriteKeepsIntents(t, w, g, now);
  }

  lemma WriteKeepsTxStatuses(t: Tables, w: Write, now: Millis)
    requires TxStatusesKnown(t) && Ready(t, w)
    ensures TxStatusesKnown(Apply(t, w, now))
  {
  }

  // ------------------------------------------------------ the calls in memory

  /** A claimable row in lockstep carries no resolved sweep. */
  lemma ClaimableIsUnannounced(t: Tables, r: RowId)
    requires Lockstep(t) && RowLinks(t) && TxStatusesKnown(t) && r in t.rows && Claimable(t.rows[r])
    ensures Unannounced(t, t.rows[r])
  {
    assert RowAgrees(t.rows[r], t.txs);
    assert RowLinked(t, t.rows[r]);
  }

  lemma ResolveKeepsCall(t: Tables, h: Hash, v: Verdict, who: Writer, now: Millis, call: Call)
    requires h in t.txs && t.txs[h].status != Pending && CallFits(t, call)
    ensures CallFits(Apply(t, Resolve(h, v, who), now), call)
  {
    var w := Resolve(h, v, who);
    var u := Apply(t, w, now);
    assert forall k :: k in t.txs && k != h ==> k in u.txs && u.txs[k] == t.txs[k];
    assert forall i ::
      i in t.intents && t.intents[i].txid != Some(h) ==> i in u.intents && u.intents[i] == t.intents[i];
    forall r | r in call.ids ensures r in u.rows && u.rows[r] == t.rows[r] && Unannounced(u, u.rows[r]) {
      RowAt(t, w, now, r);
      assert Unannounced(t, t.rows[r]);
      assert t.rows[r].txid != Some(h);
    }
    if call.phase.Allocating? {
      forall i | i in u.intents ensures !OpenFor(u, i, call.group) {
        IntentAt(t, w, now, i);
        assert !OpenFor(t, i, call.group);
      }
    }
  }

  lemma ArriveKeepsCall(t: Tables, r: RowId, g: Group, now: Millis, call: Call)
    requires CallFits(t, call)
    ensures CallFits(Apply(t, Arrive(r, g), now), call)
  {
    var u := Apply(t, Arrive(r, g), now);
    assert u.intents == t.intents && u.txs == t.txs;
    assert forall k :: k in t.rows ==> k in u.rows && u.rows[k] == t.rows[k];
  }

  /** The batch of the call that wrote, after its own write. */
  lemma OwnWriteKeepsBatch(t: Tables, w: Write, now: Millis, call: Call)
    requires Ready(t, w) && Within(t, w, call.group) && BatchOwned(t, call)
    requires w.Reserve? || w.Reuse? || w.Review? || w.Persist? || (w.Resolve? && w.verdict.Reverted?)
    requires w.Persist? ==> w.hash !in t.txs
    ensures BatchOwned(Apply(t, w, now), call)
    ensures BatchUnsigned(t, call) && !w.Persist? ==> BatchUnsigned(Apply(t, w, now), call)
  {
    var u := Apply(t, w, now);
    forall r | r in call.ids
      ensures r in u.rows && u.rows[r].group == call.group && Unannounced(u, u.rows[r])
      ensures t.rows[r].txid == None && !w.Persist? ==> u.rows[r].txid == None
    {
      RowAt(t, w, now, r);
      StatusAt(t, w, now, u.rows[r].txid);
      assert Unannounced(t, t.rows[r]);
    }
  }

  /** Where a call stands after its own write. */
  lemma OwnWriteFits(s: State, a: Action, now: Millis, c: CallId)
    requires Inv(s) && Enabled(s, a) && c in s.calls
    requires a == EscalateIntent(c) || a == ReuseIntent(c) || (a.ReserveNonce? && a.call == c) ||
             (a.PersistArtifact? && a.call == c) || (a.FinishRecovery? && a.call == c && a.verdict.Reverted?)
    ensures c in Do(s, a, now).calls
    ensures CallFits(Do(s, a, now).t, Do(s, a, now).calls[c])
  {
    var call := s.calls[c];
    var w := WriteOf(s, a).value;
    assert Within(s.t, w, call.group);
    if a.PersistArtifact? {
      PersistEffects(s.t, call.ids, call.phase.intent, a.hash, call.group, now);
    }
    if a.ReserveNonce? {
      ReserveEffects(s.t, call.ids, a.intent, call.group, a.chainNonce, now);
    }
    if !(a.PersistArtifact? && a.hash in s.t.txs) {
      OwnWriteKeepsBatch(s.t, w, now, call);
    }
  }

  /** The write a call issues from inside the provider, or when it settles. */
  predicate CallWrite(a: Action) {
    || a.FinishRecovery? || a.EscalateIntent? || a.ReuseIntent?
    || a.ReserveNonce? || a.PersistArtifact? || a.AnnounceSweep?
  }

  lemma CallWriteIsGuarded(s: State, a: Action)
    requires Inv(s) && Enabled(s, a) && Disciplined(s, a) && CallWrite(a)
    ensures a.call in s.calls && WriteOf(s, a).Some?
    ensures var w, g := WriteOf(s, a).value, s.calls[a.call].group;
      && Ready(s.t, w) && Within(s.t, w, g) && Guard(s.t, w)
      && (w.Announce? ==> s.t.intents[w.intent].txid == Some(w.hash))
      && (w.Reserve? ==> forall j :: j in s.t.intents ==> !OpenFor(s.t, j, g))
  {
    BatchIsFree(s.t, s.calls[a.call]);
  }

  /** Calls other than `c` stand where they stood, after a write within the group of `c`. */
  lemma OthersKept(s: State, c: CallId, w: Write, now: Millis)
    requires Inv(s) && c in s.calls && Ready(s.t, w) && Within(s.t, w, s.calls[c].group)
    ensures AllFit(Apply(s.t, w, now), s.calls - {c})
  {
    var g := s.calls[c].group;
    WriteStaysInGroup(s.t, w, g, now);
    forall d | d in s.calls - {c} ensures CallFits(Apply(s.t, w, now), s.calls[d]) {
      assert CallFits(s.t, s.calls[d]);
      OtherGroupKeepsCall(s.t, Apply(s.t, w, now), g, s.calls[d]);
    }
  }

  predicate EndsCall(a: Action) {
    a.AnnounceSweep? || (a.FinishRecovery? && !a.verdict.Reverted?)
  }

  lemma CallWriteMovesOneCall(s: State, a: Action, now: Millis)
    requires CallWrite(a) && Enabled(s, a)
    ensures EndsCall(a) ==> Do(s, a, now).calls == s.calls - {a.call}
    ensures !EndsCall(a) ==> a.call in Do(s, a, now).calls
    ensures !EndsCall(a) ==> Do(s, a, now).calls == s.calls[a.call := Do(s, a, now).calls[a.call]]
    ensures !EndsCall(a) ==> Do(s, a, now).calls[a.call].group == s.calls[a.call].group
  {
  }

  lemma UpdatedCallsFit(t: Tables, calls: map<CallId, Call>, c: CallId, call: Call)
    requires AllFit(t, calls - {c}) && CallFits(t, call)
    ensures AllFit(t, calls[c := call])
  {
    var calls' := calls[c := call];
    forall d | d in calls' ensures CallFits(t, calls'[d]) {
      assert d != c ==> d in calls - {c};
    }
  }

  lemma CallWriteKeepsCalls(s: State, a: Action, now: Millis)
    requires Inv(s) && Enabled(s, a) && Disciplined(s, a) && CallWrite(a)
    ensures AllFit(Do(s, a, now).t, Do(s, a, now).calls)
    ensures Exclusive(Do(s, a, now).calls)
  {
    hide Apply, CallFits, TablesInv, Guard, Disciplined;
    CallWriteIsGuarded(s, a);
    OthersKept(s, a.call, WriteOf(s, a).value, now);
    CallWriteMovesOneCall(s, a, now);
    if !EndsCall(a) {
      OwnWriteFits(s, a, now, a.call);
      UpdatedCallsFit(Do(s, a, now).t, s.calls, a.call, Do(s, a, now).calls[a.call]);
    }
  }

  lemma CallWriteKeepsTables(s: State, a: Action, now: Millis)
    requires Inv(s) && Enabled(s, a) && Disciplined(s, a) && CallWrite(a)
    ensures TablesInv(Do(s, a, now).t)
  {
    CallWriteIsGuarded(s, a);
    WriteKeepsTables(s.t, WriteOf(s, a).value, s.calls[a.call].group, now);
  }

  lemma SameLinksKeepCalls(t: Tables, u: Tables, calls: map<CallId, Call>)
    requires SameLinks(t, u) && AllFit(t, calls)
    ensures AllFit(u, calls)
  {
    forall c | c in calls ensures CallFits(u, calls[c]) {
      assert CallFits(t, calls[c]);
      SameLinksKeepCall(t, u, calls[c]);
    }
  }

  /** A guarded write that only moves row statuses. */
  lemma StatusOnlyKeepsInv(t: Tables, w: Write, calls: map<CallId, Call>, now: Millis)
    requires TablesInv(t) && AllFit(t, calls) && StatusOnly(w) && Ready(t, w) && Guard(t, w)
    ensures TablesInv(Apply(t, w, now)) && AllFit(Apply(t, w, now), calls)
  {
    WriteKeepsLockstepIff(t, w, now);
    StatusOnlyKeepsLinks(t, w, now);
    SameLinksKeepTables(t, Apply(t, w, now));
    SameLinksKeepCalls(t, Apply(t, w, now), calls);
  }

  lemma RouteKeepsInv(s: State, c: CallId, now: Millis)
    requires Inv(s) && Enabled(s, Route(c)) && Disciplined(s, Route(c))
    ensures TablesInv(Do(s, Route(c), now).t)
    ensures AllFit(Do(s, Route(c), now).t, s.calls - {c})
  {
    var call := s.calls[c];
    var w := RoutingWrite(call);
    assert CallFits(s.t, call);
    BatchIsFree(s.t, call);
    if call.phase.outcome.SettledBy? {
      WriteKeepsTables(s.t, w, call.group, now);
      OthersKept(s, c, w, now);
    } else {
      StatusOnlyKeepsInv(s.t, w, s.calls - {c}, now);
    }
  }

  lemma ClaimedCallFits(t: Tables, g: Group)
    requires Lockstep(t) && RowLinks(t) && TxStatusesKnown(t)
    ensures CallFits(t, Call(g, ClaimIds(t, g), Entered))
  {
    forall r | r in ClaimIds(t, g) ensures Unannounced(t, t.rows[r]) {
      ClaimableIsUnannounced(t, r);
    }
  }

  lemma ClaimKeepsInv(s: State, c: CallId, now: Millis)
    requires Inv(s) && Enabled(s, ClaimTarget(c))
    ensures TablesInv(Do(s, ClaimTarget(c), now).t)
    ensures AllFit(Do(s, ClaimTarget(c), now).t, Do(s, ClaimTarget(c), now).calls)
  {
    var g := s.scheduled[c];
    var call := Call(g, ClaimIds(s.t, g), Entered);
    ClaimedCallFits(s.t, g);
    UpdatedCallsFit(s.t, s.calls, c, call);
    StatusOnlyKeepsInv(s.t, Claim(g), s.calls[c := call], now);
    StatusOnlyKeepsInv(s.t, Claim(g), s.calls, now);
  }

  lemma ArriveKeepsRowLinks(t: Tables, r: RowId, g: Group, now: Millis)
    requires RowLinks(t)
    ensures RowLinks(Apply(t, Arrive(r, g), now))
  {
    var u := Apply(t, Arrive(r, g), now);
    forall k | k in u.rows ensures RowLinked(u, u.rows[k]) {
      if k in t.rows {
        assert RowLinked(t, t.rows[k]);
      }
    }
  }

  lemma InsertKeepsTables(t: Tables, w: Write, now: Millis)
    requires TablesInv(t) && (w.Arrive? || w.Allocate?)
    ensures TablesInv(Apply(t, w, now))
  {
    WriteKeepsLockstepIff(t, w, now);
    if w.Arrive? {
      ArriveKeepsRowLinks(t, w.row, w.group, now);
    }
  }

  lemma InsertKeepsCalls(t: Tables, w: Write, calls: map<CallId, Call>, now: Millis)
    requires AllFit(t, calls) && (w.Arrive? || w.Allocate?)
    ensures AllFit(Apply(t, w, now), calls)
  {
    forall c | c in calls ensures CallFits(Apply(t, w, now), calls[c]) {
      assert CallFits(t, calls[c]);
      if w.Arrive? {
        ArriveKeepsCall(t, w.row, w.group, now, calls[c]);
      }
    }
  }

  lemma StatusWriteKeepsInv(s: State, h: Hash, v: Verdict, now: Millis)
    requires Inv(s) && h in s.t.txs && s.t.txs[h].status != Pending
    ensures TablesInv(Apply(s.t, Resolve(h, v, StatusWorker), now))
    ensures AllFit(Apply(s.t, Resolve(h, v, StatusWorker), now), s.calls)
  {
    var w := Resolve(h, v, StatusWorker);
    WriteKeepsTables(s.t, w, s.t.txs[h].group, now);
    forall c | c in s.calls ensures CallFits(Apply(s.t, w, now), s.calls[c]) {
      assert CallFits(s.t, s.calls[c]);
      ResolveKeepsCall(s.t, h, v, StatusWorker, now, s.calls[c]);
    }
  }

  lemma BackgroundKeepsInv(s: State, w: Write, now: Millis)
    requires Inv(s) && Background(s.t, w)
    ensures TablesInv(Apply(s.t, w, now)) && AllFit(Apply(s.t, w, now), s.calls)
  {
    if w.Arrive? || w.Allocate? {
      InsertKeepsTables(s.t, w, now);
      InsertKeepsCalls(s.t, w, s.calls, now);
    } else if w.Resolve? {
      StatusWriteKeepsInv(s, w.hash, w.verdict, now);
    } else {
      StatusOnlyKeepsInv(s.t, w, s.calls, now);
    }
  }

  predicate MemoryStep(a: Action) {
    a.Select? || a.Raise? || a.Lookup? || a.FindIntent? || a.Crash?
  }

  lemma LookedUpCallFits(s: State, c: CallId, picked: Option<Hash>)
    requires Inv(s) && Enabled(s, Lookup(c, picked))
    ensures CallFits(s.t, CallsAfter(s, Lookup(c, picked))[c])
  {
    assert CallFits(s.t, s.calls[c]);
    if picked.Some? {
      var r :| r in s.calls[c].ids && Carries(s.t, r, picked.value);
      assert RowLinked(s.t, s.t.rows[r]) && Unannounced(s.t, s.t.rows[r]);
    }
  }

  lemma RaisedCallFits(s: State, c: CallId, o: Outcome)
    requires Inv(s) && Enabled(s, Raise(c, o))
    ensures CallFits(s.t, CallsAfter(s, Raise(c, o))[c])
  {
    assert CallFits(s.t, s.calls[c]);
    if o.SettledBy? {
      var r :| Carries(s.t, r, o.hash) && s.t.rows[r].group == s.calls[c].group;
      assert RowLinked(s.t, s.t.rows[r]);
    }
  }

  lemma FoundIntentCallFits(s: State, c: CallId, found: Option<IntentId>)
    requires Inv(s) && Enabled(s, FindIntent(c, found))
    ensures CallFits(s.t, CallsAfter(s, FindIntent(c, found))[c])
  {
    assert CallFits(s.t, s.calls[c]);
  }

  lemma MemoryStepKeepsCalls(s: State, a: Action)
    requires Inv(s) && Enabled(s, a) && MemoryStep(a)
    ensures AllFit(s.t, CallsAfter(s, a)) && Exclusive(CallsAfter(s, a))
  {
    hide TablesInv;
    match a
    case Lookup(c, picked) =>
      LookedUpCallFits(s, c, picked);
      UpdatedCallsFit(s.t, s.calls, c, CallsAfter(s, a)[c]);
    case Raise(c, o) =>
      RaisedCallFits(s, c, o);
      UpdatedCallsFit(s.t, s.calls, c, CallsAfter(s, a)[c]);
    case FindIntent(c, found) =>
      FoundIntentCallFits(s, c, found);
      UpdatedCallsFit(s.t, s.calls, c, CallsAfter(s, a)[c]);
    case _ =>
  }

  /** The inductive step: every disciplined step keeps the invariant. */
  lemma StepKeepsInv(s: State, a: Action, now: Millis)
    requires Inv(s) && Enabled(s, a) && Disciplined(s, a)
    ensures Inv(Do(s, a, now))
  {
    if CallWrite(a) {
      CallWriteKeepsTables(s, a, now);
      CallWriteKeepsCalls(s, a, now);
    } else if MemoryStep(a) {
      MemoryStepKeepsCalls(s, a);
    } else if a.Commit? {
      BackgroundKeepsInv(s, a.write, now);
    } else if a.ClaimTarget? {
      ClaimKeepsInv(s, a.call, now);
    } else {
      RouteKeepsInv(s, a.call, now);
    }
  }

  // ------------------------------------------- the discipline is necessary

  lemma IdleClaimIsNecessary(s: State, c: CallId, now: Millis)
    requires c in s.scheduled && Exclusive(Do(s, ClaimTarget(c), now).calls)
    ensures Disciplined(s, ClaimTarget(c))
  {
    hide Apply;
    var g, calls := s.scheduled[c], CallsAfter(s, ClaimTarget(c));
    if ClaimIds(s.t, g) != {} {
      forall d | d in s.calls && d != c ensures s.calls[d].group != g {
        assert d in calls && c in calls && calls[c].group == g;
      }
    }
  }

  lemma GuardIsNecessary(s: State, a: Action, now: Millis)
    requires Inv(s) && Enabled(s, a) && (a.Route? || a.EscalateIntent?) && Lockstep(Do(s, a, now).t)
    ensures Disciplined(s, a)
  {
    hide Apply, Lockstep, RowLinks, IntentsInv, TxStatusesKnown, CallsAfter, ScheduledAfter;
    var w := WriteOf(s, a).value;
    assert Ready(s.t, w);
    WriteKeepsLockstepIff(s.t, w, now);
    assert CallFits(s.t, s.calls[a.call]);
  }

  /** The three conditions are exact: from the invariant, a step keeps it if and only if it is disciplined. */
  lemma StepKeepsInvIff(s: State, a: Action, now: Millis)
    requires Inv(s) && Enabled(s, a)
    ensures Inv(Do(s, a, now)) <==> Disciplined(s, a)
  {
    hide Apply, AllFit, TablesInv, Enabled, CallsAfter, ScheduledAfter;
    if Disciplined(s, a) {
      StepKeepsInv(s, a, now);
    } else if Inv(Do(s, a, now)) {
      if a.ClaimTarget? {
        IdleClaimIsNecessary(s, a.call, now);
      } else {
        InvGivesLockstep(Do(s, a, now));
        GuardIsNecessary(s, a, now);
      }
    }
  }

  lemma InvGivesLockstep(s: State)
    requires Inv(s)
    ensures Lockstep(s.t)
  {
  }
}

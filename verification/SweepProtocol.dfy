/**
 The sweep protocol as a transition system: any number of `processTarget` calls, each
 holding a batch in memory and walking through the custody provider one committed
 database step at a time, interleaved with recovery passes, the status worker, new
 deposits and crashes.  A crash forgets a call; the tables survive.
 */
module SweepProtocol {
  import opened Options
  import opened SweepTables
  import opened SweepLockstep

  type CallId = nat

  /** What the provider threw, as the worker routes it. */
  datatype Outcome =
    | SettledBy(hash: Hash)
    | ZeroUnexplained
    | ReviewRequired
    | Dust
    | LegacyZero
    | OtherError

  /** How far a call has come inside the provider. */
  datatype Phase =
    | Entered
    | Recovering(hash: Hash)
    | Unsigned
    | Reusing(intent: IntentId)
    | Allocating
    | Reserved(intent: IntentId)
    | Persisted(intent: IntentId, hash: Hash)
    | Thrown(outcome: Outcome)

  datatype Call = Call(group: Group, ids: set<RowId>, phase: Phase)

  /** `scheduled` holds the targets a worker has selected and not yet claimed. */
  datatype State = State(t: Tables, scheduled: map<CallId, Group>, calls: map<CallId, Call>)

  datatype Action =
    | Commit(write: Write)                     // arrivals, other nonce users, recovery, the status worker
    | Select(call: CallId, group: Group)
    | ClaimTarget(call: CallId)
    | Raise(call: CallId, outcome: Outcome)
    | Lookup(call: CallId, picked: Option<Hash>)
    | FinishRecovery(call: CallId, verdict: Verdict)
    | FindIntent(call: CallId, found: Option<IntentId>)
    | EscalateIntent(call: CallId)
    | ReuseIntent(call: CallId)
    | ReserveNonce(call: CallId, intent: IntentId, chainNonce: int)
    | PersistArtifact(call: CallId, hash: Hash)
    | AnnounceSweep(call: CallId)
    | Route(call: CallId)
    | Crash(call: CallId)

  const INITIAL := State(Tables(map[], map[], map[], map[]), map[], map[])

  /** Writes that no call of its own issues: producer, other hot-wallet users, recovery, status worker. */
  predicate Background(t: Tables, w: Write) {
    match w
    case Arrive(_, _) => true
    case Allocate(_, _) => true
    case RecoverUnreserved(_) => true
    case RecoverReserved(_) => true
    case RecoverArtifact(_) => true
    case Resolve(h, _, StatusWorker) => h in t.txs && t.txs[h].status != Pending
    case _ => false
  }

  /** The write with which the worker routes what the provider threw. */
  function RoutingWrite(call: Call): Write
    requires call.phase.Thrown?
  {
    match call.phase.outcome
    case SettledBy(h) => Settle(call.ids, h)
    case ZeroUnexplained => Mark(call.ids, Reconciliation)
    case ReviewRequired => Mark(call.ids, Reconciliation)
    case Dust => Mark(call.ids, DeferredDust)
    case LegacyZero => Mark(call.ids, ZeroBalance)
    case OtherError => Mark(call.ids, Pending)
  }

  predicate Carries(t: Tables, r: RowId, h: Hash) {
    r in t.rows && t.rows[r].txid == Some(h)
  }

  predicate OpenFor(t: Tables, i: IntentId, g: Group) {
    i in t.intents && Open(t.intents[i]) && t.intents[i].group == g
  }

  /** When an action can happen: what its caller has read, and what the provider checked before it. */
  ghost predicate Enabled(s: State, a: Action) {
    match a
    case Commit(w) => Background(s.t, w)
    case Select(c, g) => c !in s.scheduled && c !in s.calls && Selectable(s.t, g)
    case ClaimTarget(c) => c in s.scheduled
    case Raise(c, o) =>
      && c in s.calls && !s.calls[c].phase.Thrown?
      && (o != OtherError ==> s.calls[c].phase == Entered && !o.ReviewRequired?)
      && (o.SettledBy? ==> MovedBy(s.t, s.calls[c].group, o.hash))
    case Lookup(c, picked) =>
      && c in s.calls && s.calls[c].phase == Entered
      && (picked.None? ==> forall r :: r in s.calls[c].ids && r in s.t.rows ==> s.t.rows[r].txid == None)
      && (picked.Some? ==> exists r :: r in s.calls[c].ids && Carries(s.t, r, picked.value))
    case FinishRecovery(c, v) =>
      && c in s.calls && s.calls[c].phase.Recovering? && !v.Dropped? && !v.Remined?
      && s.calls[c].phase.hash in s.t.txs && s.t.txs[s.calls[c].phase.hash].group == s.calls[c].group
    case FindIntent(c, found) =>
      && c in s.calls && s.calls[c].phase == Unsigned
      && (found.None? ==> forall i :: i in s.t.intents ==> !OpenFor(s.t, i, s.calls[c].group))
      && (found.Some? ==> OpenFor(s.t, found.value, s.calls[c].group))
    case EscalateIntent(c) => c in s.calls && s.calls[c].phase.Reusing?
    case ReuseIntent(c) => c in s.calls && s.calls[c].phase.Reusing?
    case ReserveNonce(c, i, _) => c in s.calls && s.calls[c].phase == Allocating && i !in s.t.intents
    case PersistArtifact(c, h) =>
      c in s.calls && s.calls[c].phase.Reserved? && s.calls[c].phase.intent in s.t.intents
    case AnnounceSweep(c) =>
      c in s.calls && s.calls[c].phase.Persisted? && s.calls[c].phase.hash in s.t.txs
    case Route(c) => c in s.calls && s.calls[c].phase.Thrown?
    case Crash(c) => c in s.calls || c in s.scheduled
  }

  /** The provider's sweep-history query: a CONFIRMED sweep that a row of the group carries. */
  ghost predicate MovedBy(t: Tables, g: Group, h: Hash) {
    h in t.txs && t.txs[h].status == Confirmed && exists r :: Carries(t, r, h) && t.rows[r].group == g
  }

  function At(call: Call, phase: Phase): Call {
    call.(phase := phase)
  }

  /** The committed write of an action, if it has one. */
  function WriteOf(s: State, a: Action): Option<Write> {
    match a
    case Commit(w) => Some(w)
    case ClaimTarget(c) => if c in s.scheduled then Some(Claim(s.scheduled[c])) else None
    case FinishRecovery(c, v) =>
      if c in s.calls && s.calls[c].phase.Recovering? then Some(Resolve(s.calls[c].phase.hash, v, Provider)) else None
    case EscalateIntent(c) =>
      if c in s.calls && s.calls[c].phase.Reusing? then Some(Review(s.calls[c].phase.intent)) else None
    case ReuseIntent(c) =>
      if c in s.calls && s.calls[c].phase.Reusing? then Some(Reuse(s.calls[c].ids, s.calls[c].phase.intent)) else None
    case ReserveNonce(c, i, n) =>
      if c in s.calls then Some(Reserve(s.calls[c].ids, i, s.calls[c].group, n)) else None
    case PersistArtifact(c, h) =>
      if c in s.calls && s.calls[c].phase.Reserved?
      then Some(Persist(s.calls[c].ids, s.calls[c].phase.intent, h, s.calls[c].group)) else None
    case AnnounceSweep(c) =>
      if c in s.calls && s.calls[c].phase.Persisted?
      then Some(Announce(s.calls[c].phase.intent, s.calls[c].phase.hash)) else None
    case Route(c) =>
      if c in s.calls && s.calls[c].phase.Thrown? then Some(RoutingWrite(s.calls[c])) else None
    case _ => None
  }

  /** What becomes of the calls in memory. */
  function CallsAfter(s: State, a: Action): map<CallId, Call> {
    match a
    case ClaimTarget(c) =>
      if c in s.scheduled && ClaimIds(s.t, s.scheduled[c]) != {}
      then s.calls[c := Call(s.scheduled[c], ClaimIds(s.t, s.scheduled[c]), Entered)] else s.calls
    case Raise(c, o) => if c in s.calls then s.calls[c := At(s.calls[c], Thrown(o))] else s.calls
    case Lookup(c, picked) =>
      if c !in s.calls then s.calls
      else if picked.Some? && picked.value in s.t.txs then s.calls[c := At(s.calls[c], Recovering(picked.value))]
      else s.calls[c := At(s.calls[c], Unsigned)]
    case FinishRecovery(c, v) =>
      if c in s.calls && v.Reverted? then s.calls[c := At(s.calls[c], Thrown(OtherError))] else s.calls - {c}
    case FindIntent(c, found) =>
      if c !in s.calls then s.calls
      else s.calls[c := At(s.calls[c], if found.Some? then Reusing(found.value) else Allocating)]
    case EscalateIntent(c) =>
      if c in s.calls then s.calls[c := At(s.calls[c], Thrown(ReviewRequired))] else s.calls
    case ReuseIntent(c) =>
      if c in s.calls && s.calls[c].phase.Reusing?
      then s.calls[c := At(s.calls[c], Reserved(s.calls[c].phase.intent))] else s.calls
    case ReserveNonce(c, i, _) => if c in s.calls then s.calls[c := At(s.calls[c], Reserved(i))] else s.calls
    case PersistArtifact(c, h) =>
      if c in s.calls && s.calls[c].phase.Reserved?
      then
        var next := if h in s.t.txs then Thrown(OtherError) else Persisted(s.calls[c].phase.intent, h);
        s.calls[c := At(s.calls[c], next)]
      else s.calls
    case AnnounceSweep(c) => s.calls - {c}
    case Route(c) => s.calls - {c}
    case Crash(c) => s.calls - {c}
    case _ => s.calls
  }

  function ScheduledAfter(s: State, a: Action): map<CallId, Group> {
    match a
    case Select(c, g) => s.scheduled[c := g]
    case ClaimTarget(c) => s.scheduled - {c}
    case Crash(c) => s.scheduled - {c}
    case _ => s.scheduled
  }

  function Do(s: State, a: Action, now: Millis): State {
    State(if WriteOf(s, a).Some? then Apply(s.t, WriteOf(s, a).value, now) else s.t,
          ScheduledAfter(s, a), CallsAfter(s, a))
  }

  ghost predicate Next(s: State, a: Action, now: Millis, s': State) {
    Enabled(s, a) && s' == Do(s, a, now)
  }

  datatype Stamped = Stamped(action: Action, now: Millis)

  /** A run: every action of every worker, in commit order, from some first state. */
  ghost predicate Trace(states: seq<State>, log: seq<Stamped>) {
    && |states| == |log| + 1
    && forall k :: 0 <= k < |log| ==> Next(states[k], log[k].action, log[k].now, states[k + 1])
  }

  // ------------------------------------------------------------ discipline

  /** No call other than `c` is live on the group. */
  ghost predicate GroupIdle(s: State, g: Group, c: CallId) {
    forall d :: d in s.calls && d != c ==> s.calls[d].group != g
  }

  /**
   The conditions the code leaves to luck: the group lock outlives the claim transaction, a
   settlement still names a CONFIRMED sweep when it is written, and an escalated intent has
   no linked row that was settled meanwhile.
   */
  ghost predicate Disciplined(s: State, a: Action) {
    match a
    case ClaimTarget(c) =>
      c in s.scheduled ==> ClaimIds(s.t, s.scheduled[c]) == {} || GroupIdle(s, s.scheduled[c], c)
    case Route(c) =>
      c in s.calls && s.calls[c].phase.Thrown? && s.calls[c].phase.outcome.SettledBy? ==>
        s.calls[c].ids == {} || TxStatus(s.t.txs, Some(s.calls[c].phase.outcome.hash)) == Some(Confirmed)
    case EscalateIntent(c) =>
      c in s.calls && s.calls[c].phase.Reusing? ==>
        forall r :: r in s.t.rows && s.t.rows[r].intent == Some(s.calls[c].phase.intent) ==> Unsettled(s.t.rows[r])
    case _ => true
  }

  ghost predicate DisciplinedTrace(states: seq<State>, log: seq<Stamped>) {
    Trace(states, log) && forall k :: 0 <= k < |log| ==> Disciplined(states[k], log[k].action)
  }

  // -------------------------------------------------------------- invariant

  /** Every reference of a row resolves within the row's group. */
  ghost predicate RowLinked(t: Tables, row: Row) {
    && (row.intent.Some? ==> row.intent.value in t.intents && t.intents[row.intent.value].group == row.group)
    && (row.txid.Some? ==> row.txid.value in t.txs && t.txs[row.txid.value].group == row.group)
  }

  ghost predicate RowLinks(t: Tables) {
    forall r :: r in t.rows ==> RowLinked(t, t.rows[r])
  }

  /** An intent's artifact spends the intent's own nonce, and only an intent without artifact is SIGNING. */
  ghost predicate IntentLinks(t: Tables) {
    forall i :: i in t.intents && t.intents[i].txid.Some? ==>
      && t.intents[i].status != Signing
      && t.intents[i].txid.value in t.txs
      && t.txs[t.intents[i].txid.value].group == t.intents[i].group
      && t.txs[t.intents[i].txid.value].nonce == t.intents[i].nonce
  }

  ghost predicate EveryTxHasIntent(t: Tables) {
    forall h :: h in t.txs ==> exists i :: i in t.intents && t.intents[i].txid == Some(h)
  }

  ghost predicate HashesDistinct(t: Tables) {
    forall i, j :: i in t.intents && j in t.intents && i != j && t.intents[i].txid.Some? ==>
      t.intents[i].txid != t.intents[j].txid
  }

  ghost predicate NoncesBelow(t: Tables) {
    forall i :: i in t.intents ==>
      t.intents[i].group.network in t.nonces && t.intents[i].nonce < t.nonces[t.intents[i].group.network]
  }

  ghost predicate NoncesDistinct(t: Tables) {
    forall i, j :: i in t.intents && j in t.intents && i != j &&
                   t.intents[i].group.network == t.intents[j].group.network ==>
      t.intents[i].nonce != t.intents[j].nonce
  }

  ghost predicate OneOpenIntent(t: Tables) {
    forall i, j :: i in t.intents && j in t.intents && i != j && Open(t.intents[i]) && Open(t.intents[j]) ==>
      t.intents[i].group != t.intents[j].group
  }

  /** A row whose sweep, if it has one, is signed and not yet announced. */
  predicate Unannounced(t: Tables, row: Row) {
    row.txid == None || TxStatus(t.txs, row.txid) == Some(Pending)
  }

  ghost predicate BatchOwned(t: Tables, call: Call) {
    forall r :: r in call.ids ==> r in t.rows && t.rows[r].group == call.group && Unannounced(t, t.rows[r])
  }

  ghost predicate BatchUnsigned(t: Tables, call: Call) {
    forall r :: r in call.ids && r in t.rows ==> t.rows[r].txid == None
  }

  ghost predicate PhaseFits(t: Tables, call: Call) {
    match call.phase
    case Entered => true
    case Recovering(h) => h in t.txs && t.txs[h].status == Pending && t.txs[h].group == call.group
    case Unsigned => BatchUnsigned(t, call)
    case Reusing(i) => BatchUnsigned(t, call) && OpenFor(t, i, call.group)
    case Allocating => BatchUnsigned(t, call) && forall i :: i in t.intents ==> !OpenFor(t, i, call.group)
    case Reserved(i) => BatchUnsigned(t, call) && OpenFor(t, i, call.group)
    case Persisted(i, h) =>
      && i in t.intents && t.intents[i].txid == Some(h) && t.intents[i].group == call.group
      && h in t.txs && t.txs[h].status == Pending
    case Thrown(SettledBy(h)) => h in t.txs && t.txs[h].group == call.group
    case Thrown(_) => true
  }

  ghost predicate CallFits(t: Tables, call: Call) {
    BatchOwned(t, call) && PhaseFits(t, call)
  }

  ghost predicate AllFit(t: Tables, calls: map<CallId, Call>) {
    forall c :: c in calls ==> CallFits(t, calls[c])
  }

  /** At most one live call per group. */
  ghost predicate Exclusive(calls: map<CallId, Call>) {
    forall c, d :: c in calls && d in calls && c != d ==> calls[c].group != calls[d].group
  }

  ghost predicate IntentsInv(t: Tables) {
    && IntentLinks(t)
    && EveryTxHasIntent(t)
    && HashesDistinct(t)
    && NoncesBelow(t)
    && NoncesDistinct(t)
    && OneOpenIntent(t)
  }

  /** The statuses a sweep transaction ever takes. */
  ghost predicate TxStatusesKnown(t: Tables) {
    forall h :: h in t.txs ==> t.txs[h].status in {Pending, Broadcast, Confirmed, Failed, StaleBroadcast}
  }

  ghost predicate TablesInv(t: Tables) {
    Lockstep(t) && RowLinks(t) && TxStatusesKnown(t) && IntentsInv(t)
  }

  ghost predicate Inv(s: State) {
    TablesInv(s.t) && AllFit(s.t, s.calls) && Exclusive(s.calls)
  }
}

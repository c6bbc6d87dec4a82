/**
 The sweep queue: what a recovery pass does to every row, which rows it can never free,
 what a claim takes and when a row can be claimed twice, and why the ticks come to rest.
 */
module SweepQueue {
  import opened Options
  import opened SweepTables
  import opened SweepLockstep
  import opened SweepProtocol
  import opened SweepInvariant
  import opened SweepGroups

  // --------------------------------------------------------------- recovery

  /** One recovery pass: three updates, each with its own clock reading. */
  function RecoveryPass(t: Tables, cutoffs: seq<Millis>, nows: seq<Millis>): Tables
    requires |cutoffs| == 3 && |nows| == 3
  {
    var a := Apply(t, RecoverUnreserved(cutoffs[0]), nows[0]);
    var b := Apply(a, RecoverReserved(cutoffs[1]), nows[1]);
    Apply(b, RecoverArtifact(cutoffs[2]), nows[2])
  }

  /** In flight, without artifact, and in none of the three cases of a recovery pass. */
  predicate Stranded(t: Tables, row: Row) {
    row.txid == None && (
      (row.status == Processing && row.intent.Some?) ||
      (row.status == Signing && !LinkedToOpen(row, t.intents)))
  }

  /** The row a recovery pass leaves: requeued by the first case that fits it, and by no other. */
  function Recovered(t: Tables, row: Row, cutoffs: seq<Millis>, nows: seq<Millis>): Row
    requires |cutoffs| == 3 && |nows| == 3
  {
    if StuckUnreserved(row, cutoffs[0]) then Requeue(row, nows[0])
    else if StuckReserved(row, t.intents, cutoffs[1]) then Requeue(row, nows[1])
    else if StuckArtifact(row, cutoffs[2]) then Requeue(row, nows[2])
    else row
  }

  lemma RecoveryPassRow(t: Tables, cutoffs: seq<Millis>, nows: seq<Millis>, r: RowId)
    requires |cutoffs| == 3 && |nows| == 3 && r in t.rows
    ensures r in RecoveryPass(t, cutoffs, nows).rows
    ensures RecoveryPass(t, cutoffs, nows).rows[r] == Recovered(t, t.rows[r], cutoffs, nows)
  {
    var a := Apply(t, RecoverUnreserved(cutoffs[0]), nows[0]);
    var b := Apply(a, RecoverReserved(cutoffs[1]), nows[1]);
    StatusOnlyKeepsLinks(t, RecoverUnreserved(cutoffs[0]), nows[0]);
    RowAt(t, RecoverUnreserved(cutoffs[0]), nows[0], r);
    RowAt(a, RecoverReserved(cutoffs[1]), nows[1], r);
    RowAt(b, RecoverArtifact(cutoffs[2]), nows[2], r);
  }

  /**
   Exact effect of a recovery pass: every link, intent, transaction and nonce survives; a row that
   is stale at all three readings and in flight is PENDING afterwards if and only if it is not stranded.
   */
  lemma RecoveryExact(t: Tables, cutoffs: seq<Millis>, nows: seq<Millis>, r: RowId)
    requires |cutoffs| == 3 && |nows| == 3 && r in t.rows
    ensures SameLinks(t, RecoveryPass(t, cutoffs, nows))
    ensures var row, row' := t.rows[r], RecoveryPass(t, cutoffs, nows).rows[r];
      && row' == Recovered(t, row, cutoffs, nows)
      && (!InFlight(row) ==> row' == row)
      && (InFlight(row) && row.updatedAt < cutoffs[0] && row.updatedAt < cutoffs[1] && row.updatedAt < cutoffs[2] ==>
            (row'.status == Pending <==> !Stranded(t, row)))
  {
    RecoveryPassKeepsLinks(t, cutoffs, nows);
    RecoveryPassRow(t, cutoffs, nows, r);
  }

  lemma RecoveryPassKeepsLinks(t: Tables, cutoffs: seq<Millis>, nows: seq<Millis>)
    requires |cutoffs| == 3 && |nows| == 3
    ensures SameLinks(t, RecoveryPass(t, cutoffs, nows))
  {
    var a := Apply(t, RecoverUnreserved(cutoffs[0]), nows[0]);
    var b := Apply(a, RecoverReserved(cutoffs[1]), nows[1]);
    StatusOnlyKeepsLinks(t, RecoverUnreserved(cutoffs[0]), nows[0]);
    StatusOnlyKeepsLinks(a, RecoverReserved(cutoffs[1]), nows[1]);
    StatusOnlyKeepsLinks(b, RecoverArtifact(cutoffs[2]), nows[2]);
  }

  // ------------------------------------------------------- frozen rows

  /** No call is live on the group and none has selected it. */
  ghost predicate GroupAtRest(s: State, g: Group) {
    && (forall c :: c in s.calls ==> s.calls[c].group != g)
    && (forall c :: c in s.scheduled ==> s.scheduled[c] != g)
  }

  /** A stranded row in a group at rest. */
  ghost predicate Frozen(s: State, r: RowId, row: Row) {
    r in s.t.rows && s.t.rows[r] == row && Stranded(s.t, row) && GroupAtRest(s, row.group)
  }

  lemma FrozenNotSelectable(s: State, r: RowId, row: Row)
    requires Frozen(s, r, row)
    ensures !Selectable(s.t, row.group)
  {
  }

  /** The writes of calls on other groups pass a row by. */
  lemma OtherGroupPassesBy(s: State, a: Action, now: Millis, r: RowId)
    requires Enabled(s, a) && (CallWrite(a) || a.Route?) && r in s.t.rows && a.call in s.calls
    requires CallInGroup(s.t, s.calls[a.call]) && RowInGroup(s.t, s.t.rows[r])
    requires s.calls[a.call].group != s.t.rows[r].group && s.t.rows[r].txid == None
    ensures RowUpdate(s.t, WriteOf(s, a).value, r, s.t.rows[r], now) == s.t.rows[r]
  {
  }

  lemma StepKeepsFrozenRow(s: State, a: Action, now: Millis, r: RowId, row: Row)
    requires GroupInv(s) && Enabled(s, a) && Frozen(s, r, row)
    ensures r in Do(s, a, now).t.rows && Do(s, a, now).t.rows[r] == row
  {
    if WriteOf(s, a).Some? {
      WriteIsReady(s, a);
      RowAt(s.t, WriteOf(s, a).value, now, r);
      if CallWrite(a) || a.Route? {
        OtherGroupPassesBy(s, a, now, r);
      }
    }
  }

  lemma StepKeepsGroupQuiet(s: State, a: Action, g: Group)
    requires Enabled(s, a) && !Selectable(s.t, g)
    requires forall c :: c in s.calls ==> s.calls[c].group != g
    requires forall c :: c in s.scheduled ==> s.scheduled[c] != g
    ensures forall c :: c in CallsAfter(s, a) ==> CallsAfter(s, a)[c].group != g
    ensures forall c :: c in ScheduledAfter(s, a) ==> ScheduledAfter(s, a)[c] != g
  {
  }

  /** No intent opens again, so what is stranded as it stands stays stranded. */
  lemma StepKeepsStranded(s: State, a: Action, now: Millis, row: Row)
    requires Enabled(s, a) && RowInGroup(s.t, row) && Stranded(s.t, row)
    ensures Stranded(Do(s, a, now).t, row)
  {
    hide Apply, Enabled;
    if WriteOf(s, a).Some? && row.intent.Some? {
      WriteIsReady(s, a);
      IntentAt(s.t, WriteOf(s, a).value, now, row.intent.value);
    }
  }

  lemma StepKeepsFrozen(s: State, a: Action, now: Millis, r: RowId, row: Row)
    requires GroupInv(s) && Enabled(s, a) && Frozen(s, r, row)
    ensures Frozen(Do(s, a, now), r, row)
  {
    hide Apply, Enabled, Stranded, WriteOf, CallsAfter, ScheduledAfter;
    FrozenNotSelectable(s, r, row);
    StepKeepsFrozenRow(s, a, now, r, row);
    StepKeepsGroupQuiet(s, a, row.group);
    StepKeepsStranded(s, a, now, row);
  }

  /** A row frozen once is frozen for good, in every run: no recovery, deposit, crash or restart ever moves it. */
  lemma {:induction false} FrozenForever(states: seq<State>, log: seq<Stamped>, n: nat, r: RowId, row: Row)
    requires Trace(states, log) && GroupInv(states[0]) && n < |states| && Frozen(states[0], r, row)
    ensures Frozen(states[n], r, row)
  {
    hide GroupInv, Frozen, Enabled, Do;
    if n > 0 {
      FrozenForever(states, log, n - 1, r, row);
      RunKeepsGroups(states, log, n - 1);
      assert Next(states[n - 1], log[n - 1].action, log[n - 1].now, states[n - 1 + 1]);
      StepKeepsFrozen(states[n - 1], log[n - 1].action, log[n - 1].now, r, row);
    }
  }

  /** And its group, with every deposit that still arrives in it, is never selected again. */
  lemma FrozenGroupNeverSelected(states: seq<State>, log: seq<Stamped>, n: nat, r: RowId, row: Row)
    requires Trace(states, log) && GroupInv(states[0]) && n < |states| && Frozen(states[0], r, row)
    ensures !Selectable(states[n].t, row.group)
  {
    FrozenForever(states, log, n, r, row);
    FrozenNotSelectable(states[n], r, row);
  }

  /** The recovery update that frees a row which is not stranded. */
  lemma NotStrandedIsRequeued(t: Tables, r: RowId, now: Millis) returns (w: Write)
    requires r in t.rows && InFlight(t.rows[r]) && !Stranded(t, t.rows[r])
    ensures w.RecoverUnreserved? || w.RecoverReserved? || w.RecoverArtifact?
    ensures ClaimableAt(Apply(t, w, now), r)
  {
    var row := t.rows[r];
    var before := row.updatedAt + 1;
    w := if row.txid.Some? then RecoverArtifact(before)
         else if row.status == Processing then RecoverUnreserved(before) else RecoverReserved(before);
    RowAt(t, w, now, r);
  }

  lemma NotStrandedIsFreed(s: State, r: RowId) returns (states: seq<State>, log: seq<Stamped>)
    requires r in s.t.rows && InFlight(s.t.rows[r]) && !Stranded(s.t, s.t.rows[r])
    ensures Trace(states, log) && states[0] == s && |states| == 2 && ClaimableAt(states[1].t, r)
  {
    hide Apply;
    var w := NotStrandedIsRequeued(s.t, r, 0);
    states, log := [s, Do(s, Commit(w), 0)], [Stamped(Commit(w), 0)];
    assert Next(states[0], log[0].action, log[0].now, states[0 + 1]);
  }

  /**
   Which rows the queue loses for good.  A row in flight in a group at rest can never be claimed
   again, in any run, if and only if it is stranded: if it is not, one recovery update frees it.
   */
  lemma NeverClaimableIff(s: State, r: RowId)
    requires GroupInv(s) && r in s.t.rows && InFlight(s.t.rows[r]) && GroupAtRest(s, s.t.rows[r].group)
    ensures (forall states: seq<State>, log: seq<Stamped>, n: nat ::
               Trace(states, log) && states[0] == s && n < |states| ==> !ClaimableAt(states[n].t, r))
       <==> Stranded(s.t, s.t.rows[r])
  {
    hide Next, GroupInv;
    if Stranded(s.t, s.t.rows[r]) {
      forall states: seq<State>, log: seq<Stamped>, n: nat
        | Trace(states, log) && states[0] == s && n < |states|
        ensures !ClaimableAt(states[n].t, r)
      {
        FrozenForever(states, log, n, r, s.t.rows[r]);
      }
    } else {
      var states, log := NotStrandedIsFreed(s, r);
      assert Trace(states, log) && states[0] == s && ClaimableAt(states[1].t, r);
    }
  }

  // ------------------------------------------------------------------ claims

  /** A claim takes every claimable row of its group and nothing else, and leaves none of the group claimable. */
  lemma ClaimTakesWholeGroup(s: State, c: CallId, now: Millis)
    requires Enabled(s, ClaimTarget(c))
    ensures var s' := Do(s, ClaimTarget(c), now);
      var g := s.scheduled[c];
      && (forall r :: r in s'.t.rows && s'.t.rows[r].group == g ==> !Claimable(s'.t.rows[r]))
      && (forall r :: r in s.t.rows ==>
            (s'.t.rows[r] != s.t.rows[r] ==> r in ClaimIds(s.t, g)) &&
            (r in ClaimIds(s.t, g) ==> s'.t.rows[r] == s.t.rows[r].(status := Processing, updatedAt := now)))
      && (c !in s.calls ==>
            (c in s'.calls <==> exists r :: r in s.t.rows && s.t.rows[r].group == g && Claimable(s.t.rows[r])))
      && (c in s'.calls && c !in s.calls ==> s'.calls[c] == Call(g, ClaimIds(s.t, g), Entered))
  {
    var g := s.scheduled[c];
    if r :| r in s.t.rows && s.t.rows[r].group == g && Claimable(s.t.rows[r]) {
      assert r in ClaimIds(s.t, g);
    }
    if ClaimIds(s.t, g) != {} {
      var r :| r in ClaimIds(s.t, g);
    }
  }

  /** The steps that hand a row back to the queue. */
  ghost predicate Releases(s: State, a: Action, r: RowId) {
    r in s.t.rows &&
    match a
    case Commit(RecoverUnreserved(before)) => StuckUnreserved(s.t.rows[r], before)
    case Commit(RecoverReserved(before)) => StuckReserved(s.t.rows[r], s.t.intents, before)
    case Commit(RecoverArtifact(before)) => StuckArtifact(s.t.rows[r], before)
    case Commit(Resolve(h, Reverted, _)) => s.t.rows[r].txid == Some(h)
    case FinishRecovery(c, Reverted) =>
      c in s.calls && s.calls[c].phase.Recovering? && s.t.rows[r].txid == Some(s.calls[c].phase.hash)
    case Route(c) =>
      && c in s.calls && r in s.calls[c].ids
      && (s.calls[c].phase == Thrown(Dust) || s.calls[c].phase == Thrown(OtherError))
    case _ => false
  }

  predicate ClaimableAt(t: Tables, r: RowId) {
    r in t.rows && Claimable(t.rows[r])
  }

  lemma OnlyReleasesRequeue(s: State, a: Action, now: Millis, r: RowId)
    requires Enabled(s, a) && r in s.t.rows && !ClaimableAt(s.t, r) && ClaimableAt(Do(s, a, now).t, r)
    ensures Releases(s, a, r)
  {
    WriteIsReady(s, a);
    RowAt(s.t, WriteOf(s, a).value, now, r);
  }

  lemma {:induction false} ReleaseBetween(states: seq<State>, log: seq<Stamped>, i: nat, j: nat, r: RowId)
    returns (k: nat)
    requires Trace(states, log) && i <= j < |states|
    requires r in states[i].t.rows && !ClaimableAt(states[i].t, r) && ClaimableAt(states[j].t, r)
    ensures i <= k < j && Releases(states[k], log[k].action, r)
    ensures !ClaimableAt(states[k].t, r) && ClaimableAt(states[k + 1].t, r)
  {
    var n := j - 1;
    RowPersists(states, log, i, n, r);
    assert Next(states[n], log[n].action, log[n].now, states[n + 1]);
    if ClaimableAt(states[n].t, r) {
      k := ReleaseBetween(states, log, i, n, r);
    } else {
      OnlyReleasesRequeue(states[n], log[n].action, log[n].now, r);
      k := n;
    }
  }

  lemma {:induction false} RowPersists(states: seq<State>, log: seq<Stamped>, i: nat, j: nat, r: RowId)
    requires Trace(states, log) && i <= j < |states| && r in states[i].t.rows
    ensures r in states[j].t.rows
  {
    if i < j {
      RowPersists(states, log, i, j - 1, r);
      assert Next(states[j - 1], log[j - 1].action, log[j - 1].now, states[j - 1 + 1]);
      if WriteOf(states[j - 1], log[j - 1].action).Some? {
        WriteIsReady(states[j - 1], log[j - 1].action);
        RowAt(states[j - 1].t, WriteOf(states[j - 1], log[j - 1].action).value, log[j - 1].now, r);
      }
    }
  }

  /** Over every run: two claims share a row only if some step in between handed that row back. */
  lemma SharedRowWasReleased(states: seq<State>, log: seq<Stamped>, i: nat, j: nat, r: RowId) returns (k: nat)
    requires Trace(states, log) && i < j < |log|
    requires log[i].action.ClaimTarget? && log[i].action.call in states[i].scheduled
    requires log[j].action.ClaimTarget? && log[j].action.call in states[j].scheduled
    requires r in ClaimIds(states[i].t, states[i].scheduled[log[i].action.call])
    requires r in ClaimIds(states[j].t, states[j].scheduled[log[j].action.call])
    ensures i < k < j && Releases(states[k], log[k].action, r)
    ensures !ClaimableAt(states[k].t, r) && ClaimableAt(states[k + 1].t, r)
  {
    assert Next(states[i], log[i].action, log[i].now, states[i + 1]);
    ClaimTakesWholeGroup(states[i], log[i].action.call, log[i].now);
    k := ReleaseBetween(states, log, i + 1, j, r);
  }

  // -------------------------------------------------------------- quiescence

  function PendingRows(t: Tables): set<RowId> {
    set r | r in t.rows && t.rows[r].status == Pending
  }

  /** No new deposit, no row to recover, no reverted sweep, no unclassified failure. */
  predicate Quiet(s: State, a: Action) {
    match a
    case Commit(Arrive(_, _)) => false
    case Commit(RecoverUnreserved(before)) => forall r :: r in s.t.rows ==> !StuckUnreserved(s.t.rows[r], before)
    case Commit(RecoverReserved(before)) =>
      forall r :: r in s.t.rows ==> !StuckReserved(s.t.rows[r], s.t.intents, before)
    case Commit(RecoverArtifact(before)) => forall r :: r in s.t.rows ==> !StuckArtifact(s.t.rows[r], before)
    case Commit(Resolve(_, v, _)) => !v.Reverted?
    case FinishRecovery(_, v) => !v.Reverted?
    case Route(c) => c in s.calls ==> s.calls[c].phase != Thrown(OtherError)
    case _ => true
  }

  lemma QuietShrinksPending(s: State, a: Action, now: Millis)
    requires Enabled(s, a) && Quiet(s, a)
    ensures PendingRows(Do(s, a, now).t) <= PendingRows(s.t)
  {
    var s' := Do(s, a, now);
    forall r | r in PendingRows(s'.t) ensures r in PendingRows(s.t) {
      if WriteOf(s, a).Some? {
        WriteIsReady(s, a);
        assert r in s.t.rows;
        RowAt(s.t, WriteOf(s, a).value, now, r);
      }
    }
  }

  /** A claim of a group that still has a PENDING row, as every selected target had. */
  ghost predicate EffectiveClaim(s: State, a: Action) {
    && a.ClaimTarget? && a.call in s.scheduled
    && exists r :: r in PendingRows(s.t) && s.t.rows[r].group == s.scheduled[a.call]
  }

  lemma EffectiveClaimShrinksPending(s: State, a: Action, now: Millis)
    requires Enabled(s, a) && EffectiveClaim(s, a)
    ensures PendingRows(Do(s, a, now).t) < PendingRows(s.t)
  {
    QuietShrinksPending(s, a, now);
    var r :| r in PendingRows(s.t) && s.t.rows[r].group == s.scheduled[a.call];
    ClaimTakesWholeGroup(s, a.call, now);
    assert r !in PendingRows(Do(s, a, now).t);
  }

  lemma ProperSubsetIsSmaller(a: set<RowId>, b: set<RowId>)
    requires a <= b
    ensures |a| <= |b|
    ensures a != b ==> |a| < |b|
  {
    assert b == a + (b - a);
  }

  ghost function EffectiveClaims(states: seq<State>, log: seq<Stamped>): nat
    requires |states| >= |log|
  {
    if |log| == 0 then 0
    else EffectiveClaims(states, log[..|log| - 1]) +
         if EffectiveClaim(states[|log| - 1], log[|log| - 1].action) then 1 else 0
  }

  /** Over every quiet run, the claims made and the rows still pending never exceed the rows pending at the start. */
  lemma {:induction false} QuietRunComesToRest(states: seq<State>, log: seq<Stamped>)
    requires Trace(states, log) && forall k :: 0 <= k < |log| ==> Quiet(states[k], log[k].action)
    ensures EffectiveClaims(states, log) + |PendingRows(states[|log|].t)| <= |PendingRows(states[0].t)|
  {
    if |log| > 0 {
      var n := |log| - 1;
      var states', log' := states[..n + 1], log[..n];
      assert Trace(states', log');
      QuietRunComesToRest(states', log');
      EffectiveClaimsPrefix(states, states', log');
      var s, a, now := states[n], log[n].action, log[n].now;
      assert Next(s, a, now, states[n + 1]);
      QuietShrinksPending(s, a, now);
      ProperSubsetIsSmaller(PendingRows(states[n + 1].t), PendingRows(s.t));
      if EffectiveClaim(s, a) {
        EffectiveClaimShrinksPending(s, a, now);
      }
    }
  }

  lemma {:induction false} EffectiveClaimsPrefix(states: seq<State>, states': seq<State>, log: seq<Stamped>)
    requires |log| <= |states'| <= |states| && states' == states[..|states'|]
    ensures EffectiveClaims(states, log) == EffectiveClaims(states', log)
  {
    if |log| > 0 {
      EffectiveClaimsPrefix(states, states', log[..|log| - 1]);
    }
  }

  lemma QuietKeepsGroupEmpty(s: State, a: Action, now: Millis, g: Group)
    requires Enabled(s, a) && Quiet(s, a)
    requires NonePending(s.t, g)
    ensures NonePending(Do(s, a, now).t, g)
  {
    QuietShrinksPending(s, a, now);
    forall r | r in PendingRows(Do(s, a, now).t) ensures Do(s, a, now).t.rows[r].group != g {
      assert r in PendingRows(s.t);
      if WriteOf(s, a).Some? {
        WriteIsReady(s, a);
        RowAt(s.t, WriteOf(s, a).value, now, r);
      }
    }
  }

  predicate NonePending(t: Tables, g: Group) {
    forall r :: r in PendingRows(t) ==> t.rows[r].group != g
  }

  /** The calls that have selected a group and not yet claimed it. */
  function ScheduledFor(s: State, g: Group): set<CallId> {
    set c | c in s.scheduled && s.scheduled[c] == g
  }

  /** A claim of the group, whatever it finds. */
  predicate ClaimsGroup(s: State, a: Action, g: Group) {
    a.ClaimTarget? && a.call in s.scheduled && s.scheduled[a.call] == g
  }

  lemma NonePendingNotSelected(t: Tables, g: Group)
    requires NonePending(t, g)
    ensures !Selectable(t, g)
  {
    forall r | r in t.rows && t.rows[r].group == g ensures t.rows[r].status != Pending {
      assert r !in PendingRows(t);
    }
  }

  /** Without a PENDING row the group is not selected, so its schedule only shrinks, by one with every claim. */
  lemma ScheduleShrinks(s: State, a: Action, now: Millis, g: Group)
    requires Enabled(s, a) && NonePending(s.t, g)
    ensures ScheduledFor(Do(s, a, now), g) <= ScheduledFor(s, g)
    ensures ClaimsGroup(s, a, g) ==>
      a.ClaimTarget? && a.call in ScheduledFor(s, g) && a.call !in ScheduledFor(Do(s, a, now), g)
  {
    NonePendingNotSelected(s.t, g);
  }

  ghost function ClaimsOf(states: seq<State>, log: seq<Stamped>, g: Group): nat
    requires |states| >= |log|
  {
    if |log| == 0 then 0
    else ClaimsOf(states, log[..|log| - 1], g)
         + if ClaimsGroup(states[|log| - 1], log[|log| - 1].action, g) then 1 else 0
  }

  lemma {:induction false} ClaimsOfPrefix(states: seq<State>, states': seq<State>, log: seq<Stamped>, g: Group)
    requires |log| <= |states'| <= |states| && states' == states[..|states'|]
    ensures ClaimsOf(states, log, g) == ClaimsOf(states', log, g)
  {
    if |log| > 0 {
      ClaimsOfPrefix(states, states', log[..|log| - 1], g);
    }
  }

  /**
   Deferred dust and new deposits.  Over a quiet run a group without PENDING rows stays without
   and is never selected; it is claimed, dust included, only by calls that had selected it
   before, each of them at most once.
   */
  lemma {:induction false} DustWaitsForDeposit(states: seq<State>, log: seq<Stamped>, g: Group)
    requires Trace(states, log) && NonePending(states[0].t, g)
    requires forall k :: 0 <= k < |log| ==> Quiet(states[k], log[k].action)
    ensures NonePending(states[|log|].t, g) && !Selectable(states[|log|].t, g)
    ensures ScheduledFor(states[|log|], g) <= ScheduledFor(states[0], g)
    ensures ClaimsOf(states, log, g) + |ScheduledFor(states[|log|], g)| <= |ScheduledFor(states[0], g)|
    ensures forall k :: 0 <= k < |log| && ClaimsGroup(states[k], log[k].action, g) ==>
      log[k].action.call in ScheduledFor(states[0], g)
  {
    hide Quiet, ClaimsGroup, ScheduledFor, Selectable, NonePending, Do, Enabled;
    NonePendingNotSelected(states[0].t, g);
    if |log| > 0 {
      var n := |log| - 1;
      var states', log' := states[..n + 1], log[..n];
      assert Trace(states', log') by {
        forall k | 0 <= k < n ensures Next(states'[k], log'[k].action, log'[k].now, states'[k + 1]) {
          assert Next(states[k], log[k].action, log[k].now, states[k + 1]);
        }
      }
      DustWaitsForDeposit(states', log', g);
      ClaimsOfPrefix(states, states', log', g);
      var s, a, now := states[n], log[n].action, log[n].now;
      assert Next(s, a, now, states[n + 1]);
      QuietKeepsGroupEmpty(s, a, now, g);
      NonePendingNotSelected(states[n + 1].t, g);
      ScheduleShrinks(s, a, now, g);
      CallSetShrinks(ScheduledFor(states[n + 1], g), ScheduledFor(s, g), a, ClaimsGroup(s, a, g));
    }
  }

  /** A call that has selected the group claims it in a quiet step. */
  lemma ScheduledClaims(s: State, c: CallId, g: Group) returns (states: seq<State>, log: seq<Stamped>)
    requires c in ScheduledFor(s, g)
    ensures Trace(states, log) && states[0] == s && ClaimsOf(states, log, g) == 1
    ensures forall k :: 0 <= k < |log| ==> Quiet(states[k], log[k].action)
  {
    hide Apply;
    states, log := [s, Do(s, ClaimTarget(c), 0)], [Stamped(ClaimTarget(c), 0)];
    assert Next(states[0], log[0].action, log[0].now, states[0 + 1]);
    assert log[..0] == [] && ClaimsOf(states, log[..0], g) == 0;
  }

  ghost predicate QuietTrace(states: seq<State>, log: seq<Stamped>) {
    Trace(states, log) && forall k :: 0 <= k < |log| ==> Quiet(states[k], log[k].action)
  }

  /** No quiet run claims a group without PENDING rows exactly when no call has selected it before. */
  lemma NeverClaimedIff(s: State, g: Group)
    requires NonePending(s.t, g)
    ensures (forall states: seq<State>, log: seq<Stamped> ::
               QuietTrace(states, log) && states[0] == s ==> ClaimsOf(states, log, g) == 0)
       <==> ScheduledFor(s, g) == {}
  {
    hide Next, NonePending, ScheduledFor, ClaimsOf, Quiet;
    if c :| c in ScheduledFor(s, g) {
      var states, log := ScheduledClaims(s, c, g);
      assert QuietTrace(states, log) && states[0] == s && ClaimsOf(states, log, g) == 1;
    } else {
      forall states: seq<State>, log: seq<Stamped> | QuietTrace(states, log) && states[0] == s
        ensures ClaimsOf(states, log, g) == 0
      {
        DustWaitsForDeposit(states, log, g);
      }
    }
  }

  lemma CallSetShrinks(after: set<CallId>, before: set<CallId>, a: Action, claims: bool)
    requires after <= before && (claims ==> a.ClaimTarget? && a.call in before && a.call !in after)
    ensures |after| + (if claims then 1 else 0) <= |before|
  {
    assert before == after + (before - after);
    if claims {
      assert a.call in before - after;
    }
  }
}

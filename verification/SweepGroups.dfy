/**
 What holds in every run, disciplined or not: the rows of a batch and the intents a call or a row
 refers to belong to one group, because every query that finds them filters on it.
 */
module SweepGroups {
  import opened Options
  import opened SweepTables
  import opened SweepLockstep
  import opened SweepProtocol

  ghost predicate RowInGroup(t: Tables, row: Row) {
    row.intent.Some? ==> row.intent.value in t.intents && t.intents[row.intent.value].group == row.group
  }

  ghost predicate RowsInGroup(t: Tables) {
    forall r :: r in t.rows ==> RowInGroup(t, t.rows[r])
  }

  /** The intent a call works on, once it has one. */
  function IntentOf(phase: Phase): Option<IntentId> {
    match phase
    case Reusing(i) => Some(i)
    case Reserved(i) => Some(i)
    case Persisted(i, _) => Some(i)
    case _ => None
  }

  ghost predicate CallInGroup(t: Tables, call: Call) {
    && (forall r :: r in call.ids ==> r in t.rows && t.rows[r].group == call.group)
    && (IntentOf(call.phase).Some? ==>
          IntentOf(call.phase).value in t.intents && t.intents[IntentOf(call.phase).value].group == call.group)
  }

  ghost predicate GroupInv(s: State) {
    RowsInGroup(s.t) && forall c :: c in s.calls ==> CallInGroup(s.t, s.calls[c])
  }

  lemma WriteIsReady(s: State, a: Action)
    requires Enabled(s, a) && WriteOf(s, a).Some?
    ensures Ready(s.t, WriteOf(s, a).value)
  {
  }

  /** No write moves a row or an intent to another group, or deletes it. */
  lemma GroupsStay(t: Tables, w: Write, now: Millis)
    requires Ready(t, w)
    ensures forall r :: r in t.rows ==> r in Apply(t, w, now).rows && Apply(t, w, now).rows[r].group == t.rows[r].group
    ensures forall i ::
      i in t.intents ==> i in Apply(t, w, now).intents && Apply(t, w, now).intents[i].group == t.intents[i].group
  {
    forall r | r in t.rows ensures r in Apply(t, w, now).rows && Apply(t, w, now).rows[r].group == t.rows[r].group {
      RowAt(t, w, now, r);
    }
    forall i | i in t.intents
      ensures i in Apply(t, w, now).intents && Apply(t, w, now).intents[i].group == t.intents[i].group
    {
      IntentAt(t, w, now, i);
    }
  }

  /** A write links rows to an intent of their own group. */
  ghost predicate LinksInGroup(t: Tables, w: Write) {
    match w
    case Reserve(ids, _, g, _) => forall r :: r in ids && r in t.rows ==> t.rows[r].group == g
    case Reuse(ids, i) =>
      forall r :: r in ids && r in t.rows ==> i in t.intents && t.intents[i].group == t.rows[r].group
    case _ => true
  }

  lemma WriteKeepsRowGroups(t: Tables, w: Write, now: Millis)
    requires RowsInGroup(t) && Ready(t, w) && LinksInGroup(t, w)
    ensures RowsInGroup(Apply(t, w, now))
  {
    var u := Apply(t, w, now);
    GroupsStay(t, w, now);
    forall r | r in u.rows ensures RowInGroup(u, u.rows[r]) {
      if r in t.rows {
        assert RowInGroup(t, t.rows[r]);
        RowAt(t, w, now, r);
      }
    }
  }

  lemma CallStaysInGroup(t: Tables, w: Write, now: Millis, call: Call)
    requires Ready(t, w) && CallInGroup(t, call)
    ensures CallInGroup(Apply(t, w, now), call)
  {
    hide Apply;
    GroupsStay(t, w, now);
  }

  /** The tables after an action. */
  lemma ActionKeepsGroups(s: State, a: Action, now: Millis)
    requires GroupInv(s) && Enabled(s, a)
    ensures RowsInGroup(Do(s, a, now).t)
    ensures forall c :: c in s.calls ==> CallInGroup(Do(s, a, now).t, s.calls[c])
  {
    hide Apply;
    if WriteOf(s, a).Some? {
      var w := WriteOf(s, a).value;
      WriteIsReady(s, a);
      assert LinksInGroup(s.t, w) by {
        if a.ReserveNonce? || a.ReuseIntent? {
          assert CallInGroup(s.t, s.calls[a.call]);
        }
      }
      WriteKeepsRowGroups(s.t, w, now);
      forall c | c in s.calls ensures CallInGroup(Do(s, a, now).t, s.calls[c]) {
        CallStaysInGroup(s.t, w, now, s.calls[c]);
      }
    }
  }

  lemma ClaimedInGroup(s: State, c: CallId, now: Millis)
    requires c in s.scheduled
    ensures CallInGroup(Apply(s.t, Claim(s.scheduled[c]), now),
                        Call(s.scheduled[c], ClaimIds(s.t, s.scheduled[c]), Entered))
  {
    GroupsStay(s.t, Claim(s.scheduled[c]), now);
  }

  lemma ReservedInGroup(s: State, c: CallId, i: IntentId, chainNonce: int, now: Millis)
    requires c in s.calls
    ensures var t := Apply(s.t, Reserve(s.calls[c].ids, i, s.calls[c].group, chainNonce), now);
      i in t.intents && t.intents[i].group == s.calls[c].group
  {
  }

  lemma CallsAfterInGroup(s: State, a: Action, now: Millis, c: CallId)
    requires GroupInv(s) && Enabled(s, a) && c in CallsAfter(s, a)
    ensures CallInGroup(Do(s, a, now).t, CallsAfter(s, a)[c])
  {
    hide Apply;
    ActionKeepsGroups(s, a, now);
    match a
    case ClaimTarget(d) =>
      ClaimedInGroup(s, d, now);
    case ReserveNonce(d, i, n) =>
      ReservedInGroup(s, d, i, n, now);
    case _ =>
  }

  lemma StepKeepsGroups(s: State, a: Action, now: Millis)
    requires GroupInv(s) && Enabled(s, a)
    ensures GroupInv(Do(s, a, now))
  {
    hide CallInGroup, RowsInGroup, Apply;
    ActionKeepsGroups(s, a, now);
    forall c | c in CallsAfter(s, a) ensures CallInGroup(Do(s, a, now).t, CallsAfter(s, a)[c]) {
      CallsAfterInGroup(s, a, now, c);
    }
  }

  /** Over every run from a state in which it holds, and so from empty tables. */
  lemma {:induction false} RunKeepsGroups(states: seq<State>, log: seq<Stamped>, n: nat)
    requires Trace(states, log) && GroupInv(states[0]) && n < |states|
    ensures GroupInv(states[n])
  {
    hide GroupInv, Enabled, Do;
    if n > 0 {
      RunKeepsGroups(states, log, n - 1);
      assert Next(states[n - 1], log[n - 1].action, log[n - 1].now, states[n - 1 + 1]);
      StepKeepsGroups(states[n - 1], log[n - 1].action, log[n - 1].now);
    }
  }
}

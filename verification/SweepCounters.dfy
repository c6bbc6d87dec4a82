/**
 Which nonces are handed out.  The first use of a hot wallet's nonce on a network, by a sweep or by
 another sender, starts the counter at the chain's own count; from then on every use takes the
 next number, so that none is skipped and none is handed out twice.
 */
module SweepCounters {
  import opened Options
  import opened SweepTables
  import opened SweepLockstep
  import opened SweepProtocol
  import opened SweepGroups

  /** A committed step that takes a nonce of the network: a sweep's reservation or another sender's allocation. */
  predicate TakesNonce(s: State, a: Action, n: Network) {
    match a
    case ReserveNonce(c, _, _) => c in s.calls && s.calls[c].group.network == n
    case Commit(Allocate(m, _)) => m == n
    case _ => false
  }

  /** The transaction count that such a step read from the chain. */
  function ChainCount(a: Action): int {
    match a
    case ReserveNonce(_, _, count) => count
    case Commit(Allocate(_, count)) => count
    case _ => 0
  }

  /** How many nonces of the network the steps before `k` have taken. */
  function Taken(states: seq<State>, log: seq<Stamped>, k: nat, n: Network): nat
    requires k <= |log| <= |states|
  {
    if k == 0 then 0
    else Taken(states, log, k - 1, n) + if TakesNonce(states[k - 1], log[k - 1].action, n) then 1 else 0
  }

  /** The first step to take one is number `f`. */
  predicate FirstToTake(states: seq<State>, log: seq<Stamped>, f: nat, n: Network)
    requires f < |log| <= |states|
  {
    && TakesNonce(states[f], log[f].action, n)
    && forall k :: 0 <= k < f ==> !TakesNonce(states[k], log[k].action, n)
  }

  ghost predicate Unused(t: Tables, n: Network) {
    n !in t.nonces && forall i :: i in t.intents ==> t.intents[i].group.network != n
  }

  /** The counter stands at `top`, and the network's intents hold nonces from `bottom` up to it. */
  ghost predicate CountedFrom(t: Tables, n: Network, bottom: int, top: int) {
    && n in t.nonces && t.nonces[n] == top
    && forall i :: i in t.intents && t.intents[i].group.network == n ==> bottom <= t.intents[i].nonce < top
  }

  /** A write that takes no nonce of the network. */
  predicate LeavesCounter(w: Write, n: Network) {
    (w.Reserve? ==> w.group.network != n) && (w.Allocate? ==> w.network != n)
  }

  lemma OtherWriteKeepsCounter(t: Tables, w: Write, now: Millis, n: Network)
    requires LeavesCounter(w, n)
    ensures n in Apply(t, w, now).nonces <==> n in t.nonces
    ensures n in t.nonces ==> Apply(t, w, now).nonces[n] == t.nonces[n]
  {
    hide UpdatedRows, UpdatedIntents, UpdatedTxs;
  }

  lemma OtherWriteKeepsIntents(t: Tables, w: Write, now: Millis, n: Network, i: IntentId)
    requires Ready(t, w) && LeavesCounter(w, n)
    requires i in Apply(t, w, now).intents && Apply(t, w, now).intents[i].group.network == n
    ensures i in t.intents && t.intents[i].group.network == n
    ensures Apply(t, w, now).intents[i].nonce == t.intents[i].nonce
  {
    if i in t.intents {
      IntentAt(t, w, now, i);
    }
  }

  lemma OtherStepLeavesCounter(s: State, a: Action, n: Network)
    requires Enabled(s, a) && !TakesNonce(s, a, n) && WriteOf(s, a).Some?
    ensures LeavesCounter(WriteOf(s, a).value, n)
  {
  }

  lemma OtherStepKeepsUnused(s: State, a: Action, now: Millis, n: Network)
    requires Enabled(s, a) && !TakesNonce(s, a, n) && Unused(s.t, n)
    ensures Unused(Do(s, a, now).t, n)
  {
    hide Apply, Enabled, TakesNonce, WriteOf;
    if WriteOf(s, a).Some? {
      var w := WriteOf(s, a).value;
      WriteIsReady(s, a);
      OtherStepLeavesCounter(s, a, n);
      OtherWriteKeepsCounter(s.t, w, now, n);
      forall i | i in Do(s, a, now).t.intents ensures Do(s, a, now).t.intents[i].group.network != n {
        if Do(s, a, now).t.intents[i].group.network == n {
          OtherWriteKeepsIntents(s.t, w, now, n, i);
        }
      }
    }
  }

  lemma OtherStepKeepsCount(s: State, a: Action, now: Millis, n: Network, bottom: int, top: int)
    requires Enabled(s, a) && !TakesNonce(s, a, n) && CountedFrom(s.t, n, bottom, top)
    ensures CountedFrom(Do(s, a, now).t, n, bottom, top)
  {
    hide Apply, Enabled, TakesNonce, WriteOf;
    if WriteOf(s, a).Some? {
      var w := WriteOf(s, a).value;
      WriteIsReady(s, a);
      OtherStepLeavesCounter(s, a, n);
      OtherWriteKeepsCounter(s.t, w, now, n);
      forall i | i in Do(s, a, now).t.intents && Do(s, a, now).t.intents[i].group.network == n
        ensures bottom <= Do(s, a, now).t.intents[i].nonce < top
      {
        OtherWriteKeepsIntents(s.t, w, now, n, i);
      }
    }
  }

  /** The step takes nonce `nonce`: the counter moves past it, and a reservation stores it in its new intent. */
  ghost predicate Takes(s: State, a: Action, u: Tables, n: Network, nonce: int) {
    && n in u.nonces && u.nonces[n] == nonce + 1
    && (a.ReserveNonce? ==>
          && a.intent in u.intents && a.call in s.calls
          && u.intents[a.intent] == Intent(s.calls[a.call].group, nonce, Signing, None))
    && (forall i :: i in u.intents && !(a.ReserveNonce? && i == a.intent) ==>
          i in s.t.intents && u.intents[i] == s.t.intents[i])
  }

  lemma FirstStepTakes(s: State, a: Action, now: Millis, n: Network)
    requires Enabled(s, a) && TakesNonce(s, a, n) && Unused(s.t, n)
    ensures Takes(s, a, Do(s, a, now).t, n, ChainCount(a))
    ensures CountedFrom(Do(s, a, now).t, n, ChainCount(a), ChainCount(a) + 1)
  {
  }

  lemma NextStepTakes(s: State, a: Action, now: Millis, n: Network, bottom: int, top: int)
    requires Enabled(s, a) && TakesNonce(s, a, n) && CountedFrom(s.t, n, bottom, top) && bottom <= top
    ensures Takes(s, a, Do(s, a, now).t, n, top)
    ensures CountedFrom(Do(s, a, now).t, n, bottom, top + 1)
  {
  }

  lemma {:induction false} UnusedBefore(states: seq<State>, log: seq<Stamped>, k: nat, n: Network)
    requires Trace(states, log) && Unused(states[0].t, n) && k <= |log|
    requires forall j :: 0 <= j < k ==> !TakesNonce(states[j], log[j].action, n)
    ensures Unused(states[k].t, n) && Taken(states, log, k, n) == 0
  {
    hide Enabled, Do, TakesNonce, Unused;
    if k > 0 {
      UnusedBefore(states, log, k - 1, n);
      assert Next(states[k - 1], log[k - 1].action, log[k - 1].now, states[k - 1 + 1]);
      OtherStepKeepsUnused(states[k - 1], log[k - 1].action, log[k - 1].now, n);
    }
  }

  /**
   Over every run in which the network was unused at the start: once the first step to take a nonce
   has read the chain's count `c`, the counter is `c` plus the number of nonces taken, and every
   intent of the network holds a nonce between the two.
   */
  lemma {:induction false} CounterFollowsChain(states: seq<State>, log: seq<Stamped>, f: nat, k: nat, n: Network)
    requires Trace(states, log) && Unused(states[0].t, n) && f < k <= |log| && FirstToTake(states, log, f, n)
    ensures var c := ChainCount(log[f].action);
      CountedFrom(states[k].t, n, c, c + Taken(states, log, k, n)) && Taken(states, log, k, n) > 0
  {
    hide Enabled, Do, TakesNonce, Unused, CountedFrom, ChainCount, Takes;
    var s, a, now := states[k - 1], log[k - 1].action, log[k - 1].now;
    assert Next(s, a, now, states[k - 1 + 1]);
    if k - 1 == f {
      UnusedBefore(states, log, f, n);
      FirstStepTakes(s, a, now, n);
    } else {
      CounterFollowsChain(states, log, f, k - 1, n);
      var c, top := ChainCount(log[f].action), ChainCount(log[f].action) + Taken(states, log, k - 1, n);
      if TakesNonce(s, a, n) {
        NextStepTakes(s, a, now, n, c, top);
      } else {
        OtherStepKeepsCount(s, a, now, n, c, top);
      }
    }
  }

  /**
   The nonces are handed out in order: the step that takes one after `j` others takes `c + j`, and a
   reservation stores just that in the intent it creates, open and with the group of its call.
   */
  lemma NoncesAreHandedOutInOrder(states: seq<State>, log: seq<Stamped>, f: nat, k: nat, n: Network)
    requires Trace(states, log) && Unused(states[0].t, n) && f <= k < |log| && FirstToTake(states, log, f, n)
    requires TakesNonce(states[k], log[k].action, n)
    ensures Takes(states[k], log[k].action, states[k + 1].t, n, ChainCount(log[f].action) + Taken(states, log, k, n))
  {
    hide Enabled, Do, TakesNonce, Unused, CountedFrom, ChainCount, Takes;
    var s, a, now := states[k], log[k].action, log[k].now;
    assert Next(s, a, now, states[k + 1]);
    if k == f {
      UnusedBefore(states, log, f, n);
      FirstStepTakes(s, a, now, n);
    } else {
      CounterFollowsChain(states, log, f, k, n);
      var c := ChainCount(log[f].action);
      NextStepTakes(s, a, now, n, c, c + Taken(states, log, k, n));
    }
  }

  /** From empty tables the count is exact for every network, whether or not a nonce was taken yet. */
  lemma CountersFromEmpty(states: seq<State>, log: seq<Stamped>, k: nat, n: Network)
    requires Trace(states, log) && states[0] == INITIAL && k <= |log|
    ensures Taken(states, log, k, n) == 0 <==> Unused(states[k].t, n)
    ensures Taken(states, log, k, n) > 0 ==>
      exists f: nat :: f < k && FirstToTake(states, log, f, n) &&
        CountedFrom(states[k].t, n, ChainCount(log[f].action), ChainCount(log[f].action) + Taken(states, log, k, n))
  {
    hide Enabled, Do, TakesNonce, CountedFrom, ChainCount, Next;
    if Taken(states, log, k, n) == 0 {
      NoneTaken(states, log, k, n);
      UnusedBefore(states, log, k, n);
    } else {
      var f := FirstTaken(states, log, k, n);
      CounterFollowsChain(states, log, f, k, n);
      CountedIsUsed(states[k].t, n, ChainCount(log[f].action), ChainCount(log[f].action) + Taken(states, log, k, n));
    }
  }

  lemma CountedIsUsed(t: Tables, n: Network, bottom: int, top: int)
    requires CountedFrom(t, n, bottom, top)
    ensures !Unused(t, n)
  {
  }

  lemma {:induction false} NoneTaken(states: seq<State>, log: seq<Stamped>, k: nat, n: Network)
    requires k <= |log| <= |states| && Taken(states, log, k, n) == 0
    ensures forall j :: 0 <= j < k ==> !TakesNonce(states[j], log[j].action, n)
  {
    hide TakesNonce;
    if k > 0 {
      NoneTaken(states, log, k - 1, n);
    }
  }

  lemma {:induction false} FirstTaken(states: seq<State>, log: seq<Stamped>, k: nat, n: Network) returns (f: nat)
    requires k <= |log| <= |states| && Taken(states, log, k, n) > 0
    ensures f < k && FirstToTake(states, log, f, n)
  {
    hide TakesNonce;
    if Taken(states, log, k - 1, n) > 0 {
      f := FirstTaken(states, log, k - 1, n);
    } else {
      NoneTaken(states, log, k - 1, n);
      f := k - 1;
    }
  }
}

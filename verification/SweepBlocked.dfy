/**
 Which groups the queue loses for good: exactly those that hold a stranded row.  Every other group
 at rest is freed by one recovery pass, the settlement of its broadcast sweeps and a deposit.
 */
module SweepBlocked {
  import opened Options
  import opened SweepTables
  import opened SweepLockstep
  import opened SweepProtocol
  import opened SweepGroups
  import opened SweepQueue

  /** Some run goes from `s` to `s'`. */
  ghost predicate Leads(s: State, s': State) {
    exists states, log :: Trace(states, log) && states[0] == s && states[|log|] == s'
  }

  lemma LeadsNowhere(s: State)
    ensures Leads(s, s)
  {
    var states, log: seq<Stamped> := [s], [];
    assert Trace(states, log) && states[0] == s && states[|log|] == s;
  }

  lemma LeadsOn(s: State, s1: State, w: Write, now: Millis)
    requires Leads(s, s1) && Background(s1.t, w)
    ensures Leads(s, s1.(t := Apply(s1.t, w, now)))
  {
    hide Apply, Background;
    var states, log :| Trace(states, log) && states[0] == s && states[|log|] == s1;
    var s2 := s1.(t := Apply(s1.t, w, now));
    var states', log' := states + [s2], log + [Stamped(Commit(w), now)];
    assert s2 == Do(s1, Commit(w), now);
    forall k | 0 <= k < |log'| ensures Next(states'[k], log'[k].action, log'[k].now, states'[k + 1]) {
      if k < |log| {
        assert Next(states[k], log[k].action, log[k].now, states[k + 1]);
      }
    }
    assert Trace(states', log') && states'[0] == s && states'[|log'|] == s2;
  }

  // ------------------------------------------------------------ one recovery pass

  /** An instant after every row was written. */
  lemma {:induction false} SomeInstant(rows: map<RowId, Row>) returns (cutoff: Millis)
    ensures forall r :: r in rows ==> rows[r].updatedAt < cutoff
    decreases |rows|
  {
    cutoff := 0;
    if r :| r in rows {
      var rest := rows - {r};
      assert |rest| < |rows|;
      cutoff := SomeInstant(rest);
      cutoff := if cutoff <= rows[r].updatedAt then rows[r].updatedAt + 1 else cutoff;
      forall q | q in rows ensures rows[q].updatedAt < cutoff {
        assert q == r || q in rest;
      }
    }
  }

  ghost predicate NoneInFlight(t: Tables, g: Group) {
    forall r :: r in t.rows && t.rows[r].group == g ==> !InFlight(t.rows[r])
  }

  ghost predicate NoneStranded(t: Tables, g: Group) {
    forall r :: r in t.rows && t.rows[r].group == g ==> !Stranded(t, t.rows[r])
  }

  /** A recovery pass that is late enough leaves nothing of the group in flight, unless it is stranded. */
  lemma RecoverGroup(t: Tables, g: Group) returns (cutoffs: seq<Millis>)
    requires NoneStranded(t, g)
    ensures |cutoffs| == 3 && NoneInFlight(RecoveryPass(t, cutoffs, cutoffs), g)
  {
    hide RecoveryPass, Recovered;
    var late := SomeInstant(t.rows);
    cutoffs := [late, late, late];
    var u := RecoveryPass(t, cutoffs, cutoffs);
    RecoveryPassKeepsLinks(t, cutoffs, cutoffs);
    forall r | r in u.rows && u.rows[r].group == g ensures !InFlight(u.rows[r]) {
      RecoveryExact(t, cutoffs, cutoffs, r);
    }
  }

  lemma RecoveryLeads(s: State, cutoffs: seq<Millis>)
    requires |cutoffs| == 3 && Lockstep(s.t)
    ensures Leads(s, s.(t := RecoveryPass(s.t, cutoffs, cutoffs)))
    ensures Lockstep(RecoveryPass(s.t, cutoffs, cutoffs))
  {
    hide Apply, Leads, Lockstep;
    var a := Apply(s.t, RecoverUnreserved(cutoffs[0]), cutoffs[0]);
    var b := Apply(a, RecoverReserved(cutoffs[1]), cutoffs[1]);
    WriteKeepsLockstepIff(s.t, RecoverUnreserved(cutoffs[0]), cutoffs[0]);
    WriteKeepsLockstepIff(a, RecoverReserved(cutoffs[1]), cutoffs[1]);
    WriteKeepsLockstepIff(b, RecoverArtifact(cutoffs[2]), cutoffs[2]);
    LeadsNowhere(s);
    LeadsOn(s, s, RecoverUnreserved(cutoffs[0]), cutoffs[0]);
    LeadsOn(s, s.(t := a), RecoverReserved(cutoffs[1]), cutoffs[1]);
    LeadsOn(s, s.(t := b), RecoverArtifact(cutoffs[2]), cutoffs[2]);
  }

  // ------------------------------------------------------------ broadcast sweeps

  function BroadcastRows(t: Tables, g: Group): set<RowId> {
    set r | r in t.rows && t.rows[r].group == g && t.rows[r].status == Broadcast
  }

  /** Recording a broadcast sweep as mined settles its rows and puts nothing in flight. */
  lemma MiningSettles(t: Tables, h: Hash, g: Group, r: RowId)
    requires h in t.txs && r in BroadcastRows(t, g) && t.rows[r].txid == Some(h) && NoneInFlight(t, g)
    ensures var u := Apply(t, Resolve(h, Mined(None, None), StatusWorker), 0);
      NoneInFlight(u, g) && BroadcastRows(u, g) < BroadcastRows(t, g)
  {
    hide Apply;
    var w := Resolve(h, Mined(None, None), StatusWorker);
    var u := Apply(t, w, 0);
    KeysStay(t, h);
    forall q | q in u.rows
      ensures u.rows[q] == RowUpdate(t, w, q, t.rows[q], 0)
    {
      RowAt(t, w, 0, q);
    }
    assert r in u.rows && r !in BroadcastRows(u, g);
  }

  lemma KeysStay(t: Tables, h: Hash)
    ensures Apply(t, Resolve(h, Mined(None, None), StatusWorker), 0).rows.Keys == t.rows.Keys
  {
  }

  lemma {:induction false} SettleBroadcasts(s: State, s1: State, g: Group) returns (s2: State)
    requires Leads(s, s1) && Lockstep(s1.t) && NoneInFlight(s1.t, g)
    ensures Leads(s, s2) && NoneInFlight(s2.t, g) && BroadcastRows(s2.t, g) == {}
    decreases |BroadcastRows(s1.t, g)|
  {
    hide Apply, Leads, NoneInFlight;
    s2 := s1;
    if r :| r in BroadcastRows(s1.t, g) {
      assert RowAgrees(s1.t.rows[r], s1.t.txs);
      var h := s1.t.rows[r].txid.value;
      var w := Resolve(h, Mined(None, None), StatusWorker);
      MiningSettles(s1.t, h, g, r);
      LeadsOn(s, s1, w, 0);
      WriteKeepsLockstepIff(s1.t, w, 0);
      Fewer(BroadcastRows(Apply(s1.t, w, 0), g), BroadcastRows(s1.t, g));
      s2 := SettleBroadcasts(s, s1.(t := Apply(s1.t, w, 0)), g);
    }
  }

  lemma Fewer(a: set<RowId>, b: set<RowId>)
    requires a < b
    ensures |a| < |b|
  {
    ProperSubsetIsSmaller(a, b);
  }

  // ------------------------------------------------------------ a deposit

  lemma {:induction false} FreeRow(rows: map<RowId, Row>) returns (free: RowId)
    ensures forall r :: r in rows ==> r < free
    decreases |rows|
  {
    free := 0;
    if r :| r in rows {
      var rest := rows - {r};
      assert |rest| < |rows|;
      free := FreeRow(rest);
      free := if free <= r then r + 1 else free;
      forall q | q in rows ensures q < free {
        assert q == r || q in rest;
      }
    }
  }

  /** A deposit makes a group selectable in which nothing is in flight or broadcast. */
  lemma DepositSelects(t: Tables, g: Group, r: RowId)
    requires NoneInFlight(t, g) && BroadcastRows(t, g) == {} && r !in t.rows
    ensures Selectable(Apply(t, Arrive(r, g), 0), g)
  {
    var u := Apply(t, Arrive(r, g), 0);
    assert u.rows == t.rows[r := Row(g, Pending, None, None, 0)];
    forall q | q in u.rows && u.rows[q].group == g ensures !InFlight(u.rows[q]) && u.rows[q].status != Broadcast {
      assert q == r || q !in BroadcastRows(t, g);
    }
    assert u.rows[r].group == g && u.rows[r].status == Pending;
  }

  lemma FreedGroupIsSelectable(s: State, g: Group) returns (s': State)
    requires Lockstep(s.t) && NoneStranded(s.t, g)
    ensures Leads(s, s') && Selectable(s'.t, g)
  {
    hide Apply, Leads, Lockstep, NoneInFlight, NoneStranded, RecoveryPass, BroadcastRows, Selectable;
    var cutoffs := RecoverGroup(s.t, g);
    RecoveryLeads(s, cutoffs);
    var s2 := SettleBroadcasts(s, s.(t := RecoveryPass(s.t, cutoffs, cutoffs)), g);
    var r := FreeRow(s2.t.rows);
    DepositSelects(s2.t, g, r);
    LeadsOn(s, s2, Arrive(r, g), 0);
    s' := s2.(t := Apply(s2.t, Arrive(r, g), 0));
  }

  /**
   A group at rest is never selected again, in any run and whatever is deposited, if and only if it
   holds a stranded row.
   */
  lemma NeverSelectableIff(s: State, g: Group)
    requires GroupInv(s) && Lockstep(s.t) && GroupAtRest(s, g)
    ensures (forall states: seq<State>, log: seq<Stamped>, n: nat ::
               Trace(states, log) && states[0] == s && n < |states| ==> !Selectable(states[n].t, g))
       <==> exists r :: r in s.t.rows && s.t.rows[r].group == g && Stranded(s.t, s.t.rows[r])
  {
    hide Next, GroupInv, Lockstep, Stranded, Selectable;
    if r :| r in s.t.rows && s.t.rows[r].group == g && Stranded(s.t, s.t.rows[r]) {
      forall states: seq<State>, log: seq<Stamped>, n: nat
        | Trace(states, log) && states[0] == s && n < |states|
        ensures !Selectable(states[n].t, g)
      {
        FrozenGroupNeverSelected(states, log, n, r, s.t.rows[r]);
      }
    } else {
      var s' := FreedGroupIsSelectable(s, g);
      var states: seq<State>, log: seq<Stamped> :|
        Trace(states, log) && states[0] == s && states[|log|] == s';
      assert Selectable(states[|log|].t, g);
    }
  }
}

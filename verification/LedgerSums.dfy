/**
 The in-memory pool's aggregates over `ledger_entries`: totals per account, asset and direction,
 and the double-entry check of the reconciliation job.
 */
module LedgerSums {
  import opened Options
  import opened Decimals
  import opened Digits
  import opened Keys

  datatype Direction = Credit | Debit

  datatype Entry = Entry(transactionId: string, accountId: string, asset: string, direction: Direction, amount: string)

  datatype Group = Group(transactionId: string, asset: string, net: string)

  // ------------------------------------------------------------ sums by filter

  /** What a valid amount adds to a sum; the callers below see to it that amounts are valid. */
  function Amount(e: Entry): int {
    var v := ToScaled(e.amount, PRECISION);
    if v.Some? then v.value else 0
  }

  function Delta(e: Entry): int {
    if e.direction == Credit then Amount(e) else -Amount(e)
  }

  function NetWhere(entries: seq<Entry>, keep: Entry -> bool): int {
    if |entries| == 0 then 0 else
      var e := entries[|entries| - 1];
      NetWhere(entries[..|entries| - 1], keep) + if keep(e) then Delta(e) else 0
  }

  function TotalWhere(entries: seq<Entry>, direction: Direction, keep: Entry -> bool): int {
    if |entries| == 0 then 0 else
      var e := entries[|entries| - 1];
      TotalWhere(entries[..|entries| - 1], direction, keep)
      + if keep(e) && e.direction == direction then Amount(e) else 0
  }

  lemma {:induction false} NetIsCreditsMinusDebits(entries: seq<Entry>, keep: Entry -> bool)
    ensures NetWhere(entries, keep) == TotalWhere(entries, Credit, keep) - TotalWhere(entries, Debit, keep)
  {
    if |entries| > 0 {
      NetIsCreditsMinusDebits(entries[..|entries| - 1], keep);
    }
  }

  lemma {:induction false} NetOfSame(entries: seq<Entry>, f: Entry -> bool, g: Entry -> bool)
    requires forall e :: e in entries ==> f(e) == g(e)
    ensures NetWhere(entries, f) == NetWhere(entries, g)
  {
    if |entries| > 0 {
      NetOfSame(entries[..|entries| - 1], f, g);
    }
  }

  lemma {:induction false} TotalOfSame(entries: seq<Entry>, direction: Direction, f: Entry -> bool, g: Entry -> bool)
    requires forall e :: e in entries ==> f(e) == g(e)
    ensures TotalWhere(entries, direction, f) == TotalWhere(entries, direction, g)
  {
    if |entries| > 0 {
      TotalOfSame(entries[..|entries| - 1], direction, f, g);
    }
  }

  lemma {:induction false} NetOfNone(entries: seq<Entry>, f: Entry -> bool)
    requires forall e :: e in entries ==> !f(e)
    ensures NetWhere(entries, f) == 0
  {
    if |entries| > 0 {
      NetOfNone(entries[..|entries| - 1], f);
    }
  }

  lemma {:induction false} NetSplits(entries: seq<Entry>, f: Entry -> bool, g: Entry -> bool, h: Entry -> bool)
    requires forall e :: e in entries ==> f(e) == (g(e) || h(e)) && !(g(e) && h(e))
    ensures NetWhere(entries, f) == NetWhere(entries, g) + NetWhere(entries, h)
  {
    if |entries| > 0 {
      NetSplits(entries[..|entries| - 1], f, g, h);
    }
  }

  lemma {:induction false} TotalWithout(entries: seq<Entry>, i: nat, direction: Direction, keep: Entry -> bool)
    requires i < |entries|
    ensures TotalWhere(entries, direction, keep)
         == TotalWhere(entries[..i] + entries[i + 1..], direction, keep)
            + if keep(entries[i]) && entries[i].direction == direction then Amount(entries[i]) else 0
  {
    hide Amount;
    var n := |entries| - 1;
    var rest := entries[..i] + entries[i + 1..];
    if i == n {
      assert rest == entries[..n];
    } else {
      var front := entries[..n];
      TotalWithout(front, i, direction, keep);
      assert rest[..n - 1] == front[..i] + front[i + 1..];
      assert rest[n - 1] == entries[n];
    }
  }

  lemma {:induction false} PermutationWithout(a: seq<Entry>, b: seq<Entry>) returns (i: nat)
    requires multiset(a) == multiset(b) && |a| > 0
    ensures i < |b| && b[i] == a[|a| - 1]
    ensures multiset(a[..|a| - 1]) == multiset(b[..i] + b[i + 1..])
  {
    var e := a[|a| - 1];
    assert a == a[..|a| - 1] + [e];
    assert e in multiset(b);
    i :| i < |b| && b[i] == e;
    assert b == b[..i] + [e] + b[i + 1..];
    assert multiset(a[..|a| - 1]) == multiset(a) - multiset{e};
    assert multiset(b[..i] + b[i + 1..]) == multiset(b) - multiset{e};
  }

  /** A total does not depend on the order in which entries were inserted. */
  lemma {:induction false} TotalIsOrderFree(a: seq<Entry>, b: seq<Entry>, direction: Direction, keep: Entry -> bool)
    requires multiset(a) == multiset(b)
    ensures TotalWhere(a, direction, keep) == TotalWhere(b, direction, keep)
    decreases |a|
  {
    if |a| == 0 {
      assert |multiset(b)| == 0;
      assert |b| == 0;
    } else {
      var i := PermutationWithout(a, b);
      TotalIsOrderFree(a[..|a| - 1], b[..i] + b[i + 1..], direction, keep);
      TotalWithout(b, i, direction, keep);
    }
  }

  // ------------------------------------- totals per account, asset and direction

  function Held(account: string, asset: string): Entry -> bool {
    (e: Entry) => e.accountId == account && e.asset == asset
  }

  /** The ledger's own amounts: valid decimals without a sign. */
  predicate Unsigned(e: Entry) {
    ValidDecimal(e.amount) && !Negative(e.amount)
  }

  lemma UnsignedReads(e: Entry)
    requires Unsigned(e)
    ensures ParseSimple(e.amount, PRECISION) == Some(Amount(e)) && Amount(e) >= 0
  {
    PoolParserAgreesIff(e.amount, PRECISION);
  }

  lemma ZeroReads(zero: string)
    requires zero == "0"
    ensures ParseSimple(zero, PRECISION) == Some(0) && ToScaled(zero, PRECISION) == Some(0)
  {
    hide ParseSimple;
    LedgerParserReadsWhole(zero, PRECISION);
    PlainSplits(zero);
    ShiftOfZero(PRECISION);
    PoolParserAgreesIff(zero, PRECISION);
    assert DigitAt(zero, 0) && ValueUpTo(zero, 0) == 0 && Value(zero) == 0;
  }

  lemma AddsNext(sum: string, e: Entry, n: nat)
    requires ParseSimple(sum, PRECISION) == Some(n) && Unsigned(e)
    ensures AddSimple(sum, e.amount, PRECISION).Some? && Amount(e) >= 0
    ensures ParseSimple(AddSimple(sum, e.amount, PRECISION).value, PRECISION) == Some(n + Amount(e))
  {
    hide ParseSimple, AddSimple, FormatSimple, Amount, Unsigned;
    UnsignedReads(e);
    AddSimpleFormats(sum, e.amount, n, Amount(e), PRECISION);
    PoolAdditionIsExact(sum, e.amount, AddSimple(sum, e.amount, PRECISION).value, n, Amount(e), PRECISION);
  }

  lemma TotalOfNext(entries: seq<Entry>, i: nat, direction: Direction, keep: Entry -> bool)
    requires i < |entries|
    ensures TotalWhere(entries[..i + 1], direction, keep)
         == TotalWhere(entries[..i], direction, keep)
            + if keep(entries[i]) && entries[i].direction == direction then Amount(entries[i]) else 0
  {
    hide Amount;
    assert entries[..i + 1][..i] == entries[..i];
  }

  /** A total over entries that follow others is the sum of both totals. */
  lemma {:induction false} TotalOfBoth(a: seq<Entry>, b: seq<Entry>, direction: Direction, keep: Entry -> bool)
    ensures TotalWhere(a + b, direction, keep) == TotalWhere(a, direction, keep) + TotalWhere(b, direction, keep)
  {
    hide Amount;
    if |b| == 0 {
      assert a + b == a;
    } else {
      var n := |b| - 1;
      assert (a + b)[..|a + b| - 1] == a + b[..n];
      TotalOfBoth(a, b[..n], direction, keep);
    }
  }

  ghost predicate AllMatching(entries: seq<Entry>, direction: Direction, keep: Entry -> bool, good: Entry -> bool) {
    forall e :: e in entries && keep(e) && e.direction == direction ==> good(e)
  }

  /**
   Folding the pool's string addition over the matching entries: on unsigned decimals the result
   reads as their exact sum, and there is no result when an amount is no number at all.
   */
  method Total(entries: seq<Entry>, account: string, asset: string, direction: Direction)
    returns (total: Option<string>)
    ensures AllMatching(entries, direction, Held(account, asset), (e: Entry) => Unsigned(e)) ==>
      && total.Some?
      && ParseSimple(total.value, PRECISION) == Some(TotalWhere(entries, direction, Held(account, asset)))
      && forall keep: Entry -> bool ::
           (forall e :: e in entries ==> (keep(e) <==> e.accountId == account && e.asset == asset)) ==>
             ParseSimple(total.value, PRECISION) == Some(TotalWhere(entries, direction, keep))
    ensures total.Some? ==>
      AllMatching(entries, direction, Held(account, asset), (e: Entry) => ParseSimple(e.amount, PRECISION).Some?)
    ensures total.Some? ==> forall e ::
      e in entries && e.accountId == account && e.asset == asset && e.direction == direction ==>
        ParseSimple(e.amount, PRECISION).Some?
  {
    hide ParseSimple, AddSimple, FormatSimple, ToScaled, ValidDecimal, Negative, Amount, Unsigned, PRECISION;
    var sum := "0";
    ZeroReads(sum);
    ghost var keep := Held(account, asset);
    ghost var unsigned := AllMatching(entries, direction, keep, (e: Entry) => Unsigned(e));
    for i := 0 to |entries|
      invariant unsigned ==> TotalWhere(entries[..i], direction, keep) >= 0
      invariant unsigned ==> ParseSimple(sum, PRECISION) == Some(TotalWhere(entries[..i], direction, keep))
      invariant forall j :: 0 <= j < i && keep(entries[j]) && entries[j].direction == direction ==>
        ParseSimple(entries[j].amount, PRECISION).Some?
    {
      var e := entries[i];
      TotalOfNext(entries, i, direction, keep);
      if e.accountId == account && e.asset == asset && e.direction == direction {
        var added := AddSimple(sum, e.amount, PRECISION);
        if unsigned {
          AddsNext(sum, e, TotalWhere(entries[..i], direction, keep));
        }
        AddNeedsNumbers(sum, e.amount);
        if added.None? {
          return None;
        }
        sum := added.value;
      }
    }
    assert entries[..|entries|] == entries;
    total := Some(sum);
    forall other: Entry -> bool
      | forall e :: e in entries ==> (other(e) <==> e.accountId == account && e.asset == asset)
      ensures TotalWhere(entries, direction, other) == TotalWhere(entries, direction, keep)
    {
      TotalOfSame(entries, direction, other, keep);
    }
  }

  lemma AddNeedsNumbers(a: string, b: string)
    ensures AddSimple(a, b, PRECISION).Some? ==> ParseSimple(b, PRECISION).Some?
  {
    hide ParseSimple, FormatSimple;
  }

  /** Deposits credited as normalised amounts add up to the raw amounts, scaled: nothing is lost on the way. */
  lemma {:induction false} DepositsAddUp(entries: seq<Entry>, raws: seq<nat>, decimals: nat, keep: Entry -> bool)
    requires decimals <= PRECISION && |entries| == |raws|
    requires forall k :: 0 <= k < |entries| ==> keep(entries[k]) && IsDeposit(entries[k], raws[k], decimals)
    ensures TotalWhere(entries, Credit, keep) == Shift(RawTotal(raws), PRECISION - decimals)
  {
    hide IsDeposit, Amount;
    if |entries| == 0 {
      ShiftOfZero(PRECISION - decimals);
    } else {
      var n := |entries| - 1;
      DepositsAddUp(entries[..n], raws[..n], decimals, keep);
      DepositReads(entries[n], raws[n], decimals);
      ShiftAdds(RawTotal(raws[..n]), raws[n], PRECISION - decimals);
    }
  }

  predicate IsDeposit(e: Entry, raw: nat, decimals: nat) {
    e.direction == Credit && e.amount == Normalize(Print(raw), decimals)
  }

  lemma DepositReads(e: Entry, raw: nat, decimals: nat)
    requires decimals <= PRECISION && IsDeposit(e, raw, decimals)
    ensures e.direction == Credit && Amount(e) == Shift(raw, PRECISION - decimals)
  {
    hide ToScaled, Normalize;
    NormalizeIsExact(raw, decimals, PRECISION);
  }

  function RawTotal(raws: seq<nat>): nat {
    if |raws| == 0 then 0 else RawTotal(raws[..|raws| - 1]) + raws[|raws| - 1]
  }

  // ----------------------------------------------------- the double-entry check

  /** The entries whose transaction exists and has one of the types of the query's list. */
  function Listed(transactions: map<string, string>, types: Option<set<string>>): Entry -> bool {
    (e: Entry) => e.transactionId in transactions && types.Some? && transactions[e.transactionId] in types.value
  }

  function InGroup(listed: Entry -> bool, key: string): Entry -> bool {
    (e: Entry) => listed(e) && Key(e.transactionId, e.asset) == key
  }

  function KeyOf(g: Group): string {
    Key(g.transactionId, g.asset)
  }

  lemma NetOfNext(entries: seq<Entry>, i: nat, keep: Entry -> bool)
    requires i < |entries|
    ensures NetWhere(entries[..i + 1], keep)
         == NetWhere(entries[..i], keep) + if keep(entries[i]) then Delta(entries[i]) else 0
  {
    assert entries[..i + 1][..i] == entries[..i];
  }

  predicate Occurs(g: Group, entries: seq<Entry>) {
    exists i :: 0 <= i < |entries| && entries[i].transactionId == g.transactionId && entries[i].asset == g.asset
  }

  predicate GroupsAreNets(groups: map<string, Group>, entries: seq<Entry>, listed: Entry -> bool) {
    && (forall k :: k in groups ==> KeyOf(groups[k]) == k && Occurs(groups[k], entries))
    && (forall k :: k in groups ==> ToScaled(groups[k].net, PRECISION) == Some(NetWhere(entries, InGroup(listed, k))))
    && (forall e :: e in entries && listed(e) ==> Key(e.transactionId, e.asset) in groups)
  }

  lemma OccursLater(g: Group, entries: seq<Entry>, i: nat)
    requires i < |entries| && Occurs(g, entries[..i])
    ensures Occurs(g, entries[..i + 1])
  {
    var j :| 0 <= j < i && entries[..i][j].transactionId == g.transactionId && entries[..i][j].asset == g.asset;
    assert entries[..i + 1][j] == entries[..i][j];
  }

  lemma GroupsGrow(groups: map<string, Group>, entries: seq<Entry>, i: nat, listed: Entry -> bool, g: Group)
    requires i < |entries| && GroupsAreNets(groups, entries[..i], listed) && listed(entries[i])
    requires g.transactionId == entries[i].transactionId && g.asset == entries[i].asset
    requires ToScaled(g.net, PRECISION) == Some(NetWhere(entries[..i], InGroup(listed, KeyOf(g))) + Delta(entries[i]))
    ensures GroupsAreNets(groups[KeyOf(g) := g], entries[..i + 1], listed)
  {
    hide ToScaled, Delta, Key;
    var next := groups[KeyOf(g) := g];
    assert entries[..i + 1][i] == entries[i];
    forall k | k in groups ensures Occurs(groups[k], entries[..i + 1]) {
      OccursLater(groups[k], entries, i);
    }
    forall k | k in next
      ensures ToScaled(next[k].net, PRECISION) == Some(NetWhere(entries[..i + 1], InGroup(listed, k)))
    {
      NetOfNext(entries, i, InGroup(listed, k));
    }
  }

  lemma GroupsStay(groups: map<string, Group>, entries: seq<Entry>, i: nat, listed: Entry -> bool)
    requires i < |entries| && GroupsAreNets(groups, entries[..i], listed) && !listed(entries[i])
    ensures GroupsAreNets(groups, entries[..i + 1], listed)
  {
    hide ToScaled, Delta, Key, Occurs;
    forall k | k in groups ensures Occurs(groups[k], entries[..i + 1]) {
      OccursLater(groups[k], entries, i);
    }
    forall k | k in groups
      ensures ToScaled(groups[k].net, PRECISION) == Some(NetWhere(entries[..i + 1], InGroup(listed, k)))
    {
      NetOfNext(entries, i, InGroup(listed, k));
    }
  }

  /** The group an entry adds to, or a new one at zero. */
  lemma GroupBefore(groups: map<string, Group>, entries: seq<Entry>, i: nat, listed: Entry -> bool, net: string)
    requires i < |entries| && GroupsAreNets(groups, entries[..i], listed)
    requires var k := Key(entries[i].transactionId, entries[i].asset); net == if k in groups then groups[k].net else "0"
    ensures ToScaled(net, PRECISION)
         == Some(NetWhere(entries[..i], InGroup(listed, Key(entries[i].transactionId, entries[i].asset))))
  {
    hide ToScaled, Delta, Key;
    var k := Key(entries[i].transactionId, entries[i].asset);
    if k !in groups {
      ZeroReads(net);
      NetOfNone(entries[..i], InGroup(listed, k));
    }
  }

  lemma NextNet(current: string, e: Entry, net: Option<string>)
    requires ToScaled(current, PRECISION).Some?
    requires net == if e.direction == Credit then DecimalAdd(current, e.amount, PRECISION)
                    else DecimalSubtract(current, e.amount, PRECISION)
    ensures net.Some? <==> ToScaled(e.amount, PRECISION).Some?
    ensures net.Some? ==> ToScaled(net.value, PRECISION) == Some(ToScaled(current, PRECISION).value + Delta(e))
  {
    hide ToScaled, FromScaled;
    if ToScaled(e.amount, PRECISION).Some? {
      LedgerArithmeticIsExact(current, e.amount,
                              ToScaled(current, PRECISION).value, ToScaled(e.amount, PRECISION).value, PRECISION);
    }
  }

  lemma AbsentGroupsAreZero(groups: map<string, Group>, entries: seq<Entry>, listed: Entry -> bool)
    requires GroupsAreNets(groups, entries, listed)
    ensures forall k :: k !in groups ==> NetWhere(entries, InGroup(listed, k)) == 0
  {
    forall k | k !in groups ensures NetWhere(entries, InGroup(listed, k)) == 0 {
      NetOfNone(entries, InGroup(listed, k));
    }
  }

  /** The groups that do not net to zero, in the order in which they were first met. */
  method NonZero(groups: map<string, Group>, order: seq<string>) returns (rows: seq<Group>)
    requires forall k :: k in order <==> k in groups
    requires forall a, b :: 0 <= a < b < |order| ==> order[a] != order[b]
    requires forall k :: k in groups ==> KeyOf(groups[k]) == k && ToScaled(groups[k].net, PRECISION).Some?
    ensures forall r ::
      r in rows <==> KeyOf(r) in groups && groups[KeyOf(r)] == r && ToScaled(r.net, PRECISION) != Some(0)
    ensures forall i, j :: 0 <= i < j < |rows| ==> KeyOf(rows[i]) != KeyOf(rows[j])
  {
    hide ToScaled, Key;
    rows := [];
    for i := 0 to |order|
      invariant forall r :: r in rows ==>
        KeyOf(r) in order[..i] && KeyOf(r) in groups && groups[KeyOf(r)] == r && ToScaled(r.net, PRECISION) != Some(0)
      invariant forall k ::
        k in order[..i] ==> k in groups && (ToScaled(groups[k].net, PRECISION) != Some(0) ==> groups[k] in rows)
      invariant forall i, j :: 0 <= i < j < |rows| ==> KeyOf(rows[i]) != KeyOf(rows[j])
    {
      assert order[i] in groups && order[i] !in order[..i];
      var g := groups[order[i]];
      if ToScaled(g.net, PRECISION) != Some(0) {
        rows := rows + [g];
      }
      assert order[..i + 1] == order[..i] + [order[i]];
    }
    assert order[..|order|] == order;
  }

  /**
   The query's fold: one group for each key of a listed entry, with its exact net, in the order in
   which the keys came up; it stops at an invalid amount.
   */
  method GroupEntries(entries: seq<Entry>, transactions: map<string, string>, types: Option<set<string>>)
    returns (valid: bool, groups: map<string, Group>, order: seq<string>)
    ensures valid <==>
      forall e :: e in entries && Listed(transactions, types)(e) ==> ToScaled(e.amount, PRECISION).Some?
    ensures valid ==> GroupsAreNets(groups, entries, Listed(transactions, types))
    ensures forall k :: k in order <==> k in groups
    ensures forall a, b :: 0 <= a < b < |order| ==> order[a] != order[b]
    ensures types == None ==> order == []
  {
    hide ToScaled, DecimalAdd, DecimalSubtract, Delta, Key, Occurs, ColonFree, Balanced;
    groups := map[];
    order := [];
    ghost var listed := Listed(transactions, types);
    for i := 0 to |entries|
      invariant GroupsAreNets(groups, entries[..i], listed)
      invariant types == None ==> order == []
      invariant forall k :: k in order <==> k in groups
      invariant forall a, b :: 0 <= a < b < |order| ==> order[a] != order[b]
      invariant forall e :: e in entries[..i] && listed(e) ==> ToScaled(e.amount, PRECISION).Some?
    {
      var e := entries[i];
      if e.transactionId in transactions && types.Some? && transactions[e.transactionId] in types.value {
        var key := Key(e.transactionId, e.asset);
        var current := if key in groups then groups[key].net else "0";
        GroupBefore(groups, entries, i, listed, current);
        var net := if e.direction == Credit then DecimalAdd(current, e.amount, PRECISION)
                   else DecimalSubtract(current, e.amount, PRECISION);
        NextNet(current, e, net);
        if net == None {
          return false, groups, order;
        }
        var g := Group(e.transactionId, e.asset, net.value);
        GroupsGrow(groups, entries, i, listed, g);
        if key !in groups {
          order := order + [key];
        }
        groups := groups[key := g];
      } else {
        GroupsStay(groups, entries, i, listed);
      }
    }
    assert entries[..|entries|] == entries;
    valid := true;
  }

  /**
   The check's query.  It throws exactly when a listed entry has an invalid amount; otherwise its
   rows are, once each and with their exact net, exactly the groups whose net is not zero.
   */
  method Violations(entries: seq<Entry>, transactions: map<string, string>, types: Option<set<string>>)
    returns (rows: Option<seq<Group>>)
    ensures rows.Some?
      <==> forall e :: e in entries && Listed(transactions, types)(e) ==> ToScaled(e.amount, PRECISION).Some?
    ensures types == None ==> rows == Some([])
    ensures rows.Some? <==> forall e ::
      e in entries && e.transactionId in transactions && types.Some? && transactions[e.transactionId] in types.value ==>
        ToScaled(e.amount, PRECISION).Some?
    ensures rows.Some? ==> forall k ::
      (exists r :: r in rows.value && KeyOf(r) == k)
        <==> NetWhere(entries, InGroup(Listed(transactions, types), k)) != 0
    ensures rows.Some? ==> forall r :: r in rows.value ==>
      ToScaled(r.net, PRECISION) == Some(NetWhere(entries, InGroup(Listed(transactions, types), KeyOf(r))))
    ensures rows.Some? ==> forall r :: r in rows.value ==> Occurs(r, entries)
    ensures rows.Some? ==> forall i, j :: 0 <= i < j < |rows.value| ==> KeyOf(rows.value[i]) != KeyOf(rows.value[j])
    ensures rows == Some([]) && (forall e :: e in entries ==> ColonFree(e.transactionId)) ==>
      Balanced(entries, Listed(transactions, types))
  {
    hide ToScaled, DecimalAdd, DecimalSubtract, Delta, Key, Occurs, ColonFree, Balanced;
    ghost var listed := Listed(transactions, types);
    var valid, groups, order := GroupEntries(entries, transactions, types);
    if !valid {
      return None;
    }
    var violations := NonZero(groups, order);
    assert |violations| > 0 ==> violations[0] in violations && KeyOf(violations[0]) in order;
    AbsentGroupsAreZero(groups, entries, listed);
    rows := Some(violations);
    EmptyReportIsBalanced(entries, listed, violations);
  }

  // ------------------------------------------------- what a clean check means

  /** Credits equal debits for every asset. */
  ghost predicate Balanced(entries: seq<Entry>, listed: Entry -> bool) {
    forall asset ::
      TotalWhere(entries, Credit, OfAsset(listed, asset)) == TotalWhere(entries, Debit, OfAsset(listed, asset))
  }

  lemma EmptyReportIsBalanced(entries: seq<Entry>, listed: Entry -> bool, rows: seq<Group>)
    requires forall k :: (exists r :: r in rows && KeyOf(r) == k) <==> NetWhere(entries, InGroup(listed, k)) != 0
    ensures rows == [] && (forall e :: e in entries ==> ColonFree(e.transactionId)) ==> Balanced(entries, listed)
  {
    hide ColonFree, Delta, Amount, Key;
    if rows == [] && forall e :: e in entries ==> ColonFree(e.transactionId) {
      forall asset
        ensures TotalWhere(entries, Credit, OfAsset(listed, asset))
          == TotalWhere(entries, Debit, OfAsset(listed, asset))
      {
        CleanCheckConserves(entries, listed, asset);
      }
    }
  }

  function OfPair(listed: Entry -> bool, transactionId: string, asset: string): Entry -> bool {
    (e: Entry) => listed(e) && e.transactionId == transactionId && e.asset == asset
  }

  function OfAsset(listed: Entry -> bool, asset: string): Entry -> bool {
    (e: Entry) => listed(e) && e.asset == asset
  }

  /** With colon-free transaction ids a group is one (transaction, asset) pair. */
  lemma GroupIsPair(entries: seq<Entry>, listed: Entry -> bool, transactionId: string, asset: string)
    requires ColonFree(transactionId) && forall e :: e in entries ==> ColonFree(e.transactionId)
    ensures NetWhere(entries, InGroup(listed, Key(transactionId, asset)))
      == NetWhere(entries, OfPair(listed, transactionId, asset))
  {
    hide ColonFree, Delta;
    forall e | e in entries
      ensures InGroup(listed, Key(transactionId, asset))(e) == OfPair(listed, transactionId, asset)(e)
    {
      if Key(e.transactionId, e.asset) == Key(transactionId, asset) {
        KeyIsInjective(e.transactionId, e.asset, transactionId, asset);
      }
    }
    NetOfSame(entries, InGroup(listed, Key(transactionId, asset)), OfPair(listed, transactionId, asset));
  }

  function WithIds(listed: Entry -> bool, asset: string, ids: set<string>): Entry -> bool {
    (e: Entry) => listed(e) && e.asset == asset && e.transactionId in ids
  }

  /** Nets that are zero per transaction sum to zero over any set of transactions. */
  lemma {:induction false} BalancedTransactionsSum(entries: seq<Entry>, listed: Entry -> bool, asset: string,
                                                   ids: set<string>)
    requires forall t :: NetWhere(entries, OfPair(listed, t, asset)) == 0
    ensures NetWhere(entries, WithIds(listed, asset, ids)) == 0
  {
    if ids == {} {
      NetOfNone(entries, WithIds(listed, asset, ids));
    } else {
      var t :| t in ids;
      BalancedTransactionsSum(entries, listed, asset, ids - {t});
      NetSplits(entries, WithIds(listed, asset, ids), WithIds(listed, asset, ids - {t}), OfPair(listed, t, asset));
    }
  }

  /**
   Double entry: when no group is reported, credits equal debits for every asset over all entries
   of the listed types.
   */
  lemma CleanCheckConserves(entries: seq<Entry>, listed: Entry -> bool, asset: string)
    requires forall e :: e in entries ==> ColonFree(e.transactionId)
    requires forall k :: NetWhere(entries, InGroup(listed, k)) == 0
    ensures TotalWhere(entries, Credit, OfAsset(listed, asset)) == TotalWhere(entries, Debit, OfAsset(listed, asset))
  {
    hide ColonFree, Delta, Amount;
    var ids := set e | e in entries :: e.transactionId;
    forall t ensures NetWhere(entries, OfPair(listed, t, asset)) == 0 {
      if t in ids {
        GroupIsPair(entries, listed, t, asset);
      } else {
        NetOfNone(entries, OfPair(listed, t, asset));
      }
    }
    BalancedTransactionsSum(entries, listed, asset, ids);
    NetOfSame(entries, OfAsset(listed, asset), WithIds(listed, asset, ids));
    NetIsCreditsMinusDebits(entries, OfAsset(listed, asset));
  }

  /** A transaction and an asset out of balance are reported, and by one row. */
  lemma UnbalancedPairIsReported(entries: seq<Entry>, listed: Entry -> bool, rows: seq<Group>, transactionId: string,
                                 asset: string)
    requires ColonFree(transactionId) && forall e :: e in entries ==> ColonFree(e.transactionId)
    requires forall k :: (exists r :: r in rows && KeyOf(r) == k) <==> NetWhere(entries, InGroup(listed, k)) != 0
    requires forall r :: r in rows ==> Occurs(r, entries)
    ensures (exists r :: r in rows && r.transactionId == transactionId && r.asset == asset)
            <==> NetWhere(entries, OfPair(listed, transactionId, asset)) != 0
  {
    hide ColonFree, Delta;
    GroupIsPair(entries, listed, transactionId, asset);
    if r :| r in rows && KeyOf(r) == Key(transactionId, asset) {
      KeyIsInjective(r.transactionId, r.asset, transactionId, asset);
    }
  }
}

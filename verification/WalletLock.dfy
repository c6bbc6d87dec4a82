/**
 Clients that each lock a wallet row, compute a new balance from what they read and write it back,
 in any interleaving.
 */
module WalletLock {
  import opened Options
  import opened Decimals
  import opened Keys
  import opened PoolTables

  /** Between SELECT FOR UPDATE and UPDATE: the row and what the client read of it. */
  datatype Hold = Hold(account: string, asset: string, read: Wallet)

  datatype System = System(world: World, holds: map<nat, Hold>)

  /** `Lock` is the SELECT FOR UPDATE of one client, `Write` its UPDATE with deltas added to what it read. */
  datatype Event =
    | Lock(client: nat, account: string, asset: string)
    | Write(client: nat, delta: string, lockedDelta: string)

  /** The two balances of a wallet. */
  datatype Column = Available | Locked

  function Text(w: Wallet, column: Column): string {
    if column.Available? then w.available else w.locked
  }

  const NO_WALLET := Wallet("0", "0")

  function WalletAt(w: World, key: string): Wallet {
    if key in w.tables.wallets then w.tables.wallets[key] else NO_WALLET
  }

  function HoldKey(h: Hold): string {
    Key(h.account, h.asset)
  }

  predicate Enabled(e: Event, s: System) {
    match e
    case Lock(client, _, _) => client !in s.holds
    case Write(client, delta, lockedDelta) =>
      client in s.holds && ToScaled(delta, PRECISION).Some? && ToScaled(lockedDelta, PRECISION).Some?
  }

  function NewBalance(read: string, delta: string): string {
    var sum := DecimalAdd(read, delta, PRECISION);
    if sum.Some? then sum.value else read
  }

  function Do(e: Event, s: System): System
    requires Enabled(e, s)
  {
    match e
    case Lock(client, account, asset) =>
      var r := Step(SelectForUpdate(account, asset), s.world);
      if r.threw then s
      else System(r.world, s.holds[client := Hold(account, asset, WalletAt(s.world, Key(account, asset)))])
    case Write(client, delta, lockedDelta) =>
      var h := s.holds[client];
      var w := UpdateWallet(h.account, h.asset,
                            NewBalance(h.read.available, delta), NewBalance(h.read.locked, lockedDelta));
      System(Step(w, s.world).world, s.holds - {client})
  }

  function Balance(s: System, key: string, column: Column): int {
    var v := ToScaled(Text(WalletAt(s.world, key), column), PRECISION);
    if v.Some? then v.value else 0
  }

  predicate Readable(w: Wallet) {
    ToScaled(w.available, PRECISION).Some? && ToScaled(w.locked, PRECISION).Some?
  }

  /** Who holds a row holds its lock and has read its present value; no row is held twice. */
  ghost predicate Exclusive(s: System) {
    && (forall c :: c in s.holds ==>
          HoldKey(s.holds[c]) in s.world.locks && s.holds[c].read == WalletAt(s.world, HoldKey(s.holds[c])))
    && (forall c, d :: c in s.holds && d in s.holds && c != d ==> HoldKey(s.holds[c]) != HoldKey(s.holds[d]))
    && (forall k :: Readable(WalletAt(s.world, k)))
  }

  lemma WorldAfterWrite(w: World, account: string, asset: string, available: string, locked: string)
    ensures var w' := Step(UpdateWallet(account, asset, available, locked), w).world;
      && w'.locks == w.locks - {Key(account, asset)}
      && WalletAt(w', Key(account, asset)) == Wallet(available, locked)
      && forall k :: k != Key(account, asset) ==> WalletAt(w', k) == WalletAt(w, k)
  {
    hide Key;
  }

  lemma WorldAfterLock(w: World, account: string, asset: string)
    ensures var r := Step(SelectForUpdate(account, asset), w);
      && r.threw == (Key(account, asset) in w.locks)
      && (!r.threw ==> r.world.locks == w.locks + {Key(account, asset)})
      && forall k :: WalletAt(r.world, k) == WalletAt(w, k)
  {
    hide Key;
  }

  lemma AddsDelta(read: string, delta: string)
    requires ToScaled(read, PRECISION).Some? && ToScaled(delta, PRECISION).Some?
    ensures ToScaled(NewBalance(read, delta), PRECISION)
         == Some(ToScaled(read, PRECISION).value + ToScaled(delta, PRECISION).value)
  {
    hide ToScaled, FromScaled, DecimalAdd;
    LedgerArithmeticIsExact(read, delta, ToScaled(read, PRECISION).value, ToScaled(delta, PRECISION).value, PRECISION);
  }

  lemma StepKeepsExclusive(e: Event, s: System)
    requires Exclusive(s) && Enabled(e, s)
    ensures Exclusive(Do(e, s))
  {
    hide ToScaled, DecimalAdd, Key, Step, WalletAt, NewBalance;
    match e
    case Lock(client, account, asset) =>
      WorldAfterLock(s.world, account, asset);
    case Write(client, delta, lockedDelta) =>
      var h := s.holds[client];
      AddsDelta(h.read.available, delta);
      AddsDelta(h.read.locked, lockedDelta);
      WorldAfterWrite(s.world, h.account, h.asset,
                      NewBalance(h.read.available, delta), NewBalance(h.read.locked, lockedDelta));
  }

  /** What one event adds to a balance of a row. */
  function Added(e: Event, s: System, key: string, column: Column): int
    requires Enabled(e, s)
  {
    if e.Write? && HoldKey(s.holds[e.client]) == key then
      ToScaled(if column.Available? then e.delta else e.lockedDelta, PRECISION).value
    else 0
  }

  lemma StepAdds(e: Event, s: System, key: string, column: Column)
    requires Exclusive(s) && Enabled(e, s)
    ensures Balance(Do(e, s), key, column) == Balance(s, key, column) + Added(e, s, key, column)
  {
    hide ToScaled, DecimalAdd, Key, Step, WalletAt, NewBalance;
    match e
    case Lock(client, account, asset) =>
      WorldAfterLock(s.world, account, asset);
    case Write(client, delta, lockedDelta) =>
      var h := s.holds[client];
      AddsDelta(h.read.available, delta);
      AddsDelta(h.read.locked, lockedDelta);
      WorldAfterWrite(s.world, h.account, h.asset,
                      NewBalance(h.read.available, delta), NewBalance(h.read.locked, lockedDelta));
  }

  predicate Run(events: seq<Event>, s: System) {
    |events| == 0 || (Enabled(events[0], s) && Run(events[1..], Do(events[0], s)))
  }

  function After(events: seq<Event>, s: System): System
    requires Run(events, s)
  {
    if |events| == 0 then s else After(events[1..], Do(events[0], s))
  }

  function TotalAdded(events: seq<Event>, s: System, key: string, column: Column): int
    requires Run(events, s)
  {
    if |events| == 0 then 0
    else Added(events[0], s, key, column) + TotalAdded(events[1..], Do(events[0], s), key, column)
  }

  /**
   No lost update: after any interleaving each balance of a row is its initial one plus every delta written,
   and never are two clients between their SELECT FOR UPDATE and their UPDATE of one row.
   */
  lemma {:induction false} NoLostUpdate(events: seq<Event>, s: System, key: string, column: Column)
    requires Exclusive(s) && Run(events, s)
    ensures Exclusive(After(events, s))
    ensures Balance(After(events, s), key, column) == Balance(s, key, column) + TotalAdded(events, s, key, column)
  {
    hide Exclusive, Do, Enabled, Added, Balance;
    if |events| > 0 {
      StepKeepsExclusive(events[0], s);
      StepAdds(events[0], s, key, column);
      NoLostUpdate(events[1..], Do(events[0], s), key, column);
    }
  }

  /** In particular from a start at which nobody holds a row and the balances are readable. */
  lemma NoLostUpdateFromIdle(events: seq<Event>, w: World, key: string, column: Column)
    requires forall k :: k in w.tables.wallets ==> Readable(w.tables.wallets[k])
    requires Run(events, System(w, map[]))
    ensures Exclusive(After(events, System(w, map[])))
    ensures Balance(After(events, System(w, map[])), key, column)
         == Balance(System(w, map[]), key, column) + TotalAdded(events, System(w, map[]), key, column)
  {
    hide Exclusive, Balance, Run, After, TotalAdded;
    IdleIsExclusive(w);
    NoLostUpdate(events, System(w, map[]), key, column);
  }

  /** A system without holds and with readable balances is a start. */
  lemma IdleIsExclusive(w: World)
    requires forall k :: k in w.tables.wallets ==> Readable(w.tables.wallets[k])
    ensures Exclusive(System(w, map[]))
  {
    hide Readable;
    NoWalletReads(NO_WALLET.available);
  }

  lemma NoWalletReads(zero: string)
    requires zero == "0"
    ensures Readable(Wallet(zero, zero))
  {
    PlainSplits(zero);
  }
}

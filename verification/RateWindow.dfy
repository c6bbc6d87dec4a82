/** The gateway's sliding-window limit on client messages. */
module RateWindow {
  const WINDOW: int := 60000

  /** timestamps.filter(t => now - t < 60000) */
  function Recent(timestamps: seq<int>, now: int): seq<int> {
    if |timestamps| == 0 then []
    else (if now - timestamps[0] < WINDOW then [timestamps[0]] else []) + Recent(timestamps[1..], now)
  }

  predicate Admits(timestamps: seq<int>, now: int, rate: nat) {
    |Recent(timestamps, now)| < rate
  }

  function Next(timestamps: seq<int>, now: int, rate: nat): seq<int> {
    if Admits(timestamps, now, rate) then Recent(timestamps, now) + [now] else Recent(timestamps, now)
  }

  // ------------------------------------------------------------- whole runs

  predicate Sorted(s: seq<int>) {
    forall i, j :: 0 <= i < j < |s| ==> s[i] <= s[j]
  }

  /** The timestamps kept after the messages of a run. */
  function Kept(arrivals: seq<int>, rate: nat): seq<int> {
    if |arrivals| == 0 then []
    else Next(Kept(arrivals[..|arrivals| - 1], rate), arrivals[|arrivals| - 1], rate)
  }

  /** Every message admitted in a run, including those whose timestamps are long forgotten. */
  function Admitted(arrivals: seq<int>, rate: nat): seq<int> {
    if |arrivals| == 0 then []
    else
      var before, now := arrivals[..|arrivals| - 1], arrivals[|arrivals| - 1];
      Admitted(before, rate) + if Admits(Kept(before, rate), now, rate) then [now] else []
  }

  /** Old timestamps at the front go, and stay gone. */
  lemma {:induction false} RecentDropsOld(timestamps: seq<int>, k: nat, now: int)
    requires k <= |timestamps|
    requires forall i :: 0 <= i < k ==> now - timestamps[i] >= WINDOW
    requires forall i :: k <= i < |timestamps| ==> now - timestamps[i] < WINDOW
    ensures Recent(timestamps, now) == timestamps[k..]
  {
    if |timestamps| > 0 {
      if k > 0 {
        RecentDropsOld(timestamps[1..], k - 1, now);
      } else {
        RecentDropsOld(timestamps[1..], 0, now);
        assert timestamps == [timestamps[0]] + timestamps[1..];
      }
    }
  }

  /** How many of a sorted list are at least a minute old. */
  function OldCount(timestamps: seq<int>, now: int): (k: nat)
    requires Sorted(timestamps)
    ensures k <= |timestamps|
    ensures forall i :: 0 <= i < k ==> now - timestamps[i] >= WINDOW
    ensures forall i :: k <= i < |timestamps| ==> now - timestamps[i] < WINDOW
  {
    var n := |timestamps|;
    if n == 0 then 0
    else if now - timestamps[n - 1] >= WINDOW then n
    else OldCount(timestamps[..n - 1], now)
  }

  /** `kept` is the part of the admitted messages that is less than a minute old. */
  ghost predicate Tracks(admitted: seq<int>, kept: seq<int>, now: int, cut: nat) {
    && cut <= |admitted| && kept == admitted[cut..]
    && Sorted(admitted)
    && (forall i :: 0 <= i < |admitted| ==> admitted[i] <= now)
    && (forall i :: 0 <= i < cut ==> now - admitted[i] >= WINDOW)
    && (forall i :: cut <= i < |admitted| ==> now - admitted[i] < WINDOW)
  }

  lemma TracksAdmitted(admitted: seq<int>, kept: seq<int>, now: int, cut: nat)
    requires Tracks(admitted, kept, now, cut)
    ensures Tracks(admitted + [now], kept + [now], now, cut)
  {
  }

  lemma TracksLater(admitted: seq<int>, kept: seq<int>, now: int, cut: nat, later: int) returns (cut': nat)
    requires Tracks(admitted, kept, now, cut) && now <= later
    ensures Tracks(admitted, Recent(kept, later), later, cut')
  {
    var k := OldCount(kept, later);
    RecentDropsOld(kept, k, later);
    cut' := cut + k;
    forall i | 0 <= i < cut' ensures later - admitted[i] >= WINDOW {
      assert i >= cut ==> admitted[i] == kept[i - cut];
    }
    forall i | cut' <= i < |admitted| ensures later - admitted[i] < WINDOW {
      assert admitted[i] == kept[i - cut];
    }
  }

  /**
   When a message arrives, what filtering leaves is exactly the messages admitted in the last
   minute: forgetting the older ones loses nothing.
   */
  lemma {:induction false} KeptIsWindow(arrivals: seq<int>, rate: nat, now: int) returns (cut: nat)
    requires Sorted(arrivals) && (|arrivals| > 0 ==> arrivals[|arrivals| - 1] <= now)
    ensures Tracks(Admitted(arrivals, rate), Recent(Kept(arrivals, rate), now), now, cut)
  {
    if |arrivals| == 0 {
      cut := 0;
    } else {
      var before, t := arrivals[..|arrivals| - 1], arrivals[|arrivals| - 1];
      cut := KeptIsWindow(before, rate, t);
      if Admits(Kept(before, rate), t, rate) {
        TracksAdmitted(Admitted(before, rate), Recent(Kept(before, rate), t), t, cut);
      } else {
        assert Admitted(before, rate) + [] == Admitted(before, rate);
      }
      cut := TracksLater(Admitted(arrivals, rate), Kept(arrivals, rate), t, cut, now);
    }
  }

  /** A message is admitted exactly when fewer than `rate` were admitted in the minute before it. */
  lemma AdmittedIff(arrivals: seq<int>, rate: nat, now: int)
    requires rate > 0 && Sorted(arrivals) && (|arrivals| > 0 ==> arrivals[|arrivals| - 1] <= now)
    ensures var admitted := Admitted(arrivals, rate);
      Admits(Kept(arrivals, rate), now, rate)
      <==> |admitted| < rate || now - admitted[|admitted| - rate] >= 60_000
  {
    var cut := KeptIsWindow(arrivals, rate, now);
  }

  /** Any two admitted messages that are `rate` admissions apart are at least a minute apart. */
  lemma {:induction false} AdmissionsAreSpread(arrivals: seq<int>, rate: nat, i: nat)
    requires rate > 0 && Sorted(arrivals) && i + rate < |Admitted(arrivals, rate)|
    ensures Admitted(arrivals, rate)[i + rate] - Admitted(arrivals, rate)[i] >= 60_000
  {
    var before, now := arrivals[..|arrivals| - 1], arrivals[|arrivals| - 1];
    if i + rate < |Admitted(before, rate)| {
      AdmissionsAreSpread(before, rate, i);
    } else {
      AdmittedIff(before, rate, now);
    }
  }
}

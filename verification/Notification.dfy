/** The notification worker: a bounded cache of processed event ids, and bounded retries. */
module Notification {
  const MAX_CACHE_SIZE: nat := 1000
  const MAX_RETRIES: nat := 3

  // ------------------------------------------------------- the cache on values

  /** Removing the oldest id: `if (oldest)` is false for the empty string. */
  function Evicted(cache: seq<string>, size: nat): seq<string> {
    if |cache| >= size && |cache| > 0 && |cache[0]| > 0 then cache[1..] else cache
  }

  function Next(cache: seq<string>, id: string, size: nat): seq<string> {
    if id in cache then cache else Evicted(cache, size) + [id]
  }

  /** The cache after a run of events. */
  function Cache(ids: seq<string>, size: nat): seq<string> {
    if |ids| == 0 then [] else Next(Cache(ids[..|ids| - 1], size), ids[|ids| - 1], size)
  }

  /** The events of a run that were not taken for duplicates, in order. */
  function Admitted(ids: seq<string>, size: nat): seq<string> {
    if |ids| == 0 then []
    else
      var before, id := ids[..|ids| - 1], ids[|ids| - 1];
      Admitted(before, size) + if id in Cache(before, size) then [] else [id]
  }

  function FirstEmpty(ids: seq<string>): (k: nat)
    ensures k <= |ids| && (k < |ids| ==> |ids[k]| == 0)
    ensures forall i :: 0 <= i < k ==> |ids[i]| > 0
  {
    if |ids| == 0 || |ids[0]| == 0 then 0 else
      var k := FirstEmpty(ids[1..]);
      assert forall i :: 0 < i < k + 1 ==> ids[i] == ids[1..][i - 1];
      k + 1
  }

  /** Where the cache begins in the admitted ids: `size` from the end, but never past an empty id. */
  function Start(admitted: seq<string>, size: nat): nat {
    var n := |admitted|;
    if n <= size then 0
    else if FirstEmpty(admitted) < n - size then FirstEmpty(admitted) else n - size
  }

  lemma FirstEmptyOfNext(ids: seq<string>, id: string)
    ensures FirstEmpty(ids) < |ids| ==> FirstEmpty(ids + [id]) == FirstEmpty(ids)
    ensures FirstEmpty(ids) == |ids| ==> FirstEmpty(ids + [id]) >= |ids|
  {
    var k, j := FirstEmpty(ids), FirstEmpty(ids + [id]);
    assert forall i :: 0 <= i < |ids| ==> (ids + [id])[i] == ids[i];
    if j < |ids| {
      assert |ids[j]| == 0;
    }
  }

  lemma StartOfNext(admitted: seq<string>, id: string, size: nat)
    requires size > 0
    ensures Start(admitted, size) <= |admitted|
    ensures Start(admitted + [id], size) ==
      Start(admitted, size)
      + if |admitted| - Start(admitted, size) >= size && |admitted[Start(admitted, size)]| > 0 then 1 else 0
  {
    FirstEmptyOfNext(admitted, id);
  }

  /** After any run the cache is what was admitted from `Start` on. */
  lemma {:induction false} CacheIsSuffix(ids: seq<string>, size: nat)
    requires size > 0
    ensures Start(Admitted(ids, size), size) <= |Admitted(ids, size)|
    ensures Cache(ids, size) == Admitted(ids, size)[Start(Admitted(ids, size), size)..]
  {
    if |ids| > 0 {
      var before, id := ids[..|ids| - 1], ids[|ids| - 1];
      CacheIsSuffix(before, size);
      if id in Cache(before, size) {
        assert Admitted(ids, size) == Admitted(before, size);
      } else {
        SuffixGrows(Admitted(before, size), id, size);
      }
    }
  }

  lemma SuffixGrows(admitted: seq<string>, id: string, size: nat)
    requires size > 0
    ensures Start(admitted, size) <= |admitted| && Start(admitted + [id], size) <= |admitted| + 1
    ensures Evicted(admitted[Start(admitted, size)..], size) + [id] == (admitted + [id])[Start(admitted + [id], size)..]
  {
    StartOfNext(admitted, id, size);
    StartOfNext(admitted + [id], id, size);
  }

  function LastOf(admitted: seq<string>, size: nat): seq<string> {
    if |admitted| <= size then admitted else admitted[|admitted| - size..]
  }

  /** The cache is the last `size` admitted ids exactly as long as no empty id is older than those. */
  lemma CacheIsLastIff(ids: seq<string>, size: nat)
    requires size > 0
    ensures var admitted := Admitted(ids, size);
      Cache(ids, size) == LastOf(admitted, size)
      <==> |admitted| <= size || forall i :: 0 <= i < |admitted| - size ==> |admitted[i]| > 0
  {
    var admitted := Admitted(ids, size);
    CacheIsSuffix(ids, size);
    if |admitted| > size {
      assert |Cache(ids, size)| == |admitted| - Start(admitted, size);
    }
  }

  lemma {:induction false} AdmittedComesFrom(ids: seq<string>, size: nat)
    requires forall id :: id in ids ==> |id| > 0
    ensures forall id :: id in Admitted(ids, size) ==> |id| > 0
  {
    if |ids| > 0 {
      AdmittedComesFrom(ids[..|ids| - 1], size);
    }
  }

  /** With non-empty ids the cache is always the last `size` admitted ones. */
  lemma CacheIsLast(ids: seq<string>, size: nat)
    requires size > 0 && forall id :: id in ids ==> |id| > 0
    ensures Cache(ids, size) == LastOf(Admitted(ids, size), size) && |Cache(ids, size)| <= size
  {
    AdmittedComesFrom(ids, size);
    CacheIsLastIff(ids, size);
  }

  lemma WithinSuffix(s: seq<string>, k: nat, i: nat)
    requires k <= i < |s|
    ensures s[i] in s[k..]
  {
    assert s[k..][i - k] == s[i];
  }

  /** An event is processed again only after at least `size` other admissions. */
  lemma {:induction false} ReadmissionIsLate(ids: seq<string>, size: nat, i: nat, j: nat)
    requires size > 0 && i < j < |Admitted(ids, size)| && Admitted(ids, size)[i] == Admitted(ids, size)[j]
    ensures j - i - 1 >= size
  {
    var before := ids[..|ids| - 1];
    if j < |Admitted(before, size)| {
      ReadmissionIsLate(before, size, i, j);
    } else {
      var admitted := Admitted(before, size);
      CacheIsSuffix(before, size);
      if i >= Start(admitted, size) {
        WithinSuffix(admitted, Start(admitted, size), i);
      }
    }
  }

  /** Once an empty id is the oldest it is never removed, and nothing after it is: the cache only grows. */
  lemma {:induction false} EmptyIdStopsEviction(ids: seq<string>, more: seq<string>, size: nat)
    requires |Cache(ids, size)| > 0 && |Cache(ids, size)[0]| == 0
    ensures |Cache(ids + more, size)| - |Cache(ids, size)| == |Admitted(ids + more, size)| - |Admitted(ids, size)|
    ensures Cache(ids, size) <= Cache(ids + more, size)
  {
    if |more| == 0 {
      assert ids + more == ids;
    } else {
      var earlier := more[..|more| - 1];
      assert (ids + more)[..|ids + more| - 1] == ids + earlier;
      EmptyIdStopsEviction(ids, earlier, size);
    }
  }

  // ------------------------------------------------------------------ retries

  /** The attempts of one event: whether each succeeds, and whether the worker still runs before it. */
  datatype Attempt = Attempt(running: bool, succeeds: bool)

  /** How many leading attempts are made and fail. */
  function Failures(attempts: seq<Attempt>): (n: nat)
    ensures n <= |attempts|
  {
    if |attempts| > 0 && attempts[0].running && !attempts[0].succeeds then 1 + Failures(attempts[1..]) else 0
  }

  lemma {:induction false} FailuresAre(attempts: seq<Attempt>, n: nat)
    requires n <= |attempts|
    requires forall i :: 0 <= i < n ==> attempts[i].running && !attempts[i].succeeds
    requires n < |attempts| ==> !attempts[n].running || attempts[n].succeeds
    ensures Failures(attempts) == n
  {
    if n > 0 {
      FailuresAre(attempts[1..], n - 1);
    }
  }

  /** The attempt succeeds while the worker runs, after failures while it ran. */
  predicate Delivers(attempts: seq<Attempt>, k: nat)
    requires k < |attempts|
  {
    attempts[k] == Attempt(true, true) && forall i :: 0 <= i < k ==> attempts[i] == Attempt(true, false)
  }

  class NotificationWorker {
    var isRunning: bool
    var processedEventIds: seq<string>

    constructor ()
      ensures isRunning && processedEventIds == Cache([], MAX_CACHE_SIZE)
    {
      isRunning, processedEventIds := true, [];
    }

    /** The listener: a stopped worker ignores the event; a known id is skipped. */
    method HandleEvent(id: string) returns (admitted: bool)
      modifies this`processedEventIds
      ensures admitted == (isRunning && id !in old(processedEventIds))
      ensures processedEventIds
           == if isRunning then Next(old(processedEventIds), id, MAX_CACHE_SIZE) else old(processedEventIds)
      ensures admitted && |old(processedEventIds)| < 1000 ==> processedEventIds == old(processedEventIds) + [id]
      ensures admitted && |old(processedEventIds)| >= 1000 && old(processedEventIds)[0] != [] ==>
        processedEventIds == old(processedEventIds)[1..] + [id]
      ensures !admitted ==> processedEventIds == old(processedEventIds)
    {
      if !isRunning || id in processedEventIds {
        return false;
      }
      if |processedEventIds| >= MAX_CACHE_SIZE {
        var oldest := processedEventIds[0];
        if |oldest| > 0 {
          processedEventIds := processedEventIds[1..];
        }
      }
      processedEventIds := processedEventIds + [id];
      admitted := true;
    }

    /**
     At most three attempts: the event is delivered exactly when one of the first three succeeds
     before the worker stops; the waits in between double from one second.
     */
    method ProcessWithRetry(attempts: seq<Attempt>) returns (delivered: bool, made: nat, waits: seq<nat>)
      requires |attempts| >= MAX_RETRIES
      ensures made <= 3 && delivered == exists k :: 0 <= k < 3 && Delivers(attempts, k)
      ensures var failures := Failures(attempts[..MAX_RETRIES]);
        && delivered == (failures < MAX_RETRIES && attempts[failures].running)
        && made == failures + (if delivered then 1 else 0)
        && waits == [1000, 2000][..if failures < MAX_RETRIES then failures else MAX_RETRIES - 1]
    {
      var attempt := 0;
      waits := [];
      while attempt < MAX_RETRIES && attempts[attempt].running
        invariant attempt < MAX_RETRIES && waits == [1000, 2000][..attempt]
        invariant forall i :: 0 <= i < attempt ==> attempts[i].running && !attempts[i].succeeds
        decreases MAX_RETRIES - attempt
      {
        if attempts[attempt].succeeds {
          FailuresAre(attempts[..MAX_RETRIES], attempt);
          assert Delivers(attempts, attempt);
          return true, attempt + 1, waits;
        }
        attempt := attempt + 1;
        if attempt >= MAX_RETRIES {
          FailuresAre(attempts[..MAX_RETRIES], attempt);
          return false, attempt, waits;
        }
        waits := waits + [Backoff(attempt)];
      }
      FailuresAre(attempts[..MAX_RETRIES], attempt);
      delivered, made := false, attempt;
    }
  }

  /** Math.pow(2, attempt - 1) * 1000 */
  function Backoff(attempt: nat): nat
    requires attempt > 0
  {
    if attempt == 1 then 1000 else 2 * Backoff(attempt - 1)
  }
}

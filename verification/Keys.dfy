/** The composite keys `${a}:${b}` under which the in-memory pool groups and indexes rows. */
module Keys {
  predicate ColonFree(s: string) {
    forall i :: 0 <= i < |s| ==> s[i] != ':'
  }

  function Key(a: string, b: string): string {
    a + ":" + b
  }

  lemma KeyShape(a: string, b: string)
    ensures |Key(a, b)| == |a| + 1 + |b| && Key(a, b)[|a|] == ':'
    ensures Key(a, b)[..|a|] == a && Key(a, b)[|a| + 1..] == b
  {
  }

  lemma KeyNotShorter(a: string, b: string, c: string, d: string)
    requires ColonFree(c) && Key(a, b) == Key(c, d)
    ensures |c| <= |a|
  {
    KeyShape(a, b);
    assert forall i :: 0 <= i < |c| ==> Key(c, d)[i] != ':';
  }

  /** A key determines its two parts when its first part has no colon. */
  lemma KeyIsInjective(a: string, b: string, c: string, d: string)
    requires ColonFree(a) && ColonFree(c) && Key(a, b) == Key(c, d)
    ensures a == c && b == d
  {
    KeyNotShorter(a, b, c, d);
    KeyNotShorter(c, d, a, b);
    KeyShape(a, b);
    KeyShape(c, d);
  }

  /** And only then: every first part with a colon shares some key with another pair. */
  lemma ColonsCollide(a: string, b: string)
    requires !ColonFree(a)
    ensures exists c, d :: c != a && ColonFree(c) && Key(c, d) == Key(a, b)
  {
    var i := FirstColon(a);
    var c, d := a[..i], a[i + 1..] + ":" + b;
    assert Key(c, d) == Key(a, b);
    assert |c| < |a|;
  }

  function FirstColon(a: string): (i: nat)
    requires !ColonFree(a)
    ensures i < |a| && a[i] == ':' && ColonFree(a[..i])
    decreases |a|
  {
    if a[0] == ':' then 0 else
      assert a == [a[0]] + a[1..];
      var j := FirstColon(a[1..]);
      assert a[..j + 1] == [a[0]] + a[1..][..j];
      j + 1
  }
}

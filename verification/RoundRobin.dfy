/**
 Dealing a list over a fixed number of buckets in turn, as the load driver does
 for its workers, threads and lanes and the background signers do for channels.
 */
module RoundRobin {
  /** Deal `s` over `n` buckets: item i goes to the end of bucket i % n. */
  function Deal<T>(s: seq<T>, n: nat): (b: seq<seq<T>>)
    requires n > 0
    ensures |b| == n
  {
    if s == [] then seq(n, i => [])
    else
      var last := |s| - 1;
      var before := Deal(s[..last], n);
      before[last % n := before[last % n] + [s[last]]]
  }

  lemma NextPlace(i: nat, n: nat)
    requires n > 0
    ensures (i + 1) / n == if i % n + 1 == n then i / n + 1 else i / n
    ensures (i + 1) % n == if i % n + 1 == n then 0 else i % n + 1
  {
    var q, r := i / n, i % n;
    assert i == q * n + r;
    if r + 1 == n {
      assert i + 1 == (q + 1) * n;
      Quotient(i + 1, n, q + 1, 0);
    } else {
      Quotient(i + 1, n, q, r + 1);
    }
  }

  lemma Above(a: nat, b: nat, d: nat)
    requires a < b
    ensures a * d + d <= b * d
    decreases b
  {
    if a + 1 < b { Above(a, b - 1, d); }
  }

  lemma Quotient(x: nat, d: nat, q: nat, r: nat)
    requires d > 0 && r < d && x == q * d + r
    ensures x / d == q && x % d == r
  {
    var a := x / d;
    assert x == a * d + x % d;
    if a < q {
      Above(a, q, d);
    } else if q < a {
      Above(q, a, d);
    }
  }

  /** Bucket w holds |s|/n items, and one more if w is below the remainder: sizes differ by at most one. */
  lemma {:induction false} DealtEvenly<T>(s: seq<T>, n: nat, w: nat)
    requires n > 0 && w < n
    ensures |Deal(s, n)[w]| == |s| / n + if w < |s| % n then 1 else 0
  {
    if s == [] {
      Quotient(0, n, 0, 0);
    } else {
      var last := |s| - 1;
      DealtEvenly(s[..last], n, w);
      NextPlace(last, n);
    }
  }

  /** Every item is dealt: item i is in bucket i % n, at place i / n. */
  lemma {:induction false} EveryItemDealt<T>(s: seq<T>, n: nat, i: nat)
    requires n > 0 && i < |s|
    ensures var b := Deal(s, n)[i % n]; i / n < |b| && b[i / n] == s[i]
  {
    var last := |s| - 1;
    if i < last {
      EveryItemDealt(s[..last], n, i);
    } else {
      DealtEvenly(s[..last], n, i % n);
    }
  }

  /** Nothing else is: place k of bucket w holds item k * n + w, so no item is in two places. */
  lemma {:induction false} NothingElseDealt<T>(s: seq<T>, n: nat, w: nat, k: nat)
    requires n > 0 && w < n && k < |Deal(s, n)[w]|
    ensures k * n + w < |s| && Deal(s, n)[w][k] == s[k * n + w]
  {
    if s != [] {
      var last := |s| - 1;
      var before := Deal(s[..last], n);
      if k < |before[w]| {
        NothingElseDealt(s[..last], n, w, k);
      } else {
        DealtEvenly(s[..last], n, w);
        assert last == (last / n) * n + last % n;
      }
    }
  }

  /** The dealing loop. */
  method Partition<T>(s: seq<T>, n: nat) returns (buckets: seq<seq<T>>)
    requires n > 0
    ensures buckets == Deal(s, n)
  {
    buckets := seq(n, i => []);
    assert s[..0] == [];
    for i := 0 to |s|
      invariant buckets == Deal(s[..i], n)
    {
      assert s[..i + 1][..i] == s[..i];
      buckets := buckets[i % n := buckets[i % n] + [s[i]]];
    }
    assert s[..|s|] == s;
  }
}

/**
 * `Array.prototype.filter` and the "count occurrences into a record" idiom
 * (`groups[k] = (groups[k] || 0) + 1` inside `forEach`).
 */
module Seqs {

  /** `s.filter(p)`: the elements satisfying `p`, in their original order. */
  function Filter<T>(s: seq<T>, p: T -> bool): (r: seq<T>)
    ensures |r| <= |s|
    decreases |s|
  {
    if s == [] then []
    else (if p(s[0]) then [s[0]] else []) + Filter(s[1..], p)
  }

  /** What the filter keeps is exactly the elements satisfying `p`. */
  lemma {:induction false} FilterMembers<T>(s: seq<T>, p: T -> bool)
    ensures forall i :: 0 <= i < |Filter(s, p)| ==> Filter(s, p)[i] in s && p(Filter(s, p)[i])
    ensures forall i :: 0 <= i < |s| && p(s[i]) ==> s[i] in Filter(s, p)
    decreases |s|
  {
    if s != [] {
      FilterMembers(s[1..], p);
      var head := if p(s[0]) then [s[0]] else [];
      var r := Filter(s, p);
      assert r == head + Filter(s[1..], p);
      forall i | 0 <= i < |r|
        ensures r[i] in s && p(r[i])
      {
        if i >= |head| {
          assert r[i] == Filter(s[1..], p)[i - |head|];
        }
      }
      forall i | 0 <= i < |s| && p(s[i])
        ensures s[i] in r
      {
        if i > 0 {
          assert s[i] == s[1..][i - 1];
        }
      }
    }
  }

  /** Filtering distributes over concatenation, which is what "order preserved" means. */
  lemma {:induction false} FilterConcat<T>(a: seq<T>, b: seq<T>, p: T -> bool)
    ensures Filter(a + b, p) == Filter(a, p) + Filter(b, p)
    decreases |a|
  {
    if a == [] {
      assert a + b == b;
    } else {
      FilterConcat(a[1..], b, p);
      var head := if p(a[0]) then [a[0]] else [];
      assert (a + b)[0] == a[0];
      assert (a + b)[1..] == a[1..] + b;
      assert Filter(a + b, p) == head + Filter(a[1..] + b, p);
      assert Filter(a, p) == head + Filter(a[1..], p);
    }
  }

  /** Two filters in a row keep what their conjunction keeps. */
  lemma {:induction false} FilterFilter<T>(s: seq<T>, p: T -> bool, q: T -> bool, both: T -> bool)
    requires forall x :: both(x) == (p(x) && q(x))
    ensures Filter(Filter(s, p), q) == Filter(s, both)
    decreases |s|
  {
    if s != [] {
      FilterFilter(s[1..], p, q, both);
      var head := if p(s[0]) then [s[0]] else [];
      FilterConcat(head, Filter(s[1..], p), q);
    }
  }

  /** A filter that keeps everything is the identity. */
  lemma {:induction false} FilterAll<T>(s: seq<T>, p: T -> bool)
    requires forall x :: x in s ==> p(x)
    ensures Filter(s, p) == s
    decreases |s|
  {
    if s != [] {
      FilterAll(s[1..], p);
      assert [s[0]] + s[1..] == s;
    }
  }

  /** A filter that keeps nothing gives the empty sequence. */
  lemma {:induction false} FilterNone<T>(s: seq<T>, p: T -> bool)
    requires forall i :: 0 <= i < |s| ==> !p(s[i])
    ensures Filter(s, p) == []
    decreases |s|
  {
    if s != [] {
      FilterNone(s[1..], p);
    }
  }

  /** Filters whose tests agree on every element give the same result. */
  lemma {:induction false} FilterSame<T>(s: seq<T>, p: T -> bool, q: T -> bool)
    requires forall i :: 0 <= i < |s| ==> p(s[i]) == q(s[i])
    ensures Filter(s, p) == Filter(s, q)
    decreases |s|
  {
    if s != [] {
      FilterSame(s[1..], p, q);
    }
  }

  /** Splitting a sequence by a predicate and its negation loses nothing. */
  lemma {:induction false} FilterPartition<T>(s: seq<T>, p: T -> bool, notP: T -> bool)
    requires forall x :: notP(x) == !p(x)
    ensures |Filter(s, p)| + |Filter(s, notP)| == |s|
    decreases |s|
  {
    if s != [] {
      FilterPartition(s[1..], p, notP);
    }
  }

  /** `s.map(f)`. */
  function Map<T, U>(s: seq<T>, f: T -> U): (r: seq<U>)
    ensures |r| == |s|
    ensures forall i :: 0 <= i < |s| ==> r[i] == f(s[i])
    decreases |s|
  {
    if s == [] then [] else [f(s[0])] + Map(s[1..], f)
  }

  /** Mapping a concatenation maps each part. */
  lemma MapConcat<T, U>(a: seq<T>, b: seq<T>, f: T -> U)
    ensures Map(a + b, f) == Map(a, f) + Map(b, f)
  {
  }

  /** Mapping a prefix one element longer appends that element's image. */
  lemma MapPrefix<T, U>(s: seq<T>, f: T -> U, i: nat)
    requires i < |s|
    ensures Map(s[..i + 1], f) == Map(s[..i], f) + [f(s[i])]
  {
  }

  // ---------------------------------------------------------------------------
  // Counting by key

  /** The record built by `forEach(k => m[k] = (m[k] || 0) + 1)`, one key at a time. */
  function Tally<K>(ks: seq<K>): map<K, nat>
    decreases |ks|
  {
    if ks == [] then map[]
    else Bump(Tally(ks[..|ks| - 1]), ks[|ks| - 1])
  }

  /** One increment: an absent key starts at zero. */
  function Bump<K>(m: map<K, nat>, k: K): (r: map<K, nat>)
    ensures r.Keys == m.Keys + {k}
  {
    m[k := (if k in m then m[k] else 0) + 1]
  }

  /** Counting one more key bumps its count. */
  lemma TallySnoc<K>(ks: seq<K>, k: K)
    ensures Tally(ks + [k]) == Bump(Tally(ks), k)
  {
    assert (ks + [k])[..|ks|] == ks;
  }

  /** The keys are exactly the values seen, and each count is the number of times it was seen. */
  lemma {:induction false} TallyCounts<K>(ks: seq<K>)
    ensures forall k :: k in Tally(ks) <==> k in ks
    ensures forall k :: k in Tally(ks) ==> Tally(ks)[k] == multiset(ks)[k] > 0
    decreases |ks|
  {
    if ks != [] {
      var init := ks[..|ks| - 1];
      TallyCounts(init);
      assert ks == init + [ks[|ks| - 1]];
    }
  }

  /** The sum of the values of a map of counts. */
  ghost function SumValues<K>(m: map<K, nat>): nat
    decreases |m|
  {
    if |m| == 0 then 0
    else
      var k := PickKey(m);
      m[k] + SumValues(m - {k})
  }

  ghost function PickKey<K>(m: map<K, nat>): (k: K)
    requires |m| > 0
    ensures k in m
  {
    assert m.Keys != {};
    var k :| k in m.Keys; k
  }

  /** Any key may be taken out first. */
  lemma {:induction false} SumValuesRemove<K>(m: map<K, nat>, k: K)
    requires k in m
    ensures SumValues(m) == m[k] + SumValues(m - {k})
    decreases |m|
  {
    var j := PickKey(m);
    if j != k {
      SumValuesRemove(m - {j}, k);
      SumValuesRemove(m - {k}, j);
      assert m - {j} - {k} == m - {k} - {j};
    }
  }

  /** Every increment adds one to the total. */
  lemma {:induction false} SumValuesBump<K>(m: map<K, nat>, k: K)
    ensures SumValues(Bump(m, k)) == SumValues(m) + 1
  {
    var b := Bump(m, k);
    var rest := m - {k};
    assert b - {k} == rest by { RemoveUpdated(m, k, b[k]); }
    SumValuesRemove(b, k);
    assert SumValues(b) == b[k] + SumValues(rest);
    if k in m {
      SumValuesRemove(m, k);
    } else {
      assert rest == m;
    }
  }

  lemma RemoveUpdated<K>(m: map<K, nat>, k: K, v: nat)
    ensures m[k := v] - {k} == m - {k}
  {
  }

  /** The counts add up to the number of values tallied. */
  lemma {:induction false} TallySum<K>(ks: seq<K>)
    ensures SumValues(Tally(ks)) == |ks|
    decreases |ks|
  {
    if ks == [] {
    } else {
      TallySum(ks[..|ks| - 1]);
      SumValuesBump(Tally(ks[..|ks| - 1]), ks[|ks| - 1]);
    }
  }
}

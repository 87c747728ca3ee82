/** Sequences of (key, amount) pairs: the shape shared by a cost ledger
    (label, monthly amount) and by a column of a table grouped by a key
    (group value, annual cost). */
module Tables {

  datatype Option<T> = None | Some(value: T)

  /** The key occurs somewhere in `s`. */
  predicate KeyOccurs<K(==)>(s: seq<(K, real)>, k: K)
  {
    exists i :: 0 <= i < |s| && s[i].0 == k
  }

  /** No key occurs twice, as in a dictionary. */
  predicate DistinctKeys<K(==)>(s: seq<(K, real)>)
  {
    forall i, j :: 0 <= i < j < |s| ==> s[i].0 != s[j].0
  }

  /** Sum of all amounts (Python's `sum` over the dictionary's values). */
  function SumValues<K>(s: seq<(K, real)>): (t: real)
    ensures (forall i :: 0 <= i < |s| ==> s[i].1 >= 0.0) ==> t >= 0.0
  {
    if s == [] then 0.0 else SumValues(s[..|s| - 1]) + s[|s| - 1].1
  }

  /** Sum of the amounts filed under key `k`. */
  function SumOf<K(==)>(s: seq<(K, real)>, k: K): real
  {
    if s == [] then 0.0
    else SumOf(s[..|s| - 1], k) + (if s[|s| - 1].0 == k then s[|s| - 1].1 else 0.0)
  }

  /** Sum of the amounts filed under any key other than `k`. */
  function SumExcept<K(==)>(s: seq<(K, real)>, k: K): real
  {
    if s == [] then 0.0
    else SumExcept(s[..|s| - 1], k) + (if s[|s| - 1].0 != k then s[|s| - 1].1 else 0.0)
  }

  /** The amount stored under `k`, searching from the front. */
  function Lookup<K(==)>(s: seq<(K, real)>, k: K): (r: Option<real>)
    ensures r.Some? <==> KeyOccurs(s, k)
    ensures r.Some? ==> exists i :: 0 <= i < |s| && s[i] == (k, r.value)
  {
    if s == [] then None
    else if s[0].0 == k then Some(s[0].1)
    else
      var r := Lookup(s[1..], k);
      assert forall i :: 0 <= i < |s| - 1 ==> s[1..][i] == s[i + 1];
      assert KeyOccurs(s, k) ==> KeyOccurs(s[1..], k) by {
        if KeyOccurs(s, k) {
          var i :| 0 <= i < |s| && s[i].0 == k;
          assert s[1..][i - 1].0 == k;
        }
      }
      r
  }

  lemma {:induction false} SumValuesAppend<K>(a: seq<(K, real)>, b: seq<(K, real)>)
    ensures SumValues(a + b) == SumValues(a) + SumValues(b)
  {
    if b == [] {
      assert a + b == a;
    } else {
      SumValuesAppend(a, b[..|b| - 1]);
      assert (a + b)[..|a + b| - 1] == a + b[..|b| - 1];
    }
  }

  /** Every amount is filed either under `k` or under another key. */
  lemma {:induction false} SumSplits<K>(s: seq<(K, real)>, k: K)
    ensures SumValues(s) == SumOf(s, k) + SumExcept(s, k)
  {
    if s != [] {
      SumSplits(s[..|s| - 1], k);
    }
  }

  /** A key that does not occur collects nothing. */
  lemma {:induction false} SumOfAbsent<K>(s: seq<(K, real)>, k: K)
    requires !KeyOccurs(s, k)
    ensures SumOf(s, k) == 0.0
  {
    if s != [] {
      var init := s[..|s| - 1];
      SumOfAbsent(init, k);
    }
  }

  /** Under distinct keys, the sum filed under the key at position `i` is
      just the amount at `i`. */
  lemma {:induction false} SumOfDistinct<K>(s: seq<(K, real)>, i: nat)
    requires DistinctKeys(s) && i < |s|
    ensures SumOf(s, s[i].0) == s[i].1
  {
    var init := s[..|s| - 1];
    assert DistinctKeys(init);
    if i == |s| - 1 {
      SumOfAbsent(init, s[i].0);
    } else {
      SumOfDistinct(init, i);
      assert init[i] == s[i];
    }
  }

  /** Under distinct keys, looking up the key at position `i` finds the
      amount at `i`. */
  lemma {:induction false} LookupDistinct<K>(s: seq<(K, real)>, i: nat)
    requires DistinctKeys(s) && i < |s|
    ensures Lookup(s, s[i].0) == Some(s[i].1)
  {
    if i > 0 {
      assert s[0].0 != s[i].0;
      assert DistinctKeys(s[1..]);
      LookupDistinct(s[1..], i - 1);
      assert s[1..][i - 1] == s[i];
    }
  }

  /** Summing a prefix one element longer adds that element. */
  lemma SumPrefixStep<K>(l: seq<(K, real)>, k: nat)
    requires 0 < k <= |l|
    ensures SumValues(l[..k]) == SumValues(l[..k - 1]) + l[k - 1].1
  {
    assert l[..k][..k - 1] == l[..k - 1];
  }

  /** The sums of ledgers of the two fixed lengths of `calcular_custos`,
      written out term by term. */
  lemma SumOf17<K>(l: seq<(K, real)>)
    requires |l| == 17
    ensures SumValues(l) == l[0].1 + l[1].1 + l[2].1 + l[3].1 + l[4].1 + l[5].1 + l[6].1 + l[7].1 + l[8].1 + l[9].1 + l[10].1 + l[11].1 + l[12].1 + l[13].1 + l[14].1 + l[15].1 + l[16].1
  {
    assert l == l[..9] + l[9..];
    SumValuesAppend(l[..9], l[9..]);
    SumOf9(l[..9]);
    SumOf8(l[9..]);
  }

  lemma SumOf8<K>(l: seq<(K, real)>)
    requires |l| == 8
    ensures SumValues(l) == l[0].1 + l[1].1 + l[2].1 + l[3].1 + l[4].1 + l[5].1 + l[6].1 + l[7].1
  {
    SumPrefixStep(l, 1);
    SumPrefixStep(l, 2);
    SumPrefixStep(l, 3);
    SumPrefixStep(l, 4);
    SumPrefixStep(l, 5);
    SumPrefixStep(l, 6);
    SumPrefixStep(l, 7);
    SumPrefixStep(l, 8);
    assert l[..8] == l;
  }

  lemma SumOf9<K>(l: seq<(K, real)>)
    requires |l| == 9
    ensures SumValues(l) == l[0].1 + l[1].1 + l[2].1 + l[3].1 + l[4].1 + l[5].1 + l[6].1 + l[7].1 + l[8].1
  {
    SumPrefixStep(l, 1);
    SumPrefixStep(l, 2);
    SumPrefixStep(l, 3);
    SumPrefixStep(l, 4);
    SumPrefixStep(l, 5);
    SumPrefixStep(l, 6);
    SumPrefixStep(l, 7);
    SumPrefixStep(l, 8);
    SumPrefixStep(l, 9);
    assert l[..9] == l;
  }
}

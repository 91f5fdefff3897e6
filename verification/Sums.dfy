/** Totals over the values of a finite map, and over any listing of its keys. */
module Sums {
  ghost function Sum(m: map<string, real>): real
    decreases |m|
  {
    if m == map[] then 0.0
    else var k :| k in m; m[k] + Sum(m - {k})
  }

  lemma {:induction false} SumRemove(m: map<string, real>, k: string)
    requires k in m
    ensures Sum(m) == m[k] + Sum(m - {k})
    decreases |m|
  {
    var j :| j in m && Sum(m) == m[j] + Sum(m - {j});
    if j != k {
      SumRemove(m - {j}, k);
      SumRemove(m - {k}, j);
      assert m - {j} - {k} == m - {k} - {j};
    }
  }

  lemma SumUpdate(m: map<string, real>, k: string, v: real)
    ensures Sum(m[k := v]) == Sum(m) - (if k in m then m[k] else 0.0) + v
  {
    SumRemove(m[k := v], k);
    if k in m {
      SumRemove(m, k);
      assert m[k := v] - {k} == m - {k};
    } else {
      assert m[k := v] - {k} == m;
    }
  }

  predicate Lists(keys: seq<string>, all: set<string>) {
    && (forall i :: 0 <= i < |keys| ==> keys[i] in all)
    && (forall k :: k in all ==> k in keys)
    && (forall i, j :: 0 <= i < j < |keys| ==> keys[i] != keys[j])
  }

  function SumAlong(m: map<string, real>, keys: seq<string>): real
    requires forall k :: k in keys ==> k in m
  {
    if keys == [] then 0.0
    else SumAlong(m, keys[..|keys| - 1]) + m[keys[|keys| - 1]]
  }

  /** A loop over any listing of the keys computes the total. */
  lemma {:induction false} SumOfListing(m: map<string, real>, keys: seq<string>)
    requires Lists(keys, m.Keys)
    ensures SumAlong(m, keys) == Sum(m)
  {
    if keys == [] {
      assert m == map[];
    } else {
      var n := |keys| - 1;
      var k, front, rest := keys[n], keys[..n], m - {keys[n]};
      FrontLists(keys, m.Keys);
      SumOfListing(rest, front);
      SumRemove(m, k);
      SumAlongAgree(m, rest, front);
    }
  }

  lemma FrontLists(keys: seq<string>, all: set<string>)
    requires Lists(keys, all) && keys != []
    ensures Lists(keys[..|keys| - 1], all - {keys[|keys| - 1]})
  {
    var front, k := keys[..|keys| - 1], keys[|keys| - 1];
    forall j | j in all - {k} ensures j in front {
      var i :| 0 <= i < |keys| && keys[i] == j;
      assert front[i] == j;
    }
  }

  lemma {:induction false} SumAlongAgree(m: map<string, real>, m': map<string, real>, keys: seq<string>)
    requires forall k :: k in keys ==> k in m && k in m' && m[k] == m'[k]
    ensures SumAlong(m, keys) == SumAlong(m', keys)
  {
    if keys != [] {
      SumAlongAgree(m, m', keys[..|keys| - 1]);
    }
  }
}

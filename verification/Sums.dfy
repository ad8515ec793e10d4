/** Totals over finite maps, and listings of finite sets in an unspecified order. */
module Sums {

  ghost function Sum<K>(m: map<K, real>): real
    decreases |m|
  {
    if m == map[] then 0.0 else
      var k :| k in m;
      assert (m - {k}).Keys == m.Keys - {k};
      m[k] + Sum(m - {k})
  }

  lemma {:induction false} SumRemove<K>(m: map<K, real>, k: K)
    requires k in m
    ensures Sum(m) == m[k] + Sum(m - {k})
    decreases |m|
  {
    var j :| j in m && Sum(m) == m[j] + Sum(m - {j});
    if j != k {
      assert (m - {j}).Keys == m.Keys - {j};
      assert (m - {k}).Keys == m.Keys - {k};
      SumRemove(m - {j}, k);
      SumRemove(m - {k}, j);
      assert m - {j} - {k} == m - {k} - {j};
    }
  }

  ghost predicate Distinct<K>(rows: seq<K>) {
    forall i, j :: 0 <= i < j < |rows| ==> rows[i] != rows[j]
  }

  /** `rows` is what a query without ORDER BY may return for the set `s`. */
  ghost predicate Lists<K(!new)>(rows: seq<K>, s: set<K>) {
    && Distinct(rows)
    && (forall i :: 0 <= i < |rows| ==> rows[i] in s)
    && (forall k :: k in s ==> k in rows)
  }

  method List<K(==,!new)>(s: set<K>) returns (rows: seq<K>)
    ensures Lists(rows, s) && forall k :: k in rows <==> k in s
  {
    rows := [];
    var left := s;
    while left != {}
      invariant left <= s
      invariant Lists(rows, s - left)
      decreases |left|
    {
      var k :| k in left;
      left := left - {k};
      rows := rows + [k];
    }
  }
}

/** The OR-of-ANDs over positional parameters that stands in for a tuple IN condition. */
module PairClauses {

  /** `column = $placeholder`; placeholders count from 1. */
  datatype Equation = Equation(column: string, placeholder: nat)
  datatype Conjunction = Conjunction(left: Equation, right: Equation)

  predicate EquationHolds<V(==)>(e: Equation, params: seq<V>, row: map<string, V>) {
    && 1 <= e.placeholder <= |params|
    && e.column in row && row[e.column] == params[e.placeholder - 1]
  }

  predicate ConjunctionHolds<V(==)>(c: Conjunction, params: seq<V>, row: map<string, V>) {
    EquationHolds(c.left, params, row) && EquationHolds(c.right, params, row)
  }

  /** The meaning of the disjunction on one row of the table. */
  predicate Holds<V(==)>(clause: seq<Conjunction>, params: seq<V>, row: map<string, V>) {
    exists i :: 0 <= i < |clause| && ConjunctionHolds(clause[i], params, row)
  }

  /** Pair `i` reads the two parameters pushed for it. */
  ghost predicate ReadsItsPair<V>(
    left: string, right: string, start: nat, clause: seq<Conjunction>, params: seq<V>, pairs: seq<(V, V)>, i: nat)
    requires i < |clause| && 2 * i + 1 < |params| && i < |pairs|
  {
    && clause[i] == Conjunction(Equation(left, start + 2 * i), Equation(right, start + 2 * i + 1))
    && params[2 * i] == pairs[i].0 && params[2 * i + 1] == pairs[i].1
  }

  ghost predicate Built<V>(
    left: string, right: string, start: nat, clause: seq<Conjunction>, params: seq<V>, pairs: seq<(V, V)>)
  {
    && |clause| == |pairs| && |params| == 2 * |pairs|
    && forall i: nat :: i < |pairs| ==> ReadsItsPair(left, right, start, clause, params, pairs, i)
  }

  method BuildPairClause<V>(left: string, right: string, pairs: seq<(V, V)>, start: nat)
    returns (clause: seq<Conjunction>, params: seq<V>)
    ensures Built(left, right, start, clause, params, pairs)
  {
    clause, params := [], [];
    for i := 0 to |pairs|
      invariant |clause| == i && |params| == 2 * i
      invariant forall j: nat :: j < i ==> ReadsItsPair(left, right, start, clause, params, pairs, j)
    {
      ghost var earlier, pushed := clause, params;
      params := params + [pairs[i].0, pairs[i].1];
      var offset := start + i * 2;
      clause := clause + [Conjunction(Equation(left, offset), Equation(right, offset + 1))];
      forall j: nat | j <= i ensures ReadsItsPair(left, right, start, clause, params, pairs, j) {
        assert j < i ==> ReadsItsPair(left, right, start, earlier, pushed, pairs, j);
      }
    }
  }

  /** Whatever parameters precede it and whatever its start index, the clause holds of a row
      exactly when the row's two columns form one of the pairs. */
  lemma ClauseIsMembership<V>(left: string, right: string, pairs: seq<(V, V)>, start: nat,
                              clause: seq<Conjunction>, params: seq<V>, preceding: seq<V>, row: map<string, V>)
    requires 1 <= start == |preceding| + 1
    requires Built(left, right, start, clause, params, pairs)
    requires left in row && right in row
    ensures Holds(clause, preceding + params, row) <==> (row[left], row[right]) in pairs
  {
    var all := preceding + params;
    forall i: nat | i < |pairs|
      ensures ConjunctionHolds(clause[i], all, row) <==> (row[left], row[right]) == pairs[i]
    {
      assert ReadsItsPair(left, right, start, clause, params, pairs, i);
      assert all[start + 2 * i - 1] == params[2 * i] && all[start + 2 * i] == params[2 * i + 1];
    }
    if (row[left], row[right]) in pairs {
      var i :| 0 <= i < |pairs| && pairs[i] == (row[left], row[right]);
      assert ConjunctionHolds(clause[i], all, row);
    }
  }
}

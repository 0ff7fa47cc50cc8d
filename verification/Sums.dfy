/** Finite sums over maps, and the three facts about them the accounts need. */
module Sums {

  ghost function Sum<K>(m: map<K, real>): real {
    if m == map[] then 0.0
    else
      var k :| k in m;
      m[k] + Sum(m - {k})
  }

  /** The order of summation does not matter. */
  lemma {:induction false} SumWithout<K>(m: map<K, real>, k: K)
    requires k in m
    ensures Sum(m) == m[k] + Sum(m - {k})
    decreases |m|
  {
    var k0 :| k0 in m && Sum(m) == m[k0] + Sum(m - {k0});
    if k0 != k {
      SumWithout(m - {k0}, k);
      SumWithout(m - {k}, k0);
      assert m - {k0} - {k} == m - {k} - {k0};
    }
  }

  lemma {:induction false} SumOfSubmap<K>(m: map<K, real>, n: map<K, real>)
    requires forall k :: k in m ==> k in n && m[k] <= n[k]
    requires forall k :: k in n ==> n[k] >= 0.0
    ensures 0.0 <= Sum(n) && Sum(m) <= Sum(n)
    decreases |n|
  {
    if k :| k in n {
      SumWithout(n, k);
      if k in m {
        SumWithout(m, k);
        SumOfSubmap(m - {k}, n - {k});
      } else {
        SumOfSubmap(m, n - {k});
      }
    } else {
      assert m == map[];
    }
  }

  ghost function GroupOf<K, G>(m: map<K, real>, group: map<K, G>, g: G): map<K, real>
    requires m.Keys <= group.Keys
  {
    map k | k in m && group[k] == g :: m[k]
  }

  /** The sum of every group. */
  ghost function GroupSums<K, G>(m: map<K, real>, group: map<K, G>, groups: set<G>): map<G, real>
    requires m.Keys <= group.Keys
  {
    map g | g in groups :: Sum(GroupOf(m, group, g))
  }

  lemma {:induction false} SumOfZeros<K>(m: map<K, real>)
    requires forall k :: k in m ==> m[k] == 0.0
    ensures Sum(m) == 0.0
    decreases |m|
  {
    if k :| k in m {
      SumWithout(m, k);
      SumOfZeros(m - {k});
    }
  }

  lemma GroupWithout<K, G>(m: map<K, real>, group: map<K, G>, k: K, g: G)
    requires m.Keys <= group.Keys && k in m
    ensures Sum(GroupOf(m, group, g)) == Sum(GroupOf(m - {k}, group, g)) + if group[k] == g then m[k] else 0.0
  {
    if group[k] == g {
      SumWithout(GroupOf(m, group, g), k);
      assert GroupOf(m, group, g) - {k} == GroupOf(m - {k}, group, g);
    } else {
      assert GroupOf(m, group, g) == GroupOf(m - {k}, group, g);
    }
  }

  lemma ChangeOne<G>(m: map<G, real>, n: map<G, real>, g: G, v: real)
    requires m.Keys == n.Keys && g in m && m[g] == n[g] + v
    requires forall x :: x in m && x != g ==> m[x] == n[x]
    ensures Sum(m) == v + Sum(n)
  {
    SumWithout(m, g);
    SumWithout(n, g);
    assert m - {g} == n - {g};
  }

  lemma GroupsWithout<K, G>(m: map<K, real>, group: map<K, G>, groups: set<G>, k: K)
    requires m.Keys <= group.Keys && k in m && group[k] in groups
    ensures Sum(GroupSums(m, group, groups)) == m[k] + Sum(GroupSums(m - {k}, group, groups))
  {
    var sums, restSums := GroupSums(m, group, groups), GroupSums(m - {k}, group, groups);
    forall g | g in groups ensures sums[g] == restSums[g] + if group[k] == g then m[k] else 0.0 {
      GroupWithout(m, group, k, g);
    }
    ChangeOne(sums, restSums, group[k], m[k]);
  }

  /** Summing the sums of the groups counts every entry once. */
  lemma {:induction false} SumByGroups<K, G>(m: map<K, real>, group: map<K, G>, groups: set<G>)
    requires m.Keys <= group.Keys && forall k :: k in m ==> group[k] in groups
    ensures Sum(GroupSums(m, group, groups)) == Sum(m)
    decreases |m|
  {
    if k :| k in m {
      SumByGroups(m - {k}, group, groups);
      GroupsWithout(m, group, groups, k);
      SumWithout(m, k);
    } else {
      forall g | g in groups ensures GroupSums(m, group, groups)[g] == 0.0 {
        assert GroupOf(m, group, g) == map[];
      }
      SumOfZeros(GroupSums(m, group, groups));
      SumOfZeros(m);
    }
  }
}

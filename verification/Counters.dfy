/** Checked field-by-field addition and checked totals over a struct of counters. */
module Counters {
  import opened Basics

  predicate Distinct<T(==)>(order: seq<T>) {
    forall i, j :: 0 <= i < j < |order| ==> order[i] != order[j]
  }

  /** Add the fields in order; stop at the first one that leaves its range. */
  function AddFields<T(==)>(into: multiset<T>, from: multiset<T>, order: seq<T>,
        limit: T -> nat): Result<multiset<T>, T>
    decreases |order|
  {
    if order == [] then Ok(into)
    else
      var f := order[0];
      if into[f] + from[f] >= limit(f) then Err(f)
      else AddFields(into[f := into[f] + from[f]], from, order[1..], limit)
  }

  lemma {:induction false} AddFieldsMeaning<T>(into: multiset<T>, from: multiset<T>, order: seq<T>, limit: T -> nat)
    requires Distinct(order)
    ensures AddFields(into, from, order, limit).Ok? <==> forall f :: f in order ==> into[f] + from[f] < limit(f)
    ensures AddFields(into, from, order, limit).Ok? ==>
      forall f :: AddFields(into, from, order, limit).value[f] == if f in order then into[f] + from[f] else into[f]
    decreases |order|
  {
    if order != [] {
      var f := order[0];
      assert f !in order[1..];
      assert order == [f] + order[1..];
      if into[f] + from[f] < limit(f) {
        var next := into[f := into[f] + from[f]];
        AddFieldsMeaning(next, from, order[1..], limit);
        assert forall g :: g in order[1..] ==> next[g] == into[g];
      }
    }
  }

  method AddInPlace<T(==)>(into: multiset<T>, from: multiset<T>, order: seq<T>, limit: T -> nat)
    returns (r: Result<multiset<T>, T>)
    ensures r == AddFields(into, from, order, limit)
  {
    var sum := into;
    for i := 0 to |order|
      invariant AddFields(into, from, order, limit) == AddFields(sum, from, order[i..], limit)
    {
      var f := order[i];
      assert order[i..][1..] == order[i + 1..];
      if sum[f] + from[f] >= limit(f) {
        return Err(f);
      }
      sum := sum[f := sum[f] + from[f]];
    }
    r := Ok(sum);
  }

  /** The running total of the fields in order; stop at the field whose addition overflows. */
  function TotalFields<T(==)>(m: multiset<T>, order: seq<T>, total: nat, cap: nat): Result<nat, T> {
    if order == [] then Ok(total)
    else if total + m[order[0]] >= cap then Err(order[0])
    else TotalFields(m, order[1..], total + m[order[0]], cap)
  }

  function SumFields<T(==)>(m: multiset<T>, order: seq<T>): nat {
    if order == [] then 0 else m[order[0]] + SumFields(m, order[1..])
  }

  lemma {:induction false} TotalFieldsMeaning<T>(m: multiset<T>, order: seq<T>, total: nat, cap: nat)
    requires total < cap
    ensures TotalFields(m, order, total, cap).Ok? <==> total + SumFields(m, order) < cap
    ensures TotalFields(m, order, total, cap).Ok? ==> TotalFields(m, order, total, cap).value == total + SumFields(m, order)
  {
    if order != [] && total + m[order[0]] < cap {
      TotalFieldsMeaning(m, order[1..], total + m[order[0]], cap);
    }
  }

  /** When the order lists every field once, the fields add up to the size of the multiset. */
  lemma {:induction false} SumIsSize<T>(m: multiset<T>, order: seq<T>)
    requires Distinct(order) && forall f :: f in m ==> f in order
    ensures SumFields(m, order) == |m|
  {
    if order == [] {
      assert m == multiset{};
    } else {
      var f := order[0];
      var rest := m[f := 0];
      assert order == [f] + order[1..];
      assert f !in order[1..];
      SumIsSize(rest, order[1..]);
      SumAgrees(m, rest, order[1..]);
      var only := multiset{}[f := m[f]];
      assert m == rest + only;
    }
  }

  lemma {:induction false} SumAgrees<T>(m: multiset<T>, k: multiset<T>, order: seq<T>)
    requires forall f :: f in order ==> m[f] == k[f]
    ensures SumFields(m, order) == SumFields(k, order)
  {
    if order != [] {
      assert order[0] in order;
      SumAgrees(m, k, order[1..]);
    }
  }
}

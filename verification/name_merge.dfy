/** The name-merge step at the end of `generatePackingList`
    (lib/packingLogic.ts:141-152): a fold of the candidate items into an
    insertion-ordered map keyed by name. The first item with a name fixes the
    entry's category, essential flag and notes and receives a fresh id; every
    later item with that name only adds its quantity. */
module NameMerge {
  import opened Types

  function Names(s: seq<PackingItem>): (r: seq<string>)
    ensures |r| == |s|
    ensures forall i :: 0 <= i < |s| ==> r[i] == s[i].name
  {
    seq(|s|, i requires 0 <= i < |s| => s[i].name)
  }

  /** No two items share a name. */
  predicate DistinctNames(s: seq<PackingItem>)
  {
    forall i, j :: 0 <= i < j < |s| ==> s[i].name != s[j].name
  }

  /** Sum of the quantities of the items called `n`. */
  function SumQuantity(s: seq<PackingItem>, n: string): int
  {
    if |s| == 0 then 0
    else SumQuantity(s[..|s| - 1], n) + (if s[|s| - 1].name == n then s[|s| - 1].quantity else 0)
  }

  /** Number of items called `n`. */
  function CountName(s: seq<PackingItem>, n: string): nat
  {
    if |s| == 0 then 0
    else CountName(s[..|s| - 1], n) + (if s[|s| - 1].name == n then 1 else 0)
  }

  /** Index of the first item called `n`. */
  function FirstIndex(s: seq<PackingItem>, n: string): (i: nat)
    requires n in Names(s)
    ensures i < |s| && s[i].name == n
    ensures forall j :: 0 <= j < i ==> s[j].name != n
  {
    if s[0].name == n then 0
    else
      assert Names(s[1..]) == Names(s)[1..];
      1 + FirstIndex(s[1..], n)
  }

  /** One step of the fold: an item whose name is already present adds its
      quantity to that entry; a new name is appended with the id `newId`. */
  function Absorb(acc: seq<PackingItem>, x: PackingItem, newId: string): (r: seq<PackingItem>)
    requires DistinctNames(acc)
    ensures DistinctNames(r)
    ensures x.name in Names(acc) ==> Names(r) == Names(acc)
    ensures x.name !in Names(acc) ==> Names(r) == Names(acc) + [x.name] && r[|acc|] == x.(id := newId)
    ensures forall k :: 0 <= k < |acc| ==>
              r[k] == if acc[k].name == x.name then acc[k].(quantity := acc[k].quantity + x.quantity) else acc[k]
  {
    if x.name in Names(acc) then
      var k := FirstIndex(acc, x.name);
      var r := acc[k := acc[k].(quantity := acc[k].quantity + x.quantity)];
      assert Names(r) == Names(acc);
      r
    else
      var r := acc + [x.(id := newId)];
      assert Names(r) == Names(acc) + [x.name];
      r
  }

  /** `Array.from(uniqueItems.values())` after folding `items` in order. The
      k-th new name receives `draws(k)`, the k-th random id drawn. */
  function Merge(items: seq<PackingItem>, draws: nat -> string): (r: seq<PackingItem>)
    ensures DistinctNames(r)
    ensures forall n :: n in Names(r) <==> n in Names(items)
    ensures |r| <= |items|
  {
    if |items| == 0 then []
    else
      var s := items[..|items| - 1];
      var x := items[|items| - 1];
      var acc := Merge(s, draws);
      assert Names(items) == Names(s) + [x.name];
      Absorb(acc, x, draws(|acc|))
  }

  /** Every entry of `r` is the first item of its name in `items`, carrying the
      summed quantity of that name and the k-th fresh id. */
  ghost predicate EntriesFrom(items: seq<PackingItem>, r: seq<PackingItem>, draws: nat -> string)
  {
    forall k :: 0 <= k < |r| ==>
      r[k].name in Names(items)
      && r[k] == items[FirstIndex(items, r[k].name)].(id := draws(k), quantity := SumQuantity(items, r[k].name))
  }

  /** The entries of `r` are in the order their names first occur in `items`. */
  ghost predicate FirstOccurrenceOrder(items: seq<PackingItem>, r: seq<PackingItem>)
  {
    forall i, j :: 0 <= i < j < |r| ==>
      r[i].name in Names(items) && r[j].name in Names(items)
      && FirstIndex(items, r[i].name) < FirstIndex(items, r[j].name)
  }

  /** The merged list `r` of `items`, described without the fold: distinct names,
      the same set of names, each entry the first item of its name carrying the
      summed quantity and its fresh id, and entries in first-occurrence order. */
  ghost predicate MergedFrom(items: seq<PackingItem>, r: seq<PackingItem>, draws: nat -> string)
  {
    && DistinctNames(r)
    && (forall n :: n in Names(r) <==> n in Names(items))
    && EntriesFrom(items, r, draws)
    && FirstOccurrenceOrder(items, r)
  }

  lemma SumQuantityAbsent(s: seq<PackingItem>, n: string)
    requires n !in Names(s)
    ensures SumQuantity(s, n) == 0
  {
    if |s| > 0 {
      assert Names(s[..|s| - 1]) == Names(s)[..|s| - 1];
      SumQuantityAbsent(s[..|s| - 1], n);
    }
  }

  lemma SumQuantityAppend(s: seq<PackingItem>, x: PackingItem, n: string)
    ensures SumQuantity(s + [x], n) == SumQuantity(s, n) + (if x.name == n then x.quantity else 0)
  {
    assert (s + [x])[..|s|] == s;
  }

  /** The total quantity of a name over a concatenation is the sum of the two totals. */
  lemma {:induction false} SumQuantityConcat(a: seq<PackingItem>, b: seq<PackingItem>, n: string)
    ensures SumQuantity(a + b, n) == SumQuantity(a, n) + SumQuantity(b, n)
    decreases |b|
  {
    if |b| == 0 {
      assert a + b == a;
    } else {
      var c := b[..|b| - 1];
      assert (a + b)[..|a + b| - 1] == a + c;
      SumQuantityConcat(a, c, n);
    }
  }

  /** In a list with distinct names, the total quantity of an item's name is that
      item's own quantity. */
  lemma SumQuantityDistinct(s: seq<PackingItem>, k: nat)
    requires DistinctNames(s) && k < |s|
    ensures SumQuantity(s, s[k].name) == s[k].quantity
  {
    NameOnlyAt(s, k);
    assert s == s[..k] + [s[k]] + s[k + 1..];
    SumAround(s[..k], s[k], s[k + 1..]);
  }

  /** With distinct names, an item's name occurs neither before nor after it. */
  lemma NameOnlyAt(s: seq<PackingItem>, k: nat)
    requires DistinctNames(s) && k < |s|
    ensures s[k].name !in Names(s[..k]) && s[k].name !in Names(s[k + 1..])
  {
    var n := s[k].name;
    var front, back := s[..k], s[k + 1..];
    forall j | 0 <= j < |front| ensures Names(front)[j] != n {
      assert front[j] == s[j];
    }
    forall j | 0 <= j < |back| ensures Names(back)[j] != n {
      assert back[j] == s[k + 1 + j];
    }
  }

  lemma SumAround(front: seq<PackingItem>, x: PackingItem, back: seq<PackingItem>)
    requires x.name !in Names(front) && x.name !in Names(back)
    ensures SumQuantity(front + [x] + back, x.name) == x.quantity
  {
    SumQuantityAbsent(front, x.name);
    SumQuantityAbsent(back, x.name);
    SumQuantityAppend(front, x, x.name);
    SumQuantityConcat(front + [x], back, x.name);
  }

  lemma FirstIndexAppend(s: seq<PackingItem>, x: PackingItem, n: string)
    requires n in Names(s + [x])
    ensures n in Names(s) ==> FirstIndex(s + [x], n) == FirstIndex(s, n)
    ensures n !in Names(s) ==> FirstIndex(s + [x], n) == |s|
  {
    var a := FirstIndex(s + [x], n);
    if n in Names(s) {
      var b := FirstIndex(s, n);
      assert (s + [x])[b].name == n;
    } else {
      assert forall j :: 0 <= j < |s| ==> s[j].name == Names(s)[j];
    }
  }

  /** How the step `s` to `s + [x]` changes first indices and sums. */
  lemma AppendFacts(s: seq<PackingItem>, x: PackingItem)
    ensures Names(s + [x]) == Names(s) + [x.name]
    ensures forall n :: SumQuantity(s + [x], n) == SumQuantity(s, n) + (if x.name == n then x.quantity else 0)
    ensures forall n :: n in Names(s) ==> FirstIndex(s + [x], n) == FirstIndex(s, n)
    ensures x.name !in Names(s) ==> FirstIndex(s + [x], x.name) == |s| && SumQuantity(s + [x], x.name) == x.quantity
  {
    AppendFirstIndices(s, x);
    AppendSums(s, x);
    if x.name !in Names(s) {
      FirstIndexAppend(s, x, x.name);
      SumQuantityAbsent(s, x.name);
    }
  }

  /** Appending an item adds its quantity to its own name's sum only. */
  lemma AppendSums(s: seq<PackingItem>, x: PackingItem)
    ensures forall n :: SumQuantity(s + [x], n) == SumQuantity(s, n) + (if x.name == n then x.quantity else 0)
  {
    forall n ensures SumQuantity(s + [x], n) == SumQuantity(s, n) + (if x.name == n then x.quantity else 0) {
      SumQuantityAppend(s, x, n);
    }
  }

  /** Appending an item moves no name's first occurrence. */
  lemma AppendFirstIndices(s: seq<PackingItem>, x: PackingItem)
    ensures Names(s + [x]) == Names(s) + [x.name]
    ensures forall n :: n in Names(s) ==> FirstIndex(s + [x], n) == FirstIndex(s, n)
  {
    assert Names(s + [x]) == Names(s) + [x.name];
    forall n | n in Names(s) ensures FirstIndex(s + [x], n) == FirstIndex(s, n) {
      FirstIndexAppend(s, x, n);
    }
  }

  lemma MergeStepEntry(s: seq<PackingItem>, x: PackingItem, acc: seq<PackingItem>, draws: nat -> string, k: nat)
    requires DistinctNames(acc) && EntriesFrom(s, acc, draws)
    requires forall n :: n in Names(acc) <==> n in Names(s)
    requires k < |Absorb(acc, x, draws(|acc|))|
    ensures var r := Absorb(acc, x, draws(|acc|));
            r[k].name in Names(s + [x])
            && r[k] == (s + [x])[FirstIndex(s + [x], r[k].name)].(id := draws(k), quantity := SumQuantity(s + [x], r[k].name))
  {
    var items := s + [x];
    var r := Absorb(acc, x, draws(|acc|));
    assert Names(items) == Names(s) + [x.name];
    if k < |acc| {
      var n := acc[k].name;
      assert n in Names(s);
      var i := FirstIndex(s, n);
      assert acc[k] == s[i].(id := draws(k), quantity := SumQuantity(s, n));
      FirstIndexAppend(s, x, n);
      SumQuantityAppend(s, x, n);
      assert items[i] == s[i];
    } else {
      assert x.name !in Names(s);
      FirstIndexAppend(s, x, x.name);
      SumQuantityAppend(s, x, x.name);
      SumQuantityAbsent(s, x.name);
      assert items[|s|] == x;
    }
  }

  lemma MergeStepEntries(s: seq<PackingItem>, x: PackingItem, acc: seq<PackingItem>, draws: nat -> string)
    requires MergedFrom(s, acc, draws)
    ensures EntriesFrom(s + [x], Absorb(acc, x, draws(|acc|)), draws)
  {
    var r := Absorb(acc, x, draws(|acc|));
    forall k | 0 <= k < |r|
      ensures r[k].name in Names(s + [x])
      ensures r[k] == (s + [x])[FirstIndex(s + [x], r[k].name)].(id := draws(k), quantity := SumQuantity(s + [x], r[k].name))
    {
      MergeStepEntry(s, x, acc, draws, k);
    }
  }

  lemma MergeStepOrder(s: seq<PackingItem>, x: PackingItem, acc: seq<PackingItem>, draws: nat -> string)
    requires MergedFrom(s, acc, draws)
    ensures FirstOccurrenceOrder(s + [x], Absorb(acc, x, draws(|acc|)))
  {
    var items := s + [x];
    var r := Absorb(acc, x, draws(|acc|));
    AppendFacts(s, x);
    forall i, j | 0 <= i < j < |r|
      ensures r[i].name in Names(items) && r[j].name in Names(items)
      ensures FirstIndex(items, r[i].name) < FirstIndex(items, r[j].name)
    {
      assert r[i].name == acc[i].name && acc[i].name in Names(s);
      if j < |acc| {
        assert r[j].name == acc[j].name;
      }
    }
  }

  /** One step of the fold keeps the description `MergedFrom` true. */
  lemma MergeStep(s: seq<PackingItem>, x: PackingItem, acc: seq<PackingItem>, draws: nat -> string)
    requires MergedFrom(s, acc, draws)
    ensures MergedFrom(s + [x], Absorb(acc, x, draws(|acc|)), draws)
  {
    AppendFacts(s, x);
    MergeStepEntries(s, x, acc, draws);
    MergeStepOrder(s, x, acc, draws);
  }

  /** The fold computes the merged list described by `MergedFrom`. */
  lemma {:induction false} MergeCorrect(items: seq<PackingItem>, draws: nat -> string)
    ensures MergedFrom(items, Merge(items, draws), draws)
  {
    if |items| > 0 {
      var s := items[..|items| - 1];
      var x := items[|items| - 1];
      assert items == s + [x];
      MergeCorrect(s, draws);
      MergeStep(s, x, Merge(s, draws), draws);
    }
  }

  /** Two entries that differ at most in quantity. */
  predicate SameButQuantity(a: PackingItem, b: PackingItem)
  {
    a.(quantity := b.quantity) == b
  }

  /** Folding more items never moves, renames or re-ids an existing entry; it
      only appends entries and adds to quantities. */
  lemma {:induction false} MergeExtends(items: seq<PackingItem>, m: nat, draws: nat -> string)
    requires m <= |items|
    ensures |Merge(items[..m], draws)| <= |Merge(items, draws)|
    ensures forall k :: 0 <= k < |Merge(items[..m], draws)| ==>
              SameButQuantity(Merge(items[..m], draws)[k], Merge(items, draws)[k])
    decreases |items| - m
  {
    if m == |items| {
      assert items[..m] == items;
    } else {
      var s := items[..|items| - 1];
      assert s[..m] == items[..m];
      MergeExtends(s, m, draws);
    }
  }

  /** The shape of the merge does not depend on quantities: two candidate lists
      that differ only in quantities merge to lists that differ only in quantities. */
  lemma {:induction false} MergeIgnoresQuantities(a: seq<PackingItem>, b: seq<PackingItem>, draws: nat -> string)
    requires |a| == |b|
    requires forall i :: 0 <= i < |a| ==> SameButQuantity(a[i], b[i])
    ensures |Merge(a, draws)| == |Merge(b, draws)|
    ensures forall k :: 0 <= k < |Merge(a, draws)| ==> SameButQuantity(Merge(a, draws)[k], Merge(b, draws)[k])
    decreases |a|
  {
    if |a| > 0 {
      var sa, sb := a[..|a| - 1], b[..|b| - 1];
      MergeIgnoresQuantities(sa, sb, draws);
      var ra, rb := Merge(sa, draws), Merge(sb, draws);
      AbsorbIgnoresQuantities(ra, rb, a[|a| - 1], b[|b| - 1], draws(|ra|));
    }
  }

  lemma AbsorbIgnoresQuantities(ra: seq<PackingItem>, rb: seq<PackingItem>, x: PackingItem, y: PackingItem, newId: string)
    requires DistinctNames(ra) && DistinctNames(rb) && |ra| == |rb|
    requires forall k :: 0 <= k < |ra| ==> SameButQuantity(ra[k], rb[k])
    requires SameButQuantity(x, y)
    ensures |Absorb(ra, x, newId)| == |Absorb(rb, y, newId)|
    ensures forall k :: 0 <= k < |Absorb(ra, x, newId)| ==>
              SameButQuantity(Absorb(ra, x, newId)[k], Absorb(rb, y, newId)[k])
  {
    assert Names(ra) == Names(rb) by {
      forall k | 0 <= k < |ra| ensures ra[k].name == rb[k].name {
        assert SameButQuantity(ra[k], rb[k]);
      }
    }
    assert x.name == y.name;
  }

  /** A list whose names are already distinct merges to itself, with fresh ids. */
  lemma {:induction false} MergeDistinct(p: seq<PackingItem>, draws: nat -> string)
    requires DistinctNames(p)
    ensures |Merge(p, draws)| == |p|
    ensures forall k :: 0 <= k < |p| ==> Merge(p, draws)[k] == p[k].(id := draws(k))
  {
    if |p| > 0 {
      var s := p[..|p| - 1];
      var x := p[|p| - 1];
      MergeDistinct(s, draws);
      assert x.name !in Names(Merge(s, draws));
    }
  }

  /** When the candidate list starts with `p`, whose names are distinct, the merged
      list starts with `p`'s entries in order; only their quantities (and ids) change,
      each becoming the total quantity of that name over the whole list. */
  lemma MergeKeepsDistinctPrefix(p: seq<PackingItem>, q: seq<PackingItem>, draws: nat -> string)
    requires DistinctNames(p)
    ensures |Merge(p + q, draws)| >= |p|
    ensures forall k :: 0 <= k < |p| ==>
              Merge(p + q, draws)[k] == p[k].(id := draws(k), quantity := SumQuantity(p + q, p[k].name))
  {
    var items := p + q;
    assert items[..|p|] == p;
    MergeExtends(items, |p|, draws);
    MergeDistinct(p, draws);
    MergeCorrect(items, draws);
    var r := Merge(items, draws);
    forall k | 0 <= k < |p|
      ensures r[k] == p[k].(id := draws(k), quantity := SumQuantity(items, p[k].name))
    {
      assert SameButQuantity(p[k].(id := draws(k)), r[k]);
      assert r[k].name in Names(items);
    }
  }

  /** After merging, the entries of a distinct prefix keep their own quantity
      plus whatever the rest of the list adds under the same name. */
  lemma MergePrefixSums(p: seq<PackingItem>, q: seq<PackingItem>, draws: nat -> string)
    requires DistinctNames(p)
    ensures |Merge(p + q, draws)| >= |p|
    ensures forall k :: 0 <= k < |p| ==>
              Merge(p + q, draws)[k] == p[k].(id := draws(k), quantity := p[k].quantity + SumQuantity(q, p[k].name))
  {
    MergeKeepsDistinctPrefix(p, q, draws);
    forall k | 0 <= k < |p|
      ensures SumQuantity(p + q, p[k].name) == p[k].quantity + SumQuantity(q, p[k].name)
    {
      SumQuantityConcat(p, q, p[k].name);
      SumQuantityDistinct(p, k);
    }
  }

  /** After a distinct prefix `p`, every merged entry has a name outside `p`, so its
      quantity is the total over `q` alone. */
  lemma MergeLaterEntry(p: seq<PackingItem>, q: seq<PackingItem>, draws: nat -> string, k: nat)
    requires DistinctNames(p)
    requires |p| <= k < |Merge(p + q, draws)|
    ensures Merge(p + q, draws)[k].name !in Names(p)
    ensures Merge(p + q, draws)[k].quantity == SumQuantity(q, Merge(p + q, draws)[k].name)
  {
    var r := Merge(p + q, draws);
    var n := r[k].name;
    MergeKeepsDistinctPrefix(p, q, draws);
    MergeCorrect(p + q, draws);
    forall j | 0 <= j < |p| ensures p[j].name != n {
      assert r[j].name == p[j].name;
    }
    SumQuantityAbsent(p, n);
    SumQuantityConcat(p, q, n);
  }

  /** Replacing a distinct prefix by one that differs only in quantities changes
      only the quantities of the prefix's entries: later entries are identical. */
  lemma MergeSwapPrefix(p1: seq<PackingItem>, p2: seq<PackingItem>, q: seq<PackingItem>, draws: nat -> string)
    requires DistinctNames(p1) && |p1| == |p2|
    requires forall i :: 0 <= i < |p1| ==> SameButQuantity(p1[i], p2[i])
    ensures |Merge(p1 + q, draws)| == |Merge(p2 + q, draws)|
    ensures forall k :: 0 <= k < |Merge(p1 + q, draws)| ==>
              SameButQuantity(Merge(p1 + q, draws)[k], Merge(p2 + q, draws)[k])
    ensures forall k :: |p1| <= k < |Merge(p1 + q, draws)| ==>
              Merge(p1 + q, draws)[k] == Merge(p2 + q, draws)[k]
  {
    var c1, c2 := p1 + q, p2 + q;
    forall i | 0 <= i < |c1| ensures SameButQuantity(c1[i], c2[i]) {
      if i >= |p1| {
        assert c1[i] == q[i - |p1|] == c2[i];
      }
    }
    MergeIgnoresQuantities(c1, c2, draws);
    assert DistinctNames(p2) by {
      forall i, j | 0 <= i < j < |p2| ensures p2[i].name != p2[j].name {
        assert SameButQuantity(p1[i], p2[i]) && SameButQuantity(p1[j], p2[j]);
      }
    }
    var r1, r2 := Merge(c1, draws), Merge(c2, draws);
    forall k | |p1| <= k < |r1| ensures r1[k] == r2[k] {
      MergeLaterEntry(p1, q, draws, k);
      MergeLaterEntry(p2, q, draws, k);
      assert SameButQuantity(r1[k], r2[k]);
    }
  }

  /** Index-recursive checks over a concrete list, which the verifier can
      evaluate on a catalog literal: no item from index `i` on is called `n`. */
  predicate NameFreeFrom(s: seq<PackingItem>, n: string, i: nat)
    decreases |s| - i
  {
    i >= |s| || (s[i].name != n && NameFreeFrom(s, n, i + 1))
  }

  /** The items from index `i` on have distinct names. */
  predicate DistinctFrom(s: seq<PackingItem>, i: nat)
    decreases |s| - i
  {
    i >= |s| || (NameFreeFrom(s, s[i].name, i + 1) && DistinctFrom(s, i + 1))
  }

  /** No item of `a` from index `i` on shares a name with an item of `b`. */
  predicate DisjointFrom(a: seq<PackingItem>, b: seq<PackingItem>, i: nat)
    decreases |a| - i
  {
    i >= |a| || (NameFreeFrom(b, a[i].name, 0) && DisjointFrom(a, b, i + 1))
  }

  lemma {:induction false} NameFreeFromMeans(s: seq<PackingItem>, n: string, i: nat)
    requires NameFreeFrom(s, n, i)
    ensures forall j :: i <= j < |s| ==> s[j].name != n
    decreases |s| - i
  {
    if i < |s| {
      NameFreeFromMeans(s, n, i + 1);
    }
  }

  lemma {:induction false} DistinctFromMeans(s: seq<PackingItem>, i: nat)
    requires DistinctFrom(s, i)
    ensures forall j, k :: i <= j < k < |s| ==> s[j].name != s[k].name
    decreases |s| - i
  {
    if i < |s| {
      NameFreeFromMeans(s, s[i].name, i + 1);
      DistinctFromMeans(s, i + 1);
    }
  }

  lemma {:induction false} DisjointFromMeans(a: seq<PackingItem>, b: seq<PackingItem>, i: nat)
    requires DisjointFrom(a, b, i)
    ensures forall j, k :: i <= j < |a| && 0 <= k < |b| ==> a[j].name != b[k].name
    decreases |a| - i
  {
    if i < |a| {
      NameFreeFromMeans(b, a[i].name, 0);
      DisjointFromMeans(a, b, i + 1);
    }
  }

  /** No name of `a` is a name of `b`. */
  predicate NamesDisjoint(a: seq<PackingItem>, b: seq<PackingItem>)
  {
    forall j, k :: 0 <= j < |a| && 0 <= k < |b| ==> a[j].name != b[k].name
  }

  /** Two lists with distinct names and no name in common concatenate to a list
      with distinct names. */
  lemma DistinctConcat(a: seq<PackingItem>, b: seq<PackingItem>)
    requires DistinctNames(a) && DistinctNames(b)
    requires NamesDisjoint(a, b)
    ensures DistinctNames(a + b)
  {
    forall i, j | 0 <= i < j < |a + b| ensures (a + b)[i].name != (a + b)[j].name {
      if j < |a| {
      } else if i >= |a| {
        assert (a + b)[i] == b[i - |a|] && (a + b)[j] == b[j - |a|];
      } else {
        assert (a + b)[i] == a[i] && (a + b)[j] == b[j - |a|];
      }
    }
  }

  lemma DisjointAppend(a: seq<PackingItem>, b: seq<PackingItem>, c: seq<PackingItem>)
    requires NamesDisjoint(a, c) && NamesDisjoint(b, c)
    ensures NamesDisjoint(a + b, c)
  {
    forall j, k | 0 <= j < |a + b| && 0 <= k < |c| ensures (a + b)[j].name != c[k].name {
      if j >= |a| {
        assert (a + b)[j] == b[j - |a|];
      }
    }
  }
}

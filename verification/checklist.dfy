/** The checklist of components/PackingList.tsx as pure functions lifted out of
    the component: the set of checked item ids and how a click changes it, the
    set read back from saved progress, the essential-only filter, the grouping
    by category, the summary counts and the plain-text export. */
module Checklist {
  import opened Types
  import opened Text

  // ---------------------------------------------------------------------------
  // Checked set

  /** `toggleItem`'s new set: the id leaves the set if it was in it, and joins
      it otherwise. */
  function Toggle(checked: set<string>, id: string): (r: set<string>)
    ensures id in r <==> id !in checked
    ensures forall x :: x != id ==> (x in r <==> x in checked)
  {
    if id in checked then checked - {id} else checked + {id}
  }

  /** Two clicks on the same item give back the set one started with. */
  lemma ToggleTwice(checked: set<string>, id: string)
    ensures Toggle(Toggle(checked, id), id) == checked
  {
  }

  /** The body of the progress request: the item and its new state. */
  datatype ProgressUpdate = ProgressUpdate(itemId: string, checked: bool)

  /** How the progress request went: it came back (with any status), or the
      request itself threw. */
  datatype SaveOutcome = Responded | Threw

  datatype ToggleResult = ToggleResult(checked: set<string>, sent: ProgressUpdate)

  /** A click on an item: the set is toggled at once, the new state is sent, and
      only a request that throws puts the set back; an error status does not. */
  function ToggleItem(checked: set<string>, id: string, outcome: SaveOutcome): (r: ToggleResult)
    ensures r.sent.itemId == id
    ensures r.sent.checked <==> id !in checked
    ensures outcome == Threw ==> r.checked == checked
    ensures outcome == Responded ==> r.checked - {id} == checked - {id}
    ensures outcome == Responded ==> (id in r.checked <==> r.sent.checked)
  {
    var next := Toggle(checked, id);
    ToggleResult(if outcome == Threw then checked else next, ProgressUpdate(id, id in next))
  }

  /** One saved progress record. */
  datatype ProgressRecord = ProgressRecord(itemId: string, checked: bool)

  /** The ids of the records marked checked; an id with both a checked and an
      unchecked record is in the set. */
  function CheckedFromProgress(records: seq<ProgressRecord>): (r: set<string>)
    ensures forall id :: id in r <==> exists k :: 0 <= k < |records| && records[k].checked && records[k].itemId == id
  {
    if |records| == 0 then {}
    else
      var init := records[..|records| - 1];
      var last := records[|records| - 1];
      var prev := CheckedFromProgress(init);
      assert forall k :: 0 <= k < |init| ==> init[k] == records[k];
      if last.checked then prev + {last.itemId} else prev
  }

  /** What the progress request came back with. */
  datatype LoadOutcome = Loaded(progress: seq<ProgressRecord>) | NotOk | LoadThrew

  /** The effect of loading progress on the checked set: nothing without a trip
      id, nothing on an error status or a thrown request, and the set of checked
      records otherwise. */
  function LoadProgress(current: set<string>, tripId: string, outcome: LoadOutcome): (r: set<string>)
    ensures tripId == "" || !outcome.Loaded? ==> r == current
    ensures tripId != "" && outcome.Loaded? ==>
              forall id :: id in r <==> exists p :: p in outcome.progress && p.checked && p.itemId == id
  {
    if tripId != "" && outcome.Loaded? then CheckedFromProgress(outcome.progress) else current
  }

  // ---------------------------------------------------------------------------
  // Filter and grouping

  /** The essential items, in list order. */
  function Essentials(items: seq<PackingItem>): (r: seq<PackingItem>)
    ensures |r| <= |items|
    ensures forall x :: x in r <==> x in items && x.essential
  {
    if |items| == 0 then []
    else
      var last := items[|items| - 1];
      Essentials(items[..|items| - 1]) + (if last.essential then [last] else [])
  }

  /** Filtering distributes over concatenation: kept items keep their order. */
  lemma {:induction false} EssentialsConcat(a: seq<PackingItem>, b: seq<PackingItem>)
    ensures Essentials(a + b) == Essentials(a) + Essentials(b)
    decreases |b|
  {
    if |b| == 0 {
      assert a + b == a;
    } else {
      assert (a + b)[..|a + b| - 1] == a + b[..|b| - 1];
      EssentialsConcat(a, b[..|b| - 1]);
    }
  }

  /** The items shown: the essential ones in essential-only mode, all otherwise. */
  function Shown(items: seq<PackingItem>, onlyEssential: bool): (r: seq<PackingItem>)
    ensures !onlyEssential ==> r == items
    ensures onlyEssential ==> forall x :: x in r <==> x in items && x.essential
  {
    if onlyEssential then Essentials(items) else items
  }

  /** The items of one category, in list order. */
  function OfCategory(items: seq<PackingItem>, c: Category): (r: seq<PackingItem>)
    ensures forall x :: x in r <==> x in items && x.category == c
  {
    if |items| == 0 then []
    else
      var last := items[|items| - 1];
      OfCategory(items[..|items| - 1], c) + (if last.category == c then [last] else [])
  }

  /** One entry of the grouped view. */
  datatype Group = Group(category: Category, items: seq<PackingItem>)

  function GroupCategories(groups: seq<Group>): (r: seq<Category>)
    ensures |r| == |groups|
    ensures forall k :: 0 <= k < |groups| ==> r[k] == groups[k].category
  {
    seq(|groups|, k requires 0 <= k < |groups| => groups[k].category)
  }

  predicate Distinct(s: seq<Category>)
  {
    forall j, k :: 0 <= j < k < |s| ==> s[j] != s[k]
  }

  /** One step of the `reduce`: the item joins the group of its category, or
      opens a new group at the end when there is none yet. */
  function AddToGroups(groups: seq<Group>, item: PackingItem): (r: seq<Group>)
    requires Distinct(GroupCategories(groups))
    ensures item.category in GroupCategories(groups) ==> GroupCategories(r) == GroupCategories(groups)
    ensures item.category !in GroupCategories(groups) ==> GroupCategories(r) == GroupCategories(groups) + [item.category]
    ensures forall k :: 0 <= k < |r| ==>
              r[k].items == (if k < |groups| then groups[k].items else [])
                            + (if r[k].category == item.category then [item] else [])
  {
    if |groups| == 0 then [Group(item.category, [item])]
    else if groups[0].category == item.category then
      [groups[0].(items := groups[0].items + [item])] + groups[1..]
    else
      assert GroupCategories(groups[1..]) == GroupCategories(groups)[1..];
      [groups[0]] + AddToGroups(groups[1..], item)
  }

  /** The categories of a list, item by item. */
  function ItemCategories(items: seq<PackingItem>): (r: seq<Category>)
    ensures |r| == |items|
    ensures forall i :: 0 <= i < |items| ==> r[i] == items[i].category
  {
    seq(|items|, i requires 0 <= i < |items| => items[i].category)
  }

  /** Reference order: each value at its first appearance, later repeats dropped. */
  function FirstAppearances(s: seq<Category>): (r: seq<Category>)
    ensures forall c :: c in r <==> c in s
    ensures Distinct(r)
  {
    if |s| == 0 then []
    else
      var prev := FirstAppearances(s[..|s| - 1]);
      assert forall c :: c in s <==> c in s[..|s| - 1] || c == s[|s| - 1];
      if s[|s| - 1] in prev then prev else prev + [s[|s| - 1]]
  }

  /** `groupedItems`: the fold of `AddToGroups` over the shown items. */
  function GroupByCategory(items: seq<PackingItem>): (r: seq<Group>)
    ensures Distinct(GroupCategories(r))
  {
    if |items| == 0 then []
    else
      var prev := GroupByCategory(items[..|items| - 1]);
      AddToGroups(prev, items[|items| - 1])
  }

  /** The groups come in the order their categories first appear in the list,
      and each holds exactly the items of its category, in list order; so every
      item is in exactly one group. */
  lemma {:induction false} GroupByCategoryCorrect(items: seq<PackingItem>)
    ensures GroupCategories(GroupByCategory(items)) == FirstAppearances(ItemCategories(items))
    ensures forall k :: 0 <= k < |GroupByCategory(items)| ==>
              GroupByCategory(items)[k].items == OfCategory(items, GroupByCategory(items)[k].category)
    decreases |items|
  {
    if |items| > 0 {
      var init := items[..|items| - 1];
      var x := items[|items| - 1];
      var prev := GroupByCategory(init);
      GroupByCategoryCorrect(init);
      assert ItemCategories(items)[..|items| - 1] == ItemCategories(init);
      var r := GroupByCategory(items);
      assert r == AddToGroups(prev, x);
      forall k | 0 <= k < |r|
        ensures r[k].items == OfCategory(items, r[k].category)
      {
        if k < |prev| {
          assert r[k].category == prev[k].category;
        } else {
          assert r[k].category == x.category;
          assert x.category !in GroupCategories(prev);
          NoneOfCategory(init, x.category);
        }
      }
    }
  }

  lemma NoneOfCategory(items: seq<PackingItem>, c: Category)
    requires c !in FirstAppearances(ItemCategories(items))
    ensures OfCategory(items, c) == []
  {
    forall i | 0 <= i < |items|
      ensures items[i].category != c
    {
      assert ItemCategories(items)[i] in ItemCategories(items);
    }
  }

  // ---------------------------------------------------------------------------
  // Summary counts

  /** The numbers shown under the list: all items, essential items, the size of
      the checked set and the difference of the first and the third. */
  datatype Summary = Summary(total: int, essential: int, packed: int, remaining: int)

  function Summarize(items: seq<PackingItem>, checked: set<string>): (r: Summary)
    ensures r.total == |items| && r.packed == |checked|
    ensures r.essential == |Essentials(items)|
    ensures r.packed + r.remaining == r.total
  {
    Summary(|items|, |Essentials(items)|, |checked|, |items| - |checked|)
  }

  function Ids(items: seq<PackingItem>): set<string>
  {
    set i | 0 <= i < |items| :: items[i].id
  }

  predicate DistinctIds(items: seq<PackingItem>)
  {
    forall j, k :: 0 <= j < k < |items| ==> items[j].id != items[k].id
  }

  /** The items whose id is not in the checked set, counted. */
  function Unchecked(items: seq<PackingItem>, checked: set<string>): nat
  {
    if |items| == 0 then 0
    else Unchecked(items[..|items| - 1], checked) + (if items[|items| - 1].id in checked then 0 else 1)
  }

  /** When every checked id belongs to an item and the ids are distinct, the
      "remaining" figure is the number of unchecked items. */
  lemma RemainingIsUnchecked(items: seq<PackingItem>, checked: set<string>)
    requires DistinctIds(items) && checked <= Ids(items)
    ensures Summarize(items, checked).remaining == Unchecked(items, checked)
  {
    UncheckedCount(items, checked);
  }

  lemma {:induction false} UncheckedCount(items: seq<PackingItem>, checked: set<string>)
    requires DistinctIds(items) && checked <= Ids(items)
    ensures |checked| + Unchecked(items, checked) == |items|
    decreases |items|
  {
    if |items| > 0 {
      var init := items[..|items| - 1];
      var x := items[|items| - 1];
      IdsSnoc(items);
      var rest := checked - {x.id};
      UncheckedCount(init, rest);
      UncheckedIgnores(init, checked, x.id);
    }
  }

  /** The ids of a list are those of all but its last item plus the last one's,
      which with distinct ids is new. */
  lemma IdsSnoc(items: seq<PackingItem>)
    requires |items| > 0
    ensures Ids(items) == Ids(items[..|items| - 1]) + {items[|items| - 1].id}
    ensures DistinctIds(items) ==> items[|items| - 1].id !in Ids(items[..|items| - 1])
    ensures DistinctIds(items) ==> DistinctIds(items[..|items| - 1])
  {
    var init := items[..|items| - 1];
    forall id | id in Ids(items) ensures id in Ids(init) + {items[|items| - 1].id} {
      var i :| 0 <= i < |items| && items[i].id == id;
      if i < |init| { assert init[i] == items[i]; }
    }
    forall id | id in Ids(init) ensures id in Ids(items) {
      var i :| 0 <= i < |init| && init[i].id == id;
      assert items[i].id == id;
    }
    assert items[|items| - 1].id in Ids(items);
  }

  /** An id that no item has does not change the count. */
  lemma {:induction false} UncheckedIgnores(items: seq<PackingItem>, checked: set<string>, id: string)
    requires id !in Ids(items)
    ensures Unchecked(items, checked - {id}) == Unchecked(items, checked)
    decreases |items|
  {
    if |items| > 0 {
      IdsSnoc(items);
      UncheckedIgnores(items[..|items| - 1], checked, id);
    }
  }

  // ---------------------------------------------------------------------------
  // Export

  const EssentialMark := " *ESSENTIAL*"

  /** One line of the export: the name, the quantity in parentheses with an `x`,
      and the essential mark for essential items. */
  function ExportLine(item: PackingItem): string
  {
    item.name + " (" + IntToString(item.quantity) + "x)" + (if item.essential then EssentialMark else "")
  }

  /** The export text: the lines of all items joined by newlines. */
  function ExportText(items: seq<PackingItem>): string
  {
    Join(ExportLines(items), '\n')
  }

  function ExportLines(items: seq<PackingItem>): (r: seq<string>)
    ensures |r| == |items|
    ensures forall i :: 0 <= i < |items| ==> r[i] == ExportLine(items[i])
  {
    seq(|items|, i requires 0 <= i < |items| => ExportLine(items[i]))
  }

  /** A line starts with the item's name, then the quantity rendered in
      decimal between " (" and "x)", then the essential mark or nothing; it
      ends with the mark exactly when the item is essential. */
  lemma ExportLineShape(item: PackingItem)
    ensures |ExportLine(item)| > |item.name| && ExportLine(item)[..|item.name|] == item.name
    ensures var n, q := |item.name|, IntToString(item.quantity);
            |ExportLine(item)| >= n + |q| + 4
            && ExportLine(item)[n..n + 2] == " ("
            && ExportLine(item)[n + 2..n + 2 + |q|] == q
            && ExportLine(item)[n + 2 + |q|..n + 4 + |q|] == "x)"
            && ExportLine(item)[n + 4 + |q|..] == (if item.essential then EssentialMark else "")
    ensures item.essential <==>
              |ExportLine(item)| >= |EssentialMark|
              && ExportLine(item)[|ExportLine(item)| - |EssentialMark|..] == EssentialMark
  {
    var mark := if item.essential then EssentialMark else "";
    LineParts(item.name, IntToString(item.quantity), mark, ExportLine(item));
    MarkAtEnd(item.name + " (" + IntToString(item.quantity) + "x)", item.essential, ExportLine(item));
  }

  /** The pieces of `name (qx)mark`, located by index. */
  lemma LineParts(name: string, q: string, mark: string, line: string)
    requires line == name + " (" + q + "x)" + mark
    ensures |line| == |name| + |q| + 4 + |mark|
    ensures line[..|name|] == name && line[|name|..|name| + 2] == " ("
    ensures line[|name| + 2..|name| + 2 + |q|] == q
    ensures line[|name| + 2 + |q|..|name| + 4 + |q|] == "x)"
    ensures line[|name| + 4 + |q|..] == mark
  {
    var n := |name|;
    assert line[..n] == name;
    assert line[n..n + 2] == " (";
    assert line[n + 2..n + 2 + |q|] == q;
    assert line[n + 2 + |q|..n + 4 + |q|] == "x)";
  }

  /** A line whose body ends in ')' ends with the mark exactly when the mark
      was appended. */
  lemma MarkAtEnd(core: string, essential: bool, line: string)
    requires |core| > 0 && core[|core| - 1] == ')'
    requires line == core + (if essential then EssentialMark else "")
    ensures essential <==> |line| >= |EssentialMark| && line[|line| - |EssentialMark|..] == EssentialMark
  {
    if !essential {
      assert line == core;
      assert EssentialMark[|EssentialMark| - 1] == '*';
    } else {
      assert line[|line| - |EssentialMark|..] == EssentialMark;
    }
  }

  /** Reading the export back line by line gives one line per item, in list
      order, as long as no name contains a newline. */
  lemma ExportSplits(items: seq<PackingItem>)
    requires |items| >= 1
    requires forall i :: 0 <= i < |items| ==> '\n' !in items[i].name
    ensures Split(ExportText(items), '\n') == ExportLines(items)
  {
    var lines := ExportLines(items);
    forall i | 0 <= i < |items|
      ensures '\n' !in lines[i]
    {
      NoNewline(items[i]);
    }
    SplitJoin(lines, '\n');
  }

  lemma NoNewline(item: PackingItem)
    requires '\n' !in item.name
    ensures '\n' !in ExportLine(item)
  {
    var q := IntToString(item.quantity);
    assert '\n' !in q by {
      if item.quantity < 0 {
        assert q == [q[0]] + q[1..];
      }
    }
  }
}

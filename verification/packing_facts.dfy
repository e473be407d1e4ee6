/** Properties of `generatePackingList` (lib/packingLogic.ts:104-153): what the
    merged list looks like, which inputs it reads, and how activity tags and the
    trip length reach the quantities. */
module PackingFacts {
  import opened Types
  import opened Text
  import opened NameMerge
  import opened PackingLogic
  import BaseCatalog

  lemma ScaledBaseDistinct(duration: int)
    ensures DistinctNames(ScaledBase(duration))
  {
    BaseCatalog.BaseNamesDistinct();
  }

  /** The generated list is the merge of the candidates described without the
      fold: distinct names, the candidates' names, each entry the first candidate
      of its name (so its category, essential flag and notes) with the summed
      quantity, entries in first-occurrence order. */
  lemma GenerateMergesCandidates(t: TripDetails, draws: nat -> string)
    ensures MergedFrom(Candidates(t), GeneratePackingList(t, draws), draws)
  {
    MergeCorrect(Candidates(t), draws);
  }

  /** The base catalog has 45 entries. */
  lemma BaseSize()
    ensures |BaseItems| == 45
  {
  }

  /** The first 45 entries are the base catalog in declaration order. Each keeps
      its name, category and essential flag; its quantity is the duration-scaled
      base quantity plus the catalog quantities of the same name among the extras. */
  lemma GenerateStartsWithBase(t: TripDetails, draws: nat -> string)
    ensures |GeneratePackingList(t, draws)| >= |BaseItems|
    ensures forall k :: 0 <= k < |BaseItems| ==>
              GeneratePackingList(t, draws)[k]
              == BaseItems[k].(id := draws(k),
                               quantity := CalculateQuantity(BaseItems[k], t.duration)
                                           + SumQuantity(Extras(t), BaseItems[k].name))
  {
    ScaledBaseDistinct(t.duration);
    ScaledPrefix(BaseItems, ScaledBase(t.duration), Extras(t), draws, t.duration, GeneratePackingList(t, draws));
  }

  /** A rescaled prefix with distinct names survives the merge entry by entry. */
  lemma ScaledPrefix(base: seq<PackingItem>, p: seq<PackingItem>, q: seq<PackingItem>, draws: nat -> string, d: int,
                     r: seq<PackingItem>)
    requires DistinctNames(p) && |p| == |base|
    requires forall k :: 0 <= k < |p| ==> p[k] == base[k].(quantity := CalculateQuantity(base[k], d))
    requires r == Merge(p + q, draws)
    ensures |r| >= |base|
    ensures forall k :: 0 <= k < |base| ==>
              r[k] == base[k].(id := draws(k), quantity := CalculateQuantity(base[k], d) + SumQuantity(q, base[k].name))
  {
    MergePrefixSums(p, q, draws);
  }

  /** The trip length reaches only the base entries: changing it leaves the list's
      length and every entry's name, category, flag and id alone, and every entry
      after the base catalog unchanged, quantity included. */
  lemma DurationOnlyScalesBase(t: TripDetails, d: int, draws: nat -> string)
    ensures |GeneratePackingList(t, draws)| == |GeneratePackingList(t.(duration := d), draws)|
    ensures forall k :: 0 <= k < |GeneratePackingList(t, draws)| ==>
              SameButQuantity(GeneratePackingList(t, draws)[k], GeneratePackingList(t.(duration := d), draws)[k])
    ensures forall k :: |BaseItems| <= k < |GeneratePackingList(t, draws)| ==>
              GeneratePackingList(t, draws)[k] == GeneratePackingList(t.(duration := d), draws)[k]
  {
    var p1, p2 := ScaledBase(t.duration), ScaledBase(d);
    ScaledBaseDistinct(t.duration);
    assert Extras(t.(duration := d)) == Extras(t);
    MergeSwapPrefix(p1, p2, Extras(t), draws);
  }

  /** An entry after the base catalog carries a name outside the catalog, so its
      quantity is the total over the extras alone. */
  lemma LaterEntryQuantity(t: TripDetails, draws: nat -> string, k: nat)
    requires |BaseItems| <= k < |GeneratePackingList(t, draws)|
    ensures GeneratePackingList(t, draws)[k].name !in Names(BaseItems)
    ensures GeneratePackingList(t, draws)[k].quantity
            == SumQuantity(Extras(t), GeneratePackingList(t, draws)[k].name)
  {
    var base := ScaledBase(t.duration);
    ScaledBaseDistinct(t.duration);
    MergeLaterEntry(base, Extras(t), draws, k);
    assert Names(base) == Names(BaseItems);
  }

  /** The season is accepted and never read. */
  lemma GenerateIgnoresSeason(t: TripDetails, season: string, draws: nat -> string)
    ensures GeneratePackingList(t.(season := season), draws) == GeneratePackingList(t, draws)
  {
  }

  /** The activity phase of a concatenation is the concatenation of the phases. */
  lemma {:induction false} ActivityPhaseConcat(a: seq<string>, b: seq<string>)
    ensures ActivityPhase(a + b) == ActivityPhase(a) + ActivityPhase(b)
    decreases |b|
  {
    if |b| == 0 {
      assert a + b == a;
    } else {
      var c, x := b[..|b| - 1], b[|b| - 1];
      assert (a + b)[..|a + b| - 1] == a + c;
      assert (a + b)[|a + b| - 1] == x;
      var row := ActivityItems(Lower(x));
      assert ActivityPhase(a + b) == ActivityPhase(a + c) + row;
      assert ActivityPhase(b) == ActivityPhase(c) + row;
      ActivityPhaseConcat(a, c);
    }
  }

  /** The row one tag adds: the table row of its lower-cased form. */
  function TagRow(tag: string): seq<PackingItem>
  {
    ActivityItems(Lower(tag))
  }

  /** Reference reading of the activity loop: an item is added exactly when it
      is in the row of some tag. */
  lemma {:induction false} ActivityPhaseMembers(a: seq<string>)
    ensures forall x :: x in ActivityPhase(a) <==> exists i :: 0 <= i < |a| && x in TagRow(a[i])
    decreases |a|
  {
    if |a| > 0 {
      var init, last := a[..|a| - 1], a[|a| - 1];
      ActivityPhaseMembers(init);
      assert a == init + [last];
      SnocMembers(init, last, ActivityPhase(init), TagRow(last), TagRow);
    }
  }

  /** Reference reading of the special-need loop: an item is added exactly when
      the items of some need hold it. */
  lemma {:induction false} NeedsPhaseMembers(needs: seq<string>)
    ensures forall x :: x in NeedsPhase(needs) <==> exists i :: 0 <= i < |needs| && x in SpecialNeedsItems(needs[i])
    decreases |needs|
  {
    if |needs| > 0 {
      var init, last := needs[..|needs| - 1], needs[|needs| - 1];
      NeedsPhaseMembers(init);
      assert needs == init + [last];
      SnocMembers(init, last, NeedsPhase(init), SpecialNeedsItems(last), SpecialNeedsItems);
    }
  }

  /** One step of a loop that appends a row per input: an item is in the longer
      output exactly when the row of some input holds it. */
  lemma SnocMembers<T, U>(init: seq<T>, last: T, prev: seq<U>, row: seq<U>, rowOf: T -> seq<U>)
    requires forall x :: x in prev <==> exists i :: 0 <= i < |init| && x in rowOf(init[i])
    requires row == rowOf(last)
    ensures forall x :: x in prev + row <==> exists i :: 0 <= i < |init + [last]| && x in rowOf((init + [last])[i])
  {
    var s := init + [last];
    forall x
      ensures x in prev + row <==> exists i :: 0 <= i < |s| && x in rowOf(s[i])
    {
      if exists i :: 0 <= i < |s| && x in rowOf(s[i]) {
        var i :| 0 <= i < |s| && x in rowOf(s[i]);
        if i < |init| {
          assert init[i] == s[i];
        }
      }
      if x in prev {
        var i :| 0 <= i < |init| && x in rowOf(init[i]);
        assert s[i] == init[i];
      }
      if x in row {
        assert s[|init|] == last;
      }
    }
  }

  /** Tags are compared after lower-casing: two tag lists that agree up to
      letter case add the same items. */
  lemma {:induction false} ActivityPhaseCaseInsensitive(a: seq<string>, b: seq<string>)
    requires |a| == |b|
    requires forall i :: 0 <= i < |a| ==> Lower(a[i]) == Lower(b[i])
    ensures ActivityPhase(a) == ActivityPhase(b)
    decreases |a|
  {
    if |a| > 0 {
      ActivityPhaseCaseInsensitive(a[..|a| - 1], b[..|b| - 1]);
    }
  }

  /** Tags that name no row of the table add nothing. */
  lemma ActivityPhaseSkipsUnknown(a: seq<string>, b: seq<string>)
    requires forall i :: 0 <= i < |b| ==> !IsActivityKey(Lower(b[i]))
    ensures ActivityPhase(a + b) == ActivityPhase(a)
  {
    ActivityPhaseConcat(a, b);
    UnknownTagsAddNothing(b);
  }

  lemma {:induction false} UnknownTagsAddNothing(b: seq<string>)
    requires forall i :: 0 <= i < |b| ==> !IsActivityKey(Lower(b[i]))
    ensures ActivityPhase(b) == []
    decreases |b|
  {
    if |b| > 0 {
      UnknownTagsAddNothing(b[..|b| - 1]);
    }
  }

  /** A tag given twice adds its row twice, so every quantity it contributes doubles. */
  lemma RepeatedTagDoubles(a: seq<string>, tag: string, n: string)
    ensures SumQuantity(ActivityPhase(a + [tag, tag]), n)
            == SumQuantity(ActivityPhase(a), n) + 2 * SumQuantity(ActivityItems(Lower(tag)), n)
  {
    var row := ActivityItems(Lower(tag));
    ActivityPhaseConcat(a, [tag, tag]);
    ActivityPhaseConcat([tag], [tag]);
    assert [tag] + [tag] == [tag, tag];
    assert ActivityPhase([tag]) == row by {
      assert [tag][..0] == [];
    }
    SumQuantityConcat(ActivityPhase(a), row + row, n);
    SumQuantityConcat(row, row, n);
  }

  /** Number of tags that lower-case to "hiking". */
  function HikingTags(a: seq<string>): (n: nat)
    ensures n <= |a|
  {
    if |a| == 0 then 0
    else HikingTags(a[..|a| - 1]) + (if Lower(a[|a| - 1]) == "hiking" then 1 else 0)
  }

  lemma WaterBottleInRow(key: string)
    ensures SumQuantity(ActivityItems(key), "Water Bottle") == if key == "hiking" then 1 else 0
  {
    if key == "hiking" {
      HikingWaterBottle();
    } else {
      NoWaterBottle(key);
      SumQuantityAbsent(ActivityItems(key), "Water Bottle");
    }
  }

  lemma HikingWaterBottle()
    ensures SumQuantity(HikingItems, "Water Bottle") == 1
  {
    var front, x, back := HikingItems[..4], HikingItems[4], HikingItems[5..];
    assert Names(front) == ["Hiking Boots", "Hiking Socks", "Hiking Pants", "Hiking Backpack"];
    assert Names(back) == ["Trail Snacks", "Map/Compass"];
    assert HikingItems == front + [x] + back;
    SumAround(front, x, back);
  }

  /** Helper: no activity row other than hiking's has a water bottle. */
  lemma NoWaterBottle(key: string)
    requires key != "hiking"
    ensures "Water Bottle" !in Names(ActivityItems(key))
  {
  }

  lemma {:induction false} WaterBottleInActivities(a: seq<string>)
    ensures SumQuantity(ActivityPhase(a), "Water Bottle") == HikingTags(a)
    decreases |a|
  {
    if |a| > 0 {
      var init := a[..|a| - 1];
      WaterBottleInActivities(init);
      WaterBottleInRow(Lower(a[|a| - 1]));
      SumQuantityConcat(ActivityPhase(init), ActivityItems(Lower(a[|a| - 1])), "Water Bottle");
    }
  }

  lemma {:induction false} WaterBottleNotInNeeds(needs: seq<string>)
    ensures SumQuantity(NeedsPhase(needs), "Water Bottle") == 0
    decreases |needs|
  {
    if |needs| > 0 {
      var init := needs[..|needs| - 1];
      WaterBottleNotInNeeds(init);
      SumQuantityAbsent(SpecialNeedsItems(needs[|needs| - 1]), "Water Bottle");
      SumQuantityConcat(NeedsPhase(init), SpecialNeedsItems(needs[|needs| - 1]), "Water Bottle");
    }
  }

  lemma WaterBottleInExtras(t: TripDetails)
    ensures SumQuantity(Extras(t), "Water Bottle") == HikingTags(t.activities)
  {
    var n := "Water Bottle";
    var a := ActivityPhase(t.activities);
    var c := ClimateItems(t.climate, t.season);
    var m := AccommodationItems(t.accommodation);
    var ch := if t.includesChildren then ChildrenItems else [];
    var nd := NeedsPhase(t.specialNeeds);
    assert Extras(t) == a + c + m + ch + nd;
    SumQuantityConcat(a + c + m + ch, nd, n);
    SumQuantityConcat(a + c + m, ch, n);
    SumQuantityConcat(a + c, m, n);
    SumQuantityConcat(a, c, n);
    WaterBottleInActivities(t.activities);
    WaterBottleNotInClimate(t.climate, t.season);
    WaterBottleNotInAccommodation(t.accommodation);
    SumQuantityAbsent(ChildrenItems, n);
    WaterBottleNotInNeeds(t.specialNeeds);
  }

  lemma WaterBottleNotInClimate(climate: string, season: string)
    ensures SumQuantity(ClimateItems(climate, season), "Water Bottle") == 0
  {
    SumQuantityAbsent(ClimateItems(climate, season), "Water Bottle");
  }

  lemma WaterBottleNotInAccommodation(accommodation: string)
    ensures SumQuantity(AccommodationItems(accommodation), "Water Bottle") == 0
  {
    SumQuantityAbsent(AccommodationItems(accommodation), "Water Bottle");
  }

  /** Helper for `WaterBottle`: where the bottle sits in the base catalog. */
  lemma WaterBottleInBase()
    ensures |BaseItems| > 36 && BaseItems[36] == Entry("37", "Water Bottle", Accessories, false, 1)
  {
    assert BaseItems[36] == BaseAccessories[1];
  }

  /** Worked example: the base "Water Bottle" (not essential, quantity 1, never
      rescaled because it is an accessory) sits at index 36, and each tag that
      lower-cases to "hiking" adds the hiking row's bottle to its quantity. The
      entry keeps the base item's essential flag. */
  lemma WaterBottle(t: TripDetails, draws: nat -> string)
    ensures |GeneratePackingList(t, draws)| > 36
    ensures GeneratePackingList(t, draws)[36].name == "Water Bottle"
    ensures GeneratePackingList(t, draws)[36].category == Accessories
    ensures !GeneratePackingList(t, draws)[36].essential
    ensures GeneratePackingList(t, draws)[36].quantity == 1 + HikingTags(t.activities)
  {
    GenerateStartsWithBase(t, draws);
    WaterBottleInBase();
    WaterBottleInExtras(t);
  }

  /** The children's block is appended exactly when the trip includes children:
      each of its five names then gets quantity 1 from the extras, and 0
      otherwise, since no activity, climate, accommodation or special-need item
      carries one of these names. */
  lemma ChildrenInExtras(t: TripDetails, k: nat)
    requires k < |ChildrenItems|
    ensures SumQuantity(Extras(t), ChildrenItems[k].name) == if t.includesChildren then 1 else 0
  {
    var n := ChildrenItems[k].name;
    var a := ActivityPhase(t.activities);
    var c := ClimateItems(t.climate, t.season);
    var m := AccommodationItems(t.accommodation);
    var ch := if t.includesChildren then ChildrenItems else [];
    var nd := NeedsPhase(t.specialNeeds);
    assert Extras(t) == a + c + m + ch + nd;
    SumQuantityConcat(a + c + m + ch, nd, n);
    SumQuantityConcat(a + c + m, ch, n);
    SumQuantityConcat(a + c, m, n);
    SumQuantityConcat(a, c, n);
    ChildNameNotInActivities(t.activities, k);
    ChildNameNotInClimate(t.climate, t.season, k);
    ChildNameNotInAccommodation(t.accommodation, k);
    ChildNameNotInNeeds(t.specialNeeds, k);
    ChildrenOnce(k);
  }

  lemma ChildrenOnce(k: nat)
    requires k < |ChildrenItems|
    ensures SumQuantity(ChildrenItems, ChildrenItems[k].name) == 1
  {
    assert DistinctNames(ChildrenItems);
    SumQuantityDistinct(ChildrenItems, k);
  }

  lemma {:induction false} ChildNameNotInActivities(a: seq<string>, k: nat)
    requires k < |ChildrenItems|
    ensures SumQuantity(ActivityPhase(a), ChildrenItems[k].name) == 0
    decreases |a|
  {
    if |a| > 0 {
      var init := a[..|a| - 1];
      var row := ActivityItems(Lower(a[|a| - 1]));
      ChildNameNotInActivities(init, k);
      ChildNameNotInRow(Lower(a[|a| - 1]), k);
      SumQuantityAbsent(row, ChildrenItems[k].name);
      SumQuantityConcat(ActivityPhase(init), row, ChildrenItems[k].name);
    }
  }

  lemma ChildNameNotInRow(key: string, k: nat)
    requires k < |ChildrenItems|
    ensures ChildrenItems[k].name !in Names(ActivityItems(key))
  {
  }

  lemma {:induction false} ChildNameNotInNeeds(needs: seq<string>, k: nat)
    requires k < |ChildrenItems|
    ensures SumQuantity(NeedsPhase(needs), ChildrenItems[k].name) == 0
    decreases |needs|
  {
    if |needs| > 0 {
      var init := needs[..|needs| - 1];
      var items := SpecialNeedsItems(needs[|needs| - 1]);
      ChildNameNotInNeeds(init, k);
      ChildNameNotInNeed(needs[|needs| - 1], k);
      SumQuantityConcat(NeedsPhase(init), items, ChildrenItems[k].name);
    }
  }

  lemma ChildNameNotInNeed(need: string, k: nat)
    requires k < |ChildrenItems|
    ensures SumQuantity(SpecialNeedsItems(need), ChildrenItems[k].name) == 0
  {
    SumQuantityAbsent(SpecialNeedsItems(need), ChildrenItems[k].name);
  }

  lemma ChildNameNotInClimate(climate: string, season: string, k: nat)
    requires k < |ChildrenItems|
    ensures SumQuantity(ClimateItems(climate, season), ChildrenItems[k].name) == 0
  {
    SumQuantityAbsent(ClimateItems(climate, season), ChildrenItems[k].name);
  }

  lemma ChildNameNotInAccommodation(accommodation: string, k: nat)
    requires k < |ChildrenItems|
    ensures SumQuantity(AccommodationItems(accommodation), ChildrenItems[k].name) == 0
  {
    SumQuantityAbsent(AccommodationItems(accommodation), ChildrenItems[k].name);
  }

  /** A tag that lower-cases to an inherited property name. */
  predicate HitsInherited(activities: seq<string>)
  {
    exists i :: 0 <= i < |activities| && IsInheritedKey(Lower(activities[i]))
  }

  /** The loop as written throws exactly when some tag lower-cases to an inherited
      property name; otherwise it agrees with `ActivityPhase`, which skips every
      tag outside the table. */
  lemma {:induction false} ActivityPhaseAsWrittenAgrees(activities: seq<string>)
    ensures ActivityPhaseAsWritten(activities).None? <==> HitsInherited(activities)
    ensures !HitsInherited(activities) ==> ActivityPhaseAsWritten(activities) == Some(ActivityPhase(activities))
    decreases |activities|
  {
    if |activities| > 0 {
      var init := activities[..|activities| - 1];
      var last := activities[|activities| - 1];
      ActivityPhaseAsWrittenAgrees(init);
      assert HitsInherited(activities) <==> HitsInherited(init) || IsInheritedKey(Lower(last)) by {
        if HitsInherited(init) {
          var i :| 0 <= i < |init| && IsInheritedKey(Lower(init[i]));
          assert activities[i] == init[i];
        }
        if HitsInherited(activities) {
          var i :| 0 <= i < |activities| && IsInheritedKey(Lower(activities[i]));
          if i < |init| {
            assert init[i] == activities[i];
          }
        }
      }
      var key := Lower(last);
      if !IsActivityKey(key) {
        assert ActivityPhase(init) + ActivityItems(key) == ActivityPhase(init);
      }
    }
  }

  /** Counterexample: a trip whose only activity is "Constructor" makes the code
      as written throw, while the table has no such row. */
  lemma ConstructorTagThrows()
    ensures !IsActivityKey(Lower("Constructor"))
    ensures ActivityPhaseAsWritten(["Constructor"]) == None
  {
    assert Lower("Constructor") == "constructor";
    assert ["Constructor"][..0] == [];
  }
}

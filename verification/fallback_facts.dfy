/** Properties of the fallback suggestions of lib/ai.ts:109-533. */
module FallbackFacts {
  import opened Types
  import opened Text
  import opened Fallback

  /** The list always opens with the same twelve rows (seven fixed ones, then
      the five duration-scaled clothing rows, from "Passport/ID") and closes with
      the same five (down to "Books/Magazines"), all tagged as not model-made. */
  lemma FallbackFrame(t: TripDetails)
    ensures |GenerateFallbackSuggestions(t)| >= 17
    ensures GenerateFallbackSuggestions(t)[..12] == Tag(BaseRows + ClothingRows(t.duration), false)
    ensures GenerateFallbackSuggestions(t)[|GenerateFallbackSuggestions(t)| - 5..] == Tag(TailRows, false)
    ensures GenerateFallbackSuggestions(t)[0].name == "Passport/ID"
    ensures GenerateFallbackSuggestions(t)[|GenerateFallbackSuggestions(t)| - 1].name == "Books/Magazines"
  {
    FrameOf(BaseRows + ClothingRows(t.duration), TripRows(t), TailRows, false);
    FixedEnds();
  }

  lemma FixedEnds()
    ensures |BaseRows| == 7 && BaseRows[0].name == "Passport/ID"
    ensures |TailRows| == 5 && TailRows[4].name == "Books/Magazines"
  {
  }

  /** Tagging a list made of a head, a middle and a tail keeps the tagged head in
      front and the tagged tail at the end. */
  lemma FrameOf(head: seq<Suggestion>, middle: seq<Suggestion>, tail: seq<Suggestion>, tag: bool)
    ensures Tag(head + middle + tail, tag)[..|head|] == Tag(head, tag)
    ensures Tag(head + middle + tail, tag)[|head + middle + tail| - |tail|..] == Tag(tail, tag)
  {
    var r := Tag(head + middle + tail, tag);
    assert r == Tag(head, tag) + Tag(middle, tag) + Tag(tail, tag);
  }

  /** The activity checks are membership tests, so only the set of tags matters:
      input order and repeated tags change nothing. */
  lemma ActivityRowsSetOnly(a: seq<string>, b: seq<string>)
    requires forall x :: x in a <==> x in b
    ensures ActivityRows(a) == ActivityRows(b)
  {
    assert ("hiking" in a <==> "hiking" in b) && ("beach" in a <==> "beach" in b);
    assert ("skiing" in a <==> "skiing" in b) && ("business" in a <==> "business" in b);
    assert "camping" in a <==> "camping" in b;
  }

  /** Each activity check fires exactly when its tag is in the list: a row no
      other activity block has ("Hiking Boots", "Beach Towel", "Ski Jacket",
      "Business Suit", "Camping Stove") is among the activity rows exactly then.
      Other blocks of the fallback may share a marker: the tropical climate
      block also lists "Beach Towel". */
  lemma ActivityRowsBlocks(a: seq<string>)
    ensures "Hiking Boots" in SuggestionNames(ActivityRows(a)) <==> "hiking" in a
    ensures "Beach Towel" in SuggestionNames(ActivityRows(a)) <==> "beach" in a
    ensures "Ski Jacket" in SuggestionNames(ActivityRows(a)) <==> "skiing" in a
    ensures "Business Suit" in SuggestionNames(ActivityRows(a)) <==> "business" in a
    ensures "Camping Stove" in SuggestionNames(ActivityRows(a)) <==> "camping" in a
  {
    var h := IfActivity(a, "hiking", HikingRows);
    var b := IfActivity(a, "beach", BeachRows);
    var s := IfActivity(a, "skiing", SkiingRows);
    var u := IfActivity(a, "business", BusinessRows);
    var c := IfActivity(a, "camping", CampingRows);
    NamesOfFive(h, b, s, u, c);
    HikingMarks(a);
    BeachMarks(a);
    SkiingMarks(a);
    BusinessMarks(a);
    CampingMarks(a);
    FiveBlocks(SuggestionNames(h), SuggestionNames(b), SuggestionNames(s), SuggestionNames(u), SuggestionNames(c),
               "hiking" in a, "beach" in a, "skiing" in a, "business" in a, "camping" in a);
  }

  /** Five blocks, each holding its own marker exactly when it fires and none of
      the other markers: a marker is in the whole list exactly when its block fires. */
  lemma FiveBlocks(h: seq<string>, b: seq<string>, s: seq<string>, u: seq<string>, c: seq<string>,
                   fh: bool, fb: bool, fs: bool, fu: bool, fc: bool)
    requires Marks(h, 0, fh) && Marks(b, 1, fb) && Marks(s, 2, fs) && Marks(u, 3, fu) && Marks(c, 4, fc)
    ensures ActivityMarker(0) in h + b + s + u + c <==> fh
    ensures ActivityMarker(1) in h + b + s + u + c <==> fb
    ensures ActivityMarker(2) in h + b + s + u + c <==> fs
    ensures ActivityMarker(3) in h + b + s + u + c <==> fu
    ensures ActivityMarker(4) in h + b + s + u + c <==> fc
  {
  }

  /** The row that activity block `k` has and no other activity block has, in
      the order of the checks. */
  function ActivityMarker(k: nat): string
  {
    if k == 0 then "Hiking Boots"
    else if k == 1 then "Beach Towel"
    else if k == 2 then "Ski Jacket"
    else if k == 3 then "Business Suit"
    else "Camping Stove"
  }

  /** The names of block `k` hold its marker exactly when it fires, and no other marker. */
  predicate Marks(names: seq<string>, k: nat, fires: bool)
  {
    (ActivityMarker(k) in names <==> fires)
    && forall j :: 0 <= j < 5 && j != k ==> ActivityMarker(j) !in names
  }

  lemma NamesOfFive(p: seq<Suggestion>, q: seq<Suggestion>, r: seq<Suggestion>, s: seq<Suggestion>, t: seq<Suggestion>)
    ensures SuggestionNames(p + q + r + s + t)
            == SuggestionNames(p) + SuggestionNames(q) + SuggestionNames(r) + SuggestionNames(s) + SuggestionNames(t)
  {
  }

  lemma HikingMarks(a: seq<string>)
    ensures Marks(SuggestionNames(IfActivity(a, "hiking", HikingRows)), 0, "hiking" in a)
  {
    HikingNames();
  }

  lemma HikingNames()
    ensures SuggestionNames(HikingRows)
            == ["Hiking Boots", "Hiking Socks", "Hiking Pants", "Hiking Backpack",
              "Water Bottle (1L+)", "Trail Snacks", "Map/Compass or GPS", "First Aid Kit"]
  {
  }

  lemma BeachMarks(a: seq<string>)
    ensures Marks(SuggestionNames(IfActivity(a, "beach", BeachRows)), 1, "beach" in a)
  {
    BeachNames();
  }

  lemma BeachNames()
    ensures SuggestionNames(BeachRows)
            == ["Swimsuit", "Beach Towel", "Beach Bag", "Beach Umbrella", "Beach Games", "Water Shoes"]
  {
  }

  lemma SkiingMarks(a: seq<string>)
    ensures Marks(SuggestionNames(IfActivity(a, "skiing", SkiingRows)), 2, "skiing" in a)
  {
    SkiingNames();
  }

  lemma SkiingNames()
    ensures SuggestionNames(SkiingRows)
            == ["Ski Jacket", "Ski Pants", "Thermal Underwear", "Ski Gloves",
              "Ski Goggles", "Ski Helmet", "Ski Socks", "Hand Warmers"]
  {
  }

  lemma BusinessMarks(a: seq<string>)
    ensures Marks(SuggestionNames(IfActivity(a, "business", BusinessRows)), 3, "business" in a)
  {
    BusinessNames();
  }

  lemma BusinessNames()
    ensures SuggestionNames(BusinessRows)
            == ["Business Suit", "Dress Shirts", "Dress Shoes", "Tie", "Laptop",
              "Business Cards", "Portfolio/Briefcase"]
  {
  }

  lemma CampingMarks(a: seq<string>)
    ensures Marks(SuggestionNames(IfActivity(a, "camping", CampingRows)), 4, "camping" in a)
  {
    CampingNames();
  }

  lemma CampingNames()
    ensures SuggestionNames(CampingRows)
            == ["Tent", "Sleeping Bag", "Sleeping Pad", "Camping Stove", "Headlamp",
              "Multi-tool", "Camping Cookware"]
  {
  }

  /** Example: the checks are exact, so a capitalised tag matches nothing while
      the lower-case tag adds its rows. `ActivityRowsBlocks` states the general
      case. */
  lemma ActivityMatchIsExact()
    ensures ActivityRows(["Hiking"]) == []
    ensures ActivityRows(["hiking"]) == HikingRows
  {
    assert "hiking" !in ["Hiking"];
    assert "hiking" in ["hiking"];
  }

  /** The rows of one special need follow the need alone, so the rows of a list
      of needs are those of its parts, end to end; a need given twice adds its
      rows twice. */
  lemma {:induction false} NeedsRowsConcat(a: seq<string>, b: seq<string>)
    ensures NeedsRows(a + b) == NeedsRows(a) + NeedsRows(b)
    decreases |b|
  {
    if |b| == 0 {
      assert a + b == a;
    } else {
      var c := b[..|b| - 1];
      assert (a + b)[..|a + b| - 1] == a + c;
      assert (a + b)[|a + b| - 1] == b[|b| - 1];
      NeedsRowsConcat(a, c);
    }
  }

  /** The row that only the block of each climate has. */
  const TropicalMarker := "Lightweight, Breathable Shirts"
  const ColdMarker := "Winter Coat/Jacket"
  const DesertMarker := "Long-sleeved Lightweight Shirts"
  const TemperateMarker := "Light Jacket/Sweater"

  /** Which markers a list of rows carries, as four flags. */
  function Markers(rows: seq<Suggestion>): (bool, bool, bool, bool)
  {
    var names := SuggestionNames(rows);
    (TropicalMarker in names, ColdMarker in names, DesertMarker in names, TemperateMarker in names)
  }

  lemma TropicalMarkers(d: int)
    ensures Markers(TropicalRows(d)) == (true, false, false, false)
  {
    assert SuggestionNames(TropicalRows(d)) == ["Sunscreen SPF 50+", "Insect Repellent",
      "Lightweight, Breathable Shirts", "Wide-brimmed Hat", "Sunglasses", "Swimsuit", "Beach Towel"];
  }

  lemma ColdMarkers(d: int)
    ensures Markers(ColdRows(d)) == (false, true, false, false)
  {
    assert SuggestionNames(ColdRows(d)) == ["Winter Coat/Jacket", "Thermal Underwear", "Winter Hat",
      "Winter Gloves", "Scarf", "Warm Socks", "Lip Balm"];
  }

  lemma DesertMarkers(d: int)
    ensures Markers(DesertRows(d)) == (false, false, true, false)
  {
    assert SuggestionNames(DesertRows(d)) == ["Long-sleeved Lightweight Shirts", "Sunscreen SPF 50+",
      "Lip Balm with SPF", "Wide-brimmed Hat", "Sunglasses", "Water Bottle"];
  }

  lemma TemperateMarkers()
    ensures Markers(TemperateRows) == (false, false, false, true)
  {
    assert SuggestionNames(TemperateRows) == ["Light Jacket/Sweater", "Sunscreen SPF 30+", "Umbrella"];
  }

  /** Exactly one climate block fires: each block carries its own marker row and
      no other block's, and the temperate marker appears for every climate that
      is not tropical, cold or desert. */
  lemma ClimateExactlyOne(climate: string, d: int)
    ensures Markers(ClimateRows(climate, d))
            == (climate == "tropical", climate == "cold", climate == "desert",
                climate != "tropical" && climate != "cold" && climate != "desert")
  {
    TropicalMarkers(d);
    ColdMarkers(d);
    DesertMarkers(d);
    TemperateMarkers();
  }

  /** Number of rows called `n`. */
  function CountOf(s: seq<Suggestion>, n: string): nat
  {
    if |s| == 0 then 0
    else CountOf(s[..|s| - 1], n) + (if s[|s| - 1].name == n then 1 else 0)
  }

  lemma {:induction false} CountConcat(a: seq<Suggestion>, b: seq<Suggestion>, n: string)
    ensures CountOf(a + b, n) == CountOf(a, n) + CountOf(b, n)
    decreases |b|
  {
    if |b| == 0 {
      assert a + b == a;
    } else {
      assert (a + b)[..|a + b| - 1] == a + b[..|b| - 1];
      CountConcat(a, b[..|b| - 1], n);
    }
  }

  lemma {:induction false} CountAt(s: seq<Suggestion>, i: nat)
    requires i < |s|
    ensures CountOf(s, s[i].name) >= 1
    decreases |s|
  {
    if i < |s| - 1 {
      assert s[..|s| - 1][i] == s[i];
      CountAt(s[..|s| - 1], i);
    }
  }

  lemma {:induction false} CountTag(s: seq<Suggestion>, tag: bool, n: string)
    ensures CountOf(Tag(s, tag), n) == CountOf(s, n)
    decreases |s|
  {
    if |s| > 0 {
      assert Tag(s, tag)[..|s| - 1] == Tag(s[..|s| - 1], tag);
      CountTag(s[..|s| - 1], tag, n);
    }
  }

  /** How often a name occurs in the fallback list, counted block by block. */
  lemma CountBlocks(t: TripDetails, n: string)
    ensures CountOf(GenerateFallbackSuggestions(t), n)
            >= CountOf(ClimateRows(t.climate, t.duration), n) + CountOf(ActivityRows(t.activities), n)
               + CountOf(AccommodationRows(t.accommodation), n)
  {
    var head := BaseRows + ClothingRows(t.duration);
    var cl, ac, acc := ClimateRows(t.climate, t.duration), ActivityRows(t.activities), AccommodationRows(t.accommodation);
    var ch := if t.includesChildren then ChildrenRows(t.duration) else [];
    var nd := NeedsRows(t.specialNeeds);
    CountTag(FallbackRows(t), false, n);
    CountConcat(head + TripRows(t), TailRows, n);
    CountConcat(head, TripRows(t), n);
    CountConcat(cl + ac + acc + ch, nd, n);
    CountConcat(cl + ac + acc, ch, n);
    CountConcat(cl + ac, acc, n);
    CountConcat(cl, ac, n);
  }

  /** The beach block contributes a "Swimsuit" row. */
  lemma BeachSwimsuit(a: seq<string>)
    requires "beach" in a
    ensures CountOf(ActivityRows(a), "Swimsuit") >= 1
  {
    var h := IfActivity(a, "hiking", HikingRows);
    var rest := IfActivity(a, "skiing", SkiingRows) + IfActivity(a, "business", BusinessRows)
                + IfActivity(a, "camping", CampingRows);
    assert ActivityRows(a) == h + BeachRows + rest;
    CountConcat(h + BeachRows, rest, "Swimsuit");
    CountConcat(h, BeachRows, "Swimsuit");
    assert BeachRows[0].name == "Swimsuit";
    CountAt(BeachRows, 0);
  }

  /** The tropical block contributes another. */
  lemma TropicalSwimsuit(d: int)
    ensures CountOf(TropicalRows(d), "Swimsuit") >= 1
  {
    assert TropicalRows(d)[5].name == "Swimsuit";
    CountAt(TropicalRows(d), 5);
  }

  /** No merging: a tropical trip with the "beach" activity lists "Swimsuit"
      twice, once from the climate block and once from the beach block. */
  lemma SwimsuitTwice(t: TripDetails)
    requires t.climate == "tropical" && "beach" in t.activities
    ensures CountOf(GenerateFallbackSuggestions(t), "Swimsuit") >= 2
  {
    BeachSwimsuit(t.activities);
    TropicalSwimsuit(t.duration);
    CountBlocks(t, "Swimsuit");
  }

  /** The camping activity block contributes a "Tent" row. */
  lemma CampingTent(a: seq<string>)
    requires "camping" in a
    ensures CountOf(ActivityRows(a), "Tent") >= 1
  {
    var front := IfActivity(a, "hiking", HikingRows) + IfActivity(a, "beach", BeachRows)
                 + IfActivity(a, "skiing", SkiingRows) + IfActivity(a, "business", BusinessRows);
    assert ActivityRows(a) == front + CampingRows;
    CountConcat(front, CampingRows, "Tent");
    assert CampingRows[0].name == "Tent";
    CountAt(CampingRows, 0);
  }

  /** No merging: camping as an activity and as the accommodation lists "Tent" twice. */
  lemma TentTwice(t: TripDetails)
    requires "camping" in t.activities && t.accommodation == "camping"
    ensures CountOf(GenerateFallbackSuggestions(t), "Tent") >= 2
  {
    CampingTent(t.activities);
    assert CampsiteRows[0].name == "Tent";
    CountAt(CampsiteRows, 0);
    CountBlocks(t, "Tent");
  }

  /** An independent quantity table: the fallback's quantity of a row follows
      from its name and the trip length `d` alone. */
  function ExpectedQuantity(name: string, d: int): int
  {
    if name in {"T-shirts/Tops", "Lightweight, Breathable Shirts", "Long-sleeved Lightweight Shirts"} then CeilDiv(d, 3)
    else if name in {"Underwear", "Socks", "Warm Socks", "Children's Clothing (Extra)"} then CeilDiv(d, 2)
    else if name == "Pants/Shorts" then CeilDiv(d, 4)
    else if name in {"Credit Cards", "Thermal Underwear", "Hiking Socks", "Ski Socks", "Dress Shirts"} then 2
    else 1
  }

  predicate QuantitiesAsExpected(rows: seq<Suggestion>, d: int)
  {
    forall i :: 0 <= i < |rows| ==> rows[i].quantity == ExpectedQuantity(rows[i].name, d)
  }

  lemma ExpectedConcat(a: seq<Suggestion>, b: seq<Suggestion>, d: int)
    requires QuantitiesAsExpected(a, d) && QuantitiesAsExpected(b, d)
    ensures QuantitiesAsExpected(a + b, d)
  {
    forall i | 0 <= i < |a + b|
      ensures (a + b)[i].quantity == ExpectedQuantity((a + b)[i].name, d)
    {
      if i >= |a| {
        assert (a + b)[i] == b[i - |a|];
      }
    }
  }

  lemma BaseExpected(d: int)
    ensures QuantitiesAsExpected(BaseRows, d)
  {
  }

  lemma ClothingExpected(d: int)
    ensures QuantitiesAsExpected(ClothingRows(d), d)
  {
    var r := ClothingRows(d);
    ClothingQuantities(d);
    ScaledExpected(d);
    ShoesExpected(d);
    forall i | 0 <= i < 5
      ensures r[i].quantity == ExpectedQuantity(r[i].name, d)
    {
      assert i == 0 || i == 1 || i == 2 || i == 3 || i == 4;
    }
  }

  lemma ClothingQuantities(d: int)
    ensures ClothingRows(d)[0].quantity == CeilDiv(d, 3)
    ensures ClothingRows(d)[1].quantity == CeilDiv(d, 2) && ClothingRows(d)[2].quantity == CeilDiv(d, 2)
    ensures ClothingRows(d)[3].quantity == CeilDiv(d, 4)
    ensures ClothingRows(d)[4].name == "Comfortable Walking Shoes" && ClothingRows(d)[4].quantity == 1
  {
  }

  lemma ScaledExpected(d: int)
    ensures ExpectedQuantity("T-shirts/Tops", d) == CeilDiv(d, 3)
    ensures ExpectedQuantity("Underwear", d) == CeilDiv(d, 2) && ExpectedQuantity("Socks", d) == CeilDiv(d, 2)
    ensures ExpectedQuantity("Pants/Shorts", d) == CeilDiv(d, 4)
  {
  }

  lemma ShoesExpected(d: int)
    ensures ExpectedQuantity("Comfortable Walking Shoes", d) == 1
  {
  }

  lemma ClimateExpected(climate: string, d: int)
    ensures QuantitiesAsExpected(ClimateRows(climate, d), d)
  {
    if climate == "tropical" {
      TropicalExpected(d);
    } else if climate == "cold" {
      ColdExpected(d);
    } else if climate == "desert" {
      DesertExpected(d);
    } else {
      TemperateExpected(d);
    }
  }

  lemma TropicalExpected(d: int)
    ensures QuantitiesAsExpected(TropicalRows(d), d)
  {
  }

  lemma ColdExpected(d: int)
    ensures QuantitiesAsExpected(ColdRows(d), d)
  {
  }

  lemma DesertExpected(d: int)
    ensures QuantitiesAsExpected(DesertRows(d), d)
  {
  }

  lemma TemperateExpected(d: int)
    ensures QuantitiesAsExpected(TemperateRows, d)
  {
  }

  lemma HikingExpected(d: int)
    ensures QuantitiesAsExpected(HikingRows, d)
  {
  }

  lemma BeachExpected(d: int)
    ensures QuantitiesAsExpected(BeachRows, d)
  {
  }

  lemma SkiingExpected(d: int)
    ensures QuantitiesAsExpected(SkiingRows, d)
  {
  }

  lemma BusinessExpected(d: int)
    ensures QuantitiesAsExpected(BusinessRows, d)
  {
  }

  lemma CampingExpected(d: int)
    ensures QuantitiesAsExpected(CampingRows, d)
  {
  }

  lemma ActivityExpected(a: seq<string>, d: int)
    ensures QuantitiesAsExpected(ActivityRows(a), d)
  {
    HikingExpected(d);
    BeachExpected(d);
    SkiingExpected(d);
    BusinessExpected(d);
    CampingExpected(d);
    var h, b, s := IfActivity(a, "hiking", HikingRows), IfActivity(a, "beach", BeachRows), IfActivity(a, "skiing", SkiingRows);
    var bu, c := IfActivity(a, "business", BusinessRows), IfActivity(a, "camping", CampingRows);
    ExpectedConcat(h, b, d);
    ExpectedConcat(h + b, s, d);
    ExpectedConcat(h + b + s, bu, d);
    ExpectedConcat(h + b + s + bu, c, d);
  }

  lemma AccommodationExpected(accommodation: string, d: int)
    ensures QuantitiesAsExpected(AccommodationRows(accommodation), d)
  {
  }

  lemma ChildrenExpected(d: int)
    ensures QuantitiesAsExpected(ChildrenRows(d), d)
  {
  }

  lemma NeedExpected(need: string, d: int)
    ensures QuantitiesAsExpected(NeedRows(need), d)
  {
    var lower := Lower(need);
    var m := if Contains(lower, "medical") then MedicalRows else [];
    var di := if Contains(lower, "dietary") then DietaryRows else [];
    var ac := if Contains(lower, "accessibility") then AccessibilityRows else [];
    assert NeedRows(need) == m + di + ac;
    MedicalExpected(d);
    DietaryExpected(d);
    AccessibilityExpected(d);
    ExpectedConcat(m, di, d);
    ExpectedConcat(m + di, ac, d);
  }

  lemma MedicalExpected(d: int)
    ensures QuantitiesAsExpected(MedicalRows, d)
  {
  }

  lemma DietaryExpected(d: int)
    ensures QuantitiesAsExpected(DietaryRows, d)
  {
  }

  lemma AccessibilityExpected(d: int)
    ensures QuantitiesAsExpected(AccessibilityRows, d)
  {
  }

  lemma {:induction false} NeedsExpected(needs: seq<string>, d: int)
    ensures QuantitiesAsExpected(NeedsRows(needs), d)
    decreases |needs|
  {
    if |needs| > 0 {
      NeedsExpected(needs[..|needs| - 1], d);
      NeedExpected(needs[|needs| - 1], d);
      ExpectedConcat(NeedsRows(needs[..|needs| - 1]), NeedRows(needs[|needs| - 1]), d);
    }
  }

  lemma TailExpected(d: int)
    ensures QuantitiesAsExpected(TailRows, d)
  {
  }

  lemma TripExpected(t: TripDetails)
    ensures QuantitiesAsExpected(TripRows(t), t.duration)
  {
    var d := t.duration;
    var cl, ac, acc := ClimateRows(t.climate, d), ActivityRows(t.activities), AccommodationRows(t.accommodation);
    var ch := if t.includesChildren then ChildrenRows(d) else [];
    ClimateExpected(t.climate, d);
    ActivityExpected(t.activities, d);
    AccommodationExpected(t.accommodation, d);
    ChildrenExpected(d);
    NeedsExpected(t.specialNeeds, d);
    ExpectedConcat(cl, ac, d);
    ExpectedConcat(cl + ac, acc, d);
    ExpectedConcat(cl + ac + acc, ch, d);
    ExpectedConcat(cl + ac + acc + ch, NeedsRows(t.specialNeeds), d);
  }

  /** Every quantity in the fallback list is the one the table gives for its
      name and the trip length: a name never gets two different counts. */
  lemma FallbackQuantities(t: TripDetails)
    ensures forall i :: 0 <= i < |GenerateFallbackSuggestions(t)| ==>
              GenerateFallbackSuggestions(t)[i].quantity
              == ExpectedQuantity(GenerateFallbackSuggestions(t)[i].name, t.duration)
  {
    RowsExpected(t);
  }

  lemma RowsExpected(t: TripDetails)
    ensures QuantitiesAsExpected(FallbackRows(t), t.duration)
  {
    var d := t.duration;
    BaseExpected(d);
    ClothingExpected(d);
    TripExpected(t);
    TailExpected(d);
    ExpectedConcat(BaseRows, ClothingRows(d), d);
    ExpectedConcat(BaseRows + ClothingRows(d), TripRows(t), d);
    ExpectedConcat(BaseRows + ClothingRows(d) + TripRows(t), TailRows, d);
  }
}

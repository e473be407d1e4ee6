/** The rule engine of lib/packingLogic.ts: a fixed base catalog rescaled by trip
    duration, followed by the items of each activity, the climate, the
    accommodation, children and each special need, merged by name. */
module PackingLogic {
  import opened Types
  import opened Text
  import opened NameMerge

  /** A catalog entry; the catalog never carries notes. */
  function Entry(id: string, name: string, category: Category, essential: bool, quantity: int): PackingItem
  {
    PackingItem(id, name, category, essential, quantity, None)
  }

  /** `baseItems`, section by section; always included, in this order. */
  const BaseClothing: seq<PackingItem> := [
      Entry("1", "Underwear", Clothing, true, 1),
      Entry("2", "Socks", Clothing, true, 1),
      Entry("3", "T-shirts", Clothing, true, 1),
      Entry("4", "Pants/Shorts", Clothing, true, 1),
      Entry("5", "Pajamas", Clothing, false, 1),
      Entry("6", "Swimwear", Clothing, false, 1),
      Entry("7", "Jacket/Sweater", Clothing, false, 1),
      Entry("8", "Formal Attire", Clothing, false, 1),
      Entry("9", "Rain Jacket", Clothing, false, 1),
      Entry("10", "Winter Coat", Clothing, false, 1),
      Entry("11", "Hiking Boots", Clothing, false, 1),
      Entry("12", "Comfortable Shoes", Clothing, true, 1),
      Entry("13", "Flip Flops", Clothing, false, 1)
    ]

  const BaseToiletries: seq<PackingItem> := [
      Entry("14", "Toothbrush", Toiletries, true, 1),
      Entry("15", "Toothpaste", Toiletries, true, 1),
      Entry("16", "Deodorant", Toiletries, true, 1),
      Entry("17", "Shampoo", Toiletries, true, 1),
      Entry("18", "Soap", Toiletries, true, 1),
      Entry("19", "Hair Brush", Toiletries, false, 1),
      Entry("20", "Razor", Toiletries, false, 1),
      Entry("21", "Sunscreen", Toiletries, false, 1),
      Entry("22", "Insect Repellent", Toiletries, false, 1),
      Entry("23", "First Aid Kit", Toiletries, false, 1),
      Entry("24", "Prescription Medications", Toiletries, false, 1)
    ]

  const BaseElectronics: seq<PackingItem> := [
      Entry("25", "Phone Charger", Electronics, true, 1),
      Entry("26", "Power Bank", Electronics, false, 1),
      Entry("27", "Camera", Electronics, false, 1),
      Entry("28", "Laptop", Electronics, false, 1),
      Entry("29", "Universal Adapter", Electronics, false, 1)
    ]

  const BaseDocuments: seq<PackingItem> := [
      Entry("30", "Passport", Documents, true, 1),
      Entry("31", "Travel Insurance", Documents, false, 1),
      Entry("32", "Boarding Passes", Documents, true, 1),
      Entry("33", "Hotel Reservations", Documents, true, 1),
      Entry("34", "Credit Cards", Documents, true, 1),
      Entry("35", "Cash", Documents, true, 1)
    ]

  const BaseAccessories: seq<PackingItem> := [
      Entry("36", "Backpack/Day Bag", Accessories, true, 1),
      Entry("37", "Water Bottle", Accessories, false, 1),
      Entry("38", "Sunglasses", Accessories, false, 1),
      Entry("39", "Hat/Cap", Accessories, false, 1),
      Entry("40", "Umbrella", Accessories, false, 1),
      Entry("41", "Travel Pillow", Accessories, false, 1),
      Entry("42", "Earplugs", Accessories, false, 1),
      Entry("43", "Eye Mask", Accessories, false, 1),
      Entry("44", "Books/Magazines", Accessories, false, 1),
      Entry("45", "Travel Games", Accessories, false, 1)
    ]

  const BaseItems: seq<PackingItem> := BaseClothing + BaseToiletries + BaseElectronics + BaseDocuments + BaseAccessories

  /** The five rows of `activityItems`. */
  const HikingItems: seq<PackingItem> := [
      Entry("h1", "Hiking Boots", Clothing, true, 1),
      Entry("h2", "Hiking Socks", Clothing, true, 2),
      Entry("h3", "Hiking Pants", Clothing, true, 1),
      Entry("h4", "Hiking Backpack", Accessories, true, 1),
      Entry("h5", "Water Bottle", Accessories, true, 1),
      Entry("h6", "Trail Snacks", Other, true, 1),
      Entry("h7", "Map/Compass", Accessories, true, 1)
    ]

  const BeachItems: seq<PackingItem> := [
      Entry("b1", "Swimsuit", Clothing, true, 1),
      Entry("b2", "Beach Towel", Accessories, true, 1),
      Entry("b3", "Beach Umbrella", Accessories, false, 1),
      Entry("b4", "Beach Bag", Accessories, true, 1),
      Entry("b5", "Beach Games", Accessories, false, 1)
    ]

  const SkiingItems: seq<PackingItem> := [
      Entry("s1", "Ski Jacket", Clothing, true, 1),
      Entry("s2", "Ski Pants", Clothing, true, 1),
      Entry("s3", "Thermal Underwear", Clothing, true, 2),
      Entry("s4", "Ski Gloves", Clothing, true, 1),
      Entry("s5", "Ski Goggles", Accessories, true, 1),
      Entry("s6", "Ski Helmet", Accessories, true, 1),
      Entry("s7", "Ski Socks", Clothing, true, 2)
    ]

  const BusinessItems: seq<PackingItem> := [
      Entry("bus1", "Business Suit", Clothing, true, 1),
      Entry("bus2", "Dress Shirts", Clothing, true, 2),
      Entry("bus3", "Dress Shoes", Clothing, true, 1),
      Entry("bus4", "Tie", Clothing, false, 1),
      Entry("bus5", "Laptop", Electronics, true, 1),
      Entry("bus6", "Business Cards", Documents, true, 1)
    ]

  const CampingItems: seq<PackingItem> := [
      Entry("c1", "Tent", Other, true, 1),
      Entry("c2", "Sleeping Bag", Other, true, 1),
      Entry("c3", "Sleeping Pad", Other, true, 1),
      Entry("c4", "Camping Stove", Other, true, 1),
      Entry("c5", "Headlamp", Accessories, true, 1),
      Entry("c6", "Multi-tool", Accessories, true, 1)
    ]

  /** The keys of `activityItems`. */
  predicate IsActivityKey(key: string)
  {
    key == "hiking" || key == "beach" || key == "skiing" || key == "business" || key == "camping"
  }

  /** `activityItems[key]`, with a key outside the table contributing nothing. */
  function ActivityItems(key: string): (r: seq<PackingItem>)
    ensures |r| > 0 <==> IsActivityKey(key)
  {
    match key
    case "hiking" => HikingItems
    case "beach" => BeachItems
    case "skiing" => SkiingItems
    case "business" => BusinessItems
    case "camping" => CampingItems
    case _ => []
  }

  /** `calculateQuantity`: clothing for every 3 days, toiletries for every 7 days,
      anything else keeps its catalog quantity. */
  function CalculateQuantity(item: PackingItem, duration: int): (q: int)
    ensures item.category == Clothing ==> 3 * (q - 1) < duration <= 3 * q
    ensures item.category == Toiletries ==> 7 * (q - 1) < duration <= 7 * q
    ensures item.category != Clothing && item.category != Toiletries ==> q == item.quantity
  {
    if item.category == Clothing then CeilDiv(duration, 3)
    else if item.category == Toiletries then CeilDiv(duration, 7)
    else item.quantity
  }

  /** The base catalog with every quantity replaced by `CalculateQuantity`. */
  function ScaledBase(duration: int): (r: seq<PackingItem>)
    ensures |r| == |BaseItems|
    ensures forall i :: 0 <= i < |r| ==>
              r[i] == BaseItems[i].(quantity := CalculateQuantity(BaseItems[i], duration))
  {
    seq(|BaseItems|, i requires 0 <= i < |BaseItems| =>
      BaseItems[i].(quantity := CalculateQuantity(BaseItems[i], duration)))
  }

  /** The activity items in input order: each tag is lower-cased and looked up. */
  function ActivityPhase(activities: seq<string>): seq<PackingItem>
  {
    if |activities| == 0 then []
    else ActivityPhase(activities[..|activities| - 1]) + ActivityItems(Lower(activities[|activities| - 1]))
  }

  /** How a property read on the `activityItems` object literal resolves: one of
      its own rows, a property every object inherits from `Object.prototype`, or
      nothing (`undefined`). */
  datatype Lookup = Own(row: seq<PackingItem>) | Inherited | Absent

  /** The property names of `Object.prototype` in ECMAScript, `__proto__` included. */
  predicate IsInheritedKey(key: string)
  {
    key == "constructor" || key == "__proto__" || key == "hasOwnProperty"
    || key == "isPrototypeOf" || key == "propertyIsEnumerable" || key == "toLocaleString"
    || key == "toString" || key == "valueOf" || key == "__defineGetter__"
    || key == "__defineSetter__" || key == "__lookupGetter__" || key == "__lookupSetter__"
  }

  /** `activityItems[key]` as JavaScript evaluates it. */
  function ActivityLookup(key: string): (r: Lookup)
    ensures r.Own? <==> IsActivityKey(key)
    ensures r.Own? ==> r.row == ActivityItems(key)
    ensures r.Inherited? <==> IsInheritedKey(key)
  {
    if IsActivityKey(key) then Own(ActivityItems(key))
    else if IsInheritedKey(key) then Inherited
    else Absent
  }

  /** The activity loop as written: an inherited value is truthy, and spreading it
      into `push` throws a TypeError because neither `Object` nor `Object.prototype`
      is iterable; `None` is that exception, which aborts the whole call. */
  function ActivityPhaseAsWritten(activities: seq<string>): Option<seq<PackingItem>>
  {
    if |activities| == 0 then Some([])
    else
      match ActivityPhaseAsWritten(activities[..|activities| - 1])
      case None => None
      case Some(prev) =>
        match ActivityLookup(Lower(activities[|activities| - 1]))
        case Own(row) => Some(prev + row)
        case Inherited => None
        case Absent => Some(prev)
  }

  /** `getClimateItems`; the season argument is accepted and never read. */
  function ClimateItems(climate: string, season: string): (r: seq<PackingItem>)
    ensures |r| > 0 <==> climate == "tropical" || climate == "cold" || climate == "desert"
  {
    match climate
    case "tropical" => [
        Entry("trop1", "Lightweight Clothing", Clothing, true, 1),
        Entry("trop2", "Sunscreen SPF 50+", Toiletries, true, 1),
        Entry("trop3", "Insect Repellent", Toiletries, true, 1),
        Entry("trop4", "Wide-brimmed Hat", Accessories, true, 1)
      ]
    case "cold" => [
        Entry("cold1", "Thermal Underwear", Clothing, true, 2),
        Entry("cold2", "Winter Hat", Clothing, true, 1),
        Entry("cold3", "Winter Gloves", Clothing, true, 1),
        Entry("cold4", "Scarf", Clothing, true, 1)
      ]
    case "desert" => [
        Entry("des1", "Lightweight, Long-sleeved Shirts", Clothing, true, 2),
        Entry("des2", "Sunscreen SPF 50+", Toiletries, true, 1),
        Entry("des3", "Lip Balm with SPF", Toiletries, true, 1),
        Entry("des4", "Wide-brimmed Hat", Accessories, true, 1)
      ]
    case _ => []
  }

  /** `getAccommodationItems`. */
  function AccommodationItems(accommodation: string): (r: seq<PackingItem>)
    ensures |r| > 0 <==> accommodation == "camping" || accommodation == "hostel"
  {
    match accommodation
    case "camping" => [
        Entry("camp1", "Tent", Other, true, 1),
        Entry("camp2", "Sleeping Bag", Other, true, 1),
        Entry("camp3", "Camping Stove", Other, true, 1)
      ]
    case "hostel" => [
        Entry("host1", "Sleeping Bag Liner", Other, true, 1),
        Entry("host2", "Padlock", Accessories, true, 1),
        Entry("host3", "Earplugs", Accessories, true, 1)
      ]
    case _ => []
  }

  /** `getChildrenItems`. */
  const ChildrenItems: seq<PackingItem> := [
      Entry("child1", "Diapers (if applicable)", Toiletries, true, 1),
      Entry("child2", "Baby Wipes", Toiletries, true, 1),
      Entry("child3", "Children's Medications", Toiletries, true, 1),
      Entry("child4", "Children's Entertainment", Accessories, true, 1),
      Entry("child5", "Children's Snacks", Other, true, 1)
    ]

  /** The three keyword groups of `getSpecialNeedsItems`. */
  const MedicalItems: seq<PackingItem> := [
      Entry("med1", "Prescription Medications", Toiletries, true, 1),
      Entry("med2", "Medical Documentation", Documents, true, 1)
    ]

  const DietaryItems: seq<PackingItem> := [
      Entry("diet1", "Special Dietary Snacks", Other, true, 1),
      Entry("diet2", "Dietary Restrictions Card", Documents, true, 1)
    ]

  const AccessibilityItems: seq<PackingItem> := [
      Entry("acc1", "Mobility Aids", Accessories, true, 1),
      Entry("acc2", "Accessibility Information", Documents, true, 1)
    ]

  /** `getSpecialNeedsItems`: each keyword found in the lower-cased need adds
      its group, independently of the others. */
  function SpecialNeedsItems(need: string): (r: seq<PackingItem>)
    ensures "Medical Documentation" in Names(r) <==> Contains(Lower(need), "medical")
    ensures "Dietary Restrictions Card" in Names(r) <==> Contains(Lower(need), "dietary")
    ensures "Accessibility Information" in Names(r) <==> Contains(Lower(need), "accessibility")
    ensures |r| == 2 * ((if Contains(Lower(need), "medical") then 1 else 0)
                      + (if Contains(Lower(need), "dietary") then 1 else 0)
                      + (if Contains(Lower(need), "accessibility") then 1 else 0))
  {
    var lower := Lower(need);
    assert Names(MedicalItems) == ["Prescription Medications", "Medical Documentation"];
    assert Names(DietaryItems) == ["Special Dietary Snacks", "Dietary Restrictions Card"];
    assert Names(AccessibilityItems) == ["Mobility Aids", "Accessibility Information"];
    var r := (if Contains(lower, "medical") then MedicalItems else [])
      + (if Contains(lower, "dietary") then DietaryItems else [])
      + (if Contains(lower, "accessibility") then AccessibilityItems else []);
    assert Names(r) == (if Contains(lower, "medical") then Names(MedicalItems) else [])
      + (if Contains(lower, "dietary") then Names(DietaryItems) else [])
      + (if Contains(lower, "accessibility") then Names(AccessibilityItems) else []);
    r
  }

  /** The special-need items, need by need in input order. */
  function NeedsPhase(needs: seq<string>): seq<PackingItem>
  {
    if |needs| == 0 then []
    else NeedsPhase(needs[..|needs| - 1]) + SpecialNeedsItems(needs[|needs| - 1])
  }

  /** Everything appended after the base items, with catalog quantities. */
  function Extras(t: TripDetails): seq<PackingItem>
  {
    ActivityPhase(t.activities)
    + ClimateItems(t.climate, t.season)
    + AccommodationItems(t.accommodation)
    + (if t.includesChildren then ChildrenItems else [])
    + NeedsPhase(t.specialNeeds)
  }

  /** The list `generatePackingList` builds before merging. */
  function Candidates(t: TripDetails): seq<PackingItem>
  {
    ScaledBase(t.duration) + Extras(t)
  }

  /** `generatePackingList`; `draws(k)` is the k-th random id drawn. */
  function GeneratePackingList(t: TripDetails, draws: nat -> string): (r: seq<PackingItem>)
    ensures DistinctNames(r)
    ensures forall n :: n in Names(r) <==> n in Names(Candidates(t))
  {
    Merge(Candidates(t), draws)
  }
}

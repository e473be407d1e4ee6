/** The rule-based suggestions of lib/ai.ts: `generateFallbackSuggestions`, used
    whenever the language model is not asked or does not answer, and the choice
    `generateAIPackingSuggestions` makes between it and the model's reply. This is
    a separate rule set from lib/packingLogic.ts: it matches activities exactly,
    gives every climate outside tropical, cold and desert the temperate block,
    scales several quantities with the trip length and never merges duplicates. */
module Fallback {
  import opened Types
  import opened Text

  /** `AIPackingItem`: no id; a note and the `aiSuggested` tag are optional. */
  datatype Suggestion = Suggestion(
    name: string,
    category: Category,
    essential: bool,
    quantity: int,
    notes: Option<string>,
    aiSuggested: Option<bool>)

  /** A fallback row: every row the fallback writes carries a note. */
  function Row(name: string, category: Category, essential: bool, quantity: int, note: string): Suggestion
  {
    Suggestion(name, category, essential, quantity, Some(note), None)
  }

  function SuggestionNames(s: seq<Suggestion>): (r: seq<string>)
    ensures |r| == |s|
    ensures forall i :: 0 <= i < |s| ==> r[i] == s[i].name
  {
    seq(|s|, i requires 0 <= i < |s| => s[i].name)
  }

  /** The seven rows every fallback list starts with. */
  const BaseRows: seq<Suggestion> := [
      Row("Passport/ID", Documents, true, 1, "Required for travel"),
      Row("Credit Cards", Documents, true, 2, "Primary and backup"),
      Row("Cash (Local Currency)", Documents, true, 1, "For small purchases and tips"),
      Row("Phone Charger", Electronics, true, 1, "Essential for navigation and communication"),
      Row("Toothbrush & Toothpaste", Toiletries, true, 1, "Basic hygiene"),
      Row("Deodorant", Toiletries, true, 1, "Personal hygiene"),
      Row("Shampoo & Soap", Toiletries, true, 1, "Basic hygiene")
    ]

  /** The five clothing rows whose quantities follow the trip length `d`. */
  function ClothingRows(d: int): (r: seq<Suggestion>)
    ensures |r| == 5
    ensures r[0].name == "T-shirts/Tops" && 3 * (r[0].quantity - 1) < d <= 3 * r[0].quantity
    ensures r[0].notes == Some(IntToString(r[0].quantity) + " changes for " + IntToString(d) + " days")
    ensures r[1].name == "Underwear" && 2 * (r[1].quantity - 1) < d <= 2 * r[1].quantity
    ensures r[1].notes == Some(IntToString(r[1].quantity) + " pairs for " + IntToString(d) + " days")
    ensures r[2].name == "Socks" && r[2].quantity == r[1].quantity && r[2].notes == r[1].notes
    ensures r[3].name == "Pants/Shorts" && 4 * (r[3].quantity - 1) < d <= 4 * r[3].quantity
  {
    var clothing := CeilDiv(d, 3);
    var underwear := CeilDiv(d, 2);
    [
      Row("T-shirts/Tops", Clothing, true, clothing,
          IntToString(clothing) + " changes for " + IntToString(d) + " days"),
      Row("Underwear", Clothing, true, underwear,
          IntToString(underwear) + " pairs for " + IntToString(d) + " days"),
      Row("Socks", Clothing, true, underwear,
          IntToString(underwear) + " pairs for " + IntToString(d) + " days"),
      Row("Pants/Shorts", Clothing, true, CeilDiv(d, 4), "Comfortable walking pants"),
      Row("Comfortable Walking Shoes", Clothing, true, 1, "Essential for sightseeing")
    ]
  }

  function TropicalRows(d: int): seq<Suggestion>
  {
    [
      Row("Sunscreen SPF 50+", Toiletries, true, 1, "High SPF for tropical sun"),
      Row("Insect Repellent", Toiletries, true, 1, "Protection against mosquitoes"),
      Row("Lightweight, Breathable Shirts", Clothing, true, CeilDiv(d, 3), "Cotton or moisture-wicking fabric"),
      Row("Wide-brimmed Hat", Accessories, true, 1, "Sun protection"),
      Row("Sunglasses", Accessories, true, 1, "UV protection"),
      Row("Swimsuit", Clothing, false, 1, "For beach or pool activities"),
      Row("Beach Towel", Accessories, false, 1, "If beach activities planned")
    ]
  }

  function ColdRows(d: int): seq<Suggestion>
  {
    [
      Row("Winter Coat/Jacket", Clothing, true, 1, "Warm, insulated jacket"),
      Row("Thermal Underwear", Clothing, true, 2, "Base layer for warmth"),
      Row("Winter Hat", Clothing, true, 1, "Warm hat for cold weather"),
      Row("Winter Gloves", Clothing, true, 1, "Insulated gloves"),
      Row("Scarf", Clothing, true, 1, "Neck protection from cold"),
      Row("Warm Socks", Clothing, true, CeilDiv(d, 2), "Thick, warm socks"),
      Row("Lip Balm", Toiletries, true, 1, "Prevent chapped lips")
    ]
  }

  function DesertRows(d: int): seq<Suggestion>
  {
    [
      Row("Long-sleeved Lightweight Shirts", Clothing, true, CeilDiv(d, 3), "Sun protection"),
      Row("Sunscreen SPF 50+", Toiletries, true, 1, "High SPF for desert sun"),
      Row("Lip Balm with SPF", Toiletries, true, 1, "Protect lips from sun"),
      Row("Wide-brimmed Hat", Accessories, true, 1, "Sun protection"),
      Row("Sunglasses", Accessories, true, 1, "UV protection"),
      Row("Water Bottle", Accessories, true, 1, "Stay hydrated in desert climate")
    ]
  }

  const TemperateRows: seq<Suggestion> := [
      Row("Light Jacket/Sweater", Clothing, true, 1, "For cooler evenings"),
      Row("Sunscreen SPF 30+", Toiletries, false, 1, "Sun protection"),
      Row("Umbrella", Accessories, false, 1, "For rain protection")
    ]

  /** The climate chain: the first matching branch, with every other value
      (the form's "temperate" and anything else) falling to the last one. */
  function ClimateRows(climate: string, d: int): seq<Suggestion>
  {
    if climate == "tropical" then TropicalRows(d)
    else if climate == "cold" then ColdRows(d)
    else if climate == "desert" then DesertRows(d)
    else TemperateRows
  }

  const HikingRows: seq<Suggestion> := [
      Row("Hiking Boots", Clothing, true, 1, "Sturdy, waterproof hiking boots"),
      Row("Hiking Socks", Clothing, true, 2, "Moisture-wicking hiking socks"),
      Row("Hiking Pants", Clothing, true, 1, "Durable, quick-dry pants"),
      Row("Hiking Backpack", Accessories, true, 1, "20-30L day pack"),
      Row("Water Bottle (1L+)", Accessories, true, 1, "Stay hydrated on trails"),
      Row("Trail Snacks", Other, true, 1, "Energy bars, nuts, dried fruit"),
      Row("Map/Compass or GPS", Accessories, true, 1, "Navigation tools"),
      Row("First Aid Kit", Toiletries, true, 1, "Basic medical supplies")
    ]

  const BeachRows: seq<Suggestion> := [
      Row("Swimsuit", Clothing, true, 1, "Beach activities"),
      Row("Beach Towel", Accessories, true, 1, "Quick-dry beach towel"),
      Row("Beach Bag", Accessories, true, 1, "Waterproof beach bag"),
      Row("Beach Umbrella", Accessories, false, 1, "Shade from sun"),
      Row("Beach Games", Accessories, false, 1, "Volleyball, frisbee, etc."),
      Row("Water Shoes", Clothing, false, 1, "Protect feet from rocks")
    ]

  const SkiingRows: seq<Suggestion> := [
      Row("Ski Jacket", Clothing, true, 1, "Waterproof, insulated ski jacket"),
      Row("Ski Pants", Clothing, true, 1, "Waterproof, insulated ski pants"),
      Row("Thermal Underwear", Clothing, true, 2, "Base layer for warmth"),
      Row("Ski Gloves", Clothing, true, 1, "Insulated, waterproof gloves"),
      Row("Ski Goggles", Accessories, true, 1, "Eye protection from sun and snow"),
      Row("Ski Helmet", Accessories, true, 1, "Safety equipment"),
      Row("Ski Socks", Clothing, true, 2, "Thick, warm ski socks"),
      Row("Hand Warmers", Accessories, false, 1, "Extra warmth")
    ]

  const BusinessRows: seq<Suggestion> := [
      Row("Business Suit", Clothing, true, 1, "Professional attire"),
      Row("Dress Shirts", Clothing, true, 2, "Professional shirts"),
      Row("Dress Shoes", Clothing, true, 1, "Professional footwear"),
      Row("Tie", Clothing, false, 1, "Professional accessory"),
      Row("Laptop", Electronics, true, 1, "Work requirements"),
      Row("Business Cards", Documents, true, 1, "Networking"),
      Row("Portfolio/Briefcase", Accessories, false, 1, "Professional bag")
    ]

  const CampingRows: seq<Suggestion> := [
      Row("Tent", Other, true, 1, "Sleeping shelter"),
      Row("Sleeping Bag", Other, true, 1, "Warm sleeping bag"),
      Row("Sleeping Pad", Other, true, 1, "Ground insulation"),
      Row("Camping Stove", Other, true, 1, "Cooking equipment"),
      Row("Headlamp", Accessories, true, 1, "Hands-free lighting"),
      Row("Multi-tool", Accessories, true, 1, "Versatile tool"),
      Row("Camping Cookware", Other, true, 1, "Pots, pans, utensils")
    ]

  /** `rows` when `activities.includes(tag)`: an exact, case-sensitive test. */
  function IfActivity(activities: seq<string>, tag: string, rows: seq<Suggestion>): seq<Suggestion>
  {
    if tag in activities then rows else []
  }

  /** The five activity checks, always in this order, whatever the input order. */
  function ActivityRows(activities: seq<string>): seq<Suggestion>
  {
    IfActivity(activities, "hiking", HikingRows)
    + IfActivity(activities, "beach", BeachRows)
    + IfActivity(activities, "skiing", SkiingRows)
    + IfActivity(activities, "business", BusinessRows)
    + IfActivity(activities, "camping", CampingRows)
  }

  const CampsiteRows: seq<Suggestion> := [
      Row("Tent", Other, true, 1, "Sleeping shelter"),
      Row("Sleeping Bag", Other, true, 1, "Warm sleeping bag")
    ]

  const HostelRows: seq<Suggestion> := [
      Row("Sleeping Bag Liner", Other, true, 1, "Hygiene in shared accommodation"),
      Row("Padlock", Accessories, true, 1, "Secure belongings"),
      Row("Earplugs", Accessories, true, 1, "Sleep in shared rooms"),
      Row("Eye Mask", Accessories, false, 1, "Block light for sleep")
    ]

  function AccommodationRows(accommodation: string): seq<Suggestion>
  {
    if accommodation == "camping" then CampsiteRows
    else if accommodation == "hostel" then HostelRows
    else []
  }

  function ChildrenRows(d: int): seq<Suggestion>
  {
    [
      Row("Children's Medications", Toiletries, true, 1, "Fever reducer, pain reliever"),
      Row("Children's Entertainment", Accessories, true, 1, "Books, games, tablets"),
      Row("Children's Snacks", Other, true, 1, "Healthy snacks for kids"),
      Row("Children's Sunscreen", Toiletries, true, 1, "Kid-friendly sunscreen"),
      Row("Children's Clothing (Extra)", Clothing, true, CeilDiv(d, 2), "Kids need more changes")
    ]
  }

  const MedicalRows: seq<Suggestion> := [
      Row("Prescription Medications", Toiletries, true, 1, "Medical requirements"),
      Row("Medical Documentation", Documents, true, 1, "Doctor's notes, prescriptions")
    ]

  const DietaryRows: seq<Suggestion> := [
      Row("Special Dietary Snacks", Other, true, 1, "Safe food options"),
      Row("Dietary Restrictions Card", Documents, true, 1, "Explain dietary needs in local language")
    ]

  const AccessibilityRows: seq<Suggestion> := [
      Row("Mobility Aids", Accessories, true, 1, "Required mobility equipment"),
      Row("Accessibility Information", Documents, true, 1, "Accessibility requirements documentation")
    ]

  /** The rows one special need adds: each keyword found in the lower-cased need
      adds its two rows, independently of the others. */
  function NeedRows(need: string): (r: seq<Suggestion>)
    ensures "Medical Documentation" in SuggestionNames(r) <==> Contains(Lower(need), "medical")
    ensures "Dietary Restrictions Card" in SuggestionNames(r) <==> Contains(Lower(need), "dietary")
    ensures "Accessibility Information" in SuggestionNames(r) <==> Contains(Lower(need), "accessibility")
    ensures |r| == 2 * ((if Contains(Lower(need), "medical") then 1 else 0)
                      + (if Contains(Lower(need), "dietary") then 1 else 0)
                      + (if Contains(Lower(need), "accessibility") then 1 else 0))
  {
    var lower := Lower(need);
    assert SuggestionNames(MedicalRows) == ["Prescription Medications", "Medical Documentation"];
    assert SuggestionNames(DietaryRows) == ["Special Dietary Snacks", "Dietary Restrictions Card"];
    assert SuggestionNames(AccessibilityRows) == ["Mobility Aids", "Accessibility Information"];
    var r := (if Contains(lower, "medical") then MedicalRows else [])
      + (if Contains(lower, "dietary") then DietaryRows else [])
      + (if Contains(lower, "accessibility") then AccessibilityRows else []);
    assert SuggestionNames(r) == (if Contains(lower, "medical") then SuggestionNames(MedicalRows) else [])
      + (if Contains(lower, "dietary") then SuggestionNames(DietaryRows) else [])
      + (if Contains(lower, "accessibility") then SuggestionNames(AccessibilityRows) else []);
    r
  }

  /** The special-need rows, need by need in input order. */
  function NeedsRows(needs: seq<string>): seq<Suggestion>
  {
    if |needs| == 0 then []
    else NeedsRows(needs[..|needs| - 1]) + NeedRows(needs[|needs| - 1])
  }

  /** The five rows every fallback list ends with. */
  const TailRows: seq<Suggestion> := [
      Row("Power Bank", Electronics, false, 1, "Backup phone charging"),
      Row("Camera", Electronics, false, 1, "Capture memories"),
      Row("Universal Adapter", Electronics, false, 1, "International travel"),
      Row("Travel Pillow", Accessories, false, 1, "Comfort during travel"),
      Row("Books/Magazines", Accessories, false, 1, "Entertainment during downtime")
    ]

  /** The rows between the fixed head and the fixed tail, in push order. */
  function TripRows(t: TripDetails): seq<Suggestion>
  {
    ClimateRows(t.climate, t.duration)
    + ActivityRows(t.activities)
    + AccommodationRows(t.accommodation)
    + (if t.includesChildren then ChildrenRows(t.duration) else [])
    + NeedsRows(t.specialNeeds)
  }

  /** Every row the fallback pushes, in push order, before tagging. */
  function FallbackRows(t: TripDetails): seq<Suggestion>
  {
    BaseRows + ClothingRows(t.duration) + TripRows(t) + TailRows
  }

  /** `items.map(item => ({...item, aiSuggested: tag}))`. */
  function Tag(items: seq<Suggestion>, tag: bool): (r: seq<Suggestion>)
    ensures |r| == |items|
    ensures forall i :: 0 <= i < |items| ==> r[i] == items[i].(aiSuggested := Some(tag))
  {
    seq(|items|, i requires 0 <= i < |items| => items[i].(aiSuggested := Some(tag)))
  }

  /** `generateFallbackSuggestions`. */
  function GenerateFallbackSuggestions(t: TripDetails): (r: seq<Suggestion>)
    ensures forall i :: 0 <= i < |r| ==> r[i].aiSuggested == Some(false)
  {
    Tag(FallbackRows(t), false)
  }

  /** What the model call came to: no API key configured, a failure anywhere in
      the request, the status check or the parsing, or a parsed reply. */
  datatype ModelOutcome = NoKey | Failed | Replied(items: seq<Suggestion>)

  /** `generateAIPackingSuggestions` against the outcome of the model call. */
  function GenerateAIPackingSuggestions(t: TripDetails, outcome: ModelOutcome): (r: seq<Suggestion>)
    ensures outcome.Replied? ==> |r| == |outcome.items|
    ensures outcome.Replied? ==> forall i :: 0 <= i < |r| ==>
              r[i].aiSuggested == Some(true)
              && r[i].(aiSuggested := outcome.items[i].aiSuggested) == outcome.items[i]
    ensures !outcome.Replied? ==> r == GenerateFallbackSuggestions(t)
    ensures !outcome.Replied? ==> forall i :: 0 <= i < |r| ==> r[i].aiSuggested == Some(false)
  {
    match outcome
    case Replied(items) => Tag(items, true)
    case _ => GenerateFallbackSuggestions(t)
  }
}

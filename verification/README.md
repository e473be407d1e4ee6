# pack-it-up, modelled in Dafny

pack-it-up is a trip packing-list app. Given a trip (destination, length in
days, season, climate, activities, accommodation, group size, children,
special needs), it produces a list of items to pack. Two generators exist:

- **The rule engine** (`lib/packingLogic.ts`). It starts from a fixed base
  catalog, rescales clothing and toiletry quantities by the trip length, and
  appends activity, climate, accommodation, children and special-need items.
  It then merges entries that share a name, summing their quantities.
- **The suggestion generator** (`lib/ai.ts`). It asks a language model for a
  list. With no API key, or on any failure, it falls back to a rule-based
  list. That list pushes fixed blocks of rows in a fixed order and tags every
  row as not model-suggested.

The browser side has three parts:

- A checklist (`components/PackingList.tsx`). It toggles items with an
  optimistic update that is reverted on a network error. It also loads saved
  progress, filters essentials, groups by category, counts, and exports text.
- A trip form (`components/TripForm.tsx`). It has activity chips, a
  special-need list and a submit check.
- A history of saved lists in local storage (`lib/storage.ts`). New lists go
  in front and the history is capped at twenty.

The model is pure functions over immutable datatypes, one module per source
file:

- **Types:** `lib/types.ts`, the entities.
- **Text:** the runtime string helpers the code relies on: `toLowerCase`,
  `includes`, `trim`, number rendering, `join`/`split`, and `Math.ceil` of a
  quotient.
- **PackingLogic** and **NameMerge:** the rule engine and its name-merge step.
- **BaseCatalog** and **PackingFacts:** properties of the rule engine.
- **Fallback** and **FallbackFacts:** the suggestion generator and its
  properties.
- **Checklist:** the checklist.
- **TripForm:** the trip form.
- **Storage:** the saved-list history.

Effects become values:

- The random ids of the rule engine are a parameter `draws: nat -> string`.
  The k-th merged entry gets `draws(k)`.
- Clock readings and the id of a saved list are parameters. Saving reads the
  clock twice, so the creation and modification times are separate
  parameters. Updating reads it once per matching list, so `stamps(k)` is the
  reading for the list at index k.
- The storage slot is a value, `Missing | Unreadable | Holds(lists)`.
- The outcome of each network request is a parameter: the model call, the
  progress save, and the progress load.

Notes on how the model reads the code:

- Nothing in these files calls `generatePackingList`. The trip route of the
  application stores the output of `generateAIPackingSuggestions`, which
  without an API key is the fallback list. Both generators are modelled.
- In the checklist, only a thrown request reverts the optimistic toggle. A
  response with an error status keeps the new state.
- The "Remaining" count is `items.length - checked.size`. It equals the number
  of unchecked items only when every checked id names an item and the ids are
  distinct (`Checklist.RemainingIsUnchecked`). Otherwise it can even be
  negative.
- The form's submit handler does not check that an activity was chosen,
  because the list is present from the first state on. Only the disabled
  button stops such a form (`TripForm.EmptyActivitiesPassSubmit`).

## Model

| member | source | states |
|---|---|---|
| PackingLogic.CalculateQuantity | lib/packingLogic.ts:155-163 | clothing gets the least q with 3q covering the days, toiletries the least q with 7q covering them (the ceiling of the quotient), every other category keeps its catalog quantity |
| PackingLogic.ScaledBase | lib/packingLogic.ts:107-114 | the base catalog keeps its length and order, and each entry differs from the catalog entry only in its quantity, which is `CalculateQuantity` of it |
| PackingLogic.ActivityItems | lib/packingLogic.ts:60-102 | a key yields a non-empty row exactly when it is one of the five table keys (hiking, beach, business, camping, skiing) |
| PackingLogic.ActivityLookup | lib/packingLogic.ts:117-122 | a property read on the table object hits an own row exactly for the five keys, and an inherited `Object.prototype` member exactly for the inherited property names |
| PackingLogic.ClimateItems | lib/packingLogic.ts:165-192 | a climate adds items exactly when it is tropical, cold or desert |
| PackingLogic.AccommodationItems | lib/packingLogic.ts:194-212 | an accommodation adds items exactly when it is camping or hostel |
| PackingLogic.SpecialNeedsItems | lib/packingLogic.ts:224-249 | each of "medical", "dietary" and "accessibility" found in the lower-cased need adds its document exactly when found, two items per keyword |
| PackingLogic.GeneratePackingList | lib/packingLogic.ts:104-153 | the result has pairwise distinct names, and a name is in it exactly when some candidate item carries it |
| NameMerge.Merge | lib/packingLogic.ts:141-152 | the folded map holds distinct names, exactly the candidate names, and is no longer than the candidates |
| NameMerge.MergeCorrect | lib/packingLogic.ts:141-152 | the fold meets a fold-free description: entry k is the first candidate of its name with id `draws(k)` and quantity the sum over all candidates of that name, and entries come in first-occurrence order |
| NameMerge.MergeExtends | lib/packingLogic.ts:143-151 | folding more candidates never moves, renames or re-ids an entry already in the map; at most its quantity changes |
| NameMerge.MergeIgnoresQuantities | lib/packingLogic.ts:143-151 | candidate lists that differ only in quantities merge to lists that differ only in quantities |
| NameMerge.MergeDistinct | lib/packingLogic.ts:141-152 | a candidate list with distinct names merges to itself with fresh ids |
| NameMerge.MergePrefixSums | lib/packingLogic.ts:141-152 | after a prefix with distinct names, each prefix entry stays at its index with its own quantity plus the quantities of later candidates of that name |
| NameMerge.MergeLaterEntry | lib/packingLogic.ts:141-152 | an entry after a distinct prefix has a name outside the prefix and the summed quantity of the rest |
| NameMerge.SumQuantityConcat | lib/packingLogic.ts:144-148 | the summed quantity of a name over a concatenation is the sum over the two parts |
| NameMerge.SumQuantityDistinct | lib/packingLogic.ts:144-148 | in a list with distinct names the summed quantity of an item's name is that item's quantity |
| BaseCatalog.BaseNamesDistinct | lib/packingLogic.ts:3-58 | no two base catalog entries share a name, so the merge never folds two of them |
| PackingFacts.GenerateMergesCandidates | lib/packingLogic.ts:104-153 | the generated list is the merge of the base, activity, climate, accommodation, children and special-need candidates in push order |
| PackingFacts.GenerateStartsWithBase | lib/packingLogic.ts:107-114 | the first 45 entries are the base catalog in declaration order, each with its rescaled quantity plus the quantities of later items of the same name, and a fresh id |
| PackingFacts.DurationOnlyScalesBase | lib/packingLogic.ts:110-114 | changing the trip length changes only quantities of base entries; length, names and order stay, and every later entry is untouched |
| PackingFacts.LaterEntryQuantity | lib/packingLogic.ts:116-152 | an entry after the base block has a name outside the catalog and the summed catalog quantity of its candidates |
| PackingFacts.GenerateIgnoresSeason | lib/packingLogic.ts:125 | the season never changes the generated list |
| PackingFacts.ActivityPhaseConcat | lib/packingLogic.ts:116-122 | the activity items of a concatenation of tag lists are the concatenation of their activity items |
| PackingFacts.ActivityPhaseMembers | lib/packingLogic.ts:116-122 | the activity loop adds an item exactly when the row of some tag, looked up by its lower-cased form, holds it |
| PackingFacts.ActivityPhaseCaseInsensitive | lib/packingLogic.ts:117-118 | tag lists that agree after lower-casing add the same items |
| PackingFacts.ActivityPhaseSkipsUnknown | lib/packingLogic.ts:119-121 | tags that are not table keys add nothing |
| PackingFacts.NeedsPhaseMembers | lib/packingLogic.ts:136-139 | the special-need loop adds an item exactly when the items of some need hold it |
| PackingFacts.ChildrenInExtras | lib/packingLogic.ts:130-133 | each of the five children's items (lib/packingLogic.ts:214-222) is contributed exactly once when the trip includes children and not at all otherwise, since no other block carries those names |
| PackingFacts.RepeatedTagDoubles | lib/packingLogic.ts:116-122 | a tag given twice adds its row twice, so every name's contributed quantity grows by twice the row's |
| PackingFacts.WaterBottleInActivities | lib/packingLogic.ts:60-102 | the activity phase contributes one water bottle per tag that lower-cases to "hiking" |
| PackingFacts.WaterBottle | lib/packingLogic.ts:49 | worked example: entry 37 is the non-essential accessory "Water Bottle" with quantity 1 plus the number of hiking tags |
| PackingFacts.ActivityPhaseAsWrittenAgrees | lib/packingLogic.ts:117-122 | `ActivityPhaseAsWritten`, the loop as JavaScript runs it, throws exactly when a tag lower-cases to an inherited property name, and otherwise equals the table-only model |
| PackingFacts.ConstructorTagThrows | lib/packingLogic.ts:117-122 | the tag "Constructor" is not a table key, yet the loop as written throws on it |
| Fallback.ClothingRows | lib/ai.ts:135-175 | tops cover the days in threes, underwear and socks in twos, pants in fours, with notes that render the count and the days |
| Fallback.NeedRows | lib/ai.ts:455-506 | each keyword found in the lower-cased need adds its row pair exactly when found |
| Fallback.Tag | lib/ai.ts:529-532 | tagging keeps length and every field and sets the suggestion flag |
| Fallback.GenerateFallbackSuggestions | lib/ai.ts:109-533 | every fallback row is marked as not model-suggested |
| Fallback.GenerateAIPackingSuggestions | lib/ai.ts:12-66 | a model reply is returned item for item with the flag set to true; no key or any failure yields the fallback list, all flagged false |
| FallbackFacts.FallbackFrame | lib/ai.ts:112-175 | the fallback list opens with the seven fixed rows and the five clothing rows, ends with the five fixed tail rows, starts with "Passport/ID" and ends with "Books/Magazines" |
| FallbackFacts.ActivityRowsSetOnly | lib/ai.ts:283-396 | activity rows depend only on the set of tags: order and repeats do not matter |
| FallbackFacts.ActivityRowsBlocks | lib/ai.ts:283-396 | each of the five activity checks fires exactly when its exact tag is in the list: the row no other activity block has ("Hiking Boots", "Beach Towel", "Ski Jacket", "Business Suit", "Camping Stove") is among the activity rows exactly then |
| FallbackFacts.ActivityMatchIsExact | lib/ai.ts:283 | the activity check is case-sensitive: "Hiking" adds nothing, "hiking" adds the hiking rows |
| FallbackFacts.NeedsRowsConcat | lib/ai.ts:455-506 | the special-need rows of a concatenation of needs are the concatenation of their rows |
| FallbackFacts.ClimateExactlyOne | lib/ai.ts:177-280 | in `ClimateRows` exactly one climate block fires: tropical, cold and desert pick their own block, and every other value gets the temperate one |
| FallbackFacts.CountBlocks | lib/ai.ts:109-533 | a name occurs in the fallback list at least as often as in the climate, activity and accommodation blocks together |
| FallbackFacts.SwimsuitTwice | lib/ai.ts:178-211 | the fallback does not merge: a tropical beach trip lists "Swimsuit" at least twice |
| FallbackFacts.TentTwice | lib/ai.ts:386-403 | a camping activity plus camping accommodation lists "Tent" at least twice |
| FallbackFacts.FallbackQuantities | lib/ai.ts:109-533 | every quantity in the fallback list equals an independent table: a third, a half or a quarter of the days rounded up for the scaled clothing rows, 2 for the listed pairs, 1 otherwise |
| Text.Trim | components/TripForm.tsx:72 | the result is trimmed, is the input with whitespace-only pieces cut from both ends, is empty exactly for all-whitespace input, and a trimmed input comes back unchanged |
| Text.TrimIdempotent | components/TripForm.tsx:72-75 | trimming twice equals trimming once |
| Text.ContainsIff | lib/packingLogic.ts:226-245 | the substring test holds exactly when the needle occurs at some index |
| Text.IntToString | lib/storage.ts:15 | a number renders to digits that parse back to it, with no leading zero except for 0 itself, and with a leading minus for negatives |
| Text.Join | components/PackingList.tsx:111-113 | the joined text starts with the first part, has the separator right after it when there is a second, and is as long as the parts plus one separator per gap |
| Text.SplitJoin | components/PackingList.tsx:112-114 | splitting a newline join gives back the parts when no part holds a newline |
| Text.CeilDiv | lib/packingLogic.ts:157 | the quotient rounded up: the least q with d·q at least n |
| Checklist.Toggle | components/PackingList.tsx:57-64 | the clicked id flips membership and every other id keeps its state |
| Checklist.ToggleTwice | components/PackingList.tsx:56-66 | two clicks on one item give back the original set |
| Checklist.ToggleItem | components/PackingList.tsx:56-88 | the request names the item and its new state; a thrown request restores the old set, and any response keeps the flipped one |
| Checklist.CheckedFromProgress | components/PackingList.tsx:43 | an id is checked exactly when some loaded record for it is marked checked |
| Checklist.LoadProgress | components/PackingList.tsx:36-54 | without a trip id, on an error status or on a thrown request the set is unchanged; otherwise it is the set built from the records |
| Checklist.Shown | components/PackingList.tsx:90 | in essential-only mode the shown items are exactly the essential ones, otherwise all items |
| Checklist.EssentialsConcat | components/PackingList.tsx:90 | the filter keeps order: it distributes over concatenation |
| Checklist.GroupByCategory | components/PackingList.tsx:92-101 | no category heads two groups |
| Checklist.GroupByCategoryCorrect | components/PackingList.tsx:92-101 | groups come in the order their categories first appear, and each group holds exactly the items of its category in list order |
| Checklist.Summarize | components/PackingList.tsx:103-104 | total is the item count, packed is the size of the checked set, essential counts the essential items, and packed plus remaining is total |
| Checklist.RemainingIsUnchecked | components/PackingList.tsx:250 | with distinct ids and only item ids checked, remaining is the number of unchecked items |
| Checklist.ExportLineShape | components/PackingList.tsx:113 | an export line is the item's name, then " (", the quantity rendered in decimal, "x)", then the essential mark or nothing; it ends with the mark exactly when the item is essential |
| Checklist.ExportLines | components/PackingList.tsx:111-113 | one line per item, in list order |
| Checklist.ExportSplits | components/PackingList.tsx:111-114 | reading the export back line by line gives one line per item in list order, when no name holds a newline |
| TripForm.ToggleActivity | components/TripForm.tsx:62-69 | a chosen activity is removed everywhere and the others kept; any other is appended at the end |
| TripForm.ToggleTwice | components/TripForm.tsx:62-69 | on a duplicate-free list, two clicks on an absent activity give the list back; on a present one they move it to the end |
| TripForm.TogglesStayDistinct | components/TripForm.tsx:32-69 | from the initial empty list, no sequence of chip clicks creates a duplicate |
| TripForm.AddNeed | components/TripForm.tsx:71-79 | a blank or already listed input changes nothing; otherwise the trimmed input is appended and the box cleared |
| TripForm.AddNeedKeepsWellFormed | components/TripForm.tsx:71-79 | adding keeps the needs trimmed, non-blank and distinct |
| TripForm.RemoveNeed | components/TripForm.tsx:81-86 | the need is gone, every other need keeps its membership, nothing else in the form changes |
| TripForm.RemoveNeedKeepsWellFormed | components/TripForm.tsx:81-86 | removing keeps the needs trimmed, non-blank and distinct |
| TripForm.AddNeedTwice | components/TripForm.tsx:71-79 | adding the same text a second time changes nothing |
| TripForm.Submit | components/TripForm.tsx:46-60 | the trip reaches the caller exactly when destination, season, climate and accommodation are non-empty and the duration is a non-zero number, with every field copied |
| TripForm.EmptyActivitiesPassSubmit | components/TripForm.tsx:276 | the disabled button rejects a form with no activity, yet the handler's own check accepts it |
| TripForm.InitialDoesNotSubmit | components/TripForm.tsx:32-44 | the form's initial state does not submit, since its destination is empty, and its activity and special-need lists start empty and so well formed |
| Storage.History | lib/storage.ts:32-49 | a missing or unreadable slot reads as the empty history; a stored list reads as itself |
| Storage.ListName | lib/storage.ts:15 | the name is the destination, " - ", the duration rendered in decimal, " days" |
| Storage.ListNameInjective | lib/storage.ts:15 | for one destination, two names are equal exactly when the durations are |
| Storage.Save | lib/storage.ts:12-30 | the new list carries the id, the name, the trip, the items and two separate clock readings; it is first, the old history follows shifted by one, and the length grows by one up to twenty |
| Storage.SavesStayCapped | lib/storage.ts:22-28 | after any number of saves the history holds the smaller of old length plus saves and twenty, newest id first |
| Storage.Delete | lib/storage.ts:51-55 | the result is written even when nothing matched, and a list stays exactly when its id differs |
| Storage.WithoutIdConcat | lib/storage.ts:53 | the filter keeps order: it distributes over concatenation |
| Storage.DeleteUndoesSave | lib/storage.ts:12-55 | saving under a fresh id into a history with room, then deleting that id, restores the history |
| Storage.Update | lib/storage.ts:57-65 | length and order stay, each list with the id gets the patch and its own clock reading, others are untouched |
| Storage.ApplyPatch | lib/storage.ts:61 | a given field replaces the old one, an absent one keeps it, and the modification time is the new reading |
| Storage.UpdateTwice | lib/storage.ts:57-65 | repeating an update with the same clock readings changes nothing, as long as the patch does not change the id |
| Storage.Clear | lib/storage.ts:71-73 | after clearing, the history reads as empty |

## Left out

- The model request itself is left out, because it is I/O. This covers the prompt text, the HTTP call, reading the reply, and parsing JSON. `ModelOutcome` stands for the result: no key, any failure, or a parsed reply.
- The category of a model reply is not validated by the code and is not modelled. A reply's items are taken as given.
- `Date`, `Date.now`, `Math.random` and the id generator of `lib/storage.ts` are parameters. Timestamps are integers.
- `localStorage` is a value. `Unreadable` stands for an empty string, text that fails to parse, and a parsed non-array. The server-side `typeof window` check behaves like `Missing`. Re-hydrating the dates does not change ids or order and is not modelled.
- The progress percentage is left out, because it is floating point with `Math.round`. So are printing, the `Blob` download, React rendering and the loading flag.
- `Text.Lower` maps only ASCII 'A'..'Z', because full Unicode case mapping is outside the model. Tags and needs with other cased letters are outside the model.
- `PackingLogic.CalculateQuantity`: the duration is an integer of magnitude below 10^21. A NaN or fractional duration, which the rule engine would pass to `Math.ceil`, is not modelled.
- `Fallback.ClothingRows`: the duration is an integer of magnitude below 10^21. The `Math.ceil` quantities and the notes that render counts and days are not modelled for NaN or fractional durations.
- `Fallback.ClimateRows`: same restriction for the "Warm Socks" quantity of the cold block.
- `Fallback.ChildrenRows`: same restriction for the children's clothing quantity.
- `Storage.ListName`: same restriction. The name renders the duration with `Text.IntToString`, which writes plain digits, whereas JavaScript switches to exponent notation from 10^21 on and prints fractions and NaN.
- `Checklist.ExportLine`: same restriction for the rendered quantity.
- `Storage.Save`: the history is stored as JSON text and read back with `JSON.parse`; the model keeps the lists themselves, so the JSON round trip is not modelled. In the code a NaN group size comes back as `null`, fields holding `undefined` are dropped, and the dates come back as strings until re-hydrated. `History(r.0)[0] == r.1` holds for the value as saved, not for what such a trip reads back as.
- `PackingLogic.GeneratePackingList`: it uses the table-only `ActivityPhase`, so a tag that lower-cases to an inherited property name such as `constructor` adds nothing here, while the code throws a TypeError. That behaviour is modelled separately by `PackingLogic.ActivityPhaseAsWritten`; see the row under "## Findings".
- `TripForm.Submit`: the duration and group size are what `parseInt` made of the input box, as `Int(n)` or `NaN`. The parse itself is not modelled. The browser's `min`/`max` limits are not modelled either, so a negative duration passes the handler's check, as it does in the code.
- `Fallback.GenerateFallbackSuggestions`: its own contract states only the flag. Its contents and quantities are stated by the `FallbackFacts` lemmas.
- `components/PackingHistory.tsx`, `app/page.tsx` and the API routes are callers and are not part of this model.

## Findings

| source | as written | input that shows it | evidently intended | confidence | as-written member | corrected member |
|---|---|---|---|---|---|---|
| lib/packingLogic.ts:117-122 | `activityItems[activityLower]` also reads properties that every object inherits, so a tag that lower-cases to `constructor` or `__proto__` gives a truthy non-array. Spreading it into `items.push(...)` throws a TypeError | a trip with activities `["Constructor"]` | tags that are not table keys add nothing | not executed | PackingFacts.ConstructorTagThrows | PackingFacts.ActivityPhaseSkipsUnknown |

`PackingLogic.ActivityPhaseAsWritten` models the loop as JavaScript evaluates
it. `PackingFacts.ActivityPhaseAsWrittenAgrees` shows it differs from the
table-only `PackingLogic.ActivityPhase` exactly on such tags. The rest of the
model uses `ActivityPhase`.

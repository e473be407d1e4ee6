/** The trip form of components/TripForm.tsx as pure state updates: the
    activity chips, the special-need list with its text box, and the check that
    decides whether a submit reaches the caller. */
module TripForm {
  import opened Types
  import opened Text

  /** The form's state. Every field is present from the initial state on; the
      duration and group size hold whatever `parseInt` made of the input box. */
  datatype Form = Form(
    destination: string,
    duration: Num,
    season: string,
    climate: string,
    activities: seq<string>,
    accommodation: string,
    groupSize: Num,
    includesChildren: bool,
    specialNeeds: seq<string>,
    needInput: string)

  /** The state the form opens with. */
  const Initial := Form("", Int(1), "summer", "temperate", [], "hotel", Int(1), false, [], "")

  /** `list.filter(x => x !== v)`. */
  function RemoveAll(s: seq<string>, v: string): (r: seq<string>)
    ensures |r| <= |s|
    ensures forall x :: x in r <==> x in s && x != v
  {
    if |s| == 0 then []
    else RemoveAll(s[..|s| - 1], v) + (if s[|s| - 1] == v then [] else [s[|s| - 1]])
  }

  /** Removing keeps the others in order: it distributes over concatenation. */
  lemma {:induction false} RemoveAllConcat(a: seq<string>, b: seq<string>, v: string)
    ensures RemoveAll(a + b, v) == RemoveAll(a, v) + RemoveAll(b, v)
    decreases |b|
  {
    if |b| == 0 {
      assert a + b == a;
    } else {
      assert (a + b)[..|a + b| - 1] == a + b[..|b| - 1];
      RemoveAllConcat(a, b[..|b| - 1], v);
    }
  }

  /** Removing a value that is not there changes nothing. */
  lemma {:induction false} RemoveAbsent(s: seq<string>, v: string)
    requires v !in s
    ensures RemoveAll(s, v) == s
    decreases |s|
  {
    if |s| > 0 {
      assert v !in s[..|s| - 1];
      RemoveAbsent(s[..|s| - 1], v);
    }
  }

  predicate NoDuplicates(s: seq<string>)
  {
    forall j, k :: 0 <= j < k < |s| ==> s[j] != s[k]
  }

  /** Removing from a list without duplicates keeps it so. */
  lemma {:induction false} RemoveAllKeepsDistinct(s: seq<string>, v: string)
    requires NoDuplicates(s)
    ensures NoDuplicates(RemoveAll(s, v))
    decreases |s|
  {
    if |s| > 0 {
      var init := s[..|s| - 1];
      assert NoDuplicates(init);
      RemoveAllKeepsDistinct(init, v);
      assert s[|s| - 1] !in init;
    }
  }

  /** `handleActivityToggle`: a chosen activity is removed wherever it occurs,
      any other is appended at the end. */
  function ToggleActivity(activities: seq<string>, activity: string): (r: seq<string>)
    ensures activity in activities ==> activity !in r && forall x :: x != activity ==> (x in r <==> x in activities)
    ensures activity !in activities ==> r == activities + [activity]
  {
    if activity in activities then RemoveAll(activities, activity) else activities + [activity]
  }

  /** Toggling keeps a list of activities free of duplicates. */
  lemma ToggleKeepsDistinct(activities: seq<string>, activity: string)
    requires NoDuplicates(activities)
    ensures NoDuplicates(ToggleActivity(activities, activity))
  {
    if activity in activities {
      RemoveAllKeepsDistinct(activities, activity);
    }
  }

  /** On a list without duplicates, toggling the same activity twice gives the
      list back when it was absent, and drops it for good when it was present. */
  lemma ToggleTwice(activities: seq<string>, activity: string)
    requires NoDuplicates(activities)
    ensures activity !in activities ==> ToggleActivity(ToggleActivity(activities, activity), activity) == activities
    ensures activity in activities ==>
              ToggleActivity(ToggleActivity(activities, activity), activity)
              == RemoveAll(activities, activity) + [activity]
  {
    if activity !in activities {
      var once := activities + [activity];
      RemoveAllConcat(activities, [activity], activity);
      RemoveAbsent(activities, activity);
      assert RemoveAll([activity], activity) == [];
    }
  }

  /** A sequence of clicks on activity chips. */
  function ApplyToggles(activities: seq<string>, clicks: seq<string>): seq<string>
  {
    if |clicks| == 0 then activities
    else ToggleActivity(ApplyToggles(activities, clicks[..|clicks| - 1]), clicks[|clicks| - 1])
  }

  /** From the empty initial list, no sequence of clicks produces a duplicate. */
  lemma {:induction false} TogglesStayDistinct(clicks: seq<string>)
    ensures NoDuplicates(ApplyToggles(Initial.activities, clicks))
    decreases |clicks|
  {
    if |clicks| > 0 {
      TogglesStayDistinct(clicks[..|clicks| - 1]);
      ToggleKeepsDistinct(ApplyToggles(Initial.activities, clicks[..|clicks| - 1]), clicks[|clicks| - 1]);
    }
  }

  /** What the special-need list may hold: trimmed, non-blank, pairwise distinct. */
  predicate NeedsWellFormed(needs: seq<string>)
  {
    NoDuplicates(needs) && forall k :: 0 <= k < |needs| ==> needs[k] != "" && IsTrimmed(needs[k])
  }

  /** `handleSpecialNeedAdd`: the trimmed input is appended and the box cleared,
      unless it is blank or already listed, in which case nothing changes. */
  function AddNeed(f: Form): (r: Form)
    ensures Trim(f.needInput) == "" || Trim(f.needInput) in f.specialNeeds ==> r == f
    ensures Trim(f.needInput) != "" && Trim(f.needInput) !in f.specialNeeds ==>
              r == f.(specialNeeds := f.specialNeeds + [Trim(f.needInput)], needInput := "")
    ensures AllWhitespace(f.needInput) ==> r == f
  {
    var need := Trim(f.needInput);
    if need != "" && need !in f.specialNeeds then
      f.(specialNeeds := f.specialNeeds + [need], needInput := "")
    else f
  }

  /** `handleSpecialNeedRemove`: every entry equal to the need goes, the rest
      stay in order; nothing else in the form changes. */
  function RemoveNeed(f: Form, need: string): (r: Form)
    ensures need !in r.specialNeeds
    ensures forall x :: x != need ==> (x in r.specialNeeds <==> x in f.specialNeeds)
    ensures r.(specialNeeds := f.specialNeeds) == f
  {
    f.(specialNeeds := RemoveAll(f.specialNeeds, need))
  }

  /** Adding keeps the special-need list well formed. */
  lemma AddNeedKeepsWellFormed(f: Form)
    requires NeedsWellFormed(f.specialNeeds)
    ensures NeedsWellFormed(AddNeed(f).specialNeeds)
  {
  }

  /** Removing keeps it well formed. */
  lemma RemoveNeedKeepsWellFormed(f: Form, need: string)
    requires NeedsWellFormed(f.specialNeeds)
    ensures NeedsWellFormed(RemoveNeed(f, need).specialNeeds)
  {
    RemoveAllKeepsDistinct(f.specialNeeds, need);
    var r := RemoveNeed(f, need).specialNeeds;
    forall k | 0 <= k < |r|
      ensures r[k] != "" && IsTrimmed(r[k])
    {
      assert r[k] in f.specialNeeds;
    }
  }

  /** Typing the same text again and adding it changes nothing: the list holds it
      already, or it was blank. */
  lemma AddNeedTwice(f: Form, input: string)
    ensures AddNeed(AddNeed(f.(needInput := input)).(needInput := input)).specialNeeds
            == AddNeed(f.(needInput := input)).specialNeeds
  {
    var once := AddNeed(f.(needInput := input));
    if Trim(input) != "" && Trim(input) !in f.specialNeeds {
      assert once.specialNeeds[|once.specialNeeds| - 1] == Trim(input);
    }
  }

  /** JavaScript truthiness of a number read with `parseInt`: NaN and 0 are false. */
  predicate Truthy(n: Num)
  {
    n.Int? && n.value != 0
  }

  /** `handleSubmit`: the trip reaches the caller exactly when the destination,
      season, climate and accommodation are non-empty and the duration is a
      non-zero number. The activity list is present in every state, so an empty
      list passes; group size and the children flag are always defined. */
  function Submit(f: Form): (r: Option<TripDetails>)
    ensures r.Some? <==> f.destination != "" && Truthy(f.duration) && f.season != ""
                         && f.climate != "" && f.accommodation != ""
    ensures r.Some? ==> r.value.duration == f.duration.value && r.value.destination == f.destination
                        && r.value.activities == f.activities && r.value.specialNeeds == f.specialNeeds
                        && r.value.groupSize == f.groupSize && r.value.includesChildren == f.includesChildren
                        && r.value.season == f.season && r.value.climate == f.climate
                        && r.value.accommodation == f.accommodation
  {
    if f.destination != "" && f.duration.Int? && f.duration.value != 0 && f.season != ""
       && f.climate != "" && f.accommodation != "" then
      Some(TripDetails(f.destination, f.duration.value, f.season, f.climate, f.activities,
                       f.accommodation, f.groupSize, f.includesChildren, f.specialNeeds))
    else None
  }

  /** The submit button is disabled while loading, without a destination, or
      with no activity chosen. */
  predicate SubmitEnabled(f: Form, isLoading: bool)
  {
    !isLoading && f.destination != "" && |f.activities| > 0
  }

  /** The handler's check is weaker than the button's: a form with no activity
      chosen still passes it, so only the disabled button stops such a trip. */
  lemma EmptyActivitiesPassSubmit()
    ensures !SubmitEnabled(Initial.(destination := "Paris"), false)
    ensures Submit(Initial.(destination := "Paris")).Some?
    ensures Submit(Initial.(destination := "Paris")).value.activities == []
  {
  }

  /** About the one initial state of the form: it has nothing to submit, since
      its destination is empty, and its lists start well formed, which the
      add, remove and toggle lemmas then keep. */
  lemma InitialDoesNotSubmit()
    ensures Submit(Initial) == None
    ensures NeedsWellFormed(Initial.specialNeeds) && NoDuplicates(Initial.activities)
  {
  }
}

/** The saved-list history of lib/storage.ts, with the browser's storage slot as
    a value: it is missing, holds something that does not read back as a list of
    saved lists, or holds such a list. Each operation takes the slot and gives
    the slot it writes back. Ids and clock readings are parameters. */
module Storage {
  import opened Types
  import opened Text

  /** The most lists the history keeps. */
  const Limit: nat := 20

  /** `SavedPackingList`: a generated list with an id, a display name and two
      timestamps (milliseconds; only their identity matters here). */
  datatype SavedList = SavedList(
    id: string,
    name: string,
    tripDetails: TripDetails,
    items: seq<PackingItem>,
    createdAt: int,
    lastModified: int)

  /** The storage slot under the history key. `Unreadable` stands for an empty
      string and for text that fails to parse or does not parse to an array. */
  datatype Slot = Missing | Unreadable | Holds(lists: seq<SavedList>)

  /** `getPackingListHistory`: what the slot reads as; anything but a stored
      list reads as the empty history. */
  function History(slot: Slot): (r: seq<SavedList>)
    ensures slot.Holds? ==> r == slot.lists
    ensures !slot.Holds? ==> r == []
  {
    if slot.Holds? then slot.lists else []
  }

  /** The display name of a saved list: destination, a dash, the duration in days. */
  function ListName(t: TripDetails): (r: string)
    ensures |r| == |t.destination| + 3 + |IntToString(t.duration)| + 5
    ensures r[..|t.destination|] == t.destination
    ensures r[|t.destination|..|t.destination| + 3] == " - "
    ensures r[|t.destination| + 3..|r| - 5] == IntToString(t.duration)
    ensures r[|r| - 5..] == " days"
  {
    var r := t.destination + " - " + IntToString(t.duration) + " days";
    assert r[|t.destination| + 3..|r| - 5] == IntToString(t.duration);
    assert r[|r| - 5..] == " days";
    r
  }

  /** The name determines the trip length: two trips to the same destination
      get the same name exactly when their durations are equal. */
  lemma ListNameInjective(t: TripDetails, u: TripDetails)
    requires t.destination == u.destination
    ensures ListName(t) == ListName(u) <==> t.duration == u.duration
  {
    if ListName(t) == ListName(u) {
      assert IntToString(t.duration) == IntToString(u.duration);
    }
  }

  /** `savePackingList`: the new list goes in front of the history read back,
      which is then cut to its first twenty entries and written. The clock is
      read twice, once per timestamp, and the two readings may differ. */
  function Save(slot: Slot, t: TripDetails, items: seq<PackingItem>, id: string, created: int, modified: int): (r: (Slot, SavedList))
    ensures r.1 == SavedList(id, ListName(t), t, items, created, modified)
    ensures r.0.Holds? && 1 <= |History(r.0)| <= Limit && History(r.0)[0] == r.1
    ensures |History(r.0)| == if |History(slot)| < Limit then |History(slot)| + 1 else Limit
    ensures forall k :: 1 <= k < |History(r.0)| ==> History(r.0)[k] == History(slot)[k - 1]
  {
    var saved := SavedList(id, ListName(t), t, items, created, modified);
    var history := [saved] + History(slot);
    var kept := if |history| <= Limit then history else history[..Limit];
    PushFront(saved, History(slot), kept);
    (Holds(kept), saved)
  }

  /** The history capped after a push at the front: the new list first, then the
      earlier lists shifted by one, up to twenty. */
  lemma PushFront(saved: SavedList, before: seq<SavedList>, kept: seq<SavedList>)
    requires kept == if |before| + 1 <= Limit then [saved] + before else ([saved] + before)[..Limit]
    ensures 1 <= |kept| <= Limit && kept[0] == saved
    ensures |kept| == if |before| < Limit then |before| + 1 else Limit
    ensures forall k :: 1 <= k < |kept| ==> kept[k] == before[k - 1]
  {
  }

  function Ids(lists: seq<SavedList>): set<string>
  {
    set k | 0 <= k < |lists| :: lists[k].id
  }

  /** `history.filter(list => list.id !== id)`. */
  function WithoutId(lists: seq<SavedList>, id: string): (r: seq<SavedList>)
    ensures |r| <= |lists|
  {
    if |lists| == 0 then []
    else
      var last := lists[|lists| - 1];
      WithoutId(lists[..|lists| - 1], id) + (if last.id == id then [] else [last])
  }

  /** The filter keeps exactly the lists with another id. */
  lemma {:induction false} WithoutIdMembers(lists: seq<SavedList>, id: string)
    ensures forall l :: l in WithoutId(lists, id) <==> l in lists && l.id != id
    decreases |lists|
  {
    if |lists| > 0 {
      var init, last := lists[..|lists| - 1], lists[|lists| - 1];
      WithoutIdMembers(init, id);
      assert lists == init + [last];
    }
  }

  /** The filter keeps the others in order: it distributes over concatenation. */
  lemma {:induction false} WithoutIdConcat(a: seq<SavedList>, b: seq<SavedList>, id: string)
    ensures WithoutId(a + b, id) == WithoutId(a, id) + WithoutId(b, id)
    decreases |b|
  {
    if |b| == 0 {
      assert a + b == a;
    } else {
      assert (a + b)[..|a + b| - 1] == a + b[..|b| - 1];
      WithoutIdConcat(a, b[..|b| - 1], id);
    }
  }

  /** Filtering out an id no list has changes nothing. */
  lemma {:induction false} WithoutAbsentId(lists: seq<SavedList>, id: string)
    requires forall k :: 0 <= k < |lists| ==> lists[k].id != id
    ensures WithoutId(lists, id) == lists
    decreases |lists|
  {
    if |lists| > 0 {
      var init, last := lists[..|lists| - 1], lists[|lists| - 1];
      forall k | 0 <= k < |init| ensures init[k].id != id {
        assert init[k] == lists[k];
      }
      WithoutAbsentId(init, id);
      assert WithoutId(lists, id) == WithoutId(init, id) + [last];
      assert lists == init + [last];
    }
  }

  /** `deletePackingList`: every list with the id goes, the others stay in order,
      and the result is written even when nothing matched. */
  function Delete(slot: Slot, id: string): (r: Slot)
    ensures r.Holds?
    ensures forall l :: l in History(r) <==> l in History(slot) && l.id != id
  {
    WithoutIdMembers(History(slot), id);
    Holds(WithoutId(History(slot), id))
  }

  /** Saving under a fresh id into a history with room left, then deleting that
      id, gives back the history one started with. */
  lemma DeleteUndoesSave(slot: Slot, t: TripDetails, items: seq<PackingItem>, id: string, created: int, modified: int)
    requires |History(slot)| < Limit
    requires forall k :: 0 <= k < |History(slot)| ==> History(slot)[k].id != id
    ensures History(Delete(Save(slot, t, items, id, created, modified).0, id)) == History(slot)
  {
    var (s, saved) := Save(slot, t, items, id, created, modified);
    assert History(s) == [saved] + History(slot);
    WithoutIdConcat([saved], History(slot), id);
    WithoutAbsentId(History(slot), id);
    assert WithoutId([saved], id) == [];
  }

  /** The fields `updatePackingList` may be given; absent ones keep their value. */
  datatype Patch = Patch(
    id: Option<string>,
    name: Option<string>,
    tripDetails: Option<TripDetails>,
    items: Option<seq<PackingItem>>,
    createdAt: Option<int>)

  /** `{...list, ...updates, lastModified: new Date()}`. */
  function ApplyPatch(l: SavedList, p: Patch, now: int): (r: SavedList)
    ensures r.lastModified == now
    ensures r.id == p.id.GetOr(l.id) && r.name == p.name.GetOr(l.name)
    ensures r.tripDetails == p.tripDetails.GetOr(l.tripDetails) && r.items == p.items.GetOr(l.items)
    ensures r.createdAt == p.createdAt.GetOr(l.createdAt)
  {
    SavedList(p.id.GetOr(l.id), p.name.GetOr(l.name), p.tripDetails.GetOr(l.tripDetails),
              p.items.GetOr(l.items), p.createdAt.GetOr(l.createdAt), now)
  }

  /** `updatePackingList`: the lists with the id get the patch and a new
      modification time, the others are untouched, and the order and length
      stay as they were. The clock is read once per matching list; `stamps(k)`
      is the reading taken for the list at index `k`. */
  function Update(slot: Slot, id: string, p: Patch, stamps: nat -> int): (r: Slot)
    ensures r.Holds? && |History(r)| == |History(slot)|
    ensures forall k :: 0 <= k < |History(slot)| && History(slot)[k].id != id ==> History(r)[k] == History(slot)[k]
    ensures forall k :: 0 <= k < |History(slot)| && History(slot)[k].id == id ==>
              History(r)[k] == ApplyPatch(History(slot)[k], p, stamps(k))
  {
    var h := History(slot);
    Holds(seq(|h|, k requires 0 <= k < |h| => if h[k].id == id then ApplyPatch(h[k], p, stamps(k)) else h[k]))
  }

  /** Applying the same update twice with the same clock readings is applying
      it once, as long as the patch does not move the lists to another id. */
  lemma UpdateTwice(slot: Slot, id: string, p: Patch, stamps: nat -> int)
    requires p.id == None || p.id == Some(id)
    ensures Update(Update(slot, id, p, stamps), id, p, stamps) == Update(slot, id, p, stamps)
  {
    var once := Update(slot, id, p, stamps);
    var twice := Update(once, id, p, stamps);
    assert History(twice) == History(once);
  }

  /** `clearHistory`: the slot is removed, and the history reads as empty. */
  function Clear(): (r: Slot)
    ensures History(r) == []
  {
    Missing
  }

  /** The arguments of one save: the trip, its items, the id drawn and the two
      clock readings. */
  datatype SaveCall = SaveCall(trip: TripDetails, items: seq<PackingItem>, id: string, created: int, modified: int)

  /** A sequence of saves, oldest first. */
  function SaveAll(slot: Slot, saves: seq<SaveCall>): Slot
  {
    if |saves| == 0 then slot
    else
      var s := saves[|saves| - 1];
      Save(SaveAll(slot, saves[..|saves| - 1]), s.trip, s.items, s.id, s.created, s.modified).0
  }

  function Min(a: int, b: int): int
  {
    if a < b then a else b
  }

  /** The ids of a sequence of saves, the latest first. */
  function NewestFirst(saves: seq<SaveCall>): (r: seq<string>)
    ensures |r| == |saves|
  {
    if |saves| == 0 then [] else [saves[|saves| - 1].id] + NewestFirst(saves[..|saves| - 1])
  }

  /** After any number of saves into a history of at most twenty lists, the
      history holds at most twenty, and its front holds the saved lists, the
      latest first. */
  lemma {:induction false} SavesStayCapped(slot: Slot, saves: seq<SaveCall>)
    requires |History(slot)| <= Limit
    ensures |History(SaveAll(slot, saves))| == Min(|History(slot)| + |saves|, Limit)
    ensures forall k :: 0 <= k < Min(|saves|, Limit) ==> History(SaveAll(slot, saves))[k].id == NewestFirst(saves)[k]
    decreases |saves|
  {
    if |saves| > 0 {
      var init := saves[..|saves| - 1];
      SavesStayCapped(slot, init);
      assert NewestFirst(saves) == [saves[|saves| - 1].id] + NewestFirst(init);
      SaveStep(slot, saves, NewestFirst(init), Min(|init|, Limit));
      assert Min(|History(SaveAll(slot, init))| + 1, Limit) == Min(|History(slot)| + |saves|, Limit);
      assert Min(Min(|init|, Limit) + 1, Limit) == Min(|saves|, Limit);
    }
  }

  /** The last of a sequence of saves, seen through the ids at the front of the
      history. */
  lemma SaveStep(slot: Slot, saves: seq<SaveCall>, ids: seq<string>, n: nat)
    requires |saves| > 0
    requires n <= |ids| && n <= |History(SaveAll(slot, saves[..|saves| - 1]))| && n <= Limit
    requires forall k :: 0 <= k < n ==> History(SaveAll(slot, saves[..|saves| - 1]))[k].id == ids[k]
    ensures |History(SaveAll(slot, saves))| == Min(|History(SaveAll(slot, saves[..|saves| - 1]))| + 1, Limit)
    ensures forall k :: 0 <= k < Min(n + 1, Limit) ==> History(SaveAll(slot, saves))[k].id == ([saves[|saves| - 1].id] + ids)[k]
  {
    var e := saves[|saves| - 1];
    var before, after := SaveAll(slot, saves[..|saves| - 1]), SaveAll(slot, saves);
    assert after == Save(before, e.trip, e.items, e.id, e.created, e.modified).0;
    ShiftFront(History(before), History(after), ids, e.id, n);
  }

  /** The front of a history after one save: the new id, then the old front. */
  lemma ShiftFront(h0: seq<SavedList>, h: seq<SavedList>, ids: seq<string>, id: string, n: nat)
    requires n <= |ids| && n <= |h0| && |h| == Min(|h0| + 1, Limit) && n <= Limit
    requires forall k :: 0 <= k < n ==> h0[k].id == ids[k]
    requires h[0].id == id && forall k :: 1 <= k < |h| ==> h[k] == h0[k - 1]
    ensures forall k :: 0 <= k < Min(n + 1, Limit) ==> h[k].id == ([id] + ids)[k]
  {
    forall k | 1 <= k < Min(n + 1, Limit)
      ensures h[k].id == ([id] + ids)[k]
    {
      assert h[k] == h0[k - 1];
    }
  }
}

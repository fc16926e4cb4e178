/**
 * The pure part of the trip store: the two string helpers, the queries over
 * the trip list, and the values the mutations compute. The list itself lives
 * in `Store.Store`.
 */
module Trips {
  import opened Wrappers
  import opened Text
  import opened Sequences
  import opened Types

  // ---------------------------------------------------------------------------
  // Province from tags

  /** The fixed vocabulary of place names, in the order they are listed. */
  const Provinces: seq<string> := [
    "ตราด", "กรุงเทพมหานคร", "ชลบุรี", "กาญจนบุรี", "เชียงใหม่", "สตูล",
    "ไต้หวัน", "ญี่ปุ่น", "ฝรั่งเศส", "ฟินแลนด์"
  ]

  /** The "unspecified" sentinel. */
  const Unspecified: string := "ไม่ระบุ"

  predicate IsKnownProvince(tag: string)
  {
    tag in Provinces
  }

  /**
   * The province a tag list names: the first tag in the vocabulary; failing
   * that the last tag, unless there is none or it is the empty string (both
   * falsy), in which case the sentinel.
   */
  function ProvinceFromTags(tags: seq<string>): (r: string)
    ensures r in tags || r == Unspecified
  {
    match FindIndex(tags, IsKnownProvince)
    case Some(i) => tags[i]
    case None =>
      if |tags| > 0 && tags[|tags| - 1] != "" then tags[|tags| - 1] else Unspecified
  }

  /** What `ProvinceFromTags` promises, case by case. */
  lemma ProvinceFromTagsSpec(tags: seq<string>)
    ensures var r := ProvinceFromTags(tags);
      && (r in tags || r == Unspecified)
      && (forall i ::
            (0 <= i < |tags| && IsKnownProvince(tags[i]) &&
             forall j :: 0 <= j < i ==> !IsKnownProvince(tags[j])) ==> r == tags[i])
      && ((forall i :: 0 <= i < |tags| ==> !IsKnownProvince(tags[i])) ==>
            r == if |tags| > 0 && tags[|tags| - 1] != "" then tags[|tags| - 1] else Unspecified)
      && (r == Unspecified ==> tags == [] || tags[|tags| - 1] == "" || Unspecified in tags)
  {
  }

  /** The store's search loop with early return, proved to compute `ProvinceFromTags`. */
  method GetProvinceFromTags(tags: seq<string>) returns (r: string)
    ensures r == ProvinceFromTags(tags)
  {
    var i := 0;
    while i < |tags|
      invariant 0 <= i <= |tags|
      invariant forall j :: 0 <= j < i ==> !IsKnownProvince(tags[j])
    {
      if IsKnownProvince(tags[i]) {
        FindIndexFirst(tags, IsKnownProvince, i);
        return tags[i];
      }
      i := i + 1;
    }
    assert FindIndex(tags, IsKnownProvince).None?;
    if |tags| > 0 && tags[|tags| - 1] != "" {
      r := tags[|tags| - 1];
    } else {
      r := Unspecified;
    }
  }

  // ---------------------------------------------------------------------------
  // Short description

  /** The length the short description is cut to when the caller gives none. */
  const DefaultMaxLength: nat := 150

  /**
   * A description of at most `maxLength` characters, unchanged; a longer one
   * cut to its first `maxLength` characters, then back to before the last
   * space in them if that space is not the first character, then `"..."`.
   */
  function CreateShortDescription(description: string, maxLength: nat): (r: string)
    ensures |description| <= maxLength ==> r == description
    ensures |description| > maxLength ==>
      && 3 <= |r| <= maxLength + 3
      && r[|r| - 3..] == "..."
      && var body := r[..|r| - 3];
      && body <= description
      && (|body| == maxLength ==> forall j :: 0 < j < maxLength ==> description[j] != ' ')
      && (|body| < maxLength ==>
            0 < |body| && description[|body|] == ' ' &&
            forall j :: |body| < j < maxLength ==> description[j] != ' ')
  {
    if |description| <= maxLength then description
    else
      var truncated := description[..maxLength];
      var lastSpace := LastIndexOf(truncated, ' ');
      if lastSpace > 0 then truncated[..lastSpace] + "..." else truncated + "..."
  }

  // ---------------------------------------------------------------------------
  // Queries

  /** The fields a search looks into: name, province, description, then the tags if there are any. */
  function SearchFields(t: Trip): seq<string>
  {
    [t.name, t.province, t.description] + (if t.tags.Some? then t.tags.value else [])
  }

  /**
   * A trip matches an already lower-cased query when the query occurs in its
   * lower-cased name, province, description or, if it has tags, some tag.
   */
  predicate MatchesQuery(t: Trip, lowerQuery: string)
    ensures MatchesQuery(t, lowerQuery) <==>
      exists f :: f in SearchFields(t) && Contains(Lower(f), lowerQuery)
  {
    var fields := SearchFields(t);
    assert t.tags.Some? ==> forall i :: 0 <= i < |t.tags.value| ==> fields[3 + i] == t.tags.value[i];
    || Contains(Lower(t.name), lowerQuery)
    || Contains(Lower(t.province), lowerQuery)
    || Contains(Lower(t.description), lowerQuery)
    || (t.tags.Some? && exists i :: 0 <= i < |t.tags.value| && Contains(Lower(t.tags.value[i]), lowerQuery))
  }

  function Matching(lowerQuery: string): Trip -> bool
  {
    t => MatchesQuery(t, lowerQuery)
  }

  /** A trip without tags can match only on its name, province or description. */
  lemma UntaggedMatch(t: Trip, lowerQuery: string)
    requires t.tags.None?
    ensures MatchesQuery(t, lowerQuery) <==>
      Contains(Lower(t.name), lowerQuery) || Contains(Lower(t.province), lowerQuery) ||
      Contains(Lower(t.description), lowerQuery)
  {
  }

  /**
   * `searchTrips(query)`: a blank query gives the whole list; any other gives
   * the trips matching the lower-cased (not trimmed) query, each as often as in
   * the list.
   */
  function SearchTrips(trips: seq<Trip>, query: string): (r: seq<Trip>)
    ensures AllWhitespace(query) ==> r == trips
    ensures !AllWhitespace(query) ==>
      forall t | t in trips :: multiset(r)[t] == if MatchesQuery(t, Lower(query)) then multiset(trips)[t] else 0
    ensures forall t :: t in r ==> t in trips
  {
    TrimEmptyIff(query);
    if Trim(query) == [] then trips else Filter(trips, Matching(Lower(query)))
  }

  /** Search keeps the list's order: searching a concatenation is concatenating the searches. */
  lemma SearchKeepsOrder(a: seq<Trip>, b: seq<Trip>, query: string)
    ensures SearchTrips(a + b, query) == SearchTrips(a, query) + SearchTrips(b, query)
  {
    if Trim(query) != [] {
      FilterConcat(a, b, Matching(Lower(query)));
    }
  }

  function HasId(id: string): Trip -> bool
  {
    (t: Trip) => t.id == id
  }

  /** `getTripById(id)`: the first trip with that id, if any. */
  function GetTripById(trips: seq<Trip>, id: string): (r: Option<Trip>)
    ensures r.None? <==> forall i :: 0 <= i < |trips| ==> trips[i].id != id
    ensures r.Some? ==> r.value.id == id && exists i :: 0 <= i < |trips| && trips[i] == r.value &&
                                                 forall j :: 0 <= j < i ==> trips[j].id != id
  {
    Find(trips, HasId(id))
  }

  function OwnedBy(userId: string): Trip -> bool
  {
    (t: Trip) => t.userId == userId
  }

  /** `getUserTrips(userId)`: the trips with that owner, each as often as in the list. */
  function GetUserTrips(trips: seq<Trip>, userId: string): (r: seq<Trip>)
    ensures forall t :: t in r ==> t in trips && t.userId == userId
    ensures forall t | t in trips :: multiset(r)[t] == if t.userId == userId then multiset(trips)[t] else 0
  {
    Filter(trips, OwnedBy(userId))
  }

  /** The trips of one owner keep the list's order. */
  lemma UserTripsKeepOrder(a: seq<Trip>, b: seq<Trip>, userId: string)
    ensures GetUserTrips(a + b, userId) == GetUserTrips(a, userId) + GetUserTrips(b, userId)
  {
    FilterConcat(a, b, OwnedBy(userId));
  }

  // ---------------------------------------------------------------------------
  // Values computed by the mutations

  /** The trip `createTrip` builds: the caller's content with store-assigned id, owner and timestamps. */
  function NewTrip(data: TripData, id: string, userId: string, createdAt: string, updatedAt: string): (r: Trip)
    ensures ContentOf(r) == data
    ensures r.id == id && r.userId == userId && r.createdAt == createdAt && r.updatedAt == updatedAt
  {
    Trip(id, data.name, data.description, data.shortDescription, data.province, data.images,
         data.tags, data.mapLocation, userId, createdAt, updatedAt)
  }

  function Pick<T>(supplied: Option<T>, current: T): T
  {
    if supplied.Some? then supplied.value else current
  }

  /**
   * The trip after `updateTrip` merges a patch into it: supplied fields
   * replace the old ones, `updatedAt` becomes `now`.
   */
  function ApplyPatch(t: Trip, patch: TripPatch, now: string): (r: Trip)
    ensures r.id == t.id && r.userId == t.userId && r.createdAt == t.createdAt
    ensures r.updatedAt == now
  {
    t.(name := Pick(patch.name, t.name),
       description := Pick(patch.description, t.description),
       shortDescription := Pick(patch.shortDescription, t.shortDescription),
       province := Pick(patch.province, t.province),
       images := Pick(patch.images, t.images),
       tags := Pick(patch.tags, t.tags),
       mapLocation := Pick(patch.mapLocation, t.mapLocation),
       updatedAt := now)
  }

  /** A patch supplying every content field. */
  function PatchOf(data: TripData): TripPatch
  {
    TripPatch(Some(data.name), Some(data.description), Some(data.shortDescription),
              Some(data.province), Some(data.images), Some(data.tags), Some(data.mapLocation))
  }

  /** An empty patch changes nothing but `updatedAt`. */
  lemma EmptyPatchTouchesOnly(t: Trip, now: string)
    ensures ApplyPatch(t, EmptyPatch, now) == t.(updatedAt := now)
  {
  }

  /** Applying the same patch twice is applying it once. */
  lemma ApplyPatchIdempotent(t: Trip, patch: TripPatch, now: string)
    ensures ApplyPatch(ApplyPatch(t, patch, now), patch, now) == ApplyPatch(t, patch, now)
  {
  }

  /** A full patch replaces all content; only id, owner and `createdAt` survive. */
  lemma FullPatchReplacesContent(t: Trip, data: TripData, now: string)
    ensures ApplyPatch(t, PatchOf(data), now) == NewTrip(data, t.id, t.userId, t.createdAt, now)
    ensures ContentOf(ApplyPatch(t, PatchOf(data), now)) == data
  {
  }

  function NotId(id: string): Trip -> bool
  {
    (t: Trip) => t.id != id
  }

  /**
   * The list `deleteTrip` leaves: every trip with that id removed, whoever
   * owns it, the others kept as often as they were.
   */
  function RemoveTrip(trips: seq<Trip>, id: string): (r: seq<Trip>)
    ensures forall t :: t in r ==> t in trips && t.id != id
    ensures forall t | t in trips && t.id != id :: multiset(r)[t] == multiset(trips)[t]
    ensures (exists i :: 0 <= i < |trips| && trips[i].id == id) ==> |r| < |trips|
  {
    FilterDrops(trips, NotId(id));
    Filter(trips, NotId(id))
  }

  /** Removal keeps the order of the trips that remain. */
  lemma RemoveKeepsOrder(a: seq<Trip>, b: seq<Trip>, id: string)
    ensures RemoveTrip(a + b, id) == RemoveTrip(a, id) + RemoveTrip(b, id)
  {
    FilterConcat(a, b, NotId(id));
  }

  // ---------------------------------------------------------------------------
  // Loading

  /**
   * The non-empty-or-seed choice on load: a stored, parsed, non-empty list is
   * used as it is; a missing, unreadable or empty one is replaced by the seed.
   */
  function LoadTrips(stored: Option<seq<Trip>>, defaults: seq<Trip>): (r: seq<Trip>)
    ensures r == defaults || (stored == Some(r) && r != [])
    ensures stored.Some? && stored.value != [] ==> r == stored.value
    ensures defaults != [] ==> r != []
  {
    if stored.Some? && |stored.value| > 0 then stored.value else defaults
  }

  /** The owner of every seed trip. */
  const SeedOwnerId: string := "demo-user-001"

  const SeedIds: seq<string> := ["1", "2", "3", "4", "5", "6", "7", "8", "9", "10"]

  const SeedTags: seq<seq<string>> := [
    ["เกาะ", "ทะเล", "จุดชมวิว", "ธรรมชาติ", "ตราด"],
    ["คาเฟ่", "ร้านกาแฟ", "จุดถ่ายรูป", "เที่ยวใกล้กรุง", "กรุงเทพมหานคร"],
    ["จุดถ่ายรูป", "ถ่ายรูปสวย", "เที่ยวใกล้กรุง", "ชลบุรี"],
    ["จุดถ่ายรูป", "หมู่บ้าน", "ภูเขา", "ธรรมชาติ", "ถ่ายรูปสวย", "บ้านอีต่องเหมืองปิล็อก", "กาญจนบุรี"],
    ["จุดถ่ายรูป", "ถ่ายรูปสวย", "ร้านกาแฟ", "เชียงใหม่", "คาเฟ่"],
    ["ทะเล", "เกาะ", "สตูล", "ธรรมชาติ"],
    ["จุดถ่ายรูป", "ต่างประเทศ", "ไต้หวัน", "ธรรมชาติ"],
    ["จุดถ่ายรูป", "ต่างประเทศ", "ญี่ปุ่น", "ธรรมชาติ", "ภูเขา"],
    ["จุดถ่ายรูป", "ต่างประเทศ", "ฝรั่งเศส"],
    ["ต่างประเทศ", "ฟินแลนด์", "หิมะ", "ธรรมชาติ"]
  ]

  /**
   * The prose of one seed trip: its name, full description, the lead paragraph
   * its short description is made from, image URLs and map pin.
   */
  datatype SeedText = SeedText(name: string, description: string, lead: string,
                               images: seq<string>, mapLocation: Option<LatLng>)

  /**
   * The ten seed trips, stamped with one timestamp: ids "1" to "10", owned by
   * the demo account, the i-th in the i-th province of the vocabulary.
   */
  function DefaultTrips(now: string, text: seq<SeedText>): (r: seq<Trip>)
    requires |text| == |SeedIds|
    ensures |r| == |SeedIds|
    ensures forall i :: 0 <= i < |r| ==>
      && r[i].id == SeedIds[i] && r[i].userId == SeedOwnerId
      && r[i].province == Provinces[i] && r[i].tags == Some(SeedTags[i])
      && r[i].createdAt == now && r[i].updatedAt == now
      && r[i].shortDescription == CreateShortDescription(text[i].lead, DefaultMaxLength)
  {
    seq(|SeedIds|, i requires 0 <= i < |SeedIds| =>
      Trip(SeedIds[i], text[i].name, text[i].description,
           CreateShortDescription(text[i].lead, DefaultMaxLength), Provinces[i],
           text[i].images, Some(SeedTags[i]), text[i].mapLocation, SeedOwnerId, now, now))
  }

  /** The seed ids are pairwise distinct, so every seed trip can be found by its id. */
  lemma SeedIdsDistinct()
    ensures forall i, j :: 0 <= i < j < |SeedIds| ==> SeedIds[i] != SeedIds[j]
  {
  }

  /** Each seed trip's tags name its own province. */
  lemma SeedTagsNameProvince(i: nat)
    requires i < |SeedIds|
    ensures ProvinceFromTags(SeedTags[i]) == Provinces[i]
  {
    var tags := SeedTags[i];
    var k := |tags| - 1;
    if i == 1 { k := 4; }
    else if i == 3 { k := 6; }
    else if i == 4 { k := 3; }
    else if i == 5 || i == 6 || i == 7 { k := 2; }
    else if i == 9 { k := 1; }
    assert tags[k] == Provinces[i];
    assert forall j :: 0 <= j < k ==> !IsKnownProvince(tags[j]);
    FindIndexFirst(tags, IsKnownProvince, k);
  }
}

/**
 * The logic of the data hooks around their queries: the image URL helper,
 * keeping one photo per place in list and map views, ordering a tour's places
 * and photos by position, keeping the tours that visit a place, the company
 * logo lookup, and the checks on ids made before any query.
 *
 * A query is a function parameter `respond` from the query's argument to what
 * the data store answers; a check that fails produces its error without using it.
 */
module Supabase {
  import opened Wrappers
  import opened Strings
  import opened Rows

  const ImagesPath: string := "/storage/v1/object/public/images/"
  const NotConfigured: string := "Supabase client is not properly configured. Check your .env file."
  const InvalidPlaceId: string := "Invalid place ID"
  const InvalidTourId: string := "Invalid tour ID"
  const InvalidCompanyName: string := "Invalid company name"

  /** What a query returns: `{ data, error }`, the error given by its message. */
  datatype QueryResult<T> = QueryResult(data: Option<T>, error: Option<string>)

  // ---------------------------------------------------------------- image URLs

  /**
   * `getImageUrl(image)`, with the value of `NEXT_PUBLIC_SUPABASE_URL` as
   * `supabaseUrl`: null for an empty image or an unset base URL, otherwise the
   * public storage URL of the image.
   */
  function GetImageUrl(image: string, supabaseUrl: Option<string>): (r: Option<string>)
    ensures r.Some? <==> image != "" && Truthy(supabaseUrl)
    ensures r.Some? ==> supabaseUrl.value + ImagesPath <= r.value
  {
    if image == "" then None
    else if !Truthy(supabaseUrl) then None
    else Some(supabaseUrl.value + ImagesPath + image)
  }

  /** The image name inside a public storage URL under `base`, if it is one. */
  function ImageNameOf(url: string, base: string): Option<string> {
    var prefix := base + ImagesPath;
    if prefix <= url then Some(url[|prefix|..]) else None
  }

  /** A built URL names its image: `ImageNameOf` undoes `GetImageUrl`. */
  lemma ImageUrlNamesImage(image: string, base: string)
    requires GetImageUrl(image, Some(base)).Some?
    ensures ImageNameOf(GetImageUrl(image, Some(base)).value, base) == Some(image)
  {
    var url := base + ImagesPath + image;
    assert (base + ImagesPath) + image == url;
    assert url[|base + ImagesPath|..] == image;
  }

  // ---------------------------------------------------------- photo limiting

  /** `{...place, place_photos: place.place_photos.slice(0, 1)}` when the photos are an array. */
  function LimitPhotos(place: Place): (r: Place)
    ensures r.id == place.id && r.image == place.image
    ensures place.placePhotos.None? ==> r == place
    ensures place.placePhotos.Some? ==>
      && r.placePhotos.Some? && |r.placePhotos.value| <= 1
      && r.placePhotos.value <= place.placePhotos.value
      && (r.placePhotos.value == [] <==> place.placePhotos.value == [])
  {
    match place.placePhotos
    case None => place
    case Some(photos) => place.(placePhotos := Some(if |photos| <= 1 then photos else photos[..1]))
  }

  /** The list and map views' `data.map(...)`: every place keeps at most its first photo, in the same order. */
  function LimitedPlaces(places: seq<Place>): (r: seq<Place>)
    ensures |r| == |places|
    ensures forall i :: 0 <= i < |r| ==> r[i] == LimitPhotos(places[i])
  {
    seq(|places|, i requires 0 <= i < |places| => LimitPhotos(places[i]))
  }

  /** Limiting twice is limiting once. */
  lemma LimitPhotosIdempotent(place: Place)
    ensures LimitPhotos(LimitPhotos(place)) == LimitPhotos(place)
  {
  }

  // ------------------------------------------------------- ordering by position

  /** `(x.position || 0)`: a missing position counts as 0. */
  function PositionKey(position: Option<int>): int {
    if position.Some? then position.value else 0
  }

  function PlaceOrder(tp: TourPlace): int {
    PositionKey(tp.position)
  }

  function PhotoOrder(photo: TourPhoto): int {
    PositionKey(photo.position)
  }

  ghost predicate SortedBy<T>(s: seq<T>, key: T -> int) {
    forall i, j :: 0 <= i < j < |s| ==> key(s[i]) <= key(s[j])
  }

  method Swap<T>(a: array<T>, i: int, j: int)
    requires 0 <= i < a.Length && 0 <= j < a.Length
    modifies a
    ensures a[..] == old(a[..])[i := old(a[j])][j := old(a[i])]
    ensures multiset(a[..]) == multiset(old(a[..]))
  {
    a[i], a[j] := a[j], a[i];
  }

  /**
   * `array.sort((x, y) => key(x) - key(y))`, in place: afterwards the array is
   * in non-decreasing key order and holds the same elements.
   */
  method SortByKey<T>(a: array<T>, key: T -> int)
    modifies a
    ensures SortedBy(a[..], key)
    ensures multiset(a[..]) == multiset(old(a[..]))
  {
    if a.Length == 0 {
      return;
    }
    for i := 1 to a.Length
      invariant SortedBy(a[..i], key)
      invariant multiset(a[..]) == multiset(old(a[..]))
    {
      var j := i;
      while j > 0 && key(a[j - 1]) > key(a[j])
        invariant 0 <= j <= i
        invariant multiset(a[..]) == multiset(old(a[..]))
        invariant forall k, l :: 0 <= k < l <= i && k != j && l != j ==> key(a[k]) <= key(a[l])
        invariant forall l :: j < l <= i ==> key(a[j]) < key(a[l])
        invariant 0 < j < i ==> key(a[j - 1]) <= key(a[j + 1])
      {
        Swap(a, j - 1, j);
        j := j - 1;
      }
    }
  }

  /** `sorted` is `tour` with its places and its photos (where there are arrays of them) ordered by position. */
  ghost predicate OrderedVersionOf(tour: Tour, sorted: Tour) {
    && sorted.(tourPlaces := tour.tourPlaces, tourPhotos := tour.tourPhotos) == tour
    && (tour.tourPlaces.None? <==> sorted.tourPlaces.None?)
    && (tour.tourPlaces.Some? ==> SortedBy(sorted.tourPlaces.value, PlaceOrder)
                                  && multiset(sorted.tourPlaces.value) == multiset(tour.tourPlaces.value))
    && (tour.tourPhotos.None? <==> sorted.tourPhotos.None?)
    && (tour.tourPhotos.Some? ==> SortedBy(sorted.tourPhotos.value, PhotoOrder)
                                  && multiset(sorted.tourPhotos.value) == multiset(tour.tourPhotos.value))
  }

  /** The two `sort` calls applied to one fetched tour (`useTour`, and each tour of `useTours`). */
  method OrderTour(tour: Tour) returns (sorted: Tour)
    ensures OrderedVersionOf(tour, sorted)
  {
    sorted := tour;
    if tour.tourPlaces.Some? {
      var places := tour.tourPlaces.value;
      var a := new TourPlace[|places|](i requires 0 <= i < |places| => places[i]);
      assert a[..] == places;
      SortByKey(a, PlaceOrder);
      sorted := sorted.(tourPlaces := Some(a[..]));
    }
    if tour.tourPhotos.Some? {
      var photos := tour.tourPhotos.value;
      var b := new TourPhoto[|photos|](i requires 0 <= i < |photos| => photos[i]);
      assert b[..] == photos;
      SortByKey(b, PhotoOrder);
      sorted := sorted.(tourPhotos := Some(b[..]));
    }
  }

  /** `useTours`: every fetched tour, in the same order, with its places and photos ordered. */
  method OrderTours(tours: seq<Tour>) returns (sorted: seq<Tour>)
    ensures |sorted| == |tours|
    ensures forall i :: 0 <= i < |tours| ==> OrderedVersionOf(tours[i], sorted[i])
  {
    sorted := [];
    for i := 0 to |tours|
      invariant |sorted| == i
      invariant forall k :: 0 <= k < i ==> OrderedVersionOf(tours[k], sorted[k])
    {
      var t := OrderTour(tours[i]);
      sorted := sorted + [t];
    }
  }

  // ------------------------------------------------------------ tours by place

  /** `tour.tour_places && tour.tour_places.some(tp => tp.place_id === placeId)`. */
  predicate VisitsPlace(tour: Tour, placeId: int) {
    tour.tourPlaces.Some? && exists i :: 0 <= i < |tour.tourPlaces.value| && tour.tourPlaces.value[i].placeId == Some(placeId)
  }

  /** The tours that visit the place, in their original order. */
  function ToursVisiting(tours: seq<Tour>, placeId: int): (r: seq<Tour>)
    ensures |r| <= |tours|
    ensures forall t :: t in r ==> t in tours && VisitsPlace(t, placeId)
    ensures forall t :: t in tours && VisitsPlace(t, placeId) ==> t in r
    ensures |tours| == 1 ==> r == if VisitsPlace(tours[0], placeId) then tours else []
  {
    if tours == [] then []
    else if VisitsPlace(tours[0], placeId) then [tours[0]] + ToursVisiting(tours[1..], placeId)
    else ToursVisiting(tours[1..], placeId)
  }

  /** The filter keeps order and multiplicity: it distributes over concatenation. */
  lemma {:induction false} ToursVisitingAppend(a: seq<Tour>, b: seq<Tour>, placeId: int)
    ensures ToursVisiting(a + b, placeId) == ToursVisiting(a, placeId) + ToursVisiting(b, placeId)
  {
    if a == [] {
      assert a + b == b;
    } else {
      assert (a + b)[0] == a[0] && (a + b)[1..] == a[1..] + b;
      ToursVisitingAppend(a[1..], b, placeId);
    }
  }

  /** `data ? data.filter(...) : []`. */
  function FilteredTours(data: Option<seq<Tour>>, placeId: int): (r: seq<Tour>)
    ensures data.None? ==> r == []
    ensures data.Some? ==> forall t :: t in r <==> t in data.value && VisitsPlace(t, placeId)
    ensures data.Some? ==> r == ToursVisiting(data.value, placeId)
  {
    if data.Some? then ToursVisiting(data.value, placeId) else []
  }

  // --------------------------------------------------------------- id checks

  /**
   * The checks `usePlace`, `useTour` and `useToursByPlace` make before their
   * query: a configured client, then an id that is present and parses as a
   * base-10 integer. `invalid` is the message for a bad id.
   */
  function CheckedId(configured: bool, id: Option<string>, invalid: string): (r: Result<int, string>)
    ensures r.Ok? <==> configured && Truthy(id) && ParseInt(id.value).Some?
    ensures r.Ok? ==> ParseInt(id.value) == Some(r.value)
    ensures !configured ==> r == Err(NotConfigured)
    ensures configured && r.Err? ==> r.error == invalid
  {
    if !configured then Err(NotConfigured)
    else if !Truthy(id) then Err(invalid)
    else match ParseInt(id.value)
      case None => Err(invalid)
      case Some(n) => Ok(n)
  }

  /** Every decimal id is accepted as the number it spells; an id without digits is refused. */
  lemma CheckedIdDecimal(n: nat, s: string, invalid: string)
    requires forall i :: 0 <= i < |s| ==> !IsDigit(s[i])
    ensures CheckedId(true, Some(NatToString(n)), invalid) == Ok(n)
    ensures CheckedId(true, Some(s), invalid) == Err(invalid)
  {
    ParseIntOfNatToString(n, "");
    assert NatToString(n) + "" == NatToString(n);
    ParseIntNoDigits(s);
  }

  /** `fetchToursByPlace`: check the id, query, then keep only the tours that visit the place. */
  function FetchToursByPlace(configured: bool, placeId: Option<string>,
                             respond: int -> QueryResult<seq<Tour>>): (r: Result<seq<Tour>, string>)
    ensures CheckedId(configured, placeId, InvalidPlaceId).Err? ==> r == Err(CheckedId(configured, placeId, InvalidPlaceId).error)
    ensures r.Ok? ==> forall t :: t in r.value ==> VisitsPlace(t, CheckedId(configured, placeId, InvalidPlaceId).value)
    ensures CheckedId(configured, placeId, InvalidPlaceId).Ok? ==>
              var n := CheckedId(configured, placeId, InvalidPlaceId).value;
              && (respond(n).error.Some? ==> r == Err(respond(n).error.value))
              && (respond(n).error.None? ==> r == Ok(FilteredTours(respond(n).data, n)))
  {
    match CheckedId(configured, placeId, InvalidPlaceId)
    case Err(message) => Err(message)
    case Ok(n) =>
      var answer := respond(n);
      if answer.error.Some? then Err(answer.error.value) else Ok(FilteredTours(answer.data, n))
  }

  /** A refused id makes no query: the outcome is the same whatever the data store would answer. */
  lemma RefusedIdMakesNoQuery(configured: bool, placeId: Option<string>,
                              respond: int -> QueryResult<seq<Tour>>, other: int -> QueryResult<seq<Tour>>)
    requires CheckedId(configured, placeId, InvalidPlaceId).Err?
    ensures FetchToursByPlace(configured, placeId, respond) == FetchToursByPlace(configured, placeId, other)
  {
  }

  // --------------------------------------------------------- category filter

  /** The `category_id` filter of `usePlaces`: applied only when `categoryId` is set and parses as a number. */
  function CategoryFilter(categoryId: Option<string>): (r: Option<int>)
    ensures r.Some? <==> Truthy(categoryId) && ParseInt(categoryId.value).Some?
    ensures r.Some? ==> ParseInt(categoryId.value) == r
  {
    if Truthy(categoryId) then ParseInt(categoryId.value) else None
  }

  /** A non-numeric `categoryId` silently means no filter; a decimal one filters on its value. */
  lemma CategoryFilterCases(s: string, n: nat)
    requires forall i :: 0 <= i < |s| ==> !IsDigit(s[i])
    ensures CategoryFilter(Some(s)) == None
    ensures CategoryFilter(Some(NatToString(n))) == Some(n)
  {
    ParseIntNoDigits(s);
    ParseIntOfNatToString(n, "");
    assert NatToString(n) + "" == NatToString(n);
  }

  // ------------------------------------------------------------ company logo

  datatype Company = Company(name: string, logoUrl: Option<string>)

  /** The logo of `useCompany`: the first `is_logo` photo of the first returned tour. */
  function CompanyLogo(data: Option<seq<Tour>>): (r: Option<string>)
    ensures r.Some? ==> data.Some? && |data.value| > 0 && data.value[0].tourPhotos.Some?
                        && exists i :: 0 <= i < |data.value[0].tourPhotos.value|
                                       && data.value[0].tourPhotos.value[i].isLogo
                                       && data.value[0].tourPhotos.value[i].url == r.value
    ensures r.None? && data.Some? && |data.value| > 0 && data.value[0].tourPhotos.Some? ==>
              forall i :: 0 <= i < |data.value[0].tourPhotos.value| ==> !data.value[0].tourPhotos.value[i].isLogo
    ensures data.Some? && |data.value| > 0 && data.value[0].tourPhotos.Some? ==>
              r == FirstLogoUrl(data.value[0].tourPhotos.value)
  {
    if data.Some? && |data.value| > 0 && data.value[0].tourPhotos.Some?
    then FirstLogoUrl(data.value[0].tourPhotos.value)
    else None
  }

  /** `fetchCompanyData`: the company is named as requested; its logo comes from its first tour. */
  function FetchCompany(configured: bool, companyName: Option<string>,
                        respond: string -> QueryResult<seq<Tour>>): (r: Result<Company, string>)
    ensures !configured ==> r == Err(NotConfigured)
    ensures configured && !Truthy(companyName) ==> r == Err(InvalidCompanyName)
    ensures r.Ok? ==> Truthy(companyName) && r.value.name == companyName.value
                      && r.value.logoUrl == CompanyLogo(respond(companyName.value).data)
    ensures configured && Truthy(companyName) ==>
              var answer := respond(companyName.value);
              && (answer.error.Some? ==> r == Err(answer.error.value))
              && (answer.error.None? ==> r == Ok(Company(companyName.value, CompanyLogo(answer.data))))
  {
    if !configured then Err(NotConfigured)
    else if !Truthy(companyName) then Err(InvalidCompanyName)
    else
      var answer := respond(companyName.value);
      if answer.error.Some? then Err(answer.error.value)
      else Ok(Company(companyName.value, CompanyLogo(answer.data)))
  }
}

/** What a tour card shows: up to three images, the company logo, and a shortened description. */
module TourCard {
  import opened Wrappers
  import opened Strings
  import opened Rows
  import Supabase

  const MaxImages: nat := 3
  const DescriptionLength: nat := 100

  /** `s.slice(0, n)`. */
  function Take<T>(s: seq<T>, n: nat): (r: seq<T>)
    ensures r <= s && |r| == if |s| <= n then |s| else n
  {
    if |s| <= n then s else s[..n]
  }

  /** `photos.filter(photo => !photo.is_logo).map(photo => photo.url)`. */
  function NonLogoUrls(photos: seq<TourPhoto>): (r: seq<string>)
    ensures |r| <= |photos|
    ensures r == [] <==> forall i :: 0 <= i < |photos| ==> photos[i].isLogo
    ensures forall u :: u in r ==> exists i :: 0 <= i < |photos| && !photos[i].isLogo && photos[i].url == u
    ensures forall i :: 0 <= i < |photos| && !photos[i].isLogo ==> photos[i].url in r
    ensures |photos| == 1 ==> r == if photos[0].isLogo then [] else [photos[0].url]
  {
    if photos == [] then []
    else
      var rest := NonLogoUrls(photos[1..]);
      assert forall i :: 1 <= i < |photos| ==> photos[i] == photos[1..][i - 1];
      if photos[0].isLogo then rest else [photos[0].url] + rest
  }

  /** The filter keeps order and multiplicity: it distributes over concatenation. */
  lemma {:induction false} NonLogoUrlsAppend(a: seq<TourPhoto>, b: seq<TourPhoto>)
    ensures NonLogoUrls(a + b) == NonLogoUrls(a) + NonLogoUrls(b)
  {
    if a == [] {
      assert a + b == b;
    } else {
      assert (a + b)[0] == a[0] && (a + b)[1..] == a[1..] + b;
      NonLogoUrlsAppend(a[1..], b);
    }
  }

  /** The first image is the url of the first photo that is not a logo. */
  lemma {:induction false} NonLogoUrlsStart(photos: seq<TourPhoto>, k: nat)
    requires k < |photos| && !photos[k].isLogo
    requires forall j :: 0 <= j < k ==> photos[j].isLogo
    ensures NonLogoUrls(photos) != [] && NonLogoUrls(photos)[0] == photos[k].url
  {
    if k > 0 {
      NonLogoUrlsStart(photos[1..], k - 1);
    }
  }

  /** The card's own images: at most three non-logo photo urls, in their order. */
  function PhotoImages(tour: Tour): (r: seq<string>)
    ensures |r| <= MaxImages
    ensures tour.tourPhotos.None? ==> r == []
    ensures tour.tourPhotos.Some? ==>
              (&& r <= NonLogoUrls(tour.tourPhotos.value)
               && |r| == if |NonLogoUrls(tour.tourPhotos.value)| <= MaxImages then |NonLogoUrls(tour.tourPhotos.value)| else MaxImages)
    ensures forall u :: u in r ==>
              (&& tour.tourPhotos.Some?
               && exists i :: 0 <= i < |tour.tourPhotos.value| && !tour.tourPhotos.value[i].isLogo && tour.tourPhotos.value[i].url == u)
  {
    if tour.tourPhotos.Some? then
      var urls := NonLogoUrls(tour.tourPhotos.value);
      assert forall u :: u in Take(urls, MaxImages) ==> u in urls;
      Take(urls, MaxImages)
    else []
  }

  /** The filter on places: present, with a non-empty `place_photos` or an `image`. */
  predicate HasImage(place: Option<Place>) {
    && place.Some?
    && ((place.value.placePhotos.Some? && |place.value.placePhotos.value| > 0) || Truthy(place.value.image))
  }

  /** `tour_places.map(tp => tp.places).filter(...)`. */
  function PlacesWithImages(tps: seq<TourPlace>): (r: seq<Place>)
    ensures |r| <= |tps|
    ensures forall p :: p in r ==> HasImage(Some(p)) && exists i :: 0 <= i < |tps| && tps[i].places == Some(p)
    ensures forall i :: 0 <= i < |tps| && HasImage(tps[i].places) ==> tps[i].places.value in r
    ensures |tps| == 1 ==> r == if HasImage(tps[0].places) then [tps[0].places.value] else []
  {
    if tps == [] then []
    else
      var rest := PlacesWithImages(tps[1..]);
      assert forall i :: 1 <= i < |tps| ==> tps[i] == tps[1..][i - 1];
      if HasImage(tps[0].places) then [tps[0].places.value] + rest else rest
  }

  /** The place filter keeps order and multiplicity: it distributes over concatenation. */
  lemma {:induction false} PlacesWithImagesAppend(a: seq<TourPlace>, b: seq<TourPlace>)
    ensures PlacesWithImages(a + b) == PlacesWithImages(a) + PlacesWithImages(b)
  {
    if a == [] {
      assert a + b == b;
    } else {
      assert (a + b)[0] == a[0] && (a + b)[1..] == a[1..] + b;
      PlacesWithImagesAppend(a[1..], b);
    }
  }

  /** A kept place's image: its first photo's url, otherwise its `image`, otherwise null. */
  function PlaceImage(place: Place): Option<string> {
    if place.placePhotos.Some? && |place.placePhotos.value| > 0 then Some(place.placePhotos.value[0].url)
    else if Truthy(place.image) then Some(place.image.value)
    else None
  }

  /** `places.map(PlaceImage).filter(img => img !== null)`. */
  function PlaceImages(places: seq<Place>): (r: seq<string>)
    ensures |r| <= |places|
  {
    if places == [] then []
    else (if PlaceImage(places[0]).Some? then [PlaceImage(places[0]).value] else []) + PlaceImages(places[1..])
  }

  /** The null filter drops nothing: every kept place has an image, in the same order. */
  lemma {:induction false} PlaceImagesKeepsEveryPlace(places: seq<Place>)
    requires forall p :: p in places ==> HasImage(Some(p))
    ensures |PlaceImages(places)| == |places|
    ensures forall i :: 0 <= i < |places| ==> PlaceImage(places[i]) == Some(PlaceImages(places)[i])
  {
    if places != [] {
      assert places[0] in places;
      assert forall p :: p in places[1..] ==> p in places;
      PlaceImagesKeepsEveryPlace(places[1..]);
    }
  }

  /** The fallback to place images. */
  function FallbackImages(tps: seq<TourPlace>): seq<string> {
    PlaceImages(Take(PlacesWithImages(tps), MaxImages))
  }

  /** `tourImages`: the own photos, or the places' images when the tour has none of its own. */
  function TourImages(tour: Tour): (r: seq<string>)
    ensures |r| <= MaxImages
  {
    var own := PhotoImages(tour);
    if |own| == 0 && tour.tourPlaces.Some? then FallbackImages(tour.tourPlaces.value) else own
  }

  /** A tour with a non-logo photo shows its first (up to) three non-logo photos, first one first. */
  lemma TourImagesFromPhotos(tour: Tour, k: nat)
    requires tour.tourPhotos.Some? && k < |tour.tourPhotos.value| && !tour.tourPhotos.value[k].isLogo
    requires forall j :: 0 <= j < k ==> tour.tourPhotos.value[j].isLogo
    ensures TourImages(tour) == Take(NonLogoUrls(tour.tourPhotos.value), MaxImages)
    ensures TourImages(tour) != [] && TourImages(tour)[0] == tour.tourPhotos.value[k].url
  {
    NonLogoUrlsStart(tour.tourPhotos.value, k);
  }

  /**
   * A tour without non-logo photos but with places shows one image for each of
   * its first three places that have one, in order; the fallback is used in no other case.
   */
  lemma TourImagesFromPlaces(tour: Tour)
    requires tour.tourPlaces.Some?
    requires tour.tourPhotos.Some? ==> forall i :: 0 <= i < |tour.tourPhotos.value| ==> tour.tourPhotos.value[i].isLogo
    ensures var kept := Take(PlacesWithImages(tour.tourPlaces.value), MaxImages);
      && TourImages(tour) == FallbackImages(tour.tourPlaces.value)
      && |TourImages(tour)| == |kept|
      && forall i :: 0 <= i < |kept| ==> PlaceImage(kept[i]) == Some(TourImages(tour)[i])
  {
    var kept := Take(PlacesWithImages(tour.tourPlaces.value), MaxImages);
    assert forall p :: p in kept ==> p in PlacesWithImages(tour.tourPlaces.value);
    PlaceImagesKeepsEveryPlace(kept);
  }

  /** The fallback is taken only when the tour's own photos give no image. */
  lemma FallbackOnlyWithoutOwnImages(tour: Tour)
    requires TourImages(tour) != PhotoImages(tour)
    ensures PhotoImages(tour) == [] && tour.tourPlaces.Some?
    ensures tour.tourPhotos.Some? ==> forall i :: 0 <= i < |tour.tourPhotos.value| ==> tour.tourPhotos.value[i].isLogo
  {
  }

  /** `logoUrl`: the url of the first `is_logo` photo, or null. */
  function LogoUrl(tour: Tour): (r: Option<string>)
    ensures r.None? <==> tour.tourPhotos.None? || forall i :: 0 <= i < |tour.tourPhotos.value| ==> !tour.tourPhotos.value[i].isLogo
    ensures r.Some? ==>
              (&& tour.tourPhotos.Some?
               && exists i :: 0 <= i < |tour.tourPhotos.value| && tour.tourPhotos.value[i].isLogo && tour.tourPhotos.value[i].url == r.value
                              && forall j :: 0 <= j < i ==> !tour.tourPhotos.value[j].isLogo)
  {
    if tour.tourPhotos.Some? then FirstLogoUrl(tour.tourPhotos.value) else None
  }

  /**
   * For the same fetched tour row, the company lookup's logo and the card's
   * `logoUrl` agree.
   */
  lemma CompanyLogoIsCardLogo(tours: seq<Tour>)
    requires tours != []
    ensures Supabase.CompanyLogo(Some(tours)) == LogoUrl(tours[0])
  {
  }

  /** `description.substring(0, 100)` followed by `"..."` when the description is longer than 100 characters. */
  function DescriptionPreview(d: string): (r: string)
    ensures Take(d, DescriptionLength) <= r
    ensures |d| <= DescriptionLength ==> r == d
    ensures |d| > DescriptionLength <==> |r| > DescriptionLength
    ensures |r| > DescriptionLength ==> |r| == DescriptionLength + 3 && r[DescriptionLength..] == "..."
  {
    Take(d, DescriptionLength) + (if |d| > DescriptionLength then "..." else "")
  }

  /**
   * What the card renders: its images, the company line (only for a truthy
   * `company`), the logo (only inside the company line, and only for a truthy
   * `logoUrl`) and the description paragraph (only for a truthy description).
   */
  datatype TourCardView = TourCardView(images: seq<string>, company: Option<string>, logo: Option<string>, description: Option<string>)

  /** The logo shown next to the company name. */
  function ShownLogo(t: Tour): Option<string> {
    if Truthy(t.company) && Truthy(LogoUrl(t)) then LogoUrl(t) else None
  }

  /** The card: nothing for a missing tour; the gated company line, logo and description as above. */
  function RenderTourCard(tour: Option<Tour>): (r: Option<TourCardView>)
    ensures r.None? <==> tour.None?
    ensures r.Some? ==> |r.value.images| <= MaxImages && r.value.images == TourImages(tour.value)
    ensures r.Some? ==> (r.value.company.Some? <==> Truthy(tour.value.company))
    ensures r.Some? && r.value.company.Some? ==> r.value.company == tour.value.company
    ensures r.Some? ==> (r.value.logo.Some? <==> Truthy(tour.value.company) && Truthy(LogoUrl(tour.value)))
    ensures r.Some? && r.value.logo.Some? ==> r.value.logo == LogoUrl(tour.value) && r.value.logo.value != ""
    ensures r.Some? ==> (r.value.description.Some? <==> Truthy(tour.value.description))
    ensures r.Some? && r.value.description.Some? ==> r.value.description.value == DescriptionPreview(tour.value.description.value)
  {
    match tour
    case None => None
    case Some(t) =>
      Some(TourCardView(TourImages(t), if Truthy(t.company) then t.company else None, ShownLogo(t),
                        if Truthy(t.description) then Some(DescriptionPreview(t.description.value)) else None))
  }

  /** A tour without a company shows no logo, whatever its photos. */
  lemma NoLogoWithoutCompany(tour: Tour)
    requires !Truthy(tour.company)
    ensures RenderTourCard(Some(tour)).value.logo.None? && RenderTourCard(Some(tour)).value.company.None?
  {
  }
}

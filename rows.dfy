/**
 * The rows the data hooks fetch and the cards display, with only the columns
 * the modelled logic reads. An optional column or joined list is an `Option`:
 * `None` is a missing, `null` or non-array value.
 */
module Rows {
  import opened Wrappers

  datatype PlacePhoto = PlacePhoto(id: int, url: string)

  datatype Place = Place(id: int, image: Option<string>, placePhotos: Option<seq<PlacePhoto>>)

  datatype TourPhoto = TourPhoto(id: int, url: string, isLogo: bool, position: Option<int>)

  /** A `tour_places` entry: its position, its `place_id` column and its joined place. */
  datatype TourPlace = TourPlace(position: Option<int>, placeId: Option<int>, places: Option<Place>)

  datatype Tour = Tour(
    id: int,
    name: string,
    company: Option<string>,
    description: Option<string>,
    tourPlaces: Option<seq<TourPlace>>,
    tourPhotos: Option<seq<TourPhoto>>)

  /** Index of the first photo with `is_logo`, as `photos.find(photo => photo.is_logo)` looks it up. */
  function FirstLogoIndex(photos: seq<TourPhoto>): (r: Option<nat>)
    ensures r.None? <==> forall i :: 0 <= i < |photos| ==> !photos[i].isLogo
    ensures r.Some? ==> r.value < |photos| && photos[r.value].isLogo
                        && forall j :: 0 <= j < r.value ==> !photos[j].isLogo
  {
    if photos == [] then None
    else if photos[0].isLogo then Some(0)
    else match FirstLogoIndex(photos[1..])
      case None => None
      case Some(k) => Some(k + 1)
  }

  /** The url of the first logo photo, or `null` when there is none. */
  function FirstLogoUrl(photos: seq<TourPhoto>): (r: Option<string>)
    ensures r.None? <==> forall i :: 0 <= i < |photos| ==> !photos[i].isLogo
    ensures r.Some? ==> exists i :: 0 <= i < |photos| && photos[i].isLogo && photos[i].url == r.value
                                    && forall j :: 0 <= j < i ==> !photos[j].isLogo
  {
    match FirstLogoIndex(photos)
    case None => None
    case Some(i) => Some(photos[i].url)
  }
}

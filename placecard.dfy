/** What a place card shows: one image and a shortened description. */
module PlaceCard {
  import opened Wrappers
  import opened Strings
  import opened Rows
  import Supabase

  const DescriptionLength: nat := 100

  /**
   * `imageUrl`: the first photo's url when `place_photos` is a non-empty array,
   * else the public URL of `place.image` when it is set, else null.
   */
  function ImageUrl(place: Place, supabaseUrl: Option<string>): (r: Option<string>)
    ensures place.placePhotos.Some? && |place.placePhotos.value| > 0 ==> r == Some(place.placePhotos.value[0].url)
    ensures !(place.placePhotos.Some? && |place.placePhotos.value| > 0) && Truthy(place.image)
            ==> r == Supabase.GetImageUrl(place.image.value, supabaseUrl)
    ensures !(place.placePhotos.Some? && |place.placePhotos.value| > 0) && !Truthy(place.image) ==> r.None?
  {
    if place.placePhotos.Some? && |place.placePhotos.value| > 0 then Some(place.placePhotos.value[0].url)
    else if Truthy(place.image) then Supabase.GetImageUrl(place.image.value, supabaseUrl)
    else None
  }

  /** The `<img>` is rendered only for a non-empty `imageUrl`. */
  predicate ShowsImage(place: Place, supabaseUrl: Option<string>) {
    Truthy(ImageUrl(place, supabaseUrl))
  }

  /** A place with neither photos nor image shows no picture, whatever the storage URL. */
  lemma NoPictureWithoutImage(place: Place, supabaseUrl: Option<string>)
    requires place.placePhotos.None? || place.placePhotos.value == []
    requires !Truthy(place.image)
    ensures !ShowsImage(place, supabaseUrl)
  {
  }

  /** Keeping only the first photo for list views never changes what the card shows. */
  lemma LimitedPhotosKeepImage(place: Place, supabaseUrl: Option<string>)
    ensures ImageUrl(Supabase.LimitPhotos(place), supabaseUrl) == ImageUrl(place, supabaseUrl)
  {
  }

  /** The description's first 100 characters, always followed by `"...."`. */
  function DescriptionPreview(d: string): (r: string)
    ensures |r| == (if |d| <= DescriptionLength then |d| else DescriptionLength) + 4
    ensures r[..|r| - 4] <= d && r[|r| - 4..] == "...."
  {
    (if |d| <= DescriptionLength then d else d[..DescriptionLength]) + "...."
  }
}

/**
 * Attributes of the tiled-gallery block and the pure list transforms that
 * the editor component (tiled-gallery/edit.jsx) applies to them before it
 * hands a patch to the host's `setAttributes`.
 *
 * An image is a plain object with arbitrary keys: object spread is map
 * union (`m + patch`, the patch wins), lodash `pick` is restriction to a
 * key set, and reading a missing key gives `undefined` (`Js.Get`).
 */
module GalleryAttributes {
  import opened Js

  type Image = map<string, JsValue>

  /** The fields kept when images come back from the media library. */
  const PickedFields: set<string> := {"alt", "caption", "id", "link", "url"}

  datatype Attributes = Attributes(
    images: seq<Image>,
    columns: Option<int>,      // `undefined` until the user picks a column count
    imageCrop: bool,
    layout: Option<string>,
    linkTo: Option<string>,
    align: Option<string>)

  /** Column count used when none is set: three, or fewer when there are fewer images. */
  function DefaultColumnsNumber(attributes: Attributes): (n: nat)
    ensures n <= 3 && n <= |attributes.images|
    ensures n == 3 || n == |attributes.images|
  {
    if |attributes.images| < 3 then |attributes.images| else 3
  }

  const MaxColumns: nat := 8

  /**
   * `columns = defaultColumnsNumber( attributes )` in a destructuring: the
   * default applies only when `columns` is `undefined`, so a stored 0 stays 0.
   */
  function EffectiveColumns(attributes: Attributes): (n: int)
    ensures attributes.columns.Some? ==> n == attributes.columns.value
    ensures attributes.columns.None? ==> n == DefaultColumnsNumber(attributes)
    ensures attributes.columns.None? ==> 0 <= n <= 3 && n <= |attributes.images|
  {
    attributes.columns.GetOr(DefaultColumnsNumber(attributes))
  }

  /** The columns range control is shown only for two or more images; it runs from 1 to `min( MAX_COLUMNS, count )`. */
  function ColumnsControlMax(attributes: Attributes): (max: Option<nat>)
    ensures max.Some? <==> |attributes.images| > 1
    ensures max.Some? ==> 2 <= max.value <= MaxColumns && max.value <= |attributes.images|
    ensures max.Some? ==> max.value == MaxColumns || max.value == |attributes.images|
  {
    if |attributes.images| > 1 then
      Some(if MaxColumns < |attributes.images| then MaxColumns else |attributes.images|)
    else
      None
  }

  /** `filter( s, ( x, i ) => index !== i )`: every element whose position is not `index`. */
  function DropIndex<T>(s: seq<T>, index: int): (r: seq<T>)
    ensures |r| == if 0 <= index < |s| then |s| - 1 else |s|
    ensures forall x :: x in r ==> x in s
    decreases |s|
  {
    if s == [] then []
    else (if index == 0 then [] else [s[0]]) + DropIndex(s[1..], index - 1)
  }

  /** Dropping a position removes exactly that element; an index outside the list removes nothing. */
  lemma {:induction false} DropIndexSpec<T>(s: seq<T>, index: int)
    ensures 0 <= index < |s| ==> DropIndex(s, index) == s[..index] + s[index + 1..]
    ensures !(0 <= index < |s|) ==> DropIndex(s, index) == s
    decreases |s|
  {
    if s != [] {
      DropIndexSpec(s[1..], index - 1);
      if index == 0 {
        assert s[index + 1..] == s[1..];
      } else if 0 < index < |s| {
        calc {
          DropIndex(s, index);
          [s[0]] + (s[1..][..index - 1] + s[1..][index..]);
          { assert [s[0]] + s[1..][..index - 1] == s[..index]; assert s[1..][index..] == s[index + 1..]; }
          s[..index] + s[index + 1..];
        }
      } else {
        assert [s[0]] + s[1..] == s;
      }
    }
  }

  /**
   * `columns ? Math.min( count, columns ) : columns`: a set column count is
   * clamped to the new image count; an unset or zero count is kept as it is.
   */
  function ReclampColumns(columns: Option<int>, count: nat): (c: Option<int>)
    ensures columns.Some? && columns.value != 0 ==>
      c.Some? && c.value <= count && c.value <= columns.value && (c.value == count || c.value == columns.value)
    ensures columns.None? || columns.value == 0 ==> c == columns
  {
    match columns
    case Some(n) => if n != 0 then Some(if count < n then count else n) else columns
    case None => columns
  }

  /** The attribute patch of removing the image at `index`. */
  function RemoveImage(attributes: Attributes, index: int): (r: Attributes)
    ensures 0 <= index < |attributes.images| ==>
      r.images == attributes.images[..index] + attributes.images[index + 1..]
    ensures !(0 <= index < |attributes.images|) ==> r.images == attributes.images
    ensures attributes.columns.Some? && attributes.columns.value > 0 ==>
      r.columns.Some? && 0 <= r.columns.value <= |r.images|
    ensures r.columns == ReclampColumns(attributes.columns, |r.images|)
    ensures r == attributes.(images := r.images, columns := r.columns)
  {
    var images := DropIndex(attributes.images, index);
    DropIndexSpec(attributes.images, index);
    attributes.(images := images, columns := ReclampColumns(attributes.columns, |images|))
  }

  /**
   * `[ ...images.slice( 0, index ), { ...images[ index ], ...patch }, ...images.slice( index + 1 ) ]`,
   * or nothing at all when `images[ index ]` holds no image.
   */
  function MergeAt(images: seq<Image>, index: int, patch: Image): (r: seq<Image>)
    ensures !(0 <= index < |images|) ==> r == images
    ensures |r| == |images|
    ensures forall j :: 0 <= j < |images| && j != index ==> r[j] == images[j]
    ensures 0 <= index < |images| ==> r[index].Keys == images[index].Keys + patch.Keys
    ensures 0 <= index < |images| ==>
      forall k :: k in r[index] ==> r[index][k] == if k in patch then patch[k] else images[index][k]
  {
    if 0 <= index < |images| then
      images[..index] + [images[index] + patch] + images[index + 1..]
    else
      images
  }

  /** `( images || [] ).concat( uploaded )`: the current images, then the uploaded ones. */
  function AppendUploaded(current: Option<seq<Image>>, uploaded: seq<Image>): (r: seq<Image>)
    ensures current.None? ==> r == uploaded
    ensures current.Some? ==> |r| == |current.value| + |uploaded|
    ensures current.Some? ==> r[..|current.value|] == current.value && r[|current.value|..] == uploaded
  {
    current.GetOr([]) + uploaded
  }

  /** `pick( image, [ 'alt', 'caption', 'id', 'link', 'url' ] )`. */
  function PickImage(image: Image): (r: Image)
    ensures r.Keys == image.Keys * PickedFields
    ensures forall k :: k in r ==> r[k] == image[k]
  {
    map k | k in image && k in PickedFields :: image[k]
  }

  /** `images.map( image => pick( image, … ) )`: same count and order, each image cut down to the five fields. */
  function PickImages(images: seq<Image>): (r: seq<Image>)
    ensures |r| == |images|
    ensures forall i :: 0 <= i < |r| ==> r[i].Keys == images[i].Keys * PickedFields
    ensures forall i, k :: 0 <= i < |r| && k in r[i] ==> r[i][k] == images[i][k]
  {
    seq(|images|, i requires 0 <= i < |images| => PickImage(images[i]))
  }

  /** Picking is idempotent: images already cut down come back unchanged. */
  lemma PickImagesIdempotent(images: seq<Image>)
    ensures PickImages(PickImages(images)) == PickImages(images)
  {
    var once := PickImages(images);
    var twice := PickImages(once);
    forall i | 0 <= i < |images| ensures twice[i] == once[i] {
      assert twice[i].Keys == once[i].Keys;
    }
  }

  /** `! imageCrop`. */
  function ToggleCrop(attributes: Attributes): (r: Attributes)
    ensures r.imageCrop != attributes.imageCrop
    ensures r == attributes.(imageCrop := r.imageCrop)
  {
    attributes.(imageCrop := !attributes.imageCrop)
  }

  lemma ToggleCropInvolutive(attributes: Attributes)
    ensures ToggleCrop(ToggleCrop(attributes)) == attributes
  {
  }
}

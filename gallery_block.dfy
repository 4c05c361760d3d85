/**
 * The tiled-gallery block registration of tiled-gallery/editor.js: the
 * attribute schema (its defaults and the `<img>` attributes its queries read
 * images back from) and the `save` the block is registered with.
 *
 * Reading attributes back from saved markup is the host's job; only the
 * correspondence between the written `<img>` attributes and the image fields
 * is modelled: an attribute the host finds in the markup reads back as its
 * text, a missing one as the field's default (`''` for `alt`, `undefined`
 * otherwise), and the figcaption's children as the caption value.
 */
module GalleryBlock {
  import opened Js
  import opened GalleryAttributes
  import opened GallerySave

  /** Attribute values as found in the block's comment delimiter and markup, before defaults. */
  datatype StoredAttributes = StoredAttributes(
    images: Option<seq<Image>>,
    columns: Option<int>,
    imageCrop: Option<bool>,
    layout: Option<string>,
    linkTo: Option<string>,
    align: Option<string>)

  /** The schema's defaults: images `[]`, imageCrop `true`, layout `'rectangular'`, linkTo `'none'`; columns has none. */
  function WithDefaults(stored: StoredAttributes): (a: Attributes)
    ensures a.images == (if stored.images.Some? then stored.images.value else [])
    ensures a.imageCrop == (if stored.imageCrop.Some? then stored.imageCrop.value else true)
    ensures a.layout == (if stored.layout.Some? then stored.layout else Some("rectangular"))
    ensures a.linkTo == (if stored.linkTo.Some? then stored.linkTo else Some("none"))
    ensures a.columns == stored.columns && a.align == stored.align
  {
    Attributes(
      stored.images.GetOr([]),
      stored.columns,
      stored.imageCrop.GetOr(true),
      Some(stored.layout.GetOr("rectangular")),
      Some(stored.linkTo.GetOr("none")),
      stored.align)
  }

  function EditorSaveItem(image: Image, linkTo: Option<string>, className: Option<string>): Item {
    Item(ItemKey(image), [OptionText(className) + "__item"], Anchor(Href(linkTo, image)), RenderImg(image), Figcaption(image))
  }

  /** The `save` of the block settings in tiled-gallery/editor.js. */
  function Save(attributes: Attributes, className: Option<string>): (list: GalleryList)
    ensures className.Some? && className.value != "" ==> |list.classes| > 0 && list.classes[0] == className.value
    ensures className.None? ==>
      |list.classes| > 0 && list.classes[0] == "columns-" + IntToString(EffectiveColumns(attributes))
    ensures "columns-" + IntToString(EffectiveColumns(attributes)) in list.classes
    ensures forall c :: c in list.classes ==>
      c in ClassToken(className) || c == "columns-" + IntToString(EffectiveColumns(attributes)) || c == "is-cropped"
    ensures attributes.imageCrop ==> "is-cropped" in list.classes
    ensures !attributes.imageCrop && className != Some("is-cropped") ==> "is-cropped" !in list.classes
    ensures |list.items| == |attributes.images|
    ensures forall i :: 0 <= i < |list.items| ==> list.items[i].classes == [OptionText(className) + "__item"]
    ensures forall i :: 0 <= i < |list.items| ==>
      list.items[i].key == ItemKey(attributes.images[i]) &&
      list.items[i].img == RenderImg(attributes.images[i]) &&
      list.items[i].anchor == Anchor(Href(attributes.linkTo, attributes.images[i])) &&
      list.items[i].figcaption == Figcaption(attributes.images[i])
  {
    var columnsClass := "columns-" + IntToString(EffectiveColumns(attributes));
    assert columnsClass != "is-cropped" by {
      assert columnsClass[0] == 'c';
    }
    var images := attributes.images;
    GalleryList(
      ClassToken(className) + [columnsClass] + (if attributes.imageCrop then ["is-cropped"] else []),
      seq(|images|, i requires 0 <= i < |images| => EditorSaveItem(images[i], attributes.linkTo, className)))
  }

  // ---- Reading images back: the `images` query of the schema ----

  const BlockClass: string := "wp-block-a8c-tiled-gallery"
  const ItemClass: string := "wp-block-a8c-tiled-gallery__item"

  /** How React writes a prop as an HTML attribute: `null` and `undefined` leave it out, anything else is its text. */
  function HtmlAttribute(v: JsValue): Option<string> {
    if IsNullish(v) then None else Some(ToStr(v))
  }

  /** A `source: 'attribute'` query: the attribute's text, or the field's default when it is missing. */
  function ReadAttribute(attribute: Option<string>, default: JsValue): JsValue {
    match attribute
    case Some(text) => Str(text)
    case None => default
  }

  /** The schema's `query` applied to one item: url from `src`, link from `data-link`, alt from `alt` (default `''`), id from `data-id`, caption from the figcaption. */
  function ReadImage(item: Item): (image: Image)
    ensures image.Keys == PickedFields
    ensures image["alt"].Str?
    ensures image["alt"] == if IsNullish(item.img.alt) then Str("") else Str(ToStr(item.img.alt))
    ensures image["url"] == Restored(item.img.src)
    ensures image["link"] == Restored(item.img.dataLink)
    ensures image["id"] == Restored(item.img.dataId)
    ensures image["caption"] == item.figcaption.GetOr(Undefined)
    ensures IsNullish(item.img.src) <==> image["url"] == Undefined
  {
    map[
      "url" := ReadAttribute(HtmlAttribute(item.img.src), Undefined),
      "link" := ReadAttribute(HtmlAttribute(item.img.dataLink), Undefined),
      "alt" := ReadAttribute(HtmlAttribute(item.img.alt), Str("")),
      "id" := ReadAttribute(HtmlAttribute(item.img.dataId), Undefined),
      "caption" := item.figcaption.GetOr(Undefined)]
  }

  /** The items matching `.wp-block-a8c-tiled-gallery__item`, in document order, each read back. */
  function QueryItems(items: seq<Item>): (images: seq<Image>)
    ensures |images| <= |items|
    ensures forall i :: 0 <= i < |images| ==> images[i].Keys == PickedFields
    decreases |items|
  {
    if items == [] then []
    else (if ItemClass in items[0].classes then [ReadImage(items[0])] else []) + QueryItems(items[1..])
  }

  /** The `images` attribute read from `ul.wp-block-a8c-tiled-gallery .wp-block-a8c-tiled-gallery__item`. */
  function QueryImages(list: GalleryList): (images: seq<Image>)
    ensures BlockClass !in list.classes ==> images == []
    ensures |images| <= |list.items|
    ensures forall i :: 0 <= i < |images| ==> images[i].Keys == PickedFields
  {
    if BlockClass in list.classes then QueryItems(list.items) else []
  }

  /** When every item carries the item class, the query reads one image per item, in order. */
  lemma {:induction false} QueryAllItems(items: seq<Item>)
    requires forall i :: 0 <= i < |items| ==> ItemClass in items[i].classes
    ensures |QueryItems(items)| == |items|
    ensures forall i :: 0 <= i < |items| ==> QueryItems(items)[i] == ReadImage(items[i])
    decreases |items|
  {
    if items != [] {
      QueryAllItems(items[1..]);
    }
  }

  /** When no item carries the item class, the query reads nothing. */
  lemma {:induction false} QueryNoItems(items: seq<Item>)
    requires forall i :: 0 <= i < |items| ==> ItemClass !in items[i].classes
    ensures QueryItems(items) == []
    decreases |items|
  {
    if items != [] {
      QueryNoItems(items[1..]);
    }
  }

  /** A field value after being written as an HTML attribute and read back: its text, or `undefined` if it was left out. */
  function Restored(v: JsValue): (r: JsValue)
    ensures v.Str? ==> r == v
    ensures v.Undefined? ==> r == Undefined
  {
    if IsNullish(v) then Undefined else Str(ToStr(v))
  }

  /** The image the schema reads back from the item `save` writes for `image`. */
  function ReadBack(image: Image): Image {
    map[
      "url" := Restored(Get(image, "url")),
      "link" := Restored(Get(image, "link")),
      "alt" := if IsNullish(Get(image, "alt")) then Str("") else Str(ToStr(Get(image, "alt"))),
      "id" := Restored(Get(image, "id")),
      "caption" := Figcaption(image).GetOr(Undefined)]
  }

  /**
   * Round trip of the registered `save`: with the block's own class name,
   * reading the saved markup back gives one image per saved image, in order,
   * whose url, link, alt, id and caption are the saved ones as the markup
   * carries them.
   */
  lemma SaveThenQuery(attributes: Attributes)
    ensures |QueryImages(Save(attributes, Some(BlockClass)))| == |attributes.images|
    ensures forall i :: 0 <= i < |attributes.images| ==>
      QueryImages(Save(attributes, Some(BlockClass)))[i] == ReadBack(attributes.images[i])
  {
    var list := Save(attributes, Some(BlockClass));
    assert list.classes[0] == BlockClass;
    assert BlockClass + "__item" == ItemClass;
    QueryAllItems(list.items);
  }

  /** The same round trip for the markup of tiled-gallery/save.jsx, whose items carry the item class first. */
  lemma GallerySaveThenQuery(attributes: Attributes)
    ensures |QueryImages(GallerySave.Save(attributes, Some(BlockClass)))| == |attributes.images|
    ensures forall i :: 0 <= i < |attributes.images| ==>
      QueryImages(GallerySave.Save(attributes, Some(BlockClass)))[i] == ReadBack(attributes.images[i])
  {
    var list := GallerySave.Save(attributes, Some(BlockClass));
    assert list.classes[0] == BlockClass;
    assert BlockClass + "__item" == ItemClass;
    QueryAllItems(list.items);
  }

  /** An image whose url, link and id are text or absent, whose alt is text, and whose caption is absent or non-empty. */
  predicate TextImage(image: Image) {
    && (Get(image, "url").Str? || Get(image, "url").Undefined?)
    && (Get(image, "link").Str? || Get(image, "link").Undefined?)
    && (Get(image, "id").Str? || Get(image, "id").Undefined?)
    && Get(image, "alt").Str?
    && (Get(image, "caption").Undefined? || (Truthy(Get(image, "caption")) && HasPositiveLength(Get(image, "caption"))))
  }

  /** For such images the fields read back are exactly the fields saved. */
  lemma TextImageReadBack(image: Image)
    requires TextImage(image)
    ensures forall k :: k in PickedFields ==> Get(ReadBack(image), k) == Get(image, k)
  {
    var read := ReadBack(image);
    assert Get(read, "url") == Get(image, "url");
    assert Get(read, "link") == Get(image, "link");
    assert Get(read, "alt") == Get(image, "alt");
    assert Get(read, "id") == Get(image, "id");
    assert Get(read, "caption") == Get(image, "caption");
  }

  /** Hence saving text images with the registered `save` and reading them back restores their five fields. */
  lemma TextImageRoundTrip(attributes: Attributes, i: nat)
    requires i < |attributes.images| && TextImage(attributes.images[i])
    ensures i < |QueryImages(Save(attributes, Some(BlockClass)))|
    ensures forall k :: k in PickedFields ==>
      Get(QueryImages(Save(attributes, Some(BlockClass)))[i], k) == Get(attributes.images[i], k)
  {
    SaveThenQuery(attributes);
    TextImageReadBack(attributes.images[i]);
  }

  /** A numeric id comes back as text, but distinct non-negative ids stay distinct. */
  lemma NumericIdsStayDistinct(a: nat, b: nat)
    requires a != b
    ensures Restored(Num(a)) != Restored(Num(b))
  {
    NatToStringInjective(a, b);
  }

  /** With any other class name the items miss the queried class, and nothing is read back. */
  lemma SaveWithOtherClassNameReadsNothing(attributes: Attributes, className: Option<string>)
    requires OptionText(className) + "__item" != ItemClass
    ensures QueryImages(Save(attributes, className)) == []
  {
    var list := Save(attributes, className);
    QueryNoItems(list.items);
  }

  /** Without a class name the items are written as `undefined__item`, so nothing is read back either. */
  lemma SaveWithoutClassNameReadsNothing(attributes: Attributes)
    ensures QueryImages(Save(attributes, None)) == []
  {
    assert (OptionText(None) + "__item")[0] != ItemClass[0];
    SaveWithOtherClassNameReadsNothing(attributes, None);
  }
}

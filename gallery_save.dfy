/**
 * The markup the tiled-gallery `save` function of tiled-gallery/save.jsx
 * writes, as a value: the `<ul>` class tokens and one `<li>` item per image
 * holding an `<img>`, an optional `<a>` around it and an optional
 * `<figcaption>`.  The element shapes and the per-image helpers are shared
 * with the `save` registered in tiled-gallery/editor.js (module GalleryBlock).
 */
module GallerySave {
  import opened Js
  import opened GalleryAttributes

  /** The props of the `<img>`; `classes` are the tokens `classnames` produces. */
  datatype ImgElement = ImgElement(src: JsValue, alt: JsValue, dataId: JsValue, dataLink: JsValue, classes: seq<string>)

  /** One `<li>`: its React key, its class tokens, the anchor's href if there is one, the image and the caption. */
  datatype Item = Item(key: JsValue, classes: seq<string>, anchor: Option<JsValue>, img: ImgElement, figcaption: Option<JsValue>)

  datatype GalleryList = GalleryList(classes: seq<string>, items: seq<Item>)

  /** The `switch ( linkTo )` choosing where an image links to; any other value leaves `href` undefined. */
  function Href(linkTo: Option<string>, image: Image): (href: JsValue)
    ensures linkTo == Some("media") ==> href == Get(image, "url")
    ensures linkTo == Some("attachment") ==> href == Get(image, "link")
    ensures linkTo != Some("media") && linkTo != Some("attachment") ==> href == Undefined
  {
    match linkTo
    case Some(target) =>
      if target == "media" then Get(image, "url")
      else if target == "attachment" then Get(image, "link")
      else Undefined
    case None => Undefined
  }

  /** `href ? <a href={ href }>{ img }</a> : img`. */
  function Anchor(href: JsValue): (a: Option<JsValue>)
    ensures a.Some? <==> Truthy(href)
    ensures a.Some? ==> a.value == href
  {
    if Truthy(href) then Some(href) else None
  }

  /** `classnames( { [ `wp-image-${ id }` ]: id } )`. */
  function ImageClasses(id: JsValue): (c: seq<string>)
    ensures |c| > 0 <==> Truthy(id)
    ensures Truthy(id) ==> c == ["wp-image-" + ToStr(id)]
  {
    if Truthy(id) then ["wp-image-" + ToStr(id)] else []
  }

  function RenderImg(image: Image): (img: ImgElement)
    ensures img.src == Get(image, "url") && img.alt == Get(image, "alt")
    ensures img.dataId == Get(image, "id") && img.dataLink == Get(image, "link")
    ensures img.classes == ImageClasses(Get(image, "id"))
  {
    ImgElement(Get(image, "url"), Get(image, "alt"), Get(image, "id"), Get(image, "link"), ImageClasses(Get(image, "id")))
  }

  /** `image.caption && image.caption.length > 0 && <figcaption>`. */
  function Figcaption(image: Image): (f: Option<JsValue>)
    ensures f.Some? <==> Truthy(Get(image, "caption")) && HasPositiveLength(Get(image, "caption"))
    ensures f.Some? ==> f.value == Get(image, "caption")
  {
    var caption := Get(image, "caption");
    if Truthy(caption) && HasPositiveLength(caption) then Some(caption) else None
  }

  /** `image.id || image.url`. */
  function ItemKey(image: Image): (key: JsValue)
    ensures Truthy(Get(image, "id")) ==> key == Get(image, "id")
    ensures !Truthy(Get(image, "id")) ==> key == Get(image, "url")
  {
    if Truthy(Get(image, "id")) then Get(image, "id") else Get(image, "url")
  }

  /**
   * The `layout-…` token: the layout, or (as written) the default column
   * count when the layout is unset, which is a single digit from 0 to 3.
   */
  function LayoutText(attributes: Attributes): (t: string)
    ensures attributes.layout.Some? ==> t == attributes.layout.value
    ensures attributes.layout.None? ==> t == NatToString(DefaultColumnsNumber(attributes))
    ensures attributes.layout.None? ==> t in ["0", "1", "2", "3"]
  {
    match attributes.layout
    case Some(layout) => layout
    case None => NatToString(DefaultColumnsNumber(attributes))
  }

  function SaveItem(image: Image, index: nat, linkTo: Option<string>, className: Option<string>): Item {
    Item(
      ItemKey(image),
      [OptionText(className) + "__item", OptionText(className) + "__item-" + NatToString(index)],
      Anchor(Href(linkTo, image)),
      RenderImg(image),
      Figcaption(image))
  }

  /**
   * The save of tiled-gallery/save.jsx.  An absent `className` is dropped by
   * `classnames` but written as `undefined` by the item templates.
   */
  function Save(attributes: Attributes, className: Option<string>): (list: GalleryList)
    ensures className.Some? && className.value != "" ==> |list.classes| > 0 && list.classes[0] == className.value
    ensures className.None? ==> |list.classes| > 0 && list.classes[0] == "layout-" + LayoutText(attributes)
    ensures "layout-" + LayoutText(attributes) in list.classes
    ensures "columns-" + OptionIntText(attributes.columns) in list.classes
    ensures forall c :: c in list.classes ==>
      c in ClassToken(className) || c == "layout-" + LayoutText(attributes)
      || c == "columns-" + OptionIntText(attributes.columns) || c == "is-cropped"
    ensures attributes.imageCrop ==> "is-cropped" in list.classes
    ensures !attributes.imageCrop && className != Some("is-cropped") ==> "is-cropped" !in list.classes
    ensures |list.items| == |attributes.images|
    ensures forall i :: 0 <= i < |list.items| ==>
      list.items[i].classes == [OptionText(className) + "__item", OptionText(className) + "__item-" + NatToString(i)]
    ensures forall i :: 0 <= i < |list.items| ==>
      list.items[i].key == ItemKey(attributes.images[i]) &&
      list.items[i].img == RenderImg(attributes.images[i]) &&
      list.items[i].anchor == Anchor(Href(attributes.linkTo, attributes.images[i])) &&
      list.items[i].figcaption == Figcaption(attributes.images[i])
  {
    var classes := ClassToken(className)
      + ["layout-" + LayoutText(attributes), "columns-" + OptionIntText(attributes.columns)]
      + (if attributes.imageCrop then ["is-cropped"] else []);
    assert "layout-" + LayoutText(attributes) != "is-cropped" by {
      assert ("layout-" + LayoutText(attributes))[0] == 'l';
    }
    assert "columns-" + OptionIntText(attributes.columns) != "is-cropped" by {
      assert ("columns-" + OptionIntText(attributes.columns))[0] == 'c';
    }
    var images := attributes.images;
    GalleryList(
      classes,
      seq(|images|, i requires 0 <= i < |images| => SaveItem(images[i], i, attributes.linkTo, className)))
  }
}

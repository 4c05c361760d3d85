/**
 * The per-image style rules of tiled-gallery/layout-styles.jsx.  The
 * component picks one of three layout functions by the `layout` prop, lets
 * it split the images into rows of sized tiles, and then walks the rows
 * with one counter `nth` that numbers every tile across all rows.
 *
 * The layout functions live in a file that is not part of this model and
 * compute with floating point; they are parameters here (`Layouts`), and a
 * tile's size is a `real`.  A rule is kept as its (nth, width, height)
 * rather than as CSS text.
 */
module LayoutStyles {
  import opened Js
  import opened GalleryAttributes
  import GallerySave

  datatype Tile = Tile(width: real, height: real)
  datatype Row = Row(images: seq<Tile>)

  /** The options object handed to a layout function. */
  datatype LayoutOptions = LayoutOptions(columns: Option<int>, maxWidth: JsValue, images: seq<Image>, margin: JsValue)

  /** The three layout functions of the gallery's layouts file. */
  datatype Layouts = Layouts(
    masonry: LayoutOptions -> seq<Row>,
    circles: LayoutOptions -> seq<Row>,
    squares: LayoutOptions -> seq<Row>)

  datatype LayoutKind = Masonry | Circles | Squares

  /** `.${ className }__item-${ nth } { width: …px; height: …px; }` */
  datatype StyleRule = StyleRule(nth: nat, width: real, height: real)

  /** The `switch ( layout )`: only `'masonry'` and `'circles'` have their own case; everything else is squares. */
  function SelectLayout(layout: Option<string>): (kind: LayoutKind)
    ensures kind == Masonry <==> layout == Some("masonry")
    ensures kind == Circles <==> layout == Some("circles")
    ensures kind == Squares <==> layout != Some("masonry") && layout != Some("circles")
  {
    match layout
    case Some(name) => if name == "masonry" then Masonry else if name == "circles" then Circles else Squares
    case None => Squares
  }

  /** None of the layouts the editor offers is one of the dispatched names, so all four are laid out as squares. */
  lemma OfferedLayoutsUseSquares()
    ensures SelectLayout(Some("rectangular")) == Squares
    ensures SelectLayout(Some("square")) == Squares
    ensures SelectLayout(Some("circle")) == Squares
    ensures SelectLayout(Some("columns")) == Squares
  {
  }

  function LayoutRows(layouts: Layouts, layout: Option<string>, options: LayoutOptions): seq<Row> {
    match SelectLayout(layout)
    case Masonry => layouts.masonry(options)
    case Circles => layouts.circles(options)
    case Squares => layouts.squares(options)
  }

  /** All tiles in row order, then in-row order. */
  function Flatten(rows: seq<Row>): seq<Tile>
    decreases |rows|
  {
    if rows == [] then [] else Flatten(rows[..|rows| - 1]) + rows[|rows| - 1].images
  }

  lemma {:induction false} FlattenAppend(a: seq<Row>, b: seq<Row>)
    ensures Flatten(a + b) == Flatten(a) + Flatten(b)
    decreases |b|
  {
    if b == [] {
      assert a + b == a;
    } else {
      assert (a + b)[..|a + b| - 1] == a + b[..|b| - 1];
      FlattenAppend(a, b[..|b| - 1]);
    }
  }

  /** The rule for every tile, numbered from 0 in the order of `tiles`. */
  function Numbered(tiles: seq<Tile>): (rules: seq<StyleRule>)
    ensures |rules| == |tiles|
    ensures forall k :: 0 <= k < |tiles| ==> rules[k] == StyleRule(k, tiles[k].width, tiles[k].height)
  {
    seq(|tiles|, k requires 0 <= k < |tiles| => StyleRule(k, tiles[k].width, tiles[k].height))
  }

  /** The rules the component emits for a list of rows. */
  function Rules(rows: seq<Row>): seq<StyleRule> {
    Numbered(Flatten(rows))
  }

  /**
   * The counter runs on across rows: the image at position `j` of row `r`
   * gets the number of all images in earlier rows plus `j`, and its rule
   * carries that image's width and height.
   */
  lemma RuleOfRowImage(rows: seq<Row>, r: nat, j: nat)
    requires r < |rows| && j < |rows[r].images|
    ensures var nth := |Flatten(rows[..r])| + j;
      nth < |Rules(rows)| &&
      Rules(rows)[nth] == StyleRule(nth, rows[r].images[j].width, rows[r].images[j].height)
  {
    assert rows == rows[..r] + [rows[r]] + rows[r + 1..];
    FlattenAppend(rows[..r] + [rows[r]], rows[r + 1..]);
    FlattenAppend(rows[..r], [rows[r]]);
    assert Flatten([rows[r]]) == rows[r].images by {
      assert [rows[r]][..0] == [];
    }
  }

  /**
   * `LayoutStyles.render`: nothing for an empty image list; otherwise the
   * chosen layout function gets `columns`, `images` and `margin` unchanged and
   * `maxWidth` from the editor settings, and one rule per laid-out tile is
   * emitted with `nth` counting on across rows.
   */
  method Render(columns: Option<int>, images: seq<Image>, layout: Option<string>, margin: JsValue,
                maxWidth: JsValue, layouts: Layouts)
    returns (styles: Option<seq<StyleRule>>)
    ensures |images| == 0 <==> styles.None?
    ensures |images| > 0 ==>
      styles == Some(Rules(LayoutRows(layouts, layout, LayoutOptions(columns, maxWidth, images, margin))))
  {
    if |images| == 0 {
      return None;
    }
    var layoutOptions := LayoutOptions(columns, maxWidth, images, margin);
    var rows: seq<Row> := [];
    if layout == Some("masonry") {
      rows := layouts.masonry(layoutOptions);
    } else if layout == Some("circles") {
      rows := layouts.circles(layoutOptions);
    } else {
      rows := layouts.squares(layoutOptions);
    }

    var rules: seq<StyleRule> := [];
    var nth := 0;
    var r := 0;
    while r < |rows|
      invariant 0 <= r <= |rows|
      invariant nth == |rules|
      invariant rules == Numbered(Flatten(rows[..r]))
    {
      var row := rows[r];
      var j := 0;
      while j < |row.images|
        invariant 0 <= j <= |row.images|
        invariant nth == |rules|
        invariant rules == Numbered(Flatten(rows[..r]) + row.images[..j])
      {
        var image := row.images[j];
        rules := rules + [StyleRule(nth, image.width, image.height)];
        nth := nth + 1;
        assert Flatten(rows[..r]) + row.images[..j + 1] == Flatten(rows[..r]) + row.images[..j] + [image];
        j := j + 1;
      }
      assert row.images[..j] == row.images;
      assert rows[..r + 1][..r] == rows[..r];
      r := r + 1;
    }
    assert rows[..r] == rows;
    styles := Some(rules);
  }

  /**
   * Rule `k` selects the `k`-th item's indexed class, as both the editor's
   * item list (edit.jsx) and the saved markup (save.jsx) write it.
   */
  lemma RuleTargetsSavedItem(attributes: Attributes, className: Option<string>, rows: seq<Row>, k: nat)
    requires k < |attributes.images| && k < |Rules(rows)|
    ensures GallerySave.Save(attributes, className).items[k].classes[1]
      == OptionText(className) + "__item-" + NatToString(Rules(rows)[k].nth)
  {
  }
}

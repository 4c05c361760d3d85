# Tiled gallery, related posts and importer upload pane — a Dafny model

This project models the statable logic inside three editor blocks and one
importer panel of a WordPress.com client:

- **Tiled gallery block.** The editor component keeps an ordered list of images plus
  `columns`, `imageCrop`, `layout`, `linkTo` and `align`, and a `selectedImage`
  cursor. It removes, merges, appends and replaces images and pushes each
  change to the host as an attribute patch (`GalleryAttributes`, and
  `GalleryEdit.TiledGalleryEdit` for the component state).
- **Tiled gallery markup.** The block writes its images into the markup.
  `GallerySave` models save.jsx. `GalleryBlock` models the `save` that editor.js
  registers, the attribute schema's defaults, and the schema queries that read
  url, link, alt, id and caption back from the saved `<img>`. The write/read
  round trip is proved.
- **Per-image layout styles.** `LayoutStyles.Render` chooses a layout function from
  the `layout` prop, then walks the rows it returns. One `nth` counter numbers
  every tile across all rows. The rules are proved to be numbered consecutively
  in row order.
- **Importer upload pane.** `UploadingPane` decides when the pane accepts a file,
  which message it shows for each stage and upload percentage, and the
  importer data it sends with an upload.
- **Related-posts preview.** `RelatedPosts` covers the clamped post count, the prefix of
  the sample posts shown, the mutually exclusive grid/list toolbar buttons,
  the container classes, the per-post display toggles, and the guard before
  fetching.

JavaScript values are modelled in `Js`. A missing property reads as
`undefined`. Truthiness follows JavaScript. `${ v }` is `Js.ToStr`. An image
is a map from field name to value, so object spread is map union where the
right side wins, and lodash `pick` is restriction of the map to a key set.
Absent attributes are `None`.

The model keeps the source's behaviour as written, in particular:

- The layouts the editor offers are `rectangular`, `square`, `circle` and
  `columns`. The style dispatch only names `masonry`, `circles` and
  `squares`. So every offered layout is styled by the squares layout
  (`LayoutStyles.OfferedLayoutsUseSquares`).
- save.jsx falls back to `defaultColumnsNumber` for `layout`, not for
  `columns`. An unset column count is therefore written as `columns-undefined`
  (`GallerySave.LayoutText`, `Js.OptionIntText`). The `save` registered in
  editor.js does fall back for `columns`.
- The registered `save` writes item classes as `${ className }__item`.
  The schema reads images only from items with the class
  `wp-block-a8c-tiled-gallery__item` inside a list with the class
  `wp-block-a8c-tiled-gallery`. So the round trip holds when the host passes
  the block's own class name. With any other class name nothing is read back
  (`GalleryBlock.SaveWithOtherClassNameReadsNothing`).
- The block's `className` prop may be absent. `classnames( className, … )` drops it,
  but the template literals write it as `undefined`: save.jsx then writes items
  `undefined__item`, and the related-posts container gets the token `undefined`.
- The related-posts preview always shows the sample posts. The posts that
  `fetchPosts` stores in component state are never rendered.

## Model

| member | source | states |
|---|---|---|
| `GalleryAttributes.DefaultColumnsNumber` | client/gutenberg/extensions/tiled-gallery/edit.jsx:44-46 | the default column count is min(3, image count): never above 3 or the number of images, and equal to one of them |
| `GalleryAttributes.EffectiveColumns` | client/gutenberg/extensions/tiled-gallery/edit.jsx:170 | a set column count is used as it is (even 0); only an undefined one falls back to `defaultColumnsNumber`, so it is at most 3 and at most the image count |
| `GalleryAttributes.ColumnsControlMax` | client/gutenberg/extensions/tiled-gallery/edit.jsx:255-262 | the columns range control exists iff there are at least two images, and its maximum is min(8, image count) |
| `GalleryAttributes.DropIndex` | client/gutenberg/extensions/tiled-gallery/edit.jsx:80 | filtering by position keeps only elements of the list, and is one shorter exactly when the position is in range |
| `GalleryAttributes.DropIndexSpec` | client/gutenberg/extensions/tiled-gallery/edit.jsx:80 | filtering out position i gives the list with exactly that position dropped and the rest in order; an out-of-range i changes nothing |
| `GalleryAttributes.ReclampColumns` | client/gutenberg/extensions/tiled-gallery/edit.jsx:85 | a set, non-zero column count becomes min(new image count, old count); an unset or zero count is passed through unchanged |
| `GalleryAttributes.RemoveImage` | client/gutenberg/extensions/tiled-gallery/edit.jsx:78-88 | the removal patch: images lose exactly position i (none if out of range), a positive column count ends up at most the new image count, nothing else changes |
| `GalleryAttributes.MergeAt` | client/gutenberg/extensions/tiled-gallery/edit.jsx:116-134 | no image at the index means no change; otherwise the length is kept, every other position is unchanged, and at the index the patch's keys take the patch's values while all other keys keep their old values |
| `GalleryAttributes.AppendUploaded` | client/gutenberg/extensions/tiled-gallery/edit.jsx:141-149 | the result is the existing images (missing counts as empty) followed by the uploaded ones, both in their original order |
| `GalleryAttributes.PickImage` | client/gutenberg/extensions/tiled-gallery/edit.jsx:92 | a picked image has exactly the image's keys among alt, caption, id, link and url, with their values |
| `GalleryAttributes.PickImages` | client/gutenberg/extensions/tiled-gallery/edit.jsx:90-94 | selected images keep their count and order, and each is restricted to alt, caption, id, link and url |
| `GalleryAttributes.PickImagesIdempotent` | client/gutenberg/extensions/tiled-gallery/edit.jsx:92 | restricting twice is the same as restricting once |
| `GalleryAttributes.ToggleCrop` | client/gutenberg/extensions/tiled-gallery/edit.jsx:108-110 | toggling negates imageCrop and leaves every other attribute alone |
| `GalleryAttributes.ToggleCropInvolutive` | client/gutenberg/extensions/tiled-gallery/edit.jsx:108-110 | toggling twice restores the original attributes |
| `GalleryEdit.TiledGalleryEdit.constructor` | client/gutenberg/extensions/tiled-gallery/edit.jsx:63-65 | the component starts with no selected image |
| `GalleryEdit.TiledGalleryEdit.ImageIsSelected` | client/gutenberg/extensions/tiled-gallery/edit.jsx:304 | an image is drawn as selected iff the block is selected and its index is the cursor |
| `GalleryEdit.TiledGalleryEdit.AtMostOneImageSelected` | client/gutenberg/extensions/tiled-gallery/edit.jsx:304 | no two different indices are drawn as selected at once |
| `GalleryEdit.TiledGalleryEdit.OnSelectImage` | client/gutenberg/extensions/tiled-gallery/edit.jsx:68-76 | clicking image i makes i the cursor, so it is shown selected while the block is selected; attributes are untouched |
| `GalleryEdit.TiledGalleryEdit.OnRemoveImage` | client/gutenberg/extensions/tiled-gallery/edit.jsx:78-88 | attributes become the removal patch applied to the old ones, and the cursor is always cleared, so no image is shown selected |
| `GalleryEdit.TiledGalleryEdit.OnSelectImages` | client/gutenberg/extensions/tiled-gallery/edit.jsx:90-94 | the image list is replaced by the picked images; the cursor and every other attribute are kept |
| `GalleryEdit.TiledGalleryEdit.SetLayout` | client/gutenberg/extensions/tiled-gallery/edit.jsx:96-98 | only `layout` changes |
| `GalleryEdit.TiledGalleryEdit.SetLinkTo` | client/gutenberg/extensions/tiled-gallery/edit.jsx:100-102 | only `linkTo` changes |
| `GalleryEdit.TiledGalleryEdit.SetColumnsNumber` | client/gutenberg/extensions/tiled-gallery/edit.jsx:104-106 | only `columns` changes |
| `GalleryEdit.TiledGalleryEdit.ToggleImageCrop` | client/gutenberg/extensions/tiled-gallery/edit.jsx:108-110 | attributes become the toggled ones; component state is untouched |
| `GalleryEdit.TiledGalleryEdit.SetImageAttributes` | client/gutenberg/extensions/tiled-gallery/edit.jsx:116-134 | the images become the merge at the index; an index holding no image leaves all attributes unchanged |
| `GalleryEdit.TiledGalleryEdit.AddFiles` | client/gutenberg/extensions/tiled-gallery/edit.jsx:140-153 | the uploaded images are appended after the current ones |
| `GalleryEdit.TiledGalleryEdit.SetBlockSelected` | client/gutenberg/extensions/tiled-gallery/edit.jsx:155-164 | deselecting a selected block clears the cursor and sets captionSelected to false; otherwise component state is kept; a deselected block shows no image selected |
| `GallerySave.Href` | client/gutenberg/extensions/tiled-gallery/save.jsx:31-38 | href is the image url for `media`, the image link for `attachment`, and undefined for any other linkTo |
| `GallerySave.Anchor` | client/gutenberg/extensions/tiled-gallery/save.jsx:58 | the image is wrapped in an anchor iff href is truthy, and the anchor links to href |
| `GallerySave.ImageClasses` | client/gutenberg/extensions/tiled-gallery/save.jsx:46-48 | the img has the class `wp-image-<id>` iff the id is truthy, and no class otherwise |
| `GallerySave.RenderImg` | client/gutenberg/extensions/tiled-gallery/save.jsx:40-50 | the img carries src = url, alt = alt, data-id = id and data-link = link |
| `GallerySave.Figcaption` | client/gutenberg/extensions/tiled-gallery/save.jsx:59-62 | a figcaption holding the caption is emitted iff the caption is truthy and has positive length |
| `GallerySave.ItemKey` | client/gutenberg/extensions/tiled-gallery/save.jsx:54 | the item key is the id if truthy, else the url |
| `GallerySave.LayoutText` | client/gutenberg/extensions/tiled-gallery/save.jsx:18 | the `layout-` suffix is the layout when set, and otherwise the default column count, a single digit from 0 to 3 |
| `GallerySave.Save` | client/gutenberg/extensions/tiled-gallery/save.jsx:14-69 | an absent class name gives no list token but items named `undefined__item`; the list has `layout-<layout>` (the default column count when layout is unset), `columns-<columns>` with no fallback, and `is-cropped` iff imageCrop, and no other token; there is one item per image, in order, with classes `__item` and `__item-<index>` |
| `GalleryBlock.WithDefaults` | client/gutenberg/extensions/tiled-gallery/editor.js:26-76 | stored values are kept; missing ones default to images `[]`, imageCrop true, layout `rectangular`, linkTo `none`; columns has no default |
| `GalleryBlock.Save` | client/gutenberg/extensions/tiled-gallery/editor.js:174-220 | an absent class name gives no list token but items named `undefined__item`; the list has `columns-N` with N = columns or the default count when unset, and `is-cropped` iff imageCrop, and no other token (no `layout-` token); one item per image, in order, with only the `__item` class and no index; href, anchor and figcaption as in save.jsx |
| `GalleryBlock.ReadImage` | client/gutenberg/extensions/tiled-gallery/editor.js:27-58 | one queried item reads back as exactly the five image fields: alt as its text, or `''` when left out; url, link and id as their attribute text, or undefined when left out; the caption as the figcaption's |
| `GalleryBlock.QueryItems` | client/gutenberg/extensions/tiled-gallery/editor.js:27-31 | the query reads at most one image per item, each with the five image fields |
| `GalleryBlock.QueryImages` | client/gutenberg/extensions/tiled-gallery/editor.js:27-31 | nothing is read from a list without the block class, and never more images than items |
| `GalleryBlock.QueryAllItems` | client/gutenberg/extensions/tiled-gallery/editor.js:27-31 | when every item has the queried item class, the query reads exactly one image per item, in order |
| `GalleryBlock.QueryNoItems` | client/gutenberg/extensions/tiled-gallery/editor.js:27-31 | when no item has the queried item class, nothing is read |
| `GalleryBlock.Restored` | client/gutenberg/extensions/tiled-gallery/editor.js:33-53 | a text value written as an HTML attribute reads back unchanged, and an undefined one reads back undefined |
| `GalleryBlock.SaveThenQuery` | client/gutenberg/extensions/tiled-gallery/editor.js:195-199 | round trip: reading the registered save's markup back gives one image per saved image, in order, with url, link, alt, id and caption as the img attributes and figcaption carry them |
| `GalleryBlock.GallerySaveThenQuery` | client/gutenberg/extensions/tiled-gallery/save.jsx:40-56 | the same round trip holds for the markup of save.jsx |
| `GalleryBlock.TextImageReadBack` | client/gutenberg/extensions/tiled-gallery/editor.js:33-58 | for an image with text url, link, id and alt and a non-empty or absent caption, the read-back fields equal the saved ones |
| `GalleryBlock.TextImageRoundTrip` | client/gutenberg/extensions/tiled-gallery/editor.js:174-220 | saving such an image with the registered save and querying the markup restores its five fields |
| `GalleryBlock.NumericIdsStayDistinct` | client/gutenberg/extensions/tiled-gallery/editor.js:49-53 | a numeric id comes back as text, but distinct non-negative ids come back as distinct text |
| `GalleryBlock.SaveWithOtherClassNameReadsNothing` | client/gutenberg/extensions/tiled-gallery/editor.js:207 | if the item class (with `undefined` for an absent class name) is not the queried one, the query reads no images back |
| `GalleryBlock.SaveWithoutClassNameReadsNothing` | client/gutenberg/extensions/tiled-gallery/editor.js:207 | with no class name the items are `undefined__item`, so the query reads no images back |
| `Js.NatToStringInjective` | client/gutenberg/extensions/tiled-gallery/save.jsx:47 | distinct numbers have distinct decimal text, so `wp-image-<id>` and `data-id` identify the id |
| `LayoutStyles.SelectLayout` | client/gutenberg/extensions/tiled-gallery/layout-styles.jsx:32-42 | `masonry` selects the masonry layout, `circles` the circles layout, and every other value (or none) the squares layout, each iff |
| `LayoutStyles.OfferedLayoutsUseSquares` | client/gutenberg/extensions/tiled-gallery/edit.jsx:233-250 | the four layouts the editor offers all fall through to the squares layout |
| `LayoutStyles.FlattenAppend` | client/gutenberg/extensions/tiled-gallery/layout-styles.jsx:47-62 | the row walk over concatenated rows is the walk over each part in turn |
| `LayoutStyles.Numbered` | client/gutenberg/extensions/tiled-gallery/layout-styles.jsx:48-61 | one rule per tile, the k-th numbered k and carrying that tile's width and height |
| `LayoutStyles.RuleOfRowImage` | client/gutenberg/extensions/tiled-gallery/layout-styles.jsx:45-62 | the tile at position j of row r is numbered (tiles in earlier rows) + j, so numbering runs on across rows |
| `LayoutStyles.Render` | client/gutenberg/extensions/tiled-gallery/layout-styles.jsx:15-66 | nothing is rendered iff there are no images; otherwise the chosen layout gets columns, images and margin unchanged and maxWidth from the editor settings, and the rules are the consecutively numbered tiles of its rows |
| `LayoutStyles.RuleTargetsSavedItem` | client/gutenberg/extensions/tiled-gallery/layout-styles.jsx:55 | rule k selects `<className>__item-k`, the indexed class of the k-th saved item |
| `UploadingPane.IsReadyForImport` | client/my-sites/importer/uploading-pane.jsx:105-115 | never ready while uploading; otherwise ready iff the importer state is falsy (undefined, null, `''`), ready-for-upload or upload-failure, and never at uploading or upload-success |
| `UploadingPane.Stage` | client/my-sites/importer/uploading-pane.jsx:50-52 | an upload in progress forces the uploading stage; otherwise the stage is the importer state |
| `UploadingPane.GetMessage` | client/my-sites/importer/uploading-pane.jsx:43-90 | the drag prompt iff the stage is strictly undefined, ready-for-upload or upload-failure; progress iff uploading; success with continue iff upload-success; no message for any other state, including `''` and null |
| `UploadingPane.ProgressMessage` | client/my-sites/importer/uploading-pane.jsx:60-76 | progress is complete iff percent > 95, the prompt names the file iff percent < 99 and is the processing prompt otherwise, and the bar shows the percent, defaulting to 0 |
| `UploadingPane.ReadyIffDragPrompt` | client/my-sites/importer/uploading-pane.jsx:54-58 | for an undefined or truthy importer state, the pane is ready for import exactly when it shows the drag prompt |
| `UploadingPane.FalsyStateReadyWithoutPrompt` | client/my-sites/importer/uploading-pane.jsx:54-58 | as written, an importer state of `''` or null makes the pane ready while getMessage shows no message |
| `UploadingPane.IntendedMessage` | client/my-sites/importer/uploading-pane.jsx:54-89 | the corrected message agrees with getMessage while uploading and on every undefined or truthy state, and shows the drag prompt for every falsy one when no upload is in progress |
| `UploadingPane.IntendedReadyIffDragPrompt` | client/my-sites/importer/uploading-pane.jsx:105-115 | with the corrected message, the pane is ready exactly when it shows the drag prompt, for every state |
| `UploadingPane.Controls` | client/my-sites/importer/uploading-pane.jsx:151-175 | the click handler, the file input and the drop action are present together, exactly when the pane is ready |
| `UploadingPane.ImporterData` | client/my-sites/importer/uploading-pane.jsx:128-131 | importer data has every key of the status plus `type`; `type` is the status's own when it has one, else the importer option |
| `UploadingPane.OnFilesDrop` | client/my-sites/importer/uploading-pane.jsx:92-94 | a drop starts an upload iff the pane is ready, with the merged importer data and the first dropped file |
| `RelatedPosts.ClampPostsToShow` | client/gutenberg/extensions/related-posts/edit.jsx:93-95 | the stored count is min(value, maximum) |
| `RelatedPosts.SetPostsToShow` | client/gutenberg/extensions/related-posts/edit.jsx:93-95 | only postsToShow changes, to a count at most the maximum and at most the value |
| `RelatedPosts.SliceEnd` | client/gutenberg/extensions/related-posts/edit.jsx:69 | where `slice(0, end)` stops: the length for undefined, min(end, length) for end >= 0, and length + end (not below 0) for a negative end |
| `RelatedPosts.DisplayPosts` | client/gutenberg/extensions/related-posts/edit.jsx:69 | the preview list is a prefix of the sample posts of length min(postsToShow, their count) for a non-negative count |
| `RelatedPosts.ClampedCountBoundsPreview` | client/gutenberg/extensions/related-posts/edit.jsx:93-95 | a count set through the range control never shows more posts than the maximum or the value entered |
| `RelatedPosts.Controls` | client/gutenberg/extensions/related-posts/edit.jsx:54-67 | the grid button is active iff the layout is grid, the list button iff it is list, never both |
| `RelatedPosts.ContainerClasses` | client/gutenberg/extensions/related-posts/edit.jsx:113-118 | the class name comes first, as the token `undefined` when it is absent; `is-grid` and `columns-N` are present in grid layout and only there, and `align<align>` for a non-empty align; no other token |
| `RelatedPosts.RenderPost` | client/gutenberg/extensions/related-posts/edit.jsx:121-145 | the thumbnail, the date and the context are each shown iff their toggle is on; the title always is |
| `RelatedPosts.Render` | client/gutenberg/extensions/related-posts/edit.jsx:43-150 | one preview per shown sample post, in order, keyed by position, with the toolbar and container classes above |
| `RelatedPosts.FetchPath` | client/gutenberg/extensions/related-posts/edit.jsx:30-41 | no request is made when the post id is falsy; otherwise the related-posts path ends with the post id |

## Findings

| source | as written | input that shows it | evidently intended | confidence | as-written member | corrected member |
|---|---|---|---|---|---|---|
| client/my-sites/importer/uploading-pane.jsx:54-58 | `isReadyForImport` accepts any falsy `importerState`, but `getMessage` matches only `case undefined`, so the pane is ready yet shows no prompt | `importerStatus = { importerState: '' }` (or `null`), `isUploading` false | every state that makes the pane ready shows the drag prompt | medium, not executed | `UploadingPane.FalsyStateReadyWithoutPrompt` | `UploadingPane.IntendedReadyIffDragPrompt` |

## Left out

- Rendering with JSX and React is not modelled. Outputs are records of class tokens, keys and optional children, not markup.
- `setState` asynchrony and lifecycle wiring are not modelled. Each patch or state update is applied at once, in the class `GalleryEdit.TiledGalleryEdit`.
- Host wrappers are not modelled: `withNotices`, `connect`, `withSelect`, `registerBlockType`, the i18n strings and the error notices.
- `mediaUpload` and `apiFetch` are network and promise calls. The uploaded images are a parameter of `AddFiles`. The fetched posts are not modelled, because they are never rendered.
- GalleryEdit.TiledGalleryEdit.AddFiles: it appends to the images present when its callback runs. The source appends to the images captured when the upload started, so edits made during an upload are not modelled.
- The geometry functions `masonryLayout`, `circlesLayout` and `squaresLayout` are not part of this model. They are function parameters that return rows of tiles with a `real` width and height.
- The gallery-image component, the related-posts constants (`DEFAULT_POSTS`, `MAX_POSTS_TO_SHOW`, `ALIGNMENT_OPTIONS`) and the importer's `appStates` table are not part of this model. The constants are parameters. The importer states the pane reads are the parameter `states` of type `UploadingPane.AppStates`: a `StateNames` record of the four state names, known only to be distinct non-empty strings.
- The host's HTML parsing for attribute sources is not modelled. A found attribute reads back as its text and a missing one as the field default. The figcaption's children read back as the caption value that was written.
- GalleryBlock.Restored: booleans are written as their text for every attribute. React's special handling of boolean values on non-`data-` attributes is not modelled.
- The commented-out block transforms in editor.js are dead code.
- The Chrome `File` re-wrapping workaround, DOM refs and `click()` are browser I/O. The unused `percentComplete` field is also left out.
- `moment` date formatting is not modelled. A shown date is the post's raw date value.
- Class names are kept as the tokens the source writes. A class name that itself contains spaces is not split into several tokens.
- The exact CSS text of a style rule is not modelled. Each rule is kept as (index, width, height).
- Numbers are integers, except upload percentages and tile sizes, which are `real`. NaN, fractional column counts and fractional slice bounds are not modelled.
- edit.jsx `render` is modelled only for its column fallback, its range-control bounds and the per-image selected flag. The toolbar, the placeholder and the item markup it shares with save.jsx are left out.

/**
 * The related-posts block editor (related-posts/edit.jsx): the preview it
 * renders from the block attributes and a fixed list of sample posts, the
 * clamp applied to a new post count, and the guard before fetching.
 *
 * The sample posts and the maximum post count are constants of the block,
 * which are not part of this model; they are parameters here.  Dates are
 * kept as given: their formatting is not modelled.
 */
module RelatedPosts {
  import opened Js

  datatype Post = Post(title: JsValue, image: JsValue, date: JsValue, context: JsValue)

  datatype RelatedPostsAttributes = RelatedPostsAttributes(
    align: Option<string>,
    displayContext: bool,
    displayDate: bool,
    displayThumbnails: bool,
    postLayout: Option<string>,
    postsToShow: Option<int>)

  /** `Math.min( value, MAX_POSTS_TO_SHOW )`: the count stored when the range control changes. */
  function ClampPostsToShow(value: int, maxPostsToShow: int): (n: int)
    ensures n <= value && n <= maxPostsToShow
    ensures n == value || n == maxPostsToShow
  {
    if value < maxPostsToShow then value else maxPostsToShow
  }

  function SetPostsToShow(attributes: RelatedPostsAttributes, value: int, maxPostsToShow: int): (r: RelatedPostsAttributes)
    ensures r == attributes.(postsToShow := r.postsToShow)
    ensures r.postsToShow.Some? && r.postsToShow.value <= maxPostsToShow && r.postsToShow.value <= value
    ensures r.postsToShow.value == value || r.postsToShow.value == maxPostsToShow
  {
    attributes.(postsToShow := Some(ClampPostsToShow(value, maxPostsToShow)))
  }

  /**
   * Where `slice( 0, end )` stops: an `undefined` end is the length, a
   * negative end counts back from the length, and an end past the length is
   * the length.
   */
  function SliceEnd(length: nat, end: Option<int>): (stop: nat)
    ensures stop <= length
    ensures end.None? ==> stop == length
    ensures end.Some? && end.value >= 0 ==> stop == if end.value < length then end.value else length
    ensures end.Some? && end.value < 0 ==> stop == if length + end.value > 0 then length + end.value else 0
  {
    match end
    case None => length
    case Some(e) =>
      if e < 0 then (if length + e > 0 then length + e else 0)
      else if e < length then e else length
  }

  /** `DEFAULT_POSTS.slice( 0, postsToShow )`: always a prefix of the sample posts. */
  function DisplayPosts<P>(defaultPosts: seq<P>, postsToShow: Option<int>): (shown: seq<P>)
    ensures shown == defaultPosts[..SliceEnd(|defaultPosts|, postsToShow)]
    ensures postsToShow.Some? && postsToShow.value >= 0 ==>
      |shown| == (if postsToShow.value < |defaultPosts| then postsToShow.value else |defaultPosts|)
  {
    defaultPosts[..SliceEnd(|defaultPosts|, postsToShow)]
  }

  /** A count set through the range control never makes the preview longer than the maximum. */
  lemma ClampedCountBoundsPreview<P>(defaultPosts: seq<P>, value: int, maxPostsToShow: int)
    requires 0 <= value && 0 <= maxPostsToShow
    ensures |DisplayPosts(defaultPosts, Some(ClampPostsToShow(value, maxPostsToShow)))| <= maxPostsToShow
    ensures |DisplayPosts(defaultPosts, Some(ClampPostsToShow(value, maxPostsToShow)))| <= value
  {
  }

  /** The two toolbar buttons: grid view and list view. */
  datatype LayoutControls = LayoutControls(gridActive: bool, listActive: bool)

  function Controls(postLayout: Option<string>): (c: LayoutControls)
    ensures c.gridActive <==> postLayout == Some("grid")
    ensures c.listActive <==> postLayout == Some("list")
    ensures !(c.gridActive && c.listActive)
  {
    LayoutControls(postLayout == Some("grid"), postLayout == Some("list"))
  }

  /**
   * `classNames( `${ className }`, { 'is-grid': …, [ `columns-${ postsToShow }` ]: …, [ `align${ align }` ]: align } )`.
   * The template turns an absent class name into the token `undefined`.
   */
  function ContainerClasses(className: Option<string>, attributes: RelatedPostsAttributes): (classes: seq<string>)
    ensures className.None? ==> |classes| > 0 && classes[0] == "undefined"
    ensures className.Some? && className.value != "" ==> |classes| > 0 && classes[0] == className.value
    ensures attributes.postLayout == Some("grid") ==>
      "is-grid" in classes && "columns-" + OptionIntText(attributes.postsToShow) in classes
    ensures attributes.postLayout != Some("grid") && OptionText(className) != "is-grid" ==> "is-grid" !in classes
    ensures attributes.postLayout != Some("grid") && OptionText(className) != "columns-" + OptionIntText(attributes.postsToShow) ==>
      "columns-" + OptionIntText(attributes.postsToShow) !in classes
    ensures attributes.align.Some? && attributes.align.value != "" ==> "align" + attributes.align.value in classes
    ensures forall c :: c in classes ==>
      || c in ClassToken(Some(OptionText(className)))
      || (attributes.postLayout == Some("grid") && (c == "is-grid" || c == "columns-" + OptionIntText(attributes.postsToShow)))
      || (attributes.align.Some? && attributes.align.value != "" && c == "align" + attributes.align.value)
  {
    var grid := attributes.postLayout == Some("grid");
    var alignClass := match attributes.align
      case Some(a) => if a != "" then ["align" + a] else []
      case None => [];
    assert forall c :: c in alignClass ==> c[0] == 'a';
    ClassToken(Some(OptionText(className)))
      + (if grid then ["is-grid", "columns-" + OptionIntText(attributes.postsToShow)] else [])
      + alignClass
  }

  /** One preview post: a thumbnail (image src and alt), the title, the date and the context, each shown only if toggled on. */
  datatype PreviewPost = PreviewPost(key: nat, thumbnail: Option<(JsValue, JsValue)>, title: JsValue,
                                     date: Option<JsValue>, context: Option<JsValue>)

  function RenderPost(post: Post, key: nat, attributes: RelatedPostsAttributes): (p: PreviewPost)
    ensures p.key == key && p.title == post.title
    ensures p.thumbnail.Some? <==> attributes.displayThumbnails
    ensures p.thumbnail.Some? ==> p.thumbnail.value == (post.image, post.title)
    ensures p.date.Some? <==> attributes.displayDate
    ensures p.date.Some? ==> p.date.value == post.date
    ensures p.context.Some? <==> attributes.displayContext
    ensures p.context.Some? ==> p.context.value == post.context
  {
    PreviewPost(
      key,
      if attributes.displayThumbnails then Some((post.image, post.title)) else None,
      post.title,
      if attributes.displayDate then Some(post.date) else None,
      if attributes.displayContext then Some(post.context) else None)
  }

  datatype Preview = Preview(controls: LayoutControls, classes: seq<string>, posts: seq<PreviewPost>)

  /** `render`: the layout toolbar, the container classes and one preview per shown sample post. */
  function Render(attributes: RelatedPostsAttributes, className: Option<string>, defaultPosts: seq<Post>): (p: Preview)
    ensures p.controls == Controls(attributes.postLayout)
    ensures p.classes == ContainerClasses(className, attributes)
    ensures |p.posts| == |DisplayPosts(defaultPosts, attributes.postsToShow)|
    ensures forall i :: 0 <= i < |p.posts| ==> p.posts[i] == RenderPost(defaultPosts[i], i, attributes)
  {
    var shown := DisplayPosts(defaultPosts, attributes.postsToShow);
    Preview(
      Controls(attributes.postLayout),
      ContainerClasses(className, attributes),
      seq(|shown|, i requires 0 <= i < |shown| => RenderPost(shown[i], i, attributes)))
  }

  const RelatedPath: string := "/jetpack/v4/site/posts/related?http_envelope=1&post_id="

  /** `fetchPosts`: the request path, or no request at all when there is no post id. */
  function FetchPath(postId: JsValue): (path: Option<string>)
    ensures path.None? <==> !Truthy(postId)
    ensures path.Some? ==> path.value == RelatedPath + ToStr(postId)
  {
    if Truthy(postId) then Some(RelatedPath + ToStr(postId)) else None
  }
}

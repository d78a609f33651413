/** Value types of the pull-to-refresh control and the pure arithmetic it
    performs on the host scroll view's metrics (RefreshView.swift).
    CGFloat is modelled by `real`. */
module Geometry {

  /** Where the control sits relative to the content (RefreshViewOrientation). */
  datatype Orientation = Top | Left | Bottom | Right

  /** SYRefreshViewState. */
  datatype RefreshState = Idle | Pulling | Refreshing | NoMoreData

  datatype Option<T> = None | Some(value: T)

  /** CGPoint, CGSize and UIEdgeInsets. */
  datatype Point = Point(x: real, y: real)
  datatype Size = Size(width: real, height: real)
  datatype EdgeInsets = EdgeInsets(top: real, left: real, bottom: real, right: real)

  /** What the control reads from its host UIScrollView. */
  datatype ScrollMetrics = ScrollMetrics(
    contentOffset: Point,
    contentInset: EdgeInsets,
    contentSize: Size,
    bounds: Size,
    isDragging: bool)

  /** The control's fixed placement: its orientation and whether it is a footer. */
  datatype Config = Config(orientation: Orientation, isFooter: bool)

  predicate IsLeftOrRight(o: Orientation) {
    o == Left || o == Right
  }

  predicate IsFooterOrientation(o: Orientation) {
    o == Bottom || o == Right
  }

  /** Swift's generic max and min (`y >= x ? y : x` and `y < x ? y : x`). */
  function Max(x: real, y: real): real {
    if y >= x then y else x
  }

  function Min(x: real, y: real): real {
    if y < x then y else x
  }

  /** `min(1, max(0, num / den))` in CGFloat arithmetic. A zero divisor gives
      +infinity, -infinity or NaN, which the clamp turns into 1 for a positive
      numerator and 0 otherwise. */
  function ClampedRatio(num: real, den: real): (r: real)
    ensures 0.0 <= r <= 1.0
    ensures den > 0.0 ==> (r == 1.0 <==> num >= den)
    ensures den > 0.0 ==> (r == 0.0 <==> num <= 0.0)
    ensures den > 0.0 && 0.0 <= num <= den ==> r * den == num
  {
    if den == 0.0 then (if num > 0.0 then 1.0 else 0.0)
    else
      RatioAtLeastOne(num, den);
      Min(1.0, Max(0.0, num / den))
  }

  /** For a positive divisor the quotient reaches 1 exactly when the dividend
      reaches the divisor. */
  lemma RatioAtLeastOne(num: real, den: real)
    requires den != 0.0
    ensures den > 0.0 ==> (num / den >= 1.0 <==> num >= den)
  {
  }

  /** The extent of the control along its axis: its width when horizontal,
      its height otherwise. */
  function Extent(c: Config, size: Size): real {
    if IsLeftOrRight(c.orientation) then size.width else size.height
  }

  /** The scroll offset along the control's axis. */
  function DragOffset(c: Config, s: ScrollMetrics): real {
    if IsLeftOrRight(c.orientation) then s.contentOffset.x else s.contentOffset.y
  }

  /** The pull progress `contentOffsetChange` assigns, one formula per branch.
      The horizontal header reads the RIGHT inset. */
  function PullProgress(c: Config, s: ScrollMetrics, size: Size): (p: real)
    ensures 0.0 <= p <= 1.0
  {
    if IsLeftOrRight(c.orientation) then
      if c.isFooter then
        ClampedRatio(s.contentOffset.x + s.bounds.width - s.contentSize.width - s.contentInset.right, size.width)
      else
        ClampedRatio(-(s.contentOffset.x + s.contentInset.right), size.width)
    else
      if c.isFooter then
        ClampedRatio(s.contentOffset.y + s.bounds.height - s.contentSize.height - s.contentInset.bottom, size.height)
      else
        ClampedRatio(-(s.contentOffset.y + s.contentInset.top), size.height)
  }

  /** The offset past which the control reports `pulling`. */
  function PullingThreshold(c: Config, s: ScrollMetrics, size: Size): real {
    if IsLeftOrRight(c.orientation) then
      if c.isFooter then s.contentSize.width - s.bounds.width + size.width
      else -s.contentInset.left - size.width
    else
      if c.isFooter then s.contentSize.height - s.bounds.height + size.height
      else -s.contentInset.top - size.height
  }

  /** The offset lies strictly beyond the threshold, away from the content. */
  predicate Beyond(c: Config, offset: real, threshold: real) {
    if c.isFooter then offset > threshold else offset < threshold
  }

  /** The offset lies strictly on the content's side of the threshold. */
  predicate Short(c: Config, offset: real, threshold: real) {
    if c.isFooter then offset < threshold else offset > threshold
  }

  /** The state notification `contentOffsetChange` sends, if any. */
  function DragTransition(c: Config, state: RefreshState, offset: real, threshold: real): (r: Option<RefreshState>)
    ensures r != Some(Refreshing) && r != Some(NoMoreData)
    ensures r == Some(Pulling) <==> state == Idle && Beyond(c, offset, threshold)
    ensures r == Some(Idle) <==> state == Pulling && Short(c, offset, threshold)
  {
    if state == Idle && Beyond(c, offset, threshold) then Some(Pulling)
    else if state == Pulling && Short(c, offset, threshold) then Some(Idle)
    else None
  }

  /** What `checkContentSizeValid` answers: true for a footer whose content
      is shorter than the scroll view along the axis; always false for a header. */
  predicate ContentTooShort(c: Config, s: ScrollMetrics) {
    c.isFooter &&
    if IsLeftOrRight(c.orientation) then s.contentSize.width < s.bounds.width
    else s.contentSize.height < s.bounds.height
  }

  /** The offset test of `footerAutoRefresh`. The horizontal branch subtracts
      the control's own HEIGHT, which after attachment is the scroll view's height. */
  predicate AutoRefreshReached(c: Config, ratio: real, s: ScrollMetrics, size: Size) {
    0.0 <= ratio < 1.0 &&
    if IsLeftOrRight(c.orientation) then
      s.contentOffset.x >= (s.contentSize.width - s.bounds.width - s.contentInset.right - size.height) * ratio
    else
      s.contentOffset.y >= (s.contentSize.height - s.bounds.height - s.contentInset.bottom - size.height) * ratio
  }

  /** The animation block of `beginRefreshing`: the inset on the control's side
      grows by the extent; a header also moves the offset (a horizontal header
      writes the y offset). */
  function Reveal(c: Config, s: ScrollMetrics, size: Size): ScrollMetrics {
    var i := s.contentInset;
    if IsLeftOrRight(c.orientation) then
      if c.isFooter then s.(contentInset := i.(right := i.right + size.width))
      else s.(contentOffset := s.contentOffset.(y := size.width + i.left),
              contentInset := i.(left := i.left + size.width))
    else
      if c.isFooter then s.(contentInset := i.(bottom := i.bottom + size.height))
      else s.(contentOffset := s.contentOffset.(y := -size.height - i.top),
              contentInset := i.(top := i.top + size.height))
  }

  /** The animation block of `endRefreshing`: the same inset shrinks by the extent. */
  function Conceal(c: Config, s: ScrollMetrics, size: Size): ScrollMetrics {
    var i := s.contentInset;
    if IsLeftOrRight(c.orientation) then
      if c.isFooter then s.(contentInset := i.(right := i.right - size.width))
      else s.(contentInset := i.(left := i.left - size.width))
    else
      if c.isFooter then s.(contentInset := i.(bottom := i.bottom - size.height))
      else s.(contentInset := i.(top := i.top - size.height))
  }

  /** The inset on the side named by the orientation. */
  function Edge(o: Orientation, i: EdgeInsets): real {
    match o
    case Top => i.top
    case Left => i.left
    case Bottom => i.bottom
    case Right => i.right
  }

  function WithEdge(o: Orientation, i: EdgeInsets, v: real): EdgeInsets {
    match o
    case Top => i.(top := v)
    case Left => i.(left := v)
    case Bottom => i.(bottom := v)
    case Right => i.(right := v)
  }

  /** Revealing grows exactly the inset on the control's own side, by its extent,
      and touches nothing else but (for a header) the y offset. */
  lemma RevealGrowsOwnEdge(c: Config, s: ScrollMetrics, size: Size)
    requires c.isFooter == IsFooterOrientation(c.orientation)
    ensures Reveal(c, s, size).contentInset
            == WithEdge(c.orientation, s.contentInset, Edge(c.orientation, s.contentInset) + Extent(c, size))
    ensures Reveal(c, s, size).contentSize == s.contentSize && Reveal(c, s, size).bounds == s.bounds
    ensures Reveal(c, s, size).isDragging == s.isDragging
    ensures Reveal(c, s, size).contentOffset.x == s.contentOffset.x
    ensures c.isFooter ==> Reveal(c, s, size).contentOffset == s.contentOffset
  {
  }

  /** Concealing shrinks exactly that inset by the extent and leaves the offset alone. */
  lemma ConcealShrinksOwnEdge(c: Config, s: ScrollMetrics, size: Size)
    requires c.isFooter == IsFooterOrientation(c.orientation)
    ensures Conceal(c, s, size).contentInset
            == WithEdge(c.orientation, s.contentInset, Edge(c.orientation, s.contentInset) - Extent(c, size))
    ensures Conceal(c, s, size) == s.(contentInset := Conceal(c, s, size).contentInset)
  {
  }

  /** Concealing after revealing (with the same extent) restores the insets,
      whatever happened to the offset and content size in between. */
  lemma ConcealUndoesReveal(c: Config, s: ScrollMetrics, t: ScrollMetrics, size: Size)
    requires t.contentInset == Reveal(c, s, size).contentInset
    ensures Conceal(c, t, size).contentInset == s.contentInset
  {
  }

  /** A vertical header is fully pulled exactly when the offset has reached its
      pulling threshold. */
  lemma VerticalHeaderFullAtThreshold(c: Config, s: ScrollMetrics, size: Size)
    requires c.orientation == Top && !c.isFooter && size.height > 0.0
    ensures PullProgress(c, s, size) == 1.0 <==> s.contentOffset.y <= PullingThreshold(c, s, size)
  {
  }

  /** A footer is fully pulled exactly when the offset has passed its pulling
      threshold by the trailing inset. */
  lemma FooterFullAtThreshold(c: Config, s: ScrollMetrics, size: Size)
    requires c.isFooter && Extent(c, size) > 0.0
    ensures var inset := if IsLeftOrRight(c.orientation) then s.contentInset.right else s.contentInset.bottom;
            PullProgress(c, s, size) == 1.0 <==> DragOffset(c, s) >= PullingThreshold(c, s, size) + inset
  {
  }

  /** The horizontal header measures its progress from the right inset but its
      threshold from the left inset; the two agree only when those insets are
      equal. The witness: left inset 10, right inset 0, width 44, offset -50 is
      fully pulled yet not beyond the threshold -54. */
  lemma HorizontalHeaderInsetMismatch()
    ensures var c := Config(Left, false);
            var s := ScrollMetrics(Point(-50.0, 0.0), EdgeInsets(0.0, 10.0, 0.0, 0.0), Size(0.0, 0.0), Size(0.0, 0.0), true);
            var size := Size(44.0, 300.0);
            PullProgress(c, s, size) == 1.0 && !Beyond(c, DragOffset(c, s), PullingThreshold(c, s, size))
  {
  }

  /** The default ratio 1.0 never fires the footer auto-refresh. */
  lemma DefaultRatioNeverAutoRefreshes(c: Config, s: ScrollMetrics, size: Size)
    ensures !AutoRefreshReached(c, 1.0, s, size)
  {
  }
}

/** The pull-to-refresh control of RefreshView.swift as a class that updates
    its own fields and its host scroll view in place. Every method that the
    scroll view's observers or the application call is proved to compute the
    matching function of module Controller. */
module RefreshControl {
  import opened Geometry
  import opened Controller

  /** The host UIScrollView: the fields the control reads and writes. */
  class ScrollView {
    var contentOffset: Point
    var contentInset: EdgeInsets
    var contentSize: Size
    var bounds: Size
    var isDragging: bool

    constructor (offset: Point, inset: EdgeInsets, contentSize: Size, bounds: Size)
      ensures Metrics() == ScrollMetrics(offset, inset, contentSize, bounds, false)
    {
      this.contentOffset := offset;
      this.contentInset := inset;
      this.contentSize := contentSize;
      this.bounds := bounds;
      this.isDragging := false;
    }

    function Metrics(): ScrollMetrics
      reads this
    {
      ScrollMetrics(contentOffset, contentInset, contentSize, bounds, isDragging)
    }
  }

  /** RefreshView. `origin` is frame.origin and `size` is bounds.size (equal to
      frame.size); `scrollview` is the superview when it is a scroll view.
      `notifications` logs the renderer hooks and `completionCalls` counts the
      completion callback's invocations. */
  class RefreshView {
    const orientation: Orientation
    const isFooter: bool
    var footerAutoRefreshProgress: real
    var state: RefreshState
    var isRefreshing: bool
    var pullProgress: real
    var isHidden: bool
    var origin: Point
    var size: Size
    var scrollview: ScrollView?
    var notifications: seq<Notification>
    var completionCalls: nat

    function Kind(): Config {
      Config(orientation, isFooter)
    }

    function Model(): ViewState
      reads this
    {
      ViewState(state, isRefreshing, pullProgress, isHidden, origin, size,
                footerAutoRefreshProgress, notifications, completionCalls)
    }

    function Snapshot(): Scene
      reads this, scrollview
      requires scrollview != null
    {
      Scene(Model(), scrollview.Metrics())
    }

    ghost predicate Valid()
      reads this
    {
      Inv(Model())
    }

    /** init(orientaton:height:completion:). The frame starts at zero; setting
        bounds.size.height keeps the centre at the origin, so frame.origin.y
        becomes -height/2. init calls updatePullProgress directly. */
    constructor (orientation: Orientation, height: real)
      ensures this.orientation == orientation
      ensures isFooter <==> orientation == Bottom || orientation == Right
      ensures isHidden && !isRefreshing && pullProgress == 0.0 && state == Idle
      ensures footerAutoRefreshProgress == 1.0
      ensures size == Size(0.0, height) && origin == Point(0.0, -height / 2.0)
      ensures scrollview == null
      ensures notifications == [PullProgressUpdated(0.0)] && completionCalls == 0
      ensures Valid()
    {
      this.orientation := orientation;
      isFooter := orientation == Bottom || orientation == Right;
      footerAutoRefreshProgress := 1.0;
      state := Idle;
      isRefreshing := false;
      pullProgress := 0.0;
      origin := Point(0.0, 0.0);
      size := Size(0.0, 0.0);
      scrollview := null;
      completionCalls := 0;
      new;
      notifications := [PullProgressUpdated(pullProgress)];
      isHidden := true;
      size := size.(height := height);
      origin := Point(0.0, -height / 2.0);
    }

    /** didMoveToSuperview after moving into `newSuperview` (null when removed
        or when the superview is not a scroll view). A horizontal control takes
        its former height as its width and the scroll view's height as its
        height; a vertical one takes the scroll view's width. A header is placed
        just before the content's start, a footer at zero. */
    method DidMoveToSuperview(newSuperview: ScrollView?)
      requires Valid()
      modifies this
      ensures Valid() && scrollview == newSuperview
      ensures newSuperview == null ==> Model() == old(Model())
      ensures newSuperview != null && IsLeftOrRight(orientation) ==>
                size == Size(old(size).height, newSuperview.bounds.height) &&
                origin == Point(if isFooter then 0.0 else -old(size).height, 0.0)
      ensures newSuperview != null && !IsLeftOrRight(orientation) ==>
                size == Size(newSuperview.bounds.width, old(size).height) &&
                origin == Point(0.0, if isFooter then 0.0 else -old(size).height)
      ensures Model() == old(Model()).(origin := origin, size := size)
    {
      scrollview := newSuperview;
      if newSuperview == null {
        return;
      }
      if IsLeftOrRight(orientation) {
        var width := size.height;
        size := Size(width, newSuperview.bounds.height);
        origin := Point(0.0, 0.0);
        if !isFooter {
          origin := origin.(x := -size.width);
        }
      } else {
        size := Size(newSuperview.bounds.width, size.height);
        origin := Point(0.0, 0.0);
        if !isFooter {
          origin := origin.(y := -size.height);
        }
      }
    }

    /** checkContentSizeValid: true when this is a footer whose content is
        shorter than the scroll view; a footer is hidden exactly when it answers
        true. A header, or a control without a scroll view, answers false and
        changes nothing. */
    method CheckContentSizeValid() returns (tooShort: bool)
      modifies this`isHidden
      ensures scrollview == null ==> !tooShort && isHidden == old(isHidden)
      ensures scrollview != null ==> tooShort == ContentTooShort(Kind(), scrollview.Metrics())
      ensures !isFooter ==> !tooShort && isHidden == old(isHidden)
      ensures isFooter && scrollview != null ==> isHidden == tooShort
    {
      if !isFooter {
        return false;
      }
      if scrollview == null {
        return false;
      }
      if IsLeftOrRight(orientation) {
        if scrollview.contentSize.width < scrollview.bounds.width {
          isHidden := true;
          return true;
        } else {
          isHidden := false;
          return false;
        }
      } else {
        if scrollview.contentSize.height < scrollview.bounds.height {
          isHidden := true;
          return true;
        } else {
          isHidden := false;
          return false;
        }
      }
    }

    /** `isRefreshing = b` with its didSet observer. */
    method SetIsRefreshing(b: bool)
      requires scrollview != null
      modifies this`isRefreshing, this`isHidden, this`notifications
      ensures Model() == AssignIsRefreshing(Kind(), old(Model()), scrollview.Metrics(), b)
    {
      isRefreshing := b;
      var tooShort := CheckContentSizeValid();
      if tooShort {
        return;
      }
      notifications := notifications + [RefreshStateUpdated(isRefreshing)];
    }

    /** `pullProgress = p` with its didSet observer. */
    method SetPullProgress(p: real)
      requires scrollview != null
      modifies this`pullProgress, this`isHidden, this`notifications
      ensures Model() == AssignPullProgress(Kind(), old(Model()), scrollview.Metrics(), p)
    {
      pullProgress := p;
      if isRefreshing {
        return;
      }
      var tooShort := CheckContentSizeValid();
      if tooShort {
        return;
      }
      notifications := notifications + [PullProgressUpdated(pullProgress)];
    }

    /** setState(state:), as overridden by a subclass that stores the state. */
    method SetState(st: RefreshState)
      modifies this`state, this`notifications
      ensures Model() == Controller.SetState(old(Model()), st)
    {
      state := st;
      notifications := notifications + [StateSet(st)];
    }

    /** beginRefreshing, with its animation and completion as one step. */
    method BeginRefreshing()
      requires Valid()
      modifies this, scrollview
      ensures Valid() && scrollview == old(scrollview)
      ensures old(scrollview) == null ==> Model() == old(Model())
      ensures old(scrollview) != null ==> Snapshot() == Begin(Kind(), old(Snapshot()))
    {
      if isRefreshing {
        return;
      }
      var tooShort := CheckContentSizeValid();
      if tooShort {
        return;
      }
      if scrollview == null {
        return;
      }
      var sv := scrollview;
      SetIsRefreshing(true);
      SetPullProgress(1.0);
      SetState(Refreshing);
      RevealAnimation(sv);
      completionCalls := completionCalls + 1;
    }

    /** The animation closure of beginRefreshing. */
    method RevealAnimation(sv: ScrollView)
      modifies sv
      ensures sv.Metrics() == Reveal(Kind(), old(sv.Metrics()), size)
    {
      if IsLeftOrRight(orientation) {
        if isFooter {
          sv.contentInset := sv.contentInset.(right := sv.contentInset.right + size.width);
        } else {
          sv.contentOffset := sv.contentOffset.(y := size.width + sv.contentInset.left);
          sv.contentInset := sv.contentInset.(left := sv.contentInset.left + size.width);
        }
      } else {
        if isFooter {
          sv.contentInset := sv.contentInset.(bottom := sv.contentInset.bottom + size.height);
        } else {
          sv.contentOffset := sv.contentOffset.(y := -size.height - sv.contentInset.top);
          sv.contentInset := sv.contentInset.(top := sv.contentInset.top + size.height);
        }
      }
    }

    /** endRefreshing, with its animation and completion as one step. Only the
        vertical completion hides the control again. */
    method EndRefreshing()
      modifies this, scrollview
      ensures scrollview == old(scrollview)
      ensures old(scrollview) == null ==> Model() == old(Model())
      ensures old(scrollview) != null ==> Valid() && Snapshot() == End(Kind(), old(Snapshot()))
    {
      if scrollview == null {
        return;
      }
      var sv := scrollview;
      ConcealAnimation(sv);
      SetIsRefreshing(false);
      SetPullProgress(0.0);
      if !IsLeftOrRight(orientation) {
        isHidden := true;
      }
      SetState(Idle);
    }

    /** The animation closure of endRefreshing. */
    method ConcealAnimation(sv: ScrollView)
      modifies sv
      ensures sv.Metrics() == Conceal(Kind(), old(sv.Metrics()), size)
    {
      if IsLeftOrRight(orientation) {
        if isFooter {
          sv.contentInset := sv.contentInset.(right := sv.contentInset.right - size.width);
        } else {
          sv.contentInset := sv.contentInset.(left := sv.contentInset.left - size.width);
        }
      } else {
        if isFooter {
          sv.contentInset := sv.contentInset.(bottom := sv.contentInset.bottom - size.height);
        } else {
          sv.contentInset := sv.contentInset.(top := sv.contentInset.top - size.height);
        }
      }
    }

    /** The reaction to a change of the scroll view's contentOffset. */
    method ContentOffsetChange()
      requires Valid()
      modifies this, scrollview
      ensures Valid() && scrollview == old(scrollview)
      ensures old(scrollview) == null ==> Model() == old(Model())
      ensures old(scrollview) != null ==> Snapshot() == OffsetChange(Kind(), old(Snapshot()))
    {
      if isRefreshing {
        return;
      }
      if scrollview == null {
        return;
      }
      var sv := scrollview;
      if sv.isDragging {
        TrackPull();
        if isHidden {
          isHidden := false;
        }
        FooterAutoRefresh();
      }
    }

    /** The orientation branches of contentOffsetChange: assign the clamped
        progress and notify idle->pulling or pulling->idle around the threshold. */
    method TrackPull()
      requires scrollview != null
      modifies this`pullProgress, this`isHidden, this`notifications, this`state
      ensures Model() == Drag(Kind(), old(Model()), scrollview.Metrics())
    {
      var sv := scrollview;
      ghost var m0, s0 := Model(), sv.Metrics();
      if IsLeftOrRight(orientation) {
        if isFooter {
          SetPullProgress(ClampedRatio(sv.contentOffset.x + sv.bounds.width - sv.contentSize.width - sv.contentInset.right, size.width));
          assert Model() == AssignPullProgress(Kind(), m0, s0, PullProgress(Kind(), s0, m0.size));
          var pullingOffsetX := sv.contentSize.width - sv.bounds.width + size.width;
          var offsetX := sv.contentOffset.x;
          if state == Idle && offsetX > pullingOffsetX {
            SetState(Pulling);
          } else if state == Pulling && offsetX < pullingOffsetX {
            SetState(Idle);
          }
        } else {
          SetPullProgress(ClampedRatio(-(sv.contentOffset.x + sv.contentInset.right), size.width));
          assert Model() == AssignPullProgress(Kind(), m0, s0, PullProgress(Kind(), s0, m0.size));
          var pullingOffsetX := -sv.contentInset.left - size.width;
          var offsetX := sv.contentOffset.x;
          if state == Idle && offsetX < pullingOffsetX {
            SetState(Pulling);
          } else if state == Pulling && offsetX > pullingOffsetX {
            SetState(Idle);
          }
        }
      } else {
        if isFooter {
          SetPullProgress(ClampedRatio(sv.contentOffset.y + sv.bounds.height - sv.contentSize.height - sv.contentInset.bottom, size.height));
          assert Model() == AssignPullProgress(Kind(), m0, s0, PullProgress(Kind(), s0, m0.size));
          var pullingOffsetY := sv.contentSize.height - sv.bounds.height + size.height;
          var offsetY := sv.contentOffset.y;
          if state == Idle && offsetY > pullingOffsetY {
            SetState(Pulling);
          } else if state == Pulling && offsetY < pullingOffsetY {
            SetState(Idle);
          }
        } else {
          SetPullProgress(ClampedRatio(-(sv.contentOffset.y + sv.contentInset.top), size.height));
          assert Model() == AssignPullProgress(Kind(), m0, s0, PullProgress(Kind(), s0, m0.size));
          var pullingOffsetY := -sv.contentInset.top - size.height;
          var offsetY := sv.contentOffset.y;
          if state == Idle && offsetY < pullingOffsetY {
            SetState(Pulling);
          } else if state == Pulling && offsetY > pullingOffsetY {
            SetState(Idle);
          }
        }
      }
    }

    /** footerAutoRefresh: begin loading once the offset reaches the configured
        fraction of the scrollable distance. */
    method FooterAutoRefresh()
      requires Valid()
      modifies this, scrollview
      ensures Valid() && scrollview == old(scrollview)
      ensures old(scrollview) == null ==> Model() == old(Model())
      ensures old(scrollview) != null ==> Snapshot() == AutoRefresh(Kind(), old(Snapshot()))
    {
      if !isFooter {
        return;
      }
      if scrollview == null {
        return;
      }
      var sv := scrollview;
      var tooShort := CheckContentSizeValid();
      if !tooShort {
        if IsLeftOrRight(orientation) {
          if footerAutoRefreshProgress >= 0.0 && footerAutoRefreshProgress < 1.0 {
            if sv.contentOffset.x >= (sv.contentSize.width - sv.bounds.width - sv.contentInset.right - size.height) * footerAutoRefreshProgress {
              BeginRefreshing();
              return;
            }
          }
        } else {
          if footerAutoRefreshProgress >= 0.0 && footerAutoRefreshProgress < 1.0 {
            if sv.contentOffset.y >= (sv.contentSize.height - sv.bounds.height - sv.contentInset.bottom - size.height) * footerAutoRefreshProgress {
              BeginRefreshing();
              return;
            }
          }
        }
      }
    }

    /** The reaction to a change of the scroll view's contentSize (observed by
        footers only): re-run the guard and track the content's end. */
    method ContentSizeChange()
      requires Valid()
      modifies this
      ensures Valid() && scrollview == old(scrollview)
      ensures old(scrollview) == null ==> Model() == old(Model())
      ensures old(scrollview) != null ==> Snapshot() == SizeChange(Kind(), old(Snapshot()))
    {
      if scrollview == null {
        return;
      }
      var sv := scrollview;
      if IsLeftOrRight(orientation) {
        var tooShort := CheckContentSizeValid();
        if tooShort {
          return;
        }
        // bounds.minX: the control never moves its bounds origin away from zero
        if 0.0 == sv.contentSize.width {
          return;
        }
        origin := origin.(x := sv.contentSize.width);
      } else {
        var tooShort := CheckContentSizeValid();
        if tooShort {
          return;
        }
        if origin.y == sv.contentSize.height {
          return;
        }
        origin := origin.(y := sv.contentSize.height);
      }
    }

    /** scrollviewEndDraging, called when the pan gesture ends. */
    method ScrollViewEndDragging()
      requires Valid()
      modifies this, scrollview
      ensures Valid() && scrollview == old(scrollview)
      ensures old(scrollview) == null ==> Model() == old(Model())
      ensures old(scrollview) != null ==> Snapshot() == EndDrag(Kind(), old(Snapshot()))
    {
      if isRefreshing || pullProgress < 1.0 {
        return;
      }
      BeginRefreshing();
    }
  }

  /** A client of the class: a header attached to a scroll view is pulled
      50 points, released, and its refresh is ended; the top inset comes
      back to zero and the completion callback has run once. */
  method HeaderClient()
  {
    var sv := new ScrollView(Point(0.0, 0.0), EdgeInsets(0.0, 0.0, 0.0, 0.0), Size(320.0, 1000.0), Size(320.0, 480.0));
    var header := new RefreshView(Top, 44.0);
    header.DidMoveToSuperview(sv);
    assert header.size == Size(320.0, 44.0) && header.origin == Point(0.0, -44.0);
    sv.contentOffset := Point(0.0, -50.0);
    sv.isDragging := true;
    header.ContentOffsetChange();
    assert header.pullProgress == 1.0 && header.state == Pulling && !header.isHidden;
    sv.isDragging := false;
    header.ScrollViewEndDragging();
    assert header.isRefreshing && header.completionCalls == 1;
    assert sv.contentInset.top == 44.0 && sv.contentOffset.y == -44.0;
    header.EndRefreshing();
    assert !header.isRefreshing && header.state == Idle && header.isHidden;
    assert sv.contentInset.top == 0.0 && header.completionCalls == 1;
  }
}

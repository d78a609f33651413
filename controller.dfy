/** The RefreshView state machine as functions on values: one function per
    operation of RefreshView.swift, from the control's state and its host's
    metrics before the call to both after it. The class in refresh_view.dfy is
    proved to compute exactly these functions. */
module Controller {
  import opened Geometry

  /** A call of one of the renderer hooks: setState, updateRefreshState and
      updatePullProgress. */
  datatype Notification =
    | StateSet(state: RefreshState)
    | RefreshStateUpdated(isRefreshing: bool)
    | PullProgressUpdated(progress: real)

  /** The control's own mutable state. `notifications` logs the hook calls;
      `completions` counts the calls of the completion callback. */
  datatype ViewState = ViewState(
    state: RefreshState,
    isRefreshing: bool,
    pullProgress: real,
    isHidden: bool,
    origin: Point,
    size: Size,
    footerAutoRefreshProgress: real,
    notifications: seq<Notification>,
    completions: nat)

  /** An attached control together with its host's metrics. */
  datatype Scene = Scene(view: ViewState, scroll: ScrollMetrics)

  /** What every operation keeps: the progress stays in [0,1], the control is
      refreshing exactly when its state is `refreshing`, and while refreshing
      the progress is frozen at 1. */
  predicate Inv(v: ViewState) {
    0.0 <= v.pullProgress <= 1.0 &&
    (v.isRefreshing <==> v.state == Refreshing) &&
    (v.isRefreshing ==> v.pullProgress == 1.0)
  }

  /** Inv, plus the auto-hide rule: a footer whose content is too short is hidden. */
  predicate SceneInv(c: Config, w: Scene) {
    Inv(w.view) && (ContentTooShort(c, w.scroll) ==> w.view.isHidden)
  }

  /** The side effect of checkContentSizeValid: a footer is hidden exactly when
      its content is too short. */
  function CheckContentSize(c: Config, v: ViewState, s: ScrollMetrics): ViewState {
    if c.isFooter then v.(isHidden := ContentTooShort(c, s)) else v
  }

  /** Assigning isRefreshing, with its didSet observer. */
  function AssignIsRefreshing(c: Config, v: ViewState, s: ScrollMetrics, b: bool): ViewState {
    var v1 := CheckContentSize(c, v.(isRefreshing := b), s);
    if ContentTooShort(c, s) then v1
    else v1.(notifications := v1.notifications + [RefreshStateUpdated(b)])
  }

  /** Assigning pullProgress, with its didSet observer. */
  function AssignPullProgress(c: Config, v: ViewState, s: ScrollMetrics, p: real): ViewState {
    var v1 := v.(pullProgress := p);
    if v1.isRefreshing then v1
    else
      var v2 := CheckContentSize(c, v1, s);
      if ContentTooShort(c, s) then v2
      else v2.(notifications := v2.notifications + [PullProgressUpdated(p)])
  }

  /** setState, as overridden by a subclass that stores the state it is given. */
  function SetState(v: ViewState, st: RefreshState): ViewState {
    v.(state := st, notifications := v.notifications + [StateSet(st)])
  }

  /** beginRefreshing, its animation and its completion as one step. */
  function Begin(c: Config, w: Scene): (r: Scene)
    ensures w.view.isRefreshing ==> r == w
    ensures !w.view.isRefreshing && ContentTooShort(c, w.scroll) ==>
              r == w.(view := w.view.(isHidden := true))
    ensures !w.view.isRefreshing && !ContentTooShort(c, w.scroll) ==>
              r.view.isRefreshing && r.view.pullProgress == 1.0 && r.view.state == Refreshing &&
              r.view.completions == w.view.completions + 1 &&
              r.view.notifications == w.view.notifications + [RefreshStateUpdated(true), StateSet(Refreshing)] &&
              r.view.size == w.view.size && r.view.origin == w.view.origin &&
              r.view.footerAutoRefreshProgress == w.view.footerAutoRefreshProgress &&
              r.view.isHidden == (w.view.isHidden && !c.isFooter) &&
              r.scroll == Reveal(c, w.scroll, w.view.size)
    ensures Inv(w.view) ==> Inv(r.view)
    ensures SceneInv(c, w) ==> SceneInv(c, r)
  {
    var v, s := w.view, w.scroll;
    if v.isRefreshing then w
    else if ContentTooShort(c, s) then Scene(CheckContentSize(c, v, s), s)
    else
      var v1 := CheckContentSize(c, v, s);
      var v2 := AssignIsRefreshing(c, v1, s, true);
      var v3 := AssignPullProgress(c, v2, s, 1.0);
      var v4 := SetState(v3, Refreshing);
      Scene(v4.(completions := v4.completions + 1), Reveal(c, s, v4.size))
  }

  /** endRefreshing, its animation and its completion as one step. It does not
      look at isRefreshing first. */
  function End(c: Config, w: Scene): (r: Scene)
    ensures !r.view.isRefreshing && r.view.pullProgress == 0.0 && r.view.state == Idle
    ensures r.scroll == Conceal(c, w.scroll, w.view.size)
    ensures r.view == w.view.(state := Idle, isRefreshing := false, pullProgress := 0.0,
                              isHidden := r.view.isHidden, notifications := r.view.notifications)
    ensures r.view.notifications ==
              w.view.notifications
              + (if ContentTooShort(c, w.scroll) then [] else [RefreshStateUpdated(false), PullProgressUpdated(0.0)])
              + [StateSet(Idle)]
    ensures !IsLeftOrRight(c.orientation) ==> r.view.isHidden
    ensures IsLeftOrRight(c.orientation) ==>
              r.view.isHidden == (if c.isFooter then ContentTooShort(c, w.scroll) else w.view.isHidden)
    ensures Inv(r.view) && SceneInv(c, r)
  {
    var s := Conceal(c, w.scroll, w.view.size);
    var v1 := AssignIsRefreshing(c, w.view, s, false);
    var v2 := AssignPullProgress(c, v1, s, 0.0);
    var v3 := if IsLeftOrRight(c.orientation) then v2 else v2.(isHidden := true);
    Scene(SetState(v3, Idle), s)
  }

  /** The footer's auto-refresh condition as footerAutoRefresh evaluates it. */
  predicate AutoRefreshFires(c: Config, w: Scene) {
    c.isFooter && !ContentTooShort(c, w.scroll) &&
    AutoRefreshReached(c, w.view.footerAutoRefreshProgress, w.scroll, w.view.size)
  }

  /** footerAutoRefresh. */
  function AutoRefresh(c: Config, w: Scene): (r: Scene)
    ensures !c.isFooter ==> r == w
    ensures AutoRefreshFires(c, w) ==> r == Begin(c, w.(view := w.view.(isHidden := false)))
    ensures c.isFooter && !AutoRefreshFires(c, w) ==>
              r == w.(view := w.view.(isHidden := ContentTooShort(c, w.scroll)))
    ensures SceneInv(c, w) ==> SceneInv(c, r)
    ensures Inv(w.view) ==> Inv(r.view)
  {
    if !c.isFooter then w
    else
      var v1 := CheckContentSize(c, w.view, w.scroll);
      if ContentTooShort(c, w.scroll) then Scene(v1, w.scroll)
      else if AutoRefreshReached(c, v1.footerAutoRefreshProgress, w.scroll, v1.size) then Begin(c, Scene(v1, w.scroll))
      else Scene(v1, w.scroll)
  }

  /** contentOffsetChange: recompute the progress, notify idle/pulling
      transitions, unhide, then try the footer auto-refresh. */
  function OffsetChange(c: Config, w: Scene): (r: Scene)
    ensures w.view.isRefreshing || !w.scroll.isDragging ==> r == w
    ensures !w.view.isRefreshing && w.scroll.isDragging && !c.isFooter ==> !r.view.isHidden
    ensures c.isFooter && !w.view.isRefreshing && w.scroll.isDragging ==>
              r.view.isHidden == ContentTooShort(c, w.scroll)
    ensures !w.view.isRefreshing && w.scroll.isDragging && AutoRefreshFires(c, w) ==>
              r.view.isRefreshing && r.view.state == Refreshing && r.view.pullProgress == 1.0 &&
              r.view.completions == w.view.completions + 1 &&
              r.scroll == Reveal(c, w.scroll, w.view.size)
    ensures !w.view.isRefreshing && w.scroll.isDragging && AutoRefreshFires(c, w) ==>
              var t := DragTransition(c, w.view.state, DragOffset(c, w.scroll), PullingThreshold(c, w.scroll, w.view.size));
              r.view.notifications ==
                w.view.notifications + [PullProgressUpdated(PullProgress(c, w.scroll, w.view.size))]
                + (if t.Some? then [StateSet(t.value)] else [])
                + [RefreshStateUpdated(true), StateSet(Refreshing)]
    ensures r.view.size == w.view.size && r.view.origin == w.view.origin &&
            r.view.footerAutoRefreshProgress == w.view.footerAutoRefreshProgress
    ensures !w.view.isRefreshing && w.scroll.isDragging && !AutoRefreshFires(c, w) ==>
              !r.view.isRefreshing && r.scroll == w.scroll && r.view.completions == w.view.completions
    ensures Inv(w.view) ==> Inv(r.view)
    ensures SceneInv(c, w) ==> SceneInv(c, r)
  {
    if w.view.isRefreshing || !w.scroll.isDragging then w
    else AutoRefresh(c, Scene(Drag(c, w.view, w.scroll).(isHidden := false), w.scroll))
  }

  /** The first half of contentOffsetChange while dragging: assign the
      progress and send the idle/pulling notification, if any. */
  function Drag(c: Config, v: ViewState, s: ScrollMetrics): ViewState {
    var v1 := AssignPullProgress(c, v, s, PullProgress(c, s, v.size));
    match DragTransition(c, v1.state, DragOffset(c, s), PullingThreshold(c, s, v1.size))
    case Some(st) => SetState(v1, st)
    case None => v1
  }

  /** contentSizeChange: re-run the content-size guard, then move the control
      to the content's end unless it is already there. The horizontal branch
      compares the control's bounds origin, which stays zero, with the content width. */
  function SizeChange(c: Config, w: Scene): (r: Scene)
    ensures r.scroll == w.scroll
    ensures r.view == w.view.(isHidden := r.view.isHidden, origin := r.view.origin)
    ensures c.isFooter ==> r.view.isHidden == ContentTooShort(c, w.scroll)
    ensures ContentTooShort(c, w.scroll) ==> r.view.origin == w.view.origin
    ensures !ContentTooShort(c, w.scroll) && !IsLeftOrRight(c.orientation) ==>
              r.view.origin == w.view.origin.(y := w.scroll.contentSize.height)
    ensures !ContentTooShort(c, w.scroll) && IsLeftOrRight(c.orientation) ==>
              r.view.origin == (if w.scroll.contentSize.width == 0.0 then w.view.origin
                                else w.view.origin.(x := w.scroll.contentSize.width))
    ensures Inv(w.view) ==> SceneInv(c, r)
  {
    var s := w.scroll;
    var v1 := CheckContentSize(c, w.view, s);
    if ContentTooShort(c, s) then Scene(v1, s)
    else if IsLeftOrRight(c.orientation) then
      if 0.0 == s.contentSize.width then Scene(v1, s)
      else Scene(v1.(origin := v1.origin.(x := s.contentSize.width)), s)
    else if v1.origin.y == s.contentSize.height then Scene(v1, s)
    else Scene(v1.(origin := v1.origin.(y := s.contentSize.height)), s)
  }

  /** scrollviewEndDraging: begin refreshing only when not refreshing and fully pulled. */
  function EndDrag(c: Config, w: Scene): (r: Scene)
    ensures w.view.isRefreshing || w.view.pullProgress < 1.0 ==> r == w
    ensures !w.view.isRefreshing && w.view.pullProgress >= 1.0 ==> r == Begin(c, w)
    ensures Inv(w.view) ==> Inv(r.view)
    ensures SceneInv(c, w) ==> SceneInv(c, r)
  {
    if w.view.isRefreshing || w.view.pullProgress < 1.0 then w else Begin(c, w)
  }

  /** An offset change while dragging, with no auto-refresh, changes neither
      the host nor the refreshing flag nor the completion count; it sets the
      progress from the formula, and its only state notification is
      idle->pulling beyond the threshold or pulling->idle short of it. */
  lemma OffsetChangeOnlyPulls(c: Config, w: Scene)
    requires !w.view.isRefreshing && w.scroll.isDragging
    requires !AutoRefreshFires(c, w)
    ensures var r := OffsetChange(c, w);
            var t := DragTransition(c, w.view.state, DragOffset(c, w.scroll), PullingThreshold(c, w.scroll, w.view.size));
            r.scroll == w.scroll && !r.view.isRefreshing && r.view.completions == w.view.completions &&
            r.view.pullProgress == PullProgress(c, w.scroll, w.view.size) &&
            r.view.state == (if t.Some? then t.value else w.view.state) &&
            r.view.notifications ==
              w.view.notifications
              + (if ContentTooShort(c, w.scroll) then [] else [PullProgressUpdated(r.view.pullProgress)])
              + (if t.Some? then [StateSet(t.value)] else [])
  {
  }

  /** The events the control reacts to: the host scrolled (and whether the
      user is dragging), the host's content size changed, the pan gesture
      ended, and the application called beginRefreshing or endRefreshing. */
  datatype Event =
    | Scrolled(offset: Point, dragging: bool)
    | ContentResized(contentSize: Size)
    | PanEnded
    | BeginCalled
    | EndCalled

  /** One event. Content-size changes are observed by footers only. */
  function Step(c: Config, w: Scene, e: Event): Scene {
    match e
    case Scrolled(p, d) => OffsetChange(c, w.(scroll := w.scroll.(contentOffset := p, isDragging := d)))
    case ContentResized(sz) =>
      var w1 := w.(scroll := w.scroll.(contentSize := sz));
      if c.isFooter then SizeChange(c, w1) else w1
    case PanEnded => EndDrag(c, w)
    case BeginCalled => Begin(c, w)
    case EndCalled => End(c, w)
  }

  function Run(c: Config, w: Scene, events: seq<Event>): Scene
    decreases |events|
  {
    if events == [] then w else Run(c, Step(c, w, events[0]), events[1..])
  }

  lemma StepKeepsInvariant(c: Config, w: Scene, e: Event)
    requires SceneInv(c, w)
    ensures SceneInv(c, Step(c, w, e))
  {
  }

  /** Whatever events arrive, the progress stays in [0,1], refreshing and the
      `refreshing` state coincide, and a footer with too little content stays hidden. */
  lemma {:induction false} RunKeepsInvariant(c: Config, w: Scene, events: seq<Event>)
    requires SceneInv(c, w)
    ensures SceneInv(c, Run(c, w, events))
    decreases |events|
  {
    if events != [] {
      StepKeepsInvariant(c, w, events[0]);
      RunKeepsInvariant(c, Step(c, w, events[0]), events[1..]);
    }
  }

  /** While refreshing, no event but endRefreshing changes the insets, the
      refreshing flag or the control's size: scrolling, drag ends and repeated
      beginRefreshing calls are ignored. */
  lemma {:induction false} RefreshingKeepsInsets(c: Config, w: Scene, events: seq<Event>)
    requires w.view.isRefreshing
    requires EndCalled !in events
    ensures Run(c, w, events).view.isRefreshing
    ensures Run(c, w, events).view.size == w.view.size
    ensures Run(c, w, events).scroll.contentInset == w.scroll.contentInset
    decreases |events|
  {
    if events != [] {
      assert events[0] in events;
      var w1 := Step(c, w, events[0]);
      assert w1.view.isRefreshing && w1.view.size == w.view.size && w1.scroll.contentInset == w.scroll.contentInset;
      assert forall e :: e in events[1..] ==> e in events;
      RefreshingKeepsInsets(c, w1, events[1..]);
    }
  }

  /** A refresh cycle restores the insets: beginRefreshing that takes effect,
      then any events other than endRefreshing, then endRefreshing, leaves
      every inset as it was. */
  lemma RefreshCycleRestoresInsets(c: Config, w: Scene, events: seq<Event>)
    requires !w.view.isRefreshing && !ContentTooShort(c, w.scroll)
    requires EndCalled !in events
    ensures End(c, Run(c, Begin(c, w), events)).scroll.contentInset == w.scroll.contentInset
  {
    var b := Begin(c, w);
    RefreshingKeepsInsets(c, b, events);
    ConcealUndoesReveal(c, w.scroll, Run(c, b, events).scroll, w.view.size);
  }

  /** A vertical header of height 44 over a 320x480 scroll view with no
      insets, attached and idle. */
  function HeaderAt(offsetY: real, dragging: bool, state: RefreshState): Scene {
    Scene(ViewState(state, false, 0.0, false, Point(0.0, -44.0), Size(320.0, 44.0), 1.0, [], 0),
          ScrollMetrics(Point(0.0, offsetY), EdgeInsets(0.0, 0.0, 0.0, 0.0), Size(320.0, 1000.0), Size(320.0, 480.0), dragging))
  }

  /** Pulling a header 50 points down reports `pulling` and a full progress;
      releasing it then begins refreshing: the top inset becomes 44, the
      offset is moved to -44 and the completion callback runs once. */
  lemma HeaderPullThenReleaseScenario()
    ensures var c := Config(Top, false);
            var w1 := OffsetChange(c, HeaderAt(-50.0, true, Idle));
            var w2 := EndDrag(c, w1);
            w1.view.pullProgress == 1.0 && w1.view.state == Pulling &&
            w2.view.state == Refreshing && w2.view.isRefreshing && w2.view.completions == 1 &&
            w2.scroll.contentInset.top == 44.0 && w2.scroll.contentOffset.y == -44.0
  {
  }

  /** A vertical footer of height 44 below 1000 points of content in an
      800-point scroll view, auto-refresh ratio `ratio`, dragged to `offsetY`. */
  function FooterAt(offsetY: real, ratio: real): Scene {
    Scene(ViewState(Idle, false, 0.0, false, Point(0.0, 1000.0), Size(320.0, 44.0), ratio, [], 0),
          ScrollMetrics(Point(0.0, offsetY), EdgeInsets(0.0, 0.0, 0.0, 0.0), Size(320.0, 1000.0), Size(320.0, 800.0), true))
  }

  /** At offset 244 the footer is exactly revealed: progress 1, and with the
      default ratio nothing starts until the drag ends. */
  lemma FooterRevealScenario()
    ensures var c := Config(Bottom, true);
            var w1 := OffsetChange(c, FooterAt(244.0, 1.0));
            w1.view.pullProgress == 1.0 && !w1.view.isRefreshing &&
            EndDrag(c, w1).view.isRefreshing && EndDrag(c, w1).scroll.contentInset.bottom == 44.0
  {
  }

  /** With ratio 0.5 the auto-refresh threshold is (1000 - 800 - 0 - 44) * 0.5
      = 78: offset 78 begins loading while dragging, offset 77 does not. */
  lemma FooterAutoRefreshScenario()
    ensures OffsetChange(Config(Bottom, true), FooterAt(78.0, 0.5)).view.isRefreshing
    ensures !OffsetChange(Config(Bottom, true), FooterAt(77.0, 0.5)).view.isRefreshing
  {
  }
}

/** The overlay window manager (src/main/window.ts). The manager keeps the native window (or
    none), whether it believes the window visible, whether the window is cloaked from screen
    capture and window lists, and whether the one-time expansion has happened. */
module Window {
  import opened Wrappers
  import opened Types
  import Constants

  /** What the model keeps of a native window: its bounds, whether it is on screen, and whether
      it is cloaked (left out of the taskbar and Mission Control, content-protected). */
  datatype NativeWindow = NativeWindow(bounds: Bounds, shown: bool, cloaked: bool)

  datatype WmState = WmState(mainWindow: Option<NativeWindow>, isVisible: bool, isHidden: bool, heightUpdated: bool)

  const Initial := WmState(None, false, false, false)

  /** The horizontal position and the gap above the bottom of the work area of a new window. */
  const InitialX := 100
  const BottomMargin := 80

  /** How much an expansion lowers the top edge. */
  const Growth := Constants.ExpandedHeight - Constants.WindowHeight

  function InitialBounds(workAreaHeight: int): Bounds {
    Bounds(InitialX, workAreaHeight - Constants.WindowHeight - BottomMargin, Constants.WindowWidth, Constants.WindowHeight)
  }

  /** createWindow: a new native window at the initial bounds, cloaked as the manager's flag
      says. Electron shows a new window by default; `isVisible` is left as it was. */
  function Created(s: WmState, workAreaHeight: int): WmState {
    s.(mainWindow := Some(NativeWindow(InitialBounds(workAreaHeight), true, s.isHidden)))
  }

  /** toggle */
  function Toggled(s: WmState): WmState {
    match s.mainWindow
    case None => s
    case Some(w) =>
      if s.isVisible then s.(mainWindow := Some(w.(shown := false)), isVisible := false)
      else s.(mainWindow := Some(w.(shown := true)), isVisible := true)
  }

  /** Whether `expandIfNeeded` would act. */
  predicate WillExpand(s: WmState) {
    s.mainWindow.Some? && !s.heightUpdated
  }

  /** The bounds an expansion sets: same `x`, full width, expanded height, top raised by the growth. */
  function ExpandedBounds(b: Bounds): Bounds {
    Bounds(b.x, b.y - Growth, Constants.WindowWidth, Constants.ExpandedHeight)
  }

  /** expandIfNeeded */
  function ExpandedIfNeeded(s: WmState): WmState {
    if WillExpand(s) then
      s.(mainWindow := Some(s.mainWindow.value.(bounds := ExpandedBounds(s.mainWindow.value.bounds))), heightUpdated := true)
    else s
  }

  function Shown(s: WmState): WmState {
    if s.mainWindow.Some? then s.(mainWindow := Some(s.mainWindow.value.(shown := true)), isVisible := true) else s
  }

  function Hidden(s: WmState): WmState {
    if s.mainWindow.Some? then s.(mainWindow := Some(s.mainWindow.value.(shown := false)), isVisible := false) else s
  }

  function Closed(s: WmState): WmState {
    s.(mainWindow := None)
  }

  function WithHidden(s: WmState, hidden: bool): WmState {
    s.(isHidden := hidden,
       mainWindow := if s.mainWindow.Some? then Some(s.mainWindow.value.(cloaked := hidden)) else None)
  }

  /** getState */
  function StateOf(s: WmState): (r: WindowState)
    ensures s.mainWindow.None? ==>
      r == WindowState(Constants.WindowWidth, Constants.WindowHeight, InitialX, 0, false)
    ensures s.mainWindow.Some? ==>
      var b := s.mainWindow.value.bounds;
      r == WindowState(b.width, b.height, b.x, b.y, s.isVisible)
  {
    match s.mainWindow
    case None => WindowState(Constants.WindowWidth, Constants.WindowHeight, InitialX, 0, false)
    case Some(w) => WindowState(w.bounds.width, w.bounds.height, w.bounds.x, w.bounds.y, s.isVisible)
  }

  // ------------------------------------------------------------------ properties

  /** With a window, toggling flips `isVisible` and shows or hides the window accordingly; two
      toggles restore `isVisible`; without a window nothing changes. Bounds are never touched. */
  lemma ToggleFlipsVisibility(s: WmState)
    ensures s.mainWindow.None? ==> Toggled(s) == s
    ensures s.mainWindow.Some? ==>
      && Toggled(s).isVisible == !s.isVisible
      && Toggled(s).mainWindow.Some?
      && Toggled(s).mainWindow.value.shown == !s.isVisible
      && Toggled(s).mainWindow.value.bounds == s.mainWindow.value.bounds
    ensures Toggled(Toggled(s)).isVisible == s.isVisible
    ensures Toggled(s).heightUpdated == s.heightUpdated && Toggled(s).isHidden == s.isHidden
  {
  }

  /** `show`/`hide` set `isVisible` only when a window exists. */
  lemma ShowHideNeedAWindow(s: WmState)
    ensures s.mainWindow.None? ==> Shown(s) == s && Hidden(s) == s
    ensures s.mainWindow.Some? ==> Shown(s).isVisible && !Hidden(s).isVisible
    ensures s.mainWindow.Some? ==> Shown(s).mainWindow.value.shown && !Hidden(s).mainWindow.value.shown
  {
  }

  /** Expansion is a no-op without a window or after a first expansion, and is idempotent. */
  lemma ExpandIsOneShot(s: WmState)
    ensures !WillExpand(s) ==> ExpandedIfNeeded(s) == s
    ensures ExpandedIfNeeded(s).heightUpdated == (s.heightUpdated || s.mainWindow.Some?)
    ensures ExpandedIfNeeded(ExpandedIfNeeded(s)) == ExpandedIfNeeded(s)
  {
  }

  /** An effective expansion keeps `x`, sets the full width and the expanded height, and raises
      the top edge by exactly 300. */
  lemma ExpansionGeometry(s: WmState)
    requires WillExpand(s)
    ensures var before := s.mainWindow.value.bounds;
      var after := ExpandedIfNeeded(s).mainWindow.value.bounds;
      after == Bounds(before.x, before.y - 300, 600, 350)
  {
    Constants.ExpansionGrowthIs300();
  }

  /** The bottom edge stays put exactly when the window had the collapsed height. */
  lemma ExpansionKeepsBottomEdgeIff(s: WmState)
    requires WillExpand(s)
    ensures var before := s.mainWindow.value.bounds;
      var after := ExpandedIfNeeded(s).mainWindow.value.bounds;
      after.y + after.height == before.y + before.height <==> before.height == Constants.WindowHeight
  {
  }

  /** The operations the manager offers, including the global shortcuts' effects. */
  datatype Op = Create(workAreaHeight: int) | Toggle | Expand | Show | Hide | Close | SetHidden(hidden: bool) | GetState

  function Step(s: WmState, op: Op): WmState {
    match op
    case Create(h) => Created(s, h)
    case Toggle => Toggled(s)
    case Expand => ExpandedIfNeeded(s)
    case Show => Shown(s)
    case Hide => Hidden(s)
    case Close => Closed(s)
    case SetHidden(b) => WithHidden(s, b)
    case GetState => s
  }

  function RunOps(s: WmState, ops: seq<Op>): WmState
    decreases |ops|
  {
    if ops == [] then s else RunOps(Step(s, ops[0]), ops[1..])
  }

  /** How many of the operations actually resize the window. */
  function Expansions(s: WmState, ops: seq<Op>): nat
    decreases |ops|
  {
    if ops == [] then 0
    else (if ops[0] == Expand && WillExpand(s) then 1 else 0) + Expansions(Step(s, ops[0]), ops[1..])
  }

  /** `heightUpdated` is never reset, not by `close` nor by a later `createWindow`, so however
      the operations interleave, at most one expansion happens, and none once one has. */
  lemma {:induction false} AtMostOneExpansion(s: WmState, ops: seq<Op>)
    ensures Expansions(s, ops) <= (if s.heightUpdated then 0 else 1)
    ensures s.heightUpdated ==> RunOps(s, ops).heightUpdated
    decreases |ops|
  {
    if ops != [] {
      var s1 := Step(s, ops[0]);
      assert s.heightUpdated ==> s1.heightUpdated;
      AtMostOneExpansion(s1, ops[1..]);
      if ops[0] == Expand && WillExpand(s) {
        assert s1.heightUpdated;
      }
    }
  }

  /** Until the expansion, a window the manager holds keeps the created size (it is not
      resizable and nothing else sets its bounds). */
  predicate Collapsed(s: WmState) {
    s.mainWindow.Some? && !s.heightUpdated ==>
      s.mainWindow.value.bounds.height == Constants.WindowHeight && s.mainWindow.value.bounds.width == Constants.WindowWidth
  }

  lemma {:induction false} ReachableIsCollapsed(ops: seq<Op>, s: WmState)
    requires Collapsed(s)
    ensures Collapsed(RunOps(s, ops))
    decreases |ops|
  {
    if ops != [] {
      ReachableIsCollapsed(ops[1..], Step(s, ops[0]));
    }
  }

  /** Hence, in any run from start-up, the one expansion keeps the window's bottom edge in place. */
  lemma FirstExpansionKeepsBottomEdge(ops: seq<Op>)
    requires WillExpand(RunOps(Initial, ops))
    ensures var s := RunOps(Initial, ops);
      var before := s.mainWindow.value.bounds;
      var after := ExpandedIfNeeded(s).mainWindow.value.bounds;
      after.y + after.height == before.y + before.height
  {
    ReachableIsCollapsed(ops, Initial);
    ExpansionKeepsBottomEdgeIff(RunOps(Initial, ops));
  }

  /** A new window is 600 by 50 at x = 100, 80 pixels above the bottom of the work area, and
      the manager starts out believing it invisible. */
  lemma CreatedPosition(workAreaHeight: int)
    ensures var s := Created(Initial, workAreaHeight);
      && s.mainWindow.value.bounds == Bounds(100, workAreaHeight - 130, 600, 50)
      && !s.isVisible && !s.mainWindow.value.cloaked
  {
  }

  /** Because a new window is on screen while `isVisible` starts false, the first toggle after
      start-up "shows" the already visible window: the overlay stays on screen. */
  lemma FirstToggleKeepsWindowOnScreen(workAreaHeight: int)
    ensures var s := Toggled(Created(Initial, workAreaHeight));
      s.isVisible && s.mainWindow.value.shown
    ensures Toggled(Toggled(Created(Initial, workAreaHeight))).mainWindow.value.shown == false
  {
  }

  /** The manager object. Each method moves `State()` by the step function above. */
  class WindowManager {
    var mainWindow: Option<NativeWindow>
    var isVisible: bool
    var isHidden: bool
    var heightUpdated: bool

    function State(): WmState
      reads this
    {
      WmState(mainWindow, isVisible, isHidden, heightUpdated)
    }

    constructor ()
      ensures State() == Initial
    {
      mainWindow, isVisible, isHidden, heightUpdated := None, false, false, false;
    }

    method CreateWindow(workAreaHeight: int)
      modifies this
      ensures State() == Created(old(State()), workAreaHeight)
    {
      mainWindow := Some(NativeWindow(InitialBounds(workAreaHeight), true, isHidden));
    }

    method Toggle()
      modifies this
      ensures State() == Toggled(old(State()))
    {
      if mainWindow.None? {
        return;
      }
      if isVisible {
        mainWindow := Some(mainWindow.value.(shown := false));
        isVisible := false;
      } else {
        mainWindow := Some(mainWindow.value.(shown := true));
        isVisible := true;
      }
    }

    /** Returns the bounds it set, if it acted. */
    method ExpandIfNeeded() returns (resized: Option<Bounds>)
      modifies this
      ensures State() == ExpandedIfNeeded(old(State()))
      ensures resized.Some? <==> WillExpand(old(State()))
      ensures resized.Some? ==> resized.value == ExpandedBounds(old(mainWindow).value.bounds)
    {
      if mainWindow.None? || heightUpdated {
        return None;
      }
      var b := mainWindow.value.bounds;
      var growth := Constants.ExpandedHeight - Constants.WindowHeight;
      var target := Bounds(b.x, b.y - growth, Constants.WindowWidth, Constants.ExpandedHeight);
      mainWindow := Some(mainWindow.value.(bounds := target));
      heightUpdated := true;
      return Some(target);
    }

    /** getState reads the manager and changes nothing. */
    function GetState(): (r: WindowState)
      reads this
      ensures mainWindow.None? ==> r == WindowState(600, 50, 100, 0, false)
      ensures mainWindow.Some? ==>
        r == WindowState(mainWindow.value.bounds.width, mainWindow.value.bounds.height,
                         mainWindow.value.bounds.x, mainWindow.value.bounds.y, isVisible)
    {
      StateOf(State())
    }

    method Show()
      modifies this
      ensures State() == Shown(old(State()))
    {
      if mainWindow.Some? {
        mainWindow := Some(mainWindow.value.(shown := true));
        isVisible := true;
      }
    }

    method Hide()
      modifies this
      ensures State() == Hidden(old(State()))
    {
      if mainWindow.Some? {
        mainWindow := Some(mainWindow.value.(shown := false));
        isVisible := false;
      }
    }

    method Close()
      modifies this
      ensures State() == Closed(old(State()))
    {
      if mainWindow.Some? {
        mainWindow := None;
      }
    }

    method SetHidden(hidden: bool)
      modifies this
      ensures State() == WithHidden(old(State()), hidden)
    {
      isHidden := hidden;
      if mainWindow.Some? {
        mainWindow := Some(mainWindow.value.(cloaked := hidden));
      }
    }

    /** The screenshot and audio shortcuts: expand, then tell the renderer, if there is a window. */
    method OnCaptureShortcut(channel: string) returns (sent: Option<string>)
      requires channel == "shortcut:screenshot" || channel == "shortcut:audio"
      modifies this
      ensures State() == ExpandedIfNeeded(old(State()))
      ensures sent == if old(mainWindow).Some? then Some(channel) else None
    {
      var _ := ExpandIfNeeded();
      sent := if mainWindow.Some? then Some(channel) else None;
    }
  }
}

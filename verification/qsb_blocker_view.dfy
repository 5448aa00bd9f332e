/**
 * The smartspace card of the pill search bar (QsbBlockerView): a frame that
 * shows a date card or a weather card, swaps one for the other with a
 * cross-fade when the smartspace data changes kind, keeps the card inset to
 * the icon grid in the vertical-bar layout, and draws a white background
 * whose alpha is an animatable property.
 *
 * The card is specified on a value (Card) by the step functions Updated,
 * FadeOutEnded and FadeInEnded; the class QsbBlockerView holds the same state
 * in fields and its methods are proved to follow those functions.
 */
module QsbBlocker {
  import opened Wrappers

  /** The values of mState. */
  const NO_CARD: int := 0
  const DATE_CARD: int := 1
  const WEATHER_CARD: int := 2

  /** Length of both halves of the cross-fade, in milliseconds. */
  const FADE_DURATION_MS: int := 200

  /** Identity of a child view. Fresh ids come from the layout inflater. */
  type ViewId = nat

  /** The child the frame's own XML declares (the dummy bubble text view). */
  const DUMMY_VIEW: ViewId := 0

  /** The smartspace weather; the card only passes it on to the weather widget. */
  datatype WeatherData = WeatherData(icon: int, title: string)

  /** The layout a card view was inflated from. */
  datatype Layout = DateWidget | WeatherWidget

  /** The state a data update moves the card to. */
  function CardStateFor(weather: Option<WeatherData>): (s: int)
    ensures s == DATE_CARD <==> weather.None?
    ensures s == WEATHER_CARD <==> weather.Some?
  {
    if weather.None? then DATE_CARD else WEATHER_CARD
  }

  /** The layout inflated for a card state. */
  function LayoutFor(state: int): Layout
  {
    if state == WEATHER_CARD then WeatherWidget else DateWidget
  }

  // ---------------------------------------------------------------------
  // Child lists
  // ---------------------------------------------------------------------

  predicate NoDup(s: seq<ViewId>)
  {
    forall i, j :: 0 <= i < j < |s| ==> s[i] != s[j]
  }

  /** s without v, as removeView leaves the child list. */
  function Remove(s: seq<ViewId>, v: ViewId): (r: seq<ViewId>)
    ensures forall x :: x in r <==> x in s && x != v
    ensures NoDup(s) ==> NoDup(r)
    ensures v !in s ==> r == s
  {
    if s == [] then []
    else if s[0] == v then Remove(s[1..], v)
    else
      var rest := Remove(s[1..], v);
      assert NoDup(s) ==> s[0] !in s[1..];
      [s[0]] + rest
  }

  /** removeView keeps the other children in their order: it cuts the view out where it stands. */
  lemma {:induction false} RemoveKeepsOrder(s: seq<ViewId>, v: ViewId)
    requires NoDup(s) && v in s
    ensures exists i :: 0 <= i < |s| && s[i] == v && Remove(s, v) == s[..i] + s[i + 1..]
  {
    if s[0] == v {
      assert v !in s[1..];
      assert Remove(s, v) == s[..0] + s[1..];
    } else {
      var t := s[1..];
      assert NoDup(t);
      RemoveKeepsOrder(t, v);
      var i :| 0 <= i < |t| && t[i] == v && Remove(t, v) == t[..i] + t[i + 1..];
      assert s[i + 1] == v;
      assert Remove(s, v) == s[..i + 1] + s[i + 2..];
    }
  }

  /** The set holding the view, if any. */
  function ViewSet(v: Option<ViewId>): set<ViewId>
  {
    if v.Some? then {v.value} else {}
  }

  // ---------------------------------------------------------------------
  // The card as a value
  // ---------------------------------------------------------------------

  /**
   * What the frame knows about its card: mState and mView, the child list,
   * the views whose fade-in or fade-out animation is still running (a view
   * fading out is removed when its fade ends), the layout every inflated
   * view came from, the weather applied to each weather view, the views with
   * a click or long-click listener, and the next id the inflater hands out.
   */
  datatype Card = Card(
    state: int,
    view: Option<ViewId>,
    children: seq<ViewId>,
    fadingIn: set<ViewId>,
    fadingOut: set<ViewId>,
    layouts: map<ViewId, Layout>,
    weatherShown: map<ViewId, WeatherData>,
    clickListened: set<ViewId>,
    longClickListened: set<ViewId>,
    nextId: nat)

  /** The card the frame starts with: no card, only the declared child. */
  const InitialCard: Card :=
    Card(NO_CARD, None, [DUMMY_VIEW], {}, {}, map[], map[], {}, {}, DUMMY_VIEW + 1)

  /** The invariant every reachable card keeps. */
  predicate CardValid(c: Card)
  {
    && c.state in {NO_CARD, DATE_CARD, WEATHER_CARD}
    && (c.state == NO_CARD <==> c.view.None?)
    && NoDup(c.children)
    && (forall v :: v in c.children ==> v < c.nextId)
    && (forall v :: v in c.layouts ==> v < c.nextId)
    && (forall v :: v in c.fadingIn ==> v in c.children && v !in c.fadingOut)
    && (forall v :: v in c.fadingOut ==> v in c.children)
    && (c.view.Some? ==>
          && c.view.value in c.children
          && c.view.value !in c.fadingOut
          && c.view.value in c.layouts
          && c.layouts[c.view.value] == LayoutFor(c.state)
          && c.view.value in c.longClickListened)
    && (c.state == WEATHER_CARD ==>
          c.view.value in c.weatherShown && c.view.value in c.clickListened)
  }

  /**
   * One onDataUpdated call. With the pill search bar off nothing changes.
   * Otherwise the state follows the weather, the old view is kept only when
   * there is one and the state is the same (else a fresh view is inflated),
   * a weather card gets the weather and a click listener, and the child list
   * changes as follows: on a state change the new view is added and fades in
   * while the old one fades out and stays a child until its fade ends; with
   * the same state but another view the old one is removed at once and the
   * new one added; with the same view nothing moves. The current view always
   * gets the long-click listener.
   */
  function Updated(c: Card, usePillQsb: bool, weather: Option<WeatherData>): Card
  {
    if !usePillQsb then c else ViewsSwapped(ViewChosen(c, weather), c.state, c.view)
  }

  /**
   * The first half of an update: the state follows the weather, the view is
   * kept when there is one and the state is the same and is otherwise a
   * freshly inflated one, and a weather card gets the weather and a click
   * listener.
   */
  function ViewChosen(c: Card, weather: Option<WeatherData>): Card
  {
    var state := CardStateFor(weather);
    var reuse := c.view.Some? && c.state == state;
    var v := if reuse then c.view.value else c.nextId;
    var layouts := if reuse then c.layouts else c.layouts[v := LayoutFor(state)];
    var nextId := if reuse then c.nextId else c.nextId + 1;
    var d := c.(state := state, view := Some(v), layouts := layouts, nextId := nextId);
    if weather.Some? then
      d.(weatherShown := c.weatherShown[v := weather.value], clickListened := c.clickListened + {v})
    else d
  }

  /**
   * The second half of an update, given the state and view before it: on a
   * state change the new view is added and fades in while the old one fades
   * out and stays a child until its fade ends; with the same state but
   * another view the old one is removed at once and the new one added; with
   * the same view nothing moves. The current view gets the long-click
   * listener.
   */
  function ViewsSwapped(c: Card, oldState: int, oldView: Option<ViewId>): Card
    requires c.view.Some?
  {
    var v := c.view.value;
    var was := ViewSet(oldView);
    var d := c.(longClickListened := c.longClickListened + {v});
    if oldState != c.state then
      d.(children := c.children + [v], fadingIn := (c.fadingIn - was) + {v}, fadingOut := c.fadingOut + was)
    else if oldView != c.view then
      var kept := match oldView case Some(u) => Remove(c.children, u) case None => c.children;
      d.(children := kept + [v])
    else d
  }

  /** The end action of a fade-out: the faded view leaves the child list. */
  function FadeOutEnded(c: Card, v: ViewId): Card
    requires v in c.fadingOut
  {
    c.(children := Remove(c.children, v), fadingOut := c.fadingOut - {v}, fadingIn := c.fadingIn - {v})
  }

  /** The end of a fade-in: the view is fully shown. */
  function FadeInEnded(c: Card, v: ViewId): Card
    requires v in c.fadingIn
  {
    c.(fadingIn := c.fadingIn - {v})
  }

  // ---------------------------------------------------------------------
  // Properties of the card
  // ---------------------------------------------------------------------

  lemma InitialCardValid()
    ensures CardValid(InitialCard)
  {
  }

  /** Every data update keeps the card invariant. */
  lemma UpdatePreservesValid(c: Card, usePillQsb: bool, weather: Option<WeatherData>)
    requires CardValid(c)
    ensures CardValid(Updated(c, usePillQsb, weather))
  {
    var d := Updated(c, usePillQsb, weather);
    if usePillQsb {
      var v := d.view.value;
      if c.state != d.state {
        assert v == c.nextId && v !in c.children;
        forall i, j | 0 <= i < j < |d.children| ensures d.children[i] != d.children[j] {
          if j == |c.children| {
            assert d.children[i] == c.children[i];
          } else {
            assert d.children[i] == c.children[i] && d.children[j] == c.children[j];
          }
        }
      }
    }
  }

  lemma FadeOutEndedPreservesValid(c: Card, v: ViewId)
    requires CardValid(c) && v in c.fadingOut
    ensures CardValid(FadeOutEnded(c, v))
  {
  }

  lemma FadeInEndedPreservesValid(c: Card, v: ViewId)
    requires CardValid(c) && v in c.fadingIn
    ensures CardValid(FadeInEnded(c, v))
  {
  }

  /** With the pill search bar off, an update changes nothing at all. */
  lemma PrefOffLeavesCard(c: Card, weather: Option<WeatherData>)
    ensures Updated(c, false, weather) == c
  {
  }

  /**
   * The view survives an update exactly when the state stays the same (and
   * there is a view); otherwise the update inflates a view no child and no
   * earlier view had, from the layout of the new state.
   */
  lemma ViewReusedIffSameState(c: Card, weather: Option<WeatherData>)
    requires CardValid(c)
    ensures var d := Updated(c, true, weather);
      && d.state == CardStateFor(weather)
      && (d.view == c.view <==> c.state == d.state)
      && (c.state != d.state ==>
            && d.view.value !in c.children && d.view.value !in c.layouts
            && d.layouts[d.view.value] == LayoutFor(d.state))
  {
  }

  /** A weather card shows the latest weather, even when its view is reused. */
  lemma WeatherAppliedOnEveryUpdate(c: Card, w: WeatherData)
    ensures var d := Updated(c, true, Some(w));
      d.state == WEATHER_CARD && d.view.Some? &&
      d.weatherShown == c.weatherShown[d.view.value := w] && d.view.value in d.clickListened
  {
  }

  /**
   * On a change of state the new view is appended and fades in; the old view
   * fades out but is still a child until its fade ends, and then the child
   * list is the old one without it, plus the new view.
   */
  lemma StateChangeCrossFades(c: Card, weather: Option<WeatherData>)
    requires CardValid(c) && c.state != CardStateFor(weather)
    ensures var d := Updated(c, true, weather);
      && d.children == c.children + [d.view.value]
      && d.view.value in d.fadingIn
      && (c.view.Some? ==>
            && c.view.value in d.children && c.view.value in d.fadingOut
            && FadeOutEnded(d, c.view.value).children == Remove(c.children, c.view.value) + [d.view.value])
  {
    var d := Updated(c, true, weather);
    if c.view.Some? {
      var u := c.view.value;
      assert u != d.view.value;
      assert Remove(d.children, u) == Remove(c.children, u) + [d.view.value] by {
        RemoveAppend(c.children, [d.view.value], u);
      }
    }
  }

  lemma {:induction false} RemoveAppend(s: seq<ViewId>, t: seq<ViewId>, v: ViewId)
    requires v !in t
    ensures Remove(s + t, v) == Remove(s, v) + t
  {
    if s == [] {
      assert s + t == t;
    } else {
      assert (s + t)[1..] == s[1..] + t;
      RemoveAppend(s[1..], t, v);
    }
  }

  /**
   * Of a reachable card, an update that keeps the state keeps the view, so
   * the branch that swaps views without a fade is never taken: the children
   * and the running fades stay as they were.
   */
  lemma SameStateKeepsChildren(c: Card, weather: Option<WeatherData>)
    requires CardValid(c) && c.state == CardStateFor(weather)
    ensures var d := Updated(c, true, weather);
      d.view == c.view && d.children == c.children &&
      d.fadingIn == c.fadingIn && d.fadingOut == c.fadingOut && d.nextId == c.nextId
  {
  }

  /** Delivering the same data twice is the same as delivering it once. */
  lemma UpdateIdempotent(c: Card, usePillQsb: bool, weather: Option<WeatherData>)
    requires CardValid(c)
    ensures Updated(Updated(c, usePillQsb, weather), usePillQsb, weather) == Updated(c, usePillQsb, weather)
  {
    UpdatePreservesValid(c, usePillQsb, weather);
  }

  // ---------------------------------------------------------------------
  // Measuring
  // ---------------------------------------------------------------------

  /** Java's int division, which truncates toward zero. */
  function TruncDiv(a: int, b: int): (q: int)
    requires b != 0
    ensures var r := a - q * b;
      (if r < 0 then -r else r) < (if b < 0 then -b else b) && (r == 0 || (r < 0 <==> a < 0))
  {
    var n := (if a < 0 then -a else a) / (if b < 0 then -b else b);
    if (a < 0) != (b < 0) then -n else n
  }

  /** 2^30: the size bits of a measure spec end below this. */
  const MODE_SHIFT_UNIT: int := 0x4000_0000

  /** A 32-bit two's-complement int, as Java stores it. */
  predicate IsInt32(x: int)
  {
    -0x8000_0000 <= x < 0x8000_0000
  }

  /** Wrap an integer to Java's int. */
  function Wrap32(x: int): (r: int)
    ensures IsInt32(r) && (x - r) % 0x1_0000_0000 == 0
  {
    var m := x % 0x1_0000_0000;
    if m < 0x8000_0000 then m else m - 0x1_0000_0000
  }

  /** MeasureSpec.getSize: the low 30 bits of the spec. */
  function MeasureSpecSize(spec: int): (size: int)
    requires IsInt32(spec)
    ensures 0 <= size < MODE_SHIFT_UNIT
  {
    spec % MODE_SHIFT_UNIT
  }

  /** MeasureSpec.makeMeasureSpec: the mode (0, 1 or 2) in the top two bits. */
  function MakeMeasureSpec(size: int, mode: int): (spec: int)
    requires 0 <= size < MODE_SHIFT_UNIT && 0 <= mode <= 2
    ensures IsInt32(spec)
  {
    Wrap32(mode * MODE_SHIFT_UNIT + size)
  }

  /** getSize reads back the size a spec was made with, whatever its mode. */
  lemma MeasureSpecSizeRoundTrip(size: int, mode: int)
    requires 0 <= size < MODE_SHIFT_UNIT && 0 <= mode <= 2
    ensures MeasureSpecSize(MakeMeasureSpec(size, mode)) == size
  {
    var spec := MakeMeasureSpec(size, mode);
    var k := (mode * MODE_SHIFT_UNIT + size - spec) / 0x1_0000_0000;
    assert spec == mode * MODE_SHIFT_UNIT + size - k * 0x1_0000_0000;
    assert spec == (mode - 4 * k) * MODE_SHIFT_UNIT + size;
  }

  /** What the card needs from the launcher when it measures. */
  datatype LauncherEnv = LauncherEnv(verticalBarLayout: bool, numColumns: int, iconSizePx: int)

  /**
   * The left and right margin of a weather card: in the vertical-bar layout
   * half of what a grid column leaves beside an icon, in any other launcher
   * layout none, and without a launcher the preview margin resource.
   */
  function SideMargin(widthMeasureSpec: int, launcher: Option<LauncherEnv>, previewMargin: int): (m: int)
    requires IsInt32(widthMeasureSpec)
    requires launcher.Some? && launcher.value.verticalBarLayout ==> launcher.value.numColumns != 0
    ensures launcher.None? ==> m == previewMargin
    ensures launcher.Some? && !launcher.value.verticalBarLayout ==> m == 0
  {
    match launcher
    case None => previewMargin
    case Some(l) =>
      if l.verticalBarLayout then
        TruncDiv(TruncDiv(MeasureSpecSize(widthMeasureSpec), l.numColumns) - l.iconSizePx, 2)
      else 0
  }

  /**
   * In the vertical-bar layout, when a column is at least as wide as an icon,
   * an icon with the margin on both sides fills the column up to one pixel.
   */
  lemma MarginCentersIcon(widthMeasureSpec: int, l: LauncherEnv, previewMargin: int)
    requires IsInt32(widthMeasureSpec) && l.verticalBarLayout && l.numColumns > 0
    requires MeasureSpecSize(widthMeasureSpec) / l.numColumns >= l.iconSizePx
    ensures var m := SideMargin(widthMeasureSpec, Some(l), previewMargin);
      var column := MeasureSpecSize(widthMeasureSpec) / l.numColumns;
      m >= 0 && 2 * m + l.iconSizePx <= column <= 2 * m + l.iconSizePx + 1
  {
  }

  // ---------------------------------------------------------------------
  // The view
  // ---------------------------------------------------------------------

  class QsbBlockerView {
    var state: int
    var view: Option<ViewId>
    var children: seq<ViewId>
    var fadingIn: set<ViewId>
    var fadingOut: set<ViewId>
    var layouts: map<ViewId, Layout>
    var weatherShown: map<ViewId, WeatherData>
    var clickListened: set<ViewId>
    var longClickListened: set<ViewId>
    var nextId: nat

    /** Left and right margin (always equal) of each card view's layout params. */
    var sideMargins: map<ViewId, int>
    var paddingLeft: int
    var paddingTop: int
    var paddingRight: int
    var paddingBottom: int
    /** Alpha of the background paint, and whether the frame skips drawing. */
    var bgAlpha: int
    var willNotDraw: bool
    /** How many redraws have been requested. */
    var invalidations: nat

    function Snapshot(): Card
      reads this
    {
      Card(state, view, children, fadingIn, fadingOut, layouts, weatherShown,
           clickListened, longClickListened, nextId)
    }

    predicate Valid()
      reads this
    {
      CardValid(Snapshot()) && 0 <= bgAlpha <= 255
    }

    /** A frame ViewGroup starts with willNotDraw set; the paint starts transparent. */
    constructor ()
      ensures Valid() && Snapshot() == InitialCard
      ensures bgAlpha == 0 && willNotDraw && invalidations == 0 && sideMargins == map[]
    {
      state, view, children := NO_CARD, None, [DUMMY_VIEW];
      fadingIn, fadingOut := {}, {};
      layouts, weatherShown := map[], map[];
      clickListened, longClickListened := {}, {};
      nextId := DUMMY_VIEW + 1;
      sideMargins := map[];
      paddingLeft, paddingTop, paddingRight, paddingBottom := 0, 0, 0, 0;
      bgAlpha, willNotDraw, invalidations := 0, true, 0;
    }

    /** The smartspace listener callback; the card data is not used. */
    method OnDataUpdated(usePillQsb: bool, weather: Option<WeatherData>)
      requires Valid()
      modifies this`state, this`view, this`children, this`fadingIn, this`fadingOut, this`layouts,
              this`weatherShown, this`clickListened, this`longClickListened, this`nextId
      ensures Valid()
      ensures Snapshot() == Updated(old(Snapshot()), usePillQsb, weather)
    {
      UpdatePreservesValid(Snapshot(), usePillQsb, weather);
      var oldState, oldView := state, view;
      if !usePillQsb {
        return;
      }
      ChooseView(weather);
      SwapViews(oldState, oldView);
    }

    /** Picks mState and mView for the new data (the first half of onDataUpdated). */
    method ChooseView(weather: Option<WeatherData>)
      modifies this`state, this`view, this`layouts, this`nextId, this`weatherShown, this`clickListened
      ensures Snapshot() == ViewChosen(old(Snapshot()), weather)
    {
      var oldState, oldView := state, view;
      var v: ViewId;
      if weather.None? {
        state := DATE_CARD;
        if oldView.Some? && oldState == DATE_CARD {
          v := oldView.value;
        } else {
          v := Inflate(DateWidget);
        }
      } else {
        state := WEATHER_CARD;
        if oldView.Some? && oldState == WEATHER_CARD {
          v := oldView.value;
        } else {
          v := Inflate(WeatherWidget);
        }
        weatherShown := weatherShown[v := weather.value];
        clickListened := clickListened + {v};
      }
      view := Some(v);
    }

    /** LayoutInflater.inflate(layout, this, false): a new view, not yet a child. */
    method Inflate(layout: Layout) returns (v: ViewId)
      modifies this`nextId, this`layouts
      ensures v == old(nextId) && nextId == old(nextId) + 1
      ensures layouts == old(layouts)[v := layout]
    {
      v := nextId;
      layouts := layouts[v := layout];
      nextId := nextId + 1;
    }

    /** Moves the child views from the old card to the new one (the second half of onDataUpdated). */
    method SwapViews(oldState: int, oldView: Option<ViewId>)
      requires view.Some?
      modifies this`children, this`fadingIn, this`fadingOut, this`longClickListened
      ensures Snapshot() == ViewsSwapped(old(Snapshot()), oldState, oldView)
    {
      var v := view.value;
      var newChildren, newFadingIn, newFadingOut := children, fadingIn, fadingOut;
      if oldState != state {
        if oldView.Some? {
          // the old view fades out; the end action removes it
          newFadingIn := newFadingIn - {oldView.value};
          newFadingOut := newFadingOut + {oldView.value};
        }
        // the new view is added at alpha 0 and fades in
        newChildren := newChildren + [v];
        newFadingIn := newFadingIn + {v};
      } else if oldView != view {
        match oldView {
          case Some(u) => newChildren := Remove(newChildren, u);
          case None =>
        }
        newChildren := newChildren + [v];
      }
      children, fadingIn, fadingOut := newChildren, newFadingIn, newFadingOut;
      longClickListened := longClickListened + {v};
    }

    /** The end action of a fade-out: removeView(oldView). */
    method EndFadeOut(v: ViewId)
      requires Valid() && v in fadingOut
      modifies this`children, this`fadingOut, this`fadingIn
      ensures Valid()
      ensures Snapshot() == FadeOutEnded(old(Snapshot()), v)
    {
      FadeOutEndedPreservesValid(Snapshot(), v);
      children := Remove(children, v);
      fadingOut := fadingOut - {v};
      fadingIn := fadingIn - {v};
    }

    /** The fade-in animation reaches alpha 1. */
    method EndFadeIn(v: ViewId)
      requires Valid() && v in fadingIn
      modifies this`fadingIn
      ensures Valid()
      ensures Snapshot() == FadeInEnded(old(Snapshot()), v)
    {
      FadeInEndedPreservesValid(Snapshot(), v);
      fadingIn := fadingIn - {v};
    }

    /** Writes the side margins of a weather card; a date card or no card is left alone. */
    method OnMeasure(widthMeasureSpec: int, launcher: Option<LauncherEnv>, previewMargin: int)
      requires Valid() && IsInt32(widthMeasureSpec)
      requires launcher.Some? && launcher.value.verticalBarLayout ==> launcher.value.numColumns != 0
      modifies this`sideMargins
      ensures Valid() && Snapshot() == old(Snapshot())
      ensures sideMargins == if view.Some? && state == WEATHER_CARD
                             then old(sideMargins)[view.value := SideMargin(widthMeasureSpec, launcher, previewMargin)]
                             else old(sideMargins)
    {
      if view.Some? && state == WEATHER_CARD {
        var size: int;
        if launcher.Some? {
          if launcher.value.verticalBarLayout {
            size := TruncDiv(TruncDiv(MeasureSpecSize(widthMeasureSpec), launcher.value.numColumns)
                             - launcher.value.iconSizePx, 2);
          } else {
            size := 0;
          }
        } else {
          size := previewMargin;
        }
        sideMargins := sideMargins[view.value := size];
      }
    }

    /** Whatever is asked for, the frame keeps no padding. */
    method SetPadding(left: int, top: int, right: int, bottom: int)
      requires Valid()
      modifies this`paddingLeft, this`paddingTop, this`paddingRight, this`paddingBottom
      ensures Valid() && Snapshot() == old(Snapshot())
      ensures paddingLeft == 0 && paddingTop == 0 && paddingRight == 0 && paddingBottom == 0
    {
      paddingLeft, paddingTop, paddingRight, paddingBottom := 0, 0, 0, 0;
    }

    /** The background-alpha property's setter. */
    method SetBgAlpha(num: int)
      requires Valid() && 0 <= num <= 255
      modifies this`bgAlpha, this`willNotDraw, this`invalidations
      ensures Valid() && Snapshot() == old(Snapshot())
      ensures bgAlpha == num && willNotDraw == (num == 0) && invalidations == old(invalidations) + 1
    {
      bgAlpha := num;
      willNotDraw := num == 0;
      invalidations := invalidations + 1;
    }

    /** The background-alpha property's getter. */
    method GetBgAlpha() returns (num: int)
      requires Valid()
      ensures num == bgAlpha && 0 <= num <= 255
    {
      num := bgAlpha;
    }
  }
}

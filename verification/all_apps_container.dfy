/**
 * The all-apps drawer container (ActivityAllAppsContainerView): the list of
 * adapter holders (one per tab, then the search results), the switch
 * between the A-Z lists and the search results, which runs as an animated
 * transition whose end callback commits the new state, the tab mode, the
 * fast-scroller touch capture and the padding of every list.
 *
 * The search/tab bookkeeping is specified on a value (TabState) by the step
 * functions AnimateToSearch, Rebind and TransitionEnded; the class
 * AllAppsContainerView holds it in fields and its methods are proved to
 * follow those functions. The views themselves are abstracted to ids, and
 * the collaborators whose code is not part of this model (the transition
 * controller, the tabs controller, the work profile manager, the header) are
 * reduced to the state they report.
 */
module AllAppsContainer {
  import opened Wrappers

  /** Adapter holder types (AdapterHolder.MAIN, WORK, SEARCH). */
  const MAIN: int := 0
  const WORK: int := 1
  const SEARCH: int := 2

  /** Duration of the A-Z / search transition, in milliseconds. */
  const DEFAULT_SEARCH_TRANSITION_DURATION_MS: int := 300

  /** Identity of a view (a recycler view, or the scrollbar of one). */
  type ViewId = nat

  /** The exceptions the modelled code can raise. */
  datatype Failure = IndexOutOfBounds | NullPointer

  /** How an operation ends: normally, or with an exception. */
  datatype Outcome = Done | Threw(failure: Failure)

  /** The action of a MotionEvent; only ACTION_DOWN is told apart. */
  datatype TouchAction = ActionDown | ActionMove | ActionUp | ActionCancel

  /** The recycler view of a holder looked up by index, or the index was out of the list. */
  datatype ListLookup = List(rv: Option<ViewId>) | NoSuchHolder

  /** Utilities.boundToRange on ints: max(lower, min(value, upper)). */
  function BoundToRange(value: int, lower: int, upper: int): (r: int)
    ensures lower <= upper ==> lower <= r <= upper
    ensures lower <= value <= upper ==> r == value
    ensures value < lower || upper < lower ==> r == lower
    ensures lower <= upper < value ==> r == upper
  {
    var m := if value <= upper then value else upper;
    if m >= lower then m else lower
  }

  /** The first index holding kind, or -1 (the loops of getWorkHolderIndex/getSearchHolderIndex). */
  function FirstIndex(kinds: seq<int>, kind: int): (r: int)
    ensures -1 <= r < |kinds|
    ensures r == -1 <==> kind !in kinds
    ensures r >= 0 ==> kinds[r] == kind && forall j :: 0 <= j < r ==> kinds[j] != kind
  {
    if |kinds| == 0 then -1
    else if kinds[0] == kind then 0
    else
      var t := FirstIndex(kinds[1..], kind);
      assert kinds == [kinds[0]] + kinds[1..];
      if t == -1 then -1 else t + 1
  }

  // ---------------------------------------------------------------------
  // Padding of one holder's list
  // ---------------------------------------------------------------------

  /** What applyPadding reads besides the holder: insets, work switch, floating search bar. */
  datatype PaddingEnv = PaddingEnv(
    insetsBottom: int,
    workSwitchHeight: Option<int>,   // the work mode switch, if attached
    searchBarFloating: bool,
    searchContainerHeight: int)

  /** Extra bottom padding of a list: the work switch (WORK holders only) and the floating search bar. */
  function BottomOffset(kind: int, env: PaddingEnv): int
  {
    (match env.workSwitchHeight
       case Some(h) => if kind == WORK then env.insetsBottom + h else 0
       case None => 0)
    + (if env.searchBarFloating then env.searchContainerHeight else 0)
  }

  /** The padding applyPadding sets on a holder's recycler view. */
  function PaddingFor(p: Rect, kind: int, env: PaddingEnv): Rect
  {
    Rect(p.left, p.top, p.right, p.bottom + BottomOffset(kind, env))
  }

  /** Only a WORK holder's list gets the work-switch offset; all other holders are padded alike. */
  lemma OnlyWorkGetsSwitchOffset(p: Rect, kind: int, env: PaddingEnv)
    ensures kind != WORK ==> PaddingFor(p, kind, env) == PaddingFor(p, MAIN, env)
    ensures PaddingFor(p, WORK, env).bottom == PaddingFor(p, MAIN, env).bottom
              + (if env.workSwitchHeight.Some? then env.insetsBottom + env.workSwitchHeight.value else 0)
    ensures PaddingFor(p, kind, env).left == p.left && PaddingFor(p, kind, env).right == p.right
    ensures PaddingFor(p, kind, env).top == p.top
    ensures PaddingFor(p, kind, env).bottom >= p.bottom <==> BottomOffset(kind, env) >= 0
  {
  }

  /** A holder's padding after applyAdapterSideAndBottomPaddings. */
  function SidePadded(p: Rect, bottom: int, side: int): Rect
  {
    Rect(side, p.top, side, bottom)
  }

  class AdapterHolder {
    /** mType: MAIN, WORK or SEARCH. */
    var kind: int
    /** mPadding: the padding wanted for the list. */
    var padding: Rect
    /** mRecyclerView: the list bound to this holder, if any. */
    var recyclerView: Option<ViewId>
    /** The padding last set on the bound list. */
    var appliedPadding: Rect

    constructor (kind: int)
      ensures this.kind == kind && padding == Rect(0, 0, 0, 0)
      ensures recyclerView == None && appliedPadding == Rect(0, 0, 0, 0)
    {
      this.kind := kind;
      padding := Rect(0, 0, 0, 0);
      recyclerView := None;
      appliedPadding := Rect(0, 0, 0, 0);
    }

    predicate IsWork()
      reads this
    {
      kind == WORK
    }

    predicate IsSearch()
      reads this
    {
      kind == SEARCH
    }

    method SetIsWork(isWork: bool)
      modifies this`kind
      ensures IsWork() == isWork && !IsSearch()
      ensures kind == MAIN <==> !isWork
    {
      kind := if isWork then WORK else MAIN;
    }

    /** Binds a list to the holder and pads it. */
    method Setup(rv: ViewId, env: PaddingEnv)
      modifies this`recyclerView, this`appliedPadding
      ensures recyclerView == Some(rv)
      ensures appliedPadding == PaddingFor(padding, kind, env)
    {
      recyclerView := Some(rv);
      ApplyPadding(env);
    }

    /** Pads the bound list; without a list nothing happens. */
    method ApplyPadding(env: PaddingEnv)
      modifies this`appliedPadding
      ensures recyclerView.None? ==> appliedPadding == old(appliedPadding)
      ensures recyclerView.Some? ==> appliedPadding == PaddingFor(padding, kind, env)
    {
      if recyclerView.Some? {
        var bottomOffset := 0;
        if IsWork() && env.workSwitchHeight.Some? {
          bottomOffset := env.insetsBottom + env.workSwitchHeight.value;
        }
        if env.searchBarFloating {
          bottomOffset := bottomOffset + env.searchContainerHeight;
        }
        appliedPadding := Rect(padding.left, padding.top, padding.right, padding.bottom + bottomOffset);
      }
    }
  }

  /** The kinds of a list of holders, in order. */
  function KindsOf(hs: seq<AdapterHolder>): (ks: seq<int>)
    reads hs
    ensures |ks| == |hs|
    ensures forall i :: 0 <= i < |hs| ==> ks[i] == hs[i].kind
  {
    if hs == [] then [] else [hs[0].kind] + KindsOf(hs[1..])
  }

  // ---------------------------------------------------------------------
  // Search / tab bookkeeping
  // ---------------------------------------------------------------------

  /**
   * mIsSearching; the running search transition (Some(goingToSearch) while
   * one runs, its end callback pending); mRebindAdaptersAfterSearchAnimation
   * and the tab mode asked for by the deferred rebind; mUsingTabs; the pager
   * (its next page) when tabs are shown; the number of full rebuilds of the
   * holders.
   */
  datatype TabState = TabState(
    isSearching: bool,
    transition: Option<bool>,
    rebindDeferred: bool,
    deferredShowTabs: bool,
    usingTabs: bool,
    pager: Option<int>,
    rebuilds: nat)

  /** A rebind is only ever deferred while a transition runs. */
  predicate TabInv(s: TabState)
  {
    s.rebindDeferred ==> s.transition.Some?
  }

  /** The page of the A-Z lists: the pager's next page, MAIN without a pager. */
  function AppsPage(pager: Option<int>): int
  {
    match pager
    case None => MAIN
    case Some(p) => p
  }

  /** animateToSearchState: start (or restart) the transition unless already settled there. */
  function AnimateToSearch(s: TabState, goingToSearch: bool): TabState
  {
    if s.transition.None? && goingToSearch == s.isSearching then s
    else s.(transition := Some(goingToSearch))
  }

  /** rebindAdapters(showTabs, force) on the bookkeeping. */
  function Rebind(s: TabState, showTabs: bool, force: bool): TabState
  {
    if s.transition.Some? then s.(rebindDeferred := true, deferredShowTabs := showTabs)
    else if showTabs == s.usingTabs && !force then s
    else if s.isSearching then s.(usingTabs := showTabs)
    else s.(usingTabs := showTabs, pager := if showTabs then Some(0) else None,
            rebuilds := s.rebuilds + 1)
  }

  /**
   * The end callback of the transition, with the deferred rebind replayed
   * for the tab mode it asked for.
   */
  function TransitionEnded(s: TabState): TabState
  {
    match s.transition
    case None => s
    case Some(going) =>
      var ended := s.(isSearching := going, transition := None);
      var previousPage := AppsPage(ended.pager);
      var replayed := if ended.rebindDeferred
                      then Rebind(ended, ended.deferredShowTabs, false).(rebindDeferred := false)
                      else ended;
      if !going && replayed.pager.Some? then replayed.(pager := Some(previousPage)) else replayed
  }

  /** The end callback as written: the deferred rebind is replayed as rebindAdapters(false). */
  function TransitionEndedAsWritten(s: TabState): TabState
  {
    match s.transition
    case None => s
    case Some(going) =>
      var ended := s.(isSearching := going, transition := None);
      var previousPage := AppsPage(ended.pager);
      var replayed := if ended.rebindDeferred
                      then Rebind(ended, false, false).(rebindDeferred := false)
                      else ended;
      if !going && replayed.pager.Some? then replayed.(pager := Some(previousPage)) else replayed
  }

  /** onClearSearchResult: leave search, then rebind for the current tab mode. */
  function ClearSearch(s: TabState): TabState
  {
    Rebind(AnimateToSearch(s, false), s.usingTabs, false)
  }

  /** Asking for the state the container is already settled in does nothing. */
  lemma AnimateWhenSettledIsNoOp(s: TabState, goingToSearch: bool)
    requires s.transition.None? && goingToSearch == s.isSearching
    ensures AnimateToSearch(s, goingToSearch) == s
  {
  }

  /**
   * mIsSearching changes only in the end callback, and there it becomes the
   * direction of the transition that ended.
   */
  lemma SearchingChangesOnlyAtTransitionEnd(s: TabState, goingToSearch: bool, showTabs: bool, force: bool)
    ensures AnimateToSearch(s, goingToSearch).isSearching == s.isSearching
    ensures Rebind(s, showTabs, force).isSearching == s.isSearching
    ensures ClearSearch(s).isSearching == s.isSearching
    ensures s.transition.Some? ==> TransitionEnded(s).isSearching == s.transition.value
    ensures s.transition.Some? ==> TransitionEnded(s).transition.None?
  {
  }

  /** While a transition runs, rebindAdapters only records that it must run again. */
  lemma RebindWhileRunningOnlyDefers(s: TabState, showTabs: bool, force: bool)
    requires s.transition.Some?
    ensures Rebind(s, showTabs, force) == s.(rebindDeferred := true, deferredShowTabs := showTabs)
  {
  }

  /**
   * The guards of rebindAdapters: an unchanged tab mode without force
   * returns before rebuilding, and while searching only mUsingTabs is
   * recorded; only the remaining case rebuilds the holders.
   */
  lemma RebindGuards(s: TabState, showTabs: bool, force: bool)
    requires s.transition.None?
    ensures showTabs == s.usingTabs && !force ==> Rebind(s, showTabs, force) == s
    ensures s.isSearching && (showTabs != s.usingTabs || force)
            ==> Rebind(s, showTabs, force) == s.(usingTabs := showTabs)
    ensures Rebind(s, showTabs, force).rebuilds != s.rebuilds
            <==> !s.isSearching && (showTabs != s.usingTabs || force)
    ensures Rebind(s, showTabs, force).usingTabs == (if showTabs == s.usingTabs && !force then s.usingTabs else showTabs)
  {
  }

  /**
   * The end callback as written replays a deferred rebind once, as
   * rebindAdapters(false), and clears the flag; without a deferred rebind the
   * tab mode is kept. A replay from a tabbed drawer that is not searching
   * any more turns the tabs off and rebuilds the holders.
   */
  lemma TransitionEndClearsDeferral(s: TabState)
    requires s.transition.Some?
    ensures !TransitionEndedAsWritten(s).rebindDeferred
    ensures !s.rebindDeferred ==> TransitionEndedAsWritten(s).usingTabs == s.usingTabs
                                  && TransitionEndedAsWritten(s).rebuilds == s.rebuilds
    ensures s.rebindDeferred ==> (TransitionEndedAsWritten(s) ==
      var ended := s.(isSearching := s.transition.value, transition := None);
      var r := Rebind(ended, false, false).(rebindDeferred := false);
      if !s.transition.value && r.pager.Some? then r.(pager := Some(AppsPage(s.pager))) else r)
    ensures s.rebindDeferred && s.usingTabs && !s.transition.value ==>
              !TransitionEndedAsWritten(s).usingTabs && TransitionEndedAsWritten(s).pager.None?
              && TransitionEndedAsWritten(s).rebuilds == s.rebuilds + 1
  {
  }

  /** Every step keeps TabInv. */
  lemma StepsKeepTabInv(s: TabState, goingToSearch: bool, showTabs: bool, force: bool)
    requires TabInv(s)
    ensures TabInv(AnimateToSearch(s, goingToSearch))
    ensures TabInv(Rebind(s, showTabs, force))
    ensures TabInv(TransitionEnded(s))
    ensures TabInv(TransitionEndedAsWritten(s))
  {
  }

  /**
   * As written, leaving search from the tabbed drawer turns the tabs off:
   * onClearSearchResult starts the transition and its rebindAdapters(true)
   * is deferred; the end callback replays it as rebindAdapters(false).
   */
  lemma ClearSearchDropsTabsAsWritten()
    ensures
      var s := TabState(isSearching := true, transition := None, rebindDeferred := false,
                        deferredShowTabs := false, usingTabs := true, pager := Some(1), rebuilds := 0);
      var e := TransitionEndedAsWritten(ClearSearch(s));
      !e.isSearching && !e.usingTabs && e.pager.None? && e.rebuilds == 1
  {
  }

  /** With the deferred request replayed as asked, leaving search keeps the tab mode and the page. */
  lemma ClearSearchKeepsTabs(s: TabState)
    requires s.transition.None? && s.isSearching
    ensures var e := TransitionEnded(ClearSearch(s));
      !e.isSearching && e.usingTabs == s.usingTabs && e.pager == s.pager
      && e.rebuilds == s.rebuilds && e.transition.None? && !e.rebindDeferred
  {
  }

  // ---------------------------------------------------------------------
  // The container
  // ---------------------------------------------------------------------

  class AllAppsContainerView {
    /** mAH: the adapter holders, the tabs' holders first and the SEARCH holder last. */
    var ah: seq<AdapterHolder>
    /** The holder types the tabs controller creates, one per tab. */
    var tabKinds: seq<int>

    var isSearching: bool
    var transition: Option<bool>
    var rebindDeferred: bool
    /**
     * The tab mode the deferred rebindAdapters call asked for. The source
     * keeps no such field and its end callback ignores it; it is recorded
     * here only so that the corrected callback (TransitionEnded) can be
     * compared with the one the class follows (TransitionEndedAsWritten).
     */
    ghost var deferredShowTabs: bool
    var usingTabs: bool
    var pager: Option<int>
    var rebuilds: nat

    /** mSearchRecyclerView and the A-Z list view (apps_list_view). */
    var searchRecyclerView: ViewId
    var appsListView: ViewId

    /** mTouchHandler: the scrollbar (identified by its list) capturing the gesture. */
    var touchHandler: Option<ViewId>

    var fastScrollerVisible: bool
    var searchResultsVisible: bool
    var appsContainerVisible: bool
    var headerVisible: bool

    var isTablet: bool
    var forceBottomSheetVisible: bool
    var bottomSheetVisible: bool

    /** The drawer-save-scroll-position preference. */
    var saveScrollPosition: bool

    var paddingEnv: PaddingEnv
    var navBarScrimHeight: int

    var headerColor: int
    var tabsProtectionAlpha: int
    var headerInvalidations: nat

    ghost function Snapshot(): TabState
      reads this
    {
      TabState(isSearching, transition, rebindDeferred, deferredShowTabs, usingTabs, pager, rebuilds)
    }

    predicate ValidHolders(hs: seq<AdapterHolder>, kinds: seq<int>)
      reads hs
    {
      |hs| == |kinds| + 1
      && (forall i :: 0 <= i < |kinds| ==> hs[i].kind == kinds[i])
      && hs[|kinds|].kind == SEARCH
      && (forall i, j :: 0 <= i < j < |hs| ==> hs[i] != hs[j])
    }

    predicate Valid()
      reads this, ah
    {
      |tabKinds| >= 1
      && (forall i :: 0 <= i < |tabKinds| ==> tabKinds[i] == MAIN || tabKinds[i] == WORK)
      && ValidHolders(ah, tabKinds)
      && (pager.Some? ==> 0 <= pager.value < |tabKinds|)
    }

    constructor (tabKinds: seq<int>, searchRecyclerView: ViewId, appsListView: ViewId,
                 isTablet: bool, saveScrollPosition: bool, paddingEnv: PaddingEnv, navBarScrimHeight: int)
      requires |tabKinds| >= 1
      requires forall i :: 0 <= i < |tabKinds| ==> tabKinds[i] == MAIN || tabKinds[i] == WORK
      ensures Valid()
      ensures Snapshot() == TabState(false, None, false, false, false, None, 0)
      ensures touchHandler == None && !forceBottomSheetVisible
    {
      this.tabKinds := tabKinds;
      isSearching := false;
      transition := None;
      rebindDeferred := false;
      deferredShowTabs := false;
      usingTabs := false;
      pager := None;
      rebuilds := 0;
      this.searchRecyclerView := searchRecyclerView;
      this.appsListView := appsListView;
      touchHandler := None;
      fastScrollerVisible := true;
      searchResultsVisible := false;
      appsContainerVisible := true;
      headerVisible := true;
      this.isTablet := isTablet;
      forceBottomSheetVisible := false;
      bottomSheetVisible := isTablet;
      this.saveScrollPosition := saveScrollPosition;
      this.paddingEnv := paddingEnv;
      this.navBarScrimHeight := navBarScrimHeight;
      headerColor := 0;
      tabsProtectionAlpha := 0;
      headerInvalidations := 0;
      ah := [];
      new;
      CreateHolders();
    }

    /** createHolder: a fresh holder of a known type; any other type is an error. */
    method CreateHolder(kind: int) returns (h: Option<AdapterHolder>)
      ensures h.Some? <==> kind == MAIN || kind == WORK || kind == SEARCH
      ensures h.Some? ==> fresh(h.value) && h.value.kind == kind && h.value.recyclerView.None?
    {
      if kind == MAIN || kind == WORK || kind == SEARCH {
        var holder := new AdapterHolder(kind);
        h := Some(holder);
      } else {
        h := None;
      }
    }

    /** createHolders: the tabs' holders, then the SEARCH holder, all fresh. */
    method CreateHolders()
      requires forall i :: 0 <= i < |tabKinds| ==> tabKinds[i] == MAIN || tabKinds[i] == WORK
      modifies this`ah
      ensures ValidHolders(ah, tabKinds)
      ensures forall i :: 0 <= i < |ah| ==> fresh(ah[i]) && ah[i].recyclerView.None?
    {
      var hs: seq<AdapterHolder> := [];
      var i := 0;
      while i < |tabKinds|
        invariant 0 <= i <= |tabKinds| && |hs| == i
        invariant forall j :: 0 <= j < i ==> hs[j].kind == tabKinds[j]
        invariant forall j :: 0 <= j < i ==> fresh(hs[j]) && hs[j].recyclerView.None?
        invariant forall j, k :: 0 <= j < k < i ==> hs[j] != hs[k]
      {
        var h := new AdapterHolder(tabKinds[i]);
        hs := hs + [h];
        i := i + 1;
      }
      var search := new AdapterHolder(SEARCH);
      ah := hs + [search];
    }

    /** getSearchHolderIndex, as the source's loop. */
    method GetSearchHolderIndex() returns (index: int)
      ensures index == FirstIndex(KindsOf(ah), SEARCH)
    {
      index := 0;
      while index < |ah|
        invariant 0 <= index <= |ah|
        invariant forall j :: 0 <= j < index ==> ah[j].kind != SEARCH
      {
        if ah[index].kind == SEARCH {
          return;
        }
        index := index + 1;
      }
      index := -1;
    }

    /** getWorkHolderIndex, as the source's loop. */
    method GetWorkHolderIndex() returns (index: int)
      ensures index == FirstIndex(KindsOf(ah), WORK)
    {
      index := 0;
      while index < |ah|
        invariant 0 <= index <= |ah|
        invariant forall j :: 0 <= j < index ==> !ah[j].IsWork()
      {
        if ah[index].IsWork() {
          return;
        }
        index := index + 1;
      }
      index := -1;
    }

    /** getCurrentPage. */
    function CurrentPage(): int
      reads this, ah
    {
      if isSearching then FirstIndex(KindsOf(ah), SEARCH) else AppsPage(pager)
    }

    /** isPersonalTab. */
    predicate IsPersonalTab()
      reads this
    {
      pager.None? || pager.value == 0
    }

    /** getActiveRecyclerView: the search list while searching, else the list of the shown tab. */
    function ActiveRecyclerView(): ListLookup
      reads this, ah
    {
      if isSearching then List(Some(searchRecyclerView))
      else
        var index := if !usingTabs || IsPersonalTab() then MAIN else FirstIndex(KindsOf(ah), WORK);
        if 0 <= index < |ah| then List(ah[index].recyclerView) else NoSuchHolder
    }

    method UpdateSearchResultsVisibility()
      modifies this`searchResultsVisible, this`appsContainerVisible, this`headerVisible
      ensures searchResultsVisible == isSearching
      ensures appsContainerVisible == !isSearching && headerVisible == !isSearching
    {
      searchResultsVisible := isSearching;
      appsContainerVisible := !isSearching;
      headerVisible := !isSearching;
    }

    method AnimateToSearchState(goingToSearch: bool, durationMs: int)
      modifies this`transition, this`fastScrollerVisible
      ensures Snapshot() == AnimateToSearch(old(Snapshot()), goingToSearch)
      ensures fastScrollerVisible ==
              (if old(transition).None? && goingToSearch == isSearching then old(fastScrollerVisible)
               else !goingToSearch)
    {
      if transition.None? && goingToSearch == isSearching {
        return;
      }
      fastScrollerVisible := !goingToSearch;
      transition := Some(goingToSearch);
    }

    /** setSearchResults: non-null results move the drawer to search. */
    method SetSearchResults(hasResults: bool)
      modifies this`transition, this`fastScrollerVisible
      ensures Snapshot() == (if hasResults then AnimateToSearch(old(Snapshot()), true) else old(Snapshot()))
    {
      if hasResults {
        AnimateToSearchState(true, DEFAULT_SEARCH_TRANSITION_DURATION_MS);
      }
    }

    method ForceBottomSheetVisible(force: bool)
      modifies this`forceBottomSheetVisible, this`bottomSheetVisible
      ensures forceBottomSheetVisible == force
      ensures bottomSheetVisible == (isTablet || force)
    {
      forceBottomSheetVisible := force;
      UpdateBackgroundVisibility(isTablet);
    }

    /** updateBackgroundVisibility: the bottom sheet shows on tablets or when forced. */
    method UpdateBackgroundVisibility(deviceIsTablet: bool)
      modifies this`bottomSheetVisible
      ensures bottomSheetVisible == (deviceIsTablet || forceBottomSheetVisible)
    {
      bottomSheetVisible := deviceIsTablet || forceBottomSheetVisible;
    }

    /** reset(animate, force). */
    method Reset(animate: bool, force: bool)
      modifies this`forceBottomSheetVisible, this`bottomSheetVisible, this`transition, this`fastScrollerVisible
      ensures Snapshot() == (if force then AnimateToSearch(old(Snapshot()), false) else old(Snapshot()))
      ensures forceBottomSheetVisible == (if force || !saveScrollPosition then false else old(forceBottomSheetVisible))
      ensures !force ==> fastScrollerVisible == old(fastScrollerVisible)
    {
      if force || !saveScrollPosition {
        ForceBottomSheetVisible(false);
        if force {
          AnimateToSearchState(false, 0);
        }
      }
    }

    /** onTabChanged: the position is clamped to the tabs, then the drawer is reset. */
    method OnTabChanged(pos: int) returns (tab: int)
      requires Valid()
      modifies this`forceBottomSheetVisible, this`bottomSheetVisible, this`transition, this`fastScrollerVisible
      ensures Valid()
      ensures tab == BoundToRange(pos, 0, |tabKinds| - 1) && 0 <= tab < |ah|
      ensures Snapshot() == AnimateToSearch(old(Snapshot()), false)
    {
      tab := BoundToRange(pos, 0, |tabKinds| - 1);
      Reset(true, true);
    }

    /** onActivePageChanged: ignored while a transition runs; otherwise the page must be a holder. */
    method OnActivePageChanged(page: int) returns (o: Outcome)
      modifies this`forceBottomSheetVisible, this`bottomSheetVisible, this`transition, this`fastScrollerVisible
      ensures Snapshot() == old(Snapshot())
      ensures o == Done || o == Threw(IndexOutOfBounds)
      ensures o == Threw(IndexOutOfBounds) <==> old(transition).None? && !(0 <= page < |ah|)
      ensures o == Done ==> fastScrollerVisible == old(fastScrollerVisible)
      ensures old(transition).Some? || o != Done ==> forceBottomSheetVisible == old(forceBottomSheetVisible)
    {
      if transition.Some? {
        return Done;
      }
      if !(0 <= page < |ah|) {
        return Threw(IndexOutOfBounds);
      }
      Reset(true, false);
      o := Done;
    }

    /**
     * switchToTab: moves the pager when tabs are used. The paged view keeps
     * its page within its pages, one per tab.
     */
    method SwitchToTab(tab: int) returns (o: Outcome)
      requires Valid()
      modifies this`pager
      ensures Valid()
      ensures !usingTabs ==> pager == old(pager) && o == Done
      ensures usingTabs && old(pager).None? ==> pager == None && o == Threw(NullPointer)
      ensures usingTabs && old(pager).Some? ==> pager == Some(BoundToRange(tab, 0, |tabKinds| - 1)) && o == Done
    {
      if usingTabs {
        if pager.None? {
          return Threw(NullPointer);
        }
        pager := Some(BoundToRange(tab, 0, |tabKinds| - 1));
      }
      o := Done;
    }

    /** rebindAdapters(showTabs, force). */
    method RebindAdapters(showTabs: bool, force: bool)
      requires Valid()
      modifies this`rebindDeferred, this`deferredShowTabs, this`usingTabs, this`pager, this`rebuilds, this`ah
      modifies this`searchResultsVisible, this`appsContainerVisible, this`headerVisible
      modifies this`forceBottomSheetVisible, this`bottomSheetVisible, this`transition, this`fastScrollerVisible
      ensures Valid()
      ensures Snapshot() == Rebind(old(Snapshot()), showTabs, force)
      ensures old(transition).Some? ==>
                (ah == old(ah) && searchResultsVisible == old(searchResultsVisible)
                 && appsContainerVisible == old(appsContainerVisible) && headerVisible == old(headerVisible)
                 && forceBottomSheetVisible == old(forceBottomSheetVisible))
      ensures old(transition).None? ==> searchResultsVisible == isSearching && headerVisible == !isSearching
      ensures rebuilds == old(rebuilds) ==> ah == old(ah)
      ensures rebuilds != old(rebuilds) ==>
                ((forall i :: 0 <= i < |ah| ==> fresh(ah[i]))
                 && (!showTabs ==> ah[MAIN].recyclerView == Some(appsListView)))
    {
      if transition.Some? {
        rebindDeferred := true;
        deferredShowTabs := showTabs;
        return;
      }
      UpdateSearchResultsVisibility();
      var currentTab := AppsPage(pager);
      if showTabs == usingTabs && !force {
        return;
      }
      if isSearching {
        usingTabs := showTabs;
        return;
      }
      Rebuild(showTabs, currentTab);
    }

    /** The part of rebindAdapters past its guards: fresh holders, the new list container, the tab mode. */
    method Rebuild(showTabs: bool, currentTab: int)
      requires Valid() && transition.None? && !isSearching
      modifies this`usingTabs, this`pager, this`rebuilds, this`ah
      modifies this`forceBottomSheetVisible, this`bottomSheetVisible, this`transition, this`fastScrollerVisible
      ensures Valid() && transition.None?
      ensures usingTabs == showTabs && pager == (if showTabs then Some(0) else None)
      ensures rebuilds == old(rebuilds) + 1
      ensures forall i :: 0 <= i < |ah| ==> fresh(ah[i])
      ensures !showTabs ==> ah[MAIN].recyclerView == Some(appsListView)
    {
      CreateHolders();
      pager := if showTabs then Some(0) else None;
      usingTabs := showTabs;
      rebuilds := rebuilds + 1;
      if showTabs {
        var tab := OnTabChanged(currentTab);
      } else {
        ah[MAIN].Setup(appsListView, paddingEnv);
        ah[WORK].recyclerView := None;
      }
    }

    /** onClearSearchResult. */
    method OnClearSearchResult()
      requires Valid()
      modifies this`rebindDeferred, this`deferredShowTabs, this`usingTabs, this`pager, this`rebuilds, this`ah
      modifies this`searchResultsVisible, this`appsContainerVisible, this`headerVisible
      modifies this`forceBottomSheetVisible, this`bottomSheetVisible, this`transition, this`fastScrollerVisible
      ensures Valid()
      ensures Snapshot() == ClearSearch(old(Snapshot()))
    {
      AnimateToSearchState(false, DEFAULT_SEARCH_TRANSITION_DURATION_MS);
      RebindAdapters(usingTabs, false);
    }

    /** The end callback of the search transition, fired when the transition finishes. */
    method FinishSearchTransition() returns (o: Outcome)
      requires Valid() && transition.Some?
      modifies this`isSearching, this`rebindDeferred, this`deferredShowTabs, this`usingTabs, this`pager
      modifies this`rebuilds, this`ah
      modifies this`searchResultsVisible, this`appsContainerVisible, this`headerVisible
      modifies this`forceBottomSheetVisible, this`bottomSheetVisible, this`transition, this`fastScrollerVisible
      ensures Valid()
      ensures Snapshot() == TransitionEndedAsWritten(old(Snapshot()))
      ensures searchResultsVisible == isSearching && headerVisible == !isSearching
      ensures o == Done
    {
      ghost var s := Snapshot();
      var going := transition.value;
      isSearching := going;
      transition := None;
      UpdateSearchResultsVisibility();
      var previousPage := AppsPage(pager);
      assert 0 <= previousPage < |tabKinds|;
      ghost var ended := Snapshot();
      assert ended == s.(isSearching := going, transition := None);
      ReplayDeferredRebind();
      assert Snapshot() == (if ended.rebindDeferred
                            then Rebind(ended, false, false).(rebindDeferred := false)
                            else ended);
      o := Done;
      if !going {
        assert |ah| == |tabKinds| + 1;
        o := ReturnToPage(previousPage);
      }
    }

    /** The deferred rebindAdapters, run once the transition is over, as rebindAdapters(false). */
    method ReplayDeferredRebind()
      requires Valid() && transition.None?
      modifies this`rebindDeferred, this`deferredShowTabs, this`usingTabs, this`pager, this`rebuilds, this`ah
      modifies this`searchResultsVisible, this`appsContainerVisible, this`headerVisible
      modifies this`forceBottomSheetVisible, this`bottomSheetVisible, this`transition, this`fastScrollerVisible
      ensures Valid()
      ensures Snapshot() == (if old(rebindDeferred)
                             then Rebind(old(Snapshot()), false, false).(rebindDeferred := false)
                             else old(Snapshot()))
      ensures !old(rebindDeferred) ==>
                (searchResultsVisible == old(searchResultsVisible) && headerVisible == old(headerVisible))
      ensures old(rebindDeferred) ==> searchResultsVisible == isSearching && headerVisible == !isSearching
    {
      if rebindDeferred {
        RebindAdapters(false, false);
        rebindDeferred := false;
      }
    }

    /**
     * Back on the A-Z lists: the pager returns to the page shown before
     * (kept within its pages), which becomes the active page.
     */
    method ReturnToPage(previousPage: int) returns (o: Outcome)
      requires Valid() && transition.None?
      modifies this`pager, this`forceBottomSheetVisible, this`bottomSheetVisible, this`transition
      modifies this`fastScrollerVisible
      ensures Valid()
      ensures Snapshot() == old(Snapshot()).(pager := if old(pager).Some?
                                                      then Some(BoundToRange(previousPage, 0, |tabKinds| - 1))
                                                      else None)
      ensures o == Done || o == Threw(IndexOutOfBounds)
      ensures o == Threw(IndexOutOfBounds) <==> !(0 <= previousPage < |ah|)
    {
      if pager.Some? {
        pager := Some(BoundToRange(previousPage, 0, |tabKinds| - 1));
      }
      o := OnActivePageChanged(previousPage);
    }

    /** Chooses the touch handler on ACTION_DOWN; other actions keep it. */
    method CaptureOnDown(action: TouchAction, hitsScrollbar: bool) returns (o: Outcome)
      requires Valid()
      modifies this`touchHandler
      ensures action != ActionDown ==> o == Done && touchHandler == old(touchHandler)
      ensures action == ActionDown ==> match ActiveRecyclerView()
        case NoSuchHolder => o == Threw(IndexOutOfBounds) && touchHandler == old(touchHandler)
        case List(rv) => o == Done && touchHandler == (if rv.Some? && hitsScrollbar then rv else None)
    {
      o := Done;
      if action == ActionDown {
        var lookup := ActiveRecyclerView();
        match lookup {
          case NoSuchHolder =>
            o := Threw(IndexOutOfBounds);
          case List(rv) =>
            touchHandler := if rv.Some? && hitsScrollbar then rv else None;
        }
      }
    }

    /**
     * onInterceptTouchEvent. hitsScrollbar is the scrollbar hit test of the
     * active list; handlerResult is what the captured scrollbar answers.
     */
    method OnInterceptTouchEvent(inAllApps: bool, action: TouchAction, hitsScrollbar: bool, handlerResult: bool)
      returns (o: Outcome, intercepted: bool)
      requires Valid()
      modifies this`touchHandler
      ensures !inAllApps ==> touchHandler == None && !intercepted && o == Done
      ensures inAllApps && action != ActionDown ==> touchHandler == old(touchHandler) && o == Done
      ensures inAllApps && action == ActionDown && ActiveRecyclerView().List? ==>
                o == Done && touchHandler == (if ActiveRecyclerView().rv.Some? && hitsScrollbar
                                              then ActiveRecyclerView().rv else None)
      ensures o == Done ==> intercepted == (inAllApps && touchHandler.Some? && handlerResult)
    {
      if !inAllApps {
        touchHandler := None;
        return Done, false;
      }
      o := CaptureOnDown(action, hitsScrollbar);
      intercepted := o == Done && touchHandler.Some? && handlerResult;
    }

    /** onTouchEvent: a captured scrollbar consumes the event; otherwise search consumes touches over it. */
    method OnTouchEvent(inAllApps: bool, action: TouchAction, hitsScrollbar: bool, overContainer: bool)
      returns (o: Outcome, consumed: bool)
      requires Valid()
      modifies this`touchHandler
      ensures !inAllApps ==> touchHandler == old(touchHandler) && !consumed && o == Done
      ensures inAllApps && action != ActionDown ==> touchHandler == old(touchHandler) && o == Done
      ensures inAllApps && action == ActionDown && ActiveRecyclerView().List? ==>
                o == Done && touchHandler == (if ActiveRecyclerView().rv.Some? && hitsScrollbar
                                              then ActiveRecyclerView().rv else None)
      ensures o == Done && inAllApps ==> consumed == (touchHandler.Some? || (isSearching && overContainer))
    {
      if !inAllApps {
        return Done, false;
      }
      o := CaptureOnDown(action, hitsScrollbar);
      consumed := o == Done && (touchHandler.Some? || (isSearching && overContainer));
    }

    /** applyAdapterSideAndBottomPaddings: every holder gets the same sides and bottom, then pads its list. */
    method ApplyAdapterSideAndBottomPaddings(allAppsLeftRightPadding: int)
      requires Valid()
      modifies ah
      ensures Valid()
      ensures forall i :: 0 <= i < |ah| ==>
                ah[i].padding == SidePadded(old(ah[i].padding), Max(paddingEnv.insetsBottom, navBarScrimHeight),
                                            allAppsLeftRightPadding)
      ensures forall i :: 0 <= i < |ah| ==>
                ah[i].appliedPadding == (if ah[i].recyclerView.Some? then PaddingFor(ah[i].padding, ah[i].kind, paddingEnv)
                                         else old(ah[i].appliedPadding))
      ensures forall i :: 0 <= i < |ah| ==>
                (ah[i].kind == old(ah[i].kind) && ah[i].recyclerView == old(ah[i].recyclerView))
    {
      var bottomPadding := Max(paddingEnv.insetsBottom, navBarScrimHeight);
      var i := 0;
      while i < |ah|
        invariant 0 <= i <= |ah|
        invariant forall j :: 0 <= j < |ah| ==>
                    (ah[j].kind == old(ah[j].kind) && ah[j].recyclerView == old(ah[j].recyclerView))
        invariant forall j :: 0 <= j < i ==>
                    ah[j].padding == SidePadded(old(ah[j].padding), bottomPadding, allAppsLeftRightPadding)
                    && ah[j].appliedPadding == (if ah[j].recyclerView.Some?
                                                then PaddingFor(ah[j].padding, ah[j].kind, paddingEnv)
                                                else old(ah[j].appliedPadding))
        invariant forall j :: i <= j < |ah| ==>
                    ah[j].padding == old(ah[j].padding) && ah[j].appliedPadding == old(ah[j].appliedPadding)
      {
        var h := ah[i];
        h.padding := Rect(allAppsLeftRightPadding, h.padding.top, allAppsLeftRightPadding, bottomPadding);
        h.ApplyPadding(paddingEnv);
        i := i + 1;
      }
    }

    /** The dirty check of updateHeaderScroll: the header is redrawn only when its colour or tab alpha changes. */
    method UpdateHeaderProtection(newHeaderColor: int, newTabsAlpha: int)
      modifies this`headerColor, this`tabsProtectionAlpha, this`headerInvalidations
      ensures headerColor == newHeaderColor && tabsProtectionAlpha == newTabsAlpha
      ensures headerInvalidations == old(headerInvalidations)
                + (if newHeaderColor != old(headerColor) || newTabsAlpha != old(tabsProtectionAlpha) then 1 else 0)
    {
      if newHeaderColor != headerColor || tabsProtectionAlpha != newTabsAlpha {
        headerColor := newHeaderColor;
        tabsProtectionAlpha := newTabsAlpha;
        headerInvalidations := headerInvalidations + 1;
      }
    }
  }

  function Max(a: int, b: int): (m: int)
    ensures m >= a && m >= b && (m == a || m == b)
  {
    if a >= b then a else b
  }

  /**
   * getCurrentPage of a valid container: the SEARCH holder (the last one)
   * while searching, else the pager's next page, MAIN without a pager.
   */
  lemma CurrentPageRule(c: AllAppsContainerView)
    requires c.Valid()
    ensures c.isSearching ==> c.CurrentPage() == |c.ah| - 1
    ensures !c.isSearching && c.pager.None? ==> c.CurrentPage() == MAIN
    ensures !c.isSearching && c.pager.Some? ==> c.CurrentPage() == c.pager.value
    ensures 0 <= c.CurrentPage() < |c.ah|
  {
    SearchHolderIsLast(c.ah, c.tabKinds);
  }

  /**
   * getActiveRecyclerView of a valid container: the search list while
   * searching; the MAIN holder's list without tabs or on the personal tab;
   * otherwise the list of the first WORK holder, and with no WORK holder the
   * lookup fails.
   */
  lemma ActiveListRule(c: AllAppsContainerView)
    requires c.Valid()
    ensures c.isSearching ==> c.ActiveRecyclerView() == List(Some(c.searchRecyclerView))
    ensures !c.isSearching && (!c.usingTabs || c.IsPersonalTab())
            ==> c.ActiveRecyclerView() == List(c.ah[MAIN].recyclerView)
    ensures !c.isSearching && c.usingTabs && !c.IsPersonalTab() && WORK in c.tabKinds
            ==> c.ActiveRecyclerView() == List(c.ah[FirstIndex(c.tabKinds, WORK)].recyclerView)
    ensures !c.isSearching && c.usingTabs && !c.IsPersonalTab() && WORK !in c.tabKinds
            ==> c.ActiveRecyclerView() == NoSuchHolder
  {
    SearchHolderIsLast(c.ah, c.tabKinds);
  }

  /** With valid holders the SEARCH holder is the last one, and the WORK lookup stays among the tabs. */
  lemma {:induction false} SearchHolderIsLast(hs: seq<AdapterHolder>, kinds: seq<int>)
    requires |hs| == |kinds| + 1
    requires forall i :: 0 <= i < |kinds| ==> hs[i].kind == kinds[i] && (kinds[i] == MAIN || kinds[i] == WORK)
    requires hs[|kinds|].kind == SEARCH
    ensures FirstIndex(KindsOf(hs), SEARCH) == |hs| - 1
    ensures FirstIndex(KindsOf(hs), WORK) == FirstIndex(kinds, WORK)
  {
    var ks := KindsOf(hs);
    assert ks == kinds + [SEARCH];
    FirstIndexOfAppend(kinds, SEARCH, WORK);
    FirstIndexOfAppend(kinds, SEARCH, SEARCH);
  }

  /** Appending one element does not move an earlier first occurrence. */
  lemma {:induction false} FirstIndexOfAppend(kinds: seq<int>, last: int, kind: int)
    ensures FirstIndex(kinds + [last], kind) ==
            (if kind in kinds then FirstIndex(kinds, kind) else if kind == last then |kinds| else -1)
  {
    if |kinds| > 0 {
      assert (kinds + [last])[1..] == kinds[1..] + [last];
      FirstIndexOfAppend(kinds[1..], last, kind);
    }
  }
}

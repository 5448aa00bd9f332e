# Launcher drawer, search bar and smartspace card: a Dafny model

This project models four small pieces of state and data logic from an
Android launcher (Launcher3 with the Omega/Neo additions):

- **The all-apps container** (`ActivityAllAppsContainerView`), in `all_apps_container.dfy`, module `AllAppsContainer`. It covers:
  - the list of adapter holders (one per tab, then the SEARCH holder) and the holder types MAIN=0, WORK=1, SEARCH=2;
  - the index loops over the holders, the current page, the active list and the tab clamp;
  - the A-Z/search transition: it is requested by `animateToSearchState`, and its end callback commits `mIsSearching` and replays a rebind deferred while it ran;
  - the guards of `rebindAdapters`;
  - the fast-scroller touch capture;
  - list padding.

  The bookkeeping is a value `TabState` with the step functions `AnimateToSearch`, `Rebind` and `TransitionEndedAsWritten`. The class `AllAppsContainerView` keeps the same state in fields, and each of its methods is proved to follow the step function for its operation. A running transition is `transition == Some(goingToSearch)`. Firing its end callback is the explicit step `FinishSearchTransition`. `TransitionEnded` is the corrected end callback (see Findings); it is stated and proved on the value only, and the class does not use it.
- **The smartspace card** (`QsbBlockerView`), in `qsb_blocker_view.dfy`, module `QsbBlocker`. `onDataUpdated` switches between no card (0), a date card (1) and a weather card (2). It reuses the view only when the state is unchanged. On a change of state it cross-fades: the old view stays a child until its fade-out ends. The module also covers the padding override, the background-alpha property and the weather-card side margins. The card is specified as a value `Card` by `Updated`, `FadeOutEnded` and `FadeInEnded`. The class `QsbBlockerView` is proved to follow them.
- **The search bar** (`ComposeSearchLayout`), in `compose_search_layout.dfy`, module `ComposeSearch`. It models:
  - how an edit of the query drives the app search and the container;
  - `startSearch`, which trims its argument (Kotlin's `String.trim`, modelled exactly over the JVM whitespace set);
  - clearing and resetting the search;
  - forwarding results;
  - submitting to a web provider.

  The requests made of the search algorithm, the container, the focus manager, the keyboard and the web provider are recorded in order in the trace `calls`.
- **The full-reorder test fixture** (`FullReorderCase`), in `full_reorder_case.dfy`, module `FullReorderCase`. It holds three pairs of start and end boards, the move-to points and the map keyed by grid size. These are constants with proofs about:
  - dimensions;
  - the blocked top row;
  - the move-to cell;
  - rectangular occupants of unchanged size;
  - conservation of every cell.

`wrappers.dfy` holds `Option` and the `Rect` record shared by the modules.

Integers are Dafny's unbounded `int`. Java `int` arithmetic matters only in the measure-spec decoding of `onMeasure`. There, `MeasureSpec.getSize` is the low 30 bits of a 32-bit spec, `makeMeasureSpec` wraps to 32 bits, and `/` truncates toward zero (`TruncDiv`).

## Model

| member | source | states |
|---|---|---|
| FullReorderCase.Case5x5 | tests/src/com/android/launcher3/celllayout/testcases/FullReorderCase.java:30-42 | Both 5x5 boards have 5 '\n'-separated rows of width 5. The first row is all 'x'. The move-to point (0,4) lies in the grid. Its cell is not 'm' at the start and is 'm' at the end. Every occupant covers a rectangle with the same width and height in both boards |
| FullReorderCase.Case6x5 | tests/src/com/android/launcher3/celllayout/testcases/FullReorderCase.java:49-61 | The same for the 6x5 boards (5 rows of width 6, move-to (0,4)) |
| FullReorderCase.Case4x4 | tests/src/com/android/launcher3/celllayout/testcases/FullReorderCase.java:68-78 | The same for the 4x4 boards (4 rows of width 4, move-to (0,3)) |
| FullReorderCase.Conserved5x5 | tests/src/com/android/launcher3/celllayout/testcases/FullReorderCase.java:30-42 | The 5x5 start and end boards hold the same count of every character |
| FullReorderCase.Conserved6x5 | tests/src/com/android/launcher3/celllayout/testcases/FullReorderCase.java:49-61 | The 6x5 start and end boards hold the same count of every character |
| FullReorderCase.Conserved4x4 | tests/src/com/android/launcher3/celllayout/testcases/FullReorderCase.java:68-78 | The 4x4 start and end boards hold the same count of every character |
| FullReorderCase.FixtureWellFormed | tests/src/com/android/launcher3/celllayout/testcases/FullReorderCase.java:84-87 | The map's keys are exactly (5,5), (6,5) and (4,4). Each key's case is well formed for that grid size in all the ways listed for Case5x5 |
| FullReorderCase.LinesOfJoin | tests/src/com/android/launcher3/celllayout/testcases/FullReorderCase.java:30-35 | Rows without '\n', joined with '\n', split back into the same rows |
| QsbBlocker.CardStateFor | Omega/src/com/saggitt/omega/superg/QsbBlockerView.java:127-133 | The new state is 1 exactly when the weather is null and 2 exactly when it is not |
| QsbBlocker.Remove | Omega/src/com/saggitt/omega/superg/QsbBlockerView.java:143 | removeView leaves exactly the other children. It keeps them free of duplicates, and a view that is not a child changes nothing |
| QsbBlocker.RemoveKeepsOrder | Omega/src/com/saggitt/omega/superg/QsbBlockerView.java:143 | removeView of a child cuts it out where it stands: the other children keep their order |
| QsbBlocker.Updated | Omega/src/com/saggitt/omega/superg/QsbBlockerView.java:119-156 | One onDataUpdated call on the card value: nothing with the preference off, otherwise ViewChosen then ViewsSwapped. Its promises are the lemmas UpdatePreservesValid, PrefOffLeavesCard, ViewReusedIffSameState, WeatherAppliedOnEveryUpdate, StateChangeCrossFades, SameStateKeepsChildren and UpdateIdempotent |
| QsbBlocker.ViewChosen | Omega/src/com/saggitt/omega/superg/QsbBlockerView.java:127-139 | The state follows the weather. The view is kept when it exists and the state is the same, else a fresh one is inflated from the state's layout. A weather card gets the weather and the click listener |
| QsbBlocker.ViewsSwapped | Omega/src/com/saggitt/omega/superg/QsbBlockerView.java:141-155 | On a state change the new view is appended and fades in while the old one fades out. With the same state and another view, the old one is removed and the new one appended. With the same view the children stay. The view gets the long-click listener |
| QsbBlocker.FadeOutEnded | Omega/src/com/saggitt/omega/superg/QsbBlockerView.java:143 | The end action of the fade-out: the view leaves the children and no longer fades. FadeOutEndedPreservesValid states what it keeps |
| QsbBlocker.FadeInEnded | Omega/src/com/saggitt/omega/superg/QsbBlockerView.java:146-147 | The fade-in ends. FadeInEndedPreservesValid states what it keeps |
| QsbBlocker.InitialCardValid | Omega/src/com/saggitt/omega/superg/QsbBlockerView.java:42-43 | The initial frame (state 0, no view, only the declared child) satisfies the card invariant |
| QsbBlocker.UpdatePreservesValid | Omega/src/com/saggitt/omega/superg/QsbBlockerView.java:119-156 | Every update keeps the invariant. The state is 0, 1 or 2, and it is 0 exactly when there is no view. No view is a child twice. The view is a child, is not fading out, was inflated from its state's layout and has the long-click listener. A weather view also has the weather applied and the click listener |
| QsbBlocker.FadeOutEndedPreservesValid | Omega/src/com/saggitt/omega/superg/QsbBlockerView.java:143 | The end action of a fade-out (removing the faded view) keeps the invariant |
| QsbBlocker.FadeInEndedPreservesValid | Omega/src/com/saggitt/omega/superg/QsbBlockerView.java:146-147 | The end of a fade-in keeps the invariant |
| QsbBlocker.PrefOffLeavesCard | Omega/src/com/saggitt/omega/superg/QsbBlockerView.java:123-125 | With the pill search bar off, an update changes nothing: not the state, the view, the children or anything else |
| QsbBlocker.ViewReusedIffSameState | Omega/src/com/saggitt/omega/superg/QsbBlockerView.java:127-136 | The state follows the weather. The view stays the same exactly when the state is unchanged. Otherwise the view is new, never seen before, and inflated from the new state's layout |
| QsbBlocker.WeatherAppliedOnEveryUpdate | Omega/src/com/saggitt/omega/superg/QsbBlockerView.java:133-138 | With weather, the current view (reused or new) gets exactly that weather and the click listener |
| QsbBlocker.StateChangeCrossFades | Omega/src/com/saggitt/omega/superg/QsbBlockerView.java:141-147 | On a change of state the new view is appended and fades in. The old view fades out but stays a child until its fade ends. Then the children are the old ones without it, plus the new view |
| QsbBlocker.SameStateKeepsChildren | Omega/src/com/saggitt/omega/superg/QsbBlockerView.java:148-153 | With an unchanged state the view is kept, so the children and the running fades do not change. The no-fade swap branch is never taken |
| QsbBlocker.UpdateIdempotent | Omega/src/com/saggitt/omega/superg/QsbBlockerView.java:119-156 | Delivering the same data twice gives the same card as delivering it once |
| QsbBlocker.TruncDiv | Omega/src/com/saggitt/omega/superg/QsbBlockerView.java:77-78 | Java int division: the remainder is smaller than the divisor in magnitude and has the dividend's sign |
| QsbBlocker.Wrap32 | Omega/src/com/saggitt/omega/superg/QsbBlockerView.java:70 | The result is a 32-bit int congruent to the input modulo 2^32 |
| QsbBlocker.MeasureSpecSize | Omega/src/com/saggitt/omega/superg/QsbBlockerView.java:77 | getSize of an int spec lies in [0, 2^30) |
| QsbBlocker.MakeMeasureSpec | Omega/src/com/saggitt/omega/superg/QsbBlockerView.java:70 | A spec made from a size and a mode is a 32-bit int |
| QsbBlocker.MeasureSpecSizeRoundTrip | Omega/src/com/saggitt/omega/superg/QsbBlockerView.java:77 | getSize recovers the size a spec was made with, whatever its mode |
| QsbBlocker.SideMargin | Omega/src/com/saggitt/omega/superg/QsbBlockerView.java:72-84 | Without a launcher the margin is the preview resource. Without the vertical-bar layout it is 0 |
| QsbBlocker.MarginCentersIcon | Omega/src/com/saggitt/omega/superg/QsbBlockerView.java:76-78 | In the vertical-bar layout, when a column is at least an icon wide, the margin is non-negative and an icon with the margin on both sides fills the column to within one pixel |
| QsbBlocker.QsbBlockerView.constructor | Omega/src/com/saggitt/omega/superg/QsbBlockerView.java:46-53 | The frame starts with state 0, no view, a transparent paint and willNotDraw set |
| QsbBlocker.QsbBlockerView.OnDataUpdated | Omega/src/com/saggitt/omega/superg/QsbBlockerView.java:119-156 | The new card is Updated(old card, preference, weather), and the invariant is kept |
| QsbBlocker.QsbBlockerView.ChooseView | Omega/src/com/saggitt/omega/superg/QsbBlockerView.java:127-139 | mState, mView, the inflated layouts, the applied weather and the click listeners become ViewChosen of the old card |
| QsbBlocker.QsbBlockerView.Inflate | Omega/src/com/saggitt/omega/superg/QsbBlockerView.java:131 | Inflating yields a view id never used before, recorded with its layout |
| QsbBlocker.QsbBlockerView.SwapViews | Omega/src/com/saggitt/omega/superg/QsbBlockerView.java:141-155 | The children, the fades and the long-click listeners become ViewsSwapped of the card |
| QsbBlocker.QsbBlockerView.EndFadeOut | Omega/src/com/saggitt/omega/superg/QsbBlockerView.java:143 | The end action removes the faded view from the children, and the invariant is kept |
| QsbBlocker.QsbBlockerView.EndFadeIn | Omega/src/com/saggitt/omega/superg/QsbBlockerView.java:147 | The fade-in ends, and the invariant is kept |
| QsbBlocker.QsbBlockerView.OnMeasure | Omega/src/com/saggitt/omega/superg/QsbBlockerView.java:70-90 | Only a weather card's view gets new side margins (SideMargin). The card itself is unchanged |
| QsbBlocker.QsbBlockerView.SetPadding | Omega/src/com/saggitt/omega/superg/QsbBlockerView.java:166-169 | All four paddings become 0 whatever the arguments |
| QsbBlocker.QsbBlockerView.SetBgAlpha | Omega/src/com/saggitt/omega/superg/QsbBlockerView.java:191-195 | The paint alpha becomes n. willNotDraw is set exactly when n is 0. One redraw is requested |
| QsbBlocker.QsbBlockerView.GetBgAlpha | Omega/src/com/saggitt/omega/superg/QsbBlockerView.java:198-200 | get returns the paint alpha, which lies in 0..255 |
| ComposeSearch.LeadingWhitespace | Omega/src/com/saggitt/omega/allapps/search/ComposeSearchLayout.kt:269 | Counts the leading whitespace: everything before the count is whitespace, and the next character is not |
| ComposeSearch.TrailingWhitespace | Omega/src/com/saggitt/omega/allapps/search/ComposeSearchLayout.kt:269 | The same for the trailing whitespace |
| ComposeSearch.Trim | Omega/src/com/saggitt/omega/allapps/search/ComposeSearchLayout.kt:269 | The trimmed query is empty exactly when the argument is all whitespace. Otherwise it starts and ends with non-whitespace |
| ComposeSearch.TrimRemovesOnlyWhitespace | Omega/src/com/saggitt/omega/allapps/search/ComposeSearchLayout.kt:269 | The trimmed query is an infix of the argument with only whitespace before and after it |
| ComposeSearch.TrimOfTrimmed | Omega/src/com/saggitt/omega/allapps/search/ComposeSearchLayout.kt:269 | A string with no whitespace at either end trims to itself |
| ComposeSearch.TrimIdempotent | Omega/src/com/saggitt/omega/allapps/search/ComposeSearchLayout.kt:268-270 | Trimming twice is trimming once |
| ComposeSearch.ClearCalls | Omega/src/com/saggitt/omega/allapps/search/ComposeSearchLayout.kt:258-262 | With a container, clearing sends it null results and then onClearSearchResult. Without one it sends nothing |
| ComposeSearch.QueryChangedCalls | Omega/src/com/saggitt/omega/allapps/search/ComposeSearchLayout.kt:221-229 | The first request is always a cancel, interrupting exactly when the query is empty. A search is issued exactly when the query is non-empty, and for exactly that query. The container is cleared only for an empty query. The results forwarded are only ever null |
| ComposeSearch.SearchResultCalls | Omega/src/com/saggitt/omega/allapps/search/ComposeSearchLayout.kt:278-286 | Results are forwarded (at most once) exactly when the items are non-null and a container is attached, and they are those items |
| ComposeSearch.Submitted | Omega/src/com/saggitt/omega/allapps/search/ComposeSearchLayout.kt:288-292 | The answer is true exactly for a web provider and a non-null query, which is then opened. It is false exactly for any other provider. A web provider with a null query throws |
| ComposeSearch.ComposeSearchLayout.constructor | Omega/src/com/saggitt/omega/allapps/search/ComposeSearchLayout.kt:88-96 | The query starts empty, with the controller's provider and no container |
| ComposeSearch.ComposeSearchLayout.OnValueChange | Omega/src/com/saggitt/omega/allapps/search/ComposeSearchLayout.kt:115-118 | After an edit the query is the new text (an empty text clears it), and the requests are those of onQueryChanged |
| ComposeSearch.ComposeSearchLayout.OnQueryChanged | Omega/src/com/saggitt/omega/allapps/search/ComposeSearchLayout.kt:221-229 | Appends QueryChangedCalls. Only an empty query clears the query |
| ComposeSearch.ComposeSearchLayout.OnClearClicked | Omega/src/com/saggitt/omega/allapps/search/ComposeSearchLayout.kt:150-155 | The query becomes "". Focus is cleared, the keyboard (if any) is hidden, then the search is reset |
| ComposeSearch.ComposeSearchLayout.OnSearchProviderChanged | Omega/src/com/saggitt/omega/allapps/search/ComposeSearchLayout.kt:242-244 | The provider becomes the controller's new provider |
| ComposeSearch.ComposeSearchLayout.InitializeSearch | Omega/src/com/saggitt/omega/allapps/search/ComposeSearchLayout.kt:246-252 | The container becomes the given one, possibly none |
| ComposeSearch.ComposeSearchLayout.ResetSearch | Omega/src/com/saggitt/omega/allapps/search/ComposeSearchLayout.kt:254-256 | Exactly clearSearchResult: the same query and the same requests |
| ComposeSearch.ComposeSearchLayout.ClearSearchResult | Omega/src/com/saggitt/omega/allapps/search/ComposeSearchLayout.kt:258-262 | The query becomes "", and the container gets ClearCalls |
| ComposeSearch.ComposeSearchLayout.StartEmptySearch | Omega/src/com/saggitt/omega/allapps/search/ComposeSearchLayout.kt:264-266 | startSearch() leaves the query "" |
| ComposeSearch.ComposeSearchLayout.StartSearch | Omega/src/com/saggitt/omega/allapps/search/ComposeSearchLayout.kt:268-270 | The query becomes the trimmed argument |
| ComposeSearch.ComposeSearchLayout.HideSoftwareKeyboard | Omega/src/com/saggitt/omega/allapps/search/ComposeSearchLayout.kt:274-276 | The keyboard is hidden only if a controller exists |
| ComposeSearch.ComposeSearchLayout.OnSearchResult | Omega/src/com/saggitt/omega/allapps/search/ComposeSearchLayout.kt:278-286 | Appends SearchResultCalls |
| ComposeSearch.ComposeSearchLayout.OnSubmitSearch | Omega/src/com/saggitt/omega/allapps/search/ComposeSearchLayout.kt:288-292 | Returns and records what Submitted says |
| AllAppsContainer.BoundToRange | src/com/android/launcher3/allapps/ActivityAllAppsContainerView.java:515 | The clamped position lies in [lower, upper] when that range is non-empty. It equals the value inside the range, the nearer bound outside it, and lower when the range is empty |
| AllAppsContainer.FirstIndex | src/com/android/launcher3/allapps/ActivityAllAppsContainerView.java:1306-1322 | The result is -1 exactly when no holder has the type. Otherwise it is an index with that type and no earlier index has it |
| AllAppsContainer.BottomOffset | src/com/android/launcher3/allapps/ActivityAllAppsContainerView.java:1555-1563 | The extra bottom padding of a list: insets.bottom plus the work switch height for a WORK holder when the switch is attached, plus the search container height when the search bar floats. OnlyWorkGetsSwitchOffset states its consequences |
| AllAppsContainer.PaddingFor | src/com/android/launcher3/allapps/ActivityAllAppsContainerView.java:1553-1565 | The padding applyPadding gives a list: the holder's sides and top, and its bottom plus BottomOffset. OnlyWorkGetsSwitchOffset states its consequences |
| AllAppsContainer.SidePadded | src/com/android/launcher3/allapps/ActivityAllAppsContainerView.java:1212-1220 | A holder's padding after applyAdapterSideAndBottomPaddings: the given sides and bottom, the old top |
| AllAppsContainer.AdapterHolder.IsWork | src/com/android/launcher3/allapps/ActivityAllAppsContainerView.java:1567-1569 | A holder is work exactly when its type is WORK |
| AllAppsContainer.AdapterHolder.IsSearch | src/com/android/launcher3/allapps/ActivityAllAppsContainerView.java:1571-1573 | A holder is the search holder exactly when its type is SEARCH |
| AllAppsContainer.OnlyWorkGetsSwitchOffset | src/com/android/launcher3/allapps/ActivityAllAppsContainerView.java:1553-1565 | The sides and top are the holder's own. Only a WORK holder gets the work-switch offset (insets.bottom + switch height) added to its bottom. All other holders are padded alike |
| AllAppsContainer.AdapterHolder.constructor | src/com/android/launcher3/allapps/ActivityAllAppsContainerView.java:1527-1533 | A new holder has its type, zero padding and no list |
| AllAppsContainer.AdapterHolder.SetIsWork | src/com/android/launcher3/allapps/ActivityAllAppsContainerView.java:1575-1577 | The type becomes WORK or MAIN, so the holder is work exactly as asked and never SEARCH |
| AllAppsContainer.AdapterHolder.Setup | src/com/android/launcher3/allapps/ActivityAllAppsContainerView.java:1535-1551 | The list is bound and padded |
| AllAppsContainer.AdapterHolder.ApplyPadding | src/com/android/launcher3/allapps/ActivityAllAppsContainerView.java:1553-1565 | Without a list nothing changes. Otherwise the list gets PaddingFor(padding, type) |
| AllAppsContainer.AnimateToSearch | src/com/android/launcher3/allapps/ActivityAllAppsContainerView.java:383-414 | animateToSearchState on the bookkeeping: no change when no transition runs and the target is the current state, else the transition toward the target is pending. AnimateWhenSettledIsNoOp and SearchingChangesOnlyAtTransitionEnd state its promises |
| AllAppsContainer.Rebind | src/com/android/launcher3/allapps/ActivityAllAppsContainerView.java:553-633 | rebindAdapters on the bookkeeping: defer while a transition runs, return on an unchanged tab mode without force, only record mUsingTabs while searching, else rebuild. RebindWhileRunningOnlyDefers and RebindGuards state its promises |
| AllAppsContainer.TransitionEndedAsWritten | src/com/android/launcher3/allapps/ActivityAllAppsContainerView.java:396-413 | The end callback as written: mIsSearching becomes the direction, the transition is over, a deferred rebind is replayed as rebindAdapters(false), and back on A-Z the pager returns to its previous page. TransitionEndClearsDeferral and ClearSearchDropsTabsAsWritten state its promises |
| AllAppsContainer.TransitionEnded | src/com/android/launcher3/allapps/ActivityAllAppsContainerView.java:396-413 | The corrected end callback: the same, except that a deferred rebind is replayed for the tab mode it asked for. ClearSearchKeepsTabs states its promise |
| AllAppsContainer.ClearSearch | src/com/android/launcher3/allapps/ActivityAllAppsContainerView.java:344-348 | onClearSearchResult on the bookkeeping: animate to A-Z, then rebindAdapters(mUsingTabs) |
| AllAppsContainer.AnimateWhenSettledIsNoOp | src/com/android/launcher3/allapps/ActivityAllAppsContainerView.java:384-386 | With no transition running, asking for the current search state changes nothing |
| AllAppsContainer.SearchingChangesOnlyAtTransitionEnd | src/com/android/launcher3/allapps/ActivityAllAppsContainerView.java:395-397 | animateToSearchState, rebindAdapters and onClearSearchResult never change mIsSearching. The end callback sets it to the transition's direction and leaves no transition running |
| AllAppsContainer.RebindWhileRunningOnlyDefers | src/com/android/launcher3/allapps/ActivityAllAppsContainerView.java:553-557 | While a transition runs, rebindAdapters only marks the rebind as deferred |
| AllAppsContainer.RebindGuards | src/com/android/launcher3/allapps/ActivityAllAppsContainerView.java:561-569 | An unchanged tab mode without force returns before anything. While searching only mUsingTabs is recorded. The holders are rebuilt exactly in the remaining case |
| AllAppsContainer.TransitionEndClearsDeferral | src/com/android/launcher3/allapps/ActivityAllAppsContainerView.java:400-403 | After the end callback as written no rebind is deferred. A deferred rebind is replayed once as rebindAdapters(false); without one the tab mode is kept and nothing is rebuilt. Replayed after leaving search from a tabbed drawer, it turns the tabs off, drops the pager and rebuilds the holders |
| AllAppsContainer.StepsKeepTabInv | src/com/android/launcher3/allapps/ActivityAllAppsContainerView.java:553-557 | No step leaves a rebind deferred without a running transition |
| AllAppsContainer.ClearSearchDropsTabsAsWritten | src/com/android/launcher3/allapps/ActivityAllAppsContainerView.java:396-413 | As written, leaving search from the tabbed drawer ends with the tabs off and the holders rebuilt |
| AllAppsContainer.ClearSearchKeepsTabs | src/com/android/launcher3/allapps/ActivityAllAppsContainerView.java:344-348 | With the deferred request replayed as asked, leaving search keeps the tab mode and the page, rebuilds nothing and leaves nothing deferred |
| AllAppsContainer.AllAppsContainerView.CurrentPage | src/com/android/launcher3/allapps/ActivityAllAppsContainerView.java:1300-1304 | getCurrentPage: the SEARCH holder's index while searching, else the pager's page (MAIN without a pager). CurrentPageRule states it for valid holders |
| AllAppsContainer.AllAppsContainerView.IsPersonalTab | src/com/android/launcher3/allapps/ActivityAllAppsContainerView.java:1119-1121 | The personal tab is shown when there is no pager or the pager is on page 0 |
| AllAppsContainer.AllAppsContainerView.ActiveRecyclerView | src/com/android/launcher3/allapps/ActivityAllAppsContainerView.java:1090-1104 | getActiveRecyclerView: the search list while searching, else the MAIN holder's list without tabs or on the personal tab, else the first WORK holder's list. ActiveListRule states it for valid holders |
| AllAppsContainer.CurrentPageRule | src/com/android/launcher3/allapps/ActivityAllAppsContainerView.java:1300-1304 | getCurrentPage is the SEARCH holder's index (the last) while searching, else the pager's next page, or MAIN with no pager. In a valid container it always names a holder |
| AllAppsContainer.ActiveListRule | src/com/android/launcher3/allapps/ActivityAllAppsContainerView.java:1090-1104 | The active list is the search list while searching. Without tabs or on the personal tab it is the MAIN holder's list. Otherwise it is the first WORK holder's list, and with no WORK holder the lookup fails |
| AllAppsContainer.SearchHolderIsLast | src/com/android/launcher3/allapps/ActivityAllAppsContainerView.java:959-963 | After createHolders the SEARCH holder's index is the last one, and the WORK lookup sees only the tabs' holders |
| AllAppsContainer.AllAppsContainerView.constructor | src/com/android/launcher3/allapps/ActivityAllAppsContainerView.java:201-236 | A new container has valid holders, is not searching, uses no tabs and has no transition running |
| AllAppsContainer.AllAppsContainerView.CreateHolder | src/com/android/launcher3/allapps/ActivityAllAppsContainerView.java:1493-1507 | A fresh holder exactly for MAIN, WORK or SEARCH. Any other type is an error |
| AllAppsContainer.AllAppsContainerView.CreateHolders | src/com/android/launcher3/allapps/ActivityAllAppsContainerView.java:959-963 | Fresh, distinct holders: one per tab in the tabs' order, then SEARCH last |
| AllAppsContainer.AllAppsContainerView.GetSearchHolderIndex | src/com/android/launcher3/allapps/ActivityAllAppsContainerView.java:1315-1322 | The loop returns FirstIndex of SEARCH |
| AllAppsContainer.AllAppsContainerView.GetWorkHolderIndex | src/com/android/launcher3/allapps/ActivityAllAppsContainerView.java:1306-1313 | The loop returns FirstIndex of WORK |
| AllAppsContainer.AllAppsContainerView.UpdateSearchResultsVisibility | src/com/android/launcher3/allapps/ActivityAllAppsContainerView.java:1197-1206 | The search list is visible exactly while searching. The A-Z container and the header are visible exactly when not searching |
| AllAppsContainer.AllAppsContainerView.AnimateToSearchState | src/com/android/launcher3/allapps/ActivityAllAppsContainerView.java:383-414 | The bookkeeping becomes AnimateToSearch. The fast scroller is hidden for search and shown for A-Z unless the call returned early |
| AllAppsContainer.AllAppsContainerView.SetSearchResults | src/com/android/launcher3/allapps/ActivityAllAppsContainerView.java:353-361 | Only non-null results start the transition to search |
| AllAppsContainer.AllAppsContainerView.ForceBottomSheetVisible | src/com/android/launcher3/allapps/ActivityAllAppsContainerView.java:334-337 | Records the force flag. The sheet is visible on a tablet or when forced |
| AllAppsContainer.AllAppsContainerView.UpdateBackgroundVisibility | src/com/android/launcher3/allapps/ActivityAllAppsContainerView.java:994-1000 | The bottom sheet is visible exactly on a tablet or when forced |
| AllAppsContainer.AllAppsContainerView.Reset | src/com/android/launcher3/allapps/ActivityAllAppsContainerView.java:456-482 | With force, or when scroll positions are not saved, the forced bottom sheet is released. Only force animates back to A-Z |
| AllAppsContainer.AllAppsContainerView.OnTabChanged | src/com/android/launcher3/allapps/ActivityAllAppsContainerView.java:514-523 | The position is clamped to [0, tabs-1] and names a holder. The reset then asks for A-Z |
| AllAppsContainer.AllAppsContainerView.OnActivePageChanged | src/com/android/launcher3/allapps/ActivityAllAppsContainerView.java:526-542 | Ignored while a transition runs. Otherwise a page outside the holders throws IndexOutOfBounds (the only failure), and the bookkeeping never changes |
| AllAppsContainer.AllAppsContainerView.SwitchToTab | src/com/android/launcher3/allapps/ActivityAllAppsContainerView.java:1127-1131 | Without tabs nothing happens. With tabs the pager moves to the tab, kept within the tabs' pages, and a missing pager throws. The container stays valid |
| AllAppsContainer.AllAppsContainerView.RebindAdapters | src/com/android/launcher3/allapps/ActivityAllAppsContainerView.java:553-633 | The bookkeeping becomes Rebind. While a transition runs, nothing else changes. Otherwise the visibility follows the search state. Only a rebuild replaces the holders, and without tabs it binds the A-Z list to MAIN |
| AllAppsContainer.AllAppsContainerView.Rebuild | src/com/android/launcher3/allapps/ActivityAllAppsContainerView.java:580-617 | The holders are fresh and valid, and the rebuild count goes up by one. mUsingTabs becomes showTabs, with a pager at page 0 exactly when tabs are shown. Without tabs the A-Z list is bound to MAIN. No transition is left running |
| AllAppsContainer.AllAppsContainerView.OnClearSearchResult | src/com/android/launcher3/allapps/ActivityAllAppsContainerView.java:344-348 | The bookkeeping becomes ClearSearch: animate to A-Z, then rebind for the current tab mode |
| AllAppsContainer.AllAppsContainerView.FinishSearchTransition | src/com/android/launcher3/allapps/ActivityAllAppsContainerView.java:396-413 | The bookkeeping becomes TransitionEndedAsWritten, and the visibility follows the new search state. In a valid container the callback never throws: the page it restores always names a holder |
| AllAppsContainer.AllAppsContainerView.ReplayDeferredRebind | src/com/android/launcher3/allapps/ActivityAllAppsContainerView.java:400-403 | A deferred rebind runs once as rebindAdapters(false), that is with showTabs false, and the flag is cleared. Without a deferred rebind nothing changes |
| AllAppsContainer.AllAppsContainerView.ReturnToPage | src/com/android/launcher3/allapps/ActivityAllAppsContainerView.java:407-411 | The pager, if any, returns to the previous page, kept within the tabs' pages, and nothing else in the bookkeeping changes. onActivePageChanged follows. It throws IndexOutOfBounds exactly when that page is not a holder, and it throws nothing else |
| AllAppsContainer.AllAppsContainerView.CaptureOnDown | src/com/android/launcher3/allapps/ActivityAllAppsContainerView.java:1050-1058 | On ACTION_DOWN the handler becomes the active list's scrollbar when it is hit, else null. When the active holder does not exist the lookup throws and the handler is kept. Other actions keep it |
| AllAppsContainer.AllAppsContainerView.OnInterceptTouchEvent | src/com/android/launcher3/allapps/ActivityAllAppsContainerView.java:1042-1063 | Outside all apps the handler is cleared and nothing is intercepted. Otherwise the handler is chosen on ACTION_DOWN, and the event is intercepted exactly when a captured scrollbar takes it |
| AllAppsContainer.AllAppsContainerView.OnTouchEvent | src/com/android/launcher3/allapps/ActivityAllAppsContainerView.java:1066-1087 | Outside all apps nothing is consumed and the handler is kept. Otherwise the event is consumed when a scrollbar is captured, or while searching over the container |
| AllAppsContainer.AllAppsContainerView.ApplyAdapterSideAndBottomPaddings | src/com/android/launcher3/allapps/ActivityAllAppsContainerView.java:1212-1220 | Every holder gets bottom = max(insets.bottom, nav-bar scrim) and left = right = the side padding, then pads its list. Types and lists are unchanged |
| AllAppsContainer.AllAppsContainerView.UpdateHeaderProtection | src/com/android/launcher3/allapps/ActivityAllAppsContainerView.java:762-766 | The header is redrawn exactly when its colour or its tabs' alpha changes |

## Left out

- Drawing, canvas, paint colours, the float header progress and colour blending, spring and fling physics, RelativeLayout rules, window insets dispatch, instance-state bundles, executor posting and logging: these are rendering, floating point or platform I/O.
- The collaborators whose code is not in this model are left out: the search transition controller, the tabs controller, the work profile manager, the floating header, the search algorithm, the search providers and AlphabeticalAppsList. The model keeps only what they report: whether a transition runs, the tab holder types, and the work switch height. Their own calls (keyboard hiding, scrollbar binding, header reset, scroll-to-top, icon-container registration, the work manager's page and reset requests) are not recorded in the container.
- The paged view (AllAppsPagedView) is not part of this model. It is reduced to its next page. AllAppsContainer.AllAppsContainerView.SwitchToTab and AllAppsContainer.AllAppsContainerView.ReturnToPage keep the requested page within [0, tabs-1], as the launcher's PagedView keeps its page within its pages, with one page per tab. Its scrolling and snapping animations are not modelled.
- The search transition controller is reduced to one slot holding the pending end callback. A new request replaces that callback, and the controller's cancelling of a running animator is not modelled. The controller is taken to report "not running" by the time it runs the end callback.
- AllAppsContainer.AllAppsContainerView.Rebuild: replaceAppsRVContainer, the tab strip, setupHeader and the icon-container registration are not modelled. The new pager is taken to start at page 0. In the tabbed branch, the tabs' holders get their lists from the tabs controller, which is not part of this model, so they keep no list here.
- The container's lifecycle (onFinishInflate, attach/detach), shouldContainerScroll, getDescription, onDeviceProfileChanged, reloadTabs and onAppsUpdated are not core and are not modelled.
- ComposeSearch: the Compose Content() tree, the corner radius, voice and assistant search and the settings button are UI. The keyboard controller and focus manager come from the composition, so their presence is a constructor parameter. The search bar controller set up by initializeSearch is not part of this model.
- QsbBlocker: the card data argument of onDataUpdated is unused by the source. The weather icon and title only flow into the widget (WeatherData is opaque). The listener registration, click and long-click handlers, and the dummy bubble view's tag are platform calls.
- QsbBlocker.SideMargin: the arithmetic is on unbounded integers. Java int overflow in the division chain cannot happen for a 30-bit size, and the column count and icon size are taken as given.
- QsbBlocker.QsbBlockerView.SetBgAlpha: the property is defined for 0..255, the range Paint.setAlpha keeps. Values outside it are not modelled.
- FullReorderCase: the reorder solver, ReorderTestCase and the test workspace builder are not part of this model. Conservation of cells is stated per case (Conserved5x5, Conserved6x5, Conserved4x4), not folded into the map-wide lemma FixtureWellFormed.
- The "same state, different view" branch of onDataUpdated (swap without a fade) is unreachable. An unchanged state from a reachable card always keeps its view. The model still contains the branch in ViewsSwapped.

## Findings

| source | as written | input that shows it | evidently intended | confidence | as-written member | corrected member |
|---|---|---|---|---|---|---|
| src/com/android/launcher3/allapps/ActivityAllAppsContainerView.java:400-403 | The end callback replays a deferred rebind as `rebindAdapters(false)`. In this file the one-argument overload is `rebindAdapters(showTabs)` (line 549), so the replay asks for no tabs | A tabbed drawer that is searching, with no transition running, gets onClearSearchResult. The transition to A-Z starts and `rebindAdapters(true)` is deferred. At the end the replay rebuilds without tabs, so mUsingTabs becomes false | Replay the deferred rebind for the tab mode it was asked for, so leaving search keeps the tabs | medium: not executed; it relies on the transition controller reporting "not running" inside its end callback | AllAppsContainer.ClearSearchDropsTabsAsWritten | AllAppsContainer.ClearSearchKeepsTabs |

The container class follows the end callback as written (`TransitionEndedAsWritten`), so `FinishSearchTransition` shows the behaviour of the row above. The corrected callback `TransitionEnded` is defined and proved on the `TabState` value only. The tab mode a deferred request asked for is kept in the ghost field `deferredShowTabs`, which the source does not have; only the corrected callback reads it.

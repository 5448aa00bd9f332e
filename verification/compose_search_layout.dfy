/**
 * The search bar of the all-apps drawer (ComposeSearchLayout): the text in
 * the field is the query; every edit of it either cancels the app search
 * and clears the results (empty query) or cancels the running search and
 * starts a new one (non-empty query). Results come back through
 * OnSearchResult and are forwarded to the all-apps container.
 *
 * The search algorithm, the container, the focus manager, the keyboard and
 * the web search provider are not part of this model: what the search bar
 * asks of them is recorded, in order, in the trace `calls`.
 */
module ComposeSearch {
  import opened Wrappers

  /** Identity of the all-apps container the bar is attached to. */
  type ContainerId = nat

  /** An adapter item of a search result (opaque here). */
  type Item = nat

  /** The selected search provider; only whether it is a web provider matters. */
  datatype SearchProvider = SearchProvider(id: nat, isWeb: bool)

  /** A request the search bar makes of a collaborator. */
  datatype Call =
    | AlgorithmCancel(interruptActiveRequests: bool)   // searchAlgorithm.cancel
    | AlgorithmSearch(query: string)                   // searchAlgorithm.doSearch
    | ContainerSetResults(results: Option<seq<Item>>)  // mAppsView.setSearchResults
    | ContainerClearResult                             // mAppsView.onClearSearchResult
    | WebOpenResults(query: string)                    // WebSearchProvider.openResults
    | FocusCleared                                     // focusManager.clearFocus
    | KeyboardHidden                                   // keyboardController.hide

  /** What onSubmitSearch ends with: a boolean, or the NullPointerException of `query!!`. */
  datatype SubmitOutcome = Returned(handled: bool) | NullQuery

  // ---------------------------------------------------------------------
  // String.trim
  // ---------------------------------------------------------------------

  /**
   * Char.isWhitespace on the JVM: Character.isWhitespace or
   * Character.isSpaceChar, i.e. the ASCII controls TAB..CR and FS..US and
   * every space, line and paragraph separator of Unicode.
   */
  predicate IsWhitespace(c: char)
  {
    c == ' ' || ('\t' <= c <= '\r') || ('\U{1C}' <= c <= '\U{1F}')
    || c == '\U{A0}' || c == '\U{1680}' || ('\U{2000}' <= c <= '\U{200A}')
    || c == '\U{2028}' || c == '\U{2029}' || c == '\U{202F}' || c == '\U{205F}'
    || c == '\U{3000}'
  }

  predicate AllWhitespace(s: string)
  {
    forall k :: 0 <= k < |s| ==> IsWhitespace(s[k])
  }

  /** Number of whitespace characters s starts with. */
  function LeadingWhitespace(s: string): (n: nat)
    ensures n <= |s|
    ensures AllWhitespace(s[..n])
    ensures n < |s| ==> !IsWhitespace(s[n])
  {
    if |s| == 0 || !IsWhitespace(s[0]) then 0
    else
      var m := LeadingWhitespace(s[1..]);
      assert s[..m + 1] == [s[0]] + s[1..][..m];
      m + 1
  }

  /** Number of whitespace characters s ends with. */
  function TrailingWhitespace(s: string): (n: nat)
    ensures n <= |s|
    ensures AllWhitespace(s[|s| - n..])
    ensures n < |s| ==> !IsWhitespace(s[|s| - 1 - n])
  {
    if |s| == 0 || !IsWhitespace(s[|s| - 1]) then 0
    else
      var t := s[..|s| - 1];
      var m := TrailingWhitespace(t);
      assert s[|s| - (m + 1)..] == t[|t| - m..] + [s[|s| - 1]];
      m + 1
  }

  /** Kotlin's String.trim(): s without its leading and trailing whitespace. */
  function Trim(s: string): (r: string)
    ensures |r| <= |s|
    ensures r == [] <==> AllWhitespace(s)
    ensures r != [] ==> !IsWhitespace(r[0]) && !IsWhitespace(r[|r| - 1])
  {
    var t := s[LeadingWhitespace(s)..];
    assert t != [] ==> !IsWhitespace(t[0]);
    assert AllWhitespace(s) ==> t == [];
    assert t == [] ==> s == s[..LeadingWhitespace(s)];
    t[..|t| - TrailingWhitespace(t)]
  }

  /** What trim removes is whitespace only: the result is an infix of s between two runs of whitespace. */
  lemma TrimRemovesOnlyWhitespace(s: string)
    ensures exists i :: 0 <= i <= |s| - |Trim(s)| && Trim(s) == s[i..i + |Trim(s)|]
                        && AllWhitespace(s[..i]) && AllWhitespace(s[i + |Trim(s)|..])
  {
    var i := LeadingWhitespace(s);
    var t := s[i..];
    var j := |t| - TrailingWhitespace(t);
    assert Trim(s) == t[..j];
    assert s[i..i + j] == t[..j];
    assert s[i + j..] == t[j..];
  }

  /** A string with no whitespace at either end is its own trim. */
  lemma TrimOfTrimmed(s: string)
    requires s != [] ==> !IsWhitespace(s[0]) && !IsWhitespace(s[|s| - 1])
    ensures Trim(s) == s
  {
  }

  /** Trimming twice is trimming once. */
  lemma TrimIdempotent(s: string)
    ensures Trim(Trim(s)) == Trim(s)
  {
    TrimOfTrimmed(Trim(s));
  }

  // ---------------------------------------------------------------------
  // The requests each operation makes
  // ---------------------------------------------------------------------

  /** What clearSearchResult asks of the container: null results, then onClearSearchResult. */
  function ClearCalls(appsView: Option<ContainerId>): (cs: seq<Call>)
    ensures appsView.None? ==> cs == []
    ensures appsView.Some? ==> cs == [ContainerSetResults(None), ContainerClearResult]
  {
    if appsView.Some? then [ContainerSetResults(None), ContainerClearResult] else []
  }

  /**
   * What onQueryChanged asks: an empty query interrupts the search and
   * clears the results; any other query cancels without interrupting and
   * searches for exactly that query.
   */
  function QueryChangedCalls(query: string, appsView: Option<ContainerId>): (cs: seq<Call>)
    ensures |cs| >= 1 && cs[0] == AlgorithmCancel(query == [])
    ensures forall q :: AlgorithmSearch(q) in cs <==> query != [] && q == query
    ensures ContainerClearResult in cs <==> query == [] && appsView.Some?
    ensures forall r :: ContainerSetResults(r) in cs ==> r.None?
  {
    if query == [] then [AlgorithmCancel(true)] + ClearCalls(appsView)
    else [AlgorithmCancel(false), AlgorithmSearch(query)]
  }

  /** What onSearchResult forwards: non-null items only, and only to an attached container. */
  function SearchResultCalls(items: Option<seq<Item>>, appsView: Option<ContainerId>): (cs: seq<Call>)
    ensures cs != [] <==> items.Some? && appsView.Some?
    ensures forall r :: ContainerSetResults(r) in cs ==> r == items && r.Some?
    ensures |cs| <= 1
  {
    if items.Some? && appsView.Some? then [ContainerSetResults(items)] else []
  }

  /** onSubmitSearch: a web provider opens the results for a non-null query and answers true. */
  function Submitted(provider: SearchProvider, query: Option<string>): (r: (SubmitOutcome, seq<Call>))
    ensures r.0 == Returned(true) <==> provider.isWeb && query.Some?
    ensures r.0 == Returned(false) <==> !provider.isWeb
    ensures r.0 == NullQuery <==> provider.isWeb && query.None?
    ensures r.1 != [] <==> r.0 == Returned(true)
    ensures r.0 == Returned(true) ==> r.1 == [WebOpenResults(query.value)]
  {
    if !provider.isWeb then (Returned(false), [])
    else match query
      case None => (NullQuery, [])
      case Some(q) => (Returned(true), [WebOpenResults(q)])
  }

  // ---------------------------------------------------------------------
  // The view
  // ---------------------------------------------------------------------

  class ComposeSearchLayout {
    /** The text of the field (the `query` mutable state). */
    var query: string
    var searchProvider: SearchProvider
    /** mAppsView: the container set by initializeSearch, if any. */
    var appsView: Option<ContainerId>
    /** Whether the composition supplied a software keyboard controller. */
    var hasKeyboard: bool
    /** Requests made of the collaborators, oldest first. */
    var calls: seq<Call>

    constructor (provider: SearchProvider, keyboard: bool)
      ensures query == [] && searchProvider == provider && appsView == None
      ensures hasKeyboard == keyboard && calls == []
    {
      query := [];
      searchProvider := provider;
      appsView := None;
      hasKeyboard := keyboard;
      calls := [];
    }

    /** An edit of the text field: the new text becomes the query, then is dispatched. */
    method OnValueChange(text: string)
      modifies this`query, this`calls
      ensures query == text
      ensures calls == old(calls) + QueryChangedCalls(text, appsView)
    {
      query := text;
      OnQueryChanged(text);
    }

    method OnQueryChanged(q: string)
      modifies this`query, this`calls
      ensures query == (if q == [] then [] else old(query))
      ensures calls == old(calls) + QueryChangedCalls(q, appsView)
    {
      if q == [] {
        calls := calls + [AlgorithmCancel(true)];
        ClearSearchResult();
      } else {
        calls := calls + [AlgorithmCancel(false)];
        calls := calls + [AlgorithmSearch(q)];
      }
    }

    /** The clear button: empty the field, drop focus and keyboard, reset the search. */
    method OnClearClicked()
      modifies this`query, this`calls
      ensures query == []
      ensures calls == old(calls) + [FocusCleared]
                       + (if hasKeyboard then [KeyboardHidden] else []) + ClearCalls(appsView)
    {
      query := [];
      calls := calls + [FocusCleared];
      if hasKeyboard {
        calls := calls + [KeyboardHidden];
      }
      ResetSearch();
    }

    method OnSearchProviderChanged(provider: SearchProvider)
      modifies this`searchProvider
      ensures searchProvider == provider
    {
      searchProvider := provider;
    }

    method InitializeSearch(container: Option<ContainerId>)
      modifies this`appsView
      ensures appsView == container
    {
      appsView := container;
    }

    method ResetSearch()
      modifies this`query, this`calls
      ensures query == []
      ensures calls == old(calls) + ClearCalls(appsView)
    {
      ClearSearchResult();
    }

    method ClearSearchResult()
      modifies this`query, this`calls
      ensures query == []
      ensures calls == old(calls) + ClearCalls(appsView)
    {
      if appsView.Some? {
        calls := calls + [ContainerSetResults(None)];
      }
      query := [];
      if appsView.Some? {
        calls := calls + [ContainerClearResult];
      }
    }

    /** startSearch(): start from an empty query. */
    method StartEmptySearch()
      modifies this`query
      ensures query == []
    {
      StartSearch([]);
    }

    method StartSearch(searchQuery: string)
      modifies this`query
      ensures query == Trim(searchQuery)
    {
      query := Trim(searchQuery);
    }

    method HideSoftwareKeyboard()
      modifies this`calls
      ensures calls == old(calls) + (if hasKeyboard then [KeyboardHidden] else [])
    {
      if hasKeyboard {
        calls := calls + [KeyboardHidden];
      }
    }

    method OnSearchResult(q: Option<string>, items: Option<seq<Item>>, suggestions: Option<seq<string>>)
      modifies this`calls
      ensures calls == old(calls) + SearchResultCalls(items, appsView)
    {
      if items.Some? && appsView.Some? {
        calls := calls + [ContainerSetResults(items)];
      }
    }

    method OnSubmitSearch(q: Option<string>) returns (r: SubmitOutcome)
      modifies this`calls
      ensures r == Submitted(searchProvider, q).0
      ensures calls == old(calls) + Submitted(searchProvider, q).1
    {
      if searchProvider.isWeb {
        match q {
          case None =>
            r := NullQuery;
          case Some(s) =>
            calls := calls + [WebOpenResults(s)];
            r := Returned(true);
        }
      } else {
        r := Returned(false);
      }
    }
  }

}

/**
 * The state of the single-page site and the events that change it: the
 * language, the current page, the text of the search box and whether the
 * search box has the focus.  Rendering is not modelled; what the page shows
 * is stated by `Content()`, `Results()` and `ResultsPanelVisible()`.
 */
module Navigation {
  import opened Types
  import opened Text
  import opened Catalog
  import opened Search

  class App {
    var lang: LanguageCode
    var page: Page
    var searchQuery: string
    var isSearchFocused: bool

    /** The first render: Portuguese, the home page, an empty search box without focus. */
    constructor ()
      ensures lang == Pt && page == Home && searchQuery == "" && !isSearchFocused
      ensures !ResultsPanelVisible() && Results() == []
    {
      lang := Pt;
      page := Home;
      searchQuery := "";
      isSearchFocused := false;
    }

    /** `t`: the catalog of the current language. */
    function Content(): ContentTranslation
      reads this
    {
      Translation(lang)
    }

    /** `results`: what the search box finds, recomputed on every render. */
    function Results(): (r: seq<SearchResult>)
      reads this
      ensures |r| <= MAX_RESULTS
      ensures Trim(searchQuery) == [] ==> r == []
    {
      Find(Content(), RESOURCES, searchQuery)
    }

    /**
     * The results panel is open while the box has the focus and holds some
     * text, blank or not; for whitespace only it is open and lists nothing.
     */
    predicate ResultsPanelVisible()
      reads this
      ensures ResultsPanelVisible() ==> isSearchFocused && |searchQuery| > 0
      ensures ResultsPanelVisible() && AllWhitespace(searchQuery) ==> Results() == []
    {
      TrimEmptyIffBlank(searchQuery);
      isSearchFocused && searchQuery != ""
    }

    /** `getSearchResults()` as the render calls it; it changes nothing. */
    method ComputeResults() returns (results: seq<SearchResult>)
      ensures results == Results()
    {
      results := GetSearchResults(Translation(lang), RESOURCES, searchQuery);
    }

    /**
     * `setPage`: the navigation items, the mobile bar and the buttons of the
     * landing page may go to any page from any page; nothing else changes.
     */
    method SetPage(target: Page)
      modifies this
      ensures page == target
      ensures lang == old(lang) && searchQuery == old(searchQuery) && isSearchFocused == old(isSearchFocused)
    {
      page := target;
    }

    /** `setLang`: a button of the language switcher; page and search stay as they are. */
    method SetLang(code: LanguageCode)
      modifies this
      ensures lang == code
      ensures page == old(page) && searchQuery == old(searchQuery) && isSearchFocused == old(isSearchFocused)
    {
      lang := code;
    }

    /** The `onChange` of the search box: the text becomes the box's value, untrimmed. */
    method SetSearchQuery(value: string)
      modifies this
      ensures searchQuery == value
      ensures lang == old(lang) && page == old(page) && isSearchFocused == old(isSearchFocused)
      ensures ResultsPanelVisible() <==> isSearchFocused && value != ""
    {
      searchQuery := value;
    }

    /** The `onFocus` of the search box. */
    method FocusSearch()
      modifies this
      ensures isSearchFocused
      ensures lang == old(lang) && page == old(page) && searchQuery == old(searchQuery)
      ensures ResultsPanelVisible() <==> searchQuery != ""
    {
      isSearchFocused := true;
    }

    /**
     * The `mousedown` listener of the document.  The DOM is a parameter:
     * `refMounted` is whether the search bar the reference points to is
     * mounted, `targetInside` whether the pressed node lies inside it.  The
     * focus is dropped only for a press outside a mounted search bar; the
     * query is kept, and so is every other field.
     */
    method HandleClickOutside(refMounted: bool, targetInside: bool)
      modifies this
      ensures isSearchFocused == (old(isSearchFocused) && !(refMounted && !targetInside))
      ensures lang == old(lang) && page == old(page) && searchQuery == old(searchQuery)
      ensures refMounted && !targetInside ==> !ResultsPanelVisible()
    {
      if refMounted && !targetInside {
        isSearchFocused := false;
      }
    }

    /**
     * `handleResultClick`: go to the result's page, empty the box and drop
     * the focus, so that the panel closes and the result list is empty; the
     * language is kept.
     */
    method HandleResultClick(result: SearchResult)
      modifies this
      ensures page == result.targetPage && searchQuery == "" && !isSearchFocused
      ensures lang == old(lang)
      ensures !ResultsPanelVisible() && Results() == []
    {
      page := result.targetPage;
      searchQuery := "";
      isSearchFocused := false;
    }
  }
}

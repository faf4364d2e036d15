/** The search box web part's container component: the query dispatcher, the
    widget state it keeps between events, the scope toggle's URL rewrite and the
    decisions its render makes.

    The library calls whose code is not part of this model (URI component
    encoding and decoding, the query-string helper, the browser's URL object)
    are the function-valued fields of a `UrlLib`, so nothing is assumed about
    them. The component's external effects (the host callback, `window.open`,
    assigning `window.location.href`) are appended to a ghost log instead of
    being performed. */
module SearchBox {
  import opened Wrappers
  import opened TextReplace

  /** Where a new-page search puts the query text in the target URL. */
  datatype QueryPathBehavior = URLFragment | QueryParameter

  /** Whether a new-page search opens in the current tab or a new one. */
  datatype PageOpenBehavior = Self | NewTab

  /** The two options of the scope choice group. */
  datatype ScopeKey = All | Scoped

  /** Library calls the component makes, taken as given functions. */
  datatype UrlLib = UrlLib(
    encodeUriComponent: string -> string,
    decodeUriComponent: string -> string,
    /** `UrlHelper.getQueryStringParam(name, url)` */
    getQueryStringParam: (string, string) -> string,
    /** `UrlHelper.addOrReplaceQueryStringParam(url, name, value)` */
    addOrReplaceQueryStringParam: (string, string, string) -> string,
    /** `new URL(url)` with its `hash` set to the given value, read back through `href` */
    withHash: (string, string) -> string,
    /** `new URL(url).href` */
    href: string -> string)

  /** The component's properties; an absent `inputValue` is the empty string. */
  datatype Props = Props(
    inputValue: string,
    searchInNewPage: bool,
    pageUrl: string,
    queryPathBehavior: QueryPathBehavior,
    queryStringParameter: string,
    openBehavior: PageOpenBehavior,
    enableQuerySuggestions: bool)

  /** An external effect: the host's `onSearch` callback, `window.open(url, target)`,
      or an assignment to `window.location.href`. */
  datatype Effect = Callback(query: string) | Navigate(url: string, target: string) | Relocate(url: string)

  /** What a submission amounts to: nothing, or committing the text to the
      widget state together with one external effect. */
  datatype Dispatch = Ignore | Commit(effect: Effect)

  /** The window name `window.open` receives. */
  function WindowTarget(behavior: PageOpenBehavior): (target: string)
    ensures target == "_blank" <==> behavior == NewTab
    ensures target == "_self" <==> behavior != NewTab
  {
    if behavior == NewTab then "_blank" else "_self"
  }

  /** The page a new-page search opens: `pageUrl` carrying the URI-encoded query
      text either as its fragment or as the configured query-string parameter. */
  function SearchPageUrl(props: Props, lib: UrlLib, queryText: string): (url: string)
    ensures props.queryPathBehavior == URLFragment ==>
      url == lib.withHash(props.pageUrl, lib.encodeUriComponent(queryText))
    ensures props.queryPathBehavior != URLFragment ==>
      url == lib.addOrReplaceQueryStringParam(lib.href(props.pageUrl), props.queryStringParameter, lib.encodeUriComponent(queryText))
  {
    var encoded := lib.encodeUriComponent(queryText);
    if props.queryPathBehavior == URLFragment then lib.withHash(props.pageUrl, encoded)
    else lib.addOrReplaceQueryStringParam(lib.href(props.pageUrl), props.queryStringParameter, encoded)
  }

  /** The decision `_onSearch(queryText, isReset)` takes. */
  function Decide(props: Props, lib: UrlLib, queryText: string, isReset: bool): (d: Dispatch)
    ensures d.Ignore? <==> queryText == "" && !isReset
    ensures d.Commit? && d.effect.Navigate? <==> props.searchInNewPage && !isReset && queryText != ""
    ensures d.Commit? && d.effect.Navigate? ==>
      d.effect == Navigate(SearchPageUrl(props, lib, queryText), WindowTarget(props.openBehavior))
    ensures d.Commit? && !d.effect.Navigate? ==> d.effect == Callback(queryText)
  {
    if queryText != "" || isReset then
      if props.searchInNewPage && !isReset then
        Commit(Navigate(SearchPageUrl(props, lib, queryText), WindowTarget(props.openBehavior)))
      else
        Commit(Callback(queryText))
    else
      Ignore
  }

  /** A reset always reaches the host, with the text it was given. */
  lemma ResetCallsBack(props: Props, lib: UrlLib, queryText: string)
    ensures Decide(props, lib, queryText, true) == Commit(Callback(queryText))
  {
  }

  /** A new-page search opens the target page built from `pageUrl`: the
      fragment, or the query-string parameter, is the URI-encoded text. */
  lemma NewPageSearch(props: Props, lib: UrlLib, queryText: string)
    requires props.searchInNewPage && queryText != ""
    ensures Decide(props, lib, queryText, false).Commit?
    ensures var e := Decide(props, lib, queryText, false).effect;
      e.Navigate? &&
      (props.queryPathBehavior == URLFragment ==>
        e.url == lib.withHash(props.pageUrl, lib.encodeUriComponent(queryText))) &&
      (props.queryPathBehavior != URLFragment ==>
        e.url == lib.addOrReplaceQueryStringParam(lib.href(props.pageUrl), props.queryStringParameter, lib.encodeUriComponent(queryText))) &&
      (e.target == "_blank" <==> props.openBehavior == NewTab)
  {
  }

  // ---------------------------------------------------------------------------
  // Scope toggle

  const ScopeParam := "scope="
  const RefParam := "ref="
  const ScopedPage := "/ScopedSearch.aspx"
  const SearchPage := "/Search.aspx"

  /** The URL the `ALL` option navigates to; an address holding neither
      `scope=` nor `/ScopedSearch.aspx` is left as it is. */
  function ScopeToAll(url: string): (r: string)
    ensures Absent(url, ScopeParam) && Absent(url, ScopedPage) ==> r == url
  {
    ReplaceFirst(ReplaceFirst(url, ScopeParam, RefParam), ScopedPage, SearchPage)
  }

  /** The URL any other option (`SCOPED`) navigates to; an address holding
      neither `ref=` nor `/Search.aspx` is left as it is. */
  function ScopeToScoped(url: string): (r: string)
    ensures Absent(url, RefParam) && Absent(url, SearchPage) ==> r == url
  {
    ReplaceFirst(ReplaceFirst(url, RefParam, ScopeParam), SearchPage, ScopedPage)
  }

  /** The choice's rewrite: choosing the scope an address is already in (it
      holds no token of the other direction) leaves it unchanged. */
  function ScopeRewrite(key: ScopeKey, url: string): (r: string)
    ensures key == All && Absent(url, ScopeParam) && Absent(url, ScopedPage) ==> r == url
    ensures key == Scoped && Absent(url, RefParam) && Absent(url, SearchPage) ==> r == url
  {
    match key
    case All => ScopeToAll(url)
    case Scoped => ScopeToScoped(url)
  }

  /** None of the four tokens can straddle another, or a copy of itself. */
  lemma ScopeTokensSwap()
    ensures SwapTokens(ScopeParam, RefParam, ScopedPage, SearchPage)
    ensures SwapTokens(RefParam, ScopeParam, SearchPage, ScopedPage)
  {
  }

  /** `ALL` turns the scoped page into the search page and `scope=` into `ref=`. */
  lemma AllOnScopedUrl(site: string, between: string, rest: string)
    requires Absent(site, ScopeParam) && Absent(between, ScopeParam) && Absent(site, ScopedPage)
    ensures ScopeToAll(site + ScopedPage + between + ScopeParam + rest) == site + SearchPage + between + RefParam + rest
  {
    ScopeTokensSwap();
    ChainBefore(site, between, rest, ScopeParam, RefParam, ScopedPage, SearchPage);
  }

  /** `SCOPED` turns the search page into the scoped page and `ref=` into `scope=`. */
  lemma ScopedOnAllUrl(site: string, between: string, rest: string)
    requires Absent(site, RefParam) && Absent(between, RefParam) && Absent(site, SearchPage)
    ensures ScopeToScoped(site + SearchPage + between + RefParam + rest) == site + ScopedPage + between + ScopeParam + rest
  {
    ScopeTokensSwap();
    ChainBefore(site, between, rest, RefParam, ScopeParam, SearchPage, ScopedPage);
  }

  const ExampleSite := "https://contoso.sharepoint.com/sites/hr"

  lemma ExampleUrls()
    ensures ExampleSite + ScopedPage + "?" + ScopeParam + "abc"
         == "https://contoso.sharepoint.com/sites/hr/ScopedSearch.aspx?scope=abc"
    ensures ExampleSite + SearchPage + "?" + RefParam + "abc"
         == "https://contoso.sharepoint.com/sites/hr/Search.aspx?ref=abc"
  {
  }

  lemma ExamplePiecesHoldNoToken()
    ensures Absent(ExampleSite, ScopeParam) && Absent(ExampleSite, ScopedPage)
    ensures Absent(ExampleSite, RefParam) && Absent(ExampleSite, SearchPage)
    ensures Absent("?", ScopeParam) && Absent("?", RefParam)
  {
    AbsentByLastChar(ExampleSite, ScopeParam);
    AbsentByLastChar(ExampleSite, ScopedPage);
    AbsentByLastChar(ExampleSite, RefParam);
    AbsentByLastChar(ExampleSite, SearchPage);
    AbsentByLastChar("?", ScopeParam);
    AbsentByLastChar("?", RefParam);
  }

  /** The example the scope toggle is written for: `ALL` on a scoped results
      page, and `SCOPED` on the unscoped one. */
  lemma ScopeToggleExample()
    ensures ScopeToAll("https://contoso.sharepoint.com/sites/hr/ScopedSearch.aspx?scope=abc")
         == "https://contoso.sharepoint.com/sites/hr/Search.aspx?ref=abc"
    ensures ScopeToScoped("https://contoso.sharepoint.com/sites/hr/Search.aspx?ref=abc")
         == "https://contoso.sharepoint.com/sites/hr/ScopedSearch.aspx?scope=abc"
  {
    ExampleUrls();
    ExamplePiecesHoldNoToken();
    AllOnScopedUrl(ExampleSite, "?", "abc");
    ScopedOnAllUrl(ExampleSite, "?", "abc");
  }

  /** Choosing `SCOPED` after `ALL` restores a scoped URL that holds each of its
      tokens once and none of the other direction's. */
  lemma {:induction false} ScopedUndoesAll(url: string)
    requires OccursOnce(url, ScopeParam) && OccursOnce(url, ScopedPage)
    requires Absent(url, RefParam) && Absent(url, SearchPage)
    ensures ScopeToScoped(ScopeToAll(url)) == url
  {
    ScopeTokensSwap();
    ChainRoundTrip(url, ScopeParam, RefParam, ScopedPage, SearchPage);
  }

  /** Choosing `ALL` after `SCOPED` restores an unscoped URL that holds each of
      its tokens once and none of the other direction's. */
  lemma {:induction false} AllUndoesScoped(url: string)
    requires OccursOnce(url, RefParam) && OccursOnce(url, SearchPage)
    requires Absent(url, ScopeParam) && Absent(url, ScopedPage)
    ensures ScopeToAll(ScopeToScoped(url)) == url
  {
    ScopeTokensSwap();
    ChainRoundTrip(url, RefParam, ScopeParam, SearchPage, ScopedPage);
  }

  // ---------------------------------------------------------------------------
  // Render decisions

  /** What the search box shows: the suggestion-enabled box, which receives the
      `inputValue` property, or the basic box with its text and whether the
      Forward button is there. */
  datatype SearchBoxView = AutoComplete(inputValue: string) | Basic(text: string, forwardButton: bool)

  /** The scope choice group: the option selected at first, the label of the
      `SCOPED` option, and the link back to the source page. */
  datatype ScopeControls = ScopeControls(defaultKey: ScopeKey, scopedLabel: string, sourceLink: string)

  datatype View = View(errorBanner: Option<string>, searchBox: SearchBoxView, scopeControls: Option<ScopeControls>)

  // ---------------------------------------------------------------------------
  // The component

  class SearchBoxContainer {
    var props: Props
    const lib: UrlLib

    /** Read from the page address once, at construction. */
    const sourceUrl: string
    const sourceTitle: string
    const scope: string
    const ref: string

    /** The widget state. */
    var searchInputValue: string
    var errorMessage: Option<string>
    var showClearButton: bool

    /** The external effects issued so far, oldest first. */
    ghost var effects: seq<Effect>

    /** `locationHref` is `window.location.href` when the component is built. */
    constructor (props: Props, lib: UrlLib, locationHref: string)
      ensures this.props == props && this.lib == lib
      ensures sourceUrl == lib.decodeUriComponent(lib.getQueryStringParam("source", locationHref))
      ensures sourceTitle == lib.decodeUriComponent(lib.getQueryStringParam("sourceTitle", locationHref))
      ensures scope == lib.getQueryStringParam("scope", locationHref)
      ensures ref == lib.getQueryStringParam("ref", locationHref)
      ensures props.inputValue != "" ==> searchInputValue == lib.decodeUriComponent(props.inputValue)
      ensures props.inputValue == "" ==> searchInputValue == ""
      ensures showClearButton <==> props.inputValue != ""
      ensures errorMessage == None
      ensures effects == []
    {
      this.props := props;
      this.lib := lib;
      sourceUrl := lib.decodeUriComponent(lib.getQueryStringParam("source", locationHref));
      sourceTitle := lib.decodeUriComponent(lib.getQueryStringParam("sourceTitle", locationHref));
      scope := lib.getQueryStringParam("scope", locationHref);
      ref := lib.getQueryStringParam("ref", locationHref);
      searchInputValue := if props.inputValue != "" then lib.decodeUriComponent(props.inputValue) else "";
      errorMessage := None;
      showClearButton := props.inputValue != "";
      effects := [];
    }

    /** `_onSearch(queryText, isReset)`: an empty query that is not a reset
        changes nothing; anything else is committed to the widget state and
        either opens the search page or reaches the host's callback. */
    method OnSearch(queryText: string, isReset: bool)
      modifies this`searchInputValue, this`showClearButton, this`effects
      ensures queryText == "" && !isReset ==>
        searchInputValue == old(searchInputValue) && showClearButton == old(showClearButton) && effects == old(effects)
      ensures queryText != "" || isReset ==>
        searchInputValue == queryText && showClearButton == !isReset &&
        effects == old(effects) + [Decide(props, lib, queryText, isReset).effect]
    {
      var dispatch := Decide(props, lib, queryText, isReset);
      if dispatch.Commit? {
        searchInputValue, showClearButton := queryText, !isReset;
        effects := effects + [dispatch.effect];
      }
    }

    /** The basic box's search action and its Forward button: submit the text
        currently in the box. */
    method Submit()
      modifies this`searchInputValue, this`showClearButton, this`effects
      ensures searchInputValue == old(searchInputValue)
      ensures old(searchInputValue) == "" ==> showClearButton == old(showClearButton) && effects == old(effects)
      ensures old(searchInputValue) != "" ==>
        showClearButton && effects == old(effects) + [Decide(props, lib, searchInputValue, false).effect]
    {
      OnSearch(searchInputValue, false);
    }

    /** The basic box's clear action, a reset with the empty text: the box
        empties, the clear button goes, and the host is called back with "". */
    method Clear()
      modifies this`searchInputValue, this`showClearButton, this`effects
      ensures searchInputValue == "" && !showClearButton
      ensures effects == old(effects) + [Callback("")]
      ensures Render().searchBox.Basic? ==> !Render().searchBox.forwardButton
    {
      OnSearch("", true);
    }

    /** The basic box's change handler: the typed text, and nothing else. */
    method ChangeText(value: string)
      modifies this`searchInputValue
      ensures searchInputValue == value
    {
      searchInputValue := value;
    }

    /** New properties from the host: the text becomes the decoded new
        `inputValue` on every update, whether or not it changed. */
    method ReceiveProps(next: Props)
      modifies this`props, this`searchInputValue
      ensures props == next
      ensures searchInputValue == lib.decodeUriComponent(next.inputValue)
    {
      searchInputValue := lib.decodeUriComponent(next.inputValue);
      props := next;
    }

    /** The error banner's dismiss action. */
    method DismissError()
      modifies this`errorMessage
      ensures errorMessage == None
    {
      errorMessage := None;
    }

    /** `_onScopeChange`: navigate the page to the rewritten current address
        (`locationHref` is `window.location.href` at the time of the choice). */
    method SelectScope(key: ScopeKey, locationHref: string)
      modifies this`effects
      ensures effects == old(effects) + [Relocate(ScopeRewrite(key, locationHref))]
    {
      effects := effects + [Relocate(ScopeRewrite(key, locationHref))];
    }

    /** The decisions `render` takes. */
    function Render(): (v: View)
      reads this
      ensures v.errorBanner.Some? <==> errorMessage.Some? && errorMessage.value != ""
      ensures v.errorBanner.Some? ==> v.errorBanner == errorMessage
      ensures v.searchBox.AutoComplete? <==> props.enableQuerySuggestions
      ensures v.searchBox.AutoComplete? ==> v.searchBox.inputValue == props.inputValue
      ensures v.searchBox.Basic? ==> v.searchBox.text == searchInputValue
      ensures v.searchBox.Basic? ==> (v.searchBox.forwardButton <==> searchInputValue != "")
      ensures v.scopeControls.Some? <==> ref != "" || scope != ""
      ensures v.scopeControls.Some? ==> (v.scopeControls.value.defaultKey == Scoped <==> scope != "")
      ensures v.scopeControls.Some? ==>
        v.scopeControls.value.scopedLabel == sourceTitle && v.scopeControls.value.sourceLink == sourceUrl
    {
      var banner := if errorMessage.Some? && errorMessage.value != "" then errorMessage else None;
      var box := if props.enableQuerySuggestions then AutoComplete(props.inputValue)
                 else Basic(searchInputValue, searchInputValue != "");
      var controls :=
        if ref != "" || scope != "" then
          Some(ScopeControls(if scope != "" then Scoped else All, sourceTitle, sourceUrl))
        else None;
      View(banner, box, controls)
    }
  }
}

# Search box container — a Dafny model

This project models the core of the search box web part's container component
(`SearchBoxContainer`): the query dispatcher `_onSearch`, the widget state it
keeps (`searchInputValue`, `showClearButton`, `errorMessage`), the other events
that change that state, the scope toggle's rewrite of the page address, and the
decisions `render` takes about what to show.

- `wrappers.dfy` — module `Wrappers`: the `Option` type used where the
  component stores `null`.
- `text_replace.dfy` — module `TextReplace`: `String.prototype.replace` with a
  plain string pattern (only the first occurrence is replaced), specified
  through the first-occurrence search `FirstIndex`, and lemmas about chains of
  two such replacements: where they act, and when a second chain undoes the
  first.
- `search_box_container.dfy` — module `SearchBox`: the configuration, the pure
  dispatch decision `Decide`, the scope rewrites `ScopeToAll`/`ScopeToScoped`
  with their lemmas, and the class `SearchBoxContainer`, whose methods are the
  component's event handlers and whose ghost field `effects` records the
  external effects: `Callback(q)` for the host's `onSearch`,
  `Navigate(url, target)` for `window.open`, `Relocate(url)` for an assignment
  to `window.location.href`.

The library calls whose code is not part of this model — `encodeURIComponent`,
`decodeURIComponent`, `UrlHelper.getQueryStringParam`,
`UrlHelper.addOrReplaceQueryStringParam`, and the browser `URL` object's `hash`
setter and `href` getter — are the function-valued fields of the `UrlLib`
datatype that every operation receives. Nothing is assumed about them; the
contracts only say which of them is applied to what. The page address
(`window.location.href`) is a parameter of the constructor and of `SelectScope`.

A reset reaches the host: the clear action calls `_onSearch('', true)`
(line 63), the new-page branch requires `!isReset` (line 93), so the `else`
branch at lines 111-114 calls `props.onSearch('')`, and `Clear` logs
`Callback("")`.

## Model

| member | source | states |
|---|---|---|
| `TextReplace.FirstIndex` | search-parts/src/webparts/searchBox/components/SearchBoxContainer/SearchBoxContainer.tsx:174-176 | the search `replace` performs: the result is an occurrence with no occurrence before it, and `None` means the pattern occurs nowhere |
| `TextReplace.ReplaceFirst` | search-parts/src/webparts/searchBox/components/SearchBoxContainer/SearchBoxContainer.tsx:174-176 | `replace` with a string pattern: a string without the pattern comes back unchanged; otherwise only the first occurrence is replaced and the text around it is kept |
| `TextReplace.ChainRoundTrip` | search-parts/src/webparts/searchBox/components/SearchBoxContainer/SearchBoxContainer.tsx:169-185 | for tokens that cannot straddle one another, swapping `p1`/`p2` for `r1`/`r2` by two chained replacements and swapping back restores any string holding `p1` and `p2` once each and neither `r1` nor `r2` |
| `SearchBox.WindowTarget` | search-parts/src/webparts/searchBox/components/SearchBoxContainer/SearchBoxContainer.tsx:108 | the window name is `_blank` exactly for the new-tab behaviour and `_self` otherwise |
| `SearchBox.Decide` | search-parts/src/webparts/searchBox/components/SearchBoxContainer/SearchBoxContainer.tsx:84-115 | a submission is ignored exactly when its text is empty and it is not a reset; it navigates exactly when new-page search is on, it is not a reset and the text is non-empty, to the search page URL in the configured window; every other accepted submission calls the host back with the raw text |
| `SearchBox.SearchPageUrl` | search-parts/src/webparts/searchBox/components/SearchBoxContainer/SearchBoxContainer.tsx:94-105 | the new-page target: `pageUrl` with its fragment set to the URI-encoded text in fragment mode, otherwise the `href` of `pageUrl` with the configured query-string parameter added or replaced by the URI-encoded text |
| `SearchBox.ResetCallsBack` | search-parts/src/webparts/searchBox/components/SearchBoxContainer/SearchBoxContainer.tsx:93-115 | a reset never navigates: it reaches the host's callback with its own text |
| `SearchBox.NewPageSearch` | search-parts/src/webparts/searchBox/components/SearchBoxContainer/SearchBoxContainer.tsx:93-109 | a non-empty new-page search opens `pageUrl` with the URI-encoded text as its fragment (fragment mode) or as the configured query-string parameter of its `href` (otherwise), in `_blank` exactly for the new-tab behaviour |
| `SearchBox.ScopeToAll` | search-parts/src/webparts/searchBox/components/SearchBoxContainer/SearchBoxContainer.tsx:172-177 | an address holding neither `scope=` nor `/ScopedSearch.aspx` comes back unchanged from the `ALL` rewrite; what it does to the tokens is stated by `AllOnScopedUrl` and `ScopedUndoesAll` |
| `SearchBox.ScopeToScoped` | search-parts/src/webparts/searchBox/components/SearchBoxContainer/SearchBoxContainer.tsx:178-184 | an address holding neither `ref=` nor `/Search.aspx` comes back unchanged from the `SCOPED` rewrite; what it does to the tokens is stated by `ScopedOnAllUrl` and `AllUndoesScoped` |
| `SearchBox.ScopeRewrite` | search-parts/src/webparts/searchBox/components/SearchBoxContainer/SearchBoxContainer.tsx:172-184 | choosing the scope an address is already in (it holds neither token of the chosen direction) leaves the address unchanged, for `ALL` and for `SCOPED` |
| `SearchBox.AllOnScopedUrl` | search-parts/src/webparts/searchBox/components/SearchBoxContainer/SearchBoxContainer.tsx:172-177 | on an address of the form site + `/ScopedSearch.aspx` + … + `scope=` + …, `ALL` yields site + `/Search.aspx` + … + `ref=` + … with everything else in place |
| `SearchBox.ScopedOnAllUrl` | search-parts/src/webparts/searchBox/components/SearchBoxContainer/SearchBoxContainer.tsx:178-184 | the mirror image: `SCOPED` turns `/Search.aspx` … `ref=` into `/ScopedSearch.aspx` … `scope=` |
| `SearchBox.ScopeToggleExample` | search-parts/src/webparts/searchBox/components/SearchBoxContainer/SearchBoxContainer.tsx:169-185 | `.../ScopedSearch.aspx?scope=abc` becomes `.../Search.aspx?ref=abc` under `ALL`, and back under `SCOPED` |
| `SearchBox.ScopedUndoesAll` | search-parts/src/webparts/searchBox/components/SearchBoxContainer/SearchBoxContainer.tsx:169-185 | choosing `SCOPED` after `ALL` restores an address holding `scope=` and `/ScopedSearch.aspx` once each and no `ref=` or `/Search.aspx` |
| `SearchBox.AllUndoesScoped` | search-parts/src/webparts/searchBox/components/SearchBoxContainer/SearchBoxContainer.tsx:169-185 | choosing `ALL` after `SCOPED` restores an address holding `ref=` and `/Search.aspx` once each and no `scope=` or `/ScopedSearch.aspx` |
| `SearchBox.SearchBoxContainer.constructor` | search-parts/src/webparts/searchBox/components/SearchBoxContainer/SearchBoxContainer.tsx:21-37 | `source` and `sourceTitle` are read from the address and decoded, `scope` and `ref` are kept raw; the text is the decoded `inputValue` when that is non-empty and "" otherwise; the clear button shows exactly when `inputValue` is non-empty; no error; no effect yet |
| `SearchBox.SearchBoxContainer.OnSearch` | search-parts/src/webparts/searchBox/components/SearchBoxContainer/SearchBoxContainer.tsx:81-117 | an empty non-reset submission changes no field and logs nothing; any other sets the text to the query and the clear button to `!isReset`, logs exactly the one effect `Decide` chooses, and leaves `errorMessage` alone |
| `SearchBox.SearchBoxContainer.Submit` | search-parts/src/webparts/searchBox/components/SearchBoxContainer/SearchBoxContainer.tsx:59-71 | submitting the box's own text keeps the text; with empty text nothing happens, otherwise the clear button shows and one effect is logged |
| `SearchBox.SearchBoxContainer.Clear` | search-parts/src/webparts/searchBox/components/SearchBoxContainer/SearchBoxContainer.tsx:63 | clearing empties the text, hides the clear button and the Forward button, and logs `Callback("")` |
| `SearchBox.SearchBoxContainer.ChangeText` | search-parts/src/webparts/searchBox/components/SearchBoxContainer/SearchBoxContainer.tsx:61 | typing sets the text and changes no other field |
| `SearchBox.SearchBoxContainer.ReceiveProps` | search-parts/src/webparts/searchBox/components/SearchBoxContainer/SearchBoxContainer.tsx:120-124 | every property update sets the text to the decoded new `inputValue`, whether or not it changed; the clear button, the error and the log stay as they were |
| `SearchBox.SearchBoxContainer.DismissError` | search-parts/src/webparts/searchBox/components/SearchBoxContainer/SearchBoxContainer.tsx:133-137 | dismissing clears the error and changes no other field |
| `SearchBox.SearchBoxContainer.SelectScope` | search-parts/src/webparts/searchBox/components/SearchBoxContainer/SearchBoxContainer.tsx:169-187 | choosing a scope logs one relocation to the current address rewritten for that choice, and changes no widget state |
| `SearchBox.SearchBoxContainer.Render` | search-parts/src/webparts/searchBox/components/SearchBoxContainer/SearchBoxContainer.tsx:126-167 | the error banner shows exactly for a non-empty error; the basic box shows the text and has a Forward button exactly when the text is non-empty; the scope controls show exactly when `ref` or `scope` is non-empty, select `SCOPED` first exactly when `scope` is non-empty, and label and link the source page |

## Left out

- Presentation: the JSX markup, styles, localised strings, the theme and the Fabric UI controls. `Render` keeps only the decisions the markup depends on.
- `SearchBoxAutoComplete`: it is outside this model; its only contact with the container is a call of `_onSearch` with the final query, which is `OnSearch`.
- The library functions in `UrlLib` are taken as given: their results, and the `URIError` that decoding malformed text raises or the `TypeError` that `new URL` raises on a malformed `pageUrl`, are not modelled.
- An absent `inputValue` is the empty string; the string `"undefined"` that decoding an absent value produces on a property update is not modelled.
- `window.open` and the assignment to `window.location.href` are entries in the ghost log, not navigation; what the browser does next (the page unloading, the widget being rebuilt) is not modelled.
- React's `setState` batching and the `async` of `_onSearch` (which awaits nothing): state changes are immediate assignments. React installs the new properties after `UNSAFE_componentWillReceiveProps`; `ReceiveProps` does both.
- `replace` interprets `$` sequences in its replacement string; the four replacement strings of the scope toggle contain none, so `ReplaceFirst` inserts its replacement literally.
- The scope choice's `onChange` receives any option key and treats every key other than `ALL` as `SCOPED`; the choice group offers exactly these two, so `ScopeKey` has two values.
- Strings are sequences of `char`; JavaScript's UTF-16 code units are not distinguished from characters.
- Nothing in the component writes `errorMessage`; a collaborator setting it is not modelled, only its display and dismissal.

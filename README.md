# pytube `Channel`: page parsing and listing state

This project models the part of pytube's `Channel` class
(`pytube/contrib/channel.py`) that turns a YouTube channel page into a list
of watch paths, and proves properties of the model in Dafny. Four parts are
covered:

- **Sub-page URLs.** The constructor derives the channel URL and the
  `/videos`, `/shorts`, `/playlists`, `/community`, `/channels` and `/about`
  URLs from the channel path.
- **Listing state.** The page the listing starts from (`_html_page`, which the
  `videos` and `shorts` properties switch) and the visitor data kept between
  requests (`_visitor_data`).
- **The continuation request.** `_build_continuation_url` builds the POST
  request for the next page. Its URL, headers and JSON body carry the
  continuation token and the stored visitor data.
- **The extractor.** `_extract_videos` works in four steps on a decoded page:
  - It finds the video list among four page shapes, in a fixed order: the
    videos tab, the shorts tab, the older continuation response and the
    current continuation response.
  - It stores the visitor data when the page is an initial page.
  - It takes a continuation marker off the end of the list.
  - It turns the entries into `/watch?v=` paths and drops duplicates while
    keeping order. This is done by a standard loop, then, if any entry lacks
    a video id, a fallback loop over the last eleven characters of each
    entity id.

The modules follow the program's structure:

- `JsonTree` holds decoded JSON values and Python's subscript operator on
  them. Each step reports what Python would do: the value found, a
  KeyError/IndexError (`Missing`) or a TypeError (`Mistyped`). This matters
  because the marker check catches only the first two.
- `VideoExtraction` holds the URLs, the request format, the path constants
  and the extractor as pure functions. `Extract` is the specification of one
  call.
- `ChannelState` holds the `Channel` class. Its constructor and the
  `Videos`/`Shorts` methods update fields in place. `ExtractVideos` and its
  loops are imperative and are proved equal to `Extract`.
- `ExtractionFacts` holds lemmas about what the extractor does on concrete
  kinds of pages and lists.
- `Helpers` holds order-preserving de-duplication (`uniqueify`), specified
  by its contract.
- `Wrappers` holds `Option` and `Result`.

The exceptions that leave `_extract_videos` are modelled as a `Failure`
value:

- `MarkerTypeError` is the TypeError the marker check does not catch.
- `FallbackFailedAt(i)` is the error of the fallback loop at entry `i`.

## Model

| member | source | states |
|---|---|---|
| ChannelState.Channel.constructor | pytube/contrib/channel.py:24-41 | The channel URL is `https://www.youtube.com` followed by the channel path. Each sub-page URL is the channel URL followed by its fixed suffix. The listing starts from the videos URL, and the visitor data starts as None. |
| VideoExtraction.SubPageUrlRoundTrip | pytube/contrib/channel.py:26-33 | The channel path and the sub-page kind can both be read back from a sub-page URL, so each URL is exactly host, path and suffix. |
| VideoExtraction.SubPageUrlsDistinct | pytube/contrib/channel.py:28-33 | The six sub-page URLs of one channel are pairwise different. |
| ChannelState.Channel.Videos | pytube/contrib/channel.py:261 | Afterwards the page to fetch is the videos URL. Only that field changes, and the URL invariant is kept. |
| ChannelState.Channel.Shorts | pytube/contrib/channel.py:270 | Afterwards the page to fetch is the shorts URL. Only that field changes, and the URL invariant is kept. |
| ChannelState.Channel.BuildContinuationUrl | pytube/contrib/channel.py:140-171 | The URL is the browse endpoint followed by the API key. The two headers are client name `1` and the fixed client version. Reading the body gives back the token and the stored visitor data. The body's client version equals the header's, and the body's client name is `WEB`. The body has exactly the keys `continuation` and `context`. The context has only `client`, and the client has exactly `clientName`, `visitorData` and `clientVersion`. |
| ExtractionFacts.VideosTabWins | pytube/contrib/channel.py:187-205 | On an initial page whose second tab holds a grid, whatever else that tab holds, the list is that grid and the page's visitor data is stored. |
| ExtractionFacts.ShortsTabWhenVideosTabAbsent | pytube/contrib/channel.py:194-205 | When the second tab has no grid and the third tab holds one, whatever else it holds, the list is the third tab's grid. |
| ExtractionFacts.ShortsTabOnlyAsFallback | pytube/contrib/channel.py:188-198 | Whenever the second-tab path succeeds, the third tab is not consulted. This reads `TabGrid` one step; the evidence on built pages is VideosTabWins and ShortsTabWhenVideosTabAbsent. |
| ExtractionFacts.VisitorDataOnlyFromInitialPage | pytube/contrib/channel.py:199-205 | Visitor data is stored exactly when a tab grid and the visitor data are both found, and the stored value is the page's visitor data. This reads `Extract` one step; VideosTabWins and MarkerErrorAfterVisitorData show it on built pages. |
| ExtractionFacts.MissingVisitorDataFallsThrough | pytube/contrib/channel.py:187-221 | Without visitor data the initial-page result is abandoned, the page is read as a continuation response, and nothing is stored. This reads `Locate` one step; InitialPageWithoutVisitorDataIsEmpty shows it on built pages. |
| ExtractionFacts.InitialPageWithoutVisitorDataIsEmpty | pytube/contrib/channel.py:187-224 | An initial page without visitor data yields an empty list and no token, whatever its tabs hold. |
| ExtractionFacts.LegacyResponseLocated | pytube/contrib/channel.py:206-212 | A response of the form `[_, {"response": ...}]` yields its `continuationItems` and no visitor data. |
| ExtractionFacts.FlatResponseLocated | pytube/contrib/channel.py:213-221 | A response of the current flat form yields its `continuationItems` and no visitor data. |
| ExtractionFacts.ContinuationShapesAgree | pytube/contrib/channel.py:206-221 | Both response forms carrying the same list give the same result, with no visitor data. |
| ExtractionFacts.LegacyShapeFirst | pytube/contrib/channel.py:206-221 | On a continuation page where the older form matches, its list is the one used. This reads the cascade's definition one step; it is not independent evidence. |
| ExtractionFacts.ContinuationShapesExclusive | pytube/contrib/channel.py:206-221 | No page matches both continuation forms. The older one needs a list or string at the top, the current one a dict. So the order in which the two are tried cannot be observed. |
| ExtractionFacts.NoShapeGivesEmptyResult | pytube/contrib/channel.py:222-224 | When all four shapes fail, the result is an empty list, no token, and no visitor-data update. This reads `Extract` one step; EmptyObjectGivesEmptyResult shows it on a built page. |
| ExtractionFacts.EmptyObjectGivesEmptyResult | pytube/contrib/channel.py:222-224 | `{}` matches no shape. |
| ExtractionFacts.MarkerErrorAfterVisitorData | pytube/contrib/channel.py:199-233 | When the second tab's grid, whatever else the tab holds, ends in an entry that is not a dict, the marker check raises TypeError. The visitor data has already been stored by then. |
| VideoExtraction.ListTokenIsLastEntryToken | pytube/contrib/channel.py:227-229 | `videos[-1][...]` is the token lookup on the last entry of a non-empty list. It is a TypeError on a non-empty string, a number, a boolean or null, and a KeyError/IndexError on an empty list, an empty string or a dict. |
| VideoExtraction.TakeContinuation | pytube/contrib/channel.py:226-233 | The result is an error exactly when the check raises TypeError. With a marker, the list loses its last entry and that entry's token is returned. Otherwise the list is kept whole and the token is None. |
| ExtractionFacts.MarkerDropped | pytube/contrib/channel.py:226-230 | A trailing marker is dropped, its token returned, and the remaining entries converted. |
| ExtractionFacts.NoMarkerKeepsList | pytube/contrib/channel.py:231-233 | Without a marker (an empty list included) the token is None and every entry is converted. |
| VideoExtraction.Render | pytube/contrib/channel.py:240-242 | Each path is `/watch?v=` followed by `str` of the id, in order. Rendering fails exactly when some id is a list or a dict. These clauses define the f-string step; the evidence on entries is StandardEntries and FallbackEntries. |
| JsonTree.PyIndex | pytube/contrib/channel.py:227 | A Python index is valid exactly when it lies in `-len .. len-1`. It then denotes `i` or `len + i`. |
| JsonTree.LastN | pytube/contrib/channel.py:251 | `s[-11:]` is the last eleven elements, or the whole of `s` when it is shorter. |
| JsonTree.Decimal | pytube/contrib/channel.py:242 | `str(n)` of an integer id is a non-empty string of decimal digits. Those digits denote `n`, and they have no leading zero unless `n` is zero. |
| VideoExtraction.FirstNonStandard | pytube/contrib/channel.py:237-243 | The standard loop stops at the first entry without a video id. Every earlier entry has one. |
| VideoExtraction.FirstNonShorts | pytube/contrib/channel.py:244-252 | The fallback loop raises at the first entry without an entity id. Every earlier entry has one. |
| VideoExtraction.StringsHaveNeitherShape | pytube/contrib/channel.py:239-251 | A string, such as a dict key or a character, has neither entry shape. |
| ChannelState.KeysHaveNoPaths | pytube/contrib/channel.py:239-251 | Iterating a dict visits its keys, so an empty dict gives no paths. A non-empty dict fails in the fallback loop at the first key visited, whatever the order. |
| ExtractionFacts.StandardEntries | pytube/contrib/channel.py:237-243 | When every entry has a string video id, the paths are `/watch?v=` plus each id, in order. |
| ExtractionFacts.ShortsIdIsLastEleven | pytube/contrib/channel.py:249-251 | A shorts id is the last eleven characters of the entity id, or the whole id when it is shorter. |
| ExtractionFacts.FallbackEntries | pytube/contrib/channel.py:236-252 | Let entry `k` be the first without a video id. The paths are then the standard ids of entries `0..k-1`, followed by the last eleven characters of every entry's entity id. |
| ExtractionFacts.FallbackFailure | pytube/contrib/channel.py:244-252 | When some entry lacks a video id and entry `f` is the first without an entity id, the call fails at `f`. |
| VideoExtraction.PathsAreWatchPaths | pytube/contrib/channel.py:235-252 | Every path produced starts with `/watch?v=`. |
| VideoExtraction.BatchOf | pytube/contrib/channel.py:226-253 | The returned paths have no duplicates, and each is a watch path. |
| VideoExtraction.Extract | pytube/contrib/channel.py:175-253 | The returned paths have no duplicates and are watch paths. Visitor data is reported only when the page was located, and it is the located page's visitor data. |
| ChannelState.Channel.ExtractVideos | pytube/contrib/channel.py:175-253 | The result is `Extract` of the page. It depends on the page alone, so the same page always gives the same list and token. The stored visitor data is overwritten exactly when `Extract` reports some, and is otherwise unchanged. |
| ChannelState.VideosBatch | pytube/contrib/channel.py:226-253 | The marker step, the two loops and the de-duplication give `BatchOf` of the list. |
| ChannelState.Visited | pytube/contrib/channel.py:239 | What `for x in videos` visits. For a list, its entries. For a dict, its keys as strings: each key exactly once, and nothing else. For the empty string, nothing. Running the loops on what is visited gives `PathsOf` of the value. |
| ChannelState.CollectPaths | pytube/contrib/channel.py:236-252 | Running the two loops gives `ListPaths` of the entries. |
| ChannelState.StandardLoop | pytube/contrib/channel.py:237-243 | The loop stops at the first entry without a video id. What it has appended are the rendered ids of the entries before that one. |
| ChannelState.FallbackLoop | pytube/contrib/channel.py:244-252 | The loop raises exactly at the first entry without an entity id. Otherwise it appends the rendered shorts ids of all entries after the paths already produced. |
| ChannelState.AppendWatchPath | pytube/contrib/channel.py:240-242 | One f-string append extends the rendered paths by the new id. |
| VideoExtraction.RenderSnoc | pytube/contrib/channel.py:240-242 | Rendering one more id appends one path, or fails. |
| JsonTree.Subscript | pytube/contrib/channel.py:190-192 | One Python subscript. It raises TypeError exactly when the value is neither a dict nor, for an integer index, a list or a string. On a dict a key is found exactly when it is present; on a list or string an index is found exactly when it is in range; indexing a string gives a one-character string. |
| JsonTree.Follow | pytube/contrib/channel.py:190-192 | A chain of subscripts. The empty chain gives the value itself; a non-empty chain on null, a boolean or a number is a TypeError, and so is a chain that starts with a key on anything but a dict. |
| JsonTree.FollowAppend | pytube/contrib/channel.py:190-192 | Following a path in two parts is following the first part and then the second from where it ended, and the first failure decides. |
| JsonTree.Lookup | pytube/contrib/channel.py:187-224 | A path inside a `try` that catches KeyError, IndexError and TypeError: it gives a value exactly when every subscript succeeds. This defines the `try`; LookupAppend is its own law. |
| JsonTree.LookupAppend | pytube/contrib/channel.py:187-224 | Looking up `p + q` is looking up `p` and then `q` from the value found, and fails when either part fails. |
| JsonTree.PyStr | pytube/contrib/channel.py:242 | What `str` writes inside the f-string. It fails only for lists and dicts (their `repr` is not modelled); a string is written as is; an integer is written as its decimal digits, with a leading `-` exactly when it is negative. |
| VideoExtraction.TabGrid | pytube/contrib/channel.py:188-198 | The grid is found exactly when the `tabs[1]` path or the `tabs[2]` path succeeds. When the `tabs[1]` path succeeds its value is used; otherwise that of `tabs[2]`. This is the inner `try` itself; the evidence on pages is VideosTabWins and ShortsTabWhenVideosTabAbsent. |
| VideoExtraction.LocateInContinuation | pytube/contrib/channel.py:206-224 | A continuation response is recognised exactly when the older or the current path succeeds. The list is the value of one of them, and no visitor data comes with it. |
| VideoExtraction.Locate | pytube/contrib/channel.py:187-224 | A list is found exactly when a tab grid and the visitor data are both found, or a continuation shape matches. Visitor data comes only with a tab grid, and is the page's. Without visitor data, the result is that of the continuation shapes. This is the outer `try` itself; the evidence on pages is VideosTabWins, ShortsTabWhenVideosTabAbsent, LegacyResponseLocated and FlatResponseLocated. |
| VideoExtraction.HasMarker | pytube/contrib/channel.py:226-230 | A list whose last entry yields a token. That entry is a dict, and the check does not raise TypeError on such a list. |
| VideoExtraction.MarkerRaisesTypeError | pytube/contrib/channel.py:226-233 | The marker lookup raises the uncaught TypeError. It does whenever the last entry of a non-empty list is not a dict, and never on a dict, an empty list or an empty string. |
| VideoExtraction.StandardId | pytube/contrib/channel.py:242 | An entry has a video id only when it is a dict. |
| VideoExtraction.ShortsId | pytube/contrib/channel.py:251 | An entry has an entity id only when it is a dict. |
| VideoExtraction.RawIds | pytube/contrib/channel.py:236-252 | The id step fails exactly when the standard loop stops early and some entry also lacks an entity id. |
| VideoExtraction.RawIdsOutcome | pytube/contrib/channel.py:236-252 | The failure names the first entry without an entity id. Otherwise there is one id per entry, plus one per entry before `k` when the standard loop stopped at `k`. |
| VideoExtraction.PathsOf | pytube/contrib/channel.py:236-252 | What the two loops give for each value that reaches them. A list gives ListPaths of its entries. Only a list yields paths: an empty dict or the empty string gives none, and a non-empty dict fails in the fallback loop at its first key. The loops never raise the marker error. |
| VideoExtraction.ListPaths | pytube/contrib/channel.py:236-252 | The paths exist only when the ids do, one path per id. An id failure is passed on; any other failure is an id that cannot be written. |
| Helpers.Uniqueify | pytube/contrib/channel.py:253 | `uniqueify` keeps each path once, at its first occurrence, in order of first occurrence, and keeps exactly the paths it was given. |
| Helpers.UniqueifyIsTheOnlyOne | pytube/contrib/channel.py:253 | Those three properties determine the result completely. |
| Helpers.UniqueifyOfDistinct | pytube/contrib/channel.py:253 | A list without duplicates is returned unchanged. |
| Helpers.UniqueifyIdempotent | pytube/contrib/channel.py:253 | De-duplicating twice is de-duplicating once. |

## Left out

- Parsing of the JSON text (`json.loads`, line 184) is not modelled. The model takes the decoded value.
- JSON floating-point numbers are not modelled.
- Python strings are modelled as sequences of characters. There is no encoding.
- `request.get` and the cached HTML properties `html`, `playlists_html`, `community_html`, `featured_channels_html` and `about_html` (lines 73-138) are network I/O and are left out. So are the fields that cache them (lines 36-39).
- `channel_name`, `channel_id` and `vanity_url` (lines 43-71) are left out. They read `initial_data` of the `Playlist` base class, which is not part of this model.
- `extract.channel_name` (line 24) is not part of this model. The constructor takes the channel path it would return.
- The `Playlist` base class, its `proxies` argument and its `yt_api_key` are not part of this model. The API key is a parameter of `BuildContinuationUrl`.
- `videos_generator`, `DeferredGeneratorList` and the `YouTube` objects built from the watch paths are left out. The properties `videos` and `shorts` are modelled only through their assignment to `_html_page`.
- The log message on line 223 is left out.
- `uniqueify` is defined in `pytube.helpers`, which is not part of this model. `Helpers.Uniqueify` is specified by its observable contract instead.
- Exceptions are modelled as `Failure` values in a `Result`, not as control transfer.
- JsonTree.PyStr: Python's `str` of a list or dict is its `repr`, which is not modelled; the model gives None for those values.
- VideoExtraction.Render: a video id that is a list or a dict is formatted by Python with its `repr`. The model reports `IdNotRendered` for such an id instead of a path.
- ChannelState.Channel.ExtractVideos: through `Render`, it also gives `IdNotRendered` where Python would format a list or dict id.
- VideoExtraction.TakeContinuation: a continuation token that is JSON `null` is returned as `Some(Null)`. In Python it reads the same as "no token".
- ChannelState.Visited: the order in which a dict's keys are visited is left open, as a choice made by the loop. The outcome does not depend on it, because the first key visited already fails.
- The URL fields are modelled as constants. The source could reassign them, but nothing in the modelled code does.

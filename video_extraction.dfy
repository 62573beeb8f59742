/**
 * The pure side of a channel's video listing: the sub-page URLs, the request
 * for the next page, and the classifier that finds the video list in a
 * decoded page, takes the continuation token off its end and turns the
 * remaining entries into watch paths.
 */
module VideoExtraction {
  import opened Wrappers
  import opened JsonTree
  import opened Helpers

  // ---------------------------------------------------------------------------
  // Sub-page URLs

  const Host := "https://www.youtube.com"

  /** The six pages of a channel that have their own URL. */
  datatype SubPage = VideosPage | ShortsPage | PlaylistsPage | CommunityPage | FeaturedChannelsPage | AboutPage

  function Suffix(p: SubPage): string {
    match p
    case VideosPage => "/videos"
    case ShortsPage => "/shorts"
    case PlaylistsPage => "/playlists"
    case CommunityPage => "/community"
    case FeaturedChannelsPage => "/channels"
    case AboutPage => "/about"
  }

  /** The channel's own URL, from the path that identifies it (for example `/c/name`). */
  function ChannelUrl(channelUri: string): string {
    Host + channelUri
  }

  function SubPageUrl(channelUri: string, p: SubPage): string {
    ChannelUrl(channelUri) + Suffix(p)
  }

  /** Which sub-page of the channel `channelUri` the URL names, if any. */
  function SubPageOf(url: string, channelUri: string): Option<SubPage> {
    var base := ChannelUrl(channelUri);
    if |url| < |base| || url[..|base|] != base then None
    else
      var rest := url[|base|..];
      if rest == "/videos" then Some(VideosPage)
      else if rest == "/shorts" then Some(ShortsPage)
      else if rest == "/playlists" then Some(PlaylistsPage)
      else if rest == "/community" then Some(CommunityPage)
      else if rest == "/channels" then Some(FeaturedChannelsPage)
      else if rest == "/about" then Some(AboutPage)
      else None
  }

  /** The channel path inside a sub-page URL of kind `p`, if the URL has that form. */
  function ChannelUriOf(url: string, p: SubPage): Option<string> {
    var suffix := Suffix(p);
    if |url| < |Host| + |suffix| || url[..|Host|] != Host || url[|url| - |suffix|..] != suffix then None
    else Some(url[|Host|..|url| - |suffix|])
  }

  /** A sub-page URL gives back both the channel path and the page it was built from. */
  lemma SubPageUrlRoundTrip(channelUri: string, p: SubPage)
    ensures ChannelUriOf(SubPageUrl(channelUri, p), p) == Some(channelUri)
    ensures SubPageOf(SubPageUrl(channelUri, p), channelUri) == Some(p)
  {
    var url := SubPageUrl(channelUri, p);
    var base := ChannelUrl(channelUri);
    assert url[..|base|] == base && url[|base|..] == Suffix(p);
    assert url[..|Host|] == Host;
    assert url[|url| - |Suffix(p)|..] == Suffix(p);
    assert url[|Host|..|url| - |Suffix(p)|] == channelUri;
  }

  /** The six URLs of one channel are pairwise different. */
  lemma SubPageUrlsDistinct(channelUri: string, p: SubPage, q: SubPage)
    requires p != q
    ensures SubPageUrl(channelUri, p) != SubPageUrl(channelUri, q)
  {
    SubPageUrlRoundTrip(channelUri, p);
    SubPageUrlRoundTrip(channelUri, q);
  }

  // ---------------------------------------------------------------------------
  // The request for the next page

  const BrowseEndpoint := "https://www.youtube.com/youtubei/v1/browse?key="
  const ClientNameHeader := "X-YouTube-Client-Name"
  const ClientVersionHeader := "X-YouTube-Client-Version"
  const ClientVersion := "2.20200720.00.02"

  /** A POST request: the URL, its headers and its JSON body. */
  datatype Request = Request(url: string, headers: map<string, string>, body: Json)

  /** Where the body carries the token, the visitor data and the client version. */
  const ContinuationInBody: seq<Step> := [Key("continuation")]
  const VisitorDataInBody: seq<Step> := [Key("context"), Key("client"), Key("visitorData")]
  const ClientVersionInBody: seq<Step> := [Key("context"), Key("client"), Key("clientVersion")]

  // ---------------------------------------------------------------------------
  // Where a page keeps its video list

  /** The grid of the channel's second tab, `tabs[1]`: regular videos. */
  const VideosTabPath: seq<Step> :=
    [Key("contents"), Key("twoColumnBrowseResultsRenderer"), Key("tabs"), Index(1),
     Key("tabRenderer"), Key("content"), Key("richGridRenderer"), Key("contents")]

  /** The grid of the channel's third tab, `tabs[2]`: shorts. */
  const ShortsTabPath: seq<Step> :=
    [Key("contents"), Key("twoColumnBrowseResultsRenderer"), Key("tabs"), Index(2),
     Key("tabRenderer"), Key("content"), Key("richGridRenderer"), Key("contents")]

  /** The session token of an initial page. */
  const VisitorDataPath: seq<Step> :=
    [Key("responseContext"), Key("webResponseContextExtensionData"), Key("ytConfigData"), Key("visitorData")]

  /** A continuation response of the older form `[_, {"response": ...}]`. */
  const LegacyContinuationPath: seq<Step> :=
    [Index(1), Key("response"), Key("onResponseReceivedActions"), Index(0),
     Key("appendContinuationItemsAction"), Key("continuationItems")]

  /** A continuation response of the current form, a plain object. */
  const ContinuationPath: seq<Step> :=
    [Key("onResponseReceivedActions"), Index(0), Key("appendContinuationItemsAction"), Key("continuationItems")]

  /** The token inside a continuation marker entry. */
  const MarkerTokenPath: seq<Step> :=
    [Key("continuationItemRenderer"), Key("continuationEndpoint"), Key("continuationCommand"), Key("token")]

  /** The same token looked up from the list: `videos[-1][...]`. */
  const ListTokenPath: seq<Step> := [Index(-1)] + MarkerTokenPath

  /** The id of a regular video entry. */
  const VideoIdPath: seq<Step> :=
    [Key("richItemRenderer"), Key("content"), Key("videoRenderer"), Key("videoId")]

  /** The entity id of a shorts entry, whose last eleven characters are the video id. */
  const EntityIdPath: seq<Step> :=
    [Key("richItemRenderer"), Key("content"), Key("shortsLockupViewModel"), Key("entityId")]

  const ShortsIdLength := 11

  const WatchPrefix := "/watch?v="

  /** The list an initial page shows: the videos tab, or the shorts tab when the videos tab is absent. */
  function TabGrid(page: Json): (r: Option<Json>)
    ensures r.Some? <==> Lookup(page, VideosTabPath).Some? || Lookup(page, ShortsTabPath).Some?
    ensures Lookup(page, VideosTabPath).Some? ==> r == Lookup(page, VideosTabPath)
    ensures Lookup(page, VideosTabPath).None? ==> r == Lookup(page, ShortsTabPath)
  {
    var videos := Lookup(page, VideosTabPath);
    if videos.Some? then videos else Lookup(page, ShortsTabPath)
  }

  /** The list found in a page, and the visitor data to store when the page is an initial page. */
  datatype Located = Located(videos: Json, visitorData: Option<Json>)

  /** The two continuation-response shapes, the older one first. */
  function LocateInContinuation(page: Json): (r: Option<Located>)
    ensures r.Some? <==> Lookup(page, LegacyContinuationPath).Some? || Lookup(page, ContinuationPath).Some?
    ensures r.Some? ==> r.value.visitorData.None?
    ensures r.Some? ==> Some(r.value.videos) == Lookup(page, LegacyContinuationPath) || Some(r.value.videos) == Lookup(page, ContinuationPath)
  {
    var legacy := Lookup(page, LegacyContinuationPath);
    if legacy.Some? then Some(Located(legacy.value, None))
    else
      var flat := Lookup(page, ContinuationPath);
      if flat.Some? then Some(Located(flat.value, None))
      else None
  }

  /**
   * The four shapes in order. An initial page counts only when its visitor
   * data is present too; otherwise the page is tried as a continuation
   * response.
   */
  function Locate(page: Json): (r: Option<Located>)
    ensures r.Some? <==> (TabGrid(page).Some? && Lookup(page, VisitorDataPath).Some?) || LocateInContinuation(page).Some?
    ensures r.Some? && r.value.visitorData.Some? ==>
      Some(r.value.videos) == TabGrid(page) && r.value.visitorData == Lookup(page, VisitorDataPath)
    ensures r.Some? && r.value.visitorData.None? ==> r == LocateInContinuation(page)
  {
    var grid := TabGrid(page);
    var visitor := Lookup(page, VisitorDataPath);
    if grid.Some? && visitor.Some? then Some(Located(grid.value, visitor))
    else LocateInContinuation(page)
  }

  // ---------------------------------------------------------------------------
  // The continuation marker

  /** The exceptions that leave the extractor, and what the model does not render. */
  datatype Failure =
    | MarkerTypeError             // the marker check subscripts a value that is not a dict or list
    | FallbackFailedAt(index: nat) // the shorts lookup fails for this entry, in the second loop
    | IdNotRendered               // an id that is a list or dict, whose Python repr is not modelled

  /** The list with its marker removed, and the marker's token. */
  datatype Trimmed = Trimmed(videos: Json, continuation: Option<Json>)

  /** The last entry of a non-empty list carries a continuation token. */
  predicate HasMarker(videos: Json): (b: bool)
    ensures b ==> videos.Array? && |videos.items| > 0 && videos.items[|videos.items| - 1].Object?
    ensures b ==> !MarkerRaisesTypeError(videos)
  {
    videos.Array? && |videos.items| > 0 && Follow(videos.items[|videos.items| - 1], MarkerTokenPath).Found?
  }

  /**
   * The marker check raises TypeError: `videos[-1]` of a number, boolean or
   * null, a subscript by key of the last character of a non-empty string, or
   * a key lookup on a non-dict value on the way to the last entry's token.
   */
  predicate MarkerRaisesTypeError(videos: Json): (b: bool)
    ensures videos.Array? && |videos.items| > 0 && !videos.items[|videos.items| - 1].Object? ==> b
    ensures videos.Object? || videos == Array([]) || videos == Str([]) ==> !b
  {
    match videos
    case Array(items) => |items| > 0 && Follow(items[|items| - 1], MarkerTokenPath).Mistyped?
    case Str(s) => |s| > 0
    case Object(_) => false
    case _ => true
  }

  /** A key lookup on a one-character string is a TypeError. */
  lemma MarkerOnCharacter(c: char)
    ensures Follow(Str([c]), MarkerTokenPath) == Mistyped
  {
    assert MarkerTokenPath[0] == Key("continuationItemRenderer");
  }

  /** `videos[-1][...]` is the marker lookup on the last entry. */
  lemma ListTokenIsLastEntryToken(videos: Json)
    ensures videos.Array? && |videos.items| > 0 ==>
      Follow(videos, ListTokenPath) == Follow(videos.items[|videos.items| - 1], MarkerTokenPath)
    ensures videos.Str? && |videos.s| > 0 ==> Follow(videos, ListTokenPath) == Mistyped
    ensures (videos.Array? && |videos.items| == 0) || (videos.Str? && |videos.s| == 0) || videos.Object? ==>
      Follow(videos, ListTokenPath) == Missing
    ensures videos.Null? || videos.Bool? || videos.Int? ==> Follow(videos, ListTokenPath) == Mistyped
  {
    FollowAppend(videos, [Index(-1)], MarkerTokenPath);
    assert [Index(-1)][1..] == [];
    if videos.Str? && |videos.s| > 0 {
      MarkerOnCharacter(videos.s[|videos.s| - 1]);
    }
  }

  /**
   * Lines 226-233: take the token off the end of the list. Only KeyError and
   * IndexError are caught there, so a TypeError on the way is an error.
   */
  function TakeContinuation(videos: Json): (r: Result<Trimmed, Failure>)
    ensures r.Err? <==> MarkerRaisesTypeError(videos)
    ensures r.Err? ==> r.error == MarkerTypeError
    ensures r.Ok? && HasMarker(videos) ==>
      var n := |videos.items|;
      r.value == Trimmed(Array(videos.items[..n - 1]), Some(Follow(videos.items[n - 1], MarkerTokenPath).value))
    ensures r.Ok? && !HasMarker(videos) ==> r.value == Trimmed(videos, None)
  {
    ListTokenIsLastEntryToken(videos);
    match Follow(videos, ListTokenPath)
    case Found(token) =>
      // Only the last entry of a non-empty list can hold a token.
      if videos.Array? && |videos.items| > 0 then
        Ok(Trimmed(Array(videos.items[..|videos.items| - 1]), Some(token)))
      else assert false; Err(MarkerTypeError)
    case Missing => Ok(Trimmed(videos, None))
    case Mistyped => Err(MarkerTypeError)
  }

  // ---------------------------------------------------------------------------
  // Video ids

  /** `x['richItemRenderer']['content']['videoRenderer']['videoId']`, any failure caught. */
  function StandardId(x: Json): (r: Option<Json>)
    ensures r.Some? ==> x.Object?
  {
    Lookup(x, VideoIdPath)
  }

  /**
   * `x[...]['entityId'][-11:]`: the slice of a string or list; `None` when the
   * lookup fails or the value cannot be sliced.
   */
  function ShortsId(x: Json): (r: Option<Json>)
    ensures r.Some? ==> x.Object?
  {
    match Lookup(x, EntityIdPath)
    case Some(Str(e)) => Some(Str(LastN(e, ShortsIdLength)))
    case Some(Array(a)) => Some(Array(LastN(a, ShortsIdLength)))
    case _ => None
  }

  predicate HasStandardShape(x: Json) {
    StandardId(x).Some?
  }

  predicate HasShortsShape(x: Json) {
    ShortsId(x).Some?
  }

  /** The first entry at or after `i` without a video id. */
  function FirstNonStandardFrom(s: seq<Json>, i: nat): (k: nat)
    requires i <= |s|
    ensures i <= k <= |s|
    ensures forall j :: i <= j < k ==> HasStandardShape(s[j])
    ensures k < |s| ==> !HasStandardShape(s[k])
    decreases |s| - i
  {
    if i == |s| || !HasStandardShape(s[i]) then i else FirstNonStandardFrom(s, i + 1)
  }

  /** Where the standard loop stops: the first entry without a video id, or `|s|` when there is none. */
  function FirstNonStandard(s: seq<Json>): (k: nat)
    ensures k <= |s|
    ensures forall i :: 0 <= i < k ==> HasStandardShape(s[i])
    ensures k < |s| ==> !HasStandardShape(s[k])
  {
    FirstNonStandardFrom(s, 0)
  }

  /** The first entry at or after `i` without an entity id. */
  function FirstNonShortsFrom(s: seq<Json>, i: nat): (k: nat)
    requires i <= |s|
    ensures i <= k <= |s|
    ensures forall j :: i <= j < k ==> HasShortsShape(s[j])
    ensures k < |s| ==> !HasShortsShape(s[k])
    decreases |s| - i
  {
    if i == |s| || !HasShortsShape(s[i]) then i else FirstNonShortsFrom(s, i + 1)
  }

  /** Where the fallback loop raises: the first entry without an entity id, or `|s|` when there is none. */
  function FirstNonShorts(s: seq<Json>): (k: nat)
    ensures k <= |s|
    ensures forall i :: 0 <= i < k ==> HasShortsShape(s[i])
    ensures k < |s| ==> !HasShortsShape(s[k])
  {
    FirstNonShortsFrom(s, 0)
  }

  /** The contract of `FirstNonStandard` determines it. */
  lemma FirstNonStandardIs(s: seq<Json>, k: nat)
    requires k <= |s|
    requires forall i :: 0 <= i < k ==> HasStandardShape(s[i])
    requires k < |s| ==> !HasStandardShape(s[k])
    ensures FirstNonStandard(s) == k
  {
  }

  /** The contract of `FirstNonShorts` determines it. */
  lemma FirstNonShortsIs(s: seq<Json>, k: nat)
    requires k <= |s|
    requires forall i :: 0 <= i < k ==> HasShortsShape(s[i])
    requires k < |s| ==> !HasShortsShape(s[k])
    ensures FirstNonShorts(s) == k
  {
  }

  /** The ids of entries that all have the standard shape, in order. */
  function StandardIds(members: seq<Json>): (ids: seq<Json>)
    requires forall i :: 0 <= i < |members| ==> StandardId(members[i]).Some?
    ensures |ids| == |members|
    ensures forall i :: 0 <= i < |members| ==> ids[i] == StandardId(members[i]).value
  {
    seq(|members|, i requires 0 <= i < |members| => StandardId(members[i]).value)
  }

  /** The ids of entries that all have the shorts shape, in order. */
  function ShortsIds(members: seq<Json>): (ids: seq<Json>)
    requires forall i :: 0 <= i < |members| ==> ShortsId(members[i]).Some?
    ensures |ids| == |members|
    ensures forall i :: 0 <= i < |members| ==> ids[i] == ShortsId(members[i]).value
  {
    seq(|members|, i requires 0 <= i < |members| => ShortsId(members[i]).value)
  }

  /** One more standard entry adds its id at the end. */
  lemma StandardIdsSnoc(members: seq<Json>, k: nat)
    requires k < |members| && forall i :: 0 <= i <= k ==> StandardId(members[i]).Some?
    ensures StandardIds(members[..k + 1]) == StandardIds(members[..k]) + [StandardId(members[k]).value]
  {
    var longer, shorter := StandardIds(members[..k + 1]), StandardIds(members[..k]) + [StandardId(members[k]).value];
    forall i | 0 <= i < k + 1
      ensures longer[i] == shorter[i]
    {
      assert members[..k + 1][i] == members[i];
    }
  }

  /** One more shorts entry adds its id at the end. */
  lemma ShortsIdsSnoc(members: seq<Json>, k: nat)
    requires k < |members| && forall i :: 0 <= i <= k ==> ShortsId(members[i]).Some?
    ensures ShortsIds(members[..k + 1]) == ShortsIds(members[..k]) + [ShortsId(members[k]).value]
  {
    var longer, shorter := ShortsIds(members[..k + 1]), ShortsIds(members[..k]) + [ShortsId(members[k]).value];
    forall i | 0 <= i < k + 1
      ensures longer[i] == shorter[i]
    {
      assert members[..k + 1][i] == members[i];
    }
  }

  /**
   * Lines 236-252, the values the two loops format. The first loop stops at
   * the first entry without the standard shape; the second then runs over
   * every entry, appending to what the first one left, and any failure in it
   * leaves the extractor.
   */
  function RawIds(members: seq<Json>): (r: Result<seq<Json>, Failure>)
    ensures r.Err? <==> FirstNonStandard(members) < |members| && FirstNonShorts(members) < |members|
  {
    var k := FirstNonStandard(members);
    if k == |members| then Ok(StandardIds(members))
    else
      var f := FirstNonShorts(members);
      if f < |members| then Err(FallbackFailedAt(f))
      else
        Ok(StandardIds(members[..k]) + ShortsIds(members))
  }

  /**
   * The error names the first entry without an entity id; otherwise there is
   * one id per entry, plus one per entry before `k` when the standard loop
   * stopped at `k`.
   */
  lemma RawIdsOutcome(members: seq<Json>)
    ensures RawIds(members).Err? ==> RawIds(members).error == FallbackFailedAt(FirstNonShorts(members))
    ensures RawIds(members).Ok? ==>
      |RawIds(members).value| == (if FirstNonStandard(members) == |members| then |members| else FirstNonStandard(members) + |members|)
  {
  }

  /** The f-string `/watch?v={id}` for each id. */
  function Render(ids: seq<Json>): (r: Result<seq<string>, Failure>)
    ensures r.Ok? <==> forall i :: 0 <= i < |ids| ==> PyStr(ids[i]).Some?
    ensures r.Err? ==> r.error == IdNotRendered
    ensures r.Ok? ==> |r.value| == |ids| && forall i :: 0 <= i < |ids| ==> r.value[i] == WatchPrefix + PyStr(ids[i]).value
  {
    if forall i :: 0 <= i < |ids| ==> PyStr(ids[i]).Some? then
      Ok(seq(|ids|, i requires 0 <= i < |ids| && PyStr(ids[i]).Some? => WatchPrefix + PyStr(ids[i]).value))
    else Err(IdNotRendered)
  }

  /** Formatting one more id extends the paths by one, or fails for good. */
  lemma RenderSnoc(ids: seq<Json>, id: Json)
    ensures Render(ids + [id]) ==
      if Render(ids).Ok? && PyStr(id).Some? then Ok(Render(ids).value + [WatchPrefix + PyStr(id).value])
      else Err(IdNotRendered)
  {
    var all := ids + [id];
    assert forall i :: 0 <= i < |ids| ==> all[i] == ids[i];
    if Render(ids).Ok? && PyStr(id).Some? {
      assert all[|ids|] == id;
      assert Render(all).value == Render(ids).value + [WatchPrefix + PyStr(id).value];
    } else if Render(ids).Err? {
      var i :| 0 <= i < |ids| && PyStr(ids[i]).None?;
      assert all[i] == ids[i];
    } else {
      assert all[|ids|] == id;
    }
  }

  /** The path is a watch path: `/watch?v=` followed by an id. */
  predicate IsWatchPath(path: string) {
    |path| >= |WatchPrefix| && path[..|WatchPrefix|] == WatchPrefix
  }

  /** The watch paths of a list's entries: the two loops, then the f-string. */
  function ListPaths(members: seq<Json>): (r: Result<seq<string>, Failure>)
    ensures r.Ok? ==> RawIds(members).Ok? && |r.value| == |RawIds(members).value|
    ensures RawIds(members).Err? ==> r == Err(RawIds(members).error)
    ensures RawIds(members).Ok? && r.Err? ==> r.error == IdNotRendered
  {
    var raw :- RawIds(members);
    Render(raw)
  }

  /**
   * The watch paths for the values that can reach the loops (the marker
   * check has raised for every other one). Iterating a dict visits its keys,
   * which are strings and have neither entry shape (`StringsHaveNeitherShape`),
   * so a non-empty dict fails at the first key visited, whatever the order;
   * the only string that gets this far is the empty one.
   */
  function PathsOf(videos: Json): (r: Result<seq<string>, Failure>)
    requires videos.Array? || videos.Object? || videos == Str([])
    ensures !videos.Array? && r.Ok? ==> r.value == []
    ensures r.Err? ==> r.error != MarkerTypeError
  {
    match videos
    case Array(items) => ListPaths(items)
    case Object(m) => if |m| == 0 then Ok([]) else Err(FallbackFailedAt(0))
    case Str(_) => Ok([])
  }

  /** A string (a dict key, a character) has neither entry shape. */
  lemma StringsHaveNeitherShape(x: Json)
    requires x.Str?
    ensures !HasStandardShape(x) && !HasShortsShape(x)
  {
    assert VideoIdPath[0] == Key("richItemRenderer");
    assert EntityIdPath[0] == Key("richItemRenderer");
  }

  /** Every path produced is a watch path. */
  lemma PathsAreWatchPaths(videos: Json)
    requires videos.Array? || videos.Object? || videos == Str([])
    ensures PathsOf(videos).Ok? ==> forall path :: path in PathsOf(videos).value ==> IsWatchPath(path)
  {
    if videos.Array? && PathsOf(videos).Ok? {
      var paths := PathsOf(videos).value;
      var raw := RawIds(videos.items).value;
      forall path | path in paths ensures IsWatchPath(path) {
        var i :| 0 <= i < |paths| && paths[i] == path;
        assert path == WatchPrefix + PyStr(raw[i]).value;
        assert path[..|WatchPrefix|] == WatchPrefix;
      }
    }
  }

  /** A video list as Python returns it for one page. */
  datatype Batch = Batch(watchPaths: seq<string>, continuation: Option<Json>)

  /** Lines 226-253 for the list found in a page. */
  function BatchOf(videos: Json): (r: Result<Batch, Failure>)
    ensures r.Ok? ==> Distinct(r.value.watchPaths)
    ensures r.Ok? ==> forall path :: path in r.value.watchPaths ==> IsWatchPath(path)
  {
    var t :- TakeContinuation(videos);
    assert t.videos.Array? || t.videos.Object? || t.videos == Str([]);
    var paths :- PathsOf(t.videos);
    PathsAreWatchPaths(t.videos);
    Ok(Batch(Uniqueify(paths), t.continuation))
  }

  /** The outcome of one call and the visitor data it stores (None: left as it was). */
  datatype Extraction = Extraction(outcome: Result<Batch, Failure>, visitorData: Option<Json>)

  /**
   * Lines 184-253 on an already decoded page. The visitor data is stored
   * before the marker check, so it is stored even when a later step raises.
   */
  function Extract(page: Json): (r: Extraction)
    ensures r.outcome.Ok? ==> Distinct(r.outcome.value.watchPaths)
    ensures r.outcome.Ok? ==> forall path :: path in r.outcome.value.watchPaths ==> IsWatchPath(path)
    ensures r.visitorData.Some? ==> Locate(page).Some? && r.visitorData == Locate(page).value.visitorData
  {
    match Locate(page)
    case None => Extraction(Ok(Batch([], None)), None)
    case Some(loc) => Extraction(BatchOf(loc.videos), loc.visitorData)
  }
}

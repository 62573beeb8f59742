/**
 * What the classifier does on each kind of page and list: which shape wins,
 * when the visitor data is stored, what happens to the continuation marker,
 * and which ids come out of the two loops.
 */
module ExtractionFacts {
  import opened Wrappers
  import opened JsonTree
  import opened Helpers
  import opened VideoExtraction

  // ---------------------------------------------------------------------------
  // Pages of each shape

  function Obj(k: string, v: Json): Json {
    Object(map[k := v])
  }

  /** A tab whose rich grid holds `videos`. */
  function GridTab(videos: Json): Json {
    Obj("tabRenderer", Obj("content", Obj("richGridRenderer", Obj("contents", videos))))
  }

  /** An initial page with the given tabs and visitor data. */
  function InitialPage(tabs: seq<Json>, visitorData: Json): Json {
    Object(map[
      "contents" := Obj("twoColumnBrowseResultsRenderer", Obj("tabs", Array(tabs))),
      "responseContext" := Obj("webResponseContextExtensionData", Obj("ytConfigData", Obj("visitorData", visitorData)))
    ])
  }

  /** `[{"appendContinuationItemsAction": {"continuationItems": videos}}]` */
  function AppendActions(videos: Json): Json {
    Array([Obj("appendContinuationItemsAction", Obj("continuationItems", videos))])
  }

  /** A continuation response of the older form: a list whose second element wraps the response. */
  function LegacyResponse(first: Json, videos: Json): Json {
    Array([first, Obj("response", Obj("onResponseReceivedActions", AppendActions(videos)))])
  }

  /** A continuation response of the current form. */
  function FlatResponse(videos: Json): Json {
    Obj("onResponseReceivedActions", AppendActions(videos))
  }

  /** The videos-tab path of an initial page leads to `tabs[1]`. */
  lemma VideosTabOfInitialPage(tabs: seq<Json>, visitorData: Json)
    ensures Follow(InitialPage(tabs, visitorData), VideosTabPath) ==
      (if |tabs| > 1 then Follow(tabs[1], VideosTabPath[4..]) else Missing)
  {
    var page := InitialPage(tabs, visitorData);
    assert VideosTabPath[0..] == VideosTabPath;
    FollowStep(page, VideosTabPath, 0);
    FollowStep(Obj("twoColumnBrowseResultsRenderer", Obj("tabs", Array(tabs))), VideosTabPath, 1);
    FollowStep(Obj("tabs", Array(tabs)), VideosTabPath, 2);
    FollowStep(Array(tabs), VideosTabPath, 3);
  }

  /** The shorts-tab path of an initial page leads to `tabs[2]`. */
  lemma ShortsTabOfInitialPage(tabs: seq<Json>, visitorData: Json)
    ensures Follow(InitialPage(tabs, visitorData), ShortsTabPath) ==
      (if |tabs| > 2 then Follow(tabs[2], ShortsTabPath[4..]) else Missing)
  {
    var page := InitialPage(tabs, visitorData);
    assert ShortsTabPath[0..] == ShortsTabPath;
    FollowStep(page, ShortsTabPath, 0);
    FollowStep(Obj("twoColumnBrowseResultsRenderer", Obj("tabs", Array(tabs))), ShortsTabPath, 1);
    FollowStep(Obj("tabs", Array(tabs)), ShortsTabPath, 2);
    FollowStep(Array(tabs), ShortsTabPath, 3);
  }

  /** The visitor data of an initial page is where the classifier looks for it. */
  lemma VisitorDataOfInitialPage(tabs: seq<Json>, visitorData: Json)
    ensures Lookup(InitialPage(tabs, visitorData), VisitorDataPath) == Some(visitorData)
  {
    var page := InitialPage(tabs, visitorData);
    var context := Obj("webResponseContextExtensionData", Obj("ytConfigData", Obj("visitorData", visitorData)));
    assert VisitorDataPath[0..] == VisitorDataPath && VisitorDataPath[4..] == [];
    FollowStep(page, VisitorDataPath, 0);
    FollowStep(context, VisitorDataPath, 1);
    FollowStep(Obj("ytConfigData", Obj("visitorData", visitorData)), VisitorDataPath, 2);
    FollowStep(Obj("visitorData", visitorData), VisitorDataPath, 3);
  }

  /** The smallest tab with a grid: it yields its list along the tail of either tab path. */
  lemma GridTabPath(videos: Json)
    ensures Lookup(GridTab(videos), VideosTabPath[4..]) == Some(videos)
    ensures Lookup(GridTab(videos), ShortsTabPath[4..]) == Some(videos)
  {
    var grid := Obj("richGridRenderer", Obj("contents", videos));
    FollowStep(GridTab(videos), VideosTabPath, 4);
    FollowStep(Obj("content", grid), VideosTabPath, 5);
    FollowStep(grid, VideosTabPath, 6);
    FollowStep(Obj("contents", videos), VideosTabPath, 7);
    assert VideosTabPath[8..] == [];
    assert ShortsTabPath[4..] == VideosTabPath[4..];
  }

  /**
   * An initial page whose second tab has a grid, whatever else the tab holds:
   * the list is that grid, and the visitor data is stored.
   */
  lemma VideosTabWins(tabs: seq<Json>, videos: Json, visitorData: Json)
    requires |tabs| > 1 && Lookup(tabs[1], VideosTabPath[4..]) == Some(videos)
    ensures Locate(InitialPage(tabs, visitorData)) == Some(Located(videos, Some(visitorData)))
    ensures Extract(InitialPage(tabs, visitorData)) == Extraction(BatchOf(videos), Some(visitorData))
  {
    VideosTabOfInitialPage(tabs, visitorData);
    VisitorDataOfInitialPage(tabs, visitorData);
  }

  /**
   * An initial page whose second tab has no grid and whose third tab has one
   * (the shorts page): the list is the third tab's grid.
   */
  lemma ShortsTabWhenVideosTabAbsent(tabs: seq<Json>, videos: Json, visitorData: Json)
    requires |tabs| > 2 && Lookup(tabs[1], VideosTabPath[4..]).None? && Lookup(tabs[2], ShortsTabPath[4..]) == Some(videos)
    ensures Locate(InitialPage(tabs, visitorData)) == Some(Located(videos, Some(visitorData)))
    ensures Extract(InitialPage(tabs, visitorData)) == Extraction(BatchOf(videos), Some(visitorData))
  {
    var page := InitialPage(tabs, visitorData);
    assert TabGrid(page) == Some(videos) by {
      VideosTabOfInitialPage(tabs, visitorData);
      ShortsTabOfInitialPage(tabs, visitorData);
    }
    VisitorDataOfInitialPage(tabs, visitorData);
  }

  /** The third tab is consulted only when the second tab's grid is structurally absent. */
  lemma ShortsTabOnlyAsFallback(page: Json)
    requires Lookup(page, VideosTabPath).Some?
    ensures TabGrid(page) == Lookup(page, VideosTabPath)
  {
  }

  /** A continuation response of the older form has no tab grid, and yields its list. */
  lemma LegacyResponseLocated(first: Json, videos: Json)
    ensures Locate(LegacyResponse(first, videos)) == Some(Located(videos, None))
  {
    var legacy := LegacyResponse(first, videos);
    assert VideosTabPath[0] == Key("contents") && ShortsTabPath[0] == Key("contents");
    assert Follow(legacy, VideosTabPath) == Mistyped;
    assert Follow(legacy, ShortsTabPath) == Mistyped;
  }

  /** A continuation response of the current form has neither a tab grid nor the older shape, and yields its list. */
  lemma FlatResponseLocated(videos: Json)
    ensures Locate(FlatResponse(videos)) == Some(Located(videos, None))
  {
    var flat := FlatResponse(videos);
    assert VideosTabPath[0] == Key("contents") && ShortsTabPath[0] == Key("contents");
    assert Follow(flat, VideosTabPath) == Missing;
    assert Follow(flat, ShortsTabPath) == Missing;
    assert LegacyContinuationPath[0] == Index(1);
    assert Follow(flat, LegacyContinuationPath) == Missing;
  }

  /** A continuation response of either form yields its list, and no visitor data. */
  lemma ContinuationShapesAgree(first: Json, videos: Json)
    ensures Extract(LegacyResponse(first, videos)) == Extract(FlatResponse(videos))
    ensures Extract(FlatResponse(videos)) == Extraction(BatchOf(videos), None)
  {
    LegacyResponseLocated(first, videos);
    FlatResponseLocated(videos);
  }

  /**
   * No page has both continuation shapes: the older one starts with `[1]`,
   * which needs a list or a string, the current one with a key, which needs
   * a dict. So the order in which the two are tried cannot be observed.
   */
  lemma ContinuationShapesExclusive(page: Json)
    ensures !(Lookup(page, LegacyContinuationPath).Some? && Lookup(page, ContinuationPath).Some?)
  {
    assert LegacyContinuationPath[0] == Index(1);
    assert ContinuationPath[0] == Key("onResponseReceivedActions");
  }

  /** On a continuation page where the older shape matches, its list is the one used. */
  lemma LegacyShapeFirst(page: Json)
    requires Locate(page).Some? && Locate(page).value.visitorData.None?
    requires Lookup(page, LegacyContinuationPath).Some?
    ensures Locate(page).value.videos == Lookup(page, LegacyContinuationPath).value
  {
  }

  /**
   * The visitor data is stored exactly when a tab grid and the visitor data
   * are both found, and it is the page's visitor data.
   */
  lemma VisitorDataOnlyFromInitialPage(page: Json)
    ensures Extract(page).visitorData.Some? <==> TabGrid(page).Some? && Lookup(page, VisitorDataPath).Some?
    ensures Extract(page).visitorData.Some? ==> Extract(page).visitorData == Lookup(page, VisitorDataPath)
  {
  }

  /** Without visitor data the initial-page result is abandoned and the page is read as a continuation response. */
  lemma MissingVisitorDataFallsThrough(page: Json)
    requires Lookup(page, VisitorDataPath).None?
    ensures Locate(page) == LocateInContinuation(page)
    ensures Extract(page).visitorData.None?
  {
  }

  /** So an initial page without visitor data yields nothing at all, whatever its tabs hold. */
  lemma InitialPageWithoutVisitorDataIsEmpty(tabs: seq<Json>)
    ensures Extract(Obj("contents", Obj("twoColumnBrowseResultsRenderer", Obj("tabs", Array(tabs)))))
         == Extraction(Ok(Batch([], None)), None)
  {
    var page := Obj("contents", Obj("twoColumnBrowseResultsRenderer", Obj("tabs", Array(tabs))));
    assert VisitorDataPath[0] == Key("responseContext");
    assert Follow(page, VisitorDataPath) == Missing;
    assert LegacyContinuationPath[0] == Index(1);
    assert Follow(page, LegacyContinuationPath) == Missing;
    assert ContinuationPath[0] == Key("onResponseReceivedActions");
    assert Follow(page, ContinuationPath) == Missing;
  }

  /** When no shape matches, the result is an empty list, no token, and the visitor data is left alone. */
  lemma NoShapeGivesEmptyResult(page: Json)
    requires TabGrid(page).None? || Lookup(page, VisitorDataPath).None?
    requires Lookup(page, LegacyContinuationPath).None? && Lookup(page, ContinuationPath).None?
    ensures Extract(page) == Extraction(Ok(Batch([], None)), None)
  {
  }

  /** The empty object `{}` matches no shape. */
  lemma EmptyObjectGivesEmptyResult()
    ensures Extract(Object(map[])) == Extraction(Ok(Batch([], None)), None)
  {
    var page := Object(map[]);
    assert VideosTabPath[0] == Key("contents") && ShortsTabPath[0] == Key("contents");
    assert Follow(page, VideosTabPath) == Missing;
    assert Follow(page, ShortsTabPath) == Missing;
    assert LegacyContinuationPath[0] == Index(1);
    assert Follow(page, LegacyContinuationPath) == Missing;
    assert ContinuationPath[0] == Key("onResponseReceivedActions");
    assert Follow(page, ContinuationPath) == Missing;
  }

  /**
   * The visitor data is stored before the marker check: when that check
   * raises, the call fails and the visitor data is stored all the same.
   */
  lemma MarkerErrorAfterVisitorData(tabs: seq<Json>, items: seq<Json>, visitorData: Json)
    requires |tabs| > 1 && Lookup(tabs[1], VideosTabPath[4..]) == Some(Array(items))
    requires items != [] && !items[|items| - 1].Object?
    ensures Extract(InitialPage(tabs, visitorData)) == Extraction(Err(MarkerTypeError), Some(visitorData))
  {
    VideosTabWins(tabs, Array(items), visitorData);
    assert MarkerTokenPath[0] == Key("continuationItemRenderer");
    assert Follow(items[|items| - 1], MarkerTokenPath) == Mistyped;
  }

  // ---------------------------------------------------------------------------
  // The continuation marker

  /** A trailing marker is dropped from the list and its token returned. */
  lemma MarkerDropped(items: seq<Json>, marker: Json, token: Json)
    requires Follow(marker, MarkerTokenPath) == Found(token)
    ensures BatchOf(Array(items + [marker])) ==
      (match ListPaths(items) case Ok(paths) => Ok(Batch(Uniqueify(paths), Some(token))) case Err(e) => Err(e))
  {
    var videos := Array(items + [marker]);
    assert (items + [marker])[|items|] == marker;
    assert (items + [marker])[..|items|] == items;
    assert HasMarker(videos);
  }

  /** Without a marker at the end (an empty list included), no token is returned and the whole list is kept. */
  lemma NoMarkerKeepsList(items: seq<Json>)
    requires items == [] || Follow(items[|items| - 1], MarkerTokenPath).Missing?
    ensures BatchOf(Array(items)) ==
      (match ListPaths(items) case Ok(paths) => Ok(Batch(Uniqueify(paths), None)) case Err(e) => Err(e))
  {
    assert TakeContinuation(Array(items)) == Ok(Trimmed(Array(items), None));
  }

  // ---------------------------------------------------------------------------
  // Ids

  /** The watch paths of a list of ids. */
  function WatchPaths(ids: seq<string>): (paths: seq<string>)
    ensures |paths| == |ids|
    ensures forall i :: 0 <= i < |ids| ==> paths[i] == WatchPrefix + ids[i]
  {
    if ids == [] then [] else [WatchPrefix + ids[0]] + WatchPaths(ids[1..])
  }

  /** Ids that are all strings render to their watch paths. */
  lemma RenderStrings(raw: seq<Json>, ids: seq<string>)
    requires |raw| == |ids|
    requires forall i :: 0 <= i < |raw| ==> raw[i] == Str(ids[i])
    ensures Render(raw) == Ok(WatchPaths(ids))
  {
    assert forall i :: 0 <= i < |raw| ==> PyStr(raw[i]).Some?;
    var r := Render(raw);
    var w := WatchPaths(ids);
    forall i | 0 <= i < |ids| ensures r.value[i] == w[i] {
      assert r.value[i] == WatchPrefix + ids[i];
    }
    assert r.value == w;
  }

  lemma WatchPathsAppend(a: seq<string>, b: seq<string>)
    ensures WatchPaths(a + b) == WatchPaths(a) + WatchPaths(b)
  {
    var l, r := WatchPaths(a + b), WatchPaths(a) + WatchPaths(b);
    assert |l| == |r|;
    forall i | 0 <= i < |l| ensures l[i] == r[i] {
      if i < |a| { assert (a + b)[i] == a[i]; } else { assert (a + b)[i] == b[i - |a|]; }
    }
  }

  /** The first-loop ids of entries that all have the standard shape, with string ids. */
  lemma StandardIdsOfStrings(items: seq<Json>, ids: seq<string>)
    requires |ids| == |items|
    requires forall i :: 0 <= i < |items| ==> StandardId(items[i]) == Some(Str(ids[i]))
    ensures forall i :: 0 <= i < |items| ==> StandardId(items[i]).Some?
    ensures Render(StandardIds(items)) == Ok(WatchPaths(ids))
  {
    RenderStrings(StandardIds(items), ids);
  }

  /** Regular entries: each id is used as it is, in order. */
  lemma StandardEntries(items: seq<Json>, ids: seq<string>)
    requires |ids| == |items|
    requires forall i :: 0 <= i < |items| ==> StandardId(items[i]) == Some(Str(ids[i]))
    ensures ListPaths(items) == Ok(WatchPaths(ids))
  {
    StandardIdsOfStrings(items, ids);
    FirstNonStandardIs(items, |items|);
  }

  /** `x[...]['entityId'][-11:]` of a string is its last eleven characters, or all of it when shorter. */
  lemma ShortsIdIsLastEleven(x: Json, entityId: string)
    requires Lookup(x, EntityIdPath) == Some(Str(entityId))
    ensures ShortsId(x).Some? && ShortsId(x).value.Str?
    ensures var id := ShortsId(x).value.s;
      |id| == (if |entityId| < 11 then |entityId| else 11) && entityId == entityId[..|entityId| - |id|] + id
  {
    var id := ShortsId(x).value.s;
    assert entityId == entityId[..|entityId| - |id|] + entityId[|entityId| - |id|..];
  }

  /** The last eleven characters of each entity id. */
  function LastElevenOf(entityIds: seq<string>): (ids: seq<string>)
    ensures |ids| == |entityIds|
    ensures forall i :: 0 <= i < |entityIds| ==> ids[i] == LastN(entityIds[i], ShortsIdLength)
  {
    if entityIds == [] then [] else [LastN(entityIds[0], ShortsIdLength)] + LastElevenOf(entityIds[1..])
  }

  /** When the first loop breaks at `k` and the second loop completes, both loops' values are kept. */
  lemma FallbackRawIsConcat(items: seq<Json>, k: nat)
    requires k < |items|
    requires forall i :: 0 <= i < k ==> StandardId(items[i]).Some?
    requires StandardId(items[k]).None?
    requires forall i :: 0 <= i < |items| ==> ShortsId(items[i]).Some?
    ensures RawIds(items) == Ok(StandardIds(items[..k]) + ShortsIds(items))
  {
    assert FirstNonStandard(items) == k by {
      FirstNonStandardIs(items, k);
    }
    assert FirstNonShorts(items) == |items| by {
      FirstNonShortsIs(items, |items|);
    }
  }

  /** Standard entries with string ids give those strings. */
  lemma StandardIdsAreStrings(items: seq<Json>, ids: seq<string>)
    requires |ids| == |items|
    requires forall i :: 0 <= i < |items| ==> StandardId(items[i]) == Some(Str(ids[i]))
    ensures forall i :: 0 <= i < |items| ==> StandardId(items[i]).Some?
    ensures |StandardIds(items)| == |ids| && forall i :: 0 <= i < |ids| ==> StandardIds(items)[i] == Str(ids[i])
  {
  }

  /** Shorts entries with string entity ids give the last eleven characters of each. */
  lemma ShortsIdsAreLastEleven(items: seq<Json>, entityIds: seq<string>)
    requires |entityIds| == |items|
    requires forall i :: 0 <= i < |items| ==> Lookup(items[i], EntityIdPath) == Some(Str(entityIds[i]))
    ensures forall i :: 0 <= i < |items| ==> ShortsId(items[i]).Some?
    ensures var tails := LastElevenOf(entityIds);
      |ShortsIds(items)| == |tails| && forall i :: 0 <= i < |tails| ==> ShortsIds(items)[i] == Str(tails[i])
  {
    assert forall i :: 0 <= i < |items| ==> ShortsId(items[i]) == Some(Str(LastN(entityIds[i], ShortsIdLength)));
  }

  /** Concatenating two lists of string values is concatenating the strings. */
  lemma StringsAppend(a: seq<Json>, b: seq<Json>, x: seq<string>, y: seq<string>)
    requires |a| == |x| && forall i :: 0 <= i < |x| ==> a[i] == Str(x[i])
    requires |b| == |y| && forall i :: 0 <= i < |y| ==> b[i] == Str(y[i])
    ensures |a + b| == |x + y| && forall i :: 0 <= i < |x + y| ==> (a + b)[i] == Str((x + y)[i])
  {
    forall i | 0 <= i < |x + y| ensures (a + b)[i] == Str((x + y)[i]) {
      if i >= |x| {
        assert (a + b)[i] == b[i - |x|] && (x + y)[i] == y[i - |x|];
      }
    }
  }

  /** The values the two loops collect when the first loop breaks at `k` and the second loop completes. */
  lemma FallbackRawIds(items: seq<Json>, k: nat, ids: seq<string>, entityIds: seq<string>)
    requires k < |items| && |ids| == k && |entityIds| == |items|
    requires forall i :: 0 <= i < k ==> StandardId(items[i]) == Some(Str(ids[i]))
    requires StandardId(items[k]).None?
    requires forall i :: 0 <= i < |items| ==> Lookup(items[i], EntityIdPath) == Some(Str(entityIds[i]))
    ensures RawIds(items).Ok?
    ensures var raw := RawIds(items).value; var all := ids + LastElevenOf(entityIds);
      |raw| == |all| && forall i :: 0 <= i < |raw| ==> raw[i] == Str(all[i])
  {
    StandardIdsAreStrings(items[..k], ids);
    ShortsIdsAreLastEleven(items, entityIds);
    FallbackRawIsConcat(items, k);
    StringsAppend(StandardIds(items[..k]), ShortsIds(items), ids, LastElevenOf(entityIds));
  }

  /**
   * Entry `k` is the first without the standard shape and every entry has a
   * string entity id: the paths are the standard ids of the entries before
   * `k`, then the last eleven characters of every entry's entity id.
   */
  lemma FallbackEntries(items: seq<Json>, k: nat, ids: seq<string>, entityIds: seq<string>)
    requires k < |items| && |ids| == k && |entityIds| == |items|
    requires forall i :: 0 <= i < k ==> StandardId(items[i]) == Some(Str(ids[i]))
    requires StandardId(items[k]).None?
    requires forall i :: 0 <= i < |items| ==> Lookup(items[i], EntityIdPath) == Some(Str(entityIds[i]))
    ensures ListPaths(items) == Ok(WatchPaths(ids) + WatchPaths(LastElevenOf(entityIds)))
  {
    FallbackRawIds(items, k, ids, entityIds);
    RenderStrings(RawIds(items).value, ids + LastElevenOf(entityIds));
    WatchPathsAppend(ids, LastElevenOf(entityIds));
  }

  /**
   * Some entry lacks the standard shape and entry `f` is the first without
   * the shorts shape: the second loop raises there, whatever the first loop
   * collected.
   */
  lemma FallbackFailure(items: seq<Json>, k: nat, f: nat)
    requires k < |items| && !HasStandardShape(items[k])
    requires f < |items| && !HasShortsShape(items[f])
    requires forall i :: 0 <= i < f ==> HasShortsShape(items[i])
    ensures ListPaths(items) == Err(FallbackFailedAt(f))
  {
    assert FirstNonStandard(items) <= k;
    FirstNonShortsIs(items, f);
  }
}

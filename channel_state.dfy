/**
 * The `Channel` object: its sub-page URLs, the page its listing starts
 * from, the visitor data it keeps between requests, and the two methods that
 * use them, the request builder and the page extractor.
 */
module ChannelState {
  import opened Wrappers
  import opened JsonTree
  import opened Helpers
  import opened VideoExtraction

  class Channel {
    const channelUri: string
    const channelUrl: string
    const videosUrl: string
    const shortsUrl: string
    const playlistsUrl: string
    const communityUrl: string
    const featuredChannelsUrl: string
    const aboutUrl: string

    /** The page whose HTML the listing starts from: the videos tab or the shorts tab. */
    var htmlPage: string
    /** The session token sent with every continuation request; `Null` until an initial page is read. */
    var visitorData: Json

    /**
     * The URL invariant: the URLs all belong to `channelUri` and the listing
     * starts from one of its two tabs. `visitorData` is not part of it, so
     * `ExtractVideos`, which may change only that field, cannot break it.
     */
    ghost predicate Valid()
      reads this
    {
      && channelUrl == ChannelUrl(channelUri)
      && videosUrl == SubPageUrl(channelUri, VideosPage)
      && shortsUrl == SubPageUrl(channelUri, ShortsPage)
      && playlistsUrl == SubPageUrl(channelUri, PlaylistsPage)
      && communityUrl == SubPageUrl(channelUri, CommunityPage)
      && featuredChannelsUrl == SubPageUrl(channelUri, FeaturedChannelsPage)
      && aboutUrl == SubPageUrl(channelUri, AboutPage)
      && (htmlPage == videosUrl || htmlPage == shortsUrl)
    }

    /** A channel identified by its path, for example `/c/name`; regular videos are listed first. */
    constructor (channelUri: string)
      ensures Valid()
      ensures this.channelUri == channelUri
      ensures channelUrl == "https://www.youtube.com" + channelUri
      ensures videosUrl == channelUrl + "/videos" && shortsUrl == channelUrl + "/shorts"
      ensures playlistsUrl == channelUrl + "/playlists" && communityUrl == channelUrl + "/community"
      ensures featuredChannelsUrl == channelUrl + "/channels" && aboutUrl == channelUrl + "/about"
      ensures htmlPage == videosUrl
      ensures visitorData == Null
    {
      this.channelUri := channelUri;
      channelUrl := Host + channelUri;
      videosUrl := Host + channelUri + "/videos";
      shortsUrl := Host + channelUri + "/shorts";
      playlistsUrl := Host + channelUri + "/playlists";
      communityUrl := Host + channelUri + "/community";
      featuredChannelsUrl := Host + channelUri + "/channels";
      aboutUrl := Host + channelUri + "/about";
      htmlPage := Host + channelUri + "/videos";
      visitorData := Null;
    }

    /** The `videos` property: list regular videos from now on. */
    method Videos()
      requires Valid()
      modifies this`htmlPage
      ensures Valid()
      ensures htmlPage == videosUrl
    {
      htmlPage := videosUrl;
    }

    /** The `shorts` property: list shorts from now on. */
    method Shorts()
      requires Valid()
      modifies this`htmlPage
      ensures Valid()
      ensures htmlPage == shortsUrl
    {
      htmlPage := shortsUrl;
    }

    /**
     * The POST request for the page after the one that ended with token
     * `continuation`. The API key belongs to the base class and is passed in.
     */
    function BuildContinuationUrl(continuation: Json, apiKey: string): (r: Request)
      reads this
      ensures r.url == BrowseEndpoint + apiKey
      ensures r.headers == map[ClientNameHeader := "1", ClientVersionHeader := ClientVersion]
      ensures Lookup(r.body, ContinuationInBody) == Some(continuation)
      ensures Lookup(r.body, VisitorDataInBody) == Some(visitorData)
      ensures Lookup(r.body, ClientVersionInBody) == Some(Str(r.headers[ClientVersionHeader]))
      ensures Lookup(r.body, [Key("context"), Key("client"), Key("clientName")]) == Some(Str("WEB"))
      ensures r.body.Object? && r.body.fields.Keys == {"continuation", "context"}
      ensures Lookup(r.body, [Key("context")]).Some? && Lookup(r.body, [Key("context")]).value.Object?
      ensures Lookup(r.body, [Key("context")]).value.fields.Keys == {"client"}
      ensures Lookup(r.body, [Key("context"), Key("client")]).Some? && Lookup(r.body, [Key("context"), Key("client")]).value.Object?
      ensures Lookup(r.body, [Key("context"), Key("client")]).value.fields.Keys == {"clientName", "visitorData", "clientVersion"}
    {
      var client := Object(map["clientName" := Str("WEB"), "visitorData" := visitorData, "clientVersion" := Str(ClientVersion)]);
      var body := Object(map["continuation" := continuation, "context" := Object(map["client" := client])]);
      assert Follow(body, [Key("context")]) == Found(Object(map["client" := client]));
      assert Follow(Object(map["client" := client]), [Key("client")]) == Found(client);
      Request(BrowseEndpoint + apiKey, map[ClientNameHeader := "1", ClientVersionHeader := ClientVersion], body)
    }

    /**
     * Lines 175-253 on an already decoded page: the watch paths and the
     * continuation token of the page, or the error that leaves the method.
     * The visitor data is overwritten exactly when the page is an initial
     * page, before anything can fail.
     */
    method ExtractVideos(page: Json) returns (outcome: Result<Batch, Failure>)
      modifies this`visitorData
      ensures outcome == Extract(page).outcome
      ensures visitorData == Extract(page).visitorData.GetOr(old(visitorData))
    {
      // The four shapes, in order.
      var videos: Json;
      var grid := Lookup(page, VideosTabPath);
      if grid.None? {
        grid := Lookup(page, ShortsTabPath);
      }
      assert grid == TabGrid(page);
      var visitor := Lookup(page, VisitorDataPath);
      if grid.Some? && visitor.Some? {
        videos := grid.value;
        visitorData := visitor.value;
        assert Locate(page) == Some(Located(videos, visitor));
      } else {
        assert Locate(page) == LocateInContinuation(page);
        var legacy := Lookup(page, LegacyContinuationPath);
        if legacy.Some? {
          videos := legacy.value;
        } else {
          var flat := Lookup(page, ContinuationPath);
          if flat.None? {
            return Ok(Batch([], None));
          }
          videos := flat.value;
        }
        assert Locate(page) == Some(Located(videos, None));
      }
      outcome := VideosBatch(videos);
    }
  }

  /** Lines 226-253 for the list a page holds. */
  method VideosBatch(videos: Json) returns (r: Result<Batch, Failure>)
    ensures r == BatchOf(videos)
  {
    // The continuation marker at the end of the list.
    var continuation: Option<Json> := None;
    var rest := videos;
    ListTokenIsLastEntryToken(videos);
    match Follow(videos, ListTokenPath) {
      case Mistyped =>
        return Err(MarkerTypeError);
      case Missing =>
      case Found(token) =>
        continuation := Some(token);
        rest := Array(videos.items[..|videos.items| - 1]);
    }
    assert TakeContinuation(videos) == Ok(Trimmed(rest, continuation));

    var members := Visited(rest);
    var paths :- CollectPaths(members);
    r := Ok(Batch(Uniqueify(paths), continuation));
  }

  /**
   * What `for x in videos` visits: the entries of a list, the keys of a dict
   * in some order, or the characters of the empty string.
   */
  method Visited(videos: Json) returns (members: seq<Json>)
    requires videos.Array? || videos.Object? || videos == Str([])
    ensures videos.Array? ==> members == videos.items
    ensures videos.Object? ==> |members| == |videos.fields| && Distinct(members)
    ensures videos.Object? ==> forall i :: 0 <= i < |members| ==> members[i].Str? && members[i].s in videos.fields
    ensures videos.Object? ==> forall key :: key in videos.fields ==> Str(key) in members
    ensures videos.Str? ==> members == []
    ensures ListPaths(members) == PathsOf(videos)
  {
    members := [];
    if videos.Array? {
      members := videos.items;
    } else if videos.Object? {
      var keys := videos.fields.Keys;
      while keys != {}
        invariant keys <= videos.fields.Keys
        invariant |members| + |keys| == |videos.fields|
        invariant forall i :: 0 <= i < |members| ==> members[i].Str? && members[i].s in videos.fields && members[i].s !in keys
        invariant forall key :: key in videos.fields && key !in keys ==> Str(key) in members
        invariant Distinct(members)
        decreases |keys|
      {
        var key :| key in keys;
        members := members + [Str(key)];
        keys := keys - {key};
      }
      KeysHaveNoPaths(members);
    }
  }

  /**
   * Lines 236-252: the standard loop up to the first entry without a video
   * id and, if it stopped early, the fallback loop over every entry,
   * appending to what the first loop produced.
   */
  method CollectPaths(members: seq<Json>) returns (r: Result<seq<string>, Failure>)
    ensures r == ListPaths(members)
  {
    var k, paths, unrendered := StandardLoop(members);
    if k < |members| {
      var failedAt;
      failedAt, paths, unrendered := FallbackLoop(members, StandardIds(members[..k]), paths, unrendered);
      if failedAt.Some? {
        return Err(FallbackFailedAt(failedAt.value));
      }
    } else {
      assert members[..k] == members;
    }
    if unrendered {
      return Err(IdNotRendered);
    }
    r := Ok(paths);
  }

  /** Lines 238-242: one path per entry, up to the first entry without a video id. */
  method StandardLoop(members: seq<Json>) returns (k: nat, paths: seq<string>, unrendered: bool)
    ensures k == FirstNonStandard(members)
    ensures unrendered <==> Render(StandardIds(members[..k])).Err?
    ensures !unrendered ==> Render(StandardIds(members[..k])) == Ok(paths)
  {
    paths, unrendered := [], false;
    ghost var ids: seq<Json> := [];
    k := 0;
    while k < |members|
      invariant 0 <= k <= |members|
      invariant forall j :: 0 <= j < k ==> HasStandardShape(members[j])
      invariant ids == StandardIds(members[..k])
      invariant unrendered <==> Render(ids).Err?
      invariant !unrendered ==> Render(ids) == Ok(paths)
    {
      var id := StandardId(members[k]);
      if id.None? {
        FirstNonStandardIs(members, k);
        return;
      }
      paths, unrendered := AppendWatchPath(paths, unrendered, ids, id.value);
      StandardIdsSnoc(members, k);
      ids := ids + [id.value];
      k := k + 1;
    }
    FirstNonStandardIs(members, k);
  }

  /**
   * Lines 245-251: one path per entry from the entity id, appended to the
   * ids `prefix` already formatted; the position of the first entry without
   * one, if any, is where the exception leaves the method.
   */
  method FallbackLoop(members: seq<Json>, ghost prefix: seq<Json>, paths0: seq<string>, unrendered0: bool)
    returns (failedAt: Option<nat>, paths: seq<string>, unrendered: bool)
    requires unrendered0 <==> Render(prefix).Err?
    requires !unrendered0 ==> Render(prefix) == Ok(paths0)
    ensures failedAt.Some? <==> FirstNonShorts(members) < |members|
    ensures failedAt.Some? ==> failedAt.value == FirstNonShorts(members)
    ensures failedAt.None? ==> (unrendered <==> Render(prefix + ShortsIds(members)).Err?)
    ensures failedAt.None? && !unrendered ==> Render(prefix + ShortsIds(members)) == Ok(paths)
  {
    paths, unrendered := paths0, unrendered0;
    ghost var ids := prefix;
    var j := 0;
    while j < |members|
      invariant 0 <= j <= |members|
      invariant forall m :: 0 <= m < j ==> HasShortsShape(members[m])
      invariant ids == prefix + ShortsIds(members[..j])
      invariant unrendered <==> Render(ids).Err?
      invariant !unrendered ==> Render(ids) == Ok(paths)
    {
      var id := ShortsId(members[j]);
      if id.None? {
        return Some(j), paths, unrendered;
      }
      paths, unrendered := AppendWatchPath(paths, unrendered, ids, id.value);
      ShortsIdsSnoc(members, j);
      ids := ids + [id.value];
      j := j + 1;
    }
    assert members[..j] == members;
    failedAt := None;
  }

  /** One append of `f"/watch?v={id}"`; a list or dict id, whose `repr` is not modelled, is recorded as unrendered. */
  method AppendWatchPath(paths: seq<string>, unrendered: bool, ghost ids: seq<Json>, id: Json)
    returns (paths': seq<string>, unrendered': bool)
    requires unrendered <==> Render(ids).Err?
    requires !unrendered ==> Render(ids) == Ok(paths)
    ensures unrendered' <==> Render(ids + [id]).Err?
    ensures !unrendered' ==> Render(ids + [id]) == Ok(paths')
  {
    RenderSnoc(ids, id);
    paths', unrendered' := paths, unrendered;
    var text := PyStr(id);
    if text.Some? {
      paths' := paths + [WatchPrefix + text.value];
    } else {
      unrendered' := true;
    }
  }

  /** The keys of a dict have neither entry shape, so a non-empty dict fails at the first one visited. */
  lemma KeysHaveNoPaths(keys: seq<Json>)
    requires forall i :: 0 <= i < |keys| ==> keys[i].Str?
    ensures ListPaths(keys) == if keys == [] then Ok([]) else Err(FallbackFailedAt(0))
  {
    if keys != [] {
      StringsHaveNeitherShape(keys[0]);
      assert FirstNonStandard(keys) == 0;
      assert FirstNonShorts(keys) == 0;
    }
  }
}

/** extract/e_s_features.py: walk each playlist's `next` links, batch the
    track ids a hundred at a time into the audio-features endpoint, and emit one
    row per non-null feature record tagged with the playlist's category key.

    The script reads a global `headers` and a dict `ids` that it never defines;
    here they are the parameters `auth` (the Authorization header value) and
    `ids` (the dict's items in insertion order). */
module PlaylistFeatures {
  import opened Net

  /** A playlist entry's `track`; `artist` is `track['artists'][0]['name']`. */
  datatype Track = Track(id: Option<string>, name: string, artist: string)

  datatype Item = Item(track: Option<Track>)

  datatype Page = Page(items: seq<Item>, next: Option<string>)

  datatype FeatureVector = FeatureVector(
    acousticness: real, danceability: real, energy: real, instrumentalness: real, key: int,
    liveness: real, loudness: real, speechiness: real, tempo: real, valence: real,
    durationMs: int, timeSignature: int)

  /** One non-null entry of the `audio_features` array. */
  datatype Features = Features(id: string, values: FeatureVector)

  /** One `track_info` row. */
  datatype FeatureRow = FeatureRow(trackId: string, trackName: string, artist: string,
                                   values: FeatureVector, playlistType: string)

  type FeaturesAnswer = Response<seq<Option<Features>>>

  const FeaturesEndpoint: string := "https://api.spotify.com/v1/audio-features"

  /** The most ids the features endpoint takes in one request. */
  const BatchSize: nat := 100

  function FirstPageUrl(playlistId: string): string {
    "https://api.spotify.com/v1/playlists/" + playlistId + "/tracks?limit=100"
  }

  // ---------------------------------------------------------------------------
  // get_all_playlist_tracks

  datatype PagesRun = PagesRun(items: seq<Item>, rest: seq<Response<Page>>, trace: seq<Event>)

  /** The pause before a page and the page's GET. */
  function PageRequest(url: string, auth: string): seq<Event> {
    [Sleep(PageDelay, Pacing), Get(url, [], Some(auth))]
  }

  function RequestedUrls(trace: seq<Event>): seq<string> {
    Pick(trace, GetUrlOf)
  }

  /** What one pass of the `while url:` body leads to. */
  datatype PageStep =
    | NextPage(url: Option<string>, gathered: seq<Item>, rest: seq<Response<Page>>, trace: seq<Event>)
    | Restart(rest: seq<Response<Page>>, trace: seq<Event>)
    | Stop(rest: seq<Response<Page>>, trace: seq<Event>)

  /** One pass of the loop body for the page at `url`. */
  function FetchPage(auth: string, retries: nat, url: string, gathered: seq<Item>,
                     pages: seq<Response<Page>>): (s: PageStep)
    requires retries <= Retries
    ensures IsSuffix(s.rest, pages)
    ensures s.NextPage? ==> |s.rest| < |pages|
    ensures s.Restart? ==> retries > 0
  {
    var request := PageRequest(url, auth);
    var (response, rest) := Receive(pages);
    match response
    case Ok(page) => NextPage(page.next, gathered + page.items, rest, request)
    case Status(_, _) => Stop(rest, request)
    case ConnErr =>
      if retries > 0 then Restart(rest, request + [Sleep(BackoffWait(retries), ConnectionBackoff)])
      else Stop(rest, request)
  }

  /** What one pass does with each kind of answer. */
  lemma FetchPageEffects(auth: string, retries: nat, url: string, gathered: seq<Item>, pages: seq<Response<Page>>)
    requires retries <= Retries
    ensures var s := FetchPage(auth, retries, url, gathered, pages);
            // every pass pauses, then requests `url`; only a restart backs off
            && RequestedUrls(s.trace) == [url]
            && (s.Restart? <==> retries > 0 && Receive(pages).0.ConnErr?)
            && Backoffs(s.trace) == (if s.Restart? then [BackoffWait(retries)] else [])
            // a 200 appends the page's items and moves on to its `next` link
            && (Receive(pages).0.Ok? ==>
                  s == NextPage(pages[0].body.next, gathered + pages[0].body.items, pages[1..], PageRequest(url, auth)))
            // any other status ends the walk
            && (Receive(pages).0.Status? ==> s == Stop(pages[1..], PageRequest(url, auth)))
  {
    var request := PageRequest(url, auth);
    PickTwo(request[0], request[1], GetUrlOf);
    PickTwo(request[0], request[1], BackoffOf);
    if retries > 0 {
      var wait := Sleep(BackoffWait(retries), ConnectionBackoff);
      PickThree(request[0], request[1], wait, GetUrlOf);
      PickThree(request[0], request[1], wait, BackoffOf);
      assert request + [wait] == [request[0], request[1], wait];
    }
  }

  /** get_all_playlist_tracks: a fresh walk from the first page. */
  function PlaylistTracks(playlistId: string, auth: string, retries: nat, pages: seq<Response<Page>>): (r: PagesRun)
    requires retries <= Retries
    ensures IsSuffix(r.rest, pages)
    decreases retries, |pages|, 1
  {
    FollowPages(playlistId, auth, retries, Some(FirstPageUrl(playlistId)), [], pages)
  }

  /** The `while url:` loop with the items gathered so far in `gathered`. A
      connection error with budget left restarts the walk from the first page by
      recursion, dropping `gathered`. */
  function FollowPages(playlistId: string, auth: string, retries: nat, url: Option<string>,
                       gathered: seq<Item>, pages: seq<Response<Page>>): (r: PagesRun)
    requires retries <= Retries
    ensures IsSuffix(r.rest, pages)
    decreases retries, |pages|, 0
  {
    if !Truthy(url) then PagesRun(gathered, pages, [])
    else
      match FetchPage(auth, retries, url.value, gathered, pages)
      case NextPage(next, gathered', rest, trace) =>
        var r := FollowPages(playlistId, auth, retries, next, gathered', rest);
        SuffixTransitive(r.rest, rest, pages);
        r.(trace := trace + r.trace)
      case Stop(rest, trace) => PagesRun(gathered, rest, trace)
      case Restart(rest, trace) =>
        var r := PlaylistTracks(playlistId, auth, retries - 1, rest);
        SuffixTransitive(r.rest, rest, pages);
        r.(trace := trace + r.trace)
  }

  /** A run of pages whose `next` links all lead on. */
  predicate Linked(ps: seq<Page>) {
    forall i :: 0 <= i < |ps| ==> Truthy(ps[i].next)
  }

  function AllItems(ps: seq<Page>): seq<Item> {
    if ps == [] then [] else ps[0].items + AllItems(ps[1..])
  }

  /** The urls requested while reading linked pages, starting at `url`. */
  function Visited(url: string, ps: seq<Page>): (urls: seq<string>)
    requires Linked(ps)
    ensures |urls| == |ps|
    decreases |ps|
  {
    if ps == [] then [] else [url] + Visited(ps[0].next.value, ps[1..])
  }

  /** The url the walk reaches after reading linked pages from `url`. */
  function LastUrl(url: string, ps: seq<Page>): string
    requires Linked(ps)
  {
    if ps == [] then url else ps[|ps| - 1].next.value
  }

  function Requests(urls: seq<string>, auth: string): seq<Event> {
    if urls == [] then [] else PageRequest(urls[0], auth) + Requests(urls[1..], auth)
  }

  lemma {:induction false} RequestsTrace(urls: seq<string>, auth: string)
    ensures RequestedUrls(Requests(urls, auth)) == urls && Backoffs(Requests(urls, auth)) == []
  {
    if urls != [] {
      var request := PageRequest(urls[0], auth);
      RequestsTrace(urls[1..], auth);
      PickTwo(request[0], request[1], GetUrlOf);
      PickTwo(request[0], request[1], BackoffOf);
      PickAppend(request, Requests(urls[1..], auth), GetUrlOf);
      PickAppend(request, Requests(urls[1..], auth), BackoffOf);
    }
  }

  /** The i-th url visited is the start and after it the previous page's `next`. */
  lemma {:induction false} VisitedAt(url: string, ps: seq<Page>, i: nat)
    requires Linked(ps) && i < |ps|
    ensures Visited(url, ps)[i] == if i == 0 then url else ps[i - 1].next.value
    decreases i
  {
    if i > 0 {
      assert Linked(ps[1..]);
      VisitedAt(ps[0].next.value, ps[1..], i - 1);
      if i > 1 {
        assert ps[1..][i - 2] == ps[i - 1];
      }
    }
  }

  /** Where the walk over `ps` from `url` lands: the page after `ps`, with
      every page's items gathered and every page's request traced. */
  function AfterLinked(playlistId: string, auth: string, retries: nat, url: string, gathered: seq<Item>,
                       ps: seq<Page>, rest: seq<Response<Page>>): PagesRun
    requires retries <= Retries && Linked(ps)
  {
    var r := FollowPages(playlistId, auth, retries, Some(LastUrl(url, ps)), gathered + AllItems(ps), rest);
    r.(trace := Requests(Visited(url, ps), auth) + r.trace)
  }

  /** Over linked pages the walk reads every page, gathers its items in order
      and requests each `next` link in turn. */
  lemma {:induction false} FollowLinked(playlistId: string, auth: string, retries: nat, url: string,
                                        gathered: seq<Item>, ps: seq<Page>, rest: seq<Response<Page>>)
    requires retries <= Retries && url != "" && Linked(ps)
    ensures FollowPages(playlistId, auth, retries, Some(url), gathered, OkAll(ps) + rest)
            == AfterLinked(playlistId, auth, retries, url, gathered, ps, rest)
    decreases |ps|
  {
    if ps == [] {
      FollowLinkedNil(playlistId, auth, retries, url, gathered, rest);
    } else {
      assert Linked(ps[1..]);
      FollowLinked(playlistId, auth, retries, ps[0].next.value, gathered + ps[0].items, ps[1..], rest);
      FollowLinkedCons(playlistId, auth, retries, url, gathered, ps, rest);
    }
  }

  lemma FollowLinkedNil(playlistId: string, auth: string, retries: nat, url: string,
                        gathered: seq<Item>, rest: seq<Response<Page>>)
    requires retries <= Retries
    ensures FollowPages(playlistId, auth, retries, Some(url), gathered, OkAll([]) + rest)
            == AfterLinked(playlistId, auth, retries, url, gathered, [], rest)
  {
    assert OkAll([]) + rest == rest;
    assert gathered + AllItems([]) == gathered;
  }

  /** One page of `FollowLinked`: the walk from the first page's `next` link on. */
  lemma FollowLinkedCons(playlistId: string, auth: string, retries: nat, url: string,
                         gathered: seq<Item>, ps: seq<Page>, rest: seq<Response<Page>>)
    requires retries <= Retries && url != "" && Linked(ps) && ps != []
    requires FollowPages(playlistId, auth, retries, ps[0].next, gathered + ps[0].items, OkAll(ps[1..]) + rest)
             == AfterLinked(playlistId, auth, retries, ps[0].next.value, gathered + ps[0].items, ps[1..], rest)
    ensures FollowPages(playlistId, auth, retries, Some(url), gathered, OkAll(ps) + rest)
            == AfterLinked(playlistId, auth, retries, url, gathered, ps, rest)
  {
    OkAllCons(ps, rest);
    FollowPagesOk(playlistId, auth, retries, url, gathered, OkAll(ps) + rest);
    AfterLinkedCons(playlistId, auth, retries, url, gathered, ps, rest);
  }

  lemma AfterLinkedCons(playlistId: string, auth: string, retries: nat, url: string,
                        gathered: seq<Item>, ps: seq<Page>, rest: seq<Response<Page>>)
    requires retries <= Retries && Linked(ps) && ps != []
    ensures var inner := AfterLinked(playlistId, auth, retries, ps[0].next.value, gathered + ps[0].items, ps[1..], rest);
            AfterLinked(playlistId, auth, retries, url, gathered, ps, rest) == inner.(trace := PageRequest(url, auth) + inner.trace)
  {
    var next := ps[0].next.value;
    LinkedCons(url, gathered, ps, auth);
    var r := FollowPages(playlistId, auth, retries, Some(LastUrl(url, ps)), gathered + AllItems(ps), rest);
    assert PageRequest(url, auth) + (Requests(Visited(next, ps[1..]), auth) + r.trace)
           == Requests(Visited(url, ps), auth) + r.trace;
  }

  /** The first linked page split off: where the rest of the walk lands, what it
      has gathered, and what it has requested. */
  lemma LinkedCons(url: string, gathered: seq<Item>, ps: seq<Page>, auth: string)
    requires Linked(ps) && ps != []
    ensures Linked(ps[1..])
    ensures LastUrl(ps[0].next.value, ps[1..]) == LastUrl(url, ps)
    ensures gathered + ps[0].items + AllItems(ps[1..]) == gathered + AllItems(ps)
    ensures Requests(Visited(url, ps), auth) == PageRequest(url, auth) + Requests(Visited(ps[0].next.value, ps[1..]), auth)
  {
    LastUrlCons(url, ps);
    AllItemsCons(gathered, ps);
    RequestsCons(url, ps[0].next.value, ps, auth);
  }

  lemma LastUrlCons(url: string, ps: seq<Page>)
    requires Linked(ps) && ps != []
    ensures Linked(ps[1..]) && LastUrl(ps[0].next.value, ps[1..]) == LastUrl(url, ps)
  {
    assert Linked(ps[1..]);
    if |ps| > 1 {
      assert ps[1..][|ps| - 2] == ps[|ps| - 1];
    }
  }

  lemma AllItemsCons(gathered: seq<Item>, ps: seq<Page>)
    requires ps != []
    ensures gathered + ps[0].items + AllItems(ps[1..]) == gathered + AllItems(ps)
  {
    assert AllItems(ps) == ps[0].items + AllItems(ps[1..]);
  }

  lemma RequestsCons(url: string, next: string, ps: seq<Page>, auth: string)
    requires Linked(ps) && ps != [] && next == ps[0].next.value
    ensures Requests(Visited(url, ps), auth) == PageRequest(url, auth) + Requests(Visited(next, ps[1..]), auth)
  {
    var visited := Visited(url, ps);
    assert visited[0] == url && visited[1..] == Visited(next, ps[1..]);
  }

  /** A 200 page continues the walk at its `next` link. */
  lemma FollowPagesOk(playlistId: string, auth: string, retries: nat, url: string, gathered: seq<Item>,
                      pages: seq<Response<Page>>)
    requires retries <= Retries && url != "" && |pages| > 0 && pages[0].Ok?
    ensures var r := FollowPages(playlistId, auth, retries, pages[0].body.next, gathered + pages[0].body.items, pages[1..]);
            FollowPages(playlistId, auth, retries, Some(url), gathered, pages) == r.(trace := PageRequest(url, auth) + r.trace)
  {
    assert FetchPage(auth, retries, url, gathered, pages)
           == NextPage(pages[0].body.next, gathered + pages[0].body.items, pages[1..], PageRequest(url, auth));
  }

  lemma OkAllCons(ps: seq<Page>, rest: seq<Response<Page>>)
    requires ps != []
    ensures |OkAll(ps) + rest| > 0 && (OkAll(ps) + rest)[0] == Ok(ps[0])
    ensures (OkAll(ps) + rest)[1..] == OkAll(ps[1..]) + rest
  {
    assert (OkAll(ps) + rest)[1..] == OkAll(ps)[1..] + rest;
  }

  /** Each pass of the walk in terms of the pass's outcome. */
  lemma FollowPagesUnfold(playlistId: string, auth: string, retries: nat, url: string, gathered: seq<Item>,
                          pages: seq<Response<Page>>)
    requires retries <= Retries && url != ""
    ensures var s := FetchPage(auth, retries, url, gathered, pages);
            var r := FollowPages(playlistId, auth, retries, Some(url), gathered, pages);
            && (s.NextPage? ==> var inner := FollowPages(playlistId, auth, retries, s.url, s.gathered, s.rest);
                                r == inner.(trace := s.trace + inner.trace))
            && (s.Stop? ==> r == PagesRun(gathered, s.rest, s.trace))
            && (s.Restart? ==> var inner := PlaylistTracks(playlistId, auth, retries - 1, s.rest);
                               r == inner.(trace := s.trace + inner.trace))
  {
  }

  /** A 200 page whose `next` is null is the last one read. */
  lemma FollowPagesEnd(playlistId: string, auth: string, retries: nat, url: string, gathered: seq<Item>,
                       p: Page, rest: seq<Response<Page>>)
    requires retries <= Retries && url != "" && !Truthy(p.next)
    ensures FollowPages(playlistId, auth, retries, Some(url), gathered, [Ok(p)] + rest)
            == PagesRun(gathered + p.items, rest, PageRequest(url, auth))
  {
    FollowPagesOk(playlistId, auth, retries, url, gathered, [Ok(p)] + rest);
    assert ([Ok(p)] + rest)[1..] == rest;
    assert PageRequest(url, auth) + [] == PageRequest(url, auth);
  }

  /** A page that is not a 200 either ends the walk with what was gathered or,
      on a connection error with budget left, starts it over. */
  lemma FollowPagesFail(playlistId: string, auth: string, retries: nat, url: string, gathered: seq<Item>,
                        answer: Response<Page>, rest: seq<Response<Page>>)
    requires retries <= Retries && url != "" && !answer.Ok?
    ensures var r := FollowPages(playlistId, auth, retries, Some(url), gathered, [answer] + rest);
            if answer.ConnErr? && retries > 0 then
              var r' := PlaylistTracks(playlistId, auth, retries - 1, rest);
              r == r'.(trace := PageRequest(url, auth) + [Sleep(BackoffWait(retries), ConnectionBackoff)] + r'.trace)
            else
              r == PagesRun(gathered, rest, PageRequest(url, auth))
  {
    assert ([answer] + rest)[0] == answer && ([answer] + rest)[1..] == rest;
  }

  lemma LastUrlNonEmpty(url: string, ps: seq<Page>)
    requires url != "" && Linked(ps)
    ensures LastUrl(url, ps) != ""
  {
    if ps != [] {
      assert Truthy(ps[|ps| - 1].next);
    }
  }

  /** The requests of a complete walk: the first page, then each `next` link. */
  lemma WalkUrls(first: string, front: seq<Page>, auth: string)
    requires Linked(front)
    ensures var trace := Requests(Visited(first, front), auth) + PageRequest(LastUrl(first, front), auth);
            var urls := RequestedUrls(trace);
            && Backoffs(trace) == [] && |urls| == |front| + 1 && urls[0] == first
            && forall i :: 0 < i <= |front| ==> urls[i] == front[i - 1].next.value
  {
    var visited := Visited(first, front);
    var last := LastUrl(first, front);
    RequestsAppend(visited, last, auth);
    RequestsTrace(visited + [last], auth);
    var urls := visited + [last];
    forall i | 0 < i <= |front|
      ensures urls[i] == front[i - 1].next.value
    {
      if i < |front| {
        VisitedAt(first, front, i);
      }
    }
    if front != [] {
      VisitedAt(first, front, 0);
    }
  }

  /** When every page is a 200, the walk returns all pages' items in order,
      consumes exactly those pages, never backs off, and requests the first
      page and then each page's `next` link until one is null. */
  lemma WalkComplete(playlistId: string, auth: string, retries: nat, front: seq<Page>, lastPage: Page,
                     rest: seq<Response<Page>>)
    requires retries <= Retries && Linked(front) && !Truthy(lastPage.next)
    ensures var r := PlaylistTracks(playlistId, auth, retries, OkAll(front) + [Ok(lastPage)] + rest);
            var urls := RequestedUrls(r.trace);
            && r.items == AllItems(front) + lastPage.items && r.rest == rest && Backoffs(r.trace) == []
            && |urls| == |front| + 1 && urls[0] == FirstPageUrl(playlistId)
            && forall i :: 0 < i <= |front| ==> urls[i] == front[i - 1].next.value
  {
    var first := FirstPageUrl(playlistId);
    Regroup(OkAll(front), Ok(lastPage), rest);
    FollowLinked(playlistId, auth, retries, first, [], front, [Ok(lastPage)] + rest);
    LastUrlNonEmpty(first, front);
    FollowPagesEnd(playlistId, auth, retries, LastUrl(first, front), [] + AllItems(front), lastPage, rest);
    WalkUrls(first, front, auth);
    assert [] + AllItems(front) == AllItems(front);
  }

  lemma {:induction false} RequestsAppend(urls: seq<string>, url: string, auth: string)
    ensures Requests(urls + [url], auth) == Requests(urls, auth) + PageRequest(url, auth)
  {
    if urls == [] {
      assert urls + [url] == [url];
      assert [url][1..] == [];
    } else {
      assert (urls + [url])[0] == urls[0];
      assert (urls + [url])[1..] == urls[1..] + [url];
      RequestsAppend(urls[1..], url, auth);
    }
  }

  lemma Regroup<T>(a: seq<T>, x: T, b: seq<T>)
    ensures a + [x] + b == a + ([x] + b)
  {
  }

  /** A page that is not a 200 after linked pages: a non-200 status, or a
      connection error with no budget left, ends the walk with the items of the
      pages before it; a connection error with budget left starts the walk over
      with one retry less, dropping those items. */
  lemma WalkFails(playlistId: string, auth: string, retries: nat, ps: seq<Page>, answer: Response<Page>,
                  rest: seq<Response<Page>>)
    requires retries <= Retries && Linked(ps) && !answer.Ok?
    ensures var r := PlaylistTracks(playlistId, auth, retries, OkAll(ps) + [answer] + rest);
            if answer.ConnErr? && retries > 0 then
              var r' := PlaylistTracks(playlistId, auth, retries - 1, rest);
              r.items == r'.items && r.rest == r'.rest
            else
              r.items == AllItems(ps) && r.rest == rest
  {
    var first := FirstPageUrl(playlistId);
    Regroup(OkAll(ps), answer, rest);
    FollowLinked(playlistId, auth, retries, first, [], ps, [answer] + rest);
    LastUrlNonEmpty(first, ps);
    FollowPagesFail(playlistId, auth, retries, LastUrl(first, ps), [] + AllItems(ps), answer, rest);
    assert [] + AllItems(ps) == AllItems(ps);
  }

  /** The walk backs off along the doubling schedule and at most `retries`
      times, so the restarts nest at most five deep. */
  lemma {:induction false} WalkBackoffs(playlistId: string, auth: string, retries: nat, url: Option<string>,
                                        gathered: seq<Item>, pages: seq<Response<Page>>)
    requires retries <= Retries
    ensures IsPrefix(Backoffs(FollowPages(playlistId, auth, retries, url, gathered, pages).trace), BackoffSchedule(retries))
    decreases retries, |pages|
  {
    if Truthy(url) {
      var s := FetchPage(auth, retries, url.value, gathered, pages);
      if s.NextPage? {
        WalkBackoffs(playlistId, auth, retries, s.url, s.gathered, s.rest);
      } else if s.Restart? {
        WalkBackoffs(playlistId, auth, retries - 1, Some(FirstPageUrl(playlistId)), [], s.rest);
      }
      WalkBackoffsStep(playlistId, auth, retries, url.value, gathered, pages);
    } else {
      assert FollowPages(playlistId, auth, retries, url, gathered, pages).trace == [];
    }
  }

  /** One pass of `WalkBackoffs`, given the property for the walk that follows it. */
  lemma WalkBackoffsStep(playlistId: string, auth: string, retries: nat, url: string,
                         gathered: seq<Item>, pages: seq<Response<Page>>)
    requires retries <= Retries && url != ""
    requires var s := FetchPage(auth, retries, url, gathered, pages);
             s.NextPage? ==>
               IsPrefix(Backoffs(FollowPages(playlistId, auth, retries, s.url, s.gathered, s.rest).trace), BackoffSchedule(retries))
    requires var s := FetchPage(auth, retries, url, gathered, pages);
             s.Restart? ==>
               IsPrefix(Backoffs(PlaylistTracks(playlistId, auth, retries - 1, s.rest).trace), BackoffSchedule(retries - 1))
    ensures IsPrefix(Backoffs(FollowPages(playlistId, auth, retries, Some(url), gathered, pages).trace), BackoffSchedule(retries))
  {
    var s := FetchPage(auth, retries, url, gathered, pages);
    FetchPageEffects(auth, retries, url, gathered, pages);
    FollowPagesUnfold(playlistId, auth, retries, url, gathered, pages);
    if s.NextPage? {
      var inner := FollowPages(playlistId, auth, retries, s.url, s.gathered, s.rest);
      PickAppend(s.trace, inner.trace, BackoffOf);
    } else if s.Restart? {
      var inner := PlaylistTracks(playlistId, auth, retries - 1, s.rest);
      PickAppend(s.trace, inner.trace, BackoffOf);
      ScheduleCons(retries, retries - 1, [BackoffWait(retries)], Backoffs(inner.trace));
    }
  }

  // ---------------------------------------------------------------------------
  // get_audio_features_batch

  datatype BatchRun = BatchRun(features: Option<seq<Option<Features>>>, rest: seq<FeaturesAnswer>, trace: seq<Event>)

  function BatchRequest(ids: seq<string>, auth: string): Event {
    Get(FeaturesEndpoint, [("ids", JoinWith(",", ids))], Some(auth))
  }

  /** What one pass of the `while retries > 0:` body leads to. */
  datatype BatchStep =
    | Answered(features: Option<seq<Option<Features>>>, rest: seq<FeaturesAnswer>, trace: seq<Event>)
    | Retry(budget: nat, rest: seq<FeaturesAnswer>, trace: seq<Event>)

  function TryBatch(ids: seq<string>, auth: string, retries: nat, script: seq<FeaturesAnswer>): (s: BatchStep)
    requires 1 <= retries <= Retries
    ensures s.rest == Receive(script).1
    ensures s.Retry? ==> retries - 1 <= s.budget <= retries && (|s.rest| < |script| || s.budget < retries)
    // only a connection error spends an attempt, and it backs off first
    ensures s.Retry? && s.budget < retries <==> Receive(script).0.ConnErr?
    ensures Backoffs(s.trace) == if s.Retry? && s.budget < retries then [BackoffWait(retries)] else []
    // a 200 returns `audio_features`
    ensures Receive(script).0.Ok? ==> s == Answered(Some(script[0].body), script[1..], [BatchRequest(ids, auth)])
    // a 429 waits `Retry-After` seconds and asks again
    ensures var answer := Receive(script).0;
            answer.Status? && answer.code == 429 ==>
              s == Retry(retries, script[1..], [BatchRequest(ids, auth), Sleep(RetryAfterWait(answer.retryAfter), RateLimited)])
    // any other status gives up
    ensures var answer := Receive(script).0;
            answer.Status? && answer.code != 429 ==> s == Answered(None, script[1..], [BatchRequest(ids, auth)])
  {
    var request := BatchRequest(ids, auth);
    PickTwo(request, request, BackoffOf);
    var (response, rest) := Receive(script);
    match response
    case Ok(features) => Answered(Some(features), rest, [request])
    case Status(code, retryAfter) =>
      if code == 429 then
        PickTwo(request, Sleep(RetryAfterWait(retryAfter), RateLimited), BackoffOf);
        Retry(retries, rest, [request, Sleep(RetryAfterWait(retryAfter), RateLimited)])
      else
        Answered(None, rest, [request])
    case ConnErr =>
      PickTwo(request, Sleep(BackoffWait(retries), ConnectionBackoff), BackoffOf);
      Retry(retries - 1, rest, [request, Sleep(BackoffWait(retries), ConnectionBackoff)])
  }

  /** get_audio_features_batch: a 200 returns `audio_features`, a 429 waits and
      asks again, a connection error backs off and spends one attempt, any other
      status gives up at once; with no attempt left it returns None. */
  function GetAudioFeaturesBatch(ids: seq<string>, auth: string, retries: nat, script: seq<FeaturesAnswer>): (r: BatchRun)
    requires retries <= Retries
    ensures IsSuffix(r.rest, script)
    ensures r.features.Some? ==> Ok(r.features.value) in script
    decreases |script|, retries
  {
    if retries == 0 then BatchRun(None, script, [])
    else
      match TryBatch(ids, auth, retries, script)
      case Answered(features, rest, trace) => BatchRun(features, rest, trace)
      case Retry(budget, rest, trace) =>
        var r := GetAudioFeaturesBatch(ids, auth, budget, rest);
        SuffixTransitive(r.rest, rest, script);
        r.(trace := trace + r.trace)
  }

  /** The batch fetcher's back-off waits follow the doubling schedule, and a
      connection error with the last attempt ends in None. */
  lemma {:induction false} BatchBackoffs(ids: seq<string>, auth: string, retries: nat, script: seq<FeaturesAnswer>)
    requires retries <= Retries
    ensures var r := GetAudioFeaturesBatch(ids, auth, retries, script);
            && IsPrefix(Backoffs(r.trace), BackoffSchedule(retries))
            && (|Backoffs(r.trace)| == retries ==> r.features.None?)
    decreases |script|, retries
  {
    var r := GetAudioFeaturesBatch(ids, auth, retries, script);
    if retries == 0 {
      assert r.trace == [];
    } else {
      match TryBatch(ids, auth, retries, script)
      case Answered(features, rest, trace) =>
      case Retry(budget, rest, trace) =>
        var inner := GetAudioFeaturesBatch(ids, auth, budget, rest);
        BatchBackoffs(ids, auth, budget, rest);
        PickAppend(trace, inner.trace, BackoffOf);
        ScheduleCons(retries, budget, Backoffs(trace), Backoffs(inner.trace));
    }
  }

  /** The fetcher after its first answer, in terms of that pass's outcome. */
  lemma BatchFirstAnswer(ids: seq<string>, auth: string, retries: nat, answer: FeaturesAnswer, rest: seq<FeaturesAnswer>)
    requires 1 <= retries <= Retries
    ensures var s := TryBatch(ids, auth, retries, [answer] + rest);
            var r := GetAudioFeaturesBatch(ids, auth, retries, [answer] + rest);
            && s.rest == rest
            && (s.Answered? ==> r == BatchRun(s.features, rest, s.trace))
            && (s.Retry? ==> var inner := GetAudioFeaturesBatch(ids, auth, s.budget, rest);
                             r == inner.(trace := s.trace + inner.trace))
  {
    assert ([answer] + rest)[0] == answer && ([answer] + rest)[1..] == rest;
  }

  /** A 200 returns its `audio_features` after the one request. */
  lemma BatchAnswered(ids: seq<string>, auth: string, retries: nat, features: seq<Option<Features>>,
                      rest: seq<FeaturesAnswer>)
    requires 1 <= retries <= Retries
    ensures GetAudioFeaturesBatch(ids, auth, retries, [Ok(features)] + rest)
            == BatchRun(Some(features), rest, [BatchRequest(ids, auth)])
  {
    BatchFirstAnswer(ids, auth, retries, Ok(features), rest);
  }

  /** A 429 costs one `Retry-After` wait (30 s without the header) and no attempt. */
  lemma BatchRateLimitKeepsBudget(ids: seq<string>, auth: string, retries: nat, header: Option<nat>,
                                  rest: seq<FeaturesAnswer>)
    requires 1 <= retries <= Retries
    ensures var r := GetAudioFeaturesBatch(ids, auth, retries, [Status(429, header)] + rest);
            var r' := GetAudioFeaturesBatch(ids, auth, retries, rest);
            r.features == r'.features && r.rest == r'.rest
            && r.trace == [BatchRequest(ids, auth), Sleep(RetryAfterWait(header), RateLimited)] + r'.trace
  {
    BatchFirstAnswer(ids, auth, retries, Status(429, header), rest);
  }

  /** Any status but 200 and 429 returns None after the one request, without a wait. */
  lemma BatchGivesUpOnStatus(ids: seq<string>, auth: string, retries: nat, code: ErrorStatus, header: Option<nat>,
                             rest: seq<FeaturesAnswer>)
    requires 1 <= retries <= Retries && code != 429
    ensures GetAudioFeaturesBatch(ids, auth, retries, [Status(code, header)] + rest)
            == BatchRun(None, rest, [BatchRequest(ids, auth)])
  {
    BatchFirstAnswer(ids, auth, retries, Status(code, header), rest);
  }

  /** A connection error with attempts left backs off once and asks again with one attempt less. */
  lemma BatchConnErrStep(ids: seq<string>, auth: string, retries: nat, script: seq<FeaturesAnswer>,
                         more: seq<FeaturesAnswer>)
    requires 1 <= retries <= Retries && |script| > 0 && script[0] == ConnErr && script[1..] == more
    ensures var r := GetAudioFeaturesBatch(ids, auth, retries, script);
            var inner := GetAudioFeaturesBatch(ids, auth, retries - 1, more);
            r.features == inner.features && r.rest == inner.rest
            && |Backoffs(r.trace)| == 1 + |Backoffs(inner.trace)|
  {
    var step := TryBatch(ids, auth, retries, script);
    assert step.Retry? && step.budget == retries - 1 && step.rest == more;
    var inner := GetAudioFeaturesBatch(ids, auth, retries - 1, more);
    var r := GetAudioFeaturesBatch(ids, auth, retries, script);
    assert r == inner.(trace := step.trace + inner.trace);
    PickAppend(step.trace, inner.trace, BackoffOf);
  }

  /** k connection errors in a row spend k attempts and sleep k back-off waits. */
  lemma {:induction false} BatchConnErrsExhaust(ids: seq<string>, auth: string, retries: nat, script: seq<FeaturesAnswer>)
    requires retries <= Retries && LeadingConnErrs(script, retries)
    ensures var r := GetAudioFeaturesBatch(ids, auth, retries, script);
            r.features == None && r.rest == script[retries..] && |Backoffs(r.trace)| == retries
    decreases retries
  {
    if retries > 0 {
      var more := script[1..];
      assert LeadingConnErrs(more, retries - 1) by {
        forall i | 0 <= i < retries - 1 ensures more[i].ConnErr? {
          assert more[i] == script[i + 1];
        }
      }
      BatchConnErrsExhaust(ids, auth, retries - 1, more);
      assert more[retries - 1..] == script[retries..];
      BatchConnErrsExhaustStep(ids, auth, retries, script, more, script[retries..]);
    }
  }

  /** The inductive step of BatchConnErrsExhaust, with the shorter run's outcome as a premise. */
  lemma BatchConnErrsExhaustStep(ids: seq<string>, auth: string, retries: nat, script: seq<FeaturesAnswer>,
                                 more: seq<FeaturesAnswer>, rest: seq<FeaturesAnswer>)
    requires 1 <= retries <= Retries && |script| > 0 && script[0] == ConnErr && script[1..] == more
    requires var inner := GetAudioFeaturesBatch(ids, auth, retries - 1, more);
             inner.features == None && inner.rest == rest && |Backoffs(inner.trace)| == retries - 1
    ensures var r := GetAudioFeaturesBatch(ids, auth, retries, script);
            r.features == None && r.rest == rest && |Backoffs(r.trace)| == retries
  {
    BatchConnErrStep(ids, auth, retries, script, more);
  }

  /** Five connection errors in a row: waits of 1, 2, 4, 8 and 16 seconds, then None. */
  lemma BatchFiveConnectionErrors(ids: seq<string>, auth: string, script: seq<FeaturesAnswer>)
    requires LeadingConnErrs(script, Retries)
    ensures var r := GetAudioFeaturesBatch(ids, auth, Retries, script);
            r.features == None && Backoffs(r.trace) == [1, 2, 4, 8, 16]
  {
    BatchConnErrsExhaust(ids, auth, Retries, script);
    BatchBackoffs(ids, auth, Retries, script);
    FullBackoffSchedule();
  }

  // ---------------------------------------------------------------------------
  // The batch-of-100 loop and row emission

  /** The id an item contributes: a non-null track with a truthy id. */
  function ItemId(item: Item): (ids: seq<string>)
    ensures |ids| <= 1
  {
    if item.track.Some? && Truthy(item.track.value.id) then [item.track.value.id.value] else []
  }

  /** The ids the `if track:` / `if track_id:` guards let into the batches, in item order. */
  function FilteredIds(items: seq<Item>): seq<string> {
    if items == [] then [] else ItemId(items[0]) + FilteredIds(items[1..])
  }

  /** The item has a non-null track whose id is the non-empty string `x`. */
  predicate CarriesId(item: Item, x: string) {
    item.track.Some? && Truthy(item.track.value.id) && item.track.value.id.value == x
  }

  /** An id is batched exactly when some item has a track with that truthy id. */
  lemma {:induction false} FilteredIdsMembers(items: seq<Item>)
    ensures forall x :: x in FilteredIds(items) <==> exists k :: 0 <= k < |items| && CarriesId(items[k], x)
    decreases |items|
  {
    if items != [] {
      FilteredIdsMembers(items[1..]);
      forall x | x in FilteredIds(items)
        ensures exists k :: 0 <= k < |items| && CarriesId(items[k], x)
      {
        if x !in ItemId(items[0]) {
          assert x in FilteredIds(items[1..]);
          var k :| 0 <= k < |items[1..]| && CarriesId(items[1..][k], x);
          assert CarriesId(items[k + 1], x);
        }
      }
      forall x, k | 0 <= k < |items| && CarriesId(items[k], x)
        ensures x in FilteredIds(items)
      {
        if k > 0 {
          assert CarriesId(items[1..][k - 1], x);
        }
      }
    }
  }

  /** The filter keeps item order: the ids of two runs of items one after the
      other are the ids of the first run followed by those of the second. */
  lemma {:induction false} FilteredIdsAppend(a: seq<Item>, b: seq<Item>)
    ensures FilteredIds(a + b) == FilteredIds(a) + FilteredIds(b)
    decreases |a|
  {
    if a != [] {
      assert (a + b)[1..] == a[1..] + b;
      FilteredIdsAppend(a[1..], b);
    } else {
      assert a + b == b;
    }
  }

  function NonNull(features: seq<Option<Features>>): seq<Features> {
    if features == [] then []
    else (if features[0].Some? then [features[0].value] else []) + NonNull(features[1..])
  }

  /** The `track_info` row for one feature record, named after `track`. */
  function RowFor(f: Features, track: Track, key: string): FeatureRow {
    FeatureRow(f.id, track.name, track.artist, f.values, key)
  }

  /** The `for features in audio_features: if features:` loop: one row per
      non-null record, in order, each named after `track`, which must then not
      be None. */
  function EmitRows(features: seq<Option<Features>>, track: Option<Track>, key: string): (r: Outcome<seq<FeatureRow>>)
    ensures r.Raised? <==> track.None? && |NonNull(features)| > 0
    ensures r.Raised? ==> r.fault == NoneSubscripted
    ensures r.Done? ==> |r.value| == |NonNull(features)|
    ensures r.Done? ==> forall k :: 0 <= k < |r.value| ==> r.value[k] == RowFor(NonNull(features)[k], track.value, key)
  {
    if features == [] then Done([])
    else
      var tail := EmitRows(features[1..], track, key);
      match features[0]
      case None => tail
      case Some(f) =>
        if track.None? then Raised(NoneSubscripted)
        else
          match tail
          case Done(rows) =>
            var kept := NonNull(features);
            assert kept == [f] + NonNull(features[1..]);
            Done([RowFor(f, track.value, key)] + rows)
          case Raised(fault) => Raised(fault)
  }

  /** `if audio_features:` — nothing to emit when the batch failed. */
  function EmitBatch(features: Option<seq<Option<Features>>>, track: Option<Track>, key: string): (r: Outcome<seq<FeatureRow>>)
    // a failed batch adds nothing; a returned one raises exactly when a record
    // is non-null and the track to name it after is None
    ensures features.None? ==> r == Done([])
    ensures r.Raised? <==> features.Some? && track.None? && |NonNull(features.value)| > 0
    ensures r.Done? && features.Some? ==>
              |r.value| == |NonNull(features.value)|
              && forall k :: 0 <= k < |r.value| ==> r.value[k] == RowFor(NonNull(features.value)[k], track.value, key)
  {
    match features
    case None => Done([])
    case Some(fs) => EmitRows(fs, track, key)
  }

  function Concat(batches: seq<seq<string>>): seq<string> {
    if batches == [] then [] else batches[0] + Concat(batches[1..])
  }

  /** Every batch sent holds 1 to 100 ids and all but the last exactly 100. */
  predicate WellSized(batches: seq<seq<string>>) {
    && (forall i :: 0 <= i < |batches| ==> 1 <= |batches[i]| <= BatchSize)
    && (forall i :: 0 <= i < |batches| - 1 ==> |batches[i]| == BatchSize)
  }

  datatype ItemsRun = ItemsRun(rows: Outcome<seq<FeatureRow>>, batches: seq<seq<string>>,
                               rest: seq<FeaturesAnswer>, trace: seq<Event>)

  /** Rows already built, then whatever the rest of the pass builds. */
  function Prepend(rows: seq<FeatureRow>, later: Outcome<seq<FeatureRow>>): Outcome<seq<FeatureRow>> {
    match later
    case Done(tail) => Done(rows + tail)
    case Raised(fault) => Raised(fault)
  }

  /** Send one batch and build its rows, named after `track`. */
  function Flush(batch: seq<string>, track: Option<Track>, key: string, auth: string,
                 feats: seq<FeaturesAnswer>): (r: ItemsRun)
    ensures r.batches == [batch] && IsSuffix(r.rest, feats)
    ensures track.Some? ==> r.rows.Done?
    ensures r.rows.Done? ==> forall k :: 0 <= k < |r.rows.value| ==> r.rows.value[k].playlistType == key
  {
    var f := GetAudioFeaturesBatch(batch, auth, Retries, feats);
    ItemsRun(EmitBatch(f.features, track, key), [batch], f.rest, f.trace)
  }

  /** The `for item in playlist_tracks` loop and the final remainder batch.
      `batch` is the batch under construction and `last` the `track` variable,
      which after the loop still holds the last item's track. */
  function BatchItems(items: seq<Item>, key: string, auth: string, batch: seq<string>, last: Option<Track>,
                      feats: seq<FeaturesAnswer>): (r: ItemsRun)
    requires |batch| < BatchSize
    ensures IsSuffix(r.rest, feats)
    ensures r.rows.Done? ==> forall k :: 0 <= k < |r.rows.value| ==> r.rows.value[k].playlistType == key
    decreases |items|
  {
    if items == [] then
      if batch == [] then ItemsRun(Done([]), [], feats, []) else Flush(batch, last, key, auth, feats)
    else
      var track := items[0].track;
      var grown := batch + ItemId(items[0]);
      if |grown| < BatchSize then BatchItems(items[1..], key, auth, grown, track, feats)
      else
        var pause := [Sleep(PageDelay, Pacing)];
        var f := Flush(grown, track, key, auth, feats);
        if f.rows.Raised? then f.(trace := pause + f.trace)
        else
          var r := BatchItems(items[1..], key, auth, [], track, f.rest);
          SuffixTransitive(r.rest, f.rest, feats);
          ItemsRun(Prepend(f.rows.value, r.rows), f.batches + r.batches, r.rest, pause + f.trace + r.trace)
  }

  /** A batch fills up only on an item whose track is not null, so a full batch
      never raises. */
  lemma FullBatchNames(batch: seq<string>, item: Item)
    requires |batch| < BatchSize && |batch + ItemId(item)| == BatchSize
    ensures item.track.Some? && |ItemId(item)| == 1
  {
  }

  lemma ConcatCons(b: seq<string>, bs: seq<seq<string>>)
    ensures Concat([b] + bs) == b + Concat(bs)
  {
    assert ([b] + bs)[0] == b && ([b] + bs)[1..] == bs;
  }

  lemma WellSizedCons(b: seq<string>, bs: seq<seq<string>>)
    requires |b| == BatchSize && WellSized(bs)
    ensures WellSized([b] + bs)
  {
    assert forall i :: 1 <= i < |bs| + 1 ==> ([b] + bs)[i] == bs[i - 1];
  }

  /** The batches sent are the filtered ids, in order, cut into hundreds with a
      smaller remainder last. */
  lemma {:induction false} BatchesPartitionIds(items: seq<Item>, key: string, auth: string, batch: seq<string>,
                                               last: Option<Track>, feats: seq<FeaturesAnswer>)
    requires |batch| < BatchSize
    ensures var r := BatchItems(items, key, auth, batch, last, feats);
            Concat(r.batches) == batch + FilteredIds(items) && WellSized(r.batches)
    decreases |items|
  {
    if items == [] {
      if batch != [] {
        ConcatCons(batch, []);
      }
    } else {
      var track := items[0].track;
      var grown := batch + ItemId(items[0]);
      assert batch + FilteredIds(items) == grown + FilteredIds(items[1..]);
      if |grown| < BatchSize {
        BatchesPartitionIds(items[1..], key, auth, grown, track, feats);
      } else {
        FullBatchNames(batch, items[0]);
        var f := Flush(grown, track, key, auth, feats);
        var inner := BatchItems(items[1..], key, auth, [], track, f.rest);
        BatchesPartitionIds(items[1..], key, auth, [], track, f.rest);
        ConcatCons(grown, inner.batches);
        WellSizedCons(grown, inner.batches);
        assert [] + FilteredIds(items[1..]) == FilteredIds(items[1..]);
      }
    }
  }

  lemma NonNullTwo(x: Features, y: Features)
    ensures NonNull([Some(x)]) == [x]
    ensures NonNull([Some(x), Some(y)]) == [x, y]
  {
    assert [Some(x)][1..] == [];
    assert NonNull([Some(x)]) == [x] + NonNull([]);
    assert [Some(x), Some(y)][1..] == [Some(y)];
    assert [Some(y)][1..] == [];
    assert NonNull([Some(y)]) == [y] + NonNull([]);
  }

  /** An item that does not fill the batch only adds its id, if any. */
  lemma BatchItemsGrow(items: seq<Item>, key: string, auth: string, batch: seq<string>, last: Option<Track>,
                       feats: seq<FeaturesAnswer>)
    requires |batch| < BatchSize && items != [] && |batch + ItemId(items[0])| < BatchSize
    ensures BatchItems(items, key, auth, batch, last, feats)
            == BatchItems(items[1..], key, auth, batch + ItemId(items[0]), items[0].track, feats)
  {
  }

  /** After the last item, what is left of the batch is sent, named after the last track. */
  lemma BatchItemsEnd(key: string, auth: string, batch: seq<string>, last: Option<Track>, feats: seq<FeaturesAnswer>)
    requires 0 < |batch| < BatchSize
    ensures BatchItems([], key, auth, batch, last, feats) == Flush(batch, last, key, auth, feats)
  {
  }

  /** Names are taken from the item that closes the batch, not from the id a
      row belongs to: two tracks in one remainder batch both carry the second
      track's name and artist. */
  lemma RowsNamedAfterLastItem(key: string, auth: string, a: Track, b: Track, fa: FeatureVector, fb: FeatureVector,
                               rest: seq<FeaturesAnswer>)
    requires Truthy(a.id) && Truthy(b.id)
    ensures var items := [Item(Some(a)), Item(Some(b))];
            var answer := Ok([Some(Features(a.id.value, fa)), Some(Features(b.id.value, fb))]);
            BatchItems(items, key, auth, [], None, [answer] + rest).rows
            == Done([FeatureRow(a.id.value, b.name, b.artist, fa, key), FeatureRow(b.id.value, b.name, b.artist, fb, key)])
  {
    var items := [Item(Some(a)), Item(Some(b))];
    var fs := [Some(Features(a.id.value, fa)), Some(Features(b.id.value, fb))];
    var ids := [a.id.value, b.id.value];
    var script := [Ok(fs)] + rest;
    assert items[1..] == [Item(Some(b))] && [Item(Some(b))][1..] == [];
    BatchItemsGrow(items, key, auth, [], None, script);
    assert [] + ItemId(items[0]) == [a.id.value];
    BatchItemsGrow([Item(Some(b))], key, auth, [a.id.value], Some(a), script);
    assert [a.id.value] + ItemId(Item(Some(b))) == ids;
    BatchItemsEnd(key, auth, ids, Some(b), script);
    BatchAnswered(ids, auth, Retries, fs, rest);
    NonNullTwo(Features(a.id.value, fa), Features(b.id.value, fb));
    var rows := EmitRows(fs, Some(b), key);
    assert rows.Done? && |rows.value| == 2;
    assert rows.value[0] == FeatureRow(a.id.value, b.name, b.artist, fa, key);
    assert rows.value[1] == FeatureRow(b.id.value, b.name, b.artist, fb, key);
    assert rows.value == [FeatureRow(a.id.value, b.name, b.artist, fa, key), FeatureRow(b.id.value, b.name, b.artist, fb, key)];
    assert Flush(ids, Some(b), key, auth, script).rows == rows;
  }

  /** A remainder batch after an item whose track is null raises: `track` is None
      when the remainder rows are built. */
  lemma RemainderAfterNullTrackRaises(key: string, auth: string, a: Track, fa: FeatureVector, rest: seq<FeaturesAnswer>)
    requires Truthy(a.id)
    ensures var answer := Ok([Some(Features(a.id.value, fa))]);
            BatchItems([Item(Some(a)), Item(None)], key, auth, [], None, [answer] + rest).rows == Raised(NoneSubscripted)
  {
    var items := [Item(Some(a)), Item(None)];
    var fs := [Some(Features(a.id.value, fa))];
    var script := [Ok(fs)] + rest;
    assert items[1..] == [Item(None)] && [Item(None)][1..] == [];
    BatchItemsGrow(items, key, auth, [], None, script);
    assert [] + ItemId(items[0]) == [a.id.value];
    BatchItemsGrow([Item(None)], key, auth, [a.id.value], Some(a), script);
    assert [a.id.value] + ItemId(Item(None)) == [a.id.value];
    BatchItemsEnd(key, auth, [a.id.value], None, script);
    BatchAnswered([a.id.value], auth, Retries, fs, rest);
    NonNullTwo(Features(a.id.value, fa), Features(a.id.value, fa));
  }

  // ---------------------------------------------------------------------------
  // The pass over the `ids` dict

  /** How many playlist ids the `ids` dict lists over all its keys. */
  function Total(ids: seq<(string, seq<string>)>): nat {
    if ids == [] then 0 else |ids[0].1| + Total(ids[1..])
  }

  /** (key, playlist id) pairs in the order of the two nested loops. */
  function Jobs(ids: seq<(string, seq<string>)>): (jobs: seq<(string, string)>)
    ensures |jobs| == Total(ids)
  {
    if ids == [] then [] else seq(|ids[0].1|, k requires 0 <= k < |ids[0].1| => (ids[0].0, ids[0].1[k])) + Jobs(ids[1..])
  }

  /** The nested loops visit key `i`'s playlist `k` right after the playlists
      of the keys before it and the first `k` playlists of its own. */
  lemma {:induction false} JobsInLoopOrder(ids: seq<(string, seq<string>)>, i: nat, k: nat)
    requires i < |ids| && k < |ids[i].1|
    ensures Total(ids[..i]) + k < |Jobs(ids)| && Jobs(ids)[Total(ids[..i]) + k] == (ids[i].0, ids[i].1[k])
    decreases i
  {
    var head := seq(|ids[0].1|, j requires 0 <= j < |ids[0].1| => (ids[0].0, ids[0].1[j]));
    assert Jobs(ids) == head + Jobs(ids[1..]);
    if i == 0 {
      assert ids[..0] == [];
      assert Jobs(ids)[k] == head[k];
    } else {
      var rest := ids[1..];
      assert rest[i - 1] == ids[i];
      JobsInLoopOrder(rest, i - 1, k);
      TotalPrefix(ids, i);
      var at := Total(rest[..i - 1]) + k;
      assert Jobs(ids)[|head| + at] == Jobs(rest)[at];
    }
  }

  lemma TotalPrefix(ids: seq<(string, seq<string>)>, i: nat)
    requires 0 < i <= |ids|
    ensures Total(ids[..i]) == |ids[0].1| + Total(ids[1..][..i - 1])
  {
    assert ids[..i][1..] == ids[1..][..i - 1];
  }

  datatype HarvestRun = HarvestRun(rows: Outcome<seq<FeatureRow>>, batches: seq<seq<string>>, trace: seq<Event>)

  /** One playlist: walk its pages, then, if it has any items, batch them. */
  function JobRun(key: string, playlistId: string, auth: string, pages: seq<Response<Page>>,
                  feats: seq<FeaturesAnswer>): (r: (PagesRun, ItemsRun))
    ensures r.1.rows.Done? ==> forall k :: 0 <= k < |r.1.rows.value| ==> r.1.rows.value[k].playlistType == key
  {
    var walk := PlaylistTracks(playlistId, auth, Retries, pages);
    (walk, if walk.items == [] then ItemsRun(Done([]), [], feats, []) else BatchItems(walk.items, key, auth, [], None, feats))
  }

  /** One playlist after another; an escaping error ends the whole pass. */
  function Harvest(jobs: seq<(string, string)>, auth: string, pages: seq<Response<Page>>,
                   feats: seq<FeaturesAnswer>): (r: HarvestRun)
    ensures r.rows.Done? ==> forall k :: 0 <= k < |r.rows.value| ==>
              exists j :: 0 <= j < |jobs| && jobs[j].0 == r.rows.value[k].playlistType
    decreases |jobs|
  {
    if jobs == [] then HarvestRun(Done([]), [], [])
    else
      var (walk, b) := JobRun(jobs[0].0, jobs[0].1, auth, pages, feats);
      if b.rows.Raised? then HarvestRun(b.rows, b.batches, walk.trace + b.trace)
      else
        var r := Harvest(jobs[1..], auth, walk.rest, b.rest);
        var rows := Prepend(b.rows.value, r.rows);
        assert rows.Done? ==> forall k :: 0 <= k < |rows.value| ==>
                 (k < |b.rows.value| && rows.value[k].playlistType == jobs[0].0)
                 || (k >= |b.rows.value| && rows.value[k] == r.rows.value[k - |b.rows.value|]);
        HarvestRun(rows, b.batches + r.batches, walk.trace + b.trace + r.trace)
  }

  /** The playlist keys of some rows, in order. */
  function Keys(rows: seq<FeatureRow>): (keys: seq<string>)
    ensures |keys| == |rows| && forall k :: 0 <= k < |rows| ==> keys[k] == rows[k].playlistType
  {
    seq(|rows|, k requires 0 <= k < |rows| => rows[k].playlistType)
  }

  /** `counts[j]` copies of job `j`'s key, job after job. */
  function KeyBlocks(jobs: seq<(string, string)>, counts: seq<nat>): seq<string>
    requires |counts| == |jobs|
  {
    if jobs == [] then [] else seq(counts[0], _ => jobs[0].0) + KeyBlocks(jobs[1..], counts[1..])
  }

  /** The rows of a pass come job by job: the first job's rows, all carrying
      its key, then the second job's, and so on. */
  lemma {:induction false} HarvestInJobOrder(jobs: seq<(string, string)>, auth: string, pages: seq<Response<Page>>,
                                             feats: seq<FeaturesAnswer>)
    ensures var r := Harvest(jobs, auth, pages, feats);
            r.rows.Done? ==> exists counts :: |counts| == |jobs| && Keys(r.rows.value) == KeyBlocks(jobs, counts)
    decreases |jobs|
  {
    var r := Harvest(jobs, auth, pages, feats);
    if jobs == [] {
      assert Keys(r.rows.value) == KeyBlocks(jobs, []);
    } else {
      var (walk, b) := JobRun(jobs[0].0, jobs[0].1, auth, pages, feats);
      HarvestUnfold(jobs, auth, pages, feats);
      if b.rows.Done? {
        var later := Harvest(jobs[1..], auth, walk.rest, b.rest);
        HarvestInJobOrder(jobs[1..], auth, walk.rest, b.rest);
        if later.rows.Done? {
          var c :| |c| == |jobs[1..]| && Keys(later.rows.value) == KeyBlocks(jobs[1..], c);
          JobBlock(jobs[0].0, b.rows.value, later.rows.value, jobs, c);
          assert Keys(r.rows.value) == KeyBlocks(jobs, [|b.rows.value|] + c);
        }
      }
    }
  }

  /** A pass over several jobs is the first job's run followed by the pass over the others. */
  lemma HarvestUnfold(jobs: seq<(string, string)>, auth: string, pages: seq<Response<Page>>, feats: seq<FeaturesAnswer>)
    requires jobs != []
    ensures var (walk, b) := JobRun(jobs[0].0, jobs[0].1, auth, pages, feats);
            var r := Harvest(jobs, auth, pages, feats);
            (b.rows.Raised? ==> r.rows == b.rows)
            && (b.rows.Done? ==> r.rows == Prepend(b.rows.value, Harvest(jobs[1..], auth, walk.rest, b.rest).rows))
  {
  }

  /** One job's rows, all with its key, ahead of the blocks of the later jobs. */
  lemma JobBlock(key: string, first: seq<FeatureRow>, later: seq<FeatureRow>, jobs: seq<(string, string)>,
                 c: seq<nat>)
    requires jobs != [] && jobs[0].0 == key && |c| == |jobs| - 1
    requires forall k :: 0 <= k < |first| ==> first[k].playlistType == key
    requires Keys(later) == KeyBlocks(jobs[1..], c)
    ensures Keys(first + later) == KeyBlocks(jobs, [|first|] + c)
  {
    var counts := [|first|] + c;
    var front := seq(|first|, _ => key);
    assert counts[1..] == c;
    assert KeyBlocks(jobs, counts) == front + KeyBlocks(jobs[1..], c);
    assert Keys(first) == front;
    KeysAppend(first, later);
  }

  lemma KeysAppend(a: seq<FeatureRow>, b: seq<FeatureRow>)
    ensures Keys(a + b) == Keys(a) + Keys(b)
  {
  }

  /** The script's whole pass over `ids`: the rows come playlist by playlist,
      in the order of the nested loops, each playlist's rows keyed by its key. */
  function ExtractFeatures(ids: seq<(string, seq<string>)>, auth: string, pages: seq<Response<Page>>,
                           feats: seq<FeaturesAnswer>): (r: HarvestRun)
    ensures r.rows.Done? ==> exists counts :: |counts| == |Jobs(ids)| && Keys(r.rows.value) == KeyBlocks(Jobs(ids), counts)
  {
    HarvestInJobOrder(Jobs(ids), auth, pages, feats);
    Harvest(Jobs(ids), auth, pages, feats)
  }
}

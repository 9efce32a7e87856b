/** extract/e_audio.py: list the tracks of a playlist that have a preview url,
    page by page with an offset, and download every preview into one folder
    under a file name derived from the track name. */
module PlaylistPreviews {
  import opened Net
  import opened Files

  datatype PTrack = PTrack(name: string, previewUrl: Option<string>)

  /** One entry of a page's `items`; its `track` may be null. */
  datatype PlaylistItem = PlaylistItem(track: Option<PTrack>)

  /** A page of the playlist's tracks endpoint: `items` may be missing from the body. */
  datatype PlaylistPage = PlaylistPage(items: Option<seq<PlaylistItem>>, next: Option<string>)

  /** What is kept of a track: its name and its (non-empty) preview url. */
  datatype PreviewEntry = PreviewEntry(name: string, previewUrl: string)

  /** The page size and the step of the offset. */
  const PageLimit: nat := 100

  function TracksUrl(playlistId: string): string {
    "https://api.spotify.com/v1/playlists/" + playlistId + "/tracks"
  }

  function Query(offset: nat): seq<(string, string)> {
    [("limit", NatToString(PageLimit)), ("offset", NatToString(offset))]
  }

  /** Whether an item passes `track is not None and track['preview_url']`. */
  predicate HasPreview(item: PlaylistItem) {
    item.track.Some? && Truthy(item.track.value.previewUrl)
  }

  function EntryOf(item: PlaylistItem): PreviewEntry
    requires HasPreview(item)
  {
    PreviewEntry(item.track.value.name, item.track.value.previewUrl.value)
  }

  /** The entries one page contributes, in item order. */
  function Previews(items: seq<PlaylistItem>): (r: seq<PreviewEntry>)
    ensures |r| <= |items|
    ensures forall k :: 0 <= k < |r| ==> r[k].previewUrl != ""
  {
    if items == [] then []
    else (if HasPreview(items[0]) then [EntryOf(items[0])] else []) + Previews(items[1..])
  }

  /** An entry is kept exactly when some item with a track and a preview url produced it. */
  lemma {:induction false} PreviewsMembers(items: seq<PlaylistItem>, e: PreviewEntry)
    ensures e in Previews(items) <==> exists k :: 0 <= k < |items| && HasPreview(items[k]) && e == EntryOf(items[k])
  {
    if items != [] {
      PreviewsMembers(items[1..], e);
      if exists k :: 0 <= k < |items| && HasPreview(items[k]) && e == EntryOf(items[k]) {
        var k :| 0 <= k < |items| && HasPreview(items[k]) && e == EntryOf(items[k]);
        if k > 0 {
          assert items[1..][k - 1] == items[k];
        }
      }
      if exists k :: 0 <= k < |items[1..]| && HasPreview(items[1..][k]) && e == EntryOf(items[1..][k]) {
        var k :| 0 <= k < |items[1..]| && HasPreview(items[1..][k]) && e == EntryOf(items[1..][k]);
        assert items[k + 1] == items[1..][k];
      }
    }
  }

  /** Filtering the items of two pages is filtering each page in turn: entries keep input order. */
  lemma {:induction false} PreviewsAppend(a: seq<PlaylistItem>, b: seq<PlaylistItem>)
    ensures Previews(a + b) == Previews(a) + Previews(b)
  {
    if a == [] {
      assert a + b == b;
    } else {
      assert (a + b)[0] == a[0];
      assert (a + b)[1..] == a[1..] + b;
      PreviewsAppend(a[1..], b);
    }
  }

  /** The entries a page answer contributes: none unless it is a 200 with `items`. */
  function PageEntries(answer: Response<PlaylistPage>): seq<PreviewEntry> {
    if answer.Ok? && answer.body.items.Some? then Previews(answer.body.items.value) else []
  }

  function AllEntries(answers: seq<Response<PlaylistPage>>): seq<PreviewEntry> {
    if answers == [] then [] else PageEntries(answers[0]) + AllEntries(answers[1..])
  }

  datatype PlaylistRun = PlaylistRun(outcome: Outcome<seq<PreviewEntry>>, rest: seq<Response<PlaylistPage>>, trace: seq<Event>)

  function BearerHeader(token: string): string {
    "Bearer " + token
  }

  /** What one page answer does to the loop: add the page and go on, or end it. */
  datatype PageStep = Continue(more: seq<PreviewEntry>) | Stop(outcome: Outcome<seq<PreviewEntry>>)

  /** One pass of the loop body on the answer to its request. */
  function ReadPage(gathered: seq<PreviewEntry>, answer: Response<PlaylistPage>): (s: PageStep)
    // a failed connection escapes; anything else keeps what was gathered and adds the page's entries
    ensures s.Stop? && s.outcome.Raised? <==> answer.ConnErr?
    ensures s.Stop? && s.outcome.Raised? ==> s.outcome.fault == ConnectionFailed
    ensures s.Stop? && s.outcome.Done? ==> s.outcome.value == gathered + PageEntries(answer)
    ensures s.Continue? ==> s.more == gathered + PageEntries(answer)
    // the loop goes on exactly after a 200 with `items` and a truthy `next`
    ensures s.Continue? <==> answer.Ok? && answer.body.items.Some? && Truthy(answer.body.next)
  {
    match answer
    case ConnErr => Stop(Raised(ConnectionFailed))
    case Status(_, _) => Stop(Done(gathered))
    case Ok(page) =>
      if page.items.None? then Stop(Done(gathered))
      else
        var more := gathered + Previews(page.items.value);
        if Truthy(page.next) then Continue(more) else Stop(Done(more))
  }

  /** The `while True` loop of `get_playlist_data` from `offset` on, with the
      entries gathered so far. */
  function PlaylistFrom(token: string, playlistId: string, offset: nat, gathered: seq<PreviewEntry>,
                        pages: seq<Response<PlaylistPage>>): (r: PlaylistRun)
    decreases |pages|
    // the k-th request of the loop asks for the page at offset + 100 k
    ensures |r.trace| >= 1
    ensures forall k :: 0 <= k < |r.trace| ==>
              r.trace[k] == Get(TracksUrl(playlistId), Query(offset + PageLimit * k), Some(BearerHeader(token)))
    // answers are taken in order
    ensures IsSuffix(r.rest, pages)
    // the result extends what was gathered by the entries of the pages read
    ensures r.outcome.Done? ==> r.outcome.value == gathered + AllEntries(pages[..|pages| - |r.rest|])
    ensures r.outcome.Raised? ==> r.outcome.fault == ConnectionFailed
  {
    var (answer, rest) := Receive(pages);
    var get := [Get(TracksUrl(playlistId), Query(offset), Some(BearerHeader(token)))];
    match ReadPage(gathered, answer)
    case Stop(outcome) =>
      AllEntriesOne(pages);
      PlaylistRun(outcome, rest, get)
    case Continue(more) =>
      var next := PlaylistFrom(token, playlistId, offset + PageLimit, more, rest);
      OffsetsShift(get[0], next.trace, token, playlistId, offset);
      SuffixTransitive(next.rest, rest, pages);
      if next.outcome.Done? then
        GatheredCons(gathered, pages, next.rest, next.outcome.value);
        PlaylistRun(next.outcome, next.rest, get + next.trace)
      else
        PlaylistRun(next.outcome, next.rest, get + next.trace)
  }

  /** The first answer alone contributes its page's entries. */
  lemma AllEntriesOne(pages: seq<Response<PlaylistPage>>)
    ensures pages != [] ==> AllEntries(pages[..1]) == PageEntries(pages[0])
  {
    if pages != [] {
      assert pages[..1][1..] == [];
    }
  }

  /** The answers read are the first one and then those the rest of the loop read. */
  lemma AllEntriesCons(pages: seq<Response<PlaylistPage>>, rest: seq<Response<PlaylistPage>>)
    requires pages != [] && IsSuffix(rest, pages[1..])
    ensures AllEntries(pages[..|pages| - |rest|]) == PageEntries(pages[0]) + AllEntries(pages[1..][..|pages[1..]| - |rest|])
  {
    var read := pages[..|pages| - |rest|];
    assert read[0] == pages[0];
    assert read[1..] == pages[1..][..|pages[1..]| - |rest|];
  }

  /** What the rest of the loop gathered after the first page is what the whole loop gathered. */
  lemma GatheredCons(gathered: seq<PreviewEntry>, pages: seq<Response<PlaylistPage>>, rest: seq<Response<PlaylistPage>>,
                     value: seq<PreviewEntry>)
    requires pages != [] && IsSuffix(rest, pages[1..])
    requires value == (gathered + PageEntries(pages[0])) + AllEntries(pages[1..][..|pages[1..]| - |rest|])
    ensures value == gathered + AllEntries(pages[..|pages| - |rest|])
  {
    var first := PageEntries(pages[0]);
    var later := AllEntries(pages[1..][..|pages[1..]| - |rest|]);
    AllEntriesCons(pages, rest);
    assert (gathered + first) + later == gathered + (first + later);
  }

  /** Prefixing the first request to the requests made from the next offset
      keeps the k-th request at offset + 100 k. */
  lemma OffsetsShift(first: Event, later: seq<Event>, token: string, playlistId: string, offset: nat)
    requires first == Get(TracksUrl(playlistId), Query(offset), Some(BearerHeader(token)))
    requires forall k :: 0 <= k < |later| ==>
               later[k] == Get(TracksUrl(playlistId), Query(offset + PageLimit + PageLimit * k), Some(BearerHeader(token)))
    ensures forall k :: 0 <= k < |[first] + later| ==>
              ([first] + later)[k] == Get(TracksUrl(playlistId), Query(offset + PageLimit * k), Some(BearerHeader(token)))
  {
    forall k | 0 <= k < |[first] + later|
      ensures ([first] + later)[k] == Get(TracksUrl(playlistId), Query(offset + PageLimit * k), Some(BearerHeader(token)))
    {
      if k > 0 {
        assert ([first] + later)[k] == later[k - 1];
        assert offset + PageLimit + PageLimit * (k - 1) == offset + PageLimit * k;
      }
    }
  }

  /** `get_playlist_data(token, playlist_id)`: from offset 0 with nothing gathered. */
  function GetPlaylistData(token: string, playlistId: string, pages: seq<Response<PlaylistPage>>): (r: PlaylistRun)
    ensures IsSuffix(r.rest, pages)
    ensures r.outcome.Done? ==> r.outcome.value == AllEntries(pages[..|pages| - |r.rest|])
    // every returned entry has a preview url
    ensures r.outcome.Done? ==> forall k :: 0 <= k < |r.outcome.value| ==> r.outcome.value[k].previewUrl != ""
  {
    var r := PlaylistFrom(token, playlistId, 0, [], pages);
    assert r.outcome.Done? ==> r.outcome.value == [] + AllEntries(pages[..|pages| - |r.rest|]);
    if r.outcome.Done? then
      AllEntriesHavePreviews(pages[..|pages| - |r.rest|]);
      r
    else r
  }

  lemma {:induction false} AllEntriesHavePreviews(answers: seq<Response<PlaylistPage>>)
    ensures forall k :: 0 <= k < |AllEntries(answers)| ==> AllEntries(answers)[k].previewUrl != ""
  {
    if answers != [] {
      AllEntriesHavePreviews(answers[1..]);
      var head: seq<PreviewEntry> := PageEntries(answers[0]);
      var tail: seq<PreviewEntry> := AllEntries(answers[1..]);
      forall k | 0 <= k < |head + tail| ensures (head + tail)[k].previewUrl != "" {
        if k >= |head| {
          assert (head + tail)[k] == tail[k - |head|];
        }
      }
    }
  }

  /** After `k` pages that all continue, the offset has grown by 100 per page:
      the request for page `k` asks for offset `100 k`. */
  lemma OffsetAfterPages(token: string, playlistId: string, pages: seq<Response<PlaylistPage>>, k: nat)
    requires k < |GetPlaylistData(token, playlistId, pages).trace|
    ensures GetPlaylistData(token, playlistId, pages).trace[k] ==
              Get(TracksUrl(playlistId), Query(PageLimit * k), Some(BearerHeader(token)))
  {
  }

  /** A non-200 first answer, or a 200 without `items`, returns the empty list after one request. */
  lemma FirstPageRefused(token: string, playlistId: string, first: Response<PlaylistPage>,
                         pages: seq<Response<PlaylistPage>>)
    requires first.Status? || (first.Ok? && first.body.items.None?)
    ensures GetPlaylistData(token, playlistId, [first] + pages).outcome == Done([])
    ensures |GetPlaylistData(token, playlistId, [first] + pages).trace| == 1
  {
    assert ([first] + pages)[0] == first;
  }

  /** `.replace(from, to)` on single characters. */
  function Replace(s: string, from: char, to: char): (r: string)
    ensures |r| == |s|
    ensures forall k :: 0 <= k < |s| ==> r[k] == if s[k] == from then to else s[k]
  {
    if s == [] then [] else [if s[0] == from then to else s[0]] + Replace(s[1..], from, to)
  }

  /** Characters the file name may not keep. */
  predicate Unsafe(c: char) {
    c == '/' || c == '\\' || c == ':'
  }

  /** The three chained replacements of `/`, `\` and `:` by `_`. */
  function Scrub(s: string): (r: string)
    ensures |r| == |s|
    ensures forall k :: 0 <= k < |r| ==> !Unsafe(r[k])
    ensures forall k :: 0 <= k < |s| ==> (Unsafe(s[k]) ==> r[k] == '_') && (!Unsafe(s[k]) ==> r[k] == s[k])
  {
    Replace(Replace(Replace(s, '/', '_'), '\\', '_'), ':', '_')
  }

  /** Scrubbing a scrubbed name changes nothing. */
  lemma ScrubIdempotent(s: string)
    ensures Scrub(Scrub(s)) == Scrub(s)
  {
    var t := Scrub(s);
    assert forall k :: 0 <= k < |t| ==> Scrub(t)[k] == t[k];
  }

  /** The file name `download_preview` writes a track to. */
  function TrackFileName(name: string): (r: string)
    ensures |r| == |name| + 4
    ensures r[|name|..] == ".mp3"
    ensures forall k :: 0 <= k < |r| ==> !Unsafe(r[k])
    ensures forall k :: 0 <= k < |name| ==> r[k] == if Unsafe(name[k]) then '_' else name[k]
  {
    var r := Scrub(name + ".mp3");
    assert forall k :: 0 <= k < 4 ==> r[|name| + k] == ".mp3"[k] by {
      forall k | 0 <= k < 4 ensures r[|name| + k] == ".mp3"[k] {
        assert (name + ".mp3")[|name| + k] == ".mp3"[k];
      }
    }
    r
  }

  /** A track's file lands directly inside the folder: its name has no separator to escape with. */
  lemma TrackFileInFolder(folder: string, name: string)
    ensures var f := Join(folder, TrackFileName(name));
            |f| >= |name| + 4 && f[|f| - (|name| + 4)..] == TrackFileName(name)
  {
    JoinEndsWithName(folder, TrackFileName(name));
  }

  datatype PreviewsRun = PreviewsRun(outcome: Outcome<()>, fs: FileSystem, downloads: seq<DownloadAnswer>, trace: seq<Event>)

  /** The preview urls of the entries, in order. */
  function Urls(entries: seq<PreviewEntry>): (r: seq<string>)
    ensures |r| == |entries|
    ensures forall k :: 0 <= k < |r| ==> r[k] == entries[k].previewUrl
  {
    if entries == [] then [] else [entries[0].previewUrl] + Urls(entries[1..])
  }

  /** The preview urls of the entries that pass `if track['preview_url']`, in order. */
  function TruthyUrls(entries: seq<PreviewEntry>): seq<string> {
    if entries == [] then []
    else (if entries[0].previewUrl != "" then [entries[0].previewUrl] else []) + TruthyUrls(entries[1..])
  }

  /** For a list the playlist reader returned the guard never fails: every url is kept. */
  lemma {:induction false} TruthyUrlsAll(entries: seq<PreviewEntry>)
    requires forall k :: 0 <= k < |entries| ==> entries[k].previewUrl != ""
    ensures TruthyUrls(entries) == Urls(entries)
  {
    if entries != [] {
      TruthyUrlsAll(entries[1..]);
    }
  }

  /** The `for track in tracks` loop: `download_preview` for every entry whose url is
      truthy, and only a message for the others. */
  function DownloadAll(entries: seq<PreviewEntry>, folder: string, fs: FileSystem, downloads: seq<DownloadAnswer>): (r: PreviewsRun)
    // one streamed request per entry with a url, for that url, in order
    ensures Pick(r.trace, StreamUrlOf) == TruthyUrls(entries)
    ensures r.outcome.Done? && r.fs.dirs == fs.dirs
    ensures forall p :: p in fs.files ==> p in r.fs.files
    ensures IsSuffix(r.downloads, downloads)
  {
    if entries == [] then PreviewsRun(Done(()), fs, downloads, [])
    else
      var e := entries[0];
      if e.previewUrl == "" then
        DownloadAll(entries[1..], folder, fs, downloads)
      else
        var d := DownloadPreview(e.previewUrl, Join(folder, TrackFileName(e.name)), fs, downloads);
        var rest := DownloadAll(entries[1..], folder, d.fs, d.rest);
        StreamsOfDownload(e.previewUrl, Join(folder, TrackFileName(e.name)), d.trace);
        PickAppend(d.trace, rest.trace, StreamUrlOf);
        SuffixTransitive(rest.downloads, d.rest, downloads);
        PreviewsRun(Done(()), rest.fs, rest.downloads, d.trace + rest.trace)
  }

  /** A download's trace holds one streamed request, its first event. */
  lemma StreamsOfDownload(url: string, path: string, trace: seq<Event>)
    requires |trace| >= 1 && trace[0] == GetStream(url)
    requires forall i :: 1 <= i < |trace| ==> trace[i] == Open(path) || (trace[i].Write? && trace[i].path == path)
    ensures Pick(trace, StreamUrlOf) == [url]
  {
    assert trace == [trace[0]] + trace[1..];
    PickNothing(trace[1..], StreamUrlOf);
    PickTwo(trace[0], trace[0], StreamUrlOf);
    PickAppend([trace[0]], trace[1..], StreamUrlOf);
  }

  /** `download_playlist_previews`: make the folder, list the playlist, then
      download the listed previews. A failed connection while listing escapes. */
  function DownloadPlaylistPreviews(token: string, playlistId: string, folder: string, fs: FileSystem,
                                    pages: seq<Response<PlaylistPage>>, downloads: seq<DownloadAnswer>): (r: PreviewsRun)
    ensures Exists(r.fs, folder)
    ensures r.outcome.Raised? <==> GetPlaylistData(token, playlistId, pages).outcome.Raised?
  {
    var (fs1, made) := EnsureFolder(fs, folder);
    var data := GetPlaylistData(token, playlistId, pages);
    match data.outcome
    case Raised(fault) => PreviewsRun(Raised(fault), fs1, downloads, made + data.trace)
    case Done(entries) =>
      var all := DownloadAll(entries, folder, fs1, downloads);
      PreviewsRun(Done(()), all.fs, all.downloads, made + data.trace + all.trace)
  }

  /** Every track the playlist reader returned is downloaded exactly once, in
      list order, and nothing is downloaded when listing failed. */
  lemma EveryListedTrackDownloaded(token: string, playlistId: string, folder: string, fs: FileSystem,
                                   pages: seq<Response<PlaylistPage>>, downloads: seq<DownloadAnswer>)
    ensures var data := GetPlaylistData(token, playlistId, pages);
            var r := DownloadPlaylistPreviews(token, playlistId, folder, fs, pages, downloads);
            Pick(r.trace, StreamUrlOf) == if data.outcome.Done? then Urls(data.outcome.value) else []
  {
    var (fs1, made) := EnsureFolder(fs, folder);
    var data := GetPlaylistData(token, playlistId, pages);
    ListingStreamsNothing(token, playlistId, pages);
    PickNothing(made, StreamUrlOf);
    PickAppend(made, data.trace, StreamUrlOf);
    if data.outcome.Done? {
      var all := DownloadAll(data.outcome.value, folder, fs1, downloads);
      TruthyUrlsAll(data.outcome.value);
      PickAppend(made + data.trace, all.trace, StreamUrlOf);
    }
  }

  /** Listing the playlist streams nothing. */
  lemma ListingStreamsNothing(token: string, playlistId: string, pages: seq<Response<PlaylistPage>>)
    ensures Pick(GetPlaylistData(token, playlistId, pages).trace, StreamUrlOf) == []
  {
    var t := GetPlaylistData(token, playlistId, pages).trace;
    assert forall i :: 0 <= i < |t| ==> t[i].Get?;
    PickNothing(t, StreamUrlOf);
  }
}

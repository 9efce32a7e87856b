# MusicML extraction core in Dafny

This project models the part of MusicML that talks to the Spotify Web API.
These are the scripts that pull track names, playlist pages, audio-feature
batches and 30-second preview files. It also models the two table transforms
that prepare those downloads for training:

- the relabelling and deduplication of the feature tables;
- the train/test split of the spectrogram arrays.

The network is not called. Each endpoint is a finite script of answers:
`Ok(body)`, `Status(code, Retry-After)` or `ConnErr`. `ConnErr` stands for a
timeout or connection error, and an exhausted script also answers `ConnErr`.

Every operation returns the answers it left unread. It also returns a trace of
the effects it would have had:

- sleeps, tagged back-off, rate limit or pacing;
- GET requests, streamed GETs and token requests;
- credential rotations;
- folder creation, file opens and chunk writes.

The local disk is a `FileSystem` value of folders and files.

Modules, one per concern:

- `Net`: answers, traces, the back-off schedule `2^(5 - budget)` with a budget
  of 5, the 30-second `Retry-After` default, and `Pick`, which extracts one kind
  of event from a trace.
- `Files`: `os.path.join`, `os.makedirs`, and the streamed download. The
  download skips empty chunks and writes the file only on a 200.
- `SongTitles`: `extract/e_add_song_title.py`. It covers the rotating
  credential index and the retry loop of `get_track_names`. In that loop a 200
  names the track, a 401 rotates credentials and fetches a fresh token, and a
  429 waits `Retry-After`. Any other status gives a `None` entry. A connection
  error backs off and spends one attempt, and an id whose five attempts all
  fail contributes no entry at all.
- `PlaylistFeatures`: `extract/e_s_features.py`. The playlist walk restarts from
  the first page on a connection error and discards what it gathered. The
  audio-features batch call is modelled too. So are batching into 100 ids and
  the rows, which are named after the last track of the batch. An item with no
  track at the end of a batch makes the row builder raise, but only when the
  batch's feature list holds some non-null record.
- `CsvPreviews`: `extract/e_audio_from_csv.py`. It covers the endless credential
  cycle (E, L, V), the skip of rows whose file already exists, the token and
  track lookups that degrade to `None`, and the download to
  `<base>/<like>/<id>.mp3`.
- `PlaylistPreviews`: `extract/e_audio.py`. It covers offset pagination, the
  preview filter, file-name scrubbing and downloading every listed preview.
- `CleanTabular`: `transform/clean_tabular.py`. Ids labelled both 0 and 1 are
  relabelled 1. The script then projects the columns, writes the frames, and
  drops duplicate ids afterwards.
- `SplitSpecs`: `transform/split_specs.py`. The arrays are filtered with
  `np.isin` masks into a train file and a test file.

Some behaviours of the code are easy to miss. The model keeps them as written:

- An id whose connection retries are exhausted gets no entry in the
  track-name list, not a `None`.
- A status other than 200/401/429 gives a `None` entry, not an error.
- A refused token request on a 401 raises out of the whole pass.
- The playlist walk's retry restarts from the first page and drops the tracks
  already gathered.
- `e_audio_from_csv.py` never retries and turns token and lookup failures into
  `None`. A connection error in the token or track lookup escapes the loop; one
  in the download is caught by the download helper.

## Model

| member | source | states |
|---|---|---|
| SongTitles.RotateCredentials | extract/e_add_song_title.py:31-34 | the index advances by one and wraps from the last credential set to the first; the set returned is the one at the new index |
| SongTitles.RotateTimesModular | extract/e_add_song_title.py:31-34 | k rotations from index i land on (i + k) mod 3 |
| SongTitles.RotationCycle | extract/e_add_song_title.py:27-34 | three rotations return to the start and visit each of the three credential sets once; the first rotation from l_secrets selects e_secrets |
| SongTitles.UpdateHeaders | extract/e_add_song_title.py:41-42 | the header is a Bearer header from which the token reads back unchanged |
| SongTitles.GetSpotifyToken | extract/e_add_song_title.py:14-24 | a token is returned exactly on a 200 and is the answer's access token; any other status is a refusal carrying that status |
| SongTitles.Reauthorize | extract/e_add_song_title.py:65-69 | a 401 rotates to the next credential set and requests a token with it; a token goes round again with the budget intact and its Bearer header; a refused token leaves the loop with the refusal's status, to be raised; a failed token connection backs off and spends one attempt with the old headers |
| SongTitles.OnAnswer | extract/e_add_song_title.py:58-90 | whatever the track answer, the pass never gives up on the id by itself, and going round again keeps the budget or spends exactly one attempt |
| SongTitles.AttemptName | extract/e_add_song_title.py:56-90 | a pass reads one track answer from the front, so going round again has consumed an answer or spent an attempt; the budget drops by at most one, and a pass that leaves the loop has not given up |
| SongTitles.PassOutcome | extract/e_add_song_title.py:56-90 | by the answer read: a 200 names the track after one request; a 401 with a new token goes round again with the rotated credentials' headers and the budget intact, and with a refused token leaves the loop with the refusal's status; a 429 waits Retry-After (default 30) with the budget intact; another status leaves with None; a connection error backs off 2^(5 - budget) and spends one attempt; only a connection error, of the track or the token request, spends budget |
| SongTitles.FetchName | extract/e_add_song_title.py:54-90 | the loop for one id keeps the session valid and reads the track and token answers only from the front |
| SongTitles.Entry | extract/e_add_song_title.py:56-90 | an id appends exactly one entry when it was named or ended on another status, and none otherwise |
| SongTitles.GetTrackNames | extract/e_add_song_title.py:48-96 | the session stays valid, answers are consumed in order, and at most one entry per id is returned |
| SongTitles.NamesFromBlocks | extract/e_add_song_title.py:48-96 | when each id's track answers are some 429s followed by a 200, another status, or five connection errors, the list is, id by id, the name, None, or nothing; the session and the token answers are untouched |
| SongTitles.BlockOutcome | extract/e_add_song_title.py:54-90 | for one id, the 429s before its final answer cost no attempt, and the final answer alone decides its entry |
| SongTitles.EndOutcome | extract/e_add_song_title.py:56-90 | a 200, another status, or five connection errors give the name, None, or no entry at all |
| SongTitles.StatusMissing | extract/e_add_song_title.py:76-79 | a status other than 200, 401 and 429 leaves the loop at once with a None entry after one request |
| SongTitles.MixedPass | extract/e_add_song_title.py:48-96 | three ids answered 404, five connection errors, and 429 then 200 give the list None, name |
| SongTitles.TokenRefusalEscapes | extract/e_add_song_title.py:65-69 | a 401 followed by a refused token request makes get_track_names raise with the token answer's status |
| SongTitles.ExhaustedAddsNothing | extract/e_add_song_title.py:81-90 | an id whose attempts were all spent adds no entry to the list |
| SongTitles.AttemptEffects | extract/e_add_song_title.py:65-86 | a pass backs off only when it spends budget, with wait 2^(5 - budget), and rotates once per 401 it reads |
| SongTitles.FetchNameBackoffs | extract/e_add_song_title.py:54-90 | the back-off waits of one id are a prefix of 1, 2, 4, 8, 16, and the id is given up exactly when all of its attempts were spent |
| SongTitles.AttemptConnErr | extract/e_add_song_title.py:81-86 | a connection error sleeps 2^(5 - budget) seconds and retries with one attempt fewer and the same session |
| SongTitles.ConnErrsExhaust | extract/e_add_song_title.py:56-90 | as many connection errors as attempts give up on the id and leave the session and the other answers untouched |
| SongTitles.FiveConnectionErrors | extract/e_add_song_title.py:54-90 | five connection errors wait 1, 2, 4, 8 and 16 seconds, and the id adds nothing to the result |
| SongTitles.RateLimitKeepsBudget | extract/e_add_song_title.py:71-74 | a 429 costs one request and one Retry-After wait; the rest behaves as if it had not happened, so no budget is spent |
| SongTitles.OkAnswered | extract/e_add_song_title.py:60-63 | a 200 names the track after a single request with the current headers |
| SongTitles.RateLimitedOnceThenOk | extract/e_add_song_title.py:58-74 | 429 then 200 names the track after one Retry-After wait and no back-off |
| SongTitles.UnauthorizedThenOk | extract/e_add_song_title.py:65-69 | 401 then 200 names the track after exactly one rotation and one token request, with the next credential set's token in the headers |
| SongTitles.RotationPer401 | extract/e_add_song_title.py:65-69 | the number of rotations equals the number of 401 answers read for the id |
| SongTitles.AllAnswered | extract/e_add_song_title.py:52-63 | when every id is answered 200, the names come back in id order, with one request per id and no rotation |
| Net.FullBackoffSchedule | extract/e_add_song_title.py:82-86 | the back-off waits of a full budget are 1, 2, 4, 8 and 16 seconds |
| PlaylistFeatures.FetchPage | extract/e_s_features.py:19-39 | a pass reads the page answers from the front; a 200 always consumes an answer, and a restart needs retries left |
| PlaylistFeatures.FetchPageEffects | extract/e_s_features.py:19-39 | every pass pauses 30 s and requests the current url; a 200 appends the page's items and follows `next`; another status ends the walk; a connection error with budget left backs off 2^(5 - retries) and restarts |
| PlaylistFeatures.PlaylistTracks | extract/e_s_features.py:15-41 | a walk from the first page reads the page answers in order, from the front, across its restarts too |
| PlaylistFeatures.FollowPages | extract/e_s_features.py:19-41 | the `while url:` loop reads the page answers in order, from the front |
| PlaylistFeatures.FollowPagesOk | extract/e_s_features.py:23-26 | a 200 appends the page's items and continues at its `next` link |
| PlaylistFeatures.FollowPagesEnd | extract/e_s_features.py:19-41 | a 200 page whose `next` is empty ends the walk with its items appended |
| PlaylistFeatures.FollowPagesFail | extract/e_s_features.py:28-39 | a connection error with budget left restarts from the first page with one retry fewer and discards the items gathered; anything else ends the walk with the items gathered so far |
| PlaylistFeatures.WalkUrls | extract/e_s_features.py:16-26 | a walk over linked pages requests the first url, then each page's `next`, with no back-off |
| PlaylistFeatures.WalkComplete | extract/e_s_features.py:15-41 | for linked pages ending in one without `next`, the result is all their items in order; the requested urls are the first-page url followed by each `next` link |
| PlaylistFeatures.WalkFails | extract/e_s_features.py:28-39 | a failure after linked pages either restarts (a connection error with budget left) or returns exactly the items read so far |
| PlaylistFeatures.WalkBackoffs | extract/e_s_features.py:31-36 | the back-off waits of a walk, across restarts, are a prefix of 1, 2, 4, 8, 16 |
| PlaylistFeatures.TryBatch | extract/e_s_features.py:48-72 | one pass of the batch loop: a 200 returns audio_features, a 429 waits Retry-After with the budget kept, another status gives None, and a connection error backs off and spends one attempt |
| PlaylistFeatures.GetAudioFeaturesBatch | extract/e_s_features.py:44-74 | answers are consumed in order, and any features returned are the body of a 200 answer |
| PlaylistFeatures.BatchBackoffs | extract/e_s_features.py:48-74 | back-off waits are a prefix of 1, 2, 4, 8, 16; a spent budget returns None |
| PlaylistFeatures.BatchAnswered | extract/e_s_features.py:52-53 | a 200 returns its features after one request |
| PlaylistFeatures.BatchRateLimitKeepsBudget | extract/e_s_features.py:55-58 | a 429 adds one request and one Retry-After wait and does not spend an attempt |
| PlaylistFeatures.BatchGivesUpOnStatus | extract/e_s_features.py:60-62 | a status other than 200 and 429 returns None at once |
| PlaylistFeatures.BatchConnErrStep | extract/e_s_features.py:64-69 | a connection error adds one back-off wait and continues with one attempt fewer |
| PlaylistFeatures.BatchConnErrsExhaust | extract/e_s_features.py:48-74 | k connection errors against a budget of k return None after k back-off waits |
| PlaylistFeatures.BatchFiveConnectionErrors | extract/e_s_features.py:44-74 | five connection errors return None after waits of 1, 2, 4, 8 and 16 seconds |
| PlaylistFeatures.FilteredIdsMembers | extract/e_s_features.py:86-91 | an id enters the batches exactly when some item has a non-null track with that truthy id |
| PlaylistFeatures.FilteredIdsAppend | extract/e_s_features.py:86-91 | the filter keeps item order: the ids of two runs of items are those of the first run followed by those of the second |
| PlaylistFeatures.EmitRows | extract/e_s_features.py:97-118 | one row per non-null feature record, in order, each tagged with the playlist key and named after the batch's last track; it raises exactly when that track is None and a non-null record exists |
| PlaylistFeatures.EmitBatch | extract/e_s_features.py:96-118 | a failed batch adds nothing; a returned one raises exactly when it has a non-null record and the track is None, and otherwise gives one row per non-null record, in order, named after the track |
| PlaylistFeatures.Flush | extract/e_s_features.py:96-118 | a batch is sent once, its rows carry the playlist key, and with a track present no error escapes |
| PlaylistFeatures.FullBatchNames | extract/e_s_features.py:86-94 | a batch fills up only on an item that has a track with an id |
| PlaylistFeatures.BatchesPartitionIds | extract/e_s_features.py:85-123 | the batches sent are, in order, exactly the filtered ids; each holds 1 to 100 ids and all but the last hold 100 |
| PlaylistFeatures.BatchItems | extract/e_s_features.py:85-145 | the feature answers are read in order, from the front, and every row carries the playlist key |
| PlaylistFeatures.RowsNamedAfterLastItem | extract/e_s_features.py:121-145 | two tracks sent in one remainder batch give two rows, both named after the second track |
| PlaylistFeatures.RemainderAfterNullTrackRaises | extract/e_s_features.py:121-130 | a remainder batch whose last item has no track raises when it names its rows |
| PlaylistFeatures.JobRun | extract/e_s_features.py:83-86 | every row one playlist yields carries its group's key |
| PlaylistFeatures.Harvest | extract/e_s_features.py:81-145 | every row collected carries the key of one of the playlist groups |
| PlaylistFeatures.HarvestInJobOrder | extract/e_s_features.py:81-145 | the rows come playlist by playlist in the order of the two nested loops: some rows with the first playlist's key, then some with the second's, and so on |
| PlaylistFeatures.Jobs | extract/e_s_features.py:81-82 | the pass visits as many playlists as the dict lists over all its keys |
| PlaylistFeatures.JobsInLoopOrder | extract/e_s_features.py:81-82 | the nested loops visit key i's playlist k right after the playlists of the keys before i and the first k playlists of key i, and pair it with key i |
| PlaylistFeatures.ExtractFeatures | extract/e_s_features.py:78-145 | the rows of a completed pass come playlist by playlist, in the order of the nested loops, each block keyed by its playlist's key |
| CsvPreviews.Next | extract/e_audio_from_csv.py:56-62 | `next()` on the cycle keeps its index within the three credential sets |
| CsvPreviews.AdvancePosition | extract/e_audio_from_csv.py:56-62 | n calls of `next()` move the cycle's index on by n, modulo 3 |
| CsvPreviews.TakePositions | extract/e_audio_from_csv.py:56-62 | the k-th of n calls of `next()` returns the credential set k places after the index, modulo 3 |
| CsvPreviews.Credential | extract/e_audio_from_csv.py:56-62 | draw n is what `next()` returns on the script's fresh cycle after n earlier calls |
| CsvPreviews.Draws | extract/e_audio_from_csv.py:56-62 | count consecutive draws from position n are the credentials n, n+1, … of the cycle |
| CsvPreviews.DrawsFromCycle | extract/e_audio_from_csv.py:70-93 | the credentials of a run of draws after `drawn` earlier ones are what the one cycle, advanced past those, returns |
| CsvPreviews.CycleOrder | extract/e_audio_from_csv.py:56-62 | the first six `next()` calls on a fresh cycle return e, l, v, e, l, v |
| CsvPreviews.CyclePeriod | extract/e_audio_from_csv.py:56-62 | three `next()` calls bring the cycle back to where it was, so what it returns repeats every three calls |
| CsvPreviews.CycleFair | extract/e_audio_from_csv.py:56-62 | any three consecutive `next()` calls return every credential set |
| CsvPreviews.ThreeDraws | extract/e_audio_from_csv.py:56-62 | three `next()` calls return e, l, v, or l, v, e, or v, e, l, according to the cycle's index |
| CsvPreviews.GetSpotifyToken | extract/e_audio_from_csv.py:8-18 | a 200 gives its access token, another status gives None, and only a connection error escapes |
| CsvPreviews.GetTrackPreview | extract/e_audio_from_csv.py:21-33 | a 200 gives its preview url, which may be None; another status gives None; only a connection error escapes |
| CsvPreviews.FileLayout | extract/e_audio_from_csv.py:78-86 | the label folder is the base path followed by the label's decimal digits, with at most a separator between; the row's file is that folder followed by `<id>.mp3`, or the id plus `.mp3` alone when the id is an absolute path |
| CsvPreviews.LookupRow | extract/e_audio_from_csv.py:93-105 | without a token nothing more is requested; only the row's file is opened; it is opened exactly when the row was fetched and the download answered 200 |
| CsvPreviews.FetchTrack | extract/e_audio_from_csv.py:96-103 | the track is always looked up first with the token as bearer; the row's file is the only one opened, and only when the track was fetched and the download answered 200; only a connection error escapes |
| CsvPreviews.FetchOutcome | extract/e_audio_from_csv.py:21-33 | with a token in hand, the row reaches the download exactly on a 200 with a truthy `preview_url`; a 200 without one, or any other status, gives no preview; it raises exactly on a failed connection |
| CsvPreviews.LookupOutcome | extract/e_audio_from_csv.py:93-105 | a row ends without a token exactly when the token answer is another status or a 200 without a token; with a token, the track is looked up with it as bearer and the track answer decides the rest; the row raises exactly when the token request or, after a token, the track request fails to connect |
| CsvPreviews.ProcessRow | extract/e_audio_from_csv.py:72-105 | the label folder exists afterwards; a row is skipped exactly when its file exists, and then makes no request and draws no credential; otherwise it draws one; only the row's own file is opened, and no file disappears |
| CsvPreviews.FileIsNotFolder | extract/e_audio_from_csv.py:78-88 | the preview file path never coincides with its label folder |
| CsvPreviews.RowTokenRequests | extract/e_audio_from_csv.py:85-94 | a row that is not skipped requests exactly one token, with the next credential of the cycle; a skipped row requests none |
| CsvPreviews.RunRows | extract/e_audio_from_csv.py:72-105 | over all rows, the token requests use the cycle's credentials in order, one per row that was not skipped; a finished pass reports every row; every file opened belongs to a row and exists; only a connection error escapes |
| CsvPreviews.DownloadPreviewsFromCsv | extract/e_audio_from_csv.py:65-105 | from a fresh cycle, the n-th token request uses credentials[n mod 3], and the draws equal the rows not skipped |
| CsvPreviews.RerunSkipsDownloaded | extract/e_audio_from_csv.py:84-90 | a file written by a pass makes that row skip, offline and drawing nothing, when it is processed again |
| Files.JoinKeepsParts | extract/e_audio_from_csv.py:78-86 | a joined path starts with the folder and ends with the name, with at most one separator between; an absolute name replaces the folder |
| Files.EnsureFolder | extract/e_audio_from_csv.py:80-82 | the folder exists afterwards, no file changes, and makedirs is recorded only if the folder was missing |
| Files.NonEmptyKeepsBytes | extract/e_audio_from_csv.py:46-48 | skipping empty chunks writes the same bytes |
| Files.DownloadPreview | extract/e_audio_from_csv.py:36-53 | the file is opened exactly on a 200 and then holds the streamed bytes; nothing else changes, no empty chunk is written, and any other answer leaves the disk untouched |
| Files.DownloadCreatesFile | extract/e_audio_from_csv.py:39-48 | after a 200 the preview file exists |
| PlaylistPreviews.Previews | extract/e_audio.py:45-51 | every entry kept has a non-empty preview url |
| PlaylistPreviews.PreviewsMembers | extract/e_audio.py:45-51 | an entry is kept exactly when some item has a track with a truthy preview url and gives that name and url |
| PlaylistPreviews.PreviewsAppend | extract/e_audio.py:45-51 | filtering two pages one after the other equals filtering them together |
| PlaylistPreviews.ReadPage | extract/e_audio.py:27-57 | only a connection error escapes; every other answer keeps what was gathered plus the page's entries; the loop goes on exactly after a 200 with `items` and a truthy `next` |
| PlaylistPreviews.PlaylistFrom | extract/e_audio.py:26-58 | the k-th request asks for offset + 100 k with limit 100; the result is what was gathered plus the entries of the pages read, in order |
| PlaylistPreviews.GetPlaylistData | extract/e_audio.py:16-58 | the result is the previewable entries of the pages read, each with a non-empty preview url |
| PlaylistPreviews.AllEntriesHavePreviews | extract/e_audio.py:47-51 | no entry gathered from any pages lacks a preview url |
| PlaylistPreviews.FirstPageRefused | extract/e_audio.py:33-42 | a non-200 first page, or one without `items`, returns an empty list after one request |
| PlaylistPreviews.OffsetAfterPages | extract/e_audio.py:20-57 | the k-th listing request asks the playlist's tracks url for offset 100 k with limit 100 and the bearer header |
| PlaylistPreviews.ListingStreamsNothing | extract/e_audio.py:16-58 | listing the playlist makes no streamed request |
| PlaylistPreviews.Replace | extract/e_audio.py:70 | every occurrence of the character is replaced, every other character is kept, and the length is unchanged |
| PlaylistPreviews.Scrub | extract/e_audio.py:70 | the name keeps its length, every `/`, `\` and `:` becomes `_`, and every other character is unchanged |
| PlaylistPreviews.ScrubIdempotent | extract/e_audio.py:70 | scrubbing a scrubbed name changes nothing |
| PlaylistPreviews.TrackFileName | extract/e_audio.py:70 | the file name is the scrubbed track name followed by `.mp3` and contains no path separator or colon |
| PlaylistPreviews.TrackFileInFolder | extract/e_audio.py:70-71 | the joined path ends with the track's file name |
| PlaylistPreviews.TruthyUrlsAll | extract/e_audio.py:94-102 | for a listing in which every url is non-empty, the preview guard keeps every url |
| PlaylistPreviews.DownloadAll | extract/e_audio.py:94-102 | one streamed request per entry with a url, for that url, in order; no file is lost and nothing escapes |
| PlaylistPreviews.DownloadPlaylistPreviews | extract/e_audio.py:85-102 | the folder exists afterwards, and the pass fails exactly when the listing fails |
| PlaylistPreviews.EveryListedTrackDownloaded | extract/e_audio.py:85-102 | the preview urls streamed are exactly those of the listing, in order |
| CleanTabular.Conflicts | transform/clean_tabular.py:11-19 | an id is a conflict of a frame exactly when one of its rows labels it 0 and another labels it 1 |
| CleanTabular.Repeated | transform/clean_tabular.py:11-22 | an id is repeated exactly when one of the two frames has a row labelling it 0 and a row labelling it 1 |
| CleanTabular.Relabel | transform/clean_tabular.py:25-26 | rows with a repeated id get like = 1; every other row and every other cell is unchanged |
| CleanTabular.NoConflictsAfterRelabel | transform/clean_tabular.py:18-26 | after relabelling a superset of a frame's conflicts, no id is labelled both 0 and 1 |
| CleanTabular.RelabelIdempotent | transform/clean_tabular.py:18-26 | relabelled frames have no repeated ids, so a second run changes nothing |
| CleanTabular.Select | transform/clean_tabular.py:31-32 | the projection succeeds exactly when every listed column exists; it keeps all rows with the listed cells unchanged, and otherwise names a missing column |
| CleanTabular.DedupRows | transform/clean_tabular.py:38-39 | the rows kept have distinct ids, come from the input, and include the first row of every unseen id |
| CleanTabular.DropDuplicates | transform/clean_tabular.py:38-39 | keep='first' on id: ids become unique, exactly the first row of each id survives, and the survivors keep their input order |
| CleanTabular.DedupInOrder | transform/clean_tabular.py:38-39 | the rows kept are a subsequence of the input, in input order |
| CleanTabular.LabelColumnsMissing | transform/clean_tabular.py:11-15 | the script passes the label selection exactly when both frames have `id` and `like` |
| CleanTabular.CleanFrame | transform/clean_tabular.py:25-39 | the written frame has the listed columns and like = 1 on repeated ids; other cells are unchanged; the in-memory copy afterwards keeps the first row of each id |
| CleanTabular.ListsKeepLabels | transform/clean_tabular.py:28-29 | both column lists keep `id` and `like` |
| CleanTabular.Clean | transform/clean_tabular.py:11-39 | the script succeeds exactly when both frames have every listed column, and relabels with the union of both frames' conflicts |
| CleanTabular.WrittenWithoutConflicts | transform/clean_tabular.py:18-36 | neither written file labels any id both 0 and 1 |
| CleanTabular.RelabelledWithoutConflicts | transform/clean_tabular.py:18-26 | a frame whose like is 1 on a superset of its conflicts, with ids unchanged, has no conflicts |
| CleanTabular.DuplicatesAreWritten | transform/clean_tabular.py:35-39 | the files are written before deduplication, so a duplicated id stays duplicated on disk while the in-memory copy is unique |
| SplitSpecs.Keep | transform/split_specs.py:26-29 | boolean indexing keeps the selected positions in order |
| SplitSpecs.Filter | transform/split_specs.py:25-36 | the four arrays are filtered at the same positions; arrays of unequal length raise |
| SplitSpecs.Split | transform/split_specs.py:17-36 | every id written to the train file is a train id, and every id in the test file is a test id |
| SplitSpecs.SongPlacement | transform/split_specs.py:17-36 | a song goes to the train file exactly when its id is a train id, and to the test file exactly when it is a test id |
| SplitSpecs.Placed | transform/split_specs.py:17-18 | an id is among the kept ids exactly when it is wanted |

## Left out

- `get_spotify_token` in `extract/e_audio.py` (lines 7-14) and the module-level setup of every script are left out. That setup is the CSV and HDF5 reads and writes, the hard-coded paths, the `spotify_secrets` import and the `__main__` blocks. It is plumbing around the modelled functions; the tables appear only as in-memory values.
- Progress and error printing is left out, because it has no effect on results.
- Sleeps are recorded in the trace, not performed. The request timeout appears only as a `ConnErr` answer, because time is not modelled.
- JSON decoding is left out. So are the `KeyError`s a missing field would raise: `next` or `items` in a playlist page of `extract/e_s_features.py`, a feature field, `track['artists'][0]`. Answers are typed values that always carry these fields.
- An `access_token` missing from a 200 token answer in `extract/e_add_song_title.py` is left out, for the same reason.
- A `Retry-After` header that is not a non-negative integer is left out. For a non-integer the source's `int()` raises a `ValueError`, and for a negative one `time.sleep` does; the header arrives already parsed as a natural number.
- SongTitles.FetchName: a `retries` argument other than the default 5 is not modelled. Budgets are bounded by 5, because a larger budget gives the fractional waits `2 ** (5 - retries)`.
- Disk failures in `open` or `os.makedirs` are left out, because the file system is a total map.
- The exception of a stream that breaks part-way is not modelled as an event. The helper catches it, so a broken stream is modelled by the chunks it delivered, like a finished one.
- CsvPreviews.FolderOf: `like` is an integer. pandas may read the column as a float, which would make the folder `1.0` instead of `1`. NaN ids and labels are left out too.
- CleanTabular.Select: it reports one missing column, where pandas lists every missing column.
- The NumPy string encodings and HDF5 dataset details of `transform/split_specs.py` are left out. Arrays are sequences.
- `transform/mp3_to_spec.py`, `transform/split_csv.py` and `ml/ensemble/get_rnn_val.py` are not part of this model.
- CsvPreviews.RerunSkipsDownloaded: it is stated per row, for a row whose file the first pass opened. It does not cover a whole second pass.
- Concurrency is left out, because the scripts are sequential.

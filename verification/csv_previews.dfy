/** extract/e_audio_from_csv.py: for every row of the labelled track table,
    download the track's 30-second preview into `<base>/<like>/<id>.mp3`,
    skipping rows whose file is already there and drawing a fresh credential
    set from an endless e, l, v cycle for every row it does not skip. */
module CsvPreviews {
  import opened Net
  import opened Files

  /** One row of the CSV: `id`, `like` and `track_name`. */
  datatype TrackRow = TrackRow(id: string, like: int, trackName: string)

  /** The list `rotate_credentials` cycles through. */
  const Pool: seq<Account> := [ESecrets, LSecrets, VSecrets]

  /** `itertools.cycle(credentials)`: the index in `Pool` of the credential
      the next `next()` returns. */
  datatype Cycle = Cycle(at: nat)

  predicate ValidCycle(c: Cycle) {
    c.at < |Pool|
  }

  /** `cycle(credentials)` before its first `next()`. */
  const FreshCycle: Cycle := Cycle(0)

  /** One `next()`: the credential at the index, and the cycle moved on by one,
      back to the first credential after the last. */
  function Next(c: Cycle): (r: (Account, Cycle))
    requires ValidCycle(c)
    ensures ValidCycle(r.1)
  {
    (Pool[c.at], Cycle(if c.at + 1 == |Pool| then 0 else c.at + 1))
  }

  /** The cycle after `n` calls of `next()`. */
  function Advance(c: Cycle, n: nat): (r: Cycle)
    requires ValidCycle(c)
    ensures ValidCycle(r)
    decreases n
  {
    if n == 0 then c else Advance(Next(c).1, n - 1)
  }

  /** What `n` calls of `next()` return, in order. */
  function Take(c: Cycle, n: nat): (r: seq<Account>)
    requires ValidCycle(c)
    ensures |r| == n
    decreases n
  {
    if n == 0 then [] else [Next(c).0] + Take(Next(c).1, n - 1)
  }

  /** `n` calls of `next()` move the index on by `n`, modulo the pool's size. */
  lemma {:induction false} AdvancePosition(c: Cycle, n: nat)
    requires ValidCycle(c)
    ensures Advance(c, n).at == (c.at + n) % |Pool|
    decreases n
  {
    if n > 0 {
      AdvancePosition(Next(c).1, n - 1);
    }
  }

  /** The `k`-th of `n` calls of `next()` returns the credential `k` places
      after the index, modulo the pool's size. */
  lemma {:induction false} TakePositions(c: Cycle, n: nat)
    requires ValidCycle(c)
    ensures forall k :: 0 <= k < n ==> Take(c, n)[k] == Pool[(c.at + k) % |Pool|]
    decreases n
  {
    if n > 0 {
      var next := Next(c).1;
      TakePositions(next, n - 1);
      forall k | 0 <= k < n
        ensures Take(c, n)[k] == Pool[(c.at + k) % |Pool|]
      {
        if k > 0 {
          assert Take(c, n)[k] == Take(next, n - 1)[k - 1];
        }
      }
    }
  }

  /** The credential the `n`-th `next(credentials_cycle)` (0-based) returns:
      entry `n mod 3` of the pool, as the script's one fresh cycle yields it. */
  function Credential(n: nat): (a: Account)
    ensures a == Next(Advance(FreshCycle, n)).0
  {
    AdvancePosition(FreshCycle, n);
    Pool[n % 3]
  }

  /** The credentials of `count` draws starting after `drawn` earlier ones. */
  function Draws(drawn: nat, count: nat): (r: seq<Account>)
    ensures |r| == count
    ensures forall k :: 0 <= k < count ==> r[k] == Credential(drawn + k)
    decreases count
  {
    if count == 0 then [] else [Credential(drawn)] + Draws(drawn + 1, count - 1)
  }

  /** The draws of a run are what the script's one cycle, advanced past the
      earlier draws, returns. */
  lemma DrawsFromCycle(drawn: nat, count: nat)
    ensures Draws(drawn, count) == Take(Advance(FreshCycle, drawn), count)
  {
    var c := Advance(FreshCycle, drawn);
    var d := Draws(drawn, count);
    var t := Take(c, count);
    AdvancePosition(FreshCycle, drawn);
    TakePositions(c, count);
    forall k | 0 <= k < count
      ensures d[k] == t[k]
    {
      SameDraw(drawn, k, c.at, d[k], t[k]);
    }
  }

  /** Draw `drawn + k` of the run is call `k` of the advanced cycle. */
  lemma SameDraw(drawn: nat, k: nat, at: nat, fromRun: Account, fromCycle: Account)
    requires at == drawn % 3 && fromRun == Credential(drawn + k) && fromCycle == Pool[(at + k) % |Pool|]
    ensures fromRun == fromCycle
  {
    assert (drawn % 3 + k) % 3 == (drawn + k) % 3;
  }

  /** A fresh cycle yields e, l, v and then starts over. */
  lemma CycleOrder()
    ensures Take(FreshCycle, 6) == [ESecrets, LSecrets, VSecrets, ESecrets, LSecrets, VSecrets]
  {
    TakePositions(FreshCycle, 6);
  }

  /** Three calls of `next()` bring the cycle back where it was, so that what
      it returns from then on repeats. */
  lemma CyclePeriod(c: Cycle, n: nat)
    requires ValidCycle(c)
    ensures Advance(c, 3) == c
    ensures Take(c, n + 3)[3..] == Take(c, n)
  {
    AdvancePosition(c, 3);
    TakePositions(c, n + 3);
    TakePositions(c, n);
    forall k | 0 <= k < n
      ensures Take(c, n + 3)[3..][k] == Take(c, n)[k]
    {
      assert (c.at + (k + 3)) % |Pool| == (c.at + k) % |Pool|;
    }
  }

  /** Any three consecutive calls of `next()` hand out all three credential
      sets, hence each exactly once. */
  lemma CycleFair(c: Cycle)
    requires ValidCycle(c)
    ensures ESecrets in Take(c, 3) && LSecrets in Take(c, 3) && VSecrets in Take(c, 3)
  {
    ThreeDraws(c);
  }

  /** Three calls of `next()` return a rotation of e, l, v fixed by the index. */
  lemma ThreeDraws(c: Cycle)
    requires ValidCycle(c)
    ensures c.at == 0 ==> Take(c, 3) == [ESecrets, LSecrets, VSecrets]
    ensures c.at == 1 ==> Take(c, 3) == [LSecrets, VSecrets, ESecrets]
    ensures c.at == 2 ==> Take(c, 3) == [VSecrets, ESecrets, LSecrets]
  {
    TakePositions(c, 3);
  }

  /** The answers of the three endpoints the script talks to. A token answer's
      body is the `access_token` field, a track answer's the `preview_url` field,
      either possibly absent. */
  datatype CsvNet = CsvNet(tokens: seq<Response<Option<string>>>, tracks: seq<Response<Option<string>>>,
                           downloads: seq<DownloadAnswer>)

  /** `get_spotify_token`: the token on a 200, None on any other status; a
      failed connection raises. */
  function GetSpotifyToken(answer: Response<Option<string>>): (r: Outcome<Option<string>>)
    ensures r.Raised? <==> answer.ConnErr?
    ensures r.Raised? ==> r.fault == ConnectionFailed
    ensures answer.Status? ==> r == Done(None)
    ensures answer.Ok? ==> r == Done(answer.body)
  {
    match answer
    case Ok(token) => Done(token)
    case Status(_, _) => Done(None)
    case ConnErr => Raised(ConnectionFailed)
  }

  /** `get_track_preview`: the track's `preview_url` on a 200, None otherwise; a
      failed connection raises. */
  function GetTrackPreview(answer: Response<Option<string>>): (r: Outcome<Option<string>>)
    ensures r.Raised? <==> answer.ConnErr?
    ensures r.Raised? ==> r.fault == ConnectionFailed
    ensures answer.Status? ==> r == Done(None)
    ensures answer.Ok? ==> r == Done(answer.body)
  {
    match answer
    case Ok(url) => Done(url)
    case Status(_, _) => Done(None)
    case ConnErr => Raised(ConnectionFailed)
  }

  const TrackEndpoint: string := "https://api.spotify.com/v1/tracks/"

  /** `os.path.join(folder_base_path, str(label))`. */
  function FolderOf(base: string, row: TrackRow): string {
    Join(base, IntToString(row.like))
  }

  /** `<base>/<like>/<id>.mp3`: where the row's preview is looked for and written. */
  function FileOf(base: string, row: TrackRow): string {
    Join(FolderOf(base, row), row.id + ".mp3")
  }

  /** The label folder is the base folder followed by the label's decimal
      digits; the row's file is that folder followed by `<id>.mp3`, unless the
      id starts with `/` and so is an absolute path of its own. */
  lemma FileLayout(base: string, row: TrackRow)
    ensures var digits := IntToString(row.like);
            var folder := FolderOf(base, row);
            |base| + |digits| <= |folder| <= |base| + |digits| + 1
            && folder[..|base|] == base && folder[|folder| - |digits|..] == digits
    ensures |row.id| > 0 && row.id[0] == '/' ==> FileOf(base, row) == row.id + ".mp3"
    ensures !(|row.id| > 0 && row.id[0] == '/') ==>
              var folder := FolderOf(base, row);
              var path := FileOf(base, row);
              |path| >= |folder| + |row.id| + 4 && path[..|folder|] == folder
              && path[|path| - |row.id| - 4..] == row.id + ".mp3"
  {
    var digits := IntToString(row.like);
    assert digits[0] == '-' || '0' <= digits[0] <= '9';
    JoinKeepsParts(base, digits);
    JoinKeepsParts(FolderOf(base, row), row.id + ".mp3");
  }

  /** How a row ended. */
  datatype RowKind = AlreadyThere | NoToken | NoPreview | Fetched

  /** What happens after the token request of a row that is not skipped. */
  datatype Lookup = Lookup(kind: Outcome<RowKind>, fs: FileSystem, net: CsvNet, trace: seq<Event>)

  function BearerHeader(token: string): string {
    "Bearer " + token
  }

  /** The token answer, then the track lookup and download with that token. */
  function LookupRow(id: string, path: string, fs: FileSystem, net: CsvNet): (r: Lookup)
    ensures r.kind != Done(AlreadyThere)
    ensures r.kind.Raised? ==> r.kind.fault == ConnectionFailed
    ensures IsSuffix(r.net.tokens, net.tokens) && |r.net.tokens| >= |net.tokens| - 1
    ensures IsSuffix(r.net.tracks, net.tracks) && IsSuffix(r.net.downloads, net.downloads)
    ensures r.fs.dirs == fs.dirs
    ensures forall i :: 0 <= i < |r.trace| ==> !r.trace[i].TokenRequest? && !r.trace[i].MakeDirs?
    ensures r.kind != Done(Fetched) ==> r.net.downloads == net.downloads && r.fs == fs && Open(path) !in r.trace
    ensures r.kind != Done(Fetched) ==> forall i :: 0 <= i < |r.trace| ==> r.trace[i].Get?
    ensures r.kind == Done(Fetched) ==> (Open(path) in r.trace <==> Receive(net.downloads).0.Ok?)
    ensures r.kind == Done(Fetched) && Receive(net.downloads).0.Ok? ==> path in r.fs.files
    // files are only ever added, and only `path` is opened
    ensures forall p :: p in fs.files ==> p in r.fs.files
    ensures forall p :: Open(p) in r.trace ==> p == path
    // without a token nothing further is asked
    ensures r.kind == Done(NoToken) ==> r.trace == [] && r.net.tracks == net.tracks
  {
    var (tokenAnswer, tokens) := Receive(net.tokens);
    match GetSpotifyToken(tokenAnswer)
    case Raised(fault) => Lookup(Raised(fault), fs, net.(tokens := tokens), [])
    case Done(token) =>
      if !Truthy(token) then Lookup(Done(NoToken), fs, net.(tokens := tokens), [])
      else FetchTrack(id, token.value, path, fs, net.(tokens := tokens))
  }

  /** `get_track_preview` with the row's token, then `download_preview` if it
      found a preview url. */
  function FetchTrack(id: string, token: string, path: string, fs: FileSystem, net: CsvNet): (r: Lookup)
    ensures r.kind != Done(AlreadyThere) && r.kind != Done(NoToken)
    ensures r.kind.Raised? ==> r.kind.fault == ConnectionFailed
    ensures r.net.tokens == net.tokens
    ensures IsSuffix(r.net.tracks, net.tracks) && IsSuffix(r.net.downloads, net.downloads)
    ensures r.fs.dirs == fs.dirs
    ensures forall i :: 0 <= i < |r.trace| ==> !r.trace[i].TokenRequest? && !r.trace[i].MakeDirs?
    ensures r.kind != Done(Fetched) ==> r.net.downloads == net.downloads && r.fs == fs && Open(path) !in r.trace
    ensures r.kind != Done(Fetched) ==> forall i :: 0 <= i < |r.trace| ==> r.trace[i].Get?
    ensures r.kind == Done(Fetched) ==> (Open(path) in r.trace <==> Receive(net.downloads).0.Ok?)
    ensures r.kind == Done(Fetched) && Receive(net.downloads).0.Ok? ==> path in r.fs.files
    // files are only ever added, and only `path` is opened
    ensures forall p :: p in fs.files ==> p in r.fs.files
    ensures forall p :: Open(p) in r.trace ==> p == path
    // the track is always looked up, with the token as bearer
    ensures |r.trace| >= 1 && r.trace[0] == Get(TrackEndpoint + id, [], Some(BearerHeader(token)))
  {
    var get := [Get(TrackEndpoint + id, [], Some(BearerHeader(token)))];
    var (trackAnswer, tracks) := Receive(net.tracks);
    match GetTrackPreview(trackAnswer)
    case Raised(fault) => Lookup(Raised(fault), fs, net.(tracks := tracks), get)
    case Done(url) =>
      if !Truthy(url) then Lookup(Done(NoPreview), fs, net.(tracks := tracks), get)
      else
        var d := DownloadPreview(url.value, path, fs, net.downloads);
        Lookup(Done(Fetched), d.fs, CsvNet(net.tokens, tracks, d.rest), get + d.trace)
  }

  /** With a token in hand, the track answer alone decides the row: a 200 with
      a truthy `preview_url` leads to the download, a 200 without one or any
      other status gives no preview, and a failed connection raises. */
  lemma FetchOutcome(id: string, token: string, path: string, fs: FileSystem, net: CsvNet)
    ensures var a := Receive(net.tracks).0;
            var r := FetchTrack(id, token, path, fs, net);
            && (r.kind == Done(Fetched) <==> a.Ok? && Truthy(a.body))
            && (r.kind == Done(NoPreview) <==> a.Status? || (a.Ok? && !Truthy(a.body)))
            && (r.kind.Raised? <==> a.ConnErr?)
  {
  }

  /** How a row that is not skipped ends, by its answers: a non-200 token answer
      or one without a token skips the rest; a token leads to the track lookup
      with that token, whose answer decides as in FetchOutcome; a failed
      connection of either request raises. */
  lemma LookupOutcome(id: string, path: string, fs: FileSystem, net: CsvNet)
    ensures var t := Receive(net.tokens).0;
            var a := Receive(net.tracks).0;
            var r := LookupRow(id, path, fs, net);
            && (r.kind == Done(NoToken) <==> t.Status? || (t.Ok? && !Truthy(t.body)))
            && (r.kind.Raised? <==> t.ConnErr? || (t.Ok? && Truthy(t.body) && a.ConnErr?))
            && (r.kind == Done(NoPreview) <==> t.Ok? && Truthy(t.body) && (a.Status? || (a.Ok? && !Truthy(a.body))))
            && (r.kind == Done(Fetched) <==> t.Ok? && Truthy(t.body) && a.Ok? && Truthy(a.body))
            && (t.Ok? && Truthy(t.body) ==>
                  |r.trace| >= 1 && r.trace[0] == Get(TrackEndpoint + id, [], Some(BearerHeader(t.body.value))))
  {
    var (t, tokens) := Receive(net.tokens);
    if t.Ok? && Truthy(t.body) {
      FetchOutcome(id, t.body.value, path, fs, net.(tokens := tokens));
    }
  }

  datatype RowRun = RowRun(kind: Outcome<RowKind>, fs: FileSystem, drawn: nat, net: CsvNet, trace: seq<Event>)

  /** One iteration of the `for index, row in df.iterrows()` loop. `drawn` counts
      the credentials taken from the cycle so far. */
  function ProcessRow(row: TrackRow, base: string, fs: FileSystem, drawn: nat, net: CsvNet): (r: RowRun)
    // the cycle advances by one exactly for a row that is not skipped
    ensures r.drawn == if r.kind == Done(AlreadyThere) then drawn else drawn + 1
    // the folder exists afterwards
    ensures Exists(r.fs, FolderOf(base, row))
    // a row whose file exists is skipped without touching the network
    ensures r.kind == Done(AlreadyThere) <==> Exists(fs, FileOf(base, row))
    ensures r.kind == Done(AlreadyThere) ==> r.net == net && Offline(r.trace)
    // only a failed connection escapes
    ensures r.kind.Raised? ==> r.kind.fault == ConnectionFailed
    // each endpoint's answers are taken in order, the token endpoint's at most once
    ensures IsSuffix(r.net.tokens, net.tokens) && |r.net.tokens| >= |net.tokens| - 1
    ensures IsSuffix(r.net.tracks, net.tracks) && IsSuffix(r.net.downloads, net.downloads)
    // nothing that existed disappears; the only file opened is the row's own,
    // and once opened it exists
    ensures forall p :: Exists(fs, p) ==> Exists(r.fs, p)
    ensures forall p :: Open(p) in r.trace ==> p == FileOf(base, row) && p in r.fs.files
    // a preview is streamed only for a row that reached the download
    ensures r.kind != Done(Fetched) ==> r.net.downloads == net.downloads
    ensures r.kind != Done(Fetched) ==> forall i :: 0 <= i < |r.trace| ==> !r.trace[i].GetStream?
  {
    var folder := FolderOf(base, row);
    var (fs1, made) := EnsureFolder(fs, folder);
    var path := FileOf(base, row);
    FileIsNotFolder(base, row);
    if Exists(fs1, path) then
      RowRun(Done(AlreadyThere), fs1, drawn, net, made)
    else
      var l := LookupRow(row.id, path, fs1, net);
      RowRun(l.kind, l.fs, drawn + 1, l.net, made + [TokenRequest(Credential(drawn))] + l.trace)
  }

  /** The file a row is looked up by is never its own folder: it ends in
      `.mp3`, while the folder ends in the digits of `like` after a separator. */
  lemma FileIsNotFolder(base: string, row: TrackRow)
    ensures FileOf(base, row) != FolderOf(base, row)
  {
    var s := IntToString(row.like);
    var folder := FolderOf(base, row);
    var name := row.id + ".mp3";
    var path := FileOf(base, row);
    assert name[|name| - 4..] == ".mp3";
    if name[0] == '/' {
      assert path == name;
      // the folder is `s`, `base + s` after a '/', or `base + "/" + s`
      var cut := |folder| - |s|;
      assert folder[cut..] == s;
      assert cut == 0 || folder[cut - 1] == '/';
      if |folder| == |name| {
        if |s| >= 4 {
          assert folder[|folder| - 4] == s[|s| - 4];
          assert folder[|folder| - 4] != name[|name| - 4];
        } else {
          assert folder[cut - 1] != name[cut - 1];
        }
      }
    } else {
      assert |path| > |folder|;
    }
  }

  /** What one row sends to the token endpoint: nothing if skipped, otherwise
      exactly one request with the next credential of the cycle. */
  lemma RowTokenRequests(row: TrackRow, base: string, fs: FileSystem, drawn: nat, net: CsvNet)
    ensures var r := ProcessRow(row, base, fs, drawn, net);
            Pick(r.trace, TokenAccountOf) == if r.kind == Done(AlreadyThere) then [] else [Credential(drawn)]
  {
    var folder := FolderOf(base, row);
    var (fs1, made) := EnsureFolder(fs, folder);
    PickNothing(made, TokenAccountOf);
    if !Exists(fs1, FileOf(base, row)) {
      var l := LookupRow(row.id, FileOf(base, row), fs1, net);
      var ask := [TokenRequest(Credential(drawn))];
      PickTwo(ask[0], ask[0], TokenAccountOf);
      PickNothing(l.trace, TokenAccountOf);
      PickAppend(made, ask, TokenAccountOf);
      PickAppend(made + ask, l.trace, TokenAccountOf);
    }
  }

  /** The kinds of the rows processed, or the fault that ended the run. */
  datatype CsvRun = CsvRun(outcome: Outcome<seq<RowKind>>, fs: FileSystem, drawn: nat, net: CsvNet, trace: seq<Event>)

  /** The rows that drew a credential. */
  function Unskipped(kinds: seq<RowKind>): nat {
    if kinds == [] then 0 else (if kinds[0] == AlreadyThere then 0 else 1) + Unskipped(kinds[1..])
  }

  function PrependKind(kind: RowKind, rest: Outcome<seq<RowKind>>): Outcome<seq<RowKind>> {
    match rest
    case Done(kinds) => Done([kind] + kinds)
    case Raised(fault) => Raised(fault)
  }

  /** The loop body, as a function of the row and the state before it. */
  type RowStep = (TrackRow, FileSystem, nat, CsvNet) -> RowRun

  /** What the loop relies on from one row's processing: a skipped row draws
      nothing and asks for no token, any other row draws the next credential
      and asks for a token with it exactly once; files are never lost; the only
      file opened is the row's own and it exists afterwards; only a failed
      connection escapes. */
  ghost predicate RowContract(row: TrackRow, base: string, fs: FileSystem, drawn: nat, r: RowRun) {
    var skipped := r.kind == Done(AlreadyThere);
    && r.drawn == (if skipped then drawn else drawn + 1)
    && Pick(r.trace, TokenAccountOf) == (if skipped then [] else [Credential(drawn)])
    && (forall p :: Exists(fs, p) ==> Exists(r.fs, p))
    && (forall p :: Open(p) in r.trace ==> p == FileOf(base, row) && p in r.fs.files)
    && (r.kind.Raised? ==> r.kind.fault == ConnectionFailed)
  }

  /** `ProcessRow` keeps the contract the loop relies on. */
  lemma ProcessRowContract(row: TrackRow, base: string, fs: FileSystem, drawn: nat, net: CsvNet)
    ensures RowContract(row, base, fs, drawn, ProcessRow(row, base, fs, drawn, net))
  {
    RowTokenRequests(row, base, fs, drawn, net);
  }

  /** What the loop promises about a run over `rows` from `fs` with `drawn`
      credentials drawn before it: a completed run has one outcome per row and
      drew one credential per unskipped row; only a failed connection escapes;
      token requests use the credential cycle in order, one per unskipped row;
      nothing that existed disappears; every file opened belongs to a row and
      exists at the end. */
  ghost predicate RunContract(rows: seq<TrackRow>, base: string, fs: FileSystem, drawn: nat, r: CsvRun) {
    && r.drawn >= drawn
    && (r.outcome.Done? ==> |r.outcome.value| == |rows| && r.drawn == drawn + Unskipped(r.outcome.value))
    && (r.outcome.Raised? ==> r.outcome.fault == ConnectionFailed)
    && Pick(r.trace, TokenAccountOf) == Draws(drawn, r.drawn - drawn)
    && (forall p :: Exists(fs, p) ==> Exists(r.fs, p))
    && (forall p :: Open(p) in r.trace ==> Exists(r.fs, p) && exists k :: 0 <= k < |rows| && p == FileOf(base, rows[k]))
  }

  /** The `for` loop over the rows with `step` as its body; the first exception ends it. */
  function RunRows(rows: seq<TrackRow>, base: string, fs: FileSystem, drawn: nat, net: CsvNet, step: RowStep): (r: CsvRun)
    requires forall row, f, d, n :: RowContract(row, base, f, d, step(row, f, d, n))
    decreases |rows|
    ensures RunContract(rows, base, fs, drawn, r)
  {
    if rows == [] then CsvRun(Done([]), fs, drawn, net, [])
    else
      var p := step(rows[0], fs, drawn, net);
      match p.kind
      case Raised(fault) =>
        RunRowsRaised(rows, base, fs, drawn, p);
        CsvRun(Raised(fault), p.fs, p.drawn, p.net, p.trace)
      case Done(kind) =>
        var rest := RunRows(rows[1..], base, p.fs, p.drawn, p.net, step);
        RunRowsCons(rows, base, fs, drawn, p, kind, rest);
        CsvRun(PrependKind(kind, rest.outcome), rest.fs, rest.drawn, rest.net, p.trace + rest.trace)
  }

  /** A first row that raises ends the run with its fault. */
  lemma RunRowsRaised(rows: seq<TrackRow>, base: string, fs: FileSystem, drawn: nat, p: RowRun)
    requires rows != [] && RowContract(rows[0], base, fs, drawn, p) && p.kind.Raised?
    ensures RunContract(rows, base, fs, drawn, CsvRun(Raised(p.kind.fault), p.fs, p.drawn, p.net, p.trace))
  {
    DrawsCons(drawn, p.drawn, p.drawn);
  }

  /** A first row that completes, followed by the run over the other rows. */
  lemma RunRowsCons(rows: seq<TrackRow>, base: string, fs: FileSystem, drawn: nat, p: RowRun, kind: RowKind,
                    rest: CsvRun)
    requires rows != [] && RowContract(rows[0], base, fs, drawn, p) && p.kind == Done(kind)
    requires RunContract(rows[1..], base, p.fs, p.drawn, rest)
    ensures RunContract(rows, base, fs, drawn,
                        CsvRun(PrependKind(kind, rest.outcome), rest.fs, rest.drawn, rest.net, p.trace + rest.trace))
  {
    DrawsGlue(p.trace, rest.trace, drawn, p.drawn, rest.drawn);
    assert rest.outcome.Done? ==> ([kind] + rest.outcome.value)[1..] == rest.outcome.value;
    RunRowsConsFiles(rows, base, fs, p, rest);
  }

  /** The file-system half of RunRowsCons: what the first row and the rest keep and open. */
  lemma RunRowsConsFiles(rows: seq<TrackRow>, base: string, fs: FileSystem, p: RowRun, rest: CsvRun)
    requires rows != []
    requires forall q :: Exists(fs, q) ==> Exists(p.fs, q)
    requires forall q :: Open(q) in p.trace ==> q == FileOf(base, rows[0]) && q in p.fs.files
    requires forall q :: Exists(p.fs, q) ==> Exists(rest.fs, q)
    requires forall q :: Open(q) in rest.trace ==>
               Exists(rest.fs, q) && exists k :: 0 <= k < |rows[1..]| && q == FileOf(base, rows[1..][k])
    ensures forall q :: Exists(fs, q) ==> Exists(rest.fs, q)
    ensures forall q :: Open(q) in p.trace + rest.trace ==>
              Exists(rest.fs, q) && exists k :: 0 <= k < |rows| && q == FileOf(base, rows[k])
  {
    forall q | Open(q) in p.trace + rest.trace
      ensures Exists(rest.fs, q) && exists k :: 0 <= k < |rows| && q == FileOf(base, rows[k])
    {
      if Open(q) in p.trace {
        assert Exists(p.fs, q);
        assert q == FileOf(base, rows[0]);
      } else {
        assert Open(q) in rest.trace;
        var k :| 0 <= k < |rows[1..]| && q == FileOf(base, rows[1..][k]);
        assert rows[1..][k] == rows[k + 1];
      }
    }
  }

  /** `download_previews_from_csv` over the rows of the table. */
  function DownloadPreviewsFromCsv(rows: seq<TrackRow>, base: string, fs: FileSystem, net: CsvNet): (r: CsvRun)
    ensures r.outcome.Done? ==> |r.outcome.value| == |rows|
    // the n-th row that is not skipped asks for a token with credentials[n mod 3]
    ensures Pick(r.trace, TokenAccountOf) == Draws(0, r.drawn)
    ensures r.outcome.Done? ==> r.drawn == Unskipped(r.outcome.value)
    ensures forall p :: Open(p) in r.trace ==> Exists(r.fs, p)
  {
    forall row, f, d, n ensures RowContract(row, base, f, d, ProcessRow(row, base, f, d, n)) {
      ProcessRowContract(row, base, f, d, n);
    }
    RunRows(rows, base, fs, 0, net, (row: TrackRow, f: FileSystem, d: nat, n: CsvNet) => ProcessRow(row, base, f, d, n))
  }

  /** One row's token requests followed by the rest of the run's continue the draws. */
  lemma DrawsGlue(head: seq<Event>, tail: seq<Event>, drawn: nat, next: nat, last: nat)
    requires drawn <= next <= drawn + 1 && next <= last
    requires Pick(head, TokenAccountOf) == if next == drawn then [] else [Credential(drawn)]
    requires Pick(tail, TokenAccountOf) == Draws(next, last - next)
    ensures Pick(head + tail, TokenAccountOf) == Draws(drawn, last - drawn)
  {
    PickAppend(head, tail, TokenAccountOf);
    DrawsCons(drawn, next, last);
  }

  /** `Draws` continued after zero or one draw, with picks appended. */
  lemma DrawsCons(drawn: nat, next: nat, last: nat)
    requires drawn <= next <= drawn + 1 && next <= last
    ensures (if next == drawn then [] else [Credential(drawn)]) + Draws(next, last - next) == Draws(drawn, last - drawn)
  {
  }

  /** Running the script again over the files it left behind skips every row
      whose preview it downloaded, without drawing a credential or asking the
      network anything. */
  lemma RerunSkipsDownloaded(rows: seq<TrackRow>, base: string, fs: FileSystem, net: CsvNet,
                             row: TrackRow, drawnAgain: nat, netAgain: CsvNet)
    ensures var r := DownloadPreviewsFromCsv(rows, base, fs, net);
            var again := ProcessRow(row, base, r.fs, drawnAgain, netAgain);
            Open(FileOf(base, row)) in r.trace ==>
              again.kind == Done(AlreadyThere) && again.drawn == drawnAgain && again.net == netAgain && Offline(again.trace)
  {
  }
}

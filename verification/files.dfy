/** The part of the file system the download helpers touch: directories,
    files with byte contents, `os.path.join`, and the streamed preview download
    that both preview scripts share. */
module Files {
  import opened Net

  datatype FileSystem = FileSystem(dirs: set<string>, files: map<string, seq<bv8>>)

  /** `os.path.exists`. */
  predicate Exists(fs: FileSystem, path: string) {
    path in fs.dirs || path in fs.files
  }

  /** `os.path.join(a, b)` for POSIX paths: an absolute `b` replaces `a`,
      otherwise a separator is inserted unless `a` is empty or already ends in one. */
  function Join(a: string, b: string): string {
    if |b| > 0 && b[0] == '/' then b
    else if a == "" || a[|a| - 1] == '/' then a + b
    else a + "/" + b
  }

  /** Joining a relative name keeps the folder as the path's start and the
      name as its end, with at most a separator between them; an absolute name
      is the whole path. */
  lemma JoinKeepsParts(a: string, b: string)
    ensures |b| > 0 && b[0] == '/' ==> Join(a, b) == b
    ensures !(|b| > 0 && b[0] == '/') ==>
              var p := Join(a, b);
              |a| + |b| <= |p| <= |a| + |b| + 1 && p[..|a|] == a && p[|p| - |b|..] == b
  {
    var p := Join(a, b);
    if !(|b| > 0 && b[0] == '/') {
      if a == "" || a[|a| - 1] == '/' {
        assert p == a + b;
        assert p[..|a|] == a && p[|p| - |b|..] == b;
      } else {
        assert p == (a + "/") + b;
        assert p[..|a|] == a && p[|p| - |b|..] == b;
      }
    }
  }

  /** Joining a relative name ends the path with that name. */
  lemma JoinEndsWithName(a: string, b: string)
    requires |b| > 0 && b[0] != '/'
    ensures |Join(a, b)| >= |b| && Join(a, b)[|Join(a, b)| - |b|..] == b
  {
    var p := Join(a, b);
    if a == "" || a[|a| - 1] == '/' {
      assert p == a + b;
      assert p[|p| - |b|..] == b;
    } else {
      assert p == (a + "/") + b;
      assert p[|p| - |b|..] == b;
    }
  }

  /** `if not os.path.exists(folder): os.makedirs(folder)`. */
  function EnsureFolder(fs: FileSystem, folder: string): (r: (FileSystem, seq<Event>))
    ensures Exists(r.0, folder)
    ensures r.0.files == fs.files && fs.dirs <= r.0.dirs
    ensures forall p :: p != folder ==> (Exists(r.0, p) <==> Exists(fs, p))
    ensures r.1 == if Exists(fs, folder) then [] else [MakeDirs(folder)]
  {
    if Exists(fs, folder) then (fs, []) else (fs.(dirs := fs.dirs + {folder}), [MakeDirs(folder)])
  }

  /** A streamed response body: the chunks it delivers, up to its end or up to
      the point where it breaks off. The helper catches the exception of a
      broken stream, so the two end alike. */
  datatype Stream = Stream(chunks: seq<seq<bv8>>)

  type DownloadAnswer = Response<Stream>

  /** The chunks the `if chunk:` guard lets through. */
  function NonEmpty(chunks: seq<seq<bv8>>): (r: seq<seq<bv8>>)
    ensures forall i :: 0 <= i < |r| ==> r[i] != []
    ensures |r| <= |chunks|
  {
    if chunks == [] then []
    else (if chunks[0] != [] then [chunks[0]] else []) + NonEmpty(chunks[1..])
  }

  function Flatten(chunks: seq<seq<bv8>>): seq<bv8> {
    if chunks == [] then [] else chunks[0] + Flatten(chunks[1..])
  }

  /** Skipping empty chunks does not change the bytes written. */
  lemma {:induction false} NonEmptyKeepsBytes(chunks: seq<seq<bv8>>)
    ensures Flatten(NonEmpty(chunks)) == Flatten(chunks)
  {
    if chunks != [] {
      NonEmptyKeepsBytes(chunks[1..]);
      var head := if chunks[0] != [] then [chunks[0]] else [];
      FlattenAppend(head, NonEmpty(chunks[1..]));
      if chunks[0] == [] {
        assert Flatten(head) == [];
        assert Flatten(chunks) == [] + Flatten(chunks[1..]);
      } else {
        assert Flatten(head) == chunks[0] + Flatten([]);
      }
    }
  }

  lemma {:induction false} FlattenAppend(a: seq<seq<bv8>>, b: seq<seq<bv8>>)
    ensures Flatten(a + b) == Flatten(a) + Flatten(b)
  {
    if a == [] {
      assert a + b == b;
    } else {
      assert (a + b)[0] == a[0];
      assert (a + b)[1..] == a[1..] + b;
      FlattenAppend(a[1..], b);
    }
  }

  function WriteEvents(path: string, chunks: seq<seq<bv8>>): (r: seq<Event>)
    ensures |r| == |chunks|
    ensures forall i :: 0 <= i < |r| ==> r[i] == Write(path, chunks[i])
  {
    if chunks == [] then [] else [Write(path, chunks[0])] + WriteEvents(path, chunks[1..])
  }

  datatype DownloadRun = DownloadRun(fs: FileSystem, rest: seq<DownloadAnswer>, trace: seq<Event>)

  /** `download_preview`: a streamed GET of `url`; on a 200 the file at `path`
      is opened for writing (truncated) and every non-empty chunk is written to
      it in place; any other status or a failure writes nothing, and nothing is
      raised. A stream that breaks off leaves the chunks written before it. */
  function DownloadPreview(url: string, path: string, fs: FileSystem, answers: seq<DownloadAnswer>): (r: DownloadRun)
    ensures IsSuffix(r.rest, answers) && |r.rest| == if answers == [] then 0 else |answers| - 1
    ensures r.fs.dirs == fs.dirs
    // a file is opened only on a 200, and then holds exactly the streamed bytes
    ensures Open(path) in r.trace <==> Receive(answers).0.Ok?
    ensures Receive(answers).0.Ok? ==> path in r.fs.files && r.fs.files[path] == Flatten(Receive(answers).0.body.chunks)
    ensures !Receive(answers).0.Ok? ==> r.fs == fs
    // no other file changes
    ensures forall p :: p != path ==> (p in r.fs.files <==> p in fs.files)
    ensures forall p :: p != path && p in fs.files ==> r.fs.files[p] == fs.files[p]
    // empty chunks are never written
    ensures forall i :: 0 <= i < |r.trace| && r.trace[i].Write? ==> r.trace[i].chunk != []
    // one streamed request, then at most the file's own events
    ensures |r.trace| >= 1 && r.trace[0] == GetStream(url)
    ensures forall i :: 1 <= i < |r.trace| ==> r.trace[i] == Open(path) || (r.trace[i].Write? && r.trace[i].path == path)
  {
    var (answer, rest) := Receive(answers);
    var request := [GetStream(url)];
    match answer
    case Ok(stream) =>
      var written := NonEmpty(stream.chunks);
      NonEmptyKeepsBytes(stream.chunks);
      var trace := request + [Open(path)] + WriteEvents(path, written);
      assert trace[1] == Open(path);
      DownloadRun(fs.(files := fs.files[path := Flatten(written)]), rest, trace)
    case Status(_, _) =>
      DownloadRun(fs, rest, request)
    case ConnErr =>
      DownloadRun(fs, rest, request)
  }

  /** After a 200 download the file exists, whatever the stream did. */
  lemma DownloadCreatesFile(url: string, path: string, fs: FileSystem, stream: Stream, rest: seq<DownloadAnswer>)
    ensures Exists(DownloadPreview(url, path, fs, [Ok(stream)] + rest).fs, path)
  {
    assert ([Ok(stream)] + rest)[0] == Ok(stream);
  }
}

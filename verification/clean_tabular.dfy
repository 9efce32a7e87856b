/** transform/clean_tabular.py: tracks that one feature table labels both
    liked (`like == 1`) and not liked (`like == 0`) are relabelled as liked in
    both tables, each table is cut down to its fixed column list and saved, and
    only then are duplicate ids dropped from the in-memory copies. */
module CleanTabular {
  import opened Net

  /** A CSV cell as pandas reads it: text, a number, or an empty cell (NaN). */
  datatype Cell = Text(text: string) | Number(value: real) | Blank

  type Row = map<string, Cell>

  datatype Frame = Frame(columns: seq<string>, rows: seq<Row>)

  /** Every row of a data frame has exactly the frame's columns. */
  ghost predicate WellFormed(f: Frame) {
    forall i, c :: 0 <= i < |f.rows| ==> (c in f.rows[i] <==> c in f.columns)
  }

  /** `row[c]`, if the row has that column. */
  function Lookup(row: Row, c: string): Option<Cell> {
    if c in row then Some(row[c]) else None
  }

  function IdOf(row: Row): Option<Cell> {
    Lookup(row, "id")
  }

  /** `row['like'] == label`, for a row that also has an id. */
  predicate Labelled(row: Row, mark: real) {
    "id" in row && "like" in row && row["like"] == Number(mark)
  }

  /** `set(df[df['like'] == label]['id'])`. */
  function Ids(f: Frame, mark: real): set<Cell> {
    set i | 0 <= i < |f.rows| && Labelled(f.rows[i], mark) :: f.rows[i]["id"]
  }

  /** Some row of the frame carries id `x` and like `mark`. */
  ghost predicate HasLabelledRow(f: Frame, x: Cell, mark: real) {
    exists i :: 0 <= i < |f.rows| && Labelled(f.rows[i], mark) && f.rows[i]["id"] == x
  }

  /** One row of the frame says id `x` is not liked and another says it is. */
  ghost predicate LabelledBoth(f: Frame, x: Cell) {
    HasLabelledRow(f, x, 0.0) && HasLabelledRow(f, x, 1.0)
  }

  /** The ids one frame labels both 0 and 1. */
  function Conflicts(f: Frame): (r: set<Cell>)
    ensures forall x :: x in r <==> LabelledBoth(f, x)
  {
    Ids(f, 0.0) * Ids(f, 1.0)
  }

  /** The ids relabelled in both frames: conflicting in either of them. */
  function Repeated(df1: Frame, df2: Frame): (r: set<Cell>)
    ensures forall x :: x in r <==> LabelledBoth(df1, x) || LabelledBoth(df2, x)
  {
    Conflicts(df1) + Conflicts(df2)
  }

  /** `df['id'].isin(ids)` for one row. */
  predicate Hit(row: Row, ids: set<Cell>) {
    "id" in row && row["id"] in ids
  }

  function RelabelRow(row: Row, ids: set<Cell>): Row {
    if Hit(row, ids) then row["like" := Number(1.0)] else row
  }

  /** `df.loc[df['id'].isin(ids), 'like'] = 1`. */
  function Relabel(f: Frame, ids: set<Cell>): (r: Frame)
    requires WellFormed(f) && "like" in f.columns
    ensures WellFormed(r) && r.columns == f.columns && |r.rows| == |f.rows|
    // every cell but `like` is kept
    ensures forall i, c :: 0 <= i < |r.rows| && c != "like" ==> Lookup(r.rows[i], c) == Lookup(f.rows[i], c)
    // `like` becomes 1 exactly on the rows whose id is in the set, and changes nowhere else
    ensures forall i :: 0 <= i < |r.rows| && Hit(f.rows[i], ids) ==> Lookup(r.rows[i], "like") == Some(Number(1.0))
    ensures forall i :: 0 <= i < |r.rows| && !Hit(f.rows[i], ids) ==> r.rows[i] == f.rows[i]
    // a liked row stays liked
    ensures forall i :: 0 <= i < |r.rows| && Labelled(f.rows[i], 1.0) ==> Labelled(r.rows[i], 1.0)
  {
    Frame(f.columns, seq(|f.rows|, i requires 0 <= i < |f.rows| => RelabelRow(f.rows[i], ids)))
  }

  /** Lines 11-26: both frames relabelled with the ids repeated in either. */
  function RelabelBoth(df1: Frame, df2: Frame): (r: (Frame, Frame))
    requires WellFormed(df1) && WellFormed(df2) && "like" in df1.columns && "like" in df2.columns
    ensures WellFormed(r.0) && WellFormed(r.1)
  {
    var repeated := Repeated(df1, df2);
    (Relabel(df1, repeated), Relabel(df2, repeated))
  }

  /** Relabelling with a set that holds a frame's conflicts leaves it with none. */
  lemma NoConflictsAfterRelabel(f: Frame, ids: set<Cell>)
    requires WellFormed(f) && "like" in f.columns && Conflicts(f) <= ids
    ensures Conflicts(Relabel(f, ids)) == {}
  {
    var g := Relabel(f, ids);
    forall x | x in Ids(g, 0.0)
      ensures x !in Ids(g, 1.0)
    {
      var i :| 0 <= i < |g.rows| && Labelled(g.rows[i], 0.0) && g.rows[i]["id"] == x;
      assert x !in ids;
      assert g.rows[i] == f.rows[i];
      assert x in Ids(f, 0.0);
      assert x !in Ids(f, 1.0);
      forall j | 0 <= j < |g.rows| && "id" in g.rows[j] && g.rows[j]["id"] == x
        ensures !Labelled(g.rows[j], 1.0)
      {
        assert g.rows[j] == f.rows[j];
      }
    }
  }

  /** After the relabelling no id in either frame is labelled both 0 and 1, so
      running the step again finds nothing repeated and changes nothing. */
  lemma {:induction false} RelabelIdempotent(df1: Frame, df2: Frame)
    requires WellFormed(df1) && WellFormed(df2) && "like" in df1.columns && "like" in df2.columns
    ensures var (g1, g2) := RelabelBoth(df1, df2);
            Conflicts(g1) == {} && Conflicts(g2) == {} && Repeated(g1, g2) == {}
            && RelabelBoth(g1, g2) == (g1, g2)
  {
    var (g1, g2) := RelabelBoth(df1, df2);
    NoConflictsAfterRelabel(df1, Repeated(df1, df2));
    NoConflictsAfterRelabel(df2, Repeated(df1, df2));
    assert Repeated(g1, g2) == {};
    RelabelNothing(g1);
    RelabelNothing(g2);
  }

  lemma RelabelNothing(f: Frame)
    requires WellFormed(f) && "like" in f.columns
    ensures Relabel(f, {}) == f
  {
    assert Relabel(f, {}).rows == f.rows;
  }

  /** The first of `wanted` that is not a column, if any. */
  function FirstMissing(columns: seq<string>, wanted: seq<string>): (r: Option<string>)
    ensures r.None? <==> forall c :: c in wanted ==> c in columns
    ensures r.Some? ==> r.value in wanted && r.value !in columns
  {
    if wanted == [] then None
    else if wanted[0] !in columns then Some(wanted[0])
    else FirstMissing(columns, wanted[1..])
  }

  /** `df[cols]`: a KeyError names a missing column; otherwise the frame with
      exactly `cols`, in that order, and every row cut down to them. */
  function Select(f: Frame, cols: seq<string>): (r: Outcome<Frame>)
    requires WellFormed(f)
    ensures r.Done? <==> forall c :: c in cols ==> c in f.columns
    ensures r.Raised? ==> r.fault.MissingColumn? && r.fault.column in cols && r.fault.column !in f.columns
    ensures r.Done? ==> WellFormed(r.value) && r.value.columns == cols && |r.value.rows| == |f.rows|
    ensures r.Done? ==> forall i, c :: 0 <= i < |f.rows| && c in cols ==> Lookup(r.value.rows[i], c) == Lookup(f.rows[i], c)
  {
    match FirstMissing(f.columns, cols)
    case Some(c) => Raised(MissingColumn(c))
    case None =>
      Done(Frame(cols, seq(|f.rows|, i requires 0 <= i < |f.rows| => map c | c in cols && c in f.rows[i] :: f.rows[i][c])))
  }

  /** Whether row `i` is the first with its id. */
  predicate FirstOfId(rows: seq<Row>, i: int)
    requires 0 <= i < |rows|
  {
    forall j :: 0 <= j < i ==> IdOf(rows[j]) != IdOf(rows[i])
  }

  predicate UniqueIds(rows: seq<Row>) {
    forall k, l :: 0 <= k < l < |rows| ==> IdOf(rows[k]) != IdOf(rows[l])
  }

  /** A first occurrence after the head is a first occurrence in the tail, with an id other than the head's. */
  lemma FirstsOfTail(rows: seq<Row>)
    requires rows != []
    ensures forall i :: 1 <= i < |rows| && FirstOfId(rows, i) ==>
              FirstOfId(rows[1..], i - 1) && rows[i] == rows[1..][i - 1] && IdOf(rows[i]) != IdOf(rows[0])
  {
    forall i | 1 <= i < |rows| && FirstOfId(rows, i)
      ensures FirstOfId(rows[1..], i - 1)
    {
      forall j | 0 <= j < i - 1
        ensures IdOf(rows[1..][j]) != IdOf(rows[1..][i - 1])
      {
        assert rows[1..][j] == rows[j + 1];
      }
    }
  }

  /** `sub` is `rows` with some rows left out, the rest in their order. */
  predicate Subsequence(sub: seq<Row>, rows: seq<Row>)
    decreases |rows|
  {
    sub == []
    || (rows != [] && ((sub[0] == rows[0] && Subsequence(sub[1..], rows[1..])) || Subsequence(sub, rows[1..])))
  }

  /** The rows whose ids are not in `seen`, keeping the first row of each id. */
  function DedupRows(rows: seq<Row>, seen: set<Option<Cell>>): (r: seq<Row>)
    ensures forall k :: 0 <= k < |r| ==> r[k] in rows && IdOf(r[k]) !in seen
    ensures UniqueIds(r)
    ensures forall i :: 0 <= i < |rows| && IdOf(rows[i]) !in seen && FirstOfId(rows, i) ==> rows[i] in r
  {
    if rows == [] then []
    else
      var id := IdOf(rows[0]);
      var tail := DedupRows(rows[1..], seen + {id});
      FirstsOfTail(rows);
      if id in seen then tail else [rows[0]] + tail
  }

  /** Deduplication keeps the surviving rows in their input order. */
  lemma {:induction false} DedupInOrder(rows: seq<Row>, seen: set<Option<Cell>>)
    ensures Subsequence(DedupRows(rows, seen), rows)
    decreases |rows|
  {
    if rows != [] {
      DedupInOrder(rows[1..], seen + {IdOf(rows[0])});
      SubsequenceOfTail(DedupRows(rows[1..], seen + {IdOf(rows[0])}), rows);
    }
  }

  /** Leaving out the first row, or keeping it, of a subsequence of the rest. */
  lemma SubsequenceOfTail(tail: seq<Row>, rows: seq<Row>)
    requires rows != [] && Subsequence(tail, rows[1..])
    ensures Subsequence(tail, rows) && Subsequence([rows[0]] + tail, rows)
  {
    assert ([rows[0]] + tail)[1..] == tail;
  }

  /** `df.drop_duplicates(subset='id', keep='first')`: the first row of every
      id, and no id twice. */
  function DropDuplicates(f: Frame): (r: Frame)
    requires WellFormed(f) && "id" in f.columns
    ensures r.columns == f.columns && WellFormed(r)
    ensures UniqueIds(r.rows)
    ensures Subsequence(r.rows, f.rows)
    ensures forall k :: 0 <= k < |r.rows| ==> r.rows[k] in f.rows
    ensures forall i :: 0 <= i < |f.rows| && FirstOfId(f.rows, i) ==> f.rows[i] in r.rows
  {
    DedupInOrder(f.rows, {});
    Frame(f.columns, DedupRows(f.rows, {}))
  }

  const Df1Columns: seq<string> := ["id", "danceability", "energy", "key", "loudness", "mode", "speechiness",
                                    "acousticness", "instrumentalness", "liveness", "valence", "tempo",
                                    "time_signature", "like"]

  const Df2Columns: seq<string> := ["id", "track_name", "danceability", "energy", "key", "loudness", "mode",
                                    "speechiness", "acousticness", "instrumentalness", "liveness", "valence",
                                    "tempo", "time_signature", "like"]

  /** What the script leaves behind: the two frames it writes back to their CSV
      files, the repeated ids, and the deduplicated in-memory frames that are
      never saved. */
  datatype Cleaned = Cleaned(written1: Frame, written2: Frame, repeated: set<Cell>, kept1: Frame, kept2: Frame)

  /** The `like`/`id` lookups of lines 11-15, in the order pandas makes them. */
  function LabelColumnsMissing(df1: Frame, df2: Frame): (r: Option<string>)
    ensures r.None? <==> "like" in df1.columns && "id" in df1.columns && "like" in df2.columns && "id" in df2.columns
  {
    if "like" !in df1.columns then Some("like")
    else if "id" !in df1.columns then Some("id")
    else if "like" !in df2.columns then Some("like")
    else if "id" !in df2.columns then Some("id")
    else None
  }

  /** One frame's share of the script once the repeated ids are known: relabel,
      project to `cols` (the frame that is written), drop duplicate ids. */
  function CleanFrame(df: Frame, repeated: set<Cell>, cols: seq<string>): (r: Outcome<(Frame, Frame)>)
    requires WellFormed(df) && "like" in df.columns && "like" in cols && "id" in cols
    ensures r.Done? <==> forall c :: c in cols ==> c in df.columns
    ensures r.Raised? ==> r.fault.MissingColumn?
    ensures r.Done? ==> r.value.0.columns == cols && |r.value.0.rows| == |df.rows|
    // a listed cell other than `like` is written unchanged
    ensures r.Done? ==> forall i, c :: 0 <= i < |df.rows| && c in cols && c != "like" ==> Lookup(r.value.0.rows[i], c) == Lookup(df.rows[i], c)
    // `like` is 1 on a repeated id and unchanged elsewhere
    ensures r.Done? ==> forall i :: 0 <= i < |df.rows| ==>
              Lookup(r.value.0.rows[i], "like") == if Hit(df.rows[i], repeated) then Some(Number(1.0)) else Lookup(df.rows[i], "like")
    // the in-memory copy keeps the first written row of every id and nothing else
    ensures r.Done? ==> r.value.1.columns == cols && UniqueIds(r.value.1.rows)
    ensures r.Done? ==> forall k :: 0 <= k < |r.value.1.rows| ==> r.value.1.rows[k] in r.value.0.rows
    ensures r.Done? ==> forall i :: 0 <= i < |r.value.0.rows| && FirstOfId(r.value.0.rows, i) ==> r.value.0.rows[i] in r.value.1.rows
  {
    var g := Relabel(df, repeated);
    match Select(g, cols)
    case Raised(e) => Raised(e)
    case Done(w) => Done((w, DropDuplicates(w)))
  }

  /** Both column lists keep the `id` and `like` columns. */
  lemma ListsKeepLabels()
    ensures "id" in Df1Columns && "like" in Df1Columns && "id" in Df2Columns && "like" in Df2Columns
  {
    assert Df1Columns[0] == "id" && Df1Columns[13] == "like";
    assert Df2Columns[0] == "id" && Df2Columns[14] == "like";
  }

  /** The whole script: the `like`/`id` lookups, the repeated ids of both
      frames, then each frame relabelled, projected and deduplicated, the first
      frame's missing column reported before the second's. */
  function Clean(df1: Frame, df2: Frame): (r: Outcome<Cleaned>)
    requires WellFormed(df1) && WellFormed(df2)
    ensures r.Done? <==> (forall c :: c in Df1Columns ==> c in df1.columns) && (forall c :: c in Df2Columns ==> c in df2.columns)
    ensures r.Raised? ==> r.fault.MissingColumn?
    ensures r.Done? ==> r.value.repeated == Repeated(df1, df2)
    ensures r.Done? ==> CleanFrame(df1, r.value.repeated, Df1Columns) == Done((r.value.written1, r.value.kept1))
    ensures r.Done? ==> CleanFrame(df2, r.value.repeated, Df2Columns) == Done((r.value.written2, r.value.kept2))
  {
    ListsKeepLabels();
    match LabelColumnsMissing(df1, df2)
    case Some(c) => Raised(MissingColumn(c))
    case None =>
      var repeated := Repeated(df1, df2);
      var first := CleanFrame(df1, repeated, Df1Columns);
      if first.Raised? then Raised(first.fault)
      else
        var second := CleanFrame(df2, repeated, Df2Columns);
        if second.Raised? then Raised(second.fault)
        else Done(Cleaned(first.value.0, second.value.0, repeated, first.value.1, second.value.1))
  }

  /** The written files carry no conflicting labels: no id is written with both
      `like == 0` and `like == 1`. */
  lemma WrittenWithoutConflicts(df1: Frame, df2: Frame)
    requires WellFormed(df1) && WellFormed(df2)
    ensures var r := Clean(df1, df2);
            r.Done? ==> Conflicts(r.value.written1) == {} && Conflicts(r.value.written2) == {}
  {
    var r := Clean(df1, df2);
    if r.Done? {
      ListsKeepLabels();
      WrittenFrameWithoutConflicts(df1, r.value.repeated, Df1Columns);
      WrittenFrameWithoutConflicts(df2, r.value.repeated, Df2Columns);
    }
  }

  lemma WrittenFrameWithoutConflicts(df: Frame, repeated: set<Cell>, cols: seq<string>)
    requires WellFormed(df) && "like" in df.columns && "like" in cols && "id" in cols && Conflicts(df) <= repeated
    requires CleanFrame(df, repeated, cols).Done?
    ensures Conflicts(CleanFrame(df, repeated, cols).value.0) == {}
  {
    var w := CleanFrame(df, repeated, cols).value.0;
    assert forall i :: 0 <= i < |df.rows| ==> Lookup(w.rows[i], "id") == Lookup(df.rows[i], "id");
    RelabelledWithoutConflicts(df, w, repeated);
  }

  /** A frame whose ids are those of `df` and whose `like` is 1 on the repeated
      ids and as in `df` elsewhere has no conflicts, once every conflict of `df`
      is repeated. */
  lemma RelabelledWithoutConflicts(df: Frame, w: Frame, repeated: set<Cell>)
    requires |w.rows| == |df.rows| && Conflicts(df) <= repeated
    requires forall i :: 0 <= i < |df.rows| ==> Lookup(w.rows[i], "id") == Lookup(df.rows[i], "id")
    requires forall i :: 0 <= i < |df.rows| ==>
               Lookup(w.rows[i], "like") == if Hit(df.rows[i], repeated) then Some(Number(1.0)) else Lookup(df.rows[i], "like")
    ensures Conflicts(w) == {}
  {
    forall x | x in Ids(w, 0.0)
      ensures x !in Ids(w, 1.0)
    {
      var i :| 0 <= i < |w.rows| && Labelled(w.rows[i], 0.0) && w.rows[i]["id"] == x;
      assert Lookup(w.rows[i], "id") == Lookup(df.rows[i], "id");
      assert !Hit(df.rows[i], repeated);
      assert Labelled(df.rows[i], 0.0);
      assert x in Ids(df, 0.0);
      assert x !in Ids(df, 1.0);
      forall j | 0 <= j < |w.rows| && "id" in w.rows[j] && w.rows[j]["id"] == x
        ensures !Labelled(w.rows[j], 1.0)
      {
        assert Lookup(w.rows[j], "id") == Lookup(df.rows[j], "id");
        assert !Hit(df.rows[j], repeated);
        assert !Labelled(df.rows[j], 1.0);
      }
    }
  }

  /** Duplicates are dropped only after saving: two input rows with one id are
      both written, while the in-memory copy holds that id once. */
  lemma DuplicatesAreWritten(df1: Frame, df2: Frame, i: nat, j: nat)
    requires WellFormed(df1) && WellFormed(df2) && Clean(df1, df2).Done?
    requires i < j < |df1.rows| && IdOf(df1.rows[i]) == IdOf(df1.rows[j])
    ensures var r := Clean(df1, df2).value;
            !UniqueIds(r.written1.rows) && UniqueIds(r.kept1.rows)
  {
    var r := Clean(df1, df2).value;
    ListsKeepLabels();
    assert IdOf(r.written1.rows[i]) == IdOf(r.written1.rows[j]);
  }
}

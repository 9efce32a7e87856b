/** transform/split_specs.py: split the spectrogram arrays into a train and a
    test file by membership of each song id in the train and test id lists. */
module SplitSpecs {
  import opened Net

  /** `np.isin(song_ids, wanted)`. */
  function Mask(songIds: seq<string>, wanted: seq<string>): (m: seq<bool>)
    ensures |m| == |songIds|
    ensures forall i :: 0 <= i < |m| ==> (m[i] <==> songIds[i] in wanted)
  {
    seq(|songIds|, i requires 0 <= i < |songIds| => songIds[i] in wanted)
  }

  /** The positions a mask selects, in increasing order. */
  function Selected(mask: seq<bool>): (r: seq<nat>)
    ensures forall k :: 0 <= k < |r| ==> r[k] < |mask| && mask[r[k]]
    ensures forall k, l :: 0 <= k < l < |r| ==> r[k] < r[l]
    ensures forall i :: 0 <= i < |mask| && mask[i] ==> i in r
  {
    if mask == [] then []
    else
      var tail := Selected(mask[..|mask| - 1]);
      if mask[|mask| - 1] then tail + [|mask| - 1] else tail
  }

  /** `xs[mask]` for a mask as long as `xs`. */
  function Keep<T>(xs: seq<T>, mask: seq<bool>): (r: seq<T>)
    requires |xs| == |mask|
    ensures |r| == |Selected(mask)|
    ensures forall k :: 0 <= k < |r| ==> r[k] == xs[Selected(mask)[k]]
  {
    if mask == [] then []
    else
      var front := Keep(xs[..|xs| - 1], mask[..|mask| - 1]);
      if mask[|mask| - 1] then front + [xs[|xs| - 1]] else front
  }

  /** The four datasets written to one HDF5 file. */
  datatype SpecFile<S, L> = SpecFile(spectrograms: seq<S>, labels: seq<L>, names: seq<string>, ids: seq<string>)

  /** The four arrays filtered by one mask; numpy refuses a mask of another length. */
  function Filter<S, L>(spectrograms: seq<S>, labels: seq<L>, names: seq<string>, songIds: seq<string>,
                        mask: seq<bool>): (r: Outcome<SpecFile<S, L>>)
    requires |mask| == |songIds|
    ensures r.Done? <==> |spectrograms| == |labels| == |names| == |songIds|
    ensures r.Raised? ==> r.fault == ShapeMismatch
    // all four outputs hold the entries at the same selected positions, in order
    ensures r.Done? ==>
              var at := Selected(mask);
              |r.value.spectrograms| == |r.value.labels| == |r.value.names| == |r.value.ids| == |at|
              && forall k :: 0 <= k < |at| ==>
                   r.value.spectrograms[k] == spectrograms[at[k]] && r.value.labels[k] == labels[at[k]]
                   && r.value.names[k] == names[at[k]] && r.value.ids[k] == songIds[at[k]]
  {
    if |spectrograms| != |mask| || |labels| != |mask| || |names| != |mask| then Raised(ShapeMismatch)
    else Done(SpecFile(Keep(spectrograms, mask), Keep(labels, mask), Keep(names, mask), Keep(songIds, mask)))
  }

  /** The whole script: the train file, then the test file. */
  function Split<S, L>(trainIds: seq<string>, testIds: seq<string>, spectrograms: seq<S>, labels: seq<L>,
                       names: seq<string>, songIds: seq<string>): (r: Outcome<(SpecFile<S, L>, SpecFile<S, L>)>)
    ensures r.Done? <==> |spectrograms| == |labels| == |names| == |songIds|
    // every id written to a file is in that file's id list
    ensures r.Done? ==> forall k :: 0 <= k < |r.value.0.ids| ==> r.value.0.ids[k] in trainIds
    ensures r.Done? ==> forall k :: 0 <= k < |r.value.1.ids| ==> r.value.1.ids[k] in testIds
  {
    var train := Filter(spectrograms, labels, names, songIds, Mask(songIds, trainIds));
    var test := Filter(spectrograms, labels, names, songIds, Mask(songIds, testIds));
    match (train, test)
    case (Raised(f), _) => Raised(f)
    case (_, Raised(f)) => Raised(f)
    case (Done(a), Done(b)) => Done((a, b))
  }

  /** Where a song goes: into the train file iff its id is a train id, into the
      test file iff it is a test id. An id in both lists is written to both; one
      in neither (a validation id, say) to neither. */
  lemma SongPlacement<S, L>(trainIds: seq<string>, testIds: seq<string>, spectrograms: seq<S>, labels: seq<L>,
                            names: seq<string>, songIds: seq<string>, i: nat)
    requires |spectrograms| == |labels| == |names| == |songIds| && i < |songIds|
    ensures var r := Split(trainIds, testIds, spectrograms, labels, names, songIds);
            r.Done?
            && (songIds[i] in r.value.0.ids <==> songIds[i] in trainIds)
            && (songIds[i] in r.value.1.ids <==> songIds[i] in testIds)
  {
    var r := Split(trainIds, testIds, spectrograms, labels, names, songIds);
    Placed(songIds, trainIds, i);
    Placed(songIds, testIds, i);
  }

  /** An id is among the kept ids exactly when it is wanted. */
  lemma Placed(songIds: seq<string>, wanted: seq<string>, i: nat)
    requires i < |songIds|
    ensures songIds[i] in Keep(songIds, Mask(songIds, wanted)) <==> songIds[i] in wanted
  {
    var m := Mask(songIds, wanted);
    var kept := Keep(songIds, m);
    var at := Selected(m);
    if songIds[i] in wanted {
      assert i in at;
      var k :| 0 <= k < |at| && at[k] == i;
      assert kept[k] == songIds[i];
    }
  }
}

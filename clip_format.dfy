/** `ClipFormat`: the plan that turns a clip's raw samples into the layout the
    targets expect, and the walk over its channels that reads the flat
    `sourceClipIndices` one consecutive run per channel. */
module ClipFormats {
  import opened CoreTypes
  import opened AnimationTypes
  import opened ChannelDescriptors

  /** Per channel `i`: its descriptor `namesAndTypes[i]`, its destination
      offsets `formattedComponentIndices[i]` and its presence mask
      `sourceClipMask[i]`; the source offsets of all channels are stored back
      to back in `sourceClipIndices`, channel `i` taking as many as it has
      destination offsets. */
  datatype ClipFormat = ClipFormat(
    sourceClipIndices: ComponentIndices,
    sourceClipMask: seq<BitArray>,
    formattedComponentIndices: seq<ComponentIndices>,
    namesAndTypes: seq<ChannelNameAndType>,
    defaultComponentValues: seq<ComponentValue>)

  /** The sum of the lengths of `runs`. */
  function TotalRunLength(runs: seq<ComponentIndices>): nat
  {
    if runs == [] then 0 else TotalRunLength(runs[..|runs| - 1]) + |runs[|runs| - 1]|
  }

  /** The runs laid back to back. */
  function Flatten(runs: seq<ComponentIndices>): (flat: ComponentIndices)
    ensures |flat| == TotalRunLength(runs)
  {
    if runs == [] then [] else Flatten(runs[..|runs| - 1]) + runs[|runs| - 1]
  }

  /** Where channel `i`'s run starts in `sourceClipIndices`. */
  function SourceOffset(f: ClipFormat, i: nat): nat
    requires i <= |f.formattedComponentIndices|
  {
    TotalRunLength(f.formattedComponentIndices[..i])
  }

  /** What the walk over the channels needs: every per-channel vector has an
      entry for each descriptor, and the runs of those channels fit in
      `sourceClipIndices`. */
  predicate Walkable(f: ClipFormat)
  {
    |f.formattedComponentIndices| >= |f.namesAndTypes|
    && |f.sourceClipMask| >= |f.namesAndTypes|
    && TotalRunLength(f.formattedComponentIndices[..|f.namesAndTypes|]) <= |f.sourceClipIndices|
  }

  /** A well-formed format: the per-channel vectors are parallel, and the runs
      use up `sourceClipIndices` exactly. */
  predicate WellFormed(f: ClipFormat)
  {
    |f.formattedComponentIndices| == |f.namesAndTypes|
    && |f.sourceClipMask| == |f.namesAndTypes|
    && TotalRunLength(f.formattedComponentIndices) == |f.sourceClipIndices|
  }

  /** Run lengths are non-negative, so prefix sums grow with the prefix. */
  lemma {:induction false} TotalRunLengthPrefixMonotone(runs: seq<ComponentIndices>, i: nat, j: nat)
    requires i <= j <= |runs|
    ensures TotalRunLength(runs[..i]) <= TotalRunLength(runs[..j])
  {
    if i < j {
      TotalRunLengthPrefixMonotone(runs, i, j - 1);
      assert runs[..j][..j - 1] == runs[..j - 1];
    }
  }

  /** Channel `i`'s run ends where channel `i + 1`'s begins, and stays inside
      `sourceClipIndices`. */
  lemma SourceRunInBounds(f: ClipFormat, i: nat)
    requires Walkable(f) && i < |f.namesAndTypes|
    ensures SourceOffset(f, i) + |f.formattedComponentIndices[i]| == SourceOffset(f, i + 1)
    ensures SourceOffset(f, i + 1) <= |f.sourceClipIndices|
  {
    var fci := f.formattedComponentIndices;
    assert fci[..i + 1][..i] == fci[..i];
    TotalRunLengthPrefixMonotone(fci, i + 1, |f.namesAndTypes|);
  }

  /** A well-formed format is one the walk can traverse. */
  lemma WellFormedIsWalkable(f: ClipFormat)
    requires WellFormed(f)
    ensures Walkable(f)
  {
    assert f.formattedComponentIndices[..|f.namesAndTypes|] == f.formattedComponentIndices;
  }

  /** What the walk reads for one channel: the descriptor, its destination
      offsets, its run of source offsets and its mask. */
  datatype ChannelLayout = ChannelLayout(
    channel: ChannelNameAndType,
    dstIndices: ComponentIndices,
    srcIndices: ComponentIndices,
    srcMask: BitArray)

  /** The layout of channel `i`. */
  function LayoutOf(f: ClipFormat, i: nat): (l: ChannelLayout)
    requires Walkable(f) && i < |f.namesAndTypes|
    ensures |l.srcIndices| == |l.dstIndices|
  {
    SourceRunInBounds(f, i);
    var start := SourceOffset(f, i);
    ChannelLayout(f.namesAndTypes[i], f.formattedComponentIndices[i],
                  f.sourceClipIndices[start .. start + |f.formattedComponentIndices[i]|],
                  f.sourceClipMask[i])
  }

  /** The source runs of a sequence of layouts. */
  function SourceRuns(layouts: seq<ChannelLayout>): (runs: seq<ComponentIndices>)
    ensures |runs| == |layouts|
    ensures forall k :: 0 <= k < |layouts| ==> runs[k] == layouts[k].srcIndices
  {
    seq(|layouts|, k requires 0 <= k < |layouts| => layouts[k].srcIndices)
  }

  /** The walk has visited the first `|layouts|` channels, read each one's
      layout, and its running offset `sourceIndex` is where the next run starts;
      the runs read so far spell out `sourceClipIndices` up to that offset. */
  predicate WalkedPrefix(f: ClipFormat, layouts: seq<ChannelLayout>, sourceIndex: nat)
    requires Walkable(f)
  {
    |layouts| <= |f.namesAndTypes|
    && sourceIndex == SourceOffset(f, |layouts|)
    && sourceIndex <= |f.sourceClipIndices|
    && (forall k :: 0 <= k < |layouts| ==> layouts[k] == LayoutOf(f, k))
    && Flatten(SourceRuns(layouts)) == f.sourceClipIndices[..sourceIndex]
  }

  /** Reading the next channel's run and building its layout extends a walked
      prefix by one channel. */
  lemma WalkStep(f: ClipFormat, layouts: seq<ChannelLayout>, sourceIndex: nat, layout: ChannelLayout)
    requires Walkable(f) && WalkedPrefix(f, layouts, sourceIndex)
    requires |layouts| < |f.namesAndTypes|
    requires sourceIndex + |f.formattedComponentIndices[|layouts|]| <= |f.sourceClipIndices|
    requires layout == ChannelLayout(f.namesAndTypes[|layouts|], f.formattedComponentIndices[|layouts|],
                                     f.sourceClipIndices[sourceIndex .. sourceIndex + |f.formattedComponentIndices[|layouts|]|],
                                     f.sourceClipMask[|layouts|])
    ensures WalkedPrefix(f, layouts + [layout], sourceIndex + |f.formattedComponentIndices[|layouts|]|)
  {
    var i := |layouts|;
    var count := |f.formattedComponentIndices[i]|;
    SourceRunInBounds(f, i);
    assert layout == LayoutOf(f, i);
    var runs := SourceRuns(layouts + [layout]);
    assert runs[..i] == SourceRuns(layouts);
    assert f.sourceClipIndices[..sourceIndex + count]
        == f.sourceClipIndices[..sourceIndex] + f.sourceClipIndices[sourceIndex .. sourceIndex + count];
  }

  /** What a walk over every channel has read. */
  lemma WalkComplete(f: ClipFormat, layouts: seq<ChannelLayout>, sourceIndex: nat)
    requires Walkable(f) && WalkedPrefix(f, layouts, sourceIndex)
    requires |layouts| == |f.namesAndTypes|
    ensures forall i :: 0 <= i < |layouts| ==> layouts[i] == LayoutOf(f, i)
    ensures sourceIndex == TotalRunLength(f.formattedComponentIndices[..|f.namesAndTypes|])
    ensures sourceIndex <= |f.sourceClipIndices|
    ensures Flatten(SourceRuns(layouts)) == f.sourceClipIndices[..sourceIndex]
    ensures WellFormed(f) ==> Flatten(SourceRuns(layouts)) == f.sourceClipIndices
  {
    if WellFormed(f) {
      assert f.formattedComponentIndices[..|f.namesAndTypes|] == f.formattedComponentIndices;
      assert f.sourceClipIndices[..sourceIndex] == f.sourceClipIndices;
    }
  }

  /** The inner loop of the walk: reads `count` consecutive entries of
      `indices` starting at `start`. */
  method ReadRun(indices: ComponentIndices, start: nat, count: nat) returns (run: ComponentIndices)
    requires start + count <= |indices|
    ensures run == indices[start .. start + count]
  {
    run := [];
    var j := start;
    while j < start + count
      invariant start <= j <= start + count
      invariant run == indices[start..j]
    {
      run := run + [indices[j]];
      j := j + 1;
    }
  }

  /** The walk over the channels of a format: for each channel it takes as many
      source offsets as the channel has destination offsets, starting where the
      previous channel's run ended. Returns the layout of every channel and the
      running offset at the end. */
  method ChannelLayouts(f: ClipFormat) returns (layouts: seq<ChannelLayout>, sourceIndex: nat)
    requires Walkable(f)
    ensures |layouts| == |f.namesAndTypes|
    ensures forall i :: 0 <= i < |layouts| ==> layouts[i] == LayoutOf(f, i)
    ensures sourceIndex == TotalRunLength(f.formattedComponentIndices[..|f.namesAndTypes|])
    ensures sourceIndex <= |f.sourceClipIndices|
    ensures Flatten(SourceRuns(layouts)) == f.sourceClipIndices[..sourceIndex]
    ensures WellFormed(f) ==> Flatten(SourceRuns(layouts)) == f.sourceClipIndices
  {
    layouts := [];
    sourceIndex := 0;
    var i := 0;
    while i < |f.namesAndTypes|
      invariant i == |layouts|
      invariant WalkedPrefix(f, layouts, sourceIndex)
    {
      SourceRunInBounds(f, i);
      var componentCount := |f.formattedComponentIndices[i]|;
      var src := ReadRun(f.sourceClipIndices, sourceIndex, componentCount);
      var layout := ChannelLayout(f.namesAndTypes[i], f.formattedComponentIndices[i],
                                  src, f.sourceClipMask[i]);
      WalkStep(f, layouts, sourceIndex, layout);
      layouts := layouts + [layout];
      sourceIndex := sourceIndex + componentCount;
      i := i + 1;
    }
    WalkComplete(f, layouts, sourceIndex);
  }
}

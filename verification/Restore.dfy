/**
 * Restore as nazman/services/system_restore.py does it: merge the manifests of a set's volumes, cut the
 * latest chain out of a dataset's runs, find each stream on the mounted volumes, and receive it.
 */
module Restore {
  import opened Streams
  import opened Manifest

  // ── Merging the volumes of a set ────────────────────────────────────────

  /** A run replaces an earlier description of the same stream and goes last. */
  function MergeRun(acc: seq<Entry>, e: Entry): seq<Entry> {
    Without(acc, e.file) + [e]
  }

  function MergeRuns(acc: seq<Entry>, runs: seq<Entry>): seq<Entry> {
    if runs == [] then acc
    else MergeRun(MergeRuns(acc, runs[..|runs| - 1]), runs[|runs| - 1])
  }

  /** One dataset's runs over all volumes, before the final sort. */
  function Gather(ms: seq<Index>, ds: Dataset): seq<Entry> {
    if ms == [] then []
    else MergeRuns(Gather(ms[..|ms| - 1], ds), Rows(ms[|ms| - 1], ds))
  }

  function Merged(ms: seq<Index>, ds: Dataset): seq<Entry> {
    Sort(Gather(ms, ds))
  }

  /** Some volume's index lists the entry under the dataset. */
  ghost predicate Offered(ms: seq<Index>, ds: Dataset, e: Entry) {
    exists k :: 0 <= k < |ms| && e in Rows(ms[k], ds)
  }

  /** One entry a stream. */
  ghost predicate NoRepeats(rows: seq<Entry>) {
    forall i, j :: 0 <= i < j < |rows| ==> rows[i].file != rows[j].file
  }

  lemma {:induction false} WithoutNoRepeats(rows: seq<Entry>, f: StreamFile)
    requires NoRepeats(rows)
    ensures NoRepeats(Without(rows, f))
  {
    if rows != [] {
      WithoutNoRepeats(rows[1..], f);
      WithoutElements(rows[1..], f);
      var rest := Without(rows[1..], f);
      assert forall k :: 0 <= k < |rest| ==> rest[k] in rest;
    }
  }

  /** What is said about one stream is said alike wherever it is said. */
  ghost predicate Coherent(all: set<Entry>) {
    forall a, b :: a in all && b in all && a.file == b.file ==> a == b
  }

  lemma MergeRunElements(acc: seq<Entry>, e: Entry, all: set<Entry>)
    requires NoRepeats(acc) && Coherent(all) && e in all && forall x :: x in acc ==> x in all
    ensures NoRepeats(MergeRun(acc, e))
    ensures forall x :: x in MergeRun(acc, e) <==> x in acc || x == e
  {
    WithoutNoRepeats(acc, e.file);
    WithoutElements(acc, e.file);
    var kept := Without(acc, e.file);
    assert forall k :: 0 <= k < |kept| ==> kept[k] in kept;
  }

  lemma {:induction false} MergeRunsElements(acc: seq<Entry>, runs: seq<Entry>, all: set<Entry>)
    requires NoRepeats(acc) && Coherent(all) && forall x :: x in acc || x in runs ==> x in all
    ensures NoRepeats(MergeRuns(acc, runs))
    ensures forall x :: x in MergeRuns(acc, runs) <==> x in acc || x in runs
  {
    if runs != [] {
      var init, last := runs[..|runs| - 1], runs[|runs| - 1];
      assert runs == init + [last];
      MergeRunsElements(acc, init, all);
      MergeRunElements(MergeRuns(acc, init), last, all);
    }
  }

  /** The volumes agree on what they say of each stream. */
  ghost predicate Told(ms: seq<Index>, ds: Dataset, all: set<Entry>) {
    Coherent(all) && forall e :: Offered(ms, ds, e) ==> e in all
  }

  /** Entries of one dataset that agree across the volumes, and were created at different times. */
  ghost predicate Agreeing(ms: seq<Index>, ds: Dataset, all: set<Entry>) {
    AllCompatible(all) && forall e :: Offered(ms, ds, e) ==> e in all && e.file.ds == ds
  }

  lemma AgreeingTold(ms: seq<Index>, ds: Dataset, all: set<Entry>)
    requires Agreeing(ms, ds, all)
    ensures Told(ms, ds, all)
  {
    forall a, b | a in all && b in all && a.file == b.file ensures a == b {
      assert Compatible(a, b);
    }
  }

  lemma OfferedNext(ms: seq<Index>, m: Index, ds: Dataset, e: Entry)
    ensures Offered(ms + [m], ds, e) <==> Offered(ms, ds, e) || e in Rows(m, ds)
  {
    var next := ms + [m];
    if k :| 0 <= k < |next| && e in Rows(next[k], ds) && k < |ms| {
      assert ms[k] == next[k];
    }
    if e in Rows(m, ds) {
      assert e in Rows(next[|ms|], ds);
    }
    if k :| 0 <= k < |ms| && e in Rows(ms[k], ds) {
      assert next[k] == ms[k];
    }
  }

  lemma {:induction false} GatherElements(ms: seq<Index>, ds: Dataset, all: set<Entry>)
    requires Told(ms, ds, all)
    ensures NoRepeats(Gather(ms, ds))
    ensures forall e :: e in Gather(ms, ds) <==> Offered(ms, ds, e)
  {
    if ms != [] {
      var init, last := ms[..|ms| - 1], ms[|ms| - 1];
      assert ms == init + [last];
      forall e | true ensures Offered(ms, ds, e) <==> Offered(init, ds, e) || e in Rows(last, ds) {
        OfferedNext(init, last, ds, e);
      }
      GatherElements(init, ds, all);
      MergeRunsElements(Gather(init, ds), Rows(last, ds), all);
    }
  }

  /** The merged list holds each offered stream once, in strict creation order. */
  lemma MergedIsUnion(ms: seq<Index>, ds: Dataset, all: set<Entry>)
    requires Agreeing(ms, ds, all)
    ensures Strict(Merged(ms, ds)) && NoRepeats(Merged(ms, ds))
    ensures forall e :: e in Merged(ms, ds) <==> Offered(ms, ds, e)
  {
    AgreeingTold(ms, ds, all);
    GatherElements(ms, ds, all);
    var rows := Gather(ms, ds);
    forall i, j | 0 <= i < j < |rows| ensures rows[i].at != rows[j].at {
      assert rows[i] in rows && rows[j] in rows;
      assert Compatible(rows[i], rows[j]);
    }
    SortStrict(rows);
    SortElements(rows);
    var merged := Merged(ms, ds);
    forall i, j | 0 <= i < j < |merged| ensures merged[i].file != merged[j].file {
      assert merged[i] in merged && merged[j] in merged;
      assert Compatible(merged[i], merged[j]);
    }
  }

  /** The same volumes, in another order, some of them perhaps read more often. */
  ghost predicate SameVolumes(ms: seq<Index>, ms': seq<Index>) {
    forall m :: m in ms <==> m in ms'
  }

  lemma OfferedAlike(ms: seq<Index>, ms': seq<Index>, ds: Dataset)
    requires SameVolumes(ms, ms')
    ensures forall e :: Offered(ms, ds, e) <==> Offered(ms', ds, e)
  {
    forall e | true ensures Offered(ms, ds, e) <==> Offered(ms', ds, e) {
      if k :| 0 <= k < |ms| && e in Rows(ms[k], ds) {
        assert ms[k] in ms';
        var l :| 0 <= l < |ms'| && ms'[l] == ms[k];
      }
      if l :| 0 <= l < |ms'| && e in Rows(ms'[l], ds) {
        assert ms'[l] in ms;
        var k :| 0 <= k < |ms| && ms[k] == ms'[l];
      }
    }
  }

  /** The merge does not depend on the order the volumes are read in, nor on reading one twice. */
  lemma MergeCanonical(ms: seq<Index>, ms': seq<Index>, ds: Dataset, all: set<Entry>)
    requires Agreeing(ms, ds, all) && SameVolumes(ms, ms')
    ensures Merged(ms, ds) == Merged(ms', ds)
  {
    OfferedAlike(ms, ms', ds);
    MergedIsUnion(ms, ds, all);
    MergedIsUnion(ms', ds, all);
    Canonical(Merged(ms, ds), Merged(ms', ds));
  }

  /** `_merge_manifests`, as far as the dataset lists go. */
  method MergeManifests(ms: seq<Index>) returns (merged: Index)
    ensures forall ds :: Rows(merged, ds) == Merged(ms, ds)
    ensures forall ds :: ds in merged <==> exists k :: 0 <= k < |ms| && ds in ms[k]
  {
    var gathered: Index := map[];
    var k := 0;
    while k < |ms|
      invariant 0 <= k <= |ms|
      invariant forall ds :: Rows(gathered, ds) == Gather(ms[..k], ds)
      invariant forall ds :: ds in gathered <==> exists l :: 0 <= l < k && ds in ms[l]
    {
      assert ms[..k + 1][..k] == ms[..k] && ms[..k + 1][k] == ms[k];
      gathered := MergeVolume(gathered, ms[k]);
      k := k + 1;
    }
    assert ms[..|ms|] == ms;
    merged := map ds | ds in gathered :: Sort(gathered[ds]);
  }

  /** The datasets outside `rest` have been folded in. */
  ghost predicate FoldedBut(after: Index, gathered: Index, m: Index, rest: set<Dataset>) {
    && after.Keys + rest == gathered.Keys + m.Keys
    && forall ds :: Rows(after, ds)
         == if ds in rest then Rows(gathered, ds) else MergeRuns(Rows(gathered, ds), Rows(m, ds))
  }

  lemma FoldOneMore(after: Index, gathered: Index, m: Index, rest: set<Dataset>, ds: Dataset)
    requires FoldedBut(after, gathered, m, rest) && ds in rest && ds in m
    ensures FoldedBut(after[ds := MergeRuns(Rows(after, ds), m[ds])], gathered, m, rest - {ds})
  {
  }

  /** Fold one volume's datasets into what was gathered so far. */
  method MergeVolume(gathered: Index, m: Index) returns (after: Index)
    ensures FoldedBut(after, gathered, m, {})
  {
    after := gathered;
    var rest := m.Keys;
    while rest != {}
      invariant rest <= m.Keys && FoldedBut(after, gathered, m, rest)
      decreases |rest|
    {
      var ds :| ds in rest;
      var runs := MergeDataset(if ds in after then after[ds] else [], m[ds]);
      FoldOneMore(after, gathered, m, rest, ds);
      after := after[ds := runs];
      rest := rest - {ds};
    }
  }

  method MergeDataset(acc: seq<Entry>, runs: seq<Entry>) returns (rows: seq<Entry>)
    ensures rows == MergeRuns(acc, runs)
  {
    rows := acc;
    var k := 0;
    while k < |runs|
      invariant 0 <= k <= |runs|
      invariant rows == MergeRuns(acc, runs[..k])
    {
      assert runs[..k + 1][..k] == runs[..k];
      rows := Without(rows, runs[k].file);
      rows := rows + [runs[k]];
      k := k + 1;
    }
    assert runs[..|runs|] == runs;
  }

  // ── The chain to replay ─────────────────────────────────────────────────

  /** k is where the latest full sits. */
  ghost predicate LatestFull(rows: seq<Entry>, k: nat) {
    k < |rows| && rows[k].kind.Full? && forall j :: k < j < |rows| ==> rows[j].kind.Incremental?
  }

  /** `_chain`: the latest full and what follows it, in creation order; everything when there is no full. */
  method ChainOf(backups: seq<Entry>) returns (chain: seq<Entry>)
    ensures forall k: nat :: LatestFull(Sort(backups), k) ==> chain == Sort(backups)[k..]
    ensures (forall e :: e in backups ==> e.kind.Incremental?) ==> chain == Sort(backups)
  {
    SortElements(backups);
    var ordered := Sort(backups);
    var lastFull: Option<nat> := None;
    var i := 0;
    while i < |ordered|
      invariant 0 <= i <= |ordered|
      invariant lastFull.Some? ==> LatestFull(ordered[..i], lastFull.value)
      invariant lastFull.None? ==> forall j :: 0 <= j < i ==> ordered[j].kind.Incremental?
    {
      if ordered[i].kind.Full? { lastFull := Some(i); }
      i := i + 1;
    }
    assert ordered[..|ordered|] == ordered;
    if lastFull.None? { return ordered; }
    chain := ordered[lastFull.value..];
    assert ordered[lastFull.value] in ordered;
  }

  // ── Finding and receiving streams ───────────────────────────────────────

  datatype Mount = Mount(fsUuid: DiskId, volume: Volume)

  /** The first mounted volume, of the wanted identity if any, that has the file. */
  function FirstWith(mounted: seq<Mount>, f: StreamFile, wanted: Option<DiskId>): Option<Stream> {
    if mounted == [] then None
    else if (wanted.None? || mounted[0].fsUuid == wanted.value) && f in mounted[0].volume.streams
      then Some(mounted[0].volume.streams[f])
    else FirstWith(mounted[1..], f, wanted)
  }

  /** `_locate_stream`: the recorded medium first, then any volume. */
  function Locate(e: Entry, mounted: seq<Mount>): Option<Stream> {
    var preferred := FirstWith(mounted, e.file, Some(e.media));
    if preferred.Some? then preferred else FirstWith(mounted, e.file, None)
  }

  lemma {:induction false} FirstWithExactly(mounted: seq<Mount>, f: StreamFile, wanted: Option<DiskId>)
    ensures FirstWith(mounted, f, wanted).Some? <==> exists m :: m in mounted && Carries(m, f, wanted)
    ensures FirstWith(mounted, f, wanted).Some? ==>
              exists m :: m in mounted && Carries(m, f, wanted) && FirstWith(mounted, f, wanted) == Some(m.volume.streams[f])
  {
    if mounted != [] {
      FirstWithExactly(mounted[1..], f, wanted);
      assert forall m :: m in mounted <==> m == mounted[0] || m in mounted[1..];
      if Carries(mounted[0], f, wanted) {
        assert FirstWith(mounted, f, wanted) == Some(mounted[0].volume.streams[f]);
      }
    }
  }

  /** The volume has the file, and the identity asked for if one is. */
  predicate Carries(m: Mount, f: StreamFile, wanted: Option<DiskId>) {
    (wanted.None? || m.fsUuid == wanted.value) && f in m.volume.streams
  }

  /** A stream is found exactly when some volume has it, and on its recorded medium whenever that one has it. */
  lemma LocateExactly(e: Entry, mounted: seq<Mount>)
    ensures Locate(e, mounted).Some? <==> exists m :: m in mounted && e.file in m.volume.streams
    ensures (exists m :: m in mounted && Carries(m, e.file, Some(e.media))) ==>
              exists m :: m in mounted && Carries(m, e.file, Some(e.media)) && Locate(e, mounted) == Some(m.volume.streams[e.file])
  {
    FirstWithExactly(mounted, e.file, Some(e.media));
    FirstWithExactly(mounted, e.file, None);
    if m :| m in mounted && e.file in m.volume.streams {
      assert Carries(m, e.file, None);
    }
  }

  /** The dataset being restored into: absent, at a snapshot of a chain, or something else. */
  datatype Target = Absent | At(snap: Snap) | Foreign

  /** `zfs receive`: None when it fails, which changes nothing. */
  function Receive(target: Target, st: Stream, force: bool, accepted: bool): Option<Target> {
    if !accepted || st.Partial? then None
    else if st.base.None? then (if target.Absent? || force then Some(At(st.snap)) else None)
    else if target == At(st.base.value) then Some(At(st.snap))
    else None
  }

  /** Receiving one chain element into the target. */
  function Step(target: Target, e: Entry, mounted: seq<Mount>, accepted: bool): Option<Target> {
    var st := Locate(e, mounted);
    if st.None? then None
    else Receive(target, st.value, !target.Absent? || e.kind.Incremental?, accepted)
  }

  /**
   * The target went through `states`, one stream of the chain at a time from the front; all of them were
   * received, or the next one could not be.
   */
  ghost predicate Replayed(chain: seq<Entry>, mounted: seq<Mount>, accepts: seq<bool>, ok: bool, states: seq<Target>)
    requires |accepts| == |chain|
  {
    && 1 <= |states| <= |chain| + 1
    && (forall k :: 0 <= k < |states| - 1 ==> Step(states[k], chain[k], mounted, accepts[k]) == Some(states[k + 1]))
    && (ok <==> |states| == |chain| + 1)
    && (!ok ==> Step(states[|states| - 1], chain[|states| - 1], mounted, accepts[|states| - 1]).None?)
  }

  /**
   * `_restore_one`. It stops at the first stream that is missing or refused, and the target is then at
   * the snapshot of the last stream received: a prefix of the chain has been applied, in order, and
   * nothing after it.
   */
  method RestoreOne(chain: seq<Entry>, mounted: seq<Mount>, target0: Target, accepts: seq<bool>)
    returns (ok: bool, target: Target, states: seq<Target>)
    requires |accepts| == |chain|
    ensures Replayed(chain, mounted, accepts, ok, states)
    ensures states[0] == target0 && target == states[|states| - 1]
  {
    var present := !target0.Absent?;
    target := target0;
    states := [target0];
    var index := 0;
    while index < |chain|
      invariant 0 <= index <= |chain| && |states| == index + 1
      invariant states[0] == target0 && target == states[index]
      invariant present <==> !target.Absent?
      invariant forall k :: 0 <= k < index ==> Step(states[k], chain[k], mounted, accepts[k]) == Some(states[k + 1])
    {
      var b := chain[index];
      var stream := Locate(b, mounted);
      if stream.None? {
        return false, target, states;
      }
      var received := Receive(target, stream.value, present || b.kind.Incremental?, accepts[index]);
      if received.None? {
        return false, target, states;
      }
      target := received.value;
      present := true;
      states := states + [target];
      index := index + 1;
    }
    ok := true;
  }

  /** A received stream leaves the target at the snapshot it was cut from, and only at its own place. */
  lemma StepEndsAtSnapshot(target: Target, e: Entry, mounted: seq<Mount>, accepted: bool)
    requires Step(target, e, mounted, accepted).Some?
    ensures var st := Locate(e, mounted);
            && st.Some? && st.value.Complete? && accepted
            && Step(target, e, mounted, accepted) == Some(At(st.value.snap))
            && (st.value.base.Some? ==> target == At(st.value.base.value))
  {
  }
}

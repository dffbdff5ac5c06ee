/** What every step of the backup protocol keeps. */
module Invariants {
  import opened Streams
  import opened Manifest
  import opened Protocol

  // ── Linked chains ───────────────────────────────────────────────────────

  /** Run k starts a chain, or builds on the snapshot of the run just before it in its (dataset, set). */
  ghost predicate Link(runs: seq<Run>, k: nat)
    requires k < |runs|
  {
    var r := runs[k];
    var j := Last(runs, k, r.ds, r.set_);
    if r.kind.Full? then r.base.None? && r.fullAnchor.None?
    else j.Some? && r.base == runs[j.value].snap && r.fullAnchor == FullAnchor(runs, k, r.ds, r.set_)
  }

  /** The rows of `ds` among the first n are the same in both tables, and the others keep their dataset. */
  ghost predicate SameRows(runs: seq<Run>, runs': seq<Run>, n: nat, ds: Dataset) {
    && n <= |runs| && n <= |runs'|
    && forall m :: 0 <= m < n ==> runs'[m].ds == runs[m].ds && (runs[m].ds == ds ==> runs'[m] == runs[m])
  }

  lemma {:induction false} QueriesFrame(runs: seq<Run>, runs': seq<Run>, n: nat, ds: Dataset, set_: SetId)
    requires SameRows(runs, runs', n, ds)
    ensures Last(runs, n, ds, set_) == Last(runs', n, ds, set_)
    ensures FirstFull(runs, n, ds, set_) == FirstFull(runs', n, ds, set_)
    ensures FullAnchor(runs, n, ds, set_) == FullAnchor(runs', n, ds, set_)
  {
    if n > 0 {
      QueriesFrame(runs, runs', n - 1, ds, set_);
    }
  }

  /** Rows of other datasets do not show in the queries. */
  lemma {:induction false} QueriesSkip(runs: seq<Run>, n: nat, m: nat, ds: Dataset, set_: SetId)
    requires n <= m <= |runs|
    requires forall k :: n <= k < m ==> !Good(runs[k], ds, set_)
    ensures Last(runs, m, ds, set_) == Last(runs, n, ds, set_)
    ensures FirstFull(runs, m, ds, set_) == FirstFull(runs, n, ds, set_)
    ensures FullAnchor(runs, m, ds, set_) == FullAnchor(runs, n, ds, set_)
    decreases m - n
  {
    if n < m {
      QueriesSkip(runs, n, m - 1, ds, set_);
    }
  }

  // ── The invariant ───────────────────────────────────────────────────────

  /** The run's stream lies whole on its disk, under its name, and replays from its base to its snapshot. */
  ghost predicate Stored(w: World, r: Run) {
    && r.snap.Some? && r.disk in w.volumes
    && r.stream == Some(FileOf(r))
    && FileOf(r) in w.volumes[r.disk].streams
    && w.volumes[r.disk].streams[FileOf(r)] == Complete(r.base, r.snap.value)
  }

  ghost predicate RowOk(w: World, r: Run) {
    && r.ds != ""
    && (r.snap.Some? ==> r.snap.value.ds == r.ds && r.snap.value.ts < w.clock)
    && r.disk in w.volumes && r.disk in w.owner && w.owner[r.disk] == r.set_
    && (r.status == Success ==> Stored(w, r) && r.snap.value in w.pool && r.at < w.clock)
  }

  ghost predicate RowsOk(w: World) {
    forall i :: 0 <= i < |w.runs| ==> RowOk(w, w.runs[i])
  }

  /** Later rows of a dataset hold later snapshots, and successful ones completed later. */
  ghost predicate Ordered(a: Run, b: Run) {
    a.ds == b.ds ==>
      && (a.snap.Some? && b.snap.Some? ==> a.snap.value.ts < b.snap.value.ts)
      && (a.status == Success && b.status == Success ==> a.at < b.at)
  }

  ghost predicate OrderOk(w: World) {
    forall i, j :: 0 <= i < j < |w.runs| ==> Ordered(w.runs[i], w.runs[j])
  }

  ghost predicate LinksOk(w: World) {
    forall k :: 0 <= k < |w.runs| && w.runs[k].status == Success ==> Link(w.runs, k)
  }

  ghost predicate NewestOfDataset(w: World, i: nat) {
    i < |w.runs| && forall j :: i < j < |w.runs| ==> w.runs[j].ds != w.runs[i].ds
  }

  ghost predicate NewestOk(w: World) {
    && (forall i :: i in w.flight ==> NewestOfDataset(w, i))
    && (forall i :: 0 <= i < |w.runs| && w.runs[i].status == Running ==> NewestOfDataset(w, i))
  }

  ghost predicate PoolOk(w: World) {
    forall s :: s in w.pool ==> s.ts < w.clock
  }

  /** The entry was written for a successful run of this disk. */
  ghost predicate IsEntry(w: World, d: DiskId, e: Entry) {
    exists k :: 0 <= k < |w.runs| && w.runs[k].status == Success && w.runs[k].snap.Some?
                && w.runs[k].disk == d && e == EntryOf(w.runs[k])
  }

  ghost predicate Holds(v: Volume, e: Entry) {
    e in Rows(Base(v), e.file.ds) || e in v.sidecars.Values
  }

  ghost predicate MediumShape(v: Volume) {
    && Beside(v.sidecars)
    && forall ds :: ds in Base(v) ==> ds != "" && GoodRow(Base(v)[ds], ds)
  }

  ghost predicate MediaOk(w: World) {
    && (forall d :: d in w.volumes ==> MediumShape(w.volumes[d]))
    && (forall d, e :: d in w.volumes && Holds(w.volumes[d], e) ==> IsEntry(w, d, e))
  }

  /** The anchor a write resolved is still the one its set's chain calls for. */
  ghost predicate Anchored(w: World, i: nat, kind: Kind, base: Option<Snap>, full: Option<Snap>)
    requires i < |w.runs|
  {
    var r := w.runs[i];
    if kind.Full? then base.None? && full.None?
    else
      var j := Last(w.runs, i, r.ds, r.set_);
      j.Some? && base == w.runs[j.value].snap && full == FullAnchor(w.runs, i, r.ds, r.set_)
  }

  ghost predicate Holding(w: World, i: nat, base: Option<Snap>, full: Option<Snap>)
    requires i < |w.runs|
  {
    var r := w.runs[i];
    r.status == Running && r.snap.Some? && r.snap.value in w.pool && Anchored(w, i, r.kind, base, full)
  }

  ghost predicate Unrecorded(w: World, r: Run) {
    r.snap.Some? && forall d, e :: d in w.volumes && Holds(w.volumes[d], e) ==> e.file != FileOf(r)
  }

  /** No successful run was cut from the snapshot. */
  ghost predicate Unprotected(w: World, s: Snap) {
    forall k :: 0 <= k < |w.runs| && w.runs[k].status == Success ==> w.runs[k].snap != Some(s)
  }

  ghost predicate PcOk(w: World, i: nat, pc: Pc)
    requires i < |w.runs|
  {
    var r := w.runs[i];
    match pc
    case Start => r.status == Running
    case Resolved(kind, base, full) =>
      r.status == Running && Anchored(w, i, kind, base, full)
    case Snapped(kind, base, full, s) =>
      && r.status == Running && Anchored(w, i, kind, base, full)
      && s in w.pool && s.ds == r.ds
      && forall k :: 0 <= k < |w.runs| && w.runs[k].ds == r.ds && w.runs[k].snap.Some?
           ==> w.runs[k].snap.value.ts < s.ts
    case Captured(base, full) => Holding(w, i, base, full)
    case Skipping => r.status == Skipped && r.snap.Some?
    case Refused(_) => r.status == Failed && r.snap.Some?
    case Sending(base, full) => Holding(w, i, base, full) && r.stream == Some(FileOf(r))
    case Streaming(base, full) => Holding(w, i, base, full) && r.stream == Some(FileOf(r))
    case Discarding => r.status == Running && r.snap.Some?
    case Closing => r.status == Running && r.snap.Some?
    case Sent(base, full) => Holding(w, i, base, full) && Stored(w, r.(base := base))
    case Listing => r.status == Success && Unrecorded(w, r)
    case Pruning(todo) =>
      && r.status == Success && Unrecorded(w, r)
      && forall s :: s in todo ==> s.ds == r.ds && Unprotected(w, s)
    case Saving => r.status == Success
    case Indexed => r.status == Success
  }

  ghost predicate Core(w: World) {
    && RowsOk(w) && OrderOk(w) && LinksOk(w) && NewestOk(w) && PoolOk(w) && MediaOk(w)
    && w.owner.Keys == w.volumes.Keys
  }

  /** Everything but the standing of write i. */
  ghost predicate Others(w: World, i: nat) {
    Core(w) && forall j :: j in w.flight && j != i ==> PcOk(w, j, w.flight[j])
  }

  ghost predicate Inv(w: World) {
    Core(w) && forall j :: j in w.flight ==> PcOk(w, j, w.flight[j])
  }

  // ── Writes of different datasets do not disturb one another ─────────────

  ghost predicate SameTable(w: World, w': World, ds: Dataset) {
    && |w.runs| <= |w'.runs|
    && SameRows(w.runs, w'.runs, |w.runs|, ds)
    && forall k :: |w.runs| <= k < |w'.runs| ==> w'.runs[k].ds != ds
  }

  ghost predicate SameMedia(w: World, w': World, ds: Dataset) {
    && (forall d :: d in w.volumes ==> d in w'.volumes)
    && (forall d, f :: d in w.volumes && f in w.volumes[d].streams && f.ds == ds ==>
          f in w'.volumes[d].streams && w'.volumes[d].streams[f] == w.volumes[d].streams[f])
    && (forall d, e: Entry :: d in w'.volumes && e.file.ds == ds && Holds(w'.volumes[d], e) ==>
          d in w.volumes && Holds(w.volumes[d], e))
  }

  /** What the protocol can see of a dataset is the same in both worlds. */
  ghost predicate SameView(w: World, w': World, ds: Dataset) {
    && SameTable(w, w', ds) && SameMedia(w, w', ds) && w.clock <= w'.clock
    && forall s: Snap :: s.ds == ds ==> (s in w.pool <==> s in w'.pool)
  }

  ghost predicate SnapsNameDatasets(w: World) {
    forall k :: 0 <= k < |w.runs| && w.runs[k].snap.Some? ==> w.runs[k].snap.value.ds == w.runs[k].ds
  }

  lemma AnchoredFrame(w: World, w': World, j: nat, kind: Kind, base: Option<Snap>, full: Option<Snap>)
    requires j < |w.runs| && SameTable(w, w', w.runs[j].ds)
    requires Anchored(w, j, kind, base, full)
    ensures Anchored(w', j, kind, base, full)
  {
    QueriesFrame(w.runs, w'.runs, j, w.runs[j].ds, w.runs[j].set_);
  }

  lemma UnprotectedFrame(w: World, w': World, s: Snap)
    requires SameTable(w, w', s.ds) && SnapsNameDatasets(w') && Unprotected(w, s)
    ensures Unprotected(w', s)
  {
  }

  /** The standing of a write depends on its own dataset alone. */
  lemma {:induction false} PcFrame(w: World, w': World, j: nat, pc: Pc)
    requires j < |w.runs| && RowOk(w, w.runs[j]) && PcOk(w, j, pc)
    requires SameView(w, w', w.runs[j].ds) && SnapsNameDatasets(w')
    ensures PcOk(w', j, pc)
  {
    hide Anchored, Unprotected;
    var r := w.runs[j];
    assert w'.runs[j] == r;
    match pc
    case Resolved(kind, base, full) => AnchoredFrame(w, w', j, kind, base, full);
    case Snapped(kind, base, full, s) => AnchoredFrame(w, w', j, kind, base, full);
    case Captured(base, full) => AnchoredFrame(w, w', j, r.kind, base, full);
    case Sending(base, full) => AnchoredFrame(w, w', j, r.kind, base, full);
    case Streaming(base, full) => AnchoredFrame(w, w', j, r.kind, base, full);
    case Sent(base, full) => AnchoredFrame(w, w', j, r.kind, base, full);
    case Pruning(todo) =>
      forall s | s in todo ensures s.ds == r.ds && Unprotected(w', s) {
        UnprotectedFrame(w, w', s);
      }
    case _ =>
  }

  /** Two writes in flight are of different datasets. */
  lemma Exclusive(w: World, i: nat, j: nat)
    requires NewestOfDataset(w, i) && NewestOfDataset(w, j) && i != j
    ensures w.runs[i].ds != w.runs[j].ds
  {
  }

  ghost predicate OtherViews(w: World, w': World, own: Dataset) {
    forall ds :: ds != own ==> SameView(w, w', ds)
  }

  lemma OthersFrame(w: World, w': World, i: nat)
    requires Others(w, i) && NewestOfDataset(w, i) && Core(w') && w'.flight == w.flight
    requires OtherViews(w, w', w.runs[i].ds)
    ensures Others(w', i)
  {
    forall j | j in w'.flight && j != i ensures PcOk(w', j, w'.flight[j]) {
      Exclusive(w, i, j);
      PcFrame(w, w', j, w.flight[j]);
    }
  }

  // ── Effects on the run table ────────────────────────────────────────────

  lemma LinkFrame(runs: seq<Run>, runs': seq<Run>, k: nat)
    requires k < |runs| && SameRows(runs, runs', k, runs[k].ds) && k < |runs'| && runs'[k] == runs[k]
    ensures Link(runs, k) <==> Link(runs', k)
  {
    QueriesFrame(runs, runs', k, runs[k].ds, runs[k].set_);
  }

  /** Replacing the newest row of a dataset leaves the links of all other rows alone. */
  lemma OtherLinks(w: World, i: nat, r: Run)
    requires LinksOk(w) && NewestOfDataset(w, i) && r.ds == w.runs[i].ds
    ensures forall k :: 0 <= k < |w.runs| && k != i && w.runs[k].status == Success ==> Link(w.runs[i := r], k)
  {
    forall k | 0 <= k < |w.runs| && k != i && w.runs[k].status == Success
      ensures Link(w.runs[i := r], k)
    {
      LinkFrame(w.runs, w.runs[i := r], k);
    }
  }

  lemma OtherEntries(w: World, i: nat, r: Run, d: DiskId, e: Entry)
    requires i < |w.runs| && IsEntry(w, d, e)
    requires w.runs[i].status != Success || !w.runs[i].snap.Some? || e != EntryOf(w.runs[i])
    ensures IsEntry(Commit(w, i, r), d, e)
  {
    var k :| 0 <= k < |w.runs| && w.runs[k].status == Success && w.runs[k].snap.Some?
             && w.runs[k].disk == d && e == EntryOf(w.runs[k]);
    assert Commit(w, i, r).runs[k] == w.runs[k];
  }

  /** The new row fits behind the earlier rows of its dataset. */
  ghost predicate FitsBehind(w: World, i: nat, r: Run) {
    r.snap.Some? ==> forall k :: 0 <= k < i && k < |w.runs| && w.runs[k].ds == r.ds && w.runs[k].snap.Some?
                       ==> w.runs[k].snap.value.ts < r.snap.value.ts
  }

  lemma RowsAfter(w: World, i: nat, r: Run, clock: nat)
    requires RowsOk(w) && i < |w.runs| && clock >= w.clock && RowOk(w.(clock := clock), r)
    ensures RowsOk(Commit(w.(clock := clock), i, r))
  {
    var w' := Commit(w.(clock := clock), i, r);
    forall k | 0 <= k < |w'.runs| ensures RowOk(w', w'.runs[k]) {
      assert RowOk(w, w.runs[k]);
    }
  }

  lemma OrderAfter(w: World, i: nat, r: Run, clock: nat)
    requires OrderOk(w) && NewestOfDataset(w, i) && r.ds == w.runs[i].ds && r.status != Success
    requires FitsBehind(w, i, r)
    ensures OrderOk(Commit(w.(clock := clock), i, r))
  {
    var w' := Commit(w.(clock := clock), i, r);
    forall a, b | 0 <= a < b < |w'.runs| ensures Ordered(w'.runs[a], w'.runs[b]) {
      assert Ordered(w.runs[a], w.runs[b]);
    }
  }

  lemma MediaAfter(w: World, i: nat, r: Run, clock: nat)
    requires MediaOk(w) && i < |w.runs|
    requires w.runs[i].status != Success || Unrecorded(w, w.runs[i])
    ensures MediaOk(Commit(w.(clock := clock), i, r))
  {
    var w' := Commit(w.(clock := clock), i, r);
    forall d, e | d in w'.volumes && Holds(w'.volumes[d], e) ensures IsEntry(w', d, e) {
      OtherEntries(w, i, r, d, e);
    }
  }

  lemma NewestKept(w: World, w': World)
    requires NewestOk(w) && w'.flight == w.flight && |w'.runs| == |w.runs|
    requires forall k :: 0 <= k < |w.runs| ==> w'.runs[k].ds == w.runs[k].ds
    requires forall k :: 0 <= k < |w.runs| && w'.runs[k].status == Running ==> NewestOfDataset(w, k)
    ensures NewestOk(w')
  {
    forall k | 0 <= k < |w.runs| && NewestOfDataset(w, k) ensures NewestOfDataset(w', k) {
    }
  }

  lemma RowView(w: World, i: nat, r: Run, clock: nat)
    requires i < |w.runs| && r.ds == w.runs[i].ds && clock >= w.clock
    ensures OtherViews(w, Commit(w.(clock := clock), i, r), r.ds)
  {
  }

  lemma CoreAfter(w: World, i: nat, r: Run, clock: nat)
    requires Core(w) && NewestOfDataset(w, i) && clock >= w.clock
    requires w.runs[i].status != Success || Unrecorded(w, w.runs[i])
    requires r.status != Success && r.ds == w.runs[i].ds && RowOk(w.(clock := clock), r) && FitsBehind(w, i, r)
    ensures Core(Commit(w.(clock := clock), i, r))
  {
    var w' := Commit(w.(clock := clock), i, r);
    RowsAfter(w, i, r, clock);
    OrderAfter(w, i, r, clock);
    OtherLinks(w, i, r);
    MediaAfter(w, i, r, clock);
    NewestKept(w, w');
  }

  /**
   * A row that is not successful, or that no medium describes yet, can become anything unsuccessful that
   * keeps its place in the order.
   */
  lemma RowChange(w: World, i: nat, r: Run, clock: nat)
    requires Others(w, i) && NewestOfDataset(w, i) && clock >= w.clock
    requires w.runs[i].status != Success || Unrecorded(w, w.runs[i])
    requires r.status != Success && r.ds == w.runs[i].ds && RowOk(w.(clock := clock), r) && FitsBehind(w, i, r)
    ensures Others(Commit(w.(clock := clock), i, r), i)
  {
    CoreAfter(w, i, r, clock);
    RowView(w, i, r, clock);
    OthersFrame(w, Commit(w.(clock := clock), i, r), i);
  }

  /** The newest row of a dataset is last in each of its chains. */
  lemma NewestQueries(w: World, i: nat, set_: SetId)
    requires NewestOfDataset(w, i) && w.runs[i].status != Success
    ensures Last(w.runs, |w.runs|, w.runs[i].ds, set_) == Last(w.runs, i, w.runs[i].ds, set_)
    ensures FullAnchor(w.runs, |w.runs|, w.runs[i].ds, set_) == FullAnchor(w.runs, i, w.runs[i].ds, set_)
  {
    QueriesSkip(w.runs, i, |w.runs|, w.runs[i].ds, set_);
  }

  /** A snapshot younger than every snapshot of the dataset is nobody's. */
  lemma OwnSnapUnprotected(w: World, i: nat)
    requires OrderOk(w) && i < |w.runs| && w.runs[i].snap.Some? && w.runs[i].status != Success
    requires RowsOk(w)
    ensures Unprotected(w, w.runs[i].snap.value)
  {
    forall k | 0 <= k < |w.runs| && w.runs[k].status == Success
      ensures w.runs[k].snap != w.runs[i].snap
    {
      assert RowOk(w, w.runs[k]) && RowOk(w, w.runs[i]);
      if k < i { assert Ordered(w.runs[k], w.runs[i]); } else { assert Ordered(w.runs[i], w.runs[k]); }
    }
  }

  /** No entry on any medium describes a run that has not been successful. */
  lemma NotYetRecorded(w: World, i: nat)
    requires Core(w) && i < |w.runs| && w.runs[i].snap.Some? && w.runs[i].status != Success
    ensures Unrecorded(w, w.runs[i])
  {
    forall d, e | d in w.volumes && Holds(w.volumes[d], e) ensures e.file != FileOf(w.runs[i]) {
      assert IsEntry(w, d, e);
      var k :| 0 <= k < |w.runs| && w.runs[k].status == Success && w.runs[k].snap.Some?
               && w.runs[k].disk == d && e == EntryOf(w.runs[k]);
      if k < i { assert Ordered(w.runs[k], w.runs[i]); } else { assert Ordered(w.runs[i], w.runs[k]); }
    }
  }

  ghost predicate Winning(w: World, i: nat, r: Run, base: Option<Snap>, full: Option<Snap>) {
    && NewestOfDataset(w, i) && Holding(w, i, base, full) && Stored(w, w.runs[i].(base := base))
    && r == w.runs[i].(base := base, fullAnchor := full, status := Success, at := w.clock)
  }

  lemma WonRows(w: World, i: nat, r: Run, base: Option<Snap>, full: Option<Snap>)
    requires Core(w) && Winning(w, i, r, base, full)
    ensures RowsOk(Commit(w.(clock := w.clock + 1), i, r)) && OrderOk(Commit(w.(clock := w.clock + 1), i, r))
  {
    var w' := Commit(w.(clock := w.clock + 1), i, r);
    assert RowOk(w, w.runs[i]);
    forall k | 0 <= k < |w'.runs| ensures RowOk(w', w'.runs[k]) {
      assert RowOk(w, w.runs[k]);
    }
    forall a, b | 0 <= a < b < |w'.runs| ensures Ordered(w'.runs[a], w'.runs[b]) {
      assert Ordered(w.runs[a], w.runs[b]);
      assert RowOk(w, w.runs[a]);
    }
  }

  lemma WonLinks(w: World, i: nat, r: Run, base: Option<Snap>, full: Option<Snap>)
    requires Core(w) && Winning(w, i, r, base, full)
    ensures LinksOk(Commit(w.(clock := w.clock + 1), i, r))
  {
    OtherLinks(w, i, r);
    QueriesFrame(w.runs, w.runs[i := r], i, r.ds, r.set_);
  }

  lemma WonCore(w: World, i: nat, r: Run, base: Option<Snap>, full: Option<Snap>)
    requires Core(w) && Winning(w, i, r, base, full)
    ensures Core(Commit(w.(clock := w.clock + 1), i, r))
  {
    WonRows(w, i, r, base, full);
    WonLinks(w, i, r, base, full);
    MediaAfter(w, i, r, w.clock + 1);
    NewestKept(w, Commit(w.(clock := w.clock + 1), i, r));
  }

  /** The commit that makes a run successful extends its chain by one link. */
  lemma Won(w: World, i: nat, r: Run, base: Option<Snap>, full: Option<Snap>)
    requires Others(w, i) && Winning(w, i, r, base, full)
    ensures Others(Commit(w.(clock := w.clock + 1), i, r), i)
  {
    WonCore(w, i, r, base, full);
    RowView(w, i, r, w.clock + 1);
    OthersFrame(w, Commit(w.(clock := w.clock + 1), i, r), i);
  }

  // ── Effects on the pool ─────────────────────────────────────────────────

  lemma Snapshotted(w: World, i: nat)
    requires Others(w, i) && NewestOfDataset(w, i)
    ensures Others(w.(clock := w.clock + 1, pool := w.pool + {Snap(w.runs[i].ds, w.clock)}), i)
  {
    var w' := w.(clock := w.clock + 1, pool := w.pool + {Snap(w.runs[i].ds, w.clock)});
    forall k | 0 <= k < |w'.runs| ensures RowOk(w', w'.runs[k]) {
      assert RowOk(w, w.runs[k]);
    }
    forall d, e | d in w'.volumes && Holds(w'.volumes[d], e) ensures IsEntry(w', d, e) {
      assert IsEntry(w, d, e);
    }
    assert SnapsNameDatasets(w');
    OthersFrame(w, w', i);
  }

  lemma DestroyedCore(w: World, s: Snap, stuck: set<Snap>)
    requires Core(w) && Unprotected(w, s)
    ensures Core(Destroy(w, s, stuck))
  {
    var w' := Destroy(w, s, stuck);
    forall k | 0 <= k < |w'.runs| ensures RowOk(w', w'.runs[k]) {
      assert RowOk(w, w.runs[k]);
    }
    forall d, e | d in w'.volumes && Holds(w'.volumes[d], e) ensures IsEntry(w', d, e) {
      assert IsEntry(w, d, e);
    }
  }

  lemma DestroyedView(w: World, s: Snap, stuck: set<Snap>)
    ensures OtherViews(w, Destroy(w, s, stuck), s.ds)
  {
  }

  /** Destroying a snapshot no successful run was cut from, of the dataset being written. */
  lemma Destroyed(w: World, i: nat, s: Snap, stuck: set<Snap>)
    requires Others(w, i) && NewestOfDataset(w, i)
    requires s.ds == w.runs[i].ds && Unprotected(w, s)
    ensures Others(Destroy(w, s, stuck), i)
  {
    DestroyedCore(w, s, stuck);
    DestroyedView(w, s, stuck);
    OthersFrame(w, Destroy(w, s, stuck), i);
  }

  // ── Effects on the media ────────────────────────────────────────────────

  ghost predicate OnlyFile(a: map<StreamFile, Stream>, b: map<StreamFile, Stream>, f: StreamFile) {
    && (forall g :: g in a && g != f ==> g in b && b[g] == a[g])
    && (forall g :: g in b && g != f ==> g in a)
  }

  function PutStreams(w: World, d: DiskId, streams: map<StreamFile, Stream>): World
    requires d in w.volumes
  {
    w.(volumes := w.volumes[d := w.volumes[d].(streams := streams)])
  }

  lemma StreamRows(w: World, i: nat, streams: map<StreamFile, Stream>)
    requires Core(w) && i < |w.runs| && w.runs[i].disk in w.volumes
    requires w.runs[i].snap.Some? && w.runs[i].status != Success
    requires OnlyFile(w.volumes[w.runs[i].disk].streams, streams, FileOf(w.runs[i]))
    ensures RowsOk(PutStreams(w, w.runs[i].disk, streams))
  {
    var r := w.runs[i];
    assert RowOk(w, r);
    var w' := PutStreams(w, r.disk, streams);
    forall k | 0 <= k < |w'.runs| ensures RowOk(w', w'.runs[k]) {
      assert RowOk(w, w.runs[k]);
      if w.runs[k].status == Success {
        if k < i { assert Ordered(w.runs[k], r); } else { assert Ordered(r, w.runs[k]); }
        assert FileOf(w.runs[k]) != FileOf(r);
      }
    }
  }

  lemma StreamMedia(w: World, d: DiskId, streams: map<StreamFile, Stream>)
    requires MediaOk(w) && d in w.volumes
    ensures MediaOk(PutStreams(w, d, streams))
    ensures forall c, e :: c in w.volumes ==> (Holds(PutStreams(w, d, streams).volumes[c], e) <==> Holds(w.volumes[c], e))
  {
    var w' := PutStreams(w, d, streams);
    forall c, e | c in w'.volumes && Holds(w'.volumes[c], e) ensures IsEntry(w', c, e) {
      assert Holds(w.volumes[c], e);
      assert IsEntry(w, c, e);
    }
    forall c | c in w'.volumes ensures MediumShape(w'.volumes[c]) {
      assert MediumShape(w.volumes[c]);
      assert Base(w'.volumes[c]) == Base(w.volumes[c]);
    }
  }

  lemma StreamView(w: World, d: DiskId, streams: map<StreamFile, Stream>, f: StreamFile)
    requires d in w.volumes && OnlyFile(w.volumes[d].streams, streams, f)
    ensures OtherViews(w, PutStreams(w, d, streams), f.ds)
  {
    var w' := PutStreams(w, d, streams);
    forall ds | ds != f.ds ensures SameMedia(w, w', ds) {
      forall c, e: Entry | c in w'.volumes && e.file.ds == ds && Holds(w'.volumes[c], e)
        ensures c in w.volumes && Holds(w.volumes[c], e)
      {
        assert Base(w'.volumes[c]) == Base(w.volumes[c]);
      }
    }
  }

  lemma StreamCore(w: World, i: nat, streams: map<StreamFile, Stream>)
    requires Core(w) && NewestOfDataset(w, i) && w.runs[i].disk in w.volumes
    requires w.runs[i].snap.Some? && w.runs[i].status != Success
    requires OnlyFile(w.volumes[w.runs[i].disk].streams, streams, FileOf(w.runs[i]))
    ensures Core(PutStreams(w, w.runs[i].disk, streams))
  {
    StreamRows(w, i, streams);
    StreamMedia(w, w.runs[i].disk, streams);
    NewestKept(w, PutStreams(w, w.runs[i].disk, streams));
  }

  /** Writing or unlinking the stream of an unfinished run touches no other run's stream. */
  lemma StreamChange(w: World, i: nat, streams: map<StreamFile, Stream>)
    requires Others(w, i) && NewestOfDataset(w, i) && w.runs[i].disk in w.volumes
    requires w.runs[i].snap.Some? && w.runs[i].status != Success
    requires OnlyFile(w.volumes[w.runs[i].disk].streams, streams, FileOf(w.runs[i]))
    ensures Others(PutStreams(w, w.runs[i].disk, streams), i)
  {
    var w' := PutStreams(w, w.runs[i].disk, streams);
    StreamCore(w, i, streams);
    StreamView(w, w.runs[i].disk, streams, FileOf(w.runs[i]));
    OthersFrame(w, w', i);
  }

  /** The entries a table can have produced. */
  ghost function Entries(runs: seq<Run>): set<Entry> {
    set k | 0 <= k < |runs| && runs[k].status == Success && runs[k].snap.Some? :: EntryOf(runs[k])
  }

  lemma EntriesCompatible(w: World)
    requires OrderOk(w)
    ensures AllCompatible(Entries(w.runs))
  {
    forall a, b | a in Entries(w.runs) && b in Entries(w.runs) ensures Compatible(a, b) {
      var k :| 0 <= k < |w.runs| && w.runs[k].status == Success && w.runs[k].snap.Some? && a == EntryOf(w.runs[k]);
      var l :| 0 <= l < |w.runs| && w.runs[l].status == Success && w.runs[l].snap.Some? && b == EntryOf(w.runs[l]);
      if k < l { assert Ordered(w.runs[k], w.runs[l]); }
      if l < k { assert Ordered(w.runs[l], w.runs[k]); }
    }
  }

  lemma MediumSound(w: World, d: DiskId)
    requires OrderOk(w) && MediaOk(w) && d in w.volumes
    ensures SoundVolume(w.volumes[d], Entries(w.runs))
  {
    EntriesCompatible(w);
    var v := w.volumes[d];
    forall e | Holds(v, e) ensures e in Entries(w.runs) {
      assert IsEntry(w, d, e);
    }
    forall ds | ds in Base(v)
      ensures ds != "" && GoodRow(Base(v)[ds], ds) && forall x :: x in Base(v)[ds] ==> x in Entries(w.runs)
    {
      forall x | x in Base(v)[ds] ensures x in Entries(w.runs) {
        assert Holds(v, x);
      }
    }
  }

  /** A new medium content for the disk of write i that says nothing but what it said, and that run. */
  ghost predicate SaysMore(w: World, i: nat, v: Volume)
    requires i < |w.runs| && w.runs[i].snap.Some? && w.runs[i].disk in w.volumes
  {
    && MediumShape(v) && v.streams == w.volumes[w.runs[i].disk].streams
    && forall e :: Holds(v, e) ==> Holds(w.volumes[w.runs[i].disk], e) || e == EntryOf(w.runs[i])
  }

  function PutVolume(w: World, d: DiskId, v: Volume): World {
    w.(volumes := w.volumes[d := v])
  }

  lemma {:induction false} MediumRows(w: World, i: nat, v: Volume)
    requires RowsOk(w) && i < |w.runs| && w.runs[i].snap.Some? && w.runs[i].disk in w.volumes && SaysMore(w, i, v)
    ensures RowsOk(PutVolume(w, w.runs[i].disk, v))
  {
    var w' := PutVolume(w, w.runs[i].disk, v);
    forall k | 0 <= k < |w'.runs| ensures RowOk(w', w'.runs[k]) {
      assert RowOk(w, w.runs[k]);
    }
  }

  lemma {:induction false} MediumEntries(w: World, i: nat, v: Volume)
    requires MediaOk(w) && i < |w.runs| && w.runs[i].status == Success && w.runs[i].snap.Some?
    requires w.runs[i].disk in w.volumes && SaysMore(w, i, v)
    ensures MediaOk(PutVolume(w, w.runs[i].disk, v))
  {
    var d0 := w.runs[i].disk;
    var w' := PutVolume(w, d0, v);
    forall d, e | d in w'.volumes && Holds(w'.volumes[d], e) ensures IsEntry(w', d, e) {
      if d == d0 && e == EntryOf(w.runs[i]) {
        assert w'.runs[i].disk == d;
      } else {
        assert IsEntry(w, d, e);
      }
    }
  }

  lemma {:induction false} MediumView(w: World, i: nat, v: Volume)
    requires i < |w.runs| && w.runs[i].snap.Some? && w.runs[i].disk in w.volumes && SaysMore(w, i, v)
    ensures OtherViews(w, PutVolume(w, w.runs[i].disk, v), w.runs[i].ds)
  {
  }

  lemma {:induction false} MediumChange(w: World, i: nat, v: Volume)
    requires Others(w, i) && NewestOfDataset(w, i)
    requires w.runs[i].status == Success && w.runs[i].snap.Some? && w.runs[i].disk in w.volumes && SaysMore(w, i, v)
    ensures Others(PutVolume(w, w.runs[i].disk, v), i)
  {
    var w' := PutVolume(w, w.runs[i].disk, v);
    MediumRows(w, i, v);
    MediumEntries(w, i, v);
    NewestKept(w, w');
    MediumView(w, i, v);
    OthersFrame(w, w', i);
  }

  lemma IndexSaved(w: World, i: nat)
    requires Others(w, i) && NewestOfDataset(w, i)
    requires w.runs[i].status == Success && w.runs[i].snap.Some?
    ensures
      var r := w.runs[i];
      var v := w.volumes[r.disk];
      var m := Upsert(Scan(v, Walk(v.sidecars)), r.ds, EntryOf(r));
      Others(w.(volumes := w.volumes[r.disk := v.(index := Some(m))]), i)
  {
    var r := w.runs[i];
    var v := w.volumes[r.disk];
    var scanned := Scan(v, Walk(v.sidecars));
    var v' := v.(index := Some(Upsert(scanned, r.ds, EntryOf(r))));
    var all := Entries(w.runs);
    assert RowOk(w, r);
    MediumSound(w, r.disk);
    assert EntryOf(r) in all;
    UpsertRowElements(Rows(scanned, r.ds), EntryOf(r));
    ScanIsUnion(v, Walk(v.sidecars), all, r.ds);
    forall x | x in Rows(scanned, r.ds) ensures x in all && Compatible(x, EntryOf(r)) {
      assert Says(v, r.ds, x);
    }
    UpsertRowGood(Rows(scanned, r.ds), r.ds, EntryOf(r));
    forall ds | ds in Base(v') ensures ds != "" && GoodRow(Base(v')[ds], ds) {
      ScanIsUnion(v, Walk(v.sidecars), all, ds);
      assert ds != r.ds ==> Base(v')[ds] == Rows(scanned, ds);
    }
    forall e | Holds(v', e) ensures Holds(v, e) || e == EntryOf(r) {
      ScanIsUnion(v, Walk(v.sidecars), all, e.file.ds);
      assert e.file.ds != r.ds ==> Rows(Base(v'), e.file.ds) == Rows(scanned, e.file.ds);
    }
    MediumChange(w, i, v');
  }

  lemma SidecarSaved(w: World, i: nat)
    requires Others(w, i) && NewestOfDataset(w, i)
    requires w.runs[i].status == Success && w.runs[i].snap.Some?
    ensures
      var r := w.runs[i];
      var v := w.volumes[r.disk];
      var e := EntryOf(r);
      Others(w.(volumes := w.volumes[r.disk := v.(sidecars := v.sidecars[e.file := e])]), i)
  {
    var r := w.runs[i];
    var v := w.volumes[r.disk];
    var e := EntryOf(r);
    assert RowOk(w, r);
    SidecarReplaced(v.sidecars, e);
    var v' := v.(sidecars := v.sidecars[e.file := e]);
    assert Base(v') == Base(v) && MediumShape(v);
    assert Beside(v'.sidecars);
    MediumChange(w, i, v');
  }
}

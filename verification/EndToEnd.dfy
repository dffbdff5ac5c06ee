/** Restore undoes backup: replaying what the writer left ends at the last successful snapshot. */
module EndToEnd {
  import opened Streams
  import opened Manifest
  import opened Protocol
  import opened Invariants
  import opened Steps
  import opened Safety
  import opened Recording
  import opened Restore

  /** The attached volumes are media of the set: any of them, in any order, possibly met twice. */
  ghost predicate Attached(w: World, set_: SetId, disks: seq<DiskId>) {
    forall d :: d in disks ==> d in w.volumes && d in w.owner && w.owner[d] == set_
  }

  /** The run is recorded, and its medium is attached. */
  ghost predicate Readable(w: World, disks: seq<DiskId>, r: Run) {
    Recorded(w, r) && r.disk in disks
  }

  /** The runs of a chain that can be read, in order. */
  ghost function OnMedia(w: World, disks: seq<DiskId>, c: seq<Run>): (t: seq<Run>)
    ensures forall r :: r in t ==> r in c && r.snap.Some?
  {
    if c == [] then []
    else
      var before := OnMedia(w, disks, c[..|c| - 1]);
      if Readable(w, disks, c[|c| - 1]) then before + [c[|c| - 1]] else before
  }

  ghost function Manifests(w: World, disks: seq<DiskId>): seq<Index>
    requires forall d :: d in disks ==> d in w.volumes
  {
    seq(|disks|, k requires 0 <= k < |disks| =>
      var v := w.volumes[disks[k]];
      Scan(v, Walk(v.sidecars)))
  }

  function Mounts(w: World, disks: seq<DiskId>): seq<Mount>
    requires forall d :: d in disks ==> d in w.volumes
  {
    seq(|disks|, k requires 0 <= k < |disks| => Mount(disks[k], w.volumes[disks[k]]))
  }

  function EntriesOf(c: seq<Run>): seq<Entry>
    requires forall r :: r in c ==> r.snap.Some?
  {
    seq(|c|, k requires 0 <= k < |c| => EntryOf(c[k]))
  }

  // ── What the media offer is what the table says ─────────────────────────

  /** A medium's entries carry the set its disk belongs to, so the set stamp is the owner. */
  lemma StampIsOwner(w: World, d: DiskId, e: Entry)
    requires Inv(w) && d in w.volumes && Holds(w.volumes[d], e)
    ensures e.media == d && d in w.owner && e.set_ == w.owner[d]
  {
    assert IsEntry(w, d, e);
    var k :| 0 <= k < |w.runs| && w.runs[k].status == Success && w.runs[k].snap.Some?
             && w.runs[k].disk == d && e == EntryOf(w.runs[k]);
    assert RowOk(w, w.runs[k]);
  }

  lemma OfferedIsHeld(w: World, disks: seq<DiskId>, ds: Dataset, e: Entry)
    requires Inv(w) && forall d :: d in disks ==> d in w.volumes
    ensures Offered(Manifests(w, disks), ds, e)
            <==> e.file.ds == ds && exists d :: d in disks && Holds(w.volumes[d], e)
  {
    var ms := Manifests(w, disks);
    if Offered(ms, ds, e) {
      var k :| 0 <= k < |ms| && e in Rows(ms[k], ds);
      var d := disks[k];
      var v := w.volumes[d];
      MediumSound(w, d);
      ScanIsUnion(v, Walk(v.sidecars), Entries(w.runs), ds);
      assert Says(v, ds, e);
      assert d in disks && Holds(v, e);
    }
    if e.file.ds == ds {
      if d :| d in disks && Holds(w.volumes[d], e) {
        var k :| 0 <= k < |disks| && disks[k] == d;
        var v := w.volumes[d];
        MediumSound(w, d);
        ScanIsUnion(v, Walk(v.sidecars), Entries(w.runs), ds);
        assert Says(v, ds, e);
        assert e in Rows(ms[k], ds);
      }
    }
  }

  lemma HeldIsRecorded(w: World, d: DiskId, ds: Dataset, set_: SetId, e: Entry)
    requires Inv(w) && d in w.volumes && d in w.owner && w.owner[d] == set_ && Holds(w.volumes[d], e) && e.file.ds == ds
    ensures exists k :: 0 <= k < |w.runs| && Good(w.runs[k], ds, set_) && w.runs[k].disk == d && Recorded(w, w.runs[k])
                        && e == EntryOf(w.runs[k])
  {
    assert IsEntry(w, d, e);
    var k :| 0 <= k < |w.runs| && w.runs[k].status == Success && w.runs[k].snap.Some?
             && w.runs[k].disk == d && e == EntryOf(w.runs[k]);
    assert RowOk(w, w.runs[k]);
    assert Good(w.runs[k], ds, set_);
  }

  lemma HeldIsReadable(w: World, disks: seq<DiskId>, ds: Dataset, set_: SetId, d: DiskId, e: Entry)
    requires Inv(w) && Attached(w, set_, disks) && d in disks && Holds(w.volumes[d], e) && e.file.ds == ds
    ensures exists r :: r in Chain(w.runs, |w.runs|, ds, set_) && Readable(w, disks, r) && e == EntryOf(r)
  {
    HeldIsRecorded(w, d, ds, set_, e);
    var k :| 0 <= k < |w.runs| && Good(w.runs[k], ds, set_) && w.runs[k].disk == d && Recorded(w, w.runs[k])
             && e == EntryOf(w.runs[k]);
    ChainMembers(w.runs, |w.runs|, ds, set_);
    assert w.runs[k] in Chain(w.runs, |w.runs|, ds, set_);
  }

  lemma ChainDataset(runs: seq<Run>, ds: Dataset, set_: SetId, r: Run)
    requires r in Chain(runs, |runs|, ds, set_)
    ensures r.ds == ds && r.snap.Some?
  {
    ChainMembers(runs, |runs|, ds, set_);
  }

  /** Entries of this dataset on the attached media are those of the chain's runs that can be read. */
  lemma OfferedIsReadable(w: World, disks: seq<DiskId>, ds: Dataset, set_: SetId, e: Entry)
    requires Inv(w) && Attached(w, set_, disks)
    ensures Offered(Manifests(w, disks), ds, e)
            <==> exists r :: r in Chain(w.runs, |w.runs|, ds, set_) && Readable(w, disks, r) && e == EntryOf(r)
  {
    OfferedIsHeld(w, disks, ds, e);
    if d :| d in disks && Holds(w.volumes[d], e) && e.file.ds == ds {
      HeldIsReadable(w, disks, ds, set_, d, e);
    }
    if r :| r in Chain(w.runs, |w.runs|, ds, set_) && Readable(w, disks, r) && e == EntryOf(r) {
      ChainDataset(w.runs, ds, set_, r);
    }
  }

  lemma {:induction false} OnMediaMembers(w: World, disks: seq<DiskId>, c: seq<Run>)
    ensures forall r :: r in OnMedia(w, disks, c) <==> r in c && Readable(w, disks, r)
  {
    if c != [] {
      OnMediaMembers(w, disks, c[..|c| - 1]);
      assert c == c[..|c| - 1] + [c[|c| - 1]];
    }
  }

  lemma {:induction false} OnMediaInOrder(w: World, disks: seq<DiskId>, c: seq<Run>)
    requires InOrder(c)
    ensures InOrder(OnMedia(w, disks, c))
  {
    if c != [] {
      var init, last := c[..|c| - 1], c[|c| - 1];
      OnMediaInOrder(w, disks, init);
      OnMediaMembers(w, disks, init);
      var before := OnMedia(w, disks, init);
      forall k | 0 <= k < |before| ensures before[k].at < last.at {
        assert before[k] in before && before[k] in init;
      }
    }
  }

  lemma EntriesOfMembers(t: seq<Run>, e: Entry)
    requires forall r :: r in t ==> r.snap.Some?
    ensures e in EntriesOf(t) <==> exists r :: r in t && e == EntryOf(r)
  {
    var es := EntriesOf(t);
    if e in es {
      var m :| 0 <= m < |es| && es[m] == e;
      assert t[m] in t;
    }
    if r :| r in t && e == EntryOf(r) {
      var m :| 0 <= m < |t| && t[m] == r;
      assert es[m] == e;
    }
  }

  lemma ManifestsAgree(w: World, disks: seq<DiskId>, ds: Dataset)
    requires Inv(w) && forall d :: d in disks ==> d in w.volumes
    ensures Agreeing(Manifests(w, disks), ds, Entries(w.runs))
  {
    EntriesCompatible(w);
    forall e | Offered(Manifests(w, disks), ds, e) ensures e in Entries(w.runs) && e.file.ds == ds {
      OfferedIsHeld(w, disks, ds, e);
      var d :| d in disks && Holds(w.volumes[d], e);
      assert IsEntry(w, d, e);
    }
  }

  lemma EntriesInOrder(t: seq<Run>)
    requires InOrder(t) && forall r :: r in t ==> r.snap.Some?
    ensures Strict(EntriesOf(t))
  {
  }

  /** Some sequence of actions leads from a fresh installation to this state. */
  ghost predicate Reachable(w: World) {
    exists acts :: w == Play(FRESH, acts)
  }

  lemma ReachableIsSound(w: World)
    requires Reachable(w)
    ensures Inv(w)
  {
    var acts :| w == Play(FRESH, acts);
    ReachableInv(acts);
  }

  /** Merging the attached volumes gives back the chain of the run table, entry for run that can be read, in order. */
  lemma MergedIsChain(w: World, disks: seq<DiskId>, ds: Dataset, set_: SetId)
    requires Reachable(w) && Attached(w, set_, disks)
    ensures Merged(Manifests(w, disks), ds) == EntriesOf(OnMedia(w, disks, Chain(w.runs, |w.runs|, ds, set_)))
    ensures Sort(Merged(Manifests(w, disks), ds)) == Merged(Manifests(w, disks), ds)
  {
    ReachableIsSound(w);
    var c := Chain(w.runs, |w.runs|, ds, set_);
    var t := OnMedia(w, disks, c);
    ManifestsAgree(w, disks, ds);
    MergedIsUnion(Manifests(w, disks), ds, Entries(w.runs));
    OnMediaMembers(w, disks, c);
    forall e | true ensures e in Merged(Manifests(w, disks), ds) <==> e in EntriesOf(t) {
      OfferedIsReadable(w, disks, ds, set_, e);
      EntriesOfMembers(t, e);
    }
    ChainInOrder(w, |w.runs|, ds, set_);
    OnMediaInOrder(w, disks, c);
    EntriesInOrder(t);
    Canonical(Merged(Manifests(w, disks), ds), EntriesOf(t));
    SortIdempotent(Merged(Manifests(w, disks), ds));
  }

  // ── Replaying ───────────────────────────────────────────────────────────

  lemma {:induction false} FirstWithFinds(mounted: seq<Mount>, f: StreamFile, d: DiskId, v: Volume)
    requires f in v.streams
    requires forall m :: m in mounted && m.fsUuid == d ==> m.volume == v
    requires exists m :: m in mounted && m.fsUuid == d
    ensures FirstWith(mounted, f, Some(d)) == Some(v.streams[f])
  {
    assert mounted[0] in mounted;
    if mounted[0].fsUuid != d {
      var m :| m in mounted && m.fsUuid == d;
      assert m in mounted[1..];
      FirstWithFinds(mounted[1..], f, d, v);
    }
  }

  /** The stream of a successful run is found on its own medium, whole. */
  lemma LocateFinds(w: World, disks: seq<DiskId>, set_: SetId, k: nat)
    requires Inv(w) && Attached(w, set_, disks)
    requires k < |w.runs| && w.runs[k].status == Success && w.runs[k].set_ == set_ && w.runs[k].disk in disks
    ensures Stored(w, w.runs[k])
    ensures Locate(EntryOf(w.runs[k]), Mounts(w, disks))
            == Some(Complete(w.runs[k].base, w.runs[k].snap.value))
  {
    var r := w.runs[k];
    assert RowOk(w, r);
    var ms := Mounts(w, disks);
    var j :| 0 <= j < |disks| && disks[j] == r.disk;
    assert ms[j].fsUuid == r.disk && ms[j] in ms;
    FirstWithFinds(ms, FileOf(r), r.disk, w.volumes[r.disk]);
  }

  /** Every run's stream is found, whole. */
  ghost predicate Findable(c: seq<Run>, mounted: seq<Mount>) {
    forall r :: r in c ==> r.snap.Some? && Locate(EntryOf(r), mounted) == Some(Complete(r.base, r.snap.value))
  }

  /** The target has taken on the snapshot of a run. */
  predicate TookOn(target: Target, r: Run) {
    target.At? && r.snap == Some(target.snap)
  }

  /** A full is received into anything, an incremental only into its base; either lands on its snapshot. */
  lemma ReplayStep(r: Run, mounted: seq<Mount>, target: Target, accepted: bool)
    requires Findable([r], mounted) && (r.kind.Full? ==> r.base.None?) && (r.kind.Incremental? ==> r.base.Some?)
    ensures Step(target, EntryOf(r), mounted, accepted)
            == if accepted && (r.kind.Full? || target == At(r.base.value)) then Some(At(r.snap.value)) else None
  {
    assert r in [r];
  }

  lemma ReplayStates(t: seq<Run>, mounted: seq<Mount>, accepts: seq<bool>, ok: bool, states: seq<Target>, n: nat)
    requires Findable(t, mounted) && Based(t) && |accepts| == |t| && Replayed(EntriesOf(t), mounted, accepts, ok, states)
    requires n + 1 < |states|
    ensures accepts[n] && states[n + 1] == At(t[n].snap.value)
    ensures t[n].kind.Incremental? ==> states[n] == At(t[n].base.value)
  {
    assert Step(states[n], EntriesOf(t)[n], mounted, accepts[n]) == Some(states[n + 1]);
    assert t[n] in t;
    ReplayStep(t[n], mounted, states[n], accepts[n]);
  }

  ghost predicate Based(t: seq<Run>) {
    forall r :: r in t ==> (r.kind.Full? ==> r.base.None?) && (r.kind.Incremental? ==> r.base.Some?)
  }

  /** Where the latest full of a chain sits. */
  ghost predicate LatestFullAt(c: seq<Run>, g: nat) {
    g < |c| && c[g].kind.Full? && forall j :: g < j < |c| ==> c[j].kind.Incremental?
  }

  /** From its latest full on, every run of the chain can be read. */
  ghost predicate TailReadable(w: World, disks: seq<DiskId>, c: seq<Run>) {
    exists g: nat :: LatestFullAt(c, g) && forall j :: g <= j < |c| ==> Readable(w, disks, c[j])
  }

  /** When every run of a chain can be read, so can its tail: a linked chain holds a full. */
  lemma WholeChainReadable(w: World, disks: seq<DiskId>, c: seq<Run>)
    requires Linked(c)
    ensures c != [] && (forall r :: r in c ==> Readable(w, disks, r)) ==> TailReadable(w, disks, c)
  {
    if c != [] && forall r :: r in c ==> Readable(w, disks, r) {
      var found := FullOrNone(c, |c|);
      assert LinkedAt(c, 0);
      assert LatestFullAt(c, found.value);
      forall j | found.value <= j < |c| ensures Readable(w, disks, c[j]) {
        assert c[j] in c;
      }
    }
  }

  lemma {:induction false} OnMediaSplit(w: World, disks: seq<DiskId>, c: seq<Run>, g: nat)
    requires g <= |c| && forall j :: g <= j < |c| ==> Readable(w, disks, c[j])
    ensures OnMedia(w, disks, c) == OnMedia(w, disks, c[..g]) + c[g..]
    decreases |c|
  {
    if g == |c| {
      assert c[..g] == c;
    } else {
      var init, last := c[..|c| - 1], c[|c| - 1];
      assert forall j :: g <= j < |init| ==> init[j] == c[j];
      OnMediaSplit(w, disks, init, g);
      assert init[..g] == c[..g] && c[g..] == init[g..] + [last];
      assert OnMedia(w, disks, c) == OnMedia(w, disks, init) + [last];
    }
  }

  lemma LinkedFrom(c: seq<Run>, g: nat)
    requires Linked(c) && g < |c| && c[g].kind.Full?
    ensures Linked(c[g..])
  {
    forall j | 0 <= j < |c[g..]| ensures LinkedAt(c[g..], j) {
      assert LinkedAt(c, g + j);
    }
  }

  /** No two runs of the chain were cut from the same snapshot. */
  ghost predicate OwnSnaps(c: seq<Run>) {
    forall a, b :: a in c && b in c && a.snap == b.snap ==> a == b
  }

  lemma ChainOwnSnaps(w: World, ds: Dataset, set_: SetId)
    requires Inv(w)
    ensures OwnSnaps(Chain(w.runs, |w.runs|, ds, set_)) && Based(Chain(w.runs, |w.runs|, ds, set_))
  {
    var c := Chain(w.runs, |w.runs|, ds, set_);
    ChainMembers(w.runs, |w.runs|, ds, set_);
    forall a, b | a in c && b in c && a.snap == b.snap ensures a == b {
      var k :| 0 <= k < |w.runs| && a == w.runs[k] && Good(a, ds, set_);
      var l :| 0 <= l < |w.runs| && b == w.runs[l] && Good(b, ds, set_);
      OrderedIf(w, k, l);
      OrderedIf(w, l, k);
    }
    forall r | r in c ensures (r.kind.Full? ==> r.base.None?) && (r.kind.Incremental? ==> r.base.Some?) {
      var k :| 0 <= k < |w.runs| && r == w.runs[k] && Good(r, ds, set_);
      assert Link(w.runs, k);
    }
  }

  /** `chain_full_anchor` names the head of the whole chain: the latest full exactly when that is the only one. */
  lemma FullAnchorExactly(w: World, ds: Dataset, set_: SetId, g: nat)
    requires Inv(w) && LatestFullAt(Chain(w.runs, |w.runs|, ds, set_), g)
    ensures var c := Chain(w.runs, |w.runs|, ds, set_);
            && FullAnchor(w.runs, |w.runs|, ds, set_) == c[0].snap
            && (FullAnchor(w.runs, |w.runs|, ds, set_) == c[g].snap <==> forall k :: 0 < k < |c| ==> c[k].kind.Incremental?)
  {
    var c := Chain(w.runs, |w.runs|, ds, set_);
    FirstFullIsHead(w, |w.runs|, ds, set_);
    ChainInOrder(w, |w.runs|, ds, set_);
    ChainOwnSnaps(w, ds, set_);
    assert c[0] in c && c[g] in c;
    if g > 0 { assert c[0].at < c[g].at; }
  }

  lemma FindableOnMedia(w: World, disks: seq<DiskId>, ds: Dataset, set_: SetId, t: seq<Run>)
    requires Inv(w) && Attached(w, set_, disks)
    requires forall r :: r in t ==> r in Chain(w.runs, |w.runs|, ds, set_) && r.disk in disks
    ensures Findable(t, Mounts(w, disks))
  {
    ChainMembers(w.runs, |w.runs|, ds, set_);
    forall r | r in t
      ensures r.snap.Some? && Locate(EntryOf(r), Mounts(w, disks)) == Some(Complete(r.base, r.snap.value))
    {
      var k :| 0 <= k < |w.runs| && r == w.runs[k] && Good(r, ds, set_);
      LocateFinds(w, disks, set_, k);
    }
  }

  // ── When a replay reaches the end ───────────────────────────────────────

  /** A linked tail from a full is replayed to its end when no receive is refused, from any target. */
  lemma {:induction false} LinkedReplays(
    t: seq<Run>, mounted: seq<Mount>, accepts: seq<bool>, ok: bool, states: seq<Target>)
    requires Linked(t) && t != [] && t[0].kind.Full? && Findable(t, mounted) && Based(t) && |accepts| == |t|
    requires Replayed(EntriesOf(t), mounted, accepts, ok, states) && forall k :: 0 <= k < |accepts| ==> accepts[k]
    ensures ok && TookOn(states[|states| - 1], t[|t| - 1])
  {
    var n := |states| - 1;
    if n > 0 {
      ReplayStates(t, mounted, accepts, ok, states, n - 1);
      assert t[n - 1] in t;
    }
    if !ok {
      assert EntriesOf(t)[n] == EntryOf(t[n]) && LinkedAt(t, n) && t[n] in t;
      ReplayStep(t[n], mounted, states[n], accepts[n]);
    }
  }

  /** A finished replay of a tail from its latest full shows the tail was linked. */
  lemma FinishedIsLinked(t: seq<Run>, mounted: seq<Mount>, accepts: seq<bool>, states: seq<Target>)
    requires LatestFullAt(t, 0) && Findable(t, mounted) && Based(t) && |accepts| == |t|
    requires Replayed(EntriesOf(t), mounted, accepts, true, states)
    ensures Linked(t) && TookOn(states[|t|], t[|t| - 1])
  {
    forall k | 0 <= k < |t| ensures LinkedAt(t, k) {
      assert t[k] in t;
      ReplayStates(t, mounted, accepts, true, states, k);
      if k > 0 {
        ReplayStates(t, mounted, accepts, true, states, k - 1);
        assert t[k - 1] in t;
      }
    }
    ReplayStates(t, mounted, accepts, true, states, |t| - 1);
  }

  /** Run k builds on the run just before it in the list. */
  ghost predicate Joins(t: seq<Run>, k: nat)
    requires 0 < k < |t|
  {
    t[k].kind.Incremental? && t[k].base == t[k - 1].snap
  }

  /** Two linked lists over the same snapshots that end alike are alike from the end, as far as one has a base. */
  lemma {:induction false} AlikeFromTheEnd(c: seq<Run>, t: seq<Run>, j: nat)
    requires Linked(c) && OwnSnaps(c) && (forall r :: r in t ==> r in c) && forall k :: 0 < k < |t| ==> Joins(t, k)
    requires t != [] && c != [] && t[|t| - 1] == c[|c| - 1] && j < |t|
    ensures j < |c| && t[|t| - 1 - j] == c[|c| - 1 - j]
  {
    if j > 0 {
      AlikeFromTheEnd(c, t, j - 1);
      var k, m := |t| - j, |c| - j;
      assert t[k] == c[m] && Joins(t, k) && LinkedAt(c, m);
      assert t[k - 1] in t && c[m - 1] in c;
    }
  }

  /** So one is the end of the other. */
  lemma JoinedIsTail(c: seq<Run>, t: seq<Run>)
    requires Linked(c) && OwnSnaps(c) && (forall r :: r in t ==> r in c) && forall k :: 0 < k < |t| ==> Joins(t, k)
    requires t != [] && c != [] && t[|t| - 1] == c[|c| - 1]
    ensures |t| <= |c| && t == c[|c| - |t|..]
  {
    AlikeFromTheEnd(c, t, |t| - 1);
    forall k | 0 <= k < |t| ensures t[k] == c[|c| - |t|..][k] {
      AlikeFromTheEnd(c, t, |t| - 1 - k);
    }
  }

  lemma LinkedJoins(t: seq<Run>)
    requires Linked(t) && LatestFullAt(t, 0)
    ensures forall k :: 0 < k < |t| ==> Joins(t, k)
  {
    forall k | 0 < k < |t| ensures Joins(t, k) {
      assert LinkedAt(t, k);
    }
  }

  lemma LinkedTailIsTail(w: World, disks: seq<DiskId>, c: seq<Run>, t: seq<Run>)
    requires Linked(c) && Linked(t) && OwnSnaps(c) && c != []
    requires LatestFullAt(t, 0) && t[|t| - 1] == c[|c| - 1]
    requires forall r :: r in t ==> r in c && Readable(w, disks, r)
    ensures TailReadable(w, disks, c)
  {
    LinkedJoins(t);
    JoinedIsTail(c, t);
    var g := |c| - |t|;
    forall j | g <= j < |c| ensures c[j] == t[j - g] && Readable(w, disks, c[j]) {
      assert t[j - g] in t;
    }
    assert LatestFullAt(c, g);
  }

  // ── Going on from a snapshot of the chain ───────────────────────────────

  /** The target is at a snapshot of the chain, and what can be read is just the incrementals behind it. */
  ghost predicate Resumes(w: World, disks: seq<DiskId>, c: seq<Run>, target: Target) {
    exists g: nat :: ResumesAt(w, disks, c, target, g)
  }

  ghost predicate ResumesAt(w: World, disks: seq<DiskId>, c: seq<Run>, target: Target, g: nat) {
    && 0 < g <= |c| && TookOn(target, c[g - 1]) && OnMedia(w, disks, c) == c[g..]
    && forall r :: r in c[g..] ==> r.kind.Incremental?
  }

  lemma {:induction false} RestReplays(
    c: seq<Run>, g: nat, mounted: seq<Mount>, accepts: seq<bool>, ok: bool, states: seq<Target>)
    requires Linked(c) && 0 < g <= |c| && Based(c) && Findable(c[g..], mounted) && |accepts| == |c[g..]| && AllTrue(accepts)
    requires Replayed(EntriesOf(c[g..]), mounted, accepts, ok, states) && TookOn(states[0], c[g - 1])
    ensures ok && TookOn(states[|states| - 1], c[|c| - 1])
  {
    var t, n := c[g..], |states| - 1;
    if n > 0 {
      ReplayStates(t, mounted, accepts, ok, states, n - 1);
      assert t[n - 1] == c[g + n - 1];
    }
    assert TookOn(states[n], c[g + n - 1]);
    if !ok {
      assert EntriesOf(t)[n] == EntryOf(t[n]) && t[n] == c[g + n] && t[n] in t && LinkedAt(c, g + n);
      ReplayStep(t[n], mounted, states[n], accepts[n]);
    }
  }

  /** Incrementals alone that were all received and end at the end of the chain are the rest of it. */
  lemma FinishedIsRest(c: seq<Run>, t: seq<Run>, mounted: seq<Mount>, accepts: seq<bool>, states: seq<Target>)
    requires Linked(c) && OwnSnaps(c) && Based(c) && Findable(t, mounted) && c != [] && t != []
    requires forall r :: r in t ==> r in c && r.kind.Incremental?
    requires |accepts| == |t| && Replayed(EntriesOf(t), mounted, accepts, true, states)
    requires TookOn(states[|t|], c[|c| - 1])
    ensures |t| < |c| && t == c[|c| - |t|..] && TookOn(states[0], c[|c| - |t| - 1])
  {
    forall k | 0 < k < |t| ensures Joins(t, k) {
      ReplayStates(t, mounted, accepts, true, states, k);
      ReplayStates(t, mounted, accepts, true, states, k - 1);
      assert t[k] in t && t[k - 1] in t;
    }
    ReplayStates(t, mounted, accepts, true, states, |t| - 1);
    assert t[|t| - 1] in t && c[|c| - 1] in c;
    JoinedIsTail(c, t);
    ReplayStates(t, mounted, accepts, true, states, 0);
    assert t[0] in t && LinkedAt(c, |c| - |t|);
  }

  // ── The headline ────────────────────────────────────────────────────────

  /** Merge the volumes and cut the dataset's latest chain. */
  method LatestChain(manifests: seq<Index>, ds: Dataset) returns (chain: seq<Entry>)
    ensures Cut(Sort(Merged(manifests, ds)), chain)
  {
    var merged := MergeManifests(manifests);
    assert Rows(merged, ds) == Merged(manifests, ds);
    chain := ChainOf(if ds in merged then merged[ds] else []);
    SortElements(Merged(manifests, ds));
  }

  /** `chain` is `rows` from its latest full on, or all of it when there is none. */
  ghost predicate Cut(rows: seq<Entry>, chain: seq<Entry>) {
    && (forall k: nat :: LatestFull(rows, k) ==> chain == rows[k..])
    && ((forall e :: e in rows ==> e.kind.Incremental?) ==> chain == rows)
  }

  lemma {:induction false} FullOrNone(t: seq<Run>, n: nat) returns (f: Option<nat>)
    requires n <= |t|
    ensures f.Some? ==> f.value < n && t[f.value].kind.Full? && forall j :: f.value < j < n ==> t[j].kind.Incremental?
    ensures f.None? ==> forall j :: 0 <= j < n ==> t[j].kind.Incremental?
  {
    if n == 0 {
      f := None;
    } else if t[n - 1].kind.Full? {
      f := Some(n - 1);
    } else {
      f := FullOrNone(t, n - 1);
    }
  }

  /** The cut of a chain's entries is the entries of a tail of it. */
  lemma CutIsTail(t: seq<Run>, chain: seq<Entry>) returns (f: nat)
    requires (forall r :: r in t ==> r.snap.Some?) && Cut(EntriesOf(t), chain)
    ensures f <= |t| && chain == EntriesOf(t[f..])
    ensures LatestFullAt(t, f) || (f == 0 && forall r :: r in t ==> r.kind.Incremental?)
  {
    var found := FullOrNone(t, |t|);
    if found.Some? {
      f := found.value;
      assert LatestFull(EntriesOf(t), f);
      assert EntriesOf(t)[f..] == EntriesOf(t[f..]);
    } else {
      f := 0;
      assert t[0..] == t;
    }
  }

  ghost predicate AllTrue(accepts: seq<bool>) {
    forall k :: 0 <= k < |accepts| ==> accepts[k]
  }

  /** What is replayed: the tail t of the runs that can be read, from the latest full among them if there is one. */
  ghost predicate Replays(w: World, disks: seq<DiskId>, c: seq<Run>, t: seq<Run>, mounted: seq<Mount>) {
    && Linked(c) && Based(c) && OwnSnaps(c) && Findable(t, mounted)
    && (forall r :: r in t ==> r in c && r in OnMedia(w, disks, c) && Readable(w, disks, r))
    && (LatestFullAt(t, 0) || (t == OnMedia(w, disks, c) && forall r :: r in t ==> r.kind.Incremental?))
    && (TailReadable(w, disks, c) ==> t != [] && t[0].kind.Full? && Linked(t) && c != [] && t[|t| - 1] == c[|c| - 1])
  }

  /** Behind some head, the runs that can be read go on as the chain does from its latest full. */
  lemma ReadableTail(w: World, disks: seq<DiskId>, c: seq<Run>) returns (g: nat, h: nat)
    requires TailReadable(w, disks, c)
    ensures LatestFullAt(c, g) && h <= |OnMedia(w, disks, c)| && OnMedia(w, disks, c)[h..] == c[g..]
  {
    g :| LatestFullAt(c, g) && forall j :: g <= j < |c| ==> Readable(w, disks, c[j]);
    OnMediaSplit(w, disks, c, g);
    h := |OnMedia(w, disks, c[..g])|;
  }

  lemma LatestFullSame(t: seq<Run>, c: seq<Run>, f: nat, g: nat, h: nat)
    requires LatestFullAt(c, g) && h <= |t| && t[h..] == c[g..] && f <= |t|
    requires LatestFullAt(t, f) || (f == 0 && forall r :: r in t ==> r.kind.Incremental?)
    ensures f == h
  {
    assert t[h] == t[h..][0] == c[g] && t[h] in t;
    forall j | h < j < |t| ensures t[j].kind.Incremental? {
      assert t[j] == t[h..][j - h] == c[g + j - h];
    }
  }

  lemma MediaTailReplays(w: World, disks: seq<DiskId>, c: seq<Run>, f: nat, mounted: seq<Mount>)
    requires Linked(c) && Based(c) && OwnSnaps(c) && f <= |OnMedia(w, disks, c)|
    requires LatestFullAt(OnMedia(w, disks, c), f) || (f == 0 && forall r :: r in OnMedia(w, disks, c) ==> r.kind.Incremental?)
    requires Findable(OnMedia(w, disks, c), mounted)
    ensures Replays(w, disks, c, OnMedia(w, disks, c)[f..], mounted)
  {
    var t := OnMedia(w, disks, c);
    OnMediaMembers(w, disks, c);
    if TailReadable(w, disks, c) {
      var g, h := ReadableTail(w, disks, c);
      LatestFullSame(t, c, f, g, h);
      LinkedFrom(c, g);
      assert c[|c| - 1] == c[g..][|c[g..]| - 1] && c[g] == c[g..][0];
    }
  }

  lemma ReachableChain(w: World, ds: Dataset, set_: SetId)
    requires Reachable(w)
    ensures var c := Chain(w.runs, |w.runs|, ds, set_); Linked(c) && Based(c) && OwnSnaps(c)
  {
    ReachableIsSound(w);
    ChainLinked(w, |w.runs|, ds, set_);
    ChainOwnSnaps(w, ds, set_);
  }

  lemma ReachableFindable(w: World, disks: seq<DiskId>, ds: Dataset, set_: SetId)
    requires Reachable(w) && Attached(w, set_, disks)
    ensures Findable(OnMedia(w, disks, Chain(w.runs, |w.runs|, ds, set_)), Mounts(w, disks))
  {
    ReachableIsSound(w);
    OnMediaMembers(w, disks, Chain(w.runs, |w.runs|, ds, set_));
    FindableOnMedia(w, disks, ds, set_, OnMedia(w, disks, Chain(w.runs, |w.runs|, ds, set_)));
  }

  /** The merged manifests, cut, are the readable runs of a sound chain, cut; and their streams are found. */
  ghost predicate Ready(w: World, disks: seq<DiskId>, c: seq<Run>, chain: seq<Entry>, mounted: seq<Mount>) {
    && Linked(c) && Based(c) && OwnSnaps(c) && Findable(OnMedia(w, disks, c), mounted)
    && Cut(EntriesOf(OnMedia(w, disks, c)), chain)
  }

  lemma WhatIsReplayed(w: World, disks: seq<DiskId>, c: seq<Run>, chain: seq<Entry>, mounted: seq<Mount>)
    returns (t: seq<Run>)
    requires Ready(w, disks, c, chain, mounted)
    ensures (forall r :: r in t ==> r.snap.Some?) && chain == EntriesOf(t) && Replays(w, disks, c, t, mounted)
  {
    var f := CutIsTail(OnMedia(w, disks, c), chain);
    t := OnMedia(w, disks, c)[f..];
    MediaTailReplays(w, disks, c, f, mounted);
  }

  lemma ReadyToReplay(w: World, set_: SetId, disks: seq<DiskId>, ds: Dataset, chain: seq<Entry>)
    requires Reachable(w) && Attached(w, set_, disks) && Cut(Sort(Merged(Manifests(w, disks), ds)), chain)
    ensures Ready(w, disks, Chain(w.runs, |w.runs|, ds, set_), chain, Mounts(w, disks))
  {
    MergedIsChain(w, disks, ds, set_);
    ReachableChain(w, ds, set_);
    ReachableFindable(w, disks, ds, set_);
  }

  /**
   * With any of the set's volumes attached, into any target, and with no receive refused, a restore reaches
   * the snapshot of the set's last successful run exactly when every run from the latest full on can be
   * read, or the target is at a snapshot of the chain and just the incrementals behind that can.
   */
  lemma RestoreReachesEndExactly(
    w: World, set_: SetId, disks: seq<DiskId>, ds: Dataset, chain: seq<Entry>, accepts: seq<bool>,
    ok: bool, states: seq<Target>)
    requires Reachable(w) && Attached(w, set_, disks) && Chain(w.runs, |w.runs|, ds, set_) != []
    requires Cut(Sort(Merged(Manifests(w, disks), ds)), chain)
    requires |accepts| == |chain| && AllTrue(accepts) && Replayed(chain, Mounts(w, disks), accepts, ok, states)
    ensures var c := Chain(w.runs, |w.runs|, ds, set_);
            ok && TookOn(states[|states| - 1], c[|c| - 1])
            <==> TailReadable(w, disks, c) || Resumes(w, disks, c, states[0])
  {
    ReadyToReplay(w, set_, disks, ds, chain);
    ReadyReachesEnd(w, disks, Chain(w.runs, |w.runs|, ds, set_), chain, Mounts(w, disks), accepts, ok, states);
  }

  lemma ReadyReachesEnd(
    w: World, disks: seq<DiskId>, c: seq<Run>, chain: seq<Entry>, mounted: seq<Mount>, accepts: seq<bool>, ok: bool,
    states: seq<Target>)
    requires Ready(w, disks, c, chain, mounted) && c != [] && |accepts| == |chain| && AllTrue(accepts)
    requires Replayed(chain, mounted, accepts, ok, states)
    ensures ok && TookOn(states[|states| - 1], c[|c| - 1])
            <==> TailReadable(w, disks, c) || Resumes(w, disks, c, states[0])
  {
    var t := WhatIsReplayed(w, disks, c, chain, mounted);
    if LatestFullAt(t, 0) {
      FromFullReaches(w, disks, c, t, mounted, accepts, ok, states);
    } else {
      WithoutFullReaches(w, disks, c, t, mounted, accepts, ok, states);
    }
  }

  lemma FromFullReaches(
    w: World, disks: seq<DiskId>, c: seq<Run>, t: seq<Run>, mounted: seq<Mount>, accepts: seq<bool>, ok: bool,
    states: seq<Target>)
    requires Replays(w, disks, c, t, mounted) && c != [] && LatestFullAt(t, 0)
    requires |accepts| == |t| && AllTrue(accepts) && Replayed(EntriesOf(t), mounted, accepts, ok, states)
    ensures ok && TookOn(states[|states| - 1], c[|c| - 1]) <==> TailReadable(w, disks, c)
    ensures !Resumes(w, disks, c, states[0])
  {
    assert Based(t) && t[0] in t;
    if TailReadable(w, disks, c) {
      LinkedReplays(t, mounted, accepts, ok, states);
    }
    if ok && TookOn(states[|states| - 1], c[|c| - 1]) {
      FinishedIsLinked(t, mounted, accepts, states);
      assert t[|t| - 1] in t && t[|t| - 1] in c && c[|c| - 1] in c;
      LinkedTailIsTail(w, disks, c, t);
    }
  }

  lemma WithoutFullReaches(
    w: World, disks: seq<DiskId>, c: seq<Run>, t: seq<Run>, mounted: seq<Mount>, accepts: seq<bool>, ok: bool,
    states: seq<Target>)
    requires Replays(w, disks, c, t, mounted) && c != [] && !LatestFullAt(t, 0)
    requires |accepts| == |t| && AllTrue(accepts) && Replayed(EntriesOf(t), mounted, accepts, ok, states)
    ensures ok && TookOn(states[|states| - 1], c[|c| - 1]) <==> Resumes(w, disks, c, states[0])
    ensures !TailReadable(w, disks, c)
  {
    assert t != [] ==> t[0] in t;
    if Resumes(w, disks, c, states[0]) {
      var g: nat :| ResumesAt(w, disks, c, states[0], g);
      RestReplays(c, g, mounted, accepts, ok, states);
    }
    if ok && TookOn(states[|states| - 1], c[|c| - 1]) {
      if t == [] {
        assert ResumesAt(w, disks, c, states[0], |c|);
      } else {
        FinishedIsRest(c, t, mounted, accepts, states);
        assert ResumesAt(w, disks, c, states[0], |c| - |t|);
      }
    }
  }

  /** Whatever is attached and whatever is refused, each stream received leaves the target at the snapshot of its run. */
  lemma RestoreIsPrefixSafe(
    w: World, set_: SetId, disks: seq<DiskId>, ds: Dataset, chain: seq<Entry>, accepts: seq<bool>,
    ok: bool, states: seq<Target>, n: nat)
    requires Reachable(w) && Attached(w, set_, disks)
    requires Cut(Sort(Merged(Manifests(w, disks), ds)), chain)
    requires |accepts| == |chain| && Replayed(chain, Mounts(w, disks), accepts, ok, states) && n + 1 < |states|
    ensures exists r :: r in Chain(w.runs, |w.runs|, ds, set_) && r.snap.Some? && chain[n] == EntryOf(r) && TookOn(states[n + 1], r)
  {
    ReadyToReplay(w, set_, disks, ds, chain);
    ReadyPrefixSafe(w, disks, Chain(w.runs, |w.runs|, ds, set_), chain, Mounts(w, disks), accepts, ok, states, n);
  }

  lemma ReadyPrefixSafe(
    w: World, disks: seq<DiskId>, c: seq<Run>, chain: seq<Entry>, mounted: seq<Mount>, accepts: seq<bool>, ok: bool,
    states: seq<Target>, n: nat)
    requires Ready(w, disks, c, chain, mounted) && |accepts| == |chain|
    requires Replayed(chain, mounted, accepts, ok, states) && n + 1 < |states|
    ensures exists r :: r in c && r.snap.Some? && chain[n] == EntryOf(r) && TookOn(states[n + 1], r)
  {
    var t := WhatIsReplayed(w, disks, c, chain, mounted);
    ReplayStates(t, mounted, accepts, ok, states, n);
    assert t[n] in t;
  }

  /** What a restore promises of the target, for a chain c of which some runs can be read. */
  ghost predicate Promised(
    w: World, disks: seq<DiskId>, c: seq<Run>, target0: Target, accepts: nat -> bool, ok: bool, target: Target)
  {
    && (target == target0 || exists r :: r in c && TookOn(target, r))
    && (c != [] && (forall k :: accepts(k)) ==>
          (ok && TookOn(target, c[|c| - 1]) <==> TailReadable(w, disks, c) || Resumes(w, disks, c, target0)))
  }

  lemma PromiseKept(
    w: World, set_: SetId, disks: seq<DiskId>, ds: Dataset, chain: seq<Entry>, accepts: nat -> bool,
    answers: seq<bool>, ok: bool, states: seq<Target>)
    requires Reachable(w) && Attached(w, set_, disks) && Cut(Sort(Merged(Manifests(w, disks), ds)), chain)
    requires |answers| == |chain| && forall k :: 0 <= k < |chain| ==> answers[k] == accepts(k)
    requires Replayed(chain, Mounts(w, disks), answers, ok, states)
    ensures Promised(w, disks, Chain(w.runs, |w.runs|, ds, set_), states[0], accepts, ok, states[|states| - 1])
  {
    hide Reachable, Attached, Cut, Merged, Chain, TailReadable, Resumes, Sort, Manifests, Mounts;
    var c := Chain(w.runs, |w.runs|, ds, set_);
    if |states| > 1 {
      RestoreIsPrefixSafe(w, set_, disks, ds, chain, answers, ok, states, |states| - 2);
    }
    if c != [] && AllTrue(answers) {
      RestoreReachesEndExactly(w, set_, disks, ds, chain, answers, ok, states);
    }
  }

  /**
   * Backup, then restore, from any reachable state: any sessions, refusals, retries, crashes, recoveries;
   * into any target, from any of the set's volumes. The target ends untouched or at a snapshot of the
   * chain, and what can be read decides whether it reaches the last one.
   */
  method RestoreDataset(
    ghost acts: seq<Action>, ghost set_: SetId, ghost disks: seq<DiskId>, ds: Dataset, manifests: seq<Index>,
    mounted: seq<Mount>, target0: Target, accepts: nat -> bool) returns (ok: bool, target: Target)
    requires Attached(Play(FRESH, acts), set_, disks)
    requires manifests == Manifests(Play(FRESH, acts), disks) && mounted == Mounts(Play(FRESH, acts), disks)
    ensures var w := Play(FRESH, acts);
            Promised(w, disks, Chain(w.runs, |w.runs|, ds, set_), target0, accepts, ok, target)
    ensures var w := Play(FRESH, acts);
            var c := Chain(w.runs, |w.runs|, ds, set_);
            c != [] && (forall r :: r in c ==> Readable(w, disks, r)) && (forall k :: accepts(k)) ==>
              ok && TookOn(target, c[|c| - 1])
  {
    ok, target := ReplayLatest(Play(FRESH, acts), set_, disks, ds, manifests, mounted, target0, accepts);
    ReachableChain(Play(FRESH, acts), ds, set_);
    WholeChainReadable(Play(FRESH, acts), disks, Chain(Play(FRESH, acts).runs, |Play(FRESH, acts).runs|, ds, set_));
  }

  method ReplayLatest(
    ghost w: World, ghost set_: SetId, ghost disks: seq<DiskId>, ds: Dataset, manifests: seq<Index>,
    mounted: seq<Mount>, target0: Target, accepts: nat -> bool) returns (ok: bool, target: Target)
    requires Reachable(w) && Attached(w, set_, disks)
    requires manifests == Manifests(w, disks) && mounted == Mounts(w, disks)
    ensures Promised(w, disks, Chain(w.runs, |w.runs|, ds, set_), target0, accepts, ok, target)
  {
    var chain := LatestChain(manifests, ds);
    var answers := seq(|chain|, k requires 0 <= k < |chain| => accepts(k));
    var states;
    ok, target, states := RestoreOne(chain, mounted, target0, answers);
    PromiseKept(w, set_, disks, ds, chain, accepts, answers, ok, states);
  }
}

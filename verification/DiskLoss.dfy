/**
 * Losing a disk: what `chain_dependencies` lists before a disk is detached
 * (nazman/services/backup_group_service.py), and what deleting the disk's runs does to the chains
 * (nazman/managers/zfs_backup_manager.py).
 */
module DiskLoss {
  import opened Streams
  import opened Protocol
  import opened Invariants
  import opened Steps
  import opened Safety
  import opened EndToEnd
  import opened Recording
  import opened Manager
  import opened Restore
  import opened Manifest

  /** The rows that are left when a disk's rows are deleted. */
  function Surviving(runs: seq<Run>, disk: DiskId): (left: seq<Run>)
    ensures |left| <= |runs|
  {
    if runs == [] then []
    else
      Surviving(runs[..|runs| - 1], disk)
      + if runs[|runs| - 1].disk == disk then [] else [runs[|runs| - 1]]
  }

  // ── What is listed ──────────────────────────────────────────────────────

  /** A successful run of the dataset in the set lies on the disk. */
  ghost predicate HasStream(runs: seq<Run>, set_: SetId, disk: DiskId, ds: Dataset) {
    exists k :: 0 <= k < |runs| && OnDisk(runs[k], set_, disk) && runs[k].ds == ds
  }

  predicate OnDisk(r: Run, set_: SetId, disk: DiskId) {
    r.set_ == set_ && r.status == Success && r.disk == disk
  }

  /** The run is of the set, on another disk, and was built on a stream of this one. */
  predicate BuiltOn(r: Run, set_: SetId, disk: DiskId, streams: set<Option<Snap>>) {
    r.set_ == set_ && r.status == Success && r.disk != disk
    && (r.base in streams || r.fullAnchor in streams)
  }

  // ── Names carry their dataset ───────────────────────────────────────────

  predicate Names(s: Option<Snap>, ds: Dataset) {
    s.Some? ==> s.value.ds == ds
  }

  /** Whatever a row names is a snapshot of its own dataset; a success has one. */
  predicate OwnNames(r: Run) {
    && Names(r.snap, r.ds) && Names(r.base, r.ds) && Names(r.fullAnchor, r.ds)
    && (r.status == Success ==> r.snap.Some?)
  }

  ghost predicate OwnTable(runs: seq<Run>) {
    forall k :: 0 <= k < |runs| ==> OwnNames(runs[k])
  }

  predicate OwnPc(pc: Pc, ds: Dataset) {
    match pc
    case Resolved(_, base, full) => Names(base, ds) && Names(full, ds)
    case Snapped(_, base, full, s) => Names(base, ds) && Names(full, ds) && s.ds == ds
    case Captured(base, full) => Names(base, ds) && Names(full, ds)
    case Sending(base, full) => Names(base, ds) && Names(full, ds)
    case Streaming(base, full) => Names(base, ds) && Names(full, ds)
    case Sent(base, full) => Names(base, ds) && Names(full, ds)
    case _ => true
  }

  ghost predicate Own(w: World) {
    OwnTable(w.runs) && forall i :: i in w.flight && i < |w.runs| ==> OwnPc(w.flight[i], w.runs[i].ds)
  }

  lemma AnchorsOwn(w: World, ds: Dataset, set_: SetId, lists: bool)
    requires OwnTable(w.runs)
    ensures Names(SetAnchor(w, ds, set_, lists), ds) && Names(FullAnchor(w.runs, |w.runs|, ds, set_), ds)
  {
    var j, f := Last(w.runs, |w.runs|, ds, set_), FirstFull(w.runs, |w.runs|, ds, set_);
    assert j.Some? ==> OwnNames(w.runs[j.value]);
    assert f.Some? ==> OwnNames(w.runs[f.value]);
  }

  /** The row names its own, and so does the write in flight. */
  ghost predicate RowOwn(w: World, i: nat) {
    i < |w.runs| && OwnNames(w.runs[i]) && (i in w.flight ==> OwnPc(w.flight[i], w.runs[i].ds))
  }

  lemma StartOwn(w: World, i: nat, env: Env)
    requires Own(w) && CanTick(w, i) && w.flight[i].Start?
    ensures RowOwn(Tick(w, i, env), i)
  {
    AnchorsOwn(w, w.runs[i].ds, w.runs[i].set_, AnchorListingFails !in env.faults);
    assert OwnNames(w.runs[i]) && OwnPc(w.flight[i], w.runs[i].ds);
  }

  lemma SnapshotOwn(w: World, i: nat, env: Env)
    requires Own(w) && CanTick(w, i) && (w.flight[i].Resolved? || w.flight[i].Snapped?)
    ensures RowOwn(Tick(w, i, env), i)
  {
    assert OwnNames(w.runs[i]) && OwnPc(w.flight[i], w.runs[i].ds);
  }

  lemma CaptureOwn(w: World, i: nat, env: Env)
    requires Own(w) && CanTick(w, i) && w.flight[i].Captured?
    ensures RowOwn(Tick(w, i, env), i)
  {
    assert OwnNames(w.runs[i]) && OwnPc(w.flight[i], w.runs[i].ds);
  }

  lemma SendOwn(w: World, i: nat, env: Env)
    requires Own(w) && CanTick(w, i) && (w.flight[i].Sending? || w.flight[i].Streaming? || w.flight[i].Discarding? || w.flight[i].Closing?
                                          || w.flight[i].Skipping? || w.flight[i].Refused?)
    ensures RowOwn(Tick(w, i, env), i)
  {
    assert OwnNames(w.runs[i]) && OwnPc(w.flight[i], w.runs[i].ds);
  }

  lemma FinishOwn(w: World, i: nat, env: Env)
    requires Own(w) && CanTick(w, i) && (w.flight[i].Sent? || w.flight[i].Listing? || w.flight[i].Pruning? || w.flight[i].Saving? || w.flight[i].Indexed?)
    ensures RowOwn(Tick(w, i, env), i)
  {
    assert OwnNames(w.runs[i]) && OwnPc(w.flight[i], w.runs[i].ds);
  }

  lemma TickRowOwn(w: World, i: nat, env: Env)
    requires Own(w) && CanTick(w, i)
    ensures RowOwn(Tick(w, i, env), i)
  {
    match w.flight[i]
    case Start => StartOwn(w, i, env);
    case Resolved(_, _, _) => SnapshotOwn(w, i, env);
    case Snapped(_, _, _, _) => SnapshotOwn(w, i, env);
    case Captured(_, _) => CaptureOwn(w, i, env);
    case Skipping => SendOwn(w, i, env);
    case Refused(_) => SendOwn(w, i, env);
    case Sending(_, _) => SendOwn(w, i, env);
    case Streaming(_, _) => SendOwn(w, i, env);
    case Discarding => SendOwn(w, i, env);
    case Closing => SendOwn(w, i, env);
    case _ => FinishOwn(w, i, env);
  }

  lemma OthersOwn(w: World, w': World, i: nat)
    requires Own(w) && OthersAlone(w, w', i) && RowOwn(w', i)
    ensures Own(w')
  {
    forall k | 0 <= k < |w'.runs| ensures OwnNames(w'.runs[k]) {
      assert k != i ==> w'.runs[k] == w.runs[k];
    }
  }

  lemma TickOwn(w: World, i: nat, env: Env)
    requires Own(w) && CanTick(w, i)
    ensures Own(Tick(w, i, env))
  {
    TickLeavesOthers(w, i, env);
    TickRowOwn(w, i, env);
    OthersOwn(w, Tick(w, i, env), i);
  }

  lemma ApplyOwn(w: World, a: Action)
    requires Own(w)
    ensures Own(Apply(w, a))
  {
    if a.Effect? && CanTick(w, a.i) {
      TickOwn(w, a.i, a.env);
    }
  }

  lemma SurvivingOwn(runs: seq<Run>, disk: DiskId)
    requires OwnTable(runs)
    ensures OwnTable(Surviving(runs, disk))
  {
    SurvivingMembers(runs, disk);
    var left := Surviving(runs, disk);
    forall k | 0 <= k < |left| ensures OwnNames(left[k]) {
      assert left[k] in left && left[k] in runs;
    }
  }

  /** What can befall the table: an action of the protocol, or the rows of a disk being deleted between writes. */
  datatype Turn = Act(a: Action) | Lose(disk: DiskId)

  ghost function Turned(w: World, t: Turn): World {
    match t
    case Act(a) => Apply(w, a)
    case Lose(disk) => if w.flight == map[] then w.(runs := Surviving(w.runs, disk)) else w
  }

  ghost function Life(w: World, turns: seq<Turn>): World {
    if turns == [] then w else Turned(Life(w, turns[..|turns| - 1]), turns[|turns| - 1])
  }

  /** However many disks were lost before, between whatever writes, crashes and recoveries, names stay own. */
  lemma {:induction false} LifeOwn(turns: seq<Turn>)
    ensures Own(Life(FRESH, turns))
  {
    if turns != [] {
      var before, t := Life(FRESH, turns[..|turns| - 1]), turns[|turns| - 1];
      LifeOwn(turns[..|turns| - 1]);
      if t.Act? {
        ApplyOwn(before, t.a);
      } else {
        SurvivingOwn(before.runs, t.disk);
      }
    }
  }

  /**
   * Snapshot names carry their dataset, so whoever builds on a stream of the disk is of a dataset that
   * has a stream on the disk.
   */
  lemma BuiltOnIsListed(runs: seq<Run>, set_: SetId, disk: DiskId, k: nat, l: nat)
    requires OwnTable(runs) && k < |runs| && l < |runs|
    requires OnDisk(runs[l], set_, disk) && (runs[k].base == runs[l].snap || runs[k].fullAnchor == runs[l].snap)
    ensures runs[k].ds == runs[l].ds
  {
    assert OwnNames(runs[k]) && OwnNames(runs[l]);
  }

  /**
   * `chain_dependencies`. It lists exactly the datasets with a stream of the set on the disk, each once:
   * its second loop adds nothing.
   */
  method ChainDependencies(runs: seq<Run>, set_: SetId, disk: DiskId) returns (listed: seq<Dataset>)
    requires OwnTable(runs)
    ensures forall ds :: ds in listed <==> HasStream(runs, set_, disk, ds)
    ensures forall i, j :: 0 <= i < j < |listed| ==> listed[i] != listed[j]
  {
    var streams: set<Option<Snap>> := {};
    listed := [];
    var n := 0;
    while n < |runs|
      invariant 0 <= n <= |runs|
      invariant forall ds :: ds in listed <==> HasStream(runs[..n], set_, disk, ds)
      invariant forall i, j :: 0 <= i < j < |listed| ==> listed[i] != listed[j]
      invariant forall s :: s in streams ==> exists l :: 0 <= l < n && OnDisk(runs[l], set_, disk) && runs[l].snap == s
    {
      assert runs[..n + 1] == runs[..n] + [runs[n]];
      HasStreamNext(runs[..n], runs[n], runs[..n + 1], set_, disk);
      if OnDisk(runs[n], set_, disk) {
        streams := streams + {runs[n].snap};
        listed := AddNew(listed, runs[n].ds);
      }
      n := n + 1;
    }
    assert runs[..n] == runs;
    ghost var first := listed;
    n := 0;
    while n < |runs|
      invariant 0 <= n <= |runs| && listed == first
    {
      if BuiltOn(runs[n], set_, disk, streams) {
        AlreadyListed(runs, set_, disk, n, streams, listed);
        listed := AddNew(listed, runs[n].ds);
      }
      n := n + 1;
    }
  }

  /** Append a dataset that is not in the list yet. */
  function AddNew(listed: seq<Dataset>, ds: Dataset): seq<Dataset> {
    if ds in listed then listed else listed + [ds]
  }

  lemma HasStreamNext(before: seq<Run>, r: Run, after: seq<Run>, set_: SetId, disk: DiskId)
    requires after == before + [r]
    ensures forall ds :: HasStream(after, set_, disk, ds)
                         <==> HasStream(before, set_, disk, ds) || (OnDisk(r, set_, disk) && r.ds == ds)
  {
    forall ds | true
      ensures HasStream(after, set_, disk, ds)
              <==> HasStream(before, set_, disk, ds) || (OnDisk(r, set_, disk) && r.ds == ds)
    {
      if k :| 0 <= k < |before| && OnDisk(before[k], set_, disk) && before[k].ds == ds {
        assert after[k] == before[k];
      }
      if OnDisk(r, set_, disk) && r.ds == ds {
        assert after[|before|] == r;
      }
      if k :| 0 <= k < |after| && OnDisk(after[k], set_, disk) && after[k].ds == ds && k < |before| {
        assert before[k] == after[k];
      }
    }
  }

  lemma AlreadyListed(runs: seq<Run>, set_: SetId, disk: DiskId, n: nat, streams: set<Option<Snap>>, listed: seq<Dataset>)
    requires OwnTable(runs) && n < |runs| && BuiltOn(runs[n], set_, disk, streams)
    requires forall s :: s in streams ==> exists l :: 0 <= l < |runs| && OnDisk(runs[l], set_, disk) && runs[l].snap == s
    requires forall ds :: ds in listed <==> HasStream(runs, set_, disk, ds)
    ensures runs[n].ds in listed
  {
    var r := runs[n];
    var s := if r.base in streams then r.base else r.fullAnchor;
    var l :| 0 <= l < |runs| && OnDisk(runs[l], set_, disk) && runs[l].snap == s;
    BuiltOnIsListed(runs, set_, disk, n, l);
    assert HasStream(runs, set_, disk, r.ds);
  }

  // ── What is lost ────────────────────────────────────────────────────────

  lemma SurvivingNext(runs: seq<Run>, r: Run, disk: DiskId)
    ensures Surviving(runs + [r], disk) == if r.disk == disk then Surviving(runs, disk) else Surviving(runs, disk) + [r]
  {
    assert (runs + [r])[..|runs|] == runs;
  }

  lemma ChainNext(runs: seq<Run>, r: Run, ds: Dataset, set_: SetId)
    ensures Chain(runs + [r], |runs| + 1, ds, set_)
            == if Good(r, ds, set_) then Chain(runs, |runs|, ds, set_) + [r] else Chain(runs, |runs|, ds, set_)
  {
    ChainPrefix(runs + [r], runs, |runs|, ds, set_);
  }

  lemma {:induction false} SurvivingChain(runs: seq<Run>, disk: DiskId, ds: Dataset, set_: SetId)
    ensures Chain(Surviving(runs, disk), |Surviving(runs, disk)|, ds, set_)
            == Surviving(Chain(runs, |runs|, ds, set_), disk)
  {
    if runs != [] {
      var init, last := runs[..|runs| - 1], runs[|runs| - 1];
      assert runs == init + [last];
      SurvivingChain(init, disk, ds, set_);
      SurvivingNext(init, last, disk);
      ChainNext(init, last, ds, set_);
      ChainNext(Surviving(init, disk), last, ds, set_);
      SurvivingNext(Chain(init, |init|, ds, set_), last, disk);
    }
  }

  lemma {:induction false} ChainPrefix(runs: seq<Run>, init: seq<Run>, n: nat, ds: Dataset, set_: SetId)
    requires n <= |init| <= |runs| && runs[..|init|] == init
    ensures Chain(runs, n, ds, set_) == Chain(init, n, ds, set_)
  {
    if n > 0 {
      ChainPrefix(runs, init, n - 1, ds, set_);
      assert runs[n - 1] == init[n - 1];
    }
  }

  lemma {:induction false} SurvivingMembers(c: seq<Run>, disk: DiskId)
    ensures forall r :: r in Surviving(c, disk) <==> r in c && r.disk != disk
  {
    if c != [] {
      SurvivingMembers(c[..|c| - 1], disk);
      assert c == c[..|c| - 1] + [c[|c| - 1]];
    }
  }

  lemma {:induction false} SurvivingAll(c: seq<Run>, disk: DiskId)
    requires forall r :: r in c ==> r.disk != disk
    ensures Surviving(c, disk) == c
  {
    if c != [] {
      SurvivingAll(c[..|c| - 1], disk);
    }
  }

  /** Some run of the list lies on the disk. */
  ghost predicate Touches(c: seq<Run>, disk: DiskId) {
    exists r :: r in c && r.disk == disk
  }

  lemma SurvivingSame(c: seq<Run>, disk: DiskId)
    ensures Surviving(c, disk) != c <==> Touches(c, disk)
  {
    SurvivingMembers(c, disk);
    if !Touches(c, disk) {
      SurvivingAll(c, disk);
    }
  }

  lemma StreamInChain(runs: seq<Run>, disk: DiskId, ds: Dataset, set_: SetId)
    requires OwnTable(runs)
    ensures HasStream(runs, set_, disk, ds) <==> Touches(Chain(runs, |runs|, ds, set_), disk)
  {
    var c := Chain(runs, |runs|, ds, set_);
    ChainMembers(runs, |runs|, ds, set_);
    if k :| 0 <= k < |runs| && OnDisk(runs[k], set_, disk) && runs[k].ds == ds {
      assert OwnNames(runs[k]);
      assert runs[k] in c;
    }
    if r :| r in c && r.disk == disk {
      var k :| 0 <= k < |runs| && r == runs[k] && Good(r, ds, set_);
      assert OnDisk(runs[k], set_, disk);
    }
  }

  /** Deleting a disk's runs changes the chain of a dataset exactly when the dataset was listed. */
  lemma LossExactly(runs: seq<Run>, disk: DiskId, ds: Dataset, set_: SetId)
    requires OwnTable(runs)
    ensures var left := Surviving(runs, disk);
            Chain(left, |left|, ds, set_) != Chain(runs, |runs|, ds, set_) <==> HasStream(runs, set_, disk, ds)
  {
    SurvivingChain(runs, disk, ds, set_);
    SurvivingSame(Chain(runs, |runs|, ds, set_), disk);
    StreamInChain(runs, disk, ds, set_);
  }

  /** From the latest full on, no run of the chain is on the disk. */
  ghost predicate TailElsewhere(c: seq<Run>, disk: DiskId) {
    exists g: nat :: LatestFullAt(c, g) && forall j :: g <= j < |c| ==> c[j].disk != disk
  }

  /** The disk is gone: its rows, its declaration and its volume. */
  ghost function Detached(w: World, disk: DiskId): World {
    w.(runs := Surviving(w.runs, disk), volumes := w.volumes - {disk}, owner := w.owner - {disk})
  }

  /** The attached volumes are all the set has but the lost one. */
  ghost predicate RestAttached(w: World, set_: SetId, lost: DiskId, disks: seq<DiskId>) {
    forall d :: d in disks <==> d in w.volumes && d in w.owner && w.owner[d] == set_ && d != lost
  }

  /** Every run of the chain lies on a medium of its set. */
  lemma OnMediumOfSet(w: World, ds: Dataset, set_: SetId, r: Run)
    requires Inv(w) && r in Chain(w.runs, |w.runs|, ds, set_)
    ensures r.disk in w.volumes && r.disk in w.owner && w.owner[r.disk] == set_
  {
    ChainMembers(w.runs, |w.runs|, ds, set_);
    var k :| 0 <= k < |w.runs| && r == w.runs[k] && Good(r, ds, set_);
    assert RowOk(w, w.runs[k]);
  }

  lemma TailLeft(w: World, set_: SetId, lost: DiskId, disks: seq<DiskId>, ds: Dataset)
    requires Inv(w) && RestAttached(w, set_, lost, disks)
    requires forall r :: r in Chain(w.runs, |w.runs|, ds, set_) ==> Recorded(w, r)
    ensures var c := Chain(w.runs, |w.runs|, ds, set_); TailReadable(w, disks, c) <==> TailElsewhere(c, lost)
  {
    var c := Chain(w.runs, |w.runs|, ds, set_);
    forall j | 0 <= j < |c| ensures Readable(w, disks, c[j]) <==> c[j].disk != lost {
      assert c[j] in c;
      OnMediumOfSet(w, ds, set_, c[j]);
    }
    if TailReadable(w, disks, c) {
      var g: nat :| LatestFullAt(c, g) && forall j :: g <= j < |c| ==> Readable(w, disks, c[j]);
      assert forall j :: g <= j < |c| ==> c[j].disk != lost;
    }
    if TailElsewhere(c, lost) {
      var g: nat :| LatestFullAt(c, g) && forall j :: g <= j < |c| ==> c[j].disk != lost;
      assert forall j :: g <= j < |c| ==> Readable(w, disks, c[j]);
    }
  }

  lemma SameMediaLeft(w: World, lost: DiskId, disks: seq<DiskId>)
    requires lost !in disks && forall d :: d in disks ==> d in w.volumes
    ensures forall d :: d in disks ==> d in Detached(w, lost).volumes
    ensures Manifests(Detached(w, lost), disks) == Manifests(w, disks)
    ensures Mounts(Detached(w, lost), disks) == Mounts(w, disks)
  {
  }

  /**
   * Which listed datasets are lost. With every run recorded, restoring from the media that are left after
   * a disk is gone, no receive refused, still reaches the last snapshot exactly when the disk held nothing
   * from the latest full on, or the target is already that far along the chain.
   */
  lemma StillReachesExactly(
    w: World, set_: SetId, lost: DiskId, disks: seq<DiskId>, ds: Dataset, chain: seq<Entry>, accepts: seq<bool>,
    ok: bool, states: seq<Target>)
    requires Reachable(w) && RestAttached(w, set_, lost, disks) && Chain(w.runs, |w.runs|, ds, set_) != []
    requires forall r :: r in Chain(w.runs, |w.runs|, ds, set_) ==> Recorded(w, r)
    requires forall d :: d in disks ==> d in Detached(w, lost).volumes
    requires Cut(Sort(Merged(Manifests(Detached(w, lost), disks), ds)), chain)
    requires |accepts| == |chain| && AllTrue(accepts)
    requires Replayed(chain, Mounts(Detached(w, lost), disks), accepts, ok, states)
    ensures var c := Chain(w.runs, |w.runs|, ds, set_);
            ok && TookOn(states[|states| - 1], c[|c| - 1])
            <==> TailElsewhere(c, lost) || Resumes(w, disks, c, states[0])
  {
    ReachableIsSound(w);
    SameMediaLeft(w, lost, disks);
    TailLeft(w, set_, lost, disks, ds);
    RestoreReachesEndExactly(w, set_, disks, ds, chain, accepts, ok, states);
  }

  // ── Recycling ───────────────────────────────────────────────────────────

  /** `recycle_disk`: the medium is empty and its runs are gone. */
  function Recycled(w: World, disk: DiskId): World {
    w.(runs := Surviving(w.runs, disk), volumes := w.volumes[disk := Manifest.Volume(map[], None, map[])])
  }

  /**
   * After recycling the only disk a set ever used, every chain of the set is empty, and whatever the
   * disk's next write of any dataset was asked to be, it becomes a full.
   */
  lemma RecycledStartsOver(w: World, disk: DiskId, ds: Dataset, set_: SetId, kind: Kind, env: Env)
    requires forall k :: 0 <= k < |w.runs| && w.runs[k].set_ == set_ ==> w.runs[k].disk == disk
    requires MountFails !in env.faults
    ensures var w' := Recycled(w, disk);
            && Chain(w'.runs, |w'.runs|, ds, set_) == []
            && var begun := w'.(runs := w'.runs + [FreshRun(ds, set_, disk, kind)], flight := map[|w'.runs| := Start]);
               CanTick(begun, |w'.runs|) && Tick(begun, |w'.runs|, env).flight[|w'.runs|] == Resolved(Full, None, None)
  {
    var left := Surviving(w.runs, disk);
    SurvivingMembers(w.runs, disk);
    assert forall k :: 0 <= k < |left| ==> left[k] in left;
    var runs := left + [FreshRun(ds, set_, disk, kind)];
    NoneOfSet(left, |left|, ds, set_);
    NoneOfSet(runs, |left|, ds, set_);
  }

  lemma {:induction false} NoneOfSet(runs: seq<Run>, n: nat, ds: Dataset, set_: SetId)
    requires n <= |runs| && forall k :: 0 <= k < n ==> runs[k].set_ != set_
    ensures Chain(runs, n, ds, set_) == [] && Last(runs, n, ds, set_) == None
  {
    if n > 0 {
      NoneOfSet(runs, n - 1, ds, set_);
    }
  }
}

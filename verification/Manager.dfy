/**
 * `ZfsBackupManager.backup_dataset` as the straight-line code it is, over mutable tables. Every durable
 * change is noted in `history`, and shown to be the next step of the protocol.
 */
module Manager {
  import opened Streams
  import opened Manifest
  import opened Protocol
  import opened Invariants
  import opened Steps
  import opened Safety
  import opened Recording

  /** Listing for the prune works, and so does every destroy. */
  predicate Prunes(env: Env) {
    PruneListingFails !in env.faults && env.stuck == {}
  }

  datatype Result = Wrote | Unchanged | NeedsSpace(needed: nat, free: nat) | GaveUpOn

  ghost predicate StepAt(h: seq<World>, k: nat, i: nat, env: Env)
    requires k + 1 < |h|
  {
    CanTick(h[k], i) && h[k + 1] == Tick(h[k], i, env)
  }

  /** `h` continues `before` with consecutive steps of write i. */
  ghost predicate Follows(before: seq<World>, h: seq<World>, i: nat, env: Env) {
    && 0 < |before| <= |h| && h[..|before|] == before
    && forall k :: |before| - 1 <= k < |h| - 1 ==> StepAt(h, k, i, env)
  }

  lemma FollowsOn(a: seq<World>, b: seq<World>, c: seq<World>, i: nat, env: Env)
    requires Follows(a, b, i, env) && Follows(b, c, i, env)
    ensures Follows(a, c, i, env)
  {
    assert c[..|a|] == c[..|b|][..|a|];
    forall k | |a| - 1 <= k < |c| - 1 ensures StepAt(c, k, i, env) {
      if k < |b| - 1 {
        assert StepAt(b, k, i, env) && c[k] == b[k] && c[k + 1] == b[k + 1];
      }
    }
  }

  lemma FollowsSelf(h: seq<World>, i: nat, env: Env)
    requires h != []
    ensures Follows(h, h, i, env)
  {
  }

  lemma FollowsOne(a: seq<World>, w: World, i: nat, env: Env)
    requires a != [] && CanTick(a[|a| - 1], i) && w == Tick(a[|a| - 1], i, env)
    ensures Follows(a, a + [w], i, env)
  {
  }

  /** What a write never touches: other rows, other writes, set membership. */
  ghost predicate OthersAlone(w: World, w': World, i: nat) {
    && |w'.runs| == |w.runs| && w'.owner == w.owner
    && (forall m :: 0 <= m < |w.runs| && m != i ==> w'.runs[m] == w.runs[m])
    && (forall m :: m != i ==> (m in w'.flight <==> m in w.flight))
    && (forall m :: m in w.flight && m != i ==> w'.flight[m] == w.flight[m])
    && (i < |w.runs| ==> w'.runs[i].ds == w.runs[i].ds && w'.runs[i].set_ == w.runs[i].set_)
  }

  lemma FailLeavesOthers(w: World, i: nat, r: Run)
    requires i < |w.runs| && r.ds == w.runs[i].ds && r.set_ == w.runs[i].set_
    ensures OthersAlone(w, Fail(w, i, r), i)
  {
  }

  lemma StartLeaves(w: World, i: nat, env: Env)
    requires CanTick(w, i) && (w.flight[i].Start? || w.flight[i].Resolved?)
    ensures OthersAlone(w, Tick(w, i, env), i)
  {
    FailLeavesOthers(w, i, w.runs[i]);
    if w.flight[i].Resolved? {
      FailLeavesOthers(w.(clock := w.clock + 1), i, Promote(w.runs[i], w.flight[i].kind));
    }
  }

  lemma CaptureLeaves(w: World, i: nat, env: Env)
    requires CanTick(w, i) && (w.flight[i].Snapped? || w.flight[i].Captured? || w.flight[i].Skipping? || w.flight[i].Refused?)
    ensures OthersAlone(w, Tick(w, i, env), i)
  {
    FailLeavesOthers(w, i, w.runs[i]);
  }

  lemma SendLeaves(w: World, i: nat, env: Env)
    requires CanTick(w, i) && (w.flight[i].Sending? || w.flight[i].Streaming? || w.flight[i].Discarding? || w.flight[i].Closing?)
    ensures OthersAlone(w, Tick(w, i, env), i)
  {
    FailLeavesOthers(w, i, w.runs[i]);
  }

  lemma FinishLeaves(w: World, i: nat, env: Env)
    requires CanTick(w, i) && (w.flight[i].Sent? || w.flight[i].Listing? || w.flight[i].Pruning? || w.flight[i].Saving? || w.flight[i].Indexed?)
    ensures OthersAlone(w, Tick(w, i, env), i)
  {
    FailLeavesOthers(w, i, w.runs[i]);
  }

  lemma TickLeavesOthers(w: World, i: nat, env: Env)
    requires CanTick(w, i)
    ensures OthersAlone(w, Tick(w, i, env), i)
  {
    match w.flight[i]
    case Start => StartLeaves(w, i, env);
    case Resolved(_, _, _) => StartLeaves(w, i, env);
    case Snapped(_, _, _, _) => CaptureLeaves(w, i, env);
    case Captured(_, _) => CaptureLeaves(w, i, env);
    case Skipping => CaptureLeaves(w, i, env);
    case Refused(_) => CaptureLeaves(w, i, env);
    case Sending(_, _) => SendLeaves(w, i, env);
    case Streaming(_, _) => SendLeaves(w, i, env);
    case Discarding => SendLeaves(w, i, env);
    case Closing => SendLeaves(w, i, env);
    case _ => FinishLeaves(w, i, env);
  }

  lemma AloneOn(a: World, b: World, c: World, i: nat)
    requires OthersAlone(a, b, i) && OthersAlone(b, c, i)
    ensures OthersAlone(a, c, i)
  {
  }

  /** Every state along the way has the invariant, and nothing but the write's own row has changed. */
  lemma {:induction false} FollowsKeeps(before: seq<World>, h: seq<World>, i: nat, env: Env, k: nat)
    requires Follows(before, h, i, env) && Inv(before[|before| - 1]) && |before| - 1 <= k < |h|
    ensures Inv(h[k]) && OthersAlone(before[|before| - 1], h[k], i)
    decreases k
  {
    if k == |before| - 1 {
      assert h[k] == h[..|before|][k];
    } else {
      FollowsKeeps(before, h, i, env, k - 1);
      assert StepAt(h, k - 1, i, env);
      TickKeepsInv(h[k - 1], i, env);
      TickLeavesOthers(h[k - 1], i, env);
      AloneOn(before[|before| - 1], h[k - 1], h[k], i);
    }
  }

  // ── What a write answers ────────────────────────────────────────────────

  /** An incremental is written as one: its set has a chain, and listing the snapshots works. */
  ghost predicate StaysIncremental(w: World, i: nat, env: Env)
    requires i < |w.runs|
  {
    var r := w.runs[i];
    r.kind.Incremental? && AnchorListingFails !in env.faults && Chain(w.runs, |w.runs|, r.ds, r.set_) != []
  }

  /** The snapshot that a refused write left in the row is found again. */
  predicate Reuses(w: World, i: nat, env: Env)
    requires i < |w.runs|
  {
    w.runs[i].snap.Some? && w.runs[i].snap.value in w.pool && LookupFails !in env.faults
  }

  /** The write gets as far as having a snapshot. */
  predicate Captures(w: World, i: nat, env: Env)
    requires i < |w.runs|
  {
    MountFails !in env.faults && (Reuses(w, i, env) || SnapshotRaises !in env.faults)
  }

  /** There is nothing new to write. */
  ghost predicate NothingNew(w: World, i: nat, env: Env)
    requires i < |w.runs|
  {
    StaysIncremental(w, i, env) && !env.changed
  }

  predicate NoRoomFor(env: Env) {
    env.free.None? || env.free.value < env.needed
  }

  /** The write gets as far as sending. */
  ghost predicate GetsToSend(w: World, i: nat, env: Env)
    requires i < |w.runs|
  {
    Captures(w, i, env) && !NothingNew(w, i, env) && PrepareRaises !in env.faults && !NoRoomFor(env)
  }

  /** The stream gets onto the disk whole. */
  ghost predicate Sends(w: World, i: nat, env: Env)
    requires i < |w.runs|
  {
    GetsToSend(w, i, env) && SendRaises !in env.faults && env.sendOk
  }

  /** What the stream builds on: the last snapshot of the chain, or nothing. */
  ghost function BaseFor(w: World, i: nat, env: Env): Option<Snap>
    requires i < |w.runs|
  {
    var c := Chain(w.runs, |w.runs|, w.runs[i].ds, w.runs[i].set_);
    if StaysIncremental(w, i, env) then c[|c| - 1].snap else None
  }

  /** The full its chain began with, or nothing. */
  ghost function FullFor(w: World, i: nat, env: Env): Option<Snap>
    requires i < |w.runs|
  {
    var c := Chain(w.runs, |w.runs|, w.runs[i].ds, w.runs[i].set_);
    if StaysIncremental(w, i, env) then c[0].snap else None
  }

  /** What the outside world calls for is what is answered. */
  ghost predicate Answers(w: World, i: nat, env: Env, result: Result)
    requires i < |w.runs|
  {
    && (result.Unchanged? <==> Captures(w, i, env) && NothingNew(w, i, env) && SkipRaises !in env.faults)
    && (result.NeedsSpace? <==>
          Captures(w, i, env) && !NothingNew(w, i, env) && PrepareRaises !in env.faults && NoRoomFor(env))
    && (result.NeedsSpace? ==>
          result == NeedsSpace(env.needed, if env.free.Some? then env.free.value else 0))
    && (result.Wrote? ==> Sends(w, i, env) && PruneListingRaises !in env.faults)
    && (Sends(w, i, env) && PruneListingRaises !in env.faults && (env.balks == {} || PruneListingFails in env.faults) ==>
          result.Wrote?)
  }

  /** The write has its snapshot, in the pool and in its row, and has settled on its kind. */
  ghost predicate CapturedFrom(w: World, w': World, i: nat, env: Env, base: Option<Snap>) {
    && i < |w.runs| && i < |w'.runs|
    && (var r, r' := w.runs[i], w'.runs[i];
        && (r'.kind.Incremental? <==> StaysIncremental(w, i, env)) && (base.Some? <==> r'.kind.Incremental?)
        && (r'.promoted <==> r.promoted || (r.kind.Incremental? && r'.kind.Full?))
        && r'.snap == (if Reuses(w, i, env) then r.snap else Some(Snap(r.ds, w.clock)))
        && w'.pool == w.pool + {r'.snap.value} && r'.disk == r.disk)
  }

  /** The row has the kind settled on, and a snapshot that is in the pool. */
  ghost predicate Caught(w: World, w': World, i: nat, env: Env, kind: Kind) {
    && i < |w.runs| && i < |w'.runs|
    && (var r, r' := w.runs[i], w'.runs[i];
        && r'.kind == kind && (r'.promoted <==> r.promoted || (r.kind.Incremental? && kind.Full?))
        && r'.snap == (if Reuses(w, i, env) then r.snap else Some(Snap(r.ds, w.clock)))
        && w'.pool == w.pool + {r'.snap.value} && r'.disk == r.disk)
  }

  predicate SameButStatus(r: Run, r': Run) {
    r' == r.(status := r'.status)
  }

  /** The row is of the same kind, on the same disk, with the same snapshot. */
  predicate SameChoice(r: Run, r': Run) {
    && r'.ds == r.ds && r'.set_ == r.set_ && r'.kind == r.kind && r'.promoted == r.promoted && r'.snap == r.snap
    && r'.disk == r.disk
  }

  /** The snapshot is out of the pool, unless destroying it did nothing; no other is. */
  predicate Gone(pool: set<Snap>, pool': set<Snap>, snap: Option<Snap>, env: Env) {
    snap.Some? && pool' == if snap.value in env.stuck then pool else pool - {snap.value}
  }

  /** Nothing but some of these has left the pool, and nothing has come. */
  ghost predicate LosesOnly(pool: set<Snap>, pool': set<Snap>, condemned: set<Snap>) {
    pool' <= pool && pool - pool' <= condemned
  }

  /** The run's stream file is this now, or is not there; nothing else on any disk has changed. */
  ghost predicate Streamed(volumes: map<DiskId, Volume>, volumes': map<DiskId, Volume>, r: Run, st: Option<Stream>) {
    && r.disk in volumes && r.snap.Some?
    && (var v, f := volumes[r.disk], StreamFile(r.ds, r.kind, r.snap.value.ts);
        volumes' == volumes[r.disk := v.(streams := if st.Some? then v.streams[f := st.value] else v.streams - {f})])
  }

  ghost predicate TornAt(volumes: map<DiskId, Volume>, r: Run) {
    && r.disk in volumes && r.snap.Some? && StreamFile(r.ds, r.kind, r.snap.value.ts) in volumes[r.disk].streams
    && volumes[r.disk].streams[StreamFile(r.ds, r.kind, r.snap.value.ts)] == Partial
  }

  /** The snapshot in the row is gone, unless destroying it did nothing. */
  ghost predicate Discarded(w: World, w': World, i: nat, env: Env) {
    && i < |w'.runs| && w'.runs[i].snap.Some?
    && (var s := w'.runs[i].snap.value; w'.pool == if s in env.stuck then w.pool + {s} else w.pool - {s})
  }

  /** The snapshot in the row is there. */
  ghost predicate Retained(w: World, w': World, i: nat) {
    i < |w'.runs| && w'.runs[i].snap.Some? && w'.pool == w.pool + {w'.runs[i].snap.value}
  }

  /** The run's snapshot is there, and all that went is of its dataset, named by no success, and older than two others. */
  ghost predicate Pruned(w: World, w': World, i: nat) {
    && i < |w'.runs| && w'.runs[i].snap.Some?
    && (var s := w'.runs[i].snap.value;
        && s in w'.pool && w'.pool <= w.pool + {s}
        && forall t :: t in w.pool && t !in w'.pool ==> Disposable(w'.runs, w.pool + {s}, s.ds, t))
  }

  ghost predicate Disposable(runs: seq<Run>, pool: set<Snap>, ds: Dataset, t: Snap) {
    && t.ds == ds
    && (forall k :: 0 <= k < |runs| && runs[k].status == Success ==>
          runs[k].snap != Some(t) && runs[k].base != Some(t) && runs[k].fullAnchor != Some(t))
    && exists a, b :: a in pool && b in pool && a.ds == ds && b.ds == ds && t.ts < a.ts < b.ts
  }

  /** What each end leaves in the pool. */
  ghost predicate LeavesPool(w: World, w': World, i: nat, env: Env, result: Result)
    requires i < |w.runs|
  {
    match result
    case Wrote => Pruned(w, w', i)
    case Unchanged => Discarded(w, w', i, env)
    case NeedsSpace(_, _) => Retained(w, w', i)
    case GaveUpOn =>
      if !Captures(w, i, env) then w'.pool == w.pool
      else if !GetsToSend(w, i, env) || SendRaises in env.faults then Retained(w, w', i)
      else if !env.sendOk then Discarded(w, w', i, env)
      else i < |w'.runs| && w'.runs[i].snap.Some? && w'.pool <= w.pool + {w'.runs[i].snap.value}
  }

  /** What each end leaves on the disks: the whole stream if it was sent, and no more than a torn one otherwise. */
  ghost predicate LeavesMedia(w: World, w': World, i: nat, env: Env, result: Result)
    requires i < |w.runs|
  {
    && i < |w'.runs|
    && if !GetsToSend(w, i, env) then w'.volumes == w.volumes
       else if !Sends(w, i, env)
       then Streamed(w.volumes, w'.volumes, w'.runs[i], if SendRaises in env.faults then Some(Partial) else None)
       else SentWhole(w, w', i, BaseFor(w, i, env), result)
  }

  /** The stream is whole, from its base to its snapshot; success may have changed index and sidecars of its disk too. */
  ghost predicate SentWhole(w: World, w': World, i: nat, base: Option<Snap>, result: Result)
    requires i < |w'.runs|
  {
    var r := w'.runs[i];
    r.snap.Some? && exists volumes ::
      && Streamed(w.volumes, volumes, r, Some(Complete(base, r.snap.value)))
      && if result.Wrote? then Indexes(volumes, w'.volumes, r.disk) else w'.volumes == volumes
  }

  /**
   * The entry says of the run what its row says: where its stream is, what it was cut from and builds on,
   * the full its chain began with, when it was completed, and the medium and set it is on.
   */
  predicate Describes(e: Entry, r: Run) {
    && r.snap.Some? && e.file == StreamFile(r.ds, r.kind, r.snap.value.ts) && e.kind == r.kind
    && e.snap == r.snap.value && e.base == r.base && e.fullAnchor == r.fullAnchor
    && e.at == r.at && e.media == r.disk && e.set_ == r.set_
  }

  /** The index lists an entry that describes the run, and, if so, the sidecar beside its stream does too. */
  ghost predicate Described(v: Volume, r: Run, beside: bool) {
    && v.index.Some? && (exists e :: e in Rows(v.index.value, r.ds) && Describes(e, r))
    && (beside ==>
          && r.snap.Some? && StreamFile(r.ds, r.kind, r.snap.value.ts) in v.sidecars
          && Describes(v.sidecars[StreamFile(r.ds, r.kind, r.snap.value.ts)], r))
  }

  /** The index lists all that it listed and that lay beside the streams, the run's entry, and nothing else. */
  ghost predicate ListsAll(v: Volume, v': Volume, r: Run) {
    && v'.index.Some?
    && (forall x: Entry :: x in Rows(Base(v), x.file.ds) || x in v.sidecars.Values ==> x in Rows(v'.index.value, x.file.ds))
    && forall ds, x :: x in Rows(v'.index.value, ds) ==>
         x.file.ds == ds && (x in Rows(Base(v), ds) || x in v.sidecars.Values || Describes(x, r))
  }

  lemma SavingRow(w: World, i: nat)
    requires Inv(w) && i in w.flight && w.flight[i].Saving? && i < |w.runs|
    ensures w.runs[i].disk in w.volumes && SoundVolume(w.volumes[w.runs[i].disk], Entries(w.runs))
    ensures w.runs[i].snap.Some? && EntryOf(w.runs[i]) in Entries(w.runs)
  {
    assert PcOk(w, i, w.flight[i]) && RowOk(w, w.runs[i]);
    MediumSound(w, w.runs[i].disk);
    EntryKnown(w, i);
  }

  lemma WithIndexIs(v: Volume, r: Run, manifest: Index)
    requires r.snap.Some? && manifest == Scan(v, Walk(v.sidecars))
    ensures WithIndex(v, EntryOf(r)) == v.(index := Some(Upsert(manifest, r.ds, EntryOf(r))))
  {
  }

  lemma IndexDescribes(v: Volume, r: Run, all: set<Entry>, order: seq<Entry>)
    requires SoundVolume(v, all) && Lists(order, v.sidecars) && r.snap.Some? && EntryOf(r) in all
    ensures var v' := v.(index := Some(Upsert(Scan(v, order), r.ds, EntryOf(r))));
            ListsAll(v, v', r) && Described(v', r, false)
  {
    hide Scan, ListsAll;
    IndexListsAll(v, r, all, order);
    EntryDescribes(r);
    IndexRow(v, r, EntryOf(r), all, order, r.ds);
  }

  lemma ListsStill(v: Volume, v': Volume, v'': Volume, r: Run)
    requires ListsAll(v, v', r) && v''.index == v'.index
    ensures ListsAll(v, v'', r)
  {
  }

  lemma IndexRow(v: Volume, r: Run, e: Entry, all: set<Entry>, order: seq<Entry>, ds: Dataset)
    requires SoundVolume(v, all) && Lists(order, v.sidecars) && e in all && e.file.ds == r.ds
    ensures forall x :: x in Rows(Upsert(Scan(v, order), r.ds, e), ds) <==> Says(v, ds, x) || (ds == r.ds && x == e)
  {
    hide Scan, UpsertRow;
    ScanIsUnion(v, order, all, ds);
    UpsertRowElements(Rows(Scan(v, order), r.ds), e);
    forall x | Says(v, ds, x) ensures Compatible(x, e) {
    }
  }

  lemma IndexListsAll(v: Volume, r: Run, all: set<Entry>, order: seq<Entry>)
    requires SoundVolume(v, all) && Lists(order, v.sidecars) && r.snap.Some? && EntryOf(r) in all
    ensures ListsAll(v, v.(index := Some(Upsert(Scan(v, order), r.ds, EntryOf(r)))), r)
  {
    hide Upsert, Scan, EntryOf, SoundVolume;
    var m := Upsert(Scan(v, order), r.ds, EntryOf(r));
    EntryDescribes(r);
    forall x: Entry | x in Rows(Base(v), x.file.ds) || x in v.sidecars.Values ensures x in Rows(m, x.file.ds) {
      IndexRow(v, r, EntryOf(r), all, order, x.file.ds);
    }
    forall ds, x | x in Rows(m, ds)
      ensures x.file.ds == ds && (x in Rows(Base(v), ds) || x in v.sidecars.Values || Describes(x, r))
    {
      IndexRow(v, r, EntryOf(r), all, order, ds);
      RowsAreOwn(v, all, ds);
    }
  }

  lemma RowsAreOwn(v: Volume, all: set<Entry>, ds: Dataset)
    requires SoundVolume(v, all)
    ensures forall x :: x in Rows(Base(v), ds) ==> x.file.ds == ds
  {
  }

  lemma EntryDescribes(r: Run)
    requires r.snap.Some?
    ensures Describes(EntryOf(r), r) && EntryOf(r).file == StreamFile(r.ds, r.kind, r.snap.value.ts)
  {
  }

  /** Nothing but the index and the sidecars of the disk has changed. */
  ghost predicate Indexes(volumes: map<DiskId, Volume>, volumes': map<DiskId, Volume>, disk: DiskId) {
    && disk in volumes && disk in volumes' && volumes' == volumes[disk := volumes'[disk]]
    && volumes'[disk].streams == volumes[disk].streams
  }

  // ── What pruning looks at ───────────────────────────────────────────────

  ghost predicate Ascending(names: seq<Snap>) {
    forall a, b :: 0 <= a < b < |names| ==> names[a].ts < names[b].ts
  }

  /** A sorted listing of a dataset's snapshots. */
  ghost predicate SortedListing(names: seq<Snap>, pool: set<Snap>, ds: Dataset) {
    Ascending(names) && forall s :: s in names <==> s in pool && s.ds == ds
  }

  /** The names listed so far, and the rest of the dataset's snapshots, all of them later. */
  ghost predicate Listed(names: seq<Snap>, rest: set<Snap>, pool: set<Snap>, ds: Dataset) {
    && Ascending(names) && (forall a, b :: a in names && b in rest ==> a.ts < b.ts)
    && forall s :: s in names || s in rest <==> s in pool && s.ds == ds
  }

  lemma ListedNext(names: seq<Snap>, rest: set<Snap>, pool: set<Snap>, ds: Dataset, s: Snap)
    requires Listed(names, rest, pool, ds) && s in rest && forall t :: t in rest ==> s.ts <= t.ts
    ensures Listed(names + [s], rest - {s}, pool, ds)
  {
    forall k | 0 <= k < |names| ensures names[k].ts < s.ts {
      assert names[k] in names;
    }
    forall t | t in rest - {s} ensures s.ts < t.ts {
      assert t in pool && t.ds == ds && s in pool && s.ds == ds;
    }
    forall t | true ensures t in names + [s] || t in rest - {s} <==> t in names || t in rest {
    }
  }

  lemma AllListed(names: seq<Snap>, pool: set<Snap>, ds: Dataset)
    requires Listed(names, {}, pool, ds)
    ensures SortedListing(names, pool, ds)
  {
  }

  /** The newest two are the last two of the listing. */
  lemma NewestTwoAreLast(names: seq<Snap>, pool: set<Snap>, ds: Dataset, k: nat)
    requires SortedListing(names, pool, ds) && k < |names|
    ensures NewestTwo(pool, names[k]) <==> k >= |names| - 2
  {
    var s := names[k];
    assert s in names;
    if k < |names| - 2 {
      var a, b := names[k + 1], names[k + 2];
      assert a in names && b in names;
      assert s.ts < a.ts < b.ts;
    } else {
      forall a, b | a in pool && b in pool && a.ds == s.ds && b.ds == s.ds && s.ts < a.ts ensures !(a.ts < b.ts) {
        assert a in names && b in names;
        var x :| 0 <= x < |names| && names[x] == a;
        var y :| 0 <= y < |names| && names[y] == b;
        assert x > k;
      }
    }
  }

  /** Only rows of a dataset name its snapshots. */
  lemma NamersAreOwn(w: World, k: nat, s: Snap)
    requires Inv(w) && k < |w.runs| && NamedBy(w.runs[k], s)
    ensures w.runs[k].ds == s.ds
  {
    var r := w.runs[k];
    assert RowOk(w, r) && Link(w.runs, k);
    if r.base == Some(s) {
      var j := Last(w.runs, k, r.ds, r.set_);
      assert RowOk(w, w.runs[j.value]);
    } else if r.fullAnchor == Some(s) {
      var j := FirstFull(w.runs, k, r.ds, r.set_);
      assert RowOk(w, w.runs[j.value]);
    }
  }

  lemma {:induction false} FirstFullStays(runs: seq<Run>, n: nat, m: nat, ds: Dataset, set_: SetId)
    requires n <= m <= |runs| && FirstFull(runs, n, ds, set_).Some?
    ensures FirstFull(runs, m, ds, set_) == FirstFull(runs, n, ds, set_)
    decreases m
  {
    if n < m {
      FirstFullStays(runs, n, m - 1, ds, set_);
    }
  }

  // ── The manager ─────────────────────────────────────────────────────────

  class BackupManager {
    var runs: seq<Run>
    var pool: set<Snap>
    var volumes: map<DiskId, Volume>
    var owner: map<DiskId, SetId>
    var clock: nat
    ghost var flight: map<nat, Pc>
    ghost var history: seq<World>

    ghost function Now(): World
      reads this
    {
      World(runs, pool, volumes, owner, clock, flight)
    }

    ghost predicate Noted()
      reads this
    {
      history != [] && history[|history| - 1] == Now()
    }

    /** Write i stands at `pc`, and everything up to here is noted. */
    ghost predicate At(i: nat, pc: Pc)
      reads this
    {
      Noted() && CanTick(Now(), i) && flight[i] == pc
    }

    /** Write i has ended with its row in the given state, and everything up to here is noted. */
    ghost predicate Over(i: nat, status: Status)
      reads this
    {
      Noted() && i !in flight && i < |runs| && runs[i].status == status
    }

    /** A fresh installation. */
    constructor ()
      ensures Now() == FRESH && history == [FRESH] && Noted() && Inv(Now())
    {
      runs, pool, volumes, owner, clock := [], {}, map[], map[], 0;
      flight, history := map[], [FRESH];
      new;
      ReachableInv([]);
    }

    /** A disk is declared and filed under a set. */
    method DeclareDisk(disk: DiskId, set_: SetId)
      requires Noted() && Inv(Now()) && disk !in volumes && disk !in owner
      modifies this`volumes, this`owner, this`history
      ensures Now() == Apply(old(Now()), AddDisk(disk, set_)) && Inv(Now())
      ensures history == old(history) + [Now()]
      ensures volumes == old(volumes)[disk := Volume(map[], None, map[])] && owner == old(owner)[disk := set_]
    {
      ApplyKeepsInv(Now(), AddDisk(disk, set_));
      volumes := volumes[disk := Volume(map[], None, map[])];
      owner := owner[disk := set_];
      history := history + [Now()];
    }

    /** `_new_run`: a row for a write of the dataset to a disk of the set, ready to start. */
    method NewRun(ds: Dataset, set_: SetId, disk: DiskId, kind: Kind) returns (i: nat)
      requires Noted() && Inv(Now()) && Enabled(Now(), Begin(ds, set_, disk, kind))
      modifies this`runs, this`flight, this`history
      ensures Now() == Apply(old(Now()), Begin(ds, set_, disk, kind)) && Inv(Now())
      ensures i == |old(runs)| && At(i, Start) && history == old(history) + [Now()]
      ensures runs == old(runs) + [Run(ds, set_, disk, kind, false, None, None, None, None, Running, 0)]
      ensures pool == old(pool) && volumes == old(volumes) && owner == old(owner)
    {
      ApplyKeepsInv(Now(), Begin(ds, set_, disk, kind));
      i := |runs|;
      runs := runs + [FreshRun(ds, set_, disk, kind)];
      flight := flight[i := Start];
      history := history + [Now()];
    }

    /** A refused write starts again on another disk of its set, with the same row and snapshot. */
    method TryNextDisk(i: nat, disk: DiskId)
      requires Noted() && Inv(Now()) && Enabled(Now(), Retry(i, disk))
      modifies this`runs, this`flight, this`history
      ensures Now() == Apply(old(Now()), Retry(i, disk)) && Inv(Now())
      ensures At(i, Start) && history == old(history) + [Now()]
      ensures runs == old(runs)[i := old(runs)[i].(disk := disk, status := Running)]
      ensures pool == old(pool) && volumes == old(volumes) && owner == old(owner)
    {
      ApplyKeepsInv(Now(), Retry(i, disk));
      runs := runs[i := runs[i].(disk := disk, status := Running)];
      flight := flight[i := Start];
      history := history + [Now()];
    }

    /** A refused write for which no other disk is found ends as it stands. */
    ghost method LetGo(i: nat)
      requires Noted() && Inv(Now()) && Enabled(Now(), Abandon(i))
      modifies this`flight, this`history
      ensures Now() == Apply(old(Now()), Abandon(i)) && Inv(Now()) && Noted() && history == old(history) + [Now()]
    {
      ApplyKeepsInv(Now(), Abandon(i));
      flight := flight - {i};
      history := history + [Now()];
    }

    /** Everything a crash could leave behind at this point is in the history. */
    ghost method Note(i: nat, env: Env)
      requires history != [] && CanTick(history[|history| - 1], i)
      requires Now() == Tick(history[|history| - 1], i, env)
      modifies this`history
      ensures Noted() && Follows(old(history), history, i, env)
    {
      FollowsOne(history, Now(), i, env);
      history := history + [Now()];
    }

    method NewestSuccess(ds: Dataset, set_: SetId) returns (j: Option<nat>)
      ensures j == Last(runs, |runs|, ds, set_)
    {
      var n := |runs|;
      while n > 0
        invariant 0 <= n <= |runs|
        invariant Last(runs, |runs|, ds, set_) == Last(runs, n, ds, set_)
      {
        if Good(runs[n - 1], ds, set_) { return Some(n - 1); }
        n := n - 1;
      }
      j := None;
    }

    method ChainFullAnchor(ds: Dataset, set_: SetId) returns (full: Option<Snap>)
      ensures full == FullAnchor(runs, |runs|, ds, set_)
    {
      var n := 0;
      while n < |runs|
        invariant 0 <= n <= |runs|
        invariant FirstFull(runs, n, ds, set_) == None
      {
        if Good(runs[n], ds, set_) && runs[n].kind.Full? {
          FirstFullStays(runs, n + 1, |runs|, ds, set_);
          return runs[n].snap;
        }
        n := n + 1;
      }
      full := None;
    }

    /** The `except` block: commit the row as failed and end the write. */
    method Abort(i: nat)
      requires i < |runs|
      modifies this`runs, this`flight
      ensures Now() == Fail(old(Now()), i, old(runs)[i])
    {
      runs := runs[i := runs[i].(status := Failed)];
      flight := flight - {i};
    }

    method DestroySnapshot(s: Snap, env: Env)
      modifies this`pool
      ensures Now() == Destroy(old(Now()), s, env.stuck)
    {
      if s !in env.stuck {
        pool := pool - {s};
      }
    }

    /** Mount the disk and resolve the anchor; not ok when the mount failed. */
    method ResolveAnchor(i: nat, env: Env)
      returns (ok: bool, kind: Kind, base: Option<Snap>, full: Option<Snap>)
      requires At(i, Start)
      modifies this
      ensures Follows(old(history), history, i, env)
      ensures if ok then At(i, Resolved(kind, base, full)) else Over(i, Failed)
      ensures ok <==> MountFails !in env.faults
      ensures pool == old(pool) && clock == old(clock) && volumes == old(volumes) && (ok ==> runs == old(runs))
      ensures var r := old(runs)[i];
              var anchor := SetAnchor(old(Now()), r.ds, r.set_, AnchorListingFails !in env.faults);
              ok ==> (kind.Incremental? <==> r.kind.Incremental? && anchor.Some?)
                     && base == (if kind.Incremental? then anchor else None)
                     && full == (if kind.Incremental? then FullAnchor(old(runs), |old(runs)|, r.ds, r.set_) else None)
    {
      var r := runs[i];
      kind, base, full := r.kind, None, None;
      if MountFails in env.faults {
        Abort(i);
        Note(i, env);
        ok := false;
        return;
      }
      if kind.Incremental? {
        var j := NewestSuccess(r.ds, r.set_);
        if j.Some? && AnchorListingFails !in env.faults && runs[j.value].snap.value in pool {
          base := runs[j.value].snap;
        }
        if base.None? {
          kind := Full;
        } else {
          full := ChainFullAnchor(r.ds, r.set_);
        }
      }
      flight := flight[i := Resolved(kind, base, full)];
      Note(i, env);
      ok := true;
    }

    /** Reuse the snapshot of a refused write, or take a new one, and put it in the row. */
    method CaptureDataset(i: nat, env: Env, kind: Kind, base: Option<Snap>, full: Option<Snap>) returns (ok: bool)
      requires At(i, Resolved(kind, base, full))
      modifies this
      ensures Follows(old(history), history, i, env)
      ensures if ok then At(i, Captured(base, full)) else Over(i, Failed)
      ensures volumes == old(volumes) && (ok <==> Reuses(old(Now()), i, env) || SnapshotRaises !in env.faults)
      ensures if ok then Caught(old(Now()), Now(), i, env, kind) else pool == old(pool)
    {
      hide Tick, Follows;
      ResolvedTick(Now(), i, env, kind, base, full);
      var r := Promote(runs[i], kind);
      if r.snap.Some? && r.snap.value in pool && LookupFails !in env.faults {
        runs := runs[i := r];
        flight := flight[i := Captured(base, full)];
        Note(i, env);
        return true;
      }
      ok := TakeSnapshot(i, env, kind, base, full);
      if ok {
        ghost var taken := history;
        NameSnapshot(i, env, kind, base, full, Snap(r.ds, clock - 1));
        FollowsOn(old(history), taken, history, i, env);
      }
    }

    /** Put the new snapshot in the row. */
    method NameSnapshot(i: nat, env: Env, kind: Kind, base: Option<Snap>, full: Option<Snap>, s: Snap)
      requires At(i, Snapped(kind, base, full, s))
      modifies this
      ensures Follows(old(history), history, i, env) && At(i, Captured(base, full))
      ensures pool == old(pool) && volumes == old(volumes) && runs == old(runs)[i := Promote(old(runs)[i], kind).(snap := Some(s))]
    {
      hide Tick, Follows;
      SnappedTick(Now(), i, env, kind, base, full, s);
      runs := runs[i := Promote(runs[i], kind).(snap := Some(s))];
      flight := flight[i := Captured(base, full)];
      Note(i, env);
    }

    method TakeSnapshot(i: nat, env: Env, kind: Kind, base: Option<Snap>, full: Option<Snap>) returns (ok: bool)
      requires At(i, Resolved(kind, base, full))
      requires !(runs[i].snap.Some? && runs[i].snap.value in pool && LookupFails !in env.faults)
      modifies this
      ensures Follows(old(history), history, i, env)
      ensures ok ==> clock == old(clock) + 1 && runs == old(runs)
                     && At(i, Snapped(kind, base, full, Snap(old(runs)[i].ds, old(clock))))
      ensures !ok ==> Over(i, Failed)
      ensures volumes == old(volumes) && (ok <==> SnapshotRaises !in env.faults)
      ensures pool == if ok then old(pool) + {Snap(old(runs)[i].ds, old(clock))} else old(pool)
    {
      hide Tick;
      ResolvedTick(Now(), i, env, kind, base, full);
      var s := Snap(runs[i].ds, clock);
      clock := clock + 1;
      if SnapshotRaises in env.faults {
        runs := runs[i := Promote(runs[i], kind)];
        Abort(i);
        Note(i, env);
        return false;
      }
      pool := pool + {s};
      flight := flight[i := Snapped(kind, base, full, s)];
      Note(i, env);
      ok := true;
    }

    method DropUnchanged(i: nat, env: Env) returns (result: Option<Result>)
      requires At(i, Skipping) && runs[i].status == Skipped
      modifies this
      ensures Follows(old(history), history, i, env)
      ensures (result == Some(Unchanged) && Over(i, Skipped)) || (result == Some(GaveUpOn) && Over(i, Failed))
      ensures result == Some(Unchanged) <==> SkipRaises !in env.faults
      ensures |runs| == |old(runs)| && SameButStatus(old(runs)[i], runs[i]) && volumes == old(volumes)
      ensures if result == Some(Unchanged) then Gone(old(pool), pool, old(runs)[i].snap, env) else pool == old(pool)
    {
      if SkipRaises in env.faults {
        Abort(i);
        result := Some(GaveUpOn);
      } else {
        DestroySnapshot(runs[i].snap.value, env);
        flight := flight - {i};
        result := Some(Unchanged);
      }
      Note(i, env);
    }

    /** Skip an unchanged dataset, refuse a full disk, or get ready to send. */
    method CheckWorthAndRoom(i: nat, env: Env, base: Option<Snap>, full: Option<Snap>) returns (result: Option<Result>)
      requires At(i, Captured(base, full))
      modifies this
      ensures Follows(old(history), history, i, env)
      ensures result.None? ==> At(i, Sending(base, full))
      ensures result.Some? ==>
        match result.value
        case Wrote => false
        case Unchanged => Over(i, Skipped)
        case NeedsSpace(needed, free) => At(i, Refused(needed)) && runs[i].status == Failed
        case GaveUpOn => Over(i, Failed)
      ensures |runs| == |old(runs)| && SameChoice(old(runs)[i], runs[i]) && volumes == old(volumes)
      ensures result == Some(Unchanged) ==> runs[i].base == base && runs[i].fullAnchor == full
      ensures var idle := old(runs)[i].kind.Incremental? && base.Some? && !env.changed;
              && (result == Some(Unchanged) <==> idle && SkipRaises !in env.faults)
              && (result.Some? && result.value.NeedsSpace? <==> !idle && PrepareRaises !in env.faults && NoRoomFor(env))
              && (result.None? <==> !idle && PrepareRaises !in env.faults && !NoRoomFor(env))
      ensures result.Some? && result.value.NeedsSpace? ==>
                result == Some(NeedsSpace(env.needed, if env.free.Some? then env.free.value else 0))
      ensures if result == Some(Unchanged) then Gone(old(pool), pool, old(runs)[i].snap, env) else pool == old(pool)
    {
      if runs[i].kind.Incremental? && base.Some? && !env.changed {
        result := SkipUnchanged(i, env, base, full);
      } else {
        result := CheckRoom(i, env, base, full);
      }
    }

    method SkipUnchanged(i: nat, env: Env, base: Option<Snap>, full: Option<Snap>) returns (result: Option<Result>)
      requires At(i, Captured(base, full)) && runs[i].kind.Incremental? && base.Some? && !env.changed
      modifies this
      ensures Follows(old(history), history, i, env)
      ensures if SkipRaises in env.faults then result == Some(GaveUpOn) && Over(i, Failed)
              else result == Some(Unchanged) && Over(i, Skipped)
      ensures |runs| == |old(runs)| && SameChoice(old(runs)[i], runs[i]) && volumes == old(volumes)
      ensures runs[i].base == base && runs[i].fullAnchor == full
      ensures if result == Some(Unchanged) then Gone(old(pool), pool, old(runs)[i].snap, env) else pool == old(pool)
    {
      hide Tick, Follows;
      CapturedTick(Now(), i, env, base, full);
      runs := runs[i := runs[i].(status := Skipped, base := base, fullAnchor := full)];
      flight := flight[i := Skipping];
      Note(i, env);
      ghost var skipped := history;
      result := DropUnchanged(i, env);
      FollowsOn(old(history), skipped, history, i, env);
    }

    method CheckRoom(i: nat, env: Env, base: Option<Snap>, full: Option<Snap>) returns (result: Option<Result>)
      requires At(i, Captured(base, full)) && !(runs[i].kind.Incremental? && base.Some? && !env.changed)
      modifies this
      ensures Follows(old(history), history, i, env) && pool == old(pool)
      ensures if PrepareRaises in env.faults then result == Some(GaveUpOn) && Over(i, Failed)
              else if NoRoomFor(env)
              then result == Some(NeedsSpace(env.needed, if env.free.Some? then env.free.value else 0))
                   && At(i, Refused(env.needed)) && runs[i].status == Failed
              else result == None && At(i, Sending(base, full))
      ensures |runs| == |old(runs)| && SameChoice(old(runs)[i], runs[i]) && volumes == old(volumes)
    {
      hide Tick, Follows;
      CapturedTick(Now(), i, env, base, full);
      if PrepareRaises in env.faults {
        Abort(i);
        Note(i, env);
        return Some(GaveUpOn);
      }
      if !(env.free.Some? && env.free.value >= env.needed) {
        runs := runs[i := runs[i].(status := Failed)];
        flight := flight[i := Refused(env.needed)];
        Note(i, env);
        return Some(NeedsSpace(env.needed, if env.free.Some? then env.free.value else 0));
      }
      runs := runs[i := runs[i].(stream := Some(FileOf(runs[i])))];
      flight := flight[i := Sending(base, full)];
      Note(i, env);
      result := None;
    }

    /** Send the stream to the disk; not ok when the pipeline failed, after cleaning up. */
    method SendStream(i: nat, env: Env, base: Option<Snap>, full: Option<Snap>) returns (ok: bool)
      requires At(i, Sending(base, full))
      modifies this
      ensures Follows(old(history), history, i, env)
      ensures if ok then At(i, Sent(base, full)) else Over(i, Failed)
      ensures ok <==> SendRaises !in env.faults && env.sendOk && old(runs)[i].snap.value in old(pool)
                      && (base.Some? ==> base.value in old(pool))
      ensures |runs| == |old(runs)| && SameChoice(old(runs)[i], runs[i])
      ensures if ok || SendRaises in env.faults then pool == old(pool)
              else Gone(old(pool), pool, old(runs)[i].snap, env)
      ensures Streamed(old(volumes), volumes, old(runs)[i],
                       if ok then Some(Complete(base, old(runs)[i].snap.value))
                       else if SendRaises in env.faults then Some(Partial) else None)
    {
      hide Tick, Follows;
      SendingTick(Now(), i, env, base, full);
      var r := runs[i];
      volumes := volumes[r.disk := volumes[r.disk].(streams := volumes[r.disk].streams[FileOf(r) := Partial])];
      flight := flight[i := Streaming(base, full)];
      Note(i, env);
      ghost var started := history;
      ghost var torn := volumes;
      ok := EndSend(i, env, base, full);
      StreamedTwice(old(volumes), torn, volumes, r,
                    if ok then Some(Complete(base, r.snap.value)) else if SendRaises in env.faults then Some(Partial) else None);
      FollowsOn(old(history), started, history, i, env);
    }

    method EndSend(i: nat, env: Env, base: Option<Snap>, full: Option<Snap>) returns (ok: bool)
      requires At(i, Streaming(base, full)) && TornAt(volumes, runs[i])
      modifies this
      ensures Follows(old(history), history, i, env)
      ensures if ok then At(i, Sent(base, full)) else Over(i, Failed)
      ensures ok <==> SendRaises !in env.faults && env.sendOk && old(runs)[i].snap.value in old(pool)
                      && (base.Some? ==> base.value in old(pool))
      ensures |runs| == |old(runs)| && SameChoice(old(runs)[i], runs[i])
      ensures if ok || SendRaises in env.faults then pool == old(pool)
              else Gone(old(pool), pool, old(runs)[i].snap, env)
      ensures Streamed(old(volumes), volumes, old(runs)[i],
                       if ok then Some(Complete(base, old(runs)[i].snap.value))
                       else if SendRaises in env.faults then Some(Partial) else None)
    {
      hide Tick, Follows;
      StreamingTick(Now(), i, env, base, full);
      var r := runs[i];
      if SendRaises in env.faults {
        StillTorn(volumes, r);
        Abort(i);
        Note(i, env);
        ok := false;
      } else if env.sendOk && r.snap.value in pool && (base.Some? ==> base.value in pool) {
        volumes := volumes[r.disk := volumes[r.disk].(streams := volumes[r.disk].streams[FileOf(r) := Complete(base, r.snap.value)])];
        flight := flight[i := Sent(base, full)];
        Note(i, env);
        ok := true;
      } else {
        CleanUp(i, env, base, full);
        ok := false;
      }
    }

    /** Unlink the torn stream, discard the snapshot, commit the failure. */
    method CleanUp(i: nat, env: Env, base: Option<Snap>, full: Option<Snap>)
      requires At(i, Streaming(base, full)) && SendRaises !in env.faults
      requires !(env.sendOk && runs[i].snap.value in pool && (base.Some? ==> base.value in pool))
      modifies this
      ensures Follows(old(history), history, i, env) && Over(i, Failed)
      ensures |runs| == |old(runs)| && SameChoice(old(runs)[i], runs[i])
      ensures Gone(old(pool), pool, old(runs)[i].snap, env) && Streamed(old(volumes), volumes, old(runs)[i], None)
    {
      var r := runs[i];
      volumes := volumes[r.disk := volumes[r.disk].(streams := volumes[r.disk].streams - {FileOf(r)})];
      flight := flight[i := Discarding];
      Note(i, env);
      ghost var unlinked := history;
      DiscardAndFail(i, env);
      FollowsOn(old(history), unlinked, history, i, env);
    }

    method DiscardAndFail(i: nat, env: Env)
      requires At(i, Discarding)
      modifies this
      ensures Follows(old(history), history, i, env) && Over(i, Failed)
      ensures |runs| == |old(runs)| && SameChoice(old(runs)[i], runs[i])
      ensures Gone(old(pool), pool, old(runs)[i].snap, env) && volumes == old(volumes)
    {
      DestroySnapshot(runs[i].snap.value, env);
      flight := flight[i := Closing];
      Note(i, env);
      ghost var dropped := history;
      Abort(i);
      Note(i, env);
      FollowsOn(old(history), dropped, history, i, env);
    }

    method CommitSuccess(i: nat, env: Env, base: Option<Snap>, full: Option<Snap>)
      requires At(i, Sent(base, full))
      modifies this
      ensures Follows(old(history), history, i, env) && At(i, Listing)
      ensures |runs| == |old(runs)| && SameChoice(old(runs)[i], runs[i]) && pool == old(pool) && volumes == old(volumes)
      ensures runs[i].base == base && runs[i].fullAnchor == full
    {
      runs := runs[i := runs[i].(base := base, fullAnchor := full, status := Success, at := clock)];
      clock := clock + 1;
      flight := flight[i := Listing];
      Note(i, env);
    }

    /** `_list_backup_snapshots`: the dataset's snapshots, sorted by name. */
    method ListBackupSnapshots(ds: Dataset) returns (names: seq<Snap>)
      ensures SortedListing(names, pool, ds)
    {
      names := [];
      var rest := set s | s in pool && s.ds == ds;
      assert Listed(names, rest, pool, ds);
      hide Listed, SortedListing;
      while rest != {}
        invariant Listed(names, rest, pool, ds)
        decreases |rest|
      {
        OldestExists(rest);
        var s :| s in rest && forall t :: t in rest ==> s.ts <= t.ts;
        ListedNext(names, rest, pool, ds, s);
        names := names + [s];
        rest := rest - {s};
      }
      AllListed(names, pool, ds);
    }

    /** The snapshots named by successful runs of the dataset. */
    method ReferencedBy(ds: Dataset) returns (named: set<Snap>)
      ensures forall s :: s in named <==> exists k :: 0 <= k < |runs| && runs[k].ds == ds && NamedBy(runs[k], s)
      ensures forall k, s :: 0 <= k < |runs| && runs[k].ds == ds && runs[k].status == Success ==>
                runs[k].snap == Some(s) || runs[k].base == Some(s) || runs[k].fullAnchor == Some(s) ==> s in named
    {
      named := {};
      var n := 0;
      while n < |runs|
        invariant 0 <= n <= |runs|
        invariant forall s :: s in named <==> exists k :: 0 <= k < n && runs[k].ds == ds && NamedBy(runs[k], s)
      {
        var r := runs[n];
        if r.ds == ds && r.status == Success {
          var more := (if r.snap.Some? then {r.snap.value} else {})
                      + (if r.base.Some? then {r.base.value} else {})
                      + (if r.fullAnchor.Some? then {r.fullAnchor.value} else {});
          assert forall s :: s in more <==> NamedBy(r, s);
          named := named + more;
        }
        n := n + 1;
      }
    }

    /** A listed snapshot is destroyed exactly when it is neither exempt nor referenced. */
    lemma PrunableListed(names: seq<Snap>, named: set<Snap>, keep: Snap, k: nat)
      requires Inv(Now()) && SortedListing(names, pool, keep.ds) && k < |names|
      requires forall s :: s in named <==> exists m :: 0 <= m < |runs| && runs[m].ds == keep.ds && NamedBy(runs[m], s)
      ensures names[k] in Prunable(runs, pool, keep)
              <==> names[k] != keep && k < |names| - 2 && names[k] !in named
    {
      var s := names[k];
      assert s in names;
      NewestTwoAreLast(names, pool, keep.ds, k);
      if Named(runs, s) {
        var m :| 0 <= m < |runs| && NamedBy(runs[m], s);
        NamersAreOwn(Now(), m, s);
      }
    }

    /** `_prune_old_anchors`; not ok when listing or destroying raised, which takes the success back. */
    method PruneOldAnchors(i: nat, env: Env) returns (ok: bool)
      requires At(i, Listing) && Inv(Now())
      modifies this
      ensures Follows(old(history), history, i, env)
      ensures if ok then At(i, Saving) else Over(i, Failed)
      ensures ok && Prunes(env) ==> i < |runs| && Tidy(runs, pool, runs[i].ds)
      ensures ok ==> PruneListingRaises !in env.faults
      ensures PruneListingRaises !in env.faults && (PruneListingFails in env.faults || env.balks == {}) ==> ok
      ensures |runs| == |old(runs)| && SameButStatus(old(runs)[i], runs[i]) && volumes == old(volumes)
      ensures LosesOnly(old(pool), pool, Prunable(old(runs), old(pool), old(runs)[i].snap.value))
    {
      hide Tick, Prunable, Tidy, Follows, Inv;
      ListingTick(Now(), i, env);
      ListingRow(Now(), i);
      if PruneListingRaises in env.faults {
        Abort(i);
        Note(i, env);
        return false;
      }
      if PruneListingFails in env.faults {
        flight := flight[i := Saving];
        Note(i, env);
        return true;
      }
      var keep := runs[i].snap.value;
      ok := PruneListed(i, env, keep);
      PruneLeavesNewestTwo(old(runs), old(pool), keep);
      if ok && env.stuck == {} { AllWentIf(old(pool), pool, Prunable(old(runs), old(pool), keep), env); }
    }

    /** What the listing shows is destroyed but for what is exempt or referenced. */
    method PruneListed(i: nat, env: Env, keep: Snap) returns (ok: bool)
      requires At(i, Listing) && Inv(Now()) && runs[i].snap == Some(keep)
      requires PruneListingRaises !in env.faults && PruneListingFails !in env.faults
      modifies this
      ensures Follows(old(history), history, i, env)
      ensures if ok then At(i, Saving) else Over(i, Failed)
      ensures ok ==> runs == old(runs) && pool == old(pool) - (Prunable(old(runs), old(pool), keep) - env.stuck)
      ensures env.balks == {} ==> ok
      ensures |runs| == |old(runs)| && SameButStatus(old(runs)[i], runs[i]) && volumes == old(volumes)
      ensures LosesOnly(old(pool), pool, Prunable(old(runs), old(pool), keep))
    {
      hide Tick, Inv, Follows, Prunable, LosesOnly;
      ListingTick(Now(), i, env);
      var names := ListBackupSnapshots(keep.ds);
      var named := ReferencedBy(keep.ds);
      ghost var condemned := Prunable(runs, pool, keep);
      forall k | 0 <= k < |names|
        ensures names[k] in condemned <==> names[k] != keep && k < |names| - 2 && names[k] !in named
      {
        PrunableListed(names, named, keep, k);
      }
      CondemnedListed(names, runs, pool, keep);
      flight := flight[i := Pruning(condemned)];
      Note(i, env);
      ghost var listed := history;
      ok := DestroyCondemned(i, env, names, named, keep, condemned);
      FollowsOn(old(history), listed, history, i, env);
    }

    method DestroyCondemned(
      i: nat, env: Env, names: seq<Snap>, named: set<Snap>, keep: Snap, ghost condemned: set<Snap>) returns (ok: bool)
      requires At(i, Pruning(condemned)) && Ascending(names) && forall s :: s in condemned ==> s in names
      requires forall k :: 0 <= k < |names| ==>
                 (names[k] in condemned <==> names[k] != keep && k < |names| - 2 && names[k] !in named)
      modifies this
      ensures Follows(old(history), history, i, env)
      ensures if ok then At(i, Saving) else Over(i, Failed)
      ensures ok ==> runs == old(runs) && pool == old(pool) - (condemned - env.stuck)
      ensures env.balks == {} ==> ok
      ensures |runs| == |old(runs)| && SameButStatus(old(runs)[i], runs[i]) && volumes == old(volumes) && LosesOnly(old(pool), pool, condemned)
    {
      assert Left(names, 0, condemned) == condemned;
      FollowsSelf(history, i, env);
      hide Follows, Left, LosesOnly;
      var k := 0;
      while k < |names|
        invariant 0 <= k <= |names|
        invariant At(i, Pruning(Left(names, k, condemned))) && Follows(old(history), history, i, env)
        invariant runs == old(runs) && LosesOnly(old(pool), pool, condemned) && volumes == old(volumes)
        invariant pool == old(pool) - ((condemned - Left(names, k, condemned)) - env.stuck)
      {
        ghost var before, left := history, pool;
        ok := DestroyNext(i, env, names, named, keep, k, condemned);
        FollowsOn(old(history), before, history, i, env);
        LosesMore(old(pool), left, pool, condemned);
        if !ok { return; }
        LeftShrinks(names, k, condemned);
        PoolLeft(old(pool), left, pool, condemned, Left(names, k, condemned), Left(names, k + 1, condemned), env.stuck);
        k := k + 1;
      }
      ghost var before := history;
      NoneLeft(names, condemned);
      AllDestroyed(i, env);
      FollowsOn(old(history), before, history, i, env);
      ok := true;
    }

    /** One name of the listing: destroyed unless it is kept, among the newest two, or named. */
    method DestroyNext(
      i: nat, env: Env, names: seq<Snap>, named: set<Snap>, keep: Snap, k: nat, ghost condemned: set<Snap>) returns (ok: bool)
      requires k < |names| && Ascending(names) && At(i, Pruning(Left(names, k, condemned)))
      requires names[k] in condemned <==> names[k] != keep && k < |names| - 2 && names[k] !in named
      modifies this
      ensures Follows(old(history), history, i, env)
      ensures if ok then At(i, Pruning(Left(names, k + 1, condemned))) else Over(i, Failed)
      ensures ok ==> runs == old(runs)
      ensures ok ==> pool == old(pool) - ((Left(names, k, condemned) - Left(names, k + 1, condemned)) - env.stuck)
      ensures env.balks == {} ==> ok
      ensures |runs| == |old(runs)| && SameButStatus(old(runs)[i], runs[i]) && volumes == old(volumes) && LosesOnly(old(pool), pool, condemned)
    {
      var s := names[k];
      LeftStep(names, k, condemned);
      if s == keep || k >= |names| - 2 || s in named { return true; }
      ok := DestroyOne(i, env, s, Left(names, k, condemned));
    }

    method AllDestroyed(i: nat, env: Env)
      requires At(i, Pruning({}))
      modifies this`flight, this`history
      ensures Follows(old(history), history, i, env) && At(i, Saving)
    {
      flight := flight[i := Saving];
      Note(i, env);
    }

    method DestroyOne(i: nat, env: Env, s: Snap, ghost todo: set<Snap>) returns (ok: bool)
      requires At(i, Pruning(todo)) && todo != {} && Oldest(todo) == s
      modifies this
      ensures Follows(old(history), history, i, env)
      ensures if ok then At(i, Pruning(todo - {s})) else Over(i, Failed)
      ensures ok ==> runs == old(runs) && pool == old(pool) - ({s} - env.stuck)
      ensures !ok ==> pool == old(pool)
      ensures ok <==> s !in env.balks
      ensures |runs| == |old(runs)| && SameButStatus(old(runs)[i], runs[i]) && volumes == old(volumes)
    {
      hide Tick;
      PruningTick(Now(), i, env, s, todo);
      if s in env.balks {
        Abort(i);
        ok := false;
      } else {
        DestroySnapshot(s, env);
        flight := flight[i := Pruning(todo - {s})];
        ok := true;
      }
      Note(i, env);
    }

    /** `_record_manifest`: save the aggregate index, then the sidecar; a failure only leaves them out. */
    method RecordManifest(i: nat, env: Env)
      requires At(i, Saving) && Inv(Now()) && runs[i].status == Success
      modifies this
      ensures Follows(old(history), history, i, env) && Over(i, Success) && runs == old(runs) && pool == old(pool)
      ensures SaveFails !in env.faults ==> Recorded(Now(), runs[i])
      ensures Indexes(old(volumes), volumes, runs[i].disk) && runs[i].disk in volumes
      ensures if SaveFails in env.faults then volumes == old(volumes)
              else Described(volumes[runs[i].disk], runs[i], SidecarFails !in env.faults)
                   && ListsAll(old(volumes)[runs[i].disk], volumes[runs[i].disk], runs[i])
    {
      hide Inv, Follows, Recorded, ListsAll, Described, Tick;
      if SaveFails in env.faults {
        SavingGivenUp(Now(), i, env);
        flight := flight - {i};
        Note(i, env);
        return;
      }
      ghost var before := Now();
      SaveIndex(i, env);
      ghost var saved := history;
      SavedIsRecorded(before, i, env);
      ghost var indexed := volumes[runs[i].disk];
      WriteSidecar(i, env);
      ListsStill(old(volumes)[runs[i].disk], indexed, volumes[runs[i].disk], runs[i]);
      FollowsOn(old(history), saved, history, i, env);
    }

    method SaveIndex(i: nat, env: Env)
      requires At(i, Saving) && Inv(Now()) && SaveFails !in env.faults
      modifies this
      ensures Follows(old(history), history, i, env) && At(i, Indexed) && runs == old(runs) && pool == old(pool)
      ensures Indexes(old(volumes), volumes, runs[i].disk) && Described(volumes[runs[i].disk], runs[i], false)
      ensures ListsAll(old(volumes)[runs[i].disk], volumes[runs[i].disk], runs[i])
      ensures CanTick(old(Now()), i) && Now() == Tick(old(Now()), i, env)
    {
      hide Inv, Follows, ListsAll, Described, Tick, Scan, Upsert, EntryOf, SoundVolume;
      var r := runs[i];
      var v := volumes[r.disk];
      var walk := ListSidecars(v);
      var manifest := ScanVolume(v, walk);
      SavingRow(Now(), i);
      ScanOrderIrrelevant(v, walk, Walk(v.sidecars), Entries(runs));
      var aggregate := new Aggregate(manifest);
      aggregate.UpsertDatasetBackup(r.ds, EntryOf(r));
      IndexDescribes(v, r, Entries(runs), walk);
      SavingTick(Now(), i, env);
      WithIndexIs(v, r, manifest);
      volumes := volumes[r.disk := v.(index := Some(aggregate.datasets))];
      flight := flight[i := Indexed];
      Note(i, env);
    }

    method WriteSidecar(i: nat, env: Env)
      requires At(i, Indexed)
      modifies this
      ensures Follows(old(history), history, i, env) && runs == old(runs) && pool == old(pool) && Over(i, old(runs[i].status))
      ensures Indexes(old(volumes), volumes, runs[i].disk)
      ensures volumes[runs[i].disk].index == old(volumes)[runs[i].disk].index
      ensures Described(old(volumes)[runs[i].disk], runs[i], false) ==>
                Described(volumes[runs[i].disk], runs[i], SidecarFails !in env.faults)
      ensures CanTick(old(Now()), i) && Now() == Tick(old(Now()), i, env)
    {
      var r := runs[i];
      var e := EntryOf(r);
      EntryDescribes(r);
      if SidecarFails !in env.faults {
        volumes := volumes[r.disk := volumes[r.disk].(sidecars := volumes[r.disk].sidecars[e.file := e])];
      }
      flight := flight - {i};
      Note(i, env);
    }

    // ── Startup recovery ──────────────────────────────────────────────────

    /** `recover_orphaned_backups`: one commit for all rows, after their snapshots are dropped. */
    method RecoverOrphanedBackups(env: Env)
      requires flight == map[]
      modifies this`runs, this`pool
      ensures Now() == Recovered(old(Now()), env.stuck)
    {
      var rows := runs;
      var k := 0;
      while k < |runs|
        invariant 0 <= k <= |runs| == |rows| && runs == old(runs)
        invariant forall m :: 0 <= m < |rows| ==> rows[m] == if m < k then Closed(runs[m]) else runs[m]
        invariant forall s :: s in pool <==> s in old(pool) && (s in env.stuck || !DroppedBefore(runs, k, s))
      {
        var r := runs[k];
        if r.status == Running {
          if r.snap.Some? {
            DestroySnapshot(r.snap.value, env);
          }
          rows := rows[k := r.(status := Failed)];
        }
        k := k + 1;
      }
      forall s | true ensures s in Dropped(old(Now()), Unfinished(old(Now()))) <==> DroppedBefore(runs, |runs|, s) {
        if DroppedBefore(runs, |runs|, s) {
          var m :| 0 <= m < |runs| && runs[m].status == Running && runs[m].snap == Some(s);
          assert m in Unfinished(old(Now()));
        }
      }
      runs := rows;
      assert runs == Recovered(old(Now()), env.stuck).runs;
      assert pool == Recovered(old(Now()), env.stuck).pool;
    }

    // ── The whole write ───────────────────────────────────────────────────

    /**
     * `backup_dataset`. Every durable change on the way is the next step of the protocol, so every state
     * a crash can leave has the invariant; a write that ends in success adds exactly its own run to its
     * chain, and any other end leaves all chains as they were. Which end it is, is what the outside world
     * calls for, and each end leaves in the pool what it should.
     */
    method BackupDataset(i: nat, env: Env) returns (result: Result)
      requires At(i, Start) && Inv(Now())
      modifies this
      ensures Follows(old(history), history, i, env) && Inv(Now())
      ensures AllSound(old(history), history)
      ensures OthersAlone(old(Now()), Now(), i) && Ends(i, result)
      ensures result.Wrote? ==> Stored(Now(), runs[i])
      ensures OneLinkMore(old(Now()), Now(), i, result.Wrote?)
      ensures result.Wrote? && Prunes(env) ==> Tidy(runs, pool, runs[i].ds)
      ensures result.Wrote? && SaveFails !in env.faults ==> Recorded(Now(), runs[i])
      ensures result.Wrote? && SaveFails !in env.faults ==>
                runs[i].disk in volumes && Described(volumes[runs[i].disk], runs[i], SidecarFails !in env.faults)
      ensures Answers(old(Now()), i, env, result) && LeavesPool(old(Now()), Now(), i, env, result)
      ensures Captures(old(Now()), i, env) ==> Settled(old(Now()), Now(), i, env)
      ensures LeavesMedia(old(Now()), Now(), i, env, result)
      ensures result.Wrote? || result.Unchanged? ==>
                runs[i].base == BaseFor(old(Now()), i, env) && runs[i].fullAnchor == FullFor(old(Now()), i, env)
      ensures env.faults == {} && env.balks == {} ==>
                var r := old(runs)[i];
                if r.kind.Incremental? && Chain(old(runs), |old(runs)|, r.ds, r.set_) != [] && !env.changed
                then result == Unchanged
                else if env.free.None? || env.free.value < env.needed
                then result == NeedsSpace(env.needed, if env.free.Some? then env.free.value else 0)
                else result == if env.sendOk then Wrote else GaveUpOn
    {
      result := WriteStages(i, env);
      WriteKeeps(old(history), history, i, env, result.Wrote?);
    }

    /** Where each answer leaves the row and the write. */
    ghost predicate Ends(i: nat, result: Result)
      reads this
    {
      match result
      case Wrote => Over(i, Success)
      case Unchanged => Over(i, Skipped)
      case NeedsSpace(needed, free) => At(i, Refused(needed)) && runs[i].status == Failed
      case GaveUpOn => Over(i, Failed)
    }

    method WriteStages(i: nat, env: Env) returns (result: Result)
      requires At(i, Start) && Inv(Now())
      modifies this
      ensures Follows(old(history), history, i, env) && Ends(i, result)
      ensures result.Wrote? && Prunes(env) ==> Tidy(runs, pool, runs[i].ds)
      ensures result.Wrote? && SaveFails !in env.faults ==> Recorded(Now(), runs[i])
      ensures result.Wrote? && SaveFails !in env.faults ==>
                runs[i].disk in volumes && Described(volumes[runs[i].disk], runs[i], SidecarFails !in env.faults)
      ensures Answers(old(Now()), i, env, result) && LeavesPool(old(Now()), Now(), i, env, result)
      ensures Captures(old(Now()), i, env) ==> Settled(old(Now()), Now(), i, env)
      ensures LeavesMedia(old(Now()), Now(), i, env, result)
      ensures result.Wrote? || result.Unchanged? ==>
                runs[i].base == BaseFor(old(Now()), i, env) && runs[i].fullAnchor == FullFor(old(Now()), i, env)
    {
      hide Inv, Follows, Answers, LeavesPool, LeavesMedia, Retained, Settled, Captures, Sends, Streamed, Indexes;
      ghost var w := Now();
      var early, base, full := UpToSend(i, env);
      if early.Some? { return early.value; }
      ghost var h, w' := history, Now();
      StillSound(old(history), h, i, env);
      result := AfterSend(i, env, base, full);
      FollowsOn(old(history), h, history, i, env);
      SentIs(w, w', Now(), i, env, result);
      SentMedia(w, w', Now(), i, env, result);
    }

    /** Everything up to a whole stream on the disk. */
    method UpToSend(i: nat, env: Env) returns (result: Option<Result>, base: Option<Snap>, full: Option<Snap>)
      requires At(i, Start) && Inv(Now())
      modifies this
      ensures Follows(old(history), history, i, env)
      ensures if result.Some? then Ends(i, result.value) && !result.value.Wrote? else At(i, Sent(base, full))
      ensures result.Some? ==>
                Answers(old(Now()), i, env, result.value) && LeavesPool(old(Now()), Now(), i, env, result.value)
      ensures result.None? ==>
                Sends(old(Now()), i, env) && Retained(old(Now()), Now(), i) && Settled(old(Now()), Now(), i, env)
      ensures Captures(old(Now()), i, env) ==> Settled(old(Now()), Now(), i, env)
      ensures result.Some? ==> LeavesMedia(old(Now()), Now(), i, env, result.value)
      ensures result.None? ==>
                base == BaseFor(old(Now()), i, env) && full == FullFor(old(Now()), i, env)
                && Streamed(old(volumes), volumes, runs[i], Some(Complete(base, runs[i].snap.value)))
      ensures result == Some(Unchanged) ==>
                runs[i].base == BaseFor(old(Now()), i, env) && runs[i].fullAnchor == FullFor(old(Now()), i, env)
    {
      hide Inv, Follows, Answers, LeavesPool, LeavesMedia, Retained, Settled, Sends;
      ghost var w := Now();
      var ok;
      ok, base, full := UpToCapture(i, env);
      if !ok {
        NotCaptured(w, Now(), i, env);
        NothingSent(w, Now(), i, env);
        return Some(GaveUpOn), None, None;
      }
      ghost var h, w' := history, Now();
      StillSound(old(history), h, i, env);
      result := CheckAndSend(i, env, base, full);
      FollowsOn(old(history), h, history, i, env);
      CheckedIs(w, w', Now(), i, env, base, result);
      MediaIs(w, w', Now(), i, env, base, result);
    }

    /** Mount, resolve the anchor, and get a snapshot. */
    method UpToCapture(i: nat, env: Env) returns (ok: bool, base: Option<Snap>, full: Option<Snap>)
      requires At(i, Start) && Inv(Now())
      modifies this
      ensures Follows(old(history), history, i, env)
      ensures if ok then At(i, Captured(base, full)) else Over(i, Failed)
      ensures ok <==> Captures(old(Now()), i, env)
      ensures if ok then CapturedFrom(old(Now()), Now(), i, env, base) else pool == old(pool)
      ensures volumes == old(volumes)
      ensures ok ==> base == BaseFor(old(Now()), i, env) && full == FullFor(old(Now()), i, env)
    {
      hide Inv, Follows;
      ghost var w := Now();
      ChainHead(w, w.runs[i].ds, w.runs[i].set_);
      var kind;
      AnchorExact(w, w.runs[i].ds, w.runs[i].set_, AnchorListingFails !in env.faults);
      ChainSnaps(w.runs, |w.runs|, w.runs[i].ds, w.runs[i].set_);
      ok, kind, base, full := ResolveAnchor(i, env);
      if !ok { return; }
      ghost var h := history;
      ok := CaptureDataset(i, env, kind, base, full);
      FollowsOn(old(history), h, history, i, env);
    }

    method CheckAndSend(i: nat, env: Env, base: Option<Snap>, full: Option<Snap>) returns (result: Option<Result>)
      requires At(i, Captured(base, full)) && Inv(Now())
      modifies this
      ensures Follows(old(history), history, i, env)
      ensures if result.Some? then Ends(i, result.value) && !result.value.Wrote? else At(i, Sent(base, full))
      ensures |runs| == |old(runs)| && SameChoice(old(runs)[i], runs[i])
      ensures CheckedAs(old(runs)[i], base, old(pool), pool, env, result)
      ensures CheckedMedia(old(runs)[i], base, old(volumes), volumes, env)
      ensures result == Some(Unchanged) ==> runs[i].base == base && runs[i].fullAnchor == full
    {
      hide Inv, Follows;
      HasSnapshots(Now(), i, base, full);
      result := CheckWorthAndRoom(i, env, base, full);
      if result.Some? { return; }
      ghost var h := history;
      var ok := SendStream(i, env, base, full);
      FollowsOn(old(history), h, history, i, env);
      if !ok { return Some(GaveUpOn); }
    }

    method AfterSend(i: nat, env: Env, base: Option<Snap>, full: Option<Snap>) returns (result: Result)
      requires At(i, Sent(base, full)) && Inv(Now())
      modifies this
      ensures Follows(old(history), history, i, env) && Ends(i, result)
      ensures result.Wrote? && Prunes(env) ==> Tidy(runs, pool, runs[i].ds)
      ensures result.Wrote? && SaveFails !in env.faults ==> Recorded(Now(), runs[i])
      ensures result.Wrote? && SaveFails !in env.faults ==>
                runs[i].disk in volumes && Described(volumes[runs[i].disk], runs[i], SidecarFails !in env.faults)
      ensures Committed(env, result) && Pruned(old(Now()), Now(), i)
      ensures |runs| == |old(runs)| && SameChoice(old(runs)[i], runs[i])
      ensures runs[i].base == base && runs[i].fullAnchor == full
      ensures if result.Wrote? then Indexes(old(volumes), volumes, runs[i].disk) else volumes == old(volumes)
    {
      hide Inv, Follows, Tidy, Recorded, Described, Pruned, Indexes;
      ghost var w := Now();
      CommitSuccess(i, env, base, full);
      ghost var h, w' := history, Now();
      StillSound(old(history), h, i, env);
      result := PruneAndRecord(i, env);
      FollowsOn(old(history), h, history, i, env);
      PrunedSince(w, w', Now(), i);
    }

    method PruneAndRecord(i: nat, env: Env) returns (result: Result)
      requires At(i, Listing) && Inv(Now())
      modifies this
      ensures Follows(old(history), history, i, env) && Ends(i, result)
      ensures result.Wrote? && Prunes(env) ==> Tidy(runs, pool, runs[i].ds)
      ensures result.Wrote? && SaveFails !in env.faults ==> Recorded(Now(), runs[i])
      ensures result.Wrote? && SaveFails !in env.faults ==>
                runs[i].disk in volumes && Described(volumes[runs[i].disk], runs[i], SidecarFails !in env.faults)
      ensures Committed(env, result) && Pruned(old(Now()), Now(), i)
      ensures |runs| == |old(runs)| && SameButStatus(old(runs)[i], runs[i])
      ensures if result.Wrote? then Indexes(old(volumes), volumes, runs[i].disk) else volumes == old(volumes)
    {
      hide Inv, Follows, Tidy, Recorded, Described, Pruned, LosesOnly, Indexes;
      ghost var w := Now();
      var ok := PruneOldAnchors(i, env);
      FollowsAlone(old(history), history, i, env, w, Now());
      PrunedIs(w, Now(), i);
      if !ok { return GaveUpOn; }
      ghost var h, w' := history, Now();
      StillSuccess(old(history), history, i, env);
      RecordManifest(i, env);
      FollowsOn(old(history), h, history, i, env);
      PrunedSame(w, w', Now(), i);
      result := Wrote;
    }
  }

  // ── From stage to stage ─────────────────────────────────────────────────

  lemma {:induction false} ChainSnaps(runs: seq<Run>, n: nat, ds: Dataset, set_: SetId)
    requires n <= |runs|
    ensures forall r :: r in Chain(runs, n, ds, set_) ==> r.snap.Some?
  {
  }

  /** A write that has its snapshot has its base too. */
  lemma HasSnapshots(w: World, i: nat, base: Option<Snap>, full: Option<Snap>)
    requires Inv(w) && i in w.flight && w.flight[i] == Captured(base, full)
    ensures i < |w.runs| && w.runs[i].snap.Some? && w.runs[i].snap.value in w.pool && (base.Some? ==> base.value in w.pool)
  {
    assert NewestOfDataset(w, i) && PcOk(w, i, w.flight[i]);
    var j := Last(w.runs, i, w.runs[i].ds, w.runs[i].set_);
    if j.Some? {
      assert RowOk(w, w.runs[j.value]);
    }
  }

  /** What checking and sending answer, for a row, and what it leaves in the pool. */
  ghost predicate CheckedAs(
    r: Run, base: Option<Snap>, pool: set<Snap>, pool': set<Snap>, env: Env, result: Option<Result>)
  {
    var idle := r.kind.Incremental? && base.Some? && !env.changed;
    var clear := !idle && PrepareRaises !in env.faults;
    && (result == Some(Unchanged) <==> idle && SkipRaises !in env.faults)
    && (result.Some? && result.value.NeedsSpace? <==> clear && NoRoomFor(env))
    && (result.Some? && result.value.NeedsSpace? ==>
          result == Some(NeedsSpace(env.needed, if env.free.Some? then env.free.value else 0)))
    && (result.None? <==> clear && !NoRoomFor(env) && SendRaises !in env.faults && env.sendOk)
    && result != Some(Wrote)
    && if result == Some(Unchanged) || (clear && !NoRoomFor(env) && SendRaises !in env.faults && !env.sendOk)
       then Gone(pool, pool', r.snap, env) else pool' == pool
  }

  /** The row is of the kind the write calls for, on its disk, promoted if that is not the kind asked for. */
  ghost predicate Settled(w: World, w': World, i: nat, env: Env) {
    && i < |w.runs| && i < |w'.runs|
    && (var r, r' := w.runs[i], w'.runs[i];
        && (r'.kind.Incremental? <==> StaysIncremental(w, i, env))
        && (r'.promoted <==> r.promoted || (r.kind.Incremental? && r'.kind.Full?))
        && r'.snap == (if Reuses(w, i, env) then r.snap else Some(Snap(r.ds, w.clock))) && r'.disk == r.disk)
  }

  /** Behind a whole stream only pruning decides. */
  predicate Committed(env: Env, result: Result) {
    && (result.Wrote? || result.GaveUpOn?) && (result.Wrote? ==> PruneListingRaises !in env.faults)
    && (PruneListingRaises !in env.faults && (env.balks == {} || PruneListingFails in env.faults) ==> result.Wrote?)
  }

  /** What checking and sending do on the disks. */
  ghost predicate CheckedMedia(
    r: Run, base: Option<Snap>, volumes: map<DiskId, Volume>, volumes': map<DiskId, Volume>, env: Env)
  {
    var idle := r.kind.Incremental? && base.Some? && !env.changed;
    if !idle && PrepareRaises !in env.faults && !NoRoomFor(env)
    then r.snap.Some?
         && Streamed(volumes, volumes', r,
                     if SendRaises in env.faults then Some(Partial)
                     else if env.sendOk then Some(Complete(base, r.snap.value)) else None)
    else volumes' == volumes
  }

  lemma NothingSent(w: World, w': World, i: nat, env: Env)
    requires i < |w.runs| && i < |w'.runs| && !Captures(w, i, env) && w'.volumes == w.volumes
    ensures LeavesMedia(w, w', i, env, GaveUpOn)
  {
  }

  lemma MediaIs(w: World, w': World, w'': World, i: nat, env: Env, base: Option<Snap>, result: Option<Result>)
    requires CapturedFrom(w, w', i, env, base) && Captures(w, i, env) && w'.volumes == w.volumes
    requires CheckedMedia(w'.runs[i], base, w'.volumes, w''.volumes, env)
    requires |w''.runs| == |w'.runs| && SameChoice(w'.runs[i], w''.runs[i])
    requires result.None? <==> Sends(w, i, env)
    ensures if result.Some? then LeavesMedia(w, w'', i, env, result.value)
            else Streamed(w.volumes, w''.volumes, w''.runs[i], Some(Complete(base, w''.runs[i].snap.value)))
  {
    assert w'.runs[i].kind.Incremental? && base.Some? && !env.changed <==> NothingNew(w, i, env);
  }

  lemma SentMedia(w: World, w': World, w'': World, i: nat, env: Env, result: Result)
    requires i < |w.runs| && i < |w'.runs| && i < |w''.runs| && Sends(w, i, env)
    requires w'.runs[i].snap.Some? && SameChoice(w'.runs[i], w''.runs[i])
    requires Streamed(w.volumes, w'.volumes, w'.runs[i], Some(Complete(BaseFor(w, i, env), w'.runs[i].snap.value)))
    requires if result.Wrote? then Indexes(w'.volumes, w''.volumes, w''.runs[i].disk) else w''.volumes == w'.volumes
    ensures LeavesMedia(w, w'', i, env, result)
  {
    assert Streamed(w.volumes, w'.volumes, w''.runs[i], Some(Complete(BaseFor(w, i, env), w''.runs[i].snap.value)));
  }

  /** The oldest full of a chain is its head. */
  lemma ChainHead(w: World, ds: Dataset, set_: SetId)
    requires Inv(w)
    ensures var c := Chain(w.runs, |w.runs|, ds, set_);
            FullAnchor(w.runs, |w.runs|, ds, set_) == if c == [] then None else c[0].snap
  {
    FirstFullIsHead(w, |w.runs|, ds, set_);
  }

  lemma NotCaptured(w: World, w': World, i: nat, env: Env)
    requires i < |w.runs| && !Captures(w, i, env) && w'.pool == w.pool
    ensures Answers(w, i, env, GaveUpOn) && LeavesPool(w, w', i, env, GaveUpOn)
  {
  }

  lemma CheckedIs(w: World, w': World, w'': World, i: nat, env: Env, base: Option<Snap>, result: Option<Result>)
    requires CapturedFrom(w, w', i, env, base) && Captures(w, i, env)
    requires CheckedAs(w'.runs[i], base, w'.pool, w''.pool, env, result)
    requires |w''.runs| == |w'.runs| && SameChoice(w'.runs[i], w''.runs[i])
    ensures Settled(w, w'', i, env)
    ensures if result.Some? then Answers(w, i, env, result.value) && LeavesPool(w, w'', i, env, result.value)
            else Retained(w, w'', i)
    ensures result.None? <==> Sends(w, i, env)
  {
    assert w'.runs[i].kind.Incremental? && base.Some? && !env.changed <==> NothingNew(w, i, env);
  }

  lemma SentIs(w: World, w': World, w'': World, i: nat, env: Env, result: Result)
    requires i < |w.runs| && Sends(w, i, env) && Retained(w, w', i) && Settled(w, w', i, env)
    requires Committed(env, result) && Pruned(w', w'', i)
    requires |w''.runs| == |w'.runs| && SameChoice(w'.runs[i], w''.runs[i])
    ensures Answers(w, i, env, result) && LeavesPool(w, w'', i, env, result) && Settled(w, w'', i, env)
  {
    var s := w'.runs[i].snap.value;
    assert w'.pool + {s} == w.pool + {s};
  }

  lemma CondemnedListed(names: seq<Snap>, runs: seq<Run>, pool: set<Snap>, keep: Snap)
    requires SortedListing(names, pool, keep.ds)
    ensures forall s :: s in Prunable(runs, pool, keep) ==> s in names
  {
  }

  lemma FollowsAlone(before: seq<World>, h: seq<World>, i: nat, env: Env, w: World, w': World)
    requires Follows(before, h, i, env) && Inv(w) && before != [] && h != []
    requires before[|before| - 1] == w && h[|h| - 1] == w'
    ensures OthersAlone(w, w', i)
  {
    FollowsKeeps(before, h, i, env, |h| - 1);
  }

  lemma PrunableIsDisposable(runs: seq<Run>, runs': seq<Run>, pool: set<Snap>, keep: Snap, t: Snap)
    requires t in Prunable(runs, pool, keep) && |runs'| == |runs|
    requires forall k :: 0 <= k < |runs| ==> SameButStatus(runs[k], runs'[k])
    requires forall k :: 0 <= k < |runs| && runs'[k].status == Success ==> runs[k].status == Success
    ensures Disposable(runs', pool, keep.ds, t)
  {
    var a, b :| a in pool && b in pool && a.ds == t.ds && b.ds == t.ds && t.ts < a.ts < b.ts;
    forall k | 0 <= k < |runs'| && runs'[k].status == Success
      ensures runs'[k].snap != Some(t) && runs'[k].base != Some(t) && runs'[k].fullAnchor != Some(t)
    {
      assert !NamedBy(runs[k], t);
    }
  }

  /** What a prune has dropped is disposable, also if it failed in the end. */
  lemma PrunedIs(w: World, w': World, i: nat)
    requires Inv(w) && i in w.flight && w.flight[i].Listing? && i < |w.runs| && OthersAlone(w, w', i)
    requires SameButStatus(w.runs[i], w'.runs[i])
    requires w.runs[i].snap.Some? ==> LosesOnly(w.pool, w'.pool, Prunable(w.runs, w.pool, w.runs[i].snap.value))
    ensures Pruned(w, w', i)
  {
    hide Prunable, Inv, Disposable;
    ListingRow(w, i);
    KeptInPool(w, i);
    var s := w.runs[i].snap.value;
    assert w.pool + {s} == w.pool;
    forall t | t in w.pool && t !in w'.pool ensures Disposable(w'.runs, w.pool + {s}, s.ds, t) {
      PrunableIsDisposable(w.runs, w'.runs, w.pool, s, t);
    }
  }

  lemma KeptInPool(w: World, i: nat)
    requires Inv(w) && i in w.flight && w.flight[i].Listing? && i < |w.runs| && w.runs[i].snap.Some?
    ensures w.runs[i].snap.value in w.pool
    ensures w.runs[i].snap.value !in Prunable(w.runs, w.pool, w.runs[i].snap.value)
  {
    assert PcOk(w, i, w.flight[i]) && RowOk(w, w.runs[i]);
  }

  /** Committing and recording leave the pool, and the snapshots that runs name, as they are. */
  lemma PrunedSame(w: World, w': World, w'': World, i: nat)
    requires Pruned(w, w', i) && w''.runs == w'.runs && w''.pool == w'.pool
    ensures Pruned(w, w'', i)
  {
  }

  lemma PrunedSince(w: World, w': World, w'': World, i: nat)
    requires i < |w.runs| && i < |w'.runs| && SameChoice(w.runs[i], w'.runs[i]) && w'.pool == w.pool && Pruned(w', w'', i)
    ensures Pruned(w, w'', i)
  {
  }

  lemma StillTorn(volumes: map<DiskId, Volume>, r: Run)
    requires TornAt(volumes, r)
    ensures Streamed(volumes, volumes, r, Some(Partial))
  {
    var v, f := volumes[r.disk], StreamFile(r.ds, r.kind, r.snap.value.ts);
    assert v.streams[f := Partial] == v.streams;
  }

  lemma StreamedTwice(a: map<DiskId, Volume>, b: map<DiskId, Volume>, c: map<DiskId, Volume>, r: Run, st: Option<Stream>)
    requires Streamed(a, b, r, Some(Partial)) && Streamed(b, c, r, st)
    ensures Streamed(a, c, r, st)
  {
    var v, f := a[r.disk].streams, StreamFile(r.ds, r.kind, r.snap.value.ts);
    if st.Some? {
      assert v[f := Partial][f := st.value] == v[f := st.value];
    } else {
      assert v[f := Partial] - {f} == v - {f};
    }
  }

  lemma ListingRow(w: World, i: nat)
    requires Inv(w) && i in w.flight && w.flight[i].Listing?
    ensures i < |w.runs| && w.runs[i].status == Success && w.runs[i].snap.Some?
    ensures w.runs[i].snap.value.ds == w.runs[i].ds && Named(w.runs, w.runs[i].snap.value)
  {
    assert NewestOfDataset(w, i) && PcOk(w, i, w.flight[i]) && RowOk(w, w.runs[i]);
    assert NamedBy(w.runs[i], w.runs[i].snap.value);
  }

  lemma AllWentIf(pool: set<Snap>, pool': set<Snap>, condemned: set<Snap>, env: Env)
    requires env.stuck == {} && pool' == pool - (condemned - env.stuck)
    ensures pool' == pool - condemned
  {
  }

  lemma SavingGivenUp(w: World, i: nat, env: Env)
    requires CanTick(w, i) && w.flight[i] == Saving && SaveFails in env.faults
    ensures Tick(w, i, env) == Done(w, i)
  {
  }

  lemma StillSound(before: seq<World>, h: seq<World>, i: nat, env: Env)
    requires Follows(before, h, i, env) && Inv(before[|before| - 1])
    ensures Inv(h[|h| - 1])
  {
    FollowsKeeps(before, h, i, env, |h| - 1);
  }

  /** Saving the index records the run, and the sidecar takes nothing back. */
  lemma SavedIsRecorded(w: World, i: nat, env: Env)
    requires Inv(w) && CanTick(w, i) && w.flight[i].Saving? && SaveFails !in env.faults
    ensures var w' := Tick(w, i, env);
            CanTick(w', i) && w'.flight[i].Indexed? && Recorded(Tick(w', i, env), w.runs[i])
  {
    assert PcOk(w, i, w.flight[i]) && RowOk(w, w.runs[i]);
    SaveRecordsExactly(w, i, env);
    TickKeepsInv(w, i, env);
    SidecarKeepsRecords(Tick(w, i, env), i, env, i);
  }

  lemma StillSuccess(before: seq<World>, h: seq<World>, i: nat, env: Env)
    requires Follows(before, h, i, env) && Inv(before[|before| - 1])
    requires i in h[|h| - 1].flight && h[|h| - 1].flight[i].Saving?
    ensures Inv(h[|h| - 1]) && i < |h[|h| - 1].runs| && h[|h| - 1].runs[i].status == Success
  {
    FollowsKeeps(before, h, i, env, |h| - 1);
    assert PcOk(h[|h| - 1], i, h[|h| - 1].flight[i]);
  }

  /** The chain of (ds, set) has gained the row of write i, or nothing. */
  ghost predicate ChainGrows(w: World, w': World, i: nat, ds: Dataset, set_: SetId, wrote: bool)
    requires i < |w'.runs|
  {
    Chain(w'.runs, |w'.runs|, ds, set_)
    == Chain(w.runs, |w.runs|, ds, set_)
       + (if wrote && ds == w'.runs[i].ds && set_ == w'.runs[i].set_ then [w'.runs[i]] else [])
  }

  /** Every state noted since `before` has the invariant. */
  ghost predicate AllSound(before: seq<World>, h: seq<World>) {
    forall k :: |before| <= k < |h| ==> Inv(h[k])
  }

  /** A write that ended in success added its run to its own chain; otherwise no chain has changed. */
  ghost predicate OneLinkMore(w: World, w': World, i: nat, wrote: bool) {
    i < |w'.runs| && forall ds, set_ :: ChainGrows(w, w', i, ds, set_, wrote)
  }

  lemma {:induction false} WriteKeeps(before: seq<World>, h: seq<World>, i: nat, env: Env, wrote: bool)
    requires Follows(before, h, i, env) && Inv(before[|before| - 1]) && i in before[|before| - 1].flight
    requires before[|before| - 1].flight[i].Start?
    requires i < |h[|h| - 1].runs| && (h[|h| - 1].runs[i].status == Success <==> wrote)
    ensures AllSound(before, h)
    ensures Inv(h[|h| - 1]) && OthersAlone(before[|before| - 1], h[|h| - 1], i)
    ensures wrote ==> Stored(h[|h| - 1], h[|h| - 1].runs[i])
    ensures OneLinkMore(before[|before| - 1], h[|h| - 1], i, wrote)
  {
    hide Inv, Chain;
    var w, w' := before[|before| - 1], h[|h| - 1];
    WriteStarts(w, i);
    forall k | |before| <= k < |h| ensures Inv(h[k]) {
      FollowsKeeps(before, h, i, env, k);
    }
    FollowsKeeps(before, h, i, env, |h| - 1);
    SuccessHasSnap(w', i);
    forall ds, set_ | true ensures ChainGrows(w, w', i, ds, set_, wrote) {
      ChainAfterWrite(w, w', i, ds, set_);
    }
  }

  lemma WriteStarts(w: World, i: nat)
    requires Inv(w) && i in w.flight && w.flight[i].Start?
    ensures NewestOfDataset(w, i) && w.runs[i].status == Running
  {
    assert NewestOfDataset(w, i) && PcOk(w, i, w.flight[i]);
  }

  lemma SuccessHasSnap(w: World, i: nat)
    requires Inv(w) && i < |w.runs|
    ensures w.runs[i].status == Success ==> w.runs[i].snap.Some? && Stored(w, w.runs[i])
  {
    assert RowOk(w, w.runs[i]);
  }

  ghost predicate DroppedBefore(runs: seq<Run>, k: nat, s: Snap)
    requires k <= |runs|
  {
    exists m :: 0 <= m < k && runs[m].status == Running && runs[m].snap == Some(s)
  }

  /** What is still to be destroyed when the listing has been walked up to k. */
  ghost function Left(names: seq<Snap>, k: nat, condemned: set<Snap>): set<Snap>
    requires k <= |names|
  {
    set s | s in condemned && s in names[k..]
  }

  lemma PoolLeft(
    pool0: set<Snap>, pool1: set<Snap>, pool2: set<Snap>, condemned: set<Snap>, left: set<Snap>, left': set<Snap>, stuck: set<Snap>)
    requires left' <= left <= condemned
    requires pool1 == pool0 - ((condemned - left) - stuck) && pool2 == pool1 - ((left - left') - stuck)
    ensures pool2 == pool0 - ((condemned - left') - stuck)
  {
  }

  lemma LeftShrinks(names: seq<Snap>, k: nat, condemned: set<Snap>)
    requires k < |names|
    ensures Left(names, k + 1, condemned) <= Left(names, k, condemned) <= condemned
  {
    assert names[k..] == [names[k]] + names[k + 1..];
  }

  lemma NoneLeft(names: seq<Snap>, condemned: set<Snap>)
    ensures Left(names, |names|, condemned) == {}
  {
  }

  lemma LosesMore(pool0: set<Snap>, pool1: set<Snap>, pool2: set<Snap>, condemned: set<Snap>)
    requires LosesOnly(pool0, pool1, condemned) && LosesOnly(pool1, pool2, condemned)
    ensures LosesOnly(pool0, pool2, condemned)
  {
  }

  lemma LeftStep(names: seq<Snap>, k: nat, condemned: set<Snap>)
    requires Ascending(names) && k < |names|
    ensures if names[k] in condemned
            then Left(names, k, condemned) != {} && Oldest(Left(names, k, condemned)) == names[k]
                 && Left(names, k + 1, condemned) == Left(names, k, condemned) - {names[k]}
            else Left(names, k + 1, condemned) == Left(names, k, condemned)
  {
    var s := names[k];
    assert names[k..] == [s] + names[k + 1..];
    assert forall t :: t in names[k + 1..] ==> s.ts < t.ts;
    if s in condemned {
      assert s in Left(names, k, condemned);
    }
  }

  /** Only the write's own row can join a chain, and it joins at the end. */
  lemma ChainAfterWrite(w: World, w': World, i: nat, ds: Dataset, set_: SetId)
    requires OthersAlone(w, w', i) && NewestOfDataset(w, i) && w.runs[i].status != Success
    ensures Chain(w'.runs, |w'.runs|, ds, set_)
            == Chain(w.runs, |w.runs|, ds, set_) + (if Good(w'.runs[i], ds, set_) then [w'.runs[i]] else [])
  {
    ChainUpTo(w, w', i, ds, set_, |w.runs|);
  }

  lemma {:induction false} ChainUpTo(w: World, w': World, i: nat, ds: Dataset, set_: SetId, n: nat)
    requires OthersAlone(w, w', i) && NewestOfDataset(w, i) && w.runs[i].status != Success && n <= |w.runs|
    ensures Chain(w'.runs, n, ds, set_)
            == Chain(w.runs, n, ds, set_) + (if i < n && Good(w'.runs[i], ds, set_) then [w'.runs[i]] else [])
  {
    if n > 0 {
      ChainUpTo(w, w', i, ds, set_, n - 1);
    }
  }
}

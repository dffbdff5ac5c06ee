/**
 * The backup chain protocol as a state machine over the durable effects of a write:
 * `backup_dataset` of nazman/managers/zfs_backup_manager.py, one effect a step, with any number of
 * writes in flight, crashes between any two effects, and `recover_orphaned_backups` afterwards.
 */
module Protocol {
  import opened Streams
  import opened Manifest

  // ── State ───────────────────────────────────────────────────────────────

  datatype Status = Running | Success | Failed | Skipped

  /** A committed `backup_runs` row; the row id is its index in the table. */
  datatype Run = Run(
    ds: Dataset, set_: SetId, disk: DiskId, kind: Kind, promoted: bool,
    snap: Option<Snap>, base: Option<Snap>, fullAnchor: Option<Snap>,
    stream: Option<StreamFile>, status: Status, at: nat)

  /** Where a write in flight stands, with the local variables that are not in its row yet. */
  datatype Pc =
    | Start
    | Resolved(kind: Kind, base: Option<Snap>, full: Option<Snap>)
    | Snapped(kind: Kind, base: Option<Snap>, full: Option<Snap>, snap: Snap)
    | Captured(base: Option<Snap>, full: Option<Snap>)
    | Skipping
    | Refused(needed: nat)
    | Sending(base: Option<Snap>, full: Option<Snap>)
    | Streaming(base: Option<Snap>, full: Option<Snap>)
    | Discarding
    | Closing
    | Sent(base: Option<Snap>, full: Option<Snap>)
    | Listing
    | Pruning(todo: set<Snap>)
    | Saving
    | Indexed

  /** `owner` says which set a declared disk belongs to; `pool` holds the `backup-*` snapshots. */
  datatype World = World(
    runs: seq<Run>, pool: set<Snap>, volumes: map<DiskId, Volume>, owner: map<DiskId, SetId>,
    clock: nat, flight: map<nat, Pc>)

  datatype Fault =
    | MountFails | AnchorListingFails | LookupFails | SnapshotRaises | PrepareRaises | SkipRaises
    | SendRaises | PruneListingFails | PruneListingRaises | SaveFails | SidecarFails

  /** What the outside world answers: commands that fail, the disk's free space, destroys that do nothing. */
  datatype Env = Env(
    faults: set<Fault>, changed: bool, needed: nat, free: Option<nat>, sendOk: bool,
    stuck: set<Snap>, balks: set<Snap>)

  // ── Queries over the run table ──────────────────────────────────────────

  predicate Good(r: Run, ds: Dataset, set_: SetId) {
    r.ds == ds && r.set_ == set_ && r.status == Success && r.snap.Some?
  }

  /** The newest successful run of (ds, set) among the first n rows. */
  function Last(runs: seq<Run>, n: nat, ds: Dataset, set_: SetId): (j: Option<nat>)
    requires n <= |runs|
    ensures j.Some? ==> j.value < n && Good(runs[j.value], ds, set_)
  {
    if n == 0 then None
    else if Good(runs[n - 1], ds, set_) then Some(n - 1)
    else Last(runs, n - 1, ds, set_)
  }

  /** The oldest successful full run of (ds, set) among the first n rows. */
  function FirstFull(runs: seq<Run>, n: nat, ds: Dataset, set_: SetId): (j: Option<nat>)
    requires n <= |runs|
    ensures j.Some? ==> j.value < n && Good(runs[j.value], ds, set_)
  {
    if n == 0 then None
    else
      var before := FirstFull(runs, n - 1, ds, set_);
      if before.Some? then before
      else if GoodFull(runs[n - 1], ds, set_) then Some(n - 1)
      else None
  }

  /** It is found whenever there is one, and none after it is successful. */
  lemma {:induction false} LastIsNewest(runs: seq<Run>, n: nat, ds: Dataset, set_: SetId)
    requires n <= |runs|
    ensures var j := Last(runs, n, ds, set_);
            && (j.Some? <==> exists k :: 0 <= k < n && Good(runs[k], ds, set_))
            && (j.Some? ==> j.value < n && Good(runs[j.value], ds, set_)
                            && forall k :: j.value < k < n ==> !Good(runs[k], ds, set_))
  {
    if n > 0 {
      LastIsNewest(runs, n - 1, ds, set_);
    }
  }

  predicate GoodFull(r: Run, ds: Dataset, set_: SetId) {
    Good(r, ds, set_) && r.kind.Full?
  }

  /** It is found whenever there is one, and none before it is a successful full. */
  lemma {:induction false} FirstFullIsOldest(runs: seq<Run>, n: nat, ds: Dataset, set_: SetId)
    requires n <= |runs|
    ensures var j := FirstFull(runs, n, ds, set_);
            && (j.Some? <==> exists k :: 0 <= k < n && GoodFull(runs[k], ds, set_))
            && (j.Some? ==> j.value < n && GoodFull(runs[j.value], ds, set_)
                            && forall k :: 0 <= k < j.value ==> !GoodFull(runs[k], ds, set_))
  {
    if n > 0 {
      FirstFullIsOldest(runs, n - 1, ds, set_);
    }
  }

  /** `chain_full_anchor`. */
  function FullAnchor(runs: seq<Run>, n: nat, ds: Dataset, set_: SetId): Option<Snap>
    requires n <= |runs|
  {
    var j := FirstFull(runs, n, ds, set_);
    if j.Some? then runs[j.value].snap else None
  }

  /** `set_anchor`: the newest snapshot the set received, if a listing of the pool still shows it. */
  function SetAnchor(w: World, ds: Dataset, set_: SetId, lists: bool): Option<Snap> {
    var j := Last(w.runs, |w.runs|, ds, set_);
    if j.Some? && lists && w.runs[j.value].snap.value in w.pool then w.runs[j.value].snap else None
  }

  predicate NamedBy(r: Run, s: Snap) {
    r.status == Success && (r.snap == Some(s) || r.base == Some(s) || r.fullAnchor == Some(s))
  }

  /** A successful run names the snapshot, as its own, as its base, or as its chain's full. */
  ghost predicate Named(runs: seq<Run>, s: Snap) {
    exists i :: 0 <= i < |runs| && NamedBy(runs[i], s)
  }

  ghost predicate NewestTwo(pool: set<Snap>, s: Snap) {
    !exists a, b :: a in pool && b in pool && a.ds == s.ds && b.ds == s.ds && s.ts < a.ts < b.ts
  }

  /** What `_prune_old_anchors` decides to destroy after writing `keep`. */
  ghost function Prunable(runs: seq<Run>, pool: set<Snap>, keep: Snap): set<Snap> {
    set s | s in pool && s.ds == keep.ds && s != keep && !NewestTwo(pool, s) && !Named(runs, s)
  }

  lemma OldestExists(todo: set<Snap>)
    requires todo != {}
    ensures exists s :: s in todo && forall t :: t in todo ==> s.ts <= t.ts
  {
    var s :| s in todo;
    if todo != {s} {
      OldestExists(todo - {s});
      var u :| u in todo - {s} && forall t :: t in todo - {s} ==> u.ts <= t.ts;
      var m := if s.ts <= u.ts then s else u;
      assert forall t :: t in todo ==> m.ts <= t.ts;
    }
  }

  ghost function Oldest(todo: set<Snap>): (s: Snap)
    requires todo != {}
    ensures s in todo && forall t :: t in todo ==> s.ts <= t.ts
  {
    OldestExists(todo);
    var s :| s in todo && forall t :: t in todo ==> s.ts <= t.ts;
    s
  }

  function FileOf(r: Run): StreamFile
    requires r.snap.Some?
  {
    StreamFile(r.ds, r.kind, r.snap.value.ts)
  }

  /** The manifest entry `_record_manifest` writes for a run. */
  function EntryOf(r: Run): Entry
    requires r.snap.Some?
  {
    Entry(FileOf(r), r.kind, r.snap.value, r.base, r.fullAnchor, r.at, r.disk, r.set_)
  }

  // ── Steps ───────────────────────────────────────────────────────────────

  function Goto(w: World, i: nat, pc: Pc): World {
    w.(flight := w.flight[i := pc])
  }

  function Done(w: World, i: nat): World {
    w.(flight := w.flight - {i})
  }

  function Commit(w: World, i: nat, r: Run): World
    requires i < |w.runs|
  {
    w.(runs := w.runs[i := r])
  }

  /** The `except` block: the row is committed as failed and the write ends. */
  function Fail(w: World, i: nat, r: Run): World
    requires i < |w.runs|
  {
    Done(Commit(w, i, r.(status := Failed)), i)
  }

  function Destroy(w: World, s: Snap, stuck: set<Snap>): World {
    if s in stuck then w else w.(pool := w.pool - {s})
  }

  function PutStream(w: World, d: DiskId, f: StreamFile, st: Stream): World
    requires d in w.volumes
  {
    w.(volumes := w.volumes[d := w.volumes[d].(streams := w.volumes[d].streams[f := st])])
  }

  function Unlink(w: World, d: DiskId, f: StreamFile): World
    requires d in w.volumes
  {
    w.(volumes := w.volumes[d := w.volumes[d].(streams := w.volumes[d].streams - {f})])
  }

  function Promote(r: Run, kind: Kind): Run {
    r.(kind := kind, promoted := r.promoted || (r.kind.Incremental? && kind.Full?))
  }

  function Fits(env: Env): bool {
    env.free.Some? && env.free.value >= env.needed
  }

  predicate CanTick(w: World, i: nat) {
    && i in w.flight && i < |w.runs| && w.runs[i].disk in w.volumes
    && (w.flight[i].Start? || w.flight[i].Resolved? || w.flight[i].Snapped? || w.runs[i].snap.Some?)
  }

  /** The next durable effect of write i. A refused write waits for the session to decide. */
  ghost function Tick(w: World, i: nat, env: Env): World
    requires CanTick(w, i)
  {
    var r := w.runs[i];
    match w.flight[i]
    case Start =>
      if MountFails in env.faults then Fail(w, i, r)
      else if r.kind.Full? then Goto(w, i, Resolved(Full, None, None))
      else
        var base := SetAnchor(w, r.ds, r.set_, AnchorListingFails !in env.faults);
        if base.None? then Goto(w, i, Resolved(Full, None, None))
        else Goto(w, i, Resolved(Incremental, base, FullAnchor(w.runs, |w.runs|, r.ds, r.set_)))
    case Resolved(kind, base, full) =>
      if r.snap.Some? && r.snap.value in w.pool && LookupFails !in env.faults then
        Goto(Commit(w, i, Promote(r, kind)), i, Captured(base, full))
      else
        var s := Snap(r.ds, w.clock);
        var w' := w.(clock := w.clock + 1);
        if SnapshotRaises in env.faults then Fail(w', i, Promote(r, kind))
        else Goto(w'.(pool := w.pool + {s}), i, Snapped(kind, base, full, s))
    case Snapped(kind, base, full, s) =>
      Goto(Commit(w, i, Promote(r, kind).(snap := Some(s))), i, Captured(base, full))
    case Captured(base, full) =>
      if r.kind.Incremental? && base.Some? && !env.changed then
        Goto(Commit(w, i, r.(status := Skipped, base := base, fullAnchor := full)), i, Skipping)
      else if PrepareRaises in env.faults then Fail(w, i, r)
      else if !Fits(env) then Goto(Commit(w, i, r.(status := Failed)), i, Refused(env.needed))
      else Goto(Commit(w, i, r.(stream := Some(FileOf(r)))), i, Sending(base, full))
    case Skipping =>
      if SkipRaises in env.faults then Fail(w, i, r)
      else Done(Destroy(w, r.snap.value, env.stuck), i)
    case Refused(_) => w
    case Sending(base, full) =>
      Goto(PutStream(w, r.disk, FileOf(r), Partial), i, Streaming(base, full))
    case Streaming(base, full) =>
      if SendRaises in env.faults then Fail(w, i, r)
      else if env.sendOk && r.snap.value in w.pool && (base.Some? ==> base.value in w.pool) then
        Goto(PutStream(w, r.disk, FileOf(r), Complete(base, r.snap.value)), i, Sent(base, full))
      else Goto(Unlink(w, r.disk, FileOf(r)), i, Discarding)
    case Discarding => Goto(Destroy(w, r.snap.value, env.stuck), i, Closing)
    case Closing => Fail(w, i, r)
    case Sent(base, full) =>
      var won := r.(base := base, fullAnchor := full, status := Success, at := w.clock);
      Goto(Commit(w.(clock := w.clock + 1), i, won), i, Listing)
    case Listing =>
      if PruneListingRaises in env.faults then Fail(w, i, r)
      else if PruneListingFails in env.faults then Goto(w, i, Saving)
      else Goto(w, i, Pruning(Prunable(w.runs, w.pool, r.snap.value)))
    case Pruning(todo) =>
      if todo == {} then Goto(w, i, Saving)
      else if Oldest(todo) in env.balks then Fail(w, i, r)
      else Goto(Destroy(w, Oldest(todo), env.stuck), i, Pruning(todo - {Oldest(todo)}))
    case Saving =>
      if SaveFails in env.faults then Done(w, i)
      else
        var v := w.volumes[r.disk];
        var m := Upsert(Scan(v, Walk(v.sidecars)), r.ds, EntryOf(r));
        Goto(w.(volumes := w.volumes[r.disk := v.(index := Some(m))]), i, Indexed)
    case Indexed =>
      if SidecarFails in env.faults then Done(w, i)
      else
        var v := w.volumes[r.disk];
        var e := EntryOf(r);
        Done(w.(volumes := w.volumes[r.disk := v.(sidecars := v.sidecars[e.file := e])]), i)
  }

  // ── The whole system ────────────────────────────────────────────────────

  datatype Action =
    | Begin(ds: Dataset, set_: SetId, disk: DiskId, kind: Kind)
    | Effect(i: nat, env: Env)
    | Retry(i: nat, disk: DiskId)
    | Abandon(i: nat)
    | AddDisk(disk: DiskId, set_: SetId)
    | Crash
    | Interrupt(rows: set<nat>)
    | Recover(stuck: set<Snap>)

  function FreshRun(ds: Dataset, set_: SetId, disk: DiskId, kind: Kind): Run {
    Run(ds, set_, disk, kind, false, None, None, None, None, Running, 0)
  }

  /** No unfinished write of the dataset: a dataset is in one group and a group runs one session. */
  ghost predicate Idle(w: World, ds: Dataset) {
    forall i :: 0 <= i < |w.runs| && (w.runs[i].status == Running || i in w.flight) ==> w.runs[i].ds != ds
  }

  ghost predicate Enabled(w: World, a: Action) {
    match a
    case Begin(ds, set_, disk, kind) =>
      ds != "" && disk in w.volumes && disk in w.owner && w.owner[disk] == set_ && Idle(w, ds)
    case Effect(i, env) => CanTick(w, i)
    case Retry(i, disk) =>
      && i in w.flight && i < |w.runs| && w.flight[i].Refused?
      && disk in w.volumes && disk in w.owner && w.owner[disk] == w.runs[i].set_
    case Abandon(i) => i in w.flight && w.flight[i].Refused?
    case AddDisk(disk, set_) => disk !in w.volumes && disk !in w.owner
    case Crash => true
    case Interrupt(rows) => w.flight == map[] && forall i :: i in rows ==> i < |w.runs| && w.runs[i].status == Running
    case Recover(stuck) => w.flight == map[]
  }

  ghost function Dropped(w: World, rows: set<nat>): set<Snap>
    requires forall i :: i in rows ==> i < |w.runs|
  {
    set i | i in rows && w.runs[i].snap.Some? :: w.runs[i].snap.value
  }

  function Unfinished(w: World): set<nat> {
    set i | 0 <= i < |w.runs| && w.runs[i].status == Running
  }

  function Closed(r: Run): Run {
    if r.status == Running then r.(status := Failed) else r
  }

  /** `recover_orphaned_backups`: drop the snapshots of running rows, then commit them all as failed. */
  ghost function Recovered(w: World, stuck: set<Snap>): World {
    w.(runs := seq(|w.runs|, i requires 0 <= i < |w.runs| => Closed(w.runs[i])),
       pool := w.pool - (Dropped(w, Unfinished(w)) - stuck))
  }

  ghost function Apply(w: World, a: Action): World {
    if !Enabled(w, a) then w
    else
      match a
      case Begin(ds, set_, disk, kind) =>
        w.(runs := w.runs + [FreshRun(ds, set_, disk, kind)], flight := w.flight[|w.runs| := Start])
      case Effect(i, env) => Tick(w, i, env)
      case Retry(i, disk) => Goto(Commit(w, i, w.runs[i].(disk := disk, status := Running)), i, Start)
      case Abandon(i) => Done(w, i)
      case AddDisk(disk, set_) =>
        w.(volumes := w.volumes[disk := Volume(map[], None, map[])], owner := w.owner[disk := set_])
      case Crash => w.(flight := map[])
      case Interrupt(rows) => w.(pool := w.pool - Dropped(w, rows))
      case Recover(stuck) => Recovered(w, stuck)
  }

  ghost function Play(w: World, acts: seq<Action>): World {
    if acts == [] then w else Apply(Play(w, acts[..|acts| - 1]), acts[|acts| - 1])
  }

  /** A fresh installation: no runs, no snapshots, no disks. */
  const FRESH := World([], {}, map[], map[], 0, map[])
}

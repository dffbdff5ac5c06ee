/** A run, once recorded on its medium, stays recorded: later writes, crashes and recoveries lose no entry. */
module Recording {
  import opened Streams
  import opened Manifest
  import opened Protocol
  import opened Invariants
  import opened Steps
  import opened Safety

  /** The run got into its volume's index or beside its stream. */
  ghost predicate Recorded(w: World, r: Run) {
    r.snap.Some? && r.disk in w.volumes && Holds(w.volumes[r.disk], EntryOf(r))
  }

  /** Saving the scanned index with a new entry in it forgets no entry that is compatible with it. */
  lemma SaveForgetsNothing(v: Volume, e: Entry, order: seq<Entry>, all: set<Entry>, x: Entry)
    requires SoundVolume(v, all) && Lists(order, v.sidecars) && e in all && x in all
    requires x == e || Holds(v, x)
    ensures Holds(v.(index := Some(Upsert(Scan(v, order), e.file.ds, e))), x)
  {
    var m := Upsert(Scan(v, order), e.file.ds, e);
    ScanIsUnion(v, order, all, x.file.ds);
    UpsertRowElements(Rows(Scan(v, order), e.file.ds), e);
    assert Compatible(x, e);
    assert Rows(m, x.file.ds)
        == if x.file.ds == e.file.ds then UpsertRow(Rows(Scan(v, order), e.file.ds), e) else Rows(Scan(v, order), x.file.ds);
  }

  /** Putting a sidecar beside its stream forgets no compatible entry. */
  lemma SidecarForgetsNothing(v: Volume, e: Entry, x: Entry)
    requires Beside(v.sidecars) && Compatible(x, e) && (x == e || Holds(v, x))
    ensures Holds(v.(sidecars := v.sidecars[e.file := e]), x)
  {
    SidecarReplaced(v.sidecars, e);
  }

  lemma EntryKnown(w: World, k: nat)
    requires k < |w.runs| && w.runs[k].status == Success && w.runs[k].snap.Some?
    ensures EntryOf(w.runs[k]) in Entries(w.runs)
  {
  }

  ghost function WithIndex(v: Volume, e: Entry): Volume {
    v.(index := Some(Upsert(Scan(v, Walk(v.sidecars)), e.file.ds, e)))
  }

  lemma {:induction false} SavingTick(w: World, i: nat, env: Env)
    requires CanTick(w, i) && w.flight[i].Saving? && SaveFails !in env.faults
    ensures var d := w.runs[i].disk;
            Tick(w, i, env) == Goto(w.(volumes := w.volumes[d := WithIndex(w.volumes[d], EntryOf(w.runs[i]))]), i, Indexed)
  {
  }

  lemma {:induction false} IndexHolds(w: World, i: nat, k: nat)
    requires Inv(w) && CanTick(w, i) && w.flight[i].Saving?
    requires k < |w.runs| && w.runs[k].status == Success && w.runs[k].snap.Some?
    requires k == i || Recorded(w, w.runs[k])
    ensures w.runs[k].disk in w.volumes
    ensures w.runs[k].disk == w.runs[i].disk ==>
              Holds(WithIndex(w.volumes[w.runs[i].disk], EntryOf(w.runs[i])), EntryOf(w.runs[k]))
  {
    var r := w.runs[i];
    assert PcOk(w, i, w.flight[i]);
    EntryKnown(w, i);
    EntryKnown(w, k);
    MediumSound(w, r.disk);
    if w.runs[k].disk == r.disk {
      SaveForgetsNothing(w.volumes[r.disk], EntryOf(r), Walk(w.volumes[r.disk].sidecars), Entries(w.runs), EntryOf(w.runs[k]));
    }
  }

  lemma {:induction false} SavingKeepsRecords(w: World, i: nat, env: Env, k: nat)
    requires Inv(w) && CanTick(w, i) && w.flight[i].Saving? && SaveFails !in env.faults
    requires k < |w.runs| && w.runs[k].status == Success && w.runs[k].snap.Some?
    requires k == i || Recorded(w, w.runs[k])
    ensures Recorded(Tick(w, i, env), w.runs[k])
  {
    SavingTick(w, i, env);
    IndexHolds(w, i, k);
    RecordedStill(w, w.runs[i].disk, WithIndex(w.volumes[w.runs[i].disk], EntryOf(w.runs[i])), w.runs[k]);
  }

  /** A new content of one medium that still holds the run's entry, if the run is on it. */
  lemma {:induction false} RecordedStill(w: World, d: DiskId, v: Volume, x: Run)
    requires x.snap.Some? && x.disk in w.volumes && if x.disk == d then Holds(v, EntryOf(x)) else Recorded(w, x)
    ensures Recorded(w.(volumes := w.volumes[d := v]), x)
  {
  }

  function WithSidecar(v: Volume, e: Entry): Volume {
    v.(sidecars := v.sidecars[e.file := e])
  }

  lemma {:induction false} IndexedTick(w: World, i: nat, env: Env)
    requires CanTick(w, i) && w.flight[i].Indexed?
    ensures var d := w.runs[i].disk;
            Tick(w, i, env) == Done(if SidecarFails in env.faults then w
                                    else w.(volumes := w.volumes[d := WithSidecar(w.volumes[d], EntryOf(w.runs[i]))]), i)
  {
  }

  lemma {:induction false} SidecarKeepsRecords(w: World, i: nat, env: Env, k: nat)
    requires Inv(w) && CanTick(w, i) && w.flight[i].Indexed?
    requires k < |w.runs| && w.runs[k].status == Success && Recorded(w, w.runs[k])
    ensures Recorded(Tick(w, i, env), w.runs[k])
  {
    IndexedTick(w, i, env);
    if SidecarFails !in env.faults {
      SidecarHolds(w, i, k);
      RecordedStill(w, w.runs[i].disk, WithSidecar(w.volumes[w.runs[i].disk], EntryOf(w.runs[i])), w.runs[k]);
    }
  }

  lemma {:induction false} SidecarHolds(w: World, i: nat, k: nat)
    requires Inv(w) && CanTick(w, i) && w.flight[i].Indexed?
    requires k < |w.runs| && w.runs[k].status == Success && Recorded(w, w.runs[k])
    ensures w.runs[k].disk == w.runs[i].disk ==>
              Holds(WithSidecar(w.volumes[w.runs[i].disk], EntryOf(w.runs[i])), EntryOf(w.runs[k]))
  {
    var r := w.runs[i];
    assert PcOk(w, i, w.flight[i]);
    EntryKnown(w, i);
    EntryKnown(w, k);
    MediumSound(w, r.disk);
    if w.runs[k].disk == r.disk {
      SidecarForgetsNothing(w.volumes[r.disk], EntryOf(r), EntryOf(w.runs[k]));
    }
  }

  /** What a volume says does not depend on the streams it carries. */
  lemma TickSaysTheSame(w: World, i: nat, env: Env, d: DiskId, e: Entry)
    requires CanTick(w, i) && !w.flight[i].Saving? && !w.flight[i].Indexed? && d in w.volumes
    ensures d in Tick(w, i, env).volumes && (Holds(Tick(w, i, env).volumes[d], e) <==> Holds(w.volumes[d], e))
  {
    assert Tick(w, i, env).volumes[d].index == w.volumes[d].index;
    assert Tick(w, i, env).volumes[d].sidecars == w.volumes[d].sidecars;
  }

  /** No action takes a record away from the medium of a successful run. */
  lemma {:induction false} RecordsStay(w: World, a: Action, k: nat)
    requires Inv(w) && k < |w.runs| && w.runs[k].status == Success && Recorded(w, w.runs[k])
    ensures Recorded(Apply(w, a), w.runs[k])
  {
    if a.Effect? && CanTick(w, a.i) {
      TickKeepsRecords(w, a.i, a.env, k);
    }
  }

  lemma {:induction false} TickKeepsRecords(w: World, i: nat, env: Env, k: nat)
    requires Inv(w) && CanTick(w, i) && k < |w.runs| && w.runs[k].status == Success && Recorded(w, w.runs[k])
    ensures Recorded(Tick(w, i, env), w.runs[k])
  {
    if w.flight[i].Saving? && SaveFails !in env.faults {
      SavingKeepsRecords(w, i, env, k);
    } else if w.flight[i].Indexed? {
      SidecarKeepsRecords(w, i, env, k);
    } else if !w.flight[i].Saving? {
      TickSaysTheSame(w, i, env, w.runs[k].disk, EntryOf(w.runs[k]));
    }
  }

  /** A success gets recorded exactly when saving the index works, or an earlier attempt had recorded it. */
  lemma SaveRecordsExactly(w: World, i: nat, env: Env)
    requires Inv(w) && CanTick(w, i) && w.flight[i].Saving?
    ensures Recorded(Tick(w, i, env), w.runs[i]) <==> SaveFails !in env.faults || Recorded(w, w.runs[i])
  {
    assert PcOk(w, i, w.flight[i]);
    if SaveFails !in env.faults {
      SavingKeepsRecords(w, i, env, i);
    }
  }
}

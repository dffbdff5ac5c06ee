/** Every action of the backup protocol keeps the invariant, so every reachable state has it. */
module Steps {
  import opened Streams
  import opened Manifest
  import opened Protocol
  import opened Invariants

  // ── Moving a write on ───────────────────────────────────────────────────

  /** The standing of a write does not depend on where the others stand. */
  lemma FlightFrame(w: World, w': World, j: nat, pc: Pc)
    requires w' == w.(flight := w'.flight) && Core(w) && j < |w.runs| && PcOk(w, j, pc)
    ensures PcOk(w', j, pc)
  {
    assert RowOk(w, w.runs[j]);
    PcFrame(w, w', j, pc);
  }

  lemma FlightCore(w: World, w': World)
    requires w' == w.(flight := w'.flight) && Core(w)
    requires forall j :: j in w'.flight ==> NewestOfDataset(w, j)
    ensures Core(w')
  {
    forall k | 0 <= k < |w'.runs| ensures RowOk(w', w'.runs[k]) {
      assert RowOk(w, w.runs[k]);
    }
    forall d, e | d in w'.volumes && Holds(w'.volumes[d], e) ensures IsEntry(w', d, e) {
      assert IsEntry(w, d, e);
    }
  }

  lemma MoveOn(w: World, i: nat, pc: Pc)
    requires Others(w, i) && NewestOfDataset(w, i) && PcOk(w, i, pc)
    ensures Inv(Goto(w, i, pc))
  {
    var w' := Goto(w, i, pc);
    FlightCore(w, w');
    forall j | j in w'.flight ensures PcOk(w', j, w'.flight[j]) {
      if j != i { assert w'.flight[j] == w.flight[j]; }
      FlightFrame(w, w', j, w'.flight[j]);
    }
  }

  lemma Ended(w: World, i: nat)
    requires Others(w, i)
    ensures Inv(Done(w, i))
  {
    var w' := Done(w, i);
    FlightCore(w, w');
    forall j | j in w'.flight ensures PcOk(w', j, w'.flight[j]) {
      FlightFrame(w, w', j, w.flight[j]);
    }
  }

  lemma KeepsPlace(w: World, i: nat, r: Run)
    requires OrderOk(w) && i < |w.runs| && r.ds == w.runs[i].ds && r.snap == w.runs[i].snap
    ensures FitsBehind(w, i, r)
  {
    forall k | 0 <= k < i && w.runs[k].ds == r.ds && w.runs[k].snap.Some? && r.snap.Some?
      ensures w.runs[k].snap.value.ts < r.snap.value.ts
    {
      assert Ordered(w.runs[k], w.runs[i]);
    }
  }

  /** The `except` block, also when it takes back the success of a run whose prune raised. */
  lemma GaveUp(w: World, i: nat, r: Run, clock: nat)
    requires Others(w, i) && NewestOfDataset(w, i) && clock >= w.clock
    requires w.runs[i].status != Success || Unrecorded(w, w.runs[i])
    requires r == w.runs[i] || exists kind :: r == Promote(w.runs[i], kind)
    ensures Inv(Fail(w.(clock := clock), i, r))
  {
    assert RowOk(w, w.runs[i]);
    KeepsPlace(w, i, r.(status := Failed));
    RowChange(w, i, r.(status := Failed), clock);
    Ended(Commit(w.(clock := clock), i, r.(status := Failed)), i);
  }

  /** Changing the row of an unfinished write without touching its snapshot. */
  lemma RowMoves(w: World, i: nat, r: Run, pc: Pc)
    requires Others(w, i) && NewestOfDataset(w, i)
    requires w.runs[i].status != Success && r.status != Success
    requires r.ds == w.runs[i].ds && r.set_ == w.runs[i].set_ && r.snap == w.runs[i].snap
    requires r.disk in w.volumes && r.disk in w.owner && w.owner[r.disk] == r.set_
    requires PcOk(Commit(w, i, r), i, pc)
    ensures Inv(Goto(Commit(w, i, r), i, pc))
  {
    assert RowOk(w, w.runs[i]);
    KeepsPlace(w, i, r);
    RowChange(w, i, r, w.clock);
    MoveOn(Commit(w, i, r), i, pc);
  }

  lemma AnchoredInOwnRow(w: World, i: nat, r: Run, kind: Kind, base: Option<Snap>, full: Option<Snap>)
    requires i < |w.runs| && Anchored(w, i, kind, base, full)
    requires r.ds == w.runs[i].ds && r.set_ == w.runs[i].set_
    ensures Anchored(Commit(w, i, r), i, kind, base, full)
  {
    QueriesFrame(w.runs, w.runs[i := r], i, r.ds, r.set_);
  }

  // ── What each step does ─────────────────────────────────────────────────

  lemma ResolvedTick(w: World, i: nat, env: Env, kind: Kind, base: Option<Snap>, full: Option<Snap>)
    requires CanTick(w, i) && w.flight[i] == Resolved(kind, base, full)
    ensures var r, s := Promote(w.runs[i], kind), Snap(w.runs[i].ds, w.clock);
            Tick(w, i, env)
            == if w.runs[i].snap.Some? && w.runs[i].snap.value in w.pool && LookupFails !in env.faults then Goto(Commit(w, i, r), i, Captured(base, full))
               else if SnapshotRaises in env.faults then Fail(w.(clock := w.clock + 1), i, r)
               else Goto(w.(clock := w.clock + 1, pool := w.pool + {s}), i, Snapped(kind, base, full, s))
  {
  }

  lemma SnappedTick(w: World, i: nat, env: Env, kind: Kind, base: Option<Snap>, full: Option<Snap>, s: Snap)
    requires CanTick(w, i) && w.flight[i] == Snapped(kind, base, full, s)
    ensures Tick(w, i, env) == Goto(Commit(w, i, Promote(w.runs[i], kind).(snap := Some(s))), i, Captured(base, full))
  {
  }

  lemma CapturedTick(w: World, i: nat, env: Env, base: Option<Snap>, full: Option<Snap>)
    requires CanTick(w, i) && w.flight[i] == Captured(base, full)
    ensures var r := w.runs[i];
            Tick(w, i, env)
            == if r.kind.Incremental? && base.Some? && !env.changed
               then Goto(Commit(w, i, r.(status := Skipped, base := base, fullAnchor := full)), i, Skipping)
               else if PrepareRaises in env.faults then Fail(w, i, r)
               else if !Fits(env) then Goto(Commit(w, i, r.(status := Failed)), i, Refused(env.needed))
               else Goto(Commit(w, i, r.(stream := Some(FileOf(r)))), i, Sending(base, full))
  {
  }

  lemma SendingTick(w: World, i: nat, env: Env, base: Option<Snap>, full: Option<Snap>)
    requires CanTick(w, i) && w.flight[i] == Sending(base, full)
    ensures Tick(w, i, env) == Goto(PutStream(w, w.runs[i].disk, FileOf(w.runs[i]), Partial), i, Streaming(base, full))
  {
  }

  lemma StreamingTick(w: World, i: nat, env: Env, base: Option<Snap>, full: Option<Snap>)
    requires CanTick(w, i) && w.flight[i] == Streaming(base, full)
    ensures var r := w.runs[i];
            Tick(w, i, env)
            == if SendRaises in env.faults then Fail(w, i, r)
               else if env.sendOk && r.snap.value in w.pool && (base.Some? ==> base.value in w.pool)
               then Goto(PutStream(w, r.disk, FileOf(r), Complete(base, r.snap.value)), i, Sent(base, full))
               else Goto(Unlink(w, r.disk, FileOf(r)), i, Discarding)
  {
  }

  lemma ListingTick(w: World, i: nat, env: Env)
    requires CanTick(w, i) && w.flight[i] == Listing
    ensures Tick(w, i, env)
            == if PruneListingRaises in env.faults then Fail(w, i, w.runs[i])
               else if PruneListingFails in env.faults then Goto(w, i, Saving)
               else Goto(w, i, Pruning(Prunable(w.runs, w.pool, w.runs[i].snap.value)))
  {
  }

  lemma PruningTick(w: World, i: nat, env: Env, s: Snap, todo: set<Snap>)
    requires CanTick(w, i) && w.flight[i] == Pruning(todo) && todo != {} && Oldest(todo) == s
    ensures Tick(w, i, env)
            == if s in env.balks then Fail(w, i, w.runs[i]) else Goto(Destroy(w, s, env.stuck), i, Pruning(todo - {s}))
  {
  }

  // ── One step of a write ─────────────────────────────────────────────────

  lemma StartStep(w: World, i: nat, env: Env)
    requires Inv(w) && CanTick(w, i) && w.flight[i].Start?
    ensures Inv(Tick(w, i, env))
  {
    var r := w.runs[i];
    if MountFails in env.faults {
      GaveUp(w, i, r, w.clock);
    } else {
      NewestQueries(w, i, r.set_);
      MoveOn(w, i, Tick(w, i, env).flight[i]);
    }
  }

  lemma ResolvedStep(w: World, i: nat, env: Env)
    requires Inv(w) && CanTick(w, i) && w.flight[i].Resolved?
    ensures Inv(Tick(w, i, env))
  {
    hide Tick, Inv;
    var Resolved(kind, base, full) := w.flight[i];
    ResolvedTick(w, i, env, kind, base, full);
    if w.runs[i].snap.Some? && w.runs[i].snap.value in w.pool && LookupFails !in env.faults {
      SnapshotReused(w, i, kind, base, full);
    } else if SnapshotRaises in env.faults {
      SnapshotRaised(w, i, kind);
    } else {
      SnapshotTaken(w, i, kind, base, full);
    }
  }

  lemma SnapshotReused(w: World, i: nat, kind: Kind, base: Option<Snap>, full: Option<Snap>)
    requires Inv(w) && CanTick(w, i) && w.flight[i] == Resolved(kind, base, full)
    requires w.runs[i].snap.Some? && w.runs[i].snap.value in w.pool
    ensures Inv(Goto(Commit(w, i, Promote(w.runs[i], kind)), i, Captured(base, full)))
  {
    assert RowOk(w, w.runs[i]);
    AnchoredInOwnRow(w, i, Promote(w.runs[i], kind), kind, base, full);
    RowMoves(w, i, Promote(w.runs[i], kind), Captured(base, full));
  }

  lemma SnapshotRaised(w: World, i: nat, kind: Kind)
    requires Inv(w) && CanTick(w, i) && w.flight[i].Resolved?
    ensures Inv(Fail(w.(clock := w.clock + 1), i, Promote(w.runs[i], kind)))
  {
    GaveUp(w, i, Promote(w.runs[i], kind), w.clock + 1);
  }

  lemma SnapshotTaken(w: World, i: nat, kind: Kind, base: Option<Snap>, full: Option<Snap>)
    requires Inv(w) && CanTick(w, i) && w.flight[i] == Resolved(kind, base, full)
    ensures var s := Snap(w.runs[i].ds, w.clock);
            Inv(Goto(w.(clock := w.clock + 1, pool := w.pool + {s}), i, Snapped(kind, base, full, s)))
  {
    var r := w.runs[i];
    var s := Snap(r.ds, w.clock);
    var w' := w.(clock := w.clock + 1, pool := w.pool + {s});
    Snapshotted(w, i);
    AnchoredFrame(w, w', i, kind, base, full);
    forall k | 0 <= k < |w.runs| && w.runs[k].ds == r.ds && w.runs[k].snap.Some?
      ensures w.runs[k].snap.value.ts < s.ts
    {
      assert RowOk(w, w.runs[k]);
    }
    MoveOn(w', i, Snapped(kind, base, full, s));
  }

  lemma SnappedStep(w: World, i: nat, env: Env)
    requires Inv(w) && CanTick(w, i) && w.flight[i].Snapped?
    ensures Inv(Tick(w, i, env))
  {
    hide Tick;
    SnappedTick(w, i, env, w.flight[i].kind, w.flight[i].base, w.flight[i].full, w.flight[i].snap);
    var Snapped(kind, base, full, s) := w.flight[i];
    var r := Promote(w.runs[i], kind).(snap := Some(s));
    assert RowOk(w, w.runs[i]);
    RowChange(w, i, r, w.clock);
    AnchoredInOwnRow(w, i, r, kind, base, full);
    MoveOn(Commit(w, i, r), i, Captured(base, full));
  }

  lemma {:induction false} CapturedStep(w: World, i: nat, env: Env)
    requires Inv(w) && CanTick(w, i) && w.flight[i].Captured?
    ensures Inv(Tick(w, i, env))
  {
    hide Tick;
    CapturedTick(w, i, env, w.flight[i].base, w.flight[i].full);
    var r := w.runs[i];
    var Captured(base, full) := w.flight[i];
    assert RowOk(w, r);
    if r.kind.Incremental? && base.Some? && !env.changed {
      RowMoves(w, i, r.(status := Skipped, base := base, fullAnchor := full), Skipping);
    } else if PrepareRaises in env.faults {
      GaveUp(w, i, r, w.clock);
    } else if !Fits(env) {
      RowMoves(w, i, r.(status := Failed), Refused(env.needed));
    } else {
      var r' := r.(stream := Some(FileOf(r)));
      AnchoredInOwnRow(w, i, r', r.kind, base, full);
      RowMoves(w, i, r', Sending(base, full));
    }
  }

  lemma OwnSnapDropped(w: World, i: nat, stuck: set<Snap>)
    requires Others(w, i) && NewestOfDataset(w, i) && w.runs[i].snap.Some? && w.runs[i].status != Success
    ensures Others(Destroy(w, w.runs[i].snap.value, stuck), i)
  {
    assert RowOk(w, w.runs[i]);
    OwnSnapUnprotected(w, i);
    Destroyed(w, i, w.runs[i].snap.value, stuck);
  }

  lemma {:induction false} SkippingStep(w: World, i: nat, env: Env)
    requires Inv(w) && CanTick(w, i) && w.flight[i].Skipping?
    ensures Inv(Tick(w, i, env))
  {
    assert PcOk(w, i, w.flight[i]);
    if SkipRaises in env.faults {
      GaveUp(w, i, w.runs[i], w.clock);
    } else {
      OwnSnapDropped(w, i, env.stuck);
      Ended(Destroy(w, w.runs[i].snap.value, env.stuck), i);
    }
  }

  lemma {:induction false} DiscardingStep(w: World, i: nat, env: Env)
    requires Inv(w) && CanTick(w, i) && w.flight[i].Discarding?
    ensures Inv(Tick(w, i, env))
  {
    assert PcOk(w, i, w.flight[i]);
    OwnSnapDropped(w, i, env.stuck);
    MoveOn(Destroy(w, w.runs[i].snap.value, env.stuck), i, Closing);
  }

  lemma {:induction false} ClosingStep(w: World, i: nat, env: Env)
    requires Inv(w) && CanTick(w, i) && w.flight[i].Closing?
    ensures Inv(Tick(w, i, env))
  {
    assert PcOk(w, i, w.flight[i]);
    GaveUp(w, i, w.runs[i], w.clock);
  }

  lemma SendingStep(w: World, i: nat, env: Env)
    requires Inv(w) && CanTick(w, i) && w.flight[i].Sending?
    ensures Inv(Tick(w, i, env))
  {
    hide Tick;
    SendingTick(w, i, env, w.flight[i].base, w.flight[i].full);
    var r := w.runs[i];
    var Sending(base, full) := w.flight[i];
    var streams := w.volumes[r.disk].streams[FileOf(r) := Partial];
    assert RowOk(w, r);
    StreamChange(w, i, streams);
    AnchoredFrame(w, PutStreams(w, r.disk, streams), i, r.kind, base, full);
    MoveOn(PutStreams(w, r.disk, streams), i, Streaming(base, full));
  }

  lemma {:induction false} StreamingStep(w: World, i: nat, env: Env)
    requires Inv(w) && CanTick(w, i) && w.flight[i].Streaming?
    ensures Inv(Tick(w, i, env))
  {
    hide Tick;
    StreamingTick(w, i, env, w.flight[i].base, w.flight[i].full);
    var r := w.runs[i];
    var Streaming(base, full) := w.flight[i];
    assert RowOk(w, r);
    if SendRaises in env.faults {
      GaveUp(w, i, r, w.clock);
    } else if env.sendOk && r.snap.value in w.pool && (base.Some? ==> base.value in w.pool) {
      StreamWhole(w, i, base, full);
    } else {
      StreamUnlinked(w, i, base, full);
    }
  }

  lemma {:induction false} StreamUnlinked(w: World, i: nat, base: Option<Snap>, full: Option<Snap>)
    requires Inv(w) && CanTick(w, i) && w.flight[i] == Streaming(base, full) && w.runs[i].snap.Some?
    ensures Inv(Goto(Unlink(w, w.runs[i].disk, FileOf(w.runs[i])), i, Discarding))
  {
    var r := w.runs[i];
    var streams := w.volumes[r.disk].streams - {FileOf(r)};
    StreamChange(w, i, streams);
    MoveOn(PutStreams(w, r.disk, streams), i, Discarding);
  }

  lemma {:induction false} StreamWhole(w: World, i: nat, base: Option<Snap>, full: Option<Snap>)
    requires Inv(w) && CanTick(w, i) && w.flight[i] == Streaming(base, full) && w.runs[i].snap.Some?
    ensures Inv(Goto(PutStream(w, w.runs[i].disk, FileOf(w.runs[i]), Complete(base, w.runs[i].snap.value)), i, Sent(base, full)))
  {
    var r := w.runs[i];
    var streams := w.volumes[r.disk].streams[FileOf(r) := Complete(base, r.snap.value)];
    StreamChange(w, i, streams);
    AnchoredFrame(w, PutStreams(w, r.disk, streams), i, r.kind, base, full);
    MoveOn(PutStreams(w, r.disk, streams), i, Sent(base, full));
  }

  lemma StillUnrecorded(w: World, i: nat, r: Run, clock: nat)
    requires Core(w) && i < |w.runs| && w.runs[i].snap.Some? && w.runs[i].status != Success
    requires r.snap == w.runs[i].snap && FileOf(r) == FileOf(w.runs[i])
    ensures Unrecorded(Commit(w.(clock := clock), i, r), r)
  {
    NotYetRecorded(w, i);
  }

  lemma WinStep(w: World, i: nat, env: Env)
    requires Inv(w) && CanTick(w, i) && w.flight[i].Sent?
    ensures Inv(Tick(w, i, env))
  {
    var base, full := w.flight[i].base, w.flight[i].full;
    var won := w.runs[i].(base := base, fullAnchor := full, status := Success, at := w.clock);
    WinTick(w, i, env, won);
    WinReady(w, i, won);
    WinStepAs(w, i, won, base, full);
  }

  lemma WinTick(w: World, i: nat, env: Env, won: Run)
    requires CanTick(w, i) && w.flight[i].Sent?
    requires won == w.runs[i].(base := w.flight[i].base, fullAnchor := w.flight[i].full, status := Success, at := w.clock)
    ensures Tick(w, i, env) == Goto(Commit(w.(clock := w.clock + 1), i, won), i, Listing)
  {
  }

  lemma WinReady(w: World, i: nat, won: Run)
    requires Inv(w) && CanTick(w, i) && w.flight[i].Sent?
    requires won == w.runs[i].(base := w.flight[i].base, fullAnchor := w.flight[i].full, status := Success, at := w.clock)
    ensures Winning(w, i, won, w.flight[i].base, w.flight[i].full)
  {
    assert PcOk(w, i, w.flight[i]);
  }

  lemma {:induction false} WinStepAs(w: World, i: nat, won: Run, base: Option<Snap>, full: Option<Snap>)
    requires Others(w, i) && Winning(w, i, won, base, full)
    ensures Inv(Goto(Commit(w.(clock := w.clock + 1), i, won), i, Listing))
  {
    StillUnrecorded(w, i, won, w.clock + 1);
    Won(w, i, won, base, full);
    MoveOn(Commit(w.(clock := w.clock + 1), i, won), i, Listing);
  }

  lemma TakenBack(w: World, i: nat)
    requires Inv(w) && i in w.flight && Unrecorded(w, w.runs[i])
    ensures Inv(Fail(w, i, w.runs[i]))
  {
    GaveUp(w, i, w.runs[i], w.clock);
  }

  lemma PrunableUnprotected(w: World, keep: Snap)
    ensures forall s :: s in Prunable(w.runs, w.pool, keep) ==> s.ds == keep.ds && Unprotected(w, s)
  {
    forall s | s in Prunable(w.runs, w.pool, keep) ensures Unprotected(w, s) {
      assert !Named(w.runs, s);
    }
  }

  lemma {:induction false} ListingStep(w: World, i: nat, env: Env)
    requires Inv(w) && CanTick(w, i) && w.flight[i].Listing?
    ensures Inv(Tick(w, i, env))
  {
    hide Tick;
    ListingTick(w, i, env);
    if PruneListingRaises in env.faults {
      TakenBack(w, i);
    } else if PruneListingFails in env.faults {
      MoveOn(w, i, Saving);
    } else {
      PrunePlanned(w, i);
    }
  }

  lemma {:induction false} PrunePlanned(w: World, i: nat)
    requires Inv(w) && CanTick(w, i) && w.flight[i].Listing?
    ensures Inv(Goto(w, i, Pruning(Prunable(w.runs, w.pool, w.runs[i].snap.value))))
  {
    assert RowOk(w, w.runs[i]) && PcOk(w, i, w.flight[i]);
    PrunableUnprotected(w, w.runs[i].snap.value);
    MoveOn(w, i, Pruning(Prunable(w.runs, w.pool, w.runs[i].snap.value)));
  }

  lemma {:induction false} PruneStep(w: World, i: nat, env: Env)
    requires Inv(w) && CanTick(w, i) && w.flight[i].Pruning?
    ensures Inv(Tick(w, i, env))
  {
    var todo := w.flight[i].todo;
    if todo == {} {
      MoveOn(w, i, Saving);
    } else if Oldest(todo) in env.balks {
      TakenBack(w, i);
    } else {
      Destroyed(w, i, Oldest(todo), env.stuck);
      MoveOn(Destroy(w, Oldest(todo), env.stuck), i, Pruning(todo - {Oldest(todo)}));
    }
  }

  lemma RecordStep(w: World, i: nat, env: Env)
    requires Inv(w) && CanTick(w, i) && (w.flight[i].Saving? || w.flight[i].Indexed?)
    ensures Inv(Tick(w, i, env))
  {
    var r := w.runs[i];
    assert RowOk(w, r);
    if w.flight[i].Saving? {
      if SaveFails in env.faults {
        Ended(w, i);
      } else {
        IndexSaved(w, i);
        var v := w.volumes[r.disk];
        var m := Upsert(Scan(v, Walk(v.sidecars)), r.ds, EntryOf(r));
        MoveOn(w.(volumes := w.volumes[r.disk := v.(index := Some(m))]), i, Indexed);
      }
    } else {
      if SidecarFails in env.faults {
        Ended(w, i);
      } else {
        SidecarSaved(w, i);
        var v := w.volumes[r.disk];
        Ended(w.(volumes := w.volumes[r.disk := v.(sidecars := v.sidecars[EntryOf(r).file := EntryOf(r)])]), i);
      }
    }
  }

  lemma TickKeepsInv(w: World, i: nat, env: Env)
    requires Inv(w) && CanTick(w, i)
    ensures Inv(Tick(w, i, env))
  {
    match w.flight[i]
    case Start => StartStep(w, i, env);
    case Resolved(_, _, _) => ResolvedStep(w, i, env);
    case Snapped(_, _, _, _) => SnappedStep(w, i, env);
    case Captured(_, _) => CapturedStep(w, i, env);
    case Skipping => SkippingStep(w, i, env);
    case Refused(_) =>
    case Sending(_, _) => SendingStep(w, i, env);
    case Streaming(_, _) => StreamingStep(w, i, env);
    case Discarding => DiscardingStep(w, i, env);
    case Closing => ClosingStep(w, i, env);
    case Sent(_, _) => WinStep(w, i, env);
    case Listing => ListingStep(w, i, env);
    case Pruning(_) => PruneStep(w, i, env);
    case Saving => RecordStep(w, i, env);
    case Indexed => RecordStep(w, i, env);
  }

  // ── The other actions ───────────────────────────────────────────────────

  /** One row, running, is added behind the table. */
  ghost predicate Appended(w: World, w': World, r: Run) {
    && w' == w.(runs := w.runs + [r], flight := w.flight[|w.runs| := Start])
    && r.status == Running && r.snap.None? && RowOk(w, r) && Idle(w, r.ds)
  }

  lemma AppendRows(w: World, w': World, r: Run)
    requires Inv(w) && Appended(w, w', r)
    ensures RowsOk(w') && OrderOk(w') && NewestOk(w')
  {
    forall k | 0 <= k < |w'.runs| ensures RowOk(w', w'.runs[k]) {
      if k < |w.runs| { assert RowOk(w, w.runs[k]); }
    }
    forall a, b | 0 <= a < b < |w'.runs| ensures Ordered(w'.runs[a], w'.runs[b]) {
      if b < |w.runs| { assert Ordered(w.runs[a], w.runs[b]); }
    }
    forall i | 0 <= i < |w.runs| && (i in w.flight || w.runs[i].status == Running)
      ensures NewestOfDataset(w', i)
    {
      assert NewestOfDataset(w, i);
    }
  }

  lemma AppendLinks(w: World, w': World, r: Run)
    requires LinksOk(w) && Appended(w, w', r)
    ensures LinksOk(w')
  {
    forall k | 0 <= k < |w'.runs| && w'.runs[k].status == Success ensures Link(w'.runs, k) {
      LinkFrame(w.runs, w'.runs, k);
    }
  }

  lemma AppendMedia(w: World, w': World, r: Run)
    requires MediaOk(w) && Appended(w, w', r)
    ensures MediaOk(w')
  {
    forall d, e | d in w'.volumes && Holds(w'.volumes[d], e) ensures IsEntry(w', d, e) {
      assert IsEntry(w, d, e);
      var k :| 0 <= k < |w.runs| && w.runs[k].status == Success && w.runs[k].snap.Some?
               && w.runs[k].disk == d && e == EntryOf(w.runs[k]);
      assert w'.runs[k] == w.runs[k];
    }
  }

  lemma AppendFlight(w: World, w': World, r: Run, j: nat)
    requires Inv(w) && Appended(w, w', r) && RowsOk(w') && j in w.flight
    ensures PcOk(w', j, w.flight[j])
  {
    assert NewestOfDataset(w, j);
    PcFrame(w, w', j, w.flight[j]);
  }

  lemma BeginKeepsInv(w: World, ds: Dataset, set_: SetId, disk: DiskId, kind: Kind)
    requires Inv(w) && Enabled(w, Begin(ds, set_, disk, kind))
    ensures Inv(Apply(w, Begin(ds, set_, disk, kind)))
  {
    var w' := Apply(w, Begin(ds, set_, disk, kind));
    var r := FreshRun(ds, set_, disk, kind);
    AppendRows(w, w', r);
    AppendLinks(w, w', r);
    AppendMedia(w, w', r);
    forall j | j in w'.flight ensures PcOk(w', j, w'.flight[j]) {
      if j != |w.runs| { AppendFlight(w, w', r, j); }
    }
  }

  lemma RetryKeepsInv(w: World, i: nat, disk: DiskId)
    requires Inv(w) && Enabled(w, Retry(i, disk))
    ensures Inv(Apply(w, Retry(i, disk)))
  {
    RowMoves(w, i, w.runs[i].(disk := disk, status := Running), Start);
  }

  lemma {:induction false} AddDiskRows(w: World, disk: DiskId, set_: SetId)
    requires RowsOk(w) && Enabled(w, AddDisk(disk, set_))
    ensures RowsOk(Apply(w, AddDisk(disk, set_)))
  {
    var w' := Apply(w, AddDisk(disk, set_));
    forall k | 0 <= k < |w'.runs| ensures RowOk(w', w'.runs[k]) {
      assert RowOk(w, w.runs[k]);
    }
  }

  lemma {:induction false} AddDiskMedia(w: World, disk: DiskId, set_: SetId)
    requires MediaOk(w) && Enabled(w, AddDisk(disk, set_))
    ensures MediaOk(Apply(w, AddDisk(disk, set_)))
  {
    var w' := Apply(w, AddDisk(disk, set_));
    forall d, e | d in w'.volumes && Holds(w'.volumes[d], e) ensures IsEntry(w', d, e) {
      assert d != disk;
      assert IsEntry(w, d, e);
    }
  }

  lemma {:induction false} AddDiskCore(w: World, disk: DiskId, set_: SetId)
    requires Core(w) && Enabled(w, AddDisk(disk, set_))
    ensures Core(Apply(w, AddDisk(disk, set_)))
  {
    AddDiskRows(w, disk, set_);
    AddDiskMedia(w, disk, set_);
    NewestKept(w, Apply(w, AddDisk(disk, set_)));
  }

  lemma AddDiskView(w: World, disk: DiskId, set_: SetId, ds: Dataset)
    requires Enabled(w, AddDisk(disk, set_))
    ensures SameView(w, Apply(w, AddDisk(disk, set_)), ds)
  {
  }

  lemma AddDiskFrame(w: World, w': World, disk: DiskId, set_: SetId, j: nat)
    requires RowsOk(w) && Enabled(w, AddDisk(disk, set_)) && w' == Apply(w, AddDisk(disk, set_))
    requires j in w.flight && j < |w.runs| && PcOk(w, j, w.flight[j])
    ensures PcOk(w', j, w.flight[j])
  {
    hide PcOk, SameView;
    assert RowOk(w, w.runs[j]);
    assert SnapsNameDatasets(w') by {
      forall k | 0 <= k < |w'.runs| && w'.runs[k].snap.Some? ensures w'.runs[k].snap.value.ds == w'.runs[k].ds {
        assert RowOk(w, w.runs[k]);
      }
    }
    AddDiskView(w, disk, set_, w.runs[j].ds);
    PcFrame(w, w', j, w.flight[j]);
  }

  lemma AddDiskKeepsInv(w: World, disk: DiskId, set_: SetId)
    requires Inv(w) && Enabled(w, AddDisk(disk, set_))
    ensures Inv(Apply(w, AddDisk(disk, set_)))
  {
    hide PcOk;
    var w' := Apply(w, AddDisk(disk, set_));
    AddDiskCore(w, disk, set_);
    forall j | j in w'.flight ensures j < |w'.runs| && PcOk(w', j, w'.flight[j]) {
      assert NewestOfDataset(w, j);
      AddDiskFrame(w, w', disk, set_, j);
    }
  }

  lemma CrashKeepsInv(w: World)
    requires Inv(w)
    ensures Inv(w.(flight := map[]))
  {
  }

  /** Snapshots of running rows are nobody's, so dropping any of them keeps the invariant. */
  lemma DropKeepsInv(w: World, drop: set<Snap>)
    requires Inv(w) && w.flight == map[]
    requires forall s :: s in drop ==> Unprotected(w, s)
    ensures Inv(w.(pool := w.pool - drop))
  {
    var w' := w.(pool := w.pool - drop);
    forall k | 0 <= k < |w'.runs| ensures RowOk(w', w'.runs[k]) {
      assert RowOk(w, w.runs[k]);
    }
    forall d, e | d in w'.volumes && Holds(w'.volumes[d], e) ensures IsEntry(w', d, e) {
      assert IsEntry(w, d, e);
    }
  }

  lemma DroppedUnprotected(w: World, rows: set<nat>)
    requires Inv(w) && forall i :: i in rows ==> i < |w.runs| && w.runs[i].status == Running
    ensures forall s :: s in Dropped(w, rows) ==> Unprotected(w, s)
  {
    forall s | s in Dropped(w, rows) ensures Unprotected(w, s) {
      var i :| i in rows && w.runs[i].snap.Some? && s == w.runs[i].snap.value;
      OwnSnapUnprotected(w, i);
    }
  }

  ghost function ClosedWorld(w: World): World {
    w.(runs := seq(|w.runs|, i requires 0 <= i < |w.runs| => Closed(w.runs[i])))
  }

  lemma {:induction false} ClosedRows(w: World)
    requires RowsOk(w) && OrderOk(w)
    ensures RowsOk(ClosedWorld(w)) && OrderOk(ClosedWorld(w))
  {
    var w' := ClosedWorld(w);
    forall k | 0 <= k < |w'.runs| ensures RowOk(w', w'.runs[k]) {
      assert RowOk(w, w.runs[k]);
    }
    forall a, b | 0 <= a < b < |w'.runs| ensures Ordered(w'.runs[a], w'.runs[b]) {
      assert Ordered(w.runs[a], w.runs[b]);
    }
  }

  lemma {:induction false} ClosedLinks(w: World)
    requires LinksOk(w)
    ensures LinksOk(ClosedWorld(w))
  {
    var w' := ClosedWorld(w);
    forall k | 0 <= k < |w'.runs| && w'.runs[k].status == Success ensures Link(w'.runs, k) {
      ClosedQueries(w, k, w.runs[k].ds, w.runs[k].set_);
      assert Link(w.runs, k);
    }
  }

  lemma {:induction false} ClosedMedia(w: World)
    requires MediaOk(w)
    ensures MediaOk(ClosedWorld(w))
  {
    var w' := ClosedWorld(w);
    forall d, e | d in w'.volumes && Holds(w'.volumes[d], e) ensures IsEntry(w', d, e) {
      assert IsEntry(w, d, e);
      var k :| 0 <= k < |w.runs| && w.runs[k].status == Success && w.runs[k].snap.Some?
               && w.runs[k].disk == d && e == EntryOf(w.runs[k]);
      assert w'.runs[k] == w.runs[k];
    }
  }

  /** Closing every running row changes no successful row and no link. */
  lemma {:induction false} CloseKeepsInv(w: World)
    requires Inv(w) && w.flight == map[]
    ensures Inv(ClosedWorld(w))
  {
    ClosedRows(w);
    ClosedLinks(w);
    ClosedMedia(w);
  }

  lemma {:induction false} ClosedQueries(w: World, n: nat, ds: Dataset, set_: SetId)
    requires n <= |w.runs|
    ensures Last(ClosedWorld(w).runs, n, ds, set_) == Last(w.runs, n, ds, set_)
    ensures FirstFull(ClosedWorld(w).runs, n, ds, set_) == FirstFull(w.runs, n, ds, set_)
    ensures FullAnchor(ClosedWorld(w).runs, n, ds, set_) == FullAnchor(w.runs, n, ds, set_)
  {
    if n > 0 {
      ClosedQueries(w, n - 1, ds, set_);
    }
  }

  lemma RecoverKeepsInv(w: World, stuck: set<Snap>)
    requires Inv(w) && w.flight == map[]
    ensures Inv(Recovered(w, stuck))
  {
    DroppedUnprotected(w, Unfinished(w));
    var w' := w.(pool := w.pool - (Dropped(w, Unfinished(w)) - stuck));
    DropKeepsInv(w, Dropped(w, Unfinished(w)) - stuck);
    CloseKeepsInv(w');
    assert ClosedWorld(w') == Recovered(w, stuck);
  }

  lemma ApplyKeepsInv(w: World, a: Action)
    requires Inv(w)
    ensures Inv(Apply(w, a))
  {
    if Enabled(w, a) {
      match a
      case Begin(ds, set_, disk, kind) => BeginKeepsInv(w, ds, set_, disk, kind);
      case Effect(i, env) => TickKeepsInv(w, i, env);
      case Retry(i, disk) => RetryKeepsInv(w, i, disk);
      case Abandon(i) => Ended(w, i);
      case AddDisk(disk, set_) => AddDiskKeepsInv(w, disk, set_);
      case Crash => CrashKeepsInv(w);
      case Interrupt(rows) => DroppedUnprotected(w, rows); DropKeepsInv(w, Dropped(w, rows));
      case Recover(stuck) => RecoverKeepsInv(w, stuck);
    }
  }

  /** The invariant holds in every state the system can reach, whatever fails and wherever it crashes. */
  lemma {:induction false} ReachableInv(acts: seq<Action>)
    ensures Inv(Play(FRESH, acts))
  {
    if acts != [] {
      ReachableInv(acts[..|acts| - 1]);
      ApplyKeepsInv(Play(FRESH, acts[..|acts| - 1]), acts[|acts| - 1]);
    }
  }
}

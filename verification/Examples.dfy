/**
 * The states that show what the protocol does not promise: a chain whose listing fails, a prune that raises,
 * a crash between a snapshot and its row. All are reached from a fresh installation.
 */
module Examples {
  import opened Streams
  import opened Manifest
  import opened Protocol
  import opened Safety
  import opened EndToEnd

  /** Every command works, and the disk has room. */
  const FINE := Env({}, true, 0, Some(0), true, {}, {})

  const SNAP := Snap("a", 0)

  /** The first write: a full of dataset "a" on disk 1 of set 1. */
  function FirstRow(): Run {
    FreshRun("a", 1, 1, Full)
  }

  const FILE := StreamFile("a", Full, 0)

  function Snapshotted(): Run {
    FirstRow().(snap := Some(SNAP))
  }

  function Opened(): Run {
    FirstRow().(snap := Some(SNAP), stream := Some(FILE))
  }

  function Stored(): Run {
    Opened().(status := Success, at := 1)
  }

  function Disk(streams: map<StreamFile, Stream>): World {
    World([], {}, map[1 := Volume(streams, None, map[])], map[1 := 1], 0, map[])
  }

  /** One run in the table, standing there. */
  function OneRun(r: Run, pool: set<Snap>, clock: nat, streams: map<StreamFile, Stream>, pc: Pc): World {
    Disk(streams).(runs := [r], pool := pool, clock := clock, flight := map[0 := pc])
  }

  lemma Onward(w: World, a: Action)
    requires Reachable(w)
    ensures Reachable(Apply(w, a))
  {
    var acts :| w == Play(FRESH, acts);
    assert (acts + [a])[..|acts|] == acts;
    assert Apply(w, a) == Play(FRESH, acts + [a]);
  }

  lemma Begins()
    ensures Reachable(OneRun(FirstRow(), {}, 0, map[], Start))
  {
    assert FRESH == Play(FRESH, []);
    Onward(FRESH, AddDisk(1, 1));
    assert Apply(FRESH, AddDisk(1, 1)) == Disk(map[]);
    Onward(Disk(map[]), Begin("a", 1, 1, Full));
    assert Apply(Disk(map[]), Begin("a", 1, 1, Full)) == OneRun(FirstRow(), {}, 0, map[], Start);
  }

  lemma OneStep(w: World, env: Env, w': World)
    requires Reachable(w) && CanTick(w, 0) && Tick(w, 0, env) == w'
    ensures Reachable(w')
  {
    assert Enabled(w, Effect(0, env));
    Onward(w, Effect(0, env));
  }

  /** The snapshot is taken, and its name is in no row yet. */
  function Taken(): World {
    OneRun(FirstRow(), {SNAP}, 1, map[], Snapped(Full, None, None, SNAP))
  }

  lemma TakesSnapshot()
    ensures Reachable(Taken())
  {
    Begins();
    OneStep(OneRun(FirstRow(), {}, 0, map[], Start), FINE, OneRun(FirstRow(), {}, 0, map[], Resolved(Full, None, None)));
    OneStep(OneRun(FirstRow(), {}, 0, map[], Resolved(Full, None, None)), FINE, Taken());
  }

  /** A crash there leaks the snapshot. */
  lemma CrashLeakShows()
    ensures Reachable(Taken()) && SNAP in Restarted(Taken(), {}).pool && !Interrupted(Taken(), SNAP)
  {
    TakesSnapshot();
    ReachableIsSound(Taken());
    CrashLeaksExactly(Taken(), 0);
    CrashAnywhere(Taken(), {});
  }

  /** The stream is whole and the row says success; pruning is next. */
  function Committed(): World {
    OneRun(Stored(), {SNAP}, 2, map[FILE := Complete(None, SNAP)], Listing)
  }

  function Torn(): World {
    OneRun(Opened(), {SNAP}, 1, map[FILE := Partial], Streaming(None, None))
  }

  function Whole(): World {
    OneRun(Opened(), {SNAP}, 1, map[FILE := Complete(None, SNAP)], Sent(None, None))
  }

  lemma Sends()
    ensures Reachable(Torn())
  {
    TakesSnapshot();
    var captured := OneRun(Snapshotted(), {SNAP}, 1, map[], Captured(None, None));
    var ready := OneRun(Opened(), {SNAP}, 1, map[], Sending(None, None));
    OneStep(Taken(), FINE, captured);
    OneStep(captured, FINE, ready);
    OneStep(ready, FINE, Torn());
  }

  lemma SendEnds()
    ensures CanTick(Torn(), 0) && Tick(Torn(), 0, FINE) == Whole()
  {
    assert FileOf(Opened()) == FILE && SNAP in Torn().pool && FINE.sendOk;
    var torn: map<StreamFile, Stream> := map[FILE := Partial];
    assert torn[FILE := Complete(None, SNAP)] == map[FILE := Complete(None, SNAP)];
  }

  lemma Commits()
    ensures Reachable(Committed())
  {
    Sends();
    SendEnds();
    OneStep(Torn(), FINE, Whole());
    OneStep(Whole(), FINE, Committed());
  }

  /** If the listing for the prune raises there, the success is taken back. */
  lemma SuccessLossShows()
    ensures Reachable(Committed()) && Committed().runs[0].status == Success
    ensures Apply(Committed(), Effect(0, FINE.(faults := {PruneListingRaises}))).runs[0].status == Failed
  {
    Commits();
    assert Enabled(Committed(), Effect(0, FINE.(faults := {PruneListingRaises})));
  }

  /** The chain has its full, nothing of it recorded, and an incremental of the same dataset begins. */
  function NextBegun(): World {
    Disk(map[FILE := Complete(None, SNAP)]).(
    runs := [Stored(), FreshRun("a", 1, 1, Incremental)], pool := {SNAP}, clock := 2, flight := map[1 := Start])
  }

  lemma NextBegins()
    ensures Reachable(NextBegun())
  {
    Commits();
    var saving := OneRun(Stored(), {SNAP}, 2, map[FILE := Complete(None, SNAP)], Saving);
    var over := saving.(flight := map[]);
    OneStep(Committed(), FINE.(faults := {PruneListingFails}), saving);
    OneStep(saving, FINE.(faults := {SaveFails}), over);
    Onward(over, Begin("a", 1, 1, Incremental));
    assert Enabled(over, Begin("a", 1, 1, Incremental));
    assert Apply(over, Begin("a", 1, 1, Incremental)) == NextBegun();
  }

  /** It becomes a full if the listing fails, although its set has the chain. */
  lemma PromotionShows()
    ensures Reachable(NextBegun()) && Chain(NextBegun().runs, 2, "a", 1) == [Stored()]
    ensures CanTick(NextBegun(), 1)
    ensures Tick(NextBegun(), 1, FINE.(faults := {AnchorListingFails})).flight == map[1 := Resolved(Full, None, None)]
    ensures Tick(NextBegun(), 1, FINE).flight == map[1 := Resolved(Incremental, Some(SNAP), Some(SNAP))]
  {
    NextBegins();
    var runs := NextBegun().runs;
    assert !Good(runs[1], "a", 1) && Good(runs[0], "a", 1);
    assert Chain(runs, 1, "a", 1) == [Stored()];
    assert Last(runs, 1, "a", 1) == Some(0) && Last(runs, 2, "a", 1) == Some(0);
    assert FirstFull(runs, 0, "a", 1) == None && FirstFull(runs, 1, "a", 1) == Some(0) && FirstFull(runs, 2, "a", 1) == Some(0);
  }
}

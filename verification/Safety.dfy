/** What the invariant means for the chains, the snapshots and recovery. */
module Safety {
  import opened Streams
  import opened Manifest
  import opened Protocol
  import opened Invariants
  import opened Steps

  // ── Linked chains ───────────────────────────────────────────────────────

  /** The successful runs of (dataset, set) among the first n rows, in id order. */
  function Chain(runs: seq<Run>, n: nat, ds: Dataset, set_: SetId): (c: seq<Run>)
    requires n <= |runs|
    ensures forall r :: r in c ==> Good(r, ds, set_)
  {
    if n == 0 then []
    else
      var before := Chain(runs, n - 1, ds, set_);
      if Good(runs[n - 1], ds, set_) then before + [runs[n - 1]] else before
  }

  /** A chain starts with a full, and each incremental builds on the snapshot just before it. */
  ghost predicate Linked(c: seq<Run>) {
    forall k :: 0 <= k < |c| ==> LinkedAt(c, k)
  }

  ghost predicate InOrder(c: seq<Run>) {
    forall a, b :: 0 <= a < b < |c| ==> c[a].at < c[b].at
  }

  lemma {:induction false} ChainEndsInLast(runs: seq<Run>, n: nat, ds: Dataset, set_: SetId)
    requires n <= |runs|
    ensures Last(runs, n, ds, set_).None? <==> Chain(runs, n, ds, set_) == []
    ensures var j := Last(runs, n, ds, set_); var c := Chain(runs, n, ds, set_);
            j.Some? ==> c[|c| - 1] == runs[j.value]
  {
    if n > 0 {
      ChainEndsInLast(runs, n - 1, ds, set_);
    }
  }

  lemma {:induction false} ChainMembers(runs: seq<Run>, n: nat, ds: Dataset, set_: SetId)
    requires n <= |runs|
    ensures forall r :: r in Chain(runs, n, ds, set_) <==> exists k :: 0 <= k < n && r == runs[k] && Good(r, ds, set_)
  {
    if n > 0 {
      ChainMembers(runs, n - 1, ds, set_);
      forall r | true
        ensures r in Chain(runs, n, ds, set_) <==> exists k :: 0 <= k < n && r == runs[k] && Good(r, ds, set_)
      {
        if r == runs[n - 1] && Good(r, ds, set_) {
          assert 0 <= n - 1 < n && r == runs[n - 1];
        }
      }
    }
  }

  ghost predicate LinkedAt(c: seq<Run>, k: nat)
    requires k < |c|
  {
    if c[k].kind.Full? then c[k].base.None?
    else k > 0 && c[k].base == c[k - 1].snap
  }

  lemma {:induction false} ChainLinked(w: World, n: nat, ds: Dataset, set_: SetId)
    requires LinksOk(w) && n <= |w.runs|
    ensures Linked(Chain(w.runs, n, ds, set_))
  {
    if n > 0 {
      ChainLinked(w, n - 1, ds, set_);
      ChainEndsInLast(w.runs, n - 1, ds, set_);
      var before, r := Chain(w.runs, n - 1, ds, set_), w.runs[n - 1];
      if Good(r, ds, set_) {
        assert Link(w.runs, n - 1);
        var c := Chain(w.runs, n, ds, set_);
        assert c == before + [r];
        forall k | 0 <= k < |c| ensures LinkedAt(c, k) {
          if k < |before| {
            assert LinkedAt(before, k);
          } else {
            assert c[k] == r;
          }
        }
      }
    }
  }

  lemma {:induction false} FirstFullIsHead(w: World, n: nat, ds: Dataset, set_: SetId)
    requires LinksOk(w) && n <= |w.runs|
    ensures var c := Chain(w.runs, n, ds, set_);
            FullAnchor(w.runs, n, ds, set_) == if c == [] then None else c[0].snap
    ensures FirstFull(w.runs, n, ds, set_).Some? <==> Chain(w.runs, n, ds, set_) != []
  {
    if n > 0 {
      FirstFullIsHead(w, n - 1, ds, set_);
      ChainEndsInLast(w.runs, n - 1, ds, set_);
      if Good(w.runs[n - 1], ds, set_) { assert Link(w.runs, n - 1); }
    }
  }

  lemma {:induction false} ChainInOrder(w: World, n: nat, ds: Dataset, set_: SetId)
    requires OrderOk(w) && n <= |w.runs|
    ensures InOrder(Chain(w.runs, n, ds, set_))
  {
    if n > 0 {
      ChainInOrder(w, n - 1, ds, set_);
      var before := Chain(w.runs, n - 1, ds, set_);
      var r := w.runs[n - 1];
      if Good(r, ds, set_) {
        ChainMembers(w.runs, n - 1, ds, set_);
        forall a | 0 <= a < |before| ensures before[a].at < r.at {
          assert before[a] in before;
          var k :| 0 <= k < n - 1 && before[a] == w.runs[k];
          assert Ordered(w.runs[k], r);
        }
      }
    }
  }

  /** Every chain of every reachable state is linked, and was completed in id order. */
  lemma ReachableChainsLinked(acts: seq<Action>, ds: Dataset, set_: SetId)
    ensures var w := Play(FRESH, acts);
            Linked(Chain(w.runs, |w.runs|, ds, set_)) && InOrder(Chain(w.runs, |w.runs|, ds, set_))
  {
    ReachableInv(acts);
    ChainLinked(Play(FRESH, acts), |Play(FRESH, acts).runs|, ds, set_);
    ChainInOrder(Play(FRESH, acts), |Play(FRESH, acts).runs|, ds, set_);
  }

  // ── Snapshots ───────────────────────────────────────────────────────────

  /** Whatever a successful run names is the own snapshot of a successful run. */
  lemma NamedIsOwn(w: World, s: Snap)
    requires Inv(w) && Named(w.runs, s)
    ensures !Unprotected(w, s) && s in w.pool
  {
    var k :| 0 <= k < |w.runs| && NamedBy(w.runs[k], s);
    var r := w.runs[k];
    assert Link(w.runs, k) && RowOk(w, r);
    if r.snap != Some(s) {
      var l := if r.base == Some(s) then Last(w.runs, k, r.ds, r.set_) else FirstFull(w.runs, k, r.ds, r.set_);
      assert w.runs[l.value].snap == Some(s);
      assert RowOk(w, w.runs[l.value]);
    }
  }

  /** Only a discarded snapshot of the write itself, or one its prune chose, ever leaves the pool. */
  lemma TickDrops(w: World, i: nat, env: Env, s: Snap)
    requires CanTick(w, i) && s in w.pool && s !in Tick(w, i, env).pool
    ensures Tick(w, i, env).runs == w.runs
    ensures ((w.flight[i].Skipping? || w.flight[i].Discarding?) && w.runs[i].snap == Some(s))
            || (w.flight[i].Pruning? && s in w.flight[i].todo)
  {
  }

  lemma TickDropsUnprotected(w: World, i: nat, env: Env, s: Snap)
    requires Inv(w) && CanTick(w, i) && s in w.pool && s !in Tick(w, i, env).pool
    ensures Unprotected(w, s)
  {
    TickDrops(w, i, env, s);
    assert PcOk(w, i, w.flight[i]);
    if !w.flight[i].Pruning? {
      OwnSnapUnprotected(w, i);
    }
  }

  lemma ActionDropsUnprotected(w: World, a: Action, s: Snap)
    requires Inv(w)
    ensures s in w.pool && s !in Apply(w, a).pool ==> Unprotected(w, s)
  {
    if s in w.pool && s !in Apply(w, a).pool {
      match a
      case Effect(i, env) => TickDropsUnprotected(w, i, env, s);
      case Interrupt(rows) => DroppedUnprotected(w, rows);
      case Recover(stuck) => DroppedUnprotected(w, Unfinished(w));
      case _ =>
    }
  }

  /** No step destroys a snapshot a successful run names, and none it destroys is named afterwards. */
  lemma NothingNamedDestroyed(w: World, a: Action, s: Snap)
    requires Inv(w)
    ensures s in w.pool && s !in Apply(w, a).pool ==> !Named(w.runs, s) && !Named(Apply(w, a).runs, s)
  {
    ActionDropsUnprotected(w, a, s);
    if Named(w.runs, s) {
      NamedIsOwn(w, s);
    }
    ApplyKeepsInv(w, a);
    var w' := Apply(w, a);
    if Named(w'.runs, s) {
      NamedIsOwn(w', s);
    }
  }

  /** The anchor of every set stays in the pool: it is missed only when the listing itself fails. */
  lemma AnchorExact(w: World, ds: Dataset, set_: SetId, lists: bool)
    requires Inv(w)
    ensures var c := Chain(w.runs, |w.runs|, ds, set_);
            SetAnchor(w, ds, set_, lists) == if lists && c != [] then c[|c| - 1].snap else None
  {
    ChainEndsInLast(w.runs, |w.runs|, ds, set_);
    var j := Last(w.runs, |w.runs|, ds, set_);
    if j.Some? {
      assert RowOk(w, w.runs[j.value]);
    }
  }

  /** An incremental is promoted exactly when its set has no successful run, or the listing failed. */
  lemma PromotedExactly(w: World, i: nat, env: Env)
    requires Inv(w) && CanTick(w, i) && w.flight[i].Start? && w.runs[i].kind.Incremental?
    requires MountFails !in env.faults
    ensures var r := w.runs[i];
            var pc := Tick(w, i, env).flight[i];
            && pc.Resolved?
            && (pc.kind.Full? <==> AnchorListingFails in env.faults || Chain(w.runs, |w.runs|, r.ds, r.set_) == [])
  {
    AnchorExact(w, w.runs[i].ds, w.runs[i].set_, AnchorListingFails !in env.faults);
    ChainEndsInLast(w.runs, |w.runs|, w.runs[i].ds, w.runs[i].set_);
  }

  /** A send never fails for want of its snapshot or its base: only the command itself can fail. */
  lemma SendHasItsSnapshots(w: World, i: nat, env: Env)
    requires Inv(w) && CanTick(w, i) && w.flight[i].Streaming?
    ensures Tick(w, i, env).flight != w.flight && i in Tick(w, i, env).flight && Tick(w, i, env).flight[i].Sent?
            <==> env.sendOk && SendRaises !in env.faults
  {
    assert PcOk(w, i, w.flight[i]);
    var j := Last(w.runs, i, w.runs[i].ds, w.runs[i].set_);
    if j.Some? {
      assert RowOk(w, w.runs[j.value]);
    }
  }

  /** A snapshot of the dataset that no successful run names is one of its newest two. */
  ghost predicate Tidy(runs: seq<Run>, pool: set<Snap>, ds: Dataset) {
    forall s :: s in pool && s.ds == ds ==> Named(runs, s) || NewestTwo(pool, s)
  }

  /** So it is after a prune whose destroys all worked, behind a run that succeeded. */
  lemma PruneLeavesNewestTwo(runs: seq<Run>, pool: set<Snap>, keep: Snap)
    requires Named(runs, keep)
    ensures Tidy(runs, pool - Prunable(runs, pool, keep), keep.ds)
  {
    forall s | s in pool - Prunable(runs, pool, keep) && s.ds == keep.ds
      ensures Named(runs, s) || NewestTwo(pool - Prunable(runs, pool, keep), s)
    {
    }
  }

  // ── Success is final, but for one window ────────────────────────────────

  ghost predicate PruneRaises(w: World, i: nat, env: Env)
    requires i in w.flight
  {
    || (w.flight[i].Listing? && PruneListingRaises in env.faults)
    || (w.flight[i].Pruning? && w.flight[i].todo != {} && Oldest(w.flight[i].todo) in env.balks)
  }

  lemma {:induction false} LateTickOnSuccess(w: World, i: nat, env: Env, k: nat)
    requires CanTick(w, i) && k < |w.runs| && w.runs[k].status == Success
    requires w.flight[i].Listing? || w.flight[i].Pruning? || w.flight[i].Saving? || w.flight[i].Indexed?
    ensures |Tick(w, i, env).runs| == |w.runs|
    ensures Tick(w, i, env).runs[k] != w.runs[k] <==> i == k && PruneRaises(w, i, env)
  {
  }

  lemma {:induction false} EarlyTickOnSuccess(w: World, i: nat, env: Env, k: nat)
    requires CanTick(w, i) && k < |w.runs| && i != k
    requires !w.flight[i].Listing? && !w.flight[i].Pruning? && !w.flight[i].Saving? && !w.flight[i].Indexed?
    ensures |Tick(w, i, env).runs| == |w.runs| && Tick(w, i, env).runs[k] == w.runs[k]
  {
  }

  lemma {:induction false} TickOnSuccess(w: World, i: nat, env: Env, k: nat)
    requires CanTick(w, i) && k < |w.runs| && w.runs[k].status == Success
    requires i == k ==> w.flight[i].Listing? || w.flight[i].Pruning? || w.flight[i].Saving? || w.flight[i].Indexed?
    ensures |Tick(w, i, env).runs| == |w.runs|
    ensures Tick(w, i, env).runs[k] != w.runs[k] <==> i == k && PruneRaises(w, i, env)
  {
    if w.flight[i].Listing? || w.flight[i].Pruning? || w.flight[i].Saving? || w.flight[i].Indexed? {
      LateTickOnSuccess(w, i, env, k);
    } else {
      EarlyTickOnSuccess(w, i, env, k);
    }
  }

  lemma SuccessStanding(w: World, k: nat)
    requires Inv(w) && k in w.flight && w.runs[k].status == Success
    ensures w.flight[k].Listing? || w.flight[k].Pruning? || w.flight[k].Saving? || w.flight[k].Indexed?
  {
    assert PcOk(w, k, w.flight[k]);
  }

  /** A step changes a successful row exactly when that row's own prune raises. */
  lemma SuccessChangedExactly(w: World, a: Action, k: nat)
    requires Inv(w) && k < |w.runs| && w.runs[k].status == Success
    ensures |Apply(w, a).runs| >= |w.runs|
    ensures Apply(w, a).runs[k] != w.runs[k]
            <==> a.Effect? && a.i == k && k in w.flight && PruneRaises(w, k, a.env)
  {
    if k in w.flight { SuccessStanding(w, k); }
    assert RowOk(w, w.runs[k]);
    if a.Effect? && CanTick(w, a.i) { TickOnSuccess(w, a.i, a.env, k); }
  }

  // ── Crash anywhere ──────────────────────────────────────────────────────

  ghost function Restarted(w: World, stuck: set<Snap>): World {
    Apply(Apply(w, Crash), Recover(stuck))
  }

  ghost predicate Interrupted(w: World, s: Snap) {
    exists k :: 0 <= k < |w.runs| && w.runs[k].status == Running && w.runs[k].snap == Some(s)
  }

  lemma DroppedExactly(w: World, s: Snap)
    ensures s in Dropped(w, Unfinished(w)) <==> Interrupted(w, s)
  {
    var rows := Unfinished(w);
    if s in Dropped(w, rows) {
      var i :| i in rows && w.runs[i].snap.Some? && s == w.runs[i].snap.value;
      assert w.runs[i].snap == Some(s);
    }
    if k :| 0 <= k < |w.runs| && w.runs[k].status == Running && w.runs[k].snap == Some(s) {
      assert k in rows;
    }
  }

  /**
   * Stopping between any two effects and recovering leaves no running row, changes no other row and no
   * medium, drops the interrupted rows' snapshots, and restores the invariant.
   */
  lemma CrashAnywhere(w: World, stuck: set<Snap>)
    requires Inv(w)
    ensures Inv(Restarted(w, stuck)) && Restarted(w, stuck).flight == map[]
    ensures Restarted(w, stuck).volumes == w.volumes && Restarted(w, stuck).owner == w.owner
    ensures |Restarted(w, stuck).runs| == |w.runs|
    ensures forall k :: 0 <= k < |w.runs| ==>
              Restarted(w, stuck).runs[k]
              == if w.runs[k].status == Running then w.runs[k].(status := Failed) else w.runs[k]
    ensures forall s :: s in Restarted(w, stuck).pool <==> s in w.pool && (s in stuck || !Interrupted(w, s))
  {
    ApplyKeepsInv(w, Crash);
    ApplyKeepsInv(Apply(w, Crash), Recover(stuck));
    forall s | true ensures s in Dropped(w, Unfinished(w)) <==> Interrupted(w, s) {
      DroppedExactly(w, s);
    }
    assert Dropped(Apply(w, Crash), Unfinished(Apply(w, Crash))) == Dropped(w, Unfinished(w));
  }

  /** Recovering again does nothing. */
  lemma RecoverTwice(w: World, stuck: set<Snap>, again: set<Snap>)
    requires Inv(w)
    ensures Apply(Restarted(w, stuck), Recover(again)) == Restarted(w, stuck)
  {
    CrashAnywhere(w, stuck);
    var w' := Restarted(w, stuck);
    assert Unfinished(w') == {};
    assert Recovered(w', again).runs == w'.runs;
  }

  /** The snapshot write i has in hand. */
  function InHand(w: World, i: nat): Option<Snap>
    requires i in w.flight && i < |w.runs|
  {
    if w.flight[i].Snapped? then Some(w.flight[i].snap) else w.runs[i].snap
  }

  lemma OrderedIf(w: World, k: nat, i: nat)
    requires OrderOk(w)
    ensures k < i < |w.runs| ==> Ordered(w.runs[k], w.runs[i])
  {
  }

  /** The snapshot in hand is in no running row but its own. */
  lemma InHandIsOwn(w: World, i: nat, k: nat)
    requires Inv(w) && i in w.flight && InHand(w, i).Some?
    requires k < |w.runs| && w.runs[k].status == Running && w.runs[k].snap == InHand(w, i)
    ensures k == i && !w.flight[i].Snapped?
  {
    OrderedIf(w, k, i);
    assert PcOk(w, i, w.flight[i]) && NewestOfDataset(w, i) && RowOk(w, w.runs[k]) && RowOk(w, w.runs[i]);
  }

  /**
   * Which crashes leak: the snapshot in hand outlives recovery exactly when the write had not put its
   * name in the row yet, or had already taken the row out of `running`.
   */
  lemma CrashLeaksExactly(w: World, i: nat)
    requires Inv(w) && i in w.flight && InHand(w, i).Some? && InHand(w, i).value in w.pool
    ensures InHand(w, i).value in Restarted(w, {}).pool
            <==> w.flight[i].Snapped? || w.runs[i].status != Running
  {
    CrashAnywhere(w, {});
    var s := InHand(w, i).value;
    assert NewestOfDataset(w, i);
    if Interrupted(w, s) {
      var k :| 0 <= k < |w.runs| && w.runs[k].status == Running && w.runs[k].snap == Some(s);
      InHandIsOwn(w, i, k);
    }
  }
}

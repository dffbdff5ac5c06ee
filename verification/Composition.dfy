/**
 * A session's writes carried out by the backup protocol: what a session does to the run table is a sequence
 * of the protocol's actions, so what holds in every reachable state holds after any sessions
 * (nazman/services/backup_group_service.py, nazman/managers/zfs_backup_manager.py).
 */
module Composition {
  import opened Streams
  import opened Protocol
  import opened Invariants
  import opened Steps
  import opened Safety
  import opened Manager
  import Manifest
  import Restore
  import EndToEnd
  import Groups
  import Requests
  import Sessions

  type Event = Sessions.Event

  // ── Actions of one write ────────────────────────────────────────────────

  predicate OwnAction(a: Action, i: nat) {
    match a
    case Effect(j, _) => j == i
    case Retry(j, _) => j == i
    case Abandon(j) => j == i
    case _ => false
  }

  /** Everything after the first action is about row i. */
  ghost predicate OwnAfter(acts: seq<Action>, i: nat) {
    forall k :: 1 <= k < |acts| ==> OwnAction(acts[k], i)
  }

  lemma PlayNext(w: World, acts: seq<Action>, a: Action)
    ensures Play(w, acts + [a]) == Apply(Play(w, acts), a)
  {
    assert (acts + [a])[..|acts|] == acts;
  }

  lemma {:induction false} PlayBoth(w: World, acts: seq<Action>, more: seq<Action>)
    ensures Play(Play(w, acts), more) == Play(w, acts + more)
  {
    if more == [] {
      assert acts + more == acts;
    } else {
      PlayBoth(w, acts, more[..|more| - 1]);
      assert (acts + more)[..|acts + more| - 1] == acts + more[..|more| - 1];
    }
  }

  /** What a write's history shows is the protocol played on, one effect a step. */
  function Effects(i: nat, env: Env, n: nat): seq<Action> {
    seq(n, _ => Effect(i, env))
  }

  lemma StepPlays(h: seq<World>, k: nat, i: nat, env: Env, w: World, acts: seq<Action>)
    requires k + 1 < |h| && StepAt(h, k, i, env) && h[k] == Play(w, acts)
    ensures h[k + 1] == Play(w, acts + [Effect(i, env)])
  {
    PlayNext(w, acts, Effect(i, env));
    assert Enabled(h[k], Effect(i, env));
  }

  lemma EffectsNext(i: nat, env: Env, n: nat)
    ensures Effects(i, env, n + 1) == Effects(i, env, n) + [Effect(i, env)]
  {
  }

  lemma {:induction false} FollowsPlays(before: seq<World>, h: seq<World>, i: nat, env: Env, k: nat)
    requires Follows(before, h, i, env) && |before| - 1 <= k < |h|
    ensures h[k] == Play(before[|before| - 1], Effects(i, env, k + 1 - |before|))
    decreases k
  {
    hide Tick, Apply;
    if k == |before| - 1 {
      assert h[k] == h[..|before|][k];
      assert Effects(i, env, 0) == [];
    } else {
      FollowsPlays(before, h, i, env, k - 1);
      StepPlays(h, k - 1, i, env, before[|before| - 1], Effects(i, env, k - |before|));
      EffectsNext(i, env, k - |before|);
    }
  }

  lemma StepsAt(before: seq<World>, h: seq<World>, i: nat, env: Env, k: nat)
    requires Follows(before, h, i, env) && |before| - 1 <= k < |h| - 1
    ensures CanTick(h[k], i) && h[k + 1] == Tick(h[k], i, env)
  {
    assert StepAt(h, k, i, env);
  }

  ghost predicate KeepsVolumes(w: World, w': World) {
    forall d :: d in w.volumes ==> d in w'.volumes
  }

  lemma TickKeepsVolumes(w: World, i: nat, env: Env)
    requires CanTick(w, i)
    ensures KeepsVolumes(w, Tick(w, i, env))
  {
  }

  /** A write stays on its disk. */
  ghost predicate SameDisk(w: World, w': World, i: nat) {
    i < |w.runs| ==> i < |w'.runs| && w'.runs[i].disk == w.runs[i].disk
  }

  lemma TickKeepsDisk(w: World, i: nat, env: Env)
    requires CanTick(w, i)
    ensures SameDisk(w, Tick(w, i, env), i)
  {
  }

  lemma {:induction false} FollowsKeepsDisk(before: seq<World>, h: seq<World>, i: nat, env: Env, k: nat)
    requires Follows(before, h, i, env) && |before| - 1 <= k < |h|
    ensures SameDisk(before[|before| - 1], h[k], i)
    decreases k
  {
    if k == |before| - 1 {
      assert h[k] == h[..|before|][k];
    } else {
      FollowsKeepsDisk(before, h, i, env, k - 1);
      StepsAt(before, h, i, env, k - 1);
      TickKeepsDisk(h[k - 1], i, env);
    }
  }

  lemma OwnLeaves(w: World, a: Action, i: nat)
    requires OwnAction(a, i)
    ensures OthersAlone(w, Apply(w, a), i) && KeepsVolumes(w, Apply(w, a))
  {
    if Enabled(w, a) && a.Effect? {
      TickLeavesOthers(w, i, a.env);
      TickKeepsVolumes(w, i, a.env);
    }
  }

  lemma {:induction false} OwnPlay(w: World, acts: seq<Action>, i: nat)
    requires Inv(w) && forall k :: 0 <= k < |acts| ==> OwnAction(acts[k], i)
    ensures Inv(Play(w, acts)) && OthersAlone(w, Play(w, acts), i) && KeepsVolumes(w, Play(w, acts))
  {
    if acts != [] {
      var init, a := acts[..|acts| - 1], acts[|acts| - 1];
      OwnPlay(w, init, i);
      ApplyKeepsInv(Play(w, init), a);
      OwnLeaves(Play(w, init), a, i);
      AloneOn(w, Play(w, init), Play(w, acts), i);
    }
  }

  // ── One pair carried out ────────────────────────────────────────────────

  function RowStatus(v: Sessions.Verdict): Status {
    match v
    case Stored => Success
    case Unchanged => Skipped
    case Broke => Failed
  }

  /**
   * The pair was carried out from w to w' by the actions of one write, which begins on the disk in use:
   * it has ended, and its row is on the event's disk and says what the event says.
   */
  ghost predicate Enacted(w: World, w': World, e: Event, rec: DiskId, acts: seq<Action>) {
    && acts != [] && acts[0] == Begin(e.dataset, e.set_, rec, e.kind) && Enabled(w, acts[0])
    && OwnAfter(acts, |w.runs|) && w' == Play(w, acts)
    && |w.runs| < |w'.runs| && |w.runs| !in w'.flight
    && w'.runs[|w.runs|].disk == e.disk && w'.runs[|w.runs|].status == RowStatus(e.verdict)
  }

  /** The table has one more row, for the pair. */
  ghost predicate OneMoreRow(w: World, w': World, e: Event) {
    && |w'.runs| == |w.runs| + 1 && w'.runs[..|w.runs|] == w.runs
    && (var r := w'.runs[|w.runs|];
        r.ds == e.dataset && r.set_ == e.set_ && r.disk == e.disk && r.status == RowStatus(e.verdict))
    && w'.flight.Keys == w.flight.Keys && w'.owner == w.owner && KeepsVolumes(w, w')
  }

  /** The chain of (ds, set) has gained the pair's run, if it is the pair's chain and the pair was stored. */
  ghost predicate ChainGains(w: World, w': World, e: Event, ds: Dataset, set_: SetId)
    requires w'.runs != []
  {
    Chain(w'.runs, |w'.runs|, ds, set_)
    == Chain(w.runs, |w.runs|, ds, set_)
       + (if e.verdict.Stored? && ds == e.dataset && set_ == e.set_ then [w'.runs[|w'.runs| - 1]] else [])
  }

  lemma {:induction false} ChainPrefix(runs: seq<Run>, more: seq<Run>, n: nat, ds: Dataset, set_: SetId)
    requires n <= |runs|
    ensures Chain(runs + more, n, ds, set_) == Chain(runs, n, ds, set_)
  {
    if n > 0 { ChainPrefix(runs, more, n - 1, ds, set_); }
  }

  /** The first action of the pair has added its row; what follows is about that row. */
  ghost predicate Begun(w: World, w1: World, e: Event, rec: DiskId) {
    && w1.runs == w.runs + [FreshRun(e.dataset, e.set_, rec, e.kind)] && w1.flight == w.flight[|w.runs| := Start]
    && w1.owner == w.owner && w1.volumes == w.volumes
  }

  lemma EnactedBegins(w: World, w1: World, w': World, e: Event, rec: DiskId, acts: seq<Action>)
    requires Inv(w) && Enacted(w, w', e, rec, acts) && w1 == Apply(w, acts[0])
    ensures Begun(w, w1, e, rec) && Inv(w1) && Inv(w') && OthersAlone(w1, w', |w.runs|) && KeepsVolumes(w1, w')
  {
    ApplyKeepsInv(w, acts[0]);
    assert acts == [acts[0]] + acts[1..];
    assert Play(w, [acts[0]]) == w1 by { PlayNext(w, [], acts[0]); }
    PlayBoth(w, [acts[0]], acts[1..]);
    OwnPlay(w1, acts[1..], |w.runs|);
  }

  lemma RowAdded(w: World, w1: World, w': World, e: Event, rec: DiskId)
    requires Begun(w, w1, e, rec) && OthersAlone(w1, w', |w.runs|) && KeepsVolumes(w1, w') && InTable(w)
    requires |w.runs| !in w'.flight && |w.runs| < |w'.runs|
    requires w'.runs[|w.runs|].disk == e.disk && w'.runs[|w.runs|].status == RowStatus(e.verdict)
    ensures OneMoreRow(w, w', e)
  {
    var i := |w.runs|;
    forall k | 0 <= k < i ensures w'.runs[k] == w.runs[k] {
      assert w'.runs[k] == w1.runs[k];
    }
    assert w1.runs[i].ds == e.dataset;
    forall k | true ensures k in w'.flight <==> k in w.flight {
      if k != i { assert k in w'.flight <==> k in w1.flight; }
    }
  }

  ghost predicate InTable(w: World) {
    forall k :: k in w.flight ==> k < |w.runs|
  }

  /** A pair carried out keeps the invariant, adds its row, and adds to its own chain if it was stored. */
  lemma EnactedKeeps(w: World, w': World, e: Event, rec: DiskId, acts: seq<Action>)
    requires Inv(w) && Enacted(w, w', e, rec, acts)
    ensures Inv(w') && OneMoreRow(w, w', e) && forall ds, set_ :: ChainGains(w, w', e, ds, set_)
  {
    var w1 := Apply(w, acts[0]);
    EnactedBegins(w, w1, w', e, rec, acts);
    assert InTable(w) by {
      forall k | k in w.flight ensures k < |w.runs| {
        assert NewestOfDataset(w, k);
      }
    }
    RowAdded(w, w1, w', e, rec);
    forall ds, set_ | true ensures ChainGains(w, w', e, ds, set_) {
      ChainGained(w, w1, w', e, rec, ds, set_);
    }
  }

  lemma ChainGained(w: World, w1: World, w': World, e: Event, rec: DiskId, ds: Dataset, set_: SetId)
    requires Inv(w1) && Inv(w') && Begun(w, w1, e, rec) && OthersAlone(w1, w', |w.runs|) && OneMoreRow(w, w', e)
    ensures ChainGains(w, w', e, ds, set_)
  {
    var i := |w.runs|;
    assert NewestOfDataset(w1, i);
    ChainAfterWrite(w1, w', i, ds, set_);
    ChainPrefix(w.runs, [w1.runs[i]], i, ds, set_);
    assert RowOk(w', w'.runs[i]);
  }

  // ── A session carried out ───────────────────────────────────────────────

  /** The pairs were carried out one after the other, through these states. */
  ghost predicate CarriedOut(events: seq<Event>, ws: seq<World>, recs: seq<DiskId>, acts: seq<seq<Action>>) {
    && |ws| == |events| + 1 && |recs| == |events| && |acts| == |events|
    && forall k :: 0 <= k < |events| ==> Enacted(ws[k], ws[k + 1], events[k], recs[k], acts[k])
  }

  function Concat(acts: seq<seq<Action>>): seq<Action> {
    if acts == [] then [] else Concat(acts[..|acts| - 1]) + acts[|acts| - 1]
  }

  /** Row k of the table is the event's. */
  ghost predicate RowOf(r: Run, e: Event) {
    r.ds == e.dataset && r.set_ == e.set_ && r.disk == e.disk && r.status == RowStatus(e.verdict)
  }

  /** The table after is the table before and a row for each event, in order. */
  ghost predicate RowsAdded(runs: seq<Run>, runs': seq<Run>, events: seq<Event>) {
    && |runs'| == |runs| + |events| && runs'[..|runs|] == runs
    && forall k :: 0 <= k < |events| ==> RowOf(runs'[|runs| + k], events[k])
  }

  function StoredFor(events: seq<Event>, ds: Dataset, set_: SetId): nat {
    if events == [] then 0
    else
      var e := events[|events| - 1];
      StoredFor(events[..|events| - 1], ds, set_)
      + if e.verdict.Stored? && e.dataset == ds && e.set_ == set_ then 1 else 0
  }

  /**
   * What a session does to the tables is the protocol played on. The state it ends in has the invariant; the
   * table has gained a row for each pair reached, saying how it ended; and the chain of each set and dataset
   * has grown by as many runs as pairs of theirs were stored.
   */
  lemma {:induction false} SessionIsPlay(events: seq<Event>, ws: seq<World>, recs: seq<DiskId>, acts: seq<seq<Action>>)
    requires CarriedOut(events, ws, recs, acts) && Inv(ws[0])
    ensures var w, w' := ws[0], ws[|events|];
            && w' == Play(w, Concat(acts)) && Inv(w') && RowsAdded(w.runs, w'.runs, events)
            && forall ds, set_ :: |Chain(w'.runs, |w'.runs|, ds, set_)|
                                  == |Chain(w.runs, |w.runs|, ds, set_)| + StoredFor(events, ds, set_)
  {
    hide Inv, Apply;
    if events != [] {
      var n := |events| - 1;
      SessionIsPlay(events[..n], ws[..n + 1], recs[..n], acts[..n]);
      assert Enacted(ws[n], ws[n + 1], events[n], recs[n], acts[n]);
      EnactedKeeps(ws[n], ws[n + 1], events[n], recs[n], acts[n]);
      PlayBoth(ws[0], Concat(acts[..n]), acts[n]);
      RowsOneMore(ws[0].runs, ws[n].runs, ws[n + 1].runs, events, n);
      forall ds, set_ | true
        ensures |Chain(ws[n + 1].runs, |ws[n + 1].runs|, ds, set_)|
                == |Chain(ws[0].runs, |ws[0].runs|, ds, set_)| + StoredFor(events, ds, set_)
      {
        assert ChainGains(ws[n], ws[n + 1], events[n], ds, set_);
      }
    }
  }

  lemma RowsOneMore(runs: seq<Run>, runs1: seq<Run>, runs2: seq<Run>, events: seq<Event>, n: nat)
    requires |events| == n + 1 && RowsAdded(runs, runs1, events[..n])
    requires |runs2| == |runs1| + 1 && runs2[..|runs1|] == runs1 && RowOf(runs2[|runs1|], events[n])
    ensures RowsAdded(runs, runs2, events)
  {
    forall k | 0 <= k < |events| ensures RowOf(runs2[|runs| + k], events[k]) {
      if k < n {
        assert RowOf(runs1[|runs| + k], events[..n][k]);
        assert runs2[..|runs1|][|runs| + k] == runs2[|runs| + k];
      }
    }
    assert runs2[..|runs|] == runs2[..|runs1|][..|runs|];
  }

  function RowsWith(runs: seq<Run>, status: Status): nat {
    if runs == [] then 0 else RowsWith(runs[..|runs| - 1], status) + if runs[|runs| - 1].status == status then 1 else 0
  }

  /** The session's counters are the rows it added, by how they ended. */
  lemma {:induction false} CountersAreRows(runs: seq<Run>, runs': seq<Run>, events: seq<Event>, v: Sessions.Verdict)
    requires RowsAdded(runs, runs', events)
    ensures RowsWith(runs', RowStatus(v)) == RowsWith(runs, RowStatus(v)) + Sessions.Tally(events, v)
  {
    if events == [] {
      assert runs' == runs'[..|runs|];
    } else {
      var n := |events| - 1;
      var before := runs'[..|runs'| - 1];
      assert before[..|runs|] == runs'[..|runs|];
      forall k | 0 <= k < n ensures RowOf(before[|runs| + k], events[..n][k]) {
        assert RowOf(runs'[|runs| + k], events[k]);
      }
      CountersAreRows(runs, before, events[..n], v);
      assert RowOf(runs'[|runs| + n], events[n]);
    }
  }

  lemma CarriedJoin(
    events: seq<Event>, ws: seq<World>, recs: seq<DiskId>, acts: seq<seq<Action>>,
    events': seq<Event>, ws': seq<World>, recs': seq<DiskId>, acts': seq<seq<Action>>)
    requires CarriedOut(events, ws, recs, acts) && CarriedOut(events', ws', recs', acts') && ws[|events|] == ws'[0]
    ensures CarriedOut(events + events', ws + ws'[1..], recs + recs', acts + acts')
  {
    hide Enacted;
    var all, worlds, disks, more := events + events', ws + ws'[1..], recs + recs', acts + acts';
    forall k | 0 <= k < |all| ensures Enacted(worlds[k], worlds[k + 1], all[k], disks[k], more[k]) {
      if k < |events| {
        assert Enacted(ws[k], ws[k + 1], events[k], recs[k], acts[k]);
      } else {
        var j := k - |events|;
        assert Enacted(ws'[j], ws'[j + 1], events'[j], recs'[j], acts'[j]);
      }
    }
  }

  /** The counters a session ends with are the rows it added to the table, by how they ended. */
  lemma SessionCountersAreRows(
    log: seq<Sessions.Chapter>, done: nat, skipped: nat, failed: nat, ws: seq<World>, recs: seq<DiskId>,
    acts: seq<seq<Action>>)
    requires Sessions.Counted(Sessions.Flat(log), done, skipped, failed)
    requires CarriedOut(Sessions.Flat(log), ws, recs, acts) && Inv(ws[0])
    ensures var runs, runs' := ws[0].runs, ws[|ws| - 1].runs;
            && RowsWith(runs', Success) == RowsWith(runs, Success) + done
            && RowsWith(runs', Skipped) == RowsWith(runs, Skipped) + skipped
            && RowsWith(runs', Failed) == RowsWith(runs, Failed) + failed
  {
    var events := Sessions.Flat(log);
    SessionIsPlay(events, ws, recs, acts);
    CountersAreRows(ws[0].runs, ws[|events|].runs, events, Sessions.Stored);
    CountersAreRows(ws[0].runs, ws[|events|].runs, events, Sessions.Unchanged);
    CountersAreRows(ws[0].runs, ws[|events|].runs, events, Sessions.Broke);
  }

  /** Pair k was stored, and no later one of that dataset and set. */
  ghost predicate StoredLast(events: seq<Event>, k: nat) {
    && k < |events| && events[k].verdict.Stored?
    && forall j :: k < j < |events| && events[j].verdict.Stored? ==>
         events[j].dataset != events[k].dataset || events[j].set_ != events[k].set_
  }

  /** The chain of a dataset and set ends with the run of the pair of theirs that was stored last. */
  lemma StoredEndsChain(events: seq<Event>, ws: seq<World>, recs: seq<DiskId>, acts: seq<seq<Action>>, k: nat)
    requires CarriedOut(events, ws, recs, acts) && Inv(ws[0]) && StoredLast(events, k)
    ensures var w, n := ws[|events|], |ws[0].runs| + k;
            var c := Chain(w.runs, |w.runs|, events[k].dataset, events[k].set_);
            n < |w.runs| && c != [] && c[|c| - 1] == w.runs[n] && w.runs[n].disk == events[k].disk
  {
    hide Inv, Enacted;
    SessionIsPlay(events, ws, recs, acts);
    NewestIsStored(ws[|events|], ws[0].runs, events, k);
  }

  lemma NewestIsStored(w: World, runs: seq<Run>, events: seq<Event>, k: nat)
    requires Inv(w) && RowsAdded(runs, w.runs, events) && StoredLast(events, k)
    ensures var c := Chain(w.runs, |w.runs|, events[k].dataset, events[k].set_);
            c != [] && c[|c| - 1] == w.runs[|runs| + k] && w.runs[|runs| + k].disk == events[k].disk
  {
    var n, ds, set_ := |runs| + k, events[k].dataset, events[k].set_;
    assert RowOf(w.runs[n], events[k]) && RowOk(w, w.runs[n]);
    forall j | n < j < |w.runs| ensures !Good(w.runs[j], ds, set_) {
      assert RowOf(w.runs[|runs| + (j - |runs|)], events[j - |runs|]);
    }
    LastIsNewest(w.runs, |w.runs|, ds, set_);
    ChainEndsInLast(w.runs, |w.runs|, ds, set_);
  }

  /**
   * After a session from any reachable state, what it stored last of a dataset on a set is where a restore
   * from the set's volumes gets to, exactly when the chain's tail is readable or the target resumes it.
   */
  lemma SessionThenRestore(
    events: seq<Event>, ws: seq<World>, recs: seq<DiskId>, acts: seq<seq<Action>>, k: nat, disks: seq<DiskId>,
    chain: seq<Entry>, accepts: seq<bool>, ok: bool, states: seq<Restore.Target>)
    requires CarriedOut(events, ws, recs, acts) && EndToEnd.Reachable(ws[0]) && StoredLast(events, k)
    requires EndToEnd.Attached(ws[|events|], events[k].set_, disks)
    requires EndToEnd.Cut(Manifest.Sort(Restore.Merged(EndToEnd.Manifests(ws[|events|], disks), events[k].dataset)), chain)
    requires |accepts| == |chain| && EndToEnd.AllTrue(accepts)
    requires Restore.Replayed(chain, EndToEnd.Mounts(ws[|events|], disks), accepts, ok, states)
    ensures var w, n := ws[|events|], |ws[0].runs| + k;
            var c := Chain(w.runs, |w.runs|, events[k].dataset, events[k].set_);
            n < |w.runs| && (ok && EndToEnd.TookOn(states[|states| - 1], w.runs[n])
                             <==> EndToEnd.TailReadable(w, disks, c) || EndToEnd.Resumes(w, disks, c, states[0]))
  {
    hide Inv, Enacted;
    EndToEnd.ReachableIsSound(ws[0]);
    SessionIsPlay(events, ws, recs, acts);
    StillReachable(ws[0], Concat(acts));
    StoredEndsChain(events, ws, recs, acts, k);
    EndToEnd.RestoreReachesEndExactly(
      ws[|events|], events[k].set_, disks, events[k].dataset, chain, accepts, ok, states);
  }

  lemma StillReachable(w: World, acts: seq<Action>)
    requires EndToEnd.Reachable(w)
    ensures EndToEnd.Reachable(Play(w, acts))
  {
    var before :| w == Play(FRESH, before);
    PlayBoth(FRESH, before, acts);
  }

  // ── Carrying a pair out ─────────────────────────────────────────────────

  /** What the outside world answers to one pair: whether the dataset exists, the writes, disks with room. */
  datatype Answers = Answers(found: bool, first: Env, room: set<DiskId>, second: Env)

  /** The set's disks are the ones the protocol has filed under it. */
  ghost predicate FiledAs(disks: seq<Groups.DiskRow>, set_: SetId, w: World) {
    forall d :: d in Groups.Members(disks, set_) ==> d in w.volumes && d in w.owner && w.owner[d] == set_
  }

  /** Row i is being written by the actions played since w. */
  ghost predicate Playing(w: World, now: World, i: nat, begin: Action, acts: seq<Action>) {
    acts != [] && acts[0] == begin && OwnAfter(acts, i) && now == Play(w, acts)
  }

  lemma PlayingOn(w: World, now: World, i: nat, begin: Action, acts: seq<Action>, more: seq<Action>)
    requires Playing(w, now, i, begin, acts) && forall k :: 0 <= k < |more| ==> OwnAction(more[k], i)
    ensures Playing(w, Play(now, more), i, begin, acts + more)
  {
    PlayBoth(w, acts, more);
  }

  lemma PlayOne(w: World, a: Action)
    ensures Play(w, [a]) == Apply(w, a)
  {
    PlayNext(w, [], a);
  }

  /** The actions that a write's history shows. */
  lemma FollowsPlaying(
    before: seq<World>, h: seq<World>, i: nat, env: Env, w: World, begin: Action, acts: seq<Action>, acts': seq<Action>)
    requires Follows(before, h, i, env) && Inv(before[|before| - 1]) && Playing(w, before[|before| - 1], i, begin, acts)
    requires acts' == acts + Effects(i, env, |h| - |before|)
    ensures Playing(w, h[|h| - 1], i, begin, acts')
    ensures KeepsVolumes(before[|before| - 1], h[|h| - 1])
  {
    hide Tick, Apply, Inv;
    var more := Effects(i, env, |h| - |before|);
    FollowsPlays(before, h, i, env, |h| - 1);
    PlayingMore(w, before[|before| - 1], h[|h| - 1], i, begin, acts, more);
  }

  lemma PlayingMore(w: World, now: World, end: World, i: nat, begin: Action, acts: seq<Action>, more: seq<Action>)
    requires Inv(now) && Playing(w, now, i, begin, acts) && end == Play(now, more)
    requires forall k :: 0 <= k < |more| ==> OwnAction(more[k], i)
    ensures Playing(w, end, i, begin, acts + more) && KeepsVolumes(now, end)
  {
    OwnPlay(now, more, i);
    PlayingOn(w, now, i, begin, acts, more);
  }

  /** `backup_dataset`, as far as its history and its end go. */
  method Write(m: BackupManager, i: nat, env: Env) returns (result: Result)
    requires m.At(i, Start) && Inv(m.Now())
    modifies m
    ensures Follows(old(m.history), m.history, i, env) && Inv(m.Now())
    ensures m.Ends(i, result) && OthersAlone(old(m.Now()), m.Now(), i) && SameDisk(old(m.Now()), m.Now(), i)
  {
    result := m.BackupDataset(i, env);
    FollowsKeepsDisk(old(m.history), m.history, i, env, |m.history| - 1);
  }

  /** `backup_dataset`, as actions of the protocol. */
  method WriteOnce(m: BackupManager, i: nat, env: Env, ghost w: World, ghost begin: Action, ghost acts: seq<Action>)
    returns (result: Result, ghost acts': seq<Action>)
    requires m.At(i, Start) && Inv(m.Now()) && Playing(w, m.Now(), i, begin, acts)
    modifies m
    ensures m.Ends(i, result) && Inv(m.Now()) && Playing(w, m.Now(), i, begin, acts')
    ensures OthersAlone(old(m.Now()), m.Now(), i) && SameDisk(old(m.Now()), m.Now(), i)
    ensures KeepsVolumes(old(m.Now()), m.Now())
  {
    hide Inv, Play;
    ghost var before, now := m.history, m.Now();
    result := Write(m, i, env);
    acts' := acts + Effects(i, env, |m.history| - |before|);
    FollowsPlaying(before, m.history, i, env, w, begin, acts, acts');
    assert m.history[|m.history| - 1] == m.Now() && before[|before| - 1] == now;
  }

  const MountFailing := Env({MountFails}, false, 0, None, false, {}, {})

  function VerdictOf(result: Result): Sessions.Verdict {
    match result
    case Wrote => Sessions.Stored
    case Unchanged => Sessions.Unchanged
    case _ => Sessions.Broke
  }

  function ReplyOf(found: bool, result: Result, again: Option<Result>): Sessions.Reply {
    if !found then Sessions.Missing
    else if !result.NeedsSpace? then Sessions.Answered(VerdictOf(result))
    else Sessions.NoRoom(if again.Some? && !again.value.NeedsSpace? then Some(VerdictOf(again.value)) else None)
  }

  /** `_record_run` for a dataset that is not there: a row that has failed at once. */
  method RecordMissing(m: BackupManager, dataset: Dataset, set_: SetId, rec: DiskId) returns (ghost acts: seq<Action>)
    requires m.Noted() && Inv(m.Now()) && Enabled(m.Now(), Begin(dataset, set_, rec, Full))
    modifies m
    ensures m.Noted() && Inv(m.Now())
    ensures Enacted(old(m.Now()), m.Now(), Sessions.Event(set_, dataset, rec, Full, Sessions.Broke), rec, acts)
  {
    hide Inv;
    ghost var begin := Begin(dataset, set_, rec, Full);
    ghost var w := m.Now();
    var i := m.NewRun(dataset, set_, rec, Full);
    PlayOne(w, begin);
    ghost var now, before := m.Now(), m.history;
    m.Abort(i);
    m.Note(i, MountFailing);
    acts := [begin] + Effects(i, MountFailing, |m.history| - |before|);
    FollowsPlaying(before, m.history, i, MountFailing, w, begin, [begin], acts);
    TickKeepsInv(now, i, MountFailing);
  }

  /**
   * Write a dataset to the disk in use; if that one has no room, to the next that has, in the same row; if
   * there is none, or no room there either, leave it.
   */
  method WriteFound(m: BackupManager, disks: seq<Groups.DiskRow>, rec: DiskId, dataset: Dataset, t: Sessions.Task, a: Answers)
    returns (e: Event, reply: Sessions.Reply, ghost acts: seq<Action>)
    requires m.Noted() && Inv(m.Now()) && Groups.InIdOrder(disks) && FiledAs(disks, t.set_, m.Now())
    requires Enabled(m.Now(), Begin(dataset, t.set_, rec, t.asked)) && rec in Groups.Members(disks, t.set_)
    modifies m
    ensures m.Noted() && Inv(m.Now()) && Enacted(old(m.Now()), m.Now(), e, rec, acts)
    ensures e.dataset == dataset && !reply.Missing? && Sessions.EventBy(e, rec, disks, t, reply, a.room)
  {
    hide Inv, Play;
    ghost var begin, w := Begin(dataset, t.set_, rec, t.asked), m.Now();
    var i := m.NewRun(dataset, t.set_, rec, t.asked);
    PlayOne(w, begin);
    var first;
    first, acts := WriteOnce(m, i, a.first, w, begin, [begin]);
    var at, again := rec, None;
    if first.NeedsSpace? {
      at, again, acts := WriteElsewhere(m, i, disks, rec, t.set_, a, w, begin, acts);
    }
    reply := ReplyOf(true, first, again);
    e := Sessions.Event(t.set_, dataset, at, t.asked, VerdictOf(if at != rec && again.Some? then again.value else first));
  }

  /** A refused write goes on on the next disk with room, if there is one; it ends in any case. */
  method WriteElsewhere(
    m: BackupManager, i: nat, disks: seq<Groups.DiskRow>, rec: DiskId, set_: SetId, a: Answers,
    ghost w: World, ghost begin: Action, ghost acts: seq<Action>)
    returns (at: DiskId, again: Option<Result>, ghost acts': seq<Action>)
    requires m.Noted() && Inv(m.Now()) && Playing(w, m.Now(), i, begin, acts)
    requires i in m.flight && i < |m.runs| && m.flight[i].Refused? && m.runs[i].status == Failed
    requires m.runs[i].disk == rec && m.runs[i].set_ == set_
    requires Groups.InIdOrder(disks) && FiledAs(disks, set_, m.Now())
    modifies m
    ensures m.Noted() && Inv(m.Now()) && Playing(w, m.Now(), i, begin, acts')
    ensures i !in m.flight && i < |m.runs| && m.runs[i].disk == at
    ensures m.runs[i].status == if again.Some? then RowStatus(VerdictOf(again.value)) else Failed
    ensures again.Some? <==> at != rec
    ensures Groups.FirstWithRoom(Groups.Members(disks, set_), rec, a.room, if at == rec then None else Some(at))
  {
    hide Inv, Play;
    var moved := Groups.NextWithRoom(disks, set_, rec, a.room);
    if moved.None? {
      at, again := rec, None;
      acts' := GiveUp(m, i, w, begin, acts);
    } else {
      at := moved.value;
      var second;
      second, acts' := WriteAgain(m, i, at, a.second, w, begin, acts);
      again := Some(second);
    }
  }

  method WriteAgain(
    m: BackupManager, i: nat, at: DiskId, env: Env, ghost w: World, ghost begin: Action, ghost acts: seq<Action>)
    returns (second: Result, ghost acts': seq<Action>)
    requires m.Noted() && Inv(m.Now()) && Playing(w, m.Now(), i, begin, acts) && Enabled(m.Now(), Retry(i, at))
    modifies m
    ensures m.Noted() && Inv(m.Now()) && Playing(w, m.Now(), i, begin, acts')
    ensures i !in m.flight && i < |m.runs| && m.runs[i].disk == at && m.runs[i].status == RowStatus(VerdictOf(second))
  {
    hide Inv, Play;
    PlayOne(m.Now(), Retry(i, at));
    PlayingOn(w, m.Now(), i, begin, acts, [Retry(i, at)]);
    m.TryNextDisk(i, at);
    second, acts' := WriteOnce(m, i, env, w, begin, acts + [Retry(i, at)]);
    if second.NeedsSpace? {
      acts' := GiveUp(m, i, w, begin, acts');
    }
  }

  method GiveUp(m: BackupManager, i: nat, ghost w: World, ghost begin: Action, ghost acts: seq<Action>)
    returns (ghost acts': seq<Action>)
    requires m.Noted() && Inv(m.Now()) && Playing(w, m.Now(), i, begin, acts)
    requires i in m.flight && m.flight[i].Refused?
    modifies m
    ensures m.Noted() && Inv(m.Now()) && Playing(w, m.Now(), i, begin, acts')
    ensures i !in m.flight && m.runs == old(m.runs)
  {
    hide Inv, Play;
    PlayOne(m.Now(), Abandon(i));
    PlayingOn(w, m.Now(), i, begin, acts, [Abandon(i)]);
    acts' := acts + [Abandon(i)];
    m.LetGo(i);
  }

  /** One dataset of a set, the reply it got, and the actions that carried it out. */
  method WritePair(m: BackupManager, disks: seq<Groups.DiskRow>, rec: DiskId, dataset: Dataset, t: Sessions.Task, a: Answers)
    returns (e: Event, reply: Sessions.Reply, ghost acts: seq<Action>)
    requires m.Noted() && Inv(m.Now()) && Groups.InIdOrder(disks) && FiledAs(disks, t.set_, m.Now())
    requires dataset != "" && Idle(m.Now(), dataset) && rec in Groups.Members(disks, t.set_)
    modifies m
    ensures m.Noted() && Inv(m.Now()) && Enacted(old(m.Now()), m.Now(), e, rec, acts)
    ensures e.dataset == dataset && Sessions.EventBy(e, rec, disks, t, reply, a.room)
    ensures reply.Missing? <==> !a.found
  {
    if a.found {
      e, reply, acts := WriteFound(m, disks, rec, dataset, t, a);
    } else {
      Requests.KnownMember(disks, rec, t.set_);
      e, reply := Sessions.Event(t.set_, dataset, rec, Full, Sessions.Broke), Sessions.Missing;
      acts := RecordMissing(m, dataset, t.set_, rec);
    }
  }

  // ── Carrying a set out ──────────────────────────────────────────────────

  /** The weather of a session in which nothing is asked and the writes are answered so. */
  function Told(answers: Dataset -> Answers, replies: map<Dataset, Sessions.Reply>): Sessions.Weather {
    Sessions.Weather(
      _ => {}, (_, ds: Dataset) => answers(ds).room,
      (_, ds: Dataset) => if ds in replies then replies[ds] else Sessions.Missing, (_, _) => [])
  }

  lemma {:induction false} NothingAsked(id: SetId, answers: Dataset -> Answers, replies: map<Dataset, Sessions.Reply>, n: nat)
    ensures Sessions.Asked(id, Told(answers, replies), 0, n) == []
  {
    if n > 0 { NothingAsked(id, answers, replies, n - 1); }
  }

  lemma BooksStill(b: Requests.Books, id: SetId, answers: Dataset -> Answers, replies: map<Dataset, Sessions.Reply>, n: nat)
    ensures Sessions.BooksAt(b, id, Told(answers, replies), n) == b
  {
    NothingAsked(id, answers, replies, n);
  }

  /** The reply to one more dataset says nothing about the pairs before. */
  lemma StillUnderway(
    events: seq<Event>, b: Requests.Books, first: DiskId, t: Sessions.Task, answers: Dataset -> Answers,
    replies: map<Dataset, Sessions.Reply>, ds: Dataset, reply: Sessions.Reply)
    requires Sessions.Underway(events, b, first, t, Told(answers, replies))
    requires forall k :: 0 <= k < |events| ==> events[k].dataset != ds
    ensures Sessions.Underway(events, b, first, t, Told(answers, replies[ds := reply]))
  {
    var w, w' := Told(answers, replies), Told(answers, replies[ds := reply]);
    forall k | 0 <= k < |events|
      ensures Sessions.EventAt(events, k, b, first, t, w') && !Sessions.StuckAt(events, k, first, w')
    {
      assert Sessions.EventAt(events, k, b, first, t, w) && !Sessions.StuckAt(events, k, first, w);
      BooksStill(b, t.set_, answers, replies, k + 1);
      BooksStill(b, t.set_, answers, replies[ds := reply], k + 1);
    }
  }

  ghost predicate DistinctDatasets(datasets: seq<Dataset>) {
    forall i, j :: 0 <= i < j < |datasets| ==> datasets[i] != datasets[j]
  }

  ghost predicate Ready(datasets: seq<Dataset>, w: World) {
    forall ds :: ds in datasets ==> ds != "" && Idle(w, ds)
  }

  lemma ReadyStays(datasets: seq<Dataset>, w: World, w': World, e: Event)
    requires Ready(datasets, w) && OneMoreRow(w, w', e) && |w.runs| !in w'.flight
    ensures Ready(datasets, w')
  {
    forall ds | ds in datasets ensures ds != "" && Idle(w', ds) {
      assert Idle(w, ds);
      forall i | 0 <= i < |w'.runs| && (w'.runs[i].status == Running || i in w'.flight) ensures w'.runs[i].ds != ds {
        assert i < |w.runs| && w'.runs[..|w.runs|][i] == w.runs[i];
      }
    }
  }

  /** What one more event adds to a write of a set that is under way. */
  lemma {:induction false} OneCarried(
    events: seq<Event>, b: Requests.Books, first: DiskId, t: Sessions.Task, answers: Dataset -> Answers,
    replies: map<Dataset, Sessions.Reply>, e: Event, reply: Sessions.Reply)
    requires Sessions.Underway(events, b, first, t, Told(answers, replies)) && |events| < |t.datasets|
    requires DistinctDatasets(t.datasets) && e.dataset == t.datasets[|events|]
    requires Sessions.EventBy(e, Sessions.InUse(first, events, |events|), b.disks, t, reply, answers(e.dataset).room)
    ensures var w := Told(answers, replies[e.dataset := reply]);
            if reply.NoRoom? && e.disk == Sessions.InUse(first, events, |events|)
            then Sessions.SetWritten(events + [e], b, first, t, w, Sessions.OutOfDisks)
            else Sessions.Underway(events + [e], b, first, t, w)
  {
    var w := Told(answers, replies[e.dataset := reply]);
    forall k | 0 <= k < |events| ensures events[k].dataset != e.dataset {
      assert Sessions.EventAt(events, k, b, first, t, Told(answers, replies));
    }
    StillUnderway(events, b, first, t, answers, replies, e.dataset, reply);
    BooksStill(b, t.set_, answers, replies[e.dataset := reply], |events| + 1);
    Sessions.WrittenOne(events, b, first, t, w, e);
  }

  lemma CarriedNext(
    events: seq<Event>, ws: seq<World>, recs: seq<DiskId>, acts: seq<seq<Action>>, e: Event, w: World, rec: DiskId,
    more: seq<Action>)
    requires CarriedOut(events, ws, recs, acts) && Enacted(ws[|events|], w, e, rec, more)
    ensures CarriedOut(events + [e], ws + [w], recs + [rec], acts + [more])
  {
    forall k | 0 <= k < |events + [e]|
      ensures Enacted((ws + [w])[k], (ws + [w])[k + 1], (events + [e])[k], (recs + [rec])[k], (acts + [more])[k])
    {
      if k < |events| { assert Enacted(ws[k], ws[k + 1], events[k], recs[k], acts[k]); }
    }
  }

  /**
   * A set written by the backup protocol, dataset by dataset: the events are those a session may have for the
   * replies the protocol gave, and each was carried out.
   */
  method WriteSet(
    m: BackupManager, ghost b: Requests.Books, disks: seq<Groups.DiskRow>, first: DiskId, t: Sessions.Task,
    answers: Dataset -> Answers)
    returns (events: seq<Event>, ending: Sessions.Ending, ghost replies: map<Dataset, Sessions.Reply>,
             ghost ws: seq<World>, ghost recs: seq<DiskId>, ghost acts: seq<seq<Action>>)
    requires m.Noted() && Inv(m.Now()) && b.disks == disks && Groups.InIdOrder(disks) && FiledAs(disks, t.set_, m.Now())
    requires first in Groups.Members(disks, t.set_) && DistinctDatasets(t.datasets) && Ready(t.datasets, m.Now())
    modifies m
    ensures m.Noted() && Inv(m.Now())
    ensures Sessions.SetWritten(events, b, first, t, Told(answers, replies), ending)
    ensures CarriedOut(events, ws, recs, acts) && ws[0] == old(m.Now()) && ws[|events|] == m.Now()
  {
    hide Inv, Enacted;
    events, replies, recs, acts := [], map[], [], [];
    ws := [m.Now()];
    var rec := first;
    Sessions.NothingWritten(b, first, t, Told(answers, replies));
    while |events| < |t.datasets|
      invariant m.Noted() && Inv(m.Now()) && FiledAs(disks, t.set_, m.Now()) && Ready(t.datasets, m.Now())
      invariant Sessions.Underway(events, b, first, t, Told(answers, replies)) && |events| <= |t.datasets|
      invariant rec == Sessions.InUse(first, events, |events|) && rec in Groups.Members(disks, t.set_)
      invariant CarriedOut(events, ws, recs, acts) && ws[0] == old(m.Now()) && ws[|events|] == m.Now()
      decreases |t.datasets| - |events|
    {
      ghost var w := m.Now();
      var ds := t.datasets[|events|];
      assert ds in t.datasets;
      var e, reply;
      ghost var more;
      e, reply, more := WritePair(m, disks, rec, ds, t, answers(ds));
      OneCarried(events, b, first, t, answers, replies, e, reply);
      CarriedNext(events, ws, recs, acts, e, m.Now(), rec, more);
      AfterPair(disks, t, w, m.Now(), e, rec, more);
      replies := replies[ds := reply];
      events, ws, recs, acts := events + [e], ws + [m.Now()], recs + [rec], acts + [more];
      if reply.NoRoom? && e.disk == rec { return events, Sessions.OutOfDisks, replies, ws, recs, acts; }
      rec := e.disk;
    }
    ending := Sessions.Through;
  }

  lemma AfterPair(
    disks: seq<Groups.DiskRow>, t: Sessions.Task, w: World, w': World, e: Event, rec: DiskId, more: seq<Action>)
    requires Inv(w) && Enacted(w, w', e, rec, more) && FiledAs(disks, t.set_, w) && Ready(t.datasets, w)
    ensures FiledAs(disks, t.set_, w') && Ready(t.datasets, w')
  {
    EnactedKeeps(w, w', e, rec, more);
    ReadyStays(t.datasets, w, w', e);
  }
}

/**
 * One trigger after the other on a group, with restarts and whatever is asked of the group between and
 * during the sessions, as long as its cycle is left alone (nazman/services/backup_group_service.py).
 */
module Triggers {
  import opened Streams
  import opened Cycle
  import opened Rotation
  import opened Groups
  import opened Requests
  import opened Sessions
  import opened MidSession

  /** What is asked meanwhile leaves the cycle alone. */
  ghost predicate SteadyWeather(w: Weather, ids: seq<SetId>) {
    forall id: SetId, n: nat :: AllSteady(w.meanwhile(id, n), ids)
  }

  lemma {:induction false} SteadyAsked(id: SetId, w: Weather, j: nat, n: nat, ids: seq<SetId>)
    requires SteadyWeather(w, ids)
    ensures AllSteady(Asked(id, w, j, n), ids)
  {
    if n > j {
      SteadyAsked(id, w, j, n - 1, ids);
      assert AllSteady(w.meanwhile(id, n - 1), ids);
    }
  }

  lemma SteadyAt(b: Books, id: SetId, w: Weather, n: nat)
    requires SteadyWeather(w, b.ids)
    ensures BooksAt(b, id, w, n).ids == b.ids && BooksAt(b, id, w, n).active == b.active
  {
    SteadyAsked(id, w, 0, n, b.ids);
    SteadyGranted(b, Asked(id, w, 0, n), true);
  }

  lemma {:induction false} SteadyFor(b: Books, targets: seq<SetId>, times: nat, w: Weather, n: nat)
    requires SteadyWeather(w, b.ids) && n <= |targets|
    ensures var for_ := BooksFor(b, targets, times, w, n); for_.ids == b.ids && for_.active == b.active
  {
    if n > 0 {
      SteadyFor(b, targets, times, w, n - 1);
      SteadyAt(BooksFor(b, targets, times, w, n - 1), targets[n - 1], w, times);
    }
  }

  lemma SteadyEnd(b: Books, log: seq<Chapter>, targets: seq<SetId>, datasets: seq<Dataset>, w: Weather, ending: Ending)
    requires SteadyWeather(w, b.ids) && |log| <= |targets|
    ensures var end := EndBooks(b, log, targets, datasets, w, ending); end.ids == b.ids && end.active == b.active
  {
    if log != [] {
      SteadyFor(b, targets, |datasets| + 1, w, |log| - 1);
      SteadyAt(BooksFor(b, targets, |datasets| + 1, w, |log| - 1), targets[|log| - 1], w, Pauses(log[|log| - 1].events, ending));
    }
  }

  /** While the cycle is left alone only the rotation moves the group. */
  lemma SteadySettled(
    log: seq<Chapter>, b: Books, copies: Option<int>, targets: seq<SetId>, datasets: seq<Dataset>, w: Weather,
    ending: Ending, start: nat, moves: bool)
    requires b.ids != [] && Targeted(b.ids, copies, b.active, targets, start) && SteadyWeather(w, b.ids)
    requires |log| <= |targets|
    ensures var after := SettledBooks(EndBooks(b, log, targets, datasets, w, ending), b.ids, start, |targets|, moves);
            after.ids == b.ids && after.active == Some(b.ids[After(b.ids, CopiesFor(copies, |b.ids|), start, moves)])
  {
    SteadyEnd(b, log, targets, datasets, w, ending);
  }

  /**
   * Before a trigger: the program restarts or not, and things are asked of the group. Then the session, if
   * it starts.
   */
  datatype Turn = Turn(restart: bool, before: seq<Request>, kind: Kind, weather: Weather)

  /** Nothing that is asked before or during the session changes the cycle or activates a set. */
  ghost predicate SteadyTurn(turn: Turn, ids: seq<SetId>) {
    AllSteady(turn.before, ids, false) && SteadyWeather(turn.weather, ids)
  }

  ghost predicate AllCalm(turns: seq<Turn>, ids: seq<SetId>) {
    forall k :: 0 <= k < |turns| ==> Calm(turns[k].weather, ids)
  }

  /** The session started, and moved the group. */
  predicate MovedOn(outcome: Option<SessionStatus>) {
    outcome.Some? && Moves(outcome.value)
  }

  /** The sets of a session that moved the group. */
  function MovingSets(outcome: Option<SessionStatus>, targets: seq<SetId>): seq<SetId> {
    if MovedOn(outcome) then targets else []
  }

  /**
   * One trigger after the other on a group whose cycle is left alone; its disks may come and go, and so may
   * sessions that die. The sets written by the sessions that ended in success or partial success form one
   * unbroken round, and are written equally often.
   */
  method RunTriggers(group: BackupGroup, datasets: seq<Dataset>, turns: seq<Turn>)
    returns (moves: seq<bool>, written: seq<SetId>, ghost start: nat)
    requires group.Valid() && group.sets != [] && datasets != []
    requires forall k :: 0 <= k < |turns| ==> SteadyTurn(turns[k], Ids(group.sets))
    modifies group`sets, group`activeSet, group`needsDisk, group`disks, group`others, group`sessions
    ensures group.Valid() && Ids(group.sets) == old(Ids(group.sets))
    ensures Running !in old(group.sessions) && AllCalm(turns, old(Ids(group.sets))) ==> Running !in group.sessions
    ensures |moves| == |turns| && start < |old(group.sets)|
    ensures var order := old(Ids(group.sets));
            var k := CopiesFor(group.copies, |order|);
            && old(group.activeSet) == Some(order[start])
            && group.activeSet == Some(order[Standing(order, k, start, moves)])
            && |written| == k * MovesIn(moves)
            && RoundRobin(order, start, written)
            && forall id :: id in order ==> |written| / |order| <= Count(written, id) <= (|written| + |order| - 1) / |order|
  {
    ghost var order := Ids(group.sets);
    ghost var k := CopiesFor(group.copies, |order|);
    start :| 0 <= start < |order| && order[start] == group.activeSet.value;
    moves, written := [], [];
    while |moves| < |turns|
      invariant |moves| <= |turns|
      invariant group.Valid() && Ids(group.sets) == order
      invariant Running !in old(group.sessions) && AllCalm(turns, order) ==> Running !in group.sessions
      invariant group.activeSet == Some(order[Standing(order, k, start, moves)])
      invariant written == Written(order, k, start, moves)
    {
      var outcome, targets := Trigger(group, datasets, turns[|moves|]);
      assert (moves + [MovedOn(outcome)])[..|moves|] == moves;
      StartUnique(order, order[Standing(order, k, start, moves)], Standing(order, k, start, moves));
      written := written + MovingSets(outcome, targets);
      moves := moves + [MovedOn(outcome)];
    }
    forall id | id in order ensures |written| / |order| <= Count(written, id) <= (|written| + |order| - 1) / |order| {
      BalancedRotation(order, group.copies, start, moves, id);
    }
    UnbrokenRound(order, k, start, moves);
    KSetsAMove(order, k, start, moves);
  }

  /** `start_session`, then `run_session`; refused while a session is marked running. */
  method Trigger(group: BackupGroup, datasets: seq<Dataset>, turn: Turn)
    returns (outcome: Option<SessionStatus>, targets: seq<SetId>)
    requires group.Valid() && group.sets != [] && datasets != [] && SteadyTurn(turn, Ids(group.sets))
    modifies group`sets, group`activeSet, group`needsDisk, group`disks, group`others, group`sessions
    ensures group.Valid() && Ids(group.sets) == old(Ids(group.sets))
    ensures outcome.None? <==> !turn.restart && Running in old(group.sessions)
    ensures outcome.None? ==> group.activeSet == old(group.activeSet)
    ensures outcome.Some? && Calm(turn.weather, Ids(group.sets)) ==> Running !in group.sessions
    ensures var order := Ids(group.sets);
            var k := CopiesFor(group.copies, |order|);
            outcome.Some? ==>
              forall at: nat :: at < |order| && old(group.activeSet) == Some(order[at]) ==>
                targets == Window(order, at, k) && group.activeSet == Some(order[After(order, k, at, Moves(outcome.value))])
  {
    if turn.restart { group.RecoverOrphanedSessions(); }
    SteadyAlways(turn.before, Ids(group.sets), Running in group.sessions);
    SteadyGranted(BooksOf(group), turn.before, Running in group.sessions);
    PerformAll(group, turn.before);
    var answer := group.StartSession(|datasets|);
    if !answer.Done? { return None, []; }
    var status;
    status, targets := RunSession(group, datasets, turn.kind, turn.weather);
    outcome := Some(status);
  }

  /** `run_session`. */
  method RunSession(group: BackupGroup, datasets: seq<Dataset>, kind: Kind, w: Weather)
    returns (status: SessionStatus, targets: seq<SetId>)
    requires group.Valid() && group.sets != [] && SteadyWeather(w, Ids(group.sets))
    requires group.sessions != [] && group.sessions[|group.sessions| - 1].Running?
    modifies group`sets, group`activeSet, group`needsDisk, group`disks, group`others, group`sessions
    ensures group.Valid() && Ids(group.sets) == old(Ids(group.sets))
    ensures Calm(w, Ids(group.sets)) ==> Running !in group.sessions
    ensures var order := Ids(group.sets);
            var k := CopiesFor(group.copies, |order|);
            forall at: nat :: at < |order| && old(group.activeSet) == Some(order[at]) ==>
              targets == Window(order, at, k) && group.activeSet == Some(order[After(order, k, at, Moves(status))])
  {
    ghost var b, sets, sessions := BooksOf(group), group.sets, group.sessions;
    var session := new BackupSession(kind, |group.sessions| - 1);
    var ending;
    ghost var start;
    status, targets, ending, start := session.ExecuteSession(group, datasets, w);
    StartUnique(b.ids, b.ids[start], start);
    SteadySettled(session.log, b, group.copies, targets, datasets, w, ending, start, Moves(status));
    if Calm(w, b.ids) {
      CalmNeverRaised(session.log, b, sets, targets, datasets, kind, w, ending);
      OthersNotRunning(sessions, status);
    }
  }

  lemma OthersNotRunning(sessions: seq<SessionStatus>, status: SessionStatus)
    requires sessions != [] && AtMostOneRunning(sessions) && sessions[|sessions| - 1].Running? && !status.Running?
    ensures Running !in sessions[|sessions| - 1 := status]
  {
  }
}

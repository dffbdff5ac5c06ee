/**
 * What is asked of a group while a session of it runs, and what comes of it: where the streams go, when the
 * session dies, and which activation stands (nazman/services/backup_group_service.py,
 * nazman/managers/zfs_backup_manager.py).
 */
module MidSession {
  import opened Streams
  import opened Rotation
  import opened Groups
  import opened Requests
  import opened Sessions

  // ── Where the streams go ────────────────────────────────────────────────

  /** How often something had been asked when the disk of the k-th event was picked. */
  function PickedAt(events: seq<Event>, first: DiskId, k: nat): nat
    requires k < |events|
  {
    if events[k].disk != InUse(first, events, k) then k + 1
    else if k == 0 then 0
    else PickedAt(events, first, k - 1)
  }

  /** The same for the disk in use when the k-th dataset's turn comes. */
  function InUseSince(events: seq<Event>, first: DiskId, k: nat): nat
    requires k <= |events|
  {
    if k == 0 then 0 else PickedAt(events, first, k - 1)
  }

  lemma {:induction false} RequestsJoin(id: SetId, w: Weather, j: nat, n: nat)
    requires j <= n
    ensures Asked(id, w, 0, j) + Asked(id, w, j, n) == Asked(id, w, 0, n)
  {
    if j == n {
      assert Asked(id, w, 0, j) + [] == Asked(id, w, 0, j);
    } else {
      RequestsJoin(id, w, j, n - 1);
      var a, b, c := Asked(id, w, 0, j), Asked(id, w, j, n - 1), w.meanwhile(id, n - 1);
      assert a + (b + c) == (a + b) + c;
    }
  }

  lemma BooksBetween(b: Books, id: SetId, w: Weather, j: nat, n: nat)
    requires j <= n
    ensures GrantedAll(BooksAt(b, id, w, j), Asked(id, w, j, n)) == BooksAt(b, id, w, n)
  {
    GrantedBoth(b, Asked(id, w, 0, j), Asked(id, w, j, n));
    RequestsJoin(id, w, j, n);
  }

  /** A disk that is picked is a member of the set then. */
  lemma {:induction false} PickedThen(events: seq<Event>, b: Books, first: DiskId, t: Task, w: Weather, k: nat)
    requires first in Members(b.disks, t.set_) && WrittenSoFar(events, b, first, t, w) && k < |events|
    ensures PickedAt(events, first, k) <= k + 1
    ensures events[k].disk in Members(BooksAt(b, t.set_, w, PickedAt(events, first, k)).disks, t.set_)
  {
    assert EventAt(events, k, b, first, t, w);
    if events[k].disk == InUse(first, events, k) && k > 0 {
      PickedThen(events, b, first, t, w, k - 1);
    }
  }

  /** The k-th stream went to a member of the set if and only if its disk stayed there since it was picked. */
  ghost predicate MemberIfStays(events: seq<Event>, b: Books, first: DiskId, id: SetId, w: Weather, k: nat)
    requires k < |events|
  {
    var e, j := events[k], PickedAt(events, first, k);
    e.disk in Members(BooksAt(b, id, w, k + 1).disks, id) <==> Stays(BooksAt(b, id, w, j), Asked(id, w, j, k + 1), e.disk, id)
  }

  /**
   * The stream of a pair goes to a member of its set exactly when, of what has been asked since its disk was
   * picked, nothing touches that disk, or the last to do so files it under the set.
   */
  lemma StreamGoesToMemberExactly(events: seq<Event>, b: Books, first: DiskId, t: Task, w: Weather, k: nat)
    requires Sound(b) && first in Members(b.disks, t.set_) && WrittenSoFar(events, b, first, t, w) && k < |events|
    ensures MemberIfStays(events, b, first, t.set_, w, k)
  {
    var j := PickedAt(events, first, k);
    PickedThen(events, b, first, t, w, k);
    RequestsKeep(b, Asked(t.set_, w, 0, j));
    BooksBetween(b, t.set_, w, j, k + 1);
    StaysExactly(BooksAt(b, t.set_, w, j), Asked(t.set_, w, j, k + 1), events[k].disk, t.set_);
  }

  /** So it is for every pair of a whole session. */
  lemma SessionStreamsGoToMembersExactly(
    log: seq<Chapter>, b: Books, sets: seq<SetRow>, targets: seq<SetId>, datasets: seq<Dataset>, trigger: Kind,
    w: Weather, ending: Ending, n: nat, k: nat)
    requires LogOk(log, b, sets, targets, datasets, trigger, w, ending) && Sound(b)
    requires n < |log| && k < |log[n].events|
    ensures log[n].first.Some? && |log[n].events| <= |datasets|
    ensures log[n].events[k].set_ == targets[n] && log[n].events[k].dataset == datasets[k]
    ensures MemberIfStays(log[n].events, BooksFor(b, targets, |datasets| + 1, w, n), log[n].first.value, targets[n], w, k)
  {
    var at, t := BooksFor(b, targets, |datasets| + 1, w, n), TaskOf(sets, targets[n], datasets, trigger);
    assert ChapterAt(log, n, b, sets, targets, datasets, trigger, w, ending);
    BooksForKeep(b, targets, |datasets| + 1, w, n);
    ChapterStream(log[n], at, t, w, EndingAt(log, n, ending), k);
  }

  lemma ChapterStream(c: Chapter, b: Books, t: Task, w: Weather, ending: Ending, k: nat)
    requires ChapterOk(c, b, t, w, ending) && Sound(b) && k < |c.events|
    ensures c.first.Some? && |c.events| <= |t.datasets|
    ensures c.events[k].set_ == t.set_ && c.events[k].dataset == t.datasets[k]
    ensures MemberIfStays(c.events, b, c.first.value, t.set_, w, k)
  {
    assert EventAt(c.events, k, b, c.first.value, t, w);
    StreamGoesToMemberExactly(c.events, b, c.first.value, t, w, k);
  }

  // ── When a session dies ─────────────────────────────────────────────────

  /**
   * Unless it runs out of disks, the writing of a set ends by an exception exactly when datasets are left
   * and the last request since the disk in use was picked that touches it undeclares it; and no dataset
   * before was reached so.
   */
  lemma SetRaisesExactly(events: seq<Event>, b: Books, first: DiskId, t: Task, w: Weather, ending: Ending)
    requires Sound(b) && first in Members(b.disks, t.set_) && SetWritten(events, b, first, t, w, ending)
    ensures var n := |events|;
            !ending.OutOfDisks? ==>
              (ending.Raised? <==> n < |t.datasets| && !StillDeclared(events, b, first, t, w, n))
    ensures forall k :: 0 <= k < |events| ==> StillDeclared(events, b, first, t, w, k)
  {
    if |events| < |t.datasets| && ending.Raised? {
      InUseDeclared(events, b, first, t, w, |events|);
    }
    forall k | 0 <= k < |events| ensures StillDeclared(events, b, first, t, w, k) {
      InUseDeclared(events, b, first, t, w, k);
      assert EventAt(events, k, b, first, t, w);
    }
  }

  /** The disk in use for the k-th dataset has not been undeclared for good since it was picked. */
  ghost predicate StillDeclared(events: seq<Event>, b: Books, first: DiskId, t: Task, w: Weather, k: nat)
    requires k <= |events|
  {
    var j := InUseSince(events, first, k);
    StaysDeclared(BooksAt(b, t.set_, w, j), Asked(t.set_, w, j, k + 1), InUse(first, events, k))
  }

  lemma InUseDeclared(events: seq<Event>, b: Books, first: DiskId, t: Task, w: Weather, k: nat)
    requires Sound(b) && first in Members(b.disks, t.set_) && WrittenSoFar(events, b, first, t, w) && k <= |events|
    ensures Known(BooksAt(b, t.set_, w, k + 1).disks, InUse(first, events, k)) <==> StillDeclared(events, b, first, t, w, k)
  {
    var j, rec := InUseSince(events, first, k), InUse(first, events, k);
    if k > 0 { PickedThen(events, b, first, t, w, k - 1); }
    RequestsKeep(b, Asked(t.set_, w, 0, j));
    BooksBetween(b, t.set_, w, j, k + 1);
    KnownMember(BooksAt(b, t.set_, w, j).disks, rec, t.set_);
    KnownExactly(BooksAt(b, t.set_, w, j), Asked(t.set_, w, j, k + 1), rec);
  }

  /** Nothing that is asked meanwhile undeclares a disk: no deregistration, no detach through another group. */
  ghost predicate Calm(w: Weather, ids: seq<SetId>) {
    forall id: SetId, n: nat :: Sparing(w.meanwhile(id, n), ids)
  }

  lemma {:induction false} CalmAsked(id: SetId, w: Weather, j: nat, n: nat, ids: seq<SetId>)
    requires Calm(w, ids)
    ensures Sparing(Asked(id, w, j, n), ids)
  {
    if n > j {
      CalmAsked(id, w, j, n - 1, ids);
      assert Sparing(w.meanwhile(id, n - 1), ids);
    }
  }

  /** In calm weather no session dies. */
  lemma CalmNeverRaised(
    log: seq<Chapter>, b: Books, sets: seq<SetRow>, targets: seq<SetId>, datasets: seq<Dataset>, trigger: Kind,
    w: Weather, ending: Ending)
    requires LogOk(log, b, sets, targets, datasets, trigger, w, ending) && Calm(w, b.ids) && Sound(b)
    ensures !ending.Raised?
  {
    if ending.Raised? {
      var n := |log| - 1;
      var c, at, t := log[n], BooksFor(b, targets, |datasets| + 1, w, n), TaskOf(sets, targets[n], datasets, trigger);
      assert ChapterAt(log, n, b, sets, targets, datasets, trigger, w, ending);
      BooksForKeep(b, targets, |datasets| + 1, w, n);
      CalmSet(c.events, at, c.first.value, t, w, b.ids);
      assert false;
    }
  }

  lemma CalmSet(events: seq<Event>, b: Books, first: DiskId, t: Task, w: Weather, ids: seq<SetId>)
    requires Sound(b) && first in Members(b.disks, t.set_) && WrittenSoFar(events, b, first, t, w)
    requires Calm(w, ids) && forall id :: id in ids ==> id in b.ids
    ensures Known(BooksAt(b, t.set_, w, |events| + 1).disks, InUse(first, events, |events|))
  {
    var n := |events|;
    var j := InUseSince(events, first, n);
    if n > 0 { PickedThen(events, b, first, t, w, n - 1); }
    var at, qs := BooksAt(b, t.set_, w, j), Asked(t.set_, w, j, n + 1);
    RequestsKeep(b, Asked(t.set_, w, 0, j));
    CalmAsked(t.set_, w, j, n + 1, ids);
    assert Sparing(qs, at.ids);
    SparedStays(at, qs, InUse(first, events, n));
    InUseDeclared(events, b, first, t, w, n);
  }

  // ── Inputs that show it ─────────────────────────────────────────────────

  /** Two sets; disk 1 is filed under the first. Set 7 is another group's. */
  function TwoSets(): Books {
    Books([0, 1], Some(0), [DiskRow(1, Some(0))], [OtherSet(7, false)])
  }

  /** Every write works, and `qs` is asked before the second dataset. */
  function AskedOnce(qs: seq<Request>): Weather {
    Weather(_ => {1}, (_, _) => {}, (_, _) => Answered(Stored), (id: SetId, n: nat) => if n == 1 then qs else [])
  }

  function TwoDatasets(): Task {
    Task(0, ["a", "b"], Full)
  }

  function PairOf(dataset: Dataset): Event {
    Event(0, dataset, 1, Full, Stored)
  }

  lemma BooksThen(qs: seq<Request>)
    ensures BooksAt(TwoSets(), 0, AskedOnce(qs), 1) == TwoSets()
    ensures BooksAt(TwoSets(), 0, AskedOnce(qs), 2) == GrantedAll(TwoSets(), qs)
  {
    var w := AskedOnce(qs);
    BooksNext(TwoSets(), 0, w, 0);
    BooksNext(TwoSets(), 0, w, 1);
    assert BooksAt(TwoSets(), 0, w, 0) == TwoSets();
  }

  lemma StartsAsMember()
    ensures 1 in Members(TwoSets().disks, 0) && Known(TwoSets().disks, 1)
  {
    assert TwoSets().disks[0] == DiskRow(1, Some(0));
  }

  lemma FirstWritten(qs: seq<Request>)
    ensures EventOk(PairOf("a"), 1, BooksAt(TwoSets(), 0, AskedOnce(qs), 1).disks, TwoDatasets(), AskedOnce(qs))
  {
    BooksThen(qs);
    StartsAsMember();
  }

  /** As long as the disk is declared the second dataset is written to it, wherever it is filed. */
  lemma BothWritten(qs: seq<Request>, home: Option<SetId>)
    requires GrantedAll(TwoSets(), qs).disks == [DiskRow(1, home)]
    ensures SetWritten([PairOf("a"), PairOf("b")], TwoSets(), 1, TwoDatasets(), AskedOnce(qs), Through)
    ensures 1 in Members(BooksAt(TwoSets(), 0, AskedOnce(qs), 2).disks, 0) <==> home == Some(0)
  {
    var w, events := AskedOnce(qs), [PairOf("a"), PairOf("b")];
    BooksThen(qs);
    FirstWritten(qs);
    var disks := [DiskRow(1, home)];
    assert disks[0] == DiskRow(1, home);
    forall k | 0 <= k < 2 ensures EventAt(events, k, TwoSets(), 1, TwoDatasets(), w) {
    }
  }

  /** Otherwise the session dies before the second. */
  lemma OneWritten(qs: seq<Request>)
    requires GrantedAll(TwoSets(), qs).disks == []
    ensures SetWritten([PairOf("a")], TwoSets(), 1, TwoDatasets(), AskedOnce(qs), Raised)
  {
    BooksThen(qs);
    FirstWritten(qs);
    assert EventAt([PairOf("a")], 0, TwoSets(), 1, TwoDatasets(), AskedOnce(qs));
  }

  lemma AskedOne(q: Request)
    ensures GrantedAll(TwoSets(), [q]) == Granted(TwoSets(), q)
  {
    assert [q][..0] == [] && GrantedAll(TwoSets(), []) == TwoSets();
  }

  lemma AskedTwo(q: Request, r: Request)
    ensures GrantedAll(TwoSets(), [q, r]) == Granted(Granted(TwoSets(), q), r)
  {
    AskedOne(q);
    assert [q, r][..1] == [q];
  }

  /** The disk in use is attached to another set between two datasets: the second stream goes to no member. */
  lemma AttachedElsewhereShows()
    ensures var w := AskedOnce([Attach(1, 1)]);
            && 1 in Members(TwoSets().disks, 0)
            && SetWritten([PairOf("a"), PairOf("b")], TwoSets(), 1, TwoDatasets(), w, Through)
            && 1 !in Members(BooksAt(TwoSets(), 0, w, 2).disks, 0)
  {
    StartsAsMember();
    AskedOne(Attach(1, 1));
    assert Granted(TwoSets(), Attach(1, 1)).disks == [DiskRow(1, Some(1))];
    BothWritten([Attach(1, 1)], Some(1));
  }

  /** So does it when the set is another group's. */
  lemma AttachedToOtherGroupShows()
    ensures var w := AskedOnce([Attach(7, 1)]);
            && 1 in Members(TwoSets().disks, 0)
            && SetWritten([PairOf("a"), PairOf("b")], TwoSets(), 1, TwoDatasets(), w, Through)
            && 1 !in Members(BooksAt(TwoSets(), 0, w, 2).disks, 0)
  {
    StartsAsMember();
    AskedOne(Attach(7, 1));
    SetSeven();
    assert Granted(TwoSets(), Attach(7, 1)).disks == [DiskRow(1, Some(7))];
    BothWritten([Attach(7, 1)], Some(7));
  }

  lemma SetSeven()
    ensures SomeSet(TwoSets(), 7) && IdleElsewhere(TwoSets().others, 7)
  {
    assert OtherIds(TwoSets().others)[0] == 7;
    assert TwoSets().others[0] == OtherSet(7, false);
  }

  /** It is deregistered between two datasets: the session dies before the second. */
  lemma DeregisteredShows()
    ensures var w := AskedOnce([Deregister(1)]);
            && 1 in Members(TwoSets().disks, 0)
            && SetWritten([PairOf("a")], TwoSets(), 1, TwoDatasets(), w, Raised)
  {
    StartsAsMember();
    AskedOne(Deregister(1));
    OnlyRowUndeclared(Some(0));
    OneWritten([Deregister(1)]);
  }

  lemma OnlyRowUndeclared(home: Option<SetId>)
    ensures Undeclared([DiskRow(1, home)], 1) == []
  {
    assert [DiskRow(1, home)][..0] == [];
  }

  /**
   * So does it, without any deregistration, when the disk is attached to a set of an idle group and detached
   * there.
   */
  lemma DetachedFromOtherGroupShows()
    ensures var w := AskedOnce([Attach(7, 1), Detach(7, 1)]);
            && 1 in Members(TwoSets().disks, 0)
            && SetWritten([PairOf("a")], TwoSets(), 1, TwoDatasets(), w, Raised)
  {
    StartsAsMember();
    AskedTwo(Attach(7, 1), Detach(7, 1));
    SetSeven();
    var there := [DiskRow(1, Some(7))];
    assert Granted(TwoSets(), Attach(7, 1)).disks == there;
    assert there[0] == DiskRow(1, Some(7)) && 1 in Members(there, 7);
    OnlyRowUndeclared(Some(7));
    OneWritten([Attach(7, 1), Detach(7, 1)]);
  }

  /**
   * It is deregistered and another volume declared, which gets the same id: the session goes on, and the
   * second stream goes to the new volume.
   */
  lemma RedeclaredShows()
    ensures var w := AskedOnce([Deregister(1), Declare(Some(0))]);
            && 1 in Members(TwoSets().disks, 0)
            && SetWritten([PairOf("a"), PairOf("b")], TwoSets(), 1, TwoDatasets(), w, Through)
            && 1 in Members(BooksAt(TwoSets(), 0, w, 2).disks, 0)
  {
    StartsAsMember();
    AskedTwo(Deregister(1), Declare(Some(0)));
    OnlyRowUndeclared(Some(0));
    BothWritten([Deregister(1), Declare(Some(0))], Some(0));
  }

  // ── Which activation stands ─────────────────────────────────────────────

  /** All that is asked while the first n targets are gone through. */
  function RequestsFor(targets: seq<SetId>, times: nat, w: Weather, n: nat): seq<Request>
    requires n <= |targets|
  {
    if n == 0 then [] else RequestsFor(targets, times, w, n - 1) + Asked(targets[n - 1], w, 0, times)
  }

  /** All that is asked during a session. */
  function SessionRequests(log: seq<Chapter>, targets: seq<SetId>, datasets: seq<Dataset>, w: Weather, ending: Ending): seq<Request>
    requires |log| <= |targets|
  {
    if log == [] then []
    else RequestsFor(targets, |datasets| + 1, w, |log| - 1)
         + Asked(targets[|log| - 1], w, 0, Pauses(log[|log| - 1].events, ending))
  }

  lemma GrantedOn(b: Books, qs: seq<Request>, id: SetId, w: Weather, n: nat)
    ensures BooksAt(GrantedAll(b, qs), id, w, n) == GrantedAll(b, qs + Asked(id, w, 0, n))
  {
    GrantedBoth(b, qs, Asked(id, w, 0, n));
  }

  lemma {:induction false} BooksForGranted(b: Books, targets: seq<SetId>, times: nat, w: Weather, n: nat)
    requires n <= |targets|
    ensures BooksFor(b, targets, times, w, n) == GrantedAll(b, RequestsFor(targets, times, w, n))
  {
    if n > 0 {
      BooksForGranted(b, targets, times, w, n - 1);
      GrantedOn(b, RequestsFor(targets, times, w, n - 1), targets[n - 1], w, times);
    }
  }

  lemma {:induction false} GrantedThrough(b: Books, targets: seq<SetId>, times: nat, w: Weather, n: nat, id: SetId, p: nat)
    requires n <= |targets|
    ensures BooksAt(BooksFor(b, targets, times, w, n), id, w, p)
            == GrantedAll(b, RequestsFor(targets, times, w, n) + Asked(id, w, 0, p))
  {
    BooksForGranted(b, targets, times, w, n);
    GrantedOn(b, RequestsFor(targets, times, w, n), id, w, p);
  }

  lemma {:induction false} EndBooksGranted(
    b: Books, log: seq<Chapter>, targets: seq<SetId>, datasets: seq<Dataset>, w: Weather, ending: Ending)
    requires |log| <= |targets|
    ensures EndBooks(b, log, targets, datasets, w, ending) == GrantedAll(b, SessionRequests(log, targets, datasets, w, ending))
  {
    if log == [] {
      assert GrantedAll(b, []) == b;
    } else {
      var n, p := |log| - 1, Pauses(log[|log| - 1].events, ending);
      var qs := RequestsFor(targets, |datasets| + 1, w, n) + Asked(targets[n], w, 0, p);
      GrantedThrough(b, targets, |datasets| + 1, w, n, targets[n], p);
      assert SessionRequests(log, targets, datasets, w, ending) == qs;
      assert EndBooks(b, log, targets, datasets, w, ending) == BooksAt(BooksFor(b, targets, |datasets| + 1, w, n), targets[n], w, p);
    }
  }

  /**
   * The set activated last while a session ran is the active one afterwards exactly when the session did
   * not move the group, or moved it there anyway.
   */
  lemma ActivationStandsExactly(
    b: Books, log: seq<Chapter>, targets: seq<SetId>, datasets: seq<Dataset>, w: Weather, ending: Ending,
    order: seq<SetId>, start: nat, moves: bool, at: nat, t: SetId)
    requires order != [] && b.active.Some? && |log| <= |targets|
    requires LastActivation(b, SessionRequests(log, targets, datasets, w, ending), at, t)
    ensures SettledBooks(EndBooks(b, log, targets, datasets, w, ending), order, start, |targets|, moves).active == Some(t)
            <==> !moves || t == Around(order, start + |targets|)
  {
    EndBooksGranted(b, log, targets, datasets, w, ending);
    LastActivationStands(b, SessionRequests(log, targets, datasets, w, ending), at, t);
  }
}

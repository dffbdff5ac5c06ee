/**
 * One triggered backup of a group: every dataset written to each of the session's sets, the outcomes
 * counted, and the group rotated (nazman/services/backup_group_service.py). Between two writes anything
 * can be asked of the group.
 */
module Sessions {
  import opened Streams
  import opened Cycle
  import opened Rotation
  import opened Groups
  import opened Requests

  datatype Verdict = Stored | Unchanged | Broke

  /** What `backup_dataset` answers; `again` is its second answer, on the next disk, None for no room there. */
  datatype Reply = Missing | Answered(v: Verdict) | NoRoom(again: Option<Verdict>)

  /**
   * What the outside world does during a session: disks that mount, disks with room, answers of writes, and
   * `meanwhile(id, n)`, what is asked of the group just before the n-th dataset is written to set `id`, or
   * after the last one.
   */
  datatype Weather = Weather(
    usable: SetId -> set<DiskId>, room: (SetId, Dataset) -> set<DiskId>, reply: (SetId, Dataset) -> Reply,
    meanwhile: (SetId, nat) -> seq<Request>)

  /** One (set, dataset) pair reached: the disk it went to, and how it ended. */
  datatype Event = Event(set_: SetId, dataset: Dataset, disk: DiskId, kind: Kind, verdict: Verdict)

  /** What a session did with one set: the disk picked first, if one was usable, and the pairs reached. */
  datatype Chapter = Chapter(set_: SetId, first: Option<DiskId>, events: seq<Event>)

  /**
   * How the writing of a set ends. `Raised`: the disk in use is no longer declared, so the row of the next
   * run cannot be inserted; nothing catches that, and the session stays marked running.
   */
  datatype Ending = Through | OutOfDisks | Raised

  // ── Counting ────────────────────────────────────────────────────────────

  function Tally(log: seq<Event>, v: Verdict): nat {
    if log == [] then 0
    else Tally(log[..|log| - 1], v) + (if log[|log| - 1].verdict == v then 1 else 0)
  }

  lemma {:induction false} TallyAll(log: seq<Event>)
    ensures Tally(log, Stored) + Tally(log, Unchanged) + Tally(log, Broke) == |log|
  {
    if log != [] { TallyAll(log[..|log| - 1]); }
  }

  lemma {:induction false} TallyJoin(a: seq<Event>, b: seq<Event>, v: Verdict)
    ensures Tally(a + b, v) == Tally(a, v) + Tally(b, v)
  {
    if b == [] {
      assert a + b == a;
    } else {
      TallyJoin(a, b[..|b| - 1], v);
      assert (a + b)[..|a + b| - 1] == a + b[..|b| - 1];
    }
  }

  /** The counters say exactly how the logged pairs ended. */
  ghost predicate Counted(log: seq<Event>, done: nat, skipped: nat, failed: nat) {
    done == Tally(log, Stored) && skipped == Tally(log, Unchanged) && failed == Tally(log, Broke)
  }

  function Plus(n: nat, e: Event, v: Verdict): nat {
    if e.verdict == v then n + 1 else n
  }

  lemma CountedOne(log: seq<Event>, e: Event, done: nat, skipped: nat, failed: nat)
    requires Counted(log, done, skipped, failed)
    ensures Counted(log + [e], Plus(done, e, Stored), Plus(skipped, e, Unchanged), Plus(failed, e, Broke))
  {
    assert (log + [e])[..|log|] == log;
  }

  lemma CountedJoin(a: seq<Event>, b: seq<Event>, d: nat, s: nat, f: nat, d': nat, s': nat, f': nat)
    requires Counted(a, d, s, f) && Counted(b, d', s', f')
    ensures Counted(a + b, d + d', s + s', f + f')
  {
    TallyJoin(a, b, Stored);
    TallyJoin(a, b, Unchanged);
    TallyJoin(a, b, Broke);
  }

  function Flat(log: seq<Chapter>): seq<Event> {
    if log == [] then [] else Flat(log[..|log| - 1]) + log[|log| - 1].events
  }

  lemma FlatNext(log: seq<Chapter>, c: Chapter)
    ensures Flat(log + [c]) == Flat(log) + c.events
  {
    assert (log + [c])[..|log|] == log;
  }

  // ── What is asked meanwhile ─────────────────────────────────────────────

  /** What is asked from before the j-th dataset of a set to before the n-th. */
  function Asked(id: SetId, w: Weather, j: nat, n: nat): seq<Request> {
    if n <= j then [] else Asked(id, w, j, n - 1) + w.meanwhile(id, n - 1)
  }

  /** The books after the first n times something could be asked while a set is written. */
  function BooksAt(b: Books, id: SetId, w: Weather, n: nat): Books {
    GrantedAll(b, Asked(id, w, 0, n))
  }

  lemma BooksNext(b: Books, id: SetId, w: Weather, n: nat)
    ensures BooksAt(b, id, w, n + 1) == GrantedAll(BooksAt(b, id, w, n), w.meanwhile(id, n))
  {
    GrantedBoth(b, Asked(id, w, 0, n), w.meanwhile(id, n));
  }

  /** The books when the turn of the n-th target comes, all before it having been gone through. */
  function BooksFor(b: Books, targets: seq<SetId>, times: nat, w: Weather, n: nat): Books
    requires n <= |targets|
  {
    if n == 0 then b else BooksAt(BooksFor(b, targets, times, w, n - 1), targets[n - 1], w, times)
  }

  /** Nothing is asked at all. */
  ghost predicate Still(w: Weather) {
    forall id: SetId, n: nat :: w.meanwhile(id, n) == []
  }

  // ── What a session does with one set ────────────────────────────────────

  /** Write these datasets to the set, as the kind asked for. */
  datatype Task = Task(set_: SetId, datasets: seq<Dataset>, asked: Kind)

  /** The disk in use when the k-th dataset's turn comes. */
  function InUse(first: DiskId, events: seq<Event>, k: nat): DiskId
    requires k <= |events|
  {
    if k == 0 then first else events[k - 1].disk
  }

  /**
   * The pair was written to the disk in use, or to the first other member of the set with room when that
   * one had none, as the kind asked for; a missing dataset counts as a full.
   */
  ghost predicate EventBy(e: Event, rec: DiskId, disks: seq<DiskRow>, t: Task, reply: Reply, room: set<DiskId>) {
    && e.set_ == t.set_ && Known(disks, rec)
    && e.kind == (if reply.Missing? then Full else t.asked)
    && match reply
       case Missing => e.disk == rec && e.verdict.Broke?
       case Answered(v) => e.disk == rec && e.verdict == v
       case NoRoom(again) =>
         && FirstWithRoom(Members(disks, t.set_), rec, room, if e.disk == rec then None else Some(e.disk))
         && e.verdict == if e.disk != rec && again.Some? then again.value else Broke
  }

  ghost predicate EventOk(e: Event, rec: DiskId, disks: seq<DiskRow>, t: Task, w: Weather) {
    EventBy(e, rec, disks, t, w.reply(t.set_, e.dataset), w.room(t.set_, e.dataset))
  }

  /** What that means, reply by reply: where the stream goes, how the pair counts, and when there is no disk for it. */
  lemma EventMeans(e: Event, rec: DiskId, disks: seq<DiskRow>, t: Task, reply: Reply, room: set<DiskId>)
    requires EventBy(e, rec, disks, t, reply, room)
    ensures e.set_ == t.set_ && (reply.Missing? ==> e.disk == rec && e.kind == Full && e.verdict == Broke)
    ensures !reply.Missing? ==> e.kind == t.asked
    ensures reply.Answered? ==> e.disk == rec && e.verdict == reply.v
    ensures reply.NoRoom? && (forall d :: d in Members(disks, t.set_) && d in room ==> d == rec) ==>
              e.disk == rec && e.verdict == Broke
    ensures reply.NoRoom? && (exists d :: d in Members(disks, t.set_) && d in room && d != rec) ==>
              && e.disk in Members(disks, t.set_) && e.disk in room && e.disk != rec
              && (forall d :: d in Members(disks, t.set_) && d in room && d != rec ==> e.disk <= d)
              && e.verdict == if reply.again.Some? then reply.again.value else Broke
  {
  }

  /** No disk had room for the k-th pair. */
  predicate StuckAt(events: seq<Event>, k: nat, first: DiskId, w: Weather)
    requires k < |events|
  {
    w.reply(events[k].set_, events[k].dataset).NoRoom? && events[k].disk == InUse(first, events, k)
  }

  ghost predicate EventAt(events: seq<Event>, k: nat, b: Books, first: DiskId, t: Task, w: Weather)
    requires k < |events| <= |t.datasets|
  {
    && events[k].dataset == t.datasets[k]
    && EventOk(events[k], InUse(first, events, k), BooksAt(b, t.set_, w, k + 1).disks, t, w)
  }

  /** The first datasets have been written, one event each, in order. */
  ghost predicate WrittenSoFar(events: seq<Event>, b: Books, first: DiskId, t: Task, w: Weather) {
    |events| <= |t.datasets| && forall k :: 0 <= k < |events| ==> EventAt(events, k, b, first, t, w)
  }

  /** Only the last pair can have been stuck. */
  ghost predicate WentOn(events: seq<Event>, n: nat, first: DiskId, w: Weather)
    requires n <= |events|
  {
    forall k :: 0 <= k < n ==> !StuckAt(events, k, first, w)
  }

  ghost predicate SetWritten(events: seq<Event>, b: Books, first: DiskId, t: Task, w: Weather, ending: Ending) {
    && WrittenSoFar(events, b, first, t, w)
    && match ending
       case Through => |events| == |t.datasets| && WentOn(events, |events|, first, w)
       case OutOfDisks =>
         events != [] && WentOn(events, |events| - 1, first, w) && StuckAt(events, |events| - 1, first, w)
       case Raised =>
         && |events| < |t.datasets| && WentOn(events, |events|, first, w)
         && !Known(BooksAt(b, t.set_, w, |events| + 1).disks, InUse(first, events, |events|))
  }

  /** How often something could be asked while a set was written. */
  function Pauses(events: seq<Event>, ending: Ending): nat {
    if ending.OutOfDisks? then |events| else |events| + 1
  }

  /** A set is written from a usable member on, or not at all when there is none. */
  ghost predicate ChapterOk(c: Chapter, b: Books, t: Task, w: Weather, ending: Ending) {
    c.set_ == t.set_
    && if c.first.Some?
       then c.first.value in Members(b.disks, t.set_) && c.first.value in w.usable(t.set_)
            && SetWritten(c.events, b, c.first.value, t, w, ending)
       else c.events == [] && ending.OutOfDisks? && forall d :: d in Members(b.disks, t.set_) ==> d !in w.usable(t.set_)
  }

  /** The first datasets have been written, and the session can go on. */
  ghost predicate Underway(events: seq<Event>, b: Books, first: DiskId, t: Task, w: Weather) {
    WrittenSoFar(events, b, first, t, w) && WentOn(events, |events|, first, w)
  }

  lemma {:induction false} WrittenOne(events: seq<Event>, b: Books, first: DiskId, t: Task, w: Weather, e: Event)
    requires Underway(events, b, first, t, w) && |events| < |t.datasets| && e.dataset == t.datasets[|events|]
    requires EventOk(e, InUse(first, events, |events|), BooksAt(b, t.set_, w, |events| + 1).disks, t, w)
    ensures InUse(first, events + [e], |events| + 1) == e.disk
    ensures if w.reply(t.set_, e.dataset).NoRoom? && e.disk == InUse(first, events, |events|)
            then SetWritten(events + [e], b, first, t, w, OutOfDisks) else Underway(events + [e], b, first, t, w)
  {
    var more := events + [e];
    forall k | 0 <= k < |more| ensures EventAt(more, k, b, first, t, w) {
      assert InUse(first, more, k) == InUse(first, events, k);
      if k < |events| { assert EventAt(events, k, b, first, t, w); }
    }
    forall k | 0 <= k < |events| ensures !StuckAt(more, k, first, w) {
      assert !StuckAt(events, k, first, w);
      assert InUse(first, more, k) == InUse(first, events, k);
    }
    assert InUse(first, more, |events|) == InUse(first, events, |events|);
  }

  lemma NothingWritten(b: Books, first: DiskId, t: Task, w: Weather)
    ensures Underway([], b, first, t, w)
  {
  }

  lemma GoneThrough(events: seq<Event>, b: Books, first: DiskId, t: Task, w: Weather)
    requires Underway(events, b, first, t, w) && |events| >= |t.datasets|
    ensures SetWritten(events, b, first, t, w, Through) && |events| == |t.datasets|
  {
  }

  lemma DiesHere(events: seq<Event>, b: Books, first: DiskId, t: Task, w: Weather)
    requires Underway(events, b, first, t, w) && |events| < |t.datasets|
    requires !Known(BooksAt(b, t.set_, w, |events| + 1).disks, InUse(first, events, |events|))
    ensures SetWritten(events, b, first, t, w, Raised)
  {
  }

  lemma KeepsAt(b: Books, id: SetId, w: Weather, n: nat)
    requires Sound(b)
    ensures Sound(BooksAt(b, id, w, n)) && forall t :: t in b.ids ==> t in BooksAt(b, id, w, n).ids
  {
    RequestsKeep(b, Asked(id, w, 0, n));
  }

  lemma NothingGone(b: Books, sets: seq<SetRow>, targets: seq<SetId>, datasets: seq<Dataset>, trigger: Kind, w: Weather)
    ensures LogSoFar([], b, sets, targets, datasets, trigger, w, Through) && Counted(Flat([]), 0, 0, 0)
    ensures BooksFor(b, targets, |datasets| + 1, w, 0) == b && EndBooks(b, [], targets, datasets, w, Through) == b
    ensures SameUse(sets, sets)
  {
  }

  lemma UsedSince(a: seq<SetRow>, b: seq<SetRow>, c: seq<SetRow>, targets: seq<SetId>)
    requires SameUse(a, b) && UsedAfter(b, c, targets)
    ensures UsedAfter(a, c, targets)
  {
  }

  /** Before anything has been asked or written. */
  lemma NothingYet(b: Books, sets: seq<SetRow>, id: SetId, w: Weather)
    ensures BooksAt(b, id, w, 0) == b && SameUse(sets, sets) && Counted([], 0, 0, 0)
  {
  }

  // ── What a session does with all its sets ───────────────────────────────

  /** The kind asked of a set's datasets: its first visit is a full. */
  ghost function TaskOf(sets: seq<SetRow>, id: SetId, datasets: seq<Dataset>, trigger: Kind): Task {
    Task(id, datasets, if UsedOf(sets, id) then trigger else Full)
  }

  /** One chapter a target, in order; all but the last were gone through. */
  ghost predicate LogSoFar(
    log: seq<Chapter>, b: Books, sets: seq<SetRow>, targets: seq<SetId>, datasets: seq<Dataset>, trigger: Kind,
    w: Weather, ending: Ending)
  {
    |log| <= |targets| && forall n :: 0 <= n < |log| ==> ChapterAt(log, n, b, sets, targets, datasets, trigger, w, ending)
  }

  ghost predicate ChapterAt(
    log: seq<Chapter>, n: nat, b: Books, sets: seq<SetRow>, targets: seq<SetId>, datasets: seq<Dataset>, trigger: Kind,
    w: Weather, ending: Ending)
    requires n < |log| <= |targets|
  {
    ChapterOk(log[n], BooksFor(b, targets, |datasets| + 1, w, n), TaskOf(sets, targets[n], datasets, trigger), w,
              EndingAt(log, n, ending))
  }

  /** All targets have their chapter if the session got through. */
  ghost predicate LogOk(
    log: seq<Chapter>, b: Books, sets: seq<SetRow>, targets: seq<SetId>, datasets: seq<Dataset>, trigger: Kind,
    w: Weather, ending: Ending)
  {
    && LogSoFar(log, b, sets, targets, datasets, trigger, w, ending)
    && if ending.Through? then |log| == |targets| else log != []
  }

  function EndingAt(log: seq<Chapter>, n: nat, ending: Ending): Ending {
    if n + 1 == |log| then ending else Through
  }

  /** The books when the session has ended. */
  function EndBooks(b: Books, log: seq<Chapter>, targets: seq<SetId>, datasets: seq<Dataset>, w: Weather, ending: Ending): Books
    requires |log| <= |targets|
  {
    if log == [] then b
    else BooksAt(BooksFor(b, targets, |datasets| + 1, w, |log| - 1), targets[|log| - 1], w,
                 Pauses(log[|log| - 1].events, ending))
  }

  lemma {:induction false} LogNext(
    log: seq<Chapter>, c: Chapter, b: Books, sets: seq<SetRow>, targets: seq<SetId>, datasets: seq<Dataset>,
    trigger: Kind, w: Weather, ending: Ending)
    requires |log| < |targets| && LogSoFar(log, b, sets, targets, datasets, trigger, w, Through)
    requires ChapterOk(c, BooksFor(b, targets, |datasets| + 1, w, |log|), TaskOf(sets, targets[|log|], datasets, trigger), w,
                       ending)
    ensures LogSoFar(log + [c], b, sets, targets, datasets, trigger, w, ending)
  {
    forall m | 0 <= m < |log + [c]| ensures ChapterAt(log + [c], m, b, sets, targets, datasets, trigger, w, ending) {
      if m < |log| {
        assert ChapterAt(log, m, b, sets, targets, datasets, trigger, w, Through);
        assert (log + [c])[m] == log[m];
      }
    }
  }

  /** After a chapter that was gone through, the books are those of the next target's turn. */
  lemma EndBooksNext(
    b: Books, log: seq<Chapter>, c: Chapter, targets: seq<SetId>, datasets: seq<Dataset>, w: Weather, ending: Ending)
    requires |log| < |targets|
    ensures EndBooks(b, log + [c], targets, datasets, w, ending)
            == BooksAt(BooksFor(b, targets, |datasets| + 1, w, |log|), targets[|log|], w, Pauses(c.events, ending))
  {
  }

  function StatusOf(done: nat, skipped: nat, failed: nat, ending: Ending): SessionStatus {
    if ending.OutOfDisks? then NeedsDisk
    else if ending.Raised? then Running
    else if failed > 0 && (done > 0 || skipped > 0) then SessionStatus.Partial
    else if failed > 0 then Failed
    else Success
  }

  predicate Moves(status: SessionStatus) {
    status.Success? || status.Partial?
  }

  /** The sets targeted: as many as copies are asked for, consecutive, from the active one, all different. */
  ghost predicate Targeted(order: seq<SetId>, copies: Option<int>, active: Option<SetId>, targets: seq<SetId>, start: nat)
    requires order != []
  {
    && start < |order| && active == Some(order[start])
    && targets == Window(order, start, CopiesFor(copies, |order|))
  }

  /** The targeted sets count as used now; for no other set that has changed. */
  ghost predicate UsedAfter(before: seq<SetRow>, after: seq<SetRow>, targets: seq<SetId>) {
    forall id :: UsedOf(after, id) <==> UsedOf(before, id) || id in targets
  }

  /** The books when the session is over: the rotation, if there is one, has the last word on the active set. */
  function SettledBooks(end: Books, order: seq<SetId>, start: nat, k: nat, moves: bool): Books
    requires order != []
  {
    if moves then end.(active := Some(Around(order, start + k))) else end
  }

  class BackupSession {
    const trigger: Kind
    const slot: nat
    var done: nat
    var skipped: nat
    var failed: nat
    var log: seq<Chapter>

    constructor (trigger: Kind, slot: nat)
      ensures this.trigger == trigger && this.slot == slot && log == []
    {
      this.trigger := trigger;
      this.slot := slot;
      done, skipped, failed, log := 0, 0, 0, [];
    }

    /** Write one dataset to the disk in use, or to the next one with room; stuck when there is none. */
    method WriteDataset(group: BackupGroup, rec: DiskId, dataset: Dataset, t: Task, w: Weather)
      returns (e: Event, stuck: bool)
      requires group.Valid() && t.set_ in Ids(group.sets) && Known(group.disks, rec)
      modifies group`sets
      ensures group.Valid() && (old(group.AllPointed()) ==> group.AllPointed())
      ensures BooksOf(group) == old(BooksOf(group)) && SameUse(old(group.sets), group.sets)
      ensures e.dataset == dataset && EventOk(e, rec, group.disks, t, w)
      ensures stuck <==> w.reply(t.set_, dataset).NoRoom? && e.disk == rec
      ensures group.sets == Pointing(old(group.sets), t.set_, if e.disk != rec then Some(e.disk) else None)
    {
      var reply := w.reply(t.set_, dataset);
      if reply.Missing? {
        return Event(t.set_, dataset, rec, Full, Broke), false;
      }
      if reply.Answered? {
        return Event(t.set_, dataset, rec, t.asked, reply.v), false;
      }
      var k := FindSet(group.sets, t.set_);
      var moved := group.AdvanceForSpace(k.value, rec, w.room(t.set_, dataset));
      RowUse(old(group.sets), group.sets);
      PointingRow(old(group.sets), k.value, moved);
      if moved.None? {
        return Event(t.set_, dataset, rec, t.asked, Broke), true;
      }
      return Event(t.set_, dataset, moved.value, t.asked, if reply.again.Some? then reply.again.value else Broke), false;
    }

    /**
     * `_write_one_set`, with whatever is asked of the group between the datasets. The counters of the row
     * are this set's own while it is being written.
     */
    method WriteOneSet(group: BackupGroup, id: SetId, datasets: seq<Dataset>, w: Weather)
      returns (c: Chapter, d: nat, s: nat, f: nat, ending: Ending)
      requires group.Valid() && Running in group.sessions && id in Ids(group.sets)
      modifies this`done, this`skipped, this`failed, group`sets, group`activeSet, group`needsDisk, group`disks, group`others
      ensures group.Valid() && (old(group.AllPointed()) ==> group.AllPointed())
      ensures ChapterOk(c, old(BooksOf(group)), TaskOf(old(group.sets), id, datasets, trigger), w, ending)
      ensures BooksOf(group) == BooksAt(old(BooksOf(group)), id, w, Pauses(c.events, ending)) && SameUse(old(group.sets), group.sets)
      ensures Counted(c.events, d, s, f)
      ensures forall k :: 0 <= k < |c.events| ==>
                c.events[k].set_ == id && k < |datasets| && c.events[k].dataset == datasets[k]
                && c.events[k].kind == if w.reply(id, datasets[k]).Missing? || !UsedOf(old(group.sets), id) then Full else trigger
      ensures !ending.OutOfDisks? && c.events != [] ==> done == d && skipped == s && failed == f
      ensures Still(w) ==> group.needsDisk == old(group.needsDisk) && group.sets == Pointing(old(group.sets), id, LastDisk(c))
    {
      hide SetWritten, Counted, SameUse, BooksAt, UsedOf, FollowsDisk, FirstUsable, NearestUsable, Dense, InIdOrder, Apart,
        AtMostOneRunning, PointersOk;
      NothingYet(BooksOf(group), group.sets, id, w);
      var k := FindSet(group.sets, id);
      var used := group.sets[k.value].used;
      UsedIs(group.sets, k.value);
      var picked := group.PickDisk(k.value, w.usable(id));
      RowUse(old(group.sets), group.sets);
      PointingRow(old(group.sets), k.value, picked);
      if picked.None? {
        c := Chapter(id, None, []);
        d, s, f, ending := 0, 0, 0, OutOfDisks;
        return;
      }
      PickedIsMember(group.disks, id, old(group.sets)[k.value].disk, w.usable(id), picked);
      var events;
      ghost var sets := group.sets;
      events, d, s, f, ending := WriteAll(group, picked.value, Task(id, datasets, if used then trigger else Full), w);
      SameUseOn(old(group.sets), sets, group.sets);
      c := Chapter(id, picked, events);
      SetPointed(w, old(group.sets), sets, group.sets, c);
      KindsOf(events, old(BooksOf(group)), picked.value, Task(id, datasets, if used then trigger else Full), w, ending);
    }

    /** Write the datasets one after the other, from the disk picked on. */
    method WriteAll(group: BackupGroup, first: DiskId, t: Task, w: Weather)
      returns (events: seq<Event>, d: nat, s: nat, f: nat, ending: Ending)
      requires group.Valid() && Running in group.sessions && t.set_ in Ids(group.sets)
      modifies this`done, this`skipped, this`failed, group`sets, group`activeSet, group`needsDisk, group`disks, group`others
      ensures group.Valid() && (old(group.AllPointed()) ==> group.AllPointed())
      ensures SetWritten(events, old(BooksOf(group)), first, t, w, ending)
      ensures BooksOf(group) == BooksAt(old(BooksOf(group)), t.set_, w, Pauses(events, ending)) && SameUse(old(group.sets), group.sets)
      ensures Counted(events, d, s, f)
      ensures !ending.OutOfDisks? && events != [] ==> done == d && skipped == s && failed == f
      ensures Still(w) ==> group.needsDisk == old(group.needsDisk)
      ensures FollowsDisk(w, old(group.sets), group.sets, t.set_, first, InUse(first, events, |events|))
    {
      FirstFollowed(w, group.sets, t.set_, first);
      hide Underway, SetWritten, Counted, BooksAt, SameUse, FollowsDisk, MovesTo, Still, Dense, Distinct, InIdOrder, Apart,
        AtMostOneRunning, PointersOk;
      var rec := first;
      events, d, s, f := [], 0, 0, 0;
      ghost var b := BooksOf(group);
      NothingWritten(b, first, t, w);
      NothingYet(b, group.sets, t.set_, w);
      while |events| < |t.datasets|
        invariant group.Valid() && (old(group.AllPointed()) ==> group.AllPointed())
        invariant Underway(events, b, first, t, w) && rec == InUse(first, events, |events|)
        invariant BooksOf(group) == BooksAt(b, t.set_, w, |events|) && SameUse(old(group.sets), group.sets)
        invariant Counted(events, d, s, f) && (events != [] ==> done == d && skipped == s && failed == f)
        invariant Still(w) ==> group.needsDisk == old(group.needsDisk)
        invariant FollowsDisk(w, old(group.sets), group.sets, t.set_, first, InUse(first, events, |events|))
        decreases |t.datasets| - |events|
      {
        ghost var sets := group.sets;
        var next, stuck := WriteNext(group, b, first, events, rec, t, w);
        SameUseOn(old(group.sets), sets, group.sets);
        DiskFollowed(w, old(group.sets), sets, group.sets, t.set_, first, rec, if next.Some? then next.value.disk else rec);
        if next.None? { return events, d, s, f, Raised; }
        var e := next.value;
        CountedOne(events, e, d, s, f);
        events := events + [e];
        d, s, f := Plus(d, e, Stored), Plus(s, e, Unchanged), Plus(f, e, Broke);
        if stuck { return events, d, s, f, OutOfDisks; }
        UpdateProgress(d, s, f);
        rec := e.disk;
      }
      ghost var sets := group.sets;
      Pause(group, b, t.set_, |events|, w);
      SameUseOn(old(group.sets), sets, group.sets);
      DiskKept(w, old(group.sets), sets, group.sets, t.set_, first, rec);
      GoneThrough(events, b, first, t, w);
      ending := Through;
    }

    /** The next dataset, after what is asked before it; none when the disk in use is no longer declared. */
    method WriteNext(
      group: BackupGroup, ghost b: Books, first: DiskId, events: seq<Event>, rec: DiskId, t: Task, w: Weather)
      returns (next: Option<Event>, stuck: bool)
      requires group.Valid() && Running in group.sessions && t.set_ in b.ids && Sound(b)
      requires |events| < |t.datasets| && Underway(events, b, first, t, w) && rec == InUse(first, events, |events|)
      requires BooksOf(group) == BooksAt(b, t.set_, w, |events|)
      modifies group`sets, group`activeSet, group`needsDisk, group`disks, group`others
      ensures group.Valid() && (old(group.AllPointed()) ==> group.AllPointed())
      ensures BooksOf(group) == BooksAt(b, t.set_, w, |events| + 1) && SameUse(old(group.sets), group.sets)
      ensures next.None? ==> SetWritten(events, b, first, t, w, Raised)
      ensures next.Some? && stuck ==> SetWritten(events + [next.value], b, first, t, w, OutOfDisks)
      ensures next.Some? && !stuck ==> Underway(events + [next.value], b, first, t, w)
      ensures next.Some? ==> InUse(first, events + [next.value], |events| + 1) == next.value.disk
      ensures Still(w) ==> group.needsDisk == old(group.needsDisk)
      ensures MovesTo(w, old(group.sets), group.sets, t.set_, rec, if next.Some? then next.value.disk else rec)
    {
      hide Underway, SetWritten, BooksAt, SameUse, Dense, Distinct, InIdOrder, Apart, AtMostOneRunning, PointersOk, EventOk;
      ghost var before := group.sets;
      Pause(group, b, t.set_, |events|, w);
      var declared := group.FindDisk(rec);
      if declared.None? {
        DiesHere(events, b, first, t, w);
        return None, false;
      }
      KeepsAt(b, t.set_, w, |events| + 1);
      ghost var sets := group.sets;
      var e;
      e, stuck := WriteDataset(group, rec, t.datasets[|events|], t, w);
      SameUseOn(before, sets, group.sets);
      WrittenOne(events, b, first, t, w, e);
      next := Some(e);
    }

    /** What is asked of the group before the n-th dataset. */
    method Pause(group: BackupGroup, ghost b: Books, id: SetId, n: nat, w: Weather)
      requires group.Valid() && Running in group.sessions && BooksOf(group) == BooksAt(b, id, w, n)
      modifies group`sets, group`activeSet, group`needsDisk, group`disks, group`others
      ensures group.Valid() && (old(group.AllPointed()) ==> group.AllPointed())
      ensures BooksOf(group) == BooksAt(b, id, w, n + 1) && SameUse(old(group.sets), group.sets)
      ensures Still(w) ==> group.needsDisk == old(group.needsDisk) && group.sets == old(group.sets)
    {
      PerformAll(group, w.meanwhile(id, n));
      BooksNext(b, id, w, n);
    }

    method UpdateProgress(d: nat, s: nat, f: nat)
      modifies this`done, this`skipped, this`failed
      ensures done == d && skipped == s && failed == f
    {
      done, skipped, failed := d, s, f;
    }

    /** Write the targeted sets one after the other; the first that cannot be gone through ends the session. */
    method WriteTargets(group: BackupGroup, targets: seq<SetId>, datasets: seq<Dataset>, w: Weather)
      returns (all: seq<Chapter>, d: nat, s: nat, f: nat, ending: Ending)
      requires group.Valid() && Running in group.sessions && forall t :: t in targets ==> t in Ids(group.sets)
      modifies this`done, this`skipped, this`failed, group`sets, group`activeSet, group`needsDisk, group`disks, group`others
      ensures group.Valid() && (old(group.AllPointed()) ==> group.AllPointed())
      ensures LogOk(all, old(BooksOf(group)), old(group.sets), targets, datasets, trigger, w, ending) && |all| <= |targets|
      ensures BooksOf(group) == EndBooks(old(BooksOf(group)), all, targets, datasets, w, ending)
      ensures SameUse(old(group.sets), group.sets) && Counted(Flat(all), d, s, f)
      ensures Still(w) ==> group.needsDisk == old(group.needsDisk) && group.sets == PointingAll(old(group.sets), all)
    {
      hide LogSoFar, Counted, SameUse, BooksFor, EndBooks, Dense, Distinct, InIdOrder, Apart, AtMostOneRunning, PointersOk;
      NothingGone(BooksOf(group), group.sets, targets, datasets, trigger, w);
      all, d, s, f, ending := [], 0, 0, 0, Through;
      ghost var b, sets := BooksOf(group), group.sets;
      while |all| < |targets|
        invariant |all| <= |targets| && ending.Through?
        invariant group.Valid() && (old(group.AllPointed()) ==> group.AllPointed())
        invariant LogSoFar(all, b, sets, targets, datasets, trigger, w, Through)
        invariant BooksOf(group) == BooksFor(b, targets, |datasets| + 1, w, |all|)
        invariant BooksOf(group) == EndBooks(b, all, targets, datasets, w, Through)
        invariant SameUse(sets, group.sets) && Counted(Flat(all), d, s, f)
        invariant Still(w) ==> group.needsDisk == old(group.needsDisk) && group.sets == PointingAll(sets, all)
      {
        var c, d', s', f';
        c, d', s', f', ending := WriteTarget(group, b, sets, all, targets, datasets, w);
        FlatNext(all, c);
        PointingNext(sets, all, c);
        CountedJoin(Flat(all), c.events, d, s, f, d', s', f');
        all := all + [c];
        d, s, f := d + d', s + s', f + f';
        if !ending.Through? { return; }
      }
    }

    /** The next target. */
    method WriteTarget(
      group: BackupGroup, ghost b: Books, ghost sets: seq<SetRow>, all: seq<Chapter>, targets: seq<SetId>,
      datasets: seq<Dataset>, w: Weather)
      returns (c: Chapter, d: nat, s: nat, f: nat, ending: Ending)
      requires group.Valid() && Running in group.sessions && (forall t :: t in targets ==> t in b.ids) && Sound(b)
      requires |all| < |targets| && LogSoFar(all, b, sets, targets, datasets, trigger, w, Through)
      requires BooksOf(group) == BooksFor(b, targets, |datasets| + 1, w, |all|) && SameUse(sets, group.sets)
      modifies this`done, this`skipped, this`failed, group`sets, group`activeSet, group`needsDisk, group`disks, group`others
      ensures group.Valid() && (old(group.AllPointed()) ==> group.AllPointed())
      ensures LogSoFar(all + [c], b, sets, targets, datasets, trigger, w, ending)
      ensures BooksOf(group) == EndBooks(b, all + [c], targets, datasets, w, ending)
      ensures ending.Through? ==> BooksOf(group) == BooksFor(b, targets, |datasets| + 1, w, |all| + 1)
      ensures SameUse(sets, group.sets) && Counted(c.events, d, s, f)
      ensures Still(w) ==>
                group.needsDisk == old(group.needsDisk) && group.sets == Pointing(old(group.sets), c.set_, LastDisk(c))
    {
      BooksForKeep(b, targets, |datasets| + 1, w, |all|);
      assert targets[|all|] in targets;
      TaskSame(sets, group.sets, targets[|all|], datasets, trigger);
      c, d, s, f, ending := WriteOneSet(group, targets[|all|], datasets, w);
      LogNext(all, c, b, sets, targets, datasets, trigger, w, ending);
      EndBooksNext(b, all, c, targets, datasets, w, ending);
    }

    /** `_active_set`: the active set, or the first when it names none of the group's. */
    method ActiveSet(group: BackupGroup) returns (id: SetId)
      requires group.sets != []
      modifies group`activeSet
      ensures group.activeSet == Some(id) && id in Ids(group.sets)
      ensures if old(group.activeSet).Some? && old(group.activeSet).value in Ids(group.sets)
              then group.activeSet == old(group.activeSet) else id == group.sets[0].id
    {
      if group.activeSet.Some? {
        var k := FindSet(group.sets, group.activeSet.value);
        if k.Some? { return group.activeSet.value; }
      }
      id := group.sets[0].id;
      assert Ids(group.sets)[0] == id;
      group.activeSet := Some(id);
    }

    /** `_finish`. */
    method Finish(group: BackupGroup, status: SessionStatus, d: nat, s: nat, f: nat)
      requires group.Valid() && slot < |group.sessions| && !status.Running?
      modifies this`done, this`skipped, this`failed, group`sessions
      ensures group.Valid() && group.sessions == old(group.sessions)[slot := status]
      ensures done == d && skipped == s && failed == f
    {
      group.sessions := group.sessions[slot := status];
      done, skipped, failed := d, s, f;
    }

    /**
     * The session ended well: its sets count as used, and the group moves past them in the cycle as it was
     * when the session began, whatever was activated since.
     */
    method MoveOn(group: BackupGroup, order: seq<SetId>, current: SetId, targets: seq<SetId>, ghost start: nat)
      requires group.Valid() && Distinct(order) && forall id :: id in order ==> id in Ids(group.sets)
      requires start < |order| && order[start] == current && targets != [] && forall id :: id in targets ==> id in order
      modifies group`sets, group`activeSet, group`needsDisk
      ensures group.Valid() && (old(group.AllPointed()) ==> group.AllPointed())
      ensures BooksOf(group) == old(BooksOf(group)).(active := Some(Around(order, start + |targets|)))
      ensures UsedAfter(old(group.sets), group.sets, targets) && !group.needsDisk
      ensures SamePointers(old(group.sets), group.sets)
    {
      group.sets := MarkUsed(group.sets, targets);
      UsedKeeps(group.disks, old(group.sets), group.sets, targets);
      var next := Rotate(order, current, |targets|);
      assert Around(order, start + |targets|) in order;
      group.activeSet := next;
      group.needsDisk := false;
    }

    /**
     * `_execute_session`, with whatever is asked of the group meanwhile. The status says exactly how the
     * pairs reached ended; the group moves past the sets written when it is success or partial. A session
     * whose disk in use is deregistered stays marked running.
     */
    method ExecuteSession(group: BackupGroup, datasets: seq<Dataset>, w: Weather)
      returns (status: SessionStatus, targets: seq<SetId>, ending: Ending, ghost start: nat)
      requires group.Valid() && slot < |group.sessions| && group.sessions[slot].Running?
      modifies this, group`sets, group`activeSet, group`needsDisk, group`disks, group`others, group`sessions
      ensures group.Valid() && (old(group.AllPointed()) ==> group.AllPointed())
      ensures group.sessions == old(group.sessions)[slot := status]
      ensures if old(group.sets) == []
              then status.Failed? && log == [] && targets == [] && BooksOf(group) == old(BooksOf(group))
                   && group.sets == old(group.sets) && group.needsDisk == old(group.needsDisk)
              else Executed(old(BooksOf(group)), old(group.sets), group.copies, datasets, w, status, targets, ending, start)
                   && BooksOf(group) == SettledBooks(EndBooks(old(BooksOf(group)), log, targets, datasets, w, ending),
                                                  old(Ids(group.sets)), start, |targets|, Moves(status))
                   && UsedAfter(old(group.sets), group.sets, if Moves(status) then targets else [])
                   && (ending.OutOfDisks? ==> group.needsDisk) && (Moves(status) ==> !group.needsDisk)
                   && (Still(w) && !ending.OutOfDisks? && !Moves(status) ==> group.needsDisk == old(group.needsDisk))
                   && Reports(Flat(log), ending, status)
                   && (Still(w) ==> PointsAsWritten(old(group.sets), group.sets, log))
    {
      hide PointsAsWritten, PointingAll, Reports, LogOk, Counted, SameUse, EndBooks, SamePointers, PointersOk;
      if group.sets == [] {
        log, start, ending := [], 0, Through;
        Finish(group, SessionStatus.Failed, 0, 0, 0);
        return SessionStatus.Failed, [], Through, 0;
      }
      var order := Ids(group.sets);
      var current := ActiveSet(group);
      targets, start := TargetSets(order, group.copies, current);
      WindowWithin(order, start, |targets|);
      WindowDistinct(order, start, |targets|);
      var d, s, f;
      log, d, s, f, ending := WriteTargets(group, targets, datasets, w);
      EndBooksKeep(old(BooksOf(group)), log, targets, datasets, w, ending);
      WrittenPoints(old(group.sets), group.sets, log, old(BooksOf(group)), targets, datasets, trigger, w, ending);
      ghost var written := group.sets;
      StatusReports(Flat(log), d, s, f, ending);
      status := Conclude(group, order, current, targets, d, s, f, ending, start);
      UsedSince(old(group.sets), written, group.sets, if Moves(status) then targets else []);
      if Still(w) { PointedStill(old(group.sets), written, group.sets, log); }
    }

    /** What the session has done, on books b and these sets. */
    ghost predicate Executed(
      b: Books, sets: seq<SetRow>, copies: Option<int>, datasets: seq<Dataset>, w: Weather, status: SessionStatus,
      targets: seq<SetId>, ending: Ending, start: nat)
      requires b.ids != []
      reads this
    {
      && Targeted(b.ids, copies, b.active, targets, start)
      && LogOk(log, b, sets, targets, datasets, trigger, w, ending)
      && (ending.Raised? ==> status.Running?)
      && (!ending.Raised? ==> Counted(Flat(log), done, skipped, failed) && status == StatusOf(done, skipped, failed, ending))
    }

    /** Set the status the counters call for, rotate when it is a success or partial one, and finish. */
    method Conclude(
      group: BackupGroup, order: seq<SetId>, current: SetId, targets: seq<SetId>, d: nat, s: nat, f: nat, ending: Ending,
      ghost start: nat)
      returns (status: SessionStatus)
      requires group.Valid() && slot < |group.sessions| && group.sessions[slot].Running?
      requires Distinct(order) && forall id :: id in order ==> id in Ids(group.sets)
      requires start < |order| && order[start] == current && targets != [] && forall id :: id in targets ==> id in order
      modifies this`done, this`skipped, this`failed, group`sets, group`activeSet, group`needsDisk, group`sessions
      ensures group.Valid() && (old(group.AllPointed()) ==> group.AllPointed())
      ensures group.sessions == old(group.sessions)[slot := status]
      ensures status == StatusOf(d, s, f, ending) && (!ending.Raised? ==> done == d && skipped == s && failed == f)
      ensures BooksOf(group) == SettledBooks(old(BooksOf(group)), order, start, |targets|, Moves(status))
      ensures UsedAfter(old(group.sets), group.sets, if Moves(status) then targets else [])
      ensures (ending.OutOfDisks? ==> group.needsDisk) && (Moves(status) ==> !group.needsDisk)
      ensures !ending.OutOfDisks? && !Moves(status) ==> group.needsDisk == old(group.needsDisk)
      ensures SamePointers(old(group.sets), group.sets)
    {
      status := StatusOf(d, s, f, ending);
      if ending.Raised? { return; }
      if ending.OutOfDisks? {
        group.needsDisk := true;
      } else if Moves(status) {
        MoveOn(group, order, current, targets, start);
      }
      Finish(group, status, d, s, f);
    }
  }

  // ── How a session ends ──────────────────────────────────────────────────

  lemma {:induction false} TallyNone(log: seq<Event>, v: Verdict)
    ensures Tally(log, v) == 0 <==> forall e :: e in log ==> e.verdict != v
  {
    if log != [] {
      TallyNone(log[..|log| - 1], v);
      assert log == log[..|log| - 1] + [log[|log| - 1]];
    }
  }

  /** What the status says of the pairs reached, and of how the session ended. */
  ghost predicate Reports(events: seq<Event>, ending: Ending, status: SessionStatus) {
    && (status.Success? <==> ending.Through? && forall e :: e in events ==> !e.verdict.Broke?)
    && (status.Partial? <==> ending.Through? && (exists e :: e in events && e.verdict.Broke?)
                             && exists e :: e in events && !e.verdict.Broke?)
    && (status.Failed? <==> ending.Through? && events != [] && forall e :: e in events ==> e.verdict.Broke?)
    && (status.NeedsDisk? <==> ending.OutOfDisks?)
    && (status.Running? <==> ending.Raised?)
  }

  lemma StatusReports(events: seq<Event>, done: nat, skipped: nat, failed: nat, ending: Ending)
    requires Counted(events, done, skipped, failed)
    ensures Reports(events, ending, StatusOf(done, skipped, failed, ending))
  {
    TallyNone(events, Stored);
    TallyNone(events, Unchanged);
    TallyNone(events, Broke);
    assert events != [] ==> events[0] in events;
  }

  // ── Where the sets point ────────────────────────────────────────────────

  /** The rows with the set pointing at the disk, if there is one. */
  function Pointing(sets: seq<SetRow>, id: SetId, disk: Option<DiskId>): (after: seq<SetRow>)
    ensures |after| == |sets|
    ensures forall i :: 0 <= i < |sets| ==>
              after[i] == if sets[i].id == id && disk.Some? then sets[i].(disk := disk) else sets[i]
  {
    seq(|sets|, i requires 0 <= i < |sets| => if sets[i].id == id && disk.Some? then sets[i].(disk := disk) else sets[i])
  }

  /** The disk a set is written to last; none when no disk of it was usable. */
  function LastDisk(c: Chapter): Option<DiskId> {
    if c.first.None? then None
    else Some(if c.events == [] then c.first.value else c.events[|c.events| - 1].disk)
  }

  function PointingAll(sets: seq<SetRow>, log: seq<Chapter>): seq<SetRow> {
    if log == [] then sets
    else Pointing(PointingAll(sets, log[..|log| - 1]), log[|log| - 1].set_, LastDisk(log[|log| - 1]))
  }

  ghost predicate SamePointers(before: seq<SetRow>, after: seq<SetRow>) {
    |after| == |before| && forall i :: 0 <= i < |before| ==> after[i].id == before[i].id && after[i].disk == before[i].disk
  }

  lemma KindsOf(events: seq<Event>, b: Books, first: DiskId, t: Task, w: Weather, ending: Ending)
    requires SetWritten(events, b, first, t, w, ending)
    ensures forall k :: 0 <= k < |events| ==>
              events[k].set_ == t.set_ && k < |t.datasets| && events[k].dataset == t.datasets[k]
              && events[k].kind == if w.reply(t.set_, t.datasets[k]).Missing? then Full else t.asked
  {
    forall k | 0 <= k < |events|
      ensures events[k].set_ == t.set_ && k < |t.datasets| && events[k].dataset == t.datasets[k]
              && events[k].kind == if w.reply(t.set_, t.datasets[k]).Missing? then Full else t.asked
    {
      assert EventAt(events, k, b, first, t, w);
    }
  }

  lemma PointingRow(sets: seq<SetRow>, k: nat, disk: Option<DiskId>)
    requires k < |sets| && Distinct(Ids(sets))
    ensures Pointing(sets, sets[k].id, disk) == if disk.Some? then sets[k := sets[k].(disk := disk)] else sets
  {
    forall i | 0 <= i < |sets| && sets[i].id == sets[k].id ensures i == k {
      assert Ids(sets)[i] == Ids(sets)[k];
    }
  }

  lemma PointingTwice(sets: seq<SetRow>, id: SetId, a: Option<DiskId>, b: Option<DiskId>)
    requires b.Some?
    ensures Pointing(Pointing(sets, id, a), id, b) == Pointing(sets, id, b)
  {
  }

  /** While nothing is asked, a set that points at the disk picked goes on to point at the one in use. */
  ghost predicate FollowsDisk(w: Weather, before: seq<SetRow>, after: seq<SetRow>, id: SetId, first: DiskId, rec: DiskId) {
    Still(w) && Pointing(before, id, Some(first)) == before ==> after == Pointing(before, id, Some(rec))
  }

  /** While nothing is asked, the set points at the event's disk if the write has moved there; else nothing changes. */
  ghost predicate MovesTo(w: Weather, before: seq<SetRow>, after: seq<SetRow>, id: SetId, rec: DiskId, disk: DiskId) {
    Still(w) ==> after == Pointing(before, id, if disk != rec then Some(disk) else None)
  }

  lemma SetPointed(w: Weather, before: seq<SetRow>, picked: seq<SetRow>, after: seq<SetRow>, c: Chapter)
    requires c.first.Some? && picked == Pointing(before, c.set_, c.first)
    requires FollowsDisk(w, picked, after, c.set_, c.first.value, InUse(c.first.value, c.events, |c.events|))
    ensures Still(w) ==> after == Pointing(before, c.set_, LastDisk(c))
  {
    PointingTwice(before, c.set_, c.first, c.first);
    PointingTwice(before, c.set_, c.first, LastDisk(c));
  }

  lemma FirstFollowed(w: Weather, sets: seq<SetRow>, id: SetId, first: DiskId)
    ensures FollowsDisk(w, sets, sets, id, first, first)
  {
  }

  lemma DiskFollowed(
    w: Weather, before: seq<SetRow>, sets: seq<SetRow>, after: seq<SetRow>, id: SetId, first: DiskId, rec: DiskId, disk: DiskId)
    requires FollowsDisk(w, before, sets, id, first, rec) && MovesTo(w, sets, after, id, rec, disk)
    ensures FollowsDisk(w, before, after, id, first, disk)
  {
    PointingTwice(before, id, Some(rec), Some(disk));
  }

  lemma DiskKept(w: Weather, before: seq<SetRow>, sets: seq<SetRow>, after: seq<SetRow>, id: SetId, first: DiskId, rec: DiskId)
    requires FollowsDisk(w, before, sets, id, first, rec) && (Still(w) ==> after == sets)
    ensures FollowsDisk(w, before, after, id, first, rec)
  {
  }

  lemma PointingNext(sets: seq<SetRow>, log: seq<Chapter>, c: Chapter)
    ensures PointingAll(sets, log + [c]) == Pointing(PointingAll(sets, log), c.set_, LastDisk(c))
  {
    assert (log + [c])[..|log|] == log;
  }

  /**
   * Each set a disk was picked for points at the disk its last event went to, or at the one picked if there
   * is none; every other set points where it did.
   */
  ghost predicate PointsAsWritten(before: seq<SetRow>, after: seq<SetRow>, log: seq<Chapter>) {
    |after| == |before| && forall i :: 0 <= i < |before| ==> RowAsWritten(before[i], after[i], log)
  }

  ghost predicate RowAsWritten(before: SetRow, after: SetRow, log: seq<Chapter>) {
    && after.id == before.id
    && (forall n :: 0 <= n < |log| && log[n].set_ == before.id && log[n].first.Some? ==>
          after.disk == if log[n].events == [] then log[n].first else Some(log[n].events[|log[n].events| - 1].disk))
    && ((forall n :: 0 <= n < |log| && log[n].set_ == before.id ==> log[n].first.None?) ==> after.disk == before.disk)
  }

  lemma RowNext(before: SetRow, row: SetRow, log: seq<Chapter>, c: Chapter)
    requires RowAsWritten(before, row, log) && forall n :: 0 <= n < |log| ==> log[n].set_ != c.set_
    ensures RowAsWritten(before, if row.id == c.set_ && LastDisk(c).Some? then row.(disk := LastDisk(c)) else row, log + [c])
  {
    var more := log + [c];
    assert forall n :: 0 <= n < |log| ==> more[n] == log[n];
    assert more[|log|] == c;
  }

  lemma {:induction false} PointedAll(sets: seq<SetRow>, log: seq<Chapter>)
    requires forall m, n :: 0 <= m < n < |log| ==> log[m].set_ != log[n].set_
    ensures PointsAsWritten(sets, PointingAll(sets, log), log)
  {
    if log != [] {
      var init, c := log[..|log| - 1], log[|log| - 1];
      PointedAll(sets, init);
      assert log == init + [c];
      var mid := PointingAll(sets, init);
      forall i | 0 <= i < |sets| ensures RowAsWritten(sets[i], PointingAll(sets, log)[i], log) {
        assert RowAsWritten(sets[i], mid[i], init);
        RowNext(sets[i], mid[i], init, c);
      }
    }
  }

  lemma PointedStill(before: seq<SetRow>, written: seq<SetRow>, after: seq<SetRow>, log: seq<Chapter>)
    requires PointsAsWritten(before, written, log) && SamePointers(written, after)
    ensures PointsAsWritten(before, after, log)
  {
    forall i | 0 <= i < |before| ensures RowAsWritten(before[i], after[i], log) {
      assert RowAsWritten(before[i], written[i], log);
    }
  }

  lemma WrittenPoints(
    sets: seq<SetRow>, sets': seq<SetRow>, log: seq<Chapter>, b: Books, targets: seq<SetId>, datasets: seq<Dataset>,
    trigger: Kind, w: Weather, ending: Ending)
    requires LogOk(log, b, sets, targets, datasets, trigger, w, ending) && Distinct(targets)
    requires Still(w) ==> sets' == PointingAll(sets, log)
    ensures Still(w) ==> PointsAsWritten(sets, sets', log)
  {
    ChaptersDistinct(log, b, sets, targets, datasets, trigger, w, ending);
    PointedAll(sets, log);
  }

  lemma ChaptersDistinct(
    log: seq<Chapter>, b: Books, sets: seq<SetRow>, targets: seq<SetId>, datasets: seq<Dataset>, trigger: Kind,
    w: Weather, ending: Ending)
    requires LogOk(log, b, sets, targets, datasets, trigger, w, ending) && Distinct(targets)
    ensures forall m, n :: 0 <= m < n < |log| ==> log[m].set_ != log[n].set_
  {
    forall m | 0 <= m < |log| ensures log[m].set_ == targets[m] {
      assert ChapterAt(log, m, b, sets, targets, datasets, trigger, w, ending);
    }
  }

  // ── Lemmas about the specification ──────────────────────────────────────

  lemma UsedIs(sets: seq<SetRow>, k: nat)
    requires k < |sets| && Distinct(Ids(sets))
    ensures UsedOf(sets, sets[k].id) <==> sets[k].used
  {
    if j :| 0 <= j < |sets| && sets[j].id == sets[k].id && sets[j].used {
      assert Ids(sets)[j] == Ids(sets)[k];
    }
  }

  lemma TaskSame(sets: seq<SetRow>, sets': seq<SetRow>, id: SetId, datasets: seq<Dataset>, trigger: Kind)
    requires SameUse(sets, sets')
    ensures TaskOf(sets, id, datasets, trigger) == TaskOf(sets', id, datasets, trigger)
  {
  }

  lemma PickedIsMember(disks: seq<DiskRow>, id: SetId, pointer: Option<DiskId>, usable: set<DiskId>, rec: Option<DiskId>)
    requires FirstUsable(Members(disks, id), pointer, usable, rec) && rec.Some?
    ensures rec.value in Members(disks, id)
  {
  }

  lemma {:induction false} BooksForKeep(b: Books, targets: seq<SetId>, times: nat, w: Weather, n: nat)
    requires n <= |targets| && Sound(b)
    ensures Sound(BooksFor(b, targets, times, w, n))
    ensures forall id :: id in b.ids ==> id in BooksFor(b, targets, times, w, n).ids
  {
    if n > 0 {
      BooksForKeep(b, targets, times, w, n - 1);
      RequestsKeep(BooksFor(b, targets, times, w, n - 1), Asked(targets[n - 1], w, 0, times));
    }
  }

  lemma EndBooksKeep(b: Books, log: seq<Chapter>, targets: seq<SetId>, datasets: seq<Dataset>, w: Weather, ending: Ending)
    requires |log| <= |targets| && Sound(b)
    ensures forall id :: id in b.ids ==> id in EndBooks(b, log, targets, datasets, w, ending).ids
  {
    if log != [] {
      BooksForKeep(b, targets, |datasets| + 1, w, |log| - 1);
      RequestsKeep(BooksFor(b, targets, |datasets| + 1, w, |log| - 1),
                   Asked(targets[|log| - 1], w, 0, Pauses(log[|log| - 1].events, ending)));
    }
  }

  lemma StartUnique(order: seq<SetId>, id: SetId, start: nat)
    requires Distinct(order) && start < |order| && order[start] == id
    ensures forall k :: 0 <= k < |order| && order[k] == id ==> k == start
  {
  }

  lemma WindowWithin(order: seq<SetId>, start: nat, k: nat)
    requires order != []
    ensures forall t :: t in Window(order, start, k) ==> t in order
  {
    var window := Window(order, start, k);
    forall j | 0 <= j < k ensures window[j] in order {
      assert window[j] == Around(order, start + j) && Around(order, start + j) == order[Wrap(start + j, |order|)];
    }
  }

  method MarkUsed(sets: seq<SetRow>, targets: seq<SetId>) returns (after: seq<SetRow>)
    ensures |after| == |sets|
    ensures forall i :: 0 <= i < |sets| ==> after[i] == sets[i].(used := sets[i].used || sets[i].id in targets)
  {
    after := sets;
    var n := 0;
    while n < |targets|
      invariant 0 <= n <= |targets| && |after| == |sets|
      invariant forall i :: 0 <= i < |sets| ==> after[i] == sets[i].(used := sets[i].used || sets[i].id in targets[..n])
    {
      var m := 0;
      while m < |after|
        invariant 0 <= m <= |after| == |sets|
        invariant forall i :: 0 <= i < |sets| ==>
                    after[i] == sets[i].(used := sets[i].used || sets[i].id in targets[..if i < m then n + 1 else n])
      {
        if after[m].id == targets[n] { after := after[m := after[m].(used := true)]; }
        m := m + 1;
      }
      n := n + 1;
    }
    assert targets[..n] == targets;
  }

  lemma UsedKeeps(disks: seq<DiskRow>, before: seq<SetRow>, after: seq<SetRow>, targets: seq<SetId>)
    requires |after| == |before| && forall id :: id in targets ==> id in Ids(before)
    requires forall i :: 0 <= i < |after| ==> after[i] == before[i].(used := before[i].used || before[i].id in targets)
    ensures Ids(after) == Ids(before) && (Dense(before) ==> Dense(after)) && UsedAfter(before, after, targets)
    ensures PointersOk(disks, before) ==> PointersOk(disks, after)
  {
    forall i | 0 <= i < |after| && Pointed(disks, before[i]) ensures Pointed(disks, after[i]) {
    }
    forall id | true ensures UsedOf(after, id) <==> UsedOf(before, id) || id in targets {
      if k :| 0 <= k < |before| && before[k].id == id && before[k].used { assert after[k].used; }
      if id in targets {
        var k :| 0 <= k < |Ids(before)| && Ids(before)[k] == id;
        assert after[k].id == id && after[k].used;
      }
    }
  }

  lemma MulOneMore(m: nat, n: nat)
    ensures (m + 1) * n == m * n + n
  {
  }

  lemma {:induction false} FlatLength(log: seq<Chapter>, n: nat)
    requires forall k :: 0 <= k < |log| ==> |log[k].events| == n
    ensures |Flat(log)| == |log| * n
  {
    if log != [] {
      FlatLength(log[..|log| - 1], n);
      MulOneMore(|log| - 1, n);
    }
  }

  lemma ChapterLength(c: Chapter, b: Books, t: Task, w: Weather, ending: Ending)
    requires ChapterOk(c, b, t, w, ending)
    ensures |c.events| <= |t.datasets| && (ending.Through? ==> |c.events| == |t.datasets|)
  {
  }

  lemma LengthWithin(l: nat, m: nat, n: nat, last: nat)
    requires 0 < l <= m && last <= n
    ensures (l - 1) * n + last <= m * n && (l == m && last == n ==> (l - 1) * n + last == m * n)
  {
    MulOneMore(l - 1, n);
    MulMono(n, l, m);
    assert l * n == n * l && m * n == n * m;
  }

  lemma {:induction false} ChapterLengths(
    log: seq<Chapter>, b: Books, sets: seq<SetRow>, targets: seq<SetId>, datasets: seq<Dataset>, trigger: Kind,
    w: Weather, ending: Ending, n: nat)
    requires LogSoFar(log, b, sets, targets, datasets, trigger, w, ending) && n < |log|
    ensures |log[n].events| <= |datasets|
    ensures n + 1 < |log| || ending.Through? ==> |log[n].events| == |datasets|
  {
    assert ChapterAt(log, n, b, sets, targets, datasets, trigger, w, ending);
    ChapterLength(log[n], BooksFor(b, targets, |datasets| + 1, w, n), TaskOf(sets, targets[n], datasets, trigger), w,
                  EndingAt(log, n, ending));
  }

  lemma {:induction false} LogLength(
    log: seq<Chapter>, b: Books, sets: seq<SetRow>, targets: seq<SetId>, datasets: seq<Dataset>, trigger: Kind,
    w: Weather, ending: Ending)
    requires LogOk(log, b, sets, targets, datasets, trigger, w, ending) && targets != []
    ensures |Flat(log)| <= |targets| * |datasets| && (ending.Through? ==> |Flat(log)| == |targets| * |datasets|)
  {
    var init := log[..|log| - 1];
    forall k | 0 <= k < |init| ensures |init[k].events| == |datasets| {
      ChapterLengths(log, b, sets, targets, datasets, trigger, w, ending, k);
    }
    FlatLength(init, |datasets|);
    ChapterLengths(log, b, sets, targets, datasets, trigger, w, ending, |log| - 1);
    LengthWithin(|log|, |targets|, |datasets|, |log[|log| - 1].events|);
  }

  /**
   * The counters add up to the pairs reached, which are all sets times all datasets if the session got
   * through; and with datasets to write, the group moves on exactly when it did and something was done or
   * skipped.
   */
  lemma SessionAccounts(
    log: seq<Chapter>, b: Books, sets: seq<SetRow>, targets: seq<SetId>, datasets: seq<Dataset>, trigger: Kind,
    w: Weather, done: nat, skipped: nat, failed: nat, ending: Ending)
    requires LogOk(log, b, sets, targets, datasets, trigger, w, ending) && Counted(Flat(log), done, skipped, failed)
    requires targets != [] && datasets != []
    ensures done + skipped + failed == |Flat(log)| <= |targets| * |datasets|
    ensures ending.Through? ==> done + skipped + failed == |targets| * |datasets|
    ensures Moves(StatusOf(done, skipped, failed, ending)) <==> ending.Through? && done + skipped > 0
  {
    TallyAll(Flat(log));
    LogLength(log, b, sets, targets, datasets, trigger, w, ending);
    MulOneMore(|targets| - 1, |datasets|);
  }
}

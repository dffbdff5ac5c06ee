/**
 * What can be asked of a group, and what comes of it: requests that name its own sets and disks, and those
 * made of other groups as far as they touch its disks (nazman/services/backup_group_service.py,
 * nazman/managers/zfs_backup_manager.py). Most are allowed while a session of the group runs.
 */
module Requests {
  import opened Streams
  import opened Rotation
  import opened Groups

  /** What can be asked. `SessionElsewhere`: a session of another group begins or ends. */
  datatype Request =
    | Create(position: Option<int>) | Update(set_: SetId, position: Option<int>) | Activate(set_: SetId)
    | Attach(set_: SetId, disk: DiskId) | Declare(home: Option<SetId>) | Deregister(disk: DiskId)
    | Delete(set_: SetId) | Detach(set_: SetId, disk: DiskId) | Advance(set_: SetId) | Choose(set_: SetId, disk: DiskId)
    | CreateElsewhere | SessionElsewhere(set_: SetId, busy: bool)

  /** The cycle, the active set, where each disk is filed, and the sets of other groups. */
  datatype Books = Books(ids: seq<SetId>, active: Option<SetId>, disks: seq<DiskRow>, others: seq<OtherSet>)

  ghost function BooksOf(group: BackupGroup): Books
    reads group
  {
    Books(Ids(group.sets), group.activeSet, group.disks, group.others)
  }

  /** A set of this group or of another one. */
  predicate SomeSet(b: Books, id: SetId) {
    id in b.ids || id in OtherIds(b.others)
  }

  /** The books after a request; while a session of the group runs, no set of it is deleted and no disk of one detached. */
  function Granted(b: Books, q: Request, running: bool := true): Books {
    match q
    case Create(p) =>
      if p.Some? && p.value < |b.ids| then b
      else
        var id := NextId(b.ids, b.others, b.disks);
        b.(ids := b.ids + [id], active := if b.active.Some? then b.active else Some(id))
    case Update(id, p) => if id in b.ids && p.Some? && p.value >= |b.ids| then b.(ids := WithoutId(b.ids, id) + [id]) else b
    case Activate(id) => if id in b.ids then b.(active := Some(id)) else b
    case Attach(id, disk) => if SomeSet(b, id) then b.(disks := Filed(b.disks, disk, Some(id))) else b
    case Declare(home) => if HomeExists(b, home) then b.(disks := b.disks + [DiskRow(NextDisk(b.disks), home)]) else b
    case Deregister(disk) => b.(disks := Undeclared(b.disks, disk))
    case Delete(id) =>
      if IdleElsewhere(b.others, id) then b.(disks := Vacated(b.disks, id), others := WithoutOther(b.others, id))
      else if id in b.ids && !running then
        var ids := WithoutId(b.ids, id);
        b.(ids := ids, disks := Vacated(b.disks, id),
           active := if b.active != Some(id) then b.active else if ids == [] then None else Some(ids[0]))
      else b
    case Detach(id, disk) =>
      if disk in Members(b.disks, id) && (IdleElsewhere(b.others, id) || (id in b.ids && !running))
      then b.(disks := Undeclared(b.disks, disk)) else b
    case CreateElsewhere => b.(others := b.others + [OtherSet(NextId(b.ids, b.others, b.disks), false)])
    case SessionElsewhere(id, busy) => b.(others := WithBusy(b.others, id, busy))
    case _ => b
  }

  predicate HomeExists(b: Books, home: Option<SetId>) {
    home.None? || SomeSet(b, home.value)
  }

  function GrantedAll(b: Books, qs: seq<Request>, running: bool := true): Books {
    if qs == [] then b else Granted(GrantedAll(b, qs[..|qs| - 1], running), qs[|qs| - 1], running)
  }

  lemma {:induction false} GrantedBoth(b: Books, qs: seq<Request>, more: seq<Request>)
    ensures GrantedAll(GrantedAll(b, qs), more) == GrantedAll(b, qs + more)
  {
    if more == [] {
      assert qs + more == qs;
    } else {
      GrantedBoth(b, qs, more[..|more| - 1]);
      assert (qs + more)[..|qs + more| - 1] == qs + more[..|more| - 1];
    }
  }

  // ── Requests to a group ─────────────────────────────────────────────────

  /** What the group itself refuses while a session of it runs. */
  predicate RefusedMeanwhile(q: Request) {
    q.Delete? || q.Detach? || q.Advance? || q.Choose?
  }

  /** Any request, whether a session of the group runs or not. */
  method Perform(group: BackupGroup, q: Request) returns (answer: Answer)
    requires group.Valid()
    modifies group`sets, group`activeSet, group`needsDisk, group`disks, group`others
    ensures group.Valid() && BooksOf(group) == Granted(old(BooksOf(group)), q, Running in group.sessions)
    ensures Running in group.sessions || !q.Detach? ==> (old(group.AllPointed()) ==> group.AllPointed())
    ensures Running in group.sessions ==> SameUse(old(group.sets), group.sets)
    ensures Running in group.sessions && RefusedMeanwhile(q) && q.set_ in old(Ids(group.sets)) ==>
              !answer.Done? && group.sets == old(group.sets) && group.needsDisk == old(group.needsDisk)
  {
    if RefusedMeanwhile(q) || q.Update? || q.Activate? {
      var k := FindOther(group.others, q.set_);
      if k.Some? {
        answer := PerformElsewhere(group, q);
        return;
      }
    }
    answer := PerformHere(group, q);
  }

  /** A request for a set of another group: what it does to that one's cycle and pointers is not in these books. */
  method PerformElsewhere(group: BackupGroup, q: Request) returns (answer: Answer)
    requires group.Valid() && (RefusedMeanwhile(q) || q.Update? || q.Activate?) && q.set_ in OtherIds(group.others)
    modifies group`disks, group`others
    ensures group.Valid() && BooksOf(group) == Granted(old(BooksOf(group)), q, Running in group.sessions)
    ensures old(group.AllPointed()) ==> group.AllPointed()
  {
    match q {
      case Delete(id) => answer := group.DeleteElsewhere(id);
      case Detach(id, disk) => answer := group.DetachElsewhere(id, disk);
      case _ => answer := Elsewhere;
    }
  }

  method PerformHere(group: BackupGroup, q: Request) returns (answer: Answer)
    requires group.Valid()
    requires RefusedMeanwhile(q) || q.Update? || q.Activate? ==> q.set_ !in OtherIds(group.others)
    modifies group`sets, group`activeSet, group`needsDisk, group`disks, group`others
    ensures group.Valid() && BooksOf(group) == Granted(old(BooksOf(group)), q, Running in group.sessions)
    ensures Running in group.sessions || !q.Detach? ==> (old(group.AllPointed()) ==> group.AllPointed())
    ensures Running in group.sessions ==> SameUse(old(group.sets), group.sets)
    ensures Running in group.sessions && RefusedMeanwhile(q) ==>
              !answer.Done? && group.sets == old(group.sets) && group.needsDisk == old(group.needsDisk)
  {
    if RefusedMeanwhile(q) {
      answer := PerformAtRest(group, q);
    } else {
      answer := PerformAnyTime(group, q);
    }
  }

  method PerformAtRest(group: BackupGroup, q: Request) returns (answer: Answer)
    requires group.Valid() && RefusedMeanwhile(q) && q.set_ !in OtherIds(group.others)
    modifies group`sets, group`activeSet, group`needsDisk, group`disks
    ensures group.Valid() && BooksOf(group) == Granted(old(BooksOf(group)), q, Running in group.sessions)
    ensures Running in group.sessions || !q.Detach? ==> (old(group.AllPointed()) ==> group.AllPointed())
    ensures Running in group.sessions ==> !answer.Done? && group.sets == old(group.sets) && group.needsDisk == old(group.needsDisk)
  {
    NotElsewhere(group.others, q.set_);
    match q {
      case Delete(id) => answer := group.DeleteSet(id);
      case Detach(id, disk) => answer := group.DetachDisk(id, disk);
      case Advance(id) => answer := group.AdvanceDisk(id);
      case Choose(id, disk) => answer := group.SetActiveDisk(id, disk);
    }
  }

  method PerformAnyTime(group: BackupGroup, q: Request) returns (answer: Answer)
    requires group.Valid() && !RefusedMeanwhile(q)
    modifies group`sets, group`activeSet, group`needsDisk, group`disks, group`others
    ensures group.Valid() && (old(group.AllPointed()) ==> group.AllPointed())
    ensures BooksOf(group) == Granted(old(BooksOf(group)), q, Running in group.sessions) && SameUse(old(group.sets), group.sets)
  {
    ghost var disks, sets := group.disks, group.sets;
    match q {
      case Create(position) => answer := CreateNext(group, position);
      case Update(id, position) => answer := group.UpdateSet(id, position); UpdateUse(sets, group.sets, id, position, answer.Done?);
      case Activate(id) => answer := group.ActivateSet(id);
      case Attach(id, disk) => answer := group.AttachDisk(id, disk); AttachUse(disks, group.disks, sets, group.sets, id, disk);
      case Declare(home) => answer := group.DeclareDisk(home); DeclareUse(sets, group.sets, home, NextDisk(disks));
      case Deregister(disk) => answer := group.DeregisterDisk(disk); LossUse(disks, group.disks, sets, group.sets, disk);
      case CreateElsewhere => group.CreateElsewhere(); answer := Done;
      case SessionElsewhere(id, busy) => group.SessionElsewhere(id, busy); answer := Done;
    }
  }

  /** A new set gets the next free id. */
  method CreateNext(group: BackupGroup, position: Option<int>) returns (answer: Answer)
    requires group.Valid()
    modifies group`sets, group`activeSet
    ensures group.Valid() && (old(group.AllPointed()) ==> group.AllPointed())
    ensures BooksOf(group) == Granted(old(BooksOf(group)), Create(position), Running in group.sessions)
    ensures SameUse(old(group.sets), group.sets)
  {
    var id := NextId(Ids(group.sets), group.others, group.disks);
    NextIdIsFree(Ids(group.sets), group.others, group.disks);
    answer := group.CreateSet(id, position);
    if answer.Done? { CreateUse(old(group.sets), group.sets, id); }
  }

  lemma NotElsewhere(others: seq<OtherSet>, id: SetId)
    requires id !in OtherIds(others)
    ensures !IdleElsewhere(others, id)
  {
    forall k | 0 <= k < |others| ensures others[k].id != id {
      assert OtherIds(others)[k] in OtherIds(others);
    }
  }

  /** Requests that come one after the other. */
  method PerformAll(group: BackupGroup, qs: seq<Request>)
    requires group.Valid()
    modifies group`sets, group`activeSet, group`needsDisk, group`disks, group`others
    ensures group.Valid() && BooksOf(group) == GrantedAll(old(BooksOf(group)), qs, Running in group.sessions)
    ensures Running in group.sessions ==> SameUse(old(group.sets), group.sets) && (old(group.AllPointed()) ==> group.AllPointed())
    ensures qs == [] ==> group.needsDisk == old(group.needsDisk) && group.sets == old(group.sets)
  {
    hide Granted, GrantedAll, SameUse;
    ghost var b, sets, running := BooksOf(group), group.sets, Running in group.sessions;
    NothingGranted(b, sets, running);
    assert qs[..0] == [];
    var n := 0;
    while n < |qs|
      invariant 0 <= n <= |qs| && group.Valid() && BooksOf(group) == GrantedAll(b, qs[..n], running)
      invariant running ==> SameUse(sets, group.sets) && (old(group.AllPointed()) ==> group.AllPointed())
      invariant n == 0 ==> group.needsDisk == old(group.needsDisk) && group.sets == old(group.sets)
    {
      ghost var before := group.sets;
      GrantedNext(b, qs, n, running);
      var answer := Perform(group, qs[n]);
      if running { SameUseOn(sets, before, group.sets); }
      n := n + 1;
    }
    assert qs[..n] == qs;
  }

  lemma NothingGranted(b: Books, sets: seq<SetRow>, running: bool)
    ensures GrantedAll(b, [], running) == b && SameUse(sets, sets)
  {
  }

  lemma GrantedNext(b: Books, qs: seq<Request>, n: nat, running: bool)
    requires n < |qs|
    ensures GrantedAll(b, qs[..n + 1], running) == Granted(GrantedAll(b, qs[..n], running), qs[n], running)
  {
    assert qs[..n + 1][..n] == qs[..n] && qs[..n + 1][n] == qs[n];
  }

  // ── What stays the same ─────────────────────────────────────────────────

  ghost predicate UsedOf(sets: seq<SetRow>, id: SetId) {
    exists k :: 0 <= k < |sets| && sets[k].id == id && sets[k].used
  }

  /** The same sets count as used. */
  ghost predicate SameUse(before: seq<SetRow>, after: seq<SetRow>) {
    forall id :: UsedOf(before, id) <==> UsedOf(after, id)
  }

  lemma SameUseOn(a: seq<SetRow>, b: seq<SetRow>, c: seq<SetRow>)
    requires SameUse(a, b) && SameUse(b, c)
    ensures SameUse(a, c)
  {
  }

  lemma KeptUse(before: seq<SetRow>, after: seq<SetRow>)
    requires Kept(before, after) && Distinct(Ids(before)) && forall id :: id in Ids(before) ==> id in Ids(after)
    ensures SameUse(before, after)
  {
    forall id | true ensures UsedOf(before, id) <==> UsedOf(after, id) {
      if k :| 0 <= k < |after| && after[k].id == id && after[k].used {
        var m :| 0 <= m < |before| && SameButPosition(after[k], before[m]);
      }
      if k :| 0 <= k < |before| && before[k].id == id && before[k].used {
        assert Ids(before)[k] == id && id in Ids(before) && id in Ids(after);
        var j :| 0 <= j < |Ids(after)| && Ids(after)[j] == id;
        assert ComesFrom(before, after[j]) && after[j].id == id;
        var m :| 0 <= m < |before| && SameButPosition(after[j], before[m]);
        assert Ids(before)[m] == before[m].id == id;
      }
    }
  }

  lemma {:induction false} WithoutIdMembers(ids: seq<SetId>, id: SetId)
    ensures forall t :: t in WithoutId(ids, id) <==> t in ids && t != id
  {
    if ids != [] {
      WithoutIdMembers(ids[1..], id);
      assert ids == [ids[0]] + ids[1..];
    }
  }

  lemma UpdateUse(before: seq<SetRow>, after: seq<SetRow>, id: SetId, position: Option<int>, done: bool)
    requires Distinct(Ids(before))
    requires if done then Kept(before, after) && Ids(after) == Reordered(before, id, position) else after == before
    ensures SameUse(before, after)
  {
    if done {
      WithoutIdMembers(Ids(before), id);
      KeptUse(before, after);
    }
  }

  lemma CreateUse(before: seq<SetRow>, after: seq<SetRow>, id: SetId)
    requires Kept(before + [SetRow(id, 0, None, false)], after) && Distinct(Ids(before)) && id !in Ids(before)
    requires Ids(after) == Ids(before) + [id]
    ensures SameUse(before, after)
  {
    var more := before + [SetRow(id, 0, None, false)];
    assert Ids(more) == Ids(before) + [id];
    KeptUse(more, after);
    forall t | true ensures UsedOf(before, t) <==> UsedOf(more, t) {
      if k :| 0 <= k < |before| && before[k].id == t && before[k].used {
        assert more[k].used;
      }
    }
  }

  lemma RowUse(before: seq<SetRow>, after: seq<SetRow>)
    requires |after| == |before| && forall i :: 0 <= i < |after| ==> after[i].id == before[i].id && after[i].used == before[i].used
    ensures SameUse(before, after)
  {
    forall id | true ensures UsedOf(before, id) <==> UsedOf(after, id) {
      if k :| 0 <= k < |before| && before[k].id == id && before[k].used { assert after[k].used; }
      if k :| 0 <= k < |after| && after[k].id == id && after[k].used { assert before[k].used; }
    }
  }

  lemma AttachUse(disks: seq<DiskRow>, disks': seq<DiskRow>, sets: seq<SetRow>, sets': seq<SetRow>, id: SetId, disk: DiskId)
    requires sets' == sets || PointersAttached(disks, disks', sets, sets', id, disk)
    ensures SameUse(sets, sets')
  {
    RowUse(sets, sets');
  }

  lemma DeclareUse(sets: seq<SetRow>, sets': seq<SetRow>, home: Option<SetId>, disk: DiskId)
    requires PointersAdopted(sets, sets', home, disk)
    ensures SameUse(sets, sets')
  {
    RowUse(sets, sets');
  }

  lemma LossUse(disks: seq<DiskRow>, disks': seq<DiskRow>, sets: seq<SetRow>, sets': seq<SetRow>, disk: DiskId)
    requires PointersAfterLoss(disks, disks', sets, sets', disk)
    ensures SameUse(sets, sets')
  {
    RowUse(sets, sets');
  }

  /** The disk table is in order, and no set of the group is another group's. */
  ghost predicate Sound(b: Books) {
    InIdOrder(b.disks) && Apart(b.ids, b.others)
  }

  lemma {:induction false} OneKeeps(b: Books, q: Request)
    requires Sound(b)
    ensures Sound(Granted(b, q))
    ensures forall id :: id in b.ids ==> id in Granted(b, q).ids
    ensures b.active.Some? ==> Granted(b, q).active.Some?
  {
    match q
    case Create(_) => NextIdIsFree(b.ids, b.others, b.disks);
    case Update(id, _) => WithoutIdMembers(b.ids, id);
    case Deregister(disk) => UndeclaredInOrder(b.disks, disk);
    case Detach(_, disk) => UndeclaredInOrder(b.disks, disk);
    case Delete(id) => WithoutOtherIds(b.others, id);
    case CreateElsewhere =>
      NextIdIsFree(b.ids, b.others, b.disks);
      NotYetThere(b.ids, b.others, b.disks);
      OneMoreApart(b.ids, b.others, NextId(b.ids, b.others, b.disks));
    case SessionElsewhere(id, busy) => BusyKeepsIds(b.others, id, busy);
    case _ =>
  }

  lemma NotYetThere(ids: seq<SetId>, others: seq<OtherSet>, disks: seq<DiskRow>)
    ensures NextId(ids, others, disks) !in ids && NextId(ids, others, disks) !in OtherIds(others)
  {
    NextIdIsFree(ids, others, disks);
  }

  /** No request takes a set away, or leaves the group without an active one; the disk table stays in order. */
  lemma {:induction false} RequestsKeep(b: Books, qs: seq<Request>)
    requires Sound(b)
    ensures Sound(GrantedAll(b, qs))
    ensures forall id :: id in b.ids ==> id in GrantedAll(b, qs).ids
    ensures b.active.Some? ==> GrantedAll(b, qs).active.Some?
  {
    if qs != [] {
      RequestsKeep(b, qs[..|qs| - 1]);
      OneKeeps(GrantedAll(b, qs[..|qs| - 1]), qs[|qs| - 1]);
    }
  }

  lemma {:induction false} UndeclaredInOrder(disks: seq<DiskRow>, disk: DiskId)
    requires InIdOrder(disks)
    ensures InIdOrder(Undeclared(disks, disk))
    ensures forall r :: r in Undeclared(disks, disk) <==> r in disks && r.id != disk
  {
    if disks != [] {
      var init := disks[..|disks| - 1];
      UndeclaredInOrder(init, disk);
      assert disks == init + [disks[|disks| - 1]];
      var left := Undeclared(init, disk);
      forall i | 0 <= i < |left| ensures left[i].id < disks[|disks| - 1].id {
        assert left[i] in left && left[i] in init;
      }
    }
  }

  // ── Where a disk ends up ────────────────────────────────────────────────

  /** What a request does to a disk: nothing, file it, or undeclare it. */
  datatype Fate = Untouched | Put(home: Option<SetId>) | Gone

  function FateOf(b: Books, q: Request, disk: DiskId): Fate {
    match q
    case Attach(id, d) => if d == disk && SomeSet(b, id) && Declared(b.disks, disk) then Put(Some(id)) else Untouched
    case Declare(home) => if HomeExists(b, home) && NextDisk(b.disks) == disk then Put(home) else Untouched
    case Deregister(d) => if d == disk then Gone else Untouched
    case Detach(id, d) => if d == disk && IdleElsewhere(b.others, id) && disk in Members(b.disks, id) then Gone else Untouched
    case Delete(id) => if IdleElsewhere(b.others, id) && disk in Members(b.disks, id) then Put(None) else Untouched
    case _ => Untouched
  }

  predicate Declared(disks: seq<DiskRow>, disk: DiskId)
    ensures Declared(disks, disk) <==> Known(disks, disk)
  {
    exists i :: 0 <= i < |disks| && disks[i].id == disk
  }

  function FateAt(b: Books, qs: seq<Request>, k: nat, disk: DiskId): Fate
    requires k < |qs|
  {
    FateOf(GrantedAll(b, qs[..k]), qs[k], disk)
  }

  /** Request k is the last that touches the disk. */
  ghost predicate LastTouch(b: Books, qs: seq<Request>, k: nat, disk: DiskId) {
    && k < |qs| && !FateAt(b, qs, k, disk).Untouched?
    && forall j :: k < j < |qs| ==> FateAt(b, qs, j, disk).Untouched?
  }

  /** If anything touches the disk, the last to do so files it under the set. */
  ghost predicate Stays(b: Books, qs: seq<Request>, disk: DiskId, id: SetId) {
    forall k: nat :: LastTouch(b, qs, k, disk) ==> FateAt(b, qs, k, disk) == Put(Some(id))
  }

  /** The last to touch the disk does not undeclare it. */
  ghost predicate StaysDeclared(b: Books, qs: seq<Request>, disk: DiskId) {
    forall k: nat :: LastTouch(b, qs, k, disk) ==> !FateAt(b, qs, k, disk).Gone?
  }

  lemma FateNext(b: Books, qs: seq<Request>, q: Request, k: nat, disk: DiskId)
    requires k <= |qs|
    ensures FateAt(b, qs + [q], k, disk) == if k < |qs| then FateAt(b, qs, k, disk) else FateOf(GrantedAll(b, qs), q, disk)
  {
    assert (qs + [q])[..k] == qs[..k];
    assert qs[..|qs|] == qs;
  }

  /** One more request: it is the last to touch the disk, or it changes nothing about which one is. */
  lemma TouchNext(b: Books, qs: seq<Request>, q: Request, k: nat, disk: DiskId)
    ensures LastTouch(b, qs + [q], k, disk)
            <==> if FateOf(GrantedAll(b, qs), q, disk).Untouched? then LastTouch(b, qs, k, disk) else k == |qs|
  {
    forall j: nat | j <= |qs|
      ensures FateAt(b, qs + [q], j, disk) == if j < |qs| then FateAt(b, qs, j, disk) else FateOf(GrantedAll(b, qs), q, disk)
    {
      FateNext(b, qs, q, j, disk);
    }
    if k < |qs| {
      assert FateAt(b, qs + [q], |qs|, disk) == FateOf(GrantedAll(b, qs), q, disk);
    }
  }

  lemma KnownMember(disks: seq<DiskRow>, disk: DiskId, id: SetId)
    requires InIdOrder(disks)
    ensures disk in Members(disks, id) ==> Known(disks, disk)
  {
  }

  lemma MemberRow(disks: seq<DiskRow>, disk: DiskId, id: SetId)
    ensures disk in Members(disks, id) <==> DiskRow(disk, Some(id)) in disks
  {
  }

  lemma FiledMembers(disks: seq<DiskRow>, filed: DiskId, to: Option<SetId>, disk: DiskId, id: SetId)
    requires InIdOrder(disks)
    ensures disk in Members(Filed(disks, filed, to), id)
            <==> if disk == filed then Known(disks, disk) && to == Some(id) else disk in Members(disks, id)
  {
    var after := Filed(disks, filed, to);
    if i :| 0 <= i < |disks| && disks[i].id == disk {
      assert after[i] == if disk == filed then DiskRow(disk, to) else disks[i];
    }
    if i :| 0 <= i < |after| && after[i] == DiskRow(disk, Some(id)) {
      assert disks[i].id == disk;
    }
  }

  lemma MembersWithout(disks: seq<DiskRow>, gone: DiskId, disk: DiskId, id: SetId)
    requires InIdOrder(disks)
    ensures disk in Members(Undeclared(disks, gone), id) <==> disk != gone && disk in Members(disks, id)
  {
    UndeclaredInOrder(disks, gone);
    MemberRow(disks, disk, id);
    MemberRow(Undeclared(disks, gone), disk, id);
  }

  lemma VacatedMembers(disks: seq<DiskRow>, vacated: SetId, disk: DiskId, id: SetId)
    ensures disk in Members(Vacated(disks, vacated), id) <==> id != vacated && disk in Members(disks, id)
  {
    var after := Vacated(disks, vacated);
    if i :| 0 <= i < |disks| && disks[i] == DiskRow(disk, Some(id)) && id != vacated {
      assert after[i] == DiskRow(disk, Some(id));
    }
    if i :| 0 <= i < |after| && after[i] == DiskRow(disk, Some(id)) {
      assert disks[i] == DiskRow(disk, Some(id));
    }
  }

  lemma NextIsNew(disks: seq<DiskRow>, id: SetId)
    requires InIdOrder(disks)
    ensures !Known(disks, NextDisk(disks)) && NextDisk(disks) !in Members(disks, id)
  {
    if disks != [] {
      forall i | 0 <= i < |disks| ensures disks[i].id < NextDisk(disks) {
        assert i < |disks| - 1 ==> disks[i].id < disks[|disks| - 1].id;
      }
    }
  }

  /** Where a disk is after a request. */
  lemma {:induction false} MemberAfter(b: Books, q: Request, disk: DiskId, id: SetId)
    requires InIdOrder(b.disks)
    ensures disk in Members(Granted(b, q).disks, id)
            <==> match FateOf(b, q, disk)
                 case Untouched => disk in Members(b.disks, id)
                 case Put(home) => home == Some(id)
                 case Gone => false
  {
    match q
    case Attach(t, d) =>
      FiledMembers(b.disks, d, Some(t), disk, id);
      KnownMember(b.disks, disk, id);
    case Declare(home) =>
      DeclaredMembers(b.disks, NextDisk(b.disks), home, id);
      NextIsNew(b.disks, id);
    case Deregister(d) => MembersWithout(b.disks, d, disk, id);
    case Detach(_, d) => MembersWithout(b.disks, d, disk, id);
    case Delete(t) =>
      VacatedMembers(b.disks, t, disk, id);
      OneHome(b.disks, disk, t, id);
    case _ =>
  }

  lemma SameKnown(before: seq<DiskRow>, after: seq<DiskRow>, disk: DiskId)
    requires |after| == |before| && forall i :: 0 <= i < |before| ==> after[i].id == before[i].id
    ensures Known(before, disk) <==> Known(after, disk)
  {
    if i :| 0 <= i < |before| && before[i].id == disk { assert after[i].id == disk; }
    if i :| 0 <= i < |after| && after[i].id == disk { assert before[i].id == disk; }
  }

  lemma KnownWithout(disks: seq<DiskRow>, gone: DiskId, disk: DiskId)
    requires InIdOrder(disks)
    ensures Known(Undeclared(disks, gone), disk) <==> disk != gone && Known(disks, disk)
  {
    UndeclaredInOrder(disks, gone);
    var after := Undeclared(disks, gone);
    if i :| 0 <= i < |disks| && disks[i].id == disk && disk != gone {
      assert disks[i] in after;
    }
    if i :| 0 <= i < |after| && after[i].id == disk {
      assert after[i] in after;
    }
  }

  lemma KnownWithMore(disks: seq<DiskRow>, row: DiskRow, disk: DiskId)
    ensures Known(disks + [row], disk) <==> Known(disks, disk) || disk == row.id
  {
    var after := disks + [row];
    assert after[|disks|] == row;
    if i :| 0 <= i < |disks| && disks[i].id == disk { assert after[i].id == disk; }
  }

  /** Whether a disk is declared after a request. */
  lemma {:induction false} KnownAfter(b: Books, q: Request, disk: DiskId)
    requires InIdOrder(b.disks)
    ensures Known(Granted(b, q).disks, disk)
            <==> match FateOf(b, q, disk)
                 case Untouched => Known(b.disks, disk)
                 case Put(_) => true
                 case Gone => false
  {
    match q
    case Attach(t, d) => SameKnown(b.disks, Filed(b.disks, d, Some(t)), disk);
    case Declare(home) => KnownWithMore(b.disks, DiskRow(NextDisk(b.disks), home), disk);
    case Deregister(d) => KnownWithout(b.disks, d, disk);
    case Detach(_, d) => KnownWithout(b.disks, d, disk);
    case Delete(t) =>
      SameKnown(b.disks, Vacated(b.disks, t), disk);
      KnownMember(b.disks, disk, t);
    case _ =>
  }

  /** A member of a set is still one after any requests exactly when it stays. */
  lemma {:induction false} StaysExactly(b: Books, qs: seq<Request>, disk: DiskId, id: SetId)
    requires Sound(b) && disk in Members(b.disks, id)
    ensures disk in Members(GrantedAll(b, qs).disks, id) <==> Stays(b, qs, disk, id)
  {
    if qs != [] {
      var init, q := qs[..|qs| - 1], qs[|qs| - 1];
      assert qs == init + [q];
      StaysExactly(b, init, disk, id);
      RequestsKeep(b, init);
      MemberAfter(GrantedAll(b, init), q, disk, id);
      StaysNext(b, init, q, disk, id);
    }
  }

  lemma {:induction false} StaysNext(b: Books, qs: seq<Request>, q: Request, disk: DiskId, id: SetId)
    ensures var f := FateOf(GrantedAll(b, qs), q, disk);
            && (Stays(b, qs + [q], disk, id) <==> if f.Untouched? then Stays(b, qs, disk, id) else f == Put(Some(id)))
            && (StaysDeclared(b, qs + [q], disk) <==> if f.Untouched? then StaysDeclared(b, qs, disk) else !f.Gone?)
  {
    forall k: nat | true
      ensures LastTouch(b, qs + [q], k, disk)
              <==> if FateOf(GrantedAll(b, qs), q, disk).Untouched? then LastTouch(b, qs, k, disk) else k == |qs|
      ensures k <= |qs| ==> FateAt(b, qs + [q], k, disk)
                            == if k < |qs| then FateAt(b, qs, k, disk) else FateOf(GrantedAll(b, qs), q, disk)
    {
      TouchNext(b, qs, q, k, disk);
      if k <= |qs| { FateNext(b, qs, q, k, disk); }
    }
    if !FateOf(GrantedAll(b, qs), q, disk).Untouched? {
      assert LastTouch(b, qs + [q], |qs|, disk);
    }
  }

  /** A declared disk is still declared after any requests exactly when nothing undeclares it last. */
  lemma {:induction false} KnownExactly(b: Books, qs: seq<Request>, disk: DiskId)
    requires Sound(b) && Known(b.disks, disk)
    ensures Known(GrantedAll(b, qs).disks, disk) <==> StaysDeclared(b, qs, disk)
  {
    if qs != [] {
      var init, q := qs[..|qs| - 1], qs[|qs| - 1];
      assert qs == init + [q];
      KnownExactly(b, init, disk);
      RequestsKeep(b, init);
      KnownAfter(GrantedAll(b, init), q, disk);
      StaysNext(b, init, q, disk, 0);
    }
  }

  /** Nothing asked undeclares a disk, as far as the sets of the group are these. */
  predicate Sparing(qs: seq<Request>, ids: seq<SetId>) {
    forall k :: 0 <= k < |qs| ==> !qs[k].Deregister? && (qs[k].Detach? ==> qs[k].set_ in ids)
  }

  lemma {:induction false} SparedStays(b: Books, qs: seq<Request>, disk: DiskId)
    requires Sound(b) && Sparing(qs, b.ids)
    ensures StaysDeclared(b, qs, disk)
  {
    forall k: nat | LastTouch(b, qs, k, disk) ensures !FateAt(b, qs, k, disk).Gone? {
      var now := GrantedAll(b, qs[..k]);
      RequestsKeep(b, qs[..k]);
      if qs[k].Detach? {
        assert qs[k].set_ in now.ids;
        ForeignIsNotOwn(now.ids, now.others, qs[k].set_);
      }
    }
  }

  lemma ForeignIsNotOwn(ids: seq<SetId>, others: seq<OtherSet>, id: SetId)
    requires Apart(ids, others) && id in ids
    ensures !IdleElsewhere(others, id)
  {
    NotElsewhere(others, id);
  }

  // ── What leaves the cycle alone ─────────────────────────────────────────

  /** The request neither changes the cycle of these sets nor activates one of them. */
  predicate Steady(q: Request, ids: seq<SetId>, running: bool) {
    !q.Create? && (q.Update? || q.Activate? || (q.Delete? && !running) ==> q.set_ !in ids)
  }

  ghost predicate AllSteady(qs: seq<Request>, ids: seq<SetId>, running: bool := true) {
    forall k :: 0 <= k < |qs| ==> Steady(qs[k], ids, running)
  }

  lemma {:induction false} SteadyGranted(b: Books, qs: seq<Request>, running: bool)
    requires AllSteady(qs, b.ids, running)
    ensures GrantedAll(b, qs, running).ids == b.ids && GrantedAll(b, qs, running).active == b.active
  {
    if qs != [] {
      SteadyGranted(b, qs[..|qs| - 1], running);
    }
  }

  lemma SteadyAlways(qs: seq<Request>, ids: seq<SetId>, running: bool)
    requires AllSteady(qs, ids, false)
    ensures AllSteady(qs, ids, running)
  {
  }

  /** Request k activates an existing set. */
  ghost predicate Activates(b: Books, qs: seq<Request>, k: nat, t: SetId) {
    k < |qs| && qs[k] == Activate(t) && t in GrantedAll(b, qs[..k]).ids
  }

  ghost predicate LastActivation(b: Books, qs: seq<Request>, k: nat, t: SetId) {
    Activates(b, qs, k, t) && forall j: nat, u: SetId :: k < j ==> !Activates(b, qs, j, u)
  }

  lemma ActivatesNext(b: Books, qs: seq<Request>, q: Request, k: nat, t: SetId)
    ensures Activates(b, qs + [q], k, t)
            <==> Activates(b, qs, k, t) || (k == |qs| && q == Activate(t) && t in GrantedAll(b, qs).ids)
  {
    if k <= |qs| {
      assert (qs + [q])[..k] == qs[..k];
      assert qs[..|qs|] == qs;
    }
  }

  /** While a session runs the active set is the one activated last. */
  lemma {:induction false} LastActivationStands(b: Books, qs: seq<Request>, k: nat, t: SetId)
    requires b.active.Some? && LastActivation(b, qs, k, t)
    ensures GrantedAll(b, qs).active == Some(t)
  {
    var init, q := qs[..|qs| - 1], qs[|qs| - 1];
    assert qs == init + [q];
    ActivatesNext(b, init, q, k, t);
    if Activates(b, init, k, t) {
      forall j: nat, u: SetId | k < j ensures !Activates(b, init, j, u) {
        ActivatesNext(b, init, q, j, u);
        assert !Activates(b, qs, j, u);
      }
      LastActivationStands(b, init, k, t);
      if q.Activate? {
        ActivatesNext(b, init, q, |init|, q.set_);
        assert !Activates(b, qs, |init|, q.set_);
      }
    }
  }
}

/**
 * The books of a backup group: its sets in the order of the cycle, the set the next trigger writes to, and
 * the disks filed under each set (nazman/services/backup_group_service.py).
 */
module Groups {
  import opened Streams
  import opened Cycle
  import opened Rotation

  /** A rotation slot; `disk` is the one being written to, `used` whether a session has ended on it. */
  datatype SetRow = SetRow(id: SetId, position: int, disk: Option<DiskId>, used: bool)

  datatype DiskRow = DiskRow(id: DiskId, set_: Option<SetId>)

  /** A set of another group; `busy` while a session of that group is running. */
  datatype OtherSet = OtherSet(id: SetId, busy: bool)

  datatype SessionStatus = Running | Success | Partial | Failed | NeedsDisk

  datatype Answer =
    | Done | NoSuchSet | NoSuchDisk | NegativePosition | PositionUsed | SessionRuns | NoDisks | NotInSet
    | NoDatasets | NoSets | Elsewhere

  function Ids(sets: seq<SetRow>): (ids: seq<SetId>)
    ensures |ids| == |sets| && forall i :: 0 <= i < |sets| ==> ids[i] == sets[i].id
  {
    seq<SetId>(|sets|, i requires 0 <= i < |sets| => sets[i].id)
  }

  function OtherIds(others: seq<OtherSet>): (ids: seq<SetId>)
    ensures |ids| == |others| && forall i :: 0 <= i < |others| ==> ids[i] == others[i].id
  {
    seq<SetId>(|others|, i requires 0 <= i < |others| => others[i].id)
  }

  /** A set of the group is no set of another one. */
  ghost predicate Apart(ids: seq<SetId>, others: seq<OtherSet>) {
    Distinct(OtherIds(others)) && forall id :: id in OtherIds(others) ==> id !in ids
  }

  lemma {:induction false} OneMoreApart(ids: seq<SetId>, others: seq<OtherSet>, id: SetId)
    requires Apart(ids, others) && id !in ids && id !in OtherIds(others)
    ensures Apart(ids, others + [OtherSet(id, false)])
  {
    assert OtherIds(others + [OtherSet(id, false)]) == OtherIds(others) + [id];
  }

  method FindOther(others: seq<OtherSet>, id: SetId) returns (k: Option<nat>)
    ensures k.Some? ==> k.value < |others| && others[k.value].id == id
    ensures k.None? <==> id !in OtherIds(others)
  {
    var n := 0;
    while n < |others|
      invariant 0 <= n <= |others| && forall i :: 0 <= i < n ==> others[i].id != id
    {
      if others[n].id == id {
        assert OtherIds(others)[n] == id;
        return Some(n);
      }
      n := n + 1;
    }
    k := None;
  }

  function WithoutId(ids: seq<SetId>, id: SetId): seq<SetId> {
    if ids == [] then []
    else (if ids[0] == id then [] else [ids[0]]) + WithoutId(ids[1..], id)
  }

  lemma {:induction false} WithoutIdAt(ids: seq<SetId>, k: nat)
    requires k < |ids| && ids[k] !in ids[..k] && ids[k] !in ids[k + 1..]
    ensures WithoutId(ids, ids[k]) == ids[..k] + ids[k + 1..]
  {
    if k == 0 {
      WithoutIdAbsent(ids[1..], ids[0]);
    } else {
      var rest := ids[1..];
      assert rest[..k - 1] == ids[..k][1..] && rest[k..] == ids[k + 1..];
      WithoutIdAt(rest, k - 1);
      assert ids[..k] == [ids[0]] + rest[..k - 1];
    }
  }

  lemma {:induction false} WithoutIdAbsent(ids: seq<SetId>, id: SetId)
    requires id !in ids
    ensures WithoutId(ids, id) == ids
  {
    if ids != [] {
      WithoutIdAbsent(ids[1..], id);
    }
  }

  // ── Positions ───────────────────────────────────────────────────────────

  ghost predicate Dense(sets: seq<SetRow>) {
    forall i :: 0 <= i < |sets| ==> sets[i].position == i
  }

  ghost predicate Ascending(sets: seq<SetRow>) {
    forall i, j :: 0 <= i < j < |sets| ==> sets[i].position < sets[j].position
  }

  ghost predicate DistinctPositions(sets: seq<SetRow>) {
    forall i, j :: 0 <= i < j < |sets| ==> sets[i].position != sets[j].position
  }

  ghost predicate SameRows(a: seq<SetRow>, b: seq<SetRow>) {
    forall r :: r in a <==> r in b
  }

  /** Rows in ascending order of position are determined by which rows they are. */
  lemma {:induction false} OneOrder(a: seq<SetRow>, b: seq<SetRow>)
    requires Ascending(a) && Ascending(b) && SameRows(a, b)
    ensures a == b
  {
    assert |a| > 0 ==> a[0] in a;
    assert |b| > 0 ==> b[0] in b;
    if |a| > 0 && |b| > 0 {
      forall r | true ensures r in a[1..] <==> r in b[1..] {
        assert r in a <==> r == a[0] || r in a[1..];
        assert r in b <==> r == b[0] || r in b[1..];
      }
      OneOrder(a[1..], b[1..]);
    }
  }

  lemma RowsInserted(rows: seq<SetRow>, k: nat, r: SetRow)
    requires k <= |rows|
    ensures forall x :: x in rows[..k] + [r] + rows[k..] <==> x in rows || x == r
  {
    assert rows == rows[..k] + rows[k..];
  }

  /** `order_by(position)`. */
  method ByPosition(rows: seq<SetRow>) returns (sorted: seq<SetRow>)
    requires DistinctPositions(rows)
    ensures Ascending(sorted) && SameRows(sorted, rows)
  {
    sorted := [];
    var i := 0;
    while i < |rows|
      invariant 0 <= i <= |rows|
      invariant Ascending(sorted) && SameRows(sorted, rows[..i])
    {
      var k := 0;
      while k < |sorted| && sorted[k].position < rows[i].position
        invariant 0 <= k <= |sorted|
        invariant forall j :: 0 <= j < k ==> sorted[j].position < rows[i].position
      {
        k := k + 1;
      }
      if k < |sorted| { assert sorted[k] in rows[..i]; }
      RowsInserted(sorted, k, rows[i]);
      sorted := sorted[..k] + [rows[i]] + sorted[k..];
      assert rows[..i + 1] == rows[..i] + [rows[i]];
      i := i + 1;
    }
    assert rows[..|rows|] == rows;
  }

  ghost predicate SameButPosition(a: SetRow, b: SetRow) {
    a.id == b.id && a.disk == b.disk && a.used == b.used
  }

  /** Every row after is one of the rows before, but for its position. */
  ghost predicate Kept(before: seq<SetRow>, after: seq<SetRow>) {
    forall i :: 0 <= i < |after| ==> ComesFrom(before, after[i])
  }

  ghost predicate ComesFrom(before: seq<SetRow>, r: SetRow) {
    exists m :: 0 <= m < |before| && SameButPosition(r, before[m])
  }

  lemma FromPlace(before: seq<SetRow>, r: SetRow, m: nat)
    requires m < |before| && SameButPosition(r, before[m])
    ensures ComesFrom(before, r)
  {
  }

  lemma KeptInPlace(before: seq<SetRow>, after: seq<SetRow>)
    requires |after| == |before| && forall i :: 0 <= i < |after| ==> SameButPosition(after[i], before[i])
    ensures Kept(before, after)
  {
    forall i | 0 <= i < |after| ensures ComesFrom(before, after[i]) {
      FromPlace(before, after[i], i);
    }
  }

  lemma KeptBeside(before: seq<SetRow>, row: SetRow, after: seq<SetRow>)
    requires Kept(before + [row], after) && row.disk.None? && !row.used
    ensures Kept(before + [SetRow(row.id, 0, None, false)], after)
  {
    forall i | 0 <= i < |after| ensures ComesFrom(before + [SetRow(row.id, 0, None, false)], after[i]) {
      assert ComesFrom(before + [row], after[i]);
      var m :| 0 <= m < |before + [row]| && SameButPosition(after[i], (before + [row])[m]);
      FromPlace(before + [SetRow(row.id, 0, None, false)], after[i], m);
    }
  }

  /** `_renumber`: the positions become 0..n-1 in the order they had. */
  method Renumber(rows: seq<SetRow>, ghost order: seq<SetRow>) returns (sets: seq<SetRow>)
    requires DistinctPositions(rows) && Ascending(order) && SameRows(order, rows)
    ensures Dense(sets) && |sets| == |order| && Ids(sets) == Ids(order)
    ensures forall i :: 0 <= i < |sets| ==> SameButPosition(sets[i], order[i])
  {
    sets := ByPosition(rows);
    OneOrder(sets, order);
    var index := 0;
    while index < |sets|
      invariant 0 <= index <= |sets| == |order|
      invariant forall i :: 0 <= i < |sets| ==> SameButPosition(sets[i], order[i])
      invariant forall i :: 0 <= i < index ==> sets[i].position == i
    {
      if sets[index].position != index {
        sets := sets[index := sets[index].(position := index)];
      }
      index := index + 1;
    }
  }

  // ── Disks ───────────────────────────────────────────────────────────────

  /** `set_disks`: the disks filed under a set, in id order as the table keeps them. */
  function Members(disks: seq<DiskRow>, set_: SetId): (ids: seq<DiskId>)
    ensures forall d :: d in ids <==> exists i :: 0 <= i < |disks| && disks[i] == DiskRow(d, Some(set_))
  {
    if disks == [] then []
    else
      var before := Members(disks[..|disks| - 1], set_);
      var last := disks[|disks| - 1];
      assert disks == disks[..|disks| - 1] + [last];
      if last.set_ == Some(set_) then before + [last.id] else before
  }

  /** The disk table, in order of the ids. */
  ghost predicate InIdOrder(disks: seq<DiskRow>) {
    forall i, j :: 0 <= i < j < |disks| ==> disks[i].id < disks[j].id
  }

  /** The set's pointer is at one of its disks, or at nothing exactly when it has none. */
  ghost predicate Pointed(disks: seq<DiskRow>, r: SetRow) {
    if r.disk.Some? then r.disk.value in Members(disks, r.id) else Members(disks, r.id) == []
  }

  ghost predicate PointersOk(disks: seq<DiskRow>, sets: seq<SetRow>) {
    forall i :: 0 <= i < |sets| ==> Pointed(disks, sets[i])
  }

  lemma PointersKept(disks: seq<DiskRow>, before: seq<SetRow>, after: seq<SetRow>)
    requires Kept(before, after) && PointersOk(disks, before)
    ensures PointersOk(disks, after)
  {
    forall i | 0 <= i < |after| ensures Pointed(disks, after[i]) {
      var m :| 0 <= m < |before| && SameButPosition(after[i], before[m]);
      assert Pointed(disks, before[m]);
    }
  }

  lemma PointersIf(disks: seq<DiskRow>, before: seq<SetRow>, after: seq<SetRow>)
    requires Kept(before, after)
    ensures PointersOk(disks, before) ==> PointersOk(disks, after)
  {
    if PointersOk(disks, before) { PointersKept(disks, before, after); }
  }

  ghost predicate AtMostOneRunning(sessions: seq<SessionStatus>) {
    forall i, j :: 0 <= i < j < |sessions| ==> !(sessions[i].Running? && sessions[j].Running?)
  }

  /** Filing disk k under a set makes it a member of that set alone, and moves no other disk. */
  lemma Refiled(disks: seq<DiskRow>, k: nat, to: Option<SetId>, t: SetId, d: DiskId)
    requires InIdOrder(disks) && k < |disks|
    ensures d in Members(disks[k := disks[k].(set_ := to)], t)
            <==> if d == disks[k].id then to == Some(t) else d in Members(disks, t)
  {
    var after := disks[k := disks[k].(set_ := to)];
    if i :| 0 <= i < |disks| && disks[i] == DiskRow(d, Some(t)) && i != k {
      assert after[i] == DiskRow(d, Some(t));
    }
    if i :| 0 <= i < |after| && after[i] == DiskRow(d, Some(t)) && i != k {
      assert disks[i] == DiskRow(d, Some(t));
    }
    if d == disks[k].id && to == Some(t) {
      assert after[k] == DiskRow(d, Some(t));
    }
  }

  /** The table after a disk is filed under a set. */
  function Filed(disks: seq<DiskRow>, disk: DiskId, to: Option<SetId>): seq<DiskRow> {
    seq(|disks|, i requires 0 <= i < |disks| => if disks[i].id == disk then DiskRow(disk, to) else disks[i])
  }

  /** The table after a disk is undeclared. */
  function Undeclared(disks: seq<DiskRow>, disk: DiskId): seq<DiskRow> {
    if disks == [] then []
    else
      Undeclared(disks[..|disks| - 1], disk)
      + if disks[|disks| - 1].id == disk then [] else [disks[|disks| - 1]]
  }

  lemma FiledAt(disks: seq<DiskRow>, k: nat, to: Option<SetId>)
    requires InIdOrder(disks) && k < |disks|
    ensures Filed(disks, disks[k].id, to) == disks[k := disks[k].(set_ := to)]
  {
  }

  lemma {:induction false} UndeclaredNone(disks: seq<DiskRow>, disk: DiskId)
    requires forall i :: 0 <= i < |disks| ==> disks[i].id != disk
    ensures Undeclared(disks, disk) == disks
  {
    if disks != [] {
      UndeclaredNone(disks[..|disks| - 1], disk);
    }
  }

  lemma {:induction false} UndeclaredAt(disks: seq<DiskRow>, k: nat)
    requires InIdOrder(disks) && k < |disks|
    ensures Undeclared(disks, disks[k].id) == disks[..k] + disks[k + 1..]
  {
    var init := disks[..|disks| - 1];
    if k == |init| {
      UndeclaredNone(init, disks[k].id);
    } else {
      UndeclaredAt(init, k);
      assert init[..k] == disks[..k] && init[k + 1..] + [disks[|disks| - 1]] == disks[k + 1..];
    }
  }

  method FindSet(sets: seq<SetRow>, id: SetId) returns (k: Option<nat>)
    ensures k.Some? ==> k.value < |sets| && sets[k.value].id == id
    ensures k.None? <==> id !in Ids(sets)
  {
    var n := 0;
    while n < |sets|
      invariant 0 <= n <= |sets| && forall i :: 0 <= i < n ==> sets[i].id != id
    {
      if sets[n].id == id {
        assert Ids(sets)[n] == id;
        return Some(n);
      }
      n := n + 1;
    }
    k := None;
  }

  /** Another set than `except` sits at position p. */
  method PositionTaken(sets: seq<SetRow>, p: int, except: Option<SetId>) returns (taken: bool)
    ensures taken <==> exists i :: 0 <= i < |sets| && sets[i].position == p && Some(sets[i].id) != except
  {
    var n := 0;
    while n < |sets|
      invariant 0 <= n <= |sets|
      invariant forall i :: 0 <= i < n ==> sets[i].position != p || Some(sets[i].id) == except
    {
      if sets[n].position == p && Some(sets[n].id) != except { return true; }
      n := n + 1;
    }
    taken := false;
  }

  // ── The group ───────────────────────────────────────────────────────────

  class BackupGroup {
    var sets: seq<SetRow>
    var activeSet: Option<SetId>
    var needsDisk: bool
    var copies: Option<int>
    var disks: seq<DiskRow>
    var others: seq<OtherSet>
    var sessions: seq<SessionStatus>

    /**
     * The active set is one of the group's own, or nothing exactly when it has none; positions are
     * 0..n-1 in the order of the cycle; at most one session is running; a set is in one group.
     */
    ghost predicate Valid()
      reads this
    {
      && Dense(sets) && Distinct(Ids(sets))
      && (if activeSet.Some? then activeSet.value in Ids(sets) else sets == [])
      && AtMostOneRunning(sessions) && InIdOrder(disks) && Apart(Ids(sets), others)
    }

    /** Every set's pointer is sound. */
    ghost predicate AllPointed()
      reads this
    {
      PointersOk(disks, sets)
    }

    /** A new group beside the disks declared so far and the sets of other groups. */
    constructor (copies: Option<int>, disks: seq<DiskRow>, others: seq<OtherSet>)
      requires InIdOrder(disks) && Distinct(OtherIds(others))
      ensures Valid() && AllPointed() && sets == [] && sessions == [] && activeSet.None? && !needsDisk
      ensures this.copies == copies && this.disks == disks && this.others == others
    {
      this.copies, this.disks, this.others := copies, disks, others;
      sets, sessions, activeSet, needsDisk := [], [], None, false;
    }

    method FindDisk(id: DiskId) returns (k: Option<nat>)
      ensures k.Some? ==> k.value < |disks| && disks[k.value].id == id
      ensures k.None? <==> forall i :: 0 <= i < |disks| ==> disks[i].id != id
    {
      var n := 0;
      while n < |disks|
        invariant 0 <= n <= |disks| && forall i :: 0 <= i < n ==> disks[i].id != id
      {
        if disks[n].id == id { return Some(n); }
        n := n + 1;
      }
      k := None;
    }

    method SessionRunning() returns (running: bool)
      ensures running <==> Running in sessions
    {
      var n := 0;
      while n < |sessions|
        invariant 0 <= n <= |sessions| && Running !in sessions[..n]
      {
        if sessions[n].Running? { return true; }
        n := n + 1;
      }
      running := false;
    }

    /**
     * `create_set`. A position is accepted only behind the last set, and wherever that is, the set goes
     * to the end of the cycle.
     */
    method CreateSet(id: SetId, position: Option<int>) returns (answer: Answer)
      requires Valid() && id !in Ids(sets) && id !in OtherIds(others)
      requires forall i :: 0 <= i < |disks| ==> disks[i].set_ != Some(id)
      modifies this`sets, this`activeSet
      ensures Valid() && (old(AllPointed()) ==> AllPointed())
      ensures answer.Done? <==> position.None? || position.value >= |old(sets)|
      ensures answer.NegativePosition? <==> position.Some? && position.value < 0
      ensures answer.Done? || answer.NegativePosition? || answer.PositionUsed?
      ensures if answer.Done?
              then Ids(sets) == old(Ids(sets)) + [id]
                   && activeSet == if old(activeSet).Some? then old(activeSet) else Some(id)
              else sets == old(sets) && activeSet == old(activeSet)
      ensures answer.Done? ==> Kept(old(sets) + [SetRow(id, 0, None, false)], sets)
    {
      assert |Ids(sets)| == |sets|;
      var p := if position.Some? then position.value else if sets != [] then sets[|sets| - 1].position + 1 else 0;
      if p < 0 { return NegativePosition; }
      EveryPlaceTaken(sets, p);
      var taken := PositionTaken(sets, p, None);
      if taken { return PositionUsed; }
      var row := SetRow(id, p, None, false);
      PointersBehind(disks, sets, row);
      sets := Appended(sets, row);
      PointersIf(disks, old(sets) + [row], sets);
      KeptBeside(old(sets), row, sets);
      if activeSet.None? {
        activeSet := Some(id);
      }
      answer := Done;
    }

    /**
     * `update_set`. A set can keep its place or go to the end of the cycle, nothing in between.
     */
    method UpdateSet(id: SetId, position: Option<int>) returns (answer: Answer)
      requires Valid()
      modifies this`sets
      ensures Valid() && (old(AllPointed()) ==> AllPointed())
      ensures answer.NoSuchSet? <==> id !in old(Ids(sets))
      ensures answer.Done? ==> Ids(sets) == Reordered(old(sets), id, position)
      ensures id in old(Ids(sets)) ==> (answer.Done? <==> Placeable(old(sets), id, position))
      ensures !answer.Done? ==> sets == old(sets)
      ensures answer.Done? ==> Kept(old(sets), sets)
      ensures id in old(Ids(sets)) ==>
                (answer.Done? <==> position.None? || position.value >= |old(sets)|
                                   || (position.value >= 0 && old(sets)[position.value].id == id))
      ensures answer.Done? ==>
                Ids(sets) == if position.Some? && position.value >= |old(sets)| then WithoutId(old(Ids(sets)), id) + [id]
                             else old(Ids(sets))
    {
      var k := FindSet(sets, id);
      if k.None? { return NoSuchSet; }
      sets, answer := Updated(sets, k.value, position);
      PointersIf(disks, old(sets), sets);
    }

    /** `delete_set`: the other sets keep their order, and the set's disks are unassigned. */
    method DeleteSet(id: SetId) returns (answer: Answer)
      requires Valid()
      modifies this`sets, this`activeSet, this`needsDisk, this`disks
      ensures Valid() && (old(AllPointed()) ==> AllPointed())
      ensures answer.NoSuchSet? <==> id !in old(Ids(sets))
      ensures answer.SessionRuns? <==> id in old(Ids(sets)) && Running in sessions
      ensures answer.Done? || answer.NoSuchSet? || answer.SessionRuns?
      ensures if answer.Done?
              then Ids(sets) == WithoutId(old(Ids(sets)), id) && !needsDisk
                   && activeSet == (if old(activeSet) != Some(id) then old(activeSet)
                                    else if sets == [] then None else Some(sets[0].id))
                   && AllUnassigned(old(disks), disks, id) && disks == Vacated(old(disks), id)
              else sets == old(sets) && activeSet == old(activeSet) && disks == old(disks) && needsDisk == old(needsDisk)
    {
      var k := FindSet(sets, id);
      if k.None? { return NoSuchSet; }
      var running := SessionRunning();
      if running { return SessionRuns; }
      disks := Unassigned(disks, id);
      sets := Removed(sets, k.value);
      PointersLeft(old(disks), disks, old(sets), sets, id);
      if activeSet == Some(id) || activeSet.None? {
        activeSet := if sets != [] then Some(sets[0].id) else None;
        assert sets != [] ==> Ids(sets)[0] == sets[0].id;
      }
      needsDisk := false;
      answer := Done;
    }

    /** `activate_set`. */
    method ActivateSet(id: SetId) returns (answer: Answer)
      requires Valid()
      modifies this`activeSet, this`needsDisk
      ensures Valid()
      ensures answer == if id in Ids(sets) then Done else NoSuchSet
      ensures if answer.Done? then activeSet == Some(id) && !needsDisk
              else activeSet == old(activeSet) && needsDisk == old(needsDisk)
    {
      var k := FindSet(sets, id);
      if k.None? { return NoSuchSet; }
      activeSet := Some(id);
      needsDisk := false;
      answer := Done;
    }

    /** `_realign_set`: a set that lost its disk points at the first it has left, or at nothing. */
    method Realign(k: nat)
      requires k < |sets|
      modifies this`sets, this`needsDisk
      ensures sets == old(sets)[k := Realigned(disks, old(sets)[k])]
      ensures needsDisk == (old(needsDisk) || Members(disks, old(sets)[k].id) == [])
      ensures InIdOrder(disks) ==> PointsAtFirstLeft(disks, old(sets)[k], sets[k])
    {
      if InIdOrder(disks) { RealignedFirst(disks, sets[k]); }
      var remaining := Members(disks, sets[k].id);
      if sets[k].disk.Some? && sets[k].disk.value !in remaining {
        sets := sets[k := sets[k].(disk := if remaining != [] then Some(remaining[0]) else None)];
      }
      if remaining == [] {
        needsDisk := true;
      }
    }

    /**
     * `attach_disk`: the disk becomes a member of this set alone, even while a session is running, and even
     * if the set is another group's. A set of this group points at the disk if it pointed at nothing; one
     * that the disk leaves is realigned.
     */
    method AttachDisk(id: SetId, disk: DiskId) returns (answer: Answer)
      requires Valid()
      modifies this`sets, this`disks, this`needsDisk
      ensures Valid() && (old(AllPointed()) ==> AllPointed()) && Ids(sets) == old(Ids(sets))
      ensures answer.NoSuchSet? <==> id !in Ids(sets) && id !in OtherIds(others)
      ensures answer.NoSuchDisk? <==> !answer.NoSuchSet? && !Known(old(disks), disk)
      ensures answer.Done? || answer.NoSuchSet? || answer.NoSuchDisk?
      ensures if answer.Done? then Moved(old(disks), disks, disk, Some(id)) else sets == old(sets) && disks == old(disks)
      ensures !answer.NoSuchSet? ==> disks == Filed(old(disks), disk, Some(id))
      ensures answer.Done? ==> PointersAttached(old(disks), disks, old(sets), sets, id, disk)
      ensures answer.Done? ==>
                |sets| == |old(sets)|
                && forall i :: 0 <= i < |sets| ==>
                     if sets[i].id == id then sets[i].disk == (if old(sets)[i].disk.None? then Some(disk) else old(sets)[i].disk)
                     else if disk in Members(old(disks), sets[i].id) then PointsAtFirstLeft(disks, old(sets)[i], sets[i])
                     else sets[i] == old(sets)[i]
      ensures needsDisk == (old(needsDisk) || (answer.Done? && LeftEmpty(old(disks), disks, old(sets), id, disk)))
    {
      var k := FindSet(sets, id);
      var other := FindOther(others, id);
      if k.None? && other.None? { return NoSuchSet; }
      var d := FindDisk(disk);
      if d.None? {
        assert Filed(disks, disk, Some(id)) == disks;
        return NoSuchDisk;
      }
      if k.Some? {
        ghost var previous := FileUnder(k.value, d.value);
        FilingKeeps(old(sets), old(disks), k.value, d.value, previous);
      } else {
        ghost var owner := FileAway(id, d.value);
        FilingAwayKeeps(old(sets), old(disks), id, d.value, owner);
      }
      AttachedFirst(old(disks), disks, old(sets), sets, id, disk);
      answer := Done;
    }

    /** The disk goes to a set of another group. */
    method FileAway(id: SetId, d: nat) returns (ghost owner: Option<nat>)
      requires d < |disks|
      modifies this`sets, this`disks, this`needsDisk
      ensures Owns(old(sets), old(disks)[d], owner)
      ensures disks == old(disks)[d := old(disks)[d].(set_ := Some(id))]
      ensures sets == AwayRows(old(sets), disks, owner)
      ensures needsDisk == (old(needsDisk) || (owner.Some? && Members(disks, old(sets)[owner.value].id) == []))
    {
      var from: Option<nat> := None;
      if disks[d].set_.Some? {
        from := FindSet(sets, disks[d].set_.value);
      }
      owner := from;
      disks := disks[d := disks[d].(set_ := Some(id))];
      if from.Some? {
        Realign(from.value);
      }
    }

    /**
     * The end of a declaration: a new disk, with an id behind all others, filed under the set given. A set of
     * this group points at it if it pointed at nothing.
     */
    method DeclareDisk(home: Option<SetId>) returns (answer: Answer)
      requires Valid()
      modifies this`sets, this`disks
      ensures Valid() && (old(AllPointed()) ==> AllPointed()) && Ids(sets) == old(Ids(sets))
      ensures answer == if home.Some? && home.value !in Ids(sets) && home.value !in OtherIds(others) then NoSuchSet else Done
      ensures disks == if answer.Done? then old(disks) + [DiskRow(NextDisk(old(disks)), home)] else old(disks)
      ensures PointersAdopted(old(sets), sets, home, NextDisk(old(disks)))
      ensures answer.Done? ==> disks == old(disks) + [DiskRow(if old(disks) == [] then 1 else old(disks)[|old(disks)| - 1].id + 1, home)]
    {
      var k: Option<nat> := None;
      if home.Some? {
        k := FindSet(sets, home.value);
        var other := FindOther(others, home.value);
        if k.None? && other.None? {
          assert PointersAdopted(sets, sets, home, NextDisk(disks));
          return NoSuchSet;
        }
      }
      var disk := NextDisk(disks);
      AdoptingKeeps(sets, disks, home, k);
      disks := disks + [DiskRow(disk, home)];
      if k.Some? && sets[k.value].disk.None? {
        sets := sets[k.value := sets[k.value].(disk := Some(disk))];
      }
      answer := Done;
    }

    method FileUnder(k: nat, d: nat) returns (ghost previous: Option<nat>)
      requires Distinct(Ids(sets)) && k < |sets| && d < |disks|
      modifies this`sets, this`disks, this`needsDisk
      ensures Leaves(old(sets), old(disks)[d], k, previous)
      ensures disks == old(disks)[d := old(disks)[d].(set_ := Some(old(sets)[k].id))]
      ensures sets == FiledRows(old(sets), disks, k, old(disks)[d].id, previous)
      ensures needsDisk == (old(needsDisk) || (previous.Some? && Members(disks, old(sets)[previous.value].id) == []))
    {
      var id := sets[k].id;
      var from: Option<nat> := None;
      if disks[d].set_.Some? && disks[d].set_.value != id {
        from := FindSet(sets, disks[d].set_.value);
      }
      previous := from;
      disks := disks[d := disks[d].(set_ := Some(id))];
      if sets[k].disk.None? {
        sets := sets[k := sets[k].(disk := Some(disks[d].id))];
      }
      if from.Some? {
        Realign(from.value);
      }
    }

    /**
     * `detach_disk`. The set's pointer is looked up only after the disk has left the set, so it is not
     * moved: it dangles exactly when it was at that disk.
     */
    method DetachDisk(id: SetId, disk: DiskId) returns (answer: Answer)
      requires Valid()
      modifies this`disks
      ensures Valid()
      ensures answer == if id !in Ids(sets) then NoSuchSet
                        else if disk !in Members(old(disks), id) then NotInSet
                        else if Running in sessions then SessionRuns else Done
      ensures if answer.Done? then Moved(old(disks), disks, disk, None) && disks == Undeclared(old(disks), disk)
              else disks == old(disks)
      ensures answer.Done? && old(AllPointed()) ==> (AllPointed() <==> PointsElsewhere(sets, id, disk))
    {
      var k := FindSet(sets, id);
      if k.None? { return NoSuchSet; }
      var d := FindDisk(disk);
      if d.None? || disks[d.value].set_ != Some(id) {
        NotAMember(disks, d, id, disk);
        return NotInSet;
      }
      assert disks[d.value] == DiskRow(disk, Some(id));
      var running := SessionRunning();
      if running { return SessionRuns; }
      DeletedMoves(disks, d.value);
      UndeclaredAt(disks, d.value);
      disks := disks[..d.value] + disks[d.value + 1..];
      DetachPoints(old(disks), disks, sets, k.value, disk);
      answer := Done;
    }

    /** `detach_disk` for a set of another group: refused only while a session of that one runs. */
    method DetachElsewhere(id: SetId, disk: DiskId) returns (answer: Answer)
      requires Valid() && id in OtherIds(others)
      modifies this`disks
      ensures Valid() && (old(AllPointed()) ==> AllPointed())
      ensures answer == if disk !in Members(old(disks), id) then NotInSet
                        else if !IdleElsewhere(others, id) then SessionRuns else Done
      ensures disks == if answer.Done? then Undeclared(old(disks), disk) else old(disks)
    {
      var k := FindOther(others, id);
      var d := FindDisk(disk);
      if d.None? || disks[d.value].set_ != Some(id) {
        NotAMember(disks, d, id, disk);
        return NotInSet;
      }
      assert disks[d.value] == DiskRow(disk, Some(id));
      BusyIs(others, k.value);
      if others[k.value].busy { return SessionRuns; }
      LosingElsewhere(disks, d.value, sets, id);
      disks := disks[..d.value] + disks[d.value + 1..];
      answer := Done;
    }

    /** `delete_set` for a set of another group. */
    method DeleteElsewhere(id: SetId) returns (answer: Answer)
      requires Valid() && id in OtherIds(others)
      modifies this`disks, this`others
      ensures Valid() && (old(AllPointed()) ==> AllPointed())
      ensures answer == if IdleElsewhere(old(others), id) then Done else SessionRuns
      ensures disks == if answer.Done? then Vacated(old(disks), id) else old(disks)
      ensures others == if answer.Done? then WithoutOther(old(others), id) else old(others)
    {
      var k := FindOther(others, id);
      BusyIs(others, k.value);
      if others[k.value].busy { return SessionRuns; }
      disks := Unassigned(disks, id);
      KeptInPlace(sets, sets);
      PointersElsewhere(old(disks), disks, sets, id);
      WithoutOtherAt(others, k.value);
      WithoutOtherIds(others, id);
      others := others[..k.value] + others[k.value + 1..];
      answer := Done;
    }

    /** Another group gets a set. */
    method CreateElsewhere()
      requires Valid()
      modifies this`others
      ensures Valid() && others == old(others) + [OtherSet(NextId(Ids(sets), old(others), disks), false)]
    {
      var id := NextId(Ids(sets), others, disks);
      NextIdIsFree(Ids(sets), others, disks);
      OneMoreApart(Ids(sets), others, id);
      others := others + [OtherSet(id, false)];
    }

    /** A session of another group begins or ends, as far as this set of it shows. */
    method SessionElsewhere(id: SetId, busy: bool)
      requires Valid()
      modifies this`others
      ensures Valid() && others == WithBusy(old(others), id, busy)
      ensures |others| == |old(others)|
              && forall i :: 0 <= i < |others| ==> others[i] == if old(others)[i].id == id then OtherSet(id, busy) else old(others)[i]
    {
      BusyKeepsIds(others, id, busy);
      var n := 0;
      ghost var before := others;
      while n < |others|
        invariant 0 <= n <= |others| == |before|
        invariant forall i :: 0 <= i < |others| ==>
                    others[i] == if i < n && before[i].id == id then OtherSet(id, busy) else before[i]
      {
        if others[n].id == id { others := others[n := OtherSet(id, busy)]; }
        n := n + 1;
      }
      assert others == WithBusy(before, id, busy);
    }

    /**
     * `deregister_backup_disk`, called for a disk that is still filed, even while a session is running: a
     * pointer at the disk moves to the first that is left.
     */
    method DeregisterDisk(disk: DiskId) returns (answer: Answer)
      requires Valid()
      modifies this`sets, this`disks, this`needsDisk
      ensures Valid() && (old(AllPointed()) ==> AllPointed()) && Ids(sets) == old(Ids(sets))
      ensures answer == if Known(old(disks), disk) then Done else NoSuchDisk
      ensures if answer.Done? then Moved(old(disks), disks, disk, None) else sets == old(sets) && disks == old(disks)
      ensures disks == Undeclared(old(disks), disk)
      ensures PointersAfterLoss(old(disks), disks, old(sets), sets, disk)
      ensures |sets| == |old(sets)|
              && forall i :: 0 <= i < |sets| ==>
                   if old(sets)[i].disk == Some(disk) && disk in Members(old(disks), sets[i].id)
                   then PointsAtFirstLeft(disks, old(sets)[i], sets[i]) else sets[i] == old(sets)[i]
      ensures needsDisk == (old(needsDisk) || PointerLost(old(disks), disks, old(sets), disk))
    {
      hide PointsAtFirstLeft, PointersAfterLoss, Moved, PointersOk, Undeclared, PointerLost;
      var d := FindDisk(disk);
      if d.None? {
        UndeclaredNone(disks, disk);
        NothingLost(disks, sets, disk);
        return NoSuchDisk;
      }
      ghost var owner := Undeclare(d.value);
      UndeclareKeeps(old(disks), d.value, old(sets), owner);
      LostFirst(old(disks), disks, old(sets), sets, disk);
      answer := Done;
    }

    method Undeclare(d: nat) returns (ghost owner: Option<nat>)
      requires d < |disks|
      modifies this`sets, this`disks, this`needsDisk
      ensures Owns(old(sets), old(disks)[d], owner)
      ensures disks == old(disks)[..d] + old(disks)[d + 1..]
      ensures sets == LossRows(old(sets), disks, old(disks)[d].id, owner)
      ensures needsDisk == (old(needsDisk) || (owner.Some? && old(sets)[owner.value].disk == Some(old(disks)[d].id)
                                               && Members(disks, old(sets)[owner.value].id) == []))
    {
      var disk := disks[d];
      var of: Option<nat> := None;
      if disk.set_.Some? {
        of := FindSet(sets, disk.set_.value);
      }
      owner := of;
      disks := disks[..d] + disks[d + 1..];
      if of.Some? && sets[of.value].disk == Some(disk.id) {
        Realign(of.value);
      }
    }

    /** `advance_disk`: the next of the set's disks, wrapping around; the first when the pointer is lost. */
    method AdvanceDisk(id: SetId) returns (answer: Answer)
      requires Valid()
      modifies this`sets
      ensures Valid() && (old(AllPointed()) ==> AllPointed()) && Ids(sets) == old(Ids(sets))
      ensures answer == if id !in Ids(sets) then NoSuchSet
                        else if Running in sessions then SessionRuns
                        else if Members(disks, id) == [] then NoDisks else Done
      ensures answer.Done? ==> Advanced(disks, old(sets), sets, id)
      ensures answer.Done? ==>
                forall i :: 0 <= i < |sets| ==>
                  if sets[i].id == id
                  then sets[i].disk.Some? && NextInIdOrder(Members(disks, id), old(sets)[i].disk, sets[i].disk.value)
                  else sets[i] == old(sets)[i]
      ensures !answer.Done? ==> sets == old(sets)
    {
      var k := FindSet(sets, id);
      if k.None? { return NoSuchSet; }
      var running := SessionRunning();
      if running { return SessionRuns; }
      var order := Members(disks, id);
      if order == [] { return NoDisks; }
      MembersInOrder(disks, id);
      hide NextAround, NextInIdOrder;
      var next := NextRound(order, sets[k.value].disk);
      OnlyOneSet(sets, k.value);
      Repoint(k.value, next);
      answer := Done;
    }

    /** `set_active_disk`. */
    method SetActiveDisk(id: SetId, disk: DiskId) returns (answer: Answer)
      requires Valid()
      modifies this`sets
      ensures Valid() && (old(AllPointed()) ==> AllPointed()) && Ids(sets) == old(Ids(sets))
      ensures answer == if id !in Ids(sets) then NoSuchSet
                        else if Running in sessions then SessionRuns
                        else if disk !in Members(disks, id) then NotInSet else Done
      ensures answer.Done? ==> Repointed(old(sets), sets, id, disk)
      ensures !answer.Done? ==> sets == old(sets)
    {
      var k := FindSet(sets, id);
      if k.None? { return NoSuchSet; }
      var running := SessionRunning();
      if running { return SessionRuns; }
      if disk !in Members(disks, id) { return NotInSet; }
      Repoint(k.value, disk);
      answer := Done;
    }

    method Repoint(k: nat, disk: DiskId)
      requires Valid() && k < |sets| && disk in Members(disks, sets[k].id)
      modifies this`sets
      ensures Valid() && (old(AllPointed()) ==> AllPointed()) && Ids(sets) == old(Ids(sets))
      ensures sets == old(sets)[k := old(sets)[k].(disk := Some(disk))]
    {
      sets := sets[k := sets[k].(disk := Some(disk))];
      assert Ids(sets) == old(Ids(sets));
    }

    /** `start_session`: one at a time, and only for a group with datasets and sets. */
    method StartSession(datasets: nat) returns (answer: Answer)
      requires Valid()
      modifies this`sessions
      ensures Valid()
      ensures answer == if datasets == 0 then NoDatasets else if sets == [] then NoSets
                        else if Running in old(sessions) then SessionRuns else Done
      ensures sessions == if answer.Done? then old(sessions) + [Running] else old(sessions)
    {
      if datasets == 0 { return NoDatasets; }
      if sets == [] { return NoSets; }
      var running := SessionRunning();
      if running { return SessionRuns; }
      sessions := sessions + [Running];
      answer := Done;
    }

    /** `recover_orphaned_backups`, the sessions: those a crash left running have failed; no other changes. */
    method RecoverOrphanedSessions()
      requires Valid()
      modifies this`sessions
      ensures Valid() && Running !in sessions && |sessions| == |old(sessions)|
      ensures forall k :: 0 <= k < |sessions| ==> sessions[k] == if old(sessions)[k].Running? then Failed else old(sessions)[k]
    {
      var n := 0;
      while n < |sessions|
        invariant 0 <= n <= |sessions| == |old(sessions)|
        invariant forall k :: 0 <= k < |sessions| ==>
                    sessions[k] == if k < n && old(sessions)[k].Running? then Failed else old(sessions)[k]
      {
        if sessions[n].Running? {
          sessions := sessions[n := Failed];
        }
        n := n + 1;
      }
    }

    /**
     * `_active_disk`: the set's disk, or the next one round that will mount; the set then points at it.
     */
    method PickDisk(k: nat, usable: set<DiskId>) returns (rec: Option<DiskId>)
      requires Valid() && k < |sets|
      modifies this`sets
      ensures Valid() && (old(AllPointed()) ==> AllPointed()) && Ids(sets) == old(Ids(sets))
      ensures FirstUsable(Members(disks, sets[k].id), old(sets)[k].disk, usable, rec)
      ensures rec.None? <==> forall d :: d in Members(disks, sets[k].id) ==> d !in usable
      ensures rec.Some? ==> NearestUsable(Members(disks, sets[k].id), old(sets)[k].disk, usable, rec.value)
      ensures sets == if rec.Some? then old(sets)[k := old(sets)[k].(disk := rec)] else old(sets)
    {
      MembersInOrder(disks, sets[k].id);
      rec := FirstMounting(Members(disks, sets[k].id), sets[k].disk, usable);
      if rec.Some? { Repoint(k, rec.value); }
    }

    /** `_advance_for_space`: the first other disk of the set with room; the set then points at it. */
    method AdvanceForSpace(k: nat, rec: DiskId, room: set<DiskId>) returns (moved: Option<DiskId>)
      requires Valid() && k < |sets|
      modifies this`sets
      ensures Valid() && (old(AllPointed()) ==> AllPointed()) && Ids(sets) == old(Ids(sets))
      ensures FirstWithRoom(Members(disks, sets[k].id), rec, room, moved)
      ensures sets == if moved.Some? then old(sets)[k := old(sets)[k].(disk := moved)] else old(sets)
    {
      moved := NextWithRoom(disks, sets[k].id, rec, room);
      if moved.Some? { Repoint(k, moved.value); }
    }
  }

  /** The disk after the pointer, wrapping around; the first when the pointer is not at any. */
  method NextRound(order: seq<DiskId>, pointer: Option<DiskId>) returns (next: DiskId)
    requires order != [] && forall i, j :: 0 <= i < j < |order| ==> order[i] < order[j]
    ensures next in order && NextAround(order, pointer, next) && NextInIdOrder(order, pointer, next)
  {
    var at := 0;
    if pointer.Some? {
      var found := IndexOf(order, pointer.value);
      if found.Some? {
        WrapIsMod(found.value + 1, |order|);
        at := (found.value + 1) % |order|;
      }
    }
    next := order[at];
    assert NextAround(order, pointer, next);
    NextAroundIsNext(order, pointer, next);
  }

  /** The first disk that mounts, going round from the pointer. */
  method FirstMounting(members: seq<DiskId>, pointer: Option<DiskId>, usable: set<DiskId>) returns (rec: Option<DiskId>)
    requires forall i, j :: 0 <= i < j < |members| ==> members[i] < members[j]
    ensures FirstUsable(members, pointer, usable, rec)
    ensures rec.None? <==> forall d :: d in members ==> d !in usable
    ensures rec.Some? ==> rec.value in members && NearestUsable(members, pointer, usable, rec.value)
  {
    if members == [] { return None; }
    var index := 0;
    if pointer.Some? {
      var at := IndexOf(members, pointer.value);
      if at.Some? { index := at.value; }
    }
    var ordered := members[index..] + members[..index];
    Ring(members, index);
    var n := 0;
    while n < |ordered|
      invariant 0 <= n <= |ordered|
      invariant forall j: nat :: j < n ==> Near(members, index, j) !in usable
    {
      if ordered[n] in usable {
        FoundUsable(members, pointer, usable, index, n);
        FirstIsNearest(members, pointer, usable, ordered[n]);
        return Some(ordered[n]);
      }
      n := n + 1;
    }
    assert forall d :: d in members ==> d in ordered;
    rec := None;
  }

  /** The first other disk of the set with room. */
  method NextWithRoom(disks: seq<DiskRow>, id: SetId, rec: DiskId, room: set<DiskId>) returns (moved: Option<DiskId>)
    requires InIdOrder(disks)
    ensures FirstWithRoom(Members(disks, id), rec, room, moved)
  {
    var candidates := Members(disks, id);
    var n := 0;
    while n < |candidates|
      invariant 0 <= n <= |candidates|
      invariant forall j :: 0 <= j < n ==> candidates[j] == rec || candidates[j] !in room
    {
      if candidates[n] != rec && candidates[n] in room {
        FoundRoom(disks, id, rec, room, n);
        return Some(candidates[n]);
      }
      n := n + 1;
    }
    NoRoomFound(candidates, rec, room);
    moved := None;
  }

  // ── What the disk operations do to the pointers ─────────────────────────

  ghost predicate Known(disks: seq<DiskRow>, disk: DiskId) {
    exists i :: 0 <= i < |disks| && disks[i].id == disk
  }

  /** The disk has moved to the given set, or to none; no other disk has. */
  ghost predicate Moved(before: seq<DiskRow>, after: seq<DiskRow>, disk: DiskId, to: Option<SetId>) {
    forall t: SetId, d: DiskId :: d in Members(after, t) <==> (if d == disk then to == Some(t) else d in Members(before, t))
  }

  lemma RefiledMoves(disks: seq<DiskRow>, k: nat, to: Option<SetId>)
    requires InIdOrder(disks) && k < |disks|
    ensures Moved(disks, disks[k := disks[k].(set_ := to)], disks[k].id, to)
  {
    var after := disks[k := disks[k].(set_ := to)];
    forall t: SetId, d: DiskId | true
      ensures d in Members(after, t) <==> (if d == disks[k].id then to == Some(t) else d in Members(disks, t))
    {
      Refiled(disks, k, to, t, d);
    }
  }

  lemma DeletedMoves(disks: seq<DiskRow>, k: nat)
    requires InIdOrder(disks) && k < |disks|
    ensures Moved(disks, disks[..k] + disks[k + 1..], disks[k].id, None)
    ensures InIdOrder(disks[..k] + disks[k + 1..])
  {
    var after := disks[..k] + disks[k + 1..];
    forall t: SetId, d: DiskId | true ensures d in Members(after, t) <==> d != disks[k].id && d in Members(disks, t) {
      if i :| 0 <= i < |disks| && disks[i] == DiskRow(d, Some(t)) && i != k {
        assert after[if i < k then i else i - 1] == DiskRow(d, Some(t));
      }
      if i :| 0 <= i < |after| && after[i] == DiskRow(d, Some(t)) {
        assert disks[if i < k then i else i + 1] == DiskRow(d, Some(t));
      }
    }
  }

  lemma NotAMember(disks: seq<DiskRow>, d: Option<nat>, id: SetId, disk: DiskId)
    requires InIdOrder(disks)
    requires if d.Some? then d.value < |disks| && disks[d.value].id == disk && disks[d.value].set_ != Some(id)
             else forall i :: 0 <= i < |disks| ==> disks[i].id != disk
    ensures disk !in Members(disks, id)
  {
  }

  function Realigned(disks: seq<DiskRow>, r: SetRow): SetRow {
    var remaining := Members(disks, r.id);
    if r.disk.None? || r.disk.value in remaining then r
    else r.(disk := if remaining != [] then Some(remaining[0]) else None)
  }

  /** What a set points at once the disk is attached to set `id`. */
  function PointerAttached(before: seq<DiskRow>, after: seq<DiskRow>, r: SetRow, id: SetId, disk: DiskId): SetRow {
    if r.id == id then (if r.disk.None? then r.(disk := Some(disk)) else r)
    else if disk in Members(before, r.id) then Realigned(after, r)
    else r
  }

  ghost predicate PointersAttached(
    before: seq<DiskRow>, after: seq<DiskRow>, sets: seq<SetRow>, sets': seq<SetRow>, id: SetId, disk: DiskId)
  {
    |sets'| == |sets| && forall i :: 0 <= i < |sets| ==> sets'[i] == PointerAttached(before, after, sets[i], id, disk)
  }

  /** The set the disk leaves has none left. */
  ghost predicate LeftEmpty(before: seq<DiskRow>, after: seq<DiskRow>, sets: seq<SetRow>, id: SetId, disk: DiskId) {
    exists i :: 0 <= i < |sets| && sets[i].id != id && disk in Members(before, sets[i].id) && Members(after, sets[i].id) == []
  }

  /** Only the set it leaves has the disk so far, beside the one it goes to. */
  lemma {:induction false} OnlyPrevious(sets: seq<SetRow>, disks: seq<DiskRow>, k: nat, d: nat, previous: Option<nat>, i: nat)
    requires Distinct(Ids(sets)) && InIdOrder(disks) && k < |sets| && d < |disks| && Leaves(sets, disks[d], k, previous)
    requires i < |sets|
    ensures sets[i].id == sets[k].id <==> i == k
    ensures disks[d].id in Members(disks, sets[i].id) && i != k <==> previous == Some(i)
  {
    assert Ids(sets)[i] == sets[i].id && Ids(sets)[k] == sets[k].id;
    assert previous.Some? ==> Ids(sets)[previous.value] == sets[previous.value].id;
    MemberOf(disks, d, sets[i].id);
  }

  lemma AttachRows(sets: seq<SetRow>, disks: seq<DiskRow>, k: nat, d: nat, previous: Option<nat>)
    requires Distinct(Ids(sets)) && InIdOrder(disks) && k < |sets| && d < |disks| && Leaves(sets, disks[d], k, previous)
    ensures var disks' := disks[d := disks[d].(set_ := Some(sets[k].id))];
            && PointersAttached(disks, disks', sets, FiledRows(sets, disks', k, disks[d].id, previous), sets[k].id, disks[d].id)
            && (LeftEmpty(disks, disks', sets, sets[k].id, disks[d].id)
                <==> previous.Some? && Members(disks', sets[previous.value].id) == [])
  {
    forall i | 0 <= i < |sets|
      ensures sets[i].id == sets[k].id <==> i == k
      ensures disks[d].id in Members(disks, sets[i].id) && i != k <==> previous == Some(i)
    {
      OnlyPrevious(sets, disks, k, d, previous, i);
    }
  }

  lemma MemberOf(disks: seq<DiskRow>, d: nat, id: SetId)
    requires InIdOrder(disks) && d < |disks|
    ensures disks[d].id in Members(disks, id) <==> disks[d].set_ == Some(id)
  {
    assert disks[d].set_ == Some(id) ==> disks[d] == DiskRow(disks[d].id, Some(id));
  }

  /** What a set points at once the disk is undeclared. */
  function PointerAfterLoss(before: seq<DiskRow>, after: seq<DiskRow>, r: SetRow, disk: DiskId): SetRow {
    if r.disk == Some(disk) && disk in Members(before, r.id) then Realigned(after, r) else r
  }

  ghost predicate PointersAfterLoss(
    before: seq<DiskRow>, after: seq<DiskRow>, sets: seq<SetRow>, sets': seq<SetRow>, disk: DiskId)
  {
    |sets'| == |sets| && forall i :: 0 <= i < |sets| ==> sets'[i] == PointerAfterLoss(before, after, sets[i], disk)
  }

  /** A set pointed at the disk and has none left. */
  ghost predicate PointerLost(before: seq<DiskRow>, after: seq<DiskRow>, sets: seq<SetRow>, disk: DiskId) {
    exists i :: 0 <= i < |sets| && sets[i].disk == Some(disk) && disk in Members(before, sets[i].id)
                && Members(after, sets[i].id) == []
  }

  /** `moved` is the first other member with room, in order of the ids; none when there is none. */
  ghost predicate FirstWithRoom(members: seq<DiskId>, rec: DiskId, room: set<DiskId>, moved: Option<DiskId>) {
    if moved.None? then forall d :: d in members ==> d == rec || d !in room
    else moved.value in members && moved.value != rec && moved.value in room
         && forall d :: d in members && d != rec && d in room ==> moved.value <= d
  }

  lemma FoundRoom(disks: seq<DiskRow>, id: SetId, rec: DiskId, room: set<DiskId>, n: nat)
    requires InIdOrder(disks)
    requires n < |Members(disks, id)| && Members(disks, id)[n] != rec && Members(disks, id)[n] in room
    requires forall j :: 0 <= j < n ==> Members(disks, id)[j] == rec || Members(disks, id)[j] !in room
    ensures FirstWithRoom(Members(disks, id), rec, room, Some(Members(disks, id)[n]))
  {
    MembersInOrder(disks, id);
  }

  lemma NoRoomFound(members: seq<DiskId>, rec: DiskId, room: set<DiskId>)
    requires forall j :: 0 <= j < |members| ==> members[j] == rec || members[j] !in room
    ensures FirstWithRoom(members, rec, room, None)
  {
  }

  lemma {:induction false} MembersInOrder(disks: seq<DiskRow>, id: SetId)
    requires InIdOrder(disks)
    ensures forall i, j :: 0 <= i < j < |Members(disks, id)| ==> Members(disks, id)[i] < Members(disks, id)[j]
  {
    if disks != [] {
      var init := disks[..|disks| - 1];
      MembersInOrder(init, id);
      var before := Members(init, id);
      forall i | 0 <= i < |before| ensures before[i] < disks[|disks| - 1].id {
        assert before[i] in before;
      }
    }
  }

  /** A pointer that is not at a disk of the set goes to the lowest id it has left, or to nothing; any other stays. */
  ghost predicate PointsAtFirstLeft(disks: seq<DiskRow>, before: SetRow, after: SetRow) {
    var left := Members(disks, before.id);
    && after == before.(disk := after.disk)
    && if before.disk.None? || before.disk.value in left then after.disk == before.disk
       else if left == [] then after.disk.None?
       else after.disk.Some? && after.disk.value in left && forall d :: d in left ==> after.disk.value <= d
  }

  lemma RealignedFirst(disks: seq<DiskRow>, r: SetRow)
    requires InIdOrder(disks)
    ensures PointsAtFirstLeft(disks, r, Realigned(disks, r))
  {
    MembersInOrder(disks, r.id);
  }

  lemma AttachedFirst(
    before: seq<DiskRow>, after: seq<DiskRow>, sets: seq<SetRow>, sets': seq<SetRow>, id: SetId, disk: DiskId)
    requires PointersAttached(before, after, sets, sets', id, disk) && InIdOrder(after)
    ensures forall i :: 0 <= i < |sets| ==>
              if sets[i].id == id then sets'[i].disk == (if sets[i].disk.None? then Some(disk) else sets[i].disk)
              else if disk in Members(before, sets[i].id) then PointsAtFirstLeft(after, sets[i], sets'[i])
              else sets'[i] == sets[i]
  {
    forall i | 0 <= i < |sets| ensures PointsAtFirstLeft(after, sets[i], Realigned(after, sets[i])) {
      RealignedFirst(after, sets[i]);
    }
  }

  lemma LostFirst(before: seq<DiskRow>, after: seq<DiskRow>, sets: seq<SetRow>, sets': seq<SetRow>, disk: DiskId)
    requires PointersAfterLoss(before, after, sets, sets', disk) && InIdOrder(after)
    ensures forall i :: 0 <= i < |sets| ==>
              if sets[i].disk == Some(disk) && disk in Members(before, sets[i].id)
              then PointsAtFirstLeft(after, sets[i], sets'[i]) else sets'[i] == sets[i]
  {
    forall i | 0 <= i < |sets| ensures PointsAtFirstLeft(after, sets[i], Realigned(after, sets[i])) {
      RealignedFirst(after, sets[i]);
    }
  }

  lemma NothingLost(disks: seq<DiskRow>, sets: seq<SetRow>, disk: DiskId)
    requires forall i :: 0 <= i < |disks| ==> disks[i].id != disk
    ensures PointersAfterLoss(disks, disks, sets, sets, disk) && !PointerLost(disks, disks, sets, disk)
    ensures !Known(disks, disk) && forall t :: disk !in Members(disks, t)
  {
  }

  lemma OnlyOneSet(sets: seq<SetRow>, k: nat)
    requires Distinct(Ids(sets)) && k < |sets|
    ensures forall i :: 0 <= i < |sets| && sets[i].id == sets[k].id ==> i == k
  {
    forall i | 0 <= i < |sets| && sets[i].id == sets[k].id ensures i == k {
      assert Ids(sets)[i] == Ids(sets)[k];
    }
  }

  /** The next higher id, or the lowest when there is none or the pointer is not at any of them. */
  ghost predicate NextInIdOrder(ids: seq<DiskId>, pointer: Option<DiskId>, next: DiskId) {
    && next in ids
    && if pointer.Some? && pointer.value in ids && exists d :: d in ids && d > pointer.value
       then next > pointer.value && forall d :: d in ids && d > pointer.value ==> next <= d
       else forall d :: d in ids ==> next <= d
  }

  lemma NextAroundIsNext(ids: seq<DiskId>, pointer: Option<DiskId>, next: DiskId)
    requires ids != [] && NextAround(ids, pointer, next) && forall i, j :: 0 <= i < j < |ids| ==> ids[i] < ids[j]
    ensures NextInIdOrder(ids, pointer, next)
  {
    if pointer.Some? && pointer.value in ids {
      var at :| 0 <= at < |ids| && ids[at] == pointer.value && next == Around(ids, at + 1);
      assert Wrap(at + 1, |ids|) == if at + 1 < |ids| then at + 1 else 0;
    }
  }

  /**
   * The disk the pointer is at, if it is usable; else the next higher id that is, or the lowest that is when
   * there is none or the pointer is not at any of them.
   */
  ghost predicate NearestUsable(ids: seq<DiskId>, pointer: Option<DiskId>, usable: set<DiskId>, rec: DiskId) {
    && rec in ids && rec in usable
    && if pointer.Some? && pointer.value in ids && exists d :: d in ids && d in usable && d >= pointer.value
       then rec >= pointer.value && forall d :: d in ids && d in usable && d >= pointer.value ==> rec <= d
       else forall d :: d in ids && d in usable ==> rec <= d
  }

  lemma FirstIsNearest(ids: seq<DiskId>, pointer: Option<DiskId>, usable: set<DiskId>, rec: DiskId)
    requires FirstUsable(ids, pointer, usable, Some(rec)) && forall i, j :: 0 <= i < j < |ids| ==> ids[i] < ids[j]
    ensures NearestUsable(ids, pointer, usable, rec)
  {
    var index: nat, n: nat :| FirstFrom(ids, pointer, usable, rec, index, n);
    var at := if index + n < |ids| then index + n else index + n - |ids|;
    OnceRound(ids, index, n);
    forall t: nat | t < |ids| && ids[t] in usable
      ensures if t >= index then index + n < |ids| && at <= t else index + n < |ids| || at <= t
    {
      var j := if t >= index then t - index else t + |ids| - index;
      OnceRound(ids, index, j);
    }
    NoneBefore(ids, pointer, usable, rec, index, n, at);
  }

  lemma OnceRound(ids: seq<DiskId>, index: nat, n: nat)
    requires index < |ids| && n < |ids|
    ensures Near(ids, index, n) == ids[if index + n < |ids| then index + n else index + n - |ids|]
  {
    var p := index + n;
    if p >= |ids| { assert Wrap(p, |ids|) == Wrap(p - |ids|, |ids|); }
  }

  lemma NoneBefore(
    ids: seq<DiskId>, pointer: Option<DiskId>, usable: set<DiskId>, rec: DiskId, index: nat, n: nat, at: nat)
    requires (forall i, j :: 0 <= i < j < |ids| ==> ids[i] < ids[j]) && index < |ids| && n < |ids| && at < |ids|
    requires rec == ids[at] && rec in usable && at == if index + n < |ids| then index + n else index + n - |ids|
    requires if pointer.Some? && pointer.value in ids then ids[index] == pointer.value else index == 0
    requires forall t: nat :: t < |ids| && ids[t] in usable ==>
               if t >= index then index + n < |ids| && at <= t else index + n < |ids| || at <= t
    ensures NearestUsable(ids, pointer, usable, rec)
  {
  }

  /** The set does not point at the disk. */
  ghost predicate PointsElsewhere(sets: seq<SetRow>, id: SetId, disk: DiskId) {
    forall i :: 0 <= i < |sets| && sets[i].id == id ==> sets[i].disk != Some(disk)
  }

  lemma SomeMember(disks: seq<DiskRow>, id: SetId)
    ensures Members(disks, id) == [] <==> forall d :: d !in Members(disks, id)
  {
    assert Members(disks, id) != [] ==> Members(disks, id)[0] in Members(disks, id);
  }

  /** A pointer that is not at the disk that moved, nor at nothing where it moved to, stays sound. */
  lemma StillPointed(before: seq<DiskRow>, after: seq<DiskRow>, disk: DiskId, to: Option<SetId>, r: SetRow)
    requires Moved(before, after, disk, to) && Pointed(before, r)
    requires r.disk == Some(disk) ==> to == Some(r.id)
    requires to == Some(r.id) ==> r.disk.Some?
    ensures Pointed(after, r)
  {
    SomeMember(before, r.id);
    SomeMember(after, r.id);
  }

  /** A pointer that was at something is sound once it is realigned. */
  lemma RealignedPointed(before: seq<DiskRow>, after: seq<DiskRow>, disk: DiskId, to: Option<SetId>, r: SetRow)
    requires Moved(before, after, disk, to) && Pointed(before, r) && to != Some(r.id)
    ensures Pointed(after, Realigned(after, r))
  {
    if r.disk.None? {
      StillPointed(before, after, disk, to, r);
    }
  }

  /** The set the disk is filed under so far, if it is another one of the group. */
  ghost predicate Leaves(sets: seq<SetRow>, row: DiskRow, k: nat, previous: Option<nat>)
    requires k < |sets|
  {
    && (row.set_ == Some(sets[k].id) || row.set_.None? ==> previous.None?)
    && (previous.Some? ==> previous.value < |sets| && previous.value != k && row.set_ == Some(sets[previous.value].id))
    && (previous.None? && row.set_.Some? && row.set_ != Some(sets[k].id) ==> row.set_.value !in Ids(sets))
  }

  function FiledRows(sets: seq<SetRow>, disks': seq<DiskRow>, k: nat, disk: DiskId, previous: Option<nat>): (after: seq<SetRow>)
    requires k < |sets| && (previous.Some? ==> previous.value < |sets|)
    ensures |after| == |sets|
  {
    var filed := if sets[k].disk.None? then sets[k := sets[k].(disk := Some(disk))] else sets;
    if previous.Some? then filed[previous.value := Realigned(disks', filed[previous.value])] else filed
  }

  lemma FiledRowsKeep(sets: seq<SetRow>, disks': seq<DiskRow>, k: nat, disk: DiskId, previous: Option<nat>)
    requires k < |sets| && (previous.Some? ==> previous.value < |sets|)
    ensures var after := FiledRows(sets, disks', k, disk, previous);
            Ids(after) == Ids(sets) && (Dense(sets) ==> Dense(after))
  {
  }

  lemma AttachPoints(sets: seq<SetRow>, disks: seq<DiskRow>, k: nat, d: nat, previous: Option<nat>)
    requires Distinct(Ids(sets)) && InIdOrder(disks) && k < |sets| && d < |disks| && Leaves(sets, disks[d], k, previous)
    ensures var disks' := disks[d := disks[d].(set_ := Some(sets[k].id))];
            PointersOk(disks, sets) ==> PointersOk(disks', FiledRows(sets, disks', k, disks[d].id, previous))
  {
    var disk, to := disks[d].id, Some(sets[k].id);
    var disks' := disks[d := disks[d].(set_ := to)];
    RefiledMoves(disks, d, to);
    var sets' := FiledRows(sets, disks', k, disk, previous);
    if PointersOk(disks, sets) {
      forall i | 0 <= i < |sets'| ensures Pointed(disks', sets'[i]) {
        assert Pointed(disks, sets[i]);
        assert Ids(sets)[i] == sets[i].id && Ids(sets)[k] == sets[k].id;
        if previous == Some(i) {
          RealignedPointed(disks, disks', disk, to, sets[i]);
        } else if i != k || sets[k].disk.Some? {
          AttachedElsewhere(sets, disks, k, d, previous, i);
          StillPointed(disks, disks', disk, to, sets[i]);
        }
      }
    }
  }

  lemma {:induction false} FilingKeeps(sets: seq<SetRow>, disks: seq<DiskRow>, k: nat, d: nat, previous: Option<nat>)
    requires Distinct(Ids(sets)) && InIdOrder(disks) && k < |sets| && d < |disks| && Leaves(sets, disks[d], k, previous)
    ensures
      var id, disk := sets[k].id, disks[d].id;
      var disks' := disks[d := disks[d].(set_ := Some(id))];
      var sets' := FiledRows(sets, disks', k, disk, previous);
      && disks' == Filed(disks, disk, Some(id)) && InIdOrder(disks') && Moved(disks, disks', disk, Some(id))
      && Ids(sets') == Ids(sets) && (Dense(sets) ==> Dense(sets')) && (PointersOk(disks, sets) ==> PointersOk(disks', sets'))
      && PointersAttached(disks, disks', sets, sets', id, disk)
      && (LeftEmpty(disks, disks', sets, id, disk) <==> previous.Some? && Members(disks', sets[previous.value].id) == [])
  {
    FiledAt(disks, d, Some(sets[k].id));
    RefiledMoves(disks, d, Some(sets[k].id));
    AttachPoints(sets, disks, k, d, previous);
    AttachRows(sets, disks, k, d, previous);
    FiledRowsKeep(sets, disks[d := disks[d].(set_ := Some(sets[k].id))], k, disks[d].id, previous);
  }

  /** Only the set it leaves can have pointed at the disk that moves. */
  lemma AttachedElsewhere(sets: seq<SetRow>, disks: seq<DiskRow>, k: nat, d: nat, previous: Option<nat>, i: nat)
    requires Distinct(Ids(sets)) && InIdOrder(disks) && k < |sets| && d < |disks| && Leaves(sets, disks[d], k, previous)
    requires i < |sets| && previous != Some(i) && Pointed(disks, sets[i])
    ensures sets[i].disk == Some(disks[d].id) ==> i == k
  {
    OnlyPrevious(sets, disks, k, d, previous, i);
  }

  lemma DetachPoints(disks: seq<DiskRow>, disks': seq<DiskRow>, sets: seq<SetRow>, k: nat, disk: DiskId)
    requires Distinct(Ids(sets)) && k < |sets| && InIdOrder(disks)
    requires disk in Members(disks, sets[k].id) && Moved(disks, disks', disk, None)
    ensures PointersOk(disks, sets) ==> (PointersOk(disks', sets) <==> PointsElsewhere(sets, sets[k].id, disk))
  {
    if PointersOk(disks, sets) {
      if PointsElsewhere(sets, sets[k].id, disk) {
        forall i | 0 <= i < |sets| ensures Pointed(disks', sets[i]) {
          assert Pointed(disks, sets[i]);
          OneHome(disks, disk, sets[i].id, sets[k].id);
          StillPointed(disks, disks', disk, None, sets[i]);
        }
      } else {
        var i :| 0 <= i < |sets| && sets[i].id == sets[k].id && sets[i].disk == Some(disk);
        assert !Pointed(disks', sets[i]);
      }
    }
  }

  lemma OneHome(disks: seq<DiskRow>, disk: DiskId, s: SetId, t: SetId)
    requires InIdOrder(disks)
    ensures disk in Members(disks, s) && disk in Members(disks, t) ==> s == t
  {
  }

  /** The sets after a disk of theirs, or of none of them, has gone to another group. */
  function AwayRows(sets: seq<SetRow>, disks': seq<DiskRow>, owner: Option<nat>): (after: seq<SetRow>)
    requires owner.Some? ==> owner.value < |sets|
    ensures |after| == |sets|
  {
    if owner.Some? then sets[owner.value := Realigned(disks', sets[owner.value])] else sets
  }

  lemma {:induction false} AwayPoints(
    sets: seq<SetRow>, disks: seq<DiskRow>, id: SetId, d: nat, owner: Option<nat>)
    requires Distinct(Ids(sets)) && InIdOrder(disks) && d < |disks| && Owns(sets, disks[d], owner) && id !in Ids(sets)
    requires PointersOk(disks, sets)
    ensures var disks' := disks[d := disks[d].(set_ := Some(id))]; PointersOk(disks', AwayRows(sets, disks', owner))
  {
    var disks' := disks[d := disks[d].(set_ := Some(id))];
    var sets' := AwayRows(sets, disks', owner);
    RefiledMoves(disks, d, Some(id));
    forall i | 0 <= i < |sets'| ensures Pointed(disks', sets'[i]) {
      assert Pointed(disks, sets[i]) && Ids(sets)[i] == sets[i].id;
      OnlyOwner(sets, disks, d, owner, i);
      if owner == Some(i) {
        RealignedPointed(disks, disks', disks[d].id, Some(id), sets[i]);
      } else {
        StillPointed(disks, disks', disks[d].id, Some(id), sets[i]);
      }
    }
  }

  lemma {:induction false} AwayExact(sets: seq<SetRow>, disks: seq<DiskRow>, id: SetId, d: nat, owner: Option<nat>)
    requires Distinct(Ids(sets)) && InIdOrder(disks) && d < |disks| && Owns(sets, disks[d], owner) && id !in Ids(sets)
    ensures var disks' := disks[d := disks[d].(set_ := Some(id))];
            && PointersAttached(disks, disks', sets, AwayRows(sets, disks', owner), id, disks[d].id)
            && (LeftEmpty(disks, disks', sets, id, disks[d].id)
                <==> owner.Some? && Members(disks', sets[owner.value].id) == [])
  {
    forall i | 0 <= i < |sets|
      ensures sets[i].id != id && (disks[d].id in Members(disks, sets[i].id) <==> owner == Some(i))
    {
      OnlyOwner(sets, disks, d, owner, i);
      assert Ids(sets)[i] == sets[i].id;
    }
  }

  lemma {:induction false} FilingAwayKeeps(sets: seq<SetRow>, disks: seq<DiskRow>, id: SetId, d: nat, owner: Option<nat>)
    requires Distinct(Ids(sets)) && InIdOrder(disks) && d < |disks| && Owns(sets, disks[d], owner) && id !in Ids(sets)
    ensures
      var disk := disks[d].id;
      var disks' := disks[d := disks[d].(set_ := Some(id))];
      var sets' := AwayRows(sets, disks', owner);
      && disks' == Filed(disks, disk, Some(id)) && InIdOrder(disks') && Moved(disks, disks', disk, Some(id))
      && Ids(sets') == Ids(sets) && (Dense(sets) ==> Dense(sets')) && (PointersOk(disks, sets) ==> PointersOk(disks', sets'))
      && PointersAttached(disks, disks', sets, sets', id, disk)
      && (LeftEmpty(disks, disks', sets, id, disk) <==> owner.Some? && Members(disks', sets[owner.value].id) == [])
  {
    FiledAt(disks, d, Some(id));
    RefiledMoves(disks, d, Some(id));
    AwayExact(sets, disks, id, d, owner);
    if PointersOk(disks, sets) { AwayPoints(sets, disks, id, d, owner); }
    AwayRowsKeep(sets, disks[d := disks[d].(set_ := Some(id))], owner);
  }

  lemma {:induction false} AwayRowsKeep(sets: seq<SetRow>, disks': seq<DiskRow>, owner: Option<nat>)
    requires owner.Some? ==> owner.value < |sets|
    ensures var after := AwayRows(sets, disks', owner); Ids(after) == Ids(sets) && (Dense(sets) ==> Dense(after))
  {
  }

  /** A set of this group has adopted the new disk if it pointed at nothing. */
  ghost predicate PointersAdopted(sets: seq<SetRow>, sets': seq<SetRow>, home: Option<SetId>, disk: DiskId) {
    |sets'| == |sets| && forall i :: 0 <= i < |sets| ==>
      sets'[i] == if Some(sets[i].id) == home && sets[i].disk.None? then sets[i].(disk := Some(disk)) else sets[i]
  }

  lemma {:induction false} DeclaredMembers(disks: seq<DiskRow>, disk: DiskId, home: Option<SetId>, id: SetId)
    ensures Members(disks + [DiskRow(disk, home)], id) == Members(disks, id) + if home == Some(id) then [disk] else []
  {
    assert (disks + [DiskRow(disk, home)])[..|disks|] == disks;
  }

  /** The sets after one of them has adopted the new disk. */
  function AdoptedRows(sets: seq<SetRow>, disk: DiskId, k: Option<nat>): (after: seq<SetRow>)
    requires k.Some? ==> k.value < |sets|
    ensures |after| == |sets|
  {
    if k.Some? && sets[k.value].disk.None? then sets[k.value := sets[k.value].(disk := Some(disk))] else sets
  }

  /** The set of this group a new disk is filed under, if there is one. */
  ghost predicate Home(sets: seq<SetRow>, home: Option<SetId>, k: Option<nat>) {
    if k.Some? then k.value < |sets| && home == Some(sets[k.value].id) else home.None? || home.value !in Ids(sets)
  }

  lemma {:induction false} HomeAt(sets: seq<SetRow>, home: Option<SetId>, k: Option<nat>, i: nat)
    requires Distinct(Ids(sets)) && Home(sets, home, k) && i < |sets|
    ensures Some(sets[i].id) == home <==> k == Some(i)
  {
    assert Ids(sets)[i] == sets[i].id;
    if k.Some? { assert Ids(sets)[k.value] == sets[k.value].id; }
  }

  lemma {:induction false} AdoptedExact(sets: seq<SetRow>, disk: DiskId, home: Option<SetId>, k: Option<nat>)
    requires Distinct(Ids(sets)) && Home(sets, home, k)
    ensures var sets' := AdoptedRows(sets, disk, k);
            Ids(sets') == Ids(sets) && (Dense(sets) ==> Dense(sets')) && PointersAdopted(sets, sets', home, disk)
  {
    forall i | 0 <= i < |sets| ensures Some(sets[i].id) == home <==> k == Some(i) {
      HomeAt(sets, home, k, i);
    }
  }

  lemma {:induction false} AdoptedPointed(
    sets: seq<SetRow>, disks: seq<DiskRow>, more: seq<DiskRow>, disk: DiskId, k: Option<nat>, i: nat)
    requires (k.Some? ==> k.value < |sets|) && i < |sets| && Pointed(disks, sets[i])
    requires Members(more, sets[i].id) == Members(disks, sets[i].id) + if k == Some(i) then [disk] else []
    ensures Pointed(more, AdoptedRows(sets, disk, k)[i])
  {
    PointedWithMore(disks, more, disk, sets[i], k == Some(i));
  }

  lemma PointedWithMore(disks: seq<DiskRow>, more: seq<DiskRow>, disk: DiskId, r: SetRow, own: bool)
    requires Pointed(disks, r) && Members(more, r.id) == Members(disks, r.id) + if own then [disk] else []
    ensures Pointed(more, if own && r.disk.None? then r.(disk := Some(disk)) else r)
  {
  }

  lemma {:induction false} AdoptingKeeps(sets: seq<SetRow>, disks: seq<DiskRow>, home: Option<SetId>, k: Option<nat>)
    requires Distinct(Ids(sets)) && InIdOrder(disks) && Home(sets, home, k)
    ensures
      var disk := NextDisk(disks);
      var disks' := disks + [DiskRow(disk, home)];
      var sets' := AdoptedRows(sets, disk, k);
      && InIdOrder(disks') && Ids(sets') == Ids(sets) && (Dense(sets) ==> Dense(sets'))
      && PointersAdopted(sets, sets', home, disk) && (PointersOk(disks, sets) ==> PointersOk(disks', sets'))
  {
    var disk := NextDisk(disks);
    AdoptedExact(sets, disk, home, k);
    var sets' := AdoptedRows(sets, disk, k);
    if PointersOk(disks, sets) {
      forall i | 0 <= i < |sets'| ensures Pointed(disks + [DiskRow(disk, home)], sets'[i]) {
        assert Pointed(disks, sets[i]);
        HomeAt(sets, home, k, i);
        DeclaredMembers(disks, disk, home, sets[i].id);
        AdoptedPointed(sets, disks, disks + [DiskRow(disk, home)], disk, k, i);
      }
    }
  }

  /** The id the database gives the next disk. */
  function NextDisk(disks: seq<DiskRow>): DiskId {
    if disks == [] then 1 else disks[|disks| - 1].id + 1
  }

  /** The highest id in use, and one more. */
  function NextId(ids: seq<SetId>, others: seq<OtherSet>, disks: seq<DiskRow>): SetId {
    if ids != [] then
      var rest := NextId(ids[1..], others, disks);
      if ids[0] >= rest then ids[0] + 1 else rest
    else if others != [] then
      var rest := NextId(ids, others[1..], disks);
      if others[0].id >= rest then others[0].id + 1 else rest
    else if disks != [] then
      var rest := NextId(ids, others, disks[1..]);
      if disks[0].set_.Some? && disks[0].set_.value >= rest then disks[0].set_.value + 1 else rest
    else 1
  }

  lemma {:induction false} NextIdIsFree(ids: seq<SetId>, others: seq<OtherSet>, disks: seq<DiskRow>)
    ensures forall id :: id in ids ==> id < NextId(ids, others, disks)
    ensures forall id :: id in OtherIds(others) ==> id < NextId(ids, others, disks)
    ensures forall i :: 0 <= i < |disks| ==> disks[i].set_.None? || disks[i].set_.value < NextId(ids, others, disks)
    decreases |ids|, |others|, |disks|
  {
    if ids != [] {
      NextIdIsFree(ids[1..], others, disks);
      assert ids == [ids[0]] + ids[1..];
    } else if others != [] {
      NextIdIsFree(ids, others[1..], disks);
      assert OtherIds(others) == [others[0].id] + OtherIds(others[1..]);
    } else if disks != [] {
      NextIdIsFree(ids, others, disks[1..]);
      assert disks == [disks[0]] + disks[1..];
    }
  }

  // ── Sets of other groups ────────────────────────────────────────────────

  /** The set is another group's, and no session of that one is running. */
  predicate IdleElsewhere(others: seq<OtherSet>, id: SetId) {
    OtherSet(id, false) in others
  }

  lemma {:induction false} BusyIs(others: seq<OtherSet>, k: nat)
    requires Distinct(OtherIds(others)) && k < |others|
    ensures others[k].busy <==> !IdleElsewhere(others, others[k].id)
  {
    forall i | 0 <= i < |others| && others[i].id == others[k].id ensures i == k {
      assert OtherIds(others)[i] == OtherIds(others)[k];
    }
    assert !others[k].busy ==> others[k] == OtherSet(others[k].id, false);
  }

  function WithBusy(others: seq<OtherSet>, id: SetId, busy: bool): seq<OtherSet> {
    seq(|others|, i requires 0 <= i < |others| => if others[i].id == id then OtherSet(id, busy) else others[i])
  }

  lemma {:induction false} BusyKeepsIds(others: seq<OtherSet>, id: SetId, busy: bool)
    ensures OtherIds(WithBusy(others, id, busy)) == OtherIds(others)
  {
  }

  function WithoutOther(others: seq<OtherSet>, id: SetId): seq<OtherSet> {
    if others == [] then []
    else WithoutOther(others[..|others| - 1], id) + if others[|others| - 1].id == id then [] else [others[|others| - 1]]
  }

  lemma {:induction false} WithoutOtherNone(others: seq<OtherSet>, id: SetId)
    requires forall i :: 0 <= i < |others| ==> others[i].id != id
    ensures WithoutOther(others, id) == others
  {
    if others != [] { WithoutOtherNone(others[..|others| - 1], id); }
  }

  lemma {:induction false} WithoutOtherAt(others: seq<OtherSet>, k: nat)
    requires Distinct(OtherIds(others)) && k < |others|
    ensures WithoutOther(others, others[k].id) == others[..k] + others[k + 1..]
  {
    var init := others[..|others| - 1];
    assert forall i :: 0 <= i < |others| ==> OtherIds(others)[i] == others[i].id;
    assert forall i :: 0 <= i < |init| ==> OtherIds(init)[i] == OtherIds(others)[i];
    if k == |init| {
      WithoutOtherNone(init, others[k].id);
    } else {
      WithoutOtherAt(init, k);
      assert init[..k] == others[..k] && init[k + 1..] + [others[|others| - 1]] == others[k + 1..];
    }
  }

  lemma {:induction false} WithoutOtherIds(others: seq<OtherSet>, id: SetId)
    requires Distinct(OtherIds(others))
    ensures Distinct(OtherIds(WithoutOther(others, id)))
    ensures forall t :: t in OtherIds(WithoutOther(others, id)) <==> t in OtherIds(others) && t != id
  {
    if others != [] {
      var init, last := others[..|others| - 1], others[|others| - 1];
      assert OtherIds(others) == OtherIds(init) + [last.id];
      WithoutOtherIds(init, id);
      var rest := WithoutOther(init, id);
      assert OtherIds(rest + [last]) == OtherIds(rest) + [last.id];
      assert rest + [] == rest;
      assert last.id !in OtherIds(init);
      forall i | 0 <= i < |rest| ensures OtherIds(rest)[i] != last.id {
        assert OtherIds(rest)[i] in OtherIds(rest);
      }
    }
  }

  /** The disk table after a set is gone. */
  function Vacated(disks: seq<DiskRow>, id: SetId): seq<DiskRow> {
    seq(|disks|, i requires 0 <= i < |disks| => if disks[i].set_ == Some(id) then DiskRow(disks[i].id, None) else disks[i])
  }

  lemma {:induction false} PointersElsewhere(disks: seq<DiskRow>, disks': seq<DiskRow>, sets: seq<SetRow>, id: SetId)
    requires AllUnassigned(disks, disks', id) && Kept(sets, sets) && id !in Ids(sets)
    ensures PointersOk(disks, sets) ==> PointersOk(disks', sets)
  {
    forall i | 0 <= i < |sets| ensures sets[i].id != id {
      assert Ids(sets)[i] == sets[i].id;
    }
    PointersLeft(disks, disks', sets, sets, id);
  }

  /** A disk filed under another group's set is a member of none of these. */
  lemma {:induction false} LosingElsewhere(disks: seq<DiskRow>, d: nat, sets: seq<SetRow>, id: SetId)
    requires InIdOrder(disks) && d < |disks| && disks[d].set_ == Some(id) && id !in Ids(sets)
    ensures var disks' := disks[..d] + disks[d + 1..];
            && disks' == Undeclared(disks, disks[d].id) && InIdOrder(disks')
            && (PointersOk(disks, sets) ==> PointersOk(disks', sets))
  {
    UndeclaredAt(disks, d);
    DeletedMoves(disks, d);
    if PointersOk(disks, sets) {
      forall i | 0 <= i < |sets| ensures Pointed(disks[..d] + disks[d + 1..], sets[i]) {
        assert Pointed(disks, sets[i]) && Ids(sets)[i] == sets[i].id;
        MemberOf(disks, d, sets[i].id);
        StillPointed(disks, disks[..d] + disks[d + 1..], disks[d].id, None, sets[i]);
      }
    }
  }

  /** The group's set the disk is filed under, if there is one. */
  ghost predicate Owns(sets: seq<SetRow>, row: DiskRow, owner: Option<nat>) {
    if owner.Some? then owner.value < |sets| && row.set_ == Some(sets[owner.value].id)
    else row.set_.None? || row.set_.value !in Ids(sets)
  }

  /** The set found for a disk's row is the one it is a member of, and there is no other. */
  lemma {:induction false} OnlyOwner(sets: seq<SetRow>, disks: seq<DiskRow>, d: nat, owner: Option<nat>, i: nat)
    requires Distinct(Ids(sets)) && InIdOrder(disks) && d < |disks| && Owns(sets, disks[d], owner) && i < |sets|
    ensures disks[d].id in Members(disks, sets[i].id) <==> owner == Some(i)
  {
    assert Ids(sets)[i] == sets[i].id;
    if owner.Some? { assert Ids(sets)[owner.value] == sets[owner.value].id; }
    MemberOf(disks, d, sets[i].id);
  }

  function LossRows(sets: seq<SetRow>, disks': seq<DiskRow>, disk: DiskId, owner: Option<nat>): (after: seq<SetRow>)
    requires owner.Some? ==> owner.value < |sets|
    ensures |after| == |sets|
  {
    if owner.Some? && sets[owner.value].disk == Some(disk)
    then sets[owner.value := Realigned(disks', sets[owner.value])] else sets
  }

  lemma {:induction false} LossRowsKeep(sets: seq<SetRow>, disks': seq<DiskRow>, disk: DiskId, owner: Option<nat>)
    requires owner.Some? ==> owner.value < |sets|
    ensures var after := LossRows(sets, disks', disk, owner); Ids(after) == Ids(sets) && (Dense(sets) ==> Dense(after))
  {
  }

  lemma {:induction false} LossPoints(
    disks: seq<DiskRow>, disks': seq<DiskRow>, d: nat, sets: seq<SetRow>, owner: Option<nat>)
    requires Distinct(Ids(sets)) && InIdOrder(disks) && d < |disks| && Owns(sets, disks[d], owner)
    requires Moved(disks, disks', disks[d].id, None) && PointersOk(disks, sets)
    ensures PointersOk(disks', LossRows(sets, disks', disks[d].id, owner))
  {
    var sets' := LossRows(sets, disks', disks[d].id, owner);
    forall i | 0 <= i < |sets'| ensures Pointed(disks', sets'[i]) {
      assert Pointed(disks, sets[i]);
      OnlyOwner(sets, disks, d, owner, i);
      if owner == Some(i) && sets[i].disk == Some(disks[d].id) {
        RealignedPointed(disks, disks', disks[d].id, None, sets[i]);
      } else {
        StillPointed(disks, disks', disks[d].id, None, sets[i]);
      }
    }
  }

  lemma {:induction false} LossExact(
    disks: seq<DiskRow>, disks': seq<DiskRow>, d: nat, sets: seq<SetRow>, owner: Option<nat>)
    requires Distinct(Ids(sets)) && InIdOrder(disks) && d < |disks| && Owns(sets, disks[d], owner)
    ensures PointersAfterLoss(disks, disks', sets, LossRows(sets, disks', disks[d].id, owner), disks[d].id)
    ensures PointerLost(disks, disks', sets, disks[d].id)
            <==> owner.Some? && sets[owner.value].disk == Some(disks[d].id) && Members(disks', sets[owner.value].id) == []
  {
    forall i | 0 <= i < |sets| ensures disks[d].id in Members(disks, sets[i].id) <==> owner == Some(i) {
      OnlyOwner(sets, disks, d, owner, i);
    }
  }

  lemma {:induction false} UndeclareKeeps(disks: seq<DiskRow>, d: nat, sets: seq<SetRow>, owner: Option<nat>)
    requires Distinct(Ids(sets)) && InIdOrder(disks) && d < |disks| && Owns(sets, disks[d], owner)
    ensures
      var disk, disks' := disks[d].id, disks[..d] + disks[d + 1..];
      var sets' := LossRows(sets, disks', disk, owner);
      && disks' == Undeclared(disks, disk) && InIdOrder(disks') && Moved(disks, disks', disk, None)
      && Ids(sets') == Ids(sets) && (Dense(sets) ==> Dense(sets')) && (PointersOk(disks, sets) ==> PointersOk(disks', sets'))
      && PointersAfterLoss(disks, disks', sets, sets', disk)
      && (PointerLost(disks, disks', sets, disk)
          <==> owner.Some? && sets[owner.value].disk == Some(disk) && Members(disks', sets[owner.value].id) == [])
  {
    var disks' := disks[..d] + disks[d + 1..];
    UndeclaredAt(disks, d);
    DeletedMoves(disks, d);
    LossRowsKeep(sets, disks', disks[d].id, owner);
    LossExact(disks, disks', d, sets, owner);
    if PointersOk(disks, sets) { LossPoints(disks, disks', d, sets, owner); }
  }

  /** The set's pointer is now at the disk, and nothing else has changed. */
  ghost predicate Repointed(before: seq<SetRow>, after: seq<SetRow>, id: SetId, disk: DiskId) {
    exists k :: 0 <= k < |before| && before[k].id == id && after == before[k := before[k].(disk := Some(disk))]
  }

  /** The set's pointer has moved on to the next of its disks. */
  ghost predicate Advanced(disks: seq<DiskRow>, before: seq<SetRow>, after: seq<SetRow>, id: SetId)
    requires Members(disks, id) != []
  {
    exists k, next :: 0 <= k < |before| && before[k].id == id && NextAround(Members(disks, id), before[k].disk, next)
                      && after == before[k := before[k].(disk := Some(next))]
  }

  /** The disk after the pointer, or the first one when the pointer is not at any. */
  ghost predicate NextAround(order: seq<DiskId>, pointer: Option<DiskId>, next: DiskId)
    requires order != []
  {
    if pointer.Some? && pointer.value in order
    then exists at :: 0 <= at < |order| && order[at] == pointer.value && next == Around(order, at + 1)
    else next == order[0]
  }

  /** `rec` is the first disk that mounts, going round from the pointer; none when none does. */
  ghost predicate FirstUsable(order: seq<DiskId>, pointer: Option<DiskId>, usable: set<DiskId>, rec: Option<DiskId>) {
    if rec.None? then forall d :: d in order ==> d !in usable
    else order != [] && rec.value in usable && exists index: nat, n: nat :: FirstFrom(order, pointer, usable, rec.value, index, n)
  }

  ghost predicate FirstFrom(order: seq<DiskId>, pointer: Option<DiskId>, usable: set<DiskId>, rec: DiskId, index: nat, n: nat)
    requires order != []
  {
    && index < |order| && (if pointer.Some? && pointer.value in order then order[index] == pointer.value else index == 0)
    && n < |order| && rec == Near(order, index, n)
    && forall j: nat :: j < n ==> Near(order, index, j) !in usable
  }

  function Near(order: seq<DiskId>, index: nat, j: nat): DiskId
    requires order != []
  {
    Around(order, index + j)
  }

  lemma Ring(order: seq<DiskId>, index: nat)
    requires index < |order|
    ensures forall j: nat :: j < |order| ==> (order[index..] + order[..index])[j] == Near(order, index, j)
  {
    forall j: nat | j < |order| ensures (order[index..] + order[..index])[j] == Near(order, index, j) {
      var p := index + j;
      assert Wrap(p, |order|) == if p < |order| then p else p - |order|;
    }
  }

  lemma FoundUsable(order: seq<DiskId>, pointer: Option<DiskId>, usable: set<DiskId>, index: nat, n: nat)
    requires index < |order| && (if pointer.Some? && pointer.value in order then order[index] == pointer.value else index == 0)
    requires n < |order| && Near(order, index, n) in usable
    requires forall j: nat :: j < n ==> Near(order, index, j) !in usable
    ensures FirstUsable(order, pointer, usable, Some(Near(order, index, n)))
  {
    assert FirstFrom(order, pointer, usable, Near(order, index, n), index, n);
  }

  ghost predicate AllUnassigned(disks: seq<DiskRow>, after: seq<DiskRow>, id: SetId) {
    forall t: SetId, d: DiskId :: d in Members(after, t) <==> (t != id && d in Members(disks, t))
  }

  lemma PointersLeft(disks: seq<DiskRow>, disks': seq<DiskRow>, sets: seq<SetRow>, sets': seq<SetRow>, id: SetId)
    requires AllUnassigned(disks, disks', id) && Kept(sets, sets') && forall i :: 0 <= i < |sets'| ==> sets'[i].id != id
    ensures PointersOk(disks, sets) ==> PointersOk(disks', sets')
  {
    PointersIf(disks, sets, sets');
    forall i | 0 <= i < |sets'| && Pointed(disks, sets'[i]) ensures Pointed(disks', sets'[i]) {
      var t := sets'[i].id;
      if Members(disks', t) != [] {
        assert Members(disks', t)[0] in Members(disks', t);
        assert Members(disks', t)[0] in Members(disks, t);
      }
    }
  }

  /** A new row behind all others. */
  lemma Behind(sets: seq<SetRow>, r: SetRow)
    requires Dense(sets) && r.position >= |sets| && Distinct(Ids(sets)) && r.id !in Ids(sets)
    ensures Ascending(sets + [r]) && DistinctPositions(sets + [r])
    ensures Ids(sets + [r]) == Ids(sets) + [r.id] && Distinct(Ids(sets) + [r.id])
  {
    assert (sets + [r])[..|sets|] == sets;
  }

  lemma PointersBehind(disks: seq<DiskRow>, sets: seq<SetRow>, r: SetRow)
    requires r.disk.None? && forall i :: 0 <= i < |disks| ==> disks[i].set_ != Some(r.id)
    ensures PointersOk(disks, sets) ==> PointersOk(disks, sets + [r])
  {
    assert Pointed(disks, r) by {
      if Members(disks, r.id) != [] {
        assert Members(disks, r.id)[0] in Members(disks, r.id);
      }
    }
    forall i | 0 <= i < |sets + [r]| && PointersOk(disks, sets) ensures Pointed(disks, (sets + [r])[i]) {
      if i < |sets| { assert Pointed(disks, sets[i]); }
    }
  }

  method Appended(sets: seq<SetRow>, r: SetRow) returns (after: seq<SetRow>)
    requires Dense(sets) && r.position >= |sets| && Distinct(Ids(sets)) && r.id !in Ids(sets)
    ensures Dense(after) && Distinct(Ids(after)) && Kept(sets + [r], after)
    ensures Ids(after) == Ids(sets) + [r.id]
  {
    Behind(sets, r);
    after := Renumber(sets + [r], sets + [r]);
    KeptInPlace(sets + [r], after);
  }

  /** Write the position of row k, taken by no other, and renumber: nothing moves, or the row goes last. */
  method Repositioned(sets: seq<SetRow>, k: nat, p: int) returns (after: seq<SetRow>)
    requires Dense(sets) && Distinct(Ids(sets)) && k < |sets| && p >= 0
    requires p < |sets| ==> sets[p].id == sets[k].id
    ensures Dense(after) && Distinct(Ids(after)) && Kept(sets, after)
    ensures forall t :: t in Ids(after) <==> t in Ids(sets)
    ensures Ids(after) == Reordered(sets, sets[k].id, Some(p))
  {
    var row := sets[k].(position := p);
    if p < |sets| {
      assert Ids(sets)[p] == Ids(sets)[k];
      assert sets[k := row] == sets;
      after := Renumber(sets[k := row], sets);
      KeptInPlace(sets, after);
    } else {
      ghost var order := sets[..k] + sets[k + 1..] + [row];
      MovedLast(sets, k, row);
      after := Renumber(sets[k := row], order);
      WithoutIdAt(Ids(sets), k);
      assert Ids(order) == WithoutId(Ids(sets), sets[k].id) + [sets[k].id];
      MovedDistinct(Ids(sets), k);
      forall i | 0 <= i < |after| ensures ComesFrom(sets, after[i]) {
        assert SameButPosition(after[i], order[i]);
        FromPlace(sets, after[i], if i < k then i else if i < |sets| - 1 then i + 1 else k);
      }
    }
  }

  /** Renumbering dense positions changes nothing. */
  method RenumberedInPlace(sets: seq<SetRow>) returns (after: seq<SetRow>)
    requires Dense(sets)
    ensures after == sets
  {
    after := Renumber(sets, sets);
  }

  method Updated(sets: seq<SetRow>, k: nat, position: Option<int>) returns (after: seq<SetRow>, answer: Answer)
    requires Dense(sets) && Distinct(Ids(sets)) && k < |sets|
    ensures Dense(after) && Distinct(Ids(after)) && Kept(sets, after) && !answer.NoSuchSet?
    ensures forall t :: t in Ids(after) <==> t in Ids(sets)
    ensures answer.Done? ==> Ids(after) == Reordered(sets, sets[k].id, position)
    ensures answer.Done? <==> Placeable(sets, sets[k].id, position)
    ensures !answer.Done? ==> after == sets
  {
    after, answer := sets, Done;
    KeptInPlace(sets, sets);
    if position.None? {
      after := RenumberedInPlace(sets);
    } else {
      answer := PositionAnswer(sets, k, position.value);
      if answer.Done? { after := Repositioned(sets, k, position.value); }
    }
  }

  /** Whether an update may put row k at position p. */
  method PositionAnswer(sets: seq<SetRow>, k: nat, p: int) returns (answer: Answer)
    requires Dense(sets) && k < |sets|
    ensures !answer.NoSuchSet?
    ensures answer.Done? <==> Placeable(sets, sets[k].id, Some(p))
    ensures answer.Done? ==> p >= 0
  {
    if p < 0 { return NegativePosition; }
    var taken := PositionTaken(sets, p, Some(sets[k].id));
    PlaceTaken(sets, k, p);
    answer := if taken then PositionUsed else Done;
  }

  method Removed(sets: seq<SetRow>, k: nat) returns (after: seq<SetRow>)
    requires Dense(sets) && Distinct(Ids(sets)) && k < |sets|
    ensures Dense(after) && Distinct(Ids(after)) && Kept(sets, after)
    ensures Ids(after) == WithoutId(Ids(sets), sets[k].id)
    ensures forall t :: t in Ids(after) <==> t in Ids(sets) && t != sets[k].id
  {
    var rows := sets[..k] + sets[k + 1..];
    after := Renumber(rows, rows);
    WithoutIdAt(Ids(sets), k);
    assert Ids(after) == WithoutId(Ids(sets), sets[k].id);
    DroppedDistinct(Ids(sets), k);
    forall i | 0 <= i < |after| ensures ComesFrom(sets, after[i]) {
      assert SameButPosition(after[i], rows[i]);
      FromPlace(sets, after[i], if i < k then i else i + 1);
    }
  }

  /** The disks of a deleted set are unassigned. */
  method Unassigned(disks: seq<DiskRow>, id: SetId) returns (after: seq<DiskRow>)
    requires InIdOrder(disks)
    ensures InIdOrder(after) && after == Vacated(disks, id)
    ensures AllUnassigned(disks, after, id)
  {
    after := disks;
    var n := 0;
    while n < |disks|
      invariant 0 <= n <= |disks| == |after|
      invariant forall i :: 0 <= i < |disks| ==>
                  after[i] == if i < n && disks[i].set_ == Some(id) then DiskRow(disks[i].id, None) else disks[i]
    {
      if after[n].set_ == Some(id) {
        after := after[n := after[n].(set_ := None)];
      }
      n := n + 1;
    }
    forall t: SetId, d: DiskId | true ensures d in Members(after, t) <==> t != id && d in Members(disks, t) {
      if i :| 0 <= i < |after| && after[i] == DiskRow(d, Some(t)) {
        assert disks[i] == DiskRow(d, Some(t));
      }
      if i :| 0 <= i < |disks| && disks[i] == DiskRow(d, Some(t)) && t != id {
        assert after[i] == DiskRow(d, Some(t));
      }
    }
  }

  lemma EveryPlaceTaken(sets: seq<SetRow>, p: int)
    requires Dense(sets)
    ensures 0 <= p < |sets| ==> exists i :: 0 <= i < |sets| && sets[i].position == p && Some(sets[i].id) != None
  {
    if 0 <= p < |sets| { assert sets[p].position == p; }
  }

  /** The places an update accepts: none given, the set's own, or behind the last. */
  predicate Placeable(sets: seq<SetRow>, id: SetId, position: Option<int>) {
    position.None? || position.value >= |sets| || SitsAt(sets, id, position.value)
  }

  /** The cycle after an update: unchanged, or with the set last. */
  function Reordered(sets: seq<SetRow>, id: SetId, position: Option<int>): seq<SetId> {
    if position.Some? && position.value >= |sets| then WithoutId(Ids(sets), id) + [id] else Ids(sets)
  }

  predicate SitsAt(sets: seq<SetRow>, id: SetId, p: int) {
    0 <= p < |sets| && sets[p].id == id
  }

  /** A place within the cycle is taken, unless it is the set's own. */
  lemma PlaceTaken(sets: seq<SetRow>, k: nat, p: int)
    requires Dense(sets) && k < |sets|
    ensures (exists i :: 0 <= i < |sets| && sets[i].position == p && Some(sets[i].id) != Some(sets[k].id))
            <==> 0 <= p < |sets| && !SitsAt(sets, sets[k].id, p)
  {
    if 0 <= p < |sets| { assert sets[p].position == p; }
  }

  lemma MovedLast(sets: seq<SetRow>, k: nat, row: SetRow)
    requires Dense(sets) && k < |sets| && row.position >= |sets|
    ensures var order := sets[..k] + sets[k + 1..] + [row];
            Ascending(order) && SameRows(order, sets[k := row]) && DistinctPositions(sets[k := row])
  {
    var order, rows := sets[..k] + sets[k + 1..] + [row], sets[k := row];
    forall r | true ensures r in order <==> r in rows {
      if r in order {
        var i :| 0 <= i < |order| && order[i] == r;
        assert rows[if i < k then i else if i < |sets| - 1 then i + 1 else k] == r;
      }
      if r in rows {
        var i :| 0 <= i < |rows| && rows[i] == r;
        assert order[if i < k then i else if i > k then i - 1 else |sets| - 1] == r;
      }
    }
  }

  lemma MovedDistinct(ids: seq<SetId>, k: nat)
    requires Distinct(ids) && k < |ids|
    ensures Distinct(ids[..k] + ids[k + 1..] + [ids[k]])
    ensures forall t :: t in ids[..k] + ids[k + 1..] + [ids[k]] <==> t in ids
  {
    assert ids == ids[..k] + [ids[k]] + ids[k + 1..];
  }

  lemma DroppedDistinct(ids: seq<SetId>, k: nat)
    requires Distinct(ids) && k < |ids|
    ensures Distinct(ids[..k] + ids[k + 1..])
    ensures forall t :: t in ids[..k] + ids[k + 1..] <==> t in ids && t != ids[k]
  {
    assert ids == ids[..k] + [ids[k]] + ids[k + 1..];
  }
}

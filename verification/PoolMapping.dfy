/**
 * Which attached disk fills each recorded device of a pool that is being rebuilt: the greedy allocator of
 * nazman/services/system_restore.py, with its used-set of two kinds of string key.
 */
module PoolMapping {
  import opened Streams

  // ── Keys ────────────────────────────────────────────────────────────────

  /** The decimal digits of a disk's id. */
  function Digits(n: nat): (s: string)
    ensures s != ""
  {
    if n < 10 then [('0' as int + n) as char] else Digits(n / 10) + [('0' as int + n % 10) as char]
  }

  lemma {:induction false} DigitsHaveNoColon(n: nat)
    ensures ':' !in Digits(n)
  {
    if n >= 10 {
      DigitsHaveNoColon(n / 10);
    }
  }

  lemma DigitsLength(n: nat)
    ensures |Digits(n)| == 1 <==> n < 10
  {
    assert n >= 10 ==> |Digits(n)| == |Digits(n / 10)| + 1;
  }

  lemma {:induction false} DigitsInjective(a: nat, b: nat)
    requires Digits(a) == Digits(b)
    ensures a == b
  {
    var da, db := Digits(a), Digits(b);
    DigitsLength(a);
    DigitsLength(b);
    assert da[|da| - 1] == db[|db| - 1];
    if a >= 10 {
      assert da[..|da| - 1] == Digits(a / 10) && db[..|db| - 1] == Digits(b / 10);
      DigitsInjective(a / 10, b / 10);
    }
  }

  /** The key of a whole disk, or of one partition slot of it; an absent slot is the empty string. */
  function Key(disk: nat, slot: string): string {
    if slot == "" then Digits(disk) else Digits(disk) + ":" + slot
  }

  /** `u.split(":")[0]`. */
  function Head(u: string): string {
    if u == "" || u[0] == ':' then "" else [u[0]] + Head(u[1..])
  }

  lemma {:induction false} HeadOf(a: string, b: string)
    requires ':' !in a && (b == "" || b[0] == ':')
    ensures Head(a + b) == a
  {
    if a == "" {
      assert a + b == b;
    } else {
      assert (a + b)[1..] == a[1..] + b;
      HeadOf(a[1..], b);
    }
  }

  lemma HeadOfKey(disk: nat, slot: string)
    ensures Head(Key(disk, slot)) == Digits(disk)
  {
    DigitsHaveNoColon(disk);
    HeadOf(Digits(disk), if slot == "" then "" else ":" + slot);
    assert Digits(disk) + "" == Digits(disk);
    assert Digits(disk) + (":" + slot) == Digits(disk) + ":" + slot;
  }

  /** Keys tell disks and slots apart. */
  lemma KeysDiffer(a: nat, s: string, b: nat, t: string)
    ensures Key(a, s) == Key(b, t) <==> a == b && s == t
    ensures Key(a, s) == Digits(b) <==> a == b && s == ""
    ensures Digits(b) + ":" <= Key(a, s) <==> a == b && s != ""
  {
    KeyOfDisk(a, s, b);
    KeyOfDisk(b, t, a);
    HeadOfKey(a, s);
    HeadOfKey(b, t);
    if Digits(a) == Digits(b) { DigitsInjective(a, b); }
    if a == b {
      SlotOfKey(a, s);
      SlotOfKey(a, t);
    }
  }

  lemma SlotOfKey(a: nat, s: string)
    ensures s != "" ==> Digits(a) + ":" <= Key(a, s) && Key(a, s)[|Digits(a)| + 1..] == s && |Key(a, s)| > |Digits(a)|
  {
    if s != "" {
      var k := Digits(a) + ":" + s;
      assert k[..|Digits(a)| + 1] == Digits(a) + ":" && k[|Digits(a)| + 1..] == s;
    }
  }

  /** The key names the disk alone, or begins with its id and a colon, exactly when it is one of its keys. */
  lemma KeyOfDisk(a: nat, s: string, b: nat)
    ensures Key(a, s) == Digits(b) <==> a == b && s == ""
    ensures Digits(b) + ":" <= Key(a, s) <==> a == b && s != ""
  {
    HeadOfKey(a, s);
    HeadOfKey(b, "");
    SlotOfKey(a, s);
    DigitsHaveNoColon(a);
    if Digits(a) == Digits(b) { DigitsInjective(a, b); }
    if Digits(b) + ":" <= Key(a, s) {
      StartsWithHead(Key(a, s), b);
      assert ':' in Digits(b) + ":";
    }
  }

  lemma StartsWithHead(k: string, b: nat)
    requires Digits(b) + ":" <= k
    ensures Head(k) == Digits(b) && ':' in k
  {
    DigitsHaveNoColon(b);
    var rest := k[|Digits(b)|..];
    assert k == Digits(b) + rest && rest[0] == k[|Digits(b)|] && (Digits(b) + ":")[|Digits(b)|] == ':';
    HeadOf(Digits(b), rest);
  }

  // ── Disks and specs ─────────────────────────────────────────────────────

  /** A partition of a disk: its slot label, empty if it has none, and whether an imported pool holds it. */
  datatype RawPart = RawPart(slot: string, held: bool, size: nat)

  /** A disk of the table; `media` when it is backup media of the set, `whole` when a pool holds all of it. */
  datatype RawDisk = RawDisk(
    id: nat, byId: string, serial: string, os: bool, media: bool, whole: bool, parts: seq<RawPart>)

  /** An assignable disk: the slots pools hold on it, and its free labelled partitions. */
  datatype Disk = Disk(id: nat, byId: string, serial: string, inPool: bool, members: set<string>, free: seq<string>)

  /** A recorded device; an empty by-id, serial or slot is absent. */
  datatype Spec = Spec(byId: string, serial: string, slot: string)

  /** The entry keeps the identity of the raw disk, and knows which of its slots pools hold. */
  ghost predicate Offers(d: Disk, raw: RawDisk) {
    && d.id == raw.id && d.byId == raw.byId && d.serial == raw.serial
    && (forall s :: s in d.members <==> s != "" && exists i :: 0 <= i < |raw.parts| && raw.parts[i].slot == s && raw.parts[i].held)
    && (forall s :: s in d.free <==> s != "" && exists i :: 0 <= i < |raw.parts| && raw.parts[i].slot == s && !raw.parts[i].held)
    && (d.inPool <==> d.members != {})
  }

  predicate Assignable(raw: RawDisk) {
    !raw.os && !raw.media && !raw.whole
  }

  /** `_attached_disks`: no system disk, no backup media, no disk a pool holds whole or has no room beside. */
  method AttachedDisks(table: seq<RawDisk>) returns (attached: seq<Disk>)
    requires forall i, j :: 0 <= i < j < |table| ==> table[i].id != table[j].id
    ensures DistinctIds(attached)
    ensures forall d :: d in attached ==> exists i :: 0 <= i < |table| && Assignable(table[i]) && Offers(d, table[i])
    ensures forall i :: 0 <= i < |table| && Assignable(table[i]) ==>
              Crowded(table[i]) || exists d :: d in attached && Offers(d, table[i])
  {
    attached := [];
    var n := 0;
    while n < |table|
      invariant 0 <= n <= |table|
      invariant DistinctIds(attached) && forall d :: d in attached ==> exists i :: 0 <= i < n && d.id == table[i].id
      invariant forall d :: d in attached ==> exists i :: 0 <= i < n && Assignable(table[i]) && Offers(d, table[i])
      invariant forall i :: 0 <= i < n && Assignable(table[i]) ==>
                  Crowded(table[i]) || exists d :: d in attached && Offers(d, table[i])
    {
      if Assignable(table[n]) {
        var d := OfferedDisk(table[n]);
        if d.inPool && d.free == [] {
          CrowdedWhenFull(d, table[n]);
        } else {
          assert d in attached + [d];
          attached := attached + [d];
        }
      }
      n := n + 1;
    }
  }

  /** Pools hold slots of the disk, and none is left. */
  ghost predicate Crowded(raw: RawDisk) {
    && (exists i :: 0 <= i < |raw.parts| && raw.parts[i].slot != "" && raw.parts[i].held)
    && forall i :: 0 <= i < |raw.parts| && raw.parts[i].slot != "" ==> raw.parts[i].held
  }

  lemma CrowdedWhenFull(d: Disk, raw: RawDisk)
    requires Offers(d, raw) && d.inPool && d.free == []
    ensures Crowded(raw)
  {
    var s :| s in d.members;
    forall i | 0 <= i < |raw.parts| && raw.parts[i].slot != "" ensures raw.parts[i].held {
      assert raw.parts[i].slot !in d.free;
    }
  }

  method OfferedDisk(raw: RawDisk) returns (d: Disk)
    ensures Offers(d, raw)
  {
    var members: set<string>, free: seq<string> := {}, [];
    var n := 0;
    while n < |raw.parts|
      invariant 0 <= n <= |raw.parts|
      invariant forall s :: s in members <==> s != "" && exists i :: 0 <= i < n && raw.parts[i].slot == s && raw.parts[i].held
      invariant forall s :: s in free <==> s != "" && exists i :: 0 <= i < n && raw.parts[i].slot == s && !raw.parts[i].held
    {
      var p := raw.parts[n];
      if p.slot != "" {
        if p.held { members := members + {p.slot}; } else { free := free + [p.slot]; }
      }
      n := n + 1;
    }
    d := Disk(raw.id, raw.byId, raw.serial, members != {}, members, free);
  }

  ghost predicate DistinctIds(attached: seq<Disk>) {
    forall i, j :: 0 <= i < j < |attached| ==> attached[i].id != attached[j].id
  }

  // ── Matching one device ─────────────────────────────────────────────────

  /** The disk cannot be given this slot, or given whole when there is none, beside what is used already. */
  predicate Taken(disk: nat, slot: string, used: set<string>) {
    || Key(disk, slot) in used
    || (if slot != "" then Digits(disk) in used
        else exists u :: u in used && (u == Digits(disk) || Digits(disk) + ":" <= u))
  }

  /** A disk with pool members takes only a free partition that is already there. */
  predicate Fit(d: Disk, slot: string) {
    d.inPool ==> slot != "" && slot !in d.members && slot in d.free
  }

  predicate Usable(d: Disk, slot: string, used: set<string>) {
    Fit(d, slot) && !Taken(d.id, slot, used)
  }

  predicate ById(d: Disk, spec: Spec) {
    spec.byId != "" && d.byId == spec.byId
  }

  predicate BySerial(d: Disk, spec: Spec) {
    spec.serial != "" && d.serial == spec.serial
  }

  /** `_match_disk`: the first usable disk with the by-id, else the first usable one with the serial. */
  method MatchDisk(spec: Spec, attached: seq<Disk>, used: set<string>) returns (m: Option<nat>)
    ensures m.Some? ==> m.value < |attached| && Usable(attached[m.value], spec.slot, used)
                        && (ById(attached[m.value], spec) || BySerial(attached[m.value], spec))
    ensures m.Some? && !ById(attached[m.value], spec) ==>
              forall i :: 0 <= i < |attached| && Usable(attached[i], spec.slot, used) ==> !ById(attached[i], spec)
    ensures m.Some? ==> forall i :: 0 <= i < m.value && Usable(attached[i], spec.slot, used) ==>
              if ById(attached[m.value], spec) then !ById(attached[i], spec) else !BySerial(attached[i], spec)
    ensures m.None? ==> forall i :: 0 <= i < |attached| && Usable(attached[i], spec.slot, used) ==>
              !ById(attached[i], spec) && !BySerial(attached[i], spec)
  {
    var n := 0;
    while n < |attached|
      invariant 0 <= n <= |attached|
      invariant forall i :: 0 <= i < n && Usable(attached[i], spec.slot, used) ==> !ById(attached[i], spec)
    {
      if Usable(attached[n], spec.slot, used) && ById(attached[n], spec) { return Some(n); }
      n := n + 1;
    }
    n := 0;
    while n < |attached|
      invariant 0 <= n <= |attached|
      invariant forall i :: 0 <= i < n && Usable(attached[i], spec.slot, used) ==> !BySerial(attached[i], spec)
    {
      if Usable(attached[n], spec.slot, used) && BySerial(attached[n], spec) { return Some(n); }
      n := n + 1;
    }
    m := None;
  }

  // ── The whole plan ──────────────────────────────────────────────────────

  /** Spec i has been given its slot of the disk with this id, or the disk whole. */
  ghost predicate Given(specs: seq<Spec>, attached: seq<Disk>, plan: seq<Option<nat>>, i: nat, disk: nat, slot: string)
    requires |plan| <= |specs|
  {
    i < |plan| && plan[i].Some? && plan[i].value < |attached| && attached[plan[i].value].id == disk && specs[i].slot == slot
  }

  /** The used-set holds exactly the keys of what has been given out. */
  ghost predicate Tracks(specs: seq<Spec>, attached: seq<Disk>, plan: seq<Option<nat>>, used: set<string>)
    requires |plan| <= |specs|
  {
    forall u :: u in used <==> exists i: nat :: i < |plan| && UsedBy(specs, attached, plan, i, u)
  }

  ghost predicate UsedBy(specs: seq<Spec>, attached: seq<Disk>, plan: seq<Option<nat>>, i: nat, u: string)
    requires |plan| <= |specs| && i < |plan|
  {
    plan[i].Some? && plan[i].value < |attached| && u == Key(attached[plan[i].value].id, specs[i].slot)
  }

  /** Two devices cannot share a disk when either needs it whole, or both need the same slot. */
  predicate Clash(s: string, t: string) {
    s == "" || t == "" || s == t
  }

  /** An earlier spec was given something of the same disk that rules this one out. */
  ghost predicate Blocked(specs: seq<Spec>, attached: seq<Disk>, plan: seq<Option<nat>>, disk: nat, slot: string)
    requires |plan| <= |specs|
  {
    exists i: nat, t :: Given(specs, attached, plan, i, disk, t) && Clash(t, slot)
  }

  lemma UsedMeans(specs: seq<Spec>, attached: seq<Disk>, plan: seq<Option<nat>>, i: nat, u: string, disk: nat, slot: string)
    requires |plan| <= |specs| && i < |plan| && UsedBy(specs, attached, plan, i, u)
    requires u == Key(disk, slot) || (slot != "" && u == Digits(disk)) || (slot == "" && Digits(disk) + ":" <= u)
    ensures Given(specs, attached, plan, i, disk, specs[i].slot) && Clash(specs[i].slot, slot)
  {
    KeysDiffer(attached[plan[i].value].id, specs[i].slot, disk, slot);
  }

  lemma GivenMeans(specs: seq<Spec>, attached: seq<Disk>, plan: seq<Option<nat>>, used: set<string>, i: nat, disk: nat, t: string, slot: string)
    requires |plan| <= |specs| && Tracks(specs, attached, plan, used)
    requires Given(specs, attached, plan, i, disk, t) && Clash(t, slot)
    ensures Taken(disk, slot, used)
  {
    var u := Key(disk, t);
    assert UsedBy(specs, attached, plan, i, u);
    KeysDiffer(disk, t, disk, slot);
    assert u in used;
  }

  /** The string test on the used-set says exactly whether the disk is blocked. */
  lemma TakenExactly(specs: seq<Spec>, attached: seq<Disk>, plan: seq<Option<nat>>, used: set<string>, disk: nat, slot: string)
    requires |plan| <= |specs| && Tracks(specs, attached, plan, used)
    ensures Taken(disk, slot, used) <==> Blocked(specs, attached, plan, disk, slot)
  {
    if Taken(disk, slot, used) {
      var u :| u in used && (u == Key(disk, slot) || (slot != "" && u == Digits(disk)) || (slot == "" && Digits(disk) + ":" <= u));
      var i: nat :| i < |plan| && UsedBy(specs, attached, plan, i, u);
      UsedMeans(specs, attached, plan, i, u, disk, slot);
    }
    if i: nat, t :| Given(specs, attached, plan, i, disk, t) && Clash(t, slot) {
      GivenMeans(specs, attached, plan, used, i, disk, t, slot);
    }
  }

  predicate Matches(d: Disk, spec: Spec) {
    ById(d, spec) || BySerial(d, spec)
  }

  /**
   * What spec i gets: a disk it identifies that fits and that nothing given out before rules out; nothing
   * only when every disk it identifies and that fits is ruled out.
   */
  ghost predicate StepOk(specs: seq<Spec>, attached: seq<Disk>, plan: seq<Option<nat>>, i: nat)
    requires i < |plan| <= |specs|
  {
    var slot := specs[i].slot;
    if plan[i].Some? then
      && plan[i].value < |attached| && Matches(attached[plan[i].value], specs[i]) && Fit(attached[plan[i].value], slot)
      && !Blocked(specs, attached, plan[..i], attached[plan[i].value].id, slot)
    else
      forall a :: 0 <= a < |attached| && Matches(attached[a], specs[i]) && Fit(attached[a], slot) ==>
        Blocked(specs, attached, plan[..i], attached[a].id, slot)
  }

  /**
   * The disk spec i gets has its by-id, or its serial if no disk that could be given has the by-id; it is the
   * first such; and if pools hold slots of it, the slot is there and free.
   */
  ghost predicate StepFirst(specs: seq<Spec>, attached: seq<Disk>, plan: seq<Option<nat>>, i: nat)
    requires i < |plan| <= |specs|
  {
    && (plan[i].None? ==>
          forall a :: 0 <= a < |attached| && !Blocked(specs, attached, plan[..i], attached[a].id, specs[i].slot)
                      && ((specs[i].byId != "" && attached[a].byId == specs[i].byId)
                          || (specs[i].serial != "" && attached[a].serial == specs[i].serial)) ==>
            attached[a].inPool && !(specs[i].slot != "" && specs[i].slot in attached[a].free && specs[i].slot !in attached[a].members))
    && (plan[i].Some? ==>
      && plan[i].value < |attached|
      && (var s, d := specs[i], attached[plan[i].value];
          && ((s.byId != "" && d.byId == s.byId) || (s.serial != "" && d.serial == s.serial))
          && (d.inPool ==> s.slot != "" && s.slot in d.free && s.slot !in d.members)
          && forall a :: 0 <= a < |attached| && !Blocked(specs, attached, plan[..i], attached[a].id, s.slot)
                         && (attached[a].inPool ==> s.slot != "" && s.slot in attached[a].free && s.slot !in attached[a].members) ==>
               && (s.byId != "" && attached[a].byId == s.byId ==> d.byId == s.byId && plan[i].value <= a)
               && (s.serial != "" && attached[a].serial == s.serial && !(s.byId != "" && d.byId == s.byId) ==> plan[i].value <= a)))
  }

  lemma FirstNext(specs: seq<Spec>, attached: seq<Disk>, plan: seq<Option<nat>>, used: set<string>, m: Option<nat>)
    requires |plan| < |specs| && Tracks(specs, attached, plan, used)
    requires forall i :: 0 <= i < |plan| ==> StepFirst(specs, attached, plan, i)
    requires m.Some? ==> m.value < |attached| && Usable(attached[m.value], specs[|plan|].slot, used)
                         && Matches(attached[m.value], specs[|plan|])
    requires m.Some? && !ById(attached[m.value], specs[|plan|]) ==>
               forall i :: 0 <= i < |attached| && Usable(attached[i], specs[|plan|].slot, used) ==> !ById(attached[i], specs[|plan|])
    requires m.None? ==> forall a :: 0 <= a < |attached| && Usable(attached[a], specs[|plan|].slot, used) ==>
                           !Matches(attached[a], specs[|plan|])
    requires m.Some? ==> forall i :: 0 <= i < m.value && Usable(attached[i], specs[|plan|].slot, used) ==>
               if ById(attached[m.value], specs[|plan|]) then !ById(attached[i], specs[|plan|]) else !BySerial(attached[i], specs[|plan|])
    ensures forall i :: 0 <= i <= |plan| ==> StepFirst(specs, attached, plan + [m], i)
  {
    var after, slot := plan + [m], specs[|plan|].slot;
    assert after[..|plan|] == plan;
    forall i | 0 <= i < |plan| ensures StepFirst(specs, attached, after, i) {
      assert after[..i] == plan[..i] && StepFirst(specs, attached, plan, i);
    }
    forall a | 0 <= a < |attached| ensures Taken(attached[a].id, slot, used) <==> Blocked(specs, attached, plan, attached[a].id, slot) {
      TakenExactly(specs, attached, plan, used, attached[a].id, slot);
    }
  }

  /** Nothing of the disk was given out. */
  ghost predicate Untouched(specs: seq<Spec>, attached: seq<Disk>, plan: seq<Option<nat>>, disk: nat)
    requires |plan| <= |specs|
  {
    forall i: nat, t :: !Given(specs, attached, plan, i, disk, t)
  }

  /** `plan_pool_mapping`, over the devices of all vdevs in order, and the disks it reports as still available. */
  method PlanPoolMapping(specs: seq<Spec>, attached: seq<Disk>) returns (plan: seq<Option<nat>>, available: seq<Disk>)
    ensures |plan| == |specs|
    ensures forall i :: 0 <= i < |plan| ==> StepOk(specs, attached, plan, i) && StepFirst(specs, attached, plan, i)
    ensures forall d :: d in available <==> d in attached && Untouched(specs, attached, plan, d.id)
  {
    var used: set<string> := {};
    plan := [];
    while |plan| < |specs|
      invariant |plan| <= |specs|
      invariant Tracks(specs, attached, plan, used)
      invariant forall i :: 0 <= i < |plan| ==> StepOk(specs, attached, plan, i)
      invariant forall i :: 0 <= i < |plan| ==> StepFirst(specs, attached, plan, i)
    {
      var spec := specs[|plan|];
      var m := MatchDisk(spec, attached, used);
      ghost var next := plan + [m];
      PlanNext(specs, attached, plan, used, m);
      FirstNext(specs, attached, plan, used, m);
      if m.Some? {
        used := used + {Key(attached[m.value].id, spec.slot)};
      }
      plan := plan + [m];
    }
    available := Available(specs, attached, plan, used);
  }

  lemma PlanNext(specs: seq<Spec>, attached: seq<Disk>, plan: seq<Option<nat>>, used: set<string>, m: Option<nat>)
    requires |plan| < |specs| && Tracks(specs, attached, plan, used)
    requires forall i :: 0 <= i < |plan| ==> StepOk(specs, attached, plan, i)
    requires m.Some? ==> m.value < |attached| && Usable(attached[m.value], specs[|plan|].slot, used)
                         && Matches(attached[m.value], specs[|plan|])
    requires m.None? ==> forall a :: 0 <= a < |attached| && Usable(attached[a], specs[|plan|].slot, used) ==>
                           !Matches(attached[a], specs[|plan|])
    ensures forall i :: 0 <= i <= |plan| ==> StepOk(specs, attached, plan + [m], i)
    ensures Tracks(specs, attached, plan + [m],
                   if m.Some? then used + {Key(attached[m.value].id, specs[|plan|].slot)} else used)
  {
    var after, slot := plan + [m], specs[|plan|].slot;
    assert after[..|plan|] == plan;
    forall i | 0 <= i < |plan| ensures StepOk(specs, attached, after, i) {
      assert after[..i] == plan[..i] && StepOk(specs, attached, plan, i);
    }
    forall a | 0 <= a < |attached| ensures Taken(attached[a].id, slot, used) <==> Blocked(specs, attached, plan, attached[a].id, slot) {
      TakenExactly(specs, attached, plan, used, attached[a].id, slot);
    }
    TracksNext(specs, attached, plan, used, m);
  }

  /** What one more place of the plan uses. */
  lemma UsedNext(specs: seq<Spec>, attached: seq<Disk>, plan: seq<Option<nat>>, m: Option<nat>, i: nat, u: string)
    requires |plan| < |specs| && (m.Some? ==> m.value < |attached|) && i <= |plan|
    ensures UsedBy(specs, attached, plan + [m], i, u)
            <==> if i < |plan| then UsedBy(specs, attached, plan, i, u)
                 else m.Some? && u == Key(attached[m.value].id, specs[i].slot)
  {
  }

  lemma TracksNext(specs: seq<Spec>, attached: seq<Disk>, plan: seq<Option<nat>>, used: set<string>, m: Option<nat>)
    requires |plan| < |specs| && Tracks(specs, attached, plan, used) && (m.Some? ==> m.value < |attached|)
    ensures Tracks(specs, attached, plan + [m],
                   if m.Some? then used + {Key(attached[m.value].id, specs[|plan|].slot)} else used)
  {
    var after := plan + [m];
    var used' := if m.Some? then used + {Key(attached[m.value].id, specs[|plan|].slot)} else used;
    forall u | true ensures u in used' <==> exists i: nat :: i < |after| && UsedBy(specs, attached, after, i, u) {
      UsedNext(specs, attached, plan, m, |plan|, u);
      if u in used {
        var i: nat :| i < |plan| && UsedBy(specs, attached, plan, i, u);
        UsedNext(specs, attached, plan, m, i, u);
      }
      if i: nat :| i < |after| && UsedBy(specs, attached, after, i, u) && i < |plan| {
        UsedNext(specs, attached, plan, m, i, u);
      }
    }
  }

  /** The attached disks nothing of which has been given out: no used key begins with their id. */
  method Available(specs: seq<Spec>, attached: seq<Disk>, plan: seq<Option<nat>>, used: set<string>)
    returns (available: seq<Disk>)
    requires |plan| <= |specs| && Tracks(specs, attached, plan, used)
    ensures forall d :: d in available <==> d in attached && Untouched(specs, attached, plan, d.id)
  {
    var heads := set u | u in used :: Head(u);
    available := [];
    var n := 0;
    while n < |attached|
      invariant 0 <= n <= |attached|
      invariant forall d :: d in available <==> d in attached[..n] && Untouched(specs, attached, plan, d.id)
    {
      HeadsAreTouched(specs, attached, plan, used, attached[n].id);
      if Digits(attached[n].id) !in heads {
        available := available + [attached[n]];
      }
      n := n + 1;
    }
    assert attached[..n] == attached;
  }

  lemma HeadsAreTouched(specs: seq<Spec>, attached: seq<Disk>, plan: seq<Option<nat>>, used: set<string>, disk: nat)
    requires |plan| <= |specs| && Tracks(specs, attached, plan, used)
    ensures (exists u :: u in used && Head(u) == Digits(disk)) <==> !Untouched(specs, attached, plan, disk)
  {
    if u :| u in used && Head(u) == Digits(disk) {
      var i: nat :| i < |plan| && UsedBy(specs, attached, plan, i, u);
      var id := attached[plan[i].value].id;
      HeadOfKey(id, specs[i].slot);
      DigitsInjective(id, disk);
      assert Given(specs, attached, plan, i, disk, specs[i].slot);
    }
    if i: nat, t :| Given(specs, attached, plan, i, disk, t) {
      var u := Key(disk, t);
      HeadOfKey(disk, t);
      assert UsedBy(specs, attached, plan, i, u);
      assert u in used;
    }
  }

  // ── Safe and complete ───────────────────────────────────────────────────

  /** No two specs share a slot of a disk, and a disk given whole is shared with no other spec. */
  lemma NothingSharedTwice(specs: seq<Spec>, attached: seq<Disk>, plan: seq<Option<nat>>, i: nat, j: nat)
    requires |plan| == |specs| && forall k :: 0 <= k < |plan| ==> StepOk(specs, attached, plan, k)
    requires i < j < |plan| && plan[i].Some? && plan[j].Some?
    ensures plan[i].value < |attached| && plan[j].value < |attached|
    ensures attached[plan[i].value].id == attached[plan[j].value].id ==>
              specs[i].slot != "" && specs[j].slot != "" && specs[i].slot != specs[j].slot
  {
    assert StepOk(specs, attached, plan, i) && StepOk(specs, attached, plan, j);
    if attached[plan[i].value].id == attached[plan[j].value].id {
      assert Given(specs, attached, plan[..j], i, attached[plan[j].value].id, specs[i].slot);
    }
  }

  /** What a pool or the backup holds is never given out. */
  lemma NothingHeldGiven(
    table: seq<RawDisk>, attached: seq<Disk>, specs: seq<Spec>, plan: seq<Option<nat>>, i: nat)
    requires forall d :: d in attached ==> exists k :: 0 <= k < |table| && Assignable(table[k]) && Offers(d, table[k])
    requires |plan| == |specs| && i < |plan| && StepOk(specs, attached, plan, i) && plan[i].Some?
    ensures exists k :: 0 <= k < |table| && table[k].id == attached[plan[i].value].id
                        && !table[k].os && !table[k].media && !table[k].whole && FreeFor(table[k], specs[i].slot)
  {
    var d := attached[plan[i].value];
    assert d in attached;
    var k :| 0 <= k < |table| && Assignable(table[k]) && Offers(d, table[k]);
    forall m | 0 <= m < |table[k].parts| && table[k].parts[m].held && table[k].parts[m].slot != ""
      ensures specs[i].slot != "" && table[k].parts[m].slot != specs[i].slot
    {
      assert table[k].parts[m].slot in d.members;
    }
    assert FreeFor(table[k], specs[i].slot);
  }

  /** No pool holds the slot; none holds any when the disk is wanted whole. */
  ghost predicate FreeFor(raw: RawDisk, slot: string) {
    forall m :: 0 <= m < |raw.parts| && raw.parts[m].held && raw.parts[m].slot != "" ==> slot != "" && raw.parts[m].slot != slot
  }

  /** By-ids and serials single out one attached disk, as far as the spec names them. */
  ghost predicate Identified(specs: seq<Spec>, attached: seq<Disk>, i: nat)
    requires i < |specs|
  {
    forall a, b :: 0 <= a < |attached| && 0 <= b < |attached| && Matches(attached[a], specs[i]) && Matches(attached[b], specs[i]) ==> a == b
  }

  /** A spec that identifies one disk, which fits, gets it exactly when nothing given out before rules it out. */
  lemma OwnDiskExactly(specs: seq<Spec>, attached: seq<Disk>, plan: seq<Option<nat>>, i: nat, a: nat)
    requires |plan| == |specs| && i < |plan| && StepOk(specs, attached, plan, i) && Identified(specs, attached, i)
    requires a < |attached| && Matches(attached[a], specs[i])
    ensures plan[i] == Some(a) <==> Fit(attached[a], specs[i].slot) && !Blocked(specs, attached, plan[..i], attached[a].id, specs[i].slot)
  {
  }

  /**
   * The greedy order costs nothing: when every spec identifies one disk, a spec whose disk fits gets it,
   * unless an earlier spec of the same disk clashes with it.
   */
  lemma EveryoneGetsTheirOwn(specs: seq<Spec>, attached: seq<Disk>, plan: seq<Option<nat>>, i: nat, a: nat)
    requires DistinctIds(attached) && |plan| == |specs| && i < |plan|
    requires forall k :: 0 <= k < |plan| ==> StepOk(specs, attached, plan, k) && Identified(specs, attached, k)
    requires a < |attached| && Matches(attached[a], specs[i]) && Fit(attached[a], specs[i].slot)
    requires forall j :: 0 <= j < i && Matches(attached[a], specs[j]) ==> !Clash(specs[j].slot, specs[i].slot)
    ensures plan[i] == Some(a)
  {
    forall j: nat, t | Given(specs, attached, plan[..i], j, attached[a].id, t) ensures !Clash(t, specs[i].slot) {
      assert StepOk(specs, attached, plan, j);
      SameDisk(attached, plan[j].value, a);
    }
    OwnDiskExactly(specs, attached, plan, i, a);
  }

  lemma SameDisk(attached: seq<Disk>, a: nat, b: nat)
    requires DistinctIds(attached) && a < |attached| && b < |attached|
    ensures attached[a].id == attached[b].id ==> a == b
  {
  }
}

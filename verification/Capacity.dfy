/**
 * Usable capacity of a pool (nazman/managers/zfs_manager.py): what is left of a vdev after redundancy,
 * with devices of unknown (zero) size left out.
 */
module Capacity {
  datatype Topology = Mirror | Raidz(parity: nat) | Stripe

  datatype Vdev = Vdev(topology: Topology, sizes: seq<nat>)

  // ── The arithmetic of the code ──────────────────────────────────────────

  function Sum(s: seq<nat>): nat {
    if s == [] then 0 else s[0] + Sum(s[1..])
  }

  function Min(s: seq<nat>): (m: nat)
    requires s != []
    ensures m in s && forall x :: x in s ==> m <= x
  {
    assert s == [s[0]] + s[1..];
    if |s| == 1 then s[0] else if s[0] <= Min(s[1..]) then s[0] else Min(s[1..])
  }

  /** Where sorting puts one more size. */
  function Place(s: seq<nat>, x: nat): seq<nat> {
    if s == [] then [x] else if s[0] <= x then [s[0]] + Place(s[1..], x) else [x] + s
  }

  /** `sorted`. */
  function Sorted(s: seq<nat>): (t: seq<nat>)
    ensures |t| == |s|
  {
    if s == [] then []
    else
      PlaceLength(Sorted(s[1..]), s[0]);
      Place(Sorted(s[1..]), s[0])
  }

  lemma {:induction false} PlaceLength(s: seq<nat>, x: nat)
    ensures |Place(s, x)| == |s| + 1
  {
    if s != [] { PlaceLength(s[1..], x); }
  }

  /** A device of unknown size takes no part. */
  function Part(x: nat): seq<nat> {
    if x > 0 then [x] else []
  }

  function Known(s: seq<nat>): seq<nat> {
    if s == [] then [] else Part(s[0]) + Known(s[1..])
  }

  function Least(s: seq<nat>, p: nat): nat {
    var t := Sorted(s);
    Sum(if p <= |t| then t[..p] else t)
  }

  /** `_vdev_usable_bytes`. */
  function Usable(v: Vdev): int {
    UsableOf(v.topology, Known(v.sizes))
  }

  function UsableOf(topology: Topology, sizes: seq<nat>): int {
    if sizes == [] then 0
    else
      match topology
      case Mirror => Min(sizes)
      case Raidz(p) => Sum(sizes) - (if p == 1 then Min(sizes) else Least(sizes, p))
      case Stripe => Sum(sizes)
  }

  // ── Choosing devices ────────────────────────────────────────────────────

  /** The total of the devices marked. */
  function Picked(s: seq<nat>, marks: seq<bool>): nat
    requires |marks| == |s|
  {
    if s == [] then 0 else (if marks[0] then s[0] else 0) + Picked(s[1..], marks[1..])
  }

  function Marked(marks: seq<bool>): nat {
    if marks == [] then 0 else (if marks[0] then 1 else 0) + Marked(marks[1..])
  }

  function Others(marks: seq<bool>): (m: seq<bool>)
    ensures |m| == |marks| && forall k :: 0 <= k < |m| ==> m[k] == !marks[k]
  {
    seq(|marks|, k requires 0 <= k < |marks| => !marks[k])
  }

  lemma {:induction false} PickedAndOthers(s: seq<nat>, marks: seq<bool>)
    requires |marks| == |s|
    ensures Picked(s, marks) + Picked(s, Others(marks)) == Sum(s)
    ensures Marked(marks) + Marked(Others(marks)) == |s|
  {
    if s != [] {
      PickedAndOthers(s[1..], marks[1..]);
      assert Others(marks)[1..] == Others(marks[1..]);
    }
  }

  ghost predicate Ascends(s: seq<nat>) {
    forall i, j :: 0 <= i < j < |s| ==> s[i] <= s[j]
  }

  lemma {:induction false} PlaceAscends(s: seq<nat>, x: nat)
    requires Ascends(s)
    ensures Ascends(Place(s, x)) && forall y :: y in Place(s, x) <==> y in s || y == x
  {
    if s != [] {
      PlaceAscends(s[1..], x);
      assert s == [s[0]] + s[1..];
      var rest := Place(s[1..], x);
      assert forall k :: 0 <= k < |rest| ==> rest[k] in rest;
    }
  }

  lemma {:induction false} SortedAscends(s: seq<nat>)
    ensures Ascends(Sorted(s))
  {
    if s != [] {
      SortedAscends(s[1..]);
      PlaceAscends(Sorted(s[1..]), s[0]);
    }
  }

  lemma {:induction false} SumSnoc(s: seq<nat>, p: nat)
    requires p < |s|
    ensures Sum(s[..p + 1]) == Sum(s[..p]) + s[p]
  {
    if p == 0 {
      assert s[..1] == [s[0]] && s[1..][..0] == [];
    } else {
      SumSnoc(s[1..], p - 1);
      assert s[..p + 1][1..] == s[1..][..p] && s[..p][1..] == s[1..][..p - 1];
    }
  }

  function Lesser(a: nat, b: nat): nat {
    if a <= b then a else b
  }

  /** With one more size, the p least either include it or do not, whichever is less. */
  lemma {:induction false} PlaceLeast(s: seq<nat>, x: nat, p: nat)
    requires Ascends(s) && 1 <= p <= |s|
    ensures |Place(s, x)| == |s| + 1
    ensures Sum(Place(s, x)[..p]) == Lesser(x + Sum(s[..p - 1]), Sum(s[..p]))
  {
    PlaceLength(s, x);
    SumSnoc(s, p - 1);
    if s[0] <= x {
      var rest := s[1..];
      assert Place(s, x)[..p][1..] == Place(rest, x)[..p - 1];
      assert s[..p][1..] == rest[..p - 1];
      if p > 1 {
        PlaceLeast(rest, x, p - 1);
        assert s[..p - 1][1..] == rest[..p - 2];
      }
    } else {
      assert Place(s, x)[..p][1..] == s[..p - 1];
    }
  }

  lemma {:induction false} PlaceSum(s: seq<nat>, x: nat)
    ensures Sum(Place(s, x)) == x + Sum(s)
  {
    if s != [] { PlaceSum(s[1..], x); }
  }

  lemma {:induction false} SortedSum(s: seq<nat>)
    ensures Sum(Sorted(s)) == Sum(s)
  {
    if s != [] {
      SortedSum(s[1..]);
      PlaceSum(Sorted(s[1..]), s[0]);
    }
  }

  /** How the p least of a list come about from those of its tail. */
  lemma LeastNext(s: seq<nat>, p: nat)
    requires s != [] && p <= |s|
    ensures p == 0 ==> Least(s, p) == 0
    ensures 1 <= p < |s| ==> Least(s, p) == Lesser(s[0] + Least(s[1..], p - 1), Least(s[1..], p))
    ensures p == |s| ==> Least(s, p) == s[0] + Least(s[1..], p - 1)
  {
    var t := Sorted(s[1..]);
    SortedAscends(s[1..]);
    PlaceLength(t, s[0]);
    if 1 <= p < |s| {
      PlaceLeast(t, s[0], p);
    } else if p == |s| {
      PlaceSum(t, s[0]);
      assert Sorted(s)[..p] == Sorted(s) && t[..p - 1] == t;
    }
  }

  /** No p devices total less than the p least. */
  lemma {:induction false} LeastIsLeast(s: seq<nat>, marks: seq<bool>)
    requires |marks| == |s|
    ensures Marked(marks) <= |s|
    ensures Least(s, Marked(marks)) <= Picked(s, marks)
  {
    if s != [] {
      LeastIsLeast(s[1..], marks[1..]);
      LeastNext(s, Marked(marks));
    }
  }

  /** Some p devices total just that. */
  lemma {:induction false} LeastIsPicked(s: seq<nat>, p: nat) returns (marks: seq<bool>)
    requires p <= |s|
    ensures |marks| == |s| && Marked(marks) == p && Picked(s, marks) == Least(s, p)
  {
    if s == [] {
      marks := [];
    } else {
      LeastNext(s, p);
      var take := p == |s| || (p > 0 && s[0] + Least(s[1..], p - 1) <= Least(s[1..], p));
      var rest := LeastIsPicked(s[1..], if take then p - 1 else p);
      marks := [take] + rest;
      if p == 0 { LeastOfNone(s[1..]); }
    }
  }

  lemma LeastOfNone(s: seq<nat>)
    ensures Least(s, 0) == 0
  {
  }

  /** The minimum is the least total of one device. */
  lemma {:induction false} MinIsLeast(s: seq<nat>)
    requires s != []
    ensures Least(s, 1) == Min(s)
  {
    LeastNext(s, 1);
    LeastOfNone(s[1..]);
    if |s| > 1 { MinIsLeast(s[1..]); }
  }

  lemma RaidzIs(v: Vdev)
    requires v.topology.Raidz?
    ensures Usable(v) == Sum(Known(v.sizes)) - Least(Known(v.sizes), v.topology.parity)
  {
    if Known(v.sizes) != [] { MinIsLeast(Known(v.sizes)); }
  }

  // ── What raidz leaves ───────────────────────────────────────────────────

  /** Usable space of a raidz vdev is the largest total of all but p of its devices. */
  lemma RaidzIsLargest(s: seq<nat>, p: nat, kept: seq<bool>)
    requires p <= |s| && |kept| == |s| && Marked(kept) == |s| - p
    ensures Picked(s, kept) <= Sum(s) - Least(s, p)
  {
    PickedAndOthers(s, kept);
    LeastIsLeast(s, Others(kept));
  }

  lemma RaidzIsReached(s: seq<nat>, p: nat) returns (kept: seq<bool>)
    requires p <= |s|
    ensures |kept| == |s| && Marked(kept) == |s| - p && Picked(s, kept) == Sum(s) - Least(s, p)
  {
    var lost := LeastIsPicked(s, p);
    kept := Others(lost);
    PickedAndOthers(s, lost);
  }

  lemma {:induction false} KnownPositive(s: seq<nat>)
    ensures forall x :: x in Known(s) ==> x > 0
    ensures |Known(s)| <= |s|
  {
    if s != [] { KnownPositive(s[1..]); }
  }

  /** The vdev's capacity is the best that any choice of surviving devices can hold, and some choice holds it. */
  lemma RaidzUsable(v: Vdev, kept: seq<bool>) returns (best: seq<bool>)
    requires v.topology.Raidz? && v.topology.parity <= |Known(v.sizes)|
    requires |kept| == |Known(v.sizes)| && Marked(kept) == |Known(v.sizes)| - v.topology.parity
    ensures Picked(Known(v.sizes), kept) <= Usable(v)
    ensures |best| == |kept| && Marked(best) == Marked(kept) && Picked(Known(v.sizes), best) == Usable(v)
  {
    RaidzIs(v);
    RaidzIsLargest(Known(v.sizes), v.topology.parity, kept);
    best := RaidzIsReached(Known(v.sizes), v.topology.parity);
  }

  // ── Order, parity, floor ────────────────────────────────────────────────

  lemma {:induction false} PlaceCommutes(s: seq<nat>, x: nat, y: nat)
    requires Ascends(s)
    ensures Place(Place(s, x), y) == Place(Place(s, y), x)
  {
    if s != [] && s[0] <= x && s[0] <= y {
      PlaceCommutes(s[1..], x, y);
    }
  }

  /** Sorting first takes out any element and puts it where it belongs. */
  lemma {:induction false} SortedAnywhere(s: seq<nat>, k: nat)
    requires k < |s|
    ensures Sorted(s) == Place(Sorted(s[..k] + s[k + 1..]), s[k])
  {
    if k == 0 {
      assert s[..0] + s[1..] == s[1..];
    } else {
      var rest := s[1..];
      SortedAnywhere(rest, k - 1);
      var less := s[..k] + s[k + 1..];
      assert less[0] == s[0] && less[1..] == rest[..k - 1] + rest[k..] && rest[k - 1] == s[k];
      SortedAscends(less[1..]);
      PlaceCommutes(Sorted(less[1..]), s[k], s[0]);
    }
  }

  lemma {:induction false} SortedOfSame(a: seq<nat>, b: seq<nat>)
    requires multiset(a) == multiset(b)
    ensures Sorted(a) == Sorted(b)
  {
    assert |multiset(a)| == |a| && |multiset(b)| == |b|;
    if a != [] {
      assert a == [a[0]] + a[1..];
      assert a[0] in multiset(b);
      var k :| 0 <= k < |b| && b[k] == a[0];
      TakenOut(b, k);
      assert multiset(b[..k] + b[k + 1..]) == multiset(a[1..]);
      SortedOfSame(a[1..], b[..k] + b[k + 1..]);
      SortedAnywhere(b, k);
    }
  }

  lemma TakenOut(b: seq<nat>, k: nat)
    requires k < |b|
    ensures multiset(b[..k] + b[k + 1..]) == multiset(b) - multiset{b[k]}
  {
    assert b == b[..k] + [b[k]] + b[k + 1..];
  }

  /** The order the devices are listed in does not matter. */
  lemma OrderIrrelevant(v: Vdev, w: Vdev)
    requires v.topology == w.topology && multiset(v.sizes) == multiset(w.sizes)
    ensures Usable(v) == Usable(w)
  {
    KnownSame(v.sizes, w.sizes);
    SameUsable(v.topology, Known(v.sizes), Known(w.sizes));
  }

  lemma SameUsable(topology: Topology, a: seq<nat>, b: seq<nat>)
    requires multiset(a) == multiset(b)
    ensures UsableOf(topology, a) == UsableOf(topology, b)
  {
    SortedOfSame(a, b);
    SortedSum(a);
    SortedSum(b);
    assert |Sorted(a)| == |Sorted(b)|;
    if a != [] {
      SameMin(a, b);
    }
  }

  lemma KnownSame(s: seq<nat>, t: seq<nat>)
    requires multiset(s) == multiset(t)
    ensures multiset(Known(s)) == multiset(Known(t))
  {
    KnownKeeps(s);
    KnownKeeps(t);
  }

  lemma SameMin(a: seq<nat>, b: seq<nat>)
    requires a != [] && b != [] && multiset(a) == multiset(b)
    ensures Min(a) == Min(b)
  {
    assert Min(a) in multiset(a) && Min(b) in multiset(b);
    assert Min(a) in b && Min(b) in a;
  }

  lemma {:induction false} KnownKeeps(s: seq<nat>)
    ensures forall x: nat :: multiset(Known(s))[x] == if x > 0 then multiset(s)[x] else 0
  {
    if s != [] {
      KnownKeeps(s[1..]);
      assert s == [s[0]] + s[1..];
      if s[0] > 0 { assert Known(s) == [s[0]] + Known(s[1..]); }
    }
  }

  /** More parity never leaves more. */
  lemma MoreParity(sizes: seq<nat>, p: nat)
    ensures Usable(Vdev(Raidz(p + 1), sizes)) <= Usable(Vdev(Raidz(p), sizes)) <= Usable(Vdev(Stripe, sizes))
  {
    RaidzIs(Vdev(Raidz(p + 1), sizes));
    RaidzIs(Vdev(Raidz(p), sizes));
    var t := Sorted(Known(sizes));
    if p < |t| {
      SumSnoc(t, p);
    } else if p == |t| {
      assert t[..p] == t;
    }
  }

  lemma {:induction false} PickedAtLeast(s: seq<nat>, marks: seq<bool>, m: nat)
    requires |marks| == |s| && forall x :: x in s ==> m <= x
    ensures Marked(marks) * m <= Picked(s, marks)
  {
    if s != [] {
      assert s[0] in s && forall x :: x in s[1..] ==> x in s;
      PickedAtLeast(s[1..], marks[1..], m);
      var r := Marked(marks[1..]);
      assert (1 + r) * m == m + r * m;
    }
  }

  /** At least as many of the smallest device as there are devices to spare. */
  lemma RaidzAtLeast(v: Vdev)
    requires v.topology.Raidz? && v.topology.parity <= |Known(v.sizes)| && Known(v.sizes) != []
    ensures (|Known(v.sizes)| - v.topology.parity) * Min(Known(v.sizes)) <= Usable(v)
  {
    RaidzIs(v);
    var kept := RaidzIsReached(Known(v.sizes), v.topology.parity);
    PickedAtLeast(Known(v.sizes), kept, Min(Known(v.sizes)));
  }

  /** A mirror holds no more than any of its devices, and as much as one of them. */
  lemma MirrorIsSmallest(sizes: seq<nat>)
    requires Known(sizes) != []
    ensures Usable(Vdev(Mirror, sizes)) in Known(sizes)
    ensures forall x :: x in Known(sizes) ==> Usable(Vdev(Mirror, sizes)) <= x
  {
  }

  // ── When a device grows ─────────────────────────────────────────────────

  lemma {:induction false} KnownAt(s: seq<nat>, k: nat, y: nat) returns (a: seq<nat>, b: seq<nat>)
    requires k < |s|
    ensures Known(s) == a + Part(s[k]) + b
    ensures Known(s[k := y]) == a + Part(y) + b
  {
    if k == 0 {
      a, b := [], Known(s[1..]);
      assert s[0 := y][1..] == s[1..];
    } else {
      a, b := KnownAt(s[1..], k - 1, y);
      a := Part(s[0]) + a;
      assert s[k := y][1..] == s[1..][k - 1 := y];
    }
  }

  lemma {:induction false} PickedJoin(s: seq<nat>, t: seq<nat>, m: seq<bool>, n: seq<bool>)
    requires |m| == |s| && |n| == |t|
    ensures Picked(s + t, m + n) == Picked(s, m) + Picked(t, n)
    ensures Marked(m + n) == Marked(m) + Marked(n)
  {
    if s == [] {
      assert s + t == t && m + n == n;
    } else {
      PickedJoin(s[1..], t, m[1..], n);
      assert (s + t)[1..] == s[1..] + t && (m + n)[1..] == m[1..] + n;
    }
  }

  lemma {:induction false} SumJoin(s: seq<nat>, t: seq<nat>)
    ensures Sum(s + t) == Sum(s) + Sum(t)
  {
    if s == [] {
      assert s + t == t;
    } else {
      SumJoin(s[1..], t);
      assert (s + t)[1..] == s[1..] + t;
    }
  }

  lemma PickedParts(a: seq<nat>, x: nat, b: seq<nat>, ma: seq<bool>, mx: bool, mb: seq<bool>)
    requires |ma| == |a| && |mb| == |b|
    ensures |a + [x] + b| == |ma + [mx] + mb|
    ensures Picked(a + [x] + b, ma + [mx] + mb) == Picked(a, ma) + (if mx then x else 0) + Picked(b, mb)
    ensures Marked(ma + [mx] + mb) == Marked(ma) + (if mx then 1 else 0) + Marked(mb)
  {
    PickedJoin(a, [x], ma, [mx]);
    PickedJoin(a + [x], b, ma + [mx], mb);
    assert [x][1..] == [] && [mx][1..] == [];
  }

  ghost predicate NoneSmaller(s: seq<nat>, t: seq<nat>) {
    |s| == |t| && forall k :: 0 <= k < |s| ==> s[k] <= t[k]
  }

  lemma {:induction false} PickedGrows(s: seq<nat>, t: seq<nat>, marks: seq<bool>)
    requires NoneSmaller(s, t) && |marks| == |s|
    ensures Picked(s, marks) <= Picked(t, marks)
  {
    if s != [] { PickedGrows(s[1..], t[1..], marks[1..]); }
  }

  /** Known sizes become larger: the best choice of before holds no less. */
  lemma RaidzGrows(s: seq<nat>, t: seq<nat>, p: nat)
    requires NoneSmaller(s, t) && p <= |s|
    ensures Sum(s) - Least(s, p) <= Sum(t) - Least(t, p)
  {
    var kept := RaidzIsReached(s, p);
    PickedGrows(s, t, kept);
    RaidzIsLargest(t, p, kept);
  }

  /** One more known size: what was held before is still held, and the new device beside it. */
  lemma RaidzGains(a: seq<nat>, y: nat, b: seq<nat>, p: nat)
    requires p <= |a| + |b|
    ensures Sum(a + b) - Least(a + b, p) + y <= Sum(a + [y] + b) - Least(a + [y] + b, p)
  {
    var kept := RaidzIsReached(a + b, p);
    var ma, mb := kept[..|a|], kept[|a|..];
    assert kept == ma + mb;
    PickedJoin(a, b, ma, mb);
    PickedParts(a, y, b, ma, true, mb);
    RaidzIsLargest(a + [y] + b, p, ma + [true] + mb);
  }

  /** A raidz vdev or a stripe never loses capacity when a device grows, or is first recognised. */
  lemma NeverDrops(v: Vdev, k: nat, y: nat)
    requires k < |v.sizes| && v.sizes[k] <= y && !v.topology.Mirror?
    ensures Usable(v) <= Usable(v.(sizes := v.sizes[k := y]))
  {
    hide Known, Usable, Least, Sum, Part;
    var x, v' := v.sizes[k], v.(sizes := v.sizes[k := y]);
    var a, b := KnownAt(v.sizes, k, y);
    if v.topology.Raidz? {
      RaidzIs(v);
      RaidzIs(v');
      RaidzNeverDrops(a, x, y, b, v.topology.parity);
    } else {
      StripeIs(v);
      StripeIs(v');
      SumOfParts(a, x, b);
      SumOfParts(a, y, b);
    }
  }

  lemma StripeIs(v: Vdev)
    requires v.topology.Stripe?
    ensures Usable(v) == Sum(Known(v.sizes))
  {
  }

  lemma SumOfParts(a: seq<nat>, x: nat, b: seq<nat>)
    ensures Sum(a + Part(x) + b) == Sum(a) + x + Sum(b)
  {
    SumJoin(a, Part(x));
    SumJoin(a + Part(x), b);
    assert Sum(Part(x)) == x;
  }

  lemma LeastAtMostSum(s: seq<nat>, p: nat)
    ensures Least(s, p) <= Sum(s)
    ensures p >= |s| ==> Least(s, p) == Sum(s)
  {
    SortedSum(s);
    var t := Sorted(s);
    if p < |t| {
      SumPrefix(t, p);
    } else if p == |t| {
      assert t[..p] == t;
    }
  }

  lemma {:induction false} SumPrefix(t: seq<nat>, p: nat)
    requires p <= |t|
    ensures Sum(t[..p]) <= Sum(t)
  {
    if p > 0 {
      SumPrefix(t[1..], p - 1);
      assert t[..p][1..] == t[1..][..p - 1];
    }
  }

  lemma RaidzNeverDrops(a: seq<nat>, x: nat, y: nat, b: seq<nat>, p: nat)
    requires x <= y
    ensures var s := a + Part(x) + b;
            var t := a + Part(y) + b;
            Sum(s) - Least(s, p) <= Sum(t) - Least(t, p)
  {
    var s := a + Part(x) + b;
    var t := a + Part(y) + b;
    LeastAtMostSum(s, p);
    LeastAtMostSum(t, p);
    assert a + [] + b == a + b;
    if p < |s| && x > 0 {
      RaidzGrows(s, t, p);
    } else if p < |s| && y > 0 {
      RaidzGains(a, y, b, p);
    }
  }

  /** A mirror loses capacity exactly when a device not known before turns out smaller than the rest. */
  lemma MirrorDropsExactly(sizes: seq<nat>, k: nat, y: nat)
    requires k < |sizes| && sizes[k] <= y
    ensures Usable(Vdev(Mirror, sizes[k := y])) < Usable(Vdev(Mirror, sizes))
            <==> sizes[k] == 0 && 0 < y < Usable(Vdev(Mirror, sizes))
  {
    var a, b := KnownAt(sizes, k, y);
    assert a + [] + b == a + b;
    var s, t := Known(sizes), Known(sizes[k := y]);
    if s != [] && t != [] {
      assert Min(s) in s && Min(t) in t;
      if sizes[k] > 0 {
        assert sizes[k] in s && y in t;
        assert forall z :: z in t ==> z == y || z in s;
      } else if y > 0 {
        assert y in t && forall z :: z in t <==> z == y || z in s;
      }
    }
  }

  /** A mirror of a known device and an unknown one of which it then turns out that it is smaller. */
  lemma MirrorDropShows()
    ensures Usable(Vdev(Mirror, [100, 0])) == 100 && Usable(Vdev(Mirror, [100, 50])) == 50
  {
    assert Known([0]) == [] && Known([100, 0]) == [100];
    assert Known([50]) == [50] && Known([100, 50]) == [100, 50];
    assert Min([100]) == 100 && Min([100, 50]) == 50;
  }

  // ── The pool ────────────────────────────────────────────────────────────

  /** `_compute_usable_bytes`. */
  function PoolUsable(vdevs: seq<Vdev>): int {
    if vdevs == [] then 0 else Usable(vdevs[0]) + PoolUsable(vdevs[1..])
  }

  /** Growing a device of a vdev that is not a mirror never shrinks the pool. */
  lemma {:induction false} PoolNeverDrops(vdevs: seq<Vdev>, n: nat, k: nat, y: nat)
    requires n < |vdevs| && k < |vdevs[n].sizes| && vdevs[n].sizes[k] <= y && !vdevs[n].topology.Mirror?
    ensures PoolUsable(vdevs) <= PoolUsable(vdevs[n := vdevs[n].(sizes := vdevs[n].sizes[k := y])])
  {
    if n == 0 {
      NeverDrops(vdevs[0], k, y);
      assert vdevs[0 := vdevs[0].(sizes := vdevs[0].sizes[k := y])][1..] == vdevs[1..];
    } else {
      PoolNeverDrops(vdevs[1..], n - 1, k, y);
      assert vdevs[n := vdevs[n].(sizes := vdevs[n].sizes[k := y])][1..]
          == vdevs[1..][n - 1 := vdevs[n].(sizes := vdevs[n].sizes[k := y])];
    }
  }
}

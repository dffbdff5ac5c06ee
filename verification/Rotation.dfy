/**
 * The rotation of a backup group over its sets: which sets a session targets, and where the group stands
 * afterwards (nazman/services/backup_group_service.py). The sets written by any number of sessions form
 * one unbroken round, so no set gets more than one write ahead of another.
 */
module Rotation {
  import opened Streams
  import opened Cycle

  // ── One session ─────────────────────────────────────────────────────────

  /** How many sets a session writes: `max(1, min(copies or 1, n))`. */
  function CopiesFor(copies: Option<int>, n: nat): (k: nat)
    requires n > 0
    ensures 1 <= k <= n
    ensures copies.Some? && 1 <= copies.value <= n ==> k == copies.value
    ensures copies.Some? && copies.value > n ==> k == n
    ensures copies.None? || copies.value <= 1 ==> k == 1
  {
    var asked := if copies.None? || copies.value == 0 then 1 else copies.value;
    if asked > n then n else if asked < 1 then 1 else asked
  }

  ghost predicate Distinct(order: seq<SetId>) {
    forall i, j :: 0 <= i < j < |order| ==> order[i] != order[j]
  }

  /** The set at place p of the endless cycle. */
  function Around(order: seq<SetId>, p: nat): SetId
    requires order != []
  {
    order[Wrap(p, |order|)]
  }

  function Window(order: seq<SetId>, start: nat, k: nat): seq<SetId>
    requires order != []
  {
    seq<SetId>(k, i requires 0 <= i < k => Around(order, start + i))
  }

  lemma WindowNext(order: seq<SetId>, start: nat, k: nat)
    requires order != []
    ensures Window(order, start, k + 1) == Window(order, start, k) + [Around(order, start + k)]
  {
    var longer, w := Window(order, start, k + 1), Window(order, start, k);
    forall j | 0 <= j < k ensures longer[j] == w[j] {
      assert longer[j] == Around(order, start + j);
    }
  }

  /** `order.index(id)`. */
  method IndexOf(order: seq<SetId>, id: SetId) returns (k: Option<nat>)
    ensures k.Some? ==> k.value < |order| && order[k.value] == id && id !in order[..k.value]
    ensures k.None? <==> id !in order
  {
    var n := 0;
    while n < |order|
      invariant 0 <= n <= |order| && id !in order[..n]
    {
      if order[n] == id { return Some(n); }
      n := n + 1;
    }
    k := None;
  }

  /** `_target_sets`: as many consecutive sets as copies are asked for, from the active one. */
  method TargetSets(order: seq<SetId>, copies: Option<int>, active: SetId) returns (targets: seq<SetId>, start: nat)
    requires order != []
    ensures targets == Window(order, start, CopiesFor(copies, |order|))
    ensures start < |order| && (active in order ==> order[start] == active) && (active !in order ==> start == 0)
  {
    var found := IndexOf(order, active);
    var at := if found.Some? then found.value else 0;
    start := at;
    targets := [];
    var i := 0;
    while i < CopiesFor(copies, |order|)
      invariant 0 <= i <= CopiesFor(copies, |order|)
      invariant targets == Window(order, at, i)
    {
      WrapIsMod(at + i, |order|);
      WindowNext(order, at, i);
      targets := targets + [order[(at + i) % |order|]];
      i := i + 1;
    }
  }

  /** `_rotate`: the set so many places after the current one. */
  method Rotate(order: seq<SetId>, current: SetId, steps: nat) returns (next: Option<SetId>)
    ensures next.None? <==> current !in order
    ensures forall s :: 0 <= s < |order| && Distinct(order) && order[s] == current && steps > 0 ==>
              next == Some(Around(order, s + steps))
  {
    var found := IndexOf(order, current);
    if found.None? { return None; }
    var n := |order|;
    var wrapped := (if steps == 0 then 1 else steps) % n;
    next := Some(order[(found.value + wrapped) % n]);
    if steps > 0 {
      WrapIsMod(steps, n);
      WrapIsMod(found.value + wrapped, n);
      WrapAdd(found.value, steps, n);
    }
  }

  /** The sets of one session are all different. */
  lemma WindowDistinct(order: seq<SetId>, start: nat, k: nat)
    requires Distinct(order) && order != [] && k <= |order|
    ensures Distinct(Window(order, start, k))
  {
    var w := Window(order, start, k);
    forall i, j | 0 <= i < j < k ensures w[i] != w[j] {
      WrapApart(start + i, start + j, |order|);
      var a, b := Wrap(start + i, |order|), Wrap(start + j, |order|);
      assert if a < b then order[a] != order[b] else order[b] != order[a];
    }
  }

  // ── Any number of sessions ──────────────────────────────────────────────

  /** The sets were written one after the other, round and round, from place `start`. */
  ghost predicate RoundRobin(order: seq<SetId>, start: nat, written: seq<SetId>)
    requires order != []
  {
    forall j :: 0 <= j < |written| ==> written[j] == Around(order, start + j)
  }

  function Count(written: seq<SetId>, id: SetId): nat {
    if written == [] then 0
    else Count(written[..|written| - 1], id) + (if written[|written| - 1] == id then 1 else 0)
  }

  /** The writes still to come in this round before the turn of place p. */
  function Ahead(p: nat, start: nat, n: nat): nat
    requires p < n && start < n
  {
    if p >= start then p - start else p + n - start
  }

  /** Whole rounds write every set once each, and the begun round those whose turn has come. */
  lemma {:induction false} CountAround(order: seq<SetId>, start: nat, written: seq<SetId>, p: nat)
    requires Distinct(order) && p < |order| && start < |order| && RoundRobin(order, start, written)
    ensures Count(written, order[p])
            == Rounds(|written|, |order|) + (if Ahead(p, start, |order|) < Wrap(|written|, |order|) then 1 else 0)
  {
    if |written| > 0 {
      var n, last := |order|, |written| - 1;
      CountAround(order, start, written[..last], p);
      WrapNext(last, n);
      WrapAdd(start, last, n);
      assert written[last] == Around(order, start + last);
      assert Wrap(start + last, n) == p <==> Wrap(last, n) == Ahead(p, start, n);
    }
  }

  /** Every set has been written floor(L/n) or ceil(L/n) times. */
  lemma Balanced(order: seq<SetId>, start: nat, written: seq<SetId>, id: SetId)
    requires Distinct(order) && start < |order| && RoundRobin(order, start, written) && id in order
    ensures |written| / |order| <= Count(written, id) <= (|written| + |order| - 1) / |order|
  {
    var p :| 0 <= p < |order| && order[p] == id;
    var n := |order|;
    CountAround(order, start, written, p);
    WrapIsMod(|written|, n);
    Ceiling(|written|, n);
  }

  /** One session moves the group past the sets it wrote, when it ends in success or partial success. */
  function After(order: seq<SetId>, k: nat, at: nat, moves: bool): nat
    requires order != []
  {
    if moves then Wrap(at + k, |order|) else at
  }

  /** Where the group stands after some sessions, and which sets the moving ones wrote. */
  function Standing(order: seq<SetId>, k: nat, start: nat, moves: seq<bool>): (at: nat)
    requires order != []
    ensures start < |order| ==> at < |order|
  {
    if moves == [] then start else After(order, k, Standing(order, k, start, moves[..|moves| - 1]), moves[|moves| - 1])
  }

  function Written(order: seq<SetId>, k: nat, start: nat, moves: seq<bool>): seq<SetId>
    requires order != []
  {
    if moves == [] then []
    else
      var init := moves[..|moves| - 1];
      Written(order, k, start, init)
      + (if moves[|moves| - 1] then Window(order, Standing(order, k, start, init), k) else [])
  }

  function MovesIn(moves: seq<bool>): nat {
    if moves == [] then 0 else MovesIn(moves[..|moves| - 1]) + (if moves[|moves| - 1] then 1 else 0)
  }

  lemma {:induction false} UnbrokenRound(order: seq<SetId>, k: nat, start: nat, moves: seq<bool>)
    requires order != [] && start < |order|
    ensures RoundRobin(order, start, Written(order, k, start, moves))
    ensures Standing(order, k, start, moves) == Wrap(start + |Written(order, k, start, moves)|, |order|)
  {
    if moves != [] {
      var init := moves[..|moves| - 1];
      UnbrokenRound(order, k, start, init);
      if moves[|moves| - 1] {
        WrapAdd(k, start + |Written(order, k, start, init)|, |order|);
        RoundGoesOn(order, start, Written(order, k, start, init), k);
      }
    }
  }

  lemma RoundGoesOn(order: seq<SetId>, start: nat, before: seq<SetId>, k: nat)
    requires order != [] && RoundRobin(order, start, before)
    ensures RoundRobin(order, start, before + Window(order, Wrap(start + |before|, |order|), k))
  {
    var at := Wrap(start + |before|, |order|);
    var all := before + Window(order, at, k);
    forall j | 0 <= j < |all| ensures all[j] == Around(order, start + j) {
      if j >= |before| {
        WrapAdd(j - |before|, start + |before|, |order|);
      }
    }
  }

  lemma {:induction false} KSetsAMove(order: seq<SetId>, k: nat, start: nat, moves: seq<bool>)
    requires order != []
    ensures |Written(order, k, start, moves)| == k * MovesIn(moves)
  {
    MulNext(k, if moves == [] then 0 else MovesIn(moves[..|moves| - 1]));
    if moves != [] {
      KSetsAMove(order, k, start, moves[..|moves| - 1]);
      WrittenLength(order, k, start, moves);
    }
  }

  lemma WrittenLength(order: seq<SetId>, k: nat, start: nat, moves: seq<bool>)
    requires order != [] && moves != []
    ensures |Written(order, k, start, moves)|
            == |Written(order, k, start, moves[..|moves| - 1])| + if moves[|moves| - 1] then k else 0
  {
  }

  /**
   * After any sessions, of which m moved the group, with k sets each: the sets written form one unbroken
   * round, and each of the n sets was written floor(mk/n) or ceil(mk/n) times.
   */
  lemma BalancedRotation(order: seq<SetId>, copies: Option<int>, start: nat, moves: seq<bool>, id: SetId)
    requires Distinct(order) && start < |order| && id in order
    ensures var k := CopiesFor(copies, |order|);
            var written := Written(order, k, start, moves);
            && RoundRobin(order, start, written)
            && |written| == k * MovesIn(moves)
            && |written| / |order| <= Count(written, id) <= (|written| + |order| - 1) / |order|
  {
    var k := CopiesFor(copies, |order|);
    UnbrokenRound(order, k, start, moves);
    Balanced(order, start, Written(order, k, start, moves), id);
    KSetsAMove(order, k, start, moves);
  }
}

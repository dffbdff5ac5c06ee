/**
 * The descriptors of `run_pipeline` (nazman/utils/commands.py): the pipes between the stages, their ends
 * in the parent, and what is left of them whichever pipe or spawn fails. The kernel may reuse the number
 * of a closed descriptor at once.
 */
module Pipeline {
  import opened Streams

  /** What a descriptor number stands for: one end of the k-th pipe ever made, or something else. */
  datatype End = ReadEnd(pipe: nat) | WriteEnd(pipe: nat) | Other(id: nat)

  lemma {:induction false} SomeNumberIsFree(open: set<nat>) returns (n: nat)
    ensures forall m :: m in open ==> m < n
  {
    if open == {} {
      n := 0;
    } else {
      var m :| m in open;
      var n' := SomeNumberIsFree(open - {m});
      n := if m < n' then n' else m + 1;
      assert forall x :: x in open ==> x == m || x in open - {m};
    }
  }

  ghost predicate Open(table: map<nat, End>, e: End) {
    exists fd :: fd in table && table[fd] == e
  }

  /** The parent's descriptor table, and how often each end was closed. */
  class Kernel {
    var table: map<nat, End>
    var pipes: nat
    ghost var closed: multiset<End>

    /** Of every pipe made, each end is either open under one number, or has been closed once. */
    ghost predicate Valid()
      reads this
    {
      && (forall fd :: fd in table && !table[fd].Other? ==> table[fd].pipe < pipes)
      && (forall a, b :: a in table && b in table && a != b && !table[a].Other? ==> table[a] != table[b])
      && (forall e: End :: !e.Other? ==> closed[e] == if e.pipe < pipes && !Open(table, e) then 1 else 0)
    }

    /** The parent before any pipe is made, with the descriptors it has open. */
    constructor (open: set<nat>)
      ensures Valid() && pipes == 0 && table.Keys == open && forall fd :: fd in open ==> table[fd].Other?
    {
      table := map fd | fd in open :: Other(fd);
      pipes := 0;
      closed := multiset{};
    }

    method Pipe() returns (r: nat, w: nat)
      requires Valid()
      modifies this`table, this`pipes
      ensures Valid() && pipes == old(pipes) + 1
      ensures r !in old(table) && w !in old(table) && r != w
      ensures table == old(table)[r := ReadEnd(old(pipes))][w := WriteEnd(old(pipes))]
    {
      ghost var n := SomeNumberIsFree(table.Keys);
      assert n !in table && n + 1 !in table;
      r :| r !in table.Keys;
      w :| w !in table.Keys && w != r;
      PipeOpens(table, r, w, pipes);
      table := table[r := ReadEnd(pipes)][w := WriteEnd(pipes)];
      pipes := pipes + 1;
    }

    method Close(fd: nat)
      requires Valid() && fd in table
      modifies this`table, this`closed
      ensures Valid() && table == old(table) - {fd}
    {
      CloseShuts(table, fd);
      closed := closed + multiset{table[fd]};
      table := table - {fd};
    }
  }

  lemma PipeOpens(table: map<nat, End>, r: nat, w: nat, p: nat)
    requires r !in table && w !in table && r != w
    ensures var after := table[r := ReadEnd(p)][w := WriteEnd(p)];
            forall e: End :: Open(after, e) <==> e == ReadEnd(p) || e == WriteEnd(p) || Open(table, e)
  {
    var after := table[r := ReadEnd(p)][w := WriteEnd(p)];
    forall e: End | true ensures Open(after, e) <==> e == ReadEnd(p) || e == WriteEnd(p) || Open(table, e) {
      assert after[r] == ReadEnd(p) && after[w] == WriteEnd(p);
      if fd :| fd in table && table[fd] == e { assert after[fd] == e; }
    }
  }

  lemma CloseShuts(table: map<nat, End>, fd: nat)
    requires fd in table && forall a, b :: a in table && b in table && a != b && !table[a].Other? ==> table[a] != table[b]
    ensures forall e: End :: !e.Other? ==> (Open(table - {fd}, e) <==> Open(table, e) && e != table[fd])
  {
    forall e: End | !e.Other? ensures Open(table - {fd}, e) <==> Open(table, e) && e != table[fd] {
      if a :| a in table && table[a] == e && e != table[fd] { assert (table - {fd})[a] == e; }
    }
  }

  /** What a stage is connected to: a pipe end, as it was when the stage was started, or a file or capture. */
  datatype Link = Outside | To(end: End)

  datatype Stage = Stage(input: Link, output: Link)

  /** What goes wrong, if anything: the pipe or the process of some stage cannot be made, or time runs out. */
  datatype Mishap = Smooth | NoPipe(stage: nat) | NoProcess(stage: nat) | TimedOut

  datatype Outcome = Finished(code: int) | GaveUp

  /** `parent_fds.remove(fd)`. */
  function Remove(fds: seq<nat>, fd: nat): seq<nat> {
    if fds == [] then [] else if fds[0] == fd then fds[1..] else [fds[0]] + Remove(fds[1..], fd)
  }

  /** The first non-zero code in order, or zero. */
  method FirstNonZero(codes: seq<int>) returns (code: int)
    ensures code == 0 <==> forall k :: 0 <= k < |codes| ==> codes[k] == 0
    ensures code != 0 ==> exists k :: 0 <= k < |codes| && codes[k] == code && forall j :: 0 <= j < k ==> codes[j] == 0
  {
    var k := 0;
    while k < |codes|
      invariant 0 <= k <= |codes| && forall j :: 0 <= j < k ==> codes[j] == 0
    {
      if codes[k] != 0 { return codes[k]; }
      k := k + 1;
    }
    code := 0;
  }

  // ── What the parent holds ───────────────────────────────────────────────

  /** The parent holds these descriptors beside its own. */
  ghost predicate Holds(base: map<nat, End>, table: map<nat, End>, fds: seq<nat>) {
    && (forall fd :: fd in table <==> fd in base || fd in fds)
    && (forall fd :: fd in fds ==> fd !in base)
    && (forall fd :: fd in base ==> table[fd] == base[fd])
    && forall i, j :: 0 <= i < j < |fds| ==> fds[i] != fds[j]
  }

  /** `fds` lists the read end kept for the next stage, and there is one exactly when there is a pipe. */
  ghost predicate Keeps(base: map<nat, End>, table: map<nat, End>, fds: seq<nat>, prev: Option<nat>, pipe: int) {
    && Holds(base, table, fds)
    && (prev.None? ==> fds == [])
    && (prev.Some? ==> fds == [prev.value] && prev.value in table && pipe >= 0 && table[prev.value] == ReadEnd(pipe))
  }

  lemma HoldsNothing(base: map<nat, End>, table: map<nat, End>)
    requires Holds(base, table, [])
    ensures table == base
  {
  }

  lemma HoldsOneLess(base: map<nat, End>, table: map<nat, End>, fds: seq<nat>)
    requires Holds(base, table, fds) && fds != []
    ensures fds[0] in table && Holds(base, table - {fds[0]}, fds[1..])
  {
    assert fds[0] in fds && fds == [fds[0]] + fds[1..];
  }

  lemma HoldsMore(base: map<nat, End>, table: map<nat, End>, fds: seq<nat>, fd: nat, e: End)
    requires Holds(base, table, fds) && fd !in table
    ensures Holds(base, table[fd := e], fds + [fd])
  {
    assert forall i :: 0 <= i < |fds| ==> fds[i] in fds;
  }

  /** Closing the second of two. */
  lemma HoldsFirst(base: map<nat, End>, table: map<nat, End>, r: nat, w: nat)
    requires Holds(base, table, [r, w])
    ensures w in table && r in table && r != w && Holds(base, table - {w}, [r]) && Remove([r, w], w) == [r]
  {
    var fds := [r, w];
    assert r == fds[0] && w == fds[1] && r in fds && w in fds && fds[1..] == [w];
    assert Remove([w], w) == [];
  }

  /** The `finally` block: close whatever the parent still holds. */
  method CloseAll(kernel: Kernel, ghost base: map<nat, End>, fds: seq<nat>)
    requires kernel.Valid() && Holds(base, kernel.table, fds)
    modifies kernel`table, kernel`closed
    ensures kernel.Valid() && kernel.table == base
  {
    var k := 0;
    while k < |fds|
      invariant 0 <= k <= |fds| && kernel.Valid() && Holds(base, kernel.table, fds[k..])
    {
      HoldsOneLess(base, kernel.table, fds[k..]);
      assert fds[k..][1..] == fds[k + 1..];
      kernel.Close(fds[k]);
      k := k + 1;
    }
    HoldsNothing(base, kernel.table);
  }

  // ── Starting the stages ─────────────────────────────────────────────────

  /** The pipe behind the stage, unless it is the last. */
  method MakePipe(kernel: Kernel, ghost base: map<nat, End>, fds: seq<nat>) returns (r: nat, w: nat)
    requires kernel.Valid() && Holds(base, kernel.table, fds)
    modifies kernel`table, kernel`pipes
    ensures kernel.Valid() && kernel.pipes == old(kernel.pipes) + 1 && Holds(base, kernel.table, fds + [r, w])
    ensures kernel.table == old(kernel.table)[r := ReadEnd(old(kernel.pipes))][w := WriteEnd(old(kernel.pipes))]
    ensures r !in old(kernel.table) && w !in old(kernel.table) && r != w
  {
    r, w := kernel.Pipe();
    HoldsMore(base, old(kernel.table), fds, r, ReadEnd(old(kernel.pipes)));
    HoldsMore(base, old(kernel.table)[r := ReadEnd(old(kernel.pipes))], fds + [r], w, WriteEnd(old(kernel.pipes)));
    assert fds + [r] + [w] == fds + [r, w];
  }

  /** Close the read end the started stage was given. */
  method ClosePrev(kernel: Kernel, ghost base: map<nat, End>, fds: seq<nat>, prev: Option<nat>) returns (fds': seq<nat>)
    requires kernel.Valid() && Holds(base, kernel.table, fds) && (prev.Some? ==> fds != [] && fds[0] == prev.value)
    modifies kernel`table, kernel`closed
    ensures kernel.Valid() && Holds(base, kernel.table, fds')
    ensures fds' == if prev.Some? then fds[1..] else fds
    ensures forall fd :: fd in kernel.table ==> fd in old(kernel.table) && kernel.table[fd] == old(kernel.table)[fd]
  {
    fds' := fds;
    if prev.Some? {
      HoldsOneLess(base, kernel.table, fds);
      kernel.Close(prev.value);
      fds' := Remove(fds, prev.value);
    }
  }

  /** One stage that is not the last: its pipe, its process, and what is closed once it runs. */
  method StartStage(kernel: Kernel, ghost base: map<nat, End>, idx: nat, fds: seq<nat>, prev: Option<nat>, mishap: Mishap)
    returns (ok: bool, stage: Stage, next: Option<nat>, fds': seq<nat>)
    requires kernel.Valid() && Keeps(base, kernel.table, fds, prev, kernel.pipes - 1)
    modifies kernel`table, kernel`pipes, kernel`closed
    ensures kernel.Valid() && Holds(base, kernel.table, fds') && old(kernel.pipes) <= kernel.pipes
    ensures ok <==> mishap != NoPipe(idx) && mishap != NoProcess(idx)
    ensures ok ==> kernel.pipes == old(kernel.pipes) + 1 && next.Some?
                   && Keeps(base, kernel.table, fds', next, kernel.pipes - 1)
    ensures ok ==> stage == Stage(if prev.Some? then To(ReadEnd(old(kernel.pipes) - 1)) else Outside, To(WriteEnd(old(kernel.pipes))))
  {
    stage, next, fds' := Stage(Outside, Outside), None, fds;
    if mishap == NoPipe(idx) { return false, stage, next, fds'; }
    var r, w := MakePipe(kernel, base, fds);
    next, fds' := Some(r), fds + [r, w];
    if mishap == NoProcess(idx) { return false, stage, next, fds'; }
    stage := Stage(if prev.Some? then To(kernel.table[prev.value]) else Outside, To(kernel.table[w]));
    fds' := CloseUsed(kernel, base, fds, prev, r, w);
    ok := true;
  }

  /** The parent closes what only the started stage needed, and keeps the read end behind it. */
  method CloseUsed(kernel: Kernel, ghost base: map<nat, End>, fds: seq<nat>, prev: Option<nat>, r: nat, w: nat)
    returns (fds': seq<nat>)
    requires kernel.Valid() && Holds(base, kernel.table, fds + [r, w]) && r in kernel.table
    requires fds == if prev.Some? then [prev.value] else []
    modifies kernel`table, kernel`closed
    ensures kernel.Valid() && Holds(base, kernel.table, fds') && fds' == [r]
    ensures r in kernel.table && kernel.table[r] == old(kernel.table)[r]
  {
    fds' := ClosePrev(kernel, base, fds + [r, w], prev);
    assert fds' == [r, w];
    HoldsFirst(base, kernel.table, r, w);
    kernel.Close(w);
    fds' := Remove(fds', w);
  }

  method StartLast(kernel: Kernel, ghost base: map<nat, End>, idx: nat, fds: seq<nat>, prev: Option<nat>, mishap: Mishap)
    returns (ok: bool, stage: Stage, fds': seq<nat>)
    requires kernel.Valid() && Keeps(base, kernel.table, fds, prev, kernel.pipes - 1)
    modifies kernel`table, kernel`closed
    ensures kernel.Valid() && Holds(base, kernel.table, fds')
    ensures ok <==> mishap != NoProcess(idx)
    ensures ok ==> fds' == [] && stage == Stage(if prev.Some? then To(ReadEnd(kernel.pipes - 1)) else Outside, Outside)
  {
    stage, fds' := Stage(Outside, Outside), fds;
    if mishap == NoProcess(idx) { return false, stage, fds'; }
    stage := Stage(if prev.Some? then To(kernel.table[prev.value]) else Outside, Outside);
    fds' := ClosePrev(kernel, base, fds, prev);
    ok := true;
  }

  /** Stage i reads exactly what stage i-1 writes; the first reads from and the last writes to the outside. */
  ghost predicate Wired(started: seq<Stage>, from: nat, n: nat) {
    forall i :: 0 <= i < |started| ==> started[i] == WiredStage(from, i, n)
  }

  function WiredStage(from: nat, i: nat, n: nat): Stage {
    Stage(if i == 0 then Outside else To(ReadEnd(from + i - 1)), if i == n - 1 then Outside else To(WriteEnd(from + i)))
  }

  lemma WiredNext(started: seq<Stage>, stage: Stage, from: nat, n: nat)
    requires Wired(started, from, n) && stage == WiredStage(from, |started|, n)
    ensures Wired(started + [stage], from, n)
  {
  }

  /** Something keeps one of the first k stages, none of them the last, from starting. */
  predicate StopsBefore(mishap: Mishap, k: nat) {
    (mishap.NoPipe? || mishap.NoProcess?) && mishap.stage < k
  }

  predicate Starts(mishap: Mishap, n: nat) {
    match mishap
    case Smooth => true
    case TimedOut => true
    case NoPipe(s) => s >= n - 1
    case NoProcess(s) => s >= n
  }

  method StartAll(kernel: Kernel, n: nat, mishap: Mishap) returns (ok: bool, started: seq<Stage>, fds: seq<nat>)
    requires kernel.Valid() && n > 0
    modifies kernel`table, kernel`pipes, kernel`closed
    ensures kernel.Valid() && Holds(old(kernel.table), kernel.table, fds) && old(kernel.pipes) <= kernel.pipes
    ensures ok <==> Starts(mishap, n)
    ensures |started| <= n && Wired(started, old(kernel.pipes), n)
    ensures ok ==> |started| == n && fds == [] && kernel.table == old(kernel.table)
  {
    ghost var base := kernel.table;
    var prev;
    ok, started, fds, prev := StartAllButLast(kernel, n, mishap);
    if !ok { return; }
    var stage;
    ok, stage, fds := StartLast(kernel, base, n - 1, fds, prev, mishap);
    if ok {
      started := started + [stage];
      HoldsNothing(base, kernel.table);
    }
  }

  method StartAllButLast(kernel: Kernel, n: nat, mishap: Mishap)
    returns (ok: bool, started: seq<Stage>, fds: seq<nat>, prev: Option<nat>)
    requires kernel.Valid() && n > 0
    modifies kernel`table, kernel`pipes, kernel`closed
    ensures kernel.Valid() && Holds(old(kernel.table), kernel.table, fds) && old(kernel.pipes) <= kernel.pipes
    ensures |started| < n && Wired(started, old(kernel.pipes), n)
    ensures ok <==> !StopsBefore(mishap, n - 1)
    ensures ok ==> |started| == n - 1 && kernel.pipes == old(kernel.pipes) + n - 1 && (prev.Some? <==> n > 1)
                   && Keeps(old(kernel.table), kernel.table, fds, prev, kernel.pipes - 1)
  {
    ghost var base, from := kernel.table, kernel.pipes;
    started, fds, prev, ok := [], [], None, true;
    while |started| < n - 1
      invariant kernel.Valid() && |started| <= n - 1 && kernel.pipes == from + |started| && ok
      invariant !StopsBefore(mishap, |started|)
      invariant Keeps(base, kernel.table, fds, prev, kernel.pipes - 1) && (prev.Some? <==> |started| > 0)
      invariant Wired(started, from, n)
    {
      ok, started, prev, fds := StartNext(kernel, base, from, n, started, fds, prev, mishap);
      if !ok { return; }
    }
  }

  method StartNext(
    kernel: Kernel, ghost base: map<nat, End>, ghost from: nat, ghost n: nat, started: seq<Stage>, fds: seq<nat>,
    prev: Option<nat>, mishap: Mishap)
    returns (ok: bool, started': seq<Stage>, next: Option<nat>, fds': seq<nat>)
    requires kernel.Valid() && Keeps(base, kernel.table, fds, prev, kernel.pipes - 1) && Wired(started, from, n)
    requires kernel.pipes == from + |started| && (prev.Some? <==> |started| > 0) && |started| < n - 1
    modifies kernel`table, kernel`pipes, kernel`closed
    ensures kernel.Valid() && Holds(base, kernel.table, fds') && old(kernel.pipes) <= kernel.pipes
    ensures ok <==> mishap != NoPipe(|started|) && mishap != NoProcess(|started|)
    ensures started' == if ok then started + [WiredStage(from, |started|, n)] else started
    ensures Wired(started', from, n)
    ensures ok ==> kernel.pipes == from + |started'| && next.Some? && Keeps(base, kernel.table, fds', next, kernel.pipes - 1)
  {
    var stage;
    ok, stage, next, fds' := StartStage(kernel, base, |started|, fds, prev, mishap);
    started' := started;
    if ok {
      WiredNext(started, stage, from, n);
      started' := started + [stage];
    }
  }

  // ── The whole pipeline ──────────────────────────────────────────────────

  /** Every end of a pipe this pipeline made has been closed once, and nothing else has been closed. */
  ghost predicate ClosedOnce(before: multiset<End>, after: multiset<End>, from: nat, to: nat) {
    forall e: End :: !e.Other? ==> after[e] == if from <= e.pipe < to then 1 else before[e]
  }

  /**
   * `run_pipeline`. However many stages, and whatever fails: the parent's table ends as it began, each
   * end of each pipe made was closed exactly once, and nothing is held while the stages are waited for.
   */
  method RunPipeline(kernel: Kernel, n: nat, mishap: Mishap, codes: seq<int>)
    returns (outcome: Outcome, started: seq<Stage>, ghost waiting: Option<map<nat, End>>)
    requires kernel.Valid() && n > 0 && |codes| == n
    modifies kernel`table, kernel`pipes, kernel`closed
    ensures kernel.Valid() && kernel.table == old(kernel.table)
    ensures ClosedOnce(old(kernel.closed), kernel.closed, old(kernel.pipes), kernel.pipes)
    ensures |started| <= n && Wired(started, old(kernel.pipes), n)
    ensures waiting == if Starts(mishap, n) then Some(old(kernel.table)) else None
    ensures waiting.Some? ==> |started| == n
    ensures outcome.Finished? <==> Starts(mishap, n) && mishap != TimedOut
    ensures outcome.Finished? <==>
              mishap.Smooth? || (mishap.NoPipe? && mishap.stage >= n - 1) || (mishap.NoProcess? && mishap.stage >= n)
    ensures outcome.Finished? ==>
              (outcome.code == 0 <==> forall k :: 0 <= k < n ==> codes[k] == 0)
              && (outcome.code != 0 ==> FirstFailing(codes, outcome.code))
  {
    var ok, fds;
    ok, started, fds := StartAll(kernel, n, mishap);
    waiting := if ok then Some(kernel.table) else None;
    if ok && mishap != TimedOut {
      var code := FirstNonZero(codes);
      outcome := Finished(code);
    } else {
      outcome := GaveUp;
    }
    CloseAll(kernel, old(kernel.table), fds);
  }

  /** The code of the first stage that failed. */
  ghost predicate FirstFailing(codes: seq<int>, code: int) {
    exists k :: 0 <= k < |codes| && codes[k] == code && forall j :: 0 <= j < k ==> codes[j] == 0
  }
}

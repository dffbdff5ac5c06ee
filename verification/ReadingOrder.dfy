/** When the order in which the volumes of a set are read shows in the merged runs of a dataset. */
module ReadingOrder {
  import opened Streams
  import opened Manifest
  import opened Restore

  ghost predicate Before(s: seq<Entry>, a: Entry, b: Entry) {
    exists i, j :: 0 <= i < j < |s| && s[i] == a && s[j] == b
  }

  /** Of two streams, `a` is the one the list has last. */
  predicate LastOf(rows: seq<Entry>, a: Entry, b: Entry) {
    rows != [] && (rows[|rows| - 1] == a || (rows[|rows| - 1] != b && LastOf(rows[..|rows| - 1], a, b)))
  }

  // ── Order in a list ─────────────────────────────────────────────────────

  lemma BeforeHead(e: Entry, s: seq<Entry>, a: Entry, b: Entry)
    ensures Before([e] + s, a, b) <==> (e == a && b in s) || Before(s, a, b)
  {
    var t := [e] + s;
    if i, j :| 0 <= i < j < |t| && t[i] == a && t[j] == b {
      assert s[j - 1] == b;
      if i > 0 { assert s[i - 1] == a; }
    }
    if e == a && b in s {
      var j :| 0 <= j < |s| && s[j] == b;
      assert t[0] == a && t[j + 1] == b;
    }
    if i, j :| 0 <= i < j < |s| && s[i] == a && s[j] == b {
      assert t[i + 1] == a && t[j + 1] == b;
    }
  }

  lemma BeforeLast(s: seq<Entry>, e: Entry, a: Entry, b: Entry)
    ensures Before(s + [e], a, b) <==> (a in s && e == b) || Before(s, a, b)
  {
    var t := s + [e];
    if i, j :| 0 <= i < j < |t| && t[i] == a && t[j] == b {
      assert s[i] == a;
      if j < |s| { assert s[j] == b; }
    }
    if a in s && e == b {
      var i :| 0 <= i < |s| && s[i] == a;
      assert t[i] == a && t[|s|] == b;
    }
    if i, j :| 0 <= i < j < |s| && s[i] == a && s[j] == b {
      assert t[i] == a && t[j] == b;
    }
  }

  lemma OneWay(s: seq<Entry>, a: Entry, b: Entry)
    requires NoRepeats(s) && Before(s, a, b)
    ensures !Before(s, b, a)
  {
    var i, j :| 0 <= i < j < |s| && s[i] == a && s[j] == b;
    forall k, l | 0 <= k < l < |s| ensures !(s[k] == b && s[l] == a) {
      assert s[k] == b ==> s[k].file == s[j].file;
      assert s[l] == a ==> s[l].file == s[i].file;
    }
  }

  lemma EitherWay(s: seq<Entry>, a: Entry, b: Entry)
    requires a in s && b in s && a != b
    ensures Before(s, a, b) || Before(s, b, a)
  {
    var i :| 0 <= i < |s| && s[i] == a;
    var j :| 0 <= j < |s| && s[j] == b;
    if i < j { assert Before(s, a, b); } else { assert Before(s, b, a); }
  }

  /** Two lists of the same entries that differ have two of them in different order. */
  lemma {:induction false} DifferentOrder(s: seq<Entry>, t: seq<Entry>) returns (a: Entry, b: Entry)
    requires NoRepeats(s) && NoRepeats(t) && s != t && forall e :: e in s <==> e in t
    ensures Before(s, a, b) && Before(t, b, a)
  {
    assert s != [] ==> s[0] in t;
    assert t != [] ==> t[0] in s;
    if s[0] != t[0] {
      a, b := s[0], t[0];
      var i :| 0 <= i < |s| && s[i] == b;
      var j :| 0 <= j < |t| && t[j] == a;
      assert 0 < i && 0 < j;
    } else {
      RestAlike(s, t);
      a, b := DifferentOrder(s[1..], t[1..]);
      BeforeHead(s[0], s[1..], a, b);
      BeforeHead(t[0], t[1..], b, a);
      assert s == [s[0]] + s[1..] && t == [t[0]] + t[1..];
    }
  }

  lemma RestAlike(s: seq<Entry>, t: seq<Entry>)
    requires NoRepeats(s) && NoRepeats(t) && s != [] && t != [] && s[0] == t[0] && forall e :: e in s <==> e in t
    ensures NoRepeats(s[1..]) && NoRepeats(t[1..]) && forall e :: e in s[1..] <==> e in t[1..]
  {
    forall e | true ensures e in s[1..] <==> e in s && e != s[0] {
      if e in s[1..] {
        var k :| 0 <= k < |s[1..]| && s[1..][k] == e;
        assert s[k + 1] == e && s[0].file != s[k + 1].file;
      }
      assert s == [s[0]] + s[1..];
    }
    forall e | true ensures e in t[1..] <==> e in t && e != t[0] {
      if e in t[1..] {
        var k :| 0 <= k < |t[1..]| && t[1..][k] == e;
        assert t[k + 1] == e && t[0].file != t[k + 1].file;
      }
      assert t == [t[0]] + t[1..];
    }
  }

  // ── Order under the stable sort ─────────────────────────────────────────

  ghost predicate Ascending(rows: seq<Entry>) {
    forall i, j :: 0 <= i < j < |rows| ==> rows[i].at <= rows[j].at
  }

  lemma {:induction false} PlaceAscending(rows: seq<Entry>, e: Entry)
    requires Ascending(rows)
    ensures Ascending(Place(rows, e))
  {
    if rows != [] && rows[0].at <= e.at {
      PlaceAscending(rows[1..], e);
      PlaceElements(rows[1..], e);
      var rest := Place(rows[1..], e);
      assert forall k :: 0 <= k < |rest| ==> rest[k] in rest;
    }
  }

  lemma {:induction false} SortAscending(rows: seq<Entry>)
    ensures Ascending(Sort(rows))
  {
    if rows != [] {
      SortAscending(rows[..|rows| - 1]);
      PlaceAscending(Sort(rows[..|rows| - 1]), rows[|rows| - 1]);
    }
  }

  lemma {:induction false} PlaceNoRepeats(rows: seq<Entry>, e: Entry)
    requires NoRepeats(rows) && forall x :: x in rows ==> x.file != e.file
    ensures NoRepeats(Place(rows, e))
  {
    if rows != [] && rows[0].at <= e.at {
      PlaceNoRepeats(rows[1..], e);
      PlaceElements(rows[1..], e);
      var rest := Place(rows[1..], e);
      forall k | 0 <= k < |rest| ensures rest[k].file != rows[0].file {
        assert rest[k] in rest;
      }
    }
  }

  lemma {:induction false} SortNoRepeats(rows: seq<Entry>)
    requires NoRepeats(rows)
    ensures NoRepeats(Sort(rows))
  {
    if rows != [] {
      SortNoRepeats(rows[..|rows| - 1]);
      SortElements(rows[..|rows| - 1]);
      PlaceNoRepeats(Sort(rows[..|rows| - 1]), rows[|rows| - 1]);
    }
  }

  lemma {:induction false} PlaceKeeps(rows: seq<Entry>, e: Entry, a: Entry, b: Entry)
    requires Before(rows, a, b)
    ensures Before(Place(rows, e), a, b)
  {
    assert rows == [rows[0]] + rows[1..];
    BeforeHead(rows[0], rows[1..], a, b);
    if rows[0].at <= e.at {
      BeforeHead(rows[0], Place(rows[1..], e), a, b);
      PlaceElements(rows[1..], e);
      if Before(rows[1..], a, b) { PlaceKeeps(rows[1..], e, a, b); }
    } else {
      BeforeHead(e, rows, a, b);
    }
  }

  lemma {:induction false} PlaceBehind(rows: seq<Entry>, e: Entry, a: Entry)
    requires Ascending(rows) && a in rows && a.at <= e.at
    ensures Before(Place(rows, e), a, e)
  {
    assert rows == [rows[0]] + rows[1..];
    BeforeHead(rows[0], Place(rows[1..], e), a, e);
    PlaceElements(rows[1..], e);
    if a in rows[1..] && rows[0].at <= e.at {
      PlaceBehind(rows[1..], e, a);
    }
  }

  /** The sort is stable. */
  lemma {:induction false} SortKeeps(rows: seq<Entry>, a: Entry, b: Entry)
    requires Before(rows, a, b) && a.at <= b.at
    ensures Before(Sort(rows), a, b)
  {
    var init, last := rows[..|rows| - 1], rows[|rows| - 1];
    assert rows == init + [last];
    BeforeLast(init, last, a, b);
    if Before(init, a, b) {
      SortKeeps(init, a, b);
      PlaceKeeps(Sort(init), last, a, b);
    } else {
      SortElements(init);
      SortAscending(init);
      PlaceBehind(Sort(init), last, a);
    }
  }

  // ── Order under the merge ───────────────────────────────────────────────

  lemma {:induction false} WithoutBefore(rows: seq<Entry>, f: StreamFile, a: Entry, b: Entry)
    requires a.file != f && b.file != f
    ensures Before(Without(rows, f), a, b) <==> Before(rows, a, b)
  {
    if rows != [] {
      WithoutBefore(rows[1..], f, a, b);
      WithoutElements(rows[1..], f);
      assert rows == [rows[0]] + rows[1..];
      BeforeHead(rows[0], rows[1..], a, b);
      BeforeHead(rows[0], Without(rows[1..], f), a, b);
      assert [] + Without(rows[1..], f) == Without(rows[1..], f);
    }
  }

  /** A stream read last goes last; it moves no other. */
  lemma MergeRunOrder(acc: seq<Entry>, e: Entry, a: Entry, b: Entry)
    requires a.file != b.file && (e.file == a.file ==> e == a) && (e.file == b.file ==> e == b)
    ensures e == a ==> !Before(MergeRun(acc, e), a, b)
    ensures e == b ==> (Before(MergeRun(acc, e), a, b) <==> a in acc)
    ensures e != a && e != b ==> (Before(MergeRun(acc, e), a, b) <==> Before(acc, a, b))
  {
    WithoutElements(acc, e.file);
    BeforeLast(Without(acc, e.file), e, a, b);
    if e != a && e != b {
      WithoutBefore(acc, e.file, a, b);
    }
    if e == a {
      NotBefore(Without(acc, e.file), a, b);
    }
    if e == b {
      NotBehind(Without(acc, e.file), a, b);
    }
  }

  lemma NotBefore(s: seq<Entry>, a: Entry, b: Entry)
    requires a !in s
    ensures !Before(s, a, b)
  {
  }

  lemma NotBehind(s: seq<Entry>, a: Entry, b: Entry)
    requires b !in s
    ensures !Before(s, a, b)
  {
  }

  /** A volume puts last the one of two streams that it lists last. */
  lemma {:induction false} MergeRunsPut(acc: seq<Entry>, runs: seq<Entry>, a: Entry, b: Entry, all: set<Entry>)
    requires NoRepeats(acc) && Coherent(all) && forall x :: x in acc || x in runs ==> x in all
    requires a in all && b in all && a != b && LastOf(runs, b, a) && (a in acc || a in runs)
    ensures Before(MergeRuns(acc, runs), a, b)
  {
    var init, last := runs[..|runs| - 1], runs[|runs| - 1];
    assert runs == init + [last];
    MergeRunsElements(acc, init, all);
    MergeRunOrder(MergeRuns(acc, init), last, a, b);
    if last != b {
      MergeRunsPut(acc, init, a, b, all);
    }
  }

  /** And only a volume that lists one of them changes their order. */
  lemma {:induction false} MergeRunsFound(acc: seq<Entry>, runs: seq<Entry>, a: Entry, b: Entry, all: set<Entry>)
    requires Coherent(all) && (forall x :: x in runs ==> x in all) && a in all && b in all && a != b
    requires Before(MergeRuns(acc, runs), a, b)
    ensures LastOf(runs, b, a) || Before(acc, a, b)
  {
    if runs != [] {
      var init, last := runs[..|runs| - 1], runs[|runs| - 1];
      assert runs == init + [last];
      MergeRunOrder(MergeRuns(acc, init), last, a, b);
      if last != b {
        MergeRunsFound(acc, init, a, b, all);
      }
    }
  }

  /** Some volume lists `a` last of the two. */
  ghost predicate PutLast(ms: seq<Index>, ds: Dataset, a: Entry, b: Entry) {
    exists k :: 0 <= k < |ms| && LastOf(Rows(ms[k], ds), a, b)
  }

  lemma {:induction false} GatherFound(ms: seq<Index>, ds: Dataset, a: Entry, b: Entry, all: set<Entry>)
    requires Told(ms, ds, all) && a in all && b in all && a != b && Before(Gather(ms, ds), a, b)
    ensures PutLast(ms, ds, b, a)
  {
    var init, last := ms[..|ms| - 1], ms[|ms| - 1];
    assert ms == init + [last];
    forall e | Offered(init, ds, e) || e in Rows(last, ds) ensures e in all {
      OfferedNext(init, last, ds, e);
    }
    MergeRunsFound(Gather(init, ds), Rows(last, ds), a, b, all);
    if LastOf(Rows(last, ds), b, a) {
      assert LastOf(Rows(ms[|ms| - 1], ds), b, a);
    } else {
      GatherFound(init, ds, a, b, all);
      var k :| 0 <= k < |init| && LastOf(Rows(init[k], ds), b, a);
      assert ms[k] == init[k];
    }
  }

  /** Reading volume k once more at the end puts its choice last. */
  lemma ReadAgain(ms: seq<Index>, k: nat, ds: Dataset, a: Entry, b: Entry, all: set<Entry>)
    requires Told(ms, ds, all) && k < |ms| && LastOf(Rows(ms[k], ds), b, a) && a != b
    requires Offered(ms, ds, a) && Offered(ms, ds, b)
    ensures SameVolumes(ms, ms + [ms[k]]) && Before(Gather(ms + [ms[k]], ds), a, b)
  {
    GatherElements(ms, ds, all);
    assert (ms + [ms[k]])[..|ms|] == ms;
    forall x | x in Rows(ms[k], ds) ensures x in all {
      assert Offered(ms, ds, x);
    }
    MergeRunsPut(Gather(ms, ds), Rows(ms[k], ds), a, b, all);
  }

  lemma LastOfIn(rows: seq<Entry>, a: Entry, b: Entry)
    requires LastOf(rows, a, b)
    ensures a in rows
  {
  }

  lemma PutLastOffered(ms: seq<Index>, ds: Dataset, a: Entry, b: Entry)
    requires PutLast(ms, ds, a, b)
    ensures Offered(ms, ds, a)
  {
    var k :| 0 <= k < |ms| && LastOf(Rows(ms[k], ds), a, b);
    LastOfIn(Rows(ms[k], ds), a, b);
  }

  // ── When it shows ───────────────────────────────────────────────────────

  /** Two streams of one creation time, of which one volume has one last and another volume the other. */
  ghost predicate Clash(ms: seq<Index>, ds: Dataset, a: Entry, b: Entry) {
    a != b && a.at == b.at && PutLast(ms, ds, a, b) && PutLast(ms, ds, b, a)
  }

  ghost predicate Shows(ms: seq<Index>, ms': seq<Index>, ds: Dataset) {
    SameVolumes(ms, ms') && Merged(ms', ds) != Merged(ms, ds)
  }

  lemma ToldAlike(ms: seq<Index>, ms': seq<Index>, ds: Dataset, all: set<Entry>)
    requires Told(ms, ds, all) && SameVolumes(ms, ms')
    ensures Told(ms', ds, all)
  {
    OfferedAlike(ms, ms', ds);
  }

  lemma PutLastAlike(ms: seq<Index>, ms': seq<Index>, ds: Dataset, a: Entry, b: Entry)
    requires SameVolumes(ms, ms') && PutLast(ms', ds, a, b)
    ensures PutLast(ms, ds, a, b)
  {
    var k :| 0 <= k < |ms'| && LastOf(Rows(ms'[k], ds), a, b);
    assert ms'[k] in ms;
    var l :| 0 <= l < |ms| && ms[l] == ms'[k];
  }

  lemma MergedMembers(ms: seq<Index>, ds: Dataset, all: set<Entry>)
    requires Told(ms, ds, all)
    ensures NoRepeats(Merged(ms, ds)) && Ascending(Merged(ms, ds))
    ensures forall e :: e in Merged(ms, ds) <==> Offered(ms, ds, e)
  {
    GatherElements(ms, ds, all);
    SortNoRepeats(Gather(ms, ds));
    SortElements(Gather(ms, ds));
    SortAscending(Gather(ms, ds));
  }

  /** Merged streams of one time stand in the order they were gathered in. */
  lemma MergedOrder(ms: seq<Index>, ds: Dataset, a: Entry, b: Entry, all: set<Entry>)
    requires Told(ms, ds, all) && a != b && a.at == b.at && Offered(ms, ds, a) && Offered(ms, ds, b)
    ensures Before(Merged(ms, ds), a, b) <==> Before(Gather(ms, ds), a, b)
  {
    MergedMembers(ms, ds, all);
    GatherElements(ms, ds, all);
    EitherWay(Gather(ms, ds), a, b);
    if Before(Gather(ms, ds), a, b) {
      SortKeeps(Gather(ms, ds), a, b);
    } else {
      SortKeeps(Gather(ms, ds), b, a);
      OneWay(Merged(ms, ds), b, a);
    }
  }

  lemma MergedFound(ms: seq<Index>, ds: Dataset, a: Entry, b: Entry, all: set<Entry>)
    requires Told(ms, ds, all) && a != b && a.at == b.at && Offered(ms, ds, a) && Offered(ms, ds, b)
    requires Before(Merged(ms, ds), a, b)
    ensures PutLast(ms, ds, b, a)
  {
    MergedOrder(ms, ds, a, b, all);
    GatherFound(ms, ds, a, b, all);
  }

  lemma BothIn(s: seq<Entry>, a: Entry, b: Entry)
    requires Before(s, a, b)
    ensures a in s && b in s && (NoRepeats(s) ==> a != b) && (Ascending(s) ==> a.at <= b.at)
  {
  }

  lemma ShowsClash(ms: seq<Index>, ms': seq<Index>, ds: Dataset, all: set<Entry>) returns (a: Entry, b: Entry)
    requires Told(ms, ds, all) && Shows(ms, ms', ds)
    ensures Clash(ms, ds, a, b)
  {
    ToldAlike(ms, ms', ds, all);
    OfferedAlike(ms, ms', ds);
    MergedMembers(ms, ds, all);
    MergedMembers(ms', ds, all);
    a, b := DifferentOrder(Merged(ms, ds), Merged(ms', ds));
    BothIn(Merged(ms, ds), a, b);
    BothIn(Merged(ms', ds), b, a);
    MergedFound(ms, ds, a, b, all);
    MergedFound(ms', ds, b, a, all);
    PutLastAlike(ms, ms', ds, a, b);
  }

  /** Reading the volume that has `b` last once more ends with `b` behind `a`. */
  lemma PutBehind(ms: seq<Index>, ds: Dataset, a: Entry, b: Entry, all: set<Entry>) returns (ms': seq<Index>)
    requires Told(ms, ds, all) && a != b && a.at == b.at && Offered(ms, ds, a) && PutLast(ms, ds, b, a)
    ensures SameVolumes(ms, ms') && Before(Merged(ms', ds), a, b) && !Before(Merged(ms', ds), b, a)
  {
    PutLastOffered(ms, ds, b, a);
    var k :| 0 <= k < |ms| && LastOf(Rows(ms[k], ds), b, a);
    ReadAgain(ms, k, ds, a, b, all);
    ms' := ms + [ms[k]];
    ToldAlike(ms, ms', ds, all);
    OfferedAlike(ms, ms', ds);
    MergedOrder(ms', ds, a, b, all);
    MergedMembers(ms', ds, all);
    OneWay(Merged(ms', ds), a, b);
  }

  lemma ClashShows(ms: seq<Index>, ds: Dataset, a: Entry, b: Entry, all: set<Entry>) returns (ms': seq<Index>)
    requires Told(ms, ds, all) && Clash(ms, ds, a, b)
    ensures Shows(ms, ms', ds)
  {
    PutLastOffered(ms, ds, a, b);
    PutLastOffered(ms, ds, b, a);
    ms' := PutBehind(ms, ds, a, b, all);
    if Merged(ms', ds) == Merged(ms, ds) {
      ms' := PutBehind(ms, ds, b, a, all);
    }
  }

  /**
   * Reading the same volumes in another order, or some of them again, can change the merged runs of a
   * dataset exactly when two streams of one creation time are listed in different orders by two volumes,
   * each alone on its volume being such an order.
   */
  lemma ReadingOrderShowsExactly(ms: seq<Index>, ds: Dataset, all: set<Entry>)
    requires Told(ms, ds, all)
    ensures (exists ms' :: Shows(ms, ms', ds)) <==> exists a, b :: Clash(ms, ds, a, b)
  {
    if ms' :| Shows(ms, ms', ds) {
      var a, b := ShowsClash(ms, ms', ds, all);
    }
    if a, b :| Clash(ms, ds, a, b) {
      var ms' := ClashShows(ms, ds, a, b, all);
    }
  }

  /** Two volumes with a stream each, of one creation time: the one read first comes first. */
  lemma ReadingOrderShows(a: Entry, b: Entry)
    requires a.file != b.file && a.at == b.at
    ensures var v, w := map["d" := [a]], map["d" := [b]]; Merged([v, w], "d") == [a, b] && Merged([w, v], "d") == [b, a]
  {
    OneAfterOther(a, b);
    OneAfterOther(b, a);
  }

  lemma OneAfterOther(a: Entry, b: Entry)
    requires a.file != b.file && a.at == b.at
    ensures Merged([map["d" := [a]], map["d" := [b]]], "d") == [a, b]
  {
    var v, w := map["d" := [a]], map["d" := [b]];
    hide Gather, MergeRuns, Sort;
    NothingGathered();
    OneMore([], v, a);
    OneMore([v], w, b);
    OneMerged([], a);
    OneMerged([a], b);
    assert [] + [v] == [v] && [v] + [w] == [v, w] && [] + [a] == [a] && [a] + [b] == [a, b];
    SortedPair(a, b);
  }

  lemma NothingGathered()
    ensures Gather([], "d") == []
  {
  }

  lemma {:induction false} OneMore(ms: seq<Index>, v: Index, e: Entry)
    requires v == map["d" := [e]]
    ensures Gather(ms + [v], "d") == MergeRuns(Gather(ms, "d"), [e])
  {
    assert (ms + [v])[..|ms|] == ms;
  }

  lemma {:induction false} SortedPair(a: Entry, b: Entry)
    requires a.at == b.at
    ensures Sort([a, b]) == [a, b]
  {
    assert [a, b][..1] == [a] && [a][..0] == [];
    assert Sort([a]) == [a];
    assert [a][1..] == [] && Place([], b) == [b] && [a] + [b] == [a, b];
    assert Place([a], b) == [a, b];
  }

  lemma {:induction false} OneMerged(acc: seq<Entry>, e: Entry)
    requires |acc| <= 1 && (acc != [] ==> acc[0].file != e.file)
    ensures MergeRuns(acc, [e]) == acc + [e]
  {
    assert [e][..0] == [] && MergeRuns(acc, []) == acc;
    if acc != [] {
      assert acc == [acc[0]] && acc[1..] == [] && Without([], e.file) == [];
      assert Without(acc, e.file) == acc;
    }
  }

  lemma {:induction false} AloneIsLast(rows: seq<Entry>, a: Entry, b: Entry)
    requires a in rows && b !in rows
    ensures LastOf(rows, a, b)
  {
    assert rows == rows[..|rows| - 1] + [rows[|rows| - 1]];
    if rows[|rows| - 1] != a { AloneIsLast(rows[..|rows| - 1], a, b); }
  }

  lemma AloneSomewhere(ms: seq<Index>, ds: Dataset, a: Entry, b: Entry)
    requires (forall k :: 0 <= k < |ms| ==> Strict(Rows(ms[k], ds))) && a != b && a.at == b.at && Offered(ms, ds, a)
    ensures PutLast(ms, ds, a, b)
  {
    var k :| 0 <= k < |ms| && a in Rows(ms[k], ds);
    AloneIsLast(Rows(ms[k], ds), a, b);
  }

  /** On volumes that list their streams in strict creation order, any two streams of one time clash. */
  lemma StrictClash(ms: seq<Index>, ds: Dataset, a: Entry, b: Entry)
    requires forall k :: 0 <= k < |ms| ==> Strict(Rows(ms[k], ds))
    ensures Clash(ms, ds, a, b) <==> a != b && a.at == b.at && Offered(ms, ds, a) && Offered(ms, ds, b)
  {
    if a != b && a.at == b.at && Offered(ms, ds, a) && Offered(ms, ds, b) {
      AloneSomewhere(ms, ds, a, b);
      AloneSomewhere(ms, ds, b, a);
    }
    if Clash(ms, ds, a, b) {
      PutLastOffered(ms, ds, a, b);
      PutLastOffered(ms, ds, b, a);
    }
  }
}

/** The volume index of nazman/utils/backup_manifest.py and the sidecars it can be rebuilt from. */
module Manifest {
  import opened Streams

  /** The `datasets` list of an aggregate manifest, keyed by dataset name. */
  type Index = map<Dataset, seq<Entry>>

  /** The backup content of one medium. `index` is None when the aggregate file is absent or invalid. */
  datatype Volume = Volume(
    streams: map<StreamFile, Stream>, index: Option<Index>, sidecars: map<StreamFile, Entry>)

  function Rows(m: Index, ds: Dataset): seq<Entry> {
    if ds in m then m[ds] else []
  }

  // ── Lists of entries ────────────────────────────────────────────────────

  function Without(rows: seq<Entry>, f: StreamFile): seq<Entry> {
    if rows == [] then []
    else (if rows[0].file == f then [] else [rows[0]]) + Without(rows[1..], f)
  }

  /** Where a stable sort by creation time puts an entry that came last. */
  function Place(rows: seq<Entry>, e: Entry): seq<Entry> {
    if rows == [] then [e]
    else if rows[0].at <= e.at then [rows[0]] + Place(rows[1..], e)
    else [e] + rows
  }

  /** The stable sort by creation time. */
  function Sort(rows: seq<Entry>): seq<Entry> {
    if rows == [] then [] else Place(Sort(rows[..|rows| - 1]), rows[|rows| - 1])
  }

  ghost predicate Strict(rows: seq<Entry>) {
    forall i, j :: 0 <= i < j < |rows| ==> rows[i].at < rows[j].at
  }

  /** Different entries of the list were created at different times; each entry occurs once. */
  ghost predicate DistinctTimes(rows: seq<Entry>) {
    forall i, j :: 0 <= i < j < |rows| ==> rows[i].at != rows[j].at
  }

  lemma {:induction false} WithoutElements(rows: seq<Entry>, f: StreamFile)
    ensures forall x :: x in Without(rows, f) <==> x in rows && x.file != f
  {
    if rows != [] {
      WithoutElements(rows[1..], f);
      assert rows == [rows[0]] + rows[1..];
    }
  }

  lemma {:induction false} WithoutStrict(rows: seq<Entry>, f: StreamFile)
    requires Strict(rows)
    ensures Strict(Without(rows, f))
  {
    if rows != [] {
      WithoutStrict(rows[1..], f);
      WithoutElements(rows[1..], f);
      var rest := Without(rows[1..], f);
      assert forall k :: 0 <= k < |rest| ==> rest[k] in rest;
    }
  }

  lemma {:induction false} PlaceElements(rows: seq<Entry>, e: Entry)
    ensures forall x :: x in Place(rows, e) <==> x in rows || x == e
  {
    if rows != [] {
      PlaceElements(rows[1..], e);
      assert rows == [rows[0]] + rows[1..];
    }
  }

  lemma {:induction false} PlaceStrict(rows: seq<Entry>, e: Entry)
    requires Strict(rows) && forall x :: x in rows ==> x.at != e.at
    ensures Strict(Place(rows, e))
  {
    if rows != [] && rows[0].at <= e.at {
      assert rows[0] in rows;
      PlaceStrict(rows[1..], e);
      PlaceElements(rows[1..], e);
      var rest := Place(rows[1..], e);
      assert forall k :: 0 <= k < |rest| ==> rest[k] in rest;
    }
  }

  lemma {:induction false} SortElements(rows: seq<Entry>)
    ensures forall x :: x in Sort(rows) <==> x in rows
  {
    if rows != [] {
      var init, last := rows[..|rows| - 1], rows[|rows| - 1];
      SortElements(init);
      PlaceElements(Sort(init), last);
      assert rows == init + [last];
    }
  }

  lemma {:induction false} SortStrict(rows: seq<Entry>)
    requires DistinctTimes(rows)
    ensures Strict(Sort(rows))
  {
    if rows != [] {
      var init, last := rows[..|rows| - 1], rows[|rows| - 1];
      SortStrict(init);
      SortElements(init);
      PlaceStrict(Sort(init), last);
    }
  }

  /** A list in strictly increasing time order is determined by its elements. */
  lemma {:induction false} Canonical(a: seq<Entry>, b: seq<Entry>)
    requires Strict(a) && Strict(b)
    requires forall x :: x in a <==> x in b
    ensures a == b
  {
    assert |a| > 0 ==> a[0] in a;
    assert |b| > 0 ==> b[0] in b;
    if |a| > 0 && |b| > 0 {
      forall x | true ensures x in a[1..] <==> x in b[1..] {
        assert x in a <==> x == a[0] || x in a[1..];
        assert x in b <==> x == b[0] || x in b[1..];
      }
      Canonical(a[1..], b[1..]);
    }
  }

  /** Sorting a list that is already in strict order changes nothing. */
  lemma SortIdempotent(rows: seq<Entry>)
    requires Strict(rows)
    ensures Sort(rows) == rows
  {
    SortStrict(rows);
    SortElements(rows);
    Canonical(Sort(rows), rows);
  }

  // ── Index operations ────────────────────────────────────────────────────

  /** Replace the entry for the same stream, or add one, keeping creation order. */
  function UpsertRow(rows: seq<Entry>, e: Entry): seq<Entry> {
    Sort(Without(rows, e.file) + [e])
  }

  function Upsert(m: Index, ds: Dataset, e: Entry): Index {
    m[ds := UpsertRow(Rows(m, ds), e)]
  }

  /** A sidecar that names no dataset is ignored. */
  function MergeSidecar(m: Index, e: Entry): Index {
    if e.file.ds != "" then Upsert(m, e.file.ds, e) else m
  }

  function Fold(m: Index, sides: seq<Entry>): Index
    decreases |sides|
  {
    if sides == [] then m else Fold(MergeSidecar(m, sides[0]), sides[1..])
  }

  /** The part of a fold that touches one dataset's list. */
  function FoldRow(rows: seq<Entry>, ds: Dataset, sides: seq<Entry>): seq<Entry>
    decreases |sides|
  {
    if sides == [] then rows
    else FoldRow(if sides[0].file.ds == ds then UpsertRow(rows, sides[0]) else rows, ds, sides[1..])
  }

  lemma {:induction false} FoldByDataset(m: Index, ds: Dataset, sides: seq<Entry>)
    requires ds != ""
    ensures Rows(Fold(m, sides), ds) == FoldRow(Rows(m, ds), ds, sides)
    decreases |sides|
  {
    if sides != [] {
      FoldByDataset(MergeSidecar(m, sides[0]), ds, sides[1..]);
    }
  }

  lemma {:induction false} FoldKeys(m: Index, sides: seq<Entry>)
    requires forall x :: x in sides ==> x.file.ds != ""
    ensures Fold(m, sides).Keys == m.Keys + (set x | x in sides :: x.file.ds)
    decreases |sides|
  {
    if sides != [] {
      assert sides == [sides[0]] + sides[1..];
      FoldKeys(MergeSidecar(m, sides[0]), sides[1..]);
    }
  }

  /** The sidecars of a volume, listed in the order a directory walk meets them. */
  ghost predicate Lists(order: seq<Entry>, sidecars: map<StreamFile, Entry>) {
    && (forall x :: x in order ==> x in sidecars.Values)
    && (forall x :: x in sidecars.Values ==> x in order)
  }

  /** Every sidecar sits beside the stream it describes. */
  ghost predicate Beside(sidecars: map<StreamFile, Entry>) {
    forall f :: f in sidecars ==> sidecars[f].file == f && f.ds != ""
  }

  /** Two descriptions of one stream agree, and two streams of a dataset differ in creation time. */
  ghost predicate Compatible(a: Entry, b: Entry) {
    a.file.ds == b.file.ds && (a.file == b.file || a.at == b.at) ==> a == b
  }

  ghost predicate AllCompatible(es: set<Entry>) {
    forall a, b :: a in es && b in es ==> Compatible(a, b)
  }

  /** A list of one dataset's streams in strict creation order. */
  ghost predicate GoodRow(rows: seq<Entry>, ds: Dataset) {
    Strict(rows) && forall x :: x in rows ==> x.file.ds == ds
  }

  lemma UpsertRowElements(rows: seq<Entry>, e: Entry)
    ensures forall x :: x in UpsertRow(rows, e) <==> x == e || (x in rows && x.file != e.file)
  {
    WithoutElements(rows, e.file);
    SortElements(Without(rows, e.file) + [e]);
  }

  lemma UpsertRowGood(rows: seq<Entry>, ds: Dataset, e: Entry)
    requires GoodRow(rows, ds) && e.file.ds == ds
    requires forall x :: x in rows && x.file != e.file ==> x.at != e.at
    ensures GoodRow(UpsertRow(rows, e), ds)
  {
    var kept := Without(rows, e.file);
    WithoutStrict(rows, e.file);
    WithoutElements(rows, e.file);
    assert forall k :: 0 <= k < |kept| ==> kept[k] in kept;
    SortStrict(kept + [e]);
    UpsertRowElements(rows, e);
  }

  /** Folding compatible sidecars into a dataset's list yields their union in creation order. */
  lemma {:induction false} FoldRowUnion(rows: seq<Entry>, ds: Dataset, sides: seq<Entry>, all: set<Entry>)
    requires GoodRow(rows, ds) && AllCompatible(all)
    requires forall x :: x in rows || x in sides ==> x in all
    ensures GoodRow(FoldRow(rows, ds, sides), ds)
    ensures forall x :: x in FoldRow(rows, ds, sides) <==> x in rows || (x in sides && x.file.ds == ds)
    decreases |sides|
  {
    if sides != [] {
      var e, rest := sides[0], sides[1..];
      assert sides == [e] + rest;
      if e.file.ds == ds {
        assert forall x :: x in rows ==> Compatible(x, e);
        UpsertRowElements(rows, e);
        UpsertRowGood(rows, ds, e);
        FoldRowUnion(UpsertRow(rows, e), ds, rest, all);
      } else {
        FoldRowUnion(rows, ds, rest, all);
      }
    }
  }

  // ── Volumes ─────────────────────────────────────────────────────────────

  function Base(v: Volume): Index {
    if v.index.Some? then v.index.value else map[]
  }

  /** The aggregate index with the sidecars folded in, or rebuilt from them when it is lost. */
  function Scan(v: Volume, order: seq<Entry>): Index {
    Fold(Base(v), order)
  }

  function Build(order: seq<Entry>): Index {
    Fold(map[], order)
  }

  /** Some order in which a directory walk can meet the sidecars. */
  ghost function Walk(sidecars: map<StreamFile, Entry>): (order: seq<Entry>)
    ensures Lists(order, sidecars)
    decreases |sidecars|
  {
    if sidecars == map[] then []
    else
      var f :| f in sidecars;
      var rest := sidecars - {f};
      assert sidecars.Values == rest.Values + {sidecars[f]} by {
        assert forall g :: g in sidecars <==> g == f || g in rest;
      }
      [sidecars[f]] + Walk(rest)
  }

  /** Everything a volume says about a dataset, on either side. */
  ghost predicate Says(v: Volume, ds: Dataset, x: Entry) {
    x in Rows(Base(v), ds) || (x in v.sidecars.Values && x.file.ds == ds)
  }

  /** A volume whose index and sidecars are each sound and do not contradict one another. */
  ghost predicate SoundVolume(v: Volume, all: set<Entry>) {
    && AllCompatible(all)
    && Beside(v.sidecars)
    && v.sidecars.Values <= all
    && (forall ds :: ds in Base(v) ==>
          ds != "" && GoodRow(Base(v)[ds], ds) && forall x :: x in Base(v)[ds] ==> x in all)
  }

  lemma BesideNamed(sidecars: map<StreamFile, Entry>, order: seq<Entry>)
    requires Beside(sidecars) && Lists(order, sidecars)
    ensures forall x :: x in order ==> x.file.ds != ""
  {
    forall x | x in order ensures x.file.ds != "" {
      assert x in sidecars.Values;
      var f :| f in sidecars && sidecars[f] == x;
    }
  }

  /** `scan_volume` returns the union of the two sides, in creation order, whichever is ahead. */
  lemma ScanIsUnion(v: Volume, order: seq<Entry>, all: set<Entry>, ds: Dataset)
    requires SoundVolume(v, all) && Lists(order, v.sidecars)
    ensures GoodRow(Rows(Scan(v, order), ds), ds)
    ensures forall x :: x in Rows(Scan(v, order), ds) <==> Says(v, ds, x)
    ensures ds == "" ==> ds !in Scan(v, order)
  {
    BesideNamed(v.sidecars, order);
    FoldKeys(Base(v), order);
    if ds != "" {
      FoldByDataset(Base(v), ds, order);
      FoldRowUnion(Rows(Base(v), ds), ds, order, all);
    } else {
      forall x | x in v.sidecars.Values ensures x.file.ds != "" {
        assert x in order;
      }
    }
  }

  /** Scanning twice is scanning once: saving the result and reading it back changes no list. */
  lemma ScanIdempotent(v: Volume, order: seq<Entry>, again: seq<Entry>, all: set<Entry>, ds: Dataset)
    requires SoundVolume(v, all) && Lists(order, v.sidecars) && Lists(again, v.sidecars)
    ensures Rows(Scan(v.(index := Some(Scan(v, order))), again), ds) == Rows(Scan(v, order), ds)
  {
    var saved := v.(index := Some(Scan(v, order)));
    forall d | d in Base(saved)
      ensures d != "" && GoodRow(Base(saved)[d], d) && forall x :: x in Base(saved)[d] ==> x in all
    {
      ScanIsUnion(v, order, all, d);
      assert Base(saved)[d] == Rows(Scan(v, order), d);
    }
    ScanIsUnion(v, order, all, ds);
    ScanIsUnion(saved, again, all, ds);
    Canonical(Rows(Scan(saved, again), ds), Rows(Scan(v, order), ds));
  }

  /** Whatever order the directory walk takes, the scan is the same index. */
  lemma ScanOrderIrrelevant(v: Volume, a: seq<Entry>, b: seq<Entry>, all: set<Entry>)
    requires SoundVolume(v, all) && Lists(a, v.sidecars) && Lists(b, v.sidecars)
    ensures Scan(v, a) == Scan(v, b)
  {
    BesideNamed(v.sidecars, a);
    BesideNamed(v.sidecars, b);
    FoldKeys(Base(v), a);
    FoldKeys(Base(v), b);
    assert (set x | x in a :: x.file.ds) == (set x | x in b :: x.file.ds);
    forall ds | ds in Scan(v, a) ensures Scan(v, a)[ds] == Scan(v, b)[ds] {
      ScanIsUnion(v, a, all, ds);
      ScanIsUnion(v, b, all, ds);
      Canonical(Rows(Scan(v, a), ds), Rows(Scan(v, b), ds));
    }
  }

  /** When every indexed stream has its sidecar, losing the index loses nothing. */
  lemma ScanSurvivesLosingIndex(v: Volume, order: seq<Entry>, again: seq<Entry>, all: set<Entry>, ds: Dataset)
    requires SoundVolume(v, all) && Lists(order, v.sidecars) && Lists(again, v.sidecars)
    requires forall x :: x in Rows(Base(v), ds) ==> x in v.sidecars.Values
    ensures Rows(Build(again), ds) == Rows(Scan(v, order), ds)
  {
    var bare := v.(index := None);
    ScanIsUnion(v, order, all, ds);
    ScanIsUnion(bare, again, all, ds);
    Canonical(Rows(Build(again), ds), Rows(Scan(v, order), ds));
  }

  // ── Recording a stream ──────────────────────────────────────────────────

  /** `_record_manifest`, completed: save the scanned index with the entry in it, then the sidecar. */
  function Record(v: Volume, e: Entry, order: seq<Entry>): Volume {
    v.(index := Some(Upsert(Scan(v, order), e.file.ds, e)), sidecars := v.sidecars[e.file := e])
  }

  ghost function RecordAll(v: Volume, es: seq<Entry>): Volume {
    if es == [] then v
    else
      var before := RecordAll(v, es[..|es| - 1]);
      Record(before, es[|es| - 1], Walk(before.sidecars))
  }

  /** The index lists exactly the sidecars of each dataset, in creation order. */
  ghost predicate Agree(v: Volume) {
    Beside(v.sidecars) && "" !in Base(v) && forall ds :: AgreeOn(v, ds)
  }

  ghost predicate AgreeOn(v: Volume, ds: Dataset) {
    && GoodRow(Rows(Base(v), ds), ds)
    && forall x :: x in Rows(Base(v), ds) <==> x in v.sidecars.Values && x.file.ds == ds
  }

  /** Different streams of a dataset were created at different times. */
  ghost predicate TimesDiffer(es: set<Entry>) {
    forall a, b :: a in es && b in es && a.file.ds == b.file.ds && a.at == b.at ==> a.file == b.file
  }

  lemma AgreeIsSound(v: Volume)
    requires Agree(v) && TimesDiffer(v.sidecars.Values)
    ensures SoundVolume(v, v.sidecars.Values)
  {
    var all := v.sidecars.Values;
    forall a, b | a in all && b in all ensures Compatible(a, b) {
      var f :| f in v.sidecars && v.sidecars[f] == a;
      var g :| g in v.sidecars && v.sidecars[g] == b;
    }
    forall ds | ds in Base(v)
      ensures ds != "" && GoodRow(Base(v)[ds], ds) && forall x :: x in Base(v)[ds] ==> x in all
    {
      assert AgreeOn(v, ds) && Base(v)[ds] == Rows(Base(v), ds);
    }
  }

  lemma SidecarReplaced(sidecars: map<StreamFile, Entry>, e: Entry)
    requires Beside(sidecars)
    ensures forall x :: x in sidecars[e.file := e].Values <==> x == e || (x in sidecars.Values && x.file != e.file)
  {
    var after := sidecars[e.file := e];
    assert after[e.file] == e;
    forall x | x in sidecars.Values && x.file != e.file ensures x in after.Values {
      var f :| f in sidecars && sidecars[f] == x;
      assert after[f] == x;
    }
  }

  lemma RecordAgreesOn(v: Volume, e: Entry, order: seq<Entry>, ds: Dataset)
    requires Agree(v) && Lists(order, v.sidecars) && e.file.ds != ""
    requires TimesDiffer(v.sidecars.Values + {e})
    ensures AgreeOn(Record(v, e, order), ds)
    ensures ds == "" ==> ds !in Base(Record(v, e, order))
  {
    assert TimesDiffer(v.sidecars.Values) && AgreeOn(v, ds);
    AgreeIsSound(v);
    ScanIsUnion(v, order, v.sidecars.Values, ds);
    SidecarReplaced(v.sidecars, e);
    var scanned := Rows(Scan(v, order), ds);
    if ds == e.file.ds {
      UpsertRowElements(scanned, e);
      UpsertRowGood(scanned, ds, e);
    } else {
      assert Rows(Base(Record(v, e, order)), ds) == scanned;
    }
  }

  lemma RecordAgrees(v: Volume, e: Entry, order: seq<Entry>)
    requires Agree(v) && Lists(order, v.sidecars) && e.file.ds != ""
    requires TimesDiffer(v.sidecars.Values + {e})
    ensures Agree(Record(v, e, order))
  {
    forall ds | true ensures AgreeOn(Record(v, e, order), ds) {
      RecordAgreesOn(v, e, order, ds);
    }
    RecordAgreesOn(v, e, order, "");
  }

  /** After any sequence of completed recordings, index and sidecars describe the same streams. */
  lemma {:induction false} RecordAllAgrees(v: Volume, es: seq<Entry>, all: set<Entry>)
    requires Agree(v) && TimesDiffer(all) && v.sidecars.Values <= all
    requires forall e :: e in es ==> e.file.ds != "" && e in all
    ensures Agree(RecordAll(v, es)) && RecordAll(v, es).sidecars.Values <= all
  {
    if es != [] {
      RecordAllAgrees(v, es[..|es| - 1], all);
      var before := RecordAll(v, es[..|es| - 1]);
      RecordAgrees(before, es[|es| - 1], Walk(before.sidecars));
      SidecarReplaced(before.sidecars, es[|es| - 1]);
    }
  }

  /** ... so the index saved on a volume and one rebuilt from its sidecars hold the same runs. */
  lemma IndexAgreesWithSidecars(es: seq<Entry>, streams: map<StreamFile, Stream>, order: seq<Entry>, ds: Dataset)
    requires forall e :: e in es ==> e.file.ds != ""
    requires TimesDiffer(set e | e in es)
    requires Lists(order, RecordAll(Volume(streams, None, map[]), es).sidecars)
    ensures Rows(Base(RecordAll(Volume(streams, None, map[]), es)), ds) == Rows(Build(order), ds)
  {
    var v := RecordAll(Volume(streams, None, map[]), es);
    RecordAllAgrees(Volume(streams, None, map[]), es, set e | e in es);
    AgreeIsSound(v);
    assert AgreeOn(v, ds);
    ScanIsUnion(v, order, v.sidecars.Values, ds);
    ScanSurvivesLosingIndex(v, order, order, v.sidecars.Values, ds);
    Canonical(Rows(Base(v), ds), Rows(Build(order), ds));
  }

  // ── The mutable manifest ────────────────────────────────────────────────

  /** An aggregate manifest in memory, updated in place as the writer does. */
  class Aggregate {
    var datasets: Index

    constructor (start: Index)
      ensures datasets == start
    {
      datasets := start;
    }

    /** Filter out the entry of the same stream, append the new one, sort by creation time. */
    method UpsertDatasetBackup(ds: Dataset, e: Entry)
      modifies this
      ensures datasets == Upsert(old(datasets), ds, e)
    {
      var runs := if ds in datasets then datasets[ds] else [];
      runs := Without(runs, e.file);
      runs := runs + [e];
      datasets := datasets[ds := Sort(runs)];
    }

    /** Fold every sidecar met by the directory walk into the manifest. */
    method FoldSidecars(order: seq<Entry>)
      modifies this
      ensures datasets == Fold(old(datasets), order)
    {
      var k := 0;
      while k < |order|
        invariant 0 <= k <= |order|
        invariant Fold(datasets, order[k..]) == Fold(old(datasets), order)
      {
        if order[k].file.ds != "" {
          UpsertDatasetBackup(order[k].file.ds, order[k]);
        }
        k := k + 1;
      }
    }
  }

  method BuildFromSidecars(order: seq<Entry>) returns (m: Index)
    ensures m == Build(order)
  {
    var manifest := new Aggregate(map[]);
    manifest.FoldSidecars(order);
    m := manifest.datasets;
  }

  /** The directory walk over the sidecars of a volume. */
  method ListSidecars(v: Volume) returns (order: seq<Entry>)
    ensures Lists(order, v.sidecars)
  {
    order := [];
    var rest := v.sidecars.Values;
    while rest != {}
      invariant rest <= v.sidecars.Values
      invariant forall x :: x in order <==> x in v.sidecars.Values && x !in rest
      decreases |rest|
    {
      var x :| x in rest;
      order := order + [x];
      rest := rest - {x};
    }
  }

  /** The index is authoritative when present; otherwise it is rebuilt. */
  method ScanVolume(v: Volume, order: seq<Entry>) returns (m: Index)
    ensures m == Scan(v, order)
  {
    if v.index.None? {
      m := BuildFromSidecars(order);
      return;
    }
    var manifest := new Aggregate(v.index.value);
    manifest.FoldSidecars(order);
    m := manifest.datasets;
  }
}

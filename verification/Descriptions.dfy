/**
 * What the entries on the media say, field by field: of the stream beside them, and of the chain they are part
 * of (nazman/managers/zfs_backup_manager.py, nazman/services/system_restore.py).
 */
module Descriptions {
  import opened Streams
  import opened Manifest
  import opened Protocol
  import opened Invariants
  import opened Safety
  import opened Restore
  import opened EndToEnd

  /**
   * In every reachable state, every entry a medium holds is of a stream that lies there under the name the
   * entry gives, whole, from the base to the snapshot the entry names; the snapshot is still in the pool.
   */
  lemma HeldIsTrue(w: World, d: DiskId, e: Entry)
    requires Reachable(w) && d in w.volumes && Holds(w.volumes[d], e)
    ensures e.file == StreamFile(e.snap.ds, e.kind, e.snap.ts)
    ensures e.file in w.volumes[d].streams && w.volumes[d].streams[e.file] == Complete(e.base, e.snap)
    ensures e.snap in w.pool && e.media == d && d in w.owner && e.set_ == w.owner[d]
    ensures e.kind.Full? ==> e.base.None? && e.fullAnchor.None?
    ensures e.kind.Incremental? ==> e.base.Some? && e.fullAnchor.Some?
  {
    ReachableIsSound(w);
    assert IsEntry(w, d, e);
    var k :| 0 <= k < |w.runs| && w.runs[k].status == Success && w.runs[k].snap.Some?
             && w.runs[k].disk == d && e == EntryOf(w.runs[k]);
    var r := w.runs[k];
    assert RowOk(w, r) && Link(w.runs, k);
    if e.kind.Incremental? {
      ChainEndsInLast(w.runs, k, r.ds, r.set_);
      FirstFullIsHead(w, k, r.ds, r.set_);
      assert Good(w.runs[Last(w.runs, k, r.ds, r.set_).value], r.ds, r.set_);
    }
  }

  /** A full names nothing; an incremental names the head of its chain. */
  ghost predicate AnchoredAt(c: seq<Run>, k: nat)
    requires k < |c|
  {
    c[k].fullAnchor == if c[k].kind.Full? then None else c[0].snap
  }

  lemma {:induction false} ChainAnchored(w: World, n: nat, ds: Dataset, set_: SetId)
    requires LinksOk(w) && n <= |w.runs|
    ensures var c := Chain(w.runs, n, ds, set_); forall k :: 0 <= k < |c| ==> AnchoredAt(c, k)
  {
    if n > 0 {
      ChainAnchored(w, n - 1, ds, set_);
      ChainEndsInLast(w.runs, n - 1, ds, set_);
      FirstFullIsHead(w, n - 1, ds, set_);
      var before, c, r := Chain(w.runs, n - 1, ds, set_), Chain(w.runs, n, ds, set_), w.runs[n - 1];
      if Good(r, ds, set_) {
        assert Link(w.runs, n - 1);
        forall k | 0 <= k < |c| ensures AnchoredAt(c, k) {
          if k < |before| { assert AnchoredAt(before, k); }
        }
      }
    }
  }

  /**
   * The entry describes run g of the chain: when, where and as what it was completed, the snapshot before it
   * as the base, and the full the chain began with as the anchor.
   */
  ghost predicate DescribesRun(c: seq<Run>, g: nat, e: Entry)
    requires g < |c|
  {
    && c[g].snap == Some(e.snap) && e.kind == c[g].kind && e.at == c[g].at && e.media == c[g].disk && e.set_ == c[g].set_
    && if e.kind.Full? then e.base.None? && e.fullAnchor.None?
       else g > 0 && e.base == c[g - 1].snap && e.fullAnchor == c[0].snap
  }

  lemma EntryDescribesRun(w: World, ds: Dataset, set_: SetId, g: nat)
    requires Reachable(w) && g < |Chain(w.runs, |w.runs|, ds, set_)|
    ensures var c := Chain(w.runs, |w.runs|, ds, set_); c[g].snap.Some? && DescribesRun(c, g, EntryOf(c[g]))
  {
    ReachableIsSound(w);
    var c := Chain(w.runs, |w.runs|, ds, set_);
    ChainLinked(w, |w.runs|, ds, set_);
    ChainAnchored(w, |w.runs|, ds, set_);
    assert c[g] in c && LinkedAt(c, g) && AnchoredAt(c, g);
    ChainDataset(w.runs, ds, set_, c[g]);
  }

  /** Whatever volumes of a set are merged, every entry of a dataset describes a run of its chain. */
  lemma MergedDescribes(w: World, disks: seq<DiskId>, ds: Dataset, set_: SetId, k: nat)
    requires Reachable(w) && Attached(w, set_, disks) && k < |Merged(Manifests(w, disks), ds)|
    ensures var c := Chain(w.runs, |w.runs|, ds, set_);
            exists g: nat :: g < |c| && DescribesRun(c, g, Merged(Manifests(w, disks), ds)[k])
  {
    hide Merged, Manifests, OnMedia, Chain, DescribesRun, Readable, Reachable;
    var c := Chain(w.runs, |w.runs|, ds, set_);
    MergedIsChain(w, disks, ds, set_);
    var t := OnMedia(w, disks, c);
    OnMediaMembers(w, disks, c);
    assert t[k] in t && t[k] in c;
    var g: nat :| g < |c| && c[g] == t[k];
    EntryDescribesRun(w, ds, set_, g);
    assert Merged(Manifests(w, disks), ds)[k] == EntryOf(c[g]);
  }

  lemma {:induction false} OnMediaAll(w: World, disks: seq<DiskId>, c: seq<Run>)
    requires forall r :: r in c ==> Readable(w, disks, r)
    ensures OnMedia(w, disks, c) == c
  {
    if c != [] {
      assert c == c[..|c| - 1] + [c[|c| - 1]];
      OnMediaAll(w, disks, c[..|c| - 1]);
    }
  }

  /**
   * When every run of a dataset can be read, the merged list is linked: it begins with a full, each
   * incremental names the entry before it as its base and the first as its anchor, and a full names nothing.
   */
  lemma MergedIsLinked(w: World, disks: seq<DiskId>, ds: Dataset, set_: SetId)
    requires Reachable(w) && Attached(w, set_, disks)
    requires forall r :: r in Chain(w.runs, |w.runs|, ds, set_) ==> Readable(w, disks, r)
    ensures var m, c := Merged(Manifests(w, disks), ds), Chain(w.runs, |w.runs|, ds, set_);
            && |m| == |c| && (forall k :: 0 <= k < |m| ==> c[k].snap == Some(m[k].snap))
            && (m != [] ==> m[0].kind.Full?)
            && forall k :: 0 <= k < |m| ==>
                 if m[k].kind.Full? then m[k].base.None? && m[k].fullAnchor.None?
                 else k > 0 && m[k].base == Some(m[k - 1].snap) && m[k].fullAnchor == Some(m[0].snap)
  {
    var m, c := Merged(Manifests(w, disks), ds), Chain(w.runs, |w.runs|, ds, set_);
    MergedIsChain(w, disks, ds, set_);
    OnMediaAll(w, disks, c);
    forall k | 0 <= k < |m| ensures DescribesRun(c, k, m[k]) {
      EntryDescribesRun(w, ds, set_, k);
    }
  }
}

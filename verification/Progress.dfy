/**
 * The progress bar of a restore (nazman/services/system_restore.py): it never goes back, stays below 100
 * while the restore runs, and reads 100 once it is done. Fractions are exact.
 */
module Progress {
  import opened Streams

  datatype JobStatus = Running | Done | Failed

  /** The dataset being restored; an unknown or zero size gives no fraction within its stream. */
  datatype Current = Current(streamsTotal: nat, streamsDone: nat, bytesDone: nat, expected: Option<nat>)

  datatype Job = Job(status: JobStatus, total: nat, done: nat, current: Option<Current>)

  function AtMostOne(x: real): real {
    if x < 1.0 then x else 1.0
  }

  function StreamFraction(c: Current): real {
    if c.expected.Some? && c.expected.value > 0 then AtMostOne(c.bytesDone as real / c.expected.value as real) else 0.0
  }

  function Fraction(current: Option<Current>): real {
    if current.None? || current.value.streamsTotal == 0 then 0.0
    else
      var c := current.value;
      AtMostOne((c.streamsDone as real + StreamFraction(c)) / c.streamsTotal as real)
  }

  /** `_progress_pct`. */
  function Pct(j: Job): int {
    if j.status.Done? then 100
    else if j.total == 0 then 0
    else
      var pct := (100.0 * AtMostOne((j.done as real + Fraction(j.current)) / j.total as real)).Floor;
      if j.status.Running? then (if pct < 99 then pct else 99) else (if pct < 100 then pct else 100)
  }

  // ── Monotone in what has been done ──────────────────────────────────────

  lemma QuotientGrows(a: real, b: real, t: real)
    requires a <= b && t > 0.0
    ensures a / t <= b / t
  {
    assert b / t - a / t == (b - a) / t;
  }

  lemma QuotientBounds(a: real, t: real)
    requires 0.0 <= a && t > 0.0
    ensures 0.0 <= a / t && (a <= t ==> a / t <= 1.0)
  {
    QuotientGrows(0.0, a, t);
    if a <= t { QuotientGrows(a, t, t); }
  }

  lemma FractionBounds(current: Option<Current>)
    ensures 0.0 <= Fraction(current) <= 1.0
  {
    if current.Some? && current.value.streamsTotal > 0 {
      var c := current.value;
      StreamFractionBounds(c);
      QuotientBounds(c.streamsDone as real + StreamFraction(c), c.streamsTotal as real);
    }
  }

  lemma StreamFractionBounds(c: Current)
    ensures 0.0 <= StreamFraction(c) <= 1.0
  {
    if c.expected.Some? && c.expected.value > 0 {
      QuotientBounds(c.bytesDone as real, c.expected.value as real);
    }
  }

  /** More work done, no less shown. */
  lemma PctGrows(total: nat, done: nat, current: Option<Current>, done': nat, current': Option<Current>)
    requires done as real + Fraction(current) <= done' as real + Fraction(current')
    ensures Pct(Job(Running, total, done, current)) <= Pct(Job(Running, total, done', current'))
  {
    if total > 0 {
      QuotientGrows(done as real + Fraction(current), done' as real + Fraction(current'), total as real);
    }
  }

  lemma PctInRange(j: Job)
    ensures 0 <= Pct(j) <= 100
    ensures j.status.Running? ==> Pct(j) <= 99
  {
    if !j.status.Done? && j.total > 0 {
      FractionBounds(j.current);
      QuotientBounds(j.done as real + Fraction(j.current), j.total as real);
    }
  }

  /** Within a dataset: streams finished count whole, the one being received by its share. */
  lemma FractionGrows(c: Current, c': Current)
    requires c.streamsTotal == c'.streamsTotal
    requires c.streamsDone as real + StreamFraction(c) <= c'.streamsDone as real + StreamFraction(c')
    ensures Fraction(Some(c)) <= Fraction(Some(c'))
  {
    if c.streamsTotal > 0 {
      QuotientGrows(c.streamsDone as real + StreamFraction(c), c'.streamsDone as real + StreamFraction(c'), c.streamsTotal as real);
    }
  }

  // ── What is shown ───────────────────────────────────────────────────────

  lemma TimesPositive(a: nat, b: nat)
    requires a > 0 && b > 0
    ensures a * b > 0
  {
  }

  lemma DivideBack(a: real, b: real)
    requires b > 0.0
    ensures a / b * b == a
  {
  }

  lemma DivideIs(z: real, b: real, a: real)
    requires b > 0.0 && z * b == a
    ensures a / b == z
  {
  }

  lemma Quotient(a: real, n: nat) returns (z: real)
    requires n > 0
    ensures z * n as real == a
  {
    z := a / n as real;
    DivideBack(a, n as real);
  }

  lemma RealTimes(a: nat, b: nat)
    ensures (a * b) as real == a as real * b as real
  {
  }

  lemma Spread(z: real, b: real, q: real)
    ensures (100.0 * z - q) * b == 100.0 * (z * b) - q * b
  {
  }

  /** What is that part of b lies that part of the way to one. */
  lemma PartOf(y: real, b: real, r: real)
    requires b > 0.0 && y * b == r && 0.0 <= r < b
    ensures 0.0 <= y < 1.0
  {
  }

  /** A hundredfold, rounded down, of what is the quotient of two numbers. */
  lemma FloorIs(z: real, a: nat, b: nat)
    requires b > 0 && z * b as real == a as real
    ensures (100.0 * z).Floor == 100 * a / b
  {
    var q, r := 100 * a / b, 100 * a % b;
    RealTimes(q, b);
    assert 100 * a == q * b + r;
    assert (100 * a) as real == (q * b) as real + r as real;
    assert (100 * a) as real == 100.0 * a as real;
    Spread(z, b as real, q as real);
    PartOf(100.0 * z - q as real, b as real, r as real);
  }

  lemma WithinOne(z: real, a: nat, b: nat)
    requires b > 0 && z * b as real == a as real && a <= b
    ensures z <= 1.0 && (a == b ==> z == 1.0)
  {
    if z > 1.0 { Above(z, b as real); }
    if a == b && z < 1.0 { Below(z, b as real); }
  }

  lemma Above(z: real, b: real)
    requires z > 1.0 && b > 0.0
    ensures z * b > b
  {
  }

  lemma Below(z: real, b: real)
    requires z < 1.0 && b > 0.0
    ensures z * b < b
  {
  }

  /** The hundredfold of a quotient, rounded down, and 99 at the most. */
  function Shown(a: nat, b: nat): int
    requires b > 0
  {
    if 100 * a / b < 99 then 100 * a / b else 99
  }

  lemma CappedFloor(z: real, a: nat, b: nat)
    requires b > 0 && a <= b && z * b as real == a as real
    ensures (100.0 * AtMostOne(z)).Floor == 100 * a / b
  {
    FloorIs(z, a, b);
    WithinOne(z, a, b);
    assert AtMostOne(z) == z;
  }

  lemma RunningShows(total: nat, done: nat, current: Option<Current>, z: real, a: nat, b: nat)
    requires total > 0 && b > 0 && a <= b && z * total as real == done as real + Fraction(current)
    requires z * b as real == a as real
    ensures Pct(Job(Running, total, done, current)) == Shown(a, b)
  {
    hide AtMostOne, Fraction;
    DivideIs(z, total as real, done as real + Fraction(current));
    CappedFloor(z, a, b);
  }

  /** With d of n datasets done and none under way: 100 d / n, rounded down, and 99 at the most. */
  lemma ShowsDatasets(total: nat, done: nat)
    requires 0 < total && done <= total
    ensures Pct(Job(Running, total, done, None)) == if 100 * done / total < 99 then 100 * done / total else 99
  {
    var z := Quotient(done as real + Fraction(None), total);
    RunningShows(total, done, None, z, done, total);
  }

  /** A job that has failed goes on to show what was done. */
  lemma ShowsFailed(total: nat, done: nat)
    requires 0 < total && done <= total
    ensures Pct(Job(Failed, total, done, None)) == 100 * done / total
  {
    var z := (done as real + Fraction(None)) / total as real;
    DivideBack(done as real + Fraction(None), total as real);
    CappedFloor(z, done, total);
    FullAtMost(done, total);
  }

  lemma FullAtMost(a: nat, b: nat)
    requires b > 0 && a <= b
    ensures 100 * a / b <= 100
  {
    assert 100 * a <= 100 * b;
  }

  /** z n = d + f and f s = k give z (n s) = d s + k. */
  lemma ScaledUp(z: real, n: real, d: real, s: real, f: real, k: real)
    requires z * n == d + f && f * s == k
    ensures z * (n * s) == d * s + k
  {
    assert z * (n * s) == (z * n) * s;
    assert (d + f) * s == d * s + f * s;
  }

  lemma ScaledTo(z: real, n: nat, d: nat, s: nat, f: real, k: real)
    requires z * n as real == d as real + f && f * s as real == k
    ensures z * (n * s) as real == (d * s) as real + k
  {
    RealTimes(n, s);
    RealTimes(d, s);
    ScaledUp(z, n as real, d as real, s as real, f, k);
  }

  lemma FewerTimes(d: nat, n: nat, s: nat, k: nat)
    requires d < n && k <= s
    ensures d * s + k <= n * s
  {
    assert (d + 1) * s <= n * s;
  }

  /** The fraction of a dataset whose streams are k and a part f of one more, of s. */
  lemma FractionTimes(c: Current)
    requires c.streamsTotal > 0 && c.streamsDone as real + StreamFraction(c) <= c.streamsTotal as real
    ensures Fraction(Some(c)) * c.streamsTotal as real == c.streamsDone as real + StreamFraction(c)
  {
    StreamFractionBounds(c);
    QuotientBounds(c.streamsDone as real + StreamFraction(c), c.streamsTotal as real);
    DivideBack(c.streamsDone as real + StreamFraction(c), c.streamsTotal as real);
  }

  /** With k of the s streams of one more dataset received, each counts for 1 / (s n). */
  lemma ShowsStreams(total: nat, done: nat, c: Current)
    requires done < total && 0 < c.streamsTotal && c.streamsDone <= c.streamsTotal && c.bytesDone == 0
    ensures total * c.streamsTotal > 0
    ensures var a, b := done * c.streamsTotal + c.streamsDone, total * c.streamsTotal;
            Pct(Job(Running, total, done, Some(c))) == Shown(a, b)
  {
    hide Pct, Fraction, Shown;
    var s, f := c.streamsTotal, Fraction(Some(c));
    var z := Quotient(done as real + f, total);
    NoBytes(c);
    FractionTimes(c);
    ScaledTo(z, total, done, s, f, c.streamsDone as real);
    TimesPositive(total, s);
    FewerTimes(done, total, s, c.streamsDone);
    RunningShows(total, done, Some(c), z, done * s + c.streamsDone, total * s);
  }

  lemma BytesTimes(c: Current, bytes: nat)
    requires c.expected.Some? && c.expected.value > 0
    requires bytes == if c.bytesDone < c.expected.value then c.bytesDone else c.expected.value
    ensures StreamFraction(c) * c.expected.value as real == bytes as real
  {
    var x, q := c.expected.value as real, c.bytesDone as real / c.expected.value as real;
    DivideBack(c.bytesDone as real, x);
    assert StreamFraction(c) == AtMostOne(q);
    if c.bytesDone < c.expected.value {
      if q >= 1.0 { NotBelow(q, x); }
    } else {
      if q < 1.0 { Below(q, x); }
      assert AtMostOne(q) == 1.0;
    }
  }

  lemma NotBelow(z: real, b: real)
    requires z >= 1.0 && b > 0.0
    ensures z * b >= b
  {
  }

  /** Of d wholes of n, and of the next k parts of s and a fraction g of one more, in parts. */
  lemma InParts(z: real, n: nat, d: nat, s: nat, k: nat, f: real, g: real, q: nat, p: nat)
    requires d < n && k < s && q == d * s + k && p == n * s
    requires z * n as real == d as real + f && f * s as real == k as real + g
    ensures q < p && z * p as real == q as real + g
  {
    ScaledTo(z, n, d, s, f, k as real + g);
    FewerTimes(d, n, s, k + 1);
  }

  lemma InBytes(z: real, p: nat, q: nat, x: nat, bytes: nat, g: real, a: nat, b: nat)
    requires q < p && 0 < x && bytes <= x && a == q * x + bytes && b == p * x
    requires z * p as real == q as real + g && g * x as real == bytes as real
    ensures b > 0 && a <= b && z * b as real == a as real
  {
    ScaledTo(z, p, q, x, g, bytes as real);
    TimesPositive(p, x);
    FewerTimes(q, p, x, bytes);
  }

  /** And y bytes of the x expected of the next stream count for y / (x s n), never for more than the stream. */
  lemma ShowsBytes(total: nat, done: nat, c: Current, bytes: nat, a: nat, b: nat)
    requires done < total && c.streamsDone < c.streamsTotal && c.expected.Some? && c.expected.value > 0
    requires bytes == if c.bytesDone < c.expected.value then c.bytesDone else c.expected.value
    requires a == (done * c.streamsTotal + c.streamsDone) * c.expected.value + bytes
    requires b == total * c.streamsTotal * c.expected.value
    ensures b > 0 && Pct(Job(Running, total, done, Some(c))) == Shown(a, b)
  {
    hide Pct, Fraction, StreamFraction, Shown, AtMostOne;
    var x, s, k, f := c.expected.value, c.streamsTotal, c.streamsDone, Fraction(Some(c));
    var z := Quotient(done as real + f, total);
    var q, p := done * s + k, total * s;
    BytesTimes(c, bytes);
    StreamFractionBounds(c);
    FractionTimes(c);
    InParts(z, total, done, s, k, f, StreamFraction(c), q, p);
    InBytes(z, p, q, x, bytes, StreamFraction(c), a, b);
    RunningShows(total, done, Some(c), z, a, b);
  }

  // ── The job ─────────────────────────────────────────────────────────────

  ghost predicate Nondecreasing(shown: seq<int>) {
    forall i, j :: 0 <= i < j < |shown| ==> shown[i] <= shown[j]
  }

  /** One stream: whether it is found, its recorded size, the byte counts reported, and whether it was received. */
  datatype Incoming = Incoming(found: bool, size: Option<nat>, reports: seq<nat>, received: bool) {
    predicate Ok() {
      found && received
    }
  }

  ghost predicate Growing(reports: seq<nat>) {
    forall i, j :: 0 <= i < j < |reports| ==> reports[i] <= reports[j]
  }

  class RestoreJob {
    var status: JobStatus
    var total: nat
    var done: nat
    var failed: nat
    var current: Option<Current>
    ghost var shown: seq<int>

    function View(): Job
      reads this
    {
      Job(status, total, done, current)
    }

    /** Everything a viewer could have seen so far has grown, and the last of it is what is seen now. */
    ghost predicate Valid()
      reads this
    {
      && Nondecreasing(shown) && shown != [] && shown[|shown| - 1] == Pct(View())
      && forall k :: 0 <= k < |shown| ==> 0 <= shown[k] <= (if status.Running? then 99 else 100)
    }

    constructor (total: nat)
      ensures Valid() && status == Running && done == 0 && failed == 0 && current == None && this.total == total
      ensures shown == [0]
    {
      status, done, failed, current, this.total := Running, 0, 0, None, total;
      shown := [0];
      new;
      assert total > 0 ==> (0 as real + Fraction(None)) / total as real == 0.0;
    }

    /** Show the view; no less than was shown before. */
    ghost method Show()
      requires shown != [] && shown[|shown| - 1] <= Pct(View()) && Nondecreasing(shown)
      requires forall k :: 0 <= k < |shown| ==> 0 <= shown[k] <= (if status.Running? then 99 else 100)
      modifies this`shown
      ensures Valid() && shown == old(shown) + [Pct(View())]
    {
      PctInRange(View());
      shown := shown + [Pct(View())];
    }

    /** The number of datasets is set again when the restore begins; nothing has been done yet. */
    method Begin(total': nat)
      requires Valid() && status.Running? && done == 0 && current.None?
      modifies this`total, this`shown
      ensures Valid() && total == total' && old(shown) <= shown
    {
      assert total > 0 ==> (done as real + Fraction(current)) / total as real == 0.0;
      assert total' > 0 ==> (done as real + Fraction(current)) / total' as real == 0.0;
      total := total';
      Show();
    }

    method BeginDataset(streams: nat)
      requires Valid() && status.Running? && current.None?
      modifies this`current, this`shown
      ensures Valid() && old(shown) <= shown && current == Some(Current(streams, 0, 0, None))
    {
      current := Some(Current(streams, 0, 0, None));
      FractionBounds(current);
      PctGrows(total, done, None, done, current);
      Show();
    }

    method BeginStream(index: nat, size: Option<nat>)
      requires Valid() && status.Running? && current.Some? && index > 0
      requires current.value.streamsDone == index - 1 && current.value.bytesDone == 0
      modifies this`current, this`shown
      ensures Valid() && old(shown) <= shown
      ensures current == Some(Current(old(current).value.streamsTotal, index - 1, 0, size))
    {
      ghost var before := current.value;
      current := Some(Current(current.value.streamsTotal, index - 1, 0, size));
      NoBytes(before);
      NoBytes(current.value);
      FractionGrows(before, current.value);
      PctGrows(total, done, Some(before), done, current);
      Show();
    }

    /** `_stream_progress`: the callback the receiver reports to, with a count that grows. */
    method Report(consumed: nat)
      requires Valid() && status.Running? && current.Some? && current.value.bytesDone <= consumed
      modifies this`current, this`shown
      ensures Valid() && old(shown) <= shown && current == Some(old(current).value.(bytesDone := consumed))
    {
      ghost var before := current.value;
      current := Some(current.value.(bytesDone := consumed));
      MoreBytes(before, consumed);
      FractionGrows(before, current.value);
      PctGrows(total, done, Some(before), done, current);
      Show();
    }

    method EndStream(index: nat)
      requires Valid() && status.Running? && current.Some? && current.value.streamsDone + 1 == index
      modifies this`current, this`shown
      ensures Valid() && old(shown) <= shown && current == Some(old(current).value.(streamsDone := index, bytesDone := 0))
    {
      ghost var before := current.value;
      current := Some(current.value.(streamsDone := index, bytesDone := 0));
      StreamFractionBounds(before);
      StreamFractionBounds(current.value);
      FractionGrows(before, current.value);
      PctGrows(total, done, Some(before), done, current);
      Show();
    }

    /** Count the dataset and clear `current`; nobody can look in between. */
    method EndDataset(ok: bool)
      requires Valid() && status.Running? && current.Some?
      modifies this`current, this`done, this`failed, this`shown
      ensures Valid() && old(shown) <= shown && current.None? && done == old(done) + 1
      ensures failed == old(failed) + if ok then 0 else 1
    {
      FractionBounds(current);
      PctGrows(total, done, current, done + 1, None);
      done := done + 1;
      if !ok { failed := failed + 1; }
      current := None;
      Show();
    }

    method Finish()
      requires Valid() && status.Running? && current.None?
      modifies this`status, this`shown
      ensures Valid() && status.Done? && shown == old(shown) + [100] && Pct(View()) == 100
    {
      status := Done;
      Show();
    }

    /** `_restore_one`, as far as the bar goes: it ends at the first stream that is not received. */
    method RestoreStreams(streams: seq<Incoming>) returns (ok: bool)
      requires Valid() && status.Running? && current == Some(Current(|streams|, 0, 0, None))
      requires forall k :: 0 <= k < |streams| ==> Growing(streams[k].reports)
      modifies this`current, this`shown
      ensures Valid() && old(shown) <= shown && current.Some?
      ensures ok <==> AllReceived(streams)
    {
      var n := 0;
      while n < |streams|
        invariant 0 <= n <= |streams|
        invariant Valid() && old(shown) <= shown && current.Some? && current.value.streamsDone == n
        invariant current.value.bytesDone == 0 && forall k :: 0 <= k < n ==> streams[k].Ok()
      {
        if !streams[n].found { return false; }
        BeginStream(n + 1, streams[n].size);
        Receive(streams[n].reports);
        if !streams[n].received { return false; }
        EndStream(n + 1);
        n := n + 1;
      }
      ok := true;
    }

    method Receive(reports: seq<nat>)
      requires Valid() && status.Running? && current.Some? && current.value.bytesDone == 0 && Growing(reports)
      modifies this`current, this`shown
      ensures Valid() && old(shown) <= shown && current.Some? && current.value.streamsDone == old(current).value.streamsDone
    {
      var n := 0;
      while n < |reports|
        invariant 0 <= n <= |reports|
        invariant Valid() && old(shown) <= shown && current.Some? && current.value.streamsDone == old(current).value.streamsDone
        invariant current.value.bytesDone == if n == 0 then 0 else reports[n - 1]
      {
        Report(reports[n]);
        n := n + 1;
      }
    }

    /**
     * `restore_datasets` for a running job. Whatever is reported and whatever fails, what the bar shows
     * never goes back, is below 100 until the end, and ends at 100.
     */
    method RestoreDatasets(chosen: seq<seq<Incoming>>)
      requires Valid() && status.Running? && done == 0 && failed == 0 && current.None?
      requires AllGrowing(chosen)
      modifies this
      ensures Valid() && old(shown) <= shown && status.Done? && Pct(View()) == 100
      ensures Nondecreasing(shown) && forall k :: 0 <= k < |shown| - 1 ==> 0 <= shown[k] <= 99
      ensures done == |chosen| && failed == Broken(chosen)
    {
      RestoreAll(chosen);
      Finish();
    }

    method RestoreAll(chosen: seq<seq<Incoming>>)
      requires Valid() && status.Running? && done == 0 && failed == 0 && current.None?
      requires AllGrowing(chosen)
      modifies this`total, this`current, this`done, this`failed, this`shown
      ensures Valid() && old(shown) <= shown && status.Running? && current.None?
      ensures done == |chosen| && failed == Broken(chosen)
    {
      Begin(|chosen|);
      var n := 0;
      while n < |chosen|
        invariant 0 <= n <= |chosen| && Valid() && status.Running? && current.None? && old(shown) <= shown
        invariant done == n && failed == Broken(chosen[..n])
      {
        RestoreDataset(chosen[n]);
        assert chosen[..n + 1][..n] == chosen[..n];
        n := n + 1;
      }
      assert chosen[..n] == chosen;
    }

    method RestoreDataset(streams: seq<Incoming>)
      requires Valid() && status.Running? && current.None?
      requires forall k :: 0 <= k < |streams| ==> Growing(streams[k].reports)
      modifies this`current, this`done, this`failed, this`shown
      ensures Valid() && old(shown) <= shown && current.None? && done == old(done) + 1
      ensures failed == old(failed) + if AllReceived(streams) then 0 else 1
    {
      BeginDataset(|streams|);
      var ok := RestoreStreams(streams);
      EndDataset(ok);
    }
  }

  ghost predicate AllGrowing(chosen: seq<seq<Incoming>>) {
    forall d, k :: 0 <= d < |chosen| && 0 <= k < |chosen[d]| ==> Growing(chosen[d][k].reports)
  }

  ghost predicate AllReceived(streams: seq<Incoming>) {
    forall k :: 0 <= k < |streams| ==> streams[k].Ok()
  }

  /** How many of the datasets lacked a stream. */
  ghost function Broken(chosen: seq<seq<Incoming>>): nat {
    if chosen == [] then 0
    else Broken(chosen[..|chosen| - 1]) + if AllReceived(chosen[|chosen| - 1]) then 0 else 1
  }

  lemma NoBytes(c: Current)
    requires c.bytesDone == 0
    ensures StreamFraction(c) == 0.0
  {
  }

  lemma MoreBytes(c: Current, consumed: nat)
    requires c.bytesDone <= consumed
    ensures StreamFraction(c) <= StreamFraction(c.(bytesDone := consumed))
  {
    if c.expected.Some? && c.expected.value > 0 {
      QuotientGrows(c.bytesDone as real, consumed as real, c.expected.value as real);
    }
  }
}

/** The bounded history document of the sampler (history.py): building the
    base document, load-or-initialise, the per-cycle append/evict/stamp
    update of the loaded document, and the administrative reset.

    Durable storage is an `Option<Doc>` value (`None` when there is no
    history file); the sensor reading and the clock are parameters. */
module History {
  import Temperature

  datatype Option<T> = None | Some(value: T)

  /** An ISO-8601 timestamp together with its epoch seconds, taken from one
      captured instant. */
  datatype Stamp = Stamp(timestamp: string, timestampEpoch: int)

  /** One sample as appended by the loop. The humidity part is not part of
      this model. */
  datatype Reading = Reading(stamp: Stamp, temperature: Temperature.Formatted)

  /** The persisted history document. */
  datatype Doc = Doc(data: seq<Reading>, count: int, interval: int, updated: Stamp)

  /** The document invariant for a configured maximum: `count` is the number
      of readings and there are at most `maxCount` of them. */
  predicate Wellformed(d: Doc, maxCount: int)
  {
    d.count == |d.data| && |d.data| <= maxCount
  }

  /** The epoch seconds of each reading, in order. */
  function Epochs(s: seq<Reading>): (e: seq<int>)
    ensures |e| == |s|
    ensures forall i :: 0 <= i < |s| ==> e[i] == s[i].stamp.timestampEpoch
  {
    if s == [] then [] else [s[0].stamp.timestampEpoch] + Epochs(s[1..])
  }

  /** create_base_object: an empty document for the configured interval,
      stamped with the instant it was created. It satisfies the document
      invariant for every non-negative maximum. */
  function BaseObject(interval: int, now: Stamp): (d: Doc)
    ensures d.data == [] && d.count == 0
    ensures d.interval == interval && d.updated == now
    ensures forall maxCount :: 0 <= maxCount ==> Wellformed(d, maxCount)
  {
    Doc([], 0, interval, now)
  }

  /** read_file: the stored document when there is one, unchanged, and the
      base object otherwise. */
  function ReadFile(stored: Option<Doc>, interval: int, now: Stamp): (d: Doc)
    ensures stored.Some? ==> d == stored.value
    ensures stored.None? ==> d.data == [] && d.count == 0 && d.interval == interval && d.updated == now
  {
    match stored
    case Some(doc) => doc
    case None => BaseObject(interval, now)
  }

  /** The reset branch: the stored document is replaced by the base object,
      whatever was stored before. */
  function Reset(stored: Option<Doc>, interval: int, now: Stamp): (stored': Option<Doc>)
    ensures stored'.Some?
    ensures stored'.value.data == [] && stored'.value.count == 0
    ensures stored'.value.interval == interval && stored'.value.updated == now
  {
    Some(BaseObject(interval, now))
  }

  /** Loading right after a reset yields the empty base document, whatever
      was stored before and whatever interval or instant the load would use. */
  lemma ResetThenLoad(stored: Option<Doc>, interval: int, now: Stamp, interval': int, now': Stamp)
    ensures ReadFile(Reset(stored, interval, now), interval', now') == BaseObject(interval, now)
    ensures ReadFile(Reset(stored, interval, now), interval', now').count == 0
  {
  }

  /** The readings after one append with eviction of the oldest reading when
      the length exceeds `maxCount`. history.py:76 evicts with `pop()`, which
      removes the newest reading instead; see `AppendedAsWritten`. */
  function Appended(s: seq<Reading>, reading: Reading, maxCount: int): (r: seq<Reading>)
    ensures |r| == if |s| + 1 > maxCount then |s| else |s| + 1
    ensures |r| == |s| + 1 ==> r == s + [reading]
    ensures |r| == |s| ==> r == (s + [reading])[1..]
    ensures |s| < maxCount ==> r == s + [reading]
    ensures 0 < maxCount == |s| ==> r == s[1..] + [reading]
    ensures |s| <= maxCount ==> |r| <= maxCount
  {
    var t := s + [reading];
    if |t| > maxCount then t[1..] else t
  }

  /** The readings after one append as history.py:73-76 writes it: `pop()`
      drops the last element, which is the reading just appended. */
  function AppendedAsWritten(s: seq<Reading>, reading: Reading, maxCount: int): (r: seq<Reading>)
    ensures |s| < maxCount ==> r == s + [reading]
    ensures |s| >= maxCount ==> r == s
  {
    var t := s + [reading];
    if |t| > maxCount then t[..|t| - 1] else t
  }

  /** The document after one cycle of the main loop: the reading is appended,
      the oldest reading evicted if the maximum is exceeded, the count
      recomputed and `updated` stamped from the single instant `now`. */
  function Cycle(d: Doc, reading: Reading, now: Stamp, maxCount: int): (d': Doc)
    ensures d'.data == Appended(d.data, reading, maxCount)
    ensures d'.count == |d'.data|
    ensures d'.interval == d.interval
    ensures d'.updated == now
    ensures d'.updated.timestamp == now.timestamp && d'.updated.timestampEpoch == now.timestampEpoch
    ensures Wellformed(d, maxCount) ==> Wellformed(d', maxCount)
  {
    var data := Appended(d.data, reading, maxCount);
    Doc(data, |data|, d.interval, now)
  }

  /** The `maxCount` most recent elements of `t` (all of them if there are
      fewer). */
  function Latest(t: seq<Reading>, maxCount: nat): (r: seq<Reading>)
    ensures |r| == if |t| <= maxCount then |t| else maxCount
    ensures r == t[|t| - |r|..]
  {
    if |t| <= maxCount then t else t[|t| - maxCount..]
  }

  /** The readings after appending each of `readings` in turn. */
  function Replay(s: seq<Reading>, readings: seq<Reading>, maxCount: int): seq<Reading>
    decreases |readings|
  {
    if readings == [] then s
    else Replay(Appended(s, readings[0], maxCount), readings[1..], maxCount)
  }

  /** Taking the latest elements before appending more changes nothing about
      the latest elements afterwards. */
  lemma LatestOfLatest(t: seq<Reading>, u: seq<Reading>, maxCount: nat)
    ensures Latest(Latest(t, maxCount) + u, maxCount) == Latest(t + u, maxCount)
  {
    var l := Latest(t, maxCount);
    var a := Latest(l + u, maxCount);
    var b := Latest(t + u, maxCount);
    assert |a| == |b|;
    forall i | 0 <= i < |a|
      ensures a[i] == b[i]
    {
      var k := |t + u| - |b| + i;
      assert b[i] == (t + u)[k];
      if k < |t| {
        assert a[i] == (l + u)[|l + u| - |a| + i] == t[k];
      } else {
        assert a[i] == (l + u)[|l + u| - |a| + i] == u[k - |t|];
      }
    }
  }

  /** Starting from at most `maxCount` readings, any number of appends
      leaves exactly the `maxCount` most recent readings, in chronological
      order (all of them while there are fewer). */
  lemma {:induction false} ReplayKeepsLatest(s: seq<Reading>, readings: seq<Reading>, maxCount: nat)
    requires |s| <= maxCount
    ensures Replay(s, readings, maxCount) == Latest(s + readings, maxCount)
    decreases |readings|
  {
    if readings == [] {
      assert s + readings == s;
    } else {
      var s' := Appended(s, readings[0], maxCount);
      assert s' == Latest(s + [readings[0]], maxCount);
      ReplayKeepsLatest(s', readings[1..], maxCount);
      LatestOfLatest(s + [readings[0]], readings[1..], maxCount);
      assert s + [readings[0]] + readings[1..] == s + readings;
    }
  }

  /** With room for three readings, four cycles with epochs 100, 160, 220,
      280 from the empty base document keep the last three. */
  lemma EvictOldestScenario(r1: Reading, r2: Reading, r3: Reading, r4: Reading,
                            base: Stamp, s1: Stamp, s2: Stamp, s3: Stamp, s4: Stamp)
    requires r1.stamp.timestampEpoch == 100 && r2.stamp.timestampEpoch == 160
    requires r3.stamp.timestampEpoch == 220 && r4.stamp.timestampEpoch == 280
    ensures var d := Cycle(Cycle(Cycle(Cycle(BaseObject(60, base), r1, s1, 3), r2, s2, 3), r3, s3, 3), r4, s4, 3);
      Epochs(d.data) == [160, 220, 280] && d.count == 3 && d.updated == s4 && d.interval == 60
  {
    var d1 := Cycle(BaseObject(60, base), r1, s1, 3);
    var d2 := Cycle(d1, r2, s2, 3);
    var d3 := Cycle(d2, r3, s3, 3);
    var d4 := Cycle(d3, r4, s4, 3);
    assert d1.data == [r1];
    assert d2.data == [r1] + [r2];
    assert d3.data == [r1, r2] + [r3];
    assert d4.data == [r2, r3] + [r4];
    assert Epochs(d4.data) == [160, 220, 280];
  }

  /** The same four appends as written in history.py:76: once the buffer is
      full the newest reading is dropped, so the history stops at 220. */
  lemma EvictNewestScenario(r1: Reading, r2: Reading, r3: Reading, r4: Reading)
    requires r1.stamp.timestampEpoch == 100 && r2.stamp.timestampEpoch == 160
    requires r3.stamp.timestampEpoch == 220 && r4.stamp.timestampEpoch == 280
    ensures Epochs(AppendedAsWritten(AppendedAsWritten(AppendedAsWritten(AppendedAsWritten(
              [], r1, 3), r2, 3), r3, 3), r4, 3)) == [100, 160, 220]
  {
    var s3 := AppendedAsWritten(AppendedAsWritten(AppendedAsWritten([], r1, 3), r2, 3), r3, 3);
    assert s3 == [r1, r2, r3];
  }

  /** The document as the main loop holds it between `read_file` and
      `write_file`: a dictionary whose entries are updated in place. */
  class Document {
    var data: seq<Reading>
    var count: int
    var interval: int
    var updated: Stamp

    /** The document value these fields hold. */
    function ToDoc(): Doc
      reads this
    {
      Doc(data, count, interval, updated)
    }

    /** The loaded dictionary, field for field. */
    constructor Load(d: Doc)
      ensures ToDoc() == d
    {
      data := d.data;
      count := d.count;
      interval := d.interval;
      updated := d.updated;
    }

    /** The loop body of history.py:73-81 on the loaded document: push the
        reading, evict the oldest reading if the maximum is exceeded,
        recompute `count` and stamp both `updated` entries from `now`. */
    method AppendCycle(reading: Reading, now: Stamp, maxCount: int)
      modifies this
      ensures ToDoc() == Cycle(old(ToDoc()), reading, now, maxCount)
      ensures data == Appended(old(data), reading, maxCount)
      ensures count == |data| && interval == old(interval) && updated == now
      ensures old(|data|) <= maxCount ==> |data| <= maxCount
    {
      data := data + [reading];
      if |data| > maxCount {
        // history.py:76 pops the last element (the reading just pushed);
        // the oldest one is evicted here.
        data := data[1..];
      }
      count := |data|;
      updated := updated.(timestamp := now.timestamp);
      updated := updated.(timestampEpoch := now.timestampEpoch);
    }
  }

  /** One iteration of the main loop between reading the sensor and
      sleeping: load (or initialise) the document, append the reading and
      return the document that is written back. */
  method RunCycle(stored: Option<Doc>, reading: Reading, loadNow: Stamp, now: Stamp,
                  interval: int, maxCount: int)
    returns (written: Doc)
    ensures written == Cycle(ReadFile(stored, interval, loadNow), reading, now, maxCount)
    ensures written.count == |written.data| && written.updated == now
    ensures stored.Some? ==> written.interval == stored.value.interval
    ensures stored.None? && 0 < maxCount ==> written.data == [reading] && written.interval == interval
    ensures stored.Some? && Wellformed(stored.value, maxCount) ==> Wellformed(written, maxCount)
  {
    var doc := new Document.Load(ReadFile(stored, interval, loadNow));
    doc.AppendCycle(reading, now, maxCount);
    written := doc.ToDoc();
  }
}

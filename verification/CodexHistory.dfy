/** Quota history and its repeated compaction (hysteria/codex_quota.py).

    Numbers are taken as already parsed, and percentages are exact. */
module CodexHistory {
  import opened StateStore

  const DAY := 86400

  /** One stored row as it was read; `ts` and the rest may be missing or out of range. */
  datatype Raw =
    | NotAnObject
    | Row(ts: Option<int>, fiveHour: Option<real>, weekly: Option<real>,
          fiveHourResets: Option<int>, weeklyResets: Option<int>)

  datatype Sample = Sample(ts: int, fiveHour: Option<real>, weekly: Option<real>,
                           fiveHourResets: Option<int>, weeklyResets: Option<int>)

  /** `round(x, 2)`, counted in hundredths: to the nearest one, and ties to the even one. */
  function Hundredths(x: real): int {
    var below := (100.0 * x).Floor;
    var rest := 100.0 * x - below as real;
    if rest < 0.5 || (rest == 0.5 && below % 2 == 0) then below else below + 1
  }

  /** `_clamped_percent`. */
  function Percent(value: Option<real>): Option<real> {
    if value.None? then None
    else
      var clamped := if value.value < 0.0 then 0.0 else if value.value > 100.0 then 100.0 else value.value;
      Some(Hundredths(clamped) as real / 100.0)
  }

  /** A stored percentage is read back as it is, within bounds and nearest to what was measured. */
  lemma PercentKept(value: Option<real>)
    ensures Percent(Percent(value)) == Percent(value)
    ensures value.Some? && 0.0 <= value.value <= 100.0 ==>
              -0.005 <= Percent(value).value - value.value <= 0.005
    ensures value.Some? ==> 0.0 <= Percent(value).value <= 100.0
  {
    if value.Some? {
      var p := Percent(value).value;
      assert (100.0 * p).Floor as real == 100.0 * p;
    }
  }

  function Positive(value: Option<int>): Option<int> {
    if value.Some? && value.value > 0 then value else None
  }

  /** `_clean_sample`. */
  function Cleaned(raw: Raw, now: int): Option<Sample> {
    if raw.NotAnObject? || raw.ts.None? || raw.ts.value <= 0 || raw.ts.value > now + DAY then None else
    var s := Sample(raw.ts.value, Percent(raw.fiveHour), Percent(raw.weekly),
                    Positive(raw.fiveHourResets), Positive(raw.weeklyResets));
    if s.fiveHour.None? && s.weekly.None? then None else Some(s)
  }

  /** A row is accepted exactly when it is an object with a time between the epoch and a day
      ahead and at least one of the two percentages. */
  ghost predicate Usable(raw: Raw, now: int) {
    raw.Row? && raw.ts.Some? && 0 < raw.ts.value <= now + 86400 && (raw.fiveHour.Some? || raw.weekly.Some?)
  }

  /** A percentage is kept when it was given: within bounds, and the hundredth nearest to what
      was measured, of two the even one. */
  ghost predicate PercentFits(kept: Option<real>, given: Option<real>) {
    && (kept.Some? <==> given.Some?)
    && (kept.Some? ==> 0.0 <= kept.value <= 100.0 && (100.0 * kept.value).Floor as real == 100.0 * kept.value)
    && (given.Some? && 0.0 <= given.value <= 100.0 ==> -0.005 <= kept.value - given.value <= 0.005)
    && (given.Some? && kept.value - given.value in {-0.005, 0.005} ==> (100.0 * kept.value).Floor % 2 == 0)
    && (given.Some? && given.value < 0.0 ==> kept.value == 0.0)
    && (given.Some? && given.value > 100.0 ==> kept.value == 100.0)
  }

  /** What is accepted, and what of it is kept. */
  lemma CleanedExactly(raw: Raw, now: int)
    ensures Cleaned(raw, now).Some? <==> Usable(raw, now)
    ensures Usable(raw, now) ==>
              var s := Cleaned(raw, now).value;
              && s.ts == raw.ts.value
              && PercentFits(s.fiveHour, raw.fiveHour) && PercentFits(s.weekly, raw.weekly)
              && s.fiveHourResets == (if raw.fiveHourResets.Some? && raw.fiveHourResets.value > 0
                                      then raw.fiveHourResets else None)
              && s.weeklyResets == (if raw.weeklyResets.Some? && raw.weeklyResets.value > 0
                                    then raw.weeklyResets else None)
  {
    if raw.Row? {
      PercentExactly(raw.fiveHour);
      PercentExactly(raw.weekly);
    }
    hide Percent, PercentFits;
  }

  lemma PercentExactly(value: Option<real>)
    ensures PercentFits(Percent(value), value)
  {
    PercentKept(value);
    if value.Some? {
      var p := Percent(value).value;
      assert (100.0 * p).Floor as real == 100.0 * p;
    }
  }

  function CleanedAll(raws: seq<Raw>, now: int): seq<Sample> {
    if raws == [] then [] else
    var last := Cleaned(raws[|raws| - 1], now);
    CleanedAll(raws[..|raws| - 1], now) + (if last.Some? then [last.value] else [])
  }

  /** A kept row, as the next call reads it back. */
  function Stored(s: Sample): Raw {
    Row(Some(s.ts), s.fiveHour, s.weekly, s.fiveHourResets, s.weeklyResets)
  }

  function StoredAll(rows: seq<Sample>): (r: seq<Raw>)
    ensures |r| == |rows| && forall i | 0 <= i < |r| :: r[i] == Stored(rows[i])
  {
    seq(|rows|, i requires 0 <= i < |rows| => Stored(rows[i]))
  }

  /* ---- Which rows survive ---- */

  function Age(now: int, ts: int): nat { if ts <= now then now - ts else 0 }

  /** The retention tiers: two days at 180 s, 31 days at 900 s, 400 days at 7200 s. */
  function Resolution(now: int, ts: int): Option<int> {
    if Age(now, ts) <= 2 * DAY then Some(180)
    else if Age(now, ts) <= 31 * DAY then Some(900)
    else if Age(now, ts) <= 400 * DAY then Some(7200)
    else None
  }

  /** The bucket of a row; None when it is too old to be kept. */
  function Key(now: int, ts: int): Option<(int, int)> {
    var r := Resolution(now, ts);
    if r.None? then None else Some((r.value, ts / r.value))
  }

  /** The row of that second read last, if any. */
  function Latest(rows: seq<Sample>, ts: int): Option<Sample> {
    if rows == [] then None
    else if rows[|rows| - 1].ts == ts then Some(rows[|rows| - 1])
    else Latest(rows[..|rows| - 1], ts)
  }

  /** A row survives when nothing in its bucket is later, and nothing of its second was read after it. */
  ghost predicate Survives(rows: seq<Sample>, now: int, s: Sample) {
    && s in rows
    && Key(now, s.ts).Some?
    && Latest(rows, s.ts) == Some(s)
    && forall x | x in rows && Key(now, x.ts) == Key(now, s.ts) :: x.ts <= s.ts
  }

  ghost predicate StrictlyIncreasing(rows: seq<Sample>) {
    forall i, j | 0 <= i < j < |rows| :: rows[i].ts < rows[j].ts
  }

  /** What `compact_samples` has to return, without saying how. */
  ghost predicate Compacts(raws: seq<Raw>, now: int, out: seq<Sample>) {
    && StrictlyIncreasing(out)
    && forall s :: s in out <==> Survives(CleanedAll(raws, now), now, s)
  }

  /** It determines the result. */
  lemma {:induction false} SameRows(a: seq<Sample>, b: seq<Sample>)
    requires StrictlyIncreasing(a) && StrictlyIncreasing(b)
    requires forall s :: s in a <==> s in b
    ensures a == b
  {
    if a == [] {
      assert forall i | 0 <= i < |b| :: b[i] in a;
    } else {
      assert a[|a| - 1] in b;
      var x, y := a[|a| - 1], b[|b| - 1];
      assert y in a;
      var c, d := a[..|a| - 1], b[..|b| - 1];
      forall s
        ensures s in c <==> s in d
      {
        if s in c { assert s in a && s != x; }
        if s in d { assert s in b && s != y; }
      }
      SameRows(c, d);
    }
  }

  lemma CompactionUnique(raws: seq<Raw>, now: int, a: seq<Sample>, b: seq<Sample>)
    requires Compacts(raws, now, a) && Compacts(raws, now, b)
    ensures a == b
  {
    SameRows(a, b);
  }

  /* ---- Every bucket has a survivor ---- */

  lemma {:induction false} LatestIn(rows: seq<Sample>, ts: int)
    ensures Latest(rows, ts).Some? ==> Latest(rows, ts).value in rows && Latest(rows, ts).value.ts == ts
    ensures Latest(rows, ts).None? ==> forall s | s in rows :: s.ts != ts
  {
    if rows == [] {
    } else {
      LatestIn(rows[..|rows| - 1], ts);
    }
  }

  /** The latest timestamp in one bucket. */
  lemma {:induction false} TopOfBucket(rows: seq<Sample>, now: int, s: Sample) returns (top: Sample)
    requires s in rows
    ensures top in rows && Key(now, top.ts) == Key(now, s.ts) && s.ts <= top.ts
    ensures forall x | x in rows && Key(now, x.ts) == Key(now, s.ts) :: x.ts <= top.ts
  {
    var init, last := rows[..|rows| - 1], rows[|rows| - 1];
    if s in init {
      top := TopOfBucket(init, now, s);
      if Key(now, last.ts) == Key(now, s.ts) && last.ts > top.ts {
        top := last;
      }
    } else if x :| x in init && Key(now, x.ts) == Key(now, s.ts) {
      top := TopOfBucket(init, now, x);
      if last.ts > top.ts {
        top := last;
      }
    } else {
      top := last;
    }
  }

  lemma BucketHasSurvivor(rows: seq<Sample>, now: int, s: Sample) returns (w: Sample)
    requires s in rows && Key(now, s.ts).Some?
    ensures Survives(rows, now, w) && Key(now, w.ts) == Key(now, s.ts) && s.ts <= w.ts
  {
    var top := TopOfBucket(rows, now, s);
    LatestIn(rows, top.ts);
    w := Latest(rows, top.ts).value;
  }

  /* ---- Compacting again changes nothing ---- */

  lemma {:induction false} CleanedIn(raws: seq<Raw>, now: int)
    ensures forall s :: s in CleanedAll(raws, now) <==> exists raw :: raw in raws && Cleaned(raw, now) == Some(s)
  {
    if raws == [] {
    } else {
      var init := raws[..|raws| - 1];
      CleanedIn(init, now);
      forall s
        ensures s in CleanedAll(raws, now) <==> exists raw :: raw in raws && Cleaned(raw, now) == Some(s)
      {
        if s in CleanedAll(init, now) {
          var raw :| raw in init && Cleaned(raw, now) == Some(s);
        }
      }
    }
  }

  /** A row that was clean once is read back unchanged while the clock does not go back. */
  lemma StoredStaysClean(raw: Raw, before: int, now: int)
    requires Cleaned(raw, before).Some? && before <= now
    ensures Cleaned(Stored(Cleaned(raw, before).value), now) == Cleaned(raw, before)
  {
    PercentKept(raw.fiveHour);
    PercentKept(raw.weekly);
    hide Percent;
  }

  lemma {:induction false} CleanRowsReadBack(rows: seq<Sample>, now: int)
    requires forall s | s in rows :: Cleaned(Stored(s), now) == Some(s)
    ensures CleanedAll(StoredAll(rows), now) == rows
  {
    if rows == [] {
    } else {
      var init := rows[..|rows| - 1];
      CleanRowsReadBack(init, now);
      assert StoredAll(rows)[..|rows| - 1] == StoredAll(init);
    }
  }

  lemma KeptAreClean(raws: seq<Raw>, before: int, out: seq<Sample>, now: int)
    requires Compacts(raws, before, out) && before <= now
    ensures CleanedAll(StoredAll(out), now) == out
  {
    forall s | s in out
      ensures Cleaned(Stored(s), now) == Some(s)
    {
      CleanedIn(raws, before);
      var raw :| raw in raws && Cleaned(raw, before) == Some(s);
      StoredStaysClean(raw, before, now);
    }
    CleanRowsReadBack(out, now);
  }

  lemma {:induction false} LatestOfIncreasing(rows: seq<Sample>, s: Sample)
    requires StrictlyIncreasing(rows) && s in rows
    ensures Latest(rows, s.ts) == Some(s)
  {
    var init, last := rows[..|rows| - 1], rows[|rows| - 1];
    if s != last {
      LatestOfIncreasing(init, s);
    }
  }

  lemma CompactionIdempotent(raws: seq<Raw>, now: int, out: seq<Sample>)
    requires Compacts(raws, now, out)
    ensures Compacts(StoredAll(out), now, out)
  {
    KeptAreClean(raws, now, out, now);
    forall s
      ensures s in out <==> Survives(out, now, s)
    {
      if s in out {
        LatestOfIncreasing(out, s);
      }
    }
  }

  /* ---- At most 8655 rows ---- */

  function Span(resolution: int, low: int, high: int): set<(int, int)> {
    set i | low <= i <= high :: (resolution, i)
  }

  lemma {:induction false} SpanSize(resolution: int, low: int, high: int)
    requires low <= high + 1
    ensures |Span(resolution, low, high)| == high - low + 1
    decreases high - low + 1
  {
    if low > high {
      assert Span(resolution, low, high) == {};
    } else {
      SpanSize(resolution, low, high - 1);
      assert Span(resolution, low, high) == Span(resolution, low, high - 1) + {(resolution, high)};
    }
  }

  /** All buckets a kept row can be in. */
  function Buckets(now: int): set<(int, int)> {
    Span(180, (now - 2 * DAY) / 180, (now + DAY) / 180)
    + Span(900, (now - 31 * DAY) / 900, (now - 2 * DAY - 1) / 900)
    + Span(7200, (now - 400 * DAY) / 7200, (now - 31 * DAY - 1) / 7200)
  }

  lemma QuotientsApart(low: int, high: int, resolution: int, width: nat)
    requires resolution > 0 && low <= high && high - low <= width * resolution
    ensures low / resolution <= high / resolution <= low / resolution + width
  {
    var a, b := low / resolution, high / resolution;
    assert resolution * a <= low < resolution * a + resolution;
    assert resolution * b <= high < resolution * b + resolution;
    assert resolution * (b - a) < (width + 1) * resolution;
    assert resolution * (a - b) < resolution;
    if b - a >= width + 1 {
      MulMono(resolution, width + 1, b - a);
    }
    if a - b >= 1 {
      MulMono(resolution, 1, a - b);
    }
  }

  lemma MulMono(k: int, a: int, b: int)
    requires k > 0 && a <= b
    ensures k * a <= k * b
  {
  }

  lemma SpanOf(resolution: int, low: int, high: int, width: nat)
    requires resolution > 0 && low <= high && high - low <= width * resolution
    ensures |Span(resolution, low / resolution, high / resolution)| <= width + 1
  {
    QuotientsApart(low, high, resolution, width);
    SpanSize(resolution, low / resolution, high / resolution);
    hide Span;
  }

  lemma BucketsSize(now: int)
    ensures |Buckets(now)| <= 1441 + 2785 + 4429
  {
    SpanOf(180, now - 2 * DAY, now + DAY, 1440);
    SpanOf(900, now - 31 * DAY, now - 2 * DAY - 1, 2784);
    SpanOf(7200, now - 400 * DAY, now - 31 * DAY - 1, 4428);
    hide Span;
  }

  function KeysOf(rows: seq<Sample>, now: int): set<(int, int)> {
    set s | s in rows && Key(now, s.ts).Some? :: Key(now, s.ts).value
  }

  lemma {:induction false} KeysSize(rows: seq<Sample>, now: int)
    requires forall s | s in rows :: Key(now, s.ts).Some?
    requires forall i, j | 0 <= i < j < |rows| :: Key(now, rows[i].ts) != Key(now, rows[j].ts)
    ensures |KeysOf(rows, now)| == |rows|
  {
    if rows == [] {
    } else {
      var init, last := rows[..|rows| - 1], rows[|rows| - 1];
      KeysSize(init, now);
      assert KeysOf(rows, now) == KeysOf(init, now) + {Key(now, last.ts).value};
    }
  }

  lemma KeyInBuckets(now: int, ts: int)
    requires ts <= now + DAY && Key(now, ts).Some?
    ensures Key(now, ts).value in Buckets(now)
  {
  }

  lemma CompactionBounded(raws: seq<Raw>, now: int, out: seq<Sample>)
    requires Compacts(raws, now, out)
    ensures |out| <= 8655
  {
    forall i, j | 0 <= i < j < |out|
      ensures Key(now, out[i].ts) != Key(now, out[j].ts)
    {
      assert out[i] in out && out[j] in out && out[i].ts < out[j].ts;
    }
    KeysSize(out, now);
    forall s | s in out
      ensures Key(now, s.ts).value in Buckets(now)
    {
      CleanedIn(raws, now);
      KeyInBuckets(now, s.ts);
    }
    SubsetSize(KeysOf(out, now), Buckets(now));
    BucketsSize(now);
  }

  /** Of rows of the same second the one read last is kept. */
  lemma LastReadStays(raws: seq<Raw>, now: int, out: seq<Sample>, s: Sample)
    requires Compacts(raws, now, out) && s in out
    ensures exists i :: 0 <= i < |raws| && Cleaned(raws[i], now) == Some(s)
                     && forall j | i < j < |raws| && Cleaned(raws[j], now).Some? :: raws[j].ts != Some(s.ts)
  {
    LastRead(raws, now, s);
  }

  lemma {:induction false} LastRead(raws: seq<Raw>, now: int, s: Sample)
    requires Latest(CleanedAll(raws, now), s.ts) == Some(s)
    ensures exists i :: 0 <= i < |raws| && Cleaned(raws[i], now) == Some(s)
                     && forall j | i < j < |raws| && Cleaned(raws[j], now).Some? :: raws[j].ts != Some(s.ts)
  {
    if raws == [] {
    } else {
      var n := |raws| - 1;
      var last, clean := Cleaned(raws[n], now), CleanedAll(raws[..n], now);
      assert if last.Some? then (clean + [last.value])[..|clean|] == clean else clean + [] == clean;
      if last != Some(s) {
        LastRead(raws[..n], now, s);
        var i :| 0 <= i < n && Cleaned(raws[..n][i], now) == Some(s)
          && forall j | i < j < n && Cleaned(raws[..n][j], now).Some? :: raws[..n][j].ts != Some(s.ts);
        assert raws[i] == raws[..n][i] && forall j | i < j < n :: raws[j] == raws[..n][j];
      }
    }
  }

  /* ---- Runs of calls ---- */

  /** One locked update: the rows it adds to those stored, and the clock it uses. A
      failed collection adds none; an import adds many. */
  datatype Call = Call(now: int, added: seq<Raw>)

  /** `kept[i]` is what is stored before call i. */
  ghost predicate History(calls: seq<Call>, kept: seq<seq<Sample>>) {
    && |kept| == |calls| + 1 && kept[0] == []
    && (forall i | 0 <= i < |calls| :: Compacts(StoredAll(kept[i]) + calls[i].added, calls[i].now, kept[i + 1]))
    && forall i, j | 0 <= i < j < |calls| :: calls[i].now <= calls[j].now
  }

  /** Represented by a stored row no earlier than it, in its bucket of that resolution. */
  ghost predicate Represented(rows: seq<Sample>, ts: int, resolution: int)
    requires resolution > 0
  {
    exists r :: r in rows && ts <= r.ts && r.ts / resolution == ts / resolution
  }

  /** The tiers nest: a bucket lies inside one bucket of every coarser tier. */
  lemma BucketsNest(a: int, b: int, fine: int, coarse: int)
    requires (fine, coarse) in {(180, 180), (180, 900), (180, 7200), (900, 900), (900, 7200), (7200, 7200)}
    requires a / fine == b / fine
    ensures a / coarse == b / coarse
  {
    assert fine == 180 && coarse == 900 ==> a / 900 == (a / 180) / 5 && b / 900 == (b / 180) / 5;
    assert fine == 180 && coarse == 7200 ==> a / 7200 == (a / 180) / 40 && b / 7200 == (b / 180) / 40;
    assert fine == 900 && coarse == 7200 ==> a / 7200 == (a / 900) / 8 && b / 7200 == (b / 900) / 8;
  }

  lemma {:induction false} CleanedConcat(a: seq<Raw>, b: seq<Raw>, now: int)
    ensures CleanedAll(a + b, now) == CleanedAll(a, now) + CleanedAll(b, now)
  {
    if b == [] {
      assert a + b == a;
    } else {
      CleanedConcat(a, b[..|b| - 1], now);
      assert (a + b)[..|a + b| - 1] == a + b[..|b| - 1];
    }
  }

  /** One compaction keeps a row represented that the clean input represents. */
  lemma CompactionRepresents(raws: seq<Raw>, now: int, out: seq<Sample>, ts: int, fine: int)
    requires Compacts(raws, now, out)
    requires Resolution(now, ts).Some? && fine in {180, 900, 7200} && fine <= Resolution(now, ts).value
    requires Represented(CleanedAll(raws, now), ts, fine)
    ensures Represented(out, ts, Resolution(now, ts).value)
  {
    var coarse := Resolution(now, ts).value;
    var r :| r in CleanedAll(raws, now) && ts <= r.ts && r.ts / fine == ts / fine;
    var w := BucketHasSurvivor(CleanedAll(raws, now), now, r);
    BucketsNest(r.ts, ts, fine, coarse);
    BucketsNest(w.ts, r.ts, Resolution(now, r.ts).value, coarse);
  }

  /** One more call, however much later, keeps what the last one left represented. */
  lemma CoverCarries(first: seq<Sample>, a: Call, mid: seq<Sample>, b: Call, last: seq<Sample>, ts: int)
    requires Compacts(StoredAll(first) + a.added, a.now, mid) && Compacts(StoredAll(mid) + b.added, b.now, last)
    requires a.now <= b.now && Age(b.now, ts) <= 400 * DAY
    requires Represented(mid, ts, Resolution(a.now, ts).value)
    ensures Represented(last, ts, Resolution(b.now, ts).value)
  {
    var fine := Resolution(a.now, ts).value;
    KeptAreClean(StoredAll(first) + a.added, a.now, mid, b.now);
    CleanedConcat(StoredAll(mid), b.added, b.now);
    hide CleanedAll, StoredAll, Compacts;
    CompactionRepresents(StoredAll(mid) + b.added, b.now, last, ts, fine);
  }

  /** A row accepted by a call is represented at once. */
  lemma CoverBegins(first: seq<Sample>, a: Call, mid: seq<Sample>, raw: Raw)
    requires Compacts(StoredAll(first) + a.added, a.now, mid)
    requires raw in a.added && Cleaned(raw, a.now).Some? && Age(a.now, raw.ts.value) <= 400 * DAY
    ensures Represented(mid, raw.ts.value, Resolution(a.now, raw.ts.value).value)
  {
    CleanedConcat(StoredAll(first), a.added, a.now);
    CleanedIn(a.added, a.now);
    hide CleanedAll, StoredAll, Compacts;
    CompactionRepresents(StoredAll(first) + a.added, a.now, mid, raw.ts.value, 180);
  }

  /** Whatever was accepted stays represented at the resolution its age has now, for as
      long as it is at most 400 days old. */
  lemma {:induction false} HistoryCovers(calls: seq<Call>, kept: seq<seq<Sample>>, k: nat, raw: Raw)
    requires History(calls, kept)
    requires k < |calls| && raw in calls[k].added && Usable(raw, calls[k].now)
    requires Age(calls[|calls| - 1].now, raw.ts.value) <= 400 * DAY
    ensures Represented(kept[|calls|], raw.ts.value, Resolution(calls[|calls| - 1].now, raw.ts.value).value)
    decreases |calls|
  {
    var n := |calls| - 1;
    if k == n {
      CleanedExactly(raw, calls[n].now);
      CoverBegins(kept[n], calls[n], kept[n + 1], raw);
    } else {
      HistoryCovers(calls[..n], kept[..n + 1], k, raw);
      CoverCarries(kept[n - 1], calls[n - 1], kept[n], calls[n], kept[n + 1], raw.ts.value);
    }
    hide Represented, Compacts, CleanedAll, StoredAll;
  }

  /** So a row at most two days old has a later row within the same three minutes, one at
      most 31 days old within the same quarter of an hour, and one at most 400 days old
      within the same two hours. */
  lemma HistoryCoversTiers(calls: seq<Call>, kept: seq<seq<Sample>>, k: nat, raw: Raw)
    requires History(calls, kept)
    requires k < |calls| && raw in calls[k].added && Usable(raw, calls[k].now)
    ensures var (age, rows) := (calls[|calls| - 1].now - raw.ts.value, kept[|calls|]);
            && (age <= 2 * 86400 ==> Represented(rows, raw.ts.value, 180))
            && (age <= 31 * 86400 ==> Represented(rows, raw.ts.value, 900))
            && (age <= 400 * 86400 ==> Represented(rows, raw.ts.value, 7200))
  {
    if calls[|calls| - 1].now - raw.ts.value <= 400 * 86400 {
      HistoryCovers(calls, kept, k, raw);
      var fine := Resolution(calls[|calls| - 1].now, raw.ts.value).value;
      var r :| r in kept[|calls|] && raw.ts.value <= r.ts && r.ts / fine == raw.ts.value / fine;
      BucketsNest(r.ts, raw.ts.value, fine, 7200);
      if fine <= 900 {
        BucketsNest(r.ts, raw.ts.value, fine, 900);
      }
    }
    hide Compacts, CleanedAll, StoredAll, History;
  }

  /** Nothing is invented: every stored row was accepted by one of the calls. */
  lemma {:induction false} HistoryInventsNothing(calls: seq<Call>, kept: seq<seq<Sample>>, s: Sample)
    requires History(calls, kept) && s in kept[|calls|]
    ensures exists i, raw :: 0 <= i < |calls| && raw in calls[i].added && Cleaned(raw, calls[i].now) == Some(s)
    decreases |calls|
  {
    if |calls| > 0 {
      var n := |calls| - 1;
      var now := calls[n].now;
      CleanedConcat(StoredAll(kept[n]), calls[n].added, now);
      CleanedIn(calls[n].added, now);
      if s !in CleanedAll(calls[n].added, now) {
        if n > 0 {
          KeptAreClean(StoredAll(kept[n - 1]) + calls[n - 1].added, calls[n - 1].now, kept[n], now);
        }
        HistoryInventsNothing(calls[..n], kept[..n + 1], s);
        var i, raw :| 0 <= i < n && raw in calls[..n][i].added && Cleaned(raw, calls[..n][i].now) == Some(s);
      }
    }
  }
}

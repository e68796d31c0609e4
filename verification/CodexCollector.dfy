/** `compact_samples`, `collect_once` and the merge step of `import_legacy_csv`, shown to
    meet the compaction's specification. */
module CodexCollector {
  import opened StateStore
  import opened CodexHistory

  /** Pairs of greatest age and resolution, tried in this order. */
  const RETENTION_TIERS: seq<(int, int)> := [(2 * DAY, 180), (31 * DAY, 900), (400 * DAY, 7200)]

  /* ---- The stable sort by time ---- */

  ghost predicate Ascending(rows: seq<Sample>) {
    forall i, j | 0 <= i < j < |rows| :: rows[i].ts <= rows[j].ts
  }

  function Inserted(rows: seq<Sample>, s: Sample): seq<Sample> {
    if rows == [] || rows[|rows| - 1].ts <= s.ts then rows + [s]
    else Inserted(rows[..|rows| - 1], s) + [rows[|rows| - 1]]
  }

  function Chronological(rows: seq<Sample>): seq<Sample> {
    if rows == [] then [] else Inserted(Chronological(rows[..|rows| - 1]), rows[|rows| - 1])
  }

  lemma {:induction false} InsertedIn(rows: seq<Sample>, s: Sample)
    ensures forall x :: x in Inserted(rows, s) <==> x in rows || x == s
  {
    if rows != [] && rows[|rows| - 1].ts > s.ts {
      InsertedIn(rows[..|rows| - 1], s);
    }
  }

  lemma {:induction false} InsertedLatest(rows: seq<Sample>, s: Sample, t: int)
    requires Ascending(rows)
    ensures Latest(Inserted(rows, s), t) == if t == s.ts then Some(s) else Latest(rows, t)
  {
    if rows != [] && rows[|rows| - 1].ts > s.ts {
      InsertedLatest(rows[..|rows| - 1], s, t);
    }
  }

  lemma {:induction false} InsertedAscending(rows: seq<Sample>, s: Sample)
    requires Ascending(rows)
    ensures Ascending(Inserted(rows, s))
  {
    if rows != [] && rows[|rows| - 1].ts > s.ts {
      var init, last := rows[..|rows| - 1], rows[|rows| - 1];
      var more := Inserted(init, s);
      InsertedAscending(init, s);
      InsertedIn(init, s);
      forall i | 0 <= i < |more|
        ensures more[i].ts <= last.ts
      {
        assert more[i] in more;
      }
      hide Inserted;
    }
  }

  lemma {:induction false} InsertedStrict(rows: seq<Sample>, s: Sample)
    requires StrictlyIncreasing(rows) && forall x | x in rows :: x.ts != s.ts
    ensures StrictlyIncreasing(Inserted(rows, s))
  {
    if rows != [] && rows[|rows| - 1].ts > s.ts {
      var init, last := rows[..|rows| - 1], rows[|rows| - 1];
      var more := Inserted(init, s);
      InsertedStrict(init, s);
      InsertedIn(init, s);
      forall i | 0 <= i < |more|
        ensures more[i].ts < last.ts
      {
        assert more[i] in more;
      }
      hide Inserted;
    }
  }

  lemma {:induction false} ChronologicalMeans(rows: seq<Sample>)
    ensures Ascending(Chronological(rows))
    ensures forall x :: x in Chronological(rows) <==> x in rows
    ensures forall t :: Latest(Chronological(rows), t) == Latest(rows, t)
    ensures (forall i, j | 0 <= i < j < |rows| :: rows[i].ts != rows[j].ts) ==> StrictlyIncreasing(Chronological(rows))
  {
    if rows == [] {
    } else {
      var init, last := rows[..|rows| - 1], rows[|rows| - 1];
      ChronologicalMeans(init);
      InsertedIn(Chronological(init), last);
      InsertedAscending(Chronological(init), last);
      if forall i, j | 0 <= i < j < |rows| :: rows[i].ts != rows[j].ts {
        InsertedStrict(Chronological(init), last);
      }
      forall t
        ensures Latest(Chronological(rows), t) == Latest(rows, t)
      {
        InsertedLatest(Chronological(init), last, t);
      }
    }
  }

  /** Survival does not depend on the order of rows of different seconds. */
  lemma SurvivesSorted(rows: seq<Sample>, now: int, s: Sample)
    ensures Survives(Chronological(rows), now, s) <==> Survives(rows, now, s)
  {
    ChronologicalMeans(rows);
  }

  /* ---- The bucket loop ---- */

  ghost predicate Filled(rows: seq<Sample>, now: int, buckets: map<(int, int), Sample>) {
    && (forall x | x in rows && Key(now, x.ts).Some? :: Key(now, x.ts).value in buckets)
    && forall k | k in buckets :: Key(now, buckets[k].ts) == Some(k) && Survives(rows, now, buckets[k])
  }

  lemma FilledMore(rows: seq<Sample>, s: Sample, now: int, buckets: map<(int, int), Sample>)
    requires Filled(rows, now, buckets) && Ascending(rows + [s])
    ensures Filled(rows + [s], now, if Key(now, s.ts).Some? then buckets[Key(now, s.ts).value := s] else buckets)
  {
  }

  method TierOf(now: int, ts: int) returns (r: Option<int>)
    ensures r == Resolution(now, ts)
  {
    var age := if ts <= now then now - ts else 0;
    for i := 0 to |RETENTION_TIERS|
      invariant forall j | 0 <= j < i :: age > RETENTION_TIERS[j].0
    {
      if age <= RETENTION_TIERS[i].0 {
        assert i > 0 ==> age > RETENTION_TIERS[i - 1].0;
        return Some(RETENTION_TIERS[i].1);
      }
    }
    assert age > RETENTION_TIERS[2].0;
    r := None;
  }

  /** The first loop: the rows that can be used at all. */
  method CleanSamples(samples: seq<Raw>, now: int) returns (clean: seq<Sample>)
    ensures clean == CleanedAll(samples, now)
  {
    clean := [];
    for i := 0 to |samples|
      invariant clean == CleanedAll(samples[..i], now)
    {
      assert samples[..i + 1][..i] == samples[..i];
      var sample := Cleaned(samples[i], now);
      if sample.Some? {
        clean := clean + [sample.value];
      }
    }
    assert samples[..|samples|] == samples;
  }

  /** The second loop: later rows replace earlier ones in their bucket. */
  method FillBuckets(rows: seq<Sample>, now: int) returns (buckets: map<(int, int), Sample>)
    requires Ascending(rows)
    ensures Filled(rows, now, buckets)
  {
    buckets := map[];
    for i := 0 to |rows|
      invariant Filled(rows[..i], now, buckets)
    {
      assert rows[..i + 1] == rows[..i] + [rows[i]];
      FilledMore(rows[..i], rows[i], now, buckets);
      hide Filled, Resolution;
      var resolution := TierOf(now, rows[i].ts);
      if resolution.Some? {
        buckets := buckets[(resolution.value, rows[i].ts / resolution.value) := rows[i]];
      }
    }
    assert rows[..|rows|] == rows;
  }

  method CompactSamples(samples: seq<Raw>, now: int) returns (out: seq<Sample>)
    ensures Compacts(samples, now, out)
  {
    var clean := CleanSamples(samples, now);
    assert Ascending(Chronological(clean)) by { ChronologicalMeans(clean); }
    forall s
      ensures Survives(Chronological(clean), now, s) <==> Survives(clean, now, s)
    {
      SurvivesSorted(clean, now, s);
    }
    hide Chronological, CleanedAll, Survives, Filled, Ascending;
    var rows := Chronological(clean);
    var buckets := FillBuckets(rows, now);
    out := ValuesByTime(rows, buckets, now);
  }

  /** The kept values in chronological order. */
  method ValuesByTime(rows: seq<Sample>, buckets: map<(int, int), Sample>, now: int) returns (out: seq<Sample>)
    requires Filled(rows, now, buckets)
    ensures StrictlyIncreasing(out) && forall s :: s in out <==> Survives(rows, now, s)
  {
    var keys := buckets.Keys;
    var values: seq<Sample> := [];
    while keys != {}
      invariant keys <= buckets.Keys
      invariant forall s :: s in values <==> exists k :: k in buckets && k !in keys && buckets[k] == s
      invariant forall i, j | 0 <= i < j < |values| :: values[i].ts != values[j].ts
    {
      var k :| k in keys;
      assert forall s | s in values :: Key(now, s.ts) != Some(k);
      values := values + [buckets[k]];
      keys := keys - {k};
    }
    ChronologicalMeans(values);
    out := Chronological(values);
    forall s
      ensures s in values <==> Survives(rows, now, s)
    {
      if Survives(rows, now, s) {
        var k := Key(now, s.ts).value;
        assert buckets[k] in rows && s in rows;
        assert buckets[k].ts == s.ts;
      }
    }
  }

  /* ---- The locked updates ---- */

  datatype Quota = Quota(samples: seq<Raw>, failures: nat, lastSuccess: Option<int>)

  class Collector {
    const file: JsonFile<Quota>

    constructor (file: JsonFile<Quota>)
      ensures this.file == file
    {
      this.file := file;
    }

    /** What the next call finds after `rows` were kept, under some clean count of failures. */
    static function Kept(rows: seq<Sample>, failures: nat, success: Option<int>): Quota {
      Quota(StoredAll(rows), failures, success)
    }

    /** `collect_once`. A query that fails still compacts; a save that fails is followed by
        the failure path, which compacts what was already compacted. */
    method CollectOnce(answer: Option<Raw>, now: int, saved: Fault, recorded: Fault)
      returns (ok: bool, ghost rows: seq<Sample>)
      modifies file
      ensures ok <==> answer.Some? && saved == NoFault
      ensures Compacts(old(file.visible.samples) + (if answer.Some? then [answer.value] else []), now, rows)
      ensures ok ==> file.Contents() == old(file.Contents()).Write(Kept(rows, 0, Some(now)), Durable)
      ensures !ok ==>
                var failures := (if answer.Some? then 0 else old(file.visible.failures)) + 1;
                var success := if answer.Some? then Some(now) else old(file.visible.lastSuccess);
                var first := if answer.Some? then old(file.Contents()).Write(Kept(rows, 0, Some(now)), Landing(saved))
                             else old(file.Contents());
                file.Contents() == first.Write(Kept(rows, failures, success), Landing(recorded))
    {
      var quota := file.visible;
      if answer.Some? {
        var kept := CompactSamples(quota.samples + [answer.value], now);
        rows := kept;
        quota := Quota(StoredAll(kept), 0, Some(now));
        var o := file.WriteAtomic(quota, saved);
        if o == Durable {
          return true, rows;
        }
      }
      var kept := CompactSamples(quota.samples, now);
      if answer.Some? {
        CompactionIdempotent(old(file.visible.samples) + [answer.value], now, rows);
        CompactionUnique(quota.samples, now, kept, rows);
      } else {
        assert old(file.visible.samples) + [] == quota.samples;
        rows := kept;
      }
      var _ := file.WriteAtomic(Quota(StoredAll(kept), quota.failures + 1, quota.lastSuccess), recorded);
      ok := false;
    }

    /** The merge of `import_legacy_csv`: how many rows the import added. */
    method Merge(imported: seq<Raw>, now: int, saved: Fault) returns (gained: int, ghost rows: seq<Sample>)
      modifies file
      ensures Compacts(old(file.visible.samples) + imported, now, rows)
      ensures file.Contents() ==
              old(file.Contents()).Write(Kept(rows, old(file.visible.failures), old(file.visible.lastSuccess)),
                Landing(saved))
      ensures gained >= 0
      ensures forall before | Compacts(old(file.visible.samples), now, before) ::
                gained == if |rows| >= |before| then |rows| - |before| else 0
    {
      var quota := file.visible;
      var before := CompactSamples(quota.samples, now);
      var kept := CompactSamples(quota.samples + imported, now);
      rows := kept;
      var _ := file.WriteAtomic(Quota(StoredAll(kept), quota.failures, quota.lastSuccess), saved);
      gained := if |kept| >= |before| then |kept| - |before| else 0;
      forall other | Compacts(quota.samples, now, other)
        ensures other == before
      {
        CompactionUnique(quota.samples, now, other, before);
      }
    }
  }
}

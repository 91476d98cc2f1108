/**
 * The webhook rate limiter (apps/api/src/feishu-webhook.ts:227-257): fixed windows per key in
 * a bounded map. A full map is swept of expired buckets and, if that is not enough, loses its
 * oldest key.
 */
module RateLimiter {
  import opened Wrappers

  datatype Config = Config(windowMs: nat, maxRequests: nat, maxKeys: nat)

  datatype Bucket = Bucket(count: nat, windowStart: int)

  datatype Entry = Entry(key: string, bucket: Bucket)

  /** A Map in insertion order; setting a key it holds keeps the key's place. */
  type Table = seq<Entry>

  function Find(table: Table, key: string): Option<Bucket> {
    if table == [] then None
    else if table[0].key == key then Some(table[0].bucket)
    else Find(table[1..], key)
  }

  function Put(table: Table, key: string, bucket: Bucket): Table {
    if table == [] then [Entry(key, bucket)]
    else if table[0].key == key then [Entry(key, bucket)] + table[1..]
    else [table[0]] + Put(table[1..], key, bucket)
  }

  predicate IsLive(c: Config, bucket: Bucket, now: int) {
    now - bucket.windowStart <= c.windowMs
  }

  function Sweep(c: Config, table: Table, now: int): Table {
    if table == [] then []
    else (if IsLive(c, table[0].bucket, now) then [table[0]] else []) + Sweep(c, table[1..], now)
  }

  /** The oldest key is dropped by force, unless it is the empty string, which is falsy. */
  function Evicted(c: Config, table: Table, key: string, now: int): Option<string> {
    if |table| < c.maxKeys || Find(table, key).Some? then None
    else
      var swept := Sweep(c, table, now);
      if |swept| < c.maxKeys || swept == [] || swept[0].key == "" then None else Some(swept[0].key)
  }

  /** The map once there is room for the key, if room could be made. */
  function Roomy(c: Config, table: Table, key: string, now: int): Table {
    if |table| < c.maxKeys || Find(table, key).Some? then table
    else
      var swept := Sweep(c, table, now);
      if Evicted(c, table, key, now).Some? then swept[1..] else swept
  }

  predicate Admits(c: Config, table: Table, key: string, now: int) {
    var existing := Find(table, key);
    existing.Some? && IsLive(c, existing.value, now) ==> existing.value.count < c.maxRequests
  }

  /** The map after a check. */
  function Checked(c: Config, table: Table, key: string, now: int): Table {
    var existing := Find(table, key);
    if existing.Some? && IsLive(c, existing.value, now) then
      if existing.value.count >= c.maxRequests then table
      else Put(table, key, existing.value.(count := existing.value.count + 1))
    else
      Put(Roomy(c, table, key, now), key, Bucket(1, now))
  }

  class WebhookRateLimiter {
    const config: Config
    var buckets: Table

    constructor (config: Config)
      ensures this.config == config && buckets == []
    {
      this.config := config;
      buckets := [];
    }

    method SweepExpired(current: int)
      modifies this
      ensures buckets == Sweep(config, old(buckets), current)
    {
      var i := 0;
      while i < |buckets|
        invariant 0 <= i <= |buckets|
        invariant Sweep(config, buckets[..i], current) == buckets[..i]
        invariant Sweep(config, buckets, current) == Sweep(config, old(buckets), current)
        decreases |buckets| - i
      {
        SweepConcat(config, buckets[..i], buckets[i..], current);
        assert buckets == buckets[..i] + buckets[i..];
        if current - buckets[i].bucket.windowStart > config.windowMs {
          SweepConcat(config, buckets[..i], buckets[i + 1..], current);
          assert (buckets[..i] + buckets[i + 1..])[..i] == buckets[..i];
          buckets := buckets[..i] + buckets[i + 1..];
        } else {
          SweepConcat(config, buckets[..i], [buckets[i]], current);
          assert buckets[..i + 1] == buckets[..i] + [buckets[i]];
          i := i + 1;
        }
      }
      assert buckets[..i] == buckets;
    }

    method CheckRateLimit(key: string, current: int) returns (admitted: bool)
      modifies this
      ensures admitted == Admits(config, old(buckets), key, current)
      ensures buckets == Checked(config, old(buckets), key, current)
    {
      var existing := Find(buckets, key);
      if existing.Some? && current - existing.value.windowStart <= config.windowMs {
        if existing.value.count >= config.maxRequests {
          return false;
        }
        buckets := Put(buckets, key, existing.value.(count := existing.value.count + 1));
        return true;
      }
      if |buckets| >= config.maxKeys && existing.None? {
        SweepExpired(current);
        if |buckets| >= config.maxKeys {
          if |buckets| > 0 && buckets[0].key != "" {
            buckets := buckets[1..];
          }
        }
      }
      buckets := Put(buckets, key, Bucket(1, current));
      admitted := true;
    }
  }

  lemma {:induction false} SweepConcat(c: Config, s: Table, t: Table, now: int)
    ensures Sweep(c, s + t, now) == Sweep(c, s, now) + Sweep(c, t, now)
  {
    if s == [] {
      assert s + t == t;
    } else {
      SweepConcat(c, s[1..], t, now);
      assert (s + t)[0] == s[0] && (s + t)[1..] == s[1..] + t;
      Associate(if IsLive(c, s[0].bucket, now) then [s[0]] else [], Sweep(c, s[1..], now), Sweep(c, t, now));
    }
  }

  lemma Associate(r: Table, s: Table, t: Table)
    ensures r + (s + t) == (r + s) + t
  {
  }

  // ---- Runs ----

  datatype Request = Request(key: string, at: int)

  predicate IsMonotone(requests: seq<Request>) {
    forall i, j :: 0 <= i < j < |requests| ==> requests[i].at <= requests[j].at
  }

  /** The map after all requests. */
  function After(c: Config, requests: seq<Request>): Table {
    if requests == [] then []
    else
      var last := requests[|requests| - 1];
      Checked(c, After(c, requests[..|requests| - 1]), last.key, last.at)
  }

  function Answer(c: Config, requests: seq<Request>, i: nat): bool
    requires i < |requests|
  {
    Admits(c, After(c, requests[..i]), requests[i].key, requests[i].at)
  }

  /** The key dropped by force when the i-th request came. */
  function Dropped(c: Config, requests: seq<Request>, i: nat): Option<string>
    requires i < |requests|
  {
    var before := After(c, requests[..i]);
    var existing := Find(before, requests[i].key);
    if existing.Some? && IsLive(c, existing.value, requests[i].at) then None
    else Evicted(c, before, requests[i].key, requests[i].at)
  }

  predicate NeverDropped(c: Config, requests: seq<Request>, key: string) {
    forall i :: 0 <= i < |requests| ==> Dropped(c, requests, i) != Some(key)
  }

  // ---- Size ----

  predicate UniqueKeys(table: Table) {
    forall i, j :: 0 <= i < j < |table| ==> table[i].key != table[j].key
  }

  lemma {:induction false} PutSize(table: Table, key: string, bucket: Bucket)
    ensures |Put(table, key, bucket)| == if Find(table, key).Some? then |table| else |table| + 1
  {
    if table != [] && table[0].key != key {
      PutSize(table[1..], key, bucket);
    }
  }

  lemma {:induction false} SweepShrinks(c: Config, table: Table, key: string, now: int)
    ensures |Sweep(c, table, now)| <= |table|
    ensures Find(table, key).None? ==> Find(Sweep(c, table, now), key).None?
  {
    if table != [] {
      SweepShrinks(c, table[1..], key, now);
      var rest := Sweep(c, table[1..], now);
      if IsLive(c, table[0].bucket, now) {
        assert ([table[0]] + rest)[1..] == rest;
      } else {
        assert [] + rest == rest;
      }
    }
  }

  /**
   * A check takes a map within the bound beyond it exactly when the sweep frees nothing and
   * the oldest key is the empty string, or there is no oldest key because the bound is zero.
   */
  lemma ExceedsExactlyBehindTheEmptyKey(c: Config, table: Table, key: string, now: int)
    requires |table| <= c.maxKeys
    ensures |Checked(c, table, key, now)| > c.maxKeys <==>
      && Find(table, key).None?
      && |Sweep(c, table, now)| == c.maxKeys
      && (c.maxKeys == 0 || Sweep(c, table, now)[0].key == "")
  {
    var existing, roomy := Find(table, key), Roomy(c, table, key, now);
    SweepShrinks(c, table, key, now);
    if existing.Some? {
      PutSize(table, key, existing.value.(count := existing.value.count + 1));
      PutSize(table, key, Bucket(1, now));
    } else {
      PutSize(roomy, key, Bucket(1, now));
      if |table| >= c.maxKeys {
        var swept := Sweep(c, table, now);
        assert Find(swept, key).None?;
        if swept != [] {
          assert Find(swept[1..], key).None?;
        }
      }
    }
  }

  lemma {:induction false} PutMembers(table: Table, key: string, bucket: Bucket)
    ensures forall e :: e in Put(table, key, bucket) ==> e.key == key || e in table
  {
    if table != [] && table[0].key != key {
      PutMembers(table[1..], key, bucket);
    }
  }

  lemma {:induction false} SweepMembers(c: Config, table: Table, now: int)
    ensures forall e :: e in Sweep(c, table, now) ==> e in table
  {
    if table != [] {
      SweepMembers(c, table[1..], now);
    }
  }

  predicate NoEmptyKey(requests: seq<Request>) {
    forall i :: 0 <= i < |requests| ==> requests[i].key != ""
  }

  lemma CheckedMembers(c: Config, table: Table, key: string, now: int)
    ensures forall e :: e in Checked(c, table, key, now) ==> e.key == key || e in table
  {
    var existing, roomy := Find(table, key), Roomy(c, table, key, now);
    if existing.Some? {
      PutMembers(table, key, existing.value.(count := existing.value.count + 1));
    }
    PutMembers(roomy, key, Bucket(1, now));
    SweepMembers(c, table, now);
    assert forall e :: e in roomy ==> e in table;
  }

  /** Without empty keys the map never holds more than maxKeys keys. */
  lemma {:induction false} NeverTooManyKeys(c: Config, requests: seq<Request>)
    requires c.maxKeys >= 1 && NoEmptyKey(requests)
    ensures |After(c, requests)| <= c.maxKeys
    ensures forall e :: e in After(c, requests) ==> e.key != ""
  {
    if requests != [] {
      var front, last := requests[..|requests| - 1], requests[|requests| - 1];
      NeverTooManyKeys(c, front);
      ExceedsExactlyBehindTheEmptyKey(c, After(c, front), last.key, last.at);
      CheckedMembers(c, After(c, front), last.key, last.at);
      SweepMembers(c, After(c, front), last.at);
      var swept := Sweep(c, After(c, front), last.at);
      assert swept != [] ==> swept[0] in swept;
    }
  }

  /** With the empty key first, every further key of the window makes the map larger. */
  lemma EmptyKeyBreaksTheBound() returns (c: Config, requests: seq<Request>)
    ensures c.maxKeys == 1 && |After(c, requests)| == 2
  {
    c := Config(1000, 1, 1);
    requests := [Request("", 0), Request("a", 0)];
    assert requests[..1] == [Request("", 0)] && requests[..1][..0] == [];
    assert After(c, requests[..1]) == [Entry("", Bucket(1, 0))];
    assert Sweep(c, [Entry("", Bucket(1, 0))], 0) == [Entry("", Bucket(1, 0))];
    assert After(c, requests) == Put([Entry("", Bucket(1, 0))], "a", Bucket(1, 0));
  }

  // ---- The rule per key ----

  function AloneStep(c: Config, before: Option<Bucket>, now: int): Option<Bucket> {
    if before.Some? && IsLive(c, before.value, now) then
      if before.value.count >= c.maxRequests then before
      else Some(before.value.(count := before.value.count + 1))
    else Some(Bucket(1, now))
  }

  /** The limiter of one key, without a bound and without a sweep. */
  function Alone(c: Config, requests: seq<Request>, key: string): Option<Bucket> {
    if requests == [] then None
    else
      var before, last := Alone(c, requests[..|requests| - 1], key), requests[|requests| - 1];
      if last.key == key then AloneStep(c, before, last.at) else before
  }

  predicate AloneAdmits(c: Config, bucket: Option<Bucket>, now: int) {
    bucket.Some? && IsLive(c, bucket.value, now) ==> bucket.value.count < c.maxRequests
  }

  /** The same bucket, or one that no longer matters. */
  predicate Agrees(c: Config, found: Option<Bucket>, alone: Option<Bucket>, now: int) {
    found == alone || (found.None? && alone.Some? && !IsLive(c, alone.value, now))
  }

  lemma {:induction false} FindAfterPut(table: Table, key: string, bucket: Bucket, other: string)
    ensures Find(Put(table, key, bucket), other) == if other == key then Some(bucket) else Find(table, other)
  {
    if table != [] {
      if table[0].key == key {
        assert ([Entry(key, bucket)] + table[1..])[1..] == table[1..];
      } else {
        FindAfterPut(table[1..], key, bucket, other);
      }
    }
  }

  /** The sweep hides expired buckets and nothing else. */
  lemma {:induction false} FindAfterSweep(c: Config, table: Table, now: int, key: string)
    requires UniqueKeys(table)
    ensures var found := Find(table, key);
      Find(Sweep(c, table, now), key) == if found.Some? && IsLive(c, found.value, now) then found else None
  {
    if table != [] {
      FindAfterSweep(c, table[1..], now, key);
      var rest := Sweep(c, table[1..], now);
      if table[0].key == key {
        NotFound(table[1..], key);
        SweepShrinks(c, table[1..], key, now);
      }
      if IsLive(c, table[0].bucket, now) {
        assert ([table[0]] + rest)[1..] == rest;
      } else {
        assert [] + rest == rest;
      }
    }
  }

  lemma {:induction false} NotFound(table: Table, key: string)
    requires forall i :: 0 <= i < |table| ==> table[i].key != key
    ensures Find(table, key).None?
  {
    if table != [] {
      NotFound(table[1..], key);
    }
  }

  /** The sweep changes no later answer for any key, nor the bucket that the answer leaves. */
  lemma SweepChangesNoAnswer(c: Config, table: Table, now: int, key: string, later: int)
    requires UniqueKeys(table) && now <= later
    ensures Admits(c, Sweep(c, table, now), key, later) <==> Admits(c, table, key, later)
    ensures Agrees(c, Find(Sweep(c, table, now), key), Find(table, key), later)
  {
    FindAfterSweep(c, table, now, key);
  }

  lemma {:induction false} PutKeepsUnique(table: Table, key: string, bucket: Bucket)
    requires UniqueKeys(table)
    ensures UniqueKeys(Put(table, key, bucket))
  {
    if table != [] && table[0].key != key {
      PutKeepsUnique(table[1..], key, bucket);
      PutMembers(table[1..], key, bucket);
      var rest := Put(table[1..], key, bucket);
      forall j | 0 <= j < |rest| ensures rest[j].key != table[0].key {
        assert rest[j] in rest;
      }
    }
  }

  lemma {:induction false} SweepKeepsUnique(c: Config, table: Table, now: int)
    requires UniqueKeys(table)
    ensures UniqueKeys(Sweep(c, table, now))
  {
    if table != [] {
      SweepKeepsUnique(c, table[1..], now);
      SweepMembers(c, table[1..], now);
      var rest := Sweep(c, table[1..], now);
      forall j | 0 <= j < |rest| ensures rest[j].key != table[0].key {
        assert rest[j] in rest;
      }
    }
  }

  lemma CheckedKeepsUnique(c: Config, table: Table, key: string, now: int)
    requires UniqueKeys(table)
    ensures UniqueKeys(Checked(c, table, key, now)) && UniqueKeys(Roomy(c, table, key, now))
  {
    var existing := Find(table, key);
    if existing.Some? {
      PutKeepsUnique(table, key, existing.value.(count := existing.value.count + 1));
    }
    SweepKeepsUnique(c, table, now);
    PutKeepsUnique(Roomy(c, table, key, now), key, Bucket(1, now));
  }

  lemma {:induction false} AfterIsUnique(c: Config, requests: seq<Request>)
    ensures UniqueKeys(After(c, requests))
  {
    if requests != [] {
      var front, last := requests[..|requests| - 1], requests[|requests| - 1];
      AfterIsUnique(c, front);
      CheckedKeepsUnique(c, After(c, front), last.key, last.at);
    }
  }

  /** Making room for another key hides at most what is expired or dropped by force. */
  lemma FindInRoomy(c: Config, table: Table, key: string, now: int, other: string)
    requires UniqueKeys(table) && Evicted(c, table, key, now) != Some(other)
    ensures Agrees(c, Find(Roomy(c, table, key, now), other), Find(table, other), now)
  {
    FindAfterSweep(c, table, now, other);
    var swept := Sweep(c, table, now);
    if Evicted(c, table, key, now).Some? && |table| >= c.maxKeys && Find(table, key).None? {
      assert Find(swept, other) == Find(swept[1..], other);
    }
  }

  /**
   * The bounded, swept map answers a key that is never dropped by force as if the key had the
   * limiter to itself.
   */
  lemma {:induction false} MapAgreesWithAlone(c: Config, requests: seq<Request>, key: string, now: int)
    requires IsMonotone(requests) && NeverDropped(c, requests, key)
    requires requests != [] ==> requests[|requests| - 1].at <= now
    ensures Agrees(c, Find(After(c, requests), key), Alone(c, requests, key), now)
  {
    if requests != [] {
      var n := |requests| - 1;
      var front, last := requests[..n], requests[n];
      forall i | 0 <= i < n ensures Dropped(c, front, i) != Some(key) {
        assert front[..i] == requests[..i] && front[i] == requests[i];
        assert Dropped(c, requests, i) != Some(key);
      }
      MapAgreesWithAlone(c, front, key, last.at);
      AfterIsUnique(c, front);
      assert Dropped(c, requests, n) != Some(key);
      StepAgrees(c, After(c, front), Alone(c, front, key), last, key);
    }
  }

  lemma StepAgrees(c: Config, table: Table, alone: Option<Bucket>, last: Request, key: string)
    requires UniqueKeys(table) && Agrees(c, Find(table, key), alone, last.at)
    requires
      var existing := Find(table, last.key);
      (existing.Some? && IsLive(c, existing.value, last.at)) || Evicted(c, table, last.key, last.at) != Some(key)
    ensures Agrees(c, Find(Checked(c, table, last.key, last.at), key),
                   if last.key == key then AloneStep(c, alone, last.at) else alone, last.at)
  {
    var existing := Find(table, last.key);
    if existing.Some? && IsLive(c, existing.value, last.at) {
      FindAfterPut(table, last.key, existing.value.(count := existing.value.count + 1), key);
    } else {
      FindAfterPut(Roomy(c, table, last.key, last.at), last.key, Bucket(1, last.at), key);
      FindInRoomy(c, table, last.key, last.at, key);
    }
  }

  lemma {:induction false} DroppedInFront(c: Config, requests: seq<Request>, key: string, n: nat)
    requires NeverDropped(c, requests, key) && n <= |requests|
    ensures NeverDropped(c, requests[..n], key)
  {
    forall i | 0 <= i < n ensures Dropped(c, requests[..n], i) != Some(key) {
      assert requests[..n][..i] == requests[..i] && requests[..n][i] == requests[i];
      assert Dropped(c, requests, i) != Some(key);
    }
  }

  lemma AnswersAsIfAlone(c: Config, requests: seq<Request>, i: nat)
    requires IsMonotone(requests) && i < |requests| && NeverDropped(c, requests, requests[i].key)
    ensures Answer(c, requests, i) <==> AloneAdmits(c, Alone(c, requests[..i], requests[i].key), requests[i].at)
  {
    DroppedInFront(c, requests, requests[i].key, i);
    MapAgreesWithAlone(c, requests[..i], requests[i].key, requests[i].at);
  }

  // ---- How many are admitted ----

  /** One admitted request: its time and the start of the window it was counted in. */
  datatype Admission = Admission(at: int, start: int)

  /** The admissions of a key that has the limiter to itself. */
  function Admissions(c: Config, requests: seq<Request>, key: string): seq<Admission> {
    if requests == [] then []
    else
      var n := |requests| - 1;
      var before, bucket := Admissions(c, requests[..n], key), Alone(c, requests[..n], key);
      if requests[n].key == key && AloneAdmits(c, bucket, requests[n].at) then
        before + [Admission(requests[n].at, Alone(c, requests, key).value.windowStart)]
      else before
  }

  function CountOf(admissions: seq<Admission>, start: int): nat {
    if admissions == [] then 0
    else
      var n := |admissions| - 1;
      CountOf(admissions[..n], start) + (if admissions[n].start == start then 1 else 0)
  }

  function CountWithin(admissions: seq<Admission>, from: int, to: int): nat {
    if admissions == [] then 0
    else
      var n := |admissions| - 1;
      CountWithin(admissions[..n], from, to) + (if from <= admissions[n].at <= to then 1 else 0)
  }

  predicate WindowsApart(c: Config, admissions: seq<Admission>) {
    && (forall i :: 0 <= i < |admissions| ==>
         admissions[i].start <= admissions[i].at <= admissions[i].start + c.windowMs)
    && (forall i, j :: 0 <= i < j < |admissions| ==>
          admissions[i].start == admissions[j].start || admissions[i].start + c.windowMs < admissions[j].start)
  }

  /** The bucket is the last window with its count. */
  predicate BucketSound(bucket: Option<Bucket>, admissions: seq<Admission>) {
    if admissions == [] then bucket.None?
    else
      && bucket.Some?
      && bucket.value.windowStart == admissions[|admissions| - 1].start
      && bucket.value.count == CountOf(admissions, bucket.value.windowStart)
  }

  ghost predicate CountsBounded(c: Config, admissions: seq<Admission>) {
    forall start :: CountOf(admissions, start) <= c.maxRequests
  }

  lemma {:induction false} CountOfNew(admissions: seq<Admission>, start: int)
    requires forall i :: 0 <= i < |admissions| ==> admissions[i].start != start
    ensures CountOf(admissions, start) == 0
  {
    if admissions != [] {
      CountOfNew(admissions[..|admissions| - 1], start);
    }
  }

  lemma AddAdmission(c: Config, before: seq<Admission>, bucket: Option<Bucket>, at: int)
    requires c.maxRequests >= 1 && AloneAdmits(c, bucket, at)
    requires WindowsApart(c, before) && BucketSound(bucket, before) && CountsBounded(c, before)
    requires before != [] ==> before[|before| - 1].at <= at
    ensures var next := AloneStep(c, bucket, at);
      var after := before + [Admission(at, next.value.windowStart)];
      WindowsApart(c, after) && BucketSound(next, after) && CountsBounded(c, after)
  {
    var next := AloneStep(c, bucket, at);
    var after := before + [Admission(at, next.value.windowStart)];
    assert after[..|before|] == before;
    forall i | 0 <= i < |before|
      ensures before[i].start == next.value.windowStart || before[i].start + c.windowMs < next.value.windowStart
    {
      var last := before[|before| - 1];
      assert before[i].start == last.start || before[i].start + c.windowMs < last.start;
    }
    if bucket.None? || !IsLive(c, bucket.value, at) {
      CountOfNew(before, at);
    }
    forall start ensures CountOf(after, start) <= c.maxRequests {
      assert CountOf(before, start) <= c.maxRequests;
    }
  }

  lemma {:induction false} AdmissionsSound(c: Config, requests: seq<Request>, key: string)
    requires c.maxRequests >= 1 && IsMonotone(requests)
    ensures var admissions := Admissions(c, requests, key);
      && WindowsApart(c, admissions)
      && BucketSound(Alone(c, requests, key), admissions)
      && CountsBounded(c, admissions)
      && (admissions != [] ==> requests != [] && admissions[|admissions| - 1].at <= requests[|requests| - 1].at)
  {
    if requests != [] {
      var n := |requests| - 1;
      AdmissionsSound(c, requests[..n], key);
      if requests[n].key == key && AloneAdmits(c, Alone(c, requests[..n], key), requests[n].at) {
        AddAdmission(c, Admissions(c, requests[..n], key), Alone(c, requests[..n], key), requests[n].at);
      }
    }
  }

  /** Admissions of an interval no longer than the window carry at most two window starts. */
  lemma {:induction false} WithinTwoWindows(c: Config, admissions: seq<Admission>, from: int, first: int, second: int)
    requires forall i :: 0 <= i < |admissions| && from <= admissions[i].at <= from + c.windowMs ==>
      admissions[i].start == first || admissions[i].start == second
    ensures CountWithin(admissions, from, from + c.windowMs) <= CountOf(admissions, first) + CountOf(admissions, second)
  {
    if admissions != [] {
      WithinTwoWindows(c, admissions[..|admissions| - 1], from, first, second);
    }
  }

  /** The window starts of the first and the last admission of the interval are all there are. */
  lemma TwoWindowStarts(c: Config, admissions: seq<Admission>, from: int) returns (first: int, second: int)
    requires WindowsApart(c, admissions)
    ensures forall i :: 0 <= i < |admissions| && from <= admissions[i].at <= from + c.windowMs ==>
      admissions[i].start == first || admissions[i].start == second
  {
    first, second := 0, 0;
    if a :| 0 <= a < |admissions| && from <= admissions[a].at <= from + c.windowMs {
      first, second := admissions[a].start, admissions[a].start;
      if b :| 0 <= b < |admissions| && from <= admissions[b].at <= from + c.windowMs && admissions[b].start != first {
        second := admissions[b].start;
      }
    }
  }

  /** How often the limiter said yes to the key in a stretch of time. */
  function Admitted(c: Config, requests: seq<Request>, key: string, from: int, to: int): nat {
    if requests == [] then 0
    else
      var n := |requests| - 1;
      Admitted(c, requests[..n], key, from, to)
      + (if requests[n].key == key && from <= requests[n].at <= to && Answer(c, requests, n) then 1 else 0)
  }

  lemma {:induction false} AdmittedAsIfAlone(c: Config, requests: seq<Request>, key: string, from: int, to: int)
    requires IsMonotone(requests) && NeverDropped(c, requests, key)
    ensures Admitted(c, requests, key, from, to) == CountWithin(Admissions(c, requests, key), from, to)
  {
    if requests != [] {
      var n := |requests| - 1;
      DroppedInFront(c, requests, key, n);
      AdmittedAsIfAlone(c, requests[..n], key, from, to);
      if requests[n].key == key {
        AnswersAsIfAlone(c, requests, n);
        var before := Admissions(c, requests[..n], key);
        var admission := Admission(requests[n].at, Alone(c, requests, key).value.windowStart);
        assert (before + [admission])[..|before|] == before;
      }
    }
  }

  /**
   * A key that is never dropped by force is admitted at most twice maxRequests times in any
   * stretch of time as long as the window.
   */
  lemma AtMostTwiceTheLimit(c: Config, requests: seq<Request>, key: string, from: int)
    requires c.maxRequests >= 1 && IsMonotone(requests) && NeverDropped(c, requests, key)
    ensures Admitted(c, requests, key, from, from + c.windowMs) <= 2 * c.maxRequests
  {
    AdmissionsSound(c, requests, key);
    AdmittedAsIfAlone(c, requests, key, from, from + c.windowMs);
    var admissions := Admissions(c, requests, key);
    var first, second := TwoWindowStarts(c, admissions, from);
    WithinTwoWindows(c, admissions, from, first, second);
    assert CountOf(admissions, first) <= c.maxRequests && CountOf(admissions, second) <= c.maxRequests;
  }

  lemma {:induction false} BucketsHoldFewRequests(c: Config, requests: seq<Request>)
    requires c.maxRequests >= 1
    ensures forall e :: e in After(c, requests) ==> 1 <= e.bucket.count <= c.maxRequests
  {
    if requests != [] {
      var front, last := requests[..|requests| - 1], requests[|requests| - 1];
      BucketsHoldFewRequests(c, front);
      CheckedCounts(c, After(c, front), last.key, last.at);
    }
  }

  predicate CountsWithin(c: Config, table: Table) {
    forall e :: e in table ==> 1 <= e.bucket.count <= c.maxRequests
  }

  lemma {:induction false} PutCounts(c: Config, table: Table, key: string, bucket: Bucket)
    requires CountsWithin(c, table) && 1 <= bucket.count <= c.maxRequests
    ensures CountsWithin(c, Put(table, key, bucket))
  {
    if table != [] && table[0].key != key {
      PutCounts(c, table[1..], key, bucket);
    }
  }

  lemma {:induction false} FindMember(table: Table, key: string)
    ensures Find(table, key).Some? ==> Entry(key, Find(table, key).value) in table
  {
    if table != [] && table[0].key != key {
      FindMember(table[1..], key);
    }
  }

  lemma CheckedCounts(c: Config, table: Table, key: string, now: int)
    requires c.maxRequests >= 1 && CountsWithin(c, table)
    ensures CountsWithin(c, Checked(c, table, key, now))
  {
    var existing := Find(table, key);
    FindMember(table, key);
    if existing.Some? && IsLive(c, existing.value, now) {
      if existing.value.count < c.maxRequests {
        PutCounts(c, table, key, existing.value.(count := existing.value.count + 1));
      }
    } else {
      SweepMembers(c, table, now);
      assert forall e :: e in Roomy(c, table, key, now) ==> e in table;
      PutCounts(c, Roomy(c, table, key, now), key, Bucket(1, now));
    }
  }
}

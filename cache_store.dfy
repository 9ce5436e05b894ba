/** app/lib/cache_store.rb: the per-city weather record with per-field freshness, and
    the process-wide API call counter, both kept in Rails.cache. The cache is a map
    from key to (value, expiry); time is an integer count of milliseconds passed in
    as `now`. An entry is live while `now` is before its expiry. */
module CacheStore {
  import opened Optional
  import opened Text
  import opened RubyJson
  import opened Records

  /** The timestamped fields of a city's record, the keys of `CACHE_DURATION`. */
  datatype Field = CoordinatesField | CurrentWeatherField | ForecastField | TweetField

  /** A city's cached hash: `cached_at` (one time per field, in ms) and the cached
      values. */
  datatype CacheRecord = CacheRecord(
    cachedAt: map<Field, int>,
    coordinates: Option<Coordinates>,
    currentWeather: Option<CurrentWeather>,
    forecast: Option<Json>,
    tweet: Option<TweetCreated>)

  /** What a key holds: a city's record or the API call count. */
  datatype Stored = Record(record: CacheRecord) | Count(n: int)

  datatype Entry = Entry(value: Stored, expiresAt: int)

  const Minute := 60_000
  const Hour := 60 * Minute

  /** `CACHE_DURATION`, in ms. */
  function Ttl(f: Field): (d: int)
    ensures d > 0
  {
    match f
    case CoordinatesField => 24 * Hour
    case CurrentWeatherField => 30 * Minute
    case ForecastField => 2 * Hour
    case TweetField => 2 * Hour
  }

  /** `set`'s `expires_in: 24.hours`. */
  const RecordLifetime := 24 * Hour
  /** `API_RATE_LIMIT_DURATION`. */
  const RateWindow := Minute
  /** `MAX_API_CALLS_PER_MINUTE`. */
  const MaxCallsPerMinute := 60
  const RateKey := "api_rate_limit"

  /** The TTLs are 24 h, 30 min, 2 h and 2 h. */
  lemma TtlTable()
    ensures Ttl(CoordinatesField) == 86_400_000 && Ttl(CurrentWeatherField) == 1_800_000
    ensures Ttl(ForecastField) == 7_200_000 && Ttl(TweetField) == 7_200_000
  {
  }

  /** `cache_key(city)`. */
  function CacheKey(city: string): (k: string)
    ensures |k| == 8 + |city| && k[..8] == "weather:" && k[8..] == Downcase(city)
  {
    "weather:" + Downcase(city)
  }

  /** Two cities share a record exactly when they agree up to letter case. */
  lemma CacheKeyCaseInsensitive(a: string, b: string)
    ensures CacheKey(a) == CacheKey(b) <==> Downcase(a) == Downcase(b)
  {
    if CacheKey(a) == CacheKey(b) {
      assert Downcase(a) == CacheKey(a)[8..];
    }
  }

  /** No city's record can overwrite the call counter. */
  lemma CacheKeyNotRateKey(city: string)
    ensures CacheKey(city) != RateKey
  {
    assert CacheKey(city)[0] == 'w' != RateKey[0];
  }

  /** `Rails.cache.read(key)` at time `now`: the value of a live entry, nil otherwise. */
  function Read(entries: map<string, Entry>, key: string, now: int): (v: Option<Stored>)
    ensures v.Some? <==> key in entries && now < entries[key].expiresAt
    ensures v.Some? ==> v.value == entries[key].value
  {
    if key in entries && now < entries[key].expiresAt then Some(entries[key].value) else None
  }

  /** `get(city)`: the city's live record, if any. */
  function RecordAt(entries: map<string, Entry>, city: string, now: int): (r: Option<CacheRecord>)
    ensures r.Some? <==> Read(entries, CacheKey(city), now).Some? && Read(entries, CacheKey(city), now).value.Record?
    ensures r.Some? ==> Read(entries, CacheKey(city), now) == Some(Record(r.value))
  {
    match Read(entries, CacheKey(city), now)
    case Some(Record(rec)) => Some(rec)
    case _ => None
  }

  /** `is_fresh?(city, field)`: the live record has a time for that field and `now`
      is strictly before that time plus the field's TTL. */
  predicate FreshAt(entries: map<string, Entry>, city: string, field: Field, now: int) {
    match RecordAt(entries, city, now)
    case None => false
    case Some(rec) => field in rec.cachedAt && now < rec.cachedAt[field] + Ttl(field)
  }

  /** The one key that is not a city: the counter only ever holds a count. */
  predicate WellFormed(entries: map<string, Entry>) {
    RateKey in entries ==> entries[RateKey].value.Count?
  }

  /** `Rails.cache.read(rate_key) || 0`. */
  function RateCount(entries: map<string, Entry>, now: int): (n: int)
    requires WellFormed(entries)
    ensures Read(entries, RateKey, now).None? ==> n == 0
    ensures Read(entries, RateKey, now).Some? ==> n == entries[RateKey].value.n
  {
    match Read(entries, RateKey, now)
    case Some(Count(n)) => n
    case _ => 0
  }

  /** `check_api_rate_limit` on a snapshot: the answer and the new entries. */
  function RateStep(entries: map<string, Entry>, now: int): (r: (bool, map<string, Entry>))
    requires WellFormed(entries)
    ensures WellFormed(r.1)
  {
    var count := RateCount(entries, now);
    if count >= MaxCallsPerMinute then (false, entries)
    else (true, entries[RateKey := Entry(Count(count + 1), now + RateWindow)])
  }

  /** At 60 or more the call is refused and nothing changes; below it the call is
      allowed, the count goes up by one and its expiry is re-armed a minute after
      `now`; no other key changes either way. */
  lemma RateStepSpec(entries: map<string, Entry>, now: int)
    requires WellFormed(entries)
    ensures var (ok, next) := RateStep(entries, now);
      (ok <==> RateCount(entries, now) < 60)
      && (!ok ==> next == entries)
      && (ok ==> next[RateKey] == Entry(Count(RateCount(entries, now) + 1), now + 60_000))
      && (forall k :: k != RateKey ==> (k in next <==> k in entries) && (k in next ==> next[k] == entries[k]))
  {
  }

  /** The stored count stays within 0..60. */
  predicate CountBounded(entries: map<string, Entry>) {
    WellFormed(entries) && (RateKey in entries ==> 0 <= entries[RateKey].value.n <= MaxCallsPerMinute)
  }

  lemma RateStepBounded(entries: map<string, Entry>, now: int)
    requires CountBounded(entries)
    ensures CountBounded(RateStep(entries, now).1)
  {
  }

  /** Each allowed call keeps the counter live for the whole minute that follows it:
      the window slides from the last allowed call. */
  lemma RateWindowSlides(entries: map<string, Entry>, now: int, later: int)
    requires WellFormed(entries)
    requires RateStep(entries, now).0
    requires now <= later < now + 60_000
    ensures RateCount(RateStep(entries, now).1, later) == RateCount(entries, now) + 1
  {
  }

  /** Once the counter has expired the next call is allowed and starts again at 1. */
  lemma RateWindowExpires(entries: map<string, Entry>, now: int)
    requires WellFormed(entries)
    requires RateKey !in entries || entries[RateKey].expiresAt <= now
    ensures RateStep(entries, now).0
    ensures RateStep(entries, now).1[RateKey].value == Count(1)
  {
  }

  /** The answers of successive `check_api_rate_limit` calls at the given times. */
  function RunLimiter(entries: map<string, Entry>, times: seq<int>): (r: (seq<bool>, map<string, Entry>))
    requires WellFormed(entries)
    ensures |r.0| == |times| && WellFormed(r.1)
    decreases |times|
  {
    if times == [] then ([], entries)
    else
      var (ok, next) := RateStep(entries, times[0]);
      var (rest, last) := RunLimiter(next, times[1..]);
      ([ok] + rest, last)
  }

  /** Calls made within one minute of `t0`, starting from a counter that reads `c`
      throughout that minute: the i-th call is allowed exactly when `c + i < 60`. */
  lemma {:induction false} RunWithinWindow(entries: map<string, Entry>, times: seq<int>, t0: int, c: int)
    requires WellFormed(entries)
    requires 0 <= c <= 60
    requires forall i :: 0 <= i < |times| ==> t0 <= times[i] < t0 + 60_000
    requires forall t :: t0 <= t < t0 + 60_000 ==> RateCount(entries, t) == c
    ensures forall i :: 0 <= i < |times| ==> RunLimiter(entries, times).0[i] == (c + i < 60)
    decreases |times|
  {
    if times != [] {
      var next := RateStep(entries, times[0]).1;
      var c' := if c < 60 then c + 1 else c;
      assert forall t :: t0 <= t < t0 + 60_000 ==> RateCount(next, t) == c' by {
        forall t | t0 <= t < t0 + 60_000
          ensures RateCount(next, t) == c'
        {
          if c < 60 {
            assert next[RateKey] == Entry(Count(c + 1), times[0] + RateWindow);
          } else {
            assert next == entries;
          }
        }
      }
      RunWithinWindow(next, times[1..], t0, c');
      var run := RunLimiter(entries, times);
      forall i | 0 <= i < |times|
        ensures run.0[i] == (c + i < 60)
      {
        if i > 0 {
          assert run.0[i] == RunLimiter(next, times[1..]).0[i - 1];
        }
      }
    }
  }

  /** From a store with no live counter, of any number of calls within one minute
      the first 60 are allowed and every later one is refused. */
  lemma SixtyFirstCallRefused(entries: map<string, Entry>, times: seq<int>, t0: int)
    requires WellFormed(entries)
    requires RateKey !in entries || entries[RateKey].expiresAt <= t0
    requires forall i :: 0 <= i < |times| ==> t0 <= times[i] < t0 + 60_000
    ensures forall i :: 0 <= i < |times| ==> (RunLimiter(entries, times).0[i] <==> i < 60)
  {
    RunWithinWindow(entries, times, t0, 0);
  }

  /** `set(city, data)`: the record under the city's key, for 24 hours. */
  function SetAt(entries: map<string, Entry>, city: string, data: CacheRecord, now: int): (r: map<string, Entry>)
    ensures CacheKey(city) in r && r[CacheKey(city)] == Entry(Record(data), now + RecordLifetime)
    ensures forall k :: k != CacheKey(city) ==> (k in r <==> k in entries) && (k in r ==> r[k] == entries[k])
  {
    entries[CacheKey(city) := Entry(Record(data), now + RecordLifetime)]
  }

  /** Within 24 hours of `set`, `get` under any spelling of the city differing only
      in case gives exactly what was set; other cities' records and the call counter
      are unaffected. */
  lemma SetThenGet(entries: map<string, Entry>, city: string, data: CacheRecord, now: int, later: int, other: string)
    requires now <= later < now + 86_400_000
    requires Downcase(other) != Downcase(city)
    ensures forall c :: Downcase(c) == Downcase(city) ==> RecordAt(SetAt(entries, city, data, now), c, later) == Some(data)
    ensures RecordAt(SetAt(entries, city, data, now), other, later) == RecordAt(entries, other, later)
    ensures Read(SetAt(entries, city, data, now), RateKey, later) == Read(entries, RateKey, later)
  {
    forall c | Downcase(c) == Downcase(city)
      ensures RecordAt(SetAt(entries, city, data, now), c, later) == Some(data)
    {
      CacheKeyCaseInsensitive(c, city);
    }
    CacheKeyCaseInsensitive(other, city);
    CacheKeyNotRateKey(city);
  }

  /** A record with no time for the field, or no live record at all, is never fresh. */
  lemma NotFreshWithoutTime(entries: map<string, Entry>, city: string, field: Field, now: int)
    requires RecordAt(entries, city, now).None? || field !in RecordAt(entries, city, now).value.cachedAt
    ensures !FreshAt(entries, city, field, now)
  {
  }

  /** A field cached at `t` is fresh one millisecond before `t + TTL` and stale at
      exactly `t + TTL`, as long as the record itself is live. */
  lemma FreshnessBoundary(entries: map<string, Entry>, city: string, field: Field, rec: CacheRecord)
    requires CacheKey(city) in entries && entries[CacheKey(city)].value == Record(rec)
    requires field in rec.cachedAt
    requires rec.cachedAt[field] + Ttl(field) < entries[CacheKey(city)].expiresAt
    ensures FreshAt(entries, city, field, rec.cachedAt[field] + Ttl(field) - 1)
    ensures !FreshAt(entries, city, field, rec.cachedAt[field] + Ttl(field))
  {
  }

  /** The freshness of one field depends on that field's time only. */
  lemma FreshnessIgnoresOtherFields(entries: map<string, Entry>, city: string, field: Field, rec: CacheRecord, times: map<Field, int>, now: int)
    requires RecordAt(entries, city, now) == Some(rec)
    requires field in times <==> field in rec.cachedAt
    requires field in times ==> times[field] == rec.cachedAt[field]
    ensures FreshAt(entries, city, field, now) ==
      FreshAt(entries[CacheKey(city) := Entry(Record(rec.(cachedAt := times)), entries[CacheKey(city)].expiresAt)], city, field, now)
  {
  }

  /** Rails.cache, as the class that owns the store. */
  class Store {
    var entries: map<string, Entry>

    ghost predicate Valid()
      reads this
    {
      CountBounded(entries)
    }

    constructor()
      ensures Valid() && entries == map[]
    {
      entries := map[];
    }

    /** `CacheStore.get(city)`. */
    method Get(city: string, now: int) returns (r: Option<CacheRecord>)
      ensures r == RecordAt(entries, city, now)
    {
      var key := CacheKey(city);
      if key in entries && now < entries[key].expiresAt && entries[key].value.Record? {
        r := Some(entries[key].value.record);
      } else {
        r := None;
      }
    }

    /** `CacheStore.set(city, data)`. */
    method Set(city: string, data: CacheRecord, now: int)
      requires Valid()
      modifies this
      ensures Valid()
      ensures entries == SetAt(old(entries), city, data, now)
    {
      CacheKeyNotRateKey(city);
      entries := entries[CacheKey(city) := Entry(Record(data), now + RecordLifetime)];
    }

    /** `CacheStore.is_fresh?(city, field)`. */
    method IsFresh(city: string, field: Field, now: int) returns (isFresh: bool)
      ensures isFresh == FreshAt(entries, city, field, now)
    {
      var cached := Get(city, now);
      if cached.None? || field !in cached.value.cachedAt {
        return false;
      }
      var cachedTime := cached.value.cachedAt[field];
      var expiryTime := cachedTime + Ttl(field);
      isFresh := now < expiryTime;
    }

    /** `CacheStore.check_api_rate_limit`. */
    method CheckApiRateLimit(now: int) returns (allowed: bool)
      requires Valid()
      modifies this
      ensures Valid()
      ensures (allowed, entries) == RateStep(old(entries), now)
    {
      var currentCount := 0;
      if RateKey in entries && now < entries[RateKey].expiresAt {
        currentCount := entries[RateKey].value.n;
      }
      if currentCount >= MaxCallsPerMinute {
        return false;
      }
      entries := entries[RateKey := Entry(Count(currentCount + 1), now + RateWindow)];
      allowed := true;
    }
  }
}

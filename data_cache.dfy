/**
 * The rapper data cache: entries under a normalised name, a field-wise merge
 * on write and lazy expiry on read. The clock is a parameter counting
 * seconds; the lock that serialises the two operations is not modelled.
 */
module DataCache {
  import opened Wrappers
  import opened Strings

  /** `RapperCacheData`; `lastUpdated` is a clock reading in seconds. */
  datatype RapperCacheData = RapperCacheData(
    rapperName: string,
    biographicalInfo: Option<string>,
    wikipediaInfo: Option<string>,
    internetSearchInfo: Option<string>,
    styleInfo: Option<map<string, string>>,
    lastUpdated: int)

  /** The optional fields a `cache_rapper_data` call passes. */
  datatype CacheFields = CacheFields(
    biographicalInfo: Option<string>,
    wikipediaInfo: Option<string>,
    internetSearchInfo: Option<string>,
    styleInfo: Option<map<string, string>>)

  const DefaultDurationHours: int := 24
  const SecondsPerHour: int := 3600

  /** `rapper_name.lower().strip()` */
  function CacheKey(name: string): string {
    Strip(Lower(name))
  }

  /** Names that differ only in letter case or surrounding whitespace share one key. */
  lemma {:induction false} CacheKeyNormalises(a: string, name: string, b: string)
    requires AllSpace(a) && AllSpace(b)
    ensures CacheKey(a + Lower(name) + b) == CacheKey(name)
  {
    LowerConcat(a + Lower(name), b);
    LowerConcat(a, Lower(name));
    LowerAllSpace(a);
    LowerAllSpace(b);
    LowerIdempotent(name);
    StripPadded(a, Lower(name), b);
  }

  /** A key is its own key: normalising twice changes nothing. */
  lemma {:induction false} CacheKeyIdempotent(name: string)
    ensures CacheKey(CacheKey(name)) == CacheKey(name)
  {
    var l := Lower(name);
    var k := StripIsSlice(l);
    LowerIsLower(name);
    SliceIsLower(l, k, k + |Strip(l)|);
    LowerOfLower(Strip(l));
    StripIdempotent(l);
  }

  /** The entry is past its lifetime: strictly later than `last_updated` plus the duration. */
  predicate Expired(e: RapperCacheData, now: int, hours: int) {
    now > e.lastUpdated + hours * SecondsPerHour
  }

  /** What `get_rapper_data` returns for `name` at time `now`. */
  function Lookup(cache: map<string, RapperCacheData>, name: string, now: int, hours: int): (r: Option<RapperCacheData>)
    ensures r.None? <==> CacheKey(name) !in cache || Expired(cache[CacheKey(name)], now, hours)
    ensures r.Some? ==> r.value == cache[CacheKey(name)]
  {
    var key := CacheKey(name);
    if key in cache && !Expired(cache[key], now, hours) then Some(cache[key]) else None
  }

  /** `value` when it is given, otherwise what was there. */
  function Override<T>(value: Option<T>, previous: Option<T>): (r: Option<T>)
    ensures value.Some? ==> r == value
    ensures value.None? ==> r == previous
  {
    if value.Some? then value else previous
  }

  /**
   * The entry `cache_rapper_data` leaves: the given fields over the existing
   * entry (expired or not) with a fresh timestamp, or a new entry holding
   * the name as spelled.
   */
  function Merge(existing: Option<RapperCacheData>, name: string, f: CacheFields, now: int): (e: RapperCacheData)
    ensures e.lastUpdated == now
    ensures existing.Some? ==> e.rapperName == existing.value.rapperName
    ensures existing.None? ==> e.rapperName == name
  {
    match existing
    case Some(prev) =>
      prev.(biographicalInfo := Override(f.biographicalInfo, prev.biographicalInfo),
           wikipediaInfo := Override(f.wikipediaInfo, prev.wikipediaInfo),
           internetSearchInfo := Override(f.internetSearchInfo, prev.internetSearchInfo),
           styleInfo := Override(f.styleInfo, prev.styleInfo),
           lastUpdated := now)
    case None =>
      RapperCacheData(name, f.biographicalInfo, f.wikipediaInfo, f.internetSearchInfo, f.styleInfo, now)
  }

  /** Writing with no fields only refreshes the timestamp of an existing entry. */
  lemma MergeNothing(e: RapperCacheData, name: string, now: int)
    ensures Merge(Some(e), name, CacheFields(None, None, None, None), now) == e.(lastUpdated := now)
  {
  }

  /** Writing the same fields twice is the same as writing them once, at the later time. */
  lemma MergeTwice(existing: Option<RapperCacheData>, name: string, f: CacheFields, t1: int, t2: int)
    ensures Merge(Some(Merge(existing, name, f, t1)), name, f, t2) == Merge(existing, name, f, t2)
  {
  }

  /** A field given on a write is what a later read sees, whatever was stored before. */
  lemma MergeGivenFieldWins(existing: Option<RapperCacheData>, name: string, f: CacheFields, now: int)
    ensures f.biographicalInfo.Some? ==> Merge(existing, name, f, now).biographicalInfo == f.biographicalInfo
    ensures f.wikipediaInfo.Some? ==> Merge(existing, name, f, now).wikipediaInfo == f.wikipediaInfo
    ensures f.internetSearchInfo.Some? ==> Merge(existing, name, f, now).internetSearchInfo == f.internetSearchInfo
    ensures f.styleInfo.Some? ==> Merge(existing, name, f, now).styleInfo == f.styleInfo
  {
  }

  /**
   * After a write at `now`, a read of any spelling with the same key until
   * the entry's lifetime has passed returns the merged entry.
   */
  lemma {:induction false} WriteThenRead(cache: map<string, RapperCacheData>, name: string, f: CacheFields, now: int,
                                         other: string, t: int, hours: int)
    requires CacheKey(other) == CacheKey(name)
    requires t <= now + hours * SecondsPerHour
    ensures var key := CacheKey(name);
      var e := Merge(if key in cache then Some(cache[key]) else None, name, f, now);
      Lookup(cache[key := e], other, t, hours) == Some(e)
  {
  }

  /** After the lifetime has passed, the same read finds nothing. */
  lemma {:induction false} WriteThenExpire(cache: map<string, RapperCacheData>, name: string, f: CacheFields, now: int,
                                           t: int, hours: int)
    requires t > now + hours * SecondsPerHour
    ensures var key := CacheKey(name);
      var e := Merge(if key in cache then Some(cache[key]) else None, name, f, now);
      Lookup(cache[key := e], name, t, hours) == None
  {
  }

  /** A write under one key leaves reads of every other key as they were. */
  lemma {:induction false} WriteLeavesOthers(cache: map<string, RapperCacheData>, name: string, e: RapperCacheData,
                                             other: string, t: int, hours: int)
    requires CacheKey(other) != CacheKey(name)
    ensures Lookup(cache[CacheKey(name) := e], other, t, hours) == Lookup(cache, other, t, hours)
  {
  }

  /** The update of an existing entry in `cache_rapper_data`, one field at a time. */
  method MergeInto(prev: RapperCacheData, name: string, f: CacheFields, now: int) returns (e: RapperCacheData)
    ensures e == Merge(Some(prev), name, f, now)
  {
    e := prev;
    if f.biographicalInfo.Some? {
      e := e.(biographicalInfo := f.biographicalInfo);
    }
    if f.wikipediaInfo.Some? {
      e := e.(wikipediaInfo := f.wikipediaInfo);
    }
    if f.internetSearchInfo.Some? {
      e := e.(internetSearchInfo := f.internetSearchInfo);
    }
    if f.styleInfo.Some? {
      e := e.(styleInfo := f.styleInfo);
    }
    e := e.(lastUpdated := now);
  }

  /** `DataCacheService` */
  class DataCacheService {
    var cacheDurationHours: int
    var rapperCache: map<string, RapperCacheData>

    /** Every entry sits under the key of the name it was first stored with. */
    predicate Valid()
      reads this
    {
      forall key :: key in rapperCache ==> CacheKey(rapperCache[key].rapperName) == key
    }

    constructor(hours: int)
      ensures Valid()
      ensures cacheDurationHours == hours && rapperCache == map[]
    {
      cacheDurationHours := hours;
      rapperCache := map[];
    }

    /** `get_rapper_data`: an expired entry is removed on the way. */
    method GetRapperData(name: string, now: int) returns (r: Option<RapperCacheData>)
      requires Valid()
      modifies this
      ensures Valid() && cacheDurationHours == old(cacheDurationHours)
      ensures r == Lookup(old(rapperCache), name, now, cacheDurationHours)
      ensures var key := CacheKey(name);
        if key in old(rapperCache) && Expired(old(rapperCache)[key], now, cacheDurationHours)
        then rapperCache == old(rapperCache) - {key}
        else rapperCache == old(rapperCache)
    {
      var key := CacheKey(name);
      if key !in rapperCache {
        return None;
      }
      var cached := rapperCache[key];
      var expiry := cached.lastUpdated + cacheDurationHours * SecondsPerHour;
      if now > expiry {
        rapperCache := rapperCache - {key};
        return None;
      }
      return Some(cached);
    }

    /** `cache_rapper_data` */
    method CacheRapperData(name: string, f: CacheFields, now: int)
      requires Valid()
      modifies this
      ensures Valid() && cacheDurationHours == old(cacheDurationHours)
      ensures var key := CacheKey(name);
        rapperCache == old(rapperCache)[key := Merge(if key in old(rapperCache) then Some(old(rapperCache)[key]) else None,
                                                     name, f, now)]
    {
      var key := CacheKey(name);
      if key in rapperCache {
        var existing := MergeInto(rapperCache[key], name, f, now);
        assert CacheKey(existing.rapperName) == key;
        rapperCache := rapperCache[key := existing];
      } else {
        var created := RapperCacheData(name, f.biographicalInfo, f.wikipediaInfo, f.internetSearchInfo, f.styleInfo, now);
        assert created == Merge(None, name, f, now);
        rapperCache := rapperCache[key := created];
      }
    }
  }
}

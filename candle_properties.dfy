/**
 * Properties of the candle cache, stated over `Resolve`, the specification that
 * `IndicatorCandle.GetEntry` is proved to follow.
 */
module CandleProperties {
  import opened IndicatorData
  import opened Candle

  /** Over a well-formed cache, a lookup is answered from the cache exactly when the timestamp is cached. */
  lemma HitIffCached(icparams: CandleParams, cache: map<int, Entry>, ts: int)
    requires CacheInv(icparams, cache)
    ensures IsResolved(GetByKey(cache, ts)) <==> ts in cache
  {
  }

  /**
   * A looked-up entry that is valid or marked as having insufficient data is
   * returned unchanged, without a data-source call and without touching the
   * cache or the state.
   */
  lemma ResolvedEntryIsReturned(icparams: CandleParams, src: DataSource, cache: map<int, Entry>, istate: IndicatorState, ts: int)
    requires IsResolved(GetByKey(cache, ts))
    ensures var r := Resolve(icparams, src, cache, istate, ts);
      r.entry == GetByKey(cache, ts) && r.cache == cache && r.istate == istate && r.calls == []
  {
  }

  /**
   * On a miss the entry has one value per mode and the requested timestamp;
   * each slot holds what the provider selected by the value type returned
   * (bool, char and int all use the int provider); a supported type makes one
   * data-source call per mode, and an unsupported type makes none and, when
   * there is at least one mode, leaves the indicator not ready.
   */
  lemma MissBuildsEntry(icparams: CandleParams, src: DataSource, cache: map<int, Entry>, istate: IndicatorState, ts: int)
    requires !IsResolved(GetByKey(cache, ts))
    ensures var r := Resolve(icparams, src, cache, istate, ts);
      && r.entry.timestamp == ts
      && |r.entry.values| == icparams.maxModes
      && (forall i :: 0 <= i < icparams.maxModes && ProviderKind(icparams.valueType).Some? ==>
            var k := ProviderKind(icparams.valueType).value;
            r.entry.values[i] == Num(k, src(k, i, ts).payload))
      && (icparams.valueType in {TypeBool, TypeChar, TypeInt} ==>
            forall i :: 0 <= i < icparams.maxModes ==> r.entry.values[i] == Num(KindInt, src(KindInt, i, ts).payload))
      && (ProviderKind(icparams.valueType).Some? ==>
            |r.calls| == icparams.maxModes &&
            forall i :: 0 <= i < icparams.maxModes ==> r.calls[i] == Request(ProviderKind(icparams.valueType).value, i, ts))
      && (ProviderKind(icparams.valueType).None? ==> r.calls == [])
      && (ProviderKind(icparams.valueType).None? && icparams.maxModes > 0 ==> !r.istate.isReady)
  {
    CallsOnePerMode(icparams.valueType, icparams.maxModes, ts);
    FillErrorPending(icparams.valueType, src, icparams.maxModes, ts);
  }

  /**
   * After a miss on a well-formed cache, the timestamp becomes cached exactly
   * when the built entry is valid. Valid: the returned entry is cached, marked
   * valid, and the indicator is up to date and ready unless an error is pending.
   * Not valid: the cache and the changed flag stay as they were and the
   * returned entry is marked as having insufficient data. No other key changes.
   */
  lemma MissCachesIffValid(icparams: CandleParams, src: DataSource, cache: map<int, Entry>, istate: IndicatorState, ts: int)
    requires CacheInv(icparams, cache)
    requires ts !in cache
    ensures var r := Resolve(icparams, src, cache, istate, ts);
      var valid := IsValidEntry(BuildEntry(icparams, src, DefaultEntry, ts));
      var pending := FillError(icparams.valueType, src, icparams.maxModes, ts) != NoError;
      && (ts in r.cache <==> valid)
      && (forall t :: t != ts ==> (t in r.cache <==> t in cache))
      && (forall t :: t in cache ==> r.cache[t] == cache[t])
      && (valid ==> r.cache[ts] == r.entry && IsValid in r.entry.flags
                    && !r.istate.isChanged && r.istate.isReady == !pending)
      && (!valid ==> r.cache == cache && InsufficientData in r.entry.flags && IsValid !in r.entry.flags
                     && r.istate.isChanged == istate.isChanged
                     && r.istate.isReady == (istate.isReady && !pending))
  {
  }

  /**
   * A raised data-source error on a miss leaves the indicator not ready, even
   * when the entry was valid and cached.
   */
  lemma ProviderErrorClearsReady(icparams: CandleParams, src: DataSource, cache: map<int, Entry>, istate: IndicatorState, ts: int, mode: nat)
    requires !IsResolved(GetByKey(cache, ts))
    requires ProviderKind(icparams.valueType).Some?
    requires mode < icparams.maxModes && src(ProviderKind(icparams.valueType).value, mode, ts).raised
    ensures !Resolve(icparams, src, cache, istate, ts).istate.isReady
  {
    FillErrorPending(icparams.valueType, src, icparams.maxModes, ts);
  }

  /** `GetEntry` keeps the cache well formed. */
  lemma ResolvePreservesCacheInv(icparams: CandleParams, src: DataSource, cache: map<int, Entry>, istate: IndicatorState, ts: int)
    requires CacheInv(icparams, cache)
    ensures CacheInv(icparams, Resolve(icparams, src, cache, istate, ts).cache)
  {
  }

  /**
   * A second lookup of a timestamp that the first lookup left cached returns
   * the same entry, whatever the data source returns by then, with no
   * data-source call and no change to the cache or the state.
   */
  lemma SecondLookupIsCached(icparams: CandleParams, src1: DataSource, src2: DataSource, cache: map<int, Entry>, istate: IndicatorState, ts: int)
    requires CacheInv(icparams, cache)
    requires ts in Resolve(icparams, src1, cache, istate, ts).cache
    ensures var r1 := Resolve(icparams, src1, cache, istate, ts);
      var r2 := Resolve(icparams, src2, r1.cache, r1.istate, ts);
      r2.entry == r1.entry && r2.cache == r1.cache && r2.istate == r1.istate && r2.calls == []
  {
  }

  /**
   * An entry that the first lookup did not cache is built again by the second
   * lookup: the insufficient-data mark lives only on the returned copy, so
   * there is no negative cache.
   */
  lemma UncachedIsRebuilt(icparams: CandleParams, src1: DataSource, src2: DataSource, cache: map<int, Entry>, istate: IndicatorState, ts: int)
    requires CacheInv(icparams, cache)
    requires ts !in Resolve(icparams, src1, cache, istate, ts).cache
    ensures var r1 := Resolve(icparams, src1, cache, istate, ts);
      var r2 := Resolve(icparams, src2, r1.cache, r1.istate, ts);
      InsufficientData in r1.entry.flags && r1.cache == cache &&
      r2.calls == Calls(icparams.valueType, icparams.maxModes, ts) &&
      r2.entry == Judged(BuildEntry(icparams, src2, DefaultEntry, ts))
  {
  }

  /**
   * A timestamp that is zero or negative is never cached: its entry is rebuilt
   * and marked as having insufficient data on every lookup.
   */
  lemma NonPositiveTimestampNeverCached(icparams: CandleParams, src: DataSource, cache: map<int, Entry>, istate: IndicatorState, ts: int)
    requires CacheInv(icparams, cache)
    requires ts <= 0
    ensures var r := Resolve(icparams, src, cache, istate, ts);
      ts !in cache && r.cache == cache && InsufficientData in r.entry.flags &&
      r.calls == Calls(icparams.valueType, icparams.maxModes, ts)
  {
  }

  /** Every timestamp in a well-formed cache is positive. */
  lemma CachedTimestampsPositive(icparams: CandleParams, cache: map<int, Entry>)
    requires CacheInv(icparams, cache)
    ensures forall t :: t in cache ==> t > 0
  {
  }

  /**
   * When the provider returns the maximum or the NULL sentinel of its own kind
   * for some mode, and the configured type's flags select that kind, the entry
   * is marked as having insufficient data and is not cached.
   */
  lemma SentinelValueNeverCached(icparams: CandleParams, src: DataSource, cache: map<int, Entry>, istate: IndicatorState, ts: int, mode: nat)
    requires CacheInv(icparams, cache)
    requires ts !in cache
    requires ProviderKind(icparams.valueType).Some?
    requires SentinelKind(icparams.dataTypeFlags(icparams.valueType)) == ProviderKind(icparams.valueType).value
    requires mode < icparams.maxModes
    requires var k := ProviderKind(icparams.valueType).value;
      Hits(Num(k, src(k, mode, ts).payload), MaxOf(k)) || Hits(Num(k, src(k, mode, ts).payload), NullOf(k))
    ensures var r := Resolve(icparams, src, cache, istate, ts);
      ts !in r.cache && r.cache == cache && InsufficientData in r.entry.flags
  {
    var built := BuildEntry(icparams, src, DefaultEntry, ts);
    assert built.flags == icparams.dataTypeFlags(icparams.valueType);
    assert built.values[mode] == Num(ProviderKind(icparams.valueType).value, src(ProviderKind(icparams.valueType).value, mode, ts).payload);
    assert !IsValidEntry(built);
  }
}

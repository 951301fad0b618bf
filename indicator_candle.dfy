/**
 * `IndicatorCandle<TS>`: a per-timestamp cache of indicator entries.
 *
 * `GetEntry` looks the timestamp up in the cache; on a miss it fetches one value
 * per mode from the data source, tags the entry with the numeric-kind flags of
 * the configured value type, validates it, and caches it only when it is valid.
 * The pure specification `Resolve` says what one call returns and what state it
 * leaves; the class `IndicatorCandle` performs the same steps in place and is
 * proved against it.
 */
module Candle {
  import opened Wrappers
  import opened IndicatorData

  /** The value types an indicator can be configured with (MQL's ENUM_DATATYPE). */
  datatype ValueType =
    | TypeBool | TypeChar | TypeUChar | TypeShort | TypeUShort | TypeColor | TypeInt
    | TypeUInt | TypeDateTime | TypeLong | TypeULong | TypeFloat | TypeDouble | TypeString

  /**
   * The provider `GetValue<T>` that the switch in `GetEntry` dispatches to, or
   * `None` for the types that raise an invalid-parameter error instead
   * (string, unsigned char and every type the switch does not list).
   */
  function ProviderKind(vt: ValueType): (provider: Option<NumKind>)
    ensures provider.None? <==> vt in {TypeUChar, TypeShort, TypeUShort, TypeColor, TypeDateTime, TypeString}
    ensures provider == Some(KindInt) <==> vt in {TypeBool, TypeChar, TypeInt}
    ensures provider.Some? && vt !in {TypeBool, TypeChar, TypeInt} ==>
      (IsRealKind(provider.value) <==> vt in {TypeFloat, TypeDouble}) &&
      (IsUnsignedKind(provider.value) <==> vt in {TypeUInt, TypeULong}) &&
      (IsDoubledKind(provider.value) <==> vt in {TypeLong, TypeULong, TypeDouble})
  {
    match vt
    case TypeBool | TypeChar | TypeInt => Some(KindInt)
    case TypeLong => Some(KindLong)
    case TypeUInt => Some(KindUInt)
    case TypeULong => Some(KindULong)
    case TypeDouble => Some(KindDouble)
    case TypeFloat => Some(KindFloat)
    case _ => None
  }

  /**
   * The indicator parameters the cache consults (`icparams`). `dataTypeFlags`
   * stands for the external `GetDataTypeFlags`.
   */
  datatype CandleParams = CandleParams(
    valueType: ValueType,
    maxModes: nat,
    shift: int,
    dataTypeFlags: ValueType -> set<EntryFlag>)

  /** The indicator state flags the cache updates (`istate`). */
  datatype IndicatorState = IndicatorState(isReady: bool, isChanged: bool)

  /** The pending error (`_LastError`). */
  datatype LastError = NoError | ProviderError | InvalidParameter

  /** What one call of the data source yields: a payload, and whether it raised an error. */
  datatype Fetched = Fetched(payload: int, raised: bool)

  /** The data source: the value of a mode at a timestamp, fetched as a numeric kind. */
  type DataSource = (NumKind, nat, int) -> Fetched

  /** One call of the data source, as logged by the cache. */
  datatype Request = Request(kind: NumKind, mode: nat, timestamp: int)

  /* ---------------------------------------------------------------------- */
  /* Overflow listener                                                       */
  /* ---------------------------------------------------------------------- */

  /** Why the keyed store asks whether it may grow. */
  datatype OverflowReason = ReasonFull | ReasonTooManyConflicts | ReasonOther(code: int)

  /** One day of one-second slots. */
  const MaxSlots: int := 86400

  /**
   * `IndicatorCandleOverflowListener`: growth is allowed only when the store is
   * full and holds fewer than `MaxSlots` slots; the conflict count plays no part.
   */
  function IndicatorCandleOverflowListener(reason: OverflowReason, size: int, numConflicts: int): (allowResize: bool)
    ensures reason == ReasonFull ==> (allowResize <==> size < MaxSlots)
    ensures reason != ReasonFull ==> !allowResize
  {
    match reason
    case ReasonFull => size < MaxSlots
    case ReasonTooManyConflicts => false
    case ReasonOther(_) => false
  }

  /* ---------------------------------------------------------------------- */
  /* Validity                                                                */
  /* ---------------------------------------------------------------------- */

  /** The numeric kind whose sentinels the validity check uses, chosen by the real/unsigned/doubled flags. */
  function SentinelKind(flags: set<EntryFlag>): (k: NumKind)
    ensures IsRealKind(k) <==> IsReal in flags
    ensures IsDoubledKind(k) <==> IsDoubled in flags
    ensures IsUnsignedKind(k) <==> IsUnsigned in flags && IsReal !in flags
  {
    if IsReal in flags then
      if IsDoubled in flags then KindDouble else KindFloat
    else if IsUnsigned in flags then
      if IsDoubled in flags then KindULong else KindUInt
    else
      if IsDoubled in flags then KindLong else KindInt
  }

  /** No slot holds the maximum or the NULL sentinel of kind `k`. */
  predicate FreeOfSentinels(values: seq<Value>, k: NumKind)
  {
    forall i :: 0 <= i < |values| ==> !Hits(values[i], MaxOf(k)) && !Hits(values[i], NullOf(k))
  }

  /**
   * `IsValidEntry`: a positive timestamp, at least one value, and no value equal
   * to either sentinel of the kind the entry's flags select.
   */
  function IsValidEntry(e: Entry): (valid: bool)
    ensures valid <==> e.timestamp > 0 && |e.values| > 0 && FreeOfSentinels(e.values, SentinelKind(e.flags))
  {
    var k := SentinelKind(e.flags);
    HasValueIff(e.values, MaxOf(k));
    HasValueIff(e.values, NullOf(k));
    e.timestamp > 0 && |e.values| > 0 && !HasValue(e.values, MaxOf(k)) && !HasValue(e.values, NullOf(k))
  }

  /** The status flags `IsValid` and `InsufficientData` do not affect the validity check. */
  lemma IsValidEntryIgnoresStatusFlags(e: Entry, f: EntryFlag, on: bool)
    requires f == IsValid || f == InsufficientData
    ensures IsValidEntry(SetFlag(e, f, on)) == IsValidEntry(e)
  {
  }

  /* ---------------------------------------------------------------------- */
  /* Building an entry                                                       */
  /* ---------------------------------------------------------------------- */

  /** `GetByKey`: the cached entry, or the default entry on a miss. */
  function GetByKey(cache: map<int, Entry>, ts: int): (e: Entry)
    ensures ts in cache ==> e == cache[ts]
    ensures ts !in cache ==> e == DefaultEntry
  {
    if ts in cache then cache[ts] else DefaultEntry
  }

  /** An entry that `GetEntry` returns as it is: marked valid or marked as having insufficient data. */
  predicate IsResolved(e: Entry)
  {
    IsValid in e.flags || InsufficientData in e.flags
  }

  /** The content of slot `mode` after the loop: the fetched value, or the old slot when the type is unsupported. */
  function FillSlot(vt: ValueType, src: DataSource, prev: Value, mode: nat, ts: int): Value
  {
    match ProviderKind(vt)
    case Some(k) => Num(k, src(k, mode, ts).payload)
    case None => prev
  }

  /** The values after the loop over all modes. */
  function FilledValues(vt: ValueType, src: DataSource, base: seq<Value>, ts: int): (r: seq<Value>)
    ensures |r| == |base|
  {
    seq(|base|, i requires 0 <= i < |base| => FillSlot(vt, src, base[i], i, ts))
  }

  /** The error pending after the first `n` iterations of the loop (an error, once raised, stays). */
  function FillError(vt: ValueType, src: DataSource, n: nat, ts: int): LastError
  {
    if n == 0 then NoError
    else
      match ProviderKind(vt)
      case None => InvalidParameter
      case Some(k) => if src(k, n - 1, ts).raised then ProviderError else FillError(vt, src, n - 1, ts)
  }

  /** The data-source calls made by the first `n` iterations of the loop. */
  function Calls(vt: ValueType, n: nat, ts: int): seq<Request>
  {
    if n == 0 then []
    else
      match ProviderKind(vt)
      case None => []
      case Some(k) => Calls(vt, n - 1, ts) + [Request(k, n - 1, ts)]
  }

  /** The error is pending exactly when some iteration ran into an unsupported type or a raising fetch. */
  lemma {:induction false} FillErrorPending(vt: ValueType, src: DataSource, n: nat, ts: int)
    ensures FillError(vt, src, n, ts) != NoError <==>
      n > 0 && (ProviderKind(vt).None? || exists i :: 0 <= i < n && src(ProviderKind(vt).value, i, ts).raised)
    ensures ProviderKind(vt).None? && n > 0 ==> FillError(vt, src, n, ts) == InvalidParameter
  {
    if n > 0 && ProviderKind(vt).Some? {
      var k := ProviderKind(vt).value;
      FillErrorPending(vt, src, n - 1, ts);
      if FillError(vt, src, n, ts) != NoError && !src(k, n - 1, ts).raised {
        var i :| 0 <= i < n - 1 && src(k, i, ts).raised;
        assert 0 <= i < n;
      }
    }
  }

  /** One data-source call per mode, in mode order, for a supported type; none otherwise. */
  lemma {:induction false} CallsOnePerMode(vt: ValueType, n: nat, ts: int)
    ensures ProviderKind(vt).None? ==> Calls(vt, n, ts) == []
    ensures ProviderKind(vt).Some? ==>
      |Calls(vt, n, ts)| == n &&
      forall i :: 0 <= i < n ==> Calls(vt, n, ts)[i] == Request(ProviderKind(vt).value, i, ts)
  {
    if n > 0 {
      CallsOnePerMode(vt, n - 1, ts);
    }
  }

  /** `GetEntryAlter` (default hook): adds the numeric-kind flags of the configured value type, nothing else. */
  function GetEntryAlter(icparams: CandleParams, e: Entry, ts: int): (r: Entry)
    ensures r.timestamp == e.timestamp && r.values == e.values
    ensures e.flags <= r.flags && icparams.dataTypeFlags(icparams.valueType) <= r.flags
    ensures r.flags - e.flags <= icparams.dataTypeFlags(icparams.valueType)
  {
    AddFlags(e, icparams.dataTypeFlags(icparams.valueType))
  }

  /** The candidate entry built on a miss from the looked-up entry `found`, before it is judged. */
  function BuildEntry(icparams: CandleParams, src: DataSource, found: Entry, ts: int): Entry
  {
    var resized := Resized(found.values, icparams.maxModes);
    var filled := Entry(ts, FilledValues(icparams.valueType, src, resized, ts), found.flags);
    GetEntryAlter(icparams, filled, ts)
  }

  /** The judged candidate: marked valid, or marked not valid and insufficient. */
  function Judged(built: Entry): Entry
  {
    var valid := IsValidEntry(built);
    var marked := SetFlag(built, IsValid, valid);
    if valid then marked else AddFlags(marked, {InsufficientData})
  }

  /** Everything one `GetEntry` call yields: the entry, the new cache and state, and the data-source calls made. */
  datatype Resolution = Resolution(entry: Entry, cache: map<int, Entry>, istate: IndicatorState, calls: seq<Request>)

  /** Specification of `GetEntry(ts)` on cache `cache` and state `istate`. */
  function Resolve(icparams: CandleParams, src: DataSource, cache: map<int, Entry>, istate: IndicatorState, ts: int): (r: Resolution)
    ensures IsResolved(r.entry)
    ensures IsValid in r.entry.flags ==> ts in r.cache && r.cache[ts] == r.entry
    ensures r.cache.Keys <= cache.Keys + {ts}
    ensures forall t :: t in cache && t != ts ==> t in r.cache && r.cache[t] == cache[t]
    ensures r.calls != [] ==> !IsResolved(GetByKey(cache, ts))
  {
    var found := GetByKey(cache, ts);
    if IsResolved(found) then Resolution(found, cache, istate, [])
    else
      var built := BuildEntry(icparams, src, found, ts);
      var valid := IsValidEntry(built);
      var entry := Judged(built);
      var cache' := if valid then cache[ts := entry] else cache;
      var istate' := if valid then istate.(isChanged := false, isReady := true) else istate;
      var pending := FillError(icparams.valueType, src, icparams.maxModes, ts) != NoError;
      Resolution(entry, cache', if pending then istate'.(isReady := false) else istate',
                 Calls(icparams.valueType, icparams.maxModes, ts))
  }

  /** A cached entry: stored under its own timestamp, marked valid, passing the validity check, one value per mode. */
  predicate WellCached(icparams: CandleParams, ts: int, e: Entry)
  {
    e.timestamp == ts && IsValid in e.flags && IsValidEntry(e) && |e.values| == icparams.maxModes
  }

  /** Invariant of the cache: every entry in it is well cached. */
  predicate CacheInv(icparams: CandleParams, cache: map<int, Entry>)
  {
    forall ts :: ts in cache ==> WellCached(icparams, ts, cache[ts])
  }

  /** The judged candidate of a miss is well cached when it is valid. */
  lemma JudgedWellCached(icparams: CandleParams, src: DataSource, found: Entry, ts: int)
    ensures var built := BuildEntry(icparams, src, found, ts);
      IsValidEntry(built) ==> WellCached(icparams, ts, Judged(built))
  {
  }

  /* ---------------------------------------------------------------------- */
  /* The cache object                                                        */
  /* ---------------------------------------------------------------------- */

  class IndicatorCandle {
    const icparams: CandleParams
    var icdata: map<int, Entry>
    var istate: IndicatorState
    var lastError: LastError
    /** Every data-source call made so far, in order. */
    ghost var fetches: seq<Request>

    ghost predicate Valid()
      reads this
    {
      CacheInv(icparams, icdata)
    }

    constructor (icparams: CandleParams, istate: IndicatorState)
      ensures Valid()
      ensures this.icparams == icparams && this.istate == istate
      ensures icdata == map[] && lastError == NoError && fetches == []
    {
      this.icparams := icparams;
      this.istate := istate;
      icdata := map[];
      lastError := NoError;
      fetches := [];
    }

    /** `GetEntry(ts)`: the entry for `ts`, from the cache or freshly built from `src`. */
    method GetEntry(timestamp: int, src: DataSource) returns (entry: Entry)
      requires Valid()
      modifies this
      ensures Valid()
      ensures var r := Resolve(icparams, src, old(icdata), old(istate), timestamp);
        entry == r.entry && icdata == r.cache && istate == r.istate && fetches == old(fetches) + r.calls
      ensures lastError == NoError
    {
      lastError := NoError;
      entry := GetByKey(icdata, timestamp);
      if !IsResolved(entry) {
        ghost var found := entry;
        entry := entry.(values := Resized(entry.values, icparams.maxModes));
        entry := entry.(timestamp := timestamp);
        entry := FetchModes(entry, src);
        entry := GetEntryAlter(icparams, entry, timestamp);
        assert entry == BuildEntry(icparams, src, found, timestamp);
        var valid := IsValidEntry(entry);
        JudgedWellCached(icparams, src, found, timestamp);
        entry := SetFlag(entry, IsValid, valid);
        if valid {
          icdata := icdata[timestamp := entry];
          istate := istate.(isChanged := false, isReady := true);
        } else {
          entry := AddFlags(entry, {InsufficientData});
        }
      }
      if lastError != NoError {
        istate := istate.(isReady := false);
        lastError := NoError;
      }
    }

    /**
     * The loop of `GetEntry` over the modes: fetches each mode's value from the
     * provider the value type selects, or raises an invalid-parameter error
     * when the type has none.
     */
    method FetchModes(e: Entry, src: DataSource) returns (entry: Entry)
      requires |e.values| == icparams.maxModes && lastError == NoError
      modifies this`lastError, this`fetches
      ensures entry == e.(values := FilledValues(icparams.valueType, src, e.values, e.timestamp))
      ensures lastError == FillError(icparams.valueType, src, icparams.maxModes, e.timestamp)
      ensures fetches == old(fetches) + Calls(icparams.valueType, icparams.maxModes, e.timestamp)
    {
      entry := e;
      var mode: nat := 0;
      while mode < icparams.maxModes
        invariant mode <= icparams.maxModes
        invariant entry.timestamp == e.timestamp && entry.flags == e.flags && |entry.values| == |e.values|
        invariant forall i :: 0 <= i < mode ==> entry.values[i] == FillSlot(icparams.valueType, src, e.values[i], i, e.timestamp)
        invariant forall i :: mode <= i < |e.values| ==> entry.values[i] == e.values[i]
        invariant lastError == FillError(icparams.valueType, src, mode, e.timestamp)
        invariant fetches == old(fetches) + Calls(icparams.valueType, mode, e.timestamp)
      {
        match ProviderKind(icparams.valueType) {
          case Some(kind) =>
            var fetched := src(kind, mode, e.timestamp);
            fetches := fetches + [Request(kind, mode, e.timestamp)];
            entry := entry.(values := entry.values[mode := Num(kind, fetched.payload)]);
            if fetched.raised {
              lastError := ProviderError;
            }
          case None =>
            lastError := InvalidParameter;
        }
        mode := mode + 1;
      }
      assert entry.values == FilledValues(icparams.valueType, src, e.values, e.timestamp);
    }

    /**
     * `GetEntryValue(mode, shift)`: the value of one mode of the entry that
     * `GetEntry` resolves for the shift, or for the configured shift when the
     * shift is negative. The shift is handed to `GetEntry` as its timestamp.
     */
    method GetEntryValue(mode: int, shift: int, src: DataSource) returns (value: Value)
      requires Valid()
      requires 0 <= mode < icparams.maxModes
      modifies this
      ensures Valid()
      ensures var r := Resolve(icparams, src, old(icdata), old(istate), if shift >= 0 then shift else icparams.shift);
        |r.entry.values| == icparams.maxModes && value == r.entry.values[mode] &&
        icdata == r.cache && istate == r.istate && fetches == old(fetches) + r.calls
      ensures lastError == NoError
    {
      var ishift := if shift >= 0 then shift else icparams.shift;
      var entry := GetEntry(ishift, src);
      ResolvedEntryHasAllModes(icparams, src, old(icdata), old(istate), ishift);
      value := entry.values[mode];
    }
  }

  /** Over a well-formed cache, the resolved entry has one value per mode. */
  lemma ResolvedEntryHasAllModes(icparams: CandleParams, src: DataSource, cache: map<int, Entry>, istate: IndicatorState, ts: int)
    requires CacheInv(icparams, cache)
    ensures |Resolve(icparams, src, cache, istate, ts).entry.values| == icparams.maxModes
  {
  }
}

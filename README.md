# IndicatorCandle result cache, modelled in Dafny

This project models the per-timestamp result cache of `IndicatorCandle<TS>`, the
base class of candle indicators in the EA31337 trading framework.

- `GetEntry(timestamp)` looks the timestamp up in the indicator's keyed store
  (`icdata`). A stored entry that is marked valid or marked as having
  insufficient data is returned as it is. Otherwise the entry is built: it is
  resized to one value per mode and stamped with the timestamp. Each mode's
  value is then fetched from the `GetValue<T>` provider that the configured
  value type selects. The entry is tagged with the numeric-kind flags of that
  type and judged by `IsValidEntry`. A valid entry is stored and makes the
  indicator ready and up to date. An invalid one is returned marked
  "insufficient data" and is not stored. A pending error leaves the indicator
  not ready and is cleared before returning.
- `IsValidEntry` accepts an entry with a positive timestamp and at least one
  value, none of which equals the maximum or the NULL sentinel of the numeric
  kind that the entry's real/unsigned/doubled flags select.
- `IndicatorCandleOverflowListener` lets the store grow while it is full and
  below 86 400 slots, and never when keys collide too often.
- `GetEntryValue(mode, shift)` resolves an entry and projects one mode's value.

Layout:

- `wrappers.dfy` (module `Wrappers`): `Option`.
- `indicator_data.dfy` (module `IndicatorData`): entries, values, flags and the
  sentinels of the six numeric kinds. Integer kinds hold the integer itself.
  `float` and `double` hold their IEEE-754 bit pattern, so every sentinel test
  is an exact integer comparison. NULL also matches the bit pattern of -0.0,
  because -0.0 compares equal to 0.0.
- `indicator_candle.dfy` (module `Candle`): the value types and their provider
  dispatch, the overflow listener, the validity check, the pure specification
  `Resolve` of one `GetEntry` call, and the class `IndicatorCandle`. Its
  `GetEntry` performs the steps in place (cache map field, state flags, error
  field, a loop over the modes) and is proved to follow `Resolve`. A ghost
  field `fetches` logs every provider call, so "no provider call" can be stated.
- `candle_properties.dfy` (module `CandleProperties`): lemmas about `Resolve`.

External collaborators are parameters:

- the value provider `GetValue<T>` is the argument `src: DataSource`, a total
  function from (numeric kind, mode, timestamp) to a payload and an error bit;
- `GetDataTypeFlags` is the field `dataTypeFlags` of the parameters `CandleParams`;
- the keyed store `BufferStruct` is a `map<int, Entry>`;
- the global `_LastError` is the field `lastError` of the cache object.

The "insufficient data" mark is only put on the returned copy
(Indicator/IndicatorCandle.h:127) and the entry is never stored, so there is no
negative cache: the short-circuit at line 88 only fires for stored entries, and
a rejected timestamp is rebuilt on every lookup (`UncachedIsRebuilt`).

`GetEntryValue` hands the resolved shift to `GetEntry` as its timestamp
(Indicator/IndicatorCandle.h:156-157), and the model does the same. One
consequence, proved by `NonPositiveTimestampNeverCached`: shift 0 (and
`GetEntry`'s default timestamp 0) never yields a stored entry.

## Model

| member | source | states |
|---|---|---|
| `IndicatorData.Resized` | Indicator/IndicatorCandle.h:89 | resizing keeps the first `n` slots and pads with unset slots; the result has exactly `n` slots |
| `IndicatorData.SetFlag` | Indicator/IndicatorCandle.h:121 | setting a flag raises or clears exactly that flag; timestamp, values and every other flag are kept |
| `IndicatorData.AddFlags` | Indicator/IndicatorCandle.h:127 | adding flags yields the union of the old flags and the added ones; timestamp and values are kept |
| `IndicatorData.HasValueIff` | Indicator/IndicatorCandle.h:198-219 | the `HasValue` scan finds a sentinel exactly when some slot compares equal to it |
| `Candle.ProviderKind` | Indicator/IndicatorCandle.h:92-117 | BOOL, CHAR and INT use the int provider; LONG, UINT, ULONG, FLOAT and DOUBLE use the provider of matching signedness, width and realness; exactly UCHAR, STRING and the unlisted types (SHORT, USHORT, COLOR, DATETIME) have no provider |
| `Candle.Resolve` | Indicator/IndicatorCandle.h:85-135 | the returned entry always carries IS_VALID or INSUFFICIENT_DATA; an entry carrying IS_VALID is the one stored under the timestamp; the cache gains at most the requested key and no other key changes; provider calls happen only when the lookup did not short-circuit |
| `Candle.IndicatorCandleOverflowListener` | Indicator/IndicatorCandle.h:163-174 | reason FULL: growth allowed iff size < 86400, whatever the conflict count; TOO_MANY_CONFLICTS or any other reason: never allowed, whatever the size |
| `Candle.SentinelKind` | Indicator/IndicatorCandle.h:196-222 | the selected kind is real iff IS_REAL is set, doubled-width iff IS_DOUBLED is set, unsigned iff IS_UNSIGNED is set and IS_REAL is not |
| `Candle.IsValidEntry` | Indicator/IndicatorCandle.h:192-224 | valid iff timestamp > 0, at least one value, and no value equals the max or NULL sentinel of the selected kind (both directions; timestamp <= 0 or no values is invalid whatever the values and flags) |
| `Candle.IsValidEntryIgnoresStatusFlags` | Indicator/IndicatorCandle.h:121-127 | raising or clearing IS_VALID or INSUFFICIENT_DATA does not change the validity verdict, so the marked entry that is stored is still valid |
| `Candle.GetByKey` | Indicator/IndicatorCandle.h:87 | a lookup yields the stored entry for a present key and the empty default entry for an absent one |
| `Candle.FillErrorPending` | Indicator/IndicatorCandle.h:91-118 | after the mode loop an error is pending iff there is at least one mode and the type is unsupported or some fetch raised; an unsupported type leaves ERR_INVALID_PARAMETER |
| `Candle.CallsOnePerMode` | Indicator/IndicatorCandle.h:91-118 | a supported type makes exactly one provider call per mode, in mode order, for the requested timestamp; an unsupported type makes none |
| `Candle.GetEntryAlter` | Indicator/IndicatorCandle.h:143-145 | the default hook keeps timestamp and values and adds exactly the data-type flags of the configured value type |
| `Candle.JudgedWellCached` | Indicator/IndicatorCandle.h:120-125 | a built entry that passes the check, once marked valid, is fit for the cache: keyed by its timestamp, marked valid, valid, one value per mode |
| `Candle.IndicatorCandle.constructor` | Indicator/IndicatorCandle.h:63-68 | a new cache is empty, with the given parameters and state and no pending error |
| `Candle.IndicatorCandle.GetEntry` | Indicator/IndicatorCandle.h:85-135 | the returned entry, the new cache, the new state and the provider calls made are those of `Resolve`; the cache invariant is kept; no error is pending on return |
| `Candle.IndicatorCandle.FetchModes` | Indicator/IndicatorCandle.h:91-119 | the loop fills every slot from the provider the type selects (or leaves it and raises ERR_INVALID_PARAMETER), with the error and the provider calls of `FillError` and `Calls` |
| `Candle.IndicatorCandle.GetEntryValue` | Indicator/IndicatorCandle.h:155-158 | uses the given shift when it is >= 0 and the configured shift otherwise, resolves that entry as `GetEntry` does and returns that mode's value; no error is pending on return |
| `Candle.ResolvedEntryHasAllModes` | Indicator/IndicatorCandle.h:89-90 | over a well-formed cache, every resolved entry has one value per mode, so a mode below the mode count can be read |
| `CandleProperties.HitIffCached` | Indicator/IndicatorCandle.h:87-88 | over a well-formed cache, the lookup short-circuits exactly when the timestamp is stored |
| `CandleProperties.ResolvedEntryIsReturned` | Indicator/IndicatorCandle.h:87-88 | an entry that is valid or carries INSUFFICIENT_DATA is returned unchanged, with no provider call and no change to the cache or the state |
| `CandleProperties.MissBuildsEntry` | Indicator/IndicatorCandle.h:89-118 | on a miss the entry has one value per mode and the requested timestamp; each slot holds what the selected provider returned; BOOL, CHAR and INT use the int provider; STRING, UCHAR and unlisted types make no call and leave the indicator not ready when there is at least one mode |
| `CandleProperties.MissCachesIffValid` | Indicator/IndicatorCandle.h:120-128 | after a miss the key is stored iff the built entry is valid, and no other key changes; valid: stored and returned entries agree, is_changed false, is_ready true unless an error is pending; invalid: cache unchanged, entry carries INSUFFICIENT_DATA |
| `CandleProperties.ProviderErrorClearsReady` | Indicator/IndicatorCandle.h:130-133 | a provider error on any mode leaves the indicator not ready, even when the entry was just stored |
| `CandleProperties.ResolvePreservesCacheInv` | Indicator/IndicatorCandle.h:120-125 | every lookup keeps every stored entry keyed by its timestamp, marked valid, valid and of full width |
| `CandleProperties.SecondLookupIsCached` | Indicator/IndicatorCandle.h:87-88 | a second lookup of a timestamp the first one stored returns the same entry with no provider call and no change, whatever the provider returns by then |
| `CandleProperties.UncachedIsRebuilt` | Indicator/IndicatorCandle.h:126-128 | an entry the first lookup rejected is not stored, so the next lookup calls the provider again and rebuilds it |
| `CandleProperties.NonPositiveTimestampNeverCached` | Indicator/IndicatorCandle.h:194 | a timestamp <= 0 is never stored: each lookup rebuilds the entry and marks it INSUFFICIENT_DATA |
| `CandleProperties.CachedTimestampsPositive` | Indicator/IndicatorCandle.h:194 | every key of a well-formed cache is positive |
| `CandleProperties.SentinelValueNeverCached` | Indicator/IndicatorCandle.h:196-223 | when the provider returns the max or NULL sentinel of its own kind for some mode, and the type's flags select that kind, the entry is rejected and not stored |

## Left out

- The internals of `BufferStruct`: hashing, resizing, slot reuse and `DICT_FLAG_FILL_HOLES_UNSORTED` (`Init`, Indicator/IndicatorCandle.h:52-55). The store is a map that never evicts. The overflow listener is modelled on its own and not wired to the store, so the slot reuse after 86 400 slots is not captured.
- The real `GetValue<T>` provider and the data-source wiring (`SetDataSource`, `indi_src`, Indicator/IndicatorCandle.h:179-182). These are foreign calls. The provider is a function parameter that returns a payload and may raise an error.
- `CandleProperties.SentinelValueNeverCached`: assumes the kind chosen by `GetDataTypeFlags` equals the kind of the provider. `GetDataTypeFlags` is external and not part of this model, so that mapping is not proved.
- Floating-point semantics of `float` and `double`, including `FLT_MAX` and `DBL_MAX`. Real values are bit patterns compared for equality. NaN is never equal to a sentinel under either reading. Converting a stored value to a different kind before the comparison is not modelled; the stored payload is compared as it is.
- The contents of a slot that a resize adds is not visible (`IndicatorDataEntry` is not part of this model). Such a slot reads as zero, so it hits the NULL sentinel.
- `_LastError` is a global in the source and a field of the cache object here. A raised error stays pending until the end of `GetEntry`; a later successful fetch does not clear it.
- Subclasses overriding the virtual hooks `GetEntryAlter` and `IsValidEntry`: only the default bodies are modelled.
- `Candle.IndicatorCandle.GetEntryValue`: requires `0 <= mode < maxModes`. In the source an out-of-range mode is an array access fault, not a handled case.
- The template constructors (Indicator/IndicatorCandle.h:63-73) only set parameters. The model's constructor takes the parameters and the initial indicator state.
- Indicators/Indi_Drawer.struct.h: `DrawerParams` only assigns defaults, `Serialize` passes fields to the external serializer, and `DrawerGainLossData` holds two zeroed doubles. None of it has behaviour to verify.

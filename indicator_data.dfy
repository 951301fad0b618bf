/**
 * The indicator data entry that the candle cache stores: a timestamp, one value
 * per mode and a set of status flags, together with the "no data" sentinels that
 * the validity check looks for.
 *
 * Values are kept as integer payloads tagged with the numeric kind that produced
 * them. Integer kinds carry the integer itself; the real kinds (float and double)
 * carry their IEEE-754 bit pattern, so that the equality tests of the validity
 * check are exact integer comparisons and no floating-point arithmetic is needed.
 */
module IndicatorData {

  /** The six numeric kinds a value can be fetched as (MQL int, long, uint, ulong, float, double). */
  datatype NumKind = KindInt | KindLong | KindUInt | KindULong | KindFloat | KindDouble

  predicate IsRealKind(k: NumKind) { k == KindFloat || k == KindDouble }
  predicate IsUnsignedKind(k: NumKind) { k == KindUInt || k == KindULong }
  predicate IsDoubledKind(k: NumKind) { k == KindLong || k == KindULong || k == KindDouble }

  /**
   * One value slot of an entry. `Unset` is the content of a slot added by a
   * resize and never written; it reads as zero.
   */
  datatype Value = Unset | Num(kind: NumKind, payload: int)

  /** The payload a slot holds when it is read back for a comparison. */
  function Payload(v: Value): int
  {
    match v
    case Unset => 0
    case Num(_, p) => p
  }

  /** The entry flags the cache and the validity check look at. */
  datatype EntryFlag = IsValid | InsufficientData | IsReal | IsUnsigned | IsDoubled

  /** `IndicatorDataEntry`: timestamp, values (one per mode) and flags. */
  datatype Entry = Entry(timestamp: int, values: seq<Value>, flags: set<EntryFlag>)

  /** What a lookup of an absent key yields: no values, no flags. */
  const DefaultEntry: Entry := Entry(0, [], {})

  /** `Resize`: keeps the first `n` slots and pads with unset slots. */
  function Resized(values: seq<Value>, n: nat): (r: seq<Value>)
    ensures |r| == n
    ensures forall i :: 0 <= i < n && i < |values| ==> r[i] == values[i]
    ensures forall i :: |values| <= i < n ==> r[i] == Unset
  {
    if n <= |values| then values[..n] else values + seq(n - |values|, _ => Unset)
  }

  /** `SetFlag(f, on)`: raises or clears one flag, leaving every other flag alone. */
  function SetFlag(e: Entry, f: EntryFlag, on: bool): (r: Entry)
    ensures r.timestamp == e.timestamp && r.values == e.values
    ensures f in r.flags <==> on
    ensures forall g :: g != f ==> (g in r.flags <==> g in e.flags)
  {
    e.(flags := if on then e.flags + {f} else e.flags - {f})
  }

  /** `AddFlags(fs)`: raises every flag of `fs`. */
  function AddFlags(e: Entry, fs: set<EntryFlag>): (r: Entry)
    ensures r.timestamp == e.timestamp && r.values == e.values
    ensures forall g :: g in r.flags <==> g in e.flags || g in fs
  {
    e.(flags := e.flags + fs)
  }

  /* ---------------------------------------------------------------------- */
  /* Sentinels                                                               */
  /* ---------------------------------------------------------------------- */

  /** The two reserved values of a numeric kind: its maximum and its NULL (zero). */
  datatype Sentinel = MaxOf(kind: NumKind) | NullOf(kind: NumKind)

  const INT_MAX: int := 0x7FFF_FFFF
  const LONG_MAX: int := 0x7FFF_FFFF_FFFF_FFFF
  const UINT_MAX: int := 0xFFFF_FFFF
  const ULONG_MAX: int := 0xFFFF_FFFF_FFFF_FFFF
  /** Bit pattern of FLT_MAX (largest finite single-precision value). */
  const FLT_MAX_BITS: int := 0x7F7F_FFFF
  /** Bit pattern of DBL_MAX (largest finite double-precision value). */
  const DBL_MAX_BITS: int := 0x7FEF_FFFF_FFFF_FFFF
  /** Bit patterns of -0.0, which compares equal to NULL (0.0) as a real. */
  const FLT_NEG_ZERO_BITS: int := 0x8000_0000
  const DBL_NEG_ZERO_BITS: int := 0x8000_0000_0000_0000

  /** The payload of the maximum sentinel of a kind. */
  function MaxPayload(k: NumKind): int
  {
    match k
    case KindInt => INT_MAX
    case KindLong => LONG_MAX
    case KindUInt => UINT_MAX
    case KindULong => ULONG_MAX
    case KindFloat => FLT_MAX_BITS
    case KindDouble => DBL_MAX_BITS
  }

  /** Whether a slot, read as the sentinel's kind, compares equal to the sentinel. */
  predicate Hits(v: Value, s: Sentinel)
  {
    match s
    case MaxOf(k) => Payload(v) == MaxPayload(k)
    case NullOf(k) =>
      Payload(v) == 0
      || (k == KindFloat && Payload(v) == FLT_NEG_ZERO_BITS)
      || (k == KindDouble && Payload(v) == DBL_NEG_ZERO_BITS)
  }

  /** `HasValue<T>(s)`: a scan of the slots for one that compares equal to `s`. */
  predicate HasValue(values: seq<Value>, s: Sentinel)
  {
    |values| > 0 && (Hits(values[0], s) || HasValue(values[1..], s))
  }

  /** The scan finds the sentinel exactly when some slot holds it. */
  lemma {:induction false} HasValueIff(values: seq<Value>, s: Sentinel)
    ensures HasValue(values, s) <==> exists i :: 0 <= i < |values| && Hits(values[i], s)
  {
    if |values| > 0 {
      HasValueIff(values[1..], s);
      if HasValue(values[1..], s) {
        var j :| 0 <= j < |values[1..]| && Hits(values[1..][j], s);
        assert Hits(values[j + 1], s);
      }
      if i :| 0 <= i < |values| && Hits(values[i], s) {
        if i > 0 {
          assert Hits(values[1..][i - 1], s);
        }
      }
    }
  }
}

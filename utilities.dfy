/**
 * Generic helpers of src/utility_functions/utilities.ts: the string hash used for database
 * ids, the conversion of a duration to its highest unit, splitting into chunks and collecting
 * the positions of a value.
 */
module Utilities {

  // ---------------------------------------------------------------------------------------
  // hashString, with JavaScript's 32-bit integer operators
  // ---------------------------------------------------------------------------------------

  const TwoTo32: int := 0x1_0000_0000
  const TwoTo31: int := 0x8000_0000

  /** ToInt32: the integer modulo 2^32, read as a signed 32-bit value. */
  function ToInt32(x: int): (r: int)
    ensures -TwoTo31 <= r < TwoTo31
    ensures (r - x) % TwoTo32 == 0
  {
    var m := x % TwoTo32;
    if m >= TwoTo31 then m - TwoTo32 else m
  }

  /** The 32 bits of a signed 32-bit value. */
  function Bits(x: int): bv32
    requires -TwoTo31 <= x < TwoTo31
  {
    (if x < 0 then x + TwoTo32 else x) as bv32
  }

  /** The signed 32-bit value of 32 bits. */
  function Signed(b: bv32): int {
    var u := b as int;
    if u >= TwoTo31 then u - TwoTo32 else u
  }

  /** `a & b`: both operands go through ToInt32, then the bits are and-ed. */
  function JsAnd(a: int, b: int): int {
    Signed(Bits(ToInt32(a)) & Bits(ToInt32(b)))
  }

  /** `a << n` for 0 <= n < 32: a shift of the ToInt32 value, kept to 32 bits. */
  function JsShiftLeft(a: int, n: nat): int
    requires n < 32
  {
    ToInt32(ToInt32(a) * Pow2(n))
  }

  function Pow2(n: nat): (r: nat)
    ensures r >= 1
  {
    if n == 0 then 1 else 2 * Pow2(n - 1)
  }

  /**
   * The literal `0xFFFFFFFFFFFFFFFF` is a JavaScript number, a double: 2^64 - 1 needs 64
   * significant bits, and the nearest double is 2^64.
   */
  const MaskLiteral: int := 0xFFFF_FFFF_FFFF_FFFF
  const Mask: int := 0x1_0000_0000_0000_0000

  /** The mask is the literal rounded up to 2^64, a multiple of 2^32, which ToInt32 sends to 0. */
  lemma MaskIsZero()
    ensures Mask == MaskLiteral + 1 && Mask == TwoTo32 * TwoTo32
    ensures ToInt32(Mask) == 0
  {
  }

  /** One loop iteration: `hash = ((hash << 5) - hash) + charCode; hash = hash & mask`. */
  function HashStep(hash: int, c: char): int {
    JsAnd((JsShiftLeft(hash, 5) - hash) + c as int, Mask)
  }

  /** The value of `hash` after the loop has read all of s. */
  function HashFold(s: string): int
    decreases |s|
  {
    if s == [] then 0 else HashStep(HashFold(s[..|s| - 1]), s[|s| - 1])
  }

  /** Anything and-ed with the mask is 0: the mask's 32 low bits are all zero. */
  lemma HashStepIsZero(hash: int, c: char)
    ensures HashStep(hash, c) == 0
  {
    MaskIsZero();
    var a := Bits(ToInt32((JsShiftLeft(hash, 5) - hash) + c as int));
    assert Bits(ToInt32(Mask)) == 0;
    assert a & 0 == 0;
  }

  /** After any input the hash is 0. */
  lemma {:induction false} HashFoldIsZero(s: string)
    ensures HashFold(s) == 0
    decreases |s|
  {
    if s != [] {
      HashStepIsZero(HashFold(s[..|s| - 1]), s[|s| - 1]);
    }
  }

  function HexDigit(d: int): char
    requires 0 <= d < 16
  {
    "0123456789abcdef"[d]
  }

  /** `n.toString(16)` for n >= 0. */
  function HexNat(n: nat): (r: string)
    ensures |r| >= 1
  {
    if n < 16 then [HexDigit(n)] else HexNat(n / 16) + [HexDigit(n % 16)]
  }

  /** `n.toString(16)`: a negative number is written with a leading minus. */
  function Hex(n: int): string {
    if n < 0 then "-" + HexNat(-n) else HexNat(n)
  }

  /** `s.padStart(16, '0').substring(0, 16)`. */
  function Pad16(s: string): (r: string) {
    var padded := if |s| >= 16 then s else seq(16 - |s|, _ => '0') + s;
    padded[..16]
  }

  /** Padding then cutting gives exactly 16 characters, whatever the hex text, sign included. */
  lemma Pad16Length(s: string)
    ensures |Pad16(s)| == 16
    ensures |s| <= 16 ==> Pad16(s)[16 - |s|..] == s
  {
  }

  /** The result of hashString. */
  function HashOf(s: string): string {
    if |s| == 0 then "0000000000000000" else Pad16(Hex(HashFold(s)))
  }

  /** hashString. */
  method HashString(inputString: string) returns (r: string)
    ensures r == HashOf(inputString)
    ensures |r| == 16
  {
    var hash := 0;
    if |inputString| == 0 {
      return "0000000000000000";
    }
    for i := 0 to |inputString|
      invariant hash == HashFold(inputString[..i])
    {
      assert inputString[..i + 1][..i] == inputString[..i];
      hash := JsAnd((JsShiftLeft(hash, 5) - hash) + inputString[i] as int, Mask);
    }
    assert inputString[..|inputString|] == inputString;
    Pad16Length(Hex(hash));
    r := Pad16(Hex(hash));
  }

  /** Every string, the empty one included, hashes to sixteen zeros. */
  lemma HashIsConstant(s: string)
    ensures HashOf(s) == "0000000000000000"
  {
    if |s| > 0 {
      HashFoldIsZero(s);
      assert Hex(0) == "0";
    }
  }

  // ---------------------------------------------------------------------------------------
  // milliToHighestOrder
  // ---------------------------------------------------------------------------------------

  /** What milliToHighestOrder returns. */
  datatype Duration = Duration(value: int, unit: string)

  /** `Math.trunc`: rounding toward zero. */
  function Trunc(x: real): int {
    if x >= 0.0 then x.Floor else -((-x).Floor)
  }

  /** Above 1, `Math.trunc(x) !== 1` holds exactly from 2 on. */
  lemma TruncNotOne(x: real)
    requires x > 1.0
    ensures (Trunc(x) != 1) == (x >= 2.0)
  {
  }

  /** The reading the input gets: its value in the unit UnitOf picks, truncated. */
  function Reading(ms: real): Duration {
    Duration(Trunc(Scaled(ms)), UnitOf(ms))
  }

  /** A path of milliToHighestOrder that ends with value v in unit u reads the input. */
  lemma ReadingAt(ms: real, v: real, u: string)
    requires v == Scaled(ms) && UnitOf(ms) == u
    ensures Duration(Trunc(v), u) == Reading(ms)
  {
  }

  /** milliToHighestOrder: divide step by step while the value exceeds the next unit. */
  method MilliToHighestOrder(milliseconds: real) returns (r: Duration)
    ensures r == Reading(milliseconds)
  {
    var calcVal := milliseconds / 1000.0;
    var unit := "s";
    if calcVal > 60.0 {
      calcVal := calcVal / 60.0;
      unit := "m";
      if calcVal > 60.0 {
        calcVal := calcVal / 60.0;
        TruncNotOne(calcVal);
        unit := if Trunc(calcVal) != 1 then "hrs" else "hr";
        if calcVal > 24.0 {
          calcVal := calcVal / 24.0;
          unit := "d";
          if calcVal > 7.0 {
            calcVal := calcVal / 7.0;
            unit := "w";
            if calcVal > 30.0 {
              calcVal := calcVal / 30.0;
              unit := "m";
              if calcVal > 12.0 {
                calcVal := calcVal / 12.0;
                TruncNotOne(calcVal);
                unit := if Trunc(calcVal) != 1 then "yrs" else "yr";
                ReadingAt(milliseconds, calcVal, unit);
              } else {
                ReadingAt(milliseconds, calcVal, unit);
              }
            } else {
              ReadingAt(milliseconds, calcVal, unit);
            }
          } else {
            ReadingAt(milliseconds, calcVal, unit);
          }
        } else {
          ReadingAt(milliseconds, calcVal, unit);
        }
      } else {
        ReadingAt(milliseconds, calcVal, unit);
      }
    } else {
      ReadingAt(milliseconds, calcVal, unit);
    }
    r := Duration(Trunc(calcVal), unit);
  }

  /** Milliseconds per second, minute, hour, day, week, "month" (30 weeks) and year (12 of those). */
  const Second: real := 1000.0
  const Minute: real := 60.0 * Second
  const Hour: real := 60.0 * Minute
  const Day: real := 24.0 * Hour
  const Week: real := 7.0 * Day
  const Month: real := 30.0 * Week
  const Year: real := 12.0 * Month

  /**
   * The input counted in the largest unit whose threshold it exceeds (each divisor is the
   * product of the constants above, written out).
   */
  function Scaled(ms: real): real {
    if ms <= Minute then ms / 1000.0
    else if ms <= Hour then ms / 60000.0
    else if ms <= Day then ms / 3600000.0
    else if ms <= Week then ms / 86400000.0
    else if ms <= Month then ms / 604800000.0
    else if ms <= Year then ms / 18144000000.0
    else ms / 217728000000.0
  }

  /** The unit label, by the same thresholds; one hour and one year take the singular. */
  function UnitOf(ms: real): string {
    if ms <= Minute then "s"
    else if ms <= Hour then "m"
    else if ms <= Day then (if ms < 2.0 * Hour then "hr" else "hrs")
    else if ms <= Week then "d"
    else if ms <= Month then "w"
    else if ms <= Year then "m"
    else if ms < 2.0 * Year then "yr" else "yrs"
  }

  /**
   * Up to a minute the result is whole seconds; the unit is one of eight labels; "hr" is
   * used only for 1 to 2 hours exclusive; a "month" is 30 weeks and shares the label "m"
   * with minutes, so two minutes and two such months give the same result.
   */
  lemma DurationSpec(ms: real)
    ensures ms <= 60000.0 ==> Reading(ms) == Duration(Trunc(ms / 1000.0), "s")
    ensures UnitOf(ms) in {"s", "m", "hr", "hrs", "d", "w", "yr", "yrs"}
    ensures UnitOf(ms) == "hr" <==> Hour < ms < 2.0 * Hour
    ensures UnitOf(ms) == "m" <==> (Minute < ms <= Hour || Week * 30.0 < ms <= Year)
    ensures Reading(120000.0) == Reading(2.0 * Month) == Duration(2, "m")
  {
  }

  // ---------------------------------------------------------------------------------------
  // chunks and getAllIndexes
  // ---------------------------------------------------------------------------------------

  /** The chunks of `a` from position i on: slices of `size`, the last one possibly shorter. */
  function ChunksFrom<T>(a: seq<T>, size: int, i: int): seq<seq<T>>
    requires size > 0 && i >= 0
    decreases |a| - i
  {
    if i >= |a| then []
    else [a[i..if i + size < |a| then i + size else |a|]] + ChunksFrom(a, size, i + size)
  }

  /** chunks: `slice(i, i + size)` pushed for i = 0, size, 2 size, ... */
  method Chunks<T>(items: seq<T>, size: int) returns (result: seq<seq<T>>)
    requires size > 0
    ensures result == ChunksFrom(items, size, 0)
  {
    result := [];
    var i := 0;
    while i < |items|
      invariant i >= 0
      invariant result + ChunksFrom(items, size, i) == ChunksFrom(items, size, 0)
      decreases |items| - i
    {
      var end := if i + size < |items| then i + size else |items|;
      result := result + [items[i..end]];
      i := i + size;
    }
  }

  function Flatten<T>(xs: seq<seq<T>>): seq<T> {
    if xs == [] then [] else xs[0] + Flatten(xs[1..])
  }

  /** From position i on, the chunks concatenate to the rest of the array. */
  lemma {:induction false} ChunksFlatten<T>(a: seq<T>, size: int, i: int)
    requires size > 0 && 0 <= i <= |a|
    ensures Flatten(ChunksFrom(a, size, i)) == a[i..]
    decreases |a| - i
  {
    if i < |a| {
      if i + size <= |a| {
        ChunksFlatten(a, size, i + size);
        assert a[i..] == a[i..i + size] + a[i + size..];
      } else {
        assert ChunksFrom(a, size, i + size) == [];
      }
    }
  }

  /** All chunks but the last have length `size`; the last has 1 to `size` elements. */
  lemma {:induction false} ChunksLengths<T>(a: seq<T>, size: int, i: int)
    requires size > 0 && 0 <= i <= |a|
    ensures var c := ChunksFrom(a, size, i);
      (forall k :: 0 <= k < |c| - 1 ==> |c[k]| == size) &&
      (|c| > 0 ==> 1 <= |c[|c| - 1]| <= size)
    decreases |a| - i
  {
    if i < |a| && i + size <= |a| {
      ChunksLengths(a, size, i + size);
    }
  }

  /** From position i on there are ceil((|a| - i) / size) chunks: the least n with n * size >= |a| - i. */
  lemma {:induction false} ChunksCount<T>(a: seq<T>, size: int, i: int)
    requires size > 0 && 0 <= i <= |a|
    ensures var n := |ChunksFrom(a, size, i)|;
      n * size >= |a| - i && (n - 1) * size < |a| - i
    decreases |a| - i
  {
    var n := |ChunksFrom(a, size, i)|;
    if i < |a| {
      if i + size <= |a| {
        ChunksCount(a, size, i + size);
        var m := |ChunksFrom(a, size, i + size)|;
        assert n == m + 1;
        assert n * size == m * size + size;
        assert (n - 1) * size == m * size;
      } else {
        assert ChunksFrom(a, size, i + size) == [];
        assert n == 1;
      }
    } else {
      assert n == 0;
    }
  }

  /** Chunking all of a non-empty or empty array: concatenation, lengths and count. */
  lemma ChunksSpec<T>(a: seq<T>, size: int)
    requires size > 0
    ensures var c := ChunksFrom(a, size, 0);
      Flatten(c) == a &&
      (forall k :: 0 <= k < |c| - 1 ==> |c[k]| == size) &&
      (|c| > 0 ==> 1 <= |c[|c| - 1]| <= size) &&
      |c| * size >= |a| && (|c| - 1) * size < |a| &&
      (a == [] ==> c == [])
  {
    ChunksFlatten(a, size, 0);
    ChunksLengths(a, size, 0);
    ChunksCount(a, size, 0);
  }

  /** getAllIndexes: the positions holding `val`, in increasing order. */
  method GetAllIndexes<T(==)>(arr: seq<T>, val: T) returns (indexes: seq<int>)
    ensures forall i, j :: 0 <= i < j < |indexes| ==> indexes[i] < indexes[j]
    ensures forall k :: k in indexes <==> 0 <= k < |arr| && arr[k] == val
  {
    indexes := [];
    var i := 0;
    while i < |arr|
      invariant 0 <= i <= |arr|
      invariant forall a, b :: 0 <= a < b < |indexes| ==> indexes[a] < indexes[b]
      invariant forall a :: 0 <= a < |indexes| ==> indexes[a] < i
      invariant forall k :: k in indexes <==> 0 <= k < i && arr[k] == val
    {
      if arr[i] == val {
        indexes := indexes + [i];
      }
      i := i + 1;
    }
  }
}

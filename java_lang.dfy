// The parts of the Java platform the blog backend leans on: nullable
// references, 32-bit `int` arithmetic with wrap-around, the hash codes of
// `String`, `Boolean` and `java.util.Date`, and `java.util.Date` itself,
// which is a mutable object.

module JavaLang {

  /** A nullable value: `None` stands for Java's `null`. */
  datatype Option<+T> = None | Some(value: T)

  /** Java's `int`. */
  newtype int32 = x: int | -0x8000_0000 <= x < 0x8000_0000

  /** Java's `long`. */
  newtype int64 = x: int | -0x8000_0000_0000_0000 <= x < 0x8000_0000_0000_0000

  const TwoTo32: int := 0x1_0000_0000

  /** The narrowing conversion `(int) x`: keeps the low 32 bits, two's complement. */
  function Int32Cast(x: int): (r: int32)
    ensures -0x8000_0000 <= x < 0x8000_0000 ==> r as int == x
    ensures (r as int - x) % TwoTo32 == 0
  {
    ((x + 0x8000_0000) % TwoTo32 - 0x8000_0000) as int32
  }

  /** One step `31 * result + h` of the hash recipe every `hashCode` in the source uses. */
  function HashStep(acc: int32, h: int32): int32
  {
    Int32Cast(31 * acc as int + h as int)
  }

  /**
   * `String.hashCode`: `s[0]*31^(n-1) + ... + s[n-1]` in 32-bit arithmetic,
   * taken here over code points. Java takes it over UTF-16 code units, so the
   * two differ for a string with a character above U+FFFF.
   */
  function StringHash(s: string): int32
  {
    if s == [] then 0 else HashStep(StringHash(s[..|s| - 1]), Int32Cast(s[|s| - 1] as int))
  }

  /** The hash a generated `hashCode` uses for a nullable field: 0 for `null`. */
  function OptionHash<T>(o: Option<T>, hash: T -> int32): int32
  {
    match o
    case None => 0
    case Some(v) => hash(v)
  }

  function NullableStringHash(s: Option<string>): int32
  {
    OptionHash(s, StringHash)
  }

  /** The `isX ? 1231 : 1237` term the generated hashes use for a boolean field. */
  function BoolHash(b: bool): int32
  {
    if b then 1231 else 1237
  }

  /** `Long.hashCode`: `(int) (v ^ (v >>> 32))`. */
  function LongHash(v: int64): int32
  {
    var bits := ((v as int + 0x1_0000_0000_0000_0000) % 0x1_0000_0000_0000_0000) as bv64;
    var folded := (bits ^ (bits >> 32)) & 0xFFFF_FFFF;
    Int32Cast(folded as int)
  }

  /** `AbstractSet.hashCode`: the sum of the elements' hashes. */
  ghost function SetHash<T>(s: set<T>, hash: T -> int32): int32
    decreases |s|
  {
    if s == {} then 0
    else
      var x :| x in s;
      Int32Cast(hash(x) as int + SetHash(s - {x}, hash) as int)
  }

  /** The string `"" + s` gives for a nullable string. */
  function Show(s: Option<string>): string
  {
    match s
    case None => "null"
    case Some(v) => v
  }

  /** `java.util.Date`: a mutable point in time, in milliseconds since the epoch. */
  class Date {
    var time: int64

    constructor (time: int64)
      ensures this.time == time
    {
      this.time := time;
    }

    method SetTime(time: int64)
      modifies this
      ensures this.time == time
    {
      this.time := time;
    }

    /** `Date.equals`: another `Date` with the same time. */
    predicate Equals(other: Date?)
      reads this, other
    {
      other != null && time == other.time
    }

    /** `Date.hashCode` hashes the time as a `long`. */
    function HashCode(): int32
      reads this
    {
      LongHash(time)
    }
  }

  /** `Objects.equals` on two nullable dates. */
  predicate DatesEqual(a: Date?, b: Date?)
    reads a, b
  {
    if a == null then b == null else a.Equals(b)
  }

  function DateHash(d: Date?): int32
    reads d
  {
    if d == null then 0 else d.HashCode()
  }
}

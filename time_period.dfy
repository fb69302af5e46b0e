/** A period of time in seconds, [startTime, endTime), with value equality and a masked hash. */
module Patch {

  /** Java's 64-bit signed long. */
  newtype Long = x: int | -0x8000_0000_0000_0000 <= x < 0x8000_0000_0000_0000

  /** Java's 32-bit signed int. */
  newtype Int = x: int | -0x8000_0000 <= x < 0x8000_0000

  datatype TimePeriod = TimePeriod(startTime: Long, endTime: Long)

  /** The two-argument constructor: the period [start, end). */
  function Create(start: Long, end: Long): (p: TimePeriod)
    ensures p.startTime == start && p.endTime == end
  {
    TimePeriod(start, end)
  }

  /** The no-argument constructor leaves both fields at Java's default 0. */
  function CreateDefault(): (p: TimePeriod)
    ensures p.startTime == 0 && p.endTime == 0
  {
    TimePeriod(0, 0)
  }

  /** What equals may be handed: null, a time period, or an object of another class. */
  datatype JavaObject = Null | Period(period: TimePeriod) | OtherObject(id: nat)

  /** The low 15 bits of a long, x & 0x7fff in two's complement. */
  function Low15(x: Long): (r: int)
    ensures 0 <= r < 0x8000
  {
    x as int % 0x8000
  }

  /** equals: only a time period with the same start and end is equal. */
  predicate Equals(p: TimePeriod, o: JavaObject): (b: bool)
    ensures b ==> o.Period?
    ensures o == Period(p) ==> b
  {
    match o
    case Period(other) => other.startTime == p.startTime && other.endTime == p.endTime
    case _ => false
  }

  /** hashCode: the sum of the low 15 bits of start and end, cast to int. */
  function HashCode(p: TimePeriod): (r: Int)
    ensures 0 <= r <= 65534
  {
    (Low15(p.startTime) + Low15(p.endTime)) as Int
  }

  /** equals holds exactly for the period with the same two fields, and never for null or another class. */
  lemma EqualsIsFieldEquality(p: TimePeriod, o: JavaObject)
    ensures Equals(p, o) <==> o == Period(p)
    ensures o.Null? || o.OtherObject? ==> !Equals(p, o)
  {
  }

  /** equals is reflexive, symmetric and transitive on time periods. */
  lemma EqualsIsEquivalence(p: TimePeriod, q: TimePeriod, r: TimePeriod)
    ensures Equals(p, Period(p))
    ensures Equals(p, Period(q)) ==> Equals(q, Period(p))
    ensures Equals(p, Period(q)) && Equals(q, Period(r)) ==> Equals(p, Period(r))
  {
  }

  /** Equal periods have equal hash codes. */
  lemma HashConsistentWithEquals(p: TimePeriod, q: TimePeriod)
    requires Equals(p, Period(q))
    ensures HashCode(p) == HashCode(q)
  {
  }

  /** The mask keeps a long's value exactly when it lies in [0, 0x7fff], and differs by a multiple of 0x8000 otherwise. */
  lemma Low15Mask(x: Long)
    ensures 0 <= x < 0x8000 <==> Low15(x) == x as int
    ensures (x as int - Low15(x)) % 0x8000 == 0
  {
  }

  /** Periods whose ends differ by multiples of 2^15 collide: hashCode ignores the high bits. */
  lemma HashIgnoresHighBits(p: TimePeriod, k: int, m: int)
    requires -0x8000_0000_0000_0000 <= p.startTime as int + k * 0x8000 < 0x8000_0000_0000_0000
    requires -0x8000_0000_0000_0000 <= p.endTime as int + m * 0x8000 < 0x8000_0000_0000_0000
    ensures HashCode(TimePeriod((p.startTime as int + k * 0x8000) as Long, (p.endTime as int + m * 0x8000) as Long)) == HashCode(p)
  {
  }
}

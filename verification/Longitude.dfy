/** The mapper packet's longitude: micro-degrees travel as a 29-bit field, negative values
    included, because multiplying the field by ten wraps back into a signed 32-bit number. */
module Longitude {
  import opened Words

  const FIELD_LIMIT: int := 0x2000_0000

  type Field = x: int | 0 <= x < FIELD_LIMIT

  /** Go's conversion of an integer to uint32. */
  function ToUint32(x: int): uint32 { x % TWO_32 }

  /** Go's conversion of a uint32 to int32. */
  function ToInt32(x: uint32): int { if x < 0x8000_0000 then x else x - TWO_32 }

  /** Go's integer division truncates towards zero. */
  function Quotient(a: int, b: int): int
    requires b > 0
  {
    if a >= 0 then a / b else -(-a / b)
  }

  /** What a device transmits for a longitude in micro-degrees. */
  function Encode(longitude: int): uint32 { ToUint32(10 * longitude) / 10 }

  /** What the packet decoder reads out of the field. */
  function Decode(field: Field): int { Quotient(ToInt32(ToUint32(field * 10)), 10) }

  lemma EncodeWithin(longitude: int)
    requires -214748364 <= longitude <= 214748364
    ensures Encode(longitude) == if longitude < 0 then 429496729 + longitude else longitude
  {
    assert ToUint32(10 * longitude) == if longitude < 0 then 10 * longitude + TWO_32 else 10 * longitude;
  }

  lemma DecodeWithin(field: Field)
    ensures -214748364 <= Decode(field) <= 214748364
    ensures field <= 214748364 ==> Decode(field) == field
    ensures 214748364 < field <= 429496729 ==> Decode(field) == field - 429496729
  {
  }

  /** Every encoded longitude fits the field, and it is decoded exactly if and only if ten times
      its magnitude is a signed 32-bit number; all longitudes up to 180 degrees are. */
  lemma LongitudeRoundTrip(longitude: int)
    ensures Encode(longitude) < FIELD_LIMIT
    ensures Decode(Encode(longitude)) == longitude <==> -214748364 <= longitude <= 214748364
    ensures -180000000 <= longitude <= 180000000 ==> Decode(Encode(longitude)) == longitude
  {
    DecodeWithin(Encode(longitude));
    if -214748364 <= longitude <= 214748364 {
      EncodeWithin(longitude);
    }
  }

  /** Conversely a field is reproduced from what it decodes to, except the highest fields, which
      are spare ways of writing a longitude. */
  lemma FieldRoundTrip(field: Field)
    ensures Encode(Decode(field)) == field <==> field < 429496729
  {
    DecodeWithin(field);
    EncodeWithin(Decode(field));
  }

  /** A longitude east and its mirror west are told apart: decoding is one-to-one on the fields
      that encoding produces. */
  lemma EncodingInjective(a: int, b: int)
    requires -214748364 <= a <= 214748364 && -214748364 <= b <= 214748364
    ensures Encode(a) == Encode(b) <==> a == b
  {
    LongitudeRoundTrip(a);
    LongitudeRoundTrip(b);
  }
}

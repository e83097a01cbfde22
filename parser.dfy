/** The EPEVER register codec (internal/controllers/epever/parser/parser.go):
    length-checked decoders from reply bytes to engineering values, and the
    encoders going the other way.

    Scaled values are exact: a register holding n centi-units decodes to the
    real n/100. Go computes these in float32; that rounding is not modelled. */
module Parser {
  import opened Wrappers
  import opened Modbus
  import Text

  type Int16 = x: int | -0x8000 <= x < 0x8000
  type Int32 = x: int | -0x8000_0000 <= x < 0x8000_0000

  const ValueDivisor: real := 100.0
  const TempSignedThreshold: int := 32768
  const TempSignedOffset: int := 65536
  const TempDivisor: real := 100.0

  /** A centi-unit count as a value in whole units. */
  function Scaled(n: int): real
  {
    n as real / ValueDivisor
  }

  /** Go's conversion of a float to an integer: the fraction is dropped, so
      the result moves toward zero. */
  function Truncate(x: real): (n: int)
    ensures n as real <= x < n as real + 1.0 || (x < 0.0 && n as real - 1.0 < x <= n as real)
    ensures -1.0 < x - n as real < 1.0
  {
    if x >= 0.0 then x.Floor else -((-x).Floor)
  }

  /** An integer reduced to 16 bits, as a uint16 conversion does. */
  function WrapWord(n: int): (w: Word)
    ensures 0 <= n < 0x1_0000 ==> w == n
    ensures (w - n) % 0x1_0000 == 0
  {
    n % 0x1_0000
  }

  /** An integer reduced to 16 bits two's complement, as an int16 conversion does. */
  function WrapInt16(n: int): (v: Int16)
    ensures -0x8000 <= n < 0x8000 ==> v == n
    ensures (v - n) % 0x1_0000 == 0
  {
    (n + 0x8000) % 0x1_0000 - 0x8000
  }

  /** ParseFloat: the first register, divided by 100; later bytes are ignored. */
  function ParseFloat(data: seq<Byte>): (r: Result<real>)
    ensures r.Ok? <==> |data| >= 2
    ensures r.Ok? ==> 0.0 <= r.value <= 655.35
    ensures r.Ok? ==> r.value * 100.0 == WordAt(data, 0) as real
    ensures r.Err? ==> r.error == "insufficient data for float: expected 2 bytes, got " + LengthText(data)
  {
    if |data| < 2 then Err("insufficient data for float: expected 2 bytes, got " + LengthText(data))
    else Ok(Scaled(BE16(data[0], data[1])))
  }

  /** The length of `s`, as `%d` prints `len(s)`. */
  function LengthText<T>(s: seq<T>): (t: string)
    ensures (forall c | c in t :: Text.IsDigit(c)) && Text.DecimalValue(t) == |s|
  {
    Text.DecimalRoundTrip(|s|);
    Text.Decimal(|s|)
  }

  /** The refusal of the many-register decoders: the quantity, the byte
      count it needs and the byte count received, each as `%d` prints it. */
  function Shortage(kind: string, data: seq<Byte>, quantity: nat): string
  {
    "insufficient data for " + Text.Decimal(quantity) + " " + kind + ": expected " + Text.Decimal(2 * quantity)
      + " bytes, got " + LengthText(data)
  }

  /** ParseFloats: `quantity` consecutive registers, each divided by 100. */
  function ParseFloats(data: seq<Byte>, quantity: nat): (r: Result<seq<real>>)
    ensures r.Ok? <==> |data| >= 2 * quantity
    ensures r.Ok? ==> |r.value| == quantity
    ensures r.Ok? ==> forall i | 0 <= i < quantity :: r.value[i] * 100.0 == WordAt(data, i) as real
    ensures r.Err? ==> r.error == Shortage("floats", data, quantity)
  {
    if |data| < 2 * quantity then Err(Shortage("floats", data, quantity))
    else Ok(seq(quantity, i requires 0 <= i < quantity => Scaled(WordAt(data, i))))
  }

  /** ParseInt: the first register as an unsigned value, never sign-extended. */
  function ParseInt(data: seq<Byte>): (r: Result<Int32>)
    ensures r.Ok? <==> |data| >= 2
    ensures r.Ok? ==> 0 <= r.value <= 65535 && r.value == WordAt(data, 0)
    ensures r.Err? ==> r.error == "insufficient data for int: expected 2 bytes, got " + LengthText(data)
  {
    if |data| < 2 then Err("insufficient data for int: expected 2 bytes, got " + LengthText(data))
    else Ok(BE16(data[0], data[1]) as Int32)
  }

  /** ParseInts: `quantity` consecutive unsigned registers. */
  function ParseInts(data: seq<Byte>, quantity: nat): (r: Result<seq<Int32>>)
    ensures r.Ok? <==> |data| >= 2 * quantity
    ensures r.Ok? ==> |r.value| == quantity
    ensures r.Ok? ==> forall i | 0 <= i < quantity :: 0 <= r.value[i] <= 65535 && r.value[i] == WordAt(data, i)
    ensures r.Err? ==> r.error == Shortage("ints", data, quantity)
  {
    if |data| < 2 * quantity then Err(Shortage("ints", data, quantity))
    else Ok(seq(quantity, i requires 0 <= i < quantity => WordAt(data, i) as Int32))
  }

  /** ParseFloat32: a 32-bit value sent as two registers, low word first,
      divided by 100. */
  function ParseFloat32(data: seq<Byte>): (r: Result<real>)
    ensures r.Ok? <==> |data| >= 4
    ensures r.Ok? ==> 0.0 <= r.value <= 42949672.95
    ensures r.Ok? ==> r.value * 100.0 == (WordAt(data, 1) * 0x1_0000 + WordAt(data, 0)) as real
    ensures r.Err? ==> r.error == "insufficient data for float32: expected 4 bytes, got " + LengthText(data)
  {
    if |data| < 4 then Err("insufficient data for float32: expected 4 bytes, got " + LengthText(data))
    else
      var swapped := [data[2], data[3], data[0], data[1]];
      Ok(Scaled(BE16(swapped[0], swapped[1]) * 0x1_0000 + BE16(swapped[2], swapped[3])))
  }

  /** ParseSignedTemperature: raw values from 32768 up stand for negative
      centi-degrees (raw - 65536). */
  function ParseSignedTemperature(raw: Int32): (t: real)
    ensures 0 <= raw < 0x1_0000 ==> -327.68 <= t <= 327.67
    ensures 0 <= raw < 0x1_0000 ==> (t < 0.0 <==> raw >= TempSignedThreshold)
    ensures 0 <= raw < 0x1_0000 ==> t * 100.0 == WrapInt16(raw) as real
  {
    var temp := if raw >= TempSignedThreshold then raw - TempSignedOffset else raw;
    temp as real / TempDivisor
  }

  /** ParseTemperatures: two folded temperatures, battery then device. */
  function ParseTemperatures(data: seq<Byte>): (r: Result<(real, real)>)
    ensures r.Ok? <==> |data| >= 4
    ensures r.Ok? ==> r.value.0 == ParseSignedTemperature(WordAt(data, 0))
    ensures r.Ok? ==> r.value.1 == ParseSignedTemperature(WordAt(data, 1))
    ensures r.Err? ==> r.error == Shortage("ints", data, 2)
  {
    match ParseInts(data, 2)
    case Err(e) => Err(e)
    case Ok(temps) =>
      if |temps| < 2 then Err("expected 2 temperature values, got " + LengthText(temps))
      else Ok((ParseSignedTemperature(temps[0]), ParseSignedTemperature(temps[1])))
  }

  /** EncodeUint16: the two big-endian bytes of a register; ParseInt reads them back. */
  function EncodeUint16(value: Word): (data: seq<Byte>)
    ensures |data| == 2 && WordAt(data, 0) == value
    ensures ParseInt(data) == Ok(value)
  {
    [value / 0x100, value % 0x100]
  }

  /** EncodeUint16s: register i occupies bytes 2i and 2i+1. */
  function EncodeUint16s(values: seq<Word>): (data: seq<Byte>)
    ensures |data| == 2 * |values|
    ensures forall i | 0 <= i < |values| :: WordAt(data, i) == values[i]
  {
    seq(2 * |values|, k requires 0 <= k < 2 * |values| =>
      if k % 2 == 0 then values[k / 2] / 0x100 else values[k / 2] % 0x100)
  }

  /** EncodeVoltage: volts times 100, truncated and stored as a uint16. */
  function EncodeVoltage(volts: real): (w: Word)
    ensures 0.0 <= volts * 100.0 < 65536.0 ==> w as real <= volts * 100.0 < w as real + 1.0
  {
    WrapWord(Truncate(volts * ValueDivisor))
  }

  /** EncodeTemperature: degrees times 100, truncated and stored as an int16. */
  function EncodeTemperature(degrees: real): (v: Int16)
    ensures 0.0 <= degrees * 100.0 < 32768.0 ==> v as real <= degrees * 100.0 < v as real + 1.0
    ensures -32768.0 < degrees * 100.0 <= 0.0 ==> v as real - 1.0 < degrees * 100.0 <= v as real
  {
    WrapInt16(Truncate(degrees * TempDivisor))
  }

  /** The low-word-first layout of a 32-bit count, as the device sends it. */
  function EncodeLowWordFirst(value: nat): (data: seq<Byte>)
    requires value < 0x1_0000_0000
    ensures |data| == 4
  {
    EncodeUint16(value % 0x1_0000) + EncodeUint16(value / 0x1_0000)
  }

  // ---------------------------------------------------------------------
  // Round trips between the encoders and the decoders

  /** Decoding ParseInts over an encoding gives back the registers. */
  lemma EncodeUint16sRoundTrip(values: seq<Word>)
    ensures ParseInts(EncodeUint16s(values), |values|) == Ok(values)
  {
    var r := ParseInts(EncodeUint16s(values), |values|);
    assert r.Ok?;
    assert forall i | 0 <= i < |values| :: r.value[i] == values[i];
    assert r.value == values;
  }

  /** A low-word-first encoding of a 32-bit count decodes to count/100. */
  lemma LowWordFirstRoundTrip(value: nat)
    requires value < 0x1_0000_0000
    ensures ParseFloat32(EncodeLowWordFirst(value)) == Ok(Scaled(value))
  {
    var data := EncodeLowWordFirst(value);
    assert data[0..2] == EncodeUint16(value % 0x1_0000);
    assert data[2..4] == EncodeUint16(value / 0x1_0000);
    assert WordAt(data, 0) == value % 0x1_0000;
    assert WordAt(data, 1) == value / 0x1_0000;
    assert WordAt(data, 1) * 0x1_0000 + WordAt(data, 0) == value;
  }

  /** Voltages survive a decode and re-encode exactly in centi-units. */
  lemma VoltageRoundTrip(data: seq<Byte>)
    requires |data| >= 2
    ensures EncodeVoltage(ParseFloat(data).value) == WordAt(data, 0)
  {
    var n := WordAt(data, 0);
    assert ParseFloat(data).value * ValueDivisor == n as real;
    assert (n as real).Floor == n;
  }

  /** Temperatures survive a decode and re-encode as the int16 the register holds. */
  lemma TemperatureRoundTrip(raw: Word)
    ensures EncodeTemperature(ParseSignedTemperature(raw)) == WrapInt16(raw)
  {
    var t := ParseSignedTemperature(raw);
    var v := WrapInt16(raw);
    assert t * TempDivisor == v as real;
    assert Truncate(v as real) == v;
  }

  /** The boundary values of the sign fold. */
  lemma SignedTemperatureBoundaries()
    ensures ParseSignedTemperature(32767) == 327.67
    ensures ParseSignedTemperature(32768) == -327.68
    ensures ParseSignedTemperature(0) == 0.0
    ensures ParseSignedTemperature(65535) == -0.01
  {
  }

  /** No sign extension: the all-ones register reads as 65535. */
  lemma AllOnesIsUnsigned()
    ensures ParseInt([0xFF, 0xFF]) == Ok(65535)
  {
  }

  /** The single and the multiple decoders agree, and extra bytes are ignored. */
  lemma SingleAgreesWithMultiple(data: seq<Byte>, extra: seq<Byte>)
    requires |data| >= 2
    ensures ParseFloats(data, 1) == Ok([ParseFloat(data).value])
    ensures ParseInts(data, 1) == Ok([ParseInt(data).value])
    ensures ParseFloat(data + extra) == ParseFloat(data)
  {
    assert ParseFloats(data, 1).value == [ParseFloat(data).value];
    assert ParseInts(data, 1).value == [ParseInt(data).value];
    assert (data + extra)[0] == data[0] && (data + extra)[1] == data[1];
  }
}

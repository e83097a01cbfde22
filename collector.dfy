/** The telemetry collector (internal/controllers/epever/collector.go): one
    status record assembled from a fixed sequence of Read Input Registers
    calls (function 0x04, section 6.4 of the MODBUS Application Protocol
    Specification V1.1b3). */
module Collection {
  import opened Wrappers
  import opened Modbus
  import Parser
  import Text

  /** `ControllerStatus`. Scaled fields are exact reals (raw / 100);
      `timestamp` is the Unix second the collection started and
      `collectionTime` the seconds it took. */
  datatype Status = Status(
    timestamp: int,
    collectionTime: real,
    arrayVoltage: real,
    arrayCurrent: real,
    arrayPower: real,
    chargingCurrent: real,
    chargingPower: real,
    batteryVoltage: real,
    batterySoc: int,
    batteryTemp: real,
    batteryMaxVoltage: real,
    batteryMinVoltage: real,
    deviceTemp: real,
    energyGeneratedDaily: real,
    chargingStatus: int)

  /** The reads `GetStatus` issues, in order. */
  const StatusPlan: seq<Call> := [
    ReadInput(0x3100, 2),   // array voltage, array current
    ReadInput(0x3101, 1),   // array current
    ReadInput(0x3104, 1),   // battery voltage
    ReadInput(0x311A, 1),   // battery state of charge
    ReadInput(0x3302, 2),   // battery maximum and minimum voltage today
    ReadInput(0x3102, 2),   // array power, low word first
    ReadInput(0x3105, 1),   // charging current
    ReadInput(0x3106, 2),   // charging power, low word first
    ReadInput(0x330C, 2),   // energy generated today, low word first
    ReadInput(0x3201, 1),   // charging equipment status
    ReadInput(0x3110, 2)    // battery and device temperature
  ]

  /** The state-of-charge read, the only one whose failure is ignored. */
  const SocIndex: nat := 3

  /** Bitwise AND of two non-negative integers, bit by bit from the lowest. */
  function BitAnd(a: nat, b: nat): nat
    decreases a
  {
    if a == 0 || b == 0 then 0 else (a % 2) * (b % 2) + 2 * BitAnd(a / 2, b / 2)
  }

  /** A right shift by `n` bits. */
  function ShiftRight(a: nat, n: nat): nat
    decreases n
  {
    if n == 0 then a else ShiftRight(a / 2, n - 1)
  }

  /** Bits 2 and 3 of the charging equipment status register, as
      `(status & 0x0C) >> 2`. */
  function ChargingStatusOf(word: Word): (s: int)
    ensures 0 <= s <= 3
    ensures s == (word / 4) % 4
  {
    MaskTwelve(word);
    ShiftRight(BitAnd(word, 0x0C), 2)
  }

  /** Masking with 0x0C keeps exactly bits 2 and 3. */
  lemma MaskTwelve(a: nat)
    ensures BitAnd(a, 0x0C) == 4 * ((a / 4) % 4)
    ensures ShiftRight(BitAnd(a, 0x0C), 2) == (a / 4) % 4
  {
    var a1, a2, a3 := a / 2, a / 4, a / 8;
    assert a / 2 / 2 == a2 && a2 / 2 == a3;
    assert BitAnd(a3, 1) == a3 % 2 by {
      if a3 != 0 {
        assert BitAnd(a3 / 2, 0) == 0;
      }
    }
    assert BitAnd(a2, 3) == a2 % 2 + 2 * BitAnd(a3, 1) by {
      if a2 == 0 {
        assert a3 == 0;
      }
    }
    assert BitAnd(a1, 6) == 2 * BitAnd(a2, 3) by {
      if a1 == 0 {
        assert a2 == 0;
      }
    }
    assert BitAnd(a, 12) == 2 * BitAnd(a1, 6) by {
      if a == 0 {
        assert a1 == 0;
      }
    }
    assert (a2 / 2) % 2 * 2 + a2 % 2 == a2 % 4;
    var m := BitAnd(a, 12);
    assert ShiftRight(m, 2) == m / 2 / 2;
  }

  /** The collector's own sign fold: it folds only above 32768, so the raw
      value 32768 stays positive. */
  function FoldTemperature(raw: Word): (t: real)
    ensures -327.67 <= t <= 327.68
    ensures raw != 32768 ==> t == Parser.ParseSignedTemperature(raw)
    ensures raw == 32768 ==> t == 327.68
  {
    var v := if raw > 32768 then raw - 65536 else raw;
    v as real / 100.0
  }

  /** The error text a failed read is wrapped in. */
  function ReadError(address: Word, reason: string): string
  {
    "failed to get data from address " + Text.Decimal(address) + ", error: " + reason
  }

  /** The data bytes of the answer to read `i` of the plan. */
  function Answer(script: map<Call, Reply>, i: nat): (data: seq<Byte>)
    requires Sized(script) && i < |StatusPlan| && Respond(script, StatusPlan[i]).Data?
    ensures |data| >= 2 * StatusPlan[i].quantity
  {
    SizedReply(script, StatusPlan[i]);
    Respond(script, StatusPlan[i]).bytes
  }

  /** Register `k` of the answer to read `i`, in centi-units. */
  function Register(script: map<Call, Reply>, i: nat, k: nat): Word
    requires Sized(script) && i < |StatusPlan| && Respond(script, StatusPlan[i]).Data?
    requires k < StatusPlan[i].quantity
  {
    WordAt(Answer(script, i), k)
  }

  /** The 32-bit value in the two registers of read `i`, low word first. */
  function LowWordFirst(script: map<Call, Reply>, i: nat): nat
    requires Sized(script) && i < |StatusPlan| && Respond(script, StatusPlan[i]).Data?
    requires StatusPlan[i].quantity == 2
  {
    Register(script, i, 1) * 0x1_0000 + Register(script, i, 0)
  }

  /** The status a complete collection yields, field by field from the
      register layout. */
  function StatusOf(script: map<Call, Reply>, start: int, elapsed: real): Status
    requires Sized(script) && Completes(script, StatusPlan, SocIndex)
  {
    Status(
      timestamp := start,
      collectionTime := elapsed,
      arrayVoltage := Parser.Scaled(Register(script, 0, 0)),
      arrayCurrent := Parser.Scaled(Register(script, 1, 0)),
      arrayPower := Parser.Scaled(LowWordFirst(script, 5)),
      chargingCurrent := Parser.Scaled(Register(script, 6, 0)),
      chargingPower := Parser.Scaled(LowWordFirst(script, 7)),
      batteryVoltage := Parser.Scaled(Register(script, 2, 0)),
      batterySoc := if Respond(script, StatusPlan[SocIndex]).Data? then Register(script, SocIndex, 0) else 0,
      batteryTemp := FoldTemperature(Register(script, 10, 0)),
      batteryMaxVoltage := Parser.Scaled(Register(script, 4, 0)),
      batteryMinVoltage := Parser.Scaled(Register(script, 4, 1)),
      deviceTemp := FoldTemperature(Register(script, 10, 1)),
      energyGeneratedDaily := Parser.Scaled(LowWordFirst(script, 8)),
      chargingStatus := ChargingStatusOf(Register(script, 9, 0)))
  }

  /** Decoding loop of `getValueFloats`: `quantity` registers divided by 100. */
  method DecodeFloats(data: seq<Byte>, quantity: nat) returns (results: seq<real>)
    requires |data| >= 2 * quantity
    ensures Parser.ParseFloats(data, quantity) == Ok(results)
  {
    results := [];
    var i := 0;
    while i < quantity
      invariant 0 <= i <= quantity
      invariant |results| == i
      invariant forall k | 0 <= k < i :: results[k] == Parser.Scaled(WordAt(data, k))
    {
      results := results + [Parser.Scaled(BE16(data[2 * i], data[2 * i + 1]))];
      i := i + 1;
    }
    var expected := Parser.ParseFloats(data, quantity);
    assert forall k | 0 <= k < quantity :: expected.value[k] == results[k];
    assert results == expected.value;
  }

  /** Decoding loop of `getValueInts`: `quantity` unsigned registers. */
  method DecodeInts(data: seq<Byte>, quantity: nat) returns (results: seq<Parser.Int32>)
    requires |data| >= 2 * quantity
    ensures Parser.ParseInts(data, quantity) == Ok(results)
  {
    results := [];
    var i := 0;
    while i < quantity
      invariant 0 <= i <= quantity
      invariant |results| == i
      invariant forall k | 0 <= k < i :: results[k] == WordAt(data, k)
    {
      var w := BE16(data[2 * i], data[2 * i + 1]);
      results := results + [w];
      i := i + 1;
    }
    var expected := Parser.ParseInts(data, quantity);
    assert forall k | 0 <= k < quantity :: expected.value[k] == results[k];
    assert results == expected.value;
  }

  class Collector {
    const client: Transport

    constructor (client: Transport)
      ensures this.client == client
    {
      this.client := client;
    }

    /** `getValueFloat`: one register, divided by 100. */
    method GetValueFloat(address: Word) returns (r: Result<real>)
      requires Sized(client.script)
      modifies client
      ensures client.log == old(client.log) + [ReadInput(address, 1)]
      ensures var reply := Respond(client.script, ReadInput(address, 1));
        (r.Ok? <==> reply.Data?) &&
        (r.Ok? ==> Parser.ParseFloat(reply.bytes) == r) &&
        (r.Err? ==> r.error == ReadError(address, reply.reason))
    {
      var reply := client.Perform(ReadInput(address, 1));
      if reply.Failure? {
        return Err(ReadError(address, reply.reason));
      }
      SizedReply(client.script, ReadInput(address, 1));
      r := Ok(Parser.Scaled(BE16(reply.bytes[0], reply.bytes[1])));
    }

    /** `getValueFloats`: `quantity` registers, each divided by 100. */
    method GetValueFloats(address: Word, quantity: Word) returns (r: Result<seq<real>>)
      requires Sized(client.script)
      modifies client
      ensures client.log == old(client.log) + [ReadInput(address, quantity)]
      ensures var reply := Respond(client.script, ReadInput(address, quantity));
        (r.Ok? <==> reply.Data?) &&
        (r.Ok? ==> Parser.ParseFloats(reply.bytes, quantity) == r) &&
        (r.Err? ==> r.error == ReadError(address, reply.reason))
    {
      var reply := client.Perform(ReadInput(address, quantity));
      if reply.Failure? {
        return Err(ReadError(address, reply.reason));
      }
      SizedReply(client.script, ReadInput(address, quantity));
      var results := DecodeFloats(reply.bytes, quantity);
      r := Ok(results);
    }

    /** `getValueInt`: one unsigned register. */
    method GetValueInt(address: Word) returns (r: Result<Parser.Int32>)
      requires Sized(client.script)
      modifies client
      ensures client.log == old(client.log) + [ReadInput(address, 1)]
      ensures var reply := Respond(client.script, ReadInput(address, 1));
        (r.Ok? <==> reply.Data?) &&
        (r.Ok? ==> Parser.ParseInt(reply.bytes) == r) &&
        (r.Err? ==> r.error == ReadError(address, reply.reason))
    {
      var reply := client.Perform(ReadInput(address, 1));
      if reply.Failure? {
        return Err(ReadError(address, reply.reason));
      }
      SizedReply(client.script, ReadInput(address, 1));
      r := Ok(BE16(reply.bytes[0], reply.bytes[1]) as Parser.Int32);
    }

    /** `getValueInts`: `quantity` unsigned registers. */
    method GetValueInts(address: Word, quantity: Word) returns (r: Result<seq<Parser.Int32>>)
      requires Sized(client.script)
      modifies client
      ensures client.log == old(client.log) + [ReadInput(address, quantity)]
      ensures var reply := Respond(client.script, ReadInput(address, quantity));
        (r.Ok? <==> reply.Data?) &&
        (r.Ok? ==> Parser.ParseInts(reply.bytes, quantity) == r) &&
        (r.Err? ==> r.error == ReadError(address, reply.reason))
    {
      var reply := client.Perform(ReadInput(address, quantity));
      if reply.Failure? {
        return Err(ReadError(address, reply.reason));
      }
      SizedReply(client.script, ReadInput(address, quantity));
      var results := DecodeInts(reply.bytes, quantity);
      r := Ok(results);
    }

    /** `getValueFloat32`: two registers swapped into a 32-bit value, divided by 100. */
    method GetValueFloat32(address: Word) returns (r: Result<real>)
      requires Sized(client.script)
      modifies client
      ensures client.log == old(client.log) + [ReadInput(address, 2)]
      ensures var reply := Respond(client.script, ReadInput(address, 2));
        (r.Ok? <==> reply.Data?) &&
        (r.Ok? ==> Parser.ParseFloat32(reply.bytes) == r) &&
        (r.Err? ==> r.error == ReadError(address, reply.reason))
    {
      var reply := client.Perform(ReadInput(address, 2));
      if reply.Failure? {
        return Err(ReadError(address, reply.reason));
      }
      SizedReply(client.script, ReadInput(address, 2));
      var data := reply.bytes;
      var swapped := [data[2], data[3], data[0], data[1]];
      r := Ok(Parser.Scaled(BE16(swapped[0], swapped[1]) * 0x1_0000 + BE16(swapped[2], swapped[3])));
    }

    /** `GetStatus`: the plan's reads in order, stopping at the first failure
        other than the state-of-charge read; `start` is the clock at the
        beginning and `elapsed` the seconds the reads took. The reads are
        issued by six consecutive steps below, two reads at a time. */
    method GetStatus(start: int, elapsed: real) returns (r: Result<Status>)
      requires Sized(client.script) && elapsed >= 0.0
      modifies client
      ensures client.log == old(client.log) + StatusPlan[..IssuedFrom(client.script, StatusPlan, 0, SocIndex)]
      ensures r.Ok? <==> Completes(client.script, StatusPlan, SocIndex)
      ensures r.Ok? ==> r.value == StatusOf(client.script, start, elapsed)
      ensures r.Err? ==> var i := IssuedFrom(client.script, StatusPlan, 0, SocIndex) - 1;
        0 <= i < |StatusPlan| && r.error == ReadError(StatusPlan[i].address, Respond(client.script, StatusPlan[i]).reason)
    {
      ghost var log0 := client.log;
      assert log0 == log0 + StatusPlan[..0];
      var first := ReadPanelAndBattery(log0);
      if first.Err? {
        return Err(first.error);
      }
      var rest := ReadChargingAndTemperatures(log0);
      if rest.Err? {
        return Err(rest.error);
      }
      r := Ok(Status(
        timestamp := start,
        collectionTime := elapsed,
        arrayVoltage := first.value.0,
        arrayCurrent := first.value.1,
        arrayPower := first.value.6,
        chargingCurrent := rest.value.0,
        chargingPower := rest.value.1,
        batteryVoltage := first.value.2,
        batterySoc := first.value.3,
        batteryTemp := rest.value.4,
        batteryMaxVoltage := first.value.4,
        batteryMinVoltage := first.value.5,
        deviceTemp := rest.value.5,
        energyGeneratedDaily := rest.value.2,
        chargingStatus := rest.value.3));
    }

    /** Reads 0 to 5: the array and battery readings and the array power,
        in the order of the three steps below. */
    method ReadPanelAndBattery(ghost prior: seq<Call>) returns (r: Result<(real, real, real, int, real, real, real)>)
      requires Sized(client.script) && client.log == prior + StatusPlan[..0]
      modifies client
      ensures r.Ok? ==> client.log == prior + StatusPlan[..6]
      ensures r.Ok? ==> IssuedFrom(client.script, StatusPlan, 0, SocIndex) == IssuedFrom(client.script, StatusPlan, 6, SocIndex)
      ensures r.Ok? ==> (r.value.0 == Parser.Scaled(Register(client.script, 0, 0)) &&
        r.value.1 == Parser.Scaled(Register(client.script, 1, 0)) &&
        r.value.2 == Parser.Scaled(Register(client.script, 2, 0)) &&
        r.value.3 == (if Respond(client.script, StatusPlan[SocIndex]).Data? then Register(client.script, SocIndex, 0) else 0) &&
        r.value.4 == Parser.Scaled(Register(client.script, 4, 0)) &&
        r.value.5 == Parser.Scaled(Register(client.script, 4, 1)) &&
        r.value.6 == Parser.Scaled(LowWordFirst(client.script, 5)))
      ensures r.Err? ==> Failed(client.script, prior, client.log, r.error)
    {
      var arrayReads := ReadArray(prior);
      if arrayReads.Err? {
        return Err(arrayReads.error);
      }
      var battery := ReadBattery(prior);
      if battery.Err? {
        return Err(battery.error);
      }
      var extremes := ReadExtremes(prior);
      if extremes.Err? {
        return Err(extremes.error);
      }
      r := Ok((arrayReads.value.0, arrayReads.value.1, battery.value.0, battery.value.1,
        extremes.value.0, extremes.value.1, extremes.value.2));
    }

    /** Reads 6 to 10: the charging readings, the day's energy, the charging
        status and the temperatures, in the order of the three steps below. */
    method ReadChargingAndTemperatures(ghost prior: seq<Call>) returns (r: Result<(real, real, real, int, real, real)>)
      requires Sized(client.script) && client.log == prior + StatusPlan[..6]
      requires IssuedFrom(client.script, StatusPlan, 0, SocIndex) == IssuedFrom(client.script, StatusPlan, 6, SocIndex)
      modifies client
      ensures r.Ok? ==> client.log == prior + StatusPlan
      ensures r.Ok? ==> IssuedFrom(client.script, StatusPlan, 0, SocIndex) == |StatusPlan|
      ensures r.Ok? ==> Completes(client.script, StatusPlan, SocIndex)
      ensures r.Ok? ==> (r.value.0 == Parser.Scaled(Register(client.script, 6, 0)) &&
        r.value.1 == Parser.Scaled(LowWordFirst(client.script, 7)) &&
        r.value.2 == Parser.Scaled(LowWordFirst(client.script, 8)) &&
        r.value.3 == ChargingStatusOf(Register(client.script, 9, 0)) &&
        r.value.4 == FoldTemperature(Register(client.script, 10, 0)) &&
        r.value.5 == FoldTemperature(Register(client.script, 10, 1)))
      ensures r.Err? ==> Failed(client.script, prior, client.log, r.error)
    {
      var charging := ReadCharging(prior);
      if charging.Err? {
        return Err(charging.error);
      }
      var energy := ReadEnergy(prior);
      if energy.Err? {
        return Err(energy.error);
      }
      var temps := ReadTemperatures(prior);
      if temps.Err? {
        return Err(temps.error);
      }
      r := Ok((charging.value.0, charging.value.1, energy.value.0, energy.value.1, temps.value.0, temps.value.1));
    }

    /** Reads 0 and 1: array voltage and array current. The current is read
        twice; the separate read overwrites the second register of the first. */
    method ReadArray(ghost prior: seq<Call>) returns (r: Result<(real, real)>)
      requires Sized(client.script) && client.log == prior + StatusPlan[..0]
      modifies client
      ensures r.Ok? ==> client.log == prior + StatusPlan[..2]
      ensures r.Ok? ==> IssuedFrom(client.script, StatusPlan, 0, SocIndex) == IssuedFrom(client.script, StatusPlan, 2, SocIndex)
      ensures r.Ok? ==> forall i | 0 <= i < 2 && i != SocIndex :: Respond(client.script, StatusPlan[i]).Data?
      ensures r.Ok? ==> (r.value.0 == Parser.Scaled(Register(client.script, 0, 0)) &&
        r.value.1 == Parser.Scaled(Register(client.script, 1, 0)))
      ensures r.Err? ==> Failed(client.script, prior, client.log, r.error)
    {
      ghost var s := client.script;
      ghost var before := client.log;
      var results := GetValueFloats(0x3100, 2);
      if results.Err? {
        StopsAt(s, StatusPlan, SocIndex, 0, ReadInput(0x3100, 2), prior, before, client.log);
        return Err(results.error);
      }
      Proceeds(s, StatusPlan, SocIndex, 0, ReadInput(0x3100, 2), prior, before, client.log);
      before := client.log;
      var current := GetValueFloat(0x3101);
      if current.Err? {
        StopsAt(s, StatusPlan, SocIndex, 1, ReadInput(0x3101, 1), prior, before, client.log);
        return Err(current.error);
      }
      Proceeds(s, StatusPlan, SocIndex, 1, ReadInput(0x3101, 1), prior, before, client.log);
      r := Ok((results.value[0], current.value));
    }

    /** Reads 2 and 3: battery voltage and state of charge. The error of the
        state-of-charge read is discarded, which leaves 0. */
    method ReadBattery(ghost prior: seq<Call>) returns (r: Result<(real, int)>)
      requires Sized(client.script) && client.log == prior + StatusPlan[..2]
      requires IssuedFrom(client.script, StatusPlan, 0, SocIndex) == IssuedFrom(client.script, StatusPlan, 2, SocIndex)
      modifies client
      ensures r.Ok? ==> client.log == prior + StatusPlan[..4]
      ensures r.Ok? ==> IssuedFrom(client.script, StatusPlan, 0, SocIndex) == IssuedFrom(client.script, StatusPlan, 4, SocIndex)
      ensures r.Ok? ==> Respond(client.script, StatusPlan[2]).Data?
      ensures r.Ok? ==> (r.value.0 == Parser.Scaled(Register(client.script, 2, 0)) &&
        r.value.1 == (if Respond(client.script, StatusPlan[SocIndex]).Data? then Register(client.script, SocIndex, 0) else 0))
      ensures r.Err? ==> Failed(client.script, prior, client.log, r.error)
    {
      ghost var s := client.script;
      ghost var before := client.log;
      var batteryVoltage := GetValueFloat(0x3104);
      if batteryVoltage.Err? {
        StopsAt(s, StatusPlan, SocIndex, 2, ReadInput(0x3104, 1), prior, before, client.log);
        return Err(batteryVoltage.error);
      }
      Proceeds(s, StatusPlan, SocIndex, 2, ReadInput(0x3104, 1), prior, before, client.log);
      before := client.log;
      var soc := GetValueInt(0x311A);
      Proceeds(s, StatusPlan, SocIndex, 3, ReadInput(0x311A, 1), prior, before, client.log);
      r := Ok((batteryVoltage.value, if soc.Ok? then soc.value else 0));
    }

    /** Reads 4 and 5: the day's battery voltage extremes and the array power. */
    method ReadExtremes(ghost prior: seq<Call>) returns (r: Result<(real, real, real)>)
      requires Sized(client.script) && client.log == prior + StatusPlan[..4]
      requires IssuedFrom(client.script, StatusPlan, 0, SocIndex) == IssuedFrom(client.script, StatusPlan, 4, SocIndex)
      modifies client
      ensures r.Ok? ==> client.log == prior + StatusPlan[..6]
      ensures r.Ok? ==> IssuedFrom(client.script, StatusPlan, 0, SocIndex) == IssuedFrom(client.script, StatusPlan, 6, SocIndex)
      ensures r.Ok? ==> forall i | 4 <= i < 6 && i != SocIndex :: Respond(client.script, StatusPlan[i]).Data?
      ensures r.Ok? ==> (r.value.0 == Parser.Scaled(Register(client.script, 4, 0)) &&
        r.value.1 == Parser.Scaled(Register(client.script, 4, 1)) &&
        r.value.2 == Parser.Scaled(LowWordFirst(client.script, 5)))
      ensures r.Err? ==> Failed(client.script, prior, client.log, r.error)
    {
      ghost var s := client.script;
      ghost var before := client.log;
      var results := GetValueFloats(0x3302, 2);
      if results.Err? {
        StopsAt(s, StatusPlan, SocIndex, 4, ReadInput(0x3302, 2), prior, before, client.log);
        return Err(results.error);
      }
      Proceeds(s, StatusPlan, SocIndex, 4, ReadInput(0x3302, 2), prior, before, client.log);
      before := client.log;
      var arrayPower := GetValueFloat32(0x3102);
      if arrayPower.Err? {
        StopsAt(s, StatusPlan, SocIndex, 5, ReadInput(0x3102, 2), prior, before, client.log);
        return Err(arrayPower.error);
      }
      Proceeds(s, StatusPlan, SocIndex, 5, ReadInput(0x3102, 2), prior, before, client.log);
      r := Ok((results.value[0], results.value[1], arrayPower.value));
    }

    /** Reads 6 and 7: charging current and charging power. */
    method ReadCharging(ghost prior: seq<Call>) returns (r: Result<(real, real)>)
      requires Sized(client.script) && client.log == prior + StatusPlan[..6]
      requires IssuedFrom(client.script, StatusPlan, 0, SocIndex) == IssuedFrom(client.script, StatusPlan, 6, SocIndex)
      modifies client
      ensures r.Ok? ==> client.log == prior + StatusPlan[..8]
      ensures r.Ok? ==> IssuedFrom(client.script, StatusPlan, 0, SocIndex) == IssuedFrom(client.script, StatusPlan, 8, SocIndex)
      ensures r.Ok? ==> forall i | 6 <= i < 8 && i != SocIndex :: Respond(client.script, StatusPlan[i]).Data?
      ensures r.Ok? ==> (r.value.0 == Parser.Scaled(Register(client.script, 6, 0)) &&
        r.value.1 == Parser.Scaled(LowWordFirst(client.script, 7)))
      ensures r.Err? ==> Failed(client.script, prior, client.log, r.error)
    {
      ghost var s := client.script;
      ghost var before := client.log;
      var chargingCurrent := GetValueFloat(0x3105);
      if chargingCurrent.Err? {
        StopsAt(s, StatusPlan, SocIndex, 6, ReadInput(0x3105, 1), prior, before, client.log);
        return Err(chargingCurrent.error);
      }
      Proceeds(s, StatusPlan, SocIndex, 6, ReadInput(0x3105, 1), prior, before, client.log);
      before := client.log;
      var chargingPower := GetValueFloat32(0x3106);
      if chargingPower.Err? {
        StopsAt(s, StatusPlan, SocIndex, 7, ReadInput(0x3106, 2), prior, before, client.log);
        return Err(chargingPower.error);
      }
      Proceeds(s, StatusPlan, SocIndex, 7, ReadInput(0x3106, 2), prior, before, client.log);
      r := Ok((chargingCurrent.value, chargingPower.value));
    }

    /** Reads 8 and 9: energy generated today and the charging equipment status. */
    method ReadEnergy(ghost prior: seq<Call>) returns (r: Result<(real, int)>)
      requires Sized(client.script) && client.log == prior + StatusPlan[..8]
      requires IssuedFrom(client.script, StatusPlan, 0, SocIndex) == IssuedFrom(client.script, StatusPlan, 8, SocIndex)
      modifies client
      ensures r.Ok? ==> client.log == prior + StatusPlan[..10]
      ensures r.Ok? ==> IssuedFrom(client.script, StatusPlan, 0, SocIndex) == IssuedFrom(client.script, StatusPlan, 10, SocIndex)
      ensures r.Ok? ==> forall i | 8 <= i < 10 && i != SocIndex :: Respond(client.script, StatusPlan[i]).Data?
      ensures r.Ok? ==> (r.value.0 == Parser.Scaled(LowWordFirst(client.script, 8)) &&
        r.value.1 == ChargingStatusOf(Register(client.script, 9, 0)))
      ensures r.Err? ==> Failed(client.script, prior, client.log, r.error)
    {
      ghost var s := client.script;
      ghost var before := client.log;
      var energy := GetValueFloat32(0x330C);
      if energy.Err? {
        StopsAt(s, StatusPlan, SocIndex, 8, ReadInput(0x330C, 2), prior, before, client.log);
        return Err(energy.error);
      }
      Proceeds(s, StatusPlan, SocIndex, 8, ReadInput(0x330C, 2), prior, before, client.log);
      before := client.log;
      var controllerStatus := GetValueInt(0x3201);
      if controllerStatus.Err? {
        StopsAt(s, StatusPlan, SocIndex, 9, ReadInput(0x3201, 1), prior, before, client.log);
        return Err(controllerStatus.error);
      }
      Proceeds(s, StatusPlan, SocIndex, 9, ReadInput(0x3201, 1), prior, before, client.log);
      r := Ok((energy.value, ChargingStatusOf(controllerStatus.value)));
    }

    /** Read 10: battery and device temperature; when it succeeds the whole
        plan has completed. */
    method ReadTemperatures(ghost prior: seq<Call>) returns (r: Result<(real, real)>)
      requires Sized(client.script) && client.log == prior + StatusPlan[..10]
      requires IssuedFrom(client.script, StatusPlan, 0, SocIndex) == IssuedFrom(client.script, StatusPlan, 10, SocIndex)
      modifies client
      ensures r.Ok? ==> client.log == prior + StatusPlan
      ensures r.Ok? ==> IssuedFrom(client.script, StatusPlan, 0, SocIndex) == IssuedFrom(client.script, StatusPlan, 11, SocIndex)
      ensures r.Ok? ==> Completes(client.script, StatusPlan, SocIndex)
      ensures r.Ok? ==> Respond(client.script, StatusPlan[10]).Data?
      ensures r.Ok? ==> (r.value.0 == FoldTemperature(Register(client.script, 10, 0)) &&
        r.value.1 == FoldTemperature(Register(client.script, 10, 1)))
      ensures r.Err? ==> Failed(client.script, prior, client.log, r.error)
    {
      ghost var s := client.script;
      ghost var before := client.log;
      var temps := GetValueInts(0x3110, 2);
      if temps.Err? {
        StopsAt(s, StatusPlan, SocIndex, 10, ReadInput(0x3110, 2), prior, before, client.log);
        return Err(temps.error);
      }
      FinishesAll(s, StatusPlan, SocIndex);
      Proceeds(s, StatusPlan, SocIndex, 10, ReadInput(0x3110, 2), prior, before, client.log);
      assert StatusPlan[..11] == StatusPlan;
      r := Ok((FoldTemperature(temps.value[0]), FoldTemperature(temps.value[1])));
    }
  }

  /** The state after a failed read: the log ends with the failing read,
      which is the last one issued, the plan did not complete, and the error
      names the failing read's address. */
  ghost predicate Failed(script: map<Call, Reply>, prior: seq<Call>, log: seq<Call>, error: string)
  {
    var n := IssuedFrom(script, StatusPlan, 0, SocIndex);
    log == prior + StatusPlan[..n] &&
    !Completes(script, StatusPlan, SocIndex) &&
    0 < n && error == ReadError(StatusPlan[n - 1].address, Respond(script, StatusPlan[n - 1]).reason)
  }

  // ---------------------------------------------------------------------
  // Properties of the collected status

  /** Every field of a collected status lies in the range its register allows. */
  lemma StatusRanges(script: map<Call, Reply>, start: int, elapsed: real)
    requires Sized(script) && Completes(script, StatusPlan, SocIndex) && elapsed >= 0.0
    ensures var st := StatusOf(script, start, elapsed);
      st.timestamp == start && st.collectionTime >= 0.0 &&
      0 <= st.chargingStatus <= 3 &&
      0 <= st.batterySoc <= 65535 &&
      0.0 <= st.arrayVoltage <= 655.35 && 0.0 <= st.arrayCurrent <= 655.35 &&
      0.0 <= st.batteryVoltage <= 655.35 && 0.0 <= st.chargingCurrent <= 655.35 &&
      0.0 <= st.arrayPower <= 42949672.95 && 0.0 <= st.chargingPower <= 42949672.95 &&
      -327.67 <= st.batteryTemp <= 327.68 && -327.67 <= st.deviceTemp <= 327.68
  {
  }

  /** A failed state-of-charge read alone does not stop the collection; the
      field is then 0. */
  lemma SocFailureIgnored(script: map<Call, Reply>, start: int, elapsed: real)
    requires Sized(script)
    requires Respond(script, StatusPlan[SocIndex]).Failure?
    requires forall i | 0 <= i < |StatusPlan| && i != SocIndex :: Respond(script, StatusPlan[i]).Data?
    ensures Completes(script, StatusPlan, SocIndex)
    ensures StatusOf(script, start, elapsed).batterySoc == 0
  {
  }

  /** A failure of any other read stops the collection. */
  lemma OtherFailureFatal(script: map<Call, Reply>, i: nat)
    requires i < |StatusPlan| && i != SocIndex && Respond(script, StatusPlan[i]).Failure?
    ensures !Completes(script, StatusPlan, SocIndex)
  {
  }

  /** The 32-bit fields agree with the codec's low-word-first decoder. */
  lemma PowerAgreesWithCodec(script: map<Call, Reply>, start: int, elapsed: real)
    requires Sized(script) && Completes(script, StatusPlan, SocIndex)
    ensures var st := StatusOf(script, start, elapsed);
      Parser.ParseFloat32(Answer(script, 5)) == Ok(st.arrayPower) &&
      Parser.ParseFloat32(Answer(script, 7)) == Ok(st.chargingPower) &&
      Parser.ParseFloat32(Answer(script, 8)) == Ok(st.energyGeneratedDaily)
  {
    LowWordFirstAgrees(script, 5);
    LowWordFirstAgrees(script, 7);
    LowWordFirstAgrees(script, 8);
  }

  lemma LowWordFirstAgrees(script: map<Call, Reply>, i: nat)
    requires Sized(script) && i < |StatusPlan| && Respond(script, StatusPlan[i]).Data?
    requires StatusPlan[i].quantity == 2
    ensures Parser.ParseFloat32(Answer(script, i)) == Ok(Parser.Scaled(LowWordFirst(script, i)))
  {
    var d := Answer(script, i);
    assert Parser.ParseFloat32(d).value * 100.0 == LowWordFirst(script, i) as real;
  }

  /** The array current is the separate 0x3101 read; the second register of
      the 0x3100 block does not reach the status. */
  lemma ArrayCurrentOverwritten(script: map<Call, Reply>, start: int, elapsed: real)
    requires Sized(script) && Completes(script, StatusPlan, SocIndex)
    ensures StatusOf(script, start, elapsed).arrayCurrent * 100.0 == WordAt(Respond(script, ReadInput(0x3101, 1)).bytes, 0) as real
    ensures StatusOf(script, start, elapsed).arrayVoltage * 100.0 == WordAt(Respond(script, ReadInput(0x3100, 2)).bytes, 0) as real
  {
  }

  /** Worked values of the collector's fold, including the boundary where it
      parts from the codec's. */
  lemma FoldExamples()
    ensures FoldTemperature(64536) == -10.0
    ensures FoldTemperature(65036) == -5.0
    ensures FoldTemperature(2500) == 25.0
    ensures FoldTemperature(32768) == 327.68 && Parser.ParseSignedTemperature(32768) == -327.68
  {
  }
}

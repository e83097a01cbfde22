/** The register transport the EPEVER code talks to (the `ModbusClient`
    capability of internal/controllers/interfaces.go), modelled as a scripted
    double that answers from a fixed table and records every call in order.

    Register values travel big-endian, as section 4.2 (Data Encoding) of the
    MODBUS Application Protocol Specification V1.1b3 prescribes. */
module Modbus {

  type Byte = b: int | 0 <= b < 0x100
  type Word = w: int | 0 <= w < 0x1_0000

  /** One 16-bit register from its two bytes, high byte first. */
  function BE16(hi: Byte, lo: Byte): (w: Word)
    ensures w / 0x100 == hi && w % 0x100 == lo
  {
    hi * 0x100 + lo
  }

  /** Register `i` of a reply (bytes 2i and 2i+1). */
  function WordAt(data: seq<Byte>, i: nat): Word
    requires 2 * i + 2 <= |data|
  {
    BE16(data[2 * i], data[2 * i + 1])
  }

  /** One request on the wire; the comment gives its MODBUS function code. */
  datatype Call =
    | ReadCoils(address: Word, quantity: Word)                              // 0x01, section 6.1
    | ReadDiscreteInputs(address: Word, quantity: Word)                     // 0x02, section 6.2
    | ReadHolding(address: Word, quantity: Word)                            // 0x03, section 6.3
    | ReadInput(address: Word, quantity: Word)                              // 0x04, section 6.4
    | WriteSingle(address: Word, value: Word)                               // 0x06, section 6.6
    | WriteMultiple(address: Word, quantity: Word, values: seq<Byte>)       // 0x10, section 6.12
  {
    predicate IsWrite() { WriteSingle? || WriteMultiple? }

    /** Reads whose reply carries `quantity` 16-bit registers. */
    predicate IsRegisterRead() { ReadHolding? || ReadInput? }

    function FunctionCode(): (code: Byte)
      ensures 1 <= code <= 0x10
      ensures IsWrite() <==> code >= 6
    {
      match this
      case ReadCoils(_, _) => 0x01
      case ReadDiscreteInputs(_, _) => 0x02
      case ReadHolding(_, _) => 0x03
      case ReadInput(_, _) => 0x04
      case WriteSingle(_, _) => 0x06
      case WriteMultiple(_, _, _) => 0x10
    }
  }

  /** What the transport hands back: the reply's data bytes, or an error. */
  datatype Reply = Data(bytes: seq<Byte>) | Failure(reason: string)

  /** The scripted answer to a call. A call missing from the table fails when
      it is a read and succeeds with no data when it is a write, as the test
      double does. */
  function Respond(script: map<Call, Reply>, c: Call): (r: Reply)
    ensures c !in script ==> (r.Data? <==> c.IsWrite())
    ensures c in script ==> r == script[c]
  {
    if c in script then script[c]
    else if c.IsWrite() then Data([])
    else Failure("not implemented")
  }

  /** Every successful register read carries its `quantity` registers. The
      decoders of the collector and the configurer index the reply without a
      length check, so they need this of the device. */
  ghost predicate Sized(script: map<Call, Reply>)
  {
    forall c | c in script && c.IsRegisterRead() && script[c].Data? ::
      |script[c].bytes| >= 2 * c.quantity
  }

  lemma SizedReply(script: map<Call, Reply>, c: Call)
    requires Sized(script) && c.IsRegisterRead()
    ensures Respond(script, c).Data? ==> |Respond(script, c).bytes| >= 2 * c.quantity
  {
  }

  /** Number of calls of `plan` issued from index `i` on by a caller that
      stops right after the first failing call, except that a failure of
      call `skip` is ignored (`skip` is -1 when every failure stops it). */
  function IssuedFrom(script: map<Call, Reply>, plan: seq<Call>, i: nat, skip: int): (n: nat)
    requires i <= |plan|
    ensures i <= n <= |plan|
    ensures i < |plan| ==> i < n
    decreases |plan| - i
  {
    if i == |plan| then |plan|
    else if i != skip && Respond(script, plan[i]).Failure? then i + 1
    else IssuedFrom(script, plan, i + 1, skip)
  }

  /** No call of `plan` fails, except possibly call `skip`. */
  predicate Completes(script: map<Call, Reply>, plan: seq<Call>, skip: int)
  {
    forall i | 0 <= i < |plan| && i != skip :: Respond(script, plan[i]).Data?
  }

  /** A caller that stops at the first failure issues the whole plan and sees
      no failure exactly when the plan completes; otherwise the last call it
      issued is the failing one. */
  lemma {:induction false} IssuedFromCompletes(script: map<Call, Reply>, plan: seq<Call>, i: nat, skip: int)
    requires i <= |plan|
    ensures var n := IssuedFrom(script, plan, i, skip);
      (forall j | i <= j < n - 1 && j != skip :: Respond(script, plan[j]).Data?) &&
      ((forall j | i <= j < |plan| && j != skip :: Respond(script, plan[j]).Data?) <==>
       (n == |plan| && (n > i ==> (n - 1 == skip || Respond(script, plan[n - 1]).Data?))))
    decreases |plan| - i
  {
    if i < |plan| {
      IssuedFromCompletes(script, plan, i + 1, skip);
    }
  }

  /** A caller that did not see the plan complete stopped at a failing call
      other than call `skip`. */
  lemma {:induction false} IssuedFromStops(script: map<Call, Reply>, plan: seq<Call>, i: nat, skip: int)
    requires i <= |plan|
    requires !(forall j | i <= j < |plan| && j != skip :: Respond(script, plan[j]).Data?)
    ensures var n := IssuedFrom(script, plan, i, skip);
      i < n && n - 1 != skip && Respond(script, plan[n - 1]).Failure?
    decreases |plan| - i
  {
    if i != skip && Respond(script, plan[i]).Failure? {
    } else {
      IssuedFromStops(script, plan, i + 1, skip);
    }
  }

  /** Call `i` of the plan, `c`, has succeeded (or was allowed to fail): the
      caller's log, which went from `before` to `after`, and the count of
      issued calls advance together. */
  lemma Proceeds(script: map<Call, Reply>, plan: seq<Call>, skip: int, i: nat, c: Call,
                 prior: seq<Call>, before: seq<Call>, after: seq<Call>)
    requires i < |plan| && plan[i] == c && (i == skip || Respond(script, c).Data?)
    requires IssuedFrom(script, plan, 0, skip) == IssuedFrom(script, plan, i, skip)
    requires before == prior + plan[..i] && after == before + [c]
    ensures IssuedFrom(script, plan, 0, skip) == IssuedFrom(script, plan, i + 1, skip)
    ensures after == prior + plan[..i + 1]
  {
    assert plan[..i] + [plan[i]] == plan[..i + 1];
  }

  /** Call `i` of the plan, `c`, failed: the caller stops with exactly
      `i + 1` calls issued, and the plan does not complete. */
  lemma StopsAt(script: map<Call, Reply>, plan: seq<Call>, skip: int, i: nat, c: Call,
                prior: seq<Call>, before: seq<Call>, after: seq<Call>)
    requires i < |plan| && plan[i] == c && i != skip && Respond(script, c).Failure?
    requires IssuedFrom(script, plan, 0, skip) == IssuedFrom(script, plan, i, skip)
    requires before == prior + plan[..i] && after == before + [c]
    ensures IssuedFrom(script, plan, 0, skip) == i + 1
    ensures after == prior + plan[..IssuedFrom(script, plan, 0, skip)]
    ensures !Completes(script, plan, skip)
  {
    assert plan[..i] + [plan[i]] == plan[..i + 1];
  }

  /** A caller that went through the whole plan, the last call included,
      saw it complete. */
  lemma FinishesAll(script: map<Call, Reply>, plan: seq<Call>, skip: int)
    requires |plan| > 0
    requires IssuedFrom(script, plan, 0, skip) == IssuedFrom(script, plan, |plan| - 1, skip)
    requires |plan| - 1 == skip || Respond(script, plan[|plan| - 1]).Data?
    ensures Completes(script, plan, skip)
  {
    IssuedFromCompletes(script, plan, 0, skip);
  }

  /** The write calls of a log, in order. */
  function Writes(log: seq<Call>): (ws: seq<Call>)
    ensures |ws| <= |log|
    ensures forall c | c in ws :: c.IsWrite() && c in log
  {
    if log == [] then []
    else if log[|log| - 1].IsWrite() then Writes(log[..|log| - 1]) + [log[|log| - 1]]
    else Writes(log[..|log| - 1])
  }

  lemma {:induction false} WritesAppend(a: seq<Call>, b: seq<Call>)
    ensures Writes(a + b) == Writes(a) + Writes(b)
    decreases |b|
  {
    if b == [] {
      assert a + b == a;
    } else {
      var b' := b[..|b| - 1];
      assert (a + b)[..|a + b| - 1] == a + b';
      WritesAppend(a, b');
    }
  }

  lemma {:induction false} WritesOfWrites(ws: seq<Call>)
    requires forall c | c in ws :: c.IsWrite()
    ensures Writes(ws) == ws
    decreases |ws|
  {
    if ws != [] {
      WritesOfWrites(ws[..|ws| - 1]);
    }
  }

  lemma {:induction false} WritesOfReads(rs: seq<Call>)
    requires forall c | c in rs :: !c.IsWrite()
    ensures Writes(rs) == []
    decreases |rs|
  {
    if rs != [] {
      WritesOfReads(rs[..|rs| - 1]);
    }
  }

  /** The scripted transport. `log` is the ordered record of every call made. */
  class Transport {
    const script: map<Call, Reply>
    var log: seq<Call>

    constructor (script: map<Call, Reply>)
      ensures this.script == script && log == []
    {
      this.script := script;
      log := [];
    }

    /** Issue one call: it is appended to the log and answered from the table. */
    method Perform(c: Call) returns (r: Reply)
      modifies this
      ensures log == old(log) + [c]
      ensures r == Respond(script, c)
    {
      log := log + [c];
      r := Respond(script, c);
    }

    /** Issue call `i` of `plan` for a caller that stops at the first failure
        other than call `skip`: the log and the count of issued calls keep
        in step with the plan. */
    method Issue(c: Call, ghost plan: seq<Call>, ghost skip: int, ghost i: nat, ghost prior: seq<Call>) returns (r: Reply)
      requires i < |plan| && plan[i] == c && log == prior + plan[..i]
      requires IssuedFrom(script, plan, 0, skip) == IssuedFrom(script, plan, i, skip)
      modifies this
      ensures r == Respond(script, c)
      ensures i == skip || r.Data? ==>
        log == prior + plan[..i + 1] && IssuedFrom(script, plan, 0, skip) == IssuedFrom(script, plan, i + 1, skip)
      ensures i != skip && r.Failure? ==>
        IssuedFrom(script, plan, 0, skip) == i + 1 && log == prior + plan[..i + 1] && !Completes(script, plan, skip)
    {
      ghost var before := log;
      r := Perform(c);
      if i == skip || r.Data? {
        Proceeds(script, plan, skip, i, c, prior, before, log);
      } else {
        StopsAt(script, plan, skip, i, c, prior, before, log);
      }
    }
  }
}

/**
 * The bytecode disassembler of chunk_debug.c, reduced to what it computes: the
 * offset of the next instruction, the constant index an instruction carries, and
 * whether the line column shows "|" or a line number. The printing is not modelled.
 */
module ChunkDebug {
  import ILines

  /** One byte of bytecode. */
  newtype Byte = b: int | 0 <= b < 256

  /** Opcode values of opcode.h (0 is reserved as "not initialised"). */
  const OP_CONSTANT: Byte := 1
  const OP_CONSTANT_LONG: Byte := 2
  const OP_NEGATE: Byte := 3
  const OP_RETURN: Byte := 4
  /**
   * chunk_debug.c also dispatches on the arithmetic opcodes, which the opcode.h
   * of this snapshot does not declare; the model gives them the next free values.
   */
  const OP_ADD: Byte := 5
  const OP_SUBTRACT: Byte := 6
  const OP_MULTIPLY: Byte := 7
  const OP_DIVIDE: Byte := 8

  /** The opcodes printed by simpleInstruction: a single byte with no operand. */
  predicate IsSimple(op: Byte) {
    op in {OP_ADD, OP_SUBTRACT, OP_MULTIPLY, OP_DIVIDE, OP_NEGATE, OP_RETURN}
  }

  /** Three bytes, least significant first, read as one 24-bit index. */
  lemma LongIndexBytes(a: Byte, b: Byte, c: Byte)
    ensures var x := a as int + 256 * b as int + 65536 * c as int;
      0 <= x < 0x100_0000 && x % 256 == a as int && x / 256 % 256 == b as int && x / 65536 == c as int
  {
    var x := a as int + 256 * b as int + 65536 * c as int;
    var q := b as int + 256 * c as int;
    assert x == 256 * q + a as int;
    assert x / 256 == q;
    assert x % 256 == a as int;
    assert q % 256 == b as int && q / 256 == c as int;
    assert x == 65536 * c as int + (a as int + 256 * b as int);
  }

  /** A 24-bit index split into bytes, least significant first, and read back. */
  lemma LongIndexSplit(i: int)
    requires 0 <= i < 0x100_0000
    ensures 0 <= i / 65536 < 256
    ensures i == i % 256 + 256 * (i / 256 % 256) + 65536 * (i / 65536)
  {
    var q := i / 256;
    assert i == 256 * q + i % 256;
    assert q == 256 * (q / 256) + q % 256;
    assert q / 256 == i / 65536;
  }

  /** What one instruction decodes to. */
  datatype Instruction =
    | Simple(op: Byte)
    | Constant(index: int)
    | ConstantLong(index: int)
    | Unknown(op: Byte)

  /** Instructions that some byte sequence decodes to. */
  predicate ValidInstruction(ins: Instruction) {
    match ins
    case Simple(op) => IsSimple(op)
    case Constant(i) => 0 <= i < 256
    case ConstantLong(i) => 0 <= i < 0x100_0000
    case Unknown(op) => !IsSimple(op) && op != OP_CONSTANT && op != OP_CONSTANT_LONG
  }

  /** The bytes an instruction occupies: opcode, then operands, the long index little-endian. */
  function Encode(ins: Instruction): (bs: seq<Byte>)
    requires ValidInstruction(ins)
    ensures 1 <= |bs| <= 4
  {
    match ins
    case Simple(op) => [op]
    case Unknown(op) => [op]
    case Constant(i) => [OP_CONSTANT, i as Byte]
    case ConstantLong(i) => [OP_CONSTANT_LONG, (i % 256) as Byte, (i / 256 % 256) as Byte, (i / 65536) as Byte]
  }

  /** How many bytes the instruction starting with `op` occupies. */
  function Width(op: Byte): (w: int)
    ensures w in {1, 2, 4}
  {
    if op == OP_CONSTANT then 2 else if op == OP_CONSTANT_LONG then 4 else 1
  }

  /** The instruction at `offset` has all its operand bytes inside the chunk. */
  predicate Fits(code: seq<Byte>, offset: int) {
    0 <= offset < |code| && offset + Width(code[offset]) <= |code|
  }

  datatype Step = Step(next: int, instr: Instruction)

  /**
   * disassembleInstruction (with simpleInstruction, constantInstruction and
   * constantLongInstruction): the next offset and the decoded instruction.
   * Decoding then re-encoding gives back exactly the bytes stepped over.
   */
  function DisassembleInstruction(code: seq<Byte>, offset: int): (r: Step)
    requires Fits(code, offset)
    ensures r.next > offset && r.next <= |code|
    ensures ValidInstruction(r.instr) && code[offset..r.next] == Encode(r.instr)
    ensures IsSimple(code[offset]) ==> r.next == offset + 1 && r.instr == Simple(code[offset])
    ensures code[offset] == OP_CONSTANT ==> r.next == offset + 2 && r.instr == Constant(code[offset + 1] as int)
    ensures code[offset] == OP_CONSTANT_LONG ==>
      r.next == offset + 4 &&
      r.instr == ConstantLong(code[offset + 1] as int + 256 * code[offset + 2] as int + 65536 * code[offset + 3] as int)
  {
    var op := code[offset];
    if op == OP_CONSTANT then
      Step(offset + 2, Constant(code[offset + 1] as int))
    else if op == OP_CONSTANT_LONG then
      var cix := code[offset + 1] as int + 256 * code[offset + 2] as int + 65536 * code[offset + 3] as int;
      LongIndexBytes(code[offset + 1], code[offset + 2], code[offset + 3]);
      assert code[offset..offset + 4] == [op, code[offset + 1], code[offset + 2], code[offset + 3]];
      Step(offset + 4, ConstantLong(cix))
    else if IsSimple(op) then
      Step(offset + 1, Simple(op))
    else
      Step(offset + 1, Unknown(op))
  }

  /** The other direction of the round trip: an encoded instruction decodes to itself. */
  lemma DecodeEncode(prefix: seq<Byte>, ins: Instruction, suffix: seq<Byte>)
    requires ValidInstruction(ins)
    ensures Fits(prefix + Encode(ins) + suffix, |prefix|)
    ensures DisassembleInstruction(prefix + Encode(ins) + suffix, |prefix|)
         == Step(|prefix| + |Encode(ins)|, ins)
  {
    var code := prefix + Encode(ins) + suffix;
    var o := |prefix|;
    assert code[o..o + |Encode(ins)|] == Encode(ins);
    if ins.ConstantLong? {
      var i := ins.index;
      LongIndexSplit(i);
      assert code[o + 1] as int == i % 256 && code[o + 2] as int == i / 256 % 256 && code[o + 3] as int == i / 65536;
    }
  }

  /** Every instruction from `offset` to the end of the chunk has its operands inside it. */
  predicate WellFormedFrom(code: seq<Byte>, offset: int)
    requires 0 <= offset
    decreases |code| - offset
  {
    offset >= |code| || (Fits(code, offset) && WellFormedFrom(code, DisassembleInstruction(code, offset).next))
  }

  /** The instructions disassembleChunk steps through, starting at `offset`. */
  function DecodeFrom(code: seq<Byte>, offset: int): seq<Instruction>
    requires 0 <= offset && WellFormedFrom(code, offset)
    decreases |code| - offset
  {
    if offset >= |code| then []
    else
      var s := DisassembleInstruction(code, offset);
      [s.instr] + DecodeFrom(code, s.next)
  }

  /** The offsets at which disassembleChunk starts an instruction, from `offset` on. */
  function OffsetsFrom(code: seq<Byte>, offset: int): seq<int>
    requires 0 <= offset && WellFormedFrom(code, offset)
    decreases |code| - offset
  {
    if offset >= |code| then []
    else [offset] + OffsetsFrom(code, DisassembleInstruction(code, offset).next)
  }

  /** The bytes of a sequence of instructions laid end to end. */
  function Flatten(ins: seq<Instruction>): (bs: seq<Byte>)
    requires forall k :: 0 <= k < |ins| ==> ValidInstruction(ins[k])
    ensures |ins| <= |bs|
  {
    if ins == [] then [] else Encode(ins[0]) + Flatten(ins[1..])
  }

  /** Disassembly covers the chunk: the decoded instructions re-encode to the code from `offset`. */
  lemma {:induction false} DecodeFromFlattens(code: seq<Byte>, offset: int)
    requires 0 <= offset <= |code| && WellFormedFrom(code, offset)
    ensures forall k :: 0 <= k < |DecodeFrom(code, offset)| ==> ValidInstruction(DecodeFrom(code, offset)[k])
    ensures Flatten(DecodeFrom(code, offset)) == code[offset..]
    decreases |code| - offset
  {
    if offset < |code| {
      var s := DisassembleInstruction(code, offset);
      DecodeFromFlattens(code, s.next);
      var rest := DecodeFrom(code, s.next);
      var all := DecodeFrom(code, offset);
      assert all == [s.instr] + rest;
      assert all[1..] == rest;
      assert code[offset..] == code[offset..s.next] + code[s.next..];
    }
  }

  /** Laying valid instructions end to end gives a chunk that disassembles back to them. */
  lemma {:induction false} FlattenDecodes(prefix: seq<Byte>, ins: seq<Instruction>)
    requires forall k :: 0 <= k < |ins| ==> ValidInstruction(ins[k])
    ensures WellFormedFrom(prefix + Flatten(ins), |prefix|)
    ensures DecodeFrom(prefix + Flatten(ins), |prefix|) == ins
    decreases |ins|
  {
    if ins != [] {
      var rest := ins[1..];
      var tail := Flatten(rest);
      var prefix' := prefix + Encode(ins[0]);
      var code := prefix' + tail;
      assert Flatten(ins) == Encode(ins[0]) + tail;
      assert prefix + Flatten(ins) == code;
      FlattenDecodes(prefix', rest);
      DecodeEncode(prefix, ins[0], tail);
      assert DisassembleInstruction(code, |prefix|) == Step(|prefix'|, ins[0]);
      assert DecodeFrom(code, |prefix|) == [ins[0]] + rest;
      assert ins == [ins[0]] + rest;
    }
  }

  /** One step of the walk: the instruction at `offset`, then the walk from the next one. */
  lemma StepFrom(code: seq<Byte>, offset: int)
    requires 0 <= offset < |code| && WellFormedFrom(code, offset)
    ensures WellFormedFrom(code, DisassembleInstruction(code, offset).next)
    ensures OffsetsFrom(code, offset) == [offset] + OffsetsFrom(code, DisassembleInstruction(code, offset).next)
    ensures DecodeFrom(code, offset)
         == [DisassembleInstruction(code, offset).instr] + DecodeFrom(code, DisassembleInstruction(code, offset).next)
  {
  }

  /** Moving one element from the front of the rest to the end of the done part. */
  lemma Append<T>(done: seq<T>, x: T, rest: seq<T>)
    ensures done + ([x] + rest) == (done + [x]) + rest
  {
  }

  /**
   * disassembleChunk: starting at 0, step with disassembleInstruction while the
   * offset is below the count. Returns the offsets visited and what was decoded
   * there; the chunk is only read.
   */
  method DisassembleChunk(code: array<Byte>, count: int) returns (offsets: seq<int>, instrs: seq<Instruction>)
    requires 0 <= count <= code.Length
    requires WellFormedFrom(code[..count], 0)
    ensures offsets == OffsetsFrom(code[..count], 0)
    ensures instrs == DecodeFrom(code[..count], 0)
    ensures |offsets| == |instrs|
    ensures forall k :: 0 <= k < |offsets| ==> 0 <= offsets[k] < count
    ensures forall j, k :: 0 <= j < k < |offsets| ==> offsets[j] < offsets[k]
  {
    ghost var chunk := code[..count];
    var offset := 0;
    offsets, instrs := [], [];
    while offset < count
      invariant 0 <= offset <= count && WellFormedFrom(chunk, offset)
      invariant OffsetsFrom(chunk, 0) == offsets + OffsetsFrom(chunk, offset)
      invariant DecodeFrom(chunk, 0) == instrs + DecodeFrom(chunk, offset)
      invariant |offsets| == |instrs|
      invariant forall k :: 0 <= k < |offsets| ==> 0 <= offsets[k] < offset
      invariant forall j, k :: 0 <= j < k < |offsets| ==> offsets[j] < offsets[k]
      decreases count - offset
    {
      var s := DisassembleInstruction(code[..count], offset);
      StepFrom(chunk, offset);
      Append(offsets, offset, OffsetsFrom(chunk, s.next));
      Append(instrs, s.instr, DecodeFrom(chunk, s.next));
      offsets, instrs := offsets + [offset], instrs + [s.instr];
      offset := s.next;
    }
  }

  /**
   * The line column of disassembleInstruction: "|" when the offset is not the
   * first and getLine gives the same line for it and for the offset before.
   */
  function ShowsBar(es: seq<ILines.ILineData>, offset: int): bool {
    offset > 0 && ILines.LineAt(es, offset) == ILines.LineAt(es, offset - 1)
  }

  /** For a written offset, "|" appears exactly when its source line repeats the previous one. */
  lemma ShowsBarIffSameLine(es: seq<ILines.ILineData>, lines: seq<int>, offset: int)
    requires ILines.Encodes(es, lines)
    requires 0 <= offset < |lines|
    ensures ShowsBar(es, offset) <==> offset > 0 && lines[offset] == lines[offset - 1]
  {
    ILines.LineAtDecodes(es, lines, offset);
    if offset > 0 {
      ILines.LineAtDecodes(es, lines, offset - 1);
    }
  }
}

/**
 * The earlier disassembler of debug.c, which knows a single opcode: every byte,
 * OP_RETURN or not, is a one-byte instruction.
 */
module Debug {
  import ChunkDebug

  datatype Decoded = Return | UnknownOpcode(op: ChunkDebug.Byte)

  /** disassembleInstruction with simpleInstruction: one byte, classified. */
  function DisassembleInstruction(code: seq<ChunkDebug.Byte>, offset: int): (r: (int, Decoded))
    requires 0 <= offset < |code|
    ensures r.0 == offset + 1
    ensures r.1 == Return <==> code[offset] == ChunkDebug.OP_RETURN
    ensures r.1.UnknownOpcode? ==> r.1.op == code[offset]
  {
    if code[offset] == ChunkDebug.OP_RETURN then (offset + 1, Return)
    else (offset + 1, UnknownOpcode(code[offset]))
  }

  /** The byte a decoding stands for. */
  function ByteOf(d: Decoded): ChunkDebug.Byte {
    match d
    case Return => ChunkDebug.OP_RETURN
    case UnknownOpcode(op) => op
  }

  /**
   * What each byte of the chunk decodes to, in order. Nothing is lost (each
   * decoding gives its byte back) and every OP_RETURN byte is recognised.
   */
  function DecodeAll(code: seq<ChunkDebug.Byte>): (ds: seq<Decoded>)
    ensures |ds| == |code|
    ensures forall k :: 0 <= k < |code| ==> ByteOf(ds[k]) == code[k]
    ensures forall k :: 0 <= k < |code| && ds[k].UnknownOpcode? ==> ds[k].op != ChunkDebug.OP_RETURN
  {
    seq(|code|, k requires 0 <= k < |code| => DisassembleInstruction(code, k).1)
  }

  /**
   * disassembleChunk: the `for` loop visits the offsets 0, 1, ..., count - 1 in
   * order, decoding the byte at each; the chunk is only read.
   */
  method DisassembleChunk(code: array<ChunkDebug.Byte>, count: int) returns (offsets: seq<int>, decoded: seq<Decoded>)
    requires 0 <= count <= code.Length
    ensures |offsets| == count && forall k :: 0 <= k < count ==> offsets[k] == k
    ensures decoded == DecodeAll(code[..count])
  {
    var offset := 0;
    offsets, decoded := [], [];
    while offset < count
      invariant 0 <= offset <= count
      invariant |offsets| == offset && forall k :: 0 <= k < offset ==> offsets[k] == k
      invariant decoded == DecodeAll(code[..count])[..offset]
    {
      var r := DisassembleInstruction(code[..count], offset);
      offsets, decoded := offsets + [offset], decoded + [r.1];
      offset := r.0;
    }
  }
}

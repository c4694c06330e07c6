/**
 * The virtual machine of vm.c: a value stack with push and pop, and the
 * fetch-decode loop of run, which in this snapshot knows two opcodes
 * (OP_CONSTANT prints a constant, OP_RETURN stops) and skips every other byte.
 */
module VirtualMachine {
  import ChunkDebug
  import Values

  type Byte = ChunkDebug.Byte
  type Value = Values.Value

  datatype InterpretResult = INTERPRET_OK | INTERPRET_COMPILE_ERROR | INTERPRET_RUNTIME_ERROR

  /**
   * Starting at `ip`, run reaches an OP_RETURN without leaving the code, and every
   * OP_CONSTANT it executes has its index byte inside the code and naming one of
   * the `nconsts` constants. Any other byte, OP_CONSTANT_LONG included, is one byte long.
   */
  predicate Runs(code: seq<Byte>, nconsts: int, ip: int)
    requires 0 <= ip
    decreases |code| - ip
  {
    && ip < |code|
    && (code[ip] == ChunkDebug.OP_RETURN
        || (code[ip] == ChunkDebug.OP_CONSTANT &&
              ip + 1 < |code| && code[ip + 1] as int < nconsts && Runs(code, nconsts, ip + 2))
        || (code[ip] != ChunkDebug.OP_CONSTANT && Runs(code, nconsts, ip + 1)))
  }

  /** The constants run prints, in order, from `ip` until the OP_RETURN. */
  function Printed(code: seq<Byte>, consts: seq<Value>, ip: int): seq<Value>
    requires 0 <= ip && Runs(code, |consts|, ip)
    decreases |code| - ip
  {
    if code[ip] == ChunkDebug.OP_RETURN then []
    else if code[ip] == ChunkDebug.OP_CONSTANT then [consts[code[ip + 1]]] + Printed(code, consts, ip + 2)
    else Printed(code, consts, ip + 1)
  }

  /** Where ip stands after run returns: just past the OP_RETURN it executed. */
  function ReturnEnd(code: seq<Byte>, nconsts: int, ip: int): (end: int)
    requires 0 <= ip && Runs(code, nconsts, ip)
    ensures ip < end <= |code| && code[end - 1] == ChunkDebug.OP_RETURN
    decreases |code| - ip
  {
    if code[ip] == ChunkDebug.OP_RETURN then ip + 1
    else if code[ip] == ChunkDebug.OP_CONSTANT then ReturnEnd(code, nconsts, ip + 2)
    else ReturnEnd(code, nconsts, ip + 1)
  }

  /** One step of run, as Runs, Printed and ReturnEnd see it. */
  lemma RunStep(code: seq<Byte>, consts: seq<Value>, ip: int)
    requires 0 <= ip && Runs(code, |consts|, ip)
    ensures code[ip] == ChunkDebug.OP_RETURN ==>
      Printed(code, consts, ip) == [] && ReturnEnd(code, |consts|, ip) == ip + 1
    ensures code[ip] == ChunkDebug.OP_CONSTANT ==>
      && ip + 1 < |code| && code[ip + 1] as int < |consts| && Runs(code, |consts|, ip + 2)
      && Printed(code, consts, ip) == [consts[code[ip + 1]]] + Printed(code, consts, ip + 2)
      && ReturnEnd(code, |consts|, ip) == ReturnEnd(code, |consts|, ip + 2)
    ensures code[ip] != ChunkDebug.OP_RETURN && code[ip] != ChunkDebug.OP_CONSTANT ==>
      && Runs(code, |consts|, ip + 1)
      && Printed(code, consts, ip) == Printed(code, consts, ip + 1)
      && ReturnEnd(code, |consts|, ip) == ReturnEnd(code, |consts|, ip + 1)
  {
  }

  /** The instructions a straight-line program is built from: constants, and single-byte opcodes. */
  predicate RunnableInstruction(ins: ChunkDebug.Instruction, nconsts: int) {
    && ChunkDebug.ValidInstruction(ins)
    && (ins.Constant? ==> ins.index < nconsts)
    && !ins.ConstantLong?
  }

  /** The constants a list of instructions loads before its first OP_RETURN. */
  function LoadedBeforeReturn(ins: seq<ChunkDebug.Instruction>, consts: seq<Value>): seq<Value>
    requires forall k :: 0 <= k < |ins| ==> RunnableInstruction(ins[k], |consts|)
  {
    if ins == [] || ins[0] == ChunkDebug.Simple(ChunkDebug.OP_RETURN) then []
    else if ins[0].Constant? then
      assert RunnableInstruction(ins[0], |consts|);
      [consts[ins[0].index]] + LoadedBeforeReturn(ins[1..], consts)
    else LoadedBeforeReturn(ins[1..], consts)
  }

  /**
   * On code laid out by the disassembler's encoding, run prints exactly the
   * constants that the instructions before the first OP_RETURN load.
   */
  lemma {:induction false} RunPrintsLoadedConstants(
    prefix: seq<Byte>, ins: seq<ChunkDebug.Instruction>, consts: seq<Value>)
    requires forall k :: 0 <= k < |ins| ==> ChunkDebug.ValidInstruction(ins[k])
    requires forall k :: 0 <= k < |ins| ==> RunnableInstruction(ins[k], |consts|)
    requires ChunkDebug.Simple(ChunkDebug.OP_RETURN) in ins
    ensures Runs(prefix + ChunkDebug.Flatten(ins), |consts|, |prefix|)
    ensures Printed(prefix + ChunkDebug.Flatten(ins), consts, |prefix|) == LoadedBeforeReturn(ins, consts)
    decreases |ins|
  {
    var code := prefix + ChunkDebug.Flatten(ins);
    var head := ChunkDebug.Encode(ins[0]);
    assert code == prefix + head + ChunkDebug.Flatten(ins[1..]);
    assert code[|prefix|] == head[0];
    if ins[0] != ChunkDebug.Simple(ChunkDebug.OP_RETURN) {
      assert ChunkDebug.Simple(ChunkDebug.OP_RETURN) in ins[1..];
      RunPrintsLoadedConstants(prefix + head, ins[1..], consts);
      assert prefix + head + ChunkDebug.Flatten(ins[1..]) == code;
      if ins[0].Constant? {
        assert code[|prefix| + 1] == head[1];
      }
    }
  }

  class VM {
    /** The value stack; its size (STACK_MAX) is not part of this model, so it is a constructor argument. */
    const stack: array<Value>
    /** Index of the next free slot (stackTop - stack in C). */
    var stackTop: int
    /** The chunk being run: its code and constants. */
    var code: seq<Byte>
    var constants: seq<Value>
    /** Index of the next byte to execute (ip - chunk->code in C). */
    var ip: int

    ghost predicate Valid()
      reads this
    {
      0 <= stackTop <= stack.Length
    }

    /** The values on the stack, bottom first. */
    ghost function Stack(): seq<Value>
      reads this, stack
      requires Valid()
    {
      stack[..stackTop]
    }

    /** The machine with a stack of `stackMax` slots, after initVM. */
    constructor (stackMax: nat)
      ensures Valid() && stack.Length == stackMax && fresh(stack)
      ensures stackTop == 0 && Stack() == []
      ensures code == [] && constants == [] && ip == 0
    {
      stack := new Value[stackMax];
      stackTop := 0;
      code, constants, ip := [], [], 0;
    }

    /** initVM, through resetStack: the stack is empty. */
    method InitVM()
      modifies this
      ensures Valid() && stackTop == 0 && Stack() == []
      ensures code == old(code) && constants == old(constants) && ip == old(ip)
    {
      ResetStack();
    }

    /** resetStack: stackTop back to the bottom of the stack. */
    method ResetStack()
      modifies this
      ensures Valid() && stackTop == 0 && Stack() == []
      ensures code == old(code) && constants == old(constants) && ip == old(ip)
    {
      stackTop := 0;
    }

    /** push: store at stackTop, then bump it. C does not check for overflow; the model requires room. */
    method Push(value: Value)
      requires Valid() && stackTop < stack.Length
      modifies this, stack
      ensures Valid() && stackTop == old(stackTop) + 1
      ensures Stack() == old(Stack()) + [value]
      ensures code == old(code) && constants == old(constants) && ip == old(ip)
    {
      stack[stackTop] := value;
      stackTop := stackTop + 1;
    }

    /** pop: drop stackTop, then read the slot. C does not check for underflow; the model requires a value. */
    method Pop() returns (value: Value)
      requires Valid() && stackTop > 0
      modifies this
      ensures Valid() && stackTop == old(stackTop) - 1
      ensures value == old(Stack())[|old(Stack())| - 1]
      ensures Stack() == old(Stack())[..|old(Stack())| - 1]
      ensures code == old(code) && constants == old(constants) && ip == old(ip)
    {
      stackTop := stackTop - 1;
      value := stack[stackTop];
    }

    /** interpret: point ip at the chunk's first byte and run it. */
    method Interpret(chunkCode: seq<Byte>, chunkConstants: seq<Value>) returns (result: InterpretResult, printed: seq<Value>)
      requires Runs(chunkCode, |chunkConstants|, 0)
      modifies this
      ensures code == chunkCode && constants == chunkConstants
      ensures result == INTERPRET_OK
      ensures printed == Printed(chunkCode, chunkConstants, 0)
      ensures ip == ReturnEnd(chunkCode, |chunkConstants|, 0)
      ensures stackTop == old(stackTop)
    {
      code, constants := chunkCode, chunkConstants;
      ip := 0;
      result, printed := Run();
    }

    /**
     * run: read the byte at ip and advance; OP_CONSTANT also reads its index byte
     * and prints that constant; OP_RETURN ends the loop with INTERPRET_OK; any other
     * byte is skipped.
     */
    method Run() returns (result: InterpretResult, printed: seq<Value>)
      requires 0 <= ip && Runs(code, |constants|, ip)
      modifies this
      ensures code == old(code) && constants == old(constants) && stackTop == old(stackTop)
      ensures result == INTERPRET_OK
      ensures printed == Printed(code, constants, old(ip))
      ensures ip == ReturnEnd(code, |constants|, old(ip))
    {
      ghost var start := ip;
      ghost var expected := Printed(code, constants, ip);
      ghost var end := ReturnEnd(code, |constants|, ip);
      printed := [];
      while true
        invariant 0 <= ip && Runs(code, |constants|, ip)
        invariant code == old(code) && constants == old(constants) && stackTop == old(stackTop)
        invariant expected == printed + Printed(code, constants, ip)
        invariant end == ReturnEnd(code, |constants|, ip)
        decreases |code| - ip
      {
        RunStep(code, constants, ip);
        var instruction := code[ip];
        ip := ip + 1;
        if instruction == ChunkDebug.OP_CONSTANT {
          var constant := constants[code[ip]];
          ip := ip + 1;
          printed := printed + [constant];
        } else if instruction == ChunkDebug.OP_RETURN {
          assert printed == expected;
          return INTERPRET_OK, printed;
        }
      }
    }
  }
}

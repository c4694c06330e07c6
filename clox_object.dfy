/** The heap objects of object.c: allocating an object header, and string objects. */
module Objects {

  /** The object kinds of object.h. */
  datatype ObjType = OBJ_CLASS | OBJ_CLOSURE | OBJ_FUNCTION | OBJ_INSTANCE | OBJ_NATIVE | OBJ_STRING | OBJ_UPVALUE

  /** ObjString: the object header's type, then the length and the character buffer. */
  class ObjString {
    var objType: ObjType
    var length: int
    var chars: array<char>

    /** allocateObject(sizeof(ObjString), type): fresh storage whose header carries `type`. */
    constructor AllocateObject(objectType: ObjType, placeholder: array<char>)
      ensures objType == objectType
      ensures length == 0 && chars == placeholder
    {
      objType := objectType;
      length := 0;
      chars := placeholder;
    }
  }

  /** allocateString: a fresh OBJ_STRING object that takes over `chars` (no copy). */
  method AllocateString(chars: array<char>, length: int) returns (s: ObjString)
    ensures fresh(s)
    ensures s.objType == OBJ_STRING && s.length == length && s.chars == chars
  {
    s := new ObjString.AllocateObject(OBJ_STRING, chars);
    s.length := length;
    s.chars := chars;
  }

  /**
   * copyString: copy the first `length` characters into a fresh buffer of
   * length + 1, terminate it with NUL, and wrap it in a new string object. The
   * source characters are only read.
   */
  method CopyString(chars: array<char>, length: int) returns (s: ObjString)
    requires 0 <= length <= chars.Length
    ensures fresh(s) && fresh(s.chars) && s.chars != chars
    ensures s.objType == OBJ_STRING && s.length == length
    ensures s.chars.Length == length + 1
    ensures s.chars[..length] == chars[..length] && s.chars[length] == '\0'
    ensures chars[..] == old(chars[..])
  {
    var heapChars := new char[length + 1];
    var i := 0;
    while i < length
      invariant 0 <= i <= length
      invariant heapChars[..i] == chars[..i]
    {
      heapChars[i] := chars[i];
      i := i + 1;
    }
    heapChars[length] := '\0';
    s := AllocateString(heapChars, length);
  }
}

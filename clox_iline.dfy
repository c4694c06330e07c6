/**
 * clox's instruction-offset-to-source-line table (iline.c): a run-length
 * encoded growable buffer. Each entry records the LAST instruction offset of a
 * run of instructions that share one source line; lookups binary-search for the
 * first entry whose offset reaches the query.
 */
module ILines {
  import Memory

  datatype ILineData = ILineData(offset: int, line: int)

  /** Entry offsets strictly increase along the table. */
  ghost predicate Increasing(es: seq<ILineData>) {
    forall i, j :: 0 <= i < j < |es| ==> es[i].offset < es[j].offset
  }

  /** First offset covered by entry k: one past the previous entry's offset. */
  function RunStart(es: seq<ILineData>, k: nat): int
    requires k < |es|
  {
    if k == 0 then 0 else es[k - 1].offset + 1
  }

  /**
   * The table `es` run-length encodes `lines`, the line of every instruction
   * offset 0 .. |lines|-1 in the order they were written.
   */
  ghost predicate Encodes(es: seq<ILineData>, lines: seq<int>) {
    && (|es| == 0 <==> |lines| == 0)
    && (|es| > 0 ==> es[0].offset >= 0 && es[|es| - 1].offset == |lines| - 1)
    && Increasing(es)
    && (forall k: nat, o: int :: Covered(es, lines, k, o))
  }

  /** Offset `o`, when it lies in entry k's run, was written with entry k's line. */
  ghost predicate Covered(es: seq<ILineData>, lines: seq<int>, k: nat, o: int) {
    k < |es| && RunStart(es, k) <= o <= es[k].offset ==> 0 <= o < |lines| && lines[o] == es[k].line
  }

  /**
   * What getLine answers: the line of the first entry whose offset is at
   * least `offset`, the last entry's line when none is, and 0 for an empty table.
   */
  function LineAt(es: seq<ILineData>, offset: int): int
  {
    if |es| == 0 then 0
    else if offset <= es[0].offset || |es| == 1 then es[0].line
    else LineAt(es[1..], offset)
  }

  /** LineAt picks entry k when k is the first entry reaching `offset` (or the last one). */
  lemma {:induction false} LineAtFirst(es: seq<ILineData>, offset: int, k: nat)
    requires k < |es|
    requires forall j :: 0 <= j < k ==> es[j].offset < offset
    requires offset <= es[k].offset || k == |es| - 1
    ensures LineAt(es, offset) == es[k].line
  {
    if k > 0 {
      LineAtFirst(es[1..], offset, k - 1);
    }
  }

  /** Decoding: for every written offset, LineAt gives back the line written for it. */
  lemma {:induction false} LineAtDecodes(es: seq<ILineData>, lines: seq<int>, offset: int)
    requires Encodes(es, lines)
    requires 0 <= offset < |lines|
    ensures LineAt(es, offset) == lines[offset]
  {
    var k := FirstReaching(es, offset, 0);
    assert RunStart(es, k) <= offset;
    assert Covered(es, lines, k, offset);
    LineAtFirst(es, offset, k);
  }

  /** In an increasing table, every entry up to one below `offset` is below it too. */
  lemma AllBelow(es: seq<ILineData>, md: nat, offset: int)
    requires Increasing(es) && md < |es| && es[md].offset < offset
    ensures forall j :: 0 <= j <= md ==> es[j].offset < offset
  {
  }

  /** The first entry from `from` on whose offset reaches `offset`. */
  function FirstReaching(es: seq<ILineData>, offset: int, from: nat): (k: nat)
    requires from <= |es|
    requires |es| > 0 && offset <= es[|es| - 1].offset
    requires forall j :: 0 <= j < from ==> es[j].offset < offset
    ensures k < |es| && offset <= es[k].offset
    ensures forall j :: 0 <= j < k ==> es[j].offset < offset
    decreases |es| - from
  {
    if es[from].offset >= offset then from else FirstReaching(es, offset, from + 1)
  }

  /** Appending a line to the written sequence updates the encoding the way writeILine does. */
  lemma EncodesExtend(es: seq<ILineData>, lines: seq<int>, line: int)
    requires Encodes(es, lines)
    ensures |es| > 0 && es[|es| - 1].line == line ==>
      Encodes(es[..|es| - 1] + [ILineData(|lines|, line)], lines + [line])
    ensures !(|es| > 0 && es[|es| - 1].line == line) ==>
      Encodes(es + [ILineData(|lines|, line)], lines + [line])
  {
    if |es| > 0 && es[|es| - 1].line == line {
      EncodesMerge(es, lines, line);
    } else {
      EncodesAppend(es, lines, line);
    }
  }

  /** The same line as the last entry: that entry's run grows by one offset. */
  lemma EncodesMerge(es: seq<ILineData>, lines: seq<int>, line: int)
    requires Encodes(es, lines) && |es| > 0 && es[|es| - 1].line == line
    ensures Encodes(es[..|es| - 1] + [ILineData(|lines|, line)], lines + [line])
  {
    var n := |es|;
    var lines' := lines + [line];
    var es' := es[..n - 1] + [ILineData(|lines|, line)];
    assert forall i :: 0 <= i < n - 1 ==> es'[i] == es[i];
    assert es'[n - 1] == ILineData(|lines|, line);
    forall i, j | 0 <= i < j < n
      ensures es'[i].offset < es'[j].offset
    {
      if j == n - 1 {
        assert es[i].offset <= es[n - 1].offset;
      }
    }
    forall k: nat, o: int
      ensures Covered(es', lines', k, o)
    {
      if k < n && RunStart(es', k) <= o <= es'[k].offset {
        assert RunStart(es', k) == RunStart(es, k);
        if o < |lines| {
          assert Covered(es, lines, k, o);
          assert lines'[o] == lines[o];
        }
      }
    }
    assert Increasing(es');
  }

  /** A new line: an entry for the single offset just written is appended. */
  lemma EncodesAppend(es: seq<ILineData>, lines: seq<int>, line: int)
    requires Encodes(es, lines)
    ensures Encodes(es + [ILineData(|lines|, line)], lines + [line])
  {
    var n := |es|;
    var lines' := lines + [line];
    var es' := es + [ILineData(|lines|, line)];
    forall i, j | 0 <= i < j < n + 1
      ensures es'[i].offset < es'[j].offset
    {
      if j == n {
        assert es[i].offset <= es[n - 1].offset;
      }
    }
    forall k: nat, o: int
      ensures Covered(es', lines', k, o)
    {
      if k < n && RunStart(es', k) <= o <= es'[k].offset {
        assert RunStart(es', k) == RunStart(es, k);
        assert Covered(es, lines, k, o);
        assert lines'[o] == lines[o];
      }
    }
    assert Increasing(es');
  }

  class ILine {
    var count: int
    var capacity: int
    var data: array?<ILineData>
    /** Every line written since the table was last initialised, one per instruction. */
    ghost var Lines: seq<int>

    ghost predicate Valid()
      reads this, data
    {
      && 0 <= count <= capacity
      && (data == null ==> capacity == 0)
      && (data != null ==> data.Length == capacity)
      && Encodes(Entries(), Lines)
    }

    ghost function Entries(): seq<ILineData>
      reads this, data
    {
      if data == null || count < 0 || count > data.Length then [] else data[..count]
    }

    /** initILine, applied to a freshly declared table. */
    constructor ()
      ensures Valid() && count == 0 && capacity == 0 && data == null && Lines == []
    {
      count, capacity, data := 0, 0, null;
      Lines := [];
    }

    /** initILine: forget everything, without releasing storage. */
    method Init()
      modifies this
      ensures Valid() && count == 0 && capacity == 0 && data == null && Lines == []
    {
      count, capacity, data := 0, 0, null;
      Lines := [];
    }

    /** freeILine: release the buffer and re-initialise. */
    method Free()
      modifies this
      ensures Valid() && count == 0 && capacity == 0 && data == null && Lines == []
    {
      Init();
    }

    /** writeILine: record that the next instruction comes from `line`. */
    method Write(line: int)
      requires Valid()
      modifies this, data
      ensures Valid()
      ensures Lines == old(Lines) + [line]
      ensures old(count) > 0 && old(Entries())[old(count) - 1].line == line ==>
        && count == old(count) && capacity == old(capacity) && data == old(data)
        && Entries() == old(Entries())[..count - 1]
                        + [ILineData(old(Entries())[count - 1].offset + 1, line)]
      ensures !(old(count) > 0 && old(Entries())[old(count) - 1].line == line) ==>
        && count == old(count) + 1
        && capacity == (if old(capacity) <= old(count) then Memory.GrowCapacity(old(capacity)) else old(capacity))
        && Entries() == old(Entries()) + [ILineData(if old(count) > 0 then old(Entries())[old(count) - 1].offset + 1 else 0, line)]
    {
      ghost var es := Entries();
      ghost var lines := Lines;
      var n := count;
      var offset := 0;
      if n > 0 {
        offset := data[n - 1].offset + 1;
      }
      if n > 0 && data[n - 1].line == line {
        EncodesMerge(es, lines, line);
        data[n - 1] := ILineData(offset, data[n - 1].line);
        Lines := lines + [line];
        assert Entries() == es[..n - 1] + [ILineData(|lines|, line)];
        return;
      }
      EncodesAppend(es, lines, line);
      if capacity <= count {
        var oldCapacity := capacity;
        var newCapacity := Memory.GrowCapacity(oldCapacity);
        data := Memory.GrowArray(data, oldCapacity, newCapacity, ILineData(0, 0));
        capacity := newCapacity;
        assert data[..n] == es;
      }
      data[n] := ILineData(offset, line);
      count := n + 1;
      Lines := lines + [line];
      assert Entries() == es + [ILineData(offset, line)];
    }

    /**
     * getLine: binary search for the first entry whose offset reaches `offset`.
     * For any offset that was written it returns the line written for it.
     */
    method GetLine(offset: int) returns (line: int)
      requires Valid()
      ensures line == LineAt(Entries(), offset)
      ensures count == 0 ==> line == 0
      ensures 0 <= offset < |Lines| ==> line == Lines[offset]
      ensures count > 0 && offset <= Entries()[0].offset ==> line == Entries()[0].line
      ensures count > 0 && offset > Entries()[count - 1].offset ==> line == Entries()[count - 1].line
    {
      if data == null || count < 1 {
        return 0;
      }
      ghost var es := Entries();
      assert es == data[..count] && Increasing(es);
      var hi := count - 1;
      var lo := 0;
      while lo < hi
        invariant 0 <= lo <= hi < count
        invariant forall j :: 0 <= j < lo ==> es[j].offset < offset
        invariant offset <= es[hi].offset || hi == count - 1
      {
        var md := lo + (hi - lo) / 2;
        if data[md].offset < offset {
          AllBelow(es, md, offset);
          lo := md + 1;
        } else {
          hi := md;
        }
      }
      line := data[lo].line;
      LineAtFirst(es, offset, lo);
      if 0 <= offset < |Lines| {
        LineAtDecodes(es, Lines, offset);
      }
      if offset <= es[0].offset {
        LineAtFirst(es, offset, 0);
      }
      if offset > es[count - 1].offset {
        LineAtFirst(es, offset, count - 1);
      }
    }
  }
}

/**
 * The byte scanner's offset-advancing scans: BOM skipping (`New`), `Pos`,
 * `Tail` and `EndString`.
 */
module Scanner {
  newtype byte = x: int | 0 <= x < 256

  const LF: byte := 10
  const CR: byte := 13
  const DQUOTE: byte := 34
  const QUOTE: byte := 39
  const BACKSLASH: byte := 92

  /** The UTF-8 byte order mark EF BB BF opens a source of more than two bytes. */
  predicate HasBOM(source: seq<byte>) {
    |source| > 2 && source[0] == 0xef && source[1] == 0xbb && source[2] == 0xbf
  }

  predicate IsLineBreak(b: byte) { b == LF || b == CR }

  /** Where `Tail` stops when it starts at `from`: the first line break at or after it, or `size`. */
  function LineEnd(src: seq<byte>, from: int, size: int): (r: int)
    requires 0 <= from <= size <= |src|
    ensures from <= r <= size
    ensures r < size ==> IsLineBreak(src[r])
    ensures forall k :: from <= k < r ==> !IsLineBreak(src[k])
    decreases size - from
  {
    if from < size && !IsLineBreak(src[from]) then LineEnd(src, from + 1, size) else from
  }

  /** The first '\'' in `src[from..size]`, or `size`. */
  function FirstQuote(src: seq<byte>, from: int, size: int): (r: int)
    requires 0 <= from <= size <= |src|
    ensures from <= r <= size
    ensures r < size ==> src[r] == QUOTE
    ensures forall k :: from <= k < r ==> src[k] != QUOTE
    decreases size - from
  {
    if from == size || src[from] == QUOTE then from else FirstQuote(src, from + 1, size)
  }

  /** Position 'q' holds '"' and is preceded by an even run of backslashes not reaching below `start`. */
  predicate Closes(src: seq<byte>, start: int, q: int)
    requires 0 <= start <= q < |src|
  {
    src[q] == DQUOTE && BackslashRun(src, start, q) % 2 == 0
  }

  /** The number of consecutive backslashes just before `q`, counting no further back than `start`. */
  function BackslashRun(src: seq<byte>, start: int, q: int): nat
    requires 0 <= start <= q <= |src|
    decreases q
  {
    if q > start && src[q - 1] == BACKSLASH then BackslashRun(src, start, q - 1) + 1 else 0
  }

  /** The first unescaped '"' in `src[from..size]`, for a string opened at `start`. */
  function FirstClose(src: seq<byte>, start: int, from: int, size: int): (r: int)
    requires 0 <= start <= from <= size <= |src|
    ensures from <= r <= size
    ensures r < size ==> Closes(src, start, r)
    ensures forall q :: from <= q < r ==> !Closes(src, start, q)
    decreases size - from
  {
    if from == size || Closes(src, start, from) then from else FirstClose(src, start, from + 1, size)
  }

  /**
   * Where `EndString` stops when it starts at `from`: just after the closing
   * quote, or at `size`, or at `size + 1` when a backslash in the last byte
   * skips past the end.
   */
  function StringEnd(src: seq<byte>, from: int, size: int, escape: bool): (r: int)
    requires 0 <= from && size <= |src|
    ensures from >= size ==> r == from
    ensures from < size ==> from < r <= size + 1
    decreases size - from
  {
    if from >= size then from
    else if escape && src[from] == BACKSLASH then StringEnd(src, from + 2, size, escape)
    else if (escape && src[from] == DQUOTE) || (!escape && src[from] == QUOTE) then from + 1
    else StringEnd(src, from + 1, size, escape)
  }

  /** A second `Tail` straight after the first stays where it is. */
  lemma LineEndIdempotent(src: seq<byte>, from: int, size: int)
    requires 0 <= from <= size <= |src|
    ensures LineEnd(src, LineEnd(src, from, size), size) == LineEnd(src, from, size)
  {
  }

  /** Without escapes the string ends just after the first '\'', or at `size`. */
  lemma {:induction false} StringEndPlain(src: seq<byte>, from: int, size: int)
    requires 0 <= from <= size <= |src|
    ensures StringEnd(src, from, size, false) ==
              var q := FirstQuote(src, from, size);
              if q < size then q + 1 else size
    decreases size - from
  {
    if from < size && src[from] != QUOTE {
      StringEndPlain(src, from + 1, size);
    }
  }

  /**
   * With escapes the string ends just after the first '"' that follows an
   * even run of backslashes; without one it ends at `size`, or one past it
   * when the input ends in an odd run of backslashes.
   */
  lemma {:induction false} StringEndEscaped(src: seq<byte>, start: int, from: int, size: int)
    requires 0 <= start <= from <= size <= |src|
    requires BackslashRun(src, start, from) % 2 == 0
    ensures StringEnd(src, from, size, true) ==
              var q := FirstClose(src, start, from, size);
              if q < size then q + 1
              else if BackslashRun(src, start, size) % 2 == 0 then size
              else size + 1
    decreases size - from
  {
    if from < size {
      if src[from] == BACKSLASH {
        if from + 1 < size {
          assert BackslashRun(src, start, from + 1) == BackslashRun(src, start, from) + 1;
          assert !Closes(src, start, from + 1);
          StringEndEscaped(src, start, from + 2, size);
        } else {
          assert BackslashRun(src, start, size) == BackslashRun(src, start, from) + 1;
        }
      } else if src[from] != DQUOTE {
        StringEndEscaped(src, start, from + 1, size);
      }
    }
  }

  class Scanner {
    const src: seq<byte>
    var size: int
    var offset: int

    ghost predicate Valid()
      reads this
    {
      size == |src| && 0 <= offset <= size
    }

    /** `New`: skips a byte order mark. */
    constructor (source: seq<byte>)
      ensures Valid()
      ensures src == source && size == |source|
      ensures offset == (if HasBOM(source) then 3 else 0)
    {
      src := source;
      size := |source|;
      offset := if HasBOM(source) then 3 else 0;
    }

    /** `Pos`: the current byte offset. */
    method Pos() returns (p: int)
      requires Valid()
      ensures 0 <= p <= |src| && p == offset
    {
      p := offset;
    }

    /** `Tail`: the rest of the line, without its line break. */
    method Tail() returns (line: seq<byte>)
      requires Valid()
      modifies this`offset
      ensures Valid()
      ensures offset == LineEnd(src, old(offset), size)
      ensures old(offset) <= offset && line == src[old(offset)..offset]
      ensures forall k :: 0 <= k < |line| ==> !IsLineBreak(line[k])
    {
      var start := offset;
      while offset < size && !IsLineBreak(src[offset])
        invariant start <= offset <= size
        invariant LineEnd(src, offset, size) == LineEnd(src, start, size)
        decreases size - offset
      {
        offset := offset + 1;
      }
      line := src[start..offset];
    }

    /**
     * `EndString`: the rest of a string literal up to and including its
     * closing quote, '"' with backslash escapes when `escape` holds and '\''
     * otherwise. A backslash in the last byte moves the offset one past the
     * end; the source's final slice then panics when the buffer has no spare
     * capacity and otherwise reads one byte beyond the input. The model
     * holds no capacity, so that input is excluded.
     */
    method EndString(escape: bool) returns (lit: seq<byte>)
      requires Valid()
      requires StringEnd(src, offset, size, escape) <= size
      modifies this`offset
      ensures Valid()
      ensures offset == StringEnd(src, old(offset), size, escape)
      ensures old(offset) <= offset && lit == src[old(offset)..offset]
    {
      var start := offset;
      while offset < size
        invariant start <= offset
        invariant StringEnd(src, offset, size, escape) == StringEnd(src, start, size, escape)
        decreases size - offset
      {
        if escape && src[offset] == BACKSLASH {
          offset := offset + 2;
          continue;
        }
        if (escape && src[offset] == DQUOTE) || (!escape && src[offset] == QUOTE) {
          offset := offset + 1;
          break;
        }
        offset := offset + 1;
      }
      lit := src[start..offset];
    }
  }
}

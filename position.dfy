/** Source positions and their textual form (`token.Position`). */
module Position {
  import opened Wrappers
  import Decimal

  /** Byte offset from 0, line from 1, column from 1 counted in bytes. */
  datatype Position = Position(offset: int, line: int, column: int)
  {
    /** `IsValid`: the line is known. */
    predicate IsValid() { line > 0 }

    /**
     * `Position.String`: "file:line:column", "line:column" without a file
     * name, the file name alone for an invalid position, and "-" for an
     * invalid position without a file name.
     */
    function String(filename: string): (r: string)
      ensures r != ""
      ensures !IsValid() && filename == "" ==> r == "-"
      ensures !IsValid() && filename != "" ==> r == filename
      ensures IsValid() ==> Parse(r) == Some(Located(filename, line, column))
      ensures IsValid() ==> r == (if filename != "" then filename + ":" else "") + Decimal.Itoa(line) + ":" + Decimal.Itoa(column)
    {
      if IsValid() then
        var prefix := if filename != "" then filename + ":" else "";
        var r := prefix + Decimal.Itoa(line) + ":" + Decimal.Itoa(column);
        ParseRendered(filename, line, column);
        r
      else if filename == "" then "-"
      else filename
    }
  }

  /** What a rendered valid position says: the file name, the line and the column. */
  datatype Located = Located(filename: string, line: int, column: int)

  /** Index of the last ':' in `s`. */
  function LastColon(s: string): (r: Option<nat>)
    ensures r.Some? ==> r.value < |s| && s[r.value] == ':' && ':' !in s[r.value + 1..]
    ensures r.None? ==> ':' !in s
  {
    if s == [] then None
    else if s[|s| - 1] == ':' then Some(|s| - 1)
    else
      var r := LastColon(s[..|s| - 1]);
      assert s == s[..|s| - 1] + [s[|s| - 1]];
      r
  }

  /**
   * Reads a rendered valid position back, splitting at the last two
   * colons: the file name may itself hold colons, the decimal numbers do not.
   */
  function Parse(s: string): Option<Located> {
    match LastColon(s)
    case None => None
    case Some(k) =>
      match Decimal.Atoi(s[k + 1..])
      case None => None
      case Some(column) => ParseHead(s[..k], column)
  }

  /** The part before the last colon: "line" or "file:line". */
  function ParseHead(head: string, column: int): Option<Located> {
    match LastColon(head)
    case None =>
      (match Decimal.Atoi(head)
       case None => None
       case Some(line) => Some(Located("", line, column)))
    case Some(j) =>
      (match Decimal.Atoi(head[j + 1..])
       case None => None
       case Some(line) => Some(Located(head[..j], line, column)))
  }

  lemma NoColonInDecimal(n: int)
    ensures ':' !in Decimal.Itoa(n)
  {
    var s := Decimal.Itoa(n);
    forall i | 0 <= i < |s|
      ensures s[i] != ':'
    {
      if n < 0 && i > 0 {
        assert s[i] == s[1..][i - 1];
      }
    }
  }

  /** The last colon of `a + ":" + b` is the one added, when `b` has none. */
  lemma {:induction false} LastColonOfJoin(a: string, b: string)
    requires ':' !in b
    ensures LastColon(a + ":" + b) == Some(|a|)
    decreases |b|
  {
    var s := a + ":" + b;
    if b != [] {
      assert s[|s| - 1] == b[|b| - 1];
      LastColonOfJoin(a, b[..|b| - 1]);
      assert s[..|s| - 1] == a + ":" + b[..|b| - 1];
    }
  }

  lemma ParseJoin(head: string, ct: string, column: int)
    requires ':' !in ct && Decimal.Atoi(ct) == Some(column)
    ensures Parse(head + ":" + ct) == ParseHead(head, column)
  {
    var s := head + ":" + ct;
    LastColonOfJoin(head, ct);
    assert s[|head| + 1..] == ct;
    assert s[..|head|] == head;
  }

  lemma ParseHeadOfLine(line: int, column: int)
    ensures ParseHead(Decimal.Itoa(line), column) == Some(Located("", line, column))
  {
    NoColonInDecimal(line);
    Decimal.ItoaRoundTrip(line);
  }

  lemma ParseHeadOfFile(filename: string, line: int, column: int)
    ensures ParseHead(filename + ":" + Decimal.Itoa(line), column) == Some(Located(filename, line, column))
  {
    var lt := Decimal.Itoa(line);
    var head := filename + ":" + lt;
    NoColonInDecimal(line);
    Decimal.ItoaRoundTrip(line);
    LastColonOfJoin(filename, lt);
    assert head[|filename| + 1..] == lt;
    assert head[..|filename|] == filename;
  }

  lemma ParseRendered(filename: string, line: int, column: int)
    ensures Parse((if filename != "" then filename + ":" else "") + Decimal.Itoa(line) + ":" + Decimal.Itoa(column))
            == Some(Located(filename, line, column))
  {
    var ct := Decimal.Itoa(column);
    NoColonInDecimal(column);
    Decimal.ItoaRoundTrip(column);
    if filename == "" {
      ParseJoin(Decimal.Itoa(line), ct, column);
      ParseHeadOfLine(line, column);
      assert "" + Decimal.Itoa(line) == Decimal.Itoa(line);
    } else {
      ParseJoin(filename + ":" + Decimal.Itoa(line), ct, column);
      ParseHeadOfFile(filename, line, column);
    }
  }
}

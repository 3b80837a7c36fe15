/**
 * The token rewrite and literal classifier of the fast parser: a symbol
 * whose token is PLACEHOLDER is classified as a string, number, date-time,
 * identifier or member path by scanning its characters. `Lookup` itself
 * never gives PLACEHOLDER (an unmapped symbol is LITERAL, see
 * `LookupNeverPlaceholder`), so the fast parser, which rewrites the token
 * `Lookup` gave, never reaches the classifier; literals pass through as
 * LITERAL.
 *
 * A symbol's characters are its runes, as Go's `for range` over a string
 * visits them; all the tests are against ASCII characters.
 */
module Fast {
  import opened Tokens

  /** What the classifier decides; `KindToken` gives the token it stands for. */
  datatype Kind = ValString | ValInteger | ValFloat | ValDateTime | Placeholder | Ident | Member | Members

  function KindToken(k: Kind): Token {
    match k
    case ValString => VALSTRING
    case ValInteger => VALINTEGER
    case ValFloat => VALFLOAT
    case ValDateTime => VALDATETIME
    case Placeholder => PLACEHOLDER
    case Ident => IDENT
    case Member => MEMBER
    case Members => MEMBERS
  }

  predicate IsDigit(c: char) { '0' <= c <= '9' }

  /** Characters a number may hold: digits, signs, '_', and the float and date-time markers. */
  predicate IsNumberChar(c: char) {
    IsDigit(c) || c == '+' || c == '-' || c == '_' || IsFloatMarker(c) || IsDateTimeMarker(c)
  }

  predicate IsFloatMarker(c: char) { c == '.' || c == 'e' }

  predicate IsDateTimeMarker(c: char) { c == 'T' || c == ':' || c == 'Z' }

  /** Characters an identifier or member path may hold, besides '.'. */
  predicate IsWordChar(c: char) {
    c == '_' || 'a' <= c <= 'z' || 'A' <= c <= 'Z' || IsDigit(c)
  }

  /** A "0x" or "0b" prefix with more after it: taken as an integer unseen. */
  predicate IsRadixPrefixed(code: string) {
    |code| > 2 && code[0] == '0' && (code[1] == 'x' || code[1] == 'b')
  }

  predicate IsMarker(c: char) { IsFloatMarker(c) || IsDateTimeMarker(c) }

  /** Index of the last float or date-time marker of `s`, -1 if there is none. */
  function LastMarker(s: string): (r: int)
    ensures -1 <= r < |s|
    ensures r >= 0 ==> IsMarker(s[r])
    ensures forall j :: r < j < |s| ==> !IsMarker(s[j])
  {
    if s == [] then -1
    else if IsMarker(s[|s| - 1]) then |s| - 1
    else LastMarker(s[..|s| - 1])
  }

  /** The last marker wins: '.' or 'e' make a float, 'T', ':' or 'Z' a date-time; none leaves an integer. */
  function MarkerKind(s: string): Kind {
    var m := LastMarker(s);
    if m < 0 then ValInteger else if IsFloatMarker(s[m]) then ValFloat else ValDateTime
  }

  /** A symbol that starts with a digit. */
  function NumberKind(code: string): (k: Kind)
    ensures k in {ValInteger, ValFloat, ValDateTime, Placeholder}
    ensures k == Placeholder <==> !IsRadixPrefixed(code) && exists i :: 0 <= i < |code| && !IsNumberChar(code[i])
  {
    if IsRadixPrefixed(code) then ValInteger
    else if forall i :: 0 <= i < |code| ==> IsNumberChar(code[i]) then MarkerKind(code)
    else Placeholder
  }

  /** A symbol that does not start with a digit: one dot makes a member, more a member path. */
  function WordKind(code: string): (k: Kind)
    ensures k in {Placeholder, Ident, Member, Members}
    ensures k != Placeholder ==> forall i :: 0 <= i < |code| ==> code[i] == '.' || IsWordChar(code[i])
    ensures k == Ident ==> '.' !in code
  {
    if exists i :: 0 <= i < |code| && code[i] != '.' && !IsWordChar(code[i]) then Placeholder
    else if multiset(code)['.'] == 0 then Ident
    else if multiset(code)['.'] == 1 then Member
    else Members
  }

  /** The classification of a placeholder symbol. */
  function Classify(code: string): (k: Kind)
    requires code != ""
    ensures k == ValString <==> code == "\"" || code == "'"
    ensures k in {ValInteger, ValFloat, ValDateTime} ==> IsDigit(code[0])
    ensures k in {Ident, Member, Members} ==> !IsDigit(code[0])
  {
    if code == "\"" || code == "'" then ValString
    else if IsDigit(code[0]) then NumberKind(code)
    else WordKind(code)
  }

  /** The scan of a symbol that starts with a digit, stopping at the first foreign character. */
  method ScanNumber(code: string) returns (k: Kind)
    ensures k == NumberKind(code)
  {
    k := ValInteger;
    if IsRadixPrefixed(code) {
      return;
    }
    var i := 0;
    while i < |code|
      invariant 0 <= i <= |code|
      invariant forall j :: 0 <= j < i ==> IsNumberChar(code[j])
      invariant k == MarkerKind(code[..i])
    {
      var c := code[i];
      if IsFloatMarker(c) {
        k := ValFloat;
      } else if IsDateTimeMarker(c) {
        k := ValDateTime;
      } else if !IsDigit(c) && c != '+' && c != '-' && c != '_' {
        k := Placeholder;
        return;
      }
      assert code[..i + 1][..i] == code[..i];
      i := i + 1;
    }
    assert code[..i] == code;
  }

  /** The scan of a symbol that does not start with a digit, counting dots. */
  method ScanWord(code: string) returns (k: Kind)
    ensures k == WordKind(code)
  {
    k := Ident;
    var dot := 0;
    var i := 0;
    while i < |code|
      invariant 0 <= i <= |code|
      invariant forall j :: 0 <= j < i ==> code[j] == '.' || IsWordChar(code[j])
      invariant dot == multiset(code[..i])['.']
    {
      var c := code[i];
      assert code[..i + 1] == code[..i] + [c];
      if c == '.' {
        dot := dot + 1;
        i := i + 1;
        continue;
      }
      if !IsWordChar(c) {
        k := Placeholder;
        return;
      }
      i := i + 1;
    }
    assert code[..i] == code;
    if dot != 0 && k == Ident {
      if dot == 1 {
        k := Member;
      } else {
        k := Members;
      }
    }
  }

  /** The placeholder branch of the rewrite. */
  method ClassifyCode(code: string) returns (k: Kind)
    requires code != ""
    ensures k == Classify(code)
  {
    if code == "\"" || code == "'" {
      k := ValString;
    } else if IsDigit(code[0]) {
      k := ScanNumber(code);
    } else {
      k := ScanWord(code);
    }
  }

  /**
   * The rewrite of a scanned token: boolean and special float words become
   * values, a placeholder is classified, and any other token is kept.
   * TRUE, FALSE, NAN and INFINITE are left open, so each clause excludes the
   * cases the switch tries first; a placeholder symbol is never empty.
   */
  method Rewrite(tok: Token, code: string) returns (t: Token)
    requires tok == PLACEHOLDER && tok != TRUE && tok != FALSE && tok != NAN && tok != INFINITE ==> code != ""
    ensures tok == TRUE || tok == FALSE ==> t == VALBOOL
    ensures tok != TRUE && tok != FALSE && (tok == NAN || tok == INFINITE) ==> t == VALFLOAT
    ensures tok !in {TRUE, FALSE, NAN, INFINITE} && tok == PLACEHOLDER ==> t == KindToken(Classify(code))
    ensures tok !in {TRUE, FALSE, NAN, INFINITE, PLACEHOLDER} ==> t == tok
  {
    if tok == TRUE || tok == FALSE {
      t := VALBOOL;
    } else if tok == NAN || tok == INFINITE {
      t := VALFLOAT;
    } else if tok == PLACEHOLDER {
      var k := ClassifyCode(code);
      t := KindToken(k);
    } else {
      t := tok;
    }
  }

  /**
   * Neither the corrected nor the as-written `Lookup` gives PLACEHOLDER: an
   * unmapped symbol is LITERAL. The placeholder branch of the rewrite is
   * therefore not reached from the token the fast parser looks up.
   */
  lemma LookupNeverPlaceholder(code: string)
    ensures Lookup(code) != PLACEHOLDER
    ensures code == "" || |code| >= 2 || code[0] == ' ' || code[0] == '\t' || code[0] == '\n' || Letters(code).Some? ==>
              LookupAsWritten(code) != PLACEHOLDER
  {
  }

  /**
   * Sample numbers: a radix prefix is an integer unseen, the last marker
   * decides between float and date-time, and a stray letter after a digit
   * makes a placeholder.
   */
  lemma NumberExamples()
    ensures Classify("0x1F") == ValInteger && Classify("0b") == Placeholder
    ensures Classify("3.14") == ValFloat && Classify("1e-9") == ValFloat
    ensures Classify("2016-01-02T15:04:05Z") == ValDateTime && Classify("12:30.5") == ValFloat
    ensures Classify("9a") == Placeholder
  {
    assert !IsNumberChar("0b"[1]);
    assert LastMarker("3.14") == 1 by { assert LastMarker("3.1") == 1; assert LastMarker("3.") == 1; }
    assert LastMarker("1e-9") == 1 by { assert LastMarker("1e-") == 1; assert LastMarker("1e") == 1; }
    assert LastMarker("12:30.5") == 5 by { assert LastMarker("12:30.") == 5; }
    assert !IsNumberChar("9a"[1]);
  }

  /** A symbol of word characters and dots, with its dot count, is an identifier, member or member path. */
  lemma WordOfDots(code: string, dots: nat)
    requires forall i :: 0 <= i < |code| ==> code[i] == '.' || IsWordChar(code[i])
    requires multiset(code)['.'] == dots
    ensures WordKind(code) == if dots == 0 then Ident else if dots == 1 then Member else Members
  {
  }

  /** Sample words: no dot makes an identifier, one dot a member. */
  lemma MemberExamples()
    ensures Classify("Files") == Ident && Classify("a.b") == Member
  {
    assert multiset("Files") == multiset{'F', 'i', 'l', 'e', 's'};
    WordOfDots("Files", 0);
    assert multiset("a.b") == multiset{'a', '.', 'b'};
    WordOfDots("a.b", 1);
  }

  /** Sample words: two dots make a member path, and any foreign character a placeholder. */
  lemma MemberPathExamples()
    ensures Classify("a.b.c") == Members && Classify("a-b") == Placeholder
  {
    assert multiset("a.b.c") == multiset{'a', '.', 'b', '.', 'c'};
    WordOfDots("a.b.c", 2);
    assert !IsWordChar("a-b"[1]);
  }
}

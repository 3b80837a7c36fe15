/**
 * The token set of the language: the numbering of the tokens, their names,
 * operator precedence, the range predicates and the classification of a
 * scanned symbol (`Lookup`).
 *
 * Go strings are byte strings; every string here holds one `char` per byte.
 */
module Tokens {
  import opened Wrappers
  import Decimal

  type Token = int

  const EOF: Token := 0
  const DOLLAR: Token := 1
  const ANTI: Token := 2
  const BITAND: Token := 3
  const BITOR: Token := 4
  const XOR: Token := 5
  const MUL: Token := 6
  const MULSIGN: Token := 7
  const DIV: Token := 8
  const DIVSIGN: Token := 9
  const MOD: Token := 10
  const REM: Token := 11
  const SHL: Token := 12
  const SHLSIGN: Token := 13
  const SHR: Token := 14
  const SHRSIGN: Token := 15
  const ADD: Token := 16
  const PLUS: Token := 17
  const SUB: Token := 18
  const DOTDOT: Token := 19
  const EQL: Token := 20
  const NEQ: Token := 21
  const LEQ: Token := 22
  const GEQ: Token := 23
  const LSS: Token := 24
  const GTR: Token := 25
  const IS: Token := 26
  const ISNOT: Token := 27
  const HAS: Token := 28
  const NOT: Token := 29
  const AND: Token := 30
  const OR: Token := 31
  const USE: Token := 32
  const PUB: Token := 33
  const CONST: Token := 34
  const TYPE: Token := 35
  const STATIC: Token := 36
  const VAR: Token := 37
  const FUNC: Token := 38
  const PROC: Token := 39
  const BREAK: Token := 40
  const CASE: Token := 41
  const CONTINUE: Token := 42
  const DEFAULT: Token := 43
  const DEFER: Token := 44
  const ELSE: Token := 45
  const FOR: Token := 46
  const GO: Token := 47
  const GOTO: Token := 48
  const IF: Token := 49
  const MAP: Token := 50
  const SWITCH: Token := 51
  const OUT: Token := 52
  const COLON: Token := 53
  const COMMA: Token := 54
  const SEMICOLON: Token := 55
  const DOT: Token := 56
  const ASSIGN: Token := 57
  const INC: Token := 58
  const DEC: Token := 59
  const LEFT: Token := 60
  const RIGHT: Token := 61
  const SPACES: Token := 62
  const TABS: Token := 63
  const LITERAL: Token := 64
  const IDENT: Token := 65
  const PLACEHOLDER: Token := 66
  const COMMENT: Token := 67
  const COMMENTS: Token := 68
  const NL: Token := 69

  /*
   * Category tokens and the relations `Token.Has` and `Token.As` are used by
   * the grammar engines but defined outside the token table; they are left
   * uninterpreted.
   */
  const Type: Token
  const Literal: Token
  const Declare: Token
  const Assign: Token
  const VALSTRING: Token
  const VALBOOL: Token
  const VALFLOAT: Token
  const VALINTEGER: Token
  const VALDATETIME: Token
  const MEMBER: Token
  const MEMBERS: Token
  const TRUE: Token
  const FALSE: Token
  const NAN: Token
  const INFINITE: Token
  const EMPTYLINE: Token
  const INDENTATION: Token
  const INT: Token
  const BOOL: Token
  /** `tok.Has(t)`: the token (or category) `tok` covers `t`. */
  const Has: (Token, Token) -> bool
  /** `tok.As(t)`: `t` may stand where `tok` is expected. */
  const As: (Token, Token) -> bool

  /** The `tokens` name table; "" for an index the table does not hold. */
  function Name(t: Token): (r: string)
    ensures r != "" <==> 0 <= t <= NL
  {
    match t
    case 0 => "EOF"
    case 1 => "$"
    case 2 => "~"
    case 3 => "&"
    case 4 => "|"
    case 5 => "xor"
    case 6 => "mul"
    case 7 => "*"
    case 8 => "div"
    case 9 => "/"
    case 10 => "mod"
    case 11 => "rem"
    case 12 => "shl"
    case 13 => "<<"
    case 14 => "shr"
    case 15 => ">>"
    case 16 => "add"
    case 17 => "+"
    case 18 => "-"
    case 19 => ".."
    case 20 => "=="
    case 21 => "!="
    case 22 => "<="
    case 23 => ">="
    case 24 => "<"
    case 25 => ">"
    case 26 => "is"
    case 27 => "isnot"
    case 28 => "has"
    case 29 => "not"
    case 30 => "and"
    case 31 => "or"
    case 32 => "use"
    case 33 => "pub"
    case 34 => "const"
    case 35 => "type"
    case 36 => "static"
    case 37 => "var"
    case 38 => "func"
    case 39 => "proc"
    case 40 => "break"
    case 41 => "case"
    case 42 => "continue"
    case 43 => "default"
    case 44 => "defer"
    case 45 => "else"
    case 46 => "for"
    case 47 => "go"
    case 48 => "goto"
    case 49 => "if"
    case 50 => "map"
    case 51 => "switch"
    case 52 => "out"
    case 53 => ":"
    case 54 => ","
    case 55 => ";"
    case 56 => "."
    case 57 => "="
    case 58 => "++"
    case 59 => "--"
    case 60 => "LEFT"
    case 61 => "RIGHT"
    case 62 => "SPACES"
    case 63 => "TABS"
    case 64 => "LITERAL"
    case 65 => "IDENT"
    case 66 => "PLACEHOLDER"
    case 67 => "COMMENT"
    case 68 => "COMMENTS"
    case 69 => "NEWLINE"
    case _ => ""
  }

  /** `Token.String`: the table name, or "token(<decimal>)" outside the table. */
  function String(t: Token): (s: string)
    ensures |s| >= 1
    ensures 0 <= t <= NL ==> s == Name(t)
    ensures !(0 <= t <= NL) ==>
              |s| >= 8 && s[..6] == "token(" && s[|s| - 1] == ')' && Decimal.Atoi(s[6..|s| - 1]) == Some(t)
  {
    var s := if 0 <= t <= NL then Name(t) else "";
    if s == "" then
      Decimal.ItoaRoundTrip(t);
      "token(" + Decimal.Itoa(t) + ")"
    else s
  }

  /**
   * The `letters` map that `init` fills: the name of every token strictly
   * between EOF and LEFT, and the six brackets. It is split along the
   * groups of the token table: operators, keywords, then delimiters and
   * brackets.
   */
  function Letters(s: string): (r: Option<Token>)
    ensures r.Some? ==> 1 <= |s| && !SpecialPrefix(s)
    ensures r.Some? ==>
              || (EOF < r.value < LEFT && s == Name(r.value))
              || (r.value == LEFT && (s == "[" || s == "{" || s == "("))
              || (r.value == RIGHT && (s == "]" || s == ")" || s == "}"))
  {
    if OperatorLetters(s).Some? then OperatorLetters(s)
    else if KeywordLetters(s).Some? then KeywordLetters(s)
    else DelimiterLetters(s)
  }

  function OperatorLetters(s: string): (r: Option<Token>)
    ensures r.Some? ==> 1 <= |s| && !SpecialPrefix(s) && DOLLAR <= r.value <= OR && s == Name(r.value)
  {
    match s
    case "$" => Some(DOLLAR)
    case "~" => Some(ANTI)
    case "&" => Some(BITAND)
    case "|" => Some(BITOR)
    case "xor" => Some(XOR)
    case "mul" => Some(MUL)
    case "*" => Some(MULSIGN)
    case "div" => Some(DIV)
    case "/" => Some(DIVSIGN)
    case "mod" => Some(MOD)
    case "rem" => Some(REM)
    case "shl" => Some(SHL)
    case "<<" => Some(SHLSIGN)
    case "shr" => Some(SHR)
    case ">>" => Some(SHRSIGN)
    case "add" => Some(ADD)
    case "+" => Some(PLUS)
    case "-" => Some(SUB)
    case ".." => Some(DOTDOT)
    case "==" => Some(EQL)
    case "!=" => Some(NEQ)
    case "<=" => Some(LEQ)
    case ">=" => Some(GEQ)
    case "<" => Some(LSS)
    case ">" => Some(GTR)
    case "is" => Some(IS)
    case "isnot" => Some(ISNOT)
    case "has" => Some(HAS)
    case "not" => Some(NOT)
    case "and" => Some(AND)
    case "or" => Some(OR)
    case _ => None
  }

  function KeywordLetters(s: string): (r: Option<Token>)
    ensures r.Some? ==> 1 <= |s| && !SpecialPrefix(s) && USE <= r.value <= OUT && s == Name(r.value)
  {
    match s
    case "use" => Some(USE)
    case "pub" => Some(PUB)
    case "const" => Some(CONST)
    case "type" => Some(TYPE)
    case "static" => Some(STATIC)
    case "var" => Some(VAR)
    case "func" => Some(FUNC)
    case "proc" => Some(PROC)
    case "break" => Some(BREAK)
    case "case" => Some(CASE)
    case "continue" => Some(CONTINUE)
    case "default" => Some(DEFAULT)
    case "defer" => Some(DEFER)
    case "else" => Some(ELSE)
    case "for" => Some(FOR)
    case "go" => Some(GO)
    case "goto" => Some(GOTO)
    case "if" => Some(IF)
    case "map" => Some(MAP)
    case "switch" => Some(SWITCH)
    case "out" => Some(OUT)
    case _ => None
  }

  function DelimiterLetters(s: string): (r: Option<Token>)
    ensures r.Some? ==> 1 <= |s| && !SpecialPrefix(s)
    ensures r.Some? ==>
              || (COLON <= r.value <= DEC && s == Name(r.value))
              || (r.value == LEFT && (s == "[" || s == "{" || s == "("))
              || (r.value == RIGHT && (s == "]" || s == ")" || s == "}"))
  {
    match s
    case ":" => Some(COLON)
    case "," => Some(COMMA)
    case ";" => Some(SEMICOLON)
    case "." => Some(DOT)
    case "=" => Some(ASSIGN)
    case "++" => Some(INC)
    case "--" => Some(DEC)
    case "[" => Some(LEFT)
    case "{" => Some(LEFT)
    case "(" => Some(LEFT)
    case "]" => Some(RIGHT)
    case ")" => Some(RIGHT)
    case "}" => Some(RIGHT)
    case _ => None
  }

  /** The prefixes `Lookup` tests before and after consulting `Letters`. */
  predicate SpecialPrefix(s: string) {
    || (|s| >= 1 && (s[0] == ' ' || s[0] == '\t' || s[0] == '\n' || s[0] == '\r'))
    || (|s| >= 2 && s[0] == '/' && s[1] == '/')
    || (|s| >= 3 && s[0] == '-' && s[1] == '-' && s[2] == '-')
  }

  /**
   * `Lookup`, with the line-break test reading the first byte for both '\n'
   * and '\r' (the source reads the second byte for '\r'; see README).
   */
  function Lookup(letter: string): (t: Token)
    ensures t == EOF <==> letter == ""
    ensures t == SPACES <==> |letter| >= 1 && letter[0] == ' '
    ensures t == TABS <==> |letter| >= 1 && letter[0] == '\t'
    ensures t == NL <==> |letter| >= 1 && (letter[0] == '\n' || letter[0] == '\r')
    ensures t == COMMENT <==> |letter| >= 2 && letter[0] == '/' && letter[1] == '/'
    ensures t == COMMENTS <==> |letter| >= 3 && letter[0] == '-' && letter[1] == '-' && letter[2] == '-'
    ensures t == LITERAL <==> letter != "" && Letters(letter).None? && !SpecialPrefix(letter)
    ensures Letters(letter).Some? ==> t == Letters(letter).value
  {
    if letter == "" then EOF
    else if letter[0] == ' ' then SPACES
    else if letter[0] == '\t' then TABS
    else if Letters(letter).Some? then Letters(letter).value
    else if letter[0] == '\n' || letter[0] == '\r' then NL
    else if |letter| > 1 && letter[0] == '/' && letter[1] == '/' then COMMENT
    else if |letter| > 2 && letter[0] == '-' && letter[1] == '-' && letter[2] == '-' then COMMENTS
    else LITERAL
  }

  /**
   * `Lookup` as the source writes it: the second byte is compared with '\r',
   * so an unmapped one-byte string other than " ", "\t" and "\n" indexes
   * past its end.
   */
  function LookupAsWritten(letter: string): (t: Token)
    requires letter == "" || |letter| >= 2 || letter[0] == ' ' || letter[0] == '\t' || letter[0] == '\n'
             || Letters(letter).Some?
    ensures t == NL <==>
              && letter != "" && letter[0] != ' ' && letter[0] != '\t' && Letters(letter).None?
              && (letter[0] == '\n' || letter[1] == '\r')
    ensures (|letter| < 2 || letter[1] != '\r') && (|letter| < 1 || letter[0] != '\r') ==> t == Lookup(letter)
  {
    if letter == "" then EOF
    else if letter[0] == ' ' then SPACES
    else if letter[0] == '\t' then TABS
    else if Letters(letter).Some? then Letters(letter).value
    else if letter[0] == '\n' || letter[1] == '\r' then NL
    else if |letter| > 1 && letter[0] == '/' && letter[1] == '/' then COMMENT
    else if |letter| > 2 && letter[0] == '-' && letter[1] == '-' && letter[2] == '-' then COMMENTS
    else LITERAL
  }

  /** The CRLF line break the scanner produces is not recognised as written. */
  lemma LookupAsWrittenMissesCRLF()
    ensures LookupAsWritten("\r\n") == LITERAL
    ensures Lookup("\r\n") == NL
  {
    assert Letters("\r\n").None?;
  }

  /** Classifying the name of any token strictly between EOF and LEFT gives the token back. */
  lemma LookupString(t: Token)
    requires EOF < t < LEFT
    ensures Lookup(String(t)) == t
    ensures LookupAsWritten(String(t)) == t
  {
    LettersName(t);
  }

  /** `init` enters the name of every token strictly between EOF and LEFT. */
  lemma LettersName(t: Token)
    requires EOF < t < LEFT
    ensures String(t) == Name(t) && Letters(Name(t)) == Some(t)
  {
    if t <= OR {
      assert OperatorLetters(Name(t)) == Some(t);
    } else if t <= OUT {
      assert OperatorLetters(Name(t)).None?;
      assert KeywordLetters(Name(t)) == Some(t);
    } else {
      assert OperatorLetters(Name(t)).None?;
      assert KeywordLetters(Name(t)).None?;
      assert DelimiterLetters(Name(t)) == Some(t);
    }
  }

  /** `Precedence`: binding strength of a binary or unary operator, 0 for other tokens. */
  function Precedence(op: Token): (r: int)
    ensures 1 <= r <= 11 <==> IsOperator(op)
    ensures !IsOperator(op) ==> r == 0
    ensures r == 1 <==> op == OR
    ensures r == 11 <==> op == DOLLAR
  {
    match op
    case 31 => 1
    case 30 => 2
    case 29 => 3
    case 26 | 27 | 28 => 4
    case 20 | 21 | 22 | 23 | 24 | 25 => 5
    case 19 => 6
    case 16 | 17 | 18 => 7
    case 6 | 7 | 8 | 9 | 10 | 11 | 12 | 13 | 14 | 15 => 8
    case 3 | 4 | 5 => 9
    case 2 => 10
    case 1 => 11
    case _ => 0
  }

  /** `IsAssign`: the tokens that make a statement of their own, named "=", "++" and "--". */
  function IsAssign(t: Token): (b: bool)
    ensures b <==> String(t) == "=" || String(t) == "++" || String(t) == "--"
  {
    t == ASSIGN || t == INC || t == DEC
  }

  /** `IsOperator`: DOLLAR through OR; no operator is a keyword. */
  function IsOperator(t: Token): (b: bool)
    ensures b ==> !IsKeyword(t) && Letters(String(t)) == Some(t)
  {
    if DOLLAR <= t <= OR then LettersName(t); true else false
  }

  /** `IsKeyword`: USE through OUT. */
  function IsKeyword(t: Token): (b: bool)
    ensures b ==> Letters(String(t)) == Some(t)
  {
    if USE <= t <= OUT then LettersName(t); true else false
  }

  /** `IsDeclare`: USE through PROC, the keywords that open a declaration. */
  function IsDeclare(t: Token): (b: bool)
    ensures b ==> IsKeyword(t)
  {
    USE <= t <= PROC
  }
}

/**
 * The flat AST: a file's nodes kept in one list in the order they are
 * pushed, each knowing its own index and the index of the node that was
 * active when it was added. `Push` turns scanned tokens into nodes,
 * `add` checks and appends them, and the `resolve` tables decide what a
 * token becomes under the active node.
 */
module Ast {
  import opened Wrappers
  import opened Tokens
  import AstGrammar

  /** `ast.Flag`, an unsigned machine word. */
  type Flag = bv64

  const FBlock: Flag := 1
  const FFile: Flag := 2
  const FDeclaration: Flag := 4
  const FChunk: Flag := 8
  const FStatement: Flag := 16
  const FExpression: Flag := 32
  const FText: Flag := 64
  const FFinal: Flag := 128
  /** The style bits a new node inherits from the active node. */
  const StyleMask: Flag := 0xFFFF_FF00

  /** The dynamic type of a node. */
  datatype NodeKind = FileNode | DeclNode | ChunkNode | StmtNode | ExprNode | TextNode

  /** `Base`: what every node holds; `prev` is the index of the node active when it was added. */
  datatype Node = Node(kind: NodeKind, flag: Flag, tok: Token, index: int, source: string, pos: int, prev: int)

  datatype Error =
    | Invalid(tok: Token)  // "ast: Oop! invalid <tok>"
    | InvalidBase          // "ast: Oop! invalid Base"
    | NilPrev              // add of a RIGHT node calls a method on the nil `Prev` of the file
    | NotText              // the NL merge asserts that the last node is a Text

  /** `File`: its own node first, the active and last nodes as indices, and the pending expectation. */
  datatype FileState = FileState(nodes: seq<Node>, active: nat, last: nat, expecting: Option<seq<Token>>)

  ghost predicate ValidState(s: FileState) {
    && |s.nodes| >= 1
    && s.active < |s.nodes|
    && s.last < |s.nodes|
    && s.nodes[0].kind == FileNode
    && forall k :: 0 <= k < |s.nodes| ==> s.nodes[k].index == k
  }

  /** `Kind`: the whole flag for mask 0, otherwise the bits of the mask. */
  function Kind(n: Node, mask: Flag): (r: Flag)
    ensures r == n.flag & (if mask == 0 then 0xFFFF_FFFF_FFFF_FFFF else mask)
  {
    if mask == 0 then n.flag else n.flag & mask
  }

  /** `NewFile`: the file node alone, active and last, with token EOF. */
  function NewFileState(): (s: FileState)
    ensures ValidState(s)
    ensures |s.nodes| == 1 && s.active == 0 && s.last == 0 && s.expecting.None?
    ensures s.nodes[0].flag == FFile && s.nodes[0].tok == EOF
  {
    FileState([Node(FileNode, FFile, EOF, 0, "", 0, 0)], 0, 0, None)
  }

  /** The node type `add` picks from the low seven flag bits: exactly one of Decl, Chunk, Stmt, Expr, Text. */
  function KindOf(f: Flag): (r: Option<NodeKind>)
    ensures r.Some? <==> f & 0x7F in {FDeclaration, FChunk, FStatement, FExpression, FText}
    ensures r == Some(TextNode) <==> f & 0x7F == FText
    ensures r.Some? ==> r.value != FileNode
  {
    var low := f & 0x7F;
    if low == FDeclaration then Some(DeclNode)
    else if low == FChunk then Some(ChunkNode)
    else if low == FStatement then Some(StmtNode)
    else if low == FExpression then Some(ExprNode)
    else if low == FText then Some(TextNode)
    else None
  }

  /** A line ends a node whose token is RIGHT, IDENT or a literal. */
  predicate ClosesLine(t: Token) { t == RIGHT || t == IDENT || As(t, Literal) }

  /** The `Final` methods: every node kind sets FFinal and reports no error. */
  function FinalAt(s: FileState, i: nat): (r: FileState)
    requires i < |s.nodes|
    ensures |r.nodes| == |s.nodes| && r.active == s.active && r.last == s.last && r.expecting == s.expecting
    ensures r.nodes[i].flag == s.nodes[i].flag | FFinal
    ensures forall k :: 0 <= k < |s.nodes| && k != i ==> r.nodes[k] == s.nodes[k]
    ensures r.nodes[i] == s.nodes[i].(flag := r.nodes[i].flag)
  {
    s.(nodes := s.nodes[i := s.nodes[i].(flag := s.nodes[i].flag | FFinal)])
  }

  /** An NL added under an active node that ends a line closes that node. */
  predicate ClosesActive(s: FileState, tok: Token)
    requires ValidState(s)
  {
    tok == NL && ClosesLine(s.nodes[s.active].tok)
  }

  /** The flag `add` gives a new node: FFinal when it closes the active node, and the active node's style bits. */
  function AddedFlag(s: FileState, flag: Flag, tok: Token): Flag
    requires ValidState(s)
  {
    var closes := ClosesActive(s, tok);
    var s1 := if closes then FinalAt(s, s.active) else s;
    MergeFlags(flag, closes, Kind(s1.nodes[s1.active], StyleMask))
  }

  function MergeFlags(flag: Flag, closes: bool, style: Flag): (f: Flag)
    ensures f & 0x7F == (flag & 0x7F) | (style & 0x7F)
    ensures f & StyleMask == (flag & StyleMask) | (style & StyleMask)
    ensures f & FFinal == (if closes then FFinal else (flag | style) & FFinal)
  {
    (if closes then flag | FFinal else flag) | style
  }

  /**
   * `add`: an NL closes the active node when it ends a line; the node gets
   * the next index, the active node as `prev` and the active node's style
   * bits; it is appended and becomes the last node unless its type bits or
   * token are invalid. A RIGHT node panics after it is appended.
   */
  function AddSpec(s: FileState, flag: Flag, tok: Token, pos: int, source: string): (r: (FileState, Option<Error>))
    requires ValidState(s)
    ensures ValidState(r.0)
    ensures r.0.active == s.active && r.0.expecting == s.expecting
    ensures |s.nodes| <= |r.0.nodes| <= |s.nodes| + 1
    ensures r.1.None? ==> |r.0.nodes| == |s.nodes| + 1 && r.0.nodes[|s.nodes|].tok == tok
    ensures r.1 in {None, Some(InvalidBase), Some(NilPrev)}
  {
    var s1 := if ClosesActive(s, tok) then FinalAt(s, s.active) else s;
    var f := AddedFlag(s, flag, tok);
    var kind := KindOf(f);
    if kind.None? || tok > PLACEHOLDER then (s1, Some(InvalidBase))
    else
      var n := Node(kind.value, f, tok, |s1.nodes|, source, pos, s1.active);
      (s1.(nodes := s1.nodes + [n], last := |s1.nodes|), if tok == RIGHT then Some(NilPrev) else None)
  }

  /** What `add` promises: when it reports which error, what it appends, and that only the active node's FFinal bit changes otherwise. */
  lemma AddSpecFacts(s: FileState, flag: Flag, tok: Token, pos: int, source: string)
    requires ValidState(s)
    ensures var r := AddSpec(s, flag, tok, pos, source);
            && (r.1 == Some(InvalidBase) <==> KindOf(AddedFlag(s, flag, tok)).None? || tok > PLACEHOLDER)
            && (r.1 != Some(InvalidBase) ==> (r.1 == Some(NilPrev) <==> tok == RIGHT) && (r.1.None? <==> tok != RIGHT))
            && (r.1 == Some(InvalidBase) ==> |r.0.nodes| == |s.nodes| && r.0.last == s.last)
            && (r.1 != Some(InvalidBase) ==>
                  && |r.0.nodes| == |s.nodes| + 1
                  && r.0.last == |s.nodes|
                  && r.0.nodes[|s.nodes|]
                     == Node(r.0.nodes[|s.nodes|].kind, AddedFlag(s, flag, tok), tok, |s.nodes|, source, pos, s.active)
                  && Some(r.0.nodes[|s.nodes|].kind) == KindOf(AddedFlag(s, flag, tok)))
            && (forall k :: 0 <= k < |s.nodes| && k != s.active ==> r.0.nodes[k] == s.nodes[k])
            && r.0.nodes[s.active] == s.nodes[s.active].(flag := r.0.nodes[s.active].flag)
            && r.0.nodes[s.active].flag == if ClosesActive(s, tok) then s.nodes[s.active].flag | FFinal else s.nodes[s.active].flag
  {
  }

  /** `File.resolve`: a declaration keyword opens a declaration at the top level. */
  function FileResolve(tok: Token): (flag: Flag)
    ensures flag == (if IsDeclare(tok) then FDeclaration else 0)
  {
    if tok == USE || tok == FUNC || tok == PROC || tok == CONST || tok == VAR
       || tok == TYPE || tok == STATIC || tok == PUB
    then FDeclaration
    else 0
  }

  /** What `resolve` decides: the new node's flag and, when written, the next expectation. */
  datatype Resolution = Resolution(flag: Flag, expecting: Option<seq<Token>>)

  /** `Decl.resolve`: the table of what may follow each declaration keyword. */
  function DeclResolve(decl: Token, tok: Token): (r: Resolution)
    ensures r.flag in {0, FDeclaration, FChunk, FText, FText | FFinal}
    ensures r.flag == FChunk <==> tok == LEFT && decl in {USE, CONST, VAR, STATIC, TYPE}
    ensures r.flag == FChunk ==> r.expecting.Some?
    ensures r.flag == FDeclaration <==>
              (decl == STATIC && tok != LEFT && (tok == FUNC || tok == PROC))
              || (decl == PUB && tok != PUB && As(tok, Declare))
    ensures r.flag == FText | FFinal <==> decl == USE && tok != LEFT && tok != IDENT && tok == VALSTRING
    ensures r.flag == 0 || r.flag == FText | FFinal ==> r.expecting.None?
    ensures r.flag == FText ==> r.expecting.Some?
  {
    match decl
    case 32 => // USE
      if tok == LEFT then Resolution(FChunk, Some([IDENT, VALSTRING]))
      else if tok == IDENT then Resolution(FText, Some([VALSTRING]))
      else if tok == VALSTRING then Resolution(FText | FFinal, None)
      else Resolution(0, None)
    case 34 => // CONST
      if tok == LEFT then Resolution(FChunk, Some([IDENT, Type]))
      else if tok == IDENT || tok == Type then Resolution(FText, Some([Assign]))
      else Resolution(0, None)
    case 37 => // VAR
      if tok == LEFT then Resolution(FChunk, Some([IDENT, MEMBER, Type]))
      else if tok == IDENT || tok == Type then Resolution(FText, Some([IDENT]))
      else Resolution(0, None)
    case 36 => // STATIC
      if tok == LEFT then Resolution(FChunk, Some([IDENT, MEMBER, Type]))
      else if tok == FUNC || tok == PROC then Resolution(FDeclaration, None)
      else if tok == IDENT || tok == Type then Resolution(FText, Some([IDENT]))
      else Resolution(0, None)
    case 35 => // TYPE
      if tok == LEFT then Resolution(FChunk, Some([IDENT]))
      else if tok == IDENT then Resolution(FText, Some([LEFT]))
      else Resolution(0, None)
    case 39 => // PROC
      if tok == OUT then Resolution(FText, Some([IDENT, MEMBER, FUNC]))
      else if tok == IDENT || tok == MEMBER || As(tok, Type) then Resolution(FText, Some([IDENT]))
      else Resolution(0, None)
    case 38 => // FUNC
      if tok == OUT then Resolution(FText, Some([IDENT]))
      else if tok == IDENT || tok == MEMBER || As(tok, Type) then Resolution(FText, Some([OUT, IDENT]))
      else Resolution(0, None)
    case 33 => // PUB
      if tok != PUB && As(tok, Declare) then Resolution(FDeclaration, Some([TYPE, PROC, FUNC, VAR, CONST, STATIC]))
      else Resolution(0, None)
    case _ => Resolution(0, None)
  }

  /** `resolve` dispatched on the active node's type; Text, Chunk, Stmt and Expr resolve nothing. */
  function Resolve(active: Node, tok: Token): (r: Resolution)
    ensures r.flag != 0 ==> active.kind == FileNode || active.kind == DeclNode
    ensures active.kind == FileNode ==> r.expecting.None? && (r.flag != 0 <==> IsDeclare(tok))
  {
    match active.kind
    case FileNode => Resolution(FileResolve(tok), None)
    case DeclNode => DeclResolve(active.tok, tok)
    case _ => Resolution(0, None)
  }

  /**
   * `Push` on a token other than NL, RIGHT, COMMENT, COMMENTS, PLACEHOLDER,
   * INDENTATION and EOF: a pending expectation that the token passes makes
   * a Text node; otherwise the active node resolves the token.
   */
  function PushOrdinary(s: FileState, pos: int, tok: Token, code: string): (r: (FileState, Option<Error>))
    requires ValidState(s)
    ensures ValidState(r.0) && r.0.active == s.active
    ensures r.1.None? ==> |r.0.nodes| == |s.nodes| + 1 && r.0.nodes[|s.nodes|].tok == tok
    ensures r.1 == Some(Invalid(tok)) ==> r.0.nodes == s.nodes
    ensures tok > PLACEHOLDER ==> r == (s, Some(Invalid(tok)))
  {
    if tok > PLACEHOLDER || Kind(s.nodes[s.active], FFile | FBlock | FText) != 0 then (s, Some(Invalid(tok)))
    else if s.expecting.Some? && AstGrammar.TermPass(s.expecting.value, tok).pass then
      AddSpec(s.(expecting := None), FText, tok, pos, code)
    else
      var res := Resolve(s.nodes[s.active], tok);
      var s1 := s.(expecting := res.expecting);
      if res.flag == 0 then (s1, Some(Invalid(tok)))
      else AddSpec(s1, res.flag, tok, pos, code)
  }

  /** `Push`, case by case in the order of its switch. */
  function PushSpec(s: FileState, pos: int, tok: Token, code: string): (r: (FileState, Option<Error>))
    requires ValidState(s)
    ensures ValidState(r.0)
    ensures r.0.active == s.active
    ensures |s.nodes| <= |r.0.nodes| <= |s.nodes| + 1
  {
    if tok == NL then
      var lastTok := s.nodes[s.last].tok;
      if lastTok == NL then AddSpec(s, FText, EMPTYLINE, pos, code)
      else if lastTok == INDENTATION || lastTok == EMPTYLINE then
        var text := s.nodes[s.last];
        if text.kind != TextNode then (s, Some(NotText))
        else (s.(nodes := s.nodes[s.last := text.(source := text.source + code, tok := EMPTYLINE)]), None)
      else if ClosesLine(s.nodes[s.active].tok) then AddSpec(FinalAt(s, s.active), FText | FFinal, NL, pos, code)
      else AddSpec(s, FText, NL, pos, code)
    else if tok == RIGHT then (s, Some(Invalid(RIGHT)))
    else if tok == COMMENT || tok == COMMENTS then
      var lastTok := s.nodes[s.last].tok;
      AddSpec(s, FText, if lastTok == EMPTYLINE || lastTok == PLACEHOLDER then PLACEHOLDER else COMMENT, pos, code)
    else if tok == PLACEHOLDER || tok == INDENTATION then AddSpec(s, FText, tok, pos, code)
    else if tok == EOF then (s, Some(Invalid(EOF)))
    else PushOrdinary(s, pos, tok, code)
  }

  /**
   * The cases of the `Push` switch are distinct constants (Go rejects a
   * switch with duplicate constant cases); the lemmas below that depend on
   * it take it as a hypothesis, since the category tokens are left open.
   */
  predicate PushCasesDistinct() {
    INDENTATION !in {NL, RIGHT, COMMENT, COMMENTS, PLACEHOLDER, EOF}
  }

  /** Every state the file can reach keeps the file node active: `add` moves `Active` only after a RIGHT, which panics first. */
  ghost predicate TopLevel(s: FileState) {
    ValidState(s) && s.active == 0 && s.nodes[0].flag & FFile == FFile
  }

  lemma NewFileIsTopLevel()
    ensures TopLevel(NewFileState())
  {
  }

  /** `Push` keeps the file node active and its FFile bit. */
  lemma PushKeepsTopLevel(s: FileState, pos: int, tok: Token, code: string)
    requires TopLevel(s)
    ensures TopLevel(PushSpec(s, pos, tok, code).0)
  {
    var r := PushSpec(s, pos, tok, code).0;
    FinalKeepsFile(s.nodes[0].flag);
  }

  /**
   * At the top level every token that is not a line break, comment,
   * placeholder or indentation is rejected: the file node is active and
   * `Push` refuses ordinary tokens under a File node. RIGHT and EOF are
   * rejected too. Nothing changes.
   */
  lemma PushAtTopLevelRejects(s: FileState, pos: int, tok: Token, code: string)
    requires TopLevel(s) && PushCasesDistinct()
    requires tok !in {NL, COMMENT, COMMENTS, PLACEHOLDER, INDENTATION}
    ensures PushSpec(s, pos, tok, code) == (s, Some(Invalid(tok)))
  {
    assert Kind(s.nodes[s.active], FFile | FBlock | FText) != 0 by {
      assert s.nodes[0].flag & (FFile | FBlock | FText) != 0;
    }
  }

  /**
   * `Push` refuses RIGHT and EOF, which leave the flag at 0, and any other
   * ordinary token after PLACEHOLDER in the token list, without any change.
   */
  lemma PushRejects(s: FileState, pos: int, tok: Token, code: string)
    requires ValidState(s) && PushCasesDistinct()
    requires tok == RIGHT || tok == EOF || (tok !in {NL, COMMENT, COMMENTS, PLACEHOLDER, INDENTATION} && tok > PLACEHOLDER)
    ensures PushSpec(s, pos, tok, code) == (s, Some(Invalid(tok)))
  {
  }

  /** NL straight after NL becomes an EMPTYLINE Text node (when EMPTYLINE is a token `add` accepts). */
  lemma PushNewlineAfterNewline(s: FileState, pos: int, code: string)
    requires ValidState(s) && s.nodes[s.last].tok == NL
    requires EMPTYLINE <= PLACEHOLDER && EMPTYLINE != RIGHT
    ensures var (r, err) := PushSpec(s, pos, NL, code);
            && err.None?
            && r.nodes == s.nodes + [Node(TextNode, FText | (s.nodes[s.active].flag & StyleMask), EMPTYLINE, |s.nodes|, code, pos, s.active)]
            && r.last == |s.nodes|
  {
    var f := AddedFlag(s, FText, EMPTYLINE);
    assert f == FText | (s.nodes[s.active].flag & StyleMask);
    assert f & 0x7F == FText by {
      assert (s.nodes[s.active].flag & StyleMask) & 0x7F == 0;
    }
    var r := PushSpec(s, pos, NL, code).0;
    assert r.nodes[..|s.nodes|] == s.nodes;
  }

  /** NL after an INDENTATION or EMPTYLINE Text node is merged into it: its source grows and it becomes EMPTYLINE. */
  lemma PushNewlineMerges(s: FileState, pos: int, code: string)
    requires ValidState(s)
    requires s.nodes[s.last].tok != NL && s.nodes[s.last].tok in {INDENTATION, EMPTYLINE}
    requires s.nodes[s.last].kind == TextNode
    ensures var (r, err) := PushSpec(s, pos, NL, code);
            && err.None?
            && |r.nodes| == |s.nodes| && r.last == s.last && r.active == s.active && r.expecting == s.expecting
            && r.nodes[s.last] == s.nodes[s.last].(source := s.nodes[s.last].source + code, tok := EMPTYLINE)
            && forall k :: 0 <= k < |s.nodes| && k != s.last ==> r.nodes[k] == s.nodes[k]
  {
  }

  /**
   * A comment after an EMPTYLINE or PLACEHOLDER node becomes a PLACEHOLDER
   * Text node. Any other comment becomes a COMMENT node, which `add`
   * refuses because COMMENT comes after PLACEHOLDER in the token list.
   */
  lemma PushComment(s: FileState, pos: int, tok: Token, code: string)
    requires ValidState(s) && (tok == COMMENT || tok == COMMENTS)
    ensures var (r, err) := PushSpec(s, pos, tok, code);
            if s.nodes[s.last].tok == EMPTYLINE || s.nodes[s.last].tok == PLACEHOLDER then
              && err.None?
              && |r.nodes| == |s.nodes| + 1 && r.last == |s.nodes|
              && r.nodes[|s.nodes|].tok == PLACEHOLDER && r.nodes[|s.nodes|].kind == TextNode
              && r.nodes[..|s.nodes|] == s.nodes
            else
              r == s && err == Some(InvalidBase)
  {
    var t := if s.nodes[s.last].tok == EMPTYLINE || s.nodes[s.last].tok == PLACEHOLDER then PLACEHOLDER else COMMENT;
    var f := AddedFlag(s, FText, t);
    assert f & 0x7F == FText by {
      assert (s.nodes[s.active].flag & StyleMask) & 0x7F == 0;
    }
    AddSpecFacts(s, FText, t, pos, code);
    var r := AddSpec(s, FText, t, pos, code).0;
    assert r.nodes[s.active] == s.nodes[s.active];
    if t == PLACEHOLDER {
      assert r.nodes[..|s.nodes|] == s.nodes;
    }
  }

  /**
   * A line break that is neither merged nor after another line break
   * becomes an NL node, which `add` refuses because NL comes after
   * PLACEHOLDER in the token list; the active node stays finalized when the
   * line closed it.
   */
  lemma PushNewlineRejected(s: FileState, pos: int, code: string)
    requires ValidState(s)
    requires s.nodes[s.last].tok !in {NL, INDENTATION, EMPTYLINE}
    ensures var (r, err) := PushSpec(s, pos, NL, code);
            && err == Some(InvalidBase)
            && r == (if ClosesLine(s.nodes[s.active].tok) then FinalAt(s, s.active) else s)
  {
  }

  /** The previous visible node before index `j` inclusive: the nearest one, above the file node, whose token is at most IDENT. */
  function Back(nodes: seq<Node>, j: nat): (r: Option<nat>)
    requires j < |nodes|
    ensures r.Some? ==> 0 < r.value <= j && nodes[r.value].tok <= IDENT
    ensures forall k :: (if r.Some? then r.value else 0) < k <= j ==> nodes[k].tok > IDENT
  {
    if j == 0 then None else if nodes[j].tok <= IDENT then Some(j) else Back(nodes, j - 1)
  }

  /** `Prev` of node `i` as its comment describes it: the previous node that is not a placeholder, comment or line break. */
  function PrevSpec(nodes: seq<Node>, i: nat): (r: Option<nat>)
    requires i < |nodes|
    ensures r.Some? ==> 0 < r.value < i && nodes[r.value].tok <= IDENT
    ensures forall k :: (if r.Some? then r.value else 0) < k < i ==> nodes[k].tok > IDENT
  {
    if i == 0 then None else Back(nodes, i - 1)
  }

  /** `Prev` as written: the loop tests the token of the first predecessor on every step. */
  function PrevAsWrittenSpec(nodes: seq<Node>, i: nat): (r: Option<nat>)
    requires i < |nodes|
    ensures r.Some? ==> r == PrevSpec(nodes, i)
  {
    if i == 0 || i - 1 == 0 || nodes[i - 1].tok > IDENT then None else Some(i - 1)
  }

  /** After a placeholder, the source's `Prev` walks past an earlier identifier to the file node. */
  lemma PrevAsWrittenSkipsIdentifier()
    ensures var f := Node(FileNode, FFile, EOF, 0, "", 0, 0);
            var nodes := [f, f.(kind := TextNode, tok := IDENT, index := 1), f.(kind := TextNode, tok := PLACEHOLDER, index := 2), f.(kind := TextNode, tok := NL, index := 3)];
            PrevAsWrittenSpec(nodes, 3) == None && PrevSpec(nodes, 3) == Some(1)
  {
    var f := Node(FileNode, FFile, EOF, 0, "", 0, 0);
    var nodes := [f, f.(kind := TextNode, tok := IDENT, index := 1), f.(kind := TextNode, tok := PLACEHOLDER, index := 2), f.(kind := TextNode, tok := NL, index := 3)];
    assert Back(nodes, 1) == Some(1);
    assert Back(nodes, 2) == Back(nodes, 1);
  }

  class File {
    var nodes: seq<Node>
    var active: nat
    var last: nat
    var expecting: Option<seq<Token>>

    function State(): FileState
      reads this
    {
      FileState(nodes, active, last, expecting)
    }

    ghost predicate Valid()
      reads this
    {
      ValidState(State())
    }

    /** `NewFile`. */
    constructor ()
      ensures State() == NewFileState()
    {
      nodes := [Node(FileNode, FFile, EOF, 0, "", 0, 0)];
      active := 0;
      last := 0;
      expecting := None;
    }

    /** `Len`: the number of nodes, the file node included. */
    function Len(): (n: nat)
      reads this
      requires Valid()
      ensures n >= 1 && n == |State().nodes|
    {
      |nodes|
    }

    /** `Final` of node `i`. */
    method Final(i: nat)
      requires Valid() && i < |nodes|
      modifies this
      ensures State() == FinalAt(old(State()), i)
    {
      nodes := nodes[i := nodes[i].(flag := nodes[i].flag | FFinal)];
    }

    /** `add`. */
    method Add(flag: Flag, tok: Token, pos: int, source: string) returns (err: Option<Error>)
      requires Valid()
      modifies this
      ensures (State(), err) == AddSpec(old(State()), flag, tok, pos, source)
    {
      var closes := false;
      if tok == NL {
        var activeTok := nodes[active].tok;
        if activeTok == RIGHT || activeTok == IDENT || As(activeTok, Literal) {
          Final(active);
          closes := true;
        }
      }
      var index := |nodes|;
      var prev := nodes[active].index;
      var f := MergeFlags(flag, closes, Kind(nodes[active], StyleMask));
      var kind := KindOf(f);
      if kind.None? || tok > PLACEHOLDER {
        return Some(InvalidBase);
      }
      last := |nodes|;
      nodes := nodes + [Node(kind.value, f, tok, index, source, pos, prev)];
      if tok == RIGHT {
        return Some(NilPrev);
      }
      return None;
    }

    /** `Push`. */
    method Push(pos: int, tok: Token, code: string) returns (err: Option<Error>)
      requires Valid()
      modifies this
      ensures (State(), err) == PushSpec(old(State()), pos, tok, code)
    {
      var flag: Flag := 0;
      var t := tok;
      if tok == NL {
        flag := FText;
        var lastTok := nodes[last].tok;
        if lastTok == NL {
          t := EMPTYLINE;
        } else if lastTok == INDENTATION || lastTok == EMPTYLINE {
          var text := nodes[last];
          if text.kind != TextNode {
            return Some(NotText);
          }
          nodes := nodes[last := text.(source := text.source + code, tok := EMPTYLINE)];
          return None;
        } else {
          var activeTok := nodes[active].tok;
          if activeTok == RIGHT || activeTok == IDENT || As(activeTok, Literal) {
            Final(active);
            flag := flag | FFinal;
          }
        }
      } else if tok == RIGHT {
      } else if tok == COMMENT || tok == COMMENTS {
        flag := FText;
        var lastTok := nodes[last].tok;
        t := if lastTok == EMPTYLINE || lastTok == PLACEHOLDER then PLACEHOLDER else COMMENT;
      } else if tok == PLACEHOLDER || tok == INDENTATION {
        flag := FText;
      } else if tok == EOF {
      } else {
        if tok > PLACEHOLDER || Kind(nodes[active], FFile | FBlock | FText) != 0 {
          return Some(Invalid(tok));
        }
        var expected := false;
        if expecting.Some? {
          var a := AstGrammar.RulePass(AstGrammar.Term(expecting.value), tok);
          expected := a.pass;
          expecting := None;
        }
        if expected {
          flag := FText;
        } else {
          var res := Resolve(nodes[active], tok);
          if res.expecting.Some? {
            expecting := res.expecting;
          }
          if res.flag == 0 {
            return Some(Invalid(tok));
          }
          err := Add(res.flag, tok, pos, code);
          return;
        }
      }
      if flag == 0 {
        return Some(Invalid(t));
      }
      err := Add(flag, t, pos, code);
    }

    /** `Prev` of node `i`, walking back over placeholders, comments and line breaks. */
    method Prev(i: nat) returns (p: Option<nat>)
      requires Valid() && i < |nodes|
      ensures p == PrevSpec(nodes, i)
    {
      if i == 0 {
        return None;
      }
      var n := i - 1;
      while n > 0 && nodes[n].tok > IDENT
        invariant 0 <= n < i
        invariant Back(nodes, n) == Back(nodes, i - 1)
      {
        n := nodes[n].index - 1;
      }
      if n == 0 {
        return None;
      }
      return Some(n);
    }

    /** `Prev` of node `i` as written, with the token read once before the loop. */
    method PrevAsWritten(i: nat) returns (p: Option<nat>)
      requires Valid() && i < |nodes|
      ensures p == PrevAsWrittenSpec(nodes, i)
    {
      if i == 0 {
        return None;
      }
      var n := i - 1;
      var tok := nodes[n].tok;
      while n > 0 && tok > IDENT
        invariant 0 <= n < i
        invariant tok > IDENT ==> n <= i - 1
        invariant tok <= IDENT ==> n == i - 1
      {
        n := nodes[n].index - 1;
      }
      if n == 0 {
        return None;
      }
      return Some(n);
    }
  }

  lemma FinalKeepsFile(x: Flag)
    ensures (x | FFinal) & FFile == x & FFile
  {
  }

}

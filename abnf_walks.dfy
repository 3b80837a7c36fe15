/**
 * The step-by-step walks of the rule engine's package tests, proved on the
 * model: each grammar is the arena its constructors build, fed the test's
 * tokens one `Match` at a time. The token relation `Has` is left
 * uninterpreted, so each walk assumes, as requirements, the few `Has`
 * facts about the tokens it uses.
 */
module AbnfWalks {
  import opened Wrappers
  import opened Tokens
  import opened Abnf
  import opened AbnfProps

  // ------------------------------------------------------------------
  // More(Term(Type), Term(COMMA))

  /** `More(Term(Type), Term(COMMA))` with the flag word `f` on the More node, handle 2. */
  function MoreArena(f: Flag): (a: seq<Node>)
    ensures |a| == 3 && a[2].rule == MoreRule(0, 1) && a[2].flag == f
  {
    [Abnf.Fresh(TermRule(Some([Type]))), Abnf.Fresh(TermRule(Some([COMMA]))), Node(MoreRule(0, 1), f, None, 0)]
  }

  /** A token of the rule's Term moves the More node to Standing and answers M|S. */
  lemma MoreRuleMatches(f: Flag, tok: Token, fuel: nat)
    requires fuel >= 2 && (f == 0 || f == S)
    requires Tokens.Has(Type, tok) && tok != EOF
    ensures Match(MoreArena(f), 2, tok, fuel) == Ok(MoreArena(S), MS)
  {
    var a := MoreArena(f);
    MoreOfTerms(a, 2, tok, fuel);
    assert TermMatch(Some([Type]), tok) == MF;
    assert a[2 := a[2].(flag := S)] == MoreArena(S);
  }

  /** After a match, a token of the separator's Term only answers M. */
  lemma MoreSepMatches(tok: Token, fuel: nat)
    requires fuel >= 2
    requires !Tokens.Has(Type, tok) && Tokens.Has(COMMA, tok) && tok != EOF
    ensures Match(MoreArena(S), 2, tok, fuel) == Ok(MoreArena(S), M)
  {
    var a := MoreArena(S);
    MoreOfTerms(a, 2, tok, fuel);
    assert TermMatch(Some([Type]), tok) == 0 && TermMatch(Some([COMMA]), tok) == MF;
    assert a[2 := a[2].(flag := S)] == a;
  }

  /** A token of neither Term ends the repetition with Finished after a match, and answers 0 otherwise. */
  lemma MoreNoMatch(f: Flag, tok: Token, fuel: nat)
    requires fuel >= 2 && (f == 0 || f == S)
    requires !Tokens.Has(Type, tok) && !Tokens.Has(COMMA, tok) && tok != EOF
    ensures Match(MoreArena(f), 2, tok, fuel) == Ok(MoreArena(0), if f == S then F else 0)
  {
    var a := MoreArena(f);
    MoreOfTerms(a, 2, tok, fuel);
    assert TermMatch(Some([Type]), tok) == 0 && TermMatch(Some([COMMA]), tok) == 0;
    assert a[2 := a[2].(flag := 0)] == MoreArena(0);
  }

  /** EOF resets the More node and answers Finished. */
  lemma MoreEof(f: Flag, fuel: nat)
    requires fuel >= 2 && (f == 0 || f == S)
    ensures Match(MoreArena(f), 2, EOF, fuel) == Ok(MoreArena(0), F)
  {
    var a := MoreArena(f);
    MoreOfTerms(a, 2, EOF, fuel);
    assert a[2 := a[2].(flag := 0)] == MoreArena(0);
  }

  /** abnf_test.go, TestMore, first walk: INT, COMMA, BOOL, COMMA, NAN, NAN, EOF answer M|S, M, M|S, M, F, 0, F. */
  lemma MoreWalk(fuel: nat)
    requires fuel >= 2
    requires Tokens.Has(Type, INT) && Tokens.Has(Type, BOOL) && Tokens.Has(COMMA, COMMA)
    requires !Tokens.Has(Type, COMMA) && !Tokens.Has(Type, NAN) && !Tokens.Has(COMMA, NAN)
    requires INT != EOF && BOOL != EOF && NAN != EOF
    ensures Feed(MoreArena(0), 2, [INT, COMMA, BOOL, COMMA, NAN, NAN, EOF], fuel)
            == Ok(MoreArena(0), [MS, M, MS, M, F, 0, F])
  {
    var a0, aS := MoreArena(0), MoreArena(S);
    MoreRuleMatches(0, INT, fuel);
    MoreSepMatches(COMMA, fuel);
    MoreRuleMatches(S, BOOL, fuel);
    MoreNoMatch(S, NAN, fuel);
    MoreNoMatch(0, NAN, fuel);
    MoreEof(0, fuel);
    FeedWalk([a0, aS, aS, aS, aS, a0, a0, a0], 2, [INT, COMMA, BOOL, COMMA, NAN, NAN, EOF], [MS, M, MS, M, F, 0, F], fuel);
  }

  // ------------------------------------------------------------------
  // Seq(Term(FUNC), Term(IDENT), Term(OUT), Term(INT), Term(BOOL))

  /** The token of the Term at index `i` of the Seq below. */
  function SeqTok(i: nat): Token
    requires i < 5
  {
    [FUNC, IDENT, OUT, INT, BOOL][i]
  }

  /** `Seq(Term(FUNC), Term(IDENT), Term(OUT), Term(INT), Term(BOOL))` at position `p`, the Seq node at handle 5. */
  function SeqArena(p: nat): (a: seq<Node>)
    ensures |a| == 6 && a[5].rule == SeqRule([0, 1, 2, 3, 4], 5) && a[5].pos == p
  {
    [Abnf.Fresh(TermRule(Some([FUNC]))), Abnf.Fresh(TermRule(Some([IDENT]))), Abnf.Fresh(TermRule(Some([OUT]))),
     Abnf.Fresh(TermRule(Some([INT]))), Abnf.Fresh(TermRule(Some([BOOL]))), Node(SeqRule([0, 1, 2, 3, 4], 5), 0, None, p)]
  }

  /** One call of `Match` on the Seq: the Term at the position decides, as `SeqOfTerms` states. */
  lemma SeqArenaStep(p: nat, tok: Token, fuel: nat)
    requires fuel >= 2 && p <= 5 && tok != EOF
    ensures var q := if p >= 5 then 0 else p;
            Match(SeqArena(p), 5, tok, fuel) ==
              if Tokens.Has(SeqTok(q), tok) then Ok(SeqArena(q + 1), if q + 1 < 5 then M else MF)
              else Ok(SeqArena(0), 0)
  {
    var a := SeqArena(p);
    var rs: seq<Handle> := [0, 1, 2, 3, 4];
    assert TermsOnly(a, rs);
    SeqOfTerms(a, 5, tok, fuel);
    var q := if p >= 5 then 0 else p;
    assert TermToks(a, rs[q]) == [SeqTok(q)];
    assert Listed([SeqTok(q)], tok) == Tokens.Has(SeqTok(q), tok);
    assert a[5 := a[5].(pos := q + 1)] == SeqArena(q + 1);
    assert a[5 := a[5].(pos := 0)] == SeqArena(0);
  }

  /** EOF resets the Seq to position 0 and answers Finished. */
  lemma SeqArenaEof(p: nat, fuel: nat)
    requires fuel >= 2
    ensures Match(SeqArena(p), 5, EOF, fuel) == Ok(SeqArena(0), F)
  {
    var a := SeqArena(p);
    assert TermsOnly(a, [0, 1, 2, 3, 4]);
    SeqOfTermsEof(a, 5, fuel);
    assert a[5 := a[5].(pos := 0)] == SeqArena(0);
  }

  /** abnf_test.go, TestSeq, first walk: FUNC, IDENT, OUT, INT, BOOL, NAN, EOF answer M, M, M, M, M|F, 0, F. */
  lemma SeqWalk(fuel: nat)
    requires fuel >= 2
    requires Tokens.Has(FUNC, FUNC) && Tokens.Has(IDENT, IDENT) && Tokens.Has(OUT, OUT)
    requires Tokens.Has(INT, INT) && Tokens.Has(BOOL, BOOL) && !Tokens.Has(FUNC, NAN)
    requires INT != EOF && BOOL != EOF && NAN != EOF
    ensures Feed(SeqArena(0), 5, [FUNC, IDENT, OUT, INT, BOOL, NAN, EOF], fuel)
            == Ok(SeqArena(0), [M, M, M, M, MF, 0, F])
  {
    SeqArenaStep(0, FUNC, fuel);
    SeqArenaStep(1, IDENT, fuel);
    SeqArenaStep(2, OUT, fuel);
    SeqArenaStep(3, INT, fuel);
    SeqArenaStep(4, BOOL, fuel);
    SeqArenaStep(5, NAN, fuel);
    SeqArenaEof(0, fuel);
    FeedWalk([SeqArena(0), SeqArena(1), SeqArena(2), SeqArena(3), SeqArena(4), SeqArena(5), SeqArena(0), SeqArena(0)],
             5, [FUNC, IDENT, OUT, INT, BOOL, NAN, EOF], [M, M, M, M, MF, 0, F], fuel);
  }

  // ------------------------------------------------------------------
  // Once(Seq(Term(Type), Term(COMMA)))

  /** `Once(Seq(Term(Type), Term(COMMA)))`: the Seq (handle 2) at position `sp`, the Once (handle 3) with flag word `f`. */
  function OnceArena(sp: nat, f: Flag): (a: seq<Node>)
    ensures |a| == 4 && a[2].rule == SeqRule([0, 1], 2) && a[3].rule == OnceRule(2) && a[3].flag == f
  {
    [Abnf.Fresh(TermRule(Some([Type]))), Abnf.Fresh(TermRule(Some([COMMA]))),
     Node(SeqRule([0, 1], 2), 0, None, sp), Node(OnceRule(2), f, None, 0)]
  }

  /** The Seq inside the Once, while the Once is Handing, after a token at position `sp`. */
  lemma OnceInner(sp: nat, tok: Token, fuel: nat)
    requires fuel >= 2 && sp < 2 && tok != EOF
    requires Tokens.Has(if sp == 0 then Type else COMMA, tok)
    ensures Match(OnceArena(sp, Handing), 2, tok, fuel) == Ok(OnceArena(sp + 1, Handing), if sp == 0 then M else MF)
  {
    var a := OnceArena(sp, Handing);
    var rs: seq<Handle> := [0, 1];
    assert TermsOnly(a, rs);
    SeqOfTerms(a, 2, tok, fuel);
    assert TermToks(a, rs[sp]) == [if sp == 0 then Type else COMMA];
    assert a[2 := a[2].(pos := sp + 1)] == OnceArena(sp + 1, Handing);
  }

  /** The first token of the Seq: the Once answers M and stays open. */
  lemma OnceFirst(tok: Token, fuel: nat)
    requires fuel >= 3 && tok != EOF && Tokens.Has(Type, tok)
    ensures Match(OnceArena(0, 0), 3, tok, fuel) == Ok(OnceArena(1, 0), M)
  {
    var a := OnceArena(0, 0);
    OnceInner(0, tok, fuel - 1);
    assert SetFlag(a, 3, a[3].flag + Handing) == OnceArena(0, Handing);
    OnceRemembers(a, 3, tok, fuel);
    assert SetFlag(OnceArena(1, Handing), 3, Handing - Handing) == OnceArena(1, 0);
  }

  /** The last token of the Seq: the Once answers M|F and is finished. */
  lemma OnceSecond(tok: Token, fuel: nat)
    requires fuel >= 3 && tok != EOF && Tokens.Has(COMMA, tok)
    ensures Match(OnceArena(1, 0), 3, tok, fuel) == Ok(OnceArena(2, F), MF)
  {
    var a := OnceArena(1, 0);
    OnceInner(1, tok, fuel - 1);
    assert SetFlag(a, 3, a[3].flag + Handing) == OnceArena(1, Handing);
    OnceRemembers(a, 3, tok, fuel);
    assert SetFlag(OnceArena(2, Handing), 3, F) == OnceArena(2, F);
  }

  /** Finished, the Once answers Finished to any token but EOF. */
  lemma OnceDoneStep(tok: Token, fuel: nat)
    requires fuel >= 3 && tok != EOF
    ensures Match(OnceArena(2, F), 3, tok, fuel) == Ok(OnceArena(2, F), F)
  {
    OnceSticky(OnceArena(2, F), 3, tok, fuel);
  }

  /** EOF resets the finished Once and its Seq. */
  lemma OnceEofStep(fuel: nat)
    requires fuel >= 3
    ensures Match(OnceArena(2, F), 3, EOF, fuel) == Ok(OnceArena(0, 0), F)
  {
    var a := OnceArena(2, F);
    assert TermsOnly(a, [0, 1]);
    SeqOfTermsEof(a, 2, fuel - 1);
    assert a[2 := a[2].(pos := 0)] == OnceArena(0, F);
    OnceReset(a, 3, fuel);
    assert SetFlag(OnceArena(0, F), 3, 0) == OnceArena(0, 0);
  }

  /** abnf_test.go, TestOnce: INT, COMMA, BOOL, EOF, BOOL, COMMA, NAN, NAN, EOF answer M, M|F, F, F, M, M|F, F, F, F. */
  lemma OnceWalk(fuel: nat)
    requires fuel >= 3
    requires Tokens.Has(Type, INT) && Tokens.Has(Type, BOOL) && Tokens.Has(COMMA, COMMA)
    requires INT != EOF && BOOL != EOF && NAN != EOF
    ensures Feed(OnceArena(0, 0), 3, [INT, COMMA, BOOL, EOF, BOOL, COMMA, NAN, NAN, EOF], fuel)
            == Ok(OnceArena(0, 0), [M, MF, F, F, M, MF, F, F, F])
  {
    var a00, a10, a2F := OnceArena(0, 0), OnceArena(1, 0), OnceArena(2, F);
    OnceFirst(INT, fuel);
    OnceSecond(COMMA, fuel);
    OnceDoneStep(BOOL, fuel);
    OnceEofStep(fuel);
    OnceFirst(BOOL, fuel);
    OnceDoneStep(NAN, fuel);
    FeedWalk([a00, a10, a2F, a2F, a00, a10, a2F, a2F, a2F, a00], 3,
             [INT, COMMA, BOOL, EOF, BOOL, COMMA, NAN, NAN, EOF], [M, MF, F, F, M, MF, F, F, F], fuel);
  }

  // ------------------------------------------------------------------
  // Option(Term(IDENT))

  /** `Option(Term(IDENT))`, the Option node at handle 1. */
  function OptionArena(): (a: seq<Node>)
    ensures |a| == 2 && a[1].rule == OptionRule(0) && a[1].flag == 0
  {
    [Abnf.Fresh(TermRule(Some([IDENT]))), Abnf.Fresh(OptionRule(0))]
  }

  /** abnf_test.go, TestOption, first walk: USE, IDENT, NAN, EOF, IDENT, IDENT, NAN, EOF answer F, M|F, F, F, M|F, M|F, F, F. */
  lemma OptionWalk(fuel: nat)
    requires fuel >= 2
    requires Tokens.Has(IDENT, IDENT) && !Tokens.Has(IDENT, USE) && !Tokens.Has(IDENT, NAN) && NAN != EOF
    ensures Feed(OptionArena(), 1, [USE, IDENT, NAN, EOF, IDENT, IDENT, NAN, EOF], fuel)
            == Ok(OptionArena(), [F, MF, F, F, MF, MF, F, F])
  {
    var a := OptionArena();
    OptionOfTerm(a, 1, USE, fuel);
    OptionOfTerm(a, 1, IDENT, fuel);
    OptionOfTerm(a, 1, NAN, fuel);
    OptionOfTerm(a, 1, EOF, fuel);
    assert TermMatch(Some([IDENT]), IDENT) == MF;
    assert TermMatch(Some([IDENT]), USE) == 0 && TermMatch(Some([IDENT]), NAN) == 0;
    FeedWalk([a, a, a, a, a, a, a, a, a], 1, [USE, IDENT, NAN, EOF, IDENT, IDENT, NAN, EOF], [F, MF, F, F, MF, MF, F, F], fuel);
  }

  // ------------------------------------------------------------------
  // Seq(Term(FUNC), Term(IDENT), Option(Term(OUT)), Option(Term(INT)))

  /**
   * `Seq(Term(FUNC), Term(IDENT), Option(Term(OUT)), Option(Term(INT)))` at
   * position `p`, the Seq node at handle 6. Its `opt` is 2, the one `Seq`
   * computes: both Options are optional, the Term before them is not.
   */
  function SeqOptArena(p: nat): (a: seq<Node>)
    ensures |a| == 7 && a[6].rule == SeqRule([0, 1, 3, 5], 2) && a[6].pos == p
    ensures OptOf(a, [0, 1, 3, 5], 1) == Some(2)
  {
    var a := [Abnf.Fresh(TermRule(Some([FUNC]))), Abnf.Fresh(TermRule(Some([IDENT]))), Abnf.Fresh(TermRule(Some([OUT]))),
              Abnf.Fresh(OptionRule(2)), Abnf.Fresh(TermRule(Some([INT]))), Abnf.Fresh(OptionRule(4)),
              Node(SeqRule([0, 1, 3, 5], 2), 0, None, p)];
    assert IsOption(a, 5, 1) == Some(true) && IsOption(a, 3, 1) == Some(true) && IsOption(a, 1, 1) == Some(false);
    var rs: seq<Handle> := [0, 1, 3, 5];
    assert rs[1] == 1 && rs[2] == 3 && rs[3] == 5;
    assert OptFrom(a, rs, 2, 1) == Some(2);
    assert OptFrom(a, rs, 3, 1) == Some(2);
    assert OptFrom(a, rs, 4, 1) == Some(2);
    a
  }

  /** The two required Terms: FUNC answers M, IDENT answers M|S since only optional sub-rules follow. */
  lemma SeqOptStep(p: nat, tok: Token, fuel: nat)
    requires fuel >= 2 && p < 2 && tok != EOF
    requires Tokens.Has(if p == 0 then FUNC else IDENT, tok)
    ensures Match(SeqOptArena(p), 6, tok, fuel) == Ok(SeqOptArena(p + 1), if p == 0 then M else MS)
  {
    var rs: seq<Handle> := [0, 1, 3, 5];
    var a0 := SetPos(SeqOptArena(p), 6, p, Handing);
    TermStateless(a0, p, tok, fuel - 1);
    assert TermMatch(a0[p].rule.toks, tok) == MF;
    assert Match(SeqOptArena(p), 6, tok, fuel) == SeqLoop(a0, 6, rs, 2, p, tok, 0, fuel - 1);
    assert SeqLoop(a0, 6, rs, 2, p, tok, 0, fuel - 1) == SeqSettle(a0, 6, rs, 2, p, MF);
    assert SetPos(a0, 6, p + 1, Handing - Handing) == SeqOptArena(p + 1);
  }

  /** A token neither Option lists: both answer Finished, and so does the Seq, past its last sub-rule. */
  lemma SeqOptSkips(tok: Token, fuel: nat)
    requires fuel >= 3 && tok != EOF && !Tokens.Has(OUT, tok) && !Tokens.Has(INT, tok)
    ensures Match(SeqOptArena(2), 6, tok, fuel) == Ok(SeqOptArena(4), F)
  {
    var a0 := SetPos(SeqOptArena(2), 6, 2, Handing);
    var rs: seq<Handle> := [0, 1, 3, 5];
    var b2, b3 := a0[6 := a0[6].(pos := 2)], a0[6 := a0[6].(pos := 3)];
    OptionOfTerm(b2, 3, tok, fuel - 1);
    assert TermMatch(Some([OUT]), tok) == 0;
    OptionOfTerm(b3, 5, tok, fuel - 1);
    assert TermMatch(Some([INT]), tok) == 0;
    assert forall j :: 2 <= j < 4 ==> a0[6 := a0[6].(pos := j)] == if j == 2 then b2 else b3;
    SeqSkipsFinished(a0, 6, rs, 2, 2, 4, tok, 0, fuel - 1);
    assert Match(SeqOptArena(2), 6, tok, fuel) == SeqLoop(a0, 6, rs, 2, 2, tok, 0, fuel - 1);
    assert a0[6 := a0[6].(pos := 4, flag := 0)] == SeqOptArena(4);
  }

  /** abnf_test.go, TestSeq, second walk: FUNC, IDENT, SPACES answer M, M|S, F. */
  lemma SeqOptionalWalk(fuel: nat)
    requires fuel >= 3
    requires Tokens.Has(FUNC, FUNC) && Tokens.Has(IDENT, IDENT)
    requires !Tokens.Has(OUT, SPACES) && !Tokens.Has(INT, SPACES)
    ensures Feed(SeqOptArena(0), 6, [FUNC, IDENT, SPACES], fuel) == Ok(SeqOptArena(4), [M, MS, F])
  {
    SeqOptStep(0, FUNC, fuel);
    SeqOptStep(1, IDENT, fuel);
    SeqOptSkips(SPACES, fuel);
    FeedWalk([SeqOptArena(0), SeqOptArena(1), SeqOptArena(2), SeqOptArena(4)], 6, [FUNC, IDENT, SPACES], [M, MS, F], fuel);
  }

  // ------------------------------------------------------------------
  // Seq(Term(USE), Option(Term(IDENT)), Term(VALSTRING))

  /**
   * `Seq(Term(USE), Option(Term(IDENT)), Term(VALSTRING))` at position `p`,
   * the Seq node at handle 4. Its last sub-rule is required, so `opt` is 3.
   */
  function UseArena(p: nat): (a: seq<Node>)
    ensures |a| == 5 && a[4].rule == SeqRule([0, 2, 3], 3) && a[4].pos == p
    ensures OptOf(a, [0, 2, 3], 1) == Some(3)
  {
    [Abnf.Fresh(TermRule(Some([USE]))), Abnf.Fresh(TermRule(Some([IDENT]))), Abnf.Fresh(OptionRule(1)),
     Abnf.Fresh(TermRule(Some([VALSTRING]))), Node(SeqRule([0, 2, 3], 3), 0, None, p)]
  }

  /** The Terms of the Seq: USE at position 0 answers M, VALSTRING at position 2 completes it with M|F. */
  lemma UseTerm(p: nat, tok: Token, fuel: nat)
    requires fuel >= 2 && (p == 0 || p == 2) && tok != EOF
    requires Tokens.Has(if p == 0 then USE else VALSTRING, tok)
    ensures Match(UseArena(p), 4, tok, fuel) == Ok(UseArena(p + 1), if p == 0 then M else MF)
  {
    var rs: seq<Handle> := [0, 2, 3];
    var a0 := SetPos(UseArena(p), 4, p, Handing);
    TermStateless(a0, rs[p], tok, fuel - 1);
    assert TermMatch(a0[rs[p]].rule.toks, tok) == MF;
    assert Match(UseArena(p), 4, tok, fuel) == SeqLoop(a0, 4, rs, 3, p, tok, 0, fuel - 1);
    assert SeqLoop(a0, 4, rs, 3, p, tok, 0, fuel - 1) == SeqSettle(a0, 4, rs, 3, p, MF);
    assert SetPos(a0, 4, p + 1, Handing - Handing) == UseArena(p + 1);
  }

  /** The Option given its token answers M|F; the Seq moves on and answers M, VALSTRING being still required. */
  lemma UseOption(tok: Token, fuel: nat)
    requires fuel >= 3 && tok != EOF && Tokens.Has(IDENT, tok)
    ensures Match(UseArena(1), 4, tok, fuel) == Ok(UseArena(2), M)
  {
    var rs: seq<Handle> := [0, 2, 3];
    var a0 := SetPos(UseArena(1), 4, 1, Handing);
    OptionOfTerm(a0, 2, tok, fuel - 1);
    assert TermMatch(Some([IDENT]), tok) == MF;
    assert Match(UseArena(1), 4, tok, fuel) == SeqLoop(a0, 4, rs, 3, 1, tok, 0, fuel - 1);
    assert SeqLoop(a0, 4, rs, 3, 1, tok, 0, fuel - 1) == SeqSettle(a0, 4, rs, 3, 1, MF);
    assert SetPos(a0, 4, 2, Handing - Handing) == UseArena(2);
  }

  /** The Option skipped: it answers Finished to VALSTRING, which the Seq hands on to its last Term, completing the match. */
  lemma UseSkipsOption(tok: Token, fuel: nat)
    requires fuel >= 3 && tok != EOF && !Tokens.Has(IDENT, tok) && Tokens.Has(VALSTRING, tok)
    ensures Match(UseArena(1), 4, tok, fuel) == Ok(UseArena(3), MF)
  {
    var rs: seq<Handle> := [0, 2, 3];
    var a0 := SetPos(UseArena(1), 4, 1, Handing);
    OptionOfTerm(a0, 2, tok, fuel - 1);
    assert TermMatch(Some([IDENT]), tok) == 0;
    assert a0[4 := a0[4].(pos := 1)] == a0;
    SeqSkipsFinished(a0, 4, rs, 3, 1, 2, tok, 0, fuel - 1);
    var a2 := a0[4 := a0[4].(pos := 2)];
    TermStateless(a2, 3, tok, fuel - 1);
    assert TermMatch(Some([VALSTRING]), tok) == MF;
    assert Match(UseArena(1), 4, tok, fuel) == SeqLoop(a0, 4, rs, 3, 1, tok, 0, fuel - 1);
    assert SeqLoop(a2, 4, rs, 3, 2, tok, F, fuel - 1) == SeqSettle(a2, 4, rs, 3, 2, MF);
    assert SetPos(a2, 4, 3, Handing - Handing) == UseArena(3);
  }

  /** After the match, a token the first Term does not list starts over at position 0 and answers 0. */
  lemma UseRestartFails(tok: Token, fuel: nat)
    requires fuel >= 2 && tok != EOF && !Tokens.Has(USE, tok)
    ensures Match(UseArena(3), 4, tok, fuel) == Ok(UseArena(0), 0)
  {
    var rs: seq<Handle> := [0, 2, 3];
    var a0 := SetPos(UseArena(3), 4, 0, Handing);
    TermStateless(a0, 0, tok, fuel - 1);
    assert TermMatch(Some([USE]), tok) == 0;
    assert Match(UseArena(3), 4, tok, fuel) == SeqLoop(a0, 4, rs, 3, 0, tok, 0, fuel - 1);
    assert SeqLoop(a0, 4, rs, 3, 0, tok, 0, fuel - 1) == SeqSettle(a0, 4, rs, 3, 0, 0);
    assert SetPos(a0, 4, 0, Handing - Handing) == UseArena(0);
  }

  /** EOF at position 0 resets the Seq and answers Finished. */
  lemma UseEof(fuel: nat)
    requires fuel >= 2
    ensures Match(UseArena(0), 4, EOF, fuel) == Ok(UseArena(0), F)
  {
    var rs: seq<Handle> := [0, 2, 3];
    var a0 := SetPos(UseArena(0), 4, 0, Handing);
    TermStateless(a0, 0, EOF, fuel - 1);
    assert Match(UseArena(0), 4, EOF, fuel) == SeqLoop(a0, 4, rs, 3, 0, EOF, 0, fuel - 1);
    var a2 := SetFlag(a0, 4, 0);
    assert Eof(a0, 4, fuel - 1) == Ok(a2, 0);
    assert SetPos(a2, 4, 0, a2[4].flag) == UseArena(0);
  }

  /**
   * abnf_test.go, TestOption, second walk: USE, IDENT, VALSTRING, NAN, EOF,
   * USE, VALSTRING, NAN, EOF answer M, M, M|F, 0, F, M, M|F, 0, F.
   */
  lemma UseWalk(fuel: nat)
    requires fuel >= 3
    requires Tokens.Has(USE, USE) && Tokens.Has(IDENT, IDENT) && Tokens.Has(VALSTRING, VALSTRING)
    requires !Tokens.Has(IDENT, VALSTRING) && !Tokens.Has(USE, NAN)
    requires VALSTRING != EOF && NAN != EOF
    ensures Feed(UseArena(0), 4, [USE, IDENT, VALSTRING, NAN, EOF, USE, VALSTRING, NAN, EOF], fuel)
            == Ok(UseArena(0), [M, M, MF, 0, F, M, MF, 0, F])
  {
    UseTerm(0, USE, fuel);
    UseOption(IDENT, fuel);
    UseTerm(2, VALSTRING, fuel);
    UseRestartFails(NAN, fuel);
    UseEof(fuel);
    UseSkipsOption(VALSTRING, fuel);
    FeedWalk([UseArena(0), UseArena(1), UseArena(2), UseArena(3), UseArena(0), UseArena(0),
              UseArena(1), UseArena(3), UseArena(0), UseArena(0)], 4,
             [USE, IDENT, VALSTRING, NAN, EOF, USE, VALSTRING, NAN, EOF], [M, M, MF, 0, F, M, MF, 0, F], fuel);
  }
}

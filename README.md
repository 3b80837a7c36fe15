# Zxx front end: rule engine, flat AST, tokens and scanner

A Dafny model of the core of the Zxx language front end:

- **abnf** — the streaming grammar-rule engine. ABNF-style combinators
  (`Term`, `Option`, `Once`, `More`, `Any`, `Seq`; section 4 of RFC 5234)
  each consume at most one token per `Match` call and answer one of five
  flags: `0`, `M`, `M|S`, `M|F`, `F`. Rules live in an arena of nodes
  addressed by handles, so grammars that refer to themselves through `Bind`
  are representable. `Abnf` (abnf.dfy) states every operation as a function
  from the arena to a new arena and a value. `AbnfRules.Grammar`
  (abnf_rules.dfy) is the imperative form: a class whose `nodes` field its
  methods update, each proved to agree with the function. `AbnfProps` and
  `AbnfWalks` prove the behaviour of each combinator and replay some of the
  token walks of the rule tests.
- **ast/grammar.go** — the light rule queue of the AST builder
  (`AstGrammar`, with the `Queue` class).
- **ast/ast.go** — the flat AST: a `File` whose node list `Push` and `add`
  extend, the `resolve` tables, `Prev` (`Ast`, with the `File` class).
- **token** — the token table, `String`, `Precedence`, the `letters` map,
  `Lookup` and the range predicates (`Tokens`), plus the position format
  (`Position`). `Decimal` models the decimal rendering of `strconv.Itoa`
  and `fmt`'s `%d`.
- **scanner** — `New`, `Pos`, `Tail` and `EndString` over a byte buffer
  (`Scanner`, with the `Scanner` class).
- **parser/fast.go** — the rewrite of `TRUE`/`FALSE`/`NAN`/`INFINITE` and
  the classifier of placeholder symbols into numbers, date-times,
  identifiers and member paths (`Fast`).

A Go panic is an error outcome: `Fail` in `Abnf`, `Panicked` in
`AbnfRules`, an `Error` value in `Ast`, or a precondition where the source
documents the input as invalid. Recursion through `Handing` and `next` is
not structurally decreasing, so `Match`, `Clone` and `IsOption` take a
`fuel` argument, and running out of it is the failure `OutOfFuel`.

The category tokens (`Type`, `Literal`, `Declare`, `VALSTRING`, `MEMBER`,
`INT`, `BOOL`, `NAN`, `EMPTYLINE`, `INDENTATION`, …) and the relations
`Token.Has` and `Token.As` are used but not defined by token/token.go. They
are left open: uninterpreted constants and relations. Lemmas that depend on
them take the facts they need as hypotheses.

## Model

| member | source | states |
|---|---|---|
| Tokens.String | token/token.go:194-203 | a token of the table gets its table name; any other gets "token(" + decimal + ")", whose number reads back as the token |
| Tokens.Name | token/token.go:120-191 | the name table holds a non-empty name exactly for the tokens from EOF to NL |
| Tokens.Letters | token/token.go:237-248 | the `letters` map: a string is mapped only when it is the name of a token between EOF and LEFT, or one of the six bracket characters, which map to LEFT or RIGHT |
| Tokens.OperatorLetters | token/token.go:237-241 | an operator's name maps back to that operator (DOLLAR..OR) |
| Tokens.KeywordLetters | token/token.go:237-241 | a keyword's name maps back to that keyword (USE..OUT) |
| Tokens.DelimiterLetters | token/token.go:237-248 | the delimiters from COLON to DEC map by name; "[", "{" and "(" map to LEFT; "]", ")" and "}" map to RIGHT |
| Tokens.Lookup | token/token.go:252-286 | both directions for each answer: EOF iff empty; SPACES or TABS iff the first byte is ' ' or '\t'; a mapped string gives its token; NL iff the first byte is '\n' or '\r'; COMMENT for "//", COMMENTS for "---"; LITERAL for everything else |
| Tokens.LookupAsWritten | token/token.go:268-270 | as written, NL is decided by the first byte being '\n' or the second byte being '\r'; otherwise the same as `Lookup`; a one-byte string that reaches this test is excluded, because the source panics on it |
| Tokens.LookupAsWrittenMissesCRLF | token/token.go:268-270 | "\r\n" is classified as LITERAL as written and as NL when corrected |
| Tokens.LookupString | token/token.go:237-267 | round trip: `Lookup(String(t)) == t` for every EOF < t < LEFT, as written and corrected |
| Tokens.LettersName | token/token.go:237-241 | `init` maps the name of every token between EOF and LEFT to that token |
| Tokens.Precedence | token/token.go:206-233 | 1..11 exactly for operators, 0 for every other token; OR is 1 and DOLLAR is 11, each uniquely |
| Tokens.IsAssign | token/token.go:289-291 | true exactly for the tokens named "=", "++" and "--" |
| Tokens.IsOperator | token/token.go:294 | an operator is never a keyword, and its name maps back to it |
| Tokens.IsKeyword | token/token.go:297 | a keyword's name maps back to it |
| Tokens.IsDeclare | token/token.go:300 | every declaration token is a keyword |
| Decimal.Itoa | token/token.go:200 | a leading '-' exactly for negative numbers, then decimal digits |
| Decimal.ItoaRoundTrip | token/token.go:200 | reading the decimal rendering of n back gives n |
| Decimal.ItoaInjective | token/position.go:37 | different numbers render differently |
| Position.Position.String | token/position.go:32-43 | never empty; "-" for an invalid position without a file name; the file name alone for an invalid position with one; otherwise it is the file name and a colon, if there is a file name, then the decimal line, a colon and the decimal column, and it parses back as (file name, line, column) |
| Position.Position.IsValid | token/position.go:23-24 | a position is valid when its line is known, that is positive; `Position.String` states how each case renders |
| Position.ParseRendered | token/position.go:33-38 | "file:line:column" and "line:column" parse back to their three parts |
| Position.ParseHeadOfFile | token/position.go:34-37 | a file name containing colons is still split off correctly, at the last colon before the line |
| Position.ParseHeadOfLine | token/position.go:37 | the two-part form has an empty file name |
| Position.NoColonInDecimal | token/position.go:37 | a rendered number holds no colon, so colons separate the fields |
| Scanner.LineEnd | scanner/scanner.go:157-159 | the first '\n' or '\r' at or after the offset, or the size; no line break before it |
| Scanner.LineEndIdempotent | scanner/scanner.go:154-161 | a second `Tail` straight after the first stays where it is |
| Scanner.FirstClose | scanner/scanner.go:168-179 | the first quote not escaped by an odd run of backslashes, or the size |
| Scanner.StringEndPlain | scanner/scanner.go:167-181 | `EndString(false)` stops just after the first single quote, or at the end of input |
| Scanner.StringEndEscaped | scanner/scanner.go:170-178 | `EndString(true)` stops just after the first double quote that is not escaped by a backslash |
| Scanner.Scanner.constructor | scanner/scanner.go:20-28 | the offset is 3 exactly when the source starts with the BOM EF BB BF and has more than 2 bytes, and 0 otherwise; the size is the source length |
| Scanner.Scanner.Pos | scanner/scanner.go:30-32 | the current offset, nothing changed |
| Scanner.Scanner.Tail | scanner/scanner.go:154-161 | moves to the line end and returns the bytes passed over, which hold no line break |
| Scanner.Scanner.EndString | scanner/scanner.go:167-181 | moves to the end of the string literal and returns the bytes passed over |
| Scanner.StringEnd | scanner/scanner.go:169-180 | the end offset of the literal: unchanged at the end of the input, otherwise past the start and at most one past the size |
| Fast.LastMarker | parser/fast.go:150-154 | the last '.', 'e', 'T', ':' or 'Z' of the symbol, or -1 when it has none |
| Fast.ScanNumber | parser/fast.go:146-160 | a "0x" or "0b" prefix gives an integer unseen; otherwise a foreign character gives a placeholder, and the last marker chooses float or date-time, none giving an integer |
| Fast.ScanWord | parser/fast.go:161-183 | a character other than letters, digits, '_' and '.' gives a placeholder; otherwise no dot gives IDENT, one gives MEMBER and more give MEMBERS |
| Fast.ClassifyCode | parser/fast.go:134-183 | a lone quote is a string, a leading digit goes to the number scan, anything else to the word scan |
| Fast.Classify | parser/fast.go:132-183 | a string exactly for a lone quote; a number kind only for a leading digit; an identifier or member kind only otherwise |
| Fast.NumberKind | parser/fast.go:146-160 | an integer, float, date-time or placeholder; a placeholder exactly when there is no radix prefix and some character is foreign to numbers |
| Fast.WordKind | parser/fast.go:161-183 | a placeholder, identifier, member or member path; anything but a placeholder consists of word characters and dots; an identifier has no dot |
| Fast.LookupNeverPlaceholder | token/token.go:252-286 | `Lookup` never gives PLACEHOLDER (an unmapped symbol is LITERAL), so the classifier of parser/fast.go:132 is not reached from the token `Lookup` gives |
| Fast.Rewrite | parser/fast.go:128-183 | TRUE and FALSE become VALBOOL, NAN and INFINITE VALFLOAT, a placeholder its classification; any other token is kept |
| Fast.NumberExamples | parser/fast.go:146-160 | sample numbers: radix prefix, float, exponent, date-time, the last marker winning, a stray letter |
| Fast.WordOfDots | parser/fast.go:164-182 | the dot count of a word decides IDENT, MEMBER or MEMBERS |
| Fast.MemberExamples | parser/fast.go:161-183 | sample words: "Files" is an identifier, "a.b" a member |
| Fast.MemberPathExamples | parser/fast.go:161-183 | sample words: "a.b.c" is a member path, "a-b" a placeholder |
| AstGrammar.TermPass | ast/grammar.go:14-21 | (1, true) exactly when some listed token `As` the token, else (0, false) |
| AstGrammar.Pass | ast/grammar.go:23-43 | `zero` always passes, eating 1 exactly when its term passes; `more` passes exactly when its term does and then eats -1; each consults the term (the corrected dispatch) |
| AstGrammar.PassAsWrittenNeverReturns | ast/grammar.go:26-43 | as written, `zero.pass` and `more.pass` never return, however deep the stack |
| AstGrammar.PassAsWritten | ast/grammar.go:26-43 | the recursion of `zero.pass` and `more.pass` as written, bounded by fuel; what it answers is stated by `PassAsWrittenNeverReturns` |
| AstGrammar.QueueLoop | ast/grammar.go:56-70 | the position stays within the rules and never moves back |
| AstGrammar.QueuePass | ast/grammar.go:51-71 | the new position is within the rules; (0, true) leaves it at the end and an eaten token past the rule that ate it; a run not yet finished never moves back |
| AstGrammar.QueueLoopStops | ast/grammar.go:51-71 | one call skips exactly the rules answering (0, true); it stops on a failing rule with `at` on it, passes one eaten token moving `at` past its rule, answers (0, true) with `at` at the end, or spins on a passing `more` |
| AstGrammar.Queue.constructor | ast/grammar.go:46-49 | the rules given, `at` 0 |
| AstGrammar.Queue.Pass | ast/grammar.go:51-71 | `at` and the outcome are those of `QueuePass`, which restarts at the first rule when the last run finished |
| AstGrammar.RulePass | ast/grammar.go:14-43 | the loop over the term's tokens gives the answer `Pass` specifies |
| AstGrammar.Feed | ast/rule_test.go:29-50 | one outcome per token fed |
| AstGrammar.PubQueueAcceptsDeclaration | ast/rule_test.go:10-27 | the queue PUB, VAR, {Type, IDENT}, {IDENT, MEMBER} eats each token of "pub var int a.b" and ends after its last rule |
| Ast.Kind | ast/ast.go:139-144 | the whole flag for mask 0, the masked bits otherwise |
| Ast.NewFileState | ast/ast.go:169-178 | the file node alone, with flag FFile and token EOF, both active and last, nothing expected |
| Ast.KindOf | ast/ast.go:205-216 | a node type exactly when the low seven bits are one of FDeclaration, FChunk, FStatement, FExpression, FText; never a File |
| Ast.FinalAt | ast/ast.go:257-285 | `Final` sets FFinal on that node and changes nothing else |
| Ast.MergeFlags | ast/ast.go:186-203 | the new node's type and style bits are its own together with the active node's style bits; FFinal is set when the line closes the active node |
| Ast.AddSpec | ast/ast.go:183-253 | keeps the file well formed (node i has index i), keeps the active node, appends at most one node |
| Ast.AddSpecFacts | ast/ast.go:183-253 | "invalid Base" exactly when the type bits are not a single node type or the token is after PLACEHOLDER, with nothing appended; otherwise exactly one node with the next index, the active node as `prev` and the merged flag, which becomes `Last`; a RIGHT node then fails on the nil `Prev`; only the active node's FFinal bit changes otherwise |
| Ast.FileResolve | ast/ast.go:388-408 | FDeclaration exactly for the declaration keywords, 0 for every other token |
| Ast.DeclResolve | ast/ast.go:416-504 | the table under each declaration keyword: a chunk exactly after LEFT under USE, CONST, VAR, STATIC or TYPE; a nested declaration only for FUNC or PROC under STATIC, or a declaration keyword under PUB; a final Text only for a string under USE; an expectation whenever a Chunk or plain Text is made |
| Ast.Resolve | ast/ast.go:388-420 | only a File or Decl node resolves a token; a File resolves exactly the declaration keywords, with no expectation |
| Ast.PushSpec | ast/ast.go:291-383 | keeps the file well formed and the active node, appends at most one node |
| Ast.PushOrdinary | ast/ast.go:341-365 | keeps the file well formed and the active node; without an error it appends exactly one node carrying the token; "invalid" leaves the nodes as they were, and a token after PLACEHOLDER is refused outright |
| Ast.NewFileIsTopLevel | ast/ast.go:169-178 | a new file is at the top level: the file node is active |
| Ast.PushKeepsTopLevel | ast/ast.go:291-383 | `Push` keeps the file node active, with its FFile bit |
| Ast.PushAtTopLevelRejects | ast/ast.go:341-344 | at the top level every token other than a line break, comment, placeholder or indentation is refused, with no change |
| Ast.PushRejects | ast/ast.go:326-374 | RIGHT, EOF and ordinary tokens after PLACEHOLDER are refused, with no change |
| Ast.PushNewlineAfterNewline | ast/ast.go:294-301 | NL right after NL appends an EMPTYLINE Text node |
| Ast.PushNewlineMerges | ast/ast.go:304-311 | NL after an INDENTATION or EMPTYLINE Text node grows its source, makes it EMPTYLINE and appends nothing |
| Ast.PushComment | ast/ast.go:327-336 | a comment after EMPTYLINE or PLACEHOLDER appends a PLACEHOLDER Text node; any other comment becomes COMMENT, which `add` refuses |
| Ast.PushNewlineRejected | ast/ast.go:313-322 | any other NL is refused by `add`, leaving the active node finalized when the line closed it |
| Ast.Back | ast/ast.go:155-164 | the nearest node at or before the index, above the file node, whose token is at most IDENT; all nodes passed have later tokens |
| Ast.PrevSpec | ast/ast.go:150-165 | the previous node that is above the file node and has a token at most IDENT, with every node in between having a later token; none when there is no such node |
| Ast.PrevAsWrittenSpec | ast/ast.go:150-165 | as written, `Prev` finds a node only when it is the immediate predecessor, and then agrees with the corrected walk |
| Ast.PrevAsWrittenSkipsIdentifier | ast/ast.go:155-159 | after a placeholder, `Prev` as written misses an earlier identifier that the corrected walk finds |
| Ast.File.constructor | ast/ast.go:169-178 | the state of `NewFileState` |
| Ast.File.Len | ast/ast.go:180 | the number of nodes, the file node included |
| Ast.File.Final | ast/ast.go:257-285 | the new state is `FinalAt` of the old |
| Ast.File.Add | ast/ast.go:183-253 | the new state and the error are those of `AddSpec` |
| Ast.File.Push | ast/ast.go:291-383 | the new state and the error are those of `PushSpec` |
| Ast.File.Prev | ast/ast.go:150-165 | the corrected walk back over nodes after IDENT, as `Back` specifies |
| Ast.File.PrevAsWritten | ast/ast.go:150-165 | the loop as written, which reads the token once, as `PrevAsWrittenSpec` specifies |
| Abnf.Listed | abnf/abnf.go:128-132 | some listed token `Has` the token |
| Abnf.TermMatch | abnf/abnf.go:124-134 | in both directions: F for EOF or the nil list, M\|F when a listed token `Has` the token, 0 otherwise |
| Abnf.AllOption | abnf/abnf.go:410-417 | true only when every rule from i on is optional, false only when one is not |
| Abnf.IsOption | abnf/abnf.go:55-57 | an answer only for a node that exists, with fuel left; Option and `Term()` are optional, any other Term, More and Seq are not, the answer of Once and Any is not stated |
| Abnf.OptFrom | abnf/abnf.go:506-512 | the loop from the end: every rule from the result on is optional, and the rule just before it is not |
| Abnf.OptOf | abnf/abnf.go:502-514 | `opt` is the smallest index from which every rule is optional, `len(rules)` when the last one is not |
| Abnf.Bind | abnf/abnf.go:520-536 | Term refuses; Option, Once and More take the bound rule as their rule (More keeps its separator; abnf/abnf.go:179, 233, 284); Any and Seq refuse a bind while Handing or to a rule of another kind, copy the other rule's sub-rules, and Seq recomputes `opt`; a Seq with sub-rules bound to itself fails as a nil rule; no other node and no flag, `pos` or `next` changes |
| Abnf.LettersFromHas | abnf/abnf.go:99-103 | the letter of a bit appears exactly when the bit is set |
| Abnf.Has | abnf/abnf.go:81-84 | a word that has some bit of a flag is nonzero, and so is the flag |
| Abnf.Must | abnf/abnf.go:86-89 | every word must-have the empty flag; a word that must have a nonzero flag also has it |
| Abnf.FlagString | abnf/abnf.go:91-106 | "0" exactly for the empty flag word |
| Abnf.FlagStringHas | abnf/abnf.go:91-106 | a nonzero word spells the letter of each set bit among M, S, F, H, C and no other |
| Abnf.FlagStringResults | abnf/abnf.go:91-106 | the five answers spell "0", "M", "MS", "MF" and "F" |
| Abnf.Clone | abnf/abnf.go:430-443 | the arena only grows and every existing node is as before; Term, Once and a node being cloned give themselves; any other rule gives a new node of the same shape, whose sub-rules `CloneDeep` relates to the original's |
| Abnf.CloneParts | abnf/abnf.go:180-188 | the copy has the kind, the number of sub-rules and `opt` of the original; existing nodes are kept; what each part of the copy is, is stated by `ClonePartsDeep` |
| Abnf.CloneFrom | abnf/abnf.go:538-550 | one copy per sub-rule; existing nodes are kept; what each copy is, is stated by `CloneFromDeep` |
| Abnf.CloneCopied | abnf/abnf.go:430-443 | what `Clone` gives is the rule itself for a Term, a Once or a rule being cloned, and otherwise a new node of the same shape with a clear state |
| Abnf.CloneFromDeep | abnf/abnf.go:538-550 | the handles the loop appends are, place by place, what cloning each sub-rule gave, and those appended before are kept |
| Abnf.ClonePartsDeep | abnf/abnf.go:180-188 | each part of the copy (the rule of an Option, the rule and separator of a More, each sub-rule of an Any or Seq) is what cloning the original's part at the same place gave |
| Abnf.CloneDeep | abnf/abnf.go:51-53 | the clone is deep: each sub-rule of the copy is a new node of the same shape as the original's sub-rule at that place, or that sub-rule itself when it is a Term, a Once or the rule being cloned, so a reference back to the rule being cloned stays a reference |
| Abnf.Match | abnf/abnf.go:17-45 | every answer is one of 0, M, M\|S, M\|F, F, and the arena only grows |
| Abnf.BaseMatch | abnf/abnf.go:146-155 | a re-entered rule answers one of the five results |
| Abnf.Eof | abnf/abnf.go:157-163 | without a clone, the node's flag word is cleared, nothing else changes and the answer is 0; with one, EOF goes to the clone and the arena only grows |
| Abnf.OptionMatch | abnf/abnf.go:190-212 | one of the five results |
| Abnf.OptionSettle | abnf/abnf.go:199-209 | keeps the arena size; a result in, a result out |
| Abnf.OnceMatch | abnf/abnf.go:236-261 | one of the five results |
| Abnf.OnceDone | abnf/abnf.go:241-248 | a finished Once answers F |
| Abnf.OnceRun | abnf/abnf.go:250-260 | the sub-rule's result is the answer |
| Abnf.OnceSettle | abnf/abnf.go:252-258 | the answer is the sub-rule's result |
| Abnf.MatchSep | abnf/abnf.go:296-326 | one of the five results |
| Abnf.MoreMatch | abnf/abnf.go:328-396 | one of the five results |
| Abnf.MoreBody | abnf/abnf.go:347-395 | one of the five results |
| Abnf.MoreSettle | abnf/abnf.go:372-395 | a result in, a result out |
| Abnf.AnyMatch | abnf/abnf.go:445-493 | one of the five results |
| Abnf.AnyLoop | abnf/abnf.go:454-490 | a result in, a result out |
| Abnf.AnyStep | abnf/abnf.go:455-489 | a result in, a result out |
| Abnf.AnyTurn | abnf/abnf.go:462-489 | a stop keeps the branch; any other turn moves past it, at most to one past the last branch |
| Abnf.SeqMatch | abnf/abnf.go:552-604 | one of the five results; what each sub-rule answer leads to is stated by `SeqSettleAnswers`, `SeqFinishedRetries` and `SeqSkipsFinished` |
| Abnf.SeqLoop | abnf/abnf.go:563-599 | a result in, a result out; a sub-rule answering F moves `pos` on and asks the next one the same token (`SeqFinishedRetries`) |
| Abnf.SeqSettle | abnf/abnf.go:573-601 | keeps the arena size; a result in, a result out |
| AbnfRules.Grammar.constructor | abnf/abnf.go:118-120 | an empty arena |
| AbnfRules.Grammar.NewTerm | abnf/abnf.go:118-120 | appends a fresh Term node and returns its handle |
| AbnfRules.Grammar.NewOption | abnf/abnf.go:171-173 | appends a fresh Option node and returns its handle |
| AbnfRules.Grammar.NewOnce | abnf/abnf.go:225-227 | appends a fresh Once node and returns its handle |
| AbnfRules.Grammar.NewMore | abnf/abnf.go:273-278 | appends a fresh More node; a missing separator becomes a new `Term()` node |
| AbnfRules.Grammar.NewAny | abnf/abnf.go:406-408 | appends a fresh Any node and returns its handle |
| AbnfRules.Grammar.NewSeq | abnf/abnf.go:502-514 | appends a fresh Seq node whose `opt` is `OptOf` of its rules |
| AbnfRules.Grammar.IsOption | abnf/abnf.go:410-417 | the answer of `Abnf.IsOption`, the loop stopping at the first rule that is not optional |
| AbnfRules.Grammar.Bind | abnf/abnf.go:520-536 | the new arena and outcome are those of `Abnf.Bind` |
| AbnfRules.Grammar.Clone | abnf/abnf.go:430-443 | the new arena and outcome are those of `Abnf.Clone` |
| AbnfRules.Grammar.Copy | abnf/abnf.go:538-550 | setting Cloning, copying the parts, appending the copy and clearing Cloning agrees with `Abnf.Clone` |
| AbnfRules.Grammar.CloneParts | abnf/abnf.go:285-293 | the new arena and outcome are those of `Abnf.CloneParts` |
| AbnfRules.Grammar.CloneRules | abnf/abnf.go:544-547 | the loop over the sub-rules agrees with `Abnf.CloneFrom` |
| AbnfRules.Grammar.Match | abnf/abnf.go:17-45 | the new arena and outcome are those of `Abnf.Match` |
| AbnfRules.Grammar.BaseMatch | abnf/abnf.go:146-155 | agrees with `Abnf.BaseMatch` |
| AbnfRules.Grammar.Eof | abnf/abnf.go:157-163 | agrees with `Abnf.Eof` |
| AbnfRules.Grammar.OptionMatch | abnf/abnf.go:190-212 | agrees with `Abnf.OptionMatch` |
| AbnfRules.Grammar.OptionSettle | abnf/abnf.go:199-209 | agrees with `Abnf.OptionSettle` |
| AbnfRules.Grammar.OnceMatch | abnf/abnf.go:236-261 | agrees with `Abnf.OnceMatch` |
| AbnfRules.Grammar.OnceDone | abnf/abnf.go:241-248 | agrees with `Abnf.OnceDone` |
| AbnfRules.Grammar.OnceRun | abnf/abnf.go:250-260 | agrees with `Abnf.OnceRun` |
| AbnfRules.Grammar.OnceSettle | abnf/abnf.go:252-258 | agrees with `Abnf.OnceSettle` |
| AbnfRules.Grammar.MatchSep | abnf/abnf.go:296-326 | agrees with `Abnf.MatchSep` |
| AbnfRules.Grammar.MoreMatch | abnf/abnf.go:328-396 | agrees with `Abnf.MoreMatch` |
| AbnfRules.Grammar.MoreRest | abnf/abnf.go:347-395 | agrees with `Abnf.MoreBody` |
| AbnfRules.Grammar.MoreSettle | abnf/abnf.go:372-395 | agrees with `Abnf.MoreSettle` |
| AbnfRules.Grammar.AnyMatch | abnf/abnf.go:445-493 | the loop over the branches agrees with `Abnf.AnyMatch` |
| AbnfRules.Grammar.SeqMatch | abnf/abnf.go:552-604 | the loop over the sub-rules agrees with `Abnf.SeqMatch` |
| AbnfRules.Grammar.SeqSettle | abnf/abnf.go:573-601 | agrees with `Abnf.SeqSettle` |
| AbnfRules.CloneAgrees | abnf/abnf.go:430-443 | the steps of a clone, put together, give `Abnf.Clone` |
| AbnfProps.Feed | abnf/abnf_test.go:77-81 | one answer per token fed, each one of the five results; the arena only grows |
| AbnfProps.FeedCons | abnf/abnf_test.go:77-81 | feeding a token and then the rest is the answer to the token followed by the answers to the rest |
| AbnfProps.FeedWalk | abnf/abnf_test.go:77-81 | a chain of single matches is a walk of the whole token list |
| AbnfProps.HandingDelegates | abnf/abnf.go:146-155 | a re-entered rule: EOF without a clone clears the flag and answers F; with a clone the clone answers; otherwise a clone of the same shape is made, stored in `next`, and answers |
| AbnfProps.TermStateless | abnf/abnf.go:118-138 | a Term changes nothing and answers `TermMatch`; it is optional exactly for `Term()` |
| AbnfProps.OptionSettleAnswers | abnf/abnf.go:199-209 | every answer but 0 passes through; 0 becomes F exactly when the Option had nothing pending or was Standing; the flag word is 0 after 0, M\|F or F and the answer after M or M\|S |
| AbnfProps.OptionAnswers | abnf/abnf.go:190-212 | an Option not Handing sets Handing, asks its rule and settles on the rule's answer |
| AbnfProps.OptionOfTerm | abnf/abnf.go:190-212 | an idle Option over a Term answers M\|F for a listed token and F for anything else, keeping no state |
| AbnfProps.OptionOfTermFeed | abnf/abnf_test.go:176-191 | fed any tokens, an idle Option over a Term answers each one on its own |
| AbnfProps.SeqOfTerms | abnf/abnf.go:559-599 | an idle Seq over Terms: a listed token moves `pos` on and answers M, or M\|F at the last Term; any other token answers 0 and sends `pos` back to 0 |
| AbnfProps.SeqOfTermsEof | abnf/abnf.go:567-571 | EOF resets an idle Seq over Terms to `pos` 0 and answers F |
| AbnfProps.SeqSettleAnswers | abnf/abnf.go:573-601 | 0 resets `pos`; M\|S answers M while a required sub-rule follows; M\|F moves `pos` on and answers M, M\|S or M\|F as required, optional or no sub-rules follow; nothing else changes |
| AbnfProps.SeqFinishedRetries | abnf/abnf.go:592-596 | a sub-rule that answers F on a token other than EOF moves `pos` past it, marks the Seq Handing and hands the same token to the next sub-rule, remembering F |
| AbnfProps.SeqSkipsFinished | abnf/abnf.go:563-599 | a run of sub-rules that each answer F is skipped with the same token; when the run reaches the last sub-rule the Seq answers F with `pos` at the end and its flag word cleared |
| AbnfProps.AnyLoopOfTerms | abnf/abnf.go:454-490 | the loop over Term branches: the first listed branch answers M\|F and ends past the last branch; none listed answers 0 |
| AbnfProps.AnyOfTerms | abnf/abnf.go:445-493 | an idle Any over Terms answers M\|F exactly when some branch from `pos` on lists the token, and 0 otherwise |
| AbnfProps.AnyEofResets | abnf/abnf.go:456-460 | EOF sets `pos` and the flag word of an Any back to 0 and returns the branch's answer |
| AbnfProps.AnyTurnCases | abnf/abnf.go:462-489 | M or M\|S pins the branch; M\|F unpins; 0 or F of an unpinned branch passes the token on to the next one; after a match 0 ends the loop and F passes the token on |
| AbnfProps.AllOptionExact | abnf/abnf.go:410-417 | the loop of `IsOption` is true exactly when every rule from i on is optional |
| AbnfProps.AnyIsOption | abnf/abnf.go:410-417 | Any is optional exactly when every branch is |
| AbnfProps.OnceRecursion | abnf/abnf.go:237-240 | a Once re-entered while matching panics |
| AbnfProps.OnceSticky | abnf/abnf.go:241-248 | a finished Once answers F to any token but EOF, without asking its rule and without any change |
| AbnfProps.OnceStaysFinished | abnf/abnf.go:219-223 | fed tokens without EOF, a finished Once answers F to each and changes nothing |
| AbnfProps.OnceRemembers | abnf/abnf.go:250-258 | a running Once answers what its rule answers and remembers Finished when that answer holds it |
| AbnfProps.OnceReset | abnf/abnf.go:241-246 | EOF to a finished Once sends EOF to its rule, clears the flag word and answers F |
| AbnfProps.MoreOfTerms | abnf/abnf.go:328-396 | a More over two Terms follows the table `MoreOfTermsStep`, changing only its flag word |
| AbnfWalks.SeqWalk | abnf/abnf_test.go:66-81 | Seq(FUNC, IDENT, OUT, INT, BOOL) fed FUNC, IDENT, OUT, INT, BOOL, NAN, EOF answers M, M, M, M, M\|F, 0, F |
| AbnfWalks.MoreWalk | abnf/abnf_test.go:100-113 | More(Type, COMMA) fed INT, COMMA, BOOL, COMMA, NAN, NAN, EOF answers M\|S, M, M\|S, M, F, 0, F |
| AbnfWalks.OnceWalk | abnf/abnf_test.go:155-173 | Once(Seq(Type, COMMA)) fed INT, COMMA, BOOL, EOF, BOOL, COMMA, NAN, NAN, EOF answers M, M\|F, F, F, M, M\|F, F, F, F |
| AbnfWalks.OptionWalk | abnf/abnf_test.go:175-192 | Option(IDENT) fed USE, IDENT, NAN, EOF, IDENT, IDENT, NAN, EOF answers F, M\|F, F, F, M\|F, M\|F, F, F |
| AbnfWalks.SeqOptStep | abnf/abnf_test.go:83-91 | in Seq(FUNC, IDENT, Option(OUT), Option(INT)), FUNC answers M and IDENT answers M\|S, the Options that follow being optional |
| AbnfWalks.SeqOptSkips | abnf/abnf_test.go:83-91 | a token that neither optional rule takes is passed over both Options and the Seq answers F with `pos` at the end |
| AbnfWalks.SeqOptionalWalk | abnf/abnf_test.go:83-96 | Seq(FUNC, IDENT, Option(OUT), Option(INT)) fed FUNC, IDENT, SPACES answers M, M\|S, F |
| AbnfWalks.UseSkipsOption | abnf/abnf_test.go:194-197 | in Seq(USE, Option(IDENT), VALSTRING) after USE, a VALSTRING finishes the Option and is handed on to the last Term, which the Seq answers M\|F |
| AbnfWalks.UseWalk | abnf/abnf_test.go:194-214 | Seq(USE, Option(IDENT), VALSTRING) fed USE, IDENT, VALSTRING, NAN, EOF, USE, VALSTRING, NAN, EOF answers M, M, M\|F, 0, F, M, M\|F, 0, F |

## Left out

- `scanner.Rune` and `scanner.Symbol` (scanner/scanner.go:37-149) are not part of this model. They decode UTF-8 through `unicode/utf8`, and `Rune` grows the size instead of the offset.
- The driver loop of `Fast` (parser/fast.go:27-127 and 184-187) is not modelled. It is callback I/O over scanner methods (`Tail(bool)`, `IsEOF`) that scanner.go does not define. With it go the completion of a quoted string by `EndString` and the "string is incomplete" error of the quote branch.
- Fast.ClassifyCode: a lone quote is classified as a string without reading the rest of the literal (see the driver above).
- parser/parser.go is not part of this model. Its switch arms are empty.
- The definitions of `Token.Has`, `Token.As` and the category tokens are not part of token/token.go. They are uninterpreted.
- `fmt.Sprintf("%d:%d")` and `strconv.Itoa` are modelled by `Decimal.Itoa`.
- The identity of Go objects by address and interface dispatch are replaced by handles into an arena and a datatype of rule kinds.
- Recursion is bounded by `fuel`. A fuel bound that runs out is the outcome `OutOfFuel`, which the source does not have. The walk lemmas hold for every fuel large enough.
- After a panic, the rule engine's arena is not specified, only the failure.
- Abnf.Bind: binding an Option, Once or More does not check the handle bound to; a grammar that binds a rule to itself is representable but not proved to terminate.
- Abnf.Bind: an Any bound to itself (abnf/abnf.go:419-428) replaces its own list by a fresh one before copying, so in the source it is left with nil sub-rules and its next `Match`, `IsOption` or `Clone` panics. The model keeps its sub-rules: the failure is not carried into the later calls.
- Abnf.CloneDeep: the copy is related to the original one level down (each sub-rule is itself or a new node of its shape). That the sub-rules of those new nodes are in turn copies holds by the same lemma applied to the inner `Clone` calls; it is not stated as one relation over the whole copied structure. A sub-rule handle outside the arena, which the source cannot have, is not constrained.
- Abnf.Eof: with a clone, the contract does not promise that the node's flag word is still clear afterwards, since the clone's sub-rules may refer back to the node.
- Abnf.IsOption: the answer of Once and Any, which ask their rules, is stated only by the recursion itself.
- Abnf.Match: only the fact that every answer is one of the five results is stated about each call in general. The per-combinator behaviour is stated by the `AbnfProps` lemmas for rules over Terms, by `HandingDelegates`, `OptionSettleAnswers` and `AnyTurnCases` for every sub-rule, by `SeqSettleAnswers` for every sub-rule answer other than F and `SeqFinishedRetries` and `SeqSkipsFinished` for F, and by the walks.
- AbnfWalks: the walks over nested repetitions (a Seq inside a More, a More inside an Option inside a Seq or a More) are not proved (the second and third walks of TestMore, abnf/abnf_test.go:115-153; the third and fourth of TestOption, abnf/abnf_test.go:216-268; TestAny, abnf/abnf_test.go:270-362). Each step of these walks clones a More and settles several levels of Handing rules, and unfolding them token by token is beyond what these proofs carry out; the combinator lemmas of `AbnfProps` state the steps they are made of.
- AstGrammar.QueueLoop: a `more` rule that passes inside a queue answers eat -1, which `queue.pass` does not handle. The source then loops forever, and the model reports `Spins`.
- Ast.AddSpec: as written, `add` refuses NL and COMMENT nodes, because they come after PLACEHOLDER in the token list. The model keeps that, and `PushNewlineRejected` and `PushComment` state it.
- Ast.AddSpec: after a RIGHT node, `add` calls a method on the nil `Prev` of the file and panics. The model reports `NilPrev` and does not model the pairing of LEFT and RIGHT that follows it.
- Ast.DeclResolve: Stmt, Expr, Chunk and Text nodes resolve nothing, and the Block node is not modelled (no code creates one).
- Scanner.Scanner.EndString: when the input ends in a lone backslash, the source moves the offset one past the size; its final slice then panics if the buffer has no spare capacity and otherwise returns one byte beyond the input. The model has no notion of capacity, so the method requires that this does not happen.
- Tokens.LookupAsWritten: a one-byte string that is not mapped and is not " ", "\t" or "\n" indexes past its end in the source. The as-written function requires that this does not happen.
- The data-only structs `Block`, `File` and `Code` of token/position.go:46-63 are not modelled.

## Findings

| source | as written | input that shows it | evidently intended | confidence | as-written member | corrected member |
|---|---|---|---|---|---|---|
| ast/grammar.go:26-43 | `zero.pass` and `more.pass` call `rule(r).pass`, and the conversion keeps the dynamic type, so each calls itself | any token given to a `zero` or `more` rule | consult the token list as a `term` | not executed | AstGrammar.PassAsWrittenNeverReturns | AstGrammar.Pass |
| ast/ast.go:155-159 | `Prev` reads the token of the first predecessor once, so the loop never tests later nodes' tokens | nodes File, IDENT, PLACEHOLDER, NL; `Prev` of the NL node gives nil | walk back to the IDENT node | not executed | Ast.PrevAsWrittenSkipsIdentifier | Ast.File.Prev |
| token/token.go:269 | `letter[1] == '\r'` tests the second byte | "\r\n" is classified LITERAL; "\r" indexes past its end | `letter[0] == '\r'` | not executed | Tokens.LookupAsWrittenMissesCRLF | Tokens.Lookup |

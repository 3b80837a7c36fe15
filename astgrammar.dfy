/**
 * The light rule queue of the AST builder: `term` passes one token that one
 * of its listed tokens stands for, `zero` makes a term optional, `more`
 * repeats it, and `queue` passes its rules in order, one token per call.
 */
module AstGrammar {
  import opened Wrappers
  import opened Tokens

  datatype Rule = Term(toks: seq<Token>) | Zero(toks: seq<Token>) | More(toks: seq<Token>)

  /** A rule's answer: how many tokens it eats (-1: any number more) and whether it passes. */
  datatype Answer = Answer(eat: int, pass: bool)

  /** `term.pass`: eats the token when some listed token `As` it. */
  function TermPass(toks: seq<Token>, tok: Token): (r: Answer)
    ensures r == Answer(1, true) <==> exists i :: 0 <= i < |toks| && As(toks[i], tok)
    ensures r == Answer(1, true) || r == Answer(0, false)
  {
    if toks == [] then Answer(0, false)
    else if As(toks[0], tok) then Answer(1, true)
    else
      var r := TermPass(toks[1..], tok);
      assert forall i :: 1 <= i < |toks| ==> toks[i] == toks[1..][i - 1];
      r
  }

  /**
   * `pass` of each rule kind, with `zero` and `more` consulting their token
   * list as a term (see README: the source converts them back to `rule`,
   * which dispatches to the same method).
   */
  function Pass(r: Rule, tok: Token): (a: Answer)
    ensures r.Term? ==> a == TermPass(r.toks, tok)
    ensures r.Zero? ==> a.pass && (a.eat == 1 <==> TermPass(r.toks, tok).pass) && (a.eat == 0 || a.eat == 1)
    ensures r.More? ==> (a.pass <==> TermPass(r.toks, tok).pass) && a.eat == (if a.pass then -1 else 0)
  {
    match r
    case Term(toks) => TermPass(toks, tok)
    case Zero(toks) =>
      var inner := TermPass(toks, tok);
      if inner.pass && inner.eat != 0 then Answer(1, true) else Answer(0, true)
    case More(toks) =>
      if !TermPass(toks, tok).pass then Answer(0, false) else Answer(-1, true)
  }

  /**
   * `zero.pass` and `more.pass` as written: the conversion `rule(r)` keeps
   * the dynamic type, so each calls itself with the same token. `fuel`
   * bounds the nesting; `None` means it ran out.
   */
  function PassAsWritten(r: Rule, tok: Token, fuel: nat): Option<Answer>
    decreases fuel
  {
    match r
    case Term(toks) => Some(TermPass(toks, tok))
    case Zero(_) =>
      if fuel == 0 then None
      else
        (match PassAsWritten(r, tok, fuel - 1)
         case None => None
         case Some(inner) => Some(if inner.pass && inner.eat != 0 then Answer(1, true) else Answer(0, true)))
    case More(_) =>
      if fuel == 0 then None
      else
        (match PassAsWritten(r, tok, fuel - 1)
         case None => None
         case Some(inner) => Some(if !inner.pass then Answer(0, false) else Answer(-1, true)))
  }

  /** However deep the stack, `zero.pass` and `more.pass` as written never return. */
  lemma {:induction false} PassAsWrittenNeverReturns(r: Rule, tok: Token, fuel: nat)
    requires !r.Term?
    ensures PassAsWritten(r, tok, fuel) == None
    decreases fuel
  {
    if fuel > 0 {
      PassAsWrittenNeverReturns(r, tok, fuel - 1);
    }
  }

  /** The outcome of `queue.pass`: an answer, or a loop that never ends. */
  datatype QueueResult = Done(eat: int, pass: bool) | Spins

  /**
   * The loop of `queue.pass` from rule `at`: the new `at` and the outcome.
   * A `more` rule that passes answers eat -1, which the loop does not
   * handle: `at` stays, the same rule is asked the same question again, and
   * the loop spins.
   */
  function QueueLoop(rules: seq<Rule>, at: nat, tok: Token): (r: (nat, QueueResult))
    requires at <= |rules|
    ensures at <= r.0 <= |rules|
    ensures r.1 == Done(0, true) ==> r.0 == |rules|
    ensures r.1 == Done(1, true) ==> 0 < r.0
    decreases |rules| - at
  {
    if at == |rules| then (at, Done(0, true))
    else
      var a := Pass(rules[at], tok);
      if !a.pass then (at, Done(0, false))
      else if a.eat == 0 then QueueLoop(rules, at + 1, tok)
      else if a.eat == 1 then (at + 1, Done(1, true))
      else (at, Spins)
  }

  /** `queue.pass`: restarts at the first rule when the previous run finished. */
  function QueuePass(rules: seq<Rule>, at: nat, tok: Token): (r: (nat, QueueResult))
    ensures r.0 <= |rules|
    ensures r.1 == Done(0, true) ==> r.0 == |rules|
    ensures r.1 == Done(1, true) ==> 0 < r.0
    ensures at < |rules| ==> at <= r.0
  {
    QueueLoop(rules, if at >= |rules| then 0 else at, tok)
  }

  /** The rules the loop skips, those answering eat 0, are exactly the optional ones that do not match. */
  predicate Skips(r: Rule, tok: Token) { Pass(r, tok) == Answer(0, true) }

  /**
   * One call of `queue.pass` skips every rule that answers eat 0 and stops at
   * the first other rule: a failure leaves `at` on it, eat 1 moves past it,
   * and running past the last rule passes without eating.
   */
  lemma {:induction false} QueueLoopStops(rules: seq<Rule>, at: nat, tok: Token)
    requires at <= |rules|
    ensures var (k, res) := QueueLoop(rules, at, tok);
            && res in {Done(0, true), Done(0, false), Done(1, true), Spins}
            && (forall j :: at <= j < (if res == Done(1, true) then k - 1 else k) ==> Skips(rules[j], tok))
            && (res == Done(0, true) ==> k == |rules|)
            && (res == Done(0, false) ==> k < |rules| && !Pass(rules[k], tok).pass)
            && (res == Done(1, true) ==> at < k && Pass(rules[k - 1], tok) == Answer(1, true))
            && (res == Spins ==> k < |rules| && rules[k].More? && Pass(rules[k], tok).pass)
    decreases |rules| - at
  {
    if at < |rules| {
      var a := Pass(rules[at], tok);
      if a.pass && a.eat == 0 {
        QueueLoopStops(rules, at + 1, tok);
      }
    }
  }

  class Queue {
    const rules: seq<Rule>
    var at: nat

    constructor (rules: seq<Rule>)
      ensures this.rules == rules && at == 0
    {
      this.rules := rules;
      at := 0;
    }

    /** `queue.pass`. */
    method Pass(tok: Token) returns (res: QueueResult)
      modifies this`at
      ensures (at, res) == QueuePass(rules, old(at), tok)
    {
      if at >= |rules| {
        at := 0;
      }
      ghost var start := at;
      while at < |rules|
        invariant start <= at <= |rules|
        invariant QueueLoop(rules, at, tok) == QueueLoop(rules, start, tok)
        decreases |rules| - at
      {
        var a := RulePass(rules[at], tok);
        if !a.pass {
          return Done(0, false);
        }
        if a.eat == 0 {
          at := at + 1;
          continue;
        }
        if a.eat == 1 {
          at := at + 1;
          return Done(1, true);
        }
        return Spins;
      }
      res := Done(0, true);
    }
  }

  /** `pass` of one rule, scanning the token list of the term. */
  method RulePass(r: Rule, tok: Token) returns (a: Answer)
    ensures a == Pass(r, tok)
  {
    var found := false;
    var i := 0;
    while i < |r.toks| && !found
      invariant 0 <= i <= |r.toks|
      invariant found <==> exists j :: 0 <= j < i && As(r.toks[j], tok)
    {
      found := As(r.toks[i], tok);
      i := i + 1;
    }
    var term := if found then Answer(1, true) else Answer(0, false);
    match r
    case Term(_) => a := term;
    case Zero(_) => a := if term.pass && term.eat != 0 then Answer(1, true) else Answer(0, true);
    case More(_) => a := if !term.pass then Answer(0, false) else Answer(-1, true);
  }

  /** The state of a queue after it is fed several tokens, with every outcome. */
  function Feed(rules: seq<Rule>, at: nat, toks: seq<Token>): (r: (nat, seq<QueueResult>))
    ensures |r.1| == |toks|
    decreases |toks|
  {
    if toks == [] then (at, [])
    else
      var step := QueuePass(rules, at, toks[0]);
      var rest := Feed(rules, step.0, toks[1..]);
      (rest.0, [step.1] + rest.1)
  }

  /** The declaration queue `pub var <type> <ident or member>`. */
  const PubQueue: seq<Rule> := [Term([PUB]), Term([VAR]), Term([Type, IDENT]), Term([IDENT, MEMBER])]

  /** The symbols of "pub var int a.b". */
  lemma PubQueueSymbols()
    ensures Lookup("pub") == PUB && Lookup("var") == VAR && Lookup("int") == LITERAL && Lookup("a.b") == LITERAL
  {
    assert Letters("pub") == Some(PUB);
    assert Letters("var") == Some(VAR);
  }

  /**
   * "pub var int a.b": the symbols classify as PUB, VAR, LITERAL, LITERAL,
   * and when the type and identifier categories cover a literal, each is
   * eaten in turn and the queue ends after its last rule.
   */
  lemma PubQueueAcceptsDeclaration()
    requires As(PUB, PUB) && As(VAR, VAR) && As(Type, LITERAL) && As(IDENT, LITERAL)
    ensures var toks := [Lookup("pub"), Lookup("var"), Lookup("int"), Lookup("a.b")];
            && Feed(PubQueue, 0, toks).0 == |PubQueue|
            && Feed(PubQueue, 0, toks).1 == [Done(1, true), Done(1, true), Done(1, true), Done(1, true)]
  {
    PubQueueSymbols();
    assert TermPass([Type, IDENT], LITERAL) == Answer(1, true);
    assert TermPass([IDENT, MEMBER], LITERAL) == Answer(1, true);
    assert QueuePass(PubQueue, 0, PUB) == (1, Done(1, true));
    assert QueuePass(PubQueue, 1, VAR) == (2, Done(1, true));
    assert QueuePass(PubQueue, 2, LITERAL) == (3, Done(1, true));
    assert QueuePass(PubQueue, 3, LITERAL) == (4, Done(1, true));
    var d := Done(1, true);
    assert [LITERAL][1..] == [];
    assert Feed(PubQueue, 4, []) == (4, []);
    var f3 := Feed(PubQueue, 3, [LITERAL]);
    assert f3.0 == 4 && f3.1 == [d];
    var f2 := Feed(PubQueue, 2, [LITERAL, LITERAL]);
    assert [LITERAL, LITERAL][1..] == [LITERAL];
    assert f2.0 == 4 && f2.1 == [d, d];
    var f1 := Feed(PubQueue, 1, [VAR, LITERAL, LITERAL]);
    assert [VAR, LITERAL, LITERAL][1..] == [LITERAL, LITERAL];
    assert f1.0 == 4 && f1.1 == [d, d, d];
    assert [PUB, VAR, LITERAL, LITERAL][1..] == [VAR, LITERAL, LITERAL];
    var f0 := Feed(PubQueue, 0, [PUB, VAR, LITERAL, LITERAL]);
    assert f0.0 == 4 && f0.1 == [d, d, d, d];
    assert [Lookup("pub"), Lookup("var"), Lookup("int"), Lookup("a.b")] == [PUB, VAR, LITERAL, LITERAL];
  }
}

/**
 * What the rule engine promises, proved about the functions of `Abnf`:
 * the answers of Option, Once, Seq, Any and More on small grammars, the
 * meaning of `IsOption`, and the step-by-step walks of the package tests.
 */
module AbnfProps {
  import opened Wrappers
  import Tokens
  import opened Abnf

  /** The loop of the tests: `Match` each token in turn and collect the answers. */
  function Feed(a: seq<Node>, h: Handle, toks: seq<Token>, fuel: nat): (r: Res<seq<Flag>>)
    ensures r.Ok? ==> |r.nodes| >= |a| && |r.value| == |toks|
    ensures r.Ok? ==> forall i :: 0 <= i < |toks| ==> IsResult(r.value[i])
    decreases |toks|
  {
    if toks == [] then Ok(a, [])
    else
      match Match(a, h, toks[0], fuel)
      case Fail(e) => Fail(e)
      case Ok(a1, f) =>
        match Feed(a1, h, toks[1..], fuel)
        case Fail(e) => Fail(e)
        case Ok(a2, fs) => Ok(a2, [f] + fs)
  }

  /** Feeding a token and then the rest is the answer to the token followed by the answers to the rest. */
  lemma FeedCons(a: seq<Node>, h: Handle, tok: Token, toks: seq<Token>, fuel: nat, a1: seq<Node>, f: Flag)
    requires Match(a, h, tok, fuel) == Ok(a1, f)
    ensures Feed(a, h, [tok] + toks, fuel) ==
              match Feed(a1, h, toks, fuel)
              case Fail(e) => Fail(e)
              case Ok(a2, fs) => Ok(a2, [f] + fs)
  {
    assert ([tok] + toks)[1..] == toks;
  }

  /**
   * A walk: when each token of `toks` takes the arena `arenas[i]` to
   * `arenas[i + 1]` with the answer `fs[i]`, feeding them all gives the
   * answers `fs` and the last arena.
   */
  lemma {:induction false} FeedWalk(arenas: seq<seq<Node>>, h: Handle, toks: seq<Token>, fs: seq<Flag>, fuel: nat)
    requires |arenas| == |toks| + 1 && |fs| == |toks|
    requires forall i :: 0 <= i < |toks| ==> Match(arenas[i], h, toks[i], fuel) == Ok(arenas[i + 1], fs[i])
    ensures Feed(arenas[0], h, toks, fuel) == Ok(arenas[|toks|], fs)
    decreases |toks|
  {
    if toks != [] {
      assert Match(arenas[0], h, toks[0], fuel) == Ok(arenas[1], fs[0]);
      FeedWalk(arenas[1..], h, toks[1..], fs[1..], fuel);
      FeedCons(arenas[0], h, toks[0], toks[1..], fuel, arenas[1], fs[0]);
      assert [toks[0]] + toks[1..] == toks;
      assert [fs[0]] + fs[1..] == fs;
    }
  }

  /** Every handle of `rs` is a Term with a token list. */
  predicate TermsOnly(a: seq<Node>, rs: seq<Handle>) {
    forall j :: 0 <= j < |rs| ==> rs[j] < |a| && a[rs[j]].rule.TermRule? && a[rs[j]].rule.toks.Some?
  }

  /** The token list of the Term at handle `t`. */
  function TermToks(a: seq<Node>, t: Handle): seq<Token>
    requires t < |a| && a[t].rule.TermRule? && a[t].rule.toks.Some?
  {
    a[t].rule.toks.value
  }

  // ------------------------------------------------------------------
  // Recursion

  /**
   * Option, More, Any and Seq re-entered while Handing hand the token to
   * their clone in `next`. EOF with no clone clears the flag word and
   * answers Finished. Otherwise the clone answers; it is made on first use
   * as a new node of the same shape and kept in `next`.
   */
  lemma HandingDelegates(a: seq<Node>, h: Handle, tok: Token, fuel: nat)
    requires fuel > 0 && h < |a| && Has(a[h].flag, Handing)
    requires a[h].rule.OptionRule? || a[h].rule.MoreRule? || a[h].rule.AnyRule? || a[h].rule.SeqRule?
    ensures tok == Tokens.EOF && a[h].next.None? ==> Match(a, h, tok, fuel) == Ok(SetFlag(a, h, 0), F)
    ensures a[h].next.Some? ==> Match(a, h, tok, fuel) == Match(a, a[h].next.value, tok, fuel - 1)
    ensures tok != Tokens.EOF && a[h].next.None? ==>
              match Clone(a, h, fuel - 1)
              case Fail(e) => Match(a, h, tok, fuel) == Fail(e)
              case Ok(a1, c) =>
                && (!Has(a[h].flag, Cloning) ==> |a| <= c && SameShape(a[h].rule, a1[c].rule))
                && Match(a, h, tok, fuel) == Match(a1[h := a1[h].(next := Some(c))], c, tok, fuel - 1)
  {
    assert Match(a, h, tok, fuel) == BaseMatch(a, h, tok, fuel - 1);
  }

  // ------------------------------------------------------------------
  // Term and Option

  /** A Term keeps no state: the arena is unchanged and the answer is the one of `TermMatch`. */
  lemma TermStateless(a: seq<Node>, h: Handle, tok: Token, fuel: nat)
    requires fuel > 0 && h < |a| && a[h].rule.TermRule?
    ensures Match(a, h, tok, fuel) == Ok(a, TermMatch(a[h].rule.toks, tok))
    ensures IsOption(a, h, fuel) == Some(a[h].rule.toks.None?)
  {
  }

  /**
   * The end of `option.Match`: every answer of the rule passes through
   * except 0, which turns into Finished when the Option had nothing
   * pending or was Standing (`g`, the flag word without Handing). After 0,
   * M|F or F the flag word is clear again, after M or M|S it is that
   * answer; no other node changes.
   */
  lemma OptionSettleAnswers(a: seq<Node>, h: Handle, fl: Flag)
    requires h < |a| && IsResult(fl)
    ensures var r := OptionSettle(a, h, fl);
            var g := a[h].flag - Handing;
            && (forall i :: 0 <= i < |a| && i != h ==> r.nodes[i] == a[i])
            && (fl != 0 ==> r.value == fl)
            && (fl == 0 ==> (r.value == F <==> g == 0 || Has(g, Standing)))
            && (fl == 0 ==> (r.value == 0 <==> g != 0 && !Has(g, Standing)))
            && (fl == 0 || fl == MF || fl == F ==> r.nodes[h].flag == 0)
            && (fl == M || fl == MS ==> r.nodes[h].flag == fl)
  {
  }

  /** `option.Match` without Handing sets Handing, matches its rule and ends with `OptionSettle`. */
  lemma OptionAnswers(a: seq<Node>, h: Handle, tok: Token, fuel: nat)
    requires fuel > 0 && h < |a| && a[h].rule.OptionRule? && !Has(a[h].flag, Handing)
    ensures var inner := Match(SetFlag(a, h, a[h].flag + Handing), a[h].rule.rule, tok, fuel - 1);
            match inner
            case Fail(e) => Match(a, h, tok, fuel) == Fail(e)
            case Ok(a1, fl) => h < |a1| && Match(a, h, tok, fuel) == OptionSettle(a1, h, fl)
  {
  }

  /** Option over a Term, with nothing pending: M|F for a listed token, Finished for anything else, and no state kept. */
  lemma OptionOfTerm(a: seq<Node>, h: Handle, tok: Token, fuel: nat)
    requires fuel >= 2 && h < |a| && a[h].rule.OptionRule? && a[h].flag == 0
    requires a[h].rule.rule < |a| && a[a[h].rule.rule].rule.TermRule?
    ensures Match(a, h, tok, fuel) == Ok(a, if TermMatch(a[a[h].rule.rule].rule.toks, tok) == MF then MF else F)
  {
    var x := a[h].rule.rule;
    var a1 := SetFlag(a, h, a[h].flag + Handing);
    assert a1[x] == a[x];
    TermStateless(a1, x, tok, fuel - 1);
    assert SetFlag(a1, h, 0) == a;
  }

  /** Fed any tokens, Option over a Term answers each one on its own. */
  lemma {:induction false} OptionOfTermFeed(a: seq<Node>, h: Handle, toks: seq<Token>, fuel: nat)
    requires fuel >= 2 && h < |a| && a[h].rule.OptionRule? && a[h].flag == 0
    requires a[h].rule.rule < |a| && a[a[h].rule.rule].rule.TermRule?
    ensures var r := Feed(a, h, toks, fuel);
            && r.Ok? && r.nodes == a
            && forall i :: 0 <= i < |toks| ==>
                 r.value[i] == if TermMatch(a[a[h].rule.rule].rule.toks, toks[i]) == MF then MF else F
  {
    if toks != [] {
      OptionOfTerm(a, h, toks[0], fuel);
      OptionOfTermFeed(a, h, toks[1..], fuel);
      var rest := Feed(a, h, toks[1..], fuel);
      assert forall i :: 1 <= i < |toks| ==> toks[i] == toks[1..][i - 1];
      assert forall i :: 1 <= i < |toks| ==> Feed(a, h, toks, fuel).value[i] == rest.value[i - 1];
    }
  }

  // ------------------------------------------------------------------
  // Seq

  /**
   * Seq over Terms, idle: the Term at `pos` decides. A listed token
   * moves `pos` on and answers Matched, or M|F at the last Term; any other
   * token answers 0 and sends `pos` back to 0.
   */
  lemma SeqOfTerms(a: seq<Node>, h: Handle, tok: Token, fuel: nat)
    requires fuel >= 2 && h < |a| && a[h].rule.SeqRule? && a[h].flag == 0
    requires |a[h].rule.rules| > 0 && a[h].rule.opt == |a[h].rule.rules| && TermsOnly(a, a[h].rule.rules)
    requires tok != Tokens.EOF
    ensures var rs := a[h].rule.rules;
            var p := if a[h].pos >= |rs| then 0 else a[h].pos;
            Match(a, h, tok, fuel) ==
              if Listed(TermToks(a, rs[p]), tok) then Ok(a[h := a[h].(pos := p + 1)], if p + 1 < |rs| then M else MF)
              else Ok(a[h := a[h].(pos := 0)], 0)
  {
    var rs := a[h].rule.rules;
    var p := if a[h].pos >= |rs| then 0 else a[h].pos;
    var a1 := SetPos(a, h, p, a[h].flag + Handing);
    assert a1[rs[p]] == a[rs[p]];
    TermStateless(a1, rs[p], tok, fuel - 1);
    var tm := TermMatch(a[rs[p]].rule.toks, tok);
    assert Match(a, h, tok, fuel) == SeqLoop(a1, h, rs, |rs|, p, tok, 0, fuel - 1);
    assert SeqLoop(a1, h, rs, |rs|, p, tok, 0, fuel - 1) == SeqSettle(a1, h, rs, |rs|, p, tm);
    assert SetPos(a1, h, 0, Handing - Handing) == a[h := a[h].(pos := 0)];
    assert SetPos(a1, h, p + 1, Handing - Handing) == a[h := a[h].(pos := p + 1)];
  }

  /** EOF resets an idle Seq over Terms: `pos` back to 0 and the answer Finished. */
  lemma SeqOfTermsEof(a: seq<Node>, h: Handle, fuel: nat)
    requires fuel >= 2 && h < |a| && a[h].rule.SeqRule? && a[h].flag == 0 && a[h].next.None?
    requires |a[h].rule.rules| > 0 && TermsOnly(a, a[h].rule.rules)
    ensures Match(a, h, Tokens.EOF, fuel) == Ok(a[h := a[h].(pos := 0)], F)
  {
    var rs := a[h].rule.rules;
    var p := if a[h].pos >= |rs| then 0 else a[h].pos;
    var a1 := SetPos(a, h, p, a[h].flag + Handing);
    assert a1[rs[p]] == a[rs[p]];
    TermStateless(a1, rs[p], Tokens.EOF, fuel - 1);
    assert Match(a, h, Tokens.EOF, fuel) == SeqLoop(a1, h, rs, a[h].rule.opt, p, Tokens.EOF, 0, fuel - 1);
    var a2 := SetFlag(a1, h, 0);
    assert Eof(a1, h, fuel - 1) == Ok(a2, 0);
    assert SetPos(a2, h, 0, a2[h].flag) == a[h := a[h].(pos := 0)];
  }

  /**
   * The end of `concatenation.Match` for a sub-rule answer other than
   * Finished: 0 sends `pos` back to 0 and answers 0; M keeps everything;
   * M|S is reported as M while a required sub-rule follows and leaves the
   * Seq Standing; M|F moves `pos` on and reports M while a required
   * sub-rule follows, M|S while only optional ones follow, and M|F after
   * the last one. Only the Seq's own node changes, and only its flag word
   * and `pos`.
   */
  lemma SeqSettleAnswers(a: seq<Node>, h: Handle, rs: seq<Handle>, opt: nat, p: nat, fl: Flag)
    requires h < |a| && p < |rs| && IsResult(fl) && fl != F
    ensures var r := SeqSettle(a, h, rs, opt, p, fl);
            && (forall i :: 0 <= i < |a| && i != h ==> r.nodes[i] == a[i])
            && r.nodes[h].rule == a[h].rule && r.nodes[h].next == a[h].next
            && (fl == 0 ==> r.value == 0 && r.nodes[h].pos == 0 && r.nodes[h].flag == 0)
            && (fl == M ==> r.value == M && r.nodes[h].pos == a[h].pos && r.nodes[h].flag == a[h].flag - Handing)
            && (fl == MS ==> r.nodes[h].pos == a[h].pos && r.nodes[h].flag == Standing)
            && (fl == MS ==> (r.value == M <==> p + 1 < opt) && (r.value == MS <==> p + 1 >= opt))
            && (fl == MF ==> r.nodes[h].pos == p + 1 && r.nodes[h].flag == 0)
            && (fl == MF ==> (r.value == MF <==> p + 1 == |rs|))
            && (fl == MF ==> (r.value == M <==> p + 1 < |rs| && p + 1 < opt))
            && (fl == MF ==> (r.value == MS <==> p + 1 < |rs| && p + 1 >= opt))
  {
  }

  /**
   * A sub-rule that answers Finished to a token other than EOF does not end
   * `concatenation.Match`: `pos` moves past it, the flag word is Handing
   * alone, and the same token goes to the next sub-rule, the last answer
   * being Finished. Whatever the arena the sub-rule left is what the next
   * sub-rule sees.
   */
  lemma SeqFinishedRetries(a: seq<Node>, h: Handle, rs: seq<Handle>, opt: nat, p: nat, tok: Token, last: Flag, fuel: nat, a1: seq<Node>)
    requires h < |a| && p < |rs| && tok != Tokens.EOF
    requires Match(a, rs[p], tok, fuel) == Ok(a1, F)
    ensures h < |a1|
    ensures SeqLoop(a, h, rs, opt, p, tok, last, fuel) ==
              SeqLoop(a1[h := a1[h].(pos := p + 1, flag := Handing)], h, rs, opt, p + 1, tok, F, fuel)
  {
  }

  /**
   * Sub-rules from `p` up to `q` that each answer Finished and keep no state
   * are passed over one after another: the loop goes on at `q` as if it
   * had started there, with Finished as the last answer. When they run to
   * the end of the list the Seq answers Finished with `pos` past the last
   * sub-rule and its flag word clear.
   */
  lemma {:induction false} SeqSkipsFinished(a: seq<Node>, h: Handle, rs: seq<Handle>, opt: nat, p: nat, q: nat, tok: Token, last: Flag, fuel: nat)
    requires h < |a| && a[h].flag == Handing && a[h].pos == p && p <= q <= |rs| && tok != Tokens.EOF
    requires forall j :: p <= j < q ==> Match(a[h := a[h].(pos := j)], rs[j], tok, fuel) == Ok(a[h := a[h].(pos := j)], F)
    ensures SeqLoop(a, h, rs, opt, p, tok, last, fuel) ==
              SeqLoop(a[h := a[h].(pos := q)], h, rs, opt, q, tok, if p < q then F else last, fuel)
    ensures p < q == |rs| ==> SeqLoop(a, h, rs, opt, p, tok, last, fuel) == Ok(a[h := a[h].(pos := |rs|, flag := 0)], F)
    decreases q - p
  {
    assert a[h := a[h].(pos := p)] == a;
    if p < q {
      var b := a[h := a[h].(pos := p + 1)];
      SeqFinishedRetries(a, h, rs, opt, p, tok, last, fuel, a);
      assert a[h := a[h].(pos := p + 1, flag := Handing)] == b;
      assert forall j :: p + 1 <= j < q ==> b[h := b[h].(pos := j)] == a[h := a[h].(pos := j)];
      SeqSkipsFinished(b, h, rs, opt, p + 1, q, tok, F, fuel);
      assert b[h := b[h].(pos := q)] == a[h := a[h].(pos := q)];
      if q == |rs| {
        var c := a[h := a[h].(pos := q)];
        assert SeqLoop(c, h, rs, opt, q, tok, F, fuel) == Ok(SetFlag(c, h, Handing - Handing), F);
        assert SetFlag(c, h, Handing - Handing) == a[h := a[h].(pos := |rs|, flag := 0)];
      }
    }
  }

  // ------------------------------------------------------------------
  // Any

  /** Some Term of `rs` from index `p` on lists the token. */
  predicate AnyListed(a: seq<Node>, rs: seq<Handle>, p: nat, tok: Token)
    requires TermsOnly(a, rs)
  {
    exists j :: p <= j < |rs| && Listed(TermToks(a, rs[j]), tok)
  }

  /** The loop of `alternative.Match` over Terms: the first listed Term answers M|F and ends the loop past the last branch. */
  lemma {:induction false} AnyLoopOfTerms(a: seq<Node>, h: Handle, rs: seq<Handle>, p: nat, tok: Token, last: Flag, fuel: nat)
    requires fuel >= 1 && h < |a| && a[h].rule.AnyRule? && a[h].flag == Handing && p <= |rs| && a[h].pos == p
    requires TermsOnly(a, rs) && tok != Tokens.EOF
    ensures AnyLoop(a, h, rs, p, tok, last, fuel) ==
              if AnyListed(a, rs, p, tok) then Ok(a[h := a[h].(flag := 0, pos := |rs| + 1)], MF)
              else Ok(a[h := a[h].(flag := 0, pos := |rs|)], if p < |rs| then 0 else last)
    decreases |rs| - p
  {
    if p < |rs| {
      TermStateless(a, rs[p], tok, fuel);
      var fl := TermMatch(a[rs[p]].rule.toks, tok);
      if fl == MF {
        var a1 := SetPos(a, h, |rs| + 1, Handing);
        assert AnyLoop(a, h, rs, p, tok, last, fuel) == AnyLoop(a1, h, rs, |rs| + 1, tok, MF, fuel);
        assert SetFlag(a1, h, Handing - Handing) == a[h := a[h].(flag := 0, pos := |rs| + 1)];
      } else {
        var a1 := SetPos(a, h, p + 1, Handing);
        assert AnyLoop(a, h, rs, p, tok, last, fuel) == AnyLoop(a1, h, rs, p + 1, tok, 0, fuel);
        assert forall k :: 0 <= k < |a| && k != h ==> a1[k] == a[k];
        AnyLoopOfTerms(a1, h, rs, p + 1, tok, 0, fuel);
        assert AnyListed(a, rs, p, tok) == AnyListed(a1, rs, p + 1, tok);
        assert a1[h := a1[h].(flag := 0, pos := |rs| + 1)] == a[h := a[h].(flag := 0, pos := |rs| + 1)];
        assert a1[h := a1[h].(flag := 0, pos := |rs|)] == a[h := a[h].(flag := 0, pos := |rs|)];
      }
    }
  }

  /**
   * Any over Terms, idle: the branches from `pos` on are tried with the
   * same token; M|F when one of them lists it, 0 when none does. Either
   * way `pos` ends at or past the last branch, so the next call starts
   * again at branch 0.
   */
  lemma AnyOfTerms(a: seq<Node>, h: Handle, tok: Token, fuel: nat)
    requires fuel >= 2 && h < |a| && a[h].rule.AnyRule? && a[h].flag == 0
    requires |a[h].rule.rules| > 0 && TermsOnly(a, a[h].rule.rules) && tok != Tokens.EOF
    ensures var rs := a[h].rule.rules;
            var p := if a[h].pos >= |rs| then 0 else a[h].pos;
            var r := Match(a, h, tok, fuel);
            && r.Ok?
            && (r.value == MF <==> AnyListed(a, rs, p, tok))
            && (r.value == 0 <==> !AnyListed(a, rs, p, tok))
            && r.nodes == a[h := a[h].(pos := if r.value == MF then |rs| + 1 else |rs|)]
  {
    var rs := a[h].rule.rules;
    var p := if a[h].pos >= |rs| then 0 else a[h].pos;
    var a1 := SetPos(a, h, p, a[h].flag + Handing);
    assert forall k :: 0 <= k < |a| && k != h ==> a1[k] == a[k];
    AnyLoopOfTerms(a1, h, rs, p, tok, 0, fuel - 1);
    assert AnyListed(a, rs, p, tok) == AnyListed(a1, rs, p, tok);
  }

  /** EOF resets an Any whose branch has answered: `pos` and the flag word back to 0, the branch's answer returned. */
  lemma AnyEofResets(a: seq<Node>, h: Handle, rs: seq<Handle>, p: nat, fl: Flag, fuel: nat)
    requires h < |a| && p < |rs| && a[h].next.None?
    ensures AnyStep(a, h, rs, p, Tokens.EOF, fl, fuel) == Ok(a[h := a[h].(pos := 0, flag := 0)], fl)
  {
    assert SetFlag(SetPos(a, h, 0, a[h].flag), h, 0) == a[h := a[h].(pos := 0, flag := 0)];
  }

  /** A pinned or unpinned branch answering 0 or Finished passes the same token on; M or M|S pins the branch; M|F unpins. */
  lemma AnyTurnCases(g: Flag, p: nat, n: nat, fl: Flag)
    requires p < n && IsResult(fl)
    ensures var t := AnyTurn(g, p, n, fl);
            && (fl == M || fl == MS <==> t.stop)
            && (t.stop ==> t.pos == p)
            && (fl == MF ==> t.pos == n + 1 && t.flag == Handing)
            && ((fl == 0 || fl == F) && !Has(g, Matched) ==> t.pos == p + 1)
            && (fl == 0 && Has(g, Matched) ==> t.pos == n + 1 && t.flag == Handing)
            && (fl == F && Has(g, Matched) ==> t.pos == p + 1 && t.flag == Handing)
  {
  }

  // ------------------------------------------------------------------
  // IsOption

  /** The loop of `alternative.IsOption` is true exactly when every rule is optional, and defined when every rule is. */
  lemma {:induction false} AllOptionExact(a: seq<Node>, rs: seq<Handle>, i: nat, fuel: nat)
    requires i <= |rs|
    ensures AllOption(a, rs, i, fuel) == Some(true) <==> forall j :: i <= j < |rs| ==> IsOption(a, rs[j], fuel) == Some(true)
    ensures (forall j :: i <= j < |rs| ==> IsOption(a, rs[j], fuel).Some?) ==> AllOption(a, rs, i, fuel).Some?
    decreases |rs| - i
  {
    if i < |rs| {
      AllOptionExact(a, rs, i + 1, fuel);
    }
  }

  /** `alternative.IsOption` holds exactly when every branch `IsOption`. */
  lemma AnyIsOption(a: seq<Node>, h: Handle, fuel: nat)
    requires fuel > 0 && h < |a| && a[h].rule.AnyRule?
    ensures var rs := a[h].rule.rules;
            IsOption(a, h, fuel) == Some(true) <==> forall j :: 0 <= j < |rs| ==> IsOption(a, rs[j], fuel - 1) == Some(true)
    ensures var rs := a[h].rule.rules;
            IsOption(a, h, fuel) == Some(false) ==> exists j :: 0 <= j < |rs| && IsOption(a, rs[j], fuel - 1) == Some(false)
    ensures var rs := a[h].rule.rules;
            (forall j :: 0 <= j < |rs| ==> IsOption(a, rs[j], fuel - 1).Some?) ==> IsOption(a, h, fuel).Some?
  {
    AllOptionExact(a, a[h].rule.rules, 0, fuel - 1);
  }

  // ------------------------------------------------------------------
  // Once

  /** A Once re-entered while it is matching panics. */
  lemma OnceRecursion(a: seq<Node>, h: Handle, tok: Token, fuel: nat)
    requires fuel > 0 && h < |a| && a[h].rule.OnceRule? && Has(a[h].flag, Handing)
    ensures Match(a, h, tok, fuel) == Fail(Recursion)
  {
  }

  /** A finished Once answers Finished to every token but EOF, without asking its rule and without any change. */
  lemma OnceSticky(a: seq<Node>, h: Handle, tok: Token, fuel: nat)
    requires fuel > 0 && h < |a| && a[h].rule.OnceRule? && !Has(a[h].flag, Handing) && Has(a[h].flag, Finished)
    requires tok != Tokens.EOF
    ensures Match(a, h, tok, fuel) == Ok(a, F)
  {
    assert Match(a, h, tok, fuel) == OnceDone(a, h, a[h].rule.rule, tok, fuel - 1);
  }

  /** Fed tokens without EOF, a finished Once answers Finished to each of them and changes nothing. */
  lemma {:induction false} OnceStaysFinished(a: seq<Node>, h: Handle, toks: seq<Token>, fuel: nat)
    requires fuel > 0 && h < |a| && a[h].rule.OnceRule? && !Has(a[h].flag, Handing) && Has(a[h].flag, Finished)
    requires forall i :: 0 <= i < |toks| ==> toks[i] != Tokens.EOF
    ensures var r := Feed(a, h, toks, fuel);
            r.Ok? && r.nodes == a && forall i :: 0 <= i < |toks| ==> r.value[i] == F
  {
    if toks != [] {
      OnceSticky(a, h, toks[0], fuel);
      assert forall i :: 1 <= i < |toks| ==> toks[i] == toks[1..][i - 1];
      OnceStaysFinished(a, h, toks[1..], fuel);
    }
  }

  /**
   * A running Once answers what its rule answers; an answer holding
   * Finished on a token other than EOF leaves the flag word exactly
   * Finished, from which `OnceSticky` applies.
   */
  lemma OnceRemembers(a: seq<Node>, h: Handle, tok: Token, fuel: nat)
    requires fuel > 0 && h < |a| && a[h].rule.OnceRule? && !Has(a[h].flag, Handing) && !Has(a[h].flag, Finished)
    requires tok != Tokens.EOF
    ensures match Match(SetFlag(a, h, a[h].flag + Handing), a[h].rule.rule, tok, fuel - 1)
            case Fail(e) => Match(a, h, tok, fuel) == Fail(e)
            case Ok(a1, fl) =>
              && h < |a1|
              && Match(a, h, tok, fuel) == Ok(SetFlag(a1, h, if Has(fl, Finished) then F else a1[h].flag - Handing), fl)
  {
    var x := a[h].rule.rule;
    assert Match(a, h, tok, fuel) == OnceRun(a, h, x, tok, fuel - 1);
  }

  /** EOF resets a finished Once: its rule gets EOF, its flag word is cleared, and the answer is Finished. */
  lemma OnceReset(a: seq<Node>, h: Handle, fuel: nat)
    requires fuel > 0 && h < |a| && a[h].rule.OnceRule? && !Has(a[h].flag, Handing) && Has(a[h].flag, Finished)
    ensures match Match(a, a[h].rule.rule, Tokens.EOF, fuel - 1)
            case Fail(e) => Match(a, h, Tokens.EOF, fuel) == Fail(e)
            case Ok(a1, _) =>
              && h < |a1|
              && (a1[h].next.None? ==> Match(a, h, Tokens.EOF, fuel) == Ok(SetFlag(a1, h, 0), F))
  {
    var x := a[h].rule.rule;
    assert Match(a, h, Tokens.EOF, fuel) == OnceDone(a, h, x, Tokens.EOF, fuel - 1);
  }

  // ------------------------------------------------------------------
  // More

  /**
   * More over two Terms with token lists, as a machine of two states kept
   * in the flag word: 0 (idle) and Standing (the rule has matched). Given
   * the answers `rx` of the rule's Term and `ry` of the separator's Term,
   * the next flag word and the answer. EOF resets; a rule match answers
   * M|S; after one, a separator match answers M and anything else ends
   * the repetition with Finished; an unmatched first token answers 0.
   */
  function MoreOfTermsStep(f: Flag, rx: Flag, ry: Flag, eof: bool): (Flag, Flag) {
    if eof then (0, F)
    else if rx == MF then (S, MS)
    else if f == S && ry == MF then (S, M)
    else if f == S then (0, F)
    else (0, 0)
  }

  /** `more.Match` over two Terms follows `MoreOfTermsStep`, changing only the flag word. */
  lemma MoreOfTerms(a: seq<Node>, h: Handle, tok: Token, fuel: nat)
    requires fuel >= 2 && h < |a| && a[h].rule.MoreRule? && (a[h].flag == 0 || a[h].flag == S) && a[h].next.None?
    requires var x := a[h].rule.rule; x < |a| && a[x].rule.TermRule? && a[x].rule.toks.Some?
    requires var y := a[h].rule.sep; y < |a| && a[y].rule.TermRule? && a[y].rule.toks.Some?
    ensures var step := MoreOfTermsStep(a[h].flag, TermMatch(a[a[h].rule.rule].rule.toks, tok),
                                        TermMatch(a[a[h].rule.sep].rule.toks, tok), tok == Tokens.EOF);
            Match(a, h, tok, fuel) == Ok(a[h := a[h].(flag := step.0)], step.1)
  {
    var x := a[h].rule.rule;
    var y := a[h].rule.sep;
    var f := a[h].flag;
    var a0 := SetFlag(a, h, f | Handing);
    assert a0[x] == a[x] && a0[y] == a[y];
    assert !Has(f | Handing, Custom);
    assert Match(a, h, tok, fuel) == MoreBody(a0, h, x, y, tok, false, fuel - 1);
    TermStateless(a0, x, tok, fuel - 1);
    TermStateless(a0, y, tok, fuel - 1);
    var rx := TermMatch(a[x].rule.toks, tok);
    var ry := TermMatch(a[y].rule.toks, tok);
    if tok == Tokens.EOF {
      assert MatchSep(a0, h, y, tok, fuel - 1) == Ok(SetFlag(a0, h, 0), F);
      assert SetFlag(a0, h, 0) == a[h := a[h].(flag := 0)];
    } else if rx == MF {
      assert MoreBody(a0, h, x, y, tok, false, fuel - 1) == MoreSettle(a0, h, x, MF, false, fuel - 1);
      assert ((f | Handing) & 0xf8) | Standing == Handing | Standing;
      assert SetFlag(SetFlag(a0, h, Handing | Standing), h, (Handing | Standing) - Handing) == a[h := a[h].(flag := S)];
    } else if f == S {
      var a1 := SetFlag(a0, h, S);
      if ry == MF {
        assert MatchSep(a0, h, y, tok, fuel - 1) == Ok(a1, M);
        assert a1 == a[h := a[h].(flag := S)];
      } else {
        assert MatchSep(a0, h, y, tok, fuel - 1) == Ok(a0, F);
        var a2 := SetFlag(a0, h, 0);
        assert a2[x] == a[x];
        TermStateless(a2, x, Tokens.EOF, fuel - 1);
        assert MoreSettle(a0, h, x, 0, true, fuel - 1) == Ok(a2, F);
        assert a2 == a[h := a[h].(flag := 0)];
      }
    } else {
      var a2 := SetFlag(a0, h, 0);
      assert a2[x] == a[x];
      TermStateless(a2, x, Tokens.EOF, fuel - 1);
      assert MoreBody(a0, h, x, y, tok, false, fuel - 1) == MoreSettle(a0, h, x, 0, false, fuel - 1);
      assert !Has(Handing, Standing | Finished);
      assert a2 == a[h := a[h].(flag := 0)];
    }
  }
}

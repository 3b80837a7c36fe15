/**
 * The streaming grammar-rule engine: ABNF-style combinators (section 4 of
 * RFC 5234: concatenation, alternatives, optional and repetition) that
 * consume at most one token per `Match` call and keep their progress in a
 * flag word, a position and a lazily cloned `next` node.
 *
 * Rules are nodes of an arena, so grammars that refer to themselves
 * (built with `Bind`) are representable; a handle is an index into it.
 * Every operation is a function from the arena to a new arena and a
 * value, with a panic of the source as a `Fail` outcome. Recursion that
 * is not structurally decreasing is bounded by a `fuel` argument.
 */
module Abnf {
  import opened Wrappers
  import Tokens

  type Token = Tokens.Token
  type Handle = nat

  /** `abnf.Flag`, a Go `int`: a 64-bit two's complement word. */
  type Flag = bv64

  const Matched: Flag := 1
  const Standing: Flag := 2
  const Finished: Flag := 4
  const Handing: Flag := 8
  const Cloning: Flag := 16
  const Custom: Flag := 32

  const M: Flag := Matched
  const S: Flag := Standing
  const F: Flag := Finished
  const MS: Flag := 3
  const MF: Flag := 5

  /** `Flag.Has`: some bit of `flag` is set in `f`. */
  predicate Has(f: Flag, flag: Flag)
    ensures Has(f, flag) ==> f != 0 && flag != 0
  {
    f & flag != 0
  }

  /** `Flag.Must`: every bit of `flag` is set in `f`. */
  predicate Must(f: Flag, flag: Flag)
    ensures flag == 0 ==> Must(f, flag)
    ensures Must(f, flag) && flag != 0 ==> Has(f, flag)
  {
    f & flag == flag
  }

  /** The five values `Match` promises to return. */
  predicate IsResult(f: Flag) {
    f == 0 || f == M || f == MS || f == MF || f == F
  }

  /**
   * The rules. A Term's token list is `None` for the nil list of `Term()`.
   * Seq keeps `opt`, the index from which every remaining sub-rule is
   * optional.
   */
  datatype Rule =
    | TermRule(toks: Option<seq<Token>>)
    | OptionRule(rule: Handle)
    | OnceRule(rule: Handle)
    | MoreRule(rule: Handle, sep: Handle)
    | AnyRule(rules: seq<Handle>)
    | SeqRule(rules: seq<Handle>, opt: nat)

  /** A rule with the state its `base` holds, and the `pos` of Any and Seq. */
  datatype Node = Node(rule: Rule, flag: Flag, next: Option<Handle>, pos: nat)

  /** A panic of the source, a handle outside the arena, or exhausted fuel. */
  datatype Failure = Dangling | Recursion | NotSupported | OutOfFuel

  /** The arena after an operation and its value, or the failure that stopped it. */
  datatype Res<T> = Ok(nodes: seq<Node>, value: T) | Fail(failure: Failure)

  /** A fresh node as the constructors make it: flag 0, no `next`, position 0. */
  function Fresh(rule: Rule): Node {
    Node(rule, 0, None, 0)
  }

  function SetFlag(a: seq<Node>, h: Handle, f: Flag): (r: seq<Node>)
    requires h < |a|
    ensures |r| == |a|
  {
    a[h := a[h].(flag := f)]
  }

  function SetPos(a: seq<Node>, h: Handle, p: nat, f: Flag): (r: seq<Node>)
    requires h < |a|
    ensures |r| == |a|
  {
    a[h := a[h].(pos := p, flag := f)]
  }

  // ------------------------------------------------------------------
  // Term

  /** Some listed token `Has` the input token. */
  function Listed(toks: seq<Token>, tok: Token): (b: bool)
    ensures b <==> exists i :: 0 <= i < |toks| && Tokens.Has(toks[i], tok)
  {
    if toks == [] then false
    else Tokens.Has(toks[0], tok) || (assert forall i :: 1 <= i < |toks| ==> toks[i] == toks[1..][i - 1]; Listed(toks[1..], tok))
  }

  /** `term.Match`: EOF or the nil list finish; a listed token matches and finishes; anything else fails. */
  function TermMatch(toks: Option<seq<Token>>, tok: Token): (f: Flag)
    ensures f == F <==> tok == Tokens.EOF || toks.None?
    ensures f == MF <==> tok != Tokens.EOF && toks.Some? && exists i :: 0 <= i < |toks.value| && Tokens.Has(toks.value[i], tok)
    ensures f == 0 <==> tok != Tokens.EOF && toks.Some? && !exists i :: 0 <= i < |toks.value| && Tokens.Has(toks.value[i], tok)
  {
    if tok == Tokens.EOF || toks.None? then F
    else if Listed(toks.value, tok) then MF
    else 0
  }

  // ------------------------------------------------------------------
  // IsOption and the `opt` of Seq

  /** `IsOption`: only `Term()` and Option are optional by themselves; Once asks its rule, Any all of its rules. */
  function IsOption(a: seq<Node>, h: Handle, fuel: nat): (r: Option<bool>)
    ensures r.Some? ==> fuel > 0 && h < |a|
    ensures fuel > 0 && h < |a| && !a[h].rule.OnceRule? && !a[h].rule.AnyRule? ==>
              r == Some(a[h].rule.OptionRule? || a[h].rule == TermRule(None))
    decreases fuel, 0, 0
  {
    if fuel == 0 || h >= |a| then None
    else match a[h].rule
      case TermRule(toks) => Some(toks.None?)
      case OptionRule(_) => Some(true)
      case OnceRule(r) => IsOption(a, r, fuel - 1)
      case MoreRule(_, _) => Some(false)
      case AnyRule(rs) => AllOption(a, rs, 0, fuel - 1)
      case SeqRule(_, _) => Some(false)
  }

  /** The loop of `alternative.IsOption` from index `i`: false at the first rule that is not optional. */
  function AllOption(a: seq<Node>, rs: seq<Handle>, i: nat, fuel: nat): (r: Option<bool>)
    ensures r == Some(true) ==> forall j :: i <= j < |rs| ==> IsOption(a, rs[j], fuel) == Some(true)
    ensures r == Some(false) ==> exists j :: i <= j < |rs| && IsOption(a, rs[j], fuel) == Some(false)
    decreases fuel, 1, |rs| - i
  {
    if i >= |rs| then Some(true)
    else match IsOption(a, rs[i], fuel)
      case None => None
      case Some(b) => if b then AllOption(a, rs, i + 1, fuel) else Some(false)
  }

  /**
   * The loop that sets `opt`, over the last `i` rules from the end: the
   * smallest index from which every remaining rule is optional, `|rs|`
   * when the last one is not.
   */
  function OptFrom(a: seq<Node>, rs: seq<Handle>, i: nat, fuel: nat): (r: Option<nat>)
    requires i <= |rs|
    ensures r.Some? ==> r.value <= i
    ensures r.Some? ==> forall j :: r.value <= j < i ==> IsOption(a, rs[j], fuel) == Some(true)
    ensures r.Some? && r.value > 0 ==> IsOption(a, rs[r.value - 1], fuel) == Some(false)
  {
    if i == 0 then Some(0)
    else match IsOption(a, rs[i - 1], fuel)
      case None => None
      case Some(b) => if b then OptFrom(a, rs, i - 1, fuel) else Some(i)
  }

  function OptOf(a: seq<Node>, rs: seq<Handle>, fuel: nat): (r: Option<nat>)
    ensures r.Some? ==> r.value <= |rs|
    ensures r.Some? ==> forall j :: r.value <= j < |rs| ==> IsOption(a, rs[j], fuel) == Some(true)
    ensures r.Some? && r.value > 0 ==> IsOption(a, rs[r.value - 1], fuel) == Some(false)
  {
    OptFrom(a, rs, |rs|, fuel)
  }

  // ------------------------------------------------------------------
  // Bind

  /**
   * `Bind`: Option, Once and More take the rule as their sub-rule; Any and
   * Seq copy the sub-rules of another Any or Seq, and refuse anything else
   * or a bind while Handing; Seq recomputes `opt`. Term refuses to bind.
   * A Seq bound to itself has already replaced its own list by a fresh one
   * of nil rules when it reads them, so the first `IsOption` it asks fails.
   */
  function Bind(a: seq<Node>, h: Handle, c: Handle, fuel: nat): (r: Res<()>)
    ensures r.Ok? ==> |r.nodes| == |a| && forall i :: 0 <= i < |a| && i != h ==> r.nodes[i] == a[i]
    ensures r.Ok? ==> h < |a| && r.nodes[h].flag == a[h].flag && r.nodes[h].pos == a[h].pos && r.nodes[h].next == a[h].next
    ensures h < |a| && a[h].rule.TermRule? ==> r == Fail(NotSupported)
    ensures h < |a| && a[h].rule.OptionRule? ==> r == Ok(a[h := a[h].(rule := OptionRule(c))], ())
    ensures h < |a| && a[h].rule.OnceRule? ==> r == Ok(a[h := a[h].(rule := OnceRule(c))], ())
    ensures h < |a| && a[h].rule.MoreRule? ==> r == Ok(a[h := a[h].(rule := MoreRule(c, a[h].rule.sep))], ())
    ensures h < |a| && (a[h].rule.AnyRule? || a[h].rule.SeqRule?) && Has(a[h].flag, Handing) ==> r == Fail(NotSupported)
    ensures h < |a| && a[h].rule.AnyRule? && !(c < |a| && a[c].rule.AnyRule?) ==> r == Fail(NotSupported)
    ensures h < |a| && a[h].rule.SeqRule? && !(c < |a| && a[c].rule.SeqRule?) ==> r == Fail(NotSupported)
    ensures h < |a| && a[h].rule.SeqRule? && !Has(a[h].flag, Handing) && c == h && |a[h].rule.rules| > 0 ==> r == Fail(Dangling)
    ensures r.Ok? && a[h].rule.SeqRule? ==>
              && r.nodes[h].rule.SeqRule?
              && r.nodes[h].rule.rules == a[c].rule.rules
              && OptOf(a, a[c].rule.rules, fuel) == Some(r.nodes[h].rule.opt)
    ensures r.Ok? && a[h].rule.AnyRule? ==> r.nodes[h].rule == a[c].rule
  {
    if h >= |a| then Fail(Dangling)
    else
      var n := a[h];
      match n.rule
      case TermRule(_) => Fail(NotSupported)
      case OptionRule(_) => Ok(a[h := n.(rule := OptionRule(c))], ())
      case OnceRule(_) => Ok(a[h := n.(rule := OnceRule(c))], ())
      case MoreRule(_, y) => Ok(a[h := n.(rule := MoreRule(c, y))], ())
      case AnyRule(_) =>
        if c >= |a| || !a[c].rule.AnyRule? || Has(n.flag, Handing) then Fail(NotSupported)
        else Ok(a[h := n.(rule := AnyRule(a[c].rule.rules))], ())
      case SeqRule(_, _) =>
        if c >= |a| || !a[c].rule.SeqRule? || Has(n.flag, Handing) then Fail(NotSupported)
        else if c == h && |n.rule.rules| > 0 then Fail(Dangling)
        else
          match OptOf(a, a[c].rule.rules, fuel)
          case None => Fail(OutOfFuel)
          case Some(o) => Ok(a[h := n.(rule := SeqRule(a[c].rule.rules, o))], ())
  }

  // ------------------------------------------------------------------
  // Flag.String

  const FlagLetters: string := "MSFHC"

  /** `1 << i` for the five lettered bits. */
  function Bit(i: nat): Flag
    requires i < 5
  {
    if i == 0 then Matched else if i == 1 then Standing else if i == 2 then Finished else if i == 3 then Handing else Cloning
  }

  /** The letters of the bits from `i` to 4 that are set in `f`, in bit order. */
  function LettersFrom(f: Flag, i: nat): (s: string)
    requires i <= 5
    ensures |s| <= 5 - i
    decreases 5 - i
  {
    if i == 5 then ""
    else (if f & Bit(i) != 0 then [FlagLetters[i]] else []) + LettersFrom(f, i + 1)
  }

  /** Only letters of the bits from `i` on appear. */
  lemma {:induction false} LettersFromOnly(f: Flag, i: nat, c: char)
    requires i <= 5 && c in LettersFrom(f, i)
    ensures c in FlagLetters[i..]
    decreases 5 - i
  {
    if i < 5 && c != FlagLetters[i] {
      LettersFromOnly(f, i + 1, c);
    }
  }

  /** No letter of the table occurs again after its own position. */
  lemma LettersDistinct(i: nat)
    requires i < 5
    ensures FlagLetters[i] !in FlagLetters[i + 1..]
  {
    assert FlagLetters == ['M', 'S', 'F', 'H', 'C'];
    if i == 0 {
      assert FlagLetters[1..] == ['S', 'F', 'H', 'C'];
    } else if i == 1 {
      assert FlagLetters[2..] == ['F', 'H', 'C'];
    } else if i == 2 {
      assert FlagLetters[3..] == ['H', 'C'];
    } else if i == 3 {
      assert FlagLetters[4..] == ['C'];
    }
  }

  /** The letter of bit `i` does not reappear among the later bits' letters. */
  lemma LettersFromNoRepeat(f: Flag, i: nat)
    requires i < 5
    ensures FlagLetters[i] !in LettersFrom(f, i + 1)
  {
    if FlagLetters[i] in LettersFrom(f, i + 1) {
      LettersFromOnly(f, i + 1, FlagLetters[i]);
      LettersDistinct(i);
    }
  }

  /** The letter of bit `j` appears exactly when the bit is set. */
  lemma {:induction false} LettersFromHas(f: Flag, i: nat, j: nat)
    requires i <= j < 5
    ensures FlagLetters[j] in LettersFrom(f, i) <==> f & Bit(j) != 0
    decreases 5 - i
  {
    if i < j {
      LettersFromHas(f, i + 1, j);
      LettersDistinct(i);
      assert FlagLetters[j] in FlagLetters[i + 1..];
    } else {
      LettersFromNoRepeat(f, i);
    }
  }

  /** `Flag.String`: "0" for no bits, otherwise the letters of M, S, F, H and Cloning that are set. */
  function FlagString(f: Flag): (s: string)
    ensures f == 0 <==> s == "0"
  {
    if f == 0 then "0"
    else
      var s := LettersFrom(f, 0);
      assert '0' !in s by {
        if '0' in s {
          LettersFromOnly(f, 0, '0');
        }
      }
      s
  }

  /** A nonzero flag word spells the letter of each of its five lettered bits that is set, and no other. */
  lemma FlagStringHas(f: Flag, j: nat)
    requires f != 0 && j < 5
    ensures FlagLetters[j] in FlagString(f) <==> f & Bit(j) != 0
  {
    LettersFromHas(f, 0, j);
  }

  /** The five answers of `Match` spell 0, M, MS, MF and F. */
  lemma FlagStringResults()
    ensures FlagString(0) == "0" && FlagString(M) == "M" && FlagString(MS) == "MS"
    ensures FlagString(MF) == "MF" && FlagString(F) == "F"
  {
  }

  // ------------------------------------------------------------------
  // Clone

  /**
   * `Clone`: a deep copy that stops at rules being cloned. Term and Once
   * return themselves, and so does a rule whose Cloning bit is set; any
   * other rule sets Cloning, copies its parts, appends the copy and clears
   * Cloning again. The arena only grows: every existing node is as before.
   */
  function Clone(a: seq<Node>, h: Handle, fuel: nat): (r: Res<Handle>)
    ensures r.Ok? ==> |r.nodes| >= |a| && r.value < |r.nodes| && r.nodes[..|a|] == a
    ensures r.Ok? && h < |a| && (a[h].rule.TermRule? || a[h].rule.OnceRule? || Has(a[h].flag, Cloning)) ==> r == Ok(a, h)
    ensures r.Ok? && h < |a| && !(a[h].rule.TermRule? || a[h].rule.OnceRule? || Has(a[h].flag, Cloning)) ==>
              && r.value == |r.nodes| - 1 >= |a|
              && r.nodes[r.value].flag == 0 && r.nodes[r.value].next.None? && r.nodes[r.value].pos == 0
              && SameShape(a[h].rule, r.nodes[r.value].rule)
    decreases fuel, 0, 0
  {
    if fuel == 0 then Fail(OutOfFuel)
    else if h >= |a| then Fail(Dangling)
    else
      var n := a[h];
      if n.rule.TermRule? || n.rule.OnceRule? || Has(n.flag, Cloning) then Ok(a, h)
      else
        var a1 := SetFlag(a, h, n.flag + Cloning);
        match CloneParts(a1, n.rule, fuel - 1)
        case Fail(e) => Fail(e)
        case Ok(a2, rule) =>
          assert a[h].flag + Cloning - Cloning == a[h].flag;
          Ok(Unmark(a2, h, rule), |a2|)
  }

  /** The last step of `Clone`: append the copy and clear the Cloning bit of `h` again. */
  function Unmark(a2: seq<Node>, h: Handle, rule: Rule): (b: seq<Node>)
    requires h < |a2|
    ensures |b| == |a2| + 1 && b[|a2|] == Fresh(rule)
    ensures forall i :: 0 <= i < |a2| && i != h ==> b[i] == a2[i]
    ensures b[h] == a2[h].(flag := a2[h].flag - Cloning)
  {
    var a3 := a2 + [Fresh(rule)];
    SetFlag(a3, h, a3[h].flag - Cloning)
  }

  /** After `Unmark`, the nodes the clone started from are as they were, and the new ones are kept. */
  lemma UnmarkRestores(a: seq<Node>, h: Handle, a2: seq<Node>, rule: Rule)
    requires h < |a| <= |a2| && a2[..|a|] == SetFlag(a, h, a[h].flag + Cloning)
    ensures Unmark(a2, h, rule)[..|a|] == a
    ensures forall i :: |a| <= i < |a2| ==> Unmark(a2, h, rule)[i] == a2[i]
  {
    assert a2[h] == a[h].(flag := a[h].flag + Cloning);
    assert a[h].flag + Cloning - Cloning == a[h].flag;
    var b := Unmark(a2, h, rule);
    forall i | 0 <= i < |a| ensures b[i] == a[i] {
      if i != h {
        assert a2[i] == a2[..|a|][i];
      }
    }
  }


  /** The copy keeps the kind of rule, the number of sub-rules and Seq's `opt`. */
  ghost predicate SameShape(x: Rule, y: Rule) {
    match x
    case TermRule(t) => y == x
    case OptionRule(_) => y.OptionRule?
    case OnceRule(_) => y == x
    case MoreRule(_, _) => y.MoreRule?
    case AnyRule(rs) => y.AnyRule? && |y.rules| == |rs|
    case SeqRule(rs, opt) => y.SeqRule? && |y.rules| == |rs| && y.opt == opt
  }

  /**
   * `c` is what cloning rule `x` of arena `a` gave in arena `b`: the rule
   * itself for Term, Once and a rule being cloned, otherwise a new node of
   * the same shape with a clear state. A handle that `a` does not hold yet
   * is not constrained.
   */
  ghost predicate Copied(a: seq<Node>, b: seq<Node>, x: Handle, c: Handle) {
    x < |a| ==>
      && c < |b|
      && if a[x].rule.TermRule? || a[x].rule.OnceRule? || Has(a[x].flag, Cloning) then c == x
         else |a| <= c && b[c].flag == 0 && b[c].next.None? && b[c].pos == 0 && SameShape(a[x].rule, b[c].rule)
  }

  /** Each sub-rule of the copy `y` is what cloning the sub-rule of `x` at the same place gave. */
  ghost predicate PartsCopied(a: seq<Node>, b: seq<Node>, x: Rule, y: Rule) {
    match x
    case OptionRule(s) => y.OptionRule? && Copied(a, b, s, y.rule)
    case MoreRule(s, t) => y.MoreRule? && Copied(a, b, s, y.rule) && Copied(a, b, t, y.sep)
    case AnyRule(rs) => y.AnyRule? && |y.rules| == |rs| && forall i :: 0 <= i < |rs| ==> Copied(a, b, rs[i], y.rules[i])
    case SeqRule(rs, opt) =>
      y.SeqRule? && |y.rules| == |rs| && y.opt == opt && forall i :: 0 <= i < |rs| ==> Copied(a, b, rs[i], y.rules[i])
    case _ => y == x
  }

  /** A copy stays a copy when the arena grows and the nodes made since `a` are kept. */
  lemma CopiedGrows(a: seq<Node>, b: seq<Node>, b2: seq<Node>, x: Handle, c: Handle)
    requires Copied(a, b, x, c) && |b| <= |b2|
    requires forall i :: |a| <= i < |b| ==> b2[i] == b[i]
    ensures Copied(a, b2, x, c)
  {
  }

  /** A copy made from a grown arena is a copy from the arena it grew from. */
  lemma CopiedShrinks(a: seq<Node>, a1: seq<Node>, b: seq<Node>, x: Handle, c: Handle)
    requires |a| <= |a1| && a1[..|a|] == a && Copied(a1, b, x, c)
    ensures Copied(a, b, x, c)
  {
    if x < |a| {
      assert a1[x] == a[x];
    }
  }

  lemma PartsGrow(a: seq<Node>, b: seq<Node>, b2: seq<Node>, x: Rule, y: Rule)
    requires PartsCopied(a, b, x, y) && |b| <= |b2|
    requires forall i :: |a| <= i < |b| ==> b2[i] == b[i]
    ensures PartsCopied(a, b2, x, y)
  {
    match x
    case OptionRule(s) => CopiedGrows(a, b, b2, s, y.rule);
    case MoreRule(s, t) => CopiedGrows(a, b, b2, s, y.rule); CopiedGrows(a, b, b2, t, y.sep);
    case AnyRule(rs) =>
      forall i | 0 <= i < |rs| ensures Copied(a, b2, rs[i], y.rules[i]) {
        CopiedGrows(a, b, b2, rs[i], y.rules[i]);
      }
    case SeqRule(rs, _) =>
      forall i | 0 <= i < |rs| ensures Copied(a, b2, rs[i], y.rules[i]) {
        CopiedGrows(a, b, b2, rs[i], y.rules[i]);
      }
    case _ =>
  }

  /** More clones its rule, then its separator in the arena the first clone left. */
  lemma MorePartsCopied(a: seq<Node>, a1: seq<Node>, a2: seq<Node>, x: Handle, y: Handle, c: Handle, d: Handle)
    requires |a| <= |a1| <= |a2| && a1[..|a|] == a && a2[..|a1|] == a1
    requires Copied(a, a1, x, c) && Copied(a1, a2, y, d)
    ensures PartsCopied(a, a2, MoreRule(x, y), MoreRule(c, d))
  {
    CopiedGrows(a, a1, a2, x, c);
    CopiedShrinks(a, a1, a2, y, d);
  }

  /** The copies `CloneFrom` made from index 0 are the parts of the copied Any or Seq. */
  lemma ListPartsCopied(a: seq<Node>, b: seq<Node>, rs: seq<Handle>, cs: seq<Handle>, acc: seq<Handle>, i: nat, opt: nat)
    requires acc == [] && i == 0 && i <= |rs| && |acc| <= |cs|
    requires AllCopied(a, b, rs[i..], cs[|acc|..])
    ensures PartsCopied(a, b, AnyRule(rs), AnyRule(cs)) && PartsCopied(a, b, SeqRule(rs, opt), SeqRule(cs, opt))
  {
    assert rs[i..] == rs && cs[|acc|..] == cs;
  }

  /** `ys` holds, place by place, what cloning the rules of `xs` gave. */
  ghost predicate AllCopied(a: seq<Node>, b: seq<Node>, xs: seq<Handle>, ys: seq<Handle>) {
    |xs| == |ys| && forall j :: 0 <= j < |xs| ==> Copied(a, b, xs[j], ys[j])
  }

  /** The parts of an Option, More, Any or Seq cloned in the order the source clones them. */
  function CloneParts(a: seq<Node>, rule: Rule, fuel: nat): (r: Res<Rule>)
    ensures r.Ok? ==> |r.nodes| >= |a| && r.nodes[..|a|] == a && SameShape(rule, r.value)
    decreases fuel, 2, 0
  {
    match rule
    case OptionRule(x) =>
      (match Clone(a, x, fuel)
       case Fail(e) => Fail(e)
       case Ok(a1, c) => Ok(a1, OptionRule(c)))
    case MoreRule(x, y) =>
      (match Clone(a, x, fuel)
       case Fail(e) => Fail(e)
       case Ok(a1, c) =>
         match Clone(a1, y, fuel)
         case Fail(e) => Fail(e)
         case Ok(a2, d) =>
           assert a2[..|a|] == a2[..|a1|][..|a|];
           Ok(a2, MoreRule(c, d)))
    case AnyRule(rs) =>
      (match CloneFrom(a, rs, 0, [], fuel)
       case Fail(e) => Fail(e)
       case Ok(a1, cs) => Ok(a1, AnyRule(cs)))
    case SeqRule(rs, opt) =>
      (match CloneFrom(a, rs, 0, [], fuel)
       case Fail(e) => Fail(e)
       case Ok(a1, cs) => Ok(a1, SeqRule(cs, opt)))
    case _ => Ok(a, rule)
  }

  /** The loop that clones the sub-rules of Any and Seq from index `i` on, `acc` holding the copies so far. */
  function CloneFrom(a: seq<Node>, rs: seq<Handle>, i: nat, acc: seq<Handle>, fuel: nat): (r: Res<seq<Handle>>)
    requires i <= |rs|
    ensures r.Ok? ==> |r.nodes| >= |a| && r.nodes[..|a|] == a && |r.value| == |acc| + |rs| - i
    decreases fuel, 1, |rs| - i
  {
    if i == |rs| then Ok(a, acc)
    else
      match Clone(a, rs[i], fuel)
      case Fail(e) => Fail(e)
      case Ok(a1, c) =>
        match CloneFrom(a1, rs, i + 1, acc + [c], fuel)
        case Fail(e) => Fail(e)
        case Ok(a2, cs) =>
          assert a2[..|a|] == a2[..|a1|][..|a|];
          Ok(a2, cs)
  }

  /** One turn of the `CloneFrom` loop keeps every copy made so far, and makes one more. */
  lemma CloneFromStep(a: seq<Node>, a1: seq<Node>, a2: seq<Node>, rs: seq<Handle>, i: nat, acc: seq<Handle>, c: Handle, cs: seq<Handle>)
    requires i < |rs| && |a| <= |a1| <= |a2| && a1[..|a|] == a && a2[..|a1|] == a1
    requires Copied(a, a1, rs[i], c)
    requires |cs| == |acc| + |rs| - i && cs[..|acc| + 1] == acc + [c]
    requires AllCopied(a1, a2, rs[i + 1..], cs[|acc| + 1..])
    ensures cs[..|acc|] == acc
    ensures AllCopied(a, a2, rs[i..], cs[|acc|..])
  {
    assert cs[..|acc|] == cs[..|acc| + 1][..|acc|];
    assert cs[|acc|] == (acc + [c])[|acc|];
    CopiedGrows(a, a1, a2, rs[i], c);
    var xs, ys := rs[i + 1..], cs[|acc| + 1..];
    forall j | 0 <= j < |rs| - i ensures Copied(a, a2, rs[i..][j], cs[|acc|..][j]) {
      if j > 0 {
        assert rs[i..][j] == xs[j - 1] && cs[|acc|..][j] == ys[j - 1];
        CopiedShrinks(a, a1, a2, xs[j - 1], ys[j - 1]);
      }
    }
  }


  /** What `Clone` gives is a copy of the rule in the sense of `Copied`: itself, or a new node of its shape. */
  lemma CloneCopied(a: seq<Node>, h: Handle, fuel: nat)
    requires h < |a| && Clone(a, h, fuel).Ok?
    ensures Copied(a, Clone(a, h, fuel).nodes, h, Clone(a, h, fuel).value)
  {
  }

  /** The copies `CloneFrom` adds after `acc` are, index by index, what cloning the sub-rules gave. */
  lemma {:induction false} CloneFromDeep(a: seq<Node>, rs: seq<Handle>, i: nat, acc: seq<Handle>, fuel: nat)
    requires i <= |rs| && CloneFrom(a, rs, i, acc, fuel).Ok?
    ensures var r := CloneFrom(a, rs, i, acc, fuel);
            r.value[..|acc|] == acc && AllCopied(a, r.nodes, rs[i..], r.value[|acc|..])
    decreases |rs| - i
  {
    if i < |rs| {
      var c := Clone(a, rs[i], fuel);
      var r := CloneFrom(c.nodes, rs, i + 1, acc + [c.value], fuel);
      if rs[i] < |a| {
        CloneCopied(a, rs[i], fuel);
      }
      CloneFromDeep(c.nodes, rs, i + 1, acc + [c.value], fuel);
      assert c.nodes[..|a|] == a;
      assert r.nodes[..|c.nodes|] == c.nodes;
      CloneFromStep(a, c.nodes, r.nodes, rs, i, acc, c.value, r.value);
    } else {
      var r := CloneFrom(a, rs, i, acc, fuel);
      assert r.value == acc;
      assert r.value[..|acc|] == acc && r.value[|acc|..] == [] && rs[i..] == [];
    }
  }

  /** Each part of the copy made by `CloneParts` is what cloning the part of the original gave. */
  lemma ClonePartsDeep(a: seq<Node>, rule: Rule, fuel: nat)
    requires CloneParts(a, rule, fuel).Ok?
    ensures PartsCopied(a, CloneParts(a, rule, fuel).nodes, rule, CloneParts(a, rule, fuel).value)
  {
    match rule
    case OptionRule(x) =>
      if x < |a| {
        CloneCopied(a, x, fuel);
      }
    case MoreRule(x, y) =>
      var c := Clone(a, x, fuel);
      if x < |a| {
        CloneCopied(a, x, fuel);
      }
      if y < |c.nodes| {
        CloneCopied(c.nodes, y, fuel);
      }
      MorePartsCopied(a, c.nodes, Clone(c.nodes, y, fuel).nodes, x, y, c.value, Clone(c.nodes, y, fuel).value);
    case AnyRule(rs) =>
      var r := CloneFrom(a, rs, 0, [], fuel);
      CloneFromDeep(a, rs, 0, [], fuel);
      ListPartsCopied(a, r.nodes, rs, r.value, [], 0, 0);
    case SeqRule(rs, opt) =>
      var r := CloneFrom(a, rs, 0, [], fuel);
      CloneFromDeep(a, rs, 0, [], fuel);
      ListPartsCopied(a, r.nodes, rs, r.value, [], 0, opt);
    case _ =>
  }

  /**
   * The clone is deep: the copy of a rule that is not kept as itself holds,
   * at each place, what cloning the original's sub-rule at that place gave
   * (`Copied`), with the rule being cloned marked Cloning, so that a
   * reference back to it is kept rather than copied again.
   */
  lemma CloneDeep(a: seq<Node>, h: Handle, fuel: nat)
    requires h < |a| && Clone(a, h, fuel).Ok?
    requires !(a[h].rule.TermRule? || a[h].rule.OnceRule? || Has(a[h].flag, Cloning))
    ensures var r := Clone(a, h, fuel);
            PartsCopied(SetFlag(a, h, a[h].flag + Cloning), r.nodes, a[h].rule, r.nodes[r.value].rule)
  {
    var n := a[h];
    var a1 := SetFlag(a, h, n.flag + Cloning);
    var p := CloneParts(a1, n.rule, fuel - 1);
    ClonePartsDeep(a1, n.rule, fuel - 1);
    var b := Unmark(p.nodes, h, p.value);
    assert Clone(a, h, fuel) == Ok(b, |p.nodes|);
    assert b[|p.nodes|].rule == p.value;
    UnmarkRestores(a, h, p.nodes, p.value);
    PartsGrow(a1, p.nodes, b, n.rule, p.value);
  }

  // ------------------------------------------------------------------
  // Match

  /** `Rule.Match`, dispatched on the kind of rule. */
  function Match(a: seq<Node>, h: Handle, tok: Token, fuel: nat): (r: Res<Flag>)
    ensures r.Ok? ==> |r.nodes| >= |a| && IsResult(r.value)
    decreases fuel, 0, 0, 0
  {
    if fuel == 0 then Fail(OutOfFuel)
    else if h >= |a| then Fail(Dangling)
    else match a[h].rule
      case TermRule(toks) => Ok(a, TermMatch(toks, tok))
      case OptionRule(x) => OptionMatch(a, h, x, tok, fuel - 1)
      case OnceRule(x) => OnceMatch(a, h, x, tok, fuel - 1)
      case MoreRule(x, y) => MoreMatch(a, h, x, y, tok, fuel - 1)
      case AnyRule(rs) => AnyMatch(a, h, rs, tok, fuel - 1)
      case SeqRule(rs, opt) => SeqMatch(a, h, rs, opt, tok, fuel - 1)
  }

  /**
   * `base.match`, for a rule re-entered while Handing: EOF with no clone
   * clears the flag and finishes; otherwise the token goes to the clone
   * kept in `next`, made on first use.
   */
  function BaseMatch(a: seq<Node>, h: Handle, tok: Token, fuel: nat): (r: Res<Flag>)
    requires h < |a|
    ensures r.Ok? ==> |r.nodes| >= |a| && IsResult(r.value)
    decreases fuel, 1, 0, 0
  {
    var n := a[h];
    if tok == Tokens.EOF && n.next.None? then Ok(SetFlag(a, h, 0), F)
    else if n.next.None? then
      match Clone(a, h, fuel)
      case Fail(e) => Fail(e)
      case Ok(a1, c) => Match(a1[h := a1[h].(next := Some(c))], c, tok, fuel)
    else Match(a, n.next.value, tok, fuel)
  }

  /**
   * `base.eof`: clear the flag and send EOF to the clone, if there is one.
   * Without a clone nothing else changes and nothing can fail.
   */
  function Eof(a: seq<Node>, h: Handle, fuel: nat): (r: Res<Flag>)
    requires h < |a|
    ensures r.Ok? ==> |r.nodes| >= |a| && r.value == 0
    ensures a[h].next.None? ==> r == Ok(a[h := a[h].(flag := 0)], 0)
    decreases fuel, 1, 0, 0
  {
    var a1 := SetFlag(a, h, 0);
    match a[h].next
    case None => Ok(a1, 0)
    case Some(c) =>
      match Match(a1, c, Tokens.EOF, fuel)
      case Fail(e) => Fail(e)
      case Ok(a2, _) => Ok(a2, 0)
  }

  /** `option.Match`. */
  function OptionMatch(a: seq<Node>, h: Handle, x: Handle, tok: Token, fuel: nat): (r: Res<Flag>)
    requires h < |a|
    ensures r.Ok? ==> |r.nodes| >= |a| && IsResult(r.value)
    decreases fuel, 4, 0, 0
  {
    var n := a[h];
    if Has(n.flag, Handing) then BaseMatch(a, h, tok, fuel)
    else
      match Match(SetFlag(a, h, n.flag + Handing), x, tok, fuel)
      case Fail(e) => Fail(e)
      case Ok(a1, fl) => OptionSettle(a1, h, fl)
  }

  /** The switch that ends `option.Match` on the inner result `fl`. */
  function OptionSettle(a: seq<Node>, h: Handle, fl: Flag): (r: Res<Flag>)
    requires h < |a|
    ensures r.Ok? && |r.nodes| == |a| && (IsResult(fl) ==> IsResult(r.value))
  {
    var g := a[h].flag - Handing;
    if fl == 0 then Ok(SetFlag(a, h, 0), if g == 0 || Has(g, Standing) then F else 0)
    else if fl == M || fl == MS then Ok(SetFlag(a, h, fl), fl)
    else if fl == MF || fl == F then Ok(SetFlag(a, h, 0), fl)
    else Ok(SetFlag(a, h, g), fl)
  }

  /** `once.Match`: a recursion panics; once Finished, the rule answers Finished until EOF resets it. */
  function OnceMatch(a: seq<Node>, h: Handle, x: Handle, tok: Token, fuel: nat): (r: Res<Flag>)
    requires h < |a|
    ensures r.Ok? ==> |r.nodes| >= |a| && IsResult(r.value)
    decreases fuel, 4, 0, 0
  {
    var n := a[h];
    if Has(n.flag, Handing) then Fail(Recursion)
    else if Has(n.flag, Finished) then OnceDone(a, h, x, tok, fuel)
    else OnceRun(a, h, x, tok, fuel)
  }

  /** `once.Match` of a finished rule: EOF resets the rule and its sub-rule; the answer is Finished. */
  function OnceDone(a: seq<Node>, h: Handle, x: Handle, tok: Token, fuel: nat): (r: Res<Flag>)
    requires h < |a|
    ensures r.Ok? ==> |r.nodes| >= |a| && r.value == F
    decreases fuel, 3, 0, 0
  {
    if tok == Tokens.EOF then
      match Match(a, x, Tokens.EOF, fuel)
      case Fail(e) => Fail(e)
      case Ok(a1, _) =>
        match Eof(a1, h, fuel)
        case Fail(e) => Fail(e)
        case Ok(a2, _) => Ok(a2, F)
    else Ok(a, F)
  }

  /** `once.Match` of a rule still running: the sub-rule's answer, remembering Finished. */
  function OnceRun(a: seq<Node>, h: Handle, x: Handle, tok: Token, fuel: nat): (r: Res<Flag>)
    requires h < |a|
    ensures r.Ok? ==> |r.nodes| >= |a| && IsResult(r.value)
    decreases fuel, 3, 0, 0
  {
    match Match(SetFlag(a, h, a[h].flag + Handing), x, tok, fuel)
    case Fail(e) => Fail(e)
    case Ok(a1, fl) => OnceSettle(a1, h, tok, fl, fuel)
  }

  /** The end of `once.Match` on the sub-rule's result `fl`: clear Handing, then reset on EOF or remember Finished. */
  function OnceSettle(a: seq<Node>, h: Handle, tok: Token, fl: Flag, fuel: nat): (r: Res<Flag>)
    requires h < |a|
    ensures r.Ok? ==> |r.nodes| >= |a| && r.value == fl
    decreases fuel, 2, 0, 0
  {
    var a1 := SetFlag(a, h, a[h].flag - Handing);
    if tok == Tokens.EOF then
      match Eof(a1, h, fuel)
      case Fail(e) => Fail(e)
      case Ok(a2, _) => Ok(a2, fl)
    else if Has(fl, Finished) then Ok(SetFlag(a1, h, F), fl)
    else Ok(a1, fl)
  }

  /** `more.matchSep`: the separator's result, with the More rule's flag moved to the separator's state. */
  function MatchSep(a: seq<Node>, h: Handle, y: Handle, tok: Token, fuel: nat): (r: Res<Flag>)
    requires h < |a|
    ensures r.Ok? ==> |r.nodes| >= |a| && IsResult(r.value)
    decreases fuel, 2, 0, 0
  {
    match Match(a, y, tok, fuel)
    case Fail(e) => Fail(e)
    case Ok(a1, fl) =>
      if tok == Tokens.EOF then
        match Eof(a1, h, fuel)
        case Fail(e) => Fail(e)
        case Ok(a2, _) => Ok(a2, fl)
      else if fl == 0 then Ok(a1, if Has(a1[h].flag, Standing) then F else 0)
      else if fl == M then Ok(SetFlag(a1, h, F | Custom), M)
      else if fl == MS then Ok(SetFlag(a1, h, F | Custom), M)
      else if fl == MF then Ok(SetFlag(a1, h, S), M)
      else Ok(a1, fl)
  }

  /** `more.Match`. */
  function MoreMatch(a: seq<Node>, h: Handle, x: Handle, y: Handle, tok: Token, fuel: nat): (r: Res<Flag>)
    requires h < |a|
    ensures r.Ok? ==> |r.nodes| >= |a| && IsResult(r.value)
    decreases fuel, 4, 0, 0
  {
    var n := a[h];
    if Has(n.flag, Handing) then BaseMatch(a, h, tok, fuel)
    else
      var a0 := SetFlag(a, h, n.flag | Handing);
      if Has(n.flag | Handing, Custom) then
        match MatchSep(a0, h, y, tok, fuel)
        case Fail(e) => Fail(e)
        case Ok(a1, fl) =>
          if fl == 0 || tok == Tokens.EOF then Ok(SetFlag(a1, h, 0), fl)
          else if fl != F then Ok(a1, fl)
          else MoreBody(a1, h, x, y, tok, true, fuel)
      else MoreBody(a0, h, x, y, tok, false, fuel)
  }

  /** `more.Match` from the rule's own match on, `sep` telling whether the separator has been tried. */
  function MoreBody(a: seq<Node>, h: Handle, x: Handle, y: Handle, tok: Token, sep: bool, fuel: nat): (r: Res<Flag>)
    requires h < |a|
    ensures r.Ok? ==> |r.nodes| >= |a| && IsResult(r.value)
    decreases fuel, 3, 0, 0
  {
    match Match(a, x, tok, fuel)
    case Fail(e) => Fail(e)
    case Ok(a1, fl) =>
      if tok == Tokens.EOF then
        match MatchSep(a1, h, y, Tokens.EOF, fuel)
        case Fail(e) => Fail(e)
        case Ok(a2, _) => Ok(a2, fl)
      else if !sep && ((fl == 0 && Has(a1[h].flag, Standing)) || fl == F) then
        match MatchSep(a1, h, y, tok, fuel)
        case Fail(e) => Fail(e)
        case Ok(a2, fs) =>
          if fs == 0 then Ok(SetFlag(a2, h, 0), if Has(a2[h].flag, Standing) then F else 0)
          else if fs != F then Ok(a2, fs)
          else
            match Match(a2, x, tok, fuel)
            case Fail(e) => Fail(e)
            case Ok(a3, fr) => MoreSettle(a3, h, x, fr, true, fuel)
      else MoreSettle(a1, h, x, fl, sep, fuel)
  }

  /** Clear Handing if it is still set. */
  function Unhand(a: seq<Node>, h: Handle): (r: seq<Node>)
    requires h < |a|
    ensures |r| == |a|
  {
    if Has(a[h].flag, Handing) then SetFlag(a, h, a[h].flag - Handing) else a
  }

  /** The switch that ends `more.Match` on the rule's result `fl`. */
  function MoreSettle(a: seq<Node>, h: Handle, x: Handle, fl: Flag, sep: bool, fuel: nat): (r: Res<Flag>)
    requires h < |a|
    ensures r.Ok? ==> |r.nodes| >= |a| && (IsResult(fl) ==> IsResult(r.value))
    decreases fuel, 2, 0, 0
  {
    var g := a[h].flag;
    if fl == 0 then
      match Match(SetFlag(a, h, 0), x, Tokens.EOF, fuel)
      case Fail(e) => Fail(e)
      case Ok(a1, _) => Ok(Unhand(a1, h), if sep || Has(g, Standing | Finished) then F else 0)
    else if fl == M || fl == MS then Ok(Unhand(SetFlag(a, h, (g & 0xf8) | (fl & 0x6)), h), fl)
    else if fl == MF then Ok(Unhand(SetFlag(a, h, (g & 0xf8) | Standing), h), MS)
    else if fl == F then Ok(Unhand(SetFlag(a, h, 0), h), F)
    else Ok(Unhand(a, h), fl)
  }

  /** `alternative.Match`: the branch at `pos` first, then the following ones while they answer 0 or Finished. */
  function AnyMatch(a: seq<Node>, h: Handle, rs: seq<Handle>, tok: Token, fuel: nat): (r: Res<Flag>)
    requires h < |a|
    ensures r.Ok? ==> |r.nodes| >= |a| && IsResult(r.value)
    decreases fuel, 4, 0, 0
  {
    var n := a[h];
    if Has(n.flag, Handing) then BaseMatch(a, h, tok, fuel)
    else
      var p := if n.pos >= |rs| then 0 else n.pos;
      AnyLoop(SetPos(a, h, p, n.flag + Handing), h, rs, p, tok, 0, fuel)
  }

  /** One turn of the loop of `alternative.Match` at position `p`; `last` is the latest branch result. */
  function AnyLoop(a: seq<Node>, h: Handle, rs: seq<Handle>, p: nat, tok: Token, last: Flag, fuel: nat): (r: Res<Flag>)
    requires h < |a| && p <= |rs| + 1
    ensures r.Ok? ==> |r.nodes| >= |a| && (IsResult(last) ==> IsResult(r.value))
    decreases fuel, 3, |rs| + 1 - p, 1
  {
    if p >= |rs| then Ok(SetFlag(a, h, a[h].flag - Handing), last)
    else
      match Match(a, rs[p], tok, fuel)
      case Fail(e) => Fail(e)
      case Ok(a1, fl) => AnyStep(a1, h, rs, p, tok, fl, fuel)
  }

  /** The switch of `alternative.Match` on the branch result `fl`. */
  function AnyStep(a: seq<Node>, h: Handle, rs: seq<Handle>, p: nat, tok: Token, fl: Flag, fuel: nat): (r: Res<Flag>)
    requires h < |a| && p < |rs|
    ensures r.Ok? ==> |r.nodes| >= |a| && (IsResult(fl) ==> IsResult(r.value))
    decreases fuel, 3, |rs| + 1 - p, 0
  {
    if tok == Tokens.EOF then
      match Eof(SetPos(a, h, 0, a[h].flag), h, fuel)
      case Fail(e) => Fail(e)
      case Ok(a1, _) => Ok(a1, fl)
    else
      var t := AnyTurn(a[h].flag, p, |rs|, fl);
      if t.stop then Ok(SetFlag(a, h, t.flag), fl)
      else AnyLoop(SetPos(a, h, t.pos, t.flag), h, rs, t.pos, tok, fl, fuel)
  }

  /** Where the loop of `alternative.Match` goes next: the new flag word and position, or a stop. */
  datatype Turn = Turn(flag: Flag, pos: nat, stop: bool)

  /**
   * The switch of `alternative.Match` on the result `fl` of the branch at
   * `p` of `n`, with flag word `g`: a match of M or MS stops the loop; MF,
   * and 0 or F after an earlier match, end it by moving past the last
   * branch; otherwise the next branch is tried.
   */
  function AnyTurn(g: Flag, p: nat, n: nat, fl: Flag): (t: Turn)
    requires p < n
    ensures !t.stop ==> p < t.pos <= n + 1
    ensures t.stop ==> t.pos == p
  {
    if fl == 0 then
      if Has(g, Matched) then Turn(Handing, n + 1, false) else Turn(g, p + 1, false)
    else if fl == M || fl == MS then Turn((g | fl) - Handing, p, true)
    else if fl == MF then Turn(Handing, n + 1, false)
    else if fl == F then
      if Has(g, Matched) then Turn(Handing, p + 1, false)
      else Turn(if p + 1 == n then Handing else g, p + 1, false)
    else if Has(g, Matched) then Turn(g - Handing, p, true)
    else Turn(g, p + 1, false)
  }

  /** `concatenation.Match`: the sub-rule at `pos`, moving on while they answer Finished. */
  function SeqMatch(a: seq<Node>, h: Handle, rs: seq<Handle>, opt: nat, tok: Token, fuel: nat): (r: Res<Flag>)
    requires h < |a|
    ensures r.Ok? ==> |r.nodes| >= |a| && IsResult(r.value)
    decreases fuel, 4, 0, 0
  {
    var n := a[h];
    if Has(n.flag, Handing) then BaseMatch(a, h, tok, fuel)
    else
      var p := if n.pos >= |rs| then 0 else n.pos;
      SeqLoop(SetPos(a, h, p, n.flag + Handing), h, rs, opt, p, tok, 0, fuel)
  }

  /** One turn of the loop of `concatenation.Match` at position `p`. */
  function SeqLoop(a: seq<Node>, h: Handle, rs: seq<Handle>, opt: nat, p: nat, tok: Token, last: Flag, fuel: nat): (r: Res<Flag>)
    requires h < |a| && p <= |rs|
    ensures r.Ok? ==> |r.nodes| >= |a| && (IsResult(last) ==> IsResult(r.value))
    decreases fuel, 3, |rs| - p, 0
  {
    if p >= |rs| then Ok(SetFlag(a, h, a[h].flag - Handing), last)
    else
      match Match(a, rs[p], tok, fuel)
      case Fail(e) => Fail(e)
      case Ok(a1, fl) =>
        if tok == Tokens.EOF then
          match Eof(a1, h, fuel)
          case Fail(e) => Fail(e)
          case Ok(a2, _) => Ok(SetPos(a2, h, 0, a2[h].flag), fl)
        else if fl == F then SeqLoop(SetPos(a1, h, p + 1, Handing), h, rs, opt, p + 1, tok, F, fuel)
        else SeqSettle(a1, h, rs, opt, p, fl)
  }

  /** The switch of `concatenation.Match` for every result but Finished, and the final clearing of Handing. */
  function SeqSettle(a: seq<Node>, h: Handle, rs: seq<Handle>, opt: nat, p: nat, fl: Flag): (r: Res<Flag>)
    requires h < |a| && p < |rs|
    ensures r.Ok? && |r.nodes| == |a| && (IsResult(fl) ==> IsResult(r.value))
  {
    if fl == 0 then Ok(SetPos(a, h, 0, Handing - Handing), 0)
    else if fl == M then Ok(SetFlag(a, h, a[h].flag - Handing), M)
    else if fl == MS then Ok(SetFlag(a, h, (Handing | Standing) - Handing), if p + 1 < opt then M else MS)
    else if fl == MF then
      Ok(SetPos(a, h, p + 1, Handing - Handing), if p + 1 != |rs| then (if p + 1 < opt then M else MS) else MF)
    else Ok(SetFlag(a, h, a[h].flag - Handing), fl)
  }
}

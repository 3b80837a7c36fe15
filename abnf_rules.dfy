/**
 * The rule objects of the grammar engine as an arena that the operations
 * update in place: each node's flag, position and `next` clone change
 * while tokens are matched, exactly as the fields of the source's rule
 * structs do. Every method is proved to leave the arena and return the
 * value that the corresponding function of `Abnf` computes, and a panic
 * of the source becomes a `Panicked` outcome.
 */
module AbnfRules {
  import opened Wrappers
  import Tokens
  import opened Abnf

  /** What a call of the source does: return a value, or panic. */
  datatype Outcome<T> = Returned(value: T) | Panicked(failure: Failure)

  /** The outcome and the arena left behind are the ones `spec` describes. */
  predicate Agrees<T(==)>(spec: Res<T>, nodes: seq<Node>, out: Outcome<T>) {
    match out
    case Returned(v) => spec == Ok(nodes, v)
    case Panicked(e) => spec == Fail(e)
  }

  class Grammar {
    /** Every rule built so far; a handle is an index. */
    var nodes: seq<Node>

    constructor ()
      ensures nodes == []
    {
      nodes := [];
    }

    // ----------------------------------------------------------------
    // The constructors of the rules

    /** `Term(toks...)`; `None` is the nil list of `Term()`. */
    method NewTerm(toks: Option<seq<Token>>) returns (h: Handle)
      modifies this
      ensures nodes == old(nodes) + [Fresh(TermRule(toks))] && h == |old(nodes)|
    {
      h := |nodes|;
      nodes := nodes + [Fresh(TermRule(toks))];
    }

    /** `Option(rule)`. */
    method NewOption(rule: Handle) returns (h: Handle)
      modifies this
      ensures nodes == old(nodes) + [Fresh(OptionRule(rule))] && h == |old(nodes)|
    {
      h := |nodes|;
      nodes := nodes + [Fresh(OptionRule(rule))];
    }

    /** `Once(rule)`. */
    method NewOnce(rule: Handle) returns (h: Handle)
      modifies this
      ensures nodes == old(nodes) + [Fresh(OnceRule(rule))] && h == |old(nodes)|
    {
      h := |nodes|;
      nodes := nodes + [Fresh(OnceRule(rule))];
    }

    /** `More(rule, sep)`; a nil separator becomes a fresh `Term()`. */
    method NewMore(rule: Handle, sep: Option<Handle>) returns (h: Handle)
      modifies this
      ensures sep.Some? ==> nodes == old(nodes) + [Fresh(MoreRule(rule, sep.value))] && h == |old(nodes)|
      ensures sep.None? ==>
                && nodes == old(nodes) + [Fresh(TermRule(None)), Fresh(MoreRule(rule, |old(nodes)|))]
                && h == |old(nodes)| + 1
    {
      var y: Handle;
      match sep {
        case Some(s) =>
          y := s;
        case None =>
          y := |nodes|;
          nodes := nodes + [Fresh(TermRule(None))];
      }
      h := |nodes|;
      nodes := nodes + [Fresh(MoreRule(rule, y))];
    }

    /** `Any(rules...)`. */
    method NewAny(rules: seq<Handle>) returns (h: Handle)
      modifies this
      ensures nodes == old(nodes) + [Fresh(AnyRule(rules))] && h == |old(nodes)|
    {
      h := |nodes|;
      nodes := nodes + [Fresh(AnyRule(rules))];
    }

    /**
     * `Seq(rules...)`: `opt` walks back from the end over the optional
     * sub-rules and stops at the first that is not.
     */
    method NewSeq(rules: seq<Handle>, fuel: nat) returns (out: Outcome<Handle>)
      modifies this
      ensures OptOf(old(nodes), rules, fuel).None? ==> out == Panicked(OutOfFuel) && nodes == old(nodes)
      ensures OptOf(old(nodes), rules, fuel).Some? ==>
                && out == Returned(|old(nodes)|)
                && nodes == old(nodes) + [Fresh(SeqRule(rules, OptOf(old(nodes), rules, fuel).value))]
    {
      var opt := |rules|;
      var i := |rules|;
      while i > 0
        invariant nodes == old(nodes)
        invariant 0 <= i <= |rules| && opt == i
        invariant OptFrom(nodes, rules, i, fuel) == OptOf(nodes, rules, fuel)
        decreases i
      {
        var b := IsOption(rules[i - 1], fuel);
        if b.None? {
          return Panicked(OutOfFuel);
        }
        if !b.value {
          break;
        }
        opt := i - 1;
        i := i - 1;
      }
      out := Returned(|nodes|);
      nodes := nodes + [Fresh(SeqRule(rules, opt))];
    }

    // ----------------------------------------------------------------
    // IsOption and Bind

    /** `IsOption`, with the loop of `alternative.IsOption`. */
    method IsOption(h: Handle, fuel: nat) returns (b: Option<bool>)
      ensures b == Abnf.IsOption(nodes, h, fuel)
      decreases fuel
    {
      if fuel == 0 || h >= |nodes| {
        return None;
      }
      match nodes[h].rule {
        case TermRule(toks) =>
          b := Some(toks.None?);
        case OptionRule(_) =>
          b := Some(true);
        case OnceRule(x) =>
          b := IsOption(x, fuel - 1);
        case MoreRule(_, _) =>
          b := Some(false);
        case SeqRule(_, _) =>
          b := Some(false);
        case AnyRule(rs) =>
          var i := 0;
          while i < |rs|
            invariant 0 <= i <= |rs|
            invariant AllOption(nodes, rs, i, fuel - 1) == Abnf.IsOption(nodes, h, fuel)
          {
            var c := IsOption(rs[i], fuel - 1);
            if c.None? {
              return None;
            }
            if !c.value {
              return Some(false);
            }
            i := i + 1;
          }
          b := Some(true);
      }
    }

    /**
     * `Bind`: Option, Once and More take `c` as their rule; Any and Seq
     * copy the sub-rules of the Any or Seq at `c`, and Seq recomputes
     * `opt` while copying from the end; a Seq bound to itself reads back
     * the nil rules of its fresh list.
     */
    method Bind(h: Handle, c: Handle, fuel: nat) returns (out: Outcome<()>)
      modifies this
      ensures Agrees(Abnf.Bind(old(nodes), h, c, fuel), nodes, out)
    {
      if h >= |nodes| {
        return Panicked(Dangling);
      }
      var n := nodes[h];
      match n.rule {
        case TermRule(_) =>
          return Panicked(NotSupported);
        case OptionRule(_) =>
          nodes := nodes[h := n.(rule := OptionRule(c))];
        case OnceRule(_) =>
          nodes := nodes[h := n.(rule := OnceRule(c))];
        case MoreRule(_, y) =>
          nodes := nodes[h := n.(rule := MoreRule(c, y))];
        case AnyRule(_) =>
          if c >= |nodes| || !nodes[c].rule.AnyRule? || Has(n.flag, Handing) {
            return Panicked(NotSupported);
          }
          nodes := nodes[h := n.(rule := AnyRule(nodes[c].rule.rules))];
        case SeqRule(_, _) =>
          if c >= |nodes| || !nodes[c].rule.SeqRule? || Has(n.flag, Handing) {
            return Panicked(NotSupported);
          }
          if c == h && |n.rule.rules| > 0 {
            // The fresh list has replaced the one being copied: its first rule is nil.
            return Panicked(Dangling);
          }
          var rs := nodes[c].rule.rules;
          var opt := |rs|;
          var optional := true;
          var i := |rs|;
          while i > 0
            invariant nodes == old(nodes) && 0 <= i <= |rs|
            invariant optional ==> opt == i && OptFrom(nodes, rs, i, fuel) == OptOf(nodes, rs, fuel)
            invariant !optional ==> OptOf(nodes, rs, fuel) == Some(opt)
            decreases i
          {
            i := i - 1;
            if optional {
              var b := IsOption(rs[i], fuel);
              if b.None? {
                return Panicked(OutOfFuel);
              }
              if b.value {
                opt := i;
              } else {
                optional := false;
              }
            }
          }
          nodes := nodes[h := n.(rule := SeqRule(rs, opt))];
      }
      out := Returned(());
    }

    // ----------------------------------------------------------------
    // Clone

    /** `Clone`: copy the rule at `h` unless it is a Term, a Once or being cloned. */
    method Clone(h: Handle, fuel: nat) returns (out: Outcome<Handle>)
      modifies this
      ensures Agrees(Abnf.Clone(old(nodes), h, fuel), nodes, out)
      decreases fuel, 0, 1
    {
      if fuel == 0 {
        return Panicked(OutOfFuel);
      }
      if h >= |nodes| {
        return Panicked(Dangling);
      }
      var n := nodes[h];
      if n.rule.TermRule? || n.rule.OnceRule? || Has(n.flag, Cloning) {
        return Returned(h);
      }
      out := Copy(h, fuel);
    }

    /** The copying half of `Clone`: mark the rule, copy its parts, append the copy, unmark the rule. */
    method Copy(h: Handle, fuel: nat) returns (out: Outcome<Handle>)
      requires fuel > 0 && h < |nodes|
      requires !(nodes[h].rule.TermRule? || nodes[h].rule.OnceRule? || Has(nodes[h].flag, Cloning))
      modifies this
      ensures Agrees(Abnf.Clone(old(nodes), h, fuel), nodes, out)
      decreases fuel, 0, 0
    {
      var n := nodes[h];
      nodes := SetFlag(nodes, h, n.flag + Cloning);
      ghost var a1 := nodes;
      var c := CloneParts(n.rule, fuel - 1);
      ghost var a2 := nodes;
      match c {
        case Panicked(e) =>
          out := Panicked(e);
        case Returned(rule) =>
          out := Returned(|nodes|);
          nodes := nodes + [Fresh(rule)];
          nodes := SetFlag(nodes, h, nodes[h].flag - Cloning);
      }
      CloneAgrees(old(nodes), h, fuel, a1, a2, c, nodes, out);
    }

    /** The copies of the sub-rules of an Option, More, Any or Seq, in the order the source makes them. */
    method CloneParts(rule: Rule, fuel: nat) returns (out: Outcome<Rule>)
      modifies this
      ensures Agrees(Abnf.CloneParts(old(nodes), rule, fuel), nodes, out)
      decreases fuel, 2, 0
    {
      match rule {
        case OptionRule(x) =>
          var c := Clone(x, fuel);
          if c.Panicked? {
            return Panicked(c.failure);
          }
          out := Returned(OptionRule(c.value));
        case MoreRule(x, y) =>
          var c := Clone(x, fuel);
          if c.Panicked? {
            return Panicked(c.failure);
          }
          var d := Clone(y, fuel);
          if d.Panicked? {
            return Panicked(d.failure);
          }
          out := Returned(MoreRule(c.value, d.value));
        case AnyRule(rs) =>
          var cs := CloneRules(rs, fuel);
          if cs.Panicked? {
            return Panicked(cs.failure);
          }
          out := Returned(AnyRule(cs.value));
        case SeqRule(rs, opt) =>
          var cs := CloneRules(rs, fuel);
          if cs.Panicked? {
            return Panicked(cs.failure);
          }
          out := Returned(SeqRule(cs.value, opt));
        case _ =>
          out := Returned(rule);
      }
    }

    /** The loop of the Any and Seq clones: a copy of every sub-rule, in order. */
    method CloneRules(rs: seq<Handle>, fuel: nat) returns (out: Outcome<seq<Handle>>)
      modifies this
      ensures Agrees(CloneFrom(old(nodes), rs, 0, [], fuel), nodes, out)
      decreases fuel, 1, 0
    {
      var cs: seq<Handle> := [];
      var i := 0;
      while i < |rs|
        invariant 0 <= i <= |rs|
        invariant CloneFrom(nodes, rs, i, cs, fuel) == CloneFrom(old(nodes), rs, 0, [], fuel)
      {
        var c := Clone(rs[i], fuel);
        if c.Panicked? {
          return Panicked(c.failure);
        }
        cs := cs + [c.value];
        i := i + 1;
      }
      out := Returned(cs);
    }

    // ----------------------------------------------------------------
    // Match

    /** `Rule.Match`: the state change and the result of matching one token. */
    method Match(h: Handle, tok: Token, fuel: nat) returns (out: Outcome<Flag>)
      modifies this
      ensures Agrees(Abnf.Match(old(nodes), h, tok, fuel), nodes, out)
      decreases fuel, 0, 0, 0
    {
      if fuel == 0 {
        return Panicked(OutOfFuel);
      }
      if h >= |nodes| {
        return Panicked(Dangling);
      }
      match nodes[h].rule {
        case TermRule(toks) =>
          out := Returned(TermMatch(toks, tok));
        case OptionRule(x) =>
          out := OptionMatch(h, x, tok, fuel - 1);
        case OnceRule(x) =>
          out := OnceMatch(h, x, tok, fuel - 1);
        case MoreRule(x, y) =>
          out := MoreMatch(h, x, y, tok, fuel - 1);
        case AnyRule(rs) =>
          out := AnyMatch(h, rs, tok, fuel - 1);
        case SeqRule(rs, opt) =>
          out := SeqMatch(h, rs, opt, tok, fuel - 1);
      }
    }

    /** `base.match`: the token goes to the clone in `next`, made on first use. */
    method BaseMatch(h: Handle, tok: Token, fuel: nat) returns (out: Outcome<Flag>)
      requires h < |nodes|
      modifies this
      ensures Agrees(Abnf.BaseMatch(old(nodes), h, tok, fuel), nodes, out)
      decreases fuel, 1, 0, 0
    {
      if tok == Tokens.EOF && nodes[h].next.None? {
        nodes := SetFlag(nodes, h, 0);
        return Returned(F);
      }
      if nodes[h].next.None? {
        var c := Clone(h, fuel);
        if c.Panicked? {
          return Panicked(c.failure);
        }
        nodes := nodes[h := nodes[h].(next := Some(c.value))];
      }
      out := Match(nodes[h].next.value, tok, fuel);
    }

    /** `base.eof`: clear the flag and pass EOF on to the clone. */
    method Eof(h: Handle, fuel: nat) returns (out: Outcome<Flag>)
      requires h < |nodes|
      modifies this
      ensures Agrees(Abnf.Eof(old(nodes), h, fuel), nodes, out)
      decreases fuel, 1, 0, 0
    {
      nodes := SetFlag(nodes, h, 0);
      if nodes[h].next.Some? {
        out := Match(nodes[h].next.value, Tokens.EOF, fuel);
        if out.Panicked? {
          return;
        }
      }
      out := Returned(0);
    }

    /** `option.Match`. */
    method OptionMatch(h: Handle, x: Handle, tok: Token, fuel: nat) returns (out: Outcome<Flag>)
      requires h < |nodes|
      modifies this
      ensures Agrees(Abnf.OptionMatch(old(nodes), h, x, tok, fuel), nodes, out)
      decreases fuel, 4, 0, 0
    {
      if Has(nodes[h].flag, Handing) {
        out := BaseMatch(h, tok, fuel);
        return;
      }
      nodes := SetFlag(nodes, h, nodes[h].flag + Handing);
      out := Match(x, tok, fuel);
      if out.Panicked? {
        return;
      }
      out := OptionSettle(h, out.value);
    }

    /** The switch that ends `option.Match` on the sub-rule's result. */
    method OptionSettle(h: Handle, flag: Flag) returns (out: Outcome<Flag>)
      requires h < |nodes|
      modifies this
      ensures Agrees(Abnf.OptionSettle(old(nodes), h, flag), nodes, out)
    {
      var result := flag;
      var g := nodes[h].flag - Handing;
      if flag == 0 {
        if g == 0 || Has(g, Standing) {
          result := F;
        }
        nodes := SetFlag(nodes, h, 0);
      } else if flag == M || flag == MS {
        nodes := SetFlag(nodes, h, flag);
      } else if flag == MF || flag == F {
        nodes := SetFlag(nodes, h, 0);
      } else {
        nodes := SetFlag(nodes, h, g);
      }
      out := Returned(result);
    }

    /** `once.Match`. */
    method OnceMatch(h: Handle, x: Handle, tok: Token, fuel: nat) returns (out: Outcome<Flag>)
      requires h < |nodes|
      modifies this
      ensures Agrees(Abnf.OnceMatch(old(nodes), h, x, tok, fuel), nodes, out)
      decreases fuel, 4, 0, 0
    {
      if Has(nodes[h].flag, Handing) {
        return Panicked(Recursion);
      }
      if Has(nodes[h].flag, Finished) {
        out := OnceDone(h, x, tok, fuel);
      } else {
        out := OnceRun(h, x, tok, fuel);
      }
    }

    /** `once.Match` of a finished rule. */
    method OnceDone(h: Handle, x: Handle, tok: Token, fuel: nat) returns (out: Outcome<Flag>)
      requires h < |nodes|
      modifies this
      ensures Agrees(Abnf.OnceDone(old(nodes), h, x, tok, fuel), nodes, out)
      decreases fuel, 3, 0, 0
    {
      if tok == Tokens.EOF {
        out := Match(x, Tokens.EOF, fuel);
        if out.Panicked? {
          return;
        }
        out := Eof(h, fuel);
        if out.Panicked? {
          return;
        }
      }
      out := Returned(F);
    }

    /** `once.Match` of a rule still running. */
    method OnceRun(h: Handle, x: Handle, tok: Token, fuel: nat) returns (out: Outcome<Flag>)
      requires h < |nodes|
      modifies this
      ensures Agrees(Abnf.OnceRun(old(nodes), h, x, tok, fuel), nodes, out)
      decreases fuel, 3, 0, 0
    {
      nodes := SetFlag(nodes, h, nodes[h].flag + Handing);
      out := Match(x, tok, fuel);
      if out.Panicked? {
        return;
      }
      out := OnceSettle(h, tok, out.value, fuel);
    }

    /** The end of `once.Match`: clear Handing, then reset on EOF or remember Finished. */
    method OnceSettle(h: Handle, tok: Token, flag: Flag, fuel: nat) returns (out: Outcome<Flag>)
      requires h < |nodes|
      modifies this
      ensures Agrees(Abnf.OnceSettle(old(nodes), h, tok, flag, fuel), nodes, out)
      decreases fuel, 2, 0, 0
    {
      nodes := SetFlag(nodes, h, nodes[h].flag - Handing);
      if tok == Tokens.EOF {
        out := Eof(h, fuel);
        if out.Panicked? {
          return;
        }
      } else if Has(flag, Finished) {
        nodes := SetFlag(nodes, h, F);
      }
      out := Returned(flag);
    }

    /** `more.matchSep`: match the separator and move the More rule to the separator's state. */
    method MatchSep(h: Handle, y: Handle, tok: Token, fuel: nat) returns (out: Outcome<Flag>)
      requires h < |nodes|
      modifies this
      ensures Agrees(Abnf.MatchSep(old(nodes), h, y, tok, fuel), nodes, out)
      decreases fuel, 2, 0, 0
    {
      out := Match(y, tok, fuel);
      if out.Panicked? {
        return;
      }
      var flag := out.value;
      if tok == Tokens.EOF {
        out := Eof(h, fuel);
        if out.Panicked? {
          return;
        }
        return Returned(flag);
      }
      if flag == 0 {
        if Has(nodes[h].flag, Standing) {
          flag := F;
        }
      } else if flag == M {
        nodes := SetFlag(nodes, h, F | Custom);
      } else if flag == MS {
        flag := M;
        nodes := SetFlag(nodes, h, F | Custom);
      } else if flag == MF {
        flag := M;
        nodes := SetFlag(nodes, h, S);
      }
      out := Returned(flag);
    }

    /** `more.Match`: the rule, then the separator when the rule stops, then the rule again. */
    method MoreMatch(h: Handle, x: Handle, y: Handle, tok: Token, fuel: nat) returns (out: Outcome<Flag>)
      requires h < |nodes|
      modifies this
      ensures Agrees(Abnf.MoreMatch(old(nodes), h, x, y, tok, fuel), nodes, out)
      decreases fuel, 4, 0, 0
    {
      if Has(nodes[h].flag, Handing) {
        out := BaseMatch(h, tok, fuel);
        return;
      }
      nodes := SetFlag(nodes, h, nodes[h].flag | Handing);
      var sep := false;
      if Has(nodes[h].flag, Custom) {
        sep := true;
        out := MatchSep(h, y, tok, fuel);
        if out.Panicked? {
          return;
        }
        if out.value == 0 || tok == Tokens.EOF {
          nodes := SetFlag(nodes, h, 0);
          return;
        }
        if out.value != F {
          return;
        }
      }
      out := MoreRest(h, x, y, tok, sep, fuel);
    }

    /** `more.Match` from the rule's own match on. */
    method MoreRest(h: Handle, x: Handle, y: Handle, tok: Token, sep: bool, fuel: nat) returns (out: Outcome<Flag>)
      requires h < |nodes|
      modifies this
      ensures Agrees(MoreBody(old(nodes), h, x, y, tok, sep, fuel), nodes, out)
      decreases fuel, 3, 0, 0
    {
      out := Match(x, tok, fuel);
      if out.Panicked? {
        return;
      }
      var flag := out.value;
      if tok == Tokens.EOF {
        var o := MatchSep(h, y, Tokens.EOF, fuel);
        if o.Panicked? {
          return Panicked(o.failure);
        }
        return;
      }
      var sepDone := sep;
      if !sep && ((flag == 0 && Has(nodes[h].flag, Standing)) || flag == F) {
        sepDone := true;
        out := MatchSep(h, y, tok, fuel);
        if out.Panicked? {
          return;
        }
        flag := out.value;
        if flag == 0 {
          if Has(nodes[h].flag, Standing) {
            flag := F;
          }
          nodes := SetFlag(nodes, h, 0);
          return Returned(flag);
        }
        if flag != F {
          return;
        }
        out := Match(x, tok, fuel);
        if out.Panicked? {
          return;
        }
        flag := out.value;
      }
      out := MoreSettle(h, x, flag, sepDone, fuel);
    }

    /** The switch that ends `more.Match` on the rule's result. */
    method MoreSettle(h: Handle, x: Handle, flag: Flag, sep: bool, fuel: nat) returns (out: Outcome<Flag>)
      requires h < |nodes|
      modifies this
      ensures Agrees(Abnf.MoreSettle(old(nodes), h, x, flag, sep, fuel), nodes, out)
      decreases fuel, 2, 0, 0
    {
      var result := flag;
      var g := nodes[h].flag;
      if flag == 0 {
        if sep || Has(g, Standing | Finished) {
          result := F;
        }
        nodes := SetFlag(nodes, h, 0);
        var o := Match(x, Tokens.EOF, fuel);
        if o.Panicked? {
          return Panicked(o.failure);
        }
      } else if flag == M || flag == MS {
        nodes := SetFlag(nodes, h, (g & 0xf8) | (flag & 0x6));
      } else if flag == MF {
        nodes := SetFlag(nodes, h, (g & 0xf8) | Standing);
        result := MS;
      } else if flag == F {
        nodes := SetFlag(nodes, h, 0);
      }
      nodes := Unhand(nodes, h);
      out := Returned(result);
    }

    /**
     * `alternative.Match`: from the remembered position, try the branches
     * in turn while they answer 0 or Finished and no branch has matched.
     */
    method AnyMatch(h: Handle, rs: seq<Handle>, tok: Token, fuel: nat) returns (out: Outcome<Flag>)
      requires h < |nodes|
      modifies this
      ensures Agrees(Abnf.AnyMatch(old(nodes), h, rs, tok, fuel), nodes, out)
      decreases fuel, 4, 0, 0
    {
      if Has(nodes[h].flag, Handing) {
        out := BaseMatch(h, tok, fuel);
        return;
      }
      var pos := if nodes[h].pos >= |rs| then 0 else nodes[h].pos;
      nodes := SetPos(nodes, h, pos, nodes[h].flag + Handing);
      var flag: Flag := 0;
      while pos < |rs|
        invariant h < |nodes| && pos <= |rs| + 1
        invariant AnyLoop(nodes, h, rs, pos, tok, flag, fuel) == Abnf.AnyMatch(old(nodes), h, rs, tok, fuel)
        decreases |rs| + 1 - pos
      {
        out := Match(rs[pos], tok, fuel);
        if out.Panicked? {
          return;
        }
        flag := out.value;
        if tok == Tokens.EOF {
          nodes := SetPos(nodes, h, 0, nodes[h].flag);
          out := Eof(h, fuel);
          if out.Panicked? {
            return;
          }
          return Returned(flag);
        }
        var turn := AnyTurn(nodes[h].flag, pos, |rs|, flag);
        if turn.stop {
          nodes := SetFlag(nodes, h, turn.flag);
          return Returned(flag);
        }
        pos := turn.pos;
        nodes := SetPos(nodes, h, pos, turn.flag);
      }
      nodes := SetFlag(nodes, h, nodes[h].flag - Handing);
      out := Returned(flag);
    }

    /**
     * `concatenation.Match`: the sub-rule at the remembered position,
     * moving on to the next one while they answer Finished.
     */
    method SeqMatch(h: Handle, rs: seq<Handle>, opt: nat, tok: Token, fuel: nat) returns (out: Outcome<Flag>)
      requires h < |nodes|
      modifies this
      ensures Agrees(Abnf.SeqMatch(old(nodes), h, rs, opt, tok, fuel), nodes, out)
      decreases fuel, 4, 0, 0
    {
      if Has(nodes[h].flag, Handing) {
        out := BaseMatch(h, tok, fuel);
        return;
      }
      var pos := if nodes[h].pos >= |rs| then 0 else nodes[h].pos;
      nodes := SetPos(nodes, h, pos, nodes[h].flag + Handing);
      var flag: Flag := 0;
      while pos < |rs|
        invariant h < |nodes| && pos <= |rs|
        invariant SeqLoop(nodes, h, rs, opt, pos, tok, flag, fuel) == Abnf.SeqMatch(old(nodes), h, rs, opt, tok, fuel)
        decreases |rs| - pos
      {
        out := Match(rs[pos], tok, fuel);
        if out.Panicked? {
          return;
        }
        flag := out.value;
        if tok == Tokens.EOF {
          out := Eof(h, fuel);
          if out.Panicked? {
            return;
          }
          nodes := SetPos(nodes, h, 0, nodes[h].flag);
          return Returned(flag);
        }
        if flag == F {
          pos := pos + 1;
          nodes := SetPos(nodes, h, pos, Handing);
        } else {
          out := SeqSettle(h, rs, opt, pos, flag);
          return;
        }
      }
      nodes := SetFlag(nodes, h, nodes[h].flag - Handing);
      out := Returned(flag);
    }

    /** The switch of `concatenation.Match` for a result other than Finished, and the clearing of Handing. */
    method SeqSettle(h: Handle, rs: seq<Handle>, opt: nat, pos: nat, flag: Flag) returns (out: Outcome<Flag>)
      requires h < |nodes| && pos < |rs|
      modifies this
      ensures Agrees(Abnf.SeqSettle(old(nodes), h, rs, opt, pos, flag), nodes, out)
    {
      var result := flag;
      if flag == 0 {
        nodes := SetPos(nodes, h, 0, Handing - Handing);
      } else if flag == MS {
        if pos + 1 < opt {
          result := M;
        }
        nodes := SetFlag(nodes, h, (Handing | Standing) - Handing);
      } else if flag == MF {
        if pos + 1 != |rs| {
          result := if pos + 1 < opt then M else MS;
        }
        nodes := SetPos(nodes, h, pos + 1, Handing - Handing);
      } else {
        nodes := SetFlag(nodes, h, nodes[h].flag - Handing);
      }
      out := Returned(result);
    }
  }

  /** `Clone` of a rule that is copied, from the outcome `c` of copying its parts. */
  lemma CloneAgrees(a: seq<Node>, h: Handle, fuel: nat, a1: seq<Node>, a2: seq<Node>, c: Outcome<Rule>,
                    a3: seq<Node>, out: Outcome<Handle>)
    requires fuel > 0 && h < |a|
    requires !(a[h].rule.TermRule? || a[h].rule.OnceRule? || Has(a[h].flag, Cloning))
    requires a1 == SetFlag(a, h, a[h].flag + Cloning)
    requires Agrees(Abnf.CloneParts(a1, a[h].rule, fuel - 1), a2, c)
    requires c.Panicked? ==> out == Panicked(c.failure)
    requires c.Returned? ==>
               && h < |a2|
               && out == Returned(|a2|)
               && a3 == SetFlag(a2 + [Fresh(c.value)], h, (a2 + [Fresh(c.value)])[h].flag - Cloning)
    ensures Agrees(Abnf.Clone(a, h, fuel), a3, out)
  {
  }
}

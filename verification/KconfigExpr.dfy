/** Expressions of tools/kconfiglib.py: evaluating, printing and parsing them, on the level of tokens. */
module KconfigExpr {

  datatype Relation = Equal | Unequal | Less | LessEqual | Greater | GreaterEqual

  datatype Token = Name(sym: int) | Rel(op: Relation) | AndSign | OrSign | NotSign | OpenParen | CloseParen

  /** Symbols are numbers; two of them have a meaning of their own. */
  const M := 0 // the constant symbol m
  const MODULES := 1 // Kconfig.modules

  datatype Expr =
    | Sym(sym: int)
    | And(left: Expr, right: Expr)
    | Or(left: Expr, right: Expr)
    | Not(arg: Expr)
    | Compare(op: Relation, lhs: int, rhs: int)

  // ---------------------------------------------------------------- evaluating

  /** The tristate values of the symbols, and the comparisons that hold. */
  datatype Env = Env(tri: int -> nat, holds: (Relation, int, int) -> bool)

  ghost predicate Tristate(env: Env) {
    forall s :: env.tri(s) <= 2
  }

  function Min(a: nat, b: nat): nat { if b < a then b else a }

  function Max(a: nat, b: nat): nat { if b > a then b else a }

  /** expr_value, with its short cuts */
  function Value(e: Expr, env: Env): nat {
    match e
    case Sym(s) => env.tri(s)
    case And(a, b) => var v := Value(a, env); if v == 0 then 0 else Min(v, Value(b, env))
    case Or(a, b) => var v := Value(a, env); if v == 2 then 2 else Max(v, Value(b, env))
    case Not(a) => Negated(Value(a, env))
    case Compare(op, l, r) => if env.holds(op, l, r) then 2 else 0
  }

  function Negated(v: nat): nat {
    if v > 2 then 0 else 2 - v
  }

  lemma {:induction false} ValueBound(e: Expr, env: Env)
    requires Tristate(env)
    ensures Value(e, env) <= 2
  {
    match e
    case And(a, b) => ValueBound(a, env); ValueBound(b, env);
    case Or(a, b) => ValueBound(a, env); ValueBound(b, env);
    case _ =>
  }

  /** The conjunction is the lesser and the disjunction the greater of the two values; negation turns the scale
      round, is undone by itself, and exchanges the two. */
  lemma ValueLaws(a: Expr, b: Expr, env: Env)
    requires Tristate(env)
    ensures var x, y, both, one := Value(a, env), Value(b, env), Value(And(a, b), env), Value(Or(a, b), env);
      both <= x && both <= y && (both == x || both == y) && one >= x && one >= y && (one == x || one == y)
    ensures Value(Not(a), env) + Value(a, env) == 2 && Value(Not(Not(a)), env) == Value(a, env)
    ensures Value(Not(And(a, b)), env) == Value(Or(Not(a), Not(b)), env)
  {
    ValueBound(a, env);
    ValueBound(b, env);
  }

  // ---------------------------------------------------------------- printing

  /** expr_str */
  function Print(e: Expr): (ts: seq<Token>)
    ensures ts != []
    decreases e, 0
  {
    match e
    case Sym(s) => [Name(s)]
    case And(a, b) => AndOperand(a) + [AndSign] + AndOperand(b)
    case Or(a, b) => OrOperand(a) + [OrSign] + OrOperand(b)
    case Not(a) => if a.Sym? then [NotSign, Name(a.sym)] else [NotSign, OpenParen] + Print(a) + [CloseParen]
    case Compare(op, l, r) => [Name(l), Rel(op), Name(r)]
  }

  /** _parenthesize(e, OR) */
  function AndOperand(e: Expr): seq<Token>
    decreases e, 1
  {
    if e.Or? then [OpenParen] + Print(e) + [CloseParen] else Print(e)
  }

  /** _parenthesize(e, AND) */
  function OrOperand(e: Expr): seq<Token>
    decreases e, 1
  {
    if e.And? then [OpenParen] + Print(e) + [CloseParen] else Print(e)
  }

  // ---------------------------------------------------------------- parsing

  datatype Parsed = Ok(e: Expr, rest: seq<Token>) | Malformed

  predicate Starts(ts: seq<Token>, t: Token) {
    ts != [] && ts[0] == t
  }

  predicate StartsRel(ts: seq<Token>) {
    ts != [] && ts[0].Rel?
  }

  /** A plain symbol; in conditions m stands for m && MODULES. */
  function Leaf(m: bool, s: int): Expr {
    if m && s == M then And(Sym(M), Sym(MODULES)) else Sym(s)
  }

  /** _parse_expr on the tokens that are left; `m` is transform_m */
  function ParseExpr(m: bool, ts: seq<Token>): (p: Parsed)
    ensures p.Ok? ==> |p.rest| < |ts|
    decreases |ts|, 2
  {
    match ParseAndExpr(m, ts)
    case Malformed => Malformed
    case Ok(a, rest) =>
      if !Starts(rest, OrSign) then Ok(a, rest) else
      match ParseExpr(m, rest[1..])
      case Malformed => Malformed
      case Ok(b, rest') => Ok(Or(a, b), rest')
  }

  /** _parse_and_expr */
  function ParseAndExpr(m: bool, ts: seq<Token>): (p: Parsed)
    ensures p.Ok? ==> |p.rest| < |ts|
    decreases |ts|, 1
  {
    match ParseFactor(m, ts)
    case Malformed => Malformed
    case Ok(a, rest) =>
      if !Starts(rest, AndSign) then Ok(a, rest) else
      match ParseAndExpr(m, rest[1..])
      case Malformed => Malformed
      case Ok(b, rest') => Ok(And(a, b), rest')
  }

  /** _parse_factor */
  function ParseFactor(m: bool, ts: seq<Token>): (p: Parsed)
    ensures p.Ok? ==> |p.rest| < |ts|
    decreases |ts|, 0
  {
    if ts == [] then Malformed else
    match ts[0]
    case Name(s) =>
      if !StartsRel(ts[1..]) then Ok(Leaf(m, s), ts[1..])
      else if |ts| > 2 && ts[2].Name? then Ok(Compare(ts[1].op, s, ts[2].sym), ts[3..])
      else Malformed
    case NotSign =>
      (match ParseFactor(m, ts[1..])
       case Malformed => Malformed
       case Ok(a, rest) => Ok(Not(a), rest))
    case OpenParen =>
      (match ParseExpr(m, ts[1..])
       case Malformed => Malformed
       case Ok(a, rest) => if Starts(rest, CloseParen) then Ok(a, rest[1..]) else Malformed)
    case _ => Malformed
  }

  /** _expect_expr_and_eol */
  function ParseLine(m: bool, ts: seq<Token>): Parsed {
    var p := ParseExpr(m, ts);
    if p.Ok? && p.rest != [] then Malformed else p
  }

  // ---------------------------------------------------------------- the grammar

  datatype Level = Factors | Ands | Ors

  function Rank(level: Level): nat {
    match level
    case Factors => 0
    case Ands => 1
    case Ors => 2
  }

  /** The tokens spell the expression: a disjunction is a conjunction, or one followed by || and a disjunction, and
      so on down to symbols, relations of two symbols, negated factors and expressions in parentheses. */
  ghost predicate Spells(m: bool, level: Level, ts: seq<Token>, e: Expr)
    decreases |ts|, Rank(level)
  {
    match level
    case Factors => SpellsFactor(m, ts, e)
    case Ands => Spells(m, Factors, ts, e) || (e.And? && exists k :: 0 <= k < |ts| && Joins(m, Factors, AndSign, Ands, ts, k, e.left, e.right))
    case Ors => Spells(m, Ands, ts, e) || (e.Or? && exists k :: 0 <= k < |ts| && Joins(m, Ands, OrSign, Ors, ts, k, e.left, e.right))
  }

  ghost predicate SpellsFactor(m: bool, ts: seq<Token>, e: Expr)
    decreases |ts|, 0, 0
  {
    ts != [] &&
    match ts[0]
    case Name(s) =>
      || (|ts| == 1 && e == Leaf(m, s))
      || (|ts| == 3 && ts[1].Rel? && ts[2].Name? && e == Compare(ts[1].op, s, ts[2].sym))
    case NotSign => e.Not? && SpellsFactor(m, ts[1..], e.arg)
    case OpenParen => |ts| > 1 && ts[|ts| - 1] == CloseParen && Spells(m, Ors, ts[1..|ts| - 1], e)
    case _ => false
  }

  /** The sign at position k stands between two operands. */
  ghost predicate Joins(m: bool, one: Level, sign: Token, many: Level, ts: seq<Token>, k: nat, a: Expr, b: Expr)
    requires k < |ts|
    decreases |ts|, 0, 1
  {
    ts[k] == sign && Spells(m, one, ts[..k], a) && Spells(m, many, ts[k + 1..], b)
  }

  function ParseAt(m: bool, level: Level, ts: seq<Token>): Parsed {
    match level
    case Factors => ParseFactor(m, ts)
    case Ands => ParseAndExpr(m, ts)
    case Ors => ParseExpr(m, ts)
  }

  /** The token behind an expression does not continue it. */
  predicate Ended(level: Level, rest: seq<Token>) {
    && !StartsRel(rest)
    && (level != Factors ==> !Starts(rest, AndSign))
    && (level == Ors ==> !Starts(rest, OrSign))
  }

  /** What is parsed is spelled by the tokens that were used up. */
  lemma {:induction false} ParsedIsSpelled(m: bool, level: Level, ts: seq<Token>)
    requires ParseAt(m, level, ts).Ok?
    ensures var p := ParseAt(m, level, ts);
      var n := |ts| - |p.rest|;
      n > 0 && ts[n..] == p.rest && Spells(m, level, ts[..n], p.e)
    decreases |ts|, Rank(level), 1
  {
    match level {
      case Factors => FactorIsSpelled(m, ts);
      case Ands => OperandsSpelled(m, Factors, AndSign, Ands, ts);
      case Ors => OperandsSpelled(m, Ands, OrSign, Ors, ts);
    }
  }

  predicate Chained(one: Level, sign: Token, many: Level) {
    (one == Factors && sign == AndSign && many == Ands) || (one == Ands && sign == OrSign && many == Ors)
  }

  function Chain(sign: Token, a: Expr, b: Expr): Expr {
    if sign == AndSign then And(a, b) else Or(a, b)
  }

  lemma ChainStep(m: bool, one: Level, sign: Token, many: Level, ts: seq<Token>)
    requires Chained(one, sign, many)
    ensures var first := ParseAt(m, one, ts);
      ParseAt(m, many, ts) ==
        if first == Malformed || !Starts(first.rest, sign) then first
        else match ParseAt(m, many, first.rest[1..])
             case Malformed => Malformed
             case Ok(b, rest) => Ok(Chain(sign, first.e, b), rest)
  {
    hide ParseFactor;
  }

  lemma ChainSpells(m: bool, one: Level, sign: Token, many: Level, ts: seq<Token>, k: nat, a: Expr, b: Expr)
    requires Chained(one, sign, many) && k < |ts| && Joins(m, one, sign, many, ts, k, a, b)
    ensures Spells(m, many, ts, Chain(sign, a, b))
  {
    hide Joins;
  }

  lemma OneSpells(m: bool, one: Level, sign: Token, many: Level, ts: seq<Token>, e: Expr)
    requires Chained(one, sign, many) && Spells(m, one, ts, e)
    ensures Spells(m, many, ts, e)
  {
    hide Joins, SpellsFactor;
  }

  /** The first n tokens of ts: k of them, one more, and the first j of what follows. */
  lemma Prefixes(ts: seq<Token>, k: nat, j: nat)
    requires k + 1 + j <= |ts|
    ensures var used := ts[..k + 1 + j];
      used[..k] == ts[..k] && used[k] == ts[k] && used[k + 1..] == ts[k..][1..][..j] && ts[k + 1 + j..] == ts[k..][1..][j..]
  {
  }

  lemma {:induction false} OperandsSpelled(m: bool, one: Level, sign: Token, many: Level, ts: seq<Token>)
    requires Chained(one, sign, many) && ParseAt(m, many, ts).Ok?
    ensures var p := ParseAt(m, many, ts);
      var n := |ts| - |p.rest|;
      n > 0 && ts[n..] == p.rest && Spells(m, many, ts[..n], p.e)
    decreases |ts|, Rank(many), 0
  {
    hide ParseAt, Spells;
    ChainStep(m, one, sign, many, ts);
    ParsedIsSpelled(m, one, ts);
    var first := ParseAt(m, one, ts);
    var k := |ts| - |first.rest|;
    if Starts(first.rest, sign) {
      var tail := first.rest[1..];
      ParsedIsSpelled(m, many, tail);
      var p := ParseAt(m, many, tail);
      var j := |tail| - |p.rest|;
      Prefixes(ts, k, j);
      ChainSpells(m, one, sign, many, ts[..k + 1 + j], k, first.e, p.e);
    } else {
      OneSpells(m, one, sign, many, ts[..k], first.e);
    }
  }

  lemma {:induction false} FactorIsSpelled(m: bool, ts: seq<Token>)
    requires ParseFactor(m, ts).Ok?
    ensures var p := ParseFactor(m, ts);
      var n := |ts| - |p.rest|;
      n > 0 && ts[n..] == p.rest && SpellsFactor(m, ts[..n], p.e)
    decreases |ts|, 0, 0
  {
    var p, tail := ParseFactor(m, ts), ts[1..];
    var n := |ts| - |p.rest|;
    if ts[0] == NotSign {
      FactorIsSpelled(m, tail);
      assert ts[..n][1..] == tail[..n - 1];
    } else if ts[0] == OpenParen {
      ParsedIsSpelled(m, Ors, tail);
      var inner := ParseExpr(m, tail);
      assert inner.rest[1..] == p.rest;
      assert ts[..n][1..n - 1] == tail[..n - 2];
    }
  }

  /** What the tokens spell is parsed, whatever follows that does not continue it. */
  lemma {:induction false} SpelledIsParsed(m: bool, level: Level, ts: seq<Token>, e: Expr, rest: seq<Token>)
    requires Spells(m, level, ts, e) && Ended(level, rest)
    ensures ParseAt(m, level, ts + rest) == Ok(e, rest)
    decreases |ts|, Rank(level), 1
  {
    match level {
      case Factors => FactorIsParsed(m, ts, e, rest);
      case Ands => OperandsParsed(m, Factors, AndSign, Ands, ts, e, rest);
      case Ors => OperandsParsed(m, Ands, OrSign, Ors, ts, e, rest);
    }
  }

  lemma SpellsChain(m: bool, one: Level, sign: Token, many: Level, ts: seq<Token>, e: Expr)
    requires Chained(one, sign, many) && Spells(m, many, ts, e) && !Spells(m, one, ts, e)
    ensures exists k, a, b :: 0 <= k < |ts| && Joins(m, one, sign, many, ts, k, a, b) && e == Chain(sign, a, b)
  {
    hide Joins, SpellsFactor;
    var a, b := e.left, e.right;
    var k :| 0 <= k < |ts| && Joins(m, one, sign, many, ts, k, a, b);
  }

  lemma {:induction false} OperandsParsed(m: bool, one: Level, sign: Token, many: Level, ts: seq<Token>, e: Expr, rest: seq<Token>)
    requires Chained(one, sign, many) && Spells(m, many, ts, e) && Ended(many, rest)
    ensures ParseAt(m, many, ts + rest) == Ok(e, rest)
    decreases |ts|, Rank(many), 0
  {
    hide ParseAt, Spells;
    ChainStep(m, one, sign, many, ts + rest);
    if Spells(m, one, ts, e) {
      SpelledIsParsed(m, one, ts, e, rest);
    } else {
      SpellsChain(m, one, sign, many, ts, e);
      var k, a, b :| 0 <= k < |ts| && Joins(m, one, sign, many, ts, k, a, b) && e == Chain(sign, a, b);
      var tail := ts[k + 1..] + rest;
      assert ts + rest == ts[..k] + ([sign] + tail);
      SpelledIsParsed(m, one, ts[..k], a, [sign] + tail);
      assert ([sign] + tail)[1..] == tail;
      SpelledIsParsed(m, many, ts[k + 1..], b, rest);
    }
  }

  lemma {:induction false} FactorIsParsed(m: bool, ts: seq<Token>, e: Expr, rest: seq<Token>)
    requires SpellsFactor(m, ts, e) && !StartsRel(rest)
    ensures ParseFactor(m, ts + rest) == Ok(e, rest)
    decreases |ts|, 0, 0
  {
    var all := ts + rest;
    assert all[0] == ts[0] && all[1..] == ts[1..] + rest;
    match ts[0] {
      case Name(s) => NameIsParsed(m, ts, e, rest);
      case NotSign => FactorIsParsed(m, ts[1..], e.arg, rest);
      case OpenParen =>
        var n := |ts| - 1;
        var tail := [CloseParen] + rest;
        assert all[1..] == ts[1..n] + tail;
        SpelledIsParsed(m, Ors, ts[1..n], e, tail);
        assert tail[1..] == rest;
      case _ =>
    }
  }

  lemma NameIsParsed(m: bool, ts: seq<Token>, e: Expr, rest: seq<Token>)
    requires SpellsFactor(m, ts, e) && ts[0].Name? && !StartsRel(rest)
    ensures ParseFactor(m, ts + rest) == Ok(e, rest)
  {
    var all := ts + rest;
    if |ts| == 1 {
      assert all[1..] == rest;
    } else {
      assert all[1] == ts[1] && all[2] == ts[2] && all[3..] == rest;
    }
  }

  /** A line is accepted exactly when its tokens spell an expression, and then that is the result; no line spells
      two. */
  lemma LineIsSpelled(m: bool, ts: seq<Token>, e: Expr)
    ensures ParseLine(m, ts) == Ok(e, []) <==> Spells(m, Ors, ts, e)
  {
    if ParseLine(m, ts) == Ok(e, []) {
      ParsedIsSpelled(m, Ors, ts);
      assert ts[..|ts|] == ts;
    }
    if Spells(m, Ors, ts, e) {
      SpelledIsParsed(m, Ors, ts, e, []);
      assert ts + [] == ts;
    }
  }

  // ---------------------------------------------------------------- the right-nested form

  /** n && r, with the && of n taken apart: A && (B && r) for n = A && B */
  function OntoAnd(n: Expr, r: Expr): Expr {
    if n.And? then And(n.left, OntoAnd(n.right, r)) else And(n, r)
  }

  function OntoOr(n: Expr, r: Expr): Expr {
    if n.Or? then Or(n.left, OntoOr(n.right, r)) else Or(n, r)
  }

  function RightNested(e: Expr): Expr {
    match e
    case And(a, b) => OntoAnd(RightNested(a), RightNested(b))
    case Or(a, b) => OntoOr(RightNested(a), RightNested(b))
    case Not(a) => Not(RightNested(a))
    case _ => e
  }

  /** No && has a && on its left, and likewise for ||. */
  predicate IsRightNested(e: Expr) {
    match e
    case And(a, b) => !a.And? && IsRightNested(a) && IsRightNested(b)
    case Or(a, b) => !a.Or? && IsRightNested(a) && IsRightNested(b)
    case Not(a) => IsRightNested(a)
    case _ => true
  }

  datatype Op = AndOp | OrOp

  predicate Is(e: Expr, op: Op) {
    match op
    case AndOp => e.And?
    case OrOp => e.Or?
  }

  /** split_expr */
  function Split(e: Expr, op: Op): (l: seq<Expr>)
    ensures l != []
  {
    if Is(e, op) then Split(e.left, op) + Split(e.right, op) else [e]
  }

  function RightNestedAll(l: seq<Expr>): seq<Expr> {
    if l == [] then [] else [RightNested(l[0])] + RightNestedAll(l[1..])
  }

  lemma {:induction false} OntoSplit(n: Expr, r: Expr, op: Op)
    ensures Split(OntoAnd(n, r), op) == if op == AndOp then Split(n, op) + Split(r, op) else [OntoAnd(n, r)]
    ensures Split(OntoOr(n, r), op) == if op == OrOp then Split(n, op) + Split(r, op) else [OntoOr(n, r)]
  {
    if n.And? {
      OntoSplit(n.right, r, op);
      assert (Split(n.left, op) + Split(n.right, op)) + Split(r, op) == Split(n.left, op) + (Split(n.right, op) + Split(r, op));
    }
    if n.Or? {
      OntoSplit(n.right, r, op);
      assert (Split(n.left, op) + Split(n.right, op)) + Split(r, op) == Split(n.left, op) + (Split(n.right, op) + Split(r, op));
    }
  }

  lemma {:induction false} RightNestedAppend(k: seq<Expr>, l: seq<Expr>)
    ensures RightNestedAll(k + l) == RightNestedAll(k) + RightNestedAll(l)
  {
    if k == [] {
      assert k + l == l;
    } else {
      assert (k + l)[1..] == k[1..] + l;
      RightNestedAppend(k[1..], l);
    }
  }

  /** The right-nested form has the same list of operands, each in its own right-nested form. */
  lemma {:induction false} SameOperands(e: Expr, op: Op)
    ensures Split(RightNested(e), op) == RightNestedAll(Split(e, op))
  {
    match e
    case And(a, b) =>
      OntoSplit(RightNested(a), RightNested(b), op);
      if op == AndOp {
        SameOperands(a, op);
        SameOperands(b, op);
        RightNestedAppend(Split(a, op), Split(b, op));
      }
    case Or(a, b) =>
      OntoSplit(RightNested(a), RightNested(b), op);
      if op == OrOp {
        SameOperands(a, op);
        SameOperands(b, op);
        RightNestedAppend(Split(a, op), Split(b, op));
      }
    case _ =>
  }

  lemma {:induction false} OntoValue(n: Expr, r: Expr, env: Env)
    requires Tristate(env)
    ensures Value(OntoAnd(n, r), env) == Min(Value(n, env), Value(r, env))
    ensures Value(OntoOr(n, r), env) == Max(Value(n, env), Value(r, env))
  {
    if n.And? || n.Or? { OntoValue(n.right, r, env); }
    ValueBound(n, env);
    ValueBound(r, env);
  }

  /** It has the same tristate value under every assignment. */
  lemma {:induction false} SameValue(e: Expr, env: Env)
    requires Tristate(env)
    ensures Value(RightNested(e), env) == Value(e, env)
  {
    match e
    case And(a, b) =>
      SameValue(a, env);
      SameValue(b, env);
      OntoValue(RightNested(a), RightNested(b), env);
      ValueBound(b, env);
    case Or(a, b) =>
      SameValue(a, env);
      SameValue(b, env);
      OntoValue(RightNested(a), RightNested(b), env);
      ValueBound(a, env);
      ValueBound(b, env);
    case Not(a) => SameValue(a, env);
    case _ =>
  }

  lemma {:induction false} OntoIsRightNested(n: Expr, r: Expr)
    requires IsRightNested(n) && IsRightNested(r)
    ensures IsRightNested(OntoAnd(n, r)) && IsRightNested(OntoOr(n, r))
  {
    if n.And? || n.Or? { OntoIsRightNested(n.right, r); }
  }

  lemma {:induction false} IsSo(e: Expr)
    ensures IsRightNested(RightNested(e))
  {
    match e
    case And(a, b) =>
      IsSo(a);
      IsSo(b);
      OntoIsRightNested(RightNested(a), RightNested(b));
    case Or(a, b) =>
      IsSo(a);
      IsSo(b);
      OntoIsRightNested(RightNested(a), RightNested(b));
    case Not(a) => IsSo(a);
    case _ =>
  }

  /** And a right-nested expression is its own right-nested form. */
  lemma {:induction false} Fixed(e: Expr)
    requires IsRightNested(e)
    ensures RightNested(e) == e
  {
    match e
    case And(a, b) => Fixed(a); Fixed(b);
    case Or(a, b) => Fixed(a); Fixed(b);
    case Not(a) => Fixed(a);
    case _ =>
  }

  // ---------------------------------------------------------------- parsing what was printed

  /** m read as m && MODULES wherever it stands for itself */
  function Rewrite(m: bool, e: Expr): Expr {
    match e
    case Sym(s) => Leaf(m, s)
    case And(a, b) => And(Rewrite(m, a), Rewrite(m, b))
    case Or(a, b) => Or(Rewrite(m, a), Rewrite(m, b))
    case Not(a) => Not(Rewrite(m, a))
    case Compare(_, _, _) => e
  }

  /** OntoAnd with the operands of n rewritten, and r as it is */
  function ThenAnd(m: bool, n: Expr, r: Expr): Expr {
    if n.And? then And(Rewrite(m, n.left), ThenAnd(m, n.right, r)) else And(Rewrite(m, n), r)
  }

  function ThenOr(m: bool, n: Expr, r: Expr): Expr {
    if n.Or? then Or(Rewrite(m, n.left), ThenOr(m, n.right, r)) else Or(Rewrite(m, n), r)
  }

  lemma {:induction false} ThenOnto(m: bool, n: Expr, k: Expr, r: Expr)
    ensures ThenAnd(m, OntoAnd(n, k), r) == ThenAnd(m, n, ThenAnd(m, k, r))
    ensures ThenOr(m, OntoOr(n, k), r) == ThenOr(m, n, ThenOr(m, k, r))
    ensures Rewrite(m, OntoAnd(n, k)) == ThenAnd(m, n, Rewrite(m, k))
    ensures Rewrite(m, OntoOr(n, k)) == ThenOr(m, n, Rewrite(m, k))
  {
    if n.And? || n.Or? { ThenOnto(m, n.right, k, r); }
  }

  lemma {:induction false} RewriteOff(e: Expr)
    ensures Rewrite(false, e) == e
  {
    match e
    case And(a, b) => RewriteOff(a); RewriteOff(b);
    case Or(a, b) => RewriteOff(a); RewriteOff(b);
    case Not(a) => RewriteOff(a);
    case _ =>
  }

  /** The meaning of e as it is parsed */
  function Meant(m: bool, e: Expr): Expr {
    Rewrite(m, RightNested(e))
  }

  /** What may follow a factor, an operand of &&, an operand of ||. */
  predicate AfterFactor(rest: seq<Token>) { !StartsRel(rest) }

  predicate AfterAnd(rest: seq<Token>) { AfterFactor(rest) && !Starts(rest, AndSign) }

  predicate AfterOr(rest: seq<Token>) { AfterAnd(rest) && !Starts(rest, OrSign) }

  lemma {:induction false} PrintFactor(m: bool, e: Expr, rest: seq<Token>)
    requires (e.Sym? || e.Not? || e.Compare?) && AfterFactor(rest)
    ensures ParseFactor(m, Print(e) + rest) == Ok(Meant(m, e), rest)
    decreases e, 0
  {
    match e
    case Sym(s) => assert ([Name(s)] + rest)[1..] == rest;
    case Compare(op, l, r) =>
      var ts := [Name(l), Rel(op), Name(r)] + rest;
      assert ts[1..] == [Rel(op), Name(r)] + rest && ts[3..] == rest;
    case Not(a) =>
      if a.Sym? {
        PrintFactor(m, a, rest);
        assert (Print(e) + rest)[1..] == Print(a) + rest;
      } else {
        PrintClosed(m, a, rest);
        assert (Print(e) + rest)[1..] == [OpenParen] + Print(a) + [CloseParen] + rest;
      }
    case _ =>
  }

  lemma {:induction false} PrintClosed(m: bool, e: Expr, rest: seq<Token>)
    ensures ParseFactor(m, [OpenParen] + Print(e) + [CloseParen] + rest) == Ok(Meant(m, e), rest)
    decreases e, 4
  {
    var ts := [OpenParen] + Print(e) + [CloseParen] + rest;
    var inner := [CloseParen] + rest;
    PrintParse(m, e, inner);
    assert ts[1..] == Print(e) + inner && inner[1..] == rest;
  }

  function AndThen(m: bool, n: Expr, p: Parsed): Parsed {
    match p
    case Malformed => Malformed
    case Ok(r, rest) => Ok(ThenAnd(m, n, r), rest)
  }

  function OrThen(m: bool, n: Expr, p: Parsed): Parsed {
    match p
    case Malformed => Malformed
    case Ok(r, rest) => Ok(ThenOr(m, n, r), rest)
  }

  /** An operand of && followed by && and more, or by something else. */
  lemma {:induction false} PrintAnd(m: bool, e: Expr, rest: seq<Token>)
    requires AfterFactor(rest)
    ensures ParseAndExpr(m, AndOperand(e) + rest) ==
            if Starts(rest, AndSign) then AndThen(m, RightNested(e), ParseAndExpr(m, rest[1..])) else Ok(Meant(m, e), rest)
    decreases e, 5
  {
    match e
    case And(a, b) =>
      var more := [AndSign] + AndOperand(b) + rest;
      assert AndOperand(e) + rest == AndOperand(a) + more && more[1..] == AndOperand(b) + rest;
      PrintAnd(m, a, more);
      PrintAnd(m, b, rest);
      if Starts(rest, AndSign) {
        var p := ParseAndExpr(m, rest[1..]);
        if p.Ok? { ThenOnto(m, RightNested(a), RightNested(b), p.e); }
      }
      ThenOnto(m, RightNested(a), RightNested(b), Sym(M));
    case Or(_, _) =>
      PrintClosed(m, e, rest);
      OrStaysOr(e);
    case _ =>
      PrintFactor(m, e, rest);
  }

  lemma OrStaysOr(e: Expr)
    ensures RightNested(e).Or? == e.Or? && RightNested(e).And? == e.And?
  {
  }

  lemma {:induction false} PrintOr(m: bool, e: Expr, rest: seq<Token>)
    requires AfterAnd(rest)
    ensures ParseExpr(m, OrOperand(e) + rest) ==
            if Starts(rest, OrSign) then OrThen(m, RightNested(e), ParseExpr(m, rest[1..])) else Ok(Meant(m, e), rest)
    decreases e, 6
  {
    match e
    case Or(a, b) =>
      var more := [OrSign] + OrOperand(b) + rest;
      assert OrOperand(e) + rest == OrOperand(a) + more && more[1..] == OrOperand(b) + rest;
      PrintOr(m, a, more);
      PrintOr(m, b, rest);
      if Starts(rest, OrSign) {
        var p := ParseExpr(m, rest[1..]);
        if p.Ok? { ThenOnto(m, RightNested(a), RightNested(b), p.e); }
      }
      ThenOnto(m, RightNested(a), RightNested(b), Sym(M));
    case And(_, _) =>
      PrintClosed(m, e, rest);
      OrStaysOr(e);
    case _ =>
      PrintFactor(m, e, rest);
  }

  /** Parsing the printed tokens gives the right-nested form back, and stops where they end. */
  lemma {:induction false} PrintParse(m: bool, e: Expr, rest: seq<Token>)
    requires AfterOr(rest)
    ensures ParseExpr(m, Print(e) + rest) == Ok(Meant(m, e), rest)
    decreases e, 3
  {
    match e
    case And(a, b) =>
      var more := [AndSign] + AndOperand(b) + rest;
      assert Print(e) + rest == AndOperand(a) + more && more[1..] == AndOperand(b) + rest;
      PrintAnd(m, a, more);
      PrintAnd(m, b, rest);
      ThenOnto(m, RightNested(a), RightNested(b), Sym(M));
    case Or(a, b) =>
      var more := [OrSign] + OrOperand(b) + rest;
      assert Print(e) + rest == OrOperand(a) + more && more[1..] == OrOperand(b) + rest;
      PrintOr(m, a, more);
      PrintOr(m, b, rest);
      ThenOnto(m, RightNested(a), RightNested(b), Sym(M));
    case _ =>
      PrintFactor(m, e, rest);
  }

  /** Printing and parsing a whole line, without rewriting m: the right-nested form, which has the same
      operand lists and the same value under every assignment. */
  lemma RoundTrip(e: Expr, op: Op, env: Env)
    requires Tristate(env)
    ensures var p := ParseLine(false, Print(e));
      && p == Ok(RightNested(e), [])
      && Split(p.e, op) == RightNestedAll(Split(e, op))
      && Value(p.e, env) == Value(e, env)
  {
    assert Print(e) + [] == Print(e);
    PrintParse(false, e, []);
    RewriteOff(RightNested(e));
    SameOperands(e, op);
    SameValue(e, env);
  }

  /** In a condition, the same with m read as m && MODULES; and a right-nested expression comes back
      as it was. */
  lemma RoundTripCondition(e: Expr)
    ensures ParseLine(true, Print(e)) == Ok(Rewrite(true, RightNested(e)), [])
    ensures ParseLine(false, Print(e)) == Ok(e, []) <==> IsRightNested(e)
  {
    assert Print(e) + [] == Print(e);
    PrintParse(true, e, []);
    PrintParse(false, e, []);
    RewriteOff(RightNested(e));
    IsSo(e);
    if IsRightNested(e) { Fixed(e); }
  }
}

module KconfigParser {
  import opened KconfigExpr
  import opened Wrappers

  /** The parser's token list and cursor. */
  class Parser {
    const tokens: seq<Token>
    var at: int // _tokens_i, the token fetched last

    ghost predicate Valid()
      reads this
    {
      -1 <= at < |tokens|
    }

    /** The tokens that are left */
    ghost function Left(): seq<Token>
      requires Valid()
      reads this
    {
      tokens[at + 1..]
    }

    constructor (tokens: seq<Token>)
      ensures this.tokens == tokens && Valid() && Left() == tokens
    {
      this.tokens, at := tokens, -1;
    }

    /** The outcome agrees with what parsing the tokens left before should give. */
    ghost predicate Follows(p: Parsed, e: Option<Expr>)
      reads this
    {
      match p
      case Malformed => e == None
      case Ok(x, rest) => e == Some(x) && Valid() && Left() == rest
    }

    /** _peek_token; the list ends with None. */
    method Peek() returns (t: Option<Token>)
      requires Valid()
      ensures t == if Left() == [] then None else Some(Left()[0])
    {
      t := if at + 1 < |tokens| then Some(tokens[at + 1]) else None;
    }

    /** _check_token */
    method Check(t: Token) returns (found: bool)
      requires Valid()
      modifies this
      ensures Valid() && found == Starts(old(Left()), t)
      ensures Left() == if found then old(Left())[1..] else old(Left())
    {
      found := at + 1 < |tokens| && tokens[at + 1] == t;
      if found {
        at := at + 1;
      }
    }

    /** _parse_expr */
    method ParseExpr(m: bool) returns (e: Option<Expr>)
      requires Valid()
      modifies this
      ensures Follows(KconfigExpr.ParseExpr(m, old(Left())), e)
      decreases |tokens| - at, 2
    {
      ghost var from := at;
      var a := ParseAndExpr(m);
      if a == None {
        return None;
      }
      Later(from, at);
      var more := Check(OrSign);
      if !more {
        return a;
      }
      var b := ParseExpr(m);
      e := if b == None then None else Some(Or(a.value, b.value));
    }

    /** _parse_and_expr */
    method ParseAndExpr(m: bool) returns (e: Option<Expr>)
      requires Valid()
      modifies this
      ensures Follows(KconfigExpr.ParseAndExpr(m, old(Left())), e)
      decreases |tokens| - at, 1
    {
      ghost var from := at;
      var a := ParseFactor(m);
      if a == None {
        return None;
      }
      Later(from, at);
      var more := Check(AndSign);
      if !more {
        return a;
      }
      var b := ParseAndExpr(m);
      e := if b == None then None else Some(And(a.value, b.value));
    }

    /** _parse_factor */
    method ParseFactor(m: bool) returns (e: Option<Expr>)
      requires Valid()
      modifies this
      ensures Follows(KconfigExpr.ParseFactor(m, old(Left())), e)
      decreases |tokens| - at, 0
    {
      ghost var from := at;
      var token := Peek(); // _next_token
      if token == None {
        return None;
      }
      at := at + 1;
      match token.value {
        case Name(s) =>
          var next := Peek();
          if next == None || !next.value.Rel? {
            return Some(Leaf(m, s));
          }
          at := at + 1;
          var operand := Peek(); // _expect_sym
          if operand == None || !operand.value.Name? {
            return None;
          }
          at := at + 1;
          e := Some(Compare(next.value.op, s, operand.value.sym));
        case NotSign =>
          var a := ParseFactor(m);
          e := if a == None then None else Some(Not(a.value));
        case OpenParen =>
          var a := ParseExpr(m);
          if a == None {
            return None;
          }
          var closed := Check(CloseParen);
          e := if closed then a else None;
        case _ =>
          return None;
      }
    }

    lemma Later(from: int, to: int)
      requires -1 <= from < |tokens| && -1 <= to < |tokens| && |tokens[to + 1..]| < |tokens[from + 1..]|
      ensures from < to
    {
    }

    /** _expect_expr_and_eol */
    method ParseLine(m: bool) returns (e: Option<Expr>)
      requires Valid()
      modifies this
      ensures Follows(KconfigExpr.ParseLine(m, old(Left())), e)
    {
      e := ParseExpr(m);
      if e != None {
        var next := Peek();
        if next != None {
          return None;
        }
      }
    }
  }
}

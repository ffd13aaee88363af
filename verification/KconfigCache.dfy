/** Symbol values of tools/kconfiglib.py and their cache.

    `KconfigModel` gives the visibility and the value of a symbol, computed from scratch, together with
    the symbols the computation looks at; `KconfigCache` is the object that computes them on demand,
    keeps them and throws them away again when a user value changes. */
module KconfigModel {
  import opened KconfigExpr
  import KconfigLoop
  import Ring
  import opened Wrappers

  datatype Type = UnknownType | BoolType | TristateType | StringType | IntType | HexType

  /** tri_value for bool and tristate symbols, str_value for the others */
  datatype Val = Tri(v: nat) | Text(s: string)

  datatype Default = Default(value: Expr, cond: Expr)

  datatype Range = Range(low: int, high: int, cond: Expr)

  /** A defined symbol: the conditions of its prompts, its defaults and ranges, and its dependencies */
  datatype Symbol = Symbol(typ: Type, name: string, prompts: seq<Expr>, defaults: seq<Default>, ranges: seq<Range>,
                           rev: Expr, weakRev: Expr, direct: Expr)

  datatype UserVal = NoUser | UserTri(v: nat) | UserText(s: string)

  /** Python's int(s, base), str(n) and hex(n), and the order of strings */
  datatype Strings = Strings(num: (string, nat) -> Option<int>, show: (int, bool) -> string, less: (string, string) -> bool)

  /** `consts` are the constant and the undefined symbols, which never change. */
  datatype Config = Config(syms: map<int, Symbol>, consts: map<int, Val>, strings: Strings)

  type Assign = map<int, Val>

  function Look(c: Config, a: Assign, s: int): Val {
    if s in c.syms then (if s in a then a[s] else Text("")) else if s in c.consts then c.consts[s] else Text("")
  }

  function TriOf(v: Val): nat {
    if v.Tri? then v.v else 0
  }

  function StrOf(v: Val): string {
    if v.Tri? then (if v.v == 0 then "n" else if v.v == 1 then "m" else "y") else v.s
  }

  /** orig_type; n, m and y are tristate, other constants and undefined symbols have no type */
  function TypeOf(c: Config, s: int): Type {
    if s in c.syms then c.syms[s].typ else if s in c.consts && c.consts[s].Tri? then TristateType else UnknownType
  }

  predicate Logical(t: Type) {
    t == BoolType || t == TristateType
  }

  function Base(t: Type): nat {
    match t
    case IntType => 10
    case HexType => 16
    case _ => 0
  }

  // ---------------------------------------------------------------- comparisons

  /** _sym_to_num, or nothing where it raises an exception */
  function Number(c: Config, t: Type, v: Val): Option<int> {
    if Logical(t) then Some(TriOf(v)) else c.strings.num(StrOf(v), Base(t))
  }

  /** _strcmp */
  function StrCmp(c: Config, l: string, r: string): int {
    if c.strings.less(r, l) then 1 else if c.strings.less(l, r) then -1 else 0
  }

  function Comp(c: Config, lt: Type, l: Val, rt: Type, r: Val): int {
    if lt == StringType && rt == StringType then StrCmp(c, StrOf(l), StrOf(r)) else
    var x, y := Number(c, lt, l), Number(c, rt, r);
    if x.Some? && y.Some? then x.value - y.value else StrCmp(c, StrOf(l), StrOf(r))
  }

  predicate Satisfies(op: Relation, comp: int) {
    match op
    case Equal => comp == 0
    case Unequal => comp != 0
    case Less => comp < 0
    case LessEqual => comp <= 0
    case Greater => comp > 0
    case GreaterEqual => comp >= 0
  }

  function EnvOf(c: Config, a: Assign): Env {
    Env(s => if Logical(TypeOf(c, s)) then TriOf(Look(c, a, s)) else 0,
        (op, l, r) => Satisfies(op, Comp(c, TypeOf(c, l), Look(c, a, l), TypeOf(c, r), Look(c, a, r))))
  }

  // ---------------------------------------------------------------- what a computation looks at

  /** A result and the symbols looked at on the way to it */
  datatype Seen<T> = Seen(v: T, used: set<int>)

  /** The symbols that expr_value looks at, given its short cuts; a symbol without a tristate value is
      always n in a logical context. */
  function Reads(c: Config, e: Expr, env: Env): set<int> {
    match e
    case Sym(s) => if Logical(TypeOf(c, s)) then {s} else {}
    case And(a, b) => if Value(a, env) == 0 then Reads(c, a, env) else Reads(c, a, env) + Reads(c, b, env)
    case Or(a, b) => if Value(a, env) == 2 then Reads(c, a, env) else Reads(c, a, env) + Reads(c, b, env)
    case Not(a) => Reads(c, a, env)
    case Compare(_, l, r) => {l, r}
  }

  /** expr_items */
  function Items(e: Expr): set<int> {
    match e
    case Sym(s) => {s}
    case And(a, b) => Items(a) + Items(b)
    case Or(a, b) => Items(a) + Items(b)
    case Not(a) => Items(a)
    case Compare(_, l, r) => {l, r}
  }

  function Ev(c: Config, e: Expr, a: Assign): Seen<nat> {
    Seen(Value(e, EnvOf(c, a)), Reads(c, e, EnvOf(c, a)))
  }

  ghost predicate Agree(c: Config, a: Assign, b: Assign, used: set<int>) {
    forall r :: r in used ==> Look(c, a, r) == Look(c, b, r)
  }

  /** Evaluation is determined by what it looks at. */
  lemma {:induction false} EvAgrees(c: Config, e: Expr, a: Assign, b: Assign)
    requires Agree(c, a, b, Ev(c, e, a).used)
    ensures Ev(c, e, b) == Ev(c, e, a)
  {
    match e
    case Sym(s) =>
    case And(x, y) =>
      EvAgrees(c, x, a, b);
      if Value(x, EnvOf(c, a)) != 0 { EvAgrees(c, y, a, b); }
    case Or(x, y) =>
      EvAgrees(c, x, a, b);
      if Value(x, EnvOf(c, a)) != 2 { EvAgrees(c, y, a, b); }
    case Not(x) => EvAgrees(c, x, a, b);
    case Compare(op, l, r) =>
      assert Look(c, a, l) == Look(c, b, l) && Look(c, a, r) == Look(c, b, r);
  }

  lemma {:induction false} ReadsItems(c: Config, e: Expr, env: Env)
    ensures Reads(c, e, env) <= Items(e)
  {
    match e
    case And(x, y) => ReadsItems(c, x, env); ReadsItems(c, y, env);
    case Or(x, y) => ReadsItems(c, x, env); ReadsItems(c, y, env);
    case Not(x) => ReadsItems(c, x, env);
    case _ =>
  }

  // ---------------------------------------------------------------- the visibility

  /** The most visible prompt */
  function PromptVis(c: Config, prompts: seq<Expr>, a: Assign): Seen<nat> {
    if prompts == [] then Seen(0, {}) else
    var before, x := PromptVis(c, prompts[..|prompts| - 1], a), Ev(c, prompts[|prompts| - 1], a);
    Seen(Max(before.v, x.v), before.used + x.used)
  }

  /** The type property: tristate symbols are bool while modules are off. */
  function EffType(c: Config, t: Type, a: Assign): Seen<Type> {
    if t != TristateType then Seen(t, {}) else
    var m := Ev(c, Sym(MODULES), a);
    Seen(if m.v == 0 then BoolType else TristateType, m.used)
  }

  /** _visibility */
  function Vis(c: Config, sym: Symbol, a: Assign): Seen<nat> {
    var p := PromptVis(c, sym.prompts, a);
    if p.v != 1 then p else
    var t := EffType(c, sym.typ, a);
    Seen(if t.v != TristateType then 2 else 1, p.used + t.used)
  }

  lemma {:induction false} PromptVisAgrees(c: Config, prompts: seq<Expr>, a: Assign, b: Assign)
    requires Agree(c, a, b, PromptVis(c, prompts, a).used)
    ensures PromptVis(c, prompts, b) == PromptVis(c, prompts, a)
  {
    if prompts != [] {
      PromptVisAgrees(c, prompts[..|prompts| - 1], a, b);
      EvAgrees(c, prompts[|prompts| - 1], a, b);
    }
  }

  lemma VisAgrees(c: Config, sym: Symbol, a: Assign, b: Assign)
    requires Agree(c, a, b, Vis(c, sym, a).used)
    ensures Vis(c, sym, b) == Vis(c, sym, a)
  {
    hide Look, EffType;
    PromptVisAgrees(c, sym.prompts, a, b);
    if PromptVis(c, sym.prompts, a).v == 1 { EffTypeAgrees(c, sym.typ, a, b); }
  }

  // ---------------------------------------------------------------- tri_value

  /** The first default whose condition is not n, and the value of the condition */
  function FirstDefault(c: Config, defaults: seq<Default>, a: Assign): Seen<Option<(Expr, nat)>> {
    if defaults == [] then Seen(None, {}) else
    var x := Ev(c, defaults[0].cond, a);
    if x.v != 0 then Seen(Some((defaults[0].value, x.v)), x.used) else
    var rest := FirstDefault(c, defaults[1..], a);
    Seen(rest.v, x.used + rest.used)
  }

  function TriDefault(c: Config, defaults: seq<Default>, a: Assign): Seen<nat> {
    var d := FirstDefault(c, defaults, a);
    if d.v.None? then Seen(0, d.used) else
    var x := Ev(c, d.v.value.0, a);
    Seen(Min(x.v, d.v.value.1), d.used + x.used)
  }

  /** The value from imply, or else from the defaults; imply counts when the direct dependencies are met. */
  function WithImply(c: Config, sym: Symbol, a: Assign, d: Seen<nat>): Seen<nat> {
    var w := Ev(c, sym.weakRev, a);
    if w.v == 0 then Seen(d.v, d.used + w.used) else
    var direct := Ev(c, sym.direct, a);
    Seen(if direct.v != 0 then Max(w.v, d.v) else d.v, d.used + w.used + direct.used)
  }

  /** Selects take precedence; the direct dependencies are looked at for a warning. */
  function WithSelect(c: Config, sym: Symbol, a: Assign, d: Seen<nat>): Seen<nat> {
    var r := Ev(c, sym.rev, a);
    if r.v == 0 then Seen(d.v, d.used + r.used)
    else Seen(Max(r.v, d.v), d.used + r.used + Ev(c, sym.direct, a).used)
  }

  /** m becomes y for bool symbols and for symbols implied with y. */
  function Promoted(c: Config, sym: Symbol, a: Assign, d: Seen<nat>): Seen<nat> {
    if d.v != 1 then d else
    var t := EffType(c, sym.typ, a);
    if t.v == BoolType then Seen(2, d.used + t.used) else
    var w := Ev(c, sym.weakRev, a);
    Seen(if w.v == 2 then 2 else 1, d.used + t.used + w.used)
  }

  /** The value before select: the user's, cut down to the visibility, or else from the symbol itself */
  function Own(c: Config, sym: Symbol, u: UserVal, a: Assign): Seen<nat> {
    var vis := Vis(c, sym, a);
    if vis.v != 0 && u.UserTri? then Seen(Min(u.v, vis.v), vis.used) else
    var d := TriDefault(c, sym.defaults, a);
    WithImply(c, sym, a, Seen(d.v, vis.used + d.used))
  }

  /** tri_value of a bool or tristate symbol */
  function TriVal(c: Config, sym: Symbol, u: UserVal, a: Assign): Seen<nat> {
    Promoted(c, sym, a, WithSelect(c, sym, a, Own(c, sym, u, a)))
  }

  lemma {:induction false} FirstDefaultAgrees(c: Config, defaults: seq<Default>, a: Assign, b: Assign)
    requires Agree(c, a, b, FirstDefault(c, defaults, a).used)
    ensures FirstDefault(c, defaults, b) == FirstDefault(c, defaults, a)
  {
    hide Look;
    if defaults != [] {
      EvAgrees(c, defaults[0].cond, a, b);
      if Ev(c, defaults[0].cond, a).v == 0 { FirstDefaultAgrees(c, defaults[1..], a, b); }
    }
  }

  lemma TriDefaultAgrees(c: Config, defaults: seq<Default>, a: Assign, b: Assign)
    requires Agree(c, a, b, TriDefault(c, defaults, a).used)
    ensures TriDefault(c, defaults, b) == TriDefault(c, defaults, a)
  {
    hide Look, Ev, FirstDefault;
    FirstDefaultAgrees(c, defaults, a, b);
    var d := FirstDefault(c, defaults, a);
    if d.v.Some? { EvAgrees(c, d.v.value.0, a, b); }
  }

  lemma WithImplyAgrees(c: Config, sym: Symbol, a: Assign, b: Assign, d: Seen<nat>)
    requires Agree(c, a, b, WithImply(c, sym, a, d).used)
    ensures WithImply(c, sym, b, d) == WithImply(c, sym, a, d)
  {
    hide Look, Ev;
    EvAgrees(c, sym.weakRev, a, b);
    if Ev(c, sym.weakRev, a).v != 0 { EvAgrees(c, sym.direct, a, b); }
  }

  lemma WithSelectAgrees(c: Config, sym: Symbol, a: Assign, b: Assign, d: Seen<nat>)
    requires Agree(c, a, b, WithSelect(c, sym, a, d).used)
    ensures WithSelect(c, sym, b, d) == WithSelect(c, sym, a, d)
  {
    hide Look, Ev;
    EvAgrees(c, sym.rev, a, b);
    if Ev(c, sym.rev, a).v != 0 { EvAgrees(c, sym.direct, a, b); }
  }

  lemma PromotedAgrees(c: Config, sym: Symbol, a: Assign, b: Assign, d: Seen<nat>)
    requires Agree(c, a, b, Promoted(c, sym, a, d).used)
    ensures Promoted(c, sym, b, d) == Promoted(c, sym, a, d)
  {
    hide Look, Ev;
    if d.v == 1 {
      EffTypeAgrees(c, sym.typ, a, b);
      if EffType(c, sym.typ, a).v != BoolType { EvAgrees(c, sym.weakRev, a, b); }
    }
  }

  lemma EffTypeAgrees(c: Config, t: Type, a: Assign, b: Assign)
    requires Agree(c, a, b, EffType(c, t, a).used)
    ensures EffType(c, t, b) == EffType(c, t, a)
  {
    hide Look, Ev;
    if t == TristateType { EvAgrees(c, Sym(MODULES), a, b); }
  }

  lemma OwnAgrees(c: Config, sym: Symbol, u: UserVal, a: Assign, b: Assign)
    requires Agree(c, a, b, Own(c, sym, u, a).used)
    ensures Own(c, sym, u, b) == Own(c, sym, u, a)
  {
    hide Look, Ev, Vis, TriDefault;
    VisAgrees(c, sym, a, b);
    var vis := Vis(c, sym, a);
    if !(vis.v != 0 && u.UserTri?) {
      TriDefaultAgrees(c, sym.defaults, a, b);
      WithImplyAgrees(c, sym, a, b, Seen(TriDefault(c, sym.defaults, a).v, vis.used + TriDefault(c, sym.defaults, a).used));
    }
  }

  lemma TriValAgrees(c: Config, sym: Symbol, u: UserVal, a: Assign, b: Assign)
    requires Agree(c, a, b, TriVal(c, sym, u, a).used)
    ensures TriVal(c, sym, u, b) == TriVal(c, sym, u, a)
  {
    hide Look, Ev, Own, EffType;
    var o := Own(c, sym, u, a);
    var s := WithSelect(c, sym, a, o);
    PromotedAgrees(c, sym, a, b, s);
    WithSelectAgrees(c, sym, a, b, o);
    OwnAgrees(c, sym, u, a, b);
  }

  // ---------------------------------------------------------------- str_value

  /** The number a string stands for, 0 when it is none */
  function NumOr0(c: Config, s: string, base: nat): int {
    var n := c.strings.num(s, base);
    if n.Some? then n.value else 0
  }

  /** The bounds of the first range whose condition is not n */
  function ActiveRange(c: Config, ranges: seq<Range>, base: nat, a: Assign): Seen<Option<(int, int)>> {
    if ranges == [] then Seen(None, {}) else
    var x := Ev(c, ranges[0].cond, a);
    if x.v != 0 then
      Seen(Some((NumOr0(c, StrOf(Look(c, a, ranges[0].low)), base), NumOr0(c, StrOf(Look(c, a, ranges[0].high)), base))),
           x.used + {ranges[0].low, ranges[0].high})
    else
      var rest := ActiveRange(c, ranges[1..], base, a);
      Seen(rest.v, x.used + rest.used)
  }

  /** The string value of the first default whose condition is not n; these defaults are symbols. */
  function TextDefault(c: Config, defaults: seq<Default>, a: Assign): Seen<Option<string>> {
    var d := FirstDefault(c, defaults, a);
    if d.v.None? || !d.v.value.0.Sym? then Seen(None, d.used)
    else Seen(Some(StrOf(Look(c, a, d.v.value.0.sym))), d.used + {d.v.value.0.sym})
  }

  /** A number outside an active range is moved to the nearer bound and written in standard form. */
  function Clamped(c: Config, t: Type, s: string, num: int, range: Option<(int, int)>): string {
    if range.Some? && num < range.value.0 then c.strings.show(range.value.0, t == HexType)
    else if range.Some? && num > range.value.1 then c.strings.show(range.value.1, t == HexType)
    else s
  }

  predicate InRange(range: Option<(int, int)>, n: int) {
    range.None? || range.value.0 <= n <= range.value.1
  }

  /** str_value of an int or hex symbol */
  function NumVal(c: Config, sym: Symbol, u: UserVal, a: Assign): Seen<string> {
    var vis := Vis(c, sym, a);
    var range := ActiveRange(c, sym.ranges, Base(sym.typ), a);
    if vis.v != 0 && u.UserText? && u.s != "" && InRange(range.v, NumOr0(c, u.s, Base(sym.typ))) then
      Seen(u.s, vis.used + range.used)
    else
      var d := TextDefault(c, sym.defaults, a);
      var s := if d.v.Some? then d.v.value else "";
      var num := if d.v.Some? then NumOr0(c, s, Base(sym.typ)) else 0;
      Seen(Clamped(c, sym.typ, s, num, range.v), vis.used + range.used + d.used)
  }

  /** str_value of a string symbol */
  function StringVal(c: Config, sym: Symbol, u: UserVal, a: Assign): Seen<string> {
    var vis := Vis(c, sym, a);
    if vis.v != 0 && u.UserText? then Seen(u.s, vis.used) else
    var d := TextDefault(c, sym.defaults, a);
    Seen(if d.v.Some? then d.v.value else "", vis.used + d.used)
  }

  /** The value of a symbol */
  function ValOf(c: Config, sym: Symbol, u: UserVal, a: Assign): Seen<Val> {
    match sym.typ
    case UnknownType => Seen(Text(sym.name), {})
    case BoolType | TristateType => var x := TriVal(c, sym, u, a); Seen(Tri(x.v), x.used)
    case StringType => var x := StringVal(c, sym, u, a); Seen(Text(x.v), x.used)
    case IntType | HexType => var x := NumVal(c, sym, u, a); Seen(Text(x.v), x.used)
  }

  lemma {:induction false} ActiveRangeAgrees(c: Config, ranges: seq<Range>, base: nat, a: Assign, b: Assign)
    requires Agree(c, a, b, ActiveRange(c, ranges, base, a).used)
    ensures ActiveRange(c, ranges, base, b) == ActiveRange(c, ranges, base, a)
  {
    hide Look;
    if ranges != [] {
      EvAgrees(c, ranges[0].cond, a, b);
      if Ev(c, ranges[0].cond, a).v == 0 { ActiveRangeAgrees(c, ranges[1..], base, a, b); }
    }
  }

  lemma TextDefaultAgrees(c: Config, defaults: seq<Default>, a: Assign, b: Assign)
    requires Agree(c, a, b, TextDefault(c, defaults, a).used)
    ensures TextDefault(c, defaults, b) == TextDefault(c, defaults, a)
  {
    hide Look, FirstDefault;
    FirstDefaultAgrees(c, defaults, a, b);
  }

  /** The value of a symbol is determined by the symbols it looks at. */
  lemma ValAgrees(c: Config, sym: Symbol, u: UserVal, a: Assign, b: Assign)
    requires Agree(c, a, b, ValOf(c, sym, u, a).used)
    ensures ValOf(c, sym, u, b) == ValOf(c, sym, u, a)
  {
    hide Look, Vis, TextDefault, ActiveRange, TriVal;
    match sym.typ
    case UnknownType =>
    case BoolType | TristateType => TriValAgrees(c, sym, u, a, b);
    case StringType =>
      VisAgrees(c, sym, a, b);
      if !(Vis(c, sym, a).v != 0 && u.UserText?) { TextDefaultAgrees(c, sym.defaults, a, b); }
    case IntType | HexType =>
      VisAgrees(c, sym, a, b);
      ActiveRangeAgrees(c, sym.ranges, Base(sym.typ), a, b);
      if NumVal(c, sym, u, a).used >= TextDefault(c, sym.defaults, a).used { TextDefaultAgrees(c, sym.defaults, a, b); }
  }

  // ---------------------------------------------------------------- what the values are

  /** A symbol counts by its tristate value, and as n when it has none.  Relations compare numbers where both
      sides are numbers, and strings otherwise. */
  lemma CompareMeans(c: Config, op: Relation, l: int, r: int, a: Assign)
    ensures Ev(c, Sym(l), a).v == if Logical(TypeOf(c, l)) && Look(c, a, l).Tri? then Look(c, a, l).v else 0
    ensures var holds, x, y := Ev(c, Compare(op, l, r), a).v, NumberOf(c, l, a), NumberOf(c, r, a);
      && (holds == 0 || holds == 2)
      && (holds == 2 <==>
          if x.Some? && y.Some? && !(TypeOf(c, l) == StringType && TypeOf(c, r) == StringType) then
            NumbersRelate(op, x.value, y.value)
          else StringsRelate(c, op, StrOf(Look(c, a, l)), StrOf(Look(c, a, r))))
  {
    assert EnvOf(c, a).holds(op, l, r) <==> Satisfies(op, Comp(c, TypeOf(c, l), Look(c, a, l), TypeOf(c, r), Look(c, a, r)));
  }

  /** The number that a symbol stands for: bool and tristate symbols by their value, the others by their text in
      the base of their type */
  function NumberOf(c: Config, s: int, a: Assign): Option<int> {
    if Logical(TypeOf(c, s)) then Some(TriOf(Look(c, a, s)))
    else c.strings.num(StrOf(Look(c, a, s)), if TypeOf(c, s) == IntType then 10 else if TypeOf(c, s) == HexType then 16 else 0)
  }

  predicate NumbersRelate(op: Relation, x: int, y: int) {
    match op
    case Equal => x == y
    case Unequal => x != y
    case Less => x < y
    case LessEqual => x <= y
    case Greater => x > y
    case GreaterEqual => x >= y
  }

  predicate StringsRelate(c: Config, op: Relation, x: string, y: string) {
    match op
    case Equal => !c.strings.less(x, y) && !c.strings.less(y, x)
    case Unequal => c.strings.less(x, y) || c.strings.less(y, x)
    case Less => c.strings.less(x, y) && !c.strings.less(y, x)
    case LessEqual => !c.strings.less(y, x)
    case Greater => c.strings.less(y, x)
    case GreaterEqual => c.strings.less(y, x) || !c.strings.less(x, y)
  }

  /** v is the greatest of the values, and n when there are none. */
  ghost predicate Highest(c: Config, l: seq<Expr>, a: Assign, v: nat) {
    && (forall i :: 0 <= i < |l| ==> Ev(c, l[i], a).v <= v)
    && (v == 0 || exists i :: 0 <= i < |l| && Ev(c, l[i], a).v == v)
  }

  lemma {:induction false} PromptHighest(c: Config, l: seq<Expr>, a: Assign)
    ensures Highest(c, l, a, PromptVis(c, l, a).v)
  {
    hide Ev;
    if l != [] {
      var n := |l| - 1;
      PromptHighest(c, l[..n], a);
      forall i | 0 <= i < |l| ensures Ev(c, l[i], a).v <= PromptVis(c, l, a).v {
        if i < n { assert l[..n][i] == l[i]; }
      }
    }
  }

  /** The symbol is a tristate one and modules are on. */
  predicate Modular(c: Config, sym: Symbol, a: Assign) {
    sym.typ == TristateType && Ev(c, Sym(MODULES), a).v != 0
  }

  /** A symbol is as visible as its most visible prompt; where it cannot be m a prompt of m makes it fully
      visible. */
  lemma VisMeans(c: Config, sym: Symbol, a: Assign)
    ensures exists p: nat :: Highest(c, sym.prompts, a, p) && Vis(c, sym, a).v == if p == 1 && !Modular(c, sym, a) then 2 else p
  {
    PromptHighest(c, sym.prompts, a);
    hide Ev, Highest;
    assert Highest(c, sym.prompts, a, PromptVis(c, sym.prompts, a).v);
  }

  /** d is what the first default with a condition other than n gives: its value, cut to the condition. */
  ghost predicate DefaultIs(c: Config, defaults: seq<Default>, a: Assign, d: nat) {
    if forall i :: 0 <= i < |defaults| ==> Ev(c, defaults[i].cond, a).v == 0 then d == 0
    else exists k: nat :: FirstIs(c, defaults, a, k)
           && d == if Ev(c, defaults[k].value, a).v < Ev(c, defaults[k].cond, a).v then Ev(c, defaults[k].value, a).v
                   else Ev(c, defaults[k].cond, a).v
  }

  predicate FirstIs(c: Config, defaults: seq<Default>, a: Assign, k: nat) {
    k < |defaults| && Ev(c, defaults[k].cond, a).v != 0 && forall i :: 0 <= i < k ==> Ev(c, defaults[i].cond, a).v == 0
  }

  lemma {:induction false} FirstFound(c: Config, defaults: seq<Default>, a: Assign)
    ensures var d := FirstDefault(c, defaults, a).v;
      if forall i :: 0 <= i < |defaults| ==> Ev(c, defaults[i].cond, a).v == 0 then d == None
      else exists k: nat :: FirstIs(c, defaults, a, k) && d == Some((defaults[k].value, Ev(c, defaults[k].cond, a).v))
  {
    hide Ev;
    if defaults != [] {
      if Ev(c, defaults[0].cond, a).v != 0 {
        assert FirstIs(c, defaults, a, 0);
      } else {
        var rest := defaults[1..];
        FirstFound(c, rest, a);
        if exists i :: 0 <= i < |rest| && Ev(c, rest[i].cond, a).v != 0 {
          var i :| 0 <= i < |rest| && Ev(c, rest[i].cond, a).v != 0;
          assert defaults[i + 1] == rest[i];
          var k: nat :| FirstIs(c, rest, a, k) && FirstDefault(c, rest, a).v == Some((rest[k].value, Ev(c, rest[k].cond, a).v));
          forall j | 0 <= j < k + 1 ensures Ev(c, defaults[j].cond, a).v == 0 { assert j > 0 ==> defaults[j] == rest[j - 1]; }
          assert FirstIs(c, defaults, a, k + 1);
        } else {
          forall j | 0 <= j < |defaults| ensures Ev(c, defaults[j].cond, a).v == 0 { assert j > 0 ==> defaults[j] == rest[j - 1]; }
        }
      }
    }
  }

  lemma DefaultFound(c: Config, defaults: seq<Default>, a: Assign)
    ensures DefaultIs(c, defaults, a, TriDefault(c, defaults, a).v)
  {
    FirstFound(c, defaults, a);
    hide Ev, FirstIs, FirstDefault;
  }

  lemma DefaultUnique(c: Config, defaults: seq<Default>, a: Assign, d: nat, e: nat)
    requires DefaultIs(c, defaults, a, d) && DefaultIs(c, defaults, a, e)
    ensures d == e
  {
    hide Ev;
  }

  /** The user value is in effect: of a visible symbol, and as far as the visibility. */
  predicate Counts(c: Config, sym: Symbol, u: UserVal, a: Assign) {
    u.UserTri? && Vis(c, sym, a).v != 0
  }

  lemma OwnIs(c: Config, sym: Symbol, u: UserVal, a: Assign, def: nat)
    requires DefaultIs(c, sym.defaults, a, def)
    ensures var vis, weak, direct := Vis(c, sym, a).v, Ev(c, sym.weakRev, a).v, Ev(c, sym.direct, a).v;
      Own(c, sym, u, a).v == if Counts(c, sym, u, a) then (if u.v < vis then u.v else vis)
                             else if direct != 0 && weak > def then weak else def
  {
    DefaultFound(c, sym.defaults, a);
    DefaultUnique(c, sym.defaults, a, def, TriDefault(c, sym.defaults, a).v);
    hide Ev, Vis, TriDefault, DefaultIs;
  }

  lemma PromotedIs(c: Config, sym: Symbol, a: Assign, d: Seen<nat>)
    requires Logical(sym.typ)
    ensures Promoted(c, sym, a, d).v ==
      if d.v == 1 && (!Modular(c, sym, a) || Ev(c, sym.weakRev, a).v == 2) then 2 else d.v
  {
    hide Ev;
  }

  /** The value of a bool or tristate symbol, def being what its default in effect gives.  A user value counts up to
      the visibility; without one the default does, or imply where that is more and the direct dependencies are
      met.  Select raises that to its own value, and m becomes y unless the symbol can be m and imply is less
      than y. */
  lemma TriMeans(c: Config, sym: Symbol, u: UserVal, a: Assign, def: nat)
    requires Logical(sym.typ) && DefaultIs(c, sym.defaults, a, def)
    ensures var vis, rev, weak, direct :=
        Vis(c, sym, a).v, Ev(c, sym.rev, a).v, Ev(c, sym.weakRev, a).v, Ev(c, sym.direct, a).v;
      var own := if Counts(c, sym, u, a) then (if u.v < vis then u.v else vis)
                 else if direct != 0 && weak > def then weak else def;
      var most := if rev > own then rev else own;
      ValOf(c, sym, u, a).v == Tri(if most == 1 && (!Modular(c, sym, a) || weak == 2) then 2 else most)
  {
    OwnIs(c, sym, u, a, def);
    PromotedIs(c, sym, a, WithSelect(c, sym, a, Own(c, sym, u, a)));
    hide Ev, Vis, Own, Promoted, DefaultIs, Modular, Counts;
  }

  /** So a symbol is at least what selects it; one that cannot be m is n or y; a user value within the bounds is
      the value, and none takes the value above both visibility and select, except that imply with y turns m
      into y. */
  lemma TriLaws(c: Config, sym: Symbol, u: UserVal, a: Assign)
    requires Logical(sym.typ)
    ensures var vis, rev, weak, v := Vis(c, sym, a).v, Ev(c, sym.rev, a).v, Ev(c, sym.weakRev, a).v, TriOf(ValOf(c, sym, u, a).v);
      && v >= rev && (!Modular(c, sym, a) ==> v != 1)
      && (Counts(c, sym, u, a) ==>
            && (rev <= u.v <= vis && (u.v != 1 || (Modular(c, sym, a) && weak != 2)) ==> v == u.v)
            && (v > vis && v > rev <==>
                  weak == 2 && Modular(c, sym, a) && vis == 1 && rev <= 1 && (u.v >= 1 || rev == 1)))
  {
    DefaultFound(c, sym.defaults, a);
    TriMeans(c, sym, u, a, TriDefault(c, sym.defaults, a).v);
    VisMeans(c, sym, a);
    hide Ev, Vis, ValOf, TriDefault, Highest, DefaultIs;
  }

  /** d is the text of the first default with a condition other than n, if there is one. */
  ghost predicate TextIs(c: Config, defaults: seq<Default>, a: Assign, d: Option<string>) {
    if forall i :: 0 <= i < |defaults| ==> Ev(c, defaults[i].cond, a).v == 0 then d == None
    else exists k: nat :: FirstIs(c, defaults, a, k)
           && d == if defaults[k].value.Sym? then Some(StrOf(Look(c, a, defaults[k].value.sym))) else None
  }

  lemma TextFound(c: Config, defaults: seq<Default>, a: Assign)
    ensures TextIs(c, defaults, a, TextDefault(c, defaults, a).v)
  {
    FirstFound(c, defaults, a);
    hide Ev, FirstIs, FirstDefault, Look, StrOf;
  }

  predicate RangeAt(c: Config, ranges: seq<Range>, a: Assign, k: nat) {
    k < |ranges| && Ev(c, ranges[k].cond, a).v != 0 && forall i :: 0 <= i < k ==> Ev(c, ranges[i].cond, a).v == 0
  }

  /** r are the bounds of the first range with a condition other than n, if there is one. */
  ghost predicate RangeIs(c: Config, ranges: seq<Range>, base: nat, a: Assign, r: Option<(int, int)>) {
    if forall i :: 0 <= i < |ranges| ==> Ev(c, ranges[i].cond, a).v == 0 then r == None
    else exists k: nat :: RangeAt(c, ranges, a, k) && r == Some(Bounds(c, ranges[k], base, a))
  }

  function Bounds(c: Config, range: Range, base: nat, a: Assign): (int, int) {
    (NumOr0(c, StrOf(Look(c, a, range.low)), base), NumOr0(c, StrOf(Look(c, a, range.high)), base))
  }

  lemma {:induction false} RangeFound(c: Config, ranges: seq<Range>, base: nat, a: Assign)
    ensures RangeIs(c, ranges, base, a, ActiveRange(c, ranges, base, a).v)
  {
    hide Ev, NumOr0, StrOf, Look;
    if ranges != [] {
      if Ev(c, ranges[0].cond, a).v != 0 {
        assert RangeAt(c, ranges, a, 0);
      } else {
        var rest := ranges[1..];
        RangeFound(c, rest, base, a);
        if exists i :: 0 <= i < |rest| && Ev(c, rest[i].cond, a).v != 0 {
          var i :| 0 <= i < |rest| && Ev(c, rest[i].cond, a).v != 0;
          assert ranges[i + 1] == rest[i];
          var k: nat :| RangeAt(c, rest, a, k) && ActiveRange(c, rest, base, a).v == Some(Bounds(c, rest[k], base, a));
          forall j | 0 <= j < k + 1 ensures Ev(c, ranges[j].cond, a).v == 0 { assert j > 0 ==> ranges[j] == rest[j - 1]; }
          assert RangeAt(c, ranges, a, k + 1) && ranges[k + 1] == rest[k];
        } else {
          forall j | 0 <= j < |ranges| ensures Ev(c, ranges[j].cond, a).v == 0 { assert j > 0 ==> ranges[j] == rest[j - 1]; }
        }
      }
    }
  }

  lemma TextUnique(c: Config, defaults: seq<Default>, a: Assign, d: Option<string>, e: Option<string>)
    requires TextIs(c, defaults, a, d) && TextIs(c, defaults, a, e)
    ensures d == e
  {
    hide Ev, Look, StrOf;
  }

  lemma RangeUnique(c: Config, ranges: seq<Range>, base: nat, a: Assign, d: Option<(int, int)>, e: Option<(int, int)>)
    requires RangeIs(c, ranges, base, a, d) && RangeIs(c, ranges, base, a, e)
    ensures d == e
  {
    hide Ev, Bounds;
  }

  /** The user's text counts when the symbol is visible; otherwise the default in effect is the value. */
  lemma StringMeans(c: Config, sym: Symbol, u: UserVal, a: Assign, d: Option<string>)
    requires sym.typ == StringType && TextIs(c, sym.defaults, a, d)
    ensures ValOf(c, sym, u, a).v ==
      Text(if Vis(c, sym, a).v != 0 && u.UserText? then u.s else if d.Some? then d.value else "")
  {
    TextFound(c, sym.defaults, a);
    TextUnique(c, sym.defaults, a, d, TextDefault(c, sym.defaults, a).v);
    hide Vis, TextDefault, TextIs;
  }

  predicate Inside(r: Option<(int, int)>, n: int) {
    r.Some? ==> r.value.0 <= n <= r.value.1
  }

  /** The user's number counts when the symbol is visible and the number lies in the range in effect; otherwise the
      default does, moved to the nearer bound when it lies outside. */
  lemma NumMeans(c: Config, sym: Symbol, u: UserVal, a: Assign, d: Option<string>, r: Option<(int, int)>)
    requires sym.typ == IntType || sym.typ == HexType
    requires TextIs(c, sym.defaults, a, d) && RangeIs(c, sym.ranges, Base(sym.typ), a, r)
    ensures var v, n := StrOf(ValOf(c, sym, u, a).v), if d.Some? then NumOr0(c, d.value, Base(sym.typ)) else 0;
      if Vis(c, sym, a).v != 0 && u.UserText? && u.s != "" && Inside(r, NumOr0(c, u.s, Base(sym.typ))) then v == u.s
      else if Inside(r, n) then v == if d.Some? then d.value else ""
      else v == c.strings.show(if n < r.value.0 then r.value.0 else r.value.1, sym.typ == HexType)
  {
    TextFound(c, sym.defaults, a);
    TextUnique(c, sym.defaults, a, d, TextDefault(c, sym.defaults, a).v);
    RangeFound(c, sym.ranges, Base(sym.typ), a);
    RangeUnique(c, sym.ranges, Base(sym.typ), a, r, ActiveRange(c, sym.ranges, Base(sym.typ), a).v);
    hide Vis, TextDefault, TextIs, RangeIs, ActiveRange, NumOr0;
  }

  /** Printing a number and reading it again gives the number, and no text is none. */
  ghost predicate Readable(c: Config, t: Type) {
    && (forall n :: c.strings.num(c.strings.show(n, t == HexType), Base(t)) == Some(n))
    && c.strings.num("", Base(t)) == None
  }

  /** So the value of a number symbol lies in the range in effect, as far as that holds any number at all. */
  lemma NumInRange(c: Config, sym: Symbol, u: UserVal, a: Assign, r: (int, int))
    requires (sym.typ == IntType || sym.typ == HexType) && Readable(c, sym.typ)
    requires RangeIs(c, sym.ranges, Base(sym.typ), a, Some(r)) && r.0 <= r.1
    ensures r.0 <= NumOr0(c, StrOf(ValOf(c, sym, u, a).v), Base(sym.typ)) <= r.1
  {
    TextFound(c, sym.defaults, a);
    NumMeans(c, sym, u, a, TextDefault(c, sym.defaults, a).v, Some(r));
    var hex := sym.typ == HexType;
    assert c.strings.num(c.strings.show(r.0, hex), Base(sym.typ)) == Some(r.0);
    assert c.strings.num(c.strings.show(r.1, hex), Base(sym.typ)) == Some(r.1);
    hide Vis, TextDefault, TextIs, RangeIs, ValOf;
  }

  // ---------------------------------------------------------------- dependencies

  function AllItems(l: seq<Expr>): set<int> {
    if l == [] then {} else AllItems(l[..|l| - 1]) + Items(l[|l| - 1])
  }

  function DefaultItems(l: seq<Default>): set<int> {
    if l == [] then {} else Items(l[0].value) + Items(l[0].cond) + DefaultItems(l[1..])
  }

  function RangeItems(l: seq<Range>): set<int> {
    if l == [] then {} else {l[0].low, l[0].high} + Items(l[0].cond) + RangeItems(l[1..])
  }

  /** The symbols whose _dependents _build_dep adds the symbol to */
  function Deps(sym: Symbol): set<int> {
    AllItems(sym.prompts) + DefaultItems(sym.defaults) + Items(sym.rev) + Items(sym.weakRev)
    + RangeItems(sym.ranges) + Items(sym.direct)
  }

  /** Tristate symbols look at MODULES besides. */
  function Sources(sym: Symbol): set<int> {
    if sym.typ == TristateType then Deps(sym) + {MODULES} else Deps(sym)
  }

  lemma {:induction false} PromptUses(c: Config, prompts: seq<Expr>, a: Assign)
    ensures PromptVis(c, prompts, a).used <= AllItems(prompts)
  {
    if prompts != [] {
      PromptUses(c, prompts[..|prompts| - 1], a);
      ReadsItems(c, prompts[|prompts| - 1], EnvOf(c, a));
    }
  }

  lemma {:induction false} DefaultUses(c: Config, defaults: seq<Default>, a: Assign)
    ensures var d := FirstDefault(c, defaults, a);
      d.used <= DefaultItems(defaults) && (d.v.Some? ==> Items(d.v.value.0) <= DefaultItems(defaults))
  {
    if defaults != [] {
      ReadsItems(c, defaults[0].cond, EnvOf(c, a));
      DefaultUses(c, defaults[1..], a);
    }
  }

  lemma {:induction false} RangeUses(c: Config, ranges: seq<Range>, base: nat, a: Assign)
    ensures ActiveRange(c, ranges, base, a).used <= RangeItems(ranges)
  {
    if ranges != [] {
      ReadsItems(c, ranges[0].cond, EnvOf(c, a));
      RangeUses(c, ranges[1..], base, a);
    }
  }

  lemma VisUses(c: Config, sym: Symbol, a: Assign)
    ensures Vis(c, sym, a).used <= Sources(sym)
  {
    PromptUses(c, sym.prompts, a);
  }

  lemma EffTypeUses(c: Config, sym: Symbol, a: Assign)
    ensures EffType(c, sym.typ, a).used <= Sources(sym)
  {
  }

  lemma TriDefaultUses(c: Config, sym: Symbol, a: Assign)
    ensures TriDefault(c, sym.defaults, a).used <= Sources(sym)
  {
    DefaultUses(c, sym.defaults, a);
    var d := FirstDefault(c, sym.defaults, a);
    if d.v.Some? { ReadsItems(c, d.v.value.0, EnvOf(c, a)); }
  }

  lemma TriUses(c: Config, sym: Symbol, u: UserVal, a: Assign)
    ensures TriVal(c, sym, u, a).used <= Sources(sym)
  {
    VisUses(c, sym, a);
    TriDefaultUses(c, sym, a);
    EffTypeUses(c, sym, a);
    hide Vis, TriDefault, EffType, Value, Reads;
    ReadsItems(c, sym.rev, EnvOf(c, a));
    ReadsItems(c, sym.weakRev, EnvOf(c, a));
    ReadsItems(c, sym.direct, EnvOf(c, a));
  }

  /** Everything a computation looks at is recorded as a dependency, except MODULES. */
  lemma ValUses(c: Config, sym: Symbol, u: UserVal, a: Assign)
    ensures ValOf(c, sym, u, a).used <= Sources(sym)
  {
    VisUses(c, sym, a);
    TriUses(c, sym, u, a);
    DefaultUses(c, sym.defaults, a);
    RangeUses(c, sym.ranges, Base(sym.typ), a);
    hide Vis, TriVal, FirstDefault, ActiveRange;
  }

  // ---------------------------------------------------------------- values from scratch

  type Users = map<int, UserVal>

  function UserOf(u: Users, s: int): UserVal {
    if s in u then u[s] else NoUser
  }

  /** Everything looked at has a value in a, constants aside. */
  ghost predicate Within(c: Config, a: Assign, used: set<int>) {
    forall r :: r in used && r in c.syms ==> r in a
  }

  /** A symbol whose computation looks only at values that are there */
  ghost predicate Ready(c: Config, u: Users, a: Assign, s: int)
    requires s in c.syms
  {
    Within(c, a, ValOf(c, c.syms[s], UserOf(u, s), a).used)
  }

  /** The values whose computation nests at most n deep: each symbol looked at is computed in turn. */
  ghost function Nested(c: Config, u: Users, n: nat): Assign {
    if n == 0 then map[] else Next(c, u, Nested(c, u, n - 1))
  }

  ghost function Next(c: Config, u: Users, a: Assign): Assign {
    map s | s in c.syms && Ready(c, u, a, s) :: ValOf(c, c.syms[s], UserOf(u, s), a).v
  }

  ghost predicate Ends(c: Config, u: Users, s: int) {
    exists n: nat :: s in Nested(c, u, n)
  }

  /** The value of a symbol whose computation ends */
  ghost function Final(c: Config, u: Users, s: int): Val
    requires Ends(c, u, s)
  {
    var n: nat :| s in Nested(c, u, n);
    Nested(c, u, n)[s]
  }

  ghost function All(c: Config, u: Users): Assign {
    map s | s in c.syms && Ends(c, u, s) :: Final(c, u, s)
  }

  lemma NestedAt(c: Config, u: Users, n: nat, s: int)
    ensures s in Nested(c, u, n) <==> n > 0 && s in c.syms && Ready(c, u, Nested(c, u, n - 1), s)
    ensures s in Nested(c, u, n) ==>
      s in c.syms && Nested(c, u, n)[s] == ValOf(c, c.syms[s], UserOf(u, s), Nested(c, u, n - 1)).v
  {
    hide ValOf, Ready;
  }

  /** A value is the same wherever what it looks at is there and the same. */
  lemma SameNext(c: Config, u: Users, a: Assign, b: Assign, s: int)
    requires s in c.syms && Ready(c, u, a, s)
    requires forall r :: r in ValOf(c, c.syms[s], UserOf(u, s), a).used && r in c.syms ==>
               r in a && r in b && b[r] == a[r]
    ensures ValOf(c, c.syms[s], UserOf(u, s), b) == ValOf(c, c.syms[s], UserOf(u, s), a)
    ensures Ready(c, u, b, s)
  {
    hide ValOf;
    ValAgrees(c, c.syms[s], UserOf(u, s), a, b);
  }

  lemma ReadyLooks(c: Config, u: Users, a: Assign, s: int)
    requires s in c.syms && Ready(c, u, a, s)
    ensures forall r :: r in ValOf(c, c.syms[s], UserOf(u, s), a).used && r in c.syms ==> r in a
  {
  }

  /** Deeper nesting adds values and changes none. */
  lemma {:induction false} NestedGrows(c: Config, u: Users, n: nat, s: int)
    requires s in Nested(c, u, n)
    ensures s in Nested(c, u, n + 1) && Nested(c, u, n + 1)[s] == Nested(c, u, n)[s]
  {
    hide ValOf, Nested, Ready;
    NestedAt(c, u, n, s);
    NestedAt(c, u, n + 1, s);
    var a, b := Nested(c, u, n - 1), Nested(c, u, n);
    ReadyLooks(c, u, a, s);
    forall r | r in a ensures r in b && b[r] == a[r] { NestedGrows(c, u, n - 1, r); }
    SameNext(c, u, a, b, s);
  }

  lemma {:induction false} NestedMore(c: Config, u: Users, n: nat, k: nat, s: int)
    requires s in Nested(c, u, n)
    ensures s in Nested(c, u, n + k) && Nested(c, u, n + k)[s] == Nested(c, u, n)[s]
  {
    hide Nested;
    if k > 0 {
      NestedMore(c, u, n, k - 1, s);
      NestedGrows(c, u, n + k - 1, s);
    }
  }

  /** What a value looks at nests less deeply. */
  lemma NestedLooks(c: Config, u: Users, n: nat, s: int)
    requires s in Nested(c, u, n + 1)
    ensures s in c.syms
    ensures var val := ValOf(c, c.syms[s], UserOf(u, s), Nested(c, u, n + 1));
      val.v == Nested(c, u, n + 1)[s] && forall r :: r in val.used && r in c.syms ==> r in Nested(c, u, n)
  {
    hide ValOf, Nested, Ready;
    NestedAt(c, u, n + 1, s);
    var a, b := Nested(c, u, n), Nested(c, u, n + 1);
    ReadyLooks(c, u, a, s);
    forall r | r in a ensures r in b && b[r] == a[r] { NestedGrows(c, u, n, r); }
    SameNext(c, u, a, b, s);
  }

  lemma FinalAt(c: Config, u: Users, n: nat, s: int)
    requires s in Nested(c, u, n)
    ensures Ends(c, u, s) && Final(c, u, s) == Nested(c, u, n)[s]
  {
    hide Nested;
    forall m: nat | s in Nested(c, u, m) ensures Nested(c, u, m)[s] == Nested(c, u, n)[s] {
      if m < n { NestedMore(c, u, m, n - m, s); } else { NestedMore(c, u, n, m - n, s); }
    }
  }

  lemma AllAt(c: Config, u: Users, n: nat, s: int)
    requires s in Nested(c, u, n)
    ensures s in c.syms && Ends(c, u, s) && s in All(c, u)
    ensures Look(c, All(c, u), s) == All(c, u)[s] == Nested(c, u, n)[s]
  {
    hide Nested, Final, Ends;
    NestedAt(c, u, n, s);
    FinalAt(c, u, n, s);
  }

  /** The values that ending computations give are the values of the symbols in terms of each other, and what
      a value looks at nests less deeply. */
  lemma FinalIs(c: Config, u: Users, n: nat, s: int)
    requires s in Nested(c, u, n)
    ensures n > 0 && s in c.syms && Ends(c, u, s)
    ensures var val := ValOf(c, c.syms[s], UserOf(u, s), All(c, u));
      && Look(c, All(c, u), s) == val.v && Within(c, Nested(c, u, n - 1), val.used)
      && val == ValOf(c, c.syms[s], UserOf(u, s), Nested(c, u, n - 1)) && Ready(c, u, Nested(c, u, n - 1), s)
  {
    hide ValOf, Nested, Ready, All, Look, Ends;
    NestedAt(c, u, n, s);
    AllAt(c, u, n, s);
    var a := Nested(c, u, n - 1);
    ReadyLooks(c, u, a, s);
    forall r | r in a ensures r in All(c, u) && All(c, u)[r] == a[r] { AllAt(c, u, n - 1, r); }
    SameNext(c, u, a, All(c, u), s);
  }

  /** Any other assignment that satisfies these equations gives the same values to all symbols whose
      computations end. */
  lemma {:induction false} OnlySolution(c: Config, u: Users, a: Assign, n: nat, s: int)
    requires forall r :: r in c.syms ==> r in a && a[r] == ValOf(c, c.syms[r], UserOf(u, r), a).v
    requires s in Nested(c, u, n)
    ensures s in All(c, u) && s in a && a[s] == All(c, u)[s]
  {
    hide ValOf, Nested, Ready, All, Ends;
    NestedAt(c, u, n, s);
    AllAt(c, u, n, s);
    var b := Nested(c, u, n - 1);
    ReadyLooks(c, u, b, s);
    forall r | r in b && r in c.syms ensures r in a && a[r] == b[r] {
      OnlySolution(c, u, a, n - 1, r);
      AllAt(c, u, n - 1, r);
    }
    SameNext(c, u, b, a, s);
  }

  // ---------------------------------------------------------------- the cache

  /** _cached_vis, _cached_tri_val and _cached_str_val of the symbols that have them */
  datatype Cache = Cache(vis: map<int, nat>, tri: map<int, nat>, str: map<int, string>)

  /** The value that other symbols look at is cached, or a constant. */
  predicate Held(c: Config, k: Cache, s: int) {
    s in c.syms ==>
      && (Logical(c.syms[s].typ) ==> s in k.tri)
      && (!Logical(c.syms[s].typ) && c.syms[s].typ != UnknownType ==> s in k.str)
  }

  ghost predicate AllHeld(c: Config, k: Cache, used: set<int>) {
    forall r :: r in used ==> Held(c, k, r)
  }

  /** A cached visibility is right, and so is what it was computed from. */
  ghost predicate VisRight(c: Config, a: Assign, k: Cache, s: int)
    requires s in c.syms
  {
    s in k.vis ==> k.vis[s] == Vis(c, c.syms[s], a).v && AllHeld(c, k, Vis(c, c.syms[s], a).used)
  }

  /** The value that other symbols look at, likewise; whoever has one cached has the visibility cached. */
  ghost predicate MainRight(c: Config, u: Users, a: Assign, k: Cache, s: int)
    requires s in c.syms
  {
    var sym := c.syms[s];
    var val := ValOf(c, sym, UserOf(u, s), a);
    Held(c, k, s) && sym.typ != UnknownType ==>
      && Ends(c, u, s) && s in k.vis && AllHeld(c, k, val.used)
      && if Logical(sym.typ) then k.tri[s] == TriOf(val.v) else k.str[s] == StrOf(val.v)
  }

  /** The other kind of value follows from the type and the first kind. */
  ghost predicate OtherRight(c: Config, k: Cache, s: int)
    requires s in c.syms
  {
    var sym := c.syms[s];
    && (s in k.tri && !Logical(sym.typ) ==> k.tri[s] == 0)
    && (s in k.str && Logical(sym.typ) ==> s in k.tri && k.str[s] == StrOf(Tri(k.tri[s])))
    && (s in k.str && sym.typ == UnknownType ==> k.str[s] == sym.name)
  }

  ghost predicate RightFor(c: Config, u: Users, a: Assign, k: Cache) {
    && k.vis.Keys <= c.syms.Keys && k.tri.Keys <= c.syms.Keys && k.str.Keys <= c.syms.Keys
    && forall s :: s in c.syms ==> VisRight(c, a, k, s) && MainRight(c, u, a, k, s) && OtherRight(c, k, s)
  }

  /** Everything in the cache is what would be computed from scratch. */
  ghost predicate Right(c: Config, u: Users, k: Cache) {
    RightFor(c, u, All(c, u), k)
  }

  predicate Kept(k: Cache, k': Cache, s: int) {
    && (s in k'.vis <==> s in k.vis) && (s in k.vis && s in k'.vis ==> k'.vis[s] == k.vis[s])
    && (s in k'.tri <==> s in k.tri) && (s in k.tri && s in k'.tri ==> k'.tri[s] == k.tri[s])
    && (s in k'.str <==> s in k.str) && (s in k.str && s in k'.str ==> k'.str[s] == k.str[s])
  }

  predicate Dropped(k': Cache, s: int) {
    s !in k'.vis && s !in k'.tri && s !in k'.str
  }

  /** No symbol that depends on s has its visibility cached. */
  ghost predicate NoneAbove(c: Config, k: Cache, s: int) {
    && (forall y :: y in c.syms && s in Deps(c.syms[y]) ==> y !in k.vis)
    && (s == MODULES ==> forall y :: y !in k.vis)
  }

  /** Each symbol kept what it had cached or lost all of it, in the latter case together with every symbol
      that depends on it; and x, whose user value changed, lost it. */
  ghost predicate Invalidated(c: Config, k: Cache, k': Cache, x: int) {
    && (forall s :: Kept(k, k', s) || Dropped(k', s))
    && Dropped(k', x) && NoneAbove(c, k', x)
    && (forall s :: s in k.vis && s !in k'.vis ==> NoneAbove(c, k', s))
  }

  /** Each symbol on the way depends on the one before it. */
  ghost predicate IsWay(c: Config, way: seq<int>, x: int, s: int) {
    && way != [] && way[0] == x && way[|way| - 1] == s
    && forall i :: 0 < i < |way| ==> Follows(c, way, i)
  }

  predicate Follows(c: Config, way: seq<int>, i: nat)
    requires 0 < i < |way|
  {
    way[i] in c.syms && way[i - 1] in Deps(c.syms[way[i]])
  }

  ghost predicate Downstream(c: Config, x: int, s: int) {
    exists way :: IsWay(c, way, x, s)
  }

  /** Only symbols that depend on x have lost what they had cached, unless MODULES does too, on which all symbols
      are taken to depend. */
  ghost predicate OnlyBelow(c: Config, k: Cache, k': Cache, x: int) {
    Downstream(c, x, MODULES) || forall s :: Kept(k, k', s) || Downstream(c, x, s)
  }

  lemma WayOn(c: Config, x: int, item: int, s: int)
    requires item in c.syms && x in Deps(c.syms[item]) && Downstream(c, item, s)
    ensures Downstream(c, x, s)
  {
    hide Deps;
    var way :| IsWay(c, way, item, s);
    var on := [x] + way;
    forall i | 0 < i < |on| ensures Follows(c, on, i) {
      if i > 1 { assert Follows(c, way, i - 1); }
    }
    assert IsWay(c, on, x, s);
  }

  lemma HereBelow(c: Config, x: int)
    ensures Downstream(c, x, x)
  {
    assert IsWay(c, [x], x, x);
  }

  lemma FurtherBelow(c: Config, k0: Cache, k: Cache, k': Cache, x: int, item: int)
    requires OnlyBelow(c, k0, k, x) && OnlyBelow(c, k, k', item) && item in c.syms && x in Deps(c.syms[item])
    ensures OnlyBelow(c, k0, k', x)
  {
    hide Deps, Downstream;
    if Downstream(c, item, MODULES) { WayOn(c, x, item, MODULES); }
    if !Downstream(c, x, MODULES) {
      forall s ensures Kept(k0, k', s) || Downstream(c, x, s) {
        assert Kept(k0, k, s) || Downstream(c, x, s);
        if Downstream(c, item, s) { WayOn(c, x, item, s); }
      }
    }
  }

  /** A value still cached rests on values still cached. */
  lemma StillHeld(c: Config, u: Users, a: Assign, k: Cache, k': Cache, x: int, s: int, r: int)
    requires RightFor(c, u, a, k) && Invalidated(c, k, k', x) && s in c.syms && s in k'.vis
    requires r in Sources(c.syms[s]) && Held(c, k, r)
    ensures Held(c, k', r)
  {
    hide ValOf, Vis, Look, Deps;
    if r in c.syms {
      assert MainRight(c, u, a, k, r);
      assert Kept(k, k', r) || Dropped(k', r);
      assert r in k.vis && r !in k'.vis ==> NoneAbove(c, k', r);
    }
  }

  /** A symbol whose value is still cached has the same value under the new user value of x. */
  lemma {:induction false} Unmoved(c: Config, u: Users, u': Users, k: Cache, k': Cache, x: int, n: nat, s: int)
    requires Right(c, u, k) && Invalidated(c, k, k', x)
    requires forall y :: y != x ==> UserOf(u', y) == UserOf(u, y)
    requires Held(c, k', s) && s in Nested(c, u, n)
    ensures s in Nested(c, u', n) && Nested(c, u', n)[s] == Nested(c, u, n)[s]
  {
    hide ValOf, Vis, All, Deps, Look, Held, Sources, Nested, Right, Ready, Invalidated, AllHeld, Within, Ends;
    FinalIs(c, u, n, s);
    NestedAt(c, u, n, s);
    NestedAt(c, u', n, s);
    var sym, a, a' := c.syms[s], Nested(c, u, n - 1), Nested(c, u', n - 1);
    if sym.typ == UnknownType {
      NameOnly(c, u, a, s);
      NameOnly(c, u', a', s);
    } else {
      HeldBefore(c, u, k, k', x, s);
      var used := ValOf(c, sym, UserOf(u, s), a).used;
      ReadyLooks(c, u, a, s);
      forall r | r in used && r in c.syms ensures r in a && r in a' && a'[r] == a[r] {
        LooksHeld(c, u, k, k', x, s, r);
        Unmoved(c, u, u', k, k', x, n - 1, r);
      }
      SameNext(c, u, a, a', s);
      SameReady(c, u, u', a', s);
    }
  }

  lemma SameReady(c: Config, u: Users, u': Users, a: Assign, s: int)
    requires s in c.syms && UserOf(u', s) == UserOf(u, s) && Ready(c, u, a, s)
    ensures Ready(c, u', a, s)
  {
    hide ValOf, Within;
  }

  lemma LooksHeld(c: Config, u: Users, k: Cache, k': Cache, x: int, s: int, r: int)
    requires Right(c, u, k) && Invalidated(c, k, k', x) && s in c.syms && s in k'.vis
    requires AllHeld(c, k, ValOf(c, c.syms[s], UserOf(u, s), All(c, u)).used)
    requires r in ValOf(c, c.syms[s], UserOf(u, s), All(c, u)).used
    ensures Held(c, k', r)
  {
    hide ValOf, All, Sources, RightFor, Invalidated, Held;
    ValUses(c, c.syms[s], UserOf(u, s), All(c, u));
    StillHeld(c, u, All(c, u), k, k', x, s, r);
  }

  /** So it looks the same to others. */
  lemma UnmovedLook(c: Config, u: Users, u': Users, k: Cache, k': Cache, x: int, s: int)
    requires Right(c, u, k) && Invalidated(c, k, k', x)
    requires forall y :: y != x ==> UserOf(u', y) == UserOf(u, y)
    requires Held(c, k', s)
    ensures Look(c, All(c, u'), s) == Look(c, All(c, u), s)
    ensures s in c.syms ==> Ends(c, u', s)
  {
    hide ValOf, Vis, All, Deps, Look, Held, Sources, Nested, Right, Invalidated, AllHeld;
    if s in c.syms {
      HeldEnds(c, u, k, k', x, s);
      var n: nat :| s in Nested(c, u, n);
      Unmoved(c, u, u', k, k', x, n, s);
      AllAt(c, u, n, s);
      AllAt(c, u', n, s);
    } else {
      OtherLook(c, All(c, u), All(c, u'), s);
    }
  }

  lemma HeldEnds(c: Config, u: Users, k: Cache, k': Cache, x: int, s: int)
    requires Right(c, u, k) && Invalidated(c, k, k', x) && s in c.syms && Held(c, k', s)
    ensures Ends(c, u, s)
  {
    hide Right, Invalidated, Held, Nested, ValOf, All;
    if c.syms[s].typ == UnknownType {
      NameOnly(c, u, Nested(c, u, 0), s);
      NestedAt(c, u, 1, s);
    } else {
      HeldBefore(c, u, k, k', x, s);
    }
  }

  /** Constant and undefined symbols are the same under every assignment. */
  lemma OtherLook(c: Config, a: Assign, b: Assign, s: int)
    requires s !in c.syms
    ensures Look(c, a, s) == Look(c, b, s)
  {
  }

  /** A symbol without a type is its name, and looks at nothing. */
  lemma NameOnly(c: Config, u: Users, a: Assign, s: int)
    requires s in c.syms && c.syms[s].typ == UnknownType
    ensures Ready(c, u, a, s) && ValOf(c, c.syms[s], UserOf(u, s), a) == Seen(Text(c.syms[s].name), {})
  {
  }

  /** Who holds a value afterwards held it before, and is not the symbol that changed. */
  lemma HeldBefore(c: Config, u: Users, k: Cache, k': Cache, x: int, s: int)
    requires Right(c, u, k) && Invalidated(c, k, k', x)
    requires s in c.syms && c.syms[s].typ != UnknownType && Held(c, k', s)
    ensures s != x && s in k'.vis && Ends(c, u, s)
    ensures AllHeld(c, k, ValOf(c, c.syms[s], UserOf(u, s), All(c, u)).used)
  {
    hide ValOf, Vis, All, Ends, Deps, NoneAbove;
    assert Kept(k, k', s) || Dropped(k', s);
    assert MainRight(c, u, All(c, u), k, s);
  }

  /** Stopping early at symbols without a cached visibility is safe: whatever is still cached afterwards
      is right for the new user value. */
  lemma InvalidationIsEnough(c: Config, u: Users, u': Users, k: Cache, k': Cache, x: int)
    requires Right(c, u, k) && Invalidated(c, k, k', x)
    requires forall y :: y != x ==> UserOf(u', y) == UserOf(u, y)
    ensures Right(c, u', k')
  {
    hide ValOf, Vis, All, Ends, Deps, Look;
    var a, a' := All(c, u), All(c, u');
    forall s | s in c.syms ensures VisRight(c, a', k', s) && MainRight(c, u', a', k', s) && OtherRight(c, k', s) {
      assert VisRight(c, a, k, s) && MainRight(c, u, a, k, s) && OtherRight(c, k, s);
      assert Kept(k, k', s) || Dropped(k', s);
      if s in k'.vis {
        VisStays(c, u, u', k, k', x, s);
        if Held(c, k', s) && c.syms[s].typ != UnknownType { MainStays(c, u, u', k, k', x, s); }
      }
    }
    assert forall s :: s in k'.vis ==> s in k.vis by { KeysShrink(c, k, k', x); }
    KeysShrink(c, k, k', x);
  }

  lemma KeysShrink(c: Config, k: Cache, k': Cache, x: int)
    requires Invalidated(c, k, k', x)
    ensures k'.vis.Keys <= k.vis.Keys && k'.tri.Keys <= k.tri.Keys && k'.str.Keys <= k.str.Keys
  {
    hide NoneAbove;
    forall s ensures (s in k'.vis ==> s in k.vis) && (s in k'.tri ==> s in k.tri) && (s in k'.str ==> s in k.str) {
      assert Kept(k, k', s) || Dropped(k', s);
    }
  }

  lemma VisStays(c: Config, u: Users, u': Users, k: Cache, k': Cache, x: int, s: int)
    requires Right(c, u, k) && Invalidated(c, k, k', x) && s in c.syms && s in k'.vis && s in k.vis
    requires forall y :: y != x ==> UserOf(u', y) == UserOf(u, y)
    ensures Vis(c, c.syms[s], All(c, u')) == Vis(c, c.syms[s], All(c, u))
    ensures AllHeld(c, k', Vis(c, c.syms[s], All(c, u)).used)
  {
    hide ValOf, Vis, All, Ends, Deps, Look, Held;
    var a, a' := All(c, u), All(c, u');
    var used := Vis(c, c.syms[s], a).used;
    assert VisRight(c, a, k, s);
    VisUses(c, c.syms[s], a);
    forall r | r in used ensures Held(c, k', r) && Look(c, a', r) == Look(c, a, r) {
      StillHeld(c, u, a, k, k', x, s, r);
      UnmovedLook(c, u, u', k, k', x, r);
    }
    VisAgrees(c, c.syms[s], a, a');
  }

  lemma MainStays(c: Config, u: Users, u': Users, k: Cache, k': Cache, x: int, s: int)
    requires Right(c, u, k) && Invalidated(c, k, k', x) && s in c.syms && s in k'.vis
    requires Held(c, k, s) && Held(c, k', s) && c.syms[s].typ != UnknownType
    requires forall y :: y != x ==> UserOf(u', y) == UserOf(u, y)
    ensures UserOf(u', s) == UserOf(u, s) && Ends(c, u', s)
    ensures ValOf(c, c.syms[s], UserOf(u, s), All(c, u')) == ValOf(c, c.syms[s], UserOf(u, s), All(c, u))
    ensures AllHeld(c, k', ValOf(c, c.syms[s], UserOf(u, s), All(c, u)).used)
  {
    hide ValOf, Vis, All, Ends, Deps, Look;
    UnmovedLook(c, u, u', k, k', x, s);
    var a, a', v := All(c, u), All(c, u'), UserOf(u, s);
    var used := ValOf(c, c.syms[s], v, a).used;
    assert MainRight(c, u, a, k, s);
    hide Held;
    ValUses(c, c.syms[s], v, a);
    forall r | r in used ensures Held(c, k', r) && Look(c, a', r) == Look(c, a, r) {
      StillHeld(c, u, a, k, k', x, s, r);
      UnmovedLook(c, u, u', k, k', x, r);
    }
    ValAgrees(c, c.syms[s], v, a, a');
  }

  // ---------------------------------------------------------------- user values

  lemma NoPrompts(c: Config, sym: Symbol, u: UserVal, u': UserVal, a: Assign)
    requires sym.prompts == []
    ensures ValOf(c, sym, u, a) == ValOf(c, sym, u', a)
  {
    assert Vis(c, sym, a).v == 0;
  }

  /** A user value has no effect on anything when its symbol has no prompt. */
  lemma {:induction false} NestedUnused(c: Config, u: Users, u': Users, x: int, n: nat)
    requires x in c.syms && c.syms[x].prompts == []
    requires forall y :: y != x ==> UserOf(u', y) == UserOf(u, y)
    ensures Nested(c, u', n) == Nested(c, u, n)
  {
    hide ValOf, Within, Nested;
    if n > 0 {
      NestedUnused(c, u, u', x, n - 1);
      NoPrompts(c, c.syms[x], UserOf(u, x), UserOf(u', x), Nested(c, u, n - 1));
    }
    forall s ensures s in Nested(c, u', n) <==> s in Nested(c, u, n)
             ensures s in Nested(c, u, n) && s in Nested(c, u', n) ==> Nested(c, u', n)[s] == Nested(c, u, n)[s]
    {
      NestedAt(c, u, n, s);
      NestedAt(c, u', n, s);
    }
  }

  lemma AllUnused(c: Config, u: Users, u': Users, x: int)
    requires x in c.syms && c.syms[x].prompts == []
    requires forall y :: y != x ==> UserOf(u', y) == UserOf(u, y)
    ensures All(c, u') == All(c, u) && forall s :: Ends(c, u', s) <==> Ends(c, u, s)
  {
    hide Nested, Look, Final;
    forall n: nat ensures Nested(c, u', n) == Nested(c, u, n) { NestedUnused(c, u, u', x, n); }
    forall s | Ends(c, u, s) ensures Ends(c, u', s) && Final(c, u', s) == Final(c, u, s) {
      var n: nat :| s in Nested(c, u, n);
      assert s in Nested(c, u', n);
      AllAt(c, u, n, s);
      AllAt(c, u', n, s);
    }
    forall s | Ends(c, u', s) ensures Ends(c, u, s) {
      var n: nat :| s in Nested(c, u', n);
      assert s in Nested(c, u, n);
    }
  }

  /** So the cache stays right without invalidation. */
  lemma NothingToDo(c: Config, u: Users, u': Users, k: Cache, x: int)
    requires Right(c, u, k) && x in c.syms && c.syms[x].prompts == []
    requires forall y :: y != x ==> UserOf(u', y) == UserOf(u, y)
    ensures Right(c, u', k)
  {
    hide ValOf, Vis, Held, All, Ends;
    AllUnused(c, u, u', x);
    NoPrompts(c, c.syms[x], UserOf(u, x), UserOf(u', x), All(c, u));
    forall s | s in c.syms
      ensures VisRight(c, All(c, u'), k, s) && MainRight(c, u', All(c, u'), k, s) && OtherRight(c, k, s)
    {
      assert VisRight(c, All(c, u), k, s) && MainRight(c, u, All(c, u), k, s) && OtherRight(c, k, s);
    }
  }

  /** A user value as set_value stores it: n, m and y for bool and tristate symbols become numbers. */
  function Stored(t: Type, v: UserVal): UserVal {
    if Logical(t) && v.UserText? then
      if v.s == "n" then UserTri(0) else if v.s == "m" then UserTri(1) else if v.s == "y" then UserTri(2) else v
    else v
  }

  /** What set_value accepts for a type */
  predicate Accepted(c: Config, t: Type, v: UserVal) {
    match t
    case BoolType => v == UserTri(0) || v == UserTri(2) || v == UserText("n") || v == UserText("y")
    case TristateType => (v.UserTri? && v.v <= 2) || v == UserText("n") || v == UserText("m") || v == UserText("y")
    case StringType => v.UserText?
    case IntType => v.UserText? && c.strings.num(v.s, 10).Some?
    case HexType => v.UserText? && c.strings.num(v.s, 16).Some? && c.strings.num(v.s, 16).value >= 0
    case UnknownType => false
  }

  /** The user values after set_value, and whether it succeeds. */
  function AfterSet(c: Config, u: Users, s: int, v: UserVal): (Users, bool)
    requires s in c.syms
  {
    if v == UserOf(u, s) then (u, true)
    else if !Accepted(c, c.syms[s].typ, v) then (u, false)
    else (u[s := Stored(c.syms[s].typ, v)], true)
  }

  /** The values that a bool or tristate symbol can be given, as numbers or as letters */
  function Letter(n: nat): string { if n == 0 then "n" else if n == 1 then "m" else "y" }

  /** A call of set_value changes at most the symbol's own user value.  What is stored for a bool or tristate symbol
      is n, m or y, never m for a bool one, and each of these is accepted as a number and as a letter; for a number
      symbol it is text that reads as a number. */
  lemma SetMeans(c: Config, u: Users, s: int, v: UserVal)
    requires s in c.syms
    ensures var (u', ok) := AfterSet(c, u, s, v);
      var t := c.syms[s].typ;
      && (forall y :: y != s ==> UserOf(u', y) == UserOf(u, y)) && (!ok ==> u' == u)
      && (ok && v != UserOf(u, s) ==>
            && (Logical(t) ==> UserOf(u', s).UserTri? && UserOf(u', s).v <= 2 && (t == BoolType ==> UserOf(u', s).v != 1)
                               && (v == UserOf(u', s) || v == UserText(Letter(UserOf(u', s).v))))
            && (!Logical(t) ==> UserOf(u', s) == v && v.UserText?)
            && (t == IntType ==> c.strings.num(v.s, 10).Some?)
            && (t == HexType ==> c.strings.num(v.s, 16).Some? && c.strings.num(v.s, 16).value >= 0))
    ensures Logical(c.syms[s].typ) ==> forall n: nat :: n <= 2 && (n == 1 ==> c.syms[s].typ == TristateType) ==>
      && AfterSet(c, u, s, UserTri(n)).1 && AfterSet(c, u, s, UserText(Letter(n))).1
  {
  }

  // ---------------------------------------------------------------- an order of computation

  function RankFrom(done: seq<int>, s: int): nat {
    |done| - Place(done, s)
  }

  function Place(done: seq<int>, s: int): (i: nat)
    ensures i <= |done|
  {
    if done == [] || done[0] == s then 0 else 1 + Place(done[1..], s)
  }

  lemma {:induction false} PlaceIsIndex(done: seq<int>, s: int)
    requires s in done && Ring.Distinct(done)
    ensures Place(done, s) == Ring.Index(done, s)
  {
    if done[0] != s {
      assert s in done[1..];
      PlaceIsIndex(done[1..], s);
      var j := Ring.Index(done[1..], s);
      assert done[j + 1] == s;
      Ring.IndexUnique(done, j + 1);
    } else {
      Ring.IndexUnique(done, 0);
    }
  }

  /** The graph that is searched: the _dependents as _build_dep records them, without edges from MODULES
      to the tristate symbols. */
  ghost predicate Records(c: Config, g: KconfigLoop.Graph) {
    && g.Keys == c.syms.Keys
    && forall r, s :: r in c.syms && s in c.syms ==> (s in g[r] <==> r in Deps(c.syms[s]))
  }

  /** m holds MODULES and everything it depends on, and no tristate symbol. */
  ghost predicate Shields(c: Config, m: set<int>) {
    && MODULES in m
    && forall s :: s in m && s in c.syms ==>
         c.syms[s].typ != TristateType && forall r :: r in Deps(c.syms[s]) && r in c.syms ==> r in m
  }

  /** MODULES depends on no tristate symbol, directly or through others; the search does not see this. */
  ghost predicate ModulesApart(c: Config) {
    MODULES in c.syms ==> exists m :: Shields(c, m)
  }

  /** A static order of computation: rank grows along all recorded dependencies, and from MODULES to every
      tristate symbol, whether or not they look at it. */
  ghost predicate Ordered(c: Config, rank: map<int, nat>) {
    && rank.Keys == c.syms.Keys
    && forall s, r :: s in c.syms && r in c.syms && r in Sources(c.syms[s]) ==> rank[r] < rank[s]
  }

  ghost predicate Rankable(c: Config) {
    exists rank :: Ordered(c, rank)
  }

  /** The symbols that MODULES needs come first, each group in the order of finishing. */
  function Ranks(c: Config, done: seq<int>, m: set<int>): map<int, nat> {
    map s | s in c.syms :: if s in m then RankFrom(done, s) else |done| + 1 + RankFrom(done, s)
  }

  /** When the search finishes every symbol and MODULES depends on no tristate symbol, there is a static
      order of computation. */
  lemma OrderWithoutLoops(c: Config, g: KconfigLoop.Graph, done: seq<int>, m: set<int>)
    requires Records(c, g) && KconfigLoop.Finished(g, done) && (forall s :: s in g ==> s in done)
    requires MODULES in c.syms ==> Shields(c, m)
    ensures Ordered(c, Ranks(c, done, if MODULES in c.syms then m else {}))
  {
    var rank := Ranks(c, done, if MODULES in c.syms then m else {});
    hide Deps;
    forall s, r | s in c.syms && r in c.syms && r in Sources(c.syms[s]) ensures rank[r] < rank[s] {
      if r in Deps(c.syms[s]) { FinishedLater(c, g, done, r, s); }
    }
  }

  lemma FinishedLater(c: Config, g: KconfigLoop.Graph, done: seq<int>, r: int, s: int)
    requires Records(c, g) && KconfigLoop.Finished(g, done) && (forall x :: x in g ==> x in done)
    requires r in c.syms && s in c.syms && r in Deps(c.syms[s])
    ensures RankFrom(done, r) < RankFrom(done, s)
  {
    hide Deps;
    KconfigLoop.EarlierDone(g, done, r, s);
    PlaceIsIndex(done, r);
    PlaceIsIndex(done, s);
  }

  /** Symbols in a loop cannot be ranked. */
  lemma {:induction false} RanksGrow(c: Config, g: KconfigLoop.Graph, rank: map<int, nat>, loop: seq<int>, k: nat)
    requires Records(c, g) && KconfigLoop.Closed(g) && Ordered(c, rank) && k < |loop| && loop[k] in c.syms
    requires forall i :: 0 < i < |loop| ==> KconfigLoop.Edge(g, loop[i], loop[i - 1])
    ensures loop[0] in c.syms && rank.Keys == c.syms.Keys && rank[loop[0]] >= rank[loop[k]]
  {
    hide Records, Ordered, KconfigLoop.Closed;
    RanksAll(c, rank);
    if k > 0 {
      assert KconfigLoop.Edge(g, loop[k], loop[k - 1]);
      InGraph(c, g, rank, loop[k], loop[k - 1]);
      RanksGrow(c, g, rank, loop, k - 1);
    }
  }

  lemma RanksAll(c: Config, rank: map<int, nat>)
    requires Ordered(c, rank)
    ensures rank.Keys == c.syms.Keys
  {
  }

  lemma InGraph(c: Config, g: KconfigLoop.Graph, rank: map<int, nat>, r: int, s: int)
    requires Records(c, g) && KconfigLoop.Closed(g) && Ordered(c, rank) && KconfigLoop.Edge(g, r, s)
    ensures r in c.syms && s in c.syms && rank.Keys == c.syms.Keys && rank[r] < rank[s]
  {
    hide Deps;
    assert r in Sources(c.syms[s]);
  }

  /** Conversely, where there is a static order the search finds nothing and MODULES stands apart. */
  lemma OrderMeans(c: Config, g: KconfigLoop.Graph, rank: map<int, nat>)
    requires Records(c, g) && KconfigLoop.Closed(g) && Ordered(c, rank)
    ensures !KconfigLoop.HasLoop(g) && ModulesApart(c)
  {
    forall loop ensures !KconfigLoop.IsLoop(g, loop) {
      if KconfigLoop.IsLoop(g, loop) {
        var last := |loop| - 1;
        assert KconfigLoop.Edge(g, loop[0], loop[last]);
        RanksGrow(c, g, rank, loop, last);
        InGraph(c, g, rank, loop[0], loop[last]);
        assert false;
      }
    }
    if MODULES in c.syms {
      hide Deps;
      assert Shields(c, set s | s in c.syms && rank[s] <= rank[MODULES]);
    }
  }

  /** The loop check when a configuration is loaded.  Together with MODULES standing apart it says exactly
      whether there is a static order of computation, along which every value can be computed under all user
      values; without one it still says, for given user values, that all computations end exactly when
      MODULES can be computed without looking at itself. */
  method CheckLoops(c: Config, g: KconfigLoop.Graph, syms: seq<int>) returns (clean: bool)
    requires Records(c, g) && KconfigLoop.Closed(g) && forall s :: s in syms <==> s in g
    ensures clean <==> !KconfigLoop.HasLoop(g)
    ensures Rankable(c) <==> clean && ModulesApart(c)
    ensures Rankable(c) ==> forall u: Users :: Evaluable(c, u)
    ensures clean ==> forall u: Users :: Evaluable(c, u) <==> MODULES in c.syms ==> ModulesUnread(c, u)
  {
    hide *;
    var checker := new KconfigLoop.Checker(g);
    var r := checker.CheckAll(syms);
    clean := r.Clean?;
    Ranked(c, g, checker.done, clean);
    forall u: Users | Rankable(c) ensures Evaluable(c, u) { RankableEnds(c, u); }
    forall u: Users | clean ensures Evaluable(c, u) <==> MODULES in c.syms ==> ModulesUnread(c, u) {
      EndsExactly(c, g, checker.done, u);
    }
  }

  lemma Ranked(c: Config, g: KconfigLoop.Graph, done: seq<int>, clean: bool)
    requires Records(c, g) && KconfigLoop.Closed(g) && (clean <==> !KconfigLoop.HasLoop(g))
    requires clean ==> KconfigLoop.Finished(g, done) && forall s :: s in g ==> s in done
    ensures Rankable(c) <==> clean && ModulesApart(c)
  {
    hide Ordered, Records, Shields, KconfigLoop.HasLoop, KconfigLoop.Finished;
    if Rankable(c) {
      var rank :| Ordered(c, rank);
      OrderMeans(c, g, rank);
    }
    if clean && ModulesApart(c) {
      var m: set<int> := {};
      if MODULES in c.syms { m :| Shields(c, m); }
      OrderWithoutLoops(c, g, done, m);
      assert Rankable(c);
    }
  }

  /** What the search does not see: a tristate symbol among what MODULES depends on excludes a static order,
      loops in the graph or not. */
  lemma UnseenLoop(c: Config, t: int)
    requires MODULES in c.syms && t in c.syms && t in Deps(c.syms[MODULES]) && c.syms[t].typ == TristateType
    ensures !ModulesApart(c) && !Rankable(c)
  {
    hide Deps;
    forall m ensures !Shields(c, m) {}
    forall rank ensures !Ordered(c, rank) {
      assert MODULES in Sources(c.syms[t]) && t in Sources(c.syms[MODULES]);
    }
  }

  // ---------------------------------------------------------------- which computations end

  /** The computation of every value ends. */
  ghost predicate Evaluable(c: Config, u: Users) {
    forall s :: s in c.syms ==> Ends(c, u, s)
  }

  /** In m, which holds MODULES and all that is looked at from within, nothing looks at MODULES. */
  ghost predicate Unread(c: Config, u: Users, a: Assign, m: set<int>) {
    && MODULES in m
    && forall s :: s in m && s in c.syms ==> UnreadAt(c, u, a, m, s)
  }

  ghost predicate UnreadAt(c: Config, u: Users, a: Assign, m: set<int>, s: int)
    requires s in c.syms
  {
    var val := ValOf(c, c.syms[s], UserOf(u, s), a);
    && s in a && a[s] == val.v
    && MODULES !in val.used && forall r :: r in val.used && r in c.syms ==> r in m
  }

  ghost predicate ModulesUnread(c: Config, u: Users) {
    exists a, m :: Unread(c, u, a, m)
  }

  lemma TriDefaultItems(c: Config, sym: Symbol, a: Assign)
    ensures TriDefault(c, sym.defaults, a).used <= Deps(sym)
  {
    DefaultUses(c, sym.defaults, a);
    var d := FirstDefault(c, sym.defaults, a);
    if d.v.Some? { ReadsItems(c, d.v.value.0, EnvOf(c, a)); }
  }

  /** The type of a tristate symbol, and with it MODULES, is read exactly when the prompts' visibility or
      the value comes out as m. */
  lemma ReadsModules(c: Config, sym: Symbol, u: UserVal, a: Assign)
    requires MODULES !in Deps(sym)
    ensures MODULES in ValOf(c, sym, u, a).used <==>
      && sym.typ == TristateType && Logical(TypeOf(c, MODULES))
      && (PromptVis(c, sym.prompts, a).v == 1 || WithSelect(c, sym, a, Own(c, sym, u, a)).v == 1)
  {
    if sym.typ != TristateType {
      ValUses(c, sym, u, a);
    } else {
      PromptUses(c, sym.prompts, a);
      TriDefaultItems(c, sym, a);
      ReadsItems(c, sym.rev, EnvOf(c, a));
      ReadsItems(c, sym.weakRev, EnvOf(c, a));
      ReadsItems(c, sym.direct, EnvOf(c, a));
      assert MODULES in EffType(c, sym.typ, a).used <==> Logical(TypeOf(c, MODULES));
      hide Value, PromptVis, TriDefault, Look, Items, DefaultItems, AllItems, EffType, EnvOf, Reads, TypeOf, RangeItems;
    }
  }

  /** With a static order a symbol's value nests no deeper than its place in the order. */
  lemma {:induction false} OrderEnds(c: Config, u: Users, rank: map<int, nat>, n: nat, s: int)
    requires Ordered(c, rank) && s in c.syms && rank[s] < n
    ensures s in Nested(c, u, n)
  {
    hide ValOf, Sources, Nested;
    NestedAt(c, u, n, s);
    var a := Nested(c, u, n - 1);
    ValUses(c, c.syms[s], UserOf(u, s), a);
    forall r | r in ValOf(c, c.syms[s], UserOf(u, s), a).used && r in c.syms ensures r in a {
      assert rank[r] < rank[s];
      OrderEnds(c, u, rank, n - 1, r);
    }
  }

  lemma RankableEnds(c: Config, u: Users)
    requires Rankable(c)
    ensures Evaluable(c, u)
  {
    hide Nested;
    var rank :| Ordered(c, rank);
    forall s | s in c.syms ensures Ends(c, u, s) { OrderEnds(c, u, rank, rank[s] + 1, s); }
  }

  /** Who in m is computed without MODULES nests no deeper than its place in the order of finishing. */
  lemma {:induction false} UnreadEnds(c: Config, g: KconfigLoop.Graph, done: seq<int>, u: Users, a: Assign,
                                      m: set<int>, n: nat, s: int)
    requires Records(c, g) && KconfigLoop.Finished(g, done) && (forall x :: x in g ==> x in done)
    requires Unread(c, u, a, m) && s in m && s in c.syms && RankFrom(done, s) < n
    ensures s in Nested(c, u, n) && s in a && Nested(c, u, n)[s] == a[s]
  {
    hide *;
    UnreadIs(c, u, a, m, s);
    var b, used := Nested(c, u, n - 1), ValOf(c, c.syms[s], UserOf(u, s), a).used;
    forall r | r in used && r in c.syms ensures r in a && r in b && b[r] == a[r] {
      UnreadIs(c, u, a, m, r);
      FinishedLater(c, g, done, r, s);
      UnreadEnds(c, g, done, u, a, m, n - 1, r);
    }
    SameNext(c, u, a, b, s);
    NestedAt(c, u, n, s);
  }

  lemma UnreadIs(c: Config, u: Users, a: Assign, m: set<int>, s: int)
    requires Unread(c, u, a, m) && s in m && s in c.syms
    ensures var val := ValOf(c, c.syms[s], UserOf(u, s), a);
      && s in a && a[s] == val.v
      && forall r :: r in val.used && r in c.syms ==> r in m && r in Deps(c.syms[s])
    ensures forall r :: r in m && r in c.syms ==> r in a
    ensures Ready(c, u, a, s)
  {
    hide ValOf, Deps;
    assert forall r :: r in m && r in c.syms ==> UnreadAt(c, u, a, m, r);
    ValUses(c, c.syms[s], UserOf(u, s), a);
  }

  /** Once MODULES is computed the others follow in the order of finishing. */
  lemma {:induction false} OthersEnd(c: Config, g: KconfigLoop.Graph, done: seq<int>, u: Users, n: nat, k: nat, s: int)
    requires Records(c, g) && KconfigLoop.Finished(g, done) && (forall x :: x in g ==> x in done)
    requires MODULES in c.syms ==> MODULES in Nested(c, u, n)
    requires s in c.syms && RankFrom(done, s) < k
    ensures s in Nested(c, u, n + k)
  {
    hide ValOf, Deps, RankFrom, Records, Nested, KconfigLoop.Finished;
    var a := Nested(c, u, n + k - 1);
    ValUses(c, c.syms[s], UserOf(u, s), a);
    forall r | r in ValOf(c, c.syms[s], UserOf(u, s), a).used && r in c.syms ensures r in a {
      if r in Deps(c.syms[s]) {
        FinishedLater(c, g, done, r, s);
        OthersEnd(c, g, done, u, n, k - 1, r);
      } else {
        NestedMore(c, u, n, k - 1, r);
      }
    }
    NestedAt(c, u, n + k, s);
  }

  /** When MODULES has a value, it was reached without looking at MODULES. */
  lemma {:induction false} EndsUnread(c: Config, u: Users, n: nat)
    requires MODULES in Nested(c, u, n)
    ensures ModulesUnread(c, u)
  {
    hide ValOf, Nested;
    NestedAt(c, u, n, MODULES);
    if MODULES in Nested(c, u, n - 1) {
      EndsUnread(c, u, n - 1);
    } else {
      var a, before := Nested(c, u, n), Nested(c, u, n - 1);
      var m := before.Keys + {MODULES};
      forall s | s in m && s in c.syms ensures UnreadAt(c, u, a, m, s) {
        if s in before { NestedGrows(c, u, n - 1, s); }
        NestedLooks(c, u, n - 1, s);
      }
      assert Unread(c, u, a, m);
    }
  }

  /** For a configuration without loops in the recorded graph: the computation of every value ends exactly
      when MODULES can be computed from symbols that do not look at MODULES. */
  lemma EndsExactly(c: Config, g: KconfigLoop.Graph, done: seq<int>, u: Users)
    requires Records(c, g) && KconfigLoop.Finished(g, done) && (forall s :: s in g ==> s in done)
    ensures Evaluable(c, u) <==> MODULES in c.syms ==> ModulesUnread(c, u)
  {
    hide Nested, Records, RankFrom, KconfigLoop.Finished, Unread;
    if Evaluable(c, u) && MODULES in c.syms {
      assert Ends(c, u, MODULES);
      var n: nat :| MODULES in Nested(c, u, n);
      EndsUnread(c, u, n);
    }
    if MODULES in c.syms ==> ModulesUnread(c, u) {
      var n := 0;
      if MODULES in c.syms {
        var a, m :| Unread(c, u, a, m);
        n := RankFrom(done, MODULES) + 1;
        assert MODULES in m by { UnreadHolds(c, u, a, m); }
        UnreadEnds(c, g, done, u, a, m, n, MODULES);
      }
      forall s | s in c.syms ensures Ends(c, u, s) { OthersEnd(c, g, done, u, n, RankFrom(done, s) + 1, s); }
    }
  }

  lemma UnreadHolds(c: Config, u: Users, a: Assign, m: set<int>)
    requires Unread(c, u, a, m)
    ensures MODULES in m
  {
  }

  /** Two symbols that always look at each other have no value. */
  lemma {:induction false} NeverEnds(c: Config, u: Users, s: int, t: int, n: nat)
    requires s in c.syms && t in c.syms
    requires forall a: Assign :: t in ValOf(c, c.syms[s], UserOf(u, s), a).used
    requires forall a: Assign :: s in ValOf(c, c.syms[t], UserOf(u, t), a).used
    ensures s !in Nested(c, u, n) && t !in Nested(c, u, n)
  {
    hide ValOf, Nested;
    NestedAt(c, u, n, s);
    NestedAt(c, u, n, t);
    if n > 0 { NeverEnds(c, u, s, t, n - 1); }
  }

  /** `config MODULES` and `config T`, a tristate with a prompt that selects MODULES; symbol 0 is m, with
      which conditions that always or never hold are written. */
  ghost predicate TSelectsModules(c: Config) {
    var always, never := Compare(Equal, 0, 0), Compare(Unequal, 0, 0);
    && c.syms == map[MODULES := Symbol(BoolType, "MODULES", [], [], [], Sym(2), never, always),
                     2 := Symbol(TristateType, "T", [always], [], [], never, never, always)]
    && 0 in c.consts && c.consts[0] == Tri(1)
  }

  ghost predicate TLooks(c: Config, u: Users, a: Assign)
    requires TSelectsModules(c)
  {
    && Deps(c.syms[MODULES]) == {0, 2} && Deps(c.syms[2]) == {0}
    && (var used := ValOf(c, c.syms[MODULES], UserOf(u, MODULES), a).used; 2 in used && MODULES !in used)
    && (MODULES in ValOf(c, c.syms[2], UserOf(u, 2), a).used <==> UserOf(u, 2) == UserTri(1))
  }

  lemma TAndModules(c: Config, u: Users, a: Assign)
    requires TSelectsModules(c)
    ensures TLooks(c, u, a)
  {
    TAlone(c, UserOf(u, 2), a);
    ModulesAlone(c, UserOf(u, MODULES), a);
    hide ValOf, Deps;
  }

  lemma AlwaysHolds(c: Config, a: Assign)
    requires 0 !in c.syms && 0 in c.consts && c.consts[0] == Tri(1)
    ensures Ev(c, Compare(Equal, 0, 0), a) == Seen(2, {0}) && Ev(c, Compare(Unequal, 0, 0), a) == Seen(0, {0})
  {
    assert Comp(c, TypeOf(c, 0), Look(c, a, 0), TypeOf(c, 0), Look(c, a, 0)) == 0;
    assert EnvOf(c, a).holds(Equal, 0, 0) && !EnvOf(c, a).holds(Unequal, 0, 0);
  }

  lemma TAlone(c: Config, u: UserVal, a: Assign)
    requires TSelectsModules(c)
    ensures Deps(c.syms[2]) == {0} && (MODULES in ValOf(c, c.syms[2], u, a).used <==> u == UserTri(1))
  {
    var t := c.syms[2];
    AlwaysHolds(c, a);
    assert PromptVis(c, t.prompts, a).v == 2;
    assert Own(c, t, u, a).v == if u.UserTri? then Min(u.v, 2) else 0;
    ReadsModules(c, t, u, a);
    hide Own, ValOf;
  }

  lemma ModulesAlone(c: Config, u: UserVal, a: Assign)
    requires TSelectsModules(c)
    ensures Deps(c.syms[MODULES]) == {0, 2}
    ensures var used := ValOf(c, c.syms[MODULES], u, a).used; 2 in used && MODULES !in used
  {
    AlwaysHolds(c, a);
    assert Deps(c.syms[MODULES]) == {0, 2};
    ValUses(c, c.syms[MODULES], u, a);
    hide Deps, Own, EffType;
  }

  lemma NoneLook(c: Config, u: Users)
    requires TSelectsModules(c) && UserOf(u, 2) != UserTri(1)
    ensures ModulesUnread(c, u)
  {
    hide ValOf, Deps;
    var none: Assign := map[];
    var t := ValOf(c, c.syms[2], UserOf(u, 2), none);
    var one: Assign := map[2 := t.v];
    var a := one[MODULES := ValOf(c, c.syms[MODULES], UserOf(u, MODULES), one).v];
    forall b ensures TLooks(c, u, b) { TAndModules(c, u, b); }
    ValUses(c, c.syms[2], UserOf(u, 2), none);
    ValUses(c, c.syms[MODULES], UserOf(u, MODULES), one);
    assert TLooks(c, u, none) && TLooks(c, u, one) && TLooks(c, u, a);
    ValAgrees(c, c.syms[2], UserOf(u, 2), none, a);
    ValAgrees(c, c.syms[MODULES], UserOf(u, MODULES), one, a);
    assert UnreadAt(c, u, a, {MODULES, 2}, MODULES);
    assert UnreadAt(c, u, a, {MODULES, 2}, 2);
    assert Unread(c, u, a, {MODULES, 2});
  }

  lemma TGraph(c: Config, g: KconfigLoop.Graph)
    requires TSelectsModules(c) && g == map[MODULES := [], 2 := [MODULES]]
    ensures Records(c, g) && KconfigLoop.Finished(g, [MODULES, 2]) && !Rankable(c)
  {
    var done := [MODULES, 2];
    TAndModules(c, map[], map[]);
    hide ValOf, Deps;
    assert KconfigLoop.Before(g, done, 0) && KconfigLoop.Before(g, done, 1);
    UnseenLoop(c, 2);
  }

  /** The smallest configuration in which that happens: when the user sets T to m, the computations of T and
      MODULES look at each other and never end; otherwise all computations end. */
  lemma UnseenLoopExists(c: Config, u: Users)
    requires TSelectsModules(c)
    ensures var g: KconfigLoop.Graph := map[MODULES := [], 2 := [MODULES]];
      Records(c, g) && !KconfigLoop.HasLoop(g) && !Rankable(c)
    ensures forall a :: TLooks(c, u, a)
    ensures Evaluable(c, u) <==> UserOf(u, 2) != UserTri(1)
  {
    var g: KconfigLoop.Graph := map[MODULES := [], 2 := [MODULES]];
    TGraph(c, g);
    hide Records, Rankable, KconfigLoop.Finished, KconfigLoop.HasLoop, ValOf, Deps, Nested, Ends;
    KconfigLoop.AllFinished(g, [MODULES, 2]);
    forall a ensures TLooks(c, u, a) { TAndModules(c, u, a); }
    if UserOf(u, 2) == UserTri(1) {
      TRecurses(c, u);
    } else {
      NoneLook(c, u);
      EndsExactly(c, g, [MODULES, 2], u);
    }
  }

  lemma TRecurses(c: Config, u: Users)
    requires TSelectsModules(c) && UserOf(u, 2) == UserTri(1)
    requires forall a :: TLooks(c, u, a)
    ensures !Evaluable(c, u)
  {
    hide ValOf, Deps, Nested;
    forall a ensures MODULES in ValOf(c, c.syms[2], UserOf(u, 2), a).used { assert TLooks(c, u, a); }
    forall a ensures 2 in ValOf(c, c.syms[MODULES], UserOf(u, MODULES), a).used { assert TLooks(c, u, a); }
    forall n: nat ensures MODULES !in Nested(c, u, n) { NeverEnds(c, u, MODULES, 2, n); }
    assert !Ends(c, u, MODULES);
  }
}

module KconfigCache {
  import opened KconfigExpr
  import opened KconfigModel
  import opened Wrappers

  lemma HeldGrows(c: Config, k: Cache, k': Cache, used: set<int>)
    requires AllHeld(c, k, used)
    requires k.vis.Keys <= k'.vis.Keys && k.tri.Keys <= k'.tri.Keys && k.str.Keys <= k'.str.Keys
    ensures AllHeld(c, k', used)
  {
    forall r | r in used ensures Held(c, k', r) { assert Held(c, k, r); }
  }

  /** The symbols of a Kconfig object, with their _dependents, user values and caches. */
  class Kconfig {
    const c: Config
    var dependents: map<int, set<int>>
    var users: Users
    var vis: map<int, nat>
    var tri: map<int, nat>
    var str: map<int, string>

    ghost function K(): Cache
      reads this`vis, this`tri, this`str
    {
      Cache(vis, tri, str)
    }

    /** The values that would be computed from scratch */
    ghost function A(): Assign
      reads this`users
    {
      All(c, users)
    }

    /** The _dependents of a symbol are the symbols that depend on it. */
    ghost predicate DependentsOk()
      reads this`dependents
    {
      && dependents.Keys == c.syms.Keys
      && (forall s :: s in dependents ==> dependents[s] <= c.syms.Keys)
      && forall s, y :: s in c.syms && y in c.syms ==> (y in dependents[s] <==> s in Deps(c.syms[y]))
    }

    /** The cache is right. */
    ghost predicate Valid()
      reads this`users, this`vis, this`tri, this`str, this`dependents
    {
      Right(c, users, K()) && DependentsOk()
    }

    /** The symbols in `used` have values whose computation nests at most n deep. */
    ghost predicate Reach(used: set<int>, n: nat)
      reads this`users
    {
      Within(c, Nested(c, users, n), used)
    }

    /** The cache has only been added to. */
    twostate predicate Grew()
      reads this`vis, this`tri, this`str
    {
      old(vis).Keys <= vis.Keys && old(tri).Keys <= tri.Keys && old(str).Keys <= str.Keys
    }

    /** A configuration read from Kconfig files: nothing cached, no user values, dependents recorded */
    constructor (c: Config)
      ensures this.c == c && Valid() && users == map[] && K() == Cache(map[], map[], map[])
    {
      this.c := c;
      dependents, users, vis, tri, str := map s | s in c.syms :: {}, map[], map[], map[], map[];
      new;
      hide DependentsOk, Right;
      EmptyRight(c);
      BuildDep();
    }

    // -------------------------------------------------------------- dependencies

    /** sc has been added to the _dependents of these symbols; all others are as they were. */
    twostate predicate Recorded(sc: int, items: set<int>)
      reads this`dependents
    {
      && dependents.Keys == old(dependents).Keys
      && forall s :: s in dependents ==> dependents[s] == old(dependents)[s] + if s in items then {sc} else {}
    }

    /** _make_depend_on; constant symbols are skipped, and so are undefined ones, which never change either */
    method MakeDependOn(sc: int, e: Expr)
      modifies this`dependents
      ensures Recorded(sc, Items(e))
      decreases e
    {
      match e {
        case Sym(s) => AddDependent(s, sc);
        case And(x, y) => MakeDependOn(sc, x); MakeDependOn(sc, y);
        case Or(x, y) => MakeDependOn(sc, x); MakeDependOn(sc, y);
        case Not(x) => MakeDependOn(sc, x);
        case Compare(_, l, r) => AddDependent(l, sc); AddDependent(r, sc);
      }
    }

    method AddDependent(s: int, sc: int)
      modifies this`dependents
      ensures Recorded(sc, {s})
    {
      if s in dependents {
        dependents := dependents[s := dependents[s] + {sc}];
      }
    }

    /** The dependencies of one symbol */
    method RecordSymbol(sc: int)
      requires sc in c.syms
      modifies this`dependents
      ensures Recorded(sc, Deps(c.syms[sc]))
    {
      hide Items;
      var sym := c.syms[sc];
      RecordPrompts(sc, sym.prompts);
      RecordDefaults(sc, sym.defaults);
      MakeDependOn(sc, sym.rev);
      MakeDependOn(sc, sym.weakRev);
      RecordRanges(sc, sym.ranges);
      MakeDependOn(sc, sym.direct);
    }

    method RecordPrompts(sc: int, prompts: seq<Expr>)
      modifies this`dependents
      ensures Recorded(sc, AllItems(prompts))
    {
      hide Items;
      var i := 0;
      while i < |prompts|
        invariant 0 <= i <= |prompts| && Recorded(sc, AllItems(prompts[..i]))
      {
        MakeDependOn(sc, prompts[i]);
        assert prompts[..i + 1][..i] == prompts[..i];
        i := i + 1;
      }
      assert prompts[..i] == prompts;
    }

    method RecordDefaults(sc: int, defaults: seq<Default>)
      modifies this`dependents
      ensures Recorded(sc, DefaultItems(defaults))
      decreases |defaults|
    {
      hide Items;
      if defaults != [] {
        MakeDependOn(sc, defaults[0].value);
        MakeDependOn(sc, defaults[0].cond);
        RecordDefaults(sc, defaults[1..]);
      }
    }

    method RecordRanges(sc: int, ranges: seq<Range>)
      modifies this`dependents
      ensures Recorded(sc, RangeItems(ranges))
      decreases |ranges|
    {
      hide Items;
      if ranges != [] {
        AddDependent(ranges[0].low, sc);
        AddDependent(ranges[0].high, sc);
        MakeDependOn(sc, ranges[0].cond);
        RecordRanges(sc, ranges[1..]);
      }
    }

    /** _build_dep */
    method BuildDep()
      requires dependents == map s | s in c.syms :: {}
      modifies this`dependents
      ensures DependentsOk()
    {
      hide Deps;
      var todo := c.syms.Keys;
      while todo != {}
        invariant todo <= c.syms.Keys == dependents.Keys
        invariant forall s :: s in dependents ==> dependents[s] <= c.syms.Keys
        invariant forall y, s :: y in c.syms && s in dependents ==> (y in dependents[s] <==> y !in todo && s in Deps(c.syms[y]))
      {
        Someone(todo);
        var sc :| sc in todo;
        RecordSymbol(sc);
        todo := todo - {sc};
      }
    }

    // -------------------------------------------------------------- invalidation

    /** Symbol._invalidate */
    method Invalidate(s: int)
      modifies this`vis, this`tri, this`str
      ensures vis == old(vis) - {s} && tri == old(tri) - {s} && str == old(str) - {s}
    {
      vis, tri, str := vis - {s}, tri - {s}, str - {s};
    }

    /** _invalidate_all */
    method InvalidateAll()
      requires vis.Keys <= c.syms.Keys && tri.Keys <= c.syms.Keys && str.Keys <= c.syms.Keys
      modifies this`vis, this`tri, this`str
      ensures vis.Keys == {} && tri.Keys == {} && str.Keys == {}
    {
      var todo := c.syms.Keys;
      while todo != {}
        invariant vis.Keys <= todo && tri.Keys <= todo && str.Keys <= todo
      {
        Someone(todo);
        var s :| s in todo;
        Invalidate(s);
        todo := todo - {s};
      }
    }

    /** _rec_invalidate: stops at symbols without a cached visibility. */
    method RecInvalidate(x: int)
      requires DependentsOk() && x in c.syms
      requires vis.Keys <= c.syms.Keys && tri.Keys <= c.syms.Keys && str.Keys <= c.syms.Keys
      modifies this`vis, this`tri, this`str
      ensures Invalidated(c, old(K()), K(), x) && OnlyBelow(c, old(K()), K(), x)
      decreases vis.Keys + {x}
    {
      hide Deps, Kept, Dropped, NoneAbove, Downstream;
      ghost var k0 := K();
      if x == MODULES {
        InvalidateAll();
        NothingLeft(c, k0, K(), x);
        HereBelow(c, x);
        return;
      }
      Invalidate(x);
      ghost var k1 := K();
      Begin(c, k0, k1, x);
      BeginBelow(c, k0, k1, x);
      var todo := dependents[x];
      while todo != {}
        invariant todo <= dependents[x]
        invariant Underway(c, k0, K(), x, dependents[x] - todo) && OnlyBelow(c, k0, K(), x)
        invariant vis.Keys <= k1.vis.Keys && tri.Keys <= k1.tri.Keys && str.Keys <= k1.str.Keys
      {
        Someone(todo);
        var item :| item in todo;
        if item in vis {
          ghost var k := K();
          assert item in vis.Keys && x !in vis.Keys && vis.Keys <= k0.vis.Keys;
          assert vis.Keys + {item} == vis.Keys;
          RecInvalidate(item);
          KeysShrink(c, k, K(), item);
          Further(c, k0, k, K(), x, dependents[x] - todo, item);
          FurtherBelow(c, k0, k, K(), x, item);
        }
        assert dependents[x] - (todo - {item}) == dependents[x] - todo + {item};
        todo := todo - {item};
      }
      Done(c, k0, K(), x, dependents[x]);
    }

    /** _rec_invalidate_if_has_prompt */
    method RecInvalidateIfHasPrompt(s: int)
      requires DependentsOk() && s in c.syms
      requires vis.Keys <= c.syms.Keys && tri.Keys <= c.syms.Keys && str.Keys <= c.syms.Keys
      modifies this`vis, this`tri, this`str
      ensures if c.syms[s].prompts != [] then Invalidated(c, old(K()), K(), s) else K() == old(K())
    {
      if c.syms[s].prompts != [] {
        RecInvalidate(s);
      }
    }

    /** set_value: whatever stays in the cache is right for the new user value. */
    method SetValue(s: int, v: UserVal) returns (ok: bool)
      requires Valid() && s in c.syms
      modifies this`users, this`vis, this`tri, this`str
      ensures Valid() && (users, ok) == AfterSet(c, old(users), s, v)
    {
      hide Right, DependentsOk;
      ghost var u, k := users, K();
      if v == UserOf(users, s) {
        return true;
      }
      if !Accepted(c, c.syms[s].typ, v) {
        return false;
      }
      users := users[s := Stored(c.syms[s].typ, v)];
      KeysIn(c, u, k);
      RecInvalidateIfHasPrompt(s);
      StillRight(c, u, users, k, K(), s);
      ok := true;
    }

    /** unset_value */
    method UnsetValue(s: int)
      requires Valid() && s in c.syms
      modifies this`users, this`vis, this`tri, this`str
      ensures Valid() && users == if UserOf(old(users), s) != NoUser then old(users)[s := NoUser] else old(users)
    {
      hide Right, DependentsOk;
      ghost var u, k := users, K();
      if UserOf(users, s) != NoUser {
        users := users[s := NoUser];
        KeysIn(c, u, k);
        RecInvalidateIfHasPrompt(s);
        StillRight(c, u, users, k, K(), s);
      }
    }

    // -------------------------------------------------------------- evaluating

    /** expr_value */
    method ExprValue(e: Expr, ghost n: nat) returns (v: nat)
      requires Valid() && Reach(Ev(c, e, A()).used, n)
      modifies this`vis, this`tri, this`str
      ensures Valid() && Grew() && v == Ev(c, e, A()).v && AllHeld(c, K(), Ev(c, e, A()).used)
      decreases n, 6, e, 1
    {
      hide Right, DependentsOk, Look, Nested, All, ValOf;
      match e {
        case Sym(s) =>
          v := SymValue(s, n);
        case And(x, y) => v := AndValue(x, y, n);
        case Or(x, y) => v := OrValue(x, y, n);
        case Not(x) =>
          var v1 := ExprValue(x, n);
          v := Negated(v1);
        case Compare(op, l, r) =>
          v := CompareValue(op, l, r, n);
      }
    }

    method AndValue(x: Expr, y: Expr, ghost n: nat) returns (v: nat)
      requires Valid() && Reach(Ev(c, And(x, y), A()).used, n)
      modifies this`vis, this`tri, this`str
      ensures Valid() && Grew() && v == Ev(c, And(x, y), A()).v && AllHeld(c, K(), Ev(c, And(x, y), A()).used)
      decreases n, 6, And(x, y), 0
    {
      hide Right, DependentsOk, Look, Nested, All, ValOf, AllHeld;
      v := ExprValue(x, n);
      if v != 0 {
        ghost var k1 := K();
        var v2 := ExprValue(y, n);
        HeldGrows(c, k1, K(), Ev(c, x, A()).used);
        HeldUnion(c, K(), Ev(c, x, A()).used, Ev(c, y, A()).used);
        v := Min(v, v2);
      }
    }

    method OrValue(x: Expr, y: Expr, ghost n: nat) returns (v: nat)
      requires Valid() && Reach(Ev(c, Or(x, y), A()).used, n)
      modifies this`vis, this`tri, this`str
      ensures Valid() && Grew() && v == Ev(c, Or(x, y), A()).v && AllHeld(c, K(), Ev(c, Or(x, y), A()).used)
      decreases n, 6, Or(x, y), 0
    {
      hide Right, DependentsOk, Look, Nested, All, ValOf, AllHeld;
      v := ExprValue(x, n);
      if v != 2 {
        ghost var k1 := K();
        var v2 := ExprValue(y, n);
        HeldGrows(c, k1, K(), Ev(c, x, A()).used);
        HeldUnion(c, K(), Ev(c, x, A()).used, Ev(c, y, A()).used);
        v := Max(v, v2);
      }
    }

    /** The tri_value of a symbol in an expression */
    method SymValue(s: int, ghost n: nat) returns (v: nat)
      requires Valid() && Reach(Ev(c, Sym(s), A()).used, n)
      modifies this`vis, this`tri, this`str
      ensures Valid() && Grew() && v == Ev(c, Sym(s), A()).v && AllHeld(c, K(), Ev(c, Sym(s), A()).used)
      decreases n, 1
    {
      hide Right, DependentsOk, Look, ValOf, Final;
      if s in c.syms {
        v := TriValue(s, n);
      } else {
        v := if Logical(TypeOf(c, s)) then TriOf(Look(c, map[], s)) else 0;
        OtherLook(c, A(), map[], s);
      }
    }

    /** The comparisons of expr_value */
    method CompareValue(op: Relation, l: int, r: int, ghost n: nat) returns (v: nat)
      requires Valid() && Reach({l, r}, n)
      modifies this`vis, this`tri, this`str
      ensures Valid() && Grew() && AllHeld(c, K(), {l, r})
      ensures v == Ev(c, Compare(op, l, r), A()).v
      decreases n, 5
    {
      hide Right, DependentsOk, Look, Nested, All, ValOf, StrOf, Number, Ev;
      EvCompare(c, op, l, r, A());
      var comp: int;
      if TypeOf(c, l) == StringType && TypeOf(c, r) == StringType {
        comp := CompareText(l, r, n);
      } else {
        comp := CompareNumbers(l, r, n);
      }
      assert comp == Comp(c, TypeOf(c, l), Look(c, A(), l), TypeOf(c, r), Look(c, A(), r));
      hide Comp;
      v := if Satisfies(op, comp) then 2 else 0;
    }

    /** Comparing as numbers, or as strings when there is an exception */
    method CompareNumbers(l: int, r: int, ghost n: nat) returns (comp: int)
      requires Valid() && Reach({l, r}, n)
      requires !(TypeOf(c, l) == StringType && TypeOf(c, r) == StringType)
      modifies this`vis, this`tri, this`str
      ensures Valid() && Grew() && Held(c, K(), l) && Held(c, K(), r)
      ensures comp == Comp(c, TypeOf(c, l), Look(c, A(), l), TypeOf(c, r), Look(c, A(), r))
      decreases n, 4
    {
      hide Right, DependentsOk, Look, Nested, All, ValOf, StrOf, Number;
      var x := SymToNum(l, n);
      if x.Some? {
        var y := SymToNum(r, n);
        if y.Some? {
          return x.value - y.value;
        }
      }
      comp := CompareText(l, r, n);
    }

    method CompareText(l: int, r: int, ghost n: nat) returns (comp: int)
      requires Valid() && Reach({l, r}, n)
      modifies this`vis, this`tri, this`str
      ensures Valid() && Grew() && Held(c, K(), l) && Held(c, K(), r)
      ensures comp == StrCmp(c, StrOf(Look(c, A(), l)), StrOf(Look(c, A(), r)))
      decreases n, 3
    {
      hide Right, DependentsOk, Look, Nested, All, ValOf, StrOf;
      var x := TextOf(l, n);
      var y := TextOf(r, n);
      comp := StrCmp(c, x, y);
    }

    /** The str_value of a symbol */
    method TextOf(s: int, ghost n: nat) returns (v: string)
      requires Valid() && Reach({s}, n)
      modifies this`vis, this`tri, this`str
      ensures Valid() && Grew() && Held(c, K(), s) && v == StrOf(Look(c, A(), s))
      decreases n, 2
    {
      hide Right, DependentsOk, Look, Nested, All, ValOf;
      if s in c.syms {
        v := StrValue(s, n);
      } else {
        v := StrOf(Look(c, map[], s));
        OtherLook(c, A(), map[], s);
      }
    }

    /** _sym_to_num, or nothing where it raises an exception */
    method SymToNum(s: int, ghost n: nat) returns (v: Option<int>)
      requires Valid() && Reach({s}, n)
      modifies this`vis, this`tri, this`str
      ensures Valid() && Grew() && Held(c, K(), s) && v == Number(c, TypeOf(c, s), Look(c, A(), s))
      decreases n, 3
    {
      hide Right, DependentsOk, Look, Nested, All, ValOf;
      if Logical(TypeOf(c, s)) {
        var t := SymValue(s, n);
        v := Some(t);
      } else {
        var t := TextOf(s, n);
        v := c.strings.num(t, Base(TypeOf(c, s)));
      }
    }

    // -------------------------------------------------------------- visibility and type

    /** visibility */
    method Visibility(s: int, ghost n: nat) returns (v: nat)
      requires Valid() && s in c.syms && Reach(Vis(c, c.syms[s], A()).used, n)
      modifies this`vis, this`tri, this`str
      ensures Valid() && Grew() && s in vis && v == Vis(c, c.syms[s], A()).v && AllHeld(c, K(), Vis(c, c.syms[s], A()).used)
      decreases n, 15
    {
      hide Right, DependentsOk, Look, Nested, All, ValOf, AllHeld, PromptVis, EffType;
      if s in vis {
        CachedVis(c, users, K(), s);
        return vis[s];
      }
      var prompts := c.syms[s].prompts;
      v := PromptValue(s, n);
      if v == 1 {
        ghost var k1 := K();
        var t := TypeValue(s, n);
        HeldGrows(c, k1, K(), PromptVis(c, prompts, A()).used);
        HeldUnion(c, K(), PromptVis(c, prompts, A()).used, EffType(c, c.syms[s].typ, A()).used);
        if t != TristateType {
          v := 2;
        }
      }
      AddVis(c, users, K(), s, v);
      vis := vis[s := v];
    }

    /** The loop of _visibility */
    method PromptValue(s: int, ghost n: nat) returns (v: nat)
      requires Valid() && s in c.syms && Reach(PromptVis(c, c.syms[s].prompts, A()).used, n)
      modifies this`vis, this`tri, this`str
      ensures Valid() && Grew()
      ensures v == PromptVis(c, c.syms[s].prompts, A()).v && AllHeld(c, K(), PromptVis(c, c.syms[s].prompts, A()).used)
      decreases n, 14
    {
      hide Right, DependentsOk, Look, Nested, All, ValOf, Ev;
      var prompts := c.syms[s].prompts;
      v := 0;
      var i := 0;
      while i < |prompts|
        invariant 0 <= i <= |prompts| && Valid() && Grew()
        invariant v == PromptVis(c, prompts[..i], A()).v && AllHeld(c, K(), PromptVis(c, prompts[..i], A()).used)
      {
        ghost var k1 := K();
        PromptPart(c, prompts, i, A());
        var x := ExprValue(prompts[i], n);
        assert prompts[..i + 1][..i] == prompts[..i];
        HeldGrows(c, k1, K(), PromptVis(c, prompts[..i], A()).used);
        HeldUnion(c, K(), PromptVis(c, prompts[..i], A()).used, Ev(c, prompts[i], A()).used);
        v := Max(v, x);
        i := i + 1;
      }
      assert prompts[..i] == prompts;
    }

    /** type */
    method TypeValue(s: int, ghost n: nat) returns (t: Type)
      requires Valid() && s in c.syms && Reach(EffType(c, c.syms[s].typ, A()).used, n)
      modifies this`vis, this`tri, this`str
      ensures Valid() && Grew()
      ensures t == EffType(c, c.syms[s].typ, A()).v && AllHeld(c, K(), EffType(c, c.syms[s].typ, A()).used)
      decreases n, 14
    {
      hide Right, DependentsOk, Look, Nested, All, ValOf;
      t := c.syms[s].typ;
      if t == TristateType {
        var m := SymValue(MODULES, n);
        if m == 0 {
          t := BoolType;
        }
      }
    }

    // -------------------------------------------------------------- str_value

    /** str_value, whose computation nests at most n deep */
    method StrValue(s: int, ghost n: nat) returns (v: string)
      requires Valid() && s in Nested(c, users, n)
      modifies this`vis, this`tri, this`str
      ensures Valid() && Grew() && v == StrOf(Look(c, A(), s)) && Held(c, K(), s)
      decreases n, 1
    {
      hide Right, DependentsOk, Look, Nested, All, ValOf, Vis;
      if s in str {
        CachedStr(c, users, K(), n, s);
        return str[s];
      }
      FinalIs(c, users, n, s);
      FinalKind(c, users, n, s);
      if Logical(c.syms[s].typ) {
        var t := TriValue(s, n);
        v := StrOf(Tri(t));
        AddStr(c, users, K(), s, v);
      } else if c.syms[s].typ == UnknownType {
        v := c.syms[s].name;
        AddStr(c, users, K(), s, v);
      } else {
        v := TextComputed(s, n - 1);
        AddText(c, users, K(), s, v);
      }
      str := str[s := v];
    }

    /** The computation in str_value */
    method TextComputed(s: int, ghost n: nat) returns (v: string)
      requires Valid() && s in c.syms && !Logical(c.syms[s].typ) && c.syms[s].typ != UnknownType
      requires Reach(ValOf(c, c.syms[s], UserOf(users, s), A()).used, n)
      modifies this`vis, this`tri, this`str
      ensures Valid() && Grew() && s in vis
      ensures var x := ValOf(c, c.syms[s], UserOf(users, s), A()); x.v == Text(v) && AllHeld(c, K(), x.used)
      decreases n, 18
    {
      hide Right, DependentsOk, Look, Nested, All, NumVal, StringVal, Vis;
      if c.syms[s].typ == StringType {
        v := StringValue(s, n);
      } else {
        v := NumValue(s, n);
      }
    }

    method StringValue(s: int, ghost n: nat) returns (v: string)
      requires Valid() && s in c.syms && Reach(StringVal(c, c.syms[s], UserOf(users, s), A()).used, n)
      modifies this`vis, this`tri, this`str
      ensures Valid() && Grew() && s in vis
      ensures var x := StringVal(c, c.syms[s], UserOf(users, s), A()); v == x.v && AllHeld(c, K(), x.used)
      decreases n, 17
    {
      hide Right, DependentsOk, Look, Nested, All, AllHeld, Vis, TextDefault;
      var seen := Visibility(s, n);
      if seen != 0 && UserOf(users, s).UserText? {
        v := UserOf(users, s).s;
      } else {
        ghost var k1 := K();
        var d := DefaultText(s, n);
        HeldGrows(c, k1, K(), Vis(c, c.syms[s], A()).used);
        HeldUnion(c, K(), Vis(c, c.syms[s], A()).used, TextDefault(c, c.syms[s].defaults, A()).used);
        v := if d.Some? then d.value else "";
      }
    }

    method NumValue(s: int, ghost n: nat) returns (v: string)
      requires Valid() && s in c.syms && Reach(NumVal(c, c.syms[s], UserOf(users, s), A()).used, n)
      modifies this`vis, this`tri, this`str
      ensures Valid() && Grew() && s in vis
      ensures var x := NumVal(c, c.syms[s], UserOf(users, s), A()); v == x.v && AllHeld(c, K(), x.used)
      decreases n, 17
    {
      hide Right, DependentsOk, Look, Nested, All, AllHeld, Vis, TextDefault, ActiveRange, Clamped, NumOr0, InRange;
      var typ := c.syms[s].typ;
      var seen := Visibility(s, n);
      ghost var k1, used := K(), Vis(c, c.syms[s], A()).used;
      var range := RangeValue(s, n);
      ghost var ranged := ActiveRange(c, c.syms[s].ranges, Base(typ), A()).used;
      HeldGrows(c, k1, K(), used);
      HeldUnion(c, K(), used, ranged);
      var u := UserOf(users, s);
      if seen != 0 && u.UserText? && u.s != "" && InRange(range, NumOr0(c, u.s, Base(typ))) {
        v := u.s;
      } else {
        ghost var k2 := K();
        var d := DefaultText(s, n);
        HeldGrows(c, k2, K(), used + ranged);
        HeldUnion(c, K(), used + ranged, TextDefault(c, c.syms[s].defaults, A()).used);
        v := if d.Some? then d.value else "";
        var num := if d.Some? then NumOr0(c, v, Base(typ)) else 0;
        v := Clamped(c, typ, v, num, range);
      }
    }

    /** The string value of the default in effect */
    method DefaultText(s: int, ghost n: nat) returns (v: Option<string>)
      requires Valid() && s in c.syms && Reach(TextDefault(c, c.syms[s].defaults, A()).used, n)
      modifies this`vis, this`tri, this`str
      ensures Valid() && Grew()
      ensures var x := TextDefault(c, c.syms[s].defaults, A()); v == x.v && AllHeld(c, K(), x.used)
      decreases n, 14
    {
      hide Right, DependentsOk, Look, Nested, All, Ev, FirstDefault, AllHeld;
      var defaults := c.syms[s].defaults;
      v := None;
      var i, cond := FindDefault(s, n);
      if i < |defaults| && defaults[i].value.Sym? {
        ghost var k1 := K();
        var t := TextOf(defaults[i].value.sym, n);
        HeldOne(c, K(), defaults[i].value.sym);
        HeldGrows(c, k1, K(), FirstDefault(c, defaults, A()).used);
        HeldUnion(c, K(), FirstDefault(c, defaults, A()).used, {defaults[i].value.sym});
        v := Some(t);
      }
    }

    /** The loop over the ranges */
    method RangeValue(s: int, ghost n: nat) returns (v: Option<(int, int)>)
      requires Valid() && s in c.syms
      requires Reach(ActiveRange(c, c.syms[s].ranges, Base(c.syms[s].typ), A()).used, n)
      modifies this`vis, this`tri, this`str
      ensures Valid() && Grew()
      ensures var x := ActiveRange(c, c.syms[s].ranges, Base(c.syms[s].typ), A()); v == x.v && AllHeld(c, K(), x.used)
      decreases n, 13
    {
      hide Right, DependentsOk, Look, Nested, All, Ev, StrOf, NumOr0, AllHeld;
      var ranges := c.syms[s].ranges;
      ghost var base := Base(c.syms[s].typ);
      var i := 0;
      ghost var used: set<int> := {};
      HeldNone(c, K());
      v := None;
      while i < |ranges|
        invariant 0 <= i <= |ranges| && Valid() && Grew() && AllHeld(c, K(), used) && v == None
        invariant var all, rest := ActiveRange(c, ranges, base, A()), ActiveRange(c, ranges[i..], base, A());
          all == Seen(rest.v, used + rest.used)
      {
        ghost var k1 := K();
        var x := ExprValue(ranges[i].cond, n);
        ghost var e := Ev(c, ranges[i].cond, A());
        HeldGrows(c, k1, K(), used);
        HeldUnion(c, K(), used, e.used);
        assert ranges[i..][1..] == ranges[i + 1..];
        if x != 0 {
          v := BoundsOf(s, i, used + e.used, n);
          ghost var bounds := {ranges[i].low, ranges[i].high};
          assert used + (e.used + bounds) == used + e.used + bounds;
          return;
        }
        used := used + e.used;
        i := i + 1;
      }
    }

    /** The numbers that a range's bounds stand for */
    method BoundsOf(s: int, i: nat, ghost used: set<int>, ghost n: nat) returns (v: Option<(int, int)>)
      requires Valid() && s in c.syms && i < |c.syms[s].ranges| && AllHeld(c, K(), used)
      requires Reach({c.syms[s].ranges[i].low, c.syms[s].ranges[i].high}, n)
      modifies this`vis, this`tri, this`str
      ensures Valid() && Grew()
      ensures var r, base := c.syms[s].ranges[i], Base(c.syms[s].typ);
        && AllHeld(c, K(), used + {r.low, r.high})
        && v == Some((NumOr0(c, StrOf(Look(c, A(), r.low)), base), NumOr0(c, StrOf(Look(c, A(), r.high)), base)))
      decreases n, 12
    {
      hide Right, DependentsOk, Look, Nested, All, StrOf, NumOr0, AllHeld;
      var r, base := c.syms[s].ranges[i], Base(c.syms[s].typ);
      ghost var k1 := K();
      var low := TextOf(r.low, n);
      HeldOne(c, K(), r.low);
      HeldGrows(c, k1, K(), used);
      HeldUnion(c, K(), used, {r.low});
      ghost var k2 := K();
      var high := TextOf(r.high, n);
      HeldOne(c, K(), r.high);
      HeldGrows(c, k2, K(), used + {r.low});
      HeldUnion(c, K(), used + {r.low}, {r.high});
      assert used + {r.low, r.high} == used + {r.low} + {r.high};
      v := Some((NumOr0(c, low, base), NumOr0(c, high, base)));
    }

    // -------------------------------------------------------------- tri_value

    /** tri_value, whose computation nests at most n deep */
    method TriValue(s: int, ghost n: nat) returns (v: nat)
      requires Valid() && s in c.syms && (Logical(c.syms[s].typ) ==> s in Nested(c, users, n))
      modifies this`vis, this`tri, this`str
      ensures Valid() && Grew()
      ensures v == (if Logical(c.syms[s].typ) then TriOf(Look(c, A(), s)) else 0)
      ensures Logical(c.syms[s].typ) ==> s in tri && tri[s] == v
      decreases n, 0
    {
      hide Right, DependentsOk, Look, Nested, All, TriVal, Vis;
      if Logical(c.syms[s].typ) {
        FinalIs(c, users, n, s);
      }
      if s in tri {
        CachedTri(c, users, K(), s);
        return tri[s];
      }
      if !Logical(c.syms[s].typ) {
        AddZero(c, users, K(), s);
        tri := tri[s := 0];
        return 0;
      }
      v := Computed(s, n - 1);
      AddTri(c, users, K(), s, v);
      tri := tri[s := v];
    }

    /** The computation in tri_value */
    method Computed(s: int, ghost n: nat) returns (v: nat)
      requires Valid() && s in c.syms && Logical(c.syms[s].typ)
      requires Reach(TriVal(c, c.syms[s], UserOf(users, s), A()).used, n)
      modifies this`vis, this`tri, this`str
      ensures Valid() && Grew() && s in vis && var x := TriVal(c, c.syms[s], UserOf(users, s), A()); v == x.v && AllHeld(c, K(), x.used)
      decreases n, 17
    {
      hide Right, DependentsOk, Look, Nested, All, Ev, Own, AllHeld;
      ghost var sym, u := c.syms[s], UserOf(users, s);
      ghost var o := Own(c, sym, u, A());
      v := OwnValue(s, n);
      v := Selected(s, v, o, n);
      v := PromotedValue(s, v, WithSelect(c, sym, A(), o), n);
    }

    /** The user's value, or else the one from defaults and imply */
    method OwnValue(s: int, ghost n: nat) returns (v: nat)
      requires Valid() && s in c.syms && Reach(Own(c, c.syms[s], UserOf(users, s), A()).used, n)
      modifies this`vis, this`tri, this`str
      ensures Valid() && Grew() && s in vis
      ensures var x := Own(c, c.syms[s], UserOf(users, s), A()); v == x.v && AllHeld(c, K(), x.used)
      decreases n, 16
    {
      hide Right, DependentsOk, Look, Nested, All, Ev, AllHeld, Vis, TriDefault;
      var seen := Visibility(s, n);
      ghost var visible := Vis(c, c.syms[s], A());
      if seen != 0 && UserOf(users, s).UserTri? {
        v := Min(UserOf(users, s).v, seen);
      } else {
        ghost var k1 := K();
        v := DefaultValue(s, n);
        ghost var d := TriDefault(c, c.syms[s].defaults, A());
        HeldGrows(c, k1, K(), visible.used);
        HeldUnion(c, K(), visible.used, d.used);
        v := Implied(s, v, Seen(d.v, visible.used + d.used), n);
      }
    }

    /** Weak reverse dependencies */
    method Implied(s: int, own: nat, ghost d: Seen<nat>, ghost n: nat) returns (v: nat)
      requires Valid() && s in c.syms && own == d.v && AllHeld(c, K(), d.used)
      requires Reach(WithImply(c, c.syms[s], A(), d).used, n)
      modifies this`vis, this`tri, this`str
      ensures Valid() && Grew()
      ensures var x := WithImply(c, c.syms[s], A(), d); v == x.v && AllHeld(c, K(), x.used)
      decreases n, 14
    {
      hide Right, DependentsOk, Look, Nested, All, Ev, AllHeld;
      ghost var sym, k0 := c.syms[s], K();
      v := own;
      var weak := ExprValue(c.syms[s].weakRev, n);
      HeldGrows(c, k0, K(), d.used);
      HeldUnion(c, K(), d.used, Ev(c, sym.weakRev, A()).used);
      if weak != 0 {
        ghost var k1 := K();
        var direct := ExprValue(c.syms[s].direct, n);
        HeldGrows(c, k1, K(), d.used + Ev(c, sym.weakRev, A()).used);
        HeldUnion(c, K(), d.used + Ev(c, sym.weakRev, A()).used, Ev(c, sym.direct, A()).used);
        if direct != 0 {
          v := Max(weak, v);
        }
      }
    }

    /** Reverse dependencies */
    method Selected(s: int, own: nat, ghost d: Seen<nat>, ghost n: nat) returns (v: nat)
      requires Valid() && s in c.syms && own == d.v && AllHeld(c, K(), d.used)
      requires Reach(WithSelect(c, c.syms[s], A(), d).used, n)
      modifies this`vis, this`tri, this`str
      ensures Valid() && Grew()
      ensures var x := WithSelect(c, c.syms[s], A(), d); v == x.v && AllHeld(c, K(), x.used)
      decreases n, 14
    {
      hide Right, DependentsOk, Look, Nested, All, Ev, AllHeld;
      ghost var sym, k0 := c.syms[s], K();
      v := own;
      var rev := ExprValue(c.syms[s].rev, n);
      HeldGrows(c, k0, K(), d.used);
      HeldUnion(c, K(), d.used, Ev(c, sym.rev, A()).used);
      if rev != 0 {
        ghost var k1 := K();
        var direct := ExprValue(c.syms[s].direct, n); // compared with rev for a warning
        HeldGrows(c, k1, K(), d.used + Ev(c, sym.rev, A()).used);
        HeldUnion(c, K(), d.used + Ev(c, sym.rev, A()).used, Ev(c, sym.direct, A()).used);
        v := Max(rev, v);
      }
    }

    /** m to y */
    method PromotedValue(s: int, own: nat, ghost d: Seen<nat>, ghost n: nat) returns (v: nat)
      requires Valid() && s in c.syms && own == d.v && AllHeld(c, K(), d.used)
      requires Reach(Promoted(c, c.syms[s], A(), d).used, n)
      modifies this`vis, this`tri, this`str
      ensures Valid() && Grew()
      ensures var x := Promoted(c, c.syms[s], A(), d); v == x.v && AllHeld(c, K(), x.used)
      decreases n, 15
    {
      hide Right, DependentsOk, Look, Nested, All, Ev, AllHeld, EffType;
      ghost var sym, k0 := c.syms[s], K();
      v := own;
      if v == 1 {
        var t := TypeValue(s, n);
        ghost var e := EffType(c, sym.typ, A());
        HeldGrows(c, k0, K(), d.used);
        HeldUnion(c, K(), d.used, e.used);
        if t == BoolType {
          v := 2;
        } else {
              ghost var k1 := K();
          var weak := ExprValue(c.syms[s].weakRev, n);
          HeldGrows(c, k1, K(), d.used + e.used);
          HeldUnion(c, K(), d.used + e.used, Ev(c, sym.weakRev, A()).used);
          if weak == 2 {
            v := 2;
          }
        }
      }
    }

    /** The loop over the defaults, up to the first with a condition other than n */
    method FindDefault(s: int, ghost n: nat) returns (i: nat, cond: nat)
      requires Valid() && s in c.syms && Reach(FirstDefault(c, c.syms[s].defaults, A()).used, n)
      modifies this`vis, this`tri, this`str
      ensures Valid() && Grew() && i <= |c.syms[s].defaults|
      ensures var x := FirstDefault(c, c.syms[s].defaults, A());
        && AllHeld(c, K(), x.used)
        && x.v == if i == |c.syms[s].defaults| then None else Some((c.syms[s].defaults[i].value, cond))
      decreases n, 13
    {
      hide Right, DependentsOk, Look, Nested, All, Ev;
      var defaults := c.syms[s].defaults;
      i, cond := 0, 0;
      ghost var used: set<int> := {};
      while i < |defaults|
        invariant 0 <= i <= |defaults| && Valid() && Grew() && AllHeld(c, K(), used)
        invariant var all, rest := FirstDefault(c, defaults, A()), FirstDefault(c, defaults[i..], A());
          all == Seen(rest.v, used + rest.used)
      {
        ghost var k1 := K();
        var x := ExprValue(defaults[i].cond, n);
        ghost var e := Ev(c, defaults[i].cond, A());
        HeldGrows(c, k1, K(), used);
        HeldUnion(c, K(), used, e.used);
        assert defaults[i..][1..] == defaults[i + 1..];
        if x != 0 {
          cond := x;
          return;
        }
        used := used + e.used;
        i := i + 1;
      }
    }

    method DefaultValue(s: int, ghost n: nat) returns (v: nat)
      requires Valid() && s in c.syms && Reach(TriDefault(c, c.syms[s].defaults, A()).used, n)
      modifies this`vis, this`tri, this`str
      ensures Valid() && Grew()
      ensures var x := TriDefault(c, c.syms[s].defaults, A()); v == x.v && AllHeld(c, K(), x.used)
      decreases n, 14
    {
      hide Right, DependentsOk, Look, Nested, All, Ev, FirstDefault, AllHeld;
      var defaults := c.syms[s].defaults;
      v := 0;
      var i, cond := FindDefault(s, n);
      if i < |defaults| {
        ghost var k1 := K();
        var x := ExprValue(defaults[i].value, n);
        HeldGrows(c, k1, K(), FirstDefault(c, defaults, A()).used);
        HeldUnion(c, K(), FirstDefault(c, defaults, A()).used, Ev(c, defaults[i].value, A()).used);
        v := Min(x, cond);
      }
    }
  }

  lemma {:induction false} PromptPart(c: Config, l: seq<Expr>, i: nat, a: Assign)
    requires i < |l|
    ensures Ev(c, l[i], a).used <= PromptVis(c, l, a).used
  {
    hide Ev;
    if i < |l| - 1 { PromptPart(c, l[..|l| - 1], i, a); }
  }

  lemma EvCompare(c: Config, op: Relation, l: int, r: int, a: Assign)
    ensures Ev(c, Compare(op, l, r), a) ==
            Seen(if Satisfies(op, Comp(c, TypeOf(c, l), Look(c, a, l), TypeOf(c, r), Look(c, a, r))) then 2 else 0, {l, r})
  {
    hide Comp, Look;
  }

  /** A symbol's cached values stay right when other symbols get theirs. */
  lemma OthersStay(c: Config, u: Users, a: Assign, k: Cache, k': Cache, x: int)
    requires x in c.syms && Kept(k, k', x) && VisRight(c, a, k, x) && MainRight(c, u, a, k, x) && OtherRight(c, k, x)
    requires k.vis.Keys <= k'.vis.Keys && k.tri.Keys <= k'.tri.Keys && k.str.Keys <= k'.str.Keys
    ensures VisRight(c, a, k', x) && MainRight(c, u, a, k', x) && OtherRight(c, k', x)
  {
    hide Vis, ValOf, AllHeld;
    HeldGrowsToo(c, k, k', Vis(c, c.syms[x], a).used);
    HeldGrowsToo(c, k, k', ValOf(c, c.syms[x], UserOf(u, x), a).used);
  }

  lemma HeldGrowsToo(c: Config, k: Cache, k': Cache, used: set<int>)
    requires k.vis.Keys <= k'.vis.Keys && k.tri.Keys <= k'.tri.Keys && k.str.Keys <= k'.str.Keys
    ensures AllHeld(c, k, used) ==> AllHeld(c, k', used)
  {
    if AllHeld(c, k, used) { HeldGrows(c, k, k', used); }
  }

  /** Completing the cache at one symbol */
  lemma AddOne(c: Config, u: Users, k: Cache, k': Cache, s: int)
    requires Right(c, u, k) && s in c.syms && (forall x :: x != s ==> Kept(k, k', x))
    requires k.vis.Keys <= k'.vis.Keys && k.tri.Keys <= k'.tri.Keys && k.str.Keys <= k'.str.Keys
    requires k'.vis.Keys <= c.syms.Keys && k'.tri.Keys <= c.syms.Keys && k'.str.Keys <= c.syms.Keys
    requires var a := All(c, u); VisRight(c, a, k', s) && MainRight(c, u, a, k', s) && OtherRight(c, k', s)
    ensures Right(c, u, k')
  {
    hide Vis, ValOf, All, Held, VisRight, MainRight, OtherRight;
    var a := All(c, u);
    forall x | x in c.syms && x != s ensures VisRight(c, a, k', x) && MainRight(c, u, a, k', x) && OtherRight(c, k', x) {
      OthersStay(c, u, a, k, k', x);
    }
  }

  lemma RightAt(c: Config, u: Users, k: Cache, s: int)
    requires Right(c, u, k) && s in c.syms
    ensures var a := All(c, u); VisRight(c, a, k, s) && MainRight(c, u, a, k, s) && OtherRight(c, k, s)
    ensures k.vis.Keys <= c.syms.Keys && k.tri.Keys <= c.syms.Keys && k.str.Keys <= c.syms.Keys
  {
    hide VisRight, MainRight, OtherRight, All;
  }

  lemma AddVis(c: Config, u: Users, k: Cache, s: int, v: nat)
    requires Right(c, u, k) && s in c.syms
    requires v == Vis(c, c.syms[s], All(c, u)).v && AllHeld(c, k, Vis(c, c.syms[s], All(c, u)).used)
    ensures Right(c, u, k.(vis := k.vis[s := v]))
    ensures AllHeld(c, k.(vis := k.vis[s := v]), Vis(c, c.syms[s], All(c, u)).used)
  {
    hide Vis, ValOf, All, AllHeld, Right;
    var k', a, sym := k.(vis := k.vis[s := v]), All(c, u), c.syms[s];
    RightAt(c, u, k, s);
    HeldGrows(c, k, k', Vis(c, sym, a).used);
    HeldGrowsToo(c, k, k', ValOf(c, sym, UserOf(u, s), a).used);
    AddOne(c, u, k, k', s);
  }

  lemma TriValOf(c: Config, sym: Symbol, u: UserVal, a: Assign)
    requires Logical(sym.typ)
    ensures ValOf(c, sym, u, a) == Seen(Tri(TriVal(c, sym, u, a).v), TriVal(c, sym, u, a).used)
  {
    hide TriVal;
  }

  lemma AddTri(c: Config, u: Users, k: Cache, s: int, v: nat)
    requires Right(c, u, k) && s in c.syms && Ends(c, u, s) && s in k.vis && Logical(c.syms[s].typ)
    requires var x := TriVal(c, c.syms[s], UserOf(u, s), All(c, u)); v == x.v && AllHeld(c, k, x.used)
    ensures Right(c, u, k.(tri := k.tri[s := v]))
  {
    hide Vis, ValOf, All, AllHeld, Right, TriVal;
    var k', a, sym := k.(tri := k.tri[s := v]), All(c, u), c.syms[s];
    TriValOf(c, sym, UserOf(u, s), a);
    RightAt(c, u, k, s);
    HeldGrowsToo(c, k, k', Vis(c, sym, a).used);
    HeldGrows(c, k, k', ValOf(c, sym, UserOf(u, s), a).used);
    AddOne(c, u, k, k', s);
  }

  lemma AddZero(c: Config, u: Users, k: Cache, s: int)
    requires Right(c, u, k) && s in c.syms && !Logical(c.syms[s].typ)
    ensures Right(c, u, k.(tri := k.tri[s := 0]))
  {
    hide Vis, ValOf, All, AllHeld, Right;
    var k', a, sym := k.(tri := k.tri[s := 0]), All(c, u), c.syms[s];
    RightAt(c, u, k, s);
    HeldGrowsToo(c, k, k', Vis(c, sym, a).used);
    HeldGrowsToo(c, k, k', ValOf(c, sym, UserOf(u, s), a).used);
    AddOne(c, u, k, k', s);
  }

  /** The invalidation of x, as far as the dependents in `seen` */
  ghost predicate Underway(c: Config, k: Cache, k': Cache, x: int, seen: set<int>) {
    && (forall s :: Kept(k, k', s) || Dropped(k', s))
    && Dropped(k', x)
    && (forall s :: s != x && s in k.vis && s !in k'.vis ==> NoneAbove(c, k', s))
    && (forall y :: y in seen ==> y !in k'.vis)
  }

  lemma Someone(s: set<int>)
    requires s != {}
    ensures exists x :: x in s
  {
    assert (forall x :: x !in s) ==> s == {};
  }

  lemma EmptyRight(c: Config)
    ensures Right(c, map[], Cache(map[], map[], map[]))
  {
    hide Vis, ValOf, All;
  }

  lemma NothingLeft(c: Config, k: Cache, k': Cache, x: int)
    requires k'.vis.Keys == {} && k'.tri.Keys == {} && k'.str.Keys == {}
    ensures Invalidated(c, k, k', x)
  {
    hide Deps;
    forall s ensures Dropped(k', s) { assert s !in k'.vis.Keys && s !in k'.tri.Keys && s !in k'.str.Keys; }
    assert forall y :: y !in k'.vis by { assert forall y :: y !in k'.vis.Keys; }
  }

  lemma Begin(c: Config, k: Cache, k': Cache, x: int)
    requires k'.vis == k.vis - {x} && k'.tri == k.tri - {x} && k'.str == k.str - {x}
    ensures Underway(c, k, k', x, {})
  {
    hide NoneAbove;
  }

  lemma BeginBelow(c: Config, k: Cache, k': Cache, x: int)
    requires k'.vis == k.vis - {x} && k'.tri == k.tri - {x} && k'.str == k.str - {x}
    ensures OnlyBelow(c, k, k', x)
  {
    HereBelow(c, x);
    hide Downstream;
  }

  lemma KeysIn(c: Config, u: Users, k: Cache)
    requires Right(c, u, k)
    ensures k.vis.Keys <= c.syms.Keys && k.tri.Keys <= c.syms.Keys && k.str.Keys <= c.syms.Keys
  {
  }

  /** After the user value of s has changed */
  lemma StillRight(c: Config, u: Users, u': Users, k: Cache, k': Cache, s: int)
    requires Right(c, u, k) && s in c.syms && forall y :: y != s ==> UserOf(u', y) == UserOf(u, y)
    requires if c.syms[s].prompts != [] then Invalidated(c, k, k', s) else k' == k
    ensures Right(c, u', k')
  {
    hide Right, Invalidated;
    if c.syms[s].prompts != [] {
      InvalidationIsEnough(c, u, u', k, k', s);
    } else {
      NothingToDo(c, u, u', k, s);
    }
  }

  lemma Further(c: Config, k0: Cache, k: Cache, k': Cache, x: int, seen: set<int>, item: int)
    requires Underway(c, k0, k, x, seen) && Invalidated(c, k, k', item)
    ensures Underway(c, k0, k', x, seen + {item})
  {
    hide NoneAbove;
    forall s ensures (Kept(k0, k', s) || Dropped(k', s)) && (s in k'.vis ==> s in k.vis) {
      assert Kept(k0, k, s) || Dropped(k, s);
      assert Kept(k, k', s) || Dropped(k', s);
    }
    forall s | s != x && s in k0.vis && s !in k'.vis ensures NoneAbove(c, k', s) {
      if s !in k.vis { NoneAboveStays(c, k, k', s); }
    }
  }

  lemma NoneAboveStays(c: Config, k: Cache, k': Cache, s: int)
    requires NoneAbove(c, k, s) && forall y :: y in k'.vis ==> y in k.vis
    ensures NoneAbove(c, k', s)
  {
  }

  lemma Done(c: Config, k: Cache, k': Cache, x: int, seen: set<int>)
    requires Underway(c, k, k', x, seen) && x != MODULES
    requires forall y :: y in c.syms && x in Deps(c.syms[y]) ==> y in seen
    ensures Invalidated(c, k, k', x)
  {
  }

  lemma HeldOne(c: Config, k: Cache, s: int)
    requires Held(c, k, s)
    ensures AllHeld(c, k, {s})
  {
  }

  lemma HeldNone(c: Config, k: Cache)
    ensures AllHeld(c, k, {})
  {
  }

  lemma AddText(c: Config, u: Users, k: Cache, s: int, v: string)
    requires Right(c, u, k) && s in c.syms && Ends(c, u, s) && s in k.vis
    requires !Logical(c.syms[s].typ) && c.syms[s].typ != UnknownType
    requires var x := ValOf(c, c.syms[s], UserOf(u, s), All(c, u)); x.v == Text(v) && AllHeld(c, k, x.used)
    ensures Right(c, u, k.(str := k.str[s := v]))
  {
    hide Vis, ValOf, All, AllHeld, Right;
    var k', a, sym := k.(str := k.str[s := v]), All(c, u), c.syms[s];
    RightAt(c, u, k, s);
    HeldGrowsToo(c, k, k', Vis(c, sym, a).used);
    HeldGrows(c, k, k', ValOf(c, sym, UserOf(u, s), a).used);
    AddOne(c, u, k, k', s);
  }

  /** The string of a bool or tristate symbol with its value cached, or of one without a type */
  lemma AddStr(c: Config, u: Users, k: Cache, s: int, v: string)
    requires Right(c, u, k) && s in c.syms
    requires if Logical(c.syms[s].typ) then s in k.tri && v == StrOf(Tri(k.tri[s]))
             else c.syms[s].typ == UnknownType && v == c.syms[s].name
    ensures Right(c, u, k.(str := k.str[s := v]))
  {
    hide Vis, ValOf, All, AllHeld, Right;
    var k', a, sym := k.(str := k.str[s := v]), All(c, u), c.syms[s];
    RightAt(c, u, k, s);
    HeldGrowsToo(c, k, k', Vis(c, sym, a).used);
    HeldGrowsToo(c, k, k', ValOf(c, sym, UserOf(u, s), a).used);
    AddOne(c, u, k, k', s);
  }

  lemma CachedStr(c: Config, u: Users, k: Cache, n: nat, s: int)
    requires Right(c, u, k) && s in Nested(c, u, n) && s in k.str
    ensures s in c.syms && k.str[s] == StrOf(Look(c, All(c, u), s)) && Held(c, k, s)
  {
    hide Vis, ValOf, All, Look, Nested, Ends;
    FinalIs(c, u, n, s);
    FinalKind(c, u, n, s);
    assert MainRight(c, u, All(c, u), k, s) && OtherRight(c, k, s);
  }

  /** Bool and tristate symbols have tristate values, the others strings; without a type it is the name. */
  lemma KindOf(c: Config, sym: Symbol, u: UserVal, a: Assign)
    ensures ValOf(c, sym, u, a).v.Tri? <==> Logical(sym.typ)
    ensures sym.typ == UnknownType ==> ValOf(c, sym, u, a).v == Text(sym.name)
  {
    hide TriVal, StringVal, NumVal;
  }

  lemma FinalKind(c: Config, u: Users, n: nat, s: int)
    requires s in Nested(c, u, n)
    ensures s in c.syms && (Look(c, All(c, u), s).Tri? <==> Logical(c.syms[s].typ))
    ensures c.syms[s].typ == UnknownType ==> Look(c, All(c, u), s) == Text(c.syms[s].name)
  {
    hide All, Look, Nested, Ends, ValOf;
    FinalIs(c, u, n, s);
    KindOf(c, c.syms[s], UserOf(u, s), All(c, u));
  }

  lemma CachedVis(c: Config, u: Users, k: Cache, s: int)
    requires Right(c, u, k) && s in c.syms && s in k.vis
    ensures k.vis[s] == Vis(c, c.syms[s], All(c, u)).v && AllHeld(c, k, Vis(c, c.syms[s], All(c, u)).used)
  {
    hide Vis, ValOf, All;
    assert VisRight(c, All(c, u), k, s);
  }

  lemma CachedTri(c: Config, u: Users, k: Cache, s: int)
    requires Right(c, u, k) && s in c.syms && s in k.tri
    ensures k.tri[s] == if Logical(c.syms[s].typ) then TriOf(Look(c, All(c, u), s)) else 0
  {
    hide Vis, ValOf, All, Look, Nested;
    assert MainRight(c, u, All(c, u), k, s) && OtherRight(c, k, s);
    if Logical(c.syms[s].typ) {
      var n: nat :| s in Nested(c, u, n);
      FinalIs(c, u, n, s);
    }
  }

  lemma HeldUnion(c: Config, k: Cache, x: set<int>, y: set<int>)
    requires AllHeld(c, k, x) && AllHeld(c, k, y)
    ensures AllHeld(c, k, x + y)
  {
  }
}

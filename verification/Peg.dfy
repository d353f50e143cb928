/** Parsing expression grammars: when a grammar is well-founded, and what an expression
    matches. Rules are numbered so that a rule begins only with rules before it. */
module Peg {

  datatype Expr =
    | Lit(text: string)
    | Class(chars: string, ranges: seq<(char, char)>, inverted: bool)
    | Seq(items: seq<Expr>)
    | Choice(items: seq<Expr>)
    | Opt(body: Expr)
    | Star(body: Expr)
    | Plus(body: Expr)
    | Ref(rule: nat)
    | Label(name: string, body: Expr)
    | Action(code: nat, body: Expr)

  /** The rules by number, and those that may match the empty string. */
  datatype Grammar = Grammar(rules: seq<Expr>, empty: set<nat>)

  /** What a match yields; an action's value is what its code makes of the text and the
      labels in its scope. */
  datatype Val = Nil | Text(s: string) | Items(vals: seq<Val>)
    | Acted(code: nat, text: string, labels: map<string, Val>)
  type Env = map<string, Val>

  datatype Res = Fail | Match(pos: nat, val: Val, env: Env)

  function Max(a: nat, b: nat): nat {
    if a < b then b else a
  }

  // ------------------------------------------------------------------ well-founded grammars

  function Size(e: Expr): nat {
    match e
    case Lit(_) => 1
    case Class(_, _, _) => 1
    case Seq(items) => 1 + SizeSeq(items)
    case Choice(items) => 1 + SizeSeq(items)
    case Opt(b) => 2 + Size(b)
    case Star(b) => 2 + Size(b)
    case Plus(b) => 3 + Size(b)
    case Ref(_) => 1
    case Label(_, b) => 1 + Size(b)
    case Action(_, b) => 1 + Size(b)
  }

  function SizeSeq(items: seq<Expr>): nat {
    if items == [] then 0 else 1 + Size(items[0]) + SizeSeq(items[1..])
  }

  /** Whether an expression may match without consuming anything. */
  predicate Nullable(g: Grammar, e: Expr) {
    match e
    case Lit(text) => text == ""
    case Class(_, _, _) => false
    case Seq(items) => forall i :: 0 <= i < |items| ==> Nullable(g, items[i])
    case Choice(items) => exists i :: 0 <= i < |items| && Nullable(g, items[i])
    case Opt(_) => true
    case Star(_) => true
    case Plus(b) => Nullable(g, b)
    case Ref(n) => n in g.empty
    case Label(_, b) => Nullable(g, b)
    case Action(_, b) => Nullable(g, b)
  }

  /** One more than the highest rule that an expression can call before it has
      consumed anything. */
  function Level(g: Grammar, e: Expr): nat
    decreases Size(e)
  {
    match e
    case Lit(_) => 0
    case Class(_, _, _) => 0
    case Seq(items) => LevelSeq(g, items)
    case Choice(items) => LevelAll(g, items)
    case Opt(b) => Level(g, b)
    case Star(b) => Level(g, b)
    case Plus(b) => Level(g, b)
    case Ref(n) => n + 1
    case Label(_, b) => Level(g, b)
    case Action(_, b) => Level(g, b)
  }

  function LevelSeq(g: Grammar, items: seq<Expr>): nat
    decreases SizeSeq(items)
  {
    if items == [] then 0
    else Max(Level(g, items[0]), if Nullable(g, items[0]) then LevelSeq(g, items[1..]) else 0)
  }

  function LevelAll(g: Grammar, items: seq<Expr>): nat
    decreases SizeSeq(items)
  {
    if items == [] then 0 else Max(Level(g, items[0]), LevelAll(g, items[1..]))
  }

  /** Nothing that can match the empty string is repeated. */
  predicate ExprOk(g: Grammar, e: Expr) {
    match e
    case Lit(_) => true
    case Class(_, _, _) => true
    case Seq(items) => forall i :: 0 <= i < |items| ==> ExprOk(g, items[i])
    case Choice(items) => forall i :: 0 <= i < |items| ==> ExprOk(g, items[i])
    case Opt(b) => ExprOk(g, b)
    case Star(b) => ExprOk(g, b) && !Nullable(g, b)
    case Plus(b) => ExprOk(g, b) && !Nullable(g, b)
    case Ref(_) => true
    case Label(_, b) => ExprOk(g, b)
    case Action(_, b) => ExprOk(g, b)
  }

  /** The items before `i` may all match without consuming anything. */
  predicate Reaches(g: Grammar, items: seq<Expr>, i: nat) {
    forall j :: 0 <= j < i && j < |items| ==> Nullable(g, items[j])
  }

  /** Every rule that the expression can call before it has consumed anything is before `n`. */
  predicate Starts(g: Grammar, e: Expr, n: nat)
    decreases e, 1
  {
    match e
    case Lit(_) => true
    case Class(_, _, _) => true
    case Seq(_) => ItemsStart(g, e, n)
    case Choice(items) => forall i :: 0 <= i < |items| ==> Starts(g, items[i], n)
    case Opt(b) => Starts(g, b, n)
    case Star(b) => Starts(g, b, n)
    case Plus(b) => Starts(g, b, n)
    case Ref(k) => k < n
    case Label(_, b) => Starts(g, b, n)
    case Action(_, b) => Starts(g, b, n)
  }

  predicate ItemsStart(g: Grammar, e: Expr, n: nat)
    requires e.Seq?
    decreases e, 0
  {
    forall i :: 0 <= i < |e.items| && Reaches(g, e.items, i) ==> Starts(g, e.items[i], n)
  }

  lemma {:induction false} StartsLevel(g: Grammar, e: Expr, n: nat)
    requires Starts(g, e, n)
    ensures Level(g, e) <= n
    decreases Size(e)
  {
    match e
    case Lit(_) =>
    case Class(_, _, _) =>
    case Seq(items) => StartsSeq(g, items, n);
    case Choice(items) => StartsAll(g, items, n);
    case Opt(b) => StartsLevel(g, b, n);
    case Star(b) => StartsLevel(g, b, n);
    case Plus(b) => StartsLevel(g, b, n);
    case Ref(_) =>
    case Label(_, b) => StartsLevel(g, b, n);
    case Action(_, b) => StartsLevel(g, b, n);
  }

  lemma {:induction false} StartsSeq(g: Grammar, items: seq<Expr>, n: nat)
    requires forall i :: 0 <= i < |items| && Reaches(g, items, i) ==> Starts(g, items[i], n)
    ensures LevelSeq(g, items) <= n
    decreases SizeSeq(items)
  {
    if items != [] {
      StartsLevel(g, items[0], n);
      if Nullable(g, items[0]) {
        var rest := items[1..];
        forall i | 0 <= i < |rest| && Reaches(g, rest, i) ensures Starts(g, rest[i], n) {
          forall j | 0 <= j < i + 1 ensures Nullable(g, items[j]) {
            if j > 0 { assert items[j] == rest[j - 1]; }
          }
          assert rest[i] == items[i + 1];
        }
        StartsSeq(g, rest, n);
      }
    }
  }

  lemma {:induction false} StartsAll(g: Grammar, items: seq<Expr>, n: nat)
    requires forall i :: 0 <= i < |items| ==> Starts(g, items[i], n)
    ensures LevelAll(g, items) <= n
    decreases SizeSeq(items)
  {
    if items != [] {
      StartsLevel(g, items[0], n);
      StartsAll(g, items[1..], n);
    }
  }

  predicate RuleOk(g: Grammar, n: nat)
    requires n < |g.rules|
  {
    ExprOk(g, g.rules[n]) && Level(g, g.rules[n]) <= n && (Nullable(g, g.rules[n]) ==> n in g.empty)
  }

  predicate WellFounded(g: Grammar) {
    forall n :: 0 <= n < |g.rules| ==> RuleOk(g, n)
  }

  // ------------------------------------------------------------------ what an expression matches

  predicate LitAt(data: string, text: string, pos: nat) {
    pos + |text| <= |data| && data[pos..pos + |text|] == text
  }

  predicate InClass(chars: string, ranges: seq<(char, char)>, c: char) {
    c in chars || exists i :: 0 <= i < |ranges| && ranges[i].0 <= c <= ranges[i].1
  }

  /** The first match of an expression at a position, in a scope of labels. Alternatives,
      optional and repeated expressions, labelled expressions and rules have scopes of
      their own. */
  function Sem(g: Grammar, data: string, e: Expr, pos: nat, env: Env): (r: Res)
    requires WellFounded(g) && ExprOk(g, e) && pos <= |data|
    ensures r.Match? ==> pos <= r.pos <= |data| && (r.pos == pos ==> Nullable(g, e))
    decreases |data| - pos, Level(g, e), Size(e)
  {
    match e
    case Lit(text) => if LitAt(data, text, pos) then Match(pos + |text|, Text(text), env) else Fail
    case Class(chars, ranges, inverted) =>
      if pos < |data| && InClass(chars, ranges, data[pos]) != inverted
      then Match(pos + 1, Text([data[pos]]), env) else Fail
    case Seq(items) => SemSeq(g, data, items, pos, env, [])
    case Choice(items) =>
      var r := SemChoice(g, data, items, pos);
      if r.Fail? then Fail else r.(env := env)
    case Opt(b) =>
      var r := Sem(g, data, b, pos, map[]);
      if r.Fail? then Match(pos, Nil, env) else r.(env := env)
    case Star(b) =>
      var (p, vals) := SemStar(g, data, b, pos, []);
      Match(p, Items(vals), env)
    case Plus(b) =>
      var (p, vals) := SemStar(g, data, b, pos, []);
      if p == pos then Fail else Match(p, Items(vals), env)
    case Ref(n) =>
      if n >= |g.rules| then Fail
      else
        assert RuleOk(g, n);
        var r := Sem(g, data, g.rules[n], pos, map[]);
        if r.Fail? then Fail else r.(env := env)
    case Label(name, b) =>
      var r := Sem(g, data, b, pos, map[]);
      if r.Fail? then Fail else r.(env := if name == "" then env else env[name := r.val])
    case Action(code, b) =>
      var r := Sem(g, data, b, pos, env);
      if r.Fail? then Fail else r.(val := Acted(code, data[pos..r.pos], r.env))
  }

  function SemSeq(g: Grammar, data: string, items: seq<Expr>, pos: nat, env: Env, vals: seq<Val>): (r: Res)
    requires WellFounded(g) && (forall i :: 0 <= i < |items| ==> ExprOk(g, items[i])) && pos <= |data|
    ensures r.Match? ==> pos <= r.pos <= |data|
    ensures r.Match? && r.pos == pos ==> forall i :: 0 <= i < |items| ==> Nullable(g, items[i])
    decreases |data| - pos, LevelSeq(g, items), SizeSeq(items)
  {
    if items == [] then Match(pos, Items(vals), env)
    else
      var r := Sem(g, data, items[0], pos, env);
      if r.Fail? then Fail else SemSeq(g, data, items[1..], r.pos, r.env, vals + [r.val])
  }

  function SemChoice(g: Grammar, data: string, items: seq<Expr>, pos: nat): (r: Res)
    requires WellFounded(g) && (forall i :: 0 <= i < |items| ==> ExprOk(g, items[i])) && pos <= |data|
    ensures r.Match? ==> pos <= r.pos <= |data|
    ensures r.Match? && r.pos == pos ==> exists i :: 0 <= i < |items| && Nullable(g, items[i])
    decreases |data| - pos, LevelAll(g, items), SizeSeq(items)
  {
    if items == [] then Fail
    else
      var r := Sem(g, data, items[0], pos, map[]);
      if r.Match? then r
      else
        var s := SemChoice(g, data, items[1..], pos);
        assert s.Match? && s.pos == pos ==> exists i :: 0 <= i < |items| && Nullable(g, items[i]) by {
          if s.Match? && s.pos == pos {
            var i :| 0 <= i < |items[1..]| && Nullable(g, items[1..][i]);
            assert Nullable(g, items[i + 1]);
          }
        }
        s
  }

  function SemStar(g: Grammar, data: string, b: Expr, pos: nat, vals: seq<Val>): (r: (nat, seq<Val>))
    requires WellFounded(g) && ExprOk(g, b) && !Nullable(g, b) && pos <= |data|
    ensures pos <= r.0 <= |data|
    decreases |data| - pos, Level(g, b), Size(b) + 1
  {
    var r := Sem(g, data, b, pos, map[]);
    if r.Fail? then (pos, vals) else SemStar(g, data, b, r.pos, vals + [r.val])
  }
}

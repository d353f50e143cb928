/** The recursive-descent interpreter: a position that is moved and restored, a stack of
    label scopes and a stack of rules, all updated in place. */
module PegParser {
  import opened Peg

  lemma LitHas(data: string, text: string, start: nat, i: nat)
    requires i < |text|
    ensures LitAt(data, text, start) ==> start + i < |data| && data[start + i] == text[i]
  {
    if LitAt(data, text, start) {
      assert data[start..start + |text|][i] == text[i];
    }
  }

  class Parser {
    const g: Grammar
    const data: string
    var pos: nat
    var scopes: seq<Env>
    var rules: seq<nat>

    ghost predicate Valid()
      reads this
    {
      WellFounded(g) && pos <= |data| && scopes != []
    }

    function Top(): Env
      reads this
      requires scopes != []
    {
      scopes[|scopes| - 1]
    }

    constructor (g: Grammar, data: string)
      requires WellFounded(g)
      ensures Valid() && this.g == g && this.data == data && pos == 0 && scopes == [map[]] && rules == []
    {
      this.g, this.data, pos, scopes, rules := g, data, 0, [map[]], [];
    }

    /** The outcome `r` of an expression tried at `start`: a failure leaves the position
        where it was, a match moves it and extends the innermost scope; the other scopes
        and the rule stack are as before. */
    twostate predicate Outcome(r: Res, start: nat, v: Val, ok: bool)
      reads this
    {
      && scopes != [] && |scopes| == |old(scopes)| && scopes[..|scopes| - 1] == old(scopes)[..|scopes| - 1]
      && rules == old(rules)
      && match r
         case Fail => !ok && pos == start && v == Nil
         case Match(p, val, env) => ok && pos == p && v == val && Top() == env
    }

    method Push()
      modifies this`scopes
      ensures scopes == old(scopes) + [map[]]
    {
      scopes := scopes + [map[]];
    }

    method Pop()
      requires scopes != []
      modifies this`scopes
      ensures scopes == old(scopes)[..|old(scopes)| - 1]
    {
      scopes := scopes[..|scopes| - 1];
    }

    method ParseLit(text: string) returns (v: Val, ok: bool)
      requires Valid()
      modifies this`pos
      ensures Valid()
      ensures if LitAt(data, text, old(pos)) then ok && pos == old(pos) + |text| && v == Text(text)
              else !ok && pos == old(pos) && v == Nil
    {
      var start := pos;
      for i := 0 to |text|
        invariant pos == start + i <= |data| && data[start..pos] == text[..i]
      {
        if pos == |data| || data[pos] != text[i] {
          LitHas(data, text, start, i);
          pos := start;
          return Nil, false;
        }
        assert data[start..pos + 1] == data[start..pos] + [data[pos]];
        assert text[..i + 1] == text[..i] + [text[i]];
        pos := pos + 1;
      }
      assert text[..|text|] == text;
      return Text(data[start..pos]), true;
    }

    method ParseClass(chars: string, ranges: seq<(char, char)>, inverted: bool) returns (v: Val, ok: bool)
      requires Valid()
      modifies this`pos
      ensures Valid()
      ensures if old(pos) < |data| && InClass(chars, ranges, data[old(pos)]) != inverted
              then ok && pos == old(pos) + 1 && v == Text([data[old(pos)]])
              else !ok && pos == old(pos) && v == Nil
    {
      if pos == |data| { return Nil, false; }
      var c := data[pos];
      for i := 0 to |chars|
        invariant forall j :: 0 <= j < i ==> chars[j] != c
      {
        if chars[i] == c {
          if inverted { return Nil, false; }
          pos := pos + 1;
          return Text([c]), true;
        }
      }
      for i := 0 to |ranges|
        invariant forall j :: 0 <= j < i ==> !(ranges[j].0 <= c <= ranges[j].1)
      {
        if ranges[i].0 <= c <= ranges[i].1 {
          if inverted { return Nil, false; }
          pos := pos + 1;
          return Text([c]), true;
        }
      }
      if inverted {
        pos := pos + 1;
        return Text([c]), true;
      }
      return Nil, false;
    }

    method ParseExpr(e: Expr) returns (v: Val, ok: bool)
      requires Valid() && ExprOk(g, e)
      modifies this
      ensures Valid() && Outcome(Sem(g, data, e, old(pos), old(Top())), old(pos), v, ok)
      decreases |data| - pos, Level(g, e), Size(e), 1
    {
      match e
      case Lit(text) => v, ok := ParseLit(text);
      case Class(chars, ranges, inverted) => v, ok := ParseClass(chars, ranges, inverted);
      case Seq(items) => v, ok := ParseSeq(e);
      case Choice(items) => v, ok := ParseChoice(e);
      case Opt(b) =>
        v, ok := ParseScoped(b);
        ok := true;
      case Star(b) => v, ok := ParseStar(e);
      case Plus(b) => v, ok := ParsePlus(e);
      case Ref(n) =>
        if n >= |g.rules| { return Nil, false; }
        assert RuleOk(g, n);
        v, ok := ParseRule(n);
      case Label(name, b) =>
        v, ok := ParseScoped(b);
        if ok && name != "" {
          scopes := scopes[|scopes| - 1 := scopes[|scopes| - 1][name := v]];
        }
      case Action(code, b) =>
        var start := pos;
        v, ok := ParseExpr(b);
        if ok {
          v := Acted(code, data[start..pos], scopes[|scopes| - 1]);
        }
    }

    /** An expression in a scope of its own. */
    method ParseScoped(e: Expr) returns (v: Val, ok: bool)
      requires Valid() && ExprOk(g, e)
      modifies this
      ensures Valid() && scopes == old(scopes) && rules == old(rules)
      ensures match Sem(g, data, e, old(pos), map[])
              case Fail => !ok && pos == old(pos) && v == Nil
              case Match(p, val, _) => ok && pos == p && v == val
      decreases |data| - pos, Level(g, e), Size(e), 2
    {
      Push();
      v, ok := ParseExpr(e);
      Pop();
    }

    method ParseRule(n: nat) returns (v: Val, ok: bool)
      requires Valid() && n < |g.rules| && RuleOk(g, n)
      modifies this
      ensures Valid() && scopes == old(scopes) && rules == old(rules)
      ensures match Sem(g, data, g.rules[n], old(pos), map[])
              case Fail => !ok && pos == old(pos) && v == Nil
              case Match(p, val, _) => ok && pos == p && v == val
      decreases |data| - pos, Level(g, g.rules[n]), Size(g.rules[n]), 3
    {
      rules := rules + [n];
      v, ok := ParseScoped(g.rules[n]);
      rules := rules[..|rules| - 1];
    }

    method ParseChoice(e: Expr) returns (v: Val, ok: bool)
      requires Valid() && ExprOk(g, e) && e.Choice?
      modifies this
      ensures Valid() && Outcome(Sem(g, data, e, old(pos), old(Top())), old(pos), v, ok)
      decreases |data| - pos, Level(g, e), Size(e), 0
    {
      var items := e.items;
      var i := 0;
      while i < |items|
        invariant 0 <= i <= |items| && Valid() && pos == old(pos) && scopes == old(scopes) && rules == old(rules)
        invariant SemChoice(g, data, items, pos) == SemChoice(g, data, items[i..], pos)
        invariant LevelAll(g, items[i..]) <= LevelAll(g, items) && SizeSeq(items[i..]) <= SizeSeq(items)
      {
        assert items[i..][0] == items[i] && items[i..][1..] == items[i + 1..];
        v, ok := ParseScoped(items[i]);
        if ok { return; }
        i := i + 1;
      }
      return Nil, false;
    }

    method ParseSeq(e: Expr) returns (v: Val, ok: bool)
      requires Valid() && ExprOk(g, e) && e.Seq?
      modifies this
      ensures Valid() && Outcome(Sem(g, data, e, old(pos), old(Top())), old(pos), v, ok)
      decreases |data| - pos, Level(g, e), Size(e), 0
    {
      var items := e.items;
      var start := pos;
      var vals := [];
      var i := 0;
      while i < |items|
        invariant 0 <= i <= |items| && Valid() && start <= pos && rules == old(rules)
        invariant |scopes| == |old(scopes)| && scopes[..|scopes| - 1] == old(scopes)[..|scopes| - 1]
        invariant SemSeq(g, data, items, start, old(Top()), []) == SemSeq(g, data, items[i..], pos, Top(), vals)
        invariant pos == start ==> LevelSeq(g, items[i..]) <= LevelSeq(g, items)
        invariant SizeSeq(items[i..]) <= SizeSeq(items)
      {
        assert items[i..][0] == items[i] && items[i..][1..] == items[i + 1..];
        var x, matched := ParseExpr(items[i]);
        if !matched {
          pos := start;
          return Nil, false;
        }
        vals := vals + [x];
        i := i + 1;
      }
      return Items(vals), true;
    }

    method ParseStar(e: Expr) returns (v: Val, ok: bool)
      requires Valid() && ExprOk(g, e) && e.Star?
      modifies this
      ensures Valid() && Outcome(Sem(g, data, e, old(pos), old(Top())), old(pos), v, ok)
      decreases |data| - pos, Level(g, e), Size(e), 0
    {
      var vals := Repeat(e.body);
      return Items(vals), true;
    }

    method ParsePlus(e: Expr) returns (v: Val, ok: bool)
      requires Valid() && ExprOk(g, e) && e.Plus?
      modifies this
      ensures Valid() && Outcome(Sem(g, data, e, old(pos), old(Top())), old(pos), v, ok)
      decreases |data| - pos, Level(g, e), Size(e), 0
    {
      var vals := Repeat(e.body);
      if |vals| == 0 { return Nil, false; }
      return Items(vals), true;
    }

    /** Matches as often as possible. */
    method Repeat(b: Expr) returns (vals: seq<Val>)
      requires Valid() && ExprOk(g, b) && !Nullable(g, b)
      modifies this
      ensures Valid() && scopes == old(scopes) && rules == old(rules)
      ensures SemStar(g, data, b, old(pos), []) == (pos, vals)
      ensures vals == [] <==> pos == old(pos)
      decreases |data| - pos, Level(g, b), Size(b) + 1, 0
    {
      vals := [];
      while true
        invariant Valid() && old(pos) <= pos && scopes == old(scopes) && rules == old(rules)
        invariant SemStar(g, data, b, old(pos), []) == SemStar(g, data, b, pos, vals)
        invariant vals == [] <==> pos == old(pos)
        decreases |data| - pos
      {
        var x, matched := ParseScoped(b);
        if !matched { return; }
        vals := vals + [x];
      }
    }
  }
}

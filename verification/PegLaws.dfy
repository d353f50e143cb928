/** Laws of matching that do not depend on how it is computed. */
module PegLaws {
  import opened Peg

  function Shifted(r: Res, n: nat): Res {
    if r.Fail? then Fail else r.(pos := r.pos + n)
  }

  lemma LitShift(front: string, data: string, text: string, pos: nat)
    ensures LitAt(front + data, text, |front| + pos) == LitAt(data, text, pos)
  {
    if pos + |text| <= |data| {
      assert (front + data)[|front| + pos..|front| + pos + |text|] == data[pos..pos + |text|];
    }
  }

  lemma ShiftLeaf(g: Grammar, front: string, data: string, e: Expr, pos: nat, env: Env)
    requires WellFounded(g) && ExprOk(g, e) && pos <= |data| && (e.Lit? || e.Class?)
    ensures Sem(g, front + data, e, |front| + pos, env) == Shifted(Sem(g, data, e, pos, env), |front|)
  {
    if e.Lit? { LitShift(front, data, e.text, pos); }
  }

  /** An action sees the text it matched. */
  lemma {:induction false} ShiftAction(g: Grammar, front: string, data: string, e: Expr, pos: nat, env: Env)
    requires WellFounded(g) && ExprOk(g, e) && pos <= |data| && e.Action?
    ensures Sem(g, front + data, e, |front| + pos, env) == Shifted(Sem(g, data, e, pos, env), |front|)
    decreases |data| - pos, Level(g, e), Size(e), 0
  {
    Shift(g, front, data, e.body, pos, env);
    var r := Sem(g, data, e.body, pos, env);
    if r.Match? {
      assert (front + data)[|front| + pos..|front| + r.pos] == data[pos..r.pos];
    }
  }

  lemma {:induction false} ShiftInner(g: Grammar, front: string, data: string, e: Expr, pos: nat, env: Env)
    requires WellFounded(g) && ExprOk(g, e) && pos <= |data| && (e.Opt? || e.Label?)
    ensures Sem(g, front + data, e, |front| + pos, env) == Shifted(Sem(g, data, e, pos, env), |front|)
    decreases |data| - pos, Level(g, e), Size(e), 0
  {
    Shift(g, front, data, e.body, pos, map[]);
  }

  lemma {:induction false} ShiftRef(g: Grammar, front: string, data: string, e: Expr, pos: nat, env: Env)
    requires WellFounded(g) && ExprOk(g, e) && pos <= |data| && e.Ref?
    ensures Sem(g, front + data, e, |front| + pos, env) == Shifted(Sem(g, data, e, pos, env), |front|)
    decreases |data| - pos, Level(g, e), Size(e), 0
  {
    if e.rule < |g.rules| {
      assert RuleOk(g, e.rule);
      Shift(g, front, data, g.rules[e.rule], pos, map[]);
    }
  }

  lemma {:induction false} ShiftRepeat(g: Grammar, front: string, data: string, e: Expr, pos: nat, env: Env)
    requires WellFounded(g) && ExprOk(g, e) && pos <= |data| && (e.Star? || e.Plus?)
    ensures Sem(g, front + data, e, |front| + pos, env) == Shifted(Sem(g, data, e, pos, env), |front|)
    decreases |data| - pos, Level(g, e), Size(e), 0
  {
    ShiftStar(g, front, data, e.body, pos, []);
  }

  lemma {:induction false} ShiftMany(g: Grammar, front: string, data: string, e: Expr, pos: nat, env: Env)
    requires WellFounded(g) && ExprOk(g, e) && pos <= |data| && (e.Seq? || e.Choice?)
    ensures Sem(g, front + data, e, |front| + pos, env) == Shifted(Sem(g, data, e, pos, env), |front|)
    decreases |data| - pos, Level(g, e), Size(e), 0
  {
    if e.Seq? { ShiftSeq(g, front, data, e.items, pos, env, []); } else { ShiftChoice(g, front, data, e.items, pos); }
  }

  /** What an expression matches at a position depends only on the input from there on. */
  lemma {:induction false} Shift(g: Grammar, front: string, data: string, e: Expr, pos: nat, env: Env)
    requires WellFounded(g) && ExprOk(g, e) && pos <= |data|
    ensures Sem(g, front + data, e, |front| + pos, env) == Shifted(Sem(g, data, e, pos, env), |front|)
    decreases |data| - pos, Level(g, e), Size(e), 1
  {
    hide Sem, Shifted;
    match e
    case Lit(_) => ShiftLeaf(g, front, data, e, pos, env);
    case Class(_, _, _) => ShiftLeaf(g, front, data, e, pos, env);
    case Seq(_) => ShiftMany(g, front, data, e, pos, env);
    case Choice(_) => ShiftMany(g, front, data, e, pos, env);
    case Opt(_) => ShiftInner(g, front, data, e, pos, env);
    case Star(_) => ShiftRepeat(g, front, data, e, pos, env);
    case Plus(_) => ShiftRepeat(g, front, data, e, pos, env);
    case Ref(_) => ShiftRef(g, front, data, e, pos, env);
    case Label(_, _) => ShiftInner(g, front, data, e, pos, env);
    case Action(_, _) => ShiftAction(g, front, data, e, pos, env);
  }

  lemma {:induction false} ShiftSeq(g: Grammar, front: string, data: string, items: seq<Expr>, pos: nat, env: Env,
      vals: seq<Val>)
    requires WellFounded(g) && (forall i :: 0 <= i < |items| ==> ExprOk(g, items[i])) && pos <= |data|
    ensures SemSeq(g, front + data, items, |front| + pos, env, vals) ==
            Shifted(SemSeq(g, data, items, pos, env, vals), |front|)
    decreases |data| - pos, LevelSeq(g, items), SizeSeq(items)
  {
    if items != [] {
      Shift(g, front, data, items[0], pos, env);
      var r := Sem(g, data, items[0], pos, env);
      if r.Match? {
        ShiftSeq(g, front, data, items[1..], r.pos, r.env, vals + [r.val]);
      }
    }
  }

  lemma {:induction false} ShiftChoice(g: Grammar, front: string, data: string, items: seq<Expr>, pos: nat)
    requires WellFounded(g) && (forall i :: 0 <= i < |items| ==> ExprOk(g, items[i])) && pos <= |data|
    ensures SemChoice(g, front + data, items, |front| + pos) == Shifted(SemChoice(g, data, items, pos), |front|)
    decreases |data| - pos, LevelAll(g, items), SizeSeq(items)
  {
    if items != [] {
      Shift(g, front, data, items[0], pos, map[]);
      if Sem(g, data, items[0], pos, map[]).Fail? {
        ShiftChoice(g, front, data, items[1..], pos);
      }
    }
  }

  lemma {:induction false} ShiftStar(g: Grammar, front: string, data: string, b: Expr, pos: nat, vals: seq<Val>)
    requires WellFounded(g) && ExprOk(g, b) && !Nullable(g, b) && pos <= |data|
    ensures var (p, vs) := SemStar(g, data, b, pos, vals);
            SemStar(g, front + data, b, |front| + pos, vals) == (|front| + p, vs)
    decreases |data| - pos, Level(g, b), Size(b) + 1
  {
    Shift(g, front, data, b, pos, map[]);
    var r := Sem(g, data, b, pos, map[]);
    if r.Match? {
      ShiftStar(g, front, data, b, r.pos, vals + [r.val]);
    }
  }

  /** Repetition is greedy: it ends only where the body no longer matches. */
  lemma {:induction false} StarStops(g: Grammar, data: string, b: Expr, pos: nat, vals: seq<Val>)
    requires WellFounded(g) && ExprOk(g, b) && !Nullable(g, b) && pos <= |data|
    ensures Sem(g, data, b, SemStar(g, data, b, pos, vals).0, map[]).Fail?
    decreases |data| - pos
  {
    var r := Sem(g, data, b, pos, map[]);
    if r.Match? {
      StarStops(g, data, b, r.pos, vals + [r.val]);
    }
  }

  /** A choice is its first alternative that matches, whatever the later ones do. */
  lemma {:induction false} FirstWins(g: Grammar, data: string, items: seq<Expr>, pos: nat, k: nat)
    requires WellFounded(g) && (forall i :: 0 <= i < |items| ==> ExprOk(g, items[i])) && pos <= |data| && k < |items|
    requires forall i :: 0 <= i < k ==> Sem(g, data, items[i], pos, map[]).Fail?
    requires Sem(g, data, items[k], pos, map[]).Match?
    ensures SemChoice(g, data, items, pos) == Sem(g, data, items[k], pos, map[])
    decreases k
  {
    if k > 0 {
      FirstWins(g, data, items[1..], pos, k - 1);
    }
  }
}

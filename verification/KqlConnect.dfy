/** Implicit operators between the nodes of a query. */
module KqlConnect {

  const AND: string := "AND"
  const OR: string := "OR"
  const NOT: string := "NOT"

  /** An operand with its key, or an operator; `implicit` marks one that was inserted. */
  datatype Node = Operand(key: string, text: string) | Operator(value: string, implicit: bool)

  function LowerChar(c: char): char {
    if 'A' <= c <= 'Z' then 'a' + (c - 'A') else c
  }

  function ToLower(s: string): string {
    seq(|s|, i requires 0 <= i < |s| => LowerChar(s[i]))
  }

  predicate Joins(n: Node) {
    n.Operator? && (n.value == AND || n.value == OR)
  }

  predicate SameKey(a: Node, b: Node)
    requires a.Operand? && b.Operand?
  {
    ToLower(a.key) == ToLower(b.key) && ToLower(a.key) != ""
  }

  // ------------------------------------------------------------------ forward definition

  predicate HasOperand(nodes: seq<Node>) {
    exists i :: 0 <= i < |nodes| && nodes[i].Operand?
  }

  /** The first operand of a list that has one. */
  function Nearest(nodes: seq<Node>): (n: Node)
    requires HasOperand(nodes)
    ensures n.Operand?
  {
    if nodes[0].Operand? then nodes[0]
    else
      assert exists i :: 0 <= i < |nodes[1..]| && nodes[1..][i].Operand? by {
        var i :| 0 <= i < |nodes| && nodes[i].Operand?;
        assert nodes[1..][i - 1].Operand?;
      }
      Nearest(nodes[1..])
  }

  /** What goes between a node and the rest of the query. */
  function Glue(same: string, head: Node, rest: seq<Node>): seq<Node> {
    if head.Operator? || !HasOperand(rest) || Joins(rest[0]) then []
    else if SameKey(head, Nearest(rest)) && !(rest[0].Operator? && rest[0].value == NOT)
    then [Operator(same, true)] else [Operator(AND, true)]
  }

  /** The query with its implicit operators, read from the front. */
  function Connected(same: string, nodes: seq<Node>): seq<Node> {
    if nodes == [] then []
    else [nodes[0]] + Glue(same, nodes[0], nodes[1..]) + Connected(same, nodes[1..])
  }

  // ------------------------------------------------------------------ the loops

  /** The connector's decision, from the nearest operand and the operators before it. */
  method Connect(same: string, head: Node, neighbor: Node, operators: seq<Node>) returns (out: seq<Node>)
    requires neighbor.Operand? && forall i :: 0 <= i < |operators| ==> operators[i].Operator?
    ensures out == Glue(same, head, operators + [neighbor])
  {
    NearestAfter(operators, neighbor, []);
    assert operators + [neighbor] + [] == operators + [neighbor];
    assert operators != [] ==> (operators + [neighbor])[0] == operators[0];
    if head.Operator? { return []; }
    var value := AND;
    if ToLower(head.key) == ToLower(neighbor.key) && ToLower(head.key) != "" && ToLower(neighbor.key) != "" {
      value := same;
    }
    for i := 0 to |operators|
      invariant i > 0 ==> !Joins(operators[0])
      invariant value == if SameKey(head, neighbor) && !(i > 0 && operators[0].value == NOT) then same else AND
    {
      if i == 0 {
        if operators[i].value == OR || operators[i].value == AND { return []; }
        if operators[i].value == NOT { value := AND; }
      }
    }
    return [Operator(value, true)];
  }

  lemma {:induction false} NearestAfter(operators: seq<Node>, neighbor: Node, rest: seq<Node>)
    requires neighbor.Operand? && forall i :: 0 <= i < |operators| ==> operators[i].Operator?
    ensures HasOperand(operators + [neighbor] + rest) && Nearest(operators + [neighbor] + rest) == neighbor
    decreases |operators|
  {
    var all := operators + [neighbor] + rest;
    assert all[|operators|] == neighbor;
    if operators != [] {
      NearestAfter(operators[1..], neighbor, rest);
      assert all[1..] == operators[1..] + [neighbor] + rest;
    }
  }

  /** What to put between a node and the nodes after it, which are already connected. */
  method ConnectNode(same: string, head: Node, tail: seq<Node>) returns (out: seq<Node>)
    ensures out == Glue(same, head, tail)
  {
    var i := 0;
    while i < |tail| && tail[i].Operator?
      invariant 0 <= i <= |tail| && forall j :: 0 <= j < i ==> tail[j].Operator?
    {
      i := i + 1;
    }
    if i == |tail| { return []; }
    out := Connect(same, head, tail[i], tail[..i]);
    NearestAfter(tail[..i], tail[i], []);
    NearestAfter(tail[..i], tail[i], tail[i + 1..]);
    assert tail[..i] + [tail[i]] + [] == tail[..i] + [tail[i]];
    assert tail == tail[..i] + [tail[i]] + tail[i + 1..];
  }

  lemma Prepend(same: string, head: Node, tail: seq<Node>)
    ensures var out := Connected(same, tail);
            Connected(same, [head] + tail) == [head] + (Glue(same, head, out) + out)
  {
    hide Glue;
    GlueSees(same, head, tail);
    assert ([head] + tail)[1..] == tail;
  }

  /** Connecting from the back, with the connected tail as context, is connecting from
      the front with the plain one. */
  method ConnectNodes(same: string, nodes: seq<Node>) returns (out: seq<Node>)
    ensures out == Connected(same, nodes)
  {
    out := [];
    assert out == Connected(same, []);
    hide Connected, Glue;
    for i := 0 to |nodes|
      invariant out == Connected(same, nodes[|nodes| - i..])
    {
      var ri := |nodes| - 1 - i;
      var head := nodes[ri];
      ghost var tail := nodes[ri + 1..];
      var connection := ConnectNode(same, head, out);
      Prepend(same, head, tail);
      assert nodes[ri..] == [head] + tail;
      out := [head] + (connection + out);
    }
  }

  // ------------------------------------------------------------------ laws

  lemma {:induction false} NearestConnected(same: string, nodes: seq<Node>)
    ensures HasOperand(Connected(same, nodes)) <==> HasOperand(nodes)
    ensures HasOperand(nodes) ==> Nearest(Connected(same, nodes)) == Nearest(nodes)
    ensures nodes != [] ==> Connected(same, nodes) != [] && Connected(same, nodes)[0] == nodes[0]
    decreases |nodes|
  {
    if nodes != [] {
      var out := Connected(same, nodes);
      NearestConnected(same, nodes[1..]);
      if nodes[0].Operand? {
        assert out[0].Operand?;
      } else {
        assert out == [nodes[0]] + Connected(same, nodes[1..]);
        assert out[1..] == Connected(same, nodes[1..]);
        HasOperandTail(out);
        HasOperandTail(nodes);
      }
    }
  }

  lemma HasOperandTail(nodes: seq<Node>)
    requires nodes != [] && nodes[0].Operator?
    ensures HasOperand(nodes) <==> HasOperand(nodes[1..])
  {
    if HasOperand(nodes) {
      var i :| 0 <= i < |nodes| && nodes[i].Operand?;
      assert nodes[1..][i - 1].Operand?;
    }
    if HasOperand(nodes[1..]) {
      var i :| 0 <= i < |nodes[1..]| && nodes[1..][i].Operand?;
      assert nodes[i + 1].Operand?;
    }
  }

  lemma GlueSees(same: string, head: Node, tail: seq<Node>)
    ensures Glue(same, head, Connected(same, tail)) == Glue(same, head, tail)
  {
    NearestConnected(same, tail);
  }

  /** The nodes that were not inserted. */
  function Erased(nodes: seq<Node>): seq<Node> {
    if nodes == [] then []
    else Shown(nodes[0]) + Erased(nodes[1..])
  }

  function Shown(n: Node): seq<Node> {
    if n.Operator? && n.implicit then [] else [n]
  }

  lemma {:induction false} ErasedAppend(a: seq<Node>, b: seq<Node>)
    ensures Erased(a + b) == Erased(a) + Erased(b)
    decreases |a|
  {
    if a == [] {
      assert a + b == b;
    } else {
      hide Shown;
      ErasedAppend(a[1..], b);
      assert (a + b)[1..] == a[1..] + b && (a + b)[0] == a[0];
      assert Shown(a[0]) + (Erased(a[1..]) + Erased(b)) == (Shown(a[0]) + Erased(a[1..])) + Erased(b);
    }
  }

  /** Erasing the inserted operators gives back the query. */
  lemma {:induction false} EraseUndoes(same: string, nodes: seq<Node>)
    requires Erased(nodes) == nodes
    ensures Erased(Connected(same, nodes)) == nodes
    decreases |nodes|
  {
    if nodes != [] {
      ErasedHead(nodes);
      EraseUndoes(same, nodes[1..]);
      var glue := Glue(same, nodes[0], nodes[1..]);
      ErasedAppend([nodes[0]] + glue, Connected(same, nodes[1..]));
      ErasedAppend([nodes[0]], glue);
      assert Erased(glue) == [];
      assert Erased([nodes[0]]) == [nodes[0]];
    }
  }

  lemma {:induction false} ErasedShorter(nodes: seq<Node>)
    ensures |Erased(nodes)| <= |nodes|
    decreases |nodes|
  {
    if nodes != [] { ErasedShorter(nodes[1..]); }
  }

  lemma ErasedHead(nodes: seq<Node>)
    requires nodes != [] && Erased(nodes) == nodes
    ensures Erased(nodes[1..]) == nodes[1..] && !(nodes[0].Operator? && nodes[0].implicit)
  {
    ErasedShorter(nodes[1..]);
    assert !(nodes[0].Operator? && nodes[0].implicit);
    assert ([nodes[0]] + Erased(nodes[1..]))[1..] == Erased(nodes[1..]);
  }

  /** Every operand with another after it is directly followed by AND or OR, so a second
      pass inserts nothing. */
  ghost predicate FullyJoined(nodes: seq<Node>) {
    forall i :: 0 <= i < |nodes| && nodes[i].Operand? && HasOperand(nodes[i + 1..]) ==> Joins(nodes[i + 1])
  }

  lemma JoinedCons(head: Node, rest: seq<Node>)
    requires FullyJoined(rest) && (head.Operand? && HasOperand(rest) ==> Joins(rest[0]))
    ensures FullyJoined([head] + rest)
  {
    var all := [head] + rest;
    forall i | 0 <= i < |all| && all[i].Operand? && HasOperand(all[i + 1..]) ensures Joins(all[i + 1]) {
      if i == 0 {
        assert all[1..] == rest;
      } else {
        assert all[i + 1..] == rest[i..];
        assert rest[i - 1].Operand? && rest[i - 1 + 1..] == rest[i..];
      }
    }
  }

  lemma {:induction false} ConnectedJoins(same: string, nodes: seq<Node>)
    requires same == AND || same == OR
    ensures FullyJoined(Connected(same, nodes))
    decreases |nodes|
  {
    if nodes != [] {
      var head, rest := nodes[0], nodes[1..];
      var tail, glue := Connected(same, rest), Glue(same, nodes[0], nodes[1..]);
      ConnectedJoins(same, rest);
      NearestConnected(same, rest);
      if glue != [] {
        JoinedCons(glue[0], tail);
        JoinedCons(head, [glue[0]] + tail);
        assert Connected(same, nodes) == [head] + ([glue[0]] + tail);
      } else {
        JoinedCons(head, tail);
        assert Connected(same, nodes) == [head] + tail;
      }
    }
  }

  lemma {:induction false} JoinedUnchanged(same: string, nodes: seq<Node>)
    requires FullyJoined(nodes)
    ensures Connected(same, nodes) == nodes
    decreases |nodes|
  {
    if nodes != [] {
      assert FullyJoined(nodes[1..]) by {
        forall i | 0 <= i < |nodes[1..]| && nodes[1..][i].Operand? && HasOperand(nodes[1..][i + 1..])
          ensures Joins(nodes[1..][i + 1])
        {
          assert nodes[1..][i + 1..] == nodes[i + 2..];
          assert nodes[i + 1].Operand?;
        }
      }
      JoinedUnchanged(same, nodes[1..]);
      assert nodes[0 + 1..] == nodes[1..];
    }
  }

  /** A second pass changes nothing. */
  lemma ConnectTwice(same: string, nodes: seq<Node>)
    requires same == AND || same == OR
    ensures Connected(same, Connected(same, nodes)) == Connected(same, nodes)
  {
    ConnectedJoins(same, nodes);
    JoinedUnchanged(same, Connected(same, nodes));
  }

  /** The operator at `i` stands between an operand and the next one; it is `same`
      exactly when both have the same non-empty key and no NOT follows it. */
  ghost predicate WellInserted(same: string, out: seq<Node>, i: int) {
    && 0 < i < |out| - 1 && out[i].Operator? && out[i - 1].Operand? && HasOperand(out[i + 1..])
    && (out[i].value == same || out[i].value == AND)
    && (out[i].value == same <==>
          SameKey(out[i - 1], Nearest(out[i + 1..])) && !(out[i + 1].Operator? && out[i + 1].value == NOT))
  }

  lemma InsertedShift(same: string, front: seq<Node>, out: seq<Node>, i: int)
    requires WellInserted(same, out, i)
    ensures WellInserted(same, front + out, |front| + i)
  {
    hide HasOperand, Nearest, SameKey;
    assert (front + out)[|front| + i + 1..] == out[i + 1..];
  }

  lemma InsertedHere(same: string, head: Node, rest: seq<Node>)
    requires Glue(same, head, rest) != [] && same != AND
    ensures WellInserted(same, [head] + Glue(same, head, rest) + Connected(same, rest), 1)
  {
    hide SameKey, Nearest, HasOperand;
    var out := [head] + Glue(same, head, rest) + Connected(same, rest);
    NearestConnected(same, rest);
    HasOne(rest);
    assert out[2..] == Connected(same, rest);
  }

  lemma HasOne(nodes: seq<Node>)
    requires HasOperand(nodes)
    ensures nodes != []
  {
  }

  /** Every operator in the result that was not in the query is where, and what, it
      should be. */
  lemma {:induction false} InsertedWhere(same: string, nodes: seq<Node>, i: nat)
    requires Erased(nodes) == nodes && same != AND
    requires i < |Connected(same, nodes)| && Connected(same, nodes)[i].Operator? && Connected(same, nodes)[i].implicit
    ensures WellInserted(same, Connected(same, nodes), i)
    decreases |nodes|
  {
    hide WellInserted, HasOperand, Nearest, SameKey;
    var head, rest := nodes[0], nodes[1..];
    var glue := Glue(same, head, rest);
    ErasedHead(nodes);
    if glue != [] && i == 1 {
      InsertedHere(same, head, rest);
    } else {
      var front := [head] + glue;
      assert i >= |front|;
      InsertedWhere(same, rest, i - |front|);
      InsertedShift(same, front, Connected(same, rest), i - |front|);
    }
  }
}

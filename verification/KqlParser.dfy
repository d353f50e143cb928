/** Parsing a query. */
module KqlParser {
  import opened Peg
  import opened PegParser
  import opened KqlGrammar

  /** Parses a query from its start: the interpreter ends, and yields exactly the match
      that the grammar defines, with all its stacks as they were. */
  method ParseQuery(data: string) returns (v: Val, ok: bool, end: nat)
    ensures WellFounded(KQL)
    ensures match Sem(KQL, data, Body(AST), 0, map[])
            case Fail => !ok && end == 0
            case Match(p, val, _) => ok && end == p && v == val
    ensures ok ==> 0 < end <= |data|
  {
    KqlWellFounded();
    NodesFine(KQL, AST);
    var p := new Parser(KQL, data);
    v, ok := p.ParseRule(AST);
    end := p.pos;
  }
}

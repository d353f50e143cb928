/** The query grammar. A rule's number is its place in an order in which every rule
    begins only with earlier ones. */
module KqlGrammar {
  import opened Peg

  const CHAR := 0
  const STRING := 1
  const NUMBER := 2
  const DIGIT := 3
  const SPACE := 4
  const COLON := 5
  const EQUAL := 6
  const LESS := 7
  const LESS_EQUAL := 8
  const GREATER := 9
  const GREATER_EQUAL := 10
  const BOOL_AND := 11
  const BOOL_NOT := 12
  const BOOL_OR := 13
  const YEAR := 14
  const MONTH := 15
  const DAY := 16
  const HOUR := 17
  const MINUTE := 18
  const SECOND := 19
  const FULL_DATE := 20
  const FULL_TIME := 21
  const DATE_TIME := 22
  const NATURAL := 23
  const BOOLS := 24
  const PHRASE := 25
  const WORD := 26
  const FREE_TEXT := 27
  const YES_NO := 28
  const DATE_RESTRICTION := 29
  const NUMERIC := 30
  const TEXT_PROPERTY := 31
  const PROPERTY := 32
  const GROUP := 33
  const NODE := 34
  const NODES := 35
  const AST := 36
  const COUNT := 37

  function Digits(n: nat): Expr {
    Action(n, Seq([Ref(DIGIT), Ref(DIGIT)]))
  }

  function Range(a: char, b: char): Expr {
    Class("", [(a, b)], false)
  }

  function Except(chars: string): Expr {
    Class(chars, [], true)
  }

  function Assign(): Expr {
    Choice([Ref(COLON), Ref(EQUAL)])
  }

  function Key(): Expr {
    Label("k", Plus(Ref(CHAR)))
  }

  function Quote(): Expr {
    Opt(Lit("\""))
  }

  /** Characters, strings, numbers and operators. */
  function Tokens(n: nat): Expr {
    if n == CHAR then Action(n, Class(".", [('A', 'Z'), ('a', 'z')], false))
    else if n == STRING then Action(n, Seq([Lit("\""), Label("v", Star(Except("\""))), Lit("\"")]))
    else if n == NUMBER then Action(n, Seq([Plus(Range('0', '9')), Opt(Seq([Lit("."), Plus(Range('0', '9'))]))]))
    else if n == DIGIT then Action(n, Range('0', '9'))
    else if n == SPACE then Action(n, Star(Class(" \t", [], false)))
    else if n == COLON then Action(n, Lit(":"))
    else if n == EQUAL then Action(n, Lit("="))
    else if n == LESS then Action(n, Lit("<"))
    else if n == LESS_EQUAL then Action(n, Lit("<="))
    else if n == GREATER then Action(n, Lit(">"))
    else if n == GREATER_EQUAL then Action(n, Lit(">="))
    else if n == BOOL_AND then Action(n, Choice([Lit("AND"), Lit("+")]))
    else if n == BOOL_NOT then Action(n, Choice([Lit("NOT"), Lit("-")]))
    else Action(n, Lit("OR"))
  }

  /** Dates and times. */
  function Times(n: nat): Expr {
    if n == YEAR then Action(n, Seq([Ref(DIGIT), Ref(DIGIT), Ref(DIGIT), Ref(DIGIT)]))
    else if n < FULL_DATE then Digits(n)
    else if n == FULL_DATE then Action(n, Seq([Ref(YEAR), Lit("-"), Ref(MONTH), Lit("-"), Ref(DAY)]))
    else if n == FULL_TIME then
      Action(n, Seq([Ref(HOUR), Lit(":"), Ref(MINUTE), Lit(":"), Ref(SECOND),
                     Opt(Seq([Lit("."), Plus(Ref(DIGIT))])),
                     Choice([Lit("Z"), Seq([Choice([Lit("+"), Lit("-")]), Ref(HOUR), Lit(":"), Ref(MINUTE)])])]))
    else if n == DATE_TIME then Action(n, Seq([Ref(FULL_DATE), Lit("T"), Ref(FULL_TIME)]))
    else
      Choice([Lit("today"), Lit("yesterday"), Lit("this week"), Lit("last week"), Lit("last 7 days"),
              Lit("this month"), Lit("last month"), Lit("last 30 days"), Lit("this year"), Action(n, Lit("last year"))])
  }

  /** The nodes of a query. */
  function Nodes(n: nat): Expr {
    if n == BOOLS then Choice([Ref(BOOL_AND), Ref(BOOL_NOT), Ref(BOOL_OR)])
    else if n == PHRASE then
      Action(n, Seq([Opt(Ref(COLON)), Ref(SPACE), Label("v", Ref(STRING)), Ref(SPACE), Opt(Ref(COLON))]))
    else if n == WORD then
      Action(n, Seq([Opt(Ref(COLON)), Ref(SPACE), Label("v", Plus(Except(" :()"))), Ref(SPACE), Opt(Ref(COLON))]))
    else if n == FREE_TEXT then Choice([Ref(PHRASE), Ref(WORD)])
    else if n == YES_NO then Action(n, Seq([Key(), Assign(), Label("v", Choice([Lit("true"), Lit("false")]))]))
    else if n == DATE_RESTRICTION then
      Choice([
        Action(n, Seq([Key(),
                       Label("o", Choice([Ref(GREATER_EQUAL), Ref(LESS_EQUAL), Ref(GREATER), Ref(LESS), Ref(EQUAL),
                           Ref(COLON)])),
                       Quote(), Label("v", Choice([Ref(DATE_TIME), Ref(FULL_DATE), Ref(FULL_TIME)])), Quote()])),
        Action(n + COUNT, Seq([Key(), Choice([Ref(EQUAL), Ref(COLON)]), Quote(), Label("v", Ref(NATURAL)), Quote()]))])
    else if n == NUMERIC then
      Action(n, Seq([Key(), Label("o", Choice([Ref(GREATER_EQUAL), Ref(LESS_EQUAL), Ref(GREATER), Ref(LESS)])),
          Label("v", Ref(NUMBER))]))
    else if n == TEXT_PROPERTY then
      Action(n, Seq([Key(), Assign(), Label("v", Choice([Ref(STRING), Plus(Except(" ()"))]))]))
    else if n == PROPERTY then Choice([Ref(YES_NO), Ref(DATE_RESTRICTION), Ref(NUMERIC), Ref(TEXT_PROPERTY)])
    else if n == GROUP then
      Action(n, Seq([Label("k", Opt(Plus(Ref(CHAR)))), Opt(Assign()), Lit("("), Label("v", Ref(NODES)), Lit(")")]))
    else if n == NODE then Choice([Ref(GROUP), Ref(PROPERTY), Ref(BOOLS), Ref(FREE_TEXT)])
    else if n == NODES then Plus(Seq([Ref(SPACE), Ref(NODE)]))
    else Action(n, Label("n", Ref(NODES)))
  }

  function Body(n: nat): Expr {
    if n < YEAR then Tokens(n) else if n < BOOLS then Times(n) else Nodes(n)
  }

  const KQL: Grammar := Grammar(seq(COUNT, i requires 0 <= i < COUNT => Body(i)), {SPACE})

  // ------------------------------------------------------------------ the grammar is well-founded

  predicate Sound(g: Grammar, e: Expr) {
    ExprOk(g, e)
  }

  /** The expression repeats nothing empty and begins only with rules before `n`. */
  predicate Loose(g: Grammar, e: Expr, n: nat) {
    ExprOk(g, e) && Starts(g, e, n)
  }

  /** It also consumes something. */
  predicate Fine(g: Grammar, e: Expr, n: nat) {
    ExprOk(g, e) && Starts(g, e, n) && !Nullable(g, e)
  }

  predicate AllSound(g: Grammar, items: seq<Expr>) {
    forall i :: 0 <= i < |items| ==> Sound(g, items[i])
  }

  lemma SoundFacts(g: Grammar)
    ensures forall text {:trigger Sound(g, Lit(text))} :: Sound(g, Lit(text))
    ensures forall c, r, v {:trigger Sound(g, Class(c, r, v))} :: Sound(g, Class(c, r, v))
    ensures forall k {:trigger Sound(g, Ref(k))} :: Sound(g, Ref(k))
    ensures forall b {:trigger Sound(g, Opt(b))} :: Sound(g, b) ==> Sound(g, Opt(b))
    ensures forall b {:trigger Sound(g, Star(b))} :: Sound(g, b) && Fine(g, b, COUNT) ==> Sound(g, Star(b))
    ensures forall b {:trigger Sound(g, Plus(b))} :: Sound(g, b) && Fine(g, b, COUNT) ==> Sound(g, Plus(b))
    ensures forall l, b {:trigger Sound(g, Label(l, b))} :: Sound(g, b) ==> Sound(g, Label(l, b))
    ensures forall c, b {:trigger Sound(g, Action(c, b))} :: Sound(g, b) ==> Sound(g, Action(c, b))
    ensures forall items {:trigger Sound(g, Seq(items))} :: AllSound(g, items) ==> Sound(g, Seq(items))
    ensures forall items {:trigger Sound(g, Choice(items))} :: AllSound(g, items) ==> Sound(g, Choice(items))
  {
  }

  lemma LooseFacts(g: Grammar)
    ensures forall e, n {:trigger Loose(g, e, n)} :: Fine(g, e, n) ==> Loose(g, e, n)
    ensures forall k, n {:trigger Loose(g, Ref(k), n)} :: k < n ==> Loose(g, Ref(k), n)
    ensures forall b, n {:trigger Loose(g, Opt(b), n)} :: Loose(g, b, n) ==> Loose(g, Opt(b), n)
    ensures forall b, n {:trigger Loose(g, Star(b), n)} :: Fine(g, b, n) ==> Loose(g, Star(b), n)
    ensures forall l, b, n {:trigger Loose(g, Label(l, b), n)} :: Loose(g, b, n) ==> Loose(g, Label(l, b), n)
    ensures forall c, b, n {:trigger Loose(g, Action(c, b), n)} :: Loose(g, b, n) ==> Loose(g, Action(c, b), n)
  {
  }

  lemma FineFacts(g: Grammar)
    ensures forall text, n {:trigger Fine(g, Lit(text), n)} :: text != "" ==> Fine(g, Lit(text), n)
    ensures forall c, r, v, n {:trigger Fine(g, Class(c, r, v), n)} :: Fine(g, Class(c, r, v), n)
    ensures forall k, n {:trigger Fine(g, Ref(k), n)} :: k < n && k !in g.empty ==> Fine(g, Ref(k), n)
    ensures forall b, n {:trigger Fine(g, Plus(b), n)} :: Fine(g, b, n) ==> Fine(g, Plus(b), n)
    ensures forall l, b, n {:trigger Fine(g, Label(l, b), n)} :: Fine(g, b, n) ==> Fine(g, Label(l, b), n)
    ensures forall c, b, n {:trigger Fine(g, Action(c, b), n)} :: Fine(g, b, n) ==> Fine(g, Action(c, b), n)
    ensures forall items, n {:trigger Fine(g, Choice(items), n)} ::
              (forall i :: 0 <= i < |items| ==> Fine(g, items[i], n)) ==> Fine(g, Choice(items), n)
  {
  }

  lemma SeqFacts(g: Grammar)
    ensures forall items, n {:trigger Fine(g, Seq(items), n)} ::
              AllSound(g, items) && |items| > 0 && Fine(g, items[0], n) ==> Fine(g, Seq(items), n)
    ensures forall items, n {:trigger Fine(g, Seq(items), n)} ::
              AllSound(g, items) && |items| > 1 && Loose(g, items[0], n) && Fine(g, items[1], n) ==>
                  Fine(g, Seq(items), n)
    ensures forall items, n {:trigger Fine(g, Seq(items), n)} ::
              AllSound(g, items) && |items| > 2 && Loose(g, items[0], n) && Loose(g, items[1], n) ==>
                Fine(g, items[2], n) ==> Fine(g, Seq(items), n)
  {
    forall items, n | AllSound(g, items) && |items| > 0 && Fine(g, items[0], n) ensures Fine(g, Seq(items), n) {
      FineSeq(g, items, n, 0);
    }
    forall items, n | AllSound(g, items) && |items| > 1 && Loose(g, items[0], n) && Fine(g, items[1], n)
      ensures Fine(g, Seq(items), n)
    {
      FineSeq(g, items, n, 1);
    }
    forall items, n | AllSound(g, items) && |items| > 2 && Loose(g, items[0], n) && Loose(g, items[1], n) &&
        Fine(g, items[2], n)
      ensures Fine(g, Seq(items), n)
    {
      FineSeq(g, items, n, 2);
    }
  }

  /** A sequence is fine if an item is, and those before it are loose. */
  lemma FineSeq(g: Grammar, items: seq<Expr>, n: nat, k: nat)
    requires AllSound(g, items) && k < |items| && Fine(g, items[k], n)
    requires forall i :: 0 <= i < k ==> Loose(g, items[i], n)
    ensures Fine(g, Seq(items), n)
  {
    forall i | 0 <= i < |items| && Reaches(g, items, i) ensures Starts(g, items[i], n) {
      Passed(g, items, i, k);
    }
    forall i | 0 <= i < |items| ensures ExprOk(g, items[i]) {
      assert Sound(g, items[i]);
    }
  }

  lemma Passed(g: Grammar, items: seq<Expr>, i: nat, k: nat)
    requires Reaches(g, items, i) && k < |items|
    ensures k < i ==> Nullable(g, items[k])
  {
  }

  lemma TokensFine(g: Grammar, n: nat)
    requires g.empty == {SPACE} && n < YEAR && n != SPACE
    ensures Fine(g, Body(n), n)
  {
    hide Sound, Loose, Fine;
    SoundFacts(g);
    LooseFacts(g);
    FineFacts(g);
    SeqFacts(g);
  }

  lemma TimesFine(g: Grammar, n: nat)
    requires g.empty == {SPACE} && YEAR <= n < BOOLS
    ensures Fine(g, Body(n), n)
  {
    hide Sound, Loose, Fine;
    SoundFacts(g);
    LooseFacts(g);
    FineFacts(g);
    SeqFacts(g);
  }

  lemma NodesFine(g: Grammar, n: nat)
    requires g.empty == {SPACE} && BOOLS <= n < COUNT
    ensures Fine(g, Body(n), n)
  {
    hide Sound, Loose, Fine;
    SoundFacts(g);
    LooseFacts(g);
    FineFacts(g);
    SeqFacts(g);
  }

  lemma SpaceLoose(g: Grammar, n: nat)
    requires n == SPACE
    ensures Loose(g, Body(n), n)
  {
    hide Sound, Loose, Fine;
    LooseFacts(g);
    FineFacts(g);
  }

  lemma SpaceOk(n: nat)
    requires n == SPACE
    ensures RuleOk(KQL, n)
  {
    SpaceLoose(KQL, n);
    StartsLevel(KQL, Body(n), n);
  }

  lemma FineRule(n: nat)
    requires n < COUNT && Fine(KQL, Body(n), n)
    ensures RuleOk(KQL, n)
  {
    StartsLevel(KQL, Body(n), n);
  }

  /** No rule of the query grammar can come back to itself without consuming input, and
      nothing empty is repeated, so parsing ends on every input. */
  lemma KqlWellFounded()
    ensures WellFounded(KQL)
  {
    forall n | 0 <= n < COUNT ensures RuleOk(KQL, n) {
      if n == SPACE {
        SpaceOk(n);
      } else {
        if n < YEAR { TokensFine(KQL, n); } else if n < BOOLS { TimesFine(KQL, n); } else { NodesFine(KQL, n); }
        FineRule(n);
      }
    }
  }
}

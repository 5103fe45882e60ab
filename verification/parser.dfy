/**
 * The recursive-descent parser of the Micro-language. One function per
 * nonterminal; each takes the index `i` of the current (already pulled)
 * lookahead token and returns the index of the next lookahead, the subtree
 * and the symbol-table fragment it declares. Pulling past the last token is
 * `OutOfTokens` (the generator's StopIteration).
 */
module Parser {
  import opened Wrappers
  import opened Syntax
  import opened Shapes

  datatype ParseError =
    | SyntaxError(msg: Complaint, at: Option<Token>)  // ParserError; `at` supplies " - line_num: L col: C"
    | OutOfTokens                                     // StopIteration from next(G)
    | UnpackNone                                      // TypeError: TYPE returned None

  /** What a production returns: next lookahead index, subtree, symbol fragment. */
  datatype Parsed = Parsed(next: nat, tree: Node, syms: SymTab)

  /** What a repetition returns: next lookahead index, the nodes it appended, symbol fragment. */
  datatype Parts = Parts(next: nat, nodes: seq<Node>, syms: SymTab)

  /** What TYPE returns: next lookahead index, the TYPE subtree and the type it names. */
  datatype Typed = Typed(next: nat, tree: Node, vtype: VarType)

  type PResult = Result<Parsed, ParseError>

  /** The syntax errors the parser reports; `Text` gives each one's message. */
  datatype Complaint =
    | EndMissing
    | Trailing
    | NoBeginAfterFunctions
    | NoEnd
    | BadProgramStart
    | NoSemicolon
    | BadStatement
    | BadSign
    | UnclosedParen
    | BadFact2
    | BadIdent
    | NoThen
    | FunctionDef
    | FunctionType
    | FunctionId
    | FunctionLParen
    | FunctionRParen
    | FunctionColon
    | ParamType
    | ReadLParen
    | ReadRParen
    | WriteLParen
    | WriteRParen
    | CallLParen
    | CallRParen
    | CallSemicolon
    | ReturnSemicolon
    | AssignOp

  function Text(c: Complaint): string {
    match c
    case EndMissing => "Syntax Error: Program ends before END token"
    case Trailing => "Syntax Error: Tokens exist after END keyword."
    case NoBeginAfterFunctions => "Syntax error: BEGIN keyword doesn't follow function declarations."
    case NoEnd => "Syntax Error: Statement list complete, but no END token to signal end of program"
    case BadProgramStart => "Syntax Error: Program doesn't begin with BEGIN or function declaration"
    case NoSemicolon => "Syntax Error: Statement doesn't end with a semicolon"
    case BadStatement => "Syntax Error: Inappproriate token to start a statement"
    case BadSign => "Syntax Error: Invalid sign for number."
    case UnclosedParen => "Syntax Error: Expression not followed by matching ')' (in primary function)"
    case BadFact2 => "Syntax Error: Inappropriate starting token in FACT2"
    case BadIdent => "Syntax Error: Invalid identifier"
    case NoThen => "Syntax Error: If must be followed with then"
    case FunctionDef => "Syntax Error: Function declaration does not begin with def keyword"
    case FunctionType => "Syntax Error: Function declaration does not have a return type "
    case FunctionId => "Syntax Error: Function does not have an identifier "
    case FunctionLParen => "Syntax Error: Function is missing opening paren for parm list "
    case FunctionRParen => "Syntax Error: Function param list missing closing paren "
    case FunctionColon => "Syntax Error: Function declaration must be followed by a colon "
    case ParamType => "Syntax Error: Parameter must have an associated type."
    case ReadLParen => "Syntax Error: READ token is not followed by a ("
    case ReadRParen => "Syntax Error: Missing closing ) in READ statement"
    case WriteLParen => "Syntax Error: WRITE token is not followed by a ("
    case WriteRParen => "Syntax Error: Missing closing ) in WRITE statement"
    case CallLParen => "Syntax Error: Function call missing opening param to arg list"
    case CallRParen => "Syntax Error: Function call missing closing param to arg list"
    case CallSemicolon => "Syntax Error: Function call doesn't end with a semicolon "
    case ReturnSemicolon => "Syntax Error: Return statement must end with a semicolon."
    case AssignOp => "Syntax Error: Assignment operator does not follow identifier in assignment statement"
  }

  /** Keywords at which STATEMENT_LIST stops. */
  const ListEnders: set<string> := {"END", "DEF", "BEGIN"}

  /** First children of the statements that must end in a semicolon. */
  const SemicolonStatements: set<string> := {"ASSIGNMENT", "READ", "WRITE", "DECLARATION", "FUNC", "RETURN"}

  /** Token names that start an ARGLIST's expression list. */
  const ArgStarts: set<string> := {"NOT", "MINUS", "ID", "INTLIT", "BOOLLIT", "STRINGLIT", "LPAREN"}

  function Fail<T>(msg: Complaint, t: Token): Result<T, ParseError> {
    Err(SyntaxError(msg, Some(t)))
  }

  /** `next(G)`: the index of the following token, or StopIteration. */
  function Advance(ts: seq<Token>, i: nat): (r: Result<nat, ParseError>)
    ensures r.Ok? <==> i + 1 < |ts|
    ensures r.Ok? ==> r.value == i + 1
    ensures r.Err? ==> r.error == OutOfTokens
  {
    if i + 1 < |ts| then Ok(i + 1) else Err(OutOfTokens)
  }

  // ---------------------------------------------------------------- parser

  /**
   * `parser`: PROGRAM on the first token, then the stream must be exhausted.
   * A StopIteration anywhere becomes "Program ends before END token".
   */
  function Parse(ts: seq<Token>): (r: Result<(Node, SymTab), ParseError>)
    ensures |ts| == 0 ==> r == Err(SyntaxError(EndMissing, None))
    ensures r.Ok? ==> ts[|ts| - 1].name == "END" && IsProgram(r.value.0)
    ensures r.Ok? ==> r.value.1 == Bindings(r.value.0)
  {
    if |ts| == 0 then Err(SyntaxError(EndMissing, None))
    else Finish(ts, Program(ts, 0))
  }

  /**
   * What `parser` makes of PROGRAM's outcome: a StopIteration is the missing
   * END, a PROGRAM that stops before the last token leaves tokens after END,
   * and any other error propagates unchanged.
   */
  function Finish(ts: seq<Token>, p: PResult): (r: Result<(Node, SymTab), ParseError>)
    requires p.Ok? ==> p.value.next < |ts|
    ensures r.Ok? <==> p.Ok? && p.value.next == |ts| - 1
    ensures p.Ok? && p.value.next < |ts| - 1 ==> r == Err(SyntaxError(Trailing, None))
    ensures p == Err(OutOfTokens) ==> r == Err(SyntaxError(EndMissing, None))
    ensures p.Err? && p.error != OutOfTokens ==> r == Err(p.error)
    ensures r.Err? ==> r.error != OutOfTokens
    ensures r.Ok? ==> r.value == (p.value.tree, p.value.syms)
  {
    match p
    case Err(OutOfTokens) => Err(SyntaxError(EndMissing, None))
    case Err(e) => Err(e)
    case Ok(q) =>
      if q.next + 1 < |ts| then Err(SyntaxError(Trailing, None))
      else Ok((q.tree, q.syms))
  }

  /** The node PROGRAM builds: FUNCTION LIST, BEGIN, STATEMENT LIST, END. */
  predicate IsProgram(n: Node) {
    && n.tag == "PROGRAM" && |n.children| == 4
    && n.children[0].tag == "FUNCTION LIST"
    && n.children[1] == Leaf("BEGIN")
    && IsStatementList(n.children[2])
    && n.children[3] == Leaf("END")
  }

  predicate IsStatementList(n: Node) {
    && n.tag == "STATEMENT LIST" && |n.children| >= 1
    && forall k | 0 <= k < |n.children| :: n.children[k].tag == "STATEMENT"
  }

  // ---------------------------------------------------------------- PROGRAM

  function Program(ts: seq<Token>, i: nat): (r: PResult)
    requires i < |ts|
    decreases |ts| - i, 23
    ensures r.Ok? ==> i < r.value.next < |ts|
    ensures ts[i].name != "DEF" && ts[i].name != "BEGIN" ==> r == Fail(BadProgramStart, ts[i])
    ensures r.Ok? ==> ts[r.value.next].name == "END" && IsProgram(r.value.tree)
    ensures r.Ok? && ts[i].name == "BEGIN" ==>
      r.value.tree.children[0] == Node("FUNCTION LIST", None, [Leaf("LABMDA")])
    ensures r.Ok? ==> r.value.syms == Bindings(r.value.tree)
  {
    var cur := ts[i];
    if cur.name == "DEF" then
      var fl :- FunctionList(ts, i);
      if ts[fl.next].name != "BEGIN" then Fail(NoBeginAfterFunctions, ts[fl.next])
      else ProgramBody(ts, fl.next, fl.tree, fl.syms)
    else if cur.name == "BEGIN" then
      var fl := Node("FUNCTION LIST", None, [Leaf("LABMDA")]);
      BindingsOf1(Leaf("LABMDA"));
      ProgramBody(ts, i, fl, map[])
    else
      Fail(BadProgramStart, cur)
  }

  /**
   * The part both branches of PROGRAM share: BEGIN (already checked by the
   * caller), a STATEMENT LIST, and the END token, which is left unconsumed.
   */
  function ProgramBody(ts: seq<Token>, i: nat, fl: Node, flSyms: SymTab): (r: PResult)
    requires i < |ts| && fl.tag == "FUNCTION LIST" && flSyms == Bindings(fl)
    decreases |ts| - i, 22
    ensures r.Ok? ==> i < r.value.next < |ts| && ts[r.value.next].name == "END"
    ensures r.Ok? ==> IsProgram(r.value.tree) && r.value.tree.children[0] == fl
    ensures r.Ok? ==> r.value.syms == Bindings(r.value.tree)
  {
    var j :- Advance(ts, i);
    var sl :- StatementList(ts, j);
    if ts[sl.next].name != "END" then Fail(NoEnd, ts[sl.next])
    else Ok(ProgramNode(fl, flSyms, sl))
  }

  /** Assembles the PROGRAM node from its function list and statement list. */
  function ProgramNode(fl: Node, flSyms: SymTab, sl: Parsed): (r: Parsed)
    requires fl.tag == "FUNCTION LIST" && flSyms == Bindings(fl)
    requires IsStatementList(sl.tree) && sl.syms == Bindings(sl.tree)
    ensures r.next == sl.next && IsProgram(r.tree) && r.tree.children[0] == fl
    ensures r.syms == Bindings(r.tree)
  {
    ProgramBindings(fl, sl.tree);
    Parsed(sl.next, Node("PROGRAM", None, [fl, Leaf("BEGIN"), sl.tree, Leaf("END")]), flSyms + sl.syms)
  }

  lemma BindingsOf1(a: Node)
    ensures BindingsOf([a]) == Bindings(a)
  {
    assert [a][1..] == [];
  }

  lemma BindingsOf2(a: Node, b: Node)
    ensures BindingsOf([a, b]) == Bindings(a) + Bindings(b)
  {
    BindingsOfConcat([a], [b]);
    BindingsOf1(a);
    BindingsOf1(b);
    assert [a] + [b] == [a, b];
  }

  lemma BindingsOf3(a: Node, b: Node, c: Node)
    ensures BindingsOf([a, b, c]) == Bindings(a) + Bindings(b) + Bindings(c)
  {
    BindingsOfConcat([a, b], [c]);
    BindingsOf2(a, b);
    BindingsOf1(c);
    assert [a, b] + [c] == [a, b, c];
  }

  lemma BindingsOf4(a: Node, b: Node, c: Node, d: Node)
    ensures BindingsOf([a, b, c, d]) == Bindings(a) + Bindings(b) + Bindings(c) + Bindings(d)
  {
    BindingsOfConcat([a, b, c], [d]);
    BindingsOf3(a, b, c);
    BindingsOf1(d);
    assert [a, b, c] + [d] == [a, b, c, d];
  }

  lemma BindingsOfCons(a: Node, rest: seq<Node>)
    ensures BindingsOf([a] + rest) == Bindings(a) + BindingsOf(rest)
  {
    BindingsOfConcat([a], rest);
    BindingsOf1(a);
  }

  lemma BindingsOf5(a: Node, b: Node, c: Node, d: Node, e: Node)
    ensures BindingsOf([a, b, c, d, e])
         == Bindings(a) + Bindings(b) + Bindings(c) + Bindings(d) + Bindings(e)
  {
    BindingsOfConcat([a, b, c, d], [e]);
    BindingsOf4(a, b, c, d);
    BindingsOf1(e);
    assert [a, b, c, d] + [e] == [a, b, c, d, e];
  }

  lemma BindingsOf6(a: Node, b: Node, c: Node, d: Node, e: Node, f: Node)
    ensures BindingsOf([a, b, c, d, e, f])
         == Bindings(a) + Bindings(b) + Bindings(c) + Bindings(d) + Bindings(e) + Bindings(f)
  {
    BindingsOfConcat([a, b, c, d, e], [f]);
    BindingsOf5(a, b, c, d, e);
    BindingsOf1(f);
    assert [a, b, c, d, e] + [f] == [a, b, c, d, e, f];
  }

  /** A node built from several pieces whose bindings are all empty binds nothing. */
  lemma FreeCons2(a: Node, b: Node, rest: seq<Node>)
    requires Bindings(a) == map[] && Bindings(b) == map[] && BindingsOf(rest) == map[]
    ensures BindingsOf([a, b] + rest) == map[]
  {
    assert [a, b] + rest == [a] + ([b] + rest);
    BindingsOfCons(a, [b] + rest);
    BindingsOfCons(b, rest);
  }

  lemma StatementBindings(kids: seq<Node>)
    ensures Bindings(Node("STATEMENT", None, kids)) == BindingsOf(kids)
  {
  }

  lemma KeywordFirst1(k: string, a: Node)
    ensures BindingsOf([Leaf(k), a]) == Bindings(a)
  {
    BindingsOf2(Leaf(k), a);
    assert Bindings(Leaf(k)) == map[];
  }

  lemma KeywordFirst2(k: string, a: Node, b: Node)
    ensures BindingsOf([Leaf(k), a, b]) == Bindings(a) + Bindings(b)
  {
    BindingsOf3(Leaf(k), a, b);
    assert Bindings(Leaf(k)) == map[];
  }

  lemma KeywordBetween(a: Node, k: string, b: Node)
    ensures BindingsOf([a, Leaf(k), b]) == Bindings(a) + Bindings(b)
  {
    BindingsOf3(a, Leaf(k), b);
    assert Bindings(Leaf(k)) == map[];
  }

  lemma ProgramBindings(fl: Node, sl: Node)
    ensures Bindings(Node("PROGRAM", None, [fl, Leaf("BEGIN"), sl, Leaf("END")])) == Bindings(fl) + Bindings(sl)
  {
    BindingsOf4(fl, Leaf("BEGIN"), sl, Leaf("END"));
    assert Bindings(Leaf("BEGIN")) == map[] && Bindings(Leaf("END")) == map[];
  }

  // ---------------------------------------------------------------- functions

  function FunctionList(ts: seq<Token>, i: nat): (r: PResult)
    requires i < |ts|
    decreases |ts| - i, 21
    ensures r.Ok? ==> i <= r.value.next < |ts| && ts[r.value.next].name != "DEF"
    ensures r.Ok? ==> r.value.tree.tag == "FUNCTION LIST"
    ensures r.Ok? ==> forall k | 0 <= k < |r.value.tree.children| ::
                        IsFunctionDeclaration(r.value.tree.children[k])
    ensures r.Ok? ==> r.value.syms == Bindings(r.value.tree)
  {
    var ds :- FunctionDecls(ts, i);
    Ok(Parsed(ds.next, Node("FUNCTION LIST", None, ds.nodes), ds.syms))
  }

  /** The `while current.name == "DEF"` loop of FUNCTION_LIST. */
  function FunctionDecls(ts: seq<Token>, i: nat): (r: Result<Parts, ParseError>)
    requires i < |ts|
    decreases |ts| - i, 20
    ensures r.Ok? ==> i <= r.value.next < |ts| && ts[r.value.next].name != "DEF"
    ensures r.Ok? ==> forall k | 0 <= k < |r.value.nodes| :: IsFunctionDeclaration(r.value.nodes[k])
    ensures r.Ok? ==> r.value.syms == BindingsOf(r.value.nodes)
  {
    if ts[i].name != "DEF" then Ok(Parts(i, [], map[]))
    else
      var d :- FunctionDeclaration(ts, i);
      var rest :- FunctionDecls(ts, d.next);
      BindingsOfCons(d.tree, rest.nodes);
      Ok(Parts(rest.next, [d.tree] + rest.nodes, d.syms + rest.syms))
  }

  /** DEF TYPE IDENT ( PARAM LIST ) : STATEMENT LIST */
  predicate IsFunctionDeclaration(n: Node) {
    && n.tag == "FUNCTION DECLARATION" && |n.children| == 5
    && n.children[0] == Leaf("DEF")
    && TypeNodeType(n.children[1]).Some?
    && IsIdent(n.children[2])
    && n.children[3].tag == "PARAM LIST"
    && IsStatementList(n.children[4])
  }

  function FunctionDeclaration(ts: seq<Token>, i: nat): (r: PResult)
    requires i < |ts|
    decreases |ts| - i, 19
    ensures r.Ok? ==> i < r.value.next < |ts|
    ensures ts[i].name != "DEF" ==> r == Fail(FunctionDef, ts[i])
    ensures r.Ok? ==> IsFunctionDeclaration(r.value.tree) && ts[r.value.next].name in ListEnders
    ensures r.Ok? ==> r.value.syms == Bindings(r.value.tree)
  {
    if ts[i].name != "DEF" then Fail(FunctionDef, ts[i])
    else
      var j :- Advance(ts, i);
      if ts[j].tClass != "TYPE" then Fail(FunctionType, ts[j])
      else
        var ty :- ParseType(ts, j);
        if ts[ty.next].name != "ID" then Fail(FunctionId, ts[ty.next])
        else
          var id :- Ident(ts, ty.next, None);
          if ts[id.next].name != "LPAREN" then Fail(FunctionLParen, ts[id.next])
          else
            var k :- Advance(ts, id.next);
            var body :- FunctionBody(ts, k);
            Ok(FunctionNode(ty.tree, id.tree, body))
  }

  /** The FUNCTION DECLARATION node over a TYPE, an IDENT and the parts `FunctionBody` returned. */
  function FunctionNode(ty: Node, id: Node, body: Parts): (r: Parsed)
    requires TypeNodeType(ty).Some? && Bindings(ty) == map[] && IsIdent(id) && Bindings(id) == map[]
    requires |body.nodes| == 2 && body.nodes[0].tag == "PARAM LIST" && IsStatementList(body.nodes[1])
    requires body.syms == Bindings(body.nodes[0]) + Bindings(body.nodes[1])
    ensures r.next == body.next && IsFunctionDeclaration(r.tree) && r.syms == Bindings(r.tree)
  {
    BindingsOf5(Leaf("DEF"), ty, id, body.nodes[0], body.nodes[1]);
    Parsed(body.next, Node("FUNCTION DECLARATION", None, [Leaf("DEF"), ty, id, body.nodes[0], body.nodes[1]]), body.syms)
  }

  /** The rest of a function declaration after its `(`: PARAM LIST ) : STATEMENT LIST. */
  function FunctionBody(ts: seq<Token>, i: nat): (r: Result<Parts, ParseError>)
    requires i < |ts|
    decreases |ts| - i, 0
    ensures r.Ok? ==> i < r.value.next < |ts| && ts[r.value.next].name in ListEnders
    ensures r.Ok? ==>
      && |r.value.nodes| == 2
      && r.value.nodes[0].tag == "PARAM LIST" && IsStatementList(r.value.nodes[1])
      && r.value.syms == Bindings(r.value.nodes[0]) + Bindings(r.value.nodes[1])
  {
    var pl :- ParamList(ts, i);
    if ts[pl.next].name != "RPAREN" then Fail(FunctionRParen, ts[pl.next])
    else
      var k2 :- Advance(ts, pl.next);
      if ts[k2].name != "COLON" then Fail(FunctionColon, ts[k2])
      else
        var k3 :- Advance(ts, k2);
        var sl :- StatementList(ts, k3);
        Ok(Parts(sl.next, [pl.tree, sl.tree], pl.syms + sl.syms))
  }

  /** PARAM_LIST: LAMBDA on a closing parenthesis, else TYPE IDENT (, TYPE IDENT)*. */
  function ParamList(ts: seq<Token>, i: nat): (r: PResult)
    requires i < |ts|
    ensures r.Ok? ==> i <= r.value.next < |ts| && ts[r.value.next].name != "COMMA"
    ensures ts[i].name == "RPAREN" ==> r == Ok(Parsed(i, Node("PARAM LIST", None, [Leaf("LAMBDA")]), map[]))
    ensures ts[i].name != "RPAREN" && ts[i].tClass != "TYPE" ==> r == Fail(ParamType, ts[i])
    ensures r.Ok? && ts[i].name != "RPAREN" ==>
      && i < r.value.next
      && |r.value.tree.children| >= 2 && TypedPairs(r.value.tree.children)
    ensures r.Ok? ==> r.value.tree.tag == "PARAM LIST" && r.value.syms == Bindings(r.value.tree)
  {
    if ts[i].name == "RPAREN" then
      Ok(Parsed(i, Node("PARAM LIST", None, [Leaf("LAMBDA")]), map[]))
    else if ts[i].tClass != "TYPE" then
      Fail(ParamType, ts[i])
    else
      var ty :- ParseType(ts, i);
      var id :- Ident(ts, ty.next, Some(ty.vtype));
      var rest :- ParamsTail(ts, id.next);
      Ok(ParamListNode(ty.tree, id, rest))
  }

  /** Assembles a non-empty PARAM LIST from its first pair and the pairs after it. */
  function ParamListNode(ty: Node, id: Parsed, rest: Parts): (r: Parsed)
    requires TypeNodeType(ty).Some? && IsIdent(id.tree) && id.tree.val.Some?
    requires id.syms == map[id.tree.val.value := Entry(TypeNodeType(ty).value, 0, 0)]
    requires TypedPairs(rest.nodes) && rest.syms == PairBindings(rest.nodes)
    ensures r.next == rest.next && r.tree.tag == "PARAM LIST"
    ensures |r.tree.children| >= 2 && TypedPairs(r.tree.children) && r.syms == Bindings(r.tree)
  {
    PairBindingsConcat([ty, id.tree], rest.nodes);
    PairBindingsOne(ty, id.tree);
    Parsed(rest.next, Node("PARAM LIST", None, [ty, id.tree] + rest.nodes), id.syms + rest.syms)
  }

  /** The `while current.name == "COMMA"` loop of PARAM_LIST. */
  function ParamsTail(ts: seq<Token>, i: nat): (r: Result<Parts, ParseError>)
    requires i < |ts|
    decreases |ts| - i
    ensures r.Ok? ==> i <= r.value.next < |ts| && ts[r.value.next].name != "COMMA"
    ensures r.Ok? ==> TypedPairs(r.value.nodes) && r.value.syms == PairBindings(r.value.nodes)
  {
    if ts[i].name != "COMMA" then Ok(Parts(i, [], map[]))
    else
      var j :- Advance(ts, i);
      var ty :- ParseType(ts, j);
      var id :- Ident(ts, ty.next, Some(ty.vtype));
      var rest :- ParamsTail(ts, id.next);
      var ps := ParamListNode(ty.tree, id, rest);
      Ok(Parts(ps.next, ps.tree.children, ps.syms))
  }

  // ---------------------------------------------------------------- statements

  function StatementList(ts: seq<Token>, i: nat): (r: PResult)
    requires i < |ts|
    decreases |ts| - i, 18
    ensures r.Ok? ==> i < r.value.next < |ts|
    ensures r.Ok? ==> IsStatementList(r.value.tree) && ts[r.value.next].name in ListEnders
    ensures !StartsStatement(ts[i]) ==> r == Fail(BadStatement, ts[i])
    ensures r.Ok? ==> r.value.syms == Bindings(r.value.tree)
  {
    var st :- Statement(ts, i);
    var rest :- Statements(ts, st.next);
    BindingsOfCons(st.tree, rest.nodes);
    Ok(Parsed(rest.next, Node("STATEMENT LIST", None, [st.tree] + rest.nodes), st.syms + rest.syms))
  }

  /** The loop of STATEMENT_LIST: statements until a lookahead named END, DEF or BEGIN. */
  function Statements(ts: seq<Token>, i: nat): (r: Result<Parts, ParseError>)
    requires i < |ts|
    decreases |ts| - i, 17
    ensures r.Ok? ==> i <= r.value.next < |ts| && ts[r.value.next].name in ListEnders
    ensures ts[i].name in ListEnders ==> r == Ok(Parts(i, [], map[]))
    ensures r.Ok? ==> forall k | 0 <= k < |r.value.nodes| :: r.value.nodes[k].tag == "STATEMENT"
    ensures r.Ok? ==> r.value.syms == BindingsOf(r.value.nodes)
  {
    if ts[i].name in ListEnders then Ok(Parts(i, [], map[]))
    else
      var st :- Statement(ts, i);
      var rest :- Statements(ts, st.next);
      BindingsOfCons(st.tree, rest.nodes);
      Ok(Parts(rest.next, [st.tree] + rest.nodes, st.syms + rest.syms))
  }

  /** Tokens STATEMENT accepts as the start of a statement. */
  predicate StartsStatement(t: Token) {
    t.name in {"ID", "READ", "WRITE", "FUNC", "IF", "WHILE", "RETURN"} || t.tClass == "TYPE"
  }

  /** IF EXPRESSION THEN PROGRAM (ELSE PROGRAM)? */
  predicate IsIf(n: Node) {
    && n.tag == "STATEMENT" && (|n.children| == 4 || |n.children| == 6)
    && n.children[0] == Leaf("IF") && WfExpression(n.children[1])
    && n.children[2] == Leaf("THEN") && IsProgram(n.children[3])
    && (|n.children| == 6 ==> n.children[4] == Leaf("ELSE") && IsProgram(n.children[5]))
  }

  /** WHILE EXPRESSION PROGRAM */
  predicate IsWhile(n: Node) {
    && n.tag == "STATEMENT" && |n.children| == 3
    && n.children[0] == Leaf("WHILE") && WfExpression(n.children[1]) && IsProgram(n.children[2])
  }

  /** STATEMENT: dispatches on the current token; each branch is its own function below. */
  function Statement(ts: seq<Token>, i: nat): (r: PResult)
    requires i < |ts|
    decreases |ts| - i, 16
    ensures r.Ok? ==> i < r.value.next < |ts|
    ensures r.Ok? ==> r.value.tree.tag == "STATEMENT" && |r.value.tree.children| >= 1
    ensures !StartsStatement(ts[i]) ==> r == Fail(BadStatement, ts[i])
    ensures r.Ok? ==> r.value.syms == Bindings(r.value.tree)
  {
    var cur := ts[i];
    if cur.name in SimpleStarts || cur.tClass == "TYPE" then SimpleStatement(ts, i)
    else if cur.name == "IF" then IfStatement(ts, i)
    else if cur.name == "WHILE" then WhileStatement(ts, i)
    else Fail(BadStatement, cur)
  }

  /** Tokens that start a statement ending in a semicolon (besides a type keyword). */
  const SimpleStarts: set<string> := {"ID", "READ", "WRITE", "FUNC", "RETURN"}

  /**
   * The STATEMENT branches that end with a semicolon, tried in the order
   * STATEMENT tries them; RETURN is tried after IF and WHILE there, which
   * no token can tell apart from trying it here.
   */
  function SimpleStatement(ts: seq<Token>, i: nat): (r: PResult)
    requires i < |ts| && (ts[i].name in SimpleStarts || ts[i].tClass == "TYPE")
    decreases |ts| - i, 16
    ensures EndsWithSemicolon(ts, i, r)
  {
    var cur := ts[i];
    if cur.name == "ID" then AssignStatement(ts, i)
    else if cur.name == "READ" then ReadStatement(ts, i)
    else if cur.name == "WRITE" then WriteStatement(ts, i)
    else if cur.tClass == "TYPE" then DeclarationStatement(ts, i)
    else if cur.name == "FUNC" then CallStatement(ts, i)
    else ReturnStatement(ts, i)
  }

  /** A statement that ends with a semicolon, which it consumes. */
  predicate EndsWithSemicolon(ts: seq<Token>, i: nat, r: PResult)
    requires i < |ts|
  {
    r.Ok? ==>
      && i < r.value.next < |ts| && ts[r.value.next - 1].name == "SEMICOLON"
      && r.value.tree.tag == "STATEMENT" && |r.value.tree.children| >= 1
      && r.value.tree.children[0].tag in SemicolonStatements
      && r.value.syms == Bindings(r.value.tree)
  }

  /**
   * The end of a statement that needs a semicolon: the current token at `m`
   * must be one (else `msg`), and it is consumed.
   */
  function Terminated(ts: seq<Token>, i: nat, m: nat, kids: seq<Node>, syms: SymTab, msg: Complaint): (r: PResult)
    requires i < m < |ts| && |kids| >= 1 && kids[0].tag in SemicolonStatements
    requires syms == BindingsOf(kids)
    ensures ts[m].name != "SEMICOLON" ==> r == Fail(msg, ts[m])
    ensures ts[m].name == "SEMICOLON" ==> (r.Ok? <==> m + 1 < |ts|)
    ensures r.Ok? ==> r.value.next == m + 1 && r.value.tree == Node("STATEMENT", None, kids)
    ensures EndsWithSemicolon(ts, i, r)
  {
    if ts[m].name != "SEMICOLON" then Fail(msg, ts[m])
    else
      var n :- Advance(ts, m);
      StatementBindings(kids);
      Ok(Parsed(n, Node("STATEMENT", None, kids), syms))
  }

  function AssignStatement(ts: seq<Token>, i: nat): (r: PResult)
    requires i < |ts|
    decreases |ts| - i, 15
    ensures EndsWithSemicolon(ts, i, r)
    ensures r.Ok? ==> r.value.tree.children[0].tag == "ASSIGNMENT"
  {
    var a :- Assignment(ts, i);
    BindingsOf1(a.tree);
    Terminated(ts, i, a.next, [a.tree], a.syms, NoSemicolon)
  }

  function ReadStatement(ts: seq<Token>, i: nat): (r: PResult)
    requires i < |ts|
    ensures EndsWithSemicolon(ts, i, r)
    ensures r.Ok? ==> |r.value.tree.children| == 2 && r.value.tree.children[0] == Leaf("READ")
                      && IsIdList(r.value.tree.children[1])
  {
    var j :- Advance(ts, i);
    if ts[j].name != "LPAREN" then Fail(ReadLParen, ts[j])
    else
      var k :- Advance(ts, j);
      var il :- IdList(ts, k);
      if ts[il.next].name != "RPAREN" then Fail(ReadRParen, ts[il.next])
      else
        var m :- Advance(ts, il.next);
        KeywordFirst1("READ", il.tree);
        Terminated(ts, i, m, [Leaf("READ"), il.tree], il.syms, NoSemicolon)
  }

  function WriteStatement(ts: seq<Token>, i: nat): (r: PResult)
    requires i < |ts|
    decreases |ts| - i, 15
    ensures EndsWithSemicolon(ts, i, r)
    ensures r.Ok? ==> |r.value.tree.children| == 2 && r.value.tree.children[0] == Leaf("WRITE")
                      && IsExprList(r.value.tree.children[1])
  {
    var j :- Advance(ts, i);
    if ts[j].name != "LPAREN" then Fail(WriteLParen, ts[j])
    else
      var k :- Advance(ts, j);
      var el :- ExprList(ts, k);
      if ts[el.next].name != "RPAREN" then Fail(WriteRParen, ts[el.next])
      else
        var m :- Advance(ts, el.next);
        KeywordFirst1("WRITE", el.tree);
        Terminated(ts, i, m, [Leaf("WRITE"), el.tree], el.syms, NoSemicolon)
  }

  function DeclarationStatement(ts: seq<Token>, i: nat): (r: PResult)
    requires i < |ts|
    ensures ts[i].name !in TypeNames ==> r == Err(UnpackNone)
    ensures EndsWithSemicolon(ts, i, r)
    ensures r.Ok? ==> |r.value.tree.children| == 1 && r.value.tree.children[0].tag == "DECLARATION"
  {
    var d :- Declaration(ts, i);
    BindingsOf1(d.tree);
    Terminated(ts, i, d.next, [d.tree], d.syms, NoSemicolon)
  }

  function CallStatement(ts: seq<Token>, i: nat): (r: PResult)
    requires i < |ts|
    decreases |ts| - i, 15
    ensures EndsWithSemicolon(ts, i, r)
    ensures r.Ok? ==> |r.value.tree.children| == 3 && r.value.tree.children[0] == Leaf("FUNC")
                      && IsIdent(r.value.tree.children[1]) && r.value.tree.children[2].tag == "ARGLIST"
  {
    var j :- Advance(ts, i);
    var id :- Ident(ts, j, None);
    if ts[id.next].name != "LPAREN" then Fail(CallLParen, ts[id.next])
    else
      var k :- Advance(ts, id.next);
      var al :- ArgList(ts, k);
      if ts[al.next].name != "RPAREN" then Fail(CallRParen, ts[al.next])
      else
        var m :- Advance(ts, al.next);
        KeywordFirst2("FUNC", id.tree, al.tree);
        Terminated(ts, i, m, [Leaf("FUNC"), id.tree, al.tree], id.syms + al.syms, CallSemicolon)
  }

  /** IF: the END of each branch's PROGRAM is consumed; only the ELSE form consumes past it. */
  function IfStatement(ts: seq<Token>, i: nat): (r: PResult)
    requires i < |ts|
    decreases |ts| - i, 15
    ensures r.Ok? ==> i < r.value.next < |ts| && IsIf(r.value.tree) && ts[r.value.next - 1].name == "END"
    ensures r.Ok? ==> r.value.syms == Bindings(r.value.tree)
  {
    var j :- Advance(ts, i);
    var e :- Expression(ts, j);
    IfAfterCondition(ts, e.next, e.tree)
  }

  /** IF once its condition is parsed: THEN, and the branches. */
  function IfAfterCondition(ts: seq<Token>, i: nat, cond: Node): (r: PResult)
    requires i < |ts| && WfExpression(cond) && Bindings(cond) == map[]
    decreases |ts| - i, 25
    ensures ts[i].name != "THEN" ==> r == Err(SyntaxError(NoThen, None))
    ensures r.Ok? ==> i < r.value.next < |ts| && ts[r.value.next - 1].name == "END"
    ensures r.Ok? ==> IsIf(r.value.tree) && r.value.tree.children[1] == cond
    ensures r.Ok? ==> r.value.syms == Bindings(r.value.tree)
  {
    if ts[i].name != "THEN" then Err(SyntaxError(NoThen, None))
    else
      var k :- Advance(ts, i);
      var b :- IfBranches(ts, k);
      MkIf(cond, b.nodes);
      Ok(Parsed(b.next, Node("STATEMENT", None, [Leaf("IF"), cond, Leaf("THEN")] + b.nodes), b.syms))
  }

  /** After THEN: PROGRAM, its END, and an optional ELSE PROGRAM with its END. */
  function IfBranches(ts: seq<Token>, i: nat): (r: Result<Parts, ParseError>)
    requires i < |ts|
    decreases |ts| - i, 24
    ensures r.Ok? ==> i < r.value.next < |ts| && ts[r.value.next - 1].name == "END"
    ensures r.Ok? ==>
      && (|r.value.nodes| == 1 || |r.value.nodes| == 3)
      && IsProgram(r.value.nodes[0])
      && (|r.value.nodes| == 3 ==> r.value.nodes[1] == Leaf("ELSE") && IsProgram(r.value.nodes[2]))
    ensures r.Ok? ==> r.value.syms == BindingsOf(r.value.nodes)
  {
    var p :- Program(ts, i);
    var m :- Advance(ts, p.next);
    if ts[m].name == "ELSE" then ElseBranch(ts, m, p.tree, p.syms)
    else
      BindingsOf1(p.tree);
      Ok(Parts(m, [p.tree], p.syms))
  }

  /** ELSE PROGRAM and its END, after the THEN branch `p`. */
  function ElseBranch(ts: seq<Token>, i: nat, p: Node, pSyms: SymTab): (r: Result<Parts, ParseError>)
    requires i < |ts| && ts[i].name == "ELSE" && IsProgram(p) && pSyms == Bindings(p)
    decreases |ts| - i, 23
    ensures r.Ok? ==> i < r.value.next < |ts| && ts[r.value.next - 1].name == "END"
    ensures r.Ok? ==> |r.value.nodes| == 3 && r.value.nodes[0] == p && r.value.nodes[1] == Leaf("ELSE") && IsProgram(r.value.nodes[2])
    ensures r.Ok? ==> r.value.syms == BindingsOf(r.value.nodes)
  {
    var k2 :- Advance(ts, i);
    var p2 :- Program(ts, k2);
    var n :- Advance(ts, p2.next);
    KeywordBetween(p, "ELSE", p2.tree);
    Ok(Parts(n, [p, Leaf("ELSE"), p2.tree], pSyms + p2.syms))
  }

  /** WHILE: the loop body is a PROGRAM, whose END is consumed. */
  function WhileStatement(ts: seq<Token>, i: nat): (r: PResult)
    requires i < |ts|
    decreases |ts| - i, 15
    ensures r.Ok? ==> i < r.value.next < |ts| && IsWhile(r.value.tree) && ts[r.value.next - 1].name == "END"
    ensures r.Ok? ==> r.value.syms == Bindings(r.value.tree)
  {
    var j :- Advance(ts, i);
    var e :- Expression(ts, j);
    var p :- Program(ts, e.next);
    var n :- Advance(ts, p.next);
    KeywordFirst2("WHILE", e.tree, p.tree);
    StatementBindings([Leaf("WHILE"), e.tree, p.tree]);
    Ok(Parsed(n, Node("STATEMENT", None, [Leaf("WHILE"), e.tree, p.tree]), e.syms + p.syms))
  }

  function ReturnStatement(ts: seq<Token>, i: nat): (r: PResult)
    requires i < |ts|
    decreases |ts| - i, 15
    ensures EndsWithSemicolon(ts, i, r)
    ensures r.Ok? ==> |r.value.tree.children| == 2 && r.value.tree.children[0] == Leaf("RETURN")
                      && WfFact2(r.value.tree.children[1])
  {
    var j :- Advance(ts, i);
    var rs :- ReturnStmt(ts, j);
    KeywordFirst1("RETURN", rs.tree);
    Terminated(ts, i, rs.next, [Leaf("RETURN"), rs.tree], rs.syms, ReturnSemicolon)
  }

  /** ARGLIST: an expression list when the lookahead can start one, else LAMBDA. */
  function ArgList(ts: seq<Token>, i: nat): (r: PResult)
    requires i < |ts|
    decreases |ts| - i, 12
    ensures ts[i].name !in ArgStarts ==> r == Ok(Parsed(i, Node("ARGLIST", None, [Leaf("LAMBDA")]), map[]))
    ensures r.Ok? && ts[i].name in ArgStarts ==>
      && i < r.value.next < |ts|
      && |r.value.tree.children| == 1 && IsExprList(r.value.tree.children[0])
    ensures r.Ok? ==> r.value.tree.tag == "ARGLIST" && r.value.syms == map[] && Bindings(r.value.tree) == map[]
  {
    if ts[i].name in ArgStarts then
      var el :- ExprList(ts, i);
      BindingsOf1(el.tree);
      Ok(Parsed(el.next, Node("ARGLIST", None, [el.tree]), el.syms))
    else
      BindingsOf1(Leaf("LAMBDA"));
      Ok(Parsed(i, Node("ARGLIST", None, [Leaf("LAMBDA")]), map[]))
  }

  /** RETURN_STMT parses a FACT2 and hands back that FACT2 node, not its own. */
  function ReturnStmt(ts: seq<Token>, i: nat): (r: PResult)
    requires i < |ts|
    decreases |ts| - i, 6
    ensures r.Ok? ==> i < r.value.next < |ts|
    ensures r == Fact2(ts, i)
    ensures r.Ok? ==> WfFact2(r.value.tree) && r.value.syms == map[] && Bindings(r.value.tree) == map[]
  {
    var f :- Fact2(ts, i);
    Ok(Parsed(f.next, f.tree, f.syms))
  }

  function Assignment(ts: seq<Token>, i: nat): (r: PResult)
    requires i < |ts|
    decreases |ts| - i, 13
    ensures r.Ok? ==> i + 2 < r.value.next < |ts| && ts[i + 1].name == "ASSIGNOP"
    ensures r.Ok? ==>
      && r.value.tree.tag == "ASSIGNMENT" && |r.value.tree.children| == 2
      && IsIdent(r.value.tree.children[0]) && r.value.tree.children[0].val == Some(ts[i].pattern)
      && WfExpression(r.value.tree.children[1])
    ensures r.Ok? ==> r.value.syms == map[] && Bindings(r.value.tree) == map[]
  {
    var id :- Ident(ts, i, None);
    if ts[id.next].name != "ASSIGNOP" then Fail(AssignOp, ts[id.next])
    else
      var j :- Advance(ts, id.next);
      var e :- Expression(ts, j);
      BindingsOf2(id.tree, e.tree);
      Ok(Parsed(e.next, Node("ASSIGNMENT", None, [id.tree, e.tree]), id.syms + e.syms))
  }

  predicate IsIdList(n: Node) {
    && n.tag == "ID_LIST" && |n.children| >= 1
    && forall k | 0 <= k < |n.children| :: IsIdent(n.children[k])
  }

  function IdList(ts: seq<Token>, i: nat): (r: PResult)
    requires i < |ts|
    ensures r.Ok? ==> i < r.value.next < |ts| && ts[r.value.next].name != "COMMA"
    ensures ts[i].name != "ID" ==> r == Fail(BadIdent, ts[i])
    ensures r.Ok? ==> IsIdList(r.value.tree)
    ensures r.Ok? ==> r.value.syms == map[] && Bindings(r.value.tree) == map[]
  {
    var id :- Ident(ts, i, None);
    var rest :- IdsTail(ts, id.next);
    BindingsOfCons(id.tree, rest.nodes);
    Ok(Parsed(rest.next, Node("ID_LIST", None, [id.tree] + rest.nodes), id.syms + rest.syms))
  }

  function IdsTail(ts: seq<Token>, i: nat): (r: Result<Parts, ParseError>)
    requires i < |ts|
    decreases |ts| - i
    ensures r.Ok? ==> i <= r.value.next < |ts| && ts[r.value.next].name != "COMMA"
    ensures r.Ok? ==> forall k | 0 <= k < |r.value.nodes| :: IsIdent(r.value.nodes[k])
    ensures r.Ok? ==> r.value.syms == map[] && BindingsOf(r.value.nodes) == map[]
  {
    if ts[i].name != "COMMA" then Ok(Parts(i, [], map[]))
    else
      var j :- Advance(ts, i);
      var id :- Ident(ts, j, None);
      var rest :- IdsTail(ts, id.next);
      BindingsOfCons(id.tree, rest.nodes);
      Ok(Parts(rest.next, [id.tree] + rest.nodes, id.syms + rest.syms))
  }

  predicate IsExprList(n: Node) {
    && n.tag == "EXPR_LIST" && |n.children| >= 1
    && forall k | 0 <= k < |n.children| :: WfExpression(n.children[k])
  }

  function ExprList(ts: seq<Token>, i: nat): (r: PResult)
    requires i < |ts|
    decreases |ts| - i, 11
    ensures r.Ok? ==> i < r.value.next < |ts| && ts[r.value.next].name != "COMMA"
    ensures r.Ok? ==> IsExprList(r.value.tree)
    ensures r.Ok? ==> r.value.syms == map[] && Bindings(r.value.tree) == map[]
  {
    var e :- Expression(ts, i);
    var rest :- ExprsTail(ts, e.next);
    BindingsOfCons(e.tree, rest.nodes);
    Ok(Parsed(rest.next, Node("EXPR_LIST", None, [e.tree] + rest.nodes), e.syms + rest.syms))
  }

  function ExprsTail(ts: seq<Token>, i: nat): (r: Result<Parts, ParseError>)
    requires i < |ts|
    decreases |ts| - i, 0
    ensures r.Ok? ==> i <= r.value.next < |ts| && ts[r.value.next].name != "COMMA"
    ensures r.Ok? ==> forall k | 0 <= k < |r.value.nodes| :: WfExpression(r.value.nodes[k])
    ensures r.Ok? ==> r.value.syms == map[] && BindingsOf(r.value.nodes) == map[]
  {
    if ts[i].name != "COMMA" then Ok(Parts(i, [], map[]))
    else
      var j :- Advance(ts, i);
      var e :- Expression(ts, j);
      var rest :- ExprsTail(ts, e.next);
      BindingsOfCons(e.tree, rest.nodes);
      Ok(Parts(rest.next, [e.tree] + rest.nodes, e.syms + rest.syms))
  }

  /** DECLARATION: TYPE IDENT, the identifier bound to the type. */
  function Declaration(ts: seq<Token>, i: nat): (r: PResult)
    requires i < |ts|
    ensures ts[i].name !in TypeNames ==> r == Err(UnpackNone)
    ensures r.Ok? ==> r.value.next == i + 2 && i + 2 < |ts| && ts[i + 1].name == "ID"
    ensures r.Ok? ==>
      && r.value.tree.tag == "DECLARATION" && |r.value.tree.children| == 2
      && TypedPairs(r.value.tree.children)
      && r.value.tree.children[1].val == Some(ts[i + 1].pattern)
    ensures r.Ok? ==>
      && r.value.syms == Bindings(r.value.tree)
      && r.value.syms == map[ts[i + 1].pattern := Entry(TypeNodeType(r.value.tree.children[0]).value, 0, 0)]
  {
    var ty :- ParseType(ts, i);
    var id :- Ident(ts, ty.next, Some(ty.vtype));
    PairBindingsOne(ty.tree, id.tree);
    Ok(Parsed(id.next, Node("DECLARATION", None, [ty.tree, id.tree]), id.syms))
  }

  const TypeNames: set<string> := {"INT", "BOOL", "STRING", "VOID"}

  /**
   * TYPE: consumes a type keyword. On any other token the Python function
   * falls off its end and its caller's unpacking of `None` fails.
   */
  function ParseType(ts: seq<Token>, i: nat): (r: Result<Typed, ParseError>)
    requires i < |ts|
    ensures ts[i].name !in TypeNames ==> r == Err(UnpackNone)
    ensures ts[i].name in TypeNames ==> (r.Ok? <==> i + 1 < |ts|)
    ensures r.Ok? ==>
      && r.value.next == i + 1
      && r.value.tree == Node("TYPE", None, [Leaf(ts[i].name)])
      && TypeNodeType(r.value.tree) == Some(r.value.vtype)
      && Bindings(r.value.tree) == map[]
  {
    var t := ts[i];
    var vt :=
      if t.name == "INT" then Some(INT)
      else if t.name == "BOOL" then Some(BOOL)
      else if t.name == "STRING" then Some(STRING)
      else if t.name == "VOID" then Some(VOID)
      else None;
    if vt.None? then Err(UnpackNone)
    else
      var j :- Advance(ts, i);
      BindingsOf1(Leaf(t.name));
      Ok(Typed(j, Node("TYPE", None, [Leaf(t.name)]), vt.value))
  }

  // ---------------------------------------------------------------- expressions

  function Expression(ts: seq<Token>, i: nat): (r: PResult)
    requires i < |ts|
    decreases |ts| - i, 10
    ensures r.Ok? ==> i < r.value.next < |ts| && ts[r.value.next].name != "OR"
    ensures r.Ok? ==> WfExpression(r.value.tree)
    ensures r.Ok? ==> r.value.syms == map[] && Bindings(r.value.tree) == map[]
  {
    var t :- Term1(ts, i);
    var rest :- OrTail(ts, t.next);
    BindingsOfCons(t.tree, rest.nodes);
    MkExpression(t.tree, rest.nodes);
    Ok(Parsed(rest.next, Node("EXPRESSION", None, [t.tree] + rest.nodes), t.syms + rest.syms))
  }

  /** (OR TERM1)* as appended to an EXPRESSION. */
  predicate OrTailShape(ns: seq<Node>) {
    && |ns| % 2 == 0
    && forall k | 0 <= k < |ns| :: if k % 2 == 0 then ns[k] == Leaf("OR") else WfTerm1(ns[k])
  }

  function OrTail(ts: seq<Token>, i: nat): (r: Result<Parts, ParseError>)
    requires i < |ts|
    decreases |ts| - i, 0
    ensures r.Ok? ==> i <= r.value.next < |ts| && ts[r.value.next].name != "OR"
    ensures r.Ok? ==> OrTailShape(r.value.nodes)
    ensures r.Ok? ==> r.value.syms == map[] && BindingsOf(r.value.nodes) == map[]
  {
    if ts[i].name != "OR" then Ok(Parts(i, [], map[]))
    else
      var j :- Advance(ts, i);
      var t :- Term1(ts, j);
      var rest :- OrTail(ts, t.next);
      FreeCons2(Leaf("OR"), t.tree, rest.nodes);
      ConsOrTail(t.tree, rest.nodes);
      Ok(Parts(rest.next, [Leaf("OR"), t.tree] + rest.nodes, t.syms + rest.syms))
  }

  function Term1(ts: seq<Token>, i: nat): (r: PResult)
    requires i < |ts|
    decreases |ts| - i, 9
    ensures r.Ok? ==> i < r.value.next < |ts| && ts[r.value.next].name != "AND"
    ensures r.Ok? ==> WfTerm1(r.value.tree)
    ensures r.Ok? ==> r.value.syms == map[] && Bindings(r.value.tree) == map[]
  {
    var f :- Fact1(ts, i);
    var rest :- AndTail(ts, f.next);
    BindingsOfCons(f.tree, rest.nodes);
    MkTerm1(f.tree, rest.nodes);
    Ok(Parsed(rest.next, Node("TERM1", None, [f.tree] + rest.nodes), f.syms + rest.syms))
  }

  predicate AndTailShape(ns: seq<Node>) {
    && |ns| % 2 == 0
    && forall k | 0 <= k < |ns| :: if k % 2 == 0 then ns[k] == Leaf("AND") else WfFact1(ns[k])
  }

  function AndTail(ts: seq<Token>, i: nat): (r: Result<Parts, ParseError>)
    requires i < |ts|
    decreases |ts| - i, 0
    ensures r.Ok? ==> i <= r.value.next < |ts| && ts[r.value.next].name != "AND"
    ensures r.Ok? ==> AndTailShape(r.value.nodes)
    ensures r.Ok? ==> r.value.syms == map[] && BindingsOf(r.value.nodes) == map[]
  {
    if ts[i].name != "AND" then Ok(Parts(i, [], map[]))
    else
      var j :- Advance(ts, i);
      var f :- Fact1(ts, j);
      var rest :- AndTail(ts, f.next);
      FreeCons2(Leaf("AND"), f.tree, rest.nodes);
      ConsAndTail(f.tree, rest.nodes);
      Ok(Parts(rest.next, [Leaf("AND"), f.tree] + rest.nodes, f.syms + rest.syms))
  }

  function Fact1(ts: seq<Token>, i: nat): (r: PResult)
    requires i < |ts|
    decreases |ts| - i, 8
    ensures r.Ok? ==> i < r.value.next < |ts|
    ensures r.Ok? ==> WfFact1(r.value.tree)
    ensures r.Ok? ==> (ts[i].name == "NOT" <==> r.value.tree.children[0] == Leaf("NOT"))
    ensures r.Ok? ==> r.value.syms == map[] && Bindings(r.value.tree) == map[]
  {
    if ts[i].name == "NOT" then
      var j :- Advance(ts, i);
      var f :- Fact2(ts, j);
      BindingsOf2(Leaf("NOT"), f.tree);
      Ok(Parsed(f.next, Node("FACT1", None, [Leaf("NOT"), f.tree]), f.syms))
    else
      var e :- Exp2(ts, i);
      var rel :- Relation(ts, e.next);
      BindingsOf2(e.tree, rel.tree);
      Ok(Parsed(rel.next, Node("FACT1", None, [e.tree, rel.tree]), e.syms + rel.syms))
  }

  /** RELATION: RELATIONOP EXP2, or LAMBDA without consuming a token. */
  function Relation(ts: seq<Token>, i: nat): (r: PResult)
    requires i < |ts|
    decreases |ts| - i, 7
    ensures r.Ok? ==> i <= r.value.next < |ts|
    ensures ts[i].tClass != "RELATIONOP" ==> r == Ok(Parsed(i, Node("RELATION", None, [Leaf("LAMBDA")]), map[]))
    ensures r.Ok? && ts[i].tClass == "RELATIONOP" ==>
      i < r.value.next && r.value.tree.val == Some(ts[i].pattern)
    ensures r.Ok? ==> WfRelation(r.value.tree)
    ensures r.Ok? ==> r.value.syms == map[] && Bindings(r.value.tree) == map[]
  {
    if ts[i].tClass == "RELATIONOP" then
      var op := ts[i].pattern;
      var j :- Advance(ts, i);
      var e :- Exp2(ts, j);
      BindingsOf2(Node("RELATIONOP", Some(op), []), e.tree);
      Ok(Parsed(e.next, Node("RELATION", Some(op), [Node("RELATIONOP", Some(op), []), e.tree]), e.syms))
    else
      BindingsOf1(Leaf("LAMBDA"));
      Ok(Parsed(i, Node("RELATION", None, [Leaf("LAMBDA")]), map[]))
  }

  function Exp2(ts: seq<Token>, i: nat): (r: PResult)
    requires i < |ts|
    decreases |ts| - i, 7
    ensures r.Ok? ==> i < r.value.next < |ts| && ts[r.value.next].name !in AddOps
    ensures r.Ok? ==> WfExp2(r.value.tree)
    ensures r.Ok? ==> r.value.syms == map[] && Bindings(r.value.tree) == map[]
  {
    var t :- Term2(ts, i);
    var rest :- AddTail(ts, t.next);
    BindingsOfCons(t.tree, rest.nodes);
    MkExp2(t.tree, rest.nodes);
    Ok(Parsed(rest.next, Node("EXP2", None, [t.tree] + rest.nodes), t.syms + rest.syms))
  }

  predicate AddTailShape(ns: seq<Node>) {
    && |ns| % 2 == 0
    && forall k | 0 <= k < |ns| ::
         if k % 2 == 0 then ns[k].tag in AddOps && ns[k] == Leaf(ns[k].tag) else WfTerm2(ns[k])
  }

  function AddTail(ts: seq<Token>, i: nat): (r: Result<Parts, ParseError>)
    requires i < |ts|
    decreases |ts| - i, 0
    ensures r.Ok? ==> i <= r.value.next < |ts| && ts[r.value.next].name !in AddOps
    ensures r.Ok? ==> AddTailShape(r.value.nodes)
    ensures r.Ok? ==> r.value.syms == map[] && BindingsOf(r.value.nodes) == map[]
  {
    if ts[i].name in AddOps then
      var op := Leaf(ts[i].name);
      var j :- Advance(ts, i);
      var t :- Term2(ts, j);
      var rest :- AddTail(ts, t.next);
      FreeCons2(op, t.tree, rest.nodes);
      ConsAddTail(op, t.tree, rest.nodes);
      Ok(Parts(rest.next, [op, t.tree] + rest.nodes, t.syms + rest.syms))
    else
      Ok(Parts(i, [], map[]))
  }

  function Term2(ts: seq<Token>, i: nat): (r: PResult)
    requires i < |ts|
    decreases |ts| - i, 6
    ensures r.Ok? ==> i < r.value.next < |ts| && ts[r.value.next].name !in MulOps
    ensures r.Ok? ==> WfTerm2(r.value.tree)
    ensures r.Ok? ==> r.value.syms == map[] && Bindings(r.value.tree) == map[]
  {
    var sg :- Sign(ts, i);
    var f :- Fact2(ts, sg.next);
    var rest :- MulTail(ts, f.next);
    BindingsOfCons(f.tree, rest.nodes);
    BindingsOfCons(sg.tree, [f.tree] + rest.nodes);
    assert [sg.tree, f.tree] + rest.nodes == [sg.tree] + ([f.tree] + rest.nodes);
    MkTerm2(sg.tree, f.tree, rest.nodes);
    Ok(Parsed(rest.next, Node("TERM2", None, [sg.tree, f.tree] + rest.nodes), sg.syms + f.syms + rest.syms))
  }

  predicate MulTailShape(ns: seq<Node>) {
    && |ns| % 3 == 0
    && forall k | 0 <= k < |ns| ::
         && (k % 3 == 0 ==> ns[k].tag in MulOps && ns[k] == Leaf(ns[k].tag))
         && (k % 3 == 1 ==> WfSign(ns[k]))
         && (k % 3 == 2 ==> WfFact2(ns[k]))
  }

  function MulTail(ts: seq<Token>, i: nat): (r: Result<Parts, ParseError>)
    requires i < |ts|
    decreases |ts| - i, 0
    ensures r.Ok? ==> i <= r.value.next < |ts| && ts[r.value.next].name !in MulOps
    ensures r.Ok? ==> MulTailShape(r.value.nodes)
    ensures r.Ok? ==> r.value.syms == map[] && BindingsOf(r.value.nodes) == map[]
  {
    if ts[i].name in MulOps then
      var op := Leaf(ts[i].name);
      var j :- Advance(ts, i);
      var sg :- Sign(ts, j);
      var f :- Fact2(ts, sg.next);
      var rest :- MulTail(ts, f.next);
      BindingsOfCons(f.tree, rest.nodes);
      BindingsOfCons(sg.tree, [f.tree] + rest.nodes);
      BindingsOfCons(op, [sg.tree, f.tree] + rest.nodes);
      assert [sg.tree, f.tree] + rest.nodes == [sg.tree] + ([f.tree] + rest.nodes);
      assert [op, sg.tree, f.tree] + rest.nodes == [op] + ([sg.tree, f.tree] + rest.nodes);
      ConsMulTail(op, sg.tree, f.tree, rest.nodes);
      Ok(Parts(rest.next, [op, sg.tree, f.tree] + rest.nodes, sg.syms + f.syms + rest.syms))
    else
      Ok(Parts(i, [], map[]))
  }

  /** SIGN: MINUS, or LAMBDA without consuming; any other ARITHOP is an error. */
  function Sign(ts: seq<Token>, i: nat): (r: PResult)
    requires i < |ts|
    ensures r.Ok? ==> i <= r.value.next < |ts| && WfSign(r.value.tree)
    ensures ts[i].tClass == "ARITHOP" && ts[i].name != "MINUS" ==> r == Fail(BadSign, ts[i])
    ensures ts[i].tClass != "ARITHOP" ==> r == Ok(Parsed(i, Node("SIGN", None, [Leaf("LAMBDA")]), map[]))
    ensures r.Ok? && ts[i].tClass == "ARITHOP" ==>
      r.value.next == i + 1 && r.value.tree == Node("SIGN", None, [Leaf("MINUS")])
    ensures r.Ok? ==> r.value.syms == map[] && Bindings(r.value.tree) == map[]
  {
    if ts[i].tClass == "ARITHOP" then
      if ts[i].name == "MINUS" then
        var j :- Advance(ts, i);
        BindingsOf1(Leaf("MINUS"));
        Ok(Parsed(j, Node("SIGN", None, [Leaf("MINUS")]), map[]))
      else
        Fail(BadSign, ts[i])
    else
      BindingsOf1(Leaf("LAMBDA"));
      Ok(Parsed(i, Node("SIGN", None, [Leaf("LAMBDA")]), map[]))
  }

  const Fact2Starts: set<string> := {"LPAREN", "ID", "INTLIT", "BOOLLIT", "STRINGLIT"}

  function Fact2(ts: seq<Token>, i: nat): (r: PResult)
    requires i < |ts|
    decreases |ts| - i, 5
    ensures r.Ok? ==> i < r.value.next < |ts|
    ensures r.Ok? ==> WfFact2(r.value.tree)
    ensures ts[i].name !in Fact2Starts ==> r == Fail(BadFact2, ts[i])
    ensures r.Ok? && ts[i].name == "LPAREN" ==>
      ts[r.value.next - 1].name == "RPAREN" && r.value.tree.children[0].tag == "EXPRESSION"
    ensures ts[i].name == "LPAREN" && i + 1 < |ts| && Expression(ts, i + 1).Ok?
            && ts[Expression(ts, i + 1).value.next].name != "RPAREN" ==>
      r == Fail(UnclosedParen, ts[Expression(ts, i + 1).value.next])
    ensures r.Ok? && ts[i].name in LiteralTags ==>
      && r.value.next == i + 1
      && r.value.tree == Node("FACT2", Some(ts[i].pattern), [Node(ts[i].name, Some(ts[i].pattern), [])])
    ensures r.Ok? ==> r.value.syms == map[] && Bindings(r.value.tree) == map[]
  {
    var cur := ts[i];
    if cur.name == "LPAREN" then
      var j :- Advance(ts, i);
      var e :- Expression(ts, j);
      if ts[e.next].name != "RPAREN" then Fail(UnclosedParen, ts[e.next])
      else
        var n :- Advance(ts, e.next);
        BindingsOf1(e.tree);
        Ok(Parsed(n, Node("FACT2", None, [e.tree]), e.syms))
    else if cur.name == "ID" then
      var id :- Ident(ts, i, None);
      BindingsOf1(id.tree);
      Ok(Parsed(id.next, Node("FACT2", id.tree.val, [id.tree]), id.syms))
    else if cur.name in LiteralTags then
      var leaf := Node(cur.name, Some(cur.pattern), []);
      var j :- Advance(ts, i);
      BindingsOf1(leaf);
      Ok(Parsed(j, Node("FACT2", Some(cur.pattern), [leaf]), map[]))
    else
      Fail(BadFact2, cur)
  }

  /**
   * IDENT: an ID token. With a type (from DECLARATION or PARAM_LIST) it
   * declares `{name: [type, 0, 0]}`; without one its fragment is empty.
   */
  function Ident(ts: seq<Token>, i: nat, vt: Option<VarType>): (r: PResult)
    requires i < |ts|
    ensures ts[i].name != "ID" ==> r == Fail(BadIdent, ts[i])
    ensures ts[i].name == "ID" ==> (r.Ok? <==> i + 1 < |ts|)
    ensures r.Ok? ==>
      && r.value.next == i + 1
      && IsIdent(r.value.tree) && r.value.tree.val == Some(ts[i].pattern)
      && Bindings(r.value.tree) == map[]
    ensures r.Ok? && vt.None? ==> r.value.syms == map[]
    ensures r.Ok? && vt.Some? ==> r.value.syms == map[ts[i].pattern := Entry(vt.value, 0, 0)]
  {
    var name := ts[i].pattern;
    var s: SymTab := if vt.Some? then map[name := Entry(vt.value, 0, 0)] else map[];
    if ts[i].name != "ID" then Fail(BadIdent, ts[i])
    else
      var j :- Advance(ts, i);
      var leaf := Node("ID", Some(name), []);
      BindingsOf1(leaf);
      Ok(Parsed(j, Node("IDENT", Some(name), [leaf]), s))
  }

  // ---------------------------------------------------------------- shape steps

  lemma PairBindingsOne(ty: Node, id: Node)
    requires TypeNodeType(ty).Some? && id.val.Some?
    ensures PairBindings([ty, id]) == map[id.val.value := Entry(TypeNodeType(ty).value, 0, 0)]
    ensures Bindings(Node("DECLARATION", None, [ty, id])) == PairBindings([ty, id])
  {
    assert [ty, id][2..] == [];
  }

  lemma MkExpression(t: Node, rest: seq<Node>)
    requires WfTerm1(t) && OrTailShape(rest)
    ensures WfExpression(Node("EXPRESSION", None, [t] + rest))
  {
    var ns := [t] + rest;
    forall k | 0 <= k < |ns|
      ensures if k % 2 == 0 then WfTerm1(ns[k]) else ns[k] == Leaf("OR")
    {
      if k > 0 { assert ns[k] == rest[k - 1]; }
    }
  }

  lemma ConsOrTail(t: Node, rest: seq<Node>)
    requires WfTerm1(t) && OrTailShape(rest)
    ensures OrTailShape([Leaf("OR"), t] + rest)
  {
    var ns := [Leaf("OR"), t] + rest;
    forall k | 0 <= k < |ns|
      ensures if k % 2 == 0 then ns[k] == Leaf("OR") else WfTerm1(ns[k])
    {
      if k > 1 { assert ns[k] == rest[k - 2]; }
    }
  }

  lemma MkTerm1(f: Node, rest: seq<Node>)
    requires WfFact1(f) && AndTailShape(rest)
    ensures WfTerm1(Node("TERM1", None, [f] + rest))
  {
    var ns := [f] + rest;
    forall k | 0 <= k < |ns|
      ensures if k % 2 == 0 then WfFact1(ns[k]) else ns[k] == Leaf("AND")
    {
      if k > 0 { assert ns[k] == rest[k - 1]; }
    }
  }

  lemma ConsAndTail(f: Node, rest: seq<Node>)
    requires WfFact1(f) && AndTailShape(rest)
    ensures AndTailShape([Leaf("AND"), f] + rest)
  {
    var ns := [Leaf("AND"), f] + rest;
    forall k | 0 <= k < |ns|
      ensures if k % 2 == 0 then ns[k] == Leaf("AND") else WfFact1(ns[k])
    {
      if k > 1 { assert ns[k] == rest[k - 2]; }
    }
  }

  lemma MkExp2(t: Node, rest: seq<Node>)
    requires WfTerm2(t) && AddTailShape(rest)
    ensures WfExp2(Node("EXP2", None, [t] + rest))
  {
    var ns := [t] + rest;
    forall k | 0 <= k < |ns|
      ensures if k % 2 == 0 then WfTerm2(ns[k])
              else ns[k].tag in AddOps && ns[k] == Leaf(ns[k].tag)
    {
      if k > 0 { assert ns[k] == rest[k - 1]; }
    }
  }

  lemma ConsAddTail(op: Node, t: Node, rest: seq<Node>)
    requires op.tag in AddOps && op == Leaf(op.tag) && WfTerm2(t) && AddTailShape(rest)
    ensures AddTailShape([op, t] + rest)
  {
    var ns := [op, t] + rest;
    forall k | 0 <= k < |ns|
      ensures if k % 2 == 0 then ns[k].tag in AddOps && ns[k] == Leaf(ns[k].tag) else WfTerm2(ns[k])
    {
      if k > 1 { assert ns[k] == rest[k - 2]; }
    }
  }

  lemma MkTerm2(sg: Node, f: Node, rest: seq<Node>)
    requires WfSign(sg) && WfFact2(f) && MulTailShape(rest)
    ensures WfTerm2(Node("TERM2", None, [sg, f] + rest))
  {
    var ns := [sg, f] + rest;
    forall k | 0 <= k < |ns|
      ensures && (k % 3 == 0 ==> WfSign(ns[k]))
              && (k % 3 == 1 ==> WfFact2(ns[k]))
              && (k % 3 == 2 ==> ns[k].tag in MulOps && ns[k] == Leaf(ns[k].tag))
    {
      if k > 1 { assert ns[k] == rest[k - 2]; }
    }
  }

  lemma ConsMulTail(op: Node, sg: Node, f: Node, rest: seq<Node>)
    requires op.tag in MulOps && op == Leaf(op.tag) && WfSign(sg) && WfFact2(f) && MulTailShape(rest)
    ensures MulTailShape([op, sg, f] + rest)
  {
    var ns := [op, sg, f] + rest;
    forall k | 0 <= k < |ns|
      ensures && (k % 3 == 0 ==> ns[k].tag in MulOps && ns[k] == Leaf(ns[k].tag))
              && (k % 3 == 1 ==> WfSign(ns[k]))
              && (k % 3 == 2 ==> WfFact2(ns[k]))
    {
      if k > 2 { assert ns[k] == rest[k - 3]; }
    }
  }

  lemma MkIf(e: Node, branches: seq<Node>)
    requires WfExpression(e) && Bindings(e) == map[]
    requires |branches| == 1 || |branches| == 3
    requires IsProgram(branches[0])
    requires |branches| == 3 ==> branches[1] == Leaf("ELSE") && IsProgram(branches[2])
    ensures IsIf(Node("STATEMENT", None, [Leaf("IF"), e, Leaf("THEN")] + branches))
    ensures Bindings(Node("STATEMENT", None, [Leaf("IF"), e, Leaf("THEN")] + branches)) == BindingsOf(branches)
  {
    BindingsOfConcat([Leaf("IF"), e, Leaf("THEN")], branches);
    BindingsOf3(Leaf("IF"), e, Leaf("THEN"));
  }
}

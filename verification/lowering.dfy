/**
 * Expression lowering: `solve_expression` and the `solve_*` functions that
 * turn an expression sub-tree into MIPS-style instructions. Integer results
 * end in `$t0` (a TERM2's in `$t1`, a factor's in `$t2`); boolean results in
 * `$t6` (a TERM1's in `$t7`, a FACT1's in `$t8`, a boolean factor's in `$t9`).
 * A parenthesised operand saves the registers it would clobber on the stack
 * around the recursive call.
 */
module Lowering {
  import opened Wrappers
  import opened Syntax
  import opened Typing
  import opened Mips

  type Code = Result<seq<Instr>, GenError>

  /** `solve_expression`: lower by the inferred type; other types emit nothing. */
  function SolveExpression(n: Node, s: SymTab): (r: Code)
    ensures TypeOf(n, s).Err? ==> r == TypeOf(n, s).PropagateFailure()
    ensures TypeOf(n, s) == Ok(Some(INT)) ==> r == SolveInt(n)
    ensures TypeOf(n, s) == Ok(Some(BOOL)) ==> r == SolveBool(n)
    ensures TypeOf(n, s).Ok? && TypeOf(n, s).value !in {Some(INT), Some(BOOL)} ==> r == Ok([])
  {
    var t :- TypeOf(n, s);
    if t == Some(BOOL) then SolveBool(n)
    else if t == Some(INT) then SolveInt(n)
    else Ok([])
  }

  // ---------------------------------------------------------------- integers

  /** Push registers onto the stack, one word each, in order. */
  function Push(rs: seq<Reg>): seq<Instr> {
    if |rs| == 0 then [] else [Addi(Sp, Sp, -4), StoreStack(rs[0])] + Push(rs[1..])
  }

  /** Pop registers off the stack, one word each, in order. */
  function Pop(rs: seq<Reg>): seq<Instr> {
    if |rs| == 0 then [] else [LoadStack(rs[0]), Addi(Sp, Sp, 4)] + Pop(rs[1..])
  }

  /**
   * `solve_int_expression`: `$t0 := 0`, then add or subtract each TERM2 of
   * the EXP2 (reached through the first TERM1 and FACT1 when given an
   * EXPRESSION) according to the PLUS or MINUS before it.
   */
  function SolveInt(n: Node): (r: Code)
    decreases n, 1
    ensures r.Ok? ==> |r.value| > 0 && r.value[0] == Li(T0, 0)
  {
    var e :- if n.tag == "EXP2" then Ok(n) else At(n, [0, 0, 0]);
    AtDecreases(n, [0, 0, 0]);
    var body :- SumCode(e.children, true);
    Ok([Li(T0, 0)] + body)
  }

  /** A node reached by a path lies below the node the path starts from. */
  lemma AtDecreases(n: Node, path: seq<nat>)
    ensures At(n, path).Ok? && |path| > 0 ==> At(n, path).value < n
    decreases |path|
  {
    if |path| > 0 && path[0] < |n.children| {
      AtDecreases(n.children[path[0]], path[1..]);
    }
  }

  /** The loop of `solve_int_expression`; `plus` is the sign the next TERM2 takes. */
  function SumCode(ns: seq<Node>, plus: bool): (r: Code)
    decreases ns, 0
  {
    if |ns| == 0 then Ok([])
    else
      var c := ns[0];
      var here :-
        if c.tag == "TERM2" then
          var t :- TermCode(c);
          Ok(t + [if plus then Add(T0, T0, T1) else Sub(T0, T0, T1)])
        else Ok([]);
      var plus' := if c.tag == "PLUS" then true else if c.tag == "MINUS" then false else plus;
      var rest :- SumCode(ns[1..], plus');
      Ok(here + rest)
  }

  /** `int_expression_helper`: `$t1 := 0`, then fold the factors of a TERM2 into `$t1`. */
  function TermCode(t: Node): (r: Code)
    decreases t, 0
    ensures r.Ok? ==> |r.value| > 0 && r.value[0] == Li(T1, 0)
  {
    var body :- FactorsCode(t.children, 0, false, Times);
    Ok([Li(T1, 0)] + body)
  }

  datatype MulOp = Times | Divide | Modulo

  /**
   * The `enumerate` loop of `int_expression_helper` from position `i` on.
   * Any non-LAMBDA SIGN sets `negative` for the rest of the TERM2; the
   * child at position 1 is added to `$t1`, later FACT2s are combined with
   * the last operator seen.
   */
  function FactorsCode(ns: seq<Node>, i: nat, negative: bool, op: MulOp): (r: Code)
    decreases ns, 0
  {
    if |ns| == 0 then Ok([])
    else
      var c := ns[0];
      var neg' :-
        if c.tag == "SIGN" then
          var sc :- Child(c, 0);
          Ok(negative || sc.tag != "LAMBDA")
        else Ok(negative);
      if i == 1 then
        var v :- Child(c, 0);
        var f :- FactorCode(v, neg');
        var rest :- FactorsCode(ns[1..], i + 1, neg', op);
        Ok(f + [Add(T1, T1, T2)] + rest)
      else
        var op' := if c.tag == "TIMES" then Times else if c.tag == "DIVIDE" then Divide
                   else if c.tag == "MODULO" then Modulo else op;
        var here :-
          if c.tag == "FACT2" then
            var v :- Child(c, 0);
            var f :- FactorCode(v, neg');
            Ok(f + CombineCode(op'))
          else Ok([]);
        var rest :- FactorsCode(ns[1..], i + 1, neg', op');
        Ok(here + rest)
  }

  function CombineCode(op: MulOp): seq<Instr> {
    match op
    case Times => [Mult(T1, T2), Mflo(T1)]
    case Divide => [Div(T1, T2), Mflo(T1)]
    case Modulo => [Div(T1, T2), Mfhi(T1)]
  }

  /**
   * `solve_fact2`: the value of a factor's inner node into `$t2`, negated
   * through `$t6` when the TERM2 has turned negative.
   */
  function FactorCode(v: Node, negative: bool): (r: Code)
    decreases v, 3
  {
    var load :- LoadCode(v);
    Ok(load + NegateCode(negative))
  }

  /**
   * The load half of `solve_fact2`: a variable or a literal straight into
   * `$t2`; a parenthesised expression is solved between a push and a pop of
   * `$t0` and `$t1`, and its value moved into `$t2`. Any other kind of node
   * loads nothing.
   */
  function LoadCode(v: Node): (r: Code)
    decreases v, 2
  {
    if v.tag == "IDENT" then
      var x :- ValueOf(v);
      Ok([LoadWord(T2, x)])
    else if v.tag == "INTLIT" then
      var x :- ValueOf(v);
      Ok([LiLexeme(T2, x)])
    else if v.tag == "EXPRESSION" then
      var inner :- SolveInt(v);
      Ok(Push([T0, T1]) + inner + [Move(T2, T0)] + Pop([T1, T0]))
    else Ok([])
  }

  /** `$t2 := 0 - $t2` through `$t6`, when negative. */
  function NegateCode(negative: bool): seq<Instr> {
    if negative then [Li(T6, 0), Sub(T2, T6, T2)] else []
  }

  // ---------------------------------------------------------------- booleans

  /** `solve_bool_expression`: `$t6 := 0`, then OR in each TERM1. */
  function SolveBool(n: Node): (r: Code)
    decreases n, 1
    ensures r.Ok? ==> |r.value| > 0 && r.value[0] == Li(T6, 0)
  {
    var body :- OrCode(n.children);
    Ok([Li(T6, 0)] + body)
  }

  function OrCode(ns: seq<Node>): (r: Code)
    decreases ns, 0
  {
    if |ns| == 0 then Ok([])
    else
      var here :-
        if ns[0].tag == "TERM1" then
          var t :- SolveTerm1(ns[0]);
          Ok(t + [Or(T6, T6, T7)])
        else Ok([]);
      var rest :- OrCode(ns[1..]);
      Ok(here + rest)
  }

  /** `solve_term1`: `$t7 := 1`, then AND in each FACT1. */
  function SolveTerm1(t: Node): (r: Code)
    decreases t, 1
    ensures r.Ok? ==> |r.value| > 0 && r.value[0] == Li(T7, 1)
  {
    var body :- AndCode(t.children);
    Ok([Li(T7, 1)] + body)
  }

  function AndCode(ns: seq<Node>): (r: Code)
    decreases ns, 0
  {
    if |ns| == 0 then Ok([])
    else
      var here :-
        if ns[0].tag == "FACT1" then
          var f :- SolveFact1(ns[0]);
          Ok(f + [And(T7, T7, T8)])
        else Ok([]);
      var rest :- AndCode(ns[1..]);
      Ok(here + rest)
  }

  /** The instruction `solve_fact1` writes for a relational operator, if it knows it. */
  function RelOpOf(op: string): Option<RelOp> {
    if op == "==" then Some(SetEq)
    else if op == "!=" then Some(SetNe)
    else if op == ">=" then Some(SetGe)
    else if op == "<=" then Some(SetLe)
    else if op == ">" then Some(SetGt)
    else if op == "<" then Some(SetLt)
    else None
  }

  /** `parseOperator`: the comparison an operator string denotes; `None` when it falls off the end. */
  function ParseOperator(a: int, op: string, b: int): (r: Option<bool>)
    ensures r.Some? <==> op in {"==", "!=", ">=", "<=", "<", ">"}
  {
    if op == "==" then Some(a == b)
    else if op == "!=" then Some(a != b)
    else if op == ">=" then Some(a >= b)
    else if op == "<=" then Some(a <= b)
    else if op == "<" then Some(a < b)
    else if op == ">" then Some(a > b)
    else None
  }

  /** The set-instruction chosen for an operator decides the comparison `parseOperator` evaluates. */
  lemma RelOpMatchesParseOperator(a: int, op: string, b: int)
    ensures RelOpOf(op).Some? <==> ParseOperator(a, op, b).Some?
    ensures RelOpOf(op).Some? ==> Holds(RelOpOf(op).value, a, b) == ParseOperator(a, op, b).value
  {
  }

  /**
   * `solve_fact1`: NOT flips the low bit of a boolean factor; a comparison
   * evaluates both EXP2s (the left one parked in `$t5`) and sets `$t8`; a
   * bare EXP2 is read as the boolean factor inside its first TERM2.
   */
  function SolveFact1(f: Node): (r: Code)
    decreases f, 0
  {
    var c0 :- Child(f, 0);
    if c0.tag == "NOT" then
      var c1 :- Child(f, 1);
      var b :- Fact2BoolCode(c1);
      Ok([Li(T8, -1)] + b + [Xor(T8, T8, T9), Andi(T8, T8, 1)])
    else if c0.tag == "EXP2" then
      var rel :- Child(f, 1);
      var r0 :- Child(rel, 0);
      if r0.tag != "LAMBDA" then
        var left :- SolveInt(c0);
        var r1 :- Child(rel, 1);
        var right :- SolveInt(r1);
        var setOp := if rel.val.Some? && RelOpOf(rel.val.value).Some?
                   then [Set(RelOpOf(rel.val.value).value, T8, T5, T0)] else [];
        Ok(left + [Move(T5, T0)] + right + setOp)
      else
        var g :- At(c0, [0, 1]);
        AtDecreases(c0, [0, 1]);
        var b :- Fact2BoolCode(g);
        Ok(b + [Move(T8, T9)])
    else Ok([])
  }

  /**
   * `solve_fact2_bool`: a boolean factor into `$t9`. Anything other than an
   * identifier or a literal is solved as a boolean expression between a
   * push and a pop of `$t6`, `$t7` and `$t8`.
   */
  function Fact2BoolCode(g: Node): (r: Code)
    decreases g, 2
  {
    var c :- Child(g, 0);
    if c.tag == "IDENT" then
      var x :- ValueOf(c);
      Ok([LoadWord(T9, x)])
    else if c.tag == "BOOLLIT" then
      Ok([Li(T9, if c.val == Some("True") then 1 else 0)])
    else
      var inner :- SolveBool(c);
      Ok(Push([T6, T7, T8]) + inner + [Move(T9, T6)] + Pop([T8, T7, T6]))
  }
}

/**
 * What integer lowering computes. `EvalInt` reads an expression sub-tree the
 * way `solve_int_expression` does (including the TERM2 sign that, once
 * negative, stays negative) and gives its value over the variables'
 * contents; the lemmas show the instructions the generator writes compute
 * exactly that value on the machine of `Mips`, leave `$sp`, the stack above
 * it and the variables as they found them, and restore the registers a
 * parenthesised operand saves.
 */
module IntProofs {
  import opened Wrappers
  import opened Syntax
  import opened Typing
  import opened Mips
  import opened Lowering
  import opened CodeFacts

  type Env = map<string, int>

  function EnvValue(env: Env, x: string): int {
    if x in env then env[x] else 0
  }

  /** The value of an integer expression: an EXP2, or the EXP2 under an EXPRESSION's first TERM1 and FACT1. */
  function EvalInt(n: Node, env: Env): Option<int>
    decreases n, 1
  {
    var e :- if n.tag == "EXP2" then Some(n) else if At(n, [0, 0, 0]).Ok? then Some(At(n, [0, 0, 0]).value) else None;
    AtDecreases(n, [0, 0, 0]);
    Sum(e.children, true, 0, env)
  }

  /** The terms of an EXP2 added to or subtracted from `acc`, each by the PLUS or MINUS before it. */
  function Sum(ns: seq<Node>, plus: bool, acc: int, env: Env): Option<int>
    decreases ns, 0
  {
    if |ns| == 0 then Some(acc)
    else
      var c := ns[0];
      var acc' :-
        if c.tag == "TERM2" then
          var v :- EvalTerm(c, env);
          Some(if plus then acc + v else acc - v)
        else Some(acc);
      Sum(ns[1..], if c.tag == "PLUS" then true else if c.tag == "MINUS" then false else plus, acc', env)
  }

  function EvalTerm(t: Node, env: Env): Option<int>
    decreases t, 0
  {
    Product(t.children, 0, false, Times, 0, env)
  }

  /**
   * The factors of a TERM2 from position `i` on: the first factor is added
   * to `acc`, later ones combined by the operator before them; every factor
   * from the first non-LAMBDA SIGN on is negated.
   */
  function Product(ns: seq<Node>, i: nat, negative: bool, op: MulOp, acc: int, env: Env): Option<int>
    decreases ns, 0
  {
    if |ns| == 0 then Some(acc)
    else
      var c := ns[0];
      var neg' :-
        if c.tag != "SIGN" then Some(negative)
        else if |c.children| == 0 then None
        else Some(negative || c.children[0].tag != "LAMBDA");
      if i == 1 then
        if |c.children| == 0 then None
        else
          var v :- Factor(c.children[0], neg', env);
          Product(ns[1..], i + 1, neg', op, acc + v, env)
      else
        var op' := if c.tag == "TIMES" then Times else if c.tag == "DIVIDE" then Divide
                   else if c.tag == "MODULO" then Modulo else op;
        var acc' :-
          if c.tag != "FACT2" then Some(acc)
          else if |c.children| == 0 then None
          else
            var v :- Factor(c.children[0], neg', env);
            Apply(op', acc, v);
        Product(ns[1..], i + 1, neg', op', acc', env)
  }

  /** A factor's operand, negated on request. */
  function Factor(v: Node, negative: bool, env: Env): Option<int>
    decreases v, 3
  {
    var x :- Operand(v, env);
    Some(if negative then 0 - x else x)
  }

  /** A variable's contents, a literal's value or a parenthesised expression's value. */
  function Operand(v: Node, env: Env): Option<int>
    decreases v, 2
  {
    if v.tag == "IDENT" then (if v.val.Some? then Some(EnvValue(env, v.val.value)) else None)
    else if v.tag == "INTLIT" then (if v.val.Some? && DecimalValue(v.val.value).Some? then Some(DecimalValue(v.val.value).value as int) else None)
    else if v.tag == "EXPRESSION" then EvalInt(v, env)
    else None
  }
  // ---------------------------------------------------------------- correctness

  /*
   * Each correctness lemma takes the code and the value as parameters tied
   * to the generator and the evaluator by its preconditions, and each
   * recursive step first takes its node apart with a `...Shape` lemma that
   * names the pieces; the machine-level reasoning then sees only those names.
   */

  /** An integer expression's code leaves its value in `$t0`. */
  lemma {:induction false} IntCorrect(n: Node, m: State, code: seq<Instr>, v: int)
    requires SolveInt(n) == Ok(code) && EvalInt(n, m.vars) == Some(v)
    ensures Computes(code, m, T0, v, {T0, T1, T2, T6})
    decreases n, 1
  {
    var e := if n.tag == "EXP2" then n else At(n, [0, 0, 0]).value;
    AtDecreases(n, [0, 0, 0]);
    var body := SumCode(e.children, true).value;
    assert code == [Li(T0, 0)] + body;
    assert Sum(e.children, true, 0, m.vars) == Some(v);
    SumCorrect(e.children, true, 0, m.vars, Put(m, T0, 0), body, v);
    LeadLi(T0, 0, body, m, T0, v, {T0, T1, T2, T6});
  }

  /** The terms' code adds each term's value to `$t0` or subtracts it. */
  lemma {:induction false} SumCorrect(ns: seq<Node>, plus: bool, acc: int, env: Env, m: State, code: seq<Instr>, y: int)
    requires Get(m, T0) == acc && m.vars == env
    requires SumCode(ns, plus) == Ok(code) && Sum(ns, plus, acc, env) == Some(y)
    ensures Computes(code, m, T0, y, {T0, T1, T2, T6})
    decreases ns, 1
  {
    if |ns| == 0 {
      assert code == [] && y == acc;
      RunsNil(m);
      RunsWeaken([], m, m, {}, {T0, T1, T2, T6});
    } else if ns[0].tag == "TERM2" {
      TermStepCorrect(ns, plus, acc, env, m, code, y);
    } else {
      var plus' := SkipSumShape(ns, plus, acc, env, code, y);
      SumCorrect(ns[1..], plus', acc, env, m, code, y);
    }
  }

  lemma SkipSumShape(ns: seq<Node>, plus: bool, acc: int, env: Env, code: seq<Instr>, y: int) returns (plus': bool)
    requires |ns| > 0 && ns[0].tag != "TERM2"
    requires SumCode(ns, plus) == Ok(code) && Sum(ns, plus, acc, env) == Some(y)
    ensures SumCode(ns[1..], plus') == Ok(code) && Sum(ns[1..], plus', acc, env) == Some(y)
  {
    plus' := if ns[0].tag == "PLUS" then true else if ns[0].tag == "MINUS" then false else plus;
    assert [] + SumCode(ns[1..], plus').value == SumCode(ns[1..], plus').value;
  }

  lemma TermStepShape(ns: seq<Node>, plus: bool, acc: int, env: Env, code: seq<Instr>, y: int)
    returns (t: seq<Instr>, rest: seq<Instr>, v: int, acc': int)
    requires |ns| > 0 && ns[0].tag == "TERM2"
    requires SumCode(ns, plus) == Ok(code) && Sum(ns, plus, acc, env) == Some(y)
    ensures TermCode(ns[0]) == Ok(t) && EvalTerm(ns[0], env) == Some(v)
    ensures acc' == (if plus then acc + v else acc - v)
    ensures SumCode(ns[1..], plus) == Ok(rest) && Sum(ns[1..], plus, acc', env) == Some(y)
    ensures code == t + [if plus then Add(T0, T0, T1) else Sub(T0, T0, T1)] + rest
  {
    t := TermCode(ns[0]).value;
    rest := SumCode(ns[1..], plus).value;
    v := EvalTerm(ns[0], env).value;
    acc' := if plus then acc + v else acc - v;
  }

  /** One TERM2 of the sum: its value into `$t1`, then into `$t0`, then the rest. */
  lemma {:induction false} TermStepCorrect(ns: seq<Node>, plus: bool, acc: int, env: Env, m: State, code: seq<Instr>, y: int)
    requires |ns| > 0 && ns[0].tag == "TERM2"
    requires Get(m, T0) == acc && m.vars == env
    requires SumCode(ns, plus) == Ok(code) && Sum(ns, plus, acc, env) == Some(y)
    ensures Computes(code, m, T0, y, {T0, T1, T2, T6})
    decreases ns, 0
  {
    var t, rest, v, acc' := TermStepShape(ns, plus, acc, env, code, y);
    TermCorrect(ns[0], env, m, t, v);
    SumCorrect(ns[1..], plus, acc', env, Put(Exec(t, m).value, T0, acc'), rest, y);
    AccumulateRuns(t, if plus then Add(T0, T0, T1) else Sub(T0, T0, T1), rest, m, v, acc', y);
  }

  /** A term's code leaves its value in `$t1` and keeps `$t0`. */
  lemma {:induction false} TermCorrect(t: Node, env: Env, m: State, code: seq<Instr>, v: int)
    requires m.vars == env
    requires TermCode(t) == Ok(code) && EvalTerm(t, env) == Some(v)
    ensures Computes(code, m, T1, v, {T1, T2, T6})
    decreases t, 0
  {
    var body := FactorsCode(t.children, 0, false, Times).value;
    assert code == [Li(T1, 0)] + body;
    FactorsCorrect(t.children, 0, false, Times, 0, env, Put(m, T1, 0), body, v);
    LeadLi(T1, 0, body, m, T1, v, {T1, T2, T6});
  }

  /** The factors' code folds each factor into `$t1` and keeps `$t0`. */
  lemma {:induction false} FactorsCorrect(ns: seq<Node>, i: nat, negative: bool, op: MulOp, acc: int, env: Env, m: State,
                                          code: seq<Instr>, y: int)
    requires Get(m, T1) == acc && m.vars == env
    requires FactorsCode(ns, i, negative, op) == Ok(code) && Product(ns, i, negative, op, acc, env) == Some(y)
    ensures Computes(code, m, T1, y, {T1, T2, T6})
    decreases ns, 1
  {
    if |ns| == 0 {
      assert code == [] && y == acc;
      RunsNil(m);
      RunsWeaken([], m, m, {}, {T1, T2, T6});
    } else if i == 1 {
      FirstFactorCorrect(ns, negative, op, acc, env, m, code, y);
    } else if ns[0].tag == "FACT2" {
      LaterFactorCorrect(ns, i, negative, op, acc, env, m, code, y);
    } else {
      var neg', op' := SkipFactorShape(ns, i, negative, op, acc, env, code, y);
      FactorsCorrect(ns[1..], i + 1, neg', op', acc, env, m, code, y);
    }
  }

  /** The sign in force after the factor `c`: a SIGN other than LAMBDA turns negation on for good. */
  function SignAfter(c: Node, negative: bool): bool {
    negative || (c.tag == "SIGN" && |c.children| > 0 && c.children[0].tag != "LAMBDA")
  }

  /** The operator in force after the factor `c`. */
  function OpAfter(c: Node, op: MulOp): MulOp {
    if c.tag == "TIMES" then Times else if c.tag == "DIVIDE" then Divide else if c.tag == "MODULO" then Modulo else op
  }

  lemma SkipFactorShape(ns: seq<Node>, i: nat, negative: bool, op: MulOp, acc: int, env: Env, code: seq<Instr>, y: int)
    returns (neg': bool, op': MulOp)
    requires |ns| > 0 && i != 1 && ns[0].tag != "FACT2"
    requires FactorsCode(ns, i, negative, op) == Ok(code) && Product(ns, i, negative, op, acc, env) == Some(y)
    ensures FactorsCode(ns[1..], i + 1, neg', op') == Ok(code) && Product(ns[1..], i + 1, neg', op', acc, env) == Some(y)
  {
    neg' := SignAfter(ns[0], negative);
    op' := OpAfter(ns[0], op);
    assert [] + FactorsCode(ns[1..], i + 1, neg', op').value == FactorsCode(ns[1..], i + 1, neg', op').value;
  }

  /** The code and the value of the factor at position 1, in terms of its operand and the rest. */
  lemma FirstFactorShape(ns: seq<Node>, negative: bool, op: MulOp, acc: int, env: Env, code: seq<Instr>, y: int)
    returns (neg': bool, v: Node, f: seq<Instr>, rest: seq<Instr>, x: int)
    requires |ns| > 0
    requires FactorsCode(ns, 1, negative, op) == Ok(code) && Product(ns, 1, negative, op, acc, env) == Some(y)
    ensures |ns[0].children| > 0 && v == ns[0].children[0]
    ensures FactorCode(v, neg') == Ok(f) && Factor(v, neg', env) == Some(x)
    ensures FactorsCode(ns[1..], 2, neg', op) == Ok(rest) && Product(ns[1..], 2, neg', op, acc + x, env) == Some(y)
    ensures code == f + [Add(T1, T1, T2)] + rest
  {
    neg' := SignAfter(ns[0], negative);
    v := ns[0].children[0];
    f := FactorCode(v, neg').value;
    rest := FactorsCode(ns[1..], 2, neg', op).value;
    x := Factor(v, neg', env).value;
  }

  /** The operand at position 1 is added to `$t1`. */
  lemma {:induction false} FirstFactorCorrect(ns: seq<Node>, negative: bool, op: MulOp, acc: int, env: Env, m: State,
                                              code: seq<Instr>, y: int)
    requires |ns| > 0
    requires Get(m, T1) == acc && m.vars == env
    requires FactorsCode(ns, 1, negative, op) == Ok(code) && Product(ns, 1, negative, op, acc, env) == Some(y)
    ensures Computes(code, m, T1, y, {T1, T2, T6})
    decreases ns, 0
  {
    var neg', v, f, rest, x := FirstFactorShape(ns, negative, op, acc, env, code, y);
    FactorCorrect(v, neg', env, m, f, x);
    FactorsCorrect(ns[1..], 2, neg', op, acc + x, env, Put(Exec(f, m).value, T1, Get(m, T1) + x), rest, y);
    AddFactorRuns(f, rest, m, x, y);
  }

  /** The code and the value of a later FACT2, in terms of its operand and the rest. */
  lemma LaterFactorShape(ns: seq<Node>, i: nat, negative: bool, op: MulOp, acc: int, env: Env, code: seq<Instr>, y: int)
    returns (v: Node, f: seq<Instr>, rest: seq<Instr>, x: int, acc': int)
    requires |ns| > 0 && i != 1 && ns[0].tag == "FACT2"
    requires FactorsCode(ns, i, negative, op) == Ok(code) && Product(ns, i, negative, op, acc, env) == Some(y)
    ensures |ns[0].children| > 0 && v == ns[0].children[0]
    ensures FactorCode(v, negative) == Ok(f) && Factor(v, negative, env) == Some(x) && Apply(op, acc, x) == Some(acc')
    ensures FactorsCode(ns[1..], i + 1, negative, op) == Ok(rest) && Product(ns[1..], i + 1, negative, op, acc', env) == Some(y)
    ensures code == f + CombineCode(op) + rest
  {
    v := ns[0].children[0];
    f := FactorCode(v, negative).value;
    rest := FactorsCode(ns[1..], i + 1, negative, op).value;
    x := Factor(v, negative, env).value;
    acc' := Apply(op, acc, x).value;
  }

  /** A later FACT2 is combined with `$t1` by the operator last seen. */
  lemma {:induction false} LaterFactorCorrect(ns: seq<Node>, i: nat, negative: bool, op: MulOp, acc: int, env: Env, m: State,
                                              code: seq<Instr>, y: int)
    requires |ns| > 0 && i != 1 && ns[0].tag == "FACT2"
    requires Get(m, T1) == acc && m.vars == env
    requires FactorsCode(ns, i, negative, op) == Ok(code) && Product(ns, i, negative, op, acc, env) == Some(y)
    ensures Computes(code, m, T1, y, {T1, T2, T6})
    decreases ns, 0
  {
    var v, f, rest, x, acc' := LaterFactorShape(ns, i, negative, op, acc, env, code, y);
    FactorCorrect(v, negative, env, m, f, x);
    var m1 := Exec(f, m).value;
    CombineCorrect(op, m1);
    FactorsCorrect(ns[1..], i + 1, negative, op, acc', env, Combined(op, m1), rest, y);
    CombineFactorRuns(f, op, rest, m, x, y);
  }

  /** A factor's code leaves its (possibly negated) value in `$t2` and keeps `$t0` and `$t1`. */
  lemma {:induction false} FactorCorrect(v: Node, negative: bool, env: Env, m: State, code: seq<Instr>, x: int)
    requires m.vars == env
    requires FactorCode(v, negative) == Ok(code) && Factor(v, negative, env) == Some(x)
    ensures Computes(code, m, T2, x, {T2, T6})
    decreases v, 3
  {
    var load := LoadCode(v).value;
    var w := Operand(v, env).value;
    assert code == load + NegateCode(negative);
    LoadCorrect(v, env, m, load, w);
    LoadThenNegate(load, negative, m, w);
  }

  /** The load half leaves the operand's value in `$t2`. */
  lemma {:induction false} LoadCorrect(v: Node, env: Env, m: State, code: seq<Instr>, w: int)
    requires m.vars == env
    requires LoadCode(v) == Ok(code) && Operand(v, env) == Some(w)
    ensures Computes(code, m, T2, w, {T2, T6})
    decreases v, 2
  {
    if v.tag == "IDENT" {
      ExecLoadWord(T2, v.val.value, m);
      PutRuns(LoadWord(T2, v.val.value), m, T2, w);
      RunsWeaken(code, m, Put(m, T2, w), {T2}, {T2, T6});
    } else if v.tag == "INTLIT" {
      ExecLiLexeme(T2, v.val.value, m);
      PutRuns(LiLexeme(T2, v.val.value), m, T2, w);
      RunsWeaken(code, m, Put(m, T2, w), {T2}, {T2, T6});
    } else {
      var inner := SolveInt(v).value;
      assert code == Push([T0, T1]) + inner + [Move(T2, T0)] + Pop([T1, T0]);
      PushTwo(T0, T1, m);
      var m1 := Exec(Push([T0, T1]), m).value;
      IntCorrect(v, m1, inner, w);
      SavedAround(inner, m, Exec(inner, m1).value, w);
    }
  }
}

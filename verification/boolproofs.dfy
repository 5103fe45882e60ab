/**
 * What boolean lowering computes. `EvalBool` gives the value of a boolean
 * expression over the variables' contents (a boolean is stored as the word
 * 0 or 1), and the lemmas show that the code `solve_bool_expression` writes
 * leaves that value in `$t6` on the machine of `Mips`, as long as no unary
 * minus occurs in the expression: the negation of `solve_fact2` uses `$t6`
 * as scratch, and `$t6` is where the OR chain accumulates.
 */
module BoolProofs {
  import opened Wrappers
  import opened Syntax
  import opened Typing
  import opened Mips
  import opened Lowering
  import opened CodeFacts
  import opened IntProofs

  // ---------------------------------------------------------------- no negation

  /** No SIGN in the tree negates: every SIGN node's first child is LAMBDA. */
  predicate SignFree(n: Node)
    decreases n
  {
    && (n.tag == "SIGN" ==> |n.children| > 0 && n.children[0].tag == "LAMBDA")
    && forall k | 0 <= k < |n.children| :: SignFree(n.children[k])
  }

  predicate AllSignFree(ns: seq<Node>) {
    forall k | 0 <= k < |ns| :: SignFree(ns[k])
  }

  lemma {:induction false} SignFreeAt(n: Node, path: seq<nat>)
    requires SignFree(n) && At(n, path).Ok?
    ensures SignFree(At(n, path).value)
    decreases |path|
  {
    if |path| > 0 {
      SignFreeAt(n.children[path[0]], path[1..]);
    }
  }

  // ---------------------------------------------------------------- registers left alone

  /** The register an instruction writes, if any; stores write memory, not registers. */
  function Dest(i: Instr): Option<Reg> {
    match i
    case Li(rd, _) => Some(rd)
    case LiLexeme(rd, _) => Some(rd)
    case LoadWord(rd, _) => Some(rd)
    case LoadStack(rd) => Some(rd)
    case Addi(rd, _, _) => Some(rd)
    case Move(rd, _) => Some(rd)
    case Add(rd, _, _) => Some(rd)
    case Sub(rd, _, _) => Some(rd)
    case Or(rd, _, _) => Some(rd)
    case And(rd, _, _) => Some(rd)
    case Xor(rd, _, _) => Some(rd)
    case Andi(rd, _, _) => Some(rd)
    case Mflo(rd) => Some(rd)
    case Mfhi(rd) => Some(rd)
    case Set(_, rd, _, _) => Some(rd)
    case _ => None
  }

  /** No instruction of `code` names `r` as its destination. */
  predicate Spares(code: seq<Instr>, r: Reg) {
    forall k | 0 <= k < |code| :: Dest(code[k]) != Some(r)
  }

  /** A register write other than `$sp` keeps `$sp`, the memory and the variables. */
  lemma PutFrame(m: State, r: Reg, v: int)
    requires r != Sp
    ensures Get(Put(m, r, v), Sp) == Get(m, Sp) && Put(m, r, v).mem == m.mem && Put(m, r, v).vars == m.vars
  {
  }

  lemma PutGet(m: State, r: Reg, v: int)
    requires r != Zero
    ensures Get(Put(m, r, v), r) == v
  {
  }

  lemma GetPut(m: State, rd: Reg, v: int, r: Reg)
    requires rd != r
    ensures Get(Put(m, rd, v), r) == Get(m, r)
  {
    match rd
    case Zero =>
    case V0 =>
    case A0 =>
    case T0 =>
    case T1 =>
    case T2 =>
    case T5 =>
    case T6 =>
    case T7 =>
    case T8 =>
    case T9 =>
    case Sp =>
  }

  /** An instruction that does not write `r` leaves it as it was. */
  lemma StepSpares(i: Instr, m: State, r: Reg)
    requires Step(i, m).Some? && Dest(i) != Some(r)
    ensures Get(Step(i, m).value, r) == Get(m, r)
  {
    match i
    case Li(rd, imm) => LiSpares(rd, imm, m, r);
    case LiLexeme(rd, lx) => LiLexemeSpares(rd, lx, m, r);
    case LoadWord(rd, x) => LoadWordSpares(rd, x, m, r);
    case LoadStack(rd) => LoadStackSpares(rd, m, r);
    case Addi(rd, rs, imm) => AddiSpares(rd, rs, imm, m, r);
    case Move(rd, rs) => MoveSpares(rd, rs, m, r);
    case Add(rd, rs, rt) => AddSpares(rd, rs, rt, m, r);
    case Sub(rd, rs, rt) => SubSpares(rd, rs, rt, m, r);
    case Or(rd, rs, rt) => OrSpares(rd, rs, rt, m, r);
    case And(rd, rs, rt) => AndSpares(rd, rs, rt, m, r);
    case Xor(rd, rs, rt) => XorSpares(rd, rs, rt, m, r);
    case Andi(rd, rs, imm) => AndiSpares(rd, rs, imm, m, r);
    case Mflo(rd) => MfloSpares(rd, m, r);
    case Mfhi(rd) => MfhiSpares(rd, m, r);
    case Set(op, rd, rs, rt) => SetSpares(op, rd, rs, rt, m, r);
    case _ =>
  }

  lemma LiSpares(rd: Reg, imm: int, m: State, r: Reg)
    requires rd != r
    ensures Get(Step(Li(rd, imm), m).value, r) == Get(m, r)
  {
    WriteSpares(m, rd, imm, r);
  }

  lemma LiLexemeSpares(rd: Reg, lx: string, m: State, r: Reg)
    requires Step(LiLexeme(rd, lx), m).Some? && rd != r
    ensures Get(Step(LiLexeme(rd, lx), m).value, r) == Get(m, r)
  {
    WriteSpares(m, rd, DecimalValue(lx).value, r);
  }

  lemma LoadWordSpares(rd: Reg, x: string, m: State, r: Reg)
    requires rd != r
    ensures Get(Step(LoadWord(rd, x), m).value, r) == Get(m, r)
  {
    WriteSpares(m, rd, Var(m, x), r);
  }

  lemma LoadStackSpares(rd: Reg, m: State, r: Reg)
    requires rd != r
    ensures Get(Step(LoadStack(rd), m).value, r) == Get(m, r)
  {
    WriteSpares(m, rd, Mem(m, Get(m, Sp)), r);
  }

  lemma AddiSpares(rd: Reg, rs: Reg, imm: int, m: State, r: Reg)
    requires rd != r
    ensures Get(Step(Addi(rd, rs, imm), m).value, r) == Get(m, r)
  {
    WriteSpares(m, rd, Get(m, rs) + imm, r);
  }

  lemma MoveSpares(rd: Reg, rs: Reg, m: State, r: Reg)
    requires rd != r
    ensures Get(Step(Move(rd, rs), m).value, r) == Get(m, r)
  {
    WriteSpares(m, rd, Get(m, rs), r);
  }

  lemma AddSpares(rd: Reg, rs: Reg, rt: Reg, m: State, r: Reg)
    requires rd != r
    ensures Get(Step(Add(rd, rs, rt), m).value, r) == Get(m, r)
  {
    WriteSpares(m, rd, Get(m, rs) + Get(m, rt), r);
  }

  lemma SubSpares(rd: Reg, rs: Reg, rt: Reg, m: State, r: Reg)
    requires rd != r
    ensures Get(Step(Sub(rd, rs, rt), m).value, r) == Get(m, r)
  {
    WriteSpares(m, rd, Get(m, rs) - Get(m, rt), r);
  }

  lemma OrSpares(rd: Reg, rs: Reg, rt: Reg, m: State, r: Reg)
    requires rd != r
    ensures Get(Step(Or(rd, rs, rt), m).value, r) == Get(m, r)
  {
    WriteSpares(m, rd, BitOr(Get(m, rs), Get(m, rt)), r);
  }

  lemma AndSpares(rd: Reg, rs: Reg, rt: Reg, m: State, r: Reg)
    requires rd != r
    ensures Get(Step(And(rd, rs, rt), m).value, r) == Get(m, r)
  {
    WriteSpares(m, rd, BitAnd(Get(m, rs), Get(m, rt)), r);
  }

  lemma XorSpares(rd: Reg, rs: Reg, rt: Reg, m: State, r: Reg)
    requires rd != r
    ensures Get(Step(Xor(rd, rs, rt), m).value, r) == Get(m, r)
  {
    WriteSpares(m, rd, BitXor(Get(m, rs), Get(m, rt)), r);
  }

  lemma AndiSpares(rd: Reg, rs: Reg, imm: int, m: State, r: Reg)
    requires rd != r
    ensures Get(Step(Andi(rd, rs, imm), m).value, r) == Get(m, r)
  {
    WriteSpares(m, rd, BitAnd(Get(m, rs), imm), r);
  }

  lemma MfloSpares(rd: Reg, m: State, r: Reg)
    requires rd != r
    ensures Get(Step(Mflo(rd), m).value, r) == Get(m, r)
  {
    ExecOne(Mflo(rd), m);
    ExecMflo(rd, m);
    WriteSpares(m, rd, m.lo, r);
  }

  lemma MfhiSpares(rd: Reg, m: State, r: Reg)
    requires rd != r
    ensures Get(Step(Mfhi(rd), m).value, r) == Get(m, r)
  {
    ExecOne(Mfhi(rd), m);
    ExecMfhi(rd, m);
    WriteSpares(m, rd, m.hi, r);
  }

  lemma SetSpares(op: RelOp, rd: Reg, rs: Reg, rt: Reg, m: State, r: Reg)
    requires rd != r
    ensures Get(Step(Set(op, rd, rs, rt), m).value, r) == Get(m, r)
  {
    WriteSpares(m, rd, if Holds(op, Get(m, rs), Get(m, rt)) then 1 else 0, r);
  }

  /** A write of `v` to `rd` leaves every other register as it was. */
  lemma WriteSpares(m: State, rd: Reg, v: int, r: Reg)
    requires Some(rd) != Some(r)
    ensures Get(Put(m, rd, v), r) == Get(m, r)
  {
    GetPut(m, rd, v, r);
  }

  /** Code that never names `r` as a destination leaves `r` as it was. */
  lemma {:induction false} ExecSpares(code: seq<Instr>, m: State, r: Reg)
    requires Exec(code, m).Some? && Spares(code, r)
    ensures Get(Exec(code, m).value, r) == Get(m, r)
    decreases |code|
  {
    if |code| > 0 {
      assert Exec(code, m) == StepThen(code[0], code[1..], m);
      var m1 := Step(code[0], m).value;
      StepSpares(code[0], m, r);
      assert Spares(code[1..], r) by {
        forall k | 0 <= k < |code| - 1 ensures Dest(code[1..][k]) != Some(r) {
          assert code[1..][k] == code[k + 1];
        }
      }
      ExecSpares(code[1..], m1, r);
    }
  }

  lemma SparesConcat(a: seq<Instr>, b: seq<Instr>, r: Reg)
    requires Spares(a, r) && Spares(b, r)
    ensures Spares(a + b, r)
  {
    forall k | 0 <= k < |a + b| ensures Dest((a + b)[k]) != Some(r) {
      if k < |a| {
        assert (a + b)[k] == a[k];
      } else {
        assert (a + b)[k] == b[k - |a|];
      }
    }
  }

  lemma Spares3(a: seq<Instr>, b: seq<Instr>, c: seq<Instr>, r: Reg)
    requires Spares(a, r) && Spares(b, r) && Spares(c, r)
    ensures Spares(a + b + c, r)
  {
    SparesConcat(a, b, r);
    SparesConcat(a + b, c, r);
  }

  /** Integer code for an expression without unary minus never writes `$t6`. */
  lemma {:induction false} SolveIntSpares(n: Node)
    requires SolveInt(n).Ok? && SignFree(n)
    ensures Spares(SolveInt(n).value, T6)
    decreases n, 1
  {
    var e := if n.tag == "EXP2" then n else At(n, [0, 0, 0]).value;
    AtDecreases(n, [0, 0, 0]);
    if n.tag != "EXP2" {
      SignFreeAt(n, [0, 0, 0]);
    }
    SumSpares(e.children, true);
    SparesConcat([Li(T0, 0)], SumCode(e.children, true).value, T6);
  }

  lemma {:induction false} SumSpares(ns: seq<Node>, plus: bool)
    requires SumCode(ns, plus).Ok? && AllSignFree(ns)
    ensures Spares(SumCode(ns, plus).value, T6)
    decreases ns, 0
  {
    if |ns| > 0 {
      var c := ns[0];
      var plus' := if c.tag == "PLUS" then true else if c.tag == "MINUS" then false else plus;
      assert AllSignFree(ns[1..]) by {
        forall k | 0 <= k < |ns| - 1 ensures SignFree(ns[1..][k]) {
          assert ns[1..][k] == ns[k + 1];
        }
      }
      SumSpares(ns[1..], plus');
      var rest := SumCode(ns[1..], plus').value;
      if c.tag == "TERM2" {
        TermSpares(c);
        var t := TermCode(c).value;
        Spares3(t, [if plus then Add(T0, T0, T1) else Sub(T0, T0, T1)], rest, T6);
        assert SumCode(ns, plus).value == t + [if plus then Add(T0, T0, T1) else Sub(T0, T0, T1)] + rest;
      } else {
        assert SumCode(ns, plus).value == [] + rest;
      }
    }
  }

  lemma {:induction false} TermSpares(t: Node)
    requires TermCode(t).Ok? && SignFree(t)
    ensures Spares(TermCode(t).value, T6)
    decreases t, 0
  {
    FactorsSpares(t.children, 0, Times);
    SparesConcat([Li(T1, 0)], FactorsCode(t.children, 0, false, Times).value, T6);
  }

  lemma {:induction false} FactorsSpares(ns: seq<Node>, i: nat, op: MulOp)
    requires FactorsCode(ns, i, false, op).Ok? && AllSignFree(ns)
    ensures Spares(FactorsCode(ns, i, false, op).value, T6)
    decreases ns, 0
  {
    if |ns| > 0 {
      var c := ns[0];
      assert SignFree(c);
      assert AllSignFree(ns[1..]) by {
        forall k | 0 <= k < |ns| - 1 ensures SignFree(ns[1..][k]) {
          assert ns[1..][k] == ns[k + 1];
        }
      }
      if i == 1 {
        var v := c.children[0];
        assert SignFree(v);
        FactorSpares(v);
        FactorsSpares(ns[1..], i + 1, op);
        Spares3(FactorCode(v, false).value, [Add(T1, T1, T2)], FactorsCode(ns[1..], i + 1, false, op).value, T6);
      } else {
        var op' := if c.tag == "TIMES" then Times else if c.tag == "DIVIDE" then Divide
                   else if c.tag == "MODULO" then Modulo else op;
        FactorsSpares(ns[1..], i + 1, op');
        var rest := FactorsCode(ns[1..], i + 1, false, op').value;
        if c.tag == "FACT2" {
          var v := c.children[0];
          assert SignFree(v);
          FactorSpares(v);
          Spares3(FactorCode(v, false).value, CombineCode(op'), rest, T6);
        } else {
          assert FactorsCode(ns, i, false, op).value == [] + rest;
        }
      }
    }
  }

  lemma {:induction false} FactorSpares(v: Node)
    requires FactorCode(v, false).Ok? && SignFree(v)
    ensures Spares(FactorCode(v, false).value, T6)
    decreases v, 3
  {
    LoadSpares(v);
    assert FactorCode(v, false).value == LoadCode(v).value + [];
  }

  lemma {:induction false} LoadSpares(v: Node)
    requires LoadCode(v).Ok? && SignFree(v)
    ensures Spares(LoadCode(v).value, T6)
    decreases v, 2
  {
    if v.tag == "EXPRESSION" {
      SolveIntSpares(v);
      var inner := SolveInt(v).value;
      assert Push([T0, T1]) == [Addi(Sp, Sp, -4), StoreStack(T0)] + [Addi(Sp, Sp, -4), StoreStack(T1)] by {
        PushPair(T0, T1);
      }
      assert Pop([T1, T0]) == [LoadStack(T1), Addi(Sp, Sp, 4)] + [LoadStack(T0), Addi(Sp, Sp, 4)] by {
        PopPair(T1, T0);
      }
      Spares3(Push([T0, T1]), inner, [Move(T2, T0)], T6);
      SparesConcat(Push([T0, T1]) + inner + [Move(T2, T0)], Pop([T1, T0]), T6);
    }
  }

  /** Integer code without unary minus computes its value and keeps `$t6`. */
  lemma IntKeepsT6(n: Node, m: State, code: seq<Instr>, v: int)
    requires SolveInt(n) == Ok(code) && EvalInt(n, m.vars) == Some(v) && SignFree(n)
    ensures Computes(code, m, T0, v, {T0, T1, T2})
  {
    IntCorrect(n, m, code, v);
    SolveIntSpares(n);
    ExecSpares(code, m, T6);
    var m' := Exec(code, m).value;
    assert Keeps(m, m', {T0, T1, T2}) by {
      forall r | r !in {T0, T1, T2} ensures Get(m', r) == Get(m, r) {
        if r != T6 {
          assert r !in {T0, T1, T2, T6};
        }
      }
    }
  }

  // ---------------------------------------------------------------- the value of a boolean expression

  /** A boolean as the word the generated code keeps it in. */
  function Truth(b: bool): int {
    if b then 1 else 0
  }

  /**
   * The value of a boolean EXPRESSION: its TERM1 children OR-ed together
   * (the OR tokens between them are skipped).
   */
  function EvalBool(n: Node, env: Env): Option<bool>
    decreases n, 1
  {
    AnyOf(n.children, false, env)
  }

  function AnyOf(ns: seq<Node>, acc: bool, env: Env): Option<bool>
    decreases ns, 0
  {
    if |ns| == 0 then Some(acc)
    else
      var acc' :-
        if ns[0].tag == "TERM1" then
          var t :- EvalTerm1(ns[0], env);
          Some(acc || t)
        else Some(acc);
      AnyOf(ns[1..], acc', env)
  }

  /** The value of a TERM1: its FACT1 children AND-ed together. */
  function EvalTerm1(t: Node, env: Env): Option<bool>
    decreases t, 1
  {
    AllOf(t.children, true, env)
  }

  function AllOf(ns: seq<Node>, acc: bool, env: Env): Option<bool>
    decreases ns, 0
  {
    if |ns| == 0 then Some(acc)
    else
      var acc' :-
        if ns[0].tag == "FACT1" then
          var f :- EvalFact1(ns[0], env);
          Some(acc && f)
        else Some(acc);
      AllOf(ns[1..], acc', env)
  }

  /**
   * The value of a FACT1: the negation of a boolean factor after NOT; a
   * comparison of two integer expressions under the operator the relation
   * node carries; or, when the relation is LAMBDA, the boolean factor in the
   * first factor position of the EXP2's first TERM2.
   */
  function EvalFact1(f: Node, env: Env): Option<bool>
    decreases f, 0
  {
    if |f.children| < 2 then None
    else
      var c0, rel := f.children[0], f.children[1];
      if c0.tag == "NOT" then
        var b :- BoolFactor(rel, env);
        Some(!b)
      else if c0.tag != "EXP2" || |rel.children| == 0 then None
      else if rel.children[0].tag != "LAMBDA" then
        if |rel.children| < 2 || rel.val.None? then None
        else
          var a :- EvalInt(c0, env);
          var b :- EvalInt(rel.children[1], env);
          ParseOperator(a, rel.val.value, b)
      else if At(c0, [0, 1]).Err? then None
      else
        AtDecreases(c0, [0, 1]);
        BoolFactor(At(c0, [0, 1]).value, env)
  }

  /**
   * The value of a boolean factor: a variable holding 0 or 1, a literal
   * (true exactly when its lexeme is `True`), or a parenthesised expression.
   */
  function BoolFactor(g: Node, env: Env): Option<bool>
    decreases g, 2
  {
    if |g.children| == 0 then None
    else
      var c := g.children[0];
      if c.tag == "IDENT" then
        if c.val.None? then None
        else
          var w := EnvValue(env, c.val.value);
          if w == 0 || w == 1 then Some(w == 1) else None
      else if c.tag == "BOOLLIT" then Some(c.val == Some("True"))
      else EvalBool(c, env)
  }

  // ---------------------------------------------------------------- words 0 and 1

  lemma BitsSmall()
    ensures Bits(0) == 0 && Bits(1) == 1 && Bits(-1) == 0xFFFF_FFFF && Bits(-2) == 0xFFFF_FFFE
  {
    BitsPositive();
    BitsNegative();
  }

  lemma BitsPositive()
    ensures Bits(0) == 0 && Bits(1) == 1
  {
    assert 0 % 0x1_0000_0000 == 0 && 1 % 0x1_0000_0000 == 1;
  }

  lemma BitsNegative()
    ensures Bits(-1) == 0xFFFF_FFFF && Bits(-2) == 0xFFFF_FFFE
  {
    assert -1 % 0x1_0000_0000 == 0xFFFF_FFFF;
    assert -2 % 0x1_0000_0000 == 0xFFFF_FFFE;
  }

  lemma OrTruth(a: bool, b: bool)
    ensures BitOr(Truth(a), Truth(b)) == Truth(a || b)
  {
    BitsSmall();
    var x: bv32, y: bv32, z: bv32 := 1 | 1, 1 | 0, 0 | 1;
    assert x == 1 && y == 1 && z == 1;
  }

  lemma AndTruth(a: bool, b: bool)
    ensures BitAnd(Truth(a), Truth(b)) == Truth(a && b)
  {
    BitsSmall();
    var x: bv32, y: bv32, z: bv32 := 1 & 1, 1 & 0, 0 & 1;
    assert x == 1 && y == 0 && z == 0;
  }

  /** `li $t8, -1`, `xor $t8, $t8, $t9`, `andi $t8, $t8, 1` negates a word 0 or 1. */
  lemma NotTruth(a: bool)
    ensures BitAnd(BitXor(-1, Truth(a)), 1) == Truth(!a)
  {
    BitsSmall();
    if a {
      var x: bv32 := 0xFFFF_FFFF ^ 1;
      assert x == 0xFFFF_FFFE;
      var y: bv32 := 0xFFFF_FFFE & 1;
      assert y == 0;
    } else {
      var x: bv32 := 0xFFFF_FFFF ^ 0;
      assert x == 0xFFFF_FFFF;
      var y: bv32 := 0xFFFF_FFFF & 1;
      assert y == 1;
    }
  }

  // ---------------------------------------------------------------- saving $t6, $t7 and $t8

  /** What a boolean factor's code may write. */
  const FactorRegs: set<Reg> := {T0, T1, T2, T5, T9}
  /** What a FACT1's code may write: its result goes to `$t8`. */
  const Fact1Regs: set<Reg> := FactorRegs + {T8}
  /** What a TERM1's code may write: its result goes to `$t7`. */
  const Term1Regs: set<Reg> := Fact1Regs + {T7}
  /** What a boolean expression's code may write: its result goes to `$t6`. */
  const BoolRegs: set<Reg> := Term1Regs + {T6}

  lemma PushTriple(a: Reg, b: Reg, c: Reg)
    ensures Push([a, b, c]) == [Addi(Sp, Sp, -4), StoreStack(a)] + Push([b, c])
  {
    assert [a, b, c][0] == a && [a, b, c][1..] == [b, c];
  }

  lemma PopTriple(a: Reg, b: Reg, c: Reg)
    ensures Pop([a, b, c]) == [LoadStack(a), Addi(Sp, Sp, 4)] + Pop([b, c])
  {
    assert [a, b, c][0] == a && [a, b, c][1..] == [b, c];
  }

  /** `Push([T6, T7, T8])` is three single pushes. */
  lemma PushThreeExec(m: State)
    ensures Exec(Push([T6, T7, T8]), m) == Some(PushOne(T8, PushOne(T7, PushOne(T6, m))))
  {
    var m1 := PushOne(T6, m);
    var m2 := PushOne(T7, m1);
    PushPair(T7, T8);
    ExecThen([Addi(Sp, Sp, -4), StoreStack(T7)], [Addi(Sp, Sp, -4), StoreStack(T8)], m1, m2);
    PushTriple(T6, T7, T8);
    ExecThen([Addi(Sp, Sp, -4), StoreStack(T6)], Push([T7, T8]), m, m1);
  }

  /** `Push([T6, T7, T8])`: the three registers one, two and three words below `$sp`. */
  lemma PushThree(m: State)
    ensures Exec(Push([T6, T7, T8]), m).Some?
    ensures var m' := Exec(Push([T6, T7, T8]), m).value;
            && Get(m', Sp) == Get(m, Sp) - 12
            && (forall r :: r != Sp ==> Get(m', r) == Get(m, r))
            && m'.vars == m.vars
            && (forall x :: x >= Get(m, Sp) ==> Mem(m', x) == Mem(m, x))
            && Mem(m', Get(m, Sp) - 4) == Get(m, T6)
            && Mem(m', Get(m, Sp) - 8) == Get(m, T7)
            && Mem(m', Get(m, Sp) - 12) == Get(m, T8)
  {
    PushThreeExec(m);
    var m1 := PushOne(T6, m);
    var m2 := PushOne(T7, m1);
    var m3 := PushOne(T8, m2);
    var sp := Get(m, Sp);
    assert Mem(m3, sp - 4) == Mem(m2, sp - 4) == Mem(m1, sp - 4);
    assert Mem(m3, sp - 8) == Mem(m2, sp - 8);
  }

  /** `Pop([T8, T7, T6])` is three single pops. */
  lemma PopThreeExec(m: State)
    ensures Exec(Pop([T8, T7, T6]), m) == Some(PopOne(T6, PopOne(T7, PopOne(T8, m))))
  {
    var m1 := PopOne(T8, m);
    var m2 := PopOne(T7, m1);
    PopPair(T7, T6);
    ExecThen([LoadStack(T7), Addi(Sp, Sp, 4)], [LoadStack(T6), Addi(Sp, Sp, 4)], m1, m2);
    PopTriple(T8, T7, T6);
    ExecThen([LoadStack(T8), Addi(Sp, Sp, 4)], Pop([T7, T6]), m, m1);
  }

  /** `Pop([T8, T7, T6])`: the three words from `$sp` up, back into the registers. */
  lemma PopThree(m: State)
    ensures Exec(Pop([T8, T7, T6]), m).Some?
    ensures var m' := Exec(Pop([T8, T7, T6]), m).value;
            && Get(m', Sp) == Get(m, Sp) + 12
            && (forall r :: r != Sp && r != T6 && r != T7 && r != T8 ==> Get(m', r) == Get(m, r))
            && m'.vars == m.vars && m'.mem == m.mem
            && Get(m', T8) == Mem(m, Get(m, Sp))
            && Get(m', T7) == Mem(m, Get(m, Sp) + 4)
            && Get(m', T6) == Mem(m, Get(m, Sp) + 8)
  {
    PopThreeExec(m);
    var m1 := PopOne(T8, m);
    var m2 := PopOne(T7, m1);
    var m3 := PopOne(T6, m2);
    assert Get(m3, T8) == Get(m2, T8) == Get(m1, T8);
    assert Get(m3, T7) == Get(m2, T7);
  }

  /** The four pieces of a saved boolean evaluation run one after the other. */
  lemma SavedBoolExec(inner: seq<Instr>, m: State, m1: State, m2: State, m4: State)
    requires Exec(Push([T6, T7, T8]), m) == Some(m1) && Exec(inner, m1) == Some(m2)
    requires Exec(Pop([T8, T7, T6]), Put(m2, T9, Get(m2, T6))) == Some(m4)
    ensures Exec(Push([T6, T7, T8]) + inner + [Move(T9, T6)] + Pop([T8, T7, T6]), m) == Some(m4)
  {
    var push := Push([T6, T7, T8]);
    ExecMove(T9, T6, m2);
    ExecThen(push, inner, m, m1);
    ExecThen(push + inner, [Move(T9, T6)], m, m2);
    ExecThen(push + inner + [Move(T9, T6)], Pop([T8, T7, T6]), m, Put(m2, T9, Get(m2, T6)));
  }

  /** Memory at and above the caller's `$sp` survives the push, a framed run and the pop. */
  lemma SavedBoolMem(m: State, m1: State, m2: State, m4: State)
    requires forall x :: x >= Get(m, Sp) ==> Mem(m1, x) == Mem(m, x)
    requires Get(m1, Sp) == Get(m, Sp) - 12 && m1.vars == m.vars
    requires Framed(m1, m2)
    requires Get(m4, Sp) == Get(m2, Sp) + 12 && m4.vars == m2.vars && m4.mem == m2.mem
    ensures Framed(m, m4)
  {
    forall a | a >= Get(m, Sp) ensures Mem(m4, a) == Mem(m, a) {
      assert Mem(m4, a) == Mem(m2, a) == Mem(m1, a);
    }
  }

  /** The pop gives `$t6`, `$t7` and `$t8` back the values the push saved. */
  lemma SavedBoolRegs(m: State, m1: State, m2: State, m3: State, m4: State)
    requires Get(m1, Sp) == Get(m, Sp) - 12
    requires forall r :: r != Sp ==> Get(m1, r) == Get(m, r)
    requires Mem(m1, Get(m, Sp) - 4) == Get(m, T6) && Mem(m1, Get(m, Sp) - 8) == Get(m, T7)
    requires Mem(m1, Get(m, Sp) - 12) == Get(m, T8)
    requires Framed(m1, m2) && Keeps(m1, m2, BoolRegs)
    requires m3 == Put(m2, T9, Get(m2, T6))
    requires Get(m4, Sp) == Get(m3, Sp) + 12 && m4.mem == m3.mem
    requires forall r :: r != Sp && r != T6 && r != T7 && r != T8 ==> Get(m4, r) == Get(m3, r)
    requires Get(m4, T8) == Mem(m3, Get(m3, Sp)) && Get(m4, T7) == Mem(m3, Get(m3, Sp) + 4)
    requires Get(m4, T6) == Mem(m3, Get(m3, Sp) + 8)
    ensures Keeps(m, m4, FactorRegs)
  {
    var sp := Get(m, Sp);
    forall r | r !in FactorRegs ensures Get(m4, r) == Get(m, r) {
      if r == T6 {
        assert Get(m4, T6) == Mem(m2, sp - 4) == Mem(m1, sp - 4);
      } else if r == T7 {
        assert Get(m4, T7) == Mem(m2, sp - 8) == Mem(m1, sp - 8);
      } else if r == T8 {
        assert Get(m4, T8) == Mem(m2, sp - 12) == Mem(m1, sp - 12);
      } else if r != Sp {
        assert r !in BoolRegs;
        assert Get(m4, r) == Get(m3, r) == Get(m2, r) == Get(m1, r);
      }
    }
  }

  /**
   * The register and memory bookkeeping behind `SavedBoolAround`: whatever a
   * framed `inner` did between the push and the pop, the pop restores `$t6`,
   * `$t7`, `$t8` and `$sp`, and `$t9` carries the saved result out.
   */
  lemma SavedBoolFrame(m: State, m2: State)
    requires Exec(Push([T6, T7, T8]), m).Some?
    requires Framed(Exec(Push([T6, T7, T8]), m).value, m2)
    requires Keeps(Exec(Push([T6, T7, T8]), m).value, m2, BoolRegs)
    ensures var m4 := Exec(Pop([T8, T7, T6]), Put(m2, T9, Get(m2, T6)));
            && m4.Some? && Framed(m, m4.value) && Keeps(m, m4.value, FactorRegs)
            && Get(m4.value, T9) == Get(m2, T6)
  {
    SavedBoolFrameMem(m, m2);
    SavedBoolFrameRegs(m, m2);
  }

  lemma SavedBoolFrameMem(m: State, m2: State)
    requires Exec(Push([T6, T7, T8]), m).Some?
    requires Framed(Exec(Push([T6, T7, T8]), m).value, m2)
    ensures var m4 := Exec(Pop([T8, T7, T6]), Put(m2, T9, Get(m2, T6)));
            && m4.Some? && Framed(m, m4.value)
  {
    PushThree(m);
    var m1 := Exec(Push([T6, T7, T8]), m).value;
    var m3 := Put(m2, T9, Get(m2, T6));
    PopThree(m3);
    PutFrame(m2, T9, Get(m2, T6));
    SavedBoolMem(m, m1, m2, Exec(Pop([T8, T7, T6]), m3).value);
  }

  lemma SavedBoolFrameRegs(m: State, m2: State)
    requires Exec(Push([T6, T7, T8]), m).Some?
    requires Framed(Exec(Push([T6, T7, T8]), m).value, m2)
    requires Keeps(Exec(Push([T6, T7, T8]), m).value, m2, BoolRegs)
    ensures var m4 := Exec(Pop([T8, T7, T6]), Put(m2, T9, Get(m2, T6)));
            && m4.Some? && Keeps(m, m4.value, FactorRegs) && Get(m4.value, T9) == Get(m2, T6)
  {
    PushThree(m);
    var m1 := Exec(Push([T6, T7, T8]), m).value;
    var m3 := Put(m2, T9, Get(m2, T6));
    PopThree(m3);
    PutFrame(m2, T9, Get(m2, T6));
    PutGet(m2, T9, Get(m2, T6));
    SavedBoolRegs(m, m1, m2, m3, Exec(Pop([T8, T7, T6]), m3).value);
  }

  /**
   * Code that leaves a boolean in `$t6` and keeps the stack from `$sp` up,
   * run between a push and a pop of `$t6`, `$t7` and `$t8`, leaves that
   * value in `$t9` and gives the three registers back.
   */
  lemma SavedBoolAround(inner: seq<Instr>, m: State, m2: State, y: int)
    requires Exec(Push([T6, T7, T8]), m).Some?
    requires Runs(inner, Exec(Push([T6, T7, T8]), m).value, m2, BoolRegs) && Get(m2, T6) == y
    ensures Computes(Push([T6, T7, T8]) + inner + [Move(T9, T6)] + Pop([T8, T7, T6]), m, T9, y, FactorRegs)
  {
    var m3 := Put(m2, T9, Get(m2, T6));
    SavedBoolFrame(m, m2);
    SavedBoolExec(inner, m, Exec(Push([T6, T7, T8]), m).value, m2, Exec(Pop([T8, T7, T6]), m3).value);
  }

  // ---------------------------------------------------------------- correctness

  /**
   * A boolean expression without unary minus: its code leaves the
   * expression's value in `$t6` as the word 0 or 1, keeps the stack from
   * `$sp` up and writes no register outside `BoolRegs`.
   */
  lemma {:induction false} BoolCorrect(n: Node, m: State, code: seq<Instr>, b: bool)
    requires SolveBool(n) == Ok(code) && EvalBool(n, m.vars) == Some(b) && SignFree(n)
    ensures Computes(code, m, T6, Truth(b), BoolRegs)
    decreases n, 1
  {
    var body := OrCode(n.children).value;
    assert code == [Li(T6, 0)] + body;
    OrCorrect(n.children, false, Put(m, T6, 0), body, b);
    LeadLi(T6, 0, body, m, T6, Truth(b), BoolRegs);
  }

  lemma AllSignFreeTail(ns: seq<Node>)
    requires |ns| > 0 && AllSignFree(ns)
    ensures SignFree(ns[0]) && AllSignFree(ns[1..])
  {
    forall k | 0 <= k < |ns| - 1 ensures SignFree(ns[1..][k]) {
      assert ns[1..][k] == ns[k + 1];
    }
  }

  /** The TERM1s' code ORs each term's value into `$t6`. */
  lemma {:induction false} OrCorrect(ns: seq<Node>, acc: bool, m: State, code: seq<Instr>, y: bool)
    requires Get(m, T6) == Truth(acc) && AllSignFree(ns)
    requires OrCode(ns) == Ok(code) && AnyOf(ns, acc, m.vars) == Some(y)
    ensures Computes(code, m, T6, Truth(y), BoolRegs)
    decreases ns, 1
  {
    if |ns| == 0 {
      RunsNil(m);
      RunsWeaken([], m, m, {}, BoolRegs);
    } else if ns[0].tag == "TERM1" {
      OrStepCorrect(ns, acc, m, code, y);
    } else {
      assert [] + OrCode(ns[1..]).value == OrCode(ns[1..]).value;
      AllSignFreeTail(ns);
      OrCorrect(ns[1..], acc, m, code, y);
    }
  }

  lemma OrStepShape(ns: seq<Node>, acc: bool, m: State, code: seq<Instr>, y: bool)
    returns (t: seq<Instr>, rest: seq<Instr>, b: bool)
    requires |ns| > 0 && ns[0].tag == "TERM1"
    requires OrCode(ns) == Ok(code) && AnyOf(ns, acc, m.vars) == Some(y)
    ensures SolveTerm1(ns[0]) == Ok(t) && EvalTerm1(ns[0], m.vars) == Some(b)
    ensures OrCode(ns[1..]) == Ok(rest) && AnyOf(ns[1..], acc || b, m.vars) == Some(y)
    ensures code == t + [Or(T6, T6, T7)] + rest
  {
    t := SolveTerm1(ns[0]).value;
    rest := OrCode(ns[1..]).value;
    b := EvalTerm1(ns[0], m.vars).value;
  }

  /** One TERM1: its value into `$t7`, OR-ed into `$t6`, then the rest. */
  lemma {:induction false} OrStepCorrect(ns: seq<Node>, acc: bool, m: State, code: seq<Instr>, y: bool)
    requires |ns| > 0 && ns[0].tag == "TERM1"
    requires Get(m, T6) == Truth(acc) && AllSignFree(ns)
    requires OrCode(ns) == Ok(code) && AnyOf(ns, acc, m.vars) == Some(y)
    ensures Computes(code, m, T6, Truth(y), BoolRegs)
    decreases ns, 0
  {
    var t, rest, b := OrStepShape(ns, acc, m, code, y);
    AllSignFreeTail(ns);
    Term1Correct(ns[0], m, t, b);
    var m1 := Exec(t, m).value;
    OrCorrect(ns[1..], acc || b, Put(m1, T6, Truth(acc || b)), rest, y);
    OrRuns(t, rest, m, acc, b, y);
  }

  lemma OrRuns(t: seq<Instr>, rest: seq<Instr>, m: State, acc: bool, b: bool, y: bool)
    requires Get(m, T6) == Truth(acc)
    requires Computes(t, m, T7, Truth(b), Term1Regs)
    requires Computes(rest, Put(Exec(t, m).value, T6, Truth(acc || b)), T6, Truth(y), BoolRegs)
    ensures Computes(t + [Or(T6, T6, T7)] + rest, m, T6, Truth(y), BoolRegs)
  {
    var m1 := Exec(t, m).value;
    var m2 := Put(m1, T6, Truth(acc || b));
    assert T6 !in Term1Regs;
    OrTruth(acc, b);
    ExecOr(T6, T6, T7, m1);
    PutRuns(Or(T6, T6, T7), m1, T6, Truth(acc || b));
    Runs3(t, [Or(T6, T6, T7)], rest, m, m1, m2, Exec(rest, m2).value, Term1Regs, {T6}, BoolRegs, BoolRegs);
  }

  /** A TERM1's code leaves its value in `$t7` and keeps `$t6`. */
  lemma {:induction false} Term1Correct(t: Node, m: State, code: seq<Instr>, b: bool)
    requires SolveTerm1(t) == Ok(code) && EvalTerm1(t, m.vars) == Some(b) && SignFree(t)
    ensures Computes(code, m, T7, Truth(b), Term1Regs)
    decreases t, 1
  {
    var body := AndCode(t.children).value;
    assert code == [Li(T7, 1)] + body;
    AndCorrect(t.children, true, Put(m, T7, 1), body, b);
    LeadLi(T7, 1, body, m, T7, Truth(b), Term1Regs);
  }

  /** The FACT1s' code ANDs each factor's value into `$t7`. */
  lemma {:induction false} AndCorrect(ns: seq<Node>, acc: bool, m: State, code: seq<Instr>, y: bool)
    requires Get(m, T7) == Truth(acc) && AllSignFree(ns)
    requires AndCode(ns) == Ok(code) && AllOf(ns, acc, m.vars) == Some(y)
    ensures Computes(code, m, T7, Truth(y), Term1Regs)
    decreases ns, 1
  {
    if |ns| == 0 {
      RunsNil(m);
      RunsWeaken([], m, m, {}, Term1Regs);
    } else if ns[0].tag == "FACT1" {
      AndStepCorrect(ns, acc, m, code, y);
    } else {
      assert [] + AndCode(ns[1..]).value == AndCode(ns[1..]).value;
      AllSignFreeTail(ns);
      AndCorrect(ns[1..], acc, m, code, y);
    }
  }

  lemma AndStepShape(ns: seq<Node>, acc: bool, m: State, code: seq<Instr>, y: bool)
    returns (f: seq<Instr>, rest: seq<Instr>, b: bool)
    requires |ns| > 0 && ns[0].tag == "FACT1"
    requires AndCode(ns) == Ok(code) && AllOf(ns, acc, m.vars) == Some(y)
    ensures SolveFact1(ns[0]) == Ok(f) && EvalFact1(ns[0], m.vars) == Some(b)
    ensures AndCode(ns[1..]) == Ok(rest) && AllOf(ns[1..], acc && b, m.vars) == Some(y)
    ensures code == f + [And(T7, T7, T8)] + rest
  {
    f := SolveFact1(ns[0]).value;
    rest := AndCode(ns[1..]).value;
    b := EvalFact1(ns[0], m.vars).value;
  }

  /** One FACT1: its value into `$t8`, AND-ed into `$t7`, then the rest. */
  lemma {:induction false} AndStepCorrect(ns: seq<Node>, acc: bool, m: State, code: seq<Instr>, y: bool)
    requires |ns| > 0 && ns[0].tag == "FACT1"
    requires Get(m, T7) == Truth(acc) && AllSignFree(ns)
    requires AndCode(ns) == Ok(code) && AllOf(ns, acc, m.vars) == Some(y)
    ensures Computes(code, m, T7, Truth(y), Term1Regs)
    decreases ns, 0
  {
    var f, rest, b := AndStepShape(ns, acc, m, code, y);
    AllSignFreeTail(ns);
    Fact1Correct(ns[0], m, f, b);
    var m1 := Exec(f, m).value;
    AndCorrect(ns[1..], acc && b, Put(m1, T7, Truth(acc && b)), rest, y);
    AndRuns(f, rest, m, acc, b, y);
  }

  lemma AndRuns(f: seq<Instr>, rest: seq<Instr>, m: State, acc: bool, b: bool, y: bool)
    requires Get(m, T7) == Truth(acc)
    requires Computes(f, m, T8, Truth(b), Fact1Regs)
    requires Computes(rest, Put(Exec(f, m).value, T7, Truth(acc && b)), T7, Truth(y), Term1Regs)
    ensures Computes(f + [And(T7, T7, T8)] + rest, m, T7, Truth(y), Term1Regs)
  {
    var m1 := Exec(f, m).value;
    var m2 := Put(m1, T7, Truth(acc && b));
    assert T7 !in Fact1Regs;
    AndTruth(acc, b);
    ExecAnd(T7, T7, T8, m1);
    PutRuns(And(T7, T7, T8), m1, T7, Truth(acc && b));
    Runs3(f, [And(T7, T7, T8)], rest, m, m1, m2, Exec(rest, m2).value, Fact1Regs, {T7}, Term1Regs, Term1Regs);
  }

  /** A FACT1's code leaves its value in `$t8` and keeps `$t6` and `$t7`. */
  lemma {:induction false} Fact1Correct(f: Node, m: State, code: seq<Instr>, b: bool)
    requires SolveFact1(f) == Ok(code) && EvalFact1(f, m.vars) == Some(b) && SignFree(f)
    ensures Computes(code, m, T8, Truth(b), Fact1Regs)
    decreases f, 1
  {
    if f.children[0].tag == "NOT" {
      NotCorrect(f, m, code, b);
    } else if f.children[1].children[0].tag != "LAMBDA" {
      CompareCorrect(f, m, code, b);
    } else {
      BareCorrect(f, m, code, b);
    }
  }

  lemma NotShape(f: Node, m: State, code: seq<Instr>, b: bool) returns (g: Node, bc: seq<Instr>, a: bool)
    requires |f.children| >= 2 && f.children[0].tag == "NOT"
    requires SolveFact1(f) == Ok(code) && EvalFact1(f, m.vars) == Some(b)
    ensures g == f.children[1] && Fact2BoolCode(g) == Ok(bc) && BoolFactor(g, m.vars) == Some(a) && b == !a
    ensures code == [Li(T8, -1)] + (bc + [Xor(T8, T8, T9), Andi(T8, T8, 1)])
  {
    g := f.children[1];
    bc := Fact2BoolCode(g).value;
    a := BoolFactor(g, m.vars).value;
  }

  /** NOT: the factor's value into `$t9`, flipped into `$t8`. */
  lemma {:induction false} NotCorrect(f: Node, m: State, code: seq<Instr>, b: bool)
    requires |f.children| >= 2 && f.children[0].tag == "NOT"
    requires SolveFact1(f) == Ok(code) && EvalFact1(f, m.vars) == Some(b) && SignFree(f)
    ensures Computes(code, m, T8, Truth(b), Fact1Regs)
    decreases f, 0
  {
    var g, bc, a := NotShape(f, m, code, b);
    var m0 := Put(m, T8, -1);
    Fact2BoolCorrect(g, m0, bc, a);
    NotRuns(bc, m0, a);
    LeadLi(T8, -1, bc + [Xor(T8, T8, T9), Andi(T8, T8, 1)], m, T8, Truth(b), Fact1Regs);
  }

  lemma NotRuns(bc: seq<Instr>, m: State, a: bool)
    requires Get(m, T8) == -1 && Computes(bc, m, T9, Truth(a), FactorRegs)
    ensures Computes(bc + [Xor(T8, T8, T9), Andi(T8, T8, 1)], m, T8, Truth(!a), Fact1Regs)
  {
    var m1 := Exec(bc, m).value;
    assert T8 !in FactorRegs;
    var m3 := FlipRuns(m1, a);
    RunsThen(bc, [Xor(T8, T8, T9), Andi(T8, T8, 1)], m, m1, m3, FactorRegs, {T8});
    assert FactorRegs + {T8} == Fact1Regs;
  }

  lemma Pair(i: Instr, j: Instr)
    ensures [i] + [j] == [i, j]
  {
  }

  /** `xor $t8, $t8, $t9` and `andi $t8, $t8, 1` with `$t8 == -1` and a truth value in `$t9`. */
  lemma FlipRuns(m: State, a: bool) returns (m': State)
    requires Get(m, T8) == -1 && Get(m, T9) == Truth(a)
    ensures Runs([Xor(T8, T8, T9), Andi(T8, T8, 1)], m, m', {T8}) && Get(m', T8) == Truth(!a)
  {
    var x := BitXor(-1, Truth(a));
    var m2 := Put(m, T8, x);
    ExecXor(T8, T8, T9, m);
    PutRuns(Xor(T8, T8, T9), m, T8, x);
    NotTruth(a);
    m' := Put(m2, T8, Truth(!a));
    ExecAndi(T8, T8, 1, m2);
    PutRuns(Andi(T8, T8, 1), m2, T8, Truth(!a));
    RunsThen([Xor(T8, T8, T9)], [Andi(T8, T8, 1)], m, m2, m', {T8}, {T8});
    Pair(Xor(T8, T8, T9), Andi(T8, T8, 1));
  }

  lemma CompareShape(f: Node, m: State, code: seq<Instr>, b: bool)
    returns (c0: Node, r1: Node, left: seq<Instr>, right: seq<Instr>, op: RelOp, x: int, z: int)
    requires |f.children| >= 2 && f.children[0].tag != "NOT"
    requires |f.children[1].children| > 0 && f.children[1].children[0].tag != "LAMBDA"
    requires SolveFact1(f) == Ok(code) && EvalFact1(f, m.vars) == Some(b)
    ensures c0 == f.children[0] && |f.children[1].children| >= 2 && r1 == f.children[1].children[1]
    ensures SolveInt(c0) == Ok(left) && EvalInt(c0, m.vars) == Some(x)
    ensures SolveInt(r1) == Ok(right) && EvalInt(r1, m.vars) == Some(z)
    ensures Holds(op, x, z) == b
    ensures code == left + [Move(T5, T0)] + right + [Set(op, T8, T5, T0)]
  {
    c0 := f.children[0];
    var rel := f.children[1];
    r1 := rel.children[1];
    left := SolveInt(c0).value;
    right := SolveInt(r1).value;
    x := EvalInt(c0, m.vars).value;
    z := EvalInt(r1, m.vars).value;
    RelOpMatchesParseOperator(x, rel.val.value, z);
    op := RelOpOf(rel.val.value).value;
  }

  /** A comparison: the left side parked in `$t5`, the right in `$t0`, the outcome set in `$t8`. */
  lemma CompareCorrect(f: Node, m: State, code: seq<Instr>, b: bool)
    requires |f.children| >= 2 && f.children[0].tag != "NOT"
    requires |f.children[1].children| > 0 && f.children[1].children[0].tag != "LAMBDA"
    requires SolveFact1(f) == Ok(code) && EvalFact1(f, m.vars) == Some(b) && SignFree(f)
    ensures Computes(code, m, T8, Truth(b), Fact1Regs)
  {
    var c0, r1, left, right, op, x, z := CompareShape(f, m, code, b);
    assert SignFree(f.children[1]);
    IntKeepsT6(c0, m, left, x);
    var m1 := Exec(left, m).value;
    var m2 := Put(m1, T5, x);
    ExecMove(T5, T0, m1);
    PutRuns(Move(T5, T0), m1, T5, x);
    IntKeepsT6(r1, m2, right, z);
    CompareRuns(left, right, op, m, m1, m2, x, z);
  }

  lemma CompareRuns(left: seq<Instr>, right: seq<Instr>, op: RelOp, m: State, m1: State, m2: State, x: int, z: int)
    requires Runs(left, m, m1, {T0, T1, T2}) && Get(m1, T0) == x
    requires m2 == Put(m1, T5, x) && Runs([Move(T5, T0)], m1, m2, {T5})
    requires Computes(right, m2, T0, z, {T0, T1, T2})
    ensures Computes(left + [Move(T5, T0)] + right + [Set(op, T8, T5, T0)], m, T8, Truth(Holds(op, x, z)), Fact1Regs)
  {
    var m3 := Exec(right, m2).value;
    assert Get(m3, T5) == x;
    var m4 := Put(m3, T8, Truth(Holds(op, x, z)));
    ExecSet(op, T8, T5, T0, m3);
    PutRuns(Set(op, T8, T5, T0), m3, T8, Truth(Holds(op, x, z)));
    Runs3(left, [Move(T5, T0)], right, m, m1, m2, m3, {T0, T1, T2}, {T5}, {T0, T1, T2}, Fact1Regs);
    RunsThen(left + [Move(T5, T0)] + right, [Set(op, T8, T5, T0)], m, m3, m4, Fact1Regs, {T8});
    assert Fact1Regs + {T8} == Fact1Regs;
  }

  lemma BareShape(f: Node, m: State, code: seq<Instr>, b: bool) returns (g: Node, bc: seq<Instr>)
    requires |f.children| >= 2 && f.children[0].tag != "NOT"
    requires |f.children[1].children| > 0 && f.children[1].children[0].tag == "LAMBDA"
    requires SolveFact1(f) == Ok(code) && EvalFact1(f, m.vars) == Some(b)
    ensures At(f.children[0], [0, 1]) == Ok(g) && g < f
    ensures Fact2BoolCode(g) == Ok(bc) && BoolFactor(g, m.vars) == Some(b)
    ensures code == bc + [Move(T8, T9)]
  {
    var c0 := f.children[0];
    g := At(c0, [0, 1]).value;
    AtDecreases(c0, [0, 1]);
    bc := Fact2BoolCode(g).value;
  }

  /** A bare EXP2: the boolean factor in its first TERM2, moved from `$t9` to `$t8`. */
  lemma {:induction false} BareCorrect(f: Node, m: State, code: seq<Instr>, b: bool)
    requires |f.children| >= 2 && f.children[0].tag != "NOT"
    requires |f.children[1].children| > 0 && f.children[1].children[0].tag == "LAMBDA"
    requires SolveFact1(f) == Ok(code) && EvalFact1(f, m.vars) == Some(b) && SignFree(f)
    ensures Computes(code, m, T8, Truth(b), Fact1Regs)
    decreases f, 0
  {
    var g, bc := BareShape(f, m, code, b);
    SignFreeAt(f.children[0], [0, 1]);
    Fact2BoolCorrect(g, m, bc, b);
    var m1 := Exec(bc, m).value;
    var m2 := Put(m1, T8, Truth(b));
    ExecMove(T8, T9, m1);
    PutRuns(Move(T8, T9), m1, T8, Truth(b));
    RunsThen(bc, [Move(T8, T9)], m, m1, m2, FactorRegs, {T8});
  }

  /** A boolean factor's code leaves its value in `$t9` and keeps `$t6`, `$t7` and `$t8`. */
  lemma {:induction false} Fact2BoolCorrect(g: Node, m: State, code: seq<Instr>, b: bool)
    requires Fact2BoolCode(g) == Ok(code) && BoolFactor(g, m.vars) == Some(b) && SignFree(g)
    ensures Computes(code, m, T9, Truth(b), FactorRegs)
    decreases g, 2
  {
    var c := g.children[0];
    if c.tag == "IDENT" {
      var x := c.val.value;
      assert code == [LoadWord(T9, x)];
      ExecLoadWord(T9, x, m);
      assert Var(m, x) == Truth(b);
      PutRuns(LoadWord(T9, x), m, T9, Truth(b));
      RunsWeaken(code, m, Put(m, T9, Truth(b)), {T9}, FactorRegs);
    } else if c.tag == "BOOLLIT" {
      assert code == [Li(T9, Truth(b))];
      ExecLi(T9, Truth(b), m);
      PutRuns(Li(T9, Truth(b)), m, T9, Truth(b));
      RunsWeaken(code, m, Put(m, T9, Truth(b)), {T9}, FactorRegs);
    } else {
      ParenCorrect(g, m, code, b);
    }
  }

  /** A parenthesised expression between a push and a pop of `$t6`, `$t7` and `$t8`. */
  lemma {:induction false} ParenCorrect(g: Node, m: State, code: seq<Instr>, b: bool)
    requires |g.children| > 0 && g.children[0].tag != "IDENT" && g.children[0].tag != "BOOLLIT"
    requires Fact2BoolCode(g) == Ok(code) && BoolFactor(g, m.vars) == Some(b) && SignFree(g)
    ensures Computes(code, m, T9, Truth(b), FactorRegs)
    decreases g, 1
  {
    var c := g.children[0];
    var inner := SolveBool(c).value;
    assert code == Push([T6, T7, T8]) + inner + [Move(T9, T6)] + Pop([T8, T7, T6]);
    PushThree(m);
    var m1 := Exec(Push([T6, T7, T8]), m).value;
    BoolCorrect(c, m1, inner, b);
    SavedBoolAround(inner, m, Exec(inner, m1).value, Truth(b));
  }

  // ---------------------------------------------------------------- with a unary minus

  /** A FACT2 holding one literal or identifier token. */
  function TokenFactor(tag: string, lexeme: string): Node {
    Node("FACT2", Some(lexeme), [Node(tag, Some(lexeme), [])])
  }

  /** An EXP2 of one TERM2 of one factor, under the given SIGN child. */
  function OneFactor(sign: string, f: Node): Node {
    Node("EXP2", None, [Node("TERM2", None, [Node("SIGN", None, [Leaf(sign)]), f])])
  }

  /** A FACT1 holding an EXP2 and no relation. */
  function Bare(e: Node): Node {
    Node("FACT1", None, [e, Node("RELATION", None, [Leaf("LAMBDA")])])
  }

  /** An EXPRESSION of one TERM1 of one bare EXP2. */
  function Wrap(e: Node): Node {
    Node("EXPRESSION", None, [Node("TERM1", None, [Bare(e)])])
  }

  /** A FACT1 comparing two EXP2s. */
  function Compare(left: Node, op: string, right: Node): Node {
    Node("FACT1", None, [left, Node("RELATION", Some(op), [Node("RELATIONOP", Some(op), []), right])])
  }

  function Two(): Node {
    OneFactor("LAMBDA", TokenFactor("INTLIT", "2"))
  }

  function One(): Node {
    OneFactor("LAMBDA", TokenFactor("INTLIT", "1"))
  }

  /** `-(2)`. */
  function MinusTwo(): Node {
    OneFactor("MINUS", Node("FACT2", None, [Wrap(Two())]))
  }

  /** `1 < -(2)`. */
  function LessNegated(): Node {
    Compare(One(), "<", MinusTwo())
  }

  function TrueTerm(): Node {
    Node("TERM1", None, [Bare(OneFactor("LAMBDA", TokenFactor("BOOLLIT", "True")))])
  }

  function LessTerm(): Node {
    Node("TERM1", None, [LessNegated()])
  }

  /** `True or 1 < -(2)` as the parser builds it. */
  function TrueOrLessNegated(): Node {
    Node("EXPRESSION", None, [TrueTerm(), Leaf("OR"), LessTerm()])
  }

  /** All registers 0, `$sp` at 1000, nothing in memory or the variables. */
  function Blank(): State {
    State(Regs(0, 0, 0, 0, 0, 0, 0, 0, 0, 0, 1000), 0, 0, map[], map[])
  }

  /** An EXP2 of one factor has that factor's value, negated under a MINUS sign. */
  lemma OneFactorValue(sign: string, f: Node, env: Env)
    requires f.tag == "FACT2" && |f.children| > 0
    ensures EvalInt(OneFactor(sign, f), env) == Factor(f.children[0], sign != "LAMBDA", env)
  {
    var sg := Node("SIGN", None, [Leaf(sign)]);
    var t := Node("TERM2", None, [sg, f]);
    assert [sg, f][1..] == [f] && [f][1..] == [];
    assert [t][1..] == [];
    var neg := sign != "LAMBDA";
    assert Product([f], 1, neg, Times, 0, env) == Factor(f.children[0], neg, env);
    assert Product([sg, f], 0, false, Times, 0, env) == Product([f], 1, neg, Times, 0, env);
    assert EvalTerm(t, env) == Factor(f.children[0], neg, env);
    assert Sum([t], true, 0, env) == EvalTerm(t, env);
    assert OneFactor(sign, f).children == [t];
  }

  /** The code of an EXP2 of one factor: the factor's code between the two accumulations. */
  lemma OneFactorCode(sign: string, f: Node)
    requires f.tag == "FACT2" && |f.children| > 0 && FactorCode(f.children[0], sign != "LAMBDA").Ok?
    ensures SolveInt(OneFactor(sign, f))
         == Ok([Li(T0, 0)] + ([Li(T1, 0)] + (FactorCode(f.children[0], sign != "LAMBDA").value + [Add(T1, T1, T2)]) + [Add(T0, T0, T1)]))
  {
    var sg := Node("SIGN", None, [Leaf(sign)]);
    var t := Node("TERM2", None, [sg, f]);
    var fc := FactorCode(f.children[0], sign != "LAMBDA").value;
    assert [sg, f][1..] == [f] && [f][1..] == [];
    assert [t][1..] == [];
    assert FactorsCode([f], 1, sign != "LAMBDA", Times) == Ok(fc + [Add(T1, T1, T2)] + []);
    assert FactorsCode([sg, f], 0, false, Times) == Ok([] + (fc + [Add(T1, T1, T2)] + []));
    assert [] + (fc + [Add(T1, T1, T2)] + []) == fc + [Add(T1, T1, T2)];
    assert TermCode(t) == Ok([Li(T1, 0)] + (fc + [Add(T1, T1, T2)]));
    var tc := [Li(T1, 0)] + (fc + [Add(T1, T1, T2)]);
    assert SumCode([t], true) == Ok(tc + [Add(T0, T0, T1)] + []);
    assert tc + [Add(T0, T0, T1)] + [] == tc + [Add(T0, T0, T1)];
    assert OneFactor(sign, f).children == [t];
  }

  /** An EXPRESSION wrapping a bare EXP2 has the EXP2's integer code and value. */
  lemma WrapInt(e: Node, env: Env)
    requires e.tag == "EXP2"
    ensures SolveInt(Wrap(e)) == SolveInt(e) && EvalInt(Wrap(e), env) == EvalInt(e, env)
  {
    assert At(Wrap(e), [0, 0, 0]) == Ok(e);
  }

  /** An integer literal loads its lexeme into `$t2`. */
  lemma LiteralCode(lexeme: string)
    ensures FactorCode(Node("INTLIT", Some(lexeme), []), false) == Ok([LiLexeme(T2, lexeme)])
  {
    assert [LiLexeme(T2, lexeme)] + [] == [LiLexeme(T2, lexeme)];
  }

  lemma OneCode()
    ensures SolveInt(One()).Ok?
  {
    LiteralCode("1");
    OneFactorCode("LAMBDA", TokenFactor("INTLIT", "1"));
  }

  /** `(2)` loads 2 into `$t2` between a push and a pop of `$t0` and `$t1`. */
  lemma ParenTwoCode() returns (load: seq<Instr>)
    ensures FactorCode(Wrap(Two()), true) == Ok(load + [Li(T6, 0), Sub(T2, T6, T2)])
  {
    LiteralCode("2");
    OneFactorCode("LAMBDA", TokenFactor("INTLIT", "2"));
    WrapInt(Two(), map[]);
    var two := Wrap(Two());
    var inner := SolveInt(two).value;
    load := Push([T0, T1]) + inner + [Move(T2, T0)] + Pop([T1, T0]);
    assert LoadCode(two) == Ok(load);
  }

  /** The code of `-(2)`: `$t6` is zeroed by the negation and not written after it. */
  lemma MinusTwoCode() returns (p: seq<Instr>, q: seq<Instr>)
    ensures SolveInt(MinusTwo()) == Ok(p + [Li(T6, 0)] + q)
    ensures Spares(q, T6)
  {
    var load := ParenTwoCode();
    OneFactorCode("MINUS", Node("FACT2", None, [Wrap(Two())]));
    p := [Li(T0, 0), Li(T1, 0)] + load;
    q := NegatedTail();
    NegatedRegroup(load);
  }

  /** What follows `li $t6, 0` in a one-factor negated EXP2. */
  function NegatedTail(): (q: seq<Instr>)
    ensures Spares(q, T6)
  {
    [Sub(T2, T6, T2), Add(T1, T1, T2), Add(T0, T0, T1)]
  }

  lemma NegatedRegroup(load: seq<Instr>)
    ensures [Li(T0, 0)] + ([Li(T1, 0)] + ((load + [Li(T6, 0), Sub(T2, T6, T2)]) + [Add(T1, T1, T2)]) + [Add(T0, T0, T1)])
         == [Li(T0, 0), Li(T1, 0)] + load + [Li(T6, 0)] + NegatedTail()
  {
  }

  lemma OneValue(env: Env)
    ensures EvalInt(One(), env) == Some(1)
  {
    OneFactorValue("LAMBDA", TokenFactor("INTLIT", "1"), env);
  }

  lemma MinusTwoValue(env: Env)
    ensures EvalInt(MinusTwo(), env) == Some(-2)
  {
    OneFactorValue("MINUS", Node("FACT2", None, [Wrap(Two())]), env);
    WrapInt(Two(), env);
    OneFactorValue("LAMBDA", TokenFactor("INTLIT", "2"), env);
  }

  /** A comparison's value is the relation between its two sides' values. */
  lemma CompareValue(left: Node, op: string, right: Node, env: Env)
    requires left.tag == "EXP2"
    ensures EvalFact1(Compare(left, op, right), env)
         == (match (EvalInt(left, env), EvalInt(right, env))
             case (Some(a), Some(b)) => ParseOperator(a, op, b)
             case _ => None)
  {
  }

  /** A comparison's code: the left side into `$t5`, the right into `$t0`, then the set-instruction. */
  lemma CompareCode(left: Node, op: string, right: Node)
    requires left.tag == "EXP2" && SolveInt(left).Ok? && SolveInt(right).Ok? && RelOpOf(op).Some?
    ensures SolveFact1(Compare(left, op, right))
         == Ok(SolveInt(left).value + [Move(T5, T0)] + SolveInt(right).value + [Set(RelOpOf(op).value, T8, T5, T0)])
  {
  }

  lemma LessNegatedValue(env: Env)
    ensures EvalFact1(LessNegated(), env) == Some(false)
  {
    OneValue(env);
    MinusTwoValue(env);
    CompareValue(One(), "<", MinusTwo(), env);
  }

  lemma LessOp()
    ensures RelOpOf("<") == Some(SetLt)
  {
  }

  lemma LessNegatedCode()
    ensures SolveInt(One()).Ok? && SolveInt(MinusTwo()).Ok?
    ensures SolveFact1(LessNegated())
         == Ok(SolveInt(One()).value + [Move(T5, T0)] + SolveInt(MinusTwo()).value + [Set(SetLt, T8, T5, T0)])
  {
    OneCode();
    var p, q := MinusTwoCode();
    LessOp();
    CompareCode(One(), "<", MinusTwo());
  }

  /** A TERM1 of one FACT1 is that factor's value. */
  lemma OneFactTerm(f: Node, env: Env)
    requires f.tag == "FACT1"
    ensures EvalTerm1(Node("TERM1", None, [f]), env) == EvalFact1(f, env)
    ensures SolveFact1(f).Ok? ==> SolveTerm1(Node("TERM1", None, [f])) == Ok([Li(T7, 1)] + SolveFact1(f).value + [And(T7, T7, T8)])
  {
    assert [f][1..] == [];
    assert AllOf([f], true, env) == EvalFact1(f, env) by {
      if EvalFact1(f, env).Some? {
        assert AllOf([f], true, env) == AllOf([], true && EvalFact1(f, env).value, env);
      }
    }
    if SolveFact1(f).Ok? {
      var c := SolveFact1(f).value;
      assert AndCode([f]) == Ok(c + [And(T7, T7, T8)] + []);
      assert [Li(T7, 1)] + (c + [And(T7, T7, T8)] + []) == [Li(T7, 1)] + c + [And(T7, T7, T8)];
    }
  }

  /** An OR of two TERM1s. */
  lemma TwoTermsCode(t1: Node, t2: Node)
    requires t1.tag == "TERM1" && t2.tag == "TERM1" && SolveTerm1(t1).Ok? && SolveTerm1(t2).Ok?
    ensures SolveBool(Node("EXPRESSION", None, [t1, Leaf("OR"), t2]))
         == Ok([Li(T6, 0)] + SolveTerm1(t1).value + [Or(T6, T6, T7)] + SolveTerm1(t2).value + [Or(T6, T6, T7)])
  {
    var c1, c2 := SolveTerm1(t1).value, SolveTerm1(t2).value;
    var ns := [t1, Leaf("OR"), t2];
    assert ns[1..] == [Leaf("OR"), t2] && ns[1..][1..] == [t2] && [t2][1..] == [];
    assert OrCode([t2]) == Ok((c2 + [Or(T6, T6, T7)]) + []);
    assert OrCode([Leaf("OR"), t2]) == Ok([] + ((c2 + [Or(T6, T6, T7)]) + []));
    assert OrCode(ns) == Ok((c1 + [Or(T6, T6, T7)]) + ([] + ((c2 + [Or(T6, T6, T7)]) + [])));
    assert [Li(T6, 0)] + ((c1 + [Or(T6, T6, T7)]) + ([] + ((c2 + [Or(T6, T6, T7)]) + [])))
        == [Li(T6, 0)] + c1 + [Or(T6, T6, T7)] + c2 + [Or(T6, T6, T7)];
  }

  lemma TwoTermsValue(t1: Node, t2: Node, env: Env)
    requires t1.tag == "TERM1" && t2.tag == "TERM1"
    ensures EvalBool(Node("EXPRESSION", None, [t1, Leaf("OR"), t2]), env)
         == (match (EvalTerm1(t1, env), EvalTerm1(t2, env))
             case (Some(a), Some(b)) => Some(a || b)
             case _ => None)
  {
    var ns := [t1, Leaf("OR"), t2];
    assert ns[1..] == [Leaf("OR"), t2] && ns[1..][1..] == [t2] && [t2][1..] == [];
    if EvalTerm1(t1, env).Some? && EvalTerm1(t2, env).Some? {
      var a, b := EvalTerm1(t1, env).value, EvalTerm1(t2, env).value;
      assert AnyOf([t2], a, env) == Some(a || b);
      assert AnyOf([Leaf("OR"), t2], a, env) == Some(a || b);
      assert AnyOf(ns, false, env) == AnyOf([Leaf("OR"), t2], a, env);
    } else if EvalTerm1(t1, env).Some? {
      var a := EvalTerm1(t1, env).value;
      assert AnyOf([Leaf("OR"), t2], a, env) == None;
    }
  }

  lemma TrueTermValue(env: Env)
    ensures EvalTerm1(TrueTerm(), env) == Some(true) && SignFree(TrueTerm())
  {
    var e := OneFactor("LAMBDA", TokenFactor("BOOLLIT", "True"));
    assert At(e, [0, 1]) == Ok(TokenFactor("BOOLLIT", "True"));
    assert EvalFact1(Bare(e), env) == Some(true);
    OneFactTerm(Bare(e), env);
  }

  lemma TrueTermCode()
    ensures SolveTerm1(TrueTerm()).Ok?
  {
    var e := OneFactor("LAMBDA", TokenFactor("BOOLLIT", "True"));
    assert At(e, [0, 1]) == Ok(TokenFactor("BOOLLIT", "True"));
    assert SolveFact1(Bare(e)).Ok?;
    OneFactTerm(Bare(e), map[]);
  }

  /** `True or 1 < -(2)` is true. */
  lemma TrueOrLessNegatedValue(env: Env)
    ensures EvalBool(TrueOrLessNegated(), env) == Some(true)
  {
    TrueTermValue(env);
    LessNegatedValue(env);
    OneFactTerm(LessNegated(), env);
    TwoTermsValue(TrueTerm(), LessTerm(), env);
  }

  // ---------------------------------------------------------------- its type

  lemma PlainFactorType(f: Node, s: SymTab)
    requires f.tag == "FACT2"
    ensures TypeOf(OneFactor("LAMBDA", f), s) == TypeOf(f, s)
  {
  }

  lemma MinusFactorType(f: Node, s: SymTab)
    requires f.tag == "FACT2" && |f.children| > 0 && TypeOf(f.children[0], s) == Ok(Some(INT))
    ensures TypeOf(OneFactor("MINUS", f), s) == Ok(Some(INT))
  {
  }

  /** Wrapping an EXP2 in an EXPRESSION keeps its type. */
  lemma WrapType(e: Node, s: SymTab)
    requires e.tag == "EXP2"
    ensures TypeOf(Wrap(e), s) == TypeOf(e, s)
  {
    assert TypeOf(Bare(e), s) == TypeOf(e, s);
  }

  lemma TrueTermType(s: SymTab)
    ensures TypeOf(TrueTerm(), s) == Ok(Some(BOOL))
  {
    var e := OneFactor("LAMBDA", TokenFactor("BOOLLIT", "True"));
    PlainFactorType(TokenFactor("BOOLLIT", "True"), s);
    assert TypeOf(Bare(e), s) == TypeOf(e, s);
  }

  lemma LessTermType(s: SymTab)
    ensures TypeOf(LessTerm(), s) == Ok(Some(BOOL))
  {
    PlainFactorType(TokenFactor("INTLIT", "2"), s);
    WrapType(Two(), s);
    MinusFactorType(Node("FACT2", None, [Wrap(Two())]), s);
    PlainFactorType(TokenFactor("INTLIT", "1"), s);
    assert TypeOf(LessNegated(), s) == Ok(Some(BOOL));
  }

  /** `True or 1 < -(2)` passes the type check as a BOOL expression. */
  lemma TrueOrLessNegatedType(s: SymTab)
    ensures TypeOf(TrueOrLessNegated(), s) == Ok(Some(BOOL))
  {
    var ns := TrueOrLessNegated().children;
    TrueTermType(s);
    LessTermType(s);
    AllOperandsOk(ns, s, "TERM1", BOOL, OrMsg);
  }

  // ---------------------------------------------------------------- its run

  /** `li $t6, 0` followed by code that spares `$t6` leaves `$t6` at 0. */
  lemma ZeroedT6(p: seq<Instr>, q: seq<Instr>, m: State)
    requires Exec(p + [Li(T6, 0)] + q, m).Some? && Spares(q, T6)
    ensures Get(Exec(p + [Li(T6, 0)] + q, m).value, T6) == 0
  {
    ExecAppend(p + [Li(T6, 0)], q, m);
    ExecAppend(p, [Li(T6, 0)], m);
    var m1 := Exec(p, m).value;
    ExecLi(T6, 0, m1);
    ExecSpares(q, Put(m1, T6, 0), T6);
  }

  /**
   * A comparison `a < b` whose right side zeroes `$t6` part way through:
   * `$t8` gets the comparison's truth, `$t6` ends at 0 and `$t7` is kept.
   */
  lemma LessZeroingRun(oc: seq<Instr>, p: seq<Instr>, q: seq<Instr>, m: State, a: int, b: int) returns (m': State)
    requires Computes(oc, m, T0, a, {T0, T1, T2, T6})
    requires Computes(p + [Li(T6, 0)] + q, Put(Exec(oc, m).value, T5, a), T0, b, {T0, T1, T2, T6})
    requires Spares(q, T6)
    ensures Exec(oc + [Move(T5, T0)] + (p + [Li(T6, 0)] + q) + [Set(SetLt, T8, T5, T0)], m) == Some(m')
    ensures Get(m', T8) == Truth(a < b) && Get(m', T6) == 0 && Get(m', T7) == Get(m, T7)
  {
    var mc := p + [Li(T6, 0)] + q;
    var m1 := Exec(oc, m).value;
    ExecMove(T5, T0, m1);
    var m2 := Put(m1, T5, a);
    ExecThen(oc, [Move(T5, T0)], m, m1);
    var m3 := Exec(mc, m2).value;
    ZeroedT6(p, q, m2);
    ExecThen(oc + [Move(T5, T0)], mc, m, m2);
    assert Get(m3, T5) == a && Get(m3, T7) == Get(m, T7);
    ExecSet(SetLt, T8, T5, T0, m3);
    m' := Put(m3, T8, Truth(a < b));
    ExecThen(oc + [Move(T5, T0)] + mc, [Set(SetLt, T8, T5, T0)], m, m3);
  }

  /** `1 < -(2)` sets `$t8` to 0 and, through its negation, `$t6` to 0, keeping `$t7`. */
  lemma LessNegatedRun(m: State) returns (m': State)
    ensures SolveFact1(LessNegated()).Ok?
    ensures Exec(SolveFact1(LessNegated()).value, m) == Some(m')
    ensures Get(m', T8) == 0 && Get(m', T6) == 0 && Get(m', T7) == Get(m, T7)
  {
    LessNegatedCode();
    var oc := SolveInt(One()).value;
    var p, q := MinusTwoCode();
    OneValue(m.vars);
    IntCorrect(One(), m, oc, 1);
    var m2 := Put(Exec(oc, m).value, T5, 1);
    MinusTwoValue(m2.vars);
    IntCorrect(MinusTwo(), m2, p + [Li(T6, 0)] + q, -2);
    m' := LessZeroingRun(oc, p, q, m, 1, -2);
  }

  /** A one-FACT1 TERM1 whose factor keeps `$t7` and leaves 0 in `$t8` and `$t6` leaves 0 in `$t7` and `$t6`. */
  lemma FalseTermRun(c: seq<Instr>, m: State, m1: State)
    requires Exec(c, Put(m, T7, 1)) == Some(m1) && Get(m1, T8) == 0 && Get(m1, T6) == 0 && Get(m1, T7) == 1
    ensures Exec([Li(T7, 1)] + c + [And(T7, T7, T8)], m) == Some(Put(m1, T7, 0))
    ensures Get(Put(m1, T7, 0), T7) == 0 && Get(Put(m1, T7, 0), T6) == 0
  {
    ExecLi(T7, 1, m);
    ExecThen([Li(T7, 1)], c, m, Put(m, T7, 1));
    AndOneZero(m1);
    ExecThen([Li(T7, 1)] + c, [And(T7, T7, T8)], m, m1);
  }

  lemma AndOneZero(m1: State)
    requires Get(m1, T8) == 0 && Get(m1, T7) == 1
    ensures Exec([And(T7, T7, T8)], m1) == Some(Put(m1, T7, 0))
  {
    AndTruth(true, false);
    ExecAnd(T7, T7, T8, m1);
  }

  /** The TERM1 `1 < -(2)` leaves 0 in both `$t7` and `$t6`. */
  lemma LessTermRun(m: State) returns (m': State)
    ensures SolveTerm1(LessTerm()).Ok?
    ensures Exec(SolveTerm1(LessTerm()).value, m) == Some(m')
    ensures Get(m', T7) == 0 && Get(m', T6) == 0
  {
    PutGet(m, T7, 1);
    var m1 := LessNegatedRun(Put(m, T7, 1));
    OneFactTerm(LessNegated(), m.vars);
    FalseTermRun(SolveFact1(LessNegated()).value, m, m1);
    m' := Put(m1, T7, 0);
  }

  lemma TrueTermRuns(m: State)
    ensures SolveTerm1(TrueTerm()).Ok? && Exec(SolveTerm1(TrueTerm()).value, m).Some?
  {
    TrueTermValue(m.vars);
    TrueTermCode();
    Term1Correct(TrueTerm(), m, SolveTerm1(TrueTerm()).value, true);
  }

  /** The first operand of an OR runs when its own code does. */
  lemma FirstOperandRuns(c1: seq<Instr>, m: State)
    requires Exec(c1, Put(m, T6, 0)).Some?
    ensures Exec([Li(T6, 0)] + c1 + [Or(T6, T6, T7)], m).Some?
  {
    ExecLi(T6, 0, m);
    ExecThen([Li(T6, 0)], c1, m, Put(m, T6, 0));
    var mt := Exec(c1, Put(m, T6, 0)).value;
    ExecOr(T6, T6, T7, mt);
    ExecThen([Li(T6, 0)] + c1, [Or(T6, T6, T7)], m, mt);
  }

  /** A last OR operand that leaves 0 in `$t7` and `$t6` leaves the accumulator at 0. */
  lemma LastOperandZeroes(pre: seq<Instr>, c2: seq<Instr>, m: State) returns (m': State)
    requires Exec(pre, m).Some? && Exec(c2, Exec(pre, m).value).Some?
    requires Get(Exec(c2, Exec(pre, m).value).value, T6) == 0 && Get(Exec(c2, Exec(pre, m).value).value, T7) == 0
    ensures Exec(pre + c2 + [Or(T6, T6, T7)], m) == Some(m') && Get(m', T6) == 0
  {
    var ma := Exec(pre, m).value;
    var mb := Exec(c2, ma).value;
    ExecThen(pre, c2, m, ma);
    OrTruth(false, false);
    ExecOr(T6, T6, T7, mb);
    m' := Put(mb, T6, 0);
    ExecThen(pre + c2, [Or(T6, T6, T7)], m, mb);
  }

  /**
   * `True or 1 < -(2)` is a BOOL expression whose value is true, yet its
   * code leaves 0 in `$t6`: the negation inside the second operand zeroes
   * the OR accumulator before the operand's value is ORed in.
   */
  lemma NegationClobbersOr() returns (m': State)
    ensures TypeOf(TrueOrLessNegated(), map[]) == Ok(Some(BOOL))
    ensures EvalBool(TrueOrLessNegated(), Blank().vars) == Some(true)
    ensures SolveBool(TrueOrLessNegated()).Ok?
    ensures Exec(SolveBool(TrueOrLessNegated()).value, Blank()) == Some(m') && Get(m', T6) == 0
  {
    TrueOrLessNegatedType(map[]);
    TrueOrLessNegatedValue(Blank().vars);
    var m := Blank();
    TrueTermRuns(Put(m, T6, 0));
    var c1 := SolveTerm1(TrueTerm()).value;
    FirstOperandRuns(c1, m);
    var pre := [Li(T6, 0)] + c1 + [Or(T6, T6, T7)];
    var _ := LessTermRun(Exec(pre, m).value);
    m' := LastOperandZeroes(pre, SolveTerm1(LessTerm()).value, m);
    TwoTermsCode(TrueTerm(), LessTerm());
  }
}

/**
 * What the text pass's straight-line code computes on the machine of
 * `Mips`: a WRITE of an integer expression puts syscall 1 in `$v0` and the
 * expression's value in `$a0` before its `syscall`, and an assignment of an
 * integer expression to an INT variable stores the value in the variable.
 */
module TextProofs {
  import opened Wrappers
  import opened Syntax
  import opened Typing
  import opened Mips
  import opened Lowering
  import opened CodeFacts
  import opened IntProofs
  import opened TextPass

  /** An integer expression's code: its value in `$t0`, `$v0` and the variables untouched. */
  lemma IntKeepsRest(e: Node, m: State, ic: seq<Instr>, v: int) returns (m2: State)
    requires SolveInt(e) == Ok(ic) && EvalInt(e, m.vars) == Some(v)
    ensures Exec(ic, m) == Some(m2) && Get(m2, T0) == v && Get(m2, V0) == Get(m, V0) && m2.vars == m.vars
  {
    IntCorrect(e, m, ic, v);
    m2 := Exec(ic, m).value;
    assert Keeps(m, m2, {T0, T1, T2, T6}) && V0 !in {T0, T1, T2, T6};
  }

  /** The code before the final `syscall` of a WRITE of an INT expression. */
  lemma WriteIntShape(e: Node, st: TextState) returns (ic: seq<Instr>)
    requires TypeOf(e, st.syms) == Ok(Some(INT)) && WriteOne(e, Some(INT), st.syms, st.lits).Ok?
    ensures SolveInt(e) == Ok(ic)
    ensures WriteOne(e, Some(INT), st.syms, st.lits).value == [Comment("Writing an integer expression"), Li(V0, 1)] + ic + [Move(A0, T0), Syscall]
  {
    ic := SolveInt(e).value;
  }

  /**
   * Before its `syscall`, a WRITE of an INT expression has selected print
   * integer (`$v0 == 1`) and holds the expression's value in `$a0`; the
   * variables are untouched.
   */
  lemma WriteIntLoadsValue(e: Node, st: TextState, m: State, v: int) returns (m': State)
    requires TypeOf(e, st.syms) == Ok(Some(INT)) && WriteOne(e, Some(INT), st.syms, st.lits).Ok?
    requires EvalInt(e, m.vars) == Some(v)
    ensures var code := WriteOne(e, Some(INT), st.syms, st.lits).value;
      && |code| >= 1 && code[|code| - 1] == Syscall
      && Exec(code[..|code| - 1], m) == Some(m')
    ensures Get(m', V0) == 1 && Get(m', A0) == v && m'.vars == m.vars
  {
    var ic := WriteIntShape(e, st);
    var code := WriteOne(e, Some(INT), st.syms, st.lits).value;
    var head := [Comment("Writing an integer expression"), Li(V0, 1)];
    assert code[..|code| - 1] == head + ic + [Move(A0, T0)];
    var m1 := Put(m, V0, 1);
    ExecOne(Comment("Writing an integer expression"), m);
    ExecLi(V0, 1, m);
    ExecThen([Comment("Writing an integer expression")], [Li(V0, 1)], m, m);
    assert head == [Comment("Writing an integer expression")] + [Li(V0, 1)];
    var m2 := IntKeepsRest(e, m1, ic, v);
    ExecThen(head, ic, m, m1);
    m' := Put(m2, A0, v);
    ExecMove(A0, T0, m2);
    ExecThen(head + ic, [Move(A0, T0)], m, m2);
  }

  /** The code an assignment of an INT expression writes, in pieces. */
  lemma AssignIntShape(a: Node, st: TextState) returns (x: string, ic: seq<Instr>)
    requires Assign(a, st).Ok?
    requires a.children[0].val.value in st.syms && st.syms[a.children[0].val.value].vtype == INT
    requires |a.children| >= 2 && TypeOf(a.children[1], st.syms) == Ok(Some(INT))
    ensures x == a.children[0].val.value && SolveInt(a.children[1]) == Ok(ic)
    ensures Assign(a, st).value.out == st.out + ([Comment("assign value to " + x + ".")] + ic + [StoreWord(T0, x)])
  {
    AssignCode(a, st);
    x := a.children[0].val.value;
    ic := SolveInt(a.children[1]).value;
  }

  /**
   * The code `assign` writes for an INT variable and an INT expression
   * stores the expression's value in the variable and changes no other
   * variable.
   */
  lemma AssignIntStores(a: Node, st: TextState, m: State, v: int) returns (m': State)
    requires Assign(a, st).Ok?
    requires a.children[0].val.value in st.syms && st.syms[a.children[0].val.value].vtype == INT
    requires |a.children| >= 2 && TypeOf(a.children[1], st.syms) == Ok(Some(INT))
    requires EvalInt(a.children[1], m.vars) == Some(v)
    ensures Exec(Assign(a, st).value.out[|st.out|..], m) == Some(m')
    ensures m'.vars == m.vars[a.children[0].val.value := v]
  {
    var x, ic := AssignIntShape(a, st);
    var code := [Comment("assign value to " + x + ".")] + ic + [StoreWord(T0, x)];
    assert Assign(a, st).value.out[|st.out|..] == code;
    ExecOne(Comment("assign value to " + x + "."), m);
    var m2 := IntKeepsRest(a.children[1], m, ic, v);
    ExecThen([Comment("assign value to " + x + ".")], ic, m, m);
    ExecOne(StoreWord(T0, x), m2);
    m' := m2.(vars := m2.vars[x := v]);
    ExecThen([Comment("assign value to " + x + ".")] + ic, [StoreWord(T0, x)], m, m2);
  }
}

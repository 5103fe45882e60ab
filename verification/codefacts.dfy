/**
 * Facts about straight-line code on the machine of `Mips` that the
 * lowering proofs are assembled from: framed runs of the generator's
 * building blocks (push and pop, the negation through `$t6`, the
 * `mult`/`div` combination, the accumulation into `$t0` and `$t1`).
 */
module CodeFacts {
  import opened Wrappers
  import opened Mips
  import opened Lowering

  /** Division and remainder by zero have no value. */
  function Apply(op: MulOp, a: int, b: int): Option<int> {
    match op
    case Times => Some(a * b)
    case Divide => if b == 0 then None else Some(Quot(a, b))
    case Modulo => if b == 0 then None else Some(Rem(a, b))
  }

  /** `code` runs to completion, leaves `v` in `dst`, is framed, and writes no register outside `clobbered`. */
  ghost predicate Computes(code: seq<Instr>, m: State, dst: Reg, v: int, clobbered: set<Reg>) {
    && Exec(code, m).Some?
    && Runs(code, m, Exec(code, m).value, clobbered)
    && Get(Exec(code, m).value, dst) == v
  }

  lemma ExecThen(a: seq<Instr>, b: seq<Instr>, m: State, m1: State)
    requires Exec(a, m) == Some(m1)
    ensures Exec(a + b, m) == Exec(b, m1)
  {
    ExecAppend(a, b, m);
  }

  /** The state after one push step: `$sp` one word down, the register stored there. */
  function PushOne(r: Reg, m: State): (m': State)
    requires r != Sp
    ensures Exec([Addi(Sp, Sp, -4), StoreStack(r)], m) == Some(m')
    ensures Get(m', Sp) == Get(m, Sp) - 4 && Mem(m', Get(m, Sp) - 4) == Get(m, r)
    ensures forall q :: q != Sp ==> Get(m', q) == Get(m, q)
    ensures forall a :: a != Get(m, Sp) - 4 ==> Mem(m', a) == Mem(m, a)
    ensures m'.vars == m.vars
  {
    var sp := Get(m, Sp);
    var m1 := Put(m, Sp, sp - 4);
    var m2 := m1.(mem := m1.mem[sp - 4 := Get(m1, r)]);
    ExecAddi(Sp, Sp, -4, m);
    ExecStoreStack(r, m1);
    ExecThen([Addi(Sp, Sp, -4)], [StoreStack(r)], m, m1);
    assert [Addi(Sp, Sp, -4)] + [StoreStack(r)] == [Addi(Sp, Sp, -4), StoreStack(r)];
    m2
  }

  /** The state after one pop step: the first register loaded, `$sp` one word up. */
  function PopOne(r: Reg, m: State): (m': State)
    requires r != Sp && r != Zero
    ensures Exec([LoadStack(r), Addi(Sp, Sp, 4)], m) == Some(m')
    ensures Get(m', r) == Mem(m, Get(m, Sp)) && Get(m', Sp) == Get(m, Sp) + 4
    ensures forall q :: q != Sp && q != r ==> Get(m', q) == Get(m, q)
    ensures m'.vars == m.vars && m'.mem == m.mem
  {
    var m1 := Put(m, r, Mem(m, Get(m, Sp)));
    var m2 := Put(m1, Sp, Get(m, Sp) + 4);
    ExecLoadStack(r, m);
    ExecAddi(Sp, Sp, 4, m1);
    ExecThen([LoadStack(r)], [Addi(Sp, Sp, 4)], m, m1);
    assert [LoadStack(r)] + [Addi(Sp, Sp, 4)] == [LoadStack(r), Addi(Sp, Sp, 4)];
    m2
  }

  /** `Push` of two registers: `a` one word below `$sp`, `b` two words below. */
  lemma PushTwo(a: Reg, b: Reg, m: State)
    requires a != Sp && b != Sp
    ensures Exec(Push([a, b]), m).Some?
    ensures var m' := Exec(Push([a, b]), m).value;
            && Get(m', Sp) == Get(m, Sp) - 8
            && (forall r :: r != Sp ==> Get(m', r) == Get(m, r))
            && m'.vars == m.vars
            && (forall x :: x >= Get(m, Sp) ==> Mem(m', x) == Mem(m, x))
            && Mem(m', Get(m, Sp) - 4) == Get(m, a) && Mem(m', Get(m, Sp) - 8) == Get(m, b)
  {
    var m1 := PushOne(a, m);
    var m2 := PushOne(b, m1);
    var first := [Addi(Sp, Sp, -4), StoreStack(a)];
    var second := [Addi(Sp, Sp, -4), StoreStack(b)];
    PushPair(a, b);
    ExecThen(first, second, m, m1);
    assert Exec(Push([a, b]), m) == Some(m2);
  }

  lemma PushPair(a: Reg, b: Reg)
    ensures Push([a, b]) == [Addi(Sp, Sp, -4), StoreStack(a)] + [Addi(Sp, Sp, -4), StoreStack(b)]
  {
    assert [a, b][0] == a && [a, b][1..] == [b] && [b][1..] == [];
    assert Push([b]) == [Addi(Sp, Sp, -4), StoreStack(b)] + Push([]);
    assert Push([b]) == [Addi(Sp, Sp, -4), StoreStack(b)];
  }

  lemma PopPair(a: Reg, b: Reg)
    ensures Pop([a, b]) == [LoadStack(a), Addi(Sp, Sp, 4)] + [LoadStack(b), Addi(Sp, Sp, 4)]
  {
    assert [a, b][0] == a && [a, b][1..] == [b] && [b][1..] == [];
    assert Pop([b]) == [LoadStack(b), Addi(Sp, Sp, 4)] + Pop([]);
    assert Pop([b]) == [LoadStack(b), Addi(Sp, Sp, 4)];
  }

  /** `Pop` of two registers: `a` from the word at `$sp`, `b` from the one above. */
  lemma PopTwo(a: Reg, b: Reg, m: State)
    requires a != Sp && b != Sp && a != Zero && b != Zero && a != b
    ensures Exec(Pop([a, b]), m).Some?
    ensures var m' := Exec(Pop([a, b]), m).value;
            && Get(m', Sp) == Get(m, Sp) + 8
            && (forall r :: r != Sp && r != a && r != b ==> Get(m', r) == Get(m, r))
            && m'.vars == m.vars && m'.mem == m.mem
            && Get(m', a) == Mem(m, Get(m, Sp)) && Get(m', b) == Mem(m, Get(m, Sp) + 4)
  {
    var m1 := PopOne(a, m);
    var m2 := PopOne(b, m1);
    var first := [LoadStack(a), Addi(Sp, Sp, 4)];
    var second := [LoadStack(b), Addi(Sp, Sp, 4)];
    PopPair(a, b);
    ExecThen(first, second, m, m1);
    assert Exec(Pop([a, b]), m) == Some(m2);
  }

  // ---------------------------------------------------------------- building blocks

  lemma ComputesOf(code: seq<Instr>, m: State, m': State, dst: Reg, v: int, clobbered: set<Reg>)
    requires Runs(code, m, m', clobbered) && Get(m', dst) == v
    ensures Computes(code, m, dst, v, clobbered)
  {
  }

  /** Three framed runs one after the other. */
  lemma Runs3(a: seq<Instr>, b: seq<Instr>, c: seq<Instr>, m: State, m1: State, m2: State, m3: State,
              ca: set<Reg>, cb: set<Reg>, cc: set<Reg>, clobbered: set<Reg>)
    requires Runs(a, m, m1, ca) && Runs(b, m1, m2, cb) && Runs(c, m2, m3, cc)
    requires ca + cb + cc <= clobbered
    ensures Runs(a + b + c, m, m3, clobbered)
  {
    RunsThen(a, b, m, m1, m2, ca, cb);
    RunsThen(a + b, c, m, m2, m3, ca + cb, cc);
    RunsWeaken(a + b + c, m, m3, ca + cb + cc, clobbered);
  }

  /** `li r, k` in front of code that computes from the state it leaves. */
  lemma LeadLi(r: Reg, k: int, body: seq<Instr>, m: State, dst: Reg, v: int, clobbered: set<Reg>)
    requires r != Sp && r in clobbered
    requires Computes(body, Put(m, r, k), dst, v, clobbered)
    ensures Computes([Li(r, k)] + body, m, dst, v, clobbered)
  {
    ExecLi(r, k, m);
    PutRuns(Li(r, k), m, r, k);
    RunsThen([Li(r, k)], body, m, Put(m, r, k), Exec(body, Put(m, r, k)).value, {r}, clobbered);
    assert {r} + clobbered == clobbered;
  }

  /** A term's value in `$t1` folded into `$t0` by `add` or `sub`, then the rest of the sum. */
  lemma AccumulateRuns(t: seq<Instr>, op: Instr, rest: seq<Instr>, m: State, v: int, acc: int, y: int)
    requires (op == Add(T0, T0, T1) && acc == Get(m, T0) + v) || (op == Sub(T0, T0, T1) && acc == Get(m, T0) - v)
    requires Computes(t, m, T1, v, {T1, T2, T6})
    requires Computes(rest, Put(Exec(t, m).value, T0, acc), T0, y, {T0, T1, T2, T6})
    ensures Computes(t + [op] + rest, m, T0, y, {T0, T1, T2, T6})
  {
    var m1 := Exec(t, m).value;
    var m2 := Put(m1, T0, acc);
    if op.Add? { ExecAdd(T0, T0, T1, m1); } else { ExecSub(T0, T0, T1, m1); }
    PutRuns(op, m1, T0, acc);
    Runs3(t, [op], rest, m, m1, m2, Exec(rest, m2).value, {T1, T2, T6}, {T0}, {T0, T1, T2, T6}, {T0, T1, T2, T6});
  }

  /** A factor's value in `$t2` added to `$t1`, then the remaining factors. */
  lemma AddFactorRuns(f: seq<Instr>, rest: seq<Instr>, m: State, x: int, y: int)
    requires Computes(f, m, T2, x, {T2, T6})
    requires Computes(rest, Put(Exec(f, m).value, T1, Get(m, T1) + x), T1, y, {T1, T2, T6})
    ensures Computes(f + [Add(T1, T1, T2)] + rest, m, T1, y, {T1, T2, T6})
  {
    var m1 := Exec(f, m).value;
    var m2 := Put(m1, T1, Get(m, T1) + x);
    ExecAdd(T1, T1, T2, m1);
    PutRuns(Add(T1, T1, T2), m1, T1, Get(m, T1) + x);
    Runs3(f, [Add(T1, T1, T2)], rest, m, m1, m2, Exec(rest, m2).value, {T2, T6}, {T1}, {T1, T2, T6}, {T1, T2, T6});
  }

  /** The state `CombineCode(op)` leaves: LO and HI set by the `mult` or `div`, `$t1` overwritten. */
  ghost function Combined(op: MulOp, m: State): State
    requires Apply(op, Get(m, T1), Get(m, T2)).Some?
  {
    var a, b := Get(m, T1), Get(m, T2);
    match op
    case Times => Put(m.(lo := a * b), T1, a * b)
    case Divide => Put(m.(lo := Quot(a, b), hi := Rem(a, b)), T1, Quot(a, b))
    case Modulo => Put(m.(lo := Quot(a, b), hi := Rem(a, b)), T1, Rem(a, b))
  }

  /** Multiplying, dividing or taking the remainder of `$t1` by `$t2`. */
  lemma CombineCorrect(op: MulOp, m: State)
    requires Apply(op, Get(m, T1), Get(m, T2)).Some?
    ensures Runs(CombineCode(op), m, Combined(op, m), {T1})
    ensures Get(Combined(op, m), T1) == Apply(op, Get(m, T1), Get(m, T2)).value
  {
    var a, b := Get(m, T1), Get(m, T2);
    if op == Times {
      var m1 := m.(lo := a * b);
      ExecMult(T1, T2, m);
      ExecMflo(T1, m1);
      PutRuns(Mflo(T1), m1, T1, a * b);
      RunsThen([Mult(T1, T2)], [Mflo(T1)], m, m1, Combined(op, m), {}, {T1});
      assert [Mult(T1, T2)] + [Mflo(T1)] == CombineCode(op);
    } else {
      var m1 := m.(lo := Quot(a, b), hi := Rem(a, b));
      ExecDiv(T1, T2, m);
      var last := if op == Divide then Mflo(T1) else Mfhi(T1);
      if op == Divide {
        ExecMflo(T1, m1);
        PutRuns(Mflo(T1), m1, T1, Quot(a, b));
      } else {
        ExecMfhi(T1, m1);
        PutRuns(Mfhi(T1), m1, T1, Rem(a, b));
      }
      RunsThen([Div(T1, T2)], [last], m, m1, Combined(op, m), {}, {T1});
      assert [Div(T1, T2)] + [last] == CombineCode(op);
    }
  }

  /** A factor's value in `$t2` combined into `$t1`, then the remaining factors. */
  lemma CombineFactorRuns(f: seq<Instr>, op: MulOp, rest: seq<Instr>, m: State, x: int, y: int)
    requires Computes(f, m, T2, x, {T2, T6}) && Apply(op, Get(m, T1), x).Some?
    requires Computes(rest, Combined(op, Exec(f, m).value), T1, y, {T1, T2, T6})
    ensures Computes(f + CombineCode(op) + rest, m, T1, y, {T1, T2, T6})
  {
    var m1 := Exec(f, m).value;
    CombineCorrect(op, m1);
    var m2 := Combined(op, m1);
    Runs3(f, CombineCode(op), rest, m, m1, m2, Exec(rest, m2).value, {T2, T6}, {T1}, {T1, T2, T6}, {T1, T2, T6});
  }

  /** The optional negation of `$t2`. */
  lemma NegateRuns(negative: bool, m: State)
    ensures Computes(NegateCode(negative), m, T2, if negative then 0 - Get(m, T2) else Get(m, T2), {T2, T6})
  {
    if negative {
      var m1 := Put(m, T6, 0);
      ExecLi(T6, 0, m);
      PutRuns(Li(T6, 0), m, T6, 0);
      var m2 := Put(m1, T2, 0 - Get(m, T2));
      ExecSub(T2, T6, T2, m1);
      PutRuns(Sub(T2, T6, T2), m1, T2, 0 - Get(m, T2));
      RunsThen([Li(T6, 0)], [Sub(T2, T6, T2)], m, m1, m2, {T6}, {T2});
      assert [Li(T6, 0)] + [Sub(T2, T6, T2)] == NegateCode(negative);
      assert {T6} + {T2} == {T2, T6};
    } else {
      RunsNil(m);
      RunsWeaken([], m, m, {}, {T2, T6});
    }
  }

  /** Loading and then negating. */
  lemma LoadThenNegate(load: seq<Instr>, negative: bool, m: State, x: int)
    requires Computes(load, m, T2, x, {T2, T6})
    ensures Computes(load + NegateCode(negative), m, T2, if negative then 0 - x else x, {T2, T6})
  {
    var m1 := Exec(load, m).value;
    NegateRuns(negative, m1);
    RunsThen(load, NegateCode(negative), m, m1, Exec(NegateCode(negative), m1).value, {T2, T6}, {T2, T6});
    assert {T2, T6} + {T2, T6} == {T2, T6};
  }

  /**
   * Code that leaves a value in `$t0` and keeps the stack from `$sp` up,
   * run between a push and a pop of `$t0` and `$t1`, leaves that value in
   * `$t2` and gives `$t0` and `$t1` back.
   */
  lemma SavedAround(inner: seq<Instr>, m: State, m2: State, y: int)
    requires Exec(Push([T0, T1]), m).Some?
    requires Runs(inner, Exec(Push([T0, T1]), m).value, m2, {T0, T1, T2, T6}) && Get(m2, T0) == y
    ensures Computes(Push([T0, T1]) + inner + [Move(T2, T0)] + Pop([T1, T0]), m, T2, y, {T2, T6})
  {
    var m3 := Put(m2, T2, Get(m2, T0));
    SavedFrame(m, m2);
    SavedExec(Push([T0, T1]), inner, Pop([T1, T0]), m, Exec(Push([T0, T1]), m).value, m2, Exec(Pop([T1, T0]), m3).value);
  }

  /** The four pieces of a saved evaluation run one after the other. */
  lemma SavedExec(push: seq<Instr>, inner: seq<Instr>, pop: seq<Instr>, m: State, m1: State, m2: State, m4: State)
    requires Exec(push, m) == Some(m1) && Exec(inner, m1) == Some(m2)
    requires Exec(pop, Put(m2, T2, Get(m2, T0))) == Some(m4)
    ensures Exec(push + inner + [Move(T2, T0)] + pop, m) == Some(m4)
  {
    ExecMove(T2, T0, m2);
    ExecThen(push, inner, m, m1);
    ExecThen(push + inner, [Move(T2, T0)], m, m2);
    ExecThen(push + inner + [Move(T2, T0)], pop, m, Put(m2, T2, Get(m2, T0)));
  }

  /**
   * The register and memory bookkeeping behind `SavedAround`: whatever a
   * framed `inner` did between the push and the pop, the pop restores `$t0`,
   * `$t1` and `$sp`, and `$t2` carries the saved result out.
   */
  lemma SavedFrame(m: State, m2: State)
    requires Exec(Push([T0, T1]), m).Some?
    requires Framed(Exec(Push([T0, T1]), m).value, m2)
    requires Keeps(Exec(Push([T0, T1]), m).value, m2, {T0, T1, T2, T6})
    ensures var m4 := Exec(Pop([T1, T0]), Put(m2, T2, Get(m2, T0)));
            && m4.Some? && Framed(m, m4.value) && Keeps(m, m4.value, {T2, T6})
            && Get(m4.value, T2) == Get(m2, T0)
  {
    SavedFrameMem(m, m2);
    SavedFrameRegs(m, m2);
  }

  lemma SavedFrameMem(m: State, m2: State)
    requires Exec(Push([T0, T1]), m).Some?
    requires Framed(Exec(Push([T0, T1]), m).value, m2)
    ensures var m4 := Exec(Pop([T1, T0]), Put(m2, T2, Get(m2, T0)));
            && m4.Some? && Framed(m, m4.value)
  {
    PushTwo(T0, T1, m);
    var m1 := Exec(Push([T0, T1]), m).value;
    var m3 := Put(m2, T2, Get(m2, T0));
    PopTwo(T1, T0, m3);
    SavedMem(m, m1, m2, Exec(Pop([T1, T0]), m3).value);
  }

  lemma SavedFrameRegs(m: State, m2: State)
    requires Exec(Push([T0, T1]), m).Some?
    requires Framed(Exec(Push([T0, T1]), m).value, m2)
    requires Keeps(Exec(Push([T0, T1]), m).value, m2, {T0, T1, T2, T6})
    ensures var m4 := Exec(Pop([T1, T0]), Put(m2, T2, Get(m2, T0)));
            && m4.Some? && Keeps(m, m4.value, {T2, T6}) && Get(m4.value, T2) == Get(m2, T0)
  {
    PushTwo(T0, T1, m);
    var m1 := Exec(Push([T0, T1]), m).value;
    var m3 := Put(m2, T2, Get(m2, T0));
    PopTwo(T1, T0, m3);
    SavedRegs(m, m1, m2, m3, Exec(Pop([T1, T0]), m3).value);
  }

  /** Memory at and above the caller's `$sp` survives a push, a framed run and a pop. */
  lemma SavedMem(m: State, m1: State, m2: State, m4: State)
    requires forall x :: x >= Get(m, Sp) ==> Mem(m1, x) == Mem(m, x)
    requires Get(m1, Sp) == Get(m, Sp) - 8 && m1.vars == m.vars
    requires Framed(m1, m2)
    requires Get(m4, Sp) == Get(m2, Sp) + 8 && m4.vars == m2.vars && m4.mem == m2.mem
    ensures Framed(m, m4)
  {
    forall a | a >= Get(m, Sp) ensures Mem(m4, a) == Mem(m, a) {
      assert Mem(m4, a) == Mem(m2, a) == Mem(m1, a);
    }
  }

  /** The pop gives `$t0` and `$t1` back the values the push saved. */
  lemma SavedRegs(m: State, m1: State, m2: State, m3: State, m4: State)
    requires Get(m1, Sp) == Get(m, Sp) - 8
    requires forall r :: r != Sp ==> Get(m1, r) == Get(m, r)
    requires Mem(m1, Get(m, Sp) - 4) == Get(m, T0) && Mem(m1, Get(m, Sp) - 8) == Get(m, T1)
    requires Framed(m1, m2) && Keeps(m1, m2, {T0, T1, T2, T6})
    requires m3 == Put(m2, T2, Get(m2, T0))
    requires Get(m4, Sp) == Get(m3, Sp) + 8 && m4.mem == m3.mem
    requires forall r :: r != Sp && r != T1 && r != T0 ==> Get(m4, r) == Get(m3, r)
    requires Get(m4, T1) == Mem(m3, Get(m3, Sp)) && Get(m4, T0) == Mem(m3, Get(m3, Sp) + 4)
    ensures Keeps(m, m4, {T2, T6})
  {
    var sp := Get(m, Sp);
    forall r | r !in {T2, T6} ensures Get(m4, r) == Get(m, r) {
      if r == T0 {
        assert Get(m4, T0) == Mem(m2, sp - 4) == Mem(m1, sp - 4);
      } else if r == T1 {
        assert Get(m4, T1) == Mem(m2, sp - 8) == Mem(m1, sp - 8);
      } else if r != Sp {
        assert Get(m4, r) == Get(m3, r) == Get(m2, r) == Get(m1, r);
      }
    }
  }
}

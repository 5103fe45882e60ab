/**
 * The MIPS-style instructions the code generator writes, one constructor per
 * kind of `outfile.write` call, and a small interpreter for the straight-line
 * part of them. The interpreter is the yardstick the lowering proofs measure
 * the generated code against; the compiler itself never runs code.
 */
module Mips {
  import opened Wrappers

  datatype Reg = Zero | V0 | A0 | T0 | T1 | T2 | T5 | T6 | T7 | T8 | T9 | Sp

  /** The six set-on-comparison instructions (`seq`, `sne`, `sge`, `sle`, `sgt`, `slt`). */
  datatype RelOp = SetEq | SetNe | SetGe | SetLe | SetGt | SetLt

  datatype Instr =
    | Comment(text: string)             // "# ..." line
    | Newline                           // a bare line break
    | LoopLabel(k: int)                 // label<k>:
    | OutLabel(k: int)                  // out<k>:
    | JumpLoop(k: int)                  // j label<k>
    | JumpOut(k: int)                   // j out<k>
    | BranchNe(rs: Reg, rt: Reg, k: int) // bne rs, rt, out<k>
    | Li(rd: Reg, imm: int)
    | LiLexeme(rd: Reg, lexeme: string) // li rd, <integer literal as written in the source>
    | La(rd: Reg, name: string)
    | Syscall
    | LoadWord(rd: Reg, name: string)   // lw rd, <variable>
    | StoreWord(rs: Reg, name: string)  // sw rs, <variable>
    | LoadStack(rd: Reg)                // lw rd, 0($sp)
    | StoreStack(rs: Reg)               // sw rs, 0($sp)
    | Addi(rd: Reg, rs: Reg, imm: int)
    | Move(rd: Reg, rs: Reg)
    | Add(rd: Reg, rs: Reg, rt: Reg)
    | Sub(rd: Reg, rs: Reg, rt: Reg)
    | Or(rd: Reg, rs: Reg, rt: Reg)
    | And(rd: Reg, rs: Reg, rt: Reg)
    | Xor(rd: Reg, rs: Reg, rt: Reg)
    | Andi(rd: Reg, rs: Reg, imm: int)
    | Mult(rs: Reg, rt: Reg)
    | Div(rs: Reg, rt: Reg)
    | Mflo(rd: Reg)
    | Mfhi(rd: Reg)
    | Set(op: RelOp, rd: Reg, rs: Reg, rt: Reg)

  /**
   * Machine state: registers (absent ones read 0), the HI/LO pair, the
   * word-addressed stack memory and the named `.word` variables.
   */
  /** The general-purpose registers the generator uses, `$zero` aside (it always reads 0). */
  datatype Regs = Regs(v0: int, a0: int, t0: int, t1: int, t2: int, t5: int, t6: int, t7: int, t8: int, t9: int, sp: int)

  datatype State = State(regs: Regs, hi: int, lo: int, mem: map<int, int>, vars: map<string, int>)

  function Get(m: State, r: Reg): int {
    match r
    case Zero => 0
    case V0 => m.regs.v0
    case A0 => m.regs.a0
    case T0 => m.regs.t0
    case T1 => m.regs.t1
    case T2 => m.regs.t2
    case T5 => m.regs.t5
    case T6 => m.regs.t6
    case T7 => m.regs.t7
    case T8 => m.regs.t8
    case T9 => m.regs.t9
    case Sp => m.regs.sp
  }

  /** Writes to `$zero` are discarded. */
  function Put(m: State, r: Reg, v: int): State
  {
    match r
    case Zero => m
    case V0 => m.(regs := m.regs.(v0 := v))
    case A0 => m.(regs := m.regs.(a0 := v))
    case T0 => m.(regs := m.regs.(t0 := v))
    case T1 => m.(regs := m.regs.(t1 := v))
    case T2 => m.(regs := m.regs.(t2 := v))
    case T5 => m.(regs := m.regs.(t5 := v))
    case T6 => m.(regs := m.regs.(t6 := v))
    case T7 => m.(regs := m.regs.(t7 := v))
    case T8 => m.(regs := m.regs.(t8 := v))
    case T9 => m.(regs := m.regs.(t9 := v))
    case Sp => m.(regs := m.regs.(sp := v))
  }

  function Mem(m: State, a: int): int {
    if a in m.mem then m.mem[a] else 0
  }

  function Var(m: State, x: string): int {
    if x in m.vars then m.vars[x] else 0
  }

  /** The decimal value of an integer lexeme; `None` if it is not one. */
  function DecimalValue(s: string): (r: Option<nat>)
    ensures r.Some? ==> |s| > 0 && forall k | 0 <= k < |s| :: '0' <= s[k] <= '9'
    ensures |s| > 0 && (forall k | 0 <= k < |s| :: '0' <= s[k] <= '9') ==> r.Some?
  {
    if |s| == 0 || !('0' <= s[|s| - 1] <= '9') then None
    else if |s| == 1 then Some(s[0] as nat - '0' as nat)
    else match DecimalValue(s[..|s| - 1])
      case None => None
      case Some(v) => Some(v * 10 + (s[|s| - 1] as nat - '0' as nat))
  }

  /** Division truncating toward zero, as MIPS `div` leaves in LO. */
  function Quot(a: int, b: int): int
    requires b != 0
  {
    var mag := (if a < 0 then -a else a) / (if b < 0 then -b else b);
    if (a < 0) == (b < 0) then mag else -mag
  }

  /** The remainder MIPS `div` leaves in HI, with the dividend's sign. */
  function Rem(a: int, b: int): int
    requires b != 0
  {
    a - b * Quot(a, b)
  }

  function Holds(op: RelOp, a: int, b: int): bool {
    match op
    case SetEq => a == b
    case SetNe => a != b
    case SetGe => a >= b
    case SetLe => a <= b
    case SetGt => a > b
    case SetLt => a < b
  }

  /** The low 32 bits of a register, on which the bitwise instructions act. */
  function Bits(x: int): bv32 {
    (x % 0x1_0000_0000) as bv32
  }

  /** A 32-bit pattern read back as a signed word. */
  function Signed(b: bv32): int {
    if b as int >= 0x8000_0000 then b as int - 0x1_0000_0000 else b as int
  }

  /** `mult`: the product in LO (the high word in HI is not modelled). */
  function Times(a: int, b: int): int {
    a * b
  }

  /** `div`: quotient in LO, remainder in HI; dividing by zero stops the machine. */
  function Divide(m: State, a: int, b: int): Option<State> {
    if b == 0 then None else Some(m.(lo := Quot(a, b), hi := Rem(a, b)))
  }

  function BitOr(a: int, b: int): int {
    Signed(Bits(a) | Bits(b))
  }

  function BitAnd(a: int, b: int): int {
    Signed(Bits(a) & Bits(b))
  }

  function BitXor(a: int, b: int): int {
    Signed(Bits(a) ^ Bits(b))
  }

  /**
   * One instruction. Comments, blank lines and label definitions do nothing;
   * jumps, branches, `la` and `syscall` are outside the straight-line
   * fragment and stop the interpreter, as does a division by zero or an
   * `li` whose operand is not a decimal numeral.
   */
  function Step(i: Instr, m: State): Option<State> {
    match i
    case Comment(_) => Some(m)
    case Newline => Some(m)
    case LoopLabel(_) => Some(m)
    case OutLabel(_) => Some(m)
    case JumpLoop(_) => None
    case JumpOut(_) => None
    case BranchNe(_, _, _) => None
    case La(_, _) => None
    case Syscall => None
    case Li(rd, imm) => Some(Put(m, rd, imm))
    case LiLexeme(rd, lx) =>
      (match DecimalValue(lx)
       case None => None
       case Some(v) => Some(Put(m, rd, v)))
    case LoadWord(rd, x) => Some(Put(m, rd, Var(m, x)))
    case StoreWord(rs, x) => Some(m.(vars := m.vars[x := Get(m, rs)]))
    case LoadStack(rd) => Some(Put(m, rd, Mem(m, Get(m, Sp))))
    case StoreStack(rs) => Some(m.(mem := m.mem[Get(m, Sp) := Get(m, rs)]))
    case Addi(rd, rs, imm) => Some(Put(m, rd, Get(m, rs) + imm))
    case Move(rd, rs) => Some(Put(m, rd, Get(m, rs)))
    case Add(rd, rs, rt) => Some(Put(m, rd, Get(m, rs) + Get(m, rt)))
    case Sub(rd, rs, rt) => Some(Put(m, rd, Get(m, rs) - Get(m, rt)))
    case Or(rd, rs, rt) => Some(Put(m, rd, BitOr(Get(m, rs), Get(m, rt))))
    case And(rd, rs, rt) => Some(Put(m, rd, BitAnd(Get(m, rs), Get(m, rt))))
    case Xor(rd, rs, rt) => Some(Put(m, rd, BitXor(Get(m, rs), Get(m, rt))))
    case Andi(rd, rs, imm) => Some(Put(m, rd, BitAnd(Get(m, rs), imm)))
    case Mult(rs, rt) => Some(m.(lo := Times(Get(m, rs), Get(m, rt))))
    case Div(rs, rt) => Divide(m, Get(m, rs), Get(m, rt))
    case Mflo(rd) => Some(Put(m, rd, m.lo))
    case Mfhi(rd) => Some(Put(m, rd, m.hi))
    case Set(op, rd, rs, rt) => Some(Put(m, rd, if Holds(op, Get(m, rs), Get(m, rt)) then 1 else 0))
  }

  /** Straight-line execution; `None` once an instruction stops the machine. */
  function Exec(code: seq<Instr>, m: State): Option<State>
    decreases |code|, 1
  {
    if |code| == 0 then Some(m) else StepThen(code[0], code[1..], m)
  }

  /** One instruction, then the rest. */
  function StepThen(i: Instr, rest: seq<Instr>, m: State): Option<State>
    decreases |rest| + 1, 0
  {
    match Step(i, m)
    case None => None
    case Some(m1) => Exec(rest, m1)
  }

  lemma ExecOne(i: Instr, m: State)
    ensures Exec([i], m) == Step(i, m)
  {
    assert [i][0] == i && [i][1..] == [];
    assert Exec([i], m) == StepThen(i, [], m);
  }

  /** Running two pieces of code one after the other is running their concatenation. */
  lemma {:induction false} ExecAppend(a: seq<Instr>, b: seq<Instr>, m: State)
    ensures Exec(a + b, m) == (match Exec(a, m) case None => None case Some(m1) => Exec(b, m1))
    decreases |a|
  {
    if |a| == 0 {
      assert a + b == b;
    } else {
      assert (a + b)[0] == a[0];
      assert (a + b)[1..] == a[1..] + b;
      assert Exec(a + b, m) == StepThen(a[0], a[1..] + b, m);
      assert Exec(a, m) == StepThen(a[0], a[1..], m);
      match Step(a[0], m)
      case None =>
      case Some(m1) => ExecAppend(a[1..], b, m1);
    }
  }

  // ---------------------------------------------------------------- one instruction

  lemma ExecLi(rd: Reg, imm: int, m: State)
    ensures Exec([Li(rd, imm)], m) == Some(Put(m, rd, imm))
  {
    ExecOne(Li(rd, imm), m);
  }

  lemma ExecLiLexeme(rd: Reg, lexeme: string, m: State)
    ensures Exec([LiLexeme(rd, lexeme)], m)
            == if DecimalValue(lexeme).Some? then Some(Put(m, rd, DecimalValue(lexeme).value)) else None
  {
    ExecOne(LiLexeme(rd, lexeme), m);
  }

  lemma ExecLoadWord(rd: Reg, x: string, m: State)
    ensures Exec([LoadWord(rd, x)], m) == Some(Put(m, rd, Var(m, x)))
  {
    ExecOne(LoadWord(rd, x), m);
  }

  lemma ExecLoadStack(rd: Reg, m: State)
    ensures Exec([LoadStack(rd)], m) == Some(Put(m, rd, Mem(m, Get(m, Sp))))
  {
    ExecOne(LoadStack(rd), m);
  }

  lemma ExecStoreStack(rs: Reg, m: State)
    ensures Exec([StoreStack(rs)], m) == Some(m.(mem := m.mem[Get(m, Sp) := Get(m, rs)]))
  {
    ExecOne(StoreStack(rs), m);
  }

  lemma ExecAddi(rd: Reg, rs: Reg, imm: int, m: State)
    ensures Exec([Addi(rd, rs, imm)], m) == Some(Put(m, rd, Get(m, rs) + imm))
  {
    ExecOne(Addi(rd, rs, imm), m);
  }

  lemma ExecMove(rd: Reg, rs: Reg, m: State)
    ensures Exec([Move(rd, rs)], m) == Some(Put(m, rd, Get(m, rs)))
  {
    ExecOne(Move(rd, rs), m);
  }

  lemma ExecAdd(rd: Reg, rs: Reg, rt: Reg, m: State)
    ensures Exec([Add(rd, rs, rt)], m) == Some(Put(m, rd, Get(m, rs) + Get(m, rt)))
  {
    ExecOne(Add(rd, rs, rt), m);
  }

  lemma ExecSub(rd: Reg, rs: Reg, rt: Reg, m: State)
    ensures Exec([Sub(rd, rs, rt)], m) == Some(Put(m, rd, Get(m, rs) - Get(m, rt)))
  {
    ExecOne(Sub(rd, rs, rt), m);
  }

  lemma ExecOr(rd: Reg, rs: Reg, rt: Reg, m: State)
    ensures Exec([Or(rd, rs, rt)], m) == Some(Put(m, rd, BitOr(Get(m, rs), Get(m, rt))))
  {
    ExecOne(Or(rd, rs, rt), m);
  }

  lemma ExecAnd(rd: Reg, rs: Reg, rt: Reg, m: State)
    ensures Exec([And(rd, rs, rt)], m) == Some(Put(m, rd, BitAnd(Get(m, rs), Get(m, rt))))
  {
    ExecOne(And(rd, rs, rt), m);
  }

  lemma ExecXor(rd: Reg, rs: Reg, rt: Reg, m: State)
    ensures Exec([Xor(rd, rs, rt)], m) == Some(Put(m, rd, BitXor(Get(m, rs), Get(m, rt))))
  {
    ExecOne(Xor(rd, rs, rt), m);
  }

  lemma ExecAndi(rd: Reg, rs: Reg, imm: int, m: State)
    ensures Exec([Andi(rd, rs, imm)], m) == Some(Put(m, rd, BitAnd(Get(m, rs), imm)))
  {
    ExecOne(Andi(rd, rs, imm), m);
  }

  lemma ExecSet(op: RelOp, rd: Reg, rs: Reg, rt: Reg, m: State)
    ensures Exec([Set(op, rd, rs, rt)], m) == Some(Put(m, rd, if Holds(op, Get(m, rs), Get(m, rt)) then 1 else 0))
  {
    ExecOne(Set(op, rd, rs, rt), m);
  }

  lemma ExecMult(rs: Reg, rt: Reg, m: State)
    ensures Exec([Mult(rs, rt)], m) == Some(m.(lo := Times(Get(m, rs), Get(m, rt))))
  {
    ExecOne(Mult(rs, rt), m);
  }

  lemma ExecDiv(rs: Reg, rt: Reg, m: State)
    ensures Exec([Div(rs, rt)], m) == Divide(m, Get(m, rs), Get(m, rt))
  {
    ExecOne(Div(rs, rt), m);
  }

  lemma ExecMflo(rd: Reg, m: State)
    ensures Exec([Mflo(rd)], m) == Some(Put(m, rd, m.lo))
  {
    ExecOne(Mflo(rd), m);
  }

  lemma ExecMfhi(rd: Reg, m: State)
    ensures Exec([Mfhi(rd)], m) == Some(Put(m, rd, m.hi))
  {
    ExecOne(Mfhi(rd), m);
  }

  // ---------------------------------------------------------------- framing

  /** `$sp`, the stack at and above it, and the variables are as they were. */
  ghost predicate Framed(m: State, m': State) {
    && Get(m', Sp) == Get(m, Sp)
    && m'.vars == m.vars
    && forall a :: a >= Get(m, Sp) ==> Mem(m', a) == Mem(m, a)
  }

  /** Every register outside `clobbered` is as it was. */
  ghost predicate Keeps(m: State, m': State, clobbered: set<Reg>) {
    forall r :: r !in clobbered ==> Get(m', r) == Get(m, r)
  }

  /** `code` takes `m` to `m'`, framed, writing no register outside `clobbered`. */
  ghost predicate Runs(code: seq<Instr>, m: State, m': State, clobbered: set<Reg>) {
    Exec(code, m) == Some(m') && Framed(m, m') && Keeps(m, m', clobbered)
  }

  lemma RunsNil(m: State)
    ensures Runs([], m, m, {})
  {
  }

  /** An instruction that writes one register other than `$sp`. */
  lemma PutRuns(i: Instr, m: State, r: Reg, v: int)
    requires r != Sp && Exec([i], m) == Some(Put(m, r, v))
    ensures Runs([i], m, Put(m, r, v), {r})
  {
  }

  /** Framed runs compose, and so do the registers they write. */
  lemma RunsThen(a: seq<Instr>, b: seq<Instr>, m: State, m1: State, m2: State, ca: set<Reg>, cb: set<Reg>)
    requires Runs(a, m, m1, ca) && Runs(b, m1, m2, cb)
    ensures Runs(a + b, m, m2, ca + cb)
  {
    ExecAppend(a, b, m);
  }

  lemma RunsWeaken(code: seq<Instr>, m: State, m': State, c: set<Reg>, c': set<Reg>)
    requires Runs(code, m, m', c) && c <= c'
    ensures Runs(code, m, m', c')
  {
  }
}

/**
 * `generate_text`: the `.text` pass, run on every node of the tree in
 * traversal order after the `.data` pass. A STATEMENT whose first child is
 * an ASSIGNMENT, READ, WRITE, IF or WHILE writes its code; IF and WHILE open
 * a construct on the label counter and an END closes the innermost one
 * (writing its `out` label), or closes the output file when only the file
 * tag is left. Writing to the closed file raises ValueError.
 */
module TextPass {
  import opened Wrappers
  import opened Syntax
  import opened Typing
  import opened Mips
  import opened Lowering
  import opened Control
  import opened DataPass

  /** The symbol table, the literal labels, the label counter, the code written and whether the file is closed. */
  datatype TextState = TextState(syms: SymTab, lits: LitDict, gen: GenState, out: seq<Instr>, closed: bool)

  const UseTail := " without declaration."
  const IfCondMsg := "Semantic Error: Non-bool expression for if condition."
  const WhileCondMsg := "Semantic Error: Non-bool expression for while loop condition."

  /** The prompt string the `.data` section starts with. */
  const Prompt := "prompt_int"

  /** `addi $a0, $zero, 0xA; addi $v0, $zero, 0xB; syscall`: print a line feed. */
  const PrintLineFeed: seq<Instr> := [Addi(A0, Zero, 10), Addi(V0, Zero, 11), Syscall]

  /** A write to the output file: ValueError once it is closed. */
  function Writable(st: TextState): (r: Result<(), GenError>)
    ensures r.Ok? <==> !st.closed
    ensures r.Err? ==> r.error == Crash(ValueError)
  {
    if st.closed then Err(Crash(ValueError)) else Ok(())
  }

  function Emit(st: TextState, code: seq<Instr>): TextState {
    st.(out := st.out + code)
  }

  // ---------------------------------------------------------------- one node

  function TextStep(n: Node, st: TextState): (r: Result<TextState, GenError>)
    ensures n.tag !in {"END", "STATEMENT"} ==> r == Ok(st)
    ensures n.tag == "END" ==> r == EndStep(st)
    ensures n.tag == "STATEMENT" && |n.children| == 0 ==> r == Err(Crash(IndexError))
  {
    if n.tag == "END" then EndStep(st)
    else if n.tag == "STATEMENT" then
      var first :- Child(n, 0);
      if first.tag == "ASSIGNMENT" then Assign(first, st)
      else if first.tag == "READ" then
        var ids :- Child(n, 1);
        ReadIds(ids, st)
      else if first.tag == "WRITE" then
        var exprs :- Child(n, 1);
        WriteIds(exprs, st)
      else if first.tag == "IF" then IfStep(n, st)
      else if first.tag == "WHILE" then WhileStep(n, st)
      else Ok(st)
    else Ok(st)
  }

  /**
   * END: on the file tag close the file; on a WHILE tag jump back to the
   * loop's label and write its `out` label; on an IF tag write the `out`
   * label. Each `finish_*` pops the tag and closes the construct.
   */
  function EndStep(st: TextState): (r: Result<TextState, GenError>)
    ensures |st.gen.stack| == 0 ==> r == Err(Crash(IndexError))
    ensures |st.gen.stack| > 0 && st.gen.stack[|st.gen.stack| - 1] == FileTag ==> r == Ok(st.(closed := true))
    ensures |st.gen.stack| > 0 && st.gen.stack[|st.gen.stack| - 1] in {WhileTag, IfTag, IfElseTag} ==>
      (r.Ok? <==> !st.closed) && (r.Ok? ==> r.value.gen == Close(st.gen) && r.value.syms == st.syms)
    ensures r.Ok? && |st.gen.stack| > 0 && st.gen.stack[|st.gen.stack| - 1] == WhileTag ==>
      r.value.out == st.out + [Newline, JumpLoop(st.gen.count), OutLabel(st.gen.count)]
    ensures r.Ok? && |st.gen.stack| > 0 && st.gen.stack[|st.gen.stack| - 1] in {IfTag, IfElseTag} ==>
      r.value.out == st.out + [Newline, OutLabel(st.gen.count)]
    ensures |st.gen.stack| > 0 && st.gen.stack[|st.gen.stack| - 1] !in {FileTag, WhileTag, IfTag, IfElseTag} ==> r == Ok(st)
  {
    if |st.gen.stack| == 0 then Err(Crash(IndexError))
    else
      var top := st.gen.stack[|st.gen.stack| - 1];
      if top == FileTag then Ok(st.(closed := true))
      else if top in {WhileTag, IfTag, IfElseTag} then
        var _ :- Writable(st);
        var k := st.gen.count;
        var code := if top == WhileTag then [Newline, JumpLoop(k), OutLabel(k)] else [Newline, OutLabel(k)];
        Ok(Emit(st, code).(gen := Close(st.gen)))
      else Ok(st)
  }

  /**
   * `assign`: the target must be declared; a non-STRING target gets its
   * expression's code and a store of `$t0` (INT) or `$t6` (otherwise).
   */
  function Assign(a: Node, st: TextState): (r: Result<TextState, GenError>)
    ensures r.Ok? ==> |a.children| >= 1 && a.children[0].val.Some? && a.children[0].val.value in st.syms
    ensures r.Ok? ==> var v := st.syms[a.children[0].val.value]; v.Entry? && v.declared != 0
    ensures (|a.children| >= 1 && (a.children[0].val.None? || a.children[0].val.value !in st.syms)) ==> r == Err(Crash(KeyError))
    ensures (|a.children| >= 1 && a.children[0].val.Some? && a.children[0].val.value in st.syms
             && st.syms[a.children[0].val.value] == Clobbered) ==> r == Err(Crash(TypeError))
    ensures (|a.children| >= 1 && a.children[0].val.Some? && a.children[0].val.value in st.syms
             && st.syms[a.children[0].val.value].Entry? && st.syms[a.children[0].val.value].declared == 0) ==>
      r == Err(Semantic("Semantic Error: Use of variable " + a.children[0].val.value + UseTail))
    ensures r.Ok? ==> r.value.syms == st.syms && r.value.gen == st.gen && r.value.closed == st.closed
    ensures r.Ok? && st.syms[a.children[0].val.value].vtype == STRING ==> r.value == st
  {
    var id :- Child(a, 0);
    var entry :- Lookup(st.syms, id.val);
    if entry.Clobbered? then Err(Crash(TypeError))
    else if entry.declared == 0 then Err(Semantic("Semantic Error: Use of variable " + id.val.value + UseTail))
    else if entry.vtype == STRING then Ok(st)
    else
      var x := id.val.value;
      var _ :- Writable(st);
      var e :- Child(a, 1);
      var code :- SolveExpression(e, st.syms);
      Ok(Emit(st, [Comment("assign value to " + x + ".")] + code + [StoreWord(if entry.vtype == INT then T0 else T6, x)]))
  }

  /**
   * An assignment to a declared non-STRING variable appends the
   * expression's code and a store of `$t0` (INT) or `$t6` (BOOL) to it.
   */
  lemma AssignCode(a: Node, st: TextState)
    requires Assign(a, st).Ok?
    ensures |a.children| >= 1 && a.children[0].val.Some? && a.children[0].val.value in st.syms
    ensures st.syms[a.children[0].val.value].Entry? && st.syms[a.children[0].val.value].vtype != STRING ==>
      var x := a.children[0].val.value;
      && |a.children| >= 2 && SolveExpression(a.children[1], st.syms).Ok?
      && Assign(a, st).value.out == st.out + [Comment("assign value to " + x + ".")] + SolveExpression(a.children[1], st.syms).value
                                   + [StoreWord(if st.syms[x].vtype == INT then T0 else T6, x)]
  {
  }

  /** What `read_ids` writes for one variable: prompt, read an int, store it. */
  function ReadCode(x: string): seq<Instr> {
    [Li(V0, 4), La(A0, Prompt), Syscall, Li(V0, 5), Syscall, StoreWord(V0, x)]
  }

  /** `read_ids` over an ID LIST. */
  function ReadIds(ids: Node, st: TextState): (r: Result<TextState, GenError>)
    ensures r.Ok? <==> !st.closed && forall j | 0 <= j < |ids.children| :: ids.children[j].val.Some?
    ensures st.closed ==> r == Err(Crash(ValueError))
    ensures r.Ok? ==> r.value.gen == st.gen && r.value.lits == st.lits
    ensures r.Ok? ==>
      && |r.value.out| == |st.out| + 1 + 6 * |ids.children|
      && r.value.out[..|st.out| + 1] == st.out + [Comment("Reading values for an <id_list>.")]
      && forall j | 0 <= j < |ids.children| ::
           r.value.out[|st.out| + 1 + 6 * j .. |st.out| + 1 + 6 * j + 6] == ReadCode(ids.children[j].val.value)
  {
    var _ :- Writable(st);
    var st1 := Emit(st, [Comment("Reading values for an <id_list>.")]);
    var r := ReadEach(ids.children, st1);
    if r.Ok? then
      ReadEachOut(ids.children, st1);
      assert r.value.out[..|st.out| + 1] == st1.out;
      r
    else r
  }

  /**
   * Each variable read gets the prompt-read-store code, and its table entry
   * is overwritten with the integer 1 (`Clobbered`).
   */
  function ReadEach(ns: seq<Node>, st: TextState): (r: Result<TextState, GenError>)
    decreases |ns|
    ensures r.Ok? <==> forall j | 0 <= j < |ns| :: ns[j].val.Some?
    ensures r.Ok? ==> r.value.gen == st.gen && r.value.lits == st.lits && r.value.closed == st.closed
    ensures r.Ok? ==> forall j | 0 <= j < |ns| :: ns[j].val.value in r.value.syms && r.value.syms[ns[j].val.value] == Clobbered
    ensures r.Ok? ==> st.syms.Keys <= r.value.syms.Keys
    ensures r.Ok? ==> forall x | x in r.value.syms && r.value.syms[x] != Clobbered :: x in st.syms && r.value.syms[x] == st.syms[x]
    ensures r.Ok? ==> forall x | x in st.syms && (forall j | 0 <= j < |ns| :: ns[j].val != Some(x)) :: r.value.syms[x] == st.syms[x]
  {
    if |ns| == 0 then Ok(st)
    else
      var x :- ValueOf(ns[0]);
      var r := ReadEach(ns[1..], Emit(st, ReadCode(x)).(syms := st.syms[x := Clobbered]));
      assert forall j | 1 <= j < |ns| :: ns[j] == ns[1..][j - 1];
      assert r.Ok? ==> x in r.value.syms && r.value.syms[x] == Clobbered;
      r
  }
  /** The code READ writes for a list of identifiers: one block per identifier. */
  function ReadsCode(ns: seq<Node>): (r: seq<Instr>)
    requires forall j | 0 <= j < |ns| :: ns[j].val.Some?
    decreases |ns|
    ensures |r| == 6 * |ns|
    ensures forall j | 0 <= j < |ns| :: r[6 * j .. 6 * j + 6] == ReadCode(ns[j].val.value)
  {
    if |ns| == 0 then []
    else
      var r := ReadCode(ns[0].val.value) + ReadsCode(ns[1..]);
      assert forall j | 1 <= j < |ns| :: r[6 * j .. 6 * j + 6] == ReadsCode(ns[1..])[6 * (j - 1) .. 6 * (j - 1) + 6];
      assert forall j | 1 <= j < |ns| :: ns[j] == ns[1..][j - 1];
      r
  }

  /** What READ writes: after the earlier output, one six-instruction block per
      identifier, in order, each prompting and storing into that identifier. */
  lemma {:induction false} ReadEachOut(ns: seq<Node>, st: TextState)
    requires ReadEach(ns, st).Ok?
    ensures var out := ReadEach(ns, st).value.out;
      && |out| == |st.out| + 6 * |ns| && out[..|st.out|] == st.out
      && forall j | 0 <= j < |ns| :: out[|st.out| + 6 * j .. |st.out| + 6 * j + 6] == ReadCode(ns[j].val.value)
  {
    ReadEachIsReads(ns, st);
    var out := ReadEach(ns, st).value.out;
    assert out[..|st.out|] == st.out;
    forall j | 0 <= j < |ns|
      ensures out[|st.out| + 6 * j .. |st.out| + 6 * j + 6] == ReadCode(ns[j].val.value)
    {
      assert out[|st.out| + 6 * j .. |st.out| + 6 * j + 6] == ReadsCode(ns)[6 * j .. 6 * j + 6];
    }
  }

  lemma {:induction false} ReadEachIsReads(ns: seq<Node>, st: TextState)
    requires ReadEach(ns, st).Ok?
    decreases |ns|
    ensures ReadEach(ns, st).value.out == st.out + ReadsCode(ns)
  {
    if |ns| > 0 {
      var x := ns[0].val.value;
      var st1 := Emit(st, ReadCode(x)).(syms := st.syms[x := Clobbered]);
      ReadEachIsReads(ns[1..], st1);
      assert ReadEach(ns, st) == ReadEach(ns[1..], st1);
    }
  }


  /** `write_ids` over an EXPR LIST: each expression's code, then a line feed. */
  function WriteIds(exprs: Node, st: TextState): (r: Result<TextState, GenError>)
    ensures st.closed ==> r == Err(Crash(ValueError))
    ensures r.Ok? ==> r.value.syms == st.syms && r.value.gen == st.gen && r.value.lits == st.lits
    ensures r.Ok? ==> |r.value.out| > |st.out| && r.value.out[|st.out|] == Comment("Writing values of an <expr_list>.")
    ensures r.Ok? <==> !st.closed && forall j | 0 <= j < |exprs.children| :: WriteBlock(exprs.children[j], st.syms, st.lits).Ok?
    ensures r.Ok? ==>
      && WritesCode(exprs.children, st.syms, st.lits).Ok?
      && r.value.out == st.out + [Comment("Writing values of an <expr_list>.")] + WritesCode(exprs.children, st.syms, st.lits).value
  {
    var _ :- Writable(st);
    var st1 := Emit(st, [Comment("Writing values of an <expr_list>.")]);
    var r := WriteEach(exprs.children, st1);
    WriteEachBlocks(exprs.children, st1);
    if r.Ok? then
      WriteEachExtends(exprs.children, st1);
      assert r.value.out[|st.out|] == r.value.out[..|st1.out|][|st.out|];
      r
    else r
  }

  /** The code WRITE gives one expression: its block, then a line feed. */
  function WriteBlock(e: Node, syms: SymTab, lits: LitDict): Result<seq<Instr>, GenError> {
    var t :- TypeOf(e, syms);
    var block :- WriteOne(e, t, syms, lits);
    Ok(block + PrintLineFeed)
  }

  /** The blocks of a list of expressions, one after the other; the first failing block's error otherwise. */
  function WritesCode(ns: seq<Node>, syms: SymTab, lits: LitDict): Result<seq<Instr>, GenError>
    decreases |ns|
  {
    if |ns| == 0 then Ok([])
    else
      var b :- WriteBlock(ns[0], syms, lits);
      var rest :- WritesCode(ns[1..], syms, lits);
      Ok(b + rest)
  }

  function WriteEach(ns: seq<Node>, st: TextState): (r: Result<TextState, GenError>)
    decreases |ns|
    ensures |ns| == 0 ==> r == Ok(st)
    ensures r.Ok? ==> r.value.syms == st.syms && r.value.gen == st.gen && r.value.lits == st.lits && r.value.closed == st.closed
  {
    if |ns| == 0 then Ok(st)
    else
      var t :- TypeOf(ns[0], st.syms);
      var block :- WriteOne(ns[0], t, st.syms, st.lits);
      WriteEach(ns[1..], Emit(st, block + PrintLineFeed))
  }

  /** The expressions' code is appended to what was written before. */
  lemma {:induction false} WriteEachExtends(ns: seq<Node>, st: TextState)
    requires WriteEach(ns, st).Ok?
    ensures |WriteEach(ns, st).value.out| >= |st.out| && WriteEach(ns, st).value.out[..|st.out|] == st.out
    decreases |ns|
  {
    if |ns| > 0 {
      var t := TypeOf(ns[0], st.syms).value;
      var block := WriteOne(ns[0], t, st.syms, st.lits).value;
      var st1 := Emit(st, block + PrintLineFeed);
      WriteEachExtends(ns[1..], st1);
      var out := WriteEach(ns, st).value.out;
      assert out[..|st.out|] == out[..|st1.out|][..|st.out|];
    } else {
      assert st.out[..|st.out|] == st.out;
    }
  }

  /**
   * A WRITE succeeds exactly when every expression types and has code, and
   * then writes each expression's block followed by a line feed, in order.
   */
  lemma {:induction false} WriteEachBlocks(ns: seq<Node>, st: TextState)
    ensures WriteEach(ns, st).Ok? <==> forall j | 0 <= j < |ns| :: WriteBlock(ns[j], st.syms, st.lits).Ok?
    ensures WriteEach(ns, st).Ok? ==>
      && WritesCode(ns, st.syms, st.lits).Ok?
      && WriteEach(ns, st).value.out == st.out + WritesCode(ns, st.syms, st.lits).value
  {
    WriteEachOk(ns, st);
    if WriteEach(ns, st).Ok? {
      WriteEachOut(ns, st);
    }
  }

  lemma {:induction false} WriteEachOk(ns: seq<Node>, st: TextState)
    decreases |ns|
    ensures WriteEach(ns, st).Ok? <==> forall j | 0 <= j < |ns| :: WriteBlock(ns[j], st.syms, st.lits).Ok?
  {
    if |ns| > 0 {
      WriteEachCons(ns, st);
      if WriteBlock(ns[0], st.syms, st.lits).Ok? {
        WriteEachOk(ns[1..], Emit(st, WriteBlock(ns[0], st.syms, st.lits).value));
        assert forall j | 1 <= j < |ns| :: ns[j] == ns[1..][j - 1];
      }
    }
  }

  lemma {:induction false} WriteEachOut(ns: seq<Node>, st: TextState)
    requires WriteEach(ns, st).Ok?
    decreases |ns|
    ensures WritesCode(ns, st.syms, st.lits).Ok? && WriteEach(ns, st).value.out == st.out + WritesCode(ns, st.syms, st.lits).value
  {
    if |ns| > 0 {
      WriteEachCons(ns, st);
      var b := WriteBlock(ns[0], st.syms, st.lits).value;
      var st1 := Emit(st, b);
      WriteEachOut(ns[1..], st1);
      var rest := WritesCode(ns[1..], st.syms, st.lits).value;
      WritesCodeCons(ns, st.syms, st.lits);
      calc {
        WriteEach(ns, st).value.out;
        WriteEach(ns[1..], st1).value.out;
        st1.out + rest;
        st.out + (b + rest);
        st.out + WritesCode(ns, st.syms, st.lits).value;
      }
    } else {
      assert WritesCode(ns, st.syms, st.lits) == Ok([]);
    }
  }

  lemma WritesCodeCons(ns: seq<Node>, syms: SymTab, lits: LitDict)
    requires |ns| > 0 && WriteBlock(ns[0], syms, lits).Ok? && WritesCode(ns[1..], syms, lits).Ok?
    ensures WritesCode(ns, syms, lits) == Ok(WriteBlock(ns[0], syms, lits).value + WritesCode(ns[1..], syms, lits).value)
  {
  }

  lemma WriteEachCons(ns: seq<Node>, st: TextState)
    requires |ns| > 0
    ensures WriteBlock(ns[0], st.syms, st.lits).Ok? ==>
      WriteEach(ns, st) == WriteEach(ns[1..], Emit(st, WriteBlock(ns[0], st.syms, st.lits).value))
    ensures !WriteBlock(ns[0], st.syms, st.lits).Ok? ==> WriteEach(ns, st).Err?
  {
  }

  /**
   * One expression of a WRITE: an INT or BOOL is evaluated and printed with
   * syscall 1 from `$t0` or `$t6`; anything else is printed as a string with
   * syscall 4, from the variable it names or the label its literal was given.
   */
  function WriteOne(e: Node, t: Option<VarType>, syms: SymTab, lits: LitDict): (r: Result<seq<Instr>, GenError>)
    ensures t == Some(INT) ==>
      (r.Ok? <==> SolveExpression(e, syms).Ok?)
      && (r.Ok? ==> r.value == [Comment("Writing an integer expression"), Li(V0, 1)] + SolveExpression(e, syms).value + [Move(A0, T0), Syscall])
    ensures t == Some(BOOL) ==>
      (r.Ok? <==> SolveExpression(e, syms).Ok?)
      && (r.Ok? ==> r.value == [Comment("Writing a bool expression"), Li(V0, 1)] + SolveExpression(e, syms).value + [Move(A0, T6), Syscall])
    ensures t !in {Some(INT), Some(BOOL)} && r.Ok? ==>
      && At(e, LitPath).Ok? && At(e, LitPath).value.val.Some?
      && var sn := At(e, LitPath).value;
         && (sn.tag != "IDENT" ==> sn.val.value in lits)
         && r.value == [Comment("Writing a string expression"), Li(V0, 4),
                     La(A0, if sn.tag == "IDENT" then sn.val.value else LitLabel(lits[sn.val.value])), Syscall]
    ensures (t !in {Some(INT), Some(BOOL)} && At(e, LitPath).Ok? && At(e, LitPath).value.tag != "IDENT") ==>
      (r.Ok? <==> At(e, LitPath).value.val.Some? && At(e, LitPath).value.val.value in lits)
  {
    if t == Some(INT) || t == Some(BOOL) then
      var code :- SolveExpression(e, syms);
      Ok([Comment(if t == Some(INT) then "Writing an integer expression" else "Writing a bool expression"), Li(V0, 1)]
         + code + [Move(A0, if t == Some(INT) then T0 else T6), Syscall])
    else
      var sn :- At(e, LitPath);
      var name :- if sn.tag == "IDENT" then ValueOf(sn) else LitLookup(lits, sn.val);
      Ok([Comment("Writing a string expression"), Li(V0, 4), La(A0, name), Syscall])
  }

  /** `stringLitDict[val]`: the label a literal was given, KeyError if it was given none. */
  function LitLookup(lits: LitDict, v: Option<string>): (r: Result<string, GenError>)
    ensures r.Ok? <==> v.Some? && v.value in lits
    ensures r.Ok? ==> r.value == LitLabel(lits[v.value])
    ensures r.Err? ==> r.error == Crash(KeyError)
  {
    if v.Some? && v.value in lits then Ok(LitLabel(lits[v.value])) else Err(Crash(KeyError))
  }

  /**
   * An IF statement: its condition must type as BOOL; an IF with more than
   * four children is an if-else. Opening the construct bumps the counter;
   * the code branches to `out<k>` when the condition is false, and an
   * if-else then jumps to `out<k>` as well.
   */
  function IfStep(n: Node, st: TextState): (r: Result<TextState, GenError>)
    ensures (|n.children| >= 2 && TypeOf(n.children[1], st.syms).Ok? && TypeOf(n.children[1], st.syms).value != Some(BOOL)) ==>
      r == Err(Semantic(IfCondMsg))
    ensures r.Ok? ==>
      var tag := if |n.children| > 4 then IfElseTag else IfTag;
      var k := OpenLabel(st.gen, tag);
      && |n.children| >= 2 && TypeOf(n.children[1], st.syms) == Ok(Some(BOOL)) && !st.closed
      && SolveBool(n.children[1]).Ok?
      && r.value.gen == Open(st.gen, tag) && r.value.syms == st.syms && r.value.lits == st.lits
      && r.value.out == st.out + [Comment(if tag == IfElseTag then "starting if else statement" else "starting if statement")]
                        + SolveBool(n.children[1]).value + [Li(T0, 1), BranchNe(T0, T6, k)]
                        + (if tag == IfElseTag then [JumpOut(k)] else [])
  {
    var c :- Child(n, 1);
    var t :- TypeOf(c, st.syms);
    if t != Some(BOOL) then Err(Semantic(IfCondMsg))
    else
      var tag := if |n.children| > 4 then IfElseTag else IfTag;
      var gen := Open(st.gen, tag);
      var _ :- Writable(st);
      var code :- SolveBool(c);
      var k := gen.count;
      Ok(TextState(st.syms, st.lits, gen,
                   st.out + [Comment(if tag == IfElseTag then "starting if else statement" else "starting if statement")]
                   + code + [Li(T0, 1), BranchNe(T0, T6, k)] + (if tag == IfElseTag then [JumpOut(k)] else []),
                   st.closed))
  }

  /**
   * A WHILE statement: its condition must type as BOOL. It writes the loop
   * label, the condition, and a branch to `out<k>` when it is false.
   */
  function WhileStep(n: Node, st: TextState): (r: Result<TextState, GenError>)
    ensures (|n.children| >= 2 && TypeOf(n.children[1], st.syms).Ok? && TypeOf(n.children[1], st.syms).value != Some(BOOL)) ==>
      r == Err(Semantic(WhileCondMsg))
    ensures r.Ok? ==>
      var k := OpenLabel(st.gen, WhileTag);
      && |n.children| >= 2 && TypeOf(n.children[1], st.syms) == Ok(Some(BOOL)) && !st.closed
      && SolveBool(n.children[1]).Ok?
      && r.value.gen == Open(st.gen, WhileTag) && r.value.syms == st.syms && r.value.lits == st.lits
      && r.value.out == st.out + [Comment("Starting while loop"), LoopLabel(k)]
                        + SolveBool(n.children[1]).value + [Li(T0, 1), BranchNe(T0, T6, k)]
  {
    var c :- Child(n, 1);
    var t :- TypeOf(c, st.syms);
    if t != Some(BOOL) then Err(Semantic(WhileCondMsg))
    else
      var _ :- Writable(st);
      var gen := Open(st.gen, WhileTag);
      var code :- SolveBool(c);
      var k := gen.count;
      Ok(TextState(st.syms, st.lits, gen,
                   st.out + [Comment("Starting while loop"), LoopLabel(k)] + code + [Li(T0, 1), BranchNe(T0, T6, k)],
                   st.closed))
  }

  // ---------------------------------------------------------------- the whole pass

  /** `generate_text` on each node in turn, stopping at the first error. */
  function TextRun(ns: seq<Node>, st: TextState): (r: Result<TextState, GenError>)
    decreases |ns|
    ensures |ns| == 0 ==> r == Ok(st)
  {
    if |ns| == 0 then Ok(st)
    else
      var st1 :- TextStep(ns[0], st);
      TextRun(ns[1..], st1)
  }

  // ---------------------------------------------------------------- what the pass keeps

  /** Each node keeps the label counter's invariant. */
  lemma TextStepKeepsInv(n: Node, st: TextState)
    requires Inv(st.gen) && TextStep(n, st).Ok?
    ensures Inv(TextStep(n, st).value.gen)
  {
    if n.tag == "END" {
      EndKeepsInv(st);
    } else if n.tag == "STATEMENT" {
      StatementKeepsInv(n, st);
    }
  }

  lemma EndKeepsInv(st: TextState)
    requires Inv(st.gen) && EndStep(st).Ok?
    ensures Inv(EndStep(st).value.gen)
  {
    var top := st.gen.stack[|st.gen.stack| - 1];
    if top in {WhileTag, IfTag, IfElseTag} {
      assert |st.gen.stack| >= 2;
      CloseInv(st.gen);
    }
  }

  lemma StatementKeepsInv(n: Node, st: TextState)
    requires Inv(st.gen) && n.tag == "STATEMENT" && TextStep(n, st).Ok?
    ensures Inv(TextStep(n, st).value.gen)
  {
    var first := n.children[0];
    if first.tag == "IF" {
      OpenInv(st.gen, if |n.children| > 4 then IfElseTag else IfTag);
    } else if first.tag == "WHILE" {
      OpenInv(st.gen, WhileTag);
    }
  }

  /** The whole pass keeps the label counter's invariant. */
  lemma {:induction false} TextRunKeepsInv(ns: seq<Node>, st: TextState)
    requires Inv(st.gen) && TextRun(ns, st).Ok?
    ensures Inv(TextRun(ns, st).value.gen)
    decreases |ns|
  {
    if |ns| > 0 {
      TextStepKeepsInv(ns[0], st);
      TextRunKeepsInv(ns[1..], TextStep(ns[0], st).value);
    }
  }

  /** Once the file is closed a node writes nothing, and the file stays closed. */
  lemma ClosedStepWritesNothing(n: Node, st: TextState)
    requires st.closed && TextStep(n, st).Ok?
    ensures TextStep(n, st).value.out == st.out && TextStep(n, st).value.closed
  {
  }

  /** After the file is closed the rest of the pass writes nothing. */
  lemma {:induction false} ClosedRunWritesNothing(ns: seq<Node>, st: TextState)
    requires st.closed && TextRun(ns, st).Ok?
    ensures TextRun(ns, st).value.out == st.out && TextRun(ns, st).value.closed
    decreases |ns|
  {
    if |ns| > 0 {
      ClosedStepWritesNothing(ns[0], st);
      ClosedRunWritesNothing(ns[1..], TextStep(ns[0], st).value);
    }
  }

  /**
   * The first END after an IF, WHILE or if-else opener writes the label the
   * opener branched to, when the statements in between open and close only
   * IF and WHILE constructs: `out<k>` (and a WHILE's `j label<k>`) with `k`
   * the number the opener wrote. For an if-else this is the then-branch's
   * END. The counter is left as `RunOne` says.
   */
  lemma EndMatchesOpen(st: TextState, body: TextState, tag: int, cs: seq<Construct>)
    requires Inv(st.gen) && Closable(Construct(tag, cs)) && !body.closed
    requires body.gen == RunAll(Open(st.gen, tag), cs)
    ensures EndStep(body).Ok? && EndStep(body).value.gen == RunOne(st.gen, Construct(tag, cs))
    ensures var k := OpenLabel(st.gen, tag);
      EndStep(body).value.out == body.out + (if tag == WhileTag then [Newline, JumpLoop(k), OutLabel(k)] else [Newline, OutLabel(k)])
  {
    MatchingLabels(st.gen, Construct(tag, cs));
    assert body.gen.stack == st.gen.stack + [tag];
  }

  /** A run whose first node succeeds continues from that node's state. */
  lemma TextRunCons(n: Node, rest: seq<Node>, st: TextState)
    requires TextStep(n, st).Ok?
    ensures TextRun([n] + rest, st) == TextRun(rest, TextStep(n, st).value)
  {
    assert ([n] + rest)[1..] == rest;
  }

  /**
   * Inside a WHILE, the two ENDs that follow an if-else's opener (`s1` is the
   * state `IfStep` leaves): the then-branch's END writes the if-else's
   * `out<k>`, and the else-branch's END closes the loop, writing its
   * `j label<c>` and `out<c>` in the middle of the loop's body.
   */
  lemma IfElseEndsLoop(st: TextState, s1: TextState)
    requires Inv(st.gen) && |st.gen.stack| >= 2 && st.gen.stack[|st.gen.stack| - 1] == WhileTag
    requires s1.gen == Open(st.gen, IfElseTag) && !s1.closed
    ensures var end := Node("END", None, []);
      var r := TextRun([end, end], s1);
      var k := OpenLabel(st.gen, IfElseTag);
      && r.Ok?
      && r.value.out == s1.out + [Newline, OutLabel(k)] + [Newline, JumpLoop(st.gen.count), OutLabel(st.gen.count)]
      && r.value.gen.stack == st.gen.stack[..|st.gen.stack| - 1]
  {
    var end := Node("END", None, []);
    assert s1.gen.stack[|s1.gen.stack| - 1] == IfElseTag;
    var s2 := EndStep(s1).value;
    assert s2.gen.count == st.gen.count && s2.gen.stack == st.gen.stack;
    TextRunCons(end, [end], s1);
    TextRunCons(end, [], s2);
    assert [end] + [end] == [end, end] && [end] + [] == [end];
  }

  /**
   * At the top level, the else-branch's END of an if-else meets the file tag
   * and closes the output file, so a WRITE after the if-else raises
   * ValueError.
   */
  lemma IfElseEndsFile(st: TextState, s1: TextState, w: Node)
    requires Inv(st.gen) && |st.gen.stack| == 1
    requires s1.gen == Open(st.gen, IfElseTag) && !s1.closed
    requires w.tag == "STATEMENT" && |w.children| >= 2 && w.children[0].tag == "WRITE"
    ensures var end := Node("END", None, []);
      && TextRun([end, end], s1).Ok? && TextRun([end, end], s1).value.closed
      && TextRun([end, end, w], s1) == Err(Crash(ValueError))
  {
    var end := Node("END", None, []);
    assert s1.gen.stack[|s1.gen.stack| - 1] == IfElseTag;
    var s2 := EndStep(s1).value;
    assert s2.gen.stack == [FileTag];
    var s3 := s2.(closed := true);
    assert EndStep(s2) == Ok(s3);
    assert TextStep(w, s3) == Err(Crash(ValueError));
    TextRunCons(end, [end], s1);
    TextRunCons(end, [], s2);
    TextRunCons(end, [end, w], s1);
    TextRunCons(end, [w], s2);
    assert [end] + [end] == [end, end] && [end] + [] == [end];
    assert [end] + [end, w] == [end, end, w] && [end] + [w] == [end, w];
  }

  /**
   * `read_ids` overwrites a variable's table entry with the integer 1, so a
   * later assignment to it fails with a TypeError when `assign` indexes it.
   */
  lemma ReadThenAssignCrashes(x: string, st: TextState, a: Node)
    requires !st.closed && |a.children| >= 1 && a.children[0].val == Some(x)
    ensures ReadIds(Node("ID LIST", None, [Node("ID", Some(x), [])]), st).Ok?
    ensures Assign(a, ReadIds(Node("ID LIST", None, [Node("ID", Some(x), [])]), st).value) == Err(Crash(TypeError))
  {
    var ids := Node("ID LIST", None, [Node("ID", Some(x), [])]);
    assert ids.children[0].val.Some?;
  }

  /**
   * An if-else's code leaves its condition by `bne ..., out<k>` when false
   * and by `j out<k>` when true: both exits reach the same label, past the
   * then-part.
   */
  lemma IfElseBothExitsMeet(n: Node, st: TextState)
    requires |n.children| > 4 && IfStep(n, st).Ok?
    ensures var out := IfStep(n, st).value.out;
      var k := OpenLabel(st.gen, IfElseTag);
      && |out| >= |st.out| + 2
      && out[|out| - 2] == BranchNe(T0, T6, k) && out[|out| - 1] == JumpOut(k)
  {
  }
}

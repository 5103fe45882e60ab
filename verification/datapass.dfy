/**
 * `generate_data`: the `.data` pass, run on every node of the tree in
 * traversal order. A DECLARATION marks its variable declared (a second
 * declaration is an error) and gives an INT or BOOL variable a `.word`; each
 * STRING-typed argument of a WRITE gets an `.asciiz` line labelled
 * `string<k>`, `k` being the number of literals recorded so far; an
 * ASSIGNMENT must name a declared variable, and one to a STRING variable
 * gives that variable an `.asciiz` line holding the literal.
 */
module DataPass {
  import opened Wrappers
  import opened Syntax
  import opened Typing

  /** A line of the `.data` section. */
  datatype DataLine =
    | Word(name: string)                  // <name>:  .word  0
    | Asciiz(name: string, text: string)  // <name>:  .asciiz  <text>

  /** `stringLitDict`: a literal's text to the number in the label it was last given. */
  type LitDict = map<string, nat>

  /** The symbol table, the literal labels and the `.data` lines written so far. */
  datatype DataState = DataState(syms: SymTab, lits: LitDict, out: seq<DataLine>)

  const DeclaredTwiceTail := " was declared twice."
  const UndeclaredMsg := "Semantic Error: Variable used before declaration."
  const ExpectedStringMsg := "Semantic Error: Expected String, received "

  /** Where `check_for_stringlits` and `write_ids` find the literal under an EXPRESSION. */
  const LitPath: seq<nat> := [0, 0, 0, 0, 1, 0]

  /** `str(k)` for a label number. */
  function Decimal(k: nat): (r: string)
    ensures |r| >= 1 && forall j | 0 <= j < |r| :: '0' <= r[j] <= '9'
  {
    var d := ['0', '1', '2', '3', '4', '5', '6', '7', '8', '9'][k % 10];
    if k < 10 then [d] else Decimal(k / 10) + [d]
  }

  /** The label `"string" + str(k)`. */
  function LitLabel(k: nat): string {
    "string" + Decimal(k)
  }

  /** The type names `get_expression_type` and the symbol table use. */
  function TypeName(t: VarType): string {
    match t
    case INT => "INT"
    case BOOL => "BOOL"
    case STRING => "STRING"
    case VOID => "VOID"
  }

  /** `str(val)`: Python renders `None` as the text "None". */
  function PyStr(v: Option<string>): string {
    if v.Some? then v.value else "None"
  }

  // ---------------------------------------------------------------- one node

  function DataStep(n: Node, st: DataState): (r: Result<DataState, GenError>)
    ensures n.tag !in {"DECLARATION", "STATEMENT", "ASSIGNMENT"} ==> r == Ok(st)
    ensures n.tag == "DECLARATION" ==> r == Declare(n, st)
    ensures n.tag == "ASSIGNMENT" ==> r == AssignData(n, st)
    ensures n.tag == "STATEMENT" && |n.children| >= 2 && n.children[0].tag == "WRITE" ==>
      r == StringLits(n.children[1].children, st)
    ensures n.tag == "STATEMENT" && |n.children| >= 1 && n.children[0].tag != "WRITE" ==> r == Ok(st)
  {
    if n.tag == "DECLARATION" then Declare(n, st)
    else if n.tag == "STATEMENT" then
      var first :- Child(n, 0);
      if first.tag == "WRITE" then
        var el :- Child(n, 1);
        StringLits(el.children, st)
      else Ok(st)
    else if n.tag == "ASSIGNMENT" then AssignData(n, st)
    else Ok(st)
  }

  /** The variable a DECLARATION names: the value of its IDENT's ID leaf. */
  function DeclName(n: Node): Option<string> {
    if At(n, [1, 0]).Ok? then At(n, [1, 0]).value.val else None
  }

  /**
   * A DECLARATION: `s[ident][1]` must be 0, becomes 1, and an INT or BOOL
   * variable gets `<ident>: .word 0`.
   */
  function Declare(n: Node, st: DataState): (r: Result<DataState, GenError>)
    ensures r.Ok? <==>
      && DeclName(n).Some? && DeclName(n).value in st.syms
      && st.syms[DeclName(n).value].Entry? && st.syms[DeclName(n).value].declared == 0
      && At(n, [0, 0]).Ok?
    ensures (DeclName(n).Some? && DeclName(n).value in st.syms
             && st.syms[DeclName(n).value].Entry? && st.syms[DeclName(n).value].declared != 0) ==>
      r == Err(Semantic("Semantic Error: " + DeclName(n).value + DeclaredTwiceTail))
    ensures r.Ok? ==>
      var x := DeclName(n).value;
      && r.value.syms == st.syms[x := st.syms[x].(declared := 1)]
      && r.value.lits == st.lits
      && r.value.out == st.out + (if At(n, [0, 0]).value.tag in {"INT", "BOOL"} then [Word(x)] else [])
  {
    var leaf :- At(n, [1, 0]);
    var entry :- Lookup(st.syms, leaf.val);
    if entry.Clobbered? then Err(Crash(TypeError))
    else if entry.declared != 0 then Err(Semantic("Semantic Error: " + leaf.val.value + DeclaredTwiceTail))
    else
      var x := leaf.val.value;
      var syms := st.syms[x := entry.(declared := 1)];
      var ty :- At(n, [0, 0]);
      if ty.tag == "INT" || ty.tag == "BOOL" then Ok(DataState(syms, st.lits, st.out + [Word(x)]))
      else Ok(st.(syms := syms))
  }

  /** `check_for_stringlits` over the expressions of a WRITE's EXPR LIST. */
  function StringLits(ns: seq<Node>, st: DataState): (r: Result<DataState, GenError>)
    decreases |ns|
    ensures |ns| == 0 ==> r == Ok(st)
    ensures r.Ok? ==> r.value.syms == st.syms
  {
    if |ns| == 0 then Ok(st)
    else
      var t :- TypeOf(ns[0], st.syms);
      var st1 :- if t == Some(STRING) then StringLit(ns[0], st) else Ok(st);
      StringLits(ns[1..], st1)
  }

  /** One STRING argument: its literal gets the label `string<k>`, `k` the dictionary's size. */
  function StringLit(e: Node, st: DataState): (r: Result<DataState, GenError>)
    ensures r.Ok? <==> At(e, LitPath).Ok? && At(e, LitPath).value.val.Some?
    ensures r.Ok? ==> r.value == AddLit(st, At(e, LitPath).value.val.value)
  {
    var lit :- At(e, LitPath);
    var text :- ValueOf(lit);
    Ok(AddLit(st, text))
  }

  /** Write `string<k>: .asciiz <text>` and record `text -> k`, `k` the dictionary's size before. */
  function AddLit(st: DataState, text: string): (r: DataState)
    ensures r.syms == st.syms && text in r.lits && r.lits[text] == |st.lits|
    ensures r.out == st.out + [Asciiz(LitLabel(|st.lits|), text)]
    ensures forall t | t in st.lits && t != text :: t in r.lits && r.lits[t] == st.lits[t]
    ensures |r.lits| == if text in st.lits then |st.lits| else |st.lits| + 1
  {
    DataState(st.syms, st.lits[text := |st.lits|], st.out + [Asciiz(LitLabel(|st.lits|), text)])
  }

  /** `s[ident][0]` inside the `try`: any failure there is "used before declaration". */
  function DeclaredType(s: SymTab, name: Option<string>): (r: Result<VarType, GenError>)
    ensures r.Ok? <==> name.Some? && name.value in s && s[name.value].Entry?
    ensures r.Ok? ==> r.value == s[name.value].vtype
    ensures r.Err? ==> r.error == Semantic(UndeclaredMsg)
  {
    if name.Some? && name.value in s && s[name.value].Entry? then Ok(s[name.value].vtype)
    else Err(Semantic(UndeclaredMsg))
  }

  /** An ASSIGNMENT: its target must be in the table; a STRING target gets its literal. */
  function AssignData(n: Node, st: DataState): (r: Result<DataState, GenError>)
    ensures At(n, [0, 0]).Ok? && DeclaredType(st.syms, At(n, [0, 0]).value.val).Err? ==>
      r == Err(Semantic(UndeclaredMsg))
    ensures (At(n, [0, 0]).Ok? && DeclaredType(st.syms, At(n, [0, 0]).value.val).Ok?
             && DeclaredType(st.syms, At(n, [0, 0]).value.val).value != STRING) ==> r == Ok(st)
    ensures r.Ok? ==> r.value.syms == st.syms && r.value.lits == st.lits
    ensures r.Ok? ==> r.value.out == st.out || (|r.value.out| == |st.out| + 1 && r.value.out[..|st.out|] == st.out && r.value.out[|st.out|].Asciiz?)
  {
    var leaf :- At(n, [0, 0]);
    var vt :- DeclaredType(st.syms, leaf.val);
    if vt == STRING then AllocateStringIdent(n, st) else Ok(st)
  }

  /**
   * `allocate_string_ident`: the right-hand side must type as STRING (else a
   * semantic error naming the type it has), and an IDENT target gets
   * `<name>: .asciiz <literal>`.
   */
  function AllocateStringIdent(n: Node, st: DataState): (r: Result<DataState, GenError>)
    ensures (|n.children| >= 2 && TypeOf(n.children[1], st.syms).Ok?
             && TypeOf(n.children[1], st.syms).value.Some?
             && TypeOf(n.children[1], st.syms).value != Some(STRING)) ==>
      r == Err(Semantic(ExpectedStringMsg + TypeName(TypeOf(n.children[1], st.syms).value.value)))
    ensures r.Ok? ==> |n.children| >= 2 && TypeOf(n.children[1], st.syms) == Ok(Some(STRING))
    ensures r.Ok? && n.children[0].tag == "IDENT" ==>
      && At(n, [1, 0, 0, 0, 0, 1, 0]).Ok? && At(n, [1, 0, 0, 0, 0, 1, 0]).value.val.Some?
      && r.value == st.(out := st.out + [Asciiz(PyStr(n.children[0].val), At(n, [1, 0, 0, 0, 0, 1, 0]).value.val.value)])
    ensures r.Ok? && n.children[0].tag != "IDENT" ==> r.value == st
  {
    var e :- Child(n, 1);
    var t :- TypeOf(e, st.syms);
    if t != Some(STRING) then
      if t.None? then Err(Crash(TypeError)) else Err(Semantic(ExpectedStringMsg + TypeName(t.value)))
    else
      var lit :- At(n, [1, 0, 0, 0, 0, 1, 0]);
      var target := n.children[0];
      if target.tag == "IDENT" then
        var text :- ValueOf(lit);
        Ok(st.(out := st.out + [Asciiz(PyStr(target.val), text)]))
      else Ok(st)
  }

  // ---------------------------------------------------------------- the whole pass

  /** `generate_data` on each node in turn, stopping at the first error. */
  function DataRun(ns: seq<Node>, st: DataState): (r: Result<DataState, GenError>)
    decreases |ns|
    ensures |ns| == 0 ==> r == Ok(st)
  {
    if |ns| == 0 then Ok(st)
    else
      var st1 :- DataStep(ns[0], st);
      DataRun(ns[1..], st1)
  }

  // ---------------------------------------------------------------- what the pass keeps

  /**
   * Every variable with a `.word` line is declared, no variable has two, and
   * every literal in the dictionary labels an `.asciiz` line holding it.
   */
  predicate DataInv(st: DataState) {
    && (forall i | 0 <= i < |st.out| && st.out[i].Word? ::
          st.out[i].name in st.syms && st.syms[st.out[i].name].Entry? && st.syms[st.out[i].name].declared == 1)
    && (forall i, j | 0 <= i < j < |st.out| && st.out[i].Word? && st.out[j].Word? :: st.out[i].name != st.out[j].name)
    && (forall t | t in st.lits :: Asciiz(LitLabel(st.lits[t]), t) in st.out)
  }

  /** The table's entries other than declaration flags stay as they are. */
  predicate SameTypes(a: SymTab, b: SymTab) {
    && a.Keys == b.Keys
    && forall x | x in a :: a[x].Entry? == b[x].Entry? && (a[x].Entry? ==> a[x].vtype == b[x].vtype && a[x].declared <= b[x].declared)
  }

  lemma AddLitKeepsInv(st: DataState, text: string)
    requires DataInv(st)
    ensures DataInv(AddLit(st, text))
  {
    var r := AddLit(st, text);
    forall t | t in r.lits
      ensures Asciiz(LitLabel(r.lits[t]), t) in r.out
    {
      if t != text {
        assert Asciiz(LitLabel(st.lits[t]), t) in st.out;
      } else {
        assert r.out[|st.out|] == Asciiz(LitLabel(|st.lits|), text);
      }
    }
  }

  lemma {:induction false} StringLitsKeepInv(ns: seq<Node>, st: DataState)
    requires DataInv(st) && StringLits(ns, st).Ok?
    ensures DataInv(StringLits(ns, st).value)
    ensures |st.out| <= |StringLits(ns, st).value.out| && StringLits(ns, st).value.out[..|st.out|] == st.out
    decreases |ns|
  {
    if |ns| > 0 {
      var t := TypeOf(ns[0], st.syms).value;
      var st1 := if t == Some(STRING) then StringLit(ns[0], st).value else st;
      if t == Some(STRING) {
        AddLitKeepsInv(st, At(ns[0], LitPath).value.val.value);
      }
      assert StringLits(ns, st) == StringLits(ns[1..], st1);
      StringLitsKeepInv(ns[1..], st1);
      var out := StringLits(ns, st).value.out;
      assert out[..|st1.out|] == st1.out;
      assert st1.out[..|st.out|] == st.out;
      assert out[..|st.out|] == out[..|st1.out|][..|st.out|];
    }
  }

  /** How many of the expressions have type STRING. */
  function StringArgs(ns: seq<Node>, syms: SymTab): nat
    decreases |ns|
  {
    if |ns| == 0 then 0
    else (if TypeOf(ns[0], syms) == Ok(Some(STRING)) then 1 else 0) + StringArgs(ns[1..], syms)
  }

  /** The literal texts of the STRING expressions, in order. */
  function StringTexts(ns: seq<Node>, syms: SymTab): seq<string>
    decreases |ns|
  {
    if |ns| == 0 then []
    else
      var lit := At(ns[0], LitPath);
      (if TypeOf(ns[0], syms) == Ok(Some(STRING)) && lit.Ok? && lit.value.val.Some? then [lit.value.val.value] else [])
      + StringTexts(ns[1..], syms)
  }

  lemma SplitAfter<T>(out: seq<T>, pre: seq<T>, x: T)
    requires |pre| + 1 <= |out| && out[..|pre| + 1] == pre + [x]
    ensures out[|pre|..] == [x] + out[|pre| + 1..]
  {
    assert out[|pre|] == (pre + [x])[|pre|];
  }

  /** The texts of the `.asciiz` lines, in order. */
  function AsciizTexts(lines: seq<DataLine>): seq<string>
    decreases |lines|
  {
    if |lines| == 0 then []
    else (if lines[0].Asciiz? then [lines[0].text] else []) + AsciizTexts(lines[1..])
  }

  /**
   * Scanning a WRITE appends one `.asciiz` line per STRING expression, a
   * repeated literal included, holding that expression's literal, in order;
   * nothing else is written.
   */
  lemma {:induction false} StringLitsOut(ns: seq<Node>, st: DataState)
    ensures StringLits(ns, st).Ok? ==>
      var out := StringLits(ns, st).value.out;
      && |out| == |st.out| + StringArgs(ns, st.syms) && out[..|st.out|] == st.out
      && (forall i | |st.out| <= i < |out| :: out[i].Asciiz?)
      && AsciizTexts(out[|st.out|..]) == StringTexts(ns, st.syms)
  {
    if StringLits(ns, st).Ok? {
      StringLitsAppends(ns, st);
    }
  }

  lemma {:induction false} StringLitsAppends(ns: seq<Node>, st: DataState)
    requires StringLits(ns, st).Ok?
    decreases |ns|
    ensures var out := StringLits(ns, st).value.out;
      && |out| == |st.out| + StringArgs(ns, st.syms) && out[..|st.out|] == st.out
      && (forall i | |st.out| <= i < |out| :: out[i].Asciiz?)
      && AsciizTexts(out[|st.out|..]) == StringTexts(ns, st.syms)
  {
    if |ns| > 0 {
      var t := TypeOf(ns[0], st.syms).value;
      var st1 := if t == Some(STRING) then StringLit(ns[0], st).value else st;
      assert StringLits(ns, st) == StringLits(ns[1..], st1);
      assert st1.syms == st.syms;
      StringLitsAppends(ns[1..], st1);
      var out := StringLits(ns, st).value.out;
      assert out[..|st.out|] == out[..|st1.out|][..|st.out|];
      if t == Some(STRING) {
        var text := At(ns[0], LitPath).value.val.value;
        var line := Asciiz(LitLabel(|st.lits|), text);
        assert st1.out == st.out + [line];
        SplitAfter(out, st.out, line);
        assert AsciizTexts([line] + out[|st1.out|..]) == [text] + AsciizTexts(out[|st1.out|..]) by {
          assert ([line] + out[|st1.out|..])[1..] == out[|st1.out|..];
        }
        assert StringTexts(ns, st.syms) == [text] + StringTexts(ns[1..], st.syms);
      } else {
        assert st1 == st;
        assert StringTexts(ns, st.syms) == StringTexts(ns[1..], st.syms);
      }
    } else {
      assert StringLits(ns, st).value.out[|st.out|..] == [];
    }
  }

  lemma DeclareKeepsInv(n: Node, st: DataState)
    requires DataInv(st) && Declare(n, st).Ok?
    ensures DataInv(Declare(n, st).value) && SameTypes(st.syms, Declare(n, st).value.syms)
    ensures |st.out| <= |Declare(n, st).value.out| && Declare(n, st).value.out[..|st.out|] == st.out
  {
    var r := Declare(n, st).value;
    var x := DeclName(n).value;
    forall i | 0 <= i < |st.out| && st.out[i].Word?
      ensures st.out[i].name != x
    {
      assert st.syms[st.out[i].name].declared == 1;
    }
    assert r.out[..|st.out|] == st.out;
  }

  lemma AssignDataKeepsInv(n: Node, st: DataState)
    requires DataInv(st) && AssignData(n, st).Ok?
    ensures DataInv(AssignData(n, st).value) && AssignData(n, st).value.syms == st.syms
    ensures |st.out| <= |AssignData(n, st).value.out| && AssignData(n, st).value.out[..|st.out|] == st.out
  {
    var r := AssignData(n, st).value;
    forall t | t in r.lits
      ensures Asciiz(LitLabel(r.lits[t]), t) in r.out
    {
      var k :| 0 <= k < |st.out| && st.out[k] == Asciiz(LitLabel(st.lits[t]), t);
      assert r.out[k] == st.out[k];
    }
  }

  /** One node keeps the invariant, only appends to `.data`, and only sets declaration flags. */
  lemma DataStepKeepsInv(n: Node, st: DataState)
    requires DataInv(st) && DataStep(n, st).Ok?
    ensures DataInv(DataStep(n, st).value) && SameTypes(st.syms, DataStep(n, st).value.syms)
    ensures |st.out| <= |DataStep(n, st).value.out| && DataStep(n, st).value.out[..|st.out|] == st.out
  {
    if n.tag == "DECLARATION" {
      DeclareKeepsInv(n, st);
    } else if n.tag == "STATEMENT" {
      if n.children[0].tag == "WRITE" {
        StringLitsKeepInv(n.children[1].children, st);
      }
    } else if n.tag == "ASSIGNMENT" {
      AssignDataKeepsInv(n, st);
    }
  }

  lemma SameTypesTrans(a: SymTab, b: SymTab, c: SymTab)
    requires SameTypes(a, b) && SameTypes(b, c)
    ensures SameTypes(a, c)
  {
  }

  /** The whole pass keeps the invariant, only appends, and changes no variable's type. */
  lemma {:induction false} DataRunKeepsInv(ns: seq<Node>, st: DataState)
    requires DataInv(st) && DataRun(ns, st).Ok?
    ensures DataInv(DataRun(ns, st).value) && SameTypes(st.syms, DataRun(ns, st).value.syms)
    ensures |st.out| <= |DataRun(ns, st).value.out| && DataRun(ns, st).value.out[..|st.out|] == st.out
    decreases |ns|
  {
    if |ns| > 0 {
      var st1 := DataStep(ns[0], st).value;
      DataStepKeepsInv(ns[0], st);
      DataRunKeepsInv(ns[1..], st1);
      var out := DataRun(ns, st).value.out;
      SameTypesTrans(st.syms, st1.syms, DataRun(ns, st).value.syms);
      assert out[..|st.out|] == out[..|st1.out|][..|st.out|];
    } else {
      assert st.out[..|st.out|] == st.out;
    }
  }

  /**
   * A literal written a second time does not grow the dictionary, so the
   * next new literal is given the label the repeat was given: two `.asciiz`
   * lines share one label.
   */
  lemma RepeatedLiteralSharesLabel(st: DataState, a: string, b: string)
    requires a != b && b !in st.lits
    ensures var r := AddLit(AddLit(AddLit(st, a), a), b);
      && |r.out| == |st.out| + 3
      && r.out[|st.out| + 1].name == r.out[|st.out| + 2].name
      && r.out[|st.out| + 1].text == a && r.out[|st.out| + 2].text == b
  {
    var s1 := AddLit(st, a);
    var s2 := AddLit(s1, a);
    assert |s2.lits| == |s1.lits|;
  }
}

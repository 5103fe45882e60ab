/**
 * `get_expression_type`: the type the code generator infers for an
 * expression sub-tree, and the failures the generator's tree navigation can
 * run into (Python's IndexError, KeyError and TypeError).
 */
module Typing {
  import opened Wrappers
  import opened Syntax

  datatype CrashKind = IndexError | KeyError | TypeError | ValueError

  /** A `SemanticError` with its message, or an uncaught Python exception. */
  datatype GenError = Semantic(msg: string) | Crash(kind: CrashKind)

  const OrMsg := "Semantic Error: Non boolean expressions with 'OR's"
  const AndMsg := "Semantic Error: Non boolean expressions with 'AND's"
  const NotMsg := "Semantic Error: Tried to not a nonbool expression"
  const RelMsg := "Semantic Error: Used a non int expression with a relation op"
  const AddMsg := "Semantic Error: Tried to add/sub non int expressions"
  const MulMsg := "Semantic Error: Tried to mult/div/mod non int expressions"
  const NegMsg := "Semantic Error: Tried to use unary negation with non int expression"

  /** The string concatenation with a node's value: `None` is a TypeError. */
  function ValueOf(n: Node): (r: Result<string, GenError>)
    ensures r.Ok? <==> n.val.Some?
    ensures r.Ok? ==> r.value == n.val.value
    ensures r.Err? ==> r.error == Crash(TypeError)
  {
    if n.val.Some? then Ok(n.val.value) else Err(Crash(TypeError))
  }

  /** `node.children[k]`. */
  function Child(n: Node, k: nat): (r: Result<Node, GenError>)
    ensures r.Ok? <==> k < |n.children|
    ensures r.Ok? ==> r.value == n.children[k]
    ensures r.Err? ==> r.error == Crash(IndexError)
  {
    if k < |n.children| then Ok(n.children[k]) else Err(Crash(IndexError))
  }

  /** `node.children[p0].children[p1]...` along a path of child indices. */
  function At(n: Node, path: seq<nat>): (r: Result<Node, GenError>)
    decreases |path|
    ensures r.Err? ==> r.error == Crash(IndexError)
    ensures |path| == 0 ==> r == Ok(n)
  {
    if |path| == 0 then Ok(n)
    else
      var c :- Child(n, path[0]);
      At(c, path[1..])
  }

  /** `s[name]`: a missing name, or the `None` of a node without a value, is a KeyError. */
  function Lookup(s: SymTab, name: Option<string>): (r: Result<SymVal, GenError>)
    ensures r.Ok? <==> name.Some? && name.value in s
    ensures r.Ok? ==> r.value == s[name.value]
    ensures r.Err? ==> r.error == Crash(KeyError)
  {
    if name.Some? && name.value in s then Ok(s[name.value]) else Err(Crash(KeyError))
  }

  /** `entry[0]`; indexing the integer `read_ids` left behind is a TypeError. */
  function TypeField(v: SymVal): (r: Result<VarType, GenError>)
    ensures r.Ok? <==> v.Entry?
    ensures r.Ok? ==> r.value == v.vtype
    ensures r.Err? ==> r.error == Crash(TypeError)
  {
    if v.Entry? then Ok(v.vtype) else Err(Crash(TypeError))
  }

  /**
   * `get_expression_type`. `Ok(None)` is the Python function falling off its
   * end for a label it does not handle.
   */
  function TypeOf(n: Node, s: SymTab): (r: Result<Option<VarType>, GenError>)
    decreases n
    ensures n.tag !in Layers ==> r == Ok(None)
    ensures r.Ok? && n.tag in {"EXPRESSION", "TERM1"} && |n.children| > 1 ==> r.value == Some(BOOL)
    ensures r.Ok? && n.tag == "EXP2" && |n.children| > 1 ==> r.value == Some(INT)
    ensures r.Ok? && n.tag == "TERM2" && |n.children| > 2 ==> r.value == Some(INT)
  {
    if n.tag == "EXPRESSION" || n.tag == "TERM1" || n.tag == "EXP2" then
      if |n.children| > 1 then
        var want := if n.tag == "EXP2" then INT else BOOL;
        var _ :- AllOperands(n.children, s, OperandTag(n.tag), want, ChainMsg(n.tag));
        Ok(Some(want))
      else if |n.children| == 0 then Err(Crash(IndexError))
      else TypeOf(n.children[0], s)
    else if n.tag == "FACT1" then
      if |n.children| == 0 then Err(Crash(IndexError))
      else if n.children[0].tag == "NOT" then
        if |n.children| < 2 then Err(Crash(IndexError))
        else
          var t :- TypeOf(n.children[1], s);
          if t != Some(BOOL) then Err(Semantic(NotMsg)) else Ok(Some(BOOL))
      else if |n.children| < 2 || |n.children[1].children| == 0 then Err(Crash(IndexError))
      else if n.children[1].children[0].tag == "RELATIONOP" then
        if |n.children[1].children| < 2 then Err(Crash(IndexError))
        else
          // the right operand is typed first; a non-INT one short-circuits the left
          var right :- TypeOf(n.children[1].children[1], s);
          if right != Some(INT) then Err(Semantic(RelMsg))
          else
            var left :- TypeOf(n.children[0], s);
            if left != Some(INT) then Err(Semantic(RelMsg)) else Ok(Some(BOOL))
      else TypeOf(n.children[0], s)
    else if n.tag == "TERM2" then
      if |n.children| > 2 then
        var _ :- AllOperands(n.children, s, "FACT2", INT, MulMsg);
        Ok(Some(INT))
      else if |n.children| == 0 || |n.children[0].children| == 0 then Err(Crash(IndexError))
      else if n.children[0].children[0].tag == "MINUS" then
        // unary minus types the FACT2's inner node, not the FACT2 itself
        if |n.children| < 2 || |n.children[1].children| == 0 then Err(Crash(IndexError))
        else
          var t :- TypeOf(n.children[1].children[0], s);
          if t != Some(INT) then Err(Semantic(NegMsg)) else Ok(Some(INT))
      else if |n.children| < 2 then Err(Crash(IndexError))
      else TypeOf(n.children[1], s)
    else if n.tag == "FACT2" then
      if |n.children| == 0 then Err(Crash(IndexError))
      else
        var c := n.children[0];
        if c.tag == "INTLIT" then Ok(Some(INT))
        else if c.tag == "BOOLLIT" then Ok(Some(BOOL))
        else if c.tag == "STRINGLIT" then Ok(Some(STRING))
        else if c.tag == "IDENT" then
          var e :- Lookup(s, c.val);
          var t :- TypeField(e);
          Ok(Some(t))
        else TypeOf(c, s)
    else Ok(None)
  }

  /** The labels `get_expression_type` handles. */
  const Layers: set<string> := {"EXPRESSION", "TERM1", "FACT1", "EXP2", "TERM2", "FACT2"}

  /** The operand label of an OR, AND or PLUS/MINUS chain. */
  function OperandTag(chain: string): string {
    if chain == "EXPRESSION" then "TERM1" else if chain == "TERM1" then "FACT1" else "TERM2"
  }

  function ChainMsg(chain: string): string {
    if chain == "EXPRESSION" then OrMsg else if chain == "TERM1" then AndMsg else AddMsg
  }

  /**
   * The loop that checks every child labelled `tag` has type `want`,
   * raising `msg` at the first one that does not.
   */
  function AllOperands(ns: seq<Node>, s: SymTab, tag: string, want: VarType, msg: string): (r: Result<(), GenError>)
    decreases ns
  {
    if |ns| == 0 then Ok(())
    else if ns[0].tag == tag then
      var t :- TypeOf(ns[0], s);
      if t != Some(want) then Err(Semantic(msg)) else AllOperands(ns[1..], s, tag, want, msg)
    else AllOperands(ns[1..], s, tag, want, msg)
  }

  /** The operand check passes exactly when every operand has the wanted type. */
  lemma {:induction false} AllOperandsOk(ns: seq<Node>, s: SymTab, tag: string, want: VarType, msg: string)
    ensures AllOperands(ns, s, tag, want, msg).Ok?
        <==> forall k | 0 <= k < |ns| && ns[k].tag == tag :: TypeOf(ns[k], s) == Ok(Some(want))
    decreases ns
  {
    if |ns| > 0 {
      AllOperandsOk(ns[1..], s, tag, want, msg);
      assert forall k | 1 <= k < |ns| :: ns[k] == ns[1..][k - 1];
    }
  }

  /**
   * An operand of the wrong type that the operand loop reaches (every earlier one
   * typed as wanted) raises the chain's own message.
   */
  lemma {:induction false} AllOperandsFirstBad(ns: seq<Node>, s: SymTab, tag: string, want: VarType, msg: string, j: nat)
    requires j < |ns| && ns[j].tag == tag
    requires forall k | 0 <= k < j && ns[k].tag == tag :: TypeOf(ns[k], s) == Ok(Some(want))
    requires TypeOf(ns[j], s).Ok? && TypeOf(ns[j], s).value != Some(want)
    ensures AllOperands(ns, s, tag, want, msg) == Err(Semantic(msg))
    decreases ns
  {
    if j > 0 {
      assert forall k | 0 <= k < j - 1 :: ns[1..][k] == ns[k + 1];
      AllOperandsFirstBad(ns[1..], s, tag, want, msg, j - 1);
    }
  }

  /**
   * OR, AND and PLUS/MINUS chains of more than one operand: the chain types
   * (as BOOL, BOOL and INT) exactly when every operand has that type.
   */
  lemma ChainRule(n: Node, s: SymTab)
    requires n.tag in {"EXPRESSION", "TERM1", "EXP2"} && |n.children| > 1
    ensures var want := if n.tag == "EXP2" then INT else BOOL;
            (TypeOf(n, s).Ok? <==>
               forall k | 0 <= k < |n.children| && n.children[k].tag == OperandTag(n.tag) ::
                 TypeOf(n.children[k], s) == Ok(Some(want)))
            && (TypeOf(n, s).Ok? ==> TypeOf(n, s).value == Some(want))
  {
    var want := if n.tag == "EXP2" then INT else BOOL;
    AllOperandsOk(n.children, s, OperandTag(n.tag), want, ChainMsg(n.tag));
  }

  /** A TERM2 with a `*`, `/` or `%` types as INT exactly when every FACT2 operand is INT. */
  lemma ProductRule(n: Node, s: SymTab)
    requires n.tag == "TERM2" && |n.children| > 2
    ensures TypeOf(n, s).Ok? <==>
              forall k | 0 <= k < |n.children| && n.children[k].tag == "FACT2" ::
                TypeOf(n.children[k], s) == Ok(Some(INT))
    ensures TypeOf(n, s).Ok? ==> TypeOf(n, s).value == Some(INT)
  {
    AllOperandsOk(n.children, s, "FACT2", INT, MulMsg);
  }

  /** The first ill-typed operand of a chain raises the chain's message. */
  lemma ChainError(n: Node, s: SymTab, j: nat)
    requires n.tag in {"EXPRESSION", "TERM1", "EXP2"} && |n.children| > 1
    requires j < |n.children| && n.children[j].tag == OperandTag(n.tag)
    requires var want := if n.tag == "EXP2" then INT else BOOL;
             && (forall k | 0 <= k < j && n.children[k].tag == OperandTag(n.tag) ::
                   TypeOf(n.children[k], s) == Ok(Some(want)))
             && TypeOf(n.children[j], s).Ok? && TypeOf(n.children[j], s).value != Some(want)
    ensures TypeOf(n, s) == Err(Semantic(ChainMsg(n.tag)))
  {
    var want := if n.tag == "EXP2" then INT else BOOL;
    AllOperandsFirstBad(n.children, s, OperandTag(n.tag), want, ChainMsg(n.tag), j);
  }

  /** Literal and identifier FACT2s. */
  lemma Fact2Rule(n: Node, s: SymTab)
    requires n.tag == "FACT2" && |n.children| > 0
    ensures n.children[0].tag == "INTLIT" ==> TypeOf(n, s) == Ok(Some(INT))
    ensures n.children[0].tag == "BOOLLIT" ==> TypeOf(n, s) == Ok(Some(BOOL))
    ensures n.children[0].tag == "STRINGLIT" ==> TypeOf(n, s) == Ok(Some(STRING))
    ensures n.children[0].tag == "IDENT" ==>
      (TypeOf(n, s).Ok? <==> n.children[0].val.Some? && n.children[0].val.value in s
                              && s[n.children[0].val.value].Entry?)
    ensures n.children[0].tag == "IDENT" && TypeOf(n, s).Ok? ==>
      TypeOf(n, s) == Ok(Some(s[n.children[0].val.value].vtype))
  {
  }

  /** NOT needs a BOOL operand and yields BOOL. */
  lemma NotRule(n: Node, s: SymTab)
    requires n.tag == "FACT1" && |n.children| == 2 && n.children[0].tag == "NOT"
    ensures TypeOf(n, s).Ok? <==> TypeOf(n.children[1], s) == Ok(Some(BOOL))
    ensures TypeOf(n, s).Ok? ==> TypeOf(n, s).value == Some(BOOL)
    ensures TypeOf(n.children[1], s).Ok? && TypeOf(n.children[1], s).value != Some(BOOL) ==>
      TypeOf(n, s) == Err(Semantic(NotMsg))
  {
  }

  /** A comparison needs INT on both sides and yields BOOL. */
  lemma RelationRule(n: Node, s: SymTab)
    requires n.tag == "FACT1" && |n.children| == 2 && n.children[0].tag != "NOT"
    requires |n.children[1].children| == 2 && n.children[1].children[0].tag == "RELATIONOP"
    ensures TypeOf(n, s).Ok? <==>
      TypeOf(n.children[1].children[1], s) == Ok(Some(INT)) && TypeOf(n.children[0], s) == Ok(Some(INT))
    ensures TypeOf(n, s).Ok? ==> TypeOf(n, s).value == Some(BOOL)
  {
  }

  /**
   * Unary minus types the FACT2's inner node, which is not itself a FACT2:
   * so `-5` and `-x` are rejected and only a parenthesised operand can pass.
   */
  lemma NegationRule(n: Node, s: SymTab)
    requires n.tag == "TERM2" && |n.children| == 2
    requires n.children[0] == Node("SIGN", None, [Leaf("MINUS")])
    requires |n.children[1].children| == 1
    ensures TypeOf(n, s).Ok? <==> TypeOf(n.children[1].children[0], s) == Ok(Some(INT))
    ensures n.children[1].children[0].tag !in Layers ==> TypeOf(n, s) == Err(Semantic(NegMsg))
  {
  }

  /** `-5` as the parser builds it fails to type. */
  lemma NegativeLiteralRejected(s: SymTab)
    ensures var five := Node("FACT2", Some("5"), [Node("INTLIT", Some("5"), [])]);
            TypeOf(Node("TERM2", None, [Node("SIGN", None, [Leaf("MINUS")]), five]), s) == Err(Semantic(NegMsg))
  {
    var five := Node("FACT2", Some("5"), [Node("INTLIT", Some("5"), [])]);
    NegationRule(Node("TERM2", None, [Node("SIGN", None, [Leaf("MINUS")]), five]), s);
  }
}

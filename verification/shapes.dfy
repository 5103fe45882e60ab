/**
 * The tree shapes the recursive-descent parser builds, and the symbol
 * table a tree declares. The parser's contracts are stated with these.
 */
module Shapes {
  import opened Wrappers
  import opened Syntax

  const LiteralTags: set<string> := {"INTLIT", "BOOLLIT", "STRINGLIT"}
  const AddOps: set<string> := {"PLUS", "MINUS"}
  const MulOps: set<string> := {"TIMES", "DIVIDE", "MODULO"}

  /** The type a TYPE node names, if it is one. */
  function TypeNodeType(n: Node): Option<VarType> {
    if n.tag != "TYPE" || |n.children| != 1 then None
    else if n.children[0].tag == "INT" then Some(INT)
    else if n.children[0].tag == "BOOL" then Some(BOOL)
    else if n.children[0].tag == "STRING" then Some(STRING)
    else if n.children[0].tag == "VOID" then Some(VOID)
    else None
  }

  /** An IDENT node: the name sits on the node and on its single ID leaf. */
  predicate IsIdent(n: Node) {
    n.tag == "IDENT" && n.val.Some? && n.children == [Node("ID", n.val, [])]
  }

  /** `TYPE IDENT` pairs (a DECLARATION's or a PARAM LIST's children). */
  predicate TypedPairs(ns: seq<Node>) {
    && |ns| % 2 == 0
    && forall k | 0 <= k < |ns| ::
         if k % 2 == 0 then TypeNodeType(ns[k]).Some? else IsIdent(ns[k])
  }

  /*
   * Expression layers, outermost first:
   *   EXPRESSION = TERM1 (OR TERM1)*      TERM1 = FACT1 (AND FACT1)*
   *   FACT1 = NOT FACT2 | EXP2 RELATION    RELATION = RELATIONOP EXP2 | LAMBDA
   *   EXP2 = TERM2 ((PLUS|MINUS) TERM2)*   TERM2 = SIGN FACT2 (op SIGN FACT2)*
   *   FACT2 = ( EXPRESSION ) | IDENT | literal
   */

  predicate WfExpression(n: Node) {
    && n.tag == "EXPRESSION" && n.val.None?
    && |n.children| % 2 == 1
    && forall k | 0 <= k < |n.children| ::
         if k % 2 == 0 then WfTerm1(n.children[k]) else n.children[k] == Leaf("OR")
  }

  predicate WfTerm1(n: Node) {
    && n.tag == "TERM1" && n.val.None?
    && |n.children| % 2 == 1
    && forall k | 0 <= k < |n.children| ::
         if k % 2 == 0 then WfFact1(n.children[k]) else n.children[k] == Leaf("AND")
  }

  predicate WfFact1(n: Node) {
    && n.tag == "FACT1" && n.val.None? && |n.children| == 2
    && ((n.children[0] == Leaf("NOT") && WfFact2(n.children[1]))
        || (WfExp2(n.children[0]) && WfRelation(n.children[1])))
  }

  predicate WfRelation(n: Node) {
    && n.tag == "RELATION"
    && ((n.val.None? && n.children == [Leaf("LAMBDA")])
        || (n.val.Some? && |n.children| == 2
            && n.children[0] == Node("RELATIONOP", n.val, []) && WfExp2(n.children[1])))
  }

  predicate WfExp2(n: Node) {
    && n.tag == "EXP2" && n.val.None?
    && |n.children| % 2 == 1
    && forall k | 0 <= k < |n.children| ::
         if k % 2 == 0 then WfTerm2(n.children[k])
         else n.children[k].tag in AddOps && n.children[k] == Leaf(n.children[k].tag)
  }

  predicate WfTerm2(n: Node) {
    && n.tag == "TERM2" && n.val.None?
    && |n.children| % 3 == 2
    && forall k | 0 <= k < |n.children| ::
         && (k % 3 == 0 ==> WfSign(n.children[k]))
         && (k % 3 == 1 ==> WfFact2(n.children[k]))
         && (k % 3 == 2 ==> n.children[k].tag in MulOps && n.children[k] == Leaf(n.children[k].tag))
  }

  predicate WfSign(n: Node) {
    n == Node("SIGN", None, [Leaf("MINUS")]) || n == Node("SIGN", None, [Leaf("LAMBDA")])
  }

  predicate WfFact2(n: Node) {
    && n.tag == "FACT2" && |n.children| == 1
    && ((n.val.None? && WfExpression(n.children[0]))
        || (IsIdent(n.children[0]) && n.val == n.children[0].val)
        || (n.val.Some? && n.children[0].tag in LiteralTags
            && n.children[0] == Node(n.children[0].tag, n.val, [])))
  }

  /**
   * The symbol table a tree declares: every IDENT that follows a TYPE in a
   * DECLARATION or PARAM LIST gets `[type, 0, 0]`; when a name is declared
   * again, the later declaration (in tree order) wins, as `dict.update` does.
   */
  function Bindings(n: Node): SymTab {
    if n.tag == "DECLARATION" || n.tag == "PARAM LIST" then PairBindings(n.children)
    else BindingsOf(n.children)
  }

  function BindingsOf(ns: seq<Node>): SymTab {
    if |ns| == 0 then map[] else Bindings(ns[0]) + BindingsOf(ns[1..])
  }

  function PairBindings(ns: seq<Node>): SymTab {
    if |ns| < 2 then map[]
    else
      var first: SymTab :=
        match (TypeNodeType(ns[0]), ns[1].val)
        case (Some(t), Some(x)) => map[x := Entry(t, 0, 0)]
        case _ => map[];
      first + PairBindings(ns[2..])
  }

  lemma {:induction false} BindingsOfConcat(a: seq<Node>, b: seq<Node>)
    ensures BindingsOf(a + b) == BindingsOf(a) + BindingsOf(b)
  {
    if |a| == 0 {
      assert a + b == b;
    } else {
      assert (a + b)[1..] == a[1..] + b;
      BindingsOfConcat(a[1..], b);
    }
  }

  lemma {:induction false} PairBindingsConcat(a: seq<Node>, b: seq<Node>)
    requires |a| % 2 == 0
    ensures PairBindings(a + b) == PairBindings(a) + PairBindings(b)
  {
    if |a| == 0 {
      assert a + b == b;
    } else {
      assert (a + b)[2..] == a[2..] + b;
      PairBindingsConcat(a[2..], b);
    }
  }

  /** Every entry is a fresh `[type, 0, 0]` list. */
  predicate FreshEntries(s: SymTab) {
    forall x | x in s :: s[x].Entry? && s[x].declared == 0 && s[x].initialized == 0
  }

  lemma {:induction false} BindingsFresh(n: Node)
    ensures FreshEntries(Bindings(n))
    decreases n, 1
  {
    if n.tag == "DECLARATION" || n.tag == "PARAM LIST" {
      PairBindingsFresh(n.children);
    } else {
      BindingsOfFresh(n.children);
    }
  }

  lemma {:induction false} BindingsOfFresh(ns: seq<Node>)
    ensures FreshEntries(BindingsOf(ns))
    decreases ns
  {
    if |ns| > 0 {
      BindingsFresh(ns[0]);
      BindingsOfFresh(ns[1..]);
    }
  }

  lemma {:induction false} PairBindingsFresh(ns: seq<Node>)
    ensures FreshEntries(PairBindings(ns))
    decreases |ns|
  {
    if |ns| >= 2 {
      PairBindingsFresh(ns[2..]);
    }
  }
}

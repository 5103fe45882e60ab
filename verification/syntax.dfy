/**
 * The values the parser and the code generator exchange: lexer tokens,
 * parse-tree nodes and symbol-table entries.
 */
module Syntax {
  import opened Wrappers

  /** A token as the lexer yields it: token class, token name, matched text, position. */
  datatype Token = Token(tClass: string, name: string, pattern: string, lineNum: int, col: int)

  /**
   * A parse-tree node. `tag` is the label the parser gives it ("PROGRAM",
   * "FACT2", "IDENT", ...), `val` the optional payload (a lexeme or an
   * identifier name) and `children` the ordered sub-trees.
   */
  datatype Node = Node(tag: string, val: Option<string>, children: seq<Node>)

  /** A node without payload and without children. */
  function Leaf(tag: string): Node {
    Node(tag, None, [])
  }

  /** The four type names a TYPE token can carry. */
  datatype VarType = INT | BOOL | STRING | VOID

  /**
   * A symbol-table value. The parser stores the list `[type, declared, initialized]`;
   * `read_ids` later overwrites the whole entry with the plain integer 1,
   * which is `Clobbered` here.
   */
  datatype SymVal = Entry(vtype: VarType, declared: int, initialized: int) | Clobbered

  /** The flat symbol table: identifier name to entry. */
  type SymTab = map<string, SymVal>

  /** Number of nodes of a tree. */
  function Size(n: Node): nat {
    1 + SizeOf(n.children)
  }

  function SizeOf(ns: seq<Node>): nat {
    if |ns| == 0 then 0 else Size(ns[0]) + SizeOf(ns[1..])
  }
}

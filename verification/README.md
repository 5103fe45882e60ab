# Micro-language compiler: parser and MIPS code generator in Dafny

This project models the back half of the Micro-language compiler. It covers
the recursive-descent parser that turns the lexer's token stream into a
parse tree plus a symbol table. It also covers the code generator, which
walks that tree twice and writes a MIPS assembly file:

- the `.data` pass declares variables and string literals;
- the `.text` pass writes the statements' code, with IF/WHILE labels drawn
  from a counter.

Every operation is a pure function. Failures are explicit values:

- a `ParseError` for the parser's `ParserError`, running out of tokens, and
  the crash when TYPE returns nothing;
- a `GenError` for the generator's `SemanticError` and its Python crashes
  (IndexError, KeyError, TypeError, ValueError).

The model follows the source's quirks rather than fixing them, and proves
them where they matter.

Modules, in dependency order:

| file | module | what it holds |
|---|---|---|
| wrappers.dfy | Wrappers | `Option`, `Result` |
| syntax.dfy | Syntax | tokens, tree nodes, variable types, symbol-table values |
| shapes.dfy | Shapes | the tree shapes the parser builds; `Bindings`, the symbol table a tree declares |
| parser.dfy | Parser | one function per nonterminal of `part8/MLparser.py` |
| traversal.dfy | Traversal | `traverse_tree` (preorder) |
| typing.dfy | Typing | `get_expression_type` and the crash-aware tree accessors |
| machine.dfy | Mips | the instructions the generator writes, and an interpreter for the straight-line ones |
| lowering.dfy | Lowering | `solve_expression` and the `solve_*` functions, `parseOperator` |
| codefacts.dfy, intproofs.dfy | CodeFacts, IntProofs | what integer-expression code computes on the interpreter |
| boolproofs.dfy | BoolProofs | what boolean-expression code computes, and the input on which it computes the wrong value |
| control.dfy | Control | the IF/WHILE label counter (`programCountDict`, `ifWhileStack`) |
| datapass.dfy | DataPass | `generate_data` and its helpers |
| textpass.dfy, textproofs.dfy | TextPass, TextProofs | `generate_text` and its helpers, and what their code computes |

Modelling choices:

- **Tokens.** A token stream is a `seq<Token>` plus the index of the current
  lookahead token. Asking for the token after the last one is `OutOfTokens`,
  which is the generator's StopIteration.
- **Return values.** Each parsing function returns the next lookahead index,
  the subtree, and the symbol-table fragment it declares. Fragments are
  merged with map override, which is `dict.update`.
- **Symbol-table values.** A value is `Entry(type, declared, initialized)`.
  The other form is `Clobbered`, the bare integer `1` that `read_ids` stores
  in place of a variable's entry.
- **Output.** The `.data` section is a sequence of `DataLine`s. The `.text`
  section is a sequence of `Instr`s, one per `outfile.write`.

## Model

| member | source | states |
|---|---|---|
| Parser.Parse | part8/MLparser.py:35-54 | Empty input is "Program ends before END token". A successful parse ends on an END token as the last token, has the PROGRAM shape, and returns the table the tree declares. |
| Parser.Finish | part8/MLparser.py:44-54 | Success holds exactly when PROGRAM succeeds with the last token as its lookahead. PROGRAM running out of tokens is "Program ends before END token", and a PROGRAM that stops before the last token is "Tokens exist after END keyword.". Other errors propagate unchanged, and the result is never a bare StopIteration. |
| Parser.Program | part8/MLparser.py:57-96 | Only a DEF or BEGIN lookahead may start a program; any other token gives the BEGIN/function-declaration error. On success the node is FUNCTION LIST, BEGIN, STATEMENT LIST, END. The lookahead returned is the END token itself, not consumed. A BEGIN start gives the one-child `LABMDA` function list. |
| Parser.ProgramBody | part8/MLparser.py:65-77 | After the function list, BEGIN, a statement list and END follow. The result keeps the given function list as its first child. |
| Parser.FunctionList | part8/MLparser.py:98-106 | Parses declarations while the lookahead is DEF and stops at the first token that is not DEF. Every child is a well-formed FUNCTION DECLARATION. |
| Parser.FunctionDeclaration | part8/MLparser.py:108-139 | A non-DEF start is the "does not begin with def keyword" error. On success the node is DEF, TYPE, IDENT, PARAM LIST, STATEMENT LIST, and the lookahead is END, DEF or BEGIN. The table is everything the tree declares: the parameters and the body's declarations. |
| Parser.FunctionBody | part8/MLparser.py:123-137 | The parenthesised parameter list, the colon and the body. It yields a PARAM LIST and a STATEMENT LIST, and the bindings of both, the body's overriding the parameters' on a clash. |
| Parser.ParamList | part8/MLparser.py:141-166 | An RPAREN lookahead gives a LAMBDA list without consuming it. A non-TYPE start is the "Parameter must have an associated type." error. Otherwise the children alternate TYPE and IDENT, and each parameter is bound to `[type, 0, 0]`. |
| Parser.ParamsTail | part8/MLparser.py:158-164 | The comma-separated further parameters. They alternate TYPE and IDENT, and their bindings are exactly the pairs' bindings. |
| Parser.StatementList | part8/MLparser.py:168-179 | At least one statement, whose start must be a statement token. The list stops exactly at the first END, DEF or BEGIN lookahead. |
| Parser.Statements | part8/MLparser.py:174-178 | The loop: nothing when the lookahead is END, DEF or BEGIN, otherwise STATEMENT nodes up to such a lookahead. |
| Parser.Statement | part8/MLparser.py:182-299 | Dispatches on the lookahead. A token that starts no statement is "Inappproriate token to start a statement". A success is a STATEMENT node whose fragment is the tree's bindings. |
| Parser.SimpleStatement | part8/MLparser.py:184-257 | Assignment, READ, WRITE, declaration, FUNC-call and RETURN statements end with a SEMICOLON token. The returned lookahead is the token after it. |
| Parser.Terminated | part8/MLparser.py:189-192 | A missing semicolon is that statement's error at the offending token. With a semicolon, success holds exactly when a token follows it, and that token becomes the lookahead. |
| Parser.AssignStatement | part8/MLparser.py:184-192 | An ID start gives an ASSIGNMENT statement ending in a semicolon. |
| Parser.ReadStatement | part8/MLparser.py:194-209 | READ ( ID_LIST ) ;. The result is a READ leaf and an ID_LIST of IDENT nodes. |
| Parser.WriteStatement | part8/MLparser.py:211-227 | WRITE ( EXPR_LIST ) ;. The result is a WRITE leaf and an EXPR_LIST of well-formed expressions. |
| Parser.DeclarationStatement | part8/MLparser.py:229-237 | A TYPE-class token that names no type crashes unpacking TYPE's result. Otherwise the statement is a DECLARATION ending in a semicolon. |
| Parser.CallStatement | part8/MLparser.py:239-256 | FUNC IDENT ( ARGLIST ) ;, with a FUNC leaf, an IDENT and an ARGLIST. |
| Parser.IfStatement | part8/MLparser.py:258-275 | IF EXPRESSION THEN PROGRAM, optionally ELSE PROGRAM. The END that closes the last program is consumed. |
| Parser.IfAfterCondition | part8/MLparser.py:261-275 | A condition not followed by THEN is the "If must be followed with then" error, which carries no location. The condition is kept as the second child. |
| Parser.IfBranches | part8/MLparser.py:265-275 | One program, or a program, ELSE and a second program. |
| Parser.ElseBranch | part8/MLparser.py:270-274 | After ELSE, a second program whose END is consumed. |
| Parser.WhileStatement | part8/MLparser.py:277-285 | WHILE EXPRESSION PROGRAM, with no keyword between the condition and the body. The body's END is consumed. |
| Parser.ReturnStatement | part8/MLparser.py:287-294 | RETURN, then the FACT2 itself (not a RETURN STATEMENT node), then a semicolon. |
| Parser.ReturnStmt | part8/MLparser.py:316-322 | Returns exactly what FACT2 returns: its child, not the RETURN STATEMENT node it builds. |
| Parser.ArgList | part8/MLparser.py:301-314 | Outside its first set it yields a LAMBDA child without consuming. Inside, it yields one EXPR_LIST. |
| Parser.Assignment | part8/MLparser.py:325-339 | An IDENT holding the token's lexeme, ASSIGNOP, then a well-formed EXPRESSION. No bindings. |
| Parser.IdList | part8/MLparser.py:342-353 | A non-ID start is "Invalid identifier". Otherwise one or more IDENT nodes separated by commas, with no bindings. |
| Parser.IdsTail | part8/MLparser.py:348-352 | The comma loop of ID_LIST. It stops at the first non-COMMA lookahead. |
| Parser.ExprList | part8/MLparser.py:356-369 | One or more well-formed expressions separated by commas. |
| Parser.ExprsTail | part8/MLparser.py:362-366 | The comma loop of EXPR_LIST. |
| Parser.Declaration | part8/MLparser.py:372-385 | TYPE IDENT. A non-type token is the unpacking crash. The fragment is exactly `{name: [type, 0, 0]}`. |
| Parser.ParseType | part8/MLparser.py:388-403 | INT, BOOL, STRING and VOID give a TYPE node and the type and consume one token. Any other token gives nothing (the unpacking crash). |
| Parser.Expression | part8/MLparser.py:405-419 | TERM1 (OR TERM1)*, odd length. It stops at the first non-OR lookahead. |
| Parser.OrTail | part8/MLparser.py:413-418 | The OR loop: pairs of an OR leaf and a TERM1. |
| Parser.Term1 | part8/MLparser.py:422-434 | FACT1 (AND FACT1)*. It stops at the first non-AND lookahead. |
| Parser.AndTail | part8/MLparser.py:428-433 | The AND loop: pairs of an AND leaf and a FACT1. |
| Parser.Fact1 | part8/MLparser.py:437-455 | NOT FACT2 exactly when the lookahead is NOT; otherwise EXP2 RELATION. |
| Parser.Relation | part8/MLparser.py:458-471 | A RELATIONOP gives its lexeme on the node and an EXP2. Anything else gives a LAMBDA child without consuming. |
| Parser.Exp2 | part8/MLparser.py:474-489 | TERM2 ((PLUS\|MINUS) TERM2)*. |
| Parser.AddTail | part8/MLparser.py:480-488 | The PLUS/MINUS loop: operator leaves and TERM2 nodes alternating. |
| Parser.Term2 | part8/MLparser.py:492-516 | SIGN FACT2 (op SIGN FACT2)*, 2 + 3k children. |
| Parser.MulTail | part8/MLparser.py:502-515 | The TIMES/DIVIDE/MODULO loop: triples of operator, SIGN and FACT2. |
| Parser.Sign | part8/MLparser.py:519-531 | A MINUS is consumed and kept. Any other ARITHOP is "Invalid sign for number.". A non-operator gives LAMBDA without consuming. |
| Parser.Fact2 | part8/MLparser.py:534-574 | Always consumes a token. A `(` whose expression is not followed by RPAREN is the unclosed-paren error at that token. A literal node carries its lexeme on the node and on its leaf. A token outside the first set is "Inappropriate starting token in FACT2". |
| Parser.Ident | part8/MLparser.py:622-632 | A non-ID token is "Invalid identifier". An IDENT holds the lexeme on itself and its ID leaf. The fragment is `{name: [type, 0, 0]}` only when a type is given, otherwise empty. |
| Parser.MkIf | part8/MLparser.py:258-275 | The IF node built from a condition and its branches has the IF shape, and declares what its branches declare. |
| Shapes.BindingsOfConcat | part8/MLparser.py:168-179 | The table declared by a run of siblings is the first part's table overridden by the second's, as repeated `update` gives. |
| Shapes.BindingsFresh | part8/MLparser.py:622-626 | Every entry a tree declares is `[type, 0, 0]`: not yet declared, not initialized. |
| Traversal.Preorder | part7/code_generator.py:5-8 | A node comes first, and the traversal yields exactly as many nodes as the tree has. |
| Traversal.PreorderChild | part7/code_generator.py:5-8 | Child k's traversal sits right after the traversals of children 0..k-1: children are visited left to right, each subtree contiguously. |
| Traversal.PreorderMembers | part7/code_generator.py:5-8 | A node is yielded exactly when it occurs in the tree. |
| Typing.TypeOf | part7/code_generator.py:202-269 | Labels outside the six expression layers give no type (the function falls off its end). OR and AND chains give BOOL, PLUS/MINUS chains INT, and longer TERM2s INT. |
| Typing.ChainRule | part7/code_generator.py:203-236 | An OR, AND or PLUS/MINUS chain types exactly when every operand has the chain's type (BOOL, BOOL, INT), and then has that type. |
| Typing.ChainError | part7/code_generator.py:203-236 | The first ill-typed operand of a chain raises that chain's message. |
| Typing.ProductRule | part7/code_generator.py:238-244 | A TERM2 with more than two children types exactly when every FACT2 is INT. |
| Typing.Fact2Rule | part7/code_generator.py:258-268 | INTLIT, BOOLLIT and STRINGLIT give INT, BOOL and STRING. An IDENT gives its table type, and typing fails when the name is unknown or its entry was overwritten. |
| Typing.NotRule | part7/code_generator.py:220-223 | NOT types exactly when its operand is BOOL. Otherwise it raises the not-a-bool message. |
| Typing.RelationRule | part7/code_generator.py:224-227 | A comparison types exactly when both sides are INT, and it is BOOL. |
| Typing.NegationRule | part7/code_generator.py:252-255 | Unary minus checks the node inside the FACT2, so it types only when that node is an INT expression. A bare literal or identifier is rejected. |
| Typing.NegativeLiteralRejected | part7/code_generator.py:252-255 | `-5` is a semantic error. |
| Lowering.SolveExpression | part7/code_generator.py:286-291 | Code is chosen by the inferred type: INT lowers as an integer, BOOL as a boolean, anything else writes nothing. |
| Lowering.SolveInt | part7/code_generator.py:376-393 | Integer code starts with `li $t0, 0`. |
| Lowering.SolveTerm1 | part7/code_generator.py:302-307 | A TERM1's code starts with `li $t7, 1`. |
| Lowering.TermCode | part7/code_generator.py:396-399 | A TERM2's code starts with `li $t1, 0`. |
| Lowering.ParseOperator | part7/code_generator.py:480-492 | A truth value is returned exactly for `==, !=, >=, <=, <, >`; any other string falls off the end. |
| Lowering.SolveBool | part7/code_generator.py:294-299 | Boolean code starts with `li $t6, 0`. |
| Lowering.RelOpMatchesParseOperator | part7/code_generator.py:480-492 | The set-instruction chosen for `==, !=, >=, <=, >, <` decides exactly the comparison `parseOperator` evaluates, and unknown operators have neither. |
| IntProofs.IntCorrect | part7/code_generator.py:376-461 | An integer expression's code leaves its value in `$t0`. This covers a TERM2's sign that stays set for later factors, and the mult/mflo, div/mflo and div/mfhi combinations. The code keeps `$sp`, the stack above it and the variables, and writes only `$t0, $t1, $t2, $t6`. |
| IntProofs.TermCorrect | part7/code_generator.py:396-432 | A TERM2's code leaves its value in `$t1` and writes only `$t1, $t2, $t6`. |
| IntProofs.FactorsCorrect | part7/code_generator.py:401-432 | The loop over a TERM2's children folds the factor at position 1 into `$t1` by addition and each later FACT2 by the operator last seen, with the sign that stays set once a SIGN is a minus. |
| IntProofs.FactorCorrect | part7/code_generator.py:435-461 | A factor's code leaves its value, negated when the sign is set, in `$t2` and writes only `$t2, $t6`. |
| IntProofs.LoadCorrect | part7/code_generator.py:436-456 | A variable, a literal or a parenthesised expression is loaded into `$t2`; the expression is computed between a push and a pop of `$t0, $t1`. |
| BoolProofs.SolveIntSpares | part7/code_generator.py:435-461 | Integer code with no unary minus never writes `$t6`; only the negation's `li $t6, 0` does. |
| BoolProofs.IntKeepsT6 | part7/code_generator.py:376-461 | Without a unary minus, an integer expression's code leaves its value in `$t0` and writes only `$t0, $t1, $t2`. |
| BoolProofs.BoolCorrect | part7/code_generator.py:294-299 | With no unary minus inside, a boolean EXPRESSION's code leaves its value, 1 or 0, in `$t6`. The OR chain starts from 0. The code keeps `$sp`, the stack above it and the variables, and writes no register outside `$t0-$t2`, `$t5-$t9`. |
| BoolProofs.Term1Correct | part7/code_generator.py:302-307 | A TERM1's code leaves the AND of its FACT1s in `$t7`, starting from 1, and keeps `$t6`. |
| BoolProofs.Fact1Correct | part7/code_generator.py:310-337 | A FACT1's code leaves its value in `$t8` and keeps `$t6` and `$t7`. |
| BoolProofs.NotCorrect | part7/code_generator.py:311-315 | NOT loads -1, XORs the factor's 0 or 1 into it and masks with 1, which leaves the negation in `$t8`. |
| BoolProofs.NotTruth | part7/code_generator.py:312-315 | `(-1 xor b) and 1` is `1 - b` for b in {0, 1}, on 32-bit words. |
| BoolProofs.CompareCorrect | part7/code_generator.py:316-334 | A comparison parks the left value in `$t5` while the right one is computed. The set-instruction then leaves in `$t8` exactly the truth of `parseOperator` on the two values. |
| BoolProofs.BareCorrect | part7/code_generator.py:335-337 | An EXP2 with no relation reaches its FACT2 through the first TERM2's second child, and moves that factor's value from `$t9` to `$t8`. |
| BoolProofs.Fact2BoolCorrect | part7/code_generator.py:340-348 | A boolean FACT2 leaves its value in `$t9`. A variable's word is loaded; `True` gives 1, and every other BOOLLIT lexeme gives 0. |
| BoolProofs.ParenCorrect | part7/code_generator.py:350-367 | A parenthesised EXPRESSION leaves its value in `$t9`. It is run between a push of `$t6, $t7, $t8` and the pops, which give all three back. |
| BoolProofs.SavedBoolAround | part7/code_generator.py:352-367 | Code that keeps the stack from `$sp` up, run between the three pushes and pops, has its `$t6` result copied to `$t9`. The three saved registers, `$sp` and the caller's stack come back unchanged. |
| BoolProofs.NegationClobbersOr | part7/code_generator.py:458-460 | `True or 1 < -(2)` types as BOOL and is true. Run from all-zero registers, its code still leaves 0 in `$t6`: the negation's `li $t6, 0` wipes the OR accumulator. |
| CodeFacts.SavedAround | part7/code_generator.py:443-455 | Around a parenthesised operand, the push of `$t0, $t1` and the pop in reverse order restore both, and the result comes out in `$t2`. |
| CodeFacts.NegateRuns | part7/code_generator.py:458-460 | Negating a factor uses `$t6` as scratch: it writes `$t6` as well as `$t2`. |
| Control.Open | part7/code_generator.py:120-144 | Opening a construct and closing it straight away gives the stack back with `total` one higher. Inside an open construct `count` and `check` come back too; with none open they move up to the new `total`. |
| Control.Close | part7/code_generator.py:92-118 | Closing pops exactly one tag and keeps `total`. The number steps back by one, or both `count` and `check` jump to `total`. |
| Control.OpenInv | part7/code_generator.py:120-144 | Opening a construct keeps the counter invariant: `count` is `check` plus the number of open constructs, and is `total` when none is open. |
| Control.CloseInv | part7/code_generator.py:92-118 | Closing a construct keeps the invariant. Closing the outermost one brings `count` and `check` up to `total`. |
| Control.MatchingLabels | part7/code_generator.py:92-144 | The number a construct's END writes is the number its opener wrote, when its body opens and closes only IF and WHILE constructs. For an if-else it is the then-branch's END. |
| Control.TopLevelFresh | part7/code_generator.py:120-144 | A construct opened with none open gets `total + 1`. After its END (for an if-else, the then-branch's), `count` and `check` have caught up with the new `total` and the invariant holds. |
| Control.IfElseClosesEnclosing | part7/code_generator.py:50-59 | An if-else's then-branch END writes its opener's number. After the else-branch, the second END finds the enclosing tag on top. Inside a construct it pops that construct and writes its number; at the top level it finds the file tag. |
| Control.SiblingsShareLabel | part7/code_generator.py:92-144 | Two sibling constructs inside a third get the same number. |
| DataPass.DataStep | part7/code_generator.py:11-30 | A DECLARATION is declared, a WRITE statement's expressions are scanned for string literals, an ASSIGNMENT may allocate a string; every other node passes unchanged. |
| DataPass.DataStepKeepsInv | part7/code_generator.py:11-30 | Each node keeps the `.data` invariant, only appends lines, and changes no variable's type. |
| DataPass.Declare | part7/code_generator.py:12-19 | A DECLARATION succeeds exactly when its name has an entry not yet declared. A second declaration is "<id> was declared twice.". Success marks the name declared, changes nothing else, and adds `<id>: .word 0` only for INT and BOOL. |
| DataPass.AllocateStringIdent | part7/code_generator.py:33-38 | A STRING target's right-hand side must type as STRING, or the error names the type it has. An IDENT target gets an `.asciiz` line holding the literal. |
| DataPass.AssignData | part7/code_generator.py:23-30 | A target with no usable entry is "Variable used before declaration.". A non-STRING target writes nothing. |
| DataPass.StringLits | part7/code_generator.py:41-47 | Scanning a WRITE's expressions for literals leaves the table unchanged. |
| DataPass.StringLitsOut | part7/code_generator.py:41-47 | Scanning appends one `.asciiz` line for each STRING-typed expression and nothing else. The number of added lines equals the number of STRING-typed expressions, a repeated literal included. Their texts are those expressions' literals, in order. What was written before is kept. |
| DataPass.StringLitsKeepInv | part7/code_generator.py:41-47 | Scanning keeps the invariant: every literal in the dictionary labels an `.asciiz` line holding it. |
| DataPass.StringLit | part7/code_generator.py:41-47 | A STRING argument's literal gets `string<k>`, with k the dictionary's size before insertion, and is recorded under its text. |
| DataPass.AddLit | part7/code_generator.py:45-47 | The new label uses the old size. Repeating a known literal does not grow the dictionary. |
| DataPass.DataRunKeepsInv | part7/code_generator.py:11-47 | Over the whole pass: no variable gets two `.word` lines, and every `.word` variable is declared. Every literal in the dictionary labels an `.asciiz` line holding that literal. Lines are only appended, and no variable's type changes. |
| DataPass.RepeatedLiteralSharesLabel | part7/code_generator.py:45-47 | A literal written a second time, followed by a new one, gives two `.asciiz` lines with the same label. |
| TextPass.TextStep | part7/code_generator.py:50-84 | END is handled by `EndStep`; a STATEMENT with no children is an IndexError; any node other than END or STATEMENT passes unchanged. |
| TextPass.EndStep | part7/code_generator.py:51-59 | END on an empty stack is an IndexError, and on the file tag it closes the file. On a WHILE tag it writes `j label<count>` and `out<count>`; on an IF tag only `out<count>`. Either way it pops and closes the construct, failing once the file is closed. |
| TextPass.Assign | part7/code_generator.py:271-284 | A target missing from the table is a KeyError, and an entry overwritten by `read_ids` is a TypeError. A target whose declared flag is 0 is the "Use of variable ... without declaration." error. A STRING target writes nothing; otherwise the table, the counter and the file state are unchanged. |
| TextPass.AssignCode | part7/code_generator.py:276-282 | A successful assignment to a non-STRING variable appends the expression's code and a store of `$t0` (INT) or `$t6` (BOOL). |
| TextPass.ReadIds | part7/code_generator.py:150-164 | Succeeds exactly when the file is open and every identifier has a name. The counter and the literal labels are untouched. After what was written before come the id-list comment and then one block per identifier, in order. Each block prompts with `prompt_int`, reads an integer with syscall 5 and stores `$v0` into that identifier. |
| TextPass.ReadEach | part7/code_generator.py:151-164 | Every variable read has its table entry overwritten with 1. Every entry of a name not read is unchanged, and no entry is dropped. |
| TextPass.ReadEachOut | part7/code_generator.py:152-163 | READ appends exactly six instructions per identifier after what was written before. The j-th six are the prompt, the read and the `sw` into the j-th identifier. |
| TextPass.WriteIds | part7/code_generator.py:167-200 | A closed file is a ValueError. Otherwise it succeeds exactly when every expression types and has code. The output is then what was written before, the expression-list comment, and each expression's block followed by a line feed, in order. |
| TextPass.WriteEach | part7/code_generator.py:168-200 | Writing leaves the table, the counter, the literal labels and the file state unchanged. |
| TextPass.WriteEachExtends | part7/code_generator.py:168-200 | The expressions' code is appended after what was written before. |
| TextPass.WriteEachBlocks | part7/code_generator.py:168-200 | Writing succeeds exactly when every expression types and has code. The output is then what was written before followed by each expression's block and a line feed (`addi $a0, $zero, 0xA`, `addi $v0, $zero, 0xB`, `syscall`), one expression after another. |
| TextPass.WriteEachOk | part7/code_generator.py:168-200 | Writing succeeds exactly when every expression's block, computed from the table and the literal labels, succeeds. |
| TextPass.WriteEachOut | part7/code_generator.py:168-200 | A successful write appends the blocks with their line feeds in the expressions' order. |
| TextPass.WriteOne | part7/code_generator.py:170-200 | INT prints `$t0` and BOOL prints `$t6` with syscall 1 after the expression's code. Anything else prints a string with syscall 4, from the IDENT's name or from the label the literal was given. A literal given no label is a KeyError. |
| TextPass.LitLookup | part7/code_generator.py:194-196 | A literal's label is found exactly when the literal is in the dictionary, and otherwise it is a KeyError. |
| TextPass.IfStep | part7/code_generator.py:70-135 | A non-BOOL condition is "Non-bool expression for if condition.". More than four children make an if-else. The construct is opened, and the code branches to `out<k>` with k the opened number; an if-else then also jumps to `out<k>`. |
| TextPass.WhileStep | part7/code_generator.py:80-144 | A non-BOOL condition is "Non-bool expression for while loop condition.". The code is `label<k>`, the condition, and a branch to `out<k>`. |
| TextPass.TextRunKeepsInv | part7/code_generator.py:50-144 | The whole text pass keeps the label counter's invariant. |
| TextPass.ClosedRunWritesNothing | part7/code_generator.py:53-54 | Once END has closed the file, the rest of the pass writes nothing and the file stays closed. |
| TextPass.EndMatchesOpen | part7/code_generator.py:92-144 | The first END after an IF, WHILE or if-else opener, past IF and WHILE constructs that each close, writes `out<k>` (and a WHILE's `j label<k>`), with k the number the opener branched to. For an if-else this is the then-branch's END. |
| TextPass.IfElseEndsLoop | part7/code_generator.py:50-59 | Inside a WHILE, the two ENDs of an if-else write its `out<k>` and then the loop's `j label<c>` and `out<c>`, closing the loop in the middle of its body. |
| TextPass.IfElseEndsFile | part7/code_generator.py:50-59 | At the top level, the else-branch's END of an if-else closes the output file, and a WRITE after the if-else raises ValueError. |
| TextPass.ReadThenAssignCrashes | part7/code_generator.py:150-284 | After `read(x)`, assigning to `x` is a TypeError, because the entry was overwritten with 1. |
| TextPass.IfElseBothExitsMeet | part7/code_generator.py:128-135 | An if-else's condition code ends with `bne ..., out<k>` followed by `j out<k>`, so both outcomes reach the same label. |
| TextProofs.WriteIntLoadsValue | part7/code_generator.py:172-179 | Before its syscall, the WRITE of an INT expression has `$v0 == 1` and the expression's value in `$a0`. The variables are untouched. |
| TextProofs.AssignIntStores | part7/code_generator.py:276-282 | The code for an INT variable assigned an INT expression stores the expression's value in that variable and no other. |

## Left out

- The lexer and the `tree` class are not part of this model. Tokens and
  nodes are plain datatypes with the fields the parser uses.
- `part7/compiler.py`, the driver, is left out: argument parsing, file
  opening, `print(t)`, the fixed `.data`/`.text` headers and the prompt
  string. Its literal initial state, `{"count": 0}` with an empty stack,
  has neither `total`, `check` nor the `-1` file tag that `generate_text`
  needs. The passes therefore take their starting state as a parameter, and
  `Control.InitialInv` names the state the counter invariant starts from.
- The dead `PRIMARY` function of the parser is left out. So are the unused
  `declaration` and `check_if_var_init` of the generator.
- Text rendering is not modelled. This covers tabs, blank lines, comment
  prefixes and hexadecimal immediates (`0xA` is 10), and the
  `getTokenLineInfo` suffix; a `SyntaxError` keeps the token instead.
  `Parser.Text` gives each syntax error's message text.
- Output written before an error is not kept. An error returns only the
  error.
- A write to the closed output file is a `ValueError`, checked at each
  step's first write. No step closes the file part way through, so this is
  the step that fails.
- Mips.Exec is an interpreter for straight-line code only. Jumps, branches,
  `la` and `syscall` stop it, which is why the WRITE lemma stops before the
  syscall. Registers hold unbounded integers: the 32-bit wrap-around of
  `add`, `sub` and `mult`, and the HI half of `mult`, are not modelled.
  Bitwise operations act on the low 32 bits.
- BoolProofs.BoolCorrect holds only for expressions with no unary minus
  anywhere inside, comparisons' integer operands included. The negation of
  `solve_fact2` zeroes `$t6`, and that register also holds the OR
  accumulator. With a unary minus the code can compute the wrong value, and
  `BoolProofs.NegationClobbersOr` exhibits such an input.
- BoolProofs.BoolCorrect also assumes that every BOOL variable holds the
  word 0 or 1. `EvalBool` has no value for an expression that reads any
  other word.
- TextProofs.WriteIntLoadsValue covers INT expressions only. BOOL and
  string WRITEs are described by `TextPass.WriteOne` but not executed.
- TextProofs.AssignIntStores covers INT variables assigned INT expressions.
  It leaves out a BOOL variable, whose `$t6` store is described by
  `TextPass.Assign`, and a mismatched right-hand side.
- Control.MatchingLabels covers construct bodies that open and close only
  IF and WHILE constructs. An if-else has two PROGRAM children, each ending
  in an END, and its second END closes the enclosing construct
  (`Control.IfElseClosesEnclosing`), so a body holding an if-else does not
  balance and its END does not write its opener's number.
- Control.TopLevelFresh has the same restriction on the body, and for an
  if-else it speaks of the then-branch's END only.
- TextPass.EndMatchesOpen has the same restriction on the statements
  between the opener and the END.
- TextPass.IfElseEndsLoop and TextPass.IfElseEndsFile start from the state
  an if-else's `IfStep` leaves, which `TextPass.IfStep` states, and have no
  statements between the ENDs.
- Parser.SimpleStatement states the semicolon ending. Parser.Statement
  states only the dispatch, the STATEMENT node and the table, because the
  semicolon property does not hold for IF and WHILE.

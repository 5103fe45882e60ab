/**
 * The label counter of the text pass (`programCountDict` and `ifWhileStack`).
 * `start_if`, `start_if_else` and `start_while` open a construct: they bump
 * `count` and `total` and push the construct's tag (1, 2 or 0). `finish_*`
 * closes one: it pops the tag, uses `count` as the `out` label number,
 * decrements `count`, and when `count` falls back to `check` it moves both
 * `count` and `check` up to `total`.
 */
module Control {

  datatype GenState = GenState(count: int, total: int, check: int, stack: seq<int>)

  const WhileTag := 0
  const IfTag := 1
  const IfElseTag := 2
  /** The bottom-of-stack tag, on which END closes the output file. */
  const FileTag := -1

  /**
   * `start_*`: push the tag and move `count` and `total` on. Closing the
   * construct straight away gives the stack back. Inside an open construct
   * it gives the counter back as well; with none open, `count` and `check`
   * move up to the new `total`.
   */
  function Open(st: GenState, tag: int): (r: GenState)
    ensures |r.stack| == |st.stack| + 1
    ensures Close(r).stack == st.stack && Close(r).total == st.total + 1
    ensures st.count != st.check ==> Close(r).count == st.count && Close(r).check == st.check
    ensures st.count == st.check ==> Close(r).count == r.total && Close(r).check == r.total
  {
    var r := GenState(st.count + 1, st.total + 1, st.check, st.stack + [tag]);
    assert r.stack[..|r.stack| - 1] == st.stack;
    r
  }

  /**
   * `finish_*`: pop one tag and step `count` back by one; when that brings
   * it down to `check`, both jump to `total`. `total` never moves back.
   */
  function Close(st: GenState): (r: GenState)
    requires |st.stack| > 0
    ensures r.stack == st.stack[..|st.stack| - 1] && r.total == st.total
    ensures r.count == st.count - 1 || (r.count == st.total && r.check == st.total)
  {
    var popped := st.stack[..|st.stack| - 1];
    var c := st.count - 1;
    if c == st.check then GenState(st.total, st.total, st.total, popped)
    else GenState(c, st.total, st.check, popped)
  }

  /** The label number a construct's `start_*` writes after opening it. */
  function OpenLabel(st: GenState, tag: int): (k: int)
    ensures k == Open(st, tag).count
  {
    st.count + 1
  }

  /**
   * The counter invariant: the file tag at the bottom, construct tags above
   * it, `count` is `check` plus the number of open constructs, and with no
   * construct open `count` has caught up with `total`.
   */
  predicate Inv(st: GenState) {
    && |st.stack| >= 1 && st.stack[0] == FileTag
    && (forall k | 1 <= k < |st.stack| :: st.stack[k] in {WhileTag, IfTag, IfElseTag})
    && st.count == st.check + (|st.stack| - 1)
    && st.count <= st.total
    && (|st.stack| == 1 ==> st.count == st.total)
  }

  /** The state the driver is meant to start from. */
  lemma InitialInv()
    ensures Inv(GenState(0, 0, 0, [FileTag]))
  {
  }

  lemma OpenInv(st: GenState, tag: int)
    requires Inv(st) && tag in {WhileTag, IfTag, IfElseTag}
    ensures Inv(Open(st, tag)) && |Open(st, tag).stack| == |st.stack| + 1
  {
    var r := Open(st, tag);
    assert forall k | 1 <= k < |st.stack| :: r.stack[k] == st.stack[k];
  }

  lemma CloseInv(st: GenState)
    requires Inv(st) && |st.stack| >= 2
    ensures Inv(Close(st)) && Close(st).stack == st.stack[..|st.stack| - 1]
    ensures Close(st).total == st.total
    ensures |st.stack| > 2 ==> Close(st).count == st.count - 1 && Close(st).check == st.check
    ensures |st.stack| == 2 ==> Close(st).count == st.total && Close(st).check == st.total
  {
  }

  /**
   * A nest of IF and WHILE constructs, each with the constructs of its body.
   * Each of them ends at exactly one END. An if-else is not one of them: it
   * has two PROGRAM children, each ending in its own END, and the second END
   * closes whatever encloses the if-else (`IfElseClosesEnclosing`).
   */
  datatype Construct = Construct(tag: int, body: seq<Construct>)

  predicate WfConstruct(c: Construct)
    decreases c
  {
    c.tag in {WhileTag, IfTag} && forall k | 0 <= k < |c.body| :: WfConstruct(c.body[k])
  }

  /**
   * A construct that its first END closes: any opener, with a body of IF and
   * WHILE constructs. For an if-else that END is the then-branch's.
   */
  predicate Closable(c: Construct) {
    c.tag in {WhileTag, IfTag, IfElseTag} && forall k | 0 <= k < |c.body| :: WfConstruct(c.body[k])
  }

  /** The state after opening `c`, running its body, and closing it at its END. */
  function RunOne(st: GenState, c: Construct): (r: GenState)
    decreases c, 1
    ensures r.stack == st.stack && r.total >= st.total
  {
    var inner := RunAll(Open(st, c.tag), c.body);
    Close(inner)
  }

  function RunAll(st: GenState, cs: seq<Construct>): (r: GenState)
    decreases cs
    ensures r.stack == st.stack && r.total >= st.total
  {
    if |cs| == 0 then st else RunAll(RunOne(st, cs[0]), cs[1..])
  }

  /** The label number `finish_*` writes when `c` is closed. */
  function CloseLabel(st: GenState, c: Construct): int {
    RunAll(Open(st, c.tag), c.body).count
  }

  /**
   * Inside an open construct a balanced sequence of constructs leaves
   * `count` and `check` as it found them (only `total` grows).
   */
  lemma {:induction false} RunAllNested(st: GenState, cs: seq<Construct>)
    requires Inv(st) && |st.stack| >= 2
    requires forall k | 0 <= k < |cs| :: WfConstruct(cs[k])
    ensures Inv(RunAll(st, cs))
    ensures RunAll(st, cs).count == st.count && RunAll(st, cs).check == st.check
    decreases cs
  {
    if |cs| > 0 {
      RunOneNested(st, cs[0]);
      RunAllNested(RunOne(st, cs[0]), cs[1..]);
    }
  }

  lemma {:induction false} RunOneNested(st: GenState, c: Construct)
    requires Inv(st) && |st.stack| >= 2 && WfConstruct(c)
    ensures Inv(RunOne(st, c))
    ensures RunOne(st, c).count == st.count && RunOne(st, c).check == st.check
    decreases c
  {
    OpenInv(st, c.tag);
    RunAllNested(Open(st, c.tag), c.body);
    CloseInv(RunAll(Open(st, c.tag), c.body));
  }

  /**
   * A construct's END writes the number its opener wrote, when the body
   * opens and closes only IF and WHILE constructs. For an if-else this END
   * is the then-branch's.
   */
  lemma MatchingLabels(st: GenState, c: Construct)
    requires Inv(st) && Closable(c)
    ensures CloseLabel(st, c) == OpenLabel(st, c.tag)
    ensures Inv(RunOne(st, c))
  {
    OpenInv(st, c.tag);
    RunAllNested(Open(st, c.tag), c.body);
    CloseInv(RunAll(Open(st, c.tag), c.body));
  }

  /**
   * A construct opened at the top level gets `total + 1`, a number no
   * construct has used yet, and its END leaves `count == check == total`.
   */
  lemma TopLevelFresh(st: GenState, c: Construct)
    requires Inv(st) && |st.stack| == 1 && Closable(c)
    ensures OpenLabel(st, c.tag) == st.total + 1
    ensures var r := RunOne(st, c); r.count == r.total && r.check == r.total && Inv(r)
  {
    OpenInv(st, c.tag);
    RunAllNested(Open(st, c.tag), c.body);
    CloseInv(RunAll(Open(st, c.tag), c.body));
  }

  /**
   * An if-else's then-branch END closes the if-else with the number its
   * opener wrote. After the else-branch, its END finds the enclosing tag on
   * top. Inside a construct it closes that construct early, writing the
   * enclosing number. At the top level it finds the file tag.
   */
  lemma IfElseClosesEnclosing(st: GenState, thenCs: seq<Construct>, elseCs: seq<Construct>)
    requires Inv(st) && Closable(Construct(IfElseTag, thenCs))
    requires forall k | 0 <= k < |elseCs| :: WfConstruct(elseCs[k])
    ensures CloseLabel(st, Construct(IfElseTag, thenCs)) == OpenLabel(st, IfElseTag)
    ensures var e := RunAll(RunOne(st, Construct(IfElseTag, thenCs)), elseCs);
      && e.stack == st.stack
      && (|st.stack| == 1 ==> e.stack == [FileTag])
      && (|st.stack| >= 2 ==> e.count == st.count && Inv(Close(e)) && Close(e).stack == st.stack[..|st.stack| - 1])
  {
    var c := Construct(IfElseTag, thenCs);
    MatchingLabels(st, c);
    var a := RunOne(st, c);
    if |st.stack| >= 2 {
      OpenInv(st, IfElseTag);
      RunAllNested(Open(st, IfElseTag), thenCs);
      CloseInv(RunAll(Open(st, IfElseTag), thenCs));
      RunAllNested(a, elseCs);
      CloseInv(RunAll(a, elseCs));
    }
  }

  /**
   * Label numbers are not unique: inside an open construct A, a construct B
   * and a later sibling C get the same number.
   */
  lemma SiblingsShareLabel()
    ensures var st0 := GenState(0, 0, 0, [FileTag]);
            var a := Open(st0, WhileTag);
            var b := Construct(IfTag, []);
            var c := Construct(IfTag, []);
            OpenLabel(a, b.tag) == 2 && OpenLabel(RunOne(a, b), c.tag) == 2
  {
  }
}

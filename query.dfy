/**
 * A compiled query: the whole input read as one expression, and the
 * expression asked of an element as a yes-or-no question.
 */
module Queries {
  import opened Ints
  import opened Syntax
  import opened Elements
  import opened Evaluation
  import opened Unparse

  datatype Query = Query(compiled: Expr)

  datatype QueryError =
    | SyntaxError
    | EvalFailure(cause: EvalError)
    | NotBoolean(found: Value)

  /** Only whitespace. */
  predicate Blank(w: string) {
    forall q :: 0 <= q < |w| ==> IsSpace(w[q])
  }

  /**
   * Compiles `input`: an expression from its first character, then
   * optional whitespace, then the end of the input.
   */
  function New(input: string): (r: Result<Query, QueryError>)
    ensures r.Ok? <==> Parse(input, 0).Parsed? && Blank(input[Parse(input, 0).pos..])
    ensures r.Ok? ==> r.value.compiled == Parse(input, 0).value
    ensures r.Err? ==> r.error == SyntaxError
  {
    match Parse(input, 0)
    case NoParse => Err(SyntaxError)
    case Parsed(e, j) =>
      if SkipSpace(input, j) == |input| then
        SkippedSpace(input, j);
        Ok(Query(e))
      else
        BlankSkipped(input, j);
        Err(SyntaxError)
  }

  /** Skipping over a blank rest reaches the end. */
  lemma BlankSkipped(s: string, j: nat)
    requires j <= |s|
    ensures Blank(s[j..]) ==> SkipSpace(s, j) == |s|
  {
    if Blank(s[j..]) {
      assert forall q :: j <= q < |s| ==> s[q] == s[j..][q - j];
      SkipBlank(s, j, |s|);
    }
  }

  /** The query's answer for `el`: its value, which must be a boolean. */
  function EvaluateOn(q: Query, el: Element): (r: Result<bool, QueryError>)
    ensures r.Ok? <==> Eval(q.compiled, el).Ok? && Eval(q.compiled, el).value.Bool?
    ensures r.Ok? ==> Eval(q.compiled, el) == Ok(Bool(r.value))
    ensures Eval(q.compiled, el).Err? ==> r == Err(EvalFailure(Eval(q.compiled, el).error))
  {
    match Eval(q.compiled, el)
    case Err(err) => Err(EvalFailure(err))
    case Ok(v) => if v.Bool? then Ok(v.b) else Err(NotBoolean(v))
  }

  // ---------------------------------------------------------------------
  // Compiling printed expressions
  // ---------------------------------------------------------------------

  /** Skipping from anywhere inside a run of whitespace ends where skipping from its start does. */
  lemma {:induction false} SkipBlank(s: string, i: nat, j: nat)
    requires i <= j <= |s|
    requires forall q :: i <= q < j ==> IsSpace(s[q])
    ensures SkipSpace(s, i) == SkipSpace(s, j)
    decreases j - i
  {
    if i < j {
      SkipBlank(s, i + 1, j);
    }
  }

  /** Whitespace up to the end of the input ends every level. */
  lemma StopAtBlankEnd(s: string, j: nat, k: nat)
    requires j <= |s| && forall q :: j <= q < |s| ==> IsSpace(s[q])
    ensures Stop(s, j, k)
  {
    SkipBlank(s, j, |s|);
    forall m | k <= m < 13
      ensures !TagAhead(s, j, m)
    {
      RungShape(m);
    }
  }

  /**
   * A printable expression, with whitespace before and after it, is read
   * back whole, up to the whitespace after it.
   */
  lemma ParsePrinted(e: Expr, before: string, after: string)
    requires Printable(e, 0) && Blank(before) && Blank(after)
    ensures Parse(before + Print(e, 0) + after, 0) == Parsed(e, |before| + |Print(e, 0)|)
  {
    hide *;
    LevelReadsPrinted(e, before, after);
    ParseIsLevel(before + Print(e, 0) + after, 0);
  }

  lemma ParseIsLevel(s: string, i: nat)
    requires i <= |s|
    ensures Parse(s, i) == Level(0, s, i)
  {
  }

  lemma LevelReadsPrinted(e: Expr, before: string, after: string)
    requires Printable(e, 0) && Blank(before) && Blank(after)
    ensures Level(0, before + Print(e, 0) + after, 0) == Parsed(e, |before| + |Print(e, 0)|)
  {
    hide *;
    var t := Print(e, 0);
    var s := before + t + after;
    var i, j := |before|, |before| + |t|;
    PaddedText(before, t, after);
    LadderSize();
    StopAtBlankEnd(s, j, 0);
    RoundTrip(0, e, s, i);
    SkipBlank(s, 0, i);
    LevelSkipsSpace(0, s, 0);
    LevelSkipsSpace(0, s, i);
  }

  /** Where the parts of a text padded with whitespace lie. */
  lemma PaddedText(before: string, t: string, after: string)
    requires Blank(before) && Blank(after)
    ensures var s := before + t + after;
      && Tag(s, |before|, t)
      && (forall q :: 0 <= q < |before| ==> IsSpace(s[q]))
      && (forall q :: |before| + |t| <= q < |s| ==> IsSpace(s[q]))
  {
    var s := before + t + after;
    var i, j := |before|, |before| + |t|;
    assert s[i..j] == t;
    assert forall q :: 0 <= q < i ==> s[q] == before[q];
    assert forall q :: j <= q < |s| ==> s[q] == after[q - j];
  }

  /**
   * Every printable expression, with any whitespace around it, compiles
   * back to itself.
   */
  lemma NewAcceptsPrinted(e: Expr, before: string, after: string)
    requires Printable(e, 0) && Blank(before) && Blank(after)
    ensures New(before + Print(e, 0) + after) == Ok(Query(e))
  {
    var s := before + Print(e, 0) + after;
    var j := |before| + |Print(e, 0)|;
    ParsePrinted(e, before, after);
    assert forall q :: j <= q < |s| ==> s[q] == after[q - j];
    SkipBlank(s, j, |s|);
  }

  /**
   * Whitespace after a binary operator, and parentheses around its right
   * operand, do not change what is read: the text of `l`, the spaced tag
   * of `op`, a run of whitespace, and `r` bare or in parentheses is read as
   * `l op r`, whole.
   */
  lemma ReadBinary(op: BinaryOperator, l: Expr, r: Expr, gap: string, parens: bool)
    requires Printable(l, BinaryLevel(op) + 1) && Printable(r, BinaryLevel(op) + 1) && Blank(gap)
    ensures var p := BinaryLevel(op);
      var rt := if parens then "(" + Print(r, 0) + ")" else Print(r, p + 1);
      var s := Print(l, p + 1) + (" " + Ladder[p].tag + " ") + gap + rt;
      Parse(s, 0) == Parsed(BinaryOp(op, l, r), |s|)
  {
    hide *;
    LadderSize();
    var p := BinaryLevel(op);
    var tag := Ladder[p].tag;
    var lt := Print(l, p + 1);
    var rt := if parens then "(" + Print(r, 0) + ")" else Print(r, p + 1);
    var s := lt + (" " + tag + " ") + gap + rt;
    var e := BinaryOp(op, l, r);
    TagsAreOperators(p);
    RightOperandFirst(r, p, parens);
    OperandText(lt, tag, gap, rt);
    ReadLeftOperand(op, l, s, gap, rt);
    ReadRightOperand(op, r, s, |lt|, gap, parens);
    StopAtBlankEnd(s, |s|, 0);
    StopAtBlankEnd(s, |s|, p);
    FoldStep(p, op, l, s, |lt|, r, |s|);
    FoldStops(p, e, s, |s|);
    LiftBinaries(0, p, s, 0, e, |s|);
    ParseIsLevel(s, 0);
  }

  /** The first operand of a binary expression is read up to the spaced operator, and the fold starts there. */
  lemma ReadLeftOperand(op: BinaryOperator, l: Expr, s: string, gap: string, rt: string)
    requires Printable(l, BinaryLevel(op) + 1)
    requires s == Print(l, BinaryLevel(op) + 1) + (" " + Ladder[BinaryLevel(op)].tag + " ") + gap + rt
    ensures var p := BinaryLevel(op);
      Level(p, s, 0) == Fold(p, l, s, |Print(l, p + 1)|)
  {
    hide *;
    LadderSize();
    var p := BinaryLevel(op);
    var tag := Ladder[p].tag;
    var lt := Print(l, p + 1);
    LeftText(lt, " " + tag + " ", gap, rt);
    StopBeforeOperator(s, |lt|, p);
    RoundTrip(p + 1, l, s, 0);
    BinaryLevelFolds(p, s, 0);
  }

  lemma LeftText(lt: string, mid: string, gap: string, rt: string)
    ensures Tag(lt + mid + gap + rt, 0, lt) && Tag(lt + mid + gap + rt, |lt|, mid)
  {
    var s := lt + mid + gap + rt;
    assert s[..|lt|] == lt;
    assert s[|lt|..|lt| + |mid|] == mid;
  }

  /** After the operator and any whitespace, the second operand is read to the end. */
  lemma ReadRightOperand(op: BinaryOperator, r: Expr, s: string, a: nat, gap: string, parens: bool)
    requires Printable(r, BinaryLevel(op) + 1) && Blank(gap)
    requires var p := BinaryLevel(op);
      var rt := if parens then "(" + Print(r, 0) + ")" else Print(r, p + 1);
      a + |Ladder[p].tag| + 2 + |gap| + |rt| == |s|
      && (forall q :: a + 1 + |Ladder[p].tag| <= q < a + |Ladder[p].tag| + 2 + |gap| ==> IsSpace(s[q]))
      && Tag(s, a + |Ladder[p].tag| + 2 + |gap|, rt)
    ensures var p := BinaryLevel(op);
      Level(p + 1, s, a + 1 + |Ladder[p].tag|) == Parsed(r, |s|)
  {
    hide *;
    LadderSize();
    var p := BinaryLevel(op);
    var tag := Ladder[p].tag;
    var rt := if parens then "(" + Print(r, 0) + ")" else Print(r, p + 1);
    var c := a + |tag| + 2 + |gap|;
    RightOperandFirst(r, p, parens);
    TagChar(s, c, rt, 0);
    SkipBlank(s, a + 1 + |tag|, c);
    SkipSpaceAt(s, c);
    LevelSkipsSpace(p + 1, s, a + 1 + |tag|);
    StopAtBlankEnd(s, |s|, p + 1);
    if parens {
      PrintableAnyLevel(r, p + 1, 0);
      assert c + |Print(r, 0)| + 2 == |s|;
      ParenRoundTrip(p + 1, r, s, c);
    } else {
      RoundTrip(p + 1, r, s, c);
    }
  }

  /** Where the parts of a binary expression's text lie. */
  lemma OperandText(lt: string, tag: string, gap: string, rt: string)
    requires Blank(gap) && |tag| > 0 && !IsSpace(tag[0])
    ensures var s := lt + (" " + tag + " ") + gap + rt;
      var a, c := |lt|, |lt| + |tag| + 2 + |gap|;
      && SkipSpace(s, a) == a + 1 && Tag(s, a + 1, tag)
      && Tag(s, c, rt) && c + |rt| == |s|
      && (forall q :: a + 1 + |tag| <= q < c ==> IsSpace(s[q]))
  {
    var mid := " " + tag + " ";
    var s := lt + mid + gap + rt;
    var a, c := |lt|, |lt| + |tag| + 2 + |gap|;
    assert s[a + 1..a + 1 + |tag|] == tag;
    assert s[c..] == rt;
    assert forall q :: a + |mid| <= q < c ==> s[q] == gap[q - a - |mid|];
    assert s[a + 1 + |tag|] == mid[1 + |tag|];
    SkipOneSpace(s, a);
  }

  /** The text of a right operand does not start with whitespace. */
  lemma RightOperandFirst(r: Expr, p: nat, parens: bool)
    requires p < 13 && Printable(r, p + 1)
    ensures var rt := if parens then "(" + Print(r, 0) + ")" else Print(r, p + 1);
      |rt| > 0 && !IsSpace(rt[0])
  {
    if !parens {
      PrintFirst(r, p + 1);
    }
  }

  /** A compiled query answers only when its expression is of boolean kind; without arithmetic it always answers. */
  lemma EvaluateOnKinds(q: Query, el: Element)
    ensures EvaluateOn(q, el).Ok? ==> TypeOf(q.compiled) == Some(KBool)
    ensures TypeOf(q.compiled) == Some(KBool) && ArithmeticFree(q.compiled) ==> EvaluateOn(q, el).Ok?
    ensures EvaluateOn(q, el).Err? && EvaluateOn(q, el).error.NotBoolean? ==>
      TypeOf(q.compiled) == Some(KindOf(EvaluateOn(q, el).error.found)) != Some(KBool)
  {
    if TypeOf(q.compiled).Some? && ArithmeticFree(q.compiled) {
      WellTypedEvaluates(q.compiled, el);
    }
  }
}

/**
 * The query language's abstract syntax and its character-level
 * recursive-descent parser.
 *
 * Parsers work on the whole input `s` and a position `i` in it, and either
 * succeed with a value and the position after what they consumed or fail.
 * Every failure is recoverable: an alternative or a repetition that meets
 * one tries its next option from the same position. Tokens are matched as
 * string prefixes after optional whitespace; nothing skips whitespace after
 * a token.
 */
module Syntax {
  import opened Ints

  datatype BinaryOperator =
    | Or | And
    | Equal | NotEqual | LessThan | LessEqual | GreaterThan | GreaterEqual
    | InSet
    | Plus | Minus | Multiply | Divide

  datatype UnaryOperator = Not | Minus

  /** A query expression; a set literal keeps its members in written order. */
  datatype Expr =
    | LBool(b: bool)
    | LInt(n: i32)
    | LSet(items: seq<Expr>)
    | Symbol(name: string)
    | BinaryOp(bop: BinaryOperator, left: Expr, right: Expr)
    | UnaryOp(uop: UnaryOperator, operand: Expr)

  /** What a parser started at some position produced. */
  datatype PResult<T> = Parsed(value: T, pos: nat) | NoParse

  // ---------------------------------------------------------------------
  // Characters and tokens
  // ---------------------------------------------------------------------

  predicate IsSpace(c: char) {
    c == ' ' || c == '\t' || c == '\r' || c == '\n'
  }

  predicate IsAlpha(c: char) {
    'a' <= c <= 'z' || 'A' <= c <= 'Z'
  }

  predicate IsDigit(c: char) {
    '0' <= c <= '9'
  }

  predicate IsIdentChar(c: char) {
    IsAlpha(c) || IsDigit(c) || c == '_'
  }

  /** Skips zero or more whitespace characters. */
  function SkipSpace(s: string, i: nat): (j: nat)
    requires i <= |s|
    ensures i <= j <= |s|
    ensures j == |s| || !IsSpace(s[j])
    decreases |s| - i
  {
    if i < |s| && IsSpace(s[i]) then SkipSpace(s, i + 1) else i
  }

  /** Everything skipped is whitespace. */
  lemma {:induction false} SkippedSpace(s: string, i: nat)
    requires i <= |s|
    ensures forall k :: i <= k < SkipSpace(s, i) ==> IsSpace(s[k])
    decreases |s| - i
  {
    if i < |s| && IsSpace(s[i]) {
      SkippedSpace(s, i + 1);
    }
  }

  /** The text at position `i` starts with `t`. */
  predicate Tag(s: string, i: nat, t: string) {
    i + |t| <= |s| && s[i..i + |t|] == t
  }

  // ---------------------------------------------------------------------
  // The precedence ladder
  // ---------------------------------------------------------------------

  /** One level of the ladder: a left-folded binary operator or a prefix operator. */
  datatype Rung =
    | BinaryRung(tag: string, bop: BinaryOperator)
    | UnaryRung(tag: string, uop: UnaryOperator)

  /** The operator levels from the loosest (index 0) to the tightest; below them are the primaries. */
  const Ladder: seq<Rung> := [
    BinaryRung("||", Or),
    BinaryRung("&&", And),
    BinaryRung("==", Equal),
    BinaryRung("!=", NotEqual),
    BinaryRung("<", LessThan),
    BinaryRung("<=", LessEqual),
    BinaryRung(">", GreaterThan),
    BinaryRung(">=", GreaterEqual),
    BinaryRung("in", InSet),
    BinaryRung("+", Plus),
    BinaryRung("-", BinaryOperator.Minus),
    BinaryRung("*", Multiply),
    BinaryRung("/", Divide),
    UnaryRung("!", Not),
    UnaryRung("-", UnaryOperator.Minus)
  ]

  /** The level of the primaries, tighter than every operator. */
  const PrimaryLevel := 15

  lemma LadderShape()
    ensures |Ladder| == PrimaryLevel
    ensures forall k :: 0 <= k < |Ladder| ==> |Ladder[k].tag| > 0
    ensures forall k :: 0 <= k < |Ladder| ==> (Ladder[k].BinaryRung? <==> k < 13)
  {
  }

  /** The shape of one rung. */
  lemma RungShape(k: nat)
    requires k < PrimaryLevel
    ensures |Ladder[k].tag| > 0 && (Ladder[k].BinaryRung? <==> k < 13)
  {
  }

  // ---------------------------------------------------------------------
  // Expressions
  // ---------------------------------------------------------------------

  /** The whole grammar: an expression at the loosest level. */
  function Parse(s: string, i: nat): (r: PResult<Expr>)
    requires i <= |s|
    ensures r.Parsed? ==> i < r.pos <= |s|
    decreases |s| - i, 3 + PrimaryLevel
  {
    Level(0, s, i)
  }

  /**
   * An expression at ladder level `k`. A binary level parses one operand of
   * the next tighter level and then folds further `tag operand` pairs onto
   * it from the left; a prefix level tries its tag followed by an operand of
   * the next tighter level and, failing that, the next tighter level alone.
   */
  function Level(k: nat, s: string, i: nat): (r: PResult<Expr>)
    requires k <= PrimaryLevel && i <= |s|
    ensures r.Parsed? ==> i < r.pos <= |s|
    decreases |s| - i, 2 + PrimaryLevel - k
  {
    if k == PrimaryLevel then Primary(s, i)
    else
      RungShape(k);
      match Ladder[k]
      case BinaryRung(t, op) =>
        (match Level(k + 1, s, i)
         case NoParse => NoParse
         case Parsed(init, j) => Fold(k, init, s, j))
      case UnaryRung(t, op) =>
        var j := SkipSpace(s, i);
        var prefixed := if Tag(s, j, t) then Level(k + 1, s, j + |t|) else NoParse;
        if prefixed.Parsed? then Parsed(UnaryOp(op, prefixed.value), prefixed.pos)
        else Level(k + 1, s, i)
  }

  /** Zero or more `tag operand` pairs after `acc`, each folded in as the new right operand. */
  function Fold(k: nat, acc: Expr, s: string, i: nat): (r: PResult<Expr>)
    requires k < PrimaryLevel && Ladder[k].BinaryRung? && i <= |s|
    ensures r.Parsed? && r.pos >= i
    ensures r.pos <= |s|
    decreases |s| - i, 0
  {
    RungShape(k);
    var t := Ladder[k].tag;
    var j := SkipSpace(s, i);
    if !Tag(s, j, t) then Parsed(acc, i)
    else
      match Level(k + 1, s, j + |t|)
      case NoParse => Parsed(acc, i)
      case Parsed(item, p) => Fold(k, BinaryOp(Ladder[k].bop, acc, item), s, p)
  }

  /** The primaries, tried in order: parenthesised expression, set, boolean, integer, symbol. */
  function Primary(s: string, i: nat): (r: PResult<Expr>)
    requires i <= |s|
    ensures r.Parsed? ==> i < r.pos <= |s|
    decreases |s| - i, 1
  {
    var p := Parenthesised(s, i);
    if p.Parsed? then p
    else
      var st := LiteralSet(s, i);
      if st.Parsed? then st
      else
        var b := LiteralBool(s, i);
        if b.Parsed? then b
        else
          var n := LiteralInt(s, i);
          if n.Parsed? then n
          else ParseSymbol(s, i)
  }

  function Parenthesised(s: string, i: nat): (r: PResult<Expr>)
    requires i <= |s|
    ensures r.Parsed? ==> i < r.pos <= |s|
    decreases |s| - i, 0
  {
    var j := SkipSpace(s, i);
    if !Tag(s, j, "(") then NoParse
    else
      match Parse(s, j + 1)
      case NoParse => NoParse
      case Parsed(e, p) =>
        var q := SkipSpace(s, p);
        if Tag(s, q, ")") then Parsed(e, q + 1) else NoParse
  }

  /** `{` then zero or more comma-separated expressions then `}`. */
  function LiteralSet(s: string, i: nat): (r: PResult<Expr>)
    requires i <= |s|
    ensures r.Parsed? ==> i < r.pos <= |s|
    decreases |s| - i, 0
  {
    var j := SkipSpace(s, i);
    if !Tag(s, j, "{") then NoParse
    else
      var (items, p) := SetItems(s, j + 1);
      var q := SkipSpace(s, p);
      if Tag(s, q, "}") then Parsed(LSet(items), q + 1) else NoParse
  }

  /**
   * A possibly empty list of expressions separated by `,`, with no
   * whitespace allowed before a comma. It never fails: it stops before the
   * first expression or the first separator whose expression does not
   * parse.
   */
  function SetItems(s: string, i: nat): (r: (seq<Expr>, nat))
    requires i <= |s|
    ensures i <= r.1 <= |s|
    decreases |s| - i, 4 + PrimaryLevel
  {
    match Parse(s, i)
    case NoParse => ([], i)
    case Parsed(e, j) => SetTail(s, j, [e])
  }

  function SetTail(s: string, i: nat, acc: seq<Expr>): (r: (seq<Expr>, nat))
    requires i <= |s|
    ensures i <= r.1 <= |s|
    ensures |acc| <= |r.0| && r.0[..|acc|] == acc
    decreases |s| - i, 0
  {
    if !Tag(s, i, ",") then (acc, i)
    else
      match Parse(s, i + 1)
      case NoParse => (acc, i)
      case Parsed(e, j) => SetTail(s, j, acc + [e])
  }

  function LiteralBool(s: string, i: nat): (r: PResult<Expr>)
    requires i <= |s|
    ensures r.Parsed? ==> i < r.pos <= |s|
  {
    var j := SkipSpace(s, i);
    if Tag(s, j, "true") then Parsed(LBool(true), j + 4)
    else if Tag(s, j, "false") then Parsed(LBool(false), j + 5)
    else NoParse
  }

  /** The end of the run of decimal digits starting at `i`. */
  function DigitsEnd(s: string, i: nat): (j: nat)
    requires i <= |s|
    ensures i <= j <= |s|
    ensures j == |s| || !IsDigit(s[j])
    decreases |s| - i
  {
    if i < |s| && IsDigit(s[i]) then DigitsEnd(s, i + 1) else i
  }

  /** Everything up to the end of the run is a digit. */
  lemma {:induction false} DigitRun(s: string, i: nat)
    requires i <= |s|
    ensures forall k :: i <= k < DigitsEnd(s, i) ==> IsDigit(s[k])
    decreases |s| - i
  {
    if i < |s| && IsDigit(s[i]) {
      DigitRun(s, i + 1);
    }
  }

  /** The value of a string of decimal digits, most significant first. */
  function DigitsValue(ds: string): (v: nat)
    requires forall k :: 0 <= k < |ds| ==> IsDigit(ds[k])
    decreases |ds|
  {
    if ds == [] then 0
    else
      assert IsDigit(ds[|ds| - 1]);
      DigitsValue(ds[..|ds| - 1]) * 10 + (ds[|ds| - 1] as int - '0' as int)
  }

  /**
   * A signed 32-bit decimal literal: an optional `-` or `+`, then one or more
   * digits. The literal fails when its value does not fit 32 bits.
   */
  function LiteralInt(s: string, i: nat): (r: PResult<Expr>)
    requires i <= |s|
    ensures r.Parsed? ==> i < r.pos <= |s|
  {
    var j := SkipSpace(s, i);
    var negative := j < |s| && s[j] == '-';
    var d := if j < |s| && (s[j] == '-' || s[j] == '+') then j + 1 else j;
    var e := DigitsEnd(s, d);
    if e == d then NoParse
    else
      DigitRun(s, d);
      var magnitude: int := DigitsValue(s[d..e]);
      var v: int := if negative then -magnitude else magnitude;
      if InI32(v) then Parsed(LInt(v as i32), e) else NoParse
  }

  /** The end of a letter followed by letters, digits and underscores, if one starts at `i`. */
  function PartEnd(s: string, i: nat): (r: Option<nat>)
    requires i <= |s|
    ensures r.Some? ==> i < r.value <= |s|
  {
    if i < |s| && IsAlpha(s[i]) then Some(IdentEnd(s, i + 1)) else None
  }

  function IdentEnd(s: string, i: nat): (j: nat)
    requires i <= |s|
    ensures i <= j <= |s|
    ensures j == |s| || !IsIdentChar(s[j])
    decreases |s| - i
  {
    if i < |s| && IsIdentChar(s[i]) then IdentEnd(s, i + 1) else i
  }

  /** Everything up to the end of the run is a letter, a digit or an underscore. */
  lemma {:induction false} IdentRun(s: string, i: nat)
    requires i <= |s|
    ensures forall k :: i <= k < IdentEnd(s, i) ==> IsIdentChar(s[k])
    decreases |s| - i
  {
    if i < |s| && IsIdentChar(s[i]) {
      IdentRun(s, i + 1);
    }
  }

  /** Zero or more `.part` after position `i`, as many as there are. */
  function DottedEnd(s: string, i: nat): (j: nat)
    requires i <= |s|
    ensures i <= j <= |s|
    decreases |s| - i
  {
    if Tag(s, i, ".") && PartEnd(s, i + 1).Some? then DottedEnd(s, PartEnd(s, i + 1).value) else i
  }

  /** A symbol: one or more `.`-separated parts, the longest that is there. */
  function ParseSymbol(s: string, i: nat): (r: PResult<Expr>)
    requires i <= |s|
    ensures r.Parsed? ==> i < r.pos <= |s|
  {
    var j := SkipSpace(s, i);
    match PartEnd(s, j)
    case None => NoParse
    case Some(p) =>
      var e := DottedEnd(s, p);
      Parsed(Symbol(s[j..e]), e)
  }
}

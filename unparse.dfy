/**
 * A precedence-aware printer for query expressions, the parser's partner:
 * it writes an expression with single spaces around binary operators,
 * `, ` between set members and parentheses exactly where the ladder needs
 * them, and the round-trip theorem proves that the parser reads every
 * printable expression back from that text, whatever follows it.
 */
module Unparse {
  import opened Ints
  import opened Syntax

  // ---------------------------------------------------------------------
  // Binding strength
  // ---------------------------------------------------------------------

  /** The ladder level of a binary operator. */
  function BinaryLevel(op: BinaryOperator): (p: nat)
    ensures p < 13 && Ladder[p] == BinaryRung(Ladder[p].tag, op)
  {
    match op
    case Or => 0
    case And => 1
    case Equal => 2
    case NotEqual => 3
    case LessThan => 4
    case LessEqual => 5
    case GreaterThan => 6
    case GreaterEqual => 7
    case InSet => 8
    case Plus => 9
    case Minus => 10
    case Multiply => 11
    case Divide => 12
  }

  /** The level an expression is parsed at without parentheses. */
  function Prec(e: Expr): (p: nat)
    ensures p <= PrimaryLevel
    ensures p < 13 <==> e.BinaryOp?
    ensures e.BinaryOp? ==> Ladder[p] == BinaryRung(Ladder[p].tag, e.bop)
    ensures e.UnaryOp? ==> 13 <= p < PrimaryLevel && Ladder[p] == UnaryRung(Ladder[p].tag, e.uop)
  {
    match e
    case BinaryOp(op, _, _) => BinaryLevel(op)
    case UnaryOp(op, _) => (match op case Not => 13 case Minus => 14)
    case _ => PrimaryLevel
  }

  // ---------------------------------------------------------------------
  // The printer
  // ---------------------------------------------------------------------

  function DigitChar(d: nat): (c: char)
    requires d < 10
    ensures IsDigit(c)
  {
    ('0' as int + d) as char
  }

  /** Decimal digits of `m`, most significant first, without leading zeros. */
  function NatText(m: nat): (t: string)
    ensures |t| > 0 && forall q :: 0 <= q < |t| ==> IsDigit(t[q])
    decreases m
  {
    if m < 10 then [DigitChar(m)] else NatText(m / 10) + [DigitChar(m % 10)]
  }

  function IntText(n: int): string {
    if n < 0 then "-" + NatText(-n) else NatText(n)
  }

  /** `e` written where an expression of ladder level `k` is expected. */
  function Print(e: Expr, k: nat): string
    decreases e, 1
  {
    if Prec(e) < k then "(" + Bare(e) + ")" else Bare(e)
  }

  /** `e` written without parentheses around it. */
  function Bare(e: Expr): string
    decreases e, 0
  {
    match e
    case LBool(b) => if b then "true" else "false"
    case LInt(n) => IntText(n as int)
    case LSet(items) => "{" + ItemsText(items) + "}"
    case Symbol(name) => name
    case BinaryOp(_, l, r) =>
      var p := Prec(e);
      Print(l, p) + (" " + Ladder[p].tag + " ") + Print(r, p + 1)
    case UnaryOp(_, x) =>
      var p := Prec(e);
      Ladder[p].tag + Print(x, p + 1)
  }

  function ItemsText(items: seq<Expr>): string
    decreases items
  {
    if |items| == 0 then "" else Print(items[0], 0) + TailText(items[1..])
  }

  function TailText(items: seq<Expr>): string
    decreases items
  {
    if |items| == 0 then "" else ", " + Print(items[0], 0) + TailText(items[1..])
  }

  // ---------------------------------------------------------------------
  // Which expressions have a printed form
  // ---------------------------------------------------------------------

  /** A symbol the scanner reads whole: letter-initial parts joined by single dots. */
  predicate IsSymbolName(name: string) {
    && |name| > 0
    && IsAlpha(name[0])
    && (forall q :: 0 <= q < |name| ==> IsIdentChar(name[q]) || name[q] == '.')
    && (forall q :: 0 <= q < |name| && name[q] == '.' ==> q + 1 < |name| && IsAlpha(name[q + 1]))
  }

  /**
   * The expressions whose printed form the parser reads back, written at
   * level `k`. A negative integer literal other than the least one stands
   * only as the operand of a unary minus (everywhere else a leading `-` is
   * read as that operator), and a symbol may not begin with a boolean
   * keyword, which the parser tries first.
   */
  predicate Printable(e: Expr, k: nat)
    decreases e
  {
    match e
    case LBool(_) => true
    case LInt(n) => n >= 0 || n as int == I32Min || k == PrimaryLevel
    case LSet(items) => forall x :: x in items ==> Printable(x, 0)
    case Symbol(name) => IsSymbolName(name) && !StartsWith(name, "true") && !StartsWith(name, "false")
    case BinaryOp(_, l, r) => Printable(l, Prec(e)) && Printable(r, Prec(e) + 1)
    case UnaryOp(_, x) => Printable(x, Prec(e) + 1)
  }

  // ---------------------------------------------------------------------
  // What may follow a printed expression
  // ---------------------------------------------------------------------

  /** A character that ends every token: whitespace, a closing bracket, a comma, or the end. */
  predicate Boundary(s: string, j: nat) {
    j == |s| || (j < |s| && (IsSpace(s[j]) || s[j] == ')' || s[j] == ',' || s[j] == '}'))
  }

  /** After optional whitespace, the text at `j` starts with the tag of ladder level `m`. */
  predicate TagAhead(s: string, j: nat, m: nat)
    requires j <= |s|
  {
    m < |Ladder| && Tag(s, SkipSpace(s, j), Ladder[m].tag)
  }

  /**
   * The text at `j` ends an expression of level `k`: no token runs on, and
   * no binary operator of level `k` or tighter comes next.
   */
  predicate Stop(s: string, j: nat, k: nat) {
    && j <= |s|
    && Boundary(s, j)
    && forall m :: k <= m < 13 ==> !TagAhead(s, j, m)
  }

  // ---------------------------------------------------------------------
  // Facts about text
  // ---------------------------------------------------------------------

  lemma TagConcat(s: string, i: nat, a: string, b: string)
    requires Tag(s, i, a + b)
    ensures Tag(s, i, a) && Tag(s, i + |a|, b)
  {
    assert s[i..i + |a|] == (a + b)[..|a|];
    assert s[i + |a|..i + |a| + |b|] == (a + b)[|a|..];
  }

  lemma TagChar(s: string, i: nat, t: string, q: nat)
    requires Tag(s, i, t) && q < |t|
    ensures i + q < |s| && s[i + q] == t[q]
  {
    assert s[i..i + |t|][q] == t[q];
  }

  /** A tag is found only where its first character is. */
  lemma TagFirst(s: string, i: nat, t: string)
    requires |t| > 0
    ensures Tag(s, i, t) ==> i < |s| && s[i] == t[0]
  {
    if Tag(s, i, t) {
      TagChar(s, i, t, 0);
    }
  }

  /** Two tags found at the same place agree on their common length. */
  lemma TagsAgree(s: string, i: nat, t: string, u: string)
    requires Tag(s, i, t) && Tag(s, i, u) && |t| <= |u|
    ensures u[..|t|] == t
  {
    assert s[i..i + |t|] == s[i..i + |u|][..|t|];
  }

  lemma SkipSpaceAt(s: string, i: nat)
    requires i < |s| && !IsSpace(s[i])
    ensures SkipSpace(s, i) == i
  {
  }

  lemma SkipOneSpace(s: string, i: nat)
    requires i + 1 < |s| && IsSpace(s[i]) && !IsSpace(s[i + 1])
    ensures SkipSpace(s, i) == i + 1
  {
  }

  /** No tag of a tighter binary level is a prefix of a looser binary tag followed by a space. */
  lemma TagsSeparate(p: nat, m: nat)
    requires p < m < 13
    ensures |Ladder[m].tag| <= |Ladder[p].tag| + 1
    ensures (Ladder[p].tag + " ")[..|Ladder[m].tag|] != Ladder[m].tag
  {
    var t, u := Ladder[p].tag + " ", Ladder[m].tag;
    assert t[|t| - 1] == ' ';
    if |u| == |t| {
      assert u[|u| - 1] != ' ';
    } else {
      assert t[0] != u[0] by {
        assert p == 4 ==> 5 <= m;
      }
    }
  }

  /** No tag starts with a character that closes a set, a list item or a parenthesis. */
  lemma TagsAreOperators(m: nat)
    requires m < |Ladder|
    ensures |Ladder[m].tag| > 0
    ensures Ladder[m].tag[0] != ')' && Ladder[m].tag[0] != ',' && Ladder[m].tag[0] != '}'
    ensures !IsSpace(Ladder[m].tag[0])
  {
  }

  /** Expression text continued by ` tag ` of binary level `p` stops at level `p + 1`. */
  lemma StopBeforeOperator(s: string, j: nat, p: nat)
    requires p < 13 && Tag(s, j, " " + Ladder[p].tag + " ")
    ensures Stop(s, j, p + 1)
  {
    var t := Ladder[p].tag;
    TagsAreOperators(p);
    TagConcat(s, j, " ", t + " ");
    TagChar(s, j, " ", 0);
    TagChar(s, j + 1, t + " ", 0);
    SkipOneSpace(s, j);
    forall m | p + 1 <= m < 13
      ensures !TagAhead(s, j, m)
    {
      TagsSeparate(p, m);
      if TagAhead(s, j, m) {
        TagsAgree(s, j + 1, Ladder[m].tag, t + " ");
      }
    }
  }

  /** Expression text continued by one of `)`, `,` or `}` stops at every level. */
  lemma StopBeforeCloser(s: string, j: nat, k: nat)
    requires j < |s| && (s[j] == ')' || s[j] == ',' || s[j] == '}')
    ensures Stop(s, j, k)
  {
    SkipSpaceAt(s, j);
    forall m | k <= m < 13
      ensures !TagAhead(s, j, m)
    {
      TagsAreOperators(m);
      if TagAhead(s, j, m) {
        TagChar(s, j, Ladder[m].tag, 0);
      }
    }
  }

  lemma StopLower(s: string, j: nat, k: nat, k': nat)
    requires Stop(s, j, k) && k <= k'
    ensures Stop(s, j, k')
  {
  }

  // ---------------------------------------------------------------------
  // Printed forms
  // ---------------------------------------------------------------------

  /** A character an expression can start with. */
  predicate Leading(c: char) {
    c == '(' || c == '{' || c == '!' || c == '-' || IsDigit(c) || IsAlpha(c)
  }

  lemma PrintableAnyLevel(e: Expr, k: nat, k': nat)
    requires Printable(e, k) && k < 15
    ensures Printable(e, k')
  {
  }

  /** The size of the ladder, for proofs that do without definitions. */
  lemma LadderSize()
    ensures PrimaryLevel == 15 && |Ladder| == 15
  {
  }

  /** The operands of a printable operator are printable where the operator puts them. */
  lemma PrintableParts(e: Expr, k: nat)
    requires Printable(e, k)
    ensures e.BinaryOp? ==> Printable(e.left, Prec(e)) && Printable(e.right, Prec(e) + 1)
    ensures e.UnaryOp? ==> Printable(e.operand, Prec(e) + 1)
    ensures e.LSet? ==> forall x :: x in e.items ==> Printable(x, 0)
  {
  }

  /** Away from its own level, one level more or less makes no difference to the text. */
  lemma PrintOffLevel(e: Expr, k: nat)
    requires Prec(e) != k
    ensures Print(e, k) == Print(e, k + 1)
  {
  }

  lemma {:induction false} BareFirst(e: Expr, k: nat)
    requires Printable(e, k)
    ensures |Bare(e)| > 0 && Leading(Bare(e)[0])
    ensures e.UnaryOp? ==> Bare(e)[0] == Ladder[Prec(e)].tag[0]
    ensures Bare(e)[0] == '-' ==> e.UnaryOp? || e.BinaryOp? || (e.LInt? && e.n < 0)
    decreases e, 0, 1
  {
    if e.BinaryOp? {
      BinaryBareFirst(e, k);
    } else if e.UnaryOp? {
      var p := Prec(e);
      LadderShape();
      assert Bare(e) == Ladder[p].tag + Print(e.operand, p + 1);
      assert Ladder[p].tag == "!" || Ladder[p].tag == "-";
    } else {
      PrimaryBareFirst(e, k);
    }
  }

  lemma PrimaryBareFirst(e: Expr, k: nat)
    requires Printable(e, k) && Prec(e) == PrimaryLevel
    ensures |Bare(e)| > 0 && Leading(Bare(e)[0])
    ensures Bare(e)[0] == '-' ==> e.LInt? && e.n < 0
  {
    match e
    case LBool(b) =>
      assert Bare(e) == if b then "true" else "false";
    case LInt(n) =>
      if n < 0 {
        assert Bare(e) == "-" + NatText(-(n as int));
      } else {
        assert Bare(e) == NatText(n as int);
      }
    case LSet(items) =>
      assert Bare(e) == "{" + ItemsText(items) + "}";
    case Symbol(name) =>
      assert Bare(e) == name;
  }

  lemma {:induction false} BinaryBareFirst(e: Expr, k: nat)
    requires Printable(e, k) && e.BinaryOp?
    ensures |Bare(e)| > 0 && Leading(Bare(e)[0])
    decreases e, 0, 0
  {
    var p := Prec(e);
    var pl := Print(e.left, p);
    assert Bare(e) == pl + (" " + Ladder[p].tag + " " + Print(e.right, p + 1));
    PrintFirst(e.left, p);
    assert Bare(e)[0] == pl[0];
  }

  lemma {:induction false} PrintFirst(e: Expr, k: nat)
    requires Printable(e, k)
    ensures |Print(e, k)| > 0 && Leading(Print(e, k)[0])
    ensures Prec(e) < k ==> Print(e, k)[0] == '('
    ensures Prec(e) >= k && e.UnaryOp? ==> Print(e, k)[0] == Ladder[Prec(e)].tag[0]
    ensures Prec(e) >= k && PrimaryLevel - 1 <= Prec(e) && Print(e, k)[0] == '-' ==>
      e.UnaryOp? || (e.LInt? && e.n < 0)
    decreases e, 1, 0
  {
    BareFirst(e, k);
    if Prec(e) < k {
      assert Print(e, k) == "(" + Bare(e) + ")";
    } else {
      assert Print(e, k) == Bare(e);
    }
  }

  // ---------------------------------------------------------------------
  // Scanning literals and symbols
  // ---------------------------------------------------------------------

  lemma {:induction false} NatTextValue(m: nat)
    ensures DigitsValue(NatText(m)) == m
    decreases m
  {
    var t := NatText(m);
    if m >= 10 {
      NatTextValue(m / 10);
      assert t[..|t| - 1] == NatText(m / 10);
    }
  }

  lemma {:induction false} DigitsEndAt(s: string, d: nat, t: string)
    requires Tag(s, d, t) && (forall q :: 0 <= q < |t| ==> IsDigit(t[q]))
    requires d + |t| == |s| || !IsDigit(s[d + |t|])
    ensures DigitsEnd(s, d) == d + |t|
    decreases |t|
  {
    if |t| > 0 {
      TagChar(s, d, t, 0);
      TagConcat(s, d, t[..1], t[1..]);
      assert t == t[..1] + t[1..];
      DigitsEndAt(s, d + 1, t[1..]);
    }
  }

  /** The integer scanner reads a printed number back, sign included. */
  lemma LiteralIntReads(s: string, i: nat, n: i32)
    requires Tag(s, i, IntText(n as int)) && Boundary(s, i + |IntText(n as int)|)
    ensures LiteralInt(s, i) == Parsed(LInt(n), i + |IntText(n as int)|)
  {
    var m: nat := if n < 0 then -(n as int) else n as int;
    var t := NatText(m);
    var d := if n < 0 then i + 1 else i;
    if n < 0 {
      assert IntText(n as int) == "-" + t;
      TagConcat(s, i, "-", t);
      TagChar(s, i, "-", 0);
    } else {
      assert IntText(n as int) == t;
    }
    SignedDigitsRead(s, i, n < 0, t);
    NatTextValue(m);
  }

  /** An optional `-` and a run of digits ending at a boundary are read as that signed number. */
  lemma SignedDigitsRead(s: string, i: nat, negative: bool, t: string)
    requires |t| > 0 && forall q :: 0 <= q < |t| ==> IsDigit(t[q])
    requires var d := if negative then i + 1 else i;
      (negative ==> i < |s| && s[i] == '-') && Tag(s, d, t) && Boundary(s, d + |t|)
    ensures var d := if negative then i + 1 else i;
      var v: int := if negative then -(DigitsValue(t) as int) else DigitsValue(t);
      LiteralInt(s, i) == if InI32(v) then Parsed(LInt(v as i32), d + |t|) else NoParse
  {
    var d := if negative then i + 1 else i;
    TagChar(s, d, t, 0);
    SkipSpaceAt(s, i);
    DigitsEndAt(s, d, t);
    LiteralIntAt(s, i, d, t);
  }

  /** What the integer scanner yields, given where its digits start and what they are. */
  lemma LiteralIntAt(s: string, i: nat, d: nat, t: string)
    requires i < |s| && SkipSpace(s, i) == i
    requires d == if s[i] == '-' || s[i] == '+' then i + 1 else i
    requires |t| > 0 && Tag(s, d, t) && DigitsEnd(s, d) == d + |t|
    requires forall q :: 0 <= q < |t| ==> IsDigit(t[q])
    ensures var v: int := if s[i] == '-' then -(DigitsValue(t) as int) else DigitsValue(t);
      LiteralInt(s, i) == if InI32(v) then Parsed(LInt(v as i32), d + |t|) else NoParse
  {
    var e := DigitsEnd(s, d);
    assert s[d..e] == t;
  }

  /** At a digit or a `-` only the integer scanner applies. */
  lemma PrimaryAtNumber(s: string, i: nat)
    requires i < |s| && (IsDigit(s[i]) || s[i] == '-')
    ensures Level(PrimaryLevel, s, i) == LiteralInt(s, i)
  {
    SkipSpaceAt(s, i);
    TagFirst(s, i, "(");
    TagFirst(s, i, "{");
    TagFirst(s, i, "true");
    TagFirst(s, i, "false");
    assert Parenthesised(s, i) == NoParse;
    assert LiteralSet(s, i) == NoParse;
    assert LiteralBool(s, i) == NoParse;
    assert ParseSymbol(s, i) == NoParse;
    assert Primary(s, i) == LiteralInt(s, i);
  }

  /** At a `{` only the set literal applies. */
  lemma PrimaryAtBrace(s: string, i: nat)
    requires i < |s| && s[i] == '{'
    ensures Level(PrimaryLevel, s, i) == LiteralSet(s, i)
  {
    SkipSpaceAt(s, i);
    TagFirst(s, i, "(");
    TagFirst(s, i, "true");
    TagFirst(s, i, "false");
    assert Parenthesised(s, i) == NoParse;
    assert LiteralBool(s, i) == NoParse;
    assert DigitsEnd(s, i) == i;
    assert LiteralInt(s, i) == NoParse;
    assert ParseSymbol(s, i) == NoParse;
    assert Primary(s, i) == LiteralSet(s, i);
  }

  /** At a `(` only the parenthesised expression applies. */
  lemma PrimaryAtParen(s: string, i: nat)
    requires i < |s| && s[i] == '('
    ensures Level(PrimaryLevel, s, i) == Parenthesised(s, i)
  {
    SkipSpaceAt(s, i);
    TagFirst(s, i, "{");
    TagFirst(s, i, "true");
    TagFirst(s, i, "false");
    assert LiteralSet(s, i) == NoParse;
    assert LiteralBool(s, i) == NoParse;
    assert DigitsEnd(s, i) == i;
    assert LiteralInt(s, i) == NoParse;
    assert ParseSymbol(s, i) == NoParse;
    assert Primary(s, i) == Parenthesised(s, i);
  }

  /** At a keyword the boolean literal applies. */
  lemma PrimaryAtKeyword(s: string, i: nat)
    requires Tag(s, i, "true") || Tag(s, i, "false")
    ensures Level(PrimaryLevel, s, i) == LiteralBool(s, i)
  {
    TagFirst(s, i, "true");
    TagFirst(s, i, "false");
    SkipSpaceAt(s, i);
    TagFirst(s, i, "(");
    TagFirst(s, i, "{");
    assert Parenthesised(s, i) == NoParse;
    assert LiteralSet(s, i) == NoParse;
    assert LiteralBool(s, i).Parsed?;
    assert Primary(s, i) == LiteralBool(s, i);
  }

  /** At a letter that does not begin a keyword only the symbol scanner applies. */
  lemma PrimaryAtLetter(s: string, i: nat)
    requires i < |s| && IsAlpha(s[i]) && !Tag(s, i, "true") && !Tag(s, i, "false")
    ensures Level(PrimaryLevel, s, i) == ParseSymbol(s, i)
  {
    SkipSpaceAt(s, i);
    TagFirst(s, i, "(");
    TagFirst(s, i, "{");
    assert Parenthesised(s, i) == NoParse;
    assert LiteralSet(s, i) == NoParse;
    assert LiteralBool(s, i) == NoParse;
    assert DigitsEnd(s, i) == i;
    assert LiteralInt(s, i) == NoParse;
    assert Primary(s, i) == ParseSymbol(s, i);
  }

  /** The least integer has no positive counterpart, so its digits alone are no primary. */
  lemma LeastMagnitudeFails(s: string, i: nat, t: string)
    requires t == NatText(-I32Min) && Tag(s, i, t) && Boundary(s, i + |t|)
    ensures Level(PrimaryLevel, s, i).NoParse?
  {
    TagChar(s, i, t, 0);
    PrimaryAtNumber(s, i);
    NatTextValue(-I32Min);
    SignedDigitsRead(s, i, false, t);
  }

  lemma {:induction false} IdentEndIn(s: string, i: nat, name: string, q: nat)
    requires IsSymbolName(name) && Tag(s, i, name) && Boundary(s, i + |name|)
    requires 0 < q <= |name|
    ensures var r := IdentEnd(s, i + q);
      i + q <= r <= i + |name| && (r == i + |name| || name[r - i] == '.')
    decreases |name| - q
  {
    if q < |name| {
      TagChar(s, i, name, q);
      if name[q] != '.' {
        IdentEndIn(s, i, name, q + 1);
      }
    }
  }

  lemma {:induction false} DottedEndIn(s: string, i: nat, name: string, p: nat)
    requires IsSymbolName(name) && Tag(s, i, name) && Boundary(s, i + |name|)
    requires i < p <= i + |name| && (p == i + |name| || name[p - i] == '.')
    ensures DottedEnd(s, p) == i + |name|
    decreases i + |name| - p
  {
    if p < i + |name| {
      TagChar(s, i, name, p - i);
      TagChar(s, i, name, p - i + 1);
      assert Tag(s, p, ".");
      IdentEndIn(s, i, name, p - i + 2);
      DottedEndIn(s, i, name, IdentEnd(s, p + 2));
    }
  }

  /** The symbol scanner reads a valid name back whole. */
  lemma ParseSymbolReads(s: string, i: nat, name: string)
    requires IsSymbolName(name) && Tag(s, i, name) && Boundary(s, i + |name|)
    ensures ParseSymbol(s, i) == Parsed(Symbol(name), i + |name|)
  {
    SymbolExtent(s, i, name);
    hide IsSymbolName, Boundary;
    assert s[i..i + |name|] == name;
  }

  /** Where the symbol scanner's pieces end on a valid name. */
  lemma SymbolExtent(s: string, i: nat, name: string)
    requires IsSymbolName(name) && Tag(s, i, name) && Boundary(s, i + |name|)
    ensures SkipSpace(s, i) == i && PartEnd(s, i) == Some(IdentEnd(s, i + 1))
    ensures DottedEnd(s, IdentEnd(s, i + 1)) == i + |name|
  {
    TagChar(s, i, name, 0);
    SkipSpaceAt(s, i);
    IdentEndIn(s, i, name, 1);
    DottedEndIn(s, i, name, IdentEnd(s, i + 1));
  }

  /** A symbol followed by a boundary is not mistaken for a keyword that does not start it. */
  lemma KeywordAbsent(s: string, i: nat, name: string, w: string)
    requires IsSymbolName(name) && Tag(s, i, name) && Boundary(s, i + |name|)
    requires !StartsWith(name, w) && (forall q :: 0 <= q < |w| ==> IsAlpha(w[q]))
    ensures !Tag(s, i, w)
  {
    if Tag(s, i, w) {
      if |w| <= |name| {
        TagsAgree(s, i, w, name);
      } else {
        TagChar(s, i, w, |name|);
      }
    }
  }

  // ---------------------------------------------------------------------
  // Whitespace and failure
  // ---------------------------------------------------------------------

  /** Leading whitespace never changes what a level parses. */
  lemma {:induction false} LevelSkipsSpace(k: nat, s: string, i: nat)
    requires k <= PrimaryLevel && i <= |s|
    ensures Level(k, s, i) == Level(k, s, SkipSpace(s, i))
    decreases PrimaryLevel - k
  {
    hide *;
    LadderSize();
    if k < PrimaryLevel {
      LevelSkipsSpace(k + 1, s, i);
      if k < 13 {
        BinaryLevelSkips(k, s, i);
      } else {
        UnaryLevelSkips(k, s, i);
      }
    } else {
      PrimarySkipsSpace(s, i);
    }
  }

  lemma BinaryLevelSkips(k: nat, s: string, i: nat)
    requires k < 13 && i <= |s| && Level(k + 1, s, i) == Level(k + 1, s, SkipSpace(s, i))
    ensures Level(k, s, i) == Level(k, s, SkipSpace(s, i))
  {
    RungShape(k);
  }

  lemma UnaryLevelSkips(k: nat, s: string, i: nat)
    requires 13 <= k < PrimaryLevel && i <= |s| && Level(k + 1, s, i) == Level(k + 1, s, SkipSpace(s, i))
    ensures Level(k, s, i) == Level(k, s, SkipSpace(s, i))
  {
    RungShape(k);
    var j := SkipSpace(s, i);
    assert SkipSpace(s, j) == j;
    var t := Ladder[k].tag;
    var prefixed := if Tag(s, j, t) then Level(k + 1, s, j + |t|) else NoParse;
    assert Level(k, s, i) == if prefixed.Parsed? then Parsed(UnaryOp(Ladder[k].uop, prefixed.value), prefixed.pos) else Level(k + 1, s, i);
    assert Level(k, s, j) == if prefixed.Parsed? then Parsed(UnaryOp(Ladder[k].uop, prefixed.value), prefixed.pos) else Level(k + 1, s, j);
  }

  lemma PrimarySkipsSpace(s: string, i: nat)
    requires i <= |s|
    ensures Level(PrimaryLevel, s, i) == Level(PrimaryLevel, s, SkipSpace(s, i))
  {
    var j := SkipSpace(s, i);
    SkipSpaceTwice(s, i);
    assert Parenthesised(s, i) == Parenthesised(s, j);
    assert LiteralSet(s, i) == LiteralSet(s, j);
    BoolSkipsSpace(s, i);
    IntSkipsSpace(s, i);
    SymbolSkipsSpace(s, i);
  }

  lemma SkipSpaceTwice(s: string, i: nat)
    requires i <= |s|
    ensures SkipSpace(s, SkipSpace(s, i)) == SkipSpace(s, i)
  {
    var j := SkipSpace(s, i);
    assert j == |s| || !IsSpace(s[j]);
  }

  lemma BoolSkipsSpace(s: string, i: nat)
    requires i <= |s|
    ensures LiteralBool(s, i) == LiteralBool(s, SkipSpace(s, i))
  {
    SkipSpaceTwice(s, i);
  }

  lemma IntSkipsSpace(s: string, i: nat)
    requires i <= |s|
    ensures LiteralInt(s, i) == LiteralInt(s, SkipSpace(s, i))
  {
    SkipSpaceTwice(s, i);
  }

  lemma SymbolSkipsSpace(s: string, i: nat)
    requires i <= |s|
    ensures ParseSymbol(s, i) == ParseSymbol(s, SkipSpace(s, i))
  {
    SkipSpaceTwice(s, i);
  }

  /** Nothing parses where no expression can start. */
  lemma {:induction false} LevelFails(k: nat, s: string, i: nat)
    requires k <= PrimaryLevel && i <= |s|
    requires SkipSpace(s, i) == |s| || !(Leading(s[SkipSpace(s, i)]) || s[SkipSpace(s, i)] == '+')
    ensures Level(k, s, i) == NoParse
    decreases PrimaryLevel - k
  {
    LadderShape();
    var j := SkipSpace(s, i);
    if j < |s| {
      assert !Tag(s, j, "(") && !Tag(s, j, "{") && !Tag(s, j, "!") && !Tag(s, j, "-");
      assert !Tag(s, j, "true") && !Tag(s, j, "false");
    }
    if k < PrimaryLevel {
      LevelFails(k + 1, s, i);
    } else {
      assert DigitsEnd(s, j) == j;
      assert Parenthesised(s, i) == NoParse;
      assert LiteralSet(s, i) == NoParse;
      assert LiteralBool(s, i) == NoParse;
      assert LiteralInt(s, i) == NoParse;
      assert ParseSymbol(s, i) == NoParse;
    }
  }

  // ---------------------------------------------------------------------
  // Climbing the ladder
  // ---------------------------------------------------------------------

  /** A binary level is its operand level followed by the fold. */
  lemma BinaryLevelFolds(k: nat, s: string, i: nat)
    requires k < 13 && i <= |s| && Level(k + 1, s, i).Parsed?
    ensures Level(k, s, i) == Fold(k, Level(k + 1, s, i).value, s, Level(k + 1, s, i).pos)
  {
    LadderShape();
  }

  /** The fold stops where its operator does not follow. */
  lemma FoldStops(k: nat, acc: Expr, s: string, j: nat)
    requires k < 13 && Stop(s, j, k)
    ensures Fold(k, acc, s, j) == Parsed(acc, j)
  {
    LadderShape();
    assert !TagAhead(s, j, k);
  }

  /** One fold step: the operator and an operand of the next level are folded in. */
  lemma FoldStep(k: nat, op: BinaryOperator, acc: Expr, s: string, j: nat, x: Expr, p: nat)
    requires k < 13 && j <= |s| && Ladder[k] == BinaryRung(Ladder[k].tag, op)
    requires Tag(s, SkipSpace(s, j), Ladder[k].tag)
    requires Level(k + 1, s, SkipSpace(s, j) + |Ladder[k].tag|) == Parsed(x, p)
    ensures Fold(k, acc, s, j) == Fold(k, BinaryOp(op, acc, x), s, p)
  {
    LadderShape();
  }

  /** A prefix level takes its tag and an operand of the next level when both are there. */
  lemma UnaryTakes(k: nat, op: UnaryOperator, s: string, i: nat, x: Expr, p: nat)
    requires 13 <= k < PrimaryLevel && i <= |s| && Ladder[k] == UnaryRung(Ladder[k].tag, op)
    requires Tag(s, SkipSpace(s, i), Ladder[k].tag)
    requires Level(k + 1, s, SkipSpace(s, i) + |Ladder[k].tag|) == Parsed(x, p)
    ensures Level(k, s, i) == Parsed(UnaryOp(op, x), p)
  {
    LadderShape();
  }

  /** A binary level returns its operand level's result when its own operator does not follow. */
  lemma LiftBinary(k: nat, s: string, i: nat, e: Expr, j: nat)
    requires k < 13 && i <= |s|
    requires Level(k + 1, s, i) == Parsed(e, j) && Stop(s, j, k)
    ensures Level(k, s, i) == Parsed(e, j)
  {
    BinaryLevelFolds(k, s, i);
    FoldStops(k, e, s, j);
  }

  /** A prefix level returns the next level's result when its prefixed form does not parse. */
  lemma LiftUnary(k: nat, s: string, i: nat, e: Expr, j: nat)
    requires 13 <= k < PrimaryLevel && i <= |s|
    requires Level(k + 1, s, i) == Parsed(e, j)
    requires Tag(s, SkipSpace(s, i), Ladder[k].tag) ==>
      Level(k + 1, s, SkipSpace(s, i) + |Ladder[k].tag|).NoParse?
    ensures Level(k, s, i) == Parsed(e, j)
  {
    LadderShape();
  }

  /** A result at binary level `m` is the result at every looser level when no operator follows. */
  lemma {:induction false} LiftBinaries(k: nat, m: nat, s: string, i: nat, e: Expr, j: nat)
    requires k <= m <= 13 && i <= |s|
    requires Level(m, s, i) == Parsed(e, j) && j <= |s|
    requires Stop(s, j, k)
    ensures Level(k, s, i) == Parsed(e, j)
    decreases m - k
  {
    if k < m {
      LiftBinaries(k + 1, m, s, i, e, j);
      LiftBinary(k, s, i, e, j);
    }
  }

  /** A failure at binary level `m` is a failure at every looser level. */
  lemma {:induction false} FailBinaries(k: nat, m: nat, s: string, i: nat)
    requires k <= m <= 13 && i <= |s|
    requires Level(m, s, i) == NoParse
    ensures Level(k, s, i) == NoParse
    decreases m - k
  {
    LadderShape();
    if k < m {
      FailBinaries(k + 1, m, s, i);
    }
  }

  // ---------------------------------------------------------------------
  // The round trip
  // ---------------------------------------------------------------------

  /**
   * The parser reads a printable expression back from its printed form, at
   * any level, whatever text that ends it follows.
   */
  lemma {:induction false} RoundTrip(k: nat, e: Expr, s: string, i: nat)
    requires k <= PrimaryLevel && Printable(e, k)
    requires Tag(s, i, Print(e, k)) && Stop(s, i + |Print(e, k)|, k)
    ensures Level(k, s, i) == Parsed(e, i + |Print(e, k)|)
    decreases e, if Prec(e) < k then 5 else 2, 2 * (PrimaryLevel + 1 - k)
  {
    hide *;
    LadderSize();
    if Prec(e) < k {
      ParenForm(e, k);
      ParenRoundTrip(k, e, s, i);
    } else if k < Prec(e) {
      DescendRoundTrip(k, e, s, i);
    } else if k < 13 {
      BinaryRoundTrip(k, e, s, i);
    } else if k < PrimaryLevel {
      UnaryRoundTrip(k, e, s, i);
    } else if e.LSet? {
      SetRoundTrip(e, s, i);
    } else {
      AtomRoundTrip(e, s, i);
    }
  }

  /** Below its own level an expression is printed in parentheses. */
  lemma ParenForm(e: Expr, k: nat)
    requires Prec(e) < k && Printable(e, k)
    ensures Printable(e, 0) && Print(e, k) == "(" + Print(e, 0) + ")"
  {
  }

  /** Above its own level an expression passes through each level unchanged. */
  lemma {:induction false} DescendRoundTrip(k: nat, e: Expr, s: string, i: nat)
    requires k < Prec(e) && Printable(e, k)
    requires Tag(s, i, Print(e, k)) && Stop(s, i + |Print(e, k)|, k)
    ensures Level(k, s, i) == Parsed(e, i + |Print(e, k)|)
    decreases e, 2, 2 * (PrimaryLevel + 1 - k) - 1
  {
    var end := i + |Print(e, k)|;
    hide *;
    LadderSize();
    PrintableAnyLevel(e, k, k + 1);
    PrintOffLevel(e, k);
    StopLower(s, end, k, k + 1);
    RoundTrip(k + 1, e, s, i);
    if k < 13 {
      LiftBinary(k, s, i, e, end);
    } else {
      NoPrefixAhead(k, e, s, i);
      LiftUnary(k, s, i, e, end);
    }
  }

  /**
   * Below a prefix level, the text of a tighter expression does not start
   * with that level's operator followed by an operand.
   */
  lemma NoPrefixAhead(k: nat, e: Expr, s: string, i: nat)
    requires 13 <= k < Prec(e) && Printable(e, k)
    requires Tag(s, i, Print(e, k)) && Stop(s, i + |Print(e, k)|, k)
    ensures i <= |s|
    ensures Tag(s, SkipSpace(s, i), Ladder[k].tag) ==>
      Level(k + 1, s, SkipSpace(s, i) + |Ladder[k].tag|).NoParse?
  {
    hide *;
    LadderSize();
    RungShape(k);
    var text := Print(e, k);
    FirstOfTighter(k, e);
    TagChar(s, i, text, 0);
    SkipSpaceAt(s, i);
    TagFirst(s, i, Ladder[k].tag);
    if text[0] == Ladder[k].tag[0] {
      I32Limits();
      var t := NatText(-I32Min);
      TagConcat(s, i, "-", t);
      StopIsBoundary(s, i + |text|, k);
      LeastMagnitudeFails(s, i + 1, t);
    }
  }

  /**
   * An expression tighter than a prefix level does not start with that
   * level's operator, except the least integer below the unary minus.
   */
  lemma FirstOfTighter(k: nat, e: Expr)
    requires 13 <= k < Prec(e) && Printable(e, k)
    ensures |Print(e, k)| > 0 && !IsSpace(Print(e, k)[0])
    ensures Print(e, k)[0] == Ladder[k].tag[0] ==>
      k == 14 && Ladder[k].tag == "-" && Print(e, k) == "-" + NatText(-I32Min)
  {
    var text := Print(e, k);
    LadderShape();
    PrintFirst(e, k);
    if text[0] == Ladder[k].tag[0] {
      assert Ladder[13].tag == "!" && Ladder[14].tag == "-";
      assert text == Bare(e);
      match e
      case LInt(n) =>
        assert n as int == I32Min;
        assert text == "-" + NatText(-I32Min);
    }
  }

  /** Text that stops an expression starts with a boundary character. */
  lemma StopIsBoundary(s: string, j: nat, k: nat)
    requires Stop(s, j, k)
    ensures Boundary(s, j)
  {
  }

  /** A binary expression at its own level: its spine is folded, and the fold stops after it. */
  lemma {:induction false} BinaryRoundTrip(k: nat, e: Expr, s: string, i: nat)
    requires k < 13 && Prec(e) == k && Printable(e, k)
    requires Tag(s, i, Print(e, k)) && Stop(s, i + |Print(e, k)|, k)
    ensures Level(k, s, i) == Parsed(e, i + |Print(e, k)|)
    decreases e, 1, 1
  {
    var end := i + |Print(e, k)|;
    StopLower(s, end, k, k + 1);
    SpinePrefix(k, e, s, i);
    BinaryLevelFolds(k, s, i);
    FoldStops(k, e, s, end);
  }

  /** A prefix operator at its own level: its tag, then its operand one level tighter. */
  lemma {:induction false} UnaryRoundTrip(k: nat, e: Expr, s: string, i: nat)
    requires 13 <= k < PrimaryLevel && Prec(e) == k && Printable(e, k)
    requires Tag(s, i, Print(e, k)) && Stop(s, i + |Print(e, k)|, k)
    ensures Level(k, s, i) == Parsed(e, i + |Print(e, k)|)
    decreases e, 1, 1
  {
    var x := e.operand;
    var t := Ladder[k].tag;
    var end := i + |Print(e, k)|;
    assert Print(e, k) == t + Print(x, k + 1);
    TagConcat(s, i, t, Print(x, k + 1));
    TagChar(s, i, t, 0);
    SkipSpaceAt(s, i);
    StopLower(s, end, k, k + 1);
    RoundTrip(k + 1, x, s, i + |t|);
    UnaryTakes(k, e.uop, s, i, x, end);
  }

  /** A parenthesised expression is read back at any level. */
  lemma {:induction false} ParenRoundTrip(k: nat, e: Expr, s: string, i: nat)
    requires k <= PrimaryLevel && Printable(e, 0)
    requires Tag(s, i, "(" + Print(e, 0) + ")") && Stop(s, i + |Print(e, 0)| + 2, k)
    ensures Level(k, s, i) == Parsed(e, i + |Print(e, 0)| + 2)
    decreases e, 4, PrimaryLevel - k
  {
    hide *;
    LadderSize();
    var inner := Print(e, 0);
    var end := i + |inner| + 2;
    ParenText(s, i, inner);
    if k < PrimaryLevel {
      StopLower(s, end, k, k + 1);
      ParenRoundTrip(k + 1, e, s, i);
      if k < 13 {
        LiftBinary(k, s, i, e, end);
      } else {
        PrefixTags();
        TagFirst(s, i, Ladder[k].tag);
        LiftUnary(k, s, i, e, end);
      }
    } else {
      StopBeforeCloser(s, i + 1 + |inner|, 0);
      RoundTrip(0, e, s, i + 1);
      PrimaryAtParen(s, i);
      ParenthesisedReads(s, i, e, i + 1 + |inner|);
    }
  }

  /** The pieces of a parenthesised text. */
  lemma ParenText(s: string, i: nat, inner: string)
    requires Tag(s, i, "(" + inner + ")")
    ensures i + 1 + |inner| < |s| && s[i] == '(' && s[i + 1 + |inner|] == ')'
    ensures Tag(s, i + 1, inner) && SkipSpace(s, i) == i
  {
    TagConcat(s, i, "(" + inner, ")");
    TagConcat(s, i, "(", inner);
    TagChar(s, i, "(", 0);
    TagChar(s, i + 1 + |inner|, ")", 0);
    SkipSpaceAt(s, i);
  }

  /** The prefix operators' tags. */
  lemma PrefixTags()
    ensures Ladder[13].tag == "!" && Ladder[14].tag == "-"
  {
  }

  /** `(`, an expression ending at `q`, then `)`. */
  lemma ParenthesisedReads(s: string, i: nat, e: Expr, q: nat)
    requires i < |s| && s[i] == '(' && Level(0, s, i + 1) == Parsed(e, q)
    requires q < |s| && s[q] == ')'
    ensures Parenthesised(s, i) == Parsed(e, q + 1)
  {
    SkipSpaceAt(s, i);
    SkipSpaceAt(s, q);
    assert Tag(s, i, "(") && Tag(s, q, ")");
  }

  /** A binary expression's text: left operand, ` tag `, right operand. */
  lemma BinaryText(e: Expr)
    requires e.BinaryOp?
    ensures Print(e, Prec(e)) ==
      Print(e.left, Prec(e)) + (" " + Ladder[Prec(e)].tag + " ") + Print(e.right, Prec(e) + 1)
  {
    var p := Prec(e);
    assert !(p < p);
    assert Print(e, p) == Bare(e);
  }

  /** Where a binary expression's text is found, so are its three pieces, one after another. */
  lemma BinaryTags(e: Expr, s: string, i: nat)
    requires e.BinaryOp? && Tag(s, i, Print(e, Prec(e)))
    ensures Tag(s, i, Print(e.left, Prec(e)))
    ensures Tag(s, i + |Print(e.left, Prec(e))|, " " + Ladder[Prec(e)].tag + " ")
    ensures Tag(s, i + |Print(e.left, Prec(e))| + |Ladder[Prec(e)].tag| + 2, Print(e.right, Prec(e) + 1))
    ensures |Print(e, Prec(e))| ==
      |Print(e.left, Prec(e))| + |Ladder[Prec(e)].tag| + 2 + |Print(e.right, Prec(e) + 1)|
  {
    var p := Prec(e);
    var pl, op, pr := Print(e.left, p), " " + Ladder[p].tag + " ", Print(e.right, p + 1);
    BinaryText(e);
    TagConcat(s, i, pl + op, pr);
    TagConcat(s, i, pl, op);
  }

  /**
   * A binary expression of level `p` printed at its own level: the operand
   * level reads its leftmost operand, and folding the rest onto that lands
   * where folding onto the whole expression at its end does.
   */
  lemma {:induction false} SpinePrefix(p: nat, e: Expr, s: string, i: nat)
    requires p < 13 && Prec(e) == p && Printable(e, p)
    requires Tag(s, i, Print(e, p)) && Stop(s, i + |Print(e, p)|, p + 1)
    ensures Level(p + 1, s, i).Parsed?
    ensures Fold(p, Level(p + 1, s, i).value, s, Level(p + 1, s, i).pos) ==
            Fold(p, e, s, i + |Print(e, p)|)
    decreases e, 1, 0
  {
    hide *;
    LadderSize();
    var l := e.left;
    var jl := i + |Print(l, p)|;
    var end := i + |Print(e, p)|;
    PrintableParts(e, p);
    BinaryTags(e, s, i);
    StopBeforeOperator(s, jl, p);
    FoldAfterOperand(p, e, s, jl, end);
    if Prec(l) == p {
      SpinePrefix(p, l, s, i);
    } else {
      PrintableAnyLevel(l, p, p + 1);
      PrintOffLevel(l, p);
      RoundTrip(p + 1, l, s, i);
    }
  }

  /** ` tag x` at `jl`: the fold's whitespace skip lands on the tag, and the operand's on `x`. */
  lemma SpacedOperator(s: string, jl: nat, p: nat, x: string)
    requires p < 13 && Tag(s, jl, " " + Ladder[p].tag + " ")
    requires Tag(s, jl + |Ladder[p].tag| + 2, x) && |x| > 0 && Leading(x[0])
    ensures SkipSpace(s, jl) == jl + 1 && Tag(s, jl + 1, Ladder[p].tag)
    ensures SkipSpace(s, jl + 1 + |Ladder[p].tag|) == jl + |Ladder[p].tag| + 2
  {
    var t := Ladder[p].tag;
    var j := jl + 1 + |t|;
    TagsAreOperators(p);
    TagConcat(s, jl, " " + t, " ");
    TagConcat(s, jl, " ", t);
    TagChar(s, jl, " ", 0);
    TagChar(s, jl + 1, t, 0);
    TagChar(s, j, " ", 0);
    SkipOneSpace(s, jl);
    TagChar(s, j + 1, x, 0);
    SkipOneSpace(s, j);
  }

  /** From the end of the left operand, one fold step reads ` tag right`. */
  lemma {:induction false} FoldAfterOperand(p: nat, e: Expr, s: string, jl: nat, end: nat)
    requires p < 13 && Prec(e) == p && Printable(e, p)
    requires Tag(s, jl, " " + Ladder[p].tag + " ")
    requires Tag(s, jl + |Ladder[p].tag| + 2, Print(e.right, p + 1))
    requires end == jl + |Ladder[p].tag| + 2 + |Print(e.right, p + 1)| && Stop(s, end, p + 1)
    ensures Fold(p, e.left, s, jl) == Fold(p, e, s, end)
    decreases e, 0, 0
  {
    hide *;
    LadderSize();
    var j := jl + 1 + |Ladder[p].tag|;
    PrintableParts(e, p);
    PrintFirst(e.right, p + 1);
    SpacedOperator(s, jl, p, Print(e.right, p + 1));
    RoundTrip(p + 1, e.right, s, j + 1);
    LevelSkipsSpace(p + 1, s, j);
    FoldStep(p, e.bop, e.left, s, jl, e.right, end);
  }

  /** Booleans, integers and symbols are read back by their own scanners. */
  lemma AtomRoundTrip(e: Expr, s: string, i: nat)
    requires Prec(e) == PrimaryLevel && !e.LSet? && Printable(e, PrimaryLevel)
    requires Tag(s, i, Print(e, PrimaryLevel)) && Stop(s, i + |Print(e, PrimaryLevel)|, PrimaryLevel)
    ensures Level(PrimaryLevel, s, i) == Parsed(e, i + |Print(e, PrimaryLevel)|)
  {
    hide *;
    LadderSize();
    StopIsBoundary(s, i + |Print(e, PrimaryLevel)|, PrimaryLevel);
    if e.LBool? {
      BoolRoundTrip(e, s, i);
    } else if e.LInt? {
      IntRoundTrip(e, s, i);
    } else {
      SymbolRoundTrip(e, s, i);
    }
  }

  lemma BoolRoundTrip(e: Expr, s: string, i: nat)
    requires e.LBool? && Tag(s, i, Print(e, PrimaryLevel))
    ensures Level(PrimaryLevel, s, i) == Parsed(e, i + |Print(e, PrimaryLevel)|)
  {
    assert Print(e, PrimaryLevel) == if e.b then "true" else "false";
    TagFirst(s, i, "true");
    PrimaryAtKeyword(s, i);
  }

  lemma IntRoundTrip(e: Expr, s: string, i: nat)
    requires e.LInt? && Printable(e, PrimaryLevel)
    requires Tag(s, i, Print(e, PrimaryLevel)) && Boundary(s, i + |Print(e, PrimaryLevel)|)
    ensures Level(PrimaryLevel, s, i) == Parsed(e, i + |Print(e, PrimaryLevel)|)
  {
    assert Print(e, PrimaryLevel) == IntText(e.n as int);
    PrintFirst(e, PrimaryLevel);
    TagChar(s, i, Print(e, PrimaryLevel), 0);
    PrimaryAtNumber(s, i);
    LiteralIntReads(s, i, e.n);
  }

  lemma SymbolRoundTrip(e: Expr, s: string, i: nat)
    requires e.Symbol? && Printable(e, PrimaryLevel)
    requires Tag(s, i, Print(e, PrimaryLevel)) && Boundary(s, i + |Print(e, PrimaryLevel)|)
    ensures Level(PrimaryLevel, s, i) == Parsed(e, i + |Print(e, PrimaryLevel)|)
  {
    var name := e.name;
    assert Print(e, PrimaryLevel) == name;
    TagChar(s, i, name, 0);
    KeywordAbsent(s, i, name, "true");
    KeywordAbsent(s, i, name, "false");
    PrimaryAtLetter(s, i);
    ParseSymbolReads(s, i, name);
  }

  /** A set literal is read back member by member. */
  lemma {:induction false} SetRoundTrip(e: Expr, s: string, i: nat)
    requires e.LSet? && Printable(e, PrimaryLevel)
    requires Tag(s, i, Print(e, PrimaryLevel)) && Stop(s, i + |Print(e, PrimaryLevel)|, PrimaryLevel)
    ensures Level(PrimaryLevel, s, i) == Parsed(e, i + |Print(e, PrimaryLevel)|)
    decreases e, 1, 0
  {
    hide *;
    LadderSize();
    var end := i + |Print(e, PrimaryLevel)|;
    SetText(e, s, i);
    SetItemsRoundTrip(e, s, i + 1);
    PrimaryAtBrace(s, i);
    LiteralSetReads(s, i, e.items, end - 1);
  }

  /** The pieces of a printed set literal. */
  lemma SetText(e: Expr, s: string, i: nat)
    requires e.LSet? && Tag(s, i, Print(e, PrimaryLevel))
    ensures i < |s| && s[i] == '{' && Tag(s, i + 1, ItemsText(e.items) + "}")
    ensures |Print(e, PrimaryLevel)| == |ItemsText(e.items)| + 2
    ensures s[i + 1 + |ItemsText(e.items)|] == '}'
  {
    var body := ItemsText(e.items);
    assert Print(e, PrimaryLevel) == "{" + (body + "}");
    TagConcat(s, i, "{", body + "}");
    TagChar(s, i, "{", 0);
    TagConcat(s, i + 1, body, "}");
    TagChar(s, i + 1 + |body|, "}", 0);
  }

  /** `{`, members ending at `q`, then `}`. */
  lemma LiteralSetReads(s: string, i: nat, items: seq<Expr>, q: nat)
    requires i < |s| && s[i] == '{' && SetItems(s, i + 1) == (items, q)
    requires q < |s| && s[q] == '}'
    ensures LiteralSet(s, i) == Parsed(LSet(items), q + 1)
  {
    SkipSpaceAt(s, i);
    SkipSpaceAt(s, q);
    assert Tag(s, i, "{") && Tag(s, q, "}");
  }

  /** The members of a printed set literal are read back in order. */
  lemma {:induction false} SetItemsRoundTrip(e: Expr, s: string, j: nat)
    requires e.LSet? && Printable(e, PrimaryLevel)
    requires Tag(s, j, ItemsText(e.items) + "}")
    ensures SetItems(s, j) == (e.items, j + |ItemsText(e.items)|)
    decreases e, 0, |e.items| + 1
  {
    hide *;
    LadderSize();
    var items := e.items;
    if |items| == 0 {
      NoItems(e, s, j);
    } else {
      var x := items[0];
      var px := Print(x, 0);
      FirstItemText(e, s, j);
      PrintableParts(e, PrimaryLevel);
      assert x in items;
      StopBeforeCloser(s, j + |px|, 0);
      RoundTrip(0, x, s, j);
      SetTailRoundTrip(e, 1, s, j + |px|);
      assert [x] == items[..1];
      SetItemsStarts(s, j, x, j + |px|);
    }
  }

  /** An empty member list: the closing brace follows at once. */
  lemma NoItems(e: Expr, s: string, j: nat)
    requires e.LSet? && |e.items| == 0 && Tag(s, j, ItemsText(e.items) + "}")
    ensures SetItems(s, j) == (e.items, j + |ItemsText(e.items)|)
  {
    assert ItemsText(e.items) + "}" == "}";
    TagChar(s, j, "}", 0);
    SkipSpaceAt(s, j);
    LevelFails(0, s, j);
  }

  /** The first member's text, then the rest of the list and the closing brace. */
  lemma FirstItemText(e: Expr, s: string, j: nat)
    requires e.LSet? && |e.items| > 0 && Tag(s, j, ItemsText(e.items) + "}")
    ensures Tag(s, j, Print(e.items[0], 0))
    ensures Tag(s, j + |Print(e.items[0], 0)|, TailText(e.items[1..]) + "}")
    ensures |ItemsText(e.items)| == |Print(e.items[0], 0)| + |TailText(e.items[1..])|
    ensures var q := j + |Print(e.items[0], 0)|; q < |s| && (s[q] == ',' || s[q] == '}')
  {
    var px := Print(e.items[0], 0);
    var rest := TailText(e.items[1..]);
    assert ItemsText(e.items) + "}" == px + (rest + "}");
    TagConcat(s, j, px, rest + "}");
    TagChar(s, j + |px|, rest + "}", 0);
  }

  lemma SetItemsStarts(s: string, j: nat, x: Expr, p: nat)
    requires j <= |s| && Level(0, s, j) == Parsed(x, p)
    ensures SetItems(s, j) == SetTail(s, p, [x])
  {
  }

  lemma {:induction false} SetTailRoundTrip(e: Expr, n: nat, s: string, j: nat)
    requires e.LSet? && Printable(e, PrimaryLevel) && 1 <= n <= |e.items|
    requires Tag(s, j, TailText(e.items[n..]) + "}")
    ensures SetTail(s, j, e.items[..n]) == (e.items, j + |TailText(e.items[n..])|)
    decreases e, 0, |e.items| - n
  {
    hide *;
    LadderSize();
    var items := e.items;
    if n == |items| {
      LastItemText(e, n, s, j);
      assert items[..n] == items;
      SetTailEnds(s, j, items);
    } else {
      var x := items[n];
      var after := j + 2 + |Print(x, 0)|;
      PrintableParts(e, PrimaryLevel);
      assert x in items;
      NextItemText(e, n, s, j);
      StopBeforeCloser(s, after, 0);
      RoundTrip(0, x, s, j + 2);
      LevelSkipsSpace(0, s, j + 1);
      assert items[..n] + [x] == items[..n + 1];
      SetTailRoundTrip(e, n + 1, s, after);
      SetTailStep(s, j, items[..n], x, after);
    }
  }

  /** After the last member only the closing brace is left. */
  lemma LastItemText(e: Expr, n: nat, s: string, j: nat)
    requires e.LSet? && n == |e.items| && Tag(s, j, TailText(e.items[n..]) + "}")
    ensures |TailText(e.items[n..])| == 0 && j < |s| && s[j] == '}'
  {
    assert e.items[n..] == [];
    TagChar(s, j, "}", 0);
  }

  /** A further member's text: `, `, the member, then the rest and the closing brace. */
  lemma NextItemText(e: Expr, n: nat, s: string, j: nat)
    requires e.LSet? && n < |e.items| && Printable(e.items[n], 0)
    requires Tag(s, j, TailText(e.items[n..]) + "}")
    ensures j + 1 < |s| && s[j] == ',' && SkipSpace(s, j + 1) == j + 2
    ensures Tag(s, j + 2, Print(e.items[n], 0))
    ensures Tag(s, j + 2 + |Print(e.items[n], 0)|, TailText(e.items[n + 1..]) + "}")
    ensures |TailText(e.items[n..])| == 2 + |Print(e.items[n], 0)| + |TailText(e.items[n + 1..])|
    ensures var q := j + 2 + |Print(e.items[n], 0)|; q < |s| && (s[q] == ',' || s[q] == '}')
  {
    var items := e.items;
    var px := Print(items[n], 0);
    var more := TailText(items[n + 1..]);
    assert items[n..][1..] == items[n + 1..];
    assert TailText(items[n..]) + "}" == ", " + px + (more + "}");
    TagConcat(s, j, ", " + px, more + "}");
    TagConcat(s, j, ", ", px);
    TagChar(s, j, ", ", 0);
    TagChar(s, j, ", ", 1);
    PrintFirst(items[n], 0);
    TagChar(s, j + 2, px, 0);
    SkipOneSpace(s, j + 1);
    TagChar(s, j + 2 + |px|, more + "}", 0);
  }

  lemma SetTailEnds(s: string, j: nat, acc: seq<Expr>)
    requires j < |s| && s[j] == '}'
    ensures SetTail(s, j, acc) == (acc, j)
  {
    TagFirst(s, j, ",");
  }

  lemma SetTailStep(s: string, j: nat, acc: seq<Expr>, x: Expr, p: nat)
    requires j < |s| && s[j] == ',' && Level(0, s, j + 1) == Parsed(x, p)
    ensures SetTail(s, j, acc) == SetTail(s, p, acc + [x])
  {
    assert Tag(s, j, ",");
  }
}

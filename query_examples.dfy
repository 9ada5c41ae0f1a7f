/**
 * The parser's unit tests, the behaviours at its edges, and small
 * evaluations, as facts about the model.
 */
module QueryExamples {
  import opened Ints
  import opened Syntax
  import opened Unparse
  import opened Evaluation
  import opened Elements
  import opened Queries

  // ---------------------------------------------------------------------
  // Printed forms, piece by piece
  // ---------------------------------------------------------------------

  /** The levels and tags of the operators. */
  lemma Tags()
    ensures BinaryLevel(Or) == 0 && BinaryLevel(And) == 1 && BinaryLevel(Equal) == 2
    ensures BinaryLevel(LessThan) == 4 && BinaryLevel(GreaterThan) == 6 && BinaryLevel(InSet) == 8
    ensures BinaryLevel(Plus) == 9 && BinaryLevel(BinaryOperator.Minus) == 10 && BinaryLevel(Multiply) == 11
    ensures Ladder[0].tag == "||" && Ladder[1].tag == "&&" && Ladder[2].tag == "=="
    ensures Ladder[4].tag == "<" && Ladder[6].tag == ">" && Ladder[8].tag == "in"
    ensures Ladder[9].tag == "+" && Ladder[10].tag == "-" && Ladder[11].tag == "*"
  {
    hide *;
    LadderTags();
    OperatorLevels();
  }

  lemma LadderTags()
    ensures Ladder[0].tag == "||" && Ladder[1].tag == "&&" && Ladder[2].tag == "=="
    ensures Ladder[4].tag == "<" && Ladder[6].tag == ">" && Ladder[8].tag == "in"
    ensures Ladder[9].tag == "+" && Ladder[10].tag == "-" && Ladder[11].tag == "*"
  {
  }

  lemma OperatorLevels()
    ensures BinaryLevel(Or) == 0 && BinaryLevel(And) == 1 && BinaryLevel(Equal) == 2
    ensures BinaryLevel(LessThan) == 4 && BinaryLevel(GreaterThan) == 6 && BinaryLevel(InSet) == 8
    ensures BinaryLevel(Plus) == 9 && BinaryLevel(BinaryOperator.Minus) == 10 && BinaryLevel(Multiply) == 11
  {
  }

  lemma Pads()
    ensures Blank("") && Blank(" ") && Blank("  ")
  {
  }

  /** A binary expression where no parentheses are needed: left operand, spaced tag, right operand. */
  lemma BinaryPrint(op: BinaryOperator, l: Expr, r: Expr, k: nat)
    requires k <= BinaryLevel(op)
    ensures var p := BinaryLevel(op);
      Print(BinaryOp(op, l, r), k) == Print(l, p) + (" " + Ladder[p].tag + " ") + Print(r, p + 1)
  {
    var e := BinaryOp(op, l, r);
    assert Prec(e) == BinaryLevel(op);
    assert Print(e, k) == Bare(e);
  }

  lemma BinaryPrintable(op: BinaryOperator, l: Expr, r: Expr, k: nat)
    requires Printable(l, BinaryLevel(op)) && Printable(r, BinaryLevel(op) + 1)
    ensures Printable(BinaryOp(op, l, r), k)
  {
  }

  lemma NotPrint(x: Expr, k: nat)
    requires k <= 13
    ensures Print(UnaryOp(Not, x), k) == "!" + Print(x, 14)
    ensures Printable(x, 14) ==> Printable(UnaryOp(Not, x), k)
  {
  }

  lemma MinusPrint(x: Expr, k: nat)
    requires k <= 14
    ensures Print(UnaryOp(UnaryOperator.Minus, x), k) == "-" + Print(x, 15)
    ensures Printable(x, 15) ==> Printable(UnaryOp(UnaryOperator.Minus, x), k)
  {
  }

  lemma SymbolPrint(name: string, k: nat)
    requires k <= 15
    ensures Print(Symbol(name), k) == name
    ensures IsSymbolName(name) && !StartsWith(name, "true") && !StartsWith(name, "false") ==>
      Printable(Symbol(name), k)
  {
  }

  lemma IntPrint(n: i32, k: nat)
    requires k <= 15
    ensures Print(LInt(n), k) == IntText(n as int)
    ensures n >= 0 || k == 15 ==> Printable(LInt(n), k)
  {
  }

  lemma BoolPrint(b: bool, k: nat)
    requires k <= 15
    ensures Print(LBool(b), k) == if b then "true" else "false"
    ensures Printable(LBool(b), k)
  {
  }

  lemma TriplePrint(a: Expr, b: Expr, c: Expr, k: nat)
    requires k <= 15
    ensures Print(LSet([a, b, c]), k) == "{" + Print(a, 0) + ", " + Print(b, 0) + ", " + Print(c, 0) + "}"
  {
    hide *;
    var items := [a, b, c];
    SetPrint(items, k);
    ItemsStep(items);
    TailStep([b, c]);
    TailStep([c]);
    TailEnd();
    assert items[0] == a && items[1..] == [b, c];
    assert [b, c][0] == b && [b, c][1..] == [c];
    assert [c][0] == c && [c][1..] == [];
  }

  lemma SetPrint(items: seq<Expr>, k: nat)
    requires k <= 15
    ensures Print(LSet(items), k) == "{" + ItemsText(items) + "}"
  {
  }

  lemma ItemsStep(items: seq<Expr>)
    requires |items| > 0
    ensures ItemsText(items) == Print(items[0], 0) + TailText(items[1..])
  {
  }

  lemma TailStep(items: seq<Expr>)
    requires |items| > 0
    ensures TailText(items) == ", " + Print(items[0], 0) + TailText(items[1..])
  {
  }

  lemma TailEnd()
    ensures TailText([]) == ""
  {
  }

  lemma TriplePrintable(a: Expr, b: Expr, c: Expr, k: nat)
    requires Printable(a, 0) && Printable(b, 0) && Printable(c, 0)
    ensures Printable(LSet([a, b, c]), k)
  {
    assert forall x :: x in [a, b, c] ==> x == a || x == b || x == c;
  }

  lemma SmallInts()
    ensures IntText(2) == "2" && IntText(3) == "3" && IntText(5) == "5"
    ensures IntText(13) == "13" && IntText(15) == "15" && IntText(55) == "55"
    ensures IntText(10) == "10" && IntText(-15) == "-15"
  {
  }

  /** Symbol names of the tests, with no boolean keyword in front. */
  lemma Names()
    ensures IsSymbolName("Z") && !StartsWith("Z", "true") && !StartsWith("Z", "false")
    ensures IsSymbolName("a") && !StartsWith("a", "true") && !StartsWith("a", "false")
    ensures IsSymbolName("b") && !StartsWith("b", "true") && !StartsWith("b", "false")
  {
  }

  /** A name of dotted parts is a symbol name when its parts are. */
  lemma DottedName(a: string, b: string)
    requires IsSymbolName(a) && IsSymbolName(b)
    ensures IsSymbolName(a + "." + b)
  {
    var n := a + "." + b;
    assert forall q :: 0 <= q < |a| ==> n[q] == a[q];
    assert n[|a|] == '.';
    assert forall q :: |a| < q < |n| ==> n[q] == b[q - |a| - 1];
  }

  lemma NotableName()
    ensures IsSymbolName("oxidation_states.notable")
    ensures !StartsWith("oxidation_states.notable", "true") && !StartsWith("oxidation_states.notable", "false")
  {
    OxidationStatesName();
    NotableWord();
    DottedName("oxidation_states", "notable");
    assert "oxidation_states" + "." + "notable" == "oxidation_states.notable";
    assert "oxidation_states.notable"[0] == 'o';
  }

  lemma OxidationStatesName()
    ensures IsSymbolName("oxidation_states")
  {
  }

  lemma NotableWord()
    ensures IsSymbolName("notable")
  {
  }

  lemma AtomicNumberName()
    ensures IsSymbolName("atomic_number")
    ensures !StartsWith("atomic_number", "true") && !StartsWith("atomic_number", "false")
  {
    assert "atomic_number"[0] == 'a';
  }

  // ---------------------------------------------------------------------
  // The unit tests of the parser
  // ---------------------------------------------------------------------

  /** `atomic_number == 5` with two trailing spaces, which are left unread. */
  lemma EqualityTest()
    ensures Parse("atomic_number == 5  ", 0) == Parsed(BinaryOp(Equal, Symbol("atomic_number"), LInt(5)), 18)
  {
    hide *;
    var e := BinaryOp(Equal, Symbol("atomic_number"), LInt(5));
    Tags(); SmallInts(); AtomicNumberName(); Pads();
    BinaryPrint(Equal, Symbol("atomic_number"), LInt(5), 0);
    SymbolPrint("atomic_number", 2);
    IntPrint(5, 3);
    BinaryPrintable(Equal, Symbol("atomic_number"), LInt(5), 0);
    assert "atomic_number" + (" " + "==" + " ") + "5" == "atomic_number == 5";
    ParsePrinted(e, "", "  ");
    assert "" + "atomic_number == 5" + "  " == "atomic_number == 5  ";
  }

  /** A printable expression whose text is `t` is read back from `t` whole. */
  lemma ParseText(e: Expr, t: string)
    requires Printable(e, 0) && Print(e, 0) == t
    ensures Parse(t, 0) == Parsed(e, |t|)
  {
    Pads();
    ParsePrinted(e, "", "");
    assert "" + t + "" == t;
  }

  /** `Z > 13 && Z < 55` printed as the right operand of `||`. */
  lemma RangePrint()
    ensures Print(BinaryOp(And, BinaryOp(GreaterThan, Symbol("Z"), LInt(13)), BinaryOp(LessThan, Symbol("Z"), LInt(55))), 1)
      == "Z > 13 && Z < 55"
    ensures Print(BinaryOp(And, BinaryOp(GreaterThan, Symbol("Z"), LInt(13)), BinaryOp(LessThan, Symbol("Z"), LInt(55))), 0)
      == "Z > 13 && Z < 55"
    ensures Printable(BinaryOp(And, BinaryOp(GreaterThan, Symbol("Z"), LInt(13)), BinaryOp(LessThan, Symbol("Z"), LInt(55))), 1)
  {
    hide *;
    Tags(); SmallInts(); Names();
    var gt := BinaryOp(GreaterThan, Symbol("Z"), LInt(13));
    var lt := BinaryOp(LessThan, Symbol("Z"), LInt(55));
    SymbolPrint("Z", 6); IntPrint(13, 7); SymbolPrint("Z", 4); IntPrint(55, 5);
    BinaryPrint(GreaterThan, Symbol("Z"), LInt(13), 1);
    BinaryPrintable(GreaterThan, Symbol("Z"), LInt(13), 1);
    BinaryPrint(LessThan, Symbol("Z"), LInt(55), 2);
    BinaryPrintable(LessThan, Symbol("Z"), LInt(55), 2);
    BinaryPrint(And, gt, lt, 1);
    BinaryPrint(And, gt, lt, 0);
    BinaryPrintable(And, gt, lt, 1);
    assert "Z" + (" " + ">" + " ") + "13" == "Z > 13";
    assert "Z" + (" " + "<" + " ") + "55" == "Z < 55";
    assert "Z > 13" + (" " + "&&" + " ") + "Z < 55" == "Z > 13 && Z < 55";
  }

  lemma PrecedenceText()
    ensures "true" + (" " + "||" + " ") + "Z > 13 && Z < 55" == "true || Z > 13 && Z < 55"
  {
  }

  /** `&&` binds tighter than `||`, and comparisons tighter than both. */
  lemma PrecedenceTest()
    ensures Parse("true || Z > 13 && Z < 55", 0) ==
      Parsed(BinaryOp(Or, LBool(true),
        BinaryOp(And, BinaryOp(GreaterThan, Symbol("Z"), LInt(13)), BinaryOp(LessThan, Symbol("Z"), LInt(55)))), 24)
  {
    hide *;
    Tags();
    var and := BinaryOp(And, BinaryOp(GreaterThan, Symbol("Z"), LInt(13)), BinaryOp(LessThan, Symbol("Z"), LInt(55)));
    var e := BinaryOp(Or, LBool(true), and);
    BoolPrint(true, 0);
    RangePrint();
    BinaryPrint(Or, LBool(true), and, 0);
    BinaryPrintable(Or, LBool(true), and, 0);
    PrecedenceText();
    ParseText(e, "true || Z > 13 && Z < 55");
  }

  lemma SpacingText()
    ensures "true" + (" " + "||" + " ") + " " + "Z > 13 && Z < 55" == "true ||  Z > 13 && Z < 55"
    ensures "true" + (" " + "||" + " ") + "" + ("(" + "Z > 13 && Z < 55" + ")") == "true || (Z > 13 && Z < 55)"
  {
  }

  /**
   * An extra space after `||` and explicit parentheses around its right
   * operand read as the same expression, each to the end of its text.
   */
  lemma SpacingTest()
    ensures Parse("true ||  Z > 13 && Z < 55", 0) ==
      Parsed(BinaryOp(Or, LBool(true),
        BinaryOp(And, BinaryOp(GreaterThan, Symbol("Z"), LInt(13)), BinaryOp(LessThan, Symbol("Z"), LInt(55)))), 25)
    ensures Parse("true || (Z > 13 && Z < 55)", 0) ==
      Parsed(BinaryOp(Or, LBool(true),
        BinaryOp(And, BinaryOp(GreaterThan, Symbol("Z"), LInt(13)), BinaryOp(LessThan, Symbol("Z"), LInt(55)))), 26)
  {
    hide *;
    Tags(); Pads();
    var and := BinaryOp(And, BinaryOp(GreaterThan, Symbol("Z"), LInt(13)), BinaryOp(LessThan, Symbol("Z"), LInt(55)));
    BoolPrint(true, 1);
    RangePrint();
    ReadBinary(Or, LBool(true), and, " ", false);
    ReadBinary(Or, LBool(true), and, "", true);
    SpacingText();
  }

  lemma ArithmeticSpacingText()
    ensures "2" + (" " + "+" + " ") + " " + "2 * 2" == "2 +  2 * 2"
    ensures "2" + (" " + "+" + " ") + "" + ("(" + "2 * 2" + ")") == "2 + (2 * 2)"
  {
  }

  /** The same for `2 +  2 * 2` and `2 + (2 * 2)`. */
  lemma ArithmeticSpacingTest()
    ensures Parse("2 +  2 * 2", 0) == Parsed(BinaryOp(Plus, LInt(2), BinaryOp(Multiply, LInt(2), LInt(2))), 10)
    ensures Parse("2 + (2 * 2)", 0) == Parsed(BinaryOp(Plus, LInt(2), BinaryOp(Multiply, LInt(2), LInt(2))), 11)
  {
    hide *;
    Tags(); SmallInts(); Pads();
    var product := BinaryOp(Multiply, LInt(2), LInt(2));
    IntPrint(2, 10); IntPrint(2, 11); IntPrint(2, 12);
    BinaryPrint(Multiply, LInt(2), LInt(2), 10);
    BinaryPrint(Multiply, LInt(2), LInt(2), 0);
    BinaryPrintable(Multiply, LInt(2), LInt(2), 10);
    assert "2" + (" " + "*" + " ") + "2" == "2 * 2";
    ReadBinary(Plus, LInt(2), product, " ", false);
    ReadBinary(Plus, LInt(2), product, "", true);
    ArithmeticSpacingText();
  }

  /** `!` takes the next tighter level as its operand, so it binds tighter than `||`. */
  lemma NegationTest()
    ensures Parse("!a || b", 0) == Parsed(BinaryOp(Or, UnaryOp(Not, Symbol("a")), Symbol("b")), 7)
  {
    hide *;
    Tags(); Names();
    var e := BinaryOp(Or, UnaryOp(Not, Symbol("a")), Symbol("b"));
    SymbolPrint("a", 14); SymbolPrint("b", 1);
    NotPrint(Symbol("a"), 0);
    BinaryPrint(Or, UnaryOp(Not, Symbol("a")), Symbol("b"), 0);
    BinaryPrintable(Or, UnaryOp(Not, Symbol("a")), Symbol("b"), 0);
    assert "!" + "a" + (" " + "||" + " ") + "b" == "!a || b";
    ParseText(e, "!a || b");
  }

  /** `{Z, 2, 3}` printed as the left operand of `in`. */
  lemma TriplePrintAt8()
    ensures Print(LSet([Symbol("Z"), LInt(2), LInt(3)]), 8) == "{Z, 2, 3}"
    ensures Printable(LSet([Symbol("Z"), LInt(2), LInt(3)]), 8)
  {
    hide *;
    SmallInts(); Names();
    SymbolPrint("Z", 0); IntPrint(2, 0); IntPrint(3, 0);
    TriplePrint(Symbol("Z"), LInt(2), LInt(3), 8);
    TriplePrintable(Symbol("Z"), LInt(2), LInt(3), 8);
    assert "{" + "Z" + ", " + "2" + ", " + "3" + "}" == "{Z, 2, 3}";
  }

  lemma MembershipText()
    ensures "{Z, 2, 3}" + (" " + "in" + " ") + "oxidation_states.notable" == "{Z, 2, 3} in oxidation_states.notable"
  {
  }

  /** A set literal on the left of `in`. */
  lemma MembershipTest()
    ensures Parse("{Z, 2, 3} in oxidation_states.notable", 0) ==
      Parsed(BinaryOp(InSet, LSet([Symbol("Z"), LInt(2), LInt(3)]), Symbol("oxidation_states.notable")), 37)
  {
    hide *;
    Tags();
    var set3 := LSet([Symbol("Z"), LInt(2), LInt(3)]);
    var notable := "oxidation_states.notable";
    var e := BinaryOp(InSet, set3, Symbol(notable));
    TriplePrintAt8();
    NotableName();
    SymbolPrint(notable, 9);
    BinaryPrint(InSet, set3, Symbol(notable), 0);
    BinaryPrintable(InSet, set3, Symbol(notable), 0);
    MembershipText();
    ParseText(e, "{Z, 2, 3} in oxidation_states.notable");
  }

  /** `*` binds tighter than `+`: `2 + 2 * 2` is `2 + (2 * 2)`. */
  lemma ArithmeticTest()
    ensures Parse("2 + 2 * 2", 0) ==
      Parsed(BinaryOp(Plus, LInt(2), BinaryOp(Multiply, LInt(2), LInt(2))), 9)
  {
    hide *;
    Tags(); SmallInts();
    var product := BinaryOp(Multiply, LInt(2), LInt(2));
    var e := BinaryOp(Plus, LInt(2), product);
    IntPrint(2, 9); IntPrint(2, 11); IntPrint(2, 12);
    BinaryPrint(Multiply, LInt(2), LInt(2), 10);
    BinaryPrintable(Multiply, LInt(2), LInt(2), 10);
    BinaryPrint(Plus, LInt(2), product, 0);
    BinaryPrintable(Plus, LInt(2), product, 0);
    assert "2" + (" " + "*" + " ") + "2" == "2 * 2";
    assert "2" + (" " + "+" + " ") + "2 * 2" == "2 + 2 * 2";
    ParseText(e, "2 + 2 * 2");
  }

  /** A binary level is a left fold: `10 - 2 - 3` is `(10 - 2) - 3`. */
  lemma LeftFoldTest()
    ensures Parse("10 - 2 - 3", 0) ==
      Parsed(BinaryOp(BinaryOperator.Minus, BinaryOp(BinaryOperator.Minus, LInt(10), LInt(2)), LInt(3)), 10)
  {
    hide *;
    Tags(); SmallInts();
    var inner := BinaryOp(BinaryOperator.Minus, LInt(10), LInt(2));
    var e := BinaryOp(BinaryOperator.Minus, inner, LInt(3));
    IntPrint(10, 10); IntPrint(2, 11); IntPrint(3, 11);
    BinaryPrint(BinaryOperator.Minus, LInt(10), LInt(2), 10);
    BinaryPrintable(BinaryOperator.Minus, LInt(10), LInt(2), 10);
    BinaryPrint(BinaryOperator.Minus, inner, LInt(3), 0);
    BinaryPrintable(BinaryOperator.Minus, inner, LInt(3), 0);
    assert "10" + (" " + "-" + " ") + "2" == "10 - 2";
    assert "10 - 2" + (" " + "-" + " ") + "3" == "10 - 2 - 3";
    ParseText(e, "10 - 2 - 3");
  }

  // ---------------------------------------------------------------------
  // Behaviours at the edges
  // ---------------------------------------------------------------------

  /** A leading `-` is the unary operator: `-15` is the negation of the literal 15. */
  lemma LeadingMinus()
    ensures Parse("-15", 0) == Parsed(UnaryOp(UnaryOperator.Minus, LInt(15)), 3)
  {
    hide *;
    SmallInts();
    var e := UnaryOp(UnaryOperator.Minus, LInt(15));
    IntPrint(15, 15);
    MinusPrint(LInt(15), 0);
    assert "-" + "15" == "-15";
    ParseText(e, "-15");
  }

  /**
   * After a unary minus the operand is a primary, where the integer
   * literal takes its own sign: `--15` is the negation of the literal -15.
   */
  lemma DoubleMinus()
    ensures Parse("--15", 0) == Parsed(UnaryOp(UnaryOperator.Minus, LInt(-15)), 4)
  {
    hide *;
    SmallInts();
    var e := UnaryOp(UnaryOperator.Minus, LInt(-15));
    IntPrint(-15, 15);
    MinusPrint(LInt(-15), 0);
    assert "-" + "-15" == "--15";
    ParseText(e, "--15");
  }

  /** Whitespace around a whole query is accepted. */
  lemma PaddedQuery()
    ensures New("  !a || b ") == Ok(Query(BinaryOp(Or, UnaryOp(Not, Symbol("a")), Symbol("b"))))
  {
    hide *;
    Tags(); Names();
    var e := BinaryOp(Or, UnaryOp(Not, Symbol("a")), Symbol("b"));
    SymbolPrint("a", 14); SymbolPrint("b", 1);
    NotPrint(Symbol("a"), 0);
    BinaryPrint(Or, UnaryOp(Not, Symbol("a")), Symbol("b"), 0);
    BinaryPrintable(Or, UnaryOp(Not, Symbol("a")), Symbol("b"), 0);
    assert "!" + "a" + (" " + "||" + " ") + "b" == "!a || b";
    Pads();
    NewAcceptsPrinted(e, "  ", " ");
    assert "  " + "!a || b" + " " == "  !a || b ";
  }

  // ---------------------------------------------------------------------
  // The unit tests of the primaries
  // ---------------------------------------------------------------------

  /** A symbol name followed by whitespace is read up to the whitespace. */
  lemma SymbolThenSpace(name: string, after: string)
    requires IsSymbolName(name) && |after| > 0 && IsSpace(after[0])
    ensures ParseSymbol(name + after, 0) == Parsed(Symbol(name), |name|)
  {
    var s := name + after;
    assert s[0..|name|] == name;
    assert s[|name|] == after[0];
    ParseSymbolReads(s, 0, name);
  }

  lemma CamelCaseName()
    ensures IsSymbolName("CamelCase")
  {
  }

  lemma OxidationStateName()
    ensures IsSymbolName("oxidation_state.notable")
  {
    hide *;
    OxidationStateWord();
    NotableWord();
    DottedName("oxidation_state", "notable");
    assert "oxidation_state" + "." + "notable" == "oxidation_state.notable";
  }

  lemma OxidationStateWord()
    ensures IsSymbolName("oxidation_state")
  {
  }

  /** Symbols are read whole, dotted parts included, and case is kept. */
  lemma SymbolTest()
    ensures ParseSymbol("atomic_number ", 0) == Parsed(Symbol("atomic_number"), 13)
    ensures ParseSymbol("oxidation_state.notable  ", 0) == Parsed(Symbol("oxidation_state.notable"), 23)
    ensures ParseSymbol("CamelCase  ", 0) == Parsed(Symbol("CamelCase"), 9)
  {
    hide *;
    AtomicNumberName(); OxidationStateName(); CamelCaseName();
    SymbolThenSpace("atomic_number", " ");
    SymbolThenSpace("oxidation_state.notable", "  ");
    SymbolThenSpace("CamelCase", "  ");
    SymbolTexts();
  }

  lemma SymbolTexts()
    ensures "atomic_number" + " " == "atomic_number "
    ensures "oxidation_state.notable" + "  " == "oxidation_state.notable  "
    ensures "CamelCase" + "  " == "CamelCase  "
    ensures |"atomic_number"| == 13 && |"oxidation_state.notable"| == 23 && |"CamelCase"| == 9
  {
  }

  /** The run of identifier characters from `i` ends at `j`. */
  lemma {:induction false} IdentEndOver(s: string, i: nat, j: nat)
    requires i <= j <= |s| && forall q :: i <= q < j ==> IsIdentChar(s[q])
    requires j == |s| || !IsIdentChar(s[j])
    ensures IdentEnd(s, i) == j
    decreases j - i
  {
    if i < j {
      IdentEndOver(s, i + 1, j);
    }
  }

  /** A dot not followed by a letter ends the symbol before it: `oxidation..state` reads as `oxidation`. */
  lemma DoubleDotTest()
    ensures ParseSymbol("oxidation..state  ", 0) == Parsed(Symbol("oxidation"), 9)
  {
    var s := "oxidation..state  ";
    SkipSpaceAt(s, 0);
    IdentEndOver(s, 1, 9);
    assert PartEnd(s, 0) == Some(9);
    assert Tag(s, 9, ".") && PartEnd(s, 10).None?;
    assert DottedEnd(s, 9) == 9;
    assert s[0..9] == "oxidation";
  }

  /** A symbol starts with a letter, so neither `_` nor `.` can begin one. */
  lemma SymbolRejectsTest()
    ensures ParseSymbol("_oxidation_state  ", 0) == NoParse
    ensures ParseSymbol(".oxidation", 0) == NoParse
  {
    SkipSpaceAt("_oxidation_state  ", 0);
    SkipSpaceAt(".oxidation", 0);
  }

  /** Leading whitespace is skipped; the trailing space is left unread. */
  lemma LiteralBoolTest()
    ensures LiteralBool("  true ", 0) == Parsed(LBool(true), 6)
  {
    var s := "  true ";
    SkipOneSpace(s, 1);
    assert SkipSpace(s, 0) == 2;
    assert s[2..6] == "true";
  }

  /** A literal takes its own leading `-`. */
  lemma LiteralIntTest()
    ensures LiteralInt("  -15 ", 0) == Parsed(LInt(-15), 5)
  {
    var s := "  -15 ";
    SmallInts();
    SkipOneSpace(s, 1);
    assert SkipSpace(s, 0) == 2;
    IntSkipsSpace(s, 0);
    assert s[2..5] == "-15";
    LiteralIntReads(s, 2, -15);
  }

  // ---------------------------------------------------------------------
  // Texts the parser refuses or reads unexpectedly
  // ---------------------------------------------------------------------

  /** No primary starts at a `!`. */
  lemma PrimaryAtBang(s: string, i: nat)
    requires i < |s| && s[i] == '!'
    ensures Level(PrimaryLevel, s, i) == NoParse
  {
    SkipSpaceAt(s, i);
    assert DigitsEnd(s, i) == i;
    assert Parenthesised(s, i) == NoParse && LiteralSet(s, i) == NoParse;
    assert LiteralBool(s, i) == NoParse && LiteralInt(s, i) == NoParse;
    assert ParseSymbol(s, i) == NoParse;
  }

  /** A unary level fails where its operand level fails, unless its tag is there with an operand after it. */
  lemma UnaryFails(k: nat, s: string, i: nat)
    requires 13 <= k < PrimaryLevel && i <= |s| && Level(k + 1, s, i) == NoParse
    requires Tag(s, SkipSpace(s, i), Ladder[k].tag) ==> Level(k + 1, s, SkipSpace(s, i) + |Ladder[k].tag|) == NoParse
    ensures Level(k, s, i) == NoParse
  {
    LadderShape();
  }

  /** Facts about the text `!!a`. */
  lemma BangsText(s: string)
    requires s == "!!a"
    ensures SkipSpace(s, 0) == 0 && SkipSpace(s, 1) == 1
    ensures Ladder[13].tag == "!" && Ladder[14].tag == "-"
    ensures !Tag(s, 0, "-") && !Tag(s, 1, "-") && Tag(s, 0, "!")
    ensures s[0] == '!' && s[1] == '!' && |s| == 3
  {
    SkipSpaceAt(s, 0);
    SkipSpaceAt(s, 1);
  }

  /** The operand of `!` is of the next tighter level, so `!` cannot be repeated without parentheses. */
  lemma DoubleNotFails()
    ensures Parse("!!a", 0) == NoParse
    ensures New("!!a") == Err(SyntaxError)
  {
    hide *;
    var s := "!!a";
    LadderSize();
    BangsText(s);
    PrimaryAtBang(s, 0);
    PrimaryAtBang(s, 1);
    UnaryFails(14, s, 0);
    UnaryFails(14, s, 1);
    UnaryFails(13, s, 0);
    FailBinaries(0, 13, s, 0);
    ParseIsLevel(s, 0);
  }

  /** `1` inside a set, with a space after it: read up to the space. */
  lemma OneBeforeSpace(s: string)
    requires s == "{1 ,2}"
    ensures Parse(s, 1) == Parsed(LInt(1), 2)
  {
    hide *;
    LadderSize();
    SmallOne();
    IntPrint(1, 0);
    OneText(s);
    OneStops(s);
    RoundTrip(0, LInt(1), s, 1);
    ParseIsLevel(s, 1);
  }

  lemma OneText(s: string)
    requires s == "{1 ,2}"
    ensures Tag(s, 1, "1")
  {
    assert s[1..2] == "1";
  }

  lemma OneStops(s: string)
    requires s == "{1 ,2}"
    ensures Stop(s, 2, 0)
  {
    SkipOneSpace(s, 2);
    forall m | 0 <= m < 13
      ensures !TagAhead(s, 2, m)
    {
      TagsAreOperators(m);
      TagFirst(s, 3, Ladder[m].tag);
    }
  }

  lemma SmallOne()
    ensures IntText(1) == "1"
  {
  }

  /** The set literal of `{1 ,2}` ends after `1`, where no `}` follows. */
  lemma SetStopsAtSpace(s: string)
    requires s == "{1 ,2}"
    ensures Level(PrimaryLevel, s, 0) == NoParse
  {
    OneBeforeSpace(s);
    assert s[2..3][0] == ' ';
    assert !Tag(s, 2, ",");
    assert SetItems(s, 1) == ([LInt(1)], 2);
    SkipOneSpace(s, 2);
    assert s[3..4][0] == ',';
    assert !Tag(s, 3, "}");
    SkipSpaceAt(s, 0);
    assert Tag(s, 0, "{");
    PrimaryAtBrace(s, 0);
  }

  lemma BraceText(s: string)
    requires s == "{1 ,2}"
    ensures SkipSpace(s, 0) == 0 && !Tag(s, 0, "!") && !Tag(s, 0, "-")
    ensures Ladder[13].tag == "!" && Ladder[14].tag == "-"
  {
    SkipSpaceAt(s, 0);
  }

  /** No whitespace may come before a comma in a set: `{1 ,2}` does not parse. */
  lemma SpaceBeforeCommaFails()
    ensures Parse("{1 ,2}", 0) == NoParse
    ensures New("{1 ,2}") == Err(SyntaxError)
  {
    hide *;
    var s := "{1 ,2}";
    LadderSize();
    BraceText(s);
    SetStopsAtSpace(s);
    UnaryFails(14, s, 0);
    UnaryFails(13, s, 0);
    FailBinaries(0, 13, s, 0);
    ParseIsLevel(s, 0);
  }

  /** Facts about the text `z index`. */
  lemma ZIndexText(s: string)
    requires s == "z index"
    ensures Tag(s, 0, "z") && Tag(s, 2, "in") && Tag(s, 4, "dex") && |s| == 7
    ensures SkipSpace(s, 1) == 2 && SkipSpace(s, 4) == 4
  {
    assert s[0..1] == "z";
    assert s[2..4] == "in";
    assert s[4..7] == "dex";
    SkipOneSpace(s, 1);
    SkipSpaceAt(s, 4);
  }

  /** After `z` no arithmetic operator follows, so `z` ends at the arithmetic levels. */
  lemma ZStops(s: string)
    requires s == "z index"
    ensures Stop(s, 1, 9)
  {
    SkipOneSpace(s, 1);
    forall m | 9 <= m < 13
      ensures !TagAhead(s, 1, m)
    {
      UpperTags(m);
      TagFirst(s, 2, Ladder[m].tag);
    }
  }

  /**
   * An operator tag is matched as a bare prefix, without a word boundary:
   * `z index` reads as `z in dex`.
   */
  lemma InsideWordIsOperator()
    ensures Parse("z index", 0) == Parsed(BinaryOp(InSet, Symbol("z"), Symbol("dex")), 7)
    ensures New("z index") == Ok(Query(BinaryOp(InSet, Symbol("z"), Symbol("dex"))))
  {
    hide *;
    var s := "z index";
    var e := BinaryOp(InSet, Symbol("z"), Symbol("dex"));
    LadderSize();
    Tags();
    ShortNames();
    ZIndexText(s);
    ZStops(s);
    SymbolPrint("z", 9);
    SymbolPrint("dex", 9);
    StopAtBlankEnd(s, 7, 0);
    StopAtBlankEnd(s, 7, 8);
    StopAtBlankEnd(s, 7, 9);
    RoundTrip(9, Symbol("z"), s, 0);
    RoundTrip(9, Symbol("dex"), s, 4);
    BinaryLevelFolds(8, s, 0);
    FoldStep(8, InSet, Symbol("z"), s, 1, Symbol("dex"), 7);
    FoldStops(8, e, s, 7);
    LiftBinaries(0, 8, s, 0, e, 7);
    ParseIsLevel(s, 0);
    Pads();
    assert s[7..] == "";
  }

  lemma ShortNames()
    ensures IsSymbolName("z") && !StartsWith("z", "true") && !StartsWith("z", "false")
    ensures IsSymbolName("dex") && !StartsWith("dex", "true") && !StartsWith("dex", "false")
  {
  }

  /** The tags of the arithmetic levels start with none of the letters. */
  lemma UpperTags(m: nat)
    requires 9 <= m < 13
    ensures |Ladder[m].tag| > 0 && !IsAlpha(Ladder[m].tag[0])
  {
  }

  // ---------------------------------------------------------------------
  // Evaluations
  // ---------------------------------------------------------------------

  /**
   * Symbols are case-sensitive, and `||` evaluates both its operands: the
   * precedence test's query fails on every element, although its left
   * operand is `true`.
   */
  lemma UpperCaseSymbolFails(el: Element)
    ensures var q := Query(BinaryOp(Or, LBool(true),
        BinaryOp(And, BinaryOp(GreaterThan, Symbol("Z"), LInt(13)), BinaryOp(LessThan, Symbol("Z"), LInt(55)))));
      EvaluateOn(q, el) == Err(EvalFailure(UnknownSymbol("Z")))
  {
    assert "Z" != "z";
    assert Resolve("Z", el) == Err(UnknownSymbol("Z"));
  }

  /** `atomic_number == 5` holds exactly of boron. */
  lemma AtomicNumberQuery(el: Element)
    ensures EvaluateOn(Query(BinaryOp(Equal, Symbol("atomic_number"), LInt(5))), el) == Ok(el.atomicNumber == 5)
  {
  }

  /** `2 in oxidation_states.common` holds exactly when 2 is a common oxidation state. */
  lemma CommonStateQuery(el: Element)
    ensures EvaluateOn(Query(BinaryOp(InSet, LInt(2), Symbol("oxidation_states.common"))), el)
      == Ok(2 in el.oxidationStates.common)
  {
    var v := StatesValue(el.oxidationStates.common);
    assert Resolve("oxidation_states.common", el) == Ok(v);
    assert Int(2 as i32) in v.members <==> 2 in el.oxidationStates.common;
  }

  /** Values of different kinds are not compared: `1 == true` is a mismatch, not `false`. */
  lemma MixedEqualityFails(el: Element)
    ensures Eval(BinaryOp(Equal, LInt(1), LBool(true)), el) == Err(BinaryMismatch(Equal, Int(1), Bool(true)))
  {
  }

  /** An integer literal in front of a list of items adds its value to theirs. */
  lemma ConsInt(n: i32, rest: seq<Expr>, el: Element)
    requires EvalItems(rest, el).Ok?
    ensures EvalItems([LInt(n)] + rest, el) == Ok({Int(n)} + EvalItems(rest, el).value)
  {
    assert ([LInt(n)] + rest)[1..] == rest;
  }

  /** The small literal sets the membership examples use. */
  lemma IntSets(el: Element)
    ensures Eval(LSet([LInt(1), LInt(2), LInt(3)]), el) == Ok(Set({Int(1), Int(2), Int(3)}))
    ensures Eval(LSet([LInt(1), LInt(2)]), el) == Ok(Set({Int(1), Int(2)}))
    ensures Eval(LSet([LInt(1), LInt(4)]), el) == Ok(Set({Int(1), Int(4)}))
  {
    ConsInt(2, [], el);
    assert [LInt(2)] + [] == [LInt(2)];
    assert EvalItems([LInt(2)], el) == Ok({Int(2)} + {});
    ConsInt(1, [LInt(2)], el);
    assert [LInt(1)] + [LInt(2)] == [LInt(1), LInt(2)];
    assert EvalItems([LInt(1), LInt(2)], el) == Ok({Int(1)} + ({Int(2)} + {}));
    assert {Int(1)} + ({Int(2)} + {}) == {Int(1), Int(2)};

    ConsInt(4, [], el);
    assert [LInt(4)] + [] == [LInt(4)];
    assert EvalItems([LInt(4)], el) == Ok({Int(4)} + {});
    ConsInt(1, [LInt(4)], el);
    assert [LInt(1)] + [LInt(4)] == [LInt(1), LInt(4)];
    assert EvalItems([LInt(1), LInt(4)], el) == Ok({Int(1)} + ({Int(4)} + {}));
    assert {Int(1)} + ({Int(4)} + {}) == {Int(1), Int(4)};

    ConsInt(3, [], el);
    assert [LInt(3)] + [] == [LInt(3)];
    assert EvalItems([LInt(3)], el) == Ok({Int(3)} + {});
    ConsInt(2, [LInt(3)], el);
    assert [LInt(2)] + [LInt(3)] == [LInt(2), LInt(3)];
    assert EvalItems([LInt(2), LInt(3)], el) == Ok({Int(2)} + ({Int(3)} + {}));
    ConsInt(1, [LInt(2), LInt(3)], el);
    assert [LInt(1)] + [LInt(2), LInt(3)] == [LInt(1), LInt(2), LInt(3)];
    assert EvalItems([LInt(1), LInt(2), LInt(3)], el) == Ok({Int(1)} + ({Int(2)} + ({Int(3)} + {})));
    assert {Int(1)} + ({Int(2)} + ({Int(3)} + {})) == {Int(1), Int(2), Int(3)};
  }

  /** `in` tests membership of an integer and inclusion of a set. */
  lemma MembershipValues(el: Element)
    ensures Eval(BinaryOp(InSet, LInt(1), LSet([LInt(1), LInt(2), LInt(3)])), el) == Ok(Bool(true))
    ensures Eval(BinaryOp(InSet, LSet([LInt(1), LInt(2)]), LSet([LInt(1), LInt(2), LInt(3)])), el) == Ok(Bool(true))
    ensures Eval(BinaryOp(InSet, LSet([LInt(1), LInt(4)]), LSet([LInt(1), LInt(2), LInt(3)])), el) == Ok(Bool(false))
  {
    IntSets(el);
    assert Int(4) !in {Int(1), Int(2), Int(3)};
  }

  /** A query whose value is not a boolean is refused, not read as true or false. */
  lemma IntegerQueryRefused(el: Element)
    ensures EvaluateOn(Query(LInt(5)), el) == Err(NotBoolean(Int(5)))
  {
  }

  /** The filter `z == 1 || (group == 1 && period >= 2)`. */
  const SodiumFilter := Query(BinaryOp(Or,
    BinaryOp(Equal, Symbol("z"), LInt(1)),
    BinaryOp(And, BinaryOp(Equal, Symbol("group"), LInt(1)), BinaryOp(GreaterEqual, Symbol("period"), LInt(2)))))

  /** Sodium, of period 3 and group 1, satisfies `z == 1 || (group == 1 && period >= 2)`. */
  lemma SodiumQuery(table: map<string, OxidationStates>)
    requires All(table).Some?
    ensures EvaluateOn(SodiumFilter, All(table).value[10]) == Ok(true)
  {
    SodiumRecord(table);
    SodiumAnswer(All(table).value[10]);
  }

  /** Any element of number 11, period 3 and group 1 satisfies the filter. */
  lemma SodiumAnswer(el: Element)
    requires el.atomicNumber == 11 && el.period == 3 && el.group == Some(1)
    ensures EvaluateOn(SodiumFilter, el) == Ok(true)
  {
    SodiumSymbols(el);
    assert Eval(BinaryOp(Equal, Symbol("z"), LInt(1)), el) == Ok(Bool(false));
    assert Eval(BinaryOp(Equal, Symbol("group"), LInt(1)), el) == Ok(Bool(true));
    assert Eval(BinaryOp(GreaterEqual, Symbol("period"), LInt(2)), el) == Ok(Bool(true));
  }

  /** The symbols of the sodium query, read on an element of number 11, period 3 and group 1. */
  lemma SodiumSymbols(el: Element)
    requires el.atomicNumber == 11 && el.period == 3 && el.group == Some(1)
    ensures Eval(Symbol("z"), el) == Ok(Int(11))
    ensures Eval(Symbol("group"), el) == Ok(Int(1))
    ensures Eval(Symbol("period"), el) == Ok(Int(3))
  {
  }

  /** The eleventh record of the table is sodium's: number 11, period 3, group 1. */
  lemma SodiumRecord(table: map<string, OxidationStates>)
    requires All(table).Some?
    ensures var el := All(table).value[10];
      el.atomicNumber == 11 && el.period == 3 && el.group == Some(1)
  {
    assert (All(table).value[10].period, All(table).value[10].group) == PeriodGroup(11);
  }

  /** `10 - 2 - 3` is 5, as `(10 - 2) - 3`, and not 11. */
  lemma LeftFoldValue(el: Element)
    ensures var e := BinaryOp(BinaryOperator.Minus, BinaryOp(BinaryOperator.Minus, LInt(10), LInt(2)), LInt(3));
      Parse("10 - 2 - 3", 0) == Parsed(e, 10) && Eval(e, el) == Ok(Int(5))
  {
    LeftFoldTest();
  }
}

/**
 * Evaluation of a query expression against one element record.
 *
 * Operands are evaluated left before right and the members of a set
 * literal in written order; the first failure is the result. Integer
 * arithmetic that leaves the 32-bit range, and division by zero, are
 * failures of their own rather than aborts of the program.
 */
module Evaluation {
  import opened Ints
  import opened Syntax
  import opened Elements

  /** A run-time value; a set literal's members, like any set, carry no order or multiplicity. */
  datatype Value = Bool(b: bool) | Int(n: i32) | Set(members: set<Value>)

  datatype EvalError =
    | UnknownSymbol(name: string)
    | UnaryMismatch(uop: UnaryOperator, operand: Value)
    | BinaryMismatch(bop: BinaryOperator, left: Value, right: Value)
    | Overflow
    | DivisionByZero

  /** Failures of the integer arithmetic itself, as opposed to ill-typed operands. */
  predicate IsArithmetic(err: EvalError) {
    err.Overflow? || err.DivisionByZero?
  }

  // ---------------------------------------------------------------------
  // Kinds of values: a reference type discipline for the evaluator
  // ---------------------------------------------------------------------

  datatype Kind = KBool | KInt | KSet

  function KindOf(v: Value): Kind {
    match v
    case Bool(_) => KBool
    case Int(_) => KInt
    case Set(_) => KSet
  }

  /** The symbols an element provides, with the kind of value each names. */
  const SymbolKinds: map<string, Kind> := map[
    "atomic_number" := KInt,
    "z" := KInt,
    "group" := KInt,
    "period" := KInt,
    "block" := KInt,
    "oxidation_states.common" := KSet,
    "oxidation_states.notable" := KSet,
    "oxidation_states.predicted" := KSet,
    "oxidation_states.citation_needed" := KSet
  ]

  function UnaryKind(op: UnaryOperator, k: Kind): Option<Kind> {
    match op
    case Not => if k == KBool then Some(KBool) else None
    case Minus => if k == KInt then Some(KInt) else None
  }

  /** The operators `+` to `/` applied to two integers. */
  predicate IntArithmetic(op: BinaryOperator) {
    op.Plus? || op.Minus? || op.Multiply? || op.Divide?
  }

  /**
   * Typing of the binary operators by family: logic on booleans, equality
   * on two values of one kind, ordering and `*`, `/` on integers, `+`
   * and `-` on two integers or two sets, and `in` with a set on the right.
   */
  function BinaryKind(op: BinaryOperator, kl: Kind, kr: Kind): Option<Kind> {
    match op
    case Or | And => if kl == KBool && kr == KBool then Some(KBool) else None
    case Equal | NotEqual => if kl == kr then Some(KBool) else None
    case LessThan | LessEqual | GreaterThan | GreaterEqual =>
      if kl == KInt && kr == KInt then Some(KBool) else None
    case Plus | Minus => if kl == kr && kl != KBool then Some(kl) else None
    case Multiply | Divide => if kl == KInt && kr == KInt then Some(KInt) else None
    case InSet => if kr == KSet then Some(KBool) else None
  }

  /** The kind of value `e` would have on any element, or `None` if it is ill-typed. */
  function TypeOf(e: Expr): Option<Kind>
    decreases e, 1
  {
    match e
    case LBool(_) => Some(KBool)
    case LInt(_) => Some(KInt)
    case Symbol(name) => if name in SymbolKinds then Some(SymbolKinds[name]) else None
    case LSet(items) => if ItemsTyped(items) then Some(KSet) else None
    case UnaryOp(op, x) =>
      var k := TypeOf(x);
      if k.None? then None else UnaryKind(op, k.value)
    case BinaryOp(op, l, r) =>
      var kl, kr := TypeOf(l), TypeOf(r);
      if kl.None? || kr.None? then None else BinaryKind(op, kl.value, kr.value)
  }

  predicate ItemsTyped(items: seq<Expr>)
    decreases items, 0
  {
    |items| == 0 || (TypeOf(items[0]).Some? && ItemsTyped(items[1..]))
  }

  // ---------------------------------------------------------------------
  // The evaluator
  // ---------------------------------------------------------------------

  /** An oxidation-state set of an element as a set of integer values. */
  function StatesValue(xs: set<i8>): (v: Value)
    ensures v.Set?
    ensures forall a: i8 :: Int(a as i32) in v.members <==> a in xs
    ensures forall w :: w in v.members ==> w.Int? && -0x80 <= w.n < 0x80
  {
    Set(set a | a in xs :: Int(a as i32))
  }

  /**
   * The value a symbol names on `el`: `z` is another name of the atomic
   * number, and an element without a group has group -1.
   */
  function Resolve(name: string, el: Element): (r: Result<Value, EvalError>)
    ensures r.Ok? <==> name in SymbolKinds
    ensures r.Ok? ==> KindOf(r.value) == SymbolKinds[name]
    ensures r.Err? ==> r.error == UnknownSymbol(name)
    ensures name == "atomic_number" || name == "z" ==> r == Ok(Int(el.atomicNumber as i32))
    ensures name == "group" ==>
      && r.Ok? && r.value.Int?
      && (el.group.Some? ==> r.value.n as int == el.group.value as int)
      && (el.group.None? ==> r.value.n == -1)
    ensures name == "period" ==> r == Ok(Int(el.period as i32))
    ensures name == "block" ==> r == Ok(Int(el.block as i32))
    ensures name == "oxidation_states.common" ==> r == Ok(StatesValue(el.oxidationStates.common))
    ensures name == "oxidation_states.notable" ==> r == Ok(StatesValue(el.oxidationStates.notable))
    ensures name == "oxidation_states.predicted" ==> r == Ok(StatesValue(el.oxidationStates.predicted))
    ensures name == "oxidation_states.citation_needed" ==> r == Ok(StatesValue(el.oxidationStates.citationNeeded))
  {
    if name == "atomic_number" || name == "z" then Ok(Int(el.atomicNumber as i32))
    else if name == "group" then Ok(Int(if el.group.Some? then el.group.value as i32 else -1))
    else if name == "period" then Ok(Int(el.period as i32))
    else if name == "block" then Ok(Int(el.block as i32))
    else if name == "oxidation_states.common" then Ok(StatesValue(el.oxidationStates.common))
    else if name == "oxidation_states.notable" then Ok(StatesValue(el.oxidationStates.notable))
    else if name == "oxidation_states.predicted" then Ok(StatesValue(el.oxidationStates.predicted))
    else if name == "oxidation_states.citation_needed" then
      Ok(StatesValue(el.oxidationStates.citationNeeded))
    else Err(UnknownSymbol(name))
  }

  /** A mathematical integer as an `i32` value, or the overflow failure. */
  function Checked(x: int): (r: Result<Value, EvalError>)
    ensures r.Ok? <==> InI32(x)
    ensures r.Ok? ==> r.value.Int? && r.value.n as int == x
    ensures r.Err? ==> r.error == Overflow
  {
    if InI32(x) then Ok(Int(x as i32)) else Err(Overflow)
  }

  function ApplyUnary(op: UnaryOperator, v: Value): (r: Result<Value, EvalError>)
    ensures r.Ok? ==> UnaryKind(op, KindOf(v)) == Some(KindOf(r.value))
    ensures UnaryKind(op, KindOf(v)).None? <==> r == Err(UnaryMismatch(op, v))
    ensures r.Err? && UnaryKind(op, KindOf(v)).Some? ==>
      op == UnaryOperator.Minus && v == Int(I32Min as i32) && r.error == Overflow
    ensures r.Ok? && op == Not ==> r.value.b != v.b
    ensures r.Ok? && op == UnaryOperator.Minus ==> r.value.n as int + v.n as int == 0
  {
    match op
    case Not => if v.Bool? then Ok(Bool(!v.b)) else Err(UnaryMismatch(op, v))
    case Minus => if v.Int? then Checked(-(v.n as int)) else Err(UnaryMismatch(op, v))
  }

  function ApplyBinary(op: BinaryOperator, a: Value, b: Value): (r: Result<Value, EvalError>)
    ensures r.Ok? ==> BinaryKind(op, KindOf(a), KindOf(b)) == Some(KindOf(r.value))
    ensures BinaryKind(op, KindOf(a), KindOf(b)).None? <==> r == Err(BinaryMismatch(op, a, b))
    ensures r.Err? && BinaryKind(op, KindOf(a), KindOf(b)).Some? ==>
      IntArithmetic(op) && a.Int? && b.Int? && IsArithmetic(r.error)
    ensures r == Err(DivisionByZero) <==> op == Divide && a.Int? && b == Int(0)
  {
    match (op, a, b)
    case (Or, Bool(x), Bool(y)) => Ok(Bool(x || y))
    case (And, Bool(x), Bool(y)) => Ok(Bool(x && y))
    case (Equal, Bool(x), Bool(y)) => Ok(Bool(x == y))
    case (Equal, Int(x), Int(y)) => Ok(Bool(x == y))
    case (Equal, Set(x), Set(y)) => Ok(Bool(x == y))
    case (NotEqual, Bool(x), Bool(y)) => Ok(Bool(x != y))
    case (NotEqual, Int(x), Int(y)) => Ok(Bool(x != y))
    case (NotEqual, Set(x), Set(y)) => Ok(Bool(x != y))
    case (LessThan, Int(x), Int(y)) => Ok(Bool(x < y))
    case (LessEqual, Int(x), Int(y)) => Ok(Bool(x <= y))
    case (GreaterThan, Int(x), Int(y)) => Ok(Bool(x > y))
    case (GreaterEqual, Int(x), Int(y)) => Ok(Bool(x >= y))
    case (Plus, Int(x), Int(y)) => Checked(x as int + y as int)
    case (Minus, Int(x), Int(y)) => Checked(x as int - y as int)
    case (Multiply, Int(x), Int(y)) => Checked(x as int * y as int)
    case (Divide, Int(x), Int(y)) =>
      if y == 0 then Err(DivisionByZero) else Checked(TruncDiv(x as int, y as int))
    case (Plus, Set(x), Set(y)) => Ok(Set(x + y))
    case (Minus, Set(x), Set(y)) => Ok(Set(x - y))
    case (InSet, Int(_), Set(y)) => Ok(Bool(a in y))
    case (InSet, Bool(_), Set(y)) => Ok(Bool(a in y))
    case (InSet, Set(x), Set(y)) => Ok(Bool(x <= y))
    case _ => Err(BinaryMismatch(op, a, b))
  }

  /** `||` and `&&` are the boolean connectives, and `==`, `!=` compare whole values of one kind. */
  lemma LogicValues(x: bool, y: bool, a: Value, b: Value)
    ensures ApplyBinary(Or, Bool(x), Bool(y)) == Ok(Bool(x || y))
    ensures ApplyBinary(And, Bool(x), Bool(y)) == Ok(Bool(x && y))
    ensures KindOf(a) == KindOf(b) ==> ApplyBinary(Equal, a, b) == Ok(Bool(a == b))
    ensures KindOf(a) == KindOf(b) ==> ApplyBinary(NotEqual, a, b) == Ok(Bool(a != b))
  {
  }

  /** The orderings compare integers; `>` and `>=` are `<` and `<=` with the operands swapped. */
  lemma OrderValues(x: i32, y: i32)
    ensures ApplyBinary(LessThan, Int(x), Int(y)) == Ok(Bool(x < y))
    ensures ApplyBinary(LessEqual, Int(x), Int(y)) == Ok(Bool(x < y || x == y))
    ensures ApplyBinary(GreaterThan, Int(x), Int(y)) == ApplyBinary(LessThan, Int(y), Int(x))
    ensures ApplyBinary(GreaterEqual, Int(x), Int(y)) == ApplyBinary(LessEqual, Int(y), Int(x))
  {
  }

  /** `+`, `-` and `*` on integers are the mathematical results, kept when they fit 32 bits. */
  lemma ArithmeticValues(x: i32, y: i32)
    ensures ApplyBinary(Plus, Int(x), Int(y)) == Checked(x as int + y as int)
    ensures ApplyBinary(BinaryOperator.Minus, Int(x), Int(y)) == Checked(x as int - y as int)
    ensures ApplyBinary(Multiply, Int(x), Int(y)) == Checked(x as int * y as int)
    ensures ApplyBinary(Plus, Int(x), Int(y)) == ApplyBinary(Plus, Int(y), Int(x))
    ensures ApplyBinary(Multiply, Int(x), Int(y)) == ApplyBinary(Multiply, Int(y), Int(x))
  {
  }

  /**
   * On sets `+` is union and `-` difference, member by member; `in` is
   * membership for a boolean or integer on the left and inclusion for a set.
   */
  lemma SetValues(x: set<Value>, y: set<Value>, a: Value)
    ensures ApplyBinary(Plus, Set(x), Set(y)).Ok?
    ensures forall v :: v in ApplyBinary(Plus, Set(x), Set(y)).value.members <==> v in x || v in y
    ensures ApplyBinary(BinaryOperator.Minus, Set(x), Set(y)).Ok?
    ensures forall v :: v in ApplyBinary(BinaryOperator.Minus, Set(x), Set(y)).value.members <==> v in x && v !in y
    ensures !a.Set? ==> ApplyBinary(InSet, a, Set(y)) == Ok(Bool(a in y))
    ensures ApplyBinary(InSet, Set(x), Set(y)) == Ok(Bool(forall v :: v in x ==> v in y))
  {
  }

  /**
   * Integer division rounds toward zero, and the only quotient that leaves
   * the 32-bit range is the least integer divided by -1.
   */
  lemma DivideMeaning(x: i32, y: i32)
    requires y != 0
    ensures ApplyBinary(Divide, Int(x), Int(y)) == Err(Overflow) <==> x as int == I32Min && y == -1
    ensures ApplyBinary(Divide, Int(x), Int(y)).Ok? ==>
      var q := ApplyBinary(Divide, Int(x), Int(y)).value.n as int;
      var rem := x as int - q * y as int;
      && Abs(rem) < Abs(y as int)
      && (rem == 0 || (rem < 0 <==> x < 0))
  {
    var a, b := x as int, y as int;
    var q := TruncDiv(a, b);
    I32Limits();
    if a == I32Min && b == -1 {
      assert q * b == a by { assert Abs(a - q * b) < 1; }
    } else if !InI32(q) {
      assert false;
    }
  }

  /** The value of `e` on the element `el`. */
  function Eval(e: Expr, el: Element): (r: Result<Value, EvalError>)
    ensures r.Ok? ==> TypeOf(e) == Some(KindOf(r.value))
    ensures TypeOf(e).Some? && r.Err? ==> IsArithmetic(r.error)
    decreases e, 1
  {
    match e
    case LBool(b) => Ok(Bool(b))
    case LInt(n) => Ok(Int(n))
    case Symbol(name) => Resolve(name, el)
    case LSet(items) =>
      var vs := EvalItems(items, el);
      if vs.Err? then Err(vs.error) else Ok(Set(vs.value))
    case UnaryOp(op, x) =>
      var v := Eval(x, el);
      if v.Err? then v else ApplyUnary(op, v.value)
    case BinaryOp(op, l, r) =>
      var vl := Eval(l, el);
      if vl.Err? then vl
      else
        var vr := Eval(r, el);
        if vr.Err? then vr else ApplyBinary(op, vl.value, vr.value)
  }

  /** The members of a set literal, collected in order up to the first failure. */
  function EvalItems(items: seq<Expr>, el: Element): (r: Result<set<Value>, EvalError>)
    ensures r.Ok? ==> ItemsTyped(items)
    ensures ItemsTyped(items) && r.Err? ==> IsArithmetic(r.error)
    decreases items, 0
  {
    if |items| == 0 then Ok({})
    else
      var v := Eval(items[0], el);
      if v.Err? then Err(v.error)
      else
        var rest := EvalItems(items[1..], el);
        if rest.Err? then rest else Ok({v.value} + rest.value)
  }

  // ---------------------------------------------------------------------
  // What evaluation guarantees
  // ---------------------------------------------------------------------

  /** No `+`, `-`, `*` or `/` and no unary minus anywhere in `e`. */
  predicate ArithmeticFree(e: Expr)
    decreases e
  {
    match e
    case LBool(_) => true
    case LInt(_) => true
    case Symbol(_) => true
    case LSet(items) => forall i :: 0 <= i < |items| ==> ArithmeticFree(items[i])
    case UnaryOp(op, x) => op == Not && ArithmeticFree(x)
    case BinaryOp(op, l, r) => !IntArithmetic(op) && ArithmeticFree(l) && ArithmeticFree(r)
  }

  /** Overflow and division by zero come only from arithmetic operators. */
  lemma {:induction false} ArithmeticFailureSource(e: Expr, el: Element)
    requires ArithmeticFree(e)
    ensures Eval(e, el).Err? ==> !IsArithmetic(Eval(e, el).error)
    decreases e, 1
  {
    match e
    case LBool(_) =>
    case LInt(_) =>
    case Symbol(_) =>
    case LSet(items) => ItemsFailureSource(items, el);
    case UnaryOp(_, x) => ArithmeticFailureSource(x, el);
    case BinaryOp(_, l, r) => ArithmeticFailureSource(l, el); ArithmeticFailureSource(r, el);
  }

  lemma {:induction false} ItemsFailureSource(items: seq<Expr>, el: Element)
    requires forall i :: 0 <= i < |items| ==> ArithmeticFree(items[i])
    ensures EvalItems(items, el).Err? ==> !IsArithmetic(EvalItems(items, el).error)
    decreases items, 0
  {
    if |items| > 0 {
      ArithmeticFailureSource(items[0], el);
      ItemsFailureSource(items[1..], el);
    }
  }

  /** A well-typed query without integer arithmetic evaluates on every element. */
  lemma WellTypedEvaluates(e: Expr, el: Element)
    requires TypeOf(e).Some? && ArithmeticFree(e)
    ensures Eval(e, el).Ok? && KindOf(Eval(e, el).value) == TypeOf(e).value
  {
    ArithmeticFailureSource(e, el);
  }

  /** No symbol anywhere in `e`. */
  predicate Closed(e: Expr)
    decreases e
  {
    match e
    case LBool(_) => true
    case LInt(_) => true
    case Symbol(_) => false
    case LSet(items) => forall i :: 0 <= i < |items| ==> Closed(items[i])
    case UnaryOp(_, x) => Closed(x)
    case BinaryOp(_, l, r) => Closed(l) && Closed(r)
  }

  /** Only symbols look at the element: a closed query means the same on every element. */
  lemma {:induction false} ClosedIgnoresElement(e: Expr, el1: Element, el2: Element)
    requires Closed(e)
    ensures Eval(e, el1) == Eval(e, el2)
    decreases e, 1
  {
    match e
    case LBool(_) =>
    case LInt(_) =>
    case Symbol(_) =>
    case LSet(items) => ClosedItemsIgnoreElement(items, el1, el2);
    case UnaryOp(_, x) => ClosedIgnoresElement(x, el1, el2);
    case BinaryOp(_, l, r) => ClosedIgnoresElement(l, el1, el2); ClosedIgnoresElement(r, el1, el2);
  }

  lemma {:induction false} ClosedItemsIgnoreElement(items: seq<Expr>, el1: Element, el2: Element)
    requires forall i :: 0 <= i < |items| ==> Closed(items[i])
    ensures EvalItems(items, el1) == EvalItems(items, el2)
    decreases items, 0
  {
    if |items| > 0 {
      ClosedIgnoresElement(items[0], el1, el2);
      ClosedItemsIgnoreElement(items[1..], el1, el2);
    }
  }

  /**
   * A set literal succeeds exactly when every member does, and then holds
   * their values; otherwise it fails with the failure of its first failing
   * member.
   */
  lemma {:induction false} EvalItemsMeaning(items: seq<Expr>, el: Element)
    ensures EvalItems(items, el).Ok? <==> forall i :: 0 <= i < |items| ==> Eval(items[i], el).Ok?
    ensures EvalItems(items, el).Ok? ==>
      EvalItems(items, el).value == set i | 0 <= i < |items| && Eval(items[i], el).Ok? :: Eval(items[i], el).value
    ensures EvalItems(items, el).Err? ==>
      exists n :: 0 <= n < |items|
        && (forall i :: 0 <= i < n ==> Eval(items[i], el).Ok?)
        && Eval(items[n], el) == Err(EvalItems(items, el).error)
    decreases items
  {
    if |items| > 0 {
      var tail := items[1..];
      EvalItemsMeaning(tail, el);
      assert forall i :: 1 <= i < |items| ==> items[i] == tail[i - 1];
      if Eval(items[0], el).Ok? && EvalItems(tail, el).Err? {
        var m :| 0 <= m < |tail|
          && (forall i :: 0 <= i < m ==> Eval(tail[i], el).Ok?)
          && Eval(tail[m], el) == Err(EvalItems(tail, el).error);
        assert Eval(items[m + 1], el) == Err(EvalItems(items, el).error);
      }
      if EvalItems(items, el).Ok? {
        var all := set i | 0 <= i < |items| && Eval(items[i], el).Ok? :: Eval(items[i], el).value;
        var rest := set i | 0 <= i < |tail| && Eval(tail[i], el).Ok? :: Eval(tail[i], el).value;
        assert all == {Eval(items[0], el).value} + rest by {
          forall v | v in all ensures v in {Eval(items[0], el).value} + rest {
            var i :| 0 <= i < |items| && Eval(items[i], el).Ok? && v == Eval(items[i], el).value;
            if i > 0 { assert v == Eval(tail[i - 1], el).value; }
          }
          forall v | v in rest ensures v in all {
            var i :| 0 <= i < |tail| && Eval(tail[i], el).Ok? && v == Eval(tail[i], el).value;
            assert v == Eval(items[i + 1], el).value;
          }
        }
      }
    }
  }

  /** A one-member set literal holds the member's value. */
  lemma SingleItem(x: Expr, el: Element)
    requires Eval(x, el).Ok?
    ensures EvalItems([x], el) == Ok({Eval(x, el).value})
  {
    var one := [x];
    assert one[0] == x && one[1..] == [];
    assert EvalItems(one[1..], el) == Ok({});
    var v := Eval(x, el).value;
    assert EvalItems(one, el) == Ok({v} + {});
    assert {v} + {} == {v};
  }

  /** For a boolean or integer member `a`, `{a} in s` asks the same as `a in s`. */
  lemma SingletonIn(a: Expr, s: Expr, el: Element)
    requires Eval(a, el).Ok? && !Eval(a, el).value.Set?
    requires Eval(s, el).Ok? && Eval(s, el).value.Set?
    ensures Eval(BinaryOp(InSet, LSet([a]), s), el) == Eval(BinaryOp(InSet, a, s), el)
  {
    SingleItem(a, el);
  }

  /**
   * A set on the left of `in` asks for inclusion, not membership: `{1}`
   * is a member of `{{1}}` yet `{1} in {{1}}` is false, while `{1} in {1}`
   * is true.
   */
  lemma SetOnLeftIsInclusion(el: Element)
    ensures Eval(BinaryOp(InSet, LSet([LInt(1)]), LSet([LSet([LInt(1)])])), el) == Ok(Bool(false))
    ensures Eval(BinaryOp(InSet, LSet([LInt(1)]), LSet([LInt(1)])), el) == Ok(Bool(true))
  {
    SingleItem(LInt(1), el);
    SingleItem(LSet([LInt(1)]), el);
    assert Int(1) != Set({Int(1)});
  }

  /**
   * On the records of the element table the symbols take their documented
   * ranges: `z` is the position in the table, periods are 1-7, groups 1-18
   * or -1 exactly for the f-block, and blocks 0-3.
   */
  lemma TableSymbols(table: map<string, OxidationStates>, i: nat)
    requires All(table).Some? && i < |All(table).value|
    ensures var el := All(table).value[i];
      && Eval(Symbol("z"), el) == Ok(Int((i + 1) as i32))
      && Eval(Symbol("atomic_number"), el) == Eval(Symbol("z"), el)
      && (Eval(Symbol("period"), el).Ok? && 1 <= Eval(Symbol("period"), el).value.n <= 7)
      && (Eval(Symbol("group"), el).Ok? &&
          var g := Eval(Symbol("group"), el).value.n;
          (g == -1 <==> el.block == 3) && (g == -1 || 1 <= g <= 18))
      && (Eval(Symbol("block"), el).Ok? && 0 <= Eval(Symbol("block"), el).value.n <= 3)
  {
    var el := All(table).value[i];
    AllWellFormed(table, i);
    GroupRange(el.atomicNumber);
  }
}

/**
 * Element facts: the records of a chemical element, the period, group and
 * block derived from the atomic number, the table of all 118 elements, and
 * the line-driven builder of the oxidation-state table.
 */
module Elements {
  import opened Ints

  /** The four oxidation-state sets of one element, by evidentiary confidence. */
  datatype OxidationStates = OxidationStates(
    common: set<i8>,
    notable: set<i8>,
    predicted: set<i8>,
    citationNeeded: set<i8>)

  const NoStates := OxidationStates({}, {}, {}, {})

  /** One element record; `block` is 0 = s, 1 = p, 2 = d, 3 = f. */
  datatype Element = Element(
    atomicNumber: u8,
    symbol: string,
    group: Option<u8>,
    period: u8,
    block: u8,
    oxidationStates: OxidationStates)

  // ---------------------------------------------------------------------
  // Period, group and block
  // ---------------------------------------------------------------------

  /**
   * Period and group of the element with atomic number `z`; `(0, None)` for
   * an atomic number that names no element. The f-block rows carry no group.
   */
  function PeriodGroup(z: u8): (pg: (u8, Option<u8>))
    ensures pg == (0, None) <==> !IsElement(z as int)
    ensures IsElement(z as int) ==> 1 <= pg.0 <= 7
    ensures pg.1.Some? ==> 1 <= pg.1.value <= 18
  {
    if z == 1 then (1, Some(1))
    else if z == 2 then (1, Some(18))
    else if 3 <= z <= 10 then
      (2, Some(if z == 3 then 1 else if z == 4 then 2 else z + 8))
    else if 11 <= z <= 18 then
      (3, Some(if z == 11 then 1 else if z == 12 then 2 else z - 0))
    else if 19 <= z <= 36 then
      (4, Some(if z == 19 then 1 else if z == 20 then 2 else z - 18))
    else if 37 <= z <= 54 then
      (5, Some(if z == 37 then 1 else if z == 38 then 2 else z - 36))
    else if 55 <= z <= 86 then
      (6, if z == 55 then Some(1) else if z == 56 then Some(2)
          else if 57 <= z <= 70 then None else Some(z - 68))
    else if 87 <= z <= 118 then
      (7, if z == 87 then Some(1) else if z == 88 then Some(2)
          else if 89 <= z <= 102 then None else Some(z - 100))
    else (0, None)
  }

  /**
   * The block of an element from its group, period and atomic number, tried
   * in the order of the source's arms; `None` is the arm that panics.
   */
  function BlockOf(group: Option<u8>, period: u8, z: u8): (b: Option<u8>)
    ensures b.Some? ==> b.value <= 3
    ensures b == Some(3) <==> group.None? && z != 2
    ensures b.None? <==> z != 2 && group.Some? && (group.value == 0 || 18 < group.value)
  {
    if (group.Some? && 1 <= group.value <= 2) || z == 2 then Some(0)
    else if group.Some? && 13 <= group.value <= 18 then Some(1)
    else if group.Some? && 3 <= group.value <= 12 then Some(2)
    else if group.None? then Some(3)
    else None
  }

  predicate IsElement(z: int) {
    1 <= z <= 118
  }

  /** The periods are the rows 1-2, 3-10, 11-18, 19-36, 37-54, 55-86 and 87-118. */
  lemma PeriodRanges(z: u8)
    ensures PeriodGroup(z).0 ==
      if z == 0 then 0
      else if z <= 2 then 1
      else if z <= 10 then 2
      else if z <= 18 then 3
      else if z <= 36 then 4
      else if z <= 54 then 5
      else if z <= 86 then 6
      else if z <= 118 then 7
      else 0
    ensures !IsElement(z as int) ==> PeriodGroup(z) == (0, None)
  {
  }

  /** Only the fourteen lanthanoids La..Yb and actinoids Ac..No lack a group; all other groups are 1..18. */
  lemma GroupRange(z: u8)
    requires IsElement(z as int)
    ensures PeriodGroup(z).1.None? <==> 57 <= z <= 70 || 89 <= z <= 102
    ensures PeriodGroup(z).1.Some? ==> 1 <= PeriodGroup(z).1.value <= 18
  {
  }

  /** Group 3 of periods 6 and 7 is held by lutetium (71) and lawrencium (103). */
  lemma GroupThreeHolders(z: u8)
    ensures PeriodGroup(z) == (6, Some(3)) <==> z == 71
    ensures PeriodGroup(z) == (7, Some(3)) <==> z == 103
  {
  }

  /** The atomic number at a (period, group) cell of the table, if any. */
  function AtomicNumberAt(period: int, group: int): (z: Option<u8>)
    ensures z.Some? ==>
      && IsElement(z.value as int)
      && PeriodGroup(z.value).0 as int == period
      && PeriodGroup(z.value).1.Some? && PeriodGroup(z.value).1.value as int == group
  {
    if period == 1 && group == 1 then Some(1)
    else if period == 1 && group == 18 then Some(2)
    else if 2 <= period <= 3 && 1 <= group <= 2 then Some((8 * period - 14 + group) as u8)
    else if period == 2 && 13 <= group <= 18 then Some((group - 8) as u8)
    else if period == 3 && 13 <= group <= 18 then Some(group as u8)
    else if period == 4 && 1 <= group <= 18 then Some((group + 18) as u8)
    else if period == 5 && 1 <= group <= 18 then Some((group + 36) as u8)
    else if period == 6 && 1 <= group <= 2 then Some((group + 54) as u8)
    else if period == 6 && 3 <= group <= 18 then Some((group + 68) as u8)
    else if period == 7 && 1 <= group <= 2 then Some((group + 86) as u8)
    else if period == 7 && 3 <= group <= 18 then Some((group + 100) as u8)
    else None
  }

  /** Every element with a group is found again at its (period, group) cell. */
  lemma AtomicNumberAtInverts(z: u8)
    requires IsElement(z as int) && PeriodGroup(z).1.Some?
    ensures AtomicNumberAt(PeriodGroup(z).0 as int, PeriodGroup(z).1.value as int) == Some(z)
  {
  }

  /** No two elements with a group share a (period, group) cell. */
  lemma PeriodGroupUnique(z1: u8, z2: u8)
    requires IsElement(z1 as int) && IsElement(z2 as int)
    requires PeriodGroup(z1).1.Some? && PeriodGroup(z1) == PeriodGroup(z2)
    ensures z1 == z2
  {
    AtomicNumberAtInverts(z1);
    AtomicNumberAtInverts(z2);
  }

  /**
   * Blocks: s for groups 1-2 and helium, p for groups 13-18, d for groups
   * 3-12, f exactly for the elements without a group; the panicking arm is
   * never reached by a derived group.
   */
  lemma Blocks(z: u8)
    ensures BlockOf(PeriodGroup(z).1, PeriodGroup(z).0, z).Some?
    ensures var (p, g) := PeriodGroup(z);
      var b := BlockOf(g, p, z).value;
      && (b == 0 <==> z == 2 || (g.Some? && g.value <= 2))
      && (b == 1 <==> z != 2 && g.Some? && 13 <= g.value)
      && (b == 2 <==> g.Some? && 3 <= g.value <= 12)
      && (b == 3 <==> g.None?)
  {
  }

  // ---------------------------------------------------------------------
  // The table of all elements
  // ---------------------------------------------------------------------

  const SymbolsInZOrder: seq<string> := [
    "H", "He", "Li", "Be", "B", "C", "N", "O", "F", "Ne", "Na", "Mg", "Al", "Si", "P", "S", "Cl",
    "Ar", "K", "Ca", "Sc", "Ti", "V", "Cr", "Mn", "Fe", "Co", "Ni", "Cu", "Zn", "Ga", "Ge", "As",
    "Se", "Br", "Kr", "Rb", "Sr", "Y", "Zr", "Nb", "Mo", "Tc", "Ru", "Rh", "Pd", "Ag", "Cd", "In",
    "Sn", "Sb", "Te", "I", "Xe", "Cs", "Ba", "La", "Ce", "Pr", "Nd", "Pm", "Sm", "Eu", "Gd", "Tb",
    "Dy", "Ho", "Er", "Tm", "Yb", "Lu", "Hf", "Ta", "W", "Re", "Os", "Ir", "Pt", "Au", "Hg", "Tl",
    "Pb", "Bi", "Po", "At", "Rn", "Fr", "Ra", "Ac", "Th", "Pa", "U", "Np", "Pu", "Am", "Cm", "Bk",
    "Cf", "Es", "Fm", "Md", "No", "Lr", "Rf", "Db", "Sg", "Bh", "Hs", "Mt", "Ds", "Rg", "Cn", "Nh",
    "Fl", "Mc", "Lv", "Ts", "Og"
  ]

  /** The record of the element at index `idx` of the symbol list, given its oxidation states. */
  function MakeElement(idx: nat, states: OxidationStates): (e: Element)
    requires idx < |SymbolsInZOrder|
    ensures e.atomicNumber as int == idx + 1 && e.symbol == SymbolsInZOrder[idx]
    ensures (e.period, e.group) == PeriodGroup(e.atomicNumber)
    ensures Some(e.block) == BlockOf(e.group, e.period, e.atomicNumber)
    ensures e.oxidationStates == states
  {
    var z := (idx + 1) as u8;
    var (period, group) := PeriodGroup(z);
    Blocks(z);
    Element(z, SymbolsInZOrder[idx], group, period, BlockOf(group, period, z).value, states)
  }

  /**
   * All elements in atomic-number order, each with its oxidation states
   * looked up by symbol in `table`; `None` (the failed lookup) when a symbol
   * has no entry.
   */
  function All(table: map<string, OxidationStates>): (r: Option<seq<Element>>)
    ensures r.Some? <==> forall i :: 0 <= i < |SymbolsInZOrder| ==> SymbolsInZOrder[i] in table
    ensures r.Some? ==>
      && |r.value| == |SymbolsInZOrder| == 118
      && forall i :: 0 <= i < |r.value| ==>
        && r.value[i].atomicNumber as int == i + 1
        && r.value[i].symbol == SymbolsInZOrder[i]
        && (r.value[i].period, r.value[i].group) == PeriodGroup(r.value[i].atomicNumber)
        && Some(r.value[i].block) == BlockOf(r.value[i].group, r.value[i].period, r.value[i].atomicNumber)
        && r.value[i].oxidationStates == table[SymbolsInZOrder[i]]
  {
    if forall i :: 0 <= i < |SymbolsInZOrder| ==> SymbolsInZOrder[i] in table then
      Some(seq(|SymbolsInZOrder|, i requires 0 <= i < |SymbolsInZOrder| =>
        MakeElement(i, table[SymbolsInZOrder[i]])))
    else None
  }

  /** Every record of the table has a valid period, a group where expected, and a block. */
  lemma AllWellFormed(table: map<string, OxidationStates>, i: nat)
    requires All(table).Some? && i < |All(table).value|
    ensures var e := All(table).value[i];
      && IsElement(e.atomicNumber as int)
      && 1 <= e.period <= 7
      && (e.group.None? <==> e.block == 3)
      && e.block <= 3
  {
    var e := All(table).value[i];
    GroupRange(e.atomicNumber);
    PeriodRanges(e.atomicNumber);
    Blocks(e.atomicNumber);
  }

  // ---------------------------------------------------------------------
  // The oxidation-state table builder
  // ---------------------------------------------------------------------

  /** Which list of the reference text the lines currently belong to. */
  datatype Ctx = NoCtx | Common | Notable | Predicted

  /**
   * What the line pattern captures from one data line: the element symbol and
   * the whitespace-separated state tokens left after removing noise.
   */
  datatype Capture = Capture(symbol: string, tokens: seq<string>)

  /** The state of the builder between two lines. */
  datatype Builder = Builder(ctx: Ctx, table: map<string, OxidationStates>)

  /** The context a header line switches to, or `NoCtx` for a line that is no header. */
  function HeaderCtx(line: string): (c: Ctx)
    ensures c != NoCtx ==> StartsWith(line, "|")
    ensures c == Common <==> StartsWith(line, "|common={{")
    ensures c == Notable <==> StartsWith(line, "|notable={{")
    ensures c == Predicted <==> StartsWith(line, "|predicted={{")
  {
    HeadersExclusive(line);
    if StartsWith(line, "|common={{") then Common
    else if StartsWith(line, "|notable={{") then Notable
    else if StartsWith(line, "|predicted={{") then Predicted
    else NoCtx
  }

  /** No line starts with two of the header prefixes: their second letters differ. */
  lemma HeadersExclusive(line: string)
    ensures StartsWith(line, "|common={{") ==> !StartsWith(line, "|notable={{") && !StartsWith(line, "|predicted={{")
    ensures StartsWith(line, "|notable={{") ==> !StartsWith(line, "|predicted={{")
  {
    if StartsWith(line, "|common={{") {
      assert line[..10][1] == 'c';
    }
    if StartsWith(line, "|notable={{") {
      assert line[..11][1] == 'n';
    }
  }

  predicate Cited(token: string) {
    |token| > 0 && token[|token| - 1] == '?'
  }

  /**
   * Records one state token in `entry`: a token ending in `?` goes, without
   * the `?`, into the citation-needed set; any other into the set of `ctx`.
   * `None` is a token that does not parse as a state.
   */
  function AddState(entry: OxidationStates, ctx: Ctx, token: string, parse: string -> Option<i8>): (r: Option<OxidationStates>)
    ensures r.None? <==> parse(Stripped(token)).None?
    ensures r.Some? ==>
      var v := parse(Stripped(token)).value;
      && r.value.citationNeeded == entry.citationNeeded + (if Cited(token) then {v} else {})
      && r.value.common == entry.common + (if !Cited(token) && ctx == Common then {v} else {})
      && r.value.notable == entry.notable + (if !Cited(token) && ctx == Notable then {v} else {})
      && r.value.predicted == entry.predicted + (if !Cited(token) && ctx == Predicted then {v} else {})
  {
    if Cited(token) then
      match parse(token[..|token| - 1])
      case None => None
      case Some(v) => Some(entry.(citationNeeded := entry.citationNeeded + {v}))
    else
      match parse(token)
      case None => None
      case Some(v) =>
        Some(match ctx
          case Common => entry.(common := entry.common + {v})
          case Notable => entry.(notable := entry.notable + {v})
          case Predicted => entry.(predicted := entry.predicted + {v})
          case NoCtx => entry)
  }

  /** The tokens recorded one after the other, from the first. */
  function AddStates(entry: OxidationStates, ctx: Ctx, tokens: seq<string>, parse: string -> Option<i8>): (r: Option<OxidationStates>)
    ensures r.Some? ==>
      && entry.common <= r.value.common && entry.notable <= r.value.notable
      && entry.predicted <= r.value.predicted && entry.citationNeeded <= r.value.citationNeeded
    decreases |tokens|
  {
    if tokens == [] then Some(entry)
    else
      match AddStates(entry, ctx, tokens[..|tokens| - 1], parse)
      case None => None
      case Some(e) => AddState(e, ctx, tokens[|tokens| - 1], parse)
  }

  /**
   * One line of the reference text: lines not starting with `|` are skipped,
   * header lines switch the context, and other lines, while there is a
   * context, add their tokens to the entry of their symbol, which starts with
   * four empty sets. `None` is a line the pattern does not capture or a
   * token that does not parse.
   */
  function StepLine(b: Builder, line: string, capture: string -> Option<Capture>, parse: string -> Option<i8>): (r: Option<Builder>)
    ensures r.None? ==> StartsWith(line, "|") && HeaderCtx(line) == NoCtx && b.ctx != NoCtx
    ensures r.Some? ==> r.value.ctx == if StartsWith(line, "|") && HeaderCtx(line) != NoCtx then HeaderCtx(line) else b.ctx
    ensures r.Some? && !(StartsWith(line, "|") && HeaderCtx(line) == NoCtx && b.ctx != NoCtx) ==> r.value.table == b.table
    ensures r.Some? ==> forall s :: s in r.value.table ==>
      s in b.table || (capture(line).Some? && capture(line).value.symbol == s)
  {
    if !StartsWith(line, "|") then Some(b)
    else if HeaderCtx(line) != NoCtx then Some(b.(ctx := HeaderCtx(line)))
    else if b.ctx == NoCtx then Some(b)
    else
      match capture(line)
      case None => None
      case Some(c) =>
        var existing := if c.symbol in b.table then b.table[c.symbol] else NoStates;
        match AddStates(existing, b.ctx, c.tokens, parse)
        case None => None
        case Some(e) => Some(b.(table := b.table[c.symbol := e]))
  }

  /** The builder after the given lines, starting with no context and an empty table. */
  function Run(lines: seq<string>, capture: string -> Option<Capture>, parse: string -> Option<i8>): (r: Option<Builder>)
    ensures r.Some? && r.value.ctx != NoCtx ==>
      exists k :: 0 <= k < |lines| && StartsWith(lines[k], "|") && HeaderCtx(lines[k]) == r.value.ctx
    ensures r.Some? ==> forall s :: s in r.value.table ==>
      exists k :: 0 <= k < |lines| && capture(lines[k]).Some? && capture(lines[k]).value.symbol == s
    decreases |lines|
  {
    if lines == [] then Some(Builder(NoCtx, map[]))
    else
      var init := lines[..|lines| - 1];
      match Run(init, capture, parse)
      case None => None
      case Some(b) =>
        assert forall k :: 0 <= k < |init| ==> init[k] == lines[k];
        StepLine(b, lines[|lines| - 1], capture, parse)
  }

  /** The oxidation-state table of the cleaned reference text `lines`. */
  function OxidationTable(lines: seq<string>, capture: string -> Option<Capture>, parse: string -> Option<i8>): (r: Option<map<string, OxidationStates>>)
    ensures r.Some? ==> forall s :: s in r.value ==>
      exists k :: 0 <= k < |lines| && capture(lines[k]).Some? && capture(lines[k]).value.symbol == s
  {
    match Run(lines, capture, parse)
    case None => None
    case Some(b) => Some(b.table)
  }

  /** A failure in the first `k` tokens is a failure of the whole line. */
  lemma {:induction false} AddStatesFailureStays(entry: OxidationStates, ctx: Ctx, tokens: seq<string>, k: nat, parse: string -> Option<i8>)
    requires k <= |tokens| && AddStates(entry, ctx, tokens[..k], parse).None?
    ensures AddStates(entry, ctx, tokens, parse).None?
    decreases |tokens| - k
  {
    if k < |tokens| {
      assert tokens[..k + 1][..k] == tokens[..k];
      AddStatesFailureStays(entry, ctx, tokens, k + 1, parse);
    } else {
      assert tokens[..k] == tokens;
    }
  }

  /** A failure in the first `n` lines is a failure of the whole text. */
  lemma {:induction false} RunFailureStays(lines: seq<string>, n: nat, capture: string -> Option<Capture>, parse: string -> Option<i8>)
    requires n <= |lines| && Run(lines[..n], capture, parse).None?
    ensures Run(lines, capture, parse).None?
    decreases |lines| - n
  {
    if n < |lines| {
      assert lines[..n + 1][..n] == lines[..n];
      RunFailureStays(lines, n + 1, capture, parse);
    } else {
      assert lines[..n] == lines;
    }
  }

  // Properties of the builder

  /** The text a token is parsed from: without its trailing `?` when it has one. */
  function Stripped(token: string): string {
    if Cited(token) then token[..|token| - 1] else token
  }

  predicate AllParse(tokens: seq<string>, parse: string -> Option<i8>) {
    forall k :: 0 <= k < |tokens| ==> parse(Stripped(tokens[k])).Some?
  }

  /** The states of the tokens ending in `?`. */
  function CitedValues(tokens: seq<string>, parse: string -> Option<i8>): set<i8> {
    set k | 0 <= k < |tokens| && Cited(tokens[k]) && parse(Stripped(tokens[k])).Some? :: parse(Stripped(tokens[k])).value
  }

  /** The states of the other tokens. */
  function PlainValues(tokens: seq<string>, parse: string -> Option<i8>): set<i8> {
    set k | 0 <= k < |tokens| && !Cited(tokens[k]) && parse(Stripped(tokens[k])).Some? :: parse(Stripped(tokens[k])).value
  }

  /** Where the tokens of a line end up: cited ones in `citationNeeded`, the others in the set of `ctx`. */
  function Routed(entry: OxidationStates, ctx: Ctx, tokens: seq<string>, parse: string -> Option<i8>): OxidationStates {
    var plain := PlainValues(tokens, parse);
    OxidationStates(
      if ctx == Common then entry.common + plain else entry.common,
      if ctx == Notable then entry.notable + plain else entry.notable,
      if ctx == Predicted then entry.predicted + plain else entry.predicted,
      entry.citationNeeded + CitedValues(tokens, parse))
  }

  lemma ValuesSnoc(tokens: seq<string>, parse: string -> Option<i8>)
    requires tokens != []
    ensures var init, last := tokens[..|tokens| - 1], tokens[|tokens| - 1];
      var v := parse(Stripped(last));
      && CitedValues(tokens, parse) == CitedValues(init, parse) + (if Cited(last) && v.Some? then {v.value} else {})
      && PlainValues(tokens, parse) == PlainValues(init, parse) + (if !Cited(last) && v.Some? then {v.value} else {})
  {
    var init, last := tokens[..|tokens| - 1], tokens[|tokens| - 1];
    assert forall k :: 0 <= k < |init| ==> init[k] == tokens[k];
  }

  lemma AllParseSnoc(tokens: seq<string>, parse: string -> Option<i8>)
    requires tokens != []
    ensures AllParse(tokens, parse) <==>
      AllParse(tokens[..|tokens| - 1], parse) && parse(Stripped(tokens[|tokens| - 1])).Some?
  {
    var init := tokens[..|tokens| - 1];
    assert forall k :: 0 <= k < |init| ==> init[k] == tokens[k];
  }

  lemma RoutedSnoc(entry: OxidationStates, ctx: Ctx, tokens: seq<string>, parse: string -> Option<i8>)
    requires tokens != [] && parse(Stripped(tokens[|tokens| - 1])).Some?
    ensures AddState(Routed(entry, ctx, tokens[..|tokens| - 1], parse), ctx, tokens[|tokens| - 1], parse)
      == Some(Routed(entry, ctx, tokens, parse))
  {
    ValuesSnoc(tokens, parse);
    var init, last := tokens[..|tokens| - 1], tokens[|tokens| - 1];
    var e := Routed(entry, ctx, init, parse);
    var v := parse(Stripped(last)).value;
    if Cited(last) {
      assert AddState(e, ctx, last, parse) == Some(e.(citationNeeded := e.citationNeeded + {v}));
      assert PlainValues(tokens, parse) == PlainValues(init, parse);
      assert CitedValues(tokens, parse) == CitedValues(init, parse) + {v};
      var r := Routed(entry, ctx, tokens, parse);
      assert r.citationNeeded == entry.citationNeeded + CitedValues(init, parse) + {v};
      assert r.citationNeeded == e.citationNeeded + {v};
      assert r.common == e.common && r.notable == e.notable && r.predicted == e.predicted;
      assert r == e.(citationNeeded := e.citationNeeded + {v});
    } else {
      assert parse(last) == Some(v);
      assert CitedValues(tokens, parse) == CitedValues(init, parse);
      assert PlainValues(tokens, parse) == PlainValues(init, parse) + {v};
      var r := Routed(entry, ctx, tokens, parse);
      assert r.citationNeeded == e.citationNeeded;
      match ctx
      case Common =>
        assert r.common == entry.common + PlainValues(init, parse) + {v} == e.common + {v};
        assert r == e.(common := e.common + {v});
      case Notable =>
        assert r.notable == entry.notable + PlainValues(init, parse) + {v} == e.notable + {v};
        assert r == e.(notable := e.notable + {v});
      case Predicted =>
        assert r.predicted == entry.predicted + PlainValues(init, parse) + {v} == e.predicted + {v};
        assert r == e.(predicted := e.predicted + {v});
      case NoCtx =>
        assert r == e;
    }
  }

  /**
   * The tokens of a line are recorded, each once, in the set their form and
   * the context choose, and nothing else changes; recording fails exactly
   * when some token does not parse.
   */
  lemma {:induction false} AddStatesRoutes(entry: OxidationStates, ctx: Ctx, tokens: seq<string>, parse: string -> Option<i8>)
    ensures AddStates(entry, ctx, tokens, parse) ==
      if AllParse(tokens, parse) then Some(Routed(entry, ctx, tokens, parse)) else None
    decreases |tokens|
  {
    if tokens == [] {
      assert CitedValues(tokens, parse) == {} && PlainValues(tokens, parse) == {};
      assert AllParse(tokens, parse);
      var r := Routed(entry, ctx, tokens, parse);
      assert r.common == entry.common && r.notable == entry.notable;
      assert r.predicted == entry.predicted && r.citationNeeded == entry.citationNeeded;
    } else {
      var init, last := tokens[..|tokens| - 1], tokens[|tokens| - 1];
      AddStatesRoutes(entry, ctx, init, parse);
      AllParseSnoc(tokens, parse);
      if AllParse(init, parse) && parse(Stripped(last)).Some? {
        RoutedSnoc(entry, ctx, tokens, parse);
      }
    }
  }

  /** Lines that do not start with `|` are skipped. */
  lemma SkipsUnpipedLines(b: Builder, line: string, capture: string -> Option<Capture>, parse: string -> Option<i8>)
    requires !StartsWith(line, "|")
    ensures StepLine(b, line, capture, parse) == Some(b)
  {
  }

  /** Nothing is recorded while there is no context. */
  lemma NothingRecordedWithoutContext(b: Builder, line: string, capture: string -> Option<Capture>, parse: string -> Option<i8>)
    requires b.ctx == NoCtx
    ensures StepLine(b, line, capture, parse).Some?
    ensures StepLine(b, line, capture, parse).value.table == b.table
  {
  }

  /**
   * A data line read in a context: its symbol's entry, starting from four
   * empty sets on first sight, receives the line's tokens as routed; no
   * other entry changes.
   */
  lemma DataLineRecords(b: Builder, line: string, capture: string -> Option<Capture>, parse: string -> Option<i8>)
    requires StartsWith(line, "|") && HeaderCtx(line) == NoCtx && b.ctx != NoCtx
    requires capture(line).Some? && AllParse(capture(line).value.tokens, parse)
    ensures var c := capture(line).value;
      var existing := if c.symbol in b.table then b.table[c.symbol] else NoStates;
      StepLine(b, line, capture, parse) == Some(b.(table := b.table[c.symbol := Routed(existing, b.ctx, c.tokens, parse)]))
  {
    var c := capture(line).value;
    AddStatesRoutes(if c.symbol in b.table then b.table[c.symbol] else NoStates, b.ctx, c.tokens, parse);
  }

  /** Every set of `small` is contained in the entry of the same symbol in `large`. */
  ghost predicate Extends(large: map<string, OxidationStates>, small: map<string, OxidationStates>) {
    forall s :: s in small ==>
      && s in large
      && small[s].common <= large[s].common
      && small[s].notable <= large[s].notable
      && small[s].predicted <= large[s].predicted
      && small[s].citationNeeded <= large[s].citationNeeded
  }

  lemma StepExtends(b: Builder, line: string, capture: string -> Option<Capture>, parse: string -> Option<i8>)
    requires StepLine(b, line, capture, parse).Some?
    ensures Extends(StepLine(b, line, capture, parse).value.table, b.table)
  {
    if StartsWith(line, "|") && HeaderCtx(line) == NoCtx && b.ctx != NoCtx {
      var c := capture(line).value;
      AddStatesRoutes(if c.symbol in b.table then b.table[c.symbol] else NoStates, b.ctx, c.tokens, parse);
    }
  }

  /** Later lines only add: entries are never removed and states never dropped. */
  lemma {:induction false} RunExtends(lines: seq<string>, n: nat, capture: string -> Option<Capture>, parse: string -> Option<i8>)
    requires n <= |lines|
    requires Run(lines[..n], capture, parse).Some? && Run(lines, capture, parse).Some?
    ensures Extends(Run(lines, capture, parse).value.table, Run(lines[..n], capture, parse).value.table)
    decreases |lines|
  {
    if n == |lines| {
      assert lines[..n] == lines;
    } else {
      var init := lines[..|lines| - 1];
      assert init[..n] == lines[..n];
      RunExtends(init, n, capture, parse);
      StepExtends(Run(init, capture, parse).value, lines[|lines| - 1], capture, parse);
    }
  }

  /** Reading the same line twice in a row has the effect of reading it once. */
  lemma StepIdempotent(b: Builder, line: string, capture: string -> Option<Capture>, parse: string -> Option<i8>)
    requires StepLine(b, line, capture, parse).Some?
    ensures StepLine(StepLine(b, line, capture, parse).value, line, capture, parse) == StepLine(b, line, capture, parse)
  {
    if StartsWith(line, "|") && HeaderCtx(line) == NoCtx && b.ctx != NoCtx {
      var c := capture(line).value;
      var existing := if c.symbol in b.table then b.table[c.symbol] else NoStates;
      AddStatesRoutes(existing, b.ctx, c.tokens, parse);
      var once := Routed(existing, b.ctx, c.tokens, parse);
      AddStatesRoutes(once, b.ctx, c.tokens, parse);
      assert Routed(once, b.ctx, c.tokens, parse) == once;
      var b' := StepLine(b, line, capture, parse).value;
      assert b'.table[c.symbol := once] == b'.table;
    }
  }

  /** Records one state token, updating the entry's sets in place. */
  method RecordState(entry: OxidationStates, ctx: Ctx, token: string, parse: string -> Option<i8>)
    returns (r: Option<OxidationStates>)
    ensures r == AddState(entry, ctx, token, parse)
  {
    var result := entry;
    if Cited(token) {
      var v := parse(token[..|token| - 1]);
      if v.None? {
        return None;
      }
      result := result.(citationNeeded := result.citationNeeded + {v.value});
    } else {
      var v := parse(token);
      if v.None? {
        return None;
      }
      if ctx == Common {
        result := result.(common := result.common + {v.value});
      } else if ctx == Notable {
        result := result.(notable := result.notable + {v.value});
      } else if ctx == Predicted {
        result := result.(predicted := result.predicted + {v.value});
      }
    }
    r := Some(result);
  }

  /**
   * Records the state tokens of one data line in the entry of `symbol`,
   * updating that entry token by token.
   */
  method RecordStates(table: map<string, OxidationStates>, symbol: string, ctx: Ctx, tokens: seq<string>, parse: string -> Option<i8>)
    returns (r: Option<map<string, OxidationStates>>)
    requires symbol in table
    ensures r == match AddStates(table[symbol], ctx, tokens, parse)
      case None => None
      case Some(e) => Some(table[symbol := e])
  {
    var entry := table[symbol];
    var k := 0;
    while k < |tokens|
      invariant 0 <= k <= |tokens|
      invariant AddStates(table[symbol], ctx, tokens[..k], parse) == Some(entry)
    {
      var token := tokens[k];
      assert tokens[..k + 1][..k] == tokens[..k];
      var next := RecordState(entry, ctx, token, parse);
      if next.None? {
        AddStatesFailureStays(table[symbol], ctx, tokens, k + 1, parse);
        return None;
      }
      entry := next.value;
      k := k + 1;
    }
    assert tokens[..k] == tokens;
    r := Some(table[symbol := entry]);
  }

  /** Reads one line of the reference text into the context and the table. */
  method ReadLine(ctx: Ctx, table: map<string, OxidationStates>, line: string,
                  capture: string -> Option<Capture>, parse: string -> Option<i8>)
    returns (r: Option<Builder>)
    ensures r == StepLine(Builder(ctx, table), line, capture, parse)
  {
    if !StartsWith(line, "|") {
      return Some(Builder(ctx, table));
    }
    var next, result := ctx, table;
    if StartsWith(line, "|common={{") {
      next := Common;
    } else if StartsWith(line, "|notable={{") {
      next := Notable;
    } else if StartsWith(line, "|predicted={{") {
      next := Predicted;
    } else if ctx != NoCtx {
      var cpt := capture(line);
      if cpt.None? {
        return None;
      }
      var symbol := cpt.value.symbol;
      if symbol !in result {
        result := result[symbol := NoStates];
      }
      assert result[symbol] == if symbol in table then table[symbol] else NoStates;
      var updated := RecordStates(result, symbol, ctx, cpt.value.tokens, parse);
      if updated.None? {
        return None;
      }
      assert updated.value == table[symbol := updated.value[symbol]];
      result := updated.value;
    }
    r := Some(Builder(next, result));
  }

  /** Builds the oxidation-state table line by line. */
  method BuildOxidationStates(lines: seq<string>, capture: string -> Option<Capture>, parse: string -> Option<i8>)
    returns (r: Option<map<string, OxidationStates>>)
    ensures r == OxidationTable(lines, capture, parse)
  {
    var ctx := NoCtx;
    var result: map<string, OxidationStates> := map[];
    var n := 0;
    while n < |lines|
      invariant 0 <= n <= |lines|
      invariant Run(lines[..n], capture, parse) == Some(Builder(ctx, result))
    {
      assert lines[..n + 1][..n] == lines[..n];
      var next := ReadLine(ctx, result, lines[n], capture, parse);
      if next.None? {
        RunFailureStays(lines, n + 1, capture, parse);
        return None;
      }
      ctx, result := next.value.ctx, next.value.table;
      n := n + 1;
    }
    assert lines[..n] == lines;
    r := Some(result);
  }
}

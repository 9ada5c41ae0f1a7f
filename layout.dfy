/**
 * The printable periodic table: every element with its own period and
 * group and the (row, column) of its tile, in the narrow layout (the f-block
 * rows set apart below the table) or the wide one (the f-block inside
 * periods 6 and 7), with helium over hydrogen's neighbour or at column 18.
 */
module Layout {
  import opened Ints
  import Elements

  /** A table tile; `graphicalY` is the row and `graphicalX` the column, both from 1. */
  datatype Element = Element(
    atomicNumber: u8,
    symbol: string,
    group: Option<u8>,
    period: u8,
    graphicalX: u8,
    graphicalY: u8)

  /** The layout's own list of the element symbols, in atomic-number order. */
  const Symbols: seq<string> := [
    "H", "He", "Li", "Be", "B", "C", "N", "O", "F", "Ne", "Na", "Mg", "Al", "Si", "P", "S",
    "Cl", "Ar", "K", "Ca", "Sc", "Ti", "V", "Cr", "Mn", "Fe", "Co", "Ni", "Cu", "Zn", "Ga",
    "Ge", "As", "Se", "Br", "Kr", "Rb", "Sr", "Y", "Zr", "Nb", "Mo", "Tc", "Ru", "Rh", "Pd",
    "Ag", "Cd", "In", "Sn", "Sb", "Te", "I", "Xe", "Cs", "Ba", "La", "Ce", "Pr", "Nd", "Pm",
    "Sm", "Eu", "Gd", "Tb", "Dy", "Ho", "Er", "Tm", "Yb", "Lu", "Hf", "Ta", "W", "Re", "Os",
    "Ir", "Pt", "Au", "Hg", "Tl", "Pb", "Bi", "Po", "At", "Rn", "Fr", "Ra", "Ac", "Th", "Pa",
    "U", "Np", "Pu", "Am", "Cm", "Bk", "Cf", "Es", "Fm", "Md", "No", "Lr", "Rf", "Db", "Sg",
    "Bh", "Hs", "Mt", "Ds", "Rg", "Cn", "Nh", "Fl", "Mc", "Lv", "Ts", "Og"
  ]

  /** The layout's symbols are the element table's, one for each of the 118 elements. */
  lemma SameSymbols()
    ensures Symbols == Elements.SymbolsInZOrder && |Symbols| == 118
  {
  }

  /** The layout's own copy of the period and group of atomic number `z`, which agrees with the element table's. */
  function PeriodGroup(z: u8): (pg: (u8, Option<u8>))
    ensures pg == Elements.PeriodGroup(z)
  {
    if z == 1 then (1, Some(1))
    else if z == 2 then (1, Some(18))
    else if 3 <= z <= 10 then
      (2, Some(if z == 3 then 1 else if z == 4 then 2 else z + 8))
    else if 11 <= z <= 18 then
      (3, Some(if z == 11 then 1 else if z == 12 then 2 else z - 0))
    else if 19 <= z <= 36 then
      (4, Some(if z == 19 then 1 else if z == 20 then 2 else z - 18))
    else if 37 <= z <= 54 then
      (5, Some(if z == 37 then 1 else if z == 38 then 2 else z - 36))
    else if 55 <= z <= 86 then
      (6, if z == 55 then Some(1) else if z == 56 then Some(2)
          else if 57 <= z <= 70 then None else Some(z - 68))
    else if 87 <= z <= 118 then
      (7, if z == 87 then Some(1) else if z == 88 then Some(2)
          else if 89 <= z <= 102 then None else Some(z - 100))
    else (0, None)
  }

  /** Helium's tile: column 2 when it is drawn beside hydrogen, column 18 otherwise. */
  function HeliumTile(heliumIn2: bool): (u8, u8) {
    if heliumIn2 then (1, 2) else (1, 18)
  }

  /**
   * The (row, column) of the tile of atomic number `z`, tried in the
   * source's order; `(0, 0)` is the fallback arm.
   */
  function Position(z: u8, wide: bool, heliumIn2: bool): (yx: (u8, u8))
    ensures yx == (0, 0) <==> !Elements.IsElement(z as int)
    ensures Elements.IsElement(z as int) ==>
      yx.0 == PeriodGroup(z).0 || (!wide && yx.0 == PeriodGroup(z).0 + 3)
  {
    var (period, group) := PeriodGroup(z);
    if !wide then
      if period == 1 && group == Some(18) then HeliumTile(heliumIn2)
      else if period == 6 && (group.None? || group == Some(3)) then (period + 3, 4 + z - 57)
      else if period == 7 && (group.None? || group == Some(3)) then (period + 3, 4 + z - 89)
      else if group.Some? then (period, group.value)
      else (0, 0)
    else
      if period == 1 && group == Some(18) then HeliumTile(heliumIn2)
      else if group.Some? && group.value <= 2 then (period, group.value)
      else if group.Some? then (period, group.value + 14)
      else if period == 6 then (period, 3 + z - 57)
      else if period == 7 then (period, 3 + z - 89)
      else (0, 0)
  }

  /**
   * The element drawn at row `y`, column `x`, if any: the inverse of
   * `Position`.
   */
  function AtPosition(y: u8, x: u8, wide: bool, heliumIn2: bool): (z: Option<u8>)
    ensures z.Some? ==> Elements.IsElement(z.value as int) && Position(z.value, wide, heliumIn2) == (y, x)
  {
    if (y, x) == (1, 1) then Some(1)
    else if (y, x) == HeliumTile(heliumIn2) then Some(2)
    else if y < 2 || (wide && 7 < y) then None
    else if !wide then
      if y == 9 && 4 <= x <= 18 then Some((x + 53) as u8)
      else if y == 10 && 4 <= x <= 18 then Some((x + 85) as u8)
      else if y <= 7 && !(6 <= y && x == 3) then Elements.AtomicNumberAt(y as int, x as int)
      else None
    else if x <= 2 then Elements.AtomicNumberAt(y as int, x as int)
    else if 17 <= x then Elements.AtomicNumberAt(y as int, x as int - 14)
    else if y == 6 && x <= 16 then Some((x + 54) as u8)
    else if y == 7 && x <= 16 then Some((x + 86) as u8)
    else None
  }

  /** Every element's tile lies on the grid and is found again there. */
  lemma PositionInverts(z: u8, wide: bool, heliumIn2: bool)
    requires Elements.IsElement(z as int)
    ensures var (y, x) := Position(z, wide, heliumIn2);
      && AtPosition(y, x, wide, heliumIn2) == Some(z)
      && 1 <= y <= (if wide then 7 else 10)
      && 1 <= x <= (if wide then 32 else 18)
  {
    if Elements.PeriodGroup(z).1.Some? {
      Elements.AtomicNumberAtInverts(z);
    }
  }

  /** No two elements share a tile, in either layout and with either helium placement. */
  lemma TilesDistinct(z1: u8, z2: u8, wide: bool, heliumIn2: bool)
    requires Elements.IsElement(z1 as int) && Elements.IsElement(z2 as int) && z1 != z2
    ensures Position(z1, wide, heliumIn2) != Position(z2, wide, heliumIn2)
  {
    PositionInverts(z1, wide, heliumIn2);
    PositionInverts(z2, wide, heliumIn2);
  }

  /**
   * The narrow layout: lanthanum to lutetium on row 9 and actinium to
   * lawrencium on row 10, both from column 4; every other element at its
   * period and group.
   */
  lemma NarrowTiles(z: u8, heliumIn2: bool)
    requires Elements.IsElement(z as int) && z != 2
    ensures Position(z, false, heliumIn2) ==
      if 57 <= z <= 71 then (9, z - 53)
      else if 89 <= z <= 103 then (10, z - 85)
      else (PeriodGroup(z).0, PeriodGroup(z).1.value)
  {
  }

  /**
   * The wide layout: groups 1-2 keep their column, groups 3-18 move right
   * by 14, and the elements without a group fill columns 3-16 of their own
   * period's row.
   */
  lemma WideTiles(z: u8, heliumIn2: bool)
    requires Elements.IsElement(z as int) && z != 2
    ensures var (period, group) := PeriodGroup(z);
      Position(z, true, heliumIn2) ==
        if group.None? then (period, if period == 6 then z - 54 else z - 86)
        else if group.value <= 2 then (period, group.value)
        else (period, group.value + 14)
  {
  }

  /** Helium's tile is the same in both layouts; it does not move right with group 18. */
  lemma HeliumTiles(wide: bool, heliumIn2: bool)
    ensures Position(2, wide, heliumIn2) == HeliumTile(heliumIn2)
  {
  }

  /** The tile record of atomic number `z`. */
  function NewElement(z: u8, wide: bool, heliumIn2: bool): Element
    requires Elements.IsElement(z as int)
  {
    var (period, group) := PeriodGroup(z);
    var (y, x) := Position(z, wide, heliumIn2);
    SameSymbols();
    Element(z, Symbols[z - 1], group, period, x, y)
  }

  /**
   * All tiles keyed by atomic number: exactly the keys 1-118, each holding
   * the element of that number and symbol.
   */
  function NewElements(wide: bool, heliumIn2: bool): (m: map<u8, Element>)
    ensures forall z: u8 :: z in m <==> Elements.IsElement(z as int)
    ensures forall z: u8 :: Elements.IsElement(z as int) ==>
      && z in m
      && m[z].atomicNumber == z
      && m[z].symbol == Elements.SymbolsInZOrder[z - 1]
      && (m[z].period, m[z].group) == Elements.PeriodGroup(z)
      && (m[z].graphicalY, m[z].graphicalX) == Position(z, wide, heliumIn2)
  {
    map z: u8 | Elements.IsElement(z as int) :: NewElement(z, wide, heliumIn2)
  }
}

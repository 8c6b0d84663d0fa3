/**
 * Fleet validation and layout, the store-free part of `PlaceShips` in
 * internal/game/service.go: the composition checks (count, type, size, one of
 * each type), then for each ship in turn its cells from start, orientation and
 * size, claimed one by one in the occupied-cell grid.
 *
 * Each check is written twice: as a function giving its meaning (CheckFleet,
 * ShipCells, Layout) and as the loop the source runs (ValidateFleet,
 * ComputeCells, LayOut), proved to compute the same result.
 */
module Placement {
  import opened Wrappers
  import opened GameModel

  /** Why a placement is rejected. */
  datatype PlaceError =
    | NotMember
    | WrongShipCount
    | UnknownShipType(shipType: string)
    | WrongShipSize(shipType: string)
    | DuplicateShipType
    | InvalidStart(shipType: string)
    | OutOfBounds(shipType: string)
    | InvalidOrientation(shipType: string)
    | Overlap(cell: string)
    | BoardNotStored
    | MembersNotRead
    | OpponentBoardNotChecked

  // ---------------------------------------------------------------------------
  // Fleet composition
  // ---------------------------------------------------------------------------

  /** The ship's type is in the catalog and its size is the catalog size. */
  predicate CatalogShip(s: Ship)
  {
    s.shipType in ShipConfig && ShipConfig[s.shipType] == s.size
  }

  /** How many of the ships have type `t`. */
  function TypeCount(ships: seq<Ship>, t: string): nat
  {
    if ships == [] then 0
    else TypeCount(ships[..|ships| - 1], t) + (if ships[|ships| - 1].shipType == t then 1 else 0)
  }

  /** The types that occur among the ships. */
  function TypesOf(ships: seq<Ship>): set<string>
  {
    set i | 0 <= i < |ships| :: ships[i].shipType
  }

  predicate DistinctTypes(ships: seq<Ship>)
  {
    forall i, j :: 0 <= i < j < |ships| ==> ships[i].shipType != ships[j].shipType
  }

  /** The first ship, in submission order, outside the catalog or of the wrong size. */
  function FirstCatalogError(ships: seq<Ship>): Option<PlaceError>
  {
    if ships == [] then None
    else if ships[0].shipType !in ShipConfig then Some(UnknownShipType(ships[0].shipType))
    else if ShipConfig[ships[0].shipType] != ships[0].size then Some(WrongShipSize(ships[0].shipType))
    else FirstCatalogError(ships[1..])
  }

  /** The composition checks in the source's order: count, then type and size, then one of each. */
  function CheckFleet(ships: seq<Ship>): Result<(), PlaceError>
  {
    if |ships| != |ShipConfig| then Err(WrongShipCount)
    else
      match FirstCatalogError(ships)
      case Some(e) => Err(e)
      case None =>
        if forall t :: t in TypesOf(ships) ==> TypeCount(ships, t) == 1 then Ok(())
        else Err(DuplicateShipType)
  }

  /** The tally loop of PlaceShips: checks each ship against the catalog and counts the types. */
  method Tally(ships: seq<Ship>) returns (r: Result<map<string, nat>, PlaceError>)
    ensures FirstCatalogError(ships).Some? ==> r == Err(FirstCatalogError(ships).value)
    ensures FirstCatalogError(ships).None? ==>
      && r.Ok? && r.value.Keys == TypesOf(ships)
      && forall t :: t in r.value ==> r.value[t] == TypeCount(ships, t)
  {
    var counts: map<string, nat> := map[];
    for i := 0 to |ships|
      invariant FirstCatalogError(ships) == FirstCatalogError(ships[i..])
      invariant counts.Keys == TypesOf(ships[..i])
      invariant forall t :: t in counts ==> counts[t] == TypeCount(ships[..i], t)
    {
      var ship := ships[i];
      assert ships[i..][1..] == ships[i + 1..];
      if ship.shipType !in ShipConfig {
        return Err(UnknownShipType(ship.shipType));
      }
      if ShipConfig[ship.shipType] != ship.size {
        return Err(WrongShipSize(ship.shipType));
      }
      TallyStep(ships, i);
      TypeCountPositive(ships[..i], ship.shipType);
      counts := counts[ship.shipType := (if ship.shipType in counts then counts[ship.shipType] else 0) + 1];
    }
    assert ships[..|ships|] == ships;
    assert ships[|ships|..] == [];
    return Ok(counts);
  }

  /** Count and type checks of PlaceShips: a tally per type, then every tally must be one. */
  method ValidateFleet(ships: seq<Ship>) returns (r: Result<(), PlaceError>)
    ensures r == CheckFleet(ships)
  {
    if |ships| != |ShipConfig| {
      return Err(WrongShipCount);
    }
    var tally := Tally(ships);
    if tally.Err? {
      return Err(tally.error);
    }
    var counts := tally.value;
    var pending := counts.Keys;
    while pending != {}
      invariant pending <= counts.Keys
      invariant forall t :: t in counts.Keys - pending ==> counts[t] == 1
      decreases pending
    {
      var t :| t in pending;
      if counts[t] != 1 {
        return Err(DuplicateShipType);
      }
      pending := pending - {t};
    }
    return Ok(());
  }

  /** Counting one more ship. */
  lemma TallyStep(ships: seq<Ship>, i: nat)
    requires i < |ships|
    ensures TypesOf(ships[..i + 1]) == TypesOf(ships[..i]) + {ships[i].shipType}
    ensures forall t :: TypeCount(ships[..i + 1], t) == TypeCount(ships[..i], t) + (if ships[i].shipType == t then 1 else 0)
  {
    assert ships[..i + 1][..i] == ships[..i];
    assert forall k :: 0 <= k < i ==> ships[..i + 1][k] == ships[..i][k];
  }

  lemma {:induction false} TypeCountPositive(ships: seq<Ship>, t: string)
    ensures TypeCount(ships, t) > 0 <==> t in TypesOf(ships)
  {
    if ships != [] {
      var init := ships[..|ships| - 1];
      TypeCountPositive(init, t);
      assert TypesOf(ships) == TypesOf(init) + {ships[|ships| - 1].shipType} by {
        assert forall k :: 0 <= k < |init| ==> init[k] == ships[k];
      }
    }
  }

  /** One tally per type present, each equal to one, is exactly "no type twice". */
  lemma {:induction false} TallyMeansDistinct(ships: seq<Ship>)
    ensures (forall t :: t in TypesOf(ships) ==> TypeCount(ships, t) == 1) <==> DistinctTypes(ships)
  {
    if ships != [] {
      var init, last := ships[..|ships| - 1], ships[|ships| - 1];
      TallyMeansDistinct(init);
      TypeCountPositive(init, last.shipType);
      assert TypesOf(ships) == TypesOf(init) + {last.shipType} by {
        assert forall k :: 0 <= k < |init| ==> init[k] == ships[k];
      }
      assert DistinctTypes(ships) <==> DistinctTypes(init) && last.shipType !in TypesOf(init) by {
        assert forall k :: 0 <= k < |init| ==> init[k] == ships[k];
        if DistinctTypes(ships) {
          forall k | 0 <= k < |init| ensures init[k].shipType != last.shipType {
            assert ships[k].shipType != ships[|ships| - 1].shipType;
          }
        }
      }
      if DistinctTypes(ships) {
        forall t | t in TypesOf(ships) ensures TypeCount(ships, t) == 1 {
          if t != last.shipType { TypeCountPositive(init, t); }
        }
      }
    }
  }

  lemma {:induction false} FirstCatalogErrorMeaning(ships: seq<Ship>)
    ensures FirstCatalogError(ships).None? <==> forall i :: 0 <= i < |ships| ==> CatalogShip(ships[i])
  {
    if ships != [] {
      FirstCatalogErrorMeaning(ships[1..]);
      assert forall i :: 1 <= i < |ships| ==> ships[i] == ships[1..][i - 1];
    }
  }

  /** The fleet checks pass exactly for five catalog ships of distinct types. */
  lemma FleetCheckMeaning(ships: seq<Ship>)
    ensures CheckFleet(ships).Ok? <==>
      |ships| == 5 && (forall i :: 0 <= i < |ships| ==> CatalogShip(ships[i])) && DistinctTypes(ships)
  {
    CatalogShape();
    FirstCatalogErrorMeaning(ships);
    TallyMeansDistinct(ships);
  }

  /** Sum of the ships' sizes. */
  function SizeTotal(ships: seq<Ship>): int
  {
    if ships == [] then 0 else SizeTotal(ships[..|ships| - 1]) + ships[|ships| - 1].size
  }

  /** Sizes and number of catalog ships, grouped by type. */
  lemma {:induction false} TotalsByType(ships: seq<Ship>)
    requires forall i :: 0 <= i < |ships| ==> CatalogShip(ships[i])
    ensures |ships| ==
      TypeCount(ships, Carrier) + TypeCount(ships, Battleship) + TypeCount(ships, Cruiser)
      + TypeCount(ships, Submarine) + TypeCount(ships, Destroyer)
    ensures SizeTotal(ships) ==
      5 * TypeCount(ships, Carrier) + 4 * TypeCount(ships, Battleship) + 3 * TypeCount(ships, Cruiser)
      + 3 * TypeCount(ships, Submarine) + 2 * TypeCount(ships, Destroyer)
  {
    if ships != [] {
      var init, last := ships[..|ships| - 1], ships[|ships| - 1];
      TotalsByType(init);
      assert CatalogShip(last);
      assert last.shipType in {Carrier, Battleship, Cruiser, Submarine, Destroyer};
      if last.shipType == Carrier {
        assert last.size == 5;
      } else if last.shipType == Battleship {
        assert last.size == 4;
      } else if last.shipType == Cruiser || last.shipType == Submarine {
        assert last.size == 3;
      } else {
        assert last.size == 2;
      }
    }
  }

  /** A fleet that passes the checks has one ship of each catalog type. */
  lemma FleetTypeCounts(ships: seq<Ship>)
    requires CheckFleet(ships).Ok?
    ensures TypeCount(ships, Carrier) == 1 && TypeCount(ships, Battleship) == 1
    ensures TypeCount(ships, Cruiser) == 1 && TypeCount(ships, Submarine) == 1
    ensures TypeCount(ships, Destroyer) == 1
  {
    FleetCheckMeaning(ships);
    TallyMeansDistinct(ships);
    TotalsByType(ships);
    TypeCountPositive(ships, Carrier);
    TypeCountPositive(ships, Battleship);
    TypeCountPositive(ships, Cruiser);
    TypeCountPositive(ships, Submarine);
    TypeCountPositive(ships, Destroyer);
  }

  /** A fleet that passes the checks holds every catalog type once; its sizes total 17. */
  lemma FleetCoversCatalog(ships: seq<Ship>)
    requires CheckFleet(ships).Ok?
    ensures TypesOf(ships) == ShipConfig.Keys
    ensures forall t :: t in ShipConfig ==> TypeCount(ships, t) == 1
    ensures SizeTotal(ships) == 17
  {
    FleetCheckMeaning(ships);
    FleetTypeCounts(ships);
    TotalsByType(ships);
    assert ShipConfig.Keys == {Carrier, Battleship, Cruiser, Submarine, Destroyer};
    forall t | t in ShipConfig ensures t in TypesOf(ships) {
      TypeCountPositive(ships, t);
    }
  }

  // ---------------------------------------------------------------------------
  // Cells of one ship
  // ---------------------------------------------------------------------------

  /** The `n` cells from (row, col) rightwards (`horizontal`) or downwards, in order. */
  function Run(row: int, col: int, horizontal: bool, n: nat): (cells: seq<string>)
    requires 0 <= row <= 9 && 0 <= col <= 9
    requires if horizontal then col + n <= 10 else row + n <= 10
    ensures |cells| == n
    ensures horizontal ==> forall j :: 0 <= j < n ==> cells[j] == FormatCoordinate(row, col + j)
    ensures !horizontal ==> forall j :: 0 <= j < n ==> cells[j] == FormatCoordinate(row + j, col)
  {
    if n == 0 then []
    else if horizontal then Run(row, col, horizontal, n - 1) + [FormatCoordinate(row, col + n - 1)]
    else Run(row, col, horizontal, n - 1) + [FormatCoordinate(row + n - 1, col)]
  }

  /** The cells of a ship, or why they cannot be drawn. */
  function ShipCells(ship: Ship): Result<seq<string>, PlaceError>
  {
    match ParseCoordinate(ship.start)
    case Err(_) => Err(InvalidStart(ship.shipType))
    case Ok(c) =>
      // a loop `j < Size` runs no times when Size is not positive
      var n: nat := if ship.size < 0 then 0 else ship.size;
      if ship.orientation == "horizontal" then
        if c.col + ship.size > 10 then Err(OutOfBounds(ship.shipType)) else Ok(Run(c.row, c.col, true, n))
      else if ship.orientation == "vertical" then
        if c.row + ship.size > 10 then Err(OutOfBounds(ship.shipType)) else Ok(Run(c.row, c.col, false, n))
      else Err(InvalidOrientation(ship.shipType))
  }

  /** The cell loop of PlaceShips: `n` cells from (row, col) along the orientation. */
  method DrawRun(row: int, col: int, horizontal: bool, n: nat) returns (cells: seq<string>)
    requires 0 <= row <= 9 && 0 <= col <= 9
    requires if horizontal then col + n <= 10 else row + n <= 10
    ensures cells == Run(row, col, horizontal, n)
  {
    cells := [];
    for j := 0 to n
      invariant cells == Run(row, col, horizontal, j)
    {
      if horizontal {
        cells := cells + [FormatCoordinate(row, col + j)];
      } else {
        cells := cells + [FormatCoordinate(row + j, col)];
      }
    }
  }

  /** The checks and cells of PlaceShips for one ship. */
  method ComputeCells(ship: Ship) returns (r: Result<seq<string>, PlaceError>)
    ensures r == ShipCells(ship)
  {
    var start := ParseCoordinate(ship.start);
    if start.Err? {
      return Err(InvalidStart(ship.shipType));
    }
    var row, col := start.value.row, start.value.col;
    var n: nat := if ship.size < 0 then 0 else ship.size;
    if ship.orientation == "horizontal" {
      if col + ship.size > 10 {
        return Err(OutOfBounds(ship.shipType));
      }
      var cells := DrawRun(row, col, true, n);
      return Ok(cells);
    } else if ship.orientation == "vertical" {
      if row + ship.size > 10 {
        return Err(OutOfBounds(ship.shipType));
      }
      var cells := DrawRun(row, col, false, n);
      return Ok(cells);
    } else {
      return Err(InvalidOrientation(ship.shipType));
    }
  }

  /** The cells of a run are distinct cell names the game produces. */
  lemma RunDistinct(row: int, col: int, horizontal: bool, n: nat)
    requires 0 <= row <= 9 && 0 <= col <= 9
    requires if horizontal then col + n <= 10 else row + n <= 10
    ensures NoRepeats(Run(row, col, horizontal, n))
    ensures forall cell :: cell in Run(row, col, horizontal, n) ==> IsCanonical(cell)
  {
    var cells := Run(row, col, horizontal, n);
    forall a, b | 0 <= a < b < n ensures cells[a] != cells[b] {
      if horizontal {
        FormatCoordinateInjective(row, col + a, row, col + b);
      } else {
        FormatCoordinateInjective(row + a, col, row + b, col);
      }
    }
    forall cell | cell in cells ensures IsCanonical(cell) {
      var j :| 0 <= j < n && cells[j] == cell;
      if horizontal {
        assert cell == FormatCoordinate(row, col + j);
      } else {
        assert cell == FormatCoordinate(row + j, col);
      }
    }
  }

  /** The cells a ship can be drawn on: as many as its size, distinct and canonical. */
  lemma ShipCellsDistinct(ship: Ship)
    requires ShipCells(ship).Ok?
    ensures NoRepeats(ShipCells(ship).value)
    ensures forall cell :: cell in ShipCells(ship).value ==> IsCanonical(cell)
    ensures |ShipCells(ship).value| == if ship.size < 0 then 0 else ship.size
  {
    var c := ParseCoordinate(ship.start).value;
    var n: nat := if ship.size < 0 then 0 else ship.size;
    RunDistinct(c.row, c.col, ship.orientation == "horizontal", n);
  }

  // ---------------------------------------------------------------------------
  // The occupied-cell grid
  // ---------------------------------------------------------------------------

  /** Claims the cells one by one for `shipType`; a cell already claimed is an overlap. */
  function Claim(cells: seq<string>, grid: map<string, string>, shipType: string): Result<map<string, string>, PlaceError>
  {
    if cells == [] then Ok(grid)
    else if cells[0] in grid then Err(Overlap(cells[0]))
    else Claim(cells[1..], grid[cells[0] := shipType], shipType)
  }

  /** Every ship drawn in turn, each claiming its cells; the ships get their cells filled in. */
  function LayoutFrom(ships: seq<Ship>, placed: seq<Ship>, grid: map<string, string>)
    : Result<(seq<Ship>, map<string, string>), PlaceError>
  {
    if ships == [] then Ok((placed, grid))
    else
      match ShipCells(ships[0])
      case Err(e) => Err(e)
      case Ok(cells) =>
        match Claim(cells, grid, ships[0].shipType)
        case Err(e) => Err(e)
        case Ok(g) => LayoutFrom(ships[1..], placed + [ships[0].(cells := cells)], g)
  }

  function Layout(ships: seq<Ship>): Result<(seq<Ship>, map<string, string>), PlaceError>
  {
    LayoutFrom(ships, [], map[])
  }

  /** The layout loop of PlaceShips: ship by ship, cell by cell into the grid. */
  method LayOut(ships: seq<Ship>) returns (r: Result<(seq<Ship>, map<string, string>), PlaceError>)
    ensures r == Layout(ships)
  {
    var placed: seq<Ship> := [];
    var grid: map<string, string> := map[];
    for i := 0 to |ships|
      invariant Layout(ships) == LayoutFrom(ships[i..], placed, grid)
    {
      var ship := ships[i];
      assert ships[i..][1..] == ships[i + 1..];
      var cells := ComputeCells(ship);
      if cells.Err? {
        return Err(cells.error);
      }
      ghost var before := grid;
      for k := 0 to |cells.value|
        invariant Claim(cells.value, before, ship.shipType) == Claim(cells.value[k..], grid, ship.shipType)
      {
        var cell := cells.value[k];
        assert cells.value[k..][1..] == cells.value[k + 1..];
        if cell in grid {
          return Err(Overlap(cell));
        }
        grid := grid[cell := ship.shipType];
      }
      assert cells.value[|cells.value|..] == [];
      placed := placed + [ship.(cells := cells.value)];
    }
    assert ships[|ships|..] == [];
    return Ok((placed, grid));
  }

  /** The grid of already drawn ships: each cell maps to its ship's type. */
  function GridOf(placed: seq<Ship>): map<string, string>
  {
    if placed == [] then map[]
    else
      var last := placed[|placed| - 1];
      GridOf(placed[..|placed| - 1]) + map c | c in last.cells :: last.shipType
  }

  /** No ship repeats a cell and no two ships share one. */
  predicate Disjoint(placed: seq<Ship>)
  {
    && (forall i :: 0 <= i < |placed| ==> NoRepeats(placed[i].cells))
    && (forall i, j, c :: 0 <= i < j < |placed| && c in placed[i].cells ==> c !in placed[j].cells)
  }

  /** Total number of cells of the ships. */
  function CellTotal(placed: seq<Ship>): int
  {
    if placed == [] then 0 else CellTotal(placed[..|placed| - 1]) + |placed[|placed| - 1].cells|
  }

  /** Every ship has cells. */
  predicate AllDrawable(ships: seq<Ship>)
  {
    forall i :: 0 <= i < |ships| ==> ShipCells(ships[i]).Ok?
  }

  /** The ships with the cells ShipCells draws for each. */
  function DrawAll(ships: seq<Ship>): (placed: seq<Ship>)
    requires AllDrawable(ships)
  {
    seq(|ships|, i requires 0 <= i < |ships| => ships[i].(cells := ShipCells(ships[i]).value))
  }

  lemma {:induction false} GridOfKeys(placed: seq<Ship>)
    ensures forall c :: c in GridOf(placed) <==> exists i :: 0 <= i < |placed| && c in placed[i].cells
  {
    if placed != [] {
      var init := placed[..|placed| - 1];
      GridOfKeys(init);
      assert forall i :: 0 <= i < |init| ==> init[i] == placed[i];
    }
  }

  /** In a disjoint layout each cell of a ship maps to that ship's type. */
  lemma {:induction false} GridOfValues(placed: seq<Ship>)
    requires Disjoint(placed)
    ensures forall i, c :: 0 <= i < |placed| && c in placed[i].cells ==>
      c in GridOf(placed) && GridOf(placed)[c] == placed[i].shipType
  {
    if placed != [] {
      var init := placed[..|placed| - 1];
      assert forall i :: 0 <= i < |init| ==> init[i] == placed[i];
      assert Disjoint(init);
      GridOfValues(init);
    }
  }

  /** A map giving every cell of a list the same value has one key per distinct cell. */
  lemma UniformMapSize(cells: seq<string>, t: string)
    requires NoRepeats(cells)
    ensures (map c | c in cells :: t).Keys == set c | c in cells
    ensures |map c | c in cells :: t| == |cells|
  {
    NoRepeatsCard(cells);
    assert (map c | c in cells :: t).Keys == set c | c in cells;
  }

  /** A disjoint layout occupies exactly as many cells as its ships have. */
  lemma {:induction false} GridOfSize(placed: seq<Ship>)
    requires Disjoint(placed)
    ensures |GridOf(placed)| == CellTotal(placed)
  {
    if placed != [] {
      var init, last := placed[..|placed| - 1], placed[|placed| - 1];
      assert forall i :: 0 <= i < |init| ==> init[i] == placed[i];
      assert Disjoint(init);
      GridOfSize(init);
      var old_, added := GridOf(init), map c | c in last.cells :: last.shipType;
      UniformMapSize(last.cells, last.shipType);
      assert old_.Keys !! added.Keys by {
        GridOfKeys(init);
      }
      assert GridOf(placed).Keys == old_.Keys + added.Keys;
    }
  }

  /** Claiming succeeds exactly for new, distinct cells. */
  lemma {:induction false} ClaimSucceeds(cells: seq<string>, grid: map<string, string>, t: string)
    ensures Claim(cells, grid, t).Ok? <==> NoRepeats(cells) && forall c :: c in cells ==> c !in grid
  {
    if cells != [] {
      var rest := cells[1..];
      ClaimSucceeds(rest, grid[cells[0] := t], t);
      assert forall a :: 0 < a < |cells| ==> cells[a] == rest[a - 1];
      assert forall c :: c in cells <==> c == cells[0] || c in rest;
      assert NoRepeats(cells) <==> NoRepeats(rest) && cells[0] !in rest by {
        if NoRepeats(rest) && cells[0] !in rest {
          forall a, b | 0 <= a < b < |cells| ensures cells[a] != cells[b] {
            if a == 0 { assert cells[b] in rest; }
          }
        }
      }
    }
  }

  /** A successful claim adds exactly the claimed cells, mapped to the ship's type. */
  lemma {:induction false} ClaimAdds(cells: seq<string>, grid: map<string, string>, t: string)
    requires Claim(cells, grid, t).Ok?
    ensures Claim(cells, grid, t).value == grid + map c | c in cells :: t
  {
    if cells != [] {
      var rest := cells[1..];
      ClaimAdds(rest, grid[cells[0] := t], t);
      assert forall c :: c in cells <==> c == cells[0] || c in rest;
      assert grid[cells[0] := t] + (map c | c in rest :: t) == grid + map c | c in cells :: t;
    }
  }

  /** Adding one ship to a disjoint layout keeps it disjoint exactly when its cells are new and distinct. */
  lemma DisjointSnoc(placed: seq<Ship>, s: Ship)
    requires Disjoint(placed)
    ensures Disjoint(placed + [s]) <==> NoRepeats(s.cells) && forall c :: c in s.cells ==> c !in GridOf(placed)
  {
    var next, n := placed + [s], |placed|;
    GridOfKeys(placed);
    assert forall i :: 0 <= i < n ==> next[i] == placed[i];
    assert next[n] == s;
    if Disjoint(next) {
      forall c | c in s.cells ensures c !in GridOf(placed) {
        forall i | 0 <= i < n ensures c !in placed[i].cells {
          assert c in next[n].cells;
        }
      }
    }
    if NoRepeats(s.cells) && forall c :: c in s.cells ==> c !in GridOf(placed) {
      forall i | 0 <= i < |next| ensures NoRepeats(next[i].cells) {
        if i < n { assert NoRepeats(placed[i].cells); }
      }
      forall i, j, c | 0 <= i < j < |next| && c in next[i].cells ensures c !in next[j].cells {
        if j < n {
          assert c !in placed[j].cells;
        } else {
          assert c in GridOf(placed);
        }
      }
    }
  }

  /** A fleet can be drawn when its first ship and the rest can. */
  lemma AllDrawableCons(ships: seq<Ship>)
    requires ships != []
    ensures AllDrawable(ships) <==> ShipCells(ships[0]).Ok? && AllDrawable(ships[1..])
  {
    assert forall i :: 1 <= i < |ships| ==> ships[i] == ships[1..][i - 1];
  }

  /** Drawing a fleet draws its first ship, then the rest. */
  lemma DrawAllCons(ships: seq<Ship>)
    requires ships != [] && AllDrawable(ships)
    ensures AllDrawable(ships[1..])
    ensures DrawAll(ships) == [ships[0].(cells := ShipCells(ships[0]).value)] + DrawAll(ships[1..])
  {
    var tail := ships[1..];
    assert AllDrawable(tail) by {
      forall i | 0 <= i < |tail| ensures ShipCells(tail[i]).Ok? {
        assert tail[i] == ships[i + 1];
      }
    }
    var whole, rest := DrawAll(ships), DrawAll(tail);
    forall i | 1 <= i < |whole| ensures whole[i] == rest[i - 1] {
      DrawAllAt(ships, i);
      DrawAllAt(tail, i - 1);
    }
  }

  /** The i-th drawn ship is the i-th ship with its drawn cells. */
  lemma DrawAllAt(ships: seq<Ship>, i: int)
    requires AllDrawable(ships) && 0 <= i < |ships|
    ensures |DrawAll(ships)| == |ships|
    ensures DrawAll(ships)[i] == ships[i].(cells := ShipCells(ships[i]).value)
  {
  }

  /** Drawing all ships but the last is the drawing without its last ship. */
  lemma DrawAllInit(ships: seq<Ship>)
    requires ships != [] && AllDrawable(ships)
    ensures AllDrawable(ships[..|ships| - 1])
    ensures DrawAll(ships)[..|ships| - 1] == DrawAll(ships[..|ships| - 1])
  {
    var init := ships[..|ships| - 1];
    assert forall i :: 0 <= i < |init| ==> init[i] == ships[i];
  }

  /** A prefix of a disjoint layout is disjoint. */
  lemma DisjointPrefix(p: seq<Ship>, q: seq<Ship>)
    requires Disjoint(p + q)
    ensures Disjoint(p)
  {
    assert forall i :: 0 <= i < |p| ==> (p + q)[i] == p[i];
  }

  /** One ship of the layout: it is drawn, then claims its cells or stops the layout. */
  lemma LayoutFromStep(ships: seq<Ship>, placed: seq<Ship>)
    requires ships != [] && Disjoint(placed)
    ensures ShipCells(ships[0]).Err? ==> LayoutFrom(ships, placed, GridOf(placed)).Err?
    ensures ShipCells(ships[0]).Ok? ==>
      var next := placed + [ships[0].(cells := ShipCells(ships[0]).value)];
      && (Disjoint(next) ==>
            LayoutFrom(ships, placed, GridOf(placed)) == LayoutFrom(ships[1..], next, GridOf(next)))
      && (!Disjoint(next) ==> LayoutFrom(ships, placed, GridOf(placed)).Err?)
  {
    var s := ships[0];
    if ShipCells(s).Ok? {
      var cells := ShipCells(s).value;
      var next := placed + [s.(cells := cells)];
      ShipCellsDistinct(s);
      ClaimSucceeds(cells, GridOf(placed), s.shipType);
      DisjointSnoc(placed, s.(cells := cells));
      if Disjoint(next) {
        ClaimAdds(cells, GridOf(placed), s.shipType);
        assert next[..|next| - 1] == placed;
      }
    }
  }

  /** The layout from a disjoint start succeeds exactly when the rest can be drawn without overlap. */
  lemma {:induction false} LayoutFromSucceeds(ships: seq<Ship>, placed: seq<Ship>)
    requires Disjoint(placed)
    ensures LayoutFrom(ships, placed, GridOf(placed)).Ok? <==>
      AllDrawable(ships) && Disjoint(placed + DrawAll(ships))
    decreases |ships|
  {
    if ships == [] {
      assert placed + DrawAll(ships) == placed;
    } else {
      LayoutFromStep(ships, placed);
      AllDrawableCons(ships);
      if ShipCells(ships[0]).Ok? {
        var next := placed + [ships[0].(cells := ShipCells(ships[0]).value)];
        if AllDrawable(ships) {
          DrawAllCons(ships);
          assert placed + DrawAll(ships) == next + DrawAll(ships[1..]);
          if Disjoint(placed + DrawAll(ships)) {
            DisjointPrefix(next, DrawAll(ships[1..]));
          }
        }
        if Disjoint(next) {
          LayoutFromSucceeds(ships[1..], next);
        }
      }
    }
  }

  /** A successful layout from a disjoint start appends the drawn ships and grids them all. */
  lemma {:induction false} LayoutFromResult(ships: seq<Ship>, placed: seq<Ship>)
    requires Disjoint(placed)
    requires LayoutFrom(ships, placed, GridOf(placed)).Ok?
    ensures AllDrawable(ships)
    ensures LayoutFrom(ships, placed, GridOf(placed)).value
      == (placed + DrawAll(ships), GridOf(placed + DrawAll(ships)))
    decreases |ships|
  {
    LayoutFromSucceeds(ships, placed);
    if ships == [] {
      assert placed + DrawAll(ships) == placed;
    } else {
      LayoutFromStep(ships, placed);
      var next := placed + [ships[0].(cells := ShipCells(ships[0]).value)];
      DrawAllCons(ships);
      assert placed + DrawAll(ships) == next + DrawAll(ships[1..]);
      DisjointPrefix(next, DrawAll(ships[1..]));
      LayoutFromResult(ships[1..], next);
    }
  }

  /**
   * The layout succeeds exactly when every ship can be drawn and no two ships
   * share a cell; it then returns the ships with their cells and the grid of
   * exactly those cells, each mapped to its ship's type.
   */
  lemma LayoutMeaning(ships: seq<Ship>)
    ensures Layout(ships).Ok? <==> AllDrawable(ships) && Disjoint(DrawAll(ships))
    ensures Layout(ships).Ok? ==>
      var (placed, grid) := Layout(ships).value;
      && placed == DrawAll(ships) && Disjoint(placed)
      && |grid| == CellTotal(placed)
      && (forall c :: c in grid <==> exists i :: 0 <= i < |placed| && c in placed[i].cells)
      && (forall i, c :: 0 <= i < |placed| && c in placed[i].cells ==> grid[c] == placed[i].shipType)
  {
    assert Disjoint([]);
    assert GridOf([]) == map[];
    LayoutFromSucceeds(ships, []);
    if AllDrawable(ships) {
      assert [] + DrawAll(ships) == DrawAll(ships);
    }
    if Layout(ships).Ok? {
      LayoutFromResult(ships, []);
      var placed := DrawAll(ships);
      GridOfSize(placed);
      GridOfKeys(placed);
      GridOfValues(placed);
    }
  }

  /** Drawn ships of non-negative size have as many cells as their sizes add up to. */
  lemma {:induction false} DrawnCellCount(ships: seq<Ship>)
    requires AllDrawable(ships)
    requires forall i :: 0 <= i < |ships| ==> ships[i].size >= 0
    ensures CellTotal(DrawAll(ships)) == SizeTotal(ships)
  {
    if ships != [] {
      var n := |ships|;
      var init, last := ships[..n - 1], ships[n - 1];
      DrawAllInit(ships);
      assert forall i :: 0 <= i < |init| ==> init[i].size >= 0 by {
        assert forall i :: 0 <= i < |init| ==> init[i] == ships[i];
      }
      DrawnCellCount(init);
      DrawnLast(ships);
    }
  }

  /** The cells of drawn ships: those of all but the last, then the last ship's size many. */
  lemma DrawnLast(ships: seq<Ship>)
    requires ships != [] && AllDrawable(ships) && ships[|ships| - 1].size >= 0
    ensures AllDrawable(ships[..|ships| - 1])
    ensures CellTotal(DrawAll(ships)) == CellTotal(DrawAll(ships[..|ships| - 1])) + ships[|ships| - 1].size
  {
    var n := |ships|;
    var drawn := DrawAll(ships);
    DrawAllInit(ships);
    DrawAllAt(ships, n - 1);
    ShipCellsDistinct(ships[n - 1]);
    assert |drawn[n - 1].cells| == ships[n - 1].size;
  }

  /**
   * A fleet that passes the checks and lays out occupies exactly 17 cells, each
   * a canonical cell name mapped to a catalog type.
   */
  lemma FleetGrid(ships: seq<Ship>)
    requires CheckFleet(ships).Ok? && Layout(ships).Ok?
    ensures |Layout(ships).value.1| == 17
    ensures forall c :: c in Layout(ships).value.1 ==> IsCanonical(c) && Layout(ships).value.1[c] in ShipConfig
  {
    LayoutMeaning(ships);
    var placed, grid := Layout(ships).value.0, Layout(ships).value.1;
    assert |grid| == 17 by {
      FleetCheckMeaning(ships);
      FleetCoversCatalog(ships);
      CatalogShape();
      DrawnCellCount(ships);
    }
    forall c | c in grid ensures IsCanonical(c) && grid[c] in ShipConfig {
      var i :| 0 <= i < |placed| && c in placed[i].cells;
      ShipCellsDistinct(ships[i]);
      FleetCheckMeaning(ships);
      assert placed[i].shipType == ships[i].shipType;
    }
  }

  /** The board PlaceShips stores for a fleet, or the first reason the fleet is rejected. */
  function BoardFor(roomId: string, playerId: string, ships: seq<Ship>): (r: Result<Board, PlaceError>)
    ensures r.Ok? <==> CheckFleet(ships).Ok? && Layout(ships).Ok?
    ensures CheckFleet(ships).Err? ==> r == Err(CheckFleet(ships).error)
    ensures r.Ok? ==>
      && r.value.playerId == playerId && r.value.roomId == roomId
      && AllDrawable(ships) && r.value.ships == DrawAll(ships)
      && |r.value.grid| == 17
      && forall c :: c in r.value.grid ==> IsCanonical(c) && r.value.grid[c] in ShipConfig
  {
    if CheckFleet(ships).Err? then Err(CheckFleet(ships).error)
    else
      match Layout(ships)
      case Err(e) => Err(e)
      case Ok(laid) =>
        FleetGrid(ships);
        LayoutMeaning(ships);
        Ok(Board(playerId, roomId, laid.0, laid.1))
  }

  /** The validation and layout steps of PlaceShips. */
  method BuildBoard(roomId: string, playerId: string, ships: seq<Ship>) returns (r: Result<Board, PlaceError>)
    ensures r == BoardFor(roomId, playerId, ships)
  {
    var fleet := ValidateFleet(ships);
    if fleet.Err? {
      return Err(fleet.error);
    }
    var laid := LayOut(ships);
    if laid.Err? {
      return Err(laid.error);
    }
    return Ok(Board(playerId, roomId, laid.value.0, laid.value.1));
  }
}

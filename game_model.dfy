/**
 * Entities of internal/game/model.go: the ship catalog, ships, boards, the game
 * state record, and the conversion between "A1"-style cells and 0-based
 * (row, column) pairs.
 *
 * A Go string is modelled as a `string` whose characters stand for runes; the
 * coordinates the game produces are ASCII, where runes and bytes coincide.
 */
module GameModel {
  import opened Wrappers

  // ---------------------------------------------------------------------------
  // Ship catalog
  // ---------------------------------------------------------------------------

  const Carrier: string := "Carrier"
  const Battleship: string := "Battleship"
  const Cruiser: string := "Cruiser"
  const Submarine: string := "Submarine"
  const Destroyer: string := "Destroyer"

  /** The ship types in declaration order. */
  const ShipTypes: seq<string> := [Carrier, Battleship, Cruiser, Submarine, Destroyer]

  /** `ShipConfig`: the size of each ship type. */
  const ShipConfig: map<string, int> :=
    map[Carrier := 5, Battleship := 4, Cruiser := 3, Submarine := 3, Destroyer := 2]

  /** Total number of cells of the given types, counting a type outside the catalog as 0. */
  function SizeSum(types: seq<string>): int
  {
    if types == [] then 0
    else (if types[0] in ShipConfig then ShipConfig[types[0]] else 0) + SizeSum(types[1..])
  }

  /** The catalog has five distinct types, listed in ShipTypes, whose sizes total 17. */
  lemma CatalogShape()
    ensures |ShipConfig| == 5
    ensures ShipConfig.Keys == set t | t in ShipTypes
    ensures forall i, j :: 0 <= i < j < |ShipTypes| ==> ShipTypes[i] != ShipTypes[j]
    ensures ShipConfig[Carrier] == 5 && ShipConfig[Battleship] == 4 && ShipConfig[Cruiser] == 3
    ensures ShipConfig[Submarine] == 3 && ShipConfig[Destroyer] == 2
    ensures SizeSum(ShipTypes) == 17
    ensures forall t :: t in ShipConfig ==> 2 <= ShipConfig[t] <= 5
  {
    assert ShipConfig.Keys == {Carrier, Battleship, Cruiser, Submarine, Destroyer};
    forall t | t in ShipConfig ensures 2 <= ShipConfig[t] <= 5 {
      assert t in {Carrier, Battleship, Cruiser, Submarine, Destroyer};
    }
    assert SizeSum(ShipTypes[3..]) == 5 by { assert SizeSum(ShipTypes[4..]) == 2; }
    assert SizeSum(ShipTypes[1..]) == 12 by { assert SizeSum(ShipTypes[2..]) == 8; }
  }

  /** No element occurs twice. */
  predicate NoRepeats(s: seq<string>)
  {
    forall a, b :: 0 <= a < b < |s| ==> s[a] != s[b]
  }

  /** A sequence without repeats has as many distinct elements as it is long. */
  lemma {:induction false} NoRepeatsCard(s: seq<string>)
    requires NoRepeats(s)
    ensures |set x | x in s| == |s|
  {
    if s != [] {
      var init := s[..|s| - 1];
      NoRepeatsCard(init);
      assert (set x | x in s) == (set x | x in init) + {s[|s| - 1]};
    }
  }

  // ---------------------------------------------------------------------------
  // Records
  // ---------------------------------------------------------------------------

  /** A ship as submitted (type, size, start, orientation) plus the cells it occupies. */
  datatype Ship = Ship(shipType: string, size: int, start: string, orientation: string, cells: seq<string>)

  /** A player's board: its ships and the occupied-cell grid, cell -> ship type. */
  datatype Board = Board(playerId: string, roomId: string, ships: seq<Ship>, grid: map<string, string>)

  /**
   * The stored game state. The Go declaration of GameState is not part of this
   * model; its fields are the ones internal/game/service.go reads and writes.
   */
  datatype GameState = GameState(roomId: string, turn: string, startedAt: int)

  // ---------------------------------------------------------------------------
  // Go's fmt.Sscanf(s, "%d", &n) for a 64-bit int
  // ---------------------------------------------------------------------------

  const Int64Min: int := -0x8000_0000_0000_0000
  const Int64Max: int := 0x7FFF_FFFF_FFFF_FFFF

  /** The white-space runes of the fmt scanner (newline is handled apart). */
  predicate IsSpace(c: char)
  {
    var u := c as int;
    || (0x09 <= u <= 0x0D && u != 0x0A) || u == 0x20 || u == 0x85 || u == 0xA0 || u == 0x1680
    || (0x2000 <= u <= 0x200A) || u == 0x2028 || u == 0x2029 || u == 0x202F || u == 0x205F
    || u == 0x3000
  }

  /** Leading blanks skipped before a number; a newline among them is an error. */
  function SkipSpace(s: string): (r: Option<string>)
    ensures r.Some? ==> r.value == [] || (!IsSpace(r.value[0]) && r.value[0] != '\n')
    ensures r.Some? ==> |r.value| <= |s| && r.value == s[|s| - |r.value|..]
  {
    if s == [] then Some(s)
    else if s[0] == '\n' then None
    else if IsSpace(s[0]) then SkipSpace(s[1..])
    else Some(s)
  }

  predicate IsDigit(c: char) { '0' <= c <= '9' }

  predicate AllDigits(s: string) { forall i :: 0 <= i < |s| ==> IsDigit(s[i]) }

  /** Length of the longest prefix of `s` made of decimal digits. */
  function DigitRun(s: string): (n: nat)
    ensures n <= |s| && AllDigits(s[..n])
    ensures n < |s| ==> !IsDigit(s[n])
  {
    if s == [] || !IsDigit(s[0]) then 0
    else
      var k := DigitRun(s[1..]);
      assert s[..k + 1] == [s[0]] + s[1..][..k];
      k + 1
  }

  /** The value of a string of decimal digits, most significant first. */
  function DigitsValue(ds: string): nat
    requires AllDigits(ds)
  {
    if ds == [] then 0
    else DigitsValue(ds[..|ds| - 1]) * 10 + (ds[|ds| - 1] as int - '0' as int)
  }

  /**
   * What `fmt.Sscanf(s, "%d", &n)` stores in `n`, or None when it reports an
   * error: blanks are skipped, an optional sign is read, then the longest run of
   * decimal digits, which must be non-empty and fit in 64 bits. Whatever follows
   * the digits is left unread and is not an error.
   */
  function ScanInt(s: string): Option<int>
  {
    match SkipSpace(s)
    case None => None
    case Some(t) =>
      var signed := |t| > 0 && (t[0] == '+' || t[0] == '-');
      var body := if signed then t[1..] else t;
      var n := DigitRun(body);
      if n == 0 then None
      else
        var magnitude: int := DigitsValue(body[..n]);
        var value := if signed && t[0] == '-' then -magnitude else magnitude;
        if value < Int64Min || value > Int64Max then None else Some(value)
  }

  // ---------------------------------------------------------------------------
  // Decimal formatting (Go's %d on a non-negative int)
  // ---------------------------------------------------------------------------

  function DigitChar(d: nat): char
    requires d < 10
  {
    ('0' as int + d) as char
  }

  /** Decimal notation of `n`, without leading zeros. */
  function Decimal(n: nat): (s: string)
    ensures |s| >= 1 && AllDigits(s)
    ensures n > 0 ==> s[0] != '0'
  {
    if n < 10 then [DigitChar(n)] else Decimal(n / 10) + [DigitChar(n % 10)]
  }

  /** Reading back the decimal notation of `n` gives `n`. */
  lemma {:induction false} DecimalValue(n: nat)
    ensures DigitsValue(Decimal(n)) == n
  {
    if n >= 10 {
      var s := Decimal(n);
      assert s[..|s| - 1] == Decimal(n / 10);
      DecimalValue(n / 10);
    }
  }

  /** A string of digits is one digit run. */
  lemma {:induction false} DigitRunOfDigits(s: string)
    requires AllDigits(s)
    ensures DigitRun(s) == |s|
  {
    if s != [] {
      DigitRunOfDigits(s[1..]);
    }
  }

  /** Sscanf's %d reads the decimal notation of any 64-bit `n` back as `n`. */
  lemma ScanDecimal(n: nat)
    requires n <= Int64Max
    ensures ScanInt(Decimal(n)) == Some(n)
  {
    var s := Decimal(n);
    assert IsDigit(s[0]);
    assert !IsSpace(s[0]);
    assert SkipSpace(s) == Some(s);
    DigitRunOfDigits(s);
    assert s[..|s|] == s;
    DecimalValue(n);
  }

  // ---------------------------------------------------------------------------
  // Coordinates
  // ---------------------------------------------------------------------------

  /** A 0-based cell position: row 0 is "A", column 0 is "1". */
  datatype Coord = Coord(row: int, col: int)

  /** Why ParseCoordinate rejects a string. */
  datatype CoordError = TooShort | InvalidRow | InvalidColumn | ColumnOutOfBounds

  /** strings.ToUpper on one character, as far as it can yield a row letter. */
  function Upper(c: char): char
  {
    if 'a' <= c <= 'z' then (c as int - 32) as char else c
  }

  /** A row letter, in either case. */
  predicate IsRowLetter(c: char)
  {
    'A' <= c <= 'J' || 'a' <= c <= 'j'
  }

  /** `ParseCoordinate`: converts "A1" to row 0 and column 0. */
  function ParseCoordinate(coord: string): (r: Result<Coord, CoordError>)
    ensures |coord| < 2 ==> r == Err(TooShort)
    ensures |coord| >= 2 && !IsRowLetter(coord[0]) ==> r == Err(InvalidRow)
    ensures |coord| >= 2 && IsRowLetter(coord[0]) && ScanInt(coord[1..]).None? ==> r == Err(InvalidColumn)
    ensures (|coord| >= 2 && IsRowLetter(coord[0]) && ScanInt(coord[1..]).Some?
             && !(1 <= ScanInt(coord[1..]).value <= 10)) ==> r == Err(ColumnOutOfBounds)
    ensures r.Ok? <==>
      |coord| >= 2 && IsRowLetter(coord[0])
      && ScanInt(coord[1..]).Some? && 1 <= ScanInt(coord[1..]).value <= 10
    ensures r.Ok? ==>
      && 0 <= r.value.row <= 9 && 0 <= r.value.col <= 9
      && r.value.row == Upper(coord[0]) as int - 'A' as int
      && r.value.col == ScanInt(coord[1..]).value - 1
  {
    if |coord| < 2 then Err(TooShort)
    else
      var rowChar := Upper(coord[0]);
      if rowChar < 'A' || rowChar > 'J' then Err(InvalidRow)
      else
        match ScanInt(coord[1..])
        case None => Err(InvalidColumn)
        case Some(col) =>
          if col < 1 || col > 10 then Err(ColumnOutOfBounds)
          else Ok(Coord(rowChar as int - 'A' as int, col - 1))
  }

  /** `FormatCoordinate`: converts row 0 and column 0 to "A1". */
  function FormatCoordinate(row: int, col: int): (s: string)
    requires 0 <= row <= 9 && 0 <= col <= 9
    ensures |s| >= 2 && 'A' <= s[0] <= 'J' && s[0] as int - 'A' as int == row
    ensures s[1..] == Decimal(col + 1)
  {
    var s := [('A' as int + row) as char] + Decimal(col + 1);
    assert s[1..] == Decimal(col + 1);
    s
  }

  /** Parsing a formatted cell gives back its row and column. */
  lemma FormatThenParse(row: int, col: int)
    requires 0 <= row <= 9 && 0 <= col <= 9
    ensures ParseCoordinate(FormatCoordinate(row, col)) == Ok(Coord(row, col))
  {
    var s := FormatCoordinate(row, col);
    ScanDecimal(col + 1);
    assert ScanInt(s[1..]) == Some(col + 1);
    assert Upper(s[0]) == s[0];
  }

  /** Distinct cells have distinct names. */
  lemma FormatCoordinateInjective(r1: int, c1: int, r2: int, c2: int)
    requires 0 <= r1 <= 9 && 0 <= c1 <= 9 && 0 <= r2 <= 9 && 0 <= c2 <= 9
    ensures FormatCoordinate(r1, c1) == FormatCoordinate(r2, c2) <==> r1 == r2 && c1 == c2
  {
    FormatThenParse(r1, c1);
    FormatThenParse(r2, c2);
  }

  /** A cell name the game produces: an upper-case row letter and a column without leading zero. */
  predicate IsCanonical(cell: string)
  {
    exists r, c :: 0 <= r <= 9 && 0 <= c <= 9 && cell == FormatCoordinate(r, c)
  }

  /** A lower-case row letter parses like its upper-case form, but the strings differ. */
  lemma LowerCaseParsesAlike(c: char, rest: string)
    requires 'a' <= c <= 'j'
    ensures ParseCoordinate([c] + rest) == ParseCoordinate([Upper(c)] + rest)
    ensures !IsCanonical([c] + rest)
  {
    var lower, upper := [c] + rest, [Upper(c)] + rest;
    assert lower[1..] == rest && upper[1..] == rest;
    assert |lower| == |upper| && Upper(lower[0]) == Upper(upper[0]);
    assert ParseCoordinate(lower) == ParseCoordinate(upper);
    forall r, col | 0 <= r <= 9 && 0 <= col <= 9
      ensures [c] + rest != FormatCoordinate(r, col)
    {
      assert FormatCoordinate(r, col)[0] != c;
    }
  }
}

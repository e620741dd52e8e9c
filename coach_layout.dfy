/** The coach seat map: a fixed grid of 10 rows of seats A-D whose colours
    mirror the latest layout the server sent. */
module CoachLayout {
  import opened Wrappers
  import opened Api

  const ROWS: nat := 10
  const SEATS_PER_ROW: seq<char> := ['A', 'B', 'C', 'D']

  predicate IsDigit(c: char)
  {
    '0' <= c <= '9'
  }

  function DigitChar(d: nat): (c: char)
    requires d < 10
    ensures IsDigit(c)
  {
    ('0' as int + d) as char
  }

  /** The decimal text of a number, as a template literal prints it. */
  function Decimal(n: nat): (s: string)
    ensures |s| >= 1
    ensures forall i :: 0 <= i < |s| ==> IsDigit(s[i])
    ensures n >= 10 ==> |s| >= 2
  {
    if n < 10 then [DigitChar(n)] else Decimal(n / 10) + [DigitChar(n % 10)]
  }

  /** The number a string of decimal digits denotes, read most significant
      digit first. */
  function DigitsValue(s: string): int
    requires forall i :: 0 <= i < |s| ==> IsDigit(s[i])
  {
    if s == [] then 0 else 10 * DigitsValue(s[..|s| - 1]) + (s[|s| - 1] as int - '0' as int)
  }

  /** The text of `n` reads back as `n`, with no leading zero. */
  lemma {:induction false} DecimalRoundTrip(n: nat)
    ensures DigitsValue(Decimal(n)) == n
    ensures n > 0 ==> Decimal(n)[0] != '0'
  {
    if n >= 10 {
      var s := Decimal(n);
      assert s[..|s| - 1] == Decimal(n / 10);
      DecimalRoundTrip(n / 10);
    }
  }

  /** Different numbers print differently. */
  lemma {:induction false} DecimalInjective(a: nat, b: nat)
    requires Decimal(a) == Decimal(b)
    ensures a == b
  {
    var s := Decimal(a);
    if a < 10 && b < 10 {
      assert DigitChar(a) == s[0] == DigitChar(b);
    } else if a >= 10 && b >= 10 {
      assert s == Decimal(a / 10) + [DigitChar(a % 10)] == Decimal(b / 10) + [DigitChar(b % 10)];
      assert DigitChar(a % 10) == s[|s| - 1] == DigitChar(b % 10);
      assert Decimal(a / 10) == s[..|s| - 1] == Decimal(b / 10);
      DecimalInjective(a / 10, b / 10);
    }
  }

  /** Different numbers print differently, stated the other way round. */
  lemma DecimalDistinct(a: nat, b: nat)
    requires a != b
    ensures Decimal(a) != Decimal(b)
  {
    if Decimal(a) == Decimal(b) {
      DecimalInjective(a, b);
    }
  }

  /** `${rowNum}${seatLetter}`. */
  function SeatId(row: nat, letter: char): (id: string)
    ensures |id| >= 2 && id[|id| - 1] == letter
    ensures id[..|id| - 1] == Decimal(row)
  {
    Decimal(row) + [letter]
  }

  /** Two seat ids agree only for the same row and the same letter. */
  lemma SeatIdInjective(row1: nat, letter1: char, row2: nat, letter2: char)
    requires !IsDigit(letter1) && !IsDigit(letter2)
    requires SeatId(row1, letter1) == SeatId(row2, letter2)
    ensures row1 == row2 && letter1 == letter2
  {
    var id := SeatId(row1, letter1);
    assert Decimal(row1) == id[..|id| - 1] == Decimal(row2);
    DecimalInjective(row1, row2);
  }

  /** The id of the cell in row `r` (from 0) and column `j`. */
  function GridSeatId(r: nat, j: nat): string
    requires j < |SEATS_PER_ROW|
  {
    SeatId(r + 1, SEATS_PER_ROW[j])
  }

  /** One rendered seat: its id, the letter printed on it and its colour. */
  datatype Cell = Cell(id: string, letter: char, status: SeatStatus)

  /** `layout?.[seatId]?.status || 'available'`. */
  function StatusOf(layout: Option<CoachLayoutResponse>, id: string): (s: SeatStatus)
    ensures layout.Some? && id in layout.value ==> s == layout.value[id].status
    ensures layout.None? || id !in layout.value ==> s == Available
  {
    if layout.Some? && id in layout.value then layout.value[id].status else Available
  }

  /** The grid: `Array.from({ length: 10 })` of rows, each mapping the
      letters A-D to a cell; row `r` (from 0) shows row number `r + 1`. */
  function Grid(layout: Option<CoachLayoutResponse>): (g: seq<seq<Cell>>)
    ensures |g| == ROWS
    ensures forall r :: 0 <= r < ROWS ==> |g[r]| == |SEATS_PER_ROW|
  {
    seq(ROWS, r requires 0 <= r => seq(|SEATS_PER_ROW|, j requires 0 <= j < |SEATS_PER_ROW| =>
      var id := GridSeatId(r, j);
      Cell(id, SEATS_PER_ROW[j], StatusOf(layout, id))))
  }

  /** The cells of row r carry the ids of row r + 1, with the letters A, B,
      C, D in order;
      each cell's colour is the layout's status for its id, `available`
      when the layout has none. */
  lemma GridIsRowMajor(layout: Option<CoachLayoutResponse>, r: nat, j: nat)
    requires r < ROWS && j < |SEATS_PER_ROW|
    ensures Grid(layout)[r][j].id == SeatId(r + 1, SEATS_PER_ROW[j])
    ensures Grid(layout)[r][j].letter == SEATS_PER_ROW[j]
    ensures Grid(layout)[r][j].status == StatusOf(layout, Grid(layout)[r][j].id)
  {
  }

  /** The 40 cells carry 40 distinct ids. */
  lemma GridIdsDistinct(layout: Option<CoachLayoutResponse>, r1: nat, j1: nat, r2: nat, j2: nat)
    requires r1 < ROWS && j1 < |SEATS_PER_ROW| && r2 < ROWS && j2 < |SEATS_PER_ROW|
    requires (r1, j1) != (r2, j2)
    ensures Grid(layout)[r1][j1].id != Grid(layout)[r2][j2].id
  {
    if r1 != r2 {
      DecimalDistinct(r1 + 1, r2 + 1);
    }
  }

  /** Layout entries whose ids are off the grid are never displayed: two
      layouts that agree on the grid's ids render the same grid. */
  lemma OffGridEntriesNotShown(l1: Option<CoachLayoutResponse>, l2: Option<CoachLayoutResponse>)
    requires forall r: nat, j: nat :: r < ROWS && j < |SEATS_PER_ROW| ==>
               StatusOf(l1, GridSeatId(r, j)) == StatusOf(l2, GridSeatId(r, j))
    ensures Grid(l1) == Grid(l2)
  {
    forall r | 0 <= r < ROWS
      ensures Grid(l1)[r] == Grid(l2)[r]
    {
      assert forall j :: 0 <= j < |SEATS_PER_ROW| ==> Grid(l1)[r][j] == Grid(l2)[r][j];
    }
  }
}

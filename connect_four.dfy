/**
 * Connect Four on a grid of rows of characters: row 0 is the bottom, '0' is
 * an empty cell and a player's token is its letter. Tokens fall to the lowest
 * empty row of their column; a line is counted from a start cell along one of
 * four directions; the first winning line found is highlighted in upper case.
 *
 * `Game` holds the grid as a field its methods replace. The pure parts
 * (`CountAligned`, the scan for a winner, painting a line) are functions on
 * the grid value, and the methods are proved against them.
 */
module ConnectFour {
  import opened Wrappers
  import opened Strings

  /** The rows of the board, bottom row first. */
  type Grid = seq<string>

  const Height := 6
  const Width := 7
  const EmptyCell := '0'

  /** Every row is as wide as the first, and there is at least one. */
  predicate Rectangular(g: Grid)
  {
    |g| > 0 && forall i :: 0 <= i < |g| ==> |g[i]| == |g[0]|
  }

  /** A cell as a (column, row) pair. */
  type Pos = (int, int)

  predicate InGrid(g: Grid, p: Pos)
    requires Rectangular(g)
  {
    0 <= p.1 < |g| && 0 <= p.0 < |g[0]|
  }

  function CellAt(g: Grid, p: Pos): char
    requires Rectangular(g) && InGrid(g, p)
  {
    g[p.1][p.0]
  }

  /** `row.remove(col)` then `row.insert(col, c)`: the one character at (`row`, `col`) replaced. */
  function SetCell(g: Grid, row: nat, col: nat, c: char): (h: Grid)
    requires row < |g| && col < |g[row]|
    ensures |h| == |g| && forall i :: 0 <= i < |g| && i != row ==> h[i] == g[i]
    ensures |h[row]| == |g[row]| && h[row][col] == c
    ensures forall j :: 0 <= j < |g[row]| && j != col ==> h[row][j] == g[row][j]
  {
    var rest := g[row][..col] + g[row][col + 1..];
    g[row := rest[..col] + [c] + rest[col..]]
  }

  // ---------------------------------------------------------------------------
  // Dropping a token

  predicate EmptyAt(g: Grid, row: nat, column: nat)
    requires row < |g|
  {
    column < |g[row]| && g[row][column] == EmptyCell
  }

  /** The first row from `i` up whose cell in `column` is empty, or -1. */
  function LowestEmptyFrom(g: Grid, column: nat, i: nat): (r: int)
    requires i <= |g|
    ensures r == -1 <==> forall k :: i <= k < |g| ==> !EmptyAt(g, k, column)
    ensures r != -1 ==> i <= r < |g| && EmptyAt(g, r, column) && forall k :: i <= k < r ==> !EmptyAt(g, k, column)
    decreases |g| - i
  {
    if i == |g| then -1
    else if EmptyAt(g, i, column) then i
    else LowestEmptyFrom(g, column, i + 1)
  }

  /** The lowest empty row of a column: where a dropped token lands. */
  function LowestEmpty(g: Grid, column: nat): int
  {
    LowestEmptyFrom(g, column, 0)
  }

  /** A column at or past the right edge has no empty row, so dropping there changes nothing. */
  lemma OutOfRangeColumnIsFull(g: Grid, column: nat)
    requires Rectangular(g) && column >= |g[0]|
    ensures LowestEmpty(g, column) == -1
  {
    assert forall k :: 0 <= k < |g| ==> !EmptyAt(g, k, column);
  }

  // ---------------------------------------------------------------------------
  // Counting aligned tokens

  datatype Direction = South | Est | SWest | SEst

  /** The order `is_finished` tries the directions in. */
  const Directions: seq<Direction> := [South, Est, SWest, SEst]

  /** The cell `k` steps from (`col`, `row`) along `dir`. */
  function Cell(dir: Direction, col: int, row: int, k: int): Pos
  {
    match dir
    case South => (col, row - k)
    case Est => (col + k, row)
    case SEst => (col + k, row - k)
    case SWest => (col - k, row - k)
  }

  /**
   * `count_aligned`: how many cells in a row, starting one step from
   * (`col`, `row`) along `dir`, hold `player`. The start cell is not counted.
   */
  function CountAligned(g: Grid, player: char, dir: Direction, col: nat, row: nat): (n: nat)
    requires Rectangular(g) && row < |g| && col < |g[0]|
    ensures dir == South ==> n <= row
    ensures dir == Est ==> n <= |g[0]| - 1 - col
    ensures dir == SEst ==> n <= row && n <= |g[0]| - 1 - col
    ensures dir == SWest ==> n <= row && n <= col
    decreases if dir == South then row else if dir == SWest then col else |g[0]| - col
  {
    match dir
    case South =>
      if row == 0 then 0
      else if player == g[row - 1][col] then 1 + CountAligned(g, player, dir, col, row - 1)
      else 0
    case Est =>
      if col + 1 >= |g[0]| then 0
      else if player == g[row][col + 1] then 1 + CountAligned(g, player, dir, col + 1, row)
      else 0
    case SEst =>
      if col + 1 >= |g[0]| || row == 0 then 0
      else if player == g[row - 1][col + 1] then 1 + CountAligned(g, player, dir, col + 1, row - 1)
      else 0
    case SWest =>
      if row == 0 || col == 0 then 0
      else if player == g[row - 1][col - 1] then 1 + CountAligned(g, player, dir, col - 1, row - 1)
      else 0
  }

  /** The count is the length of the run of `player` cells after the start; the next cell, if any, is not `player`'s. */
  lemma {:induction false} CountAlignedMeaning(g: Grid, player: char, dir: Direction, col: nat, row: nat)
    requires Rectangular(g) && row < |g| && col < |g[0]|
    ensures forall k :: 1 <= k <= CountAligned(g, player, dir, col, row) ==>
              InGrid(g, Cell(dir, col, row, k)) && CellAt(g, Cell(dir, col, row, k)) == player
    ensures var end := Cell(dir, col, row, CountAligned(g, player, dir, col, row) + 1);
            InGrid(g, end) ==> CellAt(g, end) != player
    decreases if dir == South then row else if dir == SWest then col else |g[0]| - col
  {
    var n := CountAligned(g, player, dir, col, row);
    var next := Cell(dir, col, row, 1);
    CountAlignedStep(g, player, dir, col, row);
    if InGrid(g, next) && CellAt(g, next) == player {
      var m := CountAligned(g, player, dir, next.0, next.1);
      CountAlignedMeaning(g, player, dir, next.0, next.1);
      forall k | 1 <= k <= n
        ensures InGrid(g, Cell(dir, col, row, k)) && CellAt(g, Cell(dir, col, row, k)) == player
      {
        if k > 1 {
          CellShift(dir, col, row, k - 1);
        }
      }
      CellShift(dir, col, row, m + 1);
    }
  }

  /** Stepping once and then `k` times is stepping `k + 1` times. */
  lemma CellShift(dir: Direction, col: int, row: int, k: int)
    ensures var next := Cell(dir, col, row, 1);
            Cell(dir, next.0, next.1, k) == Cell(dir, col, row, k + 1)
  {
  }

  /** One step of the count: the next cell along `dir` is `player`'s and counted, or the count is 0. */
  lemma CountAlignedStep(g: Grid, player: char, dir: Direction, col: nat, row: nat)
    requires Rectangular(g) && row < |g| && col < |g[0]|
    ensures var next := Cell(dir, col, row, 1);
            CountAligned(g, player, dir, col, row) ==
              if InGrid(g, next) && CellAt(g, next) == player then 1 + CountAligned(g, player, dir, next.0, next.1) else 0
  {
  }

  // ---------------------------------------------------------------------------
  // Painting the winning line

  /** The first `n` cells from (`col`, `row`) along `dir`, the start cell first. */
  function Line(dir: Direction, col: int, row: int, n: nat): (l: seq<Pos>)
    ensures |l| == n && forall k :: 0 <= k < n ==> l[k] == Cell(dir, col, row, k)
  {
    if n == 0 then [] else Line(dir, col, row, n - 1) + [Cell(dir, col, row, n - 1)]
  }

  /** The grid with the first `n` cells of the line from (`col`, `row`) along `dir` replaced by `c`. */
  function Paint(g: Grid, dir: Direction, col: int, row: int, c: char, n: nat): (h: Grid)
    requires Rectangular(g) && forall k :: 0 <= k < n ==> InGrid(g, Cell(dir, col, row, k))
    ensures Rectangular(h) && |h| == |g| && |h[0]| == |g[0]|
  {
    if n == 0 then g
    else
      var p := Cell(dir, col, row, n - 1);
      assert InGrid(g, p);
      SetCell(Paint(g, dir, col, row, c, n - 1), p.1, p.0, c)
  }

  /** Painting changes exactly the cells of the line, and nothing else. */
  lemma {:induction false} PaintMeaning(g: Grid, dir: Direction, col: int, row: int, c: char, n: nat)
    requires Rectangular(g) && forall k :: 0 <= k < n ==> InGrid(g, Cell(dir, col, row, k))
    ensures forall p: Pos :: InGrid(g, p) ==>
              CellAt(Paint(g, dir, col, row, c, n), p) == if p in Line(dir, col, row, n) then c else CellAt(g, p)
  {
    if n > 0 {
      PaintMeaning(g, dir, col, row, c, n - 1);
      assert Line(dir, col, row, n) == Line(dir, col, row, n - 1) + [Cell(dir, col, row, n - 1)];
    }
  }

  /** A winning line found by the scan: start cell, direction and the player whose token was read. */
  datatype Win = Win(col: nat, row: nat, dir: Direction, player: char)

  /** The start cell is on the grid and at least three `player` cells follow it along `dir`. */
  predicate ValidWin(g: Grid, w: Win)
  {
    Rectangular(g) && w.row < |g| && w.col < |g[0]| && CountAligned(g, w.player, w.dir, w.col, w.row) >= 3
  }

  /** The four cells of a valid win are on the grid. */
  lemma WinOnGrid(g: Grid, w: Win)
    requires ValidWin(g, w)
    ensures forall k :: 0 <= k < 4 ==> InGrid(g, Cell(w.dir, w.col, w.row, k))
  {
    CountAlignedMeaning(g, w.player, w.dir, w.col, w.row);
  }

  /** `hilight_winner`: the four cells of the line in the upper case of the player's letter. */
  function Highlight(g: Grid, w: Win): (h: Grid)
    requires ValidWin(g, w)
    ensures Rectangular(h) && |h| == |g| && |h[0]| == |g[0]|
  {
    WinOnGrid(g, w);
    Paint(g, w.dir, w.col, w.row, ToAsciiUpper(w.player), 4)
  }

  // ---------------------------------------------------------------------------
  // Scanning for a winner

  /** The first direction from index `k` on with at least three aligned cells. */
  function FirstDirectionFrom(g: Grid, player: char, col: nat, row: nat, k: nat): (r: Option<Direction>)
    requires Rectangular(g) && row < |g| && col < |g[0]| && k <= |Directions|
    ensures r.Some? ==> CountAligned(g, player, r.value, col, row) >= 3
    ensures r.Some? ==> exists i :: k <= i < |Directions| && Directions[i] == r.value &&
                          forall j :: k <= j < i ==> CountAligned(g, player, Directions[j], col, row) < 3
    ensures r.None? ==> forall i :: k <= i < |Directions| ==> CountAligned(g, player, Directions[i], col, row) < 3
    decreases |Directions| - k
  {
    if k == |Directions| then None
    else if CountAligned(g, player, Directions[k], col, row) >= 3 then Some(Directions[k])
    else FirstDirectionFrom(g, player, col, row, k + 1)
  }

  /**
   * The cells of row `row` scanned from column `j`, where `col` is the column
   * handed to `CountAligned`. With `countEmpty` every cell advances `col`; the
   * scan as written advances it only past non-empty cells.
   */
  function ScanRow(g: Grid, row: nat, j: nat, col: nat, countEmpty: bool): (r: Option<Win>)
    requires Rectangular(g) && row < |g| && col <= j <= |g[0]|
    requires countEmpty ==> col == j
    ensures r.Some? ==> ValidWin(g, r.value) && r.value.player != EmptyCell && r.value.row == row
    ensures r.Some? && countEmpty ==> g[row][r.value.col] == r.value.player
    decreases |g[0]| - j
  {
    if j == |g[0]| then None
    else if g[row][j] == EmptyCell then ScanRow(g, row, j + 1, if countEmpty then col + 1 else col, countEmpty)
    else
      match FirstDirectionFrom(g, g[row][j], col, row, 0)
      case Some(dir) => Some(Win(col, row, dir, g[row][j]))
      case None => ScanRow(g, row, j + 1, col + 1, countEmpty)
  }

  /** One cell of the as-written row scan: an empty cell is skipped, a token is tried from `col`. */
  lemma ScanRowStep(g: Grid, row: nat, j: nat, col: nat)
    requires Rectangular(g) && row < |g| && col <= j < |g[0]|
    ensures g[row][j] == EmptyCell ==> ScanRow(g, row, j, col, false) == ScanRow(g, row, j + 1, col, false)
    ensures g[row][j] != EmptyCell ==>
      ScanRow(g, row, j, col, false) ==
        match FirstDirectionFrom(g, g[row][j], col, row, 0)
        case Some(dir) => Some(Win(col, row, dir, g[row][j]))
        case None => ScanRow(g, row, j + 1, col + 1, false)
  {
  }

  /** The rows from `row` up, scanned in order; the first row with a win gives it. */
  function ScanRows(g: Grid, row: nat, countEmpty: bool): (r: Option<Win>)
    requires Rectangular(g) && row <= |g|
    ensures r.Some? ==> ValidWin(g, r.value) && r.value.player != EmptyCell
    ensures r.Some? && countEmpty ==> g[r.value.row][r.value.col] == r.value.player
    decreases |g| - row
  {
    if row == |g| then None
    else
      var w := ScanRow(g, row, 0, 0, countEmpty);
      if w.Some? then w else ScanRows(g, row + 1, countEmpty)
  }

  /** The winner `is_finished` reports, as written: `col` skips over empty cells. */
  function FirstWinAsWritten(g: Grid): (r: Option<Win>)
    requires Rectangular(g)
    ensures r.Some? ==> ValidWin(g, r.value) && r.value.player != EmptyCell
  {
    ScanRows(g, 0, false)
  }

  /** The winner `is_finished` evidently means to report: `col` is the column of the cell read. */
  function FirstWin(g: Grid): (r: Option<Win>)
    requires Rectangular(g)
    ensures r.Some? ==> ValidWin(g, r.value) && g[r.value.row][r.value.col] == r.value.player != EmptyCell
  {
    ScanRows(g, 0, true)
  }

  /** A winner found by the corrected scan owns four cells in a row. */
  lemma FirstWinIsFourInARow(g: Grid)
    requires Rectangular(g) && FirstWin(g).Some?
    ensures var w := FirstWin(g).value;
            w.player != EmptyCell &&
            forall k :: 0 <= k < 4 ==> InGrid(g, Cell(w.dir, w.col, w.row, k)) && CellAt(g, Cell(w.dir, w.col, w.row, k)) == w.player
  {
    var w := FirstWin(g).value;
    CountAlignedMeaning(g, w.player, w.dir, w.col, w.row);
  }

  /** The scan as written still finds three `player` cells after its start cell. */
  lemma FirstWinAsWrittenSound(g: Grid)
    requires Rectangular(g) && FirstWinAsWritten(g).Some?
    ensures var w := FirstWinAsWritten(g).value;
            w.player != EmptyCell &&
            forall k :: 1 <= k < 4 ==> InGrid(g, Cell(w.dir, w.col, w.row, k)) && CellAt(g, Cell(w.dir, w.col, w.row, k)) == w.player
  {
    var w := FirstWinAsWritten(g).value;
    CountAlignedMeaning(g, w.player, w.dir, w.col, w.row);
  }

  /** The bottom row of the counterexample: three red tokens after an empty cell. */
  const ThreeRed: Grid := ["0rrr000", "0000000", "0000000", "0000000", "0000000", "0000000"]

  /**
   * As written, three tokens win: the 'r' read in column 1 is counted from
   * column 0, so the reported line starts on the empty cell.
   */
  lemma ThreeTokensWinAsWritten()
    ensures Rectangular(ThreeRed)
    ensures FirstWinAsWritten(ThreeRed) == Some(Win(0, 0, Est, 'r'))
    ensures ThreeRed[0][0] == EmptyCell
  {
    var g := ThreeRed;
    assert CountAligned(g, 'r', South, 0, 0) == 0;
    assert CountAligned(g, 'r', Est, 3, 0) == 0;
    assert CountAligned(g, 'r', Est, 0, 0) == 3;
    assert FirstDirectionFrom(g, 'r', 0, 0, 0) == Some(Est);
    assert ScanRow(g, 0, 0, 0, false) == ScanRow(g, 0, 1, 0, false);
  }

  /** `main`'s turn change: red is followed by yellow, anyone else by red. */
  function NextPlayer(p: char): (q: char)
    ensures q == 'r' || q == 'j'
    ensures q == 'j' <==> p == 'r'
  {
    if p == 'r' then 'j' else 'r'
  }

  class Game {
    var grill: Grid

    /** `Game::new`: six empty rows of seven cells. */
    constructor ()
      ensures |grill| == Height && forall i :: 0 <= i < Height ==> grill[i] == "0000000"
      ensures Rectangular(grill) && |grill[0]| == Width
      ensures forall p: Pos :: InGrid(grill, p) ==> CellAt(grill, p) == EmptyCell
    {
      grill := ["0000000", "0000000", "0000000", "0000000", "0000000", "0000000"];
    }

    /** `lowest_empty_row`: a scan of the rows from the bottom. */
    method LowestEmptyRow(column: nat) returns (r: int)
      ensures r == LowestEmpty(grill, column)
    {
      var i := 0;
      while i < |grill|
        invariant 0 <= i <= |grill|
        invariant LowestEmptyFrom(grill, column, i) == LowestEmpty(grill, column)
      {
        if column < |grill[i]| && grill[i][column] == EmptyCell {
          return i;
        }
        i := i + 1;
      }
      return -1;
    }

    /** `add_token`: the token lands in the lowest empty row of the column; out of range or full, nothing happens. */
    method AddToken(column: nat, player: char)
      requires |grill| > 0
      modifies this
      ensures column > |old(grill)[0]| || LowestEmpty(old(grill), column) == -1 ==> grill == old(grill)
      ensures column <= |old(grill)[0]| && LowestEmpty(old(grill), column) != -1 ==>
                grill == SetCell(old(grill), LowestEmpty(old(grill), column), column, player)
      ensures Rectangular(old(grill)) ==> Rectangular(grill) && |grill[0]| == |old(grill)[0]|
    {
      if column > |grill[0]| {
        return;
      }
      var lowest := LowestEmptyRow(column);
      if lowest == -1 {
        return;
      }
      grill := SetCell(grill, lowest, column, player);
    }

    /** `hilight_winner`: four steps along the line, each cell replaced by the upper-case letter. */
    method HilightWinner(col: nat, row: nat, dir: Direction, player: char)
      requires ValidWin(grill, Win(col, row, dir, player))
      modifies this
      ensures grill == Highlight(old(grill), Win(col, row, dir, player))
    {
      WinOnGrid(grill, Win(col, row, dir, player));
      var upper := ToAsciiUpper(player);
      var c: int, r: int := col, row;
      for i := 0 to 4
        invariant (c, r) == Cell(dir, col, row, i)
        invariant grill == Paint(old(grill), dir, col, row, upper, i)
      {
        assert InGrid(old(grill), (c, r));
        grill := SetCell(grill, r, c, upper);
        if i == 3 {
          return;
        }
        // one step along `dir`, to the next cell of the line
        var next := Cell(dir, col, row, i + 1);
        c, r := next.0, next.1;
      }
    }

    /** The `for dir in directions` loop of `is_finished`: the first direction with three aligned cells. */
    method WinningDirection(player: char, col: nat, row: nat) returns (r: Option<Direction>)
      requires Rectangular(grill) && row < |grill| && col < |grill[0]|
      ensures r == FirstDirectionFrom(grill, player, col, row, 0)
    {
      var k := 0;
      while k < |Directions|
        invariant 0 <= k <= |Directions|
        invariant FirstDirectionFrom(grill, player, col, row, k) == FirstDirectionFrom(grill, player, col, row, 0)
      {
        if CountAligned(grill, player, Directions[k], col, row) >= 3 {
          return Some(Directions[k]);
        }
        k := k + 1;
      }
      return None;
    }

    /** The `for c in r.chars()` loop of `is_finished` on one row: the first winning line it meets, as written. */
    method WinInRow(row: nat) returns (w: Option<Win>)
      requires Rectangular(grill) && row < |grill|
      ensures w == ScanRow(grill, row, 0, 0, false)
    {
      var col := 0;
      var j := 0;
      while j < |grill[row]|
        invariant 0 <= col <= j <= |grill[row]| == |grill[0]|
        invariant ScanRow(grill, row, j, col, false) == ScanRow(grill, row, 0, 0, false)
      {
        var c := grill[row][j];
        ScanRowStep(grill, row, j, col);
        if c != EmptyCell {
          var dir := WinningDirection(c, col, row);
          if dir.Some? {
            return Some(Win(col, row, dir.value, c));
          }
          col := col + 1;
        }
        j := j + 1;
      }
      return None;
    }

    /** `is_finished`: the first winning line found, as written, is highlighted and reported. */
    method IsFinished() returns (finished: bool)
      requires Rectangular(grill)
      modifies this
      ensures finished <==> FirstWinAsWritten(old(grill)).Some?
      ensures finished ==> grill == Highlight(old(grill), FirstWinAsWritten(old(grill)).value)
      ensures !finished ==> grill == old(grill)
    {
      var row := 0;
      while row < |grill|
        invariant 0 <= row <= |grill| && grill == old(grill)
        invariant ScanRows(grill, row, false) == FirstWinAsWritten(grill)
      {
        var w := WinInRow(row);
        if w.Some? {
          HilightWinner(w.value.col, w.value.row, w.value.dir, w.value.player);
          return true;
        }
        row := row + 1;
      }
      return false;
    }
  }
}

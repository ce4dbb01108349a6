/**
 * The pure part of the browser client (public/script.js): the 3x3 board
 * addressed row-major 0..8, the eight winning lines, the win and draw tests
 * and the numeric-keypad key table.
 */
module Board {

  /** A board cell holds "" while empty, otherwise the symbol written into it. */
  type Cells = seq<string>

  const Empty: string := ""
  const X: string := "X"
  const O: string := "O"

  /** The nine-cell board with every cell empty. */
  function EmptyBoard(): (b: Cells)
    ensures |b| == 9
    ensures forall i :: 0 <= i < 9 ==> b[i] == Empty
  {
    seq(9, _ => Empty)
  }

  /** The symbol that moves after `p`: X after anything but X, else O. */
  function Other(p: string): (q: string)
    ensures p == X ==> q == O
    ensures p == O ==> q == X
  {
    if p == X then O else X
  }

  // ---------------------------------------------------------------------------
  // Winning lines
  // ---------------------------------------------------------------------------

  /** Rows, then columns, then the two diagonals. */
  const WinningCombinations: seq<seq<nat>> := [
    [0, 1, 2], [3, 4, 5], [6, 7, 8],
    [0, 3, 6], [1, 4, 7], [2, 5, 8],
    [0, 4, 8], [2, 4, 6]
  ]

  /** Every cell of `line` holds `p`. */
  predicate LineFilled(board: Cells, line: seq<nat>, p: string)
  {
    forall j :: 0 <= j < |line| ==> line[j] < |board| && board[line[j]] == p
  }

  /** `checkWin`: some winning combination is entirely `p`. */
  predicate CheckWin(board: Cells, p: string)
  {
    exists k :: 0 <= k < |WinningCombinations| && LineFilled(board, WinningCombinations[k], p)
  }

  /** `checkDraw`: no cell is empty. */
  predicate CheckDraw(board: Cells)
  {
    forall i :: 0 <= i < |board| ==> board[i] != Empty
  }

  // ---------------------------------------------------------------------------
  // Reference geometry: three in a row, stated by coordinates
  // ---------------------------------------------------------------------------

  /** The cell at row `r`, column `c`. */
  function At(board: Cells, r: nat, c: nat): string
    requires |board| == 9 && r < 3 && c < 3
  {
    board[3 * r + c]
  }

  predicate RowFilled(board: Cells, r: nat, p: string)
    requires |board| == 9 && r < 3
  {
    At(board, r, 0) == p && At(board, r, 1) == p && At(board, r, 2) == p
  }

  predicate ColumnFilled(board: Cells, c: nat, p: string)
    requires |board| == 9 && c < 3
  {
    At(board, 0, c) == p && At(board, 1, c) == p && At(board, 2, c) == p
  }

  predicate DiagonalFilled(board: Cells, p: string)
    requires |board| == 9
  {
    At(board, 0, 0) == p && At(board, 1, 1) == p && At(board, 2, 2) == p
  }

  predicate AntiDiagonalFilled(board: Cells, p: string)
    requires |board| == 9
  {
    At(board, 0, 2) == p && At(board, 1, 1) == p && At(board, 2, 0) == p
  }

  /** Three of `p` in a row, column or diagonal of the 3x3 grid. */
  predicate ThreeInARow(board: Cells, p: string)
    requires |board| == 9
  {
    || (exists r: nat :: r < 3 && RowFilled(board, r, p))
    || (exists c: nat :: c < 3 && ColumnFilled(board, c, p))
    || DiagonalFilled(board, p)
    || AntiDiagonalFilled(board, p)
  }

  /** The eight-entry table is exactly the three rows, three columns and two diagonals. */
  lemma CheckWinIffThreeInARow(board: Cells, p: string)
    requires |board| == 9
    ensures CheckWin(board, p) <==> ThreeInARow(board, p)
  {
    var W := WinningCombinations;
    if CheckWin(board, p) {
      var k :| 0 <= k < |W| && LineFilled(board, W[k], p);
      assert board[W[k][0]] == p && board[W[k][1]] == p && board[W[k][2]] == p;
      if k < 3 {
        assert RowFilled(board, k, p);
      } else if k < 6 {
        assert ColumnFilled(board, k - 3, p);
      }
    }
    if ThreeInARow(board, p) {
      if r: nat :| r < 3 && RowFilled(board, r, p) {
        assert LineFilled(board, W[r], p);
      } else if c: nat :| c < 3 && ColumnFilled(board, c, p) {
        assert LineFilled(board, W[3 + c], p);
      } else if DiagonalFilled(board, p) {
        assert LineFilled(board, W[6], p);
      } else {
        assert LineFilled(board, W[7], p);
      }
    }
  }

  // ---------------------------------------------------------------------------
  // Draw detection and the count of empty cells
  // ---------------------------------------------------------------------------

  /** The number of empty cells. */
  function EmptyCount(board: Cells): (n: nat)
    ensures n <= |board|
  {
    if board == [] then 0
    else (if board[0] == Empty then 1 else 0) + EmptyCount(board[1..])
  }

  /** `checkDraw` holds exactly when no cell is left empty. */
  lemma {:induction false} CheckDrawIffNoEmptyCell(board: Cells)
    ensures CheckDraw(board) <==> EmptyCount(board) == 0
  {
    if board != [] {
      CheckDrawIffNoEmptyCell(board[1..]);
      assert CheckDraw(board) <==> board[0] != Empty && CheckDraw(board[1..]) by {
        if board[0] != Empty && CheckDraw(board[1..]) {
          forall i | 0 <= i < |board| ensures board[i] != Empty {
            if i > 0 { assert board[i] == board[1..][i - 1]; }
          }
        }
      }
    }
  }

  /** Writing a symbol into an empty cell fills exactly one more cell. */
  lemma {:induction false} FillOneCell(board: Cells, i: nat, p: string)
    requires i < |board| && board[i] == Empty && p != Empty
    ensures EmptyCount(board[i := p]) == EmptyCount(board) - 1
  {
    if i > 0 {
      FillOneCell(board[1..], i - 1, p);
      assert board[i := p][1..] == board[1..][i - 1 := p];
    } else {
      assert board[i := p][1..] == board[1..];
    }
  }

  // ---------------------------------------------------------------------------
  // How a move ends
  // ---------------------------------------------------------------------------

  datatype Outcome = Won | Drawn | Ongoing

  /**
   * The two checks in the order the handlers run them: the win test for the
   * symbol to move first, then the draw test.
   */
  function Judge(board: Cells, p: string): Outcome
  {
    if CheckWin(board, p) then Won
    else if CheckDraw(board) then Drawn
    else Ongoing
  }

  /** A full board that contains a line of `p` is a win, never a draw. */
  lemma FullBoardWithLineIsWon(board: Cells, p: string)
    requires |board| == 9 && CheckDraw(board) && ThreeInARow(board, p)
    ensures Judge(board, p) == Won
  {
    CheckWinIffThreeInARow(board, p);
  }

  /** A draw is reported only for a full board without a line of `p`. */
  lemma DrawnMeansFullWithoutLine(board: Cells, p: string)
    requires |board| == 9 && Judge(board, p) == Drawn
    ensures EmptyCount(board) == 0 && !ThreeInARow(board, p)
  {
    CheckWinIffThreeInARow(board, p);
    CheckDrawIffNoEmptyCell(board);
  }

  // ---------------------------------------------------------------------------
  // Numeric keypad
  // ---------------------------------------------------------------------------

  /** The `keydown` table: keys laid out like a numeric keypad, 7-8-9 on the top row. */
  const KeyToIndex: map<string, nat> := map[
    "1" := 6, "2" := 7, "3" := 8,
    "4" := 3, "5" := 4, "6" := 5,
    "7" := 0, "8" := 1, "9" := 2
  ]

  /** The one-character key for digit `d`. */
  function DigitKey(d: nat): string
    requires 1 <= d <= 9
  {
    [('0' as int + d) as char]
  }

  /** Keypad geometry: digit `d` sits on row 2 - (d-1)/3 from the top, column (d-1)%3. */
  function NumpadIndex(d: nat): nat
    requires 1 <= d <= 9
  {
    3 * (2 - (d - 1) / 3) + (d - 1) % 3
  }

  /** The table is the keypad layout: its keys are exactly '1'..'9' and each goes to its keypad cell. */
  lemma KeyToIndexIsNumpadLayout()
    ensures forall d :: 1 <= d <= 9 ==> DigitKey(d) in KeyToIndex && KeyToIndex[DigitKey(d)] == NumpadIndex(d)
    ensures forall key :: key in KeyToIndex ==> exists d :: 1 <= d <= 9 && key == DigitKey(d)
  {
    forall key | key in KeyToIndex ensures exists d :: 1 <= d <= 9 && key == DigitKey(d) {
      var d := (key[0] as int) - ('0' as int);
      assert 1 <= d <= 9 && key == DigitKey(d);
    }
  }

  /** The keypad digit that sits on cell `i`. */
  function DigitAt(i: nat): (d: nat)
    requires i < 9
    ensures 1 <= d <= 9
  {
    3 * (2 - i / 3) + i % 3 + 1
  }

  /** Distinct keypad digits sit on distinct cells, and every cell 0..8 has its digit. */
  lemma NumpadIndexIsBijective()
    ensures forall d1, d2 :: 1 <= d1 <= 9 && 1 <= d2 <= 9 && d1 != d2 ==> NumpadIndex(d1) != NumpadIndex(d2)
    ensures forall i: nat :: i < 9 ==> NumpadIndex(DigitAt(i)) == i
  {
  }

  /** The table is a bijection from its nine keys onto the cells 0..8. */
  lemma KeyToIndexIsBijective()
    ensures forall key :: key in KeyToIndex ==> KeyToIndex[key] < 9
    ensures forall i: nat :: i < 9 ==> DigitKey(DigitAt(i)) in KeyToIndex && KeyToIndex[DigitKey(DigitAt(i))] == i
    ensures forall k1, k2 :: k1 in KeyToIndex && k2 in KeyToIndex && k1 != k2 ==> KeyToIndex[k1] != KeyToIndex[k2]
  {
    KeyToIndexIsNumpadLayout();
    NumpadIndexIsBijective();
    forall k1, k2 | k1 in KeyToIndex && k2 in KeyToIndex && k1 != k2 ensures KeyToIndex[k1] != KeyToIndex[k2] {
      var d1 :| 1 <= d1 <= 9 && k1 == DigitKey(d1);
      var d2 :| 1 <= d2 <= 9 && k2 == DigitKey(d2);
      assert d1 != d2;
    }
  }
}

/**
 * The earlier snapshot of the engine, the Board and Game classes of the
 * top-level tic_tac_toe.rb. It differs from lib/tic_tac_toe.rb in three
 * observable ways: Game keeps a log of every position it is asked to play,
 * `same_elements?` compares the first three elements pairwise, and
 * `check_endgame` never declares a draw.
 */
module EarlyTicTacToe {
  import opened Wrappers
  import opened Grid
  import TicTacToe

  const Circle: string := "O"
  const Cross: string := "X"

  type PlayerId = nat

  // ---------------------------------------------------------------------
  // same_elements?, three-way
  // ---------------------------------------------------------------------

  /** Ruby's `array[i]`: nil past the end. */
  function At(a: seq<string>, i: nat): (r: Option<string>)
    ensures r.Some? <==> i < |a|
    ensures r.Some? ==> r.value == a[i]
  {
    if i < |a| then Some(a[i]) else None
  }

  /**
   * `array[0] != ' ' && array[0] == array[1] && array[1] == array[2]`,
   * with Ruby's nil for missing elements: the empty array passes (nil is
   * not " " and nil equals nil), one or two elements fail, and elements
   * after the third are ignored.
   */
  function SameElements(a: seq<string>): (r: bool)
    ensures r <==> |a| == 0 || (|a| >= 3 && a[0] != Blank && a[0] == a[1] && a[1] == a[2])
  {
    At(a, 0) != Some(Blank) && At(a, 0) == At(a, 1) && At(a, 1) == At(a, 2)
  }

  /** On three-element arrays, the only ones `check_endgame` passes, both tests agree. */
  lemma SameElementsAgreeOnLines(a: seq<string>)
    requires |a| == 3
    ensures SameElements(a) == TicTacToe.SameElements(a)
  {
    if TicTacToe.SameElements(a) {
      assert a[1] == a[0] && a[2] == a[0];
    }
  }

  /**
   * On other lengths they differ: the empty array and the array that the
   * later version's tests reject (an " " after four equal elements) both
   * pass the three-way test.
   */
  lemma SameElementsDisagreeOffLines()
    ensures SameElements([]) && !TicTacToe.SameElements([])
    ensures SameElements(["a", "a", "a", "a", " ", "a"]) && !TicTacToe.SameElements(["a", "a", "a", "a", " ", "a"])
  {
    var a := ["a", "a", "a", "a", " ", "a"];
    assert a[4] != a[0];
  }

  // ---------------------------------------------------------------------
  // The end-of-game decision, without draws
  // ---------------------------------------------------------------------

  /** The first value of the first line from line `k` on that the three-way test accepts. */
  function Winner(lines: seq<seq<string>>, k: nat): Option<string>
    decreases |lines| - k
  {
    if k >= |lines| then None
    else if SameElements(lines[k]) then At(lines[k], 0)
    else Winner(lines, k + 1)
  }

  /** On lines of three cells the earlier scan finds exactly the later one's winner. */
  lemma {:induction false} WinnerAgrees(lines: seq<seq<string>>, k: nat)
    requires forall j :: 0 <= j < |lines| ==> |lines[j]| == 3
    decreases |lines| - k
    ensures Winner(lines, k) == TicTacToe.FirstWin(lines, k)
  {
    if k < |lines| {
      SameElementsAgreeOnLines(lines[k]);
      WinnerAgrees(lines, k + 1);
    }
  }

  /**
   * The earlier `check_endgame` ends the game with winner `s` exactly when
   * the later one declares `s` the winner; every other board, the full
   * ones included, leaves it running.
   */
  lemma EndsOnlyOnWin(c: Cells)
    requires WellFormed(c)
    ensures Winner(TicTacToe.AllLines(c), 0).Some? <==> TicTacToe.Outcome(c).Win?
    ensures Winner(TicTacToe.AllLines(c), 0).Some? ==>
      TicTacToe.Outcome(c) == TicTacToe.Win(Winner(TicTacToe.AllLines(c), 0).value)
  {
    WinnerAgrees(TicTacToe.AllLines(c), 0);
  }

  /** A board the later version calls a draw that the earlier one leaves running. */
  lemma NoDrawDetection(c: Cells)
    requires WellFormed(c) && TicTacToe.Outcome(c) == TicTacToe.Draw
    ensures Winner(TicTacToe.AllLines(c), 0).None?
  {
    EndsOnlyOnWin(c);
  }

  // ---------------------------------------------------------------------
  // Board
  // ---------------------------------------------------------------------

  class Board {
    /** The `@positions` hash. */
    var positions: Cells

    ghost predicate Valid()
      reads this
    {
      WellFormed(positions)
    }

    /** `initialize`: the nine labels, each mapped to " ". */
    constructor ()
      ensures Valid() && positions == Cleared()
    {
      positions := Cleared();
    }

    /** `fetch`: the cell's value, nil (None) for a label that is not a key. */
    function Fetch(position: string): (r: Option<string>)
      reads this
      requires Valid()
      ensures r.Some? <==> position in Labels
      ensures r.Some? ==> r.value == positions[position]
    {
      if position in positions then Some(positions[position]) else None
    }

    /**
     * `insert`: refuse a label that is not a key, refuse a cell whose
     * `fetch` is not " ", otherwise write the symbol into that one cell.
     */
    method Insert(position: string, symbol: string) returns (ok: bool)
      requires Valid()
      modifies this
      ensures Valid()
      ensures ok <==> position in Labels && old(positions)[position] == Blank
      ensures positions == if ok then old(positions)[position := symbol] else old(positions)
      ensures ok && symbol != Blank ==> |EmptyLabels(positions)| == |EmptyLabels(old(positions))| - 1
    {
      if position !in positions {
        return false;
      }
      if Fetch(position) != Some(Blank) {
        return false;
      }
      if symbol != Blank {
        EmptyLabelsAfterWrite(positions, position, symbol);
      }
      positions := positions[position := symbol];
      return true;
    }
  }

  // ---------------------------------------------------------------------
  // Game
  // ---------------------------------------------------------------------

  class Game {
    /** The `@players` hash: player to symbol. */
    var players: map<PlayerId, string>
    /** The `@moves` log: every position passed to `insert`, accepted or not. */
    var moves: seq<string>
    var board: Board

    ghost predicate Valid()
      reads this, board
    {
      board.Valid() &&
      |players| <= 2 &&
      forall p :: p in players ==> players[p] == Circle || players[p] == Cross
    }

    constructor ()
      ensures Valid() && fresh(board)
      ensures players == map[] && moves == [] && board.positions == Cleared()
    {
      players := map[];
      moves := [];
      board := new Board();
    }

    /**
     * `register`: refuse when two players are in; otherwise the first
     * gets "O" and the next "X" (Ruby returns the truthy symbol; `ok`
     * stands for it).
     */
    method Register(player: PlayerId) returns (ok: bool)
      requires Valid()
      modifies this
      ensures Valid() && board == old(board) && moves == old(moves)
      ensures ok <==> |old(players)| < 2
      ensures |old(players)| >= 2 ==> players == old(players)
      ensures |old(players)| == 0 ==> players == map[player := Circle]
      ensures |old(players)| == 1 ==> players == old(players)[player := Cross]
    {
      if |players| >= 2 {
        ok := false;
      } else if |players| == 0 {
        players := players[player := Circle];
        ok := true;
      } else {
        players := players[player := Cross];
        ok := true;
      }
    }

    /** `symbol`: the registered player's symbol. */
    function Symbol(player: PlayerId): (r: string)
      reads this, board
      requires Valid() && player in players
      ensures r == Circle || r == Cross
    {
      players[player]
    }

    /**
     * `insert`: log the position first, then the board's insert with the
     * player's symbol; the log grows by one even when the board refuses.
     */
    method Insert(player: PlayerId, position: string) returns (ok: bool)
      requires Valid() && player in players
      modifies this, board
      ensures Valid() && board == old(board) && players == old(players)
      ensures moves == old(moves) + [position]
      ensures ok <==> position in Labels && old(board.positions)[position] == Blank
      ensures board.positions ==
        if ok then old(board.positions)[position := players[player]] else old(board.positions)
    {
      moves := moves + [position];
      ok := board.Insert(position, Symbol(player));
    }

    /** The inner loop of the row scan: `fetch` row `row`'s cells, columns 1 to 3. */
    method ReadRow(row: nat) returns (values: seq<string>)
      requires Valid() && row < 3
      ensures values == LineOf(board.positions, row)
    {
      var c := board.positions;
      values := [];
      var column := 0;
      while column < 3
        invariant 0 <= column <= 3 && |values| == column
        invariant forall j :: 0 <= j < column ==>
          Label(Rows[row], Columns[j]) in c && values[j] == c[Label(Rows[row], Columns[j])]
      {
        var position := Label(Rows[row], Columns[column]);
        LabelInLabels(row, column);
        values := values + [board.Fetch(position).value];
        column := column + 1;
      }
      RowValues(c, row, values);
    }

    /** The inner loop of the column scan: `fetch` column `column`'s cells, rows a to c. */
    method ReadColumn(column: nat) returns (values: seq<string>)
      requires Valid() && column < 3
      ensures values == LineOf(board.positions, 3 + column)
    {
      var c := board.positions;
      values := [];
      var row := 0;
      while row < 3
        invariant 0 <= row <= 3 && |values| == row
        invariant forall i :: 0 <= i < row ==>
          Label(Rows[i], Columns[column]) in c && values[i] == c[Label(Rows[i], Columns[column])]
      {
        var position := Label(Rows[row], Columns[column]);
        LabelInLabels(row, column);
        values := values + [board.Fetch(position).value];
        row := row + 1;
      }
      ColumnValues(c, column, values);
    }

    /** The inner loop of the diagonal scan: `fetch` each position of `diagonal`. */
    method ReadDiagonal(diagonal: seq<string>) returns (values: seq<string>)
      requires Valid()
      requires forall i :: 0 <= i < |diagonal| ==> diagonal[i] in Labels
      ensures values == LineValues(board.positions, diagonal)
    {
      values := [];
      var i := 0;
      while i < |diagonal|
        invariant 0 <= i <= |diagonal| && |values| == i
        invariant forall k :: 0 <= k < i ==> values[k] == board.positions[diagonal[k]]
      {
        values := values + [board.Fetch(diagonal[i]).value];
        i := i + 1;
      }
    }

    /**
     * `check_endgame`: scan the rows, then the columns, then the two
     * diagonals, returning true at the first line the three-way test
     * accepts and declaring its first value the winner; otherwise false,
     * however full the board. The board is not modified.
     */
    method CheckEndgame() returns (ended: bool, declared: Option<string>)
      requires Valid()
      ensures declared == Winner(TicTacToe.AllLines(board.positions), 0)
      ensures ended <==> declared.Some?
    {
      ghost var lines := TicTacToe.AllLines(board.positions);
      // rows
      var row := 0;
      while row < 3
        invariant 0 <= row <= 3
        invariant Winner(lines, 0) == Winner(lines, row)
      {
        var values := ReadRow(row);
        if SameElements(values) {
          return true, Some(values[0]);
        }
        row := row + 1;
      }
      // columns
      var column := 0;
      while column < 3
        invariant 0 <= column <= 3
        invariant Winner(lines, 0) == Winner(lines, 3 + column)
      {
        var values := ReadColumn(column);
        if SameElements(values) {
          return true, Some(values[0]);
        }
        column := column + 1;
      }
      // diagonals
      var diagonals := [["a1", "b2", "c3"], ["a3", "b2", "c1"]];
      var d := 0;
      while d < |diagonals|
        invariant 0 <= d <= |diagonals|
        invariant Winner(lines, 0) == Winner(lines, 6 + d)
      {
        assert diagonals[d] == LineLabels(6 + d);
        LineLabelsAreLabels(6 + d);
        var values := ReadDiagonal(diagonals[d]);
        if SameElements(values) {
          return true, Some(values[0]);
        }
        d := d + 1;
      }
      return false, None;
    }
  }
}

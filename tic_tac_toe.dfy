/**
 * The game-state engine of lib/tic_tac_toe.rb: a Board holding the nine
 * cells, and a Game that registers two players, forwards their moves to the
 * board and decides whether the game has ended.
 */
module TicTacToe {
  import opened Wrappers
  import opened Grid

  /** The symbols of the first and the second registered player. */
  const Circle: string := "O"
  const Cross: string := "X"

  /** A player, by identity only (the Ruby objects are hash keys compared by identity). */
  type PlayerId = nat

  /** What `check_endgame` finds: no end yet, a winning symbol, or a draw. */
  datatype Status = InProgress | Win(symbol: string) | Draw

  // ---------------------------------------------------------------------
  // same_elements?
  // ---------------------------------------------------------------------

  /** Ruby's `Array#uniq`: the distinct elements, each at its first occurrence. */
  function Uniq(a: seq<string>): seq<string>
  {
    if a == [] then []
    else
      var u := Uniq(a[..|a| - 1]);
      if a[|a| - 1] in u then u else u + [a[|a| - 1]]
  }

  /** `uniq` keeps every element and repeats none. */
  lemma {:induction false} UniqProperties(a: seq<string>)
    ensures forall x :: x in Uniq(a) <==> x in a
    ensures Distinct(Uniq(a))
  {
    if a != [] {
      var init := a[..|a| - 1];
      UniqProperties(init);
      assert a == init + [a[|a| - 1]];
    }
  }

  /** `uniq.length == 1` holds exactly when the array is non-empty and constant. */
  lemma UniqSingleton(a: seq<string>)
    ensures |Uniq(a)| == 1 <==> |a| > 0 && forall i :: 0 <= i < |a| ==> a[i] == a[0]
  {
    UniqProperties(a);
    var u := Uniq(a);
    if |u| == 1 {
      assert a[0] in u;
      forall i | 0 <= i < |a| ensures a[i] == a[0] { assert a[i] in u; }
    }
    if |a| > 0 && forall i :: 0 <= i < |a| ==> a[i] == a[0] {
      assert a[0] in u;
    }
  }

  /**
   * `same_elements?`: `array[0] != ' ' && array.uniq.length == 1`. For the
   * empty array `array[0]` is nil, which differs from " ", and `uniq` is
   * empty, so the result is false.
   */
  function SameElements(a: seq<string>): (r: bool)
    ensures r <==> |a| > 0 && a[0] != Blank && forall i :: 0 <= i < |a| ==> a[i] == a[0]
  {
    UniqSingleton(a);
    (|a| == 0 || a[0] != Blank) && |Uniq(a)| == 1
  }

  // ---------------------------------------------------------------------
  // The end-of-game decision as a function of the cells
  // ---------------------------------------------------------------------

  /** The eight lines' values, in the order `check_endgame` scans them. */
  function AllLines(c: Cells): (lines: seq<seq<string>>)
    requires WellFormed(c)
    ensures |lines| == 8
    ensures forall k :: 0 <= k < 8 ==> lines[k] == LineOf(c, k)
  {
    seq(8, k requires 0 <= k < 8 => LineOf(c, k))
  }

  /** Line `j` is the first line at or after line `k` that `same_elements?` accepts. */
  predicate FirstWonAt(lines: seq<seq<string>>, k: nat, j: int)
  {
    k <= j < |lines| && SameElements(lines[j]) && forall i :: k <= i < j ==> !SameElements(lines[i])
  }

  /** The first value of the first accepted line from line `k` on. */
  function FirstWin(lines: seq<seq<string>>, k: nat): Option<string>
    decreases |lines| - k
  {
    if k >= |lines| then None
    else if SameElements(lines[k]) then Some(lines[k][0])
    else FirstWin(lines, k + 1)
  }

  /** What `check_endgame` decides: the first complete line wins, else a full board is a draw. */
  function Outcome(c: Cells): Status
    requires WellFormed(c)
  {
    match FirstWin(AllLines(c), 0)
    case Some(s) => Win(s)
    case None => if EmptyLabels(c) == [] then Draw else InProgress
  }

  /** The scan from line `k` finds a winner exactly at the first accepted line. */
  lemma {:induction false} FirstWinScan(lines: seq<seq<string>>, k: nat)
    decreases |lines| - k
    ensures FirstWin(lines, k).None? <==> forall j :: k <= j < |lines| ==> !SameElements(lines[j])
    ensures forall j :: FirstWonAt(lines, k, j) ==> FirstWin(lines, k) == Some(lines[j][0])
    ensures FirstWin(lines, k).Some? ==>
      exists j :: FirstWonAt(lines, k, j) && FirstWin(lines, k) == Some(lines[j][0])
  {
    if k < |lines| {
      FirstWinScan(lines, k + 1);
      if SameElements(lines[k]) {
        assert FirstWonAt(lines, k, k);
        forall j | FirstWonAt(lines, k, j) ensures j == k { }
      } else {
        forall j | FirstWonAt(lines, k, j) ensures FirstWonAt(lines, k + 1, j) { }
        if FirstWin(lines, k).Some? {
          var j :| FirstWonAt(lines, k + 1, j) && FirstWin(lines, k + 1) == Some(lines[j][0]);
          assert FirstWonAt(lines, k, j);
        }
      }
    }
  }

  /**
   * `check_endgame` declares `s` the winner exactly when the first complete
   * line in the order rows, columns, diagonals has `s` in its cells.
   */
  lemma OutcomeWin(c: Cells, s: string)
    requires WellFormed(c)
    ensures Outcome(c) == Win(s) <==> exists j :: FirstWonAt(AllLines(c), 0, j) && LineOf(c, j)[0] == s
  {
    FirstWinScan(AllLines(c), 0);
  }

  /**
   * A declared winner is never the empty value, and it fills every cell of
   * the first complete line `j` of the scan.
   */
  lemma WinnerFillsLine(c: Cells, s: string) returns (j: nat)
    requires WellFormed(c) && Outcome(c) == Win(s)
    ensures s != Blank
    ensures FirstWonAt(AllLines(c), 0, j)
    ensures forall i :: 0 <= i < 3 ==> LineLabels(j)[i] in c && c[LineLabels(j)[i]] == s
  {
    var lines := AllLines(c);
    FirstWinScan(lines, 0);
    j :| FirstWonAt(lines, 0, j) && FirstWin(lines, 0) == Some(lines[j][0]);
    LineLabelsAreLabels(j);
  }

  /** A draw is declared exactly when no line is complete and no cell is " ". */
  lemma OutcomeDraw(c: Cells)
    requires WellFormed(c)
    ensures Outcome(c) == Draw <==>
      (forall j :: 0 <= j < 8 ==> !SameElements(LineOf(c, j))) && (forall l :: l in Labels ==> c[l] != Blank)
  {
    FirstWinScan(AllLines(c), 0);
    FullIffNoEmptyLabels(c);
  }

  /** The game goes on exactly when no line is complete and some cell is " ". */
  lemma OutcomeInProgress(c: Cells)
    requires WellFormed(c)
    ensures Outcome(c) == InProgress <==>
      (forall j :: 0 <= j < 8 ==> !SameElements(LineOf(c, j))) && (exists l :: l in Labels && c[l] == Blank)
  {
    FirstWinScan(AllLines(c), 0);
    FullIffNoEmptyLabels(c);
  }

  /** When line `j` is the first complete one, its first value is declared the winner. */
  lemma OutcomeAtFirstLine(c: Cells, j: nat)
    requires WellFormed(c) && j < 8
    requires SameElements(LineOf(c, j))
    requires forall k :: 0 <= k < j ==> !SameElements(LineOf(c, k))
    ensures Outcome(c) == Win(LineOf(c, j)[0])
  {
    var lines := AllLines(c);
    FirstWinScan(lines, 0);
    assert FirstWonAt(lines, 0, j);
  }

  /** With no line complete, the decision rests on whether some position is empty. */
  lemma OutcomeNoLine(c: Cells)
    requires WellFormed(c)
    requires forall k :: 0 <= k < 8 ==> !SameElements(LineOf(c, k))
    ensures Outcome(c) == if EmptyLabels(c) == [] then Draw else InProgress
  {
    FirstWinScan(AllLines(c), 0);
  }

  /**
   * Rows come before columns: once row a is complete its value is declared,
   * whatever the columns and diagonals hold, and no later line is the
   * first complete one.
   */
  lemma RowsScannedFirst(c: Cells)
    requires WellFormed(c) && SameElements(LineOf(c, 0))
    ensures Outcome(c) == Win(c["a1"])
    ensures forall j :: FirstWonAt(AllLines(c), 0, j) ==> j == 0
  {
    assert LineLabels(0)[0] == "a1";
  }

  // ---------------------------------------------------------------------
  // Board
  // ---------------------------------------------------------------------

  class Board {
    /** The `@positions` hash. */
    var positions: Cells

    ghost predicate Valid()
      reads this
    {
      WellFormed(positions)
    }

    /** `Board.new` calls `reset_board`. */
    constructor ()
      ensures Valid() && positions == Cleared()
    {
      positions := Cleared();
    }

    /** `reset_board`: every cell back to " ". */
    method ResetBoard()
      modifies this
      ensures Valid() && positions == Cleared()
      ensures EmptyLabels(positions) == Labels
    {
      positions := Cleared();
      ClearedAllEmpty();
    }

    /** `fetch`: the cell's value, nil (None) for a label that is not a key. */
    function Fetch(position: string): (r: Option<string>)
      reads this
      requires Valid()
      ensures r.Some? <==> position in Labels
      ensures r.Some? ==> r.value == positions[position]
    {
      if position in positions then Some(positions[position]) else None
    }

    /** `empty_positions`: walk the hash in order and push each key whose value is " ". */
    method EmptyPositions() returns (empty: seq<string>)
      requires Valid()
      ensures empty == EmptyLabels(positions)
      ensures forall l :: l in empty <==> l in Labels && positions[l] == Blank
    {
      empty := [];
      var i := 0;
      while i < |Labels|
        invariant 0 <= i <= |Labels|
        invariant empty == BlankAmong(Labels[..i], positions)
      {
        var key := Labels[i];
        var value := positions[key];
        if value == Blank {
          empty := empty + [key];
        }
        assert Labels[..i + 1][..i] == Labels[..i];
        i := i + 1;
      }
      assert Labels[..i] == Labels;
      forall l ensures l in empty <==> l in Labels && positions[l] == Blank {
        EmptyLabelsMembers(positions, l);
      }
    }

    /**
     * `insert`: refuse a label that is not a key, refuse a cell that is not
     * listed as empty, otherwise write the symbol (any string) into that
     * one cell.
     */
    method Insert(position: string, symbol: string) returns (ok: bool)
      requires Valid()
      modifies this
      ensures Valid()
      ensures ok <==> position in Labels && old(positions)[position] == Blank
      ensures positions == if ok then old(positions)[position := symbol] else old(positions)
      ensures ok && symbol != Blank ==> |EmptyLabels(positions)| == |EmptyLabels(old(positions))| - 1
      ensures ok && symbol == Blank ==> positions == old(positions)
    {
      if position !in positions {
        return false;
      }
      var empty := EmptyPositions();
      if position !in empty {
        return false;
      }
      if symbol != Blank {
        EmptyLabelsAfterWrite(positions, position, symbol);
      }
      positions := positions[position := symbol];
      return true;
    }
  }

  // ---------------------------------------------------------------------
  // Game
  // ---------------------------------------------------------------------

  class Game {
    /** The `@players` hash: player to symbol. */
    var players: map<PlayerId, string>
    var board: Board

    ghost predicate Valid()
      reads this, board
    {
      board.Valid() &&
      |players| <= 2 &&
      forall p :: p in players ==> players[p] == Circle || players[p] == Cross
    }

    constructor ()
      ensures Valid() && fresh(board)
      ensures players == map[] && board.positions == Cleared()
    {
      players := map[];
      board := new Board();
    }

    /**
     * `register`: refuse when two players are in; otherwise the first
     * gets "O" and the next "X". (Ruby returns the assigned symbol, which
     * is truthy; `ok` stands for it.) Registering the player who is
     * already the only entry reassigns that player to "X".
     */
    method Register(player: PlayerId) returns (ok: bool)
      requires Valid()
      modifies this
      ensures Valid() && board == old(board)
      ensures ok <==> |old(players)| < 2
      ensures |old(players)| >= 2 ==> players == old(players)
      ensures |old(players)| == 0 ==> players == map[player := Circle]
      ensures |old(players)| == 1 ==> players == old(players)[player := Cross]
    {
      if |players| >= 2 {
        ok := false;
      } else if |players| == 0 {
        players := players[player := Circle];
        ok := true;
      } else {
        players := players[player := Cross];
        ok := true;
      }
    }

    /** `symbol`: the registered player's symbol. */
    function Symbol(player: PlayerId): (r: string)
      reads this, board
      requires Valid() && player in players
      ensures r == Circle || r == Cross
    {
      players[player]
    }

    /** `insert`: the board's insert with the player's symbol. */
    method Insert(player: PlayerId, position: string) returns (ok: bool)
      requires Valid() && player in players
      modifies board
      ensures Valid()
      ensures ok <==> position in Labels && old(board.positions)[position] == Blank
      ensures board.positions ==
        if ok then old(board.positions)[position := players[player]] else old(board.positions)
      ensures ok ==> |EmptyLabels(board.positions)| == |EmptyLabels(old(board.positions))| - 1
    {
      ok := board.Insert(position, Symbol(player));
    }

    /** `empty_positions`: the board's. */
    method EmptyPositions() returns (empty: seq<string>)
      requires Valid()
      ensures empty == EmptyLabels(board.positions)
      ensures forall l :: l in empty <==> l in Labels && board.positions[l] == Blank
    {
      empty := board.EmptyPositions();
    }

    /** `reset`: clears the board; the players keep their symbols. */
    method Reset()
      requires Valid()
      modifies board
      ensures Valid() && players == old(players)
      ensures board.positions == Cleared() && EmptyLabels(board.positions) == Labels
    {
      board.ResetBoard();
    }

    /** The inner loop of the row scan: `fetch` row `row`'s cells, columns 1 to 3. */
    method ReadRow(row: nat) returns (values: seq<string>)
      requires Valid() && row < 3
      ensures values == LineOf(board.positions, row)
    {
      var c := board.positions;
      values := [];
      var column := 0;
      while column < 3
        invariant 0 <= column <= 3 && |values| == column
        invariant forall j :: 0 <= j < column ==>
          Label(Rows[row], Columns[j]) in c && values[j] == c[Label(Rows[row], Columns[j])]
      {
        var position := Label(Rows[row], Columns[column]);
        LabelInLabels(row, column);
        values := values + [board.Fetch(position).value];
        column := column + 1;
      }
      RowValues(c, row, values);
    }

    /** The inner loop of the column scan: `fetch` column `column`'s cells, rows a to c. */
    method ReadColumn(column: nat) returns (values: seq<string>)
      requires Valid() && column < 3
      ensures values == LineOf(board.positions, 3 + column)
    {
      var c := board.positions;
      values := [];
      var row := 0;
      while row < 3
        invariant 0 <= row <= 3 && |values| == row
        invariant forall i :: 0 <= i < row ==>
          Label(Rows[i], Columns[column]) in c && values[i] == c[Label(Rows[i], Columns[column])]
      {
        var position := Label(Rows[row], Columns[column]);
        LabelInLabels(row, column);
        values := values + [board.Fetch(position).value];
        row := row + 1;
      }
      ColumnValues(c, column, values);
    }

    /** The inner loop of the diagonal scan: `fetch` each position of `diagonal`. */
    method ReadDiagonal(diagonal: seq<string>) returns (values: seq<string>)
      requires Valid()
      requires forall i :: 0 <= i < |diagonal| ==> diagonal[i] in Labels
      ensures values == LineValues(board.positions, diagonal)
    {
      values := [];
      var i := 0;
      while i < |diagonal|
        invariant 0 <= i <= |diagonal| && |values| == i
        invariant forall k :: 0 <= k < i ==> values[k] == board.positions[diagonal[k]]
      {
        values := values + [board.Fetch(diagonal[i]).value];
        i := i + 1;
      }
    }

    /**
     * `check_endgame`: scan the rows, then the columns, then the two
     * diagonals, returning true at the first line `same_elements?` accepts
     * and declaring its first value the winner; otherwise a draw is
     * declared, and true returned, when no position is empty. `declared`
     * records what is declared (a winner's symbol, a draw, or nothing when
     * it is InProgress). The board is not modified.
     */
    method CheckEndgame() returns (ended: bool, declared: Status)
      requires Valid()
      ensures declared == Outcome(board.positions)
      ensures ended <==> !declared.InProgress?
    {
      ghost var lines := AllLines(board.positions);
      // rows
      var row := 0;
      while row < 3
        invariant 0 <= row <= 3
        invariant FirstWin(lines, 0) == FirstWin(lines, row)
      {
        var values := ReadRow(row);
        if SameElements(values) {
          return true, Win(values[0]);
        }
        row := row + 1;
      }
      // columns
      var column := 0;
      while column < 3
        invariant 0 <= column <= 3
        invariant FirstWin(lines, 0) == FirstWin(lines, 3 + column)
      {
        var values := ReadColumn(column);
        if SameElements(values) {
          return true, Win(values[0]);
        }
        column := column + 1;
      }
      // diagonals
      var diagonals := [["a1", "b2", "c3"], ["a3", "b2", "c1"]];
      var d := 0;
      while d < |diagonals|
        invariant 0 <= d <= |diagonals|
        invariant FirstWin(lines, 0) == FirstWin(lines, 6 + d)
      {
        assert diagonals[d] == LineLabels(6 + d);
        LineLabelsAreLabels(6 + d);
        var values := ReadDiagonal(diagonals[d]);
        if SameElements(values) {
          return true, Win(values[0]);
        }
        d := d + 1;
      }
      // draw
      var empty := EmptyPositions();
      if empty == [] {
        return true, Draw;
      }
      return false, InProgress;
    }
  }
}

/**
 * The boards of the RSpec examples for `check_endgame`, and the boards of
 * a short game, with the outcome `check_endgame` reaches on each.
 */
module Scenarios {
  import opened Wrappers
  import opened Grid
  import opened TicTacToe
  import EarlyTicTacToe

  /** A board given row by row, a1 to c3. */
  function BoardOf(v: seq<string>): (c: Cells)
    requires |v| == 9
    ensures WellFormed(c)
    ensures forall i :: 0 <= i < 9 ==> c[Labels[i]] == v[i]
  {
    map["a1" := v[0], "a2" := v[1], "a3" := v[2],
        "b1" := v[3], "b2" := v[4], "b3" := v[5],
        "c1" := v[6], "c2" := v[7], "c3" := v[8]]
  }

  /** The eight lines of a board given row by row, in scan order. */
  function LinesOf(v: seq<string>): seq<seq<string>>
    requires |v| == 9
  {
    [[v[0], v[1], v[2]], [v[3], v[4], v[5]], [v[6], v[7], v[8]],
     [v[0], v[3], v[6]], [v[1], v[4], v[7]], [v[2], v[5], v[8]],
     [v[0], v[4], v[8]], [v[2], v[4], v[6]]]
  }

  /** The scan of `check_endgame` reads exactly those lines off the board. */
  lemma BoardOfLines(v: seq<string>)
    requires |v| == 9
    ensures forall k :: 0 <= k < 8 ==> LineOf(BoardOf(v), k) == LinesOf(v)[k]
  {
    var c := BoardOf(v);
    forall k | 0 <= k < 8 ensures LineOf(c, k) == LineValues(c, LineLabels(k)) {
      LineLabelsAreLabels(k);
    }
    assert LineLabels(0) == ["a1", "a2", "a3"];
    assert LineLabels(1) == ["b1", "b2", "b3"];
    assert LineLabels(2) == ["c1", "c2", "c3"];
    assert LineLabels(3) == ["a1", "b1", "c1"];
    assert LineLabels(4) == ["a2", "b2", "c2"];
    assert LineLabels(5) == ["a3", "b3", "c3"];
  }

  /** Three cells that are not one non-" " value repeated. */
  predicate Open(a: seq<string>)
    requires |a| == 3
  {
    a[0] == Blank || a[1] != a[0] || a[2] != a[0]
  }

  /** None of lines 0 to `j` - 1 is complete. */
  predicate NoneCompleteBefore(v: seq<string>, j: nat)
    requires |v| == 9 && j <= 8
  {
    j == 0 || (Open(LinesOf(v)[j - 1]) && NoneCompleteBefore(v, j - 1))
  }

  lemma {:induction false} NoneCompleteBeforeAll(v: seq<string>, j: nat)
    requires |v| == 9 && j <= 8 && NoneCompleteBefore(v, j)
    ensures forall k :: 0 <= k < j ==> !SameElements(LinesOf(v)[k])
  {
    if j > 0 {
      NoneCompleteBeforeAll(v, j - 1);
      var a := LinesOf(v)[j - 1];
      assert a[0] == Blank || a[1] != a[0] || a[2] != a[0];
    }
  }

  /** Line `j`, and no earlier one, is complete: its value wins. */
  lemma WinAt(v: seq<string>, j: nat)
    requires |v| == 9 && j < 8
    requires !Open(LinesOf(v)[j]) && NoneCompleteBefore(v, j)
    ensures Outcome(BoardOf(v)) == Win(LinesOf(v)[j][0])
  {
    var a := LinesOf(v)[j];
    assert forall i :: 0 <= i < |a| ==> a[i] == a[0];
    BoardOfLines(v);
    NoneCompleteBeforeAll(v, j);
    OutcomeAtFirstLine(BoardOf(v), j);
  }

  /** No line is complete and cell `i` is " ": the game goes on. */
  lemma StillInProgress(v: seq<string>, i: nat)
    requires |v| == 9 && i < 9 && v[i] == Blank
    requires NoneCompleteBefore(v, 8)
    ensures Outcome(BoardOf(v)) == InProgress
  {
    BoardOfLines(v);
    NoneCompleteBeforeAll(v, 8);
    assert BoardOf(v)[Labels[i]] == Blank;
    OutcomeInProgress(BoardOf(v));
  }

  /** No line is complete and no cell is " ": a draw. */
  lemma FullNoLine(v: seq<string>)
    requires |v| == 9
    requires forall i :: 0 <= i < 9 ==> v[i] != Blank
    requires NoneCompleteBefore(v, 8)
    ensures Outcome(BoardOf(v)) == Draw
  {
    var c := BoardOf(v);
    BoardOfLines(v);
    NoneCompleteBeforeAll(v, 8);
    forall l | l in Labels ensures c[l] != Blank {
      var i := IndexOf(Labels, l);
    }
    OutcomeDraw(c);
  }

  /** RSpec "not finished". */
  lemma NotFinished()
    ensures Outcome(BoardOf([" ", " ", "O", " ", "O", " ", "X", " ", "X"])) == InProgress
  {
    StillInProgress([" ", " ", "O", " ", "O", " ", "X", " ", "X"], 0);
  }

  /** RSpec "row" win: row a holds X. */
  lemma RowWin()
    ensures Outcome(BoardOf(["X", "X", "X", "O", "O", " ", " ", " ", " "])) == Win("X")
  {
    WinAt(["X", "X", "X", "O", "O", " ", " ", " ", " "], 0);
  }

  /** RSpec "column" win: column 3 holds @. */
  lemma ColumnWin()
    ensures Outcome(BoardOf(["X", "X", "@", " ", "@", "@", "X", " ", "@"])) == Win("@")
  {
    WinAt(["X", "X", "@", " ", "@", "@", "X", " ", "@"], 5);
  }

  /** RSpec "diagonal" win: the diagonal a3-b2-c1 holds &. */
  lemma DiagonalWin()
    ensures Outcome(BoardOf(["&", " ", "&", "$", "&", " ", "&", "$", "$"])) == Win("&")
  {
    WinAt(["&", " ", "&", "$", "&", " ", "&", "$", "$"], 7);
  }

  /** The RSpec draw board: a full board on which the earlier version finds nothing. */
  lemma FullBoardDraw()
    ensures Outcome(BoardOf(["&", "$", "&", "$", "&", "&", "$", "&", "$"])) == Draw
    ensures EarlyTicTacToe.Winner(AllLines(BoardOf(["&", "$", "&", "$", "&", "&", "$", "&", "$"])), 0) == None
  {
    FullNoLine(["&", "$", "&", "$", "&", "&", "$", "&", "$"]);
    EarlyTicTacToe.NoDrawDetection(BoardOf(["&", "$", "&", "$", "&", "&", "$", "&", "$"]));
  }

  /** A full board of X and O with no line: a draw. */
  lemma CrossCircleDraw()
    ensures Outcome(BoardOf(["X", "O", "X", "X", "O", "O", "O", "X", "X"])) == Draw
  {
    FullNoLine(["X", "O", "X", "X", "O", "O", "O", "X", "X"]);
  }

  /**
   * The game a1 by "O", b2 by "X", a2 by "O", b1 by "X", a3 by "O": the
   * board after each move, and what `check_endgame` makes of it (in
   * progress after the first four, "O" wins on the fifth).
   */
  lemma RowAMove1()
    ensures Outcome(BoardOf(["O", " ", " ", " ", " ", " ", " ", " ", " "])) == InProgress
  {
    StillInProgress(["O", " ", " ", " ", " ", " ", " ", " ", " "], 8);
  }

  lemma RowAMove2()
    ensures Outcome(BoardOf(["O", " ", " ", " ", "X", " ", " ", " ", " "])) == InProgress
  {
    StillInProgress(["O", " ", " ", " ", "X", " ", " ", " ", " "], 8);
  }

  lemma RowAMove3()
    ensures Outcome(BoardOf(["O", "O", " ", " ", "X", " ", " ", " ", " "])) == InProgress
  {
    StillInProgress(["O", "O", " ", " ", "X", " ", " ", " ", " "], 8);
  }

  lemma RowAMove4()
    ensures Outcome(BoardOf(["O", "O", " ", "X", "X", " ", " ", " ", " "])) == InProgress
  {
    StillInProgress(["O", "O", " ", "X", "X", " ", " ", " ", " "], 8);
  }

  lemma RowAMove5()
    ensures Outcome(BoardOf(["O", "O", "O", "X", "X", " ", " ", " ", " "])) == Win(Circle)
  {
    WinAt(["O", "O", "O", "X", "X", " ", " ", " ", " "], 0);
  }
}

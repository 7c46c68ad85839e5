# Tic-tac-toe game engine, modelled in Dafny

This project models the game-state engine of a small Ruby tic-tac-toe:

- the `Board`, a hash from the nine labels `a1`..`c3` (row letter, column
  digit) to a cell string, where `" "` means empty;
- the `Game`. It registers at most two players (`"O"` for the first, `"X"`
  for the second) and forwards a player's move to the board with that
  player's symbol. Its `check_endgame` scans the three rows, then the three
  columns, then the two diagonals. It declares the first complete line's
  value the winner, and otherwise declares a draw when no cell is empty.

The model covers two versions of the engine:

- `TicTacToe` (`tic_tac_toe.dfy`) is the current one, `lib/tic_tac_toe.rb`.
- `EarlyTicTacToe` (`early_tic_tac_toe.dfy`) is the earlier `Board` and
  `Game` of the top-level `tic_tac_toe.rb`. Its `Game` keeps a log of every
  position it is asked to play. Its `same_elements?` compares the first
  three elements pairwise. Its `check_endgame` never declares a draw.

The other modules:

- `Grid` (`grid.dfy`) holds what both versions share: the labels, the eight
  lines and the list of empty labels.
- `Wrappers` (`wrappers.dfy`) holds `Option`, which stands for Ruby's `nil`.
- `Scenarios` (`scenarios.dfy`) states the outcome on the boards of the
  RSpec examples and on the boards of a short game.

Cells hold any string, not just `"O"` and `"X"`. The tests write `"P"`,
`"+"`, `"&"`, `"$"`, `"@"` and `" "`, and `insert` does not check the
symbol. The boards and games are Dafny classes whose methods update their
fields, as the Ruby objects do. Each method is tied to a pure function of
the cells:

- the line scan to `Outcome` (current version) or `Winner` (earlier
  version);
- the list of empty positions to `EmptyLabels`.

The properties are proved about those functions.

## Model

| member | source | states |
|---|---|---|
| Grid.Cleared | lib/tic_tac_toe.rb:17-29 | The reset hash has exactly the nine labels as keys, each holding " ". |
| Grid.EmptyLabelsMembers | lib/tic_tac_toe.rb:48-54 | A label is listed as empty exactly when it is one of the nine and its cell is " ". |
| Grid.EmptyLabelsOrdered | lib/tic_tac_toe.rb:48-54 | The empty labels come in a1, a2, ..., c3 order, each at most once. |
| Grid.EmptyLabelsAfterWrite | lib/tic_tac_toe.rb:36-41 | Writing a non-" " symbol into an empty cell removes exactly that label from the empty list, which becomes one shorter. |
| Grid.ClearedAllEmpty | lib/tic_tac_toe.rb:17-29 | After a reset all nine labels are listed as empty, in order. |
| Grid.FullIffNoEmptyLabels | lib/tic_tac_toe.rb:137-141 | The empty list is empty exactly when no cell holds " ". |
| TicTacToe.UniqProperties | lib/tic_tac_toe.rb:147 | `uniq` keeps every element of the array and repeats none. |
| TicTacToe.UniqSingleton | lib/tic_tac_toe.rb:147 | `uniq.length == 1` holds exactly when the array is non-empty and all its elements are equal. |
| TicTacToe.SameElements | lib/tic_tac_toe.rb:146-148 | For an array of any length, true exactly when it is non-empty, its first element is not " ", and every element equals the first. The empty array gives false. |
| TicTacToe.FirstWinScan | lib/tic_tac_toe.rb:94-135 | The scan finds no winner exactly when no line is accepted. Otherwise it returns the first value of the first accepted line after line k. |
| TicTacToe.OutcomeWin | lib/tic_tac_toe.rb:94-135 | `s` is declared the winner exactly when the first complete line, in rows-columns-diagonals order, starts with `s`. |
| TicTacToe.WinnerFillsLine | lib/tic_tac_toe.rb:94-135 | A declared winner is never " ", and it fills every cell of the first complete line. |
| TicTacToe.OutcomeDraw | lib/tic_tac_toe.rb:94-141 | A draw is declared exactly when no line is complete and no cell holds " ". |
| TicTacToe.OutcomeInProgress | lib/tic_tac_toe.rb:94-143 | The game goes on exactly when no line is complete and some cell holds " ". |
| TicTacToe.OutcomeAtFirstLine | lib/tic_tac_toe.rb:94-135 | When line j is complete and no earlier line is, line j's first value wins. |
| TicTacToe.OutcomeNoLine | lib/tic_tac_toe.rb:137-143 | With no line complete, the result is a draw when the empty list is empty, and in progress otherwise. |
| TicTacToe.RowsScannedFirst | lib/tic_tac_toe.rb:95-106 | When row a is complete its value wins, whatever the columns and diagonals hold, and no later line is the first complete one. |
| TicTacToe.Board.constructor | lib/tic_tac_toe.rb:13-15 | A new board has the nine labels, all " ". |
| TicTacToe.Board.ResetBoard | lib/tic_tac_toe.rb:17-29 | Every cell is set back to " ", and all nine labels are listed as empty. |
| TicTacToe.Board.Fetch | lib/tic_tac_toe.rb:44-46 | Returns the cell's value for one of the nine labels, and nil (None) for any other string. |
| TicTacToe.Board.EmptyPositions | lib/tic_tac_toe.rb:48-54 | The loop returns `EmptyLabels`: exactly the labels whose cell is " ", in hash order. |
| TicTacToe.Board.Insert | lib/tic_tac_toe.rb:31-42 | Accepts exactly a known label whose cell is " ". An accepted move writes the symbol into that one cell. A rejected move changes nothing. A non-" " symbol shortens the empty list by one. |
| TicTacToe.Game.constructor | lib/tic_tac_toe.rb:70-73 | A new game has no players and a fresh, cleared board. |
| TicTacToe.Game.Register | lib/tic_tac_toe.rb:75-84 | Refuses when two players are in, leaving the players unchanged. Otherwise the first player gets "O" and the second gets "X". There are never more than two entries, and the board is untouched. |
| TicTacToe.Game.Symbol | lib/tic_tac_toe.rb:86-88 | A registered player's symbol is "O" or "X". |
| TicTacToe.Game.Insert | lib/tic_tac_toe.rb:90-92 | Behaves as the board's insert with the player's symbol, and an accepted move shortens the empty list by one. |
| TicTacToe.Game.EmptyPositions | lib/tic_tac_toe.rb:150-152 | The board's empty positions. |
| TicTacToe.Game.Reset | lib/tic_tac_toe.rb:154-156 | Clears the board and keeps every player's symbol. |
| TicTacToe.Game.ReadRow | lib/tic_tac_toe.rb:97-101 | The values fetched along row `row`, columns 1 to 3, are that row's line. |
| TicTacToe.Game.ReadColumn | lib/tic_tac_toe.rb:110-114 | The values fetched down column `column`, rows a to c, are that column's line. |
| TicTacToe.Game.ReadDiagonal | lib/tic_tac_toe.rb:127-130 | The values fetched along a diagonal's labels are its cells' values, in order. |
| TicTacToe.Game.CheckEndgame | lib/tic_tac_toe.rb:94-144 | The loops declare exactly `Outcome` of the cells, and return true exactly when that is a win or a draw. The board is not modified. |
| EarlyTicTacToe.At | tic_tac_toe.rb:139 | Ruby's array index: the element when the index is in range, nil otherwise. |
| EarlyTicTacToe.SameElements | tic_tac_toe.rb:138-140 | The three-way test holds exactly for the empty array, or for an array with at least three elements whose first three are equal and not " ". |
| EarlyTicTacToe.SameElementsAgreeOnLines | tic_tac_toe.rb:138-140 | On three-element arrays the three-way test and the `uniq` test agree. |
| EarlyTicTacToe.SameElementsDisagreeOffLines | tic_tac_toe.rb:138-140 | The two tests differ on other lengths: `[]` and `["a","a","a","a"," ","a"]` pass the three-way test and fail the `uniq` one. |
| EarlyTicTacToe.WinnerAgrees | tic_tac_toe.rb:84-127 | On lines of three cells the earlier scan finds exactly the later scan's winner. |
| EarlyTicTacToe.EndsOnlyOnWin | tic_tac_toe.rb:84-127 | The earlier `check_endgame` ends the game exactly when the later one declares a winner, and with the same winner. |
| EarlyTicTacToe.NoDrawDetection | tic_tac_toe.rb:125-126 | A board the later version calls a draw has no winner in the earlier one. |
| EarlyTicTacToe.Board.constructor | tic_tac_toe.rb:13-25 | A new board has the nine labels, all " ". |
| EarlyTicTacToe.Board.Fetch | tic_tac_toe.rb:41-43 | Returns the cell's value for one of the nine labels, and nil (None) otherwise. |
| EarlyTicTacToe.Board.Insert | tic_tac_toe.rb:27-39 | Refuses a label that is not a key and a cell whose `fetch` is not " ", changing nothing. Otherwise it writes the symbol into that one cell. |
| EarlyTicTacToe.Game.constructor | tic_tac_toe.rb:58-62 | A new game has no players, an empty move log and a fresh, cleared board. |
| EarlyTicTacToe.Game.Register | tic_tac_toe.rb:64-73 | The same rule as the later version ("O" first, "X" second, a third refused), leaving the move log and the board untouched. |
| EarlyTicTacToe.Game.Symbol | tic_tac_toe.rb:75-77 | A registered player's symbol is "O" or "X". |
| EarlyTicTacToe.Game.Insert | tic_tac_toe.rb:79-82 | Appends the position to the move log, even when the board then refuses the move, and otherwise behaves as the board's insert with the player's symbol. |
| EarlyTicTacToe.Game.ReadRow | tic_tac_toe.rb:87-91 | The values fetched along row `row` are that row's line. |
| EarlyTicTacToe.Game.ReadColumn | tic_tac_toe.rb:100-104 | The values fetched down column `column` are that column's line. |
| EarlyTicTacToe.Game.ReadDiagonal | tic_tac_toe.rb:116-120 | The values fetched along a diagonal's labels are its cells' values, in order. |
| EarlyTicTacToe.Game.CheckEndgame | tic_tac_toe.rb:84-127 | The loops declare exactly the three-way scan's first winner, and return true exactly when there is one, however full the board. |
| Scenarios.NotFinished | spec/tic_tac_toe_spec.rb:105-119 | The "not finished" board is in progress. |
| Scenarios.RowWin | spec/tic_tac_toe_spec.rb:121-141 | The "row" board is won by X. |
| Scenarios.ColumnWin | spec/tic_tac_toe_spec.rb:143-163 | The "column" board is won by @. |
| Scenarios.DiagonalWin | spec/tic_tac_toe_spec.rb:165-186 | The "diagonal" board is won by &. |
| Scenarios.FullBoardDraw | spec/tic_tac_toe_spec.rb:188-208 | The "draw" board is a draw, and the earlier version finds no winner on it. |
| Scenarios.CrossCircleDraw | lib/tic_tac_toe.rb:137-141 | The full X/O board X O X / X O O / O X X is a draw. |
| Scenarios.RowAMove1 | lib/tic_tac_toe.rb:94-143 | After a1 by O the game is in progress. |
| Scenarios.RowAMove2 | lib/tic_tac_toe.rb:94-143 | After a1 by O and b2 by X the game is in progress. |
| Scenarios.RowAMove3 | lib/tic_tac_toe.rb:94-143 | After the third move, a2 by O, the game is in progress. |
| Scenarios.RowAMove4 | lib/tic_tac_toe.rb:94-143 | After the fourth move, b1 by X, the game is in progress. |
| Scenarios.RowAMove5 | lib/tic_tac_toe.rb:94-135 | After the fifth move, a3 by O, O wins with row a. |

## Left out

- Terminal output is not modelled. This covers `Board#draw`, `Game#draw_board`, the messages that `insert` and `register` print, and `declare_winner` / `declare_draw`. The model keeps only return values and which symbol, or draw, is declared.
- `declare_winner`'s lookup of the player who owns the winning symbol is left out: it only chooses a name to print.
- `Player` and `Bot` are not part of this model. `Player` only delegates to the game. `Bot` picks a random empty position and sleeps.
- The `TicTacToe` flow class and `main.rb` are interactive `gets` loops with a random first player. The top-level loop at tic_tac_toe.rb:165-184 runs at load time and reads stdin. None of these is part of this model.
- Ruby object identity of players is modelled as opaque numbers (`PlayerId`).
- TicTacToe.Game.Symbol: requires a registered player. Ruby returns nil for any other player, and the model does not represent that.
- EarlyTicTacToe.Game.Symbol: requires a registered player, for the same reason.
- TicTacToe.Game.Register: returns a boolean. Ruby returns the assigned symbol, which is truthy, or false.
- EarlyTicTacToe.Game.Register: returns a boolean, for the same reason.
- Hash iteration order is modelled as the fixed order a1..c3. Ruby iterates in insertion order, and updating an existing key does not move it.
- The inner `upto` / `each` loops of `check_endgame` are separate read methods (`ReadRow`, `ReadColumn`, `ReadDiagonal`) that the outer loops call. Each fetches cell by cell, as the block does.
- The Scenarios lemmas about the five-move game state the outcome on each board the game passes through. They do not replay the moves through `Game.Insert`. Board.Insert's contract is what links each board to the one before it.

/**
 * The 3x3 grid shared by both versions of the game: the nine cell labels
 * `a1`..`c3` (row letter, column digit), the cells as a map from label to
 * an arbitrary string with " " meaning empty, the eight lines checked for
 * a win, and the list of empty labels.
 */
module Grid {

  /** The value of an empty cell. */
  const Blank: string := " "

  const Rows: string := "abc"
  const Columns: string := "123"

  /** The nine labels in the order the board's hash is built (and so iterated). */
  const Labels: seq<string> := ["a1", "a2", "a3", "b1", "b2", "b3", "c1", "c2", "c3"]

  /** The board's hash: label to cell value. Values are not restricted to two marks. */
  type Cells = map<string, string>

  /** The hash has exactly the nine labels as keys. */
  predicate WellFormed(c: Cells)
  {
    c.Keys == LabelSet
  }

  const LabelSet: set<string> := {"a1", "a2", "a3", "b1", "b2", "b3", "c1", "c2", "c3"}

  /** The label `row + column`. */
  function Label(row: char, column: char): string
  {
    [row, column]
  }

  lemma LabelInLabels(i: nat, j: nat)
    requires i < 3 && j < 3
    ensures Label(Rows[i], Columns[j]) in Labels
    ensures Labels[3 * i + j] == Label(Rows[i], Columns[j])
  {
    if i == 0 {
      if j == 0 { assert Labels[0] == Label('a', '1'); }
      else if j == 1 { assert Labels[1] == Label('a', '2'); }
      else { assert Labels[2] == Label('a', '3'); }
    } else if i == 1 {
      if j == 0 { assert Labels[3] == Label('b', '1'); }
      else if j == 1 { assert Labels[4] == Label('b', '2'); }
      else { assert Labels[5] == Label('b', '3'); }
    } else {
      if j == 0 { assert Labels[6] == Label('c', '1'); }
      else if j == 1 { assert Labels[7] == Label('c', '2'); }
      else { assert Labels[8] == Label('c', '3'); }
    }
  }

  /** All nine cells empty: the hash `reset_board` builds. */
  function Cleared(): (c: Cells)
    ensures WellFormed(c)
  {
    map l | l in Labels :: Blank
  }

  /**
   * Line `k` of the scan `check_endgame` performs: rows a..c (k = 0..2),
   * columns 1..3 (k = 3..5), then the diagonals a1-b2-c3 and a3-b2-c1.
   */
  function LineLabels(k: nat): (line: seq<string>)
    requires k < 8
    ensures |line| == 3
  {
    if k < 3 then seq(3, j requires 0 <= j < 3 => Label(Rows[k], Columns[j]))
    else if k < 6 then seq(3, i requires 0 <= i < 3 => Label(Rows[i], Columns[k - 3]))
    else if k == 6 then ["a1", "b2", "c3"]
    else ["a3", "b2", "c1"]
  }

  /** Every line is made of the nine labels. */
  lemma LineLabelsAreLabels(k: nat)
    requires k < 8
    ensures forall i :: 0 <= i < 3 ==> LineLabels(k)[i] in Labels
  {
    if k < 3 {
      forall j | 0 <= j < 3 ensures LineLabels(k)[j] in Labels { LabelInLabels(k, j); }
    } else if k < 6 {
      forall i | 0 <= i < 3 ensures LineLabels(k)[i] in Labels { LabelInLabels(i, k - 3); }
    }
  }

  /** The values read off the cells of `line`, in order. */
  function LineValues(c: Cells, line: seq<string>): (vs: seq<string>)
    requires forall i :: 0 <= i < |line| ==> line[i] in c
    ensures |vs| == |line|
    ensures forall i :: 0 <= i < |line| ==> vs[i] == c[line[i]]
  {
    seq(|line|, i requires 0 <= i < |line| => c[line[i]])
  }

  /** The values of line `k` of a well-formed board. */
  function LineOf(c: Cells, k: nat): (vs: seq<string>)
    requires WellFormed(c) && k < 8
    ensures |vs| == 3
  {
    LineLabelsAreLabels(k);
    LineValues(c, LineLabels(k))
  }

  /** Three values read off row `row`, cell by cell, are that row's line. */
  lemma RowValues(c: Cells, row: nat, values: seq<string>)
    requires WellFormed(c) && row < 3 && |values| == 3
    requires forall j :: 0 <= j < 3 ==> Label(Rows[row], Columns[j]) in c && values[j] == c[Label(Rows[row], Columns[j])]
    ensures values == LineOf(c, row)
  {
  }

  /** Three values read off column `column`, cell by cell, are that column's line. */
  lemma ColumnValues(c: Cells, column: nat, values: seq<string>)
    requires WellFormed(c) && column < 3 && |values| == 3
    requires forall i :: 0 <= i < 3 ==> Label(Rows[i], Columns[column]) in c && values[i] == c[Label(Rows[i], Columns[column])]
    ensures values == LineOf(c, 3 + column)
  {
  }

  /** Three values read off diagonal `d`, cell by cell, are that diagonal's line. */
  lemma DiagonalValues(c: Cells, d: nat, values: seq<string>)
    requires WellFormed(c) && d < 2 && |values| == 3
    requires forall i :: 0 <= i < 3 ==> values[i] == c[LineLabels(6 + d)[i]]
    ensures values == LineOf(c, 6 + d)
  {
  }

  /** The labels among `ls`, in the order of `ls`, whose cell holds Blank. */
  function BlankAmong(ls: seq<string>, c: Cells): seq<string>
  {
    if ls == [] then []
    else
      var rest := BlankAmong(ls[..|ls| - 1], c);
      var l := ls[|ls| - 1];
      if l in c && c[l] == Blank then rest + [l] else rest
  }

  /** The empty labels of the board, in a1..c3 order. */
  function EmptyLabels(c: Cells): seq<string>
  {
    BlankAmong(Labels, c)
  }

  /** Position of the first occurrence of `x` in `s`. */
  function IndexOf(s: seq<string>, x: string): (r: nat)
    requires x in s
    ensures r < |s| && s[r] == x
    ensures forall i :: 0 <= i < r ==> s[i] != x
  {
    if s[0] == x then 0 else 1 + IndexOf(s[1..], x)
  }

  predicate Distinct(s: seq<string>)
  {
    forall i, j :: 0 <= i < j < |s| ==> s[i] != s[j]
  }

  lemma LabelsDistinct()
    ensures Distinct(Labels)
  {
  }

  lemma {:induction false} BlankAmongMembers(ls: seq<string>, c: Cells, x: string)
    ensures x in BlankAmong(ls, c) <==> x in ls && x in c && c[x] == Blank
  {
    if ls != [] {
      BlankAmongMembers(ls[..|ls| - 1], c, x);
      assert ls == ls[..|ls| - 1] + [ls[|ls| - 1]];
    }
  }

  /** A label is listed as empty exactly when it is one of the nine and its cell is " ". */
  lemma EmptyLabelsMembers(c: Cells, x: string)
    requires WellFormed(c)
    ensures x in EmptyLabels(c) <==> x in Labels && c[x] == Blank
  {
    BlankAmongMembers(Labels, c, x);
  }

  lemma IndexOfInPrefix(s: seq<string>, n: nat, x: string)
    requires n <= |s| && x in s[..n]
    ensures IndexOf(s, x) == IndexOf(s[..n], x)
  {
  }

  /**
   * The labels BlankAmong lists come in the order of `ls` (strictly, so
   * without repetitions) when `ls` has no repetitions.
   */
  lemma {:induction false} BlankAmongOrdered(ls: seq<string>, c: Cells)
    requires Distinct(ls)
    ensures forall i :: 0 <= i < |BlankAmong(ls, c)| ==> BlankAmong(ls, c)[i] in ls
    ensures forall i, j :: 0 <= i < j < |BlankAmong(ls, c)| ==>
      IndexOf(ls, BlankAmong(ls, c)[i]) < IndexOf(ls, BlankAmong(ls, c)[j])
  {
    if ls != [] {
      var n := |ls| - 1;
      var init := ls[..n];
      var rest := BlankAmong(init, c);
      BlankAmongOrdered(init, c);
      forall i | 0 <= i < |rest|
        ensures rest[i] in ls && IndexOf(ls, rest[i]) == IndexOf(init, rest[i]) < n
      {
        IndexOfInPrefix(ls, n, rest[i]);
      }
      var r := BlankAmong(ls, c);
      if r != rest {
        assert r == rest + [ls[n]];
        assert IndexOf(ls, ls[n]) == n;
      }
    }
  }

  /** `EmptyLabels` lists labels in a1, a2, ..., c3 order, each at most once. */
  lemma EmptyLabelsOrdered(c: Cells)
    ensures forall i :: 0 <= i < |EmptyLabels(c)| ==> EmptyLabels(c)[i] in Labels
    ensures forall i, j :: 0 <= i < j < |EmptyLabels(c)| ==>
      IndexOf(Labels, EmptyLabels(c)[i]) < IndexOf(Labels, EmptyLabels(c)[j])
  {
    LabelsDistinct();
    BlankAmongOrdered(Labels, c);
  }

  /** BlankAmong depends only on the cells of the labels it scans. */
  lemma {:induction false} BlankAmongFrame(ls: seq<string>, c: Cells, d: Cells)
    requires forall l :: l in ls ==> (l in c <==> l in d) && (l in c ==> c[l] == d[l])
    ensures BlankAmong(ls, c) == BlankAmong(ls, d)
  {
    if ls != [] {
      BlankAmongFrame(ls[..|ls| - 1], c, d);
    }
  }

  /** Writing a non-blank value into one empty cell drops exactly one label. */
  lemma {:induction false} BlankAmongAfterWrite(ls: seq<string>, c: Cells, p: string, s: string)
    requires Distinct(ls) && p in ls
    requires p in c && c[p] == Blank && s != Blank
    ensures |BlankAmong(ls, c[p := s])| == |BlankAmong(ls, c)| - 1
  {
    var n := |ls| - 1;
    var init := ls[..n];
    if ls[n] == p {
      assert p !in init;
      BlankAmongFrame(init, c, c[p := s]);
    } else {
      assert p in init;
      BlankAmongAfterWrite(init, c, p, s);
    }
  }

  /** After a write of a non-blank value into an empty cell the list of empty labels is one shorter. */
  lemma EmptyLabelsAfterWrite(c: Cells, p: string, s: string)
    requires WellFormed(c) && p in Labels && c[p] == Blank && s != Blank
    ensures |EmptyLabels(c[p := s])| == |EmptyLabels(c)| - 1
    ensures forall x :: x in EmptyLabels(c[p := s]) <==> x in EmptyLabels(c) && x != p
  {
    LabelsDistinct();
    BlankAmongAfterWrite(Labels, c, p, s);
    forall x ensures x in EmptyLabels(c[p := s]) <==> x in EmptyLabels(c) && x != p {
      BlankAmongMembers(Labels, c, x);
      BlankAmongMembers(Labels, c[p := s], x);
    }
  }

  /** When every scanned cell holds Blank, every scanned label is listed. */
  lemma {:induction false} BlankAmongAllBlank(ls: seq<string>, c: Cells)
    requires forall l :: l in ls ==> l in c && c[l] == Blank
    ensures BlankAmong(ls, c) == ls
  {
    if ls != [] {
      var init := ls[..|ls| - 1];
      BlankAmongAllBlank(init, c);
      assert ls == init + [ls[|ls| - 1]];
    }
  }

  /** On a cleared board every label is listed, in order. */
  lemma ClearedAllEmpty()
    ensures EmptyLabels(Cleared()) == Labels
  {
    BlankAmongAllBlank(Labels, Cleared());
  }

  /** The board is full exactly when no label is listed as empty. */
  lemma FullIffNoEmptyLabels(c: Cells)
    requires WellFormed(c)
    ensures EmptyLabels(c) == [] <==> forall l :: l in Labels ==> c[l] != Blank
  {
    if EmptyLabels(c) != [] {
      EmptyLabelsMembers(c, EmptyLabels(c)[0]);
    }
    forall l | l in Labels && c[l] == Blank ensures l in EmptyLabels(c) {
      EmptyLabelsMembers(c, l);
    }
  }
}

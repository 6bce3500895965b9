/**
 * The learning table the page rebuilds from the uploaded sheet on every run,
 * and its annotated copy, which carries the learner's verdicts in the
 * "Check kết quả" column.
 */
module LearningTable {
  import opened Wrappers
  import opened Verdicts

  /**
   * One row of the learning table, its fields in the order the summary shows
   * them: "Số thứ tự", "Nghĩa tiếng Việt", "Hán tự", "Pinyin",
   * "Check kết quả", "Số thứ tự câu trong file".
   */
  datatype LearnRow = LearnRow(
    ordinal: int,
    meaning: string,
    han: string,
    pinyin: string,
    check: string,
    fileRow: int)

  /**
   * The uploaded sheet after every cell has gone through `astype(str)`:
   * `width` columns, one sequence of cells per row.
   */
  datatype SourceTable = SourceTable(width: nat, rows: seq<seq<string>>)
  {
    /** A data frame is rectangular. */
    predicate WellFormed()
    {
      forall i :: 0 <= i < |rows| ==> |rows[i]| == width
    }
  }

  /** The columns picked for the three text fields; None while nothing is picked. */
  datatype Selection = Selection(han: Option<nat>, pinyin: Option<nat>, meaning: Option<nat>)
  {
    predicate Complete()
    {
      han.Some? && pinyin.Some? && meaning.Some?
    }

    /** Every picked column exists in a sheet of `width` columns. */
    predicate WithinWidth(width: nat)
    {
      && (han.Some? ==> han.value < width)
      && (pinyin.Some? ==> pinyin.value < width)
      && (meaning.Some? ==> meaning.value < width)
    }
  }

  /** Indexing a data frame with a column that was never picked raises. */
  datatype TableError = ColumnNotSelected

  /** The column a selectbox preselects: position `k` if the sheet has it. */
  function DefaultColumn(k: nat, width: nat): Option<nat>
  {
    if width > k then Some(k) else None
  }

  /** The three preselected columns: first, second and third. */
  function DefaultSelection(width: nat): (s: Selection)
    ensures s.WithinWidth(width)
    ensures s.han.Some? <==> width >= 1
    ensures s.pinyin.Some? <==> width >= 2
    ensures s.meaning.Some? <==> width >= 3
    ensures (s.han.Some? ==> s.han.value == 0) && (s.pinyin.Some? ==> s.pinyin.value == 1)
            && (s.meaning.Some? ==> s.meaning.value == 2)
    ensures s.Complete() <==> width >= 3
    ensures s.Complete() ==> s.han.value != s.pinyin.value && s.pinyin.value != s.meaning.value
                             && s.han.value != s.meaning.value
  {
    Selection(DefaultColumn(0, width), DefaultColumn(1, width), DefaultColumn(2, width))
  }

  /** Python's `range(lo, hi)`. */
  function Range(lo: int, hi: int): (r: seq<int>)
    ensures |r| == if lo < hi then hi - lo else 0
    ensures forall i :: 0 <= i < |r| ==> r[i] == lo + i
    decreases hi - lo
  {
    if lo >= hi then [] else [lo] + Range(lo + 1, hi)
  }

  /** One column of the sheet, cell by cell. */
  function Column(rows: seq<seq<string>>, c: nat): (col: seq<string>)
    requires forall i :: 0 <= i < |rows| ==> c < |rows[i]|
    ensures |col| == |rows|
    ensures forall i :: 0 <= i < |rows| ==> col[i] == rows[i][c]
    decreases |rows|
  {
    if rows == [] then [] else [rows[0][c]] + Column(rows[1..], c)
  }

  /** A scalar assigned to a whole column is repeated on every row. */
  function Broadcast<T>(x: T, n: nat): (col: seq<T>)
    ensures |col| == n && forall i :: 0 <= i < n ==> col[i] == x
  {
    seq(n, _ => x)
  }

  /** The data frame seen row-wise: row i takes the i-th cell of every column. */
  function Rows(ordinals: seq<int>, meanings: seq<string>, hans: seq<string>,
                pinyins: seq<string>, checks: seq<string>, fileRows: seq<int>): seq<LearnRow>
    requires |meanings| == |hans| == |pinyins| == |checks| == |fileRows| == |ordinals|
  {
    seq(|ordinals|, i requires 0 <= i < |ordinals| =>
      LearnRow(ordinals[i], meanings[i], hans[i], pinyins[i], checks[i], fileRows[i]))
  }

  /**
   * Builds the learning table column by column, as the data frame is built:
   * ordinals 1..N, the three picked text columns, the sheet's row index
   * plus one, and an empty check column. The sheet is read with its default
   * index, so row i has index i.
   */
  function BuildLearningTable(src: SourceTable, sel: Selection): (r: Result<seq<LearnRow>, TableError>)
    requires src.WellFormed() && sel.WithinWidth(src.width)
    ensures r.Failure? <==> !sel.Complete()
    ensures r.Success? ==> |r.value| == |src.rows|
    ensures r.Success? ==> forall i :: 0 <= i < |r.value| ==>
              r.value[i] == LearnRow(i + 1, src.rows[i][sel.meaning.value], src.rows[i][sel.han.value],
                                     src.rows[i][sel.pinyin.value], "", i + 1)
  {
    if !sel.Complete() then Failure(ColumnNotSelected)
    else
      var n := |src.rows|;
      var index := Range(0, n);
      Success(Rows(Range(1, n + 1),
                   Column(src.rows, sel.meaning.value),
                   Column(src.rows, sel.han.value),
                   Column(src.rows, sel.pinyin.value),
                   Broadcast("", n),
                   seq(n, i requires 0 <= i < n => index[i] + 1)))
  }

  /** A table as BuildLearningTable produces it: every check cell still empty. */
  predicate Fresh(t: seq<LearnRow>)
  {
    forall i :: 0 <= i < |t| ==> t[i].check == ""
  }

  /** The ordinal column of a table. */
  function Ordinals(t: seq<LearnRow>): (r: seq<int>)
    ensures |r| == |t|
  {
    seq(|t|, i requires 0 <= i < |t| => t[i].ordinal)
  }

  /**
   * The ordinals of a built table are exactly 1..N in order, and each equals
   * the row's number in the file.
   */
  lemma OrdinalsDense(src: SourceTable, sel: Selection)
    requires src.WellFormed() && sel.WithinWidth(src.width) && sel.Complete()
    ensures var t := BuildLearningTable(src, sel).value;
            && Fresh(t)
            && Ordinals(t) == Range(1, |src.rows| + 1)
            && (forall i, j :: 0 <= i < j < |t| ==> t[i].ordinal < t[j].ordinal)
            && (forall i :: 0 <= i < |t| ==> t[i].ordinal == t[i].fileRow)
  {
  }

  /**
   * The summary table: a copy of `learn` in which every row whose index has
   * a verdict carries that verdict's label in its check cell. Keys outside
   * the table are ignored.
   */
  function Annotate(learn: seq<LearnRow>, results: map<int, Verdict>): (r: seq<LearnRow>)
    ensures |r| == |learn|
  {
    seq(|learn|, i requires 0 <= i < |learn| =>
      if i in results then learn[i].(check := Label(results[i])) else learn[i])
  }

  /**
   * Annotating touches only the check column; a row's check cell is its
   * verdict's label, or what it held before when there is none.
   */
  lemma AnnotateOnlyCheck(learn: seq<LearnRow>, results: map<int, Verdict>, i: int)
    requires 0 <= i < |learn|
    ensures var row := Annotate(learn, results)[i];
            && row.ordinal == learn[i].ordinal && row.meaning == learn[i].meaning
            && row.han == learn[i].han && row.pinyin == learn[i].pinyin
            && row.fileRow == learn[i].fileRow
            && row.check == Lookup(results, i, learn[i].check)
  {
  }

  /** On a freshly built table the check cell of row i is `results.get(i, "")`. */
  lemma AnnotateFresh(learn: seq<LearnRow>, results: map<int, Verdict>)
    requires Fresh(learn)
    ensures forall i :: 0 <= i < |learn| ==> Annotate(learn, results)[i].check == CheckCell(results, i)
  {
  }

  /**
   * The exported table records the verdict map exactly, within the table:
   * reading a check cell back yields the row's verdict, or nothing.
   */
  lemma ExportRecoversVerdicts(learn: seq<LearnRow>, results: map<int, Verdict>, i: int)
    requires Fresh(learn) && 0 <= i < |learn|
    ensures ParseLabel(Annotate(learn, results)[i].check) == (if i in results then Some(results[i]) else None)
  {
  }

  /** Keys outside 0..N-1 make no difference to the summary table. */
  lemma AnnotateIgnoresOutOfRange(learn: seq<LearnRow>, m1: map<int, Verdict>, m2: map<int, Verdict>)
    requires forall i :: 0 <= i < |learn| ==> (i in m1 <==> i in m2)
    requires forall i :: 0 <= i < |learn| && i in m1 ==> m1[i] == m2[i]
    ensures Annotate(learn, m1) == Annotate(learn, m2)
  {
  }

  /**
   * Marking row k and then merging is the old summary with row k's check
   * cell overwritten; a mark outside the table changes nothing.
   */
  lemma AnnotateAfterMark(learn: seq<LearnRow>, results: map<int, Verdict>, k: int, v: Verdict)
    ensures 0 <= k < |learn| ==>
              Annotate(learn, results[k := v]) == Annotate(learn, results)[k := learn[k].(check := Label(v))]
    ensures !(0 <= k < |learn|) ==> Annotate(learn, results[k := v]) == Annotate(learn, results)
  {
  }

  /**
   * Five sentences, the third (index 2) marked correct: its check cell reads
   * "Đúng" and every other cell stays empty.
   */
  lemma ThirdOfFiveMarkedCorrect(src: SourceTable, sel: Selection)
    requires src.WellFormed() && sel.WithinWidth(src.width) && sel.Complete() && |src.rows| == 5
    ensures var t := Annotate(BuildLearningTable(src, sel).value, map[2 := Correct]);
            && |t| == 5 && t[2].check == "Đúng"
            && forall i :: 0 <= i < 5 && i != 2 ==> t[i].check == ""
  {
  }
}

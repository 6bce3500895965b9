# Study-session model of the Chinese sentence trainer

The trainer is a Streamlit page (`app.py`). The learner uploads a sheet of
sentences, picks the columns that hold the Chinese characters, the pinyin and
the Vietnamese gloss, and then works through the sentences one at a time. For
each sentence the learner can mark "Đúng" (correct) or "Sai" (wrong). The
marked table can then be downloaded.

This project models the page's state machine in Dafny:

- **Learning table** (`learning_table.dfy`, module `LearningTable`). The table
  is built column by column from the uploaded sheet:
  - "Số thứ tự" is the ordinal, 1..N;
  - the three text columns are the ones the learner picked;
  - "Số thứ tự câu trong file" is the sheet's row index plus one;
  - "Check kết quả" starts empty.

  The module also holds the summary copy, in which every verdict whose index
  is a row of the table is written into that row's check cell.
- **Verdicts** (`verdicts.dfy`, module `Verdicts`). The two verdicts and their
  labels. A verdict map is read back with a default: the result line shows
  "Chưa đánh dấu" for a row without a verdict, and the check column shows "".
- **Session** (`session.dfy`, module `Session`). The class `StudySession` keeps
  the cursor `currentIndex` and the verdict map `results` over a table of
  `rowCount` rows:
  - "previous" and "next" clamp the cursor with `max`/`min`, and only in the
    sequential order ("Tuần tự");
  - the random jump draws from `randint(0, N-1)` in either order;
  - marking overwrites the entry for the current row;
  - `Export` copies the learning table into an array and writes the verdicts
    into it cell by cell.

  Pure functions `PrevIndex`, `NextIndex` and `Walk` specify the cursor moves.
  Lemmas prove that the cursor stays in range, where it stops, and which rows
  a walk reaches.

`wrappers.dfy` holds the `Option` and `Result` types. The random draw is a
parameter of `RandInt` and `RandomJump`. The caller supplies it, and it must
lie in the range `randint` would draw from.

## Model

| member | source | states |
|---|---|---|
| `LearningTable.DefaultSelection` | app.py:56-58 | the characters, pinyin and gloss fields preselect columns 0, 1 and 2 respectively; column k is preselected exactly when the sheet has more than k columns, and otherwise nothing is preselected for that field |
| `LearningTable.Range` | app.py:62 | `range(lo, hi)` has `max(0, hi - lo)` elements and element i is `lo + i` |
| `LearningTable.Column` | app.py:63-65 | a picked column has one cell per sheet row, and cell i is row i's cell in that column |
| `LearningTable.Broadcast` | app.py:67 | a scalar assigned to a column is repeated on all N rows |
| `LearningTable.BuildLearningTable` | app.py:61-67 | fails exactly when a text column is unpicked; otherwise has one row per sheet row, and row i is (ordinal i+1, picked gloss, characters and pinyin of sheet row i, check "", file row i+1) |
| `LearningTable.OrdinalsDense` | app.py:62-67 | a built table's ordinals are exactly 1..N in increasing order, each equals the row's file number, and every check cell is empty |
| `LearningTable.Annotate` | app.py:158-161 | the summary has as many rows as the learning table |
| `LearningTable.AnnotateOnlyCheck` | app.py:158-161 | merging leaves ordinal, gloss, characters, pinyin and file row of every row unchanged; the check cell becomes the row's verdict label, or keeps what it held when the row has no verdict |
| `LearningTable.AnnotateFresh` | app.py:158-161 | on a freshly built table, row i's check cell is `results.get(i, "")` |
| `LearningTable.ExportRecoversVerdicts` | app.py:158-161 | reading a check cell of the summary back gives exactly that row's verdict, or none |
| `LearningTable.AnnotateIgnoresOutOfRange` | app.py:160 | two verdict maps that agree on 0..N-1 give the same summary, so keys outside the table are ignored |
| `LearningTable.AnnotateAfterMark` | app.py:159-161 | adding a verdict for an in-range row k changes only row k's check cell in the summary; a verdict for an out-of-range key changes nothing |
| `LearningTable.ThirdOfFiveMarkedCorrect` | app.py:158-161 | on five rows with row 2 marked correct, row 2's check cell is "Đúng" and the others are empty |
| `Verdicts.Label` | app.py:119-122 | the two verdicts have distinct labels "Đúng" and "Sai"; neither is empty and neither is the unmarked text |
| `Verdicts.ParseLabelRoundTrip` | app.py:119-122 | a stored label reads back as the verdict that produced it |
| `Verdicts.DisplayLabelFaithful` | app.py:124 | the result line shows "Chưa đánh dấu" exactly when the row has no verdict, and otherwise shows a label that reads back as the row's verdict |
| `Verdicts.CheckCellFaithful` | app.py:114 | `results.get(i, "")` is empty exactly when row i has no verdict, and otherwise reads back as the verdict |
| `Session.RandInt` | app.py:105 | `randint(lo, hi)` fails exactly when the range is empty, and otherwise returns a value in `[lo, hi]`, both ends included |
| `Session.PrevInRange` | app.py:95-97 | from a row, "previous" stays on a row; in sequential order it stays at 0 from row 0 and otherwise goes back by one |
| `Session.NextInRange` | app.py:99-101 | from a row, "next" stays on a row; in sequential order it stays at N-1 from row N-1 and otherwise goes forward by one |
| `Session.ShuffledButtonsInert` | app.py:95-101 | in shuffled order ("Ngẫu nhiên") neither "previous" nor "next" moves the cursor |
| `Session.PrevNextInverse` | app.py:95-101 | away from the ends, "next" after "previous" and "previous" after "next" return to the starting row |
| `Session.WalkInRange` | app.py:95-101 | any sequence of "previous"/"next" presses from a row ends on a row |
| `Session.ShuffledWalkInert` | app.py:95-101 | in shuffled order no sequence of presses moves the cursor |
| `Session.ForwardWalk` | app.py:99-101 | k presses of "next" from row i end on row min(i + k, N - 1) |
| `Session.BackwardWalk` | app.py:95-97 | k presses of "previous" from row i end on row max(i - k, 0) |
| `Session.EveryRowReachable` | app.py:99-101 | stepping forward from row 0 in sequential order reaches every row |
| `Session.StudySession.constructor` | app.py:69-74 | a new session starts on row 0 with no verdicts |
| `Session.StudySession.Prev` | app.py:95-97 | the cursor becomes `max(0, i - 1)` in sequential order and is unchanged otherwise; verdicts are unchanged; the cursor stays on a row |
| `Session.StudySession.Next` | app.py:99-101 | the cursor becomes `min(N - 1, i + 1)` in sequential order and is unchanged otherwise; verdicts are unchanged; the cursor stays on a row |
| `Session.StudySession.RandomJump` | app.py:103-105 | fails exactly on an empty table and leaves the cursor there; otherwise the cursor becomes the drawn row, which lies in `[0, N-1]`; verdicts are unchanged |
| `Session.StudySession.Mark` | app.py:109-122 | the current row's verdict is set, overwriting an earlier one; every other entry and the cursor are unchanged; the key set grows by the current row only |
| `Session.StudySession.CurrentLabel` | app.py:138 | the result line for the current row shows "Chưa đánh dấu" exactly when it has no verdict, and otherwise shows the current row's verdict |
| `Session.MarkThirdOfFive` | app.py:95-161 | on a five-row table, a new session pressing "next" twice in sequential order and then "Đúng" exports a summary whose third row (index 2) reads "Đúng" and whose other check cells are empty |
| `Session.StudySession.Export` | app.py:158-161 | the copied and merged table equals `Annotate` of the learning table and the verdict map, so every property of `Annotate` above holds of it |

## Left out

- Page layout, titles, markdown, expanders, the checkboxes that only choose which fields are shown, and the widget plumbing (app.py:5-19, 76-92, 126-155, 163-169). These are presentation only.
- Reading the uploaded file with `pd.read_csv` / `pd.read_excel` and caching it (app.py:22-44). This is I/O in a library that is not part of this model. The sheet is given as rows of strings, as after `astype(str)`, with its default 0-based row index.
- Writing the summary to an Excel file and offering it for download (app.py:171-188). This is a foreign library and I/O.
- Randomness itself. The value `randint` draws is a parameter, and the caller must keep it in range.
- Selection by column name: a column is chosen by its position. Duplicate column names, which pandas would treat differently, are not modelled.
- The cursor is assumed to lie on a row of the current table. The source never resets `current_index` when a smaller file is uploaded (app.py:70-71), so a stale cursor can point past the end. The model treats each session as belonging to one table.
- Showing the current row (`df_learn.iloc[current_idx]`, app.py:131) is not modelled. It raises on an empty table. Every other operation is modelled for N = 0 too: "next" there moves the cursor to -1, as `min(-1, i + 1)` does.
- The unused local `current_result` (app.py:114) is modelled only as the lookup it performs (`CheckCell`).
- Session.StudySession.Export: Python visits the verdicts in insertion order, and the model visits them in an arbitrary order. Each key writes a different row, so the result is the same.
- PDF text extraction, line segmentation of extracted text and header-based column inference are not part of this model. None of them appears in app.py: its columns are preselected by position.
- Marking any row other than the current one is not modelled. The page only ever marks the current row (app.py:118-122).

/**
 * The verdicts a learner gives a sentence ("Đúng" / "Sai") and how a verdict
 * map is read back: the result line of the page shows "Chưa đánh dấu" for a
 * sentence without a verdict, the "Check kết quả" column shows an empty cell.
 */
module Verdicts {
  import opened Wrappers

  datatype Verdict = Correct | Incorrect

  const CorrectLabel: string := "Đúng"
  const IncorrectLabel: string := "Sai"
  /** The text shown for a sentence that has no verdict yet. */
  const UnmarkedLabel: string := "Chưa đánh dấu"

  /** The string the session stores for a verdict. */
  function Label(v: Verdict): (r: string)
    ensures r == CorrectLabel <==> v == Correct
    ensures r == IncorrectLabel <==> v == Incorrect
    ensures r != "" && r != UnmarkedLabel
  {
    match v
    case Correct => CorrectLabel
    case Incorrect => IncorrectLabel
  }

  /** Reads a stored label back; the inverse of Label on its range. */
  function ParseLabel(s: string): (r: Option<Verdict>)
  {
    if s == CorrectLabel then Some(Correct)
    else if s == IncorrectLabel then Some(Incorrect)
    else None
  }

  lemma ParseLabelRoundTrip(v: Verdict)
    ensures ParseLabel(Label(v)) == Some(v)
  {
  }

  /** `results.get(idx, default)` on the session's verdict map. */
  function Lookup(results: map<int, Verdict>, idx: int, default: string): string
  {
    if idx in results then Label(results[idx]) else default
  }

  /** What the result line shows for row `idx`. */
  function DisplayLabel(results: map<int, Verdict>, idx: int): string
  {
    Lookup(results, idx, UnmarkedLabel)
  }

  /** What the "Check kết quả" cell of row `idx` holds once verdicts are merged. */
  function CheckCell(results: map<int, Verdict>, idx: int): string
  {
    Lookup(results, idx, "")
  }

  /**
   * The result line tells the learner exactly what the map holds for a row:
   * whether there is a verdict and, if so, which one.
   */
  lemma DisplayLabelFaithful(results: map<int, Verdict>, idx: int)
    ensures idx !in results <==> DisplayLabel(results, idx) == UnmarkedLabel
    ensures idx in results ==> ParseLabel(DisplayLabel(results, idx)) == Some(results[idx])
    ensures idx !in results ==> ParseLabel(DisplayLabel(results, idx)) == None
  {
  }

  /** Likewise for the check cell: an empty cell means no verdict. */
  lemma CheckCellFaithful(results: map<int, Verdict>, idx: int)
    ensures idx !in results <==> CheckCell(results, idx) == ""
    ensures ParseLabel(CheckCell(results, idx)) == (if idx in results then Some(results[idx]) else None)
  {
  }
}

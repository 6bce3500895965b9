/**
 * The study session: a cursor over the N rows of the learning table, moved
 * by the "previous", "next" and "random" buttons, and the map from row index
 * to verdict that the "Đúng" / "Sai" buttons fill in.
 */
module Session {
  import opened Wrappers
  import opened Verdicts
  import opened LearningTable

  /** The radio button "Cách chọn câu": "Tuần tự" or "Ngẫu nhiên". */
  datatype Order = Sequential | Shuffled

  /** A press of "⬅️ Câu trước" or "➡️ Câu tiếp". */
  datatype Move = Back | Forward

  /** `random.randint` on an empty range raises. */
  datatype SessionError = EmptyRange

  function Max(a: int, b: int): int { if a >= b then a else b }
  function Min(a: int, b: int): int { if a <= b then a else b }

  /** The cursor after "previous": `max(0, i - 1)` in sequential order, unchanged otherwise. */
  function PrevIndex(order: Order, i: int): int
  {
    if order == Sequential then Max(0, i - 1) else i
  }

  /** The cursor after "next" over `n` rows: `min(n - 1, i + 1)` in sequential order. */
  function NextIndex(order: Order, i: int, n: int): int
  {
    if order == Sequential then Min(n - 1, i + 1) else i
  }

  function Step(order: Order, m: Move, i: int, n: int): int
  {
    match m
    case Back => PrevIndex(order, i)
    case Forward => NextIndex(order, i, n)
  }

  /** The cursor after a sequence of button presses, first press first. */
  function Walk(order: Order, moves: seq<Move>, i: int, n: int): int
    decreases |moves|
  {
    if moves == [] then i else Walk(order, moves[1..], Step(order, moves[0], i, n), n)
  }

  /** `k` presses of the same button. */
  function Presses(m: Move, k: nat): (r: seq<Move>)
    ensures |r| == k && forall j :: 0 <= j < k ==> r[j] == m
  {
    seq(k, _ => m)
  }

  /**
   * `random.randint(lo, hi)`: some value in [lo, hi], both ends included;
   * the drawn value is supplied by the caller as `pick`.
   */
  function RandInt(lo: int, hi: int, pick: int): (r: Result<int, SessionError>)
    requires lo <= hi ==> lo <= pick <= hi
    ensures r.Failure? <==> lo > hi
    ensures r.Success? ==> lo <= r.value <= hi
  {
    if lo > hi then Failure(EmptyRange) else Success(pick)
  }

  /** "Previous" never leaves 0..n-1, stops at 0 and otherwise steps back by one. */
  lemma PrevInRange(order: Order, i: int, n: int)
    requires 0 <= i < n
    ensures 0 <= PrevIndex(order, i) < n
    ensures order == Sequential ==> PrevIndex(order, i) == (if i == 0 then 0 else i - 1)
  {
  }

  /** "Next" never leaves 0..n-1, stops at n-1 and otherwise steps forward by one. */
  lemma NextInRange(order: Order, i: int, n: int)
    requires 0 <= i < n
    ensures 0 <= NextIndex(order, i, n) < n
    ensures order == Sequential ==> NextIndex(order, i, n) == (if i == n - 1 then n - 1 else i + 1)
  {
  }

  /** In shuffled order neither button moves the cursor. */
  lemma ShuffledButtonsInert(i: int, n: int)
    ensures PrevIndex(Shuffled, i) == i && NextIndex(Shuffled, i, n) == i
  {
  }

  /** Away from the ends, "previous" and "next" undo each other. */
  lemma PrevNextInverse(i: int, n: int)
    ensures 0 < i < n ==> NextIndex(Sequential, PrevIndex(Sequential, i), n) == i
    ensures 0 <= i < n - 1 ==> PrevIndex(Sequential, NextIndex(Sequential, i, n)) == i
  {
  }

  /** Any sequence of presses keeps the cursor on a row. */
  lemma {:induction false} WalkInRange(order: Order, moves: seq<Move>, i: int, n: int)
    requires 0 <= i < n
    ensures 0 <= Walk(order, moves, i, n) < n
    decreases |moves|
  {
    if moves != [] {
      var j := Step(order, moves[0], i, n);
      PrevInRange(order, i, n);
      NextInRange(order, i, n);
      WalkInRange(order, moves[1..], j, n);
    }
  }

  /** In shuffled order no sequence of presses moves the cursor. */
  lemma {:induction false} ShuffledWalkInert(moves: seq<Move>, i: int, n: int)
    ensures Walk(Shuffled, moves, i, n) == i
    decreases |moves|
  {
    if moves != [] {
      ShuffledWalkInert(moves[1..], i, n);
    }
  }

  /** `k` presses of "next" from row i land on row min(i + k, n - 1). */
  lemma {:induction false} ForwardWalk(k: nat, i: int, n: int)
    requires 0 <= i < n
    ensures Walk(Sequential, Presses(Forward, k), i, n) == Min(i + k, n - 1)
    decreases k
  {
    if k > 0 {
      assert Presses(Forward, k)[1..] == Presses(Forward, k - 1);
      ForwardWalk(k - 1, NextIndex(Sequential, i, n), n);
    }
  }

  /** `k` presses of "previous" from row i land on row max(i - k, 0). */
  lemma {:induction false} BackwardWalk(k: nat, i: int, n: int)
    requires 0 <= i < n
    ensures Walk(Sequential, Presses(Back, k), i, n) == Max(i - k, 0)
    decreases k
  {
    if k > 0 {
      assert Presses(Back, k)[1..] == Presses(Back, k - 1);
      BackwardWalk(k - 1, PrevIndex(Sequential, i), n);
    }
  }

  /** Stepping forward from the first row in sequential order reaches every row. */
  lemma EveryRowReachable(n: int, target: int)
    requires 0 <= target < n
    ensures Walk(Sequential, Presses(Forward, target), 0, n) == target
  {
    ForwardWalk(target, 0, n);
  }

  /** A non-empty set of keys has a key to pick. */
  lemma HasElement(s: set<int>)
    requires s != {}
    ensures exists k :: k in s
  {
    if forall k :: k !in s {
      assert false;
    }
  }

  /**
   * The session state kept across reruns of the page: the cursor
   * `current_index` and the verdict map `results`, over a table of `rowCount`
   * rows.
   */
  class StudySession {
    const rowCount: nat
    var currentIndex: int
    var results: map<int, Verdict>

    /** The cursor is on a row whenever there is one. */
    ghost predicate Valid()
      reads this
    {
      rowCount > 0 ==> 0 <= currentIndex < rowCount
    }

    /** A new session starts on the first row with no verdicts. */
    constructor (rowCount: nat)
      ensures Valid()
      ensures this.rowCount == rowCount && currentIndex == 0 && results == map[]
    {
      this.rowCount := rowCount;
      currentIndex := 0;
      results := map[];
    }

    /** "⬅️ Câu trước". */
    method Prev(order: Order)
      requires Valid()
      modifies this`currentIndex
      ensures Valid()
      ensures currentIndex == PrevIndex(order, old(currentIndex))
      ensures results == old(results)
    {
      if order == Sequential {
        currentIndex := Max(0, currentIndex - 1);
      }
    }

    /** "➡️ Câu tiếp". */
    method Next(order: Order)
      requires Valid()
      modifies this`currentIndex
      ensures Valid()
      ensures currentIndex == NextIndex(order, old(currentIndex), rowCount)
      ensures results == old(results)
    {
      if order == Sequential {
        currentIndex := Min(rowCount - 1, currentIndex + 1);
      }
    }

    /**
     * "🎲 Chọn ngẫu nhiên", in either order: the cursor jumps to the drawn
     * row; on an empty table the draw fails and the cursor stays.
     */
    method RandomJump(pick: int) returns (outcome: Result<int, SessionError>)
      requires Valid()
      requires rowCount > 0 ==> 0 <= pick < rowCount
      modifies this`currentIndex
      ensures Valid()
      ensures outcome.Failure? <==> rowCount == 0
      ensures outcome.Success? ==> 0 <= outcome.value < rowCount && currentIndex == outcome.value == pick
      ensures outcome.Failure? ==> currentIndex == old(currentIndex)
      ensures results == old(results)
    {
      outcome := RandInt(0, rowCount - 1, pick);
      if outcome.Success? {
        currentIndex := outcome.value;
      }
    }

    /**
     * "✅ Đúng" / "❌ Sai": records the verdict for the current row,
     * overwriting an earlier one; nothing else changes.
     */
    method Mark(v: Verdict)
      requires Valid()
      modifies this`results
      ensures Valid()
      ensures results == old(results)[currentIndex := v]
      ensures currentIndex in results && results[currentIndex] == v
      ensures forall k :: k in old(results) && k != currentIndex ==> k in results && results[k] == old(results)[k]
      ensures results.Keys == old(results.Keys) + {currentIndex}
    {
      results := results[currentIndex := v];
    }

    /** The "Kết quả" line for the current row. */
    function CurrentLabel(): (s: string)
      reads this
      ensures currentIndex in results ==> ParseLabel(s) == Some(results[currentIndex])
      ensures currentIndex !in results <==> s == UnmarkedLabel
    {
      DisplayLabel(results, currentIndex)
    }

    /**
     * The summary table: copies the learning table and, for every verdict
     * whose index is a row of it, writes the verdict's label into that row's
     * check cell.
     */
    method Export(learn: seq<LearnRow>) returns (display: seq<LearnRow>)
      ensures display == Annotate(learn, results)
    {
      var copy := new LearnRow[|learn|](i requires 0 <= i < |learn| => learn[i]);
      var pending := results.Keys;
      assert copy[..] == Annotate(learn, results - pending);
      while pending != {}
        invariant pending <= results.Keys
        invariant copy[..] == Annotate(learn, results - pending)
        decreases pending
      {
        HasElement(pending);
        var idx :| idx in pending;
        ghost var done := results - pending;
        assert results - (pending - {idx}) == done[idx := results[idx]];
        AnnotateAfterMark(learn, done, idx, results[idx]);
        if 0 <= idx < copy.Length {
          copy[idx] := copy[idx].(check := Label(results[idx]));
        }
        pending := pending - {idx};
      }
      assert results - pending == results;
      display := copy[..];
    }
  }

  /**
   * Five rows: "next" twice in sequential order, then "Đúng". The summary
   * shows "Đúng" on the third row and empty cells elsewhere.
   */
  method MarkThirdOfFive(src: SourceTable, sel: Selection) returns (display: seq<LearnRow>)
    requires src.WellFormed() && sel.WithinWidth(src.width) && sel.Complete() && |src.rows| == 5
    ensures |display| == 5 && display[2].check == "Đúng"
    ensures forall i :: 0 <= i < 5 && i != 2 ==> display[i].check == ""
  {
    var learn := BuildLearningTable(src, sel).value;
    var s := new StudySession(|learn|);
    s.Next(Sequential);
    s.Next(Sequential);
    s.Mark(Correct);
    display := s.Export(learn);
  }
}

/**
  Student-ID match rates: what one or two Earthmover passes report, and what the executor concludes.

  Rates are exact reals.  A match-rates file has one row per (input column, Ed-Fi ID) pair; it is empty
  or missing when nothing matched.
 */
module MatchRates {
  import opened Wrappers

  const REQUIRED_ID_MATCH_RATE := 0.5

  datatype MatchRow =
    MatchRow(sourceColumn: string, edfiColumn: string, matchRate: real, numRows: int, numMatches: int)
  {
    function Unmatched(): int { numRows - numMatches }
  }

  // highest_match_rate, highest_match_id_name, highest_match_id_type and num_unmatched_students.
  datatype Matches = Matches(rate: real, idName: string, idType: string, unmatched: Option<int>)

  const NO_MATCHES := Matches(0.0, "N/A", "N/A", None)

  // sorted(rows, reverse=True, key=rate)[0]: Python's sort is stable, also in reverse.
  function HighestAt(rows: seq<MatchRow>): (i: nat)
    requires rows != []
    ensures i < |rows|
    ensures forall j :: 0 <= j < |rows| ==> rows[j].matchRate <= rows[i].matchRate
    ensures forall j :: 0 <= j < i ==> rows[j].matchRate < rows[i].matchRate
  {
    var last := |rows| - 1;
    if last == 0 then 0
    else
      var i := HighestAt(rows[..last]);
      if rows[last].matchRate > rows[i].matchRate then last else i
  }

  function Highest(rows: seq<MatchRow>): MatchRow
    requires rows != []
  {
    rows[HighestAt(rows)]
  }

  // record_highest_match_rate
  function Recorded(rows: seq<MatchRow>): Matches {
    if rows == [] then NO_MATCHES
    else
      var best := Highest(rows);
      Matches(best.matchRate, best.sourceColumn, best.edfiColumn, Some(best.Unmatched()))
  }

  // count_unmatched_students
  function CountUnmatched(rows: seq<MatchRow>): Option<int> {
    if rows == [] then None else Some(rows[0].Unmatched())
  }

  // enforce_match_threshold returns instead of raising
  predicate Suffices(m: Matches) {
    m.unmatched == Some(0) || m.rate >= REQUIRED_ID_MATCH_RATE
  }

  predicate NeedsSecondPass(sendToOds: bool, crossYear: bool, first: Matches) {
    sendToOds && crossYear && (first.unmatched.None? || first.unmatched.value > 0)
  }

  // What the cross-year pass has recorded by the time it counts what remains.
  function BeforeCount(first: Matches, rows2: seq<MatchRow>): Matches {
    if first.rate >= REQUIRED_ID_MATCH_RATE then first else Recorded(rows2)
  }

  function AfterCount(m: Matches, rows2: seq<MatchRow>): Matches {
    m.(unmatched := if CountUnmatched(rows2).Some? then CountUnmatched(rows2) else m.unmatched)
  }

  // The outcome of orchestrate_earthmover, given what the passes report: what it leaves recorded, or
  // the matches it gives up on.
  function Orchestrated(sendToOds: bool, crossYear: bool, rows1: seq<MatchRow>, rows2: seq<MatchRow>)
    : Result<Matches, Matches>
  {
    var first := Recorded(rows1);
    if NeedsSecondPass(sendToOds, crossYear, first) then
      var second := BeforeCount(first, rows2);
      if first.rate < REQUIRED_ID_MATCH_RATE && !Suffices(second) then Failure(second)
      else Success(AfterCount(second, rows2))
    else if Suffices(first) then Success(first)
    else Failure(first)
  }

  // The pass whose best match decides: the second one where there is one and the first fell short.
  function Deciding(sendToOds: bool, crossYear: bool, rows1: seq<MatchRow>, rows2: seq<MatchRow>): seq<MatchRow> {
    if sendToOds && crossYear && (rows1 == [] || Highest(rows1).Unmatched() > 0)
       && (forall r :: r in rows1 ==> r.matchRate < 0.5)
    then rows2 else rows1
  }

  lemma AllBelowIff(rows: seq<MatchRow>)
    ensures (forall r :: r in rows ==> r.matchRate < 0.5) <==> Recorded(rows).rate < 0.5
  {
    if rows != [] {
      assert Highest(rows) in rows;
      forall r | r in rows ensures r.matchRate <= Highest(rows).matchRate {
        var j :| 0 <= j < |rows| && rows[j] == r;
      }
    }
  }

  // The run goes on exactly when the deciding pass has a row with nothing unmatched that is its best,
  // or a row that meets the threshold; the unmatched count is then known.
  lemma GoesOnIff(sendToOds: bool, crossYear: bool, rows1: seq<MatchRow>, rows2: seq<MatchRow>)
    ensures var outcome := Orchestrated(sendToOds, crossYear, rows1, rows2);
            var rows := Deciding(sendToOds, crossYear, rows1, rows2);
            && (outcome.Success? <==>
                  rows != [] && (Highest(rows).Unmatched() == 0 || exists r :: r in rows && r.matchRate >= 0.5))
            && (outcome.Success? ==> outcome.value.unmatched.Some?)
  {
    AllBelowIff(rows1);
    AllBelowIff(Deciding(sendToOds, crossYear, rows1, rows2));
  }

  // Without a second pass, the first one alone counts: its best row is what is reported.  There is none
  // for a job that does not send to an ODS or has no cross-year roster, or whose first pass has a best
  // row that leaves nobody unmatched; with one, the count is that of the second file, if it has any row.
  lemma SecondPassIff(sendToOds: bool, crossYear: bool, rows1: seq<MatchRow>, rows2: seq<MatchRow>)
    ensures var outcome := Orchestrated(sendToOds, crossYear, rows1, rows2);
            var two := sendToOds && crossYear && (rows1 == [] || Highest(rows1).Unmatched() > 0);
            && (!two && outcome.Success? ==>
                  var best := Highest(rows1);
                  outcome.value == Matches(best.matchRate, best.sourceColumn, best.edfiColumn, Some(best.Unmatched())))
            && (!two ==> forall rows :: Orchestrated(sendToOds, crossYear, rows1, rows) == outcome)
            && (two && rows2 != [] && outcome.Success? ==> outcome.value.unmatched == Some(rows2[0].Unmatched()))
  {
    GoesOnIff(sendToOds, crossYear, rows1, rows2);
  }

  /* Counting students, on what the bundle writes */

  // A match-rates file for an input of n rows.
  predicate CountsRows(rows: seq<MatchRow>, n: int) {
    forall r :: r in rows ==>
      && r.numRows == n && 0 <= r.numMatches <= n
      && (n > 0 ==> r.matchRate == r.numMatches as real / n as real)
  }

  // What a pass has matched: its best row, if it has any.
  function BestMatches(rows: seq<MatchRow>): int {
    if rows == [] then 0 else Highest(rows).numMatches
  }

  predicate FirstIsBest(rows: seq<MatchRow>) {
    rows == [] || forall r :: r in rows ==> r.matchRate <= rows[0].matchRate
  }

  lemma RatesTellMatches(a: int, b: int, n: real)
    requires n > 0.0
    ensures a as real / n == b as real / n <==> a == b
    ensures a as real / n < b as real / n <==> a < b
  {
    assert a as real == a as real / n * n && b as real == b as real / n * n;
  }

  // Between two rows of one file, the better rate is the larger count.
  lemma RowsCompare(rows: seq<MatchRow>, n: int, a: MatchRow, b: MatchRow)
    requires CountsRows(rows, n) && n > 0 && a in rows && b in rows
    ensures a.matchRate == b.matchRate <==> a.Unmatched() == b.Unmatched()
    ensures a.matchRate < b.matchRate <==> a.numMatches < b.numMatches
  {
    RatesTellMatches(a.numMatches, b.numMatches, n as real);
  }

  lemma FirstIsBestIff(rows: seq<MatchRow>)
    requires rows != []
    ensures FirstIsBest(rows) <==> Highest(rows).matchRate == rows[0].matchRate
  {
    assert Highest(rows) in rows;
    forall r | r in rows ensures r.matchRate <= Highest(rows).matchRate {
      var j :| 0 <= j < |rows| && rows[j] == r;
    }
  }

  // When the first pass met the threshold and left students unmatched, the second one reads only
  // those.  No student is lost: what is reported unmatched and what the best rows of both passes have
  // matched make up at least the input, also when the second pass matches nothing and the first count
  // is kept.  They make up just the input exactly when no row of the second file is better than its
  // first, from which the count is taken.
  lemma NoStudentIsLostIff(rows1: seq<MatchRow>, rows2: seq<MatchRow>, n: int)
    requires CountsRows(rows1, n) && Recorded(rows1).rate >= REQUIRED_ID_MATCH_RATE
    requires Highest(rows1).Unmatched() > 0 && CountsRows(rows2, Highest(rows1).Unmatched())
    ensures var outcome := Orchestrated(true, true, rows1, rows2);
            && outcome.Success? && outcome.value.unmatched.Some?
            && (var left := outcome.value.unmatched.value;
                && 0 <= left <= n
                && left + BestMatches(rows1) + BestMatches(rows2) >= n
                && (left + BestMatches(rows1) + BestMatches(rows2) == n <==> FirstIsBest(rows2)))
  {
    var remaining := Highest(rows1).Unmatched();
    assert Highest(rows1) in rows1;
    if rows2 != [] {
      assert Highest(rows2) in rows2 && rows2[0] in rows2;
      RowsCompare(rows2, remaining, rows2[0], Highest(rows2));
      FirstIsBestIff(rows2);
    }
  }

  // Whichever pass decides, the count that is reported after a second pass is that of a given row of
  // its file exactly when that row is as good as the first.
  lemma CountIsOfRowIff(rows1: seq<MatchRow>, rows2: seq<MatchRow>, n: int, row: MatchRow)
    requires row in rows2 && CountsRows(rows2, n) && n > 0
    requires NeedsSecondPass(true, true, Recorded(rows1)) && Orchestrated(true, true, rows1, rows2).Success?
    ensures Orchestrated(true, true, rows1, rows2).value.unmatched == Some(row.Unmatched())
       <==> row.matchRate == rows2[0].matchRate
  {
    assert rows2[0] in rows2;
    RowsCompare(rows2, n, rows2[0], row);
  }

  // The ID that is reported with the count is the best one of the pass that decided.
  predicate IsReported(m: Matches, row: MatchRow) {
    row.sourceColumn == m.idName && row.edfiColumn == m.idType
  }

  // The count belongs to the reported ID exactly when that ID's row of the second file is as good as
  // its first; and when the second pass decides, exactly when no row is better than the first.
  lemma CountIsOfReportedIdIff(rows1: seq<MatchRow>, rows2: seq<MatchRow>, n: int)
    requires rows2 != [] && CountsRows(rows2, n) && n > 0
    requires NeedsSecondPass(true, true, Recorded(rows1)) && Orchestrated(true, true, rows1, rows2).Success?
    ensures var m := Orchestrated(true, true, rows1, rows2).value;
            && IsReported(m, Highest(Deciding(true, true, rows1, rows2)))
            && (forall row :: row in rows2 && IsReported(m, row) ==>
                  (m.unmatched == Some(row.Unmatched()) <==> row.matchRate == rows2[0].matchRate))
            && (Recorded(rows1).rate < REQUIRED_ID_MATCH_RATE ==>
                  (m.unmatched == Some(Highest(rows2).Unmatched()) <==> FirstIsBest(rows2)))
  {
    forall row | row in rows2
      ensures Orchestrated(true, true, rows1, rows2).value.unmatched == Some(row.Unmatched())
         <==> row.matchRate == rows2[0].matchRate
    {
      CountIsOfRowIff(rows1, rows2, n, row);
    }
    assert Highest(rows2) in rows2;
    FirstIsBestIff(rows2);
    AllBelowIff(rows1);
  }

  // It happens when the second pass decides: three of five rows match its first ID, four its second.
  lemma CountCanBeOfAnotherId()
    ensures var rows2 := [MatchRow("id", "Local", 0.6, 5, 3), MatchRow("id", "State", 0.8, 5, 4)];
            && CountsRows(rows2, 5)
            && Orchestrated(true, true, [], rows2) == Success(Matches(0.8, "id", "State", Some(2)))
  {
    var first := MatchRow("id", "Local", 0.6, 5, 3);
    var rows2 := [first, MatchRow("id", "State", 0.8, 5, 4)];
    assert rows2[..1] == [first];
    assert HighestAt(rows2) == 1;
  }

  // It happens when the first pass decides: the bundle appends studentUniqueId to the ID that won, and
  // here puts it first.  Three students are reported unmatched though one remains, and ten input rows
  // are counted as twelve.
  lemma CountCanExceedWhatRemains()
    ensures var rows1 := [MatchRow("id", "State", 0.6, 10, 6)];
            var rows2 := [MatchRow("id", "studentUniqueId", 0.25, 4, 1), MatchRow("id", "State", 0.75, 4, 3)];
            && CountsRows(rows1, 10) && CountsRows(rows2, 4) && !FirstIsBest(rows2)
            && Orchestrated(true, true, rows1, rows2) == Success(Matches(0.6, "id", "State", Some(3)))
            && Highest(rows2).Unmatched() == 1
            && 3 + BestMatches(rows1) + BestMatches(rows2) == 12
  {
    var first, second := MatchRow("id", "studentUniqueId", 0.25, 4, 1), MatchRow("id", "State", 0.75, 4, 3);
    assert [first, second][..1] == [first];
    assert HighestAt([first, second]) == 1;
    assert second in [first, second];
  }
}

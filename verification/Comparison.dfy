/**
 The comparison of two platforms' evaluation results (scripts/rag_evaluation/compare_rag_eval.py):
 pairing rows by sample id, per-metric summaries, and the verdict. The main result is that the report
 treats the two platforms alike: exchanging the inputs exchanges everything in it.
 */
module Comparison {
  import opened Basics
  import opened Statistics

  datatype Metric = Faithfulness | AnswerRelevancy | ContextPrecision | ContextRecall | AnswerCorrectness

  const METRICS: seq<Metric> := [Faithfulness, AnswerRelevancy, ContextPrecision, ContextRecall, AnswerCorrectness]

  datatype Column = Of(metric: Metric) | Composite

  const COLUMNS: seq<Column> :=
    [Of(Faithfulness), Of(AnswerRelevancy), Of(ContextPrecision), Of(ContextRecall), Of(AnswerCorrectness), Composite]

  /** A result row: the empty JSON object, or one with its texts and the metrics that are finite numbers. */
  datatype Row = EmptyRow | Row(userInput: string, reference: string, response: string, scores: map<Metric, real>)

  datatype Winner = DifyWins | Tie | ZgiWins

  /** One metric of a comparison row; the last two are blank unless both scores exist. */
  datatype Cell = Cell(dify: Option<real>, zgi: Option<real>, delta: Option<real>, winner: Option<Winner>)

  datatype Status = Paired | MissingZgi | MissingDify

  datatype Compared = Compared(
    sampleId: nat, status: Status, userInput: string, reference: string,
    difyResponse: string, zgiResponse: string, cells: map<Column, Cell>)

  datatype Failure = QuestionMismatch(sampleId: nat) | ReferenceMismatch(sampleId: nat) | NothingComparable

  // ---------------------------------------------------------------------------
  // Rows
  // ---------------------------------------------------------------------------

  /** Python truth of `rows.get(sample_id)`. */
  predicate Present(row: Option<Row>) {
    row.Some? && row.value.Row?
  }

  function Get(rows: map<nat, Row>, id: nat): Option<Row> {
    if id in rows then Some(rows[id]) else None
  }

  /** `winner(delta, tolerance)` */
  function Judge(delta: real, tolerance: real): Winner {
    if (if delta < 0.0 then -delta else delta) <= tolerance then Tie
    else if delta > 0.0 then DifyWins else ZgiWins
  }

  /** `add_score_columns` */
  function ScoreCell(dify: Option<real>, zgi: Option<real>, tolerance: real): Cell {
    if dify.None? || zgi.None? then Cell(dify, zgi, None, None)
    else
      var delta := dify.value - zgi.value;
      Cell(dify, zgi, Some(delta), Some(Judge(delta, tolerance)))
  }

  /** `composite_score`: the mean of the five metrics, if all exist. */
  function CompositeScore(scores: map<Metric, real>): Option<real> {
    if forall m :: m in METRICS ==> m in scores
    then Some(Mean(seq(|METRICS|, i requires 0 <= i < |METRICS| => assert METRICS[i] in METRICS; scores[METRICS[i]])))
    else None
  }

  function ScoreOf(row: Option<Row>, c: Column): Option<real> {
    if !Present(row) then None
    else match c
      case Of(m) => if m in row.value.scores then Some(row.value.scores[m]) else None
      case Composite => CompositeScore(row.value.scores)
  }

  function Response(row: Option<Row>): string {
    if Present(row) then row.value.response else ""
  }

  function Cells(dify: Option<Row>, zgi: Option<Row>, tolerance: real): map<Column, Cell> {
    map c | c in COLUMNS :: ScoreCell(ScoreOf(dify, c), ScoreOf(zgi, c), tolerance)
  }

  /** One iteration of `build_comparison_rows`. */
  function CompareOne(id: nat, dify: Option<Row>, zgi: Option<Row>, tolerance: real): Result<Compared, Failure> {
    if Present(dify) && Present(zgi) && dify.value.userInput != zgi.value.userInput then Err(QuestionMismatch(id))
    else if Present(dify) && Present(zgi) && dify.value.reference != zgi.value.reference then Err(ReferenceMismatch(id))
    else
      var status := if Present(dify) && Present(zgi) then Paired else if Present(dify) then MissingZgi else MissingDify;
      var source := if Present(dify) then dify.value else if Present(zgi) then zgi.value else Row("", "", "", map[]);
      Ok(Compared(id, status, source.userInput, source.reference, Response(dify), Response(zgi),
                  Cells(dify, zgi, tolerance)))
  }

  function Compare(ids: seq<nat>, dify: map<nat, Row>, zgi: map<nat, Row>, tolerance: real): Result<seq<Compared>, Failure> {
    if ids == [] then Ok([])
    else
      var init := Compare(ids[..|ids| - 1], dify, zgi, tolerance);
      var id := ids[|ids| - 1];
      if init.Err? then init
      else match CompareOne(id, Get(dify, id), Get(zgi, id), tolerance)
        case Ok(row) => Ok(init.value + [row])
        case Err(f) => Err(f)
  }

  predicate Least(s: set<nat>, m: nat) {
    m in s && forall x :: x in s ==> m <= x
  }

  lemma {:induction false} LeastExists(s: set<nat>) returns (least: nat)
    requires s != {}
    ensures Least(s, least)
    decreases |s|
  {
    var m :| m in s;
    var rest := s - {m};
    if rest == {} {
      least := m;
      assert s == {m};
    } else {
      var k := LeastExists(rest);
      least := if m <= k then m else k;
      assert s == rest + {m};
    }
  }

  lemma LeastIs(s: set<nat>)
    requires s != {}
    ensures exists m :: Least(s, m)
  {
    var m := LeastExists(s);
  }

  /** `sorted(set)` */
  function SortedIds(s: set<nat>): (ids: seq<nat>)
    ensures forall x :: x in ids <==> x in s
    ensures forall i, j :: 0 <= i < j < |ids| ==> ids[i] < ids[j]
    decreases |s|
  {
    if s == {} then []
    else
      LeastIs(s);
      var m :| Least(s, m);
      var rest := SortedIds(s - {m});
      assert forall x :: x in rest ==> x in s && m < x;
      [m] + rest
  }

  // ---------------------------------------------------------------------------
  // Summaries and verdict
  // ---------------------------------------------------------------------------

  datatype Pair = Pair(dify: real, zgi: real)

  /** The score pairs of the paired rows that have both scores. */
  function Pairs(rows: seq<Compared>, c: Column): seq<Pair> {
    if rows == [] then []
    else
      var row := rows[|rows| - 1];
      Pairs(rows[..|rows| - 1], c) +
      (if row.status == Paired && c in row.cells && row.cells[c].dify.Some? && row.cells[c].zgi.Some?
       then [Pair(row.cells[c].dify.value, row.cells[c].zgi.value)] else [])
  }

  function DifyValues(ps: seq<Pair>): seq<real> { seq(|ps|, i requires 0 <= i < |ps| => ps[i].dify) }

  function ZgiValues(ps: seq<Pair>): seq<real> { seq(|ps|, i requires 0 <= i < |ps| => ps[i].zgi) }

  function Deltas(ps: seq<Pair>): seq<real> { seq(|ps|, i requires 0 <= i < |ps| => ps[i].dify - ps[i].zgi) }

  function Count(deltas: seq<real>, tolerance: real, w: Winner): nat {
    if deltas == [] then 0
    else Count(deltas[..|deltas| - 1], tolerance, w) + if Judge(deltas[|deltas| - 1], tolerance) == w then 1 else 0
  }

  datatype Summary = NoPairs | Summary(
    paired: nat, difyMean: real, zgiMean: real, meanDelta: real, medianDelta: real,
    low: real, high: real, difyWins: nat, ties: nat, zgiWins: nat)

  /** The index draws of the seeded generator: they depend on the number of values only. */
  type Generator = nat -> seq<seq<nat>>

  ghost predicate ValidGenerator(rng: Generator) {
    forall n: nat :: ValidDraws(rng(n), n)
  }

  /** `summarize_metric` */
  function Summarize(ps: seq<Pair>, tolerance: real, draws: seq<seq<nat>>): Summary
    requires ValidDraws(draws, |ps|)
  {
    if ps == [] then NoPairs
    else FromDeltas(Mean(DifyValues(ps)), Mean(ZgiValues(ps)), Deltas(ps), tolerance, draws)
  }

  function FromDeltas(difyMean: real, zgiMean: real, deltas: seq<real>, tolerance: real, draws: seq<seq<nat>>): Summary
    requires deltas != [] && ValidDraws(draws, |deltas|)
  {
    var ci := BootstrapCI(deltas, draws);
    Summary(|deltas|, difyMean, zgiMean, Mean(deltas), Median(deltas), ci.0, ci.1,
            Count(deltas, tolerance, DifyWins), Count(deltas, tolerance, Tie), Count(deltas, tolerance, ZgiWins))
  }

  datatype Verdict = NoData | SmokeTest | DifyBetter | ZgiBetter | Undecided

  /** The branches of `overall_conclusion`. */
  function Conclude(s: Summary): Verdict {
    if s.NoPairs? then NoData
    else if s.paired == 1 then SmokeTest
    else if s.low > 0.0 then DifyBetter
    else if s.high < 0.0 then ZgiBetter
    else Undecided
  }

  datatype Report = Report(rows: seq<Compared>, summaries: map<Column, Summary>, verdict: Verdict)

  predicate AnyPaired(rows: seq<Compared>) {
    exists i :: 0 <= i < |rows| && rows[i].status == Paired
  }

  /** The comparison as `main` runs it, up to rendering. */
  ghost function MakeReport(dify: map<nat, Row>, zgi: map<nat, Row>, tolerance: real, rng: Generator): Result<Report, Failure>
    requires ValidGenerator(rng)
  {
    match Compare(SortedIds(dify.Keys + zgi.Keys), dify, zgi, tolerance)
    case Err(f) => Err(f)
    case Ok(rows) =>
      if !AnyPaired(rows) then Err(NothingComparable) else Ok(Assemble(rows, tolerance, rng))
  }

  ghost function Assemble(rows: seq<Compared>, tolerance: real, rng: Generator): Report
    requires ValidGenerator(rng)
  {
    var s := Summaries(rows, tolerance, rng);
    Report(rows, s, Conclude(s[Composite]))
  }

  ghost function SummaryOf(rows: seq<Compared>, c: Column, tolerance: real, rng: Generator): (s: Summary)
    requires ValidGenerator(rng)
    ensures s.Summary? ==> s.low <= s.high
  {
    Summarize(Pairs(rows, c), tolerance, rng(|Pairs(rows, c)|))
  }

  ghost function Summaries(rows: seq<Compared>, tolerance: real, rng: Generator): (s: map<Column, Summary>)
    requires ValidGenerator(rng)
    ensures Composite in s && s[Composite] == SummaryOf(rows, Composite, tolerance, rng)
  {
    assert COLUMNS[5] == Composite;
    map c | c in COLUMNS :: SummaryOf(rows, c, tolerance, rng)
  }

  // ---------------------------------------------------------------------------
  // Exchanging the platforms
  // ---------------------------------------------------------------------------

  function SwapWinner(w: Winner): Winner {
    match w case DifyWins => ZgiWins case ZgiWins => DifyWins case Tie => Tie
  }

  function SwapCell(x: Cell): Cell {
    Cell(x.zgi, x.dify,
         if x.delta.Some? then Some(-x.delta.value) else None,
         if x.winner.Some? then Some(SwapWinner(x.winner.value)) else None)
  }

  function SwapStatus(s: Status): Status {
    match s case Paired => Paired case MissingZgi => MissingDify case MissingDify => MissingZgi
  }

  function SwapRow(r: Compared): Compared {
    r.(status := SwapStatus(r.status), difyResponse := r.zgiResponse, zgiResponse := r.difyResponse,
       cells := map c | c in r.cells :: SwapCell(r.cells[c]))
  }

  function SwapRows(rows: seq<Compared>): seq<Compared> {
    seq(|rows|, i requires 0 <= i < |rows| => SwapRow(rows[i]))
  }

  /** Means and wins exchanged, deltas negated, the interval (low, high) turned into (-high, -low). */
  function SwapSummary(s: Summary): Summary {
    if s.NoPairs? then s
    else Summary(s.paired, s.zgiMean, s.difyMean, -s.meanDelta, -s.medianDelta, -s.high, -s.low, s.zgiWins, s.ties, s.difyWins)
  }

  function SwapVerdict(v: Verdict): Verdict {
    match v case DifyBetter => ZgiBetter case ZgiBetter => DifyBetter case _ => v
  }

  function SwapSummaries(s: map<Column, Summary>): map<Column, Summary> {
    map c | c in s :: SwapSummary(s[c])
  }

  function SwapReport(r: Report): Report {
    Report(SwapRows(r.rows), SwapSummaries(r.summaries), SwapVerdict(r.verdict))
  }

  /** The winner is exchanged with the platforms unless a negative tolerance meets a zero difference. */
  lemma JudgeSwaps(delta: real, tolerance: real)
    ensures Judge(-delta, tolerance) == SwapWinner(Judge(delta, tolerance)) <==> tolerance >= 0.0 || delta != 0.0
  {
  }

  lemma CellSwaps(x: Option<real>, y: Option<real>, tolerance: real)
    requires tolerance >= 0.0
    ensures ScoreCell(y, x, tolerance) == SwapCell(ScoreCell(x, y, tolerance))
  {
    if x.Some? && y.Some? { JudgeSwaps(x.value - y.value, tolerance); }
  }

  lemma CellsSwap(dify: Option<Row>, zgi: Option<Row>, tolerance: real)
    requires tolerance >= 0.0
    ensures Cells(zgi, dify, tolerance) == map c | c in Cells(dify, zgi, tolerance) :: SwapCell(Cells(dify, zgi, tolerance)[c])
  {
    var a, b := Cells(zgi, dify, tolerance), Cells(dify, zgi, tolerance);
    forall c | c in COLUMNS ensures a[c] == SwapCell(b[c]) {
      CellSwaps(ScoreOf(dify, c), ScoreOf(zgi, c), tolerance);
    }
  }

  function SwapResult(r: Result<Compared, Failure>): Result<Compared, Failure> {
    if r.Ok? then Ok(SwapRow(r.value)) else r
  }

  /** One row is exchanged with the platforms exactly when at least one of the two rows is present and not empty. */
  lemma RowSwaps(id: nat, dify: Option<Row>, zgi: Option<Row>, tolerance: real)
    requires tolerance >= 0.0
    ensures CompareOne(id, zgi, dify, tolerance) == SwapResult(CompareOne(id, dify, zgi, tolerance))
       <==> Present(dify) || Present(zgi)
  {
    CellsSwap(dify, zgi, tolerance);
  }

  /** A sample that has only an empty object is missing from Dify, whichever platform has it. */
  lemma EmptyRowMissesDify(id: nat, tolerance: real)
    ensures var row := CompareOne(id, Some(EmptyRow), None, tolerance);
            row.Ok? && row.value.status == MissingDify && CompareOne(id, None, Some(EmptyRow), tolerance) == row
    ensures Compare([id], map[id := EmptyRow], map[], tolerance) == Compare([id], map[], map[id := EmptyRow], tolerance)
  {
    var a, b := CompareOne(id, Some(EmptyRow), None, tolerance), CompareOne(id, None, Some(EmptyRow), tolerance);
    assert a.value.cells == b.value.cells;
    assert [id][..0] == [];
  }

  /** Some platform has a row for the sample that is not the empty object. */
  predicate Usable(id: nat, dify: map<nat, Row>, zgi: map<nat, Row>) {
    Present(Get(dify, id)) || Present(Get(zgi, id))
  }

  /** A comparison that succeeds has one row per id, in order. */
  lemma {:induction false} CompareAt(ids: seq<nat>, dify: map<nat, Row>, zgi: map<nat, Row>, tolerance: real)
    requires Compare(ids, dify, zgi, tolerance).Ok?
    ensures var rows := Compare(ids, dify, zgi, tolerance).value;
            && |rows| == |ids|
            && forall i :: 0 <= i < |ids| ==> CompareOne(ids[i], Get(dify, ids[i]), Get(zgi, ids[i]), tolerance) == Ok(rows[i])
  {
    if ids != [] { CompareAt(ids[..|ids| - 1], dify, zgi, tolerance); }
  }

  /** The comparison fails on the same sample, with the same error, whichever platform comes first. */
  lemma {:induction false} SameFailure(ids: seq<nat>, dify: map<nat, Row>, zgi: map<nat, Row>, tolerance: real)
    ensures var r, s := Compare(ids, dify, zgi, tolerance), Compare(ids, zgi, dify, tolerance);
            if r.Ok? then s.Ok? else s == r
  {
    if ids != [] { SameFailure(ids[..|ids| - 1], dify, zgi, tolerance); }
  }

  /** The rows are exchanged exactly when every sample is usable; which samples are paired never changes. */
  lemma RowsSwap(ids: seq<nat>, dify: map<nat, Row>, zgi: map<nat, Row>, tolerance: real)
    requires tolerance >= 0.0
    requires Compare(ids, dify, zgi, tolerance).Ok? && Compare(ids, zgi, dify, tolerance).Ok?
    ensures var r, s := Compare(ids, dify, zgi, tolerance).value, Compare(ids, zgi, dify, tolerance).value;
            && (s == SwapRows(r) <==> forall id :: id in ids ==> Usable(id, dify, zgi))
            && |r| == |s| && (forall i :: 0 <= i < |r| ==> (r[i].status == Paired <==> s[i].status == Paired))
  {
    var r, s := Compare(ids, dify, zgi, tolerance).value, Compare(ids, zgi, dify, tolerance).value;
    CompareAt(ids, dify, zgi, tolerance);
    CompareAt(ids, zgi, dify, tolerance);
    forall i | 0 <= i < |ids|
      ensures s[i] == SwapRow(r[i]) <==> Usable(ids[i], dify, zgi)
      ensures r[i].status == Paired <==> s[i].status == Paired
    {
      RowSwaps(ids[i], Get(dify, ids[i]), Get(zgi, ids[i]), tolerance);
    }
  }

  function SwapPairs(ps: seq<Pair>): seq<Pair> {
    seq(|ps|, i requires 0 <= i < |ps| => Pair(ps[i].zgi, ps[i].dify))
  }

  lemma {:induction false} PairsSwap(rows: seq<Compared>, c: Column)
    ensures Pairs(SwapRows(rows), c) == SwapPairs(Pairs(rows, c))
  {
    if rows != [] {
      var init, row := rows[..|rows| - 1], rows[|rows| - 1];
      PairsSwap(init, c);
      assert SwapRows(rows)[..|rows| - 1] == SwapRows(init);
    }
  }

  lemma {:induction false} CountSwap(deltas: seq<real>, tolerance: real, w: Winner)
    requires tolerance >= 0.0
    ensures Count(Neg(deltas), tolerance, SwapWinner(w)) == Count(deltas, tolerance, w)
  {
    if deltas != [] {
      var init := deltas[..|deltas| - 1];
      CountSwap(init, tolerance, w);
      assert Neg(deltas)[..|deltas| - 1] == Neg(init);
      JudgeSwaps(deltas[|deltas| - 1], tolerance);
    }
  }

  lemma CountsSwap(deltas: seq<real>, tolerance: real)
    requires tolerance >= 0.0
    ensures Count(Neg(deltas), tolerance, DifyWins) == Count(deltas, tolerance, ZgiWins)
    ensures Count(Neg(deltas), tolerance, Tie) == Count(deltas, tolerance, Tie)
    ensures Count(Neg(deltas), tolerance, ZgiWins) == Count(deltas, tolerance, DifyWins)
  {
    CountSwap(deltas, tolerance, ZgiWins);
    CountSwap(deltas, tolerance, Tie);
    CountSwap(deltas, tolerance, DifyWins);
  }

  lemma FromDeltasSwaps(difyMean: real, zgiMean: real, deltas: seq<real>, tolerance: real, draws: seq<seq<nat>>)
    requires tolerance >= 0.0 && deltas != [] && ValidDraws(draws, |deltas|)
    ensures FromDeltas(zgiMean, difyMean, Neg(deltas), tolerance, draws)
         == SwapSummary(FromDeltas(difyMean, zgiMean, deltas, tolerance, draws))
  {
    MeanNeg(deltas);
    MedianNeg(deltas);
    BootstrapNeg(deltas, draws);
    CountsSwap(deltas, tolerance);
  }

  lemma SummarySwaps(ps: seq<Pair>, tolerance: real, draws: seq<seq<nat>>)
    requires tolerance >= 0.0 && ValidDraws(draws, |ps|)
    ensures Summarize(SwapPairs(ps), tolerance, draws) == SwapSummary(Summarize(ps, tolerance, draws))
  {
    if ps != [] {
      assert Deltas(SwapPairs(ps)) == Neg(Deltas(ps));
      assert DifyValues(SwapPairs(ps)) == ZgiValues(ps) && ZgiValues(SwapPairs(ps)) == DifyValues(ps);
      FromDeltasSwaps(Mean(DifyValues(ps)), Mean(ZgiValues(ps)), Deltas(ps), tolerance, draws);
    }
  }

  /** The verdict is exchanged because the interval is never empty. */
  lemma VerdictSwaps(s: Summary)
    requires s.Summary? ==> s.low <= s.high
    ensures Conclude(SwapSummary(s)) == SwapVerdict(Conclude(s))
  {
  }

  lemma ColumnSwaps(rows: seq<Compared>, c: Column, tolerance: real, rng: Generator)
    requires tolerance >= 0.0 && ValidGenerator(rng)
    ensures SummaryOf(SwapRows(rows), c, tolerance, rng) == SwapSummary(SummaryOf(rows, c, tolerance, rng))
  {
    PairsSwap(rows, c);
    SummarySwaps(Pairs(rows, c), tolerance, rng(|Pairs(rows, c)|));
  }

  lemma SummariesSwap(rows: seq<Compared>, tolerance: real, rng: Generator)
    requires tolerance >= 0.0 && ValidGenerator(rng)
    ensures Summaries(SwapRows(rows), tolerance, rng) == SwapSummaries(Summaries(rows, tolerance, rng))
  {
    forall c | c in COLUMNS
      ensures Summaries(SwapRows(rows), tolerance, rng)[c] == SwapSummary(Summaries(rows, tolerance, rng)[c])
    {
      ColumnSwaps(rows, c, tolerance, rng);
    }
  }

  lemma AssembleSwaps(rows: seq<Compared>, tolerance: real, rng: Generator)
    requires tolerance >= 0.0 && ValidGenerator(rng)
    ensures Assemble(SwapRows(rows), tolerance, rng) == SwapReport(Assemble(rows, tolerance, rng))
  {
    SummariesSwap(rows, tolerance, rng);
    var s := Summaries(rows, tolerance, rng);
    VerdictSwaps(s[Composite]);
  }

  lemma AnyPairedSame(r: seq<Compared>, s: seq<Compared>)
    requires |r| == |s| && forall i :: 0 <= i < |r| ==> (r[i].status == Paired <==> s[i].status == Paired)
    ensures AnyPaired(r) == AnyPaired(s)
  {
  }

  /** Every sample is usable. */
  predicate AllUsable(dify: map<nat, Row>, zgi: map<nat, Row>) {
    forall id :: id in dify.Keys + zgi.Keys ==> Usable(id, dify, zgi)
  }

  /**
   The whole report: exchanging the two inputs gives the same error, or a report in which everything is
   exchanged, exactly when every sample has a row on some side that is not the empty object.
   */
  lemma ReportSwaps(dify: map<nat, Row>, zgi: map<nat, Row>, tolerance: real, rng: Generator)
    requires tolerance >= 0.0 && ValidGenerator(rng)
    ensures var r, s := MakeReport(dify, zgi, tolerance, rng), MakeReport(zgi, dify, tolerance, rng);
            && (r.Err? ==> s == r)
            && (r.Ok? ==> s.Ok? && (s.value == SwapReport(r.value) <==> AllUsable(dify, zgi)))
  {
    assert dify.Keys + zgi.Keys == zgi.Keys + dify.Keys;
    var ids := SortedIds(dify.Keys + zgi.Keys);
    SameFailure(ids, dify, zgi, tolerance);
    var r, s := Compare(ids, dify, zgi, tolerance), Compare(ids, zgi, dify, tolerance);
    if r.Ok? {
      RowsSwap(ids, dify, zgi, tolerance);
      AnyPairedSame(r.value, s.value);
      AssembleSwaps(r.value, tolerance, rng);
    }
  }

  // ---------------------------------------------------------------------------
  // What the numbers of a summary have to do with each other
  // ---------------------------------------------------------------------------

  lemma {:induction false} CountsPartition(deltas: seq<real>, tolerance: real)
    ensures Count(deltas, tolerance, DifyWins) + Count(deltas, tolerance, Tie) + Count(deltas, tolerance, ZgiWins) == |deltas|
  {
    if deltas != [] { CountsPartition(deltas[..|deltas| - 1], tolerance); }
  }

  lemma {:induction false} SumDeltas(ps: seq<Pair>)
    ensures Sum(Deltas(ps)) == Sum(DifyValues(ps)) - Sum(ZgiValues(ps))
  {
    if ps != [] {
      SumDeltas(ps[1..]);
      assert Deltas(ps)[1..] == Deltas(ps[1..]) && DifyValues(ps)[1..] == DifyValues(ps[1..]) && ZgiValues(ps)[1..] == ZgiValues(ps[1..]);
    }
  }

  lemma DivideDifference(x: real, y: real, n: real)
    requires n != 0.0
    ensures (x - y) / n == x / n - y / n
  {
  }

  lemma MeanOfDeltas(ps: seq<Pair>)
    requires ps != []
    ensures Mean(Deltas(ps)) == Mean(DifyValues(ps)) - Mean(ZgiValues(ps))
  {
    SumDeltas(ps);
    DivideDifference(Sum(DifyValues(ps)), Sum(ZgiValues(ps)), |ps| as real);
  }

  /** Every pair is won, lost or tied once, and the mean difference is the difference of the means. */
  lemma SummaryConsistent(ps: seq<Pair>, tolerance: real, draws: seq<seq<nat>>)
    requires ps != [] && ValidDraws(draws, |ps|)
    ensures var s := Summarize(ps, tolerance, draws);
            && s.difyWins + s.ties + s.zgiWins == s.paired == |ps|
            && s.meanDelta == s.difyMean - s.zgiMean
            && s.low <= s.high
  {
    CountsPartition(Deltas(ps), tolerance);
    MeanOfDeltas(ps);
  }

  /** The winner of a cell is the platform that is ahead by more than the tolerance. */
  lemma WinnerMeans(dify: real, zgi: real, tolerance: real)
    requires tolerance >= 0.0
    ensures var x := ScoreCell(Some(dify), Some(zgi), tolerance);
            && (x.winner == Some(DifyWins) <==> dify > zgi + tolerance)
            && (x.winner == Some(ZgiWins) <==> zgi > dify + tolerance)
            && x.delta == Some(dify - zgi)
  {
  }

  /** A platform is declared better exactly when at most floor(2.5%) of the resampled mean differences speak against it. */
  lemma VerdictMeaning(ps: seq<Pair>, tolerance: real, draws: seq<seq<nat>>)
    requires |ps| > 1 && ValidDraws(draws, |ps|)
    ensures var v := Conclude(Summarize(ps, tolerance, draws));
            var m := BootMeans(Deltas(ps), draws);
            var tail := (|draws| as real * 0.025).Floor;
            && (v == DifyBetter <==> CountAtMost(m, 0.0) <= tail)
            && (v == ZgiBetter <==> CountAtLeast(m, 0.0) <= tail)
  {
    IntervalMeaning(Deltas(ps), draws, 0.0);
  }

  // ---------------------------------------------------------------------------
  // The loops
  // ---------------------------------------------------------------------------

  method BuildComparisonRows(dify: map<nat, Row>, zgi: map<nat, Row>, tolerance: real) returns (r: Result<seq<Compared>, Failure>)
    ensures r == Compare(SortedIds(dify.Keys + zgi.Keys), dify, zgi, tolerance)
  {
    var ids := SortedIds(dify.Keys + zgi.Keys);
    var rows: seq<Compared> := [];
    var i := 0;
    while i < |ids|
      invariant i <= |ids| && Compare(ids[..i], dify, zgi, tolerance) == Ok(rows)
    {
      CompareSnoc(ids, i, dify, zgi, tolerance);
      var one := CompareOne(ids[i], Get(dify, ids[i]), Get(zgi, ids[i]), tolerance);
      if one.Err? {
        ErrSticks(ids, i + 1, dify, zgi, tolerance);
        return Err(one.error);
      }
      rows := rows + [one.value];
      i := i + 1;
    }
    assert ids[..i] == ids;
    r := Ok(rows);
  }

  lemma CompareSnoc(ids: seq<nat>, i: nat, dify: map<nat, Row>, zgi: map<nat, Row>, tolerance: real)
    requires i < |ids| && Compare(ids[..i], dify, zgi, tolerance).Ok?
    ensures var one := CompareOne(ids[i], Get(dify, ids[i]), Get(zgi, ids[i]), tolerance);
            Compare(ids[..i + 1], dify, zgi, tolerance) ==
              if one.Ok? then Ok(Compare(ids[..i], dify, zgi, tolerance).value + [one.value]) else Err(one.error)
  {
    assert ids[..i + 1][..i] == ids[..i];
  }

  lemma {:induction false} ErrSticks(ids: seq<nat>, n: nat, dify: map<nat, Row>, zgi: map<nat, Row>, tolerance: real)
    requires n <= |ids| && Compare(ids[..n], dify, zgi, tolerance).Err?
    ensures Compare(ids, dify, zgi, tolerance) == Compare(ids[..n], dify, zgi, tolerance)
  {
    if n == |ids| {
      assert ids[..n] == ids;
    } else {
      assert ids[..|ids| - 1][..n] == ids[..n];
      ErrSticks(ids[..|ids| - 1], n, dify, zgi, tolerance);
    }
  }

  /** The score pairs of the paired rows that have both scores. */
  method CollectPairs(rows: seq<Compared>, c: Column) returns (ps: seq<Pair>)
    ensures ps == Pairs(rows, c)
  {
    ps := [];
    var i := 0;
    while i < |rows|
      invariant i <= |rows| && ps == Pairs(rows[..i], c)
    {
      assert rows[..i + 1][..i] == rows[..i];
      var row := rows[i];
      if row.status == Paired && c in row.cells && row.cells[c].dify.Some? && row.cells[c].zgi.Some? {
        ps := ps + [Pair(row.cells[c].dify.value, row.cells[c].zgi.value)];
      }
      i := i + 1;
    }
    assert rows[..i] == rows;
  }

  /** The counting loop over the differences. */
  method CountWins(deltas: seq<real>, tolerance: real) returns (difyWins: nat, ties: nat, zgiWins: nat)
    ensures difyWins == Count(deltas, tolerance, DifyWins)
    ensures ties == Count(deltas, tolerance, Tie)
    ensures zgiWins == Count(deltas, tolerance, ZgiWins)
  {
    difyWins, ties, zgiWins := 0, 0, 0;
    var j := 0;
    while j < |deltas|
      invariant j <= |deltas|
      invariant difyWins == Count(deltas[..j], tolerance, DifyWins)
      invariant ties == Count(deltas[..j], tolerance, Tie)
      invariant zgiWins == Count(deltas[..j], tolerance, ZgiWins)
    {
      assert deltas[..j + 1][..j] == deltas[..j];
      match Judge(deltas[j], tolerance) {
        case DifyWins => difyWins := difyWins + 1;
        case Tie => ties := ties + 1;
        case ZgiWins => zgiWins := zgiWins + 1;
      }
      j := j + 1;
    }
    assert deltas[..j] == deltas;
  }

  /** `summarize_metric` */
  method SummarizeMetric(rows: seq<Compared>, c: Column, tolerance: real, rng: Generator) returns (s: Summary)
    requires ValidGenerator(rng)
    ensures s == Summarize(Pairs(rows, c), tolerance, rng(|Pairs(rows, c)|))
  {
    var ps := CollectPairs(rows, c);
    if ps == [] {
      return NoPairs;
    }
    var deltas := Deltas(ps);
    var difyWins, ties, zgiWins := CountWins(deltas, tolerance);
    var ci := BootstrapCI(deltas, rng(|ps|));
    s := Summary(|ps|, Mean(DifyValues(ps)), Mean(ZgiValues(ps)), Mean(deltas), Median(deltas), ci.0, ci.1, difyWins, ties, zgiWins);
  }
}

/**
 What the comparison report says about the two input tables (scripts/rag_evaluation/compare_rag_eval.py): which
 platform's texts and scores are in which place, and which platform wins.
 */
module ReportMeaning {
  import opened Basics
  import opened Statistics
  import opened Comparison

  /** The row has a score for the column; the composite needs all five metrics. */
  predicate Has(row: Row, c: Column) {
    row.Row? &&
    match c
    case Of(m) => m in row.scores
    case Composite =>
      && Faithfulness in row.scores && AnswerRelevancy in row.scores && ContextPrecision in row.scores
      && ContextRecall in row.scores && AnswerCorrectness in row.scores
  }

  /** That score; the composite is a fifth of the sum of the five. */
  function Value(row: Row, c: Column): real
    requires Has(row, c)
  {
    match c
    case Of(m) => row.scores[m]
    case Composite =>
      (row.scores[Faithfulness] + row.scores[AnswerRelevancy] + row.scores[ContextPrecision]
       + row.scores[ContextRecall] + row.scores[AnswerCorrectness]) / 5.0
  }

  lemma AllMetrics(m: Metric)
    ensures m in METRICS
  {
    match m
    case Faithfulness => assert METRICS[0] == m;
    case AnswerRelevancy => assert METRICS[1] == m;
    case ContextPrecision => assert METRICS[2] == m;
    case ContextRecall => assert METRICS[3] == m;
    case AnswerCorrectness => assert METRICS[4] == m;
  }

  lemma AllColumns(c: Column)
    ensures c in COLUMNS
  {
    match c
    case Composite => assert COLUMNS[5] == c;
    case Of(m) =>
      match m
      case Faithfulness => assert COLUMNS[0] == c;
      case AnswerRelevancy => assert COLUMNS[1] == c;
      case ContextPrecision => assert COLUMNS[2] == c;
      case ContextRecall => assert COLUMNS[3] == c;
      case AnswerCorrectness => assert COLUMNS[4] == c;
  }

  lemma SumOfFive(a: real, b: real, c: real, d: real, e: real)
    ensures Sum([a, b, c, d, e]) == a + b + c + d + e
  {
    assert [a, b, c, d, e][1..] == [b, c, d, e] && [b, c, d, e][1..] == [c, d, e];
    assert [c, d, e][1..] == [d, e] && [d, e][1..] == [e] && [e][1..] == [];
    assert Sum([e]) == e;
    assert Sum([d, e]) == d + e;
    assert Sum([c, d, e]) == c + (d + e);
    assert Sum([b, c, d, e]) == b + (c + (d + e));
  }

  lemma CompositeIs(s: map<Metric, real>)
    requires forall m :: m in METRICS ==> m in s
    ensures Has(Row("", "", "", s), Composite) && CompositeScore(s) == Some(Value(Row("", "", "", s), Composite))
  {
    forall m: Metric ensures m in s { AllMetrics(m); }
    SumOfFive(s[Faithfulness], s[AnswerRelevancy], s[ContextPrecision], s[ContextRecall], s[AnswerCorrectness]);
    assert seq(|METRICS|, i requires 0 <= i < |METRICS| => assert METRICS[i] in METRICS; s[METRICS[i]])
        == [s[Faithfulness], s[AnswerRelevancy], s[ContextPrecision], s[ContextRecall], s[AnswerCorrectness]];
  }

  lemma ScoreIsValue(row: Row, c: Column)
    ensures ScoreOf(Some(row), c) == if Has(row, c) then Some(Value(row, c)) else None
  {
    if row.Row? && c.Composite? {
      if forall m :: m in METRICS ==> m in row.scores {
        CompositeIs(row.scores);
      } else {
        var m :| m in METRICS && m !in row.scores;
        assert !Has(row, Composite);
      }
    }
  }

  // ---------------------------------------------------------------------------
  // Rows
  // ---------------------------------------------------------------------------

  /** What the cell of one platform must hold for a sample. */
  function Expected(table: map<nat, Row>, id: nat, c: Column): Option<real> {
    if id in table && Has(table[id], c) then Some(Value(table[id], c)) else None
  }

  function Answer(table: map<nat, Row>, id: nat): string {
    if id in table && table[id].Row? then table[id].response else ""
  }

  lemma ScoreIsExpected(table: map<nat, Row>, id: nat, c: Column)
    ensures ScoreOf(Get(table, id), c) == Expected(table, id, c)
  {
    if id in table { ScoreIsValue(table[id], c); }
  }

  /** The comparison row of a sample: its id, its texts, and each platform's own answer and scores in that platform's place. */
  ghost predicate Carries(row: Compared, id: nat, dify: map<nat, Row>, zgi: map<nat, Row>) {
    && row.sampleId == id && row.difyResponse == Answer(dify, id) && row.zgiResponse == Answer(zgi, id)
    && (row.status == Paired <==> id in dify && dify[id].Row? && id in zgi && zgi[id].Row?)
    && (row.status == MissingZgi <==> id in dify && dify[id].Row? && !(id in zgi && zgi[id].Row?))
    && (id in dify && dify[id].Row? ==> row.userInput == dify[id].userInput && row.reference == dify[id].reference)
    && (id in zgi && zgi[id].Row? ==> row.userInput == zgi[id].userInput && row.reference == zgi[id].reference)
    && forall c :: c in row.cells && row.cells[c].dify == Expected(dify, id, c) && row.cells[c].zgi == Expected(zgi, id, c)
  }

  lemma OneCarries(id: nat, dify: map<nat, Row>, zgi: map<nat, Row>, tolerance: real)
    requires CompareOne(id, Get(dify, id), Get(zgi, id), tolerance).Ok?
    ensures Carries(CompareOne(id, Get(dify, id), Get(zgi, id), tolerance).value, id, dify, zgi)
  {
    var row := CompareOne(id, Get(dify, id), Get(zgi, id), tolerance).value;
    forall c ensures c in row.cells && row.cells[c].dify == Expected(dify, id, c) && row.cells[c].zgi == Expected(zgi, id, c) {
      AllColumns(c);
      ScoreIsExpected(dify, id, c);
      ScoreIsExpected(zgi, id, c);
    }
  }

  /** A report has one row per sample of either table, in increasing order, and each row carries what belongs to it. */
  lemma RowsCarry(dify: map<nat, Row>, zgi: map<nat, Row>, tolerance: real, rng: Generator, i: nat)
    requires ValidGenerator(rng) && MakeReport(dify, zgi, tolerance, rng).Ok?
    ensures var rows, ids := MakeReport(dify, zgi, tolerance, rng).value.rows, SortedIds(dify.Keys + zgi.Keys);
            |rows| == |ids| && (i < |ids| ==> Carries(rows[i], ids[i], dify, zgi))
  {
    var ids := SortedIds(dify.Keys + zgi.Keys);
    CompareAt(ids, dify, zgi, tolerance);
    if i < |ids| { OneCarries(ids[i], dify, zgi, tolerance); }
  }

  // ---------------------------------------------------------------------------
  // When there is a report
  // ---------------------------------------------------------------------------

  predicate InBoth(id: nat, dify: map<nat, Row>, zgi: map<nat, Row>) {
    id in dify && dify[id].Row? && id in zgi && zgi[id].Row?
  }

  /** The failure names a sample whose texts differ between the platforms. */
  predicate Justified(f: Failure, dify: map<nat, Row>, zgi: map<nat, Row>) {
    match f
    case QuestionMismatch(id) => InBoth(id, dify, zgi) && dify[id].userInput != zgi[id].userInput
    case ReferenceMismatch(id) => InBoth(id, dify, zgi) && dify[id].reference != zgi[id].reference
    case NothingComparable => forall id :: id in dify ==> !InBoth(id, dify, zgi)
  }

  /** The platforms agree on the texts of a sample. */
  predicate SameTexts(id: nat, dify: map<nat, Row>, zgi: map<nat, Row>) {
    InBoth(id, dify, zgi) ==> dify[id].userInput == zgi[id].userInput && dify[id].reference == zgi[id].reference
  }

  lemma {:induction false} ComparesExactly(ids: seq<nat>, dify: map<nat, Row>, zgi: map<nat, Row>, tolerance: real)
    ensures var r := Compare(ids, dify, zgi, tolerance);
            && (r.Ok? <==> forall id :: id in ids ==> SameTexts(id, dify, zgi))
            && (r.Err? ==> !r.error.NothingComparable? && Justified(r.error, dify, zgi))
  {
    if ids != [] {
      var init, id := ids[..|ids| - 1], ids[|ids| - 1];
      InitLast(ids);
      ComparesExactly(init, dify, zgi, tolerance);
      assert id in ids && forall x :: x in init ==> x in ids;
      assert CompareOne(id, Get(dify, id), Get(zgi, id), tolerance).Ok? <==> SameTexts(id, dify, zgi);
    }
  }

  lemma AnyPairedExactly(ids: seq<nat>, dify: map<nat, Row>, zgi: map<nat, Row>, tolerance: real)
    requires Compare(ids, dify, zgi, tolerance).Ok?
    ensures AnyPaired(Compare(ids, dify, zgi, tolerance).value) <==> exists id :: id in ids && InBoth(id, dify, zgi)
  {
    var rows := Compare(ids, dify, zgi, tolerance).value;
    CompareAt(ids, dify, zgi, tolerance);
    forall i | 0 <= i < |ids| ensures rows[i].status == Paired <==> InBoth(ids[i], dify, zgi) {
      OneCarries(ids[i], dify, zgi, tolerance);
    }
    if id :| id in ids && InBoth(id, dify, zgi) {
      var i :| 0 <= i < |ids| && ids[i] == id;
      assert rows[i].status == Paired;
    }
    if AnyPaired(rows) {
      var i :| 0 <= i < |rows| && rows[i].status == Paired;
      assert ids[i] in ids;
    }
  }

  /**
   There is a report exactly when the platforms agree on the question and reference of every sample they share, and
   share at least one; otherwise the failure names a sample they disagree on, or says that they share none.
   */
  lemma ReportExactly(dify: map<nat, Row>, zgi: map<nat, Row>, tolerance: real, rng: Generator)
    requires ValidGenerator(rng)
    ensures var r := MakeReport(dify, zgi, tolerance, rng);
            && (r.Ok? <==> (forall id :: id in dify ==> SameTexts(id, dify, zgi)) && exists id :: id in dify && InBoth(id, dify, zgi))
            && (r.Err? ==> Justified(r.error, dify, zgi))
  {
    var ids := SortedIds(dify.Keys + zgi.Keys);
    ComparesExactly(ids, dify, zgi, tolerance);
    assert forall id :: id in dify ==> id in ids;
    if Compare(ids, dify, zgi, tolerance).Ok? { AnyPairedExactly(ids, dify, zgi, tolerance); }
  }

  // ---------------------------------------------------------------------------
  // Summaries
  // ---------------------------------------------------------------------------

  predicate BothHave(id: nat, dify: map<nat, Row>, zgi: map<nat, Row>, c: Column) {
    Expected(dify, id, c).Some? && Expected(zgi, id, c).Some?
  }

  /** The samples, of some, for which both platforms have a score in the column. */
  function Scored(ids: seq<nat>, dify: map<nat, Row>, zgi: map<nat, Row>, c: Column): seq<nat> {
    if ids == [] then []
    else
      var init, id := Scored(ids[..|ids| - 1], dify, zgi, c), ids[|ids| - 1];
      if BothHave(id, dify, zgi, c) then init + [id] else init
  }

  lemma {:induction false} ScoredMember(ids: seq<nat>, dify: map<nat, Row>, zgi: map<nat, Row>, c: Column, id: nat)
    ensures id in Scored(ids, dify, zgi, c) <==> id in ids && BothHave(id, dify, zgi, c)
  {
    if ids != [] {
      InitLast(ids);
      ScoredMember(ids[..|ids| - 1], dify, zgi, c, id);
    }
  }

  /** The samples of two tables that both have a score in the column, in increasing order. */
  function Samples(dify: map<nat, Row>, zgi: map<nat, Row>, c: Column): seq<nat> {
    Scored(SortedIds(dify.Keys + zgi.Keys), dify, zgi, c)
  }

  lemma SamplesExactly(dify: map<nat, Row>, zgi: map<nat, Row>, c: Column, id: nat)
    ensures id in Samples(dify, zgi, c) <==> BothHave(id, dify, zgi, c)
  {
    ScoredMember(SortedIds(dify.Keys + zgi.Keys), dify, zgi, c, id);
  }

  /** The score of a sample that has one. */
  function Score(table: map<nat, Row>, id: nat, c: Column): real {
    var x := Expected(table, id, c);
    if x.Some? then x.value else 0.0
  }

  function Scores(ids: seq<nat>, table: map<nat, Row>, c: Column): seq<real> {
    seq(|ids|, i requires 0 <= i < |ids| => Score(table, ids[i], c))
  }

  lemma ScoresSnoc(ids: seq<nat>, id: nat, table: map<nat, Row>, c: Column)
    ensures Scores(ids + [id], table, c) == Scores(ids, table, c) + [Score(table, id, c)]
  {
  }

  lemma PairsSnoc(rows: seq<Compared>, row: Compared, c: Column)
    requires c in row.cells
    ensures var before, after, cell := Pairs(rows, c), Pairs(rows + [row], c), row.cells[c];
            if row.status == Paired && cell.dify.Some? && cell.zgi.Some?
            then DifyValues(after) == DifyValues(before) + [cell.dify.value] && ZgiValues(after) == ZgiValues(before) + [cell.zgi.value]
            else after == before
  {
    assert (rows + [row])[..|rows|] == rows;
  }

  lemma {:induction false} PairsAre(ids: seq<nat>, dify: map<nat, Row>, zgi: map<nat, Row>, tolerance: real, c: Column)
    requires Compare(ids, dify, zgi, tolerance).Ok?
    ensures DifyValues(Pairs(Compare(ids, dify, zgi, tolerance).value, c)) == Scores(Scored(ids, dify, zgi, c), dify, c)
    ensures ZgiValues(Pairs(Compare(ids, dify, zgi, tolerance).value, c)) == Scores(Scored(ids, dify, zgi, c), zgi, c)
  {
    if ids != [] {
      var init, id := ids[..|ids| - 1], ids[|ids| - 1];
      PairsAre(init, dify, zgi, tolerance, c);
      OneCarries(id, dify, zgi, tolerance);
      var row := CompareOne(id, Get(dify, id), Get(zgi, id), tolerance).value;
      assert c in row.cells;
      PairsSnoc(Compare(init, dify, zgi, tolerance).value, row, c);
      ScoresSnoc(Scored(init, dify, zgi, c), id, dify, c);
      ScoresSnoc(Scored(init, dify, zgi, c), id, zgi, c);
    }
  }

  /** As many times the mean as there are values is their sum. */
  predicate IsMean(mean: real, s: seq<real>) {
    |s| as real * mean == Sum(s)
  }

  lemma MeanIs(s: seq<real>)
    requires s != []
    ensures IsMean(Mean(s), s)
  {
    MeanTimes(s);
  }

  /** On how many of some samples the first table is ahead by more than the tolerance. */
  function Ahead(ids: seq<nat>, a: map<nat, Row>, b: map<nat, Row>, c: Column, tolerance: real): nat {
    if ids == [] then 0
    else
      var id := ids[|ids| - 1];
      Ahead(ids[..|ids| - 1], a, b, c, tolerance) + if Score(a, id, c) > Score(b, id, c) + tolerance then 1 else 0
  }

  function Differences(ids: seq<nat>, a: map<nat, Row>, b: map<nat, Row>, c: Column): seq<real> {
    seq(|ids|, i requires 0 <= i < |ids| => Score(a, ids[i], c) - Score(b, ids[i], c))
  }

  lemma JudgeAhead(x: real, y: real, tolerance: real)
    requires tolerance >= 0.0
    ensures Judge(x - y, tolerance) == DifyWins <==> x > y + tolerance
    ensures Judge(x - y, tolerance) == ZgiWins <==> y > x + tolerance
  {
  }

  lemma DifferencesInit(ids: seq<nat>, a: map<nat, Row>, b: map<nat, Row>, c: Column)
    requires ids != []
    ensures var d, n := Differences(ids, a, b, c), |ids| - 1;
            |d| == |ids| && d[..n] == Differences(ids[..n], a, b, c) && d[n] == Score(a, ids[n], c) - Score(b, ids[n], c)
  {
  }

  lemma {:induction false} CountsAhead(ids: seq<nat>, dify: map<nat, Row>, zgi: map<nat, Row>, c: Column, tolerance: real)
    requires tolerance >= 0.0
    ensures Count(Differences(ids, dify, zgi, c), tolerance, DifyWins) == Ahead(ids, dify, zgi, c, tolerance)
    ensures Count(Differences(ids, dify, zgi, c), tolerance, ZgiWins) == Ahead(ids, zgi, dify, c, tolerance)
  {
    if ids != [] {
      var id := ids[|ids| - 1];
      CountsAhead(ids[..|ids| - 1], dify, zgi, c, tolerance);
      DifferencesInit(ids, dify, zgi, c);
      JudgeAhead(Score(dify, id, c), Score(zgi, id, c), tolerance);
    }
  }

  /** The pairs of two lists of scores, and their differences. */
  lemma DeltasAre(ps: seq<Pair>, ids: seq<nat>, dify: map<nat, Row>, zgi: map<nat, Row>, c: Column)
    requires DifyValues(ps) == Scores(ids, dify, c) && ZgiValues(ps) == Scores(ids, zgi, c)
    ensures |ps| == |ids| && Deltas(ps) == Differences(ids, dify, zgi, c)
  {
    assert |ps| == |DifyValues(ps)|;
    forall i | 0 <= i < |ids| ensures Deltas(ps)[i] == Differences(ids, dify, zgi, c)[i] {
      assert DifyValues(ps)[i] == Scores(ids, dify, c)[i] && ZgiValues(ps)[i] == Scores(ids, zgi, c)[i];
    }
  }

  /** The summary of a column, read off the two tables. */
  ghost predicate SummaryMeans(s: Summary, ids: seq<nat>, dify: map<nat, Row>, zgi: map<nat, Row>, c: Column, tolerance: real) {
    && (s.NoPairs? <==> ids == [])
    && (s.Summary? ==>
          && s.paired == |ids|
          && IsMean(s.difyMean, Scores(ids, dify, c)) && IsMean(s.zgiMean, Scores(ids, zgi, c))
          && s.difyWins == Ahead(ids, dify, zgi, c, tolerance)
          && s.zgiWins == Ahead(ids, zgi, dify, c, tolerance)
          && s.difyWins + s.ties + s.zgiWins == |ids|
          && Percentile(Differences(ids, dify, zgi, c), 0.5) == Some(s.medianDelta))
  }

  lemma SummaryParts(ps: seq<Pair>, tolerance: real, draws: seq<seq<nat>>)
    requires ps != [] && ValidDraws(draws, |ps|)
    ensures var s := Summarize(ps, tolerance, draws);
            && s.Summary? && s.paired == |ps|
            && s.difyMean == Mean(DifyValues(ps)) && s.zgiMean == Mean(ZgiValues(ps))
            && s.difyWins == Count(Deltas(ps), tolerance, DifyWins) && s.zgiWins == Count(Deltas(ps), tolerance, ZgiWins)
            && s.difyWins + s.ties + s.zgiWins == |ps|
            && Percentile(Deltas(ps), 0.5) == Some(s.medianDelta)
  {
    SummaryConsistent(ps, tolerance, draws);
    MedianIsP50(Deltas(ps));
  }

  lemma SummarizeMeans(ps: seq<Pair>, ids: seq<nat>, dify: map<nat, Row>, zgi: map<nat, Row>, c: Column,
                       tolerance: real, draws: seq<seq<nat>>)
    requires tolerance >= 0.0 && ValidDraws(draws, |ps|)
    requires DifyValues(ps) == Scores(ids, dify, c) && ZgiValues(ps) == Scores(ids, zgi, c)
    ensures SummaryMeans(Summarize(ps, tolerance, draws), ids, dify, zgi, c, tolerance)
  {
    DeltasAre(ps, ids, dify, zgi, c);
    if ps != [] {
      SummaryParts(ps, tolerance, draws);
      SummaryFrom(Summarize(ps, tolerance, draws), ids, dify, zgi, c, tolerance);
    }
  }

  lemma SummaryFrom(s: Summary, ids: seq<nat>, dify: map<nat, Row>, zgi: map<nat, Row>, c: Column, tolerance: real)
    requires tolerance >= 0.0 && ids != [] && s.Summary? && s.paired == |ids|
    requires s.difyMean == Mean(Scores(ids, dify, c)) && s.zgiMean == Mean(Scores(ids, zgi, c))
    requires s.difyWins == Count(Differences(ids, dify, zgi, c), tolerance, DifyWins)
    requires s.zgiWins == Count(Differences(ids, dify, zgi, c), tolerance, ZgiWins)
    requires s.difyWins + s.ties + s.zgiWins == |ids|
    requires Percentile(Differences(ids, dify, zgi, c), 0.5) == Some(s.medianDelta)
    ensures SummaryMeans(s, ids, dify, zgi, c, tolerance)
  {
    MeanIs(Scores(ids, dify, c));
    MeanIs(Scores(ids, zgi, c));
    CountsAhead(ids, dify, zgi, c, tolerance);
  }

  lemma ColumnMeans(dify: map<nat, Row>, zgi: map<nat, Row>, tolerance: real, rng: Generator, c: Column)
    requires tolerance >= 0.0 && ValidGenerator(rng) && MakeReport(dify, zgi, tolerance, rng).Ok?
    ensures var r := MakeReport(dify, zgi, tolerance, rng).value;
            c in r.summaries && SummaryMeans(r.summaries[c], Samples(dify, zgi, c), dify, zgi, c, tolerance)
  {
    AllColumns(c);
    var ids := SortedIds(dify.Keys + zgi.Keys);
    PairsAre(ids, dify, zgi, tolerance, c);
    var ps := Pairs(Compare(ids, dify, zgi, tolerance).value, c);
    SummarizeMeans(ps, Samples(dify, zgi, c), dify, zgi, c, tolerance, rng(|ps|));
  }

  lemma VerdictOfSummary(dify: map<nat, Row>, zgi: map<nat, Row>, tolerance: real, rng: Generator)
    requires ValidGenerator(rng) && MakeReport(dify, zgi, tolerance, rng).Ok?
    ensures var r := MakeReport(dify, zgi, tolerance, rng).value;
            Composite in r.summaries && r.verdict == Conclude(r.summaries[Composite])
  {
  }

  lemma Withheld(s: Summary, ids: seq<nat>, dify: map<nat, Row>, zgi: map<nat, Row>, c: Column, tolerance: real)
    requires SummaryMeans(s, ids, dify, zgi, c, tolerance)
    ensures (Conclude(s) == NoData <==> ids == []) && (Conclude(s) == SmokeTest <==> |ids| == 1)
  {
  }

  /**
   In every report: the number of pairs, the means and the wins of each column are those of the samples that both
   tables have a score for, each platform's from its own table; and the verdict is withheld for none and for one.
   */
  lemma ReportMeans(dify: map<nat, Row>, zgi: map<nat, Row>, tolerance: real, rng: Generator, c: Column)
    requires tolerance >= 0.0 && ValidGenerator(rng) && MakeReport(dify, zgi, tolerance, rng).Ok?
    ensures var r := MakeReport(dify, zgi, tolerance, rng).value;
            && c in r.summaries && SummaryMeans(r.summaries[c], Samples(dify, zgi, c), dify, zgi, c, tolerance)
            && (r.verdict == NoData <==> Samples(dify, zgi, Composite) == [])
            && (r.verdict == SmokeTest <==> |Samples(dify, zgi, Composite)| == 1)
  {
    ColumnMeans(dify, zgi, tolerance, rng, c);
    ColumnMeans(dify, zgi, tolerance, rng, Composite);
    VerdictOfSummary(dify, zgi, tolerance, rng);
    Withheld(MakeReport(dify, zgi, tolerance, rng).value.summaries[Composite], Samples(dify, zgi, Composite),
             dify, zgi, Composite, tolerance);
  }

  /** The interval of a column says where the resampled means of the differences of these samples lie. */
  lemma ReportInterval(dify: map<nat, Row>, zgi: map<nat, Row>, tolerance: real, rng: Generator, c: Column, x: real)
    requires ValidGenerator(rng) && MakeReport(dify, zgi, tolerance, rng).Ok? && |Samples(dify, zgi, c)| > 1
    ensures var r, d := MakeReport(dify, zgi, tolerance, rng).value, Differences(Samples(dify, zgi, c), dify, zgi, c);
            var m := BootMeans(d, rng(|d|));
            var tail := (|rng(|d|)| as real * 0.025).Floor;
            && c in r.summaries && r.summaries[c].Summary?
            && (r.summaries[c].low > x <==> CountAtMost(m, x) <= tail)
            && (r.summaries[c].high < x <==> CountAtLeast(m, x) <= tail)
  {
    AllColumns(c);
    var all, ids := SortedIds(dify.Keys + zgi.Keys), Samples(dify, zgi, c);
    PairsAre(all, dify, zgi, tolerance, c);
    var ps := Pairs(Compare(all, dify, zgi, tolerance).value, c);
    DeltasAre(ps, ids, dify, zgi, c);
    IntervalMeaning(Deltas(ps), rng(|ps|), x);
  }

  // ---------------------------------------------------------------------------
  // The better platform wins
  // ---------------------------------------------------------------------------

  lemma {:induction false} SumPositive(s: seq<real>)
    requires s != [] && forall i :: 0 <= i < |s| ==> s[i] > 0.0
    ensures Sum(s) > 0.0
  {
    if |s| > 1 {
      SumPositive(s[1..]);
    } else {
      assert s[1..] == [];
    }
  }

  lemma DividePositive(x: real, n: real)
    requires x > 0.0 && n > 0.0
    ensures x / n > 0.0
  {
  }

  lemma MeanPositive(s: seq<real>)
    requires s != [] && forall i :: 0 <= i < |s| ==> s[i] > 0.0
    ensures Mean(s) > 0.0
  {
    SumPositive(s);
    DividePositive(Sum(s), |s| as real);
  }

  /** When every value is positive, so is the whole bootstrap interval, whatever is drawn. */
  lemma IntervalPositive(values: seq<real>, draws: seq<seq<nat>>)
    requires values != [] && ValidDraws(draws, |values|) && forall i :: 0 <= i < |values| ==> values[i] > 0.0
    ensures BootstrapCI(values, draws).0 > 0.0
  {
    if |values| > 1 {
      var m := BootMeans(values, draws);
      forall i | 0 <= i < |m| ensures m[i] > 0.0 { MeanPositive(Resample(values, draws[i])); }
      IndicesMirror(|m|);
      SortMember(m, Sort(m)[LowIndex(|m|)]);
    }
  }

  lemma PositiveSummary(ps: seq<Pair>, tolerance: real, draws: seq<seq<nat>>)
    requires ps != [] && ValidDraws(draws, |ps|) && forall i :: 0 <= i < |ps| ==> Deltas(ps)[i] > 0.0
    ensures var s := Summarize(ps, tolerance, draws); s.Summary? && s.difyMean > s.zgiMean && s.low > 0.0
  {
    MeanPositive(Deltas(ps));
    IntervalPositive(Deltas(ps), draws);
    SummaryConsistent(ps, tolerance, draws);
  }

  /**
   If Dify's score is greater on every sample that both have one for, its mean is greater and the interval of the
   differences is positive, whatever is drawn; on the composite column of at least two samples Dify is declared better.
   */
  lemma BetterWins(dify: map<nat, Row>, zgi: map<nat, Row>, tolerance: real, rng: Generator, c: Column)
    requires ValidGenerator(rng) && MakeReport(dify, zgi, tolerance, rng).Ok?
    requires Samples(dify, zgi, c) != []
    requires forall id :: id in Samples(dify, zgi, c) ==> Score(dify, id, c) > Score(zgi, id, c)
    ensures var r := MakeReport(dify, zgi, tolerance, rng).value;
            && c in r.summaries && r.summaries[c].Summary?
            && r.summaries[c].difyMean > r.summaries[c].zgiMean && r.summaries[c].low > 0.0
            && (c == Composite && |Samples(dify, zgi, c)| >= 2 ==> r.verdict == DifyBetter)
  {
    AllColumns(c);
    var all, ids := SortedIds(dify.Keys + zgi.Keys), Samples(dify, zgi, c);
    PairsAre(all, dify, zgi, tolerance, c);
    var ps := Pairs(Compare(all, dify, zgi, tolerance).value, c);
    DeltasAre(ps, ids, dify, zgi, c);
    forall i | 0 <= i < |ps| ensures Deltas(ps)[i] > 0.0 {
      assert Differences(ids, dify, zgi, c)[i] == Score(dify, ids[i], c) - Score(zgi, ids[i], c) && ids[i] in ids;
    }
    PositiveSummary(ps, tolerance, rng(|ps|));
    VerdictOfSummary(dify, zgi, tolerance, rng);
  }
}

/**
 The identity of a sample through the evaluation pipeline: one QA file, read by two scripts with their own
 limits (scripts/rag_evaluation/run_ragas_eval.py, run_dify_eval.py), answered by two platforms, filtered,
 scored by Ragas in batches, tagged with sample ids again, and loaded and paired by
 scripts/rag_evaluation/compare_rag_eval.py.

 The backends and the Ragas scorer are parameters.
 */
module SampleIdentity {
  import opened Basics
  import opened Comparison
  import opened Text

  // ---------------------------------------------------------------------------
  // Reading the QA file
  // ---------------------------------------------------------------------------

  /** A cleaned row of the input file; a missing cell is the empty string. */
  datatype QA = QA(question: string, reference: string)

  function Keep(rows: seq<QA>): seq<QA> {
    if rows == [] then []
    else
      var init, row := Keep(rows[..|rows| - 1]), rows[|rows| - 1];
      if row.question != "" && row.reference != "" then init + [row] else init
  }

  /** Keeping works piece by piece, so it keeps the order. */
  lemma {:induction false} KeepConcat(a: seq<QA>, b: seq<QA>)
    ensures Keep(a + b) == Keep(a) + Keep(b)
  {
    if b == [] {
      assert a + b == a;
    } else {
      KeepConcat(a, b[..|b| - 1]);
      assert (a + b)[..|a + b| - 1] == a + b[..|b| - 1];
    }
  }

  /** Exactly the complete rows are kept. */
  lemma {:induction false} KeepExactly(rows: seq<QA>, row: QA)
    ensures row in Keep(rows) <==> row in rows && row.question != "" && row.reference != ""
  {
    if rows != [] {
      KeepExactly(rows[..|rows| - 1], row);
      InitLast(rows);
    }
  }

  /** A positive limit cuts a list, any other leaves it. */
  function Limit<T>(s: seq<T>, limit: int): seq<T> {
    if 0 < limit < |s| then s[..limit] else s
  }

  /** A limited list is a beginning of the list: as many as the limit says, or all. */
  lemma LimitIs<T>(s: seq<T>, limit: int)
    ensures Limit(s, limit) <= s
    ensures |Limit(s, limit)| == if limit > 0 then Min(limit, |s|) else |s|
  {
  }

  lemma {:induction false} KeepPrefix(rows: seq<QA>, n: nat)
    requires n <= |rows|
    ensures Keep(rows[..n]) <= Keep(rows)
  {
    if n == |rows| {
      assert rows[..n] == rows;
    } else {
      assert rows[..|rows| - 1][..n] == rows[..n];
      KeepPrefix(rows[..|rows| - 1], n);
    }
  }

  /** `read_qa_items`: the loop stops as soon as the limit is reached. */
  method ReadQaItems(rows: seq<QA>, limit: int) returns (items: seq<QA>)
    ensures items == Limit(Keep(rows), limit)
  {
    items := [];
    var i := 0;
    while i < |rows|
      invariant i <= |rows| && items == Keep(rows[..i])
      invariant limit > 0 ==> |items| < limit
    {
      assert rows[..i + 1][..i] == rows[..i];
      var row := rows[i];
      if row.question != "" && row.reference != "" {
        items := items + [row];
        if limit > 0 && |items| >= limit {
          KeepPrefix(rows, i + 1);
          return;
        }
      }
      i := i + 1;
    }
    assert rows[..i] == rows;
  }

  // ---------------------------------------------------------------------------
  // Collecting answers
  // ---------------------------------------------------------------------------

  datatype DatasetRow = DatasetRow(sampleId: nat, userInput: string, response: string, reference: string, error: string)

  /** How a Dify request finally ends, after its retries. */
  datatype DifyReply = Answered(answer: string) | HttpError(status: nat, message: string) | Unreachable(reason: string)

  datatype PipelineError =
    | AuthenticationFailed | WrongBatchSize | WrongRowCount | NoRowsToScore | IdentityLost
    | BadSampleId | DuplicateSampleId(id: nat)

  function DifyRow(id: nat, qa: QA, reply: DifyReply): DatasetRow {
    match reply
    case Answered(a) =>
      var blank := Strip(a, PySpace) == "";
      DatasetRow(id, qa.question, a, qa.reference, if blank then "Dify response does not contain a non-empty answer" else "")
    case HttpError(_, message) => DatasetRow(id, qa.question, "", qa.reference, "HTTP " + message)
    case Unreachable(reason) => DatasetRow(id, qa.question, "", qa.reference, "connection error: " + reason)
  }

  predicate Refused(reply: DifyReply) {
    reply.HttpError? && reply.status in {401, 403}
  }

  /** `collect_dify_rows` */
  function CollectDify(items: seq<QA>, replies: nat -> DifyReply): Result<seq<DatasetRow>, PipelineError> {
    if items == [] then Ok([])
    else
      var init := CollectDify(items[..|items| - 1], replies);
      var reply := replies(|items|);
      if init.Err? then init
      else if Refused(reply) then Err(AuthenticationFailed)
      else Ok(init.value + [DifyRow(|items|, items[|items| - 1], reply)])
  }

  /** What the ZGI backend says about one question. */
  datatype ZgiItem = ZgiItem(response: string, error: string)

  /** The answer to a request, which may depend on the number of the batch as well as on its questions. */
  type Backend = (nat, seq<string>) -> seq<ZgiItem>

  function Questions(items: seq<QA>): seq<string> {
    seq(|items|, i requires 0 <= i < |items| => items[i].question)
  }

  function BatchSize(value: int, default: nat): nat {
    if value <= 0 then default else value
  }

  const DEFAULT_BATCH: nat := 10

  /** `call_rag_evaluation`: one request per batch, each checked for its number of rows. */
  function CallZgi(questions: seq<string>, size: nat, backend: Backend, batch: nat := 0): Result<seq<ZgiItem>, PipelineError>
    requires size > 0
    decreases |questions|
  {
    if questions == [] then Ok([])
    else
      var n := if size <= |questions| then size else |questions|;
      var items := backend(batch, questions[..n]);
      if |items| != n then Err(WrongBatchSize)
      else match CallZgi(questions[n..], size, backend, batch + 1)
        case Ok(rest) => Ok(items + rest)
        case Err(e) => Err(e)
  }

  /** `build_ragas_rows` */
  function BuildZgi(items: seq<QA>, evals: seq<ZgiItem>): Result<seq<DatasetRow>, PipelineError> {
    if |evals| != |items| then Err(WrongRowCount)
    else Ok(seq(|items|, i requires 0 <= i < |items| =>
      DatasetRow(i + 1, items[i].question, evals[i].response, items[i].reference, evals[i].error)))
  }

  /** Row i carries sample id i + 1 and the texts of item i. */
  predicate Numbered(rows: seq<DatasetRow>, items: seq<QA>) {
    && |rows| == |items|
    && forall i :: 0 <= i < |rows| ==>
         rows[i].sampleId == i + 1 && rows[i].userInput == items[i].question && rows[i].reference == items[i].reference
  }

  lemma {:induction false} DifyNumbered(items: seq<QA>, replies: nat -> DifyReply)
    requires CollectDify(items, replies).Ok?
    ensures Numbered(CollectDify(items, replies).value, items)
  {
    if items != [] { DifyNumbered(items[..|items| - 1], replies); }
  }

  /** Collecting stops only when the API key is refused; every other failure becomes a row. */
  lemma {:induction false} DifyStops(items: seq<QA>, replies: nat -> DifyReply)
    ensures CollectDify(items, replies).Err? <==>
      exists i :: 1 <= i <= |items| && replies(i).HttpError? && (replies(i).status == 401 || replies(i).status == 403)
  {
    if items != [] { DifyStops(items[..|items| - 1], replies); }
  }

  /** All batches together hold one row per question, whatever the batch size. */
  lemma {:induction false} ZgiComplete(questions: seq<string>, size: nat, backend: Backend, batch: nat := 0)
    requires size > 0 && CallZgi(questions, size, backend, batch).Ok?
    ensures |CallZgi(questions, size, backend, batch).value| == |questions|
    decreases |questions|
  {
    if questions != [] {
      var n := if size <= |questions| then size else |questions|;
      ZgiComplete(questions[n..], size, backend, batch + 1);
    }
  }

  // ---------------------------------------------------------------------------
  // Scoring
  // ---------------------------------------------------------------------------

  datatype MetricRow = MetricRow(userInput: string, response: string, reference: string)

  /** The sample id of a result row as JSON may hold it. */
  datatype RawId = Missing | Number(n: int) | Unparsable

  datatype Tagged = Tagged(id: RawId, row: Row)

  /** What Ragas returns for a batch, which may depend on the number of the batch as well as on its rows. */
  type Scorer = (nat, seq<MetricRow>) -> seq<Row>

  /** A result row with the question, the answer and the reference of a row that was scored. */
  predicate Keeps(r: Row, m: MetricRow) {
    r.Row? && r.userInput == m.userInput && r.response == m.response && r.reference == m.reference
  }

  /** What is assumed of Ragas: one row per input, in order, with its texts. */
  ghost predicate Faithful(score: Scorer) {
    forall k: nat, b: seq<MetricRow> :: |score(k, b)| == |b| && forall i :: 0 <= i < |b| ==> Keeps(score(k, b)[i], b[i])
  }

  /** The row is what Ragas returned, at its place in some batch, for exactly the row's own texts. */
  ghost predicate FromRagas(score: Scorer, r: Row) {
    exists k: nat, b: seq<MetricRow>, j: nat :: j < |b| && j < |score(k, b)| && score(k, b)[j] == r && Keeps(r, b[j])
  }

  function Eligible(rows: seq<DatasetRow>): seq<DatasetRow> {
    if rows == [] then []
    else
      var init, row := Eligible(rows[..|rows| - 1]), rows[|rows| - 1];
      if row.response != "" && row.error == "" then init + [row] else init
  }

  function MetricOf(row: DatasetRow): MetricRow {
    MetricRow(row.userInput, row.response, row.reference)
  }

  function MetricRows(rows: seq<DatasetRow>): seq<MetricRow> {
    seq(|rows|, i requires 0 <= i < |rows| => MetricOf(rows[i]))
  }

  function ScoreBatches(rows: seq<MetricRow>, size: nat, score: Scorer, batch: nat := 0): seq<Row>
    requires size > 0
    decreases |rows|
  {
    if rows == [] then []
    else
      var n := if size <= |rows| then size else |rows|;
      score(batch, rows[..n]) + ScoreBatches(rows[n..], size, score, batch + 1)
  }

  function Attach(rows: seq<Row>, sources: seq<DatasetRow>): seq<Tagged>
    requires |rows| == |sources|
  {
    seq(|rows|, i requires 0 <= i < |rows| => Tagged(Number(sources[i].sampleId), rows[i]))
  }

  /** `run_ragas` */
  function RunRagas(dataset: seq<DatasetRow>, size: int, limit: int, score: Scorer): Result<seq<Tagged>, PipelineError> {
    var sources := Limit(Eligible(dataset), limit);
    if sources == [] then Err(NoRowsToScore)
    else
      var results := ScoreBatches(MetricRows(sources), BatchSize(size, DEFAULT_BATCH), score);
      if |results| != |sources| then Err(IdentityLost) else Ok(Attach(results, sources))
  }

  /** Where the rows of one platform's run come from: the QA items, its answer to each of them, and its scorer. */
  datatype Origin = Origin(items: seq<QA>, answers: nat -> string, score: Scorer)

  /** The texts are those of item number `id` and the platform's answer to it. */
  predicate TextsOf(o: Origin, id: int, userInput: string, response: string, reference: string) {
    && 1 <= id <= |o.items| && userInput == o.items[id - 1].question && reference == o.items[id - 1].reference
    && response == o.answers(id)
  }

  /** The row's texts are those its id names. */
  predicate Matches(r: DatasetRow, o: Origin) {
    TextsOf(o, r.sampleId, r.userInput, r.response, r.reference)
  }

  predicate IdsIncrease(rows: seq<DatasetRow>) {
    forall i, j :: 0 <= i < j < |rows| ==> rows[i].sampleId < rows[j].sampleId
  }

  /** Ids strictly increase, and each row matches its item. */
  predicate Traceable(rows: seq<DatasetRow>, o: Origin) {
    IdsIncrease(rows) && forall r :: r in rows ==> Matches(r, o)
  }

  lemma {:induction false} EligibleTraceable(rows: seq<DatasetRow>, o: Origin)
    requires Traceable(rows, o)
    ensures Traceable(Eligible(rows), o)
    ensures forall r :: r in Eligible(rows) ==> r in rows
  {
    if rows != [] {
      var init, last := rows[..|rows| - 1], rows[|rows| - 1];
      assert forall r :: r in init ==> r in rows && r.sampleId < last.sampleId;
      EligibleTraceable(init, o);
    }
  }

  /** One result for each row, in order, with its texts and with the scores Ragas gave to them. */
  ghost predicate AllScored(r: seq<Row>, rows: seq<MetricRow>, score: Scorer) {
    |r| == |rows| && forall i :: 0 <= i < |rows| ==> Keeps(r[i], rows[i]) && FromRagas(score, r[i])
  }

  lemma BatchScored(b: seq<MetricRow>, score: Scorer, k: nat)
    requires Faithful(score)
    ensures AllScored(score(k, b), b, score)
  {
  }

  lemma AllScoredConcat(x: seq<Row>, a: seq<MetricRow>, y: seq<Row>, b: seq<MetricRow>, score: Scorer)
    requires AllScored(x, a, score) && AllScored(y, b, score)
    ensures AllScored(x + y, a + b, score)
  {
  }

  /** The batches together score every row, in order, whatever the batch size. */
  lemma {:induction false} BatchesFaithful(rows: seq<MetricRow>, size: nat, score: Scorer, batch: nat := 0)
    requires size > 0 && Faithful(score)
    ensures AllScored(ScoreBatches(rows, size, score, batch), rows, score)
    decreases |rows|
  {
    if rows != [] {
      var n := if size <= |rows| then size else |rows|;
      Cut(rows, n);
      BatchScored(rows[..n], score, batch);
      BatchesFaithful(rows[n..], size, score, batch + 1);
      AllScoredConcat(score(batch, rows[..n]), rows[..n], ScoreBatches(rows[n..], size, score, batch + 1), rows[n..], score);
    }
  }

  /** The row has the texts of number `id`, and the scores Ragas gave to them. */
  ghost predicate RowOf(o: Origin, id: int, r: Row) {
    r.Row? && TextsOf(o, id, r.userInput, r.response, r.reference) && FromRagas(o.score, r)
  }

  /** A tagged row whose texts and scores are those its id names. */
  ghost predicate TagMatches(t: Tagged, o: Origin) {
    t.id.Number? && RowOf(o, t.id.n, t.row)
  }

  predicate TagsIncrease(rows: seq<Tagged>) {
    forall i, j :: 0 <= i < j < |rows| && rows[i].id.Number? && rows[j].id.Number? ==> rows[i].id.n < rows[j].id.n
  }

  ghost predicate Identified(rows: seq<Tagged>, o: Origin) {
    TagsIncrease(rows) && forall t :: t in rows ==> TagMatches(t, o)
  }

  lemma AttachIdentifies(results: seq<Row>, sources: seq<DatasetRow>, o: Origin)
    requires Traceable(sources, o) && AllScored(results, MetricRows(sources), o.score)
    ensures Identified(Attach(results, sources), o)
  {
    forall i | 0 <= i < |results| ensures TagMatches(Attach(results, sources)[i], o) {
      assert Matches(sources[i], o);
    }
  }

  lemma RagasIdentifies(dataset: seq<DatasetRow>, o: Origin, size: int, limit: int)
    requires Traceable(dataset, o) && Faithful(o.score)
    requires RunRagas(dataset, size, limit, o.score).Ok?
    ensures Identified(RunRagas(dataset, size, limit, o.score).value, o)
  {
    EligibleTraceable(dataset, o);
    var sources := Limit(Eligible(dataset), limit);
    BatchesFaithful(MetricRows(sources), BatchSize(size, DEFAULT_BATCH), o.score);
    AttachIdentifies(ScoreBatches(MetricRows(sources), BatchSize(size, DEFAULT_BATCH), o.score), sources, o);
  }

  // ---------------------------------------------------------------------------
  // Loading and pairing
  // ---------------------------------------------------------------------------

  /** `load_result_rows`: missing ids fall back to the position, bad and repeated ids are errors. */
  function Load(rows: seq<Tagged>): Result<map<nat, Row>, PipelineError> {
    if rows == [] then Ok(map[])
    else
      var init := Load(rows[..|rows| - 1]);
      var last := rows[|rows| - 1];
      if init.Err? then init
      else if last.id.Unparsable? || (last.id.Number? && last.id.n < 1) then Err(BadSampleId)
      else
        var id: nat := if last.id.Missing? then |rows| else last.id.n;
        if id in init.value then Err(DuplicateSampleId(id)) else Ok(init.value[id := last.row])
  }

  /** Every loaded row has the question, answer and reference its id names, and the scores Ragas gave to them. */
  ghost predicate Agrees(rows: map<nat, Row>, o: Origin) {
    forall id :: id in rows ==> RowOf(o, id, rows[id])
  }

  lemma {:induction false} LoadIdentified(rows: seq<Tagged>, o: Origin)
    requires Identified(rows, o)
    ensures Load(rows).Ok? && Agrees(Load(rows).value, o)
    ensures forall id :: id in Load(rows).value ==> rows != [] && rows[|rows| - 1].id.Number? && id <= rows[|rows| - 1].id.n
  {
    if rows != [] {
      var init, last := rows[..|rows| - 1], rows[|rows| - 1];
      assert TagMatches(last, o) by { assert last in rows; }
      assert Identified(init, o) by { assert forall t :: t in init ==> t in rows; }
      LoadIdentified(init, o);
      if init != [] {
        assert init[|init| - 1] in init;
        assert rows[|init| - 1].id.n < last.id.n;
      }
      assert last.id.n !in Load(init).value;
    }
  }

  lemma {:induction false} AgreeingNeverMismatch(ids: seq<nat>, dify: map<nat, Row>, zgi: map<nat, Row>, d: Origin, z: Origin, tolerance: real)
    requires Agrees(dify, d) && Agrees(zgi, z) && d.items == z.items
    ensures Compare(ids, dify, zgi, tolerance).Ok?
  {
    if ids != [] { AgreeingNeverMismatch(ids[..|ids| - 1], dify, zgi, d, z, tolerance); }
  }

  // ---------------------------------------------------------------------------
  // End to end
  // ---------------------------------------------------------------------------

  /** run_dify_eval.py on a QA file. */
  function DifyRun(rows: seq<QA>, limit: int, replies: nat -> DifyReply, size: int, ragasLimit: int, score: Scorer)
    : Result<seq<Tagged>, PipelineError>
  {
    match CollectDify(Limit(Keep(rows), limit), replies)
    case Err(e) => Err(e)
    case Ok(dataset) => RunRagas(dataset, size, ragasLimit, score)
  }

  /** run_ragas_eval.py on a QA file. */
  function ZgiRun(rows: seq<QA>, limit: int, backendSize: int, backend: Backend, size: int, ragasLimit: int, score: Scorer)
    : Result<seq<Tagged>, PipelineError>
  {
    var items := Limit(Keep(rows), limit);
    match CallZgi(Questions(items), BatchSize(backendSize, DEFAULT_BATCH), backend)
    case Err(e) => Err(e)
    case Ok(evals) =>
      match BuildZgi(items, evals)
      case Err(e) => Err(e)
      case Ok(dataset) => RunRagas(dataset, size, ragasLimit, score)
  }

  lemma NumberedTraceable(rows: seq<DatasetRow>, o: Origin, limit: int)
    requires Numbered(rows, Limit(o.items, limit)) && forall i :: 0 <= i < |rows| ==> rows[i].response == o.answers(i + 1)
    ensures Traceable(rows, o)
  {
    forall r | r in rows ensures Matches(r, o) {
      var i :| 0 <= i < |rows| && rows[i] == r;
    }
  }

  /** The text of a Dify reply; a failed request has none. */
  function AnswerText(reply: DifyReply): string {
    if reply.Answered? then reply.answer else ""
  }

  function DifyOrigin(rows: seq<QA>, replies: nat -> DifyReply, score: Scorer): Origin {
    Origin(Keep(rows), (id: nat) => AnswerText(replies(id)), score)
  }

  lemma DifyTraceable(rows: seq<QA>, limit: int, replies: nat -> DifyReply, score: Scorer)
    requires CollectDify(Limit(Keep(rows), limit), replies).Ok?
    ensures Traceable(CollectDify(Limit(Keep(rows), limit), replies).value, DifyOrigin(rows, replies, score))
  {
    var items := Limit(Keep(rows), limit);
    DifyNumbered(items, replies);
    var dataset := CollectDify(items, replies).value;
    forall i | 0 <= i < |dataset| ensures dataset[i].response == AnswerText(replies(i + 1)) { CollectAt(items, replies, i); }
    NumberedTraceable(dataset, DifyOrigin(rows, replies, score), limit);
  }

  lemma DifyIdentified(rows: seq<QA>, limit: int, replies: nat -> DifyReply, size: int, ragasLimit: int, score: Scorer)
    requires Faithful(score)
    ensures var r := DifyRun(rows, limit, replies, size, ragasLimit, score);
            r.Ok? ==> Identified(r.value, DifyOrigin(rows, replies, score))
  {
    if DifyRun(rows, limit, replies, size, ragasLimit, score).Ok? {
      DifyTraceable(rows, limit, replies, score);
      var dataset := CollectDify(Limit(Keep(rows), limit), replies).value;
      RagasIdentifies(dataset, DifyOrigin(rows, replies, score), size, ragasLimit);
    }
  }

  /** What the ZGI backend answered for the items, if every batch had the right size. */
  function ZgiEvals(items: seq<QA>, backendSize: int, backend: Backend): Result<seq<ZgiItem>, PipelineError> {
    CallZgi(Questions(items), BatchSize(backendSize, DEFAULT_BATCH), backend)
  }

  function EvalText(evals: seq<ZgiItem>, id: nat): string {
    if 1 <= id <= |evals| then evals[id - 1].response else ""
  }

  function ZgiOrigin(rows: seq<QA>, evals: seq<ZgiItem>, score: Scorer): Origin {
    Origin(Keep(rows), (id: nat) => EvalText(evals, id), score)
  }

  lemma ZgiTraceable(rows: seq<QA>, limit: int, evals: seq<ZgiItem>, score: Scorer)
    requires |evals| == |Limit(Keep(rows), limit)|
    ensures var dataset := BuildZgi(Limit(Keep(rows), limit), evals);
            dataset.Ok? && Traceable(dataset.value, ZgiOrigin(rows, evals, score))
  {
    NumberedTraceable(BuildZgi(Limit(Keep(rows), limit), evals).value, ZgiOrigin(rows, evals, score), limit);
  }

  lemma ZgiIdentified(rows: seq<QA>, limit: int, backendSize: int, backend: Backend,
                      size: int, ragasLimit: int, score: Scorer)
    requires Faithful(score)
    ensures var r := ZgiRun(rows, limit, backendSize, backend, size, ragasLimit, score);
            var evals := ZgiEvals(Limit(Keep(rows), limit), backendSize, backend);
            r.Ok? ==> evals.Ok? && Identified(r.value, ZgiOrigin(rows, evals.value, score))
  {
    if ZgiRun(rows, limit, backendSize, backend, size, ragasLimit, score).Ok? {
      var items := Limit(Keep(rows), limit);
      var evals := ZgiEvals(items, backendSize, backend).value;
      ZgiTraceable(rows, limit, evals, score);
      RagasIdentifies(BuildZgi(items, evals).value, ZgiOrigin(rows, evals, score), size, ragasLimit);
    }
  }

  // Which samples are in the results ------------------------------------------

  predicate HasId(rows: seq<DatasetRow>, id: nat) {
    exists r :: r in rows && r.sampleId == id
  }

  predicate HasTag(rows: seq<Tagged>, id: nat) {
    exists t :: t in rows && t.id == Number(id)
  }

  lemma {:induction false} EligibleExactly(rows: seq<DatasetRow>, r: DatasetRow)
    ensures r in Eligible(rows) <==> r in rows && r.response != "" && r.error == ""
  {
    if rows != [] {
      EligibleExactly(rows[..|rows| - 1], r);
      InitLast(rows);
    }
  }

  /** Loading keeps every tagged sample and adds none. */
  lemma {:induction false} LoadKeys(rows: seq<Tagged>, o: Origin, id: nat)
    requires Identified(rows, o)
    ensures Load(rows).Ok? && (id in Load(rows).value <==> HasTag(rows, id))
  {
    LoadIdentified(rows, o);
    if rows != [] {
      var init, last := rows[..|rows| - 1], rows[|rows| - 1];
      InitLast(rows);
      assert TagMatches(last, o) by { assert last in rows; }
      assert Identified(init, o) by { assert forall t :: t in init ==> t in rows; }
      LoadKeys(init, o, id);
      LoadSnoc(init, last);
    }
  }

  lemma LoadSnoc(init: seq<Tagged>, last: Tagged)
    requires Load(init + [last]).Ok? && last.id.Number?
    ensures Load(init).Ok? && last.id.n >= 1 && Load(init + [last]).value == Load(init).value[last.id.n := last.row]
  {
    assert (init + [last])[..|init|] == init;
  }

  lemma AttachTags(results: seq<Row>, sources: seq<DatasetRow>, id: nat)
    requires |results| == |sources|
    ensures HasTag(Attach(results, sources), id) <==> HasId(sources, id)
  {
    var tagged := Attach(results, sources);
    if HasId(sources, id) {
      var i :| 0 <= i < |sources| && sources[i].sampleId == id;
      assert tagged[i] in tagged;
    }
  }

  /** Scoring succeeds exactly when some row is eligible, and then it tags exactly the eligible rows up to the limit. */
  lemma ScoredExactly(dataset: seq<DatasetRow>, o: Origin, size: int, limit: int, id: nat)
    requires Traceable(dataset, o) && Faithful(o.score)
    ensures var r := RunRagas(dataset, size, limit, o.score);
            && (r.Ok? <==> Eligible(dataset) != [])
            && (r.Ok? ==> Load(r.value).Ok? && (id in Load(r.value).value <==> HasId(Limit(Eligible(dataset), limit), id)))
  {
    var sources := Limit(Eligible(dataset), limit);
    BatchesFaithful(MetricRows(sources), BatchSize(size, DEFAULT_BATCH), o.score);
    if sources != [] {
      RagasIdentifies(dataset, o, size, limit);
      var results := ScoreBatches(MetricRows(sources), BatchSize(size, DEFAULT_BATCH), o.score);
      LoadKeys(Attach(results, sources), o, id);
      AttachTags(results, sources, id);
    }
  }

  lemma {:induction false} CollectAt(items: seq<QA>, replies: nat -> DifyReply, i: nat)
    requires CollectDify(items, replies).Ok? && i < |items|
    ensures |CollectDify(items, replies).value| == |items|
    ensures CollectDify(items, replies).value[i] == DifyRow(i + 1, items[i], replies(i + 1))
  {
    DifyNumbered(items, replies);
    if i < |items| - 1 {
      CollectAt(items[..|items| - 1], replies, i);
    } else {
      DifyNumbered(items[..|items| - 1], replies);
    }
  }

  /** A non-blank answer. */
  predicate Answers(reply: DifyReply) {
    reply.Answered? && Strip(reply.answer, PySpace) != ""
  }

  lemma DifyEligible(items: seq<QA>, replies: nat -> DifyReply, id: nat)
    requires CollectDify(items, replies).Ok?
    ensures HasId(Eligible(CollectDify(items, replies).value), id) <==> 1 <= id <= |items| && Answers(replies(id))
  {
    var dataset := CollectDify(items, replies).value;
    DifyNumbered(items, replies);
    EligibleIds(dataset, items, id);
    if 1 <= id <= |items| {
      CollectAt(items, replies, id - 1);
    }
  }

  lemma EligibleIds(dataset: seq<DatasetRow>, items: seq<QA>, id: nat)
    requires Numbered(dataset, items)
    ensures HasId(Eligible(dataset), id) <==>
      1 <= id <= |items| && dataset[id - 1].response != "" && dataset[id - 1].error == ""
  {
    if 1 <= id <= |items| { EligibleExactly(dataset, dataset[id - 1]); }
    if HasId(Eligible(dataset), id) {
      var r :| r in Eligible(dataset) && r.sampleId == id;
      EligibleExactly(dataset, r);
      assert r == dataset[id - 1];
    }
  }

  /** No sample is dropped: without a Ragas limit, exactly the items that got a non-blank answer are in the loaded table. */
  lemma DifyScored(rows: seq<QA>, limit: int, replies: nat -> DifyReply, size: int, ragasLimit: int, score: Scorer, id: nat)
    requires Faithful(score) && ragasLimit <= 0
    ensures var r := DifyRun(rows, limit, replies, size, ragasLimit, score);
            && (r.Ok? ==> Load(r.value).Ok?)
            && (r.Ok? ==> (id in Load(r.value).value <==> 1 <= id <= |Limit(Keep(rows), limit)| && Answers(replies(id))))
  {
    var items := Limit(Keep(rows), limit);
    if CollectDify(items, replies).Ok? {
      DifyTraceable(rows, limit, replies, score);
      ScoredExactly(CollectDify(items, replies).value, DifyOrigin(rows, replies, score), size, ragasLimit, id);
      DifyEligible(items, replies, id);
    }
  }

  /** Item number `id` got an answer and no error. */
  predicate ZgiAnswers(evals: seq<ZgiItem>, id: nat) {
    1 <= id <= |evals| && evals[id - 1].response != "" && evals[id - 1].error == ""
  }

  /** The same for ZGI: without a Ragas limit, exactly the items answered without error are in the loaded table. */
  lemma ZgiScored(rows: seq<QA>, limit: int, backendSize: int, backend: Backend,
                  size: int, ragasLimit: int, score: Scorer, id: nat)
    requires Faithful(score) && ragasLimit <= 0
    ensures var r := ZgiRun(rows, limit, backendSize, backend, size, ragasLimit, score);
            var evals := ZgiEvals(Limit(Keep(rows), limit), backendSize, backend);
            && (r.Ok? ==> evals.Ok? && Load(r.value).Ok?)
            && (r.Ok? ==> (id in Load(r.value).value <==> ZgiAnswers(evals.value, id)))
  {
    var items := Limit(Keep(rows), limit);
    var evals := ZgiEvals(items, backendSize, backend);
    if evals.Ok? {
      ZgiComplete(Questions(items), BatchSize(backendSize, DEFAULT_BATCH), backend);
      ZgiTraceable(rows, limit, evals.value, score);
      var dataset := BuildZgi(items, evals.value).value;
      ScoredExactly(dataset, ZgiOrigin(rows, evals.value, score), size, ragasLimit, id);
      EligibleIds(dataset, items, id);
    }
  }

  /** The item is what the backend answered, at its place in some batch of at most `size`, to the question. */
  ghost predicate FromBackend(backend: Backend, size: nat, question: string, item: ZgiItem) {
    exists k: nat, b: seq<string>, j: nat ::
      j < |b| <= size && j < |backend(k, b)| && backend(k, b)[j] == item && b[j] == question
  }

  /** Every evaluation is the backend's own answer to the question at the same position. */
  lemma {:induction false} EvalsFromBackend(questions: seq<string>, size: nat, backend: Backend, batch: nat := 0)
    requires size > 0 && CallZgi(questions, size, backend, batch).Ok?
    ensures var evals := CallZgi(questions, size, backend, batch).value;
            |evals| == |questions| && forall i :: 0 <= i < |questions| ==> FromBackend(backend, size, questions[i], evals[i])
    decreases |questions|
  {
    if questions != [] {
      var n := if size <= |questions| then size else |questions|;
      EvalsFromBackend(questions[n..], size, backend, batch + 1);
      var first := backend(batch, questions[..n]);
      forall i | 0 <= i < n ensures FromBackend(backend, size, questions[i], first[i]) {
        assert questions[..n][i] == questions[i];
      }
    }
  }

  /** The evaluation of each item is the backend's answer to its question, in a request of at most the asked size, or ten. */
  lemma ZgiRequests(items: seq<QA>, backendSize: int, backend: Backend, i: nat)
    requires ZgiEvals(items, backendSize, backend).Ok? && i < |items|
    ensures var evals := ZgiEvals(items, backendSize, backend).value;
            |evals| == |items| && FromBackend(backend, if backendSize > 0 then backendSize else 10, items[i].question, evals[i])
  {
    EvalsFromBackend(Questions(items), BatchSize(backendSize, DEFAULT_BATCH), backend);
    assert Questions(items)[i] == items[i].question;
  }

  /** Both results load, every loaded row is that of its own id and platform, and pairing succeeds. */
  ghost predicate PairsCleanly(dify: seq<Tagged>, zgi: seq<Tagged>, d: Origin, z: Origin, tolerance: real) {
    var x, y := Load(dify), Load(zgi);
    && x.Ok? && y.Ok? && Agrees(x.value, d) && Agrees(y.value, z)
    && Compare(SortedIds(x.value.Keys + y.value.Keys), x.value, y.value, tolerance).Ok?
  }

  lemma IdentifiedPairs(dify: seq<Tagged>, zgi: seq<Tagged>, d: Origin, z: Origin, tolerance: real)
    requires Identified(dify, d) && Identified(zgi, z) && d.items == z.items
    ensures PairsCleanly(dify, zgi, d, z, tolerance)
  {
    LoadIdentified(dify, d);
    LoadIdentified(zgi, z);
    var x, y := Load(dify).value, Load(zgi).value;
    AgreeingNeverMismatch(SortedIds(x.Keys + y.Keys), x, y, d, z, tolerance);
  }

  /**
   For one QA file, any two limits, batch sizes and backends: if both runs succeed, loading their results
   reports no bad or repeated id, every loaded row carries the question and reference of the item its id names,
   that platform's own answer to it and the scores Ragas gave to these texts, and pairing reports no question
   or reference mismatch.
   */
  lemma IdentityPreserved(rows: seq<QA>, tolerance: real,
                          difyLimit: int, replies: nat -> DifyReply, difySize: int, difyRagasLimit: int, difyScore: Scorer,
                          zgiLimit: int, backendSize: int, backend: Backend,
                          zgiSize: int, zgiRagasLimit: int, zgiScore: Scorer)
    requires Faithful(difyScore) && Faithful(zgiScore)
    ensures var d := DifyRun(rows, difyLimit, replies, difySize, difyRagasLimit, difyScore);
            var z := ZgiRun(rows, zgiLimit, backendSize, backend, zgiSize, zgiRagasLimit, zgiScore);
            var evals := ZgiEvals(Limit(Keep(rows), zgiLimit), backendSize, backend);
            && (z.Ok? ==> evals.Ok?)
            && (d.Ok? && z.Ok? ==> PairsCleanly(d.value, z.value, DifyOrigin(rows, replies, difyScore),
                                                ZgiOrigin(rows, evals.value, zgiScore), tolerance))
  {
    DifyIdentified(rows, difyLimit, replies, difySize, difyRagasLimit, difyScore);
    ZgiIdentified(rows, zgiLimit, backendSize, backend, zgiSize, zgiRagasLimit, zgiScore);
    var d := DifyRun(rows, difyLimit, replies, difySize, difyRagasLimit, difyScore);
    var z := ZgiRun(rows, zgiLimit, backendSize, backend, zgiSize, zgiRagasLimit, zgiScore);
    if d.Ok? && z.Ok? {
      var evals := ZgiEvals(Limit(Keep(rows), zgiLimit), backendSize, backend).value;
      IdentifiedPairs(d.value, z.value, DifyOrigin(rows, replies, difyScore), ZgiOrigin(rows, evals, zgiScore), tolerance);
    }
  }

  // What loading does with any ids -----------------------------------------------

  /** The id a row is loaded under: its own, or its position. */
  function IdOf(rows: seq<Tagged>, i: nat): int
    requires i < |rows|
  {
    if rows[i].id.Number? then rows[i].id.n else if rows[i].id.Missing? then i + 1 else 0
  }

  /** All ids are usable, and no two are the same. */
  predicate IdsGood(rows: seq<Tagged>) {
    && (forall i :: 0 <= i < |rows| ==> IdOf(rows, i) >= 1)
    && (forall i, j :: 0 <= i < j < |rows| ==> IdOf(rows, i) != IdOf(rows, j))
  }

  /** The table holds exactly the rows, each under its id. */
  predicate Holds(table: map<nat, Row>, rows: seq<Tagged>) {
    && (forall i :: 0 <= i < |rows| ==> IdOf(rows, i) in table && table[IdOf(rows, i)] == rows[i].row)
    && (forall id :: id in table ==> exists i :: 0 <= i < |rows| && IdOf(rows, i) == id)
  }

  lemma IdsGoodSnoc(init: seq<Tagged>, last: Tagged)
    ensures var rows := init + [last];
            var id := IdOf(rows, |init|);
            IdsGood(rows) <==> IdsGood(init) && id >= 1 && forall i :: 0 <= i < |init| ==> IdOf(init, i) != id
  {
    var rows := init + [last];
    assert forall i :: 0 <= i < |init| ==> IdOf(rows, i) == IdOf(init, i);
  }

  lemma HoldsSnoc(table: map<nat, Row>, init: seq<Tagged>, last: Tagged)
    requires Holds(table, init) && IdOf(init + [last], |init|) >= 1 && IdOf(init + [last], |init|) !in table
    ensures Holds(table[IdOf(init + [last], |init|) := last.row], init + [last])
  {
    var rows := init + [last];
    assert forall i :: 0 <= i < |init| ==> IdOf(rows, i) == IdOf(init, i) && rows[i] == init[i];
    assert rows[|init|] == last;
    forall id | id in table ensures exists i :: 0 <= i < |rows| && IdOf(rows, i) == id {
      var i :| 0 <= i < |init| && IdOf(init, i) == id;
      assert IdOf(rows, i) == id;
    }
  }

  /** One turn of the loading loop. */
  lemma LoadNext(init: seq<Tagged>, last: Tagged)
    ensures var id, before := IdOf(init + [last], |init|), Load(init);
            Load(init + [last]) ==
              if before.Err? then before
              else if id < 1 then Err(BadSampleId)
              else if id in before.value then Err(DuplicateSampleId(id))
              else Ok(before.value[id := last.row])
  {
    assert (init + [last])[..|init|] == init;
  }

  ghost predicate LoadsAs(rows: seq<Tagged>) {
    && (Load(rows).Ok? <==> IdsGood(rows))
    && (Load(rows).Ok? ==> Holds(Load(rows).value, rows))
  }

  lemma LoadsAsSnoc(init: seq<Tagged>, last: Tagged)
    requires LoadsAs(init)
    ensures LoadsAs(init + [last])
  {
    LoadNext(init, last);
    IdsGoodSnoc(init, last);
    var id := IdOf(init + [last], |init|);
    if Load(init).Ok? && id >= 1 {
      if id in Load(init).value {
        var i :| 0 <= i < |init| && IdOf(init, i) == id;
      } else {
        HoldsSnoc(Load(init).value, init, last);
      }
    }
  }

  /** Loading succeeds exactly when all ids are usable and different, and then the table holds exactly the rows. */
  lemma {:induction false} LoadExactly(rows: seq<Tagged>)
    ensures LoadsAs(rows)
  {
    if rows != [] {
      InitLast(rows);
      LoadExactly(rows[..|rows| - 1]);
      LoadsAsSnoc(rows[..|rows| - 1], rows[|rows| - 1]);
    }
  }

  // ---------------------------------------------------------------------------
  // The loops
  // ---------------------------------------------------------------------------

  /** `collect_dify_rows`: one row per question, unless the key is refused. */
  method CollectDifyRows(items: seq<QA>, replies: nat -> DifyReply) returns (r: Result<seq<DatasetRow>, PipelineError>)
    ensures r == CollectDify(items, replies)
  {
    var rows: seq<DatasetRow> := [];
    var i := 0;
    while i < |items|
      invariant i <= |items| && CollectDify(items[..i], replies) == Ok(rows)
    {
      CollectSnoc(items, i, replies);
      var reply := replies(i + 1);
      if Refused(reply) {
        CollectErrSticks(items, i + 1, replies);
        return Err(AuthenticationFailed);
      }
      rows := rows + [DifyRow(i + 1, items[i], reply)];
      i := i + 1;
    }
    assert items[..i] == items;
    r := Ok(rows);
  }

  lemma CollectSnoc(items: seq<QA>, i: nat, replies: nat -> DifyReply)
    requires i < |items| && CollectDify(items[..i], replies).Ok?
    ensures CollectDify(items[..i + 1], replies) ==
      if Refused(replies(i + 1)) then Err(AuthenticationFailed)
      else Ok(CollectDify(items[..i], replies).value + [DifyRow(i + 1, items[i], replies(i + 1))])
  {
    assert items[..i + 1][..i] == items[..i];
  }

  lemma {:induction false} CollectErrSticks(items: seq<QA>, n: nat, replies: nat -> DifyReply)
    requires n <= |items| && CollectDify(items[..n], replies).Err?
    ensures CollectDify(items, replies) == CollectDify(items[..n], replies)
  {
    if n == |items| {
      assert items[..n] == items;
    } else {
      assert items[..|items| - 1][..n] == items[..n];
      CollectErrSticks(items[..|items| - 1], n, replies);
    }
  }

  /** The batch loop of `call_rag_evaluation`. */
  method CallRagEvaluation(questions: seq<string>, size: nat, backend: Backend)
    returns (r: Result<seq<ZgiItem>, PipelineError>)
    requires size > 0
    ensures r == CallZgi(questions, size, backend)
    ensures r.Ok? ==> |r.value| == |questions|
  {
    var all: seq<ZgiItem> := [];
    var start, k := 0, 0;
    assert questions[0..] == questions;
    PrependNothing(CallZgi(questions, size, backend));
    while start < |questions|
      invariant start <= |questions|
      invariant CallZgi(questions, size, backend) == Prepend(all, CallZgi(questions[start..], size, backend, k))
    {
      var n := if start + size <= |questions| then size else |questions| - start;
      var batch := questions[start..start + n];
      NextBatch(questions, start, n);
      var items := backend(k, batch);
      if |items| != |batch| {
        return Err(WrongBatchSize);
      }
      PrependTwice(all, items, CallZgi(questions[start + n..], size, backend, k + 1));
      all := all + items;
      start, k := start + n, k + 1;
    }
    r := Ok(all);
    assert all + [] == all;
    ZgiComplete(questions, size, backend);
  }

  function Prepend(items: seq<ZgiItem>, r: Result<seq<ZgiItem>, PipelineError>): Result<seq<ZgiItem>, PipelineError> {
    if r.Ok? then Ok(items + r.value) else r
  }

  lemma NextBatch<T>(s: seq<T>, start: nat, n: nat)
    requires start + n <= |s|
    ensures s[start..][..n] == s[start..start + n]
    ensures s[start..][n..] == s[start + n..]
  {
  }

  lemma PrependNothing(r: Result<seq<ZgiItem>, PipelineError>)
    ensures Prepend([], r) == r
  {
    if r.Ok? { assert [] + r.value == r.value; }
  }

  lemma PrependTwice(a: seq<ZgiItem>, b: seq<ZgiItem>, r: Result<seq<ZgiItem>, PipelineError>)
    ensures Prepend(a, Prepend(b, r)) == Prepend(a + b, r)
  {
    if r.Ok? { ConcatAssoc(a, b, r.value); }
  }

  /** The batch loop of `run_ragas`. */
  method ScoreInBatches(rows: seq<MetricRow>, size: nat, score: Scorer) returns (results: seq<Row>)
    requires size > 0
    ensures results == ScoreBatches(rows, size, score)
  {
    results := [];
    var start, k := 0, 0;
    while start < |rows|
      invariant start <= |rows| && results + ScoreBatches(rows[start..], size, score, k) == ScoreBatches(rows, size, score)
    {
      var n := if start + size <= |rows| then size else |rows| - start;
      var batch := rows[start..start + n];
      NextBatch(rows, start, n);
      results := results + score(k, batch);
      start, k := start + n, k + 1;
    }
  }

  method LoadResultRows(data: seq<Tagged>) returns (r: Result<map<nat, Row>, PipelineError>)
    ensures r == Load(data)
  {
    var rows: map<nat, Row> := map[];
    var i := 0;
    while i < |data|
      invariant i <= |data| && Load(data[..i]) == Ok(rows)
    {
      assert data[..i + 1][..i] == data[..i];
      var id: nat := i + 1;
      match data[i].id {
        case Missing =>
        case Unparsable =>
          LoadErrSticks(data, i + 1);
          return Err(BadSampleId);
        case Number(n) =>
          if n < 1 {
            LoadErrSticks(data, i + 1);
            return Err(BadSampleId);
          }
          id := n;
      }
      if id in rows {
        LoadErrSticks(data, i + 1);
        return Err(DuplicateSampleId(id));
      }
      rows := rows[id := data[i].row];
      i := i + 1;
    }
    assert data[..i] == data;
    r := Ok(rows);
  }

  lemma {:induction false} LoadErrSticks(data: seq<Tagged>, n: nat)
    requires n <= |data| && Load(data[..n]).Err?
    ensures Load(data) == Load(data[..n])
  {
    if n == |data| {
      assert data[..n] == data;
    } else {
      assert data[..|data| - 1][..n] == data[..n];
      LoadErrSticks(data[..|data| - 1], n);
    }
  }
}

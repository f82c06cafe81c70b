/**
 The batch loop of the icon migration (api/cmd/migrate_icons/main.go), in its real (not dry-run) mode and with
 no other writer. A `LIMIT` query may return any rows of the right number, and every outside call may fail, so
 both are arbitrary functions of the batch number.
 */
module IconMigration {
  import opened Basics

  type Id = nat

  datatype IconType = Base64 | Image | OtherType

  datatype Agent = Agent(iconType: IconType, icon: Option<string>)

  type Table = map<Id, Agent>

  /** How decoding, image processing, upload and row update end for one agent. */
  datatype Outcome = DecodeFails | ProcessFails | UploadFails | UpdateFails | Stored(fileId: string)

  /** The rows a query returns in batch i, or None when it fails. */
  type Query = (nat, Table) -> Option<seq<Id>>

  type Oracle = (nat, Id) -> Outcome

  function Pending(t: Table): (ids: set<Id>)
    ensures forall id :: id in ids ==> id in t
  {
    set id | id in t && t[id].iconType == Base64
  }

  predicate Distinct(ids: seq<Id>) {
    forall i, j :: 0 <= i < j < |ids| ==> ids[i] != ids[j]
  }

  predicate AllPending(t: Table, ids: seq<Id>) {
    forall id :: id in ids ==> id in t && t[id].iconType == Base64
  }

  /** `WHERE icon_type = 'base64' LIMIT n`: any n of the pending rows, or all of them. */
  predicate Limited(t: Table, limit: nat, ids: seq<Id>) {
    Distinct(ids) && AllPending(t, ids) && |ids| == Min(limit, |Pending(t)|)
  }

  ghost predicate ValidQuery(q: Query, limit: nat) {
    forall i: nat, t: Table :: q(i, t).Some? ==> Limited(t, limit, q(i, t).value)
  }

  // ---------------------------------------------------------------------------
  // One row, one batch, all batches
  // ---------------------------------------------------------------------------

  const PREFIX := "data:image"

  /** Rows the loop passes over without counting them. */
  predicate Skipped(a: Agent) {
    a.icon.None? || a.icon.value == "" || !(PREFIX <= a.icon.value)
  }

  predicate HasData(a: Agent) {
    a.icon.Some? && ',' in a.icon.value
  }

  /** The row ends up migrated. */
  predicate Good(a: Agent, o: Outcome) {
    !Skipped(a) && HasData(a) && o.Stored?
  }

  datatype Progress = Progress(table: Table, migrated: nat, failed: nat)

  function MigrateRow(p: Progress, id: Id, o: Outcome): Progress
    requires id in p.table
  {
    var a := p.table[id];
    if Skipped(a) then p
    else if !HasData(a) || !o.Stored? then p.(failed := p.failed + 1)
    else p.(table := p.table[id := Agent(Image, Some(o.fileId))], migrated := p.migrated + 1)
  }

  function MigrateBatch(p: Progress, ids: seq<Id>, i: nat, oracle: Oracle): (q: Progress)
    requires forall id :: id in ids ==> id in p.table
    ensures q.table.Keys == p.table.Keys
  {
    if ids == [] then p
    else
      var q := MigrateBatch(p, ids[..|ids| - 1], i, oracle);
      MigrateRow(q, ids[|ids| - 1], oracle(i, ids[|ids| - 1]))
  }

  /** Batches i .. n-1; an empty result ends the loop, a failed query only wastes its batch. */
  ghost function MigrateFrom(p: Progress, i: nat, n: nat, limit: nat, query: Query, oracle: Oracle): Progress
    requires ValidQuery(query, limit)
    decreases n - i
  {
    if i >= n then p
    else match query(i, p.table)
      case None => MigrateFrom(p, i + 1, n, limit, query, oracle)
      case Some(ids) =>
        if ids == [] then p
        else MigrateFrom(MigrateBatch(p, ids, i, oracle), i + 1, n, limit, query, oracle)
  }

  function Batches(total: nat, limit: nat): nat
    requires limit > 0
  {
    (total + limit - 1) / limit
  }

  ghost function Migrate(t: Table, limit: nat, query: Query, oracle: Oracle): Progress
    requires limit > 0 && ValidQuery(query, limit)
  {
    MigrateFrom(Progress(t, 0, 0), 0, Batches(|Pending(t)|, limit), limit, query, oracle)
  }

  // ---------------------------------------------------------------------------
  // What one batch does
  // ---------------------------------------------------------------------------

  /** The ids of a batch that end up migrated. */
  function Moved(t: Table, ids: seq<Id>, i: nat, oracle: Oracle): set<Id>
    requires forall id :: id in ids ==> id in t
  {
    set id | id in ids && Good(t[id], oracle(i, id))
  }

  /** From p to q exactly the rows in `moved` were turned into images. */
  ghost predicate MovedExactly(p: Progress, q: Progress, moved: set<Id>) {
    && q.table.Keys == p.table.Keys
    && q.migrated == p.migrated + |moved|
    && (forall id :: id in moved ==> id in p.table && p.table[id].iconType == Base64 && q.table[id].iconType == Image)
    && (forall id :: id in p.table && id !in moved ==> q.table[id] == p.table[id])
  }

  lemma MovedPending(p: Progress, q: Progress, moved: set<Id>)
    requires MovedExactly(p, q, moved)
    ensures Pending(q.table) == Pending(p.table) - moved && moved <= Pending(p.table)
  {
  }

  lemma RowMoves(p: Progress, q: Progress, moved: set<Id>, id: Id, o: Outcome)
    requires MovedExactly(p, q, moved) && id in p.table && id !in moved && p.table[id].iconType == Base64
    ensures MovedExactly(p, MigrateRow(q, id, o), if Good(p.table[id], o) then moved + {id} else moved)
  {
  }

  /** The row holds the file that batch k uploaded for it. */
  predicate StoredAt(t: Table, id: Id, k: nat, oracle: Oracle) {
    id in t && oracle(k, id).Stored? && t[id] == Agent(Image, Some(oracle(k, id).fileId))
  }

  predicate AllStoredAt(t: Table, moved: set<Id>, k: nat, oracle: Oracle) {
    forall id :: id in moved ==> StoredAt(t, id, k, oracle)
  }

  lemma {:induction false} BatchEffect(p: Progress, ids: seq<Id>, i: nat, oracle: Oracle)
    requires Distinct(ids) && AllPending(p.table, ids)
    ensures MovedExactly(p, MigrateBatch(p, ids, i, oracle), Moved(p.table, ids, i, oracle))
    ensures AllStoredAt(MigrateBatch(p, ids, i, oracle).table, Moved(p.table, ids, i, oracle), i, oracle)
  {
    if ids == [] {
      assert Moved(p.table, ids, i, oracle) == {};
    } else {
      var init, last := ids[..|ids| - 1], ids[|ids| - 1];
      assert last in ids && forall id :: id in init ==> id in ids;
      BatchEffect(p, init, i, oracle);
      var before := Moved(p.table, init, i, oracle);
      assert last !in init;
      RowMoves(p, MigrateBatch(p, init, i, oracle), before, last, oracle(i, last));
      RowStores(MigrateBatch(p, init, i, oracle), before, last, i, oracle);
      MovedSnoc(p.table, init, last, i, oracle);
      InitLast(ids);
    }
  }

  lemma RowStores(q: Progress, moved: set<Id>, id: Id, i: nat, oracle: Oracle)
    requires id in q.table && id !in moved && AllStoredAt(q.table, moved, i, oracle)
    ensures AllStoredAt(MigrateRow(q, id, oracle(i, id)).table,
                        if Good(q.table[id], oracle(i, id)) then moved + {id} else moved, i, oracle)
  {
  }

  lemma MovedSnoc(t: Table, ids: seq<Id>, last: Id, i: nat, oracle: Oracle)
    requires last in t && forall id :: id in ids ==> id in t
    ensures Moved(t, ids + [last], i, oracle) ==
      if Good(t[last], oracle(i, last)) then Moved(t, ids, i, oracle) + {last} else Moved(t, ids, i, oracle)
  {
    assert forall id :: id in ids + [last] <==> id in ids || id == last;
  }

  /** The rows of a batch that are counted as failures. */
  function Failing(t: Table, ids: seq<Id>, i: nat, oracle: Oracle): set<Id>
    requires forall id :: id in ids ==> id in t
  {
    set id | id in ids && !Skipped(t[id]) && !Good(t[id], oracle(i, id))
  }

  lemma FailingSnoc(t: Table, ids: seq<Id>, last: Id, i: nat, oracle: Oracle)
    requires last in t && forall id :: id in ids ==> id in t
    ensures Failing(t, ids + [last], i, oracle) ==
      if Skipped(t[last]) || Good(t[last], oracle(i, last)) then Failing(t, ids, i, oracle) else Failing(t, ids, i, oracle) + {last}
  {
    assert forall id :: id in ids + [last] <==> id in ids || id == last;
  }

  /** A batch counts exactly its failing rows, so each of its rows is migrated, counted as failed, or skipped. */
  lemma {:induction false} BatchFailures(p: Progress, ids: seq<Id>, i: nat, oracle: Oracle)
    requires Distinct(ids) && AllPending(p.table, ids)
    ensures MigrateBatch(p, ids, i, oracle).failed == p.failed + |Failing(p.table, ids, i, oracle)|
  {
    if ids == [] {
      assert Failing(p.table, ids, i, oracle) == {};
    } else {
      var init, last := ids[..|ids| - 1], ids[|ids| - 1];
      InitLast(ids);
      assert last in ids && forall id :: id in init ==> id in ids;
      BatchFailures(p, init, i, oracle);
      BatchEffect(p, init, i, oracle);
      assert last !in init;
      RowFails(p, MigrateBatch(p, init, i, oracle), Moved(p.table, init, i, oracle), last, oracle(i, last));
      FailingSnoc(p.table, init, last, i, oracle);
      OneMore(Failing(p.table, init, i, oracle), last);
    }
  }

  lemma RowFails(p: Progress, q: Progress, moved: set<Id>, id: Id, o: Outcome)
    requires MovedExactly(p, q, moved) && id in p.table && id !in moved
    ensures MigrateRow(q, id, o).failed == q.failed + if Skipped(p.table[id]) || Good(p.table[id], o) then 0 else 1
  {
  }

  lemma OneMore(s: set<Id>, id: Id)
    requires id !in s
    ensures |s + {id}| == |s| + 1
  {
  }

  // ---------------------------------------------------------------------------
  // What a whole run does
  // ---------------------------------------------------------------------------

  /** Conservation: the migrated count is the drop in pending rows; rows are only ever turned from pending to image. */
  ghost predicate Conserves(p: Progress, q: Progress) {
    && q.table.Keys == p.table.Keys
    && Pending(q.table) <= Pending(p.table)
    && q.migrated - p.migrated == |Pending(p.table)| - |Pending(q.table)|
    && (forall id :: id in p.table && (id !in Pending(p.table) || id in Pending(q.table)) ==> q.table[id] == p.table[id])
  }

  /** Every row that stopped being pending holds the file uploaded for it in one of the batches i .. n-1. */
  ghost predicate StoredIn(p: Progress, q: Progress, i: nat, n: nat, oracle: Oracle) {
    forall id :: id in Pending(p.table) && id !in Pending(q.table) ==> exists k: nat :: i <= k < n && StoredAt(q.table, id, k, oracle)
  }

  lemma BatchConserves(p: Progress, ids: seq<Id>, i: nat, oracle: Oracle)
    requires Distinct(ids) && AllPending(p.table, ids)
    ensures Conserves(p, MigrateBatch(p, ids, i, oracle))
  {
    BatchEffect(p, ids, i, oracle);
    var moved := Moved(p.table, ids, i, oracle);
    MovedPending(p, MigrateBatch(p, ids, i, oracle), moved);
    DifferenceSize(Pending(p.table), moved);
  }

  lemma DifferenceSize(a: set<Id>, b: set<Id>)
    requires b <= a
    ensures |a - b| == |a| - |b|
  {
    assert a == (a - b) + b;
  }

  lemma {:induction false} RunConserves(p: Progress, i: nat, n: nat, limit: nat, query: Query, oracle: Oracle)
    requires ValidQuery(query, limit)
    ensures Conserves(p, MigrateFrom(p, i, n, limit, query, oracle))
    decreases n - i
  {
    if i < n {
      match query(i, p.table) {
        case None => RunConserves(p, i + 1, n, limit, query, oracle);
        case Some(ids) =>
          if ids != [] {
            var q := MigrateBatch(p, ids, i, oracle);
            BatchConserves(p, ids, i, oracle);
            RunConserves(q, i + 1, n, limit, query, oracle);
          }
      }
    }
  }

  /** A batch, and then a run that conserves and stores. */
  lemma StoredTrans(p: Progress, ids: seq<Id>, i: nat, n: nat, oracle: Oracle, r: Progress)
    requires Distinct(ids) && AllPending(p.table, ids) && i < n
    requires var q := MigrateBatch(p, ids, i, oracle); Conserves(q, r) && StoredIn(q, r, i + 1, n, oracle)
    ensures StoredIn(p, r, i, n, oracle)
  {
    BatchEffect(p, ids, i, oracle);
    var q, moved := MigrateBatch(p, ids, i, oracle), Moved(p.table, ids, i, oracle);
    MovedPending(p, q, moved);
    forall id | id in Pending(p.table) && id !in Pending(r.table)
      ensures exists k: nat :: i <= k < n && StoredAt(r.table, id, k, oracle)
    {
      if id in moved {
        assert StoredAt(q.table, id, i, oracle) && r.table[id] == q.table[id];
        assert StoredAt(r.table, id, i, oracle);
      } else {
        var k: nat :| i + 1 <= k < n && StoredAt(r.table, id, k, oracle);
      }
    }
  }

  lemma {:induction false} RunStores(p: Progress, i: nat, n: nat, limit: nat, query: Query, oracle: Oracle)
    requires ValidQuery(query, limit)
    ensures StoredIn(p, MigrateFrom(p, i, n, limit, query, oracle), i, n, oracle)
    decreases n - i
  {
    if i < n {
      match query(i, p.table) {
        case None => RunStores(p, i + 1, n, limit, query, oracle);
        case Some(ids) =>
          if ids != [] {
            var q := MigrateBatch(p, ids, i, oracle);
            RunStores(q, i + 1, n, limit, query, oracle);
            RunConserves(q, i + 1, n, limit, query, oracle);
            MigrateNext(p, i, n, limit, query, oracle, ids);
            StoredTrans(p, ids, i, n, oracle, MigrateFrom(q, i + 1, n, limit, query, oracle));
          }
      }
    }
  }

  /**
   For every choice of the queries and every failure: count and table agree, the count is at most the total, every
   migrated row holds a file uploaded for it in one of the batches, and every other row is unchanged.
   */
  lemma MigrationConserves(t: Table, limit: nat, query: Query, oracle: Oracle)
    requires limit > 0 && ValidQuery(query, limit)
    ensures var r := Migrate(t, limit, query, oracle);
            && Conserves(Progress(t, 0, 0), r)
            && StoredIn(Progress(t, 0, 0), r, 0, Batches(|Pending(t)|, limit), oracle)
            && r.migrated <= |Pending(t)|
  {
    RunStores(Progress(t, 0, 0), 0, Batches(|Pending(t)|, limit), limit, query, oracle);
    RunConserves(Progress(t, 0, 0), 0, Batches(|Pending(t)|, limit), limit, query, oracle);
  }

  // ---------------------------------------------------------------------------
  // When nothing is left
  // ---------------------------------------------------------------------------

  ghost predicate NeverFails(query: Query) {
    forall i: nat, t: Table :: query(i, t).Some?
  }

  /** Every pending row would be migrated in every batch. */
  ghost predicate AllGood(t: Table, oracle: Oracle) {
    forall id, i: nat :: id in Pending(t) ==> Good(t[id], oracle(i, id))
  }

  /** A batch of good rows removes exactly as many as it holds. */
  lemma GoodBatch(p: Progress, ids: seq<Id>, i: nat, limit: nat, oracle: Oracle)
    requires AllGood(p.table, oracle) && Limited(p.table, limit, ids)
    ensures var q := MigrateBatch(p, ids, i, oracle);
            |Pending(q.table)| == |Pending(p.table)| - |ids| && AllGood(q.table, oracle)
  {
    BatchEffect(p, ids, i, oracle);
    var q, moved := MigrateBatch(p, ids, i, oracle), Moved(p.table, ids, i, oracle);
    MovedPending(p, q, moved);
    assert moved == Ids(ids);
    DistinctSize(ids);
    DifferenceSize(Pending(p.table), moved);
    forall id, k: nat | id in Pending(q.table) ensures Good(q.table[id], oracle(k, id)) {
      assert id in Pending(p.table) && Good(p.table[id], oracle(k, id));
    }
  }

  function Ids(ids: seq<Id>): set<Id> {
    set id | id in ids
  }

  lemma {:induction false} DistinctSize(ids: seq<Id>)
    requires Distinct(ids)
    ensures |Ids(ids)| == |ids|
  {
    if ids == [] {
      assert Ids(ids) == {};
    } else {
      var init, last := ids[..|ids| - 1], ids[|ids| - 1];
      DistinctSize(init);
      forall k | 0 <= k < |init| ensures init[k] != last {}
      InitLast(ids);
      assert Ids(ids) == Ids(init) + {last};
    }
  }

  /** How many rows k more batches can take. */
  function Capacity(k: nat, limit: nat): nat {
    if k == 0 then 0 else limit + Capacity(k - 1, limit)
  }

  /** One turn of the batch loop. */
  lemma MigrateNext(p: Progress, i: nat, n: nat, limit: nat, query: Query, oracle: Oracle, ids: seq<Id>)
    requires ValidQuery(query, limit) && i < n && query(i, p.table) == Some(ids) && ids != []
    requires forall id :: id in ids ==> id in p.table
    ensures MigrateFrom(p, i, n, limit, query, oracle)
         == MigrateFrom(MigrateBatch(p, ids, i, oracle), i + 1, n, limit, query, oracle)
  {
  }

  /** The batch loop after an answer to its query. */
  lemma MigrateLive(p: Progress, i: nat, n: nat, limit: nat, query: Query, oracle: Oracle) returns (ids: seq<Id>)
    requires ValidQuery(query, limit) && query(i, p.table).Some? && i < n
    ensures Limited(p.table, limit, ids)
    ensures MigrateFrom(p, i, n, limit, query, oracle) ==
      if ids == [] then p else MigrateFrom(MigrateBatch(p, ids, i, oracle), i + 1, n, limit, query, oracle)
  {
    ids := query(i, p.table).value;
    assert Limited(p.table, limit, ids);
    if ids != [] { MigrateNext(p, i, n, limit, query, oracle, ids); }
  }

  lemma MigrateAnswered(p: Progress, i: nat, n: nat, limit: nat, query: Query, oracle: Oracle) returns (ids: seq<Id>)
    requires ValidQuery(query, limit) && NeverFails(query) && i < n
    ensures Limited(p.table, limit, ids)
    ensures MigrateFrom(p, i, n, limit, query, oracle) ==
      if ids == [] then p else MigrateFrom(MigrateBatch(p, ids, i, oracle), i + 1, n, limit, query, oracle)
  {
    ids := MigrateLive(p, i, n, limit, query, oracle);
  }

  lemma {:induction false} GoodRun(p: Progress, i: nat, k: nat, n: nat, limit: nat, query: Query, oracle: Oracle)
    requires limit > 0 && ValidQuery(query, limit) && NeverFails(query) && AllGood(p.table, oracle)
    requires i + k == n && |Pending(p.table)| <= Capacity(k, limit)
    ensures Pending(MigrateFrom(p, i, n, limit, query, oracle).table) == {}
    decreases k
  {
    if k > 0 {
      var ids := MigrateAnswered(p, i, n, limit, query, oracle);
      if ids != [] {
        GoodBatch(p, ids, i, limit, oracle);
        GoodRun(MigrateBatch(p, ids, i, oracle), i + 1, k - 1, n, limit, query, oracle);
      }
    }
  }

  lemma {:induction false} CapacityIsProduct(k: nat, limit: nat)
    ensures Capacity(k, limit) == k * limit
  {
    if k > 0 {
      CapacityIsProduct(k - 1, limit);
      assert (k - 1) * limit + limit == k * limit;
    }
  }

  /** The batches computed up front can take all rows. */
  lemma CeilingCovers(total: nat, limit: nat)
    requires limit > 0
    ensures total <= Capacity(Batches(total, limit), limit)
  {
    CapacityIsProduct(Batches(total, limit), limit);
    assert (total + limit - 1) % limit < limit;
  }

  /** With no failure and no skipped row, ceil(total / batch) batches leave no row pending. */
  lemma MigrationCompletes(t: Table, limit: nat, query: Query, oracle: Oracle)
    requires limit > 0 && ValidQuery(query, limit) && NeverFails(query) && AllGood(t, oracle)
    ensures var r := Migrate(t, limit, query, oracle); Pending(r.table) == {} && r.migrated == |Pending(t)|
  {
    CeilingCovers(|Pending(t)|, limit);
    var n := Batches(|Pending(t)|, limit);
    GoodRun(Progress(t, 0, 0), 0, n, n, limit, query, oracle);
    MigrationConserves(t, limit, query, oracle);
  }

  lemma {:induction false} BadRowStays(p: Progress, i: nat, n: nat, limit: nat, query: Query, oracle: Oracle, id: Id)
    requires ValidQuery(query, limit) && id in Pending(p.table) && forall k: nat :: !Good(p.table[id], oracle(k, id))
    ensures id in Pending(MigrateFrom(p, i, n, limit, query, oracle).table)
    decreases n - i
  {
    if i < n {
      match query(i, p.table) {
        case None => BadRowStays(p, i + 1, n, limit, query, oracle, id);
        case Some(ids) =>
          if ids != [] {
            BatchEffect(p, ids, i, oracle);
            assert id !in Moved(p.table, ids, i, oracle);
            BadRowStays(MigrateBatch(p, ids, i, oracle), i + 1, n, limit, query, oracle, id);
          }
      }
    }
  }

  /** When rows behave the same in every batch and no query fails, nothing is left exactly when every row is good. */
  lemma CompletesExactly(t: Table, limit: nat, query: Query, oracle: Oracle)
    requires limit > 0 && ValidQuery(query, limit) && NeverFails(query)
    requires Steady(oracle)
    ensures Pending(Migrate(t, limit, query, oracle).table) == {}
       <==> forall id :: id in Pending(t) ==> Good(t[id], oracle(0, id))
  {
    if forall id :: id in Pending(t) ==> Good(t[id], oracle(0, id)) {
      forall id, i: nat | id in Pending(t) ensures Good(t[id], oracle(i, id)) { assert oracle(i, id) == oracle(0, id); }
      MigrationCompletes(t, limit, query, oracle);
    } else {
      var id :| id in Pending(t) && !Good(t[id], oracle(0, id));
      forall k: nat ensures !Good(t[id], oracle(k, id)) { assert oracle(k, id) == oracle(0, id); }
      BadRowStays(Progress(t, 0, 0), 0, Batches(|Pending(t)|, limit), limit, query, oracle, id);
    }
  }

  // ---------------------------------------------------------------------------
  // When some rows can never be migrated
  // ---------------------------------------------------------------------------

  /** Rows behave the same in every batch. */
  ghost predicate Steady(oracle: Oracle) {
    forall i: nat, id :: oracle(i, id) == oracle(0, id)
  }

  function Goods(t: Table, oracle: Oracle): (ids: set<Id>)
    ensures ids <= Pending(t)
  {
    set id | id in Pending(t) && Good(t[id], oracle(0, id))
  }

  /** The pending rows that no batch can migrate. */
  function Bads(t: Table, oracle: Oracle): set<Id> {
    Pending(t) - Goods(t, oracle)
  }

  lemma SplitPending(t: Table, oracle: Oracle)
    ensures |Pending(t)| == |Goods(t, oracle)| + |Bads(t, oracle)|
  {
    DifferenceSize(Pending(t), Goods(t, oracle));
  }

  lemma SubsetSize(a: set<Id>, b: set<Id>)
    requires a <= b
    ensures |a| <= |b|
  {
    DifferenceSize(b, a);
  }

  /** A batch moves all its rows but the bad ones. */
  lemma MovedMany(t: Table, ids: seq<Id>, i: nat, oracle: Oracle)
    requires Distinct(ids) && AllPending(t, ids) && Steady(oracle)
    ensures |Moved(t, ids, i, oracle)| >= |ids| - |Bads(t, oracle)|
    ensures Moved(t, ids, i, oracle) <= Goods(t, oracle)
  {
    var moved := Moved(t, ids, i, oracle);
    assert forall id :: oracle(i, id) == oracle(0, id);
    DistinctSize(ids);
    assert moved <= Ids(ids) && Ids(ids) - moved <= Bads(t, oracle);
    DifferenceSize(Ids(ids), moved);
    SubsetSize(Ids(ids) - moved, Bads(t, oracle));
  }

  lemma GoodsAfter(p: Progress, q: Progress, moved: set<Id>, oracle: Oracle)
    requires MovedExactly(p, q, moved) && moved <= Goods(p.table, oracle)
    ensures Goods(q.table, oracle) == Goods(p.table, oracle) - moved && Bads(q.table, oracle) == Bads(p.table, oracle)
    ensures |Goods(q.table, oracle)| == |Goods(p.table, oracle)| - |moved|
  {
    MovedPending(p, q, moved);
    DifferenceSize(Goods(p.table, oracle), moved);
  }

  /** From p to q at least `enough` good rows were migrated, or all of them. */
  predicate Progressed(p: Progress, q: Progress, enough: nat, oracle: Oracle) {
    q.migrated - p.migrated >= Min(|Goods(p.table, oracle)|, enough)
  }

  /** One batch: the bad rows stay, and at least limit - bad good ones go, or all of them. */
  lemma SteadyBatch(p: Progress, ids: seq<Id>, i: nat, limit: nat, oracle: Oracle, gain: nat)
    requires Limited(p.table, limit, ids) && Steady(oracle) && |Bads(p.table, oracle)| + gain == limit && gain > 0
    ensures var q := MigrateBatch(p, ids, i, oracle);
            && |Bads(q.table, oracle)| + gain == limit
            && q.migrated - p.migrated == |Goods(p.table, oracle)| - |Goods(q.table, oracle)|
            && Progressed(p, q, gain, oracle)
  {
    BatchEffect(p, ids, i, oracle);
    MovedMany(p.table, ids, i, oracle);
    GoodsAfter(p, MigrateBatch(p, ids, i, oracle), Moved(p.table, ids, i, oracle), oracle);
    SplitPending(p.table, oracle);
  }

  lemma ProgressTrans(p: Progress, q: Progress, r: Progress, first: nat, rest: nat, oracle: Oracle)
    requires q.migrated - p.migrated == |Goods(p.table, oracle)| - |Goods(q.table, oracle)|
    requires Progressed(p, q, first, oracle) && Progressed(q, r, rest, oracle)
    ensures Progressed(p, r, first + rest, oracle)
  {
  }

  /** A batch followed by more of them, k in all. */
  lemma SteadyStep(p: Progress, ids: seq<Id>, i: nat, limit: nat, oracle: Oracle, gain: nat, r: Progress, k: nat)
    requires Limited(p.table, limit, ids) && Steady(oracle) && |Bads(p.table, oracle)| + gain == limit && gain > 0 && k > 0
    requires Progressed(MigrateBatch(p, ids, i, oracle), r, Capacity(k - 1, gain), oracle)
    ensures Progressed(p, r, Capacity(k, gain), oracle)
  {
    SteadyBatch(p, ids, i, limit, oracle, gain);
    ProgressTrans(p, MigrateBatch(p, ids, i, oracle), r, gain, Capacity(k - 1, gain), oracle);
  }

  lemma {:induction false} SteadyRun(p: Progress, i: nat, k: nat, n: nat, limit: nat, query: Query, oracle: Oracle, gain: nat)
    requires ValidQuery(query, limit) && NeverFails(query) && Steady(oracle)
    requires |Bads(p.table, oracle)| + gain == limit && gain > 0 && i + k == n
    ensures Progressed(p, MigrateFrom(p, i, n, limit, query, oracle), Capacity(k, gain), oracle)
    decreases k
  {
    if k > 0 {
      var ids := MigrateAnswered(p, i, n, limit, query, oracle);
      if ids != [] {
        SteadyBatch(p, ids, i, limit, oracle, gain);
        var q := MigrateBatch(p, ids, i, oracle);
        SteadyRun(q, i + 1, k - 1, n, limit, query, oracle, gain);
        SteadyStep(p, ids, i, limit, oracle, gain, MigrateFrom(q, i + 1, n, limit, query, oracle), k);
      }
    }
  }

  /**
   With fewer unmigratable rows than a batch holds, every batch makes progress: at least
   batches * (limit - bad) good rows are migrated, or all of them, whichever rows the queries choose.
   */
  lemma ProgressDespiteBadRows(t: Table, limit: nat, query: Query, oracle: Oracle)
    requires ValidQuery(query, limit) && NeverFails(query) && Steady(oracle) && |Bads(t, oracle)| < limit
    ensures var r := Migrate(t, limit, query, oracle);
            Min(|Goods(t, oracle)|, Batches(|Pending(t)|, limit) * (limit - |Bads(t, oracle)|)) <= r.migrated <= |Goods(t, oracle)|
  {
    var n := Batches(|Pending(t)|, limit);
    SteadyRun(Progress(t, 0, 0), 0, n, n, limit, query, oracle, limit - |Bads(t, oracle)|);
    CapacityIsProduct(n, limit - |Bads(t, oracle)|);
    OnlyGoodsMove(t, limit, query, oracle);
  }

  lemma OnlyGoodsMove(t: Table, limit: nat, query: Query, oracle: Oracle)
    requires limit > 0 && ValidQuery(query, limit) && Steady(oracle)
    ensures Migrate(t, limit, query, oracle).migrated <= |Goods(t, oracle)|
  {
    var r := Migrate(t, limit, query, oracle);
    forall id | id in Bads(t, oracle) ensures id in Pending(r.table) {
      forall k: nat ensures !Good(t[id], oracle(k, id)) { assert oracle(k, id) == oracle(0, id); }
      BadRowStays(Progress(t, 0, 0), 0, Batches(|Pending(t)|, limit), limit, query, oracle, id);
    }
    MigrationConserves(t, limit, query, oracle);
    SubsetSize(Bads(t, oracle), Pending(r.table));
    SplitPending(t, oracle);
  }

  /** The queries that fail are those of the batches that `fails` names. */
  ghost predicate FailsAt(query: Query, fails: nat -> bool) {
    forall i: nat, t: Table :: query(i, t).None? <==> fails(i)
  }

  /** How many of the batches i .. i+k-1 get an answer. */
  function Live(fails: nat -> bool, i: nat, k: nat): nat
    decreases k
  {
    if k == 0 then 0 else (if fails(i) then 0 else 1) + Live(fails, i + 1, k - 1)
  }

  lemma MigrateFailed(p: Progress, i: nat, n: nat, limit: nat, query: Query, oracle: Oracle)
    requires ValidQuery(query, limit) && i < n && query(i, p.table).None?
    ensures MigrateFrom(p, i, n, limit, query, oracle) == MigrateFrom(p, i + 1, n, limit, query, oracle)
  {
  }

  /** The claim about the batches i .. i+k-1 of which `live` are answered. */
  ghost predicate LiveDone(p: Progress, i: nat, n: nat, limit: nat, query: Query, oracle: Oracle, live: nat, gain: nat)
    requires ValidQuery(query, limit)
  {
    Progressed(p, MigrateFrom(p, i, n, limit, query, oracle), Capacity(live, gain), oracle)
  }

  lemma LiveStep(p: Progress, i: nat, n: nat, limit: nat, query: Query, oracle: Oracle, live: nat, gain: nat, ids: seq<Id>)
    requires ValidQuery(query, limit) && Steady(oracle) && i < n && gain > 0 && |Bads(p.table, oracle)| + gain == limit && live > 0
    requires Limited(p.table, limit, ids) && query(i, p.table) == Some(ids) && ids != []
    requires LiveDone(MigrateBatch(p, ids, i, oracle), i + 1, n, limit, query, oracle, live - 1, gain)
    ensures LiveDone(p, i, n, limit, query, oracle, live, gain)
  {
    MigrateNext(p, i, n, limit, query, oracle, ids);
    var r := MigrateFrom(MigrateBatch(p, ids, i, oracle), i + 1, n, limit, query, oracle);
    SteadyStep(p, ids, i, limit, oracle, gain, r, live);
  }

  lemma LiveEnd(p: Progress, i: nat, n: nat, limit: nat, query: Query, oracle: Oracle, live: nat, gain: nat)
    requires ValidQuery(query, limit) && limit > 0 && i < n && query(i, p.table) == Some([])
    ensures LiveDone(p, i, n, limit, query, oracle, live, gain)
  {
    assert Limited(p.table, limit, []);
    NoneGood(p, limit, oracle, Capacity(live, gain));
  }

  lemma LiveSkip(p: Progress, i: nat, n: nat, limit: nat, query: Query, oracle: Oracle, live: nat, gain: nat)
    requires ValidQuery(query, limit) && i < n && query(i, p.table).None?
    requires LiveDone(p, i + 1, n, limit, query, oracle, live, gain)
    ensures LiveDone(p, i, n, limit, query, oracle, live, gain)
  {
    MigrateFailed(p, i, n, limit, query, oracle);
  }

  lemma LiveNone(p: Progress, n: nat, limit: nat, query: Query, oracle: Oracle, gain: nat)
    requires ValidQuery(query, limit)
    ensures LiveDone(p, n, n, limit, query, oracle, 0, gain)
  {
  }

  lemma LiveNext(query: Query, fails: nat -> bool, i: nat, k: nat, t: Table)
    requires FailsAt(query, fails) && k > 0
    ensures Live(fails, i, k) == Live(fails, i + 1, k - 1) + if query(i, t).None? then 0 else 1
  {
  }

  /** One answered batch on the way. */
  lemma LiveBatch(p: Progress, i: nat, n: nat, limit: nat, query: Query, oracle: Oracle, gain: nat) returns (q: Progress)
    requires ValidQuery(query, limit) && Steady(oracle) && |Bads(p.table, oracle)| + gain == limit && gain > 0 && i < n
    requires query(i, p.table).Some? && query(i, p.table).value != []
    ensures |Bads(q.table, oracle)| + gain == limit
    ensures forall live: nat ::
      live > 0 && LiveDone(q, i + 1, n, limit, query, oracle, live - 1, gain) ==> LiveDone(p, i, n, limit, query, oracle, live, gain)
  {
    var ids := query(i, p.table).value;
    assert Limited(p.table, limit, ids);
    SteadyBatch(p, ids, i, limit, oracle, gain);
    q := MigrateBatch(p, ids, i, oracle);
    forall live: nat | live > 0 && LiveDone(q, i + 1, n, limit, query, oracle, live - 1, gain)
      ensures LiveDone(p, i, n, limit, query, oracle, live, gain)
    {
      LiveStep(p, i, n, limit, query, oracle, live, gain, ids);
    }
  }

  lemma {:induction false} FailingRun(p: Progress, i: nat, k: nat, n: nat, limit: nat, query: Query, oracle: Oracle, gain: nat,
                                      fails: nat -> bool, live: nat)
    requires ValidQuery(query, limit) && FailsAt(query, fails) && Steady(oracle) && live == Live(fails, i, k)
    requires |Bads(p.table, oracle)| + gain == limit && gain > 0 && i + k == n
    ensures LiveDone(p, i, n, limit, query, oracle, live, gain)
    decreases k
  {
    if k == 0 {
      LiveNone(p, n, limit, query, oracle, gain);
    } else {
      LiveNext(query, fails, i, k, p.table);
      var answer := query(i, p.table);
      if answer.None? {
        FailingRun(p, i + 1, k - 1, n, limit, query, oracle, gain, fails, live);
        LiveSkip(p, i, n, limit, query, oracle, live, gain);
      } else if answer.value == [] {
        LiveEnd(p, i, n, limit, query, oracle, live, gain);
      } else {
        var q := LiveBatch(p, i, n, limit, query, oracle, gain);
        FailingRun(q, i + 1, k - 1, n, limit, query, oracle, gain, fails, live - 1);
      }
    }
  }

  lemma NoneGood(p: Progress, limit: nat, oracle: Oracle, enough: nat)
    requires limit > 0 && Limited(p.table, limit, [])
    ensures Progressed(p, p, enough, oracle)
  {
    SplitPending(p.table, oracle);
  }

  /** A failed query wastes its own batch and no other: every answered batch still makes progress. */
  lemma ProgressDespiteFailures(t: Table, limit: nat, query: Query, oracle: Oracle, fails: nat -> bool)
    requires ValidQuery(query, limit) && FailsAt(query, fails) && Steady(oracle) && |Bads(t, oracle)| < limit
    ensures var answered := Live(fails, 0, Batches(|Pending(t)|, limit));
            Migrate(t, limit, query, oracle).migrated >= Min(|Goods(t, oracle)|, answered * (limit - |Bads(t, oracle)|))
  {
    var n, gain := Batches(|Pending(t)|, limit), limit - |Bads(t, oracle)|;
    FailingRun(Progress(t, 0, 0), 0, n, n, limit, query, oracle, gain, fails, Live(fails, 0, n));
    CapacityIsProduct(Live(fails, 0, n), gain);
  }

  /** A row is migrated exactly if its icon is an image data URL with a comma in it and all outside calls succeed. */
  lemma GoodExactly(a: Agent, o: Outcome)
    ensures Good(a, o) <==> o.Stored? && a.icon.Some? && |a.icon.value| >= 10 && a.icon.value[..10] == "data:image" && ',' in a.icon.value
  {
  }

  /** Some n members of a set. */
  ghost function Pick(s: set<Id>, n: nat): (ids: seq<Id>)
    requires n <= |s|
    ensures |ids| == n && Distinct(ids) && forall id :: id in ids ==> id in s
    decreases n
  {
    if n == 0 then []
    else
      var id :| id in s;
      assert |s - {id}| == |s| - 1;
      [id] + Pick(s - {id}, n - 1)
  }

  /** How many good rows a batch still migrates when all bad rows come first. */
  function Gain(t: Table, limit: nat, oracle: Oracle): nat {
    Max(limit - |Bads(t, oracle)|, 0)
  }

  /** The worst legal answer to the query: as many bad rows as fit, then good ones. */
  ghost function WorstIds(t: Table, limit: nat, oracle: Oracle): seq<Id> {
    Pick(Bads(t, oracle), Min(limit, |Bads(t, oracle)|)) + Pick(Goods(t, oracle), Min(Gain(t, limit, oracle), |Goods(t, oracle)|))
  }

  ghost function Worst(limit: nat, oracle: Oracle): Query {
    (i, t) => Some(WorstIds(t, limit, oracle))
  }

  lemma DistinctConcat(a: seq<Id>, b: seq<Id>)
    requires Distinct(a) && Distinct(b) && forall id :: id in a ==> id !in b
    ensures Distinct(a + b)
  {
    forall i, j | 0 <= i < j < |a + b| ensures (a + b)[i] != (a + b)[j] {
      if i < |a| <= j { assert a[i] in a && b[j - |a|] in b; }
    }
  }

  lemma WorstIsLimited(t: Table, limit: nat, oracle: Oracle)
    ensures Limited(t, limit, WorstIds(t, limit, oracle))
  {
    var b, g := Pick(Bads(t, oracle), Min(limit, |Bads(t, oracle)|)), Pick(Goods(t, oracle), Min(Gain(t, limit, oracle), |Goods(t, oracle)|));
    DistinctConcat(b, g);
    SplitPending(t, oracle);
    assert forall id :: id in b + g <==> id in b || id in g;
  }

  lemma WorstIsValid(limit: nat, oracle: Oracle)
    ensures ValidQuery(Worst(limit, oracle), limit) && NeverFails(Worst(limit, oracle))
  {
    forall i: nat, t: Table ensures Limited(t, limit, Worst(limit, oracle)(i, t).value) { WorstIsLimited(t, limit, oracle); }
  }

  /** The worst batch migrates the good rows in it and nothing else. */
  lemma WorstMoves(t: Table, i: nat, limit: nat, oracle: Oracle)
    requires Steady(oracle)
    ensures Limited(t, limit, WorstIds(t, limit, oracle))
    ensures |Moved(t, WorstIds(t, limit, oracle), i, oracle)| == Min(Gain(t, limit, oracle), |Goods(t, oracle)|)
  {
    WorstIsLimited(t, limit, oracle);
    var g := Pick(Goods(t, oracle), Min(Gain(t, limit, oracle), |Goods(t, oracle)|));
    var ids := WorstIds(t, limit, oracle);
    assert forall id :: oracle(i, id) == oracle(0, id);
    assert forall id :: id in g ==> id in ids;
    assert Moved(t, ids, i, oracle) == Ids(g);
    DistinctSize(g);
  }

  lemma WorstBatch(p: Progress, i: nat, limit: nat, oracle: Oracle)
    requires Steady(oracle)
    ensures var ids := WorstIds(p.table, limit, oracle);
            && Limited(p.table, limit, ids)
            && var q := MigrateBatch(p, ids, i, oracle);
               && Gain(q.table, limit, oracle) == Gain(p.table, limit, oracle)
               && q.migrated - p.migrated == Min(Gain(p.table, limit, oracle), |Goods(p.table, oracle)|)
               && |Goods(q.table, oracle)| == |Goods(p.table, oracle)| - (q.migrated - p.migrated)
  {
    var ids := WorstIds(p.table, limit, oracle);
    WorstMoves(p.table, i, limit, oracle);
    BatchEffect(p, ids, i, oracle);
    MovedMany(p.table, ids, i, oracle);
    GoodsAfter(p, MigrateBatch(p, ids, i, oracle), Moved(p.table, ids, i, oracle), oracle);
  }

  /** The batch loop with the worst answers. */
  ghost predicate WorstDone(p: Progress, r: Progress, k: nat, gain: nat, oracle: Oracle) {
    r.migrated - p.migrated == Min(|Goods(p.table, oracle)|, Capacity(k, gain))
  }

  lemma WorstStep(p: Progress, i: nat, limit: nat, oracle: Oracle, gain: nat, r: Progress, k: nat)
    requires Steady(oracle) && gain == Gain(p.table, limit, oracle) && k > 0
    requires Limited(p.table, limit, WorstIds(p.table, limit, oracle))
    requires WorstDone(MigrateBatch(p, WorstIds(p.table, limit, oracle), i, oracle), r, k - 1, gain, oracle)
    ensures WorstDone(p, r, k, gain, oracle)
  {
    WorstBatch(p, i, limit, oracle);
  }

  lemma {:induction false} WorstRun(p: Progress, i: nat, k: nat, n: nat, limit: nat, oracle: Oracle, gain: nat)
    requires limit > 0 && Steady(oracle) && ValidQuery(Worst(limit, oracle), limit)
    requires gain == Gain(p.table, limit, oracle) && i + k == n
    ensures WorstDone(p, MigrateFrom(p, i, n, limit, Worst(limit, oracle), oracle), k, gain, oracle)
    decreases k
  {
    if k > 0 {
      var ids := WorstIds(p.table, limit, oracle);
      WorstBatch(p, i, limit, oracle);
      if ids != [] {
        MigrateNext(p, i, n, limit, Worst(limit, oracle), oracle, ids);
        var q := MigrateBatch(p, ids, i, oracle);
        WorstRun(q, i + 1, k - 1, n, limit, oracle, gain);
        WorstStep(p, i, limit, oracle, gain, MigrateFrom(q, i + 1, n, limit, Worst(limit, oracle), oracle), k);
      }
    }
  }

  /** Whichever rows the queries choose, every good row is migrated. */
  ghost predicate NeverStarves(t: Table, limit: nat, oracle: Oracle)
    requires limit > 0
  {
    forall q: Query | ValidQuery(q, limit) && NeverFails(q) :: Migrate(t, limit, q, oracle).migrated == |Goods(t, oracle)|
  }

  /** The good rows fit into what the batches have left beside the bad ones. */
  predicate RoomForGoods(t: Table, limit: nat, oracle: Oracle)
    requires limit > 0
  {
    || Goods(t, oracle) == {}
    || (|Bads(t, oracle)| < limit && |Goods(t, oracle)| <= Batches(|Pending(t)|, limit) * (limit - |Bads(t, oracle)|))
  }

  lemma RoomIsEnough(t: Table, limit: nat, query: Query, oracle: Oracle)
    requires limit > 0 && Steady(oracle) && ValidQuery(query, limit) && NeverFails(query) && RoomForGoods(t, limit, oracle)
    ensures Migrate(t, limit, query, oracle).migrated == |Goods(t, oracle)|
  {
    OnlyGoodsMove(t, limit, query, oracle);
    if Goods(t, oracle) != {} { ProgressDespiteBadRows(t, limit, query, oracle); }
  }

  lemma WorstNeedsRoom(t: Table, limit: nat, oracle: Oracle)
    requires limit > 0 && Steady(oracle) && NeverStarves(t, limit, oracle)
    ensures RoomForGoods(t, limit, oracle)
  {
    WorstIsValid(limit, oracle);
    var n, gain := Batches(|Pending(t)|, limit), Gain(t, limit, oracle);
    WorstRun(Progress(t, 0, 0), 0, n, n, limit, oracle, gain);
    CapacityIsProduct(n, gain);
    assert |Goods(t, oracle)| <= n * gain;
  }

  /**
   Exactly when good rows cannot be left behind: there are none, or the bad rows are fewer than a batch holds
   and the room the batches have beside them is enough.
   */
  lemma StarvesExactly(t: Table, limit: nat, oracle: Oracle)
    requires limit > 0 && Steady(oracle)
    ensures NeverStarves(t, limit, oracle) <==> RoomForGoods(t, limit, oracle)
  {
    if RoomForGoods(t, limit, oracle) {
      forall q: Query | ValidQuery(q, limit) && NeverFails(q)
        ensures Migrate(t, limit, q, oracle).migrated == |Goods(t, oracle)|
      {
        RoomIsEnough(t, limit, q, oracle);
      }
    }
    if NeverStarves(t, limit, oracle) { WorstNeedsRoom(t, limit, oracle); }
  }

  /** One bad row is enough: with three good ones and batches of two, some choice of rows leaves one behind. */
  lemma StarvationWithinBatch(t: Table, oracle: Oracle)
    requires Steady(oracle) && |Bads(t, oracle)| == 1 && |Goods(t, oracle)| == 3
    ensures !NeverStarves(t, 2, oracle)
  {
    SplitPending(t, oracle);
    StarvesExactly(t, 2, oracle);
  }

  /** Row 1 has no icon and can never be migrated; row 2 can. */
  const STARVED: Table := map[1 := Agent(Base64, None), 2 := Agent(Base64, Some("data:image/png;base64,AA=="))]

  /** A legal answer to `LIMIT 1`: row 1 whenever it is pending. */
  ghost function PreferFirst(t: Table): seq<Id> {
    if Pending(t) == {} then []
    else if 1 in Pending(t) then [1]
    else
      var id :| id in Pending(t);
      [id]
  }

  ghost function Stubborn(): Query {
    (i, t) => Some(PreferFirst(t))
  }

  lemma {:induction false} StarvedFrom(i: nat, n: nat, oracle: Oracle)
    requires ValidQuery(Stubborn(), 1)
    ensures MigrateFrom(Progress(STARVED, 0, 0), i, n, 1, Stubborn(), oracle) == Progress(STARVED, 0, 0)
    decreases n - i
  {
    if i < n {
      assert 1 in Pending(STARVED) && PreferFirst(STARVED) == [1] && Skipped(STARVED[1]);
      assert [1][..0] == [];
      assert MigrateBatch(Progress(STARVED, 0, 0), [1], i, oracle) == Progress(STARVED, 0, 0);
      StarvedFrom(i + 1, n, oracle);
    }
  }

  /** With as many unmigratable rows as a batch holds, a good row can be left behind, although nothing fails. */
  lemma Starvation()
    ensures ValidQuery(Stubborn(), 1) && NeverFails(Stubborn())
    ensures Migrate(STARVED, 1, Stubborn(), (i, id) => Stored("f")) == Progress(STARVED, 0, 0)
    ensures 2 in Goods(STARVED, (i, id) => Stored("f"))
  {
    StarvedFrom(0, Batches(|Pending(STARVED)|, 1), (i, id) => Stored("f"));
  }

  // ---------------------------------------------------------------------------
  // The loops
  // ---------------------------------------------------------------------------

  class Migrator {
    var table: Table
    var migrated: nat
    var failed: nat

    constructor (t: Table)
      ensures View() == Progress(t, 0, 0)
    {
      table, migrated, failed := t, 0, 0;
    }

    function View(): Progress
      reads this
    {
      Progress(table, migrated, failed)
    }

    method RunBatch(ids: seq<Id>, i: nat, oracle: Oracle)
      requires forall id :: id in ids ==> id in table
      modifies this
      ensures View() == MigrateBatch(old(View()), ids, i, oracle)
    {
      assert ids[..0] == [];
      var k := 0;
      while k < |ids|
        invariant k <= |ids| && View() == MigrateBatch(old(View()), ids[..k], i, oracle)
      {
        assert ids[..k + 1][..k] == ids[..k];
        var a := table[ids[k]];
        if !Skipped(a) {
          var o := oracle(i, ids[k]);
          if !HasData(a) || !o.Stored? {
            failed := failed + 1;
          } else {
            table := table[ids[k] := Agent(Image, Some(o.fileId))];
            migrated := migrated + 1;
          }
        }
        k := k + 1;
      }
      assert ids[..k] == ids;
    }

    /** The batch loop of `main`. */
    method Run(limit: nat, query: Query, oracle: Oracle)
      requires limit > 0 && ValidQuery(query, limit) && migrated == 0 && failed == 0
      modifies this
      ensures View() == Migrate(old(table), limit, query, oracle)
      ensures migrated == |Pending(old(table))| - |Pending(table)|
    {
      var total := |Pending(table)|;
      var batches := Batches(total, limit);
      MigrationConserves(table, limit, query, oracle);
      var i := 0;
      while i < batches
        invariant i <= batches
        invariant MigrateFrom(View(), i, batches, limit, query, oracle) == Migrate(old(table), limit, query, oracle)
      {
        var agents := query(i, table);
        if agents.Some? {
          if agents.value == [] {
            break;
          }
          RunBatch(agents.value, i, oracle);
        }
        i := i + 1;
      }
    }
  }
}

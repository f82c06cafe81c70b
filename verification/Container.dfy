/**
 The lazily wired service container (api/internal/container/service_container.go): every getter builds
 its service on the first call, calling other getters for the constructor arguments, and remembers it.
 Cycles between services are broken by setters that are called once the partner exists.

 A service object is its position in `objs`, the list of everything ever constructed. `links` are the
 other services it was given, by constructor or by setter.
 */
module Container {
  import opened Basics

  datatype Service =
    | EnterpriseGroup | Billing | Payment | TaskManager | TaskHandlerRegistry | WorkflowTest | Tenant
    | AccountImpl | AccountAdapter | Account | PermissionFilter | Department | Register | TenantAdapter
    | AccountTenant | Organization | OfficialRoute | Bootstrap | Dataset | File | FileFolder | ContentParse
    | ContentParseModule | ContentExtractor | DataSource | SQLAuditRecorder | SQLBase | DataLibrary | Prompt
    | LLMAPIKeyRepository | Authorization | ResourcePermission | Scheduler | LLMClient | Quota | PluginRunner
    | AccountInstallation | ToolManager | ToolEngine | Memory | AgentMemory | KnowledgeRetrieval
    | MemberSubscription | DefaultModel | GraphFlow | NotificationSMS | ShortLink | WorkflowEngineFactory
    | WorkflowDiagnoser | GlobalExtractor

  /** The getters a getter calls for the service it builds, in order; `plugins` is the plugin-runner switch. */
  function Deps(s: Service, plugins: bool): seq<Service> {
    match s
    case WorkflowTest => [File]
    case Tenant => [Quota]
    case AccountImpl => [Tenant, Billing, EnterpriseGroup, OfficialRoute]
    case AccountAdapter => [AccountImpl]
    case Account => [AccountImpl]
    case Register => [Tenant, EnterpriseGroup, Billing, OfficialRoute]
    case TenantAdapter => [Tenant]
    case AccountTenant => [Tenant]
    case Organization => [Account, Tenant, Dataset, OfficialRoute]
    case Bootstrap => [Tenant, EnterpriseGroup]
    case Dataset => [Tenant, Quota, LLMClient, TaskManager]
    case File => [Quota, Organization, LLMClient, DefaultModel]
    case FileFolder => [Account]
    case ContentParse => [ContentParseModule]
    case ContentParseModule => [Account, Organization, LLMClient, DefaultModel]
    case ContentExtractor => [File, ContentParse]
    case DataSource => [Account, File, Organization, Authorization, ResourcePermission, Quota, LLMClient, DefaultModel, ContentParse]
    case SQLBase => [SQLAuditRecorder]
    case DataLibrary => [ContentParseModule, LLMClient, DefaultModel]
    case Prompt => [Account, Organization, LLMClient, DefaultModel]
    case Authorization => [Organization]
    case ResourcePermission => [Authorization]
    case LLMClient => [LLMAPIKeyRepository]
    case ToolManager =>
      (if plugins then [PluginRunner, AccountInstallation] else []) +
      [KnowledgeRetrieval, DataSource, Organization, File, ContentExtractor, FileFolder, LLMClient, DefaultModel, Memory]
    case ToolEngine => [ToolManager]
    case KnowledgeRetrieval => [LLMClient, DefaultModel, GraphFlow]
    case GraphFlow => [LLMClient, DefaultModel, TaskManager]
    case WorkflowEngineFactory =>
      [ContentExtractor, LLMClient, ToolEngine, GraphFlow, File, Prompt, NotificationSMS, SQLBase]
    case WorkflowDiagnoser => [LLMClient]
    case GlobalExtractor => [File, ContentParse]
    case _ => []
  }

  /** A rank that every getter call inside a getter lowers. */
  function Rank(s: Service): nat {
    match s
    case WorkflowEngineFactory => 10
    case ToolEngine => 9
    case ToolManager => 8
    case ContentExtractor => 7
    case DataSource => 7
    case GlobalExtractor => 8
    case ContentParse => 6
    case ResourcePermission => 6
    case DataLibrary => 6
    case WorkflowTest => 6
    case File => 5
    case ContentParseModule => 5
    case Authorization => 5
    case Prompt => 5
    case Organization => 4
    case FileFolder => 4
    case Account => 3
    case AccountAdapter => 3
    case KnowledgeRetrieval => 3
    case AccountImpl => 2
    case Register => 2
    case TenantAdapter => 2
    case AccountTenant => 2
    case Bootstrap => 2
    case Dataset => 2
    case GraphFlow => 2
    case WorkflowDiagnoser => 2
    case Tenant => 1
    case LLMClient => 1
    case SQLBase => 1
    case _ => 0
  }

  /** The getter call graph with its rank. */
  datatype Graph = Graph(calls: Service -> seq<Service>, rank: Service -> nat)

  ghost predicate Acyclic(g: Graph) {
    forall s, d :: d in g.calls(s) ==> g.rank(d) < g.rank(s)
  }

  function GetterGraph(plugins: bool): Graph {
    Graph(s => Deps(s, plugins), s => Rank(s))
  }

  /** Every call goes to a lower rank, and none to a switched-off plugin runner. */
  predicate Lower(s: Service, d: Service, plugins: bool) {
    Rank(d) < Rank(s) && (d == PluginRunner ==> plugins)
  }

  lemma ToolManagerRank(d: Service, plugins: bool)
    requires d in Deps(ToolManager, plugins)
    ensures Lower(ToolManager, d, plugins)
  {
  }

  lemma DataSourceRank(d: Service, plugins: bool)
    requires d in Deps(DataSource, plugins)
    ensures Lower(DataSource, d, plugins)
  {
  }

  lemma EngineFactoryRank(d: Service, plugins: bool)
    requires d in Deps(WorkflowEngineFactory, plugins)
    ensures Lower(WorkflowEngineFactory, d, plugins)
  {
  }

  lemma TopRank(s: Service, d: Service, plugins: bool)
    requires d in Deps(s, plugins) && s in {ToolEngine, ContentExtractor, GlobalExtractor}
    ensures Lower(s, d, plugins)
  {
  }

  lemma MiddleRank(s: Service, d: Service, plugins: bool)
    requires d in Deps(s, plugins) && 4 <= Rank(s) <= 6
    ensures Lower(s, d, plugins)
  {
  }

  lemma ThirdRank(s: Service, d: Service, plugins: bool)
    requires d in Deps(s, plugins) && Rank(s) == 3
    ensures Lower(s, d, plugins)
  {
  }

  lemma SecondRank(s: Service, d: Service, plugins: bool)
    requires d in Deps(s, plugins) && Rank(s) == 2
    ensures Lower(s, d, plugins)
  {
  }

  lemma BottomRank(s: Service, d: Service, plugins: bool)
    requires d in Deps(s, plugins) && Rank(s) <= 1
    ensures Lower(s, d, plugins)
  {
  }

  lemma CallsLowerRank(s: Service, d: Service, plugins: bool)
    requires d in Deps(s, plugins)
    ensures Lower(s, d, plugins)
  {
    if s == ToolManager {
      ToolManagerRank(d, plugins);
    } else if s == DataSource {
      DataSourceRank(d, plugins);
    } else if s == WorkflowEngineFactory {
      EngineFactoryRank(d, plugins);
    } else if Rank(s) <= 1 {
      BottomRank(s, d, plugins);
    } else if Rank(s) == 2 {
      SecondRank(s, d, plugins);
    } else if Rank(s) == 3 {
      ThirdRank(s, d, plugins);
    } else if Rank(s) <= 6 {
      MiddleRank(s, d, plugins);
    } else {
      TopRank(s, d, plugins);
    }
  }

  /** The getter call graph has no cycle, so every getter call terminates. */
  lemma GettersAcyclic(plugins: bool)
    ensures Acyclic(GetterGraph(plugins))
  {
    forall s, d | d in GetterGraph(plugins).calls(s) ensures GetterGraph(plugins).rank(d) < GetterGraph(plugins).rank(s) {
      CallsLowerRank(s, d, plugins);
    }
  }

  // ---------------------------------------------------------------------------
  // Getters
  // ---------------------------------------------------------------------------

  datatype Obj = Obj(kind: Service, links: map<Service, nat>)

  datatype State = State(slot: map<Service, nat>, objs: seq<Obj>)

  const NEW := State(map[], [])

  /** A setter on object k: its link to `partner` becomes object i. */
  function SetLink(objs: seq<Obj>, k: nat, partner: Service, i: nat): seq<Obj> {
    if k >= |objs| then objs else objs[k := Obj(objs[k].kind, objs[k].links[partner := i])]
  }

  /** A setter call: the current `holder` is given the current `partner`. */
  function Wire(c: State, holder: Service, partner: Service): State {
    if holder !in c.slot || partner !in c.slot then c
    else c.(objs := SetLink(c.objs, c.slot[holder], partner, c.slot[partner]))
  }

  /** The constructor call with the current services, and the memo. */
  function Build(g: Graph, c: State, s: Service): State {
    State(c.slot[s := |c.objs|], c.objs + [Obj(s, map d | d in g.calls(s) && d in c.slot :: c.slot[d])])
  }

  /** Building includes the setter wiring inside the getters of the organization and the dataset service. */
  function Construct(g: Graph, c: State, s: Service): State {
    if s == Organization || s == Dataset then Wire(Build(g, c, s), Dataset, Organization) else Build(g, c, s)
  }

  /** A getter; `off` are the switched-off services, whose getter returns nil and builds nothing. */
  ghost function Get(g: Graph, off: set<Service>, c: State, s: Service): State
    requires Acyclic(g)
    decreases g.rank(s), 1, 0
  {
    if s in c.slot || s in off then c
    else Construct(g, GetAll(g, off, c, g.calls(s), g.rank(s)), s)
  }

  /** Several getters, one after the other. */
  ghost function GetAll(g: Graph, off: set<Service>, c: State, ss: seq<Service>, bound: nat): State
    requires Acyclic(g) && forall s :: s in ss ==> g.rank(s) < bound
    decreases bound, 0, |ss|
  {
    if ss == [] then c else Get(g, off, GetAll(g, off, c, ss[..|ss| - 1], bound), ss[|ss| - 1])
  }

  // ---------------------------------------------------------------------------
  // The invariant
  // ---------------------------------------------------------------------------

  predicate SlotsOk(c: State) {
    forall s :: s in c.slot ==> c.slot[s] < |c.objs| && c.objs[c.slot[s]].kind == s
  }

  /** The remembered holder was given the remembered partner. */
  predicate Holds(c: State, holder: Service, partner: Service) {
    && holder in c.slot && partner in c.slot && c.slot[holder] < |c.objs|
    && partner in c.objs[c.slot[holder]].links && c.objs[c.slot[holder]].links[partner] == c.slot[partner]
  }

  /**
   Everything a remembered service was constructed with is remembered too, and is the current one, except
   perhaps for the file service of the services in `stale`.
   */
  ghost predicate Coherent(g: Graph, c: State, stale: set<Service>) {
    forall s, d :: s in c.slot && d in g.calls(s) && !(s in stale && d == File) ==> Holds(c, s, d)
  }

  predicate DatasetWired(c: State) {
    Dataset in c.slot && Organization in c.slot ==> Holds(c, Dataset, Organization)
  }

  /** Every object ever constructed is the remembered one of its kind: each service was built at most once. */
  predicate BuiltOnce(c: State) {
    forall i :: 0 <= i < |c.objs| ==> c.objs[i].kind in c.slot && c.slot[c.objs[i].kind] == i
  }

  ghost predicate Inv(g: Graph, c: State, stale: set<Service>) {
    SlotsOk(c) && Coherent(g, c, stale) && DatasetWired(c)
  }

  /**
   What getters never undo: memos stay, and so does every partner a remembered service holds; a new memo
   is a new object, and no object forgets the file service it was given.
   */
  ghost predicate Extends(c: State, t: State) {
    && |c.objs| <= |t.objs|
    && (forall s :: s in t.slot && s !in c.slot ==> |c.objs| <= t.slot[s])
    && (forall i :: 0 <= i < |c.objs| && File in c.objs[i].links ==>
          File in t.objs[i].links && t.objs[i].links[File] == c.objs[i].links[File])
    && (forall s :: s in c.slot ==> s in t.slot && t.slot[s] == c.slot[s])
    && (forall h, p :: Holds(c, h, p) ==> Holds(t, h, p))
  }

  lemma WireKinds(c: State, holder: Service, partner: Service)
    requires SlotsOk(c)
    ensures var t := Wire(c, holder, partner);
            t.slot == c.slot && |t.objs| == |c.objs| && SlotsOk(t) && (BuiltOnce(c) ==> BuiltOnce(t))
    ensures forall i :: 0 <= i < |c.objs| ==> Wire(c, holder, partner).objs[i].kind == c.objs[i].kind
  {
  }

  lemma WireEffect(c: State, holder: Service, partner: Service)
    requires SlotsOk(c) && holder in c.slot && partner in c.slot && partner != File
    ensures var t := Wire(c, holder, partner);
            t.slot == c.slot && SlotsOk(t) && Holds(t, holder, partner) && Extends(c, t) && (BuiltOnce(c) ==> BuiltOnce(t))
  {
    var t := Wire(c, holder, partner);
    WireKinds(c, holder, partner);
    forall h, p | Holds(c, h, p) ensures Holds(t, h, p) { WireHolds(c, holder, partner, h, p); }
  }

  lemma WireHolds(c: State, holder: Service, partner: Service, h: Service, p: Service)
    requires SlotsOk(c) && holder in c.slot && partner in c.slot && Holds(c, h, p)
    ensures Holds(Wire(c, holder, partner), h, p)
  {
    assert c.slot[h] == c.slot[holder] ==> h == holder;
  }

  lemma BuildExtends(g: Graph, c: State, s: Service)
    requires SlotsOk(c) && s !in c.slot
    ensures Extends(c, Build(g, c, s))
  {
    var t := Build(g, c, s);
    assert forall h :: h in c.slot ==> t.objs[t.slot[h]] == c.objs[c.slot[h]];
  }

  lemma BuildKeeps(g: Graph, c: State, s: Service, stale: set<Service>)
    requires SlotsOk(c) && Coherent(g, c, stale) && s !in c.slot && s !in g.calls(s)
    requires forall d :: d in g.calls(s) ==> d in c.slot
    ensures var t := Build(g, c, s);
            SlotsOk(t) && Coherent(g, t, stale) && Extends(c, t) && (BuiltOnce(c) ==> BuiltOnce(t))
  {
    var t := Build(g, c, s);
    BuildExtends(g, c, s);
    forall h, d | h in t.slot && d in g.calls(h) && !(h in stale && d == File) ensures Holds(t, h, d) {
      if h != s { assert Holds(c, h, d); }
    }
  }

  lemma ConstructKeeps(g: Graph, c: State, s: Service, stale: set<Service>)
    requires Inv(g, c, stale) && s !in c.slot && s !in g.calls(s)
    requires forall d :: d in g.calls(s) ==> d in c.slot
    ensures var t := Construct(g, c, s);
            && Inv(g, t, stale) && Extends(c, t) && (BuiltOnce(c) ==> BuiltOnce(t))
            && t.slot.Keys == c.slot.Keys + {s}
  {
    BuildKeeps(g, c, s, stale);
    var b := Build(g, c, s);
    assert b.slot.Keys == c.slot.Keys + {s};
    if (s == Organization || s == Dataset) && Dataset in b.slot && Organization in b.slot {
      WireEffect(b, Dataset, Organization);
      ExtendsTrans(c, b, Wire(b, Dataset, Organization));
    }
  }

  /** Services that are built are never switched off; switched-off services are nobody's argument. */
  ghost predicate Usable(g: Graph, off: set<Service>) {
    Acyclic(g) && forall s, d :: d in g.calls(s) ==> d !in off
  }

  /** The container grew: the invariant holds, nothing was undone, and nothing of a higher rank was built. */
  ghost predicate Grew(g: Graph, c: State, t: State, bound: int, stale: set<Service>) {
    && Inv(g, t, stale) && Extends(c, t) && (BuiltOnce(c) ==> BuiltOnce(t))
    && (forall x :: x in t.slot && x !in c.slot ==> g.rank(x) <= bound)
  }

  lemma GrewTrans(g: Graph, a: State, b: State, c: State, bound: int, stale: set<Service>)
    requires Grew(g, a, b, bound, stale) && Grew(g, b, c, bound, stale)
    ensures Grew(g, a, c, bound, stale)
  {
  }

  lemma GrewMore(g: Graph, a: State, b: State, c: State, low: int, bound: int, stale: set<Service>)
    requires Grew(g, a, b, bound, stale) && Grew(g, b, c, low, stale) && low <= bound
    ensures Grew(g, a, c, bound, stale)
  {
    assert Grew(g, b, c, bound, stale);
    GrewTrans(g, a, b, c, bound, stale);
  }

  lemma GrewConstruct(g: Graph, c: State, mid: State, s: Service, stale: set<Service>)
    requires Acyclic(g) && Grew(g, c, mid, g.rank(s) - 1, stale) && s !in c.slot
    requires forall d :: d in g.calls(s) ==> d in mid.slot
    ensures Grew(g, c, Construct(g, mid, s), g.rank(s), stale) && s in Construct(g, mid, s).slot
  {
    ConstructKeeps(g, mid, s, stale);
    GrewTrans(g, c, mid, Construct(g, mid, s), g.rank(s), stale);
  }

  /** A getter keeps the invariant and every memo, leaves its service built, and builds nothing of higher rank. */
  lemma {:induction false} GetKeeps(g: Graph, off: set<Service>, c: State, s: Service, stale: set<Service>)
    requires Usable(g, off) && Inv(g, c, stale)
    ensures Grew(g, c, Get(g, off, c, s), g.rank(s), stale)
    ensures s !in off ==> s in Get(g, off, c, s).slot
    decreases g.rank(s), 1, 0
  {
    if s !in c.slot && s !in off {
      GetAllKeeps(g, off, c, g.calls(s), g.rank(s), stale);
      GrewConstruct(g, c, GetAll(g, off, c, g.calls(s), g.rank(s)), s, stale);
    }
  }

  lemma {:induction false} GetAllKeeps(g: Graph, off: set<Service>, c: State, ss: seq<Service>, bound: nat, stale: set<Service>)
    requires Usable(g, off) && Inv(g, c, stale) && forall s :: s in ss ==> g.rank(s) < bound
    ensures Grew(g, c, GetAll(g, off, c, ss, bound), bound - 1, stale)
    ensures forall s :: s in ss && s !in off ==> s in GetAll(g, off, c, ss, bound).slot
    decreases bound, 0, |ss|
  {
    if ss != [] {
      var init, last := ss[..|ss| - 1], ss[|ss| - 1];
      InitLast(ss);
      GetAllKeeps(g, off, c, init, bound, stale);
      var mid := GetAll(g, off, c, init, bound);
      GetKeeps(g, off, mid, last, stale);
      GrewMore(g, c, mid, Get(g, off, mid, last), g.rank(last), bound - 1, stale);
    }
  }

  // ---------------------------------------------------------------------------
  // Initialization and use
  // ---------------------------------------------------------------------------

  function Off(plugins: bool): set<Service> {
    if plugins then {} else {PluginRunner}
  }

  lemma GettersUsable(plugins: bool)
    ensures Usable(GetterGraph(plugins), Off(plugins))
  {
    GettersAcyclic(plugins);
    forall s, d | d in GetterGraph(plugins).calls(s) ensures d !in Off(plugins) { CallsLowerRank(s, d, plugins); }
  }

  /** Any sequence of getter calls. */
  ghost function Use(g: Graph, off: set<Service>, c: State, ss: seq<Service>): State
    requires Acyclic(g)
  {
    if ss == [] then c else Get(g, off, Use(g, off, c, ss[..|ss| - 1]), ss[|ss| - 1])
  }

  lemma {:induction false} UseKeeps(g: Graph, off: set<Service>, c: State, ss: seq<Service>, bound: int, stale: set<Service>)
    requires Usable(g, off) && Inv(g, c, stale) && forall s :: s in ss ==> g.rank(s) <= bound
    ensures Grew(g, c, Use(g, off, c, ss), bound, stale)
    ensures forall s :: s in ss && s !in off ==> s in Use(g, off, c, ss).slot
  {
    if ss != [] {
      var init, last := ss[..|ss| - 1], ss[|ss| - 1];
      UseKeeps(g, off, c, init, bound, stale);
      var mid := Use(g, off, c, init);
      GetKeeps(g, off, mid, last, stale);
      GrewTrans(g, c, mid, Get(g, off, mid, last), bound, stale);
      InitLast(ss);
    }
  }

  datatype Pair = Pair(holder: Service, partner: Service)

  /** The setter calls of `wireAccountDependencies` and `wireWorkspaceDependencies`, in order. */
  const LATE: seq<Pair> := [
    Pair(AccountImpl, Register), Pair(AccountImpl, Organization),
    Pair(Account, Register), Pair(AccountAdapter, Register),
    Pair(Tenant, AccountAdapter), Pair(Tenant, Organization)]

  const CORE: seq<Service> := [Quota, Tenant, AccountImpl, Organization]

  /** Fetch two services and hand the second to the first through its setter. */
  ghost function GetAndWire(g: Graph, off: set<Service>, c: State, p: Pair): State
    requires Acyclic(g)
  {
    Wire(Use(g, off, c, [p.holder, p.partner]), p.holder, p.partner)
  }

  ghost function WireAll(g: Graph, off: set<Service>, c: State, ps: seq<Pair>): State
    requires Acyclic(g)
  {
    if ps == [] then c else GetAndWire(g, off, WireAll(g, off, c, ps[..|ps| - 1]), ps[|ps| - 1])
  }

  /** `initializeCoreServices` and the late wiring. */
  ghost function WireCore(g: Graph, off: set<Service>, c: State): State
    requires Acyclic(g)
  {
    WireAll(g, off, Use(g, off, c, CORE), LATE)
  }

  function Forget(c: State): State {
    c.(slot := c.slot - {File})
  }

  /** `InitializeDependencies`: the core wiring, then the file service is forgotten, rebuilt and published. */
  ghost function Initialize(g: Graph, off: set<Service>, c: State): State
    requires Acyclic(g)
  {
    Publish(g, off, Forget(WireCore(g, off, c)))
  }

  /** The last part of the initialization, after the file service was forgotten. */
  ghost function Publish(g: Graph, off: set<Service>, c: State): State
    requires Acyclic(g)
  {
    Build(g, Use(g, off, c, [File, ContentParse]), GlobalExtractor)
  }

  /** The partners that only setters provide are in place. */
  predicate LateBound(c: State) {
    forall p :: p in LATE ==> Holds(c, p.holder, p.partner)
  }

  /** What initialization needs to know of the getter graph. */
  ghost predicate Suited(g: Graph, off: set<Service>) {
    && Usable(g, off)
    && (forall s :: s in CORE ==> g.rank(s) < g.rank(File) && s !in off)
    && (forall p :: p in LATE ==> Wireable(g, off, p))
    && File !in off && ContentParse !in off && g.calls(GlobalExtractor) == [File, ContentParse]
    && g.rank(File) < g.rank(GlobalExtractor) && g.rank(ContentParse) < g.rank(GlobalExtractor)
  }

  ghost predicate Wireable(g: Graph, off: set<Service>, p: Pair) {
    && g.rank(p.holder) < g.rank(File) && g.rank(p.partner) < g.rank(File)
    && p.holder !in off && p.partner !in off
  }

  lemma CoreRank(s: Service, plugins: bool)
    requires s in CORE
    ensures Rank(s) < Rank(File) && s !in Off(plugins)
  {
  }

  lemma LateRank(p: Pair, plugins: bool)
    requires p in LATE
    ensures Rank(p.holder) < Rank(File) && Rank(p.partner) < Rank(File)
    ensures p.holder !in Off(plugins) && p.partner !in Off(plugins)
  {
  }

  /** The real getter graph meets those needs. */
  lemma GettersSuited(plugins: bool)
    ensures Suited(GetterGraph(plugins), Off(plugins))
  {
    GettersUsable(plugins);
    var g, off := GetterGraph(plugins), Off(plugins);
    assert File !in off && ContentParse !in off;
    assert forall s :: g.rank(s) == Rank(s);
    assert g.calls(GlobalExtractor) == Deps(GlobalExtractor, plugins) == [File, ContentParse];
    forall s | s in CORE ensures g.rank(s) < g.rank(File) && s !in off { CoreRank(s, plugins); }
    forall p | p in LATE ensures Wireable(g, off, p) { LateRank(p, plugins); }
  }

  lemma GetAndWireKeeps(g: Graph, off: set<Service>, c: State, p: Pair)
    requires Usable(g, off) && Inv(g, c, {}) && Wireable(g, off, p)
    ensures var t := GetAndWire(g, off, c, p); Grew(g, c, t, g.rank(File) - 1, {}) && Holds(t, p.holder, p.partner)
  {
    UseKeeps(g, off, c, [p.holder, p.partner], g.rank(File) - 1, {});
    var u := Use(g, off, c, [p.holder, p.partner]);
    assert p.holder in [p.holder, p.partner] && p.partner in [p.holder, p.partner];
    WireEffect(u, p.holder, p.partner);
  }

  lemma HoldsMore(g: Graph, c: State, mid: State, t: State, ps: seq<Pair>, p: Pair, bound: int)
    requires Grew(g, c, mid, bound, {}) && Grew(g, mid, t, bound, {}) && Holds(t, p.holder, p.partner)
    requires forall q :: q in ps ==> Holds(mid, q.holder, q.partner)
    ensures Grew(g, c, t, bound, {}) && forall q :: q in ps + [p] ==> Holds(t, q.holder, q.partner)
  {
    GrewTrans(g, c, mid, t, bound, {});
    forall q | q in ps + [p] ensures Holds(t, q.holder, q.partner) {
      assert q in ps || q == p;
    }
  }

  lemma {:induction false} WireAllKeeps(g: Graph, off: set<Service>, c: State, ps: seq<Pair>)
    requires Usable(g, off) && Inv(g, c, {}) && forall p :: p in ps ==> Wireable(g, off, p)
    ensures Grew(g, c, WireAll(g, off, c, ps), g.rank(File) - 1, {})
    ensures forall p :: p in ps ==> Holds(WireAll(g, off, c, ps), p.holder, p.partner)
  {
    if ps != [] {
      var init, last := ps[..|ps| - 1], ps[|ps| - 1];
      InitLast(ps);
      WireAllKeeps(g, off, c, init);
      var mid := WireAll(g, off, c, init);
      GetAndWireKeeps(g, off, mid, last);
      HoldsMore(g, c, mid, GetAndWire(g, off, mid, last), init, last, g.rank(File) - 1);
    }
  }

  lemma WireCoreKeeps(g: Graph, off: set<Service>, c: State)
    requires Suited(g, off) && Inv(g, c, {})
    ensures Grew(g, c, WireCore(g, off, c), g.rank(File) - 1, {}) && LateBound(WireCore(g, off, c))
  {
    UseKeeps(g, off, c, CORE, g.rank(File) - 1, {});
    var mid := Use(g, off, c, CORE);
    WireAllKeeps(g, off, mid, LATE);
    GrewTrans(g, c, mid, WireAll(g, off, mid, LATE), g.rank(File) - 1, {});
  }

  /** The remembered services that were constructed with the file service. */
  function FileHolders(g: Graph, c: State): set<Service> {
    set s | s in c.slot && File in g.calls(s)
  }

  /** What is built below the rank of the file service does not hold it. */
  lemma SameFileHolders(g: Graph, c: State, t: State)
    requires Acyclic(g) && Grew(g, c, t, g.rank(File) - 1, {})
    ensures FileHolders(g, t) == FileHolders(g, c)
    ensures File in t.slot <==> File in c.slot
    ensures g.rank(File) < g.rank(GlobalExtractor) && GlobalExtractor !in c.slot ==> GlobalExtractor !in t.slot
  {
  }

  /** Forgetting the file service makes exactly its holders stale. */
  lemma ForgetKeeps(g: Graph, c: State)
    requires Inv(g, c, {})
    ensures Inv(g, Forget(c), FileHolders(g, c))
  {
  }

  lemma ForgetLate(c: State)
    requires LateBound(c)
    ensures LateBound(Forget(c))
  {
    forall p | p in LATE ensures Holds(Forget(c), p.holder, p.partner) {
      assert Holds(c, p.holder, p.partner) && p.holder != File && p.partner != File;
    }
  }

  lemma ForgetNothing(c: State)
    requires File !in c.slot
    ensures Forget(c) == c
  {
    assert c.slot - {File} == c.slot;
  }

  /** Apart from the file service, what was remembered before stays remembered. */
  lemma ForgetSlots(c: State, core: State, t: State)
    requires Extends(c, core) && Extends(Forget(core), t)
    ensures forall s :: s in c.slot && s != File ==> s in t.slot && t.slot[s] == c.slot[s]
  {
    forall s | s in c.slot && s != File ensures s in t.slot && t.slot[s] == c.slot[s] {
      assert s in core.slot && s in Forget(core).slot;
    }
  }

  lemma LateStays(c: State, t: State)
    requires LateBound(c) && Extends(c, t)
    ensures LateBound(t)
  {
  }

  lemma ExtendsTrans(a: State, b: State, c: State)
    requires Extends(a, b) && Extends(b, c)
    ensures Extends(a, c)
  {
  }

  lemma PublishKeeps(g: Graph, off: set<Service>, c: State, stale: set<Service>)
    requires Suited(g, off) && Inv(g, c, stale) && GlobalExtractor !in c.slot
    ensures var t := Publish(g, off, c);
            Inv(g, t, stale) && Extends(c, t) && (BuiltOnce(c) ==> BuiltOnce(t)) && File in t.slot
  {
    var fs := [File, ContentParse];
    UseKeeps(g, off, c, fs, g.rank(GlobalExtractor) - 1, stale);
    var u := Use(g, off, c, fs);
    assert fs[0] in fs && fs[1] in fs;
    BuildKeeps(g, u, GlobalExtractor, stale);
    ExtendsTrans(c, u, Build(g, u, GlobalExtractor));
  }

  /** Initialization wires everything; only file holders from before it are left stale. */
  lemma InitializeWires(g: Graph, off: set<Service>, c: State)
    requires Suited(g, off) && Inv(g, c, {}) && GlobalExtractor !in c.slot
    ensures var t := Initialize(g, off, c); Inv(g, t, FileHolders(g, c)) && LateBound(t)
  {
    WireCoreKeeps(g, off, c);
    var core := WireCore(g, off, c);
    SameFileHolders(g, c, core);
    ForgetKeeps(g, core);
    ForgetLate(core);
    PublishKeeps(g, off, Forget(core), FileHolders(g, c));
    LateStays(Forget(core), Publish(g, off, Forget(core)));
  }

  lemma InitializeOnce(g: Graph, off: set<Service>, c: State)
    requires Suited(g, off) && Inv(g, c, {}) && GlobalExtractor !in c.slot && File !in c.slot && BuiltOnce(c)
    ensures BuiltOnce(Initialize(g, off, c))
  {
    WireCoreKeeps(g, off, c);
    var core := WireCore(g, off, c);
    SameFileHolders(g, c, core);
    ForgetNothing(core);
    PublishKeeps(g, off, core, {});
  }

  /** Such a holder does hold the forgotten service, not the new one. */
  lemma StaleHolder(g: Graph, off: set<Service>, c: State, h: Service)
    requires Suited(g, off) && Inv(g, c, {}) && GlobalExtractor !in c.slot && h in FileHolders(g, c)
    ensures !Holds(Initialize(g, off, c), h, File)
  {
    WireCoreKeeps(g, off, c);
    var core := WireCore(g, off, c);
    SameFileHolders(g, c, core);
    ForgetKeeps(g, core);
    PublishKeeps(g, off, Forget(core), FileHolders(g, c));
    StaleAfterForget(core, Publish(g, off, Forget(core)), h);
  }

  lemma StaleAfterForget(core: State, t: State, h: Service)
    requires SlotsOk(core) && Holds(core, h, File) && h != File && Extends(Forget(core), t)
    ensures !Holds(t, h, File)
  {
    var f := Forget(core);
    assert h in f.slot && f.slot[h] == core.slot[h];
    assert t.objs[core.slot[h]].links[File] == core.slot[File] < |f.objs|;
  }

  lemma InitializeKeepsSlots(g: Graph, off: set<Service>, c: State)
    requires Suited(g, off) && Inv(g, c, {}) && GlobalExtractor !in c.slot
    ensures var t := Initialize(g, off, c); forall s :: s in c.slot && s != File ==> s in t.slot && t.slot[s] == c.slot[s]
  {
    WireCoreKeeps(g, off, c);
    var core := WireCore(g, off, c);
    SameFileHolders(g, c, core);
    ForgetKeeps(g, core);
    PublishKeeps(g, off, Forget(core), FileHolders(g, c));
    ForgetSlots(c, core, Publish(g, off, Forget(core)));
  }

  lemma StaleIsIncoherent(g: Graph, t: State, h: Service)
    requires h in t.slot && File in g.calls(h) && !Holds(t, h, File)
    ensures !Coherent(g, t, {})
  {
  }

  /** So after initialization every holder has the current services exactly when no file holder existed before it. */
  lemma InitializeCoherentExactly(g: Graph, off: set<Service>, c: State)
    requires Suited(g, off) && Inv(g, c, {}) && GlobalExtractor !in c.slot
    ensures Coherent(g, Initialize(g, off, c), {}) <==> FileHolders(g, c) == {}
  {
    if FileHolders(g, c) == {} {
      InitializeWires(g, off, c);
    } else {
      var h :| h in FileHolders(g, c);
      StaleHolder(g, off, c, h);
      InitializeKeepsSlots(g, off, c);
      StaleIsIncoherent(g, Initialize(g, off, c), h);
    }
  }

  /** A container whose content extractor was fetched before initialization keeps the forgotten file service in it. */
  lemma StaleExtractor(plugins: bool)
    ensures Acyclic(GetterGraph(plugins))
    ensures var g, off := GetterGraph(plugins), Off(plugins);
            var c := Get(g, off, NEW, ContentExtractor);
            && Inv(g, c, {}) && ContentExtractor in FileHolders(g, c)
            && !Holds(Initialize(g, off, c), ContentExtractor, File) && !Coherent(g, Initialize(g, off, c), {})
  {
    var g, off := GetterGraph(plugins), Off(plugins);
    GettersSuited(plugins);
    GetKeeps(g, off, NEW, ContentExtractor, {});
    var c := Get(g, off, NEW, ContentExtractor);
    ExtractorCalls(plugins);
    StaleHolder(g, off, c, ContentExtractor);
    InitializeCoherentExactly(g, off, c);
  }

  lemma ExtractorCalls(plugins: bool)
    ensures var g := GetterGraph(plugins);
            && File in g.calls(ContentExtractor) && ContentExtractor !in Off(plugins)
            && g.rank(ContentExtractor) < g.rank(GlobalExtractor)
  {
    assert Deps(ContentExtractor, plugins)[0] == File;
  }

  // ---------------------------------------------------------------------------
  // Whole runs
  // ---------------------------------------------------------------------------

  ghost function MaxRank(g: Graph, ss: seq<Service>): (m: nat)
    ensures forall s :: s in ss ==> g.rank(s) <= m
  {
    if ss == [] then 0
    else
      var m := MaxRank(g, ss[1..]);
      assert ss == [ss[0]] + ss[1..];
      if g.rank(ss[0]) <= m then m else g.rank(ss[0])
  }

  /** Everything a caller can rely on. */
  ghost predicate Wired(g: Graph, c: State) {
    Inv(g, c, {}) && LateBound(c) && BuiltOnce(c)
  }

  lemma NewIsWired(g: Graph, off: set<Service>)
    requires Suited(g, off)
    ensures Wired(g, Initialize(g, off, NEW))
  {
    assert FileHolders(g, NEW) == {};
    InitializeWires(g, off, NEW);
    InitializeOnce(g, off, NEW);
  }

  lemma UseStaysWired(g: Graph, off: set<Service>, c: State, ss: seq<Service>)
    requires Suited(g, off) && Wired(g, c)
    ensures Wired(g, Use(g, off, c, ss)) && Extends(c, Use(g, off, c, ss))
    ensures forall s :: s in ss && s !in off ==> s in Use(g, off, c, ss).slot
  {
    UseKeeps(g, off, c, ss, MaxRank(g, ss), {});
    LateStays(c, Use(g, off, c, ss));
  }

  /** The partners that account, tenant and adapter services need, one by one. */
  const PARTNERS: set<Pair> := {
    Pair(AccountImpl, Register), Pair(AccountImpl, Organization), Pair(Account, Register),
    Pair(AccountAdapter, Register), Pair(Tenant, AccountAdapter), Pair(Tenant, Organization)}

  predicate PartnersInPlace(c: State) {
    forall p :: p in PARTNERS ==> Holds(c, p.holder, p.partner)
  }

  lemma LateArePartners(p: Pair)
    ensures p in LATE <==> p in PARTNERS
  {
    assert LATE[0] == Pair(AccountImpl, Register) && LATE[1] == Pair(AccountImpl, Organization);
    assert LATE[2] == Pair(Account, Register) && LATE[3] == Pair(AccountAdapter, Register);
    assert LATE[4] == Pair(Tenant, AccountAdapter) && LATE[5] == Pair(Tenant, Organization);
  }

  lemma LateBoundIs(c: State)
    requires LateBound(c)
    ensures PartnersInPlace(c)
  {
    forall p | p in PARTNERS ensures Holds(c, p.holder, p.partner) { LateArePartners(p); }
  }

  /** Nothing switched off was built on the way from c to t. */
  predicate SparesOff(c: State, t: State, off: set<Service>) {
    forall s :: s in off && s in t.slot ==> s in c.slot
  }

  predicate NeverBuilt(c: State, off: set<Service>) {
    forall s :: s in off ==> s !in c.slot
  }

  /** The plugin runner is what can be switched off. */
  lemma OffIs(plugins: bool)
    ensures PluginRunner in Off(plugins) <==> !plugins
  {
  }

  lemma {:induction false} GetSparesOff(g: Graph, off: set<Service>, c: State, s: Service)
    requires Acyclic(g)
    ensures SparesOff(c, Get(g, off, c, s), off)
    decreases g.rank(s), 1, 0
  {
    if s !in c.slot && s !in off {
      GetAllSparesOff(g, off, c, g.calls(s), g.rank(s));
      ConstructSlots(g, GetAll(g, off, c, g.calls(s), g.rank(s)), s);
    }
  }

  lemma WireSlots(c: State, holder: Service, partner: Service)
    ensures Wire(c, holder, partner).slot == c.slot
  {
  }

  lemma ConstructSlots(g: Graph, c: State, s: Service)
    ensures forall x :: x in Construct(g, c, s).slot <==> x in c.slot || x == s
  {
    WireSlots(Build(g, c, s), Dataset, Organization);
    assert Build(g, c, s).slot == c.slot[s := |c.objs|];
  }

  lemma {:induction false} GetAllSparesOff(g: Graph, off: set<Service>, c: State, ss: seq<Service>, bound: nat)
    requires Acyclic(g) && forall s :: s in ss ==> g.rank(s) < bound
    ensures SparesOff(c, GetAll(g, off, c, ss, bound), off)
    decreases bound, 0, |ss|
  {
    if ss != [] {
      InitLast(ss);
      GetAllSparesOff(g, off, c, ss[..|ss| - 1], bound);
      GetSparesOff(g, off, GetAll(g, off, c, ss[..|ss| - 1], bound), ss[|ss| - 1]);
    }
  }

  lemma {:induction false} UseSparesOff(g: Graph, off: set<Service>, c: State, ss: seq<Service>)
    requires Acyclic(g)
    ensures SparesOff(c, Use(g, off, c, ss), off)
  {
    if ss != [] {
      UseSparesOff(g, off, c, ss[..|ss| - 1]);
      GetSparesOff(g, off, Use(g, off, c, ss[..|ss| - 1]), ss[|ss| - 1]);
    }
  }

  lemma {:induction false} WireAllSparesOff(g: Graph, off: set<Service>, c: State, ps: seq<Pair>)
    requires Acyclic(g)
    ensures SparesOff(c, WireAll(g, off, c, ps), off)
  {
    if ps != [] {
      var mid, p := WireAll(g, off, c, ps[..|ps| - 1]), ps[|ps| - 1];
      WireAllSparesOff(g, off, c, ps[..|ps| - 1]);
      UseSparesOff(g, off, mid, [p.holder, p.partner]);
    }
  }

  lemma InitializeSparesOff(g: Graph, off: set<Service>, c: State)
    requires Acyclic(g) && GlobalExtractor !in off
    ensures SparesOff(c, Initialize(g, off, c), off)
  {
    UseSparesOff(g, off, c, CORE);
    WireAllSparesOff(g, off, Use(g, off, c, CORE), LATE);
    UseSparesOff(g, off, Forget(WireCore(g, off, c)), [File, ContentParse]);
  }

  /**
   A new container, initialized, then used by any sequence of getter calls: every service was built at most
   once, every constructor argument is the current service, every late-bound partner is in place, and no memo
   ever changes.
   */
  lemma ContainerRun(plugins: bool, ss: seq<Service>)
    ensures Acyclic(GetterGraph(plugins))
    ensures var g, off := GetterGraph(plugins), Off(plugins);
            var start := Initialize(g, off, NEW);
            && Wired(g, Use(g, off, start, ss)) && Extends(start, Use(g, off, start, ss))
            && (forall s :: s in ss && s !in off ==> s in Use(g, off, start, ss).slot)
  {
    var g, off := GetterGraph(plugins), Off(plugins);
    GettersSuited(plugins);
    NewIsWired(g, off);
    UseStaysWired(g, off, Initialize(g, off, NEW), ss);
  }

  /** In the same runs each service has the partners it needs, by name, and nothing switched off is ever built. */
  lemma ContainerPartners(plugins: bool, ss: seq<Service>)
    ensures Acyclic(GetterGraph(plugins))
    ensures var g, off := GetterGraph(plugins), Off(plugins);
            var c := Use(g, off, Initialize(g, off, NEW), ss);
            PartnersInPlace(c) && NeverBuilt(c, off) && ExtractorPublished(c)
  {
    GettersSuited(plugins);
    PartnersOf(GetterGraph(plugins), Off(plugins), ss);
  }

  lemma PartnersOf(g: Graph, off: set<Service>, ss: seq<Service>)
    requires Suited(g, off) && GlobalExtractor !in off
    ensures var c := Use(g, off, Initialize(g, off, NEW), ss);
            PartnersInPlace(c) && NeverBuilt(c, off) && ExtractorPublished(c)
  {
    NewIsWired(g, off);
    var start := Initialize(g, off, NEW);
    UseStaysWired(g, off, start, ss);
    LateBoundIs(Use(g, off, start, ss));
    InitializeSparesOff(g, off, NEW);
    UseSparesOff(g, off, start, ss);
    PublishedByInitialize(g, off, NEW);
    ExtractorHolds(g, Use(g, off, start, ss));
  }

  /** The published content extractor uses the current file and content-parse services. */
  predicate ExtractorPublished(c: State) {
    forall s :: s in {File, ContentParse} ==> Holds(c, GlobalExtractor, s)
  }

  lemma PublishedByInitialize(g: Graph, off: set<Service>, c: State)
    requires Acyclic(g)
    ensures GlobalExtractor in Initialize(g, off, c).slot
  {
  }

  lemma ExtractorHolds(g: Graph, c: State)
    requires Coherent(g, c, {}) && g.calls(GlobalExtractor) == [File, ContentParse] && GlobalExtractor in c.slot
    ensures ExtractorPublished(c)
  {
    forall s | s in {File, ContentParse} ensures Holds(c, GlobalExtractor, s) {
      assert s in g.calls(GlobalExtractor);
    }
  }

  // ---------------------------------------------------------------------------
  // The container itself
  // ---------------------------------------------------------------------------

  lemma GetAllSnoc(g: Graph, off: set<Service>, c: State, ss: seq<Service>, i: nat, bound: nat)
    requires Acyclic(g) && i < |ss| && forall s :: s in ss ==> g.rank(s) < bound
    ensures GetAll(g, off, c, ss[..i + 1], bound) == Get(g, off, GetAll(g, off, c, ss[..i], bound), ss[i])
  {
    assert ss[..i + 1][..i] == ss[..i];
  }

  class ServiceContainer {
    const graph: Graph
    const off: set<Service>
    var slot: map<Service, nat>
    var objs: seq<Obj>

    constructor (plugins: bool)
      ensures View() == NEW && graph == GetterGraph(plugins) && off == Off(plugins)
    {
      graph, off := GetterGraph(plugins), Off(plugins);
      slot, objs := map[], [];
    }

    function View(): State
      reads this
    {
      State(slot, objs)
    }

    /** A getter: the memo, or the getters of the arguments and then the constructor. */
    method GetService(s: Service)
      requires Acyclic(graph)
      modifies this
      ensures View() == Get(graph, off, old(View()), s)
      decreases graph.rank(s)
    {
      if s in slot || s in off {
        return;
      }
      var deps := graph.calls(s);
      ghost var bound := graph.rank(s);
      assert deps[..0] == [];
      var i := 0;
      while i < |deps|
        invariant i <= |deps|
        invariant View() == GetAll(graph, off, old(View()), deps[..i], bound)
      {
        GetAllSnoc(graph, off, old(View()), deps, i, bound);
        GetService(deps[i]);
        i := i + 1;
      }
      assert deps[..i] == deps;
      BuildService(s);
    }

    /** The constructor call and the memo, and the setter wiring of the organization and dataset getters. */
    method BuildService(s: Service)
      modifies this
      ensures View() == Construct(graph, old(View()), s)
    {
      var links := map d | d in graph.calls(s) && d in slot :: slot[d];
      slot, objs := slot[s := |objs|], objs + [Obj(s, links)];
      if s == Organization || s == Dataset {
        SetPartner(Dataset, Organization);
      }
    }

    /** A setter call between two remembered services. */
    method SetPartner(holder: Service, partner: Service)
      modifies this
      ensures View() == Wire(old(View()), holder, partner)
    {
      if holder in slot && partner in slot {
        objs := SetLink(objs, slot[holder], partner, slot[partner]);
      }
    }

    /** `initializeCoreServices` */
    method InitializeCoreServices()
      requires Acyclic(graph)
      modifies this
      ensures View() == Use(graph, off, old(View()), CORE)
    {
      ghost var start := View();
      GetService(Quota);
      GetService(Tenant);
      GetService(AccountImpl);
      GetService(Organization);
      UseFour(graph, off, start, Quota, Tenant, AccountImpl, Organization);
    }

    /** Fetch two services and call the setter of the first with the second. */
    method FetchAndWire(p: Pair)
      requires Acyclic(graph)
      modifies this
      ensures View() == GetAndWire(graph, off, old(View()), p)
    {
      ghost var start := View();
      GetService(p.holder);
      GetService(p.partner);
      UseTwo(graph, off, start, p.holder, p.partner);
      SetPartner(p.holder, p.partner);
    }

    /** `wireAccountDependencies` and `wireWorkspaceDependencies` */
    method WireLate()
      requires Acyclic(graph)
      modifies this
      ensures View() == WireAll(graph, off, old(View()), LATE)
    {
      var i := 0;
      while i < |LATE|
        invariant i <= |LATE| && View() == WireAll(graph, off, old(View()), LATE[..i])
      {
        assert LATE[..i + 1][..i] == LATE[..i];
        FetchAndWire(LATE[i]);
        i := i + 1;
      }
      assert LATE[..i] == LATE;
    }

    /** `initializeWorkflowFileDependencies` */
    method PublishFile()
      requires Acyclic(graph)
      modifies this
      ensures View() == Publish(graph, off, Forget(old(View())))
    {
      slot := slot - {File};
      ghost var start := View();
      GetService(File);
      GetService(ContentParse);
      UseTwo(graph, off, start, File, ContentParse);
      var links := map d | d in graph.calls(GlobalExtractor) && d in slot :: slot[d];
      slot, objs := slot[GlobalExtractor := |objs|], objs + [Obj(GlobalExtractor, links)];
    }

    /** `InitializeDependencies` */
    method InitializeDependencies()
      requires Acyclic(graph)
      modifies this
      ensures View() == Initialize(graph, off, old(View()))
    {
      InitializeCoreServices();
      WireLate();
      PublishFile();
    }
  }

  lemma UseSnoc(g: Graph, off: set<Service>, c: State, ss: seq<Service>, s: Service)
    requires Acyclic(g)
    ensures Use(g, off, c, ss + [s]) == Get(g, off, Use(g, off, c, ss), s)
  {
    assert (ss + [s])[..|ss|] == ss;
  }

  lemma UseTwo(g: Graph, off: set<Service>, c: State, a: Service, b: Service)
    requires Acyclic(g)
    ensures Use(g, off, c, [a, b]) == Get(g, off, Get(g, off, c, a), b)
  {
    UseSnoc(g, off, c, [], a);
    UseSnoc(g, off, c, [a], b);
    assert [] + [a] == [a] && [a] + [b] == [a, b];
  }

  lemma UseThree(g: Graph, off: set<Service>, s: State, a: Service, b: Service, c: Service)
    requires Acyclic(g)
    ensures Use(g, off, s, [a, b, c]) == Get(g, off, Get(g, off, Get(g, off, s, a), b), c)
  {
    UseTwo(g, off, s, a, b);
    UseSnoc(g, off, s, [a, b], c);
    assert [a, b] + [c] == [a, b, c];
  }

  lemma UseFour(g: Graph, off: set<Service>, s: State, a: Service, b: Service, c: Service, d: Service)
    requires Acyclic(g)
    ensures Use(g, off, s, [a, b, c, d]) == Get(g, off, Get(g, off, Get(g, off, Get(g, off, s, a), b), c), d)
  {
    UseThree(g, off, s, a, b, c);
    UseSnoc(g, off, s, [a, b, c], d);
    assert [a, b, c] + [d] == [a, b, c, d];
  }
}

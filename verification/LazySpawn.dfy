/**
 The lazily spawned process of the Claude adapter (agent-runner/src/adapters/claude.ts,
 `toLazySpawnedProcess`): stdin calls and kills made before the process handle exists are held back
 and replayed when the handle promise settles.

 A callback is a number: the `cb` a caller passed to `write` or `final`.
 */
module LazySpawn {
  import opened Basics

  datatype Queued = Queued(chunk: string, cb: nat)

  /** A call made on the resolved handle. */
  datatype Call = Write(item: Queued) | Close(cb: nat) | Kill

  datatype Promise = Pending | Fulfilled | Rejected

  datatype Lazy = Lazy(
    promise: Promise,
    queuedWrites: seq<Queued>, queuedEnd: Option<nat>,
    killed: bool, killQueued: bool,
    calls: seq<Call>,          // everything done to the handle, in order
    failed: seq<Queued>,       // writes answered with the rejection
    failedEnd: Option<nat>)    // the end answered with the rejection

  const UNSPAWNED := Lazy(Pending, [], None, false, false, [], [], None)

  datatype Event = OnWrite(item: Queued) | OnFinal(cb: nat) | OnKill | OnResolve | OnReject

  function WriteCalls(items: seq<Queued>): seq<Call> {
    seq(|items|, i requires 0 <= i < |items| => Write(items[i]))
  }

  function EndCalls(end: Option<nat>): seq<Call> {
    if end.Some? then [Close(end.value)] else []
  }

  function KillCalls(kill: bool): seq<Call> {
    if kill then [Kill] else []
  }

  /** One callback of the wrapper. A promise settles once, so later settlements do nothing. */
  function Step(s: Lazy, e: Event): Lazy {
    match e
    case OnWrite(item) =>
      if s.promise.Fulfilled? then s.(calls := s.calls + [Write(item)])
      else s.(queuedWrites := s.queuedWrites + [item])
    case OnFinal(cb) =>
      if s.promise.Fulfilled? then s.(calls := s.calls + [Close(cb)])
      else s.(queuedEnd := Some(cb))
    case OnKill =>
      if s.promise.Fulfilled? then s.(killed := true, calls := s.calls + [Kill])
      else s.(killed := true, killQueued := true)
    case OnResolve =>
      if !s.promise.Pending? then s
      else s.(promise := Fulfilled, queuedWrites := [], queuedEnd := None,
              calls := s.calls + WriteCalls(s.queuedWrites) + EndCalls(s.queuedEnd) + KillCalls(s.killQueued))
    case OnReject =>
      if !s.promise.Pending? then s
      else s.(promise := Rejected, queuedWrites := [], queuedEnd := None,
              failed := s.failed + s.queuedWrites,
              failedEnd := if s.queuedEnd.Some? then s.queuedEnd else s.failedEnd)
  }

  function Run(es: seq<Event>): Lazy {
    if es == [] then UNSPAWNED else Step(Run(es[..|es| - 1]), es[|es| - 1])
  }

  lemma RunSnoc(es: seq<Event>, e: Event)
    ensures Run(es + [e]) == Step(Run(es), e)
  {
    assert (es + [e])[..|es|] == es;
  }

  // ---------------------------------------------------------------------------
  // What a run must have done, read off the list of events alone
  // ---------------------------------------------------------------------------

  function Writes(es: seq<Event>): seq<Queued> {
    if es == [] then []
    else if es[|es| - 1].OnWrite? then Writes(es[..|es| - 1]) + [es[|es| - 1].item] else Writes(es[..|es| - 1])
  }

  function LastFinal(es: seq<Event>): Option<nat> {
    if es == [] then None
    else if es[|es| - 1].OnFinal? then Some(es[|es| - 1].cb) else LastFinal(es[..|es| - 1])
  }

  /** The call that an event after the resolution makes. */
  function DirectCall(e: Event): seq<Call> {
    match e
    case OnWrite(item) => [Write(item)]
    case OnFinal(cb) => [Close(cb)]
    case OnKill => [Kill]
    case _ => []
  }

  function Direct(es: seq<Event>): seq<Call> {
    if es == [] then [] else Direct(es[..|es| - 1]) + DirectCall(es[|es| - 1])
  }

  /** The calls one step makes on the handle. */
  function Emitted(s: Lazy, e: Event): seq<Call> {
    if s.promise.Fulfilled? then DirectCall(e)
    else if s.promise.Pending? && e.OnResolve? then
      WriteCalls(s.queuedWrites) + EndCalls(s.queuedEnd) + KillCalls(s.killQueued)
    else []
  }

  lemma StepEmits(s: Lazy, e: Event)
    ensures Step(s, e).calls == s.calls + Emitted(s, e)
  {
  }

  /** The calls made at the moment of resolution, for the events that came before it. */
  function Replay(pre: seq<Event>): seq<Call> {
    WriteCalls(Writes(pre)) + EndCalls(LastFinal(pre)) + KillCalls(OnKill in pre)
  }

  predicate Unsettled(es: seq<Event>) {
    forall e :: e in es ==> !e.OnResolve? && !e.OnReject?
  }

  /** While the promise is pending everything is queued and nothing reaches the handle. */
  lemma {:induction false} BeforeSettlement(es: seq<Event>)
    requires Unsettled(es)
    ensures var s := Run(es);
            && s.promise == Pending && s.calls == [] && s.failed == [] && s.failedEnd == None
            && s.queuedWrites == Writes(es) && s.queuedEnd == LastFinal(es)
            && s.killQueued == s.killed == (OnKill in es)
  {
    if es != [] {
      var last := es[|es| - 1];
      BeforeSettlement(es[..|es| - 1]);
      InitLast(es);
    }
  }

  lemma ResolveLog(pre: seq<Event>)
    requires Unsettled(pre)
    ensures var s := Step(Run(pre), OnResolve);
            && s.promise == Fulfilled && s.queuedWrites == [] && s.queuedEnd == None && s.failed == []
            && s.calls == Replay(pre)
  {
    BeforeSettlement(pre);
    var w := WriteCalls(Writes(pre));
    assert [] + w == w;
  }

  /** The state after a settlement and some more events, step by step. */
  lemma RunAfter(pre: seq<Event>, x: Event, post: seq<Event>)
    ensures post == [] ==> Run(pre + [x] + post) == Step(Run(pre), x)
    ensures post != [] ==>
      Run(pre + [x] + post) == Step(Run(pre + [x] + post[..|post| - 1]), post[|post| - 1])
  {
    if post == [] {
      assert pre + [x] + post == pre + [x];
      RunSnoc(pre, x);
    } else {
      var init, last := post[..|post| - 1], post[|post| - 1];
      assert pre + [x] + post == (pre + [x] + init) + [last];
      RunSnoc(pre + [x] + init, last);
    }
  }

  /**
   The complete log of handle calls of every run that resolves: the queued writes in order, then the
   queued end, then one kill however many were asked for, then every later call one for one.
   */
  lemma {:induction false} CallLog(pre: seq<Event>, post: seq<Event>)
    requires Unsettled(pre)
    ensures var s := Run(pre + [OnResolve] + post);
            && s.promise == Fulfilled && s.queuedWrites == [] && s.queuedEnd == None && s.failed == []
            && s.calls == Replay(pre) + Direct(post)
    decreases |post|
  {
    RunAfter(pre, OnResolve, post);
    if post == [] {
      ResolveLog(pre);
      assert Replay(pre) + [] == Replay(pre);
    } else {
      var init, last := post[..|post| - 1], post[|post| - 1];
      CallLog(pre, init);
      ConcatAssoc(Replay(pre), Direct(init), DirectCall(last));
    }
  }

  /** A rejected run never touches a handle; what was queued is failed, what comes later stays queued. */
  lemma {:induction false} RejectedRun(pre: seq<Event>, post: seq<Event>)
    requires Unsettled(pre)
    ensures var s := Run(pre + [OnReject] + post);
            && s.promise == Rejected && s.calls == []
            && s.failed == Writes(pre) && s.failedEnd == LastFinal(pre)
            && s.queuedWrites == Writes(post) && s.queuedEnd == LastFinal(post)
    decreases |post|
  {
    RunAfter(pre, OnReject, post);
    if post == [] {
      BeforeSettlement(pre);
      assert [] + Writes(pre) == Writes(pre);
    } else {
      var init, last := post[..|post| - 1], post[|post| - 1];
      RejectedRun(pre, init);
    }
  }

  // ---------------------------------------------------------------------------
  // Conservation of callbacks: how often callback `cb` is in each place
  // ---------------------------------------------------------------------------

  function One(x: nat, cb: nat): nat {
    if x == cb then 1 else 0
  }

  function InQueue(items: seq<Queued>, cb: nat): nat {
    if items == [] then 0 else InQueue(items[..|items| - 1], cb) + One(items[|items| - 1].cb, cb)
  }

  function InEnd(end: Option<nat>, cb: nat): nat {
    if end.Some? then One(end.value, cb) else 0
  }

  function InCall(call: Call, cb: nat): nat {
    match call
    case Write(item) => One(item.cb, cb)
    case Close(c) => One(c, cb)
    case Kill => 0
  }

  function InCalls(calls: seq<Call>, cb: nat): nat {
    if calls == [] then 0 else InCalls(calls[..|calls| - 1], cb) + InCall(calls[|calls| - 1], cb)
  }

  function InEvent(e: Event, cb: nat): nat {
    match e
    case OnWrite(item) => One(item.cb, cb)
    case OnFinal(c) => One(c, cb)
    case _ => 0
  }

  function Issued(es: seq<Event>, cb: nat): nat {
    if es == [] then 0 else Issued(es[..|es| - 1], cb) + InEvent(es[|es| - 1], cb)
  }

  /** How often `cb` is still queued, was handed to the handle, or was failed. */
  function Accounted(s: Lazy, cb: nat): nat {
    InQueue(s.queuedWrites, cb) + InEnd(s.queuedEnd, cb) + InCalls(s.calls, cb)
    + InQueue(s.failed, cb) + InEnd(s.failedEnd, cb)
  }

  lemma {:induction false} InQueueConcat(a: seq<Queued>, b: seq<Queued>, cb: nat)
    ensures InQueue(a + b, cb) == InQueue(a, cb) + InQueue(b, cb)
  {
    if b == [] {
      assert a + b == a;
    } else {
      InQueueConcat(a, b[..|b| - 1], cb);
      assert (a + b)[..|a + b| - 1] == a + b[..|b| - 1];
    }
  }

  lemma {:induction false} InCallsConcat(a: seq<Call>, b: seq<Call>, cb: nat)
    ensures InCalls(a + b, cb) == InCalls(a, cb) + InCalls(b, cb)
  {
    if b == [] {
      assert a + b == a;
    } else {
      InCallsConcat(a, b[..|b| - 1], cb);
      assert (a + b)[..|a + b| - 1] == a + b[..|b| - 1];
    }
  }

  lemma {:induction false} InWriteCalls(items: seq<Queued>, cb: nat)
    ensures InCalls(WriteCalls(items), cb) == InQueue(items, cb)
  {
    if items != [] {
      InWriteCalls(items[..|items| - 1], cb);
      assert WriteCalls(items)[..|items| - 1] == WriteCalls(items[..|items| - 1]);
    }
  }

  /** The replay moves callbacks from the queue to the handle and invents none. */
  lemma ReplayMoves(s: Lazy, cb: nat)
    ensures InCalls(Step(s, OnResolve).calls, cb)
         == InCalls(s.calls, cb) + if s.promise.Pending? then InQueue(s.queuedWrites, cb) + InEnd(s.queuedEnd, cb) else 0
  {
    if s.promise.Pending? {
      var a, b, c, d := s.calls, WriteCalls(s.queuedWrites), EndCalls(s.queuedEnd), KillCalls(s.killQueued);
      InCallsConcat(a + b + c, d, cb);
      InCallsConcat(a + b, c, cb);
      InCallsConcat(a, b, cb);
      InWriteCalls(s.queuedWrites, cb);
      assert InCalls(d, cb) == 0 && InCalls(c, cb) == InEnd(s.queuedEnd, cb);
    }
  }

  /** The guard under which `final` overwrites a queued end callback. */
  predicate DropsEnd(s: Lazy, e: Event) {
    e.OnFinal? && !s.promise.Fulfilled? && s.queuedEnd.Some?
  }

  function Dropped(s: Lazy, e: Event, cb: nat): nat {
    if DropsEnd(s, e) then InEnd(s.queuedEnd, cb) else 0
  }

  /** One step loses a callback exactly when it overwrites a queued end, and it never duplicates one. */
  lemma StepConserves(s: Lazy, e: Event, cb: nat)
    requires s.promise != Rejected ==> s.failed == [] && s.failedEnd == None
    ensures Accounted(Step(s, e), cb) + Dropped(s, e, cb) == Accounted(s, cb) + InEvent(e, cb)
  {
    match e
    case OnWrite(item) =>
      InQueueConcat(s.queuedWrites, [item], cb);
      InCallsConcat(s.calls, [Write(item)], cb);
    case OnFinal(c) => InCallsConcat(s.calls, [Close(c)], cb);
    case OnKill => InCallsConcat(s.calls, [Kill], cb);
    case OnResolve => ReplayMoves(s, cb);
    case OnReject => InQueueConcat(s.failed, s.queuedWrites, cb);
  }

  /** What each state of the promise says about where things can be. */
  lemma {:induction false} PromiseShape(es: seq<Event>)
    ensures var s := Run(es);
            && (s.promise != Rejected ==> s.failed == [] && s.failedEnd == None)
            && (s.promise == Fulfilled ==> s.queuedWrites == [] && s.queuedEnd == None)
            && (s.promise != Fulfilled ==> s.calls == [])
  {
    if es != [] { PromiseShape(es[..|es| - 1]); }
  }

  /** In every run the process counts as killed exactly once a kill was asked for, before or after the resolution. */
  lemma {:induction false} KilledExactly(es: seq<Event>)
    ensures Run(es).killed <==> OnKill in es
  {
    if es != [] {
      InitLast(es);
      KilledExactly(es[..|es| - 1]);
    }
  }

  /** End callbacks overwritten in a run. */
  function Lost(es: seq<Event>, cb: nat): nat {
    if es == [] then 0
    else Lost(es[..|es| - 1], cb) + Dropped(Run(es[..|es| - 1]), es[|es| - 1], cb)
  }

  /** Conservation over every run: issued callbacks are queued, handed over, failed or overwritten, each once. */
  lemma {:induction false} Conservation(es: seq<Event>, cb: nat)
    ensures Issued(es, cb) == Accounted(Run(es), cb) + Lost(es, cb)
  {
    if es != [] {
      var init, last := es[..|es| - 1], es[|es| - 1];
      Conservation(init, cb);
      PromiseShape(init);
      StepConserves(Run(init), last, cb);
    }
  }

  /** A run in which no step overwrites a queued end. */
  predicate KeepsEnds(es: seq<Event>) {
    forall i :: 0 <= i < |es| ==> !DropsEnd(Run(es[..i]), es[i])
  }

  lemma KeepsEndsSnoc(es: seq<Event>, e: Event)
    requires KeepsEnds(es) && !DropsEnd(Run(es), e)
    ensures KeepsEnds(es + [e]) && Run(es + [e]) == Step(Run(es), e)
  {
    RunSnoc(es, e);
    forall i | 0 <= i < |es| + 1
      ensures !DropsEnd(Run((es + [e])[..i]), (es + [e])[i])
    {
      assert (es + [e])[..i] == es[..i];
      assert i == |es| ==> es[..i] == es;
    }
  }

  lemma {:induction false} KeptIsNotLost(es: seq<Event>, cb: nat)
    requires KeepsEnds(es)
    ensures Lost(es, cb) == 0
  {
    if es != [] {
      var init := es[..|es| - 1];
      assert forall i :: 0 <= i < |init| ==> init[..i] == es[..i] && init[i] == es[i];
      KeptIsNotLost(init, cb);
    }
  }

  lemma {:induction false} DroppedIsLost(es: seq<Event>, i: nat)
    requires i < |es| && DropsEnd(Run(es[..i]), es[i])
    ensures Lost(es, Run(es[..i]).queuedEnd.value) > 0
  {
    var init := es[..|es| - 1];
    if i < |init| {
      assert init[..i] == es[..i];
      DroppedIsLost(init, i);
    }
  }

  /** No callback is lost exactly when `final` is never called while an end is already queued. */
  lemma NothingLost(es: seq<Event>)
    ensures (forall cb :: Lost(es, cb) == 0) <==> KeepsEnds(es)
  {
    if KeepsEnds(es) {
      forall cb: nat ensures Lost(es, cb) == 0 { KeptIsNotLost(es, cb); }
    } else {
      var i :| 0 <= i < |es| && DropsEnd(Run(es[..i]), es[i]);
      DroppedIsLost(es, i);
    }
  }

  /** Two ends before the handle exists: the first callback is lost. */
  lemma SecondFinalLoses(first: nat, second: nat)
    ensures Lost([OnFinal(first), OnFinal(second)], first) > 0
  {
    var es := [OnFinal(first), OnFinal(second)];
    assert es[..1] == [OnFinal(first)] && es[..1][..0] == [];
    assert Run(es[..1]).queuedEnd == Some(first);
    DroppedIsLost(es, 1);
  }

  // ---------------------------------------------------------------------------
  // The wrapper object
  // ---------------------------------------------------------------------------

  class Process {
    var promise: Promise
    var queuedWrites: seq<Queued>
    var queuedEnd: Option<nat>
    var killed: bool
    var killQueued: bool
    var calls: seq<Call>
    var failed: seq<Queued>
    var failedEnd: Option<nat>

    constructor ()
      ensures View() == UNSPAWNED
    {
      promise, queuedWrites, queuedEnd, killed, killQueued := Pending, [], None, false, false;
      calls, failed, failedEnd := [], [], None;
    }

    function View(): Lazy
      reads this
    {
      Lazy(promise, queuedWrites, queuedEnd, killed, killQueued, calls, failed, failedEnd)
    }

    method StdinWrite(chunk: string, cb: nat)
      modifies this
      ensures View() == Step(old(View()), OnWrite(Queued(chunk, cb)))
    {
      if promise.Fulfilled? {
        calls := calls + [Write(Queued(chunk, cb))];
        return;
      }
      queuedWrites := queuedWrites + [Queued(chunk, cb)];
    }

    method StdinFinal(cb: nat)
      modifies this
      ensures View() == Step(old(View()), OnFinal(cb))
    {
      if promise.Fulfilled? {
        calls := calls + [Close(cb)];
        return;
      }
      queuedEnd := Some(cb);
    }

    method KillProcess()
      modifies this
      ensures View() == Step(old(View()), OnKill)
    {
      killed := true;
      if promise.Fulfilled? {
        calls := calls + [Kill];
      } else {
        killQueued := true;
      }
    }

    /** `flush`: replay the queue, then the queued end. */
    method Flush()
      modifies this
      ensures View() == old(View()).(queuedWrites := [], queuedEnd := None,
                        calls := old(calls) + WriteCalls(old(queuedWrites)) + EndCalls(old(queuedEnd)))
    {
      var items := queuedWrites;
      queuedWrites := [];
      var i := 0;
      while i < |items|
        invariant i <= |items|
        invariant View() == old(View()).(queuedWrites := [], calls := old(calls) + WriteCalls(items[..i]))
      {
        calls := calls + [Write(items[i])];
        assert WriteCalls(items[..i + 1]) == WriteCalls(items[..i]) + [Write(items[i])];
        i := i + 1;
      }
      assert items[..i] == items;
      if queuedEnd.Some? {
        var endCb := queuedEnd.value;
        queuedEnd := None;
        calls := calls + [Close(endCb)];
      }
    }

    /** `failPending`: answer everything queued with the error. */
    method FailPending()
      modifies this
      ensures View() == old(View()).(queuedWrites := [], queuedEnd := None,
                        failed := old(failed) + old(queuedWrites),
                        failedEnd := if old(queuedEnd).Some? then old(queuedEnd) else old(failedEnd))
    {
      var items := queuedWrites;
      queuedWrites := [];
      var i := 0;
      while i < |items|
        invariant i <= |items|
        invariant View() == old(View()).(queuedWrites := [], failed := old(failed) + items[..i])
      {
        assert items[..i + 1] == items[..i] + [items[i]];
        ConcatAssoc(old(failed), items[..i], [items[i]]);
        failed := failed + [items[i]];
        i := i + 1;
      }
      if queuedEnd.Some? {
        failedEnd := queuedEnd;
        queuedEnd := None;
      }
    }

    method Resolve()
      modifies this
      ensures View() == Step(old(View()), OnResolve)
    {
      if promise.Pending? {
        promise := Fulfilled;
        Flush();
        if killQueued {
          calls := calls + [Kill];
        }
      }
    }

    method Reject()
      modifies this
      ensures View() == Step(old(View()), OnReject)
    {
      if promise.Pending? {
        promise := Rejected;
        FailPending();
      }
    }
  }
}

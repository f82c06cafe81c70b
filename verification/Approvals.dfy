/**
 The run registry and the permission-approval protocol of the agent runner
 (agent-runner/src/app.ts and `canUseTool` in agent-runner/src/adapters/claude.ts).

 One event is one macrotask followed by the draining of the microtasks it queued: an HTTP request, a
 timer, the close of a response stream, the end of an adapter, a tool call of the SDK. A run is its
 index in `runs` (its object identity), and a tool call is its index in `calls`, which is also its
 correlation id when it asks for approval.
 */
module Approvals {
  import opened Basics

  /** A registry key: the session id of the request, or a generated one when it is empty. */
  datatype Key = Named(session: string) | Generated(n: nat)

  datatype Policy = Policy(allowed: set<string>, disallowed: set<string>, bypass: bool)

  /** What resolves the promise of an approval: `null`, or the decision of a permission request. */
  datatype Value = Null | Decided(approve: bool)

  datatype Behavior = Allow | Deny

  datatype Call = Call(
    run: nat, tool: string,
    asked: bool,               // went through the approval path
    timer: bool,               // its timeout is armed
    listening: bool,           // its abort listener is armed
    promise: Option<Value>,    // first resolution wins
    verdict: Option<Behavior>) // what the SDK was told

  datatype Run = Run(
    key: Key, policy: Policy, aborted: bool, closed: bool,
    pending: set<nat>, sessionEmitted: bool, sessionFrames: nat)

  datatype Server = Server(registry: map<Key, nat>, runs: seq<Run>, calls: seq<Call>)

  const IDLE := Server(map[], [], [])

  datatype Event =
    | Start(session: string, policy: Policy)
    | ToolUse(run: nat, tool: string)
    | Permission(key: Key, corr: Option<nat>, decision: Option<bool>)   // None: missing or malformed
    | Stop(key: Key)
    | Timeout(call: nat)
    | Close(run: nat)
    | AdapterEnd(run: nat)
    | Session(run: nat)
    | Shutdown

  // ---------------------------------------------------------------------------
  // Resolvers
  // ---------------------------------------------------------------------------

  function Resolve(c: Call, v: Value): Call {
    if c.promise.Some? then c else c.(promise := Some(v))
  }

  /** The resolver stored in `pending`. */
  function Answer(c: Call, v: Value): Call {
    Resolve(c.(timer := false, listening := false), v)
  }

  /** The `onAbort` listener. */
  function OnAbort(c: Call): Call {
    Resolve(c.(timer := false, listening := false), Null)
  }

  /** `for (const [, resolve] of pending) resolve(null)` */
  function AnswerAll(calls: seq<Call>, pending: set<nat>): seq<Call> {
    seq(|calls|, i requires 0 <= i < |calls| => if i in pending then Answer(calls[i], Null) else calls[i])
  }

  function AbortListeners(calls: seq<Call>, r: nat): seq<Call> {
    seq(|calls|, i requires 0 <= i < |calls| =>
      if calls[i].run == r && calls[i].listening then OnAbort(calls[i]) else calls[i])
  }

  /** `controller.abort()`: the event is dispatched once. */
  function Abort(s: Server, r: nat): Server {
    if r >= |s.runs| || s.runs[r].aborted then s
    else s.(runs := s.runs[r := s.runs[r].(aborted := true)], calls := AbortListeners(s.calls, r))
  }

  /** Answer everything pending in a run with `null` and clear its map. */
  function DenyPending(s: Server, r: nat): Server
    requires r < |s.runs|
  {
    s.(runs := s.runs[r := s.runs[r].(pending := {})], calls := AnswerAll(s.calls, s.runs[r].pending))
  }

  function Unregister(s: Server, r: nat): Server
    requires r < |s.runs|
  {
    var k := s.runs[r].key;
    if k in s.registry && s.registry[k] == r then s.(registry := s.registry - {k}) else s
  }

  /** `runs.values()` aborted one after the other. */
  function AbortAll(s: Server, r: nat): Server
    decreases |s.runs| - r
  {
    if r >= |s.runs| then s
    else
      var k := s.runs[r].key;
      AbortAll(if k in s.registry && s.registry[k] == r then Abort(s, r) else s, r + 1)
  }

  // ---------------------------------------------------------------------------
  // Macrotasks
  // ---------------------------------------------------------------------------

  function RunKey(s: Server, session: string): Key {
    if session == "" then Generated(|s.runs|) else Named(session)
  }

  function Immediate(p: Policy, tool: string): Option<Behavior> {
    if tool in p.allowed then Some(Allow)
    else if tool in p.disallowed then Some(Deny)
    else if p.bypass then Some(Allow)
    else None
  }

  /** The HTTP status of a request (200 for events that are not requests). */
  function Status(s: Server, e: Event): nat {
    match e
    case Start(session, _) => if RunKey(s, session) in s.registry then 409 else 200
    case Permission(k, corr, d) =>
      if k !in s.registry || s.registry[k] >= |s.runs| then 404
      else if corr.None? || d.None? then 400
      else if corr.value !in s.runs[s.registry[k]].pending then 404
      else 200
    case Stop(k) => if k !in s.registry then 404 else 200
    case _ => 200
  }

  function Body(s: Server, e: Event): Server {
    match e
    case Start(session, policy) =>
      if Status(s, e) != 200 then s
      else
        var k := RunKey(s, session);
        s.(registry := s.registry[k := |s.runs|], runs := s.runs + [Run(k, policy, false, false, {}, false, 0)])
    case ToolUse(r, tool) =>
      if r >= |s.runs| then s
      else
        var now := Immediate(s.runs[r].policy, tool);
        if now.Some? then s.(calls := s.calls + [Call(r, tool, false, false, false, None, now)])
        else s.(calls := s.calls + [Call(r, tool, true, true, !s.runs[r].aborted, None, None)],
                runs := s.runs[r := s.runs[r].(pending := s.runs[r].pending + {|s.calls|})])
    case Permission(k, corr, d) =>
      if Status(s, e) != 200 || corr.value >= |s.calls| then s
      else s.(calls := s.calls[corr.value := Answer(s.calls[corr.value], Decided(d.value))])
    case Stop(k) => if k in s.registry then Abort(s, s.registry[k]) else s
    case Timeout(c) =>
      if c >= |s.calls| || !s.calls[c].timer then s
      else s.(calls := s.calls[c := Resolve(s.calls[c].(timer := false), Null)])
    case Close(r) =>
      if r >= |s.runs| || s.runs[r].closed then s
      else
        var a := Abort(s, r);
        var u := Unregister(a, r);
        var d := DenyPending(u, r);
        d.(runs := d.runs[r := d.runs[r].(closed := true)])
    case AdapterEnd(r) => if r < |s.runs| then DenyPending(s, r) else s
    case Session(r) =>
      if r >= |s.runs| || s.runs[r].sessionEmitted then s
      else s.(runs := s.runs[r := s.runs[r].(sessionEmitted := true, sessionFrames := s.runs[r].sessionFrames + 1)])
    case Shutdown => AbortAll(s, 0)
  }

  // ---------------------------------------------------------------------------
  // Microtasks: the continuation of each `await` whose promise is resolved
  // ---------------------------------------------------------------------------

  predicate Resumable(c: Call) {
    c.promise.Some? && c.verdict.None?
  }

  function Judge(v: Value): Behavior {
    if v == Decided(true) then Allow else Deny
  }

  function Resume(c: Call): Call {
    if Resumable(c) then c.(verdict := Some(Judge(c.promise.value))) else c
  }

  /** The first n calls resumed: each resumable one is judged and deletes its entry from its run's `pending`. */
  function DrainTo(s: Server, n: nat): Server {
    s.(calls := seq(|s.calls|, i requires 0 <= i < |s.calls| => if i < n then Resume(s.calls[i]) else s.calls[i]),
       runs := seq(|s.runs|, r requires 0 <= r < |s.runs| =>
         s.runs[r].(pending := set c | c in s.runs[r].pending &&
                                       !(c < n && c < |s.calls| && s.calls[c].run == r && Resumable(s.calls[c])))))
  }

  function Drain(s: Server): Server {
    DrainTo(s, |s.calls|)
  }

  function Step(s: Server, e: Event): Server {
    Drain(Body(s, e))
  }

  function After(es: seq<Event>): Server {
    if es == [] then IDLE else Step(After(es[..|es| - 1]), es[|es| - 1])
  }

  // ---------------------------------------------------------------------------
  // The invariant at macrotask boundaries
  // ---------------------------------------------------------------------------

  /** A call still waiting for its approval. */
  predicate Waiting(s: Server, c: nat) {
    c < |s.calls| && s.calls[c].asked && s.calls[c].verdict.None?
  }

  predicate CallsOk(s: Server) {
    forall c :: 0 <= c < |s.calls| ==>
      var x := s.calls[c];
      && x.run < |s.runs|
      && (x.asked ==> (x.promise.None? <==> x.verdict.None?) && (x.verdict.None? ==> x.timer))
      && (!x.asked ==> x.promise.None? && x.verdict.Some? && !x.timer && !x.listening)
      && (x.verdict.None? ==> (x.listening <==> !s.runs[x.run].aborted))
  }

  /** Approval exactness: the keys of a run's `pending` map are exactly its unsettled requests. */
  ghost predicate PendingExact(s: Server) {
    forall r, c: nat :: 0 <= r < |s.runs| ==> (c in s.runs[r].pending <==> Waiting(s, c) && s.calls[c].run == r)
  }

  /** The registry holds exactly the runs that are not closed, each under its own key. */
  predicate RegistryExact(s: Server) {
    && (forall k :: k in s.registry ==> s.registry[k] < |s.runs| && s.runs[s.registry[k]].key == k)
    && (forall r :: 0 <= r < |s.runs| ==>
          (s.runs[r].closed <==> !(s.runs[r].key in s.registry && s.registry[s.runs[r].key] == r)))
    && (forall r :: 0 <= r < |s.runs| ==> s.runs[r].key.Generated? ==> s.runs[r].key.n == r)
    && (forall r :: 0 <= r < |s.runs| && s.runs[r].closed ==> s.runs[r].aborted)
  }

  predicate SessionsOk(s: Server) {
    forall r :: 0 <= r < |s.runs| ==> s.runs[r].sessionFrames == if s.runs[r].sessionEmitted then 1 else 0
  }

  ghost predicate Inv(s: Server) {
    CallsOk(s) && PendingExact(s) && RegistryExact(s) && SessionsOk(s)
  }

  /** The same in the middle of a macrotask: resolved calls have not resumed yet. */
  ghost predicate Mid(s: Server) {
    && (forall c :: 0 <= c < |s.calls| ==>
          var x := s.calls[c];
          && x.run < |s.runs|
          && (x.asked ==> (x.verdict.Some? ==> x.promise.Some?))
          && (x.asked && x.promise.None? ==>
                x.timer && c in s.runs[x.run].pending && (x.listening <==> !s.runs[x.run].aborted))
          && (!x.asked ==> x.promise.None? && x.verdict.Some? && !x.timer && !x.listening))
    && (forall r, c :: 0 <= r < |s.runs| && c in s.runs[r].pending ==> Waiting(s, c) && s.calls[c].run == r)
  }

  lemma InvMid(s: Server)
    requires CallsOk(s) && PendingExact(s)
    ensures Mid(s)
  {
  }

  lemma DrainSettles(s: Server)
    requires Mid(s)
    ensures CallsOk(Drain(s)) && PendingExact(Drain(s))
  {
    var d := Drain(s);
    forall r, c: nat | 0 <= r < |d.runs|
      ensures c in d.runs[r].pending <==> Waiting(d, c) && d.calls[c].run == r
    {
      if c in d.runs[r].pending {
        assert c in s.runs[r].pending;
        assert Waiting(s, c) && s.calls[c].run == r && !Resumable(s.calls[c]);
      }
      if Waiting(d, c) && d.calls[c].run == r {
        assert d.calls[c] == s.calls[c] && s.calls[c].promise.None?;
      }
    }
  }

  lemma AbortMid(s: Server, r: nat)
    requires Mid(s)
    ensures Mid(Abort(s, r))
  {
    var a := Abort(s, r);
    if r < |s.runs| && !s.runs[r].aborted {
      forall c | 0 <= c < |s.calls|
        ensures a.calls[c].run == s.calls[c].run && a.calls[c].asked == s.calls[c].asked && a.calls[c].verdict == s.calls[c].verdict
      {
      }
      forall i, c | 0 <= i < |a.runs| && c in a.runs[i].pending ensures Waiting(a, c) && a.calls[c].run == i {
        assert c in s.runs[i].pending;
        assert Waiting(s, c);
      }
    }
  }

  lemma DenyPendingMid(s: Server, r: nat)
    requires Mid(s) && r < |s.runs|
    ensures Mid(DenyPending(s, r))
  {
    var d := DenyPending(s, r);
    forall c | 0 <= c < |s.calls|
      ensures d.calls[c].run == s.calls[c].run && d.calls[c].asked == s.calls[c].asked && d.calls[c].verdict == s.calls[c].verdict
    {
    }
    forall i, c | 0 <= i < |d.runs| && c in d.runs[i].pending ensures Waiting(d, c) && d.calls[c].run == i {
      assert c in s.runs[i].pending;
      assert Waiting(s, c);
    }
  }

  /** Neither the registry nor the flags of the runs matter to the calls. */
  lemma MidFrame(s: Server, t: Server)
    requires Mid(s) && t.calls == s.calls && |t.runs| == |s.runs|
    requires forall r :: 0 <= r < |s.runs| ==>
      t.runs[r].pending == s.runs[r].pending && t.runs[r].aborted == s.runs[r].aborted
    ensures Mid(t)
  {
    assert forall c :: Waiting(s, c) ==> Waiting(t, c);
  }

  lemma {:induction false} AbortAllKeeps(s: Server, r: nat)
    requires Mid(s)
    ensures var t := AbortAll(s, r);
            && Mid(t) && t.registry == s.registry && |t.runs| == |s.runs| && |t.calls| == |s.calls|
            && (forall i :: 0 <= i < |s.runs| ==>
                  t.runs[i] == s.runs[i].(aborted := t.runs[i].aborted) && (s.runs[i].aborted ==> t.runs[i].aborted))
    decreases |s.runs| - r
  {
    if r < |s.runs| {
      AbortMid(s, r);
      var k := s.runs[r].key;
      AbortAllKeeps(if k in s.registry && s.registry[k] == r then Abort(s, r) else s, r + 1);
    }
  }

  lemma CloseMid(s: Server, r: nat)
    requires Mid(s) && r < |s.runs| && !s.runs[r].closed
    ensures Mid(Body(s, Close(r)))
  {
    AbortMid(s, r);
    var u := Unregister(Abort(s, r), r);
    MidFrame(Abort(s, r), u);
    DenyPendingMid(u, r);
    var d := DenyPending(u, r);
    MarkClosedMid(d, r);
    assert Body(s, Close(r)) == d.(runs := d.runs[r := d.runs[r].(closed := true)]);
  }

  lemma MarkClosedMid(s: Server, r: nat)
    requires Mid(s) && r < |s.runs|
    ensures Mid(s.(runs := s.runs[r := s.runs[r].(closed := true)]))
  {
    MidFrame(s, s.(runs := s.runs[r := s.runs[r].(closed := true)]));
  }

  /** Resolving one call keeps everything. */
  lemma ResolveMid(s: Server, c: nat, x: Call)
    requires Mid(s) && c < |s.calls|
    requires s.calls[c].asked && s.calls[c].verdict.None? && x.promise.Some?
    requires x.run == s.calls[c].run && x.asked && x.verdict.None?
    ensures Mid(s.(calls := s.calls[c := x]))
  {
    var t := s.(calls := s.calls[c := x]);
    assert forall i :: Waiting(s, i) ==> Waiting(t, i);
  }

  lemma ToolUseMid(s: Server, r: nat, tool: string)
    requires Mid(s)
    ensures Mid(Body(s, ToolUse(r, tool)))
  {
    var t := Body(s, ToolUse(r, tool));
    assert |s.calls| <= |t.calls| && |t.runs| == |s.runs|;
    assert forall c :: 0 <= c < |s.calls| ==> t.calls[c] == s.calls[c];
    forall i, c | 0 <= i < |t.runs| && c in t.runs[i].pending
      ensures Waiting(t, c) && t.calls[c].run == i
    {
      if c in s.runs[i].pending {
        assert Waiting(s, c) && s.calls[c].run == i && t.calls[c] == s.calls[c];
      }
    }
  }

  lemma StartMid(s: Server, session: string, policy: Policy)
    requires Mid(s)
    ensures Mid(Body(s, Start(session, policy)))
  {
    var t := Body(s, Start(session, policy));
    assert t.calls == s.calls && |s.runs| <= |t.runs|;
    assert forall i :: 0 <= i < |s.runs| ==> t.runs[i] == s.runs[i];
    forall i, c | 0 <= i < |t.runs| && c in t.runs[i].pending
      ensures Waiting(t, c) && t.calls[c].run == i
    {
      assert i < |s.runs| && c in s.runs[i].pending && Waiting(s, c);
    }
  }

  lemma BodyMid(s: Server, e: Event)
    requires Inv(s)
    ensures Mid(Body(s, e))
  {
    InvMid(s);
    match e
    case Start(session, policy) => StartMid(s, session, policy);
    case ToolUse(r, tool) => ToolUseMid(s, r, tool);
    case Permission(k, corr, d) =>
      if Status(s, e) == 200 {
        assert Waiting(s, corr.value);
        ResolveMid(s, corr.value, Answer(s.calls[corr.value], Decided(d.value)));
      }
    case Stop(k) => if k in s.registry { AbortMid(s, s.registry[k]); }
    case Timeout(c) => TimeoutMid(s, c);
    case Close(r) => if r < |s.runs| && !s.runs[r].closed { CloseMid(s, r); }
    case AdapterEnd(r) => if r < |s.runs| { DenyPendingMid(s, r); }
    case Session(r) => MidFrame(s, Body(s, e));
    case Shutdown => AbortAllKeeps(s, 0);
  }

  /** A timer that fires after its call was settled changes nothing the protocol looks at. */
  lemma TimeoutMid(s: Server, c: nat)
    requires Inv(s)
    ensures Mid(Body(s, Timeout(c)))
  {
    InvMid(s);
    if c < |s.calls| && s.calls[c].timer {
      if Waiting(s, c) {
        ResolveMid(s, c, Resolve(s.calls[c].(timer := false), Null));
      } else {
        LateTimerMid(s, c);
      }
    }
  }

  lemma LateTimerMid(s: Server, c: nat)
    requires Mid(s) && c < |s.calls| && s.calls[c].promise.Some? && s.calls[c].asked && !Waiting(s, c)
    ensures Mid(s.(calls := s.calls[c := s.calls[c].(timer := false)]))
  {
    var t := s.(calls := s.calls[c := s.calls[c].(timer := false)]);
    forall r, k | 0 <= r < |t.runs| && k in t.runs[r].pending ensures Waiting(t, k) && t.calls[k].run == r {
      assert Waiting(s, k) && k != c;
    }
  }

  /** Events that touch neither keys, closing nor session frames. */
  lemma RegistryFrame(s: Server, t: Server)
    requires RegistryExact(s) && SessionsOk(s) && t.registry == s.registry && |t.runs| == |s.runs|
    requires forall r :: 0 <= r < |s.runs| ==>
      var x, y := s.runs[r], t.runs[r];
      y.key == x.key && y.closed == x.closed && (x.aborted ==> y.aborted)
      && y.sessionEmitted == x.sessionEmitted && y.sessionFrames == x.sessionFrames
    ensures RegistryExact(t) && SessionsOk(t)
  {
  }

  lemma StartRegistry(s: Server, session: string, policy: Policy)
    requires RegistryExact(s) && SessionsOk(s)
    ensures var t := Body(s, Start(session, policy)); RegistryExact(t) && SessionsOk(t)
  {
    var t := Body(s, Start(session, policy));
    assert t.runs[..|s.runs|] == s.runs;
    assert forall r :: 0 <= r < |s.runs| ==> t.runs[r] == s.runs[r];
  }

  lemma CloseRegistry(s: Server, r: nat)
    requires RegistryExact(s) && SessionsOk(s)
    ensures var t := Body(s, Close(r)); RegistryExact(t) && SessionsOk(t)
  {
    if r < |s.runs| && !s.runs[r].closed {
      var t := CloseEffect(s, r);
      CloseExact(s, r, t);
    }
  }

  /** Closing a live run removes its own entry and touches no other run. */
  ghost predicate ClosedRun(s: Server, r: nat, t: Server) {
    && r < |s.runs| == |t.runs|
    && t.registry == s.registry - {s.runs[r].key}
    && (forall i :: 0 <= i < |s.runs| && i != r ==> t.runs[i] == s.runs[i])
    && t.runs[r].closed && t.runs[r].aborted && t.runs[r].key == s.runs[r].key
    && t.runs[r].sessionFrames == s.runs[r].sessionFrames && t.runs[r].sessionEmitted == s.runs[r].sessionEmitted
  }

  lemma CloseEffect(s: Server, r: nat) returns (t: Server)
    requires RegistryExact(s) && r < |s.runs| && !s.runs[r].closed
    ensures t == Body(s, Close(r)) && ClosedRun(s, r, t)
  {
    t := Body(s, Close(r));
  }

  lemma CloseExact(s: Server, r: nat, t: Server)
    requires RegistryExact(s) && SessionsOk(s) && ClosedRun(s, r, t) && !s.runs[r].closed
    ensures RegistryExact(t) && SessionsOk(t)
  {
  }

  lemma BodyRegistry(s: Server, e: Event)
    requires Inv(s)
    ensures RegistryExact(Body(s, e)) && SessionsOk(Body(s, e))
  {
    match e
    case Start(session, policy) => StartRegistry(s, session, policy);
    case Close(r) => CloseRegistry(s, r);
    case Session(r) => SessionRegistry(s, r);
    case Shutdown =>
      InvMid(s);
      AbortAllKeeps(s, 0);
      RegistryFrame(s, Body(s, e));
    case Stop(k) => if k in s.registry { AbortRegistry(s, s.registry[k]); }
    case AdapterEnd(r) => if r < |s.runs| { DenyRegistry(s, r); }
    case ToolUse(r, tool) => if r < |s.runs| { ToolUseRegistry(s, r, tool); }
    case _ =>
  }

  lemma AbortRegistry(s: Server, r: nat)
    requires RegistryExact(s) && SessionsOk(s)
    ensures RegistryExact(Abort(s, r)) && SessionsOk(Abort(s, r))
  {
    RegistryFrame(s, Abort(s, r));
  }

  lemma SessionRegistry(s: Server, r: nat)
    requires RegistryExact(s) && SessionsOk(s)
    ensures RegistryExact(Body(s, Session(r))) && SessionsOk(Body(s, Session(r)))
  {
  }

  lemma DenyRegistry(s: Server, r: nat)
    requires RegistryExact(s) && SessionsOk(s) && r < |s.runs|
    ensures RegistryExact(DenyPending(s, r)) && SessionsOk(DenyPending(s, r))
  {
    RegistryFrame(s, DenyPending(s, r));
  }

  lemma ToolUseRegistry(s: Server, r: nat, tool: string)
    requires RegistryExact(s) && SessionsOk(s) && r < |s.runs|
    ensures var t := Body(s, ToolUse(r, tool)); RegistryExact(t) && SessionsOk(t)
  {
    RegistryFrame(s, Body(s, ToolUse(r, tool)));
  }

  lemma StepKeeps(s: Server, e: Event)
    requires Inv(s)
    ensures Inv(Step(s, e))
  {
    BodyMid(s, e);
    BodyRegistry(s, e);
    DrainSettles(Body(s, e));
  }

  /** The invariant, approval exactness included, holds after every sequence of events. */
  lemma {:induction false} AfterInv(es: seq<Event>)
    ensures Inv(After(es))
  {
    if es != [] {
      AfterInv(es[..|es| - 1]);
      StepKeeps(After(es[..|es| - 1]), es[|es| - 1]);
    }
  }

  // ---------------------------------------------------------------------------
  // What a step can do to one call and one run
  // ---------------------------------------------------------------------------

  /** The part of a call that a macrotask leaves alone. */
  predicate SameCall(x: Call, y: Call) {
    && y.run == x.run && y.tool == x.tool && y.asked == x.asked && y.verdict == x.verdict
    && (x.promise.Some? ==> y.promise == x.promise)
  }

  lemma {:induction false} AbortAllCalls(s: Server, r: nat)
    ensures var t := AbortAll(s, r);
            && |t.calls| == |s.calls| && |t.runs| == |s.runs|
            && (forall c :: 0 <= c < |s.calls| ==> SameCall(s.calls[c], t.calls[c]))
            && (forall c :: 0 <= c < |s.calls| && t.calls[c].promise != s.calls[c].promise ==> t.calls[c].promise == Some(Null))
            && (forall i :: 0 <= i < |s.runs| ==> t.runs[i].policy == s.runs[i].policy)
    decreases |s.runs| - r
  {
    if r < |s.runs| {
      var k := s.runs[r].key;
      var s' := if k in s.registry && s.registry[k] == r then Abort(s, r) else s;
      AbortAllCalls(s', r + 1);
    }
  }

  /** What a macrotask does to existing calls: it may resolve them with `null`, or with `decided` for one. */
  predicate CallsFrom(s: Server, b: Server, c: nat, decided: Option<Value>) {
    && |s.runs| <= |b.runs| && |s.calls| <= |b.calls|
    && (forall i :: 0 <= i < |s.calls| ==> SameCall(s.calls[i], b.calls[i]))
    && (forall i :: 0 <= i < |s.runs| ==> b.runs[i].policy == s.runs[i].policy)
    && (forall i :: 0 <= i < |s.calls| && b.calls[i].promise != s.calls[i].promise ==>
          b.calls[i].promise == Some(Null) || (i == c && b.calls[i].promise == decided))
  }

  /** The decision an event carries, if it is a permission request that is answered 200. */
  function DecisionIn(s: Server, e: Event): Option<Value> {
    if e.Permission? && e.corr.Some? && e.decision.Some? && Status(s, e) == 200
    then Some(Decided(e.decision.value)) else None
  }

  lemma AbortCalls(s: Server, r: nat)
    ensures CallsFrom(s, Abort(s, r), 0, None) && |Abort(s, r).calls| == |s.calls|
  {
  }

  lemma DenyCalls(s: Server, r: nat)
    requires r < |s.runs|
    ensures CallsFrom(s, DenyPending(s, r), 0, None) && |DenyPending(s, r).calls| == |s.calls|
    ensures forall c :: 0 <= c < |s.calls| && c in s.runs[r].pending ==> DenyPending(s, r).calls[c].promise.Some?
  {
  }

  lemma CloseCalls(s: Server, r: nat)
    ensures CallsFrom(s, Body(s, Close(r)), 0, None) && |Body(s, Close(r)).calls| == |s.calls|
    ensures r < |s.runs| && !s.runs[r].closed ==>
      forall c :: 0 <= c < |s.calls| && c in s.runs[r].pending ==> Body(s, Close(r)).calls[c].promise.Some?
  {
    if r < |s.runs| && !s.runs[r].closed {
      AbortCalls(s, r);
      DenyCalls(Unregister(Abort(s, r), r), r);
    }
  }

  /** A waiting call whose promise a macrotask resolves without a decision is denied. */
  lemma NullDenies(s: Server, e: Event, r: nat)
    requires Inv(s) && DecisionIn(s, e).None? && r < |s.runs|
    requires |Body(s, e).calls| == |s.calls| && CallsFrom(s, Body(s, e), 0, None)
    requires forall c :: 0 <= c < |s.calls| && c in s.runs[r].pending ==> Body(s, e).calls[c].promise.Some?
    ensures AllDenied(s, Step(s, e), r)
  {
    StepKeeps(s, e);
    var b, t := Body(s, e), Step(s, e);
    forall c: nat | Waiting(s, c) && s.calls[c].run == r ensures t.calls[c].verdict == Some(Deny) {
      assert c in s.runs[r].pending && s.calls[c].promise.None?;
      assert b.calls[c].promise == Some(Null);
    }
    PendingEmpty(s, t, r);
  }

  /** A macrotask resolves a call with a decision only if it is the permission request for that call. */
  lemma BodyCalls(s: Server, e: Event)
    ensures CallsFrom(s, Body(s, e), if e.Permission? && e.corr.Some? then e.corr.value else 0, DecisionIn(s, e))
    ensures |Body(s, e).calls| == |s.calls| + (if e.ToolUse? && e.run < |s.runs| then 1 else 0)
  {
    match e
    case Close(r) => CloseCalls(s, r);
    case Shutdown => AbortAllCalls(s, 0);
    case Stop(k) => if k in s.registry { AbortCalls(s, s.registry[k]); }
    case AdapterEnd(r) => if r < |s.runs| { DenyCalls(s, r); }
    case ToolUse(r, tool) => ToolUseCalls(s, r, tool);
    case _ =>
  }

  lemma ToolUseCalls(s: Server, r: nat, tool: string)
    ensures var b := Body(s, ToolUse(r, tool));
            CallsFrom(s, b, 0, None) && |b.calls| == |s.calls| + (if r < |s.runs| then 1 else 0)
  {
  }

  /** A verdict, once given, never changes; nor does what the call was about. */
  lemma StepStable(s: Server, e: Event, c: nat)
    requires c < |s.calls|
    ensures var t := Step(s, e);
            && c < |t.calls| && t.calls[c].run == s.calls[c].run && t.calls[c].tool == s.calls[c].tool
            && t.calls[c].asked == s.calls[c].asked
            && (s.calls[c].verdict.Some? ==> t.calls[c].verdict == s.calls[c].verdict)
  {
    BodyCalls(s, e);
  }

  lemma {:induction false} AfterStable(es: seq<Event>, n: nat, c: nat)
    requires n <= |es| && c < |After(es[..n]).calls|
    ensures var s, t := After(es[..n]), After(es);
            && c < |t.calls| && t.calls[c].run == s.calls[c].run && t.calls[c].tool == s.calls[c].tool
            && (s.calls[c].verdict.Some? ==> t.calls[c].verdict == s.calls[c].verdict)
    decreases |es|
  {
    if n == |es| {
      assert es[..n] == es;
    } else {
      var init := es[..|es| - 1];
      assert init[..n] == es[..n];
      AfterStable(init, n, c);
      StepStable(After(init), es[|es| - 1], c);
    }
  }

  /** At a macrotask boundary there is nothing to drain. */
  lemma DrainIdle(s: Server)
    requires Inv(s)
    ensures Drain(s) == s
  {
    var d := Drain(s);
    assert d.calls == s.calls;
    forall r | 0 <= r < |s.runs| ensures d.runs[r] == s.runs[r] {
      assert d.runs[r].pending == s.runs[r].pending;
    }
    assert d.runs == s.runs;
  }

  // ---------------------------------------------------------------------------
  // Approval exactness
  // ---------------------------------------------------------------------------

  /**
   A permission request answers 200 exactly when the addressed run has that call waiting; then the
   waiting call receives exactly that decision. Otherwise nothing at all changes.
   */
  lemma PermissionDecides(s: Server, k: Key, c: nat, approve: bool)
    requires Inv(s)
    ensures var e := Permission(k, Some(c), Some(approve));
            && (Status(s, e) == 200 <==> k in s.registry && Waiting(s, c) && s.calls[c].run == s.registry[k])
            && (Status(s, e) == 200 ==> Step(s, e).calls[c].verdict == Some(if approve then Allow else Deny))
            && (Status(s, e) != 200 ==> Step(s, e) == s)
  {
    DrainIdle(s);
  }

  lemma AnsweredSettles(es: seq<Event>, i: nat, c: nat)
    requires i < |es| && es[i].Permission? && es[i].corr == Some(c) && Status(After(es[..i]), es[i]) == 200
    ensures c < |After(es[..i + 1]).calls| && After(es[..i + 1]).calls[c].verdict.Some?
  {
    AfterInv(es[..i]);
    PermissionDecides(After(es[..i]), es[i].key, c, es[i].decision.value);
    StepStable(After(es[..i]), es[i], c);
    assert es[..i + 1][..i] == es[..i];
  }

  lemma SettledIsNotFound(s: Server, e: Event, c: nat)
    requires Inv(s) && e.Permission? && e.corr == Some(c) && c < |s.calls| && s.calls[c].verdict.Some?
    ensures Status(s, e) != 200
  {
  }

  /** Over a whole run, at most one permission request per correlation id is ever answered 200. */
  lemma OneAnswer(es: seq<Event>, i: nat, j: nat)
    requires i < j < |es| && es[i].Permission? && es[j].Permission?
    requires es[i].corr.Some? && es[j].corr == es[i].corr
    requires Status(After(es[..i]), es[i]) == 200
    ensures Status(After(es[..j]), es[j]) != 200
  {
    var c := es[i].corr.value;
    AnsweredSettles(es, i, c);
    AfterInv(es[..j]);
    assert es[..j][..i + 1] == es[..i + 1];
    AfterStable(es[..j], i + 1, c);
    SettledIsNotFound(After(es[..j]), es[j], c);
  }

  // ---------------------------------------------------------------------------
  // Deny by default
  // ---------------------------------------------------------------------------

  /** The policy lets the tool through without asking. */
  predicate ByPolicy(s: Server, c: nat)
    requires c < |s.calls|
  {
    var x := s.calls[c];
    x.run < |s.runs| &&
    var p := s.runs[x.run].policy;
    x.tool in p.allowed || (x.tool !in p.disallowed && p.bypass)
  }

  /** Event number i is an approval of call c, sent while c was waiting. */
  predicate ApprovedAt(es: seq<Event>, i: nat, c: nat) {
    && i < |es| && es[i].Permission? && es[i].corr == Some(c) && es[i].decision == Some(true)
    && Status(After(es[..i]), es[i]) == 200
  }

  lemma StepAllows(s: Server, e: Event, c: nat)
    requires Inv(s)
    requires c < |Step(s, e).calls| && Step(s, e).calls[c].verdict == Some(Allow)
    requires c >= |s.calls| || s.calls[c].verdict.None?
    ensures ByPolicy(Step(s, e), c)
         || (e.Permission? && e.corr == Some(c) && e.decision == Some(true) && Status(s, e) == 200)
  {
    BodyCalls(s, e);
    if c < |s.calls| {
      assert s.calls[c].promise.None?;
      assert Body(s, e).calls[c].promise == Some(Decided(true));
    } else {
      assert e.ToolUse? && Body(s, e).calls[c].verdict == Some(Allow);
      assert Step(s, e).runs[e.run].policy == s.runs[e.run].policy;
    }
  }

  lemma PolicyStable(s: Server, e: Event, c: nat)
    requires c < |s.calls| && ByPolicy(s, c)
    ensures c < |Step(s, e).calls| && ByPolicy(Step(s, e), c)
  {
    BodyCalls(s, e);
  }

  lemma ApprovedLonger(es: seq<Event>, e: Event, i: nat, c: nat)
    requires ApprovedAt(es, i, c)
    ensures ApprovedAt(es + [e], i, c)
  {
    assert (es + [e])[..i] == es[..i];
  }

  lemma {:induction false} AllowedByState(es: seq<Event>, c: nat)
    requires c < |After(es).calls| && After(es).calls[c].verdict == Some(Allow)
    ensures ByPolicy(After(es), c) || exists i :: ApprovedAt(es, i, c)
  {
    if es != [] {
      var init, last := es[..|es| - 1], es[|es| - 1];
      InitLast(es);
      if c < |After(init).calls| && After(init).calls[c].verdict.Some? {
        StepStable(After(init), last, c);
        AllowedByState(init, c);
        if ByPolicy(After(init), c) {
          PolicyStable(After(init), last, c);
        } else {
          var i :| ApprovedAt(init, i, c);
          ApprovedLonger(init, last, i, c);
        }
      } else {
        AfterInv(init);
        StepAllows(After(init), last, c);
        assert ByPolicy(After(es), c) || ApprovedAt(es, |init|, c);
      }
    }
  }

  /** All calls of run r that were waiting are denied, and the run waits for nothing any more. */
  ghost predicate AllDenied(s: Server, t: Server, r: nat) {
    && |s.calls| <= |t.calls| && r < |t.runs| && t.runs[r].pending == {}
    && (forall c: nat :: Waiting(s, c) && s.calls[c].run == r ==> t.calls[c].verdict == Some(Deny))
  }

  lemma TimeoutDenies(s: Server, c: nat)
    requires Inv(s) && Waiting(s, c)
    ensures Step(s, Timeout(c)).calls[c].verdict == Some(Deny)
  {
  }

  /** Stopping a run denies everything it waits for; a second stop changes nothing. */
  lemma StopDenies(s: Server, k: Key)
    requires Inv(s) && k in s.registry
    ensures var r := s.registry[k];
            if s.runs[r].aborted then Step(s, Stop(k)) == s else AllDenied(s, Step(s, Stop(k)), r)
  {
    var r := s.registry[k];
    if s.runs[r].aborted {
      DrainIdle(s);
    } else {
      StepKeeps(s, Stop(k));
      PendingEmpty(s, Step(s, Stop(k)), r);
    }
  }

  lemma PendingEmpty(s: Server, t: Server, r: nat)
    requires Inv(s) && Inv(t) && |s.calls| == |t.calls| && r < |t.runs|
    requires forall c :: 0 <= c < |s.calls| ==> t.calls[c].run == s.calls[c].run && t.calls[c].asked == s.calls[c].asked
    requires forall c :: 0 <= c < |s.calls| && s.calls[c].verdict.Some? ==> t.calls[c].verdict.Some?
    requires forall c: nat :: Waiting(s, c) && s.calls[c].run == r ==> t.calls[c].verdict == Some(Deny)
    ensures AllDenied(s, t, r)
  {
    forall c | c in t.runs[r].pending ensures false {
      assert Waiting(t, c) && t.calls[c].run == r;
      assert Waiting(s, c);
    }
  }

  /** The client's disconnect denies everything and removes the run's own registry entry, and only that. */
  lemma CloseDenies(s: Server, r: nat)
    requires Inv(s) && r < |s.runs| && !s.runs[r].closed
    ensures AllDenied(s, Step(s, Close(r)), r)
    ensures Step(s, Close(r)).registry == s.registry - {s.runs[r].key}
  {
    CloseCalls(s, r);
    NullDenies(s, Close(r), r);
  }

  /** So does the end of the adapter, which leaves the registry alone. */
  lemma AdapterEndDenies(s: Server, r: nat)
    requires Inv(s) && r < |s.runs|
    ensures AllDenied(s, Step(s, AdapterEnd(r)), r)
    ensures Step(s, AdapterEnd(r)).registry == s.registry
  {
    DenyCalls(s, r);
    NullDenies(s, AdapterEnd(r), r);
  }

  /** The loop over all registered runs reaches each of them, and resolves what listens there. */
  lemma {:induction false} AbortAllReaches(s: Server, r: nat, q: nat, c: nat)
    requires r <= q < |s.runs| && s.runs[q].key in s.registry && s.registry[s.runs[q].key] == q && !s.runs[q].aborted
    requires c < |s.calls| && s.calls[c].run == q && s.calls[c].listening && s.calls[c].promise.None?
    ensures c < |AbortAll(s, r).calls| && AbortAll(s, r).calls[c].promise == Some(Null)
    decreases |s.runs| - r
  {
    var k := s.runs[r].key;
    var s' := if k in s.registry && s.registry[k] == r then Abort(s, r) else s;
    if r == q {
      assert s'.calls[c].promise == Some(Null);
      AbortAllCalls(s', r + 1);
    } else {
      assert s'.calls[c] == s.calls[c] && s'.runs[q] == s.runs[q];
      AbortAllReaches(s', r + 1, q, c);
    }
  }

  /** A shutdown denies everything that any open run waits for, unless the run was aborted before. */
  lemma ShutdownDenies(s: Server, r: nat)
    requires Inv(s) && r < |s.runs| && !s.runs[r].closed && !s.runs[r].aborted
    ensures AllDenied(s, Step(s, Shutdown), r)
  {
    BodyCalls(s, Shutdown);
    forall c | 0 <= c < |s.calls| && c in s.runs[r].pending ensures Body(s, Shutdown).calls[c].promise.Some? {
      assert Waiting(s, c) && s.calls[c].run == r;
      AbortAllReaches(s, 0, r, c);
    }
    NullDenies(s, Shutdown, r);
  }

  // ---------------------------------------------------------------------------
  // The fate of a tool call, over whole runs
  // ---------------------------------------------------------------------------

  /** A call asks exactly when its run's policy leaves the tool open; otherwise the policy is its verdict. */
  predicate PolicyDecides(s: Server, c: nat)
    requires c < |s.calls|
  {
    var x := s.calls[c];
    x.run < |s.runs| &&
    var now := Immediate(s.runs[x.run].policy, x.tool);
    (x.asked <==> now.None?) && (!x.asked ==> x.verdict == now)
  }

  lemma StepPolicy(s: Server, e: Event, c: nat)
    requires c < |Step(s, e).calls| && (c < |s.calls| ==> PolicyDecides(s, c))
    ensures PolicyDecides(Step(s, e), c)
  {
    BodyCalls(s, e);
    if c < |s.calls| {
      StepStable(s, e, c);
    } else {
      assert e.ToolUse? && Step(s, e).runs[e.run].policy == s.runs[e.run].policy;
    }
  }

  lemma {:induction false} AfterPolicy(es: seq<Event>, c: nat)
    requires c < |After(es).calls|
    ensures PolicyDecides(After(es), c)
  {
    if es != [] {
      var init := es[..|es| - 1];
      if c < |After(init).calls| { AfterPolicy(init, c); }
      StepPolicy(After(init), es[|es| - 1], c);
    }
  }

  lemma ApprovedStays(es: seq<Event>, i: nat, c: nat)
    requires ApprovedAt(es, i, c)
    ensures c < |After(es).calls| && After(es).calls[c].verdict == Some(Allow)
  {
    AfterInv(es[..i]);
    PermissionDecides(After(es[..i]), es[i].key, c, true);
    assert es[..i + 1][..i] == es[..i];
    AnsweredSettles(es, i, c);
    AfterStable(es, i + 1, c);
  }

  // What each run and each call is, read off the requests -------------------------

  /** A run as its start request asked for it. */
  datatype Begun = Begun(key: Key, policy: Policy)

  /** One for each start request that was answered 200, in order. */
  function Starts(es: seq<Event>): seq<Begun> {
    if es == [] then []
    else
      var before, last := Starts(es[..|es| - 1]), es[|es| - 1];
      if last.Start? && Status(After(es[..|es| - 1]), last) == 200
      then before + [Begun(if last.session == "" then Generated(|before|) else Named(last.session), last.policy)]
      else before
  }

  datatype Use = Use(run: nat, tool: string)

  /** One for each tool call of a run that had started, in order. */
  function Uses(es: seq<Event>): seq<Use> {
    if es == [] then []
    else
      var before, last := Uses(es[..|es| - 1]), es[|es| - 1];
      if last.ToolUse? && last.run < |Starts(es[..|es| - 1])| then before + [Use(last.run, last.tool)] else before
  }

  /** The state has exactly these runs and calls. */
  ghost predicate Tracks(s: Server, starts: seq<Begun>, uses: seq<Use>) {
    && |s.runs| == |starts| && |s.calls| == |uses|
    && (forall r :: 0 <= r < |starts| ==> s.runs[r].key == starts[r].key && s.runs[r].policy == starts[r].policy)
    && (forall c :: 0 <= c < |uses| ==> s.calls[c].run == uses[c].run && s.calls[c].tool == uses[c].tool)
  }

  /** A run keeps its key and policy; the two marks are set by their own events only. */
  predicate RunKept(x: Run, y: Run, e: Event, r: nat) {
    && y.key == x.key && y.policy == x.policy
    && (y.sessionEmitted <==> x.sessionEmitted || e == Session(r))
    && (y.closed <==> x.closed || e == Close(r))
  }

  lemma CloseKeepsRuns(s: Server, q: nat, r: nat)
    requires Inv(s) && r < |s.runs|
    ensures |Body(s, Close(q)).runs| == |s.runs| && RunKept(s.runs[r], Body(s, Close(q)).runs[r], Close(q), r)
  {
    if q < |s.runs| && !s.runs[q].closed && q != r { CloseIsolation(s, q, r); }
  }

  lemma ShutdownKeepsRuns(s: Server, r: nat)
    requires Inv(s) && r < |s.runs|
    ensures |Body(s, Shutdown).runs| == |s.runs| && RunKept(s.runs[r], Body(s, Shutdown).runs[r], Shutdown, r)
  {
    InvMid(s);
    AbortAllKeeps(s, 0);
  }

  lemma BodyKeepsRuns(s: Server, e: Event, r: nat)
    requires Inv(s) && r < |s.runs|
    ensures r < |Body(s, e).runs| && RunKept(s.runs[r], Body(s, e).runs[r], e, r)
  {
    match e
    case Close(q) => CloseKeepsRuns(s, q, r);
    case Shutdown => ShutdownKeepsRuns(s, r);
    case _ =>
  }

  lemma DrainKeepsRuns(b: Server)
    ensures |Drain(b).runs| == |b.runs|
    ensures forall r :: 0 <= r < |b.runs| ==> Drain(b).runs[r] == b.runs[r].(pending := Drain(b).runs[r].pending)
  {
  }

  lemma StepKeepsRun(s: Server, e: Event, r: nat)
    requires Inv(s) && r < |s.runs|
    ensures r < |Step(s, e).runs| && RunKept(s.runs[r], Step(s, e).runs[r], e, r)
  {
    BodyKeepsRuns(s, e, r);
    DrainKeepsRuns(Body(s, e));
  }

  /** A step adds at most the run it starts, as it was asked for. */
  lemma StepStarts(s: Server, e: Event)
    requires Inv(s)
    ensures var t := Step(s, e);
            if e.Start? && Status(s, e) == 200
            then |t.runs| == |s.runs| + 1 && t.runs[|s.runs|].key == RunKey(s, e.session) && t.runs[|s.runs|].policy == e.policy
                 && !t.runs[|s.runs|].closed && !t.runs[|s.runs|].sessionEmitted && !t.runs[|s.runs|].aborted
            else |t.runs| == |s.runs|
  {
    DrainKeepsRuns(Body(s, e));
    if e.Shutdown? && s.runs != [] { ShutdownKeepsRuns(s, 0); }
    if e.Shutdown? && s.runs == [] { assert Body(s, e) == s; }
  }

  /** The events that abort run r: its client's disconnect, a stop that names it, and a shutdown while it is open. */
  predicate Aborts(s: Server, e: Event, r: nat)
    requires r < |s.runs|
  {
    match e
    case Close(q) => q == r
    case Stop(k) => k in s.registry && s.registry[k] == r
    case Shutdown => !s.runs[r].closed
    case _ => false
  }

  lemma {:induction false} AbortAllAborts(s: Server, q: nat, r: nat)
    requires r < |s.runs|
    ensures var t := AbortAll(s, q);
            r < |t.runs| && (t.runs[r].aborted <==>
              s.runs[r].aborted || (q <= r && s.runs[r].key in s.registry && s.registry[s.runs[r].key] == r))
    decreases |s.runs| - q
  {
    if q < |s.runs| {
      var k := s.runs[q].key;
      AbortAllAborts(if k in s.registry && s.registry[k] == q then Abort(s, q) else s, q + 1, r);
    }
  }

  /** In every reachable state a run is aborted by these events and no others. */
  lemma AbortedExactly(s: Server, e: Event, r: nat)
    requires Inv(s) && r < |s.runs|
    ensures r < |Step(s, e).runs| && (Step(s, e).runs[r].aborted <==> s.runs[r].aborted || Aborts(s, e, r))
  {
    DrainKeepsRuns(Body(s, e));
    match e
    case Shutdown => AbortAllAborts(s, 0, r);
    case Close(q) => if q != r { CloseIsolation(s, q, r); }
    case _ =>
  }

  /** It adds at most the call it makes. */
  lemma StepCalls(s: Server, e: Event)
    ensures var t := Step(s, e);
            if e.ToolUse? && e.run < |s.runs|
            then |t.calls| == |s.calls| + 1 && t.calls[|s.calls|].run == e.run && t.calls[|s.calls|].tool == e.tool
            else |t.calls| == |s.calls|
  {
    BodyCalls(s, e);
  }

  lemma TracksStep(s: Server, e: Event, starts: seq<Begun>, uses: seq<Use>)
    requires Inv(s) && Tracks(s, starts, uses)
    ensures var more := if e.Start? && Status(s, e) == 200 then [Begun(RunKey(s, e.session), e.policy)] else [];
            var used := if e.ToolUse? && e.run < |starts| then [Use(e.run, e.tool)] else [];
            Tracks(Step(s, e), starts + more, uses + used)
  {
    StepStarts(s, e);
    forall r | 0 <= r < |s.runs| ensures Step(s, e).runs[r].key == starts[r].key && Step(s, e).runs[r].policy == starts[r].policy {
      StepKeepsRun(s, e, r);
    }
    StepCalls(s, e);
    forall c | 0 <= c < |s.calls| ensures Step(s, e).calls[c].run == uses[c].run && Step(s, e).calls[c].tool == uses[c].tool {
      StepStable(s, e, c);
    }
  }

  /** Over every run of the server, its runs are the accepted start requests and its calls the tool calls, one to one and in order. */
  lemma {:induction false} RunsAreStarts(es: seq<Event>)
    ensures Tracks(After(es), Starts(es), Uses(es))
  {
    if es != [] {
      var init, last := es[..|es| - 1], es[|es| - 1];
      RunsAreStarts(init);
      AfterInv(init);
      TracksStep(After(init), last, Starts(init), Uses(init));
      assert Starts(init) + [] == Starts(init) && Uses(init) + [] == Uses(init);
    }
  }

  /** The policy of the request that started the call's run lets the tool through without asking. */
  predicate ByRequest(es: seq<Event>, c: nat)
    requires c < |Uses(es)|
  {
    var x := Uses(es)[c];
    x.run < |Starts(es)| &&
    var p := Starts(es)[x.run].policy;
    x.tool in p.allowed || (x.tool !in p.disallowed && p.bypass)
  }

  lemma ByRequestIsByPolicy(es: seq<Event>, c: nat)
    requires c < |Uses(es)|
    ensures c < |After(es).calls| && (ByRequest(es, c) <==> ByPolicy(After(es), c))
  {
    RunsAreStarts(es);
  }

  /** Over every run: an allowed tool call was allowed by the policy of its start request or by an approval of its own request. */
  lemma AllowJustified(es: seq<Event>, c: nat)
    requires c < |Uses(es)| && c < |After(es).calls| && After(es).calls[c].verdict == Some(Allow)
    ensures ByRequest(es, c) || exists i :: ApprovedAt(es, i, c)
  {
    ByRequestIsByPolicy(es, c);
    AllowedByState(es, c);
  }

  /**
   Over every run, exactly: a tool call is told to go ahead if and only if the policy of the request that started
   its run lets the tool through, or an approval for its own correlation id arrived while it was pending.
   */
  lemma AllowedExactly(es: seq<Event>, c: nat)
    requires c < |Uses(es)|
    ensures c < |After(es).calls|
    ensures After(es).calls[c].verdict == Some(Allow) <==> ByRequest(es, c) || exists i :: ApprovedAt(es, i, c)
  {
    ByRequestIsByPolicy(es, c);
    if After(es).calls[c].verdict == Some(Allow) { AllowedByState(es, c); }
    if ByPolicy(After(es), c) { AfterPolicy(es, c); }
    if i :| ApprovedAt(es, i, c) { ApprovedStays(es, i, c); }
  }

  /** The events that end the wait of call c without a decision. */
  predicate EndsWait(s: Server, e: Event, c: nat)
    requires c < |s.calls|
  {
    var r := s.calls[c].run;
    r < |s.runs| &&
    match e
    case Timeout(k) => k == c
    case Stop(k) => k in s.registry && s.registry[k] == r && !s.runs[r].aborted
    case Close(q) => q == r && !s.runs[r].closed
    case AdapterEnd(q) => q == r
    case Shutdown => !s.runs[r].closed && !s.runs[r].aborted
    case _ => false
  }

  lemma EndDenies(s: Server, e: Event, c: nat)
    requires Inv(s) && Waiting(s, c) && EndsWait(s, e, c)
    ensures c < |Step(s, e).calls| && Step(s, e).calls[c].verdict == Some(Deny)
  {
    StepStable(s, e, c);
    match e
    case Timeout(_) => TimeoutDenies(s, c);
    case Stop(k) => StopDenies(s, k);
    case Close(r) => CloseDenies(s, r);
    case AdapterEnd(r) => AdapterEndDenies(s, r);
    case Shutdown => ShutdownDenies(s, s.calls[c].run);
  }

  /** A call that was waiting when its timer, a stop, a shutdown, a disconnect or the adapter's end came is denied for good. */
  lemma DeniedForGood(es: seq<Event>, i: nat, c: nat)
    requires i < |es| && Waiting(After(es[..i]), c) && EndsWait(After(es[..i]), es[i], c)
    ensures c < |After(es).calls| && After(es).calls[c].verdict == Some(Deny)
    ensures forall j :: !ApprovedAt(es, j, c)
  {
    AfterInv(es[..i]);
    EndDenies(After(es[..i]), es[i], c);
    assert es[..i + 1][..i] == es[..i];
    AfterStable(es, i + 1, c);
    forall j ensures !ApprovedAt(es, j, c) {
      if ApprovedAt(es, j, c) { ApprovedStays(es, j, c); }
    }
  }

  lemma {:induction false} AbortAllSpares(s: Server, r: nat, c: nat)
    requires c < |s.calls| && s.calls[c].run < |s.runs|
    requires var q := s.calls[c].run; s.runs[q].aborted || !(s.runs[q].key in s.registry && s.registry[s.runs[q].key] == q)
    ensures c < |AbortAll(s, r).calls| && AbortAll(s, r).calls[c] == s.calls[c]
    decreases |s.runs| - r
  {
    if r < |s.runs| {
      var k := s.runs[r].key;
      AbortAllSpares(if k in s.registry && s.registry[k] == r then Abort(s, r) else s, r + 1, c);
    }
  }

  /** A permission request that decides call c. */
  predicate Decides(s: Server, e: Event, c: nat) {
    e.Permission? && e.corr == Some(c) && Status(s, e) == 200
  }

  lemma BodySpares(s: Server, e: Event, c: nat)
    requires Inv(s) && Waiting(s, c) && !EndsWait(s, e, c) && !Decides(s, e, c)
    ensures c < |Body(s, e).calls| && Body(s, e).calls[c].promise.None?
  {
    BodyCalls(s, e);
    var r := s.calls[c].run;
    assert c in s.runs[r].pending;
    match e
    case Shutdown => AbortAllSpares(s, 0, c);
    case Close(q) => if q != r { CloseIsolation(s, q, r); }
    case _ =>
  }

  /** Nothing else ends a wait. */
  lemma StillWaiting(s: Server, e: Event, c: nat)
    requires Inv(s) && Waiting(s, c) && !EndsWait(s, e, c) && !Decides(s, e, c)
    ensures Waiting(Step(s, e), c)
  {
    BodySpares(s, e, c);
    StepStable(s, e, c);
    BodyCalls(s, e);
  }

  /** Event number i is a rejection of call c, sent while c was waiting. */
  predicate RejectedAt(es: seq<Event>, i: nat, c: nat) {
    i < |es| && Decides(After(es[..i]), es[i], c) && es[i].decision == Some(false)
  }

  /** Event number i ended the wait of call c without a decision. */
  predicate EndedAt(es: seq<Event>, i: nat, c: nat) {
    i < |es| && Waiting(After(es[..i]), c) && EndsWait(After(es[..i]), es[i], c)
  }

  /** The policy of the request that started the call's run forbids the tool. */
  predicate Forbidden(es: seq<Event>, c: nat)
    requires c < |Uses(es)|
  {
    var x := Uses(es)[c];
    x.run < |Starts(es)| &&
    var p := Starts(es)[x.run].policy;
    x.tool !in p.allowed && x.tool in p.disallowed
  }

  predicate DenialAt(es: seq<Event>, i: nat, c: nat) {
    RejectedAt(es, i, c) || EndedAt(es, i, c)
  }

  lemma DenialLonger(es: seq<Event>, e: Event, i: nat, c: nat)
    requires DenialAt(es, i, c)
    ensures DenialAt(es + [e], i, c)
  {
    assert (es + [e])[..i] == es[..i];
  }

  lemma StepDenies(s: Server, e: Event, c: nat)
    requires Inv(s) && Waiting(s, c) && c < |Step(s, e).calls| && Step(s, e).calls[c].verdict == Some(Deny)
    ensures EndsWait(s, e, c) || (Decides(s, e, c) && e.decision == Some(false))
  {
    if !EndsWait(s, e, c) {
      if Decides(s, e, c) {
        PermissionDecides(s, e.key, c, e.decision.value);
      } else {
        StillWaiting(s, e, c);
      }
    }
  }

  lemma {:induction false} DenialCaused(es: seq<Event>, c: nat)
    requires c < |After(es).calls| && After(es).calls[c].asked && After(es).calls[c].verdict == Some(Deny)
    ensures exists i :: DenialAt(es, i, c)
  {
    if es != [] {
      var init, last := es[..|es| - 1], es[|es| - 1];
      InitLast(es);
      AfterInv(init);
      if c < |After(init).calls| {
        StepStable(After(init), last, c);
        if After(init).calls[c].verdict.Some? {
          DenialCaused(init, c);
          var i :| DenialAt(init, i, c);
          DenialLonger(init, last, i, c);
        } else {
          StepDenies(After(init), last, c);
          assert (init + [last])[..|init|] == init;
          assert DenialAt(init + [last], |init|, c);
        }
      } else {
        NewCallWaits(After(init), last, c);
      }
    }
  }

  lemma NewCallWaits(s: Server, e: Event, c: nat)
    requires Inv(s) && |s.calls| <= c < |Step(s, e).calls| && Step(s, e).calls[c].asked
    ensures Step(s, e).calls[c].verdict.None?
  {
    BodyCalls(s, e);
  }

  lemma DenialStays(es: seq<Event>, i: nat, c: nat)
    requires DenialAt(es, i, c)
    ensures c < |After(es).calls| && After(es).calls[c].asked && After(es).calls[c].verdict == Some(Deny)
  {
    if EndedAt(es, i, c) {
      DeniedForGood(es, i, c);
    } else {
      AfterInv(es[..i]);
      PermissionDecides(After(es[..i]), es[i].key, c, false);
      assert es[..i + 1][..i] == es[..i];
      AnsweredSettles(es, i, c);
      AfterStable(es, i + 1, c);
    }
    AskedStays(es, i, c);
  }

  lemma {:induction false} AskedStays(es: seq<Event>, n: nat, c: nat)
    requires n <= |es| && c < |After(es[..n]).calls|
    ensures c < |After(es).calls| && After(es).calls[c].asked == After(es[..n]).calls[c].asked
    decreases |es|
  {
    if n == |es| {
      assert es[..n] == es;
    } else {
      var init := es[..|es| - 1];
      assert init[..n] == es[..n];
      AskedStays(init, n, c);
      StepStable(After(init), es[|es| - 1], c);
    }
  }

  /**
   Over every run, exactly: a tool call is denied if and only if the policy of its start request forbids the tool,
   or, while the call was waiting, a rejection of its own request, its timeout, a stop, a shutdown, the disconnect
   or the end of the adapter came. So a call that waits is settled by nothing else.
   */
  lemma DeniedExactly(es: seq<Event>, c: nat)
    requires c < |Uses(es)|
    ensures c < |After(es).calls|
    ensures After(es).calls[c].verdict == Some(Deny) <==> Forbidden(es, c) || exists i :: DenialAt(es, i, c)
  {
    RunsAreStarts(es);
    AfterPolicy(es, c);
    if After(es).calls[c].verdict == Some(Deny) && After(es).calls[c].asked { DenialCaused(es, c); }
    if i :| DenialAt(es, i, c) { DenialStays(es, i, c); }
  }

  // ---------------------------------------------------------------------------
  // The registry
  // ---------------------------------------------------------------------------

  /** The run an event is addressed to. */
  function Target(s: Server, e: Event): Option<nat> {
    match e
    case Permission(k, _, _) => if k in s.registry then Some(s.registry[k]) else None
    case Stop(k) => if k in s.registry then Some(s.registry[k]) else None
    case Timeout(c) => if c < |s.calls| then Some(s.calls[c].run) else None
    case ToolUse(r, _) => Some(r)
    case Close(r) => Some(r)
    case AdapterEnd(r) => Some(r)
    case Session(r) => Some(r)
    case _ => None
  }

  lemma BodyIsolation(s: Server, e: Event, i: nat)
    requires Inv(s) && i < |s.runs| && !e.Start? && e != Shutdown && Target(s, e) != Some(i)
    ensures var b := Body(s, e);
            && |b.runs| == |s.runs| && b.runs[i] == s.runs[i] && |s.calls| <= |b.calls|
            && (forall c :: 0 <= c < |s.calls| && s.calls[c].run == i ==> b.calls[c] == s.calls[c])
            && (s.runs[i].key in s.registry && s.registry[s.runs[i].key] == i
                ==> s.runs[i].key in b.registry && b.registry[s.runs[i].key] == i)
  {
    if e.Close? { CloseIsolation(s, e.run, i); }
  }

  lemma CloseIsolation(s: Server, r: nat, i: nat)
    requires Inv(s) && i < |s.runs| && r != i
    ensures var b := Body(s, Close(r));
            && |b.runs| == |s.runs| && b.runs[i] == s.runs[i] && |s.calls| <= |b.calls|
            && (forall c :: 0 <= c < |s.calls| && s.calls[c].run == i ==> b.calls[c] == s.calls[c])
            && (s.runs[i].key in s.registry && s.registry[s.runs[i].key] == i
                ==> s.runs[i].key in b.registry && b.registry[s.runs[i].key] == i)
  {
    if r < |s.runs| {
      assert forall c: nat :: c in s.runs[r].pending ==> Waiting(s, c) && s.calls[c].run == r;
    }
  }

  /** An event addressed to one run changes no other run, none of its calls, and no other registry entry. */
  lemma Isolation(s: Server, e: Event, i: nat)
    requires Inv(s) && i < |s.runs| && !e.Start? && e != Shutdown && Target(s, e) != Some(i)
    ensures var t := Step(s, e);
            && |t.runs| == |s.runs| && t.runs[i] == s.runs[i]
            && (forall c :: 0 <= c < |s.calls| && s.calls[c].run == i ==> t.calls[c] == s.calls[c])
            && (s.runs[i].key in s.registry && s.registry[s.runs[i].key] == i
                ==> s.runs[i].key in t.registry && t.registry[s.runs[i].key] == i)
  {
    BodyIsolation(s, e, i);
    assert Step(s, e).runs[i].pending == s.runs[i].pending;
  }

  /** Two runs that are both open have different keys, in every reachable state. */
  lemma ActiveKeysDistinct(es: seq<Event>, i: nat, j: nat)
    requires var s := After(es); i < |s.runs| && j < |s.runs| && !s.runs[i].closed && !s.runs[j].closed
    requires After(es).runs[i].key == After(es).runs[j].key
    ensures i == j
  {
    AfterInv(es);
  }

  /** Some open run has this key. */
  predicate Active(s: Server, k: Key) {
    exists r :: 0 <= r < |s.runs| && !s.runs[r].closed && s.runs[r].key == k
  }

  /** A start is refused exactly when a run that is still open has its key, in every reachable state. */
  lemma StartConflicts(es: seq<Event>, session: string, policy: Policy)
    ensures Status(After(es), Start(session, policy)) == 409 <==> Active(After(es), RunKey(After(es), session))
  {
    AfterInv(es);
    var s := After(es);
    var k := RunKey(s, session);
    if k in s.registry {
      assert !s.runs[s.registry[k]].closed && s.runs[s.registry[k]].key == k;
    }
  }

  /** A stop answers 200 exactly when a run that is still open has the key, and 404 otherwise. */
  lemma StopAnswers(es: seq<Event>, k: Key)
    ensures Status(After(es), Stop(k)) == if Active(After(es), k) then 200 else 404
  {
    KeyIsActive(es, k);
  }

  lemma KeyIsActive(es: seq<Event>, k: Key)
    ensures k in After(es).registry <==> Active(After(es), k)
  {
    AfterInv(es);
    var s := After(es);
    if k in s.registry { assert !s.runs[s.registry[k]].closed && s.runs[s.registry[k]].key == k; }
  }

  /** A permission request without an open run is not found; with one, it is malformed, not found or answered. */
  lemma PermissionAnswers(es: seq<Event>, k: Key, corr: Option<nat>, decision: Option<bool>)
    ensures var s := After(es);
            var e := Permission(k, corr, decision);
            && (Status(s, e) == 400 <==> Active(s, k) && (corr.None? || decision.None?))
            && (Status(s, e) == 404 <==> !Active(s, k) || (corr.Some? && decision.Some? && Status(s, e) != 200))
            && (Status(s, e) == 200 ==> corr.Some? && decision.Some? && Waiting(s, corr.value))
            && (Status(s, e) != 200 ==> Step(s, e) == s)
  {
    KeyIsActive(es, k);
    AfterInv(es);
    DrainIdle(After(es));
  }

  /** Event e happened after run r had started. */
  predicate Happened(es: seq<Event>, e: Event, r: nat) {
    es != [] && (Happened(es[..|es| - 1], e, r) || (es[|es| - 1] == e && r < |Starts(es[..|es| - 1])|))
  }

  lemma {:induction false} NotHappened(es: seq<Event>, e: Event, r: nat)
    requires r >= |Starts(es)|
    ensures !Happened(es, e, r)
  {
    if es != [] { NotHappened(es[..|es| - 1], e, r); }
  }

  /**
   In every reachable state: a run is closed exactly if its client disconnected, and `session_started` was written
   exactly once if its adapter announced the session, however often, and else never.
   */
  lemma {:induction false} MarksExactly(es: seq<Event>, r: nat)
    requires r < |After(es).runs|
    ensures After(es).runs[r].closed <==> Happened(es, Close(r), r)
    ensures After(es).runs[r].sessionEmitted <==> Happened(es, Session(r), r)
    ensures After(es).runs[r].sessionFrames == if Happened(es, Session(r), r) then 1 else 0
  {
    AfterInv(es);
    if es != [] {
      var init, last := es[..|es| - 1], es[|es| - 1];
      AfterInv(init);
      RunsAreStarts(init);
      if r < |After(init).runs| {
        MarksExactly(init, r);
        StepKeepsRun(After(init), last, r);
      } else {
        StepStarts(After(init), last);
        NotHappened(init, Close(r), r);
        NotHappened(init, Session(r), r);
      }
    }
  }

  /** `session_started` is written at most once per run, in every reachable state. */
  lemma SessionOnce(es: seq<Event>, r: nat)
    requires r < |After(es).runs|
    ensures After(es).runs[r].sessionFrames <= 1
  {
    AfterInv(es);
  }

  // ---------------------------------------------------------------------------
  // The runner itself
  // ---------------------------------------------------------------------------

  class Runner {
    var registry: map<Key, nat>
    var runs: seq<Run>
    var calls: seq<Call>

    constructor ()
      ensures View() == IDLE
    {
      registry, runs, calls := map[], [], [];
    }

    function View(): Server
      reads this
    {
      Server(registry, runs, calls)
    }

    /** The microtask queue: each resolved `await` continues with `pending.delete` and its verdict. */
    method DrainMicrotasks()
      requires Mid(View())
      modifies this
      ensures View() == Drain(old(View()))
    {
      ghost var start := View();
      var i := 0;
      assert View() == DrainTo(start, 0) by {
        forall r | 0 <= r < |runs| ensures DrainTo(start, 0).runs[r] == runs[r] {
          assert DrainTo(start, 0).runs[r].pending == runs[r].pending;
        }
        assert DrainTo(start, 0).runs == runs && DrainTo(start, 0).calls == calls;
      }
      while i < |calls|
        invariant i <= |calls| == |start.calls| && View() == DrainTo(start, i)
      {
        var c := calls[i];
        if Resumable(c) {
          runs := runs[c.run := runs[c.run].(pending := runs[c.run].pending - {i})];
          calls := calls[i := c.(verdict := Some(Judge(c.promise.value)))];
        }
        DrainToStep(start, i);
        i := i + 1;
      }
    }

    method AbortRun(r: nat)
      requires r < |runs|
      modifies this
      ensures View() == Abort(old(View()), r)
    {
      if runs[r].aborted {
        return;
      }
      runs := runs[r := runs[r].(aborted := true)];
      ghost var before := calls;
      var i := 0;
      while i < |calls|
        invariant i <= |calls| == |before| && registry == old(registry)
        invariant runs == old(runs)[r := old(runs)[r].(aborted := true)]
        invariant forall j :: 0 <= j < i ==> calls[j] == AbortListeners(before, r)[j]
        invariant forall j :: i <= j < |before| ==> calls[j] == before[j]
      {
        if calls[i].run == r && calls[i].listening {
          calls := calls[i := OnAbort(calls[i])];
        }
        i := i + 1;
      }
      assert calls == AbortListeners(before, r);
    }

    method DenyRun(r: nat)
      requires Mid(View()) && r < |runs|
      modifies this
      ensures View() == DenyPending(old(View()), r)
    {
      var todo := runs[r].pending;
      ghost var before := calls;
      assert AnswerAll(before, {}) == before;
      while todo != {}
        invariant todo <= old(runs)[r].pending && runs == old(runs) && registry == old(registry)
        invariant calls == AnswerAll(before, old(runs)[r].pending - todo)
      {
        var c :| c in todo;
        assert Waiting(old(View()), c);
        calls := calls[c := Answer(calls[c], Null)];
        todo := todo - {c};
      }
      assert old(runs)[r].pending - {} == old(runs)[r].pending;
      runs := runs[r := runs[r].(pending := {})];
    }

    method StartRun(session: string, policy: Policy) returns (status: nat)
      requires Inv(View())
      modifies this
      ensures status == Status(old(View()), Start(session, policy))
      ensures View() == Step(old(View()), Start(session, policy))
    {
      BodyMid(View(), Start(session, policy));
      var k := if session == "" then Generated(|runs|) else Named(session);
      if k in registry {
        status := 409;
      } else {
        status := 200;
        registry, runs := registry[k := |runs|], runs + [Run(k, policy, false, false, {}, false, 0)];
      }
      DrainMicrotasks();
    }

    method CanUseTool(r: nat, tool: string)
      requires Inv(View()) && r < |runs|
      modifies this
      ensures View() == Step(old(View()), ToolUse(r, tool))
    {
      BodyMid(View(), ToolUse(r, tool));
      var p := runs[r].policy;
      if tool in p.allowed {
        calls := calls + [Call(r, tool, false, false, false, None, Some(Allow))];
      } else if tool in p.disallowed {
        calls := calls + [Call(r, tool, false, false, false, None, Some(Deny))];
      } else if p.bypass {
        calls := calls + [Call(r, tool, false, false, false, None, Some(Allow))];
      } else {
        runs := runs[r := runs[r].(pending := runs[r].pending + {|calls|})];
        calls := calls + [Call(r, tool, true, true, !runs[r].aborted, None, None)];
      }
      DrainMicrotasks();
    }

    method PostPermission(k: Key, corr: Option<nat>, decision: Option<bool>) returns (status: nat)
      requires Inv(View())
      modifies this
      ensures status == Status(old(View()), Permission(k, corr, decision))
      ensures View() == Step(old(View()), Permission(k, corr, decision))
    {
      BodyMid(View(), Permission(k, corr, decision));
      if k !in registry {
        status := 404;
      } else if corr.None? || decision.None? {
        status := 400;
      } else if corr.value !in runs[registry[k]].pending {
        status := 404;
      } else {
        assert Waiting(View(), corr.value);
        calls := calls[corr.value := Answer(calls[corr.value], Decided(decision.value))];
        status := 200;
      }
      DrainMicrotasks();
    }

    method PostStop(k: Key) returns (status: nat)
      requires Inv(View())
      modifies this
      ensures status == Status(old(View()), Stop(k)) && View() == Step(old(View()), Stop(k))
    {
      BodyMid(View(), Stop(k));
      if k !in registry {
        status := 404;
      } else {
        AbortRun(registry[k]);
        status := 200;
      }
      DrainMicrotasks();
    }

    method OnTimeout(c: nat)
      requires Inv(View()) && c < |calls|
      modifies this
      ensures View() == Step(old(View()), Timeout(c))
    {
      BodyMid(View(), Timeout(c));
      if calls[c].timer {
        calls := calls[c := Resolve(calls[c].(timer := false), Null)];
      }
      DrainMicrotasks();
    }

    /** `cleanup`: unregister if the entry is this run's own, and deny everything pending. */
    method Cleanup(r: nat)
      requires Mid(View()) && r < |runs|
      modifies this
      ensures View() == DenyPending(Unregister(old(View()), r), r)
    {
      ghost var s := View();
      var k := runs[r].key;
      if k in registry && registry[k] == r {
        registry := registry - {k};
      }
      MidFrame(s, View());
      DenyRun(r);
    }

    /** `res.on('close')`: abort, then `cleanup`. */
    method OnClose(r: nat)
      requires Inv(View()) && r < |runs| && !runs[r].closed
      modifies this
      ensures View() == Step(old(View()), Close(r))
    {
      ghost var s := View();
      InvMid(s);
      BodyMid(s, Close(r));
      AbortMid(s, r);
      AbortRun(r);
      Cleanup(r);
      runs := runs[r := runs[r].(closed := true)];
      assert View() == Body(s, Close(r));
      DrainMicrotasks();
    }

    method OnAdapterEnd(r: nat)
      requires Inv(View()) && r < |runs|
      modifies this
      ensures View() == Step(old(View()), AdapterEnd(r))
    {
      ghost var s := View();
      InvMid(s);
      BodyMid(s, AdapterEnd(r));
      DenyRun(r);
      assert View() == Body(s, AdapterEnd(r));
      DrainMicrotasks();
    }

    /** The shutdown handler: every registered run is aborted. */
    method OnShutdown()
      requires Inv(View())
      modifies this
      ensures View() == Step(old(View()), Shutdown)
    {
      ghost var s := View();
      BodyMid(s, Shutdown);
      var i := 0;
      while i < |runs|
        invariant i <= |runs| && AbortAll(View(), i) == AbortAll(s, 0)
      {
        if runs[i].key in registry && registry[runs[i].key] == i {
          AbortRun(i);
        }
        i := i + 1;
      }
      DrainMicrotasks();
    }

    method EmitSession(r: nat)
      requires Inv(View()) && r < |runs|
      modifies this
      ensures View() == Step(old(View()), Session(r))
    {
      BodyMid(View(), Session(r));
      if !runs[r].sessionEmitted {
        runs := runs[r := runs[r].(sessionEmitted := true, sessionFrames := runs[r].sessionFrames + 1)];
      }
      DrainMicrotasks();
    }
  }

  lemma DrainToStep(s: Server, i: nat)
    requires Mid(s) && i < |s.calls|
    ensures var d, n := DrainTo(s, i), DrainTo(s, i + 1);
            var c := d.calls[i];
            && c == s.calls[i] && c.run < |d.runs|
            && (Resumable(c) ==>
                  && n.calls == d.calls[i := Resume(c)]
                  && n.runs == d.runs[c.run := d.runs[c.run].(pending := d.runs[c.run].pending - {i})])
            && (!Resumable(c) ==> n == d)
  {
    var d, n := DrainTo(s, i), DrainTo(s, i + 1);
    var c := d.calls[i];
    forall r | 0 <= r < |s.runs|
      ensures n.runs[r].pending == if r == c.run && Resumable(c) then d.runs[r].pending - {i} else d.runs[r].pending
    {
    }
    if Resumable(c) {
      assert n.runs == d.runs[c.run := d.runs[c.run].(pending := d.runs[c.run].pending - {i})];
    } else {
      assert n.runs == d.runs && n.calls == d.calls;
    }
  }
}

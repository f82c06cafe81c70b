/**
 Which process a kill names: the DELETE requests of every run of the stdin pipeline, and exactly when each of
 them carries a pid (agent-runner/src/adapters/claude.ts, agent-runner/src/sandboxClient.ts).
 */
module PipelineKills {
  import opened Basics
  import opened StdinPipeline
  import L = LazySpawn

  /** How the handle promise stands after some events. */
  function Settlement(es: seq<Event>): L.Promise {
    if es == [] then L.Pending else Settles(Settlement(es[..|es| - 1]), es[|es| - 1])
  }

  function Settles(before: L.Promise, e: Event): L.Promise {
    if before == L.Pending && e.HandleResolved? then L.Fulfilled
    else if before == L.Pending && e.HandleRejected? then L.Rejected
    else before
  }

  lemma StepPromise(p: Pipe, e: Event)
    ensures Step(p, e).lazy.promise == Settles(p.lazy.promise, e)
    ensures p.lazy.promise == L.Pending ==> Step(p, e).lazy.killQueued == (p.lazy.killQueued || e.SdkKill?)
  {
  }

  lemma {:induction false} PromiseIs(es: seq<Event>)
    ensures Run(es).lazy.promise == Settlement(es)
    ensures Settlement(es) == L.Pending ==> (Run(es).lazy.killQueued <==> SdkKill in es)
  {
    if es != [] {
      var init, last := es[..|es| - 1], es[|es| - 1];
      PromiseIs(init);
      StepPromise(Run(init), last);
      InitLast(es);
      assert SdkKill in es <==> SdkKill in init || last == SdkKill;
    }
  }

  lemma {:induction false} KillPostsConcat(pid: string, a: seq<L.Call>, b: seq<L.Call>)
    ensures KillPosts(pid, a + b) == KillPosts(pid, a) + KillPosts(pid, b)
  {
    if a == [] {
      assert a + b == b;
    } else {
      KillPostsConcat(pid, a[1..], b);
      assert (a + b)[1..] == a[1..] + b;
    }
  }

  lemma {:induction false} WritesKillNothing(pid: string, items: seq<L.Queued>)
    ensures KillPosts(pid, L.WriteCalls(items)) == []
  {
    if items != [] {
      WritesKillNothing(pid, items[1..]);
      assert L.WriteCalls(items)[1..] == L.WriteCalls(items[1..]);
    }
  }

  lemma OneKill(pid: string)
    ensures KillPosts(pid, [L.Kill]) == [pid]
  {
    assert [L.Kill][1..] == [];
  }

  lemma EndKillsNothing(pid: string, end: Option<nat>)
    ensures KillPosts(pid, L.EndCalls(end)) == []
  {
    assert end.Some? ==> L.EndCalls(end)[1..] == [];
  }

  /** The replay sends one DELETE if a kill was remembered, however many were asked for. */
  lemma ReplayKills(pid: string, s: L.Lazy)
    requires s.promise == L.Pending
    ensures KillPosts(pid, L.Emitted(s, L.OnResolve)) == if s.killQueued then [pid] else []
  {
    var w, c, k := L.WriteCalls(s.queuedWrites), L.EndCalls(s.queuedEnd), L.KillCalls(s.killQueued);
    KillPostsConcat(pid, w + c, k);
    KillPostsConcat(pid, w, c);
    WritesKillNothing(pid, s.queuedWrites);
    EndKillsNothing(pid, s.queuedEnd);
    OneKill(pid);
  }

  /**
   A kill on a resolved handle sends one DELETE naming the last announced pid. The handle resolves with
   the response headers, not with the `started` frame, so before that frame the DELETE names no process.
   */
  lemma KillTargets(es: seq<Event>)
    requires Run(es).lazy.promise == L.Fulfilled
    ensures Run(es + [SdkKill]).kills == Run(es).kills + [LastStarted(es)]
  {
    assert (es + [SdkKill])[..|es|] == es;
    PidIsLastStarted(es);
    OneKill(LastStarted(es));
  }

  /** So does the resolution, if a kill was asked for before it. */
  lemma ReplayedKillTargets(es: seq<Event>)
    requires Run(es).lazy.promise == L.Pending
    ensures Run(es + [HandleResolved]).kills == Run(es).kills + (if Run(es).lazy.killQueued then [LastStarted(es)] else [])
  {
    assert (es + [HandleResolved])[..|es|] == es;
    PidIsLastStarted(es);
    ResolveKills(Run(es));
  }

  lemma ResolveKills(p: Pipe)
    requires p.lazy.promise == L.Pending
    ensures Step(p, HandleResolved).kills == p.kills + (if p.lazy.killQueued then [p.gate.pid] else [])
  {
    ReplayKills(p.gate.pid, p.lazy);
  }

  /** Event e, coming after `es`, makes a kill reach the handle: a kill on it, or its resolution after a kill. */
  predicate KillReaches(es: seq<Event>, e: Event) {
    || (e.SdkKill? && Settlement(es) == L.Fulfilled)
    || (e.HandleResolved? && Settlement(es) == L.Pending && SdkKill in es)
  }

  /** The pids of the DELETE requests, read off the events alone. */
  function KillPids(es: seq<Event>): seq<string> {
    if es == [] then []
    else
      var init := es[..|es| - 1];
      if KillReaches(init, es[|es| - 1]) then KillPids(init) + [LastStarted(init)] else KillPids(init)
  }

  lemma StepKillsNothing(es: seq<Event>, e: Event)
    requires !KillReaches(es, e)
    ensures Step(Run(es), e).kills == Run(es).kills
  {
    PromiseIs(es);
    var p := Run(es);
    if e.HandleResolved? && p.lazy.promise.Pending? { ReplayKills(p.gate.pid, p.lazy); }
    if e.OuterPump? {
      var o := p.outer;
      if !o.busy && !o.dead && o.buffer != [] {
        WritesKillNothing(p.gate.pid, [L.Queued(o.buffer[0], p.made)]);
        assert L.WriteCalls([L.Queued(o.buffer[0], p.made)]) == [L.Write(L.Queued(o.buffer[0], p.made))];
      }
      EndKillsNothing(p.gate.pid, Some(p.made));
    }
    assert p.kills + [] == p.kills;
  }

  /** In every run the DELETE requests are one for each kill that reaches the handle, with the pid announced by then. */
  lemma {:induction false} KillLog(es: seq<Event>)
    ensures Run(es).kills == KillPids(es)
  {
    if es != [] {
      var init, last := es[..|es| - 1], es[|es| - 1];
      InitLast(es);
      KillLog(init);
      PromiseIs(init);
      if !KillReaches(init, last) {
        StepKillsNothing(init, last);
      } else if last.SdkKill? {
        KillTargets(init);
      } else {
        ReplayedKillTargets(init);
      }
    }
  }

  /** No kill reaches the handle before a `started` frame with a pid. */
  predicate KillsWait(es: seq<Event>) {
    forall i :: 0 <= i < |es| && KillReaches(es[..i], es[i]) ==> LastStarted(es[..i]) != ""
  }

  lemma KillsWaitSnoc(es: seq<Event>, e: Event)
    ensures KillsWait(es + [e]) <==> KillsWait(es) && (KillReaches(es, e) ==> LastStarted(es) != "")
  {
    var longer := es + [e];
    assert longer[..|es|] == es && longer[|es|] == e;
    assert forall i :: 0 <= i < |es| ==> longer[..i] == es[..i] && longer[i] == es[i];
    if KillsWait(longer) {
      forall i | 0 <= i < |es| && KillReaches(es[..i], es[i]) ensures LastStarted(es[..i]) != "" {
        assert LastStarted(longer[..i]) != "";
      }
    }
  }

  predicate AllNamed(kills: seq<string>) {
    forall k :: k in kills ==> k != ""
  }

  lemma AllNamedSnoc(kills: seq<string>, pid: string)
    ensures AllNamed(kills + [pid]) <==> AllNamed(kills) && pid != ""
  {
    assert pid in kills + [pid];
    assert forall k :: k in kills ==> k in kills + [pid];
  }

  /** Every DELETE of a run names a process exactly when no kill reaches the handle before a `started` frame with a pid. */
  lemma {:induction false} KillsNameAProcess(es: seq<Event>)
    ensures AllNamed(Run(es).kills) <==> KillsWait(es)
  {
    if es != [] {
      var init, last := es[..|es| - 1], es[|es| - 1];
      InitLast(es);
      KillsNameAProcess(init);
      KillsWaitSnoc(init, last);
      KillLog(init);
      KillLog(es);
      assert KillPids(es) == if KillReaches(init, last) then KillPids(init) + [LastStarted(init)] else KillPids(init);
      AllNamedSnoc(KillPids(init), LastStarted(init));
    } else {
      assert Run(es).kills == [] && KillsWait(es);
    }
  }

  /** A kill between the response headers and the `started` frame, and one remembered until then: both name no process. */
  lemma EarlyKills()
    ensures Run([HandleResolved] + [SdkKill]).kills == [""]
    ensures Run([SdkKill] + [HandleResolved]).kills == [""]
  {
    var r, k: seq<Event> := [HandleResolved], [SdkKill];
    assert r[..0] == [] && k[..0] == [];
    assert (r + k)[..1] == r && (k + r)[..1] == k;
    assert Settlement(r) == L.Fulfilled && Settlement(k) == L.Pending;
    assert LastStarted(r) == "" && LastStarted(k) == "";
    KillLog(r + k);
    KillLog(k + r);
  }
}

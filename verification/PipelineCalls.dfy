/**
 The lazy wrapper inside the stdin pipeline: what becomes of every callback given to it
 (agent-runner/src/adapters/claude.ts), and what the handle receives from it.
 */
module PipelineCalls {
  import opened Basics
  import opened StdinPipeline
  import L = LazySpawn

  // ---------------------------------------------------------------------------
  // The wrapper inside the pipeline is a run of the wrapper, with `final` called once
  // ---------------------------------------------------------------------------

  /** The wrapper callback an event of the pipeline causes, if any. */
  function Causes(p: Pipe, e: Event): seq<L.Event> {
    match e
    case SdkKill => [L.OnKill]
    case OuterPump =>
      var o := p.outer;
      if o.busy || o.dead then []
      else if o.buffer != [] then [L.OnWrite(L.Queued(o.buffer[0], p.made))]
      else if o.ending && !o.finalCalled then [L.OnFinal(p.made)]
      else []
    case HandleResolved => [L.OnResolve]
    case HandleRejected => [L.OnReject]
    case _ => []
  }

  function WrapperTrace(es: seq<Event>): seq<L.Event> {
    if es == [] then [] else WrapperTrace(es[..|es| - 1]) + Causes(Run(es[..|es| - 1]), es[|es| - 1])
  }

  lemma WrapperSnoc(p: Pipe, e: Event, tr: seq<L.Event>)
    requires Ends(p) && p.lazy == L.Run(tr) && L.KeepsEnds(tr)
    ensures var longer := tr + Causes(p, e); Step(p, e).lazy == L.Run(longer) && L.KeepsEnds(longer)
  {
    var more := Causes(p, e);
    if more == [] {
      assert tr + more == tr;
    } else {
      assert more == [more[0]];
      L.KeepsEndsSnoc(tr, more[0]);
    }
  }

  /** So the closed-form log and the conservation of callbacks hold of it, and no callback is lost. */
  lemma {:induction false} WrapperRuns(es: seq<Event>)
    ensures Run(es).lazy == L.Run(WrapperTrace(es)) && L.KeepsEnds(WrapperTrace(es))
  {
    if es != [] {
      var init, last := es[..|es| - 1], es[|es| - 1];
      WrapperRuns(init);
      RunInv(init);
      WrapperSnoc(Run(init), last, WrapperTrace(init));
    }
  }

  lemma {:induction false} IssuedConcat(a: seq<L.Event>, b: seq<L.Event>, cb: nat)
    ensures L.Issued(a + b, cb) == L.Issued(a, cb) + L.Issued(b, cb)
  {
    if b == [] {
      assert a + b == a;
    } else {
      IssuedConcat(a, b[..|b| - 1], cb);
      assert (a + b)[..|a + b| - 1] == a + b[..|b| - 1];
    }
  }

  lemma CausesIssue(p: Pipe, e: Event, cb: nat)
    ensures L.Issued(Causes(p, e), cb) == if Step(p, e).made > p.made && cb == p.made then 1 else 0
    ensures Step(p, e).made == p.made || Step(p, e).made == p.made + 1
  {
    var c := Causes(p, e);
    if c != [] { assert c[..0] == []; }
  }

  /** Callbacks have numbers of their own: each of the first `made` numbers is issued once, and no other. */
  lemma {:induction false} IssuedOnce(es: seq<Event>, cb: nat)
    ensures L.Issued(WrapperTrace(es), cb) == if cb < Run(es).made then 1 else 0
  {
    if es != [] {
      var init, last := es[..|es| - 1], es[|es| - 1];
      IssuedOnce(init, cb);
      IssuedConcat(WrapperTrace(init), Causes(Run(init), last), cb);
      CausesIssue(Run(init), last, cb);
    }
  }

  /** There is one callback for every accepted chunk that left the stream, and one for its end. */
  lemma {:induction false} CallbacksMade(es: seq<Event>)
    ensures MadeExactly(Run(es))
  {
    if es != [] {
      CallbacksMade(es[..|es| - 1]);
      StepMakes(Run(es[..|es| - 1]), es[|es| - 1]);
    }
  }

  predicate MadeExactly(p: Pipe) {
    p.made + |p.outer.buffer| == |p.accepted| + if p.outer.finalCalled then 1 else 0
  }

  lemma StepMakes(p: Pipe, e: Event)
    requires MadeExactly(p)
    ensures MadeExactly(Step(p, e))
  {
  }

  /** Each callback made is in exactly one place: still queued, handed to the handle, or failed by rejection. */
  lemma NoCallbackLost(es: seq<Event>, cb: nat)
    ensures L.Accounted(Run(es).lazy, cb) == if cb < Run(es).made then 1 else 0
  {
    IssuedOnce(es, cb);
    WrapperRuns(es);
    L.Conservation(WrapperTrace(es), cb);
    L.KeptIsNotLost(WrapperTrace(es), cb);
  }

  // ---------------------------------------------------------------------------
  // What the handle receives
  // ---------------------------------------------------------------------------

  /** The calls an event makes on the handle. */
  function DrivenBy(p: Pipe, e: Event): seq<L.Call> {
    var c := Causes(p, e);
    if c == [] then [] else L.Emitted(p.lazy, c[0])
  }

  /** Exactly these calls are logged and applied to the handle: its stream receives them and their kills are sent. */
  lemma StepApplies(p: Pipe, e: Event)
    requires Ends(p)
    ensures Step(p, e).lazy.calls == p.lazy.calls + DrivenBy(p, e)
    ensures Step(p, e).kills == p.kills + KillPosts(p.gate.pid, DrivenBy(p, e))
    ensures !MovesInner(e) ==> Step(p, e).inner == ReceiveAll(p.inner, DrivenBy(p, e))
    ensures MovesInner(e) ==> DrivenBy(p, e) == []
  {
    var c := Causes(p, e);
    if c == [] {
      assert p.lazy.calls + [] == p.lazy.calls;
    } else {
      L.StepEmits(p.lazy, c[0]);
    }
    assert p.kills + [] == p.kills;
  }

  /** The events that move the handle's own stream. */
  predicate MovesInner(e: Event) {
    e.InnerPump? || e.SdkDestroy? || e.Answered?
  }

  /** The chunks of the `write` calls on the handle. */
  function WriteTexts(calls: seq<L.Call>): seq<string> {
    if calls == [] then []
    else if calls[0].Write? then [calls[0].item.chunk] + WriteTexts(calls[1..]) else WriteTexts(calls[1..])
  }

  predicate Closes(calls: seq<L.Call>) {
    exists i :: 0 <= i < |calls| && calls[i].Close?
  }

  lemma {:induction false} WriteTextsConcat(a: seq<L.Call>, b: seq<L.Call>)
    ensures WriteTexts(a + b) == WriteTexts(a) + WriteTexts(b)
  {
    if a == [] {
      assert a + b == b;
    } else {
      WriteTextsConcat(a[1..], b);
      assert (a + b)[1..] == a[1..] + b;
    }
  }

  lemma ClosesConcat(a: seq<L.Call>, b: seq<L.Call>)
    ensures Closes(a + b) <==> Closes(a) || Closes(b)
  {
    if i :| 0 <= i < |a| && a[i].Close? { assert (a + b)[i].Close?; }
    if i :| 0 <= i < |b| && b[i].Close? { assert (a + b)[|a| + i].Close?; }
  }

  lemma {:induction false} TextsOfWrites(items: seq<L.Queued>)
    ensures WriteTexts(L.WriteCalls(items)) == Texts(items) && !Closes(L.WriteCalls(items))
  {
    if items != [] {
      TextsOfWrites(items[1..]);
      assert L.WriteCalls(items)[1..] == L.WriteCalls(items[1..]);
      assert Texts(items) == [items[0].chunk] + Texts(items[1..]);
    }
  }

  lemma TextsOfOne(call: L.Call)
    ensures WriteTexts([call]) == if call.Write? then [call.item.chunk] else []
    ensures Closes([call]) <==> call.Close?
  {
    assert [call][0] == call && [call][1..] == [];
  }

  /** The replay writes the queued chunks and closes if an end was queued. */
  lemma TextsOfReplay(writes: seq<L.Queued>, end: Option<nat>, kill: bool)
    ensures var calls := L.WriteCalls(writes) + L.EndCalls(end) + L.KillCalls(kill);
            WriteTexts(calls) == Texts(writes) && (Closes(calls) <==> end.Some?)
  {
    var w, c, k := L.WriteCalls(writes), L.EndCalls(end), L.KillCalls(kill);
    WriteTextsConcat(w + c, k);
    WriteTextsConcat(w, c);
    ClosesConcat(w + c, k);
    ClosesConcat(w, c);
    TextsOfWrites(writes);
  }

  /** The stream takes in every chunk written to it, and is ended by a close. */
  predicate TakesIn(inner: Stream, calls: seq<L.Call>) {
    var q := ReceiveAll(inner, calls);
    q.buffer == inner.buffer + WriteTexts(calls) && (q.ending <==> inner.ending || Closes(calls))
  }

  lemma TakesInReplay(inner: Stream, s: L.Lazy)
    requires !inner.ending && !inner.dead && s.promise == L.Pending
    ensures TakesIn(inner, L.Emitted(s, L.OnResolve))
  {
    ReceiveReplay(inner, s);
    TextsOfReplay(s.queuedWrites, s.queuedEnd, s.killQueued);
  }

  /** A resolved handle's stream still accepts what the wrapper writes to it. */
  lemma DrivenTakenIn(p: Pipe, e: Event)
    requires Ordered(p)
    ensures TakesIn(p.inner, DrivenBy(p, e))
  {
    var c := Causes(p, e);
    if DrivenBy(p, e) == [] {
      assert p.inner.buffer + [] == p.inner.buffer;
    } else if e.HandleResolved? {
      if p.lazy.promise.Pending? { TakesInReplay(p.inner, p.lazy); }
    } else {
      assert DrivenBy(p, e) == [L.DirectCall(c[0])[0]];
    }
  }

  /**
   The handle's stream and the gate together hold exactly what the wrapper's log wrote, in order, and the
   stream is ended exactly when the log closed it.
   */
  predicate HandleHolds(p: Pipe) {
    && WriteTexts(p.lazy.calls) == Chunks(Submitted(p.gate)) + p.inner.buffer
    && (p.inner.ending <==> Closes(p.lazy.calls))
  }

  lemma DrivenHolds(p: Pipe, e: Event)
    requires HandleHolds(p) && Ordered(p) && !MovesInner(e) && Submitted(Step(p, e).gate) == Submitted(p.gate)
    ensures HandleHolds(Step(p, e))
  {
    var calls := DrivenBy(p, e);
    StepApplies(p, e);
    DrivenTakenIn(p, e);
    WriteTextsConcat(p.lazy.calls, calls);
    ClosesConcat(p.lazy.calls, calls);
    ConcatAssoc(Chunks(Submitted(p.gate)), p.inner.buffer, WriteTexts(calls));
  }

  lemma SendHolds(p: Pipe, c: string)
    requires HandleHolds(p) && Staged(p) && !p.inner.busy && !p.inner.dead && p.inner.buffer != [] && c == p.inner.buffer[0]
    ensures HandleHolds(Step(p, InnerPump))
  {
    SubmitAppends(p.gate, Send(c));
    assert p.inner.buffer == [c] + p.inner.buffer[1..];
    ConcatAssoc(Chunks(Submitted(p.gate)), [c], p.inner.buffer[1..]);
  }

  lemma CloseHolds(p: Pipe)
    requires HandleHolds(p) && Staged(p)
    requires !p.inner.busy && !p.inner.dead && p.inner.buffer == [] && p.inner.ending && !p.inner.finalCalled
    ensures HandleHolds(Step(p, InnerPump))
  {
    SubmitAppends(p.gate, CloseStdin);
    assert Chunks(Submitted(p.gate)) + [] == Chunks(Submitted(p.gate));
  }

  lemma StepHolds(p: Pipe, e: Event)
    requires HandleHolds(p) && Ordered(p)
    ensures HandleHolds(Step(p, e))
  {
    match e
    case InnerPump =>
      var i := p.inner;
      if i.busy || i.dead {
      } else if i.buffer != [] {
        SendHolds(p, i.buffer[0]);
      } else if i.ending && !i.finalCalled {
        CloseHolds(p);
      }
    case SdkDestroy =>
    case Answered(_) =>
    case Started(pids) =>
      AnnounceKeeps(p.gate, pids);
      DrivenHolds(p, e);
    case _ => DrivenHolds(p, e);
  }

  /** In every run what was written to the handle is what it has submitted, followed by what it still buffers. */
  lemma {:induction false} RunHolds(es: seq<Event>)
    ensures HandleHolds(Run(es))
  {
    if es == [] {
      assert Submitted(START.gate) == [] && Chunks([]) == [];
    } else {
      RunHolds(es[..|es| - 1]);
      RunInv(es[..|es| - 1]);
      StepHolds(Run(es[..|es| - 1]), es[|es| - 1]);
    }
  }

  lemma {:induction false} TextsOfDirect(es: seq<L.Event>)
    ensures WriteTexts(L.Direct(es)) == Texts(L.Writes(es))
  {
    if es != [] {
      var init, last := es[..|es| - 1], es[|es| - 1];
      TextsOfDirect(init);
      WriteTextsConcat(L.Direct(init), L.DirectCall(last));
      if L.DirectCall(last) != [] { TextsOfOne(L.DirectCall(last)[0]); }
      if last.OnWrite? {
        assert Texts(L.Writes(init) + [last.item]) == Texts(L.Writes(init)) + [last.item.chunk];
      }
    }
  }

  /**
   So once the promise has resolved, the handle has submitted or still buffers every chunk written before the
   resolution, in order, followed by every chunk written after it.
   */
  lemma HandleReceives(es: seq<Event>, pre: seq<L.Event>, post: seq<L.Event>)
    requires WrapperTrace(es) == pre + [L.OnResolve] + post && L.Unsettled(pre)
    ensures Run(es).lazy.calls == L.Replay(pre) + L.Direct(post)
    ensures Chunks(Submitted(Run(es).gate)) + Run(es).inner.buffer == Texts(L.Writes(pre)) + Texts(L.Writes(post))
  {
    WrapperRuns(es);
    L.CallLog(pre, post);
    RunHolds(es);
    WriteTextsConcat(L.Replay(pre), L.Direct(post));
    TextsOfReplay(L.Writes(pre), L.LastFinal(pre), L.OnKill in pre);
    TextsOfDirect(post);
  }
}

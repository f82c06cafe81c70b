/**
 The two-stage stdin of a boxed agent process: SDK writes go through the lazy wrapper's stream
 (agent-runner/src/adapters/claude.ts) into the sandbox handle's stream
 (agent-runner/src/sandboxClient.ts), which holds its requests back until the `started` frame has
 given a pid, and then POSTs them.

 Each `Writable` follows Node's contract: it accepts writes until it is ended, has at most one `write`
 callback outstanding, and calls `final` once, after the last write was acknowledged. The internal
 moves (a stream taking its next buffered chunk) are events of their own, so runs are all interleavings.
 */
module StdinPipeline {
  import opened Basics
  import L = LazySpawn

  /** A Node `Writable`: accepted chunks not yet passed on, and where it stands. */
  datatype Stream = Stream(buffer: seq<string>, busy: bool, ending: bool, finalCalled: bool, dead: bool)

  const OPEN := Stream([], false, false, false, false)

  datatype Op = Send(chunk: string) | CloseStdin

  /** An HTTP request to the sandbox, with the pid in its URL. */
  datatype Post = Post(pid: string, op: Op)

  /** The pid gate of the handle's stdin. */
  datatype Gate = Gate(pid: string, pidReady: bool, waiting: seq<Op>, posts: seq<Post>)

  datatype Pipe = Pipe(
    accepted: seq<string>,   // chunks the SDK wrote and the stream accepted, in order
    outer: Stream, lazy: L.Lazy, inner: Stream, gate: Gate,
    acked: nat,              // answered requests
    made: nat,               // callbacks the SDK-side stream has passed on, numbered as they are made
    kills: seq<string>)      // the pids in the DELETE requests

  const START := Pipe([], OPEN, L.UNSPAWNED, OPEN, Gate("", false, [], []), 0, 0, [])

  datatype Event =
    | SdkWrite(chunk: string) | SdkEnd | SdkDestroy | SdkKill
    | OuterPump | InnerPump
    | HandleResolved | HandleRejected
    | Started(pids: seq<string>)   // the `started` frames of one chunk of text
    | Answered(ok: bool)

  // ---------------------------------------------------------------------------
  // The pid gate (sandboxClient.ts: `write`, `final` and the `started` branch)
  // ---------------------------------------------------------------------------

  function Submit(g: Gate, op: Op): Gate {
    if g.pid != "" || g.pidReady then g.(posts := g.posts + [Post(g.pid, op)])
    else g.(waiting := g.waiting + [op])
  }

  function PostAll(pid: string, ops: seq<Op>): seq<Post> {
    seq(|ops|, i requires 0 <= i < |ops| => Post(pid, ops[i]))
  }

  /**
   The `started` frames of one chunk run in one macrotask. Each sets the pid, and the first resolves
   `pidReady`, but what waited for it is only released afterwards, with the pid of the last frame.
   */
  function Announce(g: Gate, pids: seq<string>): Gate {
    if pids == [] then g
    else
      var pid := pids[|pids| - 1];
      Gate(pid, true, [], g.posts + PostAll(pid, g.waiting))
  }

  class PidGate {
    var pid: string
    var pidReady: bool
    var waiting: seq<Op>
    var posts: seq<Post>

    constructor ()
      ensures View() == START.gate
    {
      pid, pidReady, waiting, posts := "", false, [], [];
    }

    function View(): Gate
      reads this
    {
      Gate(pid, pidReady, waiting, posts)
    }

    method Request(op: Op)
      modifies this
      ensures View() == Submit(old(View()), op)
    {
      if pid != "" || pidReady {
        posts := posts + [Post(pid, op)];
      } else {
        waiting := waiting + [op];
      }
    }

    /** The frames of one chunk, then the microtasks that `pidReady` released. */
    method OnStarted(pids: seq<string>)
      modifies this
      ensures View() == Announce(old(View()), pids)
    {
      if pids == [] {
        return;
      }
      var k := 0;
      while k < |pids|
        invariant k <= |pids| && waiting == old(waiting) && posts == old(posts)
        invariant k > 0 ==> pid == pids[k - 1] && pidReady
      {
        pid, pidReady := pids[k], true;
        k := k + 1;
      }
      Release();
    }

    method Release()
      modifies this
      ensures View() == Gate(old(pid), old(pidReady), [], old(posts) + PostAll(old(pid), old(waiting)))
    {
      var ops := waiting;
      waiting := [];
      var i := 0;
      while i < |ops|
        invariant i <= |ops| && pid == old(pid) && pidReady == old(pidReady) && waiting == []
        invariant posts == old(posts) + PostAll(pid, ops[..i])
      {
        posts := posts + [Post(pid, ops[i])];
        assert PostAll(pid, ops[..i + 1]) == PostAll(pid, ops[..i]) + [Post(pid, ops[i])];
        i := i + 1;
      }
      assert ops[..i] == ops;
    }
  }

  // ---------------------------------------------------------------------------
  // The composed machine
  // ---------------------------------------------------------------------------

  /** A call on the handle, as the handle's stdin stream sees it. */
  function Receive(inner: Stream, call: L.Call): Stream {
    match call
    case Write(item) => if inner.ending || inner.dead then inner else inner.(buffer := inner.buffer + [item.chunk])
    case Close(_) => inner.(ending := true)
    case Kill => inner
  }

  function ReceiveAll(inner: Stream, calls: seq<L.Call>): Stream
    decreases |calls|
  {
    if calls == [] then inner else ReceiveAll(Receive(inner, calls[0]), calls[1..])
  }

  function KillPosts(pid: string, calls: seq<L.Call>): seq<string> {
    if calls == [] then [] else (if calls[0].Kill? then [pid] else []) + KillPosts(pid, calls[1..])
  }

  /** Run one callback of the lazy wrapper and apply the handle calls it makes. */
  function Drive(p: Pipe, e: L.Event): Pipe {
    var calls := L.Emitted(p.lazy, e);
    p.(lazy := L.Step(p.lazy, e), inner := ReceiveAll(p.inner, calls), kills := p.kills + KillPosts(p.gate.pid, calls))
  }

  function Step(p: Pipe, e: Event): Pipe {
    match e
    case SdkWrite(c) =>
      if p.outer.ending || p.outer.dead then p
      else p.(accepted := p.accepted + [c], outer := p.outer.(buffer := p.outer.buffer + [c]))
    case SdkEnd => if p.outer.dead then p else p.(outer := p.outer.(ending := true))
    case SdkDestroy =>
      p.(outer := p.outer.(dead := true),
         inner := if p.lazy.promise.Fulfilled? then p.inner.(dead := true) else p.inner)
    case SdkKill => Drive(p, L.OnKill)
    case OuterPump =>
      var o := p.outer;
      if o.busy || o.dead then p
      else if o.buffer != [] then
        Drive(p.(outer := o.(buffer := o.buffer[1..], busy := true), made := p.made + 1),
              L.OnWrite(L.Queued(o.buffer[0], p.made)))
      else if o.ending && !o.finalCalled then
        Drive(p.(outer := o.(finalCalled := true), made := p.made + 1), L.OnFinal(p.made))
      else p
    case InnerPump =>
      var i := p.inner;
      if i.busy || i.dead then p
      else if i.buffer != [] then
        p.(inner := i.(buffer := i.buffer[1..], busy := true), gate := Submit(p.gate, Send(i.buffer[0])))
      else if i.ending && !i.finalCalled then
        p.(inner := i.(finalCalled := true), gate := Submit(p.gate, CloseStdin))
      else p
    case HandleResolved => Drive(p, L.OnResolve)
    case HandleRejected =>
      var failing := p.lazy.promise.Pending? && (p.lazy.queuedWrites != [] || p.lazy.queuedEnd.Some?);
      var q := Drive(p, L.OnReject);
      if failing then q.(outer := q.outer.(dead := true)) else q
    case Started(pids) => p.(gate := Announce(p.gate, pids))
    case Answered(ok) =>
      if p.acked >= |p.gate.posts| then p
      else if ok then
        p.(acked := p.acked + 1, inner := p.inner.(busy := false), outer := p.outer.(busy := false))
      else
        p.(acked := p.acked + 1, inner := p.inner.(dead := true), outer := p.outer.(dead := true))
  }

  function Run(es: seq<Event>): Pipe {
    if es == [] then START else Step(Run(es[..|es| - 1]), es[|es| - 1])
  }

  // ---------------------------------------------------------------------------
  // The invariant
  // ---------------------------------------------------------------------------

  function Ops(posts: seq<Post>): seq<Op> {
    seq(|posts|, i requires 0 <= i < |posts| => posts[i].op)
  }

  /** Everything submitted to the gate, in order. */
  function Submitted(g: Gate): seq<Op> {
    Ops(g.posts) + g.waiting
  }

  function Chunks(ops: seq<Op>): seq<string> {
    if ops == [] then []
    else Chunks(ops[..|ops| - 1]) + (if ops[|ops| - 1].Send? then [ops[|ops| - 1].chunk] else [])
  }

  function Texts(items: seq<L.Queued>): seq<string> {
    seq(|items|, i requires 0 <= i < |items| => items[i].chunk)
  }

  /** The chunks still on their way or lost to a rejection, nearest to the process first. */
  function InTransit(p: Pipe): seq<string> {
    Stages(p.inner.buffer, Texts(p.lazy.failed), Texts(p.lazy.queuedWrites), p.outer.buffer)
  }

  function Stages(inner: seq<string>, failed: seq<string>, queued: seq<string>, outer: seq<string>): seq<string> {
    inner + failed + queued + outer
  }

  lemma MoveToQueue(inner: seq<string>, failed: seq<string>, queued: seq<string>, c: string, outer: seq<string>)
    ensures Stages(inner, failed, queued + [c], outer) == Stages(inner, failed, queued, [c] + outer)
  {
  }

  /** Conservation of order: each accepted chunk is in exactly one place, and the places are in order. */
  ghost predicate Conserved(p: Pipe) {
    p.accepted == Chunks(Submitted(p.gate)) + InTransit(p)
  }

  /** What the promise state allows. */
  predicate Staged(p: Pipe) {
    && (p.lazy.promise != L.Fulfilled ==> Submitted(p.gate) == [] && p.inner == OPEN && p.acked == 0)
    && (p.lazy.promise == L.Fulfilled ==> p.lazy.queuedWrites == [] && p.lazy.queuedEnd == None)
    && (p.lazy.promise != L.Rejected ==> p.lazy.failed == [])
    && (p.gate.waiting != [] ==> !p.gate.pidReady)
    && (p.gate.pid != "" ==> p.gate.pidReady)
    && p.acked <= |p.gate.posts|
    && (p.inner.dead ==> p.outer.dead)
  }

  /** The order of the end marks: stdin is closed last and once. */
  predicate Ends(p: Pipe) {
    var ops := Submitted(p.gate);
    && (p.outer.finalCalled ==> p.outer.ending && p.outer.buffer == [])
    && (p.lazy.queuedEnd.Some? || p.inner.ending ==> p.outer.finalCalled)
    && (p.inner.finalCalled ==> p.inner.ending && p.inner.buffer == [])
    && (p.inner.finalCalled <==> CloseStdin in ops)
    && (forall i :: 0 <= i < |ops| - 1 ==> ops[i] != CloseStdin)
  }

  /** Requests submitted but not answered. */
  function Open(p: Pipe): int {
    |Submitted(p.gate)| - p.acked
  }

  /** One chunk is in flight at a time, and a busy stream always has something to wait for. */
  predicate OneInFlight(p: Pipe) {
    !p.outer.dead ==>
      && (p.outer.busy ==> !p.outer.finalCalled && |p.lazy.queuedWrites| + |p.inner.buffer| + Open(p) == 1)
      && (!p.outer.busy ==> p.lazy.queuedWrites == [] && p.inner.buffer == [])
      && (!p.outer.busy && !p.inner.finalCalled ==> Open(p) == 0)
      && (p.inner.finalCalled ==> Open(p) <= 1)
      && (p.inner.busy <==> Open(p) == 1 && !p.inner.finalCalled)
      && (p.outer.finalCalled ==> p.lazy.queuedEnd.Some? || p.inner.ending || p.lazy.promise == L.Rejected)
  }

  predicate Ordered(p: Pipe) {
    Staged(p) && Ends(p) && OneInFlight(p)
  }

  ghost predicate Inv(p: Pipe) {
    Conserved(p) && Ordered(p)
  }

  // Helper facts ---------------------------------------------------------------

  lemma SubmitAppends(g: Gate, op: Op)
    requires g.waiting != [] ==> !g.pidReady
    requires g.pid != "" ==> g.pidReady
    ensures Submitted(Submit(g, op)) == Submitted(g) + [op]
    ensures Chunks(Submitted(g) + [op]) == Chunks(Submitted(g)) + (if op.Send? then [op.chunk] else [])
  {
    assert (Submitted(g) + [op])[..|Submitted(g)|] == Submitted(g);
  }

  lemma AnnounceKeeps(g: Gate, pids: seq<string>)
    ensures Submitted(Announce(g, pids)) == Submitted(g)
  {
  }

  /** The replay of a queue with no end before it puts exactly its chunks into the handle's stream. */
  lemma {:induction false} ReceiveWrites(inner: Stream, items: seq<L.Queued>, tail: seq<L.Call>)
    requires !inner.ending && !inner.dead
    ensures ReceiveAll(inner, L.WriteCalls(items) + tail)
         == ReceiveAll(inner.(buffer := inner.buffer + Texts(items)), tail)
    decreases |items|
  {
    var calls := L.WriteCalls(items) + tail;
    if items == [] {
      assert calls == tail && inner.buffer + Texts(items) == inner.buffer;
    } else {
      assert calls[0] == L.Write(items[0]) && calls[1..] == L.WriteCalls(items[1..]) + tail;
      var next := Receive(inner, calls[0]);
      ReceiveWrites(next, items[1..], tail);
      assert next.buffer + Texts(items[1..]) == inner.buffer + Texts(items);
    }
  }

  /** Driving a callback other than a settlement: at most one call, made only on a resolved handle. */
  lemma DriveOne(p: Pipe, e: L.Event)
    requires !e.OnResolve? && !e.OnReject?
    ensures Drive(p, e).inner == if p.lazy.promise.Fulfilled? then Receive(p.inner, L.DirectCall(e)[0]) else p.inner
    ensures forall k :: k in Drive(p, e).kills ==> k in p.kills || k == p.gate.pid
  {
    var calls := L.Emitted(p.lazy, e);
    if calls != [] {
      assert calls[1..] == [];
      assert ReceiveAll(p.inner, calls) == ReceiveAll(Receive(p.inner, calls[0]), []);
    }
    KillPostsPid(p.gate.pid, calls);
  }

  lemma ReceiveEnd(inner: Stream, end: Option<nat>, kill: bool)
    ensures ReceiveAll(inner, L.EndCalls(end) + L.KillCalls(kill)) == inner.(ending := inner.ending || end.Some?)
  {
    var calls := L.EndCalls(end) + L.KillCalls(kill);
    var afterEnd := inner.(ending := inner.ending || end.Some?);
    if end.Some? {
      assert calls[0] == L.Close(end.value) && calls[1..] == L.KillCalls(kill);
    } else {
      assert calls == L.KillCalls(kill);
    }
    assert kill ==> L.KillCalls(kill)[1..] == [];
    assert ReceiveAll(afterEnd, L.KillCalls(kill)) == afterEnd;
  }

  lemma ReceiveReplay(inner: Stream, s: L.Lazy)
    requires !inner.ending && !inner.dead && s.promise == L.Pending
    ensures ReceiveAll(inner, L.Emitted(s, L.OnResolve))
         == inner.(buffer := inner.buffer + Texts(s.queuedWrites), ending := s.queuedEnd.Some?)
  {
    var w, c, k := L.WriteCalls(s.queuedWrites), L.EndCalls(s.queuedEnd), L.KillCalls(s.killQueued);
    ConcatAssoc(w, c, k);
    ReceiveWrites(inner, s.queuedWrites, c + k);
    ReceiveEnd(inner.(buffer := inner.buffer + Texts(s.queuedWrites)), s.queuedEnd, s.killQueued);
  }

  // Preservation, event by event: first where the chunks are, then everything else --------------

  lemma SameChunks(p: Pipe, q: Pipe)
    requires Conserved(p) && q.accepted == p.accepted
    requires Submitted(q.gate) == Submitted(p.gate) && InTransit(q) == InTransit(p)
    ensures Conserved(q)
  {
  }

  lemma OuterPumpConserves(p: Pipe)
    requires Conserved(p) && Ordered(p)
    ensures Conserved(Step(p, OuterPump))
  {
    var o, q := p.outer, Step(p, OuterPump);
    if !o.busy && !o.dead && o.buffer != [] {
      var c := o.buffer[0];
      assert o.buffer == [c] + o.buffer[1..];
      DriveOne(p.(outer := q.outer, made := q.made), L.OnWrite(L.Queued(c, p.made)));
      if p.lazy.promise.Fulfilled? {
        assert q.inner.ending || q.inner.buffer == p.inner.buffer + [c];
        assert Texts([]) == [];
      } else {
        assert Texts(q.lazy.queuedWrites) == Texts(p.lazy.queuedWrites) + [c];
        MoveToQueue(p.inner.buffer, Texts(p.lazy.failed), Texts(p.lazy.queuedWrites), c, o.buffer[1..]);
      }
      SameChunks(p, q);
    } else if !o.busy && !o.dead && o.ending && !o.finalCalled {
      DriveOne(p.(outer := q.outer, made := q.made), L.OnFinal(p.made));
      SameChunks(p, q);
    }
  }

  lemma OuterPumpOrdered(p: Pipe)
    requires Ordered(p)
    ensures Ordered(Step(p, OuterPump))
  {
    var o, q := p.outer, Step(p, OuterPump);
    if !o.busy && !o.dead && o.buffer != [] {
      DriveOne(p.(outer := q.outer, made := q.made), L.OnWrite(L.Queued(o.buffer[0], p.made)));
    } else if !o.busy && !o.dead && o.ending && !o.finalCalled {
      DriveOne(p.(outer := q.outer, made := q.made), L.OnFinal(p.made));
    }
  }

  lemma InnerSendConserves(p: Pipe, c: string)
    requires Conserved(p) && Staged(p) && !p.inner.busy && !p.inner.dead && p.inner.buffer != [] && c == p.inner.buffer[0]
    ensures Conserved(Step(p, InnerPump))
  {
    var q := Step(p, InnerPump);
    SubmitAppends(p.gate, Send(c));
    assert p.inner.buffer == [c] + q.inner.buffer;
    assert InTransit(p) == [c] + InTransit(q);
    ConcatAssoc(Chunks(Submitted(p.gate)), [c], InTransit(q));
  }

  lemma InnerCloseConserves(p: Pipe)
    requires Conserved(p) && Staged(p) && !p.inner.busy && !p.inner.dead && p.inner.buffer == [] && p.inner.ending && !p.inner.finalCalled
    ensures Conserved(Step(p, InnerPump))
  {
    var q := Step(p, InnerPump);
    SubmitAppends(p.gate, CloseStdin);
    assert Chunks(Submitted(p.gate)) + [] == Chunks(Submitted(p.gate));
    assert InTransit(q) == InTransit(p);
  }

  lemma InnerPumpConserves(p: Pipe)
    requires Conserved(p) && Staged(p)
    ensures Conserved(Step(p, InnerPump))
  {
    var i := p.inner;
    if i.busy || i.dead {
    } else if i.buffer != [] {
      InnerSendConserves(p, i.buffer[0]);
    } else if i.ending && !i.finalCalled {
      InnerCloseConserves(p);
    }
  }

  /** Submitting an operation to a gate that holds no close yet. */
  lemma InnerSubmits(p: Pipe, q: Pipe, op: Op)
    requires Ordered(p) && !p.inner.busy && !p.inner.dead && !p.inner.finalCalled
    requires q.gate == Submit(p.gate, op)
    ensures Submitted(q.gate) == Submitted(p.gate) + [op] && CloseStdin !in Submitted(p.gate)
    ensures |q.gate.posts| >= |p.gate.posts| && (q.gate.waiting != [] ==> !q.gate.pidReady) && (q.gate.pid != "" ==> q.gate.pidReady)
  {
    SubmitAppends(p.gate, op);
  }

  lemma InnerPumpOrdered(p: Pipe)
    requires Ordered(p)
    ensures Ordered(Step(p, InnerPump))
  {
    var i, q := p.inner, Step(p, InnerPump);
    if i.busy || i.dead {
    } else if i.buffer != [] {
      InnerSubmits(p, q, Send(i.buffer[0]));
    } else if i.ending && !i.finalCalled {
      InnerSubmits(p, q, CloseStdin);
    }
  }

  lemma ResolveConserves(p: Pipe)
    requires Conserved(p) && Ordered(p)
    ensures Conserved(Step(p, HandleResolved))
  {
    var q := Step(p, HandleResolved);
    if p.lazy.promise.Pending? {
      ReceiveReplay(p.inner, p.lazy);
      var queued := Texts(p.lazy.queuedWrites);
      assert [] + queued == queued && Texts([]) == [];
      SameChunks(p, q);
    }
  }

  lemma ResolveOrdered(p: Pipe)
    requires Ordered(p)
    ensures Ordered(Step(p, HandleResolved))
  {
    if p.lazy.promise.Pending? {
      ReceiveReplay(p.inner, p.lazy);
      assert |Texts(p.lazy.queuedWrites)| == |p.lazy.queuedWrites|;
    }
  }

  lemma RejectOrdered(p: Pipe)
    requires Ordered(p)
    ensures Ordered(Step(p, HandleRejected))
  {
  }

  lemma SdkConserves(p: Pipe, e: Event)
    requires Conserved(p) && (e.SdkWrite? || e.SdkEnd? || e.SdkDestroy? || e.SdkKill?)
    ensures Conserved(Step(p, e))
  {
    match e
    case SdkWrite(c) =>
      if !p.outer.ending && !p.outer.dead {
        assert InTransit(Step(p, e)) == InTransit(p) + [c];
        ConcatAssoc(Chunks(Submitted(p.gate)), InTransit(p), [c]);
      }
    case SdkEnd =>
    case SdkDestroy =>
    case SdkKill => DriveOne(p, L.OnKill);
  }

  lemma SdkOrdered(p: Pipe, e: Event)
    requires Ordered(p) && (e.SdkWrite? || e.SdkEnd? || e.SdkDestroy? || e.SdkKill?)
    ensures Ordered(Step(p, e))
  {
    if e.SdkKill? { DriveOne(p, L.OnKill); }
  }

  lemma StartedKeeps(p: Pipe, pids: seq<string>)
    requires Inv(p)
    ensures Inv(Step(p, Started(pids)))
  {
    AnnounceKeeps(p.gate, pids);
    SameChunks(p, Step(p, Started(pids)));
  }

  lemma AnsweredKeeps(p: Pipe, ok: bool)
    requires Inv(p)
    ensures Inv(Step(p, Answered(ok)))
  {
    SameChunks(p, Step(p, Answered(ok)));
  }

  lemma StepKeeps(p: Pipe, e: Event)
    requires Inv(p)
    ensures Inv(Step(p, e))
  {
    match e
    case OuterPump =>
      OuterPumpConserves(p);
      OuterPumpOrdered(p);
    case InnerPump =>
      InnerPumpConserves(p);
      InnerPumpOrdered(p);
    case HandleResolved =>
      ResolveConserves(p);
      ResolveOrdered(p);
    case HandleRejected =>
      RejectOrdered(p);
    case Started(pids) => StartedKeeps(p, pids);
    case Answered(ok) => AnsweredKeeps(p, ok);
    case _ =>
      SdkConserves(p, e);
      SdkOrdered(p, e);
  }

  /** The invariant holds after every interleaving. */
  lemma {:induction false} RunInv(es: seq<Event>)
    ensures Inv(Run(es))
  {
    if es == [] {
      assert Ops([]) == [] && Texts([]) == [];
    } else {
      RunInv(es[..|es| - 1]);
      StepKeeps(Run(es[..|es| - 1]), es[|es| - 1]);
    }
  }

  // ---------------------------------------------------------------------------
  // The promises
  // ---------------------------------------------------------------------------

  lemma {:induction false} ChunksConcat(a: seq<Op>, b: seq<Op>)
    ensures Chunks(a + b) == Chunks(a) + Chunks(b)
  {
    if b == [] {
      assert a + b == a;
    } else {
      ChunksConcat(a, b[..|b| - 1]);
      assert (a + b)[..|a + b| - 1] == a + b[..|b| - 1];
    }
  }

  /** What the SDK wrote before it ended the stream, read off the events alone. */
  function Written(es: seq<Event>): seq<string> {
    if es == [] then []
    else
      var init, last := es[..|es| - 1], es[|es| - 1];
      if last.SdkWrite? && SdkEnd !in init then Written(init) + [last.chunk] else Written(init)
  }

  /** Nothing in the run can break the stream. */
  predicate Healthy(es: seq<Event>) {
    forall e :: e in es ==> !e.SdkDestroy? && !e.HandleRejected? && e != Answered(false)
  }

  /** While the stream lives it has taken in everything written to it; once ended or dead, what it has stays. */
  predicate TookIn(es: seq<Event>) {
    var p := Run(es);
    && p.accepted <= Written(es)
    && (!p.outer.dead || p.outer.ending ==> p.accepted == Written(es))
    && (!p.outer.dead ==> (p.outer.ending <==> SdkEnd in es))
    && (p.outer.ending ==> SdkEnd in es)
    && (Healthy(es) ==> !p.outer.dead)
  }

  lemma StepTakesIn(p: Pipe, e: Event)
    ensures var q := Step(p, e);
            && q.accepted == (if e.SdkWrite? && !p.outer.ending && !p.outer.dead then p.accepted + [e.chunk] else p.accepted)
            && (q.outer.ending <==> p.outer.ending || (e.SdkEnd? && !p.outer.dead))
            && (p.outer.dead ==> q.outer.dead)
            && (q.outer.dead ==> p.outer.dead || e.SdkDestroy? || e.HandleRejected? || e == Answered(false))
  {
  }

  lemma WrittenSnoc(es: seq<Event>, e: Event)
    ensures Written(es + [e]) == if e.SdkWrite? && SdkEnd !in es then Written(es) + [e.chunk] else Written(es)
    ensures SdkEnd in es + [e] <==> SdkEnd in es || e == SdkEnd
    ensures Healthy(es + [e]) <==> Healthy(es) && !e.SdkDestroy? && !e.HandleRejected? && e != Answered(false)
  {
    assert (es + [e])[..|es|] == es;
    assert e in es + [e] && forall x :: x in es ==> x in es + [e];
  }

  lemma TookInSnoc(es: seq<Event>, e: Event)
    requires TookIn(es)
    ensures TookIn(es + [e])
  {
    assert (es + [e])[..|es|] == es;
    StepTakesIn(Run(es), e);
    WrittenSnoc(es, e);
  }

  /** In every run the stream takes in everything the SDK writes, until it is ended, destroyed or broken. */
  lemma {:induction false} RunTookIn(es: seq<Event>)
    ensures TookIn(es)
  {
    if es != [] {
      InitLast(es);
      RunTookIn(es[..|es| - 1]);
      TookInSnoc(es[..|es| - 1], es[|es| - 1]);
    }
  }

  /** In every run the stdin POSTs carry a prefix of what the SDK wrote, in order and without gaps. */
  lemma PostsArePrefix(es: seq<Event>)
    ensures Chunks(Ops(Run(es).gate.posts)) <= Written(es)
  {
    RunInv(es);
    RunTookIn(es);
    ChunksConcat(Ops(Run(es).gate.posts), Run(es).gate.waiting);
    assert Chunks(Ops(Run(es).gate.posts)) <= Run(es).accepted;
  }

  /** The close is the last thing submitted, so nothing waits behind it. */
  lemma ClosedGate(p: Pipe)
    requires Ends(p) && CloseStdin in Ops(p.gate.posts)
    ensures p.gate.waiting == [] && Submitted(p.gate) == Ops(p.gate.posts) && p.inner.finalCalled
    ensures Ops(p.gate.posts)[|p.gate.posts| - 1] == CloseStdin
    ensures forall i :: 0 <= i < |p.gate.posts| - 1 ==> p.gate.posts[i].op.Send?
  {
    var ops := Submitted(p.gate);
    var i :| 0 <= i < |p.gate.posts| && Ops(p.gate.posts)[i] == CloseStdin;
    assert ops[i] == CloseStdin;
    assert i == |ops| - 1;
    assert p.gate.waiting == [];
    forall j | 0 <= j < |p.gate.posts| - 1
      ensures p.gate.posts[j].op.Send?
    {
      assert ops[j] == p.gate.posts[j].op;
    }
  }

  lemma NothingInTransit(p: Pipe)
    requires Ordered(p) && p.inner.finalCalled
    ensures InTransit(p) == []
  {
    assert p.lazy.promise == L.Fulfilled;
  }

  /** The close POST is the last request, comes once, and only after every accepted write was posted and answered. */
  lemma CloseIsLast(es: seq<Event>)
    requires CloseStdin in Ops(Run(es).gate.posts)
    ensures var p := Run(es);
            var n := |p.gate.posts|;
            && Ops(p.gate.posts)[n - 1] == CloseStdin
            && (forall i :: 0 <= i < n - 1 ==> p.gate.posts[i].op.Send?)
            && Chunks(Ops(p.gate.posts)) == Written(es) && SdkEnd in es
            && (!p.outer.dead ==> p.acked >= n - 1)
  {
    RunInv(es);
    RunTookIn(es);
    ClosedGate(Run(es));
    NothingInTransit(Run(es));
  }

  /** No wake-up is lost: when nothing can move any more, everything written has been posted, and the close if it was ended. */
  lemma QuietMeansDelivered(es: seq<Event>)
    requires var p := Run(es);
             && p.lazy.promise == L.Fulfilled && p.gate.pidReady && !p.outer.dead
             && p.acked == |p.gate.posts|
             && Step(p, OuterPump) == p && Step(p, InnerPump) == p
    ensures var p := Run(es);
            Chunks(Ops(p.gate.posts)) == Written(es) && (SdkEnd in es <==> CloseStdin in Ops(p.gate.posts))
  {
    RunInv(es);
    RunTookIn(es);
    var p := Run(es);
    assert p.gate.waiting == [] && Submitted(p.gate) == Ops(p.gate.posts);
    assert !p.inner.busy && !p.outer.busy && p.inner.buffer == [];
    assert p.outer.buffer == [];
    assert InTransit(p) == [];
  }

  /** A broken stream takes nothing in, and a broken handle submits nothing, whatever follows. */
  lemma {:induction false} BrokenStays(es: seq<Event>, n: nat)
    requires n <= |es|
    ensures Run(es[..n]).outer.dead ==> Run(es).outer.dead && Run(es).accepted == Run(es[..n]).accepted
    ensures Run(es[..n]).inner.dead ==> Run(es).inner.dead && Submitted(Run(es).gate) == Submitted(Run(es[..n]).gate)
    decreases |es|
  {
    if n == |es| {
      assert es[..n] == es;
    } else {
      var init, last := es[..|es| - 1], es[|es| - 1];
      assert init[..n] == es[..n];
      BrokenStays(init, n);
      StepTakesIn(Run(init), last);
      if Run(init).inner.dead { StepBroken(Run(init), last); }
    }
  }

  lemma StepBroken(p: Pipe, e: Event)
    requires p.inner.dead
    ensures Step(p, e).inner.dead && Submitted(Step(p, e).gate) == Submitted(p.gate)
  {
    if e.Started? { AnnounceKeeps(p.gate, e.pids); }
    KeepsDead(p.inner, L.Emitted(p.lazy, L.OnResolve));
    KeepsDead(p.inner, L.Emitted(p.lazy, L.OnKill));
    KeepsDead(p.inner, L.Emitted(p.lazy, L.OnReject));
    if p.outer.buffer != [] { KeepsDead(p.inner, L.Emitted(p.lazy, L.OnWrite(L.Queued(p.outer.buffer[0], p.made)))); }
    KeepsDead(p.inner, L.Emitted(p.lazy, L.OnFinal(p.made)));
  }

  lemma {:induction false} KeepsDead(inner: Stream, calls: seq<L.Call>)
    requires inner.dead
    ensures ReceiveAll(inner, calls).dead
    decreases |calls|
  {
    if calls != [] { KeepsDead(Receive(inner, calls[0]), calls[1..]); }
  }

  /** After the SDK destroys the stream nothing more is taken in, and a resolved handle submits nothing more; so after a failed POST. */
  lemma DestroyEnds(es: seq<Event>, i: nat)
    requires i < |es| && (es[i] == SdkDestroy || (es[i] == Answered(false) && Run(es[..i]).acked < |Run(es[..i]).gate.posts|))
    ensures Run(es).accepted == Run(es[..i]).accepted
    ensures Run(es[..i]).lazy.promise == L.Fulfilled ==> Submitted(Run(es).gate) == Submitted(Run(es[..i]).gate)
  {
    assert es[..i + 1][..i] == es[..i];
    BrokenStays(es, i + 1);
  }

  predicate Announced(es: seq<Event>, pid: string) {
    exists e :: e in es && e.Started? && pid in e.pids
  }

  lemma AnnouncedLonger(es: seq<Event>, e: Event)
    ensures forall pid :: Announced(es, pid) ==> Announced(es + [e], pid)
  {
    assert forall x :: x in es ==> x in es + [e];
  }

  lemma {:induction false} PidsAnnounced(es: seq<Event>)
    ensures var p := Run(es);
            && (p.gate.pidReady ==> Announced(es, p.gate.pid)) && (!p.gate.pidReady ==> p.gate.pid == "")
            && (forall r :: r in p.gate.posts ==> Announced(es, r.pid))
            && (forall k :: k in p.kills ==> k == "" || Announced(es, k))
  {
    if es != [] {
      var init, last := es[..|es| - 1], es[|es| - 1];
      PidsAnnounced(init);
      InitLast(es);
      var p, q := Run(init), Run(es);
      AnnouncedLonger(init, last);
      if last.Started? && last.pids != [] {
        assert last in es && last.pids[|last.pids| - 1] in last.pids;
        forall r | r in q.gate.posts ensures Announced(es, r.pid) {}
      } else {
        StepKills(p, last);
      }
    }
  }

  lemma StepKills(p: Pipe, e: Event)
    ensures forall k :: k in Step(p, e).kills ==> k in p.kills || k == p.gate.pid
  {
    match e
    case SdkKill => DriveOne(p, L.OnKill);
    case OuterPump =>
      var o, q := p.outer, Step(p, e);
      if !o.busy && !o.dead && o.buffer != [] {
        DriveOne(p.(outer := q.outer, made := q.made), L.OnWrite(L.Queued(o.buffer[0], p.made)));
      } else if !o.busy && !o.dead && o.ending && !o.finalCalled {
        DriveOne(p.(outer := q.outer, made := q.made), L.OnFinal(p.made));
      }
    case HandleResolved => KillPostsPid(p.gate.pid, L.Emitted(p.lazy, L.OnResolve));
    case _ =>
  }

  lemma {:induction false} KillPostsPid(pid: string, calls: seq<L.Call>)
    ensures forall k :: k in KillPosts(pid, calls) ==> k == pid
  {
    if calls != [] { KillPostsPid(pid, calls[1..]); }
  }

  /** When all `started` frames of a run name one pid, every stdin POST carries it. */
  lemma PostsCarryThePid(es: seq<Event>, pid: string)
    requires forall x :: Announced(es, x) ==> x == pid
    ensures forall r :: r in Run(es).gate.posts ==> r.pid == pid
  {
    PidsAnnounced(es);
  }

  function LastStarted(es: seq<Event>): string {
    if es == [] then ""
    else
      var last := es[|es| - 1];
      if last.Started? && last.pids != [] then last.pids[|last.pids| - 1] else LastStarted(es[..|es| - 1])
  }

  lemma {:induction false} PidIsLastStarted(es: seq<Event>)
    ensures Run(es).gate.pid == LastStarted(es)
  {
    if es != [] { PidIsLastStarted(es[..|es| - 1]); }
  }
}

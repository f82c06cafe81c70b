/**
 The per-session registry of sandbox boxes (agent-runner/src/boxManager.ts).

 `ensure` awaits the creation of a box between its lookup and its insertion, and `closeAll` awaits each
 deletion before it clears the map, so both are split into the parts that run without interruption.
 A box is the number of its creation.
 */
module BoxManager {
  import opened Basics

  type Session = string

  datatype Boxes = Boxes(
    boxes: map<Session, nat>,
    created: nat,                      // boxes 0 .. created-1 exist at the sandbox
    deleted: set<nat>,                 // boxes whose deletion was issued
    inflight: map<nat, Session>,       // unfinished creations, by ticket
    tickets: nat,                      // tickets handed out so far
    sweeps: map<nat, seq<Session>>,    // running `closeAll`s, by number, with the ids still to visit
    nextSweep: nat)

  const EMPTY := Boxes(map[], 0, {}, map[], 0, map[], 0)

  datatype Event =
    | EnsureBegin(session: Session)
    | CreateOk(ticket: nat)
    | CreateFail(ticket: nat)
    | Release(session: Session)
    | SweepBegin(ids: seq<Session>)    // ids: the keys of the map, in its order
    | SweepNext(sweep: nat)

  /** `release`, and one turn of the loop of `closeAll` before its `await`. */
  function Delete(s: Boxes, x: Session): Boxes {
    if x in s.boxes then s.(deleted := s.deleted + {s.boxes[x]}) else s
  }

  function Step(s: Boxes, e: Event): Boxes {
    match e
    case EnsureBegin(x) =>
      if x in s.boxes then s
      else s.(inflight := s.inflight[s.tickets := x], tickets := s.tickets + 1)
    case CreateOk(t) =>
      if t !in s.inflight then s
      else s.(boxes := s.boxes[s.inflight[t] := s.created], created := s.created + 1, inflight := s.inflight - {t})
    case CreateFail(t) => s.(inflight := s.inflight - {t})
    case Release(x) => Delete(s, x).(boxes := s.boxes - {x})
    case SweepBegin(ids) =>
      if (set x | x in ids) != s.boxes.Keys then s
      else s.(sweeps := s.sweeps[s.nextSweep := ids], nextSweep := s.nextSweep + 1)
    case SweepNext(i) =>
      if i !in s.sweeps then s
      else if s.sweeps[i] == [] then s.(boxes := map[], sweeps := s.sweeps - {i})
      else Delete(s, s.sweeps[i][0]).(sweeps := s.sweeps[i := s.sweeps[i][1..]])
  }

  /** What `ensure` returns at once, if the session has a box. */
  function EnsureReturns(s: Boxes, x: Session): Option<nat> {
    if x in s.boxes then Some(s.boxes[x]) else None
  }

  function After(es: seq<Event>): Boxes {
    if es == [] then EMPTY else Step(After(es[..|es| - 1]), es[|es| - 1])
  }

  // ---------------------------------------------------------------------------
  // Every run: which boxes are lost, and by which steps
  // ---------------------------------------------------------------------------

  predicate Mapped(s: Boxes, b: nat) {
    b in s.boxes.Values
  }

  /** A box that exists but that nothing maps and nobody asked to delete. */
  predicate Lost(s: Boxes, b: nat) {
    b < s.created && !Mapped(s, b) && b !in s.deleted
  }

  predicate WellFormed(s: Boxes) {
    && (forall x :: x in s.boxes ==> s.boxes[x] < s.created)
    && (forall x, y :: x in s.boxes && y in s.boxes && x != y ==> s.boxes[x] != s.boxes[y])
    && (forall b :: b in s.deleted ==> b < s.created)
    && (forall t :: t in s.inflight ==> t < s.tickets)
    && (forall i :: i in s.sweeps ==> i < s.nextSweep)
  }

  lemma CreateWellFormed(s: Boxes, t: nat)
    requires WellFormed(s)
    ensures WellFormed(Step(s, CreateOk(t)))
  {
  }

  lemma StepWellFormed(s: Boxes, e: Event)
    requires WellFormed(s)
    ensures WellFormed(Step(s, e))
  {
    if e.CreateOk? { CreateWellFormed(s, e.ticket); }
  }

  lemma {:induction false} AfterWellFormed(es: seq<Event>)
    ensures WellFormed(After(es))
  {
    if es != [] {
      AfterWellFormed(es[..|es| - 1]);
      StepWellFormed(After(es[..|es| - 1]), es[|es| - 1]);
    }
  }

  /** The two guards under which a step loses a box: an insertion over a live entry, a clear of a live entry. */
  predicate Loses(s: Boxes, e: Event) {
    match e
    case CreateOk(t) => t in s.inflight && s.inflight[t] in s.boxes && s.boxes[s.inflight[t]] !in s.deleted
    case SweepNext(i) => i in s.sweeps && s.sweeps[i] == [] && exists x :: x in s.boxes && s.boxes[x] !in s.deleted
    case _ => false
  }

  lemma MappedAt(s: Boxes, x: Session)
    requires x in s.boxes
    ensures Mapped(s, s.boxes[x])
  {
  }

  /** A lost box stays lost: nothing can name it any more. */
  lemma LostForever(s: Boxes, e: Event, b: nat)
    requires WellFormed(s) && Lost(s, b)
    ensures Lost(Step(s, e), b)
  {
    forall x | x in s.boxes ensures s.boxes[x] != b { MappedAt(s, x); }
  }

  lemma KeepsBox(s: Boxes, e: Event, x: Session)
    requires x in s.boxes && !Loses(s, e)
    ensures Mapped(Step(s, e), s.boxes[x]) || s.boxes[x] in Step(s, e).deleted
  {
    var t := Step(s, e);
    assert (x in t.boxes && t.boxes[x] == s.boxes[x]) || s.boxes[x] in t.deleted;
    if x in t.boxes { MappedAt(t, x); }
  }

  /** A step that meets neither guard loses nothing. */
  lemma KeepsBoxes(s: Boxes, e: Event, b: nat)
    requires WellFormed(s) && !Loses(s, e) && !Lost(s, b)
    ensures !Lost(Step(s, e), b)
  {
    var t := Step(s, e);
    if b < s.created && Mapped(s, b) {
      var x :| x in s.boxes && s.boxes[x] == b;
      KeepsBox(s, e, x);
    } else if e.CreateOk? && e.ticket in s.inflight {
      MappedAt(t, s.inflight[e.ticket]);
    }
  }

  /** A step that meets a guard loses a box. */
  lemma LosesBox(s: Boxes, e: Event) returns (b: nat)
    requires WellFormed(s) && Loses(s, e)
    ensures Lost(Step(s, e), b)
  {
    var t := Step(s, e);
    var x :| x in s.boxes && s.boxes[x] !in s.deleted && (e.CreateOk? ==> x == s.inflight[e.ticket]);
    b := s.boxes[x];
    forall y | y in t.boxes ensures t.boxes[y] != b {}
  }

  /** A run none of whose steps meets a guard. */
  predicate Careful(es: seq<Event>) {
    forall i :: 0 <= i < |es| ==> !Loses(After(es[..i]), es[i])
  }

  lemma {:induction false} CarefulKeeps(es: seq<Event>, b: nat)
    requires Careful(es)
    ensures !Lost(After(es), b)
  {
    if es != [] {
      var init := es[..|es| - 1];
      assert forall i :: 0 <= i < |init| ==> init[..i] == es[..i] && init[i] == es[i];
      CarefulKeeps(init, b);
      AfterWellFormed(init);
      KeepsBoxes(After(init), es[|es| - 1], b);
    }
  }

  lemma {:induction false} CarelessLoses(es: seq<Event>, i: nat) returns (b: nat)
    requires i < |es| && Loses(After(es[..i]), es[i])
    ensures Lost(After(es), b)
  {
    var init := es[..|es| - 1];
    AfterWellFormed(init);
    if i < |init| {
      assert init[..i] == es[..i];
      b := CarelessLoses(init, i);
      LostForever(After(init), es[|es| - 1], b);
    } else {
      b := LosesBox(After(init), es[|es| - 1]);
    }
  }

  ghost predicate NoneLost(s: Boxes) {
    forall b: nat :: !Lost(s, b)
  }

  lemma CarefulLosesNone(es: seq<Event>)
    requires Careful(es)
    ensures NoneLost(After(es))
  {
    forall b: nat ensures !Lost(After(es), b) { CarefulKeeps(es, b); }
  }

  lemma CarelessLosesSome(es: seq<Event>)
    requires !Careful(es)
    ensures !NoneLost(After(es))
  {
    var i :| 0 <= i < |es| && Loses(After(es[..i]), es[i]);
    var b := CarelessLoses(es, i);
  }

  /** A run loses no box exactly when none of its steps meets one of the two guards. */
  lemma LosesExactly(es: seq<Event>)
    ensures NoneLost(After(es)) <==> Careful(es)
  {
    if Careful(es) { CarefulLosesNone(es); } else { CarelessLosesSome(es); }
  }

  // ---------------------------------------------------------------------------
  // Runs whose ensures do not overlap
  // ---------------------------------------------------------------------------

  /**
   What callers can arrange: no second `ensure` of a session while one is creating its box, and no
   creation in flight while a `closeAll` runs.
   */
  predicate Calm(s: Boxes, e: Event) {
    match e
    case EnsureBegin(x) => x in s.boxes || (s.sweeps == map[] && x !in s.inflight.Values)
    case SweepBegin(_) => s.inflight == map[]
    case _ => true
  }

  predicate CalmRun(es: seq<Event>) {
    forall i :: 0 <= i < |es| ==> Calm(After(es[..i]), es[i])
  }

  predicate CalmInv(s: Boxes) {
    && WellFormed(s)
    && (forall t :: t in s.inflight ==> s.inflight[t] !in s.boxes)
    && (forall t, u :: t in s.inflight && u in s.inflight && t != u ==> s.inflight[t] != s.inflight[u])
    && (s.sweeps != map[] ==> s.inflight == map[])
    && (forall i, x :: i in s.sweeps && x in s.boxes ==> x in s.sweeps[i] || s.boxes[x] in s.deleted)
    && (s.sweeps == map[] ==> forall x :: x in s.boxes ==> s.boxes[x] !in s.deleted)
  }

  lemma CalmSweep(s: Boxes, i: nat)
    requires CalmInv(s) && i in s.sweeps
    ensures CalmInv(Step(s, SweepNext(i)))
  {
    var t := Step(s, SweepNext(i));
    if s.sweeps[i] != [] {
      assert t.sweeps.Keys == s.sweeps.Keys && t.boxes == s.boxes && i in t.sweeps;
      forall j, x | j in t.sweeps && x in t.boxes
        ensures x in t.sweeps[j] || t.boxes[x] in t.deleted
      {
        if j == i && x in s.sweeps[i] && x != s.sweeps[i][0] {
          assert s.sweeps[i] == [s.sweeps[i][0]] + s.sweeps[i][1..];
        }
      }
    } else {
      assert s.inflight == map[];
    }
  }

  lemma CalmStep(s: Boxes, e: Event)
    requires CalmInv(s) && Calm(s, e)
    ensures CalmInv(Step(s, e))
    ensures !Loses(s, e)
  {
    StepWellFormed(s, e);
    var t := Step(s, e);
    match e
    case EnsureBegin(x) =>
      if x !in s.boxes {
        forall u | u in s.inflight ensures s.inflight[u] != x { assert s.inflight[u] in s.inflight.Values; }
      }
    case CreateOk(k) =>
      if k in s.inflight { assert s.sweeps == map[]; }
    case CreateFail(_) =>
      assert s.inflight == map[] ==> t.inflight == map[];
    case Release(x) =>
      if x in s.boxes {
        forall y | y in t.boxes && t.sweeps == map[] ensures t.boxes[y] !in t.deleted { assert s.boxes[y] != s.boxes[x]; }
      }
    case SweepBegin(ids) =>
    case SweepNext(i) =>
      if i in s.sweeps { CalmSweep(s, i); }
  }

  lemma {:induction false} CalmAfter(es: seq<Event>)
    requires CalmRun(es)
    ensures CalmInv(After(es))
  {
    if es != [] {
      var init := es[..|es| - 1];
      assert forall i :: 0 <= i < |init| ==> init[..i] == es[..i] && init[i] == es[i];
      CalmAfter(init);
      CalmStep(After(init), es[|es| - 1]);
    }
  }

  lemma CalmIsCareful(es: seq<Event>)
    requires CalmRun(es)
    ensures Careful(es)
  {
    forall i | 0 <= i < |es| ensures !Loses(After(es[..i]), es[i]) {
      var pre := es[..i];
      assert forall j :: 0 <= j < i ==> pre[..j] == es[..j] && pre[j] == es[j];
      CalmAfter(pre);
      CalmStep(After(pre), es[i]);
    }
  }

  /** The boxes created when n were. */
  function Existing(n: nat): (r: set<nat>)
    ensures |r| == n && forall b: nat :: b in r <==> b < n
  {
    if n == 0 then {} else Existing(n - 1) + {n - 1}
  }

  lemma {:induction false} InjectiveCount(m: map<Session, nat>)
    requires forall x, y :: x in m && y in m && x != y ==> m[x] != m[y]
    ensures |m.Values| == |m|
    decreases |m|
  {
    if m == map[] {
      assert m.Values == {};
    } else {
      var x :| x in m;
      var rest := m - {x};
      InjectiveCount(rest);
      assert m.Values == rest.Values + {m[x]} by {
        forall b | b in m.Values ensures b in rest.Values + {m[x]} {
          var y :| y in m && m[y] == b;
          assert y != x ==> y in rest && rest[y] == b;
        }
        forall b | b in rest.Values ensures b in m.Values {
          var y :| y in rest && rest[y] == b;
          assert y in m;
        }
      }
      assert m[x] !in rest.Values;
      assert m.Keys == rest.Keys + {x};
    }
  }

  /**
   In every calm run no box is lost, and outside `closeAll` the boxes created are the boxes mapped plus
   the boxes whose deletion was issued, with no box in both.
   */
  lemma CalmConserves(es: seq<Event>)
    requires CalmRun(es)
    ensures NoneLost(After(es))
    ensures var s := After(es);
            s.sweeps == map[] ==>
              && s.boxes.Values !! s.deleted && s.boxes.Values + s.deleted == Existing(s.created)
              && s.created == |s.boxes| + |s.deleted|
  {
    CalmIsCareful(es);
    CarefulLosesNone(es);
    CalmAfter(es);
    if After(es).sweeps == map[] { CalmCounts(After(es)); }
  }

  lemma CalmCounts(s: Boxes)
    requires CalmInv(s) && s.sweeps == map[] && NoneLost(s)
    ensures s.boxes.Values !! s.deleted && s.boxes.Values + s.deleted == Existing(s.created)
    ensures s.created == |s.boxes| + |s.deleted|
  {
    forall b | b in Existing(s.created) ensures b in s.boxes.Values + s.deleted { assert !Lost(s, b); }
    assert s.boxes.Values + s.deleted == Existing(s.created);
    assert s.boxes.Values !! s.deleted;
    InjectiveCount(s.boxes);
  }

  /** The final clearing of a `closeAll`. */
  predicate Clears(s: Boxes, e: Event) {
    e.SweepNext? && e.sweep in s.sweeps && s.sweeps[e.sweep] == []
  }

  lemma StepKeepsBox(s: Boxes, e: Event, x: Session)
    requires CalmInv(s) && x in s.boxes && e != Release(x) && !Clears(s, e)
    ensures x in Step(s, e).boxes && Step(s, e).boxes[x] == s.boxes[x]
  {
  }

  /** From event i on, session x is not released and no `closeAll` clears the map. */
  predicate Undisturbed(es: seq<Event>, i: nat, x: Session) {
    forall k :: i <= k < |es| ==> es[k] != Release(x) && !Clears(After(es[..k]), es[k])
  }

  lemma RunInit(es: seq<Event>, i: nat, x: Session)
    requires CalmRun(es) && i < |es| && Undisturbed(es, i, x)
    ensures var init := es[..|es| - 1];
            CalmRun(init) && Undisturbed(init, i, x) && init[..i] == es[..i] && Calm(After(init), es[|es| - 1])
  {
    var init := es[..|es| - 1];
    assert forall k :: 0 <= k < |init| ==> init[..k] == es[..k] && init[k] == es[k];
  }

  /** In every calm run a session that has a box gets that same box until it is released or the map is cleared. */
  lemma {:induction false} BoxIsKept(es: seq<Event>, i: nat, x: Session)
    requires CalmRun(es) && i <= |es| && x in After(es[..i]).boxes && Undisturbed(es, i, x)
    ensures EnsureReturns(After(es), x) == EnsureReturns(After(es[..i]), x) == Some(After(es[..i]).boxes[x])
  {
    if i == |es| {
      assert es[..i] == es;
    } else {
      var init := es[..|es| - 1];
      RunInit(es, i, x);
      BoxIsKept(init, i, x);
      CalmAfter(init);
      StepKeepsBox(After(init), es[|es| - 1], x);
    }
  }

  /** Two overlapping ensures of one session create two boxes and lose the first. */
  lemma OverlapLoses(x: Session)
    ensures Lost(After([EnsureBegin(x)] + [EnsureBegin(x)] + [CreateOk(0)] + [CreateOk(1)]), 0)
  {
    var e1 := [EnsureBegin(x)];
    assert e1[..0] == [] && After(e1) == Step(EMPTY, EnsureBegin(x));
    var s2 := Step(After(e1), EnsureBegin(x));
    AfterSnoc(e1, EnsureBegin(x));
    AfterSnoc(e1 + [EnsureBegin(x)], CreateOk(0));
    AfterSnoc(e1 + [EnsureBegin(x)] + [CreateOk(0)], CreateOk(1));
    assert s2.inflight == map[0 := x, 1 := x];
    var s4 := Step(Step(s2, CreateOk(0)), CreateOk(1));
    assert s4.boxes == map[x := 1] && s4.boxes.Values == {1};
  }

  lemma AfterSnoc(es: seq<Event>, e: Event)
    ensures After(es + [e]) == Step(After(es), e)
  {
    assert (es + [e])[..|es|] == es;
  }

  // ---------------------------------------------------------------------------
  // What the calls do
  // ---------------------------------------------------------------------------

  /** Apart from session x the two states map the same boxes. */
  ghost predicate SameElsewhere(s: Boxes, t: Boxes, x: Session) {
    forall y :: y != x ==> (y in t.boxes <==> y in s.boxes) && (y in s.boxes ==> t.boxes[y] == s.boxes[y])
  }

  /** An ensure that finds no box creates one, and from its end on the session has that box. */
  lemma EnsureCreates(es: seq<Event>, x: Session)
    requires x !in After(es).boxes
    ensures var s := After(es);
            var t := After(es + [EnsureBegin(x)] + [CreateOk(s.tickets)]);
            t.created == s.created + 1 && EnsureReturns(t, x) == Some(s.created) && t.deleted == s.deleted && SameElsewhere(s, t, x)
  {
    AfterSnoc(es, EnsureBegin(x));
    AfterSnoc(es + [EnsureBegin(x)], CreateOk(After(es).tickets));
  }

  /** One that finds a box creates nothing, and so does one whose creation fails. */
  lemma EnsureCreatesNothing(es: seq<Event>, x: Session, ticket: nat)
    ensures x in After(es).boxes ==> After(es + [EnsureBegin(x)]) == After(es)
    ensures var s, t := After(es), After(es + [CreateFail(ticket)]);
            t.boxes == s.boxes && t.created == s.created && t.deleted == s.deleted && ticket !in t.inflight
  {
    AfterSnoc(es, EnsureBegin(x));
    AfterSnoc(es, CreateFail(ticket));
  }

  /** After a release the session has no box, the deletion of the box it had was issued, and nothing else changed. */
  lemma ReleaseForgets(es: seq<Event>, x: Session)
    ensures var s, t := After(es), After(es + [Release(x)]);
            && EnsureReturns(t, x) == None && SameElsewhere(s, t, x) && t.created == s.created
            && t.deleted == (if x in s.boxes then s.deleted + {s.boxes[x]} else s.deleted)
  {
    AfterSnoc(es, Release(x));
  }

  /** In every calm run, when a `closeAll` clears the map the deletion of every box in it was issued. */
  lemma SweepDeletesAll(es: seq<Event>, i: nat)
    requires CalmRun(es) && Clears(After(es), SweepNext(i))
    ensures After(es).boxes.Values <= After(es).deleted
    ensures After(es + [SweepNext(i)]).boxes == map[] && After(es + [SweepNext(i)]).deleted == After(es).deleted
  {
    CalmAfter(es);
    AfterSnoc(es, SweepNext(i));
  }

  /** The turns of a `closeAll`, n of them. */
  function Turns(i: nat, n: nat): seq<Event> {
    if n == 0 then [] else Turns(i, n - 1) + [SweepNext(i)]
  }

  /** After n turns of an uninterrupted sweep the boxes of the first n ids were asked to be deleted. */
  lemma {:induction false} TurnsDelete(es: seq<Event>, ids: seq<Session>, n: nat)
    requires n <= |ids| && (set x | x in ids) == After(es).boxes.Keys
    ensures var s := After(es);
            var t := After(es + [SweepBegin(ids)] + Turns(s.nextSweep, n));
            && t.boxes == s.boxes && t.created == s.created && t.deleted == s.deleted + DeletedBy(s.boxes, ids[..n])
            && s.nextSweep in t.sweeps && t.sweeps[s.nextSweep] == ids[n..]
  {
    var s := After(es);
    var begun := es + [SweepBegin(ids)];
    AfterSnoc(es, SweepBegin(ids));
    if n == 0 {
      assert begun + Turns(s.nextSweep, 0) == begun && ids[0..] == ids;
    } else {
      TurnsDelete(es, ids, n - 1);
      var before := begun + Turns(s.nextSweep, n - 1);
      ConcatAssoc(begun, Turns(s.nextSweep, n - 1), [SweepNext(s.nextSweep)]);
      AfterSnoc(before, SweepNext(s.nextSweep));
      DeletedByOne(s.boxes, ids, n - 1);
    }
  }

  lemma DeletedByOne(boxes: map<Session, nat>, ids: seq<Session>, n: nat)
    requires n < |ids| && ids[n] in boxes
    ensures DeletedBy(boxes, ids[..n + 1]) == DeletedBy(boxes, ids[..n]) + {boxes[ids[n]]}
  {
    assert ids[..n + 1] == ids[..n] + [ids[n]];
    assert forall x :: x in ids[..n + 1] <==> x in ids[..n] || x == ids[n];
  }

  /** A `closeAll` with nothing interleaved asks for the deletion of exactly the mapped boxes and leaves none mapped. */
  lemma WholeSweep(es: seq<Event>, ids: seq<Session>)
    requires (set x | x in ids) == After(es).boxes.Keys
    ensures var s := After(es);
            var t := After(es + [SweepBegin(ids)] + Turns(s.nextSweep, |ids| + 1));
            t.boxes == map[] && t.deleted == s.deleted + s.boxes.Values && t.created == s.created
  {
    var s := After(es);
    TurnsDelete(es, ids, |ids|);
    var before := es + [SweepBegin(ids)] + Turns(s.nextSweep, |ids|);
    ConcatAssoc(es + [SweepBegin(ids)], Turns(s.nextSweep, |ids|), [SweepNext(s.nextSweep)]);
    AfterSnoc(before, SweepNext(s.nextSweep));
    assert ids[..|ids|] == ids;
    AllDeletedBy(s.boxes, ids);
    LastTurn(After(before), s.nextSweep);
  }

  lemma LastTurn(s: Boxes, i: nat)
    requires i in s.sweeps && s.sweeps[i] == []
    ensures var t := Step(s, SweepNext(i)); t.boxes == map[] && t.deleted == s.deleted && t.created == s.created
  {
  }

  lemma AllDeletedBy(boxes: map<Session, nat>, ids: seq<Session>)
    requires (set x | x in ids) == boxes.Keys
    ensures DeletedBy(boxes, ids) == boxes.Values
  {
    assert forall x :: x in boxes ==> x in (set y | y in ids);
  }

  // ---------------------------------------------------------------------------
  // The registry object
  // ---------------------------------------------------------------------------

  class Manager {
    var boxes: map<Session, nat>
    var created: nat
    var deleted: set<nat>
    var inflight: map<nat, Session>
    var tickets: nat
    var sweeps: map<nat, seq<Session>>
    var nextSweep: nat

    constructor ()
      ensures View() == EMPTY
    {
      boxes, created, deleted, inflight, tickets, sweeps, nextSweep := map[], 0, {}, map[], 0, map[], 0;
    }

    function View(): Boxes
      reads this
    {
      Boxes(boxes, created, deleted, inflight, tickets, sweeps, nextSweep)
    }

    /** `ensure` up to its `await`. */
    method BeginEnsure(x: Session) returns (existing: Option<nat>)
      modifies this
      ensures existing == EnsureReturns(old(View()), x)
      ensures View() == Step(old(View()), EnsureBegin(x))
    {
      if x in boxes {
        return Some(boxes[x]);
      }
      existing := None;
      inflight, tickets := inflight[tickets := x], tickets + 1;
    }

    /** `ensure` after its `await`. */
    method FinishEnsure(ticket: nat) returns (box: nat)
      requires ticket in inflight
      modifies this
      ensures View() == Step(old(View()), CreateOk(ticket)) && boxes[old(inflight)[ticket]] == box
    {
      box := created;
      created := created + 1;
      boxes := boxes[inflight[ticket] := box];
      inflight := inflight - {ticket};
    }

    method ReleaseBox(x: Session)
      modifies this
      ensures View() == Step(old(View()), Release(x))
    {
      if x in boxes {
        deleted := deleted + {boxes[x]};
      }
      boxes := boxes - {x};
    }

    /** `closeAll` up to its loop. */
    method BeginSweep(ids: seq<Session>) returns (sweep: nat)
      requires (set x | x in ids) == boxes.Keys
      modifies this
      ensures View() == Step(old(View()), SweepBegin(ids)) && sweep == old(nextSweep)
    {
      sweep := nextSweep;
      sweeps, nextSweep := sweeps[sweep := ids], nextSweep + 1;
    }

    /** One turn of the loop of `closeAll` up to its `await`, or the clearing after the last turn. */
    method NextSweep(sweep: nat)
      requires sweep in sweeps
      modifies this
      ensures View() == Step(old(View()), SweepNext(sweep))
    {
      var ids := sweeps[sweep];
      if ids == [] {
        boxes := map[];
        sweeps := sweeps - {sweep};
      } else {
        if ids[0] in boxes {
          deleted := deleted + {boxes[ids[0]]};
        }
        sweeps := sweeps[sweep := ids[1..]];
      }
    }

    /** `closeAll` with nothing interleaved: every mapped box is deleted and the map is empty. */
    method CloseAll(ids: seq<Session>)
      requires (set x | x in ids) == boxes.Keys
      modifies this
      ensures boxes == map[] && deleted == old(deleted) + old(boxes).Values
      ensures created == old(created) && inflight == old(inflight)
    {
      var sweep := BeginSweep(ids);
      ghost var i := 0;
      while sweeps[sweep] != []
        invariant sweep in sweeps && i <= |ids| && sweeps[sweep] == ids[i..]
        invariant boxes == old(boxes) && created == old(created) && inflight == old(inflight)
        invariant deleted == old(deleted) + DeletedBy(boxes, ids[..i])
        decreases |sweeps[sweep]|
      {
        assert ids[..i + 1] == ids[..i] + [ids[i]];
        NextSweep(sweep);
        i := i + 1;
      }
      assert ids[..i] == ids;
      NextSweep(sweep);
    }
  }

  function DeletedBy(boxes: map<Session, nat>, ids: seq<Session>): set<nat> {
    set x | x in boxes && x in ids :: boxes[x]
  }

}

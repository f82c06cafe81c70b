/**
 The Server-Sent-Events frame reader of the sandbox client (agent-runner/src/sandboxClient.ts)
 and the framing used on the wire (agent-runner/src/protocol.ts).

 Text arrives in arbitrary chunks. The reader keeps an unfinished tail in `buf`, cuts complete
 frames off its front at each blank line, and turns each frame into an effect on the process
 handle. JSON text is abstract: a `Codec` holds `JSON.stringify` and `JSON.parse`.
 */
module FrameReader {
  import opened Basics

  // ---------------------------------------------------------------------------
  // Cutting text into frames
  // ---------------------------------------------------------------------------

  const BLANK_LINE := "\n\n"

  predicate BreakAt(s: string, i: nat) {
    i + 2 <= |s| && s[i] == '\n' && s[i + 1] == '\n'
  }

  /** `buf.indexOf('\n\n', from)` */
  function FindBreak(s: string, from: nat := 0): (i: int)
    ensures i == -1 || (from <= i && BreakAt(s, i))
    ensures forall j: nat :: from <= j && (i == -1 || j < i) ==> !BreakAt(s, j)
    decreases |s| - from
  {
    if from + 2 > |s| then -1
    else if BreakAt(s, from) then from
    else FindBreak(s, from + 1)
  }

  ghost predicate NoBreak(s: string) {
    forall j: nat :: !BreakAt(s, j)
  }

  /** A text whose blank line is found exactly at its end once one is appended. */
  ghost predicate CleanFrame(f: string) {
    NoBreak(f) && (f != [] ==> f[|f| - 1] != '\n')
  }

  datatype Parts = Parts(frames: seq<string>, rest: string)

  /** The one-shot split of a whole text at its leftmost blank lines. */
  function Split(s: string): Parts
    decreases |s|
  {
    var i := FindBreak(s);
    if i < 0 then Parts([], s)
    else
      var tail := Split(s[i + 2..]);
      Parts([s[..i]] + tail.frames, tail.rest)
  }

  /** The inverse of Split: every frame ended by a blank line, then the rest. */
  function Unsplit(p: Parts): string
    decreases |p.frames|
  {
    if p.frames == [] then p.rest
    else p.frames[0] + BLANK_LINE + Unsplit(Parts(p.frames[1..], p.rest))
  }

  ghost predicate CleanParts(p: Parts) {
    NoBreak(p.rest) && forall f :: f in p.frames ==> CleanFrame(f)
  }

  lemma CleanFrameFound(f: string, t: string)
    requires CleanFrame(f)
    ensures FindBreak(f + BLANK_LINE + t) == |f|
  {
    var s := f + BLANK_LINE + t;
    assert BreakAt(s, |f|);
    forall j: nat | j < |f|
      ensures !BreakAt(s, j)
    {
      assert !BreakAt(f, j);
      assert j == |f| - 1 ==> s[j] == f[|f| - 1];
    }
  }

  /** A clean frame at the front is cut off first. */
  lemma SplitCons(f: string, t: string)
    requires CleanFrame(f)
    ensures Split(f + BLANK_LINE + t) == Parts([f] + Split(t).frames, Split(t).rest)
  {
    var s := f + BLANK_LINE + t;
    CleanFrameFound(f, t);
    assert s[..|f|] == f && s[|f| + 2..] == t;
  }

  /** A text with a blank line is a clean frame, the blank line, and the rest. */
  lemma FrontFrame(s: string) returns (f: string, t: string)
    requires FindBreak(s) >= 0
    ensures CleanFrame(f) && s == f + BLANK_LINE + t
  {
    var i := FindBreak(s);
    f, t := s[..i], s[i + 2..];
    forall j: nat ensures !BreakAt(f, j) { assert j < i ==> !BreakAt(s, j); }
    if f != [] { assert !BreakAt(s, i - 1); }
  }

  /** Split inverts Unsplit on clean parts, so Split's result is the only clean decomposition. */
  lemma {:induction false} SplitUnsplit(p: Parts)
    requires CleanParts(p)
    ensures Split(Unsplit(p)) == p
    decreases |p.frames|
  {
    if p.frames != [] {
      var f, q := p.frames[0], Parts(p.frames[1..], p.rest);
      assert [f] + q.frames == p.frames;
      SplitUnsplit(q);
      SplitCons(f, Unsplit(q));
    }
  }

  /** Unsplit inverts Split on every text, and what Split returns is clean. */
  lemma {:induction false} UnsplitSplit(s: string)
    ensures Unsplit(Split(s)) == s
    ensures CleanParts(Split(s))
    decreases |s|
  {
    if FindBreak(s) >= 0 {
      var f, t := FrontFrame(s);
      UnsplitSplit(t);
      SplitCons(f, t);
    }
  }

  lemma SplitNoBreak(s: string)
    requires FindBreak(s) < 0
    ensures Split(s) == Parts([], s)
  {
  }

  /** The parts of a longer text, from the parts of its beginning and the new parts. */
  function Continue(p: Parts, more: Parts): Parts {
    Parts(p.frames + more.frames, more.rest)
  }

  lemma ContinueCons(f: string, p: Parts, more: Parts)
    ensures Continue(Parts([f] + p.frames, p.rest), more) == Parts([f] + Continue(p, more).frames, more.rest)
  {
    ConcatAssoc([f], p.frames, more.frames);
  }

  lemma SplitAppendCons(f: string, t: string, b: string)
    requires CleanFrame(f)
    requires Split(t + b) == Continue(Split(t), Split(Split(t).rest + b))
    ensures Split(f + BLANK_LINE + t + b) == Continue(Split(f + BLANK_LINE + t), Split(Split(f + BLANK_LINE + t).rest + b))
  {
    ConcatAssoc(f + BLANK_LINE, t, b);
    SplitCons(f, t);
    SplitCons(f, t + b);
    ContinueCons(f, Split(t), Split(Split(t).rest + b));
  }

  /** The incremental step: splitting more text equals splitting the kept rest with the new text. */
  lemma {:induction false} SplitAppend(a: string, b: string)
    ensures Split(a + b) == Continue(Split(a), Split(Split(a).rest + b))
    decreases |a|
  {
    if FindBreak(a) < 0 {
      SplitNoBreak(a);
    } else {
      var f, t := FrontFrame(a);
      SplitAppend(t, b);
      SplitAppendCons(f, t, b);
    }
  }

  // ---------------------------------------------------------------------------
  // From a frame to an event
  // ---------------------------------------------------------------------------

  /** The payloads, after the source's `String(... ?? default)` coercions. */
  datatype Event =
    | Started(pid: string)
    | Stdout(data: string)
    | Stderr(data: string)
    | Exit(code: Option<int>)
    | Error(message: string)
    | Other(kind: string)

  /**
   What the text of a `data:` line comes to: `JSON.parse` throws (which is caught), or what follows throws a
   `TypeError` (`.type` of `null`, or `String(..)` of a value that cannot be converted), or it is an event.
   */
  datatype Parsed = Malformed | Throws | Value(event: Event)

  datatype Codec = Codec(stringify: Event -> string, parse: string -> Parsed)

  /** All that is assumed of JSON: no raw newline in its text, and parse inverts stringify. */
  ghost predicate Lawful(json: Codec) {
    forall e :: '\n' !in json.stringify(e) && json.parse(json.stringify(e)) == Value(e)
  }

  /** `sse(event)`: one `data:` line and a blank line. */
  function Sse(json: Codec, e: Event): string {
    "data: " + json.stringify(e) + BLANK_LINE
  }

  function SseAll(json: Codec, es: seq<Event>): string {
    if es == [] then "" else Sse(json, es[0]) + SseAll(json, es[1..])
  }

  function FindNewline(s: string): (i: nat)
    ensures i <= |s| && '\n' !in s[..i] && (i < |s| ==> s[i] == '\n')
  {
    if s == [] || s[0] == '\n' then 0
    else
      var i := FindNewline(s[1..]);
      assert s[..i + 1] == [s[0]] + s[1..][..i];
      i + 1
  }

  /** `frame.split('\n').find((l) => l.startsWith('data: '))` */
  function DataLine(frame: string): (line: Option<string>)
    ensures line.Some? ==> "data: " <= line.value && '\n' !in line.value
    decreases |frame|
  {
    var i := FindNewline(frame);
    if "data: " <= frame[..i] then Some(frame[..i])
    else if i == |frame| then None
    else DataLine(frame[i + 1..])
  }

  /** `frame.split('\n')` */
  function Lines(frame: string): seq<string>
    decreases |frame|
  {
    var i := FindNewline(frame);
    if i == |frame| then [frame] else [frame[..i]] + Lines(frame[i + 1..])
  }

  /** `find((l) => l.startsWith('data: '))` */
  function FirstData(lines: seq<string>): Option<string> {
    if lines == [] then None else if "data: " <= lines[0] then Some(lines[0]) else FirstData(lines[1..])
  }

  lemma FirstDataCons(l: string, lines: seq<string>)
    ensures FirstData([l] + lines) == if "data: " <= l then Some(l) else FirstData(lines)
  {
    assert ([l] + lines)[1..] == lines;
  }

  /** The reader's line is the first line of the frame that starts with `data: `, wherever it stands. */
  lemma {:induction false} DataLineIsFirst(frame: string)
    ensures DataLine(frame) == FirstData(Lines(frame))
    decreases |frame|
  {
    var i := FindNewline(frame);
    if i == |frame| {
      assert frame[..i] == frame;
      FirstDataCons(frame, []);
      assert [frame] + [] == [frame];
    } else {
      FirstDataCons(frame[..i], Lines(frame[i + 1..]));
      DataLineIsFirst(frame[i + 1..]);
    }
  }

  /** What one frame means to the reader: skipped, a `TypeError`, or an event. */
  datatype Signal = Skip | Crash | Got(event: Event)

  function Decode(json: Codec, frame: string): Signal {
    match DataLine(frame)
    case None => Skip
    case Some(line) =>
      match json.parse(line[6..])
      case Malformed => Skip
      case Throws => Crash
      case Value(e) => Got(e)
  }

  function DecodeAll(json: Codec, frames: seq<string>): seq<Signal> {
    if frames == [] then [] else [Decode(json, frames[0])] + DecodeAll(json, frames[1..])
  }

  lemma DecodeAllCons(json: Codec, f: string, frames: seq<string>)
    ensures DecodeAll(json, [f] + frames) == [Decode(json, f)] + DecodeAll(json, frames)
  {
    assert ([f] + frames)[1..] == frames;
  }

  lemma {:induction false} DecodeAllConcat(json: Codec, a: seq<string>, b: seq<string>)
    ensures DecodeAll(json, a + b) == DecodeAll(json, a) + DecodeAll(json, b)
  {
    if a == [] {
      assert a + b == b;
    } else {
      DecodeAllConcat(json, a[1..], b);
      assert a + b == [a[0]] + (a[1..] + b);
      DecodeAllCons(json, a[0], a[1..] + b);
      ConcatAssoc([Decode(json, a[0])], DecodeAll(json, a[1..]), DecodeAll(json, b));
    }
  }

  /** A one-line text in a `data:` line is a clean frame that decodes to what the text parses to. */
  lemma FrameText(json: Codec, text: string)
    requires '\n' !in text
    ensures var f := "data: " + text;
            && CleanFrame(f)
            && Decode(json, f) == (match json.parse(text) case Malformed => Skip case Throws => Crash case Value(e) => Got(e))
  {
    var f := "data: " + text;
    forall j: nat | j < |f| ensures f[j] != '\n' {
      assert j >= 6 ==> f[j] == text[j - 6];
    }
    assert FindNewline(f) == |f|;
    assert f[..|f|] == f && f[6..] == text;
  }

  lemma FrameOf(json: Codec, e: Event)
    requires Lawful(json)
    ensures var f := "data: " + json.stringify(e); CleanFrame(f) && Decode(json, f) == Got(e)
  {
    FrameText(json, json.stringify(e));
  }

  function Gots(es: seq<Event>): seq<Signal> {
    if es == [] then [] else [Got(es[0])] + Gots(es[1..])
  }

  /** The whole text of a list of framed events splits into exactly their frames, with nothing left over. */
  lemma {:induction false} SseSplits(json: Codec, es: seq<Event>)
    requires Lawful(json)
    ensures Split(SseAll(json, es)).rest == ""
    ensures DecodeAll(json, Split(SseAll(json, es)).frames) == Gots(es)
  {
    if es == [] {
      assert Split("") == Parts([], "");
    } else {
      SseSplits(json, es[1..]);
      FrameOf(json, es[0]);
      var f, t := "data: " + json.stringify(es[0]), SseAll(json, es[1..]);
      SplitCons(f, t);
      DecodeAllCons(json, f, Split(t).frames);
    }
  }

  // ---------------------------------------------------------------------------
  // The effect of events on the process handle
  // ---------------------------------------------------------------------------

  /** One call on an output stream: `push(data)`, `push(null)` or `destroy(err)`. */
  datatype Push = Data(text: string) | End | Destroy

  /** How the `exited` promise stands. */
  datatype Exited = Running | Resolved(code: Option<int>) | Rejected(reason: string)

  const CRASHED := "TypeError"

  datatype Process = Process(
    pid: string, pidReady: bool, exitCode: Option<int>,
    stdout: seq<Push>, stderr: seq<Push>, exited: Exited)

  const FRESH := Process("", false, None, [], [], Running)

  function Push2(p: Process, marks: seq<Push>): Process {
    p.(stdout := p.stdout + marks, stderr := p.stderr + marks)
  }

  /** One iteration of the frame loop. */
  function Dispatch(p: Process, s: Signal): Process {
    match s
    case Skip => p
    case Crash => Push2(p, [Destroy]).(exited := Rejected(CRASHED))
    case Got(e) =>
      match e
      case Started(pid) => p.(pid := pid, pidReady := true)
      case Stdout(d) => p.(stdout := p.stdout + [Data(d)])
      case Stderr(d) => p.(stderr := p.stderr + [Data(d)])
      case Exit(code) => Push2(p, [End]).(exitCode := code, exited := Resolved(code))
      case Error(m) => Push2(p, [End, Destroy]).(exited := Rejected(m))
      case Other(_) => p
  }

  /** The frame loop: it stops at the first frame that settles `exited`. */
  function DispatchAll(p: Process, ss: seq<Signal>): Process
    decreases |ss|
  {
    if ss == [] || p.exited != Running then p
    else DispatchAll(Dispatch(p, ss[0]), ss[1..])
  }

  lemma {:induction false} DispatchConcat(p: Process, a: seq<Signal>, b: seq<Signal>)
    ensures DispatchAll(p, a + b) == DispatchAll(DispatchAll(p, a), b)
    decreases |a|
  {
    if a == [] {
      assert a + b == b;
    } else if p.exited == Running {
      DispatchConcat(Dispatch(p, a[0]), a[1..], b);
      assert (a + b)[1..] == a[1..] + b;
    }
  }

  /** How the byte stream itself ends: `done`, or `reader.read()` rejects (an abort, a broken connection). */
  datatype Ending = Done | Broken(reason: string)

  function Finish(p: Process, end: Ending): Process {
    if p.exited != Running then p
    else match end
      case Done => Push2(p, [End]).(exited := Resolved(p.exitCode))
      case Broken(m) => Push2(p, [Destroy]).(exited := Rejected(m))
  }

  // The same, said without the loop ------------------------------------------

  predicate Terminal(s: Signal) {
    s == Crash || (s.Got? && (s.event.Exit? || s.event.Error?))
  }

  /** The index of the first terminal signal, or the length. */
  function FirstTerminal(ss: seq<Signal>): (k: nat)
    ensures k <= |ss| && (k < |ss| ==> Terminal(ss[k]))
    ensures forall j :: 0 <= j < k ==> !Terminal(ss[j])
  {
    if ss == [] || Terminal(ss[0]) then 0 else 1 + FirstTerminal(ss[1..])
  }

  function OutOf(s: Signal): seq<Push> {
    if s.Got? && s.event.Stdout? then [Data(s.event.data)] else []
  }

  function ErrOf(s: Signal): seq<Push> {
    if s.Got? && s.event.Stderr? then [Data(s.event.data)] else []
  }

  function OutData(ss: seq<Signal>): seq<Push> {
    if ss == [] then [] else OutOf(ss[0]) + OutData(ss[1..])
  }

  function ErrData(ss: seq<Signal>): seq<Push> {
    if ss == [] then [] else ErrOf(ss[0]) + ErrData(ss[1..])
  }

  /** The pid in force after some signals: the last one announced. */
  function LastPid(pid: string, ss: seq<Signal>): string
    decreases |ss|
  {
    if ss == [] then pid
    else LastPid(if ss[0].Got? && ss[0].event.Started? then ss[0].event.pid else pid, ss[1..])
  }

  /** What closes both output streams, given all signals and how the byte stream ended. */
  function Closing(ss: seq<Signal>, end: Ending): seq<Push> {
    var k := FirstTerminal(ss);
    if k == |ss| then (if end.Done? then [End] else [Destroy])
    else match ss[k] { case Got(Exit(_)) => [End] case Got(_) => [End, Destroy] case _ => [Destroy] }
  }

  function Verdict(ss: seq<Signal>, end: Ending): Exited {
    var k := FirstTerminal(ss);
    if k == |ss| then (match end { case Done => Resolved(None) case Broken(m) => Rejected(m) })
    else match ss[k] {
      case Got(Exit(code)) => Resolved(code)
      case Got(Error(m)) => Rejected(m)
      case _ => Rejected(CRASHED)
    }
  }

  /** Everything a finished reader must have done, said of the whole list of signals. */
  predicate AnyStarted(ss: seq<Signal>) {
    ss != [] && ((ss[0].Got? && ss[0].event.Started?) || AnyStarted(ss[1..]))
  }

  /** The exit code of the first terminal signal, if that is an exit. */
  function ExitCode(ss: seq<Signal>): Option<int> {
    var k := FirstTerminal(ss);
    if k < |ss| && ss[k].Got? && ss[k].event.Exit? then ss[k].event.code else None
  }

  ghost predicate Delivered(p: Process, ss: seq<Signal>, end: Ending) {
    var live := ss[..FirstTerminal(ss)];
    && p.stdout == OutData(live) + Closing(ss, end)
    && p.stderr == ErrData(live) + Closing(ss, end)
    && p.exited == Verdict(ss, end)
    && p.pid == LastPid("", live) && (p.pidReady <==> AnyStarted(live))
    && p.exitCode == ExitCode(ss)
  }

  /** A signal that is not terminal is live: the rest of the list decides the closing. */
  lemma LiveStep(ss: seq<Signal>, end: Ending)
    requires ss != [] && !Terminal(ss[0])
    ensures ss[..FirstTerminal(ss)] == [ss[0]] + ss[1..][..FirstTerminal(ss[1..])]
    ensures Closing(ss, end) == Closing(ss[1..], end) && Verdict(ss, end) == Verdict(ss[1..], end)
    ensures ExitCode(ss) == ExitCode(ss[1..])
  {
    var k := FirstTerminal(ss[1..]);
    assert FirstTerminal(ss) == 1 + k;
    TakeCons(ss, k);
  }

  lemma DispatchPushes(p: Process, s: Signal)
    requires !Terminal(s)
    ensures Dispatch(p, s).stdout == p.stdout + OutOf(s) && Dispatch(p, s).stderr == p.stderr + ErrOf(s)
  {
    assert p.stdout + [] == p.stdout && p.stderr + [] == p.stderr;
  }

  lemma DataStep(p: Process, s: Signal, live: seq<Signal>)
    requires !Terminal(s)
    ensures p.stdout + OutData([s] + live) == Dispatch(p, s).stdout + OutData(live)
    ensures p.stderr + ErrData([s] + live) == Dispatch(p, s).stderr + ErrData(live)
    ensures LastPid(p.pid, [s] + live) == LastPid(Dispatch(p, s).pid, live)
    ensures p.pidReady || AnyStarted([s] + live) <==> Dispatch(p, s).pidReady || AnyStarted(live)
  {
    assert ([s] + live)[1..] == live;
    DispatchPushes(p, s);
    ConcatAssoc(p.stdout, OutOf(s), OutData(live));
    ConcatAssoc(p.stderr, ErrOf(s), ErrData(live));
  }

  lemma {:induction false} DeliveredFrom(p: Process, ss: seq<Signal>, end: Ending)
    requires p.exited == Running && p.exitCode == None
    ensures var q := Finish(DispatchAll(p, ss), end);
            var live := ss[..FirstTerminal(ss)];
            && q.stdout == p.stdout + OutData(live) + Closing(ss, end)
            && q.stderr == p.stderr + ErrData(live) + Closing(ss, end)
            && q.exited == Verdict(ss, end)
            && q.pid == LastPid(p.pid, live) && (q.pidReady <==> p.pidReady || AnyStarted(live))
            && q.exitCode == ExitCode(ss)
    decreases |ss|
  {
    if ss == [] {
    } else if Terminal(ss[0]) {
      assert ss[..FirstTerminal(ss)] == [];
      assert DispatchAll(p, ss) == Dispatch(p, ss[0]);
    } else {
      DeliveredFrom(Dispatch(p, ss[0]), ss[1..], end);
      LiveStep(ss, end);
      DataStep(p, ss[0], ss[1..][..FirstTerminal(ss[1..])]);
    }
  }

  /** The frame loop followed by the end of the stream delivers exactly the live data and one closing. */
  lemma LoopDelivers(ss: seq<Signal>, end: Ending)
    ensures Delivered(Finish(DispatchAll(FRESH, ss), end), ss, end)
  {
    DeliveredFrom(FRESH, ss, end);
    var live := ss[..FirstTerminal(ss)];
    assert [] + OutData(live) == OutData(live) && [] + ErrData(live) == ErrData(live);
  }

  lemma {:induction false} OnlyData(ss: seq<Signal>)
    ensures forall x :: x in OutData(ss) || x in ErrData(ss) ==> x.Data?
  {
    if ss != [] { OnlyData(ss[1..]); }
  }

  /**
   On every signal list each output stream carries data first, then at most one end mark and at most
   one destroy, and at least one of the two: no data follows, and no stream is left open.
   */
  ghost predicate WellClosed(log: seq<Push>) {
    exists n: nat :: n < |log| && (forall j :: 0 <= j < n ==> log[j].Data?) && log[n..] in [[End], [Destroy], [End, Destroy]]
  }

  lemma WellClosedFrom(data: seq<Push>, closing: seq<Push>)
    requires (forall x :: x in data ==> x.Data?) && closing in [[End], [Destroy], [End, Destroy]]
    ensures WellClosed(data + closing)
  {
    var log := data + closing;
    assert log[|data|..] == closing && |data| < |log|;
    forall j | 0 <= j < |data| ensures log[j].Data? { assert log[j] == data[j]; }
  }

  lemma StreamsWellClosed(ss: seq<Signal>, end: Ending)
    ensures var p := Finish(DispatchAll(FRESH, ss), end); WellClosed(p.stdout) && WellClosed(p.stderr)
  {
    LoopDelivers(ss, end);
    var live := ss[..FirstTerminal(ss)];
    OnlyData(live);
    WellClosedFrom(OutData(live), Closing(ss, end));
    WellClosedFrom(ErrData(live), Closing(ss, end));
  }

  lemma EndInClosing(data: seq<Push>, closing: seq<Push>)
    requires forall x :: x in data ==> x.Data?
    ensures End in data + closing <==> End in closing
  {
    assert forall x :: x in data + closing <==> x in data || x in closing;
  }

  /** The streams get no end mark exactly when a crash comes first, or nothing terminal comes and the byte stream breaks. */
  lemma NoEndExactly(ss: seq<Signal>, end: Ending)
    ensures var p, k := Finish(DispatchAll(FRESH, ss), end), FirstTerminal(ss);
            && (End !in p.stdout <==> if k < |ss| then ss[k] == Crash else end.Broken?)
            && (End !in p.stderr <==> if k < |ss| then ss[k] == Crash else end.Broken?)
  {
    LoopDelivers(ss, end);
    var live := ss[..FirstTerminal(ss)];
    OnlyData(live);
    EndInClosing(OutData(live), Closing(ss, end));
    EndInClosing(ErrData(live), Closing(ss, end));
  }

  // ---------------------------------------------------------------------------
  // The reader itself
  // ---------------------------------------------------------------------------

  /** What all text has done, from what its beginning did and what the new text adds. */
  lemma MoreText(json: Codec, a: string, b: string)
    ensures var more := Split(Split(a).rest + b);
            && Split(a + b).rest == more.rest
            && DispatchAll(FRESH, DecodeAll(json, Split(a + b).frames))
               == DispatchAll(DispatchAll(FRESH, DecodeAll(json, Split(a).frames)), DecodeAll(json, more.frames))
  {
    SplitAppend(a, b);
    var more := Split(Split(a).rest + b).frames;
    DecodeAllConcat(json, Split(a).frames, more);
    DispatchConcat(FRESH, DecodeAll(json, Split(a).frames), DecodeAll(json, more));
  }

  /** One turn of the frame loop: the first frame is dispatched, the others are left for later. */
  lemma DrainStep(json: Codec, p: Process, buf: string)
    requires FindBreak(buf) >= 0 && p.exited == Running
    ensures var i := FindBreak(buf);
            var q, rest := Dispatch(p, Decode(json, buf[..i])), Split(buf[i + 2..]);
            && Split(buf).rest == rest.rest
            && DispatchAll(p, DecodeAll(json, Split(buf).frames)) == DispatchAll(q, DecodeAll(json, rest.frames))
            && (q.exited != Running ==> DispatchAll(q, DecodeAll(json, rest.frames)) == q)
  {
    var i := FindBreak(buf);
    var f, rest := buf[..i], Split(buf[i + 2..]);
    DecodeAllCons(json, f, rest.frames);
    var d, ds := Decode(json, f), DecodeAll(json, rest.frames);
    assert ([d] + ds)[1..] == ds;
  }

  class Reader {
    const json: Codec
    var buf: string
    var pid: string
    var pidReady: bool
    var exitCode: Option<int>
    var stdout: seq<Push>
    var stderr: seq<Push>
    var exited: Exited

    constructor (json: Codec)
      ensures this.json == json && buf == "" && View() == FRESH
    {
      this.json := json;
      buf, pid, pidReady, exitCode, stdout, stderr, exited := "", "", false, None, [], [], Running;
    }

    function View(): Process
      reads this
    {
      Process(pid, pidReady, exitCode, stdout, stderr, exited)
    }

    /** One `reader.read()` that returned text: append it and drain every complete frame. */
    method Feed(chunk: string)
      requires exited == Running
      modifies this
      ensures var parts := Split(old(buf) + chunk);
              && View() == DispatchAll(old(View()), DecodeAll(json, parts.frames))
              && (exited == Running ==> buf == parts.rest)
      ensures exited == Running ==> NoBreak(buf)
    {
      buf := buf + chunk;
      ghost var whole := Split(buf);
      ghost var start := View();
      var idx := FindBreak(buf);
      while idx >= 0 && exited == Running
        invariant exited == Running ==> idx == FindBreak(buf) && whole.rest == Split(buf).rest
        invariant exited == Running ==>
          DispatchAll(start, DecodeAll(json, whole.frames)) == DispatchAll(View(), DecodeAll(json, Split(buf).frames))
        invariant exited != Running ==> DispatchAll(start, DecodeAll(json, whole.frames)) == View()
        decreases exited == Running, |buf|
      {
        ghost var before := View();
        var frame := buf[..idx];
        ghost var rest := buf[idx + 2..];
        DrainStep(json, before, buf);
        buf := buf[idx + 2..];
        var line := DataLine(frame);
        if line.Some? {
          var evt := json.parse(line.value[6..]);
          if evt == Throws {
            Crashed();
          } else if evt.Value? {
            Handle(evt.event);
          }
        }
        assert View() == Dispatch(before, Decode(json, frame));
        idx := FindBreak(buf);
      }
      if exited == Running { SplitNoBreak(buf); }
    }

    /** A `TypeError` while the event is handled, which only the trailing `catch` sees. */
    method Crashed()
      modifies this
      ensures View() == Dispatch(old(View()), Crash) && buf == old(buf)
    {
      stdout, stderr := stdout + [Destroy], stderr + [Destroy];
      exited := Rejected(CRASHED);
    }

    /** The dispatch on `evt.type`, including what the trailing `catch` does for an `error` event. */
    method Handle(e: Event)
      modifies this
      ensures View() == Dispatch(old(View()), Got(e)) && buf == old(buf)
    {
      match e
      case Started(p) => pid, pidReady := p, true;
      case Stdout(d) => stdout := stdout + [Data(d)];
      case Stderr(d) => stderr := stderr + [Data(d)];
      case Exit(code) =>
        exitCode := code;
        stdout, stderr := stdout + [End], stderr + [End];
        exited := Resolved(code);
      case Error(m) =>
        stdout, stderr := stdout + [End], stderr + [End];
        stdout, stderr := stdout + [Destroy], stderr + [Destroy];
        exited := Rejected(m);
      case Other(_) =>
    }

    /**
     The whole asynchronous reader on a fresh handle: for every chunking, what the handle ends up with
     is what the one-shot split of the whole text prescribes.
     */
    method Run(chunks: seq<string>, end: Ending)
      requires buf == "" && View() == FRESH
      modifies this
      ensures var ss := DecodeAll(json, Split(Flatten(chunks)).frames);
              View() == Finish(DispatchAll(FRESH, ss), end) && Delivered(View(), ss, end)
    {
      assert Split("") == Parts([], "") && chunks[..0] == [];
      var i := 0;
      while i < |chunks| && exited == Running
        invariant i <= |chunks|
        invariant View() == DispatchAll(FRESH, DecodeAll(json, Split(Flatten(chunks[..i])).frames))
        invariant exited == Running ==> buf == Split(Flatten(chunks[..i])).rest
      {
        Feed(chunks[i]);
        NextChunk(json, chunks, i);
        i := i + 1;
      }
      RestIgnored(json, chunks, i, View());
      Ended(end);
      LoopDelivers(DecodeAll(json, Split(Flatten(chunks)).frames), end);
    }

    /** The end of the byte stream. */
    method Ended(end: Ending)
      modifies this
      ensures View() == Finish(old(View()), end)
    {
      if exited == Running {
        if end.Done? {
          stdout, stderr := stdout + [End], stderr + [End];
          exited := Resolved(exitCode);
        } else {
          stdout, stderr := stdout + [Destroy], stderr + [Destroy];
          exited := Rejected(end.reason);
        }
      }
    }
  }

  lemma NextChunk(json: Codec, chunks: seq<string>, i: nat)
    requires i < |chunks|
    ensures var a, b := Flatten(chunks[..i]), Flatten(chunks[..i + 1]);
            var more := Split(Split(a).rest + chunks[i]);
            && Split(b).rest == more.rest
            && DispatchAll(FRESH, DecodeAll(json, Split(b).frames))
               == DispatchAll(DispatchAll(FRESH, DecodeAll(json, Split(a).frames)), DecodeAll(json, more.frames))
  {
    assert chunks[..i + 1] == chunks[..i] + [chunks[i]];
    FlattenAppend(chunks[..i], chunks[i]);
    MoreText(json, Flatten(chunks[..i]), chunks[i]);
  }

  /** Once `exited` is settled, text that was never read could not have changed anything. */
  lemma RestIgnored(json: Codec, chunks: seq<string>, i: nat, p: Process)
    requires i <= |chunks|
    requires p == DispatchAll(FRESH, DecodeAll(json, Split(Flatten(chunks[..i])).frames))
    requires p.exited != Running || i == |chunks|
    ensures p == DispatchAll(FRESH, DecodeAll(json, Split(Flatten(chunks)).frames))
  {
    var a, b := Flatten(chunks[..i]), Flatten(chunks[i..]);
    FlattenConcat(chunks[..i], chunks[i..]);
    assert chunks[..i] + chunks[i..] == chunks;
    MoreText(json, a, b);
    if i == |chunks| {
      assert chunks[..i] == chunks;
    }
  }

  /** The state a reader reaches from any chunking, as a function. */
  function Outcome(json: Codec, chunks: seq<string>, end: Ending): Process {
    Finish(DispatchAll(FRESH, DecodeAll(json, Split(Flatten(chunks)).frames)), end)
  }

  /** Framing and reading are inverse: any chunking of any framed event list delivers exactly that list. */
  lemma RoundTrip(json: Codec, es: seq<Event>, chunks: seq<string>, end: Ending)
    requires Lawful(json)
    requires Flatten(chunks) == SseAll(json, es)
    ensures DecodeAll(json, Split(Flatten(chunks)).frames) == Gots(es)
    ensures Split(Flatten(chunks)).rest == ""
    ensures Delivered(Outcome(json, chunks, end), Gots(es), end)
  {
    SseSplits(json, es);
    LoopDelivers(Gots(es), end);
  }

  /** A `null` frame, in any chunking, destroys both streams without an end mark and rejects `exited`. */
  lemma NullFrame(json: Codec, chunks: seq<string>, end: Ending)
    requires json.parse("null") == Throws && Flatten(chunks) == "data: " + "null" + BLANK_LINE
    ensures var p := Outcome(json, chunks, end);
            p.stdout == [Destroy] && p.stderr == [Destroy] && p.exited == Rejected(CRASHED)
  {
    FrameText(json, "null");
    OneFrame(json, "data: " + "null");
    CrashOnly(end);
  }

  lemma OneFrame(json: Codec, f: string)
    requires CleanFrame(f)
    ensures DecodeAll(json, Split(f + BLANK_LINE).frames) == [Decode(json, f)]
  {
    assert f + BLANK_LINE + "" == f + BLANK_LINE;
    SplitCons(f, "");
    SplitNoBreak("");
    DecodeAllCons(json, f, []);
  }

  lemma CrashOnly(end: Ending)
    ensures var p := Finish(DispatchAll(FRESH, [Crash]), end);
            p.stdout == [Destroy] && p.stderr == [Destroy] && p.exited == Rejected(CRASHED)
  {
    assert [Crash][1..] == [];
    assert DispatchAll(FRESH, [Crash]) == DispatchAll(Dispatch(FRESH, Crash), []);
  }

  // ---------------------------------------------------------------------------
  // A codec that obeys the two laws
  // ---------------------------------------------------------------------------

  function Unary(n: nat): string {
    seq(n, _ => 'a') + "b"
  }

  function StringText(s: string): string {
    if s == "" then "c" else Unary(s[0] as int) + StringText(s[1..])
  }

  function EventText(e: Event): string {
    match e
    case Started(pid) => "s" + StringText(pid)
    case Stdout(d) => "o" + StringText(d)
    case Stderr(d) => "e" + StringText(d)
    case Exit(code) =>
      if code.None? then "n" else if code.value >= 0 then "p" + Unary(code.value) else "m" + Unary(-code.value)
    case Error(m) => "x" + StringText(m)
    case Other(k) => "k" + StringText(k)
  }

  function FirstStop(s: string): nat {
    if s == "" || s[0] == 'b' then 0 else 1 + FirstStop(s[1..])
  }

  lemma {:induction false} UnaryStops(n: nat, x: string)
    ensures FirstStop(Unary(n) + x) == n && (Unary(n) + x)[n + 1..] == x
  {
    if n > 0 {
      UnaryStops(n - 1, x);
      assert (Unary(n) + x)[1..] == Unary(n - 1) + x;
    }
  }

  lemma UnaryInjective(n: nat, m: nat, x: string, y: string)
    requires Unary(n) + x == Unary(m) + y
    ensures n == m && x == y
  {
    UnaryStops(n, x);
    UnaryStops(m, y);
  }

  lemma StringHead(s: string)
    ensures StringText(s) != "" && (StringText(s)[0] == 'c' <==> s == "")
  {
  }

  lemma {:induction false} StringInjective(s: string, t: string)
    requires StringText(s) == StringText(t)
    ensures s == t
  {
    StringHead(s);
    StringHead(t);
    if s != "" {
      UnaryInjective(s[0] as int, t[0] as int, StringText(s[1..]), StringText(t[1..]));
      StringInjective(s[1..], t[1..]);
    }
  }

  lemma {:induction false} NoNewline(s: string)
    ensures '\n' !in StringText(s)
  {
    if s != "" { NoNewline(s[1..]); }
  }

  lemma EventNoNewline(e: Event)
    ensures '\n' !in EventText(e)
  {
    match e
    case Exit(_) =>
    case Started(s) => NoNewline(s);
    case Stdout(s) => NoNewline(s);
    case Stderr(s) => NoNewline(s);
    case Error(s) => NoNewline(s);
    case Other(s) => NoNewline(s);
  }

  function TextOf(e: Event): string {
    match e
    case Exit(_) => ""
    case Started(s) => s
    case Stdout(s) => s
    case Stderr(s) => s
    case Error(s) => s
    case Other(s) => s
  }

  lemma SameKind(d: Event, e: Event)
    requires EventText(d) == EventText(e)
    ensures EventText(d)[0] == EventText(e)[0] && EventText(d)[1..] == EventText(e)[1..]
    ensures !d.Exit? ==> EventText(d)[1..] == StringText(TextOf(d))
    ensures !e.Exit? ==> EventText(e)[1..] == StringText(TextOf(e))
  {
  }

  lemma EventInjective(d: Event, e: Event)
    requires EventText(d) == EventText(e)
    ensures d == e
  {
    SameKind(d, e);
    if d.Exit? {
      if d.code.Some? {
        var n := if d.code.value >= 0 then d.code.value else -d.code.value;
        var m := if e.code.value >= 0 then e.code.value else -e.code.value;
        assert EventText(d)[1..] == Unary(n) + "" && EventText(e)[1..] == Unary(m) + "";
        UnaryInjective(n, m, "", "");
      }
    } else {
      StringInjective(TextOf(d), TextOf(e));
    }
  }

  ghost function ParseText(s: string): Parsed {
    if exists e :: EventText(e) == s then
      var e :| EventText(e) == s;
      Value(e)
    else Malformed
  }

  /** Characters in unary after a letter for the kind, and the inverse of that. */
  ghost function UnaryCodec(): Codec {
    Codec(e => EventText(e), s => ParseText(s))
  }

  /** The two laws can be met, so the round trip is not empty. */
  lemma LawfulExists()
    ensures Lawful(UnaryCodec())
  {
    forall e ensures '\n' !in EventText(e) && ParseText(EventText(e)) == Value(e) {
      EventNoNewline(e);
      var d := ParseText(EventText(e));
      assert EventText(d.event) == EventText(e);
      EventInjective(d.event, e);
    }
  }
}

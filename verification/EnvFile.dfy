/**
 The `.env` printer and parser of the evaluation scripts (scripts/rag_evaluation/run_ragas_eval.py,
 `write_env_file`, `shell_quote_env` and `load_env_file`), and exactly when the parser inverts the printer.
 */
module EnvFile {
  import opened Basics
  import opened Text

  type Env = map<string, string>

  // ---------------------------------------------------------------------------
  // The parser
  // ---------------------------------------------------------------------------

  /** `str.splitlines`; a CRLF counts as two breaks here, whose extra blank line the parser skips. */
  function Lines(text: string): seq<string>
    decreases |text|
  {
    var i := Find(text, PyLineBreak);
    if i == |text| then (if text == "" then [] else [text])
    else [text[..i]] + Lines(text[i + 1..])
  }

  predicate IsEquals(c: char) { c == '=' }

  predicate IsDouble(c: char) { c == '"' }

  predicate IsSingle(c: char) { c == '\'' }

  /** `value.strip().strip('"').strip("'")` */
  function Unquote(value: string): string {
    Strip(Strip(Strip(value, PySpace), IsDouble), IsSingle)
  }

  datatype Entry = Entry(key: string, value: string)

  /** What one line sets, if anything. */
  function ParseLine(line: string): Option<Entry> {
    var stripped := Strip(line, PySpace);
    var i := Find(stripped, IsEquals);
    if stripped == "" || stripped[0] == '#' || i == |stripped| then None
    else
      var key := Strip(stripped[..i], PySpace);
      if key == "" then None else Some(Entry(key, Unquote(stripped[i + 1..])))
  }

  function Parsed(lines: seq<string>): seq<Option<Entry>> {
    seq(|lines|, i requires 0 <= i < |lines| => ParseLine(lines[i]))
  }

  /** Later entries win. */
  function Collect(entries: seq<Option<Entry>>): Env {
    if entries == [] then map[]
    else
      var init, last := Collect(entries[..|entries| - 1]), entries[|entries| - 1];
      if last.None? then init else init[last.value.key := last.value.value]
  }

  function LoadLines(lines: seq<string>): Env {
    Collect(Parsed(lines))
  }

  /** `load_env_file` on the text of the file. */
  function Load(text: string): Env {
    LoadLines(Lines(text))
  }

  // ---------------------------------------------------------------------------
  // The printer
  // ---------------------------------------------------------------------------

  /** `value.replace("\\", "\\\\").replace('"', '\\"')` */
  function Escape(v: string): string {
    if v == "" then ""
    else (if v[0] == '\\' || v[0] == '"' then ['\\', v[0]] else [v[0]]) + Escape(v[1..])
  }

  function Quote(v: string): string {
    ['"'] + Escape(v) + ['"']
  }

  function Line(k: string, v: string): string {
    k + ['='] + Quote(v)
  }

  function Value(values: Env, k: string): string {
    if k in values then values[k] else ""
  }

  /** The keys of a list that have a non-empty value and are not in `skip`. */
  function Printed(keys: seq<string>, skip: seq<string>, values: Env): seq<string> {
    if keys == [] then []
    else
      var k := keys[|keys| - 1];
      Printed(keys[..|keys| - 1], skip, values) + (if k !in skip && Value(values, k) != "" then [k] else [])
  }

  /** The keys in the order they are written: the fixed list first, then the others in the order of `sorted(values)`. */
  function KeyOrder(ordered: seq<string>, all: seq<string>, values: Env): seq<string> {
    Printed(ordered, [], values) + Printed(all, ordered, values)
  }

  function KeyLines(keys: seq<string>, values: Env): seq<string> {
    seq(|keys|, i requires 0 <= i < |keys| => Line(keys[i], Value(values, keys[i])))
  }

  /** The text `write_env_file` writes. */
  function Write(ordered: seq<string>, all: seq<string>, values: Env): string {
    Join(KeyLines(KeyOrder(ordered, all, values), values)) + "\n"
  }

  // ---------------------------------------------------------------------------
  // Which maps survive
  // ---------------------------------------------------------------------------

  predicate OneLine(s: string) {
    forall c :: c in s ==> !PyLineBreak(c)
  }

  predicate CleanKey(k: string) {
    k != "" && Bare(k, PySpace) && '=' !in k && k[0] != '#' && OneLine(k)
  }

  predicate CleanValue(v: string) {
    '\\' !in v && '"' !in v && OneLine(v) && Bare(v, IsSingle)
  }

  predicate Clean(values: Env) {
    forall k :: k in values && values[k] != "" ==> CleanKey(k) && CleanValue(values[k])
  }

  function NonEmpty(values: Env): Env {
    map k | k in values && values[k] != "" :: values[k]
  }

  // ---------------------------------------------------------------------------
  // Printed text comes back line by line
  // ---------------------------------------------------------------------------

  /** Enough for the lines to stay apart and for the keys to be recognised. */
  predicate Tidy(values: Env) {
    forall k :: k in values && values[k] != "" ==> CleanKey(k) && OneLine(values[k])
  }

  lemma FirstLine(l: string, tail: string)
    requires OneLine(l)
    ensures Lines(l + "\n" + tail) == [l] + Lines(tail)
  {
    var text := l + "\n" + tail;
    forall j | 0 <= j < |l| ensures !PyLineBreak(text[j]) { assert text[j] == l[j] && l[j] in l; }
    FindIs(text, PyLineBreak, |l|);
    assert text[..|l|] == l && text[|l| + 1..] == tail;
  }

  lemma {:induction false} LinesJoin(lines: seq<string>)
    requires lines != [] && forall l :: l in lines ==> OneLine(l)
    ensures Lines(Join(lines) + "\n") == lines
  {
    var l, rest := lines[0], lines[1..];
    assert l in lines && lines == [l] + rest;
    if rest == [] {
      FirstLine(l, "");
      assert Join(lines) + "\n" == l + "\n" + "";
    } else {
      FirstLine(l, Join(rest) + "\n");
      assert Join(lines) + "\n" == l + "\n" + (Join(rest) + "\n");
      LinesJoin(rest);
    }
  }

  lemma {:induction false} EscapeMembers(v: string, c: char)
    requires c in Escape(v)
    ensures c in v || c == '\\'
  {
    if v != "" && c in Escape(v[1..]) { EscapeMembers(v[1..], c); }
  }

  lemma LineOneLine(k: string, v: string)
    requires OneLine(k) && OneLine(v)
    ensures OneLine(Line(k, v))
  {
    forall c | c in Line(k, v) ensures !PyLineBreak(c) {
      if c in Escape(v) { EscapeMembers(v, c); }
    }
  }

  /** The value that comes back. */
  function Returned(v: string): string {
    Unquote(Quote(v))
  }

  lemma ParsePrinted(k: string, v: string)
    requires CleanKey(k)
    ensures ParseLine(Line(k, v)) == Some(Entry(k, Returned(v)))
  {
    var line := Line(k, v);
    assert line[0] == k[0] && line[|line| - 1] == '"';
    BareStrip(line, PySpace);
    FindIs(line, IsEquals, |k|);
    assert line[..|k|] == k && line[|k| + 1..] == Quote(v);
    BareStrip(k, PySpace);
  }

  /** What comes back for a list of keys. */
  function Back(keys: seq<string>, values: Env): Env {
    map k | k in keys :: Returned(Value(values, k))
  }

  /** The entries of a map for a list of keys. */
  function Pick(keys: seq<string>, m: Env): Env {
    map k | k in keys && k in m :: m[k]
  }

  /** Entries taken from a map collect to that map. */
  lemma {:induction false} CollectEntries(keys: seq<string>, entries: seq<Option<Entry>>, m: Env)
    requires |entries| == |keys|
    requires forall i :: 0 <= i < |keys| ==> keys[i] in m && entries[i] == Some(Entry(keys[i], m[keys[i]]))
    ensures Collect(entries) == Pick(keys, m)
  {
    if keys != [] {
      var n := |keys| - 1;
      CollectEntries(keys[..n], entries[..n], m);
      assert keys == keys[..n] + [keys[n]];
    }
  }

  lemma LoadKeyLines(keys: seq<string>, values: Env)
    requires forall k :: k in keys ==> CleanKey(k)
    ensures LoadLines(KeyLines(keys, values)) == Back(keys, values)
  {
    var entries := Parsed(KeyLines(keys, values));
    forall i | 0 <= i < |keys|
      ensures entries[i] == Some(Entry(keys[i], Back(keys, values)[keys[i]]))
    {
      ParsePrinted(keys[i], Value(values, keys[i]));
    }
    CollectEntries(keys, entries, Back(keys, values));
    assert Pick(keys, Back(keys, values)) == Back(keys, values);
  }

  lemma {:induction false} PrintedMembers(keys: seq<string>, skip: seq<string>, values: Env, k: string)
    ensures k in Printed(keys, skip, values) <==> k in keys && k !in skip && Value(values, k) != ""
  {
    if keys != [] {
      PrintedMembers(keys[..|keys| - 1], skip, values, k);
      InitLast(keys);
    }
  }

  lemma KeyOrderMembers(ordered: seq<string>, all: seq<string>, values: Env, k: string)
    requires forall x :: x in all <==> x in values
    ensures k in KeyOrder(ordered, all, values) <==> k in values && values[k] != ""
  {
    PrintedMembers(ordered, [], values, k);
    PrintedMembers(all, ordered, values, k);
  }

  /** Every key of the fixed list is written before every other key. */
  lemma FixedKeysFirst(ordered: seq<string>, all: seq<string>, values: Env, i: nat, j: nat)
    requires i < j < |KeyOrder(ordered, all, values)| && KeyOrder(ordered, all, values)[j] in ordered
    ensures KeyOrder(ordered, all, values)[i] in ordered
  {
    var first, others := Printed(ordered, [], values), Printed(all, ordered, values);
    if j >= |first| {
      assert others[j - |first|] in others;
      PrintedMembers(all, ordered, values, others[j - |first|]);
    } else {
      assert first[i] in first;
      PrintedMembers(ordered, [], values, first[i]);
    }
  }

  lemma LoadBlank()
    ensures Load("\n") == map[]
  {
    assert Lines("\n") == [""] + Lines("") == [""];
    assert ParseLine("") == None;
    var entries: seq<Option<Entry>> := [None];
    assert Parsed([""]) == entries && entries[..0] == [];
  }

  lemma KeyLinesOneLine(keys: seq<string>, values: Env)
    requires forall k :: k in keys ==> OneLine(k) && OneLine(Value(values, k))
    ensures forall l :: l in KeyLines(keys, values) ==> OneLine(l)
  {
    forall i | 0 <= i < |keys| ensures OneLine(KeyLines(keys, values)[i]) {
      LineOneLine(keys[i], Value(values, keys[i]));
    }
  }

  /** For tidy maps loading returns every non-empty entry, with its value quoted and unquoted. */
  lemma LoadWrite(ordered: seq<string>, all: seq<string>, values: Env)
    requires (forall x :: x in all <==> x in values) && Tidy(values)
    ensures Load(Write(ordered, all, values)) == map k | k in values && values[k] != "" :: Returned(values[k])
  {
    var keys := KeyOrder(ordered, all, values);
    forall k ensures k in keys <==> k in values && values[k] != "" { KeyOrderMembers(ordered, all, values, k); }
    LoadWritten(keys, values);
  }

  lemma LoadWritten(keys: seq<string>, values: Env)
    requires forall k :: k in keys ==> CleanKey(k) && OneLine(Value(values, k))
    ensures Load(Join(KeyLines(keys, values)) + "\n") == Back(keys, values)
  {
    LoadKeyLines(keys, values);
    KeyLinesOneLine(keys, values);
    if keys == [] {
      LoadBlank();
      assert Join(KeyLines(keys, values)) + "\n" == "\n";
    } else {
      LinesJoin(KeyLines(keys, values));
    }
  }

  // ---------------------------------------------------------------------------
  // Quoting
  // ---------------------------------------------------------------------------

  lemma {:induction false} EscapeNothing(v: string)
    requires '\\' !in v && '"' !in v
    ensures Escape(v) == v
  {
    if v != "" { EscapeNothing(v[1..]); }
  }

  lemma {:induction false} EscapeCount(v: string)
    ensures Occurrences(Escape(v), '\\') == 2 * Occurrences(v, '\\') + Occurrences(v, '"')
  {
    if v != "" {
      EscapeCount(v[1..]);
      var head := if v[0] == '\\' || v[0] == '"' then ['\\', v[0]] else [v[0]];
      OccurrencesConcat(head, Escape(v[1..]), '\\');
      assert Occurrences(head, '\\') == if v[0] == '\\' then 2 else if v[0] == '"' then 1 else 0;
    }
  }

  lemma ReturnedCount(v: string)
    ensures Occurrences(Returned(v), '\\') == 2 * Occurrences(v, '\\') + Occurrences(v, '"')
  {
    var q := Quote(v);
    BareStrip(q, PySpace);
    StripOccurrences(q, IsDouble, '\\');
    StripOccurrences(Strip(q, IsDouble), IsSingle, '\\');
    OccurrencesConcat(['"'] + Escape(v), ['"'], '\\');
    OccurrencesConcat(['"'], Escape(v), '\\');
    EscapeCount(v);
  }

  /** A value comes back unchanged exactly when it has no backslash, no double quote and no single quote at an end. */
  lemma ReturnedSame(v: string)
    ensures Returned(v) == v <==> '\\' !in v && '"' !in v && Bare(v, IsSingle)
  {
    NoOccurrence(v, '\\');
    NoOccurrence(v, '"');
    ReturnedCount(v);
    if '\\' !in v && '"' !in v {
      EscapeNothing(v);
      BareStrip(Quote(v), PySpace);
      assert Bare(v, IsDouble);
      StripQuoted(v, '"', IsDouble);
      assert Returned(v) == Strip(v, IsSingle);
      StripBare(v, IsSingle);
      if Bare(v, IsSingle) { BareStrip(v, IsSingle); }
    }
  }

  // ---------------------------------------------------------------------------
  // What a parser can return at all
  // ---------------------------------------------------------------------------

  lemma {:induction false} LinesOneLine(text: string)
    ensures forall l :: l in Lines(text) ==> OneLine(l)
    decreases |text|
  {
    var i := Find(text, PyLineBreak);
    if i < |text| { LinesOneLine(text[i + 1..]); }
  }

  predicate CleanEntry(k: string, v: string) {
    CleanKey(k) && OneLine(v) && Bare(v, IsSingle)
  }

  lemma StripOneLine(s: string, p: char -> bool)
    requires OneLine(s)
    ensures OneLine(Strip(s, p))
  {
    forall c | c in Strip(s, p) ensures !PyLineBreak(c) { StripMembers(s, p, c); }
  }

  lemma UnquoteClean(right: string)
    requires OneLine(right)
    ensures OneLine(Unquote(right)) && Bare(Unquote(right), IsSingle)
  {
    var v := Strip(right, PySpace);
    StripOneLine(right, PySpace);
    StripOneLine(v, IsDouble);
    StripOneLine(Strip(v, IsDouble), IsSingle);
    StripBare(Strip(v, IsDouble), IsSingle);
  }

  lemma ParseClean(line: string)
    requires OneLine(line) && ParseLine(line).Some?
    ensures CleanEntry(ParseLine(line).value.key, ParseLine(line).value.value)
  {
    var stripped := Strip(line, PySpace);
    StripOneLine(line, PySpace);
    StripBare(line, PySpace);
    var i := Find(stripped, IsEquals);
    var left, right := stripped[..i], stripped[i + 1..];
    KeyClean(left);
    UnquoteClean(right);
  }

  lemma KeyClean(left: string)
    requires OneLine(left) && '=' !in left && Strip(left, PySpace) != "" && left != ""
    requires left[0] != '#' && !PySpace(left[0])
    ensures CleanKey(Strip(left, PySpace))
  {
    var key := Strip(left, PySpace);
    StripOneLine(left, PySpace);
    StripBare(left, PySpace);
    StripRightEnds(left, PySpace);
    assert StripLeft(left, PySpace) == left && key <= left;
    if '=' in key { StripMembers(left, PySpace, '='); }
  }

  lemma {:induction false} CollectClean(entries: seq<Option<Entry>>)
    requires forall e :: e in entries && e.Some? ==> CleanEntry(e.value.key, e.value.value)
    ensures forall k :: k in Collect(entries) ==> CleanEntry(k, Collect(entries)[k])
  {
    if entries != [] {
      var init, last := entries[..|entries| - 1], entries[|entries| - 1];
      assert last in entries && forall e :: e in init ==> e in entries;
      CollectClean(init);
    }
  }

  lemma LoadClean(lines: seq<string>)
    requires forall l :: l in lines ==> OneLine(l)
    ensures forall k :: k in LoadLines(lines) ==> CleanEntry(k, LoadLines(lines)[k])
  {
    forall i | 0 <= i < |lines| && ParseLine(lines[i]).Some?
      ensures CleanEntry(ParseLine(lines[i]).value.key, ParseLine(lines[i]).value.value)
    {
      ParseClean(lines[i]);
    }
    CollectClean(Parsed(lines));
  }

  // ---------------------------------------------------------------------------
  // Lines that people write
  // ---------------------------------------------------------------------------

  /** A value without quotes, backslashes aside, and without blanks at its ends is taken as it stands. */
  lemma ParsePlain(k: string, v: string)
    requires CleanKey(k) && v != "" && Bare(v, PySpace) && Bare(v, IsDouble) && Bare(v, IsSingle)
    ensures ParseLine(k + ['='] + v) == Some(Entry(k, v))
  {
    var line := k + ['='] + v;
    assert line[0] == k[0] && line[|line| - 1] == v[|v| - 1];
    BareStrip(line, PySpace);
    FindIs(line, IsEquals, |k|);
    assert line[..|k|] == k && line[|k| + 1..] == v;
    BareStrip(k, PySpace);
    BareStrip(v, PySpace);
    BareStrip(v, IsDouble);
    BareStrip(v, IsSingle);
  }

  /** Blanks around a line do not matter. */
  lemma ParseTrimmed(line: string)
    ensures ParseLine(line) == ParseLine(Strip(line, PySpace))
  {
    StripBare(line, PySpace);
    BareStrip(Strip(line, PySpace), PySpace);
  }

  predicate SetsNothing(s: string) {
    s == "" || s[0] == '#' || '=' !in s || Strip(s[..Find(s, IsEquals)], PySpace) == ""
  }

  /** A line sets nothing exactly when it is blank, a comment, without `=`, or without a key. */
  lemma IgnoredExactly(line: string)
    ensures ParseLine(line) == None <==> SetsNothing(Strip(line, PySpace))
  {
    var s := Strip(line, PySpace);
    if '=' in s {
      var i :| 0 <= i < |s| && s[i] == '=';
      assert IsEquals(s[i]);
    }
  }

  /** The last line that sets a key decides its value; keys that no line sets are absent. */
  lemma {:induction false} LastLineWins(lines: seq<string>, line: string)
    ensures LoadLines(lines + [line]) ==
      match ParseLine(line) case None => LoadLines(lines) case Some(e) => LoadLines(lines)[e.key := e.value]
  {
    var entries := Parsed(lines + [line]);
    assert entries[..|lines|] == Parsed(lines);
  }

  // ---------------------------------------------------------------------------
  // The theorem
  // ---------------------------------------------------------------------------

  lemma CleanReturns(ordered: seq<string>, all: seq<string>, values: Env)
    requires (forall x :: x in all <==> x in values) && Clean(values)
    ensures Load(Write(ordered, all, values)) == NonEmpty(values)
  {
    LoadWrite(ordered, all, values);
    forall k | k in values && values[k] != "" ensures Returned(values[k]) == values[k] { ReturnedSame(values[k]); }
  }

  lemma OnlyCleanReturns(ordered: seq<string>, all: seq<string>, values: Env)
    requires (forall x :: x in all <==> x in values) && Load(Write(ordered, all, values)) == NonEmpty(values)
    ensures Clean(values)
  {
    var text := Write(ordered, all, values);
    LinesOneLine(text);
    LoadClean(Lines(text));
    forall k | k in values && values[k] != "" ensures CleanKey(k) && OneLine(values[k]) && Bare(values[k], IsSingle) {
      assert k in NonEmpty(values);
      assert CleanEntry(k, Load(text)[k]);
    }
    LoadWrite(ordered, all, values);
    forall k | k in values && values[k] != "" ensures CleanValue(values[k]) {
      assert NonEmpty(values)[k] == values[k] == Returned(values[k]);
      ReturnedSame(values[k]);
    }
  }

  /**
   Loading what was written gives the map without its empty values exactly when every remaining key and
   value is clean, for every fixed key list and every order of the other keys.
   */
  lemma RoundTrip(ordered: seq<string>, all: seq<string>, values: Env)
    requires forall x :: x in all <==> x in values
    ensures Load(Write(ordered, all, values)) == NonEmpty(values) <==> Clean(values)
  {
    if Clean(values) { CleanReturns(ordered, all, values); }
    if Load(Write(ordered, all, values)) == NonEmpty(values) { OnlyCleanReturns(ordered, all, values); }
  }

  // ---------------------------------------------------------------------------
  // The loops
  // ---------------------------------------------------------------------------

  method LoadEnvFile(text: string) returns (values: Env)
    ensures values == Load(text)
  {
    values := map[];
    var lines := Lines(text);
    var i := 0;
    while i < |lines|
      invariant i <= |lines| && values == Collect(Parsed(lines)[..i])
    {
      assert Parsed(lines)[..i + 1][..i] == Parsed(lines)[..i];
      var parsed := ParseLine(lines[i]);
      if parsed.Some? {
        values := values[parsed.value.key := parsed.value.value];
      }
      i := i + 1;
    }
    assert Parsed(lines)[..i] == Parsed(lines);
  }

  method CollectKeys(keys: seq<string>, skip: seq<string>, values: Env) returns (out: seq<string>)
    ensures out == Printed(keys, skip, values)
  {
    out := [];
    var i := 0;
    while i < |keys|
      invariant i <= |keys| && out == Printed(keys[..i], skip, values)
    {
      assert keys[..i + 1][..i] == keys[..i];
      if keys[i] !in skip && Value(values, keys[i]) != "" {
        out := out + [keys[i]];
      }
      i := i + 1;
    }
    assert keys[..i] == keys;
  }

  method WriteEnvFile(ordered: seq<string>, all: seq<string>, values: Env) returns (text: string)
    ensures text == Write(ordered, all, values)
  {
    var first := CollectKeys(ordered, [], values);
    var others := CollectKeys(all, ordered, values);
    text := Join(KeyLines(first + others, values)) + "\n";
  }
}

/**
 Conversion between legacy documents and the normalized extraction output (api/internal/dto/extract_dto.go).
 */
module Extraction {
  import opened Basics
  import opened Text

  /** A Go `any` in a metadata map; `Opaque` stands for all types the code does not look into. */
  datatype Value = Int(n: int) | Int64(n: int) | Float64(x: real) | Float32(x: real) | Str(s: string) | Opaque(id: nat)

  type Metadata = map<string, Value>

  datatype Child = Child(pageContent: string, metadata: Metadata)

  datatype Document = Document(pageContent: string, vector: seq<real>, metadata: Metadata, provider: string, children: seq<Child>)

  datatype Element = Element(kind: string, page: int, content: string, ordinal: nat, metadata: Metadata)

  datatype Output = Output(elements: seq<Element>, markdown: string, source: string, metadata: Metadata)

  function Trim(s: string): string {
    Strip(s, GoSpace)
  }

  /** Go's conversion of a float to an integer. */
  function Truncate(x: real): int {
    if x >= 0.0 then x.Floor else -((-x).Floor)
  }

  function MetadataPage(m: Metadata): int {
    if "page" !in m then 0
    else match m["page"]
      case Int(n) => n
      case Int64(n) => n
      case Float64(x) => Truncate(x)
      case Float32(x) => Truncate(x)
      case _ => 0
  }

  // ---------------------------------------------------------------------------
  // Documents to output
  // ---------------------------------------------------------------------------

  function WithProvider(m: Metadata, provider: string): Metadata {
    if provider != "" then m["provider" := Str(provider)] else m
  }

  function ElementOf(kind: string, d: Document, ordinal: nat): Element {
    var m := WithProvider(d.metadata, d.provider);
    Element(kind, MetadataPage(m), Trim(d.pageContent), ordinal, m)
  }

  predicate Blank(d: Document) {
    Trim(d.pageContent) == ""
  }

  function Elements(kind: string, docs: seq<Document>): seq<Element> {
    if docs == [] then []
    else
      var i := |docs| - 1;
      if Blank(docs[i]) then Elements(kind, docs[..i]) else Elements(kind, docs[..i]) + [ElementOf(kind, docs[i], i)]
  }

  /** The string builder: a newline before every content but the first. */
  function Markdown(docs: seq<Document>): string {
    if docs == [] then ""
    else
      var i := |docs| - 1;
      var before, content := Markdown(docs[..i]), Trim(docs[i].pageContent);
      if content == "" then before else if before != "" then before + "\n" + content else content
  }

  /** `NewExtractOutputFromDocumentsWithType` */
  function FromDocuments(source: string, kind: string, docs: seq<Document>): Output {
    Output(Elements(kind, docs), Markdown(docs), source, map[])
  }

  // ---------------------------------------------------------------------------
  // Output to documents
  // ---------------------------------------------------------------------------

  function Default(m: Metadata, key: string, v: Value, wanted: bool): Metadata {
    if key !in m && wanted then m[key := v] else m
  }

  function DocumentOf(source: string, e: Element): Document {
    var m1 := Default(e.metadata, "page", Int(e.page), true);
    var m2 := Default(m1, "element_type", Str(e.kind), e.kind != "");
    var m3 := Default(m2, "source", Str(source), source != "");
    Document(Trim(e.content), [], m3, source, [])
  }

  function Documents(source: string, es: seq<Element>): seq<Document> {
    if es == [] then []
    else
      var init, e := Documents(source, es[..|es| - 1]), es[|es| - 1];
      if Trim(e.content) == "" then init else init + [DocumentOf(source, e)]
  }

  /** `ExtractOutputToDocuments` (a nil output is `None`) */
  function ToDocuments(output: Option<Output>): seq<Document> {
    if output.None? then []
    else
      var o := output.value;
      var docs := Documents(o.source, o.elements);
      if docs == [] && Trim(o.markdown) != "" then [Document(Trim(o.markdown), [], o.metadata, o.source, [])] else docs
  }

  // ---------------------------------------------------------------------------
  // The trip there and back
  // ---------------------------------------------------------------------------

  function Trip(source: string, kind: string, docs: seq<Document>): seq<Document> {
    ToDocuments(Some(FromDocuments(source, kind, docs)))
  }

  /** What the trip does to one document. */
  function Normalize(source: string, kind: string, d: Document): Document {
    DocumentOf(source, ElementOf(kind, d, 0))
  }

  function NormalizeAll(source: string, kind: string, docs: seq<Document>): seq<Document> {
    if docs == [] then []
    else
      var init, d := NormalizeAll(source, kind, docs[..|docs| - 1]), docs[|docs| - 1];
      if Blank(d) then init else init + [Normalize(source, kind, d)]
  }

  lemma TrimTwice(s: string)
    ensures Trim(Trim(s)) == Trim(s)
  {
    StripBare(s, GoSpace);
    BareStrip(Trim(s), GoSpace);
  }

  lemma DocumentOfOrdinal(source: string, kind: string, d: Document, i: nat)
    ensures DocumentOf(source, ElementOf(kind, d, i)) == Normalize(source, kind, d)
  {
  }

  lemma {:induction false} ElementsBack(source: string, kind: string, docs: seq<Document>)
    ensures Documents(source, Elements(kind, docs)) == NormalizeAll(source, kind, docs)
  {
    if docs != [] {
      var i := |docs| - 1;
      ElementsBack(source, kind, docs[..i]);
      if !Blank(docs[i]) {
        var es, e := Elements(kind, docs[..i]), ElementOf(kind, docs[i], i);
        TrimTwice(docs[i].pageContent);
        DocumentOfOrdinal(source, kind, docs[i], i);
        assert (es + [e])[..|es|] == es;
      }
    }
  }

  lemma {:induction false} NothingLeft(source: string, kind: string, docs: seq<Document>)
    ensures NormalizeAll(source, kind, docs) == [] ==> Markdown(docs) == ""
  {
    if docs != [] { NothingLeft(source, kind, docs[..|docs| - 1]); }
  }

  /** The trip keeps every non-blank document, in order, normalized on its own. */
  lemma TripNormalizes(source: string, kind: string, docs: seq<Document>)
    ensures Trip(source, kind, docs) == NormalizeAll(source, kind, docs)
  {
    ElementsBack(source, kind, docs);
    NothingLeft(source, kind, docs);
  }

  /** The non-blank trimmed contents, in order. */
  function Contents(docs: seq<Document>): seq<string> {
    if docs == [] then []
    else
      var init, d := Contents(docs[..|docs| - 1]), docs[|docs| - 1];
      if Blank(d) then init else init + [Trim(d.pageContent)]
  }

  lemma {:induction false} NormalizeContents(source: string, kind: string, docs: seq<Document>)
    ensures Contents(NormalizeAll(source, kind, docs)) == Contents(docs)
    ensures |NormalizeAll(source, kind, docs)| == |Contents(docs)|
  {
    if docs != [] {
      var init, d := docs[..|docs| - 1], docs[|docs| - 1];
      NormalizeContents(source, kind, init);
      if !Blank(d) {
        TrimTwice(d.pageContent);
        var n := NormalizeAll(source, kind, init);
        assert (n + [Normalize(source, kind, d)])[..|n|] == n;
      }
    }
  }

  /** Contents survive the trip in order, and nothing else comes back. */
  lemma TripKeepsContents(source: string, kind: string, docs: seq<Document>)
    ensures Contents(Trip(source, kind, docs)) == Contents(docs)
    ensures |Trip(source, kind, docs)| == |Contents(docs)|
  {
    TripNormalizes(source, kind, docs);
    NormalizeContents(source, kind, docs);
  }

  /** Element e was made from the document its ordinal points at. */
  predicate CameFrom(e: Element, kind: string, docs: seq<Document>) {
    && e.ordinal < |docs| && !Blank(docs[e.ordinal]) && e.content == Trim(docs[e.ordinal].pageContent)
    && e.kind == kind && e.page == MetadataPage(e.metadata)
    && e.metadata == (if docs[e.ordinal].provider == "" then docs[e.ordinal].metadata
                      else docs[e.ordinal].metadata["provider" := Str(docs[e.ordinal].provider)])
  }

  predicate Increasing(es: seq<Element>) {
    forall i, j :: 0 <= i < j < |es| ==> es[i].ordinal < es[j].ordinal
  }

  /** Ordinals strictly increase and point at the document an element came from. */
  lemma {:induction false} OrdinalsIncrease(kind: string, docs: seq<Document>)
    ensures Increasing(Elements(kind, docs))
    ensures forall e :: e in Elements(kind, docs) ==> CameFrom(e, kind, docs)
  {
    if docs != [] {
      var n := |docs| - 1;
      OrdinalsIncrease(kind, docs[..n]);
      var before, e := Elements(kind, docs[..n]), ElementOf(kind, docs[n], n);
      forall x | x in before ensures CameFrom(x, kind, docs) && x.ordinal < n {}
    }
  }

  // ---------------------------------------------------------------------------
  // Stability
  // ---------------------------------------------------------------------------

  /** The trip does not change the provider entry of this document again. */
  predicate Settled(source: string, d: Document) {
    || source == ""
    || (if d.provider != "" then d.provider == source
        else "provider" in d.metadata && d.metadata["provider"] == Str(source))
  }

  /** A second trip only sets the provider entry to the source. */
  lemma SecondTrip(source: string, kind: string, d: Document)
    ensures var n := Normalize(source, kind, d);
            Normalize(source, kind, n) == n.(metadata := WithProvider(n.metadata, source))
  {
    TrimTwice(d.pageContent);
    TrimTwice(Trim(d.pageContent));
  }

  lemma ProviderAfter(source: string, kind: string, d: Document)
    ensures WithProvider(Normalize(source, kind, d).metadata, source) == Normalize(source, kind, d).metadata <==> Settled(source, d)
  {
    var m := Normalize(source, kind, d).metadata;
    var w := WithProvider(d.metadata, d.provider);
    assert "provider" in m <==> "provider" in w;
    assert "provider" in w ==> m["provider"] == w["provider"];
    if source != "" && WithProvider(m, source) == m { assert m["provider"] == Str(source); }
  }

  /** One document is stable after one trip exactly when its provider entry is settled. */
  lemma StableOne(source: string, kind: string, d: Document)
    ensures Normalize(source, kind, Normalize(source, kind, d)) == Normalize(source, kind, d) <==> Settled(source, d)
  {
    SecondTrip(source, kind, d);
    ProviderAfter(source, kind, d);
  }

  lemma NormalizedNotBlank(source: string, kind: string, d: Document)
    ensures Blank(Normalize(source, kind, d)) == Blank(d)
  {
    TrimTwice(d.pageContent);
    TrimTwice(Trim(d.pageContent));
  }

  lemma NormalizeAllSnoc(source: string, kind: string, docs: seq<Document>, d: Document)
    requires !Blank(d)
    ensures NormalizeAll(source, kind, docs + [d]) == NormalizeAll(source, kind, docs) + [Normalize(source, kind, d)]
  {
    assert (docs + [d])[..|docs|] == docs;
  }

  predicate AllSettled(source: string, docs: seq<Document>) {
    forall d :: d in docs && !Blank(d) ==> Settled(source, d)
  }

  lemma AllSettledSnoc(source: string, docs: seq<Document>, d: Document)
    ensures AllSettled(source, docs + [d]) <==> AllSettled(source, docs) && (Blank(d) || Settled(source, d))
  {
    assert forall x :: x in docs + [d] <==> x in docs || x == d;
  }

  lemma NormalizeAllBlank(source: string, kind: string, docs: seq<Document>, d: Document)
    requires Blank(d)
    ensures NormalizeAll(source, kind, docs + [d]) == NormalizeAll(source, kind, docs)
  {
    assert (docs + [d])[..|docs|] == docs;
  }

  /** A second trip keeps the number of documents, and changes none exactly when all are settled. */
  predicate StableExactly(source: string, kind: string, docs: seq<Document>) {
    var n := NormalizeAll(source, kind, docs);
    && |NormalizeAll(source, kind, n)| == |n|
    && (NormalizeAll(source, kind, n) == n <==> AllSettled(source, docs))
  }

  lemma StableStep(source: string, kind: string, docs: seq<Document>, d: Document)
    requires StableExactly(source, kind, docs)
    ensures StableExactly(source, kind, docs + [d])
  {
    StableOne(source, kind, d);
    AllSettledSnoc(source, docs, d);
    if Blank(d) {
      NormalizeAllBlank(source, kind, docs, d);
    } else {
      var n, x := NormalizeAll(source, kind, docs), Normalize(source, kind, d);
      NormalizedNotBlank(source, kind, d);
      NormalizeAllSnoc(source, kind, docs, d);
      NormalizeAllSnoc(source, kind, n, x);
      SnocEqual(NormalizeAll(source, kind, n), Normalize(source, kind, x), n, x);
    }
  }

  lemma {:induction false} StableAll(source: string, kind: string, docs: seq<Document>)
    ensures StableExactly(source, kind, docs)
  {
    if docs != [] {
      var init, d := docs[..|docs| - 1], docs[|docs| - 1];
      InitLast(docs);
      StableAll(source, kind, init);
      StableStep(source, kind, init, d);
    }
  }

  lemma SnocEqual(a: seq<Document>, x: Document, b: seq<Document>, y: Document)
    requires |a| == |b|
    ensures a + [x] == b + [y] <==> a == b && x == y
  {
    if a + [x] == b + [y] {
      assert a == (a + [x])[..|a|] == (b + [y])[..|b|] == b;
      assert x == (a + [x])[|a|] == (b + [y])[|b|] == y;
    }
  }

  /** One trip is enough exactly when every non-blank document's provider entry is settled. */
  lemma OneTripEnough(source: string, kind: string, docs: seq<Document>)
    ensures Trip(source, kind, Trip(source, kind, docs)) == Trip(source, kind, docs)
       <==> AllSettled(source, docs)
  {
    TripNormalizes(source, kind, docs);
    TripNormalizes(source, kind, Trip(source, kind, docs));
    StableAll(source, kind, docs);
  }

  /** A document from another provider: its second trip differs from its first. */
  lemma OneTripTooFew(source: string, kind: string, d: Document)
    requires !Blank(d) && source != "" && d.provider != "" && d.provider != source
    ensures Trip(source, kind, Trip(source, kind, [d])) != Trip(source, kind, [d])
  {
    assert d in [d] && !AllSettled(source, [d]);
    OneTripEnough(source, kind, [d]);
  }

  lemma ProviderChangesTwice()
    ensures var d := Document("x", [], map[], "up", []);
            Trip("parser", "text", Trip("parser", "text", [d])) != Trip("parser", "text", [d])
  {
    BareStrip("x", GoSpace);
    assert |"up"| != |"parser"|;
    OneTripTooFew("parser", "text", Document("x", [], map[], "up", []));
  }

  lemma {:induction false} NormalizedMember(source: string, kind: string, docs: seq<Document>, d: Document)
    requires d in NormalizeAll(source, kind, docs)
    ensures d.provider == source
  {
    if docs != [] && d in NormalizeAll(source, kind, docs[..|docs| - 1]) {
      NormalizedMember(source, kind, docs[..|docs| - 1], d);
    }
  }

  /** Two trips are always enough. */
  lemma TwoTripsEnough(source: string, kind: string, docs: seq<Document>)
    ensures var twice := Trip(source, kind, Trip(source, kind, docs)); Trip(source, kind, twice) == twice
  {
    var once := Trip(source, kind, docs);
    TripNormalizes(source, kind, docs);
    forall d | d in once ensures Settled(source, d) { NormalizedMember(source, kind, docs, d); }
    OneTripEnough(source, kind, once);
  }

  // ---------------------------------------------------------------------------
  // The text of an output
  // ---------------------------------------------------------------------------

  function ElementContents(es: seq<Element>): seq<string> {
    if es == [] then []
    else
      var init, c := ElementContents(es[..|es| - 1]), Trim(es[|es| - 1].content);
      if c == "" then init else init + [c]
  }

  /** `ExtractOutputText` */
  function OutputText(output: Option<Output>): string {
    if output.None? then ""
    else if Trim(output.value.markdown) != "" then Trim(output.value.markdown)
    else Join(ElementContents(output.value.elements))
  }

  lemma {:induction false} ContentsNotEmpty(docs: seq<Document>)
    ensures forall c :: c in Contents(docs) ==> c != "" && Bare(c, GoSpace)
  {
    if docs != [] {
      ContentsNotEmpty(docs[..|docs| - 1]);
      StripBare(docs[|docs| - 1].pageContent, GoSpace);
    }
  }

  /** Joined non-empty bare texts are bare, so trimming does nothing. */
  lemma {:induction false} JoinBare(parts: seq<string>)
    requires forall c :: c in parts ==> c != "" && Bare(c, GoSpace)
    ensures Bare(Join(parts), GoSpace) && (parts != [] ==> Join(parts) != "")
  {
    if |parts| == 1 {
      assert parts[0] in parts;
    } else if parts != [] {
      var init, last := parts[..|parts| - 1], parts[|parts| - 1];
      assert last in parts && forall c :: c in init ==> c in parts;
      JoinBare(init);
      InitLast(parts);
      JoinSnoc(init, last);
      assert Join(parts)[0] == Join(init)[0] && Join(parts)[|Join(parts)| - 1] == last[|last| - 1];
    }
  }

  lemma {:induction false} MarkdownJoins(docs: seq<Document>)
    ensures Markdown(docs) == Join(Contents(docs))
  {
    if docs != [] {
      var init, d := docs[..|docs| - 1], docs[|docs| - 1];
      MarkdownJoins(init);
      ContentsNotEmpty(init);
      JoinBare(Contents(init));
      if !Blank(d) {
        var cs := Contents(init);
        if cs == [] {
          assert cs + [Trim(d.pageContent)] == [Trim(d.pageContent)];
        } else {
          JoinSnoc(cs, Trim(d.pageContent));
        }
      }
    }
  }

  lemma {:induction false} ElementsContents(kind: string, docs: seq<Document>)
    ensures ElementContents(Elements(kind, docs)) == Contents(docs)
  {
    if docs != [] {
      var init, d := docs[..|docs| - 1], docs[|docs| - 1];
      ElementsContents(kind, init);
      if !Blank(d) {
        TrimTwice(d.pageContent);
        var es := Elements(kind, init);
        assert (es + [ElementOf(kind, d, |docs| - 1)])[..|es|] == es;
      }
    }
  }

  /** The markdown gives the same text as the elements, and it is the joined contents. */
  lemma TextFromEither(source: string, kind: string, docs: seq<Document>)
    ensures var o := FromDocuments(source, kind, docs);
            OutputText(Some(o)) == OutputText(Some(o.(markdown := ""))) == Join(Contents(docs))
  {
    MarkdownJoins(docs);
    ContentsNotEmpty(docs);
    JoinBare(Contents(docs));
    BareStrip(Join(Contents(docs)), GoSpace);
    ElementsContents(kind, docs);
    BareStrip("", GoSpace);
  }

  /** The trip does not change the text. */
  lemma TripKeepsText(source: string, kind: string, docs: seq<Document>)
    ensures OutputText(Some(FromDocuments(source, kind, Trip(source, kind, docs)))) == OutputText(Some(FromDocuments(source, kind, docs)))
  {
    TextFromEither(source, kind, docs);
    TextFromEither(source, kind, Trip(source, kind, docs));
    TripKeepsContents(source, kind, docs);
  }

  // ---------------------------------------------------------------------------
  // The loops
  // ---------------------------------------------------------------------------

  method NewExtractOutput(source: string, kind: string, docs: seq<Document>) returns (output: Output)
    ensures output == FromDocuments(source, kind, docs)
  {
    var elements: seq<Element> := [];
    var markdown := "";
    var i := 0;
    while i < |docs|
      invariant i <= |docs| && elements == Elements(kind, docs[..i]) && markdown == Markdown(docs[..i])
    {
      assert docs[..i + 1][..i] == docs[..i];
      var content := Trim(docs[i].pageContent);
      if content != "" {
        if |markdown| > 0 {
          markdown := markdown + "\n";
        }
        markdown := markdown + content;
        var metadata := docs[i].metadata;
        if docs[i].provider != "" {
          metadata := metadata["provider" := Str(docs[i].provider)];
        }
        elements := elements + [Element(kind, MetadataPage(metadata), content, i, metadata)];
      }
      i := i + 1;
    }
    assert docs[..i] == docs;
    output := Output(elements, markdown, source, map[]);
  }

  method OutputToDocuments(output: Option<Output>) returns (docs: seq<Document>)
    ensures docs == ToDocuments(output)
  {
    docs := [];
    if output.None? {
      return;
    }
    var o := output.value;
    var i := 0;
    while i < |o.elements|
      invariant i <= |o.elements| && docs == Documents(o.source, o.elements[..i])
    {
      assert o.elements[..i + 1][..i] == o.elements[..i];
      var e := o.elements[i];
      var content := Trim(e.content);
      if content != "" {
        var metadata := e.metadata;
        if "page" !in metadata {
          metadata := metadata["page" := Int(e.page)];
        }
        if "element_type" !in metadata && e.kind != "" {
          metadata := metadata["element_type" := Str(e.kind)];
        }
        if "source" !in metadata && o.source != "" {
          metadata := metadata["source" := Str(o.source)];
        }
        docs := docs + [Document(content, [], metadata, o.source, [])];
      }
      i := i + 1;
    }
    assert o.elements[..i] == o.elements;
    if |docs| == 0 && Trim(o.markdown) != "" {
      docs := [Document(Trim(o.markdown), [], o.metadata, o.source, [])];
    }
  }

  /** The loop of `ExtractOutputText` over the elements. */
  method ExtractOutputText(output: Option<Output>) returns (text: string)
    ensures text == OutputText(output)
  {
    if output.None? {
      return "";
    }
    text := Trim(output.value.markdown);
    if text != "" {
      return;
    }
    var es := output.value.elements;
    var contents: seq<string> := [];
    var i := 0;
    while i < |es|
      invariant i <= |es| && contents == ElementContents(es[..i])
    {
      assert es[..i + 1][..i] == es[..i];
      var content := Trim(es[i].content);
      if content != "" {
        contents := contents + [content];
      }
      i := i + 1;
    }
    assert es[..i] == es;
    text := Join(contents);
  }

  // ---------------------------------------------------------------------------
  // What the metadata and the fallback are
  // ---------------------------------------------------------------------------

  /** The page number of a metadata map: an integer as it is, a float cut towards zero, anything else zero. */
  lemma PageIs(m: Metadata)
    ensures "page" !in m ==> MetadataPage(m) == 0
    ensures "page" in m && (m["page"].Int? || m["page"].Int64?) ==> MetadataPage(m) == m["page"].n
    ensures "page" in m && (m["page"].Float64? || m["page"].Float32?) ==> CutTowardsZero(m["page"].x, MetadataPage(m))
    ensures "page" in m && (m["page"].Str? || m["page"].Opaque?) ==> MetadataPage(m) == 0
  {
  }

  /** n is the integer next to x on the side of zero. */
  predicate CutTowardsZero(x: real, n: int) {
    if x >= 0.0 then n as real <= x < (n + 1) as real else (n - 1) as real < x <= n as real
  }

  /** A document's entry stays, or else gets this default, if any. */
  predicate Defaulted(before: Metadata, after: Metadata, key: string, default: Option<Value>) {
    if key in before then key in after && after[key] == before[key]
    else if default.Some? then key in after && after[key] == default.value
    else key !in after
  }

  /**
   The metadata of a document after a trip: page, element type and source keep their values or get their defaults,
   the provider entry becomes the document's provider if it has one, and every other entry stays.
   */
  lemma TripMetadata(source: string, kind: string, d: Document)
    ensures var m := Normalize(source, kind, d).metadata;
            && Defaulted(d.metadata, m, "page", Some(Int(0)))
            && Defaulted(d.metadata, m, "element_type", if kind != "" then Some(Str(kind)) else None)
            && Defaulted(d.metadata, m, "source", if source != "" then Some(Str(source)) else None)
            && (if d.provider != "" then "provider" in m && m["provider"] == Str(d.provider)
                else Defaulted(d.metadata, m, "provider", None))
            && forall k :: k !in ["page", "element_type", "source", "provider"] ==> Defaulted(d.metadata, m, k, None)
  {
    DistinctKeys();
  }

  /** The metadata of a document made from any element: page, type and source keep their values or are the element's. */
  lemma ElementMetadata(source: string, e: Element)
    ensures var d := DocumentOf(source, e);
            && d.pageContent == Trim(e.content) && d.provider == source && d.children == [] && d.vector == []
            && Defaulted(e.metadata, d.metadata, "page", Some(Int(e.page)))
            && Defaulted(e.metadata, d.metadata, "element_type", if e.kind != "" then Some(Str(e.kind)) else None)
            && Defaulted(e.metadata, d.metadata, "source", if source != "" then Some(Str(source)) else None)
            && forall k :: k !in ["page", "element_type", "source"] ==> Defaulted(e.metadata, d.metadata, k, None)
  {
    DistinctKeys();
  }

  lemma DistinctKeys()
    ensures "page" != "source" && "page" != "provider" && "page" != "element_type"
    ensures "source" != "provider" && "source" != "element_type" && "provider" != "element_type"
  {
    assert |"page"| == 4 && |"source"| == 6 && |"provider"| == 8 && |"element_type"| == 12;
  }

  lemma {:induction false} NoDocuments(source: string, es: seq<Element>)
    ensures Documents(source, es) == [] <==> forall e :: e in es ==> Trim(e.content) == ""
  {
    if es != [] {
      InitLast(es);
      NoDocuments(source, es[..|es| - 1]);
    }
  }

  /** The markdown becomes the one document exactly when no element has content and the markdown does. */
  lemma FallbackExactly(o: Output)
    ensures var docs := ToDocuments(Some(o));
            if (forall e :: e in o.elements ==> Trim(e.content) == "")
            then docs == if Trim(o.markdown) == "" then [] else [Document(Trim(o.markdown), [], o.metadata, o.source, [])]
            else docs == Documents(o.source, o.elements) && docs != []
  {
    NoDocuments(o.source, o.elements);
  }
}

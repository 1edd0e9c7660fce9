/** The text the reasoning engine produces around retrieved memories
    (reasoning/reasoning_engine.py): the template fallbacks used when no API key
    is configured, and the context and "Sources" renderings placed around the
    LLM's reply otherwise. */
module Reasoning {
  import opened Common
  import opened Text
  import opened Schema

  /** `[m for m in memories if m.type == kind]`. */
  function OfKind(ms: seq<MemoryItem>, kind: string): (r: seq<MemoryItem>)
    ensures |r| <= |ms|
    ensures forall m :: m in r <==> m in ms && m.kind == kind
    decreases |ms|
  {
    if ms == [] then [] else (if ms[0].kind == kind then [ms[0]] else []) + OfKind(ms[1..], kind)
  }

  /** Filtering by type keeps the input order. */
  lemma {:induction false} OfKindAppend(a: seq<MemoryItem>, b: seq<MemoryItem>, kind: string)
    ensures OfKind(a + b, kind) == OfKind(a, kind) + OfKind(b, kind)
    decreases |a|
  {
    if a == [] {
      assert a + b == b;
    } else {
      assert (a + b)[0] == a[0];
      assert (a + b)[1..] == a[1..] + b;
      OfKindAppend(a[1..], b, kind);
    }
  }

  /** The text and image counts never exceed the total; they add up to it exactly
      when every memory is of type "text" or "image". */
  lemma {:induction false} KindCounts(ms: seq<MemoryItem>)
    ensures |OfKind(ms, "text")| + |OfKind(ms, "image")| <= |ms|
    ensures |OfKind(ms, "text")| + |OfKind(ms, "image")| == |ms|
      <==> forall i :: 0 <= i < |ms| ==> ms[i].kind == "text" || ms[i].kind == "image"
    decreases |ms|
  {
    if ms != [] {
      KindCounts(ms[1..]);
      assert forall i :: 1 <= i < |ms| ==> ms[i] == ms[1..][i - 1];
    }
  }

  /** One rendered line per memory, in input order. */
  function Lines(ms: seq<MemoryItem>, line: MemoryItem -> string): (r: seq<string>)
    ensures |r| == |ms|
  {
    seq(|ms|, i requires 0 <= i < |ms| => line(ms[i]))
  }

  lemma LinesAppend(a: seq<MemoryItem>, b: seq<MemoryItem>, line: MemoryItem -> string)
    ensures Lines(a + b, line) == Lines(a, line) + Lines(b, line)
  {
  }

  lemma {:induction false} JoinAppend(sep: string, xs: seq<string>, ys: seq<string>)
    requires xs != [] && ys != []
    ensures Join(sep, xs + ys) == Join(sep, xs) + sep + Join(sep, ys)
    decreases |xs|
  {
    if |xs| == 1 {
      assert (xs + ys)[1..] == ys;
    } else {
      assert (xs + ys)[1..] == xs[1..] + ys;
      JoinAppend(sep, xs[1..], ys);
    }
  }

  /** Rendering one more memory appends its line. */
  lemma ConcatLinesStep(ms: seq<MemoryItem>, i: nat, line: MemoryItem -> string)
    requires i < |ms|
    ensures Concat(Lines(ms[..i + 1], line)) == Concat(Lines(ms[..i], line)) + line(ms[i])
  {
    assert Lines(ms[..i + 1], line) == Lines(ms[..i], line) + [line(ms[i])];
    ConcatAppend(Lines(ms[..i], line), line(ms[i]));
  }

  /** Regrouping and the empty suffix, proved apart so that `BasicReasoning`
      can use them on its named pieces without the verifier re-deriving sequence
      equality inside the method's own, much larger context. */
  lemma AppendAssoc(a: string, b: string, c: string)
    ensures a + b + c == a + (b + c)
  {
  }

  lemma AppendEmpty(a: string)
    ensures a + "" == a
  {
  }

  // ---- _basic_reasoning ----

  /** "- Image from <department> (<date>): <image_url>". */
  function ImageLine(m: MemoryItem): string {
    "- Image from " + m.department + " (" + m.date + "): " + Render(m.imageUrl) + "\n"
  }

  /** "  Description: <text>" when the memory's text is non-empty. */
  function DescriptionLine(m: MemoryItem): string {
    if Given(m.text) then "  Description: " + m.text.value + "\n" else ""
  }

  /** The entry for one image memory. */
  function ImageEntry(m: MemoryItem): string {
    ImageLine(m) + DescriptionLine(m)
  }

  const VisualOpening: string := "Visual evidence found:\n"
  const VisualClosing: string := "\nThis visual evidence should be considered alongside textual records.\n\n"
  const RecommendationLine: string :=
    "Recommendation: Consider historical patterns and visual evidence in decision making.\n\n"

  /** The "Visual evidence found" section: empty without image memories. */
  function VisualSection(ms: seq<MemoryItem>): string {
    var images := OfKind(ms, "image");
    if images == [] then "" else VisualOpening + Concat(Lines(images, ImageEntry)) + VisualClosing
  }

  /** "Analysis for query: '<query>'". */
  function AnalysisLine(query: string): string {
    "Analysis for query: '" + query + "'\n\n"
  }

  /** "Found N relevant memories (T text, I images).". */
  function FoundLine(ms: seq<MemoryItem>): string {
    "Found " + NatToString(|ms|) + " relevant memories (" + NatToString(|OfKind(ms, "text")|)
    + " text, " + NatToString(|OfKind(ms, "image")|) + " images).\n\n"
  }

  /** "- <department> (<date>) - <TYPE>". */
  function BasicSourceLine(m: MemoryItem): string {
    "- " + m.department + " (" + m.date + ") - " + Upper(m.kind)
  }

  /** The text `_basic_reasoning` builds. */
  function BasicReasoningText(query: string, ms: seq<MemoryItem>): string {
    AnalysisLine(query) + FoundLine(ms) + VisualSection(ms) + RecommendationLine
    + ("Sources:\n" + Join("\n", Lines(ms, BasicSourceLine)))
  }

  /** `_basic_reasoning`: appends the header, one entry per image memory, the
      recommendation, and the sources. */
  method BasicReasoning(query: string, memories: seq<MemoryItem>) returns (reasoning: string)
    ensures reasoning == BasicReasoningText(query, memories)
  {
    var textMemories := OfKind(memories, "text");
    var imageMemories := OfKind(memories, "image");

    reasoning := "Analysis for query: '" + query + "'\n\n";
    reasoning := reasoning + ("Found " + NatToString(|memories|) + " relevant memories (" + NatToString(|textMemories|)
      + " text, " + NatToString(|imageMemories|) + " images).\n\n");
    ghost var header := reasoning;
    assert header == AnalysisLine(query) + FoundLine(memories);

    if imageMemories != [] {
      reasoning := reasoning + "Visual evidence found:\n";
      ghost var start := reasoning;
      for i := 0 to |imageMemories|
        invariant reasoning == start + Concat(Lines(imageMemories[..i], ImageEntry))
      {
        var img := imageMemories[i];
        ghost var before := reasoning;
        ConcatLinesStep(imageMemories, i, ImageEntry);
        reasoning := reasoning + ("- Image from " + img.department + " (" + img.date + "): " + Render(img.imageUrl) + "\n");
        if Given(img.text) {
          reasoning := reasoning + ("  Description: " + img.text.value + "\n");
        } else {
          AppendEmpty(reasoning);
        }
        AppendAssoc(before, ImageLine(img), DescriptionLine(img));
        AppendAssoc(start, Concat(Lines(imageMemories[..i], ImageEntry)), ImageEntry(img));
      }
      assert imageMemories[..|imageMemories|] == imageMemories;
      reasoning := reasoning + "\nThis visual evidence should be considered alongside textual records.\n\n";
      AppendAssoc(header, VisualOpening, Concat(Lines(imageMemories, ImageEntry)));
      AppendAssoc(header, VisualOpening + Concat(Lines(imageMemories, ImageEntry)), VisualClosing);
      assert reasoning == header + VisualSection(memories);
    } else {
      AppendEmpty(header);
    }

    reasoning := reasoning + "Recommendation: Consider historical patterns and visual evidence in decision making.\n\n";

    var sources := "Sources:\n" + Join("\n", Lines(memories, BasicSourceLine));
    return reasoning + sources;
  }

  /** The visual-evidence section appears exactly when some memory has type "image". */
  lemma VisualSectionIffImage(ms: seq<MemoryItem>)
    ensures VisualSection(ms) != "" <==> exists i :: 0 <= i < |ms| && ms[i].kind == "image"
  {
    if OfKind(ms, "image") != [] {
      var m := OfKind(ms, "image")[0];
      assert m in ms;
      var i :| 0 <= i < |ms| && ms[i] == m;
      assert ms[i].kind == "image";
    }
    if exists i :: 0 <= i < |ms| && ms[i].kind == "image" {
      var i :| 0 <= i < |ms| && ms[i].kind == "image";
      assert ms[i] in OfKind(ms, "image");
    }
  }

  /** The sources footer lists the memories in input order: the footer of a
      concatenation is the two footers joined by a line break. */
  lemma SourcesInInputOrder(a: seq<MemoryItem>, b: seq<MemoryItem>, line: MemoryItem -> string)
    requires a != [] && b != []
    ensures Join("\n", Lines(a + b, line)) == Join("\n", Lines(a, line)) + "\n" + Join("\n", Lines(b, line))
  {
    LinesAppend(a, b, line);
    JoinAppend("\n", Lines(a, line), Lines(b, line));
  }

  // ---- _basic_summary ----

  /** "Summary for '<query>': Found N memories ". */
  function SummaryOpening(query: string, n: nat): string {
    "Summary for '" + query + "': Found " + NatToString(n) + " memories "
  }

  /** "(T text documents" when there are text memories. */
  function TextCountPart(textCount: nat): string {
    if textCount > 0 then "(" + NatToString(textCount) + " text documents" else ""
  }

  /** ", I images" after a text count, "(I images" without one. */
  function ImageCountPart(textCount: nat, imageCount: nat): string {
    if imageCount > 0 then (if textCount > 0 then ", " else "(") + NatToString(imageCount) + " images" else ""
  }

  /** The first line of `_basic_summary`: the query and the counts. */
  function SummaryHeader(query: string, ms: seq<MemoryItem>): string {
    var t := |OfKind(ms, "text")|;
    SummaryOpening(query, |ms|) + TextCountPart(t) + ImageCountPart(t, |OfKind(ms, "image")|) + ").\n\n"
  }

  /** The four shapes of the count parenthetical: both counts, text only, images
      only, and, when neither type occurs, a lone ")" with no opening bracket. */
  lemma CountParenthetical(t: nat, i: nat)
    ensures var p := TextCountPart(t) + ImageCountPart(t, i) + ")";
      var ts := NatToString(t);
      var ims := NatToString(i);
      (t > 0 && i > 0 ==> p == "(" + ts + " text documents, " + ims + " images)")
      && (t > 0 && i == 0 ==> p == "(" + ts + " text documents)")
      && (t == 0 && i > 0 ==> p == "(" + ims + " images)")
      && (t == 0 && i == 0 ==> p == ")")
  {
    var ts := NatToString(t);
    var ims := NatToString(i);
    if t > 0 && i > 0 {
      var a := "(" + ts;
      assert TextCountPart(t) == a + " text documents";
      assert ImageCountPart(t, i) == ", " + ims + " images";
      assert " text documents" + ", " == " text documents, ";
      assert " images" + ")" == " images)";
      calc {
        TextCountPart(t) + ImageCountPart(t, i) + ")";
        a + " text documents" + (", " + ims + " images") + ")";
        a + (" text documents" + ", ") + ims + (" images" + ")");
      }
    } else if t > 0 {
      assert TextCountPart(t) + ImageCountPart(t, i) == "(" + ts + " text documents" + "";
      assert " text documents" + ")" == " text documents)";
    } else if i > 0 {
      assert TextCountPart(t) + ImageCountPart(t, i) == "" + ("(" + ims + " images");
      assert " images" + ")" == " images)";
    }
  }

  /** "Key departments involved: <d1>, <d2>, ...". */
  function DepartmentsLine(depts: seq<string>): string {
    "Key departments involved: " + Join(", ", depts) + "\n"
  }

  /** "Historical outcomes: <o1>, <o2>, ...". */
  function OutcomesLine(outcomes: seq<string>): string {
    "Historical outcomes: " + Join(", ", outcomes) + "\n"
  }

  function Departments(ms: seq<MemoryItem>): set<string> {
    set m | m in ms :: m.department
  }

  function Outcomes(ms: seq<MemoryItem>): set<string> {
    set m | m in ms :: m.outcome
  }

  /** `xs` lists each element of `s` exactly once, in some order. */
  ghost predicate Enumerates(xs: seq<string>, s: set<string>) {
    (forall x :: x in xs <==> x in s)
    && (forall i, j :: 0 <= i < j < |xs| ==> xs[i] != xs[j])
  }

  /** The text `_basic_summary` builds when `depts` and `outcomes` are the orders in
      which the two sets were iterated. */
  function SummaryText(query: string, ms: seq<MemoryItem>, depts: seq<string>, outcomes: seq<string>): string {
    if ms != [] then SummaryHeader(query, ms) + DepartmentsLine(depts) + OutcomesLine(outcomes)
    else SummaryHeader(query, ms)
  }

  /** Iterating a set: each element once, in an order the model leaves open. */
  method SetOrder(s: set<string>) returns (xs: seq<string>)
    ensures Enumerates(xs, s) && |xs| == |s|
  {
    xs := [];
    var rest := s;
    while rest != {}
      invariant rest <= s
      invariant forall x :: x in xs <==> x in s && x !in rest
      invariant forall i, j :: 0 <= i < j < |xs| ==> xs[i] != xs[j]
      invariant |xs| + |rest| == |s|
      decreases |rest|
    {
      var x :| x in rest;
      xs := xs + [x];
      rest := rest - {x};
    }
  }

  /** `_basic_summary`: the count line, then, for a non-empty list, the distinct
      departments and the distinct outcomes. */
  method BasicSummary(query: string, memories: seq<MemoryItem>) returns (summary: string)
    ensures exists depts, outcomes ::
      Enumerates(depts, Departments(memories)) && Enumerates(outcomes, Outcomes(memories))
      && summary == SummaryText(query, memories, depts, outcomes)
  {
    var textCount := |OfKind(memories, "text")|;
    var imageCount := |OfKind(memories, "image")|;

    summary := "Summary for '" + query + "': Found " + NatToString(|memories|) + " memories ";
    if textCount > 0 {
      summary := summary + ("(" + NatToString(textCount) + " text documents");
    }
    assert summary == SummaryOpening(query, |memories|) + TextCountPart(textCount);
    if imageCount > 0 {
      summary := summary + ((if textCount > 0 then ", " else "(") + NatToString(imageCount) + " images");
    }
    assert summary == SummaryOpening(query, |memories|) + TextCountPart(textCount) + ImageCountPart(textCount, imageCount);
    summary := summary + ").\n\n";

    var depts: seq<string> := [];
    var outcomes: seq<string> := [];
    if memories != [] {
      depts := SetOrder(Departments(memories));
      summary := summary + ("Key departments involved: " + Join(", ", depts) + "\n");
      outcomes := SetOrder(Outcomes(memories));
      summary := summary + ("Historical outcomes: " + Join(", ", outcomes) + "\n");
    } else {
      assert Departments(memories) == {} && Outcomes(memories) == {};
    }
    assert Enumerates(depts, Departments(memories)) && Enumerates(outcomes, Outcomes(memories));
    SummaryWitness(query, memories, depts, outcomes, summary);
  }

  /** Supplies the two iteration orders as witnesses. */
  lemma SummaryWitness(query: string, ms: seq<MemoryItem>, depts: seq<string>, outcomes: seq<string>, s: string)
    requires Enumerates(depts, Departments(ms)) && Enumerates(outcomes, Outcomes(ms))
    requires s == SummaryText(query, ms, depts, outcomes)
    ensures exists depts, outcomes ::
      Enumerates(depts, Departments(ms)) && Enumerates(outcomes, Outcomes(ms))
      && s == SummaryText(query, ms, depts, outcomes)
  {
  }

  /** With no memories the summary does not fail: it reports 0 memories, has the
      unbalanced ")", and lists no departments or outcomes. */
  lemma EmptySummary(query: string, depts: seq<string>, outcomes: seq<string>)
    ensures SummaryText(query, [], depts, outcomes) == "Summary for '" + query + "': Found 0 memories ).\n\n"
  {
    assert NatToString(0) == "0";
    assert OfKind([], "text") == [] && OfKind([], "image") == [];
  }

  /** For a non-empty list, each distinct department and outcome is listed once. */
  lemma SummaryListsEachValueOnce(ms: seq<MemoryItem>, depts: seq<string>, outcomes: seq<string>)
    requires Enumerates(depts, Departments(ms)) && Enumerates(outcomes, Outcomes(ms))
    ensures forall m :: m in ms ==> m.department in depts && m.outcome in outcomes
    ensures forall d :: d in depts ==> exists m :: m in ms && m.department == d
    ensures |depts| == |Departments(ms)| && |outcomes| == |Outcomes(ms)|
  {
    DistinctCard(depts, Departments(ms));
    DistinctCard(outcomes, Outcomes(ms));
  }

  lemma {:induction false} DistinctCard(xs: seq<string>, s: set<string>)
    requires Enumerates(xs, s)
    ensures |xs| == |s|
    decreases |xs|
  {
    if xs != [] {
      var rest := xs[1..];
      assert Enumerates(rest, s - {xs[0]}) by {
        forall x ensures x in rest <==> x in s - {xs[0]} {
          if x in rest {
            var k :| 0 <= k < |rest| && rest[k] == x;
            assert xs[k + 1] == x;
          }
          if x in s - {xs[0]} {
            var k :| 0 <= k < |xs| && xs[k] == x;
            assert k != 0;
            assert rest[k - 1] == x;
          }
        }
      }
      DistinctCard(rest, s - {xs[0]});
    } else {
      assert forall x :: x !in s;
      assert s == {};
    }
  }

  // ---- the LLM path: context, reply and footer ----

  /** The content of a memory in a context line: its text, or "Image: <image_url>". */
  function ContentOf(m: MemoryItem): string {
    if Given(m.text) then m.text.value else "Image: " + Render(m.imageUrl)
  }

  /** One memory in the reasoning prompt. */
  function ReasoningContextLine(m: MemoryItem): string {
    "- ID: " + m.id + ", Department: " + m.department + ", Date: " + m.date + ", Outcome: " + m.outcome
    + ", Type: " + m.kind + "\n  Content: " + ContentOf(m)
  }

  /** One memory in the summary prompt. */
  function SummaryContextLine(m: MemoryItem): string {
    "- " + ContentOf(m) + " (Outcome: " + m.outcome + ", Type: " + m.kind + ")"
  }

  /** "- <department> (<date>) - Outcome: <outcome> - Type: <type>". */
  function ReasoningSourceLine(m: MemoryItem): string {
    "- " + m.department + " (" + m.date + ") - Outcome: " + m.outcome + " - Type: " + m.kind
  }

  /** "- <department> (<date>)". */
  function SummarySourceLine(m: MemoryItem): string {
    "- " + m.department + " (" + m.date + ")"
  }

  /** The footer appended after an LLM reply. */
  function Footer(ms: seq<MemoryItem>, line: MemoryItem -> string): string {
    "\n\nSources:\n" + Join("\n", Lines(ms, line))
  }

  /** The two LLM calls, as oracles from (query, rendered memories) to the
      stripped reply: one behind the reasoning prompt, one behind the summary
      prompt. The prompt templates around the two arguments are fixed text. */
  datatype Llm = Llm(reasoningReply: (string, string) -> string, summaryReply: (string, string) -> string)

  /** The summary text `summarize_memories` may return. */
  ghost predicate IsSummary(apiKey: Option<string>, query: string, ms: seq<MemoryItem>, llm: Llm, s: string) {
    if Given(apiKey) then s == llm.summaryReply(query, Join("\n", Lines(ms, SummaryContextLine))) + Footer(ms, SummarySourceLine)
    else exists depts, outcomes ::
      Enumerates(depts, Departments(ms)) && Enumerates(outcomes, Outcomes(ms))
      && s == SummaryText(query, ms, depts, outcomes)
  }

  class ReasoningEngine {
    /** The configured API key (`OPENAI_API_KEY`), if any. */
    const apiKey: Option<string>

    constructor (apiKey: Option<string>)
      ensures this.apiKey == apiKey
    {
      this.apiKey := apiKey;
    }

    /** `generate_reasoning`: the template fallback without a key; otherwise the
        LLM's reply followed by a footer with one line per memory. */
    method GenerateReasoning(query: string, memories: seq<MemoryItem>, llm: Llm) returns (r: string)
      ensures !Given(apiKey) ==> r == BasicReasoningText(query, memories)
      ensures Given(apiKey) ==>
        r == llm.reasoningReply(query, Join("\n", Lines(memories, ReasoningContextLine))) + Footer(memories, ReasoningSourceLine)
    {
      if !Given(apiKey) {
        r := BasicReasoning(query, memories);
        return;
      }
      var memoriesText := Join("\n", Lines(memories, ReasoningContextLine));
      var reasoningText := llm.reasoningReply(query, memoriesText);
      var sources := "\n\nSources:\n" + Join("\n", Lines(memories, ReasoningSourceLine));
      r := reasoningText + sources;
    }

    /** `summarize_memories`: the template fallback without a key; otherwise the
        LLM's reply followed by a footer with one line per memory. */
    method SummarizeMemories(query: string, memories: seq<MemoryItem>, llm: Llm) returns (r: string)
      ensures IsSummary(apiKey, query, memories, llm, r)
    {
      if !Given(apiKey) {
        r := BasicSummary(query, memories);
        return;
      }
      var memoriesText := Join("\n", Lines(memories, SummaryContextLine));
      var summaryText := llm.summaryReply(query, memoriesText);
      var sources := "\n\nSources:\n" + Join("\n", Lines(memories, SummarySourceLine));
      r := summaryText + sources;
    }
  }
}

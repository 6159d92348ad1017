/** The research agent's helpers: the numbered sources list built from a
    grounded model answer, the report markdown, filename sanitising, and the
    two storage fallbacks (report content instead of a URL, no podcast URL). */
module AgentUtils {
  import opened Wrappers
  import opened Values
  import opened Text

  // ---------------------------------------------------------------------------
  // Grounded answers

  /** The `web` part of a grounding chunk; either attribute may be missing. */
  datatype WebSource = WebSource(title: Option<string>, uri: Option<string>)

  datatype GroundingChunk = GroundingChunk(web: Option<WebSource>)

  /** Grounding metadata; `chunks` is None when the answer carries none. */
  datatype GroundingMetadata = GroundingMetadata(chunks: Option<seq<GroundingChunk>>)

  /** The first candidate of a model answer: the text of its first part and
      its grounding metadata, if any. */
  datatype Candidate = Candidate(text: string, grounding: Option<GroundingMetadata>)

  /** A missing or empty title reads "No title". */
  function TitleOf(w: WebSource): (t: string)
    ensures t != []
  {
    if w.title.Some? && w.title.value != [] then w.title.value else "No title"
  }

  /** A missing or empty URI reads "No URI". */
  function UriOf(w: WebSource): (u: string)
    ensures u != []
  {
    if w.uri.Some? && w.uri.value != [] then w.uri.value else "No URI"
  }

  /** The entry for the web source of the chunk numbered `i`. */
  function SourceEntry(i: nat, w: WebSource): (e: string)
    ensures e != []
  {
    NatToString(i) + ". " + TitleOf(w) + "\n   " + UriOf(w)
  }

  /** The entries of the chunks numbered from `i` on: chunks without a web
      source contribute nothing but still use up their number. */
  function SourceEntries(chunks: seq<GroundingChunk>, i: nat): (es: seq<string>)
    ensures |es| <= |chunks|
    decreases |chunks|
  {
    if chunks == [] then []
    else EntryOf(chunks[0], i) + SourceEntries(chunks[1..], i + 1)
  }

  /** The entry of one chunk numbered `i`: none without a web source. */
  function EntryOf(c: GroundingChunk, i: nat): seq<string> {
    if c.web.Some? then [SourceEntry(i, c.web.value)] else []
  }

  /** Every entry is non-empty. */
  lemma {:induction false} SourceEntriesNonEmpty(chunks: seq<GroundingChunk>, i: nat)
    ensures forall k :: 0 <= k < |SourceEntries(chunks, i)| ==> SourceEntries(chunks, i)[k] != []
    decreases |chunks|
  {
    if chunks != [] {
      SourceEntriesNonEmpty(chunks[1..], i + 1);
    }
  }

  predicate HasWeb(chunks: seq<GroundingChunk>) {
    exists k :: 0 <= k < |chunks| && chunks[k].web.Some?
  }

  /** The sources text of a candidate: empty without grounding metadata or
      chunks, else the entries joined by newlines. */
  function SourcesText(c: Candidate): string {
    if c.grounding.None? || c.grounding.value.chunks.None? || c.grounding.value.chunks.value == [] then ""
    else Join("\n", SourceEntries(c.grounding.value.chunks.value, 1))
  }

  /** `display_gemini_response` without its console output: the answer text and
      its sources text, which is empty exactly when no chunk has a web source. */
  function DisplayGeminiResponse(c: Candidate): (r: (string, string))
    ensures r.0 == c.text
    ensures r.1 == [] <==> c.grounding.None? || c.grounding.value.chunks.None?
                           || !HasWeb(c.grounding.value.chunks.value)
  {
    SourcesTextEmpty(c);
    (c.text, SourcesText(c))
  }

  lemma SourcesTextEmpty(c: Candidate)
    ensures SourcesText(c) == [] <==> c.grounding.None? || c.grounding.value.chunks.None?
                                      || !HasWeb(c.grounding.value.chunks.value)
  {
    if c.grounding.Some? && c.grounding.value.chunks.Some? {
      SourceEntriesEmpty(c.grounding.value.chunks.value, 1);
      SourceEntriesNonEmpty(c.grounding.value.chunks.value, 1);
      JoinNonEmpty("\n", SourceEntries(c.grounding.value.chunks.value, 1));
    }
  }

  lemma {:induction false} SourceEntriesEmpty(chunks: seq<GroundingChunk>, i: nat)
    ensures SourceEntries(chunks, i) == [] <==> !HasWeb(chunks)
    decreases |chunks|
  {
    if chunks != [] {
      SourceEntriesEmpty(chunks[1..], i + 1);
      if HasWeb(chunks[1..]) {
        var k :| 0 <= k < |chunks[1..]| && chunks[1..][k].web.Some?;
        assert chunks[k + 1].web.Some?;
      }
      if HasWeb(chunks) && chunks[0].web.None? {
        var k :| 0 <= k < |chunks| && chunks[k].web.Some?;
        assert chunks[1..][k - 1].web.Some?;
      }
    }
  }

  lemma {:induction false} JoinNonEmpty(sep: string, parts: seq<string>)
    requires forall k :: 0 <= k < |parts| ==> parts[k] != []
    ensures Join(sep, parts) == [] <==> parts == []
    decreases |parts|
  {
    if |parts| >= 2 {
      JoinNonEmpty(sep, parts[1..]);
    }
  }

  /** The loop that collects the entries, numbering chunks from 1. */
  method CollectSources(chunks: seq<GroundingChunk>) returns (text: string)
    ensures text == Join("\n", SourceEntries(chunks, 1))
  {
    var sources: seq<string> := [];
    var i := 0;
    while i < |chunks|
      invariant 0 <= i <= |chunks|
      invariant sources == SourceEntries(chunks[..i], 1)
    {
      SourceEntriesSnoc(chunks[..i], chunks[i], 1);
      assert chunks[..i + 1] == chunks[..i] + [chunks[i]];
      assert EntryOf(chunks[i], 1 + i) == if chunks[i].web.Some? then [SourceEntry(i + 1, chunks[i].web.value)] else [];
      if chunks[i].web.Some? {
        sources := sources + [SourceEntry(i + 1, chunks[i].web.value)];
      }
      i := i + 1;
    }
    assert chunks[..|chunks|] == chunks;
    text := Join("\n", sources);
  }

  lemma {:induction false} SourceEntriesSnoc(chunks: seq<GroundingChunk>, c: GroundingChunk, i: nat)
    ensures SourceEntries(chunks + [c], i) == SourceEntries(chunks, i) + EntryOf(c, i + |chunks|)
    decreases |chunks|
  {
    var x := chunks + [c];
    if chunks == [] {
      assert x[1..] == [];
    } else {
      assert x[0] == chunks[0];
      assert x[1..] == chunks[1..] + [c];
      SourceEntriesSnoc(chunks[1..], c, i + 1);
      var h := EntryOf(chunks[0], i);
      var t := SourceEntries(chunks[1..], i + 1);
      var e := EntryOf(c, i + |chunks|);
      assert SourceEntries(x, i) == h + (t + e);
      assert h + (t + e) == (h + t) + e;
    }
  }

  /** The number of chunks that have a web source. */
  function WebCount(chunks: seq<GroundingChunk>): nat
    decreases |chunks|
  {
    if chunks == [] then 0
    else (if chunks[0].web.Some? then 1 else 0) + WebCount(chunks[1..])
  }

  /** There is one entry per chunk with a web source. */
  lemma {:induction false} SourceEntriesCount(chunks: seq<GroundingChunk>, i: nat)
    ensures |SourceEntries(chunks, i)| == WebCount(chunks)
    decreases |chunks|
  {
    if chunks != [] {
      SourceEntriesCount(chunks[1..], i + 1);
    }
  }

  /** The chunk at position `p` with a web source is listed under number
      `i + p`, its position among all chunks. */
  lemma {:induction false} SourceEntryListed(chunks: seq<GroundingChunk>, i: nat, p: nat)
    requires p < |chunks| && chunks[p].web.Some?
    ensures SourceEntry(i + p, chunks[p].web.value) in SourceEntries(chunks, i)
    decreases |chunks|
  {
    if p > 0 {
      SourceEntryListed(chunks[1..], i + 1, p - 1);
      assert chunks[1..][p - 1] == chunks[p];
    }
  }

  // ---------------------------------------------------------------------------
  // Report markdown

  const ReportFooter: string :=
    "\n\n---\n*Report generated using multi-modal AI research combining web search and video analysis*\n"

  function ReportHeader(topic: Value): string {
    "# Research Report: " + PyStr(topic) + "\n\n## Executive Summary\n\n"
  }

  lemma ConcatenationParts(r: string, h: string, b: string, v: string, a: string, f: string)
    requires r == h + b + v + a + f
    ensures |h| + |b| + |v| + |a| + |f| == |r|
            && r[..|h|] == h
            && OccursAt(r, b, |h|)
            && OccursAt(r, v, |h| + |b|)
            && OccursAt(r, a, |h| + |b| + |v|)
            && r[|r| - |f|..] == f
  {
    assert r[|h|..|h| + |b|] == b;
    assert r[|h| + |b|..|h| + |b| + |v|] == v;
    assert r[|h| + |b| + |v|..|h| + |b| + |v| + |a|] == a;
  }

  function VideoSection(videoUrl: Value): string {
    "\n\n## Video Source\n- **URL**: " + PyStr(videoUrl)
  }

  function SourcesSection(sources: Value): string {
    "\n\n## Additional Sources\n" + PyStr(sources)
  }

  /** The report template; its placeholders render with `str()`, so a missing
      value reads "None". */
  function ReportMarkdown(topic: Value, synthesis: string, videoUrl: Value, sources: Value): string {
    ReportHeader(topic) + synthesis + VideoSection(videoUrl) + SourcesSection(sources) + ReportFooter
  }

  /** The header names the topic, and the synthesis, the video section and the
      sources section follow one another in that order before the fixed
      footer. */
  lemma ReportMarkdownLayout(topic: Value, synthesis: string, videoUrl: Value, sources: Value)
    ensures var r := ReportMarkdown(topic, synthesis, videoUrl, sources);
            var h := ReportHeader(topic);
            var v := VideoSection(videoUrl);
            |h| + |synthesis| + |v| + |SourcesSection(sources)| + |ReportFooter| == |r|
            && r[..|h|] == h
            && OccursAt(r, synthesis, |h|)
            && OccursAt(r, v, |h| + |synthesis|)
            && OccursAt(r, SourcesSection(sources), |h| + |synthesis| + |v|)
            && r[|r| - |ReportFooter|..] == ReportFooter
  {
    ConcatenationParts(ReportMarkdown(topic, synthesis, videoUrl, sources), ReportHeader(topic), synthesis,
                       VideoSection(videoUrl), SourcesSection(sources), ReportFooter);
  }

  // ---------------------------------------------------------------------------
  // File names

  /** ASCII `isalnum`. */
  predicate IsAlnum(c: char) {
    'a' <= c <= 'z' || 'A' <= c <= 'Z' || '0' <= c <= '9'
  }

  /** The characters the sanitiser keeps. */
  predicate IsNameChar(c: char) {
    IsAlnum(c) || c == ' ' || c == '-' || c == '_'
  }

  /** Keep alphanumerics, spaces, '-' and '_', strip trailing white space,
      then turn every space into '_'. */
  function SafeName(s: string): (r: string)
    ensures |r| <= |s|
    ensures forall i :: 0 <= i < |r| ==> IsAlnum(r[i]) || r[i] == '-' || r[i] == '_'
  {
    var kept := Filter(s, IsNameChar);
    var trimmed := RStrip(kept);
    assert forall i :: 0 <= i < |trimmed| ==> IsNameChar(trimmed[i]) by {
      assert forall i :: 0 <= i < |trimmed| ==> trimmed[i] == kept[i];
    }
    ReplaceChar(trimmed, ' ', '_')
  }

  /** Sanitising is idempotent. */
  lemma SafeNameIdempotent(s: string)
    ensures SafeName(SafeName(s)) == SafeName(s)
  {
    var r := SafeName(s);
    FilterAll(r, IsNameChar);
    RStripNoSpace(r);
  }

  lemma {:induction false} RStripNoSpace(s: string)
    requires forall i :: 0 <= i < |s| ==> !IsSpace(s[i])
    ensures RStrip(s) == s
  {
    if s != [] {
      assert !IsSpace(s[|s| - 1]);
    }
  }

  /** A name made of alphanumerics, '-' and '_' only is kept as it is. */
  lemma SafeNameKeeps(s: string)
    requires forall i :: 0 <= i < |s| ==> IsAlnum(s[i]) || s[i] == '-' || s[i] == '_'
    ensures SafeName(s) == s
  {
    FilterAll(s, IsNameChar);
    RStripNoSpace(s);
  }

  /** `str.isalnum` on ASCII text: non-empty and alphanumeric throughout. */
  predicate IsAlnumText(t: string) {
    t != [] && forall i :: 0 <= i < |t| ==> IsAlnum(t[i])
  }

  /** The sanitiser's generator over the items of an iterated value, joined:
      an item is kept when it is alphanumeric text or one of " ", "-", "_";
      the first item that is not a string has no `isalnum` and raises. */
  function JoinKept(items: seq<Value>): (r: Outcome<string>)
    ensures r.Ok? <==> forall k :: 0 <= k < |items| ==> items[k].Str?
    ensures r.Ok? ==> forall i :: 0 <= i < |r.value| ==> IsNameChar(r.value[i])
  {
    if items == [] then Ok("")
    else
      match items[0]
      case Str(c) =>
        var rest := JoinKept(items[1..]);
        if rest.Raise? then rest
        else
          var head := if IsAlnumText(c) || c == " " || c == "-" || c == "_" then c else "";
          assert forall i :: 0 <= i < |head| ==> IsNameChar(head[i]);
          assert forall i :: |head| <= i < |head + rest.value| ==> (head + rest.value)[i] == rest.value[i - |head|];
          Ok(head + rest.value)
      case _ => Raise("AttributeError: '" + TypeName(items[0]) + "' object has no attribute 'isalnum'")
  }

  /** The sanitiser applied to any value, as Python runs it: iterate the
      value, keep the name-safe items, strip trailing white space and turn
      spaces into '_'. Strings and lists of strings sanitise; a list holding
      anything else, and a value that cannot be iterated, raise. */
  function Sanitize(v: Value): (r: Outcome<string>)
    ensures r.Ok? <==> v.Str? || (v.List? && forall k :: 0 <= k < |v.items| ==> v.items[k].Str?)
    ensures r.Ok? ==> forall i :: 0 <= i < |r.value| ==> IsAlnum(r.value[i]) || r.value[i] == '-' || r.value[i] == '_'
  {
    match Iterate(v)
    case Raise(e) => Raise(e)
    case Ok(items) =>
      match JoinKept(items)
      case Raise(e) => Raise(e)
      case Ok(kept) =>
        var trimmed := RStrip(kept);
        assert forall i :: 0 <= i < |trimmed| ==> IsNameChar(trimmed[i]) by {
          assert forall i :: 0 <= i < |trimmed| ==> trimmed[i] == kept[i];
        }
        Ok(ReplaceChar(trimmed, ' ', '_'))
  }

  /** On a string, iterating character by character and keeping the name-safe
      ones is the filter `SafeName` starts from. */
  lemma {:induction false} JoinKeptChars(s: string)
    ensures JoinKept(seq(|s|, i requires 0 <= i < |s| => Str([s[i]]))) == Ok(Filter(s, IsNameChar))
    decreases |s|
  {
    var cs := seq(|s|, i requires 0 <= i < |s| => Str([s[i]]));
    if s != [] {
      assert cs[1..] == seq(|s[1..]|, i requires 0 <= i < |s[1..]| => Str([s[1..][i]]));
      JoinKeptChars(s[1..]);
      assert cs[0] == Str([s[0]]);
      var c := [s[0]];
      assert c[0] == s[0];
      assert IsAlnumText(c) <==> IsAlnum(s[0]);
    }
  }

  /** Sanitising a string value gives `SafeName` of the string. */
  lemma SanitizeString(s: string)
    ensures Sanitize(Str(s)) == Ok(SafeName(s))
  {
    JoinKeptChars(s);
  }

  /** A list of strings sanitises to its name-safe items joined, with trailing
      spaces dropped and spaces turned into '_'. */
  lemma SanitizeList(xs: seq<string>)
    ensures Sanitize(List(seq(|xs|, k requires 0 <= k < |xs| => Str(xs[k]))))
            == Ok(ReplaceChar(RStrip(KeptNames(xs)), ' ', '_'))
  {
    JoinKeptNames(xs);
  }

  /** The items of a list of strings that the sanitiser keeps, joined. */
  function KeptNames(xs: seq<string>): string {
    if xs == [] then ""
    else (if IsAlnumText(xs[0]) || xs[0] == " " || xs[0] == "-" || xs[0] == "_" then xs[0] else "")
         + KeptNames(xs[1..])
  }

  lemma {:induction false} JoinKeptNames(xs: seq<string>)
    ensures JoinKept(seq(|xs|, k requires 0 <= k < |xs| => Str(xs[k]))) == Ok(KeptNames(xs))
    decreases |xs|
  {
    var vs := seq(|xs|, k requires 0 <= k < |xs| => Str(xs[k]));
    if xs != [] {
      assert vs[1..] == seq(|xs[1..]|, k requires 0 <= k < |xs[1..]| => Str(xs[1..][k]));
      JoinKeptNames(xs[1..]);
      assert vs[0] == Str(xs[0]);
    }
  }

  /** Sanitising a number, a boolean or None raises Python's "not iterable"
      error. */
  lemma SanitizeNotIterable(v: Value)
    requires v.Null? || v.Bool? || v.Int? || v.Float?
    ensures Sanitize(v) == Raise("TypeError: '" + TypeName(v) + "' object is not iterable")
  {
  }

  /** The object path a report is uploaded to: under "reports/", named after
      the sanitised topic, with only safe characters between the fixed prefix
      and the ".md" suffix; sanitising a topic that cannot be sanitised raises. */
  function ReportObjectPath(topic: Value): (r: Outcome<string>)
    ensures r.Ok? <==> Sanitize(topic).Ok?
    ensures r.Ok? ==> var p := r.value;
              |p| == |Sanitize(topic).value| + 27
              && p[..24] == "reports/research_report_" && p[|p| - 3..] == ".md"
              && forall i :: 24 <= i < |p| - 3 ==> IsAlnum(p[i]) || p[i] == '-' || p[i] == '_'
  {
    match Sanitize(topic)
    case Raise(e) => Raise(e)
    case Ok(safe) =>
      var p := "reports/research_report_" + safe + ".md";
      assert forall i :: 24 <= i < |p| - 3 ==> p[i] == safe[i - 24];
      Ok(p)
  }

  // ---------------------------------------------------------------------------
  // Storage fallbacks

  /** Whether an optional environment variable is set to a non-empty value. */
  predicate IsSet(v: Option<string>) {
    v.Some? && v.value != []
  }

  /** `create_research_report` given the outcome of its synthesis call, the
      storage bucket setting and the upload call (bucket, object path, content
      to signed URL). Returns (URL or report content, synthesis text). */
  function CreateResearchReport(topic: Value, videoUrl: Value, sources: Value,
                                synthesis: Outcome<string>, bucket: Option<string>,
                                upload: (string, string, string) -> Outcome<string>)
    : (r: Outcome<(string, string)>)
    ensures r.Ok? <==> synthesis.Ok?
    ensures r.Ok? ==> r.value.1 == synthesis.value
    ensures r.Ok? ==>
      var content := ReportMarkdown(topic, synthesis.value, videoUrl, sources);
      if IsSet(bucket) && ReportObjectPath(topic).Ok?
         && upload(bucket.value, ReportObjectPath(topic).value, content).Ok?
      then r.value.0 == upload(bucket.value, ReportObjectPath(topic).value, content).value
      else r.value.0 == content
  {
    match synthesis
    case Raise(e) => Raise(e)
    case Ok(text) =>
      var content := ReportMarkdown(topic, text, videoUrl, sources);
      if !IsSet(bucket) then Ok((content, text))
      else
        // an exception raised while sanitising or uploading is caught
        match ReportObjectPath(topic)
        case Raise(_) => Ok((content, text))
        case Ok(path) =>
          match upload(bucket.value, path, content)
          case Raise(_) => Ok((content, text))
          case Ok(url) => Ok((url, text))
  }

  /** `create_podcast_discussion` given the outcomes of the script call and of
      the speech synthesis and local write, the bucket setting and the upload
      call (bucket, object path to signed URL). Returns (script, URL or None). */
  function CreatePodcastDiscussion(filename: string, script: Outcome<string>, audio: Outcome<()>,
                                   bucket: Option<string>, upload: (string, string) -> Outcome<string>)
    : (r: Outcome<(string, Option<string>)>)
    ensures r.Ok? <==> script.Ok? && audio.Ok?
    ensures r.Ok? ==> r.value.0 == script.value
    ensures r.Ok? ==> (r.value.1.Some? <==> IsSet(bucket) && upload(bucket.value, "podcasts/" + filename).Ok?)
    ensures r.Ok? && r.value.1.Some? ==> r.value.1.value == upload(bucket.value, "podcasts/" + filename).value
  {
    match script
    case Raise(e) => Raise(e)
    case Ok(text) =>
      match audio
      case Raise(e) => Raise(e)
      case Ok(_) =>
        if !IsSet(bucket) then Ok((text, None))
        else
          match upload(bucket.value, "podcasts/" + filename)
          case Raise(_) => Ok((text, None))
          case Ok(url) => Ok((text, Some(url)))
  }
}

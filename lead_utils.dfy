/** The lead agent's helpers: reading the leads out of a model response (a
    function-call argument, a fenced JSON block, or the whole text), and the
    prompt fragments built from the titles and the identified leads. */
module LeadUtils {
  import opened Wrappers
  import opened Values
  import opened Text

  // ---------------------------------------------------------------------------
  // Responses

  /** A function call the model made, with its arguments. */
  datatype FunctionCall = FunctionCall(args: map<string, Value>)

  /** One part of a response: its text when it has one, and a function call
      when it carries one. */
  datatype Part = Part(text: Option<string>, call: Option<FunctionCall>)

  /** A model response: the convenience `text` and the parts, either of which
      may be absent. */
  datatype Response = Response(text: Option<string>, parts: Option<seq<Part>>)

  /** What the JSON decoder does with a string: a value, a decoding error, or
      some other exception. */
  datatype DecodeResult = Decoded(value: Value) | DecodeError(message: string) | DecodeFailure(message: string)

  /** The leads value and the accompanying text. */
  type Parsed = (Value, string)

  const LeadsArgument: string := "leads_json"
  const JsonFence: string := "```json"
  const Fence: string := "```"
  /** The flag every error text starts with, and that the lead step looks for. */
  const ErrorFlag: string := "Error:"
  const CallParseError: string := ErrorFlag + " Could not parse JSON from function call. "
  const ResponseParseError: string := ErrorFlag + " Could not parse JSON from response. Raw text: "
  const UnexpectedParseError: string := ErrorFlag + " An unexpected error occurred during parsing. Raw text: "

  /** The parts, with an absent list read as none. */
  function PartsOf(r: Response): seq<Part> {
    if r.parts.Some? then r.parts.value else []
  }

  /** What one part adds to the raw text. */
  function PartText(p: Part): string {
    if p.text.Some? then p.text.value + "\n" else ""
  }

  /** The raw text of a run of parts: each text followed by a newline. */
  function RawText(parts: seq<Part>): string {
    if parts == [] then "" else PartText(parts[0]) + RawText(parts[1..])
  }

  /** A part whose function call carries the leads argument. */
  predicate IsLeadsCall(p: Part) {
    p.call.Some? && LeadsArgument in p.call.value.args
  }

  /** The result of a leads call, given the raw text accumulated so far: a
      list or object is taken as it is, a string is decoded, and anything else
      makes the decoder raise. */
  function CallResult(arg: Value, raw: string, decode: string -> DecodeResult): Outcome<Parsed> {
    if arg.List? || arg.Dict? then Ok((arg, Strip(raw)))
    else if arg.Str? then
      match decode(arg.s)
      case Decoded(v) => Ok((v, Strip(raw)))
      case DecodeError(_) => Ok((List([]), CallParseError + Strip(raw)))
      case DecodeFailure(m) => Raise(m)
    else Raise("TypeError: the JSON object must be str, bytes or bytearray, not " + TypeName(arg))
  }

  // ---------------------------------------------------------------------------
  // The fenced block

  /** The stripped text between the first `open` and the next `close` found
      from `skip` characters after it. */
  function Delimited(raw: string, open: string, close: string, skip: nat): Option<string> {
    var s := Find(raw, open, 0);
    if s == -1 then None
    else
      var e := Find(raw, close, s + skip);
      if e == -1 then None else Some(Strip(raw[s + skip..e]))
  }

  /** The stripped text between the first "```json" and the next "```" found
      from `skip` characters after it. */
  function FenceBodyAt(raw: string, skip: nat): Option<string> {
    Delimited(raw, JsonFence, Fence, skip)
  }

  /** The fenced block as the source extracts it: six characters past the
      start of the seven-character "```json". */
  function FenceBodyAsWritten(raw: string): Option<string> {
    FenceBodyAt(raw, 6)
  }

  /** The fenced block, skipping the whole "```json" tag. */
  function FenceBody(raw: string): Option<string> {
    FenceBodyAt(raw, |JsonFence|)
  }

  /** The text handed to the decoder: the fenced block when there is one,
      else the whole stripped text. */
  function JsonText(raw: string): string {
    match FenceBody(raw)
    case Some(b) => b
    case None => Strip(raw)
  }

  /** The fallback after the parts: decode the JSON text, turning a decoding
      error or any other exception into an empty list and an error text. */
  function FromText(raw: string, decode: string -> DecodeResult): Parsed {
    match decode(JsonText(raw))
    case Decoded(v) => (v, Strip(raw))
    case DecodeError(_) => (List([]), ResponseParseError + Strip(raw))
    case DecodeFailure(_) => (List([]), UnexpectedParseError + Strip(raw))
  }

  /** The scan over the parts, with `raw` the text accumulated before them:
      each part first adds its text, then a leads call ends the scan. */
  function ScanParts(parts: seq<Part>, raw: string, decode: string -> DecodeResult): Outcome<Parsed> {
    if parts == [] then Ok(FromText(raw, decode))
    else
      var raw' := raw + PartText(parts[0]);
      if IsLeadsCall(parts[0]) then CallResult(parts[0].call.value.args[LeadsArgument], raw', decode)
      else ScanParts(parts[1..], raw', decode)
  }

  /** `parse_gemini_json_response`. */
  function ParseSpec(r: Response, decode: string -> DecodeResult): Outcome<Parsed> {
    ScanParts(PartsOf(r), "", decode)
  }

  /** `parse_gemini_json_response`, one part at a time. */
  method ParseGeminiJsonResponse(r: Response, decode: string -> DecodeResult) returns (out: Outcome<Parsed>)
    ensures out == ParseSpec(r, decode)
  {
    var raw := "";
    var parts := PartsOf(r);
    var i := 0;
    while i < |parts|
      invariant i <= |parts|
      invariant ScanParts(parts, "", decode) == ScanParts(parts[i..], raw, decode)
    {
      var part := parts[i];
      assert parts[i..][0] == part && parts[i..][1..] == parts[i + 1..];
      ghost var before := raw;
      if part.text.Some? {
        raw := raw + part.text.value + "\n";
      }
      assert raw == before + PartText(part);
      if part.call.Some? && LeadsArgument in part.call.value.args {
        return CallResult(part.call.value.args[LeadsArgument], raw, decode);
      }
      i := i + 1;
    }
    return Ok(FromText(raw, decode));
  }

  /** Without a leads call, the scan decodes the whole accumulated text: every
      part's text, each followed by a newline. */
  lemma {:induction false} ScanWithoutCalls(parts: seq<Part>, raw: string, decode: string -> DecodeResult)
    requires forall k :: 0 <= k < |parts| ==> !IsLeadsCall(parts[k])
    ensures ScanParts(parts, raw, decode) == Ok(FromText(raw + RawText(parts), decode))
    decreases |parts|
  {
    if parts == [] {
      assert raw + RawText(parts) == raw;
    } else {
      assert !IsLeadsCall(parts[0]);
      var raw' := raw + PartText(parts[0]);
      assert ScanParts(parts, raw, decode) == ScanParts(parts[1..], raw', decode);
      ScanWithoutCalls(parts[1..], raw', decode);
      Associate(raw, PartText(parts[0]), RawText(parts[1..]));
    }
  }

  /** The first leads call decides the result, with the text of the parts up
      to and including it; later parts are never looked at. */
  lemma {:induction false} ScanStopsAtFirstCall(parts: seq<Part>, raw: string, decode: string -> DecodeResult, k: nat)
    requires k < |parts| && IsLeadsCall(parts[k])
    requires forall j :: 0 <= j < k ==> !IsLeadsCall(parts[j])
    ensures ScanParts(parts, raw, decode)
            == CallResult(parts[k].call.value.args[LeadsArgument], raw + RawText(parts[..k + 1]), decode)
    decreases k
  {
    var raw' := raw + PartText(parts[0]);
    RawTextFront(parts, k + 1);
    if k == 0 {
      assert RawText(parts[1..][..0]) == "";
      assert raw + RawText(parts[..1]) == raw';
    } else {
      var rest := parts[1..];
      assert ScanParts(parts, raw, decode) == ScanParts(rest, raw', decode);
      ScanStopsAtFirstCall(rest, raw', decode, k - 1);
      Associate(raw, PartText(parts[0]), RawText(rest[..k]));
    }
  }

  lemma RawTextFront(parts: seq<Part>, n: nat)
    requires 1 <= n <= |parts|
    ensures RawText(parts[..n]) == PartText(parts[0]) + RawText(parts[1..][..n - 1])
  {
    assert parts[..n][1..] == parts[1..][..n - 1];
  }

  lemma Associate(a: string, b: string, c: string)
    ensures (a + b) + c == a + (b + c)
  {
  }

  /** An error text: the flag, a message and the text it is about. */
  lemma FlaggedText(message: string, body: string)
    ensures var t := ErrorFlag + message + body;
            Contains(t, ErrorFlag) && |t| > |body| && t[|t| - |body|..] == body
  {
    var t := ErrorFlag + message + body;
    assert t[..|ErrorFlag|] == ErrorFlag;
    assert OccursAt(t, ErrorFlag, 0);
  }

  /** A fallback that cannot decode yields no leads and a text flagged with
      "Error:", which ends with the stripped raw text; one that decodes keeps
      the stripped raw text. */
  lemma FromTextFlagsErrors(raw: string, decode: string -> DecodeResult)
    ensures var (v, t) := FromText(raw, decode);
            (decode(JsonText(raw)).Decoded? ==> v == decode(JsonText(raw)).value && t == Strip(raw))
            && (!decode(JsonText(raw)).Decoded? ==>
                  v == List([]) && Contains(t, ErrorFlag) && |t| > |Strip(raw)| && t[|t| - |Strip(raw)|..] == Strip(raw))
  {
    var d := decode(JsonText(raw));
    var body := Strip(raw);
    if d.DecodeError? {
      FlaggedText(" Could not parse JSON from response. Raw text: ", body);
    } else if d.DecodeFailure? {
      FlaggedText(" An unexpected error occurred during parsing. Raw text: ", body);
    }
  }

  // ---------------------------------------------------------------------------
  // The fence offset

  /** As written, the extracted block always starts with the "n" that ends
      the "```json" tag, so a fenced list can never decode. */
  lemma FenceAsWrittenKeepsTagLetter(raw: string)
    ensures FenceBodyAsWritten(raw).Some? ==> var b := FenceBodyAsWritten(raw).value; b != [] && b[0] == 'n'
  {
    DelimitedStartsWith(raw, JsonFence, Fence, 6);
  }

  /** A block found from inside the opening delimiter, at a character that
      cannot start the closing one, starts with that character. */
  lemma DelimitedStartsWith(raw: string, open: string, close: string, skip: nat)
    requires skip < |open| && close != [] && open[skip] != close[0] && !IsSpace(open[skip])
    ensures Delimited(raw, open, close, skip).Some? ==>
              var b := Delimited(raw, open, close, skip).value; b != [] && b[0] == open[skip]
  {
    var s := Find(raw, open, 0);
    if s != -1 {
      var e := Find(raw, close, s + skip);
      if e != -1 {
        DelimitedFound(raw, open, close, skip, s, e);
        BlockStartsWith(raw, open, close, skip, s, e);
      }
    }
  }

  lemma BlockStartsWith(raw: string, open: string, close: string, skip: nat, s: int, e: int)
    requires skip < |open| && close != [] && open[skip] != close[0] && !IsSpace(open[skip])
    requires OccursAt(raw, open, s) && OccursAt(raw, close, e) && s + skip <= e
    ensures Strip(raw[s + skip..e]) != [] && Strip(raw[s + skip..e])[0] == open[skip]
  {
    CharOfOccurrence(raw, open, s, skip);
    CharOfOccurrence(raw, close, e, 0);
    StripKeepsFirst(raw, s + skip, e);
  }

  lemma CharOfOccurrence(s: string, pat: string, i: int, k: nat)
    requires OccursAt(s, pat, i) && k < |pat|
    ensures s[i + k] == pat[k]
  {
    assert s[i..i + |pat|][k] == s[i + k];
  }

  lemma StripKeepsFirst(raw: string, i: nat, j: nat)
    requires i < j <= |raw| && !IsSpace(raw[i])
    ensures Strip(raw[i..j]) != [] && Strip(raw[i..j])[0] == raw[i]
  {
    var body := raw[i..j];
    assert body[0] == raw[i];
    assert body == [body[0]] + body[1..];
    StripFromNonSpace(body[0], body[1..]);
  }

  /** A text with one fenced block, and no backquote before it or inside it:
      skipping the whole tag extracts the block, while the source's offset
      extracts the block behind the tag's last letter. */
  lemma FenceBodies(prefix: string, body: string, suffix: string)
    requires '`' !in prefix && '`' !in body
    ensures FenceBody(prefix + JsonFence + body + Fence + suffix) == Some(Strip(body))
    ensures FenceBodyAsWritten(prefix + JsonFence + body + Fence + suffix) == Some(Strip("n" + body))
  {
    var tagged := prefix + JsonFence;
    var closed := Fence + suffix;
    var raw := tagged + (body + closed);
    assert prefix + JsonFence + body + Fence + suffix == raw;
    var p := |prefix|;
    var e := p + 7 + |body|;
    TagFound(prefix, body + closed);
    ClosingFound(tagged, body, closed, p + 6);
    ClosingFound(tagged, body, closed, p + 7);
    BlockSlices(tagged, body, closed);
    FenceBodyAtFound(raw, 7, p, e);
    FenceBodyAtFound(raw, 6, p, e);
  }

  lemma FenceBodyAtFound(raw: string, skip: nat, s: int, e: int)
    requires s != -1 && Find(raw, JsonFence, 0) == s
    requires e != -1 && Find(raw, Fence, s + skip) == e
    ensures s + skip <= e <= |raw|
    ensures FenceBodyAt(raw, skip) == Some(Strip(raw[s + skip..e]))
  {
    DelimitedFound(raw, JsonFence, Fence, skip, s, e);
  }

  lemma DelimitedFound(raw: string, open: string, close: string, skip: nat, s: int, e: int)
    requires s != -1 && Find(raw, open, 0) == s
    requires e != -1 && Find(raw, close, s + skip) == e
    ensures s + skip <= e <= |raw|
    ensures Delimited(raw, open, close, skip) == Some(Strip(raw[s + skip..e]))
  {
    assert OccursAt(raw, close, e);
  }

  /** The slices just after the tag and just after its first six letters. */
  lemma BlockSlices(tagged: string, body: string, closed: string)
    requires |tagged| >= 7 && tagged[|tagged| - 7..] == JsonFence
    ensures var raw := tagged + (body + closed);
            raw[|tagged|..|tagged| + |body|] == body
            && raw[|tagged| - 1..|tagged| + |body|] == "n" + body
  {
    assert tagged[|tagged| - 1] == tagged[|tagged| - 7..][6];
  }

  /** The first "```json" follows a prefix without backquotes. */
  lemma TagFound(prefix: string, rest: string)
    requires '`' !in prefix
    ensures Find(prefix + JsonFence + rest, JsonFence, 0) == |prefix|
  {
    var raw := prefix + JsonFence + rest;
    assert raw[|prefix|..|prefix| + 7] == JsonFence;
    forall j | 0 <= j < |prefix|
      ensures !OccursAt(raw, JsonFence, j)
    {
      assert raw[j] == prefix[j];
      NoMatchAt(raw, JsonFence, j);
    }
    FindAt(raw, JsonFence, 0, |prefix|);
  }

  /** Searching from inside the tag, the first "```" closes the block. */
  lemma ClosingFound(tagged: string, body: string, closed: string, from: nat)
    requires |tagged| >= 7 && tagged[|tagged| - 7..] == JsonFence
    requires |tagged| - 1 <= from <= |tagged|
    requires '`' !in body && |closed| >= 3 && closed[..3] == Fence
    ensures Find(tagged + (body + closed), Fence, from) == |tagged| + |body|
  {
    var raw := tagged + (body + closed);
    var e := |tagged| + |body|;
    assert raw[e..e + 3] == Fence;
    assert raw[|tagged| - 1] == tagged[|tagged| - 7..][6];
    forall j | from <= j < e
      ensures !OccursAt(raw, Fence, j)
    {
      if j >= |tagged| {
        assert raw[j] == body[j - |tagged|];
      }
      NoMatchAt(raw, Fence, j);
    }
    FindAt(raw, Fence, from, e);
  }

  lemma NoMatchAt(s: string, pat: string, j: nat)
    requires pat != [] && j < |s| && s[j] != pat[0]
    ensures !OccursAt(s, pat, j)
  {
  }

  /** A fenced block such as "```json[]```": the source hands the decoder the
      block with the tag's "n" in front ("n[]"), where the block itself ("[]")
      was meant. */
  lemma FenceOffsetDiscrepancy(body: string)
    requires '`' !in body && body != [] && !IsSpace(body[0]) && !IsSpace(body[|body| - 1])
    ensures FenceBodyAsWritten(JsonFence + body + Fence) == Some("n" + body)
    ensures FenceBody(JsonFence + body + Fence) == Some(body)
    ensures "n" + body != body
  {
    FencedAlone(body);
    TaggedUntrimmed(body);
  }

  lemma TaggedUntrimmed(body: string)
    requires body != [] && !IsSpace(body[0]) && !IsSpace(body[|body| - 1])
    ensures Strip(body) == body && Strip("n" + body) == "n" + body && "n" + body != body
  {
    StripUntrimmed(body);
    var tagged := "n" + body;
    assert tagged[0] == 'n' && tagged[|tagged| - 1] == body[|body| - 1];
    StripUntrimmed(tagged);
    assert |tagged| != |body|;
  }

  /** A text that is just one fenced block. */
  lemma FencedAlone(body: string)
    requires '`' !in body
    ensures FenceBody(JsonFence + body + Fence) == Some(Strip(body))
    ensures FenceBodyAsWritten(JsonFence + body + Fence) == Some(Strip("n" + body))
  {
    assert JsonFence + body + Fence == "" + JsonFence + body + Fence + "";
    FenceBodies("", body, "");
  }

  /** Text that neither starts nor ends with white space is not changed by
      stripping. */
  lemma StripUntrimmed(s: string)
    requires s != [] && !IsSpace(s[0]) && !IsSpace(s[|s| - 1])
    ensures Strip(s) == s
  {
    assert RStrip(s) == s;
    LStripNoLeadingSpace(s);
  }

  lemma FindAt(s: string, pat: string, from: nat, i: nat)
    requires from <= i && OccursAt(s, pat, i)
    requires forall j :: from <= j < i ==> !OccursAt(s, pat, j)
    ensures Find(s, pat, from) == i
  {
  }

  // ---------------------------------------------------------------------------
  // Prompt fragments

  /** A title in single quotes. */
  function Quote(title: Value): string {
    "'" + PyStr(title) + "'"
  }

  function QuoteAll(titles: seq<Value>): seq<string> {
    seq(|titles|, i requires 0 <= i < |titles| => Quote(titles[i]))
  }

  /** The titles as the prompts list them: each in single quotes, joined by
      ", ", in order. */
  function TitlesText(titles: Value): Outcome<string> {
    match Iterate(titles)
    case Raise(e) => Raise(e)
    case Ok(xs) => Ok(Join(", ", QuoteAll(xs)))
  }

  /** One more title extends the list by a comma, a space and that title in
      quotes; a single title is just that title in quotes. */
  lemma TitlesTextSnoc(titles: seq<Value>, t: Value)
    ensures TitlesText(List(titles + [t]))
            == Ok(if titles == [] then Quote(t) else TitlesText(List(titles)).value + ", " + Quote(t))
  {
    assert QuoteAll(titles + [t]) == QuoteAll(titles) + [Quote(t)];
    JoinSnoc(", ", QuoteAll(titles), Quote(t));
  }

  const NoLeadsLine: string := "No leads were identified."

  /** The summary line of one lead: its name and title, each "N/A" when the
      key is missing; a lead that is not an object has no `get`. */
  function LeadLine(lead: Value): Outcome<string> {
    match lead
    case Dict(m) => Ok("- " + PyStr(GetOr(m, "name", Str("N/A"))) + " (" + PyStr(GetOr(m, "title", Str("N/A"))) + ")")
    case _ => Raise("AttributeError: '" + TypeName(lead) + "' object has no attribute 'get'")
  }

  /** The lines of the leads in order, or the first lead's error. */
  function LeadLines(leads: seq<Value>): Outcome<seq<string>> {
    if leads == [] then Ok([])
    else
      match LeadLines(leads[..|leads| - 1])
      case Raise(e) => Raise(e)
      case Ok(lines) =>
        match LeadLine(leads[|leads| - 1])
        case Raise(e) => Raise(e)
        case Ok(l) => Ok(lines + [l])
  }

  /** The leads block of the summary prompt. */
  function LeadsBlock(leads: Value): Outcome<string> {
    if !Truthy(leads) then Ok(NoLeadsLine)
    else
      match Iterate(leads)
      case Raise(e) => Raise(e)
      case Ok(items) =>
        match LeadLines(items)
        case Raise(e) => Raise(e)
        case Ok(lines) => Ok(Join("\n", lines))
  }

  /** The leads block, built line by line as `generate_summary_report_prompt`
      does. */
  method LeadsSummary(leads: Value) returns (r: Outcome<string>)
    ensures r == LeadsBlock(leads)
  {
    if !Truthy(leads) {
      return Ok(Join("\n", [NoLeadsLine]));
    }
    var it := Iterate(leads);
    if it.Raise? {
      return Raise(it.error);
    }
    var items := it.value;
    var lines: seq<string> := [];
    var i := 0;
    while i < |items|
      invariant i <= |items|
      invariant LeadLines(items[..i]) == Ok(lines)
    {
      assert items[..i + 1][..i] == items[..i];
      var line := LeadLine(items[i]);
      if line.Raise? {
        LeadLinesStopAt(items, i);
        return Raise(line.error);
      }
      assert LeadLines(items[..i + 1]) == Ok(lines + [line.value]);
      lines := lines + [line.value];
      i := i + 1;
    }
    assert items[..i] == items;
    assert LeadsBlock(leads) == Ok(Join("\n", lines));
    return Ok(Join("\n", lines));
  }

  /** The first lead without `get` decides the error. */
  lemma {:induction false} LeadLinesStopAt(leads: seq<Value>, i: nat)
    requires i < |leads| && LeadLines(leads[..i]).Ok? && LeadLine(leads[i]).Raise?
    ensures LeadLines(leads) == Raise(LeadLine(leads[i]).error)
    decreases |leads|
  {
    var init := leads[..|leads| - 1];
    if i < |init| {
      assert init[..i] == leads[..i];
      LeadLinesStopAt(init, i);
    } else {
      assert init == leads[..i];
    }
  }

  /** The lines succeed exactly when every lead is an object. */
  lemma {:induction false} LeadLinesOk(leads: seq<Value>)
    ensures LeadLines(leads).Ok? <==> forall k :: 0 <= k < |leads| ==> leads[k].Dict?
    decreases |leads|
  {
    if leads != [] {
      var init := leads[..|leads| - 1];
      LeadLinesOk(init);
      assert forall k :: 0 <= k < |init| ==> init[k] == leads[k];
    }
  }

  /** When they succeed there is one line per lead, in order, naming its name
      and title. */
  lemma {:induction false} LeadLinesInOrder(leads: seq<Value>)
    requires LeadLines(leads).Ok?
    ensures |LeadLines(leads).value| == |leads|
    ensures forall k :: 0 <= k < |leads| ==> LeadLine(leads[k]) == Ok(LeadLines(leads).value[k])
    decreases |leads|
  {
    if leads != [] {
      var init := leads[..|leads| - 1];
      var last := leads[|leads| - 1];
      var lines := LeadLines(init).value;
      assert LeadLines(leads).value == lines + [LeadLine(last).value];
      LeadLinesInOrder(init);
      assert forall k :: 0 <= k < |init| ==> init[k] == leads[k];
    }
  }

  /** No leads, or a list of objects. */
  predicate NoneOrObjects(leads: Value) {
    !Truthy(leads) || (leads.List? && forall k :: 0 <= k < |leads.items| ==> leads.items[k].Dict?)
  }

  /** The block can be built only for no leads or a list of objects: a
      string's characters and an object's keys have no `get`. */
  lemma LeadsBlockAcceptsObjects(leads: Value)
    ensures LeadsBlock(leads).Ok? <==> NoneOrObjects(leads)
  {
    if Truthy(leads) && Iterate(leads).Ok? {
      var items := Iterate(leads).value;
      LeadLinesOk(items);
      if leads.Str? {
        assert items[0] == Str([leads.s[0]]);
      }
    }
  }

  /** Splitting the block at its newlines gives one line per lead back, when
      no name or title holds a newline. */
  lemma LeadsBlockOneLinePerLead(leads: seq<Value>)
    requires leads != [] && LeadLines(leads).Ok?
    requires forall k :: 0 <= k < |LeadLines(leads).value| ==> '\n' !in LeadLines(leads).value[k]
    ensures LeadsBlock(List(leads)).Ok?
    ensures Split(LeadsBlock(List(leads)).value, '\n') == LeadLines(leads).value
  {
    var lines := LeadLines(leads).value;
    assert lines != [];
    assert Iterate(List(leads)) == Ok(leads);
    assert LeadsBlock(List(leads)) == Ok(Join("\n", lines));
    SplitJoin(lines, '\n');
  }
}

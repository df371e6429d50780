/**
 * Normalisation of the generative-AI service's reply into a report, and the
 * prompt of the follow-up article request (services/geminiService.ts).
 * The network calls themselves are not modelled: a reply is a value.
 */
module Gemini {
  import opened Types
  import opened Strings

  // ---------------------------------------------------------------------------
  // The reply, as far as the service code looks into it
  // ---------------------------------------------------------------------------

  datatype Web = Web(title: Option<string>, uri: Option<string>)
  datatype GroundingChunk = GroundingChunk(web: Option<Web>)
  datatype GroundingMetadata = GroundingMetadata(groundingChunks: Option<seq<GroundingChunk>>)
  datatype Part = Part(thought: Option<string>)
  datatype Content = Content(parts: Option<seq<Part>>)
  datatype Candidate = Candidate(content: Option<Content>, groundingMetadata: Option<GroundingMetadata>)

  /** `text` is the SDK's accessor for the reply text; `candidates` may be missing. */
  datatype Response = Response(text: Option<string>, candidates: Option<seq<Candidate>>)

  /**
   * What `JSON.parse` yields for a reply that follows the requested schema.
   * The model may also emit `id`, `thought`, `sources` or `timestamp`; the
   * schema does not ask for them.
   */
  datatype Payload = Payload(
    id: Option<string>,
    title: string,
    summary: string,
    thought: Option<string>,
    forces: Forces,
    inversion: Inversion,
    investments: InvestmentAnalysis,
    sources: Option<seq<GroundingSource>>,
    timestamp: Option<string>,
    dataFreshness: DataFreshness)

  /** `response.candidates?.[0]` */
  function FirstCandidate(resp: Response): (r: Option<Candidate>)
    ensures r.Some? <==> resp.candidates.Some? && resp.candidates.value != []
    ensures r.Some? ==> r.value == resp.candidates.value[0]
  {
    if resp.candidates.Some? && |resp.candidates.value| > 0 then Some(resp.candidates.value[0]) else None
  }

  // ---------------------------------------------------------------------------
  // cleanJsonResponse: text.replace(/```json\n?|```/g, '').trim()
  // ---------------------------------------------------------------------------

  const Fence: string := "```"

  predicate StartsWith(s: string, p: string) {
    |p| <= |s| && s[..|p|] == p
  }

  ghost predicate NoBacktick(s: string) {
    forall i :: 0 <= i < |s| ==> s[i] != '`'
  }

  /** Three backticks start at position `i` of `s`. */
  ghost predicate FenceAt(s: string, i: int) {
    0 <= i && i + 3 <= |s| && s[i] == '`' && s[i + 1] == '`' && s[i + 2] == '`'
  }

  ghost predicate NoFence(s: string) {
    forall i :: !FenceAt(s, i)
  }

  /**
   * The global replace, scanning left to right: at each position the first
   * alternative "```json" (with the newline after it if there is one) is
   * tried before the bare "```"; a matched marker is deleted and the scan
   * resumes after it, any other character is kept.
   */
  function StripFences(s: string): (r: string)
    ensures |r| <= |s|
    decreases |s|
  {
    if StartsWith(s, Fence) then
      var rest := s[3..];
      if StartsWith(rest, "json\n") then StripFences(rest[5..])
      else if StartsWith(rest, "json") then StripFences(rest[4..])
      else StripFences(rest)
    else if s == [] then []
    else [s[0]] + StripFences(s[1..])
  }

  /** A string that does not start with a marker keeps its first character. */
  lemma HeadKept(t: string)
    requires t != [] && !StartsWith(t, Fence)
    ensures StripFences(t) == [t[0]] + StripFences(t[1..])
  {
  }

  lemma NoMarkerAtPlainHead(t: string)
    requires t != [] && t[0] != '`'
    ensures !StartsWith(t, Fence)
  {
    if |t| >= 3 { assert t[..3][0] == t[0]; }
  }

  /** No run of three backticks survives the replace. */
  lemma {:induction false} StripFencesNoFence(s: string)
    ensures NoFence(StripFences(s))
    decreases |s|
  {
    if StartsWith(s, Fence) {
      var rest := s[3..];
      if StartsWith(rest, "json\n") { StripFencesNoFence(rest[5..]); }
      else if StartsWith(rest, "json") { StripFencesNoFence(rest[4..]); }
      else { StripFencesNoFence(rest); }
    } else if s != [] {
      StripFencesNoFence(s[1..]);
      KeptHeadMakesNoFence(s);
    }
  }

  /**
   * Prepending a kept character cannot create a fence: a kept backtick is not
   * followed by two more backticks, and what follows it is kept too.
   */
  lemma KeptHeadMakesNoFence(s: string)
    requires s != [] && !StartsWith(s, Fence)
    requires NoFence(StripFences(s[1..]))
    ensures NoFence(StripFences(s))
  {
    HeadKept(s);
    var kept := StripFences(s[1..]);
    var r := [s[0]] + kept;
    assert r == StripFences(s);
    if s[0] == '`' && |s| >= 3 {
      var t := s[1..];
      if t[0] != '`' {
        NoMarkerAtPlainHead(t);
        HeadKept(t);
        assert r[1] == t[0];
      } else {
        assert s[2] != '`' by { assert s[..3] != Fence; }
        assert t[1] == s[2];
        NoMarkerAtPlainHead(t[1..]);
        HeadKept(t[1..]);
        assert !StartsWith(t, Fence) by {
          if |t| >= 3 { assert t[..3][1] == t[1]; }
        }
        HeadKept(t);
        assert r[2] == t[1];
      }
    }
    assert !FenceAt(r, 0);
    forall i | i > 0 ensures !FenceAt(r, i) {
      assert FenceAt(r, i) == FenceAt(kept, i - 1);
    }
  }

  /** `cleanJsonResponse`: no fence marker and no surrounding whitespace remain. */
  function CleanJsonResponse(text: string): (r: string)
    ensures Trimmed(r)
    ensures NoFence(r)
  {
    var stripped := StripFences(text);
    StripFencesNoFence(text);
    TrimKeepsNoFence(stripped);
    Trim(stripped)
  }

  lemma TrimKeepsNoFence(s: string)
    requires NoFence(s)
    ensures NoFence(Trim(s))
  {
    var t := TrimStart(s);
    NoFenceWithin(s, t, |s| - |t|);
    var r := TrimEnd(t);
    NoFenceWithin(t, r, 0);
  }

  /** A piece cut out of fence-free text is fence-free. */
  lemma NoFenceWithin(s: string, t: string, i: int)
    requires NoFence(s) && 0 <= i <= |s| - |t| && t == s[i..i + |t|]
    ensures NoFence(t)
  {
    forall k ensures !FenceAt(t, k) {
      assert FenceAt(t, k) ==> FenceAt(s, i + k);
    }
  }

  /** Text without any backtick passes through the replace unchanged. */
  lemma {:induction false} StripFencesNoBacktick(s: string)
    requires NoBacktick(s)
    ensures StripFences(s) == s
  {
    if s != [] {
      NoMarkerAtPlainHead(s);
      HeadKept(s);
      StripFencesNoBacktick(s[1..]);
    }
  }

  /** A closing fence after backtick-free text is deleted and nothing else. */
  lemma {:induction false} StripFencesClosing(body: string)
    requires NoBacktick(body)
    ensures StripFences(body + Fence) == body
  {
    if body == [] {
      assert StripFences(Fence) == StripFences("");
    } else {
      NoMarkerAtPlainHead(body + Fence);
      HeadKept(body + Fence);
      assert (body + Fence)[1..] == body[1..] + Fence;
      StripFencesClosing(body[1..]);
    }
  }

  /** Without backticks, cleaning is trimming. */
  lemma CleanNoBacktick(text: string)
    requires NoBacktick(text)
    ensures CleanJsonResponse(text) == Trim(text)
  {
    StripFencesNoBacktick(text);
  }

  /** A fenced JSON block "```json\n" + body + "```" cleans to the trimmed body. */
  lemma CleanFencedBlock(body: string)
    requires NoBacktick(body)
    ensures CleanJsonResponse("```json\n" + body + Fence) == Trim(body)
  {
    var s := "```json\n" + body + Fence;
    assert StartsWith(s, Fence);
    assert s[3..] == "json\n" + body + Fence;
    assert StartsWith(s[3..], "json\n");
    assert s[3..][5..] == body + Fence;
    StripFencesClosing(body);
  }

  // ---------------------------------------------------------------------------
  // extractThought
  // ---------------------------------------------------------------------------

  /** `response.candidates?.[0]?.content?.parts || []` */
  function ReplyParts(resp: Response): (r: seq<Part>)
    ensures FirstCandidate(resp).None? ==> r == []
    ensures r != [] ==> var c := FirstCandidate(resp).value;
              c.content.Some? && c.content.value.parts == Some(r)
    ensures (FirstCandidate(resp).Some? && FirstCandidate(resp).value.content.Some? &&
             FirstCandidate(resp).value.content.value.parts.Some?) ==>
              r == FirstCandidate(resp).value.content.value.parts.value
  {
    match FirstCandidate(resp)
    case None => []
    case Some(c) =>
      if c.content.Some? && c.content.value.parts.Some? then c.content.value.parts.value else []
  }

  /** `parts.filter(part => part.thought).map(part => part.thought)` */
  function ThoughtTexts(parts: seq<Part>): (r: seq<string>)
    ensures |r| <= |parts|
    ensures forall i :: 0 <= i < |r| ==> r[i] != ""
  {
    if parts == [] then []
    else if Truthy(parts[0].thought) then [parts[0].thought.value] + ThoughtTexts(parts[1..])
    else ThoughtTexts(parts[1..])
  }

  /** `extractThought`: the thoughts joined by "\n". */
  function ExtractThought(resp: Response): (r: string)
    ensures FirstCandidate(resp).None? ==> r == ""
  {
    Join(ThoughtTexts(ReplyParts(resp)), "\n")
  }

  /** The filter keeps order: thoughts of a concatenation are concatenated thoughts. */
  lemma {:induction false} ThoughtTextsAppend(a: seq<Part>, b: seq<Part>)
    ensures ThoughtTexts(a + b) == ThoughtTexts(a) + ThoughtTexts(b)
  {
    if a == [] {
      assert a + b == b;
    } else {
      assert (a + b)[0] == a[0] && (a + b)[1..] == a[1..] + b;
      ThoughtTextsAppend(a[1..], b);
    }
  }

  /** A single part contributes its thought exactly when the thought is non-empty. */
  lemma ThoughtTextsSingle(p: Part)
    ensures ThoughtTexts([p]) == if Truthy(p.thought) then [p.thought.value] else []
  {
  }

  /** A string is among the thoughts exactly when some part carries it as a non-empty thought. */
  lemma {:induction false} ThoughtTextsMember(parts: seq<Part>, t: string)
    ensures t in ThoughtTexts(parts) <==> exists i :: 0 <= i < |parts| && parts[i].thought == Some(t) && t != ""
  {
    if parts != [] {
      ThoughtTextsMember(parts[1..], t);
      if t in ThoughtTexts(parts[1..]) {
        var i :| 0 <= i < |parts[1..]| && parts[1..][i].thought == Some(t) && t != "";
        assert parts[i + 1].thought == Some(t);
      }
      if exists i :: 0 <= i < |parts| && parts[i].thought == Some(t) && t != "" {
        var i :| 0 <= i < |parts| && parts[i].thought == Some(t) && t != "";
        if i > 0 { assert parts[1..][i - 1].thought == Some(t); }
      }
    }
  }

  /** The trace is empty exactly when no part of the first candidate has a non-empty thought. */
  lemma ExtractThoughtEmptyIff(resp: Response)
    ensures ExtractThought(resp) == "" <==>
            forall i :: 0 <= i < |ReplyParts(resp)| ==> !Truthy(ReplyParts(resp)[i].thought)
  {
    var parts := ReplyParts(resp);
    JoinEmptyIff(ThoughtTexts(parts), "\n");
    if ThoughtTexts(parts) != [] {
      var t := ThoughtTexts(parts)[0];
      ThoughtTextsMember(parts, t);
    } else {
      forall i | 0 <= i < |parts| ensures !Truthy(parts[i].thought) {
        if Truthy(parts[i].thought) { ThoughtTextsMember(parts, parts[i].thought.value); }
      }
    }
  }

  // ---------------------------------------------------------------------------
  // Grounding sources
  // ---------------------------------------------------------------------------

  const DefaultSourceTitle: string := "即時參考來源"

  /** `chunk.web?.title` */
  function WebTitle(c: GroundingChunk): Option<string> {
    if c.web.Some? then c.web.value.title else None
  }

  /** `chunk.web?.uri` */
  function WebUri(c: GroundingChunk): Option<string> {
    if c.web.Some? then c.web.value.uri else None
  }

  /** `{ title: chunk.web?.title || "即時參考來源", uri: chunk.web?.uri }` */
  function ChunkSource(c: GroundingChunk): (s: GroundingSource)
    ensures Truthy(s.title)
  {
    GroundingSource(Some(if Truthy(WebTitle(c)) then WebTitle(c).value else DefaultSourceTitle), WebUri(c))
  }

  /** `.map(chunk => ...)` */
  function MapChunks(chunks: seq<GroundingChunk>): (r: seq<GroundingSource>)
    ensures |r| == |chunks|
    ensures forall i :: 0 <= i < |r| ==> r[i] == ChunkSource(chunks[i])
  {
    if chunks == [] then [] else [ChunkSource(chunks[0])] + MapChunks(chunks[1..])
  }

  /** `.filter(s => s.uri)` */
  function KeepWithUri(srcs: seq<GroundingSource>): (r: seq<GroundingSource>)
    ensures |r| <= |srcs|
    ensures forall i :: 0 <= i < |r| ==> Truthy(r[i].uri) && r[i] in srcs
  {
    if srcs == [] then []
    else if Truthy(srcs[0].uri) then [srcs[0]] + KeepWithUri(srcs[1..])
    else KeepWithUri(srcs[1..])
  }

  /** Both parts of a normalised citation are non-empty strings. */
  predicate NormalisedSource(s: GroundingSource) {
    Truthy(s.title) && Truthy(s.uri)
  }

  /** The whole map-then-filter chain over a list of chunks. */
  function NormaliseSources(chunks: seq<GroundingChunk>): (r: seq<GroundingSource>)
    ensures |r| <= |chunks|
    ensures forall i :: 0 <= i < |r| ==> NormalisedSource(r[i])
  {
    KeepWithUri(MapChunks(chunks))
  }

  /** `response.candidates?.[0]?.groundingMetadata?.groundingChunks || []` */
  function GroundingChunks(resp: Response): (r: seq<GroundingChunk>)
    ensures FirstCandidate(resp).None? ==> r == []
    ensures r != [] ==> var c := FirstCandidate(resp).value;
              c.groundingMetadata.Some? && c.groundingMetadata.value.groundingChunks == Some(r)
    ensures (FirstCandidate(resp).Some? && FirstCandidate(resp).value.groundingMetadata.Some? &&
             FirstCandidate(resp).value.groundingMetadata.value.groundingChunks.Some?) ==>
              r == FirstCandidate(resp).value.groundingMetadata.value.groundingChunks.value
  {
    match FirstCandidate(resp)
    case None => []
    case Some(c) =>
      if c.groundingMetadata.Some? && c.groundingMetadata.value.groundingChunks.Some?
      then c.groundingMetadata.value.groundingChunks.value
      else []
  }

  /** The citations of a reply; a reply without chunk metadata has none. */
  function ReplySources(resp: Response): (r: seq<GroundingSource>)
    ensures |r| <= |GroundingChunks(resp)|
    ensures GroundingChunks(resp) == [] ==> r == []
    ensures forall i :: 0 <= i < |r| ==> NormalisedSource(r[i])
  {
    NormaliseSources(GroundingChunks(resp))
  }

  lemma {:induction false} KeepWithUriAppend(a: seq<GroundingSource>, b: seq<GroundingSource>)
    ensures KeepWithUri(a + b) == KeepWithUri(a) + KeepWithUri(b)
  {
    if a == [] {
      assert a + b == b;
    } else {
      assert (a + b)[0] == a[0] && (a + b)[1..] == a[1..] + b;
      KeepWithUriAppend(a[1..], b);
    }
  }

  /** Normalisation keeps chunk order: it distributes over concatenation. */
  lemma NormaliseSourcesAppend(a: seq<GroundingChunk>, b: seq<GroundingChunk>)
    ensures NormaliseSources(a + b) == NormaliseSources(a) + NormaliseSources(b)
  {
    MapChunksAppend(a, b);
    KeepWithUriAppend(MapChunks(a), MapChunks(b));
  }

  lemma MapChunksAppend(a: seq<GroundingChunk>, b: seq<GroundingChunk>)
    ensures MapChunks(a + b) == MapChunks(a) + MapChunks(b)
  {
    var l, m, r := MapChunks(a + b), MapChunks(a), MapChunks(b);
    forall i | 0 <= i < |l| ensures l[i] == (m + r)[i] {
      if i < |a| {
        assert (a + b)[i] == a[i];
      } else {
        assert (a + b)[i] == b[i - |a|];
      }
    }
  }

  /**
   * One chunk yields one citation when it has a non-empty uri, titled with its
   * own non-empty title or else the default, and nothing otherwise.
   */
  lemma NormaliseSourcesSingle(c: GroundingChunk)
    ensures NormaliseSources([c]) ==
            if Truthy(WebUri(c))
            then [GroundingSource(Some(if Truthy(WebTitle(c)) then WebTitle(c).value else DefaultSourceTitle), WebUri(c))]
            else []
  {
    assert MapChunks([c]) == [ChunkSource(c)];
  }

  /** The filter keeps exactly the citations with a non-empty uri. */
  lemma {:induction false} KeepWithUriMember(srcs: seq<GroundingSource>, s: GroundingSource)
    ensures s in KeepWithUri(srcs) <==> s in srcs && Truthy(s.uri)
  {
    if srcs != [] {
      KeepWithUriMember(srcs[1..], s);
      assert srcs == [srcs[0]] + srcs[1..];
    }
  }

  /** A citation is in the output exactly when some chunk maps to it with a non-empty uri. */
  lemma NormaliseSourcesMember(chunks: seq<GroundingChunk>, s: GroundingSource)
    ensures s in NormaliseSources(chunks) <==>
            exists i :: 0 <= i < |chunks| && ChunkSource(chunks[i]) == s && Truthy(s.uri)
  {
    var mapped := MapChunks(chunks);
    KeepWithUriMember(mapped, s);
    if s in mapped {
      var i :| 0 <= i < |mapped| && mapped[i] == s;
      assert ChunkSource(chunks[i]) == s;
    }
  }

  // ---------------------------------------------------------------------------
  // Report assembly and analyzeTrend
  // ---------------------------------------------------------------------------

  /** `{ ...rawData, thought, sources, timestamp }` */
  function Assemble(raw: Payload, thought: string, sources: seq<GroundingSource>, timestamp: string): (r: TrendAnalysis)
    ensures r.thought == Some(thought) && r.sources == sources && r.timestamp == timestamp
    ensures && r.id == raw.id && r.title == raw.title && r.summary == raw.summary && r.forces == raw.forces
            && r.inversion == raw.inversion && r.investments == raw.investments
            && r.dataFreshness == raw.dataFreshness
  {
    TrendAnalysis(raw.id, raw.title, raw.summary, Some(thought), raw.forces, raw.inversion,
                  raw.investments, sources, timestamp, raw.dataFreshness)
  }

  /** Two payloads that agree on everything except the three fields the assembly overwrites. */
  predicate AgreeOutsideOverrides(p: Payload, q: Payload) {
    p.(thought := None, sources := None, timestamp := None) == q.(thought := None, sources := None, timestamp := None)
  }

  /**
   * The payload's own `thought`, `sources` and `timestamp` never reach the
   * report, and every other field does: two payloads give the same report
   * exactly when they agree outside those three fields.
   */
  lemma AssembleKeepsExactlyPayloadFields(p: Payload, q: Payload, thought: string, sources: seq<GroundingSource>, timestamp: string)
    ensures Assemble(p, thought, sources, timestamp) == Assemble(q, thought, sources, timestamp) <==> AgreeOutsideOverrides(p, q)
  {
    var p0 := p.(thought := None, sources := None, timestamp := None);
    var q0 := q.(thought := None, sources := None, timestamp := None);
    if Assemble(p, thought, sources, timestamp) == Assemble(q, thought, sources, timestamp) {
      assert p0.title == q0.title && p0.id == q0.id;
    }
  }

  /** `response.text || "{}"` */
  function RawText(resp: Response): (r: string)
    ensures r != ""
    ensures Truthy(resp.text) ==> r == resp.text.value
    ensures !Truthy(resp.text) ==> r == "{}"
  {
    if Truthy(resp.text) then resp.text.value else "{}"
  }

  /**
   * `analyzeTrend` after the reply has arrived. `parse` stands for `JSON.parse`
   * (`None` when it throws) and `now` for the ISO timestamp of the clock.
   * `None` is the rejected promise.
   */
  function AnalyzeTrend(resp: Response, parse: string -> Option<Payload>, now: string): (r: Option<TrendAnalysis>)
    ensures r.Some? <==> parse(CleanJsonResponse(RawText(resp))).Some?
    ensures r.Some? ==>
              var raw := parse(CleanJsonResponse(RawText(resp))).value;
              && r.value == Assemble(raw, ExtractThought(resp), ReplySources(resp), now)
              && r.value.thought == Some(ExtractThought(resp))
              && r.value.sources == ReplySources(resp)
              && r.value.timestamp == now
              && (forall i :: 0 <= i < |r.value.sources| ==> NormalisedSource(r.value.sources[i]))
  {
    var thought := ExtractThought(resp);
    match parse(CleanJsonResponse(RawText(resp)))
    case None => None
    case Some(raw) => Some(Assemble(raw, thought, ReplySources(resp), now))
  }

  // ---------------------------------------------------------------------------
  // generateArticle
  // ---------------------------------------------------------------------------

  /** The names of the given forces, in order. */
  function ForceNames(fs: seq<DrivingForce>): (r: seq<string>)
    ensures |r| == |fs|
    ensures forall i :: 0 <= i < |r| ==> r[i] == fs[i].Name()
  {
    if fs == [] then [] else [fs[0].Name()] + ForceNames(fs[1..])
  }

  /** `Object.values(DrivingForce).join('、')` */
  function ForceListText(): (r: string)
    ensures forall f: DrivingForce :: Contains(r, f.Name())
  {
    AllForcesEnumerates();
    Join(ForceNames(AllForces), "、")
  }

  lemma JoinCons(x: string, xs: seq<string>, sep: string)
    requires xs != []
    ensures Join([x] + xs, sep) == x + sep + Join(xs, sep)
  {
    assert ([x] + xs)[1..] == xs;
  }

  /** The five names in declaration order, each followed by the separator except the last. */
  lemma ForceListTextValue()
    ensures ForceListText() == Energy.Name() + "、" + (Labor.Name() + "、" + (Geopolitics.Name() + "、" + (Assets.Name() + "、" + Agency.Name())))
  {
    var sep := "、";
    var names := ForceNames(AllForces);
    var n4 := [Agency.Name()];
    var n3 := [Assets.Name()] + n4;
    var n2 := [Geopolitics.Name()] + n3;
    var n1 := [Labor.Name()] + n2;
    assert names == [Energy.Name()] + n1;
    JoinCons(Assets.Name(), n4, sep);
    JoinCons(Geopolitics.Name(), n3, sep);
    JoinCons(Labor.Name(), n2, sep);
    JoinCons(Energy.Name(), n1, sep);
  }

  const PromptHead: string := "\n    請根據以下「全球趨勢雷達分析數據」撰寫一篇深度專題文章。\n    \n    分析主題："
  const PromptStructure: string := "\n    \n    文章架構要求：\n    1. 標題：起一個具有震懾力、大師感的專欄標題。\n    2. 導讀：用一個具體的場景或生活例子切入，帶出目前全球正在發生的巨變。\n    3. 格柵拆解：將五大驅動力融合進敘事，不要死板條列。用「故事＋邏輯」的方式解釋為什麼 "
  const PromptStyle: string := " 正在交織。\n    4. 投資者的指南針：根據數據中的投資佈局，詳細解釋其背後的戰略價值。\n    5. 證偽思考：引用證偽協議與物理極限，展現格柵思維的理性與不盲從。\n    6. 結論：給讀者一段具備行動啟發性的總結。\n    \n    寫作風格：生動、白話但具備專業深度（查理·蒙格風格）。必須超過 1000 字繁體中文。\n    \n    詳細數據參考：\n    摘要："
  const PromptStrategy: string := "\n    投資戰略："
  const PromptFalsification: string := "\n    證偽觀點："
  const PromptLimits: string := "\n    物理極限："
  const PromptTail: string := "\n  "

  /**
   * The article prompt: the fixed template with the report's title, the five
   * force names, the summary, the strategic summary and both inversion fields
   * spliced in.
   */
  function ArticlePrompt(data: TrendAnalysis): (p: string)
    ensures StartsWith(p, PromptHead)
    ensures Contains(p, data.title)
    ensures Contains(p, ForceListText())
    ensures Contains(p, data.summary)
    ensures Contains(p, data.investments.strategicSummary)
    ensures Contains(p, data.inversion.falsification)
    ensures Contains(p, data.inversion.physicalLimits)
  {
    var r6 := PromptLimits + (data.inversion.physicalLimits + PromptTail);
    var r5 := PromptFalsification + (data.inversion.falsification + r6);
    var r4 := PromptStrategy + (data.investments.strategicSummary + r5);
    var r3 := PromptStyle + (data.summary + r4);
    var r2 := PromptStructure + (ForceListText() + r3);
    var p := PromptHead + (data.title + r2);
    assert p[..|PromptHead|] == PromptHead;
    PromptSplices(data, r2, r3, r4, r5, r6);
    p
  }

  lemma PromptSplices(data: TrendAnalysis, r2: string, r3: string, r4: string, r5: string, r6: string)
    requires r6 == PromptLimits + (data.inversion.physicalLimits + PromptTail)
    requires r5 == PromptFalsification + (data.inversion.falsification + r6)
    requires r4 == PromptStrategy + (data.investments.strategicSummary + r5)
    requires r3 == PromptStyle + (data.summary + r4)
    requires r2 == PromptStructure + (ForceListText() + r3)
    ensures var p := PromptHead + (data.title + r2);
            && Contains(p, data.title) && Contains(p, ForceListText()) && Contains(p, data.summary)
            && Contains(p, data.investments.strategicSummary) && Contains(p, data.inversion.falsification)
            && Contains(p, data.inversion.physicalLimits)
  {
    var (title, forces, summary) := (data.title, ForceListText(), data.summary);
    var (strategy, falsification, limits) := (data.investments.strategicSummary, data.inversion.falsification, data.inversion.physicalLimits);
    ContainsSplice(PromptLimits, limits, PromptTail);
    assert Contains(r6, limits);
    ContainsSplice(PromptFalsification, falsification, r6);
    Lift(PromptFalsification, falsification, r6, limits);
    ContainsSplice(PromptStrategy, strategy, r5);
    Lift(PromptStrategy, strategy, r5, limits);
    Lift(PromptStrategy, strategy, r5, falsification);
    ContainsSplice(PromptStyle, summary, r4);
    Lift(PromptStyle, summary, r4, limits);
    Lift(PromptStyle, summary, r4, falsification);
    Lift(PromptStyle, summary, r4, strategy);
    ContainsSplice(PromptStructure, forces, r3);
    Lift(PromptStructure, forces, r3, limits);
    Lift(PromptStructure, forces, r3, falsification);
    Lift(PromptStructure, forces, r3, strategy);
    Lift(PromptStructure, forces, r3, summary);
    ContainsSplice(PromptHead, title, r2);
    Lift(PromptHead, title, r2, limits);
    Lift(PromptHead, title, r2, falsification);
    Lift(PromptHead, title, r2, strategy);
    Lift(PromptHead, title, r2, summary);
    Lift(PromptHead, title, r2, forces);
  }

  /** An occurrence in the tail of a spliced string is an occurrence in the whole. */
  lemma Lift(a: string, x: string, rest: string, t: string)
    requires Contains(rest, t)
    ensures Contains(a + (x + rest), t)
  {
    var i :| OccursAt(rest, t, i);
    assert (a + (x + rest))[|a| + |x| + i..|a| + |x| + i + |t|] == rest[i..i + |t|];
    assert OccursAt(a + (x + rest), t, |a| + |x| + i);
  }


  const ArticleFallback: string := "深度文章生成中斷，請重試。"

  /**
   * `response.text || "深度文章生成中斷，請重試。"`: the article is never empty;
   * it is the reply text when that is non-empty and the fallback otherwise.
   */
  function ArticleText(text: Option<string>): (r: string)
    ensures r != ""
    ensures Truthy(text) ==> r == text.value
    ensures !Truthy(text) ==> r == ArticleFallback
  {
    if Truthy(text) then text.value else ArticleFallback
  }
}

/**
 * The AI client: six capabilities, each one request to the hosted model
 * followed by a fixed policy that turns what came back into a plain result.
 * The request itself is a foreign call, so each capability takes the call's
 * outcome as a parameter: either the call threw, or it returned a response
 * of the shape below (every field the code reads may be missing).
 */
module GeminiService {
  import opened Js
  import opened AudioUtils

  /** `chunk.web`: a cited web source. */
  datatype Web = Web(uri: Option<string>)

  /** One entry of `groundingMetadata.groundingChunks`. */
  datatype GroundingChunk = GroundingChunk(web: Option<Web>)

  datatype GroundingMetadata = GroundingMetadata(groundingChunks: Option<seq<GroundingChunk>>)

  /** `part.inlineData`: binary payload encoded as base64 text. */
  datatype InlineData = InlineData(data: Option<string>)

  datatype Part = Part(inlineData: Option<InlineData>)

  datatype Content = Content(parts: Option<seq<Part>>)

  datatype Candidate = Candidate(
    content: Option<Content>,
    groundingMetadata: Option<GroundingMetadata>)

  /** A `generateContent` (or chat `sendMessage`) response. */
  datatype Response = Response(text: Option<string>, candidates: Option<seq<Candidate>>)

  /** How the awaited service call settled. */
  datatype Outcome = Threw | Returned(response: Response)

  const Uncategorized := "Uncategorized"
  const GeneralCategory := "General"
  const AnalysisUnavailable := "Analysis unavailable."
  const AnalysisError := "Error generating analysis."
  const ChatApology := "I'm having trouble connecting right now. Please try again later."
  const SearchError := "Could not fetch external resources."

  /**
   * `categorizeComplaint`: the trimmed reply, "Uncategorized" when the reply
   * is missing or blank, "General" when the call throws.
   */
  function CategorizeComplaint(outcome: Outcome): (category: string)
    ensures category != []
    ensures outcome.Threw? ==> category == GeneralCategory
    ensures outcome.Returned? && outcome.response.text.Some? && !IsBlank(outcome.response.text.value)
            ==> category == Trim(outcome.response.text.value)
    ensures outcome.Returned? && (outcome.response.text.None? || IsBlank(outcome.response.text.value))
            ==> category == Uncategorized
  {
    match outcome
    case Threw => GeneralCategory
    case Returned(response) =>
      var trimmed := if response.text.Some? then Some(Trim(response.text.value)) else None;
      OrElse(trimmed, Uncategorized)
  }

  /** The category shown is never blank and already trimmed. */
  lemma CategoryIsTrimmed(outcome: Outcome)
    ensures !IsBlank(CategorizeComplaint(outcome))
    ensures Trim(CategorizeComplaint(outcome)) == CategorizeComplaint(outcome)
  {
    if outcome.Threw? {
      TrimOfTrimmed(GeneralCategory);
    } else if outcome.response.text.Some? && !IsBlank(outcome.response.text.value) {
      TrimIdempotent(outcome.response.text.value);
    } else {
      TrimOfTrimmed(Uncategorized);
    }
  }

  /**
   * `transcribeAudio`: the reply text, or "" when it is missing; it re-throws
   * when reading the recording or the service call fails.
   */
  function TranscribeAudio(read: ReadOutcome, outcome: Outcome): (transcript: Settled<string>)
    ensures transcript.Rejected? <==> read.ReadFailed? || outcome.Threw?
    ensures transcript.Fulfilled? ==> transcript.value == outcome.response.text.GetOr([])
  {
    match BlobToBase64(read)
    case Rejected => Rejected
    case Fulfilled(_) =>
      match outcome
      case Threw => Rejected
      case Returned(response) => Fulfilled(OrElse(response.text, ""))
  }

  /**
   * `analyzeComplaintDeeply`: the reply, "Analysis unavailable." when it is
   * missing or empty, "Error generating analysis." when the call throws.
   */
  function AnalyzeComplaintDeeply(outcome: Outcome): (analysis: string)
    ensures analysis != []
    ensures outcome.Threw? ==> analysis == AnalysisError
    ensures outcome.Returned? ==> analysis == OrElse(outcome.response.text, AnalysisUnavailable)
  {
    match outcome
    case Threw => AnalysisError
    case Returned(response) => OrElse(response.text, AnalysisUnavailable)
  }

  /** One turn of chat history as the SDK expects it: `{role, parts: [{text}]}`. */
  datatype TextPart = TextPart(text: string)
  datatype HistoryEntry = HistoryEntry(role: string, parts: seq<TextPart>)

  /**
   * `getChatResponse`: the reply text as returned (possibly `undefined`), or
   * the fixed apology when the call throws.
   */
  function GetChatResponse(outcome: Outcome): (reply: Option<string>)
    ensures outcome.Threw? ==> reply == Some(ChatApology)
    ensures outcome.Returned? ==> reply == outcome.response.text
  {
    match outcome
    case Threw => Some(ChatApology)
    case Returned(response) => response.text
  }

  /** What the resource finder shows: narrative text and source links. */
  datatype SearchResult = SearchResult(text: string, links: seq<string>)

  /** `response.candidates?.[0]?.groundingMetadata?.groundingChunks || []`. */
  function GroundingChunks(response: Response): (chunks: seq<GroundingChunk>)
    ensures response.candidates.None? || response.candidates.value == [] ==> chunks == []
    ensures response.candidates.Some? && response.candidates.value != [] ==>
              var first := response.candidates.value[0];
              && (first.groundingMetadata.Some? && first.groundingMetadata.value.groundingChunks.Some? ==>
                    chunks == first.groundingMetadata.value.groundingChunks.value)
              && (first.groundingMetadata.None? || first.groundingMetadata.value.groundingChunks.None? ==>
                    chunks == [])
  {
    if response.candidates.Some? && response.candidates.value != [] then
      var first := response.candidates.value[0];
      if first.groundingMetadata.Some? && first.groundingMetadata.value.groundingChunks.Some? then
        first.groundingMetadata.value.groundingChunks.value
      else []
    else []
  }

  /** `chunk.web?.uri`. */
  function ChunkUri(chunk: GroundingChunk): (uri: Option<string>) {
    if chunk.web.Some? then chunk.web.value.uri else None
  }

  /** The URI is a string and not empty: the `filter` test. */
  predicate IsLink(uri: Option<string>) {
    uri.Some? && uri.value != []
  }

  /** `chunks.map(c => c.web?.uri).filter(uri => typeof uri === 'string' && !!uri)`. */
  function ExtractLinks(chunks: seq<GroundingChunk>): (links: seq<string>)
    ensures forall j :: 0 <= j < |links| ==> links[j] != []
    ensures forall j :: 0 <= j < |links| ==>
              exists i :: 0 <= i < |chunks| && ChunkUri(chunks[i]) == Some(links[j])
    ensures forall i :: 0 <= i < |chunks| && IsLink(ChunkUri(chunks[i])) ==>
              ChunkUri(chunks[i]).value in links
  {
    if chunks == [] then []
    else
      var rest := ExtractLinks(chunks[1..]);
      assert forall j :: 0 <= j < |rest| ==>
               exists i :: 0 <= i < |chunks| && ChunkUri(chunks[i]) == Some(rest[j]) by {
        forall j | 0 <= j < |rest|
          ensures exists i :: 0 <= i < |chunks| && ChunkUri(chunks[i]) == Some(rest[j])
        {
          var i :| 0 <= i < |chunks[1..]| && ChunkUri(chunks[1..][i]) == Some(rest[j]);
          assert ChunkUri(chunks[i + 1]) == Some(rest[j]);
        }
      }
      assert forall i :: 1 <= i < |chunks| ==> chunks[i] == chunks[1..][i - 1];
      var uri := ChunkUri(chunks[0]);
      if IsLink(uri) then [uri.value] + rest else rest
  }

  /** `set.add(x)` on a JavaScript `Set`, whose entries keep their insertion order. */
  function SetAdd(entries: seq<string>, x: string): (r: seq<string>)
    ensures x in r
    ensures forall y :: y in r <==> y in entries || y == x
    ensures entries <= r
    ensures |r| == |entries| + (if x in entries then 0 else 1)
  {
    if x in entries then entries else entries + [x]
  }

  /** `[...new Set(items)]`: the items added one by one, first occurrence kept. */
  function SetFrom(items: seq<string>): (r: seq<string>)
    ensures |r| <= |items|
    ensures forall x :: x in r <==> x in items
  {
    if items == [] then [] else SetAdd(SetFrom(items[..|items| - 1]), items[|items| - 1])
  }

  /** No value occurs twice. */
  predicate NoDuplicates(s: seq<string>) {
    forall i, j :: 0 <= i < j < |s| ==> s[i] != s[j]
  }

  /** The position of the first occurrence of `x` in `s`. */
  function FirstIndex(s: seq<string>, x: string): (k: nat)
    requires x in s
    ensures k < |s| && s[k] == x && x !in s[..k]
  {
    if s[0] == x then 0 else 1 + FirstIndex(s[1..], x)
  }

  /**
   * `[...new Set(items)]` holds no duplicate, holds exactly the values of
   * `items`, and lists them in the order of their first occurrence.
   */
  lemma {:induction false} SetFromProperties(items: seq<string>)
    ensures NoDuplicates(SetFrom(items))
    ensures forall x :: x in SetFrom(items) <==> x in items
    ensures forall i, j :: 0 <= i < j < |SetFrom(items)| ==>
              FirstIndex(items, SetFrom(items)[i]) < FirstIndex(items, SetFrom(items)[j])
  {
    if items != [] {
      var init := items[..|items| - 1];
      var x := items[|items| - 1];
      var prev := SetFrom(init);
      SetFromProperties(init);
      assert items == init + [x];
      FirstIndexExtend(init, x);
      var r := SetFrom(items);
      if x !in prev {
        assert r == prev + [x];
        forall i, j | 0 <= i < j < |r|
          ensures FirstIndex(items, r[i]) < FirstIndex(items, r[j])
        {
          if j < |prev| {
            assert r[i] == prev[i] && r[j] == prev[j];
          } else {
            assert r[i] == prev[i] && r[i] in init;
          }
        }
      }
    }
  }

  /**
   * The three properties pin the result down: a sequence without duplicates,
   * holding exactly the items, in first-occurrence order, is `[...new Set(items)]`.
   */
  lemma SetFromUnique(items: seq<string>, r: seq<string>)
    requires NoDuplicates(r)
    requires forall x :: x in r <==> x in items
    requires InFirstOccurrenceOrder(items, r)
    ensures r == SetFrom(items)
  {
    SetFromProperties(items);
    SameFirstOccurrenceOrder(items, r, SetFrom(items));
  }

  /** Sequence `r` lists values of `items` in the order of their first occurrence there. */
  predicate InFirstOccurrenceOrder(items: seq<string>, r: seq<string>)
    requires forall x :: x in r ==> x in items
  {
    forall i, j :: 0 <= i < j < |r| ==> FirstIndex(items, r[i]) < FirstIndex(items, r[j])
  }

  /** Two duplicate-free sequences of the same items, both in first-occurrence order, are equal. */
  lemma {:induction false} SameFirstOccurrenceOrder(items: seq<string>, r1: seq<string>, r2: seq<string>)
    requires forall x :: x in r1 ==> x in items
    requires forall x :: x in r1 <==> x in r2
    requires NoDuplicates(r1) && NoDuplicates(r2)
    requires InFirstOccurrenceOrder(items, r1) && InFirstOccurrenceOrder(items, r2)
    ensures r1 == r2
  {
    assert r2 != [] ==> r2[0] in r1;
    if r1 != [] {
      assert r1[0] in r2;
      assert r2 != [] && r2[0] in r1;
      var j :| 0 <= j < |r1| && r1[j] == r2[0];
      var k :| 0 <= k < |r2| && r2[k] == r1[0];
      assert r1[0] == r2[0];
      TailOf(items, r1);
      TailOf(items, r2);
      SameFirstOccurrenceOrder(items, r1[1..], r2[1..]);
      assert r1 == [r1[0]] + r1[1..] && r2 == [r2[0]] + r2[1..];
    }
  }

  /** The tail of an ordered duplicate-free sequence is ordered, duplicate-free, and lacks the head. */
  lemma TailOf(items: seq<string>, r: seq<string>)
    requires r != []
    requires forall x :: x in r ==> x in items
    requires NoDuplicates(r) && InFirstOccurrenceOrder(items, r)
    ensures forall x :: x in r[1..] <==> x in r && x != r[0]
    ensures NoDuplicates(r[1..]) && InFirstOccurrenceOrder(items, r[1..])
  {
    assert forall i :: 0 <= i < |r| - 1 ==> r[1..][i] == r[i + 1];
  }

  /** Appending an item moves no earlier first occurrence; a new item lands at the end. */
  lemma {:induction false} FirstIndexExtend(init: seq<string>, x: string)
    ensures forall y :: y in init ==> FirstIndex(init + [x], y) == FirstIndex(init, y)
    ensures x !in init ==> FirstIndex(init + [x], x) == |init|
  {
    forall y | y in init ensures FirstIndex(init + [x], y) == FirstIndex(init, y) {
      FirstIndexPrefix(init, [x], y);
    }
    if x !in init {
      var k := FirstIndex(init + [x], x);
      assert (init + [x])[|init|] == x;
    }
  }

  /** The first occurrence of a value of `a` is the same in `a + b`. */
  lemma {:induction false} FirstIndexPrefix(a: seq<string>, b: seq<string>, y: string)
    requires y in a
    ensures FirstIndex(a + b, y) == FirstIndex(a, y)
  {
    if a[0] != y {
      assert (a + b)[1..] == a[1..] + b;
      FirstIndexPrefix(a[1..], b, y);
    }
  }

  /**
   * `getGroundingResources`: the reply text (or ""), and the links of the
   * first candidate's grounding chunks, de-duplicated in first-occurrence
   * order; on error a fixed message and no links.
   */
  function GetGroundingResources(outcome: Outcome): (result: SearchResult)
    ensures outcome.Threw? ==> result == SearchResult(SearchError, [])
    ensures outcome.Returned? ==>
              result.text == OrElse(outcome.response.text, "") &&
              result.links == SetFrom(ExtractLinks(GroundingChunks(outcome.response)))
  {
    match outcome
    case Threw => SearchResult(SearchError, [])
    case Returned(response) =>
      SearchResult(OrElse(response.text, ""), SetFrom(ExtractLinks(GroundingChunks(response))))
  }

  /**
   * Every link shown is a non-empty `web.uri` of some grounding chunk of the
   * first candidate, every such URI is shown, none twice, and in the order
   * the chunks first cite them.
   */
  lemma SearchLinks(response: Response)
    ensures var links := GetGroundingResources(Returned(response)).links;
            var chunks := GroundingChunks(response);
            var extracted := ExtractLinks(chunks);
            && NoDuplicates(links)
            && (forall j :: 0 <= j < |links| ==>
                  links[j] != [] &&
                  exists i :: 0 <= i < |chunks| && ChunkUri(chunks[i]) == Some(links[j]))
            && (forall i :: 0 <= i < |chunks| && IsLink(ChunkUri(chunks[i])) ==>
                  ChunkUri(chunks[i]).value in links)
            && (forall i, j :: 0 <= i < j < |links| ==>
                  FirstIndex(extracted, links[i]) < FirstIndex(extracted, links[j]))
  {
    var extracted := ExtractLinks(GroundingChunks(response));
    SetFromProperties(extracted);
  }

  /** Without candidates, or without grounding metadata on the first one, there are no links. */
  lemma NoMetadataNoLinks(response: Response)
    requires || response.candidates.None? || response.candidates.value == []
             || response.candidates.value[0].groundingMetadata.None?
             || response.candidates.value[0].groundingMetadata.value.groundingChunks.None?
    ensures GetGroundingResources(Returned(response)).links == []
  {
  }

  /** The links of `[chunk, ...rest]`: the chunk's own URI, if it is a link, then those of `rest`. */
  lemma ExtractLinksCons(chunk: GroundingChunk, rest: seq<GroundingChunk>)
    ensures ExtractLinks([chunk] + rest) ==
            (if IsLink(ChunkUri(chunk)) then [ChunkUri(chunk).value] else []) + ExtractLinks(rest)
  {
    assert ([chunk] + rest)[1..] == rest;
  }

  /** Duplicate citations `a, a, b` are shown once each, as `a, b`. */
  lemma DuplicateCitations(a: string, b: string)
    requires a != [] && b != [] && a != b
    ensures SetFrom(ExtractLinks([GroundingChunk(Some(Web(Some(a)))),
                                  GroundingChunk(Some(Web(Some(a)))),
                                  GroundingChunk(Some(Web(Some(b))))])) == [a, b]
  {
    var ca, cb := GroundingChunk(Some(Web(Some(a)))), GroundingChunk(Some(Web(Some(b))));
    ExtractLinksCons(cb, []);
    ExtractLinksCons(ca, [cb]);
    ExtractLinksCons(ca, [ca, cb]);
    assert [ca] + [ca, cb] == [ca, ca, cb];
    assert ExtractLinks([ca, ca, cb]) == [a, a, b];
    SetFromRepeat(a, b);
  }

  /** `[...new Set([a, a, b])]` is `[a, b]`. */
  lemma SetFromRepeat(a: string, b: string)
    requires a != b
    ensures SetFrom([a, a, b]) == [a, b]
  {
    assert [a][..0] == [];
    assert SetFrom([a]) == [a];
    assert [a, a][..1] == [a];
    assert SetFrom([a, a]) == [a];
    assert [a, a, b][..2] == [a, a];
    assert SetFrom([a, a, b]) == SetAdd([a], b);
  }

  /** A failed search still shows a non-empty message, and no links. */
  lemma SearchErrorShowsMessage()
    ensures GetGroundingResources(Threw).text != []
    ensures GetGroundingResources(Threw).links == []
  {
  }

  /** The response carries `candidates[0].content.parts[0].inlineData`. */
  predicate HasInlineAudio(response: Response) {
    && response.candidates.Some? && response.candidates.value != []
    && response.candidates.value[0].content.Some?
    && response.candidates.value[0].content.value.parts.Some?
    && response.candidates.value[0].content.value.parts.value != []
    && response.candidates.value[0].content.value.parts.value[0].inlineData.Some?
  }

  /**
   * `generateSpeech`: `candidates[0].content.parts[0].inlineData.data` when
   * that path exists, otherwise `undefined`, and `undefined` on error.
   */
  function GenerateSpeech(outcome: Outcome): (audio: Option<string>)
    ensures outcome.Threw? ==> audio.None?
    ensures outcome.Returned? && !HasInlineAudio(outcome.response) ==> audio.None?
    ensures outcome.Returned? && HasInlineAudio(outcome.response) ==>
              audio == outcome.response.candidates.value[0].content.value.parts.value[0].inlineData.value.data
  {
    match outcome
    case Threw => None
    case Returned(response) =>
      if response.candidates.None? || response.candidates.value == [] then None
      else
        var first := response.candidates.value[0];
        if first.content.None? || first.content.value.parts.None? || first.content.value.parts.value == [] then None
        else
          var part := first.content.value.parts.value[0];
          if part.inlineData.None? then None else part.inlineData.value.data
  }
}

/** The side-effect-free steps of workspace-chatbot.js: the calls to the embedding and language
    models seen through their replies, label parsing, the intent switch, the relevance floor,
    `buildPrompt` and `cleanResponse`. */
module Pipeline {
  import opened Wrappers
  import opened JsText
  import opened Config
  import opened VectorStore

  // ---------------------------------------------------------------- the two remote models

  /** What the embedding endpoint gives back for a text: no answer at all, or a body that may
      lack the `embedding` field. */
  datatype EmbedReply = EmbedUnreachable(error: string) | EmbedBody(embedding: Option<Embedding>)

  /** What the generation endpoint gives back for a prompt: no answer at all, or a body that may
      lack the `response` field. */
  datatype LlmReply = LlmUnreachable(error: string) | LlmBody(response: Option<string>)

  const NoEmbedding: string := "Ollama에서 유효한 임베딩을 받지 못했습니다."
  const NoResponseField: string := "TypeError: Cannot read properties of undefined (reading 'trim')"

  /** `getEmbedding`: the embedding, or the error it throws. */
  function EmbeddingOf(reply: EmbedReply): (r: Result<Embedding>)
    ensures r.Ok? <==> reply.EmbedBody? && reply.embedding.Some?
    ensures r.Ok? ==> r.value == reply.embedding.value
    ensures reply == EmbedBody(None) ==> r == Err(NoEmbedding)
  {
    match reply
    case EmbedUnreachable(e) => Err(e)
    case EmbedBody(None) => Err(NoEmbedding)
    case EmbedBody(Some(v)) => Ok(v)
  }

  /** `queryLlama`: the generated text with white space trimmed, or the error it throws. */
  function LlmText(reply: LlmReply): (r: Result<string>)
    ensures r.Ok? <==> reply.LlmBody? && reply.response.Some?
    ensures r.Ok? ==> r.value == Trim(reply.response.value)
    ensures r.Ok? && r.value != [] ==> !IsSpace(r.value[0]) && !IsSpace(r.value[|r.value| - 1])
  {
    match reply
    case LlmUnreachable(e) => Err(e)
    case LlmBody(None) => Err(NoResponseField)
    case LlmBody(Some(text)) => Ok(Trim(text))
  }

  // ---------------------------------------------------------------- intent classification

  const ClassificationInstructions: string :=
    "\n" +
    "[시스템 지침]\n" +
    "당신은 사용자의 질문을 분석하여 가장 적절한 카테리로 분류하는 AI 분류기입니다.\n" +
    "당신의 임무는 아래에 정의된 카테고리 중 **하나만** 골라 답변하는 것입니다. 다른 설명은 절대 추가하지 마세요.\n" +
    "\n" +
    "[카테고리 정의]\n" +
    "- GREETING: 간단한 인사말 (안녕, 하이 등)\n" +
    "- LOCATION: 위치, 주소, 지점, 찾아가는 길 관련 질문\n" +
    "- PRICE: 가격, 요금, 비용, 월세 관련 질문\n" +
    "- FACILITY: 시설, 회의실, 스튜디오, 헬스장 등 공간 관련 질문\n" +
    "- SERVICE: 제공하는 서비스, 혜택, 네트워킹, 지원 프로그램 관련 질문\n" +
    "- RESERVATION: 예약, 이용 시간, 결제 방법 관련 질문\n" +
    "- CONTACT: 연락처, 전화번호, 문의 방법 관련 질문\n" +
    "- COMPANY_INFO: 마이워크스페이스라는 회사 자체에 대한 질문\n" +
    "- OFF_TOPIC: 위 카테고리에 모두 해당하지 않는, 공유오피스와 관련 없는 모든 질문 (예: 날씨, 음식, 스포츠, 잡담 등)\n" +
    "\n" +
    "[사용자 질문]\n" +
    "\""

  const ClassificationTail: string := "\"\n\n[분류 결과]\n카테고리:"

  /** The classification prompt: the question quoted verbatim between the instructions and the
      closing lines that ask for the category. */
  function ClassificationPrompt(instructions: string, question: string): (p: string)
    ensures |p| == |instructions| + |question| + |ClassificationTail|
    ensures p[..|instructions|] == instructions
    ensures p[|instructions|..|instructions| + |question|] == question
    ensures p[|instructions| + |question|..] == ClassificationTail
  {
    instructions + question + ClassificationTail
  }

  const LabelPrefix: string := "카테고리:"
  const OffTopic: string := "OFF_TOPIC"

  /** The label `classifyQueryWithLLM` extracts from the model's reply: the first `카테고리:`
      removed, white space trimmed, upper-cased; any failure of the call reads as `OFF_TOPIC`. */
  function ParseLabel(reply: Result<string>): (name: string)
    ensures reply.Err? ==> name == OffTopic
    ensures HasNoLowerAscii(name)
    ensures reply.Ok? ==> |name| <= |reply.value|
  {
    match reply
    case Err(_) => OffTopic
    case Ok(text) =>
      var t := Trim(Replace(text, LabelPrefix, ""));
      UpperCaseKeepsSpaces(t);
      ReplaceNotLonger(text, LabelPrefix);
      TrimNotLonger(Replace(text, LabelPrefix, ""));
      ToUpperCase(t)
  }

  lemma ReplaceNotLonger(text: string, pat: string)
    ensures |Replace(text, pat, "")| <= |text|
  {
  }

  lemma TrimNotLonger(s: string)
    ensures |Trim(s)| <= |s|
  {
  }

  /** The label has no white space at either end. */
  lemma ParsedLabelIsTrimmed(reply: Result<string>)
    ensures var l := ParseLabel(reply); l != [] ==> !IsSpace(l[0]) && !IsSpace(l[|l| - 1])
  {
    if reply.Ok? {
      var t := Trim(Replace(reply.value, LabelPrefix, ""));
      UpperCaseKeepsSpaces(t);
    } else {
      assert OffTopic[0] == 'O' && OffTopic[|OffTopic| - 1] == 'C';
    }
  }

  /** A reply that already is a label (no `카` in it, no lower-case letter, trimmed) reads as
      that label. */
  lemma LabelOfPlainReply(category: string)
    requires '카' !in category && HasNoLowerAscii(category) && Trim(category) == category
    ensures ParseLabel(Ok(category)) == category
  {
    assert LabelPrefix[0] == '카';
    MissingFirstChar(category, LabelPrefix);
    UpperCaseOfUpper(category);
  }

  /** The `카테고리:` prefix and the white space after it are dropped from such a label. */
  lemma LabelAfterPrefix(category: string, gap: string)
    requires HasNoLowerAscii(category) && Trim(category) == category && AllSpaces(gap)
    ensures ParseLabel(Ok(LabelPrefix + (gap + category))) == category
  {
    var text := LabelPrefix + (gap + category);
    ReplaceAtStart(LabelPrefix, "", gap + category);
    assert "" + (gap + category) == gap + category;
    TrimAfterSpaces(gap, category);
    UpperCaseOfUpper(category);
    ParseLabelOfText(text);
  }

  lemma ParseLabelOfText(text: string)
    ensures forall i: nat :: FirstOccurrence(text, LabelPrefix, i) ==>
              ParseLabel(Ok(text)) == ToUpperCase(Trim(text[..i] + text[i + |LabelPrefix|..]))
    ensures !Includes(text, LabelPrefix) ==> ParseLabel(Ok(text)) == ToUpperCase(Trim(text))
  {
    forall i: nat | FirstOccurrence(text, LabelPrefix, i)
      ensures ParseLabel(Ok(text)) == ToUpperCase(Trim(text[..i] + text[i + |LabelPrefix|..]))
    {
      ReplaceFirst(text, LabelPrefix, "", i);
      assert text[..i] + "" == text[..i];
    }
  }

  /** A pattern whose first character does not occur in `s` is not in `s`. */
  lemma MissingFirstChar(s: string, pat: string)
    requires |pat| > 0 && pat[0] !in s
    ensures !Includes(s, pat)
  {
    forall k | 0 <= k && k + |pat| <= |s| ensures !OccursAt(s, pat, k) {
      assert s[k..k + |pat|][0] == s[k];
    }
  }

  /** Leading white space is skipped by `trimStart`. */
  lemma {:induction false} TrimStartAfterSpaces(gap: string, s: string)
    requires AllSpaces(gap)
    ensures TrimStart(gap + s) == TrimStart(s)
    decreases |gap|
  {
    if gap == [] {
      assert gap + s == s;
    } else {
      assert (gap + s)[0] == gap[0];
      assert (gap + s)[1..] == gap[1..] + s;
      assert AllSpaces(gap[1..]) by {
        assert forall k :: 0 <= k < |gap[1..]| ==> gap[1..][k] == gap[k + 1];
      }
      TrimStartAfterSpaces(gap[1..], s);
    }
  }

  /** Leading white space is dropped from a trimmed string. */
  lemma TrimAfterSpaces(gap: string, s: string)
    requires AllSpaces(gap) && Trim(s) == s
    ensures Trim(gap + s) == s
  {
    TrimStartAfterSpaces(gap, s);
    assert s != [] ==> !IsSpace(s[0]);
  }

  /** The seven labels that take the retrieval path. */
  const BusinessLabels: seq<string> :=
    ["LOCATION", "PRICE", "FACILITY", "SERVICE", "RESERVATION", "CONTACT", "COMPANY_INFO"]

  const GreetingLabel: string := "GREETING"

  datatype Route = Retrieve | Greet | Refuse

  /** The `switch (intent)` of `generateResponse`. */
  function RouteOf(name: string): (r: Route)
    ensures r == Retrieve <==> name in BusinessLabels
    ensures r == Greet <==> name == GreetingLabel
    ensures r == Refuse <==> name !in BusinessLabels && name != GreetingLabel
  {
    if name in BusinessLabels then Retrieve
    else if name == GreetingLabel then Greet
    else Refuse
  }

  /** A failed classification call never triggers retrieval. */
  lemma FailureIsRefused(error: string)
    ensures RouteOf(ParseLabel(Err(error))) == Refuse
  {
  }

  // ---------------------------------------------------------------- grounding context

  const RelevanceFloor: real := 0.4
  const ContextSeparator: string := "\n\n---\n\n"

  /** `filter(chunk => chunk.similarity >= 0.4)`, in ranked order. */
  function Kept(results: seq<SimilarityResult>): (r: seq<SimilarityResult>)
    ensures |r| <= |results|
    ensures forall i :: 0 <= i < |r| ==> r[i].similarity >= RelevanceFloor && r[i] in results
    ensures forall x :: x in results && x.similarity >= RelevanceFloor ==> x in r
    decreases |results|
  {
    if results == [] then []
    else if results[0].similarity >= RelevanceFloor then [results[0]] + Kept(results[1..])
    else Kept(results[1..])
  }

  /** Filtering keeps the order: the kept results of a concatenation are the kept results of
      each part, back to back. */
  lemma {:induction false} KeptConcat(a: seq<SimilarityResult>, b: seq<SimilarityResult>)
    ensures Kept(a + b) == Kept(a) + Kept(b)
    decreases |a|
  {
    if a == [] {
      assert a + b == b;
    } else {
      assert (a + b)[0] == a[0] && (a + b)[1..] == a[1..] + b;
      KeptConcat(a[1..], b);
    }
  }

  function Contents(results: seq<SimilarityResult>): (r: seq<string>)
    ensures |r| == |results| && forall i :: 0 <= i < |r| ==> r[i] == results[i].content
  {
    seq(|results|, i requires 0 <= i < |results| => results[i].content)
  }

  /** The grounding context: the contents of the kept results joined by the separator. It is
      empty when nothing reaches the floor, and otherwise only when a single empty text does. */
  function RelevantContext(results: seq<SimilarityResult>): (context: string)
    ensures (forall i :: 0 <= i < |results| ==> results[i].similarity < RelevanceFloor) ==> context == ""
    ensures context == "" <==> Kept(results) == [] || (|Kept(results)| == 1 && Kept(results)[0].content == "")
  {
    var context := Join(Contents(Kept(results)), ContextSeparator);
    JoinIsEmpty(Contents(Kept(results)), ContextSeparator);
    assert (forall i :: 0 <= i < |results| ==> results[i].similarity < RelevanceFloor) ==> context == "" by {
      if forall i :: 0 <= i < |results| ==> results[i].similarity < RelevanceFloor {
        NothingKept(results);
      }
    }
    context
  }

  /** One step of the filter. */
  lemma KeptCons(x: SimilarityResult, rest: seq<SimilarityResult>)
    ensures Kept([x] + rest) == if x.similarity >= RelevanceFloor then [x] + Kept(rest) else Kept(rest)
  {
    assert ([x] + rest)[1..] == rest;
  }

  /** When no result reaches the floor nothing is kept. */
  lemma {:induction false} NothingKept(results: seq<SimilarityResult>)
    requires forall i :: 0 <= i < |results| ==> results[i].similarity < RelevanceFloor
    ensures Kept(results) == []
    decreases |results|
  {
    if results != [] {
      assert forall i :: 0 <= i < |results[1..]| ==> results[1..][i] == results[i + 1];
      NothingKept(results[1..]);
    }
  }

  /** Two results at or above the floor followed by any below it: the context is the two
      contents around the separator. */
  lemma TwoRelevant(r0: SimilarityResult, r1: SimilarityResult, rest: seq<SimilarityResult>)
    requires r0.similarity >= RelevanceFloor && r1.similarity >= RelevanceFloor
    requires forall i :: 0 <= i < |rest| ==> rest[i].similarity < RelevanceFloor
    ensures RelevantContext([r0, r1] + rest) == r0.content + ContextSeparator + r1.content
  {
    NothingKept(rest);
    KeptCons(r1, rest);
    KeptCons(r0, [r1] + rest);
    assert [r0] + ([r1] + rest) == [r0, r1] + rest;
    assert [r0] + ([r1] + []) == [r0, r1];
    assert Contents([r0, r1]) == [r0.content, r1.content];
    JoinTwo(r0.content, r1.content, ContextSeparator);
  }

  /** With similarities 0.6, 0.5, 0.3, 0.2, 0.1 the first two are kept, in order. */
  lemma FloorExample(c: seq<string>, m: Document)
    requires |c| == 5
    ensures RelevantContext([SimilarityResult(c[0], m, 0.6), SimilarityResult(c[1], m, 0.5),
                             SimilarityResult(c[2], m, 0.3), SimilarityResult(c[3], m, 0.2),
                             SimilarityResult(c[4], m, 0.1)]) == c[0] + ContextSeparator + c[1]
  {
    var r0, r1, r2, r3, r4 := SimilarityResult(c[0], m, 0.6), SimilarityResult(c[1], m, 0.5),
                              SimilarityResult(c[2], m, 0.3), SimilarityResult(c[3], m, 0.2),
                              SimilarityResult(c[4], m, 0.1);
    TwoRelevant(r0, r1, [r2, r3, r4]);
    assert [r0, r1] + [r2, r3, r4] == [r0, r1, r2, r3, r4];
  }

  lemma JoinTwo(a: string, b: string, sep: string)
    ensures Join([a, b], sep) == a + sep + b
  {
    assert [a, b][1..] == [b];
  }

  // ---------------------------------------------------------------- buildPrompt

  const MissingTemplate: string := "TypeError: Cannot read properties of undefined (reading 'replace')"

  const FallbackName: string := "noContextFallback"
  const GroundedName: string := "myworkspace"

  /** The template `buildPrompt` asks for: the no-context one when the context is empty or only
      white space, the grounded one otherwise. */
  function TemplateName(context: string): (name: string)
    ensures name == FallbackName <==> AllSpaces(context)
    ensures name == GroundedName <==> !AllSpaces(context)
  {
    TrimBlank(context);
    if context == "" || |Trim(context)| == 0 then FallbackName else GroundedName
  }

  /** `buildPrompt(userQuestion, context)` over the configuration's template table: the chosen
      template with its first `{context}` and then its first `{question}` replaced. An absent
      template is `undefined`, and calling `replace` on it throws. */
  function BuildPrompt(templates: map<string, string>, question: string, context: string): (r: Result<string>)
    ensures r.Err? <==> TemplateName(context) !in templates
    ensures r.Err? ==> r.message == MissingTemplate
  {
    var name := TemplateName(context);
    if name !in templates then Err(MissingTemplate)
    else Ok(Replace(Replace(templates[name], ContextPlaceholder, context), QuestionPlaceholder, question))
  }

  /** Filling a template `head {context} middle {question} tail` whose head and middle have no
      `{`, with a context without `{` and texts without `$`, puts the two texts in place. */
  lemma FillTemplate(head: string, middle: string, tail: string, question: string, context: string)
    requires '{' !in head && '{' !in middle && '{' !in context && '$' !in context && '$' !in question
    ensures Replace(Replace(head + ContextPlaceholder + middle + QuestionPlaceholder + tail,
                            ContextPlaceholder, context), QuestionPlaceholder, question)
            == head + context + middle + question + tail
  {
    var rest := middle + QuestionPlaceholder + tail;
    assert ContextPlaceholder[0] == '{' && QuestionPlaceholder[0] == '{';
    assert head + ContextPlaceholder + middle + QuestionPlaceholder + tail == head + ContextPlaceholder + rest;
    ReplaceAfterClean(head, ContextPlaceholder, context, rest);
    var a := head + context + middle;
    assert head + context + rest == a + QuestionPlaceholder + tail;
    ReplaceAfterClean(a, QuestionPlaceholder, question, tail);
  }

  /** A blank context asks for the no-context template; a table without one makes it fail. */
  lemma BlankContextFails(templates: map<string, string>, question: string, context: string)
    requires AllSpaces(context) && FallbackName !in templates
    ensures BuildPrompt(templates, question, context) == Err(MissingTemplate)
  {
  }

  /** A context with a non-space character gets the grounded template with both texts in place. */
  lemma GroundedPrompt(templates: map<string, string>, head: string, middle: string, tail: string,
                       question: string, context: string)
    requires GroundedName in templates
    requires templates[GroundedName] == head + ContextPlaceholder + middle + QuestionPlaceholder + tail
    requires '{' !in head && '{' !in middle
    requires !AllSpaces(context) && '{' !in context && '$' !in context && '$' !in question
    ensures BuildPrompt(templates, question, context) == Ok(head + context + middle + question + tail)
  {
    FillTemplate(head, middle, tail, question, context);
  }

  /** Only the first `{question}` is replaced: when the context itself holds one, the question
      lands inside the context and the rest of the template, its own placeholder included, stays. */
  lemma QuestionPlaceholderInContext(head: string, rest: string, question: string, before: string, after: string)
    requires '{' !in head && '{' !in before && '$' !in before && '$' !in after && '$' !in question
    ensures Replace(Replace(head + ContextPlaceholder + rest, ContextPlaceholder, before + QuestionPlaceholder + after),
                    QuestionPlaceholder, question)
            == head + before + question + after + rest
  {
    var context := before + QuestionPlaceholder + after;
    assert ContextPlaceholder[0] == '{';
    assert '$' !in context;
    ReplaceAfterClean(head, ContextPlaceholder, context, rest);
    assert head + context + rest == (head + before) + QuestionPlaceholder + (after + rest);
    SecondReplaceInContext(head + before, after + rest, question);
    assert (head + before) + question + (after + rest) == head + before + question + after + rest;
  }

  lemma SecondReplaceInContext(a: string, b: string, question: string)
    requires '{' !in a && '$' !in question
    ensures Replace(a + QuestionPlaceholder + b, QuestionPlaceholder, question) == a + question + b
  {
    assert QuestionPlaceholder[0] == '{';
    ReplaceAfterClean(a, QuestionPlaceholder, question, b);
  }

  /** The configured table has no no-context template, so a blank context fails. */
  lemma ConfiguredBlankContext(question: string, context: string)
    requires AllSpaces(context)
    ensures BuildPrompt(PromptTemplates, question, context) == Err(MissingTemplate)
  {
    TemplateTable();
  }

  /** With the configured table any other context gets the grounded template. */
  lemma ConfiguredGroundedPrompt(question: string, context: string)
    requires !AllSpaces(context) && '{' !in context && '$' !in context && '$' !in question
    ensures BuildPrompt(PromptTemplates, question, context) ==
              Ok(TemplateHead + context + TemplateMiddle + question + TemplateTail)
  {
    TemplateTable();
    TemplateShape();
    GroundedPrompt(PromptTemplates, TemplateHead, TemplateMiddle, TemplateTail, question, context);
  }

  // ---------------------------------------------------------------- cleanResponse

  /** The three lead-in phrases `(안내|알려|말씀)드리겠습니다`. */
  const LeadIns: seq<string> := ["안내드리겠습니다", "알려드리겠습니다", "말씀드리겠습니다"]

  predicate LeadInAt(s: string, p: nat)
  {
    OccursAt(s, LeadIns[0], p) || OccursAt(s, LeadIns[1], p) || OccursAt(s, LeadIns[2], p)
  }

  /** Where the first line ends: the first line terminator, or the end of the text. */
  function FirstLineEnd(s: string): (e: nat)
    ensures e <= |s| && (e < |s| ==> IsLineTerminator(s[e]))
    ensures forall k :: 0 <= k < e ==> !IsLineTerminator(s[k])
    decreases |s|
  {
    if s == [] || IsLineTerminator(s[0]) then 0 else 1 + FirstLineEnd(s[1..])
  }

  /** The last position at or before `p` where a lead-in phrase starts. */
  function LastLeadIn(s: string, p: nat): (r: Option<nat>)
    ensures r.Some? ==> r.value <= p && LeadInAt(s, r.value)
    ensures r.Some? ==> forall q :: r.value < q <= p ==> !LeadInAt(s, q)
    ensures r.None? ==> forall q :: 0 <= q <= p ==> !LeadInAt(s, q)
    decreases p
  {
    if LeadInAt(s, p) then Some(p) else if p == 0 then None else LastLeadIn(s, p - 1)
  }

  /** `p` is where the last lead-in phrase of the first line starts. */
  predicate LastLeadInStart(s: string, p: nat)
  {
    p <= FirstLineEnd(s) && LeadInAt(s, p) && forall q :: p < q <= FirstLineEnd(s) ==> !LeadInAt(s, q)
  }

  /** A match of `\.?\s*` from `a` ends at `e`: past the full stop when there is one, then past
      every white-space character up to the next other character or the end. */
  predicate StopAndSpacesEnd(s: string, a: nat, e: nat)
  {
    var b := if a < |s| && s[a] == '.' then a + 1 else a;
    b <= e <= |s| && (forall k :: b <= k < e ==> IsSpace(s[k])) && (e < |s| ==> !IsSpace(s[e]))
  }

  /** Such an end is unique: the white space stops at the first other character. */
  lemma StopAndSpacesEndUnique(s: string, a: nat, e1: nat, e2: nat)
    requires StopAndSpacesEnd(s, a, e1) && StopAndSpacesEnd(s, a, e2)
    ensures e1 == e2
  {
  }

  /** Trimming the start of a suffix skips white space exactly up to the next other character. */
  lemma TrimStartOfSuffix(s: string, b: nat)
    requires b <= |s|
    ensures var e := |s| - |TrimStart(s[b..])|;
              b <= e <= |s| && (forall k :: b <= k < e ==> IsSpace(s[k])) && (e < |s| ==> !IsSpace(s[e]))
  {
    var t := s[b..];
    var rest := TrimStart(t);
    var e := |s| - |rest|;
    forall k | b <= k < e
      ensures IsSpace(s[k])
    {
      assert s[k] == t[k - b];
    }
    if e < |s| {
      assert s[e] == rest[0];
    }
  }

  /** Where the match of `^.*(안내|알려|말씀)드리겠습니다\.?\s*` ends, if there is one: `.*` is
      greedy and stops at the first line terminator, so the phrase is the last one that starts in
      the first line; an optional full stop and all the white space after it belong to the match. */
  function LeadInEnd(s: string): (e: Option<nat>)
    ensures e.None? <==> forall q :: 0 <= q <= FirstLineEnd(s) ==> !LeadInAt(s, q)
    ensures e.Some? ==> e.value <= |s| && (e.value < |s| ==> !IsSpace(s[e.value]))
    ensures forall p: nat :: LastLeadInStart(s, p) ==> e.Some? && StopAndSpacesEnd(s, p + 8, e.value)
  {
    match LastLeadIn(s, FirstLineEnd(s))
    case None => None
    case Some(p) =>
      LeadInFits(s, p);
      var e := StopAndSpacesFrom(s, p + 8);
      assert forall p': nat :: LastLeadInStart(s, p') ==> p' == p;
      Some(e)
  }

  /** Where the match of `\.?\s*` from `a` ends. */
  function StopAndSpacesFrom(s: string, a: nat): (e: nat)
    requires a <= |s|
    ensures StopAndSpacesEnd(s, a, e)
  {
    var b := if a < |s| && s[a] == '.' then a + 1 else a;
    TrimStartOfSuffix(s, b);
    |s| - |TrimStart(s[b..])|
  }

  /** A lead-in phrase is eight characters long and lies inside the text. */
  lemma LeadInFits(s: string, p: nat)
    requires LeadInAt(s, p)
    ensures p + 8 <= |s|
  {
    assert |LeadIns[0]| == 8 && |LeadIns[1]| == 8 && |LeadIns[2]| == 8;
  }

  predicate IsStar(c: char)
  {
    c == '*'
  }

  /** The reply after the lead-in match, or the whole reply when there is none. */
  function LeadInCut(response: string): (cut: string)
    ensures |cut| <= |response|
  {
    var e := LeadInEnd(response);
    if e.None? then response else response[e.value..]
  }

  /** `cleanResponse`: the lead-in sentence cut, white space trimmed, every asterisk removed. */
  function CleanResponse(response: string): (r: string)
    ensures '*' !in r
    ensures |r| <= |response|
  {
    var trimmed := Trim(LeadInCut(response));
    TrimNotLonger(LeadInCut(response));
    var r := Remove(trimmed, IsStar);
    assert forall k :: 0 <= k < |r| ==> !IsStar(r[k]);
    r
  }

  /** Without a lead-in phrase in the first line, only trimming and the asterisks remain. */
  lemma CleanWithoutLeadIn(response: string)
    requires forall q :: 0 <= q <= FirstLineEnd(response) ==> !LeadInAt(response, q)
    ensures CleanResponse(response) == Remove(Trim(response), IsStar)
  {
  }

  /** With a lead-in phrase starting at `p` as the last one of the first line, what is kept is
      the reply from the end of the match on: past the phrase, its optional full stop and the
      white space after them. */
  lemma CleanAfterLeadIn(response: string, p: nat, e: nat)
    requires LastLeadInStart(response, p) && StopAndSpacesEnd(response, p + 8, e)
    ensures CleanResponse(response) == Remove(Trim(response[e..]), IsStar)
  {
    StopAndSpacesEndUnique(response, p + 8, e, LeadInEnd(response).value);
  }

  /** A reply without asterisks, trimmed and without lead-in, is returned as it is. */
  lemma CleanIsIdentityOnPlainText(response: string)
    requires forall q :: 0 <= q <= FirstLineEnd(response) ==> !LeadInAt(response, q)
    requires Trim(response) == response && '*' !in response
    ensures CleanResponse(response) == response
  {
    RemoveNothing(response, IsStar);
  }
}

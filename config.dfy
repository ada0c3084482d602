/** The response configuration object of config.js: keyword tables, the prompt template table and
    the keyword classifier `analyzeQueryType`. */
module Config {
  import opened Wrappers
  import opened JsText

  /** One named keyword list inside a keyword object; a sequence of them keeps the insertion order
      that `Object.values` follows. */
  datatype KeywordTable = KeywordTable(name: string, keywords: seq<string>)

  const FoodWords: seq<string> := ["점심", "저녁", "아침", "메뉴", "음식", "식사", "맛집", "레시피", "배달"]
  const DailyLifeWords: seq<string> := ["날씨", "기온", "미세먼지", "교통", "수학", "계산", "환율"]
  const EntertainmentWords: seq<string> := ["영화", "드라마", "게임", "노래", "음악", "여행", "연예인", "스포츠"]
  const PersonalWords: seq<string> := ["너 누구야", "넌 누구니", "이름이 뭐야", "만든사람", "개발자"]
  const HelpWords: seq<string> := ["도움", "도와", "뭐", "무엇", "어떤", "알려", "가능", "할수있"]
  const EmotionWords: seq<string> := ["슬픔", "우울", "기쁨", "신남", "화남", "짜증남", "귀찮음", "재수없음", "행복", "흥분"]

  /** `strictlyIrrelevantKeywords`: note that the help words are one of its categories. */
  const StrictlyIrrelevantKeywords: seq<KeywordTable> := [
    KeywordTable("food", FoodWords),
    KeywordTable("dailyLife", DailyLifeWords),
    KeywordTable("entertainment", EntertainmentWords),
    KeywordTable("personal", PersonalWords),
    KeywordTable("helpKeywords", HelpWords),
    KeywordTable("emotion", EmotionWords)
  ]

  const LocationWords: seq<string> := ["위치", "주소", "어디", "강남역", "찾아가", "오시는길", "지점"]
  const PriceWords: seq<string> := ["가격", "비용", "요금", "얼마", "월세", "임대료"]
  const FacilityWords: seq<string> := ["시설", "공간", "스튜디오", "회의실", "강당", "헬스장"]
  const ServiceWords: seq<string> := ["서비스", "혜택", "네트워킹", "지원", "커피", "주차"]
  const ReservationWords: seq<string> := ["예약", "이용시간", "결제", "방법", "운영시간"]
  const ContactWords: seq<string> := ["연락처", "전화", "문의", "고객센터", "상담"]
  const GeneralWords: seq<string> := ["마이워크스페이스", "공유오피스"]

  /** `coreKeywords`, the business vocabulary. */
  const CoreKeywords: seq<KeywordTable> := [
    KeywordTable("location", LocationWords),
    KeywordTable("price", PriceWords),
    KeywordTable("facility", FacilityWords),
    KeywordTable("service", ServiceWords),
    KeywordTable("reservation", ReservationWords),
    KeywordTable("contact", ContactWords),
    KeywordTable("general", GeneralWords)
  ]

  const GreetingKeywords: seq<string> := ["안녕", "하세요", "하이", "헬로", "hello", "hi", "반가"]

  /** The list-valued properties the configuration object has at top level (`this.<name>`); the
      other top-level properties are objects. There is no top-level `helpKeywords`. */
  function OwnKeywordList(name: string): Option<seq<string>>
  {
    if name == "greetingKeywords" then Some(GreetingKeywords) else None
  }

  // ---------------------------------------------------------------- prompt templates

  const TemplateHead: string :=
    "[시스템 규칙]\n당신은 마이워크스페이스의 친절하고 " + "전문적인 AI 상담원입니다. 당신의 목표는 사람과 " +
    "대화하듯 자연스럽게 답변하는 것입니다.\n\n[제공된 " + "문서 정보]\n"

  const TemplateMiddle: string := "\n\n[사용자 질문]\n"

  const TemplateTail: string :=
    "\n" +
    " \n" +
    "[정보 처리 및 검증 절차 (Chain-of-Thought)]\n" +
    "1. [사용자 질문]의 핵심 의도를 파악합니다.\n" +
    "2. [제공된 문서 정보]가 질문의 핵심 의도에 직접적으로 답변할 수 있는 내용을 포함하는지 **반드시 검증합니다.** - (예: 사용자가 '시설'을 물었다면, 문서에 '스튜디오', '회의실', '헬스장' 등 구체적인 시설 목록이 포함되어 있는지 확인)\n" +
    "3. **검증 결과, 문서가 질문과 직접적인 관련이 있다고 판단될 경우에만** 해당 정보를 바탕으로 친절하고 자연스러운 답변을 생성합니다.\n" +
    "4. **만약 문서가 질문과 관련이 없다면 (예: '시설' 질문에 '주소' 정보만 있는 경우),** 절대 그 내용을 바탕으로 답변을 만들지 말고, 정확히 아래의 fallback 메시지만을 출력해야 합니다.\n" +
    "   > \"죄송하지만 문의하신 내용에 대한 정확한 정보를 찾지 못했습니다. 자세한 안내를 위해 02-1234-5678로 연락 주시겠어요?\"\n" +
    "5. '[문제 해결]:', '[추가 정보]:' 와 같이 대괄호([])를 사용하여 답변을 항목별로 나누거나 레이블을 붙이지 마세요.\n" +
    "[절대 금지 사항]\n" +
    "- 관련 없는 문서 내용을 짜깁기하여 답변하지 마세요.\n" +
    "- AI이거나 문서를 참조했다는 사실을 절대로 언급하지 마세요.\n" +
    "- '시설'과 관련된 질문에 '공간', '위치'에 대한 내용은 제공하지마세요\n" +
    "답변:"

  const ContextPlaceholder: string := "{context}"
  const QuestionPlaceholder: string := "{question}"

  /** `promptTemplates.myworkspace`, the grounded template. */
  const MyWorkspaceTemplate: string :=
    TemplateHead + ContextPlaceholder + TemplateMiddle + QuestionPlaceholder + TemplateTail

  /** `promptTemplates`: it defines the grounded template only. */
  const PromptTemplates: map<string, string> := map["myworkspace" := MyWorkspaceTemplate]

  lemma HeadHasNoBrace()
    ensures '{' !in TemplateHead
  {
    var p1, p2 := "[시스템 규칙]\n당신은 마이워크스페이스의 친절하고 ", "전문적인 AI 상담원입니다. 당신의 목표는 사람과 ";
    var p3, p4 := "대화하듯 자연스럽게 답변하는 것입니다.\n\n[제공된 ", "문서 정보]\n";
    assert TemplateHead == p1 + p2 + p3 + p4;
    assert '{' !in p1;
    assert '{' !in p2;
    assert '{' !in p3;
    assert '{' !in p4;
  }

  /** The grounded template has its context placeholder after a stretch without any `{`, and its
      question placeholder after another. */
  lemma TemplateShape()
    ensures '{' !in TemplateHead && '{' !in TemplateMiddle
  {
    HeadHasNoBrace();
  }

  /** The template table has the grounded template and no entry named `noContextFallback`. */
  lemma TemplateTable()
    ensures "myworkspace" in PromptTemplates && PromptTemplates["myworkspace"] == MyWorkspaceTemplate
    ensures "noContextFallback" !in PromptTemplates
  {
  }

  // ---------------------------------------------------------------- the keyword classifier

  /** `Object.values(tables).flat()`. */
  function Flat(tables: seq<KeywordTable>): seq<string>
    decreases |tables|
  {
    if tables == [] then [] else tables[0].keywords + Flat(tables[1..])
  }

  /** Some keyword of `keys` is a substring of `s`. */
  ghost predicate Mentions(s: string, keys: seq<string>)
  {
    exists i :: 0 <= i < |keys| && Includes(s, keys[i])
  }

  /** `keys.some(k => s.includes(k))`. */
  function AnyIncluded(s: string, keys: seq<string>): (b: bool)
    ensures b <==> Mentions(s, keys)
    decreases |keys|
  {
    if |keys| == 0 then false
    else if Includes(s, keys[0]) then true
    else
      var b := AnyIncluded(s, keys[1..]);
      assert Mentions(s, keys) ==> Mentions(s, keys[1..]) by {
        if Mentions(s, keys) {
          var i :| 0 <= i < |keys| && Includes(s, keys[i]);
          assert i > 0 && keys[1..][i - 1] == keys[i];
        }
      }
      b
  }

  /** `query.toLowerCase().replace(/\s+/g, '')`: no white space and no ASCII capital is left. */
  function Normalize(query: string): (q: string)
    ensures NoSpaces(q) && HasNoUpperAscii(q)
    ensures |q| <= |query|
  {
    var lower := ToLowerCase(query);
    assert HasNoUpperAscii(lower);
    Remove(lower, IsSpace)
  }

  datatype QueryType = Greeting | StrictlyIrrelevant | SpecificQuestion | Help | GeneralQuestion

  /** The greeting test: a greeting word in the normalised query, and the query as typed is short. */
  ghost predicate GreetingMatch(query: string)
  {
    Mentions(Normalize(query), GreetingKeywords) && Utf16Length(query) < 10
  }

  ghost predicate IrrelevantMatch(query: string)
  {
    Mentions(Normalize(query), Flat(StrictlyIrrelevantKeywords))
  }

  ghost predicate CoreMatch(query: string)
  {
    Mentions(Normalize(query), Flat(CoreKeywords))
  }

  const UndefinedSomeError: string := "TypeError: Cannot read properties of undefined (reading 'some')"

  /** `analyzeQueryType` as written: greeting, then strictly irrelevant, then core keywords, first
      match wins; a query that matches none reaches `this.helpKeywords.some`, which throws because
      that property does not exist, so neither `help` nor `general_question` is ever returned. */
  function AnalyzeQueryType(query: string): (r: Result<QueryType>)
    ensures r == Ok(Greeting) <==> GreetingMatch(query)
    ensures r == Ok(StrictlyIrrelevant) <==> !GreetingMatch(query) && IrrelevantMatch(query)
    ensures r == Ok(SpecificQuestion) <==> !GreetingMatch(query) && !IrrelevantMatch(query) && CoreMatch(query)
    ensures r.Err? <==> !GreetingMatch(query) && !IrrelevantMatch(query) && !CoreMatch(query)
    ensures r != Ok(Help) && r != Ok(GeneralQuestion)
    ensures r.Err? ==> r.message == UndefinedSomeError
  {
    var q := Normalize(query);
    if AnyIncluded(q, GreetingKeywords) && Utf16Length(query) < 10 then Ok(Greeting)
    else if AnyIncluded(q, Flat(StrictlyIrrelevantKeywords)) then Ok(StrictlyIrrelevant)
    else if AnyIncluded(q, Flat(CoreKeywords)) then Ok(SpecificQuestion)
    else
      match OwnKeywordList("helpKeywords")
      case None => Err(UndefinedSomeError)
      case Some(help) => if AnyIncluded(q, help) then Ok(Help) else Ok(GeneralQuestion)
  }

  /** Only the normalised query and whether the typed query is shorter than ten characters
      matter: the keyword tests all run on the normalised text. */
  lemma NormalisedQueriesAgree(q1: string, q2: string)
    requires Normalize(q1) == Normalize(q2)
    requires Utf16Length(q1) < 10 <==> Utf16Length(q2) < 10
    ensures AnalyzeQueryType(q1) == AnalyzeQueryType(q2)
  {
  }

  lemma {:induction false} RemoveConcat(a: string, b: string, drop: char -> bool)
    ensures Remove(a + b, drop) == Remove(a, drop) + Remove(b, drop)
    decreases |a|
  {
    if a == [] {
      assert a + b == b;
    } else {
      var x := if drop(a[0]) then [] else [a[0]];
      assert (a + b)[0] == a[0] && (a + b)[1..] == a[1..] + b;
      RemoveConcat(a[1..], b, drop);
      calc {
        Remove(a + b, drop);
        x + Remove(a[1..] + b, drop);
        x + (Remove(a[1..], drop) + Remove(b, drop));
        (x + Remove(a[1..], drop)) + Remove(b, drop);
      }
    }
  }

  /** Keyword tests are substring tests, and the help words count as irrelevant: a query that is
      not a greeting and mentions a help word is refused whatever else it mentions. */
  lemma HelpWordIsRefused(query: string)
    requires !GreetingMatch(query) && Mentions(Normalize(query), HelpWords)
    ensures AnalyzeQueryType(query) == Ok(StrictlyIrrelevant)
  {
    IrrelevantSplitsIntoHelp(Normalize(query));
  }

  /** Normalising leaves a query without ASCII capitals or white space as it is. */
  lemma NormalizePlain(query: string)
    requires HasNoUpperAscii(query) && NoSpaces(query)
    ensures Normalize(query) == query
  {
    LowerCaseOfLower(query);
    RemoveNothing(query, IsSpace);
  }

  /** Normalising twice is normalising once. */
  lemma NormalizeIdempotent(query: string)
    ensures Normalize(Normalize(query)) == Normalize(query)
  {
    NormalizePlain(Normalize(query));
  }

  /** No white space is left in a normalised query, so no keyword with a space in it is found. */
  lemma NoSpacedKeyword(s: string, word: string, j: nat)
    requires NoSpaces(s) && j < |word| && IsSpace(word[j])
    ensures !Includes(s, word)
  {
  }

  /** The first three personal phrases are written with a space, so no query ever matches them. */
  lemma SpacedPersonalWordsNeverMatch(query: string)
    ensures forall i :: 0 <= i < 3 ==> !Includes(Normalize(query), PersonalWords[i])
  {
    var q := Normalize(query);
    NoSpacedKeyword(q, PersonalWords[0], 1);
    NoSpacedKeyword(q, PersonalWords[1], 1);
    NoSpacedKeyword(q, PersonalWords[2], 3);
  }

  /** The parking question, with its white space removed. */
  lemma ParkingQuestionNormalized()
    ensures Normalize("주차가능한지점이있나요?") == "주차" + "가능" + "한지점이있나요?"
  {
    var a, w, b := "주차", "가능", "한지점이있나요?";
    assert HasNoUpperAscii(a + w + b) && NoSpaces(a + w + b);
    NormalizePlain(a + w + b);
    assert a + w + b == "주차가능한지점이있나요?";
  }

  /** A long question about parking mentions 가능 (inside 가능한) and is refused before the core
      keyword 주차 is looked at. */
  lemma ParkingQuestionIsIrrelevant()
    ensures AnalyzeQueryType("주차가능한지점이있나요?") == Ok(StrictlyIrrelevant)
  {
    ParkingQuestionNormalized();
    IncludesConcat("주차", "가능", "한지점이있나요?");
    assert HelpWords[6] == "가능";
    HelpWordIsRefused("주차가능한지점이있나요?");
  }

  /** Only the empty keyword is a substring of the empty query. */
  lemma IncludesInEmpty(k: string)
    requires Includes("", k)
    ensures k == ""
  {
    assert OccursAt("", k, IndexOf("", k).value);
  }

  lemma FlatIrrelevant()
    ensures Flat(StrictlyIrrelevantKeywords) ==
              FoodWords + DailyLifeWords + EntertainmentWords + PersonalWords + HelpWords + EmotionWords
  {
    var t := StrictlyIrrelevantKeywords;
    assert Flat(t[5..]) == EmotionWords + Flat(t[6..]);
    assert Flat(t[4..]) == HelpWords + Flat(t[5..]);
    assert Flat(t[3..]) == PersonalWords + Flat(t[4..]);
    assert Flat(t[2..]) == EntertainmentWords + Flat(t[3..]);
    assert Flat(t[1..]) == DailyLifeWords + Flat(t[2..]);
  }

  lemma FlatCore()
    ensures Flat(CoreKeywords) ==
              LocationWords + PriceWords + FacilityWords + ServiceWords + ReservationWords + ContactWords + GeneralWords
  {
    var t := CoreKeywords;
    assert Flat(t[6..]) == GeneralWords + Flat(t[7..]);
    assert Flat(t[5..]) == ContactWords + Flat(t[6..]);
    assert Flat(t[4..]) == ReservationWords + Flat(t[5..]);
    assert Flat(t[3..]) == ServiceWords + Flat(t[4..]);
    assert Flat(t[2..]) == FacilityWords + Flat(t[3..]);
    assert Flat(t[1..]) == PriceWords + Flat(t[2..]);
  }

  /** Every keyword of `keys` has at least one character. */
  predicate NonEmptyWords(keys: seq<string>)
  {
    forall i :: 0 <= i < |keys| ==> keys[i] != []
  }

  lemma NonEmptyIrrelevantWords()
    ensures NonEmptyWords(FoodWords) && NonEmptyWords(DailyLifeWords) && NonEmptyWords(EntertainmentWords)
    ensures NonEmptyWords(PersonalWords) && NonEmptyWords(HelpWords) && NonEmptyWords(EmotionWords)
  {
  }

  lemma NonEmptyCoreWords()
    ensures NonEmptyWords(LocationWords) && NonEmptyWords(PriceWords) && NonEmptyWords(FacilityWords)
    ensures NonEmptyWords(ServiceWords) && NonEmptyWords(ReservationWords) && NonEmptyWords(ContactWords)
    ensures NonEmptyWords(GeneralWords) && NonEmptyWords(GreetingKeywords)
  {
  }

  lemma NonEmptyConcat(a: seq<string>, b: seq<string>)
    requires NonEmptyWords(a) && NonEmptyWords(b)
    ensures NonEmptyWords(a + b)
  {
    forall i | 0 <= i < |a + b| ensures (a + b)[i] != [] {
      if i >= |a| { assert (a + b)[i] == b[i - |a|]; }
    }
  }

  /** No keyword table holds the empty string, which every string includes. */
  lemma NoEmptyKeyword()
    ensures NonEmptyWords(Flat(StrictlyIrrelevantKeywords)) && NonEmptyWords(Flat(CoreKeywords))
    ensures NonEmptyWords(GreetingKeywords)
  {
    FlatIrrelevant();
    FlatCore();
    NonEmptyIrrelevantWords();
    NonEmptyCoreWords();
    NonEmptyConcat(FoodWords, DailyLifeWords);
    NonEmptyConcat(FoodWords + DailyLifeWords, EntertainmentWords);
    NonEmptyConcat(FoodWords + DailyLifeWords + EntertainmentWords, PersonalWords);
    NonEmptyConcat(FoodWords + DailyLifeWords + EntertainmentWords + PersonalWords, HelpWords);
    NonEmptyConcat(FoodWords + DailyLifeWords + EntertainmentWords + PersonalWords + HelpWords, EmotionWords);
    NonEmptyConcat(LocationWords, PriceWords);
    NonEmptyConcat(LocationWords + PriceWords, FacilityWords);
    NonEmptyConcat(LocationWords + PriceWords + FacilityWords, ServiceWords);
    NonEmptyConcat(LocationWords + PriceWords + FacilityWords + ServiceWords, ReservationWords);
    NonEmptyConcat(LocationWords + PriceWords + FacilityWords + ServiceWords + ReservationWords, ContactWords);
    NonEmptyConcat(LocationWords + PriceWords + FacilityWords + ServiceWords + ReservationWords + ContactWords,
                   GeneralWords);
  }

  /** The empty query mentions no keyword of a list without the empty keyword. */
  lemma EmptyMentionsNothing(keys: seq<string>)
    requires NonEmptyWords(keys)
    ensures !Mentions("", keys)
  {
    forall i | 0 <= i < |keys| ensures !Includes("", keys[i]) {
      if Includes("", keys[i]) { IncludesInEmpty(keys[i]); }
    }
  }

  /** The empty query matches no table, so it makes the classifier throw. */
  lemma EmptyQueryThrows()
    ensures AnalyzeQueryType("") == Err(UndefinedSomeError)
  {
    assert Normalize("") == "";
    NoEmptyKeyword();
    EmptyMentionsNothing(GreetingKeywords);
    EmptyMentionsNothing(Flat(StrictlyIrrelevantKeywords));
    EmptyMentionsNothing(Flat(CoreKeywords));
  }

  // ---------------------------------------------------------------- the classifier as intended

  /** The irrelevant categories without the help words, which become a top-level list. */
  const IntendedIrrelevantKeywords: seq<KeywordTable> := StrictlyIrrelevantKeywords[..4] + StrictlyIrrelevantKeywords[5..]

  /** `analyzeQueryType` with `this.helpKeywords` defined as the help words and those words taken
      out of the irrelevant categories: it never throws, and its last two branches are reachable. */
  function AnalyzeQueryTypeIntended(query: string): (r: QueryType)
    ensures r == Greeting <==> GreetingMatch(query)
    ensures r == StrictlyIrrelevant <==>
              !GreetingMatch(query) && Mentions(Normalize(query), Flat(IntendedIrrelevantKeywords))
    ensures r == SpecificQuestion <==>
              !GreetingMatch(query) && !Mentions(Normalize(query), Flat(IntendedIrrelevantKeywords)) && CoreMatch(query)
    ensures r == Help <==>
              !GreetingMatch(query) && !Mentions(Normalize(query), Flat(IntendedIrrelevantKeywords)) && !CoreMatch(query)
              && Mentions(Normalize(query), HelpWords)
    ensures r == GeneralQuestion <==>
              !GreetingMatch(query) && !Mentions(Normalize(query), Flat(IntendedIrrelevantKeywords)) && !CoreMatch(query)
              && !Mentions(Normalize(query), HelpWords)
  {
    var q := Normalize(query);
    if AnyIncluded(q, GreetingKeywords) && Utf16Length(query) < 10 then Greeting
    else if AnyIncluded(q, Flat(IntendedIrrelevantKeywords)) then StrictlyIrrelevant
    else if AnyIncluded(q, Flat(CoreKeywords)) then SpecificQuestion
    else if AnyIncluded(q, HelpWords) then Help
    else GeneralQuestion
  }

  lemma {:induction false} FlatConcat(a: seq<KeywordTable>, b: seq<KeywordTable>)
    ensures Flat(a + b) == Flat(a) + Flat(b)
    decreases |a|
  {
    if a == [] {
      assert a + b == b;
    } else {
      assert (a + b)[0] == a[0] && (a + b)[1..] == a[1..] + b;
      FlatConcat(a[1..], b);
      calc {
        Flat(a + b);
        a[0].keywords + Flat(a[1..] + b);
        a[0].keywords + (Flat(a[1..]) + Flat(b));
        (a[0].keywords + Flat(a[1..])) + Flat(b);
      }
    }
  }

  lemma MentionsConcat(s: string, a: seq<string>, b: seq<string>)
    ensures Mentions(s, a + b) <==> Mentions(s, a) || Mentions(s, b)
  {
    if Mentions(s, a + b) {
      var i :| 0 <= i < |a + b| && Includes(s, (a + b)[i]);
      if i >= |a| { assert (a + b)[i] == b[i - |a|]; }
    }
    if Mentions(s, a) {
      var i :| 0 <= i < |a| && Includes(s, a[i]);
      assert (a + b)[i] == a[i];
    }
    if Mentions(s, b) {
      var i :| 0 <= i < |b| && Includes(s, b[i]);
      assert (a + b)[|a| + i] == b[i];
    }
  }

  /** The irrelevant test as written is the intended irrelevant test or a help-word test. */
  lemma IrrelevantSplitsIntoHelp(s: string)
    ensures Mentions(s, Flat(StrictlyIrrelevantKeywords)) <==>
              Mentions(s, Flat(IntendedIrrelevantKeywords)) || Mentions(s, HelpWords)
  {
    var t := StrictlyIrrelevantKeywords;
    assert t == t[..4] + [t[4]] + t[5..];
    FlatConcat(t[..4] + [t[4]], t[5..]);
    FlatConcat(t[..4], [t[4]]);
    FlatConcat(t[..4], t[5..]);
    assert Flat([t[4]]) == HelpWords;
    MentionsConcat(s, Flat(t[..4]) + HelpWords, Flat(t[5..]));
    MentionsConcat(s, Flat(t[..4]), HelpWords);
    MentionsConcat(s, Flat(t[..4]), Flat(t[5..]));
  }

  /** Where the written classifier returns, the intended one agrees, except that a help word now
      lets a query through to the core and help tests instead of being refused. */
  lemma IntendedAgreesWithoutHelpWords(query: string)
    requires AnalyzeQueryType(query).Ok?
    requires !Mentions(Normalize(query), HelpWords)
    ensures AnalyzeQueryTypeIntended(query) == AnalyzeQueryType(query).value
  {
    IrrelevantSplitsIntoHelp(Normalize(query));
  }

  /** The query that makes the written classifier throw is a general question for the intended one. */
  lemma EmptyQueryIsGeneralWhenIntended()
    ensures AnalyzeQueryTypeIntended("") == GeneralQuestion
  {
    assert Normalize("") == "";
    NoEmptyKeyword();
    NonEmptyIrrelevantWords();
    EmptyMentionsNothing(GreetingKeywords);
    EmptyMentionsNothing(Flat(StrictlyIrrelevantKeywords));
    EmptyMentionsNothing(Flat(CoreKeywords));
    EmptyMentionsNothing(HelpWords);
    IrrelevantSplitsIntoHelp("");
  }
}

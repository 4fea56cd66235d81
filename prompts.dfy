/**
 * The prompt builder of src/prompts.go: a system prompt chosen by the
 * question type, and a user prompt that lists the parsed vocabulary one
 * `word = m1, m2` line per entry.
 *
 * `SystemPrompt`, `PayloadLines` and `UserPrompt` are the specification;
 * `BuildPrompts` is the source's switch and loop, proved equal to it. The
 * main property is the round trip: the parser reads back, from the user
 * prompt, exactly the entries it was built from.
 */
module Prompts {
  import opened Wrappers
  import opened GoStrings
  import opened Parser

  // ---------------------------------------------------------------------
  // Question types and template text
  // ---------------------------------------------------------------------

  /** Fill in the blank: one question per sense, with context sentences. */
  const FillInBlank: string := "빈칸 추론"
  /** Pick the word from its English definition. */
  const EnglishDefinition: string := "영영풀이"
  /** Pick the right English definition of the word. */
  const DefinitionJudgement: string := "뜻풀이 판단"

  predicate KnownQuestionType(questionType: string) {
    questionType == FillInBlank || questionType == EnglishDefinition || questionType == DefinitionJudgement
  }

  /**
   * The fixed text of the three system-prompt templates, one field per
   * distinct line. The fill-in template's context-sentence rule is a `%d`
   * format; its two fixed halves are `sentenceCountHead` and
   * `sentenceCountTail`.
   */
  datatype TemplateText = TemplateText(
    // The rules every template shares.
    distributionRule: string, selfCorrectionRule: string,
    // Lines every template shares.
    role: string, strict: string, mainRuleHeading: string, styleHeading: string,
    priority: string, goal: string, answerHeading: string, answerKey: string,
    outputHeading: string, numberLine: string,
    // Lines of the fill-in-the-blank template.
    fillInTask: string, fillInMainRule: string, fillInTitle: string,
    sentenceCountHead: string, sentenceCountTail: string,
    fillInChoices: string, fillInDistractors: string, fillInSeparator: string,
    // Lines of the English-definition template.
    definitionTask: string, definitionMainRule: string, definitionTitle: string,
    definitionBody: string, definitionChoices: string, definitionSeparator: string,
    // Lines of the definition-judgement template.
    judgementTask: string, judgementMainRule: string, judgementTitle: string,
    judgementChoices: string, judgementSeparator: string)

  /**
   * The template text of src/prompts.go:9-91. `distributionRule` and
   * `selfCorrectionRule` are the two locals of src/prompts.go:9-10; long
   * lines are written as concatenated pieces, which spell the same strings.
   */
  const Templates: TemplateText :=
    TemplateText(
      distributionRule :=
        "2. CRITICAL: The position of the correct "
        + "answer MUST be truly and unpredictably "
        + "randomized to ensure a balanced "
        + "distribution. For the entire set of "
        + "questions, each choice position (①, ②, ③, "
        + "④, ⑤) should be the correct answer "
        + "approximately 20% of the time. DO NOT use "
        + "any discernible pattern (e.g., 1, 2, 3, 4, "
        + "5 or 5, 4, 3, 2, 1). The sequence of "
        + "correct answers must appear random and "
        + "chaotic.",
      selfCorrectionRule :=
        "### Final Review\nBefore concluding your "
        + "response, you MUST review the entire "
        + "generated text one last time to ensure "
        + "every single rule has been followed. Pay "
        + "special attention that every question has "
        + "exactly 5 numbered choices (① to ⑤). If you "
        + "find any mistake, you must correct it "
        + "before finishing.",
      role :=
        "You are an expert English vocabulary test "
        + "maker for Korean students.",
      strict :=
        "Strictly follow all rules below.",
      mainRuleHeading :=
        "### Main Rule",
      styleHeading :=
        "### Word Selection & Question Style Rule",
      priority :=
        "1. PRIORITY: Focus on polysemous "
        + "words—those with multiple, distinct "
        + "meanings (e.g., different parts of speech "
        + "like 'conduct' as a noun vs. verb, or "
        + "different senses like 'bank' of a river vs. "
        + "a financial institution).",
      goal :=
        "2. GOAL: The questions should be "
        + "intentionally challenging, designed to "
        + "confuse the test-taker and test their "
        + "ability to discern the correct meaning from "
        + "context.",
      answerHeading :=
        "### Answer Generation Rules",
      answerKey :=
        "1. CRITICAL: DO NOT mark the correct answer "
        + "in the choices. Instead, create a separate "
        + "`[정답]` section at the very end of the "
        + "entire output, listing each question number "
        + "and its correct choice number.",
      outputHeading :=
        "### Output Structure (per question)",
      numberLine :=
        "1. Start with the question number (e.g., "
        + "'1.').",
      fillInTask :=
        "Your task is to create multiple-choice "
        + "questions that test understanding of words "
        + "in context.",
      fillInMainRule :=
        "For each WORD and for each of its SENSEs, "
        + "you must generate a complete question block.",
      fillInTitle :=
        "2. Add the title: '다음 빈칸에 공통으로 들어갈 말로 가장 "
        + "적절한 것은?'",
      sentenceCountHead :=
        "3. Provide exactly ",
      sentenceCountTail :=
        " distinct English sentences as context. "
        + "Each sentence must have the word blanked "
        + "out as '_______'.",
      fillInChoices :=
        "4. Provide exactly 5 answer choices (①, ②, "
        + "③, ④, ⑤).",
      fillInDistractors :=
        "5. The choices must include one correct "
        + "answer (the original WORD) and four "
        + "plausible but incorrect distractors.",
      fillInSeparator :=
        "6. Separate each full question block with a "
        + "'---' line.",
      definitionTask :=
        "Your task is to create multiple-choice "
        + "questions based on English definitions.",
      definitionMainRule :=
        "For each WORD, you must generate one "
        + "complete multiple-choice question.",
      definitionTitle :=
        "2. Add the title: '다음 영어 설명에 해당하는 단어는?'",
      definitionBody :=
        "3. Provide the English definition of the "
        + "WORD as the question body.",
      definitionChoices :=
        "4. Provide exactly 5 answer choices (①, ②, "
        + "③, ④, ⑤): one correct answer (the original "
        + "WORD) and four plausible distractors (e.g., "
        + "synonyms, related words).",
      definitionSeparator :=
        "5. Separate each full question block with a "
        + "'---' line.",
      judgementTask :=
        "Your task is to create multiple-choice "
        + "questions that test the precise definition "
        + "of a word.",
      judgementMainRule :=
        "For each WORD, you must generate one "
        + "complete multiple-choice question asking "
        + "for its correct definition.",
      judgementTitle :=
        "2. Add the title: '다음 단어 <WORD>의 영영풀이로 가장 "
        + "적절한 것은?' (replace <WORD> with the actual "
        + "word).",
      judgementChoices :=
        "3. Provide exactly 5 definition choices (①, "
        + "②, ③, ④, ⑤): one perfectly correct "
        + "definition and four subtly incorrect but "
        + "plausible definitions.",
      judgementSeparator :=
        "4. Separate each full question block with a "
        + "'---' line.")

  /** `fmt.Sprintf` of the context-sentence rule of the fill-in template (src/prompts.go:34). */
  function SentenceCountLine(t: TemplateText, numSentences: int): string {
    t.sentenceCountHead + IntToString(numSentences) + t.sentenceCountTail
  }

  /** The fill-in-the-blank template (src/prompts.go:15-40). */
  function FillInBlankLines(t: TemplateText, numSentences: int): seq<string> {
    [ t.role, t.fillInTask, t.strict, "", t.mainRuleHeading, t.fillInMainRule, "",
      t.styleHeading, t.priority, t.goal, "", t.answerHeading, t.answerKey,
      t.distributionRule, "", t.outputHeading, t.numberLine, t.fillInTitle,
      SentenceCountLine(t, numSentences), t.fillInChoices, t.fillInDistractors,
      t.fillInSeparator, "", t.selfCorrectionRule ]
  }

  /** The English-definition template (src/prompts.go:42-66). */
  function EnglishDefinitionLines(t: TemplateText): seq<string> {
    [ t.role, t.definitionTask, t.strict, "", t.mainRuleHeading, t.definitionMainRule, "",
      t.styleHeading, t.priority, t.goal, "", t.answerHeading, t.answerKey,
      t.distributionRule, "", t.outputHeading, t.numberLine, t.definitionTitle,
      t.definitionBody, t.definitionChoices, t.definitionSeparator, "",
      t.selfCorrectionRule ]
  }

  /** The definition-judgement template (src/prompts.go:68-91). */
  function DefinitionJudgementLines(t: TemplateText): seq<string> {
    [ t.role, t.judgementTask, t.strict, "", t.mainRuleHeading, t.judgementMainRule, "",
      t.styleHeading, t.priority, t.goal, "", t.answerHeading, t.answerKey,
      t.distributionRule, "", t.outputHeading, t.numberLine, t.judgementTitle,
      t.judgementChoices, t.judgementSeparator, "", t.selfCorrectionRule ]
  }

  /**
   * The lines of the system prompt for a question type, over any template
   * text: one of the three templates, or no line at all for any other type
   * (src/prompts.go:12-92).
   */
  function SystemPromptLines(t: TemplateText, questionType: string, numSentences: int): seq<string> {
    if questionType == FillInBlank then FillInBlankLines(t, numSentences)
    else if questionType == EnglishDefinition then EnglishDefinitionLines(t)
    else if questionType == DefinitionJudgement then DefinitionJudgementLines(t)
    else []
  }

  /** The template's lines joined by line breaks (src/prompts.go:93). */
  function SystemPromptFrom(t: TemplateText, questionType: string, numSentences: int): string {
    Join(SystemPromptLines(t, questionType, numSentences), "\n")
  }

  /** The system prompt `buildPrompts` returns: the above over the source's own text. */
  function SystemPrompt(questionType: string, numSentences: int): (r: string)
    ensures r == "" <==> !KnownQuestionType(questionType)
  {
    SystemPromptEmptyIffUnknown(Templates, questionType, numSentences);
    SystemPromptFrom(Templates, questionType, numSentences)
  }

  /**
   * The first line of the user prompt (src/prompts.go:102), written as
   * five pieces; the string is the same.
   */
  const UserPromptHeader: string :=
    HeaderPiece1 + HeaderPiece2 + HeaderPiece3 + HeaderPiece4 + HeaderPiece5

  const HeaderPiece1: string := "Here is the list of vocabulary."
  const HeaderPiece2: string := " Create test questions based"
  const HeaderPiece3: string := " on these words, strictly"
  const HeaderPiece4: string := " following all rules defined"
  const HeaderPiece5: string := " in the system instructions."

  const VocabularyListHeading: string := "[Vocabulary List]"

  // ---------------------------------------------------------------------
  // Payload and user prompt
  // ---------------------------------------------------------------------

  /** One entry as `word = m1, m2, ...` (src/prompts.go:97). */
  function Serialise(p: VocabPair): (r: string)
    ensures Avoids(p.word, {'='}) ==> SplitFirst(r, '=') == [p.word + " ", " " + Join(p.meanings, ", ")]
  {
    var w := p.word;
    var line := w + " = " + Join(p.meanings, ", ");
    AvoidsConcat(w, " ", {'='});
    assert line[..|w| + 1] == w + " " && line[|w| + 1] == '=' && line[|w| + 2..] == " " + Join(p.meanings, ", ");
    if Avoids(w, {'='}) then SplitFirstAt(line, '=', |w| + 1); line else line
  }

  /** The serialised entries, in input order (src/prompts.go:95-98). */
  function PayloadLines(parsed: seq<VocabPair>): (r: seq<string>)
    ensures |r| == |parsed|
  {
    if parsed == [] then []
    else PayloadLines(parsed[..|parsed| - 1]) + [Serialise(parsed[|parsed| - 1])]
  }

  /** The user prompt: header, blank line, list heading and payload, one per line (src/prompts.go:99-107). */
  function UserPrompt(parsed: seq<VocabPair>): (r: string)
    ensures HasPrefix(r, UserPromptHeader + "\n\n" + VocabularyListHeading + "\n")
    ensures HasSuffix(r, Join(PayloadLines(parsed), "\n"))
  {
    var payload := Join(PayloadLines(parsed), "\n");
    var prompt := Join([UserPromptHeader, "", VocabularyListHeading, payload], "\n");
    JoinFourLines(UserPromptHeader, "", VocabularyListHeading, payload);
    assert prompt == (UserPromptHeader + "\n\n" + VocabularyListHeading + "\n") + payload;
    prompt
  }

  /** Four lines joined by line breaks, written out. */
  lemma JoinFourLines(a: string, b: string, c: string, d: string)
    ensures Join([a, b, c, d], "\n") == a + "\n" + (b + "\n" + (c + "\n" + d))
  {
    var l2 := [c, d];
    var l1 := [b] + l2;
    assert l2[1..] == [d];
    assert Join(l2, "\n") == c + "\n" + d;
    assert l1[1..] == l2;
    assert Join(l1, "\n") == b + "\n" + Join(l2, "\n");
    assert [a, b, c, d] == [a] + l1;
    assert ([a] + l1)[1..] == l1;
  }

  /** `buildPrompts` (src/prompts.go:8-110), with its switch and its loop over the entries. */
  method BuildPrompts(parsed: seq<VocabPair>, questionType: string, numSentences: int)
    returns (systemPrompt: string, userPrompt: string)
    ensures systemPrompt == SystemPrompt(questionType, numSentences)
    ensures userPrompt == UserPrompt(parsed)
  {
    var systemPromptLines := [];
    if questionType == FillInBlank {
      systemPromptLines := FillInBlankLines(Templates, numSentences);
    } else if questionType == EnglishDefinition {
      systemPromptLines := EnglishDefinitionLines(Templates);
    } else if questionType == DefinitionJudgement {
      systemPromptLines := DefinitionJudgementLines(Templates);
    }
    systemPrompt := Join(systemPromptLines, "\n");

    var parsedForModel := [];
    for i := 0 to |parsed|
      invariant parsedForModel == PayloadLines(parsed[..i])
    {
      assert parsed[..i + 1][..i] == parsed[..i];
      parsedForModel := parsedForModel + [parsed[i].word + " = " + Join(parsed[i].meanings, ", ")];
    }
    assert parsed[..|parsed|] == parsed;
    var parsedForModelText := Join(parsedForModel, "\n");

    userPrompt := Join([UserPromptHeader, "", VocabularyListHeading, parsedForModelText], "\n");
  }

  // ---------------------------------------------------------------------
  // Properties of the system prompt, for any template text
  // ---------------------------------------------------------------------

  /** The system prompt is empty exactly for an unknown question type. */
  lemma SystemPromptEmptyIffUnknown(t: TemplateText, questionType: string, numSentences: int)
    ensures SystemPromptFrom(t, questionType, numSentences) == "" <==> !KnownQuestionType(questionType)
  {
    var lines := SystemPromptLines(t, questionType, numSentences);
    if KnownQuestionType(questionType) {
      assert Join(lines, "\n") == lines[0] + "\n" + Join(lines[1..], "\n");
    }
  }

  /** Every known template states the distribution rule and ends with the self-review rule. */
  lemma SharedRules(t: TemplateText, questionType: string, numSentences: int)
    requires KnownQuestionType(questionType)
    ensures Contains(SystemPromptFrom(t, questionType, numSentences), t.distributionRule)
    ensures HasSuffix(SystemPromptFrom(t, questionType, numSentences), t.selfCorrectionRule)
  {
    var lines := SystemPromptLines(t, questionType, numSentences);
    assert lines[13] == t.distributionRule;
    JoinContains(lines, "\n", 13);
    JoinEndsWithLast(lines, "\n");
  }

  /** The fill-in template asks for exactly the requested number of context sentences. */
  lemma FillInBlankStatesCount(t: TemplateText, numSentences: int)
    ensures Contains(SystemPromptFrom(t, FillInBlank, numSentences), SentenceCountLine(t, numSentences))
  {
    var lines := SystemPromptLines(t, FillInBlank, numSentences);
    assert lines[18] == SentenceCountLine(t, numSentences);
    JoinContains(lines, "\n", 18);
  }

  /** Only the fill-in template depends on the sentence count. */
  lemma SentenceCountOnlyForFillIn(t: TemplateText, questionType: string, n: int, m: int)
    requires questionType != FillInBlank
    ensures SystemPromptFrom(t, questionType, n) == SystemPromptFrom(t, questionType, m)
  {
    assert SystemPromptLines(t, questionType, n) == SystemPromptLines(t, questionType, m);
  }

  // ---------------------------------------------------------------------
  // Properties of the payload and the user prompt
  // ---------------------------------------------------------------------

  /** The payload has one line per entry, the `k`-th line serialising the `k`-th entry. */
  lemma {:induction false} PayloadLinesInOrder(parsed: seq<VocabPair>)
    ensures forall k :: 0 <= k < |parsed| ==> PayloadLines(parsed)[k] == Serialise(parsed[k])
  {
    if parsed != [] {
      PayloadLinesInOrder(parsed[..|parsed| - 1]);
    }
  }

  /** The user prompt written out: its four lines with a line break after each of the first three. */
  lemma UserPromptUnfold(parsed: seq<VocabPair>)
    ensures UserPrompt(parsed)
            == UserPromptHeader + "\n" + ("" + "\n" + (VocabularyListHeading + "\n" + Join(PayloadLines(parsed), "\n")))
  {
    JoinFourLines(UserPromptHeader, "", VocabularyListHeading, Join(PayloadLines(parsed), "\n"));
  }

  /** The characters a line of the user prompt must avoid to be dropped by the parser. */
  const PromptBreaks: set<char> := {'=', '\n'}

  lemma HeaderPiece1Plain() ensures Avoids(HeaderPiece1, PromptBreaks) {}
  lemma HeaderPiece2Plain() ensures Avoids(HeaderPiece2, PromptBreaks) {}
  lemma HeaderPiece3Plain() ensures Avoids(HeaderPiece3, PromptBreaks) {}
  lemma HeaderPiece4Plain() ensures Avoids(HeaderPiece4, PromptBreaks) {}
  lemma HeaderPiece5Plain() ensures Avoids(HeaderPiece5, PromptBreaks) {}

  /** The header and the list heading hold neither '=' nor a line break. */
  lemma HeaderLinesPlain()
    ensures Avoids(UserPromptHeader, {'=', '\n'})
    ensures Avoids(VocabularyListHeading, {'=', '\n'})
  {
    HeaderPiece1Plain();
    HeaderPiece2Plain();
    HeaderPiece3Plain();
    HeaderPiece4Plain();
    HeaderPiece5Plain();
    var cs := PromptBreaks;
    AvoidsConcat(HeaderPiece1, HeaderPiece2, cs);
    AvoidsConcat(HeaderPiece1 + HeaderPiece2, HeaderPiece3, cs);
    AvoidsConcat(HeaderPiece1 + HeaderPiece2 + HeaderPiece3, HeaderPiece4, cs);
    AvoidsConcat(HeaderPiece1 + HeaderPiece2 + HeaderPiece3 + HeaderPiece4, HeaderPiece5, cs);
  }

  /** A line without '=' and without a line break parses to nothing. */
  lemma PlainLineParsesToNothing(line: string)
    requires Avoids(line, {'=', '\n'})
    ensures ParseBlock(line) == []
  {
    assert Avoids(line, LineSeparators) && Avoids(line, {'='});
    ParseBlockOneLine(line);
    ParseLineShaped(line);
  }

  /** A well-formed entry is one trimmed line that splits at the '=' after the word and its space. */
  lemma SerialiseSplit(p: VocabPair)
    requires WellFormed(p)
    ensures Avoids(Serialise(p), LineSeparators)
    ensures Serialise(p) != "" && TrimSpace(Serialise(p)) == Serialise(p)
  {
    var w, ms := p.word, p.meanings;
    var meanings := Join(ms, ", ");
    var line := Serialise(p);
    JoinAvoids(ms, ", ", LineSeparators);
    AvoidsConcat(w, " = ", LineSeparators);
    AvoidsConcat(w + " = ", meanings, LineSeparators);
    JoinTrimmed(ms, ", ");
    assert line[0] == w[0] && line[|line| - 1] == meanings[|meanings| - 1];
    TrimSpaceFixpoint(line);
  }

  /** The meanings joined by ", " split into the meanings, all but the first after a space. */
  lemma JoinedSensesSplit(ms: seq<string>)
    requires ms != [] && forall k :: 0 <= k < |ms| ==> GoodMeaning(ms[k])
    ensures SplitOn(Join(ms, ", "), SenseSeparators) == [ms[0]] + PadEach(ms[1..], " ")
  {
    var sep := [','] + " ";
    assert sep == ", ";
    assert Avoids(" ", SenseSeparators);
    SplitOnJoinSep(ms, ',', " ", SenseSeparators);
    assert Join(ms, sep) == Join(ms, ", ");
  }

  /** The right-hand side of a serialised entry, trimmed, splits the same way. */
  lemma SensesSplit(ms: seq<string>)
    requires ms != [] && forall k :: 0 <= k < |ms| ==> GoodMeaning(ms[k])
    ensures SplitOn(TrimSpace(" " + Join(ms, ", ")), SenseSeparators) == [ms[0]] + PadEach(ms[1..], " ")
  {
    var meanings := Join(ms, ", ");
    JoinTrimmed(ms, ", ");
    TrimSpacePadded(" ", meanings, "");
    assert " " + meanings + "" == " " + meanings;
    JoinedSensesSplit(ms);
  }

  /** Trimming the split pieces gives the meanings back. */
  lemma PaddedSensesTrim(ms: seq<string>)
    requires ms != [] && forall k :: 0 <= k < |ms| ==> GoodMeaning(ms[k])
    ensures CleanSenses([ms[0]] + PadEach(ms[1..], " ")) == ms
  {
    var candidates := [ms[0]] + PadEach(ms[1..], " ");
    forall k | 0 <= k < |ms| ensures TrimSpace(candidates[k]) == ms[k] {
      if k == 0 {
        TrimSpaceFixpoint(ms[0]);
      } else {
        TrimSpacePadded(" ", ms[k], "");
        assert candidates[k] == " " + ms[k] + "";
      }
    }
    CleanSensesExact(candidates, ms);
  }

  /** A well-formed entry is written on one line that the parser reads back as the entry. */
  lemma SerialiseParses(p: VocabPair)
    requires WellFormed(p)
    ensures Avoids(Serialise(p), LineSeparators)
    ensures LineEntries(Serialise(p)) == [p]
  {
    var w := p.word;
    SerialiseSplit(p);
    SensesSplit(p.meanings);
    PaddedSensesTrim(p.meanings);
    TrimSpacePadded("", w, " ");
    assert "" + w + " " == w + " ";
    LineEntriesParts(Serialise(p), [w + " ", " " + Join(p.meanings, ", ")], p.meanings);
  }

  /** The payload text parses back to the entries. */
  lemma PayloadParses(parsed: seq<VocabPair>)
    requires forall k :: 0 <= k < |parsed| ==> WellFormed(parsed[k])
    ensures ParseBlock(Join(PayloadLines(parsed), "\n")) == parsed
  {
    var lines := PayloadLines(parsed);
    if parsed == [] {
      ParseBlockOneLine("");
      ParseLineShaped("");
    } else {
      PayloadLinesInOrder(parsed);
      forall k | 0 <= k < |lines| ensures Avoids(lines[k], {'\n'}) && LineEntries(lines[k]) == [parsed[k]] {
        SerialiseParses(parsed[k]);
      }
      SplitOnJoin(lines, '\n');
      ParseLinesEach(lines, parsed);
    }
  }

  /**
   * Round trip: the parser reads back from the user prompt exactly the
   * entries the prompt was built from, whenever they are entries the
   * parser itself can produce.
   */
  lemma RoundTrip(parsed: seq<VocabPair>)
    requires forall k :: 0 <= k < |parsed| ==> WellFormed(parsed[k])
    ensures ParseBlock(UserPrompt(parsed)) == parsed
  {
    var payload := Join(PayloadLines(parsed), "\n");
    UserPromptUnfold(parsed);
    HeaderLinesPlain();
    ParseBlockConcat(UserPromptHeader, "" + "\n" + (VocabularyListHeading + "\n" + payload));
    ParseBlockConcat("", VocabularyListHeading + "\n" + payload);
    ParseBlockConcat(VocabularyListHeading, payload);
    PlainLineParsesToNothing(UserPromptHeader);
    PlainLineParsesToNothing("");
    PlainLineParsesToNothing(VocabularyListHeading);
    PayloadParses(parsed);
  }

  /** Every block the parser reads survives a trip through the user prompt. */
  lemma ParsedBlockRoundTrip(vocabBlock: string)
    ensures ParseBlock(UserPrompt(ParseBlock(vocabBlock))) == ParseBlock(vocabBlock)
  {
    ParseBlockWellFormed(vocabBlock);
    RoundTrip(ParseBlock(vocabBlock));
  }
}

/**
 * `getPrompt` of the prompt endpoint: a topic selects a persona (the actor the
 * model is asked to play and the name of the question type), an action
 * identifier selects one of twenty fixed template literals, and the template
 * is filled with the persona, the question and the essay content. An
 * identifier outside the twenty yields the empty string.
 */
module PromptBuilder {
  import opened Optional
  import opened JsString
  import opened TemplateLiteral

  /** The three topics with a persona of their own; every other topic string
      falls to `Default`. */
  datatype TopicType = IeltsWriting | IeltsSpeaking | Debate | Default

  /** The twenty actions, one per template. */
  datatype ActionKind =
    | Outline | SupportArguments | OpposeArguments | SampleAnswer
    | Introduction | Conclusion | Elaborate | Example | FinishSentence
    | CorrectMistakes | Paraphrase | MakeLonger | MakeSimpler | Improve
    | Suggestions
    | Dictionary | Synonyms | Antonyms | OtherWaysToSay
    | Summarize

  datatype Persona = Persona(questionType: string, actor: string)

  /** The topic strings that select a persona of their own. */
  const TopicNames: set<string> := {"IELTS Writing", "IELTS Speaking", "Debate"}

  /** The twenty `case` labels of the template switch. */
  const ActionIdentifiers: set<string> := {
    "outline", "support_arguments", "oppose_arguments", "sample_answer",
    "introduction", "conclusion", "elaborate", "example", "finish_sentence",
    "correct_mistakes", "paraphrase", "make_longer", "make_simpler", "improve",
    "suggestions",
    "dictionary", "synonyms", "antonyms", "other_ways_to_say",
    "summarize"
  }

  function TopicName(t: TopicType): string {
    match t
    case IeltsWriting => "IELTS Writing"
    case IeltsSpeaking => "IELTS Speaking"
    case Debate => "Debate"
    case Default => ""
  }

  /** The first `switch`: exact string comparison, anything unknown (a blank
      string, different case, surrounding spaces) is `Default`. */
  function ParseTopic(s: string): (t: TopicType)
    ensures t != Default <==> s in TopicNames
    ensures t != Default ==> TopicName(t) == s
  {
    if s == "IELTS Writing" then IeltsWriting
    else if s == "IELTS Speaking" then IeltsSpeaking
    else if s == "Debate" then Debate
    else Default
  }

  function ActionName(a: ActionKind): string {
    match a
    case Outline => "outline"
    case SupportArguments => "support_arguments"
    case OpposeArguments => "oppose_arguments"
    case SampleAnswer => "sample_answer"
    case Introduction => "introduction"
    case Conclusion => "conclusion"
    case Elaborate => "elaborate"
    case Example => "example"
    case FinishSentence => "finish_sentence"
    case CorrectMistakes => "correct_mistakes"
    case Paraphrase => "paraphrase"
    case MakeLonger => "make_longer"
    case MakeSimpler => "make_simpler"
    case Improve => "improve"
    case Suggestions => "suggestions"
    case Dictionary => "dictionary"
    case Synonyms => "synonyms"
    case Antonyms => "antonyms"
    case OtherWaysToSay => "other_ways_to_say"
    case Summarize => "summarize"
  }

  /** The `case` labels of the second `switch`, compared exactly. */
  function ParseAction(s: string): (r: Option<ActionKind>)
    ensures r.Some? <==> s in ActionIdentifiers
    ensures r.Some? ==> ActionName(r.value) == s
  {
    if s == "outline" then Some(Outline)
    else if s == "support_arguments" then Some(SupportArguments)
    else if s == "oppose_arguments" then Some(OpposeArguments)
    else if s == "sample_answer" then Some(SampleAnswer)
    else if s == "introduction" then Some(Introduction)
    else if s == "conclusion" then Some(Conclusion)
    else if s == "elaborate" then Some(Elaborate)
    else if s == "example" then Some(Example)
    else if s == "finish_sentence" then Some(FinishSentence)
    else if s == "correct_mistakes" then Some(CorrectMistakes)
    else if s == "paraphrase" then Some(Paraphrase)
    else if s == "make_longer" then Some(MakeLonger)
    else if s == "make_simpler" then Some(MakeSimpler)
    else if s == "improve" then Some(Improve)
    else if s == "suggestions" then Some(Suggestions)
    else if s == "dictionary" then Some(Dictionary)
    else if s == "synonyms" then Some(Synonyms)
    else if s == "antonyms" then Some(Antonyms)
    else if s == "other_ways_to_say" then Some(OtherWaysToSay)
    else if s == "summarize" then Some(Summarize)
    else None
  }

  /** Every action has its own identifier, and parsing it gives the action
      back. */
  lemma ActionNameRoundTrip(a: ActionKind)
    ensures ActionName(a) in ActionIdentifiers
    ensures ParseAction(ActionName(a)) == Some(a)
  {
  }

  /** The actor of both IELTS topics. */
  const IeltsCandidate: string := "an IELTS test taker with a band score of 8.0"

  function PersonaOf(t: TopicType): Persona {
    match t
    case IeltsWriting => Persona("IELTS Writing Task 2", IeltsCandidate)
    case IeltsSpeaking => Persona("IELTS Speaking", IeltsCandidate)
    case Debate => Persona("debate", "a debater")
    case Default => Persona("", "a person")
  }

  /** The persona table, read from the topic string the request carries. */
  lemma TopicResolution(s: string)
    ensures s == "IELTS Writing" ==>
      PersonaOf(ParseTopic(s)) == Persona("IELTS Writing Task 2", "an IELTS test taker with a band score of 8.0")
    ensures s == "IELTS Speaking" ==>
      PersonaOf(ParseTopic(s)) == Persona("IELTS Speaking", "an IELTS test taker with a band score of 8.0")
    ensures s == "Debate" ==> PersonaOf(ParseTopic(s)) == Persona("debate", "a debater")
    ensures s !in TopicNames ==> PersonaOf(ParseTopic(s)) == Persona("", "a person")
  {
  }

  // The template literals of the second `switch`. ECMAScript evaluates a
  // template literal from its list of literal strings (`TextsOf`) and its
  // list of substitutions (`HolesOf`); `${x}` sits between the i-th and the
  // (i+1)-th string.

  /** The line that follows quoted content and introduces the question. */
  const Provenance: string := "\"\nFor your information, the essay is written in response to the following "
  const OutlineRequest: string := ". Write an essay outline in response to the following "
  const SupportRequest: string := " question, generate 3 arguments to support the statement: "
  const OpposeRequest: string := " question, generate 3 arguments to oppose the statement: "
  const SampleAnswerRequest: string := ". Write an essay in response to the following "
  const SampleAnswerLength: string := " question with at least 250 words: "
  const IntroductionRequest: string := ". Write a short introduction paragraph for an essay in response to the following "
  const ConclusionRequest: string := ". Write a short conclusion paragraph for this half-done essay:\n\""
  const ElaborateRequest: string := ". Elaborate/Explain the following argument in 3-4 sentences:\n\""
  const ExampleRequest: string := ". Give and explain an example in support of the following argument in 1-2 sentences:\n\""
  const FinishSentenceRequest: string := ". Finish this sentence for me:\n\""
  const CorrectMistakesRequest: string := "Point out clearly the mistakes in this essay and how to correct them: "
  const ParaphraseRequest: string := "Paraphrase/Rephrase this sentence/paragraph: \n"
  const MakeLongerRequest: string := " essay longer by elaborating on the existing points (don't add more arguments):\n\""
  const MakeSimplerRequest: string := " essay using simpler/more academic language: \n"
  const SuggestionsRequest: string := "What are the strengths & weaknesses of this essay? Give your suggestions for improvement for the writer: \n"
  const DictionaryClosing: string := " and give me an example of how to use it in real life."
  const SummarizeRequest: string := "Act as a summarizer and summarize this essay: \n"

  /** The literal strings of each template. */
  function TextsOf(a: ActionKind): seq<string> {
    match a
    // Brainstorming
    case Outline => ["Act as ", OutlineRequest, " question: ", ""]
    case SupportArguments => ["Act as ", ". Given the following ", SupportRequest, ""]
    case OpposeArguments => ["Act as ", ". Given the following ", OpposeRequest, ""]
    case SampleAnswer => ["Act as ", SampleAnswerRequest, SampleAnswerLength, ""]
    // While writing
    case Introduction => ["Act as ", IntroductionRequest, " question:: ", ""]
    case Conclusion => ["Act as ", ConclusionRequest, Provenance, " question: ", ""]
    case Elaborate => ["Act as ", ElaborateRequest, Provenance, " question: ", ""]
    case Example => ["Act as ", ExampleRequest, Provenance, " question: ", ""]
    case FinishSentence => ["Act as ", FinishSentenceRequest, Provenance, " question: ", ""]
    // Edit essay
    case CorrectMistakes => [CorrectMistakesRequest, ""]
    case Paraphrase => [ParaphraseRequest, ""]
    case MakeLonger => ["Make this ", MakeLongerRequest, Provenance, " question: ", ""]
    case MakeSimpler => ["Rewrite this ", MakeSimplerRequest, ""]
    case Improve => ["Improve/Perfect this essay: \n", ""]
    // Feedback for essay
    case Suggestions => [SuggestionsRequest, ""]
    // Learn vocabulary
    case Dictionary => ["Explain the meaning of ", DictionaryClosing]
    case Synonyms => ["Give me 5 synonyms of ", ""]
    case Antonyms => ["Give me 5 antonyms of ", ""]
    case OtherWaysToSay => ["Give me 10 other ways to say ", ""]
    // Summary
    case Summarize => [SummarizeRequest, ""]
  }

  /** The substitutions of each template, in order. */
  function HolesOf(a: ActionKind): seq<Hole> {
    match a
    case Outline | SupportArguments | OpposeArguments | SampleAnswer | Introduction =>
      [Actor, QuestionType, Question]
    case Conclusion | Elaborate | Example | FinishSentence =>
      [Actor, Content, QuestionType, Question]
    case MakeLonger => [QuestionType, Content, QuestionType, Question]
    case MakeSimpler => [QuestionType, Content]
    case CorrectMistakes | Paraphrase | Improve | Suggestions
       | Dictionary | Synonyms | Antonyms | OtherWaysToSay | Summarize => [Content]
  }

  /** The template literal of each action. */
  function TemplateOf(a: ActionKind): Literal {
    Template(TextsOf(a), HolesOf(a))
  }

  function EnvOf(topic: TopicType, question: string, content: string): Env {
    var p := PersonaOf(topic);
    Env(p.actor, p.questionType, question, content)
  }

  /** The prompt of a recognised action. */
  function Build(a: ActionKind, topic: TopicType, question: string, content: string): string {
    Render(TemplateOf(a), EnvOf(topic, question, content))
  }

  /** A position in the opening text of the template of `a` that holds a
      visible character. */
  lemma VisibleOpening(a: ActionKind) returns (i: nat)
    ensures |TextsOf(a)| > 0 && i < |TextsOf(a)[0]| && !IsWhitespace(TextsOf(a)[0][i])
  {
    match a
    case CorrectMistakes => i := |CorrectMistakesRequest| - 2;
    case Paraphrase => i := |ParaphraseRequest| - 3;
    case Suggestions => i := |SuggestionsRequest| - 3;
    case Summarize => i := |SummarizeRequest| - 3;
    case _ => i := 0;
  }

  /** Every template opens with literal text holding a visible character, so
      no recognised prompt is blank, whatever the topic, question and
      content. */
  lemma BuildNotBlank(a: ActionKind, topic: TopicType, question: string, content: string)
    ensures Build(a, topic, question, content) != ""
    ensures !IsEmpty(Build(a, topic, question, content))
  {
    var i := VisibleOpening(a);
    var t, e := TemplateOf(a), EnvOf(topic, question, content);
    RenderStartsWithText(t, e);
    assert Render(t, e)[i] == t.strings[0][i];
  }

  /** `getPrompt(topicType, promptType, question, content)`: empty exactly
      when the action identifier is not one of the twenty, and then also the
      only blank result. */
  function GetPrompt(topicType: string, promptType: string, question: string, content: string): (r: string)
    ensures r == "" <==> promptType !in ActionIdentifiers
    ensures IsEmpty(r) <==> promptType !in ActionIdentifiers
    ensures promptType in ActionIdentifiers ==>
      r == Build(ParseAction(promptType).value, ParseTopic(topicType), question, content)
  {
    match ParseAction(promptType)
    case None => ""
    case Some(a) =>
      BuildNotBlank(a, ParseTopic(topicType), question, content);
      Build(a, ParseTopic(topicType), question, content)
  }

  // What each template reads

  /** The actions whose prompt does not mention the essay content: the four
      brainstorming actions and the introduction. */
  const ContentBlind: set<ActionKind> := {Outline, SupportArguments, OpposeArguments, SampleAnswer, Introduction}

  /** The actions whose prompt does not mention the question. */
  const QuestionBlind: set<ActionKind> := {
    CorrectMistakes, Paraphrase, MakeSimpler, Improve, Suggestions,
    Dictionary, Synonyms, Antonyms, OtherWaysToSay, Summarize
  }

  /** The actions whose prompt mentions neither the actor nor the question
      type, so that the topic plays no part. */
  const TopicBlind: set<ActionKind> := {
    CorrectMistakes, Paraphrase, Improve, Suggestions,
    Dictionary, Synonyms, Antonyms, OtherWaysToSay, Summarize
  }

  lemma ContentUse(a: ActionKind)
    ensures Content !in HolesOf(a) <==> a in ContentBlind
  {
  }

  lemma QuestionUse(a: ActionKind)
    ensures Question !in HolesOf(a) <==> a in QuestionBlind
  {
  }

  lemma TopicUse(a: ActionKind)
    ensures Actor !in HolesOf(a) && QuestionType !in HolesOf(a) <==> a in TopicBlind
  {
  }

  /** Changing the content changes the prompt exactly when the action reads
      the content: the brainstorming actions and the introduction ignore it,
      every other action embeds it verbatim. */
  lemma ContentSensitivity(a: ActionKind, topic: TopicType, question: string, c1: string, c2: string)
    ensures Build(a, topic, question, c1) == Build(a, topic, question, c2)
            <==> c1 == c2 || a in ContentBlind
  {
    var e1, e2 := EnvOf(topic, question, c1), EnvOf(topic, question, c2);
    assert AgreeExcept(e1, e2, Content);
    RenderSensitivity(TemplateOf(a), Content, e1, e2);
    ContentUse(a);
  }

  /** Changing the question changes the prompt exactly when the action reads
      the question; the editing and vocabulary actions (make_longer apart)
      and summarize ignore it. */
  lemma QuestionSensitivity(a: ActionKind, topic: TopicType, q1: string, q2: string, content: string)
    ensures Build(a, topic, q1, content) == Build(a, topic, q2, content)
            <==> q1 == q2 || a in QuestionBlind
  {
    var e1, e2 := EnvOf(topic, q1, content), EnvOf(topic, q2, content);
    assert AgreeExcept(e1, e2, Question);
    RenderSensitivity(TemplateOf(a), Question, e1, e2);
    QuestionUse(a);
  }

  /** Width of the persona's substitutions in the template of `a`. */
  function PersonaWidth(a: ActionKind, topic: TopicType): nat {
    Width(HolesOf(a), Actor, PersonaOf(topic).actor)
      + Width(HolesOf(a), QuestionType, PersonaOf(topic).questionType)
  }

  /** No two personas agree on the length of the question type, nor on the
      length of actor and question type together. */
  lemma PersonaSpans(t1: TopicType, t2: TopicType)
    requires t1 != t2
    ensures |PersonaOf(t1).actor| + |PersonaOf(t1).questionType|
         != |PersonaOf(t2).actor| + |PersonaOf(t2).questionType|
    ensures |PersonaOf(t1).questionType| != |PersonaOf(t2).questionType|
  {
  }

  /** An acting template substitutes the actor once and the question type
      once. */
  lemma ActingHoles(a: ActionKind)
    requires a in Acting
    ensures Occurrences(HolesOf(a), Actor) == 1 && Occurrences(HolesOf(a), QuestionType) == 1
  {
    if a in ClosingOnQuestion {
      assert HolesOf(a) == [Actor, QuestionType, Question];
      assert Occurrences([Actor, QuestionType, Question], Actor) == 1;
      assert Occurrences([Actor, QuestionType, Question], QuestionType) == 1;
    } else {
      assert HolesOf(a) == [Actor, Content, QuestionType, Question];
      assert Occurrences([Actor, Content, QuestionType, Question], Actor) == 1;
      assert Occurrences([Actor, Content, QuestionType, Question], QuestionType) == 1;
    }
  }

  lemma ActingWidth(a: ActionKind, t: TopicType)
    requires a in Acting
    ensures PersonaWidth(a, t) == |PersonaOf(t).actor| + |PersonaOf(t).questionType|
  {
    var holes := HolesOf(a);
    ActingHoles(a);
    WidthOnce(holes, Actor, PersonaOf(t).actor);
    WidthOnce(holes, QuestionType, PersonaOf(t).questionType);
  }

  /** make_longer names the question type twice and never the actor. */
  lemma MakeLongerWidth(t: TopicType)
    ensures PersonaWidth(MakeLonger, t) == |PersonaOf(t).questionType| + |PersonaOf(t).questionType|
  {
    var holes := HolesOf(MakeLonger);
    WidthNone(holes, Actor, PersonaOf(t).actor);
    WidthTwice(holes, QuestionType, PersonaOf(t).questionType);
  }

  /** make_simpler names the question type once and never the actor. */
  lemma MakeSimplerWidth(t: TopicType)
    ensures PersonaWidth(MakeSimpler, t) == |PersonaOf(t).questionType|
  {
    var holes := HolesOf(MakeSimpler);
    WidthNone(holes, Actor, PersonaOf(t).actor);
    WidthOnce(holes, QuestionType, PersonaOf(t).questionType);
  }

  lemma ActingWidthsDistinct(a: ActionKind, t1: TopicType, t2: TopicType)
    requires a in Acting && t1 != t2
    ensures PersonaWidth(a, t1) != PersonaWidth(a, t2)
  {
    PersonaSpans(t1, t2);
    ActingWidth(a, t1);
    ActingWidth(a, t2);
  }

  /** In every template that reads the persona, the four personas take up
      different widths. */
  lemma PersonaWidthsDistinct(a: ActionKind, t1: TopicType, t2: TopicType)
    requires a !in TopicBlind && t1 != t2
    ensures PersonaWidth(a, t1) != PersonaWidth(a, t2)
  {
    if a in Acting {
      ActingWidthsDistinct(a, t1, t2);
    } else if a == MakeLonger {
      PersonaSpans(t1, t2);
      MakeLongerWidth(t1);
      MakeLongerWidth(t2);
    } else {
      PersonaSpans(t1, t2);
      MakeSimplerWidth(t1);
      MakeSimplerWidth(t2);
    }
  }

  lemma TopicIgnored(a: ActionKind, t1: TopicType, t2: TopicType, question: string, content: string)
    requires a in TopicBlind
    ensures Build(a, t1, question, content) == Build(a, t2, question, content)
  {
    var t, e1, e2 := TemplateOf(a), EnvOf(t1, question, content), EnvOf(t2, question, content);
    TopicUse(a);
    forall h | h in t.holes ensures Value(e1, h) == Value(e2, h) {
    }
    RenderIgnores(t, e1, e2);
  }

  lemma TopicRead(a: ActionKind, t1: TopicType, t2: TopicType, question: string, content: string)
    requires a !in TopicBlind && t1 != t2
    ensures Build(a, t1, question, content) != Build(a, t2, question, content)
  {
    PersonaWidthsDistinct(a, t1, t2);
    RenderSeparates(TemplateOf(a), EnvOf(t1, question, content), EnvOf(t2, question, content));
  }

  /** Changing the topic changes the prompt exactly when the action reads the
      persona: every template that mentions the actor or the question type
      tells the four personas apart. */
  lemma TopicSensitivity(a: ActionKind, t1: TopicType, t2: TopicType, question: string, content: string)
    ensures Build(a, t1, question, content) == Build(a, t2, question, content)
            <==> t1 == t2 || a in TopicBlind
  {
    if a in TopicBlind {
      TopicIgnored(a, t1, t2, question, content);
    } else if t1 != t2 {
      TopicRead(a, t1, t2, question, content);
    }
  }

  // The shape of the prompts

  /** The actions that ask the model to act as the persona's actor. */
  const Acting: set<ActionKind> := {
    Outline, SupportArguments, OpposeArguments, SampleAnswer,
    Introduction, Conclusion, Elaborate, Example, FinishSentence
  }

  /** The actions whose prompt closes on the question: the same five that
      leave the content out. */
  const ClosingOnQuestion: set<ActionKind> := ContentBlind

  /** The actions that quote the content on a line of its own and close with
      the question it answers. */
  const Quoting: set<ActionKind> := {Conclusion, Elaborate, Example, FinishSentence, MakeLonger}

  /** The actions whose prompt closes on the content. */
  const ClosingOnContent: set<ActionKind> := {
    CorrectMistakes, Paraphrase, MakeSimpler, Improve, Suggestions, Summarize
  }

  /** The template opens with "Act as " followed by `${actor}`. */
  predicate OpensActing(t: Literal) {
    |t.holes| >= 1 && t.strings[0] == "Act as " && t.holes[0] == Actor
  }

  /** The template closes on `${question}`, after text ending with ": ". */
  predicate ClosesOnQuestion(t: Literal) {
    |t.holes| == 3 && EndsWith(t.strings[2], ": ") && t.holes[2] == Question && t.strings[3] == ""
  }

  /** The template opens a quotation with `"\n\""`, quotes `${content}`, and
      closes with the line `provenance`, `${questionType}` and `${question}`. */
  predicate QuotesContent(t: Literal, provenance: string) {
    && |t.holes| == 4
    && EndsWith(t.strings[1], "\n\"") && t.holes[1] == Content
    && t.strings[2] == provenance && t.holes[2] == QuestionType
    && t.strings[3] == " question: " && t.holes[3] == Question
    && t.strings[4] == ""
  }

  /** The template closes on `${content}`, after text ending with `lit`. */
  predicate ClosesOnContent(t: Literal, lit: string) {
    && |t.holes| >= 1
    && EndsWith(t.strings[|t.holes| - 1], lit) && t.holes[|t.holes| - 1] == Content
    && t.strings[|t.holes|] == ""
  }

  /** Text before the content in the editing, feedback and summary prompts. */
  function ContentLead(a: ActionKind): string {
    if a == CorrectMistakes then ": " else ": \n"
  }

  // The shape of each template, one action at a time.

  lemma OutlineShape()
    ensures OpensActing(TemplateOf(Outline))
    ensures ClosesOnQuestion(TemplateOf(Outline))
  {
  }

  lemma SupportArgumentsShape()
    ensures OpensActing(TemplateOf(SupportArguments))
    ensures ClosesOnQuestion(TemplateOf(SupportArguments))
  {
  }

  lemma OpposeArgumentsShape()
    ensures OpensActing(TemplateOf(OpposeArguments))
    ensures ClosesOnQuestion(TemplateOf(OpposeArguments))
  {
  }

  lemma SampleAnswerShape()
    ensures OpensActing(TemplateOf(SampleAnswer))
    ensures ClosesOnQuestion(TemplateOf(SampleAnswer))
  {
  }

  lemma IntroductionShape()
    ensures OpensActing(TemplateOf(Introduction))
    ensures ClosesOnQuestion(TemplateOf(Introduction))
  {
  }

  lemma ConclusionShape()
    ensures OpensActing(TemplateOf(Conclusion))
    ensures QuotesContent(TemplateOf(Conclusion), Provenance)
  {
  }

  lemma ElaborateShape()
    ensures OpensActing(TemplateOf(Elaborate))
    ensures QuotesContent(TemplateOf(Elaborate), Provenance)
  {
  }

  lemma ExampleShape()
    ensures OpensActing(TemplateOf(Example))
    ensures QuotesContent(TemplateOf(Example), Provenance)
  {
  }

  lemma FinishSentenceShape()
    ensures OpensActing(TemplateOf(FinishSentence))
    ensures QuotesContent(TemplateOf(FinishSentence), Provenance)
  {
  }

  lemma CorrectMistakesShape()
    ensures ClosesOnContent(TemplateOf(CorrectMistakes), ContentLead(CorrectMistakes))
  {
  }

  lemma ParaphraseShape()
    ensures ClosesOnContent(TemplateOf(Paraphrase), ContentLead(Paraphrase))
  {
  }

  lemma MakeLongerShape()
    ensures QuotesContent(TemplateOf(MakeLonger), Provenance)
  {
  }

  lemma MakeSimplerShape()
    ensures ClosesOnContent(TemplateOf(MakeSimpler), ContentLead(MakeSimpler))
  {
  }

  lemma ImproveShape()
    ensures ClosesOnContent(TemplateOf(Improve), ContentLead(Improve))
  {
  }

  lemma SuggestionsShape()
    ensures ClosesOnContent(TemplateOf(Suggestions), ContentLead(Suggestions))
  {
  }

  lemma SummarizeShape()
    ensures ClosesOnContent(TemplateOf(Summarize), ContentLead(Summarize))
  {
  }

  lemma ActingShape(a: ActionKind)
    requires a in Acting
    ensures OpensActing(TemplateOf(a))
  {
    match a
    case Outline => OutlineShape();
    case SupportArguments => SupportArgumentsShape();
    case OpposeArguments => OpposeArgumentsShape();
    case SampleAnswer => SampleAnswerShape();
    case Introduction => IntroductionShape();
    case Conclusion => ConclusionShape();
    case Elaborate => ElaborateShape();
    case Example => ExampleShape();
    case FinishSentence => FinishSentenceShape();
  }

  lemma QuestionClosingShape(a: ActionKind)
    requires a in ClosingOnQuestion
    ensures ClosesOnQuestion(TemplateOf(a))
  {
    match a
    case Outline => OutlineShape();
    case SupportArguments => SupportArgumentsShape();
    case OpposeArguments => OpposeArgumentsShape();
    case SampleAnswer => SampleAnswerShape();
    case Introduction => IntroductionShape();
  }

  lemma QuotingShape(a: ActionKind)
    requires a in Quoting
    ensures QuotesContent(TemplateOf(a), Provenance)
  {
    match a
    case Conclusion => ConclusionShape();
    case Elaborate => ElaborateShape();
    case Example => ExampleShape();
    case FinishSentence => FinishSentenceShape();
    case MakeLonger => MakeLongerShape();
  }

  lemma ContentClosingShape(a: ActionKind)
    requires a in ClosingOnContent
    ensures ClosesOnContent(TemplateOf(a), ContentLead(a))
  {
    match a
    case CorrectMistakes => CorrectMistakesShape();
    case Paraphrase => ParaphraseShape();
    case MakeSimpler => MakeSimplerShape();
    case Improve => ImproveShape();
    case Suggestions => SuggestionsShape();
    case Summarize => SummarizeShape();
  }

  /** An acting prompt opens with "Act as " and the persona's actor. */
  lemma ActingOpening(a: ActionKind, topic: TopicType, question: string, content: string)
    requires a in Acting
    ensures StartsWith(Build(a, topic, question, content), "Act as " + PersonaOf(topic).actor)
  {
    ActingShape(a);
    RenderOpening(TemplateOf(a), EnvOf(topic, question, content));
  }

  /** The brainstorming prompts and the introduction end with ": " and the
      question, unchanged. */
  lemma QuestionClosing(a: ActionKind, topic: TopicType, question: string, content: string)
    requires a in ClosingOnQuestion
    ensures EndsWith(Build(a, topic, question, content), ": " + question)
  {
    QuestionClosingShape(a);
    RenderEndsWithHole(TemplateOf(a), ": ", Question, EnvOf(topic, question, content));
    assert ": " + question + "" == ": " + question;
  }

  lemma QuotedTail(t: Literal, e: Env, provenance: string)
    requires QuotesContent(t, provenance)
    ensures EndsWith(Render(t, e), "\n\"" + e.content + provenance + e.questionType + " question: " + e.question)
  {
    RenderEndsWithLastThree(t, "\n\"", e);
    assert e.question + "" == e.question;
  }

  /** The drafting prompts and make_longer put the content, unchanged, between
      double quotes on a line of its own; the next line, `Provenance`, names
      the question type, and the prompt closes on the question. */
  lemma QuotedContent(a: ActionKind, topic: TopicType, question: string, content: string)
    requires a in Quoting
    ensures EndsWith(Build(a, topic, question, content),
      "\n\"" + content + Provenance + PersonaOf(topic).questionType + " question: " + question)
  {
    QuotingShape(a);
    QuotedTail(TemplateOf(a), EnvOf(topic, question, content), Provenance);
  }

  /** The editing, feedback and summary prompts end with the content,
      unchanged, after ": " (and a line break, save for correct_mistakes). */
  lemma ContentClosing(a: ActionKind, topic: TopicType, question: string, content: string)
    requires a in ClosingOnContent
    ensures EndsWith(Build(a, topic, question, content), ContentLead(a) + content)
  {
    ContentClosingShape(a);
    RenderEndsWithHole(TemplateOf(a), ContentLead(a), Content, EnvOf(topic, question, content));
    assert ContentLead(a) + content + "" == ContentLead(a) + content;
  }

  /** The vocabulary actions. */
  const Vocabulary: set<ActionKind> := {Dictionary, Synonyms, Antonyms, OtherWaysToSay}

  /** The vocabulary prompts read the content alone: neither the topic nor
      the question changes them. */
  lemma VocabularyReadsContentOnly(a: ActionKind, t1: TopicType, t2: TopicType, q1: string, q2: string, content: string)
    requires a in Vocabulary
    ensures Build(a, t1, q1, content) == Build(a, t2, q2, content)
  {
    TopicSensitivity(a, t1, t2, q1, content);
    QuestionSensitivity(a, t2, q1, q2, content);
  }

  /** A recognised identifier selects its own template. */
  lemma Dispatch(topicType: string, a: ActionKind, question: string, content: string)
    ensures GetPrompt(topicType, ActionName(a), question, content) == Build(a, ParseTopic(topicType), question, content)
  {
    ActionNameRoundTrip(a);
  }

  lemma SynonymsTemplateRender(topic: TopicType, question: string, content: string)
    ensures Build(Synonyms, topic, question, content) == "Give me 5 synonyms of " + content
  {
    RenderOneHole(TemplateOf(Synonyms), EnvOf(topic, question, content));
  }

  lemma DictionaryTemplateRender(topic: TopicType, question: string, content: string)
    ensures Build(Dictionary, topic, question, content) == "Explain the meaning of " + content + DictionaryClosing
  {
    RenderOneHole(TemplateOf(Dictionary), EnvOf(topic, question, content));
  }

  /** `getPrompt(topicType, 'synonyms', question, content)` is exactly
      "Give me 5 synonyms of " followed by the content. */
  lemma SynonymsPrompt(topicType: string, question: string, content: string)
    ensures GetPrompt(topicType, "synonyms", question, content) == "Give me 5 synonyms of " + content
  {
    Dispatch(topicType, Synonyms, question, content);
    SynonymsTemplateRender(ParseTopic(topicType), question, content);
  }
}

# Prompt endpoint of the AI writing assistant, in Dafny

The writing assistant has one server-side route, `src/pages/api/prompt.ts`. The
browser posts the essay question, a topic (the page offers "IELTS Writing",
"IELTS Speaking" and "Debate"; the route accepts any string), one of twenty
action identifiers ("outline", "paraphrase", "synonyms", ...) and the essay
content. The route:

1. checks that the provider key is configured;
2. fills in absent fields;
3. rejects blank arguments;
4. builds the prompt from a persona and a template;
5. rejects a blank prompt;
6. sends the prompt to the completion provider and answers with the first
   choice, or relays or summarises the provider's error.

This project is that route as Dafny definitions, with proofs about how it behaves.

- `optional.dfy` (`Optional`) holds the `Option` type.
- `js_string.dfy` (`JsString`) models JavaScript's `String.prototype.trim`, over the
  ECMAScript WhiteSpace and LineTerminator code points. It also models the route's
  `isEmpty` that is built on `trim`.
- `template_literal.dfy` (`TemplateLiteral`) models an untagged JavaScript template
  literal: n+1 text pieces and n substitutions, rendered by concatenation. It proves
  generic facts about rendering:
  - length;
  - which substitutions a render reads, and that it reads them injectively;
  - prefixes and suffixes.
- `prompt_builder.dfy` (`PromptBuilder`) is `getPrompt`. It contains:
  - the topic table;
  - the twenty templates, each as the texts and holes of its literal;
  - the parsing of topic and action identifiers.

  The proofs state what each prompt contains and does not contain, how it starts
  and ends, and that a known action never gives a blank prompt.
- `gateway.dfy` (`Gateway`) is `handler`:
  - the validation order and the request defaults;
  - the request sent to the provider;
  - the mapping of the provider's outcome to the response.

  The provider is a function parameter.

The model keeps two peculiarities of the code:
- The introduction template ends in `question:: ` (two colons), and it does not include the essay content.
- With an unknown topic the question type is empty, so "make_simpler" reads `Rewrite this  essay` with two spaces.

The key-missing message, the "Invalid args" and "Invalid prompt" messages and the
generic failure message are the code's exact strings.

## Model

| member | source | states |
|---|---|---|
| JsString.IsWhitespace | src/pages/api/prompt.ts:10 | the code points `trim` strips: TAB, VT, FF, ZWNBSP, SPACE, NBSP and the other Zs spaces, LF, CR, LINE SEPARATOR and PARAGRAPH SEPARATOR |
| JsString.TrimStart | src/pages/api/prompt.ts:10 | leading trim: the result is a suffix of the input; everything removed is whitespace; the result does not start with whitespace |
| JsString.TrimEnd | src/pages/api/prompt.ts:10 | trailing trim: the result is a prefix of the input; everything removed is whitespace; the result does not end with whitespace |
| JsString.Trim | src/pages/api/prompt.ts:10 | `trim` cuts only whitespace, from either end, and leaves a slice of the input that neither starts nor ends with whitespace |
| JsString.IsEmpty | src/pages/api/prompt.ts:10 | `isEmpty(s)` holds exactly when every character of `s` is whitespace (the empty string included) |
| PromptBuilder.TopicName | src/pages/api/prompt.ts:15-23 | the three topic labels of the first `switch` |
| PromptBuilder.ParseTopic | src/pages/api/prompt.ts:14-31 | only the three named topics are recognised, and each maps back to its own name; every other string selects the default branch |
| PromptBuilder.TopicResolution | src/pages/api/prompt.ts:13-31 | the persona (question type, actor) for each of the three topics and for every other string, as the `switch` assigns them |
| PromptBuilder.ActionName | src/pages/api/prompt.ts:35-96 | the twenty `case` labels of the second `switch`, one per action |
| PromptBuilder.ParseAction | src/pages/api/prompt.ts:33-102 | a string selects a template exactly when it is one of the twenty `case` labels, and the template selected carries that label |
| PromptBuilder.ActionNameRoundTrip | src/pages/api/prompt.ts:33-102 | every action's label is accepted and parses back to that action |
| PromptBuilder.VisibleOpening | src/pages/api/prompt.ts:33-98 | the first text piece of every template contains a non-whitespace character |
| PromptBuilder.BuildNotBlank | src/pages/api/prompt.ts:33-98 | every template renders to a prompt that is not blank, whatever the arguments |
| PromptBuilder.GetPrompt | src/pages/api/prompt.ts:12-103 | the prompt is empty, and equally blank, exactly when the action identifier is unknown; otherwise it is the selected template rendered with the topic's persona |
| PromptBuilder.ContentUse | src/pages/api/prompt.ts:33-98 | the templates without a content slot are exactly the four brainstorming ones and the introduction |
| PromptBuilder.QuestionUse | src/pages/api/prompt.ts:33-98 | the templates without a question slot are exactly the editing ones (except make_longer), the feedback one, the vocabulary ones and summarize |
| PromptBuilder.TopicUse | src/pages/api/prompt.ts:33-98 | the templates with neither an actor nor a question-type slot are exactly the nine that cannot depend on the topic |
| PromptBuilder.ContentSensitivity | src/pages/api/prompt.ts:33-98 | two contents give the same prompt if and only if they are equal or the action ignores content |
| PromptBuilder.QuestionSensitivity | src/pages/api/prompt.ts:33-98 | two questions give the same prompt if and only if they are equal or the action ignores the question |
| PromptBuilder.PersonaSpans | src/pages/api/prompt.ts:14-31 | two different topics give personas of different total length and question types of different length |
| PromptBuilder.ActingHoles | src/pages/api/prompt.ts:35-62 | every "Act as" template substitutes the actor once and the question type once |
| PromptBuilder.ActingWidth | src/pages/api/prompt.ts:35-62 | in an "Act as" template the persona adds the lengths of the actor and the question type |
| PromptBuilder.MakeLongerWidth | src/pages/api/prompt.ts:70-73 | make_longer substitutes the question type twice and the actor never |
| PromptBuilder.MakeSimplerWidth | src/pages/api/prompt.ts:74-76 | make_simpler substitutes the question type once and the actor never |
| PromptBuilder.ActingWidthsDistinct | src/pages/api/prompt.ts:14-62 | for an "Act as" template, different topics contribute persona text of different lengths |
| PromptBuilder.PersonaWidthsDistinct | src/pages/api/prompt.ts:14-76 | for every template that reads the topic, different topics contribute persona text of different lengths |
| PromptBuilder.TopicIgnored | src/pages/api/prompt.ts:65-98 | the nine topic-free templates give the same prompt for every topic |
| PromptBuilder.TopicRead | src/pages/api/prompt.ts:14-76 | every other template gives different prompts for different topics |
| PromptBuilder.TopicSensitivity | src/pages/api/prompt.ts:12-98 | two topics give the same prompt if and only if they are the same topic or the action is topic-free |
| PromptBuilder.OutlineShape | src/pages/api/prompt.ts:35-36 | outline opens with "Act as " and the actor, and closes on ": " and the question |
| PromptBuilder.SupportArgumentsShape | src/pages/api/prompt.ts:37-38 | support_arguments opens with "Act as " and the actor, and closes on ": " and the question |
| PromptBuilder.OpposeArgumentsShape | src/pages/api/prompt.ts:39-40 | oppose_arguments opens with "Act as " and the actor, and closes on ": " and the question |
| PromptBuilder.SampleAnswerShape | src/pages/api/prompt.ts:41-42 | sample_answer opens with "Act as " and the actor, and closes on ": " and the question |
| PromptBuilder.IntroductionShape | src/pages/api/prompt.ts:45-46 | introduction opens with "Act as " and the actor, and closes on ": " and the question |
| PromptBuilder.ConclusionShape | src/pages/api/prompt.ts:47-50 | conclusion opens with "Act as " and quotes the content on its own line, followed by the provenance sentence, the question type and the question |
| PromptBuilder.ElaborateShape | src/pages/api/prompt.ts:51-54 | elaborate has the same opening and quoted-content shape |
| PromptBuilder.ExampleShape | src/pages/api/prompt.ts:55-58 | example has the same opening and quoted-content shape |
| PromptBuilder.FinishSentenceShape | src/pages/api/prompt.ts:59-62 | finish_sentence has the same opening and quoted-content shape |
| PromptBuilder.CorrectMistakesShape | src/pages/api/prompt.ts:65-66 | correct_mistakes ends with ": " and the content |
| PromptBuilder.ParaphraseShape | src/pages/api/prompt.ts:67-69 | paraphrase ends with ": ", a line break and the content |
| PromptBuilder.MakeLongerShape | src/pages/api/prompt.ts:70-73 | make_longer quotes the content, followed by the provenance sentence, the question type and the question |
| PromptBuilder.MakeSimplerShape | src/pages/api/prompt.ts:74-76 | make_simpler ends with ": ", a line break and the content |
| PromptBuilder.ImproveShape | src/pages/api/prompt.ts:77-79 | improve ends with ": ", a line break and the content |
| PromptBuilder.SuggestionsShape | src/pages/api/prompt.ts:82-84 | suggestions ends with ": ", a line break and the content |
| PromptBuilder.SummarizeShape | src/pages/api/prompt.ts:96-98 | summarize ends with ": ", a line break and the content |
| PromptBuilder.ActingShape | src/pages/api/prompt.ts:35-62 | the nine "Act as" actions all open on "Act as " and the actor |
| PromptBuilder.QuestionClosingShape | src/pages/api/prompt.ts:35-46 | the brainstorming actions and the introduction all close on ": " and the question |
| PromptBuilder.QuotingShape | src/pages/api/prompt.ts:47-62 | the four drafting actions and make_longer all quote the content before the provenance sentence |
| PromptBuilder.ContentClosingShape | src/pages/api/prompt.ts:65-98 | the editing, feedback and summary actions other than make_longer all close on the content |
| PromptBuilder.ActingOpening | src/pages/api/prompt.ts:35-62 | every "Act as" prompt starts with "Act as " followed by the topic's actor |
| PromptBuilder.QuestionClosing | src/pages/api/prompt.ts:35-46 | every brainstorming or introduction prompt ends with ": " followed by the question |
| PromptBuilder.QuotedTail | src/pages/api/prompt.ts:47-62 | a template of the quoting shape renders to text ending in the quoted content, the provenance, the question type and the question |
| PromptBuilder.QuotedContent | src/pages/api/prompt.ts:47-73 | every drafting prompt and make_longer ends with the quoted content, the provenance sentence, the question type, " question: " and the question |
| PromptBuilder.ContentClosing | src/pages/api/prompt.ts:65-98 | every editing, feedback or summary prompt other than make_longer ends with its lead and then the content |
| PromptBuilder.VocabularyReadsContentOnly | src/pages/api/prompt.ts:87-94 | the four vocabulary prompts depend on the content alone, not on the topic or the question |
| PromptBuilder.Dispatch | src/pages/api/prompt.ts:12-103 | a known action's label reaches that action's template, rendered with the persona of the parsed topic |
| PromptBuilder.SynonymsTemplateRender | src/pages/api/prompt.ts:89-90 | the synonyms template renders to "Give me 5 synonyms of " followed by the content |
| PromptBuilder.DictionaryTemplateRender | src/pages/api/prompt.ts:87-88 | the dictionary template renders to "Explain the meaning of ", the content and the closing request |
| PromptBuilder.SynonymsPrompt | src/pages/api/prompt.ts:89-90 | `getPrompt(t, 'synonyms', q, c)` is "Give me 5 synonyms of " followed by `c`, for every topic and question |
| PromptBuilder.PersonaOf | src/pages/api/prompt.ts:13-31 | the first `switch`: the question type and actor assigned for each topic, the default branch included |
| PromptBuilder.TextsOf | src/pages/api/prompt.ts:33-98 | the literal text pieces of each of the twenty template literals, in order |
| PromptBuilder.HolesOf | src/pages/api/prompt.ts:33-98 | the substitutions of each template literal, in order (`${actor}`, `${questionType}`, `${question}`, `${content}`) |
| PromptBuilder.TemplateOf | src/pages/api/prompt.ts:33-98 | the template literal of each action: its texts and substitutions, one more text than substitutions |
| PromptBuilder.EnvOf | src/pages/api/prompt.ts:12-31 | the scope the template literals read: the locals `actor` and `questionType` set by the topic, and the parameters `question` and `content` |
| PromptBuilder.Build | src/pages/api/prompt.ts:12-98 | the prompt of a selected action: its template literal evaluated with the topic's persona, the question and the content |
| TemplateLiteral.Value | src/pages/api/prompt.ts:36 | the value one `${…}` substitution evaluates to in that scope |
| TemplateLiteral.Render | src/pages/api/prompt.ts:36 | evaluation of an untagged template literal: the texts interleaved with the substituted values |
| TemplateLiteral.RenderFrom | src/pages/api/prompt.ts:36 | the rest of a template literal's evaluation from a given substitution on |
| TemplateLiteral.RenderLength | src/pages/api/prompt.ts:36 | a rendered literal is as long as its texts and substituted values together |
| TemplateLiteral.RenderIgnores | src/pages/api/prompt.ts:36 | a render depends only on the values of the holes the literal has |
| TemplateLiteral.RenderInjective | src/pages/api/prompt.ts:36 | when two environments differ only at one hole that the literal uses, equal renders mean equal values there |
| TemplateLiteral.RenderSensitivity | src/pages/api/prompt.ts:36 | for environments differing only at one hole, the renders agree if and only if the literal lacks the hole or the values agree |
| TemplateLiteral.RenderSeparates | src/pages/api/prompt.ts:36 | persona substitutions of different total width give different renders |
| TemplateLiteral.RenderStartsWithText | src/pages/api/prompt.ts:36 | a render starts with the literal's first text piece |
| TemplateLiteral.RenderOpening | src/pages/api/prompt.ts:36 | a render starts with the first text piece followed by the first substituted value |
| TemplateLiteral.RenderEndsWithHole | src/pages/api/prompt.ts:36 | a render ends with the value of its last hole and the final text piece |
| TemplateLiteral.RenderEndsWithLastThree | src/pages/api/prompt.ts:48-50 | a render ends with its last three holes, each with the text pieces around it |
| TemplateLiteral.RenderOneHole | src/pages/api/prompt.ts:90 | a one-hole literal renders to text, value, text |
| Gateway.KeyConfigured | src/pages/api/prompt.ts:110 | `configuration.apiKey` is truthy: present and not the empty string |
| Gateway.MissingArgs | src/pages/api/prompt.ts:127 | some of question, topic type or prompt type is blank after defaulting |
| Gateway.PromptOf | src/pages/api/prompt.ts:122-136 | the prompt built by `getPrompt` from the defaulted fields |
| Gateway.OrEmpty | src/pages/api/prompt.ts:122-125 | `field \|\| ''`: a present field is kept, the result is empty exactly when the field is absent or empty |
| Gateway.EffectiveTemperature | src/pages/api/prompt.ts:120 | `temperature \|\| 1`: an absent temperature and zero become 1, anything else is passed on, and the result is never zero |
| Gateway.Validate | src/pages/api/prompt.ts:110-144 | checks in order: missing key → 500, blank question, topic or action → 400 "Invalid args", unknown action → 400 "Invalid prompt"; a request goes to the provider if and only if all checks pass, and carries the built prompt, model "text-davinci-003", the effective temperature and 550 tokens |
| Gateway.Respond | src/pages/api/prompt.ts:147-171 | a completion with choices gives 200 and the first choice; a provider error with a response is relayed with its status and body; every other outcome (no choices, no response) gives 500 with the generic message |
| Gateway.Handle | src/pages/api/prompt.ts:106-172 | a completion reaches the client only for a request that passed every check, with status 200 and a text the provider produced |
| Gateway.MissingKeyAlwaysFails | src/pages/api/prompt.ts:110-118 | without a key the answer is 500 with the configuration message, whatever the body and the provider |
| Gateway.RejectIgnoresProvider | src/pages/api/prompt.ts:110-144 | a request that fails a check gets the same answer for every provider, always a 400 or 500 error of the handler's own |
| Gateway.UnknownTopicAccepted | src/pages/api/prompt.ts:27-30 | a non-blank topic outside the three is accepted and gets the default persona |
| Gateway.CompletionReturned | src/pages/api/prompt.ts:147-157 | a valid request whose completion has choices is answered 200 with the first choice |
| Gateway.ProviderFailureSummarised | src/pages/api/prompt.ts:157-170 | a valid request whose provider fails without a response, or answers with no choices, gets 500 with the generic message |
| Gateway.ProviderErrorRelayed | src/pages/api/prompt.ts:160-162 | a provider error carrying a response reaches the client with the provider's status and body unchanged |

## Left out

- The completion call itself. The network, the provider's behaviour and the `await` are outside the model: the provider is a function parameter, and its outcome is an abstract `ProviderOutcome`.
- `console.log` and `console.error`. They produce output only and do not change the response.
- Reading `OPENAI_API_KEY` from the environment and constructing the client. The configured key is a parameter.
- Request bodies whose text fields are not strings, or whose temperature is not a number:
  - `req.body` being absent;
  - a truthy non-string `question`, `topicType` or `promptType` (a number, say), on which `isEmpty` calls `trim` and throws outside the `try`;
  - a truthy non-string `content`, which the template literal turns into text with JavaScript's string conversion;
  - a non-number truthy `temperature`, which the route forwards unchanged.
- `Gateway.EffectiveTemperature`: does not model `NaN`, which JSON cannot carry. Temperatures are mathematical reals, not IEEE doubles.
- `JsString.Trim`: models strings as Unicode scalar values, not UTF-16 code units. Lone surrogates cannot be expressed. All code points that `trim` strips are in the Basic Multilingual Plane.
- `Gateway.Respond`: does not model a completion choice whose `text` is missing, which the route would send as `{}` without a `result`. A choice is its text.
- The two user-interface files are not part of this model. `src/pages/index.tsx` only renders the writing component. `src/components/Writing/index.tsx` is the component that page renders, and it posts to this route.

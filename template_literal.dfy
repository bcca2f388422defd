/**
 * A JavaScript template literal such as `Act as ${actor}. ... ${question}` is,
 * as ECMAScript evaluates it, a list of n + 1 literal strings (the text before,
 * between and after the substitutions) and a list of n substitutions. The
 * prompt templates substitute four values; evaluating a template concatenates
 * the strings with the substituted values in order, with no escaping and no
 * truncation.
 */
module TemplateLiteral {

  /** The four values a prompt template can substitute. */
  datatype Hole = Actor | QuestionType | Question | Content

  /** `strings[i]` is the text before `${holes[i]}`; the last string is the
      text after the last substitution. */
  datatype Template = Template(strings: seq<string>, holes: seq<Hole>)

  /** A template as the language builds it: one more string than holes. */
  type Literal = t: Template | |t.strings| == |t.holes| + 1 witness Template([""], [])

  /** The values in scope when a template literal is evaluated. */
  datatype Env = Env(actor: string, questionType: string, question: string, content: string)

  function Value(e: Env, h: Hole): string {
    match h
    case Actor => e.actor
    case QuestionType => e.questionType
    case Question => e.question
    case Content => e.content
  }

  /** Evaluation of the template literal `t` in `e`. */
  function Render(t: Literal, e: Env): string {
    RenderFrom(t, 0, e)
  }

  /** Evaluation from the `i`-th string on. */
  function RenderFrom(t: Literal, i: nat, e: Env): string
    requires i <= |t.holes|
    decreases |t.holes| - i
  {
    if i == |t.holes| then t.strings[i]
    else t.strings[i] + Value(e, t.holes[i]) + RenderFrom(t, i + 1, e)
  }

  /** How many times `${h}` appears among `holes`. */
  function Occurrences(holes: seq<Hole>, h: Hole): nat {
    if holes == [] then 0 else (if holes[0] == h then 1 else 0) + Occurrences(holes[1..], h)
  }

  /** Total length of `strings`. */
  function TextLength(strings: seq<string>): nat {
    if strings == [] then 0 else |strings[0]| + TextLength(strings[1..])
  }

  /** Total length that the substitutions of `${h}` contribute when `h` is
      bound to `v`: `|v|` once per occurrence. */
  function Width(holes: seq<Hole>, h: Hole, v: string): nat {
    if holes == [] then 0 else (if holes[0] == h then |v| else 0) + Width(holes[1..], h, v)
  }

  /** `e1` and `e2` give the same value to every hole other than `h`. */
  predicate AgreeExcept(e1: Env, e2: Env, h: Hole) {
    forall g :: g != h ==> Value(e1, g) == Value(e2, g)
  }

  predicate StartsWith(s: string, prefix: string) {
    |prefix| <= |s| && s[..|prefix|] == prefix
  }

  predicate EndsWith(s: string, suffix: string) {
    |suffix| <= |s| && s[|s| - |suffix|..] == suffix
  }

  // Length

  lemma {:induction false} RenderFromLength(t: Literal, i: nat, e: Env)
    requires i <= |t.holes|
    decreases |t.holes| - i
    ensures |RenderFrom(t, i, e)| == TextLength(t.strings[i..])
      + Width(t.holes[i..], Actor, e.actor) + Width(t.holes[i..], QuestionType, e.questionType)
      + Width(t.holes[i..], Question, e.question) + Width(t.holes[i..], Content, e.content)
  {
    if i == |t.holes| {
      assert t.strings[i..][1..] == [];
    } else {
      RenderFromLength(t, i + 1, e);
      assert t.strings[i..][1..] == t.strings[i + 1..];
      assert t.holes[i..][1..] == t.holes[i + 1..];
    }
  }

  /** The rendered length is the literal text plus every substituted value,
      counted once per occurrence: nothing is dropped or cut short. */
  lemma RenderLength(t: Literal, e: Env)
    ensures |Render(t, e)| == TextLength(t.strings)
      + Width(t.holes, Actor, e.actor) + Width(t.holes, QuestionType, e.questionType)
      + Width(t.holes, Question, e.question) + Width(t.holes, Content, e.content)
  {
    RenderFromLength(t, 0, e);
    assert t.strings[0..] == t.strings && t.holes[0..] == t.holes;
  }

  /** A longer value for a hole that occurs widens the rendering. */
  lemma {:induction false} WidthGrows(holes: seq<Hole>, h: Hole, v1: string, v2: string)
    requires |v1| <= |v2|
    ensures Width(holes, h, v1) <= Width(holes, h, v2)
    ensures |v1| < |v2| && h in holes ==> Width(holes, h, v1) < Width(holes, h, v2)
  {
    if holes != [] {
      WidthGrows(holes[1..], h, v1, v2);
      assert h in holes ==> holes[0] == h || h in holes[1..];
    }
  }

  /** A hole that does not occur contributes nothing. */
  lemma {:induction false} WidthNone(holes: seq<Hole>, h: Hole, v: string)
    requires Occurrences(holes, h) == 0
    ensures Width(holes, h, v) == 0
  {
    if holes != [] {
      WidthNone(holes[1..], h, v);
    }
  }

  /** A hole that occurs once contributes its value once. */
  lemma {:induction false} WidthOnce(holes: seq<Hole>, h: Hole, v: string)
    requires Occurrences(holes, h) == 1
    ensures Width(holes, h, v) == |v|
  {
    if holes[0] == h {
      WidthNone(holes[1..], h, v);
    } else {
      WidthOnce(holes[1..], h, v);
    }
  }

  /** A hole that occurs twice contributes its value twice. */
  lemma {:induction false} WidthTwice(holes: seq<Hole>, h: Hole, v: string)
    requires Occurrences(holes, h) == 2
    ensures Width(holes, h, v) == |v| + |v|
  {
    if holes[0] == h {
      WidthOnce(holes[1..], h, v);
    } else {
      WidthTwice(holes[1..], h, v);
    }
  }

  // Independence

  lemma {:induction false} RenderFromIgnores(t: Literal, i: nat, e1: Env, e2: Env)
    requires i <= |t.holes|
    requires forall h :: h in t.holes ==> Value(e1, h) == Value(e2, h)
    decreases |t.holes| - i
    ensures RenderFrom(t, i, e1) == RenderFrom(t, i, e2)
  {
    if i < |t.holes| {
      assert t.holes[i] in t.holes;
      RenderFromIgnores(t, i + 1, e1, e2);
    }
  }

  /** A template that never mentions the holes on which two environments
      differ renders the same under both. */
  lemma RenderIgnores(t: Literal, e1: Env, e2: Env)
    requires forall h :: h in t.holes ==> Value(e1, h) == Value(e2, h)
    ensures Render(t, e1) == Render(t, e2)
  {
    RenderFromIgnores(t, 0, e1, e2);
  }

  // Injectivity

  lemma PrefixCancel(x: string, y1: string, y2: string)
    requires x + y1 == x + y2
    ensures y1 == y2
  {
    assert y1 == (x + y1)[|x|..];
  }

  lemma HeadCancel(x1: string, x2: string, y1: string, y2: string)
    requires x1 + y1 == x2 + y2 && |x1| == |x2|
    ensures x1 == x2 && y1 == y2
  {
    assert x1 == (x1 + y1)[..|x1|];
    assert y1 == (x1 + y1)[|x1|..];
  }

  lemma SameLengthValues(t: Literal, h: Hole, e1: Env, e2: Env)
    requires AgreeExcept(e1, e2, h)
    requires h in t.holes
    requires |Render(t, e1)| == |Render(t, e2)|
    ensures |Value(e1, h)| == |Value(e2, h)|
  {
    RenderLength(t, e1);
    RenderLength(t, e2);
    var v1, v2 := Value(e1, h), Value(e2, h);
    var w1, w2 := Width(t.holes, h, v1), Width(t.holes, h, v2);
    assert w1 == w2 by {
      match h
      case Actor =>
        assert Value(e1, QuestionType) == Value(e2, QuestionType);
        assert Value(e1, Question) == Value(e2, Question);
        assert Value(e1, Content) == Value(e2, Content);
      case QuestionType =>
        assert Value(e1, Actor) == Value(e2, Actor);
        assert Value(e1, Question) == Value(e2, Question);
        assert Value(e1, Content) == Value(e2, Content);
      case Question =>
        assert Value(e1, Actor) == Value(e2, Actor);
        assert Value(e1, QuestionType) == Value(e2, QuestionType);
        assert Value(e1, Content) == Value(e2, Content);
      case Content =>
        assert Value(e1, Actor) == Value(e2, Actor);
        assert Value(e1, QuestionType) == Value(e2, QuestionType);
        assert Value(e1, Question) == Value(e2, Question);
    }
    if |v1| < |v2| {
      WidthGrows(t.holes, h, v1, v2);
    } else if |v2| < |v1| {
      WidthGrows(t.holes, h, v2, v1);
    }
  }

  lemma {:induction false} FirstOccurrenceDecides(t: Literal, i: nat, h: Hole, e1: Env, e2: Env)
    requires i <= |t.holes|
    requires AgreeExcept(e1, e2, h) && |Value(e1, h)| == |Value(e2, h)|
    requires h in t.holes[i..]
    requires RenderFrom(t, i, e1) == RenderFrom(t, i, e2)
    decreases |t.holes| - i
    ensures Value(e1, h) == Value(e2, h)
  {
    var s, g := t.strings[i], t.holes[i];
    var r1, r2 := RenderFrom(t, i + 1, e1), RenderFrom(t, i + 1, e2);
    assert RenderFrom(t, i, e1) == s + (Value(e1, g) + r1);
    assert RenderFrom(t, i, e2) == s + (Value(e2, g) + r2);
    PrefixCancel(s, Value(e1, g) + r1, Value(e2, g) + r2);
    if g == h {
      HeadCancel(Value(e1, h), Value(e2, h), r1, r2);
    } else {
      PrefixCancel(Value(e1, g), r1, r2);
      assert t.holes[i..] == [g] + t.holes[i + 1..];
      FirstOccurrenceDecides(t, i + 1, h, e1, e2);
    }
  }

  /** A hole that a template mentions is recoverable from the rendering: two
      values for it that render alike are the same value, so the value is
      embedded verbatim. */
  lemma RenderInjective(t: Literal, h: Hole, e1: Env, e2: Env)
    requires AgreeExcept(e1, e2, h)
    requires h in t.holes
    requires Render(t, e1) == Render(t, e2)
    ensures Value(e1, h) == Value(e2, h)
  {
    SameLengthValues(t, h, e1, e2);
    assert t.holes[0..] == t.holes;
    FirstOccurrenceDecides(t, 0, h, e1, e2);
  }

  /** Two environments that differ at most on `h` give the same rendering
      exactly when the template does not mention `h` or both give `h` the
      same value. */
  lemma RenderSensitivity(t: Literal, h: Hole, e1: Env, e2: Env)
    requires AgreeExcept(e1, e2, h)
    ensures Render(t, e1) == Render(t, e2) <==> h !in t.holes || Value(e1, h) == Value(e2, h)
  {
    if h !in t.holes || Value(e1, h) == Value(e2, h) {
      forall g | g in t.holes ensures Value(e1, g) == Value(e2, g) {
      }
      RenderIgnores(t, e1, e2);
    } else if Render(t, e1) == Render(t, e2) {
      RenderInjective(t, h, e1, e2);
    }
  }

  /** Two environments that agree on the question and the content but whose
      actor and question type take up different widths render differently. */
  lemma RenderSeparates(t: Literal, e1: Env, e2: Env)
    requires e1.question == e2.question && e1.content == e2.content
    requires Width(t.holes, Actor, e1.actor) + Width(t.holes, QuestionType, e1.questionType)
          != Width(t.holes, Actor, e2.actor) + Width(t.holes, QuestionType, e2.questionType)
    ensures Render(t, e1) != Render(t, e2)
  {
    RenderLength(t, e1);
    RenderLength(t, e2);
  }

  // Shape

  /** The rendering starts with the template's first string. */
  lemma RenderStartsWithText(t: Literal, e: Env)
    ensures StartsWith(Render(t, e), t.strings[0])
  {
    if |t.holes| > 0 {
      assert Render(t, e) == t.strings[0] + (Value(e, t.holes[0]) + RenderFrom(t, 1, e));
    }
  }

  lemma EndsWithAppend(x: string, lit: string, v: string)
    requires EndsWith(x, lit)
    ensures EndsWith(x + v, lit + v)
  {
    assert (x + v)[|x + v| - |lit + v|..] == x[|x| - |lit|..] + v;
  }

  lemma EndsWithTransitive(a: string, b: string, c: string)
    requires EndsWith(a, b) && EndsWith(b, c)
    ensures EndsWith(a, c)
  {
    assert a[|a| - |c|..] == a[|a| - |b|..][|b| - |c|..];
  }

  /** The rendering ends with the rendering of any tail of the template. */
  lemma {:induction false} RenderEndsWithFrom(t: Literal, k: nat, e: Env)
    requires k <= |t.holes|
    ensures EndsWith(Render(t, e), RenderFrom(t, k, e))
  {
    if k > 0 {
      RenderEndsWithFrom(t, k - 1, e);
      var x := t.strings[k - 1] + Value(e, t.holes[k - 1]);
      assert RenderFrom(t, k - 1, e) == x + RenderFrom(t, k, e);
      EndsWithTransitive(Render(t, e), RenderFrom(t, k - 1, e), RenderFrom(t, k, e));
    }
  }

  /** Where the `k`-th string ends with `lit`, the rendering ends with `lit`,
      the value of the `k`-th hole and everything after it. */
  lemma RenderEndsWithText(t: Literal, k: nat, lit: string, e: Env)
    requires k < |t.holes|
    requires EndsWith(t.strings[k], lit)
    ensures EndsWith(Render(t, e), lit + Value(e, t.holes[k]) + RenderFrom(t, k + 1, e))
  {
    var x, v, z := t.strings[k], Value(e, t.holes[k]), RenderFrom(t, k + 1, e);
    assert RenderFrom(t, k, e) == x + v + z;
    RenderEndsWithFrom(t, k, e);
    EndsWithAppend(x, lit, v + z);
    assert x + v + z == x + (v + z) && lit + v + z == lit + (v + z);
    EndsWithTransitive(Render(t, e), x + v + z, lit + v + z);
  }

  /** A template whose last substitution is `${h}` and whose text before it
      ends with `lit` renders to a string ending with `lit`, the value of `h`
      and the closing text. */
  lemma RenderEndsWithHole(t: Literal, lit: string, h: Hole, e: Env)
    requires |t.holes| >= 1 && t.holes[|t.holes| - 1] == h
    requires EndsWith(t.strings[|t.holes| - 1], lit)
    ensures EndsWith(Render(t, e), lit + Value(e, h) + t.strings[|t.holes|])
  {
    RenderEndsWithText(t, |t.holes| - 1, lit, e);
  }

  /** The rendering opens with the first string and the first substituted
      value. */
  lemma RenderOpening(t: Literal, e: Env)
    requires |t.holes| >= 1
    ensures StartsWith(Render(t, e), t.strings[0] + Value(e, t.holes[0]))
  {
    var p := t.strings[0] + Value(e, t.holes[0]);
    assert Render(t, e) == p + RenderFrom(t, 1, e);
  }

  /** Where the string before the third-last substitution ends with `lit`,
      the rendering ends with `lit` and everything from that substitution on. */
  lemma RenderEndsWithLastThree(t: Literal, lit: string, e: Env)
    requires |t.holes| >= 3
    requires EndsWith(t.strings[|t.holes| - 3], lit)
    ensures var n := |t.holes|;
      EndsWith(Render(t, e), lit + Value(e, t.holes[n - 3]) + t.strings[n - 2] + Value(e, t.holes[n - 2])
        + t.strings[n - 1] + Value(e, t.holes[n - 1]) + t.strings[n])
  {
    var n := |t.holes|;
    RenderEndsWithText(t, n - 3, lit, e);
    assert RenderFrom(t, n - 1, e) == t.strings[n - 1] + Value(e, t.holes[n - 1]) + t.strings[n];
  }

  /** Rendering a template with a single substitution. */
  lemma RenderOneHole(t: Literal, e: Env)
    requires |t.holes| == 1
    ensures Render(t, e) == t.strings[0] + Value(e, t.holes[0]) + t.strings[1]
  {
    assert RenderFrom(t, 1, e) == t.strings[1];
  }
}

/** The shape of the grounding prompt: fixed text around two replacement
    fields, `{contexto}` and `{pergunta}`, with the refusal sentence repeated
    in the rules and in three worked examples. Every fact here holds for any
    brace-free text in those places; `Search` instantiates it with the
    program's Portuguese wording. */
module Template {
  import opened Results
  import opened Formatting

  /** The fixed text of the template, cut at the two slots and around each
      copy of the refusal sentence. */
  datatype Text = Text(
    contextHeader: string,      // from the start to the context slot
    rules: string,           // from the context slot to the first refusal
    refusal: string,         // the sentence the model must answer with
    firstExample: string,    // between the first and second refusal
    secondExample: string,   // between the second and third refusal
    thirdExample: string,    // between the third and fourth refusal
    questionHeader: string,  // from the fourth refusal to the question slot
    closing: string)            // from the question slot to the end

  const ContextField: string := "contexto"
  const QuestionField: string := "pergunta"

  /** `{contexto}` */
  function ContextSlot(): string {
    "{" + ContextField + "}"
  }

  /** `{pergunta}` */
  function QuestionSlot(): string {
    "{" + QuestionField + "}"
  }

  /** The fixed text holds no brace, so `format` copies it unchanged. */
  predicate Plain(t: Text) {
    && NoBraces(t.contextHeader) && NoBraces(t.rules) && NoBraces(t.refusal)
    && NoBraces(t.firstExample) && NoBraces(t.secondExample) && NoBraces(t.thirdExample)
    && NoBraces(t.questionHeader) && NoBraces(t.closing)
  }

  /** Everything between the two slots. */
  function Middle(t: Text): string {
    t.rules + (t.refusal + (t.firstExample + (t.refusal + (t.secondExample + (t.refusal
    + (t.thirdExample + (t.refusal + t.questionHeader)))))))
  }

  lemma MiddleIsPlain(t: Text)
    requires Plain(t)
    ensures NoBraces(Middle(t))
  {
    var a := t.refusal + t.questionHeader;
    NoBracesAppend(t.refusal, t.questionHeader);
    var b := t.thirdExample + a;
    NoBracesAppend(t.thirdExample, a);
    var c := t.refusal + b;
    NoBracesAppend(t.refusal, b);
    var d := t.secondExample + c;
    NoBracesAppend(t.secondExample, c);
    var e := t.refusal + d;
    NoBracesAppend(t.refusal, d);
    var f := t.firstExample + e;
    NoBracesAppend(t.firstExample, e);
    var g := t.refusal + f;
    NoBracesAppend(t.refusal, f);
    NoBracesAppend(t.rules, g);
  }

  /** The format string itself. */
  function Source(t: Text): string {
    t.contextHeader + (ContextSlot() + (Middle(t) + (QuestionSlot() + t.closing)))
  }

  /** The reference shape of a rendered prompt: the fixed text with the two
      values in the two slots. */
  function Filled(t: Text, context: string, question: string): string {
    t.contextHeader + (context + (Middle(t) + (question + t.closing)))
  }

  /** The keyword arguments `search_prompt` passes to `format`. */
  function PromptArgs(context: string, question: string): Args {
    map[ContextField := context, QuestionField := question]
  }

  /** Formatting fixed text around the two fields. */
  lemma FormatAroundFields(head: string, middle: string, closing: string, context: string, question: string)
    requires NoBraces(head) && NoBraces(middle) && NoBraces(closing)
    ensures Format(head + (ContextSlot() + (middle + (QuestionSlot() + closing))), PromptArgs(context, question))
         == Ok(head + (context + (middle + (question + closing))))
  {
    var args := PromptArgs(context, question);
    FormatPlainPrefix(closing, "", args);
    assert closing + "" == closing;
    assert Format("", args) == Ok("");
    FormatField(QuestionField, closing, args);
    assert QuestionSlot() + closing == "{" + QuestionField + "}" + closing;
    FormatPlainPrefix(middle, QuestionSlot() + closing, args);
    var tail := middle + (QuestionSlot() + closing);
    FormatField(ContextField, tail, args);
    assert ContextSlot() + tail == "{" + ContextField + "}" + tail;
    FormatPlainPrefix(head, ContextSlot() + tail, args);
  }

  /** Formatting the template fills each slot exactly once with its value,
      verbatim, and copies all fixed text: the result is the reference
      shape for every context and question, including values that contain
      braces or the slot names themselves. */
  lemma FormatFillsTemplate(t: Text, context: string, question: string)
    requires Plain(t)
    ensures Format(Source(t), PromptArgs(context, question)) == Ok(Filled(t, context, question))
  {
    var m := Middle(t);
    MiddleIsPlain(t);
    FormatAroundFields(t.contextHeader, m, t.closing, context, question);
  }

  /** Formatting a template whose fixed text is brace-free gives the
      reference shape; with a brace in the fixed text nothing is claimed. */
  lemma FillsWhenPlain(t: Text, context: string, question: string)
    ensures Plain(t) ==> Format(Source(t), PromptArgs(context, question)) == Ok(Filled(t, context, question))
  {
    if Plain(t) {
      FormatFillsTemplate(t, context, question);
    }
  }

  /** `template.format(contexto=context, pergunta=question)` for a
      template with this fixed text: when the fixed text is brace-free it
      always succeeds, with the reference shape. */
  function Render(t: Text, context: string, question: string): (r: Result<string>)
    ensures Plain(t) ==> r == Ok(Filled(t, context, question))
  {
    FillsWhenPlain(t, context, question);
    Format(Source(t), PromptArgs(context, question))
  }

  /** Only the slots vary: a rendered prompt is the fixed text, character
      for character, with the context and the question at fixed offsets. */
  lemma FilledLayout(t: Text, context: string, question: string)
    ensures var p := Filled(t, context, question);
      var h := |t.contextHeader|;
      var m := |Middle(t)|;
      && |p| == |Source(t)| - |ContextSlot()| - |QuestionSlot()| + |context| + |question|
      && p[..h] == t.contextHeader
      && p[h..h + |context|] == context
      && p[h + |context|..h + |context| + m] == Middle(t)
      && p[h + |context| + m..h + |context| + m + |question|] == question
      && p[h + |context| + m + |question|..] == t.closing
  {
  }

  /** `pat` occurs in `s` starting at `i`. */
  predicate OccursAt(s: string, pat: string, i: int) {
    0 <= i && i + |pat| <= |s| && s[i..i + |pat|] == pat
  }

  /** The starting positions of `pat` in `s`. */
  function Occurrences(s: string, pat: string): set<int> {
    set i | 0 <= i <= |s| - |pat| && OccursAt(s, pat, i)
  }

  lemma SubsetCardinality<T>(a: set<T>, b: set<T>)
    requires a <= b
    ensures |a| <= |b|
    decreases |a|
  {
    if a != {} {
      var x :| x in a;
      SubsetCardinality(a - {x}, b - {x});
    }
  }

  /** A copy of `pat` right after `a`. */
  lemma OccursAfter(a: string, pat: string, b: string)
    ensures OccursAt(a + (pat + b), pat, |a|)
  {
    assert (a + (pat + b))[|a|..|a| + |pat|] == pat;
  }

  /** An occurrence stays one when text is put in front, shifted by its
      length, or behind. */
  lemma OccursShift(u: string, s: string, v: string, pat: string, i: int)
    requires OccursAt(s, pat, i)
    ensures OccursAt(u + (s + v), pat, |u| + i)
  {
    assert (u + (s + v))[|u| + i..|u| + i + |pat|] == s[i..i + |pat|];
  }

  /** The first refusal follows the rules. */
  lemma FirstRefusal(t: Text)
    ensures OccursAt(Middle(t), t.refusal, |t.rules|)
  {
    var r := t.refusal;
    OccursAfter(t.rules, r, t.firstExample + (r + (t.secondExample + (r + (t.thirdExample + (r + t.questionHeader))))));
  }

  /** The second refusal follows the first example question. */
  lemma SecondRefusal(t: Text)
    ensures OccursAt(Middle(t), t.refusal, |t.rules| + |t.refusal| + |t.firstExample|)
  {
    var r := t.refusal;
    var rest := t.secondExample + (r + (t.thirdExample + (r + t.questionHeader)));
    OccursAfter(t.firstExample, r, rest);
    OccursShift(t.rules + r, t.firstExample + (r + rest), "", r, |t.firstExample|);
    assert (t.rules + r) + ((t.firstExample + (r + rest)) + "") == Middle(t);
  }

  /** The third refusal follows the second example question. */
  lemma ThirdRefusal(t: Text)
    ensures OccursAt(Middle(t), t.refusal,
      |t.rules| + |t.refusal| + |t.firstExample| + |t.refusal| + |t.secondExample|)
  {
    var r := t.refusal;
    var rest := t.thirdExample + (r + t.questionHeader);
    var pre := t.rules + (r + (t.firstExample + r));
    OccursAfter(t.secondExample, r, rest);
    OccursShift(pre, t.secondExample + (r + rest), "", r, |t.secondExample|);
    assert pre + ((t.secondExample + (r + rest)) + "") == Middle(t);
  }

  /** The fourth refusal follows the third example question. */
  lemma FourthRefusal(t: Text)
    ensures OccursAt(Middle(t), t.refusal,
      |t.rules| + |t.refusal| + |t.firstExample| + |t.refusal| + |t.secondExample|
      + |t.refusal| + |t.thirdExample|)
  {
    var r := t.refusal;
    var pre := t.rules + (r + (t.firstExample + (r + (t.secondExample + r))));
    OccursAfter(t.thirdExample, r, t.questionHeader);
    OccursShift(pre, t.thirdExample + (r + t.questionHeader), "", r, |t.thirdExample|);
    assert pre + ((t.thirdExample + (r + t.questionHeader)) + "") == Middle(t);
  }

  /** Four distinct starting positions make at least four occurrences. */
  lemma FourOccurrences(p: string, r: string, i0: int, i1: int, i2: int, i3: int)
    requires OccursAt(p, r, i0) && OccursAt(p, r, i1) && OccursAt(p, r, i2) && OccursAt(p, r, i3)
    requires i0 < i1 < i2 < i3
    ensures |Occurrences(p, r)| >= 4
  {
    var found := {i0, i1, i2, i3};
    assert found <= Occurrences(p, r);
    assert |found| == 4;
    SubsetCardinality(found, Occurrences(p, r));
  }

  /** Four occurrences inside `m` remain four once text surrounds `m`. */
  lemma FourOccurrencesInside(u: string, m: string, v: string, r: string, i0: int, i1: int, i2: int, i3: int)
    requires OccursAt(m, r, i0) && OccursAt(m, r, i1) && OccursAt(m, r, i2) && OccursAt(m, r, i3)
    requires i0 < i1 < i2 < i3
    ensures |Occurrences(u + (m + v), r)| >= 4
  {
    OccursShift(u, m, v, r, i0);
    OccursShift(u, m, v, r, i1);
    OccursShift(u, m, v, r, i2);
    OccursShift(u, m, v, r, i3);
    FourOccurrences(u + (m + v), r, |u| + i0, |u| + i1, |u| + i2, |u| + i3);
  }

  /** Whatever the context and the question, the rendered prompt contains
      the refusal sentence at least four times: once in the rules and once
      after each of the three example questions. */
  lemma RepeatsRefusal(t: Text, context: string, question: string)
    requires |t.refusal| > 0
    ensures |Occurrences(Filled(t, context, question), t.refusal)| >= 4
  {
    var r := t.refusal;
    var i0 := |t.rules|;
    var i1 := i0 + |r| + |t.firstExample|;
    var i2 := i1 + |r| + |t.secondExample|;
    var i3 := i2 + |r| + |t.thirdExample|;
    FirstRefusal(t);
    SecondRefusal(t);
    ThirdRefusal(t);
    FourthRefusal(t);
    FourOccurrencesInside(t.contextHeader + context, Middle(t), question + t.closing, r, i0, i1, i2, i3);
    assert Filled(t, context, question) == (t.contextHeader + context) + (Middle(t) + (question + t.closing));
  }
}

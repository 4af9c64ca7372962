/**
 * The request shaping of `generateMotivationalSpeech`: the empty-text
 * guard, the persona lookup, the accent and style clauses and the final
 * prompt around the user's text.
 */
module Prompt {
  import opened Wrappers
  import opened Text
  import opened Speed
  import opened Voices

  const EmptyTextMessage: string := "Input text cannot be empty."

  /** The accent id that stands for "no accent clause". */
  const DefaultAccent: string := "Default"

  /** What is sent to the speech provider: the prompt and the prebuilt voice. */
  datatype SpeechRequest = SpeechRequest(prompt: string, apiVoice: string)

  /** `with a <accent> accent`, or nothing for an empty or default accent. */
  function AccentInstruction(accent: string): (r: string)
    ensures r == "" <==> accent == "" || accent == DefaultAccent
    ensures r != "" ==> r == "with a " + ToLower(accent) + " accent"
  {
    if accent != "" && accent != DefaultAccent then "with a " + ToLower(accent) + " accent" else ""
  }

  /** `Adopt a <style> voice style`, with the style lower-cased. */
  function StyleInstruction(style: string): (r: string)
    ensures |r| == |style| + 20
    ensures r[..8] == "Adopt a "
    ensures OccursAt(r, ToLower(style), 8)
    ensures r[|r| - 12..] == " voice style"
  {
    "Adopt a " + ToLower(style) + " voice style"
  }

  /** `parts.filter(Boolean)` on strings: the empty strings are dropped, order kept. */
  function FilterNonEmpty(parts: seq<string>): (r: seq<string>)
    ensures |r| <= |parts|
    ensures forall x :: x in r <==> x in parts && x != ""
    ensures multiset(r) == multiset(parts)["" := 0]
    decreases |parts|
  {
    if parts == [] then []
    else
      assert parts == [parts[0]] + parts[1..];
      (if parts[0] == "" then [] else [parts[0]]) + FilterNonEmpty(parts[1..])
  }

  /** Filtering a concatenation filters each part: the order of the kept parts is the input's. */
  lemma {:induction false} FilterNonEmptyAppend(a: seq<string>, b: seq<string>)
    ensures FilterNonEmpty(a + b) == FilterNonEmpty(a) + FilterNonEmpty(b)
    decreases |a|
  {
    if a == [] {
      assert a + b == b;
    } else {
      assert (a + b)[1..] == a[1..] + b;
      FilterNonEmptyAppend(a[1..], b);
    }
  }

  /** A single part is kept exactly when it is not empty. */
  lemma FilterNonEmptySingle(x: string)
    ensures FilterNonEmpty([x]) == if x == "" then [] else [x]
  {
    assert [x][1..] == [];
  }

  /** `parts.join(sep)`: the parts in order, with `sep` between neighbours. */
  function Join(parts: seq<string>, sep: string): (r: string)
    ensures parts == [] ==> r == ""
    ensures |parts| == 1 ==> r == parts[0]
    ensures parts != [] ==> |parts[0]| <= |r| && r[..|parts[0]|] == parts[0]
    decreases |parts|
  {
    if parts == [] then ""
    else if |parts| == 1 then parts[0]
    else parts[0] + sep + Join(parts[1..], sep)
  }

  /** Two parts are joined with exactly one separator between them. */
  lemma JoinPair(a: string, b: string, sep: string)
    ensures Join([a, b], sep) == a + sep + b
  {
    assert [a, b][1..] == [b];
  }

  /**
   * The main instruction: the style clause, then the accent clause after
   * exactly one space when there is one; a string without a trailing space.
   */
  function MainInstruction(style: string, accent: string): (r: string)
    ensures AccentInstruction(accent) == "" ==> r == StyleInstruction(style)
    ensures AccentInstruction(accent) != "" ==> r == StyleInstruction(style) + " " + AccentInstruction(accent)
    ensures OccursAt(r, StyleInstruction(style), 0)
    ensures |r| > 0 && r[|r| - 1] != ' '
  {
    var styleClause := StyleInstruction(style);
    var accentClause := AccentInstruction(accent);
    assert [styleClause, accentClause] == [styleClause] + [accentClause];
    FilterNonEmptyAppend([styleClause], [accentClause]);
    FilterNonEmptySingle(styleClause);
    FilterNonEmptySingle(accentClause);
    JoinPair(styleClause, accentClause, " ");
    Join(FilterNonEmpty([styleClause, accentClause]), " ")
  }

  /** The accent ids the accent selector offers; the first is the default. */
  const UiAccents: seq<string> := ["Default", "British", "Australian", "Scottish", "Bengali"]

  /** The default accent adds no clause; each other offered accent adds its own. */
  lemma UiAccentClauses()
    ensures AccentInstruction(UiAccents[0]) == ""
    ensures forall i :: 1 <= i < |UiAccents| ==>
      AccentInstruction(UiAccents[i]) == "with a " + ToLower(UiAccents[i]) + " accent"
  {
  }

  /** The prompt template around the user text. */
  function PromptTemplate(main: string, tone: string, pace: string, text: string): (p: string)
    ensures |p| == |main| + |tone| + |pace| + |text| + 78
    ensures p[|p| - 1] == '"'
  {
    main + ". " + tone + " Deliver the following text at a " + pace
    + " pace, with natural pauses for emphasis: \"" + text + "\""
  }

  /** The request sent for a text, or the empty-text error. */
  function BuildPrompt(text: string, voiceName: string, voiceStyle: string, accent: string, speed: real)
    : (r: Result<SpeechRequest, string>)
    ensures r.Failure? <==> text == ""
    ensures r.Failure? ==> r.error == EmptyTextMessage
    ensures r.Success? ==> r.value.apiVoice == ResolveVoice(voiceName).apiVoice && r.value.apiVoice in ApiVoices
    ensures r.Success? ==> r.value.prompt == PromptTemplate(MainInstruction(voiceStyle, accent),
                                                            ResolveVoice(voiceName).toneInstruction,
                                                            SpeedDescription(speed), text)
  {
    if text == "" then Failure(EmptyTextMessage)
    else
      var config := ResolveVoice(voiceName);
      Success(SpeechRequest(PromptTemplate(MainInstruction(voiceStyle, accent), config.toneInstruction,
                                           SpeedDescription(speed), text), config.apiVoice))
  }

  /** An occurrence in the left part is an occurrence in the whole. */
  lemma OccursInLeft(a: string, b: string, x: string, i: int)
    requires OccursAt(a, x, i)
    ensures OccursAt(a + b, x, i)
  {
  }

  /** An occurrence in the right part is an occurrence in the whole, shifted. */
  lemma OccursInRight(a: string, b: string, x: string, i: int)
    requires OccursAt(b, x, i)
    ensures OccursAt(a + b, x, |a| + i)
  {
  }

  /** An occurrence inside an occurring block is an occurrence in the whole. */
  lemma OccursWithin(p: string, y: string, x: string, i: int, j: int)
    requires OccursAt(p, y, i) && OccursAt(y, x, j)
    ensures OccursAt(p, x, i + j)
  {
    forall k | 0 <= k < |x|
      ensures p[i + j..i + j + |x|][k] == x[k]
    {
      assert y[j..j + |x|][k] == y[j + k];
      assert p[i..i + |y|][j + k] == p[i + j + k];
    }
  }

  lemma OccursSelf(x: string)
    ensures OccursAt(x, x, 0)
  {
  }

  /**
   * Where each ingredient sits in the template: it opens with the main
   * instruction, the tone sentence follows after ". ", the pace label sits
   * right after " Deliver the following text at a ", and the template ends
   * with the user text verbatim between double quotes.
   */
  lemma TemplateLayout(main: string, tone: string, pace: string, text: string)
    ensures var p := PromptTemplate(main, tone, pace, text);
      && OccursAt(p, main, 0)
      && OccursAt(p, tone, |main| + 2)
      && OccursAt(p, pace, |main| + |tone| + 35)
      && OccursAt(p, "\"" + text + "\"", |p| - |text| - 2)
  {
    var d := " Deliver the following text at a ";
    var e := " pace, with natural pauses for emphasis: \"";
    var q := "\"";
    var a1 := main + ". ";
    var a2 := a1 + tone;
    var a3 := a2 + d;
    var a4 := a3 + pace;
    var a5 := a4 + e;
    var a6 := a5 + text;
    var p := a6 + q;
    assert p == PromptTemplate(main, tone, pace, text);
    OccursSelf(main); OccursInLeft(main, ". ", main, 0);
    OccursInLeft(a1, tone, main, 0); OccursInLeft(a2, d, main, 0); OccursInLeft(a3, pace, main, 0);
    OccursInLeft(a4, e, main, 0); OccursInLeft(a5, text, main, 0); OccursInLeft(a6, q, main, 0);
    OccursSelf(tone); OccursInRight(a1, tone, tone, 0);
    OccursInLeft(a2, d, tone, |a1|); OccursInLeft(a3, pace, tone, |a1|);
    OccursInLeft(a4, e, tone, |a1|); OccursInLeft(a5, text, tone, |a1|); OccursInLeft(a6, q, tone, |a1|);
    OccursSelf(pace); OccursInRight(a3, pace, pace, 0);
    OccursInLeft(a4, e, pace, |a3|); OccursInLeft(a5, text, pace, |a3|); OccursInLeft(a6, q, pace, |a3|);
    var closing := "\"" + text + "\"";
    assert p[|p| - |text| - 2..] == closing;
  }

  /**
   * Where each ingredient sits in a built prompt: it opens with the style
   * clause, the resolved persona's tone sentence and the pace label sit at
   * their fixed offsets after the main instruction, and it ends with the
   * user text verbatim between double quotes.
   */
  lemma PromptLayout(text: string, voiceName: string, voiceStyle: string, accent: string, speed: real)
    requires text != ""
    ensures var p := BuildPrompt(text, voiceName, voiceStyle, accent, speed).value.prompt;
      && OccursAt(p, StyleInstruction(voiceStyle), 0)
      && OccursAt(p, ResolveVoice(voiceName).toneInstruction, |MainInstruction(voiceStyle, accent)| + 2)
      && OccursAt(p, SpeedDescription(speed),
                  |MainInstruction(voiceStyle, accent)| + |ResolveVoice(voiceName).toneInstruction| + 35)
      && OccursAt(p, "\"" + text + "\"", |p| - |text| - 2)
  {
    var main := MainInstruction(voiceStyle, accent);
    var tone := ResolveVoice(voiceName).toneInstruction;
    var pace := SpeedDescription(speed);
    var p := BuildPrompt(text, voiceName, voiceStyle, accent, speed).value.prompt;
    assert p == PromptTemplate(main, tone, pace, text);
    TemplateLayout(main, tone, pace, text);
    assert OccursAt(p, tone, |main| + 2) && OccursAt(p, pace, |main| + |tone| + 35);
    OccursWithin(p, main, StyleInstruction(voiceStyle), 0, 0);
  }

  /** A given, non-default accent clause sits right after the style clause and one space. */
  lemma AccentFollowsStyle(voiceStyle: string, accent: string)
    requires accent != "" && accent != DefaultAccent
    ensures OccursAt(MainInstruction(voiceStyle, accent), AccentInstruction(accent), |StyleInstruction(voiceStyle)| + 1)
  {
  }

  /** A given, non-default accent reaches the prompt as its lower-cased clause. */
  lemma PromptCarriesAccent(text: string, voiceName: string, voiceStyle: string, accent: string, speed: real)
    requires text != "" && accent != "" && accent != DefaultAccent
    ensures Contains(BuildPrompt(text, voiceName, voiceStyle, accent, speed).value.prompt,
                     "with a " + ToLower(accent) + " accent")
  {
    var main := MainInstruction(voiceStyle, accent);
    var tone := ResolveVoice(voiceName).toneInstruction;
    var pace := SpeedDescription(speed);
    var clause := AccentInstruction(accent);
    var p := BuildPrompt(text, voiceName, voiceStyle, accent, speed).value.prompt;
    assert p == PromptTemplate(main, tone, pace, text);
    TemplateLayout(main, tone, pace, text);
    AccentFollowsStyle(voiceStyle, accent);
    OccursWithin(p, main, clause, 0, |StyleInstruction(voiceStyle)| + 1);
    ContainsIffOccurs(p, clause);
  }

  /** Different texts give different prompts: the text is embedded without loss. */
  lemma PromptDeterminesText(t1: string, t2: string, voiceName: string, voiceStyle: string, accent: string, speed: real)
    requires BuildPrompt(t1, voiceName, voiceStyle, accent, speed) == BuildPrompt(t2, voiceName, voiceStyle, accent, speed)
    ensures t1 == t2
  {
    if t1 == "" || t2 == "" {
      return;
    }
    var main := MainInstruction(voiceStyle, accent);
    var tone := ResolveVoice(voiceName).toneInstruction;
    var pace := SpeedDescription(speed);
    var head := main + ". " + tone + " Deliver the following text at a " + pace + " pace, with natural pauses for emphasis: \"";
    var p1 := BuildPrompt(t1, voiceName, voiceStyle, accent, speed).value.prompt;
    var p2 := BuildPrompt(t2, voiceName, voiceStyle, accent, speed).value.prompt;
    assert p1 == head + t1 + "\"";
    assert p2 == head + t2 + "\"";
    assert t1 == p1[|head|..|p1| - 1];
    assert t2 == p2[|head|..|p2| - 1];
  }
}

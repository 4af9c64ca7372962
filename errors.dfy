/**
 * How `generateMotivationalSpeech` turns a caught failure into one of six
 * fixed user messages: the message is lower-cased and tested against an
 * ordered list of substring rules, and the first rule that matches decides.
 */
module Errors {
  import opened Wrappers
  import opened Text

  const InvalidKeyMessage: string := "The API key is invalid. Please check your configuration."
  const LimitMessage: string := "You have exceeded the request limit. Please wait a moment and try again."
  const BadInputMessage: string := "The input text may be invalid. Please revise your script and try again."
  const SafetyMessage: string := "The request was blocked due to safety filters. Please modify your text."
  const UnavailableMessage: string := "The AI service is currently unavailable. Please try again later."
  const GenericMessage: string := "Failed to generate speech due to an unexpected error."

  /** Every message a caught failure can surface as. */
  const UserMessages: set<string> :=
    {InvalidKeyMessage, LimitMessage, BadInputMessage, SafetyMessage, UnavailableMessage, GenericMessage}

  /** The message of the error raised when the provider's answer holds no audio. */
  const NoAudioMessage: string := "No audio data was returned from the API."

  /**
   * The mapping of the catch block. `error` is the message of an `Error`,
   * or `None` for a thrown value that is not an `Error`.
   */
  function ClassifyError(error: Option<string>): (r: string)
    ensures r in UserMessages
    ensures error.None? ==> r == GenericMessage
  {
    match error
    case None => GenericMessage
    case Some(message) => ClassifyLowerCased(ToLower(message))
  }

  /** The chain of substring tests on the already lower-cased message `m`. */
  function ClassifyLowerCased(m: string): (r: string)
    ensures r in UserMessages
  {
    if Contains(m, "api key not valid") then InvalidKeyMessage
    else if Contains(m, "quota") || Contains(m, "rate limit") || Contains(m, "429") then LimitMessage
    else if Contains(m, "invalid argument") || Contains(m, "bad request") || Contains(m, "400") then BadInputMessage
    else if Contains(m, "safety settings") || Contains(m, "blocked") then SafetyMessage
    else if Contains(m, "server error") || Contains(m, "500") then UnavailableMessage
    else GenericMessage
  }

  /** A rule: any of its patterns selects its message. */
  datatype Rule = Rule(patterns: seq<string>, message: string)

  /** The rules in the order they are tried. */
  const Rules: seq<Rule> := [
    Rule(["api key not valid"], InvalidKeyMessage),
    Rule(["quota", "rate limit", "429"], LimitMessage),
    Rule(["invalid argument", "bad request", "400"], BadInputMessage),
    Rule(["safety settings", "blocked"], SafetyMessage),
    Rule(["server error", "500"], UnavailableMessage)
  ]

  predicate RuleMatches(s: string, rule: Rule) {
    exists k :: 0 <= k < |rule.patterns| && Contains(s, rule.patterns[k])
  }

  /** Index of the first rule that matches `s`, or `|rules|` when none does. */
  function FirstMatch(s: string, rules: seq<Rule>): (k: nat)
    ensures k <= |rules|
    ensures forall j :: 0 <= j < k ==> !RuleMatches(s, rules[j])
    ensures k < |rules| ==> RuleMatches(s, rules[k])
    decreases |rules|
  {
    if rules == [] then 0
    else if RuleMatches(s, rules[0]) then 0
    else 1 + FirstMatch(s, rules[1..])
  }

  /** First-match-wins over a rule table, with a fallback message. */
  function ClassifyByRules(s: string, rules: seq<Rule>, fallback: string): string {
    var k := FirstMatch(s, rules);
    if k < |rules| then rules[k].message else fallback
  }

  /** The if-chain of the catch block is the first-match-wins reading of the rule table. */
  lemma ClassifyIsFirstMatch(message: string)
    ensures ClassifyError(Some(message)) == ClassifyByRules(ToLower(message), Rules, GenericMessage)
  {
    var m := ToLower(message);
    var r0, r1, r2, r3, r4 := Rules[0], Rules[1], Rules[2], Rules[3], Rules[4];
    assert RuleMatches(m, r0) <==> Contains(m, "api key not valid") by {
      assert r0.patterns[0] == "api key not valid";
    }
    assert RuleMatches(m, r1) <==> Contains(m, "quota") || Contains(m, "rate limit") || Contains(m, "429") by {
      assert r1.patterns[0] == "quota" && r1.patterns[1] == "rate limit" && r1.patterns[2] == "429";
    }
    assert RuleMatches(m, r2) <==> Contains(m, "invalid argument") || Contains(m, "bad request") || Contains(m, "400") by {
      assert r2.patterns[0] == "invalid argument" && r2.patterns[1] == "bad request" && r2.patterns[2] == "400";
    }
    assert RuleMatches(m, r3) <==> Contains(m, "safety settings") || Contains(m, "blocked") by {
      assert r3.patterns[0] == "safety settings" && r3.patterns[1] == "blocked";
    }
    assert RuleMatches(m, r4) <==> Contains(m, "server error") || Contains(m, "500") by {
      assert r4.patterns[0] == "server error" && r4.patterns[1] == "500";
    }
    assert Rules[1..][0] == r1 && Rules[2..][0] == r2 && Rules[3..][0] == r3 && Rules[4..][0] == r4;
    assert Rules[5..] == [];
  }

  /** Matching ignores case: messages equal up to ASCII case map to the same user message. */
  lemma ClassifyIgnoresCase(m1: string, m2: string)
    requires |m1| == |m2|
    requires forall i :: 0 <= i < |m1| ==> LowerChar(m1[i]) == LowerChar(m2[i])
    ensures ClassifyError(Some(m1)) == ClassifyError(Some(m2))
  {
    assert ToLower(m1) == ToLower(m2);
  }

  /** Lower-casing a message beforehand does not change its classification. */
  lemma ClassifyLowered(message: string)
    ensures ClassifyError(Some(ToLower(message))) == ClassifyError(Some(message))
  {
    ToLowerIdempotent(message);
    assert ClassifyError(Some(ToLower(message))) == ClassifyLowerCased(ToLower(ToLower(message)));
  }

  /** The rules carry five different messages, none of them the generic one. */
  lemma RuleMessagesDistinct()
    ensures forall i, j :: 0 <= i < j < |Rules| ==> Rules[i].message != Rules[j].message
    ensures forall i :: 0 <= i < |Rules| ==> Rules[i].message != GenericMessage
  {
  }

  /** Each rule's message is produced exactly when that rule is the first that matches. */
  lemma ClassifyPrecedence(message: string, k: nat)
    requires k < |Rules|
    ensures ClassifyError(Some(message)) == Rules[k].message
        <==> RuleMatches(ToLower(message), Rules[k])
             && forall j :: 0 <= j < k ==> !RuleMatches(ToLower(message), Rules[j])
  {
    ClassifyIsFirstMatch(message);
    RuleMessagesDistinct();
  }

  /** No rule matching gives the generic message. */
  lemma ClassifyFallback(message: string)
    ensures ClassifyError(Some(message)) == GenericMessage
        <==> forall j :: 0 <= j < |Rules| ==> !RuleMatches(ToLower(message), Rules[j])
  {
    ClassifyIsFirstMatch(message);
    RuleMessagesDistinct();
  }

  /** A message lacking these characters holds none of the rules' patterns. */
  lemma MatchesNothing(m: string)
    requires forall i :: 0 <= i < |m| ==> m[i] !in "kqlvby45"
    ensures !Contains(m, "api key not valid")
    ensures !Contains(m, "quota") && !Contains(m, "rate limit") && !Contains(m, "429")
    ensures !Contains(m, "invalid argument") && !Contains(m, "bad request") && !Contains(m, "400")
    ensures !Contains(m, "safety settings") && !Contains(m, "blocked")
    ensures !Contains(m, "server error") && !Contains(m, "500")
  {
    assert 'k' !in m && 'q' !in m && 'l' !in m && '4' !in m;
    assert 'v' !in m && 'b' !in m && 'y' !in m && '5' !in m;
    MissingCharNotContained(m, "api key not valid", 'k');
    MissingCharNotContained(m, "quota", 'q');
    MissingCharNotContained(m, "rate limit", 'l');
    MissingCharNotContained(m, "429", '4');
    MissingCharNotContained(m, "invalid argument", 'v');
    MissingCharNotContained(m, "bad request", 'b');
    MissingCharNotContained(m, "400", '4');
    MissingCharNotContained(m, "safety settings", 'y');
    MissingCharNotContained(m, "blocked", 'b');
    MissingCharNotContained(m, "server error", 'v');
    MissingCharNotContained(m, "500", '5');
  }

  /** The no-audio message, lower-cased. */
  lemma NoAudioLowered()
    ensures ToLower(NoAudioMessage) == "no audio data was returned from the api."
  {
  }

  /** The lower-cased no-audio message uses none of the letters and digits that tell the rules' patterns apart. */
  lemma NoAudioMessageAvoidsRuleLetters(m: string)
    requires m == "no audio data was returned from the api."
    ensures forall i :: 0 <= i < |m| ==> m[i] !in "kqlvby45"
  {
  }

  /** The error raised for a missing audio payload matches no rule: it surfaces as the generic message. */
  lemma NoAudioIsGeneric()
    ensures ClassifyError(Some(NoAudioMessage)) == GenericMessage
  {
    NoAudioLowered();
    var m := ToLower(NoAudioMessage);
    NoAudioMessageAvoidsRuleLetters(m);
    MatchesNothing(m);
  }
}

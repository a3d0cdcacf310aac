/**
 * `detect_and_process_skills` of services/llm.py: a text classifier that
 * answers arithmetic inline, marks weather questions for a later lookup, or
 * returns "" when neither skill applies. The classification is a `SkillReply`;
 * `Render` turns it into the string the function returns. Python's `eval` is
 * an oracle, except that evaluating an empty expression is a syntax error.
 */
module Skills {
  import opened Wrappers
  import opened Text

  /** The character class of the extraction regex: digits, the operator
    * and bracket characters listed below, and whitespace. */
  predicate InExpressionClass(c: char) {
    IsDigit(c) || c in "+-*/()." || IsSpace(c)
  }

  /** The characters the safety check admits: digits, the operators, brackets,
    * the dot and the plain space. */
  predicate IsAllowedChar(c: char) {
    IsDigit(c) || c in "+-*/(). "
  }

  /** The first index at or after `from` whose character is in the class. */
  function ClassStart(text: string, from: nat): (i: nat)
    requires from <= |text|
    ensures from <= i <= |text|
    ensures i < |text| ==> InExpressionClass(text[i])
    ensures forall k :: from <= k < i ==> !InExpressionClass(text[k])
    decreases |text| - from
  {
    if from == |text| || InExpressionClass(text[from]) then from else ClassStart(text, from + 1)
  }

  /** The end of the run of class characters that starts at `from`. */
  function ClassEnd(text: string, from: nat): (j: nat)
    requires from <= |text|
    ensures from <= j <= |text|
    ensures j < |text| ==> !InExpressionClass(text[j])
    ensures forall k :: from <= k < j ==> InExpressionClass(text[k])
    decreases |text| - from
  {
    if from == |text| || !InExpressionClass(text[from]) then from else ClassEnd(text, from + 1)
  }

  /** `re.findall` of the expression regex on `text[from:]`: the maximal runs of
    * class characters, left to right. */
  function FindAllRuns(text: string, from: nat): seq<string>
    requires from <= |text|
    decreases |text| - from
  {
    var i := ClassStart(text, from);
    if i == |text| then [] else [text[i..ClassEnd(text, i)]] + FindAllRuns(text, ClassEnd(text, i))
  }

  /** Every run is a non-empty stretch of class characters, and there is no
    * run exactly when no class character follows `from`. */
  lemma {:induction false} FindAllRunsFacts(text: string, from: nat)
    requires from <= |text|
    ensures var runs := FindAllRuns(text, from);
      forall n :: 0 <= n < |runs| ==> |runs[n]| > 0 && forall k :: 0 <= k < |runs[n]| ==> InExpressionClass(runs[n][k])
    ensures FindAllRuns(text, from) == [] <==> forall k :: from <= k < |text| ==> !InExpressionClass(text[k])
    decreases |text| - from
  {
    var i := ClassStart(text, from);
    if i < |text| {
      var j := ClassEnd(text, i);
      FindAllRunsFacts(text, j);
      var runs := FindAllRuns(text, from);
      forall n | 0 <= n < |runs| ensures |runs[n]| > 0 && forall k :: 0 <= k < |runs[n]| ==> InExpressionClass(runs[n][k]) {
        if n == 0 {
          forall k | 0 <= k < j - i ensures InExpressionClass(runs[0][k]) {
            assert runs[0][k] == text[i + k];
          }
        } else {
          assert runs[n] == FindAllRuns(text, j)[n - 1];
        }
      }
    }
  }

  /** A run the caller exhibits: the scan from `from` finds the run
    * `text[i..j]` first and continues after it. */
  lemma RunAt(text: string, from: nat, i: nat, j: nat)
    requires from <= i < j <= |text|
    requires forall k :: from <= k < i ==> !InExpressionClass(text[k])
    requires forall k :: i <= k < j ==> InExpressionClass(text[k])
    requires j == |text| || !InExpressionClass(text[j])
    ensures FindAllRuns(text, from) == [text[i..j]] + FindAllRuns(text, j)
  {
    assert InExpressionClass(text[i]);
    assert ClassStart(text, from) == i;
    assert ClassEnd(text, i) == j;
  }

  /** The first run is the one between the bounds `i` and `j` that the caller
    * exhibits. */
  lemma FirstRunBetween(text: string, i: nat, j: nat)
    requires i < j <= |text|
    requires forall k :: 0 <= k < i ==> !InExpressionClass(text[k])
    requires forall k :: i <= k < j ==> InExpressionClass(text[k])
    requires j == |text| || !InExpressionClass(text[j])
    ensures FindAllRuns(text, 0) != [] && FindAllRuns(text, 0)[0] == text[i..j]
  {
    RunAt(text, 0, i, j);
  }

  /** Python's `eval` on the extracted expression: `None` when it raises.
    * An empty source is always a syntax error; the rest is the oracle. */
  function PyEval(expr: string, eval: string -> Option<string>): Option<string> {
    if expr == "" then None else eval(expr)
  }

  const CalcCues: seq<string> := ["calculate", "calc", "what is", "*", "+", "-", "/"]

  /** `any(word in text_lower for word in [...])`. */
  predicate HasCalcCue(lower: string) {
    exists k :: 0 <= k < |CalcCues| && Contains(lower, CalcCues[k])
  }

  /** The check that guards `eval`. */
  predicate IsSafeExpression(expr: string) {
    (forall k :: 0 <= k < |expr| ==> IsAllowedChar(expr[k])) && !Contains(expr, "__")
  }

  /** What the function answers. */
  datatype SkillReply =
    | Calculation(expr: string, value: string)
    | CannotCalculate
    | WeatherRequest(city: string)
    | NoSkill

  const CalcPrefix: string := "\U{1F522} Calculation: "
  const Apology: string := "\U{1F522} I couldn't calculate that. Try a simple expression like 25 * 16."
  const WeatherMarker: string := "WEATHER_REQUEST:"
  const DefaultCity: string := "London"

  predicate IsPrefix(p: string, s: string) {
    |p| <= |s| && s[..|p|] == p
  }

  /** The string the function returns for each kind of answer. */
  function Render(r: SkillReply): (out: string)
    ensures out == "" <==> r.NoSkill?
    ensures r.Calculation? ==> IsPrefix(CalcPrefix, out)
    ensures r.WeatherRequest? ==> IsPrefix(WeatherMarker, out)
  {
    match r
    case Calculation(expr, value) =>
      var out := CalcPrefix + expr + " = " + value;
      assert out[..|CalcPrefix|] == CalcPrefix;
      out
    case CannotCalculate => Apology
    case WeatherRequest(city) =>
      var out := WeatherMarker + city;
      assert out[..|WeatherMarker|] == WeatherMarker;
      out
    case NoSkill => ""
  }

  /** The `try` block for one extracted run: an answer when it returns, `None`
    * when the safety check fails and control falls through. */
  function Calculate(run: string, eval: string -> Option<string>): (r: Option<SkillReply>)
    ensures r.Some? <==> IsSafeExpression(Strip(run))
    ensures r.Some? ==> r.value.Calculation? || r.value.CannotCalculate?
    ensures r.Some? && r.value.Calculation? ==> r.value.expr == Strip(run) && r.value.expr != ""
    ensures r.Some? ==>
      r.value == (if PyEval(Strip(run), eval).Some? then Calculation(Strip(run), PyEval(Strip(run), eval).value)
                  else CannotCalculate)
  {
    var expr := Strip(run);
    if IsSafeExpression(expr) then
      match PyEval(expr, eval)
      case Some(v) => Some(Calculation(expr, v))
      case None => Some(CannotCalculate)
    else None
  }

  /** The calculator branch as written: it evaluates the FIRST run. */
  function CalculatorSkill(text: string, eval: string -> Option<string>): Option<SkillReply>
  {
    var runs := FindAllRuns(text, 0);
    if runs == [] then None else Calculate(runs[0], eval)
  }

  /** The city of a weather question: after the last " in " (which wins over
    * " for "), stripped and title-cased; "London" when neither appears. */
  function WeatherCity(lower: string): string
  {
    if Contains(lower, " in ") then Title(Strip(AfterLastSplit(lower, " in ")))
    else if Contains(lower, " for ") then Title(Strip(AfterLastSplit(lower, " for ")))
    else DefaultCity
  }

  /** The tail of the function once the calculator has not returned. */
  function WeatherOrNothing(lower: string): (r: SkillReply)
    ensures r.NoSkill? <==> !Contains(lower, "weather")
    ensures r.NoSkill? || r.WeatherRequest?
  {
    if Contains(lower, "weather") then WeatherRequest(WeatherCity(lower)) else NoSkill
  }

  /** `text.lower().strip()`. */
  function NormalizeQuery(text: string): string {
    Strip(Lower(text))
  }

  /** The classification `detect_and_process_skills` makes. */
  function DetectSkill(text: string, eval: string -> Option<string>): SkillReply
  {
    var lower := NormalizeQuery(text);
    var answer := if HasCalcCue(lower) then CalculatorSkill(text, eval) else None;
    if answer.Some? then answer.value else WeatherOrNothing(lower)
  }

  /** `detect_and_process_skills`. */
  function DetectAndProcessSkills(text: string, eval: string -> Option<string>): string
  {
    Render(DetectSkill(text, eval))
  }

  /** Nothing is answered exactly when there is no "weather" in the text and
    * the calculator did not answer. A weather request is only made for a text
    * that mentions the weather, and a calculation only for one with a cue. */
  lemma SkillReplyKinds(text: string, eval: string -> Option<string>)
    ensures var lower := NormalizeQuery(text);
      DetectSkill(text, eval).NoSkill? <==>
        !Contains(lower, "weather") && !(HasCalcCue(lower) && CalculatorSkill(text, eval).Some?)
    ensures DetectSkill(text, eval).WeatherRequest? ==> Contains(NormalizeQuery(text), "weather")
    ensures DetectSkill(text, eval).Calculation? || DetectSkill(text, eval).CannotCalculate? ==>
      HasCalcCue(NormalizeQuery(text))
  {
    var lower := NormalizeQuery(text);
    var answer := if HasCalcCue(lower) then CalculatorSkill(text, eval) else None;
    if answer.Some? {
      assert DetectSkill(text, eval) == answer.value;
    } else {
      assert DetectSkill(text, eval) == WeatherOrNothing(lower);
    }
  }

  /** Without a calculator cue the calculator never answers. */
  lemma NoCueSkipsCalculator(text: string, eval: string -> Option<string>)
    requires !HasCalcCue(NormalizeQuery(text))
    ensures DetectSkill(text, eval) == WeatherOrNothing(NormalizeQuery(text))
  {
  }

  /** With a cue, a safe first run is evaluated: its value is reported, and an
    * evaluation error gives the apology, whatever the rest of the text says. */
  lemma SafeFirstRunIsEvaluated(text: string, eval: string -> Option<string>)
    requires HasCalcCue(NormalizeQuery(text))
    requires FindAllRuns(text, 0) != [] && IsSafeExpression(Strip(FindAllRuns(text, 0)[0]))
    ensures var expr := Strip(FindAllRuns(text, 0)[0]);
      DetectSkill(text, eval) ==
        if PyEval(expr, eval).Some? then Calculation(expr, PyEval(expr, eval).value) else CannotCalculate
  {
  }

  /** With an unsafe first run (a tab or newline inside it, say), the
    * calculator returns nothing and the weather check decides. */
  lemma UnsafeFirstRunFallsThrough(text: string, eval: string -> Option<string>)
    requires FindAllRuns(text, 0) != [] && !IsSafeExpression(Strip(FindAllRuns(text, 0)[0]))
    ensures DetectSkill(text, eval) == WeatherOrNothing(NormalizeQuery(text))
  {
  }

  /** A run of blanks strips to the empty expression, which `eval` rejects:
    * the calculator apologises whatever the oracle would have said. */
  lemma BlankRunGetsApology(run: string, eval: string -> Option<string>)
    requires AllSpace(run)
    ensures Calculate(run, eval) == Some(CannotCalculate)
  {
    AbsentCharNotContained("", "__", 0);
  }

  /** With a cue and a blank first run, the answer is the apology. */
  lemma BlankFirstRunGetsApology(text: string, eval: string -> Option<string>)
    requires HasCalcCue(NormalizeQuery(text))
    requires FindAllRuns(text, 0) != [] && AllSpace(FindAllRuns(text, 0)[0])
    ensures DetectSkill(text, eval) == CannotCalculate
  {
    BlankRunGetsApology(FindAllRuns(text, 0)[0], eval);
  }

  /** Every question that begins "what is " is answered with the apology,
    * whatever follows and whatever `eval` would say: "what is" is a cue, and
    * the first run is the blank between "what" and "is". So "what is 25 * 16"
    * is never calculated, and "what is the weather in Paris" never reaches the
    * weather branch. */
  lemma WhatIsQuestionGetsApology(text: string, eval: string -> Option<string>)
    requires |text| >= 8 && text[..8] == "what is "
    ensures DetectSkill(text, eval) == CannotCalculate
    ensures DetectAndProcessSkills(text, eval) == Apology
  {
    WhatIsFirstRunIsBlank(text);
    WhatIsIsCue(text);
    BlankFirstRunGetsApology(text, eval);
  }

  lemma WhatIsFirstRunIsBlank(text: string)
    requires |text| >= 8 && text[..8] == "what is "
    ensures FindAllRuns(text, 0) != [] && AllSpace(FindAllRuns(text, 0)[0])
  {
    WhatIsClasses(text);
    BlankFirstRun(text, 4);
  }

  /** A lone blank at `i` after non-class characters is the first run. */
  lemma BlankFirstRun(text: string, i: nat)
    requires i + 1 < |text|
    requires forall k :: 0 <= k < i ==> !InExpressionClass(text[k])
    requires IsSpace(text[i]) && !InExpressionClass(text[i + 1])
    ensures FindAllRuns(text, 0) != [] && AllSpace(FindAllRuns(text, 0)[0])
  {
    FirstRunBetween(text, i, i + 1);
    SingleBlank(text, i);
  }

  /** The character classes of "what is ". */
  lemma WhatIsClasses(text: string)
    requires |text| >= 8 && text[..8] == "what is "
    ensures forall k :: 0 <= k < 4 ==> !InExpressionClass(text[k])
    ensures IsSpace(text[4]) && InExpressionClass(text[4])
    ensures !InExpressionClass(text[5]) && !InExpressionClass(text[6])
    ensures IsSpace(text[7]) && InExpressionClass(text[7])
  {
    assert text[0] == 'w' && text[1] == 'h' && text[2] == 'a' && text[3] == 't';
    assert text[4] == ' ' && text[5] == 'i' && text[6] == 's' && text[7] == ' ';
  }

  lemma SingleBlank(s: string, i: nat)
    requires i < |s| && IsSpace(s[i])
    ensures AllSpace(s[i..i + 1])
  {
    assert s[i..i + 1][0] == s[i];
  }

  lemma WhatIsIsCue(text: string)
    requires |text| >= 8 && text[..8] == "what is "
    ensures HasCalcCue(NormalizeQuery(text))
  {
    assert forall k :: 0 <= k < 8 ==> text[k] == "what is "[k];
    var l := Lower(text);
    assert forall k :: 0 <= k < 7 ==> l[k] == text[k];
    StripKeepsFront(l);
    RStripKeeps(l, 6);
    var lower := NormalizeQuery(text);
    assert lower == l[..|lower|];
    assert lower[..7] == "what is";
    assert CalcCues[2] == "what is";
    assert OccursAt(lower, CalcCues[2], 0);
  }

  /** A weather question without a cue becomes a weather request. */
  lemma WeatherWithoutCue(text: string, eval: string -> Option<string>)
    requires !HasCalcCue(NormalizeQuery(text)) && Contains(NormalizeQuery(text), "weather")
    ensures DetectSkill(text, eval) == WeatherRequest(WeatherCity(NormalizeQuery(text)))
  {
  }

  /** " in " wins over " for ": when both appear, the city follows the last
    * " in ". */
  lemma InWinsOverFor(lower: string)
    requires Contains(lower, " in ") && Contains(lower, " for ")
    ensures WeatherCity(lower) == Title(Strip(AfterLastSplit(lower, " in ")))
  {
  }

  /** With a single " in ", the city is what follows it, stripped and
    * title-cased. */
  lemma CityFollowsOnlyIn(lower: string, p: nat)
    requires OccursAt(lower, " in ", p)
    requires forall k :: OccursAt(lower, " in ", k) ==> k == p
    ensures WeatherCity(lower) == Title(Strip(lower[p + 4..]))
  {
    AfterOnlyOccurrence(lower, " in ", p);
  }

  /** The index of the run the calculator should evaluate: the first run with
    * something other than whitespace in it, or the last run when all are
    * blank (any blank run strips to the same empty expression). */
  function NonBlankRunIndex(runs: seq<string>, from: nat): (i: nat)
    requires from < |runs|
    requires forall k :: 0 <= k < from ==> AllSpace(runs[k])
    ensures from <= i < |runs|
    ensures forall k :: 0 <= k < i ==> AllSpace(runs[k])
    ensures i == |runs| - 1 || !AllSpace(runs[i])
    decreases |runs| - from
  {
    if from == |runs| - 1 || !AllSpace(runs[from]) then from else NonBlankRunIndex(runs, from + 1)
  }

  /** The calculator branch as evidently intended: it skips the blank runs
    * that separate words, so the expression of "what is 25 * 16" is found. */
  function CalculatorSkillCorrected(text: string, eval: string -> Option<string>): Option<SkillReply>
  {
    var runs := FindAllRuns(text, 0);
    if runs == [] then None else Calculate(runs[NonBlankRunIndex(runs, 0)], eval)
  }

  /** `DetectSkill` with the corrected calculator branch. */
  function DetectSkillCorrected(text: string, eval: string -> Option<string>): SkillReply
  {
    var lower := NormalizeQuery(text);
    var answer := if HasCalcCue(lower) then CalculatorSkillCorrected(text, eval) else None;
    if answer.Some? then answer.value else WeatherOrNothing(lower)
  }

  /** The correction changes nothing when the first run is not blank. */
  lemma CorrectedAgreesOnNonBlankFirstRun(text: string, eval: string -> Option<string>)
    requires FindAllRuns(text, 0) != [] && !AllSpace(FindAllRuns(text, 0)[0])
    ensures DetectSkillCorrected(text, eval) == DetectSkill(text, eval)
  {
    assert NonBlankRunIndex(FindAllRuns(text, 0), 0) == 0;
  }

  /** With the correction, "what is " followed by a safe expression is
    * evaluated: "what is 25 * 16" reports the value of "25 * 16". */
  lemma WhatIsExpressionIsCalculated(expr: string, eval: string -> Option<string>)
    requires expr != [] && IsStripped(expr) && IsSafeExpression(expr)
    ensures DetectSkillCorrected("what is " + expr, eval) ==
      if eval(expr).Some? then Calculation(expr, eval(expr).value) else CannotCalculate
  {
    var text := "what is " + expr;
    WhatIsRuns(text, expr);
    WhatIsRunContents(text, expr);
    var runs := FindAllRuns(text, 0);
    assert NonBlankRunIndex(runs, 0) == 1;
    WhatIsIsCue(text);
  }

  /** The runs of "what is " + expr: the blank between the words, then the
    * blank before the expression together with the expression. */
  lemma WhatIsRuns(text: string, expr: string)
    requires text == "what is " + expr
    requires expr != [] && IsSafeExpression(expr)
    ensures FindAllRuns(text, 0) == [text[4..5], text[7..]]
  {
    WhatIsClasses(text);
    assert text[8..] == expr;
    SafeSuffixClasses(text, 8);
    TwoRuns(text);
  }

  /** The first of those runs is blank; the second strips to the expression. */
  lemma WhatIsRunContents(text: string, expr: string)
    requires text == "what is " + expr
    requires expr != [] && IsStripped(expr)
    ensures AllSpace(text[4..5]) && !AllSpace(text[7..])
    ensures Strip(text[7..]) == expr
  {
    WhatIsClasses(text);
    SingleBlank(text, 4);
    assert text[7..] == [' '] + expr;
    BlankThenExpression(text[7..], expr);
  }

  /** A safe expression is made of class characters. */
  lemma SafeSuffixClasses(text: string, n: nat)
    requires n <= |text| && IsSafeExpression(text[n..])
    ensures forall k :: n <= k < |text| ==> InExpressionClass(text[k])
  {
    forall k | n <= k < |text| ensures InExpressionClass(text[k]) {
      assert text[k] == text[n..][k - n];
      assert IsAllowedChar(text[n..][k - n]);
    }
  }

  /** The runs of a text whose classes are those of "what is " followed by
    * class characters only. */
  lemma TwoRuns(text: string)
    requires |text| > 7
    requires forall k :: 0 <= k < 4 ==> !InExpressionClass(text[k])
    requires InExpressionClass(text[4]) && !InExpressionClass(text[5]) && !InExpressionClass(text[6])
    requires forall k :: 7 <= k < |text| ==> InExpressionClass(text[k])
    ensures FindAllRuns(text, 0) == [text[4..5], text[7..]]
  {
    NoRunsAtEnd(text);
    RunAt(text, 0, 4, 5);
    RunAt(text, 5, 7, |text|);
    assert text[7..|text|] == text[7..];
    assert FindAllRuns(text, 5) == [text[7..]];
  }

  lemma NoRunsAtEnd(text: string)
    ensures FindAllRuns(text, |text|) == []
  {
    assert ClassStart(text, |text|) == |text|;
  }

  lemma BlankThenExpression(s: string, expr: string)
    requires s == [' '] + expr && expr != [] && IsStripped(expr)
    ensures !AllSpace(s) && Strip(s) == expr
  {
    assert s[1] == expr[0];
    assert s[1..] == expr;
    StripLeadingBlank(s);
    StripOfStripped(expr);
  }
}

/** `generatePrompt`: the deterministic text the handler sends to the
    completion service as the user message. */
module Prompt {
  import opened Wrappers
  import opened Text
  import opened JsValue

  /** The ten preference keys, in the order the prompt lists them. */
  const PreferenceKeys: seq<string> := [
    "time_horizon", "risk_appetite", "returns_vs_stability", "tax_sensitivity",
    "liquidity_needs", "past_returns_preference", "fund_age_bias",
    "fund_size_preference", "fund_manager_experience", "volatility_tolerance"]

  /** The human-readable label printed for each preference key. */
  const PreferenceLabels: seq<string> := [
    "Investment Time Horizon", "Risk Appetite",
    "Return vs Stability Preference (0\U{2013}100)", "Tax Sensitivity",
    "Liquidity Needs", "Preference on Return Consistency", "Fund Age Preference",
    "AUM Size Preference", "Importance of Fund Manager Experience",
    "Volatility Tolerance"]

  const NotSpecified: string := "Not specified"

  /** Funds beyond this many would get a label in or past the UTF-16
      surrogate range, which is not a character. */
  const MaxFunds: nat := 0xD800 - 65

  /** `String.fromCharCode(65 + index)`. */
  function Label(i: nat): (c: char)
    requires i < MaxFunds
    ensures i < 4 ==> c == "ABCD"[i]
    ensures c != '\n'
  {
    (65 + i) as char
  }

  /** Labels follow their positions: a later fund has a later letter. */
  lemma LabelsIncrease(i: nat, j: nat)
    requires i < j < MaxFunds
    ensures Label(i) < Label(j)
  {
  }

  /** Every value converts with `String(v)`. */
  predicate AllConvertible(vs: seq<Json>) {
    forall i :: 0 <= i < |vs| ==> Convertible(vs[i])
  }

  /** The conversions inside `funds.map(...)`: each fund, in order, is
      converted by the template `Fund ${label}: ${fund}`; the first one
      that cannot be converted throws. */
  function FundStrings(funds: seq<Json>): (r: Result<seq<string>>)
    ensures r.Success? <==> AllConvertible(funds)
    ensures r.Failure? ==> r.error == NoPrimitive
    ensures r.Success? ==>
      |r.value| == |funds| && forall i :: 0 <= i < |funds| ==> ToString(funds[i]) == Success(r.value[i])
  {
    if |funds| == 0 then Success([])
    else
      var s :- ToString(funds[0]);
      var rest :- FundStrings(funds[1..]);
      assert forall i :: 1 <= i < |funds| ==> funds[i] == funds[1..][i - 1];
      Success([s] + rest)
  }

  /** `Fund ${label}: ${fund}`, given the fund's string form. */
  function FundLine(i: nat, name: string): string
    requires i < MaxFunds
  {
    "Fund " + [Label(i)] + ": " + name
  }

  function FundLines(names: seq<string>): seq<string>
    requires |names| <= MaxFunds
  {
    seq(|names|, i requires 0 <= i < |names| => FundLine(i, names[i]))
  }

  /** The parts of `funds.join(', ')`. `join` converts each fund again,
      which gives the string the template gave, except that `join` turns
      `null` into the empty string. */
  function Names(funds: seq<Json>, strs: seq<string>): seq<string>
    requires |strs| == |funds|
  {
    seq(|funds|, i requires 0 <= i < |funds| => if funds[i].JNull? then "" else strs[i])
  }

  /** `value || 'Not specified'` converts without throwing. */
  predicate Printable(v: Option<Json>) {
    !Truthy(v) || Convertible(v.value)
  }

  /** `${value || 'Not specified'}`. */
  function Shown(v: Option<Json>): (r: Result<string>)
    ensures r.Success? <==> Printable(v)
  {
    if Truthy(v) then ToString(v.value) else Success(NotSpecified)
  }

  function PreferenceLine(k: nat, text: string): string
    requires k < 10
  {
    "- " + PreferenceLabels[k] + ": " + text
  }

  function PreferenceLines(texts: seq<string>): seq<string>
    requires |texts| == 10
  {
    seq(10, k requires 0 <= k < 10 => PreferenceLine(k, texts[k]))
  }

  /** The preference substitutions of the template, in order: read
      `preferences.<key>`, then convert `value || 'Not specified'`. The
      first read throws on an `undefined` or `null` preferences value, with
      the TypeError for the first key; otherwise the first value that
      cannot be converted throws. */
  function PreferenceTexts(preferences: Option<Json>, keys: seq<string>): (r: Result<seq<string>>)
    ensures Nullish(preferences) && |keys| > 0 ==> r == Failure(Get(preferences, Name(keys[0])).error)
    ensures !Nullish(preferences) ==>
      (r.Success? <==> forall k :: 0 <= k < |keys| ==> Printable(Get(preferences, Name(keys[k])).value))
    ensures !Nullish(preferences) && r.Failure? ==> r.error == NoPrimitive
    ensures r.Success? ==>
      && |r.value| == |keys|
      && forall k :: 0 <= k < |keys| ==>
        Get(preferences, Name(keys[k])).Success? && Shown(Get(preferences, Name(keys[k])).value) == Success(r.value[k])
  {
    if |keys| == 0 then Success([])
    else
      var v :- Get(preferences, Name(keys[0]));
      var text :- Shown(v);
      var rest :- PreferenceTexts(preferences, keys[1..]);
      assert forall k :: 1 <= k < |keys| ==> keys[k] == keys[1..][k - 1];
      Success([text] + rest)
  }

  /** The preferences can be read, and every value shown converts. */
  predicate PreferencesPrintable(preferences: Option<Json>) {
    && !Nullish(preferences)
    && forall k :: 0 <= k < |PreferenceKeys| ==> Printable(Get(preferences, Name(PreferenceKeys[k])).value)
  }

  /** The first line, which carries the number of funds; that number can
      be read back from it. */
  function Header(n: nat): (h: string)
    ensures |HeaderStart| + |NatToString(n)| <= |h|
    ensures h[..|HeaderStart|] == HeaderStart
    ensures forall k :: |HeaderStart| <= k < |HeaderStart| + |NatToString(n)| ==> '0' <= h[k] <= '9'
    ensures |HeaderStart| + |NatToString(n)| < |h| && h[|HeaderStart| + |NatToString(n)|] == ' '
    ensures ParseNat(h[|HeaderStart|..|HeaderStart| + |NatToString(n)|]) == n
  {
    ParseNatToString(n);
    var h := HeaderStart + NatToString(n) + HeaderEnd;
    assert h[|HeaderStart|..|HeaderStart| + |NatToString(n)|] == NatToString(n);
    assert h[|HeaderStart| + |NatToString(n)|] == HeaderEnd[0];
    h
  }

  const HeaderStart: string := "Compare the following "

  /** Written as the separating space and the rest, so that the first
      character after the count is evident. */
  const HeaderEnd: string := " " + "mutual funds based on the user's investment preferences:"

  const PreferencesTitle: string := "User's preferences:"

  const Criteria: string :=
    "Please provide a detailed comparison based on these criteria. Include points like historical returns, risk measures (standard deviation, Sharpe ratio), tax efficiency, fund age, AUM, fund manager experience, and overall suitability for the user's profile."

  const Concise: string := "Be concise and use bullet points or tables if needed. "

  const Important: string := "IMPORTANT: End your analysis with a clear recommendation in this exact format:"

  const RecommendationFormat: string := "\"Recommendation: [Fund Name]\""

  const ClosingStart: string := "Where [Fund Name] should be one of the following funds: "

  const ClosingEnd: string := " based on which fund better aligns with the user's preferences."

  function Closing(names: seq<string>): string {
    ClosingStart + Join(names, ", ") + ClosingEnd
  }

  /** The template literal of `generatePrompt`, given the funds' string
      forms and the ten preference texts. */
  function BuildPrompt(funds: seq<Json>, strs: seq<string>, texts: seq<string>): string
    requires |funds| <= MaxFunds && |strs| == |funds| && |texts| == 10
  {
    Header(|funds|) + "\n\n"
    + Join(FundLines(strs), "\n") + "\n\n"
    + PreferencesTitle + "\n"
    + Join(PreferenceLines(texts), "\n") + "\n\n"
    + Criteria + "\n\n"
    + Concise + "\n\n"
    + Important + "\n"
    + RecommendationFormat + "\n\n"
    + Closing(Names(funds, strs))
  }

  /** `generatePrompt(funds, preferences)`, failing where the source
      throws. The fund lines are built first, so a fund that cannot be
      converted wins; then the preferences are read and shown in order. */
  function GeneratePrompt(funds: seq<Json>, preferences: Option<Json>): (r: Result<string>)
    requires |funds| <= MaxFunds
    ensures r.Success? <==> AllConvertible(funds) && PreferencesPrintable(preferences)
    ensures !AllConvertible(funds) ==> r == Failure(NoPrimitive)
    ensures AllConvertible(funds) && Nullish(preferences) ==>
      r == Failure(ReadError(if preferences == None then "undefined" else "null", Name("time_horizon")))
    ensures AllConvertible(funds) && !Nullish(preferences) && r.Failure? ==> r.error == NoPrimitive
  {
    var strs :- FundStrings(funds);
    var texts :- PreferenceTexts(preferences, PreferenceKeys);
    Success(BuildPrompt(funds, strs, texts))
  }

  /** The prompt read as lines: the header, a blank line, one line per
      fund, a blank line, the title, the ten preference lines, and the
      fixed instructions ending in the closing line that lists the
      funds. */
  function PromptLines(funds: seq<Json>, strs: seq<string>, texts: seq<string>): (r: seq<string>)
    requires |funds| <= MaxFunds && |strs| == |funds| && |texts| == 10
    ensures |r| == |funds| + 23
    ensures r[0] == Header(|funds|) && r[1] == ""
    ensures forall i :: 0 <= i < |funds| ==> r[2 + i] == FundLine(i, strs[i])
    ensures r[|funds| + 2] == "" && r[|funds| + 3] == PreferencesTitle
    ensures forall k :: 0 <= k < 10 ==> r[|funds| + 4 + k] == PreferenceLine(k, texts[k])
    ensures r[|funds| + 14] == "" && r[|funds| + 15] == Criteria
    ensures r[|funds| + 16] == "" && r[|funds| + 17] == Concise
    ensures r[|funds| + 18] == "" && r[|funds| + 19] == Important
    ensures r[|funds| + 20] == RecommendationFormat && r[|funds| + 21] == ""
    ensures r[|funds| + 22] == Closing(Names(funds, strs))
  {
    [Header(|funds|), ""] + FundLines(strs) + ["", PreferencesTitle]
    + PreferenceLines(texts)
    + ["", Criteria, "", Concise, "", Important, RecommendationFormat, "", Closing(Names(funds, strs))]
  }

  /** The layout of the template literal, for arbitrary pieces: the
      template is the join, by newlines, of its lines. */
  lemma {:induction false} LayoutIsJoinedLines(header: string, fundLines: seq<string>, title: string,
      preferenceLines: seq<string>, criteria: string, concise: string, important: string,
      format: string, closing: string)
    requires |fundLines| >= 1 && |preferenceLines| >= 1
    ensures header + "\n\n" + Join(fundLines, "\n") + "\n\n" + title + "\n"
        + Join(preferenceLines, "\n") + "\n\n" + criteria + "\n\n" + concise + "\n\n"
        + important + "\n" + format + "\n\n" + closing
      == Join([header, ""] + fundLines + ["", title] + preferenceLines
          + ["", criteria, "", concise, "", important, format, "", closing], "\n")
  {
    var a := [header, ""];
    var b := ["", title];
    var c := ["", criteria, "", concise, "", important, format, "", closing];
    var f, p := fundLines, preferenceLines;
    var jf, jp, jc := Join(f, "\n"), Join(p, "\n"), Join(c, "\n");
    TailIsJoinedLines(criteria, concise, important, format, closing);
    JoinCons(header, [""], "\n");
    assert [header] + [""] == a;
    JoinCons("", [title], "\n");
    assert [""] + [title] == b;
    JoinAppend(p, c, "\n");
    JoinAppend(b, p + c, "\n");
    JoinAppend(f, b + (p + c), "\n");
    JoinAppend(a, f + (b + (p + c)), "\n");
    assert a + f + b + p + c == a + (f + (b + (p + c)));
    assert Join(a + f + b + p + c, "\n")
      == (header + "\n" + "") + "\n" + (jf + "\n" + (("" + "\n" + title) + "\n" + (jp + "\n" + jc)));
    LayoutReassociates(header, jf, title, jp, criteria, concise, important, format, closing);
  }

  lemma LayoutReassociates(header: string, jf: string, title: string, jp: string, criteria: string,
      concise: string, important: string, format: string, closing: string)
    ensures (header + "\n" + "") + "\n" + (jf + "\n" + (("" + "\n" + title) + "\n" + (jp + "\n"
        + (("" + "\n") + ((criteria + "\n") + (("" + "\n") + ((concise + "\n") + (("" + "\n") + ((important + "\n") + ((format + "\n") + (("" + "\n") + closing)))))))))))
      == header + "\n\n" + jf + "\n\n" + title + "\n" + jp + "\n\n" + criteria + "\n\n" + concise
        + "\n\n" + important + "\n" + format + "\n\n" + closing
  {
  }

  lemma TailIsJoinedLines(criteria: string, concise: string, important: string, format: string, closing: string)
    ensures Join(["", criteria, "", concise, "", important, format, "", closing], "\n")
      == ("" + "\n") + ((criteria + "\n") + (("" + "\n") + ((concise + "\n") + (("" + "\n") + ((important + "\n") + ((format + "\n") + (("" + "\n") + closing)))))))
  {
    var c8 := [closing];
    var c7 := [""] + c8;  JoinCons("", c8, "\n");
    var c6 := [format] + c7;  JoinCons(format, c7, "\n");
    var c5 := [important] + c6;  JoinCons(important, c6, "\n");
    var c4 := [""] + c5;  JoinCons("", c5, "\n");
    var c3 := [concise] + c4;  JoinCons(concise, c4, "\n");
    var c2 := [""] + c3;  JoinCons("", c3, "\n");
    var c1 := [criteria] + c2;  JoinCons(criteria, c2, "\n");
    var c0 := [""] + c1;  JoinCons("", c1, "\n");
    assert c0 == ["", criteria, "", concise, "", important, format, "", closing];
  }

  /** The prompt is its lines joined by newlines. */
  lemma PromptIsJoinedLines(funds: seq<Json>, strs: seq<string>, texts: seq<string>)
    requires 1 <= |funds| <= MaxFunds && |strs| == |funds| && |texts| == 10
    ensures BuildPrompt(funds, strs, texts) == Join(PromptLines(funds, strs, texts), "\n")
  {
    LayoutIsJoinedLines(Header(|funds|), FundLines(strs), PreferencesTitle, PreferenceLines(texts),
      Criteria, Concise, Important, RecommendationFormat, Closing(Names(funds, strs)));
  }

  /** A generated prompt is the lines of `PromptLines` joined by newlines,
      for the funds' string forms and the texts shown for the preferences. */
  lemma GeneratedPromptIsJoinedLines(funds: seq<Json>, preferences: Option<Json>)
    requires 1 <= |funds| <= MaxFunds
    requires GeneratePrompt(funds, preferences).Success?
    ensures FundStrings(funds).Success? && PreferenceTexts(preferences, PreferenceKeys).Success?
    ensures GeneratePrompt(funds, preferences).value
      == Join(PromptLines(funds, FundStrings(funds).value, PreferenceTexts(preferences, PreferenceKeys).value), "\n")
  {
    PromptIsJoinedLines(funds, FundStrings(funds).value, PreferenceTexts(preferences, PreferenceKeys).value);
  }

  /** A fund line has no line break unless the fund's name has one. */
  lemma FundLineAvoidsNewline(i: nat, name: string)
    requires i < MaxFunds
    requires '\n' !in name
    ensures '\n' !in FundLine(i, name)
  {
  }

  /** For funds whose names have no line break, the label block is exactly
      one line per fund: splitting it at line breaks gives back the fund
      lines, the `i`-th reading `Fund <i-th letter>: <i-th name>`. */
  lemma LabelBlockIsOneLinePerFund(funds: seq<Json>)
    requires 1 <= |funds| <= MaxFunds
    requires AllConvertible(funds)
    requires forall i :: 0 <= i < |funds| ==> '\n' !in ToString(funds[i]).value
    ensures FundStrings(funds).Success?
    ensures var lines := Split(Join(FundLines(FundStrings(funds).value), "\n"), '\n');
      && |lines| == |funds|
      && forall i :: 0 <= i < |funds| ==> lines[i] == "Fund " + [Label(i)] + ": " + ToString(funds[i]).value
  {
    var strs := FundStrings(funds).value;
    var lines := FundLines(strs);
    forall i | 0 <= i < |funds|
      ensures '\n' !in lines[i]
    {
      FundLineAvoidsNewline(i, strs[i]);
    }
    SplitJoin(lines, '\n');
  }

  /** In the closing instruction, the `i`-th name sits at its offset,
      followed by ", " when another name comes after it. */
  predicate ListedAt(names: seq<string>, i: nat)
    requires i < |names|
  {
    var text, at := Closing(names), |ClosingStart| + Offset(names, ", ", i);
    && at + |names[i]| <= |text|
    && text[at..at + |names[i]|] == names[i]
    && (i + 1 < |names| ==>
          |ClosingStart| + Offset(names, ", ", i + 1) == at + |names[i]| + 2
          && at + |names[i]| + 2 <= |text|
          && text[at + |names[i]|..at + |names[i]| + 2] == ", ")
  }

  lemma ClosingPartAt(names: seq<string>, i: nat)
    requires i < |names|
    ensures ListedAt(names, i)
  {
    var joined := Join(names, ", ");
    JoinPartAt(names, ", ", i);
    var o := Offset(names, ", ", i);
    SliceOfMiddle(ClosingStart, joined, ClosingEnd, o, o + |names[i]|);
    if i + 1 < |names| {
      SliceOfMiddle(ClosingStart, joined, ClosingEnd, o + |names[i]|, o + |names[i]| + 2);
    }
  }

  /** The closing instruction names every fund, in input order, separated
      by ", ": the `i`-th name is the `i`-th fund's string form (empty for
      `null`), and it is listed at its offset. */
  lemma ClosingListsEveryFund(funds: seq<Json>, strs: seq<string>, i: nat)
    requires FundStrings(funds) == Success(strs)
    requires i < |funds|
    ensures |Names(funds, strs)| == |funds|
    ensures Names(funds, strs)[i] == if funds[i].JNull? then "" else ToString(funds[i]).value
    ensures ListedAt(Names(funds, strs), i)
  {
    assert ToString(funds[i]) == Success(strs[i]);
    ClosingPartAt(Names(funds, strs), i);
  }

  /** Every falsy preference value (absent, `null`, `false`, `0`, "") is
      shown as "Not specified"; every truthy one as its string form, which
      fails for an object with its own `toString` key. */
  lemma ShownPrintsTruthyValues(v: Option<Json>)
    ensures Truthy(v) ==> Shown(v) == ToString(v.value)
    ensures !Truthy(v) ==> Shown(v) == Success(NotSpecified)
    ensures Shown(Some(JNum(0))) == Shown(Some(JStr(""))) == Shown(None) == Shown(Some(JNull))
      == Shown(Some(JBool(false))) == Success(NotSpecified)
    ensures Shown(Some(JObj(map["toString" := JNum(1)]))) == Failure(NoPrimitive)
  {
  }

  /** For a preferences object, the ten texts are those shown for its
      entries under the ten keys, in the fixed order (absent keys read as
      `undefined`); they all exist exactly when every entry shown converts. */
  lemma PreferencesOfObject(m: map<string, Json>)
    ensures var r := PreferenceTexts(Some(JObj(m)), PreferenceKeys);
      && (r.Success? <==> forall k :: 0 <= k < 10 ==> Printable(Lookup(m, PreferenceKeys[k])))
      && (r.Success? ==> |r.value| == 10 && forall k :: 0 <= k < 10 ==> Shown(Lookup(m, PreferenceKeys[k])) == Success(r.value[k]))
  {
    var r := PreferenceTexts(Some(JObj(m)), PreferenceKeys);
    assert forall k :: 0 <= k < 10 ==> Get(Some(JObj(m)), Name(PreferenceKeys[k])) == Success(Lookup(m, PreferenceKeys[k]));
  }
}

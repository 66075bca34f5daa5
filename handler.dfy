/** The `POST /api/compare-funds` handler: extract the funds, reject fewer
    than two, build the prompt, make the one call to the completion
    service, and map its outcome to the response. */
module CompareFundsHandler {
  import opened Wrappers
  import opened Text
  import opened JsValue
  import opened Extraction
  import opened Prompt
  import opened Envelope

  /** One request. `body` is the parsed request body; `upstream` is the
      outcome of the call to the completion service, should it be made.
      `sent` is the user message of that call, `None` when the handler
      answers without calling. */
  method CompareFunds(body: map<string, Json>, upstream: Upstream) returns (response: Response, sent: Option<string>)
    ensures response.Rejected? <==> |Extracted(body)| < 2
    ensures response.Rejected? ==> response == Rejected(TooFewFunds) && sent == None
    ensures |Extracted(body)| >= 2 ==>
      match GeneratePrompt(Extracted(body), Lookup(body, "preferences"))
      case Failure(message) => response == Failed(GenerationFailed, message) && sent == None
      case Success(prompt) => sent == Some(prompt) && response == MapUpstream(upstream)
    ensures sent.Some? ==> 2 <= |Extracted(body)| <= 4
    ensures sent.Some? ==>
      && FundStrings(Extracted(body)).Success?
      && PreferenceTexts(Lookup(body, "preferences"), PreferenceKeys).Success?
      && sent.value == Join(PromptLines(Extracted(body), FundStrings(Extracted(body)).value,
                                        PreferenceTexts(Lookup(body, "preferences"), PreferenceKeys).value), "\n")
  {
    // `const { preferences, ...fundData } = req.body`
    var preferences := Lookup(body, "preferences");
    var fundData := body - {"preferences"};
    var funds := ExtractFunds(fundData);
    PreferencesAndFund5AreNotFundKeys();
    ExtractedIgnoresOtherKeys(body, "preferences", JNull);
    if |funds| < 2 {
      return Rejected(TooFewFunds), None;
    }
    var prompt := GeneratePrompt(funds, preferences);
    if prompt.Failure? {
      return Failed(GenerationFailed, prompt.error), None;
    }
    GeneratedPromptIsJoinedLines(funds, preferences);
    sent := Some(prompt.value);
    response := MapUpstream(upstream);
  }

  function ExamplePreferences(): map<string, Json> {
    map["risk_appetite" := JStr("Moderate")]
  }

  function ExampleBody(): map<string, Json> {
    map["fund1" := JStr("Fund X"), "fund2" := JStr("Fund Y"), "preferences" := JObj(ExamplePreferences())]
  }

  /** A sample request: two funds and one preference. Both funds are
      extracted in order and convert to their own text, the time horizon
      is shown as "Not specified" and the risk appetite as "Moderate", and
      the prompt has the lines `Fund A: Fund X`, `Fund B: Fund Y`,
      `- Investment Time Horizon: Not specified` and
      `- Risk Appetite: Moderate` (the labels being the first two of
      `PreferenceLabels`), and a closing line that lists
      `Fund X, Fund Y`. */
  lemma TwoFundExample()
    ensures Extracted(ExampleBody()) == [JStr("Fund X"), JStr("Fund Y")]
    ensures FundStrings(Extracted(ExampleBody())) == Success(["Fund X", "Fund Y"])
    ensures var preferences := Lookup(ExampleBody(), "preferences");
      var texts := PreferenceTexts(preferences, PreferenceKeys);
      && texts.Success? && |texts.value| == 10
      && texts.value[0] == NotSpecified && texts.value[1] == "Moderate"
      && GeneratePrompt(Extracted(ExampleBody()), preferences)
        == Success(BuildPrompt(Extracted(ExampleBody()), ["Fund X", "Fund Y"], texts.value))
      && var lines := PromptLines(Extracted(ExampleBody()), ["Fund X", "Fund Y"], texts.value);
      && lines[2] == "Fund A: Fund X" && lines[3] == "Fund B: Fund Y"
      && lines[6] == "- " + PreferenceLabels[0] + ": Not specified"
      && lines[7] == "- " + PreferenceLabels[1] + ": Moderate"
      && lines[24] == ClosingStart + "Fund X, Fund Y" + ClosingEnd
  {
    var funds := ExampleFunds();
    ExampleStrings(funds);
    assert Lookup(ExampleBody(), "preferences") == Some(JObj(ExamplePreferences()));
    var texts := ExampleTexts();
    ExampleLines(funds, texts);
  }

  lemma ExampleStrings(funds: seq<Json>)
    requires funds == [JStr("Fund X"), JStr("Fund Y")]
    ensures FundStrings(funds) == Success(["Fund X", "Fund Y"])
  {
    assert AllConvertible(funds);
    var strs := FundStrings(funds).value;
    assert ToString(funds[0]) == Success(strs[0]) && ToString(funds[1]) == Success(strs[1]);
    assert strs == ["Fund X", "Fund Y"];
  }

  lemma ExampleTexts() returns (texts: seq<string>)
    ensures PreferenceTexts(Some(JObj(ExamplePreferences())), PreferenceKeys) == Success(texts)
    ensures |texts| == 10 && texts[0] == NotSpecified && texts[1] == "Moderate"
  {
    var m := ExamplePreferences();
    ExamplePreferencesPrintable();
    PreferencesOfObject(m);
    texts := PreferenceTexts(Some(JObj(m)), PreferenceKeys).value;
    ExampleShown(texts[0], texts[1]);
  }

  lemma ExamplePreferencesPrintable()
    ensures forall k :: 0 <= k < 10 ==> Printable(Lookup(ExamplePreferences(), PreferenceKeys[k]))
  {
    var m := ExamplePreferences();
    forall k | 0 <= k < 10
      ensures Printable(Lookup(m, PreferenceKeys[k]))
    {
      assert Lookup(m, PreferenceKeys[k]) == None || Lookup(m, PreferenceKeys[k]) == Some(JStr("Moderate"));
    }
  }

  lemma ExampleShown(t0: string, t1: string)
    requires Shown(Lookup(ExamplePreferences(), PreferenceKeys[0])) == Success(t0)
    requires Shown(Lookup(ExamplePreferences(), PreferenceKeys[1])) == Success(t1)
    ensures t0 == NotSpecified && t1 == "Moderate"
  {
    assert Lookup(ExamplePreferences(), PreferenceKeys[0]) == None;
    assert Lookup(ExamplePreferences(), PreferenceKeys[1]) == Some(JStr("Moderate"));
  }

  lemma ExampleFunds() returns (funds: seq<Json>)
    ensures funds == Extracted(ExampleBody()) == [JStr("Fund X"), JStr("Fund Y")]
  {
    var body := ExampleBody();
    assert FundKey(1) == "fund1" && FundKey(2) == "fund2" && FundKey(3) == "fund3" && FundKey(4) == "fund4";
    assert Present(body, 1) && Present(body, 2) && !Present(body, 3) && !Present(body, 4);
    assert ExtractedUpTo(body, 1) == [JStr("Fund X")];
    assert ExtractedUpTo(body, 2) == [JStr("Fund X"), JStr("Fund Y")];
    funds := Extracted(body);
    assert funds == ExtractedUpTo(body, 3) == ExtractedUpTo(body, 2);
  }

  lemma ExampleLines(funds: seq<Json>, texts: seq<string>)
    requires funds == [JStr("Fund X"), JStr("Fund Y")]
    requires |texts| == 10 && texts[0] == NotSpecified && texts[1] == "Moderate"
    ensures var lines := PromptLines(funds, ["Fund X", "Fund Y"], texts);
      && lines[2] == "Fund A: Fund X" && lines[3] == "Fund B: Fund Y"
      && lines[6] == "- " + PreferenceLabels[0] + ": Not specified"
      && lines[7] == "- " + PreferenceLabels[1] + ": Moderate"
      && lines[24] == ClosingStart + "Fund X, Fund Y" + ClosingEnd
  {
    var strs := ["Fund X", "Fund Y"];
    var lines := PromptLines(funds, strs, texts);
    assert lines[2] == FundLine(0, strs[0]) && lines[3] == FundLine(1, strs[1]);
    ExampleFundLines();
    assert lines[6] == PreferenceLine(0, texts[0]) && lines[7] == PreferenceLine(1, texts[1]);
    ExamplePreferenceLines();
    assert lines[24] == Closing(Names(funds, strs));
    ExampleClosing(funds);
  }

  lemma ExampleFundLines()
    ensures FundLine(0, "Fund X") == "Fund A: Fund X"
    ensures FundLine(1, "Fund Y") == "Fund B: Fund Y"
  {
    assert Label(0) == 'A' && Label(1) == 'B';
  }

  lemma ExamplePreferenceLines()
    ensures PreferenceLabels[0] == "Investment Time Horizon" && PreferenceLabels[1] == "Risk Appetite"
    ensures PreferenceLine(0, NotSpecified) == "- " + PreferenceLabels[0] + ": Not specified"
    ensures PreferenceLine(1, "Moderate") == "- " + PreferenceLabels[1] + ": Moderate"
  {
  }

  lemma ExampleClosing(funds: seq<Json>)
    requires funds == [JStr("Fund X"), JStr("Fund Y")]
    ensures Closing(Names(funds, ["Fund X", "Fund Y"])) == ClosingStart + "Fund X, Fund Y" + ClosingEnd
  {
    assert Names(funds, ["Fund X", "Fund Y"]) == ["Fund X"] + ["Fund Y"];
    JoinCons("Fund X", ["Fund Y"], ", ");
  }

  function OwnToStringBody(): map<string, Json> {
    map["fund1" := JObj(map["toString" := JStr("x")]), "fund2" := JStr("B"),
        "preferences" := JObj(map["risk_appetite" := JObj(map["toString" := JNum(1)])])]
  }

  /** A fund given as an object with its own `toString` key passes
      extraction (an object is truthy) but cannot be converted, so the
      prompt fails with the conversion TypeError, before the preferences
      are looked at; the request ends in the generation failure and nothing
      is sent. With two plain funds the same preferences still fail, on the
      risk appetite, which is such an object too. */
  lemma OwnToStringExample()
    ensures Extracted(OwnToStringBody()) == [JObj(map["toString" := JStr("x")]), JStr("B")]
    ensures GeneratePrompt(Extracted(OwnToStringBody()), Lookup(OwnToStringBody(), "preferences"))
      == Failure(NoPrimitive)
    ensures GeneratePrompt([JStr("A"), JStr("B")], Lookup(OwnToStringBody(), "preferences"))
      == Failure(NoPrimitive)
  {
    var body := OwnToStringBody();
    var bad := JObj(map["toString" := JStr("x")]);
    assert FundKey(1) == "fund1" && FundKey(2) == "fund2" && FundKey(3) == "fund3" && FundKey(4) == "fund4";
    assert Present(body, 1) && Present(body, 2) && !Present(body, 3) && !Present(body, 4);
    assert ExtractedUpTo(body, 2) == [bad, JStr("B")];
    assert Extracted(body) == ExtractedUpTo(body, 3) == ExtractedUpTo(body, 2);
    assert !Convertible(bad);
    var m := map["risk_appetite" := JObj(map["toString" := JNum(1)])];
    assert !Printable(Get(Some(JObj(m)), Name(PreferenceKeys[1])).value);
  }
}

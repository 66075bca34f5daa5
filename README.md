# Mutual-fund comparison proxy — a Dafny model

The backend of this application has one endpoint with real logic:
`POST /api/compare-funds`. It takes a request body holding up to four fund
names (`fund1` .. `fund4`) and a `preferences` object with up to ten
questionnaire answers. It rejects bodies with fewer than two funds. Otherwise
it builds a fixed-layout prompt (`generatePrompt`), sends it once to a
chat-completion service, and turns the outcome into a JSON response.

The model follows that handler step by step:

- `wrappers.dfy` — `Option` (`None` models JavaScript's `undefined`) and
  `Result` (`Failure(message)` models a thrown error and its `message`).
- `json.dfy` (module `JsValue`) — JSON values and the three JavaScript
  operations the handler applies to them:
  - truthiness (`if (x)`, `x || y`);
  - conversion to a string (template literals, `join`);
  - property access, which throws a TypeError on `undefined` and `null`.
- `text.dfy` (module `Text`) — `Array.prototype.join`, splitting at a
  character, and the lemmas that connect the two.
- `extraction.dfy` — the `fund1` .. `fund4` loop. It is an imperative
  method proved against a specification function.
- `prompt.dfy` — `generatePrompt`: labels, fund lines, the ten preference
  lines, the fixed instructions and the closing line that lists the funds.
- `envelope.dfy` — the response envelopes, their JSON bodies, and the
  mapping from the outcome of the upstream call to a response.
- `handler.dfy` — the handler itself, and a two-fund sample request.

The upstream call is an input of type `Upstream`. Either `fetch` rejected
(`Unreachable`), or an answer came with a status code, a status text and the
outcome of parsing its body as JSON. The handler returns the response and the
prompt it sent, if any. So "the upstream call is not made" is stated as
`sent == None`.

Points where the code behaves differently from what a reader might expect,
and which the model keeps as the code has them:

- A preference value is printed with `value || 'Not specified'`. So `0` (the
  minimum of the returns-vs-stability slider) and `""` print as
  `Not specified`, not as `0`.
- There is no separate error kind for an upstream failure or for a malformed
  upstream answer. A non-ok status throws `Perplexity API error: <status>
  <statusText>`. Reading a missing `choices[0].message` throws a TypeError.
  Both become the same 500 response. A missing `content`, `model` or `usage`
  is `undefined`, so that key is left out of the 200 body.
- A fund, or a truthy preference value, given as an object with its own
  `toString` key (or an array holding one) cannot be turned into a string.
  The template throws the TypeError `Cannot convert object to primitive
  value`, so the answer is a 500 and the upstream call is not made. The fund
  lines are built before the preferences are read, so such a fund wins over a
  missing `preferences`.
- A `null` element of an array becomes the empty string when `join` converts
  it, but `null` as a whole value prints as `null`.
- A request whose `preferences` is missing or `null` does not get
  `Not specified` lines. Reading `preferences.time_horizon` throws, so the
  answer is a 500 and the upstream call is not made.
- `response.ok` is derived from the status (200 to 299) rather than being a
  separate input.

## Model

| member | source | states |
|---|---|---|
| `CompareFundsHandler.CompareFunds` | backend/server.js:28-94 | The response is a 400 exactly when fewer than two funds are extracted, and then nothing is sent upstream. Otherwise, when `generatePrompt` throws (a fund or a shown preference that cannot be converted, or `undefined`/`null` preferences), the response is the 500 carrying that error's message and nothing is sent. Otherwise the prompt is sent and the response is the mapped upstream outcome. The prompt sent is the newline join of `PromptLines` for the funds' string forms and the ten preference texts. Funds are taken from the body without `preferences`, and this equals extraction from the whole body. |
| `Extraction.FundKey` | backend/server.js:35 | The template `fund${i}`: the text `fund` followed by `i` in decimal (definition, no contract; that distinct numbers give distinct keys is stated by `FundKeyInjective`). |
| `Extraction.FundKeyInjective` | backend/server.js:34-35 | Two probe numbers give the same key exactly when they are equal, so the loop reads four different keys. |
| `Extraction.Present` | backend/server.js:35 | The test of the loop: the value under key `fund<i>` is truthy (definition, no contract). |
| `Extraction.ExtractFunds` | backend/server.js:33-38 | The loop over `i = 1 .. 4` collects exactly the specified funds, and at most four of them. |
| `Extraction.Extracted` | backend/server.js:33-38 | At most four funds are extracted. |
| `Extraction.ExtractedUpToIsPresentValues` | backend/server.js:33-38 | After probing `fund1` .. `fund<k>`, the `j`-th fund is the value of the `j`-th present key. The key numbers strictly increase, so there are no gaps and the order is kept. A key is used if and only if its value is truthy. |
| `Extraction.ExtractedIsPresentValues` | backend/server.js:33-38 | The same for the four keys. Every extracted fund is truthy, and there are at most four. |
| `Extraction.ExtractedUpToReadsOnlyFundKeys` | backend/server.js:34-36 | Two bodies that agree on `fund1` .. `fund<k>` give the same funds. |
| `Extraction.ExtractedIgnoresOtherKeys` | backend/server.js:30-38 | Adding, changing or removing any key other than `fund1` .. `fund4` leaves the extracted funds unchanged. |
| `Extraction.PreferencesAndFund5AreNotFundKeys` | backend/server.js:30-35 | `preferences` and `fund5` are not among the probed keys `fund1` .. `fund4`. |
| `JsValue.Lookup` | backend/server.js:30 | Reading a key of a body gives its value when present, else `undefined` (definition, no contract). |
| `JsValue.Truthy` | backend/server.js:35 | JavaScript's ToBoolean, used by `if (fundData[...])` at line 35 and by `\|\|` at lines 108-117: `undefined`, `null`, `false`, `0` and `""` are falsy; every other value, empty arrays and objects included, is truthy (definition, no contract). |
| `JsValue.FalsyValues` | backend/server.js:108-117 | A value is falsy exactly when it is one of the five values `undefined`, `null`, `false`, `0` and `""`. |
| `JsValue.Get` | backend/server.js:81 | Property access throws exactly on `undefined` and `null`, with V8's "Cannot read properties of ..." message. On an object it reads the key. |
| `JsValue.ReadError` | backend/server.js:81 | V8's TypeError text for reading a property off `undefined` or `null`: `Cannot read properties of <what> (reading '<key>')` (definition, no contract). |
| `JsValue.ToString` | backend/server.js:100-126 | `String(v)` succeeds exactly on convertible values. It throws "Cannot convert object to primitive value" on an object with its own `toString` key, and on an array holding such a value at any depth. |
| `JsValue.NatToString` | backend/server.js:103 | A number is rendered as a non-empty string of decimal digits with no leading zero. It is one digit exactly below 10. |
| `JsValue.ParseNatToString` | backend/server.js:103 | Reading the rendered digits back gives the number: the fund count in the header is exact. |
| `JsValue.IntToString` | backend/server.js:74 | The status reads back from its rendering: a non-negative status is digits that parse to it, and a negative one is `-` followed by digits that parse to its magnitude. |
| `Prompt.Label` | backend/server.js:99 | `String.fromCharCode(65 + index)` gives A, B, C, D for the first four positions. A label is never a line break. |
| `Prompt.LabelsIncrease` | backend/server.js:99 | A later position gets a strictly later letter. |
| `Prompt.FundStrings` | backend/server.js:98-101 | Converting the funds in order fails exactly when some fund cannot be converted, with the conversion error. Otherwise there is one string per fund, and string `i` is `String(fund i)`. |
| `Prompt.FundLine` | backend/server.js:100 | `Fund ${label}: ${fund}`: `Fund `, the label, `: ` and the fund's string (definition, no contract; `FundLineAvoidsNewline` and `LabelBlockIsOneLinePerFund` state its properties). |
| `Prompt.FundLines` | backend/server.js:98-101 | The `map` over the funds: line `i` is `FundLine(i, <string i>)` (definition, no contract; `LabelBlockIsOneLinePerFund` states that the joined block splits back into these lines). |
| `Prompt.Names` | backend/server.js:126 | The parts `join` lists, one per fund and in order: the fund's string form, or the empty string for `null` (definition, no contract; `ClosingListsEveryFund` states where each sits in the closing line). |
| `Prompt.Shown` | backend/server.js:108-117 | `value \|\| 'Not specified'` converts exactly when the value is falsy or convertible. |
| `Prompt.PreferenceLine` | backend/server.js:108-117 | `- <label>: <text>` (definition, no contract; `PromptLines` states each such line's place in the prompt). |
| `Prompt.PreferenceLines` | backend/server.js:108-117 | The ten preference lines in the fixed key order, line `k` showing text `k` (definition, no contract; `PromptLines` states them at prompt lines `\|funds\| + 4 + k`). |
| `Prompt.PreferenceTexts` | backend/server.js:108-117 | For `undefined` or `null` preferences the substitutions throw the TypeError for the first key. Otherwise they succeed exactly when every shown value converts, and fail with the conversion error otherwise. On success, text `k` is what `preferences[key k] \|\| 'Not specified'` shows. |
| `Prompt.Header` | backend/server.js:103 | The first line begins with `Compare the following `, then the fund count as decimal digits, which read back as that count and are followed by a space. |
| `Prompt.Closing` | backend/server.js:126 | The closing instruction: its fixed start, the names joined by `, `, and its fixed end (definition, no contract; the positions of the names in it are stated by `ClosingPartAt`). |
| `Prompt.BuildPrompt` | backend/server.js:103-126 | The template literal, piece by piece: header, blank line, fund lines, blank line, title, preference lines, the fixed instructions and the closing line (definition, no contract; its layout as lines is stated by `PromptIsJoinedLines`). |
| `Prompt.GeneratePrompt` | backend/server.js:96-127 | `generatePrompt` succeeds exactly when every fund converts, `preferences` is neither `undefined` nor `null`, and every shown preference converts. A fund that cannot be converted gives the conversion error first. Then `undefined`/`null` preferences give the error for reading `time_horizon`. Any other failure is the conversion error. |
| `Prompt.PromptLines` | backend/server.js:103-126 | The prompt has `\|funds\| + 23` lines, and every line is given. Line 0 is the header with the count and line 1 is blank. Lines 2 .. are the fund lines, followed by a blank line and the title. The ten preference lines are at `\|funds\| + 4 + k`. Then come the criteria, the conciseness line and the `IMPORTANT` line, each after a blank line, the `"Recommendation: [Fund Name]"` format line, a blank line, and the closing line listing the names. |
| `Prompt.PromptIsJoinedLines` | backend/server.js:103-126 | For at least one fund, the template literal equals those lines joined by `\n`. |
| `Prompt.GeneratedPromptIsJoinedLines` | backend/server.js:96-127 | A prompt that `generatePrompt` returns for at least one fund is the newline join of `PromptLines` for the funds' string forms and the ten preference texts. |
| `Prompt.LayoutIsJoinedLines` | backend/server.js:103-126 | The template's layout is the newline join of its lines, whatever the pieces. |
| `Prompt.FundLineAvoidsNewline` | backend/server.js:100 | A fund line has a line break only if the fund's name has one. |
| `Prompt.LabelBlockIsOneLinePerFund` | backend/server.js:98-101 | When every fund converts and no string form has a line break, splitting the label block at `\n` gives exactly `\|funds\|` lines. Line `i` is `Fund <Label(i)>: String(fund i)`. |
| `Prompt.ClosingPartAt` | backend/server.js:126 | In the closing instruction, every name sits verbatim at its offset, and the next name follows after `, `. |
| `Prompt.ClosingListsEveryFund` | backend/server.js:126 | The closing instruction's `i`-th name is fund `i`'s string form (empty for `null`), listed at its offset, with the next one after `, `. So all funds appear in input order. |
| `Prompt.ShownPrintsTruthyValues` | backend/server.js:108-117 | A truthy value is shown as its string form, which throws for an object with its own `toString`. Any falsy value, including `0`, `""`, `false`, `null` and an absent key, shows `Not specified`. |
| `Prompt.PreferencesOfObject` | backend/server.js:108-117 | For a preferences object, the ten texts exist exactly when each of its entries for the ten keys can be shown. Text `k` is what its entry for key `k` shows, in the fixed order. |
| `Envelope.Status` | backend/server.js:42-92 | The status a response is sent with: 400 for the rejection, 500 for a failure, 200 for a comparison (definition, no contract; `UpstreamOutcomeStatus` and `Body` state what depends on it). |
| `Envelope.Entry` | backend/server.js:79-84 | One field as `JSON.stringify` writes it: left out when `undefined` (definition, no contract; `Body` states the resulting keys and values). |
| `Envelope.Body` | backend/server.js:42-92 | `success` is true exactly for status 200, and `error` is present exactly otherwise. The 400 body is `{success, error}`. The 500 body is `{success, error, details}`. The 200 body passes `comparison`, `model` and `usage` through. |
| `Envelope.IsOk` | backend/server.js:73 | `response.ok`: the status is between 200 and 299 (definition, no contract). |
| `Envelope.UpstreamError` | backend/server.js:74 | The message `Perplexity API error: <status> <statusText>` (definition, no contract; `NonOkDetailsCarryStatus` states that the details end with the status and its text). |
| `Envelope.Comparison` | backend/server.js:81 | `data.choices[0].message.content` reads the first choice's message content. It fails only with a read-off-`undefined`/`null` TypeError, and it succeeds only on an object answer that has a `choices` key. |
| `Envelope.MapUpstream` | backend/server.js:73-92 | A rejected fetch, a non-ok status (with `Perplexity API error: <status> <statusText>`), a body that does not parse, and an unreadable answer all give the 500 with the generic error. Each carries its own error message as `details`; for the unreadable answer that is the TypeError of the `choices[0].message.content` read. A 200 comes exactly from an ok, parsed, readable answer, with model and usage looked up in the answer object (`undefined` when absent). It is never a 400. |
| `Envelope.UpstreamOutcomeStatus` | backend/server.js:86-92 | Every outcome of the call is a 200 or a 500. A 500 is exactly a failure and carries "Failed to generate comparison". |
| `Envelope.NonOkDetailsCarryStatus` | backend/server.js:73-74 | For a non-ok answer, the details end with `<status> <statusText>`. |
| `Envelope.WellFormedAnswerPassesThrough` | backend/server.js:77-84 | For an ok answer `{choices: [{message: {content}} ...], model, usage}`, the response passes content, model and usage through unchanged. |
| `CompareFundsHandler.TwoFundExample` | backend/server.js:30-49 | For `{fund1: "Fund X", fund2: "Fund Y", preferences: {risk_appetite: "Moderate"}}`, both funds are extracted in order and convert to their text, and the prompt is built. It has the lines `Fund A: Fund X`, `Fund B: Fund Y`, and time horizon `Not specified`. The risk appetite line is `Moderate`. The closing line lists `Fund X, Fund Y`. |
| `CompareFundsHandler.ExampleFunds` | backend/server.js:33-38 | The example body yields `["Fund X", "Fund Y"]`. |
| `CompareFundsHandler.ExampleStrings` | backend/server.js:98-101 | The example funds convert to `["Fund X", "Fund Y"]`. |
| `CompareFundsHandler.ExampleTexts` | backend/server.js:108-117 | The example preferences give ten texts, the first `Not specified` and the second `Moderate`. |
| `CompareFundsHandler.ExampleLines` | backend/server.js:98-126 | The example's prompt lines at positions 2, 3, 6, 7 and 24. |
| `CompareFundsHandler.ExampleFundLines` | backend/server.js:98-101 | `Fund A: Fund X` and `Fund B: Fund Y`. |
| `CompareFundsHandler.ExamplePreferenceLines` | backend/server.js:108-109 | The first two labels, an absent time horizon shown as `Not specified`, and a risk appetite of "Moderate" shown as `Moderate`. |
| `CompareFundsHandler.ExampleClosing` | backend/server.js:126 | The example's closing line lists `Fund X, Fund Y`. |
| `CompareFundsHandler.OwnToStringExample` | backend/server.js:28-117 | A fund `{"toString": "x"}` is extracted (an object is truthy), and the prompt then fails with the conversion error. With plain funds, a risk appetite `{"toString": 1}` fails the same way. |
| `Text.Join` | backend/server.js:101 | `Array.prototype.join` on strings: the parts with the separator between neighbours, and `""` for no parts. It is used for `join('\n')` at line 101 and `join(', ')` at line 126 (definition, no contract; positions in it are stated by `JoinPartAt`). |
| `Text.JoinPartAt` | backend/server.js:126 | Every part of a join appears verbatim at its offset, followed by the separator. |
| `Text.SplitJoin` | backend/server.js:101 | Splitting a newline join of newline-free lines gives the lines back. |

## Left out

- Express setup, CORS origins, the JSON middleware and `app.listen`
  (backend/server.js:6-20, 129-131): framework wiring with no logic of the
  handler.
- The `/health` endpoint (backend/server.js:23-25): it only reports the wall
  clock.
- The `fetch` request itself (backend/server.js:52-71): URL, headers, the
  bearer token from the environment, the model name and the fixed system
  prompt. It is network I/O, so its outcome is the `Upstream` input and only
  the user message (`sent`) is modelled.
- `response.json()` (backend/server.js:77): JSON parsing is a foreign library.
  Its outcome, a value or a parse error message, is part of the `Upstream`
  input.
- `console.error` (backend/server.js:87): logging only.
- Concurrency and `async`/`await`: each request is independent and shares no
  state.
- src/router.js, src/config/api.js and src/data/questions.js: a static route
  table, deployment URLs and static questionnaire data. The ten preference
  keys are the ids in questions.js.
- Request bodies that are not JSON objects: `express.json()` hands the
  handler an object, so bodies are modelled as maps.
- JsValue.Json: numbers are integers of any size. JavaScript numbers are
  doubles, so integers beyond 2^53 lose precision when the body is parsed
  and print rounded (2^60 prints as `1152921504606847000`), while the model
  keeps and prints them exactly. Fractional numbers and the exponent
  notation JavaScript uses above 10^21 are not modelled either.
- JsValue.ToString: an array is converted through the inherited `join`, and
  an object's own `valueOf` key plays no part: JSON values are never
  callable, so only an own `toString` key changes whether the conversion
  throws.
- JsValue.Get: named properties of arrays and strings (such as `length`) and
  inherited prototype properties read as `undefined`. No key the handler
  reads is one of these.
- JsValue.Get: strings are sequences of Unicode code points, not UTF-16 code
  units, so `"..."[0]` on a character outside the BMP differs.
- Prompt.Label: the label is `65 + index` as a character without the 16-bit
  wrap of `fromCharCode`. The builder requires at most 0xD800 - 65 funds, so
  every label index is below 0xD800 - 65, and the handler passes at most
  four.
- Prompt.PromptIsJoinedLines: it gives the whole prompt as the newline join of
  its lines. Splitting back at line breaks is proved only for the label block
  (`LabelBlockIsOneLinePerFund`). The long fixed instruction texts are not
  proved to be free of line breaks.
- CompareFundsHandler.TwoFundExample: the two preference lines are stated as
  `- ` + label + `: ...`, with the labels proved equal to
  `Investment Time Horizon` and `Risk Appetite`, rather than as one literal
  string.
- The TypeError messages follow the wording of Node's V8 engine.

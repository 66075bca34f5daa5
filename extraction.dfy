/** Fund extraction: the loop at the top of the comparison handler that
    probes the keys `fund1` .. `fund4` of the request body in order and
    collects every truthy value. */
module Extraction {
  import opened Wrappers
  import opened JsValue

  /** The template `fund${i}`. */
  function FundKey(i: nat): string {
    "fund" + NatToString(i)
  }

  /** Different numbers give different keys, so the loop never probes the
      same key twice. */
  lemma FundKeyInjective(i: nat, j: nat)
    ensures FundKey(i) == FundKey(j) <==> i == j
  {
    if FundKey(i) == FundKey(j) {
      assert FundKey(i)[4..] == NatToString(i);
      assert FundKey(j)[4..] == NatToString(j);
      ParseNatToString(i);
      ParseNatToString(j);
    }
  }

  /** Key `fund<i>` holds a truthy value. */
  predicate Present(body: map<string, Json>, i: nat) {
    Truthy(Lookup(body, FundKey(i)))
  }

  /** What the loop has collected after probing `fund1` .. `fund<k>`. */
  function ExtractedUpTo(body: map<string, Json>, k: nat): (r: seq<Json>)
    ensures |r| <= k
  {
    if k == 0 then []
    else ExtractedUpTo(body, k - 1) + (if Present(body, k) then [body[FundKey(k)]] else [])
  }

  /** The key numbers `i` in `1 .. k` for which `fund<i>` is present. */
  function PresentUpTo(body: map<string, Json>, k: nat): seq<nat> {
    if k == 0 then []
    else PresentUpTo(body, k - 1) + (if Present(body, k) then [k] else [])
  }

  /** The funds the handler extracts from a request body. */
  function Extracted(body: map<string, Json>): (r: seq<Json>)
    ensures |r| <= 4
  {
    ExtractedUpTo(body, 4)
  }

  /** The loop of the handler: `for (let i = 1; i <= 4; i++)`, appending
      `body[fund<i>]` whenever it is truthy. */
  method ExtractFunds(body: map<string, Json>) returns (funds: seq<Json>)
    ensures funds == Extracted(body)
    ensures |funds| <= 4
  {
    funds := [];
    var i := 1;
    while i <= 4
      invariant 1 <= i <= 5
      invariant funds == ExtractedUpTo(body, i - 1)
      invariant |funds| <= i - 1
    {
      var key := FundKey(i);
      if Truthy(Lookup(body, key)) {
        funds := funds + [body[key]];
      }
      i := i + 1;
    }
  }

  /** The extracted funds are exactly the values of the present keys, in
      increasing key order: the `j`-th fund is the value of the `j`-th
      present key, the present key numbers increase strictly, and a key
      among `fund1` .. `fund<k>` is used if and only if it is present. */
  lemma {:induction false} ExtractedUpToIsPresentValues(body: map<string, Json>, k: nat)
    ensures var funds, keys := ExtractedUpTo(body, k), PresentUpTo(body, k);
      && |funds| == |keys| <= k
      && (forall j :: 0 <= j < |keys| ==> 1 <= keys[j] <= k && FundKey(keys[j]) in body && funds[j] == body[FundKey(keys[j])])
      && (forall j, j' :: 0 <= j < j' < |keys| ==> keys[j] < keys[j'])
      && (forall i :: 1 <= i <= k ==> (i in keys <==> Present(body, i)))
  {
    if k > 0 {
      ExtractedUpToIsPresentValues(body, k - 1);
      var funds, keys := ExtractedUpTo(body, k - 1), PresentUpTo(body, k - 1);
      if Present(body, k) {
        assert FundKey(k) in body;
        assert ExtractedUpTo(body, k) == funds + [body[FundKey(k)]];
        assert PresentUpTo(body, k) == keys + [k];
      } else {
        assert ExtractedUpTo(body, k) == funds && PresentUpTo(body, k) == keys;
        assert k !in keys;
      }
    }
  }

  /** The same for the handler's four keys; every extracted fund is truthy
      and there are at most four of them. */
  lemma ExtractedIsPresentValues(body: map<string, Json>)
    ensures var funds, keys := Extracted(body), PresentUpTo(body, 4);
      && |funds| == |keys| <= 4
      && (forall j :: 0 <= j < |keys| ==> 1 <= keys[j] <= 4 && FundKey(keys[j]) in body && funds[j] == body[FundKey(keys[j])])
      && (forall j, j' :: 0 <= j < j' < |keys| ==> keys[j] < keys[j'])
      && (forall i :: 1 <= i <= 4 ==> (i in keys <==> Present(body, i)))
    ensures forall j :: 0 <= j < |Extracted(body)| ==> Truthy(Some(Extracted(body)[j]))
  {
    ExtractedUpToIsPresentValues(body, 4);
    var keys := PresentUpTo(body, 4);
    forall j | 0 <= j < |Extracted(body)|
      ensures Truthy(Some(Extracted(body)[j]))
    {
      assert keys[j] in keys;
    }
  }

  /** The extraction reads nothing but `fund1` .. `fund<k>`: two bodies
      that agree on those keys give the same funds. */
  lemma {:induction false} ExtractedUpToReadsOnlyFundKeys(b1: map<string, Json>, b2: map<string, Json>, k: nat)
    requires forall i :: 1 <= i <= k ==> Lookup(b1, FundKey(i)) == Lookup(b2, FundKey(i))
    ensures ExtractedUpTo(b1, k) == ExtractedUpTo(b2, k)
  {
    if k > 0 {
      ExtractedUpToReadsOnlyFundKeys(b1, b2, k - 1);
    }
  }

  /** Keys other than `fund1` .. `fund4` (for example `fund5` or
      `preferences`) never influence the extracted funds. */
  lemma ExtractedIgnoresOtherKeys(body: map<string, Json>, key: string, v: Json)
    requires forall i :: 1 <= i <= 4 ==> key != FundKey(i)
    ensures Extracted(body[key := v]) == Extracted(body)
    ensures Extracted(body - {key}) == Extracted(body)
  {
    ExtractedUpToReadsOnlyFundKeys(body[key := v], body, 4);
    ExtractedUpToReadsOnlyFundKeys(body - {key}, body, 4);
  }

  /** `preferences` and `fund5` are not among the probed keys. */
  lemma PreferencesAndFund5AreNotFundKeys()
    ensures forall i :: 1 <= i <= 4 ==> "preferences" != FundKey(i) && "fund5" != FundKey(i)
  {
    forall i | 1 <= i <= 4
      ensures "preferences" != FundKey(i) && "fund5" != FundKey(i)
    {
      assert |FundKey(i)| == 5;
      assert FundKey(i)[4] == DigitChar(i);
    }
  }
}

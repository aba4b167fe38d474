/**
  The validation and normalisation step of the Telegram flow: a parsed payload
  is accepted only when its five fields are truthy, and is turned into the
  `signal_data` record sent for processing.
 */
module SignalNormalizer {
  import opened Wrappers
  import opened JsValues
  import opened CoinLookup

  const TokenSymbolKey: string := "tokenSymbol"
  const SignalKey: string := "signal"
  const Tp1Key: string := "tp1"
  const Tp2Key: string := "tp2"
  const SlKey: string := "sl"

  /** The five fields the payload must carry, in the order the guard tests them. */
  const RequiredKeys: seq<string> := [TokenSymbolKey, SignalKey, Tp1Key, Tp2Key, SlKey]

  /** The `signal_data` body of the processing request. */
  datatype SignalData = SignalData(
    tokenSymbol: JsValue,
    signal: JsValue,
    tp1: JsValue,
    tp2: JsValue,
    sl: JsValue,
    tokenId: Option<string>)

  /** Why a payload yields no `signal_data`: a falsy field takes the
      "Invalid response format" branch; a truthy `tokenSymbol` that is not a
      string makes `toLowerCase` throw. */
  datatype Rejection = Incomplete | SymbolNotString

  /** The guard `parsedResult && parsedResult.tokenSymbol && … && parsedResult.sl`. */
  predicate IsComplete(p: JsValue)
    ensures IsComplete(p) ==> p.Object?
    ensures IsComplete(p) ==>
      forall k :: 0 <= k < |RequiredKeys| ==> RequiredKeys[k] in p.properties
  {
    Truthy(p) && Truthy(Get(p, TokenSymbolKey)) && Truthy(Get(p, SignalKey)) &&
    Truthy(Get(p, Tp1Key)) && Truthy(Get(p, Tp2Key)) && Truthy(Get(p, SlKey))
  }

  /** The guard holds exactly when the payload is truthy and no required field is
      missing or falsy. */
  lemma {:induction false} IsCompleteIffNoFieldFalsy(p: JsValue)
    ensures IsComplete(p) <==>
      Truthy(p) && forall k :: 0 <= k < |RequiredKeys| ==> Truthy(Get(p, RequiredKeys[k]))
  {
    if Truthy(p) && forall k :: 0 <= k < |RequiredKeys| ==> Truthy(Get(p, RequiredKeys[k])) {
      assert Truthy(Get(p, RequiredKeys[0])) && Truthy(Get(p, RequiredKeys[1])) &&
        Truthy(Get(p, RequiredKeys[2])) && Truthy(Get(p, RequiredKeys[3])) &&
        Truthy(Get(p, RequiredKeys[4]));
    }
  }

  /** Any one field missing from an object payload invalidates it. */
  lemma MissingFieldRejected(coins: seq<Coin>, props: map<string, JsValue>, k: nat)
    requires k < |RequiredKeys| && RequiredKeys[k] !in props
    ensures Normalize(coins, Object(props)) == Err(Incomplete)
  {
    IsCompleteIffNoFieldFalsy(Object(props));
  }

  /** Validation and the `processData.signal_data` construction: the five fields are
      copied unchanged and `tokenId` is the lookup of the lower-cased symbol. */
  function Normalize(coins: seq<Coin>, p: JsValue): (r: Result<SignalData, Rejection>)
    ensures r.Ok? <==> IsComplete(p) && Get(p, TokenSymbolKey).Str?
    ensures r == Err(Incomplete) <==> !IsComplete(p)
    ensures r.Ok? ==>
      && r.value.tokenSymbol == Get(p, TokenSymbolKey)
      && r.value.signal == Get(p, SignalKey)
      && r.value.tp1 == Get(p, Tp1Key)
      && r.value.tp2 == Get(p, Tp2Key)
      && r.value.sl == Get(p, SlKey)
    ensures r.Ok? ==> r.value.tokenId == GetCoinId(coins, Get(p, TokenSymbolKey).s)
    ensures r.Ok? ==> (r.value.tokenId.None? <==> NoMatch(coins, Get(p, TokenSymbolKey).s))
  {
    if !IsComplete(p) then
      Err(Incomplete)
    else
      match Get(p, TokenSymbolKey)
      case Str(symbol) =>
        var tokenSymbolLower := Lower(symbol);
        var coinId := GetCoinId(coins, tokenSymbolLower);
        LookupOfLowered(coins, symbol);
        Ok(SignalData(
          Get(p, TokenSymbolKey), Get(p, SignalKey), Get(p, Tp1Key), Get(p, Tp2Key), Get(p, SlKey),
          coinId))
      case _ => Err(SymbolNotString)
  }

  /** A complete payload for `ZIG` resolves against a dataset holding `zignaly`. */
  lemma ZigPayloadResolves()
    ensures
      var payload := Object(map[
        TokenSymbolKey := Str("ZIG"), SignalKey := Str("Buy"),
        Tp1Key := Number(0.1), Tp2Key := Number(0.15), SlKey := Number(0.0708)]);
      Normalize([Coin("bitcoin", "btc"), Coin("zignaly", "zig")], payload) ==
        Ok(SignalData(Str("ZIG"), Str("Buy"), Number(0.1), Number(0.15), Number(0.0708), Some("zignaly")))
  {
    var payload := Object(map[
      TokenSymbolKey := Str("ZIG"), SignalKey := Str("Buy"),
      Tp1Key := Number(0.1), Tp2Key := Number(0.15), SlKey := Number(0.0708)]);
    var coins := [Coin("bitcoin", "btc"), Coin("zignaly", "zig")];
    assert Get(payload, TokenSymbolKey) == Str("ZIG");
    assert IsComplete(payload);
    assert Lower("ZIG") == "zig" == Lower("zig");
    assert Lower("btc")[0] == 'b';
    FirstMatchWins(coins, "ZIG", 1);
  }

  /** A payload carrying only `tokenSymbol` is incomplete. */
  lemma SymbolOnlyPayloadIncomplete(coins: seq<Coin>)
    ensures Normalize(coins, Object(map[TokenSymbolKey := Str("BTC")])) == Err(Incomplete)
  {
    MissingFieldRejected(coins, map[TokenSymbolKey := Str("BTC")], 1);
  }
}

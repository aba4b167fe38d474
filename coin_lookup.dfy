/**
  The coin lookup table: a first-match search, case-insensitive on the ticker
  symbol, over the bundled coin records (here a parameter, in dataset order).
 */
module CoinLookup {
  import opened Wrappers

  /** A record of the coin dataset; its other fields are never read. */
  datatype Coin = Coin(id: string, symbol: string)

  predicate IsUpper(c: char) {
    'A' <= c <= 'Z'
  }

  /** ASCII lower-casing of one character. */
  function LowerChar(c: char): (r: char)
    ensures !IsUpper(r)
    ensures r == c <==> !IsUpper(c)
    ensures IsUpper(c) ==> r as int - c as int == 'a' as int - 'A' as int
  {
    if IsUpper(c) then (c as int - 'A' as int + 'a' as int) as char else c
  }

  /** `toLowerCase`, character by character. */
  function Lower(s: string): (r: string)
    ensures |r| == |s|
    ensures forall i :: 0 <= i < |s| ==> r[i] == LowerChar(s[i])
  {
    if s == [] then [] else [LowerChar(s[0])] + Lower(s[1..])
  }

  /** Lower-casing twice is lower-casing once. */
  lemma {:induction false} LowerIdempotent(s: string)
    ensures Lower(Lower(s)) == Lower(s)
  {
    var once := Lower(s);
    var twice := Lower(once);
    forall i | 0 <= i < |s|
      ensures twice[i] == once[i]
    {
      assert !IsUpper(once[i]);
    }
  }

  /** Two strings that differ at most in the case of their letters. */
  ghost predicate SameUpToCase(a: string, b: string) {
    |a| == |b| && forall i :: 0 <= i < |a| ==> LowerChar(a[i]) == LowerChar(b[i])
  }

  lemma {:induction false} SameUpToCaseLower(a: string, b: string)
    requires SameUpToCase(a, b)
    ensures Lower(a) == Lower(b)
  {
    var la, lb := Lower(a), Lower(b);
    forall i | 0 <= i < |a|
      ensures la[i] == lb[i]
    {
    }
  }

  /** The predicate `find` applies to each record: its lower-cased symbol is the key. */
  predicate Matches(c: Coin, key: string)
    ensures Matches(c, key) ==> |key| == |c.symbol|
    ensures Matches(c, key) ==> forall i :: 0 <= i < |key| ==> !IsUpper(key[i])
  {
    Lower(c.symbol) == key
  }

  /** `i` is the first index, in dataset order, whose record matches `symbol` up to case. */
  ghost predicate IsFirstMatch(coins: seq<Coin>, symbol: string, i: int) {
    0 <= i < |coins| && Matches(coins[i], Lower(symbol)) &&
    forall j :: 0 <= j < i ==> !Matches(coins[j], Lower(symbol))
  }

  ghost predicate NoMatch(coins: seq<Coin>, symbol: string) {
    forall j :: 0 <= j < |coins| ==> !Matches(coins[j], Lower(symbol))
  }

  /** `Array.prototype.find` from index `from` on, giving the index of the record found. */
  function FindFrom(coins: seq<Coin>, key: string, from: nat): (r: Option<nat>)
    requires from <= |coins|
    ensures r.Some? ==> from <= r.value < |coins| && Matches(coins[r.value], key)
    ensures r.Some? ==> forall j :: from <= j < r.value ==> !Matches(coins[j], key)
    ensures r.None? ==> forall j :: from <= j < |coins| ==> !Matches(coins[j], key)
    decreases |coins| - from
  {
    if from == |coins| then None
    else if Matches(coins[from], key) then Some(from)
    else FindFrom(coins, key, from + 1)
  }

  /** `getCoinIdFromJson`: the id of the first record whose lower-cased symbol equals
      the lower-cased input, or `None` (JavaScript `null`) when there is none. */
  function GetCoinId(coins: seq<Coin>, tokenSymbol: string): (r: Option<string>)
    ensures r.None? <==> NoMatch(coins, tokenSymbol)
    ensures r.Some? ==> exists i :: IsFirstMatch(coins, tokenSymbol, i) && r.value == coins[i].id
  {
    var tokenSymbolLower := Lower(tokenSymbol);
    match FindFrom(coins, tokenSymbolLower, 0)
    case Some(i) =>
      assert IsFirstMatch(coins, tokenSymbol, i);
      Some(coins[i].id)
    case None => None
  }

  /** The first match's id is the one returned, whatever records follow it. */
  lemma FirstMatchWins(coins: seq<Coin>, symbol: string, i: int)
    requires IsFirstMatch(coins, symbol, i)
    ensures GetCoinId(coins, symbol) == Some(coins[i].id)
  {
    var r := GetCoinId(coins, symbol);
    assert r.Some?;
    var k :| IsFirstMatch(coins, symbol, k) && r.value == coins[k].id;
    assert k == i;
  }

  /** Records appended after a match, duplicates included, never change the result. */
  lemma LaterRecordsIgnored(coins: seq<Coin>, later: seq<Coin>, symbol: string)
    requires !NoMatch(coins, symbol)
    ensures GetCoinId(coins + later, symbol) == GetCoinId(coins, symbol)
  {
    var r := GetCoinId(coins, symbol);
    var i :| IsFirstMatch(coins, symbol, i) && r.value == coins[i].id;
    assert IsFirstMatch(coins + later, symbol, i) by {
      forall j | 0 <= j <= i
        ensures (coins + later)[j] == coins[j]
      {
      }
    }
    FirstMatchWins(coins + later, symbol, i);
  }

  /** Inputs differing only in letter case resolve to the same id. */
  lemma LookupCaseInsensitive(coins: seq<Coin>, a: string, b: string)
    requires SameUpToCase(a, b)
    ensures GetCoinId(coins, a) == GetCoinId(coins, b)
  {
    SameUpToCaseLower(a, b);
  }

  /** Lower-casing before the call, as the Telegram handler does, changes nothing. */
  lemma LookupOfLowered(coins: seq<Coin>, symbol: string)
    ensures GetCoinId(coins, Lower(symbol)) == GetCoinId(coins, symbol)
  {
    LowerIdempotent(symbol);
  }
}

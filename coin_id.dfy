/** Token-symbol normalisation through the exchange's id table. The table's
    contents are not part of this model: it is an arbitrary map. */
module CoinId {
  import opened StateModels

  /** `ids.get(token, token)`: the mapped symbol, or the token itself when unmapped. */
  function Normalize(ids: map<string, string>, token: string): (r: string)
    ensures token in ids ==> r == ids[token]
    ensures token !in ids ==> r == token
    ensures r == token || r in ids.Values
  {
    if token in ids then ids[token] else token
  }

  /** Every symbol the table produces is already canonical. */
  predicate Closed(ids: map<string, string>)
  {
    forall k | k in ids :: Normalize(ids, ids[k]) == ids[k]
  }

  /** Normalising twice is normalising once, provided the table is closed; an
      unclosed table such as {"1": "A", "A": "B"} normalises "1" to "A" and "A" to "B". */
  lemma NormalizeIdempotent(ids: map<string, string>, token: string)
    requires Closed(ids)
    ensures Normalize(ids, Normalize(ids, token)) == Normalize(ids, token)
  {
    if token in ids {
      assert Normalize(ids, ids[token]) == ids[token];
    }
  }

  /** Normalising twice is normalising once for every token only if the table
      is closed, so `Closed` is exactly the condition for idempotence. */
  lemma IdempotentOnlyIfClosed(ids: map<string, string>)
    requires forall x :: Normalize(ids, Normalize(ids, x)) == Normalize(ids, x)
    ensures Closed(ids)
  {
    forall k | k in ids
      ensures Normalize(ids, ids[k]) == ids[k]
    {
      assert Normalize(ids, k) == ids[k];
      assert Normalize(ids, Normalize(ids, k)) == Normalize(ids, k);
    }
  }

  /** The quote symbol is left as "USDC" by the table. */
  predicate UsdcCanonical(ids: map<string, string>)
  {
    Usdc !in ids || ids[Usdc] == Usdc
  }

  /** The character of decimal digit `d`. */
  function DigitChar(d: nat): (c: char)
    requires d < 10
    ensures '0' <= c <= '9'
    ensures c as int - '0' as int == d
  {
    ('0' as int + d) as char
  }

  predicate AllDigits(s: string)
  {
    forall i | 0 <= i < |s| :: '0' <= s[i] <= '9'
  }

  /** The number a string of decimal digits spells, most significant first. */
  function DecimalValue(s: string): nat
    requires AllDigits(s)
    decreases |s|
  {
    if s == [] then 0
    else DecimalValue(s[..|s| - 1]) * 10 + (s[|s| - 1] as int - '0' as int)
  }

  /** The decimal digits of `n`, most significant first, with no leading zero. */
  function NatToDecimal(n: nat): (r: string)
    ensures |r| > 0 && AllDigits(r)
    ensures DecimalValue(r) == n
    ensures (r[0] == '0') <==> n == 0
    ensures n < 10 ==> |r| == 1
    ensures n == 0 ==> r == "0"
    decreases n
  {
    if n < 10 then [DigitChar(n)]
    else
      var prefix := NatToDecimal(n / 10);
      var r := prefix + [DigitChar(n % 10)];
      assert r[..|r| - 1] == prefix;
      r
  }

  /** Python's `str(n)` on an int: the decimal digits of |n|, with a leading
      '-' exactly when n is negative. */
  function IntToDecimal(n: int): (r: string)
    ensures |r| > 0
    ensures (r[0] == '-') <==> n < 0
    ensures n == 0 ==> r == "0"
    ensures n > 0 ==> r[0] != '0'
    ensures n < 0 ==> |r| > 1 && r[1] != '0'
    ensures n >= 0 ==> AllDigits(r) && DecimalValue(r) == n
    ensures n < 0 ==> AllDigits(r[1..]) && DecimalValue(r[1..]) == -n
  {
    if n < 0 then
      var r := "-" + NatToDecimal(-n);
      assert r[1..] == NatToDecimal(-n);
      r
    else NatToDecimal(n)
  }

  /** Distinct asset ids give distinct table keys. */
  lemma IntToDecimalInjective(a: int, b: int)
    requires IntToDecimal(a) == IntToDecimal(b)
    ensures a == b
  {
  }
}

/** TWAP order reports: an executed slice moves the position by its signed
    executed size and the USDC balance on the same side by its notional,
    scaled by leverage and sign-flipped on a reducing trade for perps. */
module TwapTransform {
  import opened StateModels
  import opened CoinId
  import opened Events
  import opened StateUpdates
  import opened Fold

  /** A coin is a perp market unless its name starts with '@'. */
  predicate IsPerpCoin(coin: string)
    requires |coin| > 0
    ensures IsPerpCoin(coin) <==> !("@" <= coin)
  {
    coin[0] != '@'
  }

  /** `a` and `b` are both non-zero and of opposite signs. */
  predicate Opposite(a: real, b: real)
  {
    (a < 0.0 && b > 0.0) || (a > 0.0 && b < 0.0)
  }

  /** Position delta of a report: the executed size, signed by side. */
  function TwapPositionDelta(tw: Twap): (d: real)
    ensures tw.side == Bid ==> d == tw.executedSz
    ensures tw.side == Ask ==> d == -tw.executedSz
  {
    SignedBySide(tw.side, tw.executedSz)
  }

  /** What `twap_state_update` needs to get through a report: a non-empty coin (it reads
      the first character) and, for a perp, a non-zero leverage to divide by. */
  predicate TwapDefined(ids: map<string, string>, s: State, tw: Twap)
  {
    tw.status != Activated ==>
      |tw.coin| > 0 && (IsPerpCoin(tw.coin) ==> PerpLeverage(s, Normalize(ids, tw.coin)) != 0.0)
  }

  /** The USDC delta of an executed report: for a perp, the executed notional
      over the position's leverage with one sign or the other; for spot, the
      executed notional paid on a buy and received on a sell. */
  function TwapUsdcNotional(ids: map<string, string>, s: State, tw: Twap): (r: real)
    requires tw.status != Activated && TwapDefined(ids, s, tw)
    ensures IsPerpCoin(tw.coin) ==>
      var lev := PerpLeverage(s, Normalize(ids, tw.coin));
      r == tw.executedNtl / lev || r == -tw.executedNtl / lev
    ensures !IsPerpCoin(tw.coin) && tw.side == Bid ==> r == -tw.executedNtl
    ensures !IsPerpCoin(tw.coin) && tw.side == Ask ==> r == tw.executedNtl
  {
    if IsPerpCoin(tw.coin) then
      var t := Normalize(ids, tw.coin);
      var lev := PerpLeverage(s, t);
      var ntl := -tw.executedNtl / lev;
      NegatedQuotient(tw.executedNtl, lev);
      if Opposite(PerpSize(s, t), TwapPositionDelta(tw)) then -ntl else ntl
    else if tw.side == Bid then -tw.executedNtl
    else tw.executedNtl
  }

  /** Dividing a negated amount negates the quotient. */
  lemma NegatedQuotient(x: real, lev: real)
    requires lev != 0.0
    ensures -x / lev == -(x / lev)
  {
  }

  /** The two updates of an executed report: position first, then USDC, both
      on the side the coin selects and both stamped `time * 1000`. */
  function TwapDeltas(ids: map<string, string>, s: State, tw: Twap): (us: seq<StateUpdate>)
    requires tw.status != Activated && TwapDefined(ids, s, tw)
    ensures |us| == 2
    ensures us[0].token == tw.coin && us[1].token == Usdc
    ensures us[0].isPerp == us[1].isPerp == IsPerpCoin(tw.coin)
    ensures !us[0].isVault && !us[1].isVault
    ensures us[0].time == us[1].time == tw.time * 1000
  {
    var isPerp := IsPerpCoin(tw.coin);
    [ PlainUpdate(tw.time * 1000, tw.coin, isPerp, TwapPositionDelta(tw)),
      PlainUpdate(tw.time * 1000, Usdc, isPerp, TwapUsdcNotional(ids, s, tw)) ]
  }

  /** The snapshot after report `tw`. */
  function TwapNext(ids: map<string, string>, s: State, tw: Twap): (r: State)
    requires TwapDefined(ids, s, tw)
    ensures r.user == s.user
    ensures tw.status != Activated ==> r.time == tw.time * 1000
    ensures WellFormed(s) ==> WellFormed(r)
  {
    if tw.status == Activated then s
    else
      ApplyAllWellFormed(ids, s, TwapDeltas(ids, s, tw));
      ApplyAll(ids, s, TwapDeltas(ids, s, tw))
  }

  /** `twap_state_update`. */
  method TwapStateUpdate(ids: map<string, string>, s: State, tw: Twap) returns (r: State)
    requires TwapDefined(ids, s, tw)
    ensures r == TwapNext(ids, s, tw)
    ensures r.user == s.user
    ensures WellFormed(s) ==> WellFormed(r)
  {
    if tw.status == Activated {
      return s;
    }
    var updates := TwapDeltas(ids, s, tw);
    r := ApplyUpdates(ids, s, updates);
  }

  /** An "activated" report executed nothing and leaves the snapshot as it is. */
  lemma TwapActivatedNoOp(ids: map<string, string>, s: State, tw: Twap)
    requires tw.status == Activated
    ensures TwapNext(ids, s, tw) == s
  {
  }

  /** The perp notional is the executed notional over the position's leverage
      (10 without a position), paid when the trade adds to or opens exposure and
      received when it is against the current position: the sign flips exactly
      when the current size times the delta is negative. */
  lemma TwapPerpNotional(ids: map<string, string>, s: State, tw: Twap)
    requires tw.status != Activated && TwapDefined(ids, s, tw) && IsPerpCoin(tw.coin)
    ensures var t := Normalize(ids, tw.coin); var lev := PerpLeverage(s, t);
      && lev == (if t in s.perpPositions then s.perpPositions[t].leverage else 10.0)
      && TwapUsdcNotional(ids, s, tw) ==
           (if PerpSize(s, t) * TwapPositionDelta(tw) < 0.0 then tw.executedNtl / lev
            else -tw.executedNtl / lev)
  {
    var t := Normalize(ids, tw.coin);
    OppositeIffNegativeProduct(PerpSize(s, t), TwapPositionDelta(tw));
  }

  /** Opposite signs are exactly a negative product. */
  lemma OppositeIffNegativeProduct(a: real, b: real)
    ensures Opposite(a, b) <==> a * b < 0.0
  {
    if a < 0.0 && b > 0.0 {
      assert a * b < 0.0;
    } else if a > 0.0 && b < 0.0 {
      assert a * b < 0.0;
    } else if a >= 0.0 && b >= 0.0 {
      assert a * b >= 0.0;
    } else {
      assert a <= 0.0 && b <= 0.0;
      assert a * b >= 0.0;
    }
  }

  /** An executed report moves the coin's holding by the signed executed size
      and the USDC holding by the notional, both on the perp side for a perp
      coin and the spot side otherwise, and nothing else. */
  lemma TwapRouting(ids: map<string, string>, s: State, tw: Twap)
    requires tw.status != Activated && TwapDefined(ids, s, tw)
    requires UsdcCanonical(ids) && Normalize(ids, tw.coin) != Usdc
    ensures var r := TwapNext(ids, s, tw); var t := Normalize(ids, tw.coin);
      var ntl := TwapUsdcNotional(ids, s, tw);
      && r.user == s.user && r.time == tw.time * 1000
      && r.vaultPositions == s.vaultPositions
      && (IsPerpCoin(tw.coin) ==>
            && PerpHolding(r, t) == PerpHolding(s, t) + TwapPositionDelta(tw)
            && r.perpUsdc == s.perpUsdc + ntl
            && (forall k | k != t && k != Usdc :: PerpHolding(r, k) == PerpHolding(s, k))
            && (forall k :: SpotHolding(r, k) == SpotHolding(s, k)))
      && (!IsPerpCoin(tw.coin) ==>
            && SpotHolding(r, t) == SpotHolding(s, t) + TwapPositionDelta(tw)
            && r.spotUsdc == s.spotUsdc + ntl
            && (forall k | k != t && k != Usdc :: SpotHolding(r, k) == SpotHolding(s, k))
            && (forall k :: PerpHolding(r, k) == PerpHolding(s, k)))
  {
    var us := TwapDeltas(ids, s, tw);
    assert us == [us[0], us[1]];
    ApplyAllTwo(ids, s, us[0], us[1]);
    var mid := ApplyUpdate(ids, s, us[0]);
    HoldingRouting(ids, s, us[0]);
    HoldingRouting(ids, mid, us[1]);
  }
}

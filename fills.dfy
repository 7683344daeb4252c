/** Trade fills, following the fill transformer's arithmetic as written: the
    position moves by the side-signed size, negated unless the direction opens
    or buys, and the USDC balance on the same side moves by size times price. */
module FillTransform {
  import opened StateModels
  import opened CoinId
  import opened Events
  import opened StateUpdates
  import opened Fold

  /** The size, positive for a buy and negative for a sell. */
  function FillSignedSize(f: Fill): (r: real)
    ensures f.side == Bid ==> r == f.sz
    ensures f.side == Ask ==> r == -f.sz
  {
    SignedBySide(f.side, f.sz)
  }

  /** Open/close long/short fills are perp trades; Buy, Sell and
      Auto-Deleveraging are routed to spot. */
  predicate FillIsPerp(f: Fill)
    ensures FillIsPerp(f) <==> !(f.dir.SpotBuy? || f.dir.SpotSell? || f.dir.AutoDeleveraging?)
  {
    f.dir.OpenLong? || f.dir.OpenShort? || f.dir.CloseLong? || f.dir.CloseShort?
  }

  /** Directions whose position delta keeps the side's sign. */
  predicate KeepsSign(dir: FillDirection)
  {
    dir.OpenLong? || dir.OpenShort? || dir.SpotBuy?
  }

  /** The position delta is `+sz` exactly when a buy meets an opening or Buy
      direction or a sell meets any other direction, so a Close Long sell, a
      spot Sell or an Auto-Deleveraging sell adds to the holding. */
  function FillPositionDelta(f: Fill): (d: real)
    ensures d == (if (f.side == Bid) == KeepsSign(f.dir) then f.sz else -f.sz)
  {
    if KeepsSign(f.dir) then FillSignedSize(f) else -FillSignedSize(f)
  }

  /** The USDC delta is `sz * px` on a buy and `-(sz * px)` on a sell, with no
      leverage, no flip and no dependence on the direction. */
  function FillUsdcDelta(f: Fill): (d: real)
    ensures d == (if f.side == Bid then f.sz * f.px else -(f.sz * f.px))
  {
    FillSignedSize(f) * f.px
  }

  /** The snapshot time of a fill: its microsecond time in milliseconds,
      truncated toward zero. */
  function FillTime(f: Fill): (t: int)
    ensures f.time >= 0 ==> 0 <= t * 1000 <= f.time < t * 1000 + 1000
  {
    TruncDiv(f.time, 1000)
  }

  /** The two updates of a fill: position first, then USDC, on one side. */
  function FillDeltas(f: Fill): (us: seq<StateUpdate>)
    ensures |us| == 2
    ensures us[0].token == f.coin && us[1].token == Usdc
    ensures us[0].isPerp == us[1].isPerp == FillIsPerp(f)
    ensures !us[0].isVault && !us[1].isVault
    ensures us[0].time == us[1].time == FillTime(f)
  {
    [ PlainUpdate(FillTime(f), f.coin, FillIsPerp(f), FillPositionDelta(f)),
      PlainUpdate(FillTime(f), Usdc, FillIsPerp(f), FillUsdcDelta(f)) ]
  }

  /** The snapshot after fill `f`. */
  function FillNext(ids: map<string, string>, s: State, f: Fill): (r: State)
    ensures r.user == s.user && r.time == FillTime(f)
    ensures WellFormed(s) ==> WellFormed(r)
  {
    ApplyAllWellFormed(ids, s, FillDeltas(f));
    ApplyAll(ids, s, FillDeltas(f))
  }

  /** `user_fill`. */
  method UserFill(ids: map<string, string>, s: State, f: Fill) returns (r: State)
    ensures r == FillNext(ids, s, f)
    ensures r.user == s.user
    ensures WellFormed(s) ==> WellFormed(r)
  {
    var updates := FillDeltas(f);
    r := ApplyUpdates(ids, s, updates);
  }

  /** A fill moves the coin's holding by the position delta and the USDC
      holding on the same side by the USDC delta, and nothing else. */
  lemma FillRouting(ids: map<string, string>, s: State, f: Fill)
    requires UsdcCanonical(ids) && Normalize(ids, f.coin) != Usdc
    ensures var r := FillNext(ids, s, f); var t := Normalize(ids, f.coin);
      && r.user == s.user && r.time == FillTime(f)
      && r.vaultPositions == s.vaultPositions
      && (FillIsPerp(f) ==>
            && PerpHolding(r, t) == PerpHolding(s, t) + FillPositionDelta(f)
            && r.perpUsdc == s.perpUsdc + FillUsdcDelta(f)
            && (forall k | k != t && k != Usdc :: PerpHolding(r, k) == PerpHolding(s, k))
            && (forall k :: SpotHolding(r, k) == SpotHolding(s, k)))
      && (!FillIsPerp(f) ==>
            && SpotHolding(r, t) == SpotHolding(s, t) + FillPositionDelta(f)
            && r.spotUsdc == s.spotUsdc + FillUsdcDelta(f)
            && (forall k | k != t && k != Usdc :: SpotHolding(r, k) == SpotHolding(s, k))
            && (forall k :: PerpHolding(r, k) == PerpHolding(s, k)))
  {
    var us := FillDeltas(f);
    assert us == [us[0], us[1]];
    ApplyAllTwo(ids, s, us[0], us[1]);
    var mid := ApplyUpdate(ids, s, us[0]);
    HoldingRouting(ids, s, us[0]);
    HoldingRouting(ids, mid, us[1]);
  }
}

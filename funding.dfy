/** Funding payments: one signed credit to the perp USDC balance. */
module FundingTransform {
  import opened StateModels
  import opened CoinId
  import opened Events
  import opened StateUpdates
  import opened Fold

  /** The single update of a payment: its USDC amount, as reported, on the perp side. */
  function FundingDeltas(f: Funding): (us: seq<StateUpdate>)
    ensures |us| == 1 && us[0].token == Usdc && us[0].isPerp && !us[0].isVault
    ensures us[0].delta == f.usdc && us[0].time == f.time * 1000
  {
    [PlainUpdate(f.time * 1000, Usdc, true, f.usdc)]
  }

  /** The snapshot after payment `f`. */
  function FundingNext(ids: map<string, string>, s: State, f: Funding): (r: State)
    ensures r.user == s.user && r.time == f.time * 1000
    ensures WellFormed(s) ==> WellFormed(r)
  {
    ApplyAllWellFormed(ids, s, FundingDeltas(f));
    ApplyAll(ids, s, FundingDeltas(f))
  }

  /** `funding_state_update`. */
  method FundingStateUpdate(ids: map<string, string>, s: State, f: Funding) returns (r: State)
    ensures r == FundingNext(ids, s, f)
    ensures r.user == s.user
    ensures WellFormed(s) ==> WellFormed(r)
  {
    var updates := FundingDeltas(f);
    r := ApplyUpdates(ids, s, updates);
  }

  /** A payment adds its signed amount to the perp USDC balance and changes
      nothing else but the time; coin, position size and rate play no part. */
  lemma FundingCreditsPerpUsdc(ids: map<string, string>, s: State, f: Funding)
    requires UsdcCanonical(ids)
    ensures FundingNext(ids, s, f) == s.(time := f.time * 1000, perpUsdc := s.perpUsdc + f.usdc)
  {
    ApplyAllOne(ids, s, PlainUpdate(f.time * 1000, Usdc, true, f.usdc));
  }
}

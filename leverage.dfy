/** Leverage updates: make sure the asset's perp position exists, then
    overwrite its leverage on the fresh snapshot. */
module LeverageTransform {
  import opened StateModels
  import opened CoinId
  import opened Events
  import opened StateUpdates

  /** What `user_leverage_update` needs to get through an update: the decimal asset id is
      in the table (an unmapped int cannot be a token), the symbol is not USDC
      (no USDC perp entry exists to write to) and the table leaves the symbol
      as it is, so the entry written is the one the size update rebuilt. */
  predicate LeverageDefined(ids: map<string, string>, asset: int)
  {
    var key := IntToDecimal(asset);
    key in ids && ids[key] != Usdc && Normalize(ids, ids[key]) == ids[key]
  }

  /** `user_leverage_update`: a zero-size perp update at the update's time,
      then an in-place write of the leverage on the resulting entry. */
  method UserLeverageUpdate(ids: map<string, string>, s: State, lu: LeverageUpdate) returns (r: State)
    requires LeverageDefined(ids, lu.asset)
    ensures var t := ids[IntToDecimal(lu.asset)];
      && t in r.perpPositions
      && r.perpPositions[t].leverage == lu.leverage
      && (t in s.perpPositions ==> r.perpPositions[t] == s.perpPositions[t].(leverage := lu.leverage))
      && (t !in s.perpPositions ==> r.perpPositions[t] == PerpPosition(t, 0.0, lu.leverage, 0.0, 0.0))
      && r.perpPositions - {t} == s.perpPositions - {t}
      && r == s.(time := lu.time, perpPositions := r.perpPositions)
    ensures WellFormed(s) ==> WellFormed(r)
  {
    var token := ids[IntToDecimal(lu.asset)];
    var touch := PlainUpdate(lu.time, token, true, 0.0);
    r := ApplyUpdate(ids, s, touch);
    PerpRouting(ids, s, touch);
    if WellFormed(s) {
      ApplyUpdateWellFormed(ids, s, touch);
    }
    var p := r.perpPositions[token];
    r := r.(perpPositions := r.perpPositions[token := p.(leverage := lu.leverage)]);
    assert r.perpPositions - {token} == s.perpPositions - {token};
  }
}

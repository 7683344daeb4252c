/** The update primitive: the empty snapshot and the routing of one signed
    delta into exactly one balance or position, plus an optional vault credit. */
module StateUpdates {
  import opened StateModels
  import opened CoinId

  /** The zero snapshot for `user` at `time`. */
  function InitState(user: string, time: int): (s: State)
    ensures s.user == user && s.time == time
    ensures s.spotUsdc == 0.0 && s.perpUsdc == 0.0
    ensures s.spotPositions == map[] && s.perpPositions == map[] && s.vaultPositions == map[]
    ensures WellFormed(s)
  {
    State(user, time, 0.0, 0.0, map[], map[], map[])
  }

  /** Adds `delta` to the size of the perp position `t`, creating it at the
      defaults when absent. */
  function CreditPerp(perps: map<string, PerpPosition>, t: string, delta: real)
    : (r: map<string, PerpPosition>)
    ensures t in r && r - {t} == perps - {t}
    ensures t in perps ==> r[t] == perps[t].(size := perps[t].size + delta)
    ensures t !in perps ==> r[t] == PerpPosition(t, delta, DefaultLeverage, 0.0, 0.0)
  {
    if t in perps then
      var p := perps[t];
      perps[t := PerpPosition(p.token, p.size + delta, p.leverage, p.entryPrice, p.usdcValue)]
    else
      perps[t := PerpPosition(t, delta, DefaultLeverage, 0.0, 0.0)]
  }

  /** Adds `delta` to the balance of the spot position `t`, creating it when absent. */
  function CreditSpot(spots: map<string, SpotPosition>, t: string, delta: real)
    : (r: map<string, SpotPosition>)
    ensures t in r && r - {t} == spots - {t}
    ensures t in spots ==> r[t] == spots[t].(balance := spots[t].balance + delta)
    ensures t !in spots ==> r[t] == SpotPosition(t, delta, 0.0)
  {
    if t in spots then
      var p := spots[t];
      spots[t := SpotPosition(p.token, p.balance + delta, p.usdcValue)]
    else
      spots[t := SpotPosition(t, delta, 0.0)]
  }

  /** Adds `delta` to the balance of vault `v`, creating it when absent. */
  function CreditVault(vaults: map<string, VaultPosition>, v: string, delta: real)
    : (r: map<string, VaultPosition>)
    ensures v in r && r - {v} == vaults - {v}
    ensures v in vaults ==> r[v] == vaults[v].(balance := vaults[v].balance + delta)
    ensures v !in vaults ==> r[v] == VaultPosition(v, delta, 0.0)
  {
    if v in vaults then
      var p := vaults[v];
      vaults[v := VaultPosition(p.vault, p.balance + delta, p.usdcValue)]
    else
      vaults[v := VaultPosition(v, delta, 0.0)]
  }

  /** `state_update`: route `u.delta` by the normalised token. USDC moves the
      perp balance (perp), debits the perp balance (vault) or moves the spot
      balance; any other token moves a perp size or a spot balance. A vault
      update also credits its vault entry. */
  function ApplyUpdate(ids: map<string, string>, s: State, u: StateUpdate): (r: State)
    ensures r.user == s.user && r.time == u.time
    ensures r.spotUsdc == s.spotUsdc || r.perpUsdc == s.perpUsdc
    ensures r.spotPositions - {Normalize(ids, u.token)} == s.spotPositions - {Normalize(ids, u.token)}
    ensures r.perpPositions - {Normalize(ids, u.token)} == s.perpPositions - {Normalize(ids, u.token)}
    ensures r.vaultPositions - {u.vault} == s.vaultPositions - {u.vault}
    ensures !u.isVault ==> r.vaultPositions == s.vaultPositions
    ensures s.spotPositions.Keys <= r.spotPositions.Keys
    ensures s.perpPositions.Keys <= r.perpPositions.Keys
    ensures s.vaultPositions.Keys <= r.vaultPositions.Keys
  {
    var t := Normalize(ids, u.token);
    var vaults := if u.isVault then CreditVault(s.vaultPositions, u.vault, u.delta)
                  else s.vaultPositions;
    if t == Usdc then
      if u.isPerp then
        State(s.user, u.time, s.spotUsdc, s.perpUsdc + u.delta,
              s.spotPositions, s.perpPositions, vaults)
      else if u.isVault then
        State(s.user, u.time, s.spotUsdc, s.perpUsdc - u.delta,
              s.spotPositions, s.perpPositions, vaults)
      else
        State(s.user, u.time, s.spotUsdc + u.delta, s.perpUsdc,
              s.spotPositions, s.perpPositions, vaults)
    else if u.isPerp then
      State(s.user, u.time, s.spotUsdc, s.perpUsdc,
            s.spotPositions, CreditPerp(s.perpPositions, t, u.delta), vaults)
    else
      State(s.user, u.time, s.spotUsdc, s.perpUsdc,
            CreditSpot(s.spotPositions, t, u.delta), s.perpPositions, vaults)
  }

  /** A USDC update touches no position map entry and moves exactly the balance
      its flags select: perp first, then vault (as a debit), then spot. */
  lemma UsdcRouting(ids: map<string, string>, s: State, u: StateUpdate)
    requires Normalize(ids, u.token) == Usdc
    ensures var r := ApplyUpdate(ids, s, u);
      && r.spotPositions == s.spotPositions
      && r.perpPositions == s.perpPositions
      && (u.isPerp ==> r.perpUsdc == s.perpUsdc + u.delta && r.spotUsdc == s.spotUsdc)
      && (!u.isPerp && u.isVault ==> r.perpUsdc == s.perpUsdc - u.delta && r.spotUsdc == s.spotUsdc)
      && (!u.isPerp && !u.isVault ==> r.spotUsdc == s.spotUsdc + u.delta && r.perpUsdc == s.perpUsdc)
  {
  }

  /** A non-USDC perp update changes only the size of that token's perp
      position; a missing position is opened at the defaults. */
  lemma PerpRouting(ids: map<string, string>, s: State, u: StateUpdate)
    requires Normalize(ids, u.token) != Usdc && u.isPerp
    ensures var r := ApplyUpdate(ids, s, u); var t := Normalize(ids, u.token);
      && r.spotUsdc == s.spotUsdc && r.perpUsdc == s.perpUsdc
      && r.spotPositions == s.spotPositions
      && t in r.perpPositions
      && (t in s.perpPositions ==> r.perpPositions[t] == s.perpPositions[t].(size := s.perpPositions[t].size + u.delta))
      && (t !in s.perpPositions ==> r.perpPositions[t] == PerpPosition(t, u.delta, DefaultLeverage, 0.0, 0.0))
  {
  }

  /** A non-USDC spot update changes only the balance of that token's spot
      position; a missing position is opened with no valuation. */
  lemma SpotRouting(ids: map<string, string>, s: State, u: StateUpdate)
    requires Normalize(ids, u.token) != Usdc && !u.isPerp
    ensures var r := ApplyUpdate(ids, s, u); var t := Normalize(ids, u.token);
      && r.spotUsdc == s.spotUsdc && r.perpUsdc == s.perpUsdc
      && r.perpPositions == s.perpPositions
      && t in r.spotPositions
      && (t in s.spotPositions ==> r.spotPositions[t] == s.spotPositions[t].(balance := s.spotPositions[t].balance + u.delta))
      && (t !in s.spotPositions ==> r.spotPositions[t] == SpotPosition(t, u.delta, 0.0))
  {
  }

  /** In the holdings view an update that is not a USDC vault debit adds its
      delta to exactly one holding, on the side `isPerp` selects, and leaves
      every other spot and perp holding as it was. */
  lemma HoldingRouting(ids: map<string, string>, s: State, u: StateUpdate)
    requires !(Normalize(ids, u.token) == Usdc && !u.isPerp && u.isVault)
    ensures var r := ApplyUpdate(ids, s, u); var t := Normalize(ids, u.token);
      && (u.isPerp ==> PerpHolding(r, t) == PerpHolding(s, t) + u.delta)
      && (!u.isPerp ==> SpotHolding(r, t) == SpotHolding(s, t) + u.delta)
      && (forall k :: (k != t || !u.isPerp) ==> PerpHolding(r, k) == PerpHolding(s, k))
      && (forall k :: (k != t || u.isPerp) ==> SpotHolding(r, k) == SpotHolding(s, k))
  {
    var r := ApplyUpdate(ids, s, u);
    var t := Normalize(ids, u.token);
    forall k | k != t || !u.isPerp
      ensures PerpHolding(r, k) == PerpHolding(s, k)
    {
      if k != Usdc && k in s.perpPositions && k != t {
        assert k in s.perpPositions - {t};
      }
    }
    forall k | k != t || u.isPerp
      ensures SpotHolding(r, k) == SpotHolding(s, k)
    {
      if k != Usdc && k in s.spotPositions && k != t {
        assert k in s.spotPositions - {t};
      }
    }
  }

  /** A vault update credits its vault by `delta` whatever the token, and a
      USDC vault update that is not flagged perp also debits the perp balance. */
  lemma VaultRouting(ids: map<string, string>, s: State, u: StateUpdate)
    requires u.isVault
    ensures var r := ApplyUpdate(ids, s, u);
      && VaultHolding(r, u.vault) == VaultHolding(s, u.vault) + u.delta
      && (Normalize(ids, u.token) == Usdc && !u.isPerp ==>
            r.perpUsdc == s.perpUsdc - u.delta && r.spotUsdc == s.spotUsdc
            && r.spotPositions == s.spotPositions && r.perpPositions == s.perpPositions)
  {
  }

  /** Every update keeps a snapshot well formed. */
  lemma ApplyUpdateWellFormed(ids: map<string, string>, s: State, u: StateUpdate)
    requires WellFormed(s)
    ensures WellFormed(ApplyUpdate(ids, s, u))
  {
    var r := ApplyUpdate(ids, s, u);
    var t := Normalize(ids, u.token);
    forall k | k in r.perpPositions
      ensures r.perpPositions[k].token == k
      ensures r.perpPositions[k].entryPrice == 0.0 && r.perpPositions[k].usdcValue == 0.0
    {
      if k != t { assert k in r.perpPositions - {t}; }
    }
    forall k | k in r.spotPositions
      ensures r.spotPositions[k].token == k && r.spotPositions[k].usdcValue == 0.0
    {
      if k != t { assert k in r.spotPositions - {t}; }
    }
    forall v | v in r.vaultPositions
      ensures r.vaultPositions[v].vault == v && r.vaultPositions[v].usdcValue == 0.0
    {
      if v != u.vault { assert v in r.vaultPositions - {u.vault}; }
    }
  }
}

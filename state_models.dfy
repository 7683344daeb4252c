/** Account snapshot records: balances, spot/perp/vault position maps and the
    signed delta record that the update primitive consumes. */
module StateModels {

  /** The quote token; updates on it move the two USDC balances, not a map entry. */
  const Usdc: string := "USDC"

  /** Leverage given to a perp position created by a size update. */
  const DefaultLeverage: real := 10.0

  datatype SpotPosition = SpotPosition(token: string, balance: real, usdcValue: real)

  datatype PerpPosition =
    PerpPosition(token: string, size: real, leverage: real, entryPrice: real, usdcValue: real)

  datatype VaultPosition = VaultPosition(vault: string, balance: real, usdcValue: real)

  datatype State = State(
    user: string,
    time: int,
    spotUsdc: real,
    perpUsdc: real,
    spotPositions: map<string, SpotPosition>,
    perpPositions: map<string, PerpPosition>,
    vaultPositions: map<string, VaultPosition>)

  /** One signed delta. `isVault` defaults to false and `vault` is then unused. */
  datatype StateUpdate =
    StateUpdate(time: int, token: string, isPerp: bool, isVault: bool, vault: string, delta: real)

  /** A non-vault update, the only kind the transformers build. */
  function PlainUpdate(time: int, token: string, isPerp: bool, delta: real): (u: StateUpdate)
    ensures u.time == time && u.token == token && u.isPerp == isPerp && u.delta == delta
    ensures !u.isVault
  {
    StateUpdate(time, token, isPerp, false, "", delta)
  }

  /** What the account holds of token `t` on the spot side; USDC is the spot USDC balance. */
  function SpotHolding(s: State, t: string): real
  {
    if t == Usdc then s.spotUsdc
    else if t in s.spotPositions then s.spotPositions[t].balance
    else 0.0
  }

  /** What the account holds of token `t` on the perp side; USDC is the perp USDC balance. */
  function PerpHolding(s: State, t: string): real
  {
    if t == Usdc then s.perpUsdc
    else if t in s.perpPositions then s.perpPositions[t].size
    else 0.0
  }

  /** The balance the account has in vault `v`. */
  function VaultHolding(s: State, v: string): real
  {
    if v in s.vaultPositions then s.vaultPositions[v].balance else 0.0
  }

  /** Size of the perp position under `t`, 0 when there is none. */
  function PerpSize(s: State, t: string): real
  {
    if t in s.perpPositions then s.perpPositions[t].size else 0.0
  }

  /** Leverage of the perp position under `t`, the default when there is none. */
  function PerpLeverage(s: State, t: string): real
  {
    if t in s.perpPositions then s.perpPositions[t].leverage else DefaultLeverage
  }

  /** The shape every snapshot reachable from an initial state has: each entry
      is filed under its own token (or vault), USDC is never a spot or perp key,
      and no update ever sets a valuation or an entry price. */
  predicate WellFormed(s: State)
  {
    && Usdc !in s.spotPositions
    && Usdc !in s.perpPositions
    && (forall t | t in s.spotPositions ::
          s.spotPositions[t].token == t && s.spotPositions[t].usdcValue == 0.0)
    && (forall t | t in s.perpPositions ::
          && s.perpPositions[t].token == t
          && s.perpPositions[t].entryPrice == 0.0
          && s.perpPositions[t].usdcValue == 0.0)
    && (forall v | v in s.vaultPositions ::
          s.vaultPositions[v].vault == v && s.vaultPositions[v].usdcValue == 0.0)
  }
}

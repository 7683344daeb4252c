# Account-state replay engine (hyliq transformers)

This project models the state-transition core of hyliq, a tool that rebuilds a
Hyperliquid trading account's history. The history is made of spot holdings,
perp positions, leverage and the two USDC balances. The tool replays the
account's exchange events one at a time.

- The account snapshot is `StateModels.State`. It holds the user, the time of
  the last applied update, `spotUsdc`, `perpUsdc`, and three maps: spot
  positions, perp positions and vault positions.
- The update primitive is `StateUpdates.ApplyUpdate` (`state_update`).
  - It first normalises the token through the exchange's id table. The table
    falls back to the identity.
  - It then routes one signed delta into exactly one of: the perp USDC balance,
    a vault debit of the perp USDC balance, the spot USDC balance, a perp
    position's size, or a spot position's balance.
  - A vault update also credits the vault entry.
- Each per-event transformer turns one event into 0, 1 or 2 updates and folds
  `ApplyUpdate` over them. The fold is the loop `Fold.ApplyUpdates`. It is
  proved against the recursive specification `Fold.ApplyAll`. The transformers
  are:
  - ledger transactions (`LedgerTransform`)
  - TWAP reports (`TwapTransform`)
  - funding payments (`FundingTransform`)
  - fills (`FillTransform`)
  - leverage updates (`LeverageTransform`). This one applies a zero-size perp
    update and then overwrites the leverage of the resulting entry.

Amounts are Dafny `real`. The id table `coin_id_map` is a parameter
`ids: map<string, string>`, and nothing is assumed about its entries. Where a
property needs "USDC" to stay "USDC" under the table, the lemma says so with
`CoinId.UsdcCanonical(ids)`.

Two views serve as reference definitions for the routing lemmas:

- the holdings view `SpotHolding` / `PerpHolding`. On each side it gives one
  number per token, and USDC is the matching USDC balance;
- the invariant `WellFormed`. It says that every entry is filed under its own
  key, that USDC is never a spot or perp key, and that no valuation or entry price is
  ever set. `InitState` establishes it and every transformer preserves it.

Behaviours of the code worth knowing, all modelled as written:

- A fill routes Auto-Deleveraging to spot.
- A fill applies no leverage scaling and no sign flip. Its USDC delta is `sz * px`
  signed by side.
- A fill's position delta is negated for closing directions, for Sell and for
  Auto-Deleveraging.
- A self-addressed internal transfer only debits.
- Vault deposit and withdraw ledger entries change nothing.
- Normalising twice equals normalising once for every token exactly when the
  table is closed (`CoinId.NormalizeIdempotent`, `CoinId.IdempotentOnlyIfClosed`).

## Model

| member | source | states |
|---|---|---|
| StateModels.PlainUpdate | models/class_models/state.py:44-52 | an update built by a transformer carries the given time, token, side flag and delta and is never a vault update |
| CoinId.Normalize | transformer/state.py:30 | the token becomes its table entry when it has one and stays itself otherwise |
| CoinId.NormalizeIdempotent | transformer/state.py:30 | over a closed table, normalising a normalised token changes nothing |
| CoinId.IdempotentOnlyIfClosed | transformer/state.py:30 | conversely, a table over which normalising twice is normalising once for every token is closed |
| CoinId.NatToDecimal | transformer/explorer.py:10 | the digits of `str(n)`: they spell the number back (`DecimalValue` round trip), start with '0' only for zero, and zero is exactly "0" |
| CoinId.IntToDecimal | transformer/explorer.py:10 | the digits of `str(asset)`: a leading '-' exactly for negative ids, the digits after the sign spell the absolute value, and id 0 is exactly "0" |
| CoinId.IntToDecimalInjective | transformer/explorer.py:10 | distinct asset ids render as distinct table keys |
| Events.SignedBySide | transformer/twap.py:17 | a buy keeps the amount and a sell negates it |
| StateUpdates.InitState | transformer/state.py:11-20 | the initial snapshot has the given user and time, zero USDC balances, empty maps, and is well formed |
| StateUpdates.CreditPerp | transformer/state.py:40-53 | the perp entry exists afterwards; an existing entry changes only in size (by delta); a new one has size delta, leverage 10, entry price 0, value 0; other keys are untouched |
| StateUpdates.CreditSpot | transformer/state.py:54-66 | the spot entry exists afterwards; an existing entry changes only in balance (by delta); a new one has balance delta and value 0; other keys are untouched |
| StateUpdates.CreditVault | transformer/state.py:68-80 | the vault entry exists afterwards; an existing entry changes only in balance (by delta); a new one has balance delta and value 0; other vaults are untouched |
| StateUpdates.ApplyUpdate | transformer/state.py:23-90 | keeps the user, takes the update's time, changes at most one USDC balance, no map key other than the normalised token (or the vault) changes, no entry disappears, and vaults change only on a vault update |
| StateUpdates.UsdcRouting | transformer/state.py:30-38 | a USDC update leaves both position maps alone; perp adds to perp USDC, else vault subtracts from perp USDC, else it adds to spot USDC, and the other balance is unchanged |
| StateUpdates.PerpRouting | transformer/state.py:40-53 | a non-USDC perp update changes only that perp entry's size (or creates it with size delta and leverage 10), leaving balances and spot entries alone |
| StateUpdates.SpotRouting | transformer/state.py:54-66 | a non-USDC spot update changes only that spot entry's balance (or creates it with value 0), leaving balances and perp entries alone |
| StateUpdates.HoldingRouting | transformer/state.py:30-66 | apart from a USDC vault debit, an update adds its delta to exactly one holding, of its normalised token on the side `isPerp` selects, and every other holding is unchanged |
| StateUpdates.VaultRouting | transformer/state.py:32-80 | a vault update credits its vault by delta whatever the token; a USDC vault update also debits perp USDC by delta and touches nothing else |
| StateUpdates.ApplyUpdateWellFormed | transformer/state.py:40-90 | an update keeps the snapshot well formed |
| Fold.ApplyAll | transformer/user_ledger_updates.py:142-144 | folding updates keeps the user and never loses a map entry; no updates give back the input; otherwise the time is that of the last update |
| Fold.ApplyUpdates | transformer/user_ledger_updates.py:142-146 | the loop that reassigns the state once per update returns exactly the fold of the updates |
| Fold.ApplyAllAppend | transformer/user_ledger_updates.py:142-144 | folding a concatenation folds the first part and then the second |
| Fold.ApplyAllWellFormed | transformer/user_ledger_updates.py:142-144 | any sequence of updates keeps the snapshot well formed |
| LedgerTransform.LedgerDeltas | transformer/user_ledger_updates.py:8-140 | a ledger entry yields at most two non-vault updates, all stamped with the entry's millisecond time; vault deposits and withdrawals yield none |
| LedgerTransform.LedgerNext | transformer/user_ledger_updates.py:8-146 | the snapshot after an entry keeps the user, is the input or carries the entry's time, and is well formed when the input is |
| LedgerTransform.UserLedgerUpdate | transformer/user_ledger_updates.py:8-146 | returns the fold of the entry's updates, keeps the user, and keeps the snapshot well formed |
| LedgerTransform.DepositCreditsSpotUsdc | transformer/user_ledger_updates.py:14-21 | a deposit adds `usdc` to spot USDC and changes nothing else but the time |
| LedgerTransform.WithdrawDebitsSpotUsdc | transformer/user_ledger_updates.py:23-30 | a withdrawal subtracts `usdc` from spot USDC with no separate fee and changes nothing else but the time |
| LedgerTransform.InternalTransferRule | transformer/user_ledger_updates.py:32-50 | the sender is debited; else the recipient is credited; a self-transfer is only debited; an unrelated transfer leaves the snapshot, time included, unchanged |
| LedgerTransform.AccountClassTransferConserves | transformer/user_ledger_updates.py:52-88 | `toPerp` moves `usdc` from spot to perp USDC, otherwise from perp to spot, and the sum of the two balances is unchanged |
| LedgerTransform.SpotTransferRule | transformer/user_ledger_updates.py:90-108 | the sender/recipient rule applied to the spot holding of the normalised token by `amount`, with every other holding unchanged |
| LedgerTransform.CStakingTransferRule | transformer/user_ledger_updates.py:110-128 | staking adds `amount` to the spot holding of the token and unstaking subtracts it; nothing else changes |
| LedgerTransform.AccountActivationGasRule | transformer/user_ledger_updates.py:130-137 | activation gas always subtracts `amount` from the spot holding of the token; nothing else changes |
| LedgerTransform.VaultEntriesIgnored | transformer/user_ledger_updates.py:139-146 | vault deposits and withdrawals return the input snapshot, time included |
| TwapTransform.IsPerpCoin | transformer/twap.py:16 | a coin is a perp market exactly when it does not start with '@' |
| TwapTransform.TwapUsdcNotional | transformer/twap.py:22-37 | a perp notional is the executed notional over the position's leverage, with one sign or the other; a spot notional is paid on a buy and received on a sell |
| TwapTransform.TwapPositionDelta | transformer/twap.py:17 | the position delta is `+executedSz` on a buy and `-executedSz` on a sell |
| TwapTransform.TwapDeltas | transformer/twap.py:39-46 | two updates in order: the coin, then USDC, both on the perp side exactly when the coin does not start with '@', both stamped `time * 1000` |
| TwapTransform.TwapNext | transformer/twap.py:8-52 | the snapshot after a report keeps the user, carries `time * 1000` unless the report is activated, and is well formed when the input is |
| TwapTransform.TwapStateUpdate | transformer/twap.py:8-52 | returns the input for an activated report and the fold of the two updates otherwise; keeps the user and the snapshot well formed |
| TwapTransform.TwapActivatedNoOp | transformer/twap.py:9-10 | an activated report leaves the snapshot unchanged |
| TwapTransform.TwapPerpNotional | transformer/twap.py:20-35 | the perp notional is `-executedNtl / leverage`, with leverage taken from the normalised position (10 when absent), and it is negated exactly when current size times delta is negative |
| TwapTransform.OppositeIffNegativeProduct | transformer/twap.py:33 | "current and delta strictly of opposite signs" is exactly "their product is negative", so a zero size or delta never flips |
| TwapTransform.TwapRouting | transformer/twap.py:39-50 | a perp report moves the coin's perp holding by the delta and perp USDC by the notional; a spot report moves the spot holding and spot USDC; no other holding changes and the time is `time * 1000` |
| FundingTransform.FundingDeltas | transformer/funding.py:14-18 | one perp USDC update of the reported `usdc`, stamped `time * 1000` |
| FundingTransform.FundingNext | transformer/funding.py:8-24 | the snapshot after a payment keeps the user, carries `time * 1000`, and is well formed when the input is |
| FundingTransform.FundingStateUpdate | transformer/funding.py:8-24 | returns the fold of that update, keeps the user and the snapshot well formed |
| FundingTransform.FundingCreditsPerpUsdc | transformer/funding.py:8-24 | a payment adds `usdc`, sign as reported, to perp USDC; spot USDC and every position and vault are unchanged; the time becomes `time * 1000` |
| LeverageTransform.UserLeverageUpdate | transformer/explorer.py:8-23 | afterwards the asset's perp entry exists with the new leverage; an existing entry keeps size, entry price and value; a missing one is created with size 0; balances, other entries and vaults are unchanged; the time is the update's; the snapshot stays well formed |
| FillTransform.FillTime | models/class_models/user_fills.py:53-56 | the snapshot time of a fill is its microsecond time divided by 1000, truncated |
| FillTransform.FillDeltas | transformer/user_fills.py:15-28 | two updates in order: the coin, then USDC, both on the perp side exactly for open/close long/short, both stamped with the fill's millisecond time |
| FillTransform.FillNext | transformer/user_fills.py:5-34 | the snapshot after a fill keeps the user, carries the fill's millisecond time, and is well formed when the input is |
| FillTransform.UserFill | transformer/user_fills.py:5-34 | returns the fold of the two updates, keeps the user and the snapshot well formed |
| FillTransform.FillSignedSize | transformer/user_fills.py:8 | the size is `+sz` on a buy and `-sz` on a sell |
| FillTransform.FillIsPerp | transformer/user_fills.py:9 | a fill is a perp trade exactly when its direction is not Buy, Sell or Auto-Deleveraging |
| FillTransform.FillPositionDelta | transformer/user_fills.py:11 | the position delta is `+sz` exactly when "side is buy" agrees with "direction is Open Long, Open Short or Buy" |
| FillTransform.FillUsdcDelta | transformer/user_fills.py:13 | the USDC delta is `sz * px` on a buy and `-(sz * px)` on a sell, with no leverage and no flip |
| FillTransform.FillRouting | transformer/user_fills.py:15-32 | a perp fill moves the coin's perp holding by the position delta and perp USDC by the USDC delta; a spot fill does the same on the spot side; nothing else changes |

## Left out

- Loaders, HTTP requests, on-disk caching, parsing into typed records, logging, charting, CSV export and orchestration are not modelled. They are I/O.
- The DataFrame joins and forward fills that combine portfolios are not modelled. They are calls into a DataFrame library.
- A replay driver that sorts and merges event streams is not part of the repository's transformers, so none is modelled. The fold of one transformer's own updates is modelled.
- The contents of `coin_id_map` are left out. The table is an arbitrary parameter.
- Floating point is left out. Amounts are exact reals. Timestamps are exact integers: the ledger and leverage times round-trip unchanged through `datetime`, and a fill's time is truncated integer division.
- Object identity and aliasing are left out. Snapshots are values, so "the input state is never mutated" holds by construction. With `LeverageDefined`, the entry whose leverage is overwritten is always the one the size update rebuilt.
- The ledger `type` string is assumed to agree with the record variant, so a record with an unrecognised tag cannot be expressed. The unknown-type branch is reached only by the vault variants, which the transformer does not recognise.
- The vault side of the snapshot (`vaultPositions`, and `isVault` and `vault` on an update) follows what `transformer/state.py` reads and writes (lines 19, 26, 35-36 and 68-80). The record definitions in `models/class_models/state.py` have none of these fields and no `VaultPositionModel`, so as written the module fails to import, and a snapshot without `vault_positions` would fail at `transformer/state.py:26`. The model gives the records the fields the transformer uses.
- Deep copies (`model_copy(deep=True)`, `deepcopy()`) are left out. Value semantics make them the identity.
- The fill transformer does not import in its repository. It names a missing `StateUpdate` record, reads `price` where the record has `px`, and calls a missing `deepcopy()`. The model follows its arithmetic with `px` for the price.
- TwapTransform.TwapStateUpdate: it requires a non-empty coin and a non-zero leverage for a perp coin. The source fails with an index error or a division by zero there.
- LeverageTransform.UserLeverageUpdate: it requires the decimal asset id to be in the table, the symbol not to be USDC, and the table to leave the symbol unchanged. The source fails otherwise, or writes to a different, shared entry.
- The USDC-specific lemmas (`DepositCreditsSpotUsdc`, `WithdrawDebitsSpotUsdc`, `InternalTransferRule`, `AccountClassTransferConserves`, `FundingCreditsPerpUsdc`, `TwapRouting`, `FillRouting`) assume `UsdcCanonical(ids)`, because the primitive normalises "USDC" through the table as well. `TwapRouting` and `FillRouting` also assume that the coin does not normalise to USDC.

/** Ledger transactions (deposits, withdrawals, transfers, staking, gas): each
    becomes zero, one or two spot/perp deltas folded onto the snapshot. */
module LedgerTransform {
  import opened StateModels
  import opened CoinId
  import opened Events
  import opened StateUpdates
  import opened Fold

  /** The deltas for one ledger entry, seen from account `user`. Vault deposits
      and withdrawals fall in the unknown-type branch and yield none. */
  function LedgerDeltas(user: string, e: TxEntry): (us: seq<StateUpdate>)
    ensures |us| <= 2
    ensures forall i | 0 <= i < |us| :: us[i].time == e.time && !us[i].isVault
    ensures e.delta.VaultDeposit? || e.delta.VaultWithdraw? ==> us == []
  {
    var time := e.time;
    match e.delta
    case Deposit(usdc) =>
      [PlainUpdate(time, Usdc, false, usdc)]
    case Withdraw(usdc, _, _) =>
      [PlainUpdate(time, Usdc, false, -usdc)]
    case InternalTransfer(usdc, sender, destination, _) =>
      if sender == user then [PlainUpdate(time, Usdc, false, -usdc)]
      else if destination == user then [PlainUpdate(time, Usdc, false, usdc)]
      else []
    case AccountClassTransfer(usdc, toPerp) =>
      if toPerp then [PlainUpdate(time, Usdc, false, -usdc), PlainUpdate(time, Usdc, true, usdc)]
      else [PlainUpdate(time, Usdc, true, -usdc), PlainUpdate(time, Usdc, false, usdc)]
    case SpotTransfer(token, amount, _, sender, destination, _, _, _) =>
      if sender == user then [PlainUpdate(time, token, false, -amount)]
      else if destination == user then [PlainUpdate(time, token, false, amount)]
      else []
    case CStakingTransfer(token, amount, isDeposit) =>
      if isDeposit then [PlainUpdate(time, token, false, amount)]
      else [PlainUpdate(time, token, false, -amount)]
    case AccountActivationGas(amount, token) =>
      [PlainUpdate(time, token, false, -amount)]
    case VaultDeposit(_, _) => []
    case VaultWithdraw(_, _, _, _, _, _, _) => []
  }

  /** The snapshot after ledger entry `e`. */
  function LedgerNext(ids: map<string, string>, s: State, e: TxEntry): (r: State)
    ensures r.user == s.user
    ensures r == s || r.time == e.time
    ensures WellFormed(s) ==> WellFormed(r)
  {
    ApplyAllWellFormed(ids, s, LedgerDeltas(s.user, e));
    ApplyAll(ids, s, LedgerDeltas(s.user, e))
  }

  /** `user_ledger_update`. */
  method UserLedgerUpdate(ids: map<string, string>, s: State, e: TxEntry) returns (r: State)
    ensures r == LedgerNext(ids, s, e)
    ensures r.user == s.user
    ensures WellFormed(s) ==> WellFormed(r)
  {
    var updates := LedgerDeltas(s.user, e);
    r := ApplyUpdates(ids, s, updates);
  }

  /** `r` is `s` with the spot holding of `t` moved by `d`, stamped at `time`. */
  ghost predicate SpotShift(s: State, r: State, t: string, d: real, time: int)
  {
    && r.user == s.user && r.time == time
    && r.vaultPositions == s.vaultPositions
    && (forall k :: SpotHolding(r, k) == SpotHolding(s, k) + (if k == t then d else 0.0))
    && (forall k :: PerpHolding(r, k) == PerpHolding(s, k))
  }

  /** A deposit credits the spot USDC balance and nothing else. */
  lemma DepositCreditsSpotUsdc(ids: map<string, string>, s: State, e: TxEntry)
    requires UsdcCanonical(ids) && e.delta.Deposit?
    ensures LedgerNext(ids, s, e) == s.(time := e.time, spotUsdc := s.spotUsdc + e.delta.usdc)
  {
    ApplyAllOne(ids, s, PlainUpdate(e.time, Usdc, false, e.delta.usdc));
  }

  /** A withdrawal debits the spot USDC balance by the reported amount; its fee
      is not charged again. */
  lemma WithdrawDebitsSpotUsdc(ids: map<string, string>, s: State, e: TxEntry)
    requires UsdcCanonical(ids) && e.delta.Withdraw?
    ensures LedgerNext(ids, s, e) == s.(time := e.time, spotUsdc := s.spotUsdc - e.delta.usdc)
  {
    ApplyAllOne(ids, s, PlainUpdate(e.time, Usdc, false, -e.delta.usdc));
  }

  /** An internal transfer debits the sender, else credits the recipient, else
      does nothing; when the account is both, only the debit happens. */
  lemma InternalTransferRule(ids: map<string, string>, s: State, e: TxEntry)
    requires UsdcCanonical(ids) && e.delta.InternalTransfer?
    ensures var r := LedgerNext(ids, s, e);
      && (e.delta.user == s.user ==>
            r == s.(time := e.time, spotUsdc := s.spotUsdc - e.delta.usdc))
      && (e.delta.user != s.user && e.delta.destination == s.user ==>
            r == s.(time := e.time, spotUsdc := s.spotUsdc + e.delta.usdc))
      && (e.delta.user != s.user && e.delta.destination != s.user ==> r == s)
  {
    if e.delta.user == s.user {
      ApplyAllOne(ids, s, PlainUpdate(e.time, Usdc, false, -e.delta.usdc));
    } else if e.delta.destination == s.user {
      ApplyAllOne(ids, s, PlainUpdate(e.time, Usdc, false, e.delta.usdc));
    }
  }

  /** A spot/perp class transfer moves `usdc` between the two USDC balances in
      the direction `toPerp` says, keeping their sum. */
  lemma AccountClassTransferConserves(ids: map<string, string>, s: State, e: TxEntry)
    requires UsdcCanonical(ids) && e.delta.AccountClassTransfer?
    ensures var r := LedgerNext(ids, s, e);
      && r.spotUsdc + r.perpUsdc == s.spotUsdc + s.perpUsdc
      && (e.delta.toPerp ==>
            r == s.(time := e.time, spotUsdc := s.spotUsdc - e.delta.usdc, perpUsdc := s.perpUsdc + e.delta.usdc))
      && (!e.delta.toPerp ==>
            r == s.(time := e.time, spotUsdc := s.spotUsdc + e.delta.usdc, perpUsdc := s.perpUsdc - e.delta.usdc))
  {
    var usdc := e.delta.usdc;
    if e.delta.toPerp {
      ApplyAllTwo(ids, s, PlainUpdate(e.time, Usdc, false, -usdc), PlainUpdate(e.time, Usdc, true, usdc));
    } else {
      ApplyAllTwo(ids, s, PlainUpdate(e.time, Usdc, true, -usdc), PlainUpdate(e.time, Usdc, false, usdc));
    }
  }

  /** A spot transfer applies the sender/recipient rule to the spot holding of
      the normalised token. */
  lemma SpotTransferRule(ids: map<string, string>, s: State, e: TxEntry)
    requires e.delta.SpotTransfer?
    ensures var r := LedgerNext(ids, s, e); var t := Normalize(ids, e.delta.token);
      && (e.delta.user == s.user ==> SpotShift(s, r, t, -e.delta.amount, e.time))
      && (e.delta.user != s.user && e.delta.destination == s.user ==>
            SpotShift(s, r, t, e.delta.amount, e.time))
      && (e.delta.user != s.user && e.delta.destination != s.user ==> r == s)
  {
    var amount := e.delta.amount;
    if e.delta.user == s.user {
      SingleSpotUpdate(ids, s, PlainUpdate(e.time, e.delta.token, false, -amount));
    } else if e.delta.destination == s.user {
      SingleSpotUpdate(ids, s, PlainUpdate(e.time, e.delta.token, false, amount));
    }
  }

  /** Staking adds to the spot holding of the token, unstaking subtracts. */
  lemma CStakingTransferRule(ids: map<string, string>, s: State, e: TxEntry)
    requires e.delta.CStakingTransfer?
    ensures SpotShift(s, LedgerNext(ids, s, e), Normalize(ids, e.delta.token),
                      if e.delta.isDeposit then e.delta.amount else -e.delta.amount, e.time)
  {
    var d := if e.delta.isDeposit then e.delta.amount else -e.delta.amount;
    SingleSpotUpdate(ids, s, PlainUpdate(e.time, e.delta.token, false, d));
  }

  /** Account activation gas is always paid out of the spot holding of the token. */
  lemma AccountActivationGasRule(ids: map<string, string>, s: State, e: TxEntry)
    requires e.delta.AccountActivationGas?
    ensures SpotShift(s, LedgerNext(ids, s, e), Normalize(ids, e.delta.token), -e.delta.amount, e.time)
  {
    SingleSpotUpdate(ids, s, PlainUpdate(e.time, e.delta.token, false, -e.delta.amount));
  }

  /** Vault deposits and withdrawals change nothing, not even the time. */
  lemma VaultEntriesIgnored(ids: map<string, string>, s: State, e: TxEntry)
    requires e.delta.VaultDeposit? || e.delta.VaultWithdraw?
    ensures LedgerNext(ids, s, e) == s
  {
  }

  /** One non-perp, non-vault update is a spot shift of its normalised token. */
  lemma SingleSpotUpdate(ids: map<string, string>, s: State, u: StateUpdate)
    requires !u.isPerp && !u.isVault
    ensures SpotShift(s, ApplyAll(ids, s, [u]), Normalize(ids, u.token), u.delta, u.time)
  {
    ApplyAllOne(ids, s, u);
    HoldingRouting(ids, s, u);
  }
}

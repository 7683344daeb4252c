/** The typed exchange events the transformers consume: ledger transactions,
    TWAP order states, funding payments, leverage updates and fills. */
module Events {

  datatype Option<T> = None | Some(value: T)

  /** Order side: "b" is a buy, "a" a sell. */
  datatype OrderSide = Bid | Ask

  /** `x` for a buy, `-x` for a sell. */
  function SignedBySide(side: OrderSide, x: real): (r: real)
    ensures r == x || r == -x
    ensures side == Bid ==> r == x
    ensures side == Ask ==> r == -x
  {
    if side == Bid then x else -x
  }

  /** One ledger delta per `type`, each with only its own fields. */
  datatype LedgerDelta =
    | Deposit(usdc: real)
    | Withdraw(usdc: real, nonce: int, fee: real)
    | VaultDeposit(vault: string, usdc: real)
    | VaultWithdraw(vault: string, user: string, requestedUsd: real, commission: real,
                    closingCost: real, basis: real, netWithdrawnUsd: real)
    | InternalTransfer(usdc: real, user: string, destination: string, fee: real)
    | AccountClassTransfer(usdc: real, toPerp: bool)
    | SpotTransfer(token: string, amount: real, usdcValue: real, user: string,
                   destination: string, fee: real, nativeTokenFee: real, feeToken: Option<string>)
    | CStakingTransfer(token: string, amount: real, isDeposit: bool)
    | AccountActivationGas(amount: real, token: string)

  /** A ledger transaction; `time` is in milliseconds. */
  datatype TxEntry = TxEntry(time: int, hash: string, delta: LedgerDelta)

  datatype TwapStatus = Finished | Activated | Terminated | Error

  /** A TWAP order state report; `time` is in milliseconds. */
  datatype Twap = Twap(
    time: int, coin: string, user: string, side: OrderSide, sz: real,
    executedSz: real, executedNtl: real, minutes: int, reduceOnly: bool,
    randomize: bool, timestamp: int, status: TwapStatus, twapId: Option<int>)

  /** A funding payment; `usdc` carries its own sign. */
  datatype Funding = Funding(
    time: int, hash: string, deltaType: string, coin: string, usdc: real,
    szi: real, fundingRate: real, nSamples: Option<int>)

  /** A leverage change on the perp market with numeric id `asset`. */
  datatype LeverageUpdate = LeverageUpdate(
    time: int, user: string, asset: int, isCross: bool, leverage: real,
    block: int, hash: string, error: Option<string>)

  /** Fill direction: "Open Long", "Open Short", "Close Long", "Close Short",
      "Sell", "Buy" and "Auto-Deleveraging". */
  datatype FillDirection =
    OpenLong | OpenShort | CloseLong | CloseShort | SpotSell | SpotBuy | AutoDeleveraging

  /** A trade fill; `time` is in microseconds. */
  datatype Fill = Fill(
    coin: string, px: real, sz: real, side: OrderSide, time: int,
    startPosition: real, dir: FillDirection, closedPnl: real, hash: string,
    oid: Option<int>, crossed: bool, fee: real, tid: int, feeToken: string,
    twapId: Option<int>)

  /** Integer division truncating toward zero, as `int()` of a float quotient. */
  function TruncDiv(a: int, b: int): (q: int)
    requires b > 0
    ensures a >= 0 ==> q == a / b
    ensures a < 0 ==> q == -((-a) / b)
  {
    if a >= 0 then a / b else -((-a) / b)
  }
}

/** `RaydiumAmm::quote`: reject equal mints, resolve the pool, resolve its key
    bundles, read every account the quote needs in one batched request,
    decode them, compute the pool's reserves, choose the swap direction and
    assemble the quote. Every collaborator the executor calls (the metadata
    API, the RPC client, the account decoders and raydium's swap math) is a
    function passed in; the quote records, in order, which external calls it
    made. */
module Quoting {
  import opened Base
  import opened Keys
  import opened PoolSelect
  import opened Config

  datatype SwapExecutionMode = ExactIn | ExactOut

  /** `SwapInput`. */
  datatype SwapInput = SwapInput(
    inputTokenMint: Pubkey,
    outputTokenMint: Pubkey,
    slippageBps: U64,
    amount: U64,
    mode: SwapExecutionMode,
    market: Option<Pubkey>)

  /** The amount the caller specified is the input amount in exact-in mode. */
  predicate AmountSpecifiedIsInput(mode: SwapExecutionMode) {
    mode.ExactIn?
  }

  datatype PoolType = Standard
  datatype PoolSort = Liquidity
  datatype PoolSortOrder = Descending

  /** The query parameters of the candidate-pool lookup. */
  datatype PoolFetchParams = PoolFetchParams(
    poolType: PoolType, poolSort: PoolSort, sortType: PoolSortOrder, pageSize: nat, page: nat)

  /** The executor asks for the first page of ten standard pools, most liquid
      first. */
  function PoolQuery(): (r: PoolFetchParams)
    ensures r.poolType == Standard && r.poolSort == Liquidity && r.sortType == Descending
    ensures r.pageSize == 10 && r.page == 1
  {
    PoolFetchParams(Standard, Liquidity, Descending, 10, 1)
  }

  /** An external call the quote makes. */
  datatype IoCall =
    | FetchPoolsByMints(mint1: Pubkey, mint2: Pubkey, params: PoolFetchParams)
    | FetchPoolKeysByIds(ids: seq<Pubkey>)
    | LoadAmmKeys(program: Pubkey, pool: Pubkey)
    | GetKeysForMarket(program: Pubkey, market: Pubkey)
    | GetMultipleAccounts(addresses: seq<Pubkey>)

  /** A ledger account; only its data is read. */
  datatype Account = Account(data: Bytes)

  /** An account paired with the key it is presented under. */
  datatype AccountInfo = AccountInfo(key: Pubkey, account: Account)

  /** The fields of the decoded pool state (`AmmInfo`) the executor reads. */
  datatype AmmInfo = AmmInfo(
    status: U64,
    coinDecimals: U64,
    pcDecimals: U64,
    swapFeeNumerator: U64,
    swapFeeDenominator: U64,
    openOrders: Pubkey,
    market: Pubkey)

  /** A decoded SPL token account. */
  datatype TokenAccount = TokenAccount(mint: Pubkey, owner: Pubkey, amount: U64)

  /** The market state and open orders loaded from the order book. */
  type OrderBookState

  datatype SwapDirection = Coin2PC | PC2Coin

  /** The metadata API and the RPC client. */
  datatype Services = Services(
    fetchPoolsByMints: (Pubkey, Pubkey, PoolFetchParams) -> Result<seq<ApiPool>>,
    fetchPoolKeysByIds: seq<Pubkey> -> Result<seq<ApiPoolKeys>>,
    loadAmmKeys: (Pubkey, Pubkey) -> Result<AmmKeys>,
    getKeysForMarket: (Pubkey, Pubkey) -> Result<MarketPubkeys>,
    getMultipleAccountData: seq<Pubkey> -> Result<seq<Option<Account>>>)

  /** Fixed-layout decoders of account bytes, and the status-flag test. */
  datatype Decoders = Decoders(
    ammInfo: Bytes -> Result<AmmInfo>,
    targetOrders: Bytes -> Result<()>,
    tokenAccount: Bytes -> Result<TokenAccount>,
    orderbookPermission: U64 -> bool)

  /** raydium's reserve and swap arithmetic. `swapWithSlippage` takes the pc
      and coin reserves, the fee fraction, the direction, the amount, whether
      it is the input amount and the slippage, and yields the other amount and
      its slippage threshold. */
  datatype PoolMath = PoolMath(
    loadMarketOrder: (AccountInfo, AccountInfo, AmmInfo) -> Result<OrderBookState>,
    totalWithOrderbook: (U64, U64, OrderBookState, AmmInfo, AccountInfo, AccountInfo) -> Result<(U64, U64)>,
    totalWithoutOrderbook: (U64, U64, AmmInfo) -> Result<(U64, U64)>,
    swapWithSlippage: (U64, U64, U64, U64, SwapDirection, U64, bool, U64) -> Result<(U64, U64)>)

  datatype Collaborators = Collaborators(services: Services, decoders: Decoders, math: PoolMath)

  /** `RaydiumAmmQuote`. */
  datatype AmmQuote = AmmQuote(
    market: Pubkey,
    inputMint: Pubkey,
    outputMint: Pubkey,
    amount: U64,
    otherAmount: U64,
    otherAmountThreshold: U64,
    amountSpecifiedIsInput: bool,
    inputMintDecimals: U8,
    outputMintDecimals: U8,
    ammKeys: AmmKeys,
    marketKeys: MarketKeys)

  // ---------------------------------------------------------------------
  // Pool resolution

  /** The pool to quote against: the caller's, verbatim and without any
      external call, or else the first candidate of the API page that passes
      the pair filter. */
  function ResolvePoolId(input: SwapInput, ids: ProgramIds, svc: Services): (r: Traced<Pubkey, IoCall>)
    ensures input.market.Some? ==> r == Traced(Ok(input.market.value), [])
    ensures input.market.None? ==>
      r.calls == [FetchPoolsByMints(input.inputTokenMint, input.outputTokenMint, PoolQuery())]
    ensures input.market.None? ==>
      var page := svc.fetchPoolsByMints(input.inputTokenMint, input.outputTokenMint, PoolQuery());
      && (page.Err? ==> r.result == Err(page.error))
      && (page.Ok? ==>
            var chosen := SelectPool(page.value, input.inputTokenMint, input.outputTokenMint, ids.ammV4);
            && (chosen.None? ==> r.result == Err(NoPoolForSwap))
            && (chosen.Some? ==> r.result == Ok(chosen.value)))
  {
    match input.market
    case Some(p) => Traced(Ok(p), [])
    case None =>
      var call := FetchPoolsByMints(input.inputTokenMint, input.outputTokenMint, PoolQuery());
      match svc.fetchPoolsByMints(input.inputTokenMint, input.outputTokenMint, PoolQuery())
      case Err(e) => Traced(Err(e), [call])
      case Ok(pools) =>
        match SelectPool(pools, input.inputTokenMint, input.outputTokenMint, ids.ammV4)
        case None => Traced(Err(NoPoolForSwap), [call])
        case Some(id) => Traced(Ok(id), [call])
  }

  // ---------------------------------------------------------------------
  // Key resolution

  /** The two key bundles of the pool. Through the API: one lookup for the
      pool id, the first bundle returned, converted; an empty answer is an
      error. On chain: the pool's keys, then the order-book keys of the market
      they name. */
  function LoadKeys(byApi: bool, poolId: Pubkey, ids: ProgramIds, svc: Services): (r: Traced<(AmmKeys, MarketKeys), IoCall>)
    ensures byApi ==> r.calls == [FetchPoolKeysByIds([poolId])]
    ensures byApi ==>
      var bundles := svc.fetchPoolKeysByIds([poolId]);
      && (bundles.Ok? && |bundles.value| == 0 ==> r.result == Err(PoolKeysNotFound(poolId)))
      && (r.result.Ok? <==> bundles.Ok? && |bundles.value| > 0 && Complete(bundles.value[0]))
      && (r.result.Ok? ==>
            && Ok(r.result.value.0) == AmmKeysTryFrom(bundles.value[0])
            && Ok(r.result.value.1) == MarketKeysTryFrom(bundles.value[0]))
    ensures byApi ==>
      var bundles := svc.fetchPoolKeysByIds([poolId]);
      && (bundles.Err? ==> r.result == Err(bundles.error))
      && (bundles.Ok? && |bundles.value| > 0 && AmmKeysTryFrom(bundles.value[0]).Err? ==>
            r.result == Err(AmmKeysTryFrom(bundles.value[0]).error))
      && (bundles.Ok? && |bundles.value| > 0 && AmmKeysTryFrom(bundles.value[0]).Ok?
            && MarketKeysTryFrom(bundles.value[0]).Err? ==>
            r.result == Err(MarketKeysTryFrom(bundles.value[0]).error))
    ensures !byApi ==>
      var amm := svc.loadAmmKeys(ids.ammV4, poolId);
      && (amm.Err? ==> r == Traced(Err(amm.error), [LoadAmmKeys(ids.ammV4, poolId)]))
      && (amm.Ok? ==>
            var market := svc.getKeysForMarket(amm.value.marketProgram, amm.value.market);
            && r.calls == [LoadAmmKeys(ids.ammV4, poolId), GetKeysForMarket(amm.value.marketProgram, amm.value.market)]
            && (market.Err? ==> r.result == Err(market.error))
            && (market.Ok? ==> r.result == Ok((amm.value, MarketKeysFromPubkeys(market.value)))))
  {
    if byApi then
      var call := FetchPoolKeysByIds([poolId]);
      match svc.fetchPoolKeysByIds([poolId])
      case Err(e) => Traced(Err(e), [call])
      case Ok(bundles) =>
        if |bundles| == 0 then Traced(Err(PoolKeysNotFound(poolId)), [call])
        else
          match AmmKeysTryFrom(bundles[0])
          case Err(e) => Traced(Err(e), [call])
          case Ok(amm) =>
            match MarketKeysTryFrom(bundles[0])
            case Err(e) => Traced(Err(e), [call])
            case Ok(mkt) => Traced(Ok((amm, mkt)), [call])
    else
      var first := LoadAmmKeys(ids.ammV4, poolId);
      match svc.loadAmmKeys(ids.ammV4, poolId)
      case Err(e) => Traced(Err(e), [first])
      case Ok(amm) =>
        var second := GetKeysForMarket(amm.marketProgram, amm.market);
        match svc.getKeysForMarket(amm.marketProgram, amm.market)
        case Err(e) => Traced(Err(e), [first, second])
        case Ok(keys) => Traced(Ok((amm, MarketKeysFromPubkeys(keys))), [first, second])
  }

  // ---------------------------------------------------------------------
  // The batched account snapshot

  /** The role of each account in the snapshot. */
  datatype SnapshotSlot =
    | PoolAccount
    | TargetOrdersAccount
    | PcVaultAccount
    | CoinVaultAccount
    | OpenOrdersAccount
    | MarketAccount
    | EventQueueAccount

  const SNAPSHOT_LEN: nat := 7

  /** Where each role sits in the request and in the positionally aligned
      response. */
  function SlotIndex(s: SnapshotSlot): (i: nat)
    ensures i < SNAPSHOT_LEN
  {
    match s
    case PoolAccount => 0
    case TargetOrdersAccount => 1
    case PcVaultAccount => 2
    case CoinVaultAccount => 3
    case OpenOrdersAccount => 4
    case MarketAccount => 5
    case EventQueueAccount => 6
  }

  /** The address each role is read from. */
  function SlotAddress(s: SnapshotSlot, poolId: Pubkey, amm: AmmKeys, mkt: MarketKeys): Pubkey {
    match s
    case PoolAccount => poolId
    case TargetOrdersAccount => amm.ammTarget
    case PcVaultAccount => amm.ammPcVault
    case CoinVaultAccount => amm.ammCoinVault
    case OpenOrdersAccount => amm.ammOpenOrder
    case MarketAccount => amm.market
    case EventQueueAccount => mkt.eventQueue
  }

  /** The single batched read request, in the executor's order. Each role's
      address sits at that role's index, so the response can be taken apart
      by position. */
  function SnapshotAddresses(poolId: Pubkey, amm: AmmKeys, mkt: MarketKeys): (r: seq<Pubkey>)
    ensures |r| == SNAPSHOT_LEN
    ensures forall s :: r[SlotIndex(s)] == SlotAddress(s, poolId, amm, mkt)
  {
    [poolId, amm.ammTarget, amm.ammPcVault, amm.ammCoinVault, amm.ammOpenOrder, amm.market, mkt.eventQueue]
  }

  /** No two roles share a position. */
  lemma SlotIndexInjective(s: SnapshotSlot, t: SnapshotSlot)
    ensures SlotIndex(s) == SlotIndex(t) ==> s == t
  {
  }

  // ---------------------------------------------------------------------
  // Decoding and reserves

  /** The decoded pool state with its pc and coin reserves. */
  datatype PoolReserves = PoolReserves(info: AmmInfo, pcReserve: U64, coinReserve: U64)

  /** The balance of a vault account; an absent account or bytes that do not
      unpack as a token account make the executor panic. */
  function VaultAmount(acct: Option<Account>, dec: Decoders, absent: PanicSite, unpack: PanicSite): (r: Result<U64>)
    ensures acct.None? ==> r == Err(Panic(absent))
    ensures acct.Some? && dec.tokenAccount(acct.value.data).Err? ==> r == Err(Panic(unpack))
    ensures acct.Some? && dec.tokenAccount(acct.value.data).Ok? ==>
      r == Ok(dec.tokenAccount(acct.value.data).value.amount)
  {
    match acct
    case None => Err(Panic(absent))
    case Some(a) =>
      match dec.tokenAccount(a.data)
      case Err(_) => Err(Panic(unpack))
      case Ok(t) => Ok(t.amount)
  }

  /** The pool's true (pc, coin) reserves. When the status flag grants
      order-book permission the open-orders, market and event-queue accounts
      must all be present (each absence is its own panic, checked in that
      order), the order book is loaded and merged in, and a failure of either
      step is passed through; otherwise the vault balances go to the plain
      calculation. */
  function TotalReserves(info: AmmInfo, pcAmount: U64, coinAmount: U64, rsps: seq<Option<Account>>,
                         mkt: MarketKeys, dec: Decoders, math: PoolMath): (r: Result<(U64, U64)>)
    requires |rsps| >= SNAPSHOT_LEN
    ensures !dec.orderbookPermission(info.status) ==>
      r == math.totalWithoutOrderbook(pcAmount, coinAmount, info)
    ensures dec.orderbookPermission(info.status) ==>
      var oo := rsps[SlotIndex(OpenOrdersAccount)];
      var m := rsps[SlotIndex(MarketAccount)];
      var eq := rsps[SlotIndex(EventQueueAccount)];
      && (oo.None? ==> r == Err(Panic(OpenOrdersAbsent)))
      && (oo.Some? && m.None? ==> r == Err(Panic(MarketAbsent)))
      && (oo.Some? && m.Some? && eq.None? ==> r == Err(Panic(EventQueueAbsent)))
      && (oo.Some? && m.Some? && eq.Some? ==>
            var openOrders := AccountInfo(info.openOrders, oo.value);
            var market := AccountInfo(info.market, m.value);
            var eventQueue := AccountInfo(mkt.eventQueue, eq.value);
            var state := math.loadMarketOrder(market, openOrders, info);
            && (state.Err? ==> r == Err(state.error))
            && (state.Ok? ==>
                  r == math.totalWithOrderbook(pcAmount, coinAmount, state.value, info, eventQueue, openOrders)))
  {
    if dec.orderbookPermission(info.status) then
      match rsps[SlotIndex(OpenOrdersAccount)]
      case None => Err(Panic(OpenOrdersAbsent))
      case Some(oo) =>
        match rsps[SlotIndex(MarketAccount)]
        case None => Err(Panic(MarketAbsent))
        case Some(m) =>
          match rsps[SlotIndex(EventQueueAccount)]
          case None => Err(Panic(EventQueueAbsent))
          case Some(eq) =>
            var openOrders := AccountInfo(info.openOrders, oo);
            var market := AccountInfo(info.market, m);
            var eventQueue := AccountInfo(mkt.eventQueue, eq);
            var state :- math.loadMarketOrder(market, openOrders, info);
            math.totalWithOrderbook(pcAmount, coinAmount, state, info, eventQueue, openOrders)
    else
      math.totalWithoutOrderbook(pcAmount, coinAmount, info)
  }

  /** Takes the batched response apart by position, in the executor's order
      of checks: a response shorter than the request panics, an absent pool
      account is an error, a pool state or target-orders decoding error is
      passed through, an absent target-orders account panics, the vaults must
      unpack, and the reserves are computed from the vault balances. It
      succeeds exactly when every one of these steps does. */
  function DecodeSnapshot(rsps: seq<Option<Account>>, poolId: Pubkey, mkt: MarketKeys,
                          dec: Decoders, math: PoolMath): (r: Result<PoolReserves>)
    ensures |rsps| < SNAPSHOT_LEN ==> r == Err(Panic(ShortSnapshot))
    ensures |rsps| >= SNAPSHOT_LEN && rsps[SlotIndex(PoolAccount)].None? ==> r == Err(AmmAccountMissing(poolId))
    ensures |rsps| >= SNAPSHOT_LEN && rsps[SlotIndex(PoolAccount)].Some? ==>
      var info := dec.ammInfo(rsps[SlotIndex(PoolAccount)].value.data);
      var target := rsps[SlotIndex(TargetOrdersAccount)];
      && (info.Err? ==> r == Err(info.error))
      && (info.Ok? && target.None? ==> r == Err(Panic(TargetOrdersAbsent)))
      && (info.Ok? && target.Some? && dec.targetOrders(target.value.data).Err? ==>
            r == Err(dec.targetOrders(target.value.data).error))
      && (info.Ok? && target.Some? && dec.targetOrders(target.value.data).Ok? ==>
            var pc := VaultAmount(rsps[SlotIndex(PcVaultAccount)], dec, PcVaultAbsent, PcVaultUnpack);
            var coin := VaultAmount(rsps[SlotIndex(CoinVaultAccount)], dec, CoinVaultAbsent, CoinVaultUnpack);
            && (pc.Err? ==> r == Err(pc.error))
            && (pc.Ok? && coin.Err? ==> r == Err(coin.error))
            && (pc.Ok? && coin.Ok? ==>
                  var totals := TotalReserves(info.value, pc.value, coin.value, rsps, mkt, dec, math);
                  && (totals.Err? ==> r == Err(totals.error))
                  && (totals.Ok? ==> r == Ok(PoolReserves(info.value, totals.value.0, totals.value.1)))))
    ensures r.Ok? ==>
      && |rsps| >= SNAPSHOT_LEN
      && rsps[SlotIndex(PoolAccount)].Some?
      && Ok(r.value.info) == dec.ammInfo(rsps[SlotIndex(PoolAccount)].value.data)
  {
    if |rsps| < SNAPSHOT_LEN then Err(Panic(ShortSnapshot))
    else
      match rsps[SlotIndex(PoolAccount)]
      case None => Err(AmmAccountMissing(poolId))
      case Some(ammAccount) =>
        var info :- dec.ammInfo(ammAccount.data);
        match rsps[SlotIndex(TargetOrdersAccount)]
        case None => Err(Panic(TargetOrdersAbsent))
        case Some(target) =>
          var decodedTarget :- dec.targetOrders(target.data);
          var pcAmount :- VaultAmount(rsps[SlotIndex(PcVaultAccount)], dec, PcVaultAbsent, PcVaultUnpack);
          var coinAmount :- VaultAmount(rsps[SlotIndex(CoinVaultAccount)], dec, CoinVaultAbsent, CoinVaultUnpack);
          var totals :- TotalReserves(info, pcAmount, coinAmount, rsps, mkt, dec, math);
          Ok(PoolReserves(info, totals.0, totals.1))
  }

  // ---------------------------------------------------------------------
  // Direction, decimals and the quote record

  /** Coin-to-pc exactly when the input is the pool's coin mint and the
      output its pc mint; every other pair, including one that is not the
      pool's pair at all, is treated as pc-to-coin. */
  function Direction(input: Pubkey, output: Pubkey, amm: AmmKeys): (d: SwapDirection)
    ensures d == Coin2PC <==> input == amm.ammCoinMint && output == amm.ammPcMint
  {
    if input == amm.ammCoinMint && output == amm.ammPcMint then Coin2PC else PC2Coin
  }

  /** (input decimals, output decimals), each narrowed to a byte: the coin
      side's decimals go to whichever side the direction makes the coin
      side. */
  function Decimals(d: SwapDirection, info: AmmInfo): (r: (U8, U8))
    ensures multiset{r.0, r.1} == multiset{TruncateToU8(info.coinDecimals), TruncateToU8(info.pcDecimals)}
    ensures d == Coin2PC ==> r.0 == TruncateToU8(info.coinDecimals)
    ensures d == PC2Coin ==> r.0 == TruncateToU8(info.pcDecimals)
  {
    var coin := TruncateToU8(info.coinDecimals);
    var pc := TruncateToU8(info.pcDecimals);
    if d == Coin2PC then (coin, pc) else (pc, coin)
  }

  /** Runs the swap math on the reserves and assembles the quote, which
      echoes the pool id and the caller's mints, amount and mode. */
  function PriceQuote(input: SwapInput, poolId: Pubkey, amm: AmmKeys, mkt: MarketKeys,
                      pool: PoolReserves, math: PoolMath): (r: Result<AmmQuote>)
    ensures
      var d := Direction(input.inputTokenMint, input.outputTokenMint, amm);
      var amounts := math.swapWithSlippage(pool.pcReserve, pool.coinReserve,
                                           pool.info.swapFeeNumerator, pool.info.swapFeeDenominator,
                                           d, input.amount, AmountSpecifiedIsInput(input.mode), input.slippageBps);
      && (amounts.Err? ==> r == Err(amounts.error))
      && (amounts.Ok? ==>
            && r.Ok?
            && r.value.market == poolId
            && r.value.inputMint == input.inputTokenMint
            && r.value.outputMint == input.outputTokenMint
            && r.value.amount == input.amount
            && r.value.amountSpecifiedIsInput == AmountSpecifiedIsInput(input.mode)
            && (r.value.otherAmount, r.value.otherAmountThreshold) == amounts.value
            && (r.value.inputMintDecimals, r.value.outputMintDecimals) == Decimals(d, pool.info)
            && r.value.ammKeys == amm && r.value.marketKeys == mkt)
  {
    var d := Direction(input.inputTokenMint, input.outputTokenMint, amm);
    var isInput := AmountSpecifiedIsInput(input.mode);
    match math.swapWithSlippage(pool.pcReserve, pool.coinReserve,
                                pool.info.swapFeeNumerator, pool.info.swapFeeDenominator,
                                d, input.amount, isInput, input.slippageBps)
    case Err(e) => Err(e)
    case Ok(amounts) =>
      var decimals := Decimals(d, pool.info);
      Ok(AmmQuote(
        market := poolId,
        inputMint := input.inputTokenMint,
        outputMint := input.outputTokenMint,
        amount := input.amount,
        otherAmount := amounts.0,
        otherAmountThreshold := amounts.1,
        amountSpecifiedIsInput := isInput,
        inputMintDecimals := decimals.0,
        outputMintDecimals := decimals.1,
        ammKeys := amm,
        marketKeys := mkt))
  }

  /** The quote pipeline. Equal mints are refused before any external call;
      a caller's pool is used without a lookup; the last external call of a
      successful quote is the one batched read of the snapshot addresses of
      the quoted pool; and the quote echoes the caller's request. */
  function Quote(exec: Executor, ids: ProgramIds, input: SwapInput, env: Collaborators): (r: Traced<AmmQuote, IoCall>)
    ensures input.inputTokenMint == input.outputTokenMint ==>
      r == Traced(Err(SameMint(input.inputTokenMint)), [])
    ensures input.inputTokenMint != input.outputTokenMint && input.market.None? ==>
      |r.calls| >= 1 && r.calls[0] == FetchPoolsByMints(input.inputTokenMint, input.outputTokenMint, PoolQuery())
    ensures input.market.Some? ==> forall i :: 0 <= i < |r.calls| ==> !r.calls[i].FetchPoolsByMints?
    ensures input.inputTokenMint != input.outputTokenMint ==>
      var pool := ResolvePoolId(input, ids, env.services);
      && (pool.result.Err? ==> r == Traced(Err(pool.result.error), pool.calls))
      && (pool.result.Ok? ==>
            var keys := LoadKeys(exec.loadKeysByApi, pool.result.value, ids, env.services);
            && (keys.result.Err? ==> r == Traced(Err(keys.result.error), pool.calls + keys.calls))
            && (keys.result.Ok? ==>
                  var addresses := SnapshotAddresses(pool.result.value, keys.result.value.0, keys.result.value.1);
                  var rsps := env.services.getMultipleAccountData(addresses);
                  && r.calls == pool.calls + keys.calls + [GetMultipleAccounts(addresses)]
                  && (rsps.Err? ==> r.result == Err(rsps.error))
                  && (rsps.Ok? ==>
                        var reserves := DecodeSnapshot(rsps.value, pool.result.value, keys.result.value.1,
                                                       env.decoders, env.math);
                        && (reserves.Err? ==> r.result == Err(reserves.error))
                        && (reserves.Ok? ==>
                              r.result == PriceQuote(input, pool.result.value, keys.result.value.0,
                                                     keys.result.value.1, reserves.value, env.math)))))
    ensures r.result.Ok? ==>
      && input.inputTokenMint != input.outputTokenMint
      && r.result.value.inputMint == input.inputTokenMint
      && r.result.value.outputMint == input.outputTokenMint
      && r.result.value.amount == input.amount
      && r.result.value.amountSpecifiedIsInput == input.mode.ExactIn?
      && |r.calls| >= 1
      && r.calls[|r.calls| - 1]
         == GetMultipleAccounts(SnapshotAddresses(r.result.value.market, r.result.value.ammKeys, r.result.value.marketKeys))
      && (input.market.Some? ==> r.result.value.market == input.market.value)
      && LoadKeys(exec.loadKeysByApi, r.result.value.market, ids, env.services).result
         == Ok((r.result.value.ammKeys, r.result.value.marketKeys))
      && (input.market.None? ==>
            var page := env.services.fetchPoolsByMints(input.inputTokenMint, input.outputTokenMint, PoolQuery());
            page.Ok? && SelectPool(page.value, input.inputTokenMint, input.outputTokenMint, ids.ammV4)
                        == Some(r.result.value.market))
  {
    if input.inputTokenMint == input.outputTokenMint then
      Traced(Err(SameMint(input.inputTokenMint)), [])
    else
      var pool := ResolvePoolId(input, ids, env.services);
      match pool.result
      case Err(e) => Traced(Err(e), pool.calls)
      case Ok(poolId) =>
        var keys := LoadKeys(exec.loadKeysByApi, poolId, ids, env.services);
        match keys.result
        case Err(e) => Traced(Err(e), pool.calls + keys.calls)
        case Ok(bundles) =>
          var addresses := SnapshotAddresses(poolId, bundles.0, bundles.1);
          var calls := pool.calls + keys.calls + [GetMultipleAccounts(addresses)];
          match env.services.getMultipleAccountData(addresses)
          case Err(e) => Traced(Err(e), calls)
          case Ok(rsps) =>
            match DecodeSnapshot(rsps, poolId, bundles.1, env.decoders, env.math)
            case Err(e) => Traced(Err(e), calls)
            case Ok(reserves) => Traced(PriceQuote(input, poolId, bundles.0, bundles.1, reserves, env.math), calls)
  }

  /** Once the pool and its keys are resolved, a snapshot without the pool's
      own account ends the quote with `AmmAccountMissing` for that pool, after
      exactly one batched read. */
  lemma QuoteAbsentPoolAccount(exec: Executor, ids: ProgramIds, input: SwapInput, env: Collaborators)
    requires input.inputTokenMint != input.outputTokenMint
    requires ResolvePoolId(input, ids, env.services).result.Ok?
    requires
      var poolId := ResolvePoolId(input, ids, env.services).result.value;
      var keys := LoadKeys(exec.loadKeysByApi, poolId, ids, env.services).result;
      && keys.Ok?
      && var rsps := env.services.getMultipleAccountData(SnapshotAddresses(poolId, keys.value.0, keys.value.1));
         rsps.Ok? && |rsps.value| >= SNAPSHOT_LEN && rsps.value[SlotIndex(PoolAccount)].None?
    ensures Quote(exec, ids, input, env).result
         == Err(AmmAccountMissing(ResolvePoolId(input, ids, env.services).result.value))
    ensures |Quote(exec, ids, input, env).calls| >= 1
    ensures forall i :: 0 <= i < |Quote(exec, ids, input, env).calls| - 1 ==>
              !Quote(exec, ids, input, env).calls[i].GetMultipleAccounts?
    ensures
      var poolId := ResolvePoolId(input, ids, env.services).result.value;
      var keys := LoadKeys(exec.loadKeysByApi, poolId, ids, env.services).result.value;
      var calls := Quote(exec, ids, input, env).calls;
      calls[|calls| - 1] == GetMultipleAccounts(SnapshotAddresses(poolId, keys.0, keys.1))
  {
  }

  // ---------------------------------------------------------------------
  // Properties of the direction choice

  /** For a request whose mints are the pool's pair, in either order, the
      direction names the input side correctly and the decimals follow it. */
  lemma DirectionIdentifiesInputSide(input: Pubkey, output: Pubkey, amm: AmmKeys, info: AmmInfo)
    requires amm.ammCoinMint != amm.ammPcMint
    requires (input == amm.ammCoinMint && output == amm.ammPcMint)
          || (input == amm.ammPcMint && output == amm.ammCoinMint)
    ensures Direction(input, output, amm) == Coin2PC <==> input == amm.ammCoinMint
    ensures Direction(input, output, amm) == PC2Coin <==> input == amm.ammPcMint
    ensures input == amm.ammCoinMint ==> Decimals(Direction(input, output, amm), info).0 == TruncateToU8(info.coinDecimals)
    ensures input == amm.ammPcMint ==> Decimals(Direction(input, output, amm), info).0 == TruncateToU8(info.pcDecimals)
  {
  }

  /** Reversing a request on the same pool reverses the direction and swaps
      the input and output decimals. */
  lemma DirectionAntisymmetric(input: Pubkey, output: Pubkey, amm: AmmKeys, info: AmmInfo)
    requires amm.ammCoinMint != amm.ammPcMint
    requires (input == amm.ammCoinMint && output == amm.ammPcMint)
          || (input == amm.ammPcMint && output == amm.ammCoinMint)
    ensures Direction(input, output, amm) != Direction(output, input, amm)
    ensures Decimals(Direction(output, input, amm), info).0 == Decimals(Direction(input, output, amm), info).1
    ensures Decimals(Direction(output, input, amm), info).1 == Decimals(Direction(input, output, amm), info).0
  {
  }

  /** Matching the input against the coin mint is not enough: with any other
      output the executor falls back to pc-to-coin. */
  lemma DirectionNeedsBothMints(input: Pubkey, output: Pubkey, amm: AmmKeys)
    requires input == amm.ammCoinMint && output != amm.ammPcMint
    ensures Direction(input, output, amm) == PC2Coin
  {
  }

  /** A successful quote's decimals are the pool's coin and pc decimals,
      narrowed to a byte, in some order. */
  lemma QuoteDecimalsArePoolDecimals(input: SwapInput, poolId: Pubkey, amm: AmmKeys, mkt: MarketKeys,
                                     pool: PoolReserves, math: PoolMath)
    requires PriceQuote(input, poolId, amm, mkt, pool, math).Ok?
    ensures var q := PriceQuote(input, poolId, amm, mkt, pool, math).value;
      multiset{q.inputMintDecimals, q.outputMintDecimals}
        == multiset{TruncateToU8(pool.info.coinDecimals), TruncateToU8(pool.info.pcDecimals)}
  {
  }
}

/** The two key bundles a quote carries (`AmmKeys` for the pool itself,
    `MarketKeys` for the coupled order-book market) and the conversions that
    build them from the pool-metadata API's key bundle or from the order-book
    keys read on chain. */
module Keys {
  import opened Base

  /** raydium_library's `AmmKeys`. */
  datatype AmmKeys = AmmKeys(
    ammPool: Pubkey,
    ammCoinMint: Pubkey,
    ammPcMint: Pubkey,
    ammAuthority: Pubkey,
    ammTarget: Pubkey,
    ammCoinVault: Pubkey,
    ammPcVault: Pubkey,
    ammLpMint: Pubkey,
    ammOpenOrder: Pubkey,
    marketProgram: Pubkey,
    market: Pubkey,
    nonce: U8)

  /** The executor's own order-book key set. */
  datatype MarketKeys = MarketKeys(
    eventQueue: Pubkey,
    bids: Pubkey,
    asks: Pubkey,
    coinVault: Pubkey,
    pcVault: Pubkey,
    vaultSignerKey: Pubkey)

  /** raydium_library's `MarketPubkeys`, as read from the market account. */
  datatype MarketPubkeys = MarketPubkeys(
    market: Pubkey,
    reqQ: Pubkey,
    eventQ: Pubkey,
    bids: Pubkey,
    asks: Pubkey,
    coinVault: Pubkey,
    pcVault: Pubkey,
    vaultSignerKey: Pubkey)

  /** The market sub-bundle of the API's standard-pool keys. */
  datatype ApiMarketKeys = ApiMarketKeys(
    marketProgramId: Pubkey,
    marketId: Pubkey,
    marketAuthority: Pubkey,
    marketBaseVault: Pubkey,
    marketQuoteVault: Pubkey,
    marketBids: Pubkey,
    marketAsks: Pubkey,
    marketEventQueue: Pubkey)

  /** The API's standard-pool key bundle (`ApiV3StandardPoolKeys`); the
      nested `mint_a.address`, `vault.a`, `keys.authority`, ... fields are
      flattened. Target orders, open orders and the market sub-bundle are
      optional in the response. */
  datatype ApiPoolKeys = ApiPoolKeys(
    id: Pubkey,
    mintA: Pubkey,
    mintB: Pubkey,
    vaultA: Pubkey,
    vaultB: Pubkey,
    authority: Pubkey,
    targetOrders: Option<Pubkey>,
    openOrders: Option<Pubkey>,
    mintLp: Pubkey,
    market: Option<ApiMarketKeys>)

  /** A bundle carrying every optional sub-field. */
  predicate Complete(k: ApiPoolKeys) {
    k.market.Some? && k.targetOrders.Some? && k.openOrders.Some?
  }

  /** `MarketKeys::from(&MarketPubkeys)`: keeps the six keys a swap needs and
      drops the market address and request queue. */
  function MarketKeysFromPubkeys(p: MarketPubkeys): (r: MarketKeys)
    ensures r.eventQueue == p.eventQ && r.bids == p.bids && r.asks == p.asks
    ensures r.coinVault == p.coinVault && r.pcVault == p.pcVault
    ensures r.vaultSignerKey == p.vaultSignerKey
  {
    MarketKeys(p.eventQ, p.bids, p.asks, p.coinVault, p.pcVault, p.vaultSignerKey)
  }

  /** `MarketKeys::from(&api MarketKeys)`: base vault is the coin vault, quote
      vault the pc vault, and the market authority signs for the vaults. */
  function MarketKeysFromApi(m: ApiMarketKeys): (r: MarketKeys)
    ensures r.coinVault == m.marketBaseVault && r.pcVault == m.marketQuoteVault
    ensures r.vaultSignerKey == m.marketAuthority
    ensures r.eventQueue == m.marketEventQueue && r.bids == m.marketBids && r.asks == m.marketAsks
  {
    MarketKeys(m.marketEventQueue, m.marketBids, m.marketAsks,
               m.marketBaseVault, m.marketQuoteVault, m.marketAuthority)
  }

  /** `MarketKeys::try_from(&ApiV3StandardPoolKeys)`: fails exactly when the
      market sub-bundle is absent. */
  function MarketKeysTryFrom(k: ApiPoolKeys): (r: Result<MarketKeys>)
    ensures r.Ok? <==> k.market.Some?
    ensures r.Err? ==> r.error == MissingMarketKeys
    ensures r.Ok? ==>
      && r.value.coinVault == k.market.value.marketBaseVault
      && r.value.pcVault == k.market.value.marketQuoteVault
      && r.value.vaultSignerKey == k.market.value.marketAuthority
      && r.value.eventQueue == k.market.value.marketEventQueue
      && r.value.bids == k.market.value.marketBids
      && r.value.asks == k.market.value.marketAsks
  {
    match k.market
    case None => Err(MissingMarketKeys)
    case Some(m) => Ok(MarketKeysFromApi(m))
  }

  /** `AmmKeys::try_from(&ApiV3StandardPoolKeys)`. The market sub-bundle is
      checked first, then target orders, then open orders; on success the
      pool keys are mapped one-to-one with `mint_a`/`vault.a` as the coin side
      and `mint_b`/`vault.b` as the pc side, and the nonce is 0. */
  function AmmKeysTryFrom(k: ApiPoolKeys): (r: Result<AmmKeys>)
    ensures r.Ok? <==> Complete(k)
    ensures k.market.None? ==> r == Err(MissingMarketKeys)
    ensures k.market.Some? && k.targetOrders.None? ==> r == Err(MissingTargetOrders)
    ensures k.market.Some? && k.targetOrders.Some? && k.openOrders.None? ==> r == Err(MissingOpenOrders)
    ensures r.Ok? ==>
      && r.value.ammPool == k.id
      && r.value.ammCoinMint == k.mintA && r.value.ammPcMint == k.mintB
      && r.value.ammCoinVault == k.vaultA && r.value.ammPcVault == k.vaultB
      && r.value.ammAuthority == k.authority && r.value.ammLpMint == k.mintLp
      && r.value.ammTarget == k.targetOrders.value
      && r.value.ammOpenOrder == k.openOrders.value
      && r.value.marketProgram == k.market.value.marketProgramId
      && r.value.market == k.market.value.marketId
      && r.value.nonce == 0
  {
    match k.market
    case None => Err(MissingMarketKeys)
    case Some(m) =>
      match k.targetOrders
      case None => Err(MissingTargetOrders)
      case Some(target) =>
        match k.openOrders
        case None => Err(MissingOpenOrders)
        case Some(openOrders) =>
          Ok(AmmKeys(
            ammPool := k.id,
            ammCoinMint := k.mintA,
            ammPcMint := k.mintB,
            ammAuthority := k.authority,
            ammTarget := target,
            ammCoinVault := k.vaultA,
            ammPcVault := k.vaultB,
            ammLpMint := k.mintLp,
            ammOpenOrder := openOrders,
            marketProgram := m.marketProgramId,
            market := m.marketId,
            nonce := 0))
  }

  /** The API bundle that describes a pair of key sets: the inverse of the two
      `try_from` conversions. */
  function BundleOf(a: AmmKeys, m: MarketKeys): ApiPoolKeys {
    ApiPoolKeys(
      id := a.ammPool,
      mintA := a.ammCoinMint,
      mintB := a.ammPcMint,
      vaultA := a.ammCoinVault,
      vaultB := a.ammPcVault,
      authority := a.ammAuthority,
      targetOrders := Some(a.ammTarget),
      openOrders := Some(a.ammOpenOrder),
      mintLp := a.ammLpMint,
      market := Some(ApiMarketKeys(
        marketProgramId := a.marketProgram,
        marketId := a.market,
        marketAuthority := m.vaultSignerKey,
        marketBaseVault := m.coinVault,
        marketQuoteVault := m.pcVault,
        marketBids := m.bids,
        marketAsks := m.asks,
        marketEventQueue := m.eventQueue)))
  }

  /** Converting the bundle of a pair of key sets gives that pair back, as long
      as the pool keys carry the nonce 0 the conversion always writes. */
  lemma TryFromBundleOf(a: AmmKeys, m: MarketKeys)
    requires a.nonce == 0
    ensures AmmKeysTryFrom(BundleOf(a, m)) == Ok(a)
    ensures MarketKeysTryFrom(BundleOf(a, m)) == Ok(m)
  {
  }

  /** Conversely, a bundle both conversions accept is exactly the bundle of
      what they produce: no field of a complete bundle is lost, so two complete
      bundles yielding the same key sets are equal. */
  lemma BundleOfTryFrom(k: ApiPoolKeys)
    requires Complete(k)
    ensures AmmKeysTryFrom(k).Ok? && MarketKeysTryFrom(k).Ok?
    ensures BundleOf(AmmKeysTryFrom(k).value, MarketKeysTryFrom(k).value) == k
  {
  }

  /** The API path and the on-chain path agree on the order-book keys whenever
      the API's market sub-bundle names the same accounts as the market account
      itself; the market address and request queue do not matter. */
  lemma KeySourcesAgree(api: ApiMarketKeys, chain: MarketPubkeys)
    requires api.marketEventQueue == chain.eventQ
    requires api.marketBids == chain.bids && api.marketAsks == chain.asks
    requires api.marketBaseVault == chain.coinVault && api.marketQuoteVault == chain.pcVault
    requires api.marketAuthority == chain.vaultSignerKey
    ensures MarketKeysFromApi(api) == MarketKeysFromPubkeys(chain)
  {
  }
}

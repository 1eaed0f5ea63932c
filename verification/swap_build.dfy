/** Turning a quote into swap instructions: the choice between raydium's
    `swap_base_in` and `swap_base_out` constructors with their argument
    order (`swap_instruction`), and the sequence of steps `make_swap` drives
    the instruction builder through. The builder's handlers and the
    associated-token-address derivation are functions passed in. */
module SwapBuild {
  import opened Base
  import opened Keys
  import opened Config
  import opened Quoting

  datatype SwapVariant = SwapBaseIn | SwapBaseOut

  /** A call to one of raydium's swap-instruction constructors: which one,
      its seventeen address arguments, and its two amount arguments in
      positional order. */
  datatype SwapCall = SwapCall(variant: SwapVariant, addresses: seq<Pubkey>, first: U64, second: U64)

  const SWAP_ADDRESS_COUNT: nat := 17

  /** What each address argument of the swap constructors stands for. */
  datatype SwapRole =
    | Program
    | AmmPool | AmmAuthority | AmmOpenOrders | AmmCoinVault | AmmPcVault
    | MarketProgram | Market | MarketBids | MarketAsks | MarketEventQueue
    | MarketCoinVault | MarketPcVault | MarketVaultSigner
    | UserSource | UserDestination | UserOwner

  /** The argument position each role takes: program, the pool's accounts,
      the order-book market's accounts, then the user's source, destination
      and owner. */
  function SwapRoleIndex(role: SwapRole): (i: nat)
    ensures i < SWAP_ADDRESS_COUNT
  {
    match role
    case Program => 0
    case AmmPool => 1
    case AmmAuthority => 2
    case AmmOpenOrders => 3
    case AmmCoinVault => 4
    case AmmPcVault => 5
    case MarketProgram => 6
    case Market => 7
    case MarketBids => 8
    case MarketAsks => 9
    case MarketEventQueue => 10
    case MarketCoinVault => 11
    case MarketPcVault => 12
    case MarketVaultSigner => 13
    case UserSource => 14
    case UserDestination => 15
    case UserOwner => 16
  }

  /** The key the executor passes for each role: the pool-side keys from
      `AmmKeys`, the order-book keys from `MarketKeys`. */
  function SwapRoleAddress(role: SwapRole, program: Pubkey, amm: AmmKeys, mkt: MarketKeys,
                           owner: Pubkey, source: Pubkey, destination: Pubkey): Pubkey
  {
    match role
    case Program => program
    case AmmPool => amm.ammPool
    case AmmAuthority => amm.ammAuthority
    case AmmOpenOrders => amm.ammOpenOrder
    case AmmCoinVault => amm.ammCoinVault
    case AmmPcVault => amm.ammPcVault
    case MarketProgram => amm.marketProgram
    case Market => amm.market
    case MarketBids => mkt.bids
    case MarketAsks => mkt.asks
    case MarketEventQueue => mkt.eventQueue
    case MarketCoinVault => mkt.coinVault
    case MarketPcVault => mkt.pcVault
    case MarketVaultSigner => mkt.vaultSignerKey
    case UserSource => source
    case UserDestination => destination
    case UserOwner => owner
  }

  /** The role at each argument position. */
  function SwapRoleAt(i: nat): (role: SwapRole)
    requires i < SWAP_ADDRESS_COUNT
  {
    if i == 0 then Program
    else if i == 1 then AmmPool
    else if i == 2 then AmmAuthority
    else if i == 3 then AmmOpenOrders
    else if i == 4 then AmmCoinVault
    else if i == 5 then AmmPcVault
    else if i == 6 then MarketProgram
    else if i == 7 then Market
    else if i == 8 then MarketBids
    else if i == 9 then MarketAsks
    else if i == 10 then MarketEventQueue
    else if i == 11 then MarketCoinVault
    else if i == 12 then MarketPcVault
    else if i == 13 then MarketVaultSigner
    else if i == 14 then UserSource
    else if i == 15 then UserDestination
    else UserOwner
  }

  /** Roles and positions correspond one to one: no two roles share a
      position and every position carries some role's key. */
  lemma SwapRolesArePositions(role: SwapRole, i: nat)
    requires i < SWAP_ADDRESS_COUNT
    ensures SwapRoleAt(SwapRoleIndex(role)) == role
    ensures SwapRoleIndex(SwapRoleAt(i)) == i
  {
  }

  /** The address arguments both constructors take: the argument at each
      role's position is that role's key, and there is no other argument. */
  function SwapAddresses(program: Pubkey, amm: AmmKeys, mkt: MarketKeys,
                         owner: Pubkey, source: Pubkey, destination: Pubkey): (r: seq<Pubkey>)
    ensures |r| == SWAP_ADDRESS_COUNT
    ensures forall role :: r[SwapRoleIndex(role)] == SwapRoleAddress(role, program, amm, mkt, owner, source, destination)
  {
    [program, amm.ammPool, amm.ammAuthority, amm.ammOpenOrder, amm.ammCoinVault, amm.ammPcVault,
     amm.marketProgram, amm.market, mkt.bids, mkt.asks, mkt.eventQueue, mkt.coinVault, mkt.pcVault,
     mkt.vaultSignerKey, source, destination, owner]
  }

  /** `swap_instruction`: the base-in constructor exactly when `swapBaseIn`,
      with the same addresses either way; base-in takes (amount specified,
      threshold), base-out takes them the other way round. */
  function SwapInstruction(program: Pubkey, amm: AmmKeys, mkt: MarketKeys, owner: Pubkey,
                           source: Pubkey, destination: Pubkey,
                           amountSpecified: U64, otherAmountThreshold: U64, swapBaseIn: bool): (ix: SwapCall)
    ensures ix.variant == SwapBaseIn <==> swapBaseIn
    ensures ix.addresses == SwapAddresses(program, amm, mkt, owner, source, destination)
    ensures swapBaseIn ==> ix.first == amountSpecified && ix.second == otherAmountThreshold
    ensures !swapBaseIn ==> ix.first == otherAmountThreshold && ix.second == amountSpecified
  {
    var addresses := SwapAddresses(program, amm, mkt, owner, source, destination);
    if swapBaseIn then SwapCall(SwapBaseIn, addresses, amountSpecified, otherAmountThreshold)
    else SwapCall(SwapBaseOut, addresses, otherAmountThreshold, amountSpecified)
  }

  /** Reads a constructor call back as (amount specified, threshold, base-in),
      undoing each variant's argument order. */
  function SwapArguments(ix: SwapCall): (U64, U64, bool) {
    match ix.variant
    case SwapBaseIn => (ix.first, ix.second, true)
    case SwapBaseOut => (ix.second, ix.first, false)
  }

  /** The amounts and the variant choice survive the argument reordering:
      reading the call back gives the caller's triple. */
  lemma SwapArgumentsRoundTrip(program: Pubkey, amm: AmmKeys, mkt: MarketKeys, owner: Pubkey,
                               source: Pubkey, destination: Pubkey,
                               amountSpecified: U64, otherAmountThreshold: U64, swapBaseIn: bool)
    ensures SwapArguments(SwapInstruction(program, amm, mkt, owner, source, destination,
                                          amountSpecified, otherAmountThreshold, swapBaseIn))
         == (amountSpecified, otherAmountThreshold, swapBaseIn)
  {
  }

  /** The two variants built from the same request differ only in the
      constructor and in the order of the two amounts. */
  lemma VariantsSwapAmountOrder(program: Pubkey, amm: AmmKeys, mkt: MarketKeys, owner: Pubkey,
                                source: Pubkey, destination: Pubkey,
                                amountSpecified: U64, otherAmountThreshold: U64)
    ensures
      var baseIn := SwapInstruction(program, amm, mkt, owner, source, destination, amountSpecified, otherAmountThreshold, true);
      var baseOut := SwapInstruction(program, amm, mkt, owner, source, destination, amountSpecified, otherAmountThreshold, false);
      && baseIn.variant == SwapBaseIn && baseOut.variant == SwapBaseOut
      && baseIn.addresses == baseOut.addresses
      && baseIn.first == baseOut.second && baseIn.second == baseOut.first
  {
  }

  // ---------------------------------------------------------------------
  // make_swap

  /** The token-account and wrapping request handed to the builder. */
  datatype TokenAccountsRequest = TokenAccountsRequest(
    owner: Pubkey,
    wrapAndUnwrapSol: bool,
    amount: U64,
    inputMint: Pubkey,
    outputMint: Pubkey,
    inputTokenProgram: Pubkey,
    outputTokenProgram: Pubkey)

  /** One step `make_swap` takes on the builder. */
  datatype BuilderStep =
    | HandleTokenAccounts(request: TokenAccountsRequest)
    | SetSwapInstruction(instruction: SwapCall)
    | HandleComputeUnits(limits: Option<ComputeUnitLimits>, payer: Pubkey)
    | HandlePriorityFee(fee: Option<PriorityFeeConfig>, computeUnits: nat, payer: Pubkey)

  /** The instruction builder's handlers and the associated-token-address
      derivation `(owner, mint) -> address`. The builder is stateful: each
      handler is given the steps already taken on it. */
  datatype Builder = Builder(
    tokenAccounts: (seq<BuilderStep>, TokenAccountsRequest) -> Result<()>,
    computeUnits: (seq<BuilderStep>, Option<ComputeUnitLimits>, Pubkey) -> Result<nat>,
    priorityFee: (seq<BuilderStep>, Option<PriorityFeeConfig>, nat, Pubkey) -> Result<()>,
    associatedTokenAddress: (Pubkey, Pubkey) -> Pubkey)

  /** The amount that moves in the input token: the specified amount when it
      is the input, else the quoted other amount. */
  function WrapAmount(q: AmmQuote): (r: U64)
    ensures q.amountSpecifiedIsInput ==> r == q.amount
    ensures !q.amountSpecifiedIsInput ==> r == q.otherAmount
  {
    if q.amountSpecifiedIsInput then q.amount else q.otherAmount
  }

  /** The token-account request `make_swap` opens with. */
  function AccountsRequest(exec: Executor, ids: ProgramIds, payer: Pubkey, q: AmmQuote,
                           overrides: Option<SwapConfigOverrides>): TokenAccountsRequest
  {
    TokenAccountsRequest(payer, ResolveConfig(exec.config, overrides).wrapAndUnwrapSol, WrapAmount(q),
                         q.inputMint, q.outputMint, ids.splToken, ids.splToken)
  }

  /** The swap instruction `make_swap` sets: the AMM v4 program, the quote's
      keys, and the payer's associated token accounts for the two mints. */
  function SwapFor(ids: ProgramIds, payer: Pubkey, q: AmmQuote, b: Builder): SwapCall {
    SwapInstruction(ids.ammV4, q.ammKeys, q.marketKeys, payer,
                    b.associatedTokenAddress(payer, q.inputMint), b.associatedTokenAddress(payer, q.outputMint),
                    q.amount, q.otherAmountThreshold, q.amountSpecifiedIsInput)
  }

  /** `make_swap`: resolves the configuration, then prepares token accounts
      (sized by the input-side amount), sets the swap instruction for the
      quote, settles compute units and then the priority fee; the first
      handler failure stops it and is passed through. The steps are returned
      in the order taken, and it succeeds exactly when all three handlers do,
      each called on the builder as the earlier steps left it. */
  function MakeSwap(exec: Executor, ids: ProgramIds, payer: Pubkey, q: AmmQuote,
                    overrides: Option<SwapConfigOverrides>, b: Builder): (r: Traced<(), BuilderStep>)
    ensures
      var cfg := ResolveConfig(exec.config, overrides);
      var request := AccountsRequest(exec, ids, payer, q, overrides);
      var accounts := HandleTokenAccounts(request);
      var swap := SetSwapInstruction(SwapFor(ids, payer, q, b));
      var units := HandleComputeUnits(cfg.cuLimits, payer);
      var prepared := b.tokenAccounts([], request);
      var cu := b.computeUnits([accounts, swap], cfg.cuLimits, payer);
      && 1 <= |r.calls| <= 4
      && r.calls[0] == accounts
      && (prepared.Err? ==> r == Traced(Err(prepared.error), [accounts]))
      && (prepared.Ok? && cu.Err? ==> r == Traced(Err(cu.error), [accounts, swap, units]))
      && (prepared.Ok? && cu.Ok? ==>
            var fee := b.priorityFee([accounts, swap, units], cfg.priorityFee, cu.value, payer);
            && r.calls == [accounts, swap, units, HandlePriorityFee(cfg.priorityFee, cu.value, payer)]
            && (fee.Err? ==> r.result == Err(fee.error))
            && (r.result.Ok? <==> fee.Ok?))
      && (r.result.Ok? ==> prepared.Ok? && cu.Ok? && |r.calls| == 4)
    ensures
      var request := r.calls[0].request;
      && request.owner == payer
      && request.inputMint == q.inputMint && request.outputMint == q.outputMint
      && request.inputTokenProgram == ids.splToken && request.outputTokenProgram == ids.splToken
    ensures |r.calls| >= 2 ==>
      && r.calls[1].SetSwapInstruction?
      && r.calls[1].instruction.addresses
         == SwapAddresses(ids.ammV4, q.ammKeys, q.marketKeys, payer,
                          b.associatedTokenAddress(payer, q.inputMint), b.associatedTokenAddress(payer, q.outputMint))
      && SwapArguments(r.calls[1].instruction) == (q.amount, q.otherAmountThreshold, q.amountSpecifiedIsInput)
  {
    var cfg := ResolveConfig(exec.config, overrides);
    var request := AccountsRequest(exec, ids, payer, q, overrides);
    var accounts := HandleTokenAccounts(request);
    match b.tokenAccounts([], request)
    case Err(e) => Traced(Err(e), [accounts])
    case Ok(_) =>
      var swap := SetSwapInstruction(SwapFor(ids, payer, q, b));
      var units := HandleComputeUnits(cfg.cuLimits, payer);
      match b.computeUnits([accounts, swap], cfg.cuLimits, payer)
      case Err(e) => Traced(Err(e), [accounts, swap, units])
      case Ok(n) =>
        var fee := HandlePriorityFee(cfg.priorityFee, n, payer);
        match b.priorityFee([accounts, swap, units], cfg.priorityFee, n, payer)
        case Err(e) => Traced(Err(e), [accounts, swap, units, fee])
        case Ok(_) => Traced(Ok(()), [accounts, swap, units, fee])
  }

  /** In a completed `make_swap` the token-account step comes first, the swap
      instruction second, and the compute-unit and priority-fee steps after
      it; an exact-in swap wraps exactly the amount the base-in instruction
      spends, while an exact-out swap wraps the quoted input and the
      instruction's spending cap is the slippage threshold. */
  lemma MakeSwapOrderAndFunding(exec: Executor, ids: ProgramIds, payer: Pubkey, q: AmmQuote,
                                overrides: Option<SwapConfigOverrides>, b: Builder)
    requires MakeSwap(exec, ids, payer, q, overrides, b).result.Ok?
    ensures
      var steps := MakeSwap(exec, ids, payer, q, overrides, b).calls;
      && |steps| == 4
      && steps[0].HandleTokenAccounts? && steps[1].SetSwapInstruction?
      && steps[2].HandleComputeUnits? && steps[3].HandlePriorityFee?
      && steps[0].request.wrapAndUnwrapSol == ResolveConfig(exec.config, overrides).wrapAndUnwrapSol
      && (q.amountSpecifiedIsInput ==>
            && steps[1].instruction.variant == SwapBaseIn
            && steps[0].request.amount == steps[1].instruction.first == q.amount)
      && (!q.amountSpecifiedIsInput ==>
            && steps[1].instruction.variant == SwapBaseOut
            && steps[0].request.amount == q.otherAmount
            && steps[1].instruction.first == q.otherAmountThreshold
            && steps[1].instruction.second == q.amount)
  {
  }
}

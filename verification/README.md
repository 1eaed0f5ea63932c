# Raydium AMM v4 swap executor — Dafny model

This project models the deterministic core of `RaydiumAmm`, the executor that
quotes a swap against a Raydium constant-product (AMM v4) pool and prepares the
instructions that execute it. The model covers:

- **Configuration.** These are the executor options (`RaydiumAmmExecutorOpts::new` and its derived default), `RaydiumAmm::new` and `update_config`. They also include the per-field precedence `make_swap` applies: override field, else base configuration field, else a hard default. The hard default exists only for SOL wrapping, which defaults to on.
- **Quote preparation (`quote`):**
  - Equal input and output mints are refused before any external call.
  - A caller-named pool is used verbatim. Otherwise the first candidate in the API page that passes the pair filter is chosen.
  - Key bundles come from the metadata API or from the chain.
  - One batched read fetches a fixed, positionally ordered list of seven addresses.
  - The response is taken apart by position. Absent accounts and decoder failures are handled.
  - Reserves are computed with or without the order-book merge.
  - The direction and the decimals are chosen.
  - The quote record is assembled.
- **Key-bundle conversion.** These are the `MarketKeys` `From` impls and the `TryFrom` impls for `MarketKeys` and `AmmKeys`.
- **Instruction choice.** This is `swap_instruction`: base-in or base-out, and the order of the two amount arguments. It also covers the order in which `make_swap` drives the instruction builder and the amount it asks to wrap.

Every collaborator the executor calls is a function value passed in:

- the pool-metadata API and the RPC client (`Quoting.Services`)
- the fixed-layout account decoders (`Quoting.Decoders`)
- raydium's reserve and swap arithmetic (`Quoting.PoolMath`)
- the instruction builder's handlers and the associated-token-address derivation (`SwapBuild.Builder`)

Because of this, every property holds for any behaviour of those collaborators. `Quote` returns the result together with the external calls it made, in order. That is how "no I/O before the equal-mint check" and "the one batched read asks for exactly these addresses" are stated.

Keys are an opaque `Pubkey` type with equality only. Amounts are `U64` (the `u64` range). The `as u8` narrowing of pool decimals is written out as `Base.TruncateToU8`. A Rust `unwrap()` that would panic is modelled as `Err(Panic(site))`, so that the panic paths are visible in the result.

Modules: `Base` (shared types and errors), `Keys`, `Config`, `PoolSelect`, `Quoting`, `SwapBuild`.

Behaviour worth knowing, each stated as the code has it:

- **Direction.** The comment above `quote` (`src/amm/executor.rs:85-86`) says the input mint alone decides the direction. The code (lines 268-274) gives coin-to-pc only when the input is the coin mint *and* the output is the pc mint, and every other pair falls back to pc-to-coin. The model follows the code (`Quoting.DirectionNeedsBothMints`).
- **Pool filter.** It is kept as written: `&&` binds tighter than `||`, so the program id is checked only when the pool lists the pair in reverse order (`PoolSelect.ForwardPairIgnoresProgram`, `PoolSelect.ReversePairNeedsProgram`).
- **Unwrap panics.** A missing target-orders or vault account panics, as does a vault that fails to unpack. A missing open-orders, market or event-queue account on the order-book path panics too. Of the missing or undecodable accounts, only an absent pool account and the pool-state and target-orders decoders' errors are returned as errors. The order-book loading and the reserve calculations return their errors too.
- **Short snapshot response.** A response shorter than seven entries panics in `array_ref!`.

## Model

| member | source | states |
|---|---|---|
| Config.DefaultOpts | src/amm/executor.rs:33-39 | The derived default options leave every field unset. |
| Config.NewOpts | src/amm/executor.rs:41-49 | `new()` sets no fee or compute-unit policy, turns SOL wrapping on and loads keys through the API. |
| Config.NewExecutor | src/amm/executor.rs:59-77 | The options' fee, compute-unit and wrap policies become the base config unchanged, and legacy transactions are requested. Keys are loaded through the API unless the options say `Some(false)`. |
| Config.UpdateConfig | src/amm/executor.rs:350-353 | The whole base config is replaced, and the key-source flag is untouched. |
| Config.UpdateConfigLastWins | src/amm/executor.rs:350-353 | Two updates in a row leave the same executor as the last update alone. |
| Config.ResolveConfig | src/amm/executor.rs:362-374 | Fee and compute units: the override's value if it sets one, else the base config's. Wrapping is off exactly when the first set value among (override, base) is `false`, so it defaults to on. |
| Config.OverrideIsMerge | src/amm/executor.rs:362-374 | Resolving with an override equals folding the override into the base config and resolving with no override. |
| Config.FullOverrideWins | src/amm/executor.rs:362-374 | An override setting every field fully decides the effective config, whatever the base. |
| Config.DefaultAndNewOptsAgree | src/amm/executor.rs:41-77 | Executors built from the default options and from `new()` both load keys through the API. They also resolve every override to the same effective config; in particular both wrap SOL by default. |
| PoolSelect.PoolMatchesIsUnorderedPair | src/amm/executor.rs:119-123 | A candidate passes exactly when its mints are the requested pair in either order and, unless the input mint is listed first, the AMM v4 program owns it. |
| PoolSelect.FirstMatch | src/amm/executor.rs:118-129 | The index returned passes the pair filter and every earlier candidate fails it. With no index, every candidate fails it. |
| PoolSelect.SelectPool | src/amm/executor.rs:118-129 | There is no pool exactly when no candidate passes the filter. Otherwise the pool is the id of a passing candidate preceded only by failing ones. |
| PoolSelect.SelectPoolAppend | src/amm/executor.rs:118-129 | Only the earliest match decides. Candidates after a match in a prefix are never consulted, and a prefix without a match is skipped. |
| PoolSelect.ForwardPairIgnoresProgram | src/amm/executor.rs:119-123 | A pool listing (input, output) in request order is taken whatever program owns it. |
| PoolSelect.ReversePairNeedsProgram | src/amm/executor.rs:121-123 | A pool listing the pair in reverse order is taken only if the AMM v4 program owns it. Otherwise it is skipped. |
| Quoting.PoolQuery | src/amm/executor.rs:109-115 | The candidate lookup asks for standard pools sorted by liquidity, descending, page 1 of size 10. |
| Quoting.ResolvePoolId | src/amm/executor.rs:102-134 | A caller's pool is returned verbatim with no external call. Otherwise there is exactly one lookup, of the first page of ten standard pools sorted by descending liquidity. The result is the first filter match, or `NoPoolForSwap`, or the lookup's own error. |
| Quoting.LoadKeys | src/amm/executor.rs:136-167 | API path: one lookup for `[pool]`, whose error is passed through; an empty answer is `PoolKeysNotFound`; an incomplete first bundle fails with the `AmmKeys` conversion's error, else the `MarketKeys` conversion's; success exactly when the first bundle is complete, with both key sets converted from it. Chain path: the pool-key load comes first and its error stops the path after that one call; otherwise the order-book keys of the market and market program it names are loaded, their error is passed through, and on success the result is the pool keys with the converted market keys. |
| Quoting.SnapshotAddresses | src/amm/executor.rs:171-183 | The batched request has seven entries. Each role's address (pool, target orders, pc vault, coin vault, open orders, market, event queue) sits at the position where the response is destructured. |
| Quoting.SlotIndexInjective | src/amm/executor.rs:181-183 | No two roles are read from the same response position. |
| Quoting.VaultAmount | src/amm/executor.rs:203-209 | An absent vault, or one that does not unpack as a token account, panics. Otherwise the result is the token balance. |
| Quoting.TotalReserves | src/amm/executor.rs:210-266 | Without order-book permission, the result is the plain calculation on the vault balances. With it, an absent open-orders, market or event-queue account panics, checked in that order. When all three are present, the order book is loaded from the market and open-orders accounts under the pool state's keys. A loading error is passed through; otherwise the result is the merged calculation, including its error. |
| Quoting.DecodeSnapshot | src/amm/executor.rs:180-266 | A response shorter than seven panics, and an absent pool account is `AmmAccountMissing(pool)`. The pool-state decoder's error is passed through. An absent target-orders account panics, and its decoder's error is passed through. Vault failures follow `VaultAmount`, pc vault first. Otherwise the result is the decoded pool state with exactly the reserves `TotalReserves` gives, or its error. |
| Quoting.Decimals | src/amm/executor.rs:301-310 | The (input, output) decimals are a permutation of the pool's byte-narrowed (coin, pc) decimals. The coin decimals go to the input side exactly in the coin-to-pc direction. |
| Quoting.PriceQuote | src/amm/executor.rs:268-313 | A swap-math error is returned unchanged. Otherwise the quote echoes the pool id, the mints, the amount and the mode. The other amount and threshold are the math's output for the chosen direction, and the decimals and keys follow. |
| Quoting.Quote | src/amm/executor.rs:90-314 | Equal mints fail with `SameMint` and make no external call. Otherwise the stages compose in order, each stage's error ending the quote: pool resolution, key loading (its calls follow the lookup's), one batched read of the snapshot addresses of that pool and its keys (always the last call), snapshot decoding, then pricing; the result is `PriceQuote` on the decoded reserves. A success echoes the request, names the caller's pool or the first filter match, and carries the keys the key loader gives for that pool. |
| Quoting.QuoteAbsentPoolAccount | src/amm/executor.rs:171-192 | Once the pool and its keys resolve, a snapshot response without the pool's own account ends the quote with `AmmAccountMissing` for that pool. The batched read of that pool's snapshot addresses is the last external call and the only read of that kind. |
| Quoting.Direction | src/amm/executor.rs:268-274 | Coin-to-pc exactly when the input is the pool's coin mint and the output its pc mint. |
| Quoting.DirectionIdentifiesInputSide | src/amm/executor.rs:268-310 | For a request on the pool's own pair, coin-to-pc holds exactly when the input is the coin mint. The input decimals are that side's. |
| Quoting.DirectionAntisymmetric | src/amm/executor.rs:268-310 | Reversing a request on the pool's pair flips the direction and swaps the input and output decimals. |
| Quoting.DirectionNeedsBothMints | src/amm/executor.rs:268-274 | When the input is the coin mint but the output is not the pc mint, the direction is pc-to-coin. |
| Quoting.QuoteDecimalsArePoolDecimals | src/amm/executor.rs:301-310 | A quote's two decimals are the pool's coin and pc decimals in some order. |
| Keys.MarketKeysFromPubkeys | src/amm/executor.rs:574-593 | The six order-book keys are copied from the on-chain market keys. The market address and request queue are dropped. |
| Keys.MarketKeysFromApi | src/amm/executor.rs:594-607 | Base vault maps to coin vault, quote vault to pc vault, market authority to vault signer; event queue, bids and asks are copied. |
| Keys.MarketKeysTryFrom | src/amm/executor.rs:608-625 | Fails, with the missing-market error, exactly when the market sub-bundle is absent. Otherwise the keys are mapped as above. |
| Keys.AmmKeysTryFrom | src/amm/executor.rs:627-673 | Succeeds exactly when market, target orders and open orders are all present, and reports them missing in that order. On success `amm_pool = id`, coin = `mint_a`/`vault.a`, pc = `mint_b`/`vault.b`, market ids come from the market sub-bundle, and nonce = 0. |
| Keys.TryFromBundleOf | src/amm/executor.rs:608-673 | Converting the bundle that describes a pair of key sets with nonce 0 gives that pair back. |
| Keys.BundleOfTryFrom | src/amm/executor.rs:608-673 | A complete bundle is exactly the bundle of the key sets it converts to, so no field of the modelled bundle is lost. |
| Keys.KeySourcesAgree | src/amm/executor.rs:574-607 | The API and on-chain conversions give the same order-book keys whenever they name the same six accounts. |
| SwapBuild.SwapAddresses | src/amm/executor.rs:486-520 | The constructors take 17 addresses, and the argument at each role's position is that role's key: program; pool, authority, open orders, coin and pc vaults, market program and market from `AmmKeys`; bids, asks, event queue, coin and pc vaults and vault signer from `MarketKeys`; then user source, destination and owner. |
| SwapBuild.SwapRolesArePositions | src/amm/executor.rs:486-520 | The 17 roles and the 17 argument positions correspond one to one. |
| SwapBuild.SwapInstruction | src/amm/executor.rs:464-572 | Base-in is chosen exactly when `swap_base_in`, with the same 17 addresses either way. Base-in gets (amount specified, threshold) and base-out gets (threshold, amount specified). |
| SwapBuild.SwapArgumentsRoundTrip | src/amm/executor.rs:485-568 | Reading a built call back per variant recovers the caller's (amount, threshold, base-in). |
| SwapBuild.VariantsSwapAmountOrder | src/amm/executor.rs:485-568 | The two variants of one request differ only in the constructor and the order of the two amounts. |
| SwapBuild.WrapAmount | src/amm/executor.rs:382-386 | The amount to wrap is the specified amount for an exact-in quote and the quoted other amount otherwise. |
| SwapBuild.MakeSwap | src/amm/executor.rs:356-423 | The first step is always the token-account request, carrying the resolved wrap flag and the input-side amount, handed to a fresh builder. Its failure stops everything. Otherwise the swap instruction for the quote is set and compute units are settled from the resolved limits, with the builder holding the earlier steps; a failure there is passed through after three steps. The request names the payer as owner, the input and output mints in that order and the SPL token program for both. The swap step calls the AMM v4 program with the quote's keys, the payer as owner and the payer's associated token accounts for the input and output mints as source and destination, and reads back as (amount, threshold, exact-in). Then the priority fee is settled from the resolved policy and those compute units, and the run succeeds exactly when all three handlers do (the swap constructor being infallible, as listed under "Left out"). |
| SwapBuild.MakeSwapOrderAndFunding | src/amm/executor.rs:377-419 | Steps run in the order wrap, swap, compute units, priority fee. Exact-in wraps exactly the amount the base-in instruction spends. Exact-out wraps the quoted input while the instruction's cap is the threshold. |
| Base.TruncateToU8 | src/amm/executor.rs:301-310 | `as u8` keeps a value below 256 and otherwise keeps it modulo 256. |

## Left out

- Swap and reserve arithmetic (`swap_with_slippage` and `calc_total_without_take_pnl*`) is not modelled. It lives in raydium crates that are not part of this model, so it is the uninterpreted `PoolMath`. This also means the threshold-versus-amount bounds of the swap math are not stated.
- Loading the order-book state (`load_serum_market_order`) is also part of the uninterpreted `PoolMath`. The AMM authority it is given comes from `find_program_address` (lines 221-238), which is hashing, so it is omitted from the call.
- Binary decoding of account bytes (`transmute_one_pedantic`, `Account::unpack`) and `AmmStatus::from_u64(..).orderbook_permission()` are not modelled. They use foreign layouts, so they are the uninterpreted `Decoders`.
- API and RPC calls are I/O and are not modelled: `fetch_pool_by_mints`, `fetch_pool_keys_by_ids`, `load_amm_keys`, `get_keys_for_market` and `get_multiple_account_data` are the uninterpreted `Services`. Async execution, the shared client handles and the stringification of pool ids are omitted.
- The instruction builder's internals are not modelled. Its state is represented only by the steps already taken on it, which each handler receives. These are token-account creation and wrapping, compute-unit simulation, priority-fee instructions, and the final assembly in `build_instructions`/`build_transaction`. The builder is not part of this model, so only the order and arguments of `make_swap`'s calls to it are modelled, and `swap_instructions` and `swap_transaction` (lines 317-347) are left out.
- Associated-token-address derivation is hashing, so it is the uninterpreted `Builder.associatedTokenAddress`.
- SwapBuild.SwapInstruction: the constructors' own `?` error return (lines 525 and 567) is not modelled, and they are treated as infallible, because raydium's instruction packing is not part of this model.
- SwapBuild.MakeSwap: the `?` on `swap_instruction` (line 410) never fires in the model, since the constructors are treated as infallible (see the line above); success is stated in terms of the three builder handlers only.
- The `PriorityFeeConfig` and `ComputeUnitLimits` types are opaque because the crate's `types` module is not part of this model. The same holds for the fields of `SwapConfigOverrides` that `make_swap` does not read. `slippage_bps` is modelled as a `u64` and `amount_specified_is_input` as "the mode is exact-in".
- Debug logging (lines 287-291) is left out.
- The command-line example `examples/quote.rs` is left out. It does environment loading, logging, keypair generation and signing.

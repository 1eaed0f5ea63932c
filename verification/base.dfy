/** Shared vocabulary of the executor model: opaque account keys, fixed-width
    unsigned integers, Rust's `Option`, and the `anyhow::Result` the executor
    returns, with one error constructor per way the executor can fail. */
module Base {

  /** A ledger address. Only equality is observable to the executor. */
  type Pubkey(==, 0)

  const U64_BOUND: int := 0x1_0000_0000_0000_0000

  type U64 = x: int | 0 <= x < U64_BOUND
  type U8 = x: int | 0 <= x < 256

  /** Raw account bytes. */
  type Bytes = seq<U8>

  /** Rust's `x as u8` on a wider unsigned integer keeps the low eight bits. */
  function TruncateToU8(x: U64): (r: U8)
    ensures x < 256 ==> r == x
    ensures (x - r) % 256 == 0
  {
    x % 256
  }

  datatype Option<T> = None | Some(value: T) {

    /** Rust's `Option::or`: this value if present, else `other`. */
    function Or(other: Option<T>): (r: Option<T>)
      ensures Some? ==> r == this
      ensures None? ==> r == other
    {
      if Some? then this else other
    }

    /** Rust's `Option::unwrap_or`. */
    function UnwrapOr(default: T): (r: T)
      ensures Some? ==> r == value
      ensures None? ==> r == default
    {
      if Some? then value else default
    }
  }

  /** Where the executor would panic (an `unwrap` on `None`/`Err`, or an
      out-of-range `array_ref!`) instead of returning an error. */
  datatype PanicSite =
    | ShortSnapshot
    | TargetOrdersAbsent
    | PcVaultAbsent
    | PcVaultUnpack
    | CoinVaultAbsent
    | CoinVaultUnpack
    | OpenOrdersAbsent
    | MarketAbsent
    | EventQueueAbsent

  datatype Error =
    /** Input token equals output token. */
    | SameMint(mint: Pubkey)
    /** No candidate pool satisfied the filter. */
    | NoPoolForSwap
    /** The key-bundle lookup returned an empty list. */
    | PoolKeysNotFound(pool: Pubkey)
    | MissingMarketKeys
    | MissingTargetOrders
    | MissingOpenOrders
    /** The snapshot held no account at the pool's own address. */
    | AmmAccountMissing(pool: Pubkey)
    /** A failure reported by a collaborator (API, RPC, decoder, swap math,
        instruction builder), passed through unchanged. */
    | Upstream(reason: string)
    | Panic(site: PanicSite)

  /** `anyhow::Result`, usable with `:-` the way the executor uses `?`. */
  datatype Result<T> = Ok(value: T) | Err(error: Error) {

    predicate IsFailure() {
      Err?
    }

    function PropagateFailure<U>(): (r: Result<U>)
      requires Err?
      ensures r == Err(error)
    {
      Err(error)
    }

    function Extract(): T
      requires Ok?
    {
      value
    }
  }

  /** The fixed program addresses the executor names: the AMM v4 program
      (`RAYDIUM_LIQUIDITY_POOL_V4_PROGRAM_ID`) and the SPL token program. */
  datatype ProgramIds = ProgramIds(ammV4: Pubkey, splToken: Pubkey)

  /** An outcome together with the external calls made, in order, while
      producing it. */
  datatype Traced<T, C> = Traced(result: Result<T>, calls: seq<C>)
}

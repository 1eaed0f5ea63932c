/** Choosing a pool when the caller named none: the first candidate, in the
    order the pool-metadata API returned them, that passes the pair filter. */
module PoolSelect {
  import opened Base

  /** One entry of the API's page of standard pools. */
  datatype ApiPool = ApiPool(id: Pubkey, programId: Pubkey, mintA: Pubkey, mintB: Pubkey)

  /** The filter exactly as the executor writes it,
      `a == in && b == out || a == out && b == in && program == V4`:
      `&&` binds tighter than `||`, so the program id is checked only when the
      pool lists the pair in reverse order. */
  predicate PoolMatches(pool: ApiPool, input: Pubkey, output: Pubkey, ammV4: Pubkey) {
    || (pool.mintA == input && pool.mintB == output)
    || (pool.mintA == output && pool.mintB == input && pool.programId == ammV4)
  }

  /** A candidate passes exactly when its two mints are the requested pair
      in either order and, unless it lists the input mint first, the AMM v4
      program owns it. */
  lemma PoolMatchesIsUnorderedPair(pool: ApiPool, input: Pubkey, output: Pubkey, ammV4: Pubkey)
    ensures PoolMatches(pool, input, output, ammV4) <==>
      && multiset{pool.mintA, pool.mintB} == multiset{input, output}
      && (pool.mintA == input || pool.programId == ammV4)
  {
  }

  /** Index of the first candidate that passes the filter. */
  function FirstMatch(pools: seq<ApiPool>, input: Pubkey, output: Pubkey, ammV4: Pubkey): (r: Option<nat>)
    ensures r.Some? ==> r.value < |pools| && PoolMatches(pools[r.value], input, output, ammV4)
    ensures r.Some? ==> forall j :: 0 <= j < r.value ==> !PoolMatches(pools[j], input, output, ammV4)
    ensures r.None? ==> forall j :: 0 <= j < |pools| ==> !PoolMatches(pools[j], input, output, ammV4)
    decreases |pools|
  {
    if |pools| == 0 then None
    else if PoolMatches(pools[0], input, output, ammV4) then Some(0)
    else
      match FirstMatch(pools[1..], input, output, ammV4)
      case None => None
      case Some(i) => Some(i + 1)
  }

  /** The `find_map` over the API response: the id of the first matching
      pool, or nothing. */
  function SelectPool(pools: seq<ApiPool>, input: Pubkey, output: Pubkey, ammV4: Pubkey): (r: Option<Pubkey>)
    ensures r.None? <==> forall j :: 0 <= j < |pools| ==> !PoolMatches(pools[j], input, output, ammV4)
    ensures r.Some? ==> exists i :: 0 <= i < |pools| && pools[i].id == r.value
                                 && PoolMatches(pools[i], input, output, ammV4)
                                 && forall j :: 0 <= j < i ==> !PoolMatches(pools[j], input, output, ammV4)
  {
    match FirstMatch(pools, input, output, ammV4)
    case None => None
    case Some(i) => Some(pools[i].id)
  }

  /** Selection is decided by the earliest match: candidates after it are
      never looked at, and candidates before it only by failing the filter. */
  lemma {:induction false} SelectPoolAppend(pre: seq<ApiPool>, post: seq<ApiPool>, input: Pubkey, output: Pubkey, ammV4: Pubkey)
    ensures SelectPool(pre, input, output, ammV4).Some? ==>
      SelectPool(pre + post, input, output, ammV4) == SelectPool(pre, input, output, ammV4)
    ensures SelectPool(pre, input, output, ammV4).None? ==>
      SelectPool(pre + post, input, output, ammV4) == SelectPool(post, input, output, ammV4)
    decreases |pre|
  {
    if |pre| == 0 {
      assert pre + post == post;
    } else {
      assert (pre + post)[0] == pre[0];
      assert (pre + post)[1..] == pre[1..] + post;
      if !PoolMatches(pre[0], input, output, ammV4) {
        SelectPoolAppend(pre[1..], post, input, output, ammV4);
        SkipNonMatching(pre, input, output, ammV4);
        SkipNonMatching(pre + post, input, output, ammV4);
      }
    }
  }

  /** A leading candidate that fails the filter is skipped. */
  lemma SkipNonMatching(pools: seq<ApiPool>, input: Pubkey, output: Pubkey, ammV4: Pubkey)
    requires |pools| > 0 && !PoolMatches(pools[0], input, output, ammV4)
    ensures SelectPool(pools, input, output, ammV4) == SelectPool(pools[1..], input, output, ammV4)
  {
  }

  /** As written, a pool listing the pair in the requested order is taken
      whatever program owns it. */
  lemma ForwardPairIgnoresProgram(pool: ApiPool, rest: seq<ApiPool>, input: Pubkey, output: Pubkey, ammV4: Pubkey)
    requires pool.mintA == input && pool.mintB == output
    ensures SelectPool([pool] + rest, input, output, ammV4) == Some(pool.id)
  {
    assert ([pool] + rest)[0] == pool;
  }

  /** A pool listing the pair in reverse order is taken only if the AMM v4
      program owns it. */
  lemma ReversePairNeedsProgram(pool: ApiPool, rest: seq<ApiPool>, input: Pubkey, output: Pubkey, ammV4: Pubkey)
    requires input != output
    requires pool.mintA == output && pool.mintB == input
    ensures pool.programId == ammV4 ==> SelectPool([pool] + rest, input, output, ammV4) == Some(pool.id)
    ensures pool.programId != ammV4 ==>
      SelectPool([pool] + rest, input, output, ammV4) == SelectPool(rest, input, output, ammV4)
  {
    assert ([pool] + rest)[0] == pool;
    assert ([pool] + rest)[1..] == rest;
    if pool.programId != ammV4 {
      SkipNonMatching([pool] + rest, input, output, ammV4);
    }
  }
}

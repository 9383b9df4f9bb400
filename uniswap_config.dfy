/** Configuration of the Uniswap v3 USR/USDC deployment on Ethereum: the
    accrual constants, the pool table (token addresses, decimals and fee are
    read from chain at start-up and enter here as the `configs` list), the
    case-insensitive pool lookup and the constant price table. */
module UniswapConfig {
  import opened Common
  import Accrual

  /** Named "per hour" but one day in milliseconds, which is what the
      accrual divides by. */
  const MillisecondPerHour: int := 60 * 60 * 1000 * 24
  const DailyPoints: real := 15.0

  const PoolAddresses: seq<string> := ["0x8Bb9cD887Dd51c5aA8d7dA9e244c94beC035e47c"]
  const Usr: string := "0x66a1e37c9b0eaddca17d3662d6c05f4decf3e110"
  const Usdc: string := "0xa0b86991c6218b36c1d19d4a2e9eb0ce3606eb48"

  datatype PoolInfo = PoolInfo(address: string, token0: string, token0Decimals: int,
                               token1: string, token1Decimals: int, fee: int)

  /** The misnamed constant is exactly one day, the divisor every other
      deployment calls `MILLISECOND_PER_DAY`. */
  lemma MillisecondPerHourIsOneDay()
    ensures MillisecondPerHour == 86400000 == Accrual.MillisecondsPerDay
  {
  }

  predicate SameAddress(a: string, b: string) {
    ToLower(a) == ToLower(b)
  }

  /** `getPoolInfo`: the first configured pool whose address equals `address`
      ignoring case, or undefined. */
  function GetPoolInfo(configs: seq<PoolInfo>, address: string): (r: Option<PoolInfo>)
    ensures r.None? <==> forall i :: 0 <= i < |configs| ==> !SameAddress(configs[i].address, address)
    ensures r.Some? ==> r.value in configs && SameAddress(r.value.address, address)
    ensures r.Some? ==> exists i :: 0 <= i < |configs| && configs[i] == r.value
                                    && forall j :: 0 <= j < i ==> !SameAddress(configs[j].address, address)
  {
    if configs == [] then None
    else if SameAddress(configs[0].address, address) then Some(configs[0])
    else
      var r := GetPoolInfo(configs[1..], address);
      assert forall i :: 1 <= i < |configs| ==> configs[i] == configs[1..][i - 1];
      r
  }

  /** The lookup does not depend on the case of the query. */
  lemma GetPoolInfoCaseInsensitive(configs: seq<PoolInfo>, address: string)
    ensures GetPoolInfo(configs, address) == GetPoolInfo(configs, ToLower(address))
  {
    ToLowerIdempotent(address);
    assert forall c: PoolInfo :: SameAddress(c.address, address) == SameAddress(c.address, ToLower(address));
    FindFirstCongruent(configs, (c: PoolInfo) => SameAddress(c.address, address),
                       (c: PoolInfo) => SameAddress(c.address, ToLower(address)));
  }

  /** Every configured pool is found again by its own address. */
  lemma ConfiguredPoolResolves(configs: seq<PoolInfo>, c: PoolInfo)
    requires c in configs
    ensures GetPoolInfo(configs, c.address).Some?
    ensures SameAddress(GetPoolInfo(configs, c.address).value.address, c.address)
  {
    var i :| 0 <= i < |configs| && configs[i] == c;
    assert SameAddress(configs[i].address, c.address);
  }

  /** The addresses of the configured pools. */
  function Addresses(configs: seq<PoolInfo>): set<string> {
    set c | c in configs :: c.address
  }

  /** A configured pool's address always resolves to a configured pool. */
  lemma AddressResolves(configs: seq<PoolInfo>, address: string)
    requires address in Addresses(configs)
    ensures GetPoolInfo(configs, address).Some?
    ensures GetPoolInfo(configs, address).value in configs
  {
    var c :| c in configs && c.address == address;
    ConfiguredPoolResolves(configs, c);
  }

  /** `getTokenPrice`: USR is worth 1, USDC the external feed's price at the
      block time, any other token throws "unsupported token". */
  function GetTokenPrice(token: string, usdcPrice: real): (r: Result<real>)
    ensures ToLower(token) == Usr ==> r == Ok(1.0)
    ensures ToLower(token) == Usdc ==> r == Ok(usdcPrice)
    ensures r.Err? <==> ToLower(token) != Usr && ToLower(token) != Usdc
    ensures r.Err? ==> r.message == "unsupported token: " + token
  {
    if ToLower(token) == Usr then Ok(1.0)
    else if ToLower(token) == Usdc then Ok(usdcPrice)
    else Err("unsupported token: " + token)
  }

  /** The literals are lower case, so the price table ignores the case of its argument. */
  lemma GetTokenPriceCaseInsensitive(token: string, usdcPrice: real)
    ensures GetTokenPrice(token, usdcPrice).Ok? == GetTokenPrice(ToLower(token), usdcPrice).Ok?
    ensures GetTokenPrice(token, usdcPrice).Ok? ==> GetTokenPrice(token, usdcPrice) == GetTokenPrice(ToLower(token), usdcPrice)
  {
    ToLowerIdempotent(token);
  }
}

/** Configuration of the Curve StableSwap-NG deployment on Ethereum: accrual
    constants, the pool table with optional gauges, the pool-info table read
    from chain, exact (case-sensitive) lookups and the constant price table. */
module CurveConfig {
  import opened Common

  const DailyPoints: real := 15.0
  const MillisecondPerDay: int := 60 * 60 * 1000 * 24

  const Usr: string := "0x66a1e37c9b0eaddca17d3662d6c05f4decf3e110"
  const Rlp: string := "0x4956b52ae2ff65d74ca2d61207523288e4528f96"
  const Usdc: string := "0xa0b86991c6218b36c1d19d4a2e9eb0ce3606eb48"

  /** A pool, its optional gauge and the gauge's creation block. */
  datatype Config = Config(address: string, gauge: Option<string>, gaugeStartBlock: Option<int>)

  datatype PoolInfo = PoolInfo(address: string, token0: string, token1: string,
                               token0Decimals: nat, token1Decimals: nat)

  lemma Constants()
    ensures MillisecondPerDay == 86400000 && DailyPoints == 15.0
  {
  }

  /** The two configured pools (USR-USDC, USR-RLP), each with its gauge; the
      gauge start blocks come from the creation-block search at start-up. */
  function Configs(usrUsdcGaugeStart: nat, usrRlpGaugeStart: nat): seq<Config> {
    [ Config("0x3ee841f47947fefbe510366e4bbb49e145484195",
             Some("0xf589273a91622f1f48c0cd378881f0b3e6c40a95"), Some(usrUsdcGaugeStart)),
      Config("0xc907ba505c2e1cbc4658c395d4a2c7e6d2c32656",
             Some("0x52ed9f154f25dd0abc67edb15dce90fd92d8b22f"), Some(usrRlpGaugeStart)) ]
  }

  /** `getConfig`: the first config whose address is exactly `address`. */
  function GetConfig(configs: seq<Config>, address: string): (r: Option<Config>)
    ensures r.None? <==> forall i :: 0 <= i < |configs| ==> configs[i].address != address
    ensures r.Some? ==> r.value in configs && r.value.address == address
    ensures r.Some? ==> exists i :: 0 <= i < |configs| && configs[i] == r.value
                                    && forall j :: 0 <= j < i ==> configs[j].address != address
  {
    FindFirst(configs, (c: Config) => c.address == address)
  }

  /** `getPoolInfo`: the first pool info whose address is exactly `address`. */
  function GetPoolInfo(poolInfos: seq<PoolInfo>, address: string): (r: Option<PoolInfo>)
    ensures r.None? <==> forall i :: 0 <= i < |poolInfos| ==> poolInfos[i].address != address
    ensures r.Some? ==> r.value in poolInfos && r.value.address == address
    ensures r.Some? ==> exists i :: 0 <= i < |poolInfos| && poolInfos[i] == r.value
                                    && forall j :: 0 <= j < i ==> poolInfos[j].address != address
  {
    FindFirst(poolInfos, (p: PoolInfo) => p.address == address)
  }

  /** Unlike the Uniswap lookup, these compare case-sensitively: the
      configured addresses are lower case, so a checksummed spelling of a
      configured pool is not found. */
  lemma GetConfigCaseSensitive(usrUsdcGaugeStart: nat, usrRlpGaugeStart: nat)
    ensures GetConfig(Configs(usrUsdcGaugeStart, usrRlpGaugeStart), "0x3ee841f47947fefbe510366e4bbb49e145484195").Some?
    ensures GetConfig(Configs(usrUsdcGaugeStart, usrRlpGaugeStart), "0x3EE841F47947FEFBE510366E4BBB49E145484195").None?
  {
    var cs := Configs(usrUsdcGaugeStart, usrRlpGaugeStart);
    assert cs[0].address == "0x3ee841f47947fefbe510366e4bbb49e145484195";
    assert cs[0].address[3] != "0x3EE841F47947FEFBE510366E4BBB49E145484195"[3];
    assert cs[1].address[2] != "0x3EE841F47947FEFBE510366E4BBB49E145484195"[2];
  }

  /** The pool infos are built from the configs, one per config in order. */
  predicate Aligned(configs: seq<Config>, poolInfos: seq<PoolInfo>) {
    |configs| == |poolInfos| && forall i :: 0 <= i < |configs| ==> poolInfos[i].address == configs[i].address
  }

  /** Hence any address with a config also has a pool info, which is what the
      non-null assertion on the pool-info lookup relies on. */
  lemma ConfigImpliesPoolInfo(configs: seq<Config>, poolInfos: seq<PoolInfo>, address: string)
    requires Aligned(configs, poolInfos)
    requires GetConfig(configs, address).Some?
    ensures GetPoolInfo(poolInfos, address).Some?
  {
    var i :| 0 <= i < |configs| && configs[i] == GetConfig(configs, address).value;
    assert poolInfos[i].address == address;
  }

  /** `getTokenPrice`: USR and RLP are worth 1, USDC the external feed's
      price, anything else throws "unsupported token". */
  function GetTokenPrice(token: string, usdcPrice: real): (r: Result<real>)
    ensures ToLower(token) == Usr ==> r == Ok(1.0)
    ensures ToLower(token) == Rlp ==> r == Ok(1.0)
    ensures ToLower(token) == Usdc ==> r == Ok(usdcPrice)
    ensures r.Err? <==> ToLower(token) != Usr && ToLower(token) != Rlp && ToLower(token) != Usdc
    ensures r.Err? ==> r.message == "unsupported token: " + token
  {
    if ToLower(token) == Usr then Ok(1.0)
    else if ToLower(token) == Rlp then Ok(1.0)
    else if ToLower(token) == Usdc then Ok(usdcPrice)
    else Err("unsupported token: " + token)
  }
}

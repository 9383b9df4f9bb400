/** Configuration of the RLP holding deployment on Ethereum: accrual
    constants, the RLP token address and the constant price table. */
module HoldingRlpConfig {
  import opened Common

  const DailyPoints: real := 15.0
  const MillisecondPerDay: int := 60 * 60 * 1000 * 24

  const Usr: string := "0x66a1e37c9b0eaddca17d3662d6c05f4decf3e110"
  const Rlp: string := "0x4956b52ae2ff65d74ca2d61207523288e4528f96"
  const Usdc: string := "0xa0b86991c6218b36c1d19d4a2e9eb0ce3606eb48"

  lemma Constants()
    ensures MillisecondPerDay == 86400000 && DailyPoints == 15.0
  {
  }

  /** `getTokenPrice`: the argument is lower-cased against lower-case
      literals; USR and RLP are worth 1, USDC the external feed's price,
      anything else throws "unsupported token". */
  function GetTokenPrice(token: string, usdcPrice: real): (r: Result<real>)
    ensures ToLower(token) == Usr ==> r == Ok(1.0)
    ensures ToLower(token) == Rlp ==> r == Ok(1.0)
    ensures ToLower(token) == Usdc ==> r == Ok(usdcPrice)
    ensures r.Err? <==> ToLower(token) != Usr && ToLower(token) != Rlp && ToLower(token) != Usdc
    ensures r.Err? ==> r.message == "unsupported token: " + token
  {
    if ToLower(token) == Usr then Ok(1.0)
    else if ToLower(token) == Rlp then Ok(1.0)
    else if ToLower(token) == Usdc then Ok(usdcPrice)
    else Err("unsupported token: " + token)
  }

  /** The processor prices its own token, RLP, at 1, whatever the case of
      the address it is given. */
  lemma RlpPricedAtOne(token: string, usdcPrice: real)
    requires ToLower(token) == Rlp
    ensures GetTokenPrice(token, usdcPrice) == Ok(1.0)
  {
  }
}

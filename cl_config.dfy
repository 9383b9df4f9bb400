/** Configuration of the Aerodrome Slipstream (concentrated-liquidity)
    USR/RLP deployment on Base: accrual constants, the two token addresses
    (mixed case) and their constant prices. */
module ClConfig {
  import opened Common

  /** One day in milliseconds, under the name "per hour". */
  const MillisecondPerHour: int := 60 * 60 * 1000 * 24
  const DailyPoints: real := 30.0

  const PoolAddress: string := "0xf4D5f114d029657Bd55511b359d2A0Ad73620d17"
  const PoolStartBlock: nat := 24304142
  const Usr: string := "0x35E5dB674D8e93a03d814FA0ADa70731efe8a4b9"
  const Rlp: string := "0xC31389794Ffac23331E0D9F611b7953f90AA5fDC"

  lemma Constants()
    ensures MillisecondPerHour == 86400000 && DailyPoints == 30.0
  {
  }

  /** `getTokenPrice`: both sides are lower-cased; USR and RLP are worth 1,
      anything else throws "unsupported token". */
  function GetTokenPrice(token: string): (r: Result<real>)
    ensures SameToken(token, Usr) ==> r == Ok(1.0)
    ensures SameToken(token, Rlp) ==> r == Ok(1.0)
    ensures r.Err? <==> !SameToken(token, Usr) && !SameToken(token, Rlp)
    ensures r.Err? ==> r.message == "unsupported token: " + token
  {
    if SameToken(token, Usr) then Ok(1.0)
    else if SameToken(token, Rlp) then Ok(1.0)
    else Err("unsupported token: " + token)
  }

  predicate SameToken(a: string, b: string) {
    ToLower(a) == ToLower(b)
  }

  /** Lower-casing both sides makes the table case-insensitive: the
      checksummed, the lower-case and any other spelling get the same answer. */
  lemma GetTokenPriceCaseInsensitive(token: string)
    ensures GetTokenPrice(token).Ok? == GetTokenPrice(ToLower(token)).Ok?
    ensures GetTokenPrice(token).Ok? ==> GetTokenPrice(token) == GetTokenPrice(ToLower(token))
  {
    SameTokenOfLower(token, Usr);
    SameTokenOfLower(token, Rlp);
  }

  lemma SameTokenOfLower(token: string, c: string)
    ensures SameToken(ToLower(token), c) == SameToken(token, c)
  {
    ToLowerIdempotent(token);
  }

  /** The configured tokens themselves are priced at 1. */
  lemma ConfiguredTokensPriced()
    ensures GetTokenPrice(Usr) == Ok(1.0) && GetTokenPrice(Rlp) == Ok(1.0)
  {
  }
}

/**
 * The trading venue's client library, reduced to the values the scripts pass
 * to it.  A client is the tuple it is constructed with; its network calls are
 * not modelled here, and callers receive their replies as parameters.
 */
module Clob {
  import opened Wrappers
  import opened JsNumber
  import opened Ethers

  /** The venue's production endpoint (the fixed host of generate_credentials.ts and the default of allowance.ts). */
  const PRODUCTION_HOST := "https://clob.polymarket.com"

  /** Polygon mainnet, the chain id the scripts use when given none. */
  const POLYGON_CHAIN_ID := Finite(137.0)

  /** The credential triple `createOrDeriveApiKey` resolves to. */
  datatype ApiKeyCreds = ApiKeyCreds(key: string, secret: string, passphrase: string)

  /** `new ClobClient(host, chainId, wallet, creds?)`. */
  datatype ClobClient = ClobClient(host: string, chainId: Num, signer: Wallet, creds: Option<ApiKeyCreds>)
}

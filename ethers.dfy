/**
 * The part of the wallet library the scripts use.  Address derivation and
 * message signing (secp256k1 and keccak-256 inside the library) are not
 * modelled: they are an uninterpreted, deterministic `Crypto` value that
 * every operation needing them takes as a parameter.
 */
module Ethers {
  import opened Wrappers

  /**
   * The library's primitives: the address of a private key (None when the
   * key material is malformed and the Wallet constructor throws), and the
   * signature of a message under a key.
   */
  datatype Crypto = Crypto(addressOf: string -> Option<string>, sign: (string, string) -> string)

  /** A wallet object: the key it was built from and the address derived from it. */
  datatype Wallet = Wallet(privateKey: string, address: string)

  /** `new Wallet(key)`: fails exactly when the library rejects the key. */
  function NewWallet(crypto: Crypto, key: string): (r: Option<Wallet>)
    ensures r.Some? <==> crypto.addressOf(key).Some?
    ensures r.Some? ==> r.value.privateKey == key && crypto.addressOf(key) == Some(r.value.address)
  {
    match crypto.addressOf(key)
    case None => None
    case Some(address) => Some(Wallet(key, address))
  }

  /** `wallet.signMessage(message)`. */
  function SignMessage(crypto: Crypto, wallet: Wallet, message: string): string {
    crypto.sign(wallet.privateKey, message)
  }
}

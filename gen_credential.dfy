/**
 * The credential generator of src/_gen_credential.ts: a wallet built once from
 * a private key, a chain id, and the signature of the venue's login message.
 */
module GenCredential {
  import opened Wrappers
  import opened JsNumber
  import opened Config
  import opened Ethers
  import opened Clob

  /** Everything of the login message in front of the nonce. */
  const AUTH_MESSAGE_PREFIX := "Sign this message to authenticate with Polymarket CLOB API.\n\nNonce: "

  /** The exact text signed to log in: the fixed prefix, then the nonce. */
  function AuthMessage(nonce: string): (m: string)
    ensures |m| == |AUTH_MESSAGE_PREFIX| + |nonce|
    ensures m[..|AUTH_MESSAGE_PREFIX|] == AUTH_MESSAGE_PREFIX
    ensures m[|AUTH_MESSAGE_PREFIX|..] == nonce
  {
    AUTH_MESSAGE_PREFIX + nonce
  }

  /** The message determines the nonce: distinct nonces are signed as distinct messages. */
  lemma AuthMessageInjective(a: string, b: string)
    ensures AuthMessage(a) == AuthMessage(b) <==> a == b
  {
    if AuthMessage(a) == AuthMessage(b) {
      assert a == AuthMessage(a)[|AUTH_MESSAGE_PREFIX|..];
    }
  }

  /** The nonce is the message's suffix, and what comes before it does not depend on the nonce. */
  lemma AuthMessageEndsWithNonce(a: string, b: string)
    ensures AuthMessage(a)[|AuthMessage(a)| - |a|..] == a
    ensures AuthMessage(a)[..|AUTH_MESSAGE_PREFIX|] == AuthMessage(b)[..|AUTH_MESSAGE_PREFIX|]
  {
  }

  class CredentialGenerator {
    // Both fields are set by construction only: no member reassigns them.
    const wallet: Wallet
    const chainId: Num

    constructor (wallet: Wallet, chainId: Num)
      ensures this.wallet == wallet && this.chainId == chainId
    {
      this.wallet := wallet;
      this.chainId := chainId;
    }

    /**
     * `new CredentialGenerator(privateKey?, chainId = 137)`: the key comes from
     * the argument or PRIVATE_KEY; a missing key throws before any wallet is
     * built, a key the library refuses throws from the wallet constructor; the
     * chain id is 137 only when the argument is omitted.
     */
    static method New(privateKey: Option<string>, chainId: Option<Num>, env: Env, crypto: Crypto)
      returns (r: Result<CredentialGenerator, KeyError>)
      ensures ResolvePrivateKey(privateKey, env).Failure? ==> r == Failure(MissingKey)
      ensures ResolvePrivateKey(privateKey, env).Success? ==>
        var key := ResolvePrivateKey(privateKey, env).value;
        && (NewWallet(crypto, key).None? ==> r == Failure(InvalidKey))
        && (NewWallet(crypto, key).Some? ==>
              && r.Success? && fresh(r.value)
              && r.value.wallet == NewWallet(crypto, key).value
              && crypto.addressOf(key) == Some(r.value.GetAddress())
              && r.value.chainId == (if chainId.Some? then chainId.value else POLYGON_CHAIN_ID))
    {
      var key := ResolvePrivateKey(privateKey, env);
      if key.Failure? {
        return Failure(MissingKey);
      }
      var wallet := NewWallet(crypto, key.value);
      if wallet.None? {
        return Failure(InvalidKey);
      }
      var generator := new CredentialGenerator(wallet.value, chainId.GetOr(POLYGON_CHAIN_ID));
      return Success(generator);
    }

    /** `getAddress()`: the address of the wallet, the same on every call. */
    function GetAddress(): (address: string)
      ensures address == wallet.address
    {
      wallet.address
    }

    /** `signForClob(nonce)`: the wallet's signature of the login message for the nonce, and of nothing else. */
    function SignForClob(crypto: Crypto, nonce: string): (signature: string)
      ensures signature == crypto.sign(wallet.privateKey, AuthMessage(nonce))
    {
      SignMessage(crypto, wallet, AuthMessage(nonce))
    }

    /** `getWallet()`: the wallet object itself. */
    function GetWallet(): (w: Wallet)
      ensures w == wallet && w.address == GetAddress()
    {
      wallet
    }
  }
}

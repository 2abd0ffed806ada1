/**
 * The allowance manager of src/allowance.ts: its configuration fallbacks and
 * the read-only guard comparing the allowance it reads with a minimum.  No
 * blockchain call is made: the allowance query answers with a fixed notice.
 */
module Allowance {
  import opened Wrappers
  import opened JsNumber
  import opened Config
  import opened Ethers
  import opened Clob

  const CLOB_API_URL_VAR := "CLOB_API_URL"
  const POLYGON_CHAIN_ID_VAR := "POLYGON_CHAIN_ID"
  /** The text parsed when POLYGON_CHAIN_ID is unset or empty. */
  const DEFAULT_CHAIN_TEXT := "137"
  const CHECK_ALLOWANCE_NOTICE := "Allowance check requires RPC setup"
  const SET_ALLOWANCE_NOTICE := "Allowance set requires RPC setup"
  /** The minimum `ensureAllowance` uses when called without one. */
  const DEFAULT_MIN_AMOUNT := Finite(1000.0)

  /** `host || process.env.CLOB_API_URL || 'https://clob.polymarket.com'`. */
  function ResolveHost(host: Option<string>, env: Env): (r: string)
    ensures r != ""
    ensures NonEmpty(host) ==> r == host.value
    ensures !NonEmpty(host) && NonEmpty(EnvGet(env, CLOB_API_URL_VAR)) ==> r == env[CLOB_API_URL_VAR]
    ensures !NonEmpty(host) && !NonEmpty(EnvGet(env, CLOB_API_URL_VAR)) ==> r == PRODUCTION_HOST
  {
    Or(Or(host, EnvGet(env, CLOB_API_URL_VAR)), Some(PRODUCTION_HOST)).value
  }

  /** `chainId || parseInt(process.env.POLYGON_CHAIN_ID || '137')`. */
  function ResolveChain(chainId: Option<Num>, env: Env): (r: Num)
    ensures chainId.Some? && Truthy(chainId.value) ==> r == chainId.value
    ensures !(chainId.Some? && Truthy(chainId.value)) ==>
      r == ParseInt(if NonEmpty(EnvGet(env, POLYGON_CHAIN_ID_VAR)) then env[POLYGON_CHAIN_ID_VAR] else DEFAULT_CHAIN_TEXT)
  {
    if chainId.Some? && Truthy(chainId.value) then chainId.value
    else ParseInt(Or(EnvGet(env, POLYGON_CHAIN_ID_VAR), Some(DEFAULT_CHAIN_TEXT)).value)
  }

  /** Without an argument and without POLYGON_CHAIN_ID the chain is 137; a zero argument counts as none. */
  lemma DefaultChainIsPolygon(chainId: Option<Num>, env: Env)
    requires chainId == None || chainId == Some(Finite(0.0)) || chainId == Some(NaN)
    requires !NonEmpty(EnvGet(env, POLYGON_CHAIN_ID_VAR))
    ensures ResolveChain(chainId, env) == POLYGON_CHAIN_ID
  {
    RenderChainId();
    RenderRoundTrip(137);
  }

  /** `parseFloat(text) || 0`: the allowance a text stands for; never NaN, and 0 when the text is not numeric. */
  function AllowanceOf(text: string): (a: Num)
    ensures !a.NaN?
    ensures !HasDecimalPrefix(text) ==> a == Finite(0.0)
    ensures HasDecimalPrefix(text) ==> a == ParseFloat(text)
  {
    OrZero(ParseFloat(text))
  }

  /** Whether an allowance reported as `text` covers `required`: `allowance >= required`. */
  predicate SufficientFor(text: string, required: Num): (b: bool)
    ensures required.NaN? ==> !b
    ensures !HasDecimalPrefix(text) ==> (b <==> GreaterOrEqual(Finite(0.0), required))
    ensures HasDecimalPrefix(text) ==> (b <==> GreaterOrEqual(ParseFloat(text), required))
  {
    GreaterOrEqual(AllowanceOf(text), required)
  }

  /** Text without a numeric prefix fails closed: it covers exactly the minimums that 0 covers. */
  lemma NonNumericFailsClosed(text: string, required: real)
    requires !HasDecimalPrefix(text)
    ensures SufficientFor(text, Finite(required)) <==> required <= 0.0
  {
  }

  /** A decimal allowance n covers a finite minimum m exactly when n >= m. */
  lemma RenderedAllowance(n: nat, required: real)
    ensures SufficientFor(Render(n), Finite(required)) <==> n as real >= required
  {
    RenderRoundTrip(n);
    RenderIsPlain(n);
  }

  /** The comparison is inclusive: for a minimum of 1000, 500 falls short while 1000 and 1500 suffice. */
  lemma BoundaryIsInclusive()
    ensures !SufficientFor("500", Finite(1000.0))
    ensures SufficientFor("1000", Finite(1000.0))
    ensures SufficientFor("1500", Finite(1000.0))
  {
    RenderAmounts();
    RenderedAllowance(500, 1000.0);
    RenderedAllowance(1000, 1000.0);
    RenderedAllowance(1500, 1000.0);
  }

  /** What `ensureAllowance` reports; it prints the advisory and changes nothing. */
  datatype Advisory =
    | Insufficient(minAmount: Num)   // "Allowance insufficient. Set to <minAmount> USDC via Polymarket UI."
    | Sufficient                     // "Allowance sufficient"

  class AllowanceManager {
    // Both fields are set by construction only: no member reassigns them.
    const wallet: Wallet
    const client: ClobClient

    constructor (wallet: Wallet, client: ClobClient)
      ensures this.wallet == wallet && this.client == client
    {
      this.wallet := wallet;
      this.client := client;
    }

    /**
     * `new AllowanceManager(privateKey?, host?, chainId?)`: a missing key throws
     * before the wallet, the host or the chain is looked at; a key the library
     * refuses throws from the wallet constructor; otherwise the client is
     * built over the resolved host and chain and the wallet.
     */
    static method New(privateKey: Option<string>, host: Option<string>, chainId: Option<Num>, env: Env, crypto: Crypto)
      returns (r: Result<AllowanceManager, KeyError>)
      ensures ResolvePrivateKey(privateKey, env).Failure? ==> r == Failure(MissingKey)
      ensures ResolvePrivateKey(privateKey, env).Success? ==>
        var key := ResolvePrivateKey(privateKey, env).value;
        && (NewWallet(crypto, key).None? ==> r == Failure(InvalidKey))
        && (NewWallet(crypto, key).Some? ==>
              var wallet := NewWallet(crypto, key).value;
              && r.Success? && fresh(r.value)
              && r.value.wallet == wallet
              && r.value.client == ClobClient(ResolveHost(host, env), ResolveChain(chainId, env), wallet, None))
    {
      var key := ResolvePrivateKey(privateKey, env);
      if key.Failure? {
        return Failure(MissingKey);
      }
      var wallet := NewWallet(crypto, key.value);
      if wallet.None? {
        return Failure(InvalidKey);
      }
      var apiHost := ResolveHost(host, env);
      var chain := ResolveChain(chainId, env);
      var manager := new AllowanceManager(wallet.value, ClobClient(apiHost, chain, wallet.value, None));
      return Success(manager);
    }

    /** `checkAllowance()`: a fixed notice that carries no number. */
    function CheckAllowance(): (text: string)
      ensures text == CHECK_ALLOWANCE_NOTICE
      ensures ParseFloat(text).NaN? && AllowanceOf(text) == Finite(0.0)
    {
      CapitalStartIsNaN(CHECK_ALLOWANCE_NOTICE);
      CHECK_ALLOWANCE_NOTICE
    }

    /** `setAllowance(amount)`: a fixed notice whatever the amount; nothing is submitted. */
    function SetAllowance(amount: string): (text: string)
      ensures text == SET_ALLOWANCE_NOTICE
      ensures ParseFloat(text).NaN?
    {
      CapitalStartIsNaN(SET_ALLOWANCE_NOTICE);
      SET_ALLOWANCE_NOTICE
    }

    /**
     * `isAllowanceSufficient(required)`: the allowance read by `checkAllowance`
     * against the minimum.  As that reading is never numeric, the answer is
     * yes exactly when 0 >= required.
     */
    function IsAllowanceSufficient(required: Num): (b: bool)
      ensures b <==> GreaterOrEqual(Finite(0.0), required)
      ensures required.Finite? ==> (b <==> required.value <= 0.0)
    {
      SufficientFor(CheckAllowance(), required)
    }

    /** `ensureAllowance(minAmount = 1000)`: advises on the allowance, and never changes it. */
    function EnsureAllowance(minAmount: Option<Num>): (a: Advisory)
      ensures var min := if minAmount.Some? then minAmount.value else DEFAULT_MIN_AMOUNT;
        a == if IsAllowanceSufficient(min) then Sufficient else Insufficient(min)
      ensures minAmount.None? ==> a == Insufficient(DEFAULT_MIN_AMOUNT)
    {
      var min := minAmount.GetOr(DEFAULT_MIN_AMOUNT);
      if IsAllowanceSufficient(min) then Sufficient else Insufficient(min)
    }
  }
}

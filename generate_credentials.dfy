/**
 * The credential script of src/generate_credentials.ts: check the key, build
 * the wallet and a client, derive the API credentials, save them to
 * `.credentials.json`, then test them by asking the server for its time.
 * The credentials file is one record slot; the remote replies are parameters.
 */
module GenerateCredentials {
  import opened Wrappers
  import opened JsNumber
  import opened Config
  import opened Ethers
  import opened Clob

  /** The value `.env` ships with, which the script treats as no key. */
  const PLACEHOLDER_KEY := "your_private_key_here"

  // ---------------------------------------------------------------------
  // Step 1: the private key

  /**
   * PRIVATE_KEY from the environment, or None when it is unset, empty or
   * still the placeholder (the script then stops before building anything).
   */
  function CheckPrivateKey(env: Env): (r: Option<string>)
    ensures r.None? <==> PRIVATE_KEY_VAR !in env || env[PRIVATE_KEY_VAR] == "" || env[PRIVATE_KEY_VAR] == PLACEHOLDER_KEY
    ensures r.Some? ==> PRIVATE_KEY_VAR in env && r.value == env[PRIVATE_KEY_VAR]
  {
    var privateKey := EnvGet(env, PRIVATE_KEY_VAR);
    if !NonEmpty(privateKey) || privateKey.value == PLACEHOLDER_KEY then None else privateKey
  }

  // ---------------------------------------------------------------------
  // Step 5: the saved record

  /** The JSON object written to `.credentials.json`, with exactly these five fields. */
  datatype CredsData = CredsData(address: string, apiKey: string, secret: string, passphrase: string, generatedAt: string)

  /** The credential triple a record holds. */
  function CredsOf(d: CredsData): ApiKeyCreds {
    ApiKeyCreds(d.apiKey, d.secret, d.passphrase)
  }

  /** `credsData`: the wallet's address and the derived triple, copied verbatim, with the generation time. */
  function CredsDataOf(wallet: Wallet, creds: ApiKeyCreds, generatedAt: string): (d: CredsData)
    ensures d.address == wallet.address
    ensures CredsOf(d) == creds
    ensures d.generatedAt == generatedAt
  {
    CredsData(wallet.address, creds.key, creds.secret, creds.passphrase, generatedAt)
  }

  /** Two records built by the script agree exactly when their inputs do. */
  lemma CredsDataOfInjective(w1: Wallet, c1: ApiKeyCreds, t1: string, w2: Wallet, c2: ApiKeyCreds, t2: string)
    ensures CredsDataOf(w1, c1, t1) == CredsDataOf(w2, c2, t2) <==> w1.address == w2.address && c1 == c2 && t1 == t2
  {
    if CredsDataOf(w1, c1, t1) == CredsDataOf(w2, c2, t2) {
      assert CredsOf(CredsDataOf(w1, c1, t1)) == CredsOf(CredsDataOf(w2, c2, t2));
    }
  }

  // ---------------------------------------------------------------------
  // Step 6: the server time

  /** The largest magnitude of a valid time value in milliseconds (TimeClip, section 21.4.1.31 of ECMA-262). */
  const MAX_TIME_MS := 8_640_000_000_000_000

  /** The RangeError message `toISOString` throws on an invalid date. */
  const INVALID_TIME_VALUE := "Invalid time value"

  /** `serverTime * 1000`: the server's seconds as the milliseconds a Date is built from. */
  function ToMillis(seconds: int): (ms: int)
    ensures ms % 1000 == 0 && ms / 1000 == seconds
  {
    seconds * 1000
  }

  /** The conversion is strictly monotone, so distinct server times give distinct dates. */
  lemma ToMillisStrictlyMonotone(a: int, b: int)
    ensures a < b <==> ToMillis(a) < ToMillis(b)
    ensures ToMillis(a) == ToMillis(b) ==> a == b
  {
  }

  /** 1700000000 seconds is 1700000000000 ms (2023-11-14T22:13:20Z), not 1700000000 or 1700000000000000. */
  lemma ToMillisExample()
    ensures ToMillis(1_700_000_000) == 1_700_000_000_000
  {
  }

  /** Whether `new Date(ms)` is a valid date, so that `toISOString` does not throw. */
  predicate IsValidTime(ms: int): (b: bool)
    ensures b <==> (if ms < 0 then -ms else ms) <= MAX_TIME_MS
  {
    -MAX_TIME_MS <= ms <= MAX_TIME_MS
  }

  /** A server time in seconds gives a valid date exactly when it lies within 8.64e12 seconds of the epoch. */
  lemma ValidServerSeconds(seconds: int)
    ensures IsValidTime(ToMillis(seconds)) <==> -8_640_000_000_000 <= seconds <= 8_640_000_000_000
  {
  }

  /** How a run of the script ends. */
  datatype RunOutcome =
    | NoPrivateKey                               // reported, then process.exit(1)
    | InvalidPrivateKey                          // the Wallet constructor throws; the runner's catch exits with 1
    | DerivationFailed(message: string)          // createOrDeriveApiKey threw; caught, process.exit(1)
    | VerificationFailed(message: string)        // getServerTime or the date threw; same catch, process.exit(1)
    | Authenticated(address: string, creds: ApiKeyCreds, serverMillis: int)

  /** What the test with the authenticated client ends in, given getServerTime's reply. */
  function VerificationOutcome(wallet: Wallet, creds: ApiKeyCreds, timeReply: Result<int, string>): (r: RunOutcome)
    ensures r.Authenticated? || r.VerificationFailed?
    ensures r.Authenticated? <==> timeReply.Success? && IsValidTime(ToMillis(timeReply.value))
    ensures r.Authenticated? ==> r == Authenticated(wallet.address, creds, ToMillis(timeReply.value))
    ensures timeReply.Failure? ==> r == VerificationFailed(timeReply.error)
  {
    match timeReply
    case Failure(e) => VerificationFailed(e)
    case Success(seconds) =>
      var ms := ToMillis(seconds);
      if IsValidTime(ms) then Authenticated(wallet.address, creds, ms) else VerificationFailed(INVALID_TIME_VALUE)
  }

  /** The effects of a run, in the order they happen. */
  datatype Event =
    | DeriveRequested(client: ClobClient)        // createOrDeriveApiKey on this client
    | RecordWritten(data: CredsData)             // writeFileSync of this record
    | ServerTimeRequested(client: ClobClient)    // getServerTime on this client

  /** The unauthenticated client the script derives with. */
  function DerivingClient(wallet: Wallet): (c: ClobClient)
    ensures c.host == PRODUCTION_HOST && c.chainId == POLYGON_CHAIN_ID
    ensures c.signer == wallet && c.creds.None?
  {
    ClobClient(PRODUCTION_HOST, POLYGON_CHAIN_ID, wallet, None)
  }

  // ---------------------------------------------------------------------
  // checkExistingCredentials

  const REDACTED_KEY_LENGTH := 20
  const ELLIPSIS := "..."

  function Min(a: int, b: int): int {
    if a <= b then a else b
  }

  /** `apiKey.substring(0, 20) + "..."`: at most the first 20 characters of the key, then an ellipsis. */
  function Redact(apiKey: string): (r: string)
    ensures |r| == Min(REDACTED_KEY_LENGTH, |apiKey|) + |ELLIPSIS| <= 23
    ensures r[..|r| - |ELLIPSIS|] <= apiKey && r[|r| - |ELLIPSIS|..] == ELLIPSIS
    ensures |apiKey| <= REDACTED_KEY_LENGTH ==> r == apiKey + ELLIPSIS
  {
    apiKey[..Min(REDACTED_KEY_LENGTH, |apiKey|)] + ELLIPSIS
  }

  /** A key longer than 20 characters is never shown whole. */
  lemma RedactHidesLongKeys(apiKey: string)
    requires |apiKey| > REDACTED_KEY_LENGTH
    ensures Redact(apiKey)[..|Redact(apiKey)| - |ELLIPSIS|] == apiKey[..REDACTED_KEY_LENGTH]
    ensures Redact(apiKey)[..|Redact(apiKey)| - |ELLIPSIS|] != apiKey
  {
  }

  /** What `checkExistingCredentials` prints of a saved record. */
  datatype Summary = Summary(address: string, redactedApiKey: string, generatedAt: string)

  /** `.credentials.json`: absent, or the record the last successful derivation wrote. */
  class CredentialsFile {
    var record: Option<CredsData>

    constructor (initial: Option<CredsData>)
      ensures record == initial
    {
      record := initial;
    }

    /** `checkExistingCredentials()`: whether the file exists, and the summary printed of it; reads only. */
    method CheckExistingCredentials() returns (found: bool, summary: Option<Summary>)
      ensures found <==> record.Some?
      ensures summary.Some? <==> found
      ensures found ==> summary == Some(Summary(record.value.address, Redact(record.value.apiKey), record.value.generatedAt))
    {
      match record
      case None =>
        found, summary := false, None;
      case Some(creds) =>
        found, summary := true, Some(Summary(creds.address, Redact(creds.apiKey), creds.generatedAt));
    }

    /**
     * `generateCredentials()`: the key is checked before anything is built; the
     * record is written only after the derivation succeeded, overwriting
     * whatever the file held; the test client is the deriving client plus the
     * derived credentials, and the server's seconds are converted once.
     */
    method GenerateCredentials(env: Env, crypto: Crypto, deriveReply: Result<ApiKeyCreds, string>,
                               timeReply: Result<int, string>, generatedAt: string)
      returns (outcome: RunOutcome, events: seq<Event>)
      modifies this
      ensures CheckPrivateKey(env).None? ==> outcome == NoPrivateKey && events == [] && record == old(record)
      ensures CheckPrivateKey(env).Some? && NewWallet(crypto, CheckPrivateKey(env).value).None? ==>
        outcome == InvalidPrivateKey && events == [] && record == old(record)
      ensures CheckPrivateKey(env).Some? && NewWallet(crypto, CheckPrivateKey(env).value).Some? ==>
        var wallet := NewWallet(crypto, CheckPrivateKey(env).value).value;
        match deriveReply
        case Failure(e) =>
          && outcome == DerivationFailed(e)
          && events == [DeriveRequested(DerivingClient(wallet))]
          && record == old(record)
        case Success(creds) =>
          var data := CredsDataOf(wallet, creds, generatedAt);
          && record == Some(data)
          && events == [DeriveRequested(DerivingClient(wallet)), RecordWritten(data),
                        ServerTimeRequested(DerivingClient(wallet).(creds := Some(creds)))]
          && outcome == VerificationOutcome(wallet, creds, timeReply)
      ensures record != old(record) ==> deriveReply.Success? && RecordWritten(record.value) in events
      ensures outcome.Authenticated? ==> record.Some? && CredsOf(record.value) == outcome.creds
    {
      events := [];
      var privateKey := CheckPrivateKey(env);
      if privateKey.None? {
        outcome := NoPrivateKey;
        return;
      }
      var maybeWallet := NewWallet(crypto, privateKey.value);
      if maybeWallet.None? {
        outcome := InvalidPrivateKey;
        return;
      }
      var wallet := maybeWallet.value;
      var client := DerivingClient(wallet);
      events := events + [DeriveRequested(client)];
      if deriveReply.Failure? {
        outcome := DerivationFailed(deriveReply.error);
        return;
      }
      var creds := deriveReply.value;
      var credsData := CredsDataOf(wallet, creds, generatedAt);
      record := Some(credsData);
      events := events + [RecordWritten(credsData)];
      var authClient := client.(creds := Some(creds));
      events := events + [ServerTimeRequested(authClient)];
      outcome := VerificationOutcome(wallet, creds, timeReply);
    }
  }
}

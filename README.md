# Polymarket CLOB credential and allowance scripts, modelled in Dafny

The repository holds three small TypeScript scripts that prepare a wallet for trading on the Polymarket central limit order book (CLOB):

- `src/_gen_credential.ts`: a `CredentialGenerator`. It builds a wallet from a private key, keeps a chain id and signs the CLOB login message.
- `src/allowance.ts`: an `AllowanceManager`. It takes its key from the argument, then PRIVATE_KEY, and fails without one; its host and chain id come from the arguments, then the environment, then fixed defaults. Its guard compares the USDC allowance it reads with a minimum and only gives advice.
- `src/generate_credentials.ts`: a script that checks the key, derives the API credential triple from the venue, saves it to `.credentials.json`, and tests it by asking the server for its time. A second function prints a redacted summary of a saved file.

This project models the local decision logic of those scripts and proves what it promises. The libraries the scripts call are stand-ins:

- The wallet library (address derivation, message signing) is an uninterpreted `Crypto` value (`ethers.dfy`).
- A CLOB client is the tuple it is constructed with (`clob.dfy`). Its network replies are parameters of the operations that use them.
- `process.env` is a `map<string, string>` (`config.dfy`).
- `.credentials.json` is one optional record held by the class `GenerateCredentials.CredentialsFile`.
- Thrown exceptions and `process.exit(1)` become result values.

JavaScript's `parseFloat`, `parseInt`, `x || d` and `>=` follow ECMA-262 and are modelled over exact reals (`js_number.dfy`). A JavaScript number is a real number, one of the two infinities, or NaN. IEEE-754 rounding is not modelled (see "Left out").

Files: `wrappers.dfy` (Option, Result), `js_number.dfy`, `config.dfy`, `ethers.dfy`, `clob.dfy`, `gen_credential.dfy`, `allowance.dfy`, `generate_credentials.dfy`.

Three points where the code behaves differently from what one might expect of such a tool; the model follows the code:

- Credentials are kept in one file, not in a store keyed by owner address. Every successful run overwrites it, whatever address it held before (`src/generate_credentials.ts:71-80`).
- The script prints the key, the secret and the passphrase in full (`src/generate_credentials.ts:65-67`, `104-106`); only `checkExistingCredentials` redacts. The model leaves console output out.
- A failed verification and a failed derivation end in the same `catch` with the same message (`src/generate_credentials.ts:129-135`). The model still tells them apart: the file is written before verification, so after a verification failure the new record stays on disk, while after a derivation failure the file is untouched.

## Model

| member | source | states |
|---|---|---|
| Config.ResolvePrivateKey | src/allowance.ts:16-17 | the key is the argument when it is non-empty, otherwise PRIVATE_KEY when that is non-empty; otherwise the result is a MissingKey failure ('PRIVATE_KEY missing'); a resolved key is never empty (same code as src/_gen_credential.ts:15-16) |
| JsNumber.ParseFloat | src/allowance.ts:45 | `parseFloat` is NaN exactly when, after white space and an optional sign, the text starts with neither "Infinity", nor a digit, nor a point followed by a digit; an infinity comes only from "Infinity" |
| JsNumber.DecimalOfTrimmed | src/allowance.ts:45 | on a text without leading white space, `parseFloat` is NaN exactly when, after an optional sign, it starts with neither "Infinity", nor a digit, nor a point and a digit; an infinity comes only from "Infinity" |
| JsNumber.IntegerOfTrimmed | src/allowance.ts:21 | on a text without leading white space, `parseInt` is NaN exactly when no radix digit follows the sign and prefix; it is never infinite and always integral |
| JsNumber.ParseInt | src/allowance.ts:21 | `parseInt` (radix 16 after "0x", else 10) is NaN exactly when no digit of the radix follows the white space, sign and prefix; it is never infinite and always integral |
| JsNumber.Truthy | src/allowance.ts:21 | ToBoolean on a number: NaN is falsy, both infinities are truthy, and a finite number is truthy exactly when it is not 0 |
| Config.NonEmpty | src/allowance.ts:16-17 | ToBoolean on an optional string: undefined is falsy, and a string is truthy exactly when it has at least one character (also the test of src/generate_credentials.ts:27) |
| Config.Or | src/allowance.ts:20 | the JavaScript or-else on optional strings gives `a` when it is non-empty and `b` otherwise, so the result is non-empty exactly when either operand is |
| JsNumber.GreaterOrEqual | src/allowance.ts:46 | `a >= b` is false when either side is NaN, is the order of the reals on finite numbers, always holds for a left +Infinity, and holds against a right +Infinity or for a left -Infinity only when the other side is that same infinity |
| JsNumber.OrZero | src/allowance.ts:45 | the fallback to 0 is never NaN; it keeps a truthy number and maps NaN and 0 to 0 |
| JsNumber.GreaterOrEqualTotal | src/allowance.ts:46 | `>=` is false in both directions when either side is NaN, and total otherwise |
| JsNumber.RenderRoundTrip | src/allowance.ts:45 | both parsers read the decimal rendering of any natural number back as exactly that number |
| JsNumber.NegativeRenderParsesAsInteger | src/allowance.ts:21 | `parseInt` reads "-" followed by the decimal rendering of n as -n |
| JsNumber.PositiveRenderParsesAsInteger | src/allowance.ts:21 | `parseInt` reads "+" followed by the decimal rendering of n as n |
| JsNumber.IntegerStopsAtNonDigit | src/allowance.ts:21 | `parseInt` reads the decimal rendering of n followed by any text that does not start with a digit as n, ignoring the rest; only after the rendering "0" must that text also not start with 'x' or 'X', which would make a "0x" prefix |
| JsNumber.HexDigitsParseAsInteger | src/allowance.ts:21 | `parseInt` reads "0x" followed by a non-empty run of hexadecimal digits as the value of those digits in radix 16 |
| JsNumber.HexChainId | src/allowance.ts:21 | `parseInt("0x89")` is 137 |
| JsNumber.TrimStartSkipsWhiteSpace | src/allowance.ts:21 | trimming removes any run of leading white space, whatever follows it |
| JsNumber.WhiteSpaceIsIgnoredByParseFloat | src/allowance.ts:45 | leading white space does not change the result of `parseFloat` |
| JsNumber.WhiteSpaceIsIgnoredByParseInt | src/allowance.ts:21 | leading white space does not change the result of `parseInt` |
| JsNumber.CapitalStartIsNaN | src/allowance.ts:25-28 | a text starting with a capital letter other than 'I' (such as the fixed notices) parses to NaN under both parsers |
| Allowance.ResolveHost | src/allowance.ts:20 | the host is the argument if non-empty, else CLOB_API_URL if non-empty, else https://clob.polymarket.com; it is never empty |
| Allowance.ResolveChain | src/allowance.ts:21 | the chain is the argument when it is truthy (not 0 or NaN), otherwise parseInt of POLYGON_CHAIN_ID when that is non-empty, otherwise parseInt("137") |
| Allowance.DefaultChainIsPolygon | src/allowance.ts:21 | with no argument (or 0 or NaN) and no POLYGON_CHAIN_ID the chain is 137 |
| Allowance.AllowanceOf | src/allowance.ts:45 | the allowance read from a text is never NaN; it is 0 when the text has no numeric prefix and exactly the parsed value otherwise (a parsed 0 included) |
| Allowance.SufficientFor | src/allowance.ts:45-46 | the guard on a reported text (its parseFloat, falling back to 0, compared with the minimum) never holds for a NaN minimum; it compares 0 with the minimum when the text is not numeric, and the parsed value otherwise |
| Allowance.NonNumericFailsClosed | src/allowance.ts:45-46 | a non-numeric allowance text covers a finite minimum exactly when the minimum is at most 0 |
| Allowance.RenderedAllowance | src/allowance.ts:45-46 | an allowance written as the decimal n covers a finite minimum m exactly when n >= m |
| Allowance.BoundaryIsInclusive | src/allowance.ts:43-47 | with minimum 1000, an allowance of 500 is insufficient while 1000 and 1500 are sufficient |
| Allowance.AllowanceManager.New | src/allowance.ts:15-23 | a missing key fails with MissingKey before anything else is built; a refused key fails with InvalidKey; otherwise the manager holds the wallet of the key and a client over the resolved host, the resolved chain and that wallet, without credentials |
| Allowance.AllowanceManager.CheckAllowance | src/allowance.ts:25-28 | the allowance query returns the fixed notice, which parses to NaN, so the allowance it stands for is 0 |
| Allowance.AllowanceManager.SetAllowance | src/allowance.ts:30-32 | whatever the amount, the result is the fixed notice, which carries no number; as a function it changes no state |
| Allowance.AllowanceManager.IsAllowanceSufficient | src/allowance.ts:43-47 | the guard holds exactly when 0 >= required, so for a finite minimum exactly when the minimum is at most 0 |
| Allowance.AllowanceManager.EnsureAllowance | src/allowance.ts:34-41 | the advice is Sufficient exactly when the guard holds for the minimum, which defaults to 1000; with the default it is always Insufficient(1000); it only reports and never sets an allowance |
| GenCredential.AuthMessage | src/_gen_credential.ts:26-27 | the login message is exactly the fixed prefix "Sign this message to authenticate with Polymarket CLOB API.\n\nNonce: " followed by the nonce |
| GenCredential.AuthMessageInjective | src/_gen_credential.ts:26-27 | two nonces give the same message exactly when they are equal |
| GenCredential.AuthMessageEndsWithNonce | src/_gen_credential.ts:26-27 | the message ends with the nonce, and the part in front of it is the same for every nonce |
| Ethers.NewWallet | src/_gen_credential.ts:17 | building a wallet fails exactly when the library derives no address from the key; a built wallet holds that key and the address derived from it |
| GenCredential.CredentialGenerator.New | src/_gen_credential.ts:14-19 | a missing key fails with MissingKey before a wallet is built; a refused key fails with InvalidKey; otherwise the generator holds the key's wallet, whose address is the one derived from the key, and the chain id as given (0 and NaN included), or 137 when it is omitted |
| GenCredential.CredentialGenerator.GetAddress | src/_gen_credential.ts:21-23 | the address is the wallet's; the wallet is a constant field, so every call gives the same address |
| GenCredential.CredentialGenerator.SignForClob | src/_gen_credential.ts:25-29 | the signature is the wallet key's signature of the login message for that nonce |
| GenCredential.CredentialGenerator.GetWallet | src/_gen_credential.ts:31-34 | the wallet object itself, with the address GetAddress reports |
| GenerateCredentials.CheckPrivateKey | src/generate_credentials.ts:25-36 | the key is rejected exactly when PRIVATE_KEY is unset, empty or 'your_private_key_here'; any other value passes unchanged |
| GenerateCredentials.CredsDataOf | src/generate_credentials.ts:72-78 | the saved record's address is the wallet's, its apiKey, secret and passphrase are the credential's key, secret and passphrase, and its generatedAt is the time given |
| GenerateCredentials.CredsDataOfInjective | src/generate_credentials.ts:72-78 | two records are equal exactly when the addresses, the credential triples and the times are |
| GenerateCredentials.ToMillis | src/generate_credentials.ts:94 | the milliseconds are a multiple of 1000 whose quotient by 1000 is the server's seconds, so the conversion is applied once |
| GenerateCredentials.ToMillisStrictlyMonotone | src/generate_credentials.ts:90-94 | the conversion is strictly monotone in both directions, hence injective |
| GenerateCredentials.ToMillisExample | src/generate_credentials.ts:92-94 | 1700000000 seconds become 1700000000000 ms |
| GenerateCredentials.IsValidTime | src/generate_credentials.ts:94-95 | `new Date(ms)` is a valid date, so that `toISOString` does not throw, exactly when the magnitude of ms is at most 8.64e15 |
| GenerateCredentials.ValidServerSeconds | src/generate_credentials.ts:90-95 | a server time in seconds gives a valid date exactly when it lies within 8.64e12 seconds of the epoch |
| GenerateCredentials.VerificationOutcome | src/generate_credentials.ts:87-95 | the test succeeds exactly when getServerTime replies with a time whose milliseconds form a valid date; it then reports the wallet's address, the credentials and those milliseconds; a failed reply is reported with its message |
| GenerateCredentials.Redact | src/generate_credentials.ts:147 | the shown key is the first min(20, length) characters of the key followed by "...", so at most 23 characters, and the whole key plus "..." when it has at most 20 |
| GenerateCredentials.RedactHidesLongKeys | src/generate_credentials.ts:147 | a key longer than 20 characters is shown as its first 20 characters and never whole |
| GenerateCredentials.DerivingClient | src/generate_credentials.ts:45-48 | the client the script derives with is on https://clob.polymarket.com, chain 137, signs with the wallet, and holds no credentials |
| GenerateCredentials.CredentialsFile.CheckExistingCredentials | src/generate_credentials.ts:140-152 | reports a file exactly when a record is stored, with its address, its redacted key and its generation time; changes nothing |
| GenerateCredentials.CredentialsFile.GenerateCredentials | src/generate_credentials.ts:19-137 | a rejected key stops the run before any wallet, client or request, and a refused key stops it before any request; derivation goes through a client on https://clob.polymarket.com, chain 137 and the wallet; a failed derivation leaves the file as it was; a successful one overwrites the single slot with the projected record, then queries the server time through a client equal to the deriving one plus the credentials; the effects come in the order derive, write, verify |

## Left out

- Address derivation and `signMessage` inside the wallet library (secp256k1, keccak-256): they are the uninterpreted, deterministic `Ethers.Crypto`. The model does not check which keys the library accepts; it only follows what the scripts do when the `Wallet` constructor throws.
- The CLOB client's network calls `createOrDeriveApiKey` and `getServerTime`: each reply is a parameter (a success value or an error message). The remote service's idempotent derivation is that service's behaviour, not code here, so it is not stated. The `ClobClient` constructor is taken never to throw.
- `dotenv.config` and the `.env` path: the environment is a map passed in.
- `fs.existsSync`, `readFileSync`, `writeFileSync` and JSON: the file is one optional record, and writes are atomic. `writeFileSync` is taken never to throw: a failed write (a read-only directory, a full disk), which the `catch` of `src/generate_credentials.ts:129-135` would turn into exit 1 before `getServerTime` is called, is not modelled. A hand-edited or malformed `.credentials.json`, which makes `JSON.parse` or `apiKey.substring` throw, is not modelled.
- Console output, the banners and usage text, `CredentialGenerator.displayInfo`, and the advisory lines of `ensureAllowance`: the outcomes are result values. `process.exit` is the outcome itself.
- `new Date().toISOString()` for `generatedAt`, and `toLocaleString`: `generatedAt` is an opaque string. The server date is kept as milliseconds. Only the RangeError that `toISOString` throws for an invalid date is modelled.
- IEEE-754 doubles: numbers are exact reals. Rounding, the overflow of a long exponent to Infinity, and precision loss in large `parseInt` results are not modelled. The server time is an integer number of seconds.
- JsNumber.ParseInt: the contract says when the result is NaN, that it is never infinite, and that it is integral. The value is pinned down by lemmas for leading white space, a sign, a "0x" prefix followed by hexadecimal digits, and a decimal rendering followed by other text, but not in one contract for every text.
- JsNumber.IntegerOfTrimmed: like JsNumber.ParseInt, whose body it is, its contract says only when the result is NaN, that it is never infinite and that it is integral. Its finite value is pinned down only through the ParseInt lemmas (JsNumber.RenderRoundTrip and the sign, hexadecimal and suffix lemmas).
- JsNumber.DecimalOfTrimmed: like JsNumber.ParseFloat, whose body it is, its contract says only when the result is NaN or infinite. Its finite value is pinned down only through JsNumber.RenderRoundTrip.
- JsNumber.ParseFloat: the contract says when the result is NaN or infinite. The finite value is pinned down only for plain decimal integers (JsNumber.RenderRoundTrip), which is all the allowance guard needs.
- GenerateCredentials.Redact: JavaScript's `substring` counts UTF-16 code units while a Dafny `char` is a Unicode scalar value. The redaction therefore differs for keys with characters outside the Basic Multilingual Plane.
- The `require.main === module` example runners of all three files.
- `async`/`await`: every call is awaited in sequence, so the model is sequential.
- GenCredential.CredentialGenerator.GetWallet: "no method returns the private key" is not stated as a contract. No member of the class returns `wallet.privateKey`. However, the wallet object that `getWallet` returns carries the key (the library's `Wallet.privateKey`), so the source comment "expose wallet, NOT private key" holds only for the class's own methods.

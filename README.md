# CRM relay: a Dafny model of its core logic

The repository is a thin relay between a browser front end and an external
CRM server. This project models the four pieces of it that hold logic, and
proves properties of each:

- **Pseudo-token generation** (`TokenService.cs`, module `TokenGeneration`).
  The service reads `CRM_USER_ID` and `CRM_PASSWORD` once, at construction.
  `GenerateToken` hashes `userId:password:secret:timestamp` with SHA-256,
  SHA-512 or MD5, chosen by a case-insensitive name. It encodes the digest
  in Base64 and by default appends `:timestamp`. Base64 follows section 4 of
  RFC 4648 (module `Base64`). The model proves a decoder round trip, the
  output lengths (44, 88 and 24 characters), the padding, and that the hash
  part never holds a `:`. The timestamp's decimal text has its own parse
  round trip (module `Decimal`). Together these let a `hash:timestamp` token
  be split back into its two parts.
- **CRM request construction** (`CrmService.cs`, module `CrmService`).
  The header name and format come from configuration, with defaults. `{0}`
  in the format is replaced by the token. The path is
  `/api/GetClientData?id=` followed by the id. `GetClientData` is a method
  that asks for the token exactly once, first. It builds a request message
  and adds the header in place. It sends the request and returns the body
  verbatim, or passes on the error.
- **The relay endpoint** (`CrmController.cs`, module `CrmController`).
  This is a total function from the id and the service's outcome to a
  status and a body: 400, 200, 503 or 500. A lemma composes it with the
  service model.
- **The front end's auth state** (`AuthContext.jsx`, module `AuthContext`).
  A class `AuthProvider` holds the three React state fields. A class
  `LocalStorage` is the browser store it mutates. `Mount`, `Login` and
  `Logout` are methods. Each is specified by a function on a `Snapshot` of
  state and store, and the lemmas about those functions state persistence,
  frame and idempotence facts.

Shared modules: `Wrappers` (`Option`, `Result`) and `Exceptions` (the .NET
exception categories thrown and caught).

Where the code and its tests or interface disagree, the model follows the code:

- `CrmService.cs:56` builds `/api/GetClientData?id={id}`, but
  `CrmServiceTests.cs:148` expects `/api/v1/ClientData/{id}`. The lemma
  `CrmService.PathForTestClient` shows that the built path does not contain
  the expected one.
- `CrmService.cs:49` calls `ITokenService.GetTokenAsync`
  (`ITokenService.cs:15`). The tests in `TokenServiceTests.cs` drive an
  OAuth `TokenService` that caches tokens and takes three constructor
  arguments. The `TokenService.cs` in the repository has a two-argument
  constructor and `GenerateToken()` instead, and no `GetTokenAsync`. So the
  model keeps the two apart. `TokenGeneration` models `TokenService.cs` as
  written. `CrmService` takes the token source's outcome as an abstract
  `Result`.

Parameters instead of effects: environment variables are `Option<string>`
arguments, and `DateTime.UtcNow` is a whole number of Unix seconds within
`DateTime`'s range. The digests are a `Digests` value of three total functions
with fixed output lengths. The token source is a `Result`, and the HTTP client
is a function from request to `Exchange`, either a response or an exception.

## Model

| member | source | states |
|---|---|---|
| `TokenGeneration.NewTokenService` | CrmClientApp/Services/TokenService.cs:13-23 | Construction succeeds iff both variables are present. A missing `CRM_USER_ID`, checked first, or a missing `CRM_PASSWORD` gives an `InvalidOperationException` naming that variable. Empty values are accepted and kept as given. |
| `TokenGeneration.SelectAlgorithm` | CrmClientApp/Services/TokenService.cs:30-59 | SHA-512 is selected exactly for the case variants of "SHA512", and MD5 exactly for those of "MD5". Every other name, and an absent one (default "SHA256"), selects SHA-256. |
| `TokenGeneration.HashPart` | CrmClientApp/Services/TokenService.cs:76-95 | The Base64 hash is 44, 88 or 24 characters long for SHA-256, SHA-512 or MD5. It ends in one or two `=`. All its other characters are alphabet characters, and none is `:`. |
| `TokenGeneration.Timestamp` | CrmClientApp/Services/TokenService.cs:33-37 | With ExpiryMinutes set to m the expiry is now + 60·m seconds. With it absent the expiry is now + 3600 seconds (default 60 minutes). |
| `TokenGeneration.Payload` | CrmClientApp/Services/TokenService.cs:40 | The payload is the user id, password, secret and the timestamp's decimal text, in that order, each pair separated by one `:`, and nothing more. It holds three `:` more than the user id, password and secret hold together. |
| `TokenGeneration.GenerateToken` | CrmClientApp/Services/TokenService.cs:25-74 | A missing secret fails with "ExternalApi:Token:Secret configuration is required" and no token. An expiry outside `DateTime`'s range fails with `ArgumentOutOfRangeException`. Otherwise it succeeds, and the token is the formatted hash of exactly `userId:password:secret:timestamp`, using the selected algorithm and the flag (default true). Failures are returned unchanged. |
| `TokenGeneration.FormatToken` | CrmClientApp/Services/TokenService.cs:62-64 | Without the flag the token is the hash. For a hash without `:`: with the flag the token holds exactly one `:` and splits back into the hash and the timestamp. Without it the token holds no `:` and does not split. |
| `TokenGeneration.GeneratedTokenShape` | CrmClientApp/Services/TokenService.cs:40-64 | A generated token with the flag splits into the Base64 digest of the payload and the expiry timestamp, and holds one `:`. Without the flag it is the hash alone, with no `:`. |
| `TokenGeneration.TokenDeterminedByInputs` | CrmClientApp/Services/TokenService.cs:40-64 | Equal user id, password, secret, expiry timestamp, selected algorithm and flag give equal results. |
| `Base64.Encode` | CrmClientApp/Services/TokenService.cs:80 | `Convert.ToBase64String` has length 4·⌈n/3⌉. The last (3 − n mod 3) mod 3 characters are `=`, and every other character is from the RFC 4648 alphabet. |
| `Base64.DecodeEncode` | CrmClientApp/Services/TokenService.cs:80 | Decoding the Base64 text gives back the digest bytes. |
| `Base64.EncodeInjective` | CrmClientApp/Services/TokenService.cs:80 | Different digests give different Base64 text. |
| `Decimal.IntToString` | CrmClientApp/Services/TokenService.cs:40 | The timestamp text is non-empty and holds no `:`. It starts with `-` exactly when the timestamp is negative. |
| `Decimal.NatToString` | CrmClientApp/Services/TokenService.cs:63 | The printed digits are all decimal digits, at least one, with no leading zero. |
| `Decimal.ParseIntToString` | CrmClientApp/Services/TokenService.cs:63 | The printed timestamp, negative ones included, parses back to the same integer. |
| `CrmService.HeaderName` | CrmClientApp/Services/CrmService.cs:52 | The configured header name, or "Authorization" when the key is absent. |
| `CrmService.HeaderFormat` | CrmClientApp/Services/CrmService.cs:53 | The configured header format, or "Bearer {0}" when the key is absent. |
| `CrmService.FormatWithToken` | CrmClientApp/Services/CrmService.cs:59 | A format without braces is used unchanged. |
| `CrmService.FormatSubstitutes` | CrmClientApp/Services/CrmService.cs:59 | For a format `prefix{0}suffix` with no other braces, the header value is `prefix + token + suffix`. |
| `CrmService.DefaultHeaderValue` | CrmClientApp/Services/CrmService.cs:53-59 | The default header value is "Bearer " followed by the token. |
| `CrmService.CustomHeaderValue` | CrmClientApp/Services/CrmService.cs:59-60 | "Token {0}" gives "Token " followed by the token, e.g. "Token custom-token". |
| `CrmService.RequestPath` | CrmClientApp/Services/CrmService.cs:56 | The path is "/api/GetClientData?id=" followed by the client id, unescaped. |
| `CrmService.PathForTestClient` | CrmClientApp/Services/CrmService.cs:56 | For id "12345" the path is "/api/GetClientData?id=12345". It does not contain "/api/v1/ClientData/12345". |
| `CrmService.RequestMessage.constructor` | CrmClientApp/Services/CrmService.cs:56 | A new request message has the given method and path and no headers. |
| `CrmService.RequestMessage.AddHeader` | CrmClientApp/Services/CrmService.cs:60 | Adding a header appends exactly that name/value pair to the message's headers. |
| `CrmService.StatusError` | CrmClientApp/Services/CrmService.cs:64 | A non-success status becomes an `HttpRequestException`. |
| `CrmService.GetClientData` | CrmClientApp/Services/CrmService.cs:42-76 | The token is requested exactly once, before anything else. On a token failure the same error comes back and nothing is sent. Otherwise exactly one GET is sent, with the configured header carrying the token. A client exception is passed on, a status outside 200-299 becomes an `HttpRequestException`, and a success returns the body verbatim. |
| `CrmController.IsNullOrWhiteSpace` | CrmClientApp/Controllers/CrmController.cs:45 | A null or empty id counts as blank, and so does a non-empty id made only of .NET white space. An id with any character that is not white space does not. |
| `CrmController.WhiteSpaceIdRejected` | CrmClientApp/Controllers/CrmController.cs:45-48 | The id "   " gets 400 with "Client ID is required", and the service is not called. |
| `CrmController.GetClientData` | CrmClientApp/Controllers/CrmController.cs:43-65 | Each input gets exactly one status. 400 ("Client ID is required", no service call) iff the id is null or white space. Otherwise the service is called once with that id. 200 with `data` equal to its result iff it succeeds. 503 ("Unable to connect to CRM server" plus the message) iff it throws `HttpRequestException`. 500 ("An error occurred while retrieving client data" plus the message) for any other exception. |
| `CrmController.RelayOverService` | CrmClientApp/Controllers/CrmController.cs:52-63 | Over the service model: a valid id gives 200 with the CRM body exactly when a token was obtained and the CRM answered 2xx. A non-2xx answer gives 503. A token failure gives 503 or 500 according to its category. |
| `AuthContext.AuthProvider.constructor` | CrmClientApp/ClientApp/src/contexts/AuthContext.jsx:6-8 | Initially `isAuthenticated` is false, `username` is null and `isLoading` is true, with the store untouched. |
| `AuthContext.AuthProvider.Mount` | CrmClientApp/ClientApp/src/contexts/AuthContext.jsx:11-18 | The new state is read from the store. `isLoading` becomes false and the store is unchanged. |
| `AuthContext.AuthProvider.Login` | CrmClientApp/ClientApp/src/contexts/AuthContext.jsx:20-34 | Succeeds iff both arguments are non-null and non-empty. On success the store maps 'isAuthenticated' to 'true' and 'username' to the user, and the state matches. On failure it returns 'Please enter both username and password' and nothing changes. |
| `AuthContext.AuthProvider.Logout` | CrmClientApp/ClientApp/src/contexts/AuthContext.jsx:36-41 | Removes the two keys from the store and sets `isAuthenticated` to false and `username` to null. |
| `AuthContext.UseAuth` | CrmClientApp/ClientApp/src/contexts/AuthContext.jsx:54-60 | Without a provider it fails with 'useAuth must be used within an AuthProvider'. Otherwise it returns the provider. |
| `AuthContext.MountHydrates` | CrmClientApp/ClientApp/src/contexts/AuthContext.jsx:11-18 | After mount, `isAuthenticated` holds iff the store maps 'isAuthenticated' to exactly "true". `username` is the stored 'username', or null when absent. `isLoading` is false. |
| `AuthContext.MountIdempotent` | CrmClientApp/ClientApp/src/contexts/AuthContext.jsx:11-18 | Running the mount effect twice gives the same result as once. |
| `AuthContext.LoginGuard` | CrmClientApp/ClientApp/src/contexts/AuthContext.jsx:25 | The guard is JavaScript truthiness: null or empty fails, a white-space string passes. |
| `AuthContext.LoginFrame` | CrmClientApp/ClientApp/src/contexts/AuthContext.jsx:25-30 | Login writes exactly the two session keys. Every other store entry is unchanged. |
| `AuthContext.LoginPersists` | CrmClientApp/ClientApp/src/contexts/AuthContext.jsx:11-30 | After a login, a new provider's mount finds the session again, as the same user. |
| `AuthContext.LogoutFrame` | CrmClientApp/ClientApp/src/contexts/AuthContext.jsx:36-41 | Logout removes exactly 'isAuthenticated' and 'username'. Every other store entry, and `isLoading`, is unchanged. |
| `AuthContext.LogoutPersists` | CrmClientApp/ClientApp/src/contexts/AuthContext.jsx:36-41 | After a logout, a new provider's mount finds no session. |
| `AuthContext.LogoutIdempotent` | CrmClientApp/ClientApp/src/contexts/AuthContext.jsx:36-41 | A second logout changes nothing. So does a logout while logged out with no session keys stored. |
| `AuthContext.LogoutUndoesLogin` | CrmClientApp/ClientApp/src/contexts/AuthContext.jsx:25-41 | A logout after a login leaves the same state and store as a logout at once. |

## Left out

- The digest algorithms themselves (`System.Security.Cryptography` SHA-256, SHA-512, MD5): only their output lengths are modelled. The UTF-8 encoding of the payload is folded into each digest function.
- Logging (the unknown-algorithm warning, debug and error logs): it has no effect on results.
- Configuration binding: `ExpiryMinutes` and `IncludeTimestamp` are typed values (`Option<int32>`, `Option<bool>`). The binder's conversion of their text, and the `InvalidOperationException` it throws on text it cannot convert, are not modelled.
- TokenGeneration.SelectAlgorithm: `ToUpperInvariant` is modelled for ASCII letters only. Non-ASCII characters whose invariant upper case is ASCII (such as U+017F) are left unchanged by the model.
- CrmService.FormatWithToken: only the `{0}` item of `string.Format` is modelled. The `{{`/`}}` escapes, other indices, alignment and format strings, and the `FormatException` for malformed formats are not. The substitution lemma assumes text free of braces.
- CrmService.StatusError: the message of the `HttpRequestException` from `EnsureSuccessStatusCode` leaves out the reason phrase. Only its category and the status number are modelled.
- Header and URI validation by `HttpRequestHeaders.Add` and `HttpRequestMessage` (invalid names or values, content headers, malformed relative URIs) is not modelled.
- The HTTP transport, async/await, timeouts and cancellation: a send is an abstract function from request to response or exception, and the base address is not modelled.
- The OAuth token flow with caching, refresh, scope and Basic authentication that `TokenServiceTests.cs` and `LiveApiIntegrationTests.cs` exercise: `TokenService.cs` does not implement it, so `CrmService` takes the token source's outcome as a value.
- The 10 ms delay in `login`, React's batching and rendering, and arguments to `login` that are not strings or null (JavaScript would coerce them) are not modelled. Nor are storage exceptions (quota, disabled storage).
- Decimal.IntToString: a negative timestamp is written with the ASCII `-` of the invariant culture. Interpolation uses the current culture's negative sign, which in some cultures (sv-SE, for one) is U+2212. Under such a culture an expiry before 1970 would give a different payload, and so a different token.
- The React components and routing (`App.jsx`, `Login.jsx`, `ProtectedRoute.jsx`) are user interface and are not modelled. They hold logic that differs from the modelled core:
  - `Login.jsx` lines 21-24 write 'isAuthenticated' and 'username' to the store itself before navigating, besides what `login` writes.
  - `Login.jsx` line 73 disables the button unless both fields are non-blank after `trim()`. So a white-space user name cannot be submitted from the form, though `login`'s guard (`AuthContext.jsx` line 25) lets it through.
  - `App.jsx` line 17 escapes the client id with `encodeURIComponent` before calling the relay. `App.jsx` lines 24-26 show the body's `error` text, or "Failed to fetch client data" when it has none.
  - `ProtectedRoute.jsx` lines 4-9 read 'isAuthenticated' from the store directly and redirect to /login unless it is exactly 'true'.
- Process wiring (`Program.cs`), build scripts and configuration files are not modelled: they hold no request or token logic.

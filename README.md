# simple-api-client, modelled in Dafny

A model of the core of `APIClient`, a small HTTP client with bearer-token
authentication. The model covers:

- **Construction.** The base URL is the explicit argument when it is truthy.
  Otherwise it is the environment's `API_BASE_URL`, and otherwise `''`.
  The token is loaded from the token file. The session's default headers
  gain `Authorization: Bearer <token>` and `Content-Type: application/json`
  only when a token was loaded.
- **Token loading** (`_load_token`). The token is the file's text with
  Python whitespace stripped. It is absent when the file is missing,
  unreadable, or blank after stripping.
- **URL joining**, shared by `get`, `post`, `put` and `delete`:
  `base_url.rstrip('/') + '/' + endpoint.lstrip('/')`.
- **Response normalisation** (`_handle_response`). It splits four ways:
  whether the body decoded as JSON, and whether the status is at least 400.
- **Transport-failure wrapping.** A `RequestException` raised by the
  transport becomes `{error: 'Request failed: <reason>'}` and is never
  raised to the caller.

Files: `wrappers.dfy` (Option), `text.dfy` (Python's `strip`/`lstrip`/`rstrip`
and `str(n)`), `json.dfy` (decoded JSON values, `dict.get`), `url.dfy` (URL
joining), `token.dfy` (token loading), `response.dfy` (response normalisation
and failure wrapping), `client.dfy` (the session and the client class).

The file system, the environment and the transport are inputs of the model.
The file read is a `TokenFile`: `Missing`, `Unreadable` or `Contents(text)`.
The environment is a map. The transport is a function from the `Request` a
verb builds (verb, joined URL, session headers, parameters or bodies) to an
`Outcome`: a response with status, decoded-or-not body and text, or a
failure with an opaque reason.

Two behaviours of the code that a reader might not expect, both modelled as
the code has them:

- For a decoded error body, `message` is `body.get('message', 'Unknown error')`
  (api_client.py:105). A `message` key that is present is kept even when its
  value is `null` or `""`. It is not `body.message or 'Unknown error'`.
- An explicit `base_url` of `''` is falsy, so it falls through to the
  environment (api_client.py:26). It does not count as "provided".

## Model

| member | source | states |
|---|---|---|
| Text.StripLeading | api_client.py:58 | `lstrip`: the result is a suffix of the input, everything removed is in the character set, and the result does not start with one |
| Text.StripTrailing | api_client.py:58 | `rstrip`: the result is a prefix of the input, everything removed is in the character set, and the result does not end with one |
| Text.Strip | api_client.py:47 | `strip`: neither end of the result is in the set; the result is empty exactly when every character of the input is |
| Text.StripLeadingSkipsPrefix | api_client.py:58 | characters of the set put in front of a string do not change its `lstrip` |
| Text.StripTrailingSkipsSuffix | api_client.py:58 | characters of the set put after a string do not change its `rstrip` |
| Text.StripRecoversCore | api_client.py:47 | padding a core (which neither starts nor ends in the set) with set characters on both sides, then stripping, gives back the core |
| Text.StripIdempotent | api_client.py:47 | stripping twice equals stripping once |
| Text.Decimal | api_client.py:104 | `str(status)` is a non-empty string of decimal digits with no leading zero: it starts with `0` only when it is `0` itself |
| Text.DecimalRoundTrip | api_client.py:104 | reading the digits of `str(n)` back gives `n` |
| Text.DecimalInjective | api_client.py:104 | different status codes render differently |
| Json.GetOrDefault | api_client.py:105 | `dict.get(key, default)`: the stored value if the key is present, else the default |
| Url.JoinUrl | api_client.py:58 | the joined URL is never empty (it always holds the junction `/`) |
| Url.SingleSlashAtJunction | api_client.py:58 | exactly one `/` sits at the junction; before it is the base URL with only trailing `/`s removed, after it the endpoint with only leading `/`s removed |
| Url.JoinUrlCanonical | api_client.py:68 | for any number of `/`s after a slash-free base and before a slash-free endpoint, the URL is base + `/` + endpoint |
| Url.ExtraSlashesIgnored | api_client.py:78 | adding `/`s to the end of the base or the start of the endpoint does not change the URL |
| Url.JoinUrlExample | test_api_client.py:108-124 | `https://api.test.com/` joined with `/api/test` is `https://api.test.com/api/test` |
| Token.LoadToken | api_client.py:36-54 | the token is present iff the file was read and is not all whitespace; then it is non-empty with no whitespace at either end |
| Token.LoadTokenTrims | api_client.py:47-51 | a file holding a token surrounded by any whitespace loads exactly that token |
| Token.LoadTokenRoundTrip | api_client.py:47-51 | writing a loaded token to the file and loading it again gives the same token |
| Token.LoadTokenExamples | test_api_client.py:33-60 | `test_token_12345` loads as itself; an empty file and a whitespace-only file give no token |
| Response.HttpLabel | api_client.py:104 | the `error` label is `HTTP ` followed by decimal digits |
| Response.HttpLabelRoundTrip | api_client.py:104 | the status can be read back out of its `HTTP <status>` label |
| Response.HandleResponse | api_client.py:96-119 | the four cases: a decoded body with status < 400 is passed through unchanged; decoded with status >= 400 gives exactly `error`, `message` (the body's `message`, else `Unknown error`) and `details` (the whole body); undecoded with status >= 400 gives exactly `error` and `message` (the text, or `Unknown error` if it is empty); undecoded with status < 400 gives exactly `content` (the text) |
| Response.NormalizeOutcome | api_client.py:60-64 | a transport failure gives the one-key object `error: Request failed: <reason>`; a response gives `HandleResponse` of it |
| Response.ErrorNamesStatus | api_client.py:102-107 | every HTTP error result carries an `error` string from which its status code can be read back |
| Response.ErrorStatusDistinguishes | api_client.py:102-117 | error results for different status codes are different |
| Response.FailureUnlikeHttpError | api_client.py:63-64 | a transport-failure result never equals an HTTP-error result |
| Response.FailureKeepsReason | api_client.py:73-74 | different failure reasons give different results |
| Response.SuccessMayMimicFailure | api_client.py:109 | a success body that looks like `{error: 'Request failed: …'}` is returned as it is, so the caller cannot tell it from a failure |
| Response.EmptyErrorTextIsUnknown | api_client.py:116 | an undecoded error body with empty text gives the same result as one whose text is `Unknown error` |
| Response.HandleResponseExamples | test_api_client.py:62-138 | the 200 and 201 JSON bodies pass through; the 404 body `{message: Not found}` gives `{error: HTTP 404, message: Not found, details: body}`; the 200 text `Plain text response` gives `{content: Plain text response}` |
| Client.ResolveBaseUrl | api_client.py:26 | base URL precedence: a truthy explicit argument, else the environment's `API_BASE_URL`, else `''` |
| Client.EmptyBaseUrlFallsThrough | api_client.py:26 | an explicit `''` resolves exactly as no argument does |
| Client.ResolveBaseUrlExamples | test_api_client.py:144-155 | an explicit base URL is kept; without one the environment value is used; with neither it is `''` |
| Client.AuthorizationIffToken | api_client.py:30-34 | `Authorization` is in the session headers iff the token is truthy; it is then `Bearer <token>` and `Content-Type` is `application/json`; other default headers are kept; with no token the headers are exactly the defaults |
| Client.LoadedTokenIsSent | api_client.py:27-34 | whenever the file yields a token, the session sends it as `Bearer <token>` |
| Client.Session.constructor | api_client.py:28 | a new session starts with the transport's default headers |
| Client.Session.UpdateHeaders | api_client.py:31-34 | `headers.update(extra)`: afterwards the headers are the old ones overridden by `extra` |
| Client.ApiClient.constructor | api_client.py:17-34 | keeps the token file path, resolves the base URL, loads the token, and gives a fresh session whose headers include the auth headers iff the token is truthy; the path defaults to `token.txt` and the base URL argument to none; the fields are constants, set once |
| Client.ApiClient.Get | api_client.py:56-64 | sends GET to the joined URL with the session headers and the query parameters; returns the normalised outcome and never raises |
| Client.ApiClient.Post | api_client.py:66-74 | sends POST to the joined URL with the session headers and the raw and JSON bodies; returns the normalised outcome and never raises |
| Client.ApiClient.Put | api_client.py:76-84 | sends PUT to the joined URL with the session headers and the raw and JSON bodies; returns the normalised outcome and never raises |
| Client.ApiClient.Delete | api_client.py:86-94 | sends DELETE to the joined URL with the session headers; returns the normalised outcome and never raises |

## Left out

- Response.HandleResponse: requires `ErrorBodyIsObject`. A decoded body that is not a JSON object, with status >= 400, makes `json_response.get` raise `AttributeError` (api_client.py:105). That exception is not caught, and the model gives no result for it.
- Response.NormalizeOutcome: requires `Handles(outcome)`, that is `ErrorBodyIsObject` of a received response, for the same reason.
- Client.ApiClient.Get: requires `Handles` of the outcome the transport gives for the one request the verb sends, for the same reason. `Post`, `Put` and `Delete` require the same of their own request.
- The HTTP transport (`requests.Session` sending, connection pooling, query and body encoding, cookies kept between requests). It is a foreign library. It appears only as the function from `Request` to `Outcome`.
- JSON decoding (`response.json()`). The model takes the decoded value, or the fact that decoding failed, as part of the response.
- The text of `str(e)` for a transport exception. It is the opaque `reason`.
- File-system access (`Path.exists`, `open`, decoding). What the read gave is an input.
- `load_dotenv()` and `os.getenv`. The environment is an input map.
- All `print` diagnostics, and `main()`. They are console output only.
- Headers are modelled as a plain map. `requests` uses a case-insensitive dictionary, so a default header spelled in another case would be replaced, not kept beside the new one.
- Form-encoded `data` dictionaries. The `data` argument of `post` and `put` is modelled as a raw string body.
- JSON numbers are integers only. Floating-point values are not modelled.
- The order of keys in the result dictionaries. JSON objects are maps.
- `setup.py` (virtual-environment and file-copy orchestration) and the test suite's harness code. The test suite's assertions appear as the example lemmas.

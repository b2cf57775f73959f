/** The client object (`APIClient`): its construction from the token file,
    an explicit or environment base URL and a fresh transport session, and
    its four HTTP verbs. The file system, the environment and the transport
    are inputs. */
module Client {
  import opened Wrappers
  import opened Text
  import opened Json
  import opened Url
  import opened Token
  import opened Response

  const DefaultTokenFile := "token.txt"
  const BaseUrlVariable := "API_BASE_URL"
  const JsonContentType := "application/json"

  datatype Verb = GET | POST | PUT | DELETE

  /** What a verb hands to the transport: the method, the joined URL, the
      session's headers, and the query parameters (GET) or the raw and JSON
      bodies (POST, PUT). */
  datatype Request = Request(
    verb: Verb,
    url: string,
    headers: map<string, string>,
    params: Option<map<string, string>>,
    data: Option<string>,
    json: Option<JsonValue>)

  /** Python truthiness of an optional string: present and non-empty. */
  predicate Truthy(s: Option<string>) {
    s.Some? && s.value != ""
  }

  /** `base_url or os.getenv('API_BASE_URL', '')`. */
  function ResolveBaseUrl(explicit: Option<string>, env: map<string, string>): (baseUrl: string)
    ensures Truthy(explicit) ==> baseUrl == explicit.value
    ensures !Truthy(explicit) && BaseUrlVariable in env ==> baseUrl == env[BaseUrlVariable]
    ensures !Truthy(explicit) && BaseUrlVariable !in env ==> baseUrl == ""
  {
    if Truthy(explicit) then explicit.value
    else if BaseUrlVariable in env then env[BaseUrlVariable]
    else ""
  }

  /** An explicit empty base URL does not override the environment. */
  lemma EmptyBaseUrlFallsThrough(env: map<string, string>)
    ensures ResolveBaseUrl(Some(""), env) == ResolveBaseUrl(None, env)
  {
  }

  /** The headers added to the session when a token was loaded. */
  function AuthHeaders(token: string): map<string, string> {
    map["Authorization" := "Bearer " + token, "Content-Type" := JsonContentType]
  }

  /** The session's headers after construction, from the transport's defaults. */
  function SessionHeaders(defaults: map<string, string>, token: Option<string>): map<string, string> {
    if Truthy(token) then defaults + AuthHeaders(token.value) else defaults
  }

  /** The session carries `Authorization: Bearer <token>` exactly when a token
      was loaded, together with the JSON content type; every other default
      header is kept, and with no token the defaults are left untouched. */
  lemma AuthorizationIffToken(defaults: map<string, string>, token: Option<string>)
    requires "Authorization" !in defaults
    ensures var headers := SessionHeaders(defaults, token);
            && ("Authorization" in headers <==> Truthy(token))
            && (Truthy(token) ==>
                  headers["Authorization"] == "Bearer " + token.value
                  && "Content-Type" in headers && headers["Content-Type"] == JsonContentType)
            && (!Truthy(token) ==> headers == defaults)
            && (forall k :: k in defaults && k != "Authorization" && k != "Content-Type" ==>
                  k in headers && headers[k] == defaults[k])
  {
  }

  /** A loaded token is always truthy, so the session sends it whenever the
      file gave one. */
  lemma LoadedTokenIsSent(defaults: map<string, string>, file: TokenFile)
    requires LoadToken(file).Some?
    ensures var headers := SessionHeaders(defaults, LoadToken(file));
            "Authorization" in headers && headers["Authorization"] == "Bearer " + LoadToken(file).value
  {
  }

  /** The transport session (`requests.Session`), reduced to its default headers. */
  class Session {
    var headers: map<string, string>

    constructor (defaults: map<string, string>)
      ensures headers == defaults
    {
      headers := defaults;
    }

    /** `session.headers.update(extra)`: later keys win. */
    method UpdateHeaders(extra: map<string, string>)
      modifies this
      ensures headers == old(headers) + extra
    {
      headers := headers + extra;
    }
  }

  class ApiClient {
    const tokenFile: string
    const baseUrl: string
    const token: Option<string>
    const session: Session

    /** `APIClient(token_file, base_url)`, where `file` is what reading
        `tokenFile` gave, `env` the environment and `sessionDefaults` the
        headers a new transport session starts with. */
    constructor (file: TokenFile, env: map<string, string>, sessionDefaults: map<string, string>,
                 tokenFile: string := DefaultTokenFile, baseUrl: Option<string> := None)
      ensures this.tokenFile == tokenFile
      ensures this.baseUrl == ResolveBaseUrl(baseUrl, env)
      ensures token == LoadToken(file)
      ensures fresh(session) && session.headers == SessionHeaders(sessionDefaults, token)
    {
      this.tokenFile := tokenFile;
      this.baseUrl := ResolveBaseUrl(baseUrl, env);
      token := LoadToken(file);
      session := new Session(sessionDefaults);
      new;
      if Truthy(token) {
        session.UpdateHeaders(AuthHeaders(token.value));
      }
    }

    /** `get(endpoint, params)`. */
    method Get(endpoint: string, params: Option<map<string, string>>, send: Request -> Outcome)
      returns (result: JsonValue)
      requires Handles(send(Request(GET, JoinUrl(baseUrl, endpoint), session.headers, params, None, None)))
      ensures result == NormalizeOutcome(
                send(Request(GET, JoinUrl(baseUrl, endpoint), session.headers, params, None, None)))
    {
      var url := JoinUrl(baseUrl, endpoint);
      var outcome := send(Request(GET, url, session.headers, params, None, None));
      result := NormalizeOutcome(outcome);
    }

    /** `post(endpoint, data, json_data)`. */
    method Post(endpoint: string, data: Option<string>, jsonData: Option<JsonValue>, send: Request -> Outcome)
      returns (result: JsonValue)
      requires Handles(send(Request(POST, JoinUrl(baseUrl, endpoint), session.headers, None, data, jsonData)))
      ensures result == NormalizeOutcome(
                send(Request(POST, JoinUrl(baseUrl, endpoint), session.headers, None, data, jsonData)))
    {
      var url := JoinUrl(baseUrl, endpoint);
      var outcome := send(Request(POST, url, session.headers, None, data, jsonData));
      result := NormalizeOutcome(outcome);
    }

    /** `put(endpoint, data, json_data)`. */
    method Put(endpoint: string, data: Option<string>, jsonData: Option<JsonValue>, send: Request -> Outcome)
      returns (result: JsonValue)
      requires Handles(send(Request(PUT, JoinUrl(baseUrl, endpoint), session.headers, None, data, jsonData)))
      ensures result == NormalizeOutcome(
                send(Request(PUT, JoinUrl(baseUrl, endpoint), session.headers, None, data, jsonData)))
    {
      var url := JoinUrl(baseUrl, endpoint);
      var outcome := send(Request(PUT, url, session.headers, None, data, jsonData));
      result := NormalizeOutcome(outcome);
    }

    /** `delete(endpoint)`. */
    method Delete(endpoint: string, send: Request -> Outcome)
      returns (result: JsonValue)
      requires Handles(send(Request(DELETE, JoinUrl(baseUrl, endpoint), session.headers, None, None, None)))
      ensures result == NormalizeOutcome(
                send(Request(DELETE, JoinUrl(baseUrl, endpoint), session.headers, None, None, None)))
    {
      var url := JoinUrl(baseUrl, endpoint);
      var outcome := send(Request(DELETE, url, session.headers, None, None, None));
      result := NormalizeOutcome(outcome);
    }
  }

  /** The client's test cases for the base URL: the explicit one is kept, and
      without one the environment's `API_BASE_URL` is used. */
  lemma ResolveBaseUrlExamples()
    ensures ResolveBaseUrl(Some("https://api.test.com"), map[]) == "https://api.test.com"
    ensures ResolveBaseUrl(None, map[BaseUrlVariable := "https://env.test.com"]) == "https://env.test.com"
    ensures ResolveBaseUrl(None, map[]) == ""
  {
  }
}

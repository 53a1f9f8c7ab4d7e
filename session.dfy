/**
 * The service session of src/session.js.
 *
 * A `Session` merges its configuration once, holds the session id the login
 * endpoint hands out and sends every request through one path that attaches
 * the session cookie, forces the configured User-Agent, defaults the Accept
 * header, builds the URL from the configured API base and turns a non-ok
 * response into an error.  The network call (`fetch`) is a `Transport`
 * function passed in by the caller; only what is sent and what is done with
 * the answer is modelled.
 */
module Sessions {
  import opened Wrappers

  /** Settings by name: the defaults, overridden key by key by the constructor's options. */
  type Config = map<string, string>

  /** `{...defaults, ...options}`. */
  function Merge(defaults: Config, options: Config): (r: Config)
    ensures r.Keys == defaults.Keys + options.Keys
    ensures forall k :: k in options ==> r[k] == options[k]
    ensures forall k :: k in defaults && k !in options ==> r[k] == defaults[k]
  {
    defaults + options
  }

  /** A setting as a template literal or `URLSearchParams` renders it: `"undefined"` when it is not set. */
  function Setting(config: Config, key: string): string {
    if key in config then config[key] else "undefined"
  }

  /** The number a string of decimal digits spells. */
  function DigitsValue(s: string): int
    decreases |s|
  {
    if s == [] then 0 else DigitsValue(s[..|s| - 1]) * 10 + (s[|s| - 1] as int - '0' as int)
  }

  /** The decimal numeral of a status code, as a template literal renders it. */
  function Decimal(n: nat): (s: string)
    ensures |s| > 0
    ensures forall i :: 0 <= i < |s| ==> '0' <= s[i] <= '9'
    ensures DigitsValue(s) == n
    ensures |s| > 1 ==> s[0] != '0'
    ensures n > 0 ==> s[0] != '0'
    decreases n
  {
    var digit := [('0' as int + n % 10) as char];
    if n < 10 then
      assert DigitsValue(digit) == n by {
        assert digit[..0] == [];
      }
      digit
    else
      var prefix := Decimal(n / 10);
      assert (prefix + digit)[..|prefix|] == prefix;
      prefix + digit
  }

  /** The Cookie value a session id yields, if any: an absent or empty id is falsy and yields none. */
  function SessionCookie(id: Option<string>): (c: Option<string>)
    ensures c.Some? <==> id.Some? && id.value != ""
    ensures c.Some? ==> c.value == "JSESSIONID=" + id.value
  {
    if id.Some? && id.value != "" then Some("JSESSIONID=" + id.value) else None
  }

  /** The headers `request` manages; every other header is the caller's. */
  const ManagedHeaders: set<string> := {"Cookie", "User-Agent", "Accept"}

  /** The header dictionary after `request` has worked on the caller's `given` headers. */
  function PrepareHeaders(id: Option<string>, userAgent: string, given: map<string, string>): (h: map<string, string>)
    ensures SessionCookie(id).Some? ==> "Cookie" in h && h["Cookie"] == "JSESSIONID=" + id.value
    ensures SessionCookie(id).None? ==> ("Cookie" in h <==> "Cookie" in given)
    ensures SessionCookie(id).None? && "Cookie" in given ==> h["Cookie"] == given["Cookie"]
    ensures "User-Agent" in h && h["User-Agent"] == userAgent
    ensures "Accept" in h && h["Accept"] == (if "Accept" in given then given["Accept"] else "application/json")
    ensures forall k :: k in given && k !in ManagedHeaders ==> k in h && h[k] == given[k]
    ensures forall k :: k in h ==> k in given || k in ManagedHeaders
  {
    var withCookie := match SessionCookie(id)
      case Some(cookie) => given["Cookie" := cookie]
      case None => given;
    var withAgent := withCookie["User-Agent" := userAgent];
    if "Accept" in withAgent then withAgent else withAgent["Accept" := "application/json"]
  }

  /** The request URL: the configured API base, a slash, then the path. */
  function RequestUrl(config: Config, path: string): (url: string)
    ensures var api := Setting(config, "api");
      && |url| == |api| + 1 + |path|
      && url[..|api|] == api
      && url[|api|] == '/'
      && url[|api| + 1..] == path
  {
    Setting(config, "api") + "/" + path
  }

  /** A request body: form parameters (`URLSearchParams`) or opaque text. */
  datatype Body = Form(fields: seq<(string, string)>) | Text(text: string)

  /** A header dictionary the caller owns; `request` changes it in place. */
  class HeaderBag {
    var entries: map<string, string>

    constructor (entries: map<string, string>)
      ensures this.entries == entries
    {
      this.entries := entries;
    }
  }

  /** The options a caller passes to `request`: headers (possibly none), HTTP method and body. */
  datatype RequestOptions = RequestOptions(headers: HeaderBag?, httpMethod: Option<string>, body: Option<Body>)

  /** What is handed to the transport besides the URL. */
  datatype Outgoing = Outgoing(httpMethod: Option<string>, body: Option<Body>, headers: map<string, string>)

  /** The transport's answer: `ok`, `status` and the JSON object of its body. */
  datatype Response = Response(ok: bool, status: nat, json: map<string, string>)

  /** The network call; an external collaborator. */
  type Transport = (string, Outgoing) -> Response

  datatype SessionError = RequestFailed(path: string, status: nat) {
    function Message(): string {
      path + " failed with " + Decimal(status)
    }
  }

  /** What `request` makes of the transport's answer for `path`. */
  function Checked(path: string, res: Response): (r: Result<Response, SessionError>)
    ensures r.Success? <==> res.ok
    ensures r.Success? ==> r.value == res
    ensures r.Failure? ==> r.error.Message() == path + " failed with " + Decimal(res.status)
  {
    if res.ok then Success(res) else Failure(RequestFailed(path, res.status))
  }

  /** A missing JSON field reads as `undefined`. */
  function Field(json: map<string, string>, key: string): Option<string> {
    if key in json then Some(json[key]) else None
  }

  /** The form `login` posts: the configured user and password. */
  function LoginForm(config: Config): Body {
    Form([("user", Setting(config, "user")), ("pw", Setting(config, "password"))])
  }

  class Session {
    const config: Config
    var id: Option<string>

    /** `new Session(options)` over the default configuration `defaults`. */
    constructor (defaults: Config, options: Config)
      ensures config == Merge(defaults, options) && id == None
    {
      config := Merge(defaults, options);
      id := None;
    }

    /** The transport's answer to a request for `path` with the caller's headers `given`, in the current state. */
    function Exchange(path: string, httpMethod: Option<string>, body: Option<Body>, given: map<string, string>, fetch: Transport): Response
      reads this
    {
      fetch(RequestUrl(config, path), Outgoing(httpMethod, body, PrepareHeaders(id, Setting(config, "userAgent"), given)))
    }

    /** `request(path, options)`. */
    method Request(path: string, options: RequestOptions, fetch: Transport) returns (r: Result<Response, SessionError>)
      modifies options.headers
      ensures var given := if options.headers == null then map[] else old(options.headers.entries);
        && (options.headers != null ==> options.headers.entries == PrepareHeaders(id, Setting(config, "userAgent"), given))
        && r == Checked(path, Exchange(path, options.httpMethod, options.body, given, fetch))
    {
      var headers := options.headers;
      if headers == null {
        headers := new HeaderBag(map[]);
      }
      if id.Some? && id.value != "" {
        headers.entries := headers.entries["Cookie" := "JSESSIONID=" + id.value];
      }
      headers.entries := headers.entries["User-Agent" := Setting(config, "userAgent")];
      if "Accept" !in headers.entries {
        headers.entries := headers.entries["Accept" := "application/json"];
      }
      var url := RequestUrl(config, path);
      var res := fetch(url, Outgoing(options.httpMethod, options.body, headers.entries));
      if !res.ok {
        r := Failure(RequestFailed(path, res.status));
      } else {
        r := Success(res);
      }
    }

    /** `post(path, body, options)`: always POST with `body`, whatever method or body `options` names. */
    method Post(path: string, body: Option<Body>, options: RequestOptions, fetch: Transport) returns (r: Result<Response, SessionError>)
      modifies options.headers
      ensures var given := if options.headers == null then map[] else old(options.headers.entries);
        && (options.headers != null ==> options.headers.entries == PrepareHeaders(id, Setting(config, "userAgent"), given))
        && r == Checked(path, Exchange(path, Some("POST"), body, given, fetch))
    {
      r := Request(path, options.(httpMethod := Some("POST"), body := body), fetch);
    }

    /** `login()`: posts the credentials; on success the session id is the response's `sessionId`. */
    method Login(fetch: Transport) returns (r: Result<map<string, string>, SessionError>)
      modifies this`id
      ensures var res := old(Exchange("auth/login", Some("POST"), Some(LoginForm(config)), map[], fetch));
        && (res.ok ==> r == Success(res.json) && id == Field(res.json, "sessionId"))
        && (!res.ok ==> r == Failure(RequestFailed("auth/login", res.status)) && id == old(id))
    {
      var res := Post("auth/login", Some(LoginForm(config)), RequestOptions(null, None, None), fetch);
      match res
      case Failure(e) => r := Failure(e);
      case Success(response) =>
        id := Field(response.json, "sessionId");
        r := Success(response.json);
    }

    /** `logout()`: asks the service to end the session and forgets the id whether or not that succeeds. */
    method Logout(fetch: Transport) returns (r: Result<(), SessionError>)
      modifies this`id
      ensures id == None
      ensures var res := old(Exchange("auth/logout", None, None, map[], fetch));
        r == if res.ok then Success(()) else Failure(RequestFailed("auth/logout", res.status))
    {
      var res := Request("auth/logout", RequestOptions(null, None, None), fetch);
      r := if res.Success? then Success(()) else Failure(res.error);
      id := None;
    }

    /** `details()`: the JSON body of `auth/details`. */
    method Details(fetch: Transport) returns (r: Result<map<string, string>, SessionError>)
      ensures var res := Exchange("auth/details", None, None, map[], fetch);
        r == if res.ok then Success(res.json) else Failure(RequestFailed("auth/details", res.status))
    {
      var res := Request("auth/details", RequestOptions(null, None, None), fetch);
      r := if res.Success? then Success(res.value.json) else Failure(res.error);
    }

    /** `check()`: succeeds exactly when `auth/checkSession` answers ok. */
    method Check(fetch: Transport) returns (r: Result<(), SessionError>)
      ensures var res := Exchange("auth/checkSession", None, None, map[], fetch);
        r == if res.ok then Success(()) else Failure(RequestFailed("auth/checkSession", res.status))
    {
      var res := Request("auth/checkSession", RequestOptions(null, None, None), fetch);
      r := if res.Success? then Success(()) else Failure(res.error);
    }

    /** `refresh()`: posts to `auth/refresh` with no body. */
    method Refresh(fetch: Transport) returns (r: Result<(), SessionError>)
      ensures var res := Exchange("auth/refresh", Some("POST"), None, map[], fetch);
        r == if res.ok then Success(()) else Failure(RequestFailed("auth/refresh", res.status))
    {
      var res := Post("auth/refresh", None, RequestOptions(null, None, None), fetch);
      r := if res.Success? then Success(()) else Failure(res.error);
    }
  }
}

/** The HTTP client of the frontend: its base URL and the request
    interceptor that adds the bearer token from storage. */
module Client {
  import opened Wrappers
  import opened Session
  import opened Http

  const DefaultBaseUrl := "http://localhost:8080/api"

  /** The base URL: the build-time variable when it is set and non-empty,
      else the local backend. */
  function BaseUrl(env: Option<string>): (u: string)
    ensures Truthy(env) ==> u == env.value
    ensures !Truthy(env) ==> u == DefaultBaseUrl
    ensures u != ""
  {
    if Truthy(env) then env.value else DefaultBaseUrl
  }

  /** How a page sees the answer to a request: a 2xx reply with its
      `message` field, or a rejected request with the `error` field of the
      reply, when there is one. */
  datatype Answer = Answered(message: Option<string>) | Refused(serverError: Option<string>)

  /** The answer a handler's reply turns into. `bindText` is the text of
      the binder's error, which the 400 for a malformed body carries; its
      wording comes from the JSON decoder and is left abstract. */
  function AnswerOf(r: Reply, bindText: string): (a: Answer)
    ensures a.Answered? <==> r.Success?
    ensures r.Success? && "message" in r.body && r.body["message"].JString? ==>
      a == Answered(Some(r.body["message"].s))
    ensures r.Failure? || r.FailureDetails? ==> a == Refused(Some(r.error))
    ensures r.BindFailure? ==> a == Refused(Some(bindText))
  {
    match r
    case Success(body) =>
      Answered(if "message" in body && body["message"].JString? then Some(body["message"].s) else None)
    case Failure(_, e) => Refused(Some(e))
    case FailureDetails(_, e, _) => Refused(Some(e))
    case BindFailure => Refused(Some(bindText))
  }

  /** A page shows the binder's text for a malformed body, never its own
      fallback, since a decoder error is never empty. */
  lemma BindTextShown(bindText: string, fallback: string)
    requires bindText != ""
    ensures TextOr(AnswerOf(BindFailure, bindText).serverError, fallback) == bindText
  {
  }

  /** The `text || fallback` of the pages: the server's text (the error of
      a refused request, or the message of an accepted one) when it is
      non-empty, else the page's own. */
  function TextOr(text: Option<string>, fallback: string): (e: string)
    ensures Truthy(text) ==> e == text.value
    ensures !Truthy(text) ==> e == fallback
  {
    if Truthy(text) then text.value else fallback
  }

  /** The part of an outgoing request the interceptor looks at. */
  datatype Config = Config(url: string, headers: Option<map<string, string>>)

  const Authorization := "Authorization"
  const BearerPrefix := "Bearer "

  /** The request interceptor: with a truthy `jwt` slot, read at the time
      of the request, the headers (created when absent) get the bearer
      token; otherwise the configuration goes out unchanged. */
  function Decorate(storage: Storage, c: Config): (r: Config)
    ensures r.url == c.url
    ensures !Truthy(storage.jwt) ==> r == c
    ensures Truthy(storage.jwt) ==>
      && r.headers.Some?
      && Authorization in r.headers.value
      && r.headers.value[Authorization] == BearerPrefix + storage.jwt.value
      && r.headers.value.Keys == (if c.headers.Some? then c.headers.value.Keys else {}) + {Authorization}
      && forall k :: c.headers.Some? && k in c.headers.value && k != Authorization ==>
           r.headers.value[k] == c.headers.value[k]
  {
    if Truthy(storage.jwt) then
      var base := if c.headers.Some? then c.headers.value else map[];
      c.(headers := Some(base[Authorization := BearerPrefix + storage.jwt.value]))
    else c
  }

  /** The token the backend would read back from the header. */
  function Bearer(c: Config): Option<string> {
    if c.headers.Some? && Authorization in c.headers.value
       && |BearerPrefix| <= |c.headers.value[Authorization]|
       && c.headers.value[Authorization][..|BearerPrefix|] == BearerPrefix
    then Some(c.headers.value[Authorization][|BearerPrefix|..])
    else None
  }

  /** After a login with a non-empty token every request carries exactly
      that token; after a logout no request gets one added. */
  lemma TokenFollowsSession(s: Session, reply: LoginReply, c: Config)
    requires reply.token != ""
    ensures Bearer(Decorate(Login(s, Some(reply)).storage, c)) == Some(reply.token)
    ensures Decorate(Logout(s).storage, c) == c
  {
    var h := Decorate(Login(s, Some(reply)).storage, c).headers.value[Authorization];
    assert h == BearerPrefix + reply.token;
    assert h[..|BearerPrefix|] == BearerPrefix;
    assert h[|BearerPrefix|..] == reply.token;
  }

  /** Decorating twice is decorating once. */
  lemma DecorateIdempotent(storage: Storage, c: Config)
    ensures Decorate(storage, Decorate(storage, c)) == Decorate(storage, c)
  {
    if Truthy(storage.jwt) {
      var once := Decorate(storage, c);
      var twice := Decorate(storage, once);
      assert twice.headers.value == once.headers.value;
    }
  }
}

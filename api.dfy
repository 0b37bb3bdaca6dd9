/**
 * The provider's HTTP API as the client sees it: JSON bodies, the three
 * Mailgun error kinds, the status-to-error translation, and the transport,
 * an oracle that answers each request with a status and a JSON body.
 */
module Api {
  import opened Wrappers

  /** A decoded JSON body. */
  datatype Json =
    | JNull
    | JBool(b: bool)
    | JNum(n: int)
    | JStr(s: string)
    | JArray(elems: seq<Json>)
    | JObject(fields: map<string, Json>)

  /**
   * The exceptions the client raises. The first three are the module's
   * MailgunCredentialsError, MailgunDomainError and MailgunError (the last
   * wrapping the HTTP error, of which the status is kept). ShapeError stands
   * for the Python runtime error raised when a domain listing does not have
   * the expected shape; it is not a Mailgun error.
   */
  datatype Error =
    | CredentialsError(message: string)
    | DomainError(message: string)
    | HttpError(status: int)
    | ShapeError
  {
    /** Every kind but ShapeError derives from MailgunError. */
    predicate IsMailgunError() { !ShapeError? }
  }

  /** The message MailgunCredentialsError is raised with. */
  const CredentialsMessage := "Invalid credentials"

  datatype HttpMethod = Get | Post

  /** A value of a form field or of the `files` argument, with Python truthiness. */
  datatype Value = Missing | Text(s: string) | Texts(items: seq<string>)
  {
    predicate Truthy() {
      match this
      case Missing => false
      case Text(s) => s != []
      case Texts(items) => items != []
    }
  }

  /** The form payload of a request: field name to value, as a dict. */
  type Form = map<string, Value>

  /** A file opened for binary reading; the path is all the model keeps of it. */
  datatype FileHandle = OpenedFile(path: string)

  /** One multipart file part: a field name and an open file. */
  datatype Attachment = Attachment(field: string, file: FileHandle)

  /** What the client's response cache is keyed by. */
  datatype RequestKey = RequestKey(
    verb: HttpMethod, path: string, data: Option<Form>, files: Option<seq<Attachment>>)

  datatype Auth = Basic(user: string, password: string)

  /** A request as handed to the HTTP library. */
  datatype HttpRequest = HttpRequest(
    verb: HttpMethod, url: string, data: Option<Form>, files: Option<seq<Attachment>>, auth: Auth)

  datatype Response = Response(status: int, body: Json)

  const BaseUrl := "https://api.mailgun.net/v2/"

  /** The request the client sends for a cache key, authenticated as user `api`. */
  function ToHttp(key: RequestKey, apiKey: string): (req: HttpRequest)
    ensures |BaseUrl| <= |req.url| && req.url[..|BaseUrl|] == BaseUrl && req.url[|BaseUrl|..] == key.path
    ensures req.auth == Basic("api", apiKey)
    ensures req.verb == key.verb && req.data == key.data && req.files == key.files
  {
    HttpRequest(key.verb, BaseUrl + key.path, key.data, key.files, Basic("api", apiKey))
  }

  /** Distinct keys give distinct requests, so a logged request identifies its key. */
  lemma ToHttpInjective(k1: RequestKey, k2: RequestKey, apiKey: string)
    requires ToHttp(k1, apiKey) == ToHttp(k2, apiKey)
    ensures k1 == k2
  {
    var url := ToHttp(k1, apiKey).url;
    assert k1.path == url[|BaseUrl|..] == k2.path;
  }

  /** The statuses for which the HTTP library's raise_for_status raises (4xx and 5xx). */
  predicate IsFailureStatus(status: int) {
    400 <= status < 600
  }

  /**
   * The error translation applied to every response that reaches the
   * network: 401 is a credentials error, any other failure status a
   * generic error carrying the status, anything else returns the body.
   */
  function Translate(resp: Response): (r: Result<Json, Error>)
    ensures r == Failure(CredentialsError(CredentialsMessage)) <==> resp.status == 401
    ensures r.Failure? && r.error.CredentialsError? <==> resp.status == 401
    ensures r.Failure? <==> IsFailureStatus(resp.status)
    ensures r.Failure? ==> r.error.IsMailgunError() && !r.error.DomainError?
    ensures r.Failure? && resp.status != 401 ==> r.error == HttpError(resp.status)
    ensures r.Success? ==> r.value == resp.body
  {
    if resp.status == 401 then Failure(CredentialsError(CredentialsMessage))
    else if IsFailureStatus(resp.status) then Failure(HttpError(resp.status))
    else Success(resp.body)
  }

  /**
   * The network, as an oracle: the answer to the n-th request (counting
   * from 0) is respond(n, request). The log records every request made.
   */
  class Transport {
    const respond: (nat, HttpRequest) -> Response
    var log: seq<HttpRequest>

    constructor (respond: (nat, HttpRequest) -> Response)
      ensures this.respond == respond && log == []
    {
      this.respond := respond;
      log := [];
    }

    /** The answer the next call with `req` would get. */
    function Next(req: HttpRequest): Response
      reads this
    {
      respond(|log|, req)
    }

    /** One blocking round trip. */
    method Send(req: HttpRequest) returns (resp: Response)
      modifies this
      ensures log == old(log) + [req]
      ensures resp == respond(|old(log)|, req)
    {
      resp := respond(|log|, req);
      log := log + [req];
    }
  }
}

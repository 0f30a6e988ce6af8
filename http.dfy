/** Responses, the status-code table and the response generator of
    `piecrust/http.py`, plus the request as the framework adapter hands it to
    the core. */
module Http {
  import opened Wrappers
  import opened Exceptions

  /** The exception type of the whole model: `ImmediateHttpResponse` carries
      one of the responses below. */
  type Error = Exception<Response>

  /** `PiecrustResponse` and its subclasses. */
  datatype ResponseClass =
    | PiecrustResponse
    | HttpOK
    | HttpCreated
    | HttpAccepted
    | HttpNoContent
    | HttpMultipleChoices
    | HttpSeeOther
    | HttpNotModified
    | HttpBadRequest
    | HttpUnauthorized
    | HttpForbidden
    | HttpNotFound
    | HttpMethodNotAllowed
    | HttpConflict
    | HttpGone
    | HttpApplicationError
    | HttpNotImplemented

  /** The class-level `status_code` of each response class. */
  function StatusCode(c: ResponseClass): (code: int)
    ensures 200 <= code <= 501
  {
    match c
    case PiecrustResponse => 200
    case HttpOK => 200
    case HttpCreated => 201
    case HttpAccepted => 202
    case HttpNoContent => 204
    case HttpMultipleChoices => 300
    case HttpSeeOther => 303
    case HttpNotModified => 304
    case HttpBadRequest => 400
    case HttpUnauthorized => 401
    case HttpForbidden => 403
    case HttpNotFound => 404
    case HttpMethodNotAllowed => 405
    case HttpConflict => 409
    case HttpGone => 410
    case HttpApplicationError => 500
    case HttpNotImplemented => 501
  }

  /** Each subclass has its own code; only `HttpOK` shares the base class's
      default of 200. */
  lemma StatusCodesDistinct(a: ResponseClass, b: ResponseClass)
    requires a != b && StatusCode(a) == StatusCode(b)
    ensures {a, b} == {PiecrustResponse, HttpOK}
  {
  }

  /** The success classes are exactly the ones with a 2xx code. */
  lemma SuccessClasses(c: ResponseClass)
    ensures 200 <= StatusCode(c) < 300 <==>
      c in {PiecrustResponse, HttpOK, HttpCreated, HttpAccepted, HttpNoContent}
  {
  }

  /** A response object. `headers` stands for the `response[name] = value`
      assignments the core performs; `PiecrustResponse` itself defines no
      item assignment, so their meaning is an assumption of this model. */
  datatype Response = Response(
    responseClass: ResponseClass,
    statusCode: int,
    content: Option<string>,
    extraData: map<string, string>,
    headers: map<string, string>)

  /** `PiecrustResponse.__init__(content, status_code, **kwargs)` run on an
      instance of class `cls`. */
  function Init(cls: ResponseClass, content: Option<string>, statusCode: Option<int>,
                kwargs: map<string, string>): (r: Response)
    ensures r.responseClass == cls
    ensures r.statusCode == (if statusCode.Some? then statusCode.value else StatusCode(cls))
    ensures r.content == content && r.extraData == kwargs && r.headers == map[]
  {
    Response(cls, statusCode.GetOr(StatusCode(cls)), content, kwargs, map[])
  }

  /** `response[name] = value`. */
  function SetHeader(r: Response, name: string, value: string): (r': Response)
    ensures r'.headers == r.headers[name := value]
    ensures r' == r.(headers := r'.headers)
  {
    r.(headers := r.headers[name := value])
  }

  /** `HttpCreated.__init__`: `location` is taken out of the keyword
      arguments before the base constructor runs and becomes the `Location`
      header, `''` when it was not given. */
  function CreatedInit(content: Option<string>, statusCode: Option<int>,
                       kwargs: map<string, string>): (r: Response)
    ensures r.responseClass == HttpCreated
    ensures r.statusCode == (if statusCode.Some? then statusCode.value else 201)
    ensures r.content == content
    ensures "location" !in r.extraData
    ensures r.extraData == kwargs - {"location"}
    ensures r.headers == map["Location" := if "location" in kwargs then kwargs["location"] else ""]
  {
    var location := if "location" in kwargs then kwargs["location"] else "";
    SetHeader(Init(HttpCreated, content, statusCode, kwargs - {"location"}), "Location", location)
  }

  /** Constructing a response of class `cls`: only `HttpCreated` overrides
      the constructor. */
  function New(cls: ResponseClass, content: Option<string>, statusCode: Option<int>,
               kwargs: map<string, string>): (r: Response)
    ensures r.responseClass == cls && r.content == content
    ensures statusCode.None? ==> r.statusCode == StatusCode(cls)
    ensures statusCode.Some? ==> r.statusCode == statusCode.value
    ensures cls != HttpCreated ==> r.extraData == kwargs && r.headers == map[]
    ensures cls == HttpCreated ==> r.extraData == kwargs - {"location"}
    ensures cls == HttpCreated ==>
      r.headers == map["Location" := if "location" in kwargs then kwargs["location"] else ""]
  {
    if cls == HttpCreated then CreatedInit(content, statusCode, kwargs)
    else Init(cls, content, statusCode, kwargs)
  }

  /** A bare `HttpUnauthorized()`. */
  function Unauthorized401(): (r: Response)
    ensures r.statusCode == 401 && r.content.None? && r.extraData == map[] && r.headers == map[]
  {
    New(HttpUnauthorized, None, None, map[])
  }

  /** What a framework-specific generator turns a response into. */
  datatype NativeResponse = NativeResponse(payload: string)

  /** `ResponseGenerator`: the shipped class refuses to convert anything; a
      subclass supplies its own conversion. */
  datatype ResponseGenerator =
    | ResponseGenerator
    | CustomResponseGenerator(convert: Response -> Result<NativeResponse, Error>)
  {
    function Create(response: Response): (r: Result<NativeResponse, Error>)
      ensures ResponseGenerator? ==> r.Failure? && r.error.Kind() == ImproperlyConfigured
      ensures CustomResponseGenerator? ==> r == convert(response)
    {
      match this
      case ResponseGenerator =>
        Failure(Exception(ImproperlyConfigured,
          "You must subclass 'ResponseGenerator' & implement a 'generate_http_response' method."))
      case CustomResponseGenerator(convert) => convert(response)
    }
  }

  /** The object `check_credentials` returns; `username` is absent when the
      object has no such attribute. */
  datatype Principal = Principal(id: nat, username: Option<string>)

  /** The request as the core reads it (Django-style): `META` headers, the
      `GET` and `POST` parameters, the `REQUEST` parameters (Django merges
      both into it; here it is an independent input), and
      the `user` attribute that authentication assigns (absent until then). */
  class Request {
    const httpMethod: string
    const meta: map<string, string>
    const getParams: map<string, string>
    const postParams: map<string, string>
    const requestParams: map<string, string>
    var user: Option<Principal>

    constructor(httpMethod: string, meta: map<string, string>, getParams: map<string, string>,
                postParams: map<string, string>, requestParams: map<string, string>)
      ensures this.httpMethod == httpMethod && this.meta == meta
      ensures this.getParams == getParams && this.postParams == postParams
      ensures this.requestParams == requestParams && user.None?
    {
      this.httpMethod := httpMethod;
      this.meta := meta;
      this.getParams := getParams;
      this.postParams := postParams;
      this.requestParams := requestParams;
      user := None;
    }
  }
}

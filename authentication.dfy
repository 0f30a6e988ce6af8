/** The authentication strategies of `piecrust/authentication.py`. Each
    `is_authenticated` either returns `True` (after setting `request.user`),
    returns an unauthorized response, or lets an exception escape. The pure
    `Decide` functions state that decision; the `IsAuthenticated` methods
    run the source's early-return chain and perform the `request.user`
    assignment. Library code (`base64`, `hmac`, `uuid`, `time`,
    `python_digest`) enters as uninterpreted function values. */
module Authentication {
  import opened Wrappers
  import opened Exceptions
  import opened Http
  import opened Text

  const DefaultRealm: string := "piecrust"
  const NoUser: string := "nouser"

  /** The keyword arguments each strategy passes to `check_credentials`. */
  datatype Credentials =
    | BasicCredentials(username: string, password: string)
    | ApiKeyCredentials(username: string, apiKey: string)
    | DigestCredentials(request: Request, digestResponse: string, username: string)

  /** A subclass's `check_credentials`: the user object, or the exception it
      raises (`Unauthorized` for bad credentials, anything else otherwise). */
  type CredentialCheck = Credentials -> Result<Principal, Error>

  /** The outcome of `is_authenticated`: `True` (with the principal assigned
      to `request.user`, if any), a returned response, or a raised exception. */
  datatype Decision =
    | Allow(user: Option<Principal>)
    | Deny(response: Response)
    | Raise(error: Error)

  /** The standard-library services the strategies call, with the values the
      clock and `uuid4` produce during this request. */
  datatype Platform = Platform(
    b64decode: string -> Option<string>,
    hmacSha1Hex: string -> string,
    uuid4: string,
    now: real)

  /** The `HTTP_AUTHORIZATION` header, if the request carries one. */
  function AuthorizationHeader(request: Request): (h: Option<string>)
    ensures h.Some? <==> "HTTP_AUTHORIZATION" in request.meta
    ensures h.Some? ==> h.value == request.meta["HTTP_AUTHORIZATION"]
  {
    Get(request.meta, "HTTP_AUTHORIZATION")
  }

  /** `try: user = self.check_credentials(...) except Unauthorized: return
      self._unauthorized()`, followed by the success path. */
  function Credentialed(check: CredentialCheck, credentials: Credentials, unauthorized: Response): (d: Decision)
    ensures check(credentials).Success? ==> d == Allow(Some(check(credentials).value))
    ensures check(credentials).Failure? && check(credentials).error.IsInstance(Unauthorized) ==>
      d == Deny(unauthorized)
    ensures check(credentials).Failure? && !check(credentials).error.IsInstance(Unauthorized) ==>
      d == Raise(check(credentials).error)
    ensures d.Raise? ==> !d.error.IsInstance(Unauthorized)
  {
    match check(credentials)
    case Success(user) => Allow(Some(user))
    case Failure(e) => if e.IsInstance(Unauthorized) then Deny(unauthorized) else Raise(e)
  }

  /** The outcome shared by every strategy's method: the request's user is
      assigned exactly when a principal is returned. */
  twostate predicate UserAssigned(request: Request, d: Decision)
    reads request
  {
    if d.Allow? && d.user.Some? then request.user == d.user else request.user == old(request.user)
  }

  // ---------------------------------------------------------------- base class

  /** `Authentication`: lets everyone through. */
  datatype Authentication = Authentication
  {
    function IsAuthenticated(request: Request): (d: Decision)
      ensures d.Allow? && d.user.None?
    {
      Allow(None)
    }

    /** `REMOTE_ADDR` and `REMOTE_HOST` joined by `_`, `noaddr` and `nohost`
        standing in for a missing key. */
    function GetIdentifier(request: Request): (id: string)
      ensures "REMOTE_ADDR" in request.meta && "REMOTE_HOST" in request.meta ==>
        id == request.meta["REMOTE_ADDR"] + "_" + request.meta["REMOTE_HOST"]
      ensures "REMOTE_ADDR" in request.meta && "REMOTE_HOST" !in request.meta ==>
        id == request.meta["REMOTE_ADDR"] + "_nohost"
      ensures "REMOTE_ADDR" !in request.meta && "REMOTE_HOST" in request.meta ==>
        id == "noaddr_" + request.meta["REMOTE_HOST"]
      ensures "REMOTE_ADDR" !in request.meta && "REMOTE_HOST" !in request.meta ==>
        id == "noaddr_nohost"
    {
      GetDefault(request.meta, "REMOTE_ADDR", "noaddr") + "_" + GetDefault(request.meta, "REMOTE_HOST", "nohost")
    }
  }

  /** The base identifier can be taken apart again: when the address holds
      no `_`, splitting at the first `_` yields the address and the host. */
  lemma {:induction false} BaseIdentifierParts(a: Authentication, request: Request)
    requires '_' !in GetDefault(request.meta, "REMOTE_ADDR", "noaddr")
    ensures SplitFirst(a.GetIdentifier(request), '_') ==
      Some((GetDefault(request.meta, "REMOTE_ADDR", "noaddr"), GetDefault(request.meta, "REMOTE_HOST", "nohost")))
    ensures "REMOTE_ADDR" !in request.meta ==> SplitFirst(a.GetIdentifier(request), '_').value.0 == "noaddr"
    ensures "REMOTE_HOST" !in request.meta ==> SplitFirst(a.GetIdentifier(request), '_').value.1 == "nohost"
  {
    SplitFirstAt(GetDefault(request.meta, "REMOTE_ADDR", "noaddr"), '_', GetDefault(request.meta, "REMOTE_HOST", "nohost"));
  }

  // ------------------------------------------------------------------- Basic

  /** The `backend` argument the strategies store and never consult. */
  datatype Backend = Backend(name: string)

  datatype BasicAuthentication = BasicAuthentication(
    backend: Option<Backend>,
    realm: string,
    checkCredentials: CredentialCheck)
  {
    /** `_unauthorized`: a 401 carrying `WWW-Authenticate: Basic
        Realm="<realm>"`, with the capital `R` the source writes. */
    function UnauthorizedResponse(): (r: Response)
      ensures r.statusCode == 401 && r.responseClass == HttpUnauthorized
      ensures r.headers == map["WWW-Authenticate" := "Basic Realm=\"" + realm + "\""]
      ensures r.content.None? && r.extraData == map[]
    {
      SetHeader(Unauthorized401(), "WWW-Authenticate", "Basic Realm=\"" + realm + "\"")
    }

    /** The decision `is_authenticated` makes. */
    function Decide(request: Request, platform: Platform): (d: Decision)
      ensures !Truthy(AuthorizationHeader(request)) ==> d == Deny(UnauthorizedResponse())
      ensures d.Deny? ==> d.response == UnauthorizedResponse()
      ensures d.Allow? ==> d.user.Some?
      ensures d.Raise? ==> !d.error.IsInstance(Unauthorized)
    {
      var header := AuthorizationHeader(request);
      if !Truthy(header) then Deny(UnauthorizedResponse())
      else
        var tokens := Tokens(header.value);
        if |tokens| != 2 || tokens[0] != "Basic" then Deny(UnauthorizedResponse())
        else
          match platform.b64decode(tokens[1])
          case None => Deny(UnauthorizedResponse())
          case Some(userPass) =>
            match SplitFirst(userPass, ':')
            case None => Deny(UnauthorizedResponse())
            case Some(bits) =>
              Credentialed(checkCredentials, BasicCredentials(bits.0, bits.1), UnauthorizedResponse())
    }

    method IsAuthenticated(request: Request, platform: Platform) returns (d: Decision)
      modifies request
      ensures d == Decide(request, platform)
      ensures UserAssigned(request, d)
    {
      var header := AuthorizationHeader(request);
      if !Truthy(header) {
        return Deny(UnauthorizedResponse());
      }
      var tokens := Tokens(header.value);
      if |tokens| != 2 || tokens[0] != "Basic" {
        return Deny(UnauthorizedResponse());
      }
      var userPass := platform.b64decode(tokens[1]);
      if userPass.None? {
        return Deny(UnauthorizedResponse());
      }
      var bits := SplitFirst(userPass.value, ':');
      if bits.None? {
        return Deny(UnauthorizedResponse());
      }
      var user := checkCredentials(BasicCredentials(bits.value.0, bits.value.1));
      if user.Failure? {
        if user.error.IsInstance(Unauthorized) {
          return Deny(UnauthorizedResponse());
        }
        return Raise(user.error);
      }
      request.user := Some(user.value);
      return Allow(Some(user.value));
    }

    /** `REMOTE_USER`, or `nouser`. */
    function GetIdentifier(request: Request): (id: string)
      ensures "REMOTE_USER" in request.meta ==> id == request.meta["REMOTE_USER"]
      ensures "REMOTE_USER" !in request.meta ==> id == NoUser
    {
      GetDefault(request.meta, "REMOTE_USER", NoUser)
    }
  }

  /** `BasicAuthentication(backend=None, realm=None)`: the realm stays
      `piecrust` unless a realm is given. */
  function NewBasicAuthentication(check: CredentialCheck, backend: Option<Backend> := None,
                                  realm: Option<string> := None): (a: BasicAuthentication)
    ensures a.backend == backend && a.checkCredentials == check
    ensures a.realm == if realm.Some? then realm.value else DefaultRealm
  {
    BasicAuthentication(backend, realm.GetOr(DefaultRealm), check)
  }

  /** Each malformed header earns the Basic challenge. */
  lemma BasicChallenges(a: BasicAuthentication, request: Request, platform: Platform)
    requires Truthy(AuthorizationHeader(request))
    ensures var tokens := Tokens(AuthorizationHeader(request).value);
      (|tokens| != 2 || tokens[0] != "Basic" ||
       platform.b64decode(tokens[1]).None? ||
       ':' !in platform.b64decode(tokens[1]).value) ==>
      a.Decide(request, platform) == Deny(a.UnauthorizedResponse())
  {
  }

  /** A header that splits into `Basic` and `data` (with any whitespace
      around and between them, see `TokensOfTwo`) and whose payload decodes
      to `user:pass` hands the text before the FIRST colon as the username
      and everything after it, later colons included, as the password. */
  lemma BasicWellFormedHeader(a: BasicAuthentication, request: Request, platform: Platform,
                              data: string, username: string, password: string)
    requires AuthorizationHeader(request).Some?
    requires Tokens(AuthorizationHeader(request).value) == ["Basic", data]
    requires platform.b64decode(data) == Some(username + [':'] + password)
    requires ':' !in username
    ensures a.Decide(request, platform) ==
      Credentialed(a.checkCredentials, BasicCredentials(username, password), a.UnauthorizedResponse())
  {
    assert AuthorizationHeader(request).value != [];
    SplitFirstAt(username, ':', password);
  }

  /** Accepted credentials in a well-formed header authenticate. */
  lemma BasicAcceptsCredentials(a: BasicAuthentication, request: Request, platform: Platform,
                                data: string, username: string, password: string, user: Principal)
    requires AuthorizationHeader(request).Some?
    requires Tokens(AuthorizationHeader(request).value) == ["Basic", data]
    requires platform.b64decode(data) == Some(username + [':'] + password)
    requires ':' !in username
    requires a.checkCredentials(BasicCredentials(username, password)) == Success(user)
    ensures a.Decide(request, platform) == Allow(Some(user))
  {
    BasicWellFormedHeader(a, request, platform, data, username, password);
  }

  // ------------------------------------------------------------------ ApiKey

  /** `request.GET.get(name) or request.POST.get(name)`. */
  function Param(request: Request, name: string): (v: Option<string>)
    ensures Truthy(Get(request.getParams, name)) ==> v == Some(request.getParams[name])
    ensures !Truthy(Get(request.getParams, name)) ==> v == Get(request.postParams, name)
  {
    Or(Get(request.getParams, name), Get(request.postParams, name))
  }

  datatype ApiKeyAuthentication = ApiKeyAuthentication(checkCredentials: CredentialCheck)
  {
    /** `_unauthorized`: a bare 401 with no challenge header. */
    function UnauthorizedResponse(): (r: Response)
      ensures r.statusCode == 401 && r.headers == map[]
    {
      Unauthorized401()
    }

    function Decide(request: Request): (d: Decision)
      ensures !Truthy(Param(request, "username")) || !Truthy(Param(request, "api_key")) ==>
        d == Deny(UnauthorizedResponse())
      ensures Truthy(Param(request, "username")) && Truthy(Param(request, "api_key")) ==>
        d == Credentialed(checkCredentials,
          ApiKeyCredentials(Param(request, "username").value, Param(request, "api_key").value),
          UnauthorizedResponse())
      ensures d.Deny? ==> d.response == UnauthorizedResponse()
      ensures d.Raise? ==> !d.error.IsInstance(Unauthorized)
    {
      var username := Param(request, "username");
      var apiKey := Param(request, "api_key");
      if !Truthy(username) || !Truthy(apiKey) then Deny(UnauthorizedResponse())
      else Credentialed(checkCredentials, ApiKeyCredentials(username.value, apiKey.value), UnauthorizedResponse())
    }

    method IsAuthenticated(request: Request) returns (d: Decision)
      modifies request
      ensures d == Decide(request)
      ensures UserAssigned(request, d)
    {
      var username := Param(request, "username");
      var apiKey := Param(request, "api_key");
      if !Truthy(username) || !Truthy(apiKey) {
        return Deny(UnauthorizedResponse());
      }
      var user := checkCredentials(ApiKeyCredentials(username.value, apiKey.value));
      if user.Failure? {
        if user.error.IsInstance(Unauthorized) {
          return Deny(UnauthorizedResponse());
        }
        return Raise(user.error);
      }
      request.user := Some(user.value);
      return Allow(Some(user.value));
    }

    /** `request.REQUEST.get('username', 'nouser')`. */
    function GetIdentifier(request: Request): (id: string)
      ensures "username" in request.requestParams ==> id == request.requestParams["username"]
      ensures "username" !in request.requestParams ==> id == NoUser
    {
      GetDefault(request.requestParams, "username", NoUser)
    }
  }

  /** A missing or empty credential is refused before `check_credentials`
      is consulted: the decision is the same whatever that check does. */
  lemma ApiKeyMissingSkipsCheck(request: Request, c1: CredentialCheck, c2: CredentialCheck)
    requires !Truthy(Param(request, "username")) || !Truthy(Param(request, "api_key"))
    ensures ApiKeyAuthentication(c1).Decide(request) == ApiKeyAuthentication(c2).Decide(request)
    ensures ApiKeyAuthentication(c1).Decide(request).Deny?
  {
  }

  /** A truthy query parameter wins over the form body; an empty one falls
      through to it. */
  lemma ApiKeyQueryFirst(request: Request, name: string)
    ensures name in request.getParams && request.getParams[name] != [] ==>
      Param(request, name) == Some(request.getParams[name])
    ensures (name !in request.getParams || request.getParams[name] == []) ==>
      Param(request, name) == Get(request.postParams, name)
  {
  }

  // ------------------------------------------------------------------ Digest

  /** The fields of a parsed `Authorization: Digest ...` header that the
      strategy reads. */
  datatype DigestResponse = DigestResponse(username: string, nonce: string, response: string)

  /** The `python_digest` functions the strategy calls. */
  datatype DigestLibrary = DigestLibrary(
    buildDigestChallenge: (real, Option<string>, string, string, bool) -> string,
    parseDigestCredentials: string -> Result<DigestResponse, Error>,
    validateNonce: (string, Option<string>) -> bool)

  /** A constructed `DigestAuthentication`. `secretKey` is the class-level
      `secret_key` attribute, which is what the instance reads: the
      constructor's `secret_key` argument is only checked, never stored. */
  datatype DigestAuthentication = DigestAuthentication(
    backend: Option<Backend>,
    realm: string,
    secretKey: Option<string>,
    digest: DigestLibrary,
    checkCredentials: CredentialCheck)
  {
    /** `_unauthorized`: a 401 whose `WWW-Authenticate` header is a fresh
        digest challenge built from the clock, the secret key, the realm, an
        opaque value `hmac(str(uuid4()), sha1)` and `stale=False`. */
    function Challenge(platform: Platform): (r: Response)
      ensures r.statusCode == 401 && r.content.None? && r.extraData == map[]
      ensures r.headers == map["WWW-Authenticate" :=
        digest.buildDigestChallenge(platform.now, secretKey, realm, platform.hmacSha1Hex(platform.uuid4), false)]
    {
      SetHeader(Unauthorized401(), "WWW-Authenticate",
        digest.buildDigestChallenge(platform.now, secretKey, realm, platform.hmacSha1Hex(platform.uuid4), false))
    }

    function Decide(request: Request, platform: Platform): (d: Decision)
      ensures !Truthy(AuthorizationHeader(request)) ==> d == Deny(Challenge(platform))
      ensures d.Deny? ==> d.response == Challenge(platform)
      ensures d.Allow? ==> d.user.Some?
      ensures d.Raise? ==> (
        Truthy(AuthorizationHeader(request)) &&
        var parsed := digest.parseDigestCredentials(AuthorizationHeader(request).value);
        (parsed.Failure? && d.error == parsed.error) || !d.error.IsInstance(Unauthorized))
    {
      var header := AuthorizationHeader(request);
      if !Truthy(header) then Deny(Challenge(platform))
      else
        match SplitFirst(header.value, ' ')
        case None => Deny(Challenge(platform))
        case Some(parts) =>
          if parts.0 != "Digest" then Deny(Challenge(platform))
          else
            match digest.parseDigestCredentials(header.value)
            case Failure(e) => Raise(e)
            case Success(dr) =>
              if !digest.validateNonce(dr.nonce, secretKey) then Deny(Challenge(platform))
              else Credentialed(checkCredentials, DigestCredentials(request, dr.response, dr.username), Challenge(platform))
    }

    method IsAuthenticated(request: Request, platform: Platform) returns (d: Decision)
      modifies request
      ensures d == Decide(request, platform)
      ensures UserAssigned(request, d)
    {
      var header := AuthorizationHeader(request);
      if !Truthy(header) {
        return Deny(Challenge(platform));
      }
      var parts := SplitFirst(header.value, ' ');
      if parts.None? || parts.value.0 != "Digest" {
        return Deny(Challenge(platform));
      }
      var parsed := digest.parseDigestCredentials(header.value);
      if parsed.Failure? {
        return Raise(parsed.error);
      }
      var digestResponse := parsed.value;
      if !digest.validateNonce(digestResponse.nonce, secretKey) {
        return Deny(Challenge(platform));
      }
      var user := checkCredentials(DigestCredentials(request, digestResponse.response, digestResponse.username));
      if user.Failure? {
        if user.error.IsInstance(Unauthorized) {
          return Deny(Challenge(platform));
        }
        return Raise(user.error);
      }
      request.user := Some(user.value);
      return Allow(Some(user.value));
    }

    /** The username of the user already on the request, or `nouser`. */
    function GetIdentifier(request: Request): (id: string)
      reads request
      ensures request.user.Some? && request.user.value.username.Some? ==> id == request.user.value.username.value
      ensures request.user.None? || request.user.value.username.None? ==> id == NoUser
    {
      if request.user.Some? && request.user.value.username.Some? then request.user.value.username.value
      else NoUser
    }
  }

  const MissingDigestLibrary: string :=
    "The 'python_digest' package could not be imported. It is required for use with the 'DigestAuthentication' class."
  const MissingSecretKey: string := "The 'DigestAuthentication' class requires a secret key."

  /** `DigestAuthentication(backend=None, realm=None, secret_key=None)` in a
      class whose `secret_key` attribute is `classSecretKey`, with
      `python_digest` importable or not. */
  function NewDigestAuthentication(check: CredentialCheck, digest: Option<DigestLibrary>,
                                   classSecretKey: Option<string>, backend: Option<Backend> := None,
                                   realm: Option<string> := None, secretKey: Option<string> := None)
    : (r: Result<DigestAuthentication, Error>)
    ensures digest.None? ==> r == Failure(Exception(ImproperlyConfigured, MissingDigestLibrary))
    ensures digest.Some? && secretKey.None? && classSecretKey.None? ==>
      r == Failure(Exception(ImproperlyConfigured, MissingSecretKey))
    ensures r.Success? <==> digest.Some? && (secretKey.Some? || classSecretKey.Some?)
    ensures r.Success? ==> r.value.secretKey == classSecretKey && r.value.digest == digest.value
    ensures r.Success? ==> r.value.realm == (if realm.Some? then realm.value else DefaultRealm)
    ensures r.Success? ==> r.value.backend == backend && r.value.checkCredentials == check
  {
    var realm' := realm.GetOr(DefaultRealm);
    if digest.None? then Failure(Exception(ImproperlyConfigured, MissingDigestLibrary))
    else if secretKey.None? && classSecretKey.None? then Failure(Exception(ImproperlyConfigured, MissingSecretKey))
    else Success(DigestAuthentication(backend, realm', classSecretKey, digest.value, check))
  }

  /** The `secret_key` argument only opens the constructor's guard: two
      different keys build the same strategy, which signs and validates with
      the class attribute (possibly `None`). */
  lemma DigestSecretKeyArgumentIgnored(check: CredentialCheck, digest: DigestLibrary,
                                       classSecretKey: Option<string>, k1: string, k2: string)
    ensures NewDigestAuthentication(check, Some(digest), classSecretKey, None, None, Some(k1)) ==
            NewDigestAuthentication(check, Some(digest), classSecretKey, None, None, Some(k2))
    ensures NewDigestAuthentication(check, Some(digest), None, None, None, Some(k1)).value.secretKey.None?
  {
  }

  /** Missing header, no space to split at, or a scheme other than exactly
      `Digest` earns the challenge. */
  lemma DigestChallenges(a: DigestAuthentication, request: Request, platform: Platform)
    requires Truthy(AuthorizationHeader(request))
    ensures var h := AuthorizationHeader(request).value;
      (' ' !in h || SplitFirst(h, ' ').value.0 != "Digest") ==>
      a.Decide(request, platform) == Deny(a.Challenge(platform))
  {
  }

  /** A nonce that `validate_nonce` rejects earns the challenge without
      `check_credentials` being consulted. */
  lemma DigestStaleNonceSkipsCheck(a: DigestAuthentication, request: Request, platform: Platform,
                                   rest: string, dr: DigestResponse, other: CredentialCheck)
    requires AuthorizationHeader(request) == Some("Digest" + [' '] + rest)
    requires a.digest.parseDigestCredentials("Digest" + [' '] + rest) == Success(dr)
    requires !a.digest.validateNonce(dr.nonce, a.secretKey)
    ensures a.Decide(request, platform) == Deny(a.Challenge(platform))
    ensures a.(checkCredentials := other).Decide(request, platform) == Deny(a.Challenge(platform))
  {
    SplitFirstAt("Digest", ' ', rest);
  }

  /** With a valid nonce the decision is the credential check's, its
      `Unauthorized` turned into the challenge. */
  lemma DigestValidNonceDelegates(a: DigestAuthentication, request: Request, platform: Platform,
                                  rest: string, dr: DigestResponse)
    requires AuthorizationHeader(request) == Some("Digest" + [' '] + rest)
    requires a.digest.parseDigestCredentials("Digest" + [' '] + rest) == Success(dr)
    requires a.digest.validateNonce(dr.nonce, a.secretKey)
    ensures a.Decide(request, platform) ==
      Credentialed(a.checkCredentials, DigestCredentials(request, dr.response, dr.username), a.Challenge(platform))
  {
    SplitFirstAt("Digest", ' ', rest);
  }
}

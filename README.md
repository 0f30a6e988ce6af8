# piecrust request gating and resource registry, in Dafny

This project models the framework-independent core of piecrust, a REST API
toolkit. It covers how a request is let through, and how resources are
registered and discovered:

- **Throttling** (`Throttle`, from `piecrust/throttle.py`):
  - `BaseThrottle`'s constructor defaults;
  - the cache-key sanitiser `convert_identifier_to_key`, modelled as a loop proved against a filter function;
  - the no-op throttling decision and the no-op access recorder.
- **Authentication** (`Authentication`, from `piecrust/authentication.py`):
  - the base strategy, plus the HTTP Basic, API-key and HTTP Digest strategies;
  - the base strategy's `is_authenticated` is a function that allows every request;
  - the Basic, API-key and Digest `is_authenticated` are methods that assign `request.user`, each proved equal to a pure decision function `Decide`;
  - a decision is `Allow(user)`, `Deny(response)` (the strategy's 401), or `Raise(error)` for an error that propagates: one `check_credentials` raises that is not an `Unauthorized`, or, for Digest, the failure of `parse_digest_credentials`;
  - `get_identifier` fallbacks, and the constructor configuration guards.
- **Registry** (`Api`, from `piecrust/api.py`):
  - an `Api` class whose `registry` and `canonicals` maps are updated in place by `Register` and `Unregister`;
  - a log of emitted warnings;
  - the canonical lookup;
  - the discovery document and JSONP gate of `top_level`.
- **Authorization** (`Authorization`): the open and read-only policies, and the `__get__` descriptor rebind.
- **Responses** (`Http`): the response status-code table, the response constructors, and the default response generator.
- **Exceptions** (`Exceptions`): the exception hierarchy as a datatype with an `IsA` relation, and the `ImmediateHttpResponse` payload.
- **Cache and validation** (`Cache`, `Validation`):
  - the no-op cache and the `MemcacheCache` construction guard;
  - the validation stub.

Two support modules hold the Python semantics the code relies on:

- `Wrappers` provides `Option` and `Result`.
- `Text` provides:
  - `str.split()` (`Tokens`) and `str.split(sep, 1)` (`SplitFirst`);
  - substring `in` (`Contains`) and `dict.get` (`Get`, `GetDefault`);
  - truthiness of an optional string (`Truthy`) and `a or b` (`Or`).

Outside collaborators are function values held in the model:

- `check_credentials`, `base64.b64decode` (partial, returning `Option`);
- HMAC-SHA1, `uuid4` and `time.time`;
- the `python_digest` functions;
- URL reversal, format negotiation, serialisation, content-type building and the JSONP-name check.

Assumptions:

- `PiecrustResponse` (`piecrust/http.py:55-63`) defines no item assignment. The source nevertheless writes `response['WWW-Authenticate'] = …` and `self['Location'] = …`. The model takes every such write to mean "set this response header", through `Http.SetHeader`.
- The piecrust exceptions (the thirteen classes of `piecrust/exceptions.py`) become `Exceptions.Exception` values carried in `Result.Failure` or in `Decision.Raise`; errors outside that hierarchy have no value in the model (see "## Left out"). `except Unauthorized:` becomes `IsInstance(Unauthorized)`, which also catches subclasses.
- `str.isalnum()` is taken as ASCII letters and digits.
- `int()` on a number truncates toward zero (`Throttle.PyInt`).
- `canonical is True` is modelled by a flag that separates the `True` singleton from every other value, truthy or not.

## Model

| member | source | states |
|---|---|---|
| Text.IsSpace | piecrust/authentication.py:92 | Python 2 `str.isspace()` on one character: the space and the control characters tab through carriage return (9 to 13), the separators of `split()` |
| Text.Tokens | piecrust/authentication.py:92 | `str.split()`: every token is non-empty and whitespace-free, and there is no token exactly when the string is all whitespace |
| Text.TokensSkipSpace | piecrust/authentication.py:92 | leading whitespace yields no token |
| Text.TokensOfWordThen | piecrust/authentication.py:92 | a word followed by whitespace or the end of the string is the next token, and splitting continues after it |
| Text.TokensHead | piecrust/authentication.py:92 | the first token is preceded by whitespace only and followed by whitespace or the end, and the rest splits into the remaining tokens |
| Text.TokensOfTwo | piecrust/authentication.py:92 | two words with any whitespace before, between (non-empty) and after split into exactly those two tokens |
| Text.TokensOfTwoShape | piecrust/authentication.py:92 | conversely, a string with exactly two tokens is those words with whitespace before, between (non-empty) and after |
| Text.TokensExample | piecrust/authentication.py:92 | ` Basic<TAB>ab ` splits into `Basic` and `ab` |
| Text.SplitFirst | piecrust/authentication.py:99 | `split(sep, 1)` succeeds iff `sep` occurs; then `before + sep + after` is the input and `before` has no `sep` |
| Text.SplitFirstAt | piecrust/authentication.py:99 | splitting `a + sep + b` with `sep` not in `a` gives exactly `(a, b)`, so later separators stay in `b` |
| Text.Or | piecrust/authentication.py:139-140 | `a or b` yields `a` when it is a non-empty string, otherwise `b` |
| Text.ContainsIff | piecrust/api.py:123 | substring `in` holds exactly when the substring occurs at some index |
| Text.Get | piecrust/authentication.py:88 | `dict.get(k)`: present exactly when `k` is a key, and then its value |
| Text.Truthy | piecrust/authentication.py:142 | `not x` on an optional string: false exactly for `None` and `''` |
| Text.GetDefault | piecrust/authentication.py:39 | `dict.get(k, d)` is the value when `k` is present, else `d` |
| Throttle.NewBaseThrottle | piecrust/throttle.py:18-27 | `throttle_at` and `timeframe` stored as given; an absent `expiration` becomes 604800, a given one is stored through `int()` |
| Throttle.DefaultThrottle | piecrust/throttle.py:18-27 | defaults 150 / 3600 / 604800, and a fractional expiration is truncated |
| Throttle.PyInt | piecrust/throttle.py:27 | truncation toward zero, bounded within one of its argument |
| Throttle.IsAllowed | piecrust/throttle.py:37 | `_`, `.` and `-` are kept, and every kept character lies in the printable ASCII range `-` to `z` |
| Throttle.Sanitized | piecrust/throttle.py:34-40 | the kept characters are no more than the input's and all allowed |
| Throttle.BaseThrottle.ConvertIdentifierToKey | piecrust/throttle.py:29-41 | the loop's key is `KeyFor(identifier)`: the allowed characters of the identifier, in order, followed by `_accesses` |
| Throttle.KeyFor | piecrust/throttle.py:41 | every key ends in `_accesses`, and its prefix is the sanitised identifier |
| Throttle.KeyAlphabet | piecrust/throttle.py:36-41 | every character of a key, suffix included, is an ASCII letter, digit, `_`, `.` or `-` |
| Throttle.SanitizedIsSubsequence | piecrust/throttle.py:34-40 | the prefix is a subsequence of the identifier |
| Throttle.SanitizedCounts | piecrust/throttle.py:36-38 | each allowed character is kept exactly as often as it occurs, no other character is kept |
| Throttle.SanitizedAppend | piecrust/throttle.py:36-38 | sanitising distributes over concatenation, so order is preserved |
| Throttle.SanitizedAllAllowed | piecrust/throttle.py:34-41 | an identifier of allowed characters only is kept whole |
| Throttle.SanitizedIdempotent | piecrust/throttle.py:34-41 | sanitising twice equals sanitising once |
| Throttle.KeyForSpecialCases | piecrust/throttle.py:34-41 | the empty identifier maps to `_accesses`; an all-allowed identifier maps to itself plus `_accesses` |
| Throttle.SanitizedNoneAllowed | piecrust/throttle.py:36-38 | a string with no allowed character vanishes |
| Throttle.InjectionStripped | piecrust/throttle.py:34-41 | disallowed characters between two clean parts disappear from the key |
| Throttle.InjectedAddressExample | piecrust/throttle.py:34-41 | `10.0.0.1; DROP` maps to `10.0.0.1DROP_accesses`: the injected separator is stripped |
| Throttle.PlainAddressExample | piecrust/throttle.py:34-41 | `10.0.0.1` maps to `10.0.0.1_accesses`: a clean address is kept whole |
| Throttle.BaseThrottle.ShouldBeThrottled | piecrust/throttle.py:43-50 | never throttles |
| Throttle.BaseThrottle.Accessed | piecrust/throttle.py:52-58 | recording an access leaves the throttle unchanged |
| Throttle.NeverThrottles | piecrust/throttle.py:43-58 | after any sequence of recorded accesses the throttle is unchanged and still throttles nobody |
| Throttle.RecordAllUnchanged | piecrust/throttle.py:52-58 | any number of recorded accesses leave the throttle as it was |
| Exceptions.IsA | piecrust/exceptions.py:1-82 | a kind is a subclass of an ancestor only when it is that ancestor or lies strictly deeper in the hierarchy |
| Exceptions.Exception.IsInstance | piecrust/authentication.py:106 | `except C:` catches an exception of class `C` or of a subclass: every exception is an instance of its own class and of `PiecrustError`, and of no deeper class |
| Exceptions.Parent | piecrust/exceptions.py:1-82 | only `PiecrustError` has no base; each base is strictly shallower |
| Exceptions.EveryKindIsPiecrustError | piecrust/exceptions.py:1-95 | every declared exception is a `PiecrustError` |
| Exceptions.IsATransitive | piecrust/exceptions.py:1-95 | the subclass relation is transitive |
| Exceptions.IsAAntisymmetric | piecrust/exceptions.py:1-95 | two distinct kinds are never subclasses of each other |
| Exceptions.FilterAndSortErrors | piecrust/exceptions.py:66-79 | `InvalidFilterError` is a `BadRequest`; `InvalidSortError` is not, and derives directly from `PiecrustError` |
| Exceptions.ConfigurationKindsUnrelated | piecrust/exceptions.py:6-28 | `Unauthorized`, `ImproperlyConfigured` and `NotRegistered` are pairwise unrelated |
| Exceptions.NewImmediateHttpResponse | piecrust/exceptions.py:82-94 | the exception is a `PiecrustError` of kind `ImmediateHttpResponse` carrying exactly its response |
| Http.StatusCode | piecrust/http.py:55-137 | every status is between 200 and 501 |
| Http.StatusCodesDistinct | piecrust/http.py:55-137 | two response classes share a status only when they are the base class and `HttpOK` |
| Http.SuccessClasses | piecrust/http.py:55-89 | the 2xx classes are exactly the base, OK, Created, Accepted and NoContent |
| Http.Init | piecrust/http.py:55-63 | the class default status unless `status_code` is given; content and keyword arguments stored verbatim |
| Http.SetHeader | piecrust/http.py:81 | an assumed header write: that one header is set, the rest of the response is unchanged |
| Http.CreatedInit | piecrust/http.py:70-81 | `location` is removed from the stored keyword arguments and becomes the `Location` header, default `''` |
| Http.New | piecrust/http.py:55-137 | instantiating any response class: its status, content and keyword arguments, no headers; for `HttpCreated`, `location` removed from the keyword arguments and the only header `Location`, set to that value or `''` |
| Http.Unauthorized401 | piecrust/http.py:108-109 | the bare 401 response |
| Http.ResponseGenerator.Create | piecrust/http.py:46-52 | the default generator always raises `ImproperlyConfigured`; a custom one is its conversion |
| Authentication.AuthorizationHeader | piecrust/authentication.py:88 | the header is present iff `HTTP_AUTHORIZATION` is in META, and then it is that META value |
| Authentication.Credentialed | piecrust/authentication.py:104-110 | success allows the returned principal; an `Unauthorized` becomes the strategy's 401; any other error propagates and is never `Unauthorized` |
| Authentication.Authentication.IsAuthenticated | piecrust/authentication.py:24-31 | the base strategy allows every request and assigns no user |
| Authentication.Authentication.GetIdentifier | piecrust/authentication.py:33-39 | by the presence of `REMOTE_ADDR` and `REMOTE_HOST`: each present value, or `noaddr`/`nohost` in its place, joined by an underscore |
| Authentication.BaseIdentifierParts | piecrust/authentication.py:39 | the identifier splits back into the address part and the host part, with the fallbacks |
| Authentication.BasicAuthentication.UnauthorizedResponse | piecrust/authentication.py:75-79 | a 401 carrying only `WWW-Authenticate: Basic Realm="<realm>"`, capital R |
| Authentication.BasicAuthentication.Decide | piecrust/authentication.py:81-110 | a missing or empty header is challenged; every denial is that challenge; an allowed request has a user; `Unauthorized` never escapes |
| Authentication.BasicAuthentication.IsAuthenticated | piecrust/authentication.py:81-110 | the early-return chain equals `Decide`, and `request.user` is assigned exactly when the decision allows |
| Authentication.BasicChallenges | piecrust/authentication.py:88-102 | a header that is not two tokens, a scheme other than `Basic`, a payload that fails to decode, or a payload with no colon is challenged |
| Authentication.BasicWellFormedHeader | piecrust/authentication.py:92-105 | a header that splits into `Basic` and a payload (any whitespace layout) decoding to a string with a colon hands `check_credentials` the text before the first colon and everything after it |
| Authentication.BasicAcceptsCredentials | piecrust/authentication.py:92-110 | for such a header, credentials the check accepts let the request through with that user |
| Authentication.BasicAuthentication.GetIdentifier | piecrust/authentication.py:112-118 | `REMOTE_USER`, or `nouser` |
| Authentication.NewBasicAuthentication | piecrust/authentication.py:67-73 | `realm` is `piecrust` unless a non-`None` realm is given; the backend is stored |
| Authentication.Param | piecrust/authentication.py:139-140 | the GET value when it is non-empty, otherwise whatever POST holds |
| Authentication.ApiKeyAuthentication.UnauthorizedResponse | piecrust/authentication.py:129-130 | a 401 with no challenge header |
| Authentication.ApiKeyAuthentication.Decide | piecrust/authentication.py:132-151 | a missing or empty username or key is denied; otherwise the decision is the credential check's; `Unauthorized` never escapes |
| Authentication.ApiKeyAuthentication.IsAuthenticated | piecrust/authentication.py:132-151 | equals `Decide`, and assigns `request.user` exactly when allowed |
| Authentication.ApiKeyMissingSkipsCheck | piecrust/authentication.py:142-143 | with a value missing, the result is a denial that does not depend on `check_credentials` |
| Authentication.ApiKeyQueryFirst | piecrust/authentication.py:139-140 | a non-empty GET value wins over POST; otherwise POST is used |
| Authentication.ApiKeyAuthentication.GetIdentifier | piecrust/authentication.py:153-159 | `REQUEST['username']`, or `nouser` |
| Authentication.DigestAuthentication.Challenge | piecrust/authentication.py:194-199 | a 401 whose only header is the library's challenge for the current time, class secret key, realm, a fresh HMAC-SHA1 opaque value, and stale false |
| Authentication.DigestAuthentication.Decide | piecrust/authentication.py:201-230 | a missing header is challenged; every denial is the challenge; an allowed request has a user; a raised error is the parser's or is not `Unauthorized` |
| Authentication.DigestAuthentication.IsAuthenticated | piecrust/authentication.py:201-230 | equals `Decide`, and assigns `request.user` exactly when allowed |
| Authentication.DigestChallenges | piecrust/authentication.py:208-217 | a header with no space, or a scheme other than `Digest`, is challenged |
| Authentication.DigestStaleNonceSkipsCheck | piecrust/authentication.py:219-222 | a nonce the library rejects is challenged, whatever `check_credentials` would say |
| Authentication.DigestValidNonceDelegates | piecrust/authentication.py:219-230 | a valid nonce hands the request, the response digest and the username to `check_credentials` |
| Authentication.DigestAuthentication.GetIdentifier | piecrust/authentication.py:238-248 | the assigned user's username, or `nouser` |
| Authentication.NewDigestAuthentication | piecrust/authentication.py:182-192 | fails with `ImproperlyConfigured` without the library, or when both secret keys are `None`; otherwise the class secret key is kept and the realm defaults to `piecrust` |
| Authentication.DigestSecretKeyArgumentIgnored | piecrust/authentication.py:182-192 | the `secret_key` argument only passes the guard and is never stored |
| Authorization.Authorization.DescriptorGet | piecrust/authorization.py:5-12 | stores the accessing instance as `resource_meta` and returns the same object |
| Authorization.Authorization.IsAuthorized | piecrust/authorization.py:14-39 | the open policy allows everything; read-only allows exactly the method `GET` |
| Authorization.ObjectIgnored | piecrust/authorization.py:14-39 | the `object` argument never changes the answer |
| Authorization.ReadOnlyIsExact | piecrust/authorization.py:32-39 | `get`, `HEAD`, `OPTIONS`, `POST`, `PUT` and `DELETE` are denied |
| Authorization.RebindToLastOwner | piecrust/authorization.py:5-12 | two accesses return one shared object whose `resource_meta` is the last accessor |
| Cache.NoCache.Get | piecrust/cache.py:14-18 | every lookup misses |
| Cache.NoCache.Set | piecrust/cache.py:20-24 | setting leaves the cache unchanged (default timeout 60) |
| Cache.GetAfterSets | piecrust/cache.py:14-24 | after any sequence of sets every key still misses |
| Cache.NewMemcacheCache | piecrust/cache.py:27-32 | fails with `ImproperlyConfigured` exactly when `pylibmc` is unavailable; otherwise a client built from the same positional and keyword arguments |
| Validation.NewValidation | piecrust/validation.py:5-6 | any keyword options are accepted and none is stored: every validator is the same value |
| Validation.Validation.IsValid | piecrust/validation.py:8-18 | the error mapping is empty, which means the bundle passes |
| Validation.EveryBundleValidates | piecrust/validation.py:5-18 | every bundle validates, whatever the options and whether or not a request is given |
| Api.ReverseArgs | piecrust/api.py:110-117 | both reversals get exactly `api_name` and `resource_name` |
| Api.EntryFor | piecrust/api.py:109-118 | an entry's `list_endpoint` and `schema` are the two reversals for that name |
| Api.Api.constructor | piecrust/api.py:24-33 | empty maps, the given API name, and class-level serializer and generator unless others are given |
| Api.Api.Register | piecrust/api.py:35-58 | no `resource_name`: `ImproperlyConfigured` and nothing changes; otherwise only that registry entry is set; only the `True` singleton sets the canonical entry and stamps `api_name` on both metas, warning exactly when it replaces a canonical entry; the invariant is kept |
| Api.Api.Unregister | piecrust/api.py:60-68 | removes the name from both maps, keeps every other name, and is a no-op for an unknown name |
| Api.Api.CanonicalResourceFor | piecrust/api.py:70-77 | returns a resource iff the name has a canonical one, and that resource's `resource_name` is that name; otherwise `NotRegistered` with its message |
| Api.Api.AvailableResources | piecrust/api.py:103-118 | the loop builds exactly one entry per registered name |
| Api.Api.Discovery | piecrust/api.py:103-118 | the `available_resources` dictionary: exactly the registered names, each mapped to its two reversed URLs |
| Api.DiscoveryKeys | piecrust/api.py:103-118 | the discovery document's names are the registered names |
| Api.Api.TopLevel | piecrust/api.py:98-132 | `api_name` defaults to the instance's; a `text/javascript` format with a rejected callback (default `callback`) raises `BadRequest` before serialising; otherwise the generator's `HttpOK` response of the serialised discovery document |
| Api.CanonicalReplacement | piecrust/api.py:48-58 | registering a second resource canonically under a taken name makes it canonical and emits exactly one warning |
| Api.TruthyIsNotCanonical | piecrust/api.py:50 | a merely truthy flag replaces the registry entry, leaves the earlier canonical, and emits no warning |
| Api.UnregisterTwice | piecrust/api.py:60-77 | unregistering twice equals once, after which the lookup raises `NotRegistered` |

## Left out

- Throttle.BaseThrottle.Accessed: `**kwargs` are not modelled. A sliding window, counts, decay and expiry are not modelled either: the base throttle has none.
- Sorting in `top_level` is not modelled: the names are visited in any order. The resulting dictionary does not depend on the order, and no output order is claimed.
- Api.Api.Register: the error message and the warning text use `%r` of the resource in the source. The model drops that rendering: its message reads "Resource must define a 'resource_name'.", and a warning records the resource and the name. `warnings.warn` filtering is not modelled; every warning is logged.
- `Api.wrap_view`, `override_urls` and the `urls` property are left out. They are URL-configuration plumbing outside the registry logic, and `urls` only raises `NotImplementedError`.
- `Api._build_reverse_url` is a total function value here. The base version always raises `NotImplementedError`, and that failure of `top_level` is not modelled.
- Format negotiation, serialisation, content-type building and the JSONP-name check are uninterpreted function values. Their code is not part of this model.
- Authentication.Credentialed: the base `check_credentials` raises `NotImplementedError`. The model takes `check_credentials` as a given function returning a principal or an error.
- Authentication.DigestAuthentication.Decide: the `python_digest` internals are uninterpreted. `parse_digest_credentials` failures propagate unhandled, as in the source. Its nonce format, expiry and HMAC checks are not modelled.
- `DigestAuthentication.calculate_request_digest` is left out: it only forwards to `python_digest`.
- The randomness, clock and HMAC-SHA1 of the Digest challenge are fields of `Platform`, not computed.
- Base64 decoding is a partial function value; its decoding rules are not modelled.
- `**kwargs` of `is_authenticated` are not modelled; they are unused by every strategy.
- The `backend` arguments are stored but have no behaviour in this code.
- `RequestWrapper` (`piecrust/http.py:4-43`) is left out. It adapts framework request objects through `getattr`/`setattr`, and its `check_valid` refers to an undefined name `request`.
- `MemcacheCache.get`/`set` (`piecrust/cache.py:34-38`) are left out. They forward to a `pylibmc` network client, and `set` drops its timeout when it does.
- `piecrust/storage.py`, `piecrust/constants.py` and `setup.py` are not part of this model. They hold interface stubs, literal data and packaging.
- Values in the keyword-argument maps of responses and in the request maps are strings.
- Errors outside piecrust's exception hierarchy have no value in the model: the `NotImplementedError` of the base `check_credentials` (`piecrust/authentication.py:48`), and the error raised when `parse_digest_credentials` returns nothing usable (`piecrust/authentication.py:219-221`). In the source both propagate out of `is_authenticated`; a decision tests only `IsInstance(Unauthorized)`, so such an error would be a `Raise` like any other non-`Unauthorized` error.
- `Request.requestParams` (Django's `REQUEST`) is an independent input: it is not derived from the `GET` and `POST` parameters, and Django's merge order is not modelled.
- Api.Api.constructor: `if serializer:` and `if response_generator:` test truthiness. The model takes every given object as truthy (Python objects are, unless their class defines `__len__` or `__nonzero__`), so any given value replaces the class-level default.
- `ResourceOptions.resourceName` is fixed once the resource is built. In the source `_meta.resource_name` is a plain attribute that `register` reads when it runs (`piecrust/api.py:43`); the registry invariant and the lookup's guarantee that the canonical resource carries its name rely on that name never changing afterwards.

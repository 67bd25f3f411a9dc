/**
 * The authentication endpoints (`AuthRouter`): for each request, its HTTP
 * method, path, query parameters, headers and JSON body.
 */
module AccountRouter {
  import opened Wrappers
  import opened Api

  datatype SSOProvider = Google

  /** `"\(provider)"`: the case name as Swift interpolates it. */
  function ProviderName(p: SSOProvider): string
  {
    match p
    case Google => "google"
  }

  datatype AuthRoute =
    | SignIn(email: string, password: string)
    | SignUp(email: string, name: string)
    | VerifyEmail(email: string, otp: string)
    | ResendOtp(email: string)
    | SetUpPassword(email: string, password: string)
    | GoogleSignIn(idToken: string, provider: SSOProvider)

  /** `method` */
  function Method(r: AuthRoute): (m: HTTPMethod)
    ensures m == Post
  {
    match r
    case SignIn(_, _) => Post
    case SignUp(_, _) => Post
    case VerifyEmail(_, _) => Post
    case ResendOtp(_) => Post
    case SetUpPassword(_, _) => Post
    case GoogleSignIn(_, _) => Post
  }

  /** `path` */
  function Path(r: AuthRoute): string
  {
    match r
    case SignIn(_, _) => "auth/login"
    case SignUp(_, _) => "auth/signup"
    case VerifyEmail(_, _) => "auth/verify-email"
    case ResendOtp(_) => "auth/resend-otp"
    case SetUpPassword(_, _) => "auth/set-up-password"
    case GoogleSignIn(_, _) => "auth/oauth-login"
  }

  /** `queryParams` */
  function QueryParams(r: AuthRoute): Option<map<string, string>>
  {
    None
  }

  /** The JSON media type of section 11 of RFC 8259. */
  const JsonMediaType: string := "application/json"

  /** `headers` */
  function Headers(r: AuthRoute): Option<map<string, string>>
  {
    Some(map["Content-Type" := JsonMediaType])
  }

  /** `body`: the JSON object sent, if any. */
  function Body(r: AuthRoute): Option<map<string, string>>
  {
    match r
    case SignIn(email, password) => Some(map["email" := email, "password" := password])
    case SignUp(email, name) => Some(map["email" := email, "name" := name])
    case VerifyEmail(email, otp) => Some(map["email" := email, "otp" := otp])
    case ResendOtp(_) => None
    case SetUpPassword(email, password) => Some(map["email" := email, "password" := password])
    case GoogleSignIn(idToken, provider) => Some(map["idToken" := idToken, "provider" := ProviderName(provider)])
  }

  /** The same kind of request, whatever it carries. */
  predicate SameCase(r: AuthRoute, s: AuthRoute)
  {
    || (r.SignIn? && s.SignIn?) || (r.SignUp? && s.SignUp?) || (r.VerifyEmail? && s.VerifyEmail?)
    || (r.ResendOtp? && s.ResendOtp?) || (r.SetUpPassword? && s.SetUpPassword?)
    || (r.GoogleSignIn? && s.GoogleSignIn?)
  }

  /** Every path lies under "auth/", and two requests share a path exactly when they are the same case. */
  lemma PathsAreDistinct(r: AuthRoute, s: AuthRoute)
    ensures |Path(r)| > 5 && Path(r)[..5] == "auth/"
    ensures Path(r) == Path(s) <==> SameCase(r, s)
  {
  }

  /**
   * The body carries the request's own values under fixed keys: e-mail and
   * password for sign-in and password set-up, e-mail and name for sign-up,
   * e-mail and passcode for verification, token and provider for Google.
   */
  lemma BodyCarriesTheRequest(r: AuthRoute)
    ensures Body(r).None? <==> r.ResendOtp?
    ensures (r.SignIn? || r.SetUpPassword?) ==>
      Body(r).value.Keys == {"email", "password"} && Body(r).value["email"] == r.email && Body(r).value["password"] == r.password
    ensures r.SignUp? ==>
      Body(r).value.Keys == {"email", "name"} && Body(r).value["email"] == r.email && Body(r).value["name"] == r.name
    ensures r.VerifyEmail? ==>
      Body(r).value.Keys == {"email", "otp"} && Body(r).value["email"] == r.email && Body(r).value["otp"] == r.otp
    ensures r.GoogleSignIn? ==>
      Body(r).value.Keys == {"idToken", "provider"} && Body(r).value["idToken"] == r.idToken
      && Body(r).value["provider"] == "google"
  {
  }

  /** Two requests of one case with the same body and path are the same request, except for a resend. */
  lemma BodyDeterminesRequest(r: AuthRoute, s: AuthRoute)
    requires Path(r) == Path(s) && Body(r) == Body(s) && !r.ResendOtp?
    ensures r == s
  {
    PathsAreDistinct(r, s);
    BodyCarriesTheRequest(r);
    BodyCarriesTheRequest(s);
    if r.GoogleSignIn? {
      assert r.provider == Google == s.provider;
    }
  }

  /** The resend request does not send its address: resends for two addresses are indistinguishable. */
  lemma ResendOmitsTheAddress(a: string, b: string)
    ensures Path(ResendOtp(a)) == Path(ResendOtp(b)) && Body(ResendOtp(a)) == Body(ResendOtp(b)) == None
    ensures Method(ResendOtp(a)) == Method(ResendOtp(b)) && Headers(ResendOtp(a)) == Headers(ResendOtp(b))
  {
  }

  /** Every request is a POST of JSON. */
  lemma EveryRequestPostsJson(r: AuthRoute)
    ensures RawValue(Method(r)) == "POST"
    ensures Headers(r).Some? && Headers(r).value.Keys == {"Content-Type"}
    ensures Headers(r).value["Content-Type"] == "application/json"
  {
  }

  /**
   * Two requests differ only in their path and body: the base URL, method,
   * query parameters and headers are the same for every request. With
   * `BodyDeterminesRequest`, the path and body are what tell requests apart.
   */
  lemma OnlyPathAndBodyVary(config: NetworkConfig, r: AuthRoute, s: AuthRoute)
    ensures BaseURL(config, r) == BaseURL(config, s)
    ensures Method(r) == Method(s) && QueryParams(r) == QueryParams(s) && Headers(r) == Headers(s)
    ensures QueryParams(r).None?
    ensures SameCase(r, s) && r != s && !r.ResendOtp? ==> Body(r) != Body(s)
  {
    if SameCase(r, s) && r != s && !r.ResendOtp? && Body(r) == Body(s) {
      PathsAreDistinct(r, s);
      BodyDeterminesRequest(r, s);
    }
  }
}

/**
 * The request-description protocol shared by every router (`APIRouter`) and
 * its `HTTPMethod` enumeration.
 */
module Api {
  import opened Wrappers

  datatype HTTPMethod = Get | Post | Put | Patch | Delete

  /** `rawValue` */
  function RawValue(m: HTTPMethod): string
  {
    match m
    case Get => "GET"
    case Post => "POST"
    case Put => "PUT"
    case Patch => "PATCH"
    case Delete => "DELETE"
  }

  /** `HTTPMethod(rawValue:)`: the case with that raw value, if any. */
  function FromRawValue(s: string): Option<HTTPMethod>
  {
    match s
    case "GET" => Some(Get)
    case "POST" => Some(Post)
    case "PUT" => Some(Put)
    case "PATCH" => Some(Patch)
    case "DELETE" => Some(Delete)
    case _ => None
  }

  /** Reading a method's raw value back gives the method. */
  lemma RawValueRoundTrip(m: HTTPMethod)
    ensures FromRawValue(RawValue(m)) == Some(m)
  {
  }

  /** A string that names a method is that method's raw value. */
  lemma FromRawValueRoundTrip(s: string)
    ensures FromRawValue(s).Some? ==> RawValue(FromRawValue(s).value) == s
  {
  }

  /** Different methods have different raw values. */
  lemma RawValueInjective(m: HTTPMethod, n: HTTPMethod)
    ensures RawValue(m) == RawValue(n) ==> m == n
  {
    RawValueRoundTrip(m);
    RawValueRoundTrip(n);
  }

  /**
   * Every raw value is a method token of section 9.3 of RFC 9110 or PATCH
   * (section 2 of RFC 5789), spelt as those documents spell it: upper case.
   */
  lemma RawValuesAreStandardTokens(m: HTTPMethod)
    ensures RawValue(m) in {"GET", "HEAD", "POST", "PUT", "DELETE", "CONNECT", "OPTIONS", "TRACE", "PATCH"}
    ensures forall i :: 0 <= i < |RawValue(m)| ==> 'A' <= RawValue(m)[i] <= 'Z'
  {
  }

  /** `NetworkConfig.shared`, which the app's configuration fills in. */
  datatype NetworkConfig = NetworkConfig(baseURL: string)

  /** The `baseURL` extension: the shared configuration's base, whatever the route. */
  function BaseURL<Route>(config: NetworkConfig, route: Route): string
  {
    config.baseURL
  }

  /** Every route of every router is sent to the same base. */
  lemma BaseURLIsShared<R, S>(config: NetworkConfig, r: R, s: S)
    ensures BaseURL(config, r) == BaseURL(config, s)
  {
  }
}

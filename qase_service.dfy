// qase_service.py: the settings a QaseService is built with, and the host
// names and API URLs it derives from them. The SDK clients themselves are not
// part of this model; what they are configured with is.

module QaseService {
  import opened Py
  import Scim

  /** The SCIM client a service carries: the arguments `QaseScimClient` is made with, and its base URL. */
  datatype ScimSettings = ScimSettings(token: string, host: string, ssl: bool, baseUrl: string)

  /** A `QaseService` after its constructor. */
  datatype Service = Service(
    apiToken: string, host: string, ssl: bool, enterprise: bool, scimToken: Option<string>,
    scimHost: string, apiV1: string, apiV2: string, scim: Option<ScimSettings>)

  /** The cloud host, the default. */
  const CloudHost: string := "qase.io"

  /** The cloud SCIM host. */
  const CloudScimHost: string := "app.qase.io"

  /** A Python string argument that may be None; only a non-empty one is truthy. */
  predicate Given(s: Option<string>)
  {
    s.Some? && s.value != ""
  }

  /** The SCIM host: the explicit one when given, else the API host for an enterprise instance, else the cloud one. */
  function ScimHost(host: string, enterprise: bool, scimHost: Option<string>): (r: string)
    ensures Given(scimHost) ==> r == scimHost.value
    ensures !Given(scimHost) && enterprise ==> r == host
    ensures !Given(scimHost) && !enterprise ==> r == CloudScimHost
  {
    if Given(scimHost) then scimHost.value else if enterprise then host else CloudScimHost
  }

  /** What joins `api` and the host: `-` for an enterprise instance on its own domain, else `.`. */
  function Delimiter(host: string, enterprise: bool): (r: char)
    ensures r == '-' <==> enterprise && host != CloudHost
    ensures r == '.' || r == '-'
  {
    if !enterprise || host == CloudHost then '.' else '-'
  }

  /** An API URL: scheme, `api`, the delimiter, the host, then the version path. */
  function ApiUrl(ssl: bool, host: string, enterprise: bool, version: string): string
  {
    (if ssl then "https://" else "http://") + "api" + [Delimiter(host, enterprise)] + host + version
  }

  /** `QaseService.__init__`. */
  function New(apiToken: string, host: string, ssl: bool, enterprise: bool,
               scimToken: Option<string>, scimHost: Option<string>): (s: Service)
    ensures s.scimHost == ScimHost(host, enterprise, scimHost)
    ensures s.apiV1 == ApiUrl(ssl, host, enterprise, "/v1") && s.apiV2 == ApiUrl(ssl, host, enterprise, "/v2")
    ensures s.scim.Some? <==> Given(scimToken)
    ensures s.scim.Some? ==>
      s.scim.value == ScimSettings(scimToken.value, s.scimHost, ssl, Scim.BaseUrl(s.scimHost, ssl))
  {
    var sh := ScimHost(host, enterprise, scimHost);
    Service(apiToken, host, ssl, enterprise, scimToken, sh,
            ApiUrl(ssl, host, enterprise, "/v1"), ApiUrl(ssl, host, enterprise, "/v2"),
            if Given(scimToken) then Some(ScimSettings(scimToken.value, sh, ssl, Scim.BaseUrl(sh, ssl))) else None)
  }

  /**
   * The two API URLs differ only in their version digit, and each reads
   * back the scheme, the delimiter and the host it was built from.
   */
  lemma ApiUrlShape(ssl: bool, host: string, enterprise: bool)
    ensures var v1 := ApiUrl(ssl, host, enterprise, "/v1");
      var v2 := ApiUrl(ssl, host, enterprise, "/v2");
      var prefix := if ssl then "https://" else "http://";
      && |v1| == |v2| == |prefix| + 4 + |host| + 3
      && v1[..|v1| - 1] == v2[..|v2| - 1]
      && v1[|v1| - 1] == '1' && v2[|v2| - 1] == '2'
      && v1[..|prefix|] == prefix
      && v1[|prefix|..|prefix| + 3] == "api"
      && v1[|prefix| + 3] == Delimiter(host, enterprise)
      && v1[|prefix| + 4..|prefix| + 4 + |host|] == host
  {
    var prefix := if ssl then "https://" else "http://";
    var v1 := ApiUrl(ssl, host, enterprise, "/v1");
    var v2 := ApiUrl(ssl, host, enterprise, "/v2");
    var stem := prefix + "api" + [Delimiter(host, enterprise)] + host;
    assert v1 == stem + "/v1" && v2 == stem + "/v2";
    assert v1[..|v1| - 1] == stem + "/v" == v2[..|v2| - 1];
    assert v1[..|prefix|] == prefix;
    assert v1[|prefix|..|prefix| + 3] == "api";
    assert v1[|prefix| + 4..|prefix| + 4 + |host|] == host;
  }

  /**
   * Two services with the same scheme and instance kind but different hosts
   * talk to different API URLs.
   */
  lemma ApiUrlInjective(ssl: bool, host: string, host2: string, enterprise: bool)
    requires ApiUrl(ssl, host, enterprise, "/v1") == ApiUrl(ssl, host2, enterprise, "/v1")
    ensures host == host2
  {
    ApiUrlShape(ssl, host, enterprise);
    ApiUrlShape(ssl, host2, enterprise);
  }
}

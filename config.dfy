/** The peer-service addresses the gateway derives from its settings. */
module Config {

  /** The settings the three URL properties read; every one is a string
      taken from the environment. */
  datatype Settings = Settings(
    apiPrefix: string,
    teamServiceHost: string,
    teamServicePort: string,
    frontendServiceHost: string,
    frontendServicePort: string,
    ratingServiceHost: string,
    ratingServicePort: string)

  const Scheme: string := "http://"
  const GraphqlPath: string := "/graphql"

  /** `http://host:port`, the origin every URL starts with. */
  function Origin(host: string, port: string): (o: string)
    ensures |o| == |Scheme| + |host| + 1 + |port|
    ensures o[..|Scheme|] == Scheme
    ensures o[|Scheme|..|Scheme| + |host|] == host
    ensures o[|Scheme| + |host|] == ':'
    ensures o[|Scheme| + |host| + 1..] == port
  {
    Scheme + host + ":" + port
  }

  /** A GraphQL endpoint: the origin, the API prefix, then `/graphql`. */
  function GraphqlUrl(host: string, port: string, prefix: string): (url: string)
    ensures |url| == |Origin(host, port)| + |prefix| + |GraphqlPath|
    ensures url[..|Scheme|] == Scheme
    ensures url[|url| - |GraphqlPath|..] == GraphqlPath
    ensures url[..|Origin(host, port)|] == Origin(host, port)
    ensures url[|Origin(host, port)|..|url| - |GraphqlPath|] == prefix
  {
    var o := Origin(host, port);
    var url := o + prefix + GraphqlPath;
    assert url[..|o|] == o;
    assert url[..|Scheme|] == o[..|Scheme|];
    url
  }

  /** RATING_SERVICE_URL. */
  function RatingServiceUrl(s: Settings): (url: string)
    ensures |url| >= |Scheme| + |GraphqlPath|
    ensures url[..|Scheme|] == Scheme
    ensures url[|url| - |GraphqlPath|..] == GraphqlPath
    ensures url == Origin(s.ratingServiceHost, s.ratingServicePort) + s.apiPrefix + GraphqlPath
  {
    GraphqlUrl(s.ratingServiceHost, s.ratingServicePort, s.apiPrefix)
  }

  /** TEAM_SERVICE_URL. */
  function TeamServiceUrl(s: Settings): (url: string)
    ensures |url| >= |Scheme| + |GraphqlPath|
    ensures url[..|Scheme|] == Scheme
    ensures url[|url| - |GraphqlPath|..] == GraphqlPath
    ensures url == Origin(s.teamServiceHost, s.teamServicePort) + s.apiPrefix + GraphqlPath
  {
    GraphqlUrl(s.teamServiceHost, s.teamServicePort, s.apiPrefix)
  }

  /** FRONTEND_SERVICE_URL: the bare origin, with neither the API prefix nor
      the GraphQL path. */
  function FrontendServiceUrl(s: Settings): (url: string)
    ensures |url| > |Scheme|
    ensures url[..|Scheme|] == Scheme
    ensures url == Origin(s.frontendServiceHost, s.frontendServicePort)
  {
    Origin(s.frontendServiceHost, s.frontendServicePort)
  }

  /** A service sharing the frontend's host and port is reached at the
      frontend URL extended by the API prefix and the GraphQL path. */
  lemma TeamUrlExtendsFrontendUrl(s: Settings)
    requires s.teamServiceHost == s.frontendServiceHost
    requires s.teamServicePort == s.frontendServicePort
    ensures TeamServiceUrl(s) == FrontendServiceUrl(s) + s.apiPrefix + GraphqlPath
    ensures |TeamServiceUrl(s)| == |FrontendServiceUrl(s)| + |s.apiPrefix| + |GraphqlPath|
  {
  }

  /** The team and rating URLs are built the same way: settings that agree on
      host and port give the same URL for both. */
  lemma SameShapeForTeamAndRating(s: Settings)
    requires s.teamServiceHost == s.ratingServiceHost
    requires s.teamServicePort == s.ratingServicePort
    ensures TeamServiceUrl(s) == RatingServiceUrl(s)
  {
  }
}

/** `BaseRagService`: the state every backend keeps (route and API key) and the base URL it
    derives from the route. */
module BaseRagService {
  import opened Wrappers
  import opened PyText

  class RagService {
    const route: string
    const apiKey: string

    constructor (route: string, apiKey: string)
      ensures this.route == route && this.apiKey == apiKey
    {
      this.route := route;
      this.apiKey := apiKey;
    }
  }

  /** `route.split('/')[0] + '//' + route.split('/')[2]`; fewer than three segments is the
      IndexError Python raises. */
  function BaseUrl(route: string): (r: Result<string>)
    ensures r.Err? <==> |Split(route, '/')| < 3
    ensures r.Err? ==> r.kind == IndexError
  {
    var parts := Split(route, '/');
    if |parts| < 3 then Err(IndexError) else Ok(parts[0] + "//" + parts[2])
  }

  /** For a route "scheme://host/path..." the base URL is "scheme://host": e.g.
      "http://h:9380/api/v1" gives "http://h:9380". */
  lemma BaseUrlOfSchemeHostPath(scheme: string, host: string, path: string)
    requires '/' !in scheme && '/' !in host
    ensures BaseUrl(scheme + "//" + host + "/" + path) == Ok(scheme + "//" + host)
  {
    var route := scheme + "//" + host + "/" + path;
    assert route == scheme + ['/'] + ("" + ['/'] + (host + ['/'] + path));
    SplitAtFirstSeparator(scheme, "" + ['/'] + (host + ['/'] + path), '/');
    SplitAtFirstSeparator("", host + ['/'] + path, '/');
    SplitAtFirstSeparator(host, path, '/');
  }

  /** A route without a path ("scheme://host") also gives itself back. */
  lemma BaseUrlOfSchemeHost(scheme: string, host: string)
    requires '/' !in scheme && '/' !in host
    ensures BaseUrl(scheme + "//" + host) == Ok(scheme + "//" + host)
  {
    var route := scheme + "//" + host;
    assert route == scheme + ['/'] + ("" + ['/'] + host);
    SplitAtFirstSeparator(scheme, "" + ['/'] + host, '/');
    SplitAtFirstSeparator("", host, '/');
    SplitWithoutSeparator(host, '/');
  }

  /** A route with no "//" after the scheme, such as "localhost", has too few segments. */
  lemma BaseUrlWithoutSeparatorFails(route: string)
    requires '/' !in route
    ensures BaseUrl(route) == Err(IndexError)
  {
    SplitWithoutSeparator(route, '/');
  }
}

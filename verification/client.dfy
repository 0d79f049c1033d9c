/** The base-URL handling of `PerformanceMonitorClient`. */
module Client {

  /** `s.rstrip('/')` */
  function RStripSlash(s: string): (r: string)
    ensures r <= s
    ensures r == [] || r[|r| - 1] != '/'
    ensures forall i :: |r| <= i < |s| ==> s[i] == '/'
    decreases |s|
  {
    if s != [] && s[|s| - 1] == '/' then RStripSlash(s[..|s| - 1]) else s
  }

  /** Stripping twice is stripping once. */
  lemma RStripSlashIdempotent(s: string)
    ensures RStripSlash(RStripSlash(s)) == RStripSlash(s)
  {
  }

  /** Any number of trailing slashes on the configured URL leads to the same base. */
  lemma {:induction false} TrailingSlashesDoNotMatter(s: string, n: nat)
    ensures RStripSlash(s + seq(n, _ => '/')) == RStripSlash(s)
    decreases n
  {
    if n == 0 {
      assert s + seq(n, _ => '/') == s;
    } else {
      var t := s + seq(n, _ => '/');
      assert t[|t| - 1] == '/';
      assert t[..|t| - 1] == s + seq(n - 1, _ => '/');
      TrailingSlashesDoNotMatter(s, n - 1);
    }
  }

  /** The client's connection settings; the HTTP session is not part of this model. */
  class PerformanceMonitorClient {
    const apiUrl: string
    const apiKey: string
    const timeout: nat

    /** `__init__`: the base URL is stored without trailing slashes. */
    constructor (apiUrl: string, apiKey: string, timeout: nat)
      ensures this.apiUrl == RStripSlash(apiUrl) && this.apiKey == apiKey && this.timeout == timeout
      ensures this.apiUrl == [] || this.apiUrl[|this.apiUrl| - 1] != '/'
    {
      this.apiUrl := RStripSlash(apiUrl);
      this.apiKey := apiKey;
      this.timeout := timeout;
    }

    /** The URL `_make_request` sends to: the base followed by the endpoint. */
    function RequestUrl(endpoint: string): (url: string)
      ensures |url| == |apiUrl| + |endpoint|
      ensures url[..|apiUrl|] == apiUrl && url[|apiUrl|..] == endpoint
    {
      apiUrl + endpoint
    }
  }

  /**
   * The URL a client sends to: its base stripped of the configured URL's trailing slashes,
   * then the endpoint, whatever number of slashes the configured URL ended with; for an
   * endpoint starting with '/' and a non-empty base, exactly one '/' sits at the join.
   */
  lemma RequestUrlHasOneSlashAtJoin(c: PerformanceMonitorClient, configured: string, endpoint: string, n: nat)
    requires c.apiUrl == RStripSlash(configured)
    ensures c.RequestUrl(endpoint) == RStripSlash(configured + seq(n, _ => '/')) + endpoint
    ensures c.apiUrl != [] && endpoint != [] && endpoint[0] == '/' ==>
      var url := c.RequestUrl(endpoint);
      url[|c.apiUrl| - 1] != '/' && url[|c.apiUrl|] == '/'
  {
    TrailingSlashesDoNotMatter(configured, n);
  }
}

/** The request URL shared by the four HTTP verbs of the client:
    `base_url.rstrip('/') + '/' + endpoint.lstrip('/')`. */
module Url {
  import opened Text

  const Slash: set<char> := {'/'}

  /** The base URL and the endpoint path joined by a single `/`. */
  function JoinUrl(baseUrl: string, endpoint: string): (url: string)
    ensures |url| >= 1
  {
    StripTrailing(baseUrl, Slash) + "/" + StripLeading(endpoint, Slash)
  }

  /** At the junction there is exactly one `/`: the character before it
      (where the base URL ends) and the one after it (where the endpoint
      begins) are not slashes, and what precedes it is the base URL with only
      trailing slashes removed. */
  lemma SingleSlashAtJunction(baseUrl: string, endpoint: string)
    ensures var n := |StripTrailing(baseUrl, Slash)|;
            var url := JoinUrl(baseUrl, endpoint);
            && n < |url|
            && url[..n] == baseUrl[..n]
            && AllIn(baseUrl[n..], Slash)
            && url[n] == '/'
            && (n == 0 || url[n - 1] != '/')
            && (n + 1 == |url| || url[n + 1] != '/')
            && url[n + 1..] == endpoint[|endpoint| - (|url| - n - 1)..]
            && AllIn(endpoint[..|endpoint| - (|url| - n - 1)], Slash)
  {
    var h := StripTrailing(baseUrl, Slash);
    var t := StripLeading(endpoint, Slash);
    var url := JoinUrl(baseUrl, endpoint);
    assert url == h + "/" + t;
    assert url[..|h|] == h;
    assert url[|h| + 1..] == t;
    assert |url| - |h| - 1 == |t|;
  }

  /** Whatever slashes end the base URL or begin the endpoint, the URL is the
      slash-free base, one `/`, and the slash-free endpoint. */
  lemma {:induction false} JoinUrlCanonical(head: string, a: string, b: string, tail: string)
    requires AllIn(a, Slash) && AllIn(b, Slash)
    requires head == [] || head[|head| - 1] != '/'
    requires tail == [] || tail[0] != '/'
    ensures JoinUrl(head + a, b + tail) == head + "/" + tail
  {
    StripTrailingSkipsSuffix(head, a, Slash);
    assert StripTrailing(head, Slash) == head;
    StripLeadingSkipsPrefix(b, tail, Slash);
    assert StripLeading(tail, Slash) == tail;
  }

  /** Adding more slashes to either side of the junction does not change the URL. */
  lemma ExtraSlashesIgnored(baseUrl: string, a: string, b: string, endpoint: string)
    requires AllIn(a, Slash) && AllIn(b, Slash)
    ensures JoinUrl(baseUrl + a, b + endpoint) == JoinUrl(baseUrl, endpoint)
  {
    StripTrailingSkipsSuffix(baseUrl, a, Slash);
    StripLeadingSkipsPrefix(b, endpoint, Slash);
  }

  /** A base URL with a trailing slash and an endpoint with a leading slash. */
  lemma JoinUrlExample()
    ensures JoinUrl("https://api.test.com/", "/api/test") == "https://api.test.com/api/test"
  {
    JoinUrlCanonical("https://api.test.com", "/", "/", "api/test");
    assert "https://api.test.com" + "/" == "https://api.test.com/";
    assert "/" + "api/test" == "/api/test";
  }
}

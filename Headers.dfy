/**
 * The request-header profiles of src/config/headers.py.
 *
 * The parsed `headers.json` is given as a map from its keys to lists of
 * strings, and each `random.choice(self.referers)` as an index into
 * `Referers`.
 */
module Headers {

  type HeaderDict = map<string, string>

  /** The fixed referer list set up by `Headers.__init__`. */
  const Referers: seq<string> := [
    "https://www.google.com",
    "https://www.bing.com",
    "https://www.yahoo.com",
    "https://duckduckgo.com",
    "https://www.yandex.com",
    "https://www.baidu.com",
    "https://www.ecosia.org",
    "https://search.brave.com",
    "https://www.ask.com",
    "https://www.aol.com",
    "https://www.facebook.com",
    "https://twitter.com",
    "https://www.linkedin.com",
    "https://www.instagram.com",
    "https://www.youtube.com",
    "https://www.reddit.com",
    "https://www.pinterest.com",
    "https://www.tumblr.com",
    "https://www.quora.com",
    "https://www.microsoft.com",
    "https://www.apple.com",
    "https://www.amazon.com",
    "https://www.netflix.com",
    "https://www.paypal.com",
    "https://www.google.fr",
    "https://www.google.de",
    "https://www.google.es",
    "https://www.google.co.uk",
    "https://myaccount.google.com",
    "https://aboutme.google.com"
  ]

  const AcceptLanguage: string := "en-US,en;q=0.9"
  const Accept: string := "text/html,application/xhtml+xml,application/xml;q=0.9,image/webp,image/apng,*/*;q=0.8"
  const AcceptEncoding: string := "gzip, deflate, br"
  const Connection: string := "keep-alive"
  const UpgradeInsecureRequests: string := "1"

  /** The seven keys of every header dictionary. */
  const HeaderKeys: set<string> := {
    "User-Agent", "Referer", "Accept-Language", "Accept",
    "Accept-Encoding", "Connection", "Upgrade-Insecure-Requests"
  }

  /** `get_user_agents`: `data.get("user_agents", [])` on the parsed configuration file. */
  function UserAgents(config: map<string, seq<string>>): (agents: seq<string>)
    ensures "user_agents" in config ==> agents == config["user_agents"]
    ensures "user_agents" !in config ==> agents == []
  {
    if "user_agents" in config then config["user_agents"] else []
  }

  /** The header dictionary `get_headers` builds for one user agent and the referer drawn for it. */
  function Profile(userAgent: string, referer: string): (h: HeaderDict)
    ensures h.Keys == HeaderKeys
    ensures h["User-Agent"] == userAgent && h["Referer"] == referer
    ensures h["Accept-Language"] == AcceptLanguage && h["Accept"] == Accept
    ensures h["Accept-Encoding"] == AcceptEncoding && h["Connection"] == Connection
    ensures h["Upgrade-Insecure-Requests"] == UpgradeInsecureRequests
  {
    map[
      "User-Agent" := userAgent,
      "Referer" := referer,
      "Accept-Language" := AcceptLanguage,
      "Accept" := Accept,
      "Accept-Encoding" := AcceptEncoding,
      "Connection" := Connection,
      "Upgrade-Insecure-Requests" := UpgradeInsecureRequests
    ]
  }

  /** A header dictionary of the fixed shape for `userAgent`, with a referer from the fixed list. */
  ghost predicate IsProfile(h: HeaderDict, userAgent: string)
  {
    && h.Keys == HeaderKeys
    && h["User-Agent"] == userAgent
    && h["Referer"] in Referers
    && h["Accept-Language"] == AcceptLanguage
    && h["Accept"] == Accept
    && h["Accept-Encoding"] == AcceptEncoding
    && h["Connection"] == Connection
    && h["Upgrade-Insecure-Requests"] == UpgradeInsecureRequests
  }

  /** A dictionary built with a referer from the fixed list is a profile of its user agent. */
  lemma ProfileOfChosenReferer(userAgent: string, pick: nat)
    requires pick < |Referers|
    ensures IsProfile(Profile(userAgent, Referers[pick]), userAgent)
  {
  }

  /** Every profile has exactly seven headers. */
  lemma ProfileHasSevenKeys(h: HeaderDict, userAgent: string)
    requires IsProfile(h, userAgent)
    ensures |h| == 7
  {
    assert |HeaderKeys| == 7;
  }

  /**
   * `Headers.get_headers`: one dictionary per configured user agent, in
   * order; `picks[i]` is the index `random.choice` chose for entry `i`.
   */
  method GetHeaders(config: map<string, seq<string>>, picks: seq<nat>) returns (headersList: seq<HeaderDict>)
    requires |picks| == |UserAgents(config)|
    requires forall i :: 0 <= i < |picks| ==> picks[i] < |Referers|
    ensures |headersList| == |UserAgents(config)|
    ensures "user_agents" !in config ==> headersList == []
    ensures forall i :: 0 <= i < |headersList| ==> headersList[i] == Profile(UserAgents(config)[i], Referers[picks[i]])
  {
    headersList := [];
    var userAgents := UserAgents(config);
    for i := 0 to |userAgents|
      invariant |headersList| == i
      invariant forall k :: 0 <= k < i ==> headersList[k] == Profile(userAgents[k], Referers[picks[k]])
    {
      var randomReferer := Referers[picks[i]];
      var headerDict := Profile(userAgents[i], randomReferer);
      headersList := headersList + [headerDict];
    }
  }
}

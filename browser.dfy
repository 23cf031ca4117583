/**
 * Browser detection from the user-agent string, and the tuning it drives:
 * the request queue's concurrency limit and the cache's freshness window.
 */
module Browser {

  import opened Text
  import RequestQueueing
  import ApiCaching

  datatype BrowserInfo = BrowserInfo(
    userAgent: string,
    isChrome: bool,
    isFirefox: bool,
    isSafari: bool,
    isEdge: bool,
    isIE: bool,
    isMobile: bool)

  /** The alternatives of the mobile pattern, matched without regard to case. */
  predicate LooksMobile(ua: string) {
    || ContainsIgnoringCase(ua, "Android")
    || ContainsIgnoringCase(ua, "webOS")
    || ContainsIgnoringCase(ua, "iPhone")
    || ContainsIgnoringCase(ua, "iPad")
    || ContainsIgnoringCase(ua, "iPod")
    || ContainsIgnoringCase(ua, "BlackBerry")
    || ContainsIgnoringCase(ua, "IEMobile")
    || ContainsIgnoringCase(ua, "Opera Mini")
  }

  /** The flags the constructor computes. "Edg" also matches "Edge"; Safari excludes anything mentioning Chrome. */
  function Detect(ua: string): (b: BrowserInfo)
    ensures b.userAgent == ua
    ensures !(b.isSafari && b.isChrome)
  {
    BrowserInfo(
      ua,
      Contains(ua, "Chrome"),
      Contains(ua, "Firefox"),
      Contains(ua, "Safari") && !Contains(ua, "Chrome"),
      Contains(ua, "Edg"),
      Contains(ua, "MSIE") || Contains(ua, "Trident"),
      LooksMobile(ua))
  }

  /** `getBrowserName`: the first flag raised in the order Edge, Chrome, Firefox, Safari, IE. */
  function BrowserName(b: BrowserInfo): (r: string)
    ensures r == "Edge" <==> b.isEdge
    ensures r == "Chrome" <==> !b.isEdge && b.isChrome
    ensures r == "Firefox" <==> !b.isEdge && !b.isChrome && b.isFirefox
    ensures r == "Safari" <==> !b.isEdge && !b.isChrome && !b.isFirefox && b.isSafari
    ensures r == "Internet Explorer" <==> !b.isEdge && !b.isChrome && !b.isFirefox && !b.isSafari && b.isIE
    ensures r == "Unknown" <==> !(b.isEdge || b.isChrome || b.isFirefox || b.isSafari || b.isIE)
  {
    if b.isEdge then "Edge"
    else if b.isChrome then "Chrome"
    else if b.isFirefox then "Firefox"
    else if b.isSafari then "Safari"
    else if b.isIE then "Internet Explorer"
    else "Unknown"
  }

  /** The limit `applyOptimizations` gives the request queue. */
  function ConcurrencyLimit(b: BrowserInfo): (r: int)
    ensures r == 6 <==> b.isChrome || b.isEdge
    ensures r == 4 <==> !b.isChrome && !b.isEdge && (b.isFirefox || b.isSafari)
    ensures r == 2 <==> !(b.isChrome || b.isEdge || b.isFirefox || b.isSafari)
  {
    if b.isChrome || b.isEdge then 6
    else if b.isFirefox then 4
    else if b.isSafari then 4
    else 2
  }

  /** The cache window after `applyOptimizations`: ten minutes on mobile, unchanged otherwise. */
  function TunedMaxAge(b: BrowserInfo, current: int): (r: int)
    ensures b.isMobile ==> r == ApiCaching.MobileMaxAge
    ensures !b.isMobile ==> r == current
  {
    if b.isMobile then ApiCaching.MobileMaxAge else current
  }

  /** Edge's user agent also names Chrome and Safari; it is still reported as Edge and gets six connections. */
  lemma EdgeWinsOverChrome(ua: string)
    requires Contains(ua, "Edg") && Contains(ua, "Chrome")
    ensures BrowserName(Detect(ua)) == "Edge"
    ensures !Detect(ua).isSafari
    ensures ConcurrencyLimit(Detect(ua)) == 6
  {
  }

  /** A user agent that names Safari but not Chrome, Edge or Firefox is Safari, with four connections. */
  lemma PlainSafari(ua: string)
    requires Contains(ua, "Safari") && !Contains(ua, "Chrome") && !Contains(ua, "Edg") && !Contains(ua, "Firefox")
    ensures BrowserName(Detect(ua)) == "Safari"
    ensures ConcurrencyLimit(Detect(ua)) == 4
  {
  }

  /** Every browser gets one of three limits, all enough to start a request. */
  lemma LimitIsPositive(ua: string)
    ensures ConcurrencyLimit(Detect(ua)) in {2, 4, 6}
  {
  }

  /** The pattern is case-insensitive: an upper-case "IPHONE" counts as mobile. */
  lemma UpperCaseTokenIsMobile()
    ensures Detect("X IPHONE").isMobile
  {
    var lowered := LowerAscii("X IPHONE");
    assert lowered == "x iphone";
    assert LowerAscii("iPhone") == "iphone";
    assert "iphone" <= lowered[2..];
    ContainsAt(lowered, "iphone");
  }

  /** `applyOptimizations`: sets both knobs; what is already in flight is not touched. */
  method ApplyOptimizations(b: BrowserInfo, queue: RequestQueueing.RequestQueue, cache: ApiCaching.ApiCache)
    requires queue.Valid()
    modifies queue`concurrentLimit, cache`maxAge
    ensures queue.Valid()
    ensures queue.State() == old(queue.State()).(limit := ConcurrencyLimit(b))
    ensures cache.maxAge == TunedMaxAge(b, old(cache.maxAge))
  {
    queue.SetConcurrentLimit(ConcurrencyLimit(b));
    if b.isMobile {
      cache.maxAge := ApiCaching.MobileMaxAge;
    }
  }
}

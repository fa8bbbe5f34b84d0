/**
 The service's own share of the core: the default configuration and the
 resolution of a short code that a visitor enters.
 */
module ShortLinkService {
  import opened Links

  /** The defaults written when no configuration file exists. */
  const DefaultLifetimeSeconds: Int32 := 3600
  const DefaultClickLimit: Int32 := 10

  /**
   The configuration in effect: the stored one when the file exists, otherwise
   the defaults.
   */
  function LoadConfig(stored: Option<Config>): (config: Config)
    ensures stored.Some? ==> config == stored.value
    ensures stored.None? ==> config.defaultLifetimeSeconds == 3600 && config.defaultClickLimit == 10
  {
    match stored
    case Some(c) => c
    case None => Config(DefaultLifetimeSeconds, DefaultClickLimit)
  }

  /** What the visitor is told, in the order the checks are made. */
  datatype Outcome =
    | InvalidLink          // no link under that code
    | LimitExhausted       // every allowed click is used up
    | LinkExpired          // the expiry instant has passed; the link is removed
    | Opened(url: string)  // the click is counted and the original URL is opened

  /** The outcome of one resolution and the map after it. */
  datatype Resolution = Resolution(outcome: Outcome, links: LinkMap)

  /**
   Resolving `shortUrl` at instant `now`. The checks run in a fixed order:
   presence, then the click limit, then expiry; only the last two can change
   the map, and each touches the resolved entry alone.
   */
  function Resolve(links: LinkMap, shortUrl: string, now: int): (r: Resolution)
    ensures r.outcome == InvalidLink <==> shortUrl !in links
    ensures r.outcome == LimitExhausted <==> shortUrl in links && links[shortUrl].Exhausted()
    ensures r.outcome == LinkExpired <==>
      shortUrl in links && !links[shortUrl].Exhausted() && links[shortUrl].ExpiredAt(now)
    ensures r.outcome.Opened? <==>
      shortUrl in links && !links[shortUrl].Exhausted() && now <= links[shortUrl].expiry
    // a refused resolution changes nothing
    ensures r.outcome in {InvalidLink, LimitExhausted} ==> r.links == links
    // an expired link is removed, and nothing else
    ensures r.outcome == LinkExpired ==> r.links == links - {shortUrl}
    // a successful one opens the link's own URL and counts exactly one click on it
    ensures r.outcome.Opened? ==>
      && r.outcome.url == links[shortUrl].originalUrl
      && r.links.Keys == links.Keys
      && (forall code :: code in links && code != shortUrl ==> r.links[code] == links[code])
      && r.links[shortUrl].clicks == links[shortUrl].clicks + 1
      && r.links[shortUrl] == links[shortUrl].(clicks := r.links[shortUrl].clicks)
      && r.links[shortUrl].clicks <= r.links[shortUrl].clickLimit
  {
    if shortUrl !in links then
      Resolution(InvalidLink, links)
    else
      var link := links[shortUrl];
      if link.clicks >= link.clickLimit then
        Resolution(LimitExhausted, links)
      else if link.expiry < now then
        Resolution(LinkExpired, links - {shortUrl})
      else
        Resolution(Opened(link.originalUrl), links[shortUrl := link.(clicks := link.clicks + 1)])
  }

  /** The visitor enters `shortUrl` at instant `now`. */
  method ProcessShortLink(store: LinkStore, shortUrl: string, now: int) returns (outcome: Outcome)
    requires store.Valid()
    modifies store
    ensures store.Valid()
    ensures Resolution(outcome, store.links) == Resolve(old(store.links), shortUrl, now)
  {
    if shortUrl !in store.links {
      return InvalidLink;
    }
    var link := store.links[shortUrl];
    if link.clicks >= link.clickLimit {
      return LimitExhausted;
    }
    if link.expiry < now {
      store.links := store.links - {shortUrl};
      return LinkExpired;
    }
    store.links := store.links[shortUrl := link.(clicks := link.clicks + 1)];
    outcome := Opened(link.originalUrl);
  }
}

/**
 The user-facing operations on the registry: creating a link, listing one's
 links, changing a link's click limit, deleting a link, and the timed removal
 that creation schedules.

 Each state-changing operation is a method that takes the shared `LinkStore`,
 written step by step like the Java method, and is specified by a function on the map
 (`Create`, `UpdateLimit`, `Delete`, `Expire`) whose contract states what the
 operation promises.
 */
module LinkManager {
  import opened Links

  // ---------------------------------------------------------------------------
  // Short codes
  // ---------------------------------------------------------------------------

  /** A digit of the lower-case hexadecimal text of a UUID. */
  predicate IsHexDigit(c: char) {
    '0' <= c <= '9' || 'a' <= c <= 'f'
  }

  /**
   The 36-character text of a random (version 4) UUID: groups of 8-4-4-4-12
   hex digits, the version digit '4' at index 14 and one of the variant digits
   8, 9, a, b at index 19.
   */
  predicate IsUuidText(s: string) {
    |s| == 36 &&
    (forall i :: 0 <= i < 36 ==>
      if i == 8 || i == 13 || i == 18 || i == 23 then s[i] == '-' else IsHexDigit(s[i])) &&
    s[14] == '4' &&
    s[19] in {'8', '9', 'a', 'b'}
  }

  /** A short code as the generator produces it: the prefix and eight hex digits. */
  predicate IsShortCode(code: string) {
    |code| == 16 &&
    code[..8] == ShortLinkPrefix &&
    forall i :: 8 <= i < 16 ==> IsHexDigit(code[i])
  }

  /** The prefix followed by the first eight characters of a fresh UUID's text. */
  function GenerateShortUrl(uuid: string): (code: string)
    requires IsUuidText(uuid)
    ensures IsShortCode(code)
    ensures code[|ShortLinkPrefix|..] == uuid[..8]
  {
    ShortLinkPrefix + uuid[..8]
  }

  /** The short codes are exactly what the generator can produce. */
  lemma ShortCodesAreGenerated(code: string)
    ensures IsShortCode(code) <==> exists uuid :: IsUuidText(uuid) && GenerateShortUrl(uuid) == code
  {
    if IsShortCode(code) {
      // "-0000-4000-8000-000000000000"
      var tail := seq(28, j =>
        if j == 0 || j == 5 || j == 10 || j == 15 then '-' else if j == 6 then '4' else if j == 11 then '8' else '0');
      var uuid := code[8..] + tail;
      assert uuid[..8] == code[8..];
      assert IsUuidText(uuid) by {
        forall i | 0 <= i < 36
          ensures if i == 8 || i == 13 || i == 18 || i == 23 then uuid[i] == '-' else IsHexDigit(uuid[i])
        {
          if i < 8 {
            assert uuid[i] == code[8 + i] && IsHexDigit(code[8 + i]);
          } else {
            var j := i - 8;
            assert uuid[i] == tail[j];
          }
        }
        assert uuid[14] == tail[6] && uuid[19] == tail[11];
      }
      assert code == code[..8] + code[8..];
      assert GenerateShortUrl(uuid) == code;
    }
  }

  /**
   Generation makes one attempt and never consults the map: two UUIDs give the
   same short code exactly when their texts share the first eight characters.
   */
  lemma GeneratedCodesCollide(uuid1: string, uuid2: string)
    requires IsUuidText(uuid1) && IsUuidText(uuid2)
    ensures GenerateShortUrl(uuid1) == GenerateShortUrl(uuid2) <==> uuid1[..8] == uuid2[..8]
  {
  }

  // ---------------------------------------------------------------------------
  // Clamping the user's requests against the configuration
  // ---------------------------------------------------------------------------

  /** The lifetime actually granted: the smaller of the request and the default. */
  function EffectiveLifetime(userLifetime: Int32, defaultLifetime: Int32): (lifetime: Int32)
    ensures lifetime <= userLifetime && lifetime <= defaultLifetime
    ensures lifetime == userLifetime || lifetime == defaultLifetime
  {
    if userLifetime <= defaultLifetime then userLifetime else defaultLifetime
  }

  /** The click limit actually granted: the larger of the request and the default. */
  function EffectiveClickLimit(userClickLimit: Int32, defaultClickLimit: Int32): (clickLimit: Int32)
    ensures clickLimit >= userClickLimit && clickLimit >= defaultClickLimit
    ensures clickLimit == userClickLimit || clickLimit == defaultClickLimit
  {
    if userClickLimit >= defaultClickLimit then userClickLimit else defaultClickLimit
  }

  // ---------------------------------------------------------------------------
  // Specifications of the operations on the map
  // ---------------------------------------------------------------------------

  /** The timed removal that creation schedules: remove `shortUrl` after `delaySeconds`. */
  datatype ExpiryTask = ExpiryTask(shortUrl: string, delaySeconds: Int32)

  /** What creation returns and leaves behind. */
  datatype Creation = Creation(shortUrl: string, task: ExpiryTask, links: LinkMap)

  /**
   A creation whose UUID shares its first eight characters with an earlier
   creation's gets the same code, and `put` replaces the earlier link: only the
   later owner's link remains under that code, with nothing of the earlier one.
   */
  lemma CollidingCreationReplacesLink(
    links: LinkMap, config: Config,
    owner1: string, url1: string, lifetime1: Int32, limit1: Int32, uuid1: string, now1: int,
    owner2: string, url2: string, lifetime2: Int32, limit2: Int32, uuid2: string, now2: int)
    requires IsUuidText(uuid1) && IsUuidText(uuid2)
    requires uuid1[..8] == uuid2[..8]
    ensures var first := Create(links, config, owner1, url1, lifetime1, limit1, uuid1, now1);
      var second := Create(first.links, config, owner2, url2, lifetime2, limit2, uuid2, now2);
      && second.shortUrl == first.shortUrl
      && second.links.Keys == first.links.Keys
      && second.links[first.shortUrl].ownerUuid == owner2
      && second.links[first.shortUrl].originalUrl == url2
      && second.links[first.shortUrl].clicks == 0
  {
    GeneratedCodesCollide(uuid1, uuid2);
  }

  /** Whether an owner-only operation went ahead, and the map after it. */
  datatype Change = Change(done: bool, links: LinkMap)

  /**
   Creation: the link is stored under the generated code, overwriting any link
   already stored there, and its removal is scheduled after its lifetime.
   */
  function Create(
    links: LinkMap, config: Config, userUuid: string, originalUrl: string,
    userLifetime: Int32, userClickLimit: Int32, uuid: string, now: int): (r: Creation)
    requires IsUuidText(uuid)
    ensures r.shortUrl == GenerateShortUrl(uuid)
    ensures r.links.Keys == links.Keys + {r.shortUrl}
    ensures forall code :: code in links && code != r.shortUrl ==> r.links[code] == links[code]
    ensures r.links[r.shortUrl].shortUrl == r.shortUrl
    ensures r.links[r.shortUrl].originalUrl == originalUrl
    ensures r.links[r.shortUrl].ownerUuid == userUuid
    ensures r.links[r.shortUrl].clicks == 0
    ensures r.links[r.shortUrl].expiry == now + EffectiveLifetime(userLifetime, config.defaultLifetimeSeconds)
    ensures r.links[r.shortUrl].expiry <= now + config.defaultLifetimeSeconds
    ensures r.links[r.shortUrl].clickLimit == EffectiveClickLimit(userClickLimit, config.defaultClickLimit)
    ensures r.task.shortUrl == r.shortUrl
    ensures now + r.task.delaySeconds == r.links[r.shortUrl].expiry
  {
    var lifetime := EffectiveLifetime(userLifetime, config.defaultLifetimeSeconds);
    var clickLimit := EffectiveClickLimit(userClickLimit, config.defaultClickLimit);
    var shortUrl := GenerateShortUrl(uuid);
    var link := Link(originalUrl, shortUrl, userUuid, now + lifetime, clickLimit, 0);
    Creation(shortUrl, ExpiryTask(shortUrl, lifetime), links[shortUrl := link])
  }

  /**
   Changing the click limit: only the owner of an existing link may, and then
   only that link's limit changes, to any value at all.
   */
  function UpdateLimit(links: LinkMap, userUuid: string, shortUrl: string, newLimit: Int32): (r: Change)
    ensures r.done <==> shortUrl in links && links[shortUrl].ownerUuid == userUuid
    ensures !r.done ==> r.links == links
    ensures r.links.Keys == links.Keys
    ensures forall code :: code in links && code != shortUrl ==> r.links[code] == links[code]
    ensures r.done ==> r.links[shortUrl] == links[shortUrl].(clickLimit := newLimit)
  {
    if shortUrl in links && links[shortUrl].ownerUuid == userUuid then
      Change(true, links[shortUrl := links[shortUrl].(clickLimit := newLimit)])
    else
      Change(false, links)
  }

  /**
   Deleting: only the owner of an existing link may, and then exactly that key
   is removed.
   */
  function Delete(links: LinkMap, userUuid: string, shortUrl: string): (r: Change)
    ensures r.done <==> shortUrl in links && links[shortUrl].ownerUuid == userUuid
    ensures r.links.Keys == if r.done then links.Keys - {shortUrl} else links.Keys
    ensures forall code :: code in r.links ==> r.links[code] == links[code]
  {
    if shortUrl in links && links[shortUrl].ownerUuid == userUuid then
      Change(true, links - {shortUrl})
    else
      Change(false, links)
  }

  /**
   The scheduled removal fires: its code is removed if still present, whoever
   now owns it; every other entry stays.
   */
  function Expire(links: LinkMap, task: ExpiryTask): (r: LinkMap)
    ensures r.Keys == links.Keys - {task.shortUrl}
    ensures forall code :: code in r ==> r[code] == links[code]
    ensures task.shortUrl !in links ==> r == links
  {
    links - {task.shortUrl}
  }

  /** The links a user sees when listing: those whose owner is that user. */
  ghost predicate Owns(link: Link, userUuid: string) {
    link.ownerUuid == userUuid
  }

  // ---------------------------------------------------------------------------
  // The operations, on the shared store
  // ---------------------------------------------------------------------------

  method CreateShortLink(
    store: LinkStore, userUuid: string, config: Config, originalUrl: string,
    userLifetime: Int32, userClickLimit: Int32, uuid: string, now: int)
    returns (shortUrl: string, task: ExpiryTask)
    requires store.Valid()
    requires IsUuidText(uuid)
    modifies store
    ensures store.Valid()
    ensures Creation(shortUrl, task, store.links)
         == Create(old(store.links), config, userUuid, originalUrl, userLifetime, userClickLimit, uuid, now)
  {
    var lifetime := EffectiveLifetime(userLifetime, config.defaultLifetimeSeconds);
    var clickLimit := EffectiveClickLimit(userClickLimit, config.defaultClickLimit);
    shortUrl := GenerateShortUrl(uuid);
    var expiry := now + lifetime;
    var link := Link(originalUrl, shortUrl, userUuid, expiry, clickLimit, 0);
    store.links := store.links[shortUrl := link];
    task := ExpiryTask(shortUrl, lifetime);
  }

  /** Lists the user's links, one entry per link, in no particular order. */
  method ViewLinks(store: LinkStore, userUuid: string) returns (owned: seq<Link>)
    requires store.Valid()
    ensures forall code :: code in store.links && Owns(store.links[code], userUuid) ==> store.links[code] in owned
    ensures forall i :: 0 <= i < |owned| ==>
      Owns(owned[i], userUuid) && owned[i].shortUrl in store.links && store.links[owned[i].shortUrl] == owned[i]
    ensures forall i, j :: 0 <= i < j < |owned| ==> owned[i].shortUrl != owned[j].shortUrl
  {
    owned := [];
    var remaining := store.links.Keys;
    while remaining != {}
      invariant remaining <= store.links.Keys
      invariant forall code :: code in store.links && code !in remaining && Owns(store.links[code], userUuid) ==>
        store.links[code] in owned
      invariant forall i :: 0 <= i < |owned| ==>
        Owns(owned[i], userUuid) && owned[i].shortUrl in store.links && owned[i].shortUrl !in remaining &&
        store.links[owned[i].shortUrl] == owned[i]
      invariant forall i, j :: 0 <= i < j < |owned| ==> owned[i].shortUrl != owned[j].shortUrl
      decreases remaining
    {
      var code :| code in remaining;
      var link := store.links[code];
      if link.ownerUuid == userUuid {
        owned := owned + [link];
      }
      remaining := remaining - {code};
    }
  }

  method UpdateClickLimit(store: LinkStore, userUuid: string, shortUrl: string, newLimit: Int32)
    returns (updated: bool)
    requires store.Valid()
    modifies store
    ensures store.Valid()
    ensures Change(updated, store.links) == UpdateLimit(old(store.links), userUuid, shortUrl, newLimit)
  {
    if shortUrl !in store.links || store.links[shortUrl].ownerUuid != userUuid {
      return false;
    }
    var link := store.links[shortUrl];
    store.links := store.links[shortUrl := link.(clickLimit := newLimit)];
    updated := true;
  }

  method DeleteLink(store: LinkStore, userUuid: string, shortUrl: string) returns (deleted: bool)
    requires store.Valid()
    modifies store
    ensures store.Valid()
    ensures Change(deleted, store.links) == Delete(old(store.links), userUuid, shortUrl)
  {
    if shortUrl !in store.links || store.links[shortUrl].ownerUuid != userUuid {
      return false;
    }
    store.links := store.links - {shortUrl};
    deleted := true;
  }

  /** The scheduled task runs: the timer's callback removes its code. */
  method FireExpiry(store: LinkStore, task: ExpiryTask)
    requires store.Valid()
    modifies store
    ensures store.Valid()
    ensures store.links == Expire(old(store.links), task)
  {
    store.links := store.links - {task.shortUrl};
  }
}

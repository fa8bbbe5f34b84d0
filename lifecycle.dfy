/**
 The registry over time. The interactive sessions and the timer thread issue
 the operations one after another against the same map; `Run` applies any
 such sequence, and the lemmas here state what holds however the operations
 are interleaved.
 */
module Lifecycle {
  import opened Links
  import opened LinkManager
  import opened ShortLinkService

  /** One operation on the registry, with the values the console and clock supply. */
  datatype Op =
    | CreateOp(userUuid: string, originalUrl: string, userLifetime: Int32, userClickLimit: Int32, uuid: string, now: int)
    | ResolveOp(shortUrl: string, now: int)
    | UpdateOp(userUuid: string, shortUrl: string, newLimit: Int32)
    | DeleteOp(userUuid: string, shortUrl: string)
    | FireOp(task: ExpiryTask)

  /** A creation draws its code from the text of a random UUID. */
  predicate WellFormed(op: Op) {
    op.CreateOp? ==> IsUuidText(op.uuid)
  }

  predicate AllWellFormed(ops: seq<Op>) {
    forall i :: 0 <= i < |ops| ==> WellFormed(ops[i])
  }

  function Step(config: Config, links: LinkMap, op: Op): (r: LinkMap)
    requires WellFormed(op)
  {
    match op
    case CreateOp(userUuid, originalUrl, userLifetime, userClickLimit, uuid, now) =>
      Create(links, config, userUuid, originalUrl, userLifetime, userClickLimit, uuid, now).links
    case ResolveOp(shortUrl, now) => Resolve(links, shortUrl, now).links
    case UpdateOp(userUuid, shortUrl, newLimit) => UpdateLimit(links, userUuid, shortUrl, newLimit).links
    case DeleteOp(userUuid, shortUrl) => Delete(links, userUuid, shortUrl).links
    case FireOp(task) => Expire(links, task)
  }

  function Run(config: Config, links: LinkMap, ops: seq<Op>): (r: LinkMap)
    requires AllWellFormed(ops)
    decreases |ops|
  {
    if ops == [] then links else Run(config, Step(config, links, ops[0]), ops[1..])
  }

  /** The codes that the creations among `ops` store links under. */
  function CreatedCodes(ops: seq<Op>): (codes: set<string>)
    requires AllWellFormed(ops)
    decreases |ops|
  {
    if ops == [] then {}
    else (if ops[0].CreateOp? then {GenerateShortUrl(ops[0].uuid)} else {}) + CreatedCodes(ops[1..])
  }

  /** The fields of a link that nothing but a new creation under its code can change. */
  predicate SameIdentity(a: Link, b: Link) {
    a.originalUrl == b.originalUrl && a.shortUrl == b.shortUrl &&
    a.ownerUuid == b.ownerUuid && a.expiry == b.expiry
  }

  /** Every operation keeps each entry stored under its own code. */
  lemma {:induction false} RunKeepsKeyedByCode(config: Config, links: LinkMap, ops: seq<Op>)
    requires AllWellFormed(ops)
    requires KeyedByCode(links)
    ensures KeyedByCode(Run(config, links, ops))
    decreases |ops|
  {
    if ops != [] {
      var next := Step(config, links, ops[0]);
      assert KeyedByCode(next);
      RunKeepsKeyedByCode(config, next, ops[1..]);
    }
  }

  /** Only a creation adds a code to the map. */
  lemma {:induction false} RunOnlyCreationsAddCodes(config: Config, links: LinkMap, ops: seq<Op>)
    requires AllWellFormed(ops)
    ensures Run(config, links, ops).Keys <= links.Keys + CreatedCodes(ops)
    decreases |ops|
  {
    if ops != [] {
      RunOnlyCreationsAddCodes(config, Step(config, links, ops[0]), ops[1..]);
    }
  }

  /**
   A link that no creation overwrites keeps its URL, code, owner and expiry for
   as long as it stays in the map, and its click count never goes down.
   */
  lemma {:induction false} RunKeepsIdentity(config: Config, links: LinkMap, ops: seq<Op>, code: string)
    requires AllWellFormed(ops)
    requires code !in CreatedCodes(ops)
    requires code in Run(config, links, ops)
    ensures code in links
    ensures SameIdentity(Run(config, links, ops)[code], links[code])
    ensures Run(config, links, ops)[code].clicks >= links[code].clicks
    decreases |ops|
  {
    if ops != [] {
      var next := Step(config, links, ops[0]);
      RunKeepsIdentity(config, next, ops[1..], code);
    }
  }

  /**
   Only the owner changes a click limit: when no update on `code` comes from
   its owner and no creation overwrites it, its limit stays as it was.
   */
  lemma {:induction false} OnlyOwnerChangesLimit(config: Config, links: LinkMap, ops: seq<Op>, code: string)
    requires AllWellFormed(ops)
    requires code in links && code !in CreatedCodes(ops)
    requires forall i :: 0 <= i < |ops| && ops[i].UpdateOp? && ops[i].shortUrl == code ==>
      ops[i].userUuid != links[code].ownerUuid
    ensures code in Run(config, links, ops) ==> Run(config, links, ops)[code].clickLimit == links[code].clickLimit
    decreases |ops|
  {
    if ops != [] {
      var next := Step(config, links, ops[0]);
      if code in next {
        assert next[code].clickLimit == links[code].clickLimit && SameIdentity(next[code], links[code]);
        assert forall i :: 1 <= i < |ops| ==> ops[1..][i - 1] == ops[i];
        OnlyOwnerChangesLimit(config, next, ops[1..], code);
      } else {
        RunOnlyCreationsAddCodes(config, next, ops[1..]);
      }
    }
  }

  // ---------------------------------------------------------------------------
  // Repeated resolution of one code
  // ---------------------------------------------------------------------------

  /** The outcomes of resolving one code at each of the given instants in turn. */
  datatype Replay = Replay(outcomes: seq<Outcome>, links: LinkMap)

  function ResolveAll(links: LinkMap, shortUrl: string, times: seq<int>): (r: Replay)
    ensures |r.outcomes| == |times|
    decreases |times|
  {
    if times == [] then Replay([], links)
    else
      var first := Resolve(links, shortUrl, times[0]);
      var rest := ResolveAll(first.links, shortUrl, times[1..]);
      Replay([first.outcome] + rest.outcomes, rest.links)
  }

  /** The click count after `n` resolutions that all come before the expiry. */
  function ClicksAfter(link: Link, n: nat): (clicks: Int32) {
    if link.clicks >= link.clickLimit then link.clicks
    else if link.clicks + n <= link.clickLimit then link.clicks + n
    else link.clickLimit
  }

  /**
   Before its expiry, a link under its limit opens exactly
   `clickLimit - clicks` more times; every later resolution reports
   exhaustion, counts nothing and leaves the link in place.
   */
  lemma {:induction false} ClickBudget(links: LinkMap, shortUrl: string, times: seq<int>)
    requires shortUrl in links
    requires forall i :: 0 <= i < |times| ==> times[i] <= links[shortUrl].expiry
    ensures var link := links[shortUrl];
      var r := ResolveAll(links, shortUrl, times);
      && (forall i :: 0 <= i < |times| ==>
            r.outcomes[i] == if link.clicks + i < link.clickLimit then Opened(link.originalUrl) else LimitExhausted)
      && r.links == links[shortUrl := link.(clicks := ClicksAfter(link, |times|))]
    decreases |times|
  {
    var link := links[shortUrl];
    if times != [] {
      var first := Resolve(links, shortUrl, times[0]);
      var next := first.links;
      assert shortUrl in next && next[shortUrl].expiry == link.expiry;
      ClickBudget(next, shortUrl, times[1..]);
      var rest := ResolveAll(next, shortUrl, times[1..]);
      if link.clicks < link.clickLimit {
        assert next == links[shortUrl := link.(clicks := link.clicks + 1)];
        assert ClicksAfter(next[shortUrl], |times| - 1) == ClicksAfter(link, |times|);
      } else {
        assert next == links;
      }
    } else {
      assert links[shortUrl := link] == links;
    }
  }

  /**
   A link created under the default configuration with a requested limit of 2
   gets the default limit of 10 instead: ten resolutions before its expiry
   open it, and the eleventh reports exhaustion.
   */
  lemma DefaultLimitWinsOverSmallerRequest(links: LinkMap, userUuid: string, url: string, uuid: string, now: int)
    requires IsUuidText(uuid)
    ensures var c := Create(links, LoadConfig(None), userUuid, url, 5, 2, uuid, now);
      var r := ResolveAll(c.links, c.shortUrl, seq(11, _ => now));
      && (forall i :: 0 <= i < 10 ==> r.outcomes[i] == Opened(url))
      && r.outcomes[10] == LimitExhausted
      && r.links == c.links[c.shortUrl := c.links[c.shortUrl].(clicks := 10)]
  {
    var c := Create(links, LoadConfig(None), userUuid, url, 5, 2, uuid, now);
    assert c.links[c.shortUrl].clickLimit == 10;
    ClickBudget(c.links, c.shortUrl, seq(11, _ => now));
  }
}

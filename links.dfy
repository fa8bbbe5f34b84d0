/**
 The records of the short-link registry and the shared map that holds them.

 A link is keyed by its short code ("krat.ko/" followed by eight characters)
 and records who created it, when it expires and how many clicks it allows.
 */
module Links {

  /** Java's `int`: every count and duration read with `Integer.parseInt`. */
  type Int32 = x: int | -0x8000_0000 <= x < 0x8000_0000

  datatype Option<T> = None | Some(value: T)

  /** The constant prefix of every short code. */
  const ShortLinkPrefix: string := "krat.ko/"

  /** The two settings of the configuration file. */
  datatype Config = Config(defaultLifetimeSeconds: Int32, defaultClickLimit: Int32)

  /**
   One shortened URL. `expiry` is an instant in whole seconds; `clicks` counts
   the successful resolutions so far.
   */
  datatype Link = Link(
    originalUrl: string,
    shortUrl: string,
    ownerUuid: string,
    expiry: int,
    clickLimit: Int32,
    clicks: Int32)
  {
    /** No click is left: resolving reports exhaustion. */
    predicate Exhausted() {
      clicks >= clickLimit
    }

    /** The expiry instant lies strictly before `now` (`Instant.isBefore`). */
    predicate ExpiredAt(now: int) {
      expiry < now
    }
  }

  /** The registry's contents: short code to link. */
  type LinkMap = map<string, Link>

  /** Every entry is stored under its own short code. */
  ghost predicate KeyedByCode(links: LinkMap) {
    forall code :: code in links ==> links[code].shortUrl == code
  }

  /** The shared, mutable map of links that every operation reads and changes. */
  class LinkStore {
    var links: LinkMap

    ghost predicate Valid()
      reads this
    {
      KeyedByCode(links)
    }

    constructor ()
      ensures Valid() && links == map[]
    {
      links := map[];
    }
  }
}

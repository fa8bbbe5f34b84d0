# Short-link registry

A model of the core of a console short-link service. The registry maps a short code
(`krat.ko/` followed by eight characters) to a link record: the original URL, the
owner's UUID, an expiry instant, a click limit and a click count. Users create
links, list their own links, change a link's click limit and delete links.
Visitors resolve a code. A timer removes each link when its lifetime is over.

The files:

- `links.dfy` (module `Links`): the `Link` record, Java's 32-bit `int` as `Int32`,
  the two configuration settings, and `LinkStore`, the shared mutable map.
- `link_manager.dfy` (module `LinkManager`): code generation, the clamping of the
  requested lifetime and click limit, and the create / list / update-limit /
  delete operations with the scheduled expiry. Each state-changing operation is a
  method that takes the shared `LinkStore` and follows the Java method step by
  step. A function on the map specifies it (`Create`, `UpdateLimit`, `Delete`, `Expire`).
- `short_link_service.dfy` (module `ShortLinkService`): the default configuration
  and the resolution of a short code (`Resolve`, `ProcessShortLink`).
- `lifecycle.dfy` (module `Lifecycle`): any sequence of operations applied to the
  map one after another. It holds lemmas that stay true whatever the interleaving,
  and the exact click budget of a link resolved repeatedly.

The clock, the random UUID and the timer are inputs. The current instant `now` is
an integer number of seconds. The UUID text is a parameter. Creation returns the
`ExpiryTask` it schedules, and `FireExpiry` runs a task; the model does not tie
that call to the clock.

Behaviours of the code worth noting:

- The click limit is clamped with a maximum (`max(requested, default)`), so it is
  never below the configured default. The lifetime is clamped with a minimum.
- A link has expired only when its expiry is strictly before `now`. At
  `now == expiry` it still opens.
- The click-limit check comes before the expiry check. A link that is both
  exhausted and past its expiry reports exhaustion and stays in the map:
  resolution never removes it; only its timer (if it has one), its owner's
  delete, or a creation that regenerates its code does.
- There is no check that the requested lifetime, the requested limit or a new
  limit is positive.
- The code is generated in one attempt and never checked against the map. `put`
  overwrites a link already stored under the same code. Two UUIDs whose texts share
  their first eight characters give the same code (`GeneratedCodesCollide`), and
  the second creation replaces the first link (`CollidingCreationReplacesLink`).
  There is no error for a duplicate code.
- A non-owner's update or delete is refused the same way as a missing code.
  Update and delete report only success or refusal: there is no error for a
  non-positive number.

## Model

| member | source | states |
|---|---|---|
| `Links.LinkStore.constructor` | src/ShortLinkService.java:19 | The shared map starts empty, and every entry is stored under its own code. |
| `LinkManager.GenerateShortUrl` | src/LinkManager.java:76-78 | A generated code is `krat.ko/` followed by the first eight characters of the random (version 4) UUID text: 16 characters, the last eight hexadecimal digits. |
| `LinkManager.ShortCodesAreGenerated` | src/LinkManager.java:76-78 | A string has the short-code shape exactly when some UUID text generates it. |
| `LinkManager.GeneratedCodesCollide` | src/LinkManager.java:76-78 | Two UUIDs give the same code exactly when their first eight characters agree, since generation makes a single attempt. |
| `LinkManager.CollidingCreationReplacesLink` | src/LinkManager.java:24-28 | When a second creation draws a UUID whose first eight characters match the first creation's, both get the same code and the second link replaces the first: only the second owner's link remains under that code. |
| `LinkManager.EffectiveLifetime` | src/LinkManager.java:14-17 | The granted lifetime is at most the requested one and at most the configured default, and equals one of them. |
| `LinkManager.EffectiveClickLimit` | src/LinkManager.java:19-22 | The granted click limit is at least the requested one and at least the configured default, and equals one of them. |
| `LinkManager.Create` | src/LinkManager.java:10-33 | The keys gain exactly the generated code. Every other entry is unchanged, and an entry already under that code is replaced. The new link has the caller's URL and owner and zero clicks. Its expiry is `now` plus the effective lifetime, never beyond `now` plus the default. Its limit is the effective click limit. The removal task is scheduled for that code, with a delay that reaches exactly the expiry. |
| `LinkManager.CreateShortLink` | src/LinkManager.java:10-33 | The store's new contents, the returned code and the scheduled task are those `Create` describes, and every entry is still stored under its own code. |
| `LinkManager.ViewLinks` | src/LinkManager.java:35-43 | The listing holds every link owned by the user, nothing else, and each at most once. The store is not changed. |
| `LinkManager.UpdateLimit` | src/LinkManager.java:45-60 | The update goes ahead exactly when the code is present and the caller owns it. In that case only that link's limit changes, to the new value, unvalidated. Otherwise nothing changes. |
| `LinkManager.UpdateClickLimit` | src/LinkManager.java:45-60 | The result and the store's new contents are those `UpdateLimit` describes. |
| `LinkManager.Delete` | src/LinkManager.java:62-74 | The delete goes ahead exactly when the code is present and the caller owns it. In that case exactly that key is removed. Otherwise nothing changes. Remaining entries are never altered. |
| `LinkManager.DeleteLink` | src/LinkManager.java:62-74 | The result and the store's new contents are those `Delete` describes. |
| `LinkManager.Expire` | src/LinkManager.java:32 | The timer removes its own code and no other. If the code is already gone it changes nothing. |
| `LinkManager.FireExpiry` | src/LinkManager.java:32 | The store's new contents are those `Expire` describes. |
| `ShortLinkService.LoadConfig` | src/ShortLinkService.java:135-146 | Without a configuration file, the defaults are a lifetime of 3600 seconds and a click limit of 10. Otherwise the stored settings apply. |
| `ShortLinkService.Resolve` | src/ShortLinkService.java:54-73 | The outcome is "invalid" iff the code is absent. It is "exhausted" iff `clicks >= clickLimit`, checked before expiry. It is "expired" iff under the limit and `expiry < now`. Otherwise the link opens, including at `now == expiry`. Invalid and exhausted change nothing. Expired removes exactly that key. Opening returns the link's URL and adds one click to that link alone, every other field and entry unchanged. Afterwards `clicks <= clickLimit`. |
| `ShortLinkService.ProcessShortLink` | src/ShortLinkService.java:50-73 | The outcome and the store's new contents are those `Resolve` describes. |
| `Lifecycle.RunKeepsKeyedByCode` | src/LinkManager.java:24-28 | After any sequence of creations, resolutions, updates, deletions and timer firings, every entry is still stored under its own code. |
| `Lifecycle.RunOnlyCreationsAddCodes` | src/LinkManager.java:24-28 | After any sequence of operations, every code in the map was there before or was generated by one of the creations. |
| `Lifecycle.RunKeepsIdentity` | src/LinkManager.java:27-28 | A link whose code no creation regenerates keeps its URL, code, owner and expiry while it stays in the map, and its click count never decreases. |
| `Lifecycle.OnlyOwnerChangesLimit` | src/LinkManager.java:49-57 | If no update on a code comes from its owner and no creation overwrites it, its click limit stays as it was over any sequence of operations. |
| `Lifecycle.ClickBudget` | src/ShortLinkService.java:60-71 | Resolved repeatedly before its expiry, a link opens exactly while `clicks + i < clickLimit` and then reports exhaustion. After `n` resolutions its click count is `min(clicks + n, clickLimit)`, or stays as it was if the link is already at or over its limit (an update may have lowered the limit below the count). No other entry and no other field changes. |
| `Lifecycle.DefaultLimitWinsOverSmallerRequest` | src/LinkManager.java:19-22 | Under the default configuration, a link requested with a limit of 2 gets the limit 10. Ten resolutions before its expiry open it, and the eleventh reports exhaustion. |

## Left out

- Console input and output: the menu loops, the prompts and the messages. The inputs are parameters, and the resolution messages are the `Outcome` values.
- Opening the browser for a resolved URL (a desktop call). The model returns the URL in `Opened`.
- Reading and writing the configuration file and the data file (Java serialization). Only the two defaults are kept. A configuration file that lacks a key makes `Integer.parseInt` fail; that failure is not modelled.
- User registration and login. A user is only the UUID passed to the operations.
- `Integer.parseInt` failures on malformed console input. Every number is a valid 32-bit `int`.
- Threads and the concurrent map. Operations, including timer firings, run one at a time, so the race between a resolution and the timer on the same link is not modelled.
- The link record is a value. Setting the click limit and counting a click replace the map entry, which equals updating the one shared object while the map holds the only reference. A reference that outlives its entry is not modelled, for example one held by a resolution that the timer overtakes.
- Timer firings are not tied to the clock: `FireExpiry` and `FireOp` accept any task at any point, including a task no creation scheduled or a firing before the link's expiry. The lemmas over sequences of operations hold for these extra firings too, so they over-approximate the real schedule.
- Links restored from the data file get no timer, since only creation schedules one; such a link that is exhausted and past its expiry stays in the map. Restoring the data file is not part of this model.
- Instants are whole seconds. The sub-second precision of `Instant` is not modelled.
- The `Link` class is not part of this model. The model assumes its constructor starts the click count at 0 and that its getters return the stored fields.

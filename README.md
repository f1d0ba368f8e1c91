# route53dnsupdater: the zone table and its three passes

A dynamic-DNS updater keeps a table of hosted-zone records (`HostedZone`:
zone id, domain, record type, ttl, plus the address it should publish,
`localip`, and the address the provider holds, `awsip`). An `Updater` object
holds the current public IPv4 and IPv6 addresses and runs three passes over
the table:

- `getrecords` asks for the public addresses;
- `populate` copies the desired address into each zone by type and reads the
  published one from the provider's record listing (`getIP`);
- `update` decides, per zone, whether to send an upsert (`UpdateRecord`).

This project models that core as the code has it, including three literal
defects. The `update` type test reads `'AAA'`, so it never matches `AAAA`.
Its two comparisons set a string or `null` against a boolean, so they never
hold. The `catch` blocks of `populate` name an undeclared `err`, so they throw
before clearing `localip`. The consequence, proved here, is that `update` as
written never sends an upsert.

Files:

- `js.dfy` (module `Js`): the JavaScript values the fields hold (`null`,
  `undefined`, booleans, strings), truthiness and `!`. Strict equality on
  these values is equality of `Js.Value`.
- `wrappers.dfy` (module `Wrappers`): `Option`, for calls that may fail.
- `provider.dfy` (module `Provider`): a listing entry `{name, type, ttl,
  values}`, the upsert argument `{zoneId, name, type, ttl, values}`, the
  provider's hosted zones (a map from zone id to listing), and the effect of
  an upsert on them. That effect is the provider's documented UPSERT
  behaviour: in the request's hosted zone, the record set with that name and
  type is created, or replaced if it exists.
- `server.dfy` (module `Server`): `HostedZone`, the zone table, `getIP`,
  `UpdateRecord`, and the `Updater` class. Each pass is also a function on a
  value-level `World` (the updater's fields plus every zone's state). The
  class methods are proved to act exactly as those functions say.
- `lifecycle.dfy` (module `Lifecycle`): runs of passes in any order.
- `findings.dfy` (module `Findings`): the corrected rules beside the ones as
  written, with the inputs that tell them apart.

Remote calls are inputs. A public-address lookup is an `Option<string>`
(`None`: the promise rejected). Each zone's listing response is an
`Option<seq<ProviderRecord>>` (`None`: the listing call reported an error).
The upserts a pass would send are returned as a sequence of requests.

## Model

| member | source | states |
|---|---|---|
| `Server.Matching` | src/server.js:55-57 | `data.filter(...)` never returns more records than were listed. |
| `Server.MatchingKeepsExactlyMatches` | src/server.js:55-57 | The filter keeps a record exactly when it is listed and its name is the zone's domain and its type the zone's type. |
| `Server.SelectNullIff` | src/server.js:55-60 | `getIP` resolves with `null` exactly when no listed record has both the zone's domain as name and the zone's type. |
| `Server.SelectFirstMatch` | src/server.js:55-62 | When record `k` is the first match in listing order, the result is its `values[0]`. An empty `values` gives `undefined`. |
| `Server.SelectIgnoresOtherRecords` | src/server.js:55-62 | Inserting a non-matching record anywhere in the listing never changes the result. This covers an `A` record beside the `AAAA` record of the same name. |
| `Server.FirstValue` | src/server.js:61 | `values[0]` is never `null` (an empty list gives `undefined`) and never a boolean, so a `null` result always means "no match". |
| `Server.Select` | src/server.js:58-62 | The value `getIP` resolves with is never a boolean. |
| `Server.GetIP` | src/server.js:49-66 | The lookup rejects exactly when the listing call fails. It never resolves with a boolean. |
| `Server.UpdateRecord` | src/server.js:31-38 | The request carries `[resultip]` as its values, so the provider can store it exactly when `resultip` is an address string (not `null`). |
| `Server.UpsertIsReadBack` | src/server.js:31-38 | The request copies the zone's id, domain, type and ttl. Once the provider has carried it out, the zone's own hosted zone holds the record set with the zone's name, type and ttl and the address sent. `getIP` for that zone resolves with that address, and no other hosted zone changes. |
| `Server.UpsertLeavesOtherZones` | src/server.js:31-38 | The request for one zone does not change what `getIP` reads for a zone in another hosted zone or with another domain or type. |
| `Server.Refreshed` | src/server.js:75-83 | `ipv4` takes the resolver's address. `ipv6` takes it only when IPv6 is enabled; otherwise it is unchanged. A failed IPv4 lookup aborts the pass with both fields unchanged. Zones are untouched. The pass completes only if every lookup it made succeeded. |
| `Server.PopulateZone` | src/server.js:99-117 | One zone's step sets `localip` to the IPv6 address for type `AAAA` and to the IPv4 address otherwise. When the listing arrives, `awsip` becomes what `getIP` selects from it. When the listing fails, `awsip` keeps its old value, because the assignment never completes. The step keeps id, domain, type and ttl, and never puts a boolean into the zone. |
| `Server.Populated` | src/server.js:98-119 | `populate` visits every zone and gives each exactly that zone's step with its own listing response. It keeps the number, order and configuration of the zones and the updater's addresses, and it keeps the no-boolean invariant. |
| `Server.PopulatedReadsListing` | src/server.js:55-62 | After `populate`, a zone whose listing arrived holds `null` exactly when nothing in the listing matches it on name and type. Otherwise it holds the first value of the first match. A zone whose listing failed keeps its old `awsip`. |
| `Server.PopulateIdempotent` | src/server.js:98-119 | Running `populate` twice with the same listing responses gives the same zones as running it once. |
| `Server.ZoneUpserts` | src/server.js:87-95 | One zone's step of `update` as written sends at most one request. That request is for the zone's own id, domain, type and ttl. |
| `Server.UpsertsOver` | src/server.js:86-96 | Over a list of zones, `update` never sends more requests than there are zones. |
| `Server.Upserts` | src/server.js:85-97 | One `update` pass never sends more requests than there are zones in the table. |
| `Server.UpsertsOverEmpty` | src/server.js:86-96 | With no boolean held anywhere, the per-zone tests never hold: the `AAA` branch compares a boolean with the IPv6 value, the other compares the published value with a boolean. No upsert is sent. |
| `Server.UpdateSendsNothing` | src/server.js:85-97 | One `update` pass over a world holding no boolean sends nothing. |
| `Server.HostedZone.constructor` | src/server.js:16-24 | A new zone has `localip` and `awsip` null and the given id, domain, type and ttl. |
| `Server.ZoneTable.constructor` | src/server.js:14 | The zone table starts empty. |
| `Server.ZoneTable.Add` | src/server.js:27-29 | `zones.push(new HostedZone(...))` appends one fresh zone with null addresses and leaves the earlier entries as they were. |
| `Server.ConfiguredTable` | src/server.js:27-29 | The configured table holds the three zones in that order, with null addresses. |
| `Server.Updater.constructor` | src/server.js:70-73 | A new updater has both addresses null and the given IPv6 switch. |
| `Server.Updater.GetRecords` | src/server.js:75-83 | The updater's new fields and the completion flag are exactly `Refreshed` of the old state. The zones are not touched. |
| `Server.Updater.Populate` | src/server.js:98-119 | Each zone in the table is updated in place. The new state of every zone is exactly `Populated` of the old state. |
| `Server.Updater.Update` | src/server.js:85-97 | The pass returns exactly the upserts `Upserts` prescribes, and it changes no state. Under the updater's invariant that list is empty. |
| `Lifecycle.Initial` | src/server.js:16-24 | The world at start-up has the updater's two addresses null, the given IPv6 switch, and one zone per configuration with its id, domain, type and ttl and both addresses null. It holds no boolean. |
| `Lifecycle.Step` | src/server.js:124-141 | One pass (`getrecords`, `populate` or `update`) as a step. `getrecords` and `populate` send nothing, `update` changes nothing, and the number of zones is kept. |
| `Lifecycle.Run` | src/server.js:124-141 | The passes run in any order, which covers every order the start-up and the two timers produce. The number of zones never changes. |
| `Lifecycle.RunSendsNothing` | src/server.js:75-119 | From any world holding no boolean, every sequence of passes sends no upsert and still holds no boolean. |
| `Lifecycle.NothingEverSent` | src/server.js:14-141 | From start-up on, whatever the lookups and listings return, the program as written never sends an upsert. |
| `Findings.IntendedZoneUpserts` | src/server.js:87-95 | The corrected step sends at most one request per zone. That request is for the zone's own id, domain, type and ttl. |
| `Findings.IntendedUpserts` | src/server.js:85-97 | The corrected `update` never sends more requests than there are zones in the table. |
| `Findings.IntendedSendsExactlyForDrift` | src/server.js:86-96 | With the type test and the two comparisons corrected, a request is sent exactly for each drifting zone. That request writes the zone's desired address. |
| `Findings.IntendedIdleWhenInSync` | src/server.js:86-96 | Under the corrected rule, a table in step with its desired addresses sends nothing. |
| `Findings.IntendedSkipsIPv6WhenDisabled` | src/server.js:87-90 | Under the corrected rule with IPv6 off, no `AAAA` record is written. |
| `Findings.IntendedConverges` | src/server.js:86-119 | After the provider carries out a zone's corrected request and `populate` reads the zone again, the zone no longer drifts. The program runs `populate` only at start-up, so this needs a further correction (see below). |
| `Findings.CorrectedResendsEveryTick` | src/server.js:137-141 | In the single `A`-record scenario with line 92 corrected, an `update` tick changes no state, so the next tick sends the same upsert again. |
| `Findings.ARecordDriftMissed` | src/server.js:92 | Scenario: one `A` record, nothing published, IPv4 203.0.113.5. After refresh and populate, `update` as written sends nothing; the corrected rule sends the one upsert. |
| `Findings.AaaaRecordDriftMissed` | src/server.js:87-88 | Scenario: an `AAAA` record with IPv6 on and nothing published. As written nothing is sent; the corrected rule writes the IPv6 address. |
| `Findings.FailedListingKeepsLocalIp` | src/server.js:101-107 | As written, a failed listing leaves `localip` holding the address just copied in and `awsip` unchanged. |
| `Findings.IntendedPopulateZone` | src/server.js:104-106 | With the `catch` corrected, a failed listing clears `localip` and leaves `awsip` as it was. A successful listing acts as written. |

## Findings

| source | as written | input that shows it | evidently intended | confidence | as-written member | corrected member |
|---|---|---|---|---|---|---|
| src/server.js:92 | `zone.awsip === !this.ipv4` compares the published address with a boolean, so it never holds | one `A` record `db.example.com` in zone `Z1`, nothing published, IPv4 lookup 203.0.113.5 | upsert when `zone.awsip !== this.ipv4` | high; not executed | `Findings.ARecordDriftMissed` | `Findings.IntendedSendsExactlyForDrift` |
| src/server.js:87-88 | the type test `'AAA'` never matches `AAAA`, and `!zone.awsip === this.ipv6` compares a boolean with the IPv6 address | an `AAAA` record with IPv6 on, nothing published, IPv6 lookup 2001:db8::5 | type test `'AAAA'`, upsert when `zone.awsip !== this.ipv6` | high; not executed | `Findings.AaaaRecordDriftMissed` | `Findings.IntendedSendsExactlyForDrift` |
| src/server.js:104-107 | the `catch` block reads the undeclared `err`, so it throws before `zone.localip = null` | a zone whose listing call fails after an address was resolved | a failed listing clears `localip` | high; not executed | `Findings.FailedListingKeepsLocalIp` | `Findings.IntendedPopulateZone` |

The rest of the model (`Server`, `Lifecycle`) follows the code as written.
The corrected rules are stated only in `Findings`, beside the as-written
ones, so that both can be compared.

## Intended behaviour and the code

The updater is meant to keep each zone's record in step with the host's
current address. That intended behaviour has four parts, and the code
differs from each. The code is followed in every case.

- Intended: `update` waits until `populate` has run once. The code has no
  such flag, and `update` reads the table whenever its timer fires.
- Intended: a failed listing marks the published value absent. The code
  keeps the previous `awsip`, because the assignment
  `zone.awsip = await getIP(zone)` never completes when the lookup rejects.
  Even a working `catch` block would only clear `localip`.
- Intended: after a successful upsert, the zone records the value it
  published. The code never touches `awsip` in `update`, and the upsert
  callback only logs.
- Intended: `update` upserts whenever the published and desired values
  differ. The code never upserts (see Findings).

The last two points interact. Suppose only lines 87, 88 and 92 are
corrected. `populate` runs only once, inside `start` (src/server.js:124-128),
and `update` never writes `awsip`. So a drifting zone stays drifting, and
the same upsert is sent again on every one-second tick
(src/server.js:137-141). `Findings.CorrectedResendsEveryTick` shows this.
`Findings.IntendedConverges` holds only once `populate` reads the zone
again, or once `update` records what it published.

## Left out

- Route 53 client construction and the credentials read from the environment (src/server.js:2-12): configuration of a remote service.
- `publicIp.v4()` / `publicIp.v6()`: network lookups. Their outcomes are the parameters of `GetRecords`.
- `r53.records` and `r53.upsertRecord`: network calls. Listing responses are inputs; upserts are returned as request lists. The upsert callback only logs, so its success or failure changes no state and is not modelled.
- The provider's handling of a request whose values are not all strings (such as `[null]` when no address is known): `Provider.Upserted` and `Provider.UpsertedIn` are defined only for storable requests.
- The `setInterval` timers and the `start` sequence (src/server.js:122-141): scheduling. `Lifecycle.Run` covers every order of whole passes, so it over-approximates the program's runs: the code runs `populate` only once, inside `start`, while `Run` also admits later `populate` passes. The model does not cover `start` stopping when `getrecords` rejects, or what an unhandled rejection does to the process.
- The un-awaited `async` callbacks inside `forEach`: each pass is a sequential loop over the table. Each callback touches only its own zone, so the order does not change the final state. Interleaving of a pass with another pass is not modelled.
- All `console.log` / `console.error` output. This includes line 81, which prints the literal text `this.ipv4`.
- The truthiness of the `IPV6E` environment string (src/server.js:5): `ipv6Enabled` is a plain boolean.
- `id`, `domain`, `type` and `ttl` are `const` fields, because the code never reassigns them. The IPv6 switch is a `const` for the same reason.
- `Server.Updater.Populate`: requires one listing response per zone, since each zone makes its own listing call. It also requires distinct table entries; `ZoneTable.Add` guarantees this because it always pushes a fresh object.

# TrueQuickplay server list, modelled in Dafny

TrueQuickplay is a Team Fortress 2 server browser. It has two halves, and this project models the core of each.

The backend (`server/server.js`):
- asks the Steam master server for the servers carrying the `truequickplay` tag;
- turns each listed entry into a client-facing record, with a gamemode taken from the map prefix and a coarse region taken from the IP address;
- keeps the records in a single in-memory cache for five minutes;
- falls back to that cache when the upstream call fails, and serves three fixed placeholder records when the upstream lists no server.

The browser component (`src/components/Servers.js`):
- filters the records by region, gamemode and player count, and optionally sorts them by player count;
- fills its filter dictionaries from the fetched list.

## Modules

- `js_text.dfy`, module `JsText`: the pieces of JavaScript these files rely on.
  - Truthiness; note that an empty array is truthy.
  - `split(sep)[0]` and `split(sep)[1]`.
  - `Number(...)` on decimal text and `parseInt(...)`. There is no NaN value: `None` plays its part.
  - `${n}` for integers.
- `seqs.dfy`, module `Seqs`: `Array.prototype.filter` (`KeepIf`) and how filters compose.
- `regions.dfy`, module `Regions`: `getRegionFromIP`, as the source's ordered chain of octet tests.
  - Lemmas state, for each label, exactly which octets produce it once first-match-wins is taken into account.
  - Several rules of the chain turn out partly or wholly shadowed: the `76` rule of North America Central, most of New Zealand and half of South America.
- `enrichment.dfy`, module `Enrichment`: the gamemode `switch`, the per-entry record literal, the `null` filtering of malformed entries, and the placeholder records.
- `server_api.dfy`, module `ServerApi`:
  - `HandleServers`, a function of the cache, the request, the clock and the upstream's answer that states every branch of `GET /api/servers`;
  - the mutable `ServerCache` object and request counter, as classes whose `GetServers` method is proved equal to `HandleServers`;
  - the cache-clearing route, the two debug routes' reports, and the join-URL template with its inverse.
- `server_browser.dfy`, module `ServerBrowser`:
  - the client's `GAMEMODE_MAP` lookup, related to the server's table;
  - `applyFilters` as a method: three filters, then an in-place insertion sort on an array, proved to give a sorted permutation of the filtered list;
  - the `forEach` loops that collect the filter options;
  - the toggles and `resetFilters`;
  - the component state as a class `Servers`, whose `FetchServers` states the stale-filter behaviour described next.

In `fetchServers`, `applyFilters(serverData)` runs with the filters of the render in which the callback was created: the dictionaries it has just initialised are not seen yet. So the very first fetch shows an empty list. The list shown after a fetch follows the filters from before the fetch, until the effect at `src/components/Servers.js:198-202` re-applies the filters.

## Model

| member | source | states |
|---|---|---|
| JsText.BeforeFirst | server/server.js:143-144 | `split(sep)[0]` is a prefix of the text that has no separator in it; when shorter than the text it is followed by the separator |
| JsText.SecondPiece | server/server.js:252-254 | a second piece of `split` exists exactly when the separator occurs; it is the separator-free text right after the first separator, ending at the next separator or at the end |
| JsText.BeforeFirstAbsent | src/components/Servers.js:77 | a text without the separator is its own first piece |
| JsText.BeforeFirstOfJoin | server/server.js:143-144 | the first piece of `a + sep + b` is `a` whenever `a` has no separator |
| JsText.NatToDecimal | server/server.js:210 | a number renders as a non-empty digit string without a leading zero |
| JsText.DecimalRoundTrip | server/server.js:210 | reading back the digits of a rendered number gives the number |
| JsText.IntToDecimal | server/server.js:210 | `${i}` of an integer: no contract of its own; `ParseIntOfDecimal` states that `parseInt` reads it back |
| JsText.LeadingDigits | src/components/Servers.js:84 | the longest all-digit prefix: the next character, if any, is not a digit |
| JsText.ParseInt | src/components/Servers.js:84 | `parseInt` gives NaN exactly when no digit follows the optional sign |
| JsText.LeadingDigitsOfJoin | src/components/Servers.js:84 | digits followed by a non-digit: the digits are the leading digits |
| JsText.ParseIntOfDigits | src/components/Servers.js:84 | `parseInt` of an optional sign, digits (leading zeros allowed) and a non-digit gives the signed value of the digits |
| JsText.ParseIntOfDecimal | src/components/Servers.js:84 | `parseInt` of a rendered integer followed by a non-digit gives the integer back |
| JsText.NumberOf | server/server.js:252 | `Number(...)` of an octet's text: no contract of its own; `NumberOfDecimal` states the value of a number's decimal text |
| JsText.NumberOfDecimal | server/server.js:252 | `Number` of a natural number's decimal text is that number |
| JsText.SecondPieceOfJoin | server/server.js:252-254 | the second piece of `a + sep + b + rest` is `b` when neither `a` nor `b` holds the separator and `rest` is empty or starts with it |
| Seqs.KeepIf | src/components/Servers.js:61-63 | `filter` keeps only items of the input that pass, keeps every passing item, and never adds occurrences |
| Seqs.KeepIfCounts | src/components/Servers.js:61-86 | each passing item keeps its exact number of occurrences, each failing one has none |
| Seqs.KeepIfIsSubsequence | src/components/Servers.js:61-86 | a filtered list is a subsequence of its input (order preserved) |
| Seqs.KeepIfTwice | src/components/Servers.js:61-86 | two filters in a row are one filter by the conjunction of their tests |
| Seqs.KeepIfSameTest | src/components/Servers.js:61-86 | tests that agree on every item keep the same list |
| Seqs.KeepIfNone | server/server.js:220 | a test failing on every item keeps nothing |
| Regions.RegionFromOctets | server/server.js:256-338 | the chain always ends in one of its thirteen labels |
| Regions.GetRegionFromIP | server/server.js:250-254 | every address, however malformed, gets a non-empty label from that set |
| Regions.FirstOctet | server/server.js:252-253 | `octets[0]`: no contract of its own; described by `OctetsOfDotted` |
| Regions.SecondOctet | server/server.js:252-254 | `octets[1]`, absent without a dot: no contract of its own; described by `OctetsOfDotted` |
| Regions.OctetsOfDotted | server/server.js:252-254 | the first two octets of an address written in decimal are read back as numbers, whatever follows the second |
| Regions.NorthAmericaWestExactly | server/server.js:257-261 | "North America West" exactly for first octet 24, 76 or 99, or 68 with second octet 128-191, 72 with 0-31, 75 with 0-63 |
| Regions.NorthAmericaEastExactly | server/server.js:257-268 | "North America East" exactly for first octet 23, 64 or 65, or 66 with second octet 0-127, 71 or 74 with 0-255 |
| Regions.NorthAmericaCentralExactly | server/server.js:257-273 | "North America Central" exactly for first octet 67 or 70, or 72 with a second octet that is not a number in 0-31; its 76 test is dead |
| Regions.SeventySixIsWest | server/server.js:257-273 | every 76.x address is "North America West" whatever its second octet |
| Regions.EuropeExactly | server/server.js:257-335 | "Europe" exactly for first octet 192-195, or 128-191 except 189, 190, 191 |
| Regions.AsiaEastExactly | server/server.js:257-301 | "Asia East" exactly for 103, 106, 111, 112, 113, 114 |
| Regions.AsiaSoutheastExactly | server/server.js:257-306 | "Asia Southeast" exactly for 101, 115-119 |
| Regions.AsiaPacificExactly | server/server.js:257-311 | "Asia Pacific" exactly for 121-126 |
| Regions.AustraliaExactly | server/server.js:257-317 | "Australia" exactly for 27, 43, 49, 58, 59, 60; 49 never reaches New Zealand |
| Regions.NewZealandExactly | server/server.js:257-322 | "New Zealand" only for 110: the other five listed octets are claimed earlier |
| Regions.SouthAmericaExactly | server/server.js:257-330 | "South America" exactly for 189, 190, 191, 200, 201 |
| Regions.AsiaPacificClassExactly | server/server.js:257-336 | "Asia/Pacific" exactly for first octet 196-223 except 200, 201 |
| Regions.UnknownExactly | server/server.js:257-338 | "Unknown" exactly when the first octet is NaN or outside 1-223 |
| Regions.NorthAmericaClassExactly | server/server.js:257-334 | "North America" exactly for the 1-127 first octets no named rule takes, with the second-octet conditions of 66, 68, 71, 74, 75 |
| Enrichment.PrefixGamemode | server/server.js:150-201 | the `switch` never yields an empty gamemode nor "Unknown" |
| Enrichment.ServerGamemode | server/server.js:146-148 | "Unknown" exactly when the map is absent or empty |
| Enrichment.ServerGamemodeByTable | server/server.js:148-202 | for a map, the table entry of the text before the first `_`, or "Other" when the table has none |
| Enrichment.PrefixGamemodeListed | server/server.js:150-198 | a prefix the `switch` lists gets its table gamemode |
| Enrichment.PrefixGamemodeUnlisted | server/server.js:199-200 | any other prefix gets "Other" |
| Enrichment.PrefixedMapGamemode | server/server.js:146-150 | a map `<prefix>_<rest>` whose prefix has no `_` gets the gamemode of its prefix, whatever the rest |
| Enrichment.BuildRecord | server/server.js:205-213 | the record is complete; id and address are `addr`; the name defaults to "Unknown Server"; players is `players/max_players`; the gamemode is the table's answer for the map; the region is the classifier's label for the host before `:`; a missing map gives "Unknown Map" and gamemode "Unknown" |
| Enrichment.Enrich | server/server.js:136-141 | an entry yields a record exactly when `addr` is present and contains `:` |
| Enrichment.HasValidAddr | server/server.js:138 | `server.addr && server.addr.includes(':')`: no contract of its own; `Enrich` states that it decides whether an entry yields a record |
| Enrichment.DropNulls | server/server.js:220 | `filter(server => server !== null)`: no contract of its own; described by `EnrichAllKeepsValidInOrder` |
| Enrichment.EnrichAll | server/server.js:135-220 | the `map` then the null filter: no contract of its own; `EnrichAllKeepsValidInOrder`, `EnrichAllFromUpstream` and `EnrichAllLength` describe it |
| Enrichment.EnrichEach | server/server.js:135-218 | `map` keeps length and position: item i is the enrichment of entry i |
| Enrichment.BuildAll | server/server.js:205-213 | building valid entries keeps length and position |
| Enrichment.EnrichAllKeepsValidInOrder | server/server.js:135-220 | a refresh yields exactly the records of the entries with a valid address, in upstream order |
| Enrichment.EnrichAllFromUpstream | server/server.js:220 | every served record is the record of some valid upstream entry |
| Enrichment.EnrichAllLength | server/server.js:220 | a refresh never yields more records than there were entries |
| Enrichment.PlayersTextParsesBack | server/server.js:210 | the text before `/` of `players/max_players` is the player number's rendering, and `parseInt` reads the number back |
| Enrichment.NumberText | server/server.js:210 | `${n}` of a count or `undefined`: no contract of its own; described by `PlayersTextParsesBack` |
| Enrichment.PlayersText | server/server.js:210 | `${players}/${max_players}`: no contract of its own; described by `PlayersTextParsesBack` |
| Enrichment.MockServersPopulated | server/server.js:90-118 | there are three placeholders and each is a complete record |
| Enrichment.MockServers | server/server.js:90-118 | the three placeholder records: no contract of its own; described by `MockServersPopulated`, `MockGamemodesAgree` and `MockHosts` |
| Enrichment.DustbowlGamemode | server/server.js:94-95 | the gamemode the server's table gives `cp_dustbowl` is "Control Points" |
| Enrichment.UpwardGamemode | server/server.js:103-104 | the gamemode the server's table gives `pl_upward` is "Payload" |
| Enrichment.TwoFortGamemode | server/server.js:112-113 | the gamemode the server's table gives `ctf_2fort` is "Capture the Flag" |
| Enrichment.MockGamemodesAgree | server/server.js:90-118 | each placeholder's gamemode is what the server's own table gives its map |
| Enrichment.LoopbackFirstOctet | server/server.js:252-253 | the first octet of `127.0.0.1` is 127 |
| Enrichment.ClassRegion | server/server.js:334 | an address whose first octet is in 1-127 and matches no named rule is "North America" |
| Enrichment.LoopbackRegion | server/server.js:334 | `127.0.0.1` is classified "North America" |
| Enrichment.LoopbackHost | server/server.js:143-144 | the host part of `127.0.0.1:<port>` is `127.0.0.1` |
| Enrichment.MockHosts | server/server.js:98-116 | every placeholder address has host `127.0.0.1` |
| Enrichment.MockRegionsNamed | server/server.js:97-115 | no placeholder is labelled "North America" |
| Enrichment.MockRegionsAreNotClassified | server/server.js:90-118 | no placeholder's region is the one the classifier would give its address |
| Enrichment.ExampleHost | server/server.js:138-144 | the sample entry `1.2.3.4:27015` is valid and its host is `1.2.3.4` |
| Enrichment.ExampleRegion | server/server.js:334 | `1.2.3.4` is "North America" |
| Enrichment.ExamplePlayers | server/server.js:210 | 5 players of 24 render as `5/24` |
| Enrichment.EnrichAllSingle | server/server.js:135-220 | a one-entry list with a valid address yields exactly that entry's record |
| Enrichment.ExampleRecord | server/server.js:205-213 | the sample entry's record, field by field |
| Enrichment.SingleServerExample | server/server.js:135-220 | a refresh on the one sample entry serves exactly its record |
| ServerApi.RoundedAgeIsNearest | server/server.js:60-65 | the reported age is the nearest whole second to the cache's age, halves rounding up |
| ServerApi.RoundedAgeSeconds | server/server.js:60-65 | `Math.round(ms / 1000)`: no contract of its own; described by `RoundedAgeIsNearest` |
| ServerApi.IsCacheHit | server/server.js:59 | the cache-hit test: no contract of its own; described by `CacheHitExactly` |
| ServerApi.ListsNoServer | server/server.js:86 | an upstream reply without a server list or with an empty one: no contract of its own; described by `EmptyUpstreamServesMock` |
| ServerApi.HandleServers | server/server.js:46-246 | the cache is unchanged when the upstream was not asked, and in every case either unchanged or restamped with `now`; a 500 only with an empty cache, which it leaves as it was; every 200 serves what the cache then holds |
| ServerApi.CacheHitExactly | server/server.js:55-68 | the upstream is not asked exactly when there is no forced refresh, cached data exists and is under 300000 ms old; the hit serves the cache with its age and the request id |
| ServerApi.CacheHitIgnoresUpstream | server/server.js:59-68 | on a hit the upstream's answer makes no difference |
| ServerApi.ForcedRefreshQueries | server/server.js:55-59 | `?refresh=true` always asks the upstream |
| ServerApi.EmptyUpstreamServesMock | server/server.js:86-129 | a reply without servers serves the three placeholders, which become the cache marked as mock data |
| ServerApi.RealRefresh | server/server.js:132-230 | a reply with servers serves the records of its valid entries in order, cached as real data stamped `now` |
| ServerApi.UpstreamFailure | server/server.js:231-246 | an upstream error leaves the cache alone and serves it as an error fallback, or answers 500 when it holds no data |
| ServerApi.FailureExactly | server/server.js:231-246 | a 500 happens exactly on a miss whose upstream call fails while the cache is empty |
| ServerApi.StatusCode | server/server.js:61-245 | 200 for every answer but the error one, 500 for it: no contract of its own; described by `UpstreamFailure` and `FailureExactly` |
| ServerApi.FromCacheExactly | server/server.js:61-241 | `fromCache` is true exactly on a hit and on the error fallback |
| ServerApi.RefreshServesNextRequests | server/server.js:59-230 | after a refresh, every non-forced request of the next five minutes is a hit on the same records, aged since the refresh |
| ServerApi.RefreshExpires | server/server.js:40-59 | five minutes after a refresh the next request asks the upstream again |
| ServerApi.AllMalformedIsCachedEmpty | server/server.js:135-225 | if every entry is malformed, an empty list is cached and, being truthy, is served as a hit with no server |
| ServerApi.CacheStatusOf | server/server.js:351-355 | `exists` and `age` are present exactly when the cache holds data; the count is its length, else 0 |
| ServerApi.CacheReportOf | server/server.js:359-365 | the cache report agrees with the request report's status and shows the mock flag and the timestamp |
| ServerApi.ClearedCacheReports | server/server.js:368-375 | after clearing, both reports say no cache, no age, no server |
| ServerApi.ServerCountAfterRequest | server/server.js:354 | after a 200 answer the debug count is the number of records served |
| ServerApi.ServerCache.constructor | server/server.js:33-37 | the cache starts with no data, timestamp 0, not mock |
| ServerApi.Backend.constructor | server/server.js:33-43 | empty cache and request counter 0 |
| ServerApi.Backend.GetServers | server/server.js:46-247 | increments the counter and updates the cache object in place, giving exactly the answer and cache of `HandleServers` with the new counter as request id |
| ServerApi.Backend.ClearCache | server/server.js:368-375 | a new empty cache object replaces the old one; the counter is kept; the fixed message is returned |
| ServerApi.Backend.DebugRequests | server/server.js:347-357 | reports the request counter and the cache status |
| ServerApi.Backend.DebugCache | server/server.js:358-366 | reports the cache as `CacheReportOf` describes it |
| ServerApi.JoinUrl | server/server.js:376-382 | the URL is the `steam://connect/` prefix, the address, and the `/?appid=440` suffix |
| ServerApi.AddressOfJoinUrl | server/server.js:380 | an address is read only from a text long enough to hold prefix and suffix |
| ServerApi.JoinUrlRoundTrip | server/server.js:380 | the address can be read back from its join URL |
| ServerApi.JoinUrlOfAddress | server/server.js:380 | every text of the join-URL shape is the join URL of the address read from it |
| ServerBrowser.ClientGamemode | src/components/Servers.js:77-78 | the client's gamemode of a map is never empty |
| ServerBrowser.ServerKeysInClientTable | src/components/Servers.js:11-29 | every prefix of the server's table, with `_` appended, is a client key with the same gamemode |
| ServerBrowser.ClientKeyFromServerTable | src/components/Servers.js:11-29 | every client key is a server prefix or "achievement", followed by `_` |
| ServerBrowser.ClientTableIsServerTable | src/components/Servers.js:11-29 | a prefix plus `_` is a client key exactly when it is a server prefix or "achievement", with the server's gamemode or "Achievement" |
| ServerBrowser.ClientTable | src/components/Servers.js:11-29 | `GAMEMODE_MAP`: no contract of its own; described by `ClientTableIsServerTable`, `ServerKeysInClientTable` and `ClientKeyFromServerTable` |
| ServerBrowser.ClientAgreesWithServer | src/components/Servers.js:77-78 | for a non-empty map the client's gamemode equals the server's, except that `achievement_` maps are "Achievement" rather than "Other" |
| ServerBrowser.NoPrefixSeparator | src/components/Servers.js:77-78 | a map name without `_` is looked up whole, followed by `_` |
| ServerBrowser.UnknownMapKey | src/components/Servers.js:11-29 | "Unknown Map" has no `_` and "Unknown Map_" is no client key |
| ServerBrowser.UnknownMapIsOther | src/components/Servers.js:76-78 | the server's "Unknown Map" placeholder reaches the client's gamemode filter as "Other" |
| ServerBrowser.FilteredIsKeepIf | src/components/Servers.js:61-86 | the shown list is one `filter` by the combined test |
| ServerBrowser.Filtered | src/components/Servers.js:61-86 | the three `filter` calls: no contract of its own; described by `FilteredIsKeepIf`, `FilteredExactly` and `FilteredIsSubsequence` |
| ServerBrowser.PlayerCount | src/components/Servers.js:84 | `parseInt(server.players.split('/')[0])`: no contract of its own; described by `PlayerCountOfRecord` |
| ServerBrowser.PlayerCountOfRecord | src/components/Servers.js:84 | the client's `parseInt` of a record's `players` text gives back the upstream player count the server wrote, NaN when it was absent |
| ServerBrowser.FilteredExactly | src/components/Servers.js:61-86 | a server is shown exactly when it is listed and passes region, gamemode and player-range tests |
| ServerBrowser.FilteredIsSubsequence | src/components/Servers.js:61-86 | the shown list keeps the input's order; a listed server that passes appears exactly as often as in the input, one that fails not at all |
| ServerBrowser.NoRegionSelectedShowsNothing | src/components/Servers.js:61-63 | with an empty region dictionary nothing is shown |
| ServerBrowser.FilterStepsCompose | src/components/Servers.js:58-86 | the three filters applied one after another give the combined filter |
| ServerBrowser.Selected | src/components/Servers.js:62 | `dict[key] === true`: no contract of its own; described by `FilteredExactly`, `AllSelectedExactly` and `NoRegionSelectedShowsNothing` |
| ServerBrowser.RegionPasses | src/components/Servers.js:61-63 | the region callback: no contract of its own; described by `FilteredExactly` and `FilterStepsCompose` |
| ServerBrowser.GamemodePasses | src/components/Servers.js:75-80 | the gamemode callback, which passes a server without a map: no contract of its own; described by `FilteredExactly` and `FilterStepsCompose` |
| ServerBrowser.PlayersPass | src/components/Servers.js:83-86 | the inclusive player range, failed by a NaN count or bound: no contract of its own; described by `FilteredExactly` and `FilterStepsCompose` |
| ServerBrowser.Passes | src/components/Servers.js:61-86 | the three tests together: no contract of its own; described by `FilteredExactly` and `FilterStepsCompose` |
| ServerBrowser.InsertLast | src/components/Servers.js:90-95 | inserting the next element extends the sorted prefix by one and permutes the array |
| ServerBrowser.SortByKey | src/components/Servers.js:89-96 | sorting in place leaves the array ordered by the comparator and a permutation of its old contents |
| ServerBrowser.SortKey | src/components/Servers.js:91-92 | `parseInt(players.split('/')[0])` as a sort key: no contract of its own; described by `SortByKey` and `ApplyFilters` |
| ServerBrowser.InOrder | src/components/Servers.js:90-95 | the comparator `a - b` or `b - a`: no contract of its own; described by `SortByKey` and `ApplyFilters` |
| ServerBrowser.SortInPlace | src/components/Servers.js:89-96 | the sorted copy has the same elements, ordered by player count |
| ServerBrowser.ApplyFilters | src/components/Servers.js:56-98 | the list is the given one or else `servers`; the result is the filtered list, exactly without sort, otherwise as a permutation sorted ascending or descending by player count |
| ServerBrowser.Toggled | src/components/Servers.js:158-171 | the toggled key is present and its selection flips; every other key is unchanged |
| ServerBrowser.ToggleTwice | src/components/Servers.js:158-171 | toggling the same key twice restores every key's selection |
| ServerBrowser.ToggleRegionFlipsOnlyThatRegion | src/components/Servers.js:158-163 | toggling a region flips the region test for that region's servers only |
| ServerBrowser.AllSelectedExactly | src/components/Servers.js:116-131 | the collected dictionary selects exactly the collected keys and has no other key |
| ServerBrowser.RegionOptions | src/components/Servers.js:116-123 | the truthy regions of the list: no contract of its own; `CollectFilterOptions` is proved equal to it and `OptionsGrow` describes it |
| ServerBrowser.GamemodeOptions | src/components/Servers.js:116-131 | the client gamemodes of the servers with a map: no contract of its own; `CollectFilterOptions` is proved equal to it and `OptionsGrow` describes it |
| ServerBrowser.AllSelected | src/components/Servers.js:116-131 | a dictionary with every collected key set to `true`: no contract of its own; described by `AllSelectedExactly` and `AllSelectedAdd` |
| ServerBrowser.AllSelectedAdd | src/components/Servers.js:122 | adding a key to the set sets it to `true` in the dictionary |
| ServerBrowser.OptionsGrow | src/components/Servers.js:119-131 | one more server adds its region (when non-empty) and its client gamemode (when it has a map) |
| ServerBrowser.CollectFilterOptions | src/components/Servers.js:116-131 | the loop yields the dictionaries selecting every region and every client gamemode in the list |
| ServerBrowser.ResetSelectsEveryServer | src/components/Servers.js:174-191 | after a reset a listed server passes the region test iff it has a region, and always passes the gamemode test |
| ServerBrowser.ResetState | src/components/Servers.js:174-195 | the filters after a reset: no contract of its own; described by `ResetSelectsEveryServer` and `ResetShowsAllInRange` |
| ServerBrowser.ResetShowsAllInRange | src/components/Servers.js:174-195 | after a reset exactly the servers with a region and 0 to 32 players are shown, in order |
| ServerBrowser.RefreshParam | src/components/Servers.js:108-110 | the `refresh=true` query is sent exactly on a forced refresh |
| ServerBrowser.ForceRefreshOf | src/components/Servers.js:206-365 | the mount effect does not force a refresh; the refresh button and the "Try Again" button (whose click event is truthy) do |
| ServerBrowser.RetryForcesRefresh | src/components/Servers.js:108-110 | only the first load is sent without `refresh=true`; a retry after a failed load sends it |
| ServerBrowser.Servers.constructor | src/components/Servers.js:32-43 | loading, nothing fetched, empty dictionaries, descending sort, 0 to 24 players |
| ServerBrowser.Servers.FetchServers | src/components/Servers.js:102-155 | the request carries `refresh=true` exactly when forced; on failure, only the error and loading flags change; on success, the list is stored, each dictionary is initialised only if it was empty, and the shown list is filtered with the filters from before the fetch (empty if no region was selected) |
| ServerBrowser.Servers.Load | src/components/Servers.js:115-148 | after a successful fetch, the list is stored, an empty region or gamemode dictionary is seeded with every option marked selected, a non-empty one is kept, and the shown list is the list filtered (and sorted, if a sort is set) with the filters read before the fetch; nothing else changes |
| ServerBrowser.Servers.FiltersEffect | src/components/Servers.js:197-202 | once loaded with servers, the shown list is re-filtered with the current filters; otherwise unchanged |
| ServerBrowser.Servers.ToggleRegionFilter | src/components/Servers.js:158-163 | the region dictionary becomes its toggle |
| ServerBrowser.Servers.ToggleGamemodeFilter | src/components/Servers.js:166-171 | the gamemode dictionary becomes its toggle |
| ServerBrowser.Servers.ResetFilters | src/components/Servers.js:174-195 | the filters become the reset state of the fetched list |

## Left out

- HTTP plumbing is not modelled: Express routing, CORS, status objects, JSON serialisation, the health route and the listener.
- Logging is not modelled. Logging affects no answer, with one exception: the `catch` of the per-entry callback (`server/server.js:214-216`) reads `server.addr` again. For an entry that is `null`, the read at `server/server.js:138` throws, the `catch` reads it again and throws, `Promise.all` rejects, and the whole refresh takes the error branch (stale cache or 500). The model's `RawServer` is always an object, so this path is not represented.
- The Steam call is a parameter, `UpstreamReply`: the answer the upstream would give if asked. The API key, the query filter and the 100-entry limit are not modelled.
- A list that is not an array is out of scope: the source would throw on it and reach its error branch, and that case is not represented.
- `Date.now()` is a parameter `now`, in milliseconds. The `timestamp` of `GET /api/debug/cache` is kept as the millisecond number instead of its ISO text. The `currentTime` field of `GET /api/debug/requests` is dropped.
- ServerApi.Backend.GetServers: a request runs to completion as one step. The source suspends at `await axios.get` (`server/server.js:75`), and other requests run meanwhile. Several effects follow that the model does not capture:
  - the error branch reads `serverCache.data` again (`server/server.js:235`), so a request that began on an empty cache can fall back to data another request stored meanwhile;
  - a `DELETE /api/debug/cache` during the wait swaps in a new cache object, and the waiting request's writes land in that new object;
  - two misses each query the upstream, and the last writer wins.
- `Promise.all` over the per-entry callbacks is a sequential map. The callbacks do not wait on anything, and their `try/catch` cannot be reached with the fields the model gives an entry.
- `cacheAge` of `/api/servers` and `age` of `/api/debug/requests` (`server/server.js:353`) are sent as text: a number followed by `" seconds"`. The model keeps the number only.
- An absent `isErrorFallback` is modelled as `false`, and an absent `isMockData` or `requestId` as `None`.
- `Number(...)` on octet text accepts decimal digits only; whitespace, signs, hex and exponent forms are read as NaN. `parseInt` reads an optional sign and leading decimal digits; leading whitespace and radix prefixes are not modelled.
- Upstream `players` and `max_players` are integers or absent; any other JSON type is not modelled.
- Player counts are unbounded integers, not JavaScript doubles. `${n}` writes a count of 1e21 or more in exponent form (`1e+21`), which `parseInt` reads as 1, and JSON integers beyond 2^53 are rounded when parsed; neither is captured.
- Enrichment.PlayersTextParsesBack: holds for the program only for counts below 1e21, because of the exponent form above.
- ServerBrowser.PlayerCountOfRecord: holds for the program only for counts below 1e21, for the same reason.
- `filterBadWords`, the banned-word fetch, `showFilters` and all rendering are left out. The words are never used to filter servers.
- React's scheduling is not modelled. The model does not say when the effect runs; it does say what the effect does when it runs.
- `useCallback` closures are modelled only as far as `FetchServers` reads the filters from before the fetch.
- `window`, the browser, the network and `axios` are not modelled. The client's fetch result is a parameter, `FetchOutcome`.
- A 200 answer whose `servers` is not an array is not modelled. The client would fail inside its `forEach` and report the load error, so it is covered like `FetchFailed`.
- The inherited properties of a JavaScript object are not modelled for `GAMEMODE_MAP`. The looked-up key has a single `_`, at its end, so no inherited property name such as `__proto__` can be hit. The table is a `match` on its 17 keys.
- ServerBrowser.ApplyFilters: when sorting it states a permutation of the filtered list ordered by player count, not the stable order that `Array.prototype.sort` gives servers with equal counts.
- ServerBrowser.SortKey reads a NaN count as 0. This is only a placeholder: every server that reaches the sort has passed the player-count filter, so its count is a number.
- ServerApi.Backend.ClearCache: replaces the cache object. This is what `serverCache = {...}` does, but aliasing of the old object by other holders is not modelled.

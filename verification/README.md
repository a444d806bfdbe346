# Pokémon wiki catalogue: a Dafny model

This project models the server-side core of a small Pokémon wiki built on the
public PokéAPI. It has three parts.

**Data layer** (`src/lib/pokeapi.js`) is a caching front to the PokéAPI:
- It keeps the master list of all Pokémon and the list of type names, each in a singleton slot with an expiry time.
- It keeps type membership and Pokémon detail records in keyed time-to-live maps.
- Upstream replies are classified into not-found, request errors and unexpected failures.
- Detail records are cached under both `name:<name>` and `id:<id>`.

**Catalogue query route** (`src/pages/api/pokemon/index.js`) serves one page of the catalogue. It:
- normalises the query and rejects an unknown sort;
- filters the master list by type and by name substring;
- sorts by one of four orders;
- clamps the page and slices 24 entries;
- shapes one card per entry, falling back to a degraded card when an entry's detail is not found.

**Pager** (`src/components/Pagination.js`) chooses the page numbers to show and where the `...` gaps go. It also decides which buttons are disabled.

Files:

| file | module | contents |
|---|---|---|
| `Wrappers.dfy` | `Wrappers` | `Option` |
| `Text.dfy` | `Text` | the JavaScript string operations the code relies on: `trim`, `toLowerCase`, `includes`, a string order, decimal printing and `parseInt` |
| `Sequences.dfy` | `Sequences` | `Array.prototype.filter`, and a stable `sort` with a comparator |
| `PokeApi.dfy` | `PokeApi` | the data layer; the caches are the fields of class `Cache`, updated in place by its methods |
| `CacheBehaviour.dfy` | `CacheBehaviour` | two calls in a row on one cache: idempotence, negative caching, cross-population, expiry |
| `CatalogQuery.dfy` | `CatalogQuery` | the query route: pure pipeline functions and the `Handle` method that threads the cache |
| `CatalogExample.dfy` | `CatalogExample` | a worked query (fire type, `q=char`, `name-asc`) |
| `Pagination.dfy` | `Pagination` | `getVisiblePages` (a function, then a loop) and the disabled conditions |

Modelling conventions:
- `Date.now()` is the parameter `now`.
- Each upstream call is passed in as a `Reply`: a status with a parsed body, or a thrown exception.
- The ghost field `Cache.requested` logs the path of every upstream request. "Answered from the cache" is stated as "`requested` unchanged".
- The outcome of each cache call is a function of the cache state it finds and of the reply. For the master list, `ListOutcome`, `ListSlot` and `ListRequests` give the answer, the slot left and the requests made. For a type's members, `MembershipOutcome`, `MembershipMap` and `TypeRequests` do the same. For a lookup by id, `ByIdOutcome` gives the answer with the detail map left, and `ByIdRequests` the requests. `WindowLookups` chains the lookups of a page's window through the detail map. The route's contracts use these functions to fix what the data layer returned and the cache each request leaves.
- A missing string field is `""` and a missing id is `0`, because the code tests them for falsiness.
- An empty array is truthy, so a cached empty list still counts as data.

The model follows the code, except for the sort guard: the route uses the corrected guard described under "## Findings" (see "## Left out"). Points of the code worth knowing:
- An empty name, or an id that is not a positive integer, raises the not-found error (`PokeApiNotFoundError`, status 404). There is no separate invalid-argument kind. Inside the query route, such an entry is therefore degraded rather than failing the page.
- A transport failure of `fetch` is not a `PokeApiRequestError`. It gives a 500, not a "service unavailable" 502.
- A detail record is cached only when its name and its id are both truthy.
- The substring filter lowercases the query but not the entry name. The match is case-sensitive on the name.
- Neither unique ids nor unique names are enforced. The model proves that the sort is stable, and that no two entries tie when keys are unique (`CatalogQuery.UniqueKeysNoTies`).

## Model

| member | source | states |
|---|---|---|
| `Text.TrimSpec` | src/pages/api/pokemon/index.js:20 | `trim` removes exactly the leading and trailing whitespace: the result occurs in the input with only whitespace around it, and does not start or end with whitespace |
| `Text.NormalizeString` | src/pages/api/pokemon/index.js:19-21 | trim, then lower-case. The result has no outer whitespace and no upper-case letter, and normalising again changes nothing (`TrimSpec`, `NormalizeIdempotent`, `NormalizeFixesNormal`) |
| `Text.NormalizeIdempotent` | src/pages/api/pokemon/index.js:19-21 | normalising (trim, then lowercase) a second time changes nothing |
| `Text.NormalizeFixesNormal` | src/pages/api/pokemon/index.js:19-21 | a string with no outer whitespace and no upper-case letter is its own normalisation |
| `Text.ContainsAtOffset` | src/pages/api/pokemon/index.js:80 | `includes` holds exactly when the needle occurs at some offset of the name |
| `Text.LexLeTotal` | src/pages/api/pokemon/index.js:15-16 | the string order used for `localeCompare` relates every two names |
| `Text.LexLeTransitive` | src/pages/api/pokemon/index.js:15-16 | the string order is transitive |
| `Text.LexLeAntisymmetric` | src/pages/api/pokemon/index.js:15-16 | two names that each sort no later than the other are equal |
| `Text.IntToStringInjective` | src/lib/pokeapi.js:178 | different ids print differently, so `id:<id>` keys never collide |
| `Text.ParseIntRoundTrip` | src/pages/api/pokemon/index.js:40 | `parseInt` reads a printed integer back, whatever non-digit text follows it |
| `Sequences.Filter` | src/pages/api/pokemon/index.js:75-80 | `filter` keeps at most the input's elements, only those that pass, and every element that passes |
| `Sequences.FilterIsSubsequence` | src/pages/api/pokemon/index.js:75-80 | a filtered list is a subsequence of its input |
| `Sequences.FilterCommutes` | src/pages/api/pokemon/index.js:75-80 | two filters give the same result in either order |
| `Sequences.FilterFilter` | src/pages/api/pokemon/index.js:75-80 | two filters in a row keep what satisfies both |
| `Sequences.SortBy` | src/pages/api/pokemon/index.js:83 | `sort` returns a permutation of its input |
| `Sequences.SortBySorted` | src/pages/api/pokemon/index.js:83 | with a consistent comparator, the sorted list is in order |
| `Sequences.SortByStable` | src/pages/api/pokemon/index.js:83 | sorting is stable: elements that compare equal keep their input order |
| `Sequences.SortBySortedIdentity` | src/pages/api/pokemon/index.js:83 | sorting a list already in order returns it unchanged |
| `Sequences.FilterDistinct` | src/components/Pagination.js:6 | filtering keeps a list free of repetitions |
| `Sequences.SortByDistinct` | src/components/Pagination.js:7 | sorting keeps a list free of repetitions |
| `PokeApi.FetchFromPokeApi` | src/lib/pokeapi.js:60-72 | a 2xx reply yields its body; 404 yields not-found, which is a request error with status 404; any other status yields a request error carrying that status; a thrown exception propagates as an unexpected error |
| `PokeApi.ParsePokemonIdFromUrl` | src/lib/pokeapi.js:74-77 | the id is the final digit run of a URL ending in `/pokemon/<digits>` with an optional `/`, and there is no id otherwise (`ParseComposedUrl`, `ParsedUrlHasShape`) |
| `PokeApi.ParseComposedUrl` | src/lib/pokeapi.js:74-77 | every URL ending in `/pokemon/` (any letter case), a digit run and an optional slash yields the digit run's value |
| `PokeApi.ParsedUrlHasShape` | src/lib/pokeapi.js:74-77 | only URLs of that shape yield an id, and the id is the value of their final digit run |
| `PokeApi.ToEntry` | src/lib/pokeapi.js:87-98 | an upstream entry is kept iff its URL yields an id other than 0, and then as `{id, name, url}` with its own name and URL |
| `PokeApi.Entries` | src/lib/pokeapi.js:86-100 | every listed entry has a positive id, and an entry is listed iff some upstream entry maps to it |
| `PokeApi.EntriesInOrder` | src/lib/pokeapi.js:86-100 | one entry is listed per upstream entry that the filter keeps, in upstream order: the i-th listed entry is what the i-th kept upstream entry maps to |
| `PokeApi.IdLeTotalPreorder` | src/lib/pokeapi.js:101 | the id comparator is consistent (total and transitive) |
| `PokeApi.MasterList` | src/lib/pokeapi.js:86-101 | the entries with a truthy id, sorted stably by id (`MasterListShape`, `EntriesInOrder`) |
| `PokeApi.MasterListShape` | src/lib/pokeapi.js:86-101 | the master list is sorted ascending by id, is a permutation of the kept entries, and keeps entries with equal ids in upstream order |
| `PokeApi.NameLeTotalPreorder` | src/lib/pokeapi.js:118 | the name comparator is consistent |
| `PokeApi.TypeNames` | src/lib/pokeapi.js:116-118 | upstream's type names, sorted by name (`TypeNamesShape`) |
| `PokeApi.TypeNamesShape` | src/lib/pokeapi.js:116-118 | the type list is a permutation of the upstream names, sorted by name |
| `PokeApi.IsFresh` | src/lib/pokeapi.js:35-37 | a slot is fresh while it holds data and its expiry is later than `now`; the master-list contract and `CacheBehaviour.ListTwice` rely on it |
| `PokeApi.GetMapCache` | src/lib/pokeapi.js:39-51 | a lookup hits iff the key is present and not yet expired; a hit leaves the map unchanged; a miss removes the key (a no-op when it was absent) |
| `PokeApi.SetMapCache` | src/lib/pokeapi.js:53-58 | the key now maps to `{data, now + ttl}`; every other key keeps its entry |
| `PokeApi.SetThenGet` | src/lib/pokeapi.js:39-58 | a value just stored is found until `now + ttl` and is evicted from then on |
| `PokeApi.SetKeepsOtherKeys` | src/lib/pokeapi.js:53-58 | storing under one key does not change what a lookup of another key finds |
| `PokeApi.DetailKeysDistinct` | src/lib/pokeapi.js:177-178 | a `name:` key and an `id:` key never collide, and equal keys of one kind mean equal names or ids |
| `PokeApi.ConsistentLookup` | src/lib/pokeapi.js:188-190 | in the detail cache, a record found under `name:n` is named `n` and one under `id:i` has id `i` |
| `PokeApi.ByIdOutcomeSpec` | src/lib/pokeapi.js:198-213 | a lookup by a positive id answers either upstream's reply, after exactly one request, or the live record under `id:<n>`, which carries id `n`, with no request and no change; the detail map stays consistent |
| `PokeApi.ByIdOutcomeAnswers` | src/lib/pokeapi.js:198-213 | hence every lookup by id answers not-found for an id that is not positive, and otherwise upstream's answer or the live record cached in the map it was given under `id:<n>`, which carries that id (`ByIdAnswer`) |
| `PokeApi.Cache.constructor` | src/lib/pokeapi.js:7-18 | both slots start as `{data: null, expiresAt: 0}`, both maps start empty, and no request has been made |
| `PokeApi.Cache.FetchPokemonList` | src/lib/pokeapi.js:79-107 | a fresh slot is returned with no request and no change. Otherwise one request is made: on success the slot holds the new master list until `now + 6h`; on failure the error propagates and the slot is unchanged. The result is always a sorted list of positive ids. The answer, the slot left and the requests are `ListOutcome`, `ListSlot` and `ListRequests` of the old slot and the reply |
| `PokeApi.Cache.FetchTypeList` | src/lib/pokeapi.js:109-124 | the same for the type list, sorted by name, with the type list's time-to-live |
| `PokeApi.Cache.FetchPokemonNamesByType` | src/lib/pokeapi.js:126-170 | an empty normalised name gives `{found: false, names: {}}` with no cache access, and a live entry is returned with no request. Otherwise one request is made: success caches `{found: true, names}`, not-found caches `{found: false, names: {}}`, and any other error propagates, leaving only the eviction of an expired entry. The answer, the map left and the requests are `MembershipOutcome`, `MembershipMap` and `TypeRequests` of the old map and the reply |
| `PokeApi.Cache.CachePokemonDetail` | src/lib/pokeapi.js:172-179 | the detail map becomes `StoreDetail` of the old one: the record is stored under `name:` and `id:` with the detail time-to-live, or nothing is written if the name or id is falsy; the other caches and the requests are unchanged |
| `PokeApi.CrossPopulated` | src/lib/pokeapi.js:172-179 | after those two writes, both keys find the record until it expires |
| `PokeApi.Cache.FetchPokemonByName` | src/lib/pokeapi.js:181-196 | an empty normalised name raises not-found with no cache access; a live `name:` entry is returned with no request, and carries that name; otherwise one request, whose payload is cached under both keys and returned, or whose error propagates |
| `PokeApi.Cache.FetchPokemonById` | src/lib/pokeapi.js:198-213 | an id that is not a positive integer raises not-found with no cache access. A live `id:` entry is returned with no request, and carries that id. Otherwise one request is made for `/pokemon/<id>`, with cross-population as above. For an integer id, the answer and the detail map left are `ByIdOutcome` of the old map and the reply, and the requests are `ByIdRequests`. The list and type caches are unchanged |
| `CacheBehaviour.ResolveTypeTwice` | src/lib/pokeapi.js:126-170 | resolving a type twice within the time-to-live of a first upstream resolution makes one request, and both calls agree; a type upstream does not know is answered as absent both times |
| `CacheBehaviour.ResolveTypeAfterExpiry` | src/lib/pokeapi.js:136-156 | an expired membership entry is treated as absent: the call goes upstream and answers with the fresh members |
| `CacheBehaviour.DetailByNameThenId` | src/lib/pokeapi.js:181-213 | after a fetch by name, a fetch by the record's id within its time-to-live is a cache hit with the same record |
| `CacheBehaviour.DetailByIdThenName` | src/lib/pokeapi.js:181-213 | after a fetch by id, a fetch by the record's name within its time-to-live is a cache hit with the same record |
| `CacheBehaviour.ListTwice` | src/lib/pokeapi.js:79-107 | the master list is fetched once per time-to-live; a call after expiry goes upstream again |
| `CatalogQuery.ParseSortRule` | src/pages/api/pokemon/index.js:12-17 | a sort name is recognised iff it is one of `id-asc`, `id-desc`, `name-asc`, `name-desc`, and it names that comparator |
| `CatalogQuery.SortNameRoundTrip` | src/pages/api/pokemon/index.js:12-17 | every comparator is found under its own name |
| `CatalogQuery.SortersLookupAsWritten` | src/pages/api/pokemon/index.js:58 | the lookup `SORTERS[sort]` as written, which also finds the inherited keys `constructor` and `__proto__` (`InheritedSortKeysPassGuard`) |
| `CatalogQuery.SortAsWritten` | src/pages/api/pokemon/index.js:83 | the sort as written: with `constructor` the order is kept, and with `__proto__` the sort throws (`InheritedSortKeysOutcome`) |
| `CatalogQuery.InheritedSortKeysPassGuard` | src/pages/api/pokemon/index.js:56-58 | `constructor` and `__proto__` survive normalisation, are not sort names, and still pass the guard as written |
| `CatalogQuery.InheritedKeysAreNormal` | src/pages/api/pokemon/index.js:56 | normalisation leaves `constructor` and `__proto__` unchanged |
| `CatalogQuery.InheritedSortKeysOutcome` | src/pages/api/pokemon/index.js:83 | as written, `sort=constructor` keeps the master-list order and `sort=__proto__` throws in the sort |
| `CatalogQuery.Precedes` | src/pages/api/pokemon/index.js:12-17 | the four comparators as orders; each is a total preorder (`PrecedesTotalPreorder`), and ties only on equal keys (`UniqueKeysNoTies`) |
| `CatalogQuery.PrecedesTotalPreorder` | src/pages/api/pokemon/index.js:12-17 | each of the four comparators is consistent (total and transitive) |
| `CatalogQuery.UniqueKeysNoTies` | src/pages/api/pokemon/index.js:12-17 | two entries tie only if they have equal ids (id orders) or equal names (name orders), so with unique keys each order is strict |
| `CatalogQuery.NormalizePage` | src/pages/api/pokemon/index.js:39-46 | the page is always at least 1; a missing, non-numeric or below-1 value becomes 1; otherwise it is the parsed value |
| `CatalogQuery.NormalizePageRoundTrip` | src/pages/api/pokemon/index.js:39-46 | a page number printed in decimal, even with text after it, is read back as itself |
| `CatalogQuery.ParseQuery` | src/pages/api/pokemon/index.js:54-62 | the request is rejected exactly when the normalised sort is neither empty nor a sort name; an empty sort means `id-asc`. The type is the normalised type, or `all` when that is empty. The page is `NormalizePage` of the raw page, so at least 1 |
| `CatalogQuery.TypeFilter` | src/pages/api/pokemon/index.js:69-77 | no entries for a type that was not found, and otherwise the members of the type, in order (`SelectionMembers`, `SelectionIsSubsequence`) |
| `CatalogQuery.QueryFilter` | src/pages/api/pokemon/index.js:79-81 | the entries whose name contains `q`, in order, or all of them when `q` is empty (`SelectionMembers`, `SelectionIsSubsequence`) |
| `CatalogQuery.Selection` | src/pages/api/pokemon/index.js:64-81 | the first failure of the two fetches, or the master list filtered by type and then by text (`SelectionSpec`, `FilterOrderIrrelevant`) |
| `CatalogQuery.SelectionSpec` | src/pages/api/pokemon/index.js:67-81 | the filtered list is a subsequence of the master list. It holds exactly the entries that pass both tests: type `all` filters nothing, a type not found keeps nothing, otherwise the name is in the type's set; a non-empty `q` must occur in the name |
| `CatalogQuery.SelectionMembers` | src/pages/api/pokemon/index.js:67-81 | membership half of the above |
| `CatalogQuery.SelectionIsSubsequence` | src/pages/api/pokemon/index.js:67-81 | order half of the above |
| `CatalogQuery.FilterOrderIrrelevant` | src/pages/api/pokemon/index.js:69-81 | filtering by type then by substring equals filtering by substring then by type |
| `CatalogQuery.TotalPages` | src/pages/api/pokemon/index.js:85 | the page count is at least 1, holds all items, and for a non-empty list is the smallest count that does |
| `CatalogQuery.ClampPage` | src/pages/api/pokemon/index.js:86 | the page lies in `[1, totalPages]` and is the requested page unless that is past the end, when it is the last page |
| `CatalogQuery.Window` | src/pages/api/pokemon/index.js:88-89 | the window holds at most 24 entries, `min(24, remaining)` of them, and entry `i` is sorted entry `(page - 1) * 24 + i` |
| `CatalogQuery.PagesPartition` | src/pages/api/pokemon/index.js:85-89 | every sorted entry `i` appears as item `i % 24` of page `i / 24 + 1`, which is a valid page |
| `CatalogQuery.PlanPageSorted` | src/pages/api/pokemon/index.js:83 | the plan's list is a permutation of the selection, sorted by the chosen comparator, with tied entries in selection order |
| `CatalogQuery.PlanPage` | src/pages/api/pokemon/index.js:83-89 | the page count is as above. The page is the requested one when in range and the last page otherwise (`ClampPage`). The window is that page's slice, and is non-empty whenever the selection is |
| `CatalogQuery.StableForAll` | src/pages/api/pokemon/index.js:83 | sorting by any of the four comparators keeps tied entries in list order |
| `CatalogQuery.FallbackSprite` | src/pages/api/pokemon/index.js:23-25 | the sprite URL for an id; different ids get different URLs (`FallbackSpriteInjective`) |
| `CatalogQuery.FallbackSpriteInjective` | src/pages/api/pokemon/index.js:23-25 | different ids get different fallback image URLs |
| `CatalogQuery.FormatCard` | src/pages/api/pokemon/index.js:27-37 | the card has the detail's id and its name, else the list name; the image is the official artwork, else the front sprite, else the fallback URL, and is never empty; the types are the payload's, in order, or none |
| `CatalogQuery.CardOutcome` | src/pages/api/pokemon/index.js:93-107 | a card fails iff the lookup failed with something other than not-found, and then with that error; not-found gives `{id, name, fallback image, types: []}` from the list entry |
| `CatalogQuery.CardOutcomes` | src/pages/api/pokemon/index.js:92-108 | one outcome per window entry, in order |
| `CatalogQuery.AllCards` | src/pages/api/pokemon/index.js:91-109 | all cards in order iff every item succeeded; otherwise the error of the first failing item |
| `CatalogQuery.ErrorResponse` | src/pages/api/pokemon/index.js:118-124 | a request error (not-found included) answers 502, anything else 500 |
| `CatalogQuery.CardsOfWindow` | src/pages/api/pokemon/index.js:91-109 | when every card is made, there is one card per window entry, in window order, each the outcome of that entry's lookup |
| `CatalogQuery.PageResponse` | src/pages/api/pokemon/index.js:83-117 | the page of cards for the window, or the error of the first failing card (`PageResponseSpec`, `PartialFailureIsolation`) |
| `CatalogQuery.PageResponseSpec` | src/pages/api/pokemon/index.js:83-117 | a page response counts the whole selection whatever the lookups did, reports the plan's page, within `[1, totalPages]`, and page size 24, and has one item per window entry, in order, each that entry's card outcome |
| `CatalogQuery.PartialFailureIsolation` | src/pages/api/pokemon/index.js:91-117 | when every lookup succeeds or is not found, the page is served whole with unchanged counts, and each not-found entry appears degraded |
| `CatalogQuery.WindowLookups` | src/pages/api/pokemon/index.js:91-109 | the window's lookups, chained through the detail map in window order: one answer per entry |
| `CatalogQuery.WindowKeepsConsistent` | src/pages/api/pokemon/index.js:91-109 | the lookups of a window keep every key of the detail map matching the record stored under it |
| `CatalogQuery.WindowLookupsAnswers` | src/pages/api/pokemon/index.js:91-109 | the i-th lookup answers not-found for an id that is not positive, and otherwise upstream's answer for the i-th id or the live record cached under that id in the detail map the first i lookups left, which carries that id |
| `CatalogQuery.WindowLookupsRequests` | src/pages/api/pokemon/index.js:91-109 | the lookups make at most one request per window entry, and each request is the detail path of a window entry |
| `CatalogQuery.ServePage` | src/pages/api/pokemon/index.js:83-117 | answers with `PageResponse` of the window's lookups. The lookups, the detail map left and the requests made are those of `WindowLookups` from the detail map found. The list and type caches are unchanged, and the cache stays valid |
| `CatalogQuery.LookUpWindow` | src/pages/api/pokemon/index.js:91-109 | one lookup per window entry, in window order, each through the cache. The answers, the detail map left and the requests made are exactly those of `WindowLookups` from the detail map found. Nothing else changes |
| `CatalogQuery.SelectEntries` | src/pages/api/pokemon/index.js:64-81 | the selection is `Selection` of the two fetch results. The list result and the slot left are `ListOutcome` and `ListSlot` of the old slot and reply. The membership is asked for exactly when the list was obtained and the type is not `all`. It is then `MembershipOutcome` of the old map and reply, and the map left is `MembershipMap`; otherwise the map is unchanged. The detail map and the type list are unchanged. The requests are exactly `ListRequests` then `TypeRequests` |
| `CatalogQuery.Handle` | src/pages/api/pokemon/index.js:54-124 | an invalid sort answers 400 and touches nothing. Otherwise the master list and, for a type other than `all`, the membership are fetched through the cache. Their results, the slot and map left, and their requests are as for `SelectEntries`. A failure there answers by error class with no detail lookups and leaves the detail cache alone. Otherwise the answer is the page response of the filtered list. The lookups, the detail map left and the further requests are those of `WindowLookups` over the window |
| `CatalogExample.FireNameAscExample` | src/pages/api/pokemon/index.js:67-89 | charmander (4), charmeleon (5) and charizard (6), all fire, queried with `q=char` and `name-asc`, come out as charizard, charmander, charmeleon on page 1 of 1 |
| `Pagination.Dedupe` | src/components/Pagination.js:5 | `[...new Set(s)]` has the same values as `s`, with no repetition and no more elements |
| `Pagination.AscendingTotalPreorder` | src/components/Pagination.js:7 | the numeric comparator is consistent |
| `Pagination.ShownIncreasing` | src/components/Pagination.js:5-7 | the pages shown are strictly increasing |
| `Pagination.ShownMembers` | src/components/Pagination.js:5-6 | a number is shown iff it is a candidate within `[1, totalPages]` |
| `Pagination.VisiblePages` | src/components/Pagination.js:5-7 | the in-range candidates among first, previous, current, next and last, without repeats, ascending (`VisiblePagesSpec`, `AnchorsVisible`) |
| `Pagination.VisiblePagesSpec` | src/components/Pagination.js:5-7 | the numbers shown are strictly increasing, at most five, exactly the in-range candidates, and none at all when `totalPages < 1` |
| `Pagination.AnchorsVisible` | src/components/Pagination.js:5 | on a valid page, page 1, the current page and the last page are all shown |
| `Pagination.PushAdjacent` | src/components/Pagination.js:13-18 | pushing a number one past the previous one, with no gap, keeps the gap layout correct |
| `Pagination.PushAfterJump` | src/components/Pagination.js:13-18 | pushing `gap-<n>` and then `n` after a jump keeps the gap layout correct |
| `Pagination.LayOut` | src/components/Pagination.js:9-21 | removing the gaps gives back the page list. Each gap sits strictly between two numbers more than one apart, with key `gap-` followed by the next number. Numbers side by side differ by at most one, so there is no gap at either end and never two in a row |
| `Pagination.GetVisiblePages` | src/components/Pagination.js:4-22 | the same, for the visible page list |
| `Pagination.PrevDisabled` | src/components/Pagination.js:33 | Prev is disabled while the pager is, or on page 1 or earlier (`NavigationStaysInRange`) |
| `Pagination.PageButtonDisabled` | src/components/Pagination.js:55 | a page button is disabled while the pager is, and for the current page (`PageButtonsStayInRange`) |
| `Pagination.NextDisabled` | src/components/Pagination.js:68 | Next is disabled while the pager is, or on the last page or later (`NavigationStaysInRange`) |
| `Pagination.NavigationStaysInRange` | src/components/Pagination.js:33-68 | on a valid page of an enabled pager, Prev is usable iff there is an earlier page and Next iff there is a later one, and each leads to a valid page; a disabled pager allows neither |
| `Pagination.PageButtonsStayInRange` | src/components/Pagination.js:55 | every usable page button leads to a valid page other than the current one, and the current page's button is always disabled |

## Left out

- Network and JSON: `fetch`, `response.json()` and `BASE_URL` are not modelled. Each upstream call is a `Reply` parameter, and `requested` records only the path.
- Clock: `Date.now()` is the parameter `now`, one value per call. The code reads the clock again after each upstream reply (src/lib/pokeapi.js:56, 104, 121), so its expiry is the reply's time plus the time-to-live. The model stores `now + ttl` from the start of the call, and `Handle` passes a single `now` to every fetch of one request. Nothing relates the `now` of successive `Handle` calls. The expiry boundary in `CacheBehaviour.ListTwice` rests on this simplification.
- Payload shapes are taken as well formed. This covers `payload.results`, `payload.pokemon`, `entry?.pokemon?.name` (a missing name is `""`) and `sprites`/`types` in a detail. A `null` detail payload (the `!data` test at src/lib/pokeapi.js:173) is not modelled.
- Concurrency: concurrent requests racing on the caches are not modelled. Inside one request, `Promise.all` is a sequential, order-preserving map. Every item's lookup runs, and the first failing item in window order decides the error. In the code the first failure in time decides. Both are mapped to 502 or 500 by error class, so the status differs only when two different classes of failure occur on one page. In the code, `paginated.map` runs every `fetchPokemonById` up to its first `await` before any reply arrives. So every `id:` lookup (src/lib/pokeapi.js:205) happens before any store (src/lib/pokeapi.js:211). Two window entries with the same uncached id make two requests in the code but one in the model, where the second lookup finds the first one's store.
- `localeCompare` is approximated by code-point lexicographic order. Locale collation is not modelled.
- `toLowerCase` lowers the ASCII letters only.
- JavaScript numbers are unbounded integers here, with three consequences:
  - parsing a very long digit run loses precision in the code, but not in the model;
  - an id of 10^21 or more prints in exponent notation in the code, but not in the model;
  - a page number beyond the largest double is not a finite number in the code, yet here it counts as a valid page.
- `CatalogQuery.ParseQuery` and `CatalogQuery.Handle` use the corrected sort guard from "## Findings" (`CatalogQuery.ParseSortRule`), not the code as written. In the model, `?sort=constructor` and `?sort=__proto__` answer 400 before any fetch; in the code they pass the guard. The as-written behaviour is stated by `CatalogQuery.InheritedSortKeysPassGuard` and `CatalogQuery.InheritedSortKeysOutcome`.
- `PokeApi.Cache.FetchPokemonById` takes `Number(id)` as a `real`. Conversion from arbitrary values, `NaN` and infinities is not modelled.
- Query parameters are strings (`""` when absent). Repeated parameters, which arrive as arrays, are not modelled.
- HTTP plumbing: the method check (405, `Allow` header) and `res.status().json` are not modelled. `CatalogQuery.Response` stands for the status and body.
- `src/pages/api/pokemon/types.js` is not part of this model. It prepends `all` to the type list and reuses the same error mapping.
- The UI components other than the pager's page selection and disabled conditions are not part of this model. This includes rendering, icons, CSS and the `onPageChange` callbacks.

## Findings

| source | as written | input that shows it | evidently intended | confidence | as-written member | corrected member |
|---|---|---|---|---|---|---|
| src/pages/api/pokemon/index.js:58 | `if (!SORTERS[sort])` also finds the keys every object inherits. After normalisation, `constructor` (the function `Object`) and `__proto__` (`Object.prototype`) pass the guard | `?sort=constructor` answers 200 with the list unsorted (the comparator's result is NaN, read as "equal"). `?sort=__proto__` makes `sort` throw a TypeError, so the request answers 500 after the data was fetched | only the four sort names pass; any other value answers 400 before any fetch | not executed | `CatalogQuery.InheritedSortKeysPassGuard` | `CatalogQuery.ParseSortRule` |

/**
 * How the data layer's caches behave across successive calls
 * (src/lib/pokeapi.js): a resolved type or detail is answered from the cache
 * for the rest of its time-to-live, a missing type is cached as absent, a
 * detail fetched under one key is found under the other, and an expired entry
 * sends the next call upstream again. Each method makes the calls in a row on
 * one cache; `requested` counts the upstream requests.
 */
module CacheBehaviour {
  import opened Text
  import opened PokeApi

  /**
   * Resolving a type twice within the time-to-live of the first, upstream,
   * resolution makes one upstream request, and both calls agree; a type
   * upstream does not know is answered as absent both times.
   */
  method ResolveTypeTwice(cache: Cache, typeName: string, now: int, later: int,
                          first: Reply<seq<string>>, second: Reply<seq<string>>)
    returns (r1: Result<Membership>, r2: Result<Membership>)
    requires cache.Valid()
    requires NormalizeString(typeName) != ""
    requires GetMapCache(cache.typeMembership, NormalizeString(typeName), now).hit.None?
    requires later < now + TYPE_MEMBERSHIP_TTL_MS
    modifies cache
    ensures cache.Valid()
    ensures r1.Ok? ==> r2 == r1 && cache.requested == old(cache.requested) + [TypePath(NormalizeString(typeName))]
    ensures first.Response? && first.status == 404 ==> r1 == Ok(Membership(false, {})) && r2 == r1
  {
    var t := NormalizeString(typeName);
    r1 := cache.FetchPokemonNamesByType(typeName, now, first);
    if r1.Ok? {
      SetThenGet(GetMapCache(old(cache.typeMembership), t, now).rest, t, r1.value, TYPE_MEMBERSHIP_TTL_MS, now, later);
    }
    r2 := cache.FetchPokemonNamesByType(typeName, later, second);
  }

  /**
   * Once a type's entry has expired it is treated as absent: the next call goes
   * upstream and answers with what upstream says now.
   */
  method ResolveTypeAfterExpiry(cache: Cache, typeName: string, now: int, reply: Reply<seq<string>>)
    returns (r: Result<Membership>)
    requires cache.Valid()
    requires NormalizeString(typeName) in cache.typeMembership
    requires cache.typeMembership[NormalizeString(typeName)].expiresAt <= now
    requires NormalizeString(typeName) != ""
    modifies cache
    ensures cache.Valid()
    ensures cache.requested == old(cache.requested) + [TypePath(NormalizeString(typeName))]
    ensures reply.Response? && IsOkStatus(reply.status) ==> r == Ok(Membership(true, NameSet(reply.body)))
  {
    r := cache.FetchPokemonNamesByType(typeName, now, reply);
  }

  /**
   * Fetching a Pokémon by name stores it under its id too: an immediately
   * following fetch by that id, within the time-to-live, is answered from the
   * cache with the same record.
   */
  method DetailByNameThenId(cache: Cache, name: string, now: int, later: int, first: Reply<Detail>, second: Reply<Detail>)
    returns (r1: Result<Detail>, r2: Result<Detail>)
    requires cache.Valid()
    requires NormalizeString(name) != ""
    requires GetMapCache(cache.pokemonDetail, NameKey(NormalizeString(name)), now).hit.None?
    requires first.Response? && IsOkStatus(first.status)
    requires first.body.name != "" && first.body.id > 0
    requires later < now + POKEMON_DETAIL_TTL_MS
    modifies cache
    ensures cache.Valid()
    ensures r1 == Ok(first.body) && r2 == r1
    ensures cache.requested == old(cache.requested) + [PokemonPath(NormalizeString(name))]
  {
    var d := first.body;
    r1 := cache.FetchPokemonByName(name, now, first);
    CrossPopulated(GetMapCache(old(cache.pokemonDetail), NameKey(NormalizeString(name)), now).rest, d, now, later);
    r2 := cache.FetchPokemonById(d.id as real, later, second);
  }

  /** The converse: a Pokémon fetched by id is then found by its (normalised) name without a request. */
  method DetailByIdThenName(cache: Cache, id: int, now: int, later: int, first: Reply<Detail>, second: Reply<Detail>)
    returns (r1: Result<Detail>, r2: Result<Detail>)
    requires cache.Valid()
    requires id > 0
    requires GetMapCache(cache.pokemonDetail, IdKey(id), now).hit.None?
    requires first.Response? && IsOkStatus(first.status)
    requires first.body.name != "" && NormalizeString(first.body.name) == first.body.name && first.body.id > 0
    requires later < now + POKEMON_DETAIL_TTL_MS
    modifies cache
    ensures cache.Valid()
    ensures r1 == Ok(first.body) && r2 == r1
    ensures cache.requested == old(cache.requested) + [PokemonPath(IntToString(id))]
  {
    var d := first.body;
    r1 := cache.FetchPokemonById(id as real, now, first);
    CrossPopulated(GetMapCache(old(cache.pokemonDetail), IdKey(id), now).rest, d, now, later);
    r2 := cache.FetchPokemonByName(d.name, later, second);
  }

  /**
   * The master list is fetched once per time-to-live: a second call before
   * `expiresAt` is answered from the singleton, one at or after it goes
   * upstream again.
   */
  method ListTwice(cache: Cache, now: int, later: int, first: Reply<seq<RawEntry>>, second: Reply<seq<RawEntry>>)
    returns (r1: Result<seq<IndexEntry>>, r2: Result<seq<IndexEntry>>)
    requires cache.Valid()
    requires !IsFresh(cache.masterList, now)
    modifies cache
    ensures cache.Valid()
    ensures r1.Ok? && later < now + MASTER_LIST_TTL_MS ==>
      r2 == r1 && cache.requested == old(cache.requested) + [LIST_PATH]
    ensures r1.Ok? && now + MASTER_LIST_TTL_MS <= later ==>
      cache.requested == old(cache.requested) + [LIST_PATH, LIST_PATH]
  {
    r1 := cache.FetchPokemonList(now, first);
    r2 := cache.FetchPokemonList(later, second);
  }
}

/**
 * The caching data-access layer in front of the PokéAPI (src/lib/pokeapi.js).
 *
 * The module-level caches become one `Cache` object:
 * - two singleton slots, one for the master list and one for the type list;
 * - two keyed TTL maps, one for type membership and one for Pokémon detail.
 * `Date.now()` is the explicit parameter `now` (milliseconds). Each upstream
 * call is the `Reply` the API would give to it. The ghost field `requested`
 * logs the path of every upstream request, so "answered from the cache" can
 * be stated as "nothing was requested".
 */
module PokeApi {
  import opened Wrappers
  import opened Text
  import opened Sequences

  const MASTER_LIST_TTL_MS: int := 6 * 60 * 60 * 1000
  const TYPE_MEMBERSHIP_TTL_MS: int := 6 * 60 * 60 * 1000
  const POKEMON_DETAIL_TTL_MS: int := 24 * 60 * 60 * 1000

  const LIST_PATH := "/pokemon?limit=2000&offset=0"
  const TYPE_LIST_PATH := "/type"

  function TypePath(typeName: string): string { "/type/" + typeName }

  function PokemonPath(ident: string): string { "/pokemon/" + ident }

  // ------------------------------------------------------------------ errors

  /**
   * What the data layer throws. `NotFound` is `PokeApiNotFoundError`, a
   * subclass of `PokeApiRequestError` with status 404; `RequestError` is a
   * plain `PokeApiRequestError`; `Unexpected` is any other exception (a
   * transport failure of `fetch`, for one), which is propagated unchanged.
   */
  datatype ApiError =
    | NotFound(message: string)
    | RequestError(message: string, status: int)
    | Unexpected

  /** `error instanceof PokeApiRequestError`: the not-found error is a request error too. */
  predicate IsRequestError(e: ApiError) { e.NotFound? || e.RequestError? }

  /** The `status` field of a request error. */
  function Status(e: ApiError): int
    requires IsRequestError(e)
  {
    if e.NotFound? then 404 else e.status
  }

  datatype Result<T> = Ok(value: T) | Err(error: ApiError)

  /** What the upstream does with one request: an HTTP response with a parsed body, or an exception. */
  datatype Reply<T> = Response(status: int, body: T) | Thrown

  /** `response.ok`. */
  predicate IsOkStatus(status: int) { 200 <= status <= 299 }

  /** `fetchFromPokeApi`: classifies the upstream reply. */
  function FetchFromPokeApi<T>(reply: Reply<T>): (r: Result<T>)
    ensures r.Ok? <==> reply.Response? && IsOkStatus(reply.status)
    ensures r.Ok? ==> r.value == reply.body
    ensures (r.Err? && r.error.NotFound?) <==> (reply.Response? && reply.status == 404)
    ensures r.Err? && IsRequestError(r.error) ==>
      reply.Response? && !IsOkStatus(reply.status) && Status(r.error) == reply.status
    ensures reply.Response? && !IsOkStatus(reply.status) ==>
      r.Err? && IsRequestError(r.error) && Status(r.error) == reply.status
    ensures reply.Thrown? ==> r == Err(Unexpected)
  {
    match reply
    case Thrown => Err(Unexpected)
    case Response(status, body) =>
      if status == 404 then Err(NotFound("Resource not found"))
      else if !IsOkStatus(status) then Err(RequestError("Failed to fetch from PokeAPI", status))
      else Ok(body)
  }

  // ------------------------------------------------------------- master list

  /** One element of the upstream `results` array of `/pokemon`. */
  datatype RawEntry = RawEntry(name: string, url: string)

  /** One element of the master list. */
  datatype IndexEntry = IndexEntry(id: int, name: string, url: string)

  const POKEMON_SEGMENT := "/pokemon/"

  /** `seg` matches `\/pokemon\/` under the `i` flag (ASCII case folding). */
  predicate SegmentMatches(seg: string)
  {
    |seg| == |POKEMON_SEGMENT| && forall i :: 0 <= i < |seg| ==> LowerChar(seg[i]) == POKEMON_SEGMENT[i]
  }

  /** The id in a URL without its trailing slash: its final digit run, preceded by `/pokemon/`. */
  function ParseIdFromBody(body: string): Option<nat>
  {
    var k := DigitSuffixLength(body);
    var start := |body| - k - |POKEMON_SEGMENT|;
    if 0 < k && 0 <= start && SegmentMatches(body[start..|body| - k]) then
      Some(DigitsValue(body[|body| - k..]))
    else None
  }

  /**
   * `parsePokemonIdFromUrl`: the value of the digit run that ends the URL,
   * after a trailing slash is set aside, provided `/pokemon/` precedes it.
   */
  function ParsePokemonIdFromUrl(url: string): Option<nat>
  {
    ParseIdFromBody(if url != [] && url[|url| - 1] == '/' then url[..|url| - 1] else url)
  }

  /** A URL of the shape the regular expression `/\/pokemon\/(\d+)\/?$/i` matches. */
  function UrlOf(prefix: string, seg: string, digits: string, slash: bool): string
  {
    prefix + seg + digits + (if slash then "/" else "")
  }

  /** Every URL of the matched shape yields the value of its digit run. */
  lemma ParseComposedUrl(prefix: string, seg: string, digits: string, slash: bool)
    requires SegmentMatches(seg) && digits != [] && AllDigits(digits)
    ensures ParsePokemonIdFromUrl(UrlOf(prefix, seg, digits, slash)) == Some(DigitsValue(digits))
  {
    var url := UrlOf(prefix, seg, digits, slash);
    var body := prefix + seg + digits;
    if slash {
      assert url[..|url| - 1] == body;
    } else {
      assert url == body;
      assert IsDigit(url[|url| - 1]);
    }
    assert LowerChar(seg[|seg| - 1]) == '/';
    assert (prefix + seg)[|prefix + seg| - 1] == '/';
    DigitSuffixOfConcat(prefix + seg, digits);
    assert body[|body| - |digits|..] == digits;
    assert body[|prefix|..|body| - |digits|] == seg;
  }

  /** The pieces `ParseIdFromBody` splits an accepted body into. */
  lemma BodyPieces(body: string) returns (prefix: string, seg: string, digits: string)
    requires ParseIdFromBody(body).Some?
    ensures body == prefix + seg + digits
    ensures SegmentMatches(seg) && digits != [] && AllDigits(digits)
    ensures ParseIdFromBody(body) == Some(DigitsValue(digits))
  {
    var k := DigitSuffixLength(body);
    var start := |body| - k - |POKEMON_SEGMENT|;
    prefix, seg, digits := body[..start], body[start..|body| - k], body[|body| - k..];
    assert body == prefix + seg + digits;
  }

  /** The pieces `ParsePokemonIdFromUrl` splits an accepted URL into. */
  lemma UrlPieces(url: string) returns (prefix: string, seg: string, digits: string, slash: bool)
    requires ParsePokemonIdFromUrl(url).Some?
    ensures UrlOf(prefix, seg, digits, slash) == url
    ensures SegmentMatches(seg) && digits != [] && AllDigits(digits)
    ensures ParsePokemonIdFromUrl(url) == Some(DigitsValue(digits))
  {
    if url != [] && url[|url| - 1] == '/' {
      var body := url[..|url| - 1];
      assert url == body + "/";
      prefix, seg, digits := BodyPieces(body);
      slash := true;
    } else {
      prefix, seg, digits := BodyPieces(url);
      slash := false;
    }
  }

  /** Only URLs of the matched shape yield an id. */
  lemma ParsedUrlHasShape(url: string)
    requires ParsePokemonIdFromUrl(url).Some?
    ensures exists prefix, seg, digits, slash ::
      (&& UrlOf(prefix, seg, digits, slash) == url
       && SegmentMatches(seg) && digits != [] && AllDigits(digits)
       && ParsePokemonIdFromUrl(url) == Some(DigitsValue(digits)))
  {
    var prefix, seg, digits, slash := UrlPieces(url);
  }

  /** The `map` callback: an entry whose id is null or 0 (falsy) becomes null. */
  function ToEntry(raw: RawEntry): (r: Option<IndexEntry>)
    ensures r.Some? <==> ParsePokemonIdFromUrl(raw.url).Some? && ParsePokemonIdFromUrl(raw.url).value != 0
    ensures r.Some? ==> r.value == IndexEntry(ParsePokemonIdFromUrl(raw.url).value, raw.name, raw.url)
  {
    match ParsePokemonIdFromUrl(raw.url)
    case Some(id) => if id == 0 then None else Some(IndexEntry(id, raw.name, raw.url))
    case None => None
  }

  /** A raw entry the `filter(Boolean)` pass keeps. */
  predicate HasId(raw: RawEntry) { ToEntry(raw).Some? }

  /** `results.map(...).filter(Boolean)`: exactly the raw entries with a truthy id, in order (see `EntriesInOrder`). */
  function Entries(results: seq<RawEntry>): (r: seq<IndexEntry>)
    ensures forall i :: 0 <= i < |r| ==> r[i].id > 0
    ensures forall e :: e in r <==> exists raw :: raw in results && ToEntry(raw) == Some(e)
  {
    if results == [] then []
    else
      var rest := Entries(results[1..]);
      assert forall raw :: raw in results <==> raw == results[0] || raw in results[1..];
      match ToEntry(results[0])
      case Some(e) => [e] + rest
      case None => rest
  }

  /**
   * `Entries` lists one entry per raw entry the filter keeps, in upstream
   * order: the i-th listed entry is what the i-th kept raw entry maps to.
   */
  lemma {:induction false} EntriesInOrder(results: seq<RawEntry>)
    ensures |Entries(results)| == |Filter(results, HasId)|
    ensures forall i :: 0 <= i < |Entries(results)| ==> ToEntry(Filter(results, HasId)[i]) == Some(Entries(results)[i])
  {
    if results != [] {
      EntriesInOrder(results[1..]);
      var r, rest := Entries(results), Entries(results[1..]);
      var kept, keptRest := Filter(results, HasId), Filter(results[1..], HasId);
      if HasId(results[0]) {
        assert r == [ToEntry(results[0]).value] + rest;
        assert kept == [results[0]] + keptRest;
        forall i | 0 <= i < |r| ensures ToEntry(kept[i]) == Some(r[i]) {
          if i > 0 {
            assert kept[i] == keptRest[i - 1] && r[i] == rest[i - 1];
          }
        }
      } else {
        assert r == rest && kept == keptRest;
      }
    }
  }

  /** The comparator `(a, b) => a.id - b.id`, as "`a` may come before `b`". */
  predicate IdLe(a: IndexEntry, b: IndexEntry) { a.id <= b.id }

  lemma IdLeTotalPreorder()
    ensures TotalPreorder(IdLe)
  {
  }

  /** What the master-list slot always holds: positive ids in ascending order. */
  predicate IsMasterList(list: seq<IndexEntry>)
  {
    && SortedBy(list, IdLe)
    && forall i :: 0 <= i < |list| ==> list[i].id > 0
  }

  /** The list `fetchPokemonList` builds from the upstream `results`. */
  function MasterList(results: seq<RawEntry>): seq<IndexEntry>
  {
    SortBy(Entries(results), IdLe)
  }

  /**
   * The master list is sorted by id, holds exactly the entries with a truthy id
   * (as a multiset), and keeps the upstream order among entries sharing an id.
   */
  lemma MasterListShape(results: seq<RawEntry>)
    ensures IsMasterList(MasterList(results))
    ensures multiset(MasterList(results)) == multiset(Entries(results))
    ensures forall y :: Ties(MasterList(results), y, IdLe) == Ties(Entries(results), y, IdLe)
  {
    var list := MasterList(results);
    IdLeTotalPreorder();
    SortBySorted(Entries(results), IdLe);
    forall i | 0 <= i < |list| ensures list[i].id > 0 {
      assert list[i] in multiset(Entries(results));
    }
    forall y ensures Ties(list, y, IdLe) == Ties(Entries(results), y, IdLe) {
      SortByStable(Entries(results), y, IdLe);
    }
  }

  // --------------------------------------------------------------- type list

  /** The comparator `(a, b) => a.localeCompare(b)` on type names. */
  predicate NameLe(a: string, b: string) { LexLe(a, b) }

  lemma NameLeTotalPreorder()
    ensures TotalPreorder(NameLe)
  {
    forall a, b ensures NameLe(a, b) || NameLe(b, a) {
      LexLeTotal(a, b);
    }
    forall a, b, c | NameLe(a, b) && NameLe(b, c) ensures NameLe(a, c) {
      LexLeTransitive(a, b, c);
    }
  }

  /** The list `fetchTypeList` builds from the upstream type names. */
  function TypeNames(results: seq<string>): seq<string>
  {
    SortBy(results, NameLe)
  }

  /** The type list is the upstream names, reordered into ascending order. */
  lemma TypeNamesShape(results: seq<string>)
    ensures SortedBy(TypeNames(results), NameLe)
    ensures multiset(TypeNames(results)) == multiset(results)
  {
    NameLeTotalPreorder();
    SortBySorted(results, NameLe);
  }

  // ------------------------------------------------------- cache primitives

  /** A singleton cache: `{ data, expiresAt }` with `data` possibly null. */
  datatype Slot<T> = Slot(data: Option<T>, expiresAt: int)

  /** `isFresh`: data present and not yet expired. An empty list is present data. */
  predicate IsFresh<T>(slot: Slot<T>, now: int)
  {
    slot.data.Some? && slot.expiresAt > now
  }

  /** One entry of a keyed cache. */
  datatype Entry<T> = Entry(data: T, expiresAt: int)

  /** What a keyed lookup returns, and the map it leaves behind. */
  datatype Lookup<T> = Lookup(hit: Option<T>, rest: map<string, Entry<T>>)

  /**
   * `getMapCache`: a live entry is returned and the map is left alone; an
   * expired entry is deleted and nothing is returned; a missing key returns
   * nothing and changes nothing.
   */
  function GetMapCache<T>(m: map<string, Entry<T>>, key: string, now: int): (r: Lookup<T>)
    ensures r.hit.Some? <==> key in m && now < m[key].expiresAt
    ensures r.hit.Some? ==> r.hit.value == m[key].data && r.rest == m
    ensures r.hit.None? ==> r.rest == m - {key}
  {
    if key !in m then Lookup(None, m)
    else if m[key].expiresAt <= now then Lookup(None, m - {key})
    else Lookup(Some(m[key].data), m)
  }

  /** `setMapCache`: stores `data` under `key` until `now + ttl`; every other key keeps its entry. */
  function SetMapCache<T>(m: map<string, Entry<T>>, key: string, data: T, ttl: int, now: int): (m': map<string, Entry<T>>)
    ensures m'.Keys == m.Keys + {key}
    ensures m'[key] == Entry(data, now + ttl)
    ensures forall k :: k in m && k != key ==> m'[k] == m[k]
  {
    m[key := Entry(data, now + ttl)]
  }

  /** A value just stored is found until its time-to-live runs out and is evicted from then on. */
  lemma SetThenGet<T>(m: map<string, Entry<T>>, key: string, data: T, ttl: int, setAt: int, now: int)
    ensures var look := GetMapCache(SetMapCache(m, key, data, ttl, setAt), key, now);
      && (now < setAt + ttl ==> look.hit == Some(data))
      && (setAt + ttl <= now ==> look.hit.None? && look.rest == m - {key})
  {
    var m' := SetMapCache(m, key, data, ttl, setAt);
    if setAt + ttl <= now {
      assert m' - {key} == m - {key};
    }
  }

  /** Storing under one key does not change what a lookup of another key finds. */
  lemma SetKeepsOtherKeys<T>(m: map<string, Entry<T>>, key: string, other: string, data: T, ttl: int, setAt: int, now: int)
    requires other != key
    ensures GetMapCache(SetMapCache(m, key, data, ttl, setAt), other, now).hit == GetMapCache(m, other, now).hit
  {
  }

  // --------------------------------------------------- type membership data

  /** The outcome of resolving one type: `found == false` with no names is a confirmed-absent type. */
  datatype Membership = Membership(found: bool, names: set<string>)

  /** `new Set(payload.pokemon.map(e => e?.pokemon?.name).filter(Boolean))`; a missing name is "". */
  function NameSet(members: seq<string>): (names: set<string>)
    ensures forall n :: n in names <==> n in members && n != ""
  {
    set n | n in members && n != ""
  }

  // ------------------------------------------------------------ detail data

  /**
   * The fields of a Pokémon payload the code reads. A missing string field is
   * "", a missing id is 0 (both falsy), and `types` is absent or the list of
   * `types[i].type.name`.
   */
  datatype Detail = Detail(id: int, name: string, officialArtwork: string, frontDefault: string, types: Option<seq<string>>)

  function NameKey(name: string): string { "name:" + name }

  function IdKey(id: int): string { "id:" + IntToString(id) }

  /** The two key families never collide, and each is one-to-one. */
  lemma DetailKeysDistinct(name: string, id: int, name': string, id': int)
    ensures NameKey(name) != IdKey(id)
    ensures NameKey(name) == NameKey(name') ==> name == name'
    ensures IdKey(id) == IdKey(id') ==> id == id'
  {
    assert NameKey(name)[0] == 'n' && IdKey(id)[0] == 'i';
    if NameKey(name) == NameKey(name') {
      assert name == NameKey(name)[5..] && name' == NameKey(name')[5..];
    }
    if IdKey(id) == IdKey(id') {
      assert IntToString(id) == IdKey(id)[3..] && IntToString(id') == IdKey(id')[3..];
      IntToStringInjective(id, id');
    }
  }

  /** Every detail entry is stored under its own name key or its own id key. */
  ghost predicate DetailKeysConsistent(m: map<string, Entry<Detail>>)
  {
    forall k :: k in m ==>
      && m[k].data.name != "" && m[k].data.id != 0
      && (k == NameKey(m[k].data.name) || k == IdKey(m[k].data.id))
  }

  /** A detail found under `id:<n>` has id `n`; one found under `name:<n>` has name `n`. */
  lemma ConsistentLookup(m: map<string, Entry<Detail>>, key: string)
    requires DetailKeysConsistent(m) && key in m
    ensures forall n :: key == IdKey(n) ==> m[key].data.id == n
    ensures forall n :: key == NameKey(n) ==> m[key].data.name == n
  {
    var d := m[key].data;
    forall n | key == IdKey(n) ensures d.id == n {
      DetailKeysDistinct(d.name, n, d.name, d.id);
    }
    forall n | key == NameKey(n) ensures d.name == n {
      DetailKeysDistinct(n, d.id, d.name, d.id);
    }
  }

  // ------------------------------------------------------------------ state

  /** The two writes of `cachePokemonDetail` leave the record findable under both keys. */
  lemma CrossPopulated(m: map<string, Entry<Detail>>, data: Detail, setAt: int, now: int)
    requires data.name != "" && data.id != 0
    requires now < setAt + POKEMON_DETAIL_TTL_MS
    ensures var m' := SetMapCache(SetMapCache(m, NameKey(data.name), data, POKEMON_DETAIL_TTL_MS, setAt),
                                  IdKey(data.id), data, POKEMON_DETAIL_TTL_MS, setAt);
      && GetMapCache(m', NameKey(data.name), now).hit == Some(data)
      && GetMapCache(m', IdKey(data.id), now).hit == Some(data)
  {
    DetailKeysDistinct(data.name, data.id, data.name, data.id);
  }

  /** What `fetchPokemonList` answers, given the slot it finds and what upstream would reply. */
  function ListOutcome(slot: Slot<seq<IndexEntry>>, now: int, reply: Reply<seq<RawEntry>>): Result<seq<IndexEntry>>
  {
    if IsFresh(slot, now) then Ok(slot.data.value)
    else
      match FetchFromPokeApi(reply)
      case Ok(results) => Ok(MasterList(results))
      case Err(e) => Err(e)
  }

  /** The upstream requests `fetchPokemonList` makes: none while the slot is fresh. */
  function ListRequests(slot: Slot<seq<IndexEntry>>, now: int): seq<string>
  {
    if IsFresh(slot, now) then [] else [LIST_PATH]
  }

  /** What `fetchPokemonNamesByType` answers, given the map it finds and what upstream would reply. */
  function MembershipOutcome(m: map<string, Entry<Membership>>, typeName: string, now: int,
                             reply: Reply<seq<string>>): Result<Membership>
  {
    var t := NormalizeString(typeName);
    var look := GetMapCache(m, t, now);
    if t == "" then Ok(Membership(false, {}))
    else if look.hit.Some? then Ok(look.hit.value)
    else
      match FetchFromPokeApi(reply)
      case Ok(members) => Ok(Membership(true, NameSet(members)))
      case Err(NotFound(_)) => Ok(Membership(false, {}))
      case Err(e) => Err(e)
  }

  /** The upstream requests `fetchPokemonNamesByType` makes: none for an empty name or a live entry. */
  function TypeRequests(m: map<string, Entry<Membership>>, typeName: string, now: int): seq<string>
  {
    var t := NormalizeString(typeName);
    if t == "" || GetMapCache(m, t, now).hit.Some? then [] else [TypePath(t)]
  }

  /** The master-list slot `fetchPokemonList` leaves: refilled after a successful request, otherwise as found. */
  function ListSlot(slot: Slot<seq<IndexEntry>>, now: int, reply: Reply<seq<RawEntry>>): Slot<seq<IndexEntry>>
  {
    if IsFresh(slot, now) then slot
    else
      match FetchFromPokeApi(reply)
      case Ok(results) => Slot(Some(MasterList(results)), now + MASTER_LIST_TTL_MS)
      case Err(_) => slot
  }

  /**
   * The membership map `fetchPokemonNamesByType` leaves: an expired entry is
   * evicted, and a successful or not-found answer from upstream is stored.
   */
  function MembershipMap(m: map<string, Entry<Membership>>, typeName: string, now: int,
                         reply: Reply<seq<string>>): map<string, Entry<Membership>>
  {
    var t := NormalizeString(typeName);
    var look := GetMapCache(m, t, now);
    if t == "" || look.hit.Some? then m
    else
      match FetchFromPokeApi(reply)
      case Ok(members) => SetMapCache(look.rest, t, Membership(true, NameSet(members)), TYPE_MEMBERSHIP_TTL_MS, now)
      case Err(NotFound(_)) => SetMapCache(look.rest, t, Membership(false, {}), TYPE_MEMBERSHIP_TTL_MS, now)
      case Err(_) => look.rest
  }

  /** The detail map after `cachePokemonDetail(data)`. */
  function StoreDetail(m: map<string, Entry<Detail>>, data: Detail, now: int): map<string, Entry<Detail>>
  {
    if data.name == "" || data.id == 0 then m
    else SetMapCache(SetMapCache(m, NameKey(data.name), data, POKEMON_DETAIL_TTL_MS, now),
                     IdKey(data.id), data, POKEMON_DETAIL_TTL_MS, now)
  }

  /** Storing a record keeps every key matching the record stored under it. */
  lemma StoreKeepsConsistent(m: map<string, Entry<Detail>>, data: Detail, now: int)
    requires DetailKeysConsistent(m)
    ensures DetailKeysConsistent(StoreDetail(m, data, now))
  {
  }

  /**
   * What `fetchPokemonById(n)` answers for an integer `n`, given the detail map
   * it finds and what upstream would reply, paired with the detail map it leaves.
   */
  function ByIdOutcome(m: map<string, Entry<Detail>>, n: int, now: int, reply: Reply<Detail>)
    : (Result<Detail>, map<string, Entry<Detail>>)
  {
    if n <= 0 then (Err(NotFound("Pokemon id is invalid")), m)
    else
      var look := GetMapCache(m, IdKey(n), now);
      if look.hit.Some? then (Ok(look.hit.value), m)
      else
        match FetchFromPokeApi(reply)
        case Ok(d) => (Ok(d), StoreDetail(look.rest, d, now))
        case Err(e) => (Err(e), look.rest)
  }

  /** The upstream requests `fetchPokemonById(n)` makes: none for an invalid id or a live entry. */
  function ByIdRequests(m: map<string, Entry<Detail>>, n: int, now: int): seq<string>
  {
    if n <= 0 || GetMapCache(m, IdKey(n), now).hit.Some? then [] else [PokemonPath(IntToString(n))]
  }

  /**
   * A lookup by a positive id answers either what upstream replies or the live
   * record cached under `id:<n>`, which carries id `n`; the map it leaves is
   * consistent again.
   */
  lemma ByIdOutcomeSpec(m: map<string, Entry<Detail>>, n: int, now: int, reply: Reply<Detail>)
    requires DetailKeysConsistent(m)
    ensures var (r, m') := ByIdOutcome(m, n, now, reply);
      && DetailKeysConsistent(m')
      && (n <= 0 ==> r == Err(NotFound("Pokemon id is invalid")) && m' == m)
      && (n > 0 ==>
            || (r == FetchFromPokeApi(reply) && ByIdRequests(m, n, now) == [PokemonPath(IntToString(n))])
            || (&& IdKey(n) in m && now < m[IdKey(n)].expiresAt
                && r == Ok(m[IdKey(n)].data) && r.value.id == n && m' == m
                && ByIdRequests(m, n, now) == []))
  {
    if n > 0 {
      var look := GetMapCache(m, IdKey(n), now);
      if look.hit.Some? {
        ConsistentLookup(m, IdKey(n));
      } else if FetchFromPokeApi(reply).Ok? {
        StoreKeepsConsistent(look.rest, FetchFromPokeApi(reply).value, now);
      }
    }
  }

  /**
   * What a lookup by id against the detail map `m` may answer: not-found for an
   * id that is not positive, otherwise upstream's answer or the live record
   * cached in `m` under `id:<n>`, which carries that id.
   */
  predicate ByIdAnswer(m: map<string, Entry<Detail>>, n: int, now: int, reply: Reply<Detail>, r: Result<Detail>)
  {
    if n <= 0 then r == Err(NotFound("Pokemon id is invalid"))
    else
      || r == FetchFromPokeApi(reply)
      || (IdKey(n) in m && now < m[IdKey(n)].expiresAt && r == Ok(m[IdKey(n)].data) && r.value.id == n)
  }

  /** Every outcome of a lookup by id from a consistent map is such an answer. */
  lemma ByIdOutcomeAnswers(m: map<string, Entry<Detail>>, n: int, now: int, reply: Reply<Detail>)
    requires DetailKeysConsistent(m)
    ensures ByIdAnswer(m, n, now, reply, ByIdOutcome(m, n, now, reply).0)
  {
    ByIdOutcomeSpec(m, n, now, reply);
  }

  class Cache {
    var masterList: Slot<seq<IndexEntry>>
    var typeList: Slot<seq<string>>
    var typeMembership: map<string, Entry<Membership>>
    var pokemonDetail: map<string, Entry<Detail>>
    /** The paths of all upstream requests made so far, oldest first. */
    ghost var requested: seq<string>

    ghost predicate Valid()
      reads this
    {
      && (masterList.data.Some? ==> IsMasterList(masterList.data.value))
      && (typeList.data.Some? ==> SortedBy(typeList.data.value, NameLe))
      && (forall k :: k in typeMembership && !typeMembership[k].data.found ==> typeMembership[k].data.names == {})
      && DetailKeysConsistent(pokemonDetail)
    }

    /** The state of a freshly loaded module: both slots `{ data: null, expiresAt: 0 }`, both maps empty. */
    constructor ()
      ensures Valid()
      ensures masterList == Slot(None, 0) && typeList == Slot(None, 0)
      ensures typeMembership == map[] && pokemonDetail == map[]
      ensures requested == []
    {
      masterList := Slot(None, 0);
      typeList := Slot(None, 0);
      typeMembership := map[];
      pokemonDetail := map[];
      requested := [];
    }

    /** `fetchPokemonList`. */
    method FetchPokemonList(now: int, reply: Reply<seq<RawEntry>>) returns (r: Result<seq<IndexEntry>>)
      requires Valid()
      modifies this
      ensures Valid()
      ensures typeList == old(typeList) && typeMembership == old(typeMembership) && pokemonDetail == old(pokemonDetail)
      ensures r.Ok? ==> IsMasterList(r.value)
      ensures r == ListOutcome(old(masterList), now, reply)
      ensures requested == old(requested) + ListRequests(old(masterList), now)
      ensures masterList == ListSlot(old(masterList), now, reply)
    {
      if IsFresh(masterList, now) {
        return Ok(masterList.data.value);
      }
      requested := requested + [LIST_PATH];
      match FetchFromPokeApi(reply)
      case Ok(results) =>
        var list := MasterList(results);
        MasterListShape(results);
        masterList := Slot(Some(list), now + MASTER_LIST_TTL_MS);
        r := Ok(list);
      case Err(e) =>
        r := Err(e);
    }

    /** `fetchTypeList`. */
    method FetchTypeList(now: int, reply: Reply<seq<string>>) returns (r: Result<seq<string>>)
      requires Valid()
      modifies this
      ensures Valid()
      ensures masterList == old(masterList) && typeMembership == old(typeMembership) && pokemonDetail == old(pokemonDetail)
      ensures r.Ok? ==> SortedBy(r.value, NameLe)
      ensures IsFresh(old(typeList), now) ==>
        r == Ok(old(typeList).data.value) && typeList == old(typeList) && requested == old(requested)
      ensures !IsFresh(old(typeList), now) ==>
        && requested == old(requested) + [TYPE_LIST_PATH]
        && match FetchFromPokeApi(reply)
           case Ok(results) =>
             r == Ok(TypeNames(results)) && typeList == Slot(Some(TypeNames(results)), now + TYPE_MEMBERSHIP_TTL_MS)
           case Err(e) => r == Err(e) && typeList == old(typeList)
    {
      if IsFresh(typeList, now) {
        return Ok(typeList.data.value);
      }
      requested := requested + [TYPE_LIST_PATH];
      match FetchFromPokeApi(reply)
      case Ok(results) =>
        var types := TypeNames(results);
        TypeNamesShape(results);
        typeList := Slot(Some(types), now + TYPE_MEMBERSHIP_TTL_MS);
        r := Ok(types);
      case Err(e) =>
        r := Err(e);
    }

    /**
     * `fetchPokemonNamesByType`. An empty normalised name is answered without
     * the cache; a not-found type is cached as a negative result; any other
     * failure leaves only the eviction of an expired entry behind.
     */
    method FetchPokemonNamesByType(typeName: string, now: int, reply: Reply<seq<string>>) returns (r: Result<Membership>)
      requires Valid()
      modifies this
      ensures Valid()
      ensures masterList == old(masterList) && typeList == old(typeList) && pokemonDetail == old(pokemonDetail)
      ensures r.Ok? && !r.value.found ==> r.value.names == {}
      ensures r == MembershipOutcome(old(typeMembership), typeName, now, reply)
      ensures typeMembership == MembershipMap(old(typeMembership), typeName, now, reply)
      ensures requested == old(requested) + TypeRequests(old(typeMembership), typeName, now)
      ensures var t := NormalizeString(typeName);
        var look := GetMapCache(old(typeMembership), t, now);
        if t == "" then
          r == Ok(Membership(false, {})) && typeMembership == old(typeMembership) && requested == old(requested)
        else if look.hit.Some? then
          r == Ok(look.hit.value) && typeMembership == old(typeMembership) && requested == old(requested)
        else
          && requested == old(requested) + [TypePath(t)]
          && match FetchFromPokeApi(reply)
             case Ok(members) =>
               var result := Membership(true, NameSet(members));
               r == Ok(result) && typeMembership == SetMapCache(look.rest, t, result, TYPE_MEMBERSHIP_TTL_MS, now)
             case Err(NotFound(_)) =>
               var result := Membership(false, {});
               r == Ok(result) && typeMembership == SetMapCache(look.rest, t, result, TYPE_MEMBERSHIP_TTL_MS, now)
             case Err(e) => r == Err(e) && typeMembership == look.rest
    {
      var t := NormalizeString(typeName);
      if t == "" {
        return Ok(Membership(false, {}));
      }
      var look := GetMapCache(typeMembership, t, now);
      typeMembership := look.rest;
      if look.hit.Some? {
        return Ok(look.hit.value);
      }
      requested := requested + [TypePath(t)];
      match FetchFromPokeApi(reply)
      case Ok(members) =>
        var result := Membership(true, NameSet(members));
        typeMembership := SetMapCache(typeMembership, t, result, TYPE_MEMBERSHIP_TTL_MS, now);
        r := Ok(result);
      case Err(NotFound(_)) =>
        var result := Membership(false, {});
        typeMembership := SetMapCache(typeMembership, t, result, TYPE_MEMBERSHIP_TTL_MS, now);
        r := Ok(result);
      case Err(e) =>
        r := Err(e);
    }

    /** `cachePokemonDetail`: the same record under `name:<name>` and `id:<id>`, or nothing if either is falsy. */
    method CachePokemonDetail(data: Detail, now: int)
      requires Valid()
      modifies this
      ensures Valid()
      ensures masterList == old(masterList) && typeList == old(typeList) && typeMembership == old(typeMembership)
      ensures requested == old(requested)
      ensures pokemonDetail == StoreDetail(old(pokemonDetail), data, now)
    {
      if data.name == "" || data.id == 0 {
        return;
      }
      pokemonDetail := SetMapCache(pokemonDetail, NameKey(data.name), data, POKEMON_DETAIL_TTL_MS, now);
      pokemonDetail := SetMapCache(pokemonDetail, IdKey(data.id), data, POKEMON_DETAIL_TTL_MS, now);
    }

    /** `fetchPokemonByName`. */
    method FetchPokemonByName(name: string, now: int, reply: Reply<Detail>) returns (r: Result<Detail>)
      requires Valid()
      modifies this
      ensures Valid()
      ensures masterList == old(masterList) && typeList == old(typeList) && typeMembership == old(typeMembership)
      ensures var n := NormalizeString(name);
        var look := GetMapCache(old(pokemonDetail), NameKey(n), now);
        if n == "" then
          r == Err(NotFound("Pokemon name is required")) && pokemonDetail == old(pokemonDetail) && requested == old(requested)
        else if look.hit.Some? then
          r == Ok(look.hit.value) && r.value.name == n && pokemonDetail == old(pokemonDetail) && requested == old(requested)
        else
          && requested == old(requested) + [PokemonPath(n)]
          && match FetchFromPokeApi(reply)
             case Ok(d) => r == Ok(d) && pokemonDetail == StoreDetail(look.rest, d, now)
             case Err(e) => r == Err(e) && pokemonDetail == look.rest
    {
      var n := NormalizeString(name);
      if n == "" {
        return Err(NotFound("Pokemon name is required"));
      }
      var look := GetMapCache(pokemonDetail, NameKey(n), now);
      if look.hit.Some? {
        ConsistentLookup(pokemonDetail, NameKey(n));
        return Ok(look.hit.value);
      }
      pokemonDetail := look.rest;
      requested := requested + [PokemonPath(n)];
      match FetchFromPokeApi(reply)
      case Ok(d) =>
        CachePokemonDetail(d, now);
        r := Ok(d);
      case Err(e) =>
        r := Err(e);
    }

    /** `fetchPokemonById`; `id` is `Number(id)`, which must be a positive integer. */
    method FetchPokemonById(id: real, now: int, reply: Reply<Detail>) returns (r: Result<Detail>)
      requires Valid()
      modifies this
      ensures Valid()
      ensures masterList == old(masterList) && typeList == old(typeList) && typeMembership == old(typeMembership)
      ensures id == id.Floor as real ==>
        && r == ByIdOutcome(old(pokemonDetail), id.Floor, now, reply).0
        && pokemonDetail == ByIdOutcome(old(pokemonDetail), id.Floor, now, reply).1
        && requested == old(requested) + ByIdRequests(old(pokemonDetail), id.Floor, now)
      ensures id != id.Floor as real ==>
        r == Err(NotFound("Pokemon id is invalid")) && pokemonDetail == old(pokemonDetail) && requested == old(requested)
      ensures id == id.Floor as real && id.Floor > 0 && GetMapCache(old(pokemonDetail), IdKey(id.Floor), now).hit.Some? ==>
        r.Ok? && r.value.id == id.Floor
    {
      var n := id.Floor;
      if id != n as real || n <= 0 {
        return Err(NotFound("Pokemon id is invalid"));
      }
      var look := GetMapCache(pokemonDetail, IdKey(n), now);
      if look.hit.Some? {
        ConsistentLookup(pokemonDetail, IdKey(n));
        return Ok(look.hit.value);
      }
      pokemonDetail := look.rest;
      requested := requested + [PokemonPath(IntToString(n))];
      match FetchFromPokeApi(reply)
      case Ok(d) =>
        CachePokemonDetail(d, now);
        r := Ok(d);
      case Err(e) =>
        r := Err(e);
    }
  }
}

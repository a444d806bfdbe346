/**
 * The catalogue query route (src/pages/api/pokemon/index.js): normalise the
 * query, filter the cached master list by type and by substring, sort it by
 * one of four comparators, clamp the page, slice the window and shape one
 * card per entry, degrading an entry whose detail is not found.
 *
 * The pipeline is a chain of functions. `Handle` is the one method: it threads
 * the cache through the data-layer calls and feeds what they return to those
 * functions.
 */
module CatalogQuery {
  import opened Wrappers
  import opened Text
  import opened Sequences
  import opened PokeApi

  const PAGE_SIZE: int := 24
  const DEFAULT_SORT := "id-asc"
  const ALL_TYPES := "all"
  const SPRITE_BASE := "https://raw.githubusercontent.com/PokeAPI/sprites/master/sprites/pokemon/"

  // ------------------------------------------------------------------ sorting

  datatype SortRule = IdAsc | IdDesc | NameAsc | NameDesc

  /** The key of `SORTERS` that names each comparator. */
  function SortName(rule: SortRule): string
  {
    match rule
    case IdAsc => "id-asc"
    case IdDesc => "id-desc"
    case NameAsc => "name-asc"
    case NameDesc => "name-desc"
  }

  /** `SORTERS[sort]` over the table's own keys only: exactly the four sort names are recognised. */
  function ParseSortRule(sort: string): (r: Option<SortRule>)
    ensures r.Some? <==> sort == "id-asc" || sort == "id-desc" || sort == "name-asc" || sort == "name-desc"
    ensures r.Some? ==> SortName(r.value) == sort
  {
    if sort == "id-asc" then Some(IdAsc)
    else if sort == "id-desc" then Some(IdDesc)
    else if sort == "name-asc" then Some(NameAsc)
    else if sort == "name-desc" then Some(NameDesc)
    else None
  }

  /** Every comparator is found under its own name. */
  lemma SortNameRoundTrip(rule: SortRule)
    ensures ParseSortRule(SortName(rule)) == Some(rule)
  {
  }

  /**
   * What the property lookup `SORTERS[sort]` really finds: the four own keys,
   * plus the keys every object inherits from `Object.prototype`. After
   * `toLowerCase` only two inherited keys can still match: `constructor` (the
   * function `Object`) and `__proto__` (the object `Object.prototype`).
   */
  datatype SorterLookup = Comparator(rule: SortRule) | ObjectConstructor | ObjectPrototype | Undefined

  function SortersLookupAsWritten(sort: string): SorterLookup
  {
    match ParseSortRule(sort)
    case Some(rule) => Comparator(rule)
    case None =>
      if sort == "constructor" then ObjectConstructor
      else if sort == "__proto__" then ObjectPrototype
      else Undefined
  }

  /** The guard `if (!SORTERS[sort])` as written: any truthy property lets the request through. */
  predicate PassesSortGuardAsWritten(sort: string)
  {
    !SortersLookupAsWritten(sort).Undefined?
  }

  /**
   * The sort step as written for the two inherited keys. `Object` used as a
   * comparator returns an object, which converts to NaN and counts as "equal",
   * so the stable sort keeps the order; `Object.prototype` is not callable, so
   * `sort` throws a TypeError, and the catch answers 500. `None` is that throw.
   */
  function SortAsWritten(sort: string, filtered: seq<IndexEntry>): Option<seq<IndexEntry>>
    requires PassesSortGuardAsWritten(sort)
  {
    match SortersLookupAsWritten(sort)
    case Comparator(rule) => Some(SortBy(filtered, Precedes(rule)))
    case ObjectConstructor => Some(SortBy(filtered, (a: IndexEntry, b: IndexEntry) => true))
    case ObjectPrototype => None
  }

  /**
   * The discrepancy: `?sort=constructor` and `?sort=__proto__` are left as they
   * are by normalisation and are not sort names, yet they pass the guard that
   * should answer 400.
   */
  lemma InheritedSortKeysPassGuard()
    ensures NormalizeString("constructor") == "constructor" && NormalizeString("__proto__") == "__proto__"
    ensures ParseSortRule("constructor").None? && ParseSortRule("__proto__").None?
    ensures PassesSortGuardAsWritten("constructor") && PassesSortGuardAsWritten("__proto__")
  {
    InheritedKeysAreNormal();
  }

  lemma InheritedKeysAreNormal()
    ensures NormalizeString("constructor") == "constructor" && NormalizeString("__proto__") == "__proto__"
  {
    ConstructorIsNormal();
    ProtoIsNormal();
  }

  lemma ConstructorIsNormal()
    ensures NormalizeString("constructor") == "constructor"
  {
    var s := "constructor";
    assert forall i :: 0 <= i < |s| ==> !IsUpperAscii(s[i]);
    NormalizeFixesNormal(s);
  }

  lemma ProtoIsNormal()
    ensures NormalizeString("__proto__") == "__proto__"
  {
    var s := "__proto__";
    assert forall i :: 0 <= i < |s| ==> !IsUpperAscii(s[i]);
    NormalizeFixesNormal(s);
  }

  /**
   * What those two requests get as written: `constructor` is served in
   * master-list order (a 200), `__proto__` throws inside the sort (a 500).
   */
  lemma InheritedSortKeysOutcome(filtered: seq<IndexEntry>)
    ensures SortAsWritten("constructor", filtered) == Some(filtered)
    ensures SortAsWritten("__proto__", filtered).None?
  {
    SortBySortedIdentity(filtered, (a: IndexEntry, b: IndexEntry) => true);
  }

  predicate IdDescLe(a: IndexEntry, b: IndexEntry) { b.id <= a.id }

  predicate NameAscLe(a: IndexEntry, b: IndexEntry) { LexLe(a.name, b.name) }

  predicate NameDescLe(a: IndexEntry, b: IndexEntry) { LexLe(b.name, a.name) }

  /** `SORTERS[SortName(rule)](a, b) <= 0`: `a` may come before `b`. */
  function Precedes(rule: SortRule): (IndexEntry, IndexEntry) -> bool
  {
    match rule
    case IdAsc => IdLe
    case IdDesc => IdDescLe
    case NameAsc => NameAscLe
    case NameDesc => NameDescLe
  }

  /** Each of the four comparators is consistent: total and transitive. */
  lemma PrecedesTotalPreorder(rule: SortRule)
    ensures TotalPreorder(Precedes(rule))
  {
    var le := Precedes(rule);
    forall a, b ensures le(a, b) || le(b, a) {
      LexLeTotal(a.name, b.name);
    }
    forall a, b, c | le(a, b) && le(b, c) ensures le(a, c) {
      if rule == NameAsc {
        LexLeTransitive(a.name, b.name, c.name);
      } else if rule == NameDesc {
        LexLeTransitive(c.name, b.name, a.name);
      }
    }
  }

  /** With unique ids (for the id orders) or unique names (for the name orders) no two entries tie. */
  lemma UniqueKeysNoTies(rule: SortRule, a: IndexEntry, b: IndexEntry)
    requires Precedes(rule)(a, b) && Precedes(rule)(b, a)
    ensures rule == IdAsc || rule == IdDesc ==> a.id == b.id
    ensures rule == NameAsc || rule == NameDesc ==> a.name == b.name
  {
    if rule == NameAsc {
      LexLeAntisymmetric(a.name, b.name);
    } else if rule == NameDesc {
      LexLeAntisymmetric(b.name, a.name);
    }
  }

  // ------------------------------------------------------------------- query

  /** The query parameters as received; an absent parameter is "". */
  datatype RawQuery = RawQuery(q: string, category: string, sort: string, page: string)

  /** The normalised query the handler works with. */
  datatype Query = Query(q: string, category: string, rule: SortRule, requestedPage: int)

  /**
   * `normalizePage`: `Number.parseInt(String(value || '1'), 10)`, replaced by 1
   * when it is NaN or below 1.
   */
  function NormalizePage(value: string): (p: int)
    ensures p >= 1
    ensures value != "" && ParseInt(value).Some? && ParseInt(value).value >= 1 ==> p == ParseInt(value).value
    ensures value == "" || ParseInt(value).None? || ParseInt(value).value < 1 ==> p == 1
  {
    if value == "" then 1
    else
      match ParseInt(value)
      case Some(n) => if n < 1 then 1 else n
      case None => 1
  }

  /** A page number printed in decimal, whatever non-digit text follows it, is read back as itself. */
  lemma NormalizePageRoundTrip(n: int, tail: string)
    requires n >= 1
    requires tail == [] || !IsDigit(tail[0])
    ensures NormalizePage(IntToString(n) + tail) == n
  {
    ParseIntRoundTrip(n, tail);
  }

  /**
   * Lines 54-62 of the handler: normalise `q`, `type` (default `all`) and
   * `sort` (default `id-asc`); an unknown sort is rejected (`None`, a 400).
   */
  function ParseQuery(raw: RawQuery): (r: Option<Query>)
    ensures var sort := NormalizeString(raw.sort);
      r.Some? <==> sort == "" || ParseSortRule(sort).Some?
    ensures r.Some? ==> r.value.requestedPage >= 1 && r.value.q == NormalizeString(raw.q)
    ensures r.Some? ==> r.value.requestedPage == NormalizePage(raw.page)
    ensures r.Some? ==>
      r.value.category == if NormalizeString(raw.category) == "" then ALL_TYPES else NormalizeString(raw.category)
    ensures r.Some? && NormalizeString(raw.sort) == "" ==> r.value.rule == IdAsc
    ensures r.Some? && NormalizeString(raw.sort) != "" ==> SortName(r.value.rule) == NormalizeString(raw.sort)
  {
    var q := NormalizeString(raw.q);
    var category := if NormalizeString(raw.category) == "" then ALL_TYPES else NormalizeString(raw.category);
    var sort := if NormalizeString(raw.sort) == "" then DEFAULT_SORT else NormalizeString(raw.sort);
    match ParseSortRule(sort)
    case None => None
    case Some(rule) => Some(Query(q, category, rule, NormalizePage(raw.page)))
  }

  // --------------------------------------------------------------- filtering

  /** The test of line 76: the entry's name is one of the type's members. */
  function InType(m: Membership): IndexEntry -> bool
  {
    (e: IndexEntry) => e.name in m.names
  }

  /** The test of line 80: the entry's name contains the query text. */
  function MatchesText(q: string): IndexEntry -> bool
  {
    (e: IndexEntry) => Contains(e.name, q)
  }

  /** Lines 69-77: no filter for `all`; nothing for a type not found; otherwise its members. */
  function TypeFilter(list: seq<IndexEntry>, membership: Option<Membership>): seq<IndexEntry>
  {
    match membership
    case None => list
    case Some(m) => if !m.found then [] else Filter(list, InType(m))
  }

  /** Lines 79-81: a non-empty `q` keeps the names that contain it. */
  function QueryFilter(list: seq<IndexEntry>, q: string): seq<IndexEntry>
  {
    if q == "" then list else Filter(list, MatchesText(q))
  }

  predicate Keeps(e: IndexEntry, membership: Option<Membership>, q: string)
  {
    && (membership.Some? ==> membership.value.found && e.name in membership.value.names)
    && (q != "" ==> Contains(e.name, q))
  }

  /**
   * The filtered list is a subsequence of the master list and holds exactly the
   * entries that pass the type test and the substring test.
   */
  lemma SelectionSpec(list: seq<IndexEntry>, membership: Option<Membership>, q: string)
    ensures var selected := QueryFilter(TypeFilter(list, membership), q);
      && IsSubsequence(selected, list)
      && (forall i :: 0 <= i < |selected| ==> selected[i] in list && Keeps(selected[i], membership, q))
      && (forall i :: 0 <= i < |list| && Keeps(list[i], membership, q) ==> list[i] in selected)
  {
    SelectionIsSubsequence(list, membership, q);
    SelectionMembers(list, membership, q);
  }

  lemma SelectionMembers(list: seq<IndexEntry>, membership: Option<Membership>, q: string)
    ensures var selected := QueryFilter(TypeFilter(list, membership), q);
      && (forall i :: 0 <= i < |selected| ==> selected[i] in list && Keeps(selected[i], membership, q))
      && (forall i :: 0 <= i < |list| && Keeps(list[i], membership, q) ==> list[i] in selected)
  {
    var byType := TypeFilter(list, membership);
    var selected := QueryFilter(byType, q);
    forall i | 0 <= i < |list| && Keeps(list[i], membership, q) ensures list[i] in selected {
      var k :| 0 <= k < |byType| && byType[k] == list[i];
    }
    forall i | 0 <= i < |selected| ensures selected[i] in list && Keeps(selected[i], membership, q) {
      var k :| 0 <= k < |byType| && byType[k] == selected[i];
    }
  }

  lemma SelectionIsSubsequence(list: seq<IndexEntry>, membership: Option<Membership>, q: string)
    ensures IsSubsequence(QueryFilter(TypeFilter(list, membership), q), list)
  {
    match membership
    case None =>
      if q != "" {
        FilterIsSubsequence(list, MatchesText(q));
      } else {
        SubsequenceReflexive(list);
      }
    case Some(m) =>
      if m.found {
        if q != "" {
          FilterTwiceIsSubsequence(list, InType(m), MatchesText(q));
        } else {
          FilterIsSubsequence(list, InType(m));
        }
      }
  }

  /** Filtering by type and then by substring is filtering by substring and then by type. */
  lemma FilterOrderIrrelevant(list: seq<IndexEntry>, membership: Option<Membership>, q: string)
    ensures QueryFilter(TypeFilter(list, membership), q) == TypeFilter(QueryFilter(list, q), membership)
  {
    if membership.Some? && membership.value.found && q != "" {
      FilterCommutes(list, InType(membership.value), MatchesText(q));
    }
  }

  // -------------------------------------------------------------- pagination

  /** `Math.max(1, Math.ceil(totalItems / PAGE_SIZE))`. */
  function TotalPages(totalItems: nat): (t: int)
    ensures t >= 1
    ensures totalItems <= t * PAGE_SIZE
    ensures totalItems > 0 ==> (t - 1) * PAGE_SIZE < totalItems
    ensures totalItems == 0 ==> t == 1
  {
    if totalItems == 0 then 1 else (totalItems + PAGE_SIZE - 1) / PAGE_SIZE
  }

  /** `Math.min(requestedPage, totalPages)`. */
  function ClampPage(requestedPage: int, totalPages: int): (page: int)
    requires requestedPage >= 1 && totalPages >= 1
    ensures 1 <= page <= totalPages
    ensures page == requestedPage || (requestedPage > totalPages && page == totalPages)
  {
    if requestedPage < totalPages then requestedPage else totalPages
  }

  function Min(a: int, b: int): int { if a < b then a else b }

  /** `sorted.slice(start, start + PAGE_SIZE)` with `start = (page - 1) * PAGE_SIZE`. */
  function Window<T>(sorted: seq<T>, page: int): (w: seq<T>)
    requires 1 <= page <= TotalPages(|sorted|)
    ensures |w| <= PAGE_SIZE
    ensures |w| == Min(PAGE_SIZE, |sorted| - (page - 1) * PAGE_SIZE)
    ensures forall i :: 0 <= i < |w| ==> w[i] == sorted[(page - 1) * PAGE_SIZE + i]
  {
    var start := (page - 1) * PAGE_SIZE;
    sorted[start..Min(start + PAGE_SIZE, |sorted|)]
  }

  /** Every entry is shown on exactly one page: entry `i` is item `i % 24` of page `i / 24 + 1`. */
  lemma PagesPartition<T>(sorted: seq<T>, i: int)
    requires 0 <= i < |sorted|
    ensures 1 <= i / PAGE_SIZE + 1 <= TotalPages(|sorted|)
    ensures var w := Window(sorted, i / PAGE_SIZE + 1);
      i % PAGE_SIZE < |w| && w[i % PAGE_SIZE] == sorted[i]
  {
    var t := TotalPages(|sorted|);
    var p := i / PAGE_SIZE;
    assert i == p * PAGE_SIZE + i % PAGE_SIZE;
    assert p * PAGE_SIZE < t * PAGE_SIZE;
  }

  /** Sorting, counting, clamping and slicing: lines 83-89 of the handler. */
  datatype PagePlan = PagePlan(sorted: seq<IndexEntry>, totalPages: int, page: int, window: seq<IndexEntry>)

  function PlanPage(selected: seq<IndexEntry>, rule: SortRule, requestedPage: int): (p: PagePlan)
    requires requestedPage >= 1
    ensures p.sorted == SortBy(selected, Precedes(rule))
    ensures p.totalPages == TotalPages(|selected|)
    ensures 1 <= p.page <= p.totalPages
    ensures requestedPage <= p.totalPages ==> p.page == requestedPage
    ensures requestedPage > p.totalPages ==> p.page == p.totalPages
    ensures p.page == ClampPage(requestedPage, p.totalPages)
    ensures p.window == Window(p.sorted, p.page)
    ensures |selected| > 0 ==> p.window != []
  {
    var sorted := SortBy(selected, Precedes(rule));
    var totalPages := TotalPages(|sorted|);
    var page := ClampPage(requestedPage, totalPages);
    PagePlan(sorted, totalPages, page, Window(sorted, page))
  }

  /** The plan's list is the selection sorted stably by the chosen comparator. */
  lemma PlanPageSorted(selected: seq<IndexEntry>, rule: SortRule, requestedPage: int)
    requires requestedPage >= 1
    ensures var p := PlanPage(selected, rule, requestedPage);
      && SortedBy(p.sorted, Precedes(rule)) && multiset(p.sorted) == multiset(selected)
      && forall y :: Ties(p.sorted, y, Precedes(rule)) == Ties(selected, y, Precedes(rule))
  {
    PrecedesTotalPreorder(rule);
    SortBySorted(selected, Precedes(rule));
    StableForAll(selected, rule);
  }

  lemma StableForAll(selected: seq<IndexEntry>, rule: SortRule)
    ensures forall y :: Ties(SortBy(selected, Precedes(rule)), y, Precedes(rule)) == Ties(selected, y, Precedes(rule))
  {
    PrecedesTotalPreorder(rule);
    forall y ensures Ties(SortBy(selected, Precedes(rule)), y, Precedes(rule)) == Ties(selected, y, Precedes(rule)) {
      SortByStable(selected, y, Precedes(rule));
    }
  }

  // ------------------------------------------------------------------- cards

  datatype Card = Card(id: int, name: string, image: string, types: seq<string>)

  /** `getFallbackSprite`. */
  function FallbackSprite(id: int): string
  {
    SPRITE_BASE + IntToString(id) + ".png"
  }

  /** Different ids get different fallback images. */
  lemma FallbackSpriteInjective(a: int, b: int)
    requires FallbackSprite(a) == FallbackSprite(b)
    ensures a == b
  {
    var sa, sb := IntToString(a), IntToString(b);
    assert FallbackSprite(a)[|SPRITE_BASE|..|FallbackSprite(a)| - 4] == sa;
    assert FallbackSprite(b)[|SPRITE_BASE|..|FallbackSprite(b)| - 4] == sb;
    IntToStringInjective(a, b);
  }

  /**
   * `formatCardItem`: the detail's id; its name or else the list name; the
   * official artwork, else the front sprite, else the fallback image; the type
   * names in payload order, or none.
   */
  function FormatCard(detail: Detail, fallbackName: string): (c: Card)
    ensures c.id == detail.id
    ensures c.name == (if detail.name != "" then detail.name else fallbackName)
    ensures c.image != ""
    ensures detail.officialArtwork != "" ==> c.image == detail.officialArtwork
    ensures detail.officialArtwork == "" && detail.frontDefault != "" ==> c.image == detail.frontDefault
    ensures detail.officialArtwork == "" && detail.frontDefault == "" ==> c.image == FallbackSprite(detail.id)
    ensures c.types == (if detail.types.Some? then detail.types.value else [])
  {
    Card(
      detail.id,
      if detail.name != "" then detail.name else fallbackName,
      if detail.officialArtwork != "" then detail.officialArtwork
      else if detail.frontDefault != "" then detail.frontDefault
      else FallbackSprite(detail.id),
      match detail.types
      case Some(names) => names
      case None => [])
  }

  /**
   * The per-item `try`/`catch` of lines 93-107: a found detail is formatted, a
   * not-found detail becomes a degraded card, any other failure is rethrown.
   */
  function CardOutcome(entry: IndexEntry, lookup: Result<Detail>): (r: Result<Card>)
    ensures r.Err? <==> lookup.Err? && !lookup.error.NotFound?
    ensures r.Err? ==> r.error == lookup.error
    ensures lookup.Ok? ==> r == Ok(FormatCard(lookup.value, entry.name))
    ensures lookup.Err? && lookup.error.NotFound? ==>
      r == Ok(Card(entry.id, entry.name, FallbackSprite(entry.id), []))
  {
    match lookup
    case Ok(detail) => Ok(FormatCard(detail, entry.name))
    case Err(NotFound(_)) => Ok(Card(entry.id, entry.name, FallbackSprite(entry.id), []))
    case Err(e) => Err(e)
  }

  function CardOutcomes(window: seq<IndexEntry>, lookups: seq<Result<Detail>>): (r: seq<Result<Card>>)
    requires |lookups| == |window|
    ensures |r| == |window|
    ensures forall i :: 0 <= i < |r| ==> r[i] == CardOutcome(window[i], lookups[i])
  {
    seq(|window|, i requires 0 <= i < |window| => CardOutcome(window[i], lookups[i]))
  }

  /**
   * `Promise.all` over the per-item results, taken in window order: every card
   * in order if all succeeded, otherwise the first failure.
   */
  function AllCards(outcomes: seq<Result<Card>>): (r: Result<seq<Card>>)
    ensures r.Ok? <==> forall i :: 0 <= i < |outcomes| ==> outcomes[i].Ok?
    ensures r.Ok? ==> |r.value| == |outcomes| && forall i :: 0 <= i < |outcomes| ==> r.value[i] == outcomes[i].value
    ensures r.Err? ==>
      (exists i :: 0 <= i < |outcomes| && outcomes[i] == Err(r.error) && forall j :: 0 <= j < i ==> outcomes[j].Ok?)
  {
    if outcomes == [] then Ok([])
    else
      match outcomes[0]
      case Err(e) => Err(e)
      case Ok(card) =>
        match AllCards(outcomes[1..])
        case Err(e) =>
          assert forall i :: 1 <= i < |outcomes| ==> outcomes[i] == outcomes[1..][i - 1];
          Err(e)
        case Ok(cards) => Ok([card] + cards)
  }

  // ---------------------------------------------------------------- response

  /** What the route answers: the status code and the JSON body. */
  datatype Response =
    | Page(items: seq<Card>, page: int, pageSize: int, totalItems: int, totalPages: int)
    | InvalidSort
    | Unavailable
    | InternalError

  function StatusCode(res: Response): int
  {
    match res
    case Page(_, _, _, _, _) => 200
    case InvalidSort => 400
    case Unavailable => 502
    case InternalError => 500
  }

  /** The outer `catch`: a request error (the not-found one included) is a 502, anything else a 500. */
  function ErrorResponse(e: ApiError): (res: Response)
    ensures StatusCode(res) == 502 <==> IsRequestError(e)
    ensures StatusCode(res) == 500 <==> !IsRequestError(e)
  {
    if IsRequestError(e) then Unavailable else InternalError
  }

  /** The list the page is drawn from, or the failure that aborts the request before any detail lookup. */
  function Selection(listResult: Result<seq<IndexEntry>>, typeResult: Option<Result<Membership>>, q: string): Result<seq<IndexEntry>>
  {
    match listResult
    case Err(e) => Err(e)
    case Ok(list) =>
      match typeResult
      case None => Ok(QueryFilter(list, q))
      case Some(Err(e)) => Err(e)
      case Some(Ok(m)) => Ok(QueryFilter(TypeFilter(list, Some(m)), q))
  }

  /** The response for a selection, given the result of each window entry's detail lookup. */
  function PageResponse(selected: seq<IndexEntry>, query: Query, lookups: seq<Result<Detail>>): Response
    requires query.requestedPage >= 1
    requires |lookups| == |PlanPage(selected, query.rule, query.requestedPage).window|
  {
    var plan := PlanPage(selected, query.rule, query.requestedPage);
    match AllCards(CardOutcomes(plan.window, lookups))
    case Ok(items) => Page(items, plan.page, PAGE_SIZE, |selected|, plan.totalPages)
    case Err(e) => ErrorResponse(e)
  }

  /** With every card made, the cards are the window's outcomes, one per entry, in order. */
  lemma CardsOfWindow(window: seq<IndexEntry>, lookups: seq<Result<Detail>>)
    requires |lookups| == |window|
    ensures var all := AllCards(CardOutcomes(window, lookups));
      all.Ok? ==>
        && |all.value| == |window|
        && forall i :: 0 <= i < |window| ==> Ok(all.value[i]) == CardOutcome(window[i], lookups[i])
  {
  }

  /**
   * A page response counts the whole selection, keeps the page in range, and
   * shows the window in order, one card per entry, degraded where the detail was
   * not found.
   */
  lemma PageResponseSpec(selected: seq<IndexEntry>, query: Query, lookups: seq<Result<Detail>>)
    requires query.requestedPage >= 1
    requires |lookups| == |PlanPage(selected, query.rule, query.requestedPage).window|
    ensures var res := PageResponse(selected, query, lookups);
      var plan := PlanPage(selected, query.rule, query.requestedPage);
      res.Page? ==>
        && res.totalItems == |selected|
        && res.totalPages == TotalPages(|selected|)
        && res.page == plan.page && 1 <= res.page <= res.totalPages
        && res.pageSize == PAGE_SIZE
        && |res.items| == |plan.window| <= PAGE_SIZE
        && forall i :: 0 <= i < |res.items| ==>
             Ok(res.items[i]) == CardOutcome(plan.window[i], lookups[i])
  {
    var plan := PlanPage(selected, query.rule, query.requestedPage);
    CardsOfWindow(plan.window, lookups);
  }

  /**
   * Partial-failure isolation: when every lookup either succeeds or is not
   * found, the page is served whole, with the same metadata as if every lookup
   * had succeeded, and each not-found entry appears in degraded form.
   */
  lemma PartialFailureIsolation(selected: seq<IndexEntry>, query: Query, lookups: seq<Result<Detail>>)
    requires query.requestedPage >= 1
    requires |lookups| == |PlanPage(selected, query.rule, query.requestedPage).window|
    requires forall i :: 0 <= i < |lookups| ==> lookups[i].Ok? || lookups[i].error.NotFound?
    ensures var res := PageResponse(selected, query, lookups);
      var plan := PlanPage(selected, query.rule, query.requestedPage);
      && res.Page?
      && res.totalItems == |selected| && res.totalPages == TotalPages(|selected|)
      && |res.items| == |plan.window|
      && forall i :: 0 <= i < |lookups| && lookups[i].Err? ==>
           res.items[i] == Card(plan.window[i].id, plan.window[i].name, FallbackSprite(plan.window[i].id), [])
  {
    var plan := PlanPage(selected, query.rule, query.requestedPage);
    var outcomes := CardOutcomes(plan.window, lookups);
    assert forall i :: 0 <= i < |outcomes| ==> outcomes[i].Ok?;
  }

  /** The upstream paths of the detail lookups a window may cause. */
  function DetailPaths(window: seq<IndexEntry>): set<string>
  {
    set e | e in window :: PokemonPath(IntToString(e.id))
  }

  /** What the detail lookups of a window leave behind: their answers in order, the detail map, the requests made. */
  datatype WindowRun = WindowRun(lookups: seq<Result<Detail>>, detail: map<string, Entry<Detail>>, requests: seq<string>)

  /**
   * The lookups of the window's ids, one after the other in window order, each
   * against the detail map the previous one left (`ByIdOutcome`).
   */
  function WindowLookups(m: map<string, Entry<Detail>>, window: seq<IndexEntry>, now: int,
                         detailReply: int -> Reply<Detail>): (run: WindowRun)
    ensures |run.lookups| == |window|
  {
    if window == [] then WindowRun([], m, [])
    else
      var last := window[|window| - 1];
      var run := WindowLookups(m, window[..|window| - 1], now, detailReply);
      var (r, m') := ByIdOutcome(run.detail, last.id, now, detailReply(last.id));
      WindowRun(run.lookups + [r], m', run.requests + ByIdRequests(run.detail, last.id, now))
  }

  /** The lookups of a window keep every key of the detail map matching the record stored under it. */
  lemma {:induction false} WindowKeepsConsistent(m: map<string, Entry<Detail>>, window: seq<IndexEntry>, now: int,
                                                 detailReply: int -> Reply<Detail>)
    requires DetailKeysConsistent(m)
    ensures DetailKeysConsistent(WindowLookups(m, window, now, detailReply).detail)
  {
    if window != [] {
      var front, last := window[..|window| - 1], window[|window| - 1];
      WindowKeepsConsistent(m, front, now, detailReply);
      ByIdOutcomeSpec(WindowLookups(m, front, now, detailReply).detail, last.id, now, detailReply(last.id));
    }
  }

  /**
   * Each lookup of a window answers not-found for an id that is not positive,
   * and otherwise upstream's answer for its id or the live record cached under
   * that id in the detail map the earlier lookups left (`ByIdAnswer`).
   */
  lemma {:induction false} WindowLookupsAnswers(m: map<string, Entry<Detail>>, window: seq<IndexEntry>, now: int,
                                                detailReply: int -> Reply<Detail>)
    requires DetailKeysConsistent(m)
    ensures var run := WindowLookups(m, window, now, detailReply);
      forall i :: 0 <= i < |window| ==>
        ByIdAnswer(WindowLookups(m, window[..i], now, detailReply).detail, window[i].id, now,
                   detailReply(window[i].id), run.lookups[i])
  {
    if window != [] {
      var n := |window| - 1;
      var front, last := window[..n], window[n];
      WindowLookupsAnswers(m, front, now, detailReply);
      WindowKeepsConsistent(m, front, now, detailReply);
      var run, all := WindowLookups(m, front, now, detailReply), WindowLookups(m, window, now, detailReply);
      var r := ByIdOutcome(run.detail, last.id, now, detailReply(last.id)).0;
      ByIdOutcomeAnswers(run.detail, last.id, now, detailReply(last.id));
      assert all.lookups == run.lookups + [r];
      forall i | 0 <= i < |window|
        ensures ByIdAnswer(WindowLookups(m, window[..i], now, detailReply).detail, window[i].id, now,
                           detailReply(window[i].id), all.lookups[i])
      {
        if i < n {
          assert all.lookups[i] == run.lookups[i] && window[i] == front[i] && window[..i] == front[..i];
        } else {
          assert window[..i] == front;
        }
      }
    }
  }

  /** Every request the lookups of a window make is a detail path of the window, at most one per entry. */
  lemma {:induction false} WindowLookupsRequests(m: map<string, Entry<Detail>>, window: seq<IndexEntry>, now: int,
                                                 detailReply: int -> Reply<Detail>)
    ensures var run := WindowLookups(m, window, now, detailReply);
      && |run.requests| <= |window|
      && forall k :: 0 <= k < |run.requests| ==> run.requests[k] in DetailPaths(window)
  {
    if window != [] {
      var front, last := window[..|window| - 1], window[|window| - 1];
      WindowLookupsRequests(m, front, now, detailReply);
      var run, all := WindowLookups(m, front, now, detailReply), WindowLookups(m, window, now, detailReply);
      var extra := ByIdRequests(run.detail, last.id, now);
      assert all.requests == run.requests + extra;
      assert forall e :: e in front ==> e in window;
      assert forall p :: p in extra ==> p == PokemonPath(IntToString(last.id));
    }
  }

  /**
   * The route handler for a GET request (the method check and the HTTP plumbing
   * are left out). The ghost results are what the data layer returned: the
   * master list, the type membership (only asked for when a type other than
   * `all` is selected and the list was obtained), and the detail lookup of each
   * window entry, in order. Each is the outcome of the cache state it was served
   * from and the upstream reply, and so is the cache the request leaves.
   */
  method Handle(cache: Cache, raw: RawQuery, now: int,
                listReply: Reply<seq<RawEntry>>, typeReply: Reply<seq<string>>, detailReply: int -> Reply<Detail>)
    returns (res: Response, ghost listResult: Result<seq<IndexEntry>>,
             ghost typeResult: Option<Result<Membership>>, ghost lookups: seq<Result<Detail>>)
    requires cache.Valid()
    modifies cache
    ensures cache.Valid()
    ensures ParseQuery(raw).None? ==> res == InvalidSort && unchanged(cache)
    ensures ParseQuery(raw).Some? ==>
      var query := ParseQuery(raw).value;
      var before := old(cache.requested) + ListRequests(old(cache.masterList), now)
        + (if typeResult.Some? then TypeRequests(old(cache.typeMembership), query.category, now) else []);
      && listResult == ListOutcome(old(cache.masterList), now, listReply)
      && (listResult.Ok? ==> IsMasterList(listResult.value))
      && (typeResult.Some? <==> listResult.Ok? && query.category != ALL_TYPES)
      && (typeResult.Some? ==> typeResult.value == MembershipOutcome(old(cache.typeMembership), query.category, now, typeReply))
      && cache.masterList == ListSlot(old(cache.masterList), now, listReply)
      && cache.typeList == old(cache.typeList)
      && cache.typeMembership ==
           (if typeResult.Some? then MembershipMap(old(cache.typeMembership), query.category, now, typeReply)
            else old(cache.typeMembership))
      && match Selection(listResult, typeResult, query.q)
         case Err(e) =>
           && res == ErrorResponse(e) && lookups == []
           && cache.pokemonDetail == old(cache.pokemonDetail)
           && cache.requested == before
         case Ok(selected) =>
           var window := PlanPage(selected, query.rule, query.requestedPage).window;
           var run := WindowLookups(old(cache.pokemonDetail), window, now, detailReply);
           && lookups == run.lookups
           && res == PageResponse(selected, query, lookups)
           && cache.pokemonDetail == run.detail
           && cache.requested == before + run.requests
  {
    lookups := [];
    typeResult := None;
    listResult := Err(Unexpected);
    var parsed := ParseQuery(raw);
    if parsed.None? {
      return InvalidSort, listResult, typeResult, lookups;
    }
    var query := parsed.value;
    var selection;
    selection, listResult, typeResult := SelectEntries(cache, query, now, listReply, typeReply);
    if selection.Err? {
      return ErrorResponse(selection.error), listResult, typeResult, lookups;
    }
    res, lookups := ServePage(cache, selection.value, query, now, detailReply);
  }

  /**
   * Lines 64-81 of the handler: fetch the master list and, for a type other
   * than `all`, the type membership through the cache, then filter. The
   * selection is `Selection` of what the two fetches returned; those, the list
   * slot and the membership map left behind, and the requests made are the
   * outcomes of the cache state found and the upstream replies.
   */
  method SelectEntries(cache: Cache, query: Query, now: int,
                       listReply: Reply<seq<RawEntry>>, typeReply: Reply<seq<string>>)
    returns (selection: Result<seq<IndexEntry>>, ghost listResult: Result<seq<IndexEntry>>,
             ghost typeResult: Option<Result<Membership>>)
    requires cache.Valid()
    modifies cache
    ensures cache.Valid()
    ensures listResult == ListOutcome(old(cache.masterList), now, listReply)
    ensures listResult.Ok? ==> IsMasterList(listResult.value)
    ensures typeResult.Some? <==> listResult.Ok? && query.category != ALL_TYPES
    ensures typeResult.Some? ==>
      typeResult.value == MembershipOutcome(old(cache.typeMembership), query.category, now, typeReply)
    ensures selection == Selection(listResult, typeResult, query.q)
    ensures cache.masterList == ListSlot(old(cache.masterList), now, listReply)
    ensures cache.typeMembership ==
      if typeResult.Some? then MembershipMap(old(cache.typeMembership), query.category, now, typeReply)
      else old(cache.typeMembership)
    ensures cache.typeList == old(cache.typeList) && cache.pokemonDetail == old(cache.pokemonDetail)
    ensures cache.requested == old(cache.requested) + ListRequests(old(cache.masterList), now)
      + (if typeResult.Some? then TypeRequests(old(cache.typeMembership), query.category, now) else [])
  {
    typeResult := None;
    var list := cache.FetchPokemonList(now, listReply);
    listResult := list;
    if list.Err? {
      return Err(list.error), listResult, typeResult;
    }
    var filtered := list.value;
    if query.category != ALL_TYPES {
      var membership := cache.FetchPokemonNamesByType(query.category, now, typeReply);
      typeResult := Some(membership);
      if membership.Err? {
        return Err(membership.error), listResult, typeResult;
      }
      filtered := TypeFilter(filtered, Some(membership.value));
    }
    selection := Ok(QueryFilter(filtered, query.q));
  }

  /**
   * Lines 83-117 of the handler: sort and slice the selection, look up each
   * window entry's detail through the cache, and answer with the page.
   */
  method ServePage(cache: Cache, selected: seq<IndexEntry>, query: Query, now: int, detailReply: int -> Reply<Detail>)
    returns (res: Response, ghost lookups: seq<Result<Detail>>)
    requires cache.Valid() && query.requestedPage >= 1
    modifies cache
    ensures cache.Valid()
    ensures cache.masterList == old(cache.masterList) && cache.typeList == old(cache.typeList)
    ensures cache.typeMembership == old(cache.typeMembership)
    ensures var window := PlanPage(selected, query.rule, query.requestedPage).window;
      var run := WindowLookups(old(cache.pokemonDetail), window, now, detailReply);
      && lookups == run.lookups
      && cache.pokemonDetail == run.detail
      && cache.requested == old(cache.requested) + run.requests
    ensures res == PageResponse(selected, query, lookups)
  {
    var plan := PlanPage(selected, query.rule, query.requestedPage);
    var details := LookUpWindow(cache, plan.window, now, detailReply);
    lookups := details;
    var outcomes := CardOutcomes(plan.window, details);
    match AllCards(outcomes)
    case Ok(items) =>
      res := Page(items, plan.page, PAGE_SIZE, |selected|, plan.totalPages);
    case Err(e) =>
      res := ErrorResponse(e);
  }

  /**
   * The `Promise.all` over the window (lines 91-109 of the handler): look up
   * each entry's detail by id through the cache, in window order. The answers,
   * the detail map left behind and the requests made are those of
   * `WindowLookups` from the detail map found; nothing else changes.
   */
  method LookUpWindow(cache: Cache, window: seq<IndexEntry>, now: int, detailReply: int -> Reply<Detail>)
    returns (details: seq<Result<Detail>>)
    requires cache.Valid()
    modifies cache
    ensures cache.Valid()
    ensures cache.masterList == old(cache.masterList) && cache.typeList == old(cache.typeList)
    ensures cache.typeMembership == old(cache.typeMembership)
    ensures var run := WindowLookups(old(cache.pokemonDetail), window, now, detailReply);
      && details == run.lookups
      && cache.pokemonDetail == run.detail
      && cache.requested == old(cache.requested) + run.requests
  {
    details := [];
    var i := 0;
    while i < |window|
      invariant 0 <= i <= |window|
      invariant cache.Valid()
      invariant cache.masterList == old(cache.masterList) && cache.typeList == old(cache.typeList)
      invariant cache.typeMembership == old(cache.typeMembership)
      invariant var run := WindowLookups(old(cache.pokemonDetail), window[..i], now, detailReply);
        && details == run.lookups
        && cache.pokemonDetail == run.detail
        && cache.requested == old(cache.requested) + run.requests
    {
      var entry := window[i];
      assert window[..i + 1][..i] == window[..i];
      assert (entry.id as real).Floor == entry.id;
      var detail := cache.FetchPokemonById(entry.id as real, now, detailReply(entry.id));
      details := details + [detail];
      i := i + 1;
    }
    assert window[..|window|] == window;
  }
}

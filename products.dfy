/** The catalogue page (src/pages/Products.tsx): `applySearchAndFilters` narrows the
    products step by step (search, category, material, price bounds), sorts them by one of
    four keys, and the result is shown in pages of 12 numbered from 1. */
module Products {
  import opened Wrappers
  import opened Seqs
  import opened Text
  import opened Catalog
  import opened ProductFilters

  // ---------------------------------------------------------------- the filter steps

  /** `s.toLowerCase().includes(query.toLowerCase())` */
  predicate ContainsFolded(s: string, query: string) {
    Contains(ToLower(s), ToLower(query))
  }

  /** The search test: the query, lower-cased but not trimmed, occurs in the Persian
      name, the English name, some tag or the description. */
  predicate SearchHit(p: Product, query: string) {
    ContainsFolded(p.nameFa, query) || ContainsFolded(p.nameEn, query)
    || (exists i :: 0 <= i < |p.tags| && ContainsFolded(p.tags[i], query))
    || ContainsFolded(p.description, query)
  }

  /** The category test: some tag contains the category's name (case-sensitive). */
  predicate TaggedWith(p: Product, name: string) {
    exists i :: 0 <= i < |p.tags| && Contains(p.tags[i], name)
  }

  /** The material test: the lower-cased material contains the lower-cased filter value. */
  predicate MaterialHit(p: Product, material: string) {
    ContainsFolded(p.specifications.material, material)
  }

  /** `mockCategories.find((cat) => cat.slug === slug)` */
  function FindCategory(cs: seq<Category>, slug: string): (r: Option<Category>)
    ensures r.Some? ==> r.value in cs && r.value.slug == slug
    ensures r.None? ==> forall i :: 0 <= i < |cs| ==> cs[i].slug != slug
  {
    if cs == [] then None else if cs[0].slug == slug then Some(cs[0]) else FindCategory(cs[1..], slug)
  }

  function SearchTest(query: string): Product -> bool {
    (p: Product) => SearchHit(p, query)
  }

  function CategoryTest(name: string): Product -> bool {
    (p: Product) => TaggedWith(p, name)
  }

  function MaterialTest(material: string): Product -> bool {
    (p: Product) => MaterialHit(p, material)
  }

  function AtLeast(min: int): Product -> bool {
    (p: Product) => p.price >= min
  }

  function AtMost(max: int): Product -> bool {
    (p: Product) => p.price <= max
  }

  /** A product passes the search step: a blank query keeps everything. */
  predicate PassesSearch(p: Product, query: string) {
    IsBlank(query) || SearchHit(p, query)
  }

  /** A product passes the category step: it applies only to a known slug. */
  predicate PassesCategory(p: Product, slug: string) {
    slug == "" || FindCategory(MockCategories, slug).None? || TaggedWith(p, FindCategory(MockCategories, slug).value.name)
  }

  /** A product passes the material step: it applies only to a non-empty value. */
  predicate PassesMaterial(p: Product, material: string) {
    material == "" || MaterialHit(p, material)
  }

  /** A product passes the lower price bound: it applies only when the text is non-empty
      and `parseInt` reads a number from it. */
  predicate PassesMin(p: Product, minPrice: string) {
    minPrice == "" || ParseInt(minPrice).None? || p.price >= ParseInt(minPrice).value
  }

  /** A product passes the upper price bound, under the same conditions. */
  predicate PassesMax(p: Product, maxPrice: string) {
    maxPrice == "" || ParseInt(maxPrice).None? || p.price <= ParseInt(maxPrice).value
  }

  /** A product passes every step the filter record switches on. */
  predicate PassesFilters(p: Product, f: FilterState) {
    PassesCategory(p, f.category) && PassesMaterial(p, f.material) && PassesMin(p, f.minPrice) && PassesMax(p, f.maxPrice)
  }

  /** A product survives `applySearchAndFilters(query, filters)`; without a filter record
      only the search applies. */
  predicate Kept(p: Product, query: string, filters: Option<FilterState>) {
    PassesSearch(p, query) && (filters.Some? ==> PassesFilters(p, filters.value))
  }

  function KeptTest(query: string, filters: Option<FilterState>): Product -> bool {
    (p: Product) => Kept(p, query, filters)
  }

  // ---------------------------------------------------------------- sorting

  /** The four sort orders, and every other `sortBy` value (no sorting). */
  datatype SortOrder = PriceAsc | PriceDesc | RatingDesc | Newest | Unsorted

  function OrderOf(sortBy: string): SortOrder {
    if sortBy == "price-asc" then PriceAsc
    else if sortBy == "price-desc" then PriceDesc
    else if sortBy == "rating" then RatingDesc
    else if sortBy == "newest" then Newest
    else Unsorted
  }

  /** The comparators `a.price - b.price`, `b.price - a.price`, `b.rating - a.rating` and
      `b.id - a.id` all order by ascending key, for these keys. */
  function Key(p: Product, o: SortOrder): int {
    match o
    case PriceAsc => p.price
    case PriceDesc => -p.price
    case RatingDesc => -p.rating
    case Newest => -p.id
    case Unsorted => 0
  }

  /** The keys never decrease along `s`. */
  predicate SortedBy(s: seq<Product>, o: SortOrder) {
    forall i, j :: 0 <= i < j < |s| ==> Key(s[i], o) <= Key(s[j], o)
  }

  /** Inserts `x` before the first element whose key is not smaller than its own. */
  function Insert(x: Product, s: seq<Product>, o: SortOrder): seq<Product> {
    if s == [] || Key(x, o) <= Key(s[0], o) then [x] + s
    else [s[0]] + Insert(x, s[1..], o)
  }

  /** `Array.prototype.sort` with a comparator by key: an insertion sort, which is stable
      like the engine's sort. */
  function SortBy(s: seq<Product>, o: SortOrder): seq<Product> {
    if s == [] then [] else Insert(s[0], SortBy(s[1..], o), o)
  }

  /** A sorted sequence stays sorted with an element in front whose key is not larger. */
  lemma SortedCons(a: Product, t: seq<Product>, o: SortOrder)
    requires SortedBy(t, o) && (t == [] || Key(a, o) <= Key(t[0], o))
    ensures SortedBy([a] + t, o)
  {
  }

  /** Insertion into a sorted sequence keeps it sorted and adds exactly `x`. */
  lemma {:induction false} InsertSpec(x: Product, s: seq<Product>, o: SortOrder)
    requires SortedBy(s, o)
    ensures SortedBy(Insert(x, s, o), o)
    ensures multiset(Insert(x, s, o)) == multiset(s) + multiset{x}
    ensures Insert(x, s, o)[0] == x || (s != [] && Insert(x, s, o)[0] == s[0])
  {
    if s == [] || Key(x, o) <= Key(s[0], o) {
      SortedCons(x, s, o);
    } else {
      var rest := Insert(x, s[1..], o);
      InsertSpec(x, s[1..], o);
      SortedCons(s[0], rest, o);
      assert s == [s[0]] + s[1..];
    }
  }

  /** The sort orders by key and keeps every product, as often as it occurs. */
  lemma {:induction false} SortBySpec(s: seq<Product>, o: SortOrder)
    ensures SortedBy(SortBy(s, o), o)
    ensures multiset(SortBy(s, o)) == multiset(s)
  {
    if s != [] {
      SortBySpec(s[1..], o);
      InsertSpec(s[0], SortBy(s[1..], o), o);
      assert s == [s[0]] + s[1..];
    }
  }

  function KeyIs(o: SortOrder, k: int): Product -> bool {
    (p: Product) => Key(p, o) == k
  }

  /** Inserting `x` puts it before every element of equal key. */
  lemma {:induction false} InsertStable(x: Product, s: seq<Product>, o: SortOrder, k: int)
    ensures Filter(Insert(x, s, o), KeyIs(o, k)) == (if Key(x, o) == k then [x] else []) + Filter(s, KeyIs(o, k))
  {
    if s == [] || Key(x, o) <= Key(s[0], o) {
      FilterCons(x, s, KeyIs(o, k));
    } else {
      InsertStable(x, s[1..], o, k);
      FilterConsPast(s[0], if Key(x, o) == k then [x] else [], Insert(x, s[1..], o), s[1..], KeyIs(o, k));
      assert s == [s[0]] + s[1..];
    }
  }

  /** The sort is stable: the products of any one key keep their relative order. */
  lemma {:induction false} SortStable(s: seq<Product>, o: SortOrder, k: int)
    ensures Filter(SortBy(s, o), KeyIs(o, k)) == Filter(s, KeyIs(o, k))
  {
    if s != [] {
      SortStable(s[1..], o, k);
      InsertStable(s[0], SortBy(s[1..], o), o, k);
    }
  }

  /** Any other `sortBy` value leaves the order as it was. */
  lemma {:induction false} UnsortedKeepsOrder(s: seq<Product>)
    ensures SortBy(s, Unsorted) == s
  {
    if s != [] {
      UnsortedKeepsOrder(s[1..]);
      assert s == [s[0]] + s[1..];
    }
  }

  // ---------------------------------------------------------------- the pipeline

  /** What `applySearchAndFilters(query, filters)` leaves in `filteredProducts`: the
      products that pass every step, in catalogue order, sorted when a filter record names
      a sort order. */
  function Expected(products: seq<Product>, query: string, filters: Option<FilterState>): seq<Product> {
    var kept := Filter(products, KeptTest(query, filters));
    if filters.Some? then SortBy(kept, OrderOf(filters.value.sortBy)) else kept
  }

  /** The steps `applySearchAndFilters` switches on, with what each one tests against:
      the query, the category's name, the material, and the two parsed bounds. */
  datatype Steps = Steps(search: Option<string>, category: Option<string>, material: Option<string>,
                         min: Option<int>, max: Option<int>)

  /** Which steps the source switches on for a query and a filter record: search on a
      non-blank query, category on a non-empty known slug, material on a non-empty value,
      each price bound on a non-empty text that `parseInt` reads. */
  function StepsOf(query: string, filters: Option<FilterState>): Steps {
    var search := if !IsBlank(query) then Some(query) else None;
    match filters
    case None => Steps(search, None, None, None, None)
    case Some(f) =>
      var category := if f.category != "" then FindCategory(MockCategories, f.category) else None;
      Steps(search,
            if category.Some? then Some(category.value.name) else None,
            if f.material != "" then Some(f.material) else None,
            if f.minPrice != "" then ParseInt(f.minPrice) else None,
            if f.maxPrice != "" then ParseInt(f.maxPrice) else None)
  }

  /** A product passes the first `stage` steps of the pipeline: search, category,
      material, lower bound, upper bound. */
  predicate PassesUpTo(p: Product, st: Steps, stage: nat) {
    (stage >= 1 && st.search.Some? ==> SearchHit(p, st.search.value))
    && (stage >= 2 && st.category.Some? ==> TaggedWith(p, st.category.value))
    && (stage >= 3 && st.material.Some? ==> MaterialHit(p, st.material.value))
    && (stage >= 4 && st.min.Some? ==> p.price >= st.min.value)
    && (stage >= 5 && st.max.Some? ==> p.price <= st.max.value)
  }

  function StageTest(st: Steps, stage: nat): Product -> bool {
    (p: Product) => PassesUpTo(p, st, stage)
  }

  /** The test of step `stage` (1 to 5), when it is switched on. */
  function StepTest(st: Steps, stage: nat): Option<Product -> bool> {
    if stage == 1 then (if st.search.Some? then Some(SearchTest(st.search.value)) else None)
    else if stage == 2 then (if st.category.Some? then Some(CategoryTest(st.category.value)) else None)
    else if stage == 3 then (if st.material.Some? then Some(MaterialTest(st.material.value)) else None)
    else if stage == 4 then (if st.min.Some? then Some(AtLeast(st.min.value)) else None)
    else if stage == 5 then (if st.max.Some? then Some(AtMost(st.max.value)) else None)
    else None
  }

  /** For one product: passing the first `stage` steps is passing the earlier ones and,
      when it is switched on, the test of step `stage`. */
  lemma StepAt(p: Product, st: Steps, stage: nat)
    requires 1 <= stage <= 5
    ensures StepTest(st, stage).Some? ==>
              StageTest(st, stage)(p) == (StageTest(st, stage - 1)(p) && StepTest(st, stage).value(p))
    ensures StepTest(st, stage).None? ==> StageTest(st, stage)(p) == StageTest(st, stage - 1)(p)
  {
  }

  /** Step `stage` takes the list the earlier steps left to the list of the products that
      pass the first `stage` steps: by its test when switched on, unchanged when not. */
  lemma Step(products: seq<Product>, st: Steps, stage: nat)
    requires 1 <= stage <= 5
    ensures StepTest(st, stage).Some? ==>
              Filter(Filter(products, StageTest(st, stage - 1)), StepTest(st, stage).value)
              == Filter(products, StageTest(st, stage))
    ensures StepTest(st, stage).None? ==>
              Filter(products, StageTest(st, stage - 1)) == Filter(products, StageTest(st, stage))
  {
    var before, after := StageTest(st, stage - 1), StageTest(st, stage);
    forall i | 0 <= i < |products|
      ensures StepTest(st, stage).Some? ==> after(products[i]) == (before(products[i]) && StepTest(st, stage).value(products[i]))
      ensures StepTest(st, stage).None? ==> after(products[i]) == before(products[i])
    {
      StepAt(products[i], st, stage);
    }
    if StepTest(st, stage).Some? {
      FilterNarrow(products, before, StepTest(st, stage).value, after);
    } else {
      FilterSameTest(products, before, after);
    }
  }

  /** Passing all five steps is passing the pipeline. */
  lemma AllStepsAt(p: Product, query: string, filters: Option<FilterState>)
    ensures StageTest(StepsOf(query, filters), 5)(p) == KeptTest(query, filters)(p)
  {
  }

  /** The five steps together keep what the pipeline keeps. */
  lemma AllSteps(products: seq<Product>, query: string, filters: Option<FilterState>)
    ensures Filter(products, StageTest(StepsOf(query, filters), 5)) == Filter(products, KeptTest(query, filters))
  {
    forall i | 0 <= i < |products|
      ensures StageTest(StepsOf(query, filters), 5)(products[i]) == KeptTest(query, filters)(products[i])
    {
      AllStepsAt(products[i], query, filters);
    }
    FilterSameTest(products, StageTest(StepsOf(query, filters), 5), KeptTest(query, filters));
  }

  /** The search step: on a non-blank query, the products whose names, tags or description
      contain it. */
  method SearchStep(ghost products: seq<Product>, filtered: seq<Product>, query: string, ghost st: Steps)
    returns (r: seq<Product>)
    requires st.search == (if !IsBlank(query) then Some(query) else None)
    requires filtered == Filter(products, StageTest(st, 0))
    ensures r == Filter(products, StageTest(st, 1))
  {
    Step(products, st, 1);
    r := filtered;
    if !IsBlank(query) {
      r := Filter(r, SearchTest(query));
    }
  }

  /** The category step: on a non-empty slug of a known category, the products tagged
      with the category's name. */
  method CategoryStep(ghost products: seq<Product>, filtered: seq<Product>, slug: string, ghost st: Steps)
    returns (r: seq<Product>)
    requires st.category == (if slug != "" && FindCategory(MockCategories, slug).Some?
                             then Some(FindCategory(MockCategories, slug).value.name) else None)
    requires filtered == Filter(products, StageTest(st, 1))
    ensures r == Filter(products, StageTest(st, 2))
  {
    Step(products, st, 2);
    r := filtered;
    if slug != "" {
      var category := FindCategory(MockCategories, slug);
      if category.Some? {
        r := Filter(r, CategoryTest(category.value.name));
      }
    }
  }

  /** The material step: on a non-empty value, the products whose material contains it. */
  method MaterialStep(ghost products: seq<Product>, filtered: seq<Product>, material: string, ghost st: Steps)
    returns (r: seq<Product>)
    requires st.material == (if material != "" then Some(material) else None)
    requires filtered == Filter(products, StageTest(st, 2))
    ensures r == Filter(products, StageTest(st, 3))
  {
    Step(products, st, 3);
    r := filtered;
    if material != "" {
      r := Filter(r, MaterialTest(material));
    }
  }

  /** The lower bound: on a text that `parseInt` reads, the products priced at least that. */
  method MinPriceStep(ghost products: seq<Product>, filtered: seq<Product>, minPrice: string, ghost st: Steps)
    returns (r: seq<Product>)
    requires st.min == (if minPrice != "" then ParseInt(minPrice) else None)
    requires filtered == Filter(products, StageTest(st, 3))
    ensures r == Filter(products, StageTest(st, 4))
  {
    Step(products, st, 4);
    r := filtered;
    if minPrice != "" {
      var min := ParseInt(minPrice);
      if min.Some? {
        r := Filter(r, AtLeast(min.value));
      }
    }
  }

  /** The upper bound: on a text that `parseInt` reads, the products priced at most that. */
  method MaxPriceStep(ghost products: seq<Product>, filtered: seq<Product>, maxPrice: string, ghost st: Steps)
    returns (r: seq<Product>)
    requires st.max == (if maxPrice != "" then ParseInt(maxPrice) else None)
    requires filtered == Filter(products, StageTest(st, 4))
    ensures r == Filter(products, StageTest(st, 5))
  {
    Step(products, st, 5);
    r := filtered;
    if maxPrice != "" {
      var max := ParseInt(maxPrice);
      if max.Some? {
        r := Filter(r, AtMost(max.value));
      }
    }
  }

  /** Without a filter record, steps 2 to 5 are all switched off. */
  lemma NoRecordSteps(products: seq<Product>, query: string)
    ensures Filter(products, StageTest(StepsOf(query, None), 1)) == Filter(products, StageTest(StepsOf(query, None), 5))
  {
    var st := StepsOf(query, None);
    Step(products, st, 2);
    Step(products, st, 3);
    Step(products, st, 4);
    Step(products, st, 5);
  }

  /** `applySearchAndFilters` as the source runs it: `filtered` is narrowed by each step
      that is switched on, then sorted in place. */
  method ApplySearchAndFilters(products: seq<Product>, query: string, filters: Option<FilterState>)
    returns (filtered: seq<Product>)
    ensures filtered == Expected(products, query, filters)
  {
    ghost var st := StepsOf(query, filters);
    FilterKeepsAll(products, StageTest(st, 0));
    filtered := SearchStep(products, products, query, st);
    AllSteps(products, query, filters);
    if filters.None? {
      NoRecordSteps(products, query);
      return;
    }
    var f := filters.value;
    filtered := CategoryStep(products, filtered, f.category, st);
    filtered := MaterialStep(products, filtered, f.material, st);
    filtered := MinPriceStep(products, filtered, f.minPrice, st);
    filtered := MaxPriceStep(products, filtered, f.maxPrice, st);
    var order := OrderOf(f.sortBy);
    if order != Unsorted {
      filtered := SortBy(filtered, order);
    } else {
      UnsortedKeepsOrder(filtered);
    }
  }

  /** The result holds exactly the products that pass every step, each as often as in the
      input; without a sort it is a subsequence of the input. */
  lemma ExpectedContents(products: seq<Product>, query: string, filters: Option<FilterState>)
    ensures forall x :: multiset(Expected(products, query, filters))[x]
                      == if Kept(x, query, filters) then multiset(products)[x] else 0
    ensures filters.None? || OrderOf(filters.value.sortBy) == Unsorted ==>
              IsSubsequence(Expected(products, query, filters), products)
  {
    var kept := Filter(products, KeptTest(query, filters));
    FilterMembers(products, KeptTest(query, filters));
    forall x { FilterMultiset(products, KeptTest(query, filters), x); }
    if filters.Some? {
      SortBySpec(kept, OrderOf(filters.value.sortBy));
      if OrderOf(filters.value.sortBy) == Unsorted {
        UnsortedKeepsOrder(kept);
      }
    }
  }

  /** The orders the four `sortBy` values promise. */
  lemma ExpectedOrder(products: seq<Product>, query: string, f: FilterState)
    ensures var r := Expected(products, query, Some(f));
      (f.sortBy == "price-asc" ==> forall i, j :: 0 <= i < j < |r| ==> r[i].price <= r[j].price)
      && (f.sortBy == "price-desc" ==> forall i, j :: 0 <= i < j < |r| ==> r[i].price >= r[j].price)
      && (f.sortBy == "rating" ==> forall i, j :: 0 <= i < j < |r| ==> r[i].rating >= r[j].rating)
      && (f.sortBy == "newest" ==> forall i, j :: 0 <= i < j < |r| ==> r[i].id >= r[j].id)
  {
    SortBySpec(Filter(products, KeptTest(query, Some(f))), OrderOf(f.sortBy));
  }

  /** With both bounds readable, every product kept lies in the inclusive price range. */
  lemma PriceRange(products: seq<Product>, query: string, f: FilterState, min: int, max: int)
    requires ParseInt(f.minPrice) == Some(min) && ParseInt(f.maxPrice) == Some(max)
    ensures forall i :: 0 <= i < |Expected(products, query, Some(f))| ==>
              min <= Expected(products, query, Some(f))[i].price <= max
  {
    var r := Expected(products, query, Some(f));
    ExpectedContents(products, query, Some(f));
    forall i | 0 <= i < |r| ensures min <= r[i].price <= max {
      assert r[i] in multiset(r);
      assert f.minPrice != "" && f.maxPrice != "";
    }
  }

  /** An unknown category slug filters nothing, and a blank query with no filter record
      keeps the whole catalogue. */
  lemma NeutralSteps(products: seq<Product>, query: string, f: FilterState)
    requires FindCategory(MockCategories, f.category).None?
    ensures forall p :: PassesCategory(p, f.category)
    ensures IsBlank(query) ==> Expected(products, query, None) == products
  {
    if IsBlank(query) {
      FilterKeepsAll(products, KeptTest(query, None));
    }
  }

  // ---------------------------------------------------------------- pages

  const PageSize: nat := 12

  /** `Math.ceil(n / itemsPerPage)` */
  function TotalPages(n: nat): (r: nat)
    ensures r * PageSize >= n && (r == 0 || (r - 1) * PageSize < n)
  {
    (n + PageSize - 1) / PageSize
  }

  /** `filteredProducts.slice(startIndex, startIndex + itemsPerPage)` for page `page`. */
  function Page(s: seq<Product>, page: int): seq<Product> {
    var start := (page - 1) * PageSize;
    Slice(s, start, start + PageSize)
  }

  /** Pages 1 to `count`, one after the other. */
  function Pages(s: seq<Product>, count: nat): seq<Product> {
    if count == 0 then [] else Pages(s, count - 1) + Page(s, count)
  }

  /** The first `start` products followed by the twelve from `start` on are the first
      `start + 12`. */
  lemma PrefixThenPage(s: seq<Product>, start: nat)
    ensures Take(s, start) + Slice(s, start, start + PageSize) == Take(s, start + PageSize)
  {
    if start >= |s| {
    } else if start + PageSize <= |s| {
      assert s[..start] + s[start..start + PageSize] == s[..start + PageSize];
    } else {
      assert s[..start] + s[start..] == s;
    }
  }

  /** The first `count` pages are the first `count * 12` products. */
  lemma {:induction false} PagesArePrefix(s: seq<Product>, count: nat)
    ensures Pages(s, count) == Take(s, count * PageSize)
  {
    if count > 0 {
      PagesArePrefix(s, count - 1);
      var start := (count - 1) * PageSize;
      assert count * PageSize == start + PageSize;
      PrefixThenPage(s, start);
    }
  }

  /** Concatenating every page gives the filtered list back, with nothing repeated or lost. */
  lemma PagesCover(s: seq<Product>)
    ensures Pages(s, TotalPages(|s|)) == s
  {
    PagesArePrefix(s, TotalPages(|s|));
  }

  /** Page `p` from 1 on holds the products from index `(p - 1) * 12`, at most 12 of them,
      and a page past the last is empty. */
  lemma PageContents(s: seq<Product>, p: int)
    requires p >= 1
    ensures |Page(s, p)| <= PageSize
    ensures forall i :: 0 <= i < |Page(s, p)| ==> Page(s, p)[i] == s[(p - 1) * PageSize + i]
    ensures p > TotalPages(|s|) ==> Page(s, p) == []
    ensures p <= TotalPages(|s|) ==> Page(s, p) != []
  {
  }

  // ---------------------------------------------------------------- the page component

  /** The state of the catalogue page. */
  class ProductsPage {
    var products: seq<Product>
    var filteredProducts: seq<Product>
    var loading: bool
    var currentPage: int
    var searchQuery: string

    constructor()
      ensures products == [] && filteredProducts == [] && loading && currentPage == 1 && searchQuery == ""
    {
      products := [];
      filteredProducts := [];
      loading := true;
      currentPage := 1;
      searchQuery := "";
    }

    /** The load effect once `mockApi.getProducts()` has answered with `data`. */
    method Loaded(data: seq<Product>)
      modifies this
      ensures products == data && filteredProducts == data && !loading
      ensures currentPage == old(currentPage) && searchQuery == old(searchQuery)
    {
      products := data;
      filteredProducts := data;
      loading := false;
    }

    /** `applySearchAndFilters(query, filters)`: the result replaces the shown list and
        the page goes back to 1. */
    method Apply(query: string, filters: Option<FilterState>)
      modifies this
      ensures filteredProducts == Expected(products, query, filters) && currentPage == 1
      ensures products == old(products) && loading == old(loading) && searchQuery == old(searchQuery)
    {
      filteredProducts := ApplySearchAndFilters(products, query, filters);
      currentPage := 1;
    }

    /** `handleFiltersChange(filters)`: re-runs the pipeline with the current search query. */
    method HandleFiltersChange(filters: FilterState)
      modifies this
      ensures filteredProducts == Expected(products, old(searchQuery), Some(filters)) && currentPage == 1
      ensures products == old(products) && searchQuery == old(searchQuery) && loading == old(loading)
    {
      Apply(searchQuery, Some(filters));
    }

    /** The effect on the URL's `search` and `category` parameters (None when absent). */
    method SearchParamsChanged(search: Option<string>, category: Option<string>)
      modifies this
      ensures search.Some? && search.value != "" ==> searchQuery == search.value
      ensures !(search.Some? && search.value != "") ==> searchQuery == old(searchQuery)
      ensures category.Some? && category.value != "" && FindCategory(MockCategories, category.value).Some? ==>
                filteredProducts == Expected(products, search.GetOr(""), Some(FilterState(category.value, "", "", "", "")))
                && currentPage == 1
      ensures !(category.Some? && category.value != "") && search.Some? && search.value != "" ==>
                filteredProducts == Expected(products, search.value, None) && currentPage == 1
      ensures category.Some? && category.value != "" && FindCategory(MockCategories, category.value).None? ==>
                filteredProducts == old(filteredProducts) && currentPage == old(currentPage)
      ensures !(category.Some? && category.value != "") && !(search.Some? && search.value != "") ==>
                filteredProducts == old(filteredProducts) && currentPage == old(currentPage)
      ensures products == old(products) && loading == old(loading)
    {
      if search.Some? && search.value != "" {
        searchQuery := search.value;
      }
      if category.Some? && category.value != "" {
        var found := FindCategory(MockCategories, category.value);
        if found.Some? {
          Apply(search.GetOr(""), Some(FilterState(category.value, "", "", "", "")));
        }
      } else if search.Some? && search.value != "" {
        Apply(search.value, None);
      }
    }

    /** `handlePageChange(page)` */
    method HandlePageChange(page: int)
      modifies this
      ensures currentPage == page && filteredProducts == old(filteredProducts)
      ensures products == old(products) && searchQuery == old(searchQuery) && loading == old(loading)
    {
      currentPage := page;
    }

    /** The products shown: the current page of the filtered list. */
    function CurrentProducts(): seq<Product>
      reads this
    {
      Page(filteredProducts, currentPage)
    }
  }
}

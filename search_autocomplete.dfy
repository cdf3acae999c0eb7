/** The search box with suggestions (src/components/common/SearchAutocomplete.tsx): the
    query, the up to 5 suggestions drawn from the products passed in, whether the dropdown
    is open, and the suggestion highlighted by the arrow keys. The callbacks `onSearch` and
    `onSelect` are not called here: each handler returns the call it makes as a `Notice`. */
module SearchAutocomplete {
  import opened Wrappers
  import opened Seqs
  import opened Text
  import opened Catalog
  import Products
  import opened Cyclic

  /** How many suggestions are shown at most. */
  const MaxSuggestions: nat := 5

  /** The callback a handler calls, if any. */
  datatype Notice = NoNotice | Searched(query: string) | Selected(product: Product)

  /** The keys the handler tells apart; every other key is `OtherKey`. */
  datatype Key = ArrowDown | ArrowUp | Enter | Escape | OtherKey

  /** The suggestion test: the query, lower-cased but not trimmed, occurs in the Persian
      name, the English name or some tag. The description is not searched. */
  predicate Suggests(p: Product, query: string) {
    Products.ContainsFolded(p.nameFa, query) || Products.ContainsFolded(p.nameEn, query)
    || (exists i :: 0 <= i < |p.tags| && Products.ContainsFolded(p.tags[i], query))
  }

  function SuggestTest(query: string): Product -> bool {
    (p: Product) => Suggests(p, query)
  }

  /** The suggestions the effect computes for `query`: none for a query whose trimmed `.length`
      is at most one UTF-16 code unit, otherwise the first 5 matching products. */
  function Suggestions(products: seq<Product>, query: string): seq<Product> {
    if Utf16Length(Trim(query)) > 1 then Take(Filter(products, SuggestTest(query)), MaxSuggestions) else []
  }

  /** The suggestions are at most 5 matching products, in the order of the list searched,
      and they are the first 5 matches: a matching product is left out only when 5 others
      come before it. A short query suggests nothing. */
  lemma SuggestionsSpec(products: seq<Product>, query: string)
    ensures var r := Suggestions(products, query);
      |r| <= MaxSuggestions
      && (Utf16Length(Trim(query)) <= 1 ==> r == [])
      && (forall i :: 0 <= i < |r| ==> r[i] in products && Suggests(r[i], query))
      && (Utf16Length(Trim(query)) > 1 ==> r == Take(Filter(products, SuggestTest(query)), MaxSuggestions))
      && (Utf16Length(Trim(query)) > 1 && |r| < MaxSuggestions ==>
            forall i :: 0 <= i < |products| && Suggests(products[i], query) ==> products[i] in r)
  {
    FilterMembers(products, SuggestTest(query));
  }

  /** One character outside the Basic Multilingual Plane is two UTF-16 code units long, so
      a query of a single gem already opens the suggestions. */
  lemma OneGemSuggests(products: seq<Product>)
    ensures Suggestions(products, "\U{1F48E}") == Take(Filter(products, SuggestTest("\U{1F48E}")), MaxSuggestions)
  {
    TrimStartSpec("\U{1F48E}");
    TrimEndSpec("\U{1F48E}");
  }

  /** A suggestion is also a hit of the catalogue search for the same query, and the
      description has no say in whether a product is suggested. */
  lemma SuggestionIsSearchHit(p: Product, query: string, d: string)
    ensures Suggests(p, query) ==> Products.SearchHit(p, query)
    ensures Suggests(p.(description := d), query) == Suggests(p, query)
  {
  }

  /** The box's state. */
  class SearchBox {
    var query: string
    var suggestions: seq<Product>
    var isOpen: bool
    var selectedIndex: int

    /** At most 5 suggestions, and the highlight is -1 or on one of them. */
    predicate Valid()
      reads this
    {
      |suggestions| <= MaxSuggestions && -1 <= selectedIndex < |suggestions|
    }

    constructor()
      ensures query == "" && suggestions == [] && !isOpen && selectedIndex == -1 && Valid()
    {
      query := "";
      suggestions := [];
      isOpen := false;
      selectedIndex := -1;
    }

    /** The effect that runs whenever the query or the products change: the suggestions for
        the query, the dropdown open exactly when the trimmed query is longer than one
        UTF-16 code unit, and no highlight. */
    method Suggest(products: seq<Product>)
      modifies this
      ensures suggestions == Suggestions(products, query) && isOpen == (Utf16Length(Trim(query)) > 1)
      ensures selectedIndex == -1 && query == old(query) && Valid()
    {
      if Utf16Length(Trim(query)) > 1 {
        var filtered := Filter(products, SuggestTest(query));
        suggestions := Take(filtered, MaxSuggestions);
        isOpen := true;
      } else {
        suggestions := [];
        isOpen := false;
      }
      selectedIndex := -1;
    }

    /** `setQuery(value)` followed by the effect, which runs only when the value differs. */
    method SetQuery(value: string, products: seq<Product>)
      modifies this
      ensures query == value
      ensures value != old(query) ==>
                suggestions == Suggestions(products, value) && isOpen == (Utf16Length(Trim(value)) > 1) && selectedIndex == -1
      ensures value == old(query) ==>
                suggestions == old(suggestions) && isOpen == old(isOpen) && selectedIndex == old(selectedIndex)
      ensures old(Valid()) ==> Valid()
    {
      if value != query {
        query := value;
        Suggest(products);
      }
    }

    /** `handleInputChange`: the typed value becomes the query and is passed to `onSearch`. */
    method HandleInputChange(value: string, products: seq<Product>) returns (notice: Notice)
      modifies this
      ensures query == value && notice == Searched(value)
      ensures value != old(query) ==>
                suggestions == Suggestions(products, value) && isOpen == (Utf16Length(Trim(value)) > 1) && selectedIndex == -1
      ensures old(Valid()) ==> Valid()
    {
      SetQuery(value, products);
      notice := Searched(value);
    }

    /** `handleSelect(product)`: the product's Persian name becomes the query, `onSelect` is
        called, and the dropdown closes with no highlight, until the effect for a changed
        query recomputes the suggestions and may open it again. */
    method HandleSelect(product: Product, products: seq<Product>) returns (notice: Notice)
      modifies this
      ensures query == product.nameFa && notice == Selected(product)
      ensures product.nameFa == old(query) ==>
                !isOpen && selectedIndex == -1 && suggestions == old(suggestions)
      ensures product.nameFa != old(query) ==>
                suggestions == Suggestions(products, product.nameFa) && isOpen == (Utf16Length(Trim(product.nameFa)) > 1)
                && selectedIndex == -1
      ensures old(Valid()) ==> Valid()
    {
      var changed := product.nameFa != query;
      query := product.nameFa;
      notice := Selected(product);
      isOpen := false;
      selectedIndex := -1;
      if changed {
        Suggest(products);
      }
    }

    /** `handleKeyDown(key)`. Nothing happens while the dropdown is closed or empty. The
        arrows move the highlight around the suggestions; Enter picks the highlighted
        suggestion, or with none searches for the trimmed query when it is not blank;
        Escape closes the dropdown and clears the highlight. */
    method HandleKeyDown(key: Key, products: seq<Product>) returns (notice: Notice)
      requires Valid()
      modifies this
      ensures Valid()
      ensures !old(isOpen) || old(|suggestions|) == 0 || key == OtherKey ==>
                notice == NoNotice && query == old(query) && suggestions == old(suggestions)
                && isOpen == old(isOpen) && selectedIndex == old(selectedIndex)
      ensures old(isOpen) && old(|suggestions|) > 0 && key == ArrowDown ==>
                selectedIndex == Forward(old(selectedIndex), old(|suggestions|)) && 0 <= selectedIndex
                && notice == NoNotice && isOpen && suggestions == old(suggestions) && query == old(query)
      ensures old(isOpen) && old(|suggestions|) > 0 && key == ArrowUp ==>
                selectedIndex == Backward(old(selectedIndex), old(|suggestions|)) && 0 <= selectedIndex
                && notice == NoNotice && isOpen && suggestions == old(suggestions) && query == old(query)
      ensures old(isOpen) && old(|suggestions|) > 0 && key == Enter && old(selectedIndex) >= 0 ==>
                var p := old(suggestions)[old(selectedIndex)];
                notice == Selected(p) && query == p.nameFa && selectedIndex == -1
                && (p.nameFa == old(query) ==> !isOpen && suggestions == old(suggestions))
                && (p.nameFa != old(query) ==>
                      suggestions == Suggestions(products, p.nameFa) && isOpen == (Utf16Length(Trim(p.nameFa)) > 1))
      ensures old(isOpen) && old(|suggestions|) > 0 && key == Enter && old(selectedIndex) < 0 ==>
                (if IsBlank(old(query)) then notice == NoNotice && isOpen else (notice.Searched? && notice.query == Trim(old(query))) && !isOpen)
                && query == old(query) && suggestions == old(suggestions) && selectedIndex == old(selectedIndex)
      ensures old(isOpen) && old(|suggestions|) > 0 && key == Escape ==>
                notice == NoNotice && !isOpen && selectedIndex == -1 && suggestions == old(suggestions) && query == old(query)
    {
      notice := NoNotice;
      if !isOpen || |suggestions| == 0 {
        return;
      }
      var n := |suggestions|;
      StepsCycle(selectedIndex, n);
      TrimBlank(query);
      match key {
        case ArrowDown =>
          selectedIndex := Forward(selectedIndex, n);
        case ArrowUp =>
          selectedIndex := Backward(selectedIndex, n);
        case Enter =>
          if selectedIndex >= 0 && selectedIndex < n {
            notice := HandleSelect(suggestions[selectedIndex], products);
          } else if Trim(query) != "" {
            notice := Searched(Trim(query));
            isOpen := false;
          }
        case Escape =>
          isOpen := false;
          selectedIndex := -1;
        case OtherKey =>
      }
    }

    /** `handleSubmit`: a query that is not blank is searched for, trimmed, and the dropdown
        closes. */
    method HandleSubmit() returns (notice: Notice)
      modifies this
      ensures IsBlank(old(query)) ==> notice == NoNotice && isOpen == old(isOpen)
      ensures !IsBlank(old(query)) ==> (notice.Searched? && notice.query == Trim(old(query))) && !isOpen
      ensures query == old(query) && suggestions == old(suggestions) && selectedIndex == old(selectedIndex)
    {
      notice := NoNotice;
      TrimBlank(query);
      if Trim(query) != "" {
        notice := Searched(Trim(query));
        isOpen := false;
      }
    }

    /** The "show all results" entry: searches for the trimmed query, blank or not, and
        closes the dropdown. */
    method ShowAllResults() returns (notice: Notice)
      modifies this
      ensures notice.Searched? && notice.query == Trim(old(query)) && !isOpen
      ensures query == old(query) && suggestions == old(suggestions) && selectedIndex == old(selectedIndex)
    {
      isOpen := false;
      notice := Searched(Trim(query));
    }

    /** Focusing the input reopens the dropdown when there are suggestions. */
    method HandleFocus()
      modifies this
      ensures isOpen == (old(isOpen) || |suggestions| > 0)
      ensures query == old(query) && suggestions == old(suggestions) && selectedIndex == old(selectedIndex)
    {
      if |suggestions| > 0 {
        isOpen := true;
      }
    }

    /** A mouse press outside both the input and the dropdown closes the dropdown. */
    method ClickOutside()
      modifies this
      ensures !isOpen
      ensures query == old(query) && suggestions == old(suggestions) && selectedIndex == old(selectedIndex)
    {
      isOpen := false;
    }
  }
}

/** The search panel (week4/lost-item-map/src/components/lost-item-search.tsx):
    a free-text query matched case-insensitively against title or description,
    and a category chooser with the sentinel 'すべて' (all categories). */
module Search {
  import opened Types

  /** `String.prototype.toLowerCase`, left uninterpreted: every operation takes
      it as a parameter and nothing is assumed about it unless stated. */
  type CaseFold = string -> string

  /** The category chooser's value: a category, or the sentinel 'すべて'. */
  datatype CategoryFilter = All | Only(category: Category)

  function FilterLabel(f: CategoryFilter): (name: string)
  {
    match f
    case All => "すべて"
    case Only(c) => CategoryLabel(c)
  }

  /** The search chooser's options, in order: the sentinel, then the four categories. */
  const FilterOptions: seq<CategoryFilter> := [All, Only(Wallet), Only(Bag), Only(Electronics), Only(Other)]

  /** The search chooser offers the sentinel and each category, each once,
      and every option reads back to itself from its label. */
  lemma FilterOptionsComplete(f: CategoryFilter)
    ensures f in FilterOptions
    ensures |FilterOptions| == 5 && FilterOptions[0] == All
    ensures forall i, j :: 0 <= i < j < |FilterOptions| ==> FilterOptions[i] != FilterOptions[j]
    ensures f.Only? ==> ParseCategory(FilterLabel(f)) == Some(f.category)
    ensures FilterLabel(All) != FilterLabel(f) || f == All
  {
    if f.Only? {
      CategoryLabelRoundTrip(f.category);
    }
  }

  // ---------------------------------------------------------------------------
  // String.prototype.includes
  // ---------------------------------------------------------------------------

  predicate IsPrefix(p: string, s: string)
  {
    |p| <= |s| && s[..|p|] == p
  }

  /** `t` occurs in `s` starting at index `i`. */
  predicate OccursAt(s: string, t: string, i: int)
  {
    0 <= i && i + |t| <= |s| && s[i..i + |t|] == t
  }

  /** `s.includes(t)`, scanning `s` from the left. */
  predicate Includes(s: string, t: string)
    decreases |s|
  {
    IsPrefix(t, s) || (s != [] && Includes(s[1..], t))
  }

  /** The scan finds `t` exactly when `t` occurs somewhere in `s`. */
  lemma {:induction false} IncludesIffOccurs(s: string, t: string)
    ensures Includes(s, t) <==> exists i :: OccursAt(s, t, i)
    decreases |s|
  {
    if IsPrefix(t, s) {
      assert OccursAt(s, t, 0);
    } else if s == [] {
    } else {
      IncludesIffOccurs(s[1..], t);
      if Includes(s[1..], t) {
        var i :| OccursAt(s[1..], t, i);
        assert s[1..][i..i + |t|] == s[i + 1..i + 1 + |t|];
        assert OccursAt(s, t, i + 1);
      }
      if i :| OccursAt(s, t, i) && i != 0 {
        assert s[1..][i - 1..i - 1 + |t|] == s[i..i + |t|];
        assert OccursAt(s[1..], t, i - 1);
      }
    }
  }

  /** Every character of a string that is found also occurs in the string searched. */
  lemma {:induction false} IncludesOnlyPresentChars(s: string, t: string, c: char)
    requires Includes(s, t) && c in t
    ensures c in s
    decreases |s|
  {
    if IsPrefix(t, s) {
      assert s[..|t|] == t;
    } else {
      IncludesOnlyPresentChars(s[1..], t, c);
      assert s == [s[0]] + s[1..];
    }
  }

  /** Every string includes the empty string. */
  lemma IncludesEmpty(s: string)
    ensures Includes(s, "")
  {
    assert IsPrefix("", s);
  }

  // ---------------------------------------------------------------------------
  // The filter predicate and `items.filter`
  // ---------------------------------------------------------------------------

  /** `matchesSearch`: the lowered title or the lowered description includes the
      lowered query. */
  predicate MatchesSearch(item: LostItem, query: string, lower: CaseFold)
  {
    Includes(lower(item.title), lower(query)) || Includes(lower(item.description), lower(query))
  }

  /** `matchesCategory`: the sentinel accepts every item; otherwise the item's
      category must equal the chosen one. */
  predicate MatchesCategory(item: LostItem, category: CategoryFilter)
  {
    category == All || item.category == category.category
  }

  predicate Matches(item: LostItem, query: string, category: CategoryFilter, lower: CaseFold)
  {
    MatchesSearch(item, query, lower) && MatchesCategory(item, category)
  }

  /** The items that match, in their original order. */
  function Filter(items: seq<LostItem>, query: string, category: CategoryFilter, lower: CaseFold): (r: seq<LostItem>)
    ensures |r| <= |items|
    ensures forall x :: x in r <==> x in items && Matches(x, query, category, lower)
  {
    if items == [] then []
    else
      var rest := Filter(items[1..], query, category, lower);
      assert items == [items[0]] + items[1..];
      if Matches(items[0], query, category, lower) then [items[0]] + rest else rest
  }

  /** `a` is `b` with some elements dropped, the rest kept in order. */
  predicate IsSubsequence<T(==)>(a: seq<T>, b: seq<T>)
    decreases |b|
  {
    if a == [] then true
    else if b == [] then false
    else (a[0] == b[0] && IsSubsequence(a[1..], b[1..])) || IsSubsequence(a, b[1..])
  }

  lemma {:induction false} SubsequenceReflexive<T>(a: seq<T>)
    ensures IsSubsequence(a, a)
    decreases |a|
  {
    if a != [] {
      SubsequenceReflexive(a[1..]);
    }
  }

  lemma {:induction false} SubsequenceLength<T>(a: seq<T>, b: seq<T>)
    requires IsSubsequence(a, b)
    ensures |a| <= |b|
    decreases |b|
  {
    if a != [] {
      if a[0] == b[0] && IsSubsequence(a[1..], b[1..]) {
        SubsequenceLength(a[1..], b[1..]);
      } else {
        SubsequenceLength(a, b[1..]);
      }
    }
  }

  lemma {:induction false} SubsequenceMembers<T>(a: seq<T>, b: seq<T>)
    requires IsSubsequence(a, b)
    ensures forall x :: x in a ==> x in b
    decreases |b|
  {
    if a != [] {
      if a[0] == b[0] && IsSubsequence(a[1..], b[1..]) {
        SubsequenceMembers(a[1..], b[1..]);
        assert a == [a[0]] + a[1..];
      } else {
        SubsequenceMembers(a, b[1..]);
      }
      assert b == [b[0]] + b[1..];
    }
  }

  /** The filtered list is an order-preserving subsequence of the input. */
  lemma {:induction false} FilterIsSubsequence(items: seq<LostItem>, query: string, category: CategoryFilter, lower: CaseFold)
    ensures IsSubsequence(Filter(items, query, category, lower), items)
    decreases |items|
  {
    if items != [] {
      FilterIsSubsequence(items[1..], query, category, lower);
    }
  }

  /** Each matching item is kept as often as it occurs; every other item is dropped. */
  lemma {:induction false} FilterMultiplicity(items: seq<LostItem>, query: string, category: CategoryFilter, lower: CaseFold, x: LostItem)
    ensures multiset(Filter(items, query, category, lower))[x]
         == if Matches(x, query, category, lower) then multiset(items)[x] else 0
    decreases |items|
  {
    if items != [] {
      FilterMultiplicity(items[1..], query, category, lower, x);
      assert items == [items[0]] + items[1..];
    }
  }

  /** Filtering the filtered list again with the same criteria changes nothing. */
  lemma {:induction false} FilterIdempotent(items: seq<LostItem>, query: string, category: CategoryFilter, lower: CaseFold)
    ensures Filter(Filter(items, query, category, lower), query, category, lower) == Filter(items, query, category, lower)
    decreases |items|
  {
    if items != [] {
      FilterIdempotent(items[1..], query, category, lower);
      var rest := Filter(items[1..], query, category, lower);
      if Matches(items[0], query, category, lower) {
        assert ([items[0]] + rest)[1..] == rest;
      }
    }
  }

  /** When every item passes the test, the filter returns the list unchanged. */
  lemma {:induction false} FilterKeepsAll(items: seq<LostItem>, query: string, category: CategoryFilter, lower: CaseFold)
    requires forall x :: x in items ==> Matches(x, query, category, lower)
    ensures Filter(items, query, category, lower) == items
    decreases |items|
  {
    if items != [] {
      FilterKeepsAll(items[1..], query, category, lower);
      assert items == [items[0]] + items[1..];
    }
  }

  /** The panel's initial criteria, an empty query and the sentinel, filter
      nothing out (toLowerCase maps the empty string to itself). */
  lemma {:induction false} InitialCriteriaKeepAll(items: seq<LostItem>, lower: CaseFold)
    requires lower("") == ""
    ensures Filter(items, "", All, lower) == items
  {
    forall x | x in items
      ensures Matches(x, "", All, lower)
    {
      IncludesEmpty(lower(x.title));
    }
    FilterKeepsAll(items, "", All, lower);
  }

  /** The sentinel disables the category test: with it the filter keeps exactly
      the items whose text matches, whatever their category; choosing a
      category can only drop items from that list. */
  lemma {:induction false} SentinelIgnoresCategory(items: seq<LostItem>, query: string, c: Category, lower: CaseFold)
    ensures forall x :: x in Filter(items, query, All, lower) <==> x in items && MatchesSearch(x, query, lower)
    ensures IsSubsequence(Filter(items, query, Only(c), lower), Filter(items, query, All, lower))
    decreases |items|
  {
    if items != [] {
      SentinelIgnoresCategory(items[1..], query, c, lower);
      var narrow := Filter(items[1..], query, Only(c), lower);
      var wide := Filter(items[1..], query, All, lower);
      if Matches(items[0], query, Only(c), lower) {
        assert ([items[0]] + narrow)[1..] == narrow;
        assert ([items[0]] + wide)[1..] == wide;
      } else if Matches(items[0], query, All, lower) {
        if narrow != [] {
          assert ([items[0]] + wide)[1..] == wide;
        }
      }
    }
  }

  // ---------------------------------------------------------------------------
  // The panel's state and its two handlers
  // ---------------------------------------------------------------------------

  /** The `searchTerm` and `selectedCategory` state of the panel. Each handler
      returns the one list it reports through `onSearch`. */
  class SearchPanel {
    var searchTerm: string
    var selectedCategory: CategoryFilter
    const lower: CaseFold

    constructor (lower: CaseFold)
      ensures searchTerm == "" && selectedCategory == All && this.lower == lower
    {
      searchTerm := "";
      selectedCategory := All;
      this.lower := lower;
    }

    /** A keystroke in the query box: store the new query, filter with it and
        the current category. */
    method HandleSearch(items: seq<LostItem>, value: string) returns (filtered: seq<LostItem>)
      modifies this
      ensures searchTerm == value && selectedCategory == old(selectedCategory)
      ensures filtered == Filter(items, value, selectedCategory, lower)
    {
      searchTerm := value;
      filtered := Filter(items, value, selectedCategory, lower);
    }

    /** A choice in the category box: store the new category, filter with it
        and the current query. */
    method HandleCategoryChange(items: seq<LostItem>, category: CategoryFilter) returns (filtered: seq<LostItem>)
      modifies this
      ensures selectedCategory == category && searchTerm == old(searchTerm)
      ensures filtered == Filter(items, searchTerm, category, lower)
    {
      selectedCategory := category;
      filtered := Filter(items, searchTerm, category, lower);
    }
  }
}

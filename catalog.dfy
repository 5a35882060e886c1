/**
 * The product listing's filter: a product is shown when its name contains the
 * search text (ignoring case), its category is the selected one (or "All" is
 * selected), its price lies in the selected bucket and its rating reaches the
 * selected minimum. The listing keeps the catalog's order.
 */
module Catalog {

  import opened Wrappers
  import Seqs

  datatype Product = Product(id: int, name: string, price: real, category: string, rating: real)

  const Categories: seq<string> := ["All", "Electronics", "Clothing", "Books", "Home & Kitchen"]

  /** A price bucket; an absent `max` is the unbounded top bucket. */
  datatype PriceRange = PriceRange(min: real, max: Option<real>, caption: string)

  const PriceRanges: seq<PriceRange> := [
    PriceRange(0.0, Some(50.0), "Under $50"),
    PriceRange(50.0, Some(100.0), "$50 - $100"),
    PriceRange(100.0, Some(200.0), "$100 - $200"),
    PriceRange(200.0, Some(500.0), "$200 - $500"),
    PriceRange(500.0, None, "Over $500")
  ]

  /** The minimum ratings offered by the rating radio buttons. */
  const RatingChoices: seq<int> := [4, 3, 2, 1]

  /** The filter state: search text, category, bucket index and minimum rating; `None` is `null`. */
  datatype Criteria = Criteria(
    searchQuery: string,
    selectedCategory: string,
    selectedPriceRange: Option<int>,
    selectedRating: Option<int>)

  /** The default filter state of the page. */
  const NoFilter: Criteria := Criteria("", "All", None, None)

  /** A selected bucket index names a bucket (the page only offers 0 to 4). */
  predicate WellFormed(c: Criteria)
  {
    c.selectedPriceRange.Some? ==> 0 <= c.selectedPriceRange.value < |PriceRanges|
  }

  /** ASCII case folding, standing for `toLowerCase`. */
  function LowerChar(ch: char): char
  {
    if 'A' <= ch <= 'Z' then (ch as int - 'A' as int + 'a' as int) as char else ch
  }

  function ToLower(s: string): (r: string)
    ensures |r| == |s|
    ensures forall i :: 0 <= i < |r| ==> !('A' <= r[i] <= 'Z')
    ensures forall i :: 0 <= i < |s| && !('A' <= s[i] <= 'Z') ==> r[i] == s[i]
  {
    seq(|s|, i requires 0 <= i < |s| => LowerChar(s[i]))
  }

  /** `needle` occurs in `hay` starting at position `i`. */
  predicate OccursAt(hay: string, needle: string, i: int)
  {
    0 <= i <= |hay| && needle <= hay[i..]
  }

  /** `hay.includes(needle)`, scanning start positions from the left. */
  predicate Includes(hay: string, needle: string): (r: bool)
    ensures needle == [] ==> r
    ensures |needle| > |hay| ==> !r
    decreases |hay|
  {
    needle <= hay || (hay != [] && Includes(hay[1..], needle))
  }

  /** `includes` holds exactly when the needle occurs at some position. */
  lemma {:induction false} IncludesIff(hay: string, needle: string)
    ensures Includes(hay, needle) <==> exists i :: OccursAt(hay, needle, i)
    decreases |hay|
  {
    if needle <= hay {
      assert hay[0..] == hay;
      assert OccursAt(hay, needle, 0);
    } else if hay != [] {
      IncludesIff(hay[1..], needle);
      if Includes(hay[1..], needle) {
        var j :| OccursAt(hay[1..], needle, j);
        assert hay[1..][j..] == hay[j + 1..];
        assert OccursAt(hay, needle, j + 1);
      }
      if i :| OccursAt(hay, needle, i) {
        assert i != 0 by { assert hay[0..] == hay; }
        assert hay[1..][i - 1..] == hay[i..];
        assert OccursAt(hay[1..], needle, i - 1);
      }
    }
  }

  predicate MatchesSearch(c: Criteria, p: Product): (r: bool)
    ensures c.searchQuery == "" ==> r
    ensures |c.searchQuery| > |p.name| ==> !r
  {
    Includes(ToLower(p.name), ToLower(c.searchQuery))
  }

  predicate MatchesCategory(c: Criteria, p: Product): (r: bool)
    ensures c.selectedCategory == "All" ==> r
    ensures c.selectedCategory != "All" ==> (r <==> p.category == c.selectedCategory)
  {
    c.selectedCategory == "All" || p.category == c.selectedCategory
  }

  /** `min <= price <= max`, both ends inclusive. */
  predicate InBucket(r: PriceRange, price: real)
  {
    r.min <= price && (r.max.None? || price <= r.max.value)
  }

  /**
   * `!selectedPriceRange || (...)`: `null` and the index 0 are both falsy, so
   * the first bucket filters nothing. Indices outside the list are excluded by
   * `WellFormed`; here they match nothing.
   */
  predicate MatchesPriceRange(c: Criteria, p: Product): (r: bool)
    ensures c.selectedPriceRange.None? || c.selectedPriceRange == Some(0) ==> r
    ensures WellFormed(c) && c.selectedPriceRange.Some? && c.selectedPriceRange.value != 0 ==>
      (r <==> InBucket(PriceRanges[c.selectedPriceRange.value], p.price))
  {
    match c.selectedPriceRange
    case None => true
    case Some(i) => i == 0 || (0 <= i < |PriceRanges| && InBucket(PriceRanges[i], p.price))
  }

  /** `!selectedRating || product.rating >= selectedRating` */
  predicate MatchesRating(c: Criteria, p: Product): (r: bool)
    ensures c.selectedRating.None? || c.selectedRating == Some(0) ==> r
    ensures c.selectedRating.Some? && c.selectedRating.value != 0 ==> (r <==> p.rating >= c.selectedRating.value as real)
  {
    match c.selectedRating
    case None => true
    case Some(r) => r == 0 || p.rating >= r as real
  }

  /** All four criteria at once; the initial filter state matches every product. */
  predicate Matches(c: Criteria, p: Product): (r: bool)
    ensures c.searchQuery == "" && c.selectedCategory == "All" && c.selectedPriceRange.None? && c.selectedRating.None? ==> r
    ensures r ==> MatchesSearch(c, p) && MatchesCategory(c, p)
  {
    MatchesSearch(c, p) && MatchesCategory(c, p) && MatchesPriceRange(c, p) && MatchesRating(c, p)
  }

  /** `filteredProducts`: the products matching every criterion, in catalog order. */
  function FilteredProducts(products: seq<Product>, c: Criteria): (r: seq<Product>)
    requires WellFormed(c)
    ensures forall i :: 0 <= i < |r| ==> r[i] in products && Matches(c, r[i])
    ensures forall i :: 0 <= i < |products| && Matches(c, products[i]) ==> products[i] in r
    ensures Seqs.IsSubsequence(r, products)
  {
    Seqs.FilterIsSubsequence(products, p => Matches(c, p));
    Seqs.Filter(products, p => Matches(c, p))
  }

  /** Every product appears in the listing exactly as often as in the catalog when it matches, and never otherwise. */
  lemma FilteredCount(products: seq<Product>, c: Criteria, p: Product)
    requires WellFormed(c)
    ensures multiset(FilteredProducts(products, c))[p] == if Matches(c, p) then multiset(products)[p] else 0
  {
    Seqs.FilterCount(products, q => Matches(c, q), p);
  }

  /** The empty search text is contained in every name. */
  lemma EmptySearchMatchesAll(c: Criteria, p: Product)
    requires c.searchQuery == ""
    ensures MatchesSearch(c, p)
  {
    assert ToLower(c.searchQuery) == [];
  }

  /** With the page's initial filter state the listing is the whole catalog, in order. */
  lemma NoFilterShowsAll(products: seq<Product>)
    ensures FilteredProducts(products, NoFilter) == products
  {
    forall i | 0 <= i < |products| ensures Matches(NoFilter, products[i]) {
      EmptySearchMatchesAll(NoFilter, products[i]);
    }
    Seqs.FilterKeepsAll(products, p => Matches(NoFilter, p));
  }

  /** The search is a case-insensitive substring test: it holds iff the lower-cased query occurs in the lower-cased name. */
  lemma SearchIsSubstring(c: Criteria, p: Product)
    ensures MatchesSearch(c, p) <==> exists i :: OccursAt(ToLower(p.name), ToLower(c.searchQuery), i)
  {
    IncludesIff(ToLower(p.name), ToLower(c.searchQuery));
  }

  /** Searching "watch" finds both "Watch" and "Digital Watch". */
  lemma WatchFindsBothWatches(c: Criteria, p1: Product, p2: Product)
    requires c.searchQuery == "watch" && p1.name == "Watch" && p2.name == "Digital Watch"
    ensures MatchesSearch(c, p1) && MatchesSearch(c, p2)
  {
    assert ToLower(c.searchQuery) == "watch";
    assert ToLower(p1.name) == "watch";
    assert ToLower(p2.name) == "digital watch";
    assert OccursAt("watch", "watch", 0);
    assert "digital watch"[8..] == "watch";
    assert OccursAt("digital watch", "watch", 8);
    SearchIsSubstring(c, p1);
    SearchIsSubstring(c, p2);
  }

  /** "All" matches every category; any other selection requires the same category string. */
  lemma CategorySelection(c: Criteria, p: Product)
    ensures c.selectedCategory == "All" ==> MatchesCategory(c, p)
    ensures c.selectedCategory != "All" ==> (MatchesCategory(c, p) <==> p.category == c.selectedCategory)
  {
  }

  /** Selecting "Under $50" (index 0) lets every price through, even one far above $50. */
  lemma FirstBucketFiltersNothing(c: Criteria, p: Product)
    requires c.selectedPriceRange == Some(0)
    ensures MatchesPriceRange(c, p)
    ensures p.price > 50.0 ==> !InBucket(PriceRanges[0], p.price)
  {
  }

  /** Buckets 1 to 3 are closed intervals; bucket 4 has no upper end. */
  lemma BucketBounds(c: Criteria, p: Product)
    requires WellFormed(c) && c.selectedPriceRange.Some? && c.selectedPriceRange.value != 0
    ensures var i := c.selectedPriceRange.value;
      i < 4 ==> (MatchesPriceRange(c, p) <==> PriceRanges[i].min <= p.price <= PriceRanges[i].max.value)
    ensures c.selectedPriceRange.value == 4 ==> (MatchesPriceRange(c, p) <==> p.price >= 500.0)
  {
  }

  /** The radio buttons offer "All" first; any other offered category keeps only products of that category. */
  lemma OfferedCategoryFilters(c: Criteria, p: Product, k: nat)
    requires 1 <= k < |Categories| && c.selectedCategory == Categories[k]
    ensures Categories[0] == "All"
    ensures MatchesCategory(c, p) <==> p.category == Categories[k]
  {
  }

  /** A price on a shared boundary, such as 100, is in both neighbouring buckets. */
  lemma BoundaryInTwoBuckets()
    ensures InBucket(PriceRanges[1], 100.0) && InBucket(PriceRanges[2], 100.0)
  {
  }

  /** None of the offered minimum ratings is 0, so choosing one always applies `rating >= r`. */
  lemma RatingChoiceFilters(c: Criteria, p: Product)
    requires c.selectedRating.Some? && c.selectedRating.value in RatingChoices
    ensures MatchesRating(c, p) <==> p.rating >= c.selectedRating.value as real
  {
  }

}

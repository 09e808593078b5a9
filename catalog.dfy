/** The home page: a case-insensitive search over the product list and the
    image each product card shows. */
module Catalog {
  import opened Text
  import opened Store

  // ---------------------------------------------------------------------------
  // Array.prototype.filter
  // ---------------------------------------------------------------------------

  /** `s.filter(keep)`: the elements `keep` accepts, in their original order. */
  function Keep<T>(s: seq<T>, keep: T -> bool): (r: seq<T>)
    ensures |r| <= |s|
  {
    if s == [] then []
    else
      var n := |s| - 1;
      Keep(s[..n], keep) + if keep(s[n]) then [s[n]] else []
  }

  /** The positions of the accepted elements, in increasing order. */
  function KeptIndices<T>(s: seq<T>, keep: T -> bool): (r: seq<nat>)
    ensures |r| == |Keep(s, keep)|
    ensures forall i :: 0 <= i < |r| ==> r[i] < |s|
  {
    if s == [] then []
    else
      var n := |s| - 1;
      KeptIndices(s[..n], keep) + if keep(s[n]) then [n] else []
  }

  /** `r` is the subsequence of `s` at the strictly increasing positions `idx`. */
  ghost predicate SubsequenceAt<T>(r: seq<T>, s: seq<T>, idx: seq<nat>) {
    && |idx| == |r|
    && (forall i :: 0 <= i < |idx| ==> idx[i] < |s| && r[i] == s[idx[i]])
    && (forall i, j :: 0 <= i < j < |idx| ==> idx[i] < idx[j])
  }

  /** The filtered list is exactly the subsequence of accepted elements: it is
      taken at increasing positions, and a position is taken iff its element
      is accepted. */
  lemma KeepIsSubsequence<T>(s: seq<T>, keep: T -> bool)
    ensures SubsequenceAt(Keep(s, keep), s, KeptIndices(s, keep))
    ensures forall j :: 0 <= j < |s| ==> (j in KeptIndices(s, keep) <==> keep(s[j]))
  {
    KeepAtKeptIndices(s, keep);
    KeptIndicesExact(s, keep);
  }

  lemma {:induction false} KeepAtKeptIndices<T>(s: seq<T>, keep: T -> bool)
    ensures SubsequenceAt(Keep(s, keep), s, KeptIndices(s, keep))
  {
    if s != [] {
      var n := |s| - 1;
      var front := s[..n];
      KeepAtKeptIndices(front, keep);
      var f, k := Keep(front, keep), KeptIndices(front, keep);
      var f', k' := Keep(s, keep), KeptIndices(s, keep);
      assert f' == f + if keep(s[n]) then [s[n]] else [];
      assert k' == k + if keep(s[n]) then [n] else [];
      forall i | 0 <= i < |k| ensures f'[i] == s[k'[i]] && k'[i] == k[i] < n {
        assert s[k[i]] == front[k[i]];
      }
    }
  }

  lemma {:induction false} KeptIndicesExact<T>(s: seq<T>, keep: T -> bool)
    ensures forall j :: 0 <= j < |s| ==> (j in KeptIndices(s, keep) <==> keep(s[j]))
  {
    if s != [] {
      var n := |s| - 1;
      var front := s[..n];
      KeptIndicesExact(front, keep);
      var k, k' := KeptIndices(front, keep), KeptIndices(s, keep);
      assert k' == k + if keep(s[n]) then [n] else [];
      assert n !in k;
      forall j | 0 <= j < n ensures j in k' <==> keep(s[j]) {
        assert s[j] == front[j];
      }
    }
  }

  /** An element is in the filtered list iff it is in the list and accepted. */
  lemma KeepMembers<T(!new)>(s: seq<T>, keep: T -> bool)
    ensures forall x :: x in Keep(s, keep) <==> x in s && keep(x)
  {
    KeepIsSubsequence(s, keep);
    var r, k := Keep(s, keep), KeptIndices(s, keep);
    forall x | x in r ensures x in s && keep(x) {
      var i :| 0 <= i < |r| && r[i] == x;
      assert k[i] in k;
    }
    forall x | x in s && keep(x) ensures x in r {
      var j :| 0 <= j < |s| && s[j] == x;
      var i :| 0 <= i < |k| && k[i] == j;
    }
  }

  /** A list whose every element is accepted is left as it is. */
  lemma {:induction false} KeepAll<T>(s: seq<T>, keep: T -> bool)
    requires forall i :: 0 <= i < |s| ==> keep(s[i])
    ensures Keep(s, keep) == s
  {
    if s != [] {
      var n := |s| - 1;
      KeepAll(s[..n], keep);
      assert s[..n] + [s[n]] == s;
    }
  }

  /** Two predicates that agree on every element keep the same elements. */
  lemma {:induction false} KeepAgreeing<T>(s: seq<T>, f: T -> bool, g: T -> bool)
    requires forall i :: 0 <= i < |s| ==> f(s[i]) == g(s[i])
    ensures Keep(s, f) == Keep(s, g)
  {
    if s != [] {
      var n := |s| - 1;
      KeepAgreeing(s[..n], f, g);
    }
  }

  /** Filtering a list made of two parts filters each part. */
  lemma {:induction false} KeepAppend<T>(a: seq<T>, b: seq<T>, keep: T -> bool)
    ensures Keep(a + b, keep) == Keep(a, keep) + Keep(b, keep)
  {
    if b == [] {
      assert a + b == a;
    } else {
      var n := |b| - 1;
      assert (a + b)[..|a + b| - 1] == a + b[..n];
      KeepAppend(a, b[..n], keep);
    }
  }

  // ---------------------------------------------------------------------------
  // The product search
  // ---------------------------------------------------------------------------

  /** A product is listed when its lowered name contains the lowered query. */
  function Matches(p: Product, query: string): (r: bool)
    ensures r <==> exists i :: OccursAt(Lower(p.name), Lower(query), i)
  {
    ContainsIffOccurs(Lower(p.name), Lower(query));
    Contains(Lower(p.name), Lower(query))
  }

  /** The filter callback for a query. */
  function Matcher(query: string): (r: Product -> bool) {
    p => Matches(p, query)
  }

  /** The search results: the products that match the query, in catalog order. */
  function Filter(products: seq<Product>, query: string): (r: seq<Product>)
    ensures |r| <= |products|
    ensures forall p :: p in r <==> p in products && Matches(p, query)
  {
    KeepMembers(products, Matcher(query));
    Keep(products, Matcher(query))
  }

  /** The search results are the matching products, in catalog order: taken
      at increasing positions, a position taken iff its product matches. */
  lemma FilterIsMatchingSubsequence(products: seq<Product>, query: string)
    ensures SubsequenceAt(Filter(products, query), products, KeptIndices(products, Matcher(query)))
    ensures forall j :: 0 <= j < |products| ==>
      (j in KeptIndices(products, Matcher(query)) <==> Matches(products[j], query))
  {
    KeepIsSubsequence(products, Matcher(query));
  }

  /** The empty query lists every product. */
  lemma FilterEmptyQuery(products: seq<Product>)
    ensures Filter(products, "") == products
  {
    forall i | 0 <= i < |products| ensures Matcher("")(products[i]) {
      ContainsEmpty(Lower(products[i].name));
    }
    KeepAll(products, Matcher(""));
  }

  /** Searching the results again with the same query changes nothing. */
  lemma FilterIdempotent(products: seq<Product>, query: string)
    ensures Filter(Filter(products, query), query) == Filter(products, query)
  {
    var r := Filter(products, query);
    assert forall i :: 0 <= i < |r| ==> r[i] in r;
    KeepAll(r, Matcher(query));
  }

  /** The query's letter case does not matter: searching for its lowered form
      gives the same list. */
  lemma FilterCaseInsensitive(products: seq<Product>, query: string)
    ensures Filter(products, Lower(query)) == Filter(products, query)
  {
    LowerIdempotent(query);
    KeepAgreeing(products, Matcher(Lower(query)), Matcher(query));
  }

  /** Searching a catalog made of two parts searches each part. */
  lemma FilterAppend(a: seq<Product>, b: seq<Product>, query: string)
    ensures Filter(a + b, query) == Filter(a, query) + Filter(b, query)
  {
    KeepAppend(a, b, Matcher(query));
  }

  // ---------------------------------------------------------------------------
  // The card image
  // ---------------------------------------------------------------------------

  /** The image a card shows when the product has no variant. */
  const FallbackImage: string := "https://picsum.photos/2"

  /** The card image: the first variant's image, or the fallback. */
  function FirstImage(p: Product): (r: string)
    ensures r == FallbackImage || exists v :: v in p.variants && r == v.image
    ensures p.variants == [] ==> r == FallbackImage
    ensures |p.variants| > 0 ==> r == p.variants[0].image
  {
    if |p.variants| > 0 then p.variants[0].image else FallbackImage
  }
}

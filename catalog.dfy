/** The storefront's product grid (frontend/src/pages/Home.jsx): a
    case-insensitive name search over the fetched catalog, cut into pages of
    eight, with a current page that the Previous/Next buttons move and a search
    change resets. */
module Catalog {
  import opened Shop

  /** ITEMS_PER_PAGE: two rows of four. */
  const ItemsPerPage: nat := 8

  /** `toLowerCase` on one character, restricted to ASCII letters. */
  function LowerChar(c: char): char {
    if 'A' <= c <= 'Z' then (c as int - 'A' as int + 'a' as int) as char else c
  }

  /** `toLowerCase` on a string, restricted to ASCII letters. */
  function Lower(s: string): string {
    seq(|s|, i requires 0 <= i < |s| => LowerChar(s[i]))
  }

  /** `t` occurs in `s` starting at index `i`. */
  predicate OccursAt(s: string, t: string, i: int) {
    0 <= i && i + |t| <= |s| && s[i..i + |t|] == t
  }

  /** `s.includes(t)`, by trying each start position in turn. */
  function Includes(s: string, t: string): bool
    decreases |s|
  {
    if |t| > |s| then false
    else if s[..|t|] == t then true
    else Includes(s[1..], t)
  }

  /** Includes is substring containment. */
  lemma {:induction false} IncludesIff(s: string, t: string)
    ensures Includes(s, t) <==> exists i :: OccursAt(s, t, i)
    decreases |s|
  {
    if |t| > |s| {
    } else if s[..|t|] == t {
      assert OccursAt(s, t, 0);
    } else {
      IncludesIff(s[1..], t);
      forall i | 0 <= i ensures OccursAt(s[1..], t, i) <==> OccursAt(s, t, i + 1) {
        if i + |t| <= |s[1..]| {
          assert s[1..][i..i + |t|] == s[i + 1..i + 1 + |t|];
        }
      }
      if exists i :: OccursAt(s, t, i) {
        var i :| OccursAt(s, t, i);
        assert i != 0;
        assert OccursAt(s[1..], t, i - 1);
      }
    }
  }

  /** The empty string occurs in every string. */
  lemma IncludesEmpty(s: string)
    ensures Includes(s, "")
  {
    assert s[..0] == "";
  }

  /** The search predicate of filteredProducts, frontend/src/pages/Home.jsx:22-24. */
  predicate Matches(p: Product, term: string) {
    Includes(Lower(p.name), Lower(term))
  }

  /** filteredProducts: the products whose name matches, in catalog order. */
  function FilterProducts(products: seq<Product>, term: string): (r: seq<Product>)
    ensures forall p :: p in r <==> p in products && Matches(p, term)
    ensures IsSubsequence(r, products)
  {
    if products == [] then []
    else if Matches(products[0], term) then [products[0]] + FilterProducts(products[1..], term)
    else FilterProducts(products[1..], term)
  }

  /** The filter distributes over concatenation: relative order is kept. */
  lemma {:induction false} FilterConcat(a: seq<Product>, b: seq<Product>, term: string)
    ensures FilterProducts(a + b, term) == FilterProducts(a, term) + FilterProducts(b, term)
  {
    if a == [] {
      assert a + b == b;
    } else {
      assert (a + b)[0] == a[0];
      assert (a + b)[1..] == a[1..] + b;
      FilterConcat(a[1..], b, term);
    }
  }

  /** An empty search keeps the whole catalog. */
  lemma {:induction false} EmptySearchKeepsAll(products: seq<Product>)
    ensures FilterProducts(products, "") == products
  {
    if products != [] {
      assert Lower("") == "";
      IncludesEmpty(Lower(products[0].name));
      EmptySearchKeepsAll(products[1..]);
    }
  }

  /** totalPages = ⌈n / 8⌉. */
  function TotalPages(n: nat): (r: nat)
    ensures n <= r * ItemsPerPage
    ensures r > 0 ==> (r - 1) * ItemsPerPage < n
  {
    (n + ItemsPerPage - 1) / ItemsPerPage
  }

  /** `Array.prototype.slice(start, end)` for non-negative bounds. */
  function Slice<T>(s: seq<T>, start: nat, end: nat): seq<T> {
    var a := Min(start, |s|);
    var b := Min(end, |s|);
    if a >= b then [] else s[a..b]
  }

  /** paginatedProducts for page `page` (pages count from 1). */
  function PageOf<T>(items: seq<T>, page: int): (r: seq<T>)
    requires page >= 1
    ensures |r| <= ItemsPerPage
    ensures (page - 1) * ItemsPerPage >= |items| ==> r == []
    ensures (page - 1) * ItemsPerPage < |items| ==>
              r == items[(page - 1) * ItemsPerPage..Min(page * ItemsPerPage, |items|)]
  {
    Slice(items, (page - 1) * ItemsPerPage, page * ItemsPerPage)
  }

  /** Pages 1..k, concatenated. */
  function PagesUpTo<T>(items: seq<T>, k: nat): seq<T> {
    if k == 0 then [] else PagesUpTo(items, k - 1) + PageOf(items, k)
  }

  lemma {:induction false} PagesUpToPrefix<T>(items: seq<T>, k: nat)
    ensures PagesUpTo(items, k) == items[..Min(k * ItemsPerPage, |items|)]
  {
    if k > 0 {
      PagesUpToPrefix(items, k - 1);
      var lo := Min((k - 1) * ItemsPerPage, |items|);
      var hi := Min(k * ItemsPerPage, |items|);
      if (k - 1) * ItemsPerPage < |items| {
        assert items[..lo] + items[lo..hi] == items[..hi];
      }
    }
  }

  /** Concatenating pages 1..totalPages gives back the whole filtered list. */
  lemma PagesCoverList<T>(items: seq<T>)
    ensures PagesUpTo(items, TotalPages(|items|)) == items
  {
    PagesUpToPrefix(items, TotalPages(|items|));
  }

  /** The catalog page's state. */
  class Home {
    var products: seq<Product>
    var searchTerm: string
    var page: int

    function Filtered(): seq<Product>
      reads this
    {
      FilterProducts(products, searchTerm)
    }

    function PageCount(): nat
      reads this
    {
      TotalPages(|Filtered()|)
    }

    /** The current page is a real page, or page 1 when there are none. */
    ghost predicate Valid()
      reads this
    {
      1 <= page <= Max(1, PageCount())
    }

    /** The products shown on the current page. */
    function Visible(): (r: seq<Product>)
      reads this
      requires page >= 1
      ensures |r| <= ItemsPerPage
    {
      PageOf(Filtered(), page)
    }

    /** The page as first rendered, before the catalog arrives. */
    constructor (searchTerm: string)
      ensures products == [] && this.searchTerm == searchTerm && page == 1
      ensures Valid()
    {
      products := [];
      this.searchTerm := searchTerm;
      page := 1;
    }

    /** The mount-time fetch, frontend/src/pages/Home.jsx:13-20; it completes
        while page 1 is shown, since no pagination exists before it. */
    method Load(fetched: seq<Product>)
      requires page == 1
      modifies this
      ensures products == fetched && searchTerm == old(searchTerm) && page == 1
      ensures Valid()
    {
      products := fetched;
    }

    /** Previous, frontend/src/pages/Home.jsx:168. */
    method Previous()
      requires Valid()
      modifies this
      ensures page == Max(1, old(page) - 1)
      ensures products == old(products) && searchTerm == old(searchTerm)
      ensures Valid()
    {
      page := Max(1, page - 1);
    }

    /** Next, frontend/src/pages/Home.jsx:186; the button is rendered only
        when there is more than one page. */
    method Next()
      requires Valid() && PageCount() > 1
      modifies this
      ensures page == Min(PageCount(), old(page) + 1)
      ensures products == old(products) && searchTerm == old(searchTerm)
      ensures Valid()
    {
      page := Min(PageCount(), page + 1);
    }

    /** A new search term from the navbar; the effect at
        frontend/src/pages/Home.jsx:27-29 returns to page 1. */
    method Search(term: string)
      modifies this
      ensures searchTerm == term && page == 1 && products == old(products)
      ensures Valid()
    {
      searchTerm := term;
      page := 1;
    }
  }
}

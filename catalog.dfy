/**
 * The product grid's filter (app.js:130-139): an optional category filter, then
 * an optional case-insensitive search on the name, with a plain substring search
 * on the barcode.
 */
module Catalog {
  import opened Records
  import opened Text

  /** `a` is `b` with some elements left out, the others in their order. */
  predicate Subsequence<T(==)>(a: seq<T>, b: seq<T>)
    decreases |b|
  {
    if a == [] then true
    else if b == [] then false
    else (a[0] == b[0] && Subsequence(a[1..], b[1..])) || Subsequence(a, b[1..])
  }

  lemma {:induction false} SubsequenceStep<T>(a: seq<T>, b: seq<T>, x: T)
    requires Subsequence(a, b)
    ensures Subsequence(a, [x] + b) && Subsequence([x] + a, [x] + b)
  {
    assert ([x] + b)[1..] == b;
    assert ([x] + a)[1..] == a;
  }

  lemma {:induction false} SubsequenceReflexive<T>(a: seq<T>)
    ensures Subsequence(a, a)
    decreases |a|
  {
    if a != [] {
      SubsequenceReflexive(a[1..]);
    }
  }

  /** Leaving out elements twice is leaving out elements. */
  lemma {:induction false} SubsequenceTransitive<T>(a: seq<T>, b: seq<T>, c: seq<T>)
    requires Subsequence(a, b) && Subsequence(b, c)
    ensures Subsequence(a, c)
    decreases |c|
  {
    if a != [] {
      if b[0] == c[0] && Subsequence(b[1..], c[1..]) {
        if a[0] == b[0] && Subsequence(a[1..], b[1..]) {
          SubsequenceTransitive(a[1..], b[1..], c[1..]);
        } else {
          SubsequenceTransitive(a, b[1..], c[1..]);
        }
      } else {
        SubsequenceTransitive(a, b, c[1..]);
      }
    }
  }

  /** `filter(p => p.category === category)`. */
  function ByCategory(ps: seq<Product>, category: string): (r: seq<Product>)
    ensures forall p :: p in r <==> p in ps && p.category == category
    ensures Subsequence(r, ps)
    decreases |ps|
  {
    if ps == [] then []
    else
      var rest := ByCategory(ps[1..], category);
      assert ps == [ps[0]] + ps[1..];
      SubsequenceStep(rest, ps[1..], ps[0]);
      if ps[0].category == category then [ps[0]] + rest else rest
  }

  /** The search test for a lower-cased, non-empty term. The barcode is not lower-cased. */
  predicate SearchHit(p: Product, term: string) {
    Includes(ToLower(p.name), term) || (p.barcode != "" && Includes(p.barcode, term))
  }

  /** The search filter of app.js:138, on an already lower-cased term. */
  function BySearch(ps: seq<Product>, term: string): (r: seq<Product>)
    ensures forall p :: p in r <==> p in ps && SearchHit(p, term)
    ensures Subsequence(r, ps)
    decreases |ps|
  {
    if ps == [] then []
    else
      var rest := BySearch(ps[1..], term);
      assert ps == [ps[0]] + ps[1..];
      SubsequenceStep(rest, ps[1..], ps[0]);
      if SearchHit(ps[0], term) then [ps[0]] + rest else rest
  }

  /** What decides whether a cached product is shown for the chosen category and search. */
  predicate Shown(p: Product, category: string, searchTerm: string) {
    && (category == "all" || p.category == category)
    && (searchTerm == "" || SearchHit(p, ToLower(searchTerm)))
  }

  /** The products `renderProducts(category, searchTerm)` puts in the grid (app.js:130-139). */
  function Visible(cache: seq<Product>, category: string, searchTerm: string): (r: seq<Product>)
    ensures Subsequence(r, cache)
    ensures forall p :: p in r <==> p in cache && Shown(p, category, searchTerm)
    ensures category == "all" && searchTerm == "" ==> r == cache
  {
    var byCategory := if category != "all" then ByCategory(cache, category) else cache;
    var r := if searchTerm != "" then BySearch(byCategory, ToLower(searchTerm)) else byCategory;
    SubsequenceReflexive(cache);
    SubsequenceReflexive(byCategory);
    SubsequenceTransitive(r, byCategory, cache);
    r
  }

  /**
   * The barcode is compared with the lower-cased term but is not lower-cased
   * itself: a barcode with capital letters is found by its digits, never by its
   * letters, whichever case the search is typed in.
   */
  lemma BarcodeSearchIsCaseSensitive(p: Product)
    requires p.name == "Pen" && p.barcode == "AB12"
    ensures !Shown(p, "all", "AB") && !Shown(p, "all", "ab")
    ensures Shown(p, "all", "12")
  {
    assert ToLower("AB") == "ab";
    assert ToLower("ab") == "ab";
    assert ToLower("Pen") == "pen";
    assert ToLower("12") == "12";
    NotIncludes("pen");
    NotIncludes("AB12");
    assert "12" <= "AB12"[2..];
    assert Includes("AB12", "12") by {
      IncludesIffOccurs("AB12", "12");
      assert OccursAt("AB12", "12", 2);
    }
  }

  /** A string none of whose characters is 'a' does not contain "ab". */
  lemma {:induction false} NotIncludes(s: string)
    requires forall i :: 0 <= i < |s| ==> s[i] != 'a'
    ensures !Includes(s, "ab")
    decreases |s|
  {
    assert "ab"[0] == 'a';
    if s != [] {
      assert s[0] != "ab"[0];
      NotIncludes(s[1..]);
    }
  }
}

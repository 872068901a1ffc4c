/** The read-only catalog queries: the product listing of GET /products
    (in-stock products of a known farmer, optionally of one category and
    optionally matching a search text, newest first), its list of
    categories, and the home page (the six newest in-stock products). */
module Catalog {
  import opened Schema

  /** The home page's `LIMIT 6`. */
  const HOME_PAGE_LIMIT: nat := 6

  // ---------------------------------------------------------------------
  // Text matching: `column LIKE '%search%'`

  /** SQLite's LIKE folds ASCII letters only. */
  function FoldChar(c: char): (r: char) {
    if 'A' <= c <= 'Z' then (c as int - 'A' as int + 'a' as int) as char else c
  }

  function Fold(s: string): (r: string) {
    seq(|s|, i requires 0 <= i < |s| => FoldChar(s[i]))
  }

  /** `needle` occurs in `hay`, scanning one start position at a time. */
  predicate Contains(hay: string, needle: string)
    decreases |hay|
  {
    needle <= hay || (hay != [] && Contains(hay[1..], needle))
  }

  /** The scan agrees with the definition of a substring: some suffix of
      `hay` starts with `needle`. */
  lemma {:induction false} ContainsIffSomeOffset(hay: string, needle: string)
    ensures Contains(hay, needle) <==> exists k :: 0 <= k <= |hay| && needle <= hay[k..]
    decreases |hay|
  {
    if needle <= hay {
      assert hay[0..] == hay;
    } else if hay == [] {
      forall k | 0 <= k <= |hay| ensures !(needle <= hay[k..]) {
        assert hay[k..] == hay;
      }
    } else {
      ContainsIffSomeOffset(hay[1..], needle);
      if Contains(hay[1..], needle) {
        var k :| 0 <= k <= |hay[1..]| && needle <= hay[1..][k..];
        assert hay[1..][k..] == hay[k + 1..];
      } else {
        forall k | 0 <= k <= |hay| ensures !(needle <= hay[k..]) {
          if k > 0 {
            assert hay[1..][k - 1..] == hay[k..];
          } else {
            assert hay[k..] == hay;
          }
        }
      }
    }
  }

  /** `text LIKE '%search%'`, with the wildcard characters `%` and `_`
      inside `search` read as ordinary characters. */
  predicate Like(text: string, search: string) {
    Contains(Fold(text), Fold(search))
  }

  lemma FoldIdempotent(s: string)
    ensures Fold(Fold(s)) == Fold(s)
  {
  }

  /** Matching ignores the case of ASCII letters on both sides. */
  lemma {:induction false} LikeIgnoresCase(text: string, search: string)
    ensures Like(text, search) <==> Like(Fold(text), Fold(search))
    ensures Like(text, search) <==> exists k :: 0 <= k <= |text| && Fold(search) <= Fold(text)[k..]
  {
    FoldIdempotent(text);
    FoldIdempotent(search);
    ContainsIffSomeOffset(Fold(text), Fold(search));
  }

  // ---------------------------------------------------------------------
  // Filtering: the WHERE clause

  /** The WHERE clause of the product listing, with the join on the
      product's farmer. An empty category or search adds no condition.
      The join is read as "some user has the farmer's id", which gives
      each product at most once because `users.id` is the primary key
      (`UsersTable`); a table with a repeated user id would make the SQL
      join repeat the product. */
  predicate Listed(p: Product, users: seq<User>, category: string, search: string) {
    && p.stockQuantity > 0
    && HasUser(users, p.farmerId)
    && (category != "" ==> p.category == category)
    && (search != "" ==> Like(p.name, search) || Like(p.description, search))
  }

  /** The rows of `products` that satisfy the WHERE clause, each as often
      as it occurs in the table. */
  function Where(products: seq<Product>, users: seq<User>, category: string, search: string): (r: seq<Product>)
    ensures forall p :: multiset(r)[p] == if Listed(p, users, category, search) then multiset(products)[p] else 0
  {
    if products == [] then []
    else
      assert products == [products[0]] + products[1..];
      var rest := Where(products[1..], users, category, search);
      if Listed(products[0], users, category, search) then [products[0]] + rest else rest
  }

  // ---------------------------------------------------------------------
  // Ordering: ORDER BY created_at DESC

  predicate NewestFirst(s: seq<Product>) {
    forall i, j :: 0 <= i < j < |s| ==> s[i].createdAt >= s[j].createdAt
  }

  /** Puts `p` in front of the first row that is not newer than it. */
  function InsertByDate(p: Product, s: seq<Product>): (r: seq<Product>)
    requires NewestFirst(s)
    ensures NewestFirst(r)
    ensures multiset(r) == multiset(s) + multiset{p}
    ensures |r| == |s| + 1
    ensures r[0] == p || (s != [] && r[0] == s[0])
  {
    if s == [] || s[0].createdAt <= p.createdAt then [p] + s
    else
      assert s == [s[0]] + s[1..];
      var rest := InsertByDate(p, s[1..]);
      var r := [s[0]] + rest;
      assert multiset(r) == multiset{s[0]} + multiset(rest);
      assert forall i :: 0 <= i < |rest| ==> s[0].createdAt >= rest[0].createdAt >= rest[i].createdAt;
      assert forall i :: 0 < i < |r| ==> r[i] == rest[i - 1];
      r
  }

  function SortByDate(s: seq<Product>): (r: seq<Product>)
    ensures NewestFirst(r)
    ensures multiset(r) == multiset(s)
  {
    if s == [] then []
    else
      assert s == [s[0]] + s[1..];
      InsertByDate(s[0], SortByDate(s[1..]))
  }

  // ---------------------------------------------------------------------
  // The queries

  /** GET /products: the listed products, newest first. Each row of the
      table that passes the filter appears exactly as often as in the
      table, and no other row appears. */
  function ProductList(products: seq<Product>, users: seq<User>, category: string, search: string): (r: seq<Product>)
    ensures NewestFirst(r)
    ensures forall p :: multiset(r)[p] == if Listed(p, users, category, search) then multiset(products)[p] else 0
    ensures forall i :: 0 <= i < |r| ==> Listed(r[i], users, category, search)
  {
    var r := SortByDate(Where(products, users, category, search));
    assert forall i :: 0 <= i < |r| ==> r[i] in multiset(r);
    r
  }

  /** GET /: at most six in-stock products of a known farmer, the newest
      ones first; when fewer than six are shown, every in-stock product of
      a known farmer is. */
  function HomePage(products: seq<Product>, users: seq<User>): (r: seq<Product>)
    ensures |r| <= HOME_PAGE_LIMIT
    ensures |r| == if |ProductList(products, users, "", "")| < HOME_PAGE_LIMIT
                   then |ProductList(products, users, "", "")| else HOME_PAGE_LIMIT
    ensures r <= ProductList(products, users, "", "")
    ensures forall i :: 0 <= i < |r| ==> r[i].stockQuantity > 0 && HasUser(users, r[i].farmerId)
    ensures |r| < HOME_PAGE_LIMIT ==>
      forall p :: p in products && Listed(p, users, "", "") ==> p in r
  {
    var all := ProductList(products, users, "", "");
    if |all| <= HOME_PAGE_LIMIT then
      assert forall p :: p in products && Listed(p, users, "", "") ==> p in multiset(all);
      all
    else all[..HOME_PAGE_LIMIT]
  }

  /** An in-stock product of a known farmer missing from the home page is
      no newer than any product it shows. */
  lemma HomePageShowsNewest(products: seq<Product>, users: seq<User>, p: Product)
    requires p in products && Listed(p, users, "", "")
    requires p !in HomePage(products, users)
    ensures forall q :: q in HomePage(products, users) ==> q.createdAt >= p.createdAt
  {
  }

  /** `SELECT DISTINCT category FROM products`: every category of every
      product (in stock or not), each once. */
  function Categories(products: seq<Product>): (r: seq<string>)
    ensures forall c :: c in r <==> exists i :: 0 <= i < |products| && products[i].category == c
    ensures forall i, j :: 0 <= i < j < |r| ==> r[i] != r[j]
  {
    if products == [] then []
    else
      var init := products[..|products| - 1];
      var last := products[|products| - 1];
      var rest := Categories(init);
      assert forall i :: 0 <= i < |init| ==> init[i] == products[i];
      if last.category in rest then rest else rest + [last.category]
  }
}

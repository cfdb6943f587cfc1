/**
 * The storefront catalogue: the case-insensitive search, the category
 * sections, the category labels, the empty-state messages and what the
 * buy-now, subscribe and detail buttons select and where they navigate.
 */
module Store {
  import opened Wrappers
  import opened JsString
  import opened Domain

  /** `Array.prototype.filter`: the elements `keep` accepts, in their order. */
  function Filter<T>(s: seq<T>, keep: T -> bool): (r: seq<T>)
    ensures |r| <= |s|
  {
    if s == [] then [] else (if keep(s[0]) then [s[0]] else []) + Filter(s[1..], keep)
  }

  /** An element survives the filter exactly when it is in the input and accepted. */
  lemma {:induction false} FilterMembership<T>(s: seq<T>, keep: T -> bool, x: T)
    ensures x in Filter(s, keep) <==> x in s && keep(x)
  {
    if s != [] {
      FilterMembership(s[1..], keep, x);
      assert s == [s[0]] + s[1..];
    }
  }

  /** Filtering distributes over concatenation, so it keeps the input's order. */
  lemma {:induction false} FilterAppend<T>(a: seq<T>, b: seq<T>, keep: T -> bool)
    ensures Filter(a + b, keep) == Filter(a, keep) + Filter(b, keep)
  {
    if a == [] {
      assert a + b == b;
    } else {
      var head := if keep(a[0]) then [a[0]] else [];
      FilterAppend(a[1..], b, keep);
      assert (a + b)[0] == a[0];
      assert (a + b)[1..] == a[1..] + b;
      calc {
        Filter(a + b, keep);
        head + Filter(a[1..] + b, keep);
        head + (Filter(a[1..], keep) + Filter(b, keep));
        (head + Filter(a[1..], keep)) + Filter(b, keep);
        Filter(a, keep) + Filter(b, keep);
      }
    }
  }

  /** A filter that accepts everything keeps everything. */
  lemma {:induction false} FilterKeepsAll<T>(s: seq<T>, keep: T -> bool)
    requires forall x :: x in s ==> keep(x)
    ensures Filter(s, keep) == s
  {
    if s != [] {
      FilterKeepsAll(s[1..], keep);
      assert s == [s[0]] + s[1..];
    }
  }

  /** The product's lower-cased name contains the lower-cased query. */
  predicate MatchesQuery(p: Product, query: string) {
    Includes(ToLower(p.name), ToLower(query))
  }

  /** `filteredProducts`: every section of the page draws from this list. */
  function FilteredProducts(products: seq<Product>, query: string): (r: seq<Product>)
    ensures |r| <= |products|
  {
    Filter(products, (p: Product) => MatchesQuery(p, query))
  }

  /** A product is listed exactly when its name contains the query, ignoring ASCII case. */
  lemma FilteredProductsMembership(products: seq<Product>, query: string, p: Product)
    ensures p in FilteredProducts(products, query) <==> p in products && MatchesQuery(p, query)
  {
    FilterMembership(products, (p: Product) => MatchesQuery(p, query), p);
  }

  /** The empty query lists the whole catalogue, in catalogue order. */
  lemma EmptyQueryKeepsAll(products: seq<Product>)
    ensures FilteredProducts(products, "") == products
  {
    forall p | p in products ensures MatchesQuery(p, "") {
      assert ToLower("") == "";
    }
    FilterKeepsAll(products, (p: Product) => MatchesQuery(p, ""));
  }

  /** The CPM sections: the filtered products whose category is exactly `category`. */
  function CategorySection(filtered: seq<Product>, category: string): (r: seq<Product>)
    ensures |r| <= |filtered|
  {
    Filter(filtered, (p: Product) => p.category == category)
  }

  /** A section lists exactly the products that match the query and have that exact category. */
  lemma CategorySectionMembership(products: seq<Product>, query: string, category: string, p: Product)
    ensures p in CategorySection(FilteredProducts(products, query), category)
        <==> p in products && MatchesQuery(p, query) && p.category == category
  {
    FilterMembership(FilteredProducts(products, query), (p: Product) => p.category == category, p);
    FilteredProductsMembership(products, query, p);
  }

  /** `getCategoryLabel`: the four known categories get a display name, anything else is shown as it is. */
  function CategoryLabel(category: string): (shown: string)
    ensures category == "download_file" ==> shown == "Download"
    ensures category == "game_account" ==> shown == "Game Account"
    ensures category == "cpm_services" ==> shown == "CPM Gg Services"
    ensures category == "cpm_lua_scripts" ==> shown == "CPM Gg Lua Scripts"
    ensures category !in {"download_file", "game_account", "cpm_services", "cpm_lua_scripts"} ==> shown == category
  {
    if category == "download_file" then "Download"
    else if category == "game_account" then "Game Account"
    else if category == "cpm_services" then "CPM Gg Services"
    else if category == "cpm_lua_scripts" then "CPM Gg Lua Scripts"
    else category
  }

  /** "No products found": a non-empty query matched nothing and the catalogue is not loading. */
  predicate ShowsNoProductsFound(query: string, filtered: seq<Product>, isLoadingProducts: bool) {
    query != "" && |filtered| == 0 && !isLoadingProducts
  }

  /** "No products yet": not loading, nothing listed, and no query. */
  predicate ShowsNoProductsYet(query: string, filtered: seq<Product>, isLoadingProducts: bool) {
    !isLoadingProducts && |filtered| == 0 && query == ""
  }

  /**
   * The two empty states never show together; "No products yet" means the
   * catalogue really is empty, and "No products found" means no product
   * matches the query.
   */
  lemma EmptyStatesMeanWhatTheySay(products: seq<Product>, query: string, isLoadingProducts: bool)
    ensures var filtered := FilteredProducts(products, query);
      && !(ShowsNoProductsFound(query, filtered, isLoadingProducts) && ShowsNoProductsYet(query, filtered, isLoadingProducts))
      && (ShowsNoProductsYet(query, filtered, isLoadingProducts) ==> products == [])
      && (ShowsNoProductsFound(query, filtered, isLoadingProducts) ==> forall p :: p in products ==> !MatchesQuery(p, query))
  {
    var filtered := FilteredProducts(products, query);
    if query == "" {
      EmptyQueryKeepsAll(products);
    }
    forall p | p in products && MatchesQuery(p, query) ensures p in filtered {
      FilteredProductsMembership(products, query, p);
    }
  }

  /** What a button press selects and where it then navigates. */
  datatype Selection = Selection(product: Option<Product>, checkoutItem: Option<CheckoutItem>, navigateTo: Page)

  /** A product card's "View" button: select the product, open its detail page. */
  function ViewDetail(p: Product): (e: Selection)
    ensures e.product == Some(p) && e.checkoutItem.None? && e.navigateTo == ProductDetail
  {
    Selection(Some(p), None, ProductDetail)
  }

  /**
   * A product card's buy-now: without a profile only the sign-in page is
   * opened; with one the product's id, name and price become the checkout
   * item, without the package flag.
   */
  function BuyNow(p: Product, userProfile: Option<UserProfile>): (e: Selection)
    ensures e.product.None?
    ensures userProfile.None? ==> e.checkoutItem.None? && e.navigateTo == Auth
    ensures userProfile.Some? ==>
      e.checkoutItem == Some(CheckoutItem(p.id, p.name, p.price, None)) && e.navigateTo == Checkout
  {
    if userProfile.None? then Selection(None, None, Auth)
    else Selection(None, Some(CheckoutItem(p.id, p.name, p.price, None)), Checkout)
  }

  /** A package card's subscribe button: like buy-now, with the package flag set. */
  function Subscribe(pkg: Package, userProfile: Option<UserProfile>): (e: Selection)
    ensures e.product.None?
    ensures userProfile.None? ==> e.checkoutItem.None? && e.navigateTo == Auth
    ensures userProfile.Some? ==>
      e.checkoutItem == Some(CheckoutItem(pkg.id, pkg.name, pkg.price, Some(true))) && e.navigateTo == Checkout
  {
    if userProfile.None? then Selection(None, None, Auth)
    else Selection(None, Some(CheckoutItem(pkg.id, pkg.name, pkg.price, Some(true))), Checkout)
  }

  /** Checkout is reached only with a checkout item, and that item carries the catalogue price unchanged. */
  lemma CheckoutOnlyWithItem(p: Product, pkg: Package, userProfile: Option<UserProfile>)
    ensures BuyNow(p, userProfile).navigateTo == Checkout <==> BuyNow(p, userProfile).checkoutItem.Some?
    ensures Subscribe(pkg, userProfile).navigateTo == Checkout <==> Subscribe(pkg, userProfile).checkoutItem.Some?
    ensures BuyNow(p, userProfile).checkoutItem.Some? ==> BuyNow(p, userProfile).checkoutItem.value.price == p.price
    ensures Subscribe(pkg, userProfile).checkoutItem.Some? ==> Subscribe(pkg, userProfile).checkoutItem.value.price == pkg.price
  {
  }
}

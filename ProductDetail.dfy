/** The product detail page: its category label, its download badge and its buy-now button. */
module ProductDetail {
  import opened Wrappers
  import opened Domain
  import Store

  /** This page's `getCategoryLabel`: only two categories get a display name. */
  function CategoryLabel(category: string): (shown: string)
    ensures category == "download_file" ==> shown == "Download File"
    ensures category == "game_account" ==> shown == "Game Account"
    ensures category !in {"download_file", "game_account"} ==> shown == category
  {
    if category == "download_file" then "Download File"
    else if category == "game_account" then "Game Account"
    else category
  }

  /** The "Instant Download" badge. */
  predicate IsDownload(p: Product) {
    p.category == "download_file"
  }

  /**
   * The detail page and the store name a category the same way except for
   * downloads ("Download File" against "Download") and the two CPM
   * categories, which only the store names.
   */
  lemma LabelsAgreeWithStore(category: string)
    ensures category !in {"download_file", "cpm_services", "cpm_lua_scripts"} ==>
      CategoryLabel(category) == Store.CategoryLabel(category)
    ensures category == "download_file" ==>
      CategoryLabel(category) == "Download File" && Store.CategoryLabel(category) == "Download"
    ensures category in {"cpm_services", "cpm_lua_scripts"} ==>
      CategoryLabel(category) == category != Store.CategoryLabel(category)
  {
  }

  /** `handleBuyNow`: the same guard and item as the store's buy-now button. */
  function HandleBuyNow(product: Product, userProfile: Option<UserProfile>): (e: Store.Selection)
    ensures userProfile.None? ==> e == Store.Selection(None, None, Auth)
    ensures userProfile.Some? ==>
      e == Store.Selection(None, Some(CheckoutItem(product.id, product.name, product.price, None)), Checkout)
  {
    Store.BuyNow(product, userProfile)
  }
}

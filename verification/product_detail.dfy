/**
 * The product detail screen: which product is shown after the fetch (the
 * real one or the demo fallback), its add-to-cart decision and its image URL.
 */
module ProductDetail {
  import opened Common
  import opened Images
  import Products

  /** The route's parameters: absent, or carrying the requested product id. */
  datatype Route = NoParams | Params(productId: string)

  /**
   * What the product request produced. An OK answer's body is stored as it
   * is; `None` stands for a null body, which leaves no product to show.
   */
  datatype ProductFetch = Fetched(body: Option<Products.Product>) | NotOk | Threw

  /**
   * The screen state that the handlers and the render read. `loading` is
   * set on mount and cleared once the fetch effect finishes.
   */
  datatype DetailState = DetailState(product: Option<Products.Product>, imageError: bool, loading: bool)

  const InitialState: DetailState := DetailState(None, false, true)

  /** The id the exception handler falls back to when the route carries none. */
  const DefaultProductId: string := "1"

  /** The demo product shown when the request does not yield one. */
  function MockProduct(id: string): (p: Products.Product)
    ensures p.id == id && p.inStock
  {
    Products.Product(
      id,
      "Microneedle Roller",
      230,
      "Skin stimulator to promote collagen production and transdermal nutrient delivery. "
        + "Professional microneedling device for effective skin regeneration. Manufactured in South Korea.",
      "/images/genosys-microneedling-devices.jpg",
      "Microneedling",
      true)
  }

  /**
   * The product `fetchProduct` stores. Without route parameters reading the
   * id throws before any request is made, so the exception path applies; the
   * exception path uses the route's id unless it is empty or absent.
   */
  function LoadedProduct(route: Route, fetch: ProductFetch): (p: Option<Products.Product>)
    ensures route.Params? && fetch.Fetched? ==> p == fetch.body
    ensures route.Params? && fetch.NotOk? ==> p == Some(MockProduct(route.productId))
    ensures route.Params? && fetch.Threw? && route.productId != "" ==> p == Some(MockProduct(route.productId))
    ensures (route.Params? && fetch.Threw? && route.productId == "") || route.NoParams? ==>
              p == Some(MockProduct(DefaultProductId))
  {
    match route
    case NoParams => Some(MockProduct(DefaultProductId))
    case Params(productId) =>
      match fetch
      case Fetched(body) => body
      case NotOk => Some(MockProduct(productId))
      case Threw => Some(MockProduct(if productId != "" then productId else DefaultProductId))
  }

  /** The state after the fetch effect finishes: loading is over and the image flag is untouched. */
  function AfterLoad(st: DetailState, route: Route, fetch: ProductFetch): (r: DetailState)
    ensures r.product.None? <==> route.Params? && fetch == Fetched(None)
    ensures r.product.Some? && fetch.Fetched? && route.Params? ==> r.product == fetch.body
    ensures r.imageError == st.imageError && !r.loading
  {
    DetailState(LoadedProduct(route, fetch), st.imageError, false)
  }

  /**
   * The "Product not found" view is rendered when no product is held once
   * loading ends; while loading, the loading view is rendered instead.
   */
  predicate ShowsNotFound(st: DetailState)
    ensures ShowsNotFound(st) ==> !st.loading
    ensures !st.loading ==> (ShowsNotFound(st) <==> AddToCart(st).NoProduct?)
  {
    !st.loading && st.product.None?
  }

  /** After loading, "Product not found" appears only for an OK answer with a null body. */
  lemma NotFoundOnlyForNullBody(st: DetailState, route: Route, fetch: ProductFetch)
    ensures ShowsNotFound(AfterLoad(st, route, fetch)) <==> route.Params? && fetch == Fetched(None)
  {
  }

  /** Whenever the request did not return a product, the fallback carries the requested id. */
  lemma FallbackKeepsRequestedId(productId: string, fetch: ProductFetch)
    requires !fetch.Fetched? && productId != ""
    ensures LoadedProduct(Params(productId), fetch).Some?
    ensures LoadedProduct(Params(productId), fetch).value.id == productId
  {
  }

  /** Before the fetch finishes the loading view is shown, nothing can be added and the logo is chosen. */
  lemma InitialStateIsInert()
    ensures InitialState.loading && !ShowsNotFound(InitialState)
    ensures AddToCart(InitialState) == NoProduct
    ensures ImageSource(InitialState) == LogoUrl
  {
  }

  /** What pressing "Add to Cart" does on the detail screen. */
  datatype DetailAddResult = NoProduct | Attempted(result: Products.AddResult)

  /** `handleAddToCart` of the detail screen. */
  function AddToCart(st: DetailState): (r: DetailAddResult)
    ensures r.NoProduct? <==> st.product.None?
    ensures r.Attempted? ==> (r.result.OutOfStock? <==> !st.product.value.inStock)
    ensures r.Attempted? && r.result.Added? ==>
              && r.result.request.id == st.product.value.id
              && r.result.request.name == st.product.value.name
              && r.result.request.price == st.product.value.price
              && r.result.request.image == st.product.value.image
              && r.result.request.category == st.product.value.category
  {
    match st.product
    case None => NoProduct
    case Some(p) =>
      if !p.inStock then Attempted(Products.OutOfStock)
      else Attempted(Products.Added(Products.CartRequest(p.id, p.name, p.price, p.image, p.category)))
  }

  /** The detail screen and the list screen make the same add-to-cart decision for a loaded product. */
  lemma AddToCartAgreesWithList(p: Products.Product, imageError: bool, loading: bool)
    ensures AddToCart(DetailState(Some(p), imageError, loading)) == Attempted(Products.AddToCart(p))
  {
  }

  /** The image's `onError` callback. */
  function OnImageError(st: DetailState): (r: DetailState)
    ensures r.imageError && r.product == st.product && r.loading == st.loading
  {
    st.(imageError := true)
  }

  /** `getImageSource` of the detail screen. */
  function ImageSource(st: DetailState): (uri: string)
    ensures st.imageError || st.product.None? || st.product.value.image == "" ==> uri == LogoUrl
    ensures !st.imageError && st.product.Some? && st.product.value.image != "" ==>
              uri == ResolvePath(st.product.value.image)
    ensures IsAbsolute(uri)
  {
    if st.imageError || st.product.None? || st.product.value.image == "" then LogoUrl
    else ResolvePath(st.product.value.image)
  }

  /**
   * The two screens choose the same URL for a product whenever the detail
   * screen's error flag agrees with the list screen's error set.
   */
  lemma ImageSourceAgreesWithList(p: Products.Product, errors: set<string>, loading: bool)
    ensures ImageSource(DetailState(Some(p), p.id in errors, loading)) == Products.ImageSource(errors, p)
  {
  }
}

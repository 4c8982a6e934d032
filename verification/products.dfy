/**
 * The product list screen: the two-stage catalogue filter, the add-to-cart
 * decision, per-product image load/error tracking and image URL choice.
 */
module Products {
  import opened Common
  import opened Text
  import opened Seqs
  import opened Images

  datatype Product = Product(
    id: string,
    name: string,
    price: int,
    description: string,
    image: string,
    category: string,
    inStock: bool)

  /** The category chip that switches the category stage off. */
  const AllCategories: string := "All"

  /** The category chips, in display order. */
  const Categories: seq<string> := [
    "All", "Microneedling", "Device", "PRO Solution", "Cleanser", "Peeling", "Toner/Mist",
    "Eye care", "Serum", "Cream", "Mask", "Sun", "Cushion BB", "Scalp/Hair"]

  /** The chip row starts with `All`, and no chip appears twice. */
  lemma CategoryChips()
    ensures Categories[0] == AllCategories
    ensures forall i, j :: 0 <= i < j < |Categories| ==> Categories[i] != Categories[j]
  {
  }

  // ---------------------------------------------------------------------------
  // Catalogue filter
  // ---------------------------------------------------------------------------

  /** The search test: the lower-cased query occurs in the lower-cased name or description. */
  predicate MatchesSearch(p: Product, query: string) {
    Contains(Lower(p.name), Lower(query)) || Contains(Lower(p.description), Lower(query))
  }

  /** The category test: exact, case-sensitive equality. */
  predicate InCategory(p: Product, category: string) {
    p.category == category
  }

  function SearchTest(query: string): Product -> bool {
    p => MatchesSearch(p, query)
  }

  function CategoryTest(category: string): Product -> bool {
    p => InCategory(p, category)
  }

  /** First stage: skipped for an empty query. */
  function SearchStage(products: seq<Product>, query: string): seq<Product> {
    if query == "" then products else Filter(products, SearchTest(query))
  }

  /** Second stage: skipped for the `All` chip. */
  function CategoryStage(products: seq<Product>, category: string): seq<Product> {
    if category == AllCategories then products else Filter(products, CategoryTest(category))
  }

  /**
   * Reference definition of visibility for one product: it passes the search
   * test unless the query is empty, and the category test unless the category
   * is `All`.
   */
  predicate Visible(p: Product, query: string, category: string) {
    && (query == "" || MatchesSearch(p, query))
    && (category == AllCategories || InCategory(p, category))
  }

  function VisibleTest(query: string, category: string): Product -> bool {
    p => Visible(p, query, category)
  }

  /** The two-stage pipeline is one filter by the reference visibility test. */
  lemma PipelineIsOneFilter(products: seq<Product>, query: string, category: string)
    ensures CategoryStage(SearchStage(products, query), category) == Filter(products, VisibleTest(query, category))
  {
    var both := VisibleTest(query, category);
    if query == "" && category == AllCategories {
      FilterIdentity(products, both);
    } else if query == "" {
      FilterExtensional(products, CategoryTest(category), both);
    } else if category == AllCategories {
      FilterExtensional(products, SearchTest(query), both);
    } else {
      FilterFused(products, SearchTest(query), CategoryTest(category), both);
    }
  }

  /**
   * The list the screen shows for the current products, query and category:
   * the catalogue's visible products, in catalogue order.
   */
  function VisibleProducts(products: seq<Product>, query: string, category: string): (r: seq<Product>)
    ensures r == Filter(products, VisibleTest(query, category))
    ensures IsSubsequence(r, products)
  {
    PipelineIsOneFilter(products, query, category);
    FilterIsSubsequence(products, VisibleTest(query, category));
    CategoryStage(SearchStage(products, query), category)
  }

  /** A product is shown exactly when it is in the catalogue and passes both tests. */
  lemma VisibleMembership(products: seq<Product>, query: string, category: string, p: Product)
    ensures p in VisibleProducts(products, query, category) <==> p in products && Visible(p, query, category)
  {
    FilterMembership(products, VisibleTest(query, category), p);
  }

  /** With a query, every shown product matches it. */
  lemma ShownProductsMatchQuery(products: seq<Product>, query: string, category: string)
    requires query != ""
    ensures forall p :: p in VisibleProducts(products, query, category) ==> MatchesSearch(p, query)
  {
    forall p | p in VisibleProducts(products, query, category)
      ensures MatchesSearch(p, query)
    {
      VisibleMembership(products, query, category, p);
    }
  }

  /** With a category chip other than `All`, every shown product is in exactly that category. */
  lemma ShownProductsInCategory(products: seq<Product>, query: string, category: string)
    requires category != AllCategories
    ensures forall i :: 0 <= i < |VisibleProducts(products, query, category)| ==>
              VisibleProducts(products, query, category)[i].category == category
  {
    FilterAllPass(products, VisibleTest(query, category));
  }

  /** No query and the `All` chip show the whole catalogue, in order. */
  lemma NoFilterShowsEverything(products: seq<Product>)
    ensures VisibleProducts(products, "", AllCategories) == products
  {
  }

  /**
   * The empty-query guard only saves work: searching for the empty string
   * would keep every product anyway.
   */
  lemma EmptySearchKeepsEverything(products: seq<Product>)
    ensures Filter(products, SearchTest("")) == products
  {
    forall i | 0 <= i < |products|
      ensures SearchTest("")(products[i])
    {
      ContainsEmpty(Lower(products[i].name));
    }
    FilterIdentity(products, SearchTest(""));
  }

  /** The search ignores ASCII case in the query. */
  lemma SearchIgnoresQueryCase(p: Product, query: string)
    ensures MatchesSearch(p, query) <==> MatchesSearch(p, Lower(query))
  {
    LowerIdempotent(query);
  }

  // ---------------------------------------------------------------------------
  // Add to cart
  // ---------------------------------------------------------------------------

  /** The record handed to the cart store's `addToCart`. */
  datatype CartRequest = CartRequest(id: string, name: string, price: int, image: string, category: string)

  /** What pressing "Add to Cart" does: an out-of-stock alert, or one call to the store. */
  datatype AddResult = OutOfStock | Added(request: CartRequest)

  /** `handleAddToCart` of the list screen. */
  function AddToCart(p: Product): (r: AddResult)
    ensures r.OutOfStock? <==> !p.inStock
    ensures r.Added? ==>
              && r.request.id == p.id && r.request.name == p.name && r.request.price == p.price
              && r.request.image == p.image && r.request.category == p.category
  {
    if !p.inStock then OutOfStock
    else Added(CartRequest(p.id, p.name, p.price, p.image, p.category))
  }

  /** The label of a product card's cart button; `inCart` is the store's `isInCart(id)`. */
  function AddButtonLabel(p: Product, inCart: bool): (caption: string)
    ensures caption == "Out of Stock" <==> !p.inStock
    ensures caption == "In Cart" <==> p.inStock && inCart
    ensures caption == "Add to Cart" <==> p.inStock && !inCart
  {
    if !p.inStock then "Out of Stock" else if inCart then "In Cart" else "Add to Cart"
  }

  /** The button is disabled for out-of-stock products, so every enabled press reaches the store. */
  lemma EnabledButtonAlwaysAdds(p: Product, inCart: bool)
    requires AddButtonLabel(p, inCart) != "Out of Stock"
    ensures AddToCart(p).Added?
  {
  }

  // ---------------------------------------------------------------------------
  // Image loading state
  // ---------------------------------------------------------------------------

  /** Ids whose image failed, and ids whose image is loading (spinner shown). */
  datatype ImageStatus = ImageStatus(errors: set<string>, loading: set<string>)

  /** No card has failed or is loading before the first callback. */
  const InitialImageStatus: ImageStatus := ImageStatus({}, {})

  /** `handleImageError`. */
  function OnImageError(st: ImageStatus, id: string): (r: ImageStatus)
    ensures id in r.errors && id !in r.loading
    ensures forall x :: x != id ==> (x in r.errors <==> x in st.errors)
    ensures forall x :: x != id ==> (x in r.loading <==> x in st.loading)
  {
    ImageStatus(st.errors + {id}, st.loading - {id})
  }

  /** `handleImageLoad`. */
  function OnImageLoad(st: ImageStatus, id: string): (r: ImageStatus)
    ensures r.errors == st.errors
    ensures id !in r.loading
    ensures forall x :: x != id ==> (x in r.loading <==> x in st.loading)
  {
    ImageStatus(st.errors, st.loading - {id})
  }

  /** `handleImageLoadStart`. */
  function OnImageLoadStart(st: ImageStatus, id: string): (r: ImageStatus)
    ensures r.errors == st.errors
    ensures id in r.loading
    ensures forall x :: x != id ==> (x in r.loading <==> x in st.loading)
  {
    ImageStatus(st.errors, st.loading + {id})
  }

  /** The three callbacks of a product card's image. */
  datatype ImageEvent = LoadStart(id: string) | Loaded(id: string) | Failed(id: string)

  function Step(st: ImageStatus, e: ImageEvent): ImageStatus {
    match e
    case LoadStart(id) => OnImageLoadStart(st, id)
    case Loaded(id) => OnImageLoad(st, id)
    case Failed(id) => OnImageError(st, id)
  }

  /** The status after a run of callbacks, oldest first. */
  function Replay(st: ImageStatus, events: seq<ImageEvent>): ImageStatus
  {
    if |events| == 0 then st else Step(Replay(st, events[..|events| - 1]), events[|events| - 1])
  }

  /** The most recent callback concerning `id`, if any. */
  function LastEventFor(events: seq<ImageEvent>, id: string): Option<ImageEvent>
  {
    if |events| == 0 then None
    else if events[|events| - 1].id == id then Some(events[|events| - 1])
    else LastEventFor(events[..|events| - 1], id)
  }

  /** The spinner for `id` is on exactly when its most recent callback was a load start. */
  lemma {:induction false} SpinnerFollowsLastEvent(st: ImageStatus, events: seq<ImageEvent>, id: string)
    ensures id in Replay(st, events).loading <==>
              match LastEventFor(events, id)
              case None => id in st.loading
              case Some(e) => e.LoadStart?
  {
    if |events| > 0 {
      SpinnerFollowsLastEvent(st, events[..|events| - 1], id);
    }
  }

  /** An id is marked broken exactly when it was already, or some callback reported its failure. */
  lemma {:induction false} ErrorsAreSticky(st: ImageStatus, events: seq<ImageEvent>, id: string)
    ensures id in Replay(st, events).errors <==>
              id in st.errors || exists k :: 0 <= k < |events| && events[k] == Failed(id)
  {
    if |events| > 0 {
      var prefix := events[..|events| - 1];
      ErrorsAreSticky(st, prefix, id);
      if exists k :: 0 <= k < |prefix| && prefix[k] == Failed(id) {
        var k :| 0 <= k < |prefix| && prefix[k] == Failed(id);
        assert events[k] == Failed(id);
      }
      if exists k :: 0 <= k < |events| && events[k] == Failed(id) {
        var k :| 0 <= k < |events| && events[k] == Failed(id);
        if k < |prefix| {
          assert prefix[k] == Failed(id);
        }
      }
    }
  }

  /**
   * From a freshly mounted list, a card shows the spinner exactly when its
   * latest callback was a load start, and the logo exactly when one of its
   * callbacks reported a failure.
   */
  lemma FromInitialStatus(events: seq<ImageEvent>, id: string)
    ensures id in Replay(InitialImageStatus, events).loading <==>
              LastEventFor(events, id).Some? && LastEventFor(events, id).value.LoadStart?
    ensures id in Replay(InitialImageStatus, events).errors <==>
              exists k :: 0 <= k < |events| && events[k] == Failed(id)
  {
    SpinnerFollowsLastEvent(InitialImageStatus, events, id);
    ErrorsAreSticky(InitialImageStatus, events, id);
  }

  /** `getImageSource` of the list screen. */
  function ImageSource(errors: set<string>, p: Product): (uri: string)
    ensures p.id in errors ==> uri == LogoUrl
    ensures p.id !in errors && p.image == "" ==> uri == LogoUrl
    ensures p.id !in errors && p.image != "" && IsAbsolute(p.image) ==> uri == p.image
    ensures p.id !in errors && p.image != "" && !IsAbsolute(p.image) ==> uri == Host + p.image
    ensures IsAbsolute(uri)
  {
    if p.id in errors then LogoUrl
    else if p.image != "" then ResolvePath(p.image)
    else LogoUrl
  }

  /** Once an image has failed, no later callback brings it back: the card keeps the logo. */
  lemma FailedImageStaysLogo(st: ImageStatus, events: seq<ImageEvent>, p: Product)
    requires Failed(p.id) in events
    ensures ImageSource(Replay(st, events).errors, p) == LogoUrl
  {
    var k :| 0 <= k < |events| && events[k] == Failed(p.id);
    ErrorsAreSticky(st, events, p.id);
  }
}

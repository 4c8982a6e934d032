# Genosys storefront screens in Dafny

A model of the decisions made by the screens of the Genosys mobile storefront
(a React Native client for a skincare distributor). Each screen's pure logic is
written as functions over immutable records: the product catalogue filter, the
add-to-cart decision, image URL choice and image load tracking, the checkout,
registration and sign-in form validators, the order record built at checkout,
the order-status badges, and the skin-analysis selection state. Calls the screens
make into other code become values. Alerts, `fetch`, navigation and the cart and
auth stores' `addToCart`, `clearCart`, `login` and `register` are returned as
outcomes. The answers of remote calls are parameters.

Files, one module each:

- `common.dfy` (`Common`): `Option` and `LineAmount`, the price-times-quantity value of a line that the checkout and order screens share.
- `text.dfy` (`Text`): ASCII `Lower`/`Capitalize`, and `Contains`, which is JavaScript's `includes`.
- `seqs.dfy` (`Seqs`): `Filter`, `IsSubsequence` and `Sum`, with the filter lemmas.
- `images.dfy` (`Images`): the host, the logo URL and `ResolvePath`.
- `products.dfy` (`Products`): the product list screen.
- `product_detail.dfy` (`ProductDetail`): the product detail screen.
- `checkout.dfy` (`Checkout`): the checkout screen.
- `register.dfy` (`Register`): the registration screen.
- `login.dfy` (`Login`): the combined sign-in / sign-up screen.
- `orders.dfy` (`Orders`): the order history screen.
- `skin_analysis.dfy` (`SkinAnalysis`): the skin analysis screen.

JavaScript truthiness of strings is modelled as "not the empty string" wherever
the screens test a string. This covers `if (searchQuery)`, `if (product.image)`,
`!selectedSkinType`, `order.estimatedDelivery && …` and every required-field check.

## Model

| member | source | states |
|---|---|---|
| Products.CategoryChips | src/screens/ProductsScreen.tsx:28-43 | The chip row starts with All and no category chip appears twice |
| Products.PipelineIsOneFilter | src/screens/ProductsScreen.tsx:67-84 | The search stage followed by the category stage equals a single filter by the reference test "matches the query (unless the query is empty) and is in the category (unless it is All)" |
| Products.VisibleProducts | src/screens/ProductsScreen.tsx:67-84 | The shown list is the loaded products filtered by the reference visibility test, and an order-preserving subsequence of them |
| Products.VisibleMembership | src/screens/ProductsScreen.tsx:71-81 | A product is shown iff it is among the products and passes both tests, each switched off by its neutral value |
| Products.ShownProductsMatchQuery | src/screens/ProductsScreen.tsx:71-76 | With a non-empty query, every shown product has the lower-cased query inside its lower-cased name or description |
| Products.ShownProductsInCategory | src/screens/ProductsScreen.tsx:79-81 | With a category other than All, every shown product's category equals it exactly |
| Products.NoFilterShowsEverything | src/screens/ProductsScreen.tsx:68-83 | An empty query with the All chip shows exactly the loaded products |
| Products.EmptySearchKeepsEverything | src/screens/ProductsScreen.tsx:71-75 | Searching for the empty string would keep every product, so the empty-query guard never changes the list |
| Products.SearchIgnoresQueryCase | src/screens/ProductsScreen.tsx:72-75 | A product matches a query iff it matches the query's lower-cased form |
| Products.AddToCart | src/screens/ProductsScreen.tsx:86-98 | An out-of-stock product only raises the alert; an in-stock one reaches the store with id, name, price, image and category copied |
| Products.AddButtonLabel | src/screens/ProductsScreen.tsx:232-244 | The button reads Out of Stock iff out of stock, In Cart iff in stock and in the cart, Add to Cart otherwise |
| Products.EnabledButtonAlwaysAdds | src/screens/ProductsScreen.tsx:235-236 | A press on an enabled cart button always reaches the store |
| Products.OnImageError | src/screens/ProductsScreen.tsx:103-110 | The id joins the error set and leaves the loading set; no other id's membership of either set changes |
| Products.OnImageLoad | src/screens/ProductsScreen.tsx:112-118 | Only the id leaves the loading set; the error set is untouched |
| Products.OnImageLoadStart | src/screens/ProductsScreen.tsx:120-122 | Only the id joins the loading set; the error set is untouched |
| Products.SpinnerFollowsLastEvent | src/screens/ProductsScreen.tsx:103-122 | After any run of image callbacks, a product's spinner is on iff its most recent callback was a load start |
| Products.ErrorsAreSticky | src/screens/ProductsScreen.tsx:103-122 | After any run of callbacks, an id is in the error set iff it was already or some callback reported its failure |
| Products.FromInitialStatus | src/screens/ProductsScreen.tsx:103-122 | From the freshly mounted list, a card's spinner is on iff its latest callback was a load start, and it is marked broken iff some callback reported its failure |
| Products.ImageSource | src/screens/ProductsScreen.tsx:124-138 | A broken or empty image gives the logo, an http image is kept, a relative one is prefixed with the host; the result always starts with http |
| Products.FailedImageStaysLogo | src/screens/ProductsScreen.tsx:103-138 | Once an image has failed, no later callback brings it back: the card keeps showing the logo |
| Images.ResolvePath | src/screens/ProductsScreen.tsx:129-134 | An http path is kept, any other path is appended to the host and can be recovered by stripping the host; the result starts with http |
| Images.ResolveIdempotent | src/screens/ProductDetailScreen.tsx:92-94 | Resolving a resolved URL changes nothing |
| ProductDetail.MockProduct | src/screens/ProductDetailScreen.tsx:36-44 | The demo product carries the given id and is in stock |
| ProductDetail.LoadedProduct | src/screens/ProductDetailScreen.tsx:24-63 | An OK answer's body is used as is, null included; a non-OK answer gives the demo product with the requested id; an exception gives it with the route's id, or 1 when the id is empty or the route has no parameters |
| ProductDetail.AfterLoad | src/screens/ProductDetailScreen.tsx:31-61 | After the fetch effect loading is over; no product is held iff an OK answer had a null body; an OK answer's product is stored as is; the image flag is kept |
| ProductDetail.ShowsNotFound | src/screens/ProductDetailScreen.tsx:98-119 | The "Product not found" view is never shown while loading; once loading has ended it is shown exactly when pressing Add to Cart would do nothing |
| ProductDetail.NotFoundOnlyForNullBody | src/screens/ProductDetailScreen.tsx:24-119 | Once loaded, "Product not found" appears iff the route carried an id and the OK answer's body was null |
| ProductDetail.FallbackKeepsRequestedId | src/screens/ProductDetailScreen.tsx:34-51 | Whenever the request yields no product, a product is still shown and its id is the requested non-empty id |
| ProductDetail.InitialStateIsInert | src/screens/ProductDetailScreen.tsx:20-105 | The mounted screen is loading and does not show "Product not found"; Add to Cart does nothing and the image is the logo |
| ProductDetail.AddToCart | src/screens/ProductDetailScreen.tsx:68-82 | No product loaded is a no-op; out of stock only alerts; in stock reaches the store with the five fields copied |
| ProductDetail.AddToCartAgreesWithList | src/screens/ProductDetailScreen.tsx:68-82 | For a loaded product the detail screen makes the same add-to-cart decision as the list screen |
| ProductDetail.OnImageError | src/screens/ProductDetailScreen.tsx:128 | The error flag is set; the product and the loading flag are kept |
| ProductDetail.ImageSource | src/screens/ProductDetailScreen.tsx:87-96 | An error, no product or an empty image gives the logo; otherwise the image path is resolved; the result starts with http |
| ProductDetail.ImageSourceAgreesWithList | src/screens/ProductDetailScreen.tsx:87-96 | The detail and list screens choose the same URL for a product whenever their error records agree |
| Checkout.Set | src/screens/CheckoutScreen.tsx:51-53 | The named address field takes the value; every other field is unchanged |
| Checkout.SetGetLaws | src/screens/CheckoutScreen.tsx:51-53 | Writing a field's own value back is a no-op; a second write to a field overrides the first |
| Checkout.InitialAddress | src/screens/CheckoutScreen.tsx:30-37 | Name and phone come from the signed-in user (empty without one); the other fields start empty |
| Checkout.InitialForm | src/screens/CheckoutScreen.tsx:30-39 | The form starts with that address, cash on delivery and no notes |
| Checkout.HandleInputChange | src/screens/CheckoutScreen.tsx:51-53 | Only the named address field changes; payment method and notes are kept |
| Checkout.FirstEmpty | src/screens/CheckoutScreen.tsx:56-63 | Returns the position of the first empty field of the list, or none iff all are filled |
| Checkout.RequiredFilledIff | src/screens/CheckoutScreen.tsx:56-63 | No required field is empty iff full name, phone, address, city and emirate are all filled |
| Checkout.Validate | src/screens/CheckoutScreen.tsx:55-71 | Valid iff the five required fields are filled and the phone has at least 10 characters; the field reported is the first empty one in the order full name, phone, address, city, emirate; the phone-length error occurs iff all five are filled and the phone is short |
| Checkout.ValidationIgnoresPostalCode | src/screens/CheckoutScreen.tsx:56 | Changing the postal code never changes the validation outcome |
| Checkout.EmptyPhoneIsMissing | src/screens/CheckoutScreen.tsx:58-68 | With a name, an empty phone is reported as a missing phone, not an invalid one |
| Checkout.EmirateChipFillsField | src/screens/CheckoutScreen.tsx:234-241 | Pressing an emirate chip writes its non-empty name into the emirate field, so validation never reports the emirate missing |
| Checkout.SpaceBeforeCapitals | src/screens/CheckoutScreen.tsx:60 | The result is one character longer per capital letter, and every capital in it follows a space |
| Checkout.SplitJoinRoundTrip | src/screens/CheckoutScreen.tsx:60 | Dropping each space that stands before a capital gives the key back, so the split keeps every character of the key in order and only inserts spaces |
| Checkout.FieldLabel | src/screens/CheckoutScreen.tsx:60 | The field name in the alert has no capitals and is the key lengthened by one space per capital |
| Checkout.ValidationMessage | src/screens/CheckoutScreen.tsx:55-71 | An alert body is produced iff validation fails |
| Checkout.MissingFieldMessage | src/screens/CheckoutScreen.tsx:58-62 | A missing required field's alert reads "Please fill in " followed by "full name" or the one-word key |
| Checkout.FullNameLabel | src/screens/CheckoutScreen.tsx:60 | The alert names the fullName field as "full name" |
| Checkout.PostalCodeLabel | src/screens/CheckoutScreen.tsx:60 | The postalCode key splits into "postal code" |
| Checkout.OneWordFieldLabels | src/screens/CheckoutScreen.tsx:60 | Single-word field keys appear unchanged in the alert |
| Checkout.OrderLines | src/screens/CheckoutScreen.tsx:82-87 | One line per cart item, in cart order, with productId the item id and name, price and quantity copied |
| Checkout.OrderLinesKeepValue | src/screens/CheckoutScreen.tsx:82-87 | The order lines are worth, in price times quantity, exactly what the cart items are worth |
| Checkout.BuildOrder | src/screens/CheckoutScreen.tsx:80-94 | The order carries exactly the projected cart lines, the store's total, status pending, and the form's address, payment method and notes |
| Checkout.OrderTotalMatchesLines | src/screens/CheckoutScreen.tsx:80-94 | When the store's total is the sum of its lines, the submitted total equals the sum over the order's own lines |
| Checkout.PlaceOrder | src/screens/CheckoutScreen.tsx:73-138 | An empty cart shows no form; a failed validation submits nothing; otherwise the order built from cart and form is submitted; a placed order carries the service's order id; the cart is cleared iff the service's answer is accepted and untouched otherwise |
| Checkout.ResponseOnlyDecidesOutcome | src/screens/CheckoutScreen.tsx:73-106 | Whether an order is submitted, and which one, does not depend on the service's answer; only placed versus failed does |
| Checkout.CartKeptUnlessAccepted | src/screens/CheckoutScreen.tsx:96-133 | Unless the service accepted the order, the cart is left as it was |
| Checkout.FreshFormNeedsAddress | src/screens/CheckoutScreen.tsx:30-63 | A form pre-filled from the user still stops at the missing street address |
| Register.HandleInputChange | src/screens/RegisterScreen.tsx:25-27 | Only the named form field changes |
| Register.InputChangeKeepsForm | src/screens/RegisterScreen.tsx:25-27 | Writing a field's own value back leaves the form unchanged |
| Register.Validate | src/screens/RegisterScreen.tsx:31-44 | Missing first name, last name, email or password comes first; then a password mismatch; then a password under 6 characters; ready iff all three checks pass |
| Register.CheckMessage | src/screens/RegisterScreen.tsx:32-42 | A validation alert body exists for every failed check and none for a ready form |
| Register.CheckMessageInjective | src/screens/RegisterScreen.tsx:32-42 | Each failed check has its own alert body |
| Register.OptionalFieldsIgnored | src/screens/RegisterScreen.tsx:31-44 | Company, phone and role never change the validation outcome |
| Register.Payload | src/screens/RegisterScreen.tsx:48-56 | The payload copies first name, last name, email, password, company, phone and role verbatim |
| Register.PayloadLosesNothing | src/screens/RegisterScreen.tsx:36-56 | For a validated form, the form is recovered exactly from its payload, since only the redundant confirmation is dropped |
| Register.PayloadIgnoresConfirmation | src/screens/RegisterScreen.tsx:48-56 | The payload does not depend on the confirmation field |
| Register.HandleRegister | src/screens/RegisterScreen.tsx:29-64 | register is called iff validation passes, with the payload; success iff it does not throw |
| Register.InitialFormIsBlocked | src/screens/RegisterScreen.tsx:11-34 | The initial form (role Professional, all else empty) is stopped as missing required fields |
| Login.Toggle | src/screens/LoginScreen.tsx:139 | The switch link always changes the mode |
| Login.ToggleTwice | src/screens/LoginScreen.tsx:139 | Toggling twice restores the mode |
| Login.Submit | src/screens/LoginScreen.tsx:25-45 | Empty email or password blocks first; in sign-up mode an empty name blocks; otherwise exactly one call: login(email, password) or register(name, email, password, phone) |
| Login.InitialFormNeedsCredentials | src/screens/LoginScreen.tsx:15-28 | Submitting the untouched form, in either mode, only asks for email and password |
| Login.SubmitCallsIff | src/screens/LoginScreen.tsx:26-45 | A call is made iff email and password are filled and, in sign-up mode, the name is too |
| Login.SignInIgnoresName | src/screens/LoginScreen.tsx:31-34 | In sign-in mode the name never affects the submission |
| Login.PhoneNeverBlocks | src/screens/LoginScreen.tsx:26-45 | The phone never decides whether a call is made |
| Login.ResultAlert | src/screens/LoginScreen.tsx:47-51 | The result alert is titled Success iff the store reported success, Error otherwise |
| Login.ResultAlertInjective | src/screens/LoginScreen.tsx:47-51 | Distinct (mode, success) pairs give distinct result alerts |
| Login.HandleSubmit | src/screens/LoginScreen.tsx:25-57 | The alert shown for each validation failure, a rejected call, and a resolved call; "Success" iff a call resolved with success |
| Orders.StatusColor | src/screens/OrdersScreen.tsx:108-117 | The grey default colour is returned iff the status is not one of the five known ones |
| Orders.StatusColorsDistinct | src/screens/OrdersScreen.tsx:108-115 | The five known statuses get pairwise distinct colours |
| Orders.StatusText | src/screens/OrdersScreen.tsx:119-128 | A known status is shown capitalised; any other string is shown unchanged |
| Orders.StatusTextRoundTrip | src/screens/OrdersScreen.tsx:119-128 | Lower-casing a known status's text gives the status back |
| Orders.DeliveryLabel | src/screens/OrdersScreen.tsx:211-214 | The delivery row appears iff a non-empty delivery date is present; it reads "Delivered on:" iff the order is delivered, "Estimated delivery:" otherwise |
| Orders.ShowsReorder | src/screens/OrdersScreen.tsx:203 | Reorder is offered exactly for the orders whose badge has the delivered colour |
| Orders.ReorderAgreesWithDeliveryLabel | src/screens/OrdersScreen.tsx:203-214 | Where a delivery row is shown, Reorder is offered iff the row says the order was delivered |
| Orders.SampleOrders | src/screens/OrdersScreen.tsx:65-99 | Two sample orders with distinct ids, each addressed to the signed-in user's name, or John Doe without one |
| Orders.SampleOrdersConsistent | src/screens/OrdersScreen.tsx:65-99 | Every sample order's total equals the sum of price times quantity over its items, and its status is a known one |
| Orders.LoadOrders | src/screens/OrdersScreen.tsx:43-63 | The service's list is used when it answers; any failure shows the two sample orders |
| SkinAnalysis.CatalogueShape | src/screens/SkinAnalysisScreen.tsx:21-70 | Six entries with pairwise distinct ids, each with four characteristics and two recommended products |
| SkinAnalysis.Select | src/screens/SkinAnalysisScreen.tsx:72-74 | The new id replaces the selection; completion is unchanged |
| SkinAnalysis.Complete | src/screens/SkinAnalysisScreen.tsx:76-81 | Without a selection the state is unchanged; with one, the analysis is complete and the selection kept |
| SkinAnalysis.CompleteDisabled | src/screens/SkinAnalysisScreen.tsx:188-192 | Before completion, the button is disabled exactly when pressing it would change nothing |
| SkinAnalysis.EnabledButtonCompletes | src/screens/SkinAnalysisScreen.tsx:188-192 | Pressing the complete button while it is enabled completes the analysis |
| SkinAnalysis.SelectionAndCompletionPersist | src/screens/SkinAnalysisScreen.tsx:72-90 | No sequence of handler calls clears a selection or undoes a completion |
| SkinAnalysis.CompletionNeedsSelection | src/screens/SkinAnalysisScreen.tsx:72-90 | From any state in which completion implies a selection, in particular the initial one, a completed analysis always has a selection |
| SkinAnalysis.Find | src/screens/SkinAnalysisScreen.tsx:92 | A lookup result exists iff some entry has the id, and it is an entry with that id |
| SkinAnalysis.FindIsUnique | src/screens/SkinAnalysisScreen.tsx:92 | With distinct ids the entry found is the unique entry with that id |
| SkinAnalysis.SelectedSkin | src/screens/SkinAnalysisScreen.tsx:92 | The details shown are a catalogue entry whose id is the selection; nothing is shown without a selection |
| SkinAnalysis.SelectedSkinAbsentIff | src/screens/SkinAnalysisScreen.tsx:92 | No details are shown iff nothing is selected or the id is not in the catalogue |
| SkinAnalysis.SelectShowsEntry | src/screens/SkinAnalysisScreen.tsx:72-92 | Selecting a catalogue entry's id shows exactly that entry |
| SkinAnalysis.CompletedAnalysisHasDetails | src/screens/SkinAnalysisScreen.tsx:72-165 | While only catalogue cards are pressed the selection stays a catalogue id, and a completed analysis always has details to show |
| SkinAnalysis.CompletedFromStartHasDetails | src/screens/SkinAnalysisScreen.tsx:72-165 | From a fresh screen, pressing only catalogue cards, a completed analysis always shows its details |

## Left out

- The cart and auth stores (`CartContext`, `AuthContext`) are not part of this model. `addToCart`, `clearCart`, `isInCart`, `login`, `register`, `totalPrice` and the signed-in user appear only as parameters or as returned requests.
- `fetch`, `response.json`, `Alert.alert`, navigation and `Linking`: I/O. The model returns the resulting outcome value, and remote answers are parameters.
- `fetchProducts` on the list screen only stores the response, or an empty list on failure. It is I/O glue with no decision beyond that.
- `toLowerCase` is modelled as ASCII lower-casing; Unicode case mapping is not modelled.
- String lengths are counted in Unicode characters. JavaScript's `length` counts UTF-16 code units, so the two differ only for characters outside the Basic Multilingual Plane, which matters for the checkout phone-length check and the registration password-length check.
- Prices are integers. Floating-point arithmetic and `toFixed` are not modelled. The `createdAt` timestamp and `formatDate` are opaque strings or not modelled.
- Checkout.PlaceOrder: an OK answer whose body fails to parse takes the catch path; the model folds it into `NetworkError`, so the order is reported failed and the cart kept although the service stored it.
- Checkout.PlaceOrder: the source clears the cart from the success alert's OK button. The model clears it on the success path itself, because no other handler runs in between.
- ProductDetail.LoadedProduct: a route whose parameters exist but lack `productId` is not modelled. The route either has no parameters or carries a string id.
- ProductDetail.LoadedProduct: an OK body is either a product record or null. A body of any other shape, and a `json()` call that throws, are not modelled.
- React state scheduling and async ordering: each handler is one atomic state transition.
- Styling, JSX layout, the cart screen, the profile screen, the home and training screens, the footers and the font constants carry no decisions of their own.

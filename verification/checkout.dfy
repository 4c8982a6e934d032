/**
 * The checkout screen: the shipping-address form, its validation, the order
 * record built from the cart, and what placing the order does to the cart.
 */
module Checkout {
  import opened Common
  import opened Text
  import opened Seqs

  // ---------------------------------------------------------------------------
  // Shipping address form
  // ---------------------------------------------------------------------------

  datatype ShippingAddress = ShippingAddress(
    fullName: string,
    phone: string,
    address: string,
    city: string,
    emirate: string,
    postalCode: string)

  datatype AddressField = FullName | Phone | Address | City | Emirate | PostalCode

  /** The property name of a field in the address record. */
  function FieldKey(f: AddressField): string {
    match f
    case FullName => "fullName"
    case Phone => "phone"
    case Address => "address"
    case City => "city"
    case Emirate => "emirate"
    case PostalCode => "postalCode"
  }

  function Get(a: ShippingAddress, f: AddressField): string {
    match f
    case FullName => a.fullName
    case Phone => a.phone
    case Address => a.address
    case City => a.city
    case Emirate => a.emirate
    case PostalCode => a.postalCode
  }

  /** `handleInputChange(field, value)`: `{ ...prev, [field]: value }`. */
  function Set(a: ShippingAddress, f: AddressField, v: string): (r: ShippingAddress)
    ensures Get(r, f) == v
    ensures forall g :: g != f ==> Get(r, g) == Get(a, g)
  {
    match f
    case FullName => a.(fullName := v)
    case Phone => a.(phone := v)
    case Address => a.(address := v)
    case City => a.(city := v)
    case Emirate => a.(emirate := v)
    case PostalCode => a.(postalCode := v)
  }

  /** Choosing an emirate chip never leaves the emirate missing. */
  lemma EmirateChipFillsField(form: CheckoutForm, i: nat)
    requires i < |Emirates|
    ensures Get(HandleInputChange(form, Emirate, Emirates[i]).address, Emirate) == Emirates[i] != ""
    ensures Validate(HandleInputChange(form, Emirate, Emirates[i]).address) != MissingField(Emirate)
  {
  }

  /** Writing back a field's own value changes nothing; a second write replaces the first. */
  lemma SetGetLaws(a: ShippingAddress, f: AddressField, v: string, w: string)
    ensures Set(a, f, Get(a, f)) == a
    ensures Set(Set(a, f, v), f, w) == Set(a, f, w)
  {
  }

  /** The signed-in user as far as the checkout reads it. */
  datatype User = User(id: string, name: string, phone: string)

  /** The form's first state: name and phone taken from the signed-in user, the rest empty. */
  function InitialAddress(user: Option<User>): (a: ShippingAddress)
    ensures user.None? ==> a.fullName == "" && a.phone == ""
    ensures user.Some? ==> a.fullName == user.value.name && a.phone == user.value.phone
    ensures a.address == "" && a.city == "" && a.emirate == "" && a.postalCode == ""
  {
    match user
    case None => ShippingAddress("", "", "", "", "", "")
    case Some(u) => ShippingAddress(u.name, u.phone, "", "", "", "")
  }

  /** The emirate chips; pressing one writes its name into the emirate field. */
  const Emirates: seq<string> := [
    "Abu Dhabi", "Dubai", "Sharjah", "Ajman", "Umm Al Quwain", "Ras Al Khaimah", "Fujairah"]

  // ---------------------------------------------------------------------------
  // Validation
  // ---------------------------------------------------------------------------

  /** The fields `validateForm` requires, in the order it checks them. */
  const RequiredFields: seq<AddressField> := [FullName, Phone, Address, City, Emirate]

  const MinPhoneLength: nat := 10

  /** Position in `fields` of the first empty field, if any. */
  function FirstEmpty(a: ShippingAddress, fields: seq<AddressField>): (r: Option<nat>)
    ensures r.None? <==> forall i :: 0 <= i < |fields| ==> Get(a, fields[i]) != ""
    ensures r.Some? ==> r.value < |fields| && Get(a, fields[r.value]) == ""
    ensures r.Some? ==> forall i :: 0 <= i < r.value ==> Get(a, fields[i]) != ""
  {
    if |fields| == 0 then None
    else if Get(a, fields[0]) == "" then Some(0)
    else match FirstEmpty(a, fields[1..])
      case None => None
      case Some(k) => Some(k + 1)
  }

  /** No required field is empty exactly when the five named fields are all filled. */
  lemma RequiredFilledIff(a: ShippingAddress)
    ensures FirstEmpty(a, RequiredFields).None? <==>
              a.fullName != "" && a.phone != "" && a.address != "" && a.city != "" && a.emirate != ""
  {
    assert RequiredFields[0] == FullName && RequiredFields[1] == Phone && RequiredFields[2] == Address;
    assert RequiredFields[3] == City && RequiredFields[4] == Emirate;
  }

  /** The outcome of `validateForm`: the alert it raises, or success. */
  datatype Validation = Valid | MissingField(field: AddressField) | InvalidPhone

  /** `validateForm`: the first empty required field, else a too-short phone, else success. */
  function Validate(a: ShippingAddress): (r: Validation)
    ensures r == Valid <==>
              && a.fullName != "" && a.phone != "" && a.address != "" && a.city != "" && a.emirate != ""
              && |a.phone| >= MinPhoneLength
    ensures r.MissingField? ==> r.field in RequiredFields && Get(a, r.field) == ""
    ensures forall k :: 0 <= k < |RequiredFields| && Get(a, RequiredFields[k]) == "" &&
                        (forall j :: 0 <= j < k ==> Get(a, RequiredFields[j]) != "") ==>
              r == MissingField(RequiredFields[k])
    ensures r == InvalidPhone <==>
              && a.fullName != "" && a.phone != "" && a.address != "" && a.city != "" && a.emirate != ""
              && |a.phone| < MinPhoneLength
  {
    RequiredFilledIff(a);
    match FirstEmpty(a, RequiredFields)
    case Some(k) => MissingField(RequiredFields[k])
    case None => if |a.phone| < MinPhoneLength then InvalidPhone else Valid
  }

  /** The postal code is optional: no value of it changes the validation outcome. */
  lemma ValidationIgnoresPostalCode(a: ShippingAddress, v: string)
    ensures Validate(Set(a, PostalCode, v)) == Validate(a)
  {
    var b := Set(a, PostalCode, v);
    forall i | 0 <= i < |RequiredFields|
      ensures Get(b, RequiredFields[i]) == Get(a, RequiredFields[i])
    {
    }
  }

  /** An empty phone is reported as missing, never as invalid. */
  lemma EmptyPhoneIsMissing(a: ShippingAddress)
    requires a.phone == "" && a.fullName != ""
    ensures Validate(a) == MissingField(Phone)
  {
    assert RequiredFields[1] == Phone;
  }

  /** The number of ASCII capitals in `s`. */
  function CountCapitals(s: string): nat {
    if |s| == 0 then 0 else (if IsUpperAscii(s[0]) then 1 else 0) + CountCapitals(s[1..])
  }

  /** `field.replace(/([A-Z])/g, ' $1')`: a space before every capital letter. */
  function SpaceBeforeCapitals(s: string): (r: string)
    ensures |r| == |s| + CountCapitals(s)
    ensures forall i :: 0 <= i < |r| && IsUpperAscii(r[i]) ==> 0 < i && r[i - 1] == ' '
  {
    if |s| == 0 then ""
    else (if IsUpperAscii(s[0]) then [' ', s[0]] else [s[0]]) + SpaceBeforeCapitals(s[1..])
  }

  /** The field name as the validation alert spells it: the key split at capitals, in lower case. */
  function FieldLabel(f: AddressField): (r: string)
    ensures |r| == |FieldKey(f)| + CountCapitals(FieldKey(f))
    ensures forall i :: 0 <= i < |r| ==> !IsUpperAscii(r[i])
  {
    Lower(SpaceBeforeCapitals(FieldKey(f)))
  }

  /** The body of the validation alert; there is one exactly when validation fails. */
  function ValidationMessage(v: Validation): (r: Option<string>)
    ensures r.None? <==> v == Valid
  {
    match v
    case Valid => None
    case MissingField(f) => Some("Please fill in " + FieldLabel(f))
    case InvalidPhone => Some("Please enter a valid phone number")
  }

  /** Undoes the split: drops each space that stands right before a capital. */
  function JoinAtCapitals(r: string): string {
    if |r| == 0 then ""
    else if |r| >= 2 && r[0] == ' ' && IsUpperAscii(r[1]) then [r[1]] + JoinAtCapitals(r[2..])
    else [r[0]] + JoinAtCapitals(r[1..])
  }

  /** The split keeps every character of the key, in order: joining it gives the key back. */
  lemma {:induction false} SplitJoinRoundTrip(s: string)
    ensures JoinAtCapitals(SpaceBeforeCapitals(s)) == s
  {
    if |s| > 0 {
      var t := SpaceBeforeCapitals(s[1..]);
      SplitJoinRoundTrip(s[1..]);
      if IsUpperAscii(s[0]) {
        assert SpaceBeforeCapitals(s) == [' ', s[0]] + t;
        assert (([' ', s[0]] + t)[2..]) == t;
      } else {
        assert SpaceBeforeCapitals(s) == [s[0]] + t;
        assert ([s[0]] + t)[1..] == t;
        if |t| > 0 {
          assert !IsUpperAscii(t[0]);
        }
      }
    }
  }

  /** Splitting at capitals distributes over concatenation. */
  lemma {:induction false} SpaceBeforeCapitalsAppend(s: string, t: string)
    ensures SpaceBeforeCapitals(s + t) == SpaceBeforeCapitals(s) + SpaceBeforeCapitals(t)
  {
    if |s| == 0 {
      assert s + t == t;
    } else {
      assert (s + t)[1..] == s[1..] + t;
      SpaceBeforeCapitalsAppend(s[1..], t);
    }
  }

  /** A key without capitals is its own label. */
  lemma {:induction false} NoCapitalsUnchanged(s: string)
    requires forall i :: 0 <= i < |s| ==> !IsUpperAscii(s[i])
    ensures Lower(SpaceBeforeCapitals(s)) == s
  {
    if |s| > 0 {
      NoCapitalsUnchanged(s[1..]);
      assert SpaceBeforeCapitals(s) == [s[0]] + SpaceBeforeCapitals(s[1..]);
    }
  }

  /** The label of a two-word key `head` + capital + `rest`. */
  lemma TwoWordLabel(head: string, cap: char, rest: string)
    requires forall i :: 0 <= i < |head| ==> !IsUpperAscii(head[i])
    requires forall i :: 0 <= i < |rest| ==> !IsUpperAscii(rest[i])
    requires IsUpperAscii(cap)
    ensures Lower(SpaceBeforeCapitals(head + [cap] + rest)) == head + [' ', LowerChar(cap)] + rest
  {
    var h := SpaceBeforeCapitals(head);
    var c := SpaceBeforeCapitals([cap]);
    var t := SpaceBeforeCapitals(rest);
    SpaceBeforeCapitalsAppend(head + [cap], rest);
    SpaceBeforeCapitalsAppend(head, [cap]);
    assert c == [' ', cap] by {
      assert [cap][1..] == [];
    }
    NoCapitalsUnchanged(head);
    NoCapitalsUnchanged(rest);
    LowerAppend(h + c, t);
    LowerAppend(h, c);
    assert Lower(c) == [' ', LowerChar(cap)];
  }

  /** `fullName` reads as two words in the alerts. */
  lemma FullNameLabel()
    ensures FieldLabel(FullName) == "full name"
  {
    var key := FieldKey(FullName);
    assert key == "full" + ['N'] + "ame";
    TwoWordLabel("full", 'N', "ame");
  }

  /** `postalCode` reads as two words in the alerts. */
  lemma PostalCodeLabel()
    ensures FieldLabel(PostalCode) == "postal code"
  {
    var key := "postal" + ['C'] + "ode";
    assert forall i :: 0 <= i < |"postal"| ==> !IsUpperAscii("postal"[i]);
    assert forall i :: 0 <= i < |"ode"| ==> !IsUpperAscii("ode"[i]);
    TwoWordLabel("postal", 'C', "ode");
    assert Lower(SpaceBeforeCapitals(key)) == "postal code";
    assert FieldKey(PostalCode) == key;
  }

  /** The one-word keys are their own labels. */
  lemma OneWordFieldLabels(f: AddressField)
    requires f != FullName && f != PostalCode
    ensures FieldLabel(f) == FieldKey(f)
  {
    NoCapitalsUnchanged(FieldKey(f));
  }

  /**
   * The alert names a missing required field in words: "full name" for
   * `fullName`, the key itself for the one-word fields.
   */
  lemma MissingFieldMessage(f: AddressField)
    requires f in RequiredFields
    ensures ValidationMessage(MissingField(f)) ==
            Some("Please fill in " + (if f == FullName then "full name" else FieldKey(f)))
  {
    if f == FullName {
      FullNameLabel();
    } else {
      OneWordFieldLabels(f);
    }
  }

  // ---------------------------------------------------------------------------
  // Order construction and submission
  // ---------------------------------------------------------------------------

  /** A cart line as the cart store holds it. */
  datatype CartItem = CartItem(
    id: string,
    name: string,
    price: int,
    quantity: int,
    image: string,
    category: string)

  /** What the screen reads from the cart store; `totalPrice` is the store's own figure. */
  datatype Cart = Cart(items: seq<CartItem>, totalPrice: int)

  datatype OrderLine = OrderLine(productId: string, name: string, price: int, quantity: int)

  datatype Order = Order(
    userId: Option<string>,
    items: seq<OrderLine>,
    shippingAddress: ShippingAddress,
    paymentMethod: string,
    notes: string,
    total: int,
    status: string,
    createdAt: string)

  const PendingStatus: string := "pending"

  /** The whole form: address, payment choice (`cod` or `card`) and notes. */
  datatype CheckoutForm = CheckoutForm(address: ShippingAddress, paymentMethod: string, notes: string)

  function InitialForm(user: Option<User>): (form: CheckoutForm)
    ensures form.address == InitialAddress(user)
    ensures form.paymentMethod == "cod" && form.notes == ""
  {
    CheckoutForm(InitialAddress(user), "cod", "")
  }

  /** `handleInputChange` lifted to the whole form: only the address changes. */
  function HandleInputChange(form: CheckoutForm, f: AddressField, v: string): (r: CheckoutForm)
    ensures Get(r.address, f) == v
    ensures forall g :: g != f ==> Get(r.address, g) == Get(form.address, g)
    ensures r.paymentMethod == form.paymentMethod && r.notes == form.notes
  {
    form.(address := Set(form.address, f, v))
  }

  function ItemValue(item: CartItem): int {
    LineAmount(item.price, item.quantity)
  }

  function LineValue(line: OrderLine): int {
    LineAmount(line.price, line.quantity)
  }

  /** `items.map(...)`: one order line per cart line, in cart order. */
  function OrderLines(items: seq<CartItem>): (lines: seq<OrderLine>)
    ensures |lines| == |items|
    ensures forall i :: 0 <= i < |items| ==>
              && lines[i].productId == items[i].id
              && lines[i].name == items[i].name
              && lines[i].price == items[i].price
              && lines[i].quantity == items[i].quantity
  {
    if |items| == 0 then []
    else [OrderLine(items[0].id, items[0].name, items[0].price, items[0].quantity)] + OrderLines(items[1..])
  }

  /** The lines are worth what the cart lines are worth. */
  lemma {:induction false} OrderLinesKeepValue(items: seq<CartItem>)
    ensures Sum(OrderLines(items), LineValue) == Sum(items, ItemValue)
  {
    if |items| > 0 {
      OrderLinesKeepValue(items[1..]);
      assert OrderLines(items)[1..] == OrderLines(items[1..]);
    }
  }

  /** The order object `handlePlaceOrder` submits. */
  function BuildOrder(cart: Cart, form: CheckoutForm, user: Option<User>, createdAt: string): (o: Order)
    ensures o.items == OrderLines(cart.items)
    ensures o.total == cart.totalPrice && o.status == PendingStatus
    ensures o.shippingAddress == form.address && o.paymentMethod == form.paymentMethod && o.notes == form.notes
    ensures o.userId == (if user.Some? then Some(user.value.id) else None)
  {
    Order(
      if user.Some? then Some(user.value.id) else None,
      OrderLines(cart.items),
      form.address,
      form.paymentMethod,
      form.notes,
      cart.totalPrice,
      PendingStatus,
      createdAt)
  }

  /** When the store's total is the sum of its lines, the order's total is the sum of the order's lines. */
  lemma OrderTotalMatchesLines(cart: Cart, form: CheckoutForm, user: Option<User>, createdAt: string)
    requires cart.totalPrice == Sum(cart.items, ItemValue)
    ensures BuildOrder(cart, form, user, createdAt).total == Sum(BuildOrder(cart, form, user, createdAt).items, LineValue)
  {
    OrderLinesKeepValue(cart.items);
  }

  /**
   * The order service's answer to the POST. `NetworkError` is every path
   * into the catch block: a thrown `fetch`, and also an OK answer whose body
   * fails to parse, in which case the service did accept the order but the
   * screen still reports a failure and keeps the cart.
   */
  datatype OrderResponse = Accepted(orderId: string) | Refused | NetworkError

  datatype PlaceOrderResult =
    | EmptyCart                          // the screen shows the empty-cart view; there is no button
    | Invalid(reason: Validation)        // validation alert, nothing submitted
    | Placed(order: Order, orderId: string)
    | Failed(order: Order)               // submitted, then the error alert

  datatype PlaceOrderStep = PlaceOrderStep(result: PlaceOrderResult, cartAfter: seq<CartItem>)

  /** Pressing "Place Order", with the service's answer as a parameter. */
  function PlaceOrder(cart: Cart, form: CheckoutForm, user: Option<User>, createdAt: string,
                      response: OrderResponse): (r: PlaceOrderStep)
    ensures r.result.EmptyCart? <==> |cart.items| == 0
    ensures r.result.Invalid? <==> |cart.items| > 0 && Validate(form.address) != Valid
    ensures r.result.Invalid? ==> r.result.reason == Validate(form.address)
    ensures r.result.Placed? <==> |cart.items| > 0 && Validate(form.address) == Valid && response.Accepted?
    ensures r.result.Placed? || r.result.Failed? ==> r.result.order == BuildOrder(cart, form, user, createdAt)
    ensures r.result.Placed? ==> r.result.orderId == response.orderId
    ensures r.result.Placed? ==> r.cartAfter == []
    ensures !r.result.Placed? ==> r.cartAfter == cart.items
  {
    if |cart.items| == 0 then PlaceOrderStep(EmptyCart, cart.items)
    else
      var v := Validate(form.address);
      if v != Valid then PlaceOrderStep(Invalid(v), cart.items)
      else
        var order := BuildOrder(cart, form, user, createdAt);
        match response
        case Accepted(id) => PlaceOrderStep(Placed(order, id), [])
        case Refused => PlaceOrderStep(Failed(order), cart.items)
        case NetworkError => PlaceOrderStep(Failed(order), cart.items)
  }

  /**
   * The service's answer decides only whether the order counts as placed:
   * whether an order is submitted, and which, depends on the cart and form alone.
   */
  lemma ResponseOnlyDecidesOutcome(cart: Cart, form: CheckoutForm, user: Option<User>, createdAt: string,
                                   r1: OrderResponse, r2: OrderResponse)
    ensures var a := PlaceOrder(cart, form, user, createdAt, r1).result;
            var b := PlaceOrder(cart, form, user, createdAt, r2).result;
            && (a.Placed? || a.Failed? <==> b.Placed? || b.Failed?)
            && (a.Placed? || a.Failed? ==> a.order == b.order)
            && (a.EmptyCart? <==> b.EmptyCart?)
            && (a.Invalid? ==> a == b)
  {
  }

  /** The cart is left as it was unless the service accepted the order. */
  lemma CartKeptUnlessAccepted(cart: Cart, form: CheckoutForm, user: Option<User>, createdAt: string,
                               response: OrderResponse)
    requires !response.Accepted?
    ensures PlaceOrder(cart, form, user, createdAt, response).cartAfter == cart.items
  {
  }

  /** A form straight from sign-in always needs a street address before an order can go out. */
  lemma FreshFormNeedsAddress(cart: Cart, user: User, createdAt: string, response: OrderResponse)
    requires |cart.items| > 0 && user.name != "" && user.phone != ""
    ensures PlaceOrder(cart, InitialForm(Some(user)), Some(user), createdAt, response).result
              == Invalid(MissingField(Address))
  {
    assert RequiredFields[2] == Address;
  }
}

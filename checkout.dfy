/** The checkout page: form validation, shipping and totals, the order payload,
    and how `handleSubmit` routes the order service's reply. The order service
    is outside the model; its reply (or the error it threw) is an input, and
    navigation and alerts come back as an outcome value. */
module Checkout {
  import opened Wrappers
  import opened Text
  import opened Types
  import opened Lists
  import opened CartLines
  import CartStore

  // ---------------------------------------------------------------------------
  // Form

  datatype CheckoutForm = CheckoutForm(
    fullName: string,
    email: string,
    phone: string,
    address: string,
    city: string,
    state: string,
    paymentMethod: string)

  /** The form as the page first renders it. */
  function EmptyForm(): (form: CheckoutForm)
    ensures forall f :: FieldValue(form, f) == ""
    ensures form.paymentMethod == "paystack"
  {
    CheckoutForm("", "", "", "", "", "", "paystack")
  }

  /** The six text inputs, by their `name` attribute. */
  datatype Field = FullName | Email | Phone | Address | City | State

  function FieldValue(form: CheckoutForm, field: Field): string {
    match field
    case FullName => form.fullName
    case Email => form.email
    case Phone => form.phone
    case Address => form.address
    case City => form.city
    case State => form.state
  }

  /** The inputs wired to `handleChange`, by their `name` attribute: the six
      text inputs and the `paymentMethod` radio group. */
  datatype InputName = TextInput(field: Field) | PaymentMethodInput

  /** `handleChange`: `{...prev, [name]: value}`. */
  function WithInput(form: CheckoutForm, name: InputName, value: string): (r: CheckoutForm)
    ensures name.TextInput? ==> FieldValue(r, name.field) == value && r.paymentMethod == form.paymentMethod
    ensures name.PaymentMethodInput? ==> r.paymentMethod == value
    ensures forall f :: name != TextInput(f) ==> FieldValue(r, f) == FieldValue(form, f)
  {
    match name
    case PaymentMethodInput => form.(paymentMethod := value)
    case TextInput(FullName) => form.(fullName := value)
    case TextInput(Email) => form.(email := value)
    case TextInput(Phone) => form.(phone := value)
    case TextInput(Address) => form.(address := value)
    case TextInput(City) => form.(city := value)
    case TextInput(State) => form.(state := value)
  }

  // ---------------------------------------------------------------------------
  // Validation

  /** None of the six fields is blank once trimmed (one `trim()` test per field). */
  predicate RequiredFilled(form: CheckoutForm): (ok: bool)
    ensures ok ==> forall f :: FieldValue(form, f) != ""
  {
    forall f :: !IsBlank(FieldValue(form, f))
  }

  /** The required check passes exactly when every field has a character that
      is not whitespace. */
  lemma RequiredFilledIff(form: CheckoutForm)
    ensures RequiredFilled(form) <==> forall f :: !AllSpace(FieldValue(form, f))
  {
    forall f ensures IsBlank(FieldValue(form, f)) <==> AllSpace(FieldValue(form, f)) {
      BlankIffAllSpace(FieldValue(form, f));
    }
  }

  /** `[^\s@]`: any character but whitespace and `@`. */
  predicate IsEmailChar(c: char) {
    !IsSpace(c) && c != '@'
  }

  predicate AllEmailChars(s: string) {
    forall i :: 0 <= i < |s| ==> IsEmailChar(s[i])
  }

  /** Position of the first `@`. */
  function IndexOfAt(s: string): (r: Option<nat>)
    ensures r.Some? ==> r.value < |s| && s[r.value] == '@'
    ensures r.Some? ==> forall j :: 0 <= j < r.value ==> s[j] != '@'
    ensures r.None? ==> forall j :: 0 <= j < |s| ==> s[j] != '@'
  {
    if s == [] then None
    else if s[0] == '@' then Some(0)
    else match IndexOfAt(s[1..])
      case None => None
      case Some(k) => Some(k + 1)
  }

  /** `[^\s@]+\.[^\s@]+`: no whitespace or `@`, and a `.` that is neither the
      first nor the last character. */
  predicate IsEmailDomain(d: string) {
    AllEmailChars(d) && exists i :: 0 < i < |d| - 1 && d[i] == '.'
  }

  /** The test of `/^[^\s@]+@[^\s@]+\.[^\s@]+$/` written with character
      predicates: a non-empty local part before the first `@`, then a domain. */
  predicate IsEmail(s: string): (ok: bool)
    ensures ok ==> |s| >= |"a@b.c"|
  {
    match IndexOfAt(s)
    case None => false
    case Some(k) => 0 < k && AllEmailChars(s[..k]) && IsEmailDomain(s[k + 1..])
  }

  /** The pattern read literally: three non-empty runs of `[^\s@]` joined by `@`
      and `.`. */
  ghost predicate EmailPattern(s: string) {
    exists local: string, host: string, tld: string ::
      && |local| > 0 && |host| > 0 && |tld| > 0
      && AllEmailChars(local) && AllEmailChars(host) && AllEmailChars(tld)
      && s == local + "@" + host + "." + tld
  }

  lemma AllEmailCharsConcat(a: string, b: string)
    ensures AllEmailChars(a + b) <==> AllEmailChars(a) && AllEmailChars(b)
  {
    assert forall j :: 0 <= j < |a| ==> a[j] == (a + b)[j];
    assert forall j :: 0 <= j < |b| ==> b[j] == (a + b)[|a| + j];
  }

  lemma EmailToPattern(s: string)
    requires IsEmail(s)
    ensures EmailPattern(s)
  {
    var k := IndexOfAt(s).value;
    var local, d := s[..k], s[k + 1..];
    var i :| 0 < i < |d| - 1 && d[i] == '.';
    var host, tld := d[..i], d[i + 1..];
    assert d == host + "." + tld;
    AllEmailCharsConcat(host + ".", tld);
    AllEmailCharsConcat(host, ".");
    assert s == local + "@" + d;
    assert s == local + "@" + host + "." + tld;
  }

  lemma PatternToEmail(s: string, local: string, host: string, tld: string)
    requires |local| > 0 && |host| > 0 && |tld| > 0
    requires AllEmailChars(local) && AllEmailChars(host) && AllEmailChars(tld)
    requires s == local + "@" + host + "." + tld
    ensures IsEmail(s)
  {
    var k := |local|;
    var d := host + "." + tld;
    assert s == local + "@" + d;
    assert IndexOfAt(s) == Some(k) by {
      assert s[k] == '@';
      assert forall j :: 0 <= j < k ==> s[j] == local[j];
    }
    assert s[..k] == local;
    assert s[k + 1..] == d;
    assert d[|host|] == '.';
    AllEmailCharsConcat(host, ".");
    AllEmailCharsConcat(host + ".", tld);
  }

  /** The character-predicate test accepts exactly the strings the pattern matches. */
  lemma EmailIffPattern(s: string)
    ensures IsEmail(s) <==> EmailPattern(s)
  {
    if IsEmail(s) {
      EmailToPattern(s);
    }
    if EmailPattern(s) {
      var local: string, host: string, tld: string :|
        && |local| > 0 && |host| > 0 && |tld| > 0
        && AllEmailChars(local) && AllEmailChars(host) && AllEmailChars(tld)
        && s == local + "@" + host + "." + tld;
      PatternToEmail(s, local, host, tld);
    }
  }

  /** An accepted email is never blank, so the email check alone would already
      reject a blank email. */
  lemma EmailNotBlank(s: string)
    requires IsEmail(s)
    ensures !IsBlank(s)
  {
    var k := IndexOfAt(s).value;
    assert s[0] == s[..k][0];
    BlankIffAllSpace(s);
  }

  /** `[\d\s\-\+\(\)]`: an ASCII digit, whitespace, `-`, `+`, `(` or `)`. */
  predicate IsPhoneChar(c: char) {
    ('0' <= c <= '9') || IsSpace(c) || c == '-' || c == '+' || c == '(' || c == ')'
  }

  /** The test of `/^[\d\s\-\+\(\)]+$/`. */
  predicate IsPhone(s: string): (ok: bool)
    ensures ok ==> s != "" && forall i :: 0 <= i < |s| ==> !('a' <= s[i] <= 'z') && !('A' <= s[i] <= 'Z')
  {
    |s| > 0 && forall i :: 0 <= i < |s| ==> IsPhoneChar(s[i])
  }

  /** A phone of spaces passes the phone pattern: only the required-fields check,
      which runs first, rejects it. */
  lemma BlankPhonePassesPattern()
    ensures IsPhone("  ") && IsBlank("  ")
  {
    BlankIffAllSpace("  ");
  }

  datatype ValidationError = MissingFields | InvalidEmail | InvalidPhone

  /** The alert shown for each validation failure. */
  function ValidationMessage(e: ValidationError): string {
    match e
    case MissingFields => "Please fill in all required fields"
    case InvalidEmail => "Please enter a valid email address"
    case InvalidPhone => "Please enter a valid phone number"
  }

  /** The checks run in the order required fields, email, phone; the first
      failure decides the error. The email test runs on the untrimmed string. */
  function Validate(form: CheckoutForm): (r: Option<ValidationError>)
    ensures r.None? <==> RequiredFilled(form) && EmailPattern(form.email) && IsPhone(form.phone)
    ensures r == Some(MissingFields) <==> !RequiredFilled(form)
    ensures r == Some(InvalidEmail) <==> RequiredFilled(form) && !EmailPattern(form.email)
    ensures r == Some(InvalidPhone) <==> RequiredFilled(form) && EmailPattern(form.email) && !IsPhone(form.phone)
  {
    EmailIffPattern(form.email);
    if !RequiredFilled(form) then Some(MissingFields)
    else if !IsEmail(form.email) then Some(InvalidEmail)
    else if !IsPhone(form.phone) then Some(InvalidPhone)
    else None
  }

  /** A form whose only fault is the email "not-an-email" is rejected for its email. */
  lemma RejectsNotAnEmail(form: CheckoutForm)
    requires RequiredFilled(form) && form.email == "not-an-email"
    ensures Validate(form) == Some(InvalidEmail)
  {
    var email := form.email;
    assert IndexOfAt(email).None? by {
      assert forall j :: 0 <= j < |email| ==> email[j] != '@';
    }
    assert !IsEmail(email);
  }

  // ---------------------------------------------------------------------------
  // Pricing

  const FreeShippingThreshold: int := 50000
  const FlatShippingFee: int := 3000

  /** `totalPrice > 50000 ? 0 : 3000`. */
  function ShippingFee(subtotal: int): (fee: int)
    ensures fee == 0 <==> subtotal > FreeShippingThreshold
    ensures fee == 0 || fee == FlatShippingFee
  {
    if subtotal > FreeShippingThreshold then 0 else FlatShippingFee
  }

  /** `totalPrice + shippingFee`: never below the subtotal and at most one flat
      fee above it, equal to it exactly when shipping is free. */
  function FinalTotal(subtotal: int): (total: int)
    ensures total == subtotal + ShippingFee(subtotal)
    ensures subtotal <= total <= subtotal + FlatShippingFee
    ensures total == subtotal <==> subtotal > FreeShippingThreshold
  {
    subtotal + ShippingFee(subtotal)
  }

  lemma ShippingExamples()
    ensures ShippingFee(50000) == 3000 && FinalTotal(50000) == 53000
    ensures ShippingFee(60000) == 0 && FinalTotal(60000) == 60000
    ensures ShippingFee(20000) == 3000 && FinalTotal(20000) == 23000
  {
  }

  /** What the page shows: an empty cart sends the shopper to the cart page;
      otherwise the order summary with subtotal, shipping and total. */
  datatype CheckoutView = RedirectToCart | Summary(subtotal: int, shipping: int, total: int)

  function View(lines: seq<CartLine>): (v: CheckoutView)
    ensures v.RedirectToCart? <==> lines == []
    ensures v.Summary? ==> v.subtotal == TotalPrice(lines)
    ensures v.Summary? ==> v.shipping == ShippingFee(v.subtotal)
    ensures v.Summary? ==> (v.shipping == 0 <==> v.subtotal > FreeShippingThreshold)
    ensures v.Summary? ==> v.total == v.subtotal + v.shipping
  {
    if lines == [] then RedirectToCart
    else Summary(TotalPrice(lines), ShippingFee(TotalPrice(lines)), FinalTotal(TotalPrice(lines)))
  }

  // ---------------------------------------------------------------------------
  // Order payload

  datatype OrderItem = OrderItem(productId: string, size: string, quantity: int, price: int)

  datatype Customer = Customer(
    fullName: string, email: string, phone: string, address: string, city: string, state: string)

  datatype OrderPayload = OrderPayload(
    items: seq<OrderItem>,
    customer: Customer,
    paymentMethod: string,
    subtotal: int,
    shipping: int,
    total: int)

  function ItemOf(line: CartLine): OrderItem {
    OrderItem(line.product.id, line.size, line.quantity, line.product.price)
  }

  /** The request body of `createOrder`: the cart lines mapped one to one, the
      customer fields as typed (untrimmed), and the page's three amounts. */
  function BuildPayload(lines: seq<CartLine>, form: CheckoutForm): (p: OrderPayload)
    ensures |p.items| == |lines|
    ensures forall i :: 0 <= i < |lines| ==>
      && p.items[i].productId == lines[i].product.id && p.items[i].size == lines[i].size
      && p.items[i].quantity == lines[i].quantity && p.items[i].price == lines[i].product.price
    ensures p.customer == Customer(form.fullName, form.email, form.phone, form.address, form.city, form.state)
    ensures p.paymentMethod == form.paymentMethod
    ensures p.subtotal == TotalPrice(lines)
    ensures p.shipping == ShippingFee(p.subtotal) && p.total == p.subtotal + p.shipping
  {
    var subtotal := TotalPrice(lines);
    OrderPayload(
      seq(|lines|, i requires 0 <= i < |lines| => ItemOf(lines[i])),
      Customer(form.fullName, form.email, form.phone, form.address, form.city, form.state),
      form.paymentMethod,
      subtotal,
      ShippingFee(subtotal),
      FinalTotal(subtotal))
  }

  /** Price times quantity of one order item. */
  function ItemAmount(item: OrderItem): int {
    item.price * item.quantity
  }

  lemma {:induction false} ItemsTotalMatches(lines: seq<CartLine>, items: seq<OrderItem>)
    requires |items| == |lines| && forall i :: 0 <= i < |lines| ==> items[i] == ItemOf(lines[i])
    ensures SumBy(items, ItemAmount) == TotalPrice(lines)
  {
    if lines != [] {
      ItemsTotalMatches(lines[..|lines| - 1], items[..|items| - 1]);
    }
  }

  /** The payload is self-consistent: its subtotal is the sum over its own items,
      and its total adds the shipping fee to that. */
  lemma PayloadConsistent(lines: seq<CartLine>, form: CheckoutForm)
    ensures var p := BuildPayload(lines, form);
      var sum := SumBy(p.items, ItemAmount);
      sum == p.subtotal && p.total == sum + ShippingFee(sum)
  {
    ItemsTotalMatches(lines, BuildPayload(lines, form).items);
  }

  // ---------------------------------------------------------------------------
  // Reply routing

  /** What `createOrder` did: resolved with `{paymentUrl?, orderId?}`, or threw
      an error that may carry `response.data.message`. */
  datatype OrderReply =
    | Created(paymentUrl: Option<string>, orderId: Option<string>)
    | Threw(serverMessage: Option<string>)

  /** JavaScript truthiness of an optional string. */
  predicate Truthy(o: Option<string>) {
    o.Some? && o.value != ""
  }

  const GenericOrderError: string := "There was an error processing your order. Please try again."
  const UnknownOrderId: string := "unknown"

  /** Where a submission ends: a validation alert, a full-page redirect to the
      payment gateway, the local success page, or an error alert. */
  datatype SubmitOutcome =
    | Invalid(error: ValidationError)
    | GoToGateway(url: string)
    | GoToSuccess(orderId: string)
    | OrderFailed(message: string)

  /** The branch taken on the order service's reply. A payment URL wins over an
      order id; an order id is passed to the success page, otherwise "unknown";
      a thrown error shows the server's message or the generic text. */
  function Route(reply: OrderReply): (out: SubmitOutcome)
    ensures out.GoToGateway? <==> reply.Created? && Truthy(reply.paymentUrl)
    ensures out.GoToGateway? ==> out.url == reply.paymentUrl.value
    ensures out.GoToSuccess? <==> reply.Created? && !Truthy(reply.paymentUrl)
    ensures out.GoToSuccess? && Truthy(reply.orderId) ==> out.orderId == reply.orderId.value
    ensures out.GoToSuccess? && !Truthy(reply.orderId) ==> out.orderId == "unknown"
    ensures out.OrderFailed? <==> reply.Threw?
    ensures out.OrderFailed? ==>
      out.message == (if Truthy(reply.serverMessage) then reply.serverMessage.value else GenericOrderError)
    ensures !out.Invalid?
  {
    match reply
    case Threw(m) => OrderFailed(if Truthy(m) then m.value else GenericOrderError)
    case Created(url, id) =>
      if Truthy(url) then GoToGateway(url.value)
      else GoToSuccess(if Truthy(id) then id.value else UnknownOrderId)
  }

  /** Whether `clearCart()` runs for this reply: exactly when the shopper is sent
      to the success page, never on a gateway redirect or an error. */
  predicate ClearsCart(reply: OrderReply): (clears: bool)
    ensures clears <==> Route(reply).GoToSuccess?
  {
    reply.Created? && !Truthy(reply.paymentUrl)
  }

  // ---------------------------------------------------------------------------
  // The page

  class CheckoutPage {
    /** The cart this page reads and clears. */
    const cart: CartStore.Cart
    /** The `formData` state cell. */
    var form: CheckoutForm
    /** The `loading` state cell; the submit button is disabled while it is set. */
    var loading: bool

    constructor (cart: CartStore.Cart)
      ensures this.cart == cart && form == EmptyForm() && !loading
    {
      this.cart := cart;
      form := EmptyForm();
      loading := false;
    }

    /** `handleChange` for one text input or the payment-method radio group. */
    method HandleChange(name: InputName, value: string)
      modifies this
      ensures form == WithInput(old(form), name, value) && loading == old(loading)
    {
      form := WithInput(form, name, value);
    }

    /** `handleSubmit`, with the order service's reply as input. A failing
        validation returns before `loading` is set and before any payload is
        sent. Otherwise the payload is built from the current cart, the reply is
        routed, the cart is cleared only on the way to the success page, and
        `loading` is reset on every path. */
    method HandleSubmit(reply: OrderReply) returns (outcome: SubmitOutcome, sent: Option<OrderPayload>)
      requires cart.Valid()
      modifies this, cart
      ensures cart.Valid() && form == old(form)
      ensures match Validate(form)
        case Some(e) =>
          && outcome == Invalid(e) && sent.None?
          && cart.items == old(cart.items) && loading == old(loading)
        case None =>
          && sent == Some(BuildPayload(old(cart.items), form))
          && outcome == Route(reply)
          && cart.items == (if ClearsCart(reply) then [] else old(cart.items))
          && !loading
    {
      var error := Validate(form);
      if error.Some? {
        outcome, sent := Invalid(error.value), None;
        return;
      }
      loading := true;
      var payload := BuildPayload(cart.items, form);
      sent := Some(payload);
      match reply {
        case Threw(m) =>
          outcome := OrderFailed(if Truthy(m) then m.value else GenericOrderError);
        case Created(url, id) =>
          if Truthy(url) {
            outcome := GoToGateway(url.value);
          } else if Truthy(id) {
            cart.ClearCart();
            outcome := GoToSuccess(id.value);
          } else {
            cart.ClearCart();
            outcome := GoToSuccess(UnknownOrderId);
          }
      }
      loading := false;
    }
  }
}

/**
 * The checkout page (src/pages/Checkout.tsx): address validation, the tax
 * arithmetic, invoice construction and the address -> payment -> invoice flow.
 */
module Checkout {
  import opened Types
  import opened Text
  import opened CartContext

  // ---------------------------------------------------------------------------
  // Address validation

  /** The required address fields. The landmark is not one of them. */
  datatype Field = Name | Email | Phone | Street | City | State | Pincode

  /** The order in which the required fields are checked. */
  const RequiredFields: seq<Field> := [Name, Email, Phone, Street, City, State, Pincode]

  function FieldValue(a: Address, f: Field): string {
    match f
    case Name => a.name
    case Email => a.email
    case Phone => a.phone
    case Street => a.street
    case City => a.city
    case State => a.state
    case Pincode => a.pincode
  }

  /** The position of a field in the checking order. */
  function Rank(f: Field): nat {
    match f
    case Name => 0
    case Email => 1
    case Phone => 2
    case Street => 3
    case City => 4
    case State => 5
    case Pincode => 6
  }

  /** The key the "Please fill in …" message names. */
  function FieldKey(f: Field): string {
    match f
    case Name => "name"
    case Email => "email"
    case Phone => "phone"
    case Street => "street"
    case City => "city"
    case State => "state"
    case Pincode => "pincode"
  }

  datatype AddressError = MissingField(field: Field) | InvalidPhone | InvalidPincode

  datatype Validation = Accepted | Rejected(error: AddressError)

  /** The message shown for each rejection. */
  function ErrorMessage(e: AddressError): string {
    match e
    case MissingField(f) => "Please fill in " + FieldKey(f)
    case InvalidPhone => "Please enter a valid 10-digit phone number"
    case InvalidPincode => "Please enter a valid 6-digit pincode"
  }

  /** The first field of `fields` that is empty in `a`. */
  function FirstEmpty(a: Address, fields: seq<Field>): Option<Field> {
    if fields == [] then None
    else if FieldValue(a, fields[0]) == "" then Some(fields[0])
    else FirstEmpty(a, fields[1..])
  }

  /** The verdict of the address form. */
  function CheckAddress(a: Address): Validation {
    match FirstEmpty(a, RequiredFields)
    case Some(f) => Rejected(MissingField(f))
    case None =>
      if !IsDigitRun(a.phone, 10) then Rejected(InvalidPhone)
      else if !IsDigitRun(a.pincode, 6) then Rejected(InvalidPincode)
      else Accepted
  }

  predicate RequiredPresent(a: Address) {
    a.name != "" && a.email != "" && a.phone != "" && a.street != ""
    && a.city != "" && a.state != "" && a.pincode != ""
  }

  /** `validateAddress`: scan the required fields, then the phone and pincode patterns. */
  method ValidateAddress(a: Address) returns (v: Validation)
    ensures v == CheckAddress(a)
  {
    var i := 0;
    while i < |RequiredFields|
      invariant 0 <= i <= |RequiredFields|
      invariant FirstEmpty(a, RequiredFields) == FirstEmpty(a, RequiredFields[i..])
    {
      var field := RequiredFields[i];
      assert RequiredFields[i..][1..] == RequiredFields[i + 1..];
      if FieldValue(a, field) == "" {
        return Rejected(MissingField(field));
      }
      i := i + 1;
    }
    if !IsDigitRun(a.phone, 10) {
      return Rejected(InvalidPhone);
    }
    if !IsDigitRun(a.pincode, 6) {
      return Rejected(InvalidPincode);
    }
    return Accepted;
  }

  /** The scan reports the empty field that comes first in checking order. */
  lemma {:induction false} FirstEmptyIsFirst(a: Address, fields: seq<Field>)
    ensures FirstEmpty(a, fields).None? <==> forall k :: 0 <= k < |fields| ==> FieldValue(a, fields[k]) != ""
    ensures FirstEmpty(a, fields).Some? ==>
      exists k :: 0 <= k < |fields| && fields[k] == FirstEmpty(a, fields).value
        && FieldValue(a, fields[k]) == ""
        && forall j :: 0 <= j < k ==> FieldValue(a, fields[j]) != ""
  {
    if fields != [] && FieldValue(a, fields[0]) != "" {
      FirstEmptyIsFirst(a, fields[1..]);
      if FirstEmpty(a, fields[1..]).Some? {
        var k :| 0 <= k < |fields[1..]| && fields[1..][k] == FirstEmpty(a, fields[1..]).value
          && FieldValue(a, fields[1..][k]) == ""
          && forall j :: 0 <= j < k ==> FieldValue(a, fields[1..][j]) != "";
        assert fields[k + 1] == fields[1..][k];
        assert forall j :: 1 <= j < k + 1 ==> fields[j] == fields[1..][j - 1];
      } else {
        assert forall k :: 1 <= k < |fields| ==> fields[k] == fields[1..][k - 1];
      }
    } else if fields != [] {
      assert fields[0] == FirstEmpty(a, fields).value;
    }
  }

  /** An address is accepted iff every required field is filled, the phone is 10 digits and the pincode 6. */
  lemma CheckAddressAccepts(a: Address)
    ensures CheckAddress(a) == Accepted <==>
      RequiredPresent(a) && IsDigitRun(a.phone, 10) && IsDigitRun(a.pincode, 6)
  {
    FirstEmptyIsFirst(a, RequiredFields);
    if !RequiredPresent(a) {
      assert exists k :: 0 <= k < |RequiredFields| && FieldValue(a, RequiredFields[k]) == "" by {
        if a.name == "" { assert FieldValue(a, RequiredFields[0]) == ""; }
        else if a.email == "" { assert FieldValue(a, RequiredFields[1]) == ""; }
        else if a.phone == "" { assert FieldValue(a, RequiredFields[2]) == ""; }
        else if a.street == "" { assert FieldValue(a, RequiredFields[3]) == ""; }
        else if a.city == "" { assert FieldValue(a, RequiredFields[4]) == ""; }
        else if a.state == "" { assert FieldValue(a, RequiredFields[5]) == ""; }
        else { assert FieldValue(a, RequiredFields[6]) == ""; }
      }
    }
  }

  /** A missing-field rejection names an empty field, and every field checked before it is filled. */
  lemma CheckAddressMissing(a: Address, f: Field)
    ensures CheckAddress(a) == Rejected(MissingField(f)) <==>
      FieldValue(a, f) == "" && forall g: Field :: Rank(g) < Rank(f) ==> FieldValue(a, g) != ""
  {
    FirstEmptyIsFirst(a, RequiredFields);
    assert forall k :: 0 <= k < |RequiredFields| ==> Rank(RequiredFields[k]) == k;
    assert forall g: Field :: RequiredFields[Rank(g)] == g;
  }

  /** With every required field filled, the phone is checked before the pincode. */
  lemma PhoneCheckedBeforePincode(a: Address)
    requires RequiredPresent(a) && !IsDigitRun(a.phone, 10)
    ensures CheckAddress(a) == Rejected(InvalidPhone)
  {
    FirstEmptyIsFirst(a, RequiredFields);
  }

  /** The landmark never affects the verdict. */
  lemma LandmarkNeverRequired(a: Address, landmark: string)
    ensures CheckAddress(a.(landmark := landmark)) == CheckAddress(a)
  {
    var b := a.(landmark := landmark);
    FirstEmptyReadsFields(a, b, RequiredFields);
  }

  /** The scan depends only on the values of the fields it is given. */
  lemma {:induction false} FirstEmptyReadsFields(a: Address, b: Address, fields: seq<Field>)
    requires forall f :: FieldValue(a, f) == FieldValue(b, f)
    ensures FirstEmpty(a, fields) == FirstEmpty(b, fields)
  {
    if fields != [] {
      FirstEmptyReadsFields(a, b, fields[1..]);
    }
  }

  // ---------------------------------------------------------------------------
  // Totals

  /** The fixed GST rate, 18%. */
  const GstRate: real := 0.18

  datatype Totals = Totals(subtotal: int, gst: real, total: real)

  /** `calculateTotals`: the subtotal is the cart total, GST is 18% of it, the total their sum. */
  function CalculateTotals(cartTotal: int): (t: Totals)
    ensures t.subtotal == cartTotal
    ensures t.gst == cartTotal as real * 18.0 / 100.0
    ensures t.total == t.subtotal as real + t.gst
    ensures t.total == cartTotal as real * 118.0 / 100.0
  {
    var gst := cartTotal as real * GstRate;
    Totals(cartTotal, gst, cartTotal as real + gst)
  }

  // ---------------------------------------------------------------------------
  // Invoice

  function InvoiceLine(item: CartItem): InvoiceItem {
    InvoiceItem(item.product.name, item.quantity, item.product.price, item.product.price * item.quantity)
  }

  /** `cart.items.map(...)`: one invoice line per cart line, in the same order. */
  function InvoiceLines(items: seq<CartItem>): (r: seq<InvoiceItem>)
    ensures |r| == |items|
    ensures forall i :: 0 <= i < |r| ==>
      r[i].productName == items[i].product.name && r[i].quantity == items[i].quantity
      && r[i].price == items[i].product.price && r[i].total == r[i].price * r[i].quantity
  {
    seq(|items|, i requires 0 <= i < |items| => InvoiceLine(items[i]))
  }

  function LineAmount(line: InvoiceItem): int {
    line.total
  }

  /** Σ of the invoice line totals. */
  function LinesTotal(lines: seq<InvoiceItem>): int {
    SumOf(lines, LineAmount)
  }

  /** The invoice lines add up to the cart total. */
  lemma LinesTotalIsCartTotal(items: seq<CartItem>)
    ensures LinesTotal(InvoiceLines(items)) == Total(items)
  {
    SumOfPointwise(InvoiceLines(items), LineAmount, items, LineTotal);
  }

  function PaymentLabel(paymentMethod: string): string {
    if paymentMethod == "cod" then "Cash on Delivery" else "Online Payment"
  }

  /** `INV-${Date.now()}`: the clock reading `now` is supplied by the caller. */
  function InvoiceId(now: nat): string {
    "INV-" + NatToString(now)
  }

  /** Orders placed at different clock readings get different invoice ids. */
  lemma InvoiceIdInjective(a: nat, b: nat)
    ensures InvoiceId(a) == InvoiceId(b) ==> a == b
  {
    if InvoiceId(a) == InvoiceId(b) {
      assert NatToString(a) == InvoiceId(a)[4..];
      assert NatToString(b) == InvoiceId(b)[4..];
      DecimalRoundTrip(a);
      DecimalRoundTrip(b);
    }
  }

  /** `generateInvoice`: a snapshot of the cart, the address and the payment choice. */
  function GenerateInvoice(items: seq<CartItem>, cartTotal: int, address: Address,
                           paymentMethod: string, now: nat): (inv: Invoice)
    ensures inv.orderStatus == Confirmed
    ensures inv.paymentMethod == "Cash on Delivery" <==> paymentMethod == "cod"
    ensures inv.paymentMethod != "Cash on Delivery" ==> inv.paymentMethod == "Online Payment"
    ensures inv.address == address && inv.subtotal == cartTotal
    ensures inv.gst == cartTotal as real * GstRate && inv.total == inv.subtotal as real + inv.gst
    ensures inv.items == InvoiceLines(items)
  {
    var t := CalculateTotals(cartTotal);
    Invoice(InvoiceId(now), now, InvoiceLines(items), t.subtotal, t.gst, t.total,
            address, PaymentLabel(paymentMethod), Confirmed)
  }

  /** An invoice built from a consistent cart: its subtotal is the sum of its lines. */
  lemma InvoiceAddsUp(items: seq<CartItem>, address: Address, paymentMethod: string, now: nat)
    ensures var inv := GenerateInvoice(items, Total(items), address, paymentMethod, now);
      inv.subtotal == LinesTotal(inv.items) && inv.total == LinesTotal(inv.items) as real * 1.18
  {
    LinesTotalIsCartTotal(items);
  }

  // ---------------------------------------------------------------------------
  // The page's flow

  /** What the page shows. */
  datatype Screen = RedirectToCart | InvoiceScreen(invoice: Invoice) | AddressStep | PaymentStep

  function InitialName(user: Option<User>): string {
    if user.Some? && user.value.displayName.Some? then user.value.displayName.value else ""
  }

  function InitialEmail(user: Option<User>): string {
    if user.Some? then user.value.email else ""
  }

  class CheckoutPage {
    const cart: CartStore
    var currentStep: int
    var showInvoice: bool
    var generatedInvoice: Option<Invoice>
    var address: Address
    var paymentMethod: string

    ghost predicate Valid()
      reads this, cart
    {
      cart.Valid() && (currentStep == 1 || currentStep == 2)
      && (showInvoice <==> generatedInvoice.Some?)
    }

    /** An empty cart with no invoice redirects to the cart; an invoice, once made, is shown. */
    function View(): (r: Screen)
      reads this, cart
      ensures r == RedirectToCart <==> |cart.items| == 0 && !showInvoice
      ensures r.InvoiceScreen? <==> showInvoice && generatedInvoice.Some?
    {
      if |cart.items| == 0 && !showInvoice then RedirectToCart
      else if showInvoice && generatedInvoice.Some? then InvoiceScreen(generatedInvoice.value)
      else if currentStep == 1 then AddressStep
      else PaymentStep
    }

    /** The page opens on the address step, pre-filled with the user's name and email. */
    constructor (cart: CartStore, user: Option<User>)
      requires cart.Valid()
      ensures Valid() && this.cart == cart
      ensures currentStep == 1 && !showInvoice && generatedInvoice == None
      ensures address == Address(InitialName(user), InitialEmail(user), "", "", "", "", "", "")
      ensures paymentMethod == "cod"
    {
      this.cart := cart;
      currentStep := 1;
      showInvoice := false;
      generatedInvoice := None;
      address := Address(InitialName(user), InitialEmail(user), "", "", "", "", "", "");
      paymentMethod := "cod";
    }

    /** Typing into the address form. */
    method EditAddress(a: Address)
      modifies this`address
      ensures address == a
    {
      address := a;
    }

    /** Choosing a payment option. */
    method SelectPaymentMethod(m: string)
      modifies this`paymentMethod
      ensures paymentMethod == m
    {
      paymentMethod := m;
    }

    /** `handleAddressSubmit`: move on to payment only when the address is accepted. */
    method HandleAddressSubmit() returns (v: Validation)
      requires Valid() && View() == AddressStep
      modifies this`currentStep
      ensures Valid()
      ensures v == CheckAddress(address)
      ensures currentStep == (if v == Accepted then 2 else 1)
      ensures View() == (if v == Accepted then PaymentStep else AddressStep)
    {
      v := ValidateAddress(address);
      if v == Accepted {
        currentStep := 2;
      }
    }

    /** "Back to Address": return to the form with the entered fields intact. */
    method BackToAddress()
      requires Valid() && View() == PaymentStep
      modifies this`currentStep
      ensures Valid() && currentStep == 1 && View() == AddressStep
      ensures address == old(address)
    {
      currentStep := 1;
    }

    /**
     * `handlePlaceOrder`: the invoice is built from the cart as it stood before
     * the order, then the cart is cleared and the invoice is shown.
     */
    method HandlePlaceOrder(now: nat)
      requires Valid() && View() == PaymentStep
      modifies this, cart
      ensures Valid()
      ensures generatedInvoice == Some(GenerateInvoice(old(cart.items), old(cart.total), address, paymentMethod, now))
      ensures showInvoice && View() == InvoiceScreen(generatedInvoice.value)
      ensures cart.items == [] && cart.total == 0 && cart.itemCount == 0
      ensures address == old(address) && paymentMethod == old(paymentMethod) && currentStep == old(currentStep)
    {
      var invoice := GenerateInvoice(cart.items, cart.total, address, paymentMethod, now);
      generatedInvoice := Some(invoice);
      showInvoice := true;
      cart.ClearCart();
    }
  }
}

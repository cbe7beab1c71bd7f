/**
 * Concrete cases of the storefront's stated behaviour, proved from the
 * contracts of the model: merging repeated adds, removal by a zero quantity,
 * address examples, the tax on 1000, and the catalog filter on two products.
 */
module Scenarios {
  import opened Types
  import opened Text
  import opened CartContext
  import Checkout
  import Dashboard

  /** Adding a product twice, one unit each time, yields one line of two units. */
  lemma AddingTwiceMergesLines(p: Product)
    ensures Added(Added([], p, 1), p, 1) == [CartItem(p, 2)]
    ensures Total(Added(Added([], p, 1), p, 1)) == 2 * p.price
    ensures ItemCount(Added(Added([], p, 1), p, 1)) == 2
  {
    AddedTwice([], p, 1, 1);
    var x := CartItem(p, 2);
    assert [x][..|[x]| - 1] == [];
    assert SumOf([x], LineTotal) == LineTotal(x);
    assert SumOf([x], LineQuantity) == LineQuantity(x);
  }

  /** A client of the cart store: add twice, then set the quantity to zero. */
  method CartSession(p: Product)
  {
    var cart := new CartStore();
    cart.AddToCart(p, 1);
    cart.AddToCart(p, 1);
    AddingTwiceMergesLines(p);
    assert cart.items == [CartItem(p, 2)] && cart.itemCount == 2 && cart.total == 2 * p.price;
    cart.UpdateQuantity(p.id, 0);
    RemovedAt([CartItem(p, 2)], p.id, 0);
    assert cart.items == [] && cart.total == 0 && cart.itemCount == 0;
  }

  const SampleAddress: Address :=
    Address("Asha", "asha@example.com", "9876543210", "12 MG Road", "Bengaluru", "Karnataka", "560001", "")

  /** The sample address passes; a 5-digit phone or a 4-digit pincode is refused by name. */
  lemma AddressExamples()
    ensures Checkout.CheckAddress(SampleAddress) == Checkout.Accepted
    ensures Checkout.CheckAddress(SampleAddress.(phone := "12345")) == Checkout.Rejected(Checkout.InvalidPhone)
    ensures Checkout.CheckAddress(SampleAddress.(pincode := "1234")) == Checkout.Rejected(Checkout.InvalidPincode)
    ensures Checkout.CheckAddress(SampleAddress.(city := "")) == Checkout.Rejected(Checkout.MissingField(Checkout.City))
  {
    Checkout.CheckAddressAccepts(SampleAddress);
    Checkout.CheckAddressAccepts(SampleAddress.(phone := "12345"));
    Checkout.PhoneCheckedBeforePincode(SampleAddress.(phone := "12345"));
    Checkout.CheckAddressAccepts(SampleAddress.(pincode := "1234"));
    Checkout.CheckAddressMissing(SampleAddress.(city := ""), Checkout.City);
  }

  /** A subtotal of 1000 carries 180 GST and totals 1180. */
  lemma TotalsExample()
    ensures Checkout.CalculateTotals(1000) == Checkout.Totals(1000, 180.0, 1180.0)
  {
  }

  const Phone: Product :=
    Product("p1", "iPhone 15", "", 999, "smartphone", true, Some(25), "a.jpg", None, None)
  const Buds: Product :=
    Product("p2", "Galaxy Buds", "", 149, "accessory", true, Some(5), "b.jpg", None, None)

  lemma PhoneMatchesIphone()
    ensures Dashboard.MatchesSearch(Phone, "iphone")
  {
    assert ToLower("iphone") == "iphone";
    assert ToLower("iPhone 15") == "iphone 15";
    assert StartsWith("iphone 15", "iphone");
  }

  lemma BudsMissIphone()
    ensures !Dashboard.MatchesSearch(Buds, "iphone")
  {
    var name := ToLower("Galaxy Buds");
    assert ToLower("iphone") == "iphone";
    assert name == "galaxy buds";
    assert forall k :: 0 <= k < |name| ==> name[k] != 'i';
    IncludesIffOccurs(name, "iphone");
    forall i: nat
      ensures !OccursAt(name, "iphone", i)
    {
      if i + 6 <= |name| {
        assert name[i..i + 6][0] == name[i];
      }
    }
    assert !Includes("", "iphone");
  }

  /** Searching "iphone" finds the phone only; the "accessory" category the buds only; "all" both. */
  lemma FilterExamples()
    ensures Dashboard.FilteredProducts([Phone, Buds], "iphone", "all") == [Phone]
    ensures Dashboard.FilteredProducts([Phone, Buds], "", "accessory") == [Buds]
    ensures Dashboard.FilteredProducts([Phone, Buds], "", "all") == [Phone, Buds]
  {
    PhoneMatchesIphone();
    BudsMissIphone();
    IncludesEmpty(ToLower(Phone.name));
    IncludesEmpty(ToLower(Buds.name));
    assert [Phone, Buds][1..] == [Buds];
    assert [Buds][1..] == [];
    Dashboard.EmptySearchShowsAll([Phone, Buds]);
  }
}

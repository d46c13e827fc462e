/**
 * The checkout page (src/pages/Checkout.tsx): its own address list with
 * add-only editing, the three-step state machine, and the order summary
 * with tax.
 */
module Checkout {
  import opened Common
  import CartPage

  // ------------------------------------------------------------ addresses

  datatype Address = Address(
    id: int,
    name: string,
    phone: string,
    email: string,
    addressLine1: string,
    addressLine2: string,
    city: string,
    state: string,
    pincode: string,
    isDefault: bool)

  /** The new-address form's fields. */
  datatype AddressDraft = AddressDraft(
    name: string,
    phone: string,
    email: string,
    addressLine1: string,
    addressLine2: string,
    city: string,
    state: string,
    pincode: string)

  const BlankDraft: AddressDraft := AddressDraft("", "", "", "", "", "", "", "")

  const InitialAddress: Address :=
    Address(1, "John Doe", "+91 98765 43210", "john@example.com", "123 Main Street", "Apartment 4B",
            "New Delhi", "Delhi", "110001", true)

  /** The list after `handleAddAddress`: the draft appended with id count + 1, default iff the list was empty. */
  function WithAddress(addrs: seq<Address>, d: AddressDraft): seq<Address>
  {
    addrs + [Address(|addrs| + 1, d.name, d.phone, d.email, d.addressLine1, d.addressLine2, d.city,
                     d.state, d.pincode, |addrs| == 0)]
  }

  /** Ids are 1, 2, ..., n in order. */
  predicate NumberedFromOne(addrs: seq<Address>)
  {
    forall i :: 0 <= i < |addrs| ==> addrs[i].id == i + 1
  }

  function DraftOf(a: Address): AddressDraft
  {
    AddressDraft(a.name, a.phone, a.email, a.addressLine1, a.addressLine2, a.city, a.state, a.pincode)
  }

  /**
   * Adding appends the draft as address number n + 1, the default only for
   * an empty list, and keeps ids numbered 1..n+1 and hence distinct (the page
   * offers no delete).
   */
  lemma WithAddressNumbering(addrs: seq<Address>, d: AddressDraft)
    requires NumberedFromOne(addrs)
    ensures NumberedFromOne(WithAddress(addrs, d))
    ensures WithAddress(addrs, d)[..|addrs|] == addrs
    ensures var a := WithAddress(addrs, d)[|addrs|];
            DraftOf(a) == d && a.id == |addrs| + 1 && (a.isDefault <==> addrs == [])
    ensures forall i, j :: 0 <= i < j < |WithAddress(addrs, d)| ==>
              WithAddress(addrs, d)[i].id != WithAddress(addrs, d)[j].id
  {
  }

  // --------------------------------------------------------------- totals

  /** `Math.round(subtotal * 0.18)` in exact arithmetic: 18% rounded to the nearest rupee, halves up. */
  function Tax(subtotal: int): int
  {
    (18 * subtotal + 50) / 100
  }

  /** The tax is within half a rupee of 18% of the subtotal, a half rounding up, and never negative. */
  lemma TaxIsRounded(subtotal: int)
    ensures -50 < 100 * Tax(subtotal) - 18 * subtotal <= 50
    ensures subtotal >= 0 ==> Tax(subtotal) >= 0
  {
    var q, r := (18 * subtotal + 50) / 100, (18 * subtotal + 50) % 100;
    assert 18 * subtotal + 50 == 100 * q + r;
  }

  function Total(subtotal: int): int
  {
    subtotal + CartPage.Shipping(subtotal) + Tax(subtotal)
  }

  /** The checkout total is the cart page's total plus the tax, with the same shipping rule. */
  lemma TotalIsCartTotalPlusTax(subtotal: int)
    ensures Total(subtotal) == CartPage.Total(subtotal) + Tax(subtotal)
    ensures Total(subtotal) - subtotal - Tax(subtotal) == if subtotal > 2000 then 0 else 99
  {
  }

  // ---------------------------------------------------------------- steps

  /** What `handlePlaceOrder` does, in order: the alert, then emptying the cart. */
  datatype Effect = Alert(message: string) | ClearCart

  /** The page's state. */
  class CheckoutPage {
    var currentStep: int
    var selectedAddress: Option<int>
    var paymentMethod: string
    var showAddressForm: bool
    var addresses: seq<Address>
    var newAddress: AddressDraft

    /**
     * What holds in every reachable state: ids numbered from one, no payment
     * method chosen (nothing on the page sets it), and hence never past the
     * payment step.
     */
    predicate Valid()
      reads this
    {
      NumberedFromOne(addresses) && paymentMethod == "" && currentStep in {1, 2}
    }

    constructor()
      ensures currentStep == 1 && selectedAddress == Some(1) && paymentMethod == ""
      ensures !showAddressForm && addresses == [InitialAddress] && newAddress == BlankDraft
      ensures Valid()
    {
      currentStep := 1;
      selectedAddress := Some(1);
      paymentMethod := "";
      showAddressForm := false;
      addresses := [InitialAddress];
      newAddress := BlankDraft;
    }

    /** Clicking an address card or its radio button. */
    method SelectAddress(id: int)
      requires Valid()
      modifies this
      ensures selectedAddress == Some(id)
      ensures currentStep == old(currentStep) && addresses == old(addresses)
      ensures Valid()
    {
      selectedAddress := Some(id);
    }

    /** "Add New Address" and "Cancel". */
    method SetShowAddressForm(show: bool)
      requires Valid()
      modifies this
      ensures showAddressForm == show && addresses == old(addresses) && newAddress == old(newAddress)
      ensures currentStep == old(currentStep) && selectedAddress == old(selectedAddress)
      ensures Valid()
    {
      showAddressForm := show;
    }

    /** Typing into the new-address form. */
    method EditNewAddress(d: AddressDraft)
      requires Valid()
      modifies this
      ensures newAddress == d && addresses == old(addresses) && showAddressForm == old(showAddressForm)
      ensures currentStep == old(currentStep) && selectedAddress == old(selectedAddress)
      ensures Valid()
    {
      newAddress := d;
    }

    /** `handleAddAddress`: append the draft, blank the form and hide it. */
    method HandleAddAddress()
      requires Valid()
      modifies this
      ensures addresses == WithAddress(old(addresses), old(newAddress))
      ensures newAddress == BlankDraft && !showAddressForm
      ensures currentStep == old(currentStep) && selectedAddress == old(selectedAddress)
      ensures Valid()
    {
      WithAddressNumbering(addresses, newAddress);
      var address := Address(|addresses| + 1, newAddress.name, newAddress.phone, newAddress.email,
                             newAddress.addressLine1, newAddress.addressLine2, newAddress.city,
                             newAddress.state, newAddress.pincode, |addresses| == 0);
      addresses := addresses + [address];
      newAddress := BlankDraft;
      showAddressForm := false;
    }

    /** "Continue to Payment" on step 1: disabled unless an address (a non-zero id) is selected. */
    method ContinueToPayment()
      requires Valid() && currentStep == 1
      modifies this
      ensures currentStep == if selectedAddress.Some? && selectedAddress.value != 0 then 2 else 1
      ensures selectedAddress == old(selectedAddress) && addresses == old(addresses)
      ensures Valid()
    {
      if selectedAddress.Some? && selectedAddress.value != 0 {
        currentStep := 2;
      }
    }

    /** "Back" on step 2: always enabled. */
    method Back()
      requires Valid() && currentStep == 2
      modifies this
      ensures currentStep == 1
      ensures selectedAddress == old(selectedAddress) && addresses == old(addresses)
      ensures Valid()
    {
      currentStep := 1;
    }

    /** "Review Order" on step 2: disabled while no payment method is chosen, which is always. */
    method ReviewOrder()
      requires currentStep == 2
      modifies this
      ensures currentStep == if paymentMethod != "" then 3 else 2
      ensures paymentMethod == old(paymentMethod) && addresses == old(addresses)
      ensures old(Valid()) ==> currentStep == 2 && Valid()
    {
      if paymentMethod != "" {
        currentStep := 3;
      }
    }

    /** `handlePlaceOrder`: an alert, then the cart is emptied; the page's own state is untouched. */
    method HandlePlaceOrder() returns (effects: seq<Effect>)
      ensures effects == [Alert("Order placed successfully!"), ClearCart]
    {
      effects := [Alert("Order placed successfully!"), ClearCart];
    }
  }
}

/**
 * Worked sequences of calls on a fresh store, derived from the contracts
 * alone, as a client of the store and of the page script would see them.
 */
module Scenarios {

  import opened Wrappers
  import opened Products
  import opened Orders
  import opened Events
  import opened Store
  import opened Checkout

  /**
   * Choosing a payment method and then typing an address publishes
   * `order:ready` once, after the second verdict, with both fields filled.
   */
  method ReadyOnSecondField() returns (log: seq<Event>)
    ensures log == [
      FormPaymentInvalidChange(map[Address := AddressRequired]),
      FormPaymentInvalidChange(map[]),
      OrderReady(Order("", "", [], "cash", "Moscow, 1", 0))]
  {
    var bus := new EventBus();
    var app := new AppData(bus);
    app.SetOrderField(Payment, "cash");
    app.SetOrderField(Address, "Moscow, 1");
    log := bus.log;
  }

  /** The checks are presence-only: any non-empty email and phone pass. */
  lemma PresenceOnly()
    ensures ValidateContacts(Order("bad", "123", [], "", "", 0)) == map[]
    ensures ValidateAddress(EmptyOrder) == map[Payment := PaymentRequired, Address := AddressRequired]
  {
  }

  /**
   * Two products in an empty basket, a filled draft and an accepted order:
   * the posted order lists both ids in basket order with total 350, the
   * success view shows that total, and the basket is empty afterwards.
   */
  method CheckoutTwoProducts() returns (posted: Order, view: Option<SuccessView>, left: seq<Product>)
    ensures posted == Order("e@e.com", "+71234567890", ["p1", "p2"], "cash", "A", 350)
    ensures view == Some(SuccessView(2, 350))
    ensures left == []
  {
    var p1 := Product("p1", "One", "", "other", Some(100), "one.svg");
    var p2 := Product("p2", "Two", "", "other", Some(250), "two.svg");
    var bus := new EventBus();
    var app := new AppData(bus);
    ToggleProductInBasket(app, p1);
    assert app.basket == [p1];
    ToggleProductInBasket(app, p2);
    assert app.basket == [p1, p2];
    FillDraft(app);
    assert Total([p1, p2]) == 350 by {
      assert [p1, p2][..1] == [p1] && [p1][..0] == [];
      assert Total([p1]) == 100;
    }
    posted, view := HandleContactSubmit(app, Accepted);
    left := app.basket;
  }

  /** Fill both checkout steps of an empty draft through the field setters the forms use. */
  method FillDraft(app: AppData)
    requires app.order == EmptyOrder
    modifies app`order, app`formErrors, app`validated, app.events
    ensures app.Valid()
    ensures app.order == Order("e@e.com", "+71234567890", [], "cash", "A", 0)
  {
    app.SetOrderField(Address, "A");
    app.SetOrderField(Payment, "cash");
    assert app.order == Order("", "", [], "cash", "A", 0);
    app.SetContactsField(Email, "e@e.com");
    app.SetContactsField(Phone, "+71234567890");
  }

  /** Selecting the same product twice stores its id once and publishes it twice. */
  method PreviewTwice(p: Product) returns (preview: Option<string>, log: seq<Event>)
    ensures preview == Some(p.id)
    ensures log == [PreviewChange(p), PreviewChange(p)]
  {
    var bus := new EventBus();
    var app := new AppData(bus);
    app.SetPreview(p);
    app.SetPreview(p);
    preview, log := app.preview, bus.log;
  }
}

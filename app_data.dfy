/**
 * The `AppData` state store (AppData.ts): catalog, basket, preview selection,
 * order draft and the current error map, with mutators that publish on the
 * shared event bus.
 */
module Store {

  import opened Wrappers
  import opened Products
  import opened Orders
  import opened Events

  class AppData {
    var basket: seq<Product>
    var catalog: seq<Product>
    var order: Order
    var preview: Option<string>
    var formErrors: map<Field, string>
    /** The bus the store publishes on; the rest of the page publishes on it too. */
    const events: EventBus
    /** The group `formErrors` was last computed for; `None` before any validation. */
    ghost var validated: Option<Group>

    /** The error map is always the verdict of the most recently validated group on the current draft. */
    ghost predicate Valid()
      reads this
    {
      match validated
      case None => formErrors == map[]
      case Some(g) => formErrors == Validate(order, g)
    }

    constructor (events: EventBus)
      ensures Valid() && validated == None
      ensures basket == [] && catalog == [] && preview == None
      ensures order == EmptyOrder && formErrors == map[]
      ensures this.events == events
    {
      basket := [];
      catalog := [];
      order := EmptyOrder;
      preview := None;
      formErrors := map[];
      this.events := events;
      validated := None;
    }

    /** `getBasketItems`: the basket in insertion order. */
    function GetBasketItems(): seq<Product>
      reads this
    {
      basket
    }

    /** `getTotal`: the sum of the basket's prices. */
    function GetTotal(): int
      reads this
    {
      Total(basket)
    }

    /** `isProductAlreadyAdded`: whether some basket entry has the product's id. */
    predicate IsProductAlreadyAdded(p: Product): (r: bool)
      reads this
      ensures r <==> exists q :: q in basket && q.id == p.id
    {
      HasId(basket, p.id)
    }

    /** `addToBasket`: append, with no duplicate or price check, and announce the change. */
    method AddToBasket(p: Product)
      requires Valid()
      modifies this`basket, events
      ensures Valid()
      ensures basket == old(basket) + [p]
      ensures events.log == old(events.log) + [BasketChange]
      ensures IsProductAlreadyAdded(p)
      ensures GetTotal() == old(GetTotal()) + PriceOf(p)
    {
      basket := basket + [p];
      assert p in basket;
      TotalAppend(old(basket), p);
      events.Emit(BasketChange);
    }

    /** `removeFromBasket`: drop every entry with the product's id; announce the change even if none did. */
    method RemoveFromBasket(p: Product)
      requires Valid()
      modifies this`basket, events
      ensures Valid()
      ensures basket == RemoveId(old(basket), p.id)
      ensures events.log == old(events.log) + [BasketChange]
      ensures !IsProductAlreadyAdded(p)
    {
      basket := RemoveId(basket, p.id);
      events.Emit(BasketChange);
    }

    /** `initBasket`: empty the basket and announce the change. */
    method InitBasket()
      requires Valid()
      modifies this`basket, events
      ensures Valid()
      ensures basket == [] && GetTotal() == 0
      ensures events.log == old(events.log) + [BasketChange]
    {
      basket := [];
      events.Emit(BasketChange);
    }

    /** `setCatalog`: replace the catalog and publish it. */
    method SetCatalog(products: seq<Product>)
      requires Valid()
      modifies this`catalog, events
      ensures Valid()
      ensures catalog == products
      ensures events.log == old(events.log) + [ProductsChange(products)]
    {
      catalog := products;
      events.Emit(ProductsChange(catalog));
    }

    /** `setPreview`: remember the product's id and publish the product itself. */
    method SetPreview(p: Product)
      requires Valid()
      modifies this`preview, events
      ensures Valid()
      ensures preview == Some(p.id)
      ensures events.log == old(events.log) + [PreviewChange(p)]
    {
      preview := Some(p.id);
      events.Emit(PreviewChange(p));
    }

    /** `setOrder`: copy the basket's ids and total into the draft; nothing is published. */
    method SetOrder()
      requires Valid()
      modifies this`order
      ensures Valid()
      ensures order == Assembled(old(order), basket)
    {
      AssembledKeepsValidation(order, basket, AddressGroup);
      AssembledKeepsValidation(order, basket, ContactsGroup);
      order := order.(items := IdsOf(basket), total := GetTotal());
    }

    /** `validateOrderPaymentMethod`: replace the error map by the address-step verdict and publish it. */
    method ValidateOrderPaymentMethod() returns (ok: bool)
      modifies this`formErrors, this`validated, events
      ensures Valid() && validated == Some(AddressGroup)
      ensures formErrors == ValidateAddress(order)
      ensures events.log == old(events.log) + [FormPaymentInvalidChange(formErrors)]
      ensures ok <==> formErrors == map[]
      ensures ok <==> order.payment != "" && order.address != ""
    {
      var errors: map<Field, string> := map[];
      if order.payment == "" {
        errors := errors[Payment := PaymentRequired];
      }
      if order.address == "" {
        errors := errors[Address := AddressRequired];
      }
      formErrors := errors;
      validated := Some(AddressGroup);
      events.Emit(FormPaymentInvalidChange(formErrors));
      ok := |errors| == 0;
    }

    /** `validateOrderContacts`: replace the error map by the contacts-step verdict and publish it. */
    method ValidateOrderContacts() returns (ok: bool)
      modifies this`formErrors, this`validated, events
      ensures Valid() && validated == Some(ContactsGroup)
      ensures formErrors == ValidateContacts(order)
      ensures events.log == old(events.log) + [FormContactsInvalidChange(formErrors)]
      ensures ok <==> formErrors == map[]
      ensures ok <==> order.email != "" && order.phone != ""
    {
      var errors: map<Field, string> := map[];
      if order.email == "" {
        errors := errors[Email := EmailRequired];
      }
      if order.phone == "" {
        errors := errors[Phone := PhoneRequired];
      }
      formErrors := errors;
      validated := Some(ContactsGroup);
      events.Emit(FormContactsInvalidChange(formErrors));
      ok := |errors| == 0;
    }

    /** `setPayment`: write the payment method, then re-validate the address step. */
    method SetPayment(payment: string)
      modifies this`order, this`formErrors, this`validated, events
      ensures Valid() && validated == Some(AddressGroup)
      ensures order == WithField(old(order), Payment, payment)
      ensures formErrors == ValidateAddress(order)
      ensures events.log == old(events.log) + [FormPaymentInvalidChange(formErrors)]
    {
      order := order.(payment := payment);
      var ok := ValidateOrderPaymentMethod();
    }

    /** `setAddress`: write the address, then re-validate the address step. */
    method SetAddress(address: string)
      modifies this`order, this`formErrors, this`validated, events
      ensures Valid() && validated == Some(AddressGroup)
      ensures order == WithField(old(order), Address, address)
      ensures formErrors == ValidateAddress(order)
      ensures events.log == old(events.log) + [FormPaymentInvalidChange(formErrors)]
    {
      order := order.(address := address);
      var ok := ValidateOrderPaymentMethod();
    }

    /** `setEmail`: write the email, then re-validate the contacts step. */
    method SetEmail(email: string)
      modifies this`order, this`formErrors, this`validated, events
      ensures Valid() && validated == Some(ContactsGroup)
      ensures order == WithField(old(order), Email, email)
      ensures formErrors == ValidateContacts(order)
      ensures events.log == old(events.log) + [FormContactsInvalidChange(formErrors)]
    {
      order := order.(email := email);
      var ok := ValidateOrderContacts();
    }

    /** `setPhone`: write the phone number, then re-validate the contacts step. */
    method SetPhone(phone: string)
      modifies this`order, this`formErrors, this`validated, events
      ensures Valid() && validated == Some(ContactsGroup)
      ensures order == WithField(old(order), Phone, phone)
      ensures formErrors == ValidateContacts(order)
      ensures events.log == old(events.log) + [FormContactsInvalidChange(formErrors)]
    {
      order := order.(phone := phone);
      var ok := ValidateOrderContacts();
    }

    /**
     * `setOrderField`: write one address-step field, re-validate the address
     * step, and publish `order:ready` after the verdict exactly when both
     * address-step fields are filled.
     */
    method SetOrderField(field: AddressField, value: string)
      modifies this`order, this`formErrors, this`validated, events
      ensures Valid()
      ensures OrderFieldSet(this, field, value)
    {
      order := WithField(order, field, value);
      var ok := ValidateOrderPaymentMethod();
      if ok {
        events.Emit(OrderReady(order));
      }
    }

    /**
     * `setContactsField`: write one contacts-step field, re-validate the
     * contacts step, and publish `order:ready` after the verdict exactly when
     * both contacts-step fields are filled.
     */
    method SetContactsField(field: ContactField, value: string)
      modifies this`order, this`formErrors, this`validated, events
      ensures Valid()
      ensures ContactsFieldSet(this, field, value)
    {
      order := WithField(order, field, value);
      var ok := ValidateOrderContacts();
      if ok {
        events.Emit(OrderReady(order));
      }
    }
  }

  /** The state change of `setOrderField(field, value)`. */
  twostate predicate OrderFieldSet(app: AppData, field: AddressField, value: string)
    reads app, app.events
  {
    && app.order == WithField(old(app.order), field, value)
    && app.validated == Some(AddressGroup)
    && app.formErrors == ValidateAddress(app.order)
    && app.events.log == old(app.events.log) + [FormPaymentInvalidChange(app.formErrors)]
                         + (if app.order.payment != "" && app.order.address != ""
                            then [OrderReady(app.order)] else [])
  }

  /** The state change of `setContactsField(field, value)`. */
  twostate predicate ContactsFieldSet(app: AppData, field: ContactField, value: string)
    reads app, app.events
  {
    && app.order == WithField(old(app.order), field, value)
    && app.validated == Some(ContactsGroup)
    && app.formErrors == ValidateContacts(app.order)
    && app.events.log == old(app.events.log) + [FormContactsInvalidChange(app.formErrors)]
                         + (if app.order.email != "" && app.order.phone != ""
                            then [OrderReady(app.order)] else [])
  }
}

/**
 * The basket and checkout coordination of the page script (index.ts), with
 * the views reduced to the values they would be given.
 */
module Checkout {

  import opened Wrappers
  import opened Products
  import opened Orders
  import opened Events
  import opened Store

  // ---------------------------------------------------------------- basket toggling

  /** The basket after a toggle: add a product that is absent, otherwise remove its id. */
  function Toggled(basket: seq<Product>, p: Product): (r: seq<Product>)
    ensures p !in basket ==> HasId(r, p.id) && |r| == |basket| + 1
    ensures p in basket ==> !HasId(r, p.id) && |r| < |basket|
  {
    if p !in basket then basket + [p] else RemoveId(basket, p.id)
  }

  /** The basket after toggling each of `ps` in turn. */
  function ToggledAll(basket: seq<Product>, ps: seq<Product>): seq<Product>
    decreases |ps|
  {
    if ps == [] then basket else ToggledAll(Toggled(basket, ps[0]), ps[1..])
  }

  /**
   * `toggleProductInBasket`: publish `basket:add` or `basket:remove`; the
   * handler subscribed to it then calls the store's `addToBasket` or
   * `removeFromBasket`, which publishes `basket:change`.
   */
  method ToggleProductInBasket(app: AppData, p: Product)
    requires app.Valid()
    modifies app`basket, app.events
    ensures app.Valid()
    ensures app.basket == Toggled(old(app.basket), p)
    ensures app.events.log == old(app.events.log)
              + (if p in old(app.basket) then [BasketRemove(p)] else [BasketAdd(p)])
              + [BasketChange]
  {
    if p !in app.basket {
      app.events.Emit(BasketAdd(p));
      app.AddToBasket(p);
    } else {
      app.events.Emit(BasketRemove(p));
      app.RemoveFromBasket(p);
    }
  }

  /** Toggling a product whose id is not in the basket twice gives the basket back. */
  lemma ToggleTwiceRestores(basket: seq<Product>, p: Product)
    requires !HasId(basket, p.id)
    ensures Toggled(Toggled(basket, p), p) == basket
  {
    assert p !in basket;
    var added := basket + [p];
    assert p in added;
    RemoveIdConcat(basket, [p], p.id);
    RemoveIdAbsent(basket, p.id);
    assert RemoveId([p], p.id) == [];
  }

  /**
   * When every basket entry with the product's id is the product itself, a
   * toggle makes the id present exactly when it was absent.
   */
  lemma ToggleFlipsMembership(basket: seq<Product>, p: Product)
    requires forall q :: q in basket && q.id == p.id ==> q == p
    ensures HasId(Toggled(basket, p), p.id) <==> !HasId(basket, p.id)
  {
  }

  /** The basket holds catalog entries only, with no id twice. */
  ghost predicate BasketOf(basket: seq<Product>, catalog: seq<Product>)
  {
    DistinctIds(basket) && forall q :: q in basket ==> q in catalog
  }

  /** A toggle of a catalog product keeps the basket a duplicate-free subset of a catalog with unique ids. */
  lemma ToggleKeepsBasketOf(basket: seq<Product>, catalog: seq<Product>, p: Product)
    requires DistinctIds(catalog) && p in catalog && BasketOf(basket, catalog)
    ensures BasketOf(Toggled(basket, p), catalog)
  {
    if p !in basket {
      forall q | q in basket ensures q.id != p.id {
        if q.id == p.id {
          SameIdSameEntry(catalog, q, p);
        }
      }
      AppendKeepsDistinct(basket, p);
    } else {
      RemoveIdKeepsDistinct(basket, p.id);
    }
  }

  /** Any sequence of toggles of catalog products keeps the basket free of duplicate ids. */
  lemma {:induction false} TogglesKeepBasketOf(basket: seq<Product>, catalog: seq<Product>, ps: seq<Product>)
    requires DistinctIds(catalog) && BasketOf(basket, catalog)
    requires forall p :: p in ps ==> p in catalog
    ensures BasketOf(ToggledAll(basket, ps), catalog)
    decreases |ps|
  {
    if ps != [] {
      ToggleKeepsBasketOf(basket, catalog, ps[0]);
      assert forall p :: p in ps[1..] ==> p in ps;
      TogglesKeepBasketOf(Toggled(basket, ps[0]), catalog, ps[1..]);
    }
  }

  // ---------------------------------------------------------------- error display

  /** JavaScript truthiness of an optional message: defined and non-empty. */
  predicate Truthy(m: Option<string>)
  {
    m.Some? && m.value != ""
  }

  /** The truthy messages of `ms`, in order (`Object.values(...).filter((i) => !!i)`). */
  function TruthyMessages(ms: seq<Option<string>>): (r: seq<string>)
    ensures forall x :: x in r <==> Some(x) in ms && x != ""
  {
    if ms == [] then []
    else (if Truthy(ms[0]) then [ms[0].value] else []) + TruthyMessages(ms[1..])
  }

  /** Filtering distributes over concatenation: the kept messages stay in their order, each as often as it occurs. */
  lemma {:induction false} TruthyMessagesConcat(a: seq<Option<string>>, b: seq<Option<string>>)
    ensures TruthyMessages(a + b) == TruthyMessages(a) + TruthyMessages(b)
  {
    if a == [] {
      assert a + b == b;
    } else {
      assert (a + b)[0] == a[0] && (a + b)[1..] == a[1..] + b;
      TruthyMessagesConcat(a[1..], b);
    }
  }

  /** `parts.join(sep)`. */
  function Join(parts: seq<string>, sep: string): string
  {
    if parts == [] then ""
    else if |parts| == 1 then parts[0]
    else parts[0] + sep + Join(parts[1..], sep)
  }

  /** A join of non-empty parts is empty exactly when there are no parts. */
  lemma JoinEmpty(parts: seq<string>, sep: string)
    requires forall x :: x in parts ==> x != ""
    ensures Join(parts, sep) == "" <==> parts == []
  {
    if parts != [] {
      assert parts[0] in parts;
      if |parts| > 1 {
        assert Join(parts, sep) == parts[0] + (sep + Join(parts[1..], sep));
      }
    }
  }

  /** `formatErrors`: the truthy messages joined with `"; "`; empty exactly when no message is truthy. */
  function FormatErrors(ms: seq<Option<string>>): (r: string)
    ensures r == "" <==> forall i :: 0 <= i < |ms| ==> !Truthy(ms[i])
  {
    var parts := TruthyMessages(ms);
    JoinEmpty(parts, "; ");
    assert parts == [] <==> forall i :: 0 <= i < |ms| ==> !Truthy(ms[i]) by {
      if exists i :: 0 <= i < |ms| && Truthy(ms[i]) {
        var i :| 0 <= i < |ms| && Truthy(ms[i]);
        assert ms[i] in ms && ms[i].value in parts;
      }
      if parts != [] {
        assert parts[0] in parts;
        var i :| 0 <= i < |ms| && ms[i] == Some(parts[0]);
      }
    }
    Join(parts, "; ")
  }

  /** The messages of two fields, as the two handlers pass them, in that order. */
  lemma FormatTwo(a: string, b: string)
    requires a != "" && b != ""
    ensures FormatErrors([Some(a), Some(b)]) == a + "; " + b
    ensures FormatErrors([Some(a), None]) == a
    ensures FormatErrors([None, Some(b)]) == b
    ensures FormatErrors([None, None]) == ""
  {
    var none: Option<string> := None;
    assert [Some(a), Some(b)][1..] == [Some(b)] && [Some(b)][1..] == [];
    assert [Some(a), none][1..] == [none] && [none][1..] == [];
    assert [none, Some(b)][1..] == [Some(b)];
    assert [none, none][1..] == [none];
    assert TruthyMessages([Some(b)]) == [b];
    assert TruthyMessages([none]) == [];
    assert TruthyMessages([Some(a), Some(b)]) == [a, b];
    assert TruthyMessages([Some(a), none]) == [a];
    assert TruthyMessages([none, Some(b)]) == [b];
    assert Join([a, b], "; ") == a + "; " + Join([b], "; ");
  }

  /** What a form view is given: whether submitting is enabled, and the error text. */
  datatype FormView = FormView(valid: bool, errors: string)

  /** Destructuring a key of the error map: `undefined` when it is absent. */
  function Lookup(errors: map<Field, string>, f: Field): Option<string>
  {
    if f in errors then Some(errors[f]) else None
  }

  /** `handleAddressErrors`: the order form's state for an error map. */
  function HandleAddressErrors(errors: map<Field, string>): FormView
  {
    var payment, address := Lookup(errors, Payment), Lookup(errors, Address);
    FormView(!Truthy(payment) && !Truthy(address), FormatErrors([payment, address]))
  }

  /** `handleContactsErrors`: the contacts form's state for an error map. */
  function HandleContactsErrors(errors: map<Field, string>): FormView
  {
    var email, phone := Lookup(errors, Email), Lookup(errors, Phone);
    FormView(!Truthy(email) && !Truthy(phone), FormatErrors([email, phone]))
  }

  /** For an error map with non-empty messages, a form is valid exactly when neither of its keys is present. */
  lemma FormValidIff(errors: map<Field, string>)
    requires forall f :: f in errors ==> errors[f] != ""
    ensures HandleAddressErrors(errors).valid <==> Payment !in errors && Address !in errors
    ensures HandleContactsErrors(errors).valid <==> Email !in errors && Phone !in errors
    ensures HandleAddressErrors(errors).errors == "" <==> HandleAddressErrors(errors).valid
    ensures HandleContactsErrors(errors).errors == "" <==> HandleContactsErrors(errors).valid
  {
  }

  /**
   * The order form fed with the address-step verdict on a draft: enabled
   * exactly when payment and address are both filled, with the missing
   * fields' messages in the order payment, address.
   */
  lemma AddressViewOfDraft(o: Order)
    ensures HandleAddressErrors(ValidateAddress(o)) == FormView(
      o.payment != "" && o.address != "",
      if o.payment == "" && o.address == "" then PaymentRequired + "; " + AddressRequired
      else if o.payment == "" then PaymentRequired
      else if o.address == "" then AddressRequired
      else "")
  {
    FormatTwo(PaymentRequired, AddressRequired);
  }

  /** The contacts form fed with the contacts-step verdict on a draft. */
  lemma ContactsViewOfDraft(o: Order)
    ensures HandleContactsErrors(ValidateContacts(o)) == FormView(
      o.email != "" && o.phone != "",
      if o.email == "" && o.phone == "" then EmailRequired + "; " + PhoneRequired
      else if o.email == "" then EmailRequired
      else if o.phone == "" then PhoneRequired
      else "")
  {
    FormatTwo(EmailRequired, PhoneRequired);
  }

  // ---------------------------------------------------------------- field routing

  /** The payload of an `order.<field>:change` or `contacts.<field>:change` event. */
  datatype FieldChange<F> = FieldChange(field: F, value: string)

  /** `handleOrderChange`: pass the payload's field and value on to `setOrderField`. */
  method HandleOrderChange(app: AppData, data: FieldChange<AddressField>)
    modifies app`order, app`formErrors, app`validated, app.events
    ensures app.Valid()
    ensures OrderFieldSet(app, data.field, data.value)
  {
    app.SetOrderField(data.field, data.value);
  }

  /** `handleContactChange`: pass the payload's field and value on to `setContactsField`. */
  method HandleContactChange(app: AppData, data: FieldChange<ContactField>)
    modifies app`order, app`formErrors, app`validated, app.events
    ensures app.Valid()
    ensures ContactsFieldSet(app, data.field, data.value)
  {
    app.SetContactsField(data.field, data.value);
  }

  // ---------------------------------------------------------------- submitting the order

  /** How the backend answered the posted order. */
  datatype SubmitOutcome = Accepted | Rejected(error: string)

  /** The values given to the page counter and the success modal after an accepted order, before the basket is cleared. */
  datatype SuccessView = SuccessView(counter: nat, total: int)

  /**
   * `handleOrderSuccess`: set the counter and the success modal's total from
   * the basket as it is, then `clearBasket`.
   */
  method HandleOrderSuccess(app: AppData) returns (view: SuccessView)
    requires app.Valid()
    modifies app`basket, app.events
    ensures app.Valid()
    ensures view == SuccessView(|old(app.basket)|, Total(old(app.basket)))
    ensures app.basket == []
    ensures app.events.log == old(app.events.log) + [BasketChange]
  {
    var counter := |app.GetBasketItems()|;
    var total := app.GetTotal();
    view := SuccessView(counter, total);
    app.InitBasket();
  }

  /**
   * `handleContactSubmit`: assemble the order from the basket, post it, and on
   * success show the total and clear the basket; on failure leave everything
   * as assembled.
   */
  method HandleContactSubmit(app: AppData, outcome: SubmitOutcome) returns (posted: Order, view: Option<SuccessView>)
    requires app.Valid()
    modifies app`order, app`basket, app.events
    ensures app.Valid()
    ensures posted == Assembled(old(app.order), old(app.basket))
    ensures app.order == posted
    ensures outcome.Accepted? ==>
      && view == Some(SuccessView(|old(app.basket)|, posted.total))
      && app.basket == []
      && app.events.log == old(app.events.log) + [BasketChange]
    ensures outcome.Rejected? ==>
      && view == None
      && app.basket == old(app.basket)
      && app.events.log == old(app.events.log)
  {
    app.SetOrder();
    posted := app.order;
    match outcome
    case Accepted =>
      var shown := HandleOrderSuccess(app);
      view := Some(shown);
    case Rejected(_) =>
      view := None;
  }
}

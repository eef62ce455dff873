/**
 * The events the store and the page script publish on the page's event bus,
 * with their payloads, and the bus reduced to the ordered log of those
 * events. Events emitted by the view components are not logged.
 */
module Events {

  import opened Products
  import opened Orders

  datatype Event =
    /** `products:change` with `{catalog}` */
    | ProductsChange(catalog: seq<Product>)
    /** `basket:change` */
    | BasketChange
    /** `preview:change` with the selected product */
    | PreviewChange(product: Product)
    /** `formPaymentInvalid:change` with the address-step errors */
    | FormPaymentInvalidChange(errors: map<Field, string>)
    /** `formContactsInvalid:change` with the contacts-step errors */
    | FormContactsInvalidChange(errors: map<Field, string>)
    /** `order:ready` with the order as it stands */
    | OrderReady(order: Order)
    /** `basket:add` with the product to add */
    | BasketAdd(product: Product)
    /** `basket:remove` with the product to remove */
    | BasketRemove(product: Product)

  /** The event bus: every `emit` by the store or the page script appends to `log`. */
  class EventBus {
    var log: seq<Event>

    constructor ()
      ensures log == []
    {
      log := [];
    }

    method Emit(e: Event)
      modifies this
      ensures log == old(log) + [e]
    {
      log := log + [e];
    }
  }
}

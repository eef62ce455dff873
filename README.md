# AppData store and checkout coordination of the web-larek storefront

This project models the client-side state layer of a small storefront. The
`AppData` store keeps five things:

- the product catalog;
- the basket, an ordered list of products;
- the id of the product being previewed;
- the order draft (`email`, `phone`, `items`, `payment`, `address`, `total`);
- the current `formErrors` map.

Its mutators change that state and publish named events on an event bus that
the whole page shares. The page script (`src/index.ts`) coordinates the store
and the views. It toggles products in and out of the basket, routes form input
to the store, turns error maps into form state, and runs the submit sequence.

Modules, one per concern:

- `Wrappers` (wrappers.dfy): `Option`, for the source's `undefined`/`null`.
- `Products` (products.dfy): `Product`, and the reductions the store runs over
  its basket. These are `Total` (the `reduce`, a left fold from 0), `HasId` (the
  `some`), `RemoveId` (the `filter`) and `IdsOf` (the `map`), with their lemmas.
- `Orders` (orders.dfy): the draft `Order`, field access with `FieldOf` and
  `WithField`, the two presence-only validators, and `Assembled`. `Assembled`
  is the draft as `setOrder` leaves it.
- `Events` (events.dfy): the events the store and the page script publish,
  with their payloads. `EventBus` is reduced to the ordered log of those
  events.
- `Store` (app_data.dfy): class `AppData`, with one method per mutator.
  - `GetBasketItems`, `GetTotal` and `IsProductAlreadyAdded` are functions
    that read the state.
  - The ghost field `validated` records which group the error map was last
    computed for. `Valid()` says the map is always that group's verdict on the
    current draft.
  - The two-state predicates `OrderFieldSet` and `ContactsFieldSet` give the
    full effect of `setOrderField` and `setContactsField`. The routing handlers
    in `Checkout` state the same effect.
- `Checkout` (checkout.dfy): the `index.ts` logic with the DOM abstracted.
  - `Toggled` and `ToggleProductInBasket` model the basket toggle.
  - `TruthyMessages`, `Join` and `FormatErrors` model the error text.
  - `HandleAddressErrors` and `HandleContactsErrors` give a form's
    `valid` and `errors` values as a `FormView`.
  - `HandleOrderChange` and `HandleContactChange` route form input to the store.
  - `HandleOrderSuccess` and `HandleContactSubmit` run the submit sequence.
    The backend's answer is an input (`SubmitOutcome`).
- `Scenarios` (scenarios.dfy): sequences of calls on a fresh store. Each one
  is proved from the contracts above.

The model follows the code:

- The validators check only that a field is non-empty. There are no address,
  email or phone format rules (`Scenarios.PresenceOnly`).
- `addToBasket` checks neither duplicates nor a null price.
- After a successful order the draft is not reset. Only the basket is cleared.
- There is no `getOrder`. The posted payload is `appState.order` right after
  `setOrder`.
- `order:ready` is published by both field setters, each time its own group
  is complete. It is not gated on both groups.

## Model

| member | source | states |
|---|---|---|
| Store.AppData.constructor | src/components/AppData.ts:13-24 | a fresh store has an empty basket and catalog, no preview, the empty draft and no errors |
| Store.AppData.AddToBasket | src/components/AppData.ts:30-33 | the product is appended at the end, earlier entries are kept, no check is made, `basket:change` is logged, the product's id is then present, and the total grows by its price |
| Store.AppData.RemoveFromBasket | src/components/AppData.ts:35-38 | the basket becomes the entries with a different id, in order; `basket:change` is logged even when nothing matched; the id is then absent |
| Store.AppData.InitBasket | src/components/AppData.ts:40-43 | the basket is empty, the total is 0, `basket:change` is logged |
| Store.AppData.SetCatalog | src/components/AppData.ts:49-54 | the catalog is replaced by the argument and `products:change` carries it |
| Store.AppData.SetPreview | src/components/AppData.ts:56-59 | the preview becomes the product's id and `preview:change` carries the product |
| Store.AppData.SetOrder | src/components/AppData.ts:65-68 | the draft's items become the basket ids in basket order and its total the basket total; the basket, the other fields and the log are untouched |
| Store.AppData.ValidateOrderPaymentMethod | src/components/AppData.ts:90-101 | the error map is replaced wholesale by the address-step verdict, `formPaymentInvalid:change` carries it, and the result is true iff the map is empty iff payment and address are both non-empty |
| Store.AppData.ValidateOrderContacts | src/components/AppData.ts:103-114 | the same for the contacts step, with `formContactsInvalid:change`, email and phone |
| Store.AppData.SetPayment | src/components/AppData.ts:70-73 | only the payment field changes, then the address step is re-validated and its verdict published |
| Store.AppData.SetAddress | src/components/AppData.ts:75-78 | only the address field changes, then the address step is re-validated and its verdict published |
| Store.AppData.SetEmail | src/components/AppData.ts:80-83 | only the email field changes, then the contacts step is re-validated and its verdict published |
| Store.AppData.SetPhone | src/components/AppData.ts:85-88 | only the phone field changes, then the contacts step is re-validated and its verdict published |
| Store.AppData.SetOrderField | src/components/AppData.ts:116-121 | only the named field is written; the address verdict is logged; `order:ready` with the order follows it iff payment and address are both non-empty |
| Store.AppData.SetContactsField | src/components/AppData.ts:123-128 | only the named field is written; the contacts verdict is logged; `order:ready` with the order follows it iff email and phone are both non-empty |
| Store.AppData.GetBasketItems | src/components/AppData.ts:26-28 | no contract of its own: it is the basket in insertion order, whose contents every mutator's `basket` clause states |
| Store.AppData.GetTotal | src/components/AppData.ts:45-47 | no contract of its own: `Total` of the basket; `AddToBasket` states it grows by the price, `InitBasket` that it is 0, and `TotalAfterRemove` what a removal does |
| Store.AppData.IsProductAlreadyAdded | src/components/AppData.ts:61-63 | true iff some basket entry has the product's id; `AddToBasket` makes it true and `RemoveFromBasket` false |
| Store.OrderFieldSet | src/components/AppData.ts:116-121 | no contract of its own: the full effect of `setOrderField`. Only the field is written, the address verdict is stored and logged, and `order:ready` follows iff payment and address are filled |
| Store.ContactsFieldSet | src/components/AppData.ts:123-128 | no contract of its own: the full effect of `setContactsField`, the same for email and phone |
| Events.EventBus.constructor | src/index.ts:24 | the page's bus starts with nothing published |
| Events.EventBus.Emit | src/components/AppData.ts:99 | publishing appends the event, with its payload, to the end of the log |
| Products.PriceOf | src/components/AppData.ts:46 | no contract of its own: an entry's price, with a missing price adding 0 as `sum + null` does; used by `TotalAppend` and `TotalAfterRemove` |
| Products.Total | src/components/AppData.ts:45-47 | the left fold of prices from 0; non-negative when every price is; `TotalConcat`, `TotalAppend` and `TotalWithout` give its algebra |
| Products.HasId | src/components/AppData.ts:61-63 | true iff some basket entry has the given id |
| Products.RemoveId | src/components/AppData.ts:36 | an entry is kept iff it was there and its id differs; the result is no longer, and strictly shorter when some entry had the id |
| Products.IdsOf | src/components/AppData.ts:66 | the ids list has one id per basket entry, position by position |
| Products.TotalConcat | src/components/AppData.ts:45-47 | the total of a concatenation is the sum of the totals |
| Products.TotalAppend | src/components/AppData.ts:45-47 | appending an entry adds exactly its price to the total |
| Products.RemoveIdConcat | src/components/AppData.ts:36 | removal by id distributes over concatenation, so the kept entries stay in their relative order |
| Products.RemoveIdAbsent | src/components/AppData.ts:35-38 | removing an id no entry carries leaves the basket as it was |
| Products.RemoveIdIdempotent | src/components/AppData.ts:35-38 | removing the same id twice is the same as removing it once |
| Products.OnlyEntryWithId | src/components/AppData.ts:61-63 | in a basket without duplicate ids, no entry other than k has entry k's id |
| Products.RemoveSingle | src/components/AppData.ts:35-38 | removing an id carried by one entry only deletes exactly that entry and keeps the rest in order |
| Products.RemoveUniqueIsDeletion | src/components/AppData.ts:35-38 | in a basket without duplicate ids, removing entry k's id deletes exactly entry k |
| Products.TotalWithout | src/components/AppData.ts:45-47 | taking one entry out of a basket lowers its total by exactly that entry's price |
| Products.TotalAfterRemove | src/components/AppData.ts:35-47 | in a basket without duplicate ids, removing an entry by id lowers the total by exactly its price |
| Products.RemoveIdKeepsDistinct | src/components/AppData.ts:36 | removal by id keeps a duplicate-free basket duplicate-free |
| Products.AppendKeepsDistinct | src/components/AppData.ts:30-33 | appending a product whose id is absent keeps the basket duplicate-free |
| Products.SameIdSameEntry | src/components/AppData.ts:61-63 | in a catalog with unique ids, the id determines the product |
| Orders.Message | src/components/AppData.ts:92-109 | every validation message is non-empty, so it is truthy for the form handlers |
| Orders.WithField | src/components/AppData.ts:117 | writing `order[f]` makes f read back as the value and leaves every other field, the items and the total unchanged |
| Orders.FieldOf | src/components/AppData.ts:117 | no contract of its own: reading `order[f]`; `WithField` states the read-after-write laws in its terms |
| Orders.Validate | src/components/AppData.ts:90-114 | no contract of its own: the verdict for one group; `ValidateKeys` and `ValidateIgnoresOtherGroup` state its key set and independence |
| Orders.ValidateAddress | src/components/AppData.ts:90-101 | key `payment` iff the payment is empty, key `address` iff the address is empty, no other key, the fixed messages, and an empty map iff both are filled |
| Orders.ValidateContacts | src/components/AppData.ts:103-114 | key `email` iff the email is empty, key `phone` iff the phone is empty, no other key, the fixed messages, and an empty map iff both are filled |
| Orders.ValidateKeys | src/components/AppData.ts:90-114 | a group's map has a key exactly for each of that group's fields that is empty |
| Orders.ValidateIgnoresOtherGroup | src/components/AppData.ts:90-114 | writing a field of one group never changes the other group's verdict |
| Orders.Assembled | src/components/AppData.ts:65-68 | the assembled order keeps the draft's four fields, lists the basket ids in basket order, and totals the basket |
| Orders.AssembledKeepsValidation | src/components/AppData.ts:65-68 | filling in items and total does not change either verdict |
| Checkout.Toggled | src/index.ts:108-114 | an absent product is added, so its id is then present and the basket one longer; a present product's id is removed, so it is then absent and the basket shorter |
| Checkout.ToggledAll | src/index.ts:298-300 | no contract of its own: toggles applied in turn; `TogglesKeepBasketOf` states that they never create duplicate ids |
| Checkout.ToggleProductInBasket | src/index.ts:108-114 | the basket becomes `Toggled`, and `basket:add` or `basket:remove` is logged followed by the store's `basket:change` |
| Checkout.ToggleTwiceRestores | src/index.ts:108-114 | toggling a product whose id is absent twice gives back the original basket |
| Checkout.ToggleFlipsMembership | src/index.ts:108-114 | when every basket entry carrying the product's id is the product itself, after a toggle the id is present iff it was absent before (two distinct objects with the same id are not covered: `indexOf` compares references, `some` compares ids) |
| Checkout.ToggleKeepsBasketOf | src/index.ts:298-308 | in a catalog with unique ids, starting from a duplicate-free basket of catalog entries, toggling a catalog product keeps the basket a duplicate-free set of catalog entries |
| Checkout.TogglesKeepBasketOf | src/index.ts:298-308 | in a catalog with unique ids, starting from a duplicate-free basket of catalog entries, any sequence of toggles of catalog products keeps the basket a duplicate-free set of catalog entries |
| Checkout.TruthyMessages | src/index.ts:212-213 | a message is kept iff it is defined and non-empty |
| Checkout.TruthyMessagesConcat | src/index.ts:213 | filtering distributes over concatenation, so the kept messages keep their order and multiplicity |
| Checkout.Join | src/index.ts:214 | no contract of its own: `join` with a separator between neighbours; `JoinEmpty` and `FormatTwo` state its results |
| Checkout.JoinEmpty | src/index.ts:214 | a join of non-empty parts is empty iff there are no parts |
| Checkout.FormatErrors | src/index.ts:211-215 | the joined text is empty iff no message is defined and non-empty |
| Checkout.FormatTwo | src/index.ts:200 | two messages are shown in argument order joined by `"; "`, one message alone, none as the empty text |
| Checkout.HandleAddressErrors | src/index.ts:197-201 | no contract of its own: the order form's `valid` and `errors`; `FormValidIff` and `AddressViewOfDraft` state them |
| Checkout.HandleContactsErrors | src/index.ts:204-208 | no contract of its own: the contacts form's `valid` and `errors`; `FormValidIff` and `ContactsViewOfDraft` state them |
| Checkout.FormValidIff | src/index.ts:197-208 | for maps with non-empty messages, the address form is valid iff neither `payment` nor `address` is a key, the contacts form likewise for `email` and `phone`, and the error text is empty iff the form is valid |
| Checkout.AddressViewOfDraft | src/index.ts:197-201 | the order form fed the address verdict is enabled iff payment and address are filled, and shows exactly the missing fields' messages in the order payment, address |
| Checkout.ContactsViewOfDraft | src/index.ts:204-208 | the contacts form fed the contacts verdict is enabled iff email and phone are filled, and shows exactly the missing fields' messages in the order email, phone |
| Checkout.HandleOrderChange | src/index.ts:151-159 | the payload's field and value reach `setOrderField` unchanged, with its full effect |
| Checkout.HandleContactChange | src/index.ts:187-194 | the payload's field and value reach `setContactsField` unchanged, with its full effect |
| Checkout.HandleOrderSuccess | src/index.ts:242-270 | the counter and the success total are read from the basket before it is cleared, then the basket is empty and `basket:change` is logged |
| Checkout.HandleContactSubmit | src/index.ts:224-251 | `setOrder` runs before posting, so the posted order is the draft with the basket's ids and total at submit time; on success the shown total is that total and the basket is cleared; on failure basket and log are untouched |
| Scenarios.ReadyOnSecondField | src/components/AppData.ts:116-121 | setting payment then address on a fresh store logs two verdicts, then one `order:ready`, only after the second call |
| Scenarios.PresenceOnly | src/components/AppData.ts:103-114 | the bare strings `bad` and `123` pass as email and phone, and an empty draft fails both address-step fields (the general fact is `Orders.ValidateContacts`) |
| Scenarios.FillDraft | src/components/AppData.ts:116-128 | filling both steps of an empty draft through the field setters yields exactly those four fields |
| Scenarios.CheckoutTwoProducts | src/index.ts:224-246 | two products priced 100 and 250 posted with a filled draft give items in basket order, total 350, a success view of 350, and an empty basket |
| Scenarios.PreviewTwice | src/components/AppData.ts:56-59 | previewing the same product twice stores its id and publishes it twice |

## Left out

- Events emitted by the view components are not logged. Among them are `modal:open`, which `Modal.render` emits during the success sequence between `updatePageCounter` and `clearBasket` (src/components/common/Modal.ts:37-41, 50-54), and `card:select`, `card:basket`, `order.*:change`, `contacts.*:change` and `contacts:submit`. So the `log` clauses of `Checkout.HandleOrderSuccess` and `Checkout.HandleContactSubmit` list only what the store and the page script publish.
- Event dispatch is not modelled. That covers exact-name and regular-expression subscriptions (src/index.ts:323-325) and handler order. Publishing is an append to `EventBus.log`. Where `index.ts` publishes `basket:add`/`basket:remove`, the model calls the subscribed store method right after the emit.
- View handlers are left out: rendering subscribed to `basket:change`, `products:change`, `preview:change`, `modal:*`, `order:open`, `order:submit` and `basket:open`, and the DOM components. The forms' and the success modal's inputs appear only as the values `FormView` and `SuccessView`.
- Promises, `.then`/`.catch` and `console.error` are left out. The backend's answer is the parameter `SubmitOutcome`, and a rejection changes nothing. Posting and the answer are one step: the model assumes nothing runs between them, whereas in the code the modal can be closed while the post is pending and cards toggled, so `handleOrderSuccess` (src/index.ts:242-246) would show `getTotal()` of the basket as it is then and `initBasket` would clear entries that were never ordered. The catalog fetch and `WebShopApi` (HTTP and image-URL prefixing) are left out too.
- `Checkout.HandleOrderSuccess`: the counter value is the one `updatePageCounter` sets before the basket is cleared. The later reset by the `basket:change` handler (src/index.ts:310-312) is dispatch and is not modelled.
- `Checkout.ToggleProductInBasket`: membership uses value equality where the source's `indexOf` uses reference identity.
- Aliasing is left out. `getBasketItems` returns the live array in the source and a value here. `push` and a reassignment of `basket` cannot be told apart. `order:ready` carries a reference to the draft in the source, so later writes would show through it; the log holds a snapshot.
- Prices are integers, with `None` for a missing price that adds 0 to the total. Floating-point prices are not modelled.
- `catalog` is uninitialised (`undefined`) in the source until `setCatalog`. The model starts it at the empty sequence.
- `PaymentMethod` is imported from `../types` (src/components/AppData.ts:9) but not declared in src/types/index.ts, so a payment is a string.
- `Model.emitChanges` and `base/events` are not part of this model. `basket:change` is logged without a payload.

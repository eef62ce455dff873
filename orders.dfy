/**
 * The order draft the store keeps (AppData.ts:15-22), its field-level
 * access, and the two presence-only validators (AppData.ts:90-114).
 */
module Orders {

  import opened Products

  /** The keys of the error map: the four user-entered fields of the draft. */
  datatype Field = Payment | Address | Email | Phone

  /** The fields of the address step (`keyof IOrderAddress`). */
  type AddressField = f: Field | f == Payment || f == Address witness Payment

  /** The fields of the contacts step (`keyof IOrderContacts`). */
  type ContactField = f: Field | f == Email || f == Phone witness Email

  /** The two groups of fields that are validated together. */
  datatype Group = AddressGroup | ContactsGroup

  /** The order draft; `items` and `total` are filled in from the basket at submit time. */
  datatype Order = Order(
    email: string,
    phone: string,
    items: seq<string>,
    payment: string,
    address: string,
    total: int)

  /** The draft a fresh store starts with. */
  const EmptyOrder: Order := Order("", "", [], "", "", 0)

  /** The error messages the validators store. */
  const PaymentRequired: string := "Выберите способ оплаты"
  const AddressRequired: string := "Введите адрес доставки"
  const EmailRequired: string := "Введите Email"
  const PhoneRequired: string := "Введите номер телефона"

  /** The message a validator stores under a missing field. */
  function Message(f: Field): (m: string)
    ensures m != ""
  {
    match f
    case Payment => PaymentRequired
    case Address => AddressRequired
    case Email => EmailRequired
    case Phone => PhoneRequired
  }

  /** Reading `order[f]`. */
  function FieldOf(o: Order, f: Field): string
  {
    match f
    case Payment => o.payment
    case Address => o.address
    case Email => o.email
    case Phone => o.phone
  }

  /** Writing `order[f] = v`: field `f` reads back as `v`, every other field is untouched. */
  function WithField(o: Order, f: Field, v: string): (r: Order)
    ensures FieldOf(r, f) == v
    ensures forall g :: g != f ==> FieldOf(r, g) == FieldOf(o, g)
    ensures r.items == o.items && r.total == o.total
  {
    match f
    case Payment => o.(payment := v)
    case Address => o.(address := v)
    case Email => o.(email := v)
    case Phone => o.(phone := v)
  }

  /** The fields a group validates. */
  function GroupFields(g: Group): set<Field>
  {
    match g
    case AddressGroup => {Payment, Address}
    case ContactsGroup => {Email, Phone}
  }

  /**
   * The address-step check: an error under `payment` exactly when the payment
   * is empty and under `address` exactly when the address is empty; nothing else.
   */
  function ValidateAddress(o: Order): (errors: map<Field, string>)
    ensures Payment in errors <==> o.payment == ""
    ensures Address in errors <==> o.address == ""
    ensures errors.Keys <= GroupFields(AddressGroup)
    ensures forall f :: f in errors ==> errors[f] == Message(f)
    ensures errors == map[] <==> o.payment != "" && o.address != ""
  {
    var withPayment := if o.payment == "" then map[Payment := PaymentRequired] else map[];
    if o.address == "" then withPayment[Address := AddressRequired] else withPayment
  }

  /**
   * The contacts-step check: an error under `email` exactly when the email is
   * empty and under `phone` exactly when the phone is empty; nothing else.
   */
  function ValidateContacts(o: Order): (errors: map<Field, string>)
    ensures Email in errors <==> o.email == ""
    ensures Phone in errors <==> o.phone == ""
    ensures errors.Keys <= GroupFields(ContactsGroup)
    ensures forall f :: f in errors ==> errors[f] == Message(f)
    ensures errors == map[] <==> o.email != "" && o.phone != ""
  {
    var withEmail := if o.email == "" then map[Email := EmailRequired] else map[];
    if o.phone == "" then withEmail[Phone := PhoneRequired] else withEmail
  }

  /** The check for one group. */
  function Validate(o: Order, g: Group): map<Field, string>
  {
    match g
    case AddressGroup => ValidateAddress(o)
    case ContactsGroup => ValidateContacts(o)
  }

  /** A group's error map has a key exactly for each of its fields that is empty, and no other key. */
  lemma ValidateKeys(o: Order, g: Group, f: Field)
    ensures f in Validate(o, g) <==> f in GroupFields(g) && FieldOf(o, f) == ""
  {
  }

  /** Writing a field outside a group does not change that group's errors. */
  lemma ValidateIgnoresOtherGroup(o: Order, g: Group, f: Field, v: string)
    requires f !in GroupFields(g)
    ensures Validate(WithField(o, f, v), g) == Validate(o, g)
  {
  }

  /**
   * The order as `setOrder` leaves it: the draft's fields are kept, `items` are the
   * basket's ids in basket order and `total` is the basket's total.
   */
  function Assembled(o: Order, basket: seq<Product>): (r: Order)
    ensures forall f :: FieldOf(r, f) == FieldOf(o, f)
    ensures |r.items| == |basket| && forall i :: 0 <= i < |basket| ==> r.items[i] == basket[i].id
    ensures r.total == Total(basket)
  {
    o.(items := IdsOf(basket), total := Total(basket))
  }

  /** Assembling the order does not change what either validator reports. */
  lemma AssembledKeepsValidation(o: Order, basket: seq<Product>, g: Group)
    ensures Validate(Assembled(o, basket), g) == Validate(o, g)
  {
  }
}

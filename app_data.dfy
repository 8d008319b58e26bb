/** The application state of the storefront (class `AppData`): the catalog,
    the basket (unique by product id, in insertion order), the order draft,
    the previewed product and the last validation errors, with the operations
    that change them and announce the change on the event bus. */
module AppState {
  import opened JsValues
  import opened Seqs
  import opened Events
  import opened ObservableModel

  /** A catalog product record: `IProductInfo`. A null price is `None`. */
  datatype Product = Product(id: string, title: string, description: string,
                             image: string, category: string, price: Option<int>)

  /** The order draft with the four fields the application state creates. */
  datatype Order = Order(payment: string, email: string, phone: string, address: string)

  /** The fields of the contact form: `keyof IOrderFormEmailPhone`. */
  datatype ContactField = Email | Phone

  /** The argument of `validateOrder`: "delivery" or "contact". */
  datatype Phase = DeliveryPhase | ContactPhase

  /** `FormError`: a message per invalid order field, keyed by field name. */
  type FormErrors = map<string, string>

  /** `createEmptyOrder()`: a draft with every field blank, so that each
      validation phase reports every one of its fields as missing. */
  function EmptyOrder(): (o: Order)
    ensures PhaseErrors(o, DeliveryPhase).Keys == {"payment", "address"}
    ensures PhaseErrors(o, ContactPhase).Keys == {"email", "phone"}
  {
    Order("", "", "", "")
  }

  const ItemsChanged := "items:changed"
  const PreviewChanged := "preview:changed"
  const CounterChanged := "counter:changed"
  const BasketChanged := "basket:changed"
  const DeliveryFormError := "deliveryFormError:change"
  const ContactFormError := "contactFormError:change"

  const PaymentRequired := "Необходимо указать способ оплаты"
  const AddressRequired := "Необходимо указать адрес"
  const EmailRequired := "Необходимо указать email"
  const PhoneRequired := "Необходимо указать телефон"

  // ---------------------------------------------------------------------
  // The basket as a sequence of products

  /** `basket.some(product => product.id === id)` */
  function HasId(b: seq<Product>, id: string): (r: bool)
    ensures r <==> exists i :: 0 <= i < |b| && b[i].id == id
  {
    if b == [] then false
    else
      var found := HasId(b[1..], id);
      assert found ==> exists i :: 0 < i < |b| && b[i].id == id by {
        if found {
          var k :| 0 <= k < |b[1..]| && b[1..][k].id == id;
          assert b[k + 1].id == id;
        }
      }
      b[0].id == id || found
  }

  /** No two basket entries share an id. */
  ghost predicate UniqueIds(b: seq<Product>) {
    forall i, j :: 0 <= i < j < |b| ==> b[i].id != b[j].id
  }

  /** Accepts the products whose id is not `id`. */
  function IdIsNot(id: string): Product -> bool {
    (p: Product) => p.id != id
  }

  /** `basket.filter(product => product.id !== id)` */
  function WithoutId(b: seq<Product>, id: string): (r: seq<Product>)
    ensures |r| <= |b|
    ensures !HasId(r, id)
  {
    var r := Filter(b, IdIsNot(id));
    assert forall i :: 0 <= i < |r| ==> r[i].id != id by {
      forall i | 0 <= i < |r| ensures r[i].id != id {
        FilterMembers(b, IdIsNot(id), r[i]);
      }
    }
    r
  }

  /** `basket.map(item => item.id)`: the ids in basket order. */
  function Ids(b: seq<Product>): (r: seq<string>)
    ensures |r| == |b|
    ensures forall i :: 0 <= i < |b| ==> r[i] == b[i].id
  {
    if b == [] then [] else [b[0].id] + Ids(b[1..])
  }

  /** What a product adds to `total + item.price`: JavaScript adds a null
      price as 0. */
  function PriceOf(p: Product): int {
    match p.price
    case None => 0
    case Some(n) => n
  }

  /** `basket.reduce((total, item) => total + item.price, 0)`, folded from
      the left. */
  function Total(b: seq<Product>): (r: int)
    ensures (forall i :: 0 <= i < |b| ==> PriceOf(b[i]) >= 0) ==> r >= 0
  {
    if b == [] then 0
    else
      var init := b[..|b| - 1];
      assert forall i :: 0 <= i < |init| ==> init[i] == b[i];
      Total(init) + PriceOf(b[|b| - 1])
  }

  lemma {:induction false} WithoutIdMembers(b: seq<Product>, id: string, p: Product)
    ensures p in WithoutId(b, id) <==> p in b && p.id != id
  {
    FilterMembers(b, IdIsNot(id), p);
    assert IdIsNot(id)(p) == (p.id != id);
  }

  /** Removing an id that is not in the basket leaves its contents as they are. */
  lemma {:induction false} WithoutAbsentId(b: seq<Product>, id: string)
    requires !HasId(b, id)
    ensures WithoutId(b, id) == b
  {
    forall p | p in b ensures IdIsNot(id)(p) {
      var i :| 0 <= i < |b| && b[i] == p;
    }
    FilterKeepsAll(b, IdIsNot(id));
  }

  /** A basket with unique ids keeps them unique when an id is filtered out,
      and no entry with that id is left. */
  lemma {:induction false} WithoutIdUnique(b: seq<Product>, id: string)
    requires UniqueIds(b)
    ensures UniqueIds(WithoutId(b, id))
    ensures !HasId(WithoutId(b, id), id)
  {
    var r := WithoutId(b, id);
    if b != [] {
      var tail := b[1..];
      assert UniqueIds(tail) by {
        forall i, j | 0 <= i < j < |tail| ensures tail[i].id != tail[j].id {
          assert tail[i] == b[i + 1] && tail[j] == b[j + 1];
        }
      }
      WithoutIdUnique(tail, id);
      var rest := WithoutId(tail, id);
      assert r == (if b[0].id != id then [b[0]] else []) + rest;
      if b[0].id != id {
        assert !HasId(rest, b[0].id) by {
          forall i | 0 <= i < |rest| ensures rest[i].id != b[0].id {
            WithoutIdMembers(tail, id, rest[i]);
            var k :| 0 <= k < |tail| && tail[k] == rest[i];
            assert tail[k] == b[k + 1];
          }
        }
        PrependUnique(b[0], rest);
      }
    }
    forall i | 0 <= i < |r| ensures r[i].id != id {
      WithoutIdMembers(b, id, r[i]);
    }
  }

  lemma PrependUnique(p: Product, b: seq<Product>)
    requires UniqueIds(b) && !HasId(b, p.id)
    ensures UniqueIds([p] + b)
  {
    var s := [p] + b;
    forall i, j | 0 <= i < j < |s| ensures s[i].id != s[j].id {
      assert s[j] == b[j - 1];
      if i > 0 { assert s[i] == b[i - 1]; }
    }
  }

  /** Appending a product whose id is new keeps the ids unique. */
  lemma AppendUnique(b: seq<Product>, p: Product)
    requires UniqueIds(b) && !HasId(b, p.id)
    ensures UniqueIds(b + [p])
  {
    var s := b + [p];
    forall i, j | 0 <= i < j < |s| ensures s[i].id != s[j].id {
      assert s[i] == b[i];
      if j < |b| { assert s[j] == b[j]; }
    }
  }

  /** Removing the id of the product just added restores the basket. */
  lemma {:induction false} RemoveUndoesAdd(b: seq<Product>, p: Product)
    requires !HasId(b, p.id)
    ensures WithoutId(b + [p], p.id) == b
  {
    FilterConcat(b, [p], IdIsNot(p.id));
    WithoutAbsentId(b, p.id);
    assert Filter([p], IdIsNot(p.id)) == [];
  }

  /** The purchase ids hold exactly the ids the basket holds, and they are
      pairwise distinct exactly when the basket's ids are. */
  lemma IdsMembers(b: seq<Product>, id: string)
    ensures id in Ids(b) <==> HasId(b, id)
    ensures Distinct(Ids(b)) <==> UniqueIds(b)
  {
    var r := Ids(b);
    if id in r {
      var i :| 0 <= i < |r| && r[i] == id;
    }
    if HasId(b, id) {
      var i :| 0 <= i < |b| && b[i].id == id;
      assert r[i] == id;
    }
  }

  lemma {:induction false} TotalConcat(a: seq<Product>, b: seq<Product>)
    ensures Total(a + b) == Total(a) + Total(b)
  {
    if b == [] {
      assert a + b == a;
    } else {
      var init := b[..|b| - 1];
      assert (a + b)[..|a + b| - 1] == a + init;
      assert (a + b)[|a + b| - 1] == b[|b| - 1];
      TotalConcat(a, init);
    }
  }

  /** Filtering out `p`'s id from `before + [p] + after`, where the two
      sides keep all their entries, drops exactly `p`. */
  lemma WithoutIdSplit(before: seq<Product>, p: Product, after: seq<Product>)
    requires Filter(before, IdIsNot(p.id)) == before
    requires Filter(after, IdIsNot(p.id)) == after
    ensures Filter(before + [p] + after, IdIsNot(p.id)) == before + after
  {
    var keep := IdIsNot(p.id);
    assert Filter([p], keep) == [] by {
      assert [p][1..] == [];
    }
    FilterConcat(before, [p], keep);
    FilterConcat(before + [p], after, keep);
  }

  /** Removing one product's id from a basket with unique ids lowers the
      total by exactly that product's price. */
  lemma {:induction false} TotalWithoutId(b: seq<Product>, i: nat)
    requires UniqueIds(b) && i < |b|
    ensures Total(WithoutId(b, b[i].id)) == Total(b) - PriceOf(b[i])
  {
    var p := b[i];
    var before, after := b[..i], b[i + 1..];
    assert !HasId(before, p.id) by {
      forall k | 0 <= k < |before| ensures before[k].id != p.id {
        assert before[k] == b[k];
      }
    }
    assert !HasId(after, p.id) by {
      forall k | 0 <= k < |after| ensures after[k].id != p.id {
        assert after[k] == b[i + 1 + k];
      }
    }
    WithoutAbsentId(before, p.id);
    WithoutAbsentId(after, p.id);
    assert b == before + [p] + after;
    WithoutIdSplit(before, p, after);
    TotalConcat(before, after);
    TotalConcat(before + [p], after);
    TotalConcat(before, [p]);
    assert Total([p]) == PriceOf(p) by {
      assert [p][..0] == [];
    }
  }

  // ---------------------------------------------------------------------
  // Validation

  /** The error a single required field contributes. */
  function Missing(key: string, value: string, message: string): FormErrors {
    if value == "" then map[key := message] else map[]
  }

  /** The error map one validation phase computes from the order draft. */
  function PhaseErrors(o: Order, phase: Phase): (r: FormErrors)
    ensures phase == DeliveryPhase ==> r.Keys <= {"payment", "address"}
    ensures phase == ContactPhase ==> r.Keys <= {"email", "phone"}
    ensures forall k :: k in r ==> r[k] != ""
  {
    match phase
    case DeliveryPhase => Missing("payment", o.payment, PaymentRequired) + Missing("address", o.address, AddressRequired)
    case ContactPhase => Missing("email", o.email, EmailRequired) + Missing("phone", o.phone, PhoneRequired)
  }

  /** Adding the two fields' errors one after the other, as `validateOrder`
      does, builds the phase's error map. */
  lemma PhaseErrorsStepwise(o: Order)
    ensures PhaseErrors(o, DeliveryPhase) ==
      var e: FormErrors := if o.payment == "" then map["payment" := PaymentRequired] else map[];
      if o.address == "" then e["address" := AddressRequired] else e
    ensures PhaseErrors(o, ContactPhase) ==
      var e: FormErrors := if o.email == "" then map["email" := EmailRequired] else map[];
      if o.phone == "" then e["phone" := PhoneRequired] else e
  {
  }

  /** `Object.keys(errors).length === 0` holds exactly for the empty map. */
  lemma NoKeys(e: FormErrors)
    ensures |e| == 0 <==> e == map[]
  {
    if e != map[] {
      var k :| k in e;
      assert {k} <= e.Keys;
    }
  }

  /** The event each phase announces its errors under. */
  function PhaseEvent(phase: Phase): string {
    match phase
    case DeliveryPhase => DeliveryFormError
    case ContactPhase => ContactFormError
  }

  /** Delivery errors name exactly the empty ones of payment and address,
      and the delivery form is valid exactly when both are filled in. */
  lemma DeliveryErrors(o: Order)
    ensures PhaseErrors(o, DeliveryPhase).Keys <= {"payment", "address"}
    ensures "payment" in PhaseErrors(o, DeliveryPhase) <==> o.payment == ""
    ensures "address" in PhaseErrors(o, DeliveryPhase) <==> o.address == ""
    ensures "payment" in PhaseErrors(o, DeliveryPhase) ==> PhaseErrors(o, DeliveryPhase)["payment"] == PaymentRequired
    ensures "address" in PhaseErrors(o, DeliveryPhase) ==> PhaseErrors(o, DeliveryPhase)["address"] == AddressRequired
    ensures PhaseErrors(o, DeliveryPhase) == map[] <==> o.payment != "" && o.address != ""
  {
    if o.payment == "" {
      assert "payment" in PhaseErrors(o, DeliveryPhase);
    }
  }

  /** Contact errors name exactly the empty ones of email and phone, and the
      contact form is valid exactly when both are filled in. */
  lemma ContactErrors(o: Order)
    ensures PhaseErrors(o, ContactPhase).Keys <= {"email", "phone"}
    ensures "email" in PhaseErrors(o, ContactPhase) <==> o.email == ""
    ensures "phone" in PhaseErrors(o, ContactPhase) <==> o.phone == ""
    ensures "email" in PhaseErrors(o, ContactPhase) ==> PhaseErrors(o, ContactPhase)["email"] == EmailRequired
    ensures "phone" in PhaseErrors(o, ContactPhase) ==> PhaseErrors(o, ContactPhase)["phone"] == PhoneRequired
    ensures PhaseErrors(o, ContactPhase) == map[] <==> o.email != "" && o.phone != ""
  {
    if o.email == "" {
      assert "email" in PhaseErrors(o, ContactPhase);
    }
  }

  /** The phases never see each other's fields: changing the contact fields
      leaves the delivery errors alone, and the other way round. */
  lemma PhasesIndependent(o: Order, email: string, phone: string, payment: string, address: string)
    ensures PhaseErrors(o.(email := email, phone := phone), DeliveryPhase) == PhaseErrors(o, DeliveryPhase)
    ensures PhaseErrors(o.(payment := payment, address := address), ContactPhase) == PhaseErrors(o, ContactPhase)
  {
  }

  // ---------------------------------------------------------------------
  // Event payloads

  function PriceValue(price: Option<int>): Value {
    match price
    case None => Null
    case Some(n) => Num(n)
  }

  /** A product as the object subscribers receive. */
  function ProductValue(p: Product): Value {
    Obj(map["id" := Str(p.id), "title" := Str(p.title), "description" := Str(p.description),
            "image" := Str(p.image), "category" := Str(p.category), "price" := PriceValue(p.price)])
  }

  /** A product list as the array subscribers receive. */
  function ProductsValue(b: seq<Product>): Value {
    Arr(seq(|b|, i requires 0 <= i < |b| => ProductValue(b[i])))
  }

  /** An error map as the object subscribers receive. */
  function ErrorsValue(e: FormErrors): Value {
    Obj(map k | k in e :: Str(e[k]))
  }

  /** `updateBasketState()`: the counter, then the basket, each carrying it. */
  function BasketEvents(b: seq<Product>): seq<Event> {
    [Event(CounterChanged, ProductsValue(b)), Event(BasketChanged, ProductsValue(b))]
  }

  class AppData {
    /** The `Model` part: the bus handle and the constructor's snapshot. */
    const base: Model
    var catalog: seq<Product>
    var basket: seq<Product>
    var order: Order
    var preview: Option<string>
    var formErrors: FormErrors

    ghost predicate Valid()
      reads this`basket, base.events`topics
    {
      UniqueIds(basket) && base.events.Valid()
    }

    /** `new AppData(data, events)`: the base copies the snapshot, then the
        field initializers set every state field to its empty value. Those
        initializers run after the copy and overwrite any snapshot keys named
        `catalog`, `basket`, `order`, `preview` or `formErrors`, so `props`
        entries under those five names are dead: nothing reads them. */
    constructor (data: map<string, Value>, events: EventEmitter)
      requires events.Valid()
      ensures Valid()
      ensures base.events == events && base.props == data
      ensures catalog == [] && basket == [] && order == EmptyOrder()
      ensures preview == None && formErrors == map[]
    {
      base := new Model(data, events);
      catalog := [];
      basket := [];
      order := EmptyOrder();
      preview := None;
      formErrors := map[];
    }

    method ResetBasket()
      requires Valid()
      modifies this`basket, base.events`published
      ensures Valid()
      ensures basket == []
      ensures base.events.published == old(base.events.published) + BasketEvents([])
    {
      basket := [];
      UpdateBasketState();
    }

    method ResetOrder()
      modifies this`order
      ensures order == EmptyOrder()
    {
      order := EmptyOrder();
    }

    /** Replace the catalog by the given records, one entry each, in order. */
    method SetCatalog(items: seq<Product>)
      requires Valid()
      modifies this`catalog, base.events`published
      ensures Valid()
      ensures catalog == items
      ensures base.events.published ==
        old(base.events.published) + [Event(ItemsChanged, Obj(map["catalog" := ProductsValue(items)]))]
    {
      catalog := items;
      base.EmitChanges(ItemsChanged, Obj(map["catalog" := ProductsValue(catalog)]));
    }

    method SetProductPreview(item: Product)
      requires Valid()
      modifies this`preview, base.events`published
      ensures Valid()
      ensures preview == Some(item.id)
      ensures base.events.published == old(base.events.published) + [Event(PreviewChanged, ProductValue(item))]
    {
      preview := Some(item.id);
      base.EmitChanges(PreviewChanged, ProductValue(item));
    }

    /** `getBasketProducts()`: the basket's current entries. */
    function GetBasketProducts(): (r: seq<Product>)
      reads this`basket
      ensures r == basket
    {
      basket
    }

    /** `isProductInBasket(item)`: some entry has the item's id. */
    function IsProductInBasket(item: Product): (r: bool)
      reads this`basket
      ensures r <==> exists i :: 0 <= i < |basket| && basket[i].id == item.id
    {
      HasId(basket, item.id)
    }

    /** Append a product whose id is new and announce the basket; a product
        already present changes nothing and announces nothing. */
    method AddProductToBasket(item: Product)
      requires Valid()
      modifies this`basket, base.events`published
      ensures Valid()
      ensures old(HasId(basket, item.id)) ==>
        basket == old(basket) && base.events.published == old(base.events.published)
      ensures !old(HasId(basket, item.id)) ==>
        basket == old(basket) + [item] &&
        base.events.published == old(base.events.published) + BasketEvents(basket)
    {
      if !IsProductInBasket(item) {
        AppendUnique(basket, item);
        basket := basket + [item];
        UpdateBasketState();
      }
    }

    /** Drop every entry with the given id and announce the basket, whether
        or not anything was dropped. */
    method RemoveProductFromBasket(id: string)
      requires Valid()
      modifies this`basket, base.events`published
      ensures Valid()
      ensures basket == WithoutId(old(basket), id)
      ensures !HasId(basket, id)
      ensures base.events.published == old(base.events.published) + BasketEvents(basket)
    {
      WithoutIdUnique(basket, id);
      basket := WithoutId(basket, id);
      UpdateBasketState();
    }

    method UpdateBasketState()
      requires Valid()
      modifies base.events`published
      ensures base.events.published == old(base.events.published) + BasketEvents(basket)
    {
      base.EmitChanges(CounterChanged, ProductsValue(basket));
      base.EmitChanges(BasketChanged, ProductsValue(basket));
    }

    method SetPaymentMethod(payment: string)
      requires Valid()
      modifies this`order, this`formErrors, base.events`published
      ensures Valid()
      ensures order == old(order).(payment := payment)
      ensures formErrors == PhaseErrors(order, DeliveryPhase)
      ensures base.events.published == old(base.events.published) + [Event(DeliveryFormError, ErrorsValue(formErrors))]
    {
      order := order.(payment := payment);
      var valid := ValidateOrder(DeliveryPhase);
    }

    method SetOrderFieldDelivery(value: string)
      requires Valid()
      modifies this`order, this`formErrors, base.events`published
      ensures Valid()
      ensures order == old(order).(address := value)
      ensures formErrors == PhaseErrors(order, DeliveryPhase)
      ensures base.events.published == old(base.events.published) + [Event(DeliveryFormError, ErrorsValue(formErrors))]
    {
      order := order.(address := value);
      var valid := ValidateOrder(DeliveryPhase);
    }

    method SetOrderFieldContact(field: ContactField, value: string)
      requires Valid()
      modifies this`order, this`formErrors, base.events`published
      ensures Valid()
      ensures field == Email ==> order == old(order).(email := value)
      ensures field == Phone ==> order == old(order).(phone := value)
      ensures formErrors == PhaseErrors(order, ContactPhase)
      ensures base.events.published == old(base.events.published) + [Event(ContactFormError, ErrorsValue(formErrors))]
    {
      match field {
        case Email => order := order.(email := value);
        case Phone => order := order.(phone := value);
      }
      var valid := ValidateOrder(ContactPhase);
    }

    /** `getTotal()`: the basket's `reduce` sum. */
    function GetTotal(): (r: int)
      reads this`basket
      ensures (forall i :: 0 <= i < |basket| ==> PriceOf(basket[i]) >= 0) ==> r >= 0
    {
      Total(basket)
    }

    /** `getPurchaseIds()`: the ids of the basket entries, in basket order. */
    function GetPurchaseIds(): (r: seq<string>)
      reads this`basket
      ensures |r| == |basket|
      ensures forall i :: 0 <= i < |basket| ==> r[i] == basket[i].id
    {
      Ids(basket)
    }

    /** Build the phase's error map field by field, announce it, keep it as
        the only current errors, and report whether it is empty. */
    method ValidateOrder(phase: Phase) returns (valid: bool)
      requires Valid()
      modifies this`formErrors, base.events`published
      ensures Valid()
      ensures formErrors == PhaseErrors(order, phase)
      ensures valid <==> formErrors == map[]
      ensures base.events.published == old(base.events.published) + [Event(PhaseEvent(phase), ErrorsValue(formErrors))]
    {
      var o := order;
      var errors: FormErrors := map[];
      var event: string;
      PhaseErrorsStepwise(o);
      match phase {
        case DeliveryPhase =>
          if o.payment == "" {
            errors := errors["payment" := PaymentRequired];
          }
          if o.address == "" {
            errors := errors["address" := AddressRequired];
          }
          event := DeliveryFormError;
        case ContactPhase =>
          if o.email == "" {
            errors := errors["email" := EmailRequired];
          }
          if o.phone == "" {
            errors := errors["phone" := PhoneRequired];
          }
          event := ContactFormError;
      }
      assert errors == PhaseErrors(o, phase) && event == PhaseEvent(phase);
      var delivered := base.events.Emit(event, ErrorsValue(errors));
      formErrors := errors;
      NoKeys(errors);
      valid := |errors| == 0;
    }
  }
}

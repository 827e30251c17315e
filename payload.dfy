/** The request body the handler sends to PayEvo, built from the checkout
    body with a default for every field the caller may leave out. */
module Payload {
  import opened Js

  const PaymentMethod := "PIX"
  const DefaultDescription := "Pagamento PIX"
  const DefaultName := "Cliente"
  const DefaultEmail := "cliente@pedagiodigital.com.br"
  const DefaultPhone := "11999999999"
  const DefaultTitle := "Pagamento"
  const DefaultQuantity := 1.0
  const DefaultRef := "PIX"

  datatype Customer = Customer(name: Value, email: Value, phone: Value)

  datatype Item = Item(title: Value, unitPrice: Value, quantity: Value, externalRef: Value)

  /** Fields are `Value`s because `x || d` passes any truthy `x` through
      unchanged, whatever its type; only the payment method is fixed. */
  datatype Payload = Payload(
    amount: Value,
    paymentMethod: string,
    description: Value,
    customer: Customer,
    items: seq<Item>)

  /** The items of the checkout body as the builder maps them: the array's
      elements, or none when `items` is falsy (`body.items || []`). */
  function ListedItems(body: Value): (xs: seq<Value>)
    ensures !Truthy(Get(body, "items")) ==> xs == []
    ensures Get(body, "items").Arr? ==> xs == Get(body, "items").elems
  {
    var items := Get(body, "items");
    if items.Arr? then items.elems else []
  }

  /** The callback given to `map`, for an item that is not `null`/`undefined`.
      `topRef` is the body's own `externalRef`. */
  function ItemFor(item: Value, topRef: Value): (it: Item)
    ensures Truthy(it.title) && Truthy(it.quantity) && Truthy(it.externalRef)
    ensures it.unitPrice == Get(item, "unitPrice")
  {
    Item(
      Or(Get(item, "title"), Str(DefaultTitle)),
      Get(item, "unitPrice"),
      Or(Get(item, "quantity"), Num(DefaultQuantity)),
      Or(Or(topRef, Get(item, "title")), Str(DefaultRef)))
  }

  /** `items.map(item => ...)`: throws as soon as an element is `null` or
      `undefined` (`item.title`), otherwise maps every element in order. */
  function BuildItems(xs: seq<Value>, topRef: Value): (r: Completion<seq<Item>>)
    ensures r.Normal? <==> forall i :: 0 <= i < |xs| ==> !Nullish(xs[i])
    ensures r.Normal? ==> |r.value| == |xs|
    ensures r.Normal? ==> forall i :: 0 <= i < |xs| ==> r.value[i] == ItemFor(xs[i], topRef)
  {
    if xs == [] then Normal([])
    else if Nullish(xs[0]) then Throw
    else match BuildItems(xs[1..], topRef)
      case Throw => Throw
      case Normal(rest) => Normal([ItemFor(xs[0], topRef)] + rest)
  }

  /** The payload object literal. It throws when the body is `null` or
      `undefined` (`body.amount`), when `body.items || []` is not an array
      (it has no `map`), and when an item is `null` or `undefined`. */
  function BuildPayload(body: Value): (r: Completion<Payload>)
    ensures r.Throw? <==>
      || Nullish(body)
      || (Truthy(Get(body, "items")) && !Get(body, "items").Arr?)
      || (exists i :: 0 <= i < |ListedItems(body)| && Nullish(ListedItems(body)[i]))
    ensures r.Normal? ==> r.value.paymentMethod == "PIX" && r.value.amount == Get(body, "amount")
    ensures r.Normal? ==> |r.value.items| == |ListedItems(body)|
    ensures r.Normal? ==> forall i :: 0 <= i < |ListedItems(body)| ==>
      r.value.items[i] == ItemFor(ListedItems(body)[i], Get(body, "externalRef"))
  {
    if Nullish(body) then Throw
    else
      var source := Or(Get(body, "items"), Arr([]));
      if !source.Arr? then Throw
      else
        assert source.elems == ListedItems(body);
        match BuildItems(source.elems, Get(body, "externalRef"))
        case Throw => Throw
        case Normal(items) =>
          var customer := Get(body, "customer");
          Normal(Payload(
            Get(body, "amount"),
            PaymentMethod,
            Or(Get(First(Get(body, "items")), "title"), Str(DefaultDescription)),
            Customer(
              Or(Get(customer, "name"), Str(DefaultName)),
              Or(Get(customer, "email"), Str(DefaultEmail)),
              Or(Get(customer, "phone"), Str(DefaultPhone))),
            items))
  }

  /** The payload as the JavaScript object handed to `JSON.stringify`. */
  function ItemObject(it: Item): (v: Value)
    ensures v.Obj? && v.fields.Keys == {"title", "unitPrice", "quantity", "externalRef"}
    ensures Get(v, "title") == it.title && Get(v, "unitPrice") == it.unitPrice
    ensures Get(v, "quantity") == it.quantity && Get(v, "externalRef") == it.externalRef
  {
    Obj(map[
      "title" := it.title,
      "unitPrice" := it.unitPrice,
      "quantity" := it.quantity,
      "externalRef" := it.externalRef])
  }

  function PayloadObject(p: Payload): (v: Value)
    ensures v.Obj? && v.fields.Keys == {"amount", "paymentMethod", "description", "customer", "items"}
    ensures Get(v, "paymentMethod") == Str(p.paymentMethod) && Get(v, "amount") == p.amount
    ensures Get(v, "description") == p.description
    ensures var c := Get(v, "customer");
      c.Obj? && c.fields.Keys == {"name", "email", "phone"}
      && Get(c, "name") == p.customer.name && Get(c, "email") == p.customer.email
      && Get(c, "phone") == p.customer.phone
    ensures Get(v, "items").Arr? && |Get(v, "items").elems| == |p.items|
    ensures forall i :: 0 <= i < |p.items| ==> Get(v, "items").elems[i] == ItemObject(p.items[i])
  {
    Obj(map[
      "amount" := p.amount,
      "paymentMethod" := Str(p.paymentMethod),
      "description" := p.description,
      "customer" := Obj(map[
        "name" := p.customer.name,
        "email" := p.customer.email,
        "phone" := p.customer.phone]),
      "items" := Arr(seq(|p.items|, i requires 0 <= i < |p.items| => ItemObject(p.items[i])))])
  }

  /** Each output item comes from the input item at the same position: its
      title and quantity are the input's when truthy and otherwise the
      defaults, its price is copied unchanged, and its reference is the
      body's `externalRef`, else the item's raw title, else "PIX". */
  lemma ItemsFollowInput(body: Value, i: int)
    requires BuildPayload(body).Normal?
    requires 0 <= i < |ListedItems(body)|
    ensures var item, out := ListedItems(body)[i], BuildPayload(body).value.items[i];
      && out.unitPrice == Get(item, "unitPrice")
      && out.title == (if Truthy(Get(item, "title")) then Get(item, "title") else Str(DefaultTitle))
      && out.quantity == (if Truthy(Get(item, "quantity")) then Get(item, "quantity") else Num(DefaultQuantity))
      && out.externalRef ==
           (if Truthy(Get(body, "externalRef")) then Get(body, "externalRef")
            else if Truthy(Get(item, "title")) then Get(item, "title")
            else Str(DefaultRef))
  {
  }

  /** A falsy or missing `items` gives an empty item list, not an error. */
  lemma NoItemsGiveEmptyList(body: Value)
    requires !Nullish(body) && !Truthy(Get(body, "items"))
    ensures BuildPayload(body).Normal? && BuildPayload(body).value.items == []
  {
  }

  /** `||` replaces every falsy value: a quantity of 0 becomes 1 and an
      empty title becomes "Pagamento". */
  lemma FalsyItemFieldsAreReplaced(unitPrice: Value, topRef: Value)
    ensures var it := ItemFor(Obj(map["title" := Str(""), "unitPrice" := unitPrice, "quantity" := Num(0.0)]), topRef);
      it.quantity == Num(1.0) && it.title == Str("Pagamento") && it.unitPrice == unitPrice
  {
  }

  /** The reference chain reads the item's raw title, not its default: an
      item whose title is empty, in a body without `externalRef`, gets the
      reference "PIX" although its title becomes "Pagamento". */
  lemma ExternalRefChain(item: Value, topRef: Value)
    requires !Nullish(item)
    ensures var it := ItemFor(item, topRef);
      && (Truthy(topRef) ==> it.externalRef == topRef)
      && (!Truthy(topRef) && Truthy(Get(item, "title")) ==> it.externalRef == Get(item, "title"))
      && (!Truthy(topRef) && !Truthy(Get(item, "title")) ==>
            it.externalRef == Str(DefaultRef) && it.title == Str(DefaultTitle))
  {
  }

  /** The description is the first item's title when truthy, else
      "Pagamento PIX"; each customer field falls back to its own default
      independently of the others. */
  lemma DescriptionAndCustomerDefaults(body: Value)
    requires BuildPayload(body).Normal?
    ensures var p, c := BuildPayload(body).value, Get(body, "customer");
      var title := Get(First(Get(body, "items")), "title");
      && p.description == (if Truthy(title) then title else Str(DefaultDescription))
      && p.customer.name == (if Truthy(Get(c, "name")) then Get(c, "name") else Str(DefaultName))
      && p.customer.email == (if Truthy(Get(c, "email")) then Get(c, "email") else Str(DefaultEmail))
      && p.customer.phone == (if Truthy(Get(c, "phone")) then Get(c, "phone") else Str(DefaultPhone))
  {
  }
}

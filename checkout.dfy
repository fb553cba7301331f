/**
 * Creating a checkout session: the client's cart is validated item by item
 * against the product catalog and turned into priced line items, whose unit
 * price always comes from the catalog; the line items, the optional email and
 * the optional user id then make up the payment session's configuration.
 *
 * Money is an integer number of cents throughout.
 */
module Checkout {
  import opened Wrappers

  /** A named price variant of a product (a size); `price` in cents. */
  datatype PriceTier = PriceTier(sizeLabel: string, price: int)

  /** A catalog product. An absent Korean name is the empty string. */
  datatype Product = Product(name: string, soldOut: bool, prices: seq<PriceTier>, korean: string)

  /** The product collection, keyed by product id. */
  type Catalog = map<string, Product>

  /** One client-supplied cart entry; nothing in it is trusted. */
  datatype CartItem = CartItem(id: string, size: string, qty: int)

  /** One priced entry of the payment session; `unitAmount` in cents. */
  datatype LineItem = LineItem(currency: string, name: string, description: string, unitAmount: int, quantity: int)

  /** The validation failures, in the order the handler checks for them. */
  datatype CheckoutError =
    | CartEmpty
    | ProductNotFound(id: string)
    | SoldOut(name: string)
    | InvalidSize(name: string, size: string)

  /**
   * The part of the session request that depends on the input: the line
   * items, the user id carried in the metadata, and the customer email,
   * which is only present when one was supplied.
   */
  datatype SessionConfig = SessionConfig(lineItems: seq<LineItem>, metadataUserId: string, customerEmail: Option<string>)

  const Currency: string := "aud"

  /** The error text the handler returns with status 400. */
  function Message(e: CheckoutError): (m: string)
    ensures e.CartEmpty? ==> m == "Cart is empty"
    ensures e.ProductNotFound? ==> |e.id| <= |m| && m[|m| - |e.id|..] == e.id
    ensures e.SoldOut? ==> |e.name| <= |m| && m[..|e.name|] == e.name
    ensures e.InvalidSize? ==> |e.size| <= |m| && m[|m| - |e.size|..] == e.size
  {
    match e
    case CartEmpty => "Cart is empty"
    case ProductNotFound(id) => "Product not found: " + id
    case SoldOut(name) => name + " is sold out"
    case InvalidSize(name, size) => "Invalid size for " + name + ": " + size
  }

  /** The position of the first tier whose label is `size`, as `prices.find` picks it. */
  function FindTierIndex(prices: seq<PriceTier>, size: string): (r: Option<nat>)
    ensures r.Some? ==> r.value < |prices| && prices[r.value].sizeLabel == size
    ensures r.Some? ==> forall j :: 0 <= j < r.value ==> prices[j].sizeLabel != size
    ensures r.None? <==> forall j :: 0 <= j < |prices| ==> prices[j].sizeLabel != size
  {
    if prices == [] then None
    else if prices[0].sizeLabel == size then Some(0)
    else
      match FindTierIndex(prices[1..], size)
      case None => None
      case Some(k) => Some(k + 1)
  }

  /** The tier label, followed by " (<korean name>)" when the product has one. */
  function Description(p: Product, t: PriceTier): (d: string)
    ensures |t.sizeLabel| <= |d| && d[..|t.sizeLabel|] == t.sizeLabel
  {
    t.sizeLabel + (if p.korean != "" then " (" + p.korean + ")" else "")
  }

  /** The validation of one cart item: lookup, then sold out, then size. */
  function PriceItem(catalog: Catalog, item: CartItem): (r: Result<LineItem, CheckoutError>)
    ensures r.Success? ==> item.id in catalog && !catalog[item.id].soldOut
    ensures r.Success? ==> r.value.currency == "aud" && r.value.quantity == item.qty
  {
    if item.id !in catalog then Failure(ProductNotFound(item.id))
    else
      var p := catalog[item.id];
      if p.soldOut then Failure(SoldOut(p.name))
      else
        match FindTierIndex(p.prices, item.size)
        case None => Failure(InvalidSize(p.name, item.size))
        case Some(k) =>
          Success(LineItem(Currency, p.name, Description(p, p.prices[k]), p.prices[k].price, item.qty))
  }

  /**
   * The validation of a whole cart, in cart order: the line items of every
   * item, or the error of the first item that fails. Defined by peeling
   * off the last item, so that it describes every prefix the loop has seen.
   */
  function PriceCart(catalog: Catalog, items: seq<CartItem>): (r: Result<seq<LineItem>, CheckoutError>)
    ensures r.Success? ==> |r.value| == |items|
  {
    if items == [] then Success([])
    else
      match PriceCart(catalog, items[..|items| - 1])
      case Failure(e) => Failure(e)
      case Success(ls) =>
        match PriceItem(catalog, items[|items| - 1])
        case Failure(e) => Failure(e)
        case Success(l) => Success(ls + [l])
  }

  /**
   * The description starts with the tier label and is exactly the label
   * when, and only when, the product has no Korean name.
   */
  lemma DescriptionShape(p: Product, t: PriceTier)
    ensures |t.sizeLabel| <= |Description(p, t)| && Description(p, t)[..|t.sizeLabel|] == t.sizeLabel
    ensures Description(p, t) == t.sizeLabel <==> p.korean == ""
    ensures p.korean != "" ==> Description(p, t) == t.sizeLabel + " (" + p.korean + ")"
  {
  }

  /**
   * One item is accepted exactly when its product exists, is not sold out
   * and offers the requested size; the sold-out check wins over the size
   * check; an accepted item is priced from the first matching tier.
   */
  lemma PriceItemOutcome(catalog: Catalog, item: CartItem)
    ensures item.id !in catalog ==> PriceItem(catalog, item) == Failure(ProductNotFound(item.id))
    ensures item.id in catalog && catalog[item.id].soldOut ==>
              PriceItem(catalog, item) == Failure(SoldOut(catalog[item.id].name))
    ensures item.id in catalog && !catalog[item.id].soldOut &&
            (forall j :: 0 <= j < |catalog[item.id].prices| ==> catalog[item.id].prices[j].sizeLabel != item.size) ==>
              PriceItem(catalog, item) == Failure(InvalidSize(catalog[item.id].name, item.size))
    ensures PriceItem(catalog, item).Success? <==>
              item.id in catalog && !catalog[item.id].soldOut &&
              exists j :: 0 <= j < |catalog[item.id].prices| && catalog[item.id].prices[j].sizeLabel == item.size
    ensures PriceItem(catalog, item).Success? ==>
              var p := catalog[item.id];
              var l := PriceItem(catalog, item).value;
              exists k :: 0 <= k < |p.prices| && p.prices[k].sizeLabel == item.size &&
                (forall j :: 0 <= j < k ==> p.prices[j].sizeLabel != item.size) &&
                l == LineItem(Currency, p.name, Description(p, p.prices[k]), p.prices[k].price, item.qty)
  {
  }

  /** An error in a prefix of the cart is the error of every longer cart. */
  lemma {:induction false} FailureIgnoresSuffix(catalog: Catalog, xs: seq<CartItem>, ys: seq<CartItem>)
    requires PriceCart(catalog, xs).Failure?
    ensures PriceCart(catalog, xs + ys) == PriceCart(catalog, xs)
    decreases |ys|
  {
    if ys != [] {
      var zs := xs + ys;
      assert zs[..|zs| - 1] == xs + ys[..|ys| - 1];
      FailureIgnoresSuffix(catalog, xs, ys[..|ys| - 1]);
    } else {
      assert xs + ys == xs;
    }
  }

  /**
   * When every item before position `i` is accepted and the item at `i`
   * fails, the cart fails with that item's error: later items never matter.
   */
  lemma FirstFailureWins(catalog: Catalog, items: seq<CartItem>, i: nat)
    requires i < |items|
    requires PriceCart(catalog, items[..i]).Success?
    requires PriceItem(catalog, items[i]).Failure?
    ensures PriceCart(catalog, items) == Failure(PriceItem(catalog, items[i]).error)
  {
    var head := items[..i + 1];
    assert head[..|head| - 1] == items[..i];
    assert items == head + items[i + 1..];
    FailureIgnoresSuffix(catalog, head, items[i + 1..]);
  }

  /**
   * A cart is accepted exactly when each of its items is, and then there is
   * one line item per cart item, in cart order.
   */
  lemma {:induction false} PriceCartAccepts(catalog: Catalog, items: seq<CartItem>)
    ensures PriceCart(catalog, items).Success? <==>
              forall i :: 0 <= i < |items| ==> PriceItem(catalog, items[i]).Success?
    ensures PriceCart(catalog, items).Success? ==>
              |PriceCart(catalog, items).value| == |items| &&
              forall i :: 0 <= i < |items| ==> PriceItem(catalog, items[i]) == Success(PriceCart(catalog, items).value[i])
    decreases |items|
  {
    if items != [] {
      var init := items[..|items| - 1];
      PriceCartAccepts(catalog, init);
      assert forall i :: 0 <= i < |init| ==> init[i] == items[i];
    }
  }

  /**
   * A rejected cart is rejected with the error of its first failing item:
   * every item before it is accepted.
   */
  lemma {:induction false} PriceCartRejects(catalog: Catalog, items: seq<CartItem>)
    requires PriceCart(catalog, items).Failure?
    ensures exists k :: 0 <= k < |items| &&
              PriceItem(catalog, items[k]) == Failure(PriceCart(catalog, items).error) &&
              forall j :: 0 <= j < k ==> PriceItem(catalog, items[j]).Success?
    decreases |items|
  {
    var init := items[..|items| - 1];
    var last := |items| - 1;
    assert forall i :: 0 <= i < |init| ==> init[i] == items[i];
    if PriceCart(catalog, init).Failure? {
      PriceCartRejects(catalog, init);
      var k :| 0 <= k < |init| &&
               PriceItem(catalog, init[k]) == Failure(PriceCart(catalog, init).error) &&
               forall j :: 0 <= j < k ==> PriceItem(catalog, init[j]).Success?;
      assert PriceItem(catalog, items[k]) == Failure(PriceCart(catalog, items).error);
    } else {
      PriceCartAccepts(catalog, init);
      assert PriceItem(catalog, items[last]) == Failure(PriceCart(catalog, items).error);
    }
  }

  /**
   * Price integrity: each line item of an accepted cart is charged the
   * catalog price of the first tier matching the item's size, in "aud",
   * for the item's quantity.
   */
  lemma PriceFromCatalog(catalog: Catalog, items: seq<CartItem>, i: nat)
    requires PriceCart(catalog, items).Success?
    requires i < |items|
    ensures items[i].id in catalog
    ensures FindTierIndex(catalog[items[i].id].prices, items[i].size).Some?
    ensures |PriceCart(catalog, items).value| == |items|
    ensures var p := catalog[items[i].id];
            var l := PriceCart(catalog, items).value[i];
            l.unitAmount == p.prices[FindTierIndex(p.prices, items[i].size).value].price &&
            l.currency == "aud" && l.quantity == items[i].qty && l.name == p.name
  {
  }

  /** Two carts that ask for the same products and sizes. */
  ghost predicate SameSelection(a: seq<CartItem>, b: seq<CartItem>) {
    |a| == |b| && forall i :: 0 <= i < |a| ==> a[i].id == b[i].id && a[i].size == b[i].size
  }

  /** Line items that agree on everything but the quantity. */
  ghost predicate SameCharges(a: seq<LineItem>, b: seq<LineItem>) {
    |a| == |b| && forall i :: 0 <= i < |a| ==> a[i].(quantity := 0) == b[i].(quantity := 0)
  }

  /**
   * What the cart is charged depends only on which products and sizes it
   * selects: the quantities change neither the verdict nor any price.
   */
  lemma {:induction false} ChargesIgnoreQuantity(catalog: Catalog, a: seq<CartItem>, b: seq<CartItem>)
    requires SameSelection(a, b)
    ensures PriceCart(catalog, a).Success? <==> PriceCart(catalog, b).Success?
    ensures PriceCart(catalog, a).Failure? ==> PriceCart(catalog, a) == PriceCart(catalog, b)
    ensures PriceCart(catalog, a).Success? ==> SameCharges(PriceCart(catalog, a).value, PriceCart(catalog, b).value)
    decreases |a|
  {
    if a != [] {
      var a', b' := a[..|a| - 1], b[..|b| - 1];
      assert SameSelection(a', b') by {
        assert forall i :: 0 <= i < |a'| ==> a'[i] == a[i] && b'[i] == b[i];
      }
      ChargesIgnoreQuantity(catalog, a', b');
      var x, y := a[|a| - 1], b[|b| - 1];
      assert x.id == y.id && x.size == y.size;
      if PriceCart(catalog, a').Success? && PriceItem(catalog, x).Success? {
        var la, lb := PriceCart(catalog, a').value, PriceCart(catalog, b').value;
        var na, nb := la + [PriceItem(catalog, x).value], lb + [PriceItem(catalog, y).value];
        assert forall i :: 0 <= i < |la| ==> na[i] == la[i] && nb[i] == lb[i];
      }
    }
  }

  /**
   * The checkout handler: reject an empty cart, validate and price every
   * item in cart order (the first failure aborts), then build the session
   * configuration. A `Success` is the only outcome that opens a session.
   * A missing or non-array `items` is `None`.
   */
  method CreateCheckoutSession(catalog: Catalog, items: Option<seq<CartItem>>,
                               customerEmail: Option<string>, userId: Option<string>)
    returns (r: Result<SessionConfig, CheckoutError>)
    ensures items.None? || items.value == [] ==> r == Failure(CartEmpty)
    ensures items.Some? && items.value != [] ==>
              (r.Success? <==> PriceCart(catalog, items.value).Success?)
    ensures items.Some? && items.value != [] && r.Failure? ==>
              r.error == PriceCart(catalog, items.value).error
    ensures r.Success? ==> items.Some? && r.value.lineItems == PriceCart(catalog, items.value).value
    ensures r.Success? ==> r.value.metadataUserId == userId.GetOr("")
    ensures r.Success? ==> (r.value.customerEmail.Some? <==> customerEmail.Some? && customerEmail.value != "")
    ensures r.Success? && r.value.customerEmail.Some? ==> r.value.customerEmail == customerEmail
  {
    if items.None? || items.value == [] {
      return Failure(CartEmpty);
    }
    var cart := items.value;
    var lineItems: seq<LineItem> := [];
    var i := 0;
    while i < |cart|
      invariant 0 <= i <= |cart|
      invariant PriceCart(catalog, cart[..i]) == Success(lineItems)
    {
      var item := cart[i];
      if item.id !in catalog {
        FirstFailureWins(catalog, cart, i);
        return Failure(ProductNotFound(item.id));
      }
      var product := catalog[item.id];
      if product.soldOut {
        FirstFailureWins(catalog, cart, i);
        return Failure(SoldOut(product.name));
      }
      var tier := FindTierIndex(product.prices, item.size);
      if tier.None? {
        FirstFailureWins(catalog, cart, i);
        return Failure(InvalidSize(product.name, item.size));
      }
      var t := product.prices[tier.value];
      lineItems := lineItems + [LineItem(Currency, product.name, Description(product, t), t.price, item.qty)];
      assert cart[..i + 1][..i] == cart[..i];
      i := i + 1;
    }
    assert cart[..i] == cart;

    var config := SessionConfig(lineItems, userId.GetOr(""), None);
    if customerEmail.Some? && customerEmail.value != "" {
      config := config.(customerEmail := customerEmail);
    }
    return Success(config);
  }
}

/**
 * `/api/orders`.  POST turns a cart into one order: every product must be
 * found, all must come from one seller, a missing or zero quantity counts
 * as one, the total is the sum of price times quantity, and the order is
 * paid when the body carries a payment.  GET lists the caller's own orders,
 * newest first, a page at a time.
 */
module OrdersRoute {
  import opened Wrappers
  import opened Http
  import Seqs
  import Paging
  import opened OrderModel

  /** A product as the route reads it. */
  datatype Product = Product(id: Id, name: string, price: int, seller: Id)

  /** A cart line of the body: `quantity` may be missing, and 0 is as good as missing. */
  datatype CartItem = CartItem(productId: Id, quantity: Option<int>)

  /** `items` is None when the body's `items` is missing or not an array; `payment` is its truthiness. */
  datatype PostBody = PostBody(items: Option<seq<CartItem>>, payment: bool)

  /** A resolved line, which still knows its product's seller. */
  datatype Line = Line(product: Id, name: string, price: int, quantity: int, seller: Id)

  const InvalidItems := HttpError(400, "Invalid items")
  const MultipleSellers := HttpError(400, "Multiple sellers in cart not supported")

  /** `products.find(...)`: the first product with that id. */
  function FindProduct(products: seq<Product>, id: Id): (r: Option<Product>)
    ensures r.Some? ==> r.value in products && r.value.id == id
    ensures r.None? ==> forall p :: p in products ==> p.id != id
  {
    if products == [] then None
    else if products[0].id == id then Some(products[0])
    else FindProduct(products[1..], id)
  }

  /** `Number(it.quantity || 1)`. */
  function Quantity(q: Option<int>): (r: int)
    ensures r == (if q.Some? && q.value != 0 then q.value else 1)
  {
    if q.None? || q.value == 0 then 1 else q.value
  }

  function LineOf(p: Product, it: CartItem): Line {
    Line(p.id, p.name, p.price, Quantity(it.quantity), p.seller)
  }

  /** `items.map(...)`, which throws as soon as one product is not found. */
  function Resolve(products: seq<Product>, items: seq<CartItem>): (r: Option<seq<Line>>)
    ensures r.Some? <==> forall i :: 0 <= i < |items| ==> FindProduct(products, items[i].productId).Some?
    ensures r.Some? ==> |r.value| == |items|
    ensures r.Some? ==> forall i :: 0 <= i < |items| ==> r.value[i] == LineOf(FindProduct(products, items[i].productId).value, items[i])
  {
    if items == [] then Some([])
    else
      match FindProduct(products, items[0].productId)
      case None => None
      case Some(p) =>
        match Resolve(products, items[1..])
        case None => None
        case Some(rest) => Some([LineOf(p, items[0])] + rest)
  }

  /** `Array.from(new Set(xs))`: the distinct values in order of first appearance. */
  function Distinct(xs: seq<Id>): (r: seq<Id>)
    ensures forall x :: x in r <==> x in xs
    ensures xs != [] ==> r != [] && r[0] == xs[0]
  {
    if xs == [] then []
    else
      var r := Distinct(xs[..|xs| - 1]);
      if xs[|xs| - 1] in r then r else r + [xs[|xs| - 1]]
  }

  function Sellers(lines: seq<Line>): (r: seq<Id>)
    ensures |r| == |lines| && forall i :: 0 <= i < |lines| ==> r[i] == lines[i].seller
  {
    if lines == [] then [] else [lines[0].seller] + Sellers(lines[1..])
  }

  /** The stored line: the same without its seller. */
  function Stored(lines: seq<Line>): (r: seq<OrderItem>)
    ensures |r| == |lines|
    ensures forall i :: 0 <= i < |lines| ==>
      r[i] == OrderItem(lines[i].product, lines[i].name, lines[i].price, lines[i].quantity)
  {
    if lines == [] then [] else [OrderItem(lines[0].product, lines[0].name, lines[0].price, lines[0].quantity)] + Stored(lines[1..])
  }

  /** `POST`: the response and the order collection afterwards; `id` and `now` are what the new order gets. */
  function Post(session: Session, products: seq<Product>, orders: seq<Order>, b: PostBody, id: Id, now: int)
    : (Result<Order, HttpError>, seq<Order>)
  {
    if session.Refused() then (Err(Unauthorized), orders)
    else if session.DecodeThrew? then (Err(Failed), orders)
    else if b.items.None? || b.items.value == [] then (Err(InvalidItems), orders)
    else
      match Resolve(products, b.items.value)
      case None => (Err(Failed), orders)
      case Some(lines) => PlaceOrder(session.userId, lines, b.payment, orders, id, now)
  }

  /** The rest of `POST` once every product is found: the seller check and the insert. */
  function PlaceOrder(user: Id, lines: seq<Line>, payment: bool, orders: seq<Order>, id: Id, now: int)
    : (Result<Order, HttpError>, seq<Order>)
    requires lines != []
  {
    var sellers := Distinct(Sellers(lines));
    if |sellers| > 1 then (Err(MultipleSellers), orders)
    else
      var input := OrderInput(Some(sellers[0]), Some(user), Stored(lines),
                              Some(ItemsTotal(Stored(lines))), Some(if payment then Paid else Pending), None);
      match Create(input, id, now)
      case Err(_) => (Err(Failed), orders)
      case Ok(o) => (Ok(o), orders + [o])
  }

  /** With one seller, placing the order fails exactly when some stored line fails validation. */
  lemma PlaceOrderFailsOnInvalidLine(user: Id, lines: seq<Line>, payment: bool, orders: seq<Order>, id: Id, now: int)
    requires lines != [] && |Distinct(Sellers(lines))| <= 1
    ensures var items := Stored(lines);
      PlaceOrder(user, lines, payment, orders, id, now).0.Err? <==> exists k :: 0 <= k < |items| && !ValidItem(items[k])
    ensures PlaceOrder(user, lines, payment, orders, id, now).0.Err? ==> PlaceOrder(user, lines, payment, orders, id, now) == (Err(Failed), orders)
  {
    var items := Stored(lines);
    var input := OrderInput(Some(Distinct(Sellers(lines))[0]), Some(user), items,
                            Some(ItemsTotal(items)), Some(if payment then Paid else Pending), None);
    var c := Create(input, id, now);
    assert PlaceOrder(user, lines, payment, orders, id, now)
        == (if c.Err? then (Err(Failed), orders) else (Ok(c.value), orders + [c.value]));
    CreateOkIff(input, id, now);
    if k :| 0 <= k < |items| && !ValidItem(items[k]) {
      assert !ValidItem(input.items[k]);
      assert c.Err?;
      assert exists j :: 0 <= j < |Stored(lines)| && !ValidItem(Stored(lines)[j]);
    } else {
      ItemsTotalNonNegative(items);
    }
  }

  /**
   * Without decoded claims nothing is stored: no token or a null decode is
   * 401, and a decode that throws reaches the catch, 500.
   */
  lemma PostUnauthenticated(session: Session, products: seq<Product>, orders: seq<Order>, b: PostBody, id: Id, now: int)
    requires !session.Decoded?
    ensures session.Refused() ==> Post(session, products, orders, b, id, now) == (Err(HttpError(401, "Unauthorized")), orders)
    ensures session.DecodeThrew? ==> Post(session, products, orders, b, id, now) == (Err(HttpError(500, "Failed")), orders)
  {
  }

  /** A missing or empty cart is refused with 400. */
  lemma PostNeedsItems(session: Session, products: seq<Product>, orders: seq<Order>, b: PostBody, id: Id, now: int)
    requires session.Decoded? && (b.items.None? || b.items.value == [])
    ensures Post(session, products, orders, b, id, now) == (Err(InvalidItems), orders)
  {
  }

  /** One product that cannot be found fails the whole order with 500, and nothing is created. */
  lemma UnknownProductFails(session: Session, products: seq<Product>, orders: seq<Order>, b: PostBody, id: Id, now: int, i: nat)
    requires session.Decoded? && b.items.Some? && i < |b.items.value|
    requires forall p :: p in products ==> p.id != b.items.value[i].productId
    ensures Post(session, products, orders, b, id, now) == (Err(Failed), orders)
  {
    assert FindProduct(products, b.items.value[i].productId).None?;
  }

  /** Two found products with different sellers make the cart refused with 400. */
  lemma MixedSellersRefused(session: Session, products: seq<Product>, orders: seq<Order>, b: PostBody, id: Id, now: int, i: nat, j: nat)
    requires session.Decoded? && b.items.Some?
    requires forall k :: 0 <= k < |b.items.value| ==> FindProduct(products, b.items.value[k].productId).Some?
    requires i < |b.items.value| && j < |b.items.value|
    requires FindProduct(products, b.items.value[i].productId).value.seller
          != FindProduct(products, b.items.value[j].productId).value.seller
    ensures Post(session, products, orders, b, id, now) == (Err(MultipleSellers), orders)
  {
    var lines := Resolve(products, b.items.value).value;
    var ss := Sellers(lines);
    assert ss[i] != ss[j];
    TwoSellers(ss, i, j);
  }

  /** Two different values leave more than one distinct value. */
  lemma TwoSellers(xs: seq<Id>, i: nat, j: nat)
    requires i < |xs| && j < |xs| && xs[i] != xs[j]
    ensures |Distinct(xs)| > 1
  {
    if |Distinct(xs)| <= 1 {
      OneSeller(xs);
    }
  }

  /** With at most one distinct seller, every line has the first line's seller. */
  lemma OneSeller(xs: seq<Id>)
    requires xs != [] && |Distinct(xs)| <= 1
    ensures forall k :: 0 <= k < |xs| ==> xs[k] == xs[0]
  {
    var r := Distinct(xs);
    assert |r| == 1 && r[0] == xs[0];
    forall k | 0 <= k < |xs| ensures xs[k] == xs[0] {
      assert xs[k] in xs;
      assert xs[k] in r;
    }
  }

  /**
   * A created order belongs to the caller and to the one seller of every
   * product in the cart; its items are the cart's products, in order, with
   * their name and price and the quantity (a missing or zero one counting
   * as 1); its total is the sum of price times quantity; it is "paid"
   * exactly when the body had a payment; and it is appended to the
   * collection.
   */
  lemma PostCreated(session: Session, products: seq<Product>, orders: seq<Order>, b: PostBody, id: Id, now: int)
    requires Post(session, products, orders, b, id, now).0.Ok?
    ensures session.Decoded? && b.items.Some?
    ensures var (r, after) := Post(session, products, orders, b, id, now);
      var o := r.value;
      var cart := b.items.value;
      && after == orders + [o]
      && o.id == id && o.user == Some(session.userId) && o.createdAt == now
      && ValidOrder(o)
      && |o.items| == |cart| > 0
      && (forall k :: 0 <= k < |cart| ==>
            var p := FindProduct(products, cart[k].productId);
            && p.Some? && p.value.seller == o.seller
            && o.items[k] == OrderItem(p.value.id, p.value.name, p.value.price, Quantity(cart[k].quantity)))
      && o.total == ItemsTotal(o.items)
      && o.status == (if b.payment then Paid else Pending)
  {
    var lines := Resolve(products, b.items.value).value;
    PlaceOrderCreated(session.userId, lines, b.payment, orders, id, now);
    PlaceOrderSeller(session.userId, lines, b.payment, orders, id, now);
    var o := PlaceOrder(session.userId, lines, b.payment, orders, id, now).0.value;
    forall k | 0 <= k < |b.items.value|
      ensures var p := FindProduct(products, b.items.value[k].productId);
        && p.Some? && p.value.seller == o.seller
        && o.items[k] == OrderItem(p.value.id, p.value.name, p.value.price, Quantity(b.items.value[k].quantity))
    {
      assert lines[k] == LineOf(FindProduct(products, b.items.value[k].productId).value, b.items.value[k]);
    }
  }

  /** A placed order is valid, appended, and holds the stored lines, the total of their prices times quantities and the status. */
  lemma PlaceOrderCreated(user: Id, lines: seq<Line>, payment: bool, orders: seq<Order>, id: Id, now: int)
    requires lines != [] && PlaceOrder(user, lines, payment, orders, id, now).0.Ok?
    ensures var res := PlaceOrder(user, lines, payment, orders, id, now);
      var o := res.0.value;
      && res.1 == orders + [o]
      && o.id == id && o.user == Some(user) && o.createdAt == now
      && ValidOrder(o)
      && o.items == Stored(lines)
      && o.total == ItemsTotal(o.items)
      && o.status == (if payment then Paid else Pending)
  {
    assert |Distinct(Sellers(lines))| <= 1;
    var input := OrderInput(Some(Distinct(Sellers(lines))[0]), Some(user), Stored(lines),
                            Some(ItemsTotal(Stored(lines))), Some(if payment then Paid else Pending), None);
    var c := Create(input, id, now);
    assert PlaceOrder(user, lines, payment, orders, id, now)
        == (if c.Err? then (Err(Failed), orders) else (Ok(c.value), orders + [c.value]));
    assert c.Ok?;
    CreateDefaults(input, id, now);
  }

  /** A placed order's seller is the seller of every line. */
  lemma PlaceOrderSeller(user: Id, lines: seq<Line>, payment: bool, orders: seq<Order>, id: Id, now: int)
    requires lines != [] && PlaceOrder(user, lines, payment, orders, id, now).0.Ok?
    ensures forall k :: 0 <= k < |lines| ==> lines[k].seller == PlaceOrder(user, lines, payment, orders, id, now).0.value.seller
  {
    assert |Distinct(Sellers(lines))| <= 1;
    var input := OrderInput(Some(Distinct(Sellers(lines))[0]), Some(user), Stored(lines),
                            Some(ItemsTotal(Stored(lines))), Some(if payment then Paid else Pending), None);
    var c := Create(input, id, now);
    assert PlaceOrder(user, lines, payment, orders, id, now)
        == (if c.Err? then (Err(Failed), orders) else (Ok(c.value), orders + [c.value]));
    CreateDefaults(input, id, now);
    OneSeller(Sellers(lines));
    forall k | 0 <= k < |lines| ensures lines[k].seller == c.value.seller {
      assert Sellers(lines)[k] == Sellers(lines)[0];
    }
  }

  /**
   * Once the products are found and share one seller, the order is refused
   * with 500 exactly when some line fails validation: a negative quantity,
   * a negative price or an empty product name.  The total itself is never
   * the reason.
   */
  lemma PostFailsOnInvalidLine(session: Session, products: seq<Product>, orders: seq<Order>, b: PostBody, id: Id, now: int)
    requires session.Decoded? && b.items.Some? && b.items.value != []
    requires Resolve(products, b.items.value).Some?
    requires |Distinct(Sellers(Resolve(products, b.items.value).value))| <= 1
    ensures var items := Stored(Resolve(products, b.items.value).value);
      Post(session, products, orders, b, id, now).0.Err? <==> exists k :: 0 <= k < |items| && !ValidItem(items[k])
    ensures Post(session, products, orders, b, id, now).0.Err? ==> Post(session, products, orders, b, id, now) == (Err(Failed), orders)
  {
    var lines := Resolve(products, b.items.value).value;
    assert Post(session, products, orders, b, id, now) == PlaceOrder(session.userId, lines, b.payment, orders, id, now);
    PlaceOrderFailsOnInvalidLine(session.userId, lines, b.payment, orders, id, now);
  }

  /** The page of orders the listing returns. */
  datatype OrdersPage = OrdersPage(orders: seq<Order>, total: nat, currentPage: int, totalPages: Paging.JsNum)

  /** The orders whose user is `user`, in the order given. */
  function OwnedBy(s: seq<Order>, user: Id): (r: seq<Order>)
    ensures |r| <= |s|
  {
    if s == [] then [] else (if s[0].user == Some(user) then [s[0]] else []) + OwnedBy(s[1..], user)
  }

  lemma {:induction false} OwnedByExactly(s: seq<Order>, user: Id, o: Order)
    ensures o in OwnedBy(s, user) <==> o in s && o.user == Some(user)
  {
    if s != [] {
      OwnedByExactly(s[1..], user, o);
    }
  }

  /**
   * `GET`, with the parsed `page` and `limit` (by default 1 and 20).  The
   * collection is in creation order, so its reverse is newest first; a
   * negative skip is refused by the database, which the catch turns into 500.
   */
  function List(session: Session, orders: seq<Order>, page: int, limit: int): Result<OrdersPage, HttpError> {
    if session.Refused() then Err(Unauthorized)
    else if session.DecodeThrew? then Err(Failed)
    else
      var mine := OwnedBy(Seqs.Reverse(orders), session.userId);
      match Paging.Page(mine, Paging.SkipCount(page, limit), limit)
      case None => Err(Failed)
      case Some(p) => Ok(OrdersPage(p, |mine|, page, Paging.TotalPages(|mine|, limit)))
  }

  /**
   * The listing answers whenever the skip `(page - 1) * limit` is not
   * negative.  It then holds only the caller's orders; `total` counts every
   * one of them, and for a positive limit `totalPages` is the least number
   * of pages of that size that hold them all.  For a page from 1 on and a
   * positive limit, the page is the window of the caller's orders, newest
   * first, that starts after the earlier pages.
   */
  lemma ListOwnOrders(session: Session, orders: seq<Order>, page: int, limit: int)
    requires session.Decoded?
    ensures List(session, orders, page, limit).Ok? <==> (page - 1) * limit >= 0
    ensures List(session, orders, page, limit).Ok? ==>
      var r := List(session, orders, page, limit).value;
      && (forall o :: o in r.orders ==> o in orders && o.user == Some(session.userId))
      && (forall o :: o in orders && o.user == Some(session.userId) ==> o in OwnedBy(Seqs.Reverse(orders), session.userId))
      && r.total == |OwnedBy(Seqs.Reverse(orders), session.userId)|
      && (limit > 0 ==> r.totalPages.Num? && (r.totalPages.n - 1) * limit < r.total <= r.totalPages.n * limit)
    ensures page >= 1 && limit > 0 ==>
      List(session, orders, page, limit).Ok? &&
      List(session, orders, page, limit).value.orders
        == Paging.Window(OwnedBy(Seqs.Reverse(orders), session.userId), Paging.SkipCount(page, limit), limit)
  {
    var rev := Seqs.Reverse(orders);
    var mine := OwnedBy(rev, session.userId);
    if page >= 1 && limit > 0 {
      ListWindow(session, orders, page, limit);
    }
    if (page - 1) * limit >= 0 {
      var p := Paging.Page(mine, Paging.SkipCount(page, limit), limit).value;
      forall o | o in p ensures o in orders && o.user == Some(session.userId) {
        OwnedByExactly(rev, session.userId, o);
        InReverse(orders, o);
      }
      forall o | o in orders && o.user == Some(session.userId) ensures o in mine {
        InReverse(orders, o);
        OwnedByExactly(rev, session.userId, o);
      }
    }
  }

  lemma ListWindow(session: Session, orders: seq<Order>, page: int, limit: int)
    requires session.Decoded? && page >= 1 && limit > 0
    ensures List(session, orders, page, limit)
      == Ok(OrdersPage(Paging.Window(OwnedBy(Seqs.Reverse(orders), session.userId), Paging.SkipCount(page, limit), limit),
                       |OwnedBy(Seqs.Reverse(orders), session.userId)|, page,
                       Paging.TotalPages(|OwnedBy(Seqs.Reverse(orders), session.userId)|, limit)))
  {
    var mine := OwnedBy(Seqs.Reverse(orders), session.userId);
    Paging.MulMonotone(0, page - 1, limit);
    Paging.PageWindow(mine, Paging.SkipCount(page, limit), limit);
  }

  lemma InReverse(s: seq<Order>, o: Order)
    ensures o in Seqs.Reverse(s) <==> o in s
  {
    var r := Seqs.Reverse(s);
    if o in s {
      var k :| 0 <= k < |s| && s[k] == o;
      assert r[|s| - 1 - k] == o;
    }
    if o in r {
      var k :| 0 <= k < |r| && r[k] == o;
      assert s[|s| - 1 - k] == o;
    }
  }
}

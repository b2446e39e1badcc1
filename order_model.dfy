/**
 * The marketplace order document: a seller, the buying user, the ordered
 * items with their price and quantity, a total and a five-valued status.
 * Amounts are whole numbers.
 */
module OrderModel {
  import opened Wrappers
  import opened Http

  datatype OrderStatus = Pending | Paid | Shipped | Completed | Cancelled

  const PendingName := "pending"
  const PaidName := "paid"
  const ShippedName := "shipped"
  const CompletedName := "completed"
  const CancelledName := "cancelled"

  /** The stored string of a status. */
  function StatusName(s: OrderStatus): string {
    match s
    case Pending => PendingName
    case Paid => PaidName
    case Shipped => ShippedName
    case Completed => CompletedName
    case Cancelled => CancelledName
  }

  /** The schema's enum, in its own order. */
  const AllStatuses: seq<OrderStatus> := [Pending, Paid, Shipped, Completed, Cancelled]

  /** The enum lists each status exactly once. */
  lemma AllStatusesListed(s: OrderStatus)
    ensures s in AllStatuses
    ensures forall i, j :: 0 <= i < j < |AllStatuses| ==> AllStatuses[i] != AllStatuses[j]
  {
  }

  /** One ordered line: product, its name and unit price at ordering time, and how many. */
  datatype OrderItem = OrderItem(product: Id, name: string, price: int, quantity: int)

  datatype Order = Order(
    id: Id,
    seller: Id,
    user: Option<Id>,
    items: seq<OrderItem>,
    total: int,
    status: OrderStatus,
    createdAt: int)

  /** A document as handed to `Order.create`; the paths that may be left out are optional. */
  datatype OrderInput = OrderInput(
    seller: Option<Id>,
    user: Option<Id>,
    items: seq<OrderItem>,
    total: Option<int>,
    status: Option<OrderStatus>,
    createdAt: Option<int>)

  /** The path a validator reports. */
  datatype Path =
    | SellerRequired | TotalRequired | TotalMin
    | ItemName(index: nat) | ItemPrice(index: nat) | ItemQuantity(index: nat)

  /** `required` on a string refuses the empty string; `min` bounds the two numbers. */
  predicate ValidItem(it: OrderItem) {
    it.name != "" && it.price >= 0 && it.quantity >= 1
  }

  /** Every path that fails validation. */
  function Errors(d: OrderInput): set<Path> {
    (if d.seller.None? then {SellerRequired} else {})
    + (if d.total.None? then {TotalRequired} else if d.total.value < 0 then {TotalMin} else {})
    + (set i | 0 <= i < |d.items| && d.items[i].name == "" :: ItemName(i))
    + (set i | 0 <= i < |d.items| && d.items[i].price < 0 :: ItemPrice(i))
    + (set i | 0 <= i < |d.items| && d.items[i].quantity < 1 :: ItemQuantity(i))
  }

  /** Validation and defaults, at time `now`, for a new document with id `id`. */
  function Create(d: OrderInput, id: Id, now: int): Result<Order, set<Path>> {
    var errors := Errors(d);
    if errors != {} then Err(errors)
    else Ok(Order(id, d.seller.value, d.user, d.items, d.total.value, d.status.GetOr(Pending), d.createdAt.GetOr(now)))
  }

  predicate ValidOrder(o: Order) {
    o.total >= 0 && forall i :: 0 <= i < |o.items| ==> ValidItem(o.items[i])
  }

  /**
   * The schema accepts a document exactly when the seller and total are
   * given, the total is not negative, and every item has a name, a
   * non-negative price and a quantity of at least one.
   */
  lemma CreateOkIff(d: OrderInput, id: Id, now: int)
    ensures Create(d, id, now).Ok? <==>
      d.seller.Some? && d.total.Some? && d.total.value >= 0
      && forall i :: 0 <= i < |d.items| ==> ValidItem(d.items[i])
  {
    if exists i :: 0 <= i < |d.items| && !ValidItem(d.items[i]) {
      var i :| 0 <= i < |d.items| && !ValidItem(d.items[i]);
      if d.items[i].name == "" {
        assert ItemName(i) in Errors(d);
      } else if d.items[i].price < 0 {
        assert ItemPrice(i) in Errors(d);
      } else {
        assert ItemQuantity(i) in Errors(d);
      }
    }
  }

  /**
   * A created order keeps what it was given, is valid, and fills the
   * defaults: status "pending" and the creation time.
   */
  lemma CreateDefaults(d: OrderInput, id: Id, now: int)
    requires Create(d, id, now).Ok?
    ensures var o := Create(d, id, now).value;
      && ValidOrder(o)
      && o.id == id && Some(o.seller) == d.seller && o.user == d.user && o.items == d.items
      && Some(o.total) == d.total
      && o.status == (if d.status.Some? then d.status.value else Pending)
      && o.createdAt == (if d.createdAt.Some? then d.createdAt.value else now)
  {
    CreateOkIff(d, id, now);
  }

  /** The sum of price times quantity over the items. */
  function ItemsTotal(items: seq<OrderItem>): int {
    if items == [] then 0 else items[0].price * items[0].quantity + ItemsTotal(items[1..])
  }

  lemma LineNonNegative(price: int, quantity: int)
    requires price >= 0 && quantity >= 1
    ensures price * quantity >= 0
  {
  }

  /** Items that pass validation never add up to a negative total. */
  lemma {:induction false} ItemsTotalNonNegative(items: seq<OrderItem>)
    requires forall i :: 0 <= i < |items| ==> ValidItem(items[i])
    ensures ItemsTotal(items) >= 0
  {
    if items != [] {
      assert ValidItem(items[0]);
      LineNonNegative(items[0].price, items[0].quantity);
      ItemsTotalNonNegative(items[1..]);
    }
  }
}

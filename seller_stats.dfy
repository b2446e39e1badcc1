/**
 * `GET /api/seller/stats`: the seller's orders grouped by status (the
 * aggregate's result rows are the input here).  The handler starts every
 * one of the five statuses at 0, lets each row set its own status's count,
 * and sums the rows' revenues.  A missing revenue counts as 0.
 */
module SellerStats {
  import opened Wrappers
  import opened Http
  import opened OrderModel

  /** One `$group` row: a status, how many orders have it, and the sum of their totals. */
  datatype Row = Row(status: OrderStatus, count: int, revenue: Option<int>)

  datatype Feedback = Feedback(avgRating: int, count: int)

  datatype StatsView = StatsView(orders: map<OrderStatus, int>, revenue: int, products: nat, feedback: Feedback)

  const InitialCounts: map<OrderStatus, int> :=
    map[Pending := 0, Paid := 0, Shipped := 0, Completed := 0, Cancelled := 0]

  lemma InitialCountsTotal()
    ensures forall s :: s in InitialCounts && InitialCounts[s] == 0
  {
    forall s: OrderStatus ensures s in InitialCounts && InitialCounts[s] == 0 {
      match s
      case Pending =>
      case Paid =>
      case Shipped =>
      case Completed =>
      case Cancelled =>
    }
  }

  /** `statusMap` after the loop has handled `rows`, in order. */
  function CountsAfter(rows: seq<Row>): (r: map<OrderStatus, int>)
    ensures forall s :: s in r
  {
    if rows == [] then InitialCountsTotal(); InitialCounts
    else
      var last := rows[|rows| - 1];
      CountsAfter(rows[..|rows| - 1])[last.status := last.count]
  }

  /** `revenue` after the loop has handled `rows`: `row.revenue || 0` added up. */
  function RevenueOf(rows: seq<Row>): int {
    if rows == [] then 0 else RevenueOf(rows[..|rows| - 1]) + rows[|rows| - 1].revenue.GetOr(0)
  }

  /** The response; `productsCount` is the seller's number of products. */
  function Stats(session: Session, rows: seq<Row>, productsCount: nat): Result<StatsView, HttpError> {
    if session.Refused() then Err(Unauthorized)
    else if session.DecodeThrew? then Err(Failed)
    else Ok(StatsView(CountsAfter(rows), RevenueOf(rows), productsCount, Feedback(0, 0)))
  }

  /** The handler, with its loop over the rows. */
  method HandleGet(session: Session, rows: seq<Row>, productsCount: nat) returns (r: Result<StatsView, HttpError>)
    ensures r == Stats(session, rows, productsCount)
  {
    if session.Refused() {
      return Err(Unauthorized);
    }
    if session.DecodeThrew? {
      return Err(Failed);
    }
    var statusMap := InitialCounts;
    var revenue := 0;
    var i := 0;
    while i < |rows|
      invariant 0 <= i <= |rows|
      invariant statusMap == CountsAfter(rows[..i])
      invariant revenue == RevenueOf(rows[..i])
    {
      var row := rows[i];
      assert rows[..i + 1][..i] == rows[..i];
      statusMap := statusMap[row.status := row.count];
      revenue := revenue + row.revenue.GetOr(0);
      i := i + 1;
    }
    assert rows[..|rows|] == rows;
    return Ok(StatsView(statusMap, revenue, productsCount, Feedback(0, 0)));
  }

  /** Without decoded claims: 401 for no token or a null decode, 500 from the catch when decoding throws. */
  lemma StatsUnauthenticated(session: Session, rows: seq<Row>, productsCount: nat)
    requires !session.Decoded?
    ensures session.Refused() ==> Stats(session, rows, productsCount) == Err(HttpError(401, "Unauthorized"))
    ensures session.DecodeThrew? ==> Stats(session, rows, productsCount) == Err(HttpError(500, "Failed"))
  {
  }

  /** A status that no row names stays 0. */
  lemma {:induction false} UnnamedStatusZero(rows: seq<Row>, s: OrderStatus)
    ensures (forall k :: 0 <= k < |rows| ==> rows[k].status != s) ==> CountsAfter(rows)[s] == 0
  {
    if rows != [] {
      var front := rows[..|rows| - 1];
      UnnamedStatusZero(front, s);
      if forall k :: 0 <= k < |rows| ==> rows[k].status != s {
        assert forall k :: 0 <= k < |front| ==> front[k].status != s by {
          forall k | 0 <= k < |front| ensures front[k].status != s {
            assert front[k] == rows[k];
          }
        }
      }
    }
  }

  /**
   * A status gets the count of the last row that names it.  Grouping gives
   * each status at most one row, so that is its row's count.
   */
  lemma {:induction false} LastRowSetsCount(rows: seq<Row>, k: nat)
    requires k < |rows|
    requires forall j :: k < j < |rows| ==> rows[j].status != rows[k].status
    ensures CountsAfter(rows)[rows[k].status] == rows[k].count
  {
    var front := rows[..|rows| - 1];
    if k < |rows| - 1 {
      assert front[k] == rows[k];
      forall j | k < j < |front| ensures front[j].status != front[k].status {
        assert front[j] == rows[j];
      }
      LastRowSetsCount(front, k);
      UnnamedStatusZero(front, rows[k].status);
    }
  }

  /** Revenue adds up over consecutive parts of the rows. */
  lemma {:induction false} RevenueSplit(a: seq<Row>, b: seq<Row>)
    ensures RevenueOf(a + b) == RevenueOf(a) + RevenueOf(b)
  {
    if b != [] {
      var front := b[..|b| - 1];
      assert (a + b)[..|a + b| - 1] == a + front;
      RevenueSplit(a, front);
    } else {
      assert a + b == a;
    }
  }

  /** So the order in which the rows arrive does not change the revenue. */
  lemma RevenueIgnoresRowOrder(a: seq<Row>, b: seq<Row>)
    ensures RevenueOf(a + b) == RevenueOf(b + a)
  {
    RevenueSplit(a, b);
    RevenueSplit(b, a);
  }

  /** The answer's feedback is always zero, and `products` is the product count given. */
  lemma StatsFixedParts(session: Session, rows: seq<Row>, productsCount: nat)
    requires session.Decoded?
    ensures var r := Stats(session, rows, productsCount);
      r.Ok? && r.value.feedback == Feedback(0, 0) && r.value.products == productsCount
      && r.value.revenue == RevenueOf(rows)
  {
  }
}

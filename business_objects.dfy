/** The two persistent classes and the session that holds them.

    A `Product` caches three aggregates of its orders in nullable slots and
    fills them on demand; an `Order` asks its product to recompute them when
    its total or its product changes. The `Session` stands in for the
    persistence session: it knows every order (so the orders of a product
    can be derived from the orders' back-references) and it records, in
    order, the change notifications the products raise. */
module BusinessObjects {

  import opened Wrappers
  import opened Reducers
  import opened Membership

  const OrdersCountName := "OrdersCount"
  const OrdersTotalName := "OrdersTotal"
  const MaximumOrderName := "MaximumOrder"

  /** A change notification raised by `sender` for one of its properties. */
  datatype Notification = Changed(sender: Product, propertyName: string, oldValue: Option<int>, newValue: Option<int>)

  /** The (product, total) row of each of `os`, in the same order. */
  function RowsOf(os: seq<Order>): (rows: seq<(Product?, int)>)
    reads os
    ensures |rows| == |os|
    ensures forall k :: 0 <= k < |os| ==> rows[k] == (os[k].product, os[k].total)
  {
    seq(|os|, k requires 0 <= k < |os| reads os => (os[k].product, os[k].total))
  }

  /** The total of each of `os`, in the same order. */
  function TotalsOf(os: seq<Order>): (totals: seq<int>)
    reads os
    ensures |totals| == |os|
    ensures forall k :: 0 <= k < |os| ==> totals[k] == os[k].total
  {
    seq(|os|, k requires 0 <= k < |os| reads os => os[k].total)
  }

  lemma TotalsOfPrefix(os: seq<Order>, k: nat)
    requires k < |os|
    ensures TotalsOf(os[..k + 1]) == TotalsOf(os[..k]) + [os[k].total]
  {
  }

  /** The orders among `os` whose product is `p`, in the same order. */
  function OwnedBy(os: seq<Order>, p: Product): (owned: seq<Order>)
    reads os
    ensures forall o :: o in owned ==> o in os && o.product == p
    ensures forall k :: 0 <= k < |os| && os[k].product == p ==> os[k] in owned
  {
    if os == [] then []
    else (if os[0].product == p then [os[0]] else []) + OwnedBy(os[1..], p)
  }

  lemma TotalsOfConcat(a: seq<Order>, b: seq<Order>)
    ensures TotalsOf(a + b) == TotalsOf(a) + TotalsOf(b)
  {
  }

  /** Iterating over the orders that point to `p` visits exactly the amounts
      that the rows attribute to `p`. */
  lemma {:induction false} OwnedTotalsAreAmounts(os: seq<Order>, p: Product)
    ensures TotalsOf(OwnedBy(os, p)) == Amounts(RowsOf(os), p)
  {
    if os != [] {
      var head := if os[0].product == p then [os[0]] else [];
      var rows := RowsOf(os);
      assert rows[1..] == RowsOf(os[1..]);
      assert OwnedBy(os, p) == head + OwnedBy(os[1..], p);
      assert Amounts(rows, p) == Own(rows[0], p) + Amounts(RowsOf(os[1..]), p);
      assert TotalsOf(head) == Own(rows[0], p);
      OwnedTotalsAreAmounts(os[1..], p);
      TotalsOfConcat(head, OwnedBy(os[1..], p));
    }
  }

  /** The product `p` refers to, if any, as a frame. */
  function Maybe(p: Product?): (r: set<Product>)
  {
    if p == null then {} else {p}
  }

  class Session {
    /** Every order of the session, in the order they were created. */
    var orders: seq<Order>
    /** The change notifications raised so far, oldest first. */
    var log: seq<Notification>

    constructor ()
      ensures orders == [] && log == []
    {
      orders := [];
      log := [];
    }

    /** Each order appears once, belongs to this session and points to a
        product of this session (or to none). */
    ghost predicate Valid()
      reads this`orders, orders
    {
      && (forall i, j :: 0 <= i < j < |orders| ==> orders[i] != orders[j])
      && (forall o :: o in orders ==> o.session == this && (o.product != null ==> o.product.session == this))
    }

    /** A snapshot of every order's product and total. */
    ghost function Rows(): (rows: seq<(Product?, int)>)
      reads this`orders, orders
    {
      RowsOf(orders)
    }

    /** The position of order `o` in the session. */
    ghost function IndexOf(o: Order): (i: nat)
      reads this`orders
      requires o in orders
      ensures i < |orders| && orders[i] == o
    {
      var i :| 0 <= i < |orders| && orders[i] == o; i
    }
  }

  class Product {
    const session: Session
    /** The cached slots; `None` means "not computed". */
    var ordersCount: Option<int>
    var ordersTotal: Option<int>
    var maximumOrder: Option<int>
    var isLoading: bool
    var isSaving: bool

    constructor (session: Session)
      ensures this.session == session
      ensures ordersCount == None && ordersTotal == None && maximumOrder == None
      ensures !isLoading && !isSaving
    {
      this.session := session;
      ordersCount, ordersTotal, maximumOrder := None, None, None;
      isLoading, isSaving := false, false;
    }

    /** The orders of this product: the session's orders that point to it. */
    function Orders(): (orders: seq<Order>)
      reads session`orders, session.orders
      ensures forall o :: o in orders ==> o in session.orders && o.product == this
      ensures forall o :: o in session.orders && o.product == this ==> o in orders
    {
      OwnedBy(session.orders, this)
    }

    /** Raises a change notification for one of this product's properties. */
    method OnChanged(propertyName: string, oldValue: Option<int>, newValue: Option<int>)
      modifies session`log
      ensures session.log == old(session.log) + [Changed(this, propertyName, oldValue, newValue)]
    {
      session.log := session.log + [Changed(this, propertyName, oldValue, newValue)];
    }

    /** Lazily computed number of orders; during a load or a save, the slot
        as it is. */
    method OrdersCount() returns (r: Option<int>)
      modifies this`ordersCount, session`log
      ensures if !isLoading && !isSaving && old(ordersCount) == None
        then r == Some(|Amounts(session.Rows(), this)|)
        else r == old(ordersCount)
      ensures ordersCount == r
      ensures session.log == old(session.log)
    {
      if !isLoading && !isSaving && ordersCount == None {
        UpdateOrdersCount(false);
      }
      r := ordersCount;
    }

    /** Lazily computed sum of the orders' totals. */
    method OrdersTotal() returns (r: Option<int>)
      modifies this`ordersTotal, session`log
      ensures if !isLoading && !isSaving && old(ordersTotal) == None
        then r == Some(Sum(Amounts(session.Rows(), this)))
        else r == old(ordersTotal)
      ensures ordersTotal == r
      ensures session.log == old(session.log)
    {
      if !isLoading && !isSaving && ordersTotal == None {
        UpdateOrdersTotal(false);
      }
      r := ordersTotal;
    }

    /** Lazily computed largest order total, floored at 0. */
    method MaximumOrder() returns (r: Option<int>)
      modifies this`maximumOrder, session`log
      ensures if !isLoading && !isSaving && old(maximumOrder) == None
        then r == Some(MaxFloor(Amounts(session.Rows(), this)))
        else r == old(maximumOrder)
      ensures maximumOrder == r
      ensures session.log == old(session.log)
    {
      if !isLoading && !isSaving && maximumOrder == None {
        UpdateMaximumOrder(false);
      }
      r := maximumOrder;
    }

    /** Recounts the orders; with `forceChangeEvents`, notifies the change. */
    method UpdateOrdersCount(forceChangeEvents: bool)
      modifies this`ordersCount, session`log
      ensures session.Rows() == old(session.Rows())
      ensures ordersCount == Some(|Amounts(session.Rows(), this)|)
      ensures session.log == old(session.log) +
        if forceChangeEvents then [Changed(this, OrdersCountName, old(ordersCount), ordersCount)] else []
    {
      var oldOrdersCount := ordersCount;
      ordersCount := Some(|Orders()|);
      OwnedTotalsAreAmounts(session.orders, this);
      if forceChangeEvents {
        OnChanged(OrdersCountName, oldOrdersCount, ordersCount);
      }
    }

    /** The loop of UpdateOrdersTotal: adds up the totals of the orders,
        starting from 0. */
    method ComputeOrdersTotal() returns (tempTotal: int)
      ensures tempTotal == Sum(Amounts(session.Rows(), this))
    {
      var orders := Orders();
      tempTotal := 0;
      for k := 0 to |orders|
        invariant tempTotal == Sum(TotalsOf(orders[..k]))
      {
        TotalsOfPrefix(orders, k);
        SumConcat(TotalsOf(orders[..k]), [orders[k].total]);
        tempTotal := tempTotal + orders[k].total;
      }
      assert orders[..|orders|] == orders;
      OwnedTotalsAreAmounts(session.orders, this);
    }

    /** Re-adds the totals of the orders; with `forceChangeEvents`, notifies
        the change. */
    method UpdateOrdersTotal(forceChangeEvents: bool)
      modifies this`ordersTotal, session`log
      ensures session.Rows() == old(session.Rows())
      ensures ordersTotal == Some(Sum(Amounts(session.Rows(), this)))
      ensures session.log == old(session.log) +
        if forceChangeEvents then [Changed(this, OrdersTotalName, old(ordersTotal), ordersTotal)] else []
    {
      var oldOrdersTotal := ordersTotal;
      var tempTotal := ComputeOrdersTotal();
      ordersTotal := Some(tempTotal);
      if forceChangeEvents {
        OnChanged(OrdersTotalName, oldOrdersTotal, ordersTotal);
      }
    }

    /** The loop of UpdateMaximumOrder: a running maximum of the orders'
        totals, starting from 0. */
    method ComputeMaximumOrder() returns (tempMaximum: int)
      ensures tempMaximum == MaxFloor(Amounts(session.Rows(), this))
    {
      var orders := Orders();
      tempMaximum := 0;
      for k := 0 to |orders|
        invariant tempMaximum == MaxFloor(TotalsOf(orders[..k]))
      {
        TotalsOfPrefix(orders, k);
        MaxFloorAppend(TotalsOf(orders[..k]), orders[k].total);
        if orders[k].total > tempMaximum {
          tempMaximum := orders[k].total;
        }
      }
      assert orders[..|orders|] == orders;
      OwnedTotalsAreAmounts(session.orders, this);
    }

    /** Recomputes the largest order total; with `forceChangeEvents`,
        notifies the change. */
    method UpdateMaximumOrder(forceChangeEvents: bool)
      modifies this`maximumOrder, session`log
      ensures session.Rows() == old(session.Rows())
      ensures maximumOrder == Some(MaxFloor(Amounts(session.Rows(), this)))
      ensures session.log == old(session.log) +
        if forceChangeEvents then [Changed(this, MaximumOrderName, old(maximumOrder), maximumOrder)] else []
    {
      var oldMaximumOrder := maximumOrder;
      var tempMaximum := ComputeMaximumOrder();
      maximumOrder := Some(tempMaximum);
      if forceChangeEvents {
        OnChanged(MaximumOrderName, oldMaximumOrder, maximumOrder);
      }
    }

    /** Called once the product has been loaded from the store: the cached
        slots are not trusted across a reload. */
    method OnLoaded()
      modifies this`ordersCount, this`ordersTotal, this`maximumOrder
      ensures ordersCount == None && ordersTotal == None && maximumOrder == None
    {
      Reset();
    }

    /** Marks every slot as not computed. */
    method Reset()
      modifies this`ordersCount, this`ordersTotal, this`maximumOrder
      ensures ordersCount == None && ordersTotal == None && maximumOrder == None
    {
      ordersCount := None;
      ordersTotal := None;
      maximumOrder := None;
    }
  }

  class Order {
    const session: Session
    var total: int
    var product: Product?
    var isLoading: bool
    var isSaving: bool

    /** The order is registered, once, in a consistent session. */
    ghost predicate Valid()
      reads session`orders, session.orders
    {
      session.Valid() && this in session.orders
    }

    /** A new order has total 0, no product, and joins the session's orders. */
    constructor (session: Session)
      requires session.Valid()
      modifies session`orders
      ensures Valid() && this.session == session
      ensures total == 0 && product == null && !isLoading && !isSaving
      ensures session.orders == old(session.orders) + [this]
    {
      this.session := session;
      total := 0;
      product := null;
      isLoading, isSaving := false, false;
      new;
      session.orders := session.orders + [this];
    }

    /** The framework's SetPropertyValue for `Total`: stores the value and
        reports whether it differed from the stored one. */
    method SetTotalValue(value: int) returns (modified: bool)
      requires Valid()
      modifies this`total
      ensures Valid() && total == value && modified == (old(total) != value)
      ensures session.Rows() == old(session.Rows())[session.IndexOf(this) := (product, value)]
    {
      ghost var rows := session.Rows();
      ghost var i := session.IndexOf(this);
      modified := total != value;
      total := value;
      assert session.Rows() == rows[i := (product, value)];
    }

    /** The framework's SetPropertyValue for `Product`. */
    method SetProductValue(value: Product?) returns (modified: bool)
      requires Valid()
      requires value != null ==> value.session == session
      modifies this`product
      ensures Valid() && product == value && modified == (old(product) != value)
      ensures session.Rows() == old(session.Rows())[session.IndexOf(this) := (value, total)]
    {
      ghost var rows := session.Rows();
      ghost var i := session.IndexOf(this);
      modified := product != value;
      product := value;
      assert session.Rows() == rows[i := (value, total)];
    }

    /** The `Total` setter. When the amount really changes outside a load or
        a save, the product's total and maximum are recomputed, in that
        order, each with a notification; the count is never touched. */
    method SetTotal(value: int)
      requires Valid()
      modifies this`total, session`log, Maybe(product)`ordersTotal, Maybe(product)`maximumOrder
      ensures Valid()
      ensures total == value && product == old(product)
      ensures session.Rows() == old(session.Rows())[session.IndexOf(this) := (product, value)]
      ensures old(!isLoading && !isSaving && product != null && total != value) ==>
        && product.ordersTotal == Some(Sum(Amounts(session.Rows(), product)))
        && product.ordersTotal == Some(old(Sum(Amounts(session.Rows(), product))) - old(total) + value)
        && product.maximumOrder == Some(MaxFloor(Amounts(session.Rows(), product)))
        && session.log == old(session.log)
             + [Changed(product, OrdersTotalName, old(product.ordersTotal), product.ordersTotal)]
             + [Changed(product, MaximumOrderName, old(product.maximumOrder), product.maximumOrder)]
      ensures !old(!isLoading && !isSaving && product != null && total != value) ==>
        && session.log == old(session.log)
        && (product != null ==>
              product.ordersTotal == old(product.ordersTotal) && product.maximumOrder == old(product.maximumOrder))
      ensures product != null ==> product.ordersCount == old(product.ordersCount)
    {
      ghost var rows := session.Rows();
      ghost var i := session.IndexOf(this);
      var modified := SetTotalValue(value);
      if !isLoading && !isSaving && product != null && modified {
        RetotalRowShiftsSum(rows, i, value);
        RecomputeTotals(product);
      }
    }

    /** The two recomputations a change of total triggers, in order. */
    method RecomputeTotals(target: Product)
      modifies target`ordersTotal, target`maximumOrder, target.session`log
      ensures target.ordersTotal == Some(Sum(Amounts(target.session.Rows(), target)))
      ensures target.maximumOrder == Some(MaxFloor(Amounts(target.session.Rows(), target)))
      ensures target.session.Rows() == old(target.session.Rows())
      ensures target.session.log == old(target.session.log)
        + [Changed(target, OrdersTotalName, old(target.ordersTotal), target.ordersTotal)]
        + [Changed(target, MaximumOrderName, old(target.maximumOrder), target.maximumOrder)]
    {
      target.UpdateOrdersTotal(true);
      target.UpdateMaximumOrder(true);
    }

    /** The three recomputations a change of product triggers, in order. */
    method RecomputeAll(target: Product)
      modifies target`ordersCount, target`ordersTotal, target`maximumOrder, target.session`log
      ensures target.ordersCount == Some(|Amounts(target.session.Rows(), target)|)
      ensures target.ordersTotal == Some(Sum(Amounts(target.session.Rows(), target)))
      ensures target.maximumOrder == Some(MaxFloor(Amounts(target.session.Rows(), target)))
      ensures target.session.Rows() == old(target.session.Rows())
      ensures target.session.log == old(target.session.log)
        + [Changed(target, OrdersCountName, old(target.ordersCount), target.ordersCount)]
        + [Changed(target, OrdersTotalName, old(target.ordersTotal), target.ordersTotal)]
        + [Changed(target, MaximumOrderName, old(target.maximumOrder), target.maximumOrder)]
    {
      target.UpdateOrdersCount(true);
      target.UpdateOrdersTotal(true);
      target.UpdateMaximumOrder(true);
    }

    /** The `Product` setter. When the product really changes outside a load
        or a save, count, total and maximum are recomputed, in that order,
        on one product only: the previous one, or the new one when there
        was none. */
    method SetProduct(value: Product?)
      requires Valid()
      requires value != null ==> value.session == session
      modifies this`product, session`log
      modifies Maybe(product)`ordersCount, Maybe(product)`ordersTotal, Maybe(product)`maximumOrder
      modifies Maybe(value)`ordersCount, Maybe(value)`ordersTotal, Maybe(value)`maximumOrder
      ensures Valid()
      ensures product == value && total == old(total)
      ensures session.Rows() == old(session.Rows())[session.IndexOf(this) := (value, total)]
      ensures old(!isLoading && !isSaving && product != value && product != null) ==>
        var p := old(product);
        && p.ordersCount == Some(|Amounts(session.Rows(), p)|)
        && p.ordersTotal == Some(Sum(Amounts(session.Rows(), p)))
        && p.maximumOrder == Some(MaxFloor(Amounts(session.Rows(), p)))
        && session.log == old(session.log)
             + [Changed(p, OrdersCountName, old(p.ordersCount), p.ordersCount)]
             + [Changed(p, OrdersTotalName, old(p.ordersTotal), p.ordersTotal)]
             + [Changed(p, MaximumOrderName, old(p.maximumOrder), p.maximumOrder)]
        && (value != null ==>
              && value.ordersCount == old(value.ordersCount)
              && value.ordersTotal == old(value.ordersTotal)
              && value.maximumOrder == old(value.maximumOrder))
      ensures old(!isLoading && !isSaving && product != value && product == null) ==>
        && value != null
        && value.ordersCount == Some(|Amounts(session.Rows(), value)|)
        && value.ordersTotal == Some(Sum(Amounts(session.Rows(), value)))
        && value.maximumOrder == Some(MaxFloor(Amounts(session.Rows(), value)))
        && session.log == old(session.log)
             + [Changed(value, OrdersCountName, old(value.ordersCount), value.ordersCount)]
             + [Changed(value, OrdersTotalName, old(value.ordersTotal), value.ordersTotal)]
             + [Changed(value, MaximumOrderName, old(value.maximumOrder), value.maximumOrder)]
      ensures !old(!isLoading && !isSaving && product != value) ==>
        && session.log == old(session.log)
        && (old(product) != null ==>
              && old(product).ordersCount == old(product.ordersCount)
              && old(product).ordersTotal == old(product.ordersTotal)
              && old(product).maximumOrder == old(product.maximumOrder))
        && (value != null ==>
              && value.ordersCount == old(value.ordersCount)
              && value.ordersTotal == old(value.ordersTotal)
              && value.maximumOrder == old(value.maximumOrder))
    {
      var oldProduct := product;
      var modified := SetProductValue(value);
      if !isLoading && !isSaving && oldProduct != product && modified {
        oldProduct := if oldProduct != null then oldProduct else product;
        RecomputeAll(oldProduct);
      }
    }
  }
}

/** Client code driving the business objects through lazy first reads,
    orders joining and leaving a product, a change of total, reads during a
    load, and repeated reads. */
module Scenarios {

  import opened Wrappers
  import opened Reducers
  import opened Membership
  import opened BusinessObjects

  /** The three slots of `p`, read through their getters. */
  method ReadAll(p: Product) returns (count: Option<int>, total: Option<int>, maximum: Option<int>)
    requires !p.isLoading && !p.isSaving
    modifies p`ordersCount, p`ordersTotal, p`maximumOrder, p.session`log
    ensures count == p.ordersCount && total == p.ordersTotal && maximum == p.maximumOrder
    ensures old(p.ordersCount) == None ==> count == Some(|Amounts(p.session.Rows(), p)|)
    ensures old(p.ordersTotal) == None ==> total == Some(Sum(Amounts(p.session.Rows(), p)))
    ensures old(p.maximumOrder) == None ==> maximum == Some(MaxFloor(Amounts(p.session.Rows(), p)))
    ensures old(p.ordersCount) != None ==> count == old(p.ordersCount)
    ensures old(p.ordersTotal) != None ==> total == old(p.ordersTotal)
    ensures old(p.maximumOrder) != None ==> maximum == old(p.maximumOrder)
    ensures p.session.log == old(p.session.log)
  {
    count := p.OrdersCount();
    total := p.OrdersTotal();
    maximum := p.MaximumOrder();
  }

  /** Reading the total twice without a change in between gives the same
      value and raises no notification; outside a load or a save the value
      is computed by the first read at the latest. */
  method ReadOrdersTotalTwice(p: Product) returns (first: Option<int>, second: Option<int>)
    modifies p`ordersTotal, p.session`log
    ensures first == second && second == p.ordersTotal
    ensures !p.isLoading && !p.isSaving ==> first != None
    ensures p.session.log == old(p.session.log)
  {
    first := p.OrdersTotal();
    second := p.OrdersTotal();
  }

  /** A product with no orders reads 0, 0 and 0. */
  method EmptyProduct() returns (count: Option<int>, total: Option<int>, maximum: Option<int>)
    ensures count == Some(0) && total == Some(0) && maximum == Some(0)
  {
    var session := new Session();
    var p1 := new Product(session);
    count, total, maximum := ReadAll(p1);
  }

  /** The amounts of two rows. */
  lemma AmountsOfPair<P>(a: (P, int), b: (P, int), p: P)
    ensures Amounts([a, b], p) == Own(a, p) + Own(b, p)
  {
    assert [a, b][1..] == [b];
    assert [b][1..] == [];
  }

  /** An order without a product gets `amount` and then `p`: the total alone
      propagates nowhere, the product then has its slots computed. */
  method Attach(c: Order, p: Product, amount: int)
    requires c.Valid() && c.product == null && !c.isLoading && !c.isSaving && p.session == c.session
    modifies c`total, c`product, c.session`log, p`ordersCount, p`ordersTotal, p`maximumOrder
    ensures c.Valid() && c.product == p && c.total == amount
    ensures c.session.Rows() == old(c.session.Rows())[c.session.IndexOf(c) := (p, amount)]
    ensures p.ordersCount == Some(|Amounts(c.session.Rows(), p)|)
    ensures p.ordersTotal == Some(Sum(Amounts(c.session.Rows(), p)))
    ensures p.maximumOrder == Some(MaxFloor(Amounts(c.session.Rows(), p)))
  {
    c.SetTotal(amount);
    c.SetProduct(p);
  }

  /** A new order of `amount` is created and attached to `p`. */
  method AddOrder(session: Session, p: Product, amount: int) returns (c: Order)
    requires session.Valid() && p.session == session
    modifies session`orders, session`log, p`ordersCount, p`ordersTotal, p`maximumOrder
    ensures fresh(c) && c.Valid() && c.session == session
    ensures c.product == p && c.total == amount && !c.isLoading && !c.isSaving
    ensures session.orders == old(session.orders) + [c]
    ensures session.Rows() == old(session.Rows()) + [(p, amount)]
    ensures p.ordersCount == Some(|Amounts(session.Rows(), p)|)
    ensures p.ordersTotal == Some(Sum(Amounts(session.Rows(), p)))
    ensures p.maximumOrder == Some(MaxFloor(Amounts(session.Rows(), p)))
  {
    c := new Order(session);
    assert session.Rows() == old(session.Rows()) + [(null, 0)];
    Attach(c, p, amount);
  }

  /** The three slots of `p`, as they are. */
  function Slots(p: Product): (slots: (Option<int>, Option<int>, Option<int>))
    reads p
  {
    (p.ordersCount, p.ordersTotal, p.maximumOrder)
  }

  const Unset: (Option<int>, Option<int>, Option<int>) := (None, None, None)

  /** First step of the walkthrough: an order of 50 joins `p1`. */
  method JoinFirst(session: Session, p1: Product, p2: Product) returns (c1: Order)
    requires session.Valid() && session.orders == [] && p1.session == session && p1 != p2
    modifies session`orders, session`log, p1`ordersCount, p1`ordersTotal, p1`maximumOrder
    ensures session.Valid() && session.orders == [c1] && fresh(c1)
    ensures c1.session == session && c1.product == p1 && c1.total == 50 && !c1.isLoading && !c1.isSaving
    ensures Slots(p1) == (Some(1), Some(50), Some(50))
  {
    c1 := AddOrder(session, p1, 50);
    assert session.Rows() == [(p1, 50)];
    assert Amounts([(p1, 50)], p1) == [50];
  }

  /** Second step: an order of 30 joins `p1` as well. */
  method JoinSecond(session: Session, p1: Product, c1: Order) returns (c2: Order)
    requires session.Valid() && session.orders == [c1] && p1.session == session
    requires c1.product == p1 && c1.total == 50
    modifies session`orders, session`log, p1`ordersCount, p1`ordersTotal, p1`maximumOrder
    ensures session.Valid() && session.orders == [c1, c2] && fresh(c2)
    ensures c2.session == session && c2.product == p1 && c2.total == 30 && !c2.isLoading && !c2.isSaving
    ensures Slots(p1) == (Some(2), Some(80), Some(50))
  {
    c2 := AddOrder(session, p1, 30);
    assert session.Rows() == [(p1, 50), (p1, 30)];
    AmountsOfPair((p1, 50), (p1, 30), p1);
    assert [50, 30][1..] == [30] && [30][1..] == [];
  }

  /** Third step: the first order drops from 50 to 10; the count stays. */
  method DropFirst(session: Session, p1: Product, c1: Order, c2: Order)
    requires session.Valid() && session.orders == [c1, c2] && p1.session == session
    requires c1.session == session && !c1.isLoading && !c1.isSaving
    requires c1.product == p1 && c1.total == 50 && c2.product == p1 && c2.total == 30
    requires Slots(p1) == (Some(2), Some(80), Some(50))
    modifies c1`total, session`log, p1`ordersTotal, p1`maximumOrder
    ensures session.Valid() && c1.total == 10
    ensures Slots(p1) == (Some(2), Some(40), Some(30))
  {
    c1.SetTotal(10);
    assert session.IndexOf(c1) == 0;
    assert session.Rows() == [(p1, 10), (p1, 30)];
    AmountsOfPair((p1, 10), (p1, 30), p1);
    assert [10, 30][1..] == [30] && [30][1..] == [];
  }

  /** Fourth step: the second order moves from `p1` to `p2`. Only `p1`,
      the product it left, is recomputed. */
  method MoveSecond(session: Session, p1: Product, p2: Product, c1: Order, c2: Order)
    requires session.Valid() && session.orders == [c1, c2] && p1.session == session && p2.session == session
    requires c2.session == session && !c2.isLoading && !c2.isSaving && p1 != p2
    requires c1.product == p1 && c1.total == 10 && c2.product == p1 && c2.total == 30
    modifies c2`product, session`log, p1`ordersCount, p1`ordersTotal, p1`maximumOrder
    modifies p2`ordersCount, p2`ordersTotal, p2`maximumOrder
    ensures session.Valid() && c2.product == p2
    ensures session.Rows() == [(p1, 10), (p2, 30)]
    ensures Slots(p1) == (Some(1), Some(10), Some(10))
    ensures Slots(p2) == old(Slots(p2))
  {
    c2.SetProduct(p2);
    assert session.IndexOf(c2) == 1;
    assert session.Rows() == [(p1, 10), (p2, 30)];
    AmountsOfPair((p1, 10), (p2, 30), p1);
  }

  /** The second product, never read before, is read after the move. */
  method ReadMoved(session: Session, p1: Product, p2: Product) returns (slots: (Option<int>, Option<int>, Option<int>))
    requires p2.session == session && !p2.isLoading && !p2.isSaving && Slots(p2) == Unset
    requires p1 != p2 && session.Rows() == [(p1, 10), (p2, 30)]
    modifies p2`ordersCount, p2`ordersTotal, p2`maximumOrder, session`log
    ensures slots == (Some(1), Some(30), Some(30))
  {
    AmountsOfPair((p1, 10), (p2, 30), p2);
    var count, total, maximum := ReadAll(p2);
    slots := (count, total, maximum);
  }

  /** One order of 50 joins a product, then one of 30, then the first drops
      to 10, then the second moves to another product. Returns the first
      product's slots after each step and the second product's slots read
      at the end. */
  method Walkthrough() returns (afterFirst: (Option<int>, Option<int>, Option<int>),
                                afterSecond: (Option<int>, Option<int>, Option<int>),
                                afterRetotal: (Option<int>, Option<int>, Option<int>),
                                afterMove: (Option<int>, Option<int>, Option<int>),
                                target: (Option<int>, Option<int>, Option<int>))
    ensures afterFirst == (Some(1), Some(50), Some(50))
    ensures afterSecond == (Some(2), Some(80), Some(50))
    ensures afterRetotal == (Some(2), Some(40), Some(30))
    ensures afterMove == (Some(1), Some(10), Some(10))
    ensures target == (Some(1), Some(30), Some(30))
  {
    var session := new Session();
    var p1 := new Product(session);
    var p2 := new Product(session);
    var c1 := JoinFirst(session, p1, p2);
    afterFirst := Slots(p1);
    var c2 := JoinSecond(session, p1, c1);
    afterSecond := Slots(p1);
    DropFirst(session, p1, c1, c2);
    afterRetotal := Slots(p1);
    MoveSecond(session, p1, p2, c1, c2);
    afterMove := Slots(p1);
    target := ReadMoved(session, p1, p2);
  }

  /** A load of `p` begins, the store reloads it, its count is read, and the
      load ends. */
  method ReadWhileLoading(p: Product) returns (during: Option<int>)
    modifies p`isLoading, p`ordersCount, p`ordersTotal, p`maximumOrder, p.session`log
    ensures during == None && !p.isLoading && Slots(p) == Unset
  {
    p.isLoading := true;
    p.OnLoaded();
    during := p.OrdersCount();
    p.isLoading := false;
  }

  /** During a load a never-computed slot reads as not computed; after the
      load the same read computes it. */
  method ReadDuringLoad() returns (during: Option<int>, after: Option<int>)
    ensures during == None && after == Some(1)
  {
    var session := new Session();
    var p1 := new Product(session);
    var p2 := new Product(session);
    var c1 := JoinFirst(session, p1, p2);
    assert session.Rows() == [(p1, 50)];
    during := ReadWhileLoading(p1);
    assert Amounts([(p1, 50)], p1) == [50];
    after := p1.OrdersCount();
  }

  /** The only order of `p1` moves to `p2`; `p2`'s slots stay as they were. */
  method MoveFirst(session: Session, p1: Product, p2: Product, c1: Order)
    requires session.Valid() && session.orders == [c1] && p1.session == session && p2.session == session
    requires c1.session == session && !c1.isLoading && !c1.isSaving && p1 != p2
    requires c1.product == p1 && c1.total == 50
    modifies c1`product, session`log, p1`ordersCount, p1`ordersTotal, p1`maximumOrder
    modifies p2`ordersCount, p2`ordersTotal, p2`maximumOrder
    ensures session.Rows() == [(p2, 50)]
    ensures Slots(p2) == old(Slots(p2))
  {
    c1.SetProduct(p2);
  }

  /** An order moving from one product to another refreshes the one it left
      only: a count the new product had computed before stays at 0 although
      the product now has one order. */
  method MoveLeavesTargetStale() returns (before: Option<int>, cached: Option<int>, actual: int)
    ensures before == Some(0) && cached == before && actual == 1
  {
    var session := new Session();
    var p1 := new Product(session);
    var p2 := new Product(session);
    var c1 := JoinFirst(session, p1, p2);
    assert session.Rows() == [(p1, 50)];
    assert Amounts([(p1, 50)], p2) == [];
    before := p2.OrdersCount();
    MoveFirst(session, p1, p2, c1);
    cached := p2.OrdersCount();
    assert Amounts([(p2, 50)], p2) == [50];
    OwnedTotalsAreAmounts(session.orders, p2);
    actual := |p2.Orders()|;
  }
}

# Calculated aggregates of a product's orders

This project is a Dafny model of the business objects `Product` and `Order`
from the CalculatePropertyValue module. A product caches three aggregates of
its orders in nullable slots: the number of orders, the sum of their totals
and their largest total, floored at 0. A getter fills an empty slot on
demand, but not while the product is being loaded or saved. An order asks
its product to recompute the aggregates when its `Total` or its `Product`
really changes outside a load or a save. A reload empties all three slots.

Modules:

- `Wrappers`: the `Option` type of the slots.
- `Reducers`: the two reductions over a sequence of amounts. `Sum` adds
  them up; `MaxFloor` is the running maximum that starts at 0. Lemmas
  characterise `MaxFloor` as the floored maximum and say when it is 0.
- `Membership`: a product's orders are not stored in a list of their own.
  They are the orders whose `product` back-reference names it. A row is the
  pair (product, total) of one order. `Amounts(rows, p)` lists p's totals in
  row order. Lemmas say what moving one row to another owner, or changing
  one row's amount, does to each owner's amounts, their count and their
  sum.
- `BusinessObjects`: the classes.
  - `Session` stands in for the persistence session. It holds every order
    in creation order and the log of change notifications, oldest first.
    `Session.Rows()` is a snapshot of every order's (product, total), so the
    effect of a setter is stated as an update of that snapshot.
  - `Product` holds the three slots and the `isLoading`/`isSaving` flags.
    Its methods are the getters, the `Update*` recomputations
    (`OrdersTotal` and `MaximumOrder` loop over the orders) and
    `OnLoaded`/`Reset`.
  - `Order` holds `total`, `product` and its own flags. It has the two
    setters and the framework's `SetPropertyValue`, modelled as "store and
    report whether the value differed".
- `Scenarios`: client code that drives the objects through these
  situations: an empty product; two orders joining it; a change
  of total; a move to another product; a read during a load; a repeated
  read. It also shows the stale slot described below.

One might expect reassigning an order to refresh both the product it leaves
and the product it joins. The code of the `Product` setter
(`Order.cs:50-56`) refreshes one product only: the previous one, or the new
one when there was none. The model follows the code.
`Scenarios.MoveLeavesTargetStale` shows the consequence: a count the new
product had computed before the move stays at its old value.

## Model

| member | source | states |
|---|---|---|
| Reducers.SumConcat | CalculatePropertyValue.Module/BusinessObjects/Product.cs:84-87 | The sum of a concatenation is the sum of the parts, so adding one more order's total extends the running total. |
| Reducers.MaxFloorAppend | CalculatePropertyValue.Module/BusinessObjects/Product.cs:94-98 | One more amount replaces the running maximum exactly when it is larger. |
| Reducers.MaxFloorIsFlooredMaximum | CalculatePropertyValue.Module/BusinessObjects/Product.cs:94-98 | The maximum is at least 0 and at least every amount. It is one of the amounts unless it is 0. |
| Reducers.FlooredMaximumIsUnique | CalculatePropertyValue.Module/BusinessObjects/Product.cs:94-98 | Any value with those properties is the computed maximum. |
| Reducers.MaxFloorIsZeroIff | CalculatePropertyValue.Module/BusinessObjects/Product.cs:94-98 | The maximum is 0 exactly when no amount is positive, including when there are no orders. |
| Membership.AmountsConcat | CalculatePropertyValue.Module/BusinessObjects/Product.cs:28-31 | A product's amounts over two runs of orders are its amounts over each run, concatenated. |
| Membership.AmountsEmptyIff | CalculatePropertyValue.Module/BusinessObjects/Product.cs:28-31 | A product has no amounts exactly when no order points to it. |
| Membership.AmountsMembership | CalculatePropertyValue.Module/BusinessObjects/Product.cs:28-31 | x is one of p's amounts exactly when some order has product p and total x. |
| Membership.AmountsSplitAt | CalculatePropertyValue.Module/BusinessObjects/Product.cs:28-31 | A product's amounts split around any one order: those before it, that order's amount if p owns it, those after it. |
| Membership.MoveRow | CalculatePropertyValue.Module/BusinessObjects/Order.cs:48-55 | After an order moves from p to q, p's amounts lose exactly that amount at its position and q's gain it there. |
| Membership.MoveRowShrinksOwner | CalculatePropertyValue.Module/BusinessObjects/Order.cs:48-55 | The product an order leaves has one order fewer, and its total drops by that order's amount. |
| Membership.MoveRowGrowsTarget | CalculatePropertyValue.Module/BusinessObjects/Order.cs:48-55 | The product an order joins has one order more, and its total rises by that order's amount. |
| Membership.MoveRowKeepsOthers | CalculatePropertyValue.Module/BusinessObjects/Order.cs:48-49 | A move leaves every other product's amounts unchanged. |
| Membership.RetotalRow | CalculatePropertyValue.Module/BusinessObjects/Order.cs:33-37 | A new total replaces that one amount in its owner's amounts, in place. |
| Membership.RetotalRowShiftsSum | CalculatePropertyValue.Module/BusinessObjects/Order.cs:33-37 | After a new total, the owner's count is unchanged and its sum moves by new minus old. |
| Membership.RetotalRowKeepsOthers | CalculatePropertyValue.Module/BusinessObjects/Order.cs:33 | A new total leaves every other product's amounts unchanged. |
| BusinessObjects.Product.Orders | CalculatePropertyValue.Module/BusinessObjects/Product.cs:27-31 | An order is among the product's orders exactly when it is one of the session's orders and its back-reference names the product. Their order is the session's, which `BusinessObjects.OwnedTotalsAreAmounts` ties to the rows. |
| BusinessObjects.OwnedTotalsAreAmounts | CalculatePropertyValue.Module/BusinessObjects/Product.cs:85-86 | Iterating over a product's `Orders` visits exactly the amounts the rows attribute to it, in order. |
| BusinessObjects.Product.constructor | CalculatePropertyValue.Module/BusinessObjects/Product.cs:20-34 | A new product has all slots unset and is neither loading nor saving. |
| BusinessObjects.Product.OnChanged | CalculatePropertyValue.Module/BusinessObjects/Product.cs:78-79 | A change notification (sender, property name, old value, new value) is appended to the log. |
| BusinessObjects.Product.OrdersCount | CalculatePropertyValue.Module/BusinessObjects/Product.cs:36-44 | Outside a load or save, an empty slot is filled with the count and returned. Otherwise the stored slot is returned, possibly unset. No notification is raised. |
| BusinessObjects.Product.OrdersTotal | CalculatePropertyValue.Module/BusinessObjects/Product.cs:50-58 | The same lazy fill for the sum of the totals. |
| BusinessObjects.Product.MaximumOrder | CalculatePropertyValue.Module/BusinessObjects/Product.cs:63-71 | The same lazy fill for the floored maximum. |
| BusinessObjects.Product.UpdateOrdersCount | CalculatePropertyValue.Module/BusinessObjects/Product.cs:73-80 | The slot becomes the number of orders pointing to the product. The orders are unchanged. Exactly one notification (name, prior value, new value) is raised when forced; none otherwise. |
| BusinessObjects.Product.ComputeOrdersTotal | CalculatePropertyValue.Module/BusinessObjects/Product.cs:84-87 | The loop's result is the sum of the totals of the product's orders, 0 when there are none. |
| BusinessObjects.Product.UpdateOrdersTotal | CalculatePropertyValue.Module/BusinessObjects/Product.cs:81-90 | The slot becomes that sum. Only this slot and the log change. The notification behaves as in UpdateOrdersCount. |
| BusinessObjects.Product.ComputeMaximumOrder | CalculatePropertyValue.Module/BusinessObjects/Product.cs:94-98 | The loop's result is the running maximum from 0 of the orders' totals. |
| BusinessObjects.Product.UpdateMaximumOrder | CalculatePropertyValue.Module/BusinessObjects/Product.cs:91-101 | The slot becomes that maximum. Only this slot and the log change. The notification behaves as in UpdateOrdersCount. |
| BusinessObjects.Product.OnLoaded | CalculatePropertyValue.Module/BusinessObjects/Product.cs:103-107 | After a reload all three slots are unset, whatever they held. |
| BusinessObjects.Product.Reset | CalculatePropertyValue.Module/BusinessObjects/Product.cs:108-113 | All three slots become unset. |
| BusinessObjects.Order.constructor | CalculatePropertyValue.Module/BusinessObjects/Order.cs:20 | A new order has total 0 and no product, and joins the session's orders. |
| BusinessObjects.Order.SetTotalValue | CalculatePropertyValue.Module/BusinessObjects/Order.cs:33 | It stores the total and reports whether it differed. Only this order's row changes. |
| BusinessObjects.Order.SetProductValue | CalculatePropertyValue.Module/BusinessObjects/Order.cs:49 | It stores the product and reports whether it differed. Only this order's row changes. |
| BusinessObjects.Order.SetTotal | CalculatePropertyValue.Module/BusinessObjects/Order.cs:31-39 | When the total really changes, the order has a product, and it is neither loading nor saving: the product's total and maximum equal the aggregates over the new rows, and the total equals old sum minus old total plus new. Two notifications follow, total then maximum. Otherwise no slot and no log entry changes. The count slot never changes. |
| BusinessObjects.Order.RecomputeTotals | CalculatePropertyValue.Module/BusinessObjects/Order.cs:36-37 | Total then maximum are recomputed on one product, each with its notification, and the rows are unchanged. |
| BusinessObjects.Order.RecomputeAll | CalculatePropertyValue.Module/BusinessObjects/Order.cs:53-55 | Count, total and maximum are recomputed on one product, with three notifications in that order, and the rows are unchanged. |
| BusinessObjects.Order.SetProduct | CalculatePropertyValue.Module/BusinessObjects/Order.cs:46-57 | On a real change outside a load or save, the previous product now reflects the rows without this order. When there was no previous product, the new one is recomputed instead and includes it. Three notifications follow for that one product. The new product is untouched when the previous one existed. A no-op or guarded write changes no slot and no log entry. |
| Scenarios.ReadOrdersTotalTwice | CalculatePropertyValue.Module/BusinessObjects/Product.cs:52-57 | Two reads in a row return the same value and raise nothing. Outside a load or save the first read already returns a value. |
| Scenarios.EmptyProduct | CalculatePropertyValue.Module/BusinessObjects/Product.cs:36-71 | A product with no orders reads 0, 0 and 0. |
| Scenarios.Walkthrough | CalculatePropertyValue.Module/BusinessObjects/Order.cs:31-57 | Orders of 50 and 30 join P1, giving (1, 50, 50) then (2, 80, 50). 50 becomes 10, giving (2, 40, 30). The 30 moves to P2, giving P1 (1, 10, 10) and, on first read, P2 (1, 30, 30). |
| Scenarios.ReadDuringLoad | CalculatePropertyValue.Module/BusinessObjects/Product.cs:38-43 | After a reload, a read during the load returns unset. The same read after the load computes the count. |
| Scenarios.MoveLeavesTargetStale | CalculatePropertyValue.Module/BusinessObjects/Order.cs:50-56 | A count computed before an order joins a product stays at 0 after the join, although the product now has one order. |

## Left out

- Persistence: the store, `BaseObject`, the persistent attributes and round trips to the store. The session keeps its orders in memory.
- BusinessObjects.Product.UpdateOrdersCount: does not model `Session.Evaluate` with its parsed criteria, which runs as a store query. The count is the number of in-memory orders pointing to the product. The `Convert.ToInt32` narrowing is not modelled either, because counts are unbounded integers.
- Amounts, sums and maxima are unbounded integers, not `decimal`. The model has no fractional amounts, no decimal precision and no overflow exception.
- How the framework sets `IsLoading`/`IsSaving`: they are plain booleans a client can toggle. Their scoped clearing on failure is not modelled.
- BusinessObjects.Order.SetTotal: the log holds only the products' aggregate notifications. The change notification `SetPropertyValue` raises for `Total` or `Product` itself is not recorded.
- The association synchronisation of the `Orders` collection: membership is derived from each order's `product` back-reference. There is no separate collection that could fall out of step.
- The `Name` and `Description` string properties and the UI and validation attributes, because they do not take part in the calculation.
- BusinessObjects.Order.SetProduct: its contract does not state the change in the count and total directly. It states the row update and that the slots equal the aggregates over the new rows. The count and total change is then stated by `Membership.MoveRowShrinksOwner` and `Membership.MoveRowGrowsTarget`.
- BusinessObjects.Order.SetProductValue: an order and its product must belong to one session. The framework refuses a product from another session with an error; that error path is not modelled, and the same restriction carries over to `BusinessObjects.Order.SetProduct`.

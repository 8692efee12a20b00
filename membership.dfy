/** Which orders belong to a product. Membership is not kept as a separate
    list: it is derived from each order's back-reference. A row is the pair
    (owner, amount) of one order, and the rows of a session list its orders
    in arrival order. */
module Membership {

  import Reducers

  /** The amount of `row` if `p` owns it, as a sequence of zero or one element. */
  function Own<P(==)>(row: (P, int), p: P): (r: seq<int>)
  {
    if row.0 == p then [row.1] else []
  }

  /** The amounts of the rows owned by `p`, in row order. */
  function Amounts<P(==)>(rows: seq<(P, int)>, p: P): (r: seq<int>)
    ensures |r| <= |rows|
  {
    if rows == [] then [] else Own(rows[0], p) + Amounts(rows[1..], p)
  }

  lemma {:induction false} AmountsConcat<P>(a: seq<(P, int)>, b: seq<(P, int)>, p: P)
    ensures Amounts(a + b, p) == Amounts(a, p) + Amounts(b, p)
  {
    if a == [] {
      assert a + b == b;
    } else {
      assert (a + b)[1..] == a[1..] + b;
      AmountsConcat(a[1..], b, p);
    }
  }

  /** An owner has no amounts exactly when no row names it. */
  lemma {:induction false} AmountsEmptyIff<P>(rows: seq<(P, int)>, p: P)
    ensures Amounts(rows, p) == [] <==> forall k :: 0 <= k < |rows| ==> rows[k].0 != p
  {
    if rows != [] {
      AmountsEmptyIff(rows[1..], p);
      assert forall k :: 1 <= k < |rows| ==> rows[k] == rows[1..][k - 1];
    }
  }

  /** `x` is one of p's amounts exactly when some row is (p, x). */
  lemma {:induction false} AmountsMembership<P>(rows: seq<(P, int)>, p: P, x: int)
    ensures x in Amounts(rows, p) <==> exists k :: 0 <= k < |rows| && rows[k] == (p, x)
  {
    if rows != [] {
      AmountsMembership(rows[1..], p, x);
      if exists k :: 0 <= k < |rows| && rows[k] == (p, x) {
        var k :| 0 <= k < |rows| && rows[k] == (p, x);
        if k > 0 { assert rows[1..][k - 1] == (p, x); }
      }
      if exists k :: 0 <= k < |rows[1..]| && rows[1..][k] == (p, x) {
        var k :| 0 <= k < |rows[1..]| && rows[1..][k] == (p, x);
        assert rows[k + 1] == (p, x);
      }
    }
  }

  /** The amounts of `p` split around row `i`. */
  lemma {:induction false} AmountsSplitAt<P>(rows: seq<(P, int)>, i: nat, p: P)
    requires i < |rows|
    ensures Amounts(rows, p) == Amounts(rows[..i], p) + Own(rows[i], p) + Amounts(rows[i + 1..], p)
  {
    var tail := rows[i..];
    assert rows == rows[..i] + tail;
    AmountsConcat(rows[..i], tail, p);
    assert tail != [] && tail[0] == rows[i] && tail[1..] == rows[i + 1..];
    assert Amounts(tail, p) == Own(rows[i], p) + Amounts(rows[i + 1..], p);
  }

  /** Reassigning order `i` from its owner to a different owner `q`: the
      old owner's amounts are the old ones with exactly that order's amount
      taken out, and `q`'s are its old ones with that amount put in at the
      order's position. */
  lemma MoveRow<P>(rows: seq<(P, int)>, i: nat, q: P)
    requires i < |rows| && rows[i].0 != q
    ensures var moved := rows[i := (q, rows[i].1)];
      var p, amount := rows[i].0, rows[i].1;
      && Amounts(rows, p) == Amounts(rows[..i], p) + [amount] + Amounts(rows[i + 1..], p)
      && Amounts(moved, p) == Amounts(rows[..i], p) + Amounts(rows[i + 1..], p)
      && Amounts(rows, q) == Amounts(rows[..i], q) + Amounts(rows[i + 1..], q)
      && Amounts(moved, q) == Amounts(rows[..i], q) + [amount] + Amounts(rows[i + 1..], q)
  {
    var moved := rows[i := (q, rows[i].1)];
    var p := rows[i].0;
    assert moved[..i] == rows[..i] && moved[i + 1..] == rows[i + 1..];
    AmountsSplitAt(rows, i, p);
    AmountsSplitAt(moved, i, p);
    AmountsSplitAt(rows, i, q);
    AmountsSplitAt(moved, i, q);
    assert Own(rows[i], q) == [] && Own(moved[i], p) == [];
  }

  /** The previous owner of a reassigned order has one order fewer and a
      total lower by its amount. */
  lemma MoveRowShrinksOwner<P>(rows: seq<(P, int)>, i: nat, q: P)
    requires i < |rows| && rows[i].0 != q
    ensures var moved := rows[i := (q, rows[i].1)];
      && |Amounts(moved, rows[i].0)| == |Amounts(rows, rows[i].0)| - 1
      && Reducers.Sum(Amounts(moved, rows[i].0)) == Reducers.Sum(Amounts(rows, rows[i].0)) - rows[i].1
  {
    var p, amount := rows[i].0, rows[i].1;
    MoveRow(rows, i, q);
    Reducers.SumConcat(Amounts(rows[..i], p) + [amount], Amounts(rows[i + 1..], p));
    Reducers.SumConcat(Amounts(rows[..i], p), [amount]);
    Reducers.SumConcat(Amounts(rows[..i], p), Amounts(rows[i + 1..], p));
  }

  /** The new owner of a reassigned order has one order more and a total
      higher by its amount. */
  lemma MoveRowGrowsTarget<P>(rows: seq<(P, int)>, i: nat, q: P)
    requires i < |rows| && rows[i].0 != q
    ensures var moved := rows[i := (q, rows[i].1)];
      && |Amounts(moved, q)| == |Amounts(rows, q)| + 1
      && Reducers.Sum(Amounts(moved, q)) == Reducers.Sum(Amounts(rows, q)) + rows[i].1
  {
    var amount := rows[i].1;
    MoveRow(rows, i, q);
    Reducers.SumConcat(Amounts(rows[..i], q) + [amount], Amounts(rows[i + 1..], q));
    Reducers.SumConcat(Amounts(rows[..i], q), [amount]);
    Reducers.SumConcat(Amounts(rows[..i], q), Amounts(rows[i + 1..], q));
  }

  /** Owners other than the two involved keep their amounts. */
  lemma MoveRowKeepsOthers<P>(rows: seq<(P, int)>, i: nat, q: P, r: P)
    requires i < |rows| && r != rows[i].0 && r != q
    ensures Amounts(rows[i := (q, rows[i].1)], r) == Amounts(rows, r)
  {
    var moved := rows[i := (q, rows[i].1)];
    assert moved[..i] == rows[..i] && moved[i + 1..] == rows[i + 1..];
    AmountsSplitAt(rows, i, r);
    AmountsSplitAt(moved, i, r);
  }

  /** Changing the amount of order `i` to `v` replaces that one amount in
      its owner's amounts, in place. */
  lemma RetotalRow<P>(rows: seq<(P, int)>, i: nat, v: int)
    requires i < |rows|
    ensures var changed := rows[i := (rows[i].0, v)];
      var p := rows[i].0;
      && Amounts(rows, p) == Amounts(rows[..i], p) + [rows[i].1] + Amounts(rows[i + 1..], p)
      && Amounts(changed, p) == Amounts(rows[..i], p) + [v] + Amounts(rows[i + 1..], p)
  {
    var changed := rows[i := (rows[i].0, v)];
    assert changed[..i] == rows[..i] && changed[i + 1..] == rows[i + 1..];
    AmountsSplitAt(rows, i, rows[i].0);
    AmountsSplitAt(changed, i, rows[i].0);
  }

  /** ... so the owner keeps its number of orders and its total moves by
      the difference between the new and the old amount. */
  lemma RetotalRowShiftsSum<P>(rows: seq<(P, int)>, i: nat, v: int)
    requires i < |rows|
    ensures var changed := rows[i := (rows[i].0, v)];
      && |Amounts(changed, rows[i].0)| == |Amounts(rows, rows[i].0)|
      && Reducers.Sum(Amounts(changed, rows[i].0)) == Reducers.Sum(Amounts(rows, rows[i].0)) - rows[i].1 + v
  {
    var p, amount := rows[i].0, rows[i].1;
    RetotalRow(rows, i, v);
    Reducers.SumConcat(Amounts(rows[..i], p) + [amount], Amounts(rows[i + 1..], p));
    Reducers.SumConcat(Amounts(rows[..i], p), [amount]);
    Reducers.SumConcat(Amounts(rows[..i], p) + [v], Amounts(rows[i + 1..], p));
    Reducers.SumConcat(Amounts(rows[..i], p), [v]);
  }

  /** Changing an order's amount leaves every other owner's amounts alone. */
  lemma RetotalRowKeepsOthers<P>(rows: seq<(P, int)>, i: nat, v: int, r: P)
    requires i < |rows| && r != rows[i].0
    ensures Amounts(rows[i := (rows[i].0, v)], r) == Amounts(rows, r)
  {
    var changed := rows[i := (rows[i].0, v)];
    assert changed[..i] == rows[..i] && changed[i + 1..] == rows[i + 1..];
    AmountsSplitAt(rows, i, r);
    AmountsSplitAt(changed, i, r);
  }
}
